/**
 * The admin panel: the appointment list loaded from the backend, the
 * dashboard that lists the first five, and the kanban board that splits the
 * list into one column per status, with a button on each card that moves it
 * to the next status.
 */
module Admin {
  import opened Common

  /** An appointment's `status` as the backend stores it. `Other(name)`
      stands only for a `name` that is none of 'pending', 'confirmed',
      'in_progress' and 'completed'; those four strings are the other four
      constructors. */
  datatype Status = Pending | Confirmed | InProgress | Completed | Other(name: string)

  datatype Appointment = Appointment(id: int, status: Status)

  /** The board's columns, left to right. */
  const Board: seq<Status> := [Pending, Confirmed, InProgress, Completed]

  /** The status a card's button moves it to, by the column it is in:
      "Aprovar", "Iniciar", "Finalizar", and no button in the last column. */
  function Advance(column: Status): Option<Status>
  {
    match column
    case Pending => Some(Confirmed)
    case Confirmed => Some(InProgress)
    case InProgress => Some(Completed)
    case _ => None
  }

  /** The position of a status on the board. */
  function Rank(s: Status): Option<nat>
  {
    match s
    case Pending => Some(0)
    case Confirmed => Some(1)
    case InProgress => Some(2)
    case Completed => Some(3)
    case Other(_) => None
  }

  /** The items of the column for `s`: `appointments.filter(a => a.status === s)`. */
  function Column(apps: seq<Appointment>, s: Status): seq<Appointment>
  {
    Filter(apps, (a: Appointment) => a.status == s)
  }

  /** The appointments on no column. */
  function OffBoard(apps: seq<Appointment>): seq<Appointment>
  {
    Filter(apps, (a: Appointment) => a.status.Other?)
  }

  /** The dashboard's `appointments.slice(0, 5)`. */
  function Dashboard(apps: seq<Appointment>): seq<Appointment>
  {
    if |apps| <= 5 then apps else apps[..5]
  }

  datatype Tab = DashboardTab | KanbanTab

  /** The backend calls the panel issues. */
  datatype AdminCall = GetAllAppointments | UpdateStatus(id: int, status: Status)

  class AdminPanel {
    var appointments: seq<Appointment>
    var tab: Tab
    var loading: bool

    /** Mounting: the list is empty, the dashboard tab is on and the first
        load is under way. */
    constructor()
      ensures appointments == [] && tab == DashboardTab && loading
    {
      appointments := [];
      tab := DashboardTab;
      loading := true;
    }

    /** `fetchData` up to its `await`: the spinner is on and the list is
        requested. */
    method FetchStart() returns (calls: seq<AdminCall>)
      modifies this
      ensures loading && calls == [GetAllAppointments]
      ensures appointments == old(appointments) && tab == old(tab)
    {
      loading := true;
      calls := [GetAllAppointments];
    }

    /** `fetchData` after its `await`: a list that arrives replaces the old
        one, a rejection keeps it, and in both cases the spinner goes off. */
    method FetchSettle(result: Option<seq<Appointment>>)
      modifies this
      ensures !loading && tab == old(tab)
      ensures appointments == if result.Some? then result.value else old(appointments)
    {
      if result.Some? {
        appointments := result.value;
      }
      loading := false;
    }

    /** A card's button in `column`: the status update is sent and, when it
        resolves, the list is fetched again. A card in the last column, or
        one whose update rejects, triggers no reload. */
    method PressAdvance(column: Status, app: Appointment, updateRejects: bool) returns (calls: seq<AdminCall>)
      requires app in Column(appointments, column)
      modifies this
      ensures Advance(column).None? ==> calls == [] && loading == old(loading)
      ensures Advance(column).Some? && updateRejects ==>
        calls == [UpdateStatus(app.id, Advance(column).value)] && loading == old(loading)
      ensures Advance(column).Some? && !updateRejects ==>
        calls == [UpdateStatus(app.id, Advance(column).value), GetAllAppointments] && loading
      ensures appointments == old(appointments) && tab == old(tab)
    {
      calls := [];
      var next := Advance(column);
      if next.None? {
        return;
      }
      calls := [UpdateStatus(app.id, next.value)];
      if updateRejects {
        return;
      }
      var more := FetchStart();
      calls := calls + more;
    }

    method SetTab(t: Tab)
      modifies this
      ensures tab == t && appointments == old(appointments) && loading == old(loading)
    {
      tab := t;
    }
  }

  // ---------------------------------------------------------------------------
  // Properties.

  /** The buttons only move a card one column to the right; the last column
      and any status off the board have none. */
  lemma AdvanceIsNextColumn(s: Status)
    ensures Advance(s).Some? <==> Rank(s).Some? && Rank(s).value < 3
    ensures Advance(s).Some? ==> Rank(Advance(s).value) == Some(Rank(s).value + 1)
    ensures Advance(Completed) == None
  {
  }

  /** Advance never goes back: from pending it takes exactly three presses to
      reach completed, after which nothing moves. */
  lemma AdvanceChain()
    ensures Advance(Pending) == Some(Confirmed)
    ensures Advance(Confirmed) == Some(InProgress)
    ensures Advance(InProgress) == Some(Completed)
    ensures forall s :: Advance(s).Some? ==> Advance(s).value != Pending && Advance(s).value != s
  {
  }

  /** A column holds exactly the appointments with its status. */
  lemma ColumnMembers(apps: seq<Appointment>, s: Status, a: Appointment)
    ensures a in Column(apps, s) <==> a in apps && a.status == s
  {
  }

  /** Appending to the list appends to the column: together with the
      one-element case the column keeps list order. */
  lemma ColumnAppend(a: seq<Appointment>, b: seq<Appointment>, s: Status)
    ensures Column(a + b, s) == Column(a, s) + Column(b, s)
  {
    FilterAppend(a, b, (x: Appointment) => x.status == s);
  }

  /** The columns never share a card, and a card with another status is on
      none of them. */
  lemma ColumnsDisjoint(apps: seq<Appointment>, s: Status, t: Status, a: Appointment)
    requires s != t
    ensures !(a in Column(apps, s) && a in Column(apps, t))
    ensures a.status.Other? ==> forall k :: 0 <= k < |Board| ==> a !in Column(apps, Board[k])
  {
  }

  /** The four columns and the appointments off the board split the list:
      every appointment is counted exactly once. */
  lemma {:induction false} ColumnsPartition(apps: seq<Appointment>)
    ensures |Column(apps, Pending)| + |Column(apps, Confirmed)| + |Column(apps, InProgress)|
            + |Column(apps, Completed)| + |OffBoard(apps)| == |apps|
  {
    if apps != [] {
      ColumnsPartition(apps[1..]);
    }
  }

  /** The dashboard shows the first five appointments, or all of them when
      there are fewer. */
  lemma DashboardIsPrefix(apps: seq<Appointment>)
    ensures |Dashboard(apps)| == Min(5, |apps|)
    ensures Dashboard(apps) <= apps
    ensures Dashboard(apps) == [] <==> apps == []
  {
  }
}
