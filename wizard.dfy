/**
 * The add-pet wizard: a step counter between 1 and `TotalSteps`, a draft of
 * the pet being added, and the buttons each step shows. The wizard's parent
 * is told through two callbacks, `onClose` and `onComplete`; here they are
 * recorded in the `closed` flag and in the list of drafts handed over.
 */
module AddPetWizard {
  import opened Common

  const TotalSteps := 5

  datatype Size = Small | Medium | Large

  /** The `Partial<Pet>` form data the wizard fills in. */
  datatype Draft = Draft(name: string, breed: string, size: Size)

  const InitialDraft := Draft("", "", Medium)

  /** The names of the breed cards on step 1. */
  const Breeds: seq<string> := ["Akita", "Beagle", "Bichon Frise", "Border Collie", "Boxer", "Chow Chow"]

  /** What the user can act on: the header's back button, the buttons of
      each step, a breed card, the name field and a size card. */
  datatype Control =
    | Back | Continue | Skip | Finish | Save
    | PickBreed(breed: string) | TypeName(name: string) | PickSize(size: Size)

  /** The wizard as a value: what the component holds plus what it has told
      its parent. */
  datatype WizardState = WizardState(step: int, form: Draft, closed: bool, completed: seq<Draft>)

  /** Whether `c` is on screen and enabled at `s`: step 1 shows the breed
      cards, Continue (only once a breed is chosen) and Skip; step 2 shows the
      name field and Continue (only once a name is typed); step 3 the size
      cards and Finish; any later step Save. */
  predicate Enabled(s: WizardState, c: Control)
  {
    match c
    case Back => true
    case Continue => (s.step == 1 && s.form.breed != "") || (s.step == 2 && s.form.name != "")
    case Skip => s.step == 1
    case PickBreed(b) => s.step == 1 && b in Breeds
    case TypeName(_) => s.step == 2
    case PickSize(_) => s.step == 3
    case Finish => s.step == 3
    case Save => s.step > 3
  }

  /** What acting on `c` does; a control that is not enabled does nothing. */
  function Step(s: WizardState, c: Control): WizardState
  {
    if !Enabled(s, c) then s
    else
      match c
      case Back => if s.step == 1 then s.(closed := true) else s.(step := s.step - 1)
      case Continue => s.(step := Min(s.step + 1, TotalSteps))
      case Skip => s.(step := Min(s.step + 1, TotalSteps))
      case PickBreed(b) => s.(form := s.form.(breed := b))
      case TypeName(n) => s.(form := s.form.(name := n))
      case PickSize(z) => s.(form := s.form.(size := z))
      case Finish => s.(completed := s.completed + [s.form])
      case Save => s.(completed := s.completed + [s.form])
  }

  /** The steps a series of controls leads through. */
  function Run(s: WizardState, cs: seq<Control>): WizardState
    decreases |cs|
  {
    if cs == [] then s else Run(Step(s, cs[0]), cs[1..])
  }

  class Wizard {
    var step: int
    var form: Draft
    var closed: bool
    var completed: seq<Draft>

    ghost predicate Valid()
      reads this
    {
      1 <= step <= TotalSteps
    }

    function State(): WizardState
      reads this
    {
      WizardState(step, form, closed, completed)
    }

    constructor()
      ensures Valid()
      ensures step == 1 && form == InitialDraft && !closed && completed == []
    {
      step := 1;
      form := InitialDraft;
      closed := false;
      completed := [];
    }

    /** `handleNext`: one step on, never past the last. */
    method HandleNext()
      requires Valid()
      modifies this
      ensures Valid()
      ensures step == Min(old(step) + 1, TotalSteps)
      ensures form == old(form) && closed == old(closed) && completed == old(completed)
    {
      step := Min(step + 1, TotalSteps);
    }

    /** `handleBack`: on step 1 the wizard is closed and the step stays;
        otherwise one step back. */
    method HandleBack()
      requires Valid()
      modifies this
      ensures Valid()
      ensures old(step) == 1 ==> closed && step == 1
      ensures old(step) != 1 ==> step == old(step) - 1 && closed == old(closed)
      ensures form == old(form) && completed == old(completed)
    {
      if step == 1 {
        closed := true;
      } else {
        step := step - 1;
      }
    }

    /** `handleSubmit`: the draft goes to `onComplete` as it is. */
    method HandleSubmit()
      modifies this
      ensures completed == old(completed) + [old(form)]
      ensures step == old(step) && form == old(form) && closed == old(closed)
    {
      completed := completed + [form];
    }

    /** Acting on one control of the current screen. */
    method Press(c: Control)
      requires Valid()
      modifies this
      ensures Valid()
      ensures State() == Step(old(State()), c)
    {
      if !Enabled(State(), c) {
        return;
      }
      match c
      case Back => HandleBack();
      case Continue => HandleNext();
      case Skip => HandleNext();
      case PickBreed(b) => form := form.(breed := b);
      case TypeName(n) => form := form.(name := n);
      case PickSize(z) => form := form.(size := z);
      case Finish => HandleSubmit();
      case Save => HandleSubmit();
    }
  }

  // ---------------------------------------------------------------------------
  // Properties of the steps.

  predicate InRange(s: WizardState)
  {
    1 <= s.step <= TotalSteps
  }

  /** No control takes the step outside 1..TotalSteps. */
  lemma StepInRange(s: WizardState, c: Control)
    requires InRange(s)
    ensures InRange(Step(s, c))
  {
  }

  /** Nor does any series of them. */
  lemma {:induction false} RunInRange(s: WizardState, cs: seq<Control>)
    requires InRange(s)
    ensures InRange(Run(s, cs))
    decreases |cs|
  {
    if cs != [] {
      StepInRange(s, cs[0]);
      RunInRange(Step(s, cs[0]), cs[1..]);
    }
  }

  /** Step 3 shows no control that moves forward, so from the first three
      steps the wizard never gets further: steps 4 and 5, and their Save
      button, cannot be reached. */
  lemma {:induction false} NeverPastSizeStep(s: WizardState, cs: seq<Control>)
    requires 1 <= s.step <= 3
    ensures 1 <= Run(s, cs).step <= 3
    decreases |cs|
  {
    if cs != [] {
      NeverPastSizeStep(Step(s, cs[0]), cs[1..]);
    }
  }

  /** Only the breed cards set the breed: starting from a draft with no breed
      or a card's, every draft handed to the parent has no breed or the name
      of one of the cards. */
  lemma {:induction false} CompletedBreedsAreCards(s: WizardState, cs: seq<Control>)
    requires s.form.breed == "" || s.form.breed in Breeds
    requires forall d :: d in s.completed ==> d.breed == "" || d.breed in Breeds
    ensures forall d :: d in Run(s, cs).completed ==> d.breed == "" || d.breed in Breeds
    decreases |cs|
  {
    if cs != [] {
      var t := Step(s, cs[0]);
      assert t.form.breed == "" || t.form.breed in Breeds;
      CompletedBreedsAreCards(t, cs[1..]);
    }
  }

  /** Continue on step 1 moves on exactly when a breed is chosen; Skip
      always does. */
  lemma BreedStepGuards(s: WizardState)
    requires s.step == 1
    ensures Step(s, Continue).step == 2 <==> s.form.breed != ""
    ensures Step(s, Continue).step == 1 <==> s.form.breed == ""
    ensures Step(s, Skip).step == 2
    ensures Step(s, Skip).form == s.form && Step(s, Continue).form == s.form
  {
  }

  /** Continue on step 2 moves on exactly when a name is typed. */
  lemma NameStepGuard(s: WizardState)
    requires s.step == 2
    ensures Step(s, Continue).step == 3 <==> s.form.name != ""
    ensures Step(s, Continue).step == 2 <==> s.form.name == ""
  {
  }

  /** A size card sets the size and nothing else. */
  lemma SizeOnlySetsSize(s: WizardState, z: Size)
    requires s.step == 3
    ensures Step(s, PickSize(z)).form == Draft(s.form.name, s.form.breed, z)
    ensures Step(s, PickSize(z)).step == 3 && Step(s, PickSize(z)).completed == s.completed
  {
  }

  /** Finish hands the draft over unchanged, and stays on the step. */
  lemma FinishHandsOverDraft(s: WizardState)
    requires s.step == 3
    ensures Step(s, Finish).completed == s.completed + [s.form]
    ensures Step(s, Finish).form == s.form && Step(s, Finish).step == 3
  {
  }

  /** Back on step 1 closes the wizard; later, it goes one step back. */
  lemma BackStep(s: WizardState)
    ensures s.step == 1 ==> Step(s, Back) == s.(closed := true)
    ensures s.step != 1 ==> Step(s, Back) == s.(step := s.step - 1)
  {
  }

  /** The shortest way through: pick a breed, type a name, pick a size and
      finish. The parent gets exactly those three answers. */
  lemma HappyPath(name: string, z: Size)
    requires name != ""
    ensures var s := Run(WizardState(1, InitialDraft, false, []),
                         [PickBreed("Beagle"), Continue, TypeName(name), Continue, PickSize(z), Finish]);
      s.completed == [Draft(name, "Beagle", z)] && s.step == 3 && !s.closed
  {
    var s0 := WizardState(1, InitialDraft, false, []);
    var cs := [PickBreed("Beagle"), Continue, TypeName(name), Continue, PickSize(z), Finish];
    var s1 := Step(s0, cs[0]);
    assert s1.form.breed == "Beagle";
    var s2 := Step(s1, cs[1]);
    var s3 := Step(s2, cs[2]);
    var s4 := Step(s3, cs[3]);
    var s5 := Step(s4, cs[4]);
    var s6 := Step(s5, cs[5]);
    assert cs[1..][1..] == cs[2..] && cs[2..][1..] == cs[3..] && cs[3..][1..] == cs[4..];
    assert cs[4..][1..] == cs[5..] && cs[5..][1..] == [];
    assert Run(s5, cs[5..]) == s6;
    assert Run(s4, cs[4..]) == s6;
    assert Run(s3, cs[3..]) == s6;
    assert Run(s2, cs[2..]) == s6;
    assert Run(s1, cs[1..]) == s6;
  }
}
