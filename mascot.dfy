/**
 * The mascot in the corner of the screen: when it is drawn, when its speech
 * bubble shows, and what its three handlers do. It holds no state of its
 * own; the bubble flag belongs to the shell and is changed through
 * `setShowMascotBubble`.
 */
module Mascot {
  import opened Login

  /** The shell's current view; only the chat view matters here.
      `OtherView(name)` stands only for a `name` other than 'chat'. */
  datatype View = ChatView | OtherView(name: string)

  /** `showBookingModal || view === 'chat' || loginStage !== 'idle'` hides it. */
  predicate Visible(showBookingModal: bool, view: View, stage: LoginStage)
  {
    !(showBookingModal || view == ChatView || stage != Idle)
  }

  /** `showMascotBubble && mascotMessage`: an empty message shows no bubble. */
  predicate BubbleShown(visible: bool, showBubble: bool, message: string)
  {
    visible && showBubble && message != ""
  }

  datatype Event = CloseBubble | Hover | ClickMascot

  /** The callbacks the handlers call. */
  datatype Effect = SetBubble(show: bool) | TriggerBooking | TriggerLogin

  /** The handler of each event; the click depends on whether a session
      exists. */
  function Dispatch(e: Event, hasSession: bool): Effect
  {
    match e
    case CloseBubble => SetBubble(false)
    case Hover => SetBubble(true)
    case ClickMascot => if hasSession then TriggerBooking else TriggerLogin
  }

  /** The mascot is drawn exactly when the booking modal is closed, the chat
      is not on screen and no login is under way. */
  lemma VisibleIff(showBookingModal: bool, view: View, stage: LoginStage)
    ensures Visible(showBookingModal, view, stage) <==> !showBookingModal && view != ChatView && stage == Idle
    ensures stage == Authenticating || stage == Welcome ==> !Visible(showBookingModal, view, stage)
  {
  }

  /** The bubble needs the mascot drawn, the flag up and a message. */
  lemma BubbleIff(visible: bool, showBubble: bool, message: string)
    ensures BubbleShown(visible, showBubble, message) <==> visible && showBubble && |message| > 0
    ensures !BubbleShown(visible, false, message)
  {
  }

  /** Closing lowers the flag, hovering raises it, and a click books for a
      signed-in user and asks anyone else to log in; no event does both. */
  lemma DispatchEffects(hasSession: bool)
    ensures Dispatch(CloseBubble, hasSession) == SetBubble(false)
    ensures Dispatch(Hover, hasSession) == SetBubble(true)
    ensures Dispatch(ClickMascot, hasSession) == TriggerBooking <==> hasSession
    ensures Dispatch(ClickMascot, hasSession) == TriggerLogin <==> !hasSession
  {
  }

  /** After a close the bubble is gone whatever the message; after a hover it
      shows exactly when there is a message to show. */
  lemma BubbleAfterEvents(visible: bool, message: string, hasSession: bool)
    ensures !BubbleShown(visible, Dispatch(CloseBubble, hasSession).show, message)
    ensures BubbleShown(visible, Dispatch(Hover, hasSession).show, message) <==> visible && message != ""
  {
  }
}
