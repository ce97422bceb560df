/** The save button: three statuses (idle, saving, saved) and a "bounce"
    flag, stepped by a click, by the settlement of the save that the click
    started, and by the timer that resets the button after a success. The
    asynchronous steps are event methods: `Settle` is what runs once the
    awaited save (or, without a save handler, the 2-second delay) is over,
    `ResetTimerFired` is the 2-second timer set after a success. */
module SaveButtonMachine {

  datatype Status = Idle | Saving | Saved

  /** How the awaited part of a save ended. `ResolvedFalse`: the handler's
      promise gave `false`; `ResolvedOther`: it gave anything else (`true`,
      `undefined`, ...); `Rejected`: it threw; `DelayElapsed`: there is no
      handler and the stand-in delay is over. */
  datatype Settlement = ResolvedFalse | ResolvedOther | Rejected | DelayElapsed

  /** The three captions the button can show. */
  datatype Captions = Captions(idle: string, saving: string, saved: string)

  const DefaultCaptions := Captions("Save", "Saving...", "Saved!")

  /** The status a settled save leaves the button in: saved only when the save
      went through (a result other than `false`, or the delay without a
      handler); back to idle on `false` and on an error. */
  function SettledStatus(s: Settlement): (r: Status)
    ensures r != Saving
    ensures r == Saved <==> s == ResolvedOther || s == DelayElapsed
    ensures r == Idle <==> s == ResolvedFalse || s == Rejected
  {
    match s
    case ResolvedFalse => Idle
    case ResolvedOther => Saved
    case Rejected => Idle
    case DelayElapsed => Saved
  }

  /** The caption shown for a status. */
  function Label(status: Status, text: Captions): (l: string)
    ensures status == Idle ==> l == text.idle
    ensures status == Saving ==> l == text.saving
    ensures status == Saved ==> l == text.saved
  {
    if status == Idle then text.idle
    else if status == Saving then text.saving
    else text.saved
  }

  /** With three different captions the caption tells the status apart. */
  lemma LabelShowsStatus(s: Status, t: Status, text: Captions)
    requires text.idle != text.saving && text.idle != text.saved && text.saving != text.saved
    ensures Label(s, text) == Label(t, text) <==> s == t
  {
  }

  /** The scale the button grows to while hovered: it grows only when idle. */
  function HoverScale(status: Status): (k: real)
    ensures k != 1.0 <==> status == Idle
    ensures k >= 1.0
  {
    if status == Idle then 1.05 else 1.0
  }

  /** The scale the button shrinks to while pressed: it shrinks only when idle. */
  function TapScale(status: Status): (k: real)
    ensures k != 1.0 <==> status == Idle
    ensures 0.0 < k <= 1.0
  {
    if status == Idle then 0.95 else 1.0
  }

  class SaveButton {
    var status: Status
    var bounce: bool
    /** How many times confetti has been fired. */
    var bursts: nat
    /** Whether an `onSave` handler was given. */
    const hasSaveHandler: bool

    /** The button bounces exactly while it shows "saved". */
    predicate Valid()
      reads this
    {
      bounce <==> status == Saved
    }

    constructor (hasSaveHandler: bool)
      ensures Valid()
      ensures status == Idle && !bounce && bursts == 0
      ensures this.hasSaveHandler == hasSaveHandler
    {
      status := Idle;
      bounce := false;
      bursts := 0;
      this.hasSaveHandler := hasSaveHandler;
    }

    /** `handleSave`, up to the await: only an idle button reacts, and it
        goes to saving. */
    method Click()
      requires Valid()
      modifies this
      ensures Valid()
      ensures old(status) == Idle ==> status == Saving
      ensures old(status) != Idle ==> status == old(status)
      ensures bounce == old(bounce) && bursts == old(bursts)
    {
      if status == Idle {
        status := Saving;
      }
    }

    /** `handleSave`, after the await: a success shows "saved", starts the
        bounce and fires confetti; `false` and an error go back to idle
        without either. The delay stands in for the save exactly when there
        is no handler. */
    method Settle(s: Settlement)
      requires Valid() && status == Saving
      requires s == DelayElapsed <==> !hasSaveHandler
      modifies this
      ensures Valid()
      ensures status == SettledStatus(s)
      ensures bounce <==> s == ResolvedOther || s == DelayElapsed
      ensures bursts == old(bursts) + (if status == Saved then 1 else 0)
    {
      if s == ResolvedFalse {
        status := Idle;
        return;
      }
      if s == Rejected {
        status := Idle;
        return;
      }
      status := Saved;
      bounce := true;
      bursts := bursts + 1;
    }

    /** The timer set after a success: back to idle, bounce off. */
    method ResetTimerFired()
      requires Valid() && status == Saved
      modifies this
      ensures Valid()
      ensures status == Idle && !bounce && bursts == old(bursts)
    {
      status := Idle;
      bounce := false;
    }
  }
}
