/**
 * The high-pain alert of the pain-area screen (PainArea.js): the pain and
 * comfort sliders, the effect that opens the alert once each time the
 * pain reaches 8, the ways of dismissing it, and the submit navigation.
 * A slider value reaches the model already rounded to a whole level.
 */
module PainArea {
  import opened Wrappers

  /** The level at which the alert opens. */
  const HighPain: int := 8

  /** The screen's state: the two levels, the alert's visibility and the latch. */
  datatype PainState = PainState(painLevel: int, comfortLevel: int, showHighPainModal: bool, hasShownModal: bool)

  /** Pain 3, comfort 7, alert closed, latch clear. */
  const Initial := PainState(3, 7, false, false)

  /**
   * The effect on `[painLevel, hasShownModal]`: a high level with the latch
   * clear opens the alert and sets the latch; a level below 8 clears the
   * latch and leaves the alert as it is.
   */
  function Effect(s: PainState): (t: PainState)
    ensures t.painLevel == s.painLevel && t.comfortLevel == s.comfortLevel
    ensures t.hasShownModal <==> s.painLevel >= HighPain
    ensures t.showHighPainModal <==> s.showHighPainModal || (s.painLevel >= HighPain && !s.hasShownModal)
  {
    if s.painLevel >= HighPain && !s.hasShownModal then
      s.(showHighPainModal := true, hasShownModal := true)
    else if s.painLevel < HighPain then
      s.(hasShownModal := false)
    else s
  }

  /** A second run of the effect, caused by its own change of the latch, changes nothing. */
  lemma EffectIdempotent(s: PainState)
    ensures Effect(Effect(s)) == Effect(s)
  {
  }

  /** What the user can do on the screen. */
  datatype PainEvent =
    | SlidePain(level: int)
    | SlideComfort(level: int)
    | Dismiss

  /**
   * One user action with the effect run after it.  `Dismiss` stands for the
   * four ways of closing the alert, which all do the same thing.
   */
  function PainStep(s: PainState, e: PainEvent): (t: PainState)
    ensures t.painLevel == if e.SlidePain? then e.level else s.painLevel
    ensures t.comfortLevel == if e.SlideComfort? then e.level else s.comfortLevel
    ensures t.showHighPainModal && !s.showHighPainModal ==> e.SlidePain? && e.level >= HighPain
    ensures e.Dismiss? ==> !t.showHighPainModal
  {
    match e
    case SlidePain(level) => Effect(s.(painLevel := level))
    case SlideComfort(level) => s.(comfortLevel := level)
    case Dismiss => s.(showHighPainModal := false)
  }

  /** Once the effect has run, the latch is set exactly while the level is high. */
  predicate Settled(s: PainState) {
    s.hasShownModal <==> s.painLevel >= HighPain
  }

  /** Mounting runs the effect once; on the initial state it changes nothing and no alert shows. */
  lemma InitialSettled()
    ensures Effect(Initial) == Initial && Settled(Initial) && !Initial.showHighPainModal
  {
  }

  lemma StepKeepsSettled(s: PainState, e: PainEvent)
    requires Settled(s)
    ensures Settled(PainStep(s, e))
  {
  }

  /** A settled state is a fixed point of the effect, so a re-render that runs it changes nothing. */
  lemma SettledIsFixedPoint(s: PainState)
    requires Settled(s)
    ensures Effect(s) == s
  {
  }

  /**
   * Moving the pain slider opens the alert exactly when the level rises from
   * below 8 to 8 or more; otherwise the alert keeps its visibility, so a
   * level that stays high does not reopen it and a drop does not close it.
   */
  lemma AlertOpensOnRisingEdge(s: PainState, level: int)
    requires Settled(s)
    ensures var t := PainStep(s, SlidePain(level));
      && (s.painLevel < HighPain && level >= HighPain ==> t.showHighPainModal)
      && (!(s.painLevel < HighPain && level >= HighPain) ==> t.showHighPainModal == s.showHighPainModal)
  {
  }

  /** Every way of dismissing closes the alert and leaves the latch and the levels alone. */
  lemma DismissClosesOnly(s: PainState)
    ensures var t := PainStep(s, Dismiss);
      !t.showHighPainModal && t.hasShownModal == s.hasShownModal
      && t.painLevel == s.painLevel && t.comfortLevel == s.comfortLevel
  {
  }

  /** Does this action make the effect open the alert? */
  predicate Opens(s: PainState, e: PainEvent) {
    e.SlidePain? && e.level >= HighPain && !s.hasShownModal
  }

  /** How many times the alert is opened during `events`. */
  function OpenCount(s: PainState, events: seq<PainEvent>): nat
    decreases |events|
  {
    if events == [] then 0
    else (if Opens(s, events[0]) then 1 else 0) + OpenCount(PainStep(s, events[0]), events[1..])
  }

  /** How many pain-slider moves in `events` take the level from below 8 to 8 or more, starting at `level`. */
  function RisingEdges(level: int, events: seq<PainEvent>): nat
    decreases |events|
  {
    if events == [] then 0
    else match events[0]
      case SlidePain(next) => (if level < HighPain && next >= HighPain then 1 else 0) + RisingEdges(next, events[1..])
      case _ => RisingEdges(level, events[1..])
  }

  /**
   * Whatever the user does in between, the alert opens once per rise of the
   * pain level to 8 or more.
   */
  lemma {:induction false} OpenCountIsRisingEdges(s: PainState, events: seq<PainEvent>)
    requires Settled(s)
    ensures OpenCount(s, events) == RisingEdges(s.painLevel, events)
    decreases |events|
  {
    if events != [] {
      StepKeepsSettled(s, events[0]);
      OpenCountIsRisingEdges(PainStep(s, events[0]), events[1..]);
    }
  }

  /** `navigation.navigate('HomeScreen', { userName, userEmail })`. */
  datatype Navigation = Navigation(screen: string, userName: string, userEmail: string)

  /** A route parameter as JavaScript's `||` sees it: missing or empty gives the default. */
  function ParamOr(param: Option<string>, default: string): (v: string)
    ensures param.Some? && param.value != "" ==> v == param.value
    ensures !(param.Some? && param.value != "") ==> v == default
  {
    if param.Some? && param.value != "" then param.value else default
  }

  /** The target of `handleSubmit`: the route's name and email, or 'User' and 'admin'. */
  function SubmitTarget(userName: Option<string>, userEmail: Option<string>): (n: Navigation)
    ensures n.screen == "HomeScreen" && n.userName != "" && n.userEmail != ""
    ensures userName.Some? && userName.value != "" ==> n.userName == userName.value
    ensures userEmail.Some? && userEmail.value != "" ==> n.userEmail == userEmail.value
    ensures !(userName.Some? && userName.value != "") ==> n.userName == "User"
    ensures !(userEmail.Some? && userEmail.value != "") ==> n.userEmail == "admin"
  {
    Navigation("HomeScreen", ParamOr(userName, "User"), ParamOr(userEmail, "admin"))
  }

  /** The pain-area screen with its route parameters. */
  class PainAreaScreen {
    const userName: Option<string>
    const userEmail: Option<string>
    var painLevel: int
    var comfortLevel: int
    var showHighPainModal: bool
    var hasShownModal: bool

    function State(): PainState
      reads this
    {
      PainState(painLevel, comfortLevel, showHighPainModal, hasShownModal)
    }

    /** Mounting: the initial state, after the effect's first run. */
    constructor (userName: Option<string>, userEmail: Option<string>)
      ensures State() == Initial && Settled(State())
      ensures this.userName == userName && this.userEmail == userEmail
    {
      this.userName := userName;
      this.userEmail := userEmail;
      painLevel := 3;
      comfortLevel := 7;
      showHighPainModal := false;
      hasShownModal := false;
      new;
      RunEffect();
    }

    /** One run of the effect. */
    method RunEffect()
      modifies this
      ensures State() == Effect(old(State()))
    {
      if painLevel >= HighPain && !hasShownModal {
        showHighPainModal := true;
        hasShownModal := true;
      } else if painLevel < HighPain {
        hasShownModal := false;
      }
    }

    /** The pain slider's `setPainLevel`, followed by the effect, which runs again if it changed the latch. */
    method SetPainLevel(level: int)
      modifies this
      ensures State() == PainStep(old(State()), SlidePain(level))
    {
      painLevel := level;
      var latch := hasShownModal;
      RunEffect();
      if hasShownModal != latch {
        EffectIdempotent(old(State()).(painLevel := level));
        RunEffect();
      }
    }

    /** The comfort slider's `setComfortLevel`. */
    method SetComfortLevel(level: int)
      modifies this
      ensures State() == PainStep(old(State()), SlideComfort(level))
    {
      comfortLevel := level;
    }

    /** `handleFindPhysio`. */
    method HandleFindPhysio()
      modifies this
      ensures State() == PainStep(old(State()), Dismiss)
    {
      showHighPainModal := false;
    }

    /** `handleTryExercise`. */
    method HandleTryExercise()
      modifies this
      ensures State() == PainStep(old(State()), Dismiss)
    {
      showHighPainModal := false;
    }

    /** The alert's `onRequestClose` and its close button. */
    method CloseHighPainModal()
      modifies this
      ensures State() == PainStep(old(State()), Dismiss)
    {
      showHighPainModal := false;
    }

    /** `handleSubmit`: changes nothing and leaves for the home screen. */
    method HandleSubmit() returns (nav: Navigation)
      ensures nav == SubmitTarget(userName, userEmail)
    {
      nav := Navigation("HomeScreen", if userName.Some? && userName.value != "" then userName.value else "User",
        if userEmail.Some? && userEmail.value != "" then userEmail.value else "admin");
    }
  }
}
