/**
 * The Pain-Bingo screen's state machine (PainBingoScreen.js): toggling
 * cells, awarding the first newly completed line, and the three-step
 * reward flow (pre-check rating, exercise, post-check rating) that ends
 * with the XP award.
 */
module BingoEngine {
  import opened Wrappers
  import opened BingoBoard

  /** The component state of `PainBingoScreen`, one field per `useState`. */
  datatype BingoState = BingoState(
    selected: seq<int>,
    completed: set<LineKey>,
    winning: Option<LineKey>,
    activeRoutine: Option<LineKey>,
    showPreCheck: bool,
    showExercise: bool,
    showPostCheck: bool,
    prePain: int,
    postPain: int,
    totalXP: int,
    bingoCount: int)

  /** The initial values of the `useState` hooks. */
  const Initial: BingoState :=
    BingoState([], {}, None, None, false, false, false, 5, 5, 0, 0)

  /** A user action on the screen: a cell tap, a slider move or a modal button. */
  datatype Event =
    | Tap(index: int)
    | SetPrePain(prePain: int)
    | PreCheckDone
    | ExerciseDone
    | SetPostPain(postPain: int)
    | PostCheckDone

  /** XP for one finished reward flow: 20, plus 10 per point the discomfort went down. */
  function XpEarned(prePain: int, postPain: int): (xp: int)
    ensures xp >= 20 && xp % 10 == 0
    ensures prePain <= postPain ==> xp == 20
    ensures prePain > postPain ==> xp - 20 == 10 * (prePain - postPain)
    ensures 1 <= prePain <= 10 && 1 <= postPain <= 10 ==> xp <= 110
  {
    var painReduction := if prePain - postPain > 0 then prePain - postPain else 0;
    20 + painReduction * 10
  }

  /**
   * `handleCellPress(index)`: the selection toggles; a tap never touches
   * the XP, the ratings or the later modals; at most one line is awarded,
   * only by a select, and an award highlights it, makes it the routine,
   * opens the pre-check and counts it.
   */
  function Press(s: BingoState, index: int): (t: BingoState)
    ensures t.selected == Toggle(s.selected, index)
    ensures t.totalXP == s.totalXP && t.prePain == s.prePain && t.postPain == s.postPain
    ensures t.showExercise == s.showExercise && t.showPostCheck == s.showPostCheck
    ensures index in s.selected ==> t.bingoCount == s.bingoCount
    ensures t.bingoCount != s.bingoCount ==>
      && t.bingoCount == s.bingoCount + 1 && t.showPreCheck
      && t.winning.Some? && t.activeRoutine == t.winning
      && t.completed == s.completed + {t.winning.value}
    ensures t.bingoCount == s.bingoCount ==>
      t.completed == s.completed && t.showPreCheck == s.showPreCheck && t.activeRoutine == s.activeRoutine
    ensures index !in s.selected && t.bingoCount == s.bingoCount ==> t.winning == s.winning
  {
    var updated := Toggle(s.selected, index);
    if index !in s.selected then
      var wins := NewWins(updated, s.completed);
      if |wins| > 0 then
        var firstWin := wins[0];
        s.(selected := updated,
           completed := s.completed + {firstWin},
           winning := Some(firstWin),
           activeRoutine := Some(firstWin),
           showPreCheck := true,
           bingoCount := s.bingoCount + 1)
      else
        s.(selected := updated)
    else if s.winning.Some? && !Complete(updated, s.winning.value) then
      s.(selected := updated, winning := None)
    else
      s.(selected := updated)
  }

  /**
   * The effect of each handler on the state; the handlers themselves test
   * nothing.  Only a tap changes the board, and only the end of the
   * post-check changes the XP, by `XpEarned` of the two ratings.
   */
  function Step(s: BingoState, e: Event): (t: BingoState)
    ensures !e.Tap? ==> t.selected == s.selected && t.completed == s.completed && t.bingoCount == s.bingoCount
    ensures e.PostCheckDone? ==> t.totalXP == s.totalXP + XpEarned(s.prePain, s.postPain)
    ensures !e.PostCheckDone? ==> t.totalXP == s.totalXP
  {
    match e
    case Tap(index) => Press(s, index)
    case SetPrePain(v) => s.(prePain := v)
    case PreCheckDone => s.(showPreCheck := false, showExercise := true)
    case ExerciseDone => s.(showExercise := false, showPostCheck := true)
    case SetPostPain(v) => s.(postPain := v)
    case PostCheckDone =>
      s.(totalXP := s.totalXP + XpEarned(s.prePain, s.postPain),
         prePain := 5,
         postPain := 5,
         winning := None,
         showPostCheck := false)
  }

  predicate AnyModal(s: BingoState) {
    s.showPreCheck || s.showExercise || s.showPostCheck
  }

  /** The boolean form of the reward flow has at most one flag on. */
  predicate AtMostOneModal(s: BingoState) {
    && !(s.showPreCheck && s.showExercise)
    && !(s.showPreCheck && s.showPostCheck)
    && !(s.showExercise && s.showPostCheck)
  }

  /**
   * When the screen delivers an event: the board is covered while a modal is
   * visible, each modal's button and slider exist only while it is visible,
   * and the sliders give whole ratings from 1 to 10.
   */
  predicate Enabled(s: BingoState, e: Event) {
    match e
    case Tap(index) => 0 <= index < BoardSize && !AnyModal(s)
    case SetPrePain(v) => s.showPreCheck && 1 <= v <= 10
    case PreCheckDone => s.showPreCheck
    case ExerciseDone => s.showExercise
    case SetPostPain(v) => s.showPostCheck && 1 <= v <= 10
    case PostCheckDone => s.showPostCheck
  }

  /** The number of reward flows that have been completed. */
  function FlowsDone(s: BingoState): int {
    s.bingoCount - (if AnyModal(s) then 1 else 0)
  }

  /** What holds in every state the screen can reach. */
  predicate Inv(s: BingoState) {
    && NoDup(s.selected)
    && (forall x :: x in s.selected ==> 0 <= x < BoardSize)
    && s.bingoCount == |s.completed|
    && AtMostOneModal(s)
    && (s.winning.Some? <==> AnyModal(s))
    && (s.winning.Some? ==>
          && s.winning.value in s.completed
          && Complete(s.selected, s.winning.value)
          && s.activeRoutine == s.winning)
    && (s.activeRoutine.Some? ==> s.activeRoutine.value in s.completed)
    && 1 <= s.prePain <= 10
    && 1 <= s.postPain <= 10
    && 20 * FlowsDone(s) <= s.totalXP <= 110 * FlowsDone(s)
  }

  lemma InitialInv()
    ensures Inv(Initial)
  {
  }

  /**
   * Every tap the screen delivers in a reachable state finds no line
   * highlighted, so the deselect branch that clears the highlight never has
   * one to clear.
   */
  lemma EnabledTapFindsNoHighlight(s: BingoState, index: int)
    requires Inv(s) && Enabled(s, Tap(index))
    ensures s.winning.None?
    ensures index in s.selected ==> Press(s, index).winning.None?
  {
  }

  /** Every line key. */
  const AllKeys: set<LineKey> :=
    {Row0, Row1, Row2, Row3, Row4, Col0, Col1, Col2, Col3, Col4, Diag1, Diag2}

  lemma SubsetSize<T>(a: set<T>, b: set<T>)
    requires a <= b
    ensures |a| <= |b|
  {
    assert b == a + (b - a);
  }

  /** There are only twelve lines to complete. */
  lemma AtMostTwelveLines(completed: set<LineKey>)
    ensures |completed| <= 12
  {
    forall k | k in completed
      ensures k in AllKeys
    {
      match k
      case Row0 => case Row1 => case Row2 => case Row3 => case Row4 =>
      case Col0 => case Col1 => case Col2 => case Col3 => case Col4 =>
      case Diag1 => case Diag2 =>
    }
    assert |AllKeys| == 12;
    SubsetSize(completed, AllKeys);
  }

  /** Every enabled event keeps the invariant. */
  lemma StepKeepsInv(s: BingoState, e: Event)
    requires Inv(s) && Enabled(s, e)
    ensures Inv(Step(s, e))
  {
    if e.Tap? {
      var i := e.index;
      var updated := Toggle(s.selected, i);
      ToggleKeepsNoDup(s.selected, i);
      ToggleFlips(s.selected, i);
      if i !in s.selected {
        NewWinsExactly(updated, s.completed);
      }
    }
  }

  /** Handlers never take a line back, and the XP total never goes down. */
  lemma StepIsMonotone(s: BingoState, e: Event)
    ensures s.completed <= Step(s, e).completed
    ensures s.bingoCount <= Step(s, e).bingoCount
    ensures s.totalXP <= Step(s, e).totalXP
  {
  }

  /**
   * Removing a cell changes no count, no XP, no rating and no modal: it only
   * updates the selection, and it clears the highlighted line exactly when
   * that line is no longer fully selected.
   */
  lemma DeselectOnlyTouchesSelectionAndHighlight(s: BingoState, index: int)
    requires index in s.selected
    ensures var t := Press(s, index);
      && index !in t.selected
      && t.completed == s.completed && t.bingoCount == s.bingoCount && t.totalXP == s.totalXP
      && t.showPreCheck == s.showPreCheck && t.showExercise == s.showExercise
      && t.showPostCheck == s.showPostCheck
      && t.prePain == s.prePain && t.postPain == s.postPain && t.activeRoutine == s.activeRoutine
      && (t.winning.None? <==> s.winning.None? || !Complete(t.selected, s.winning.value))
      && (t.winning.Some? ==> t.winning == s.winning)
  {
    ToggleFlips(s.selected, index);
  }

  /**
   * A select that completes several lines at once awards only the first in
   * table order; the others stay uncompleted and are still reported as new
   * wins by the detection on the resulting state.
   */
  lemma SelectAwardsFirstWinOnly(s: BingoState, index: int)
    requires index !in s.selected
    requires |NewWins(Toggle(s.selected, index), s.completed)| > 0
    ensures var wins := NewWins(Toggle(s.selected, index), s.completed);
      var t := Press(s, index);
      && t.completed == s.completed + {wins[0]}
      && t.winning == Some(wins[0]) && t.activeRoutine == Some(wins[0])
      && t.showPreCheck && t.bingoCount == s.bingoCount + 1
      && t.totalXP == s.totalXP && t.prePain == s.prePain && t.postPain == s.postPain
      && t.showExercise == s.showExercise && t.showPostCheck == s.showPostCheck
      && forall k :: k in wins[1..] ==> k !in t.completed && k in NewWins(t.selected, t.completed)
  {
    var wins := NewWins(Toggle(s.selected, index), s.completed);
    var t := Press(s, index);
    NewWinsExactly(Toggle(s.selected, index), s.completed);
    NewWinsExactly(t.selected, t.completed);
    forall k | k in wins[1..]
      ensures k !in t.completed && k in NewWins(t.selected, t.completed)
    {
      var m :| 1 <= m < |wins| && wins[m] == k;
      assert KeyIndex(wins[0]) < KeyIndex(wins[m]);
    }
  }

  /**
   * A line left pending by a simultaneous completion is detected again by
   * any later select, as long as its cells stay selected and it is still
   * not completed.
   */
  lemma PendingLineIsDetectedAgain(s: BingoState, index: int, u: BingoState, next: int, k: LineKey)
    requires index !in s.selected
    requires |NewWins(Toggle(s.selected, index), s.completed)| > 0
    requires k in NewWins(Toggle(s.selected, index), s.completed)[1..]
    requires forall x :: x in Press(s, index).selected ==> x in u.selected
    requires k !in u.completed
    requires next !in u.selected
    ensures k in NewWins(Toggle(u.selected, next), u.completed)
  {
    SelectAwardsFirstWinOnly(s, index);
    var t := Press(s, index);
    ToggleFlips(u.selected, next);
    NewWinsMonotone(t.selected, t.completed, Toggle(u.selected, next), u.completed, k);
  }

  /** The reward flow as an explicit state machine. */
  datatype Phase = Idle | PreCheck | Exercise | PostCheck

  function PhaseOf(s: BingoState): Phase
    requires AtMostOneModal(s)
  {
    if s.showPreCheck then PreCheck
    else if s.showExercise then Exercise
    else if s.showPostCheck then PostCheck
    else Idle
  }

  /** Idle -> PreCheck (on a win) -> Exercise -> PostCheck -> Idle. */
  function NextPhase(p: Phase, e: Event, won: bool): Phase {
    match e
    case Tap(_) => if won then PreCheck else p
    case PreCheckDone => Exercise
    case ExerciseDone => PostCheck
    case PostCheckDone => Idle
    case SetPrePain(_) => p
    case SetPostPain(_) => p
  }

  /** On every enabled event the boolean flags follow the explicit phase machine. */
  lemma StepFollowsPhases(s: BingoState, e: Event)
    requires Inv(s) && Enabled(s, e)
    ensures AtMostOneModal(Step(s, e))
    ensures PhaseOf(Step(s, e)) == NextPhase(PhaseOf(s), e, Step(s, e).bingoCount > s.bingoCount)
    ensures e.Tap? ==> PhaseOf(s) == Idle
  {
    StepKeepsInv(s, e);
  }

  /** The state after a sequence of events. */
  function Run(s: BingoState, events: seq<Event>): BingoState
    decreases |events|
  {
    if events == [] then s else Run(Step(s, events[0]), events[1..])
  }

  /** Every event of the sequence is enabled when it happens. */
  predicate AllEnabled(s: BingoState, events: seq<Event>)
    decreases |events|
  {
    events == [] || (Enabled(s, events[0]) && AllEnabled(Step(s, events[0]), events[1..]))
  }

  lemma {:induction false} RunKeepsInv(s: BingoState, events: seq<Event>)
    requires Inv(s) && AllEnabled(s, events)
    ensures Inv(Run(s, events))
    decreases |events|
  {
    if events != [] {
      StepKeepsInv(s, events[0]);
      RunKeepsInv(Step(s, events[0]), events[1..]);
    }
  }

  /**
   * From the initial state, whatever the user does, at most one of the
   * three reward modals is visible, the bingo count equals the number of
   * completed lines (at most 12), and the XP total lies between 20 and 110
   * per finished reward flow.
   */
  lemma ReachableStates(events: seq<Event>)
    requires AllEnabled(Initial, events)
    ensures var s := Run(Initial, events);
      && AtMostOneModal(s)
      && s.bingoCount == |s.completed| <= 12
      && 20 * FlowsDone(s) <= s.totalXP <= 110 * FlowsDone(s)
  {
    RunKeepsInv(Initial, events);
    AtMostTwelveLines(Run(Initial, events).completed);
  }

  /** With only cells below 4 selected, no line is complete. */
  lemma NoWinBelowCellFour(cells: seq<int>, completed: set<LineKey>)
    requires forall x :: x in cells ==> 0 <= x < 4
    ensures NewWins(cells, completed) == []
  {
    forall k ensures !Complete(cells, k) {
      assert LineCells(k)[4] !in cells;
    }
    NothingCompleteNoWins(cells, completed, |LineKeys|);
  }

  /** The first key of a detection result, when a key it contains comes before every other complete line. */
  lemma FirstWinIs(cells: seq<int>, completed: set<LineKey>, k: LineKey)
    requires k in NewWins(cells, completed)
    requires forall k' :: KeyIndex(k') < KeyIndex(k) ==> k' in completed || !Complete(cells, k')
    ensures NewWins(cells, completed)[0] == k
  {
    NewWinsExactly(cells, completed);
    var w := NewWins(cells, completed);
    assert w[0] in w;
  }

  lemma {:induction false} NothingCompleteNoWins(cells: seq<int>, completed: set<LineKey>, n: nat)
    requires n <= |LineKeys|
    requires forall k :: !Complete(cells, k)
    ensures WinsAmong(cells, completed, n) == []
  {
    if n > 0 {
      NothingCompleteNoWins(cells, completed, n - 1);
    }
  }

  /** On a fresh board, a tap that leaves only cells below 4 selected just selects the cell. */
  lemma QuietTap(cells: seq<int>, index: int)
    requires forall x :: x in cells + [index] ==> 0 <= x < 4
    requires index !in cells
    ensures Step(Initial.(selected := cells), Tap(index)) == Initial.(selected := cells + [index])
  {
    NoWinBelowCellFour(cells + [index], {});
  }

  /** Selecting the top row cell by cell wins row0 on the fifth tap. */
  lemma TopRowScenario()
    ensures var s := Step(Step(Step(Step(Step(Initial, Tap(0)), Tap(1)), Tap(2)), Tap(3)), Tap(4));
      s.bingoCount == 1 && s.winning == Some(Row0) && s.completed == {Row0}
      && s.showPreCheck && !s.showExercise && !s.showPostCheck
  {
    assert Initial.(selected := []) == Initial;
    QuietTap([], 0);
    assert Step(Initial, Tap(0)) == Initial.(selected := [0]);
    QuietTap([0], 1);
    assert [0] + [1] == [0, 1];
    QuietTap([0, 1], 2);
    assert [0, 1] + [2] == [0, 1, 2];
    QuietTap([0, 1, 2], 3);
    assert [0, 1, 2] + [3] == [0, 1, 2, 3];
    FifthTopRowTap();
  }

  lemma FifthTopRowTap()
    ensures var s := Step(Initial.(selected := [0, 1, 2, 3]), Tap(4));
      s.bingoCount == 1 && s.winning == Some(Row0) && s.completed == {Row0}
      && s.showPreCheck && !s.showExercise && !s.showPostCheck
  {
    assert Toggle([0, 1, 2, 3], 4) == [0, 1, 2, 3, 4];
    NewWinsExactly([0, 1, 2, 3, 4], {});
    FirstWinIs([0, 1, 2, 3, 4], {}, Row0);
  }

  /** Row0 and col0 less their shared corner, cell 0. */
  const CornerPending: seq<int> := [1, 2, 3, 4, 5, 10, 15, 20]

  /** The tap on cell 0 completes row0 and col0 at once; only row0 is awarded. */
  lemma CornerTap()
    ensures var t := Step(Initial.(selected := CornerPending), Tap(0));
      && t.selected == CornerPending + [0]
      && t.completed == {Row0} && t.winning == Some(Row0) && t.bingoCount == 1
      && t.showPreCheck && !t.showExercise && !t.showPostCheck
      && Col0 in NewWins(t.selected, t.completed)
  {
    var s := Initial.(selected := CornerPending);
    var cells := CornerPending + [0];
    assert Toggle(CornerPending, 0) == cells;
    assert Complete(cells, Row0) && Complete(cells, Col0);
    NewWinsExactly(cells, {});
    FirstWinIs(cells, {}, Row0);
    SelectAwardsFirstWinOnly(s, 0);
    NewWinsExactly(cells, {Row0});
  }

  /** After row0's reward flow, a tap on cell 6 awards the pending col0. */
  lemma PendingColumnTap(u: BingoState)
    requires u.selected == CornerPending + [0] && u.completed == {Row0} && u.bingoCount == 1
    ensures var v := Step(u, Tap(6));
      v.completed == {Row0, Col0} && v.winning == Some(Col0) && v.bingoCount == 2 && v.showPreCheck
  {
    var cells := CornerPending + [0] + [6];
    assert Toggle(u.selected, 6) == cells;
    NewWinsExactly(cells, {Row0});
    forall k | k in {Row1, Row2, Row3, Row4}
      ensures !Complete(cells, k)
    {
      assert LineCells(k)[2] !in cells;
    }
    FirstWinIs(cells, {Row0}, Col0);
  }

  /**
   * Completing row0 and col0 with one tap on cell 0 awards row0 only; once
   * its reward flow is over, the next tap (on cell 6) awards col0.
   */
  lemma SimultaneousWinScenario()
    ensures var t := Step(Initial.(selected := CornerPending), Tap(0));
      var u := Step(Step(Step(t, PreCheckDone), ExerciseDone), PostCheckDone);
      var v := Step(u, Tap(6));
      && t.completed == {Row0} && t.winning == Some(Row0)
      && v.completed == {Row0, Col0} && v.winning == Some(Col0) && v.bingoCount == 2
  {
    CornerTap();
    var t := Step(Initial.(selected := CornerPending), Tap(0));
    var u := Step(Step(Step(t, PreCheckDone), ExerciseDone), PostCheckDone);
    assert u.selected == t.selected && u.completed == t.completed && u.bingoCount == t.bingoCount;
    PendingColumnTap(u);
  }

  /** The reward for ratings 8 before and 3 after is 70 XP, after which the flow is idle. */
  lemma RewardScenario(s: BingoState)
    requires Inv(s) && s.showPostCheck && s.prePain == 8 && s.postPain == 3
    ensures var t := Step(s, PostCheckDone);
      t.totalXP == s.totalXP + 70 && PhaseOf(t) == Idle && t.winning.None?
      && t.prePain == 5 && t.postPain == 5
  {
  }

  // ---------------------------------------------------------------------------
  // The component
  // ---------------------------------------------------------------------------

  /** `PainBingoScreen`'s state hooks and handlers. */
  class PainBingo {
    var selectedCells: seq<int>
    var completedLines: set<LineKey>
    var winningLine: Option<LineKey>
    var activeRoutine: Option<LineKey>
    var showPreCheck: bool
    var showExercise: bool
    var showPostCheck: bool
    var prePain: int
    var postPain: int
    var totalXP: int
    var bingoCount: int

    function State(): BingoState
      reads this
    {
      BingoState(selectedCells, completedLines, winningLine, activeRoutine,
                 showPreCheck, showExercise, showPostCheck, prePain, postPain, totalXP, bingoCount)
    }

    constructor ()
      ensures State() == Initial
    {
      selectedCells := [];
      completedLines := {};
      winningLine := None;
      activeRoutine := None;
      showPreCheck, showExercise, showPostCheck := false, false, false;
      prePain, postPain := 5, 5;
      totalXP, bingoCount := 0, 0;
    }

    /** `isCellInWinningLine`: the cell lies on the highlighted row, column or diagonal. */
    function IsCellInWinningLine(cellIndex: int): (b: bool)
      reads this
      ensures 0 <= cellIndex < BoardSize ==>
        (b <==> winningLine.Some? && OnLine(winningLine.value, cellIndex))
      ensures !(0 <= cellIndex < BoardSize) ==> !b
    {
      if winningLine.None? then false
      else
        var b := cellIndex in LineCells(winningLine.value);
        if 0 <= cellIndex < BoardSize then LineTableIsGeometric(winningLine.value, cellIndex); b else b
    }

    /** `handleCellPress`. */
    method HandleCellPress(index: int)
      modifies this
      ensures State() == Step(old(State()), Tap(index))
    {
      var wasSelected := index in selectedCells;
      var updated := Toggle(selectedCells, index);
      selectedCells := updated;
      if !wasSelected {
        var newWins := DetectBingoWins(updated, completedLines);
        if |newWins| > 0 {
          var firstWin := newWins[0];
          completedLines := completedLines + {firstWin};
          winningLine := Some(firstWin);
          activeRoutine := Some(firstWin);
          showPreCheck := true;
          bingoCount := bingoCount + 1;
        }
      } else if winningLine.Some? {
        var lineKey := winningLine.value;
        var stillWinning := CheckBingoLine(updated, LineCells(lineKey), lineKey).Some?;
        if !stillWinning {
          winningLine := None;
        }
      }
    }

    /** The pre-check slider's `onValueChange`. */
    method SetPrePainRating(v: int)
      modifies this
      ensures State() == Step(old(State()), SetPrePain(v))
    {
      prePain := v;
    }

    /** `handlePreCheckComplete`. */
    method HandlePreCheckComplete()
      modifies this
      ensures State() == Step(old(State()), PreCheckDone)
    {
      showPreCheck := false;
      showExercise := true;
    }

    /** `handleExerciseComplete`. */
    method HandleExerciseComplete()
      modifies this
      ensures State() == Step(old(State()), ExerciseDone)
    {
      showExercise := false;
      showPostCheck := true;
    }

    /** The post-check slider's `onValueChange`. */
    method SetPostPainRating(v: int)
      modifies this
      ensures State() == Step(old(State()), SetPostPain(v))
    {
      postPain := v;
    }

    /** `handlePostCheckComplete`: award the XP, reset the ratings, end the flow. */
    method HandlePostCheckComplete()
      modifies this
      ensures State() == Step(old(State()), PostCheckDone)
      ensures totalXP - old(totalXP) == XpEarned(old(prePain), old(postPain))
    {
      var painReduction := if prePain - postPain > 0 then prePain - postPain else 0;
      var xpEarned := 20 + painReduction * 10;
      totalXP := totalXP + xpEarned;
      prePain := 5;
      postPain := 5;
      winningLine := None;
      showPostCheck := false;
    }
  }
}
