/** A session: any sequence of the events the page reacts to, in any order,
    including a bot move or a retraction that fires after a reset or after
    another click. */
module Session {
  import opened Rules
  import opened Properties

  datatype Event =
    | Click(index: int)
    | Bot(r1: nat, cheat: bool, r2: nat)
    | RetractMark(r: Retraction)
    | Reset

  /** The random picks of a bot event must be possible ones. */
  predicate Enabled(s: GameState, e: Event) {
    e.Bot? ==> ValidPick(s, e.r1) && ValidPick(s, e.r2)
  }

  function Step(s: GameState, e: Event): GameState
    requires Enabled(s, e)
  {
    match e
    case Click(index) => AfterClick(s, index)
    case Bot(r1, cheat, r2) => AfterBot(s, r1, cheat, r2).state
    case RetractMark(r) => AfterRetract(s, r)
    case Reset => AfterReset(s)
  }

  predicate ValidRun(s: GameState, events: seq<Event>)
    decreases |events|
  {
    |events| == 0 || (Enabled(s, events[0]) && ValidRun(Step(s, events[0]), events[1..]))
  }

  function Run(s: GameState, events: seq<Event>): GameState
    requires ValidRun(s, events)
    decreases |events|
  {
    if |events| == 0 then s else Run(Step(s, events[0]), events[1..])
  }

  /** One event raises the disturbance level by at most one, and only when
      it evaluates a win while X is to move. */
  lemma StepDisturbance(s: GameState, e: Event)
    requires Enabled(s, e)
    ensures s.disturbance <= Step(s, e).disturbance <= s.disturbance + 1
    ensures Step(s, e).disturbance == s.disturbance + 1 ==>
              s.current == X && !Step(s, e).active && HasWin(Step(s, e).board)
  {
  }

  /** The disturbance level never goes down over a session, and each event
      adds at most one to it. */
  lemma {:induction false} DisturbanceNeverDecreases(s: GameState, events: seq<Event>)
    requires ValidRun(s, events)
    ensures s.disturbance <= Run(s, events).disturbance <= s.disturbance + |events|
    decreases |events|
  {
    if |events| > 0 {
      StepDisturbance(s, events[0]);
      DisturbanceNeverDecreases(Step(s, events[0]), events[1..]);
    }
  }

  /** The events that keep a state settled: all but the bot's double
      placement, which leaves its marks unevaluated until the retraction. */
  predicate KeepsSettled(s: GameState, e: Event) {
    !(e.Bot? && s.disturbance >= 5 && e.cheat)
  }

  predicate NoDoublePlacement(s: GameState, events: seq<Event>)
    requires ValidRun(s, events)
    decreases |events|
  {
    |events| == 0 ||
    (KeepsSettled(s, events[0]) && NoDoublePlacement(Step(s, events[0]), events[1..]))
  }

  lemma StepKeepsSettled(s: GameState, e: Event)
    requires Enabled(s, e) && Settled(s) && KeepsSettled(s, e)
    ensures Settled(Step(s, e))
  {
  }

  /** From a settled state, a session without double placements only passes
      through settled states: whenever the game is active there is no won
      line and the bot has a cell to choose. */
  lemma {:induction false} SettledThroughout(s: GameState, events: seq<Event>)
    requires ValidRun(s, events) && NoDoublePlacement(s, events)
    requires Settled(s)
    ensures Settled(Run(s, events))
    ensures Run(s, events).active ==> |EmptyIndices(Run(s, events).board)| > 0
    decreases |events|
  {
    if |events| > 0 {
      StepKeepsSettled(s, events[0]);
      SettledThroughout(Step(s, events[0]), events[1..]);
    } else if s.active {
      SettledGameHasMove(s);
    }
  }

  /** Marked cells of s are marked the same way in t. */
  predicate MarksKept(s: GameState, t: GameState) {
    forall i: Index :: s.board[i] != Empty ==> t.board[i] == s.board[i]
  }

  /** The events that only ever write empty cells: clicks and the bot's
      normal move. */
  predicate WritesEmptyCellsOnly(s: GameState, e: Event) {
    e.Click? || (e.Bot? && KeepsSettled(s, e))
  }

  predicate OnlyMoves(s: GameState, events: seq<Event>)
    requires ValidRun(s, events)
    decreases |events|
  {
    |events| == 0 ||
    (WritesEmptyCellsOnly(s, events[0]) && OnlyMoves(Step(s, events[0]), events[1..]))
  }

  lemma StepKeepsMarks(s: GameState, e: Event)
    requires Enabled(s, e) && WritesEmptyCellsOnly(s, e)
    ensures MarksKept(s, Step(s, e))
  {
    if e.Bot? && s.active && |EmptyIndices(s.board)| > 0 {
      BotNormalMove(s, e.r1, e.cheat, e.r2);
    }
  }

  /** Over a session of clicks and normal bot moves, no marked cell is ever
      overwritten or cleared. */
  lemma {:induction false} MarksNeverOverwritten(s: GameState, events: seq<Event>)
    requires ValidRun(s, events) && OnlyMoves(s, events)
    ensures MarksKept(s, Run(s, events))
    decreases |events|
  {
    if |events| > 0 {
      StepKeepsMarks(s, events[0]);
      MarksNeverOverwritten(Step(s, events[0]), events[1..]);
    }
  }

  /** The page starts settled. */
  lemma InitialSettled()
    ensures Settled(Initial)
  {
  }
}
