/** The state machine shared by every strategy. */
module StrategyBase {
  import opened Domain

  datatype State = Idle | Armed | EntryPending | InPosition | ExitPending | Closed | Cancelled | Aborted | Error

  datatype Signal = Signal(intent: Intent, action: Direction, quantity: nat, limitPrice: Option<real>)

  function ValidTransitions(s: State): set<State> {
    match s
    case Idle => {Armed, Cancelled, Aborted, Error}
    case Armed => {EntryPending, Cancelled, Aborted, Error}
    case EntryPending => {InPosition, ExitPending, Cancelled, Aborted, Error}
    case InPosition => {ExitPending, Aborted, Error}
    case ExitPending => {State.Closed, Aborted, Error}
    case _ => {}
  }

  predicate Legal(from: State, to: State) {
    to in ValidTransitions(from)
  }

  predicate Terminal(s: State) {
    s in {State.Closed, Cancelled, Aborted, Error}
  }

  /** States in which a filled entry has no exit order out yet. */
  predicate Exposed(s: State) {
    s.EntryPending? || s.InPosition?
  }

  const LAST_RANK: nat := 5

  function Rank(s: State): nat {
    match s
    case Idle => 0
    case Armed => 1
    case EntryPending => 2
    case InPosition => 3
    case ExitPending => 4
    case _ => LAST_RANK
  }

  /** Every legal transition goes up in rank, and exactly the terminal states have none left. */
  lemma TransitionsRise(from: State)
    ensures forall to :: Legal(from, to) ==> Rank(from) < Rank(to) <= LAST_RANK
    ensures Terminal(from) <==> forall to :: !Legal(from, to)
  {
    assert !Terminal(from) ==> Legal(from, Aborted);
  }
}
