/** The life of one execution row and of the `retryAction` goroutines working on it. */
module Executions {
  import opened Basics
  import opened Tables

  /** What happens between loading an execution and claiming it: a key that does not open the DEK
      makes the worker leave, an undecryptable payload or config makes it record a failure. */
  datatype Outcome = Abort | CannotDecrypt | Decrypted

  /** Where a `retryAction` goroutine stands. `seen` is history: how many failure writes
      the row had received when it was loaded. */
  datatype WorkPc =
    | Spawned
    | Loaded(attempt: nat, seen: nat)
    | Failing(attempt: nat)
    | Ready(attempt: nat, seen: nat)
    | Claimed(attempt: nat, started: int)
    | Delivered(attempt: nat, started: int, ok: bool)
  {
    /** Between a won claim and the write that ends it. */
    predicate Holding() { Claimed? || Delivered? }

    /** Holding, and the notifier has not reported a success. */
    predicate Unproven() { Claimed? || (Delivered? && !ok) }
  }

  /** History of one row; no statement reads it. */
  datatype Tally = Tally(
    claims: nat,
    calls: nat,          // notifier calls
    successes: nat,      // notifier calls that reported success
    completions: nat,    // MarkCompleted writes
    resets: nat,         // stale resets
    writes: nat,         // FailExecution writes
    lost: int,           // attempts overwritten by a worker that had loaded another count
    backoff: int,        // delays handed out by FailExecution after a delivery
    firstClaim: int)     // clock reading of the first claim, when claims > 0

  const NO_TALLY := Tally(0, 0, 0, 0, 0, 0, 0, 0, 0)

  datatype WorkOp =
    | Load
    | Prepare(outcome: Outcome)
    | FailUnclaimed(now: int)
    | Claim(now: int)
    | Deliver(ok: bool)
    | WriteBack(now: int)

  /** `now` is a clock reading taken before the statement ran. */
  predicate WorkEnabled(pc: WorkPc, op: WorkOp, clock: int) {
    match op
    case Load => pc.Spawned?
    case Prepare(_) => pc.Loaded?
    case FailUnclaimed(now) => pc.Failing? && now <= clock
    case Claim(now) => pc.Ready? && now <= clock
    case Deliver(_) => pc.Claimed?
    case WriteBack(now) => pc.Delivered? && now <= clock
  }

  datatype Effect = Effect(pc: Option<WorkPc>, row: ExecRow, k: Tally)

  /** One step of `retryAction`; it has returned when the new position is None. */
  function Work(pc: WorkPc, row: ExecRow, k: Tally, retries: int, op: WorkOp): Effect {
    match (op, pc)
    case (Load, Spawned) => Effect(Some(Loaded(row.attempt, k.writes)), row, k)
    case (Prepare(Abort), Loaded(_, _)) => Effect(None, row, k)
    case (Prepare(CannotDecrypt), Loaded(attempt, _)) => Effect(Some(Failing(attempt)), row, k)
    case (Prepare(Decrypted), Loaded(attempt, seen)) => Effect(Some(Ready(attempt, seen)), row, k)
    case (FailUnclaimed(now), Failing(attempt)) =>
      Effect(None, FailedRow(row, attempt, retries, now), k.(writes := k.writes + 1))
    case (Claim(now), Ready(attempt, _)) =>
      if Claimable(row)
      then Effect(Some(Claimed(attempt, now)), ClaimedRow(row, now),
                  k.(claims := k.claims + 1, firstClaim := if k.claims == 0 then now else k.firstClaim))
      else Effect(None, row, k)
    case (Deliver(ok), Claimed(attempt, started)) =>
      Effect(Some(Delivered(attempt, started, ok)), row,
             k.(calls := k.calls + 1, successes := k.successes + Bit(ok)))
    case (WriteBack(now), Delivered(attempt, _, ok)) =>
      if ok then Effect(None, CompletedRow(row, now), k.(completions := k.completions + 1))
      else Effect(None, FailedRow(row, attempt + 1, retries, now),
                  k.(writes := k.writes + 1,
                     lost := k.lost + row.attempt - attempt,
                     backoff := k.backoff + if attempt + 1 >= retries then 0 else RetryDelay(attempt + 1)))
    case _ => Effect(None, row, k)
  }

  function ResetTally(row: ExecRow, k: Tally, now: int): Tally {
    if Stale(row, now) then k.(resets := k.resets + 1) else k
  }

  // ----- one row seen alone -----

  datatype Cell = Cell(row: ExecRow, k: Tally, workers: map<Tid, WorkPc>, retries: int, clock: int)

  datatype Move =
    | Still(to: int)
    | Spawn(tid: Tid)
    | Vanish
    | Reset(now: int)
    | Act(tid: Tid, op: WorkOp)

  ghost predicate Allowed(c: Cell, m: Move) {
    match m
    case Still(to) => to >= c.clock
    case Spawn(tid) => tid !in c.workers
    case Vanish => true
    case Reset(now) => now <= c.clock
    case Act(tid, op) => tid in c.workers && WorkEnabled(c.workers[tid], op, c.clock)
  }

  function Put(workers: map<Tid, WorkPc>, tid: Tid, pc: Option<WorkPc>): map<Tid, WorkPc> {
    if pc.Some? then workers[tid := pc.value] else workers - {tid}
  }

  function Acted(c: Cell, tid: Tid, op: WorkOp): Cell
    requires tid in c.workers
  {
    var x := Work(c.workers[tid], c.row, c.k, c.retries, op);
    c.(row := x.row, k := x.k, workers := Put(c.workers, tid, x.pc))
  }

  ghost function Moved(c: Cell, m: Move): Cell
    requires Allowed(c, m)
  {
    match m
    case Still(to) => c.(clock := to)
    case Spawn(tid) => c.(workers := c.workers[tid := Spawned])
    case Vanish => c.(workers := map[])
    case Reset(now) => c.(row := ResetRow(c.row, now), k := ResetTally(c.row, c.k, now))
    case Act(tid, op) => Acted(c, tid, op)
  }

  ghost predicate Fresh(c: Cell) {
    && c.row == NewExec(c.row.action, c.row.will)
    && c.k == NO_TALLY
    && c.workers == map[]
  }

  /** The history of one row: from its creation, one move at a time. */
  datatype Life = Life(cells: seq<Cell>, moves: seq<Move>)

  ghost predicate IsLife(l: Life) {
    && |l.cells| == |l.moves| + 1
    && Fresh(l.cells[0])
    && forall i | 0 <= i < |l.moves| ::
      Allowed(l.cells[i], l.moves[i]) && l.cells[i + 1] == Moved(l.cells[i], l.moves[i])
  }

  // ----- what every life keeps, with no assumption -----

  const LONGEST_DELAY: int := 86400

  ghost predicate StampsOk(row: ExecRow, clock: int) {
    && row.attempt >= 1
    && (row.status == Failed ==> row.nextRetryAt.Some? && row.nextRetryAt.value <= clock + LONGEST_DELAY)
    && (row.status == InProgress ==> row.startedAt.Some? && row.startedAt.value <= clock)
    && (row.status in {Completed, Exhausted} ==> row.completedAt.Some? && row.completedAt.value <= clock)
  }

  ghost predicate CountsOk(pc: WorkPc, row: ExecRow, k: Tally) {
    && (!pc.Spawned? ==> pc.attempt >= 1)
    && ((pc.Loaded? || pc.Ready?) && pc.seen == k.writes ==> pc.attempt == row.attempt)
    && ((pc.Loaded? || pc.Ready?) ==> pc.seen <= k.writes)
  }

  ghost predicate CellOk(c: Cell) {
    && StampsOk(c.row, c.clock)
    && forall tid | tid in c.workers :: CountsOk(c.workers[tid], c.row, c.k)
  }

  lemma CellOkStep(c: Cell, m: Move)
    requires CellOk(c) && Allowed(c, m)
    ensures CellOk(Moved(c, m))
  {
  }

  lemma {:induction false} CellOkAlways(l: Life, i: nat)
    requires IsLife(l) && i < |l.cells|
    ensures CellOk(l.cells[i])
  {
    if i > 0 {
      CellOkAlways(l, i - 1);
      CellOkStep(l.cells[i - 1], l.moves[i - 1]);
    }
  }
}
