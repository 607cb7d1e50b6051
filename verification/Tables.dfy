/** The rows of `wills`, `actions` and `action_executions`, and what the SQL statements of
    the will service, the action service, the API handlers and the scheduler do to one row.
    A statement is one atomic step: the program keeps a single connection to SQLite. */
module Tables {
  import opened Basics

  type WillId = string
  type ActionId = string
  type ExecId = string

  /** A goroutine of the pool. */
  type Tid = nat

  datatype WillStatus = Draft | Active | Paused | PendingTrigger | Triggered | Archived

  datatype WillRow = WillRow(
    status: WillStatus,
    interval: int,
    lastCheckIn: Option<int>,
    deadline: Option<int>,
    maxRetries: int)

  datatype ActionRow = ActionRow(will: WillId, position: nat)

  datatype ExecStatus = Queued | InProgress | Completed | Failed | Exhausted

  datatype ExecRow = ExecRow(
    action: ActionId,
    will: WillId,
    attempt: nat,
    status: ExecStatus,
    startedAt: Option<int>,
    completedAt: Option<int>,
    nextRetryAt: Option<int>)

  datatype Database = Database(
    wills: map<WillId, WillRow>,
    actions: map<ActionId, ActionRow>,
    execs: map<ExecId, ExecRow>)

  // ----- wills -----

  function NewWill(interval: int, maxRetries: int): WillRow {
    WillRow(Draft, interval, None, None, maxRetries)
  }

  /** Guarded by `status = 'DRAFT'`; the deadline becomes the activation time itself. */
  function ActivatedRow(row: WillRow, now: int): WillRow {
    if row.status == Draft then row.(status := Active, deadline := Some(now)) else row
  }

  function CheckedInRow(row: WillRow, now: int): WillRow {
    if row.status == Active
    then row.(lastCheckIn := Some(now), deadline := Some(now + row.interval))
    else row
  }

  /** `Transition`: compare-and-swap on the status column. */
  function SwappedRow(row: WillRow, from: WillStatus, to: WillStatus): WillRow {
    if row.status == from then row.(status := to) else row
  }

  /** The guard of both `GetOverdue` and the per-row compare-and-swap; a NULL deadline is never due. */
  predicate Overdue(row: WillRow, now: int) {
    row.status == Active && row.deadline.Some? && row.deadline.value <= now
  }

  /** What `ListByWill` returns: every action of the will once, ordered by position. */
  ghost predicate ListsActions(actions: map<ActionId, ActionRow>, w: WillId, found: seq<ActionId>) {
    && NoDuplicates(found)
    && (forall a :: a in found <==> a in actions && actions[a].will == w)
    && (forall i, j | 0 <= i < j < |found| :: actions[found[i]].position <= actions[found[j]].position)
  }

  // ----- executions -----

  function NewExec(a: ActionId, w: WillId): ExecRow {
    ExecRow(a, w, 1, Queued, None, None, None)
  }

  /** The delay table `0, 5 min, 30 min`, then 24 hours. */
  function RetryDelay(attempt: nat): int {
    if attempt == 0 then 0
    else if attempt == 1 then 300
    else if attempt == 2 then 1800
    else 86400
  }

  /** `FailExecution`: no guard on the old status. */
  function FailedRow(row: ExecRow, attempt: nat, maxRetries: int, now: int): ExecRow {
    if attempt >= maxRetries
    then row.(status := Exhausted, attempt := attempt, completedAt := Some(now))
    else row.(status := Failed, attempt := attempt, nextRetryAt := Some(now + RetryDelay(attempt)))
  }

  /** `MarkCompleted`: no guard on the old status. */
  function CompletedRow(row: ExecRow, now: int): ExecRow {
    row.(status := Completed, completedAt := Some(now))
  }

  predicate Claimable(row: ExecRow) {
    row.status == Queued || row.status == Failed
  }

  function ClaimedRow(row: ExecRow, now: int): ExecRow {
    if Claimable(row) then row.(status := InProgress, startedAt := Some(now)) else row
  }

  /** An `IN_PROGRESS` row is taken away from its worker this many seconds after its claim. */
  const LEASE: int := 600

  predicate Stale(row: ExecRow, now: int) {
    row.status == InProgress && row.startedAt.Some? && row.startedAt.value < now - LEASE
  }

  function ResetRow(row: ExecRow, now: int): ExecRow {
    if Stale(row, now) then row.(status := Failed, nextRetryAt := Some(now)) else row
  }

  predicate Due(row: ExecRow, now: int) {
    row.status == Failed && row.nextRetryAt.Some? && row.nextRetryAt.value <= now
  }
}
