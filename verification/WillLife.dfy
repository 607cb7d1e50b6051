/** The life of one will, of the `processWill` goroutine started for it, and of the
    execution rows created for its actions. */
module WillLife {
  import opened Basics
  import opened Tables

  /** Where a `processWill` goroutine stands. */
  datatype ProcPc =
    | Listing
    | Looping(todo: seq<ActionId>)
    | Queuing(todo: seq<ActionId>, e: ExecId)

  /** History of one will; no statement reads it. */
  datatype WillLog = WillLog(
    checkIns: set<int>,  // clock readings of the check-ins that succeeded
    wins: nat,           // compare-and-swaps to PENDING_TRIGGER that succeeded
    starts: nat,         // processWill goroutines started
    finishes: nat,       // processWill goroutines that reached the TRIGGERED write
    drops: nat,          // wins lost to a full pool
    kills: nat)          // wins lost to a crash

  const NO_LOG := WillLog({}, 0, 0, 0, 0, 0)

  /** What the owner can ask for through the API. */
  datatype OwnerOp =
    | Activate(now: int)
    | CheckIn(now: int)
    | Pause
    | Resume
    | Archive

  function OwnedRow(row: WillRow, op: OwnerOp): WillRow {
    match op
    case Activate(now) => ActivatedRow(row, now)
    case CheckIn(now) => CheckedInRow(row, now)
    case Pause => SwappedRow(row, Active, Paused)
    case Resume => SwappedRow(row, Paused, Active)
    case Archive => row.(status := Archived)
  }

  function OwnedLog(row: WillRow, log: WillLog, op: OwnerOp): WillLog {
    if op.CheckIn? && row.status == Active then log.(checkIns := log.checkIns + {op.now}) else log
  }

  // ----- one will seen alone -----

  /** `waiting`: the scheduler has won the will and not yet tried to start `processWill`.
      `made`: the execution rows of the will, with the action each belongs to. */
  datatype WillCell = WillCell(
    row: WillRow,
    log: WillLog,
    waiting: bool,
    procs: map<Tid, ProcPc>,
    made: map<ExecId, ActionId>)

  datatype WillMove =
    | Nothing
    | Own(op: OwnerOp)
    | Win(now: int)
    | Start(tid: Tid)
    | Drop
    | List(tid: Tid, found: seq<ActionId>)
    | Create(tid: Tid, e: ExecId)
    | Resumed(tid: Tid)
    | Finish(tid: Tid)
    | Perish

  ghost predicate WillAllowed(c: WillCell, m: WillMove) {
    match m
    case Nothing => true
    case Own(_) => true
    case Win(now) => Overdue(c.row, now) && !c.waiting
    case Start(tid) => c.waiting && tid !in c.procs
    case Drop => c.waiting
    case List(tid, found) => tid in c.procs && c.procs[tid].Listing? && NoDuplicates(found)
    case Create(tid, e) => tid in c.procs && c.procs[tid].Looping? && c.procs[tid].todo != [] && e !in c.made
    case Resumed(tid) => tid in c.procs && c.procs[tid].Queuing?
    case Finish(tid) => tid in c.procs && c.procs[tid].Looping? && c.procs[tid].todo == []
    case Perish => true
  }

  ghost function WillMoved(c: WillCell, m: WillMove): WillCell
    requires WillAllowed(c, m)
  {
    match m
    case Nothing => c
    case Own(op) => c.(row := OwnedRow(c.row, op), log := OwnedLog(c.row, c.log, op))
    case Win(_) => c.(row := c.row.(status := PendingTrigger), waiting := true, log := c.log.(wins := c.log.wins + 1))
    case Start(tid) =>
      c.(waiting := false, procs := c.procs[tid := Listing], log := c.log.(starts := c.log.starts + 1))
    case Drop => c.(waiting := false, log := c.log.(drops := c.log.drops + 1))
    case List(tid, found) => c.(procs := c.procs[tid := Looping(found)])
    case Create(tid, e) =>
      c.(procs := c.procs[tid := Queuing(c.procs[tid].todo[1..], e)], made := c.made[e := c.procs[tid].todo[0]])
    case Resumed(tid) => c.(procs := c.procs[tid := Looping(c.procs[tid].todo)])
    case Finish(tid) =>
      c.(row := c.row.(status := Triggered), procs := c.procs - {tid}, log := c.log.(finishes := c.log.finishes + 1))
    case Perish =>
      c.(waiting := false, procs := map[],
         log := if c.waiting || c.procs != map[] then c.log.(kills := c.log.kills + 1) else c.log)
  }

  ghost predicate NewBorn(c: WillCell) {
    && c.row == NewWill(c.row.interval, c.row.maxRetries)
    && c.log == NO_LOG && !c.waiting && c.procs == map[] && c.made == map[]
  }

  datatype WillHistory = WillHistory(cells: seq<WillCell>, moves: seq<WillMove>)

  ghost predicate IsHistory(h: WillHistory) {
    && |h.cells| == |h.moves| + 1
    && NewBorn(h.cells[0])
    && forall i | 0 <= i < |h.moves| ::
      WillAllowed(h.cells[i], h.moves[i]) && h.cells[i + 1] == WillMoved(h.cells[i], h.moves[i])
  }

  // ----- the dead man's switch -----

  /** While a check-in is recorded, the deadline is exactly one interval after it. */
  ghost predicate DeadlineOk(c: WillCell) {
    && (c.row.lastCheckIn.Some? ==>
          && c.row.deadline == Some(c.row.lastCheckIn.value + c.row.interval)
          && c.row.lastCheckIn.value in c.log.checkIns)
    && (c.row.lastCheckIn.None? ==> c.log.checkIns == {})
    && (c.row.status == Draft ==> c.row.lastCheckIn.None? && c.row.deadline.None?)
  }

  /** The check-in on record is the latest reading that was ever committed. */
  ghost predicate LatestOnRecord(c: WillCell) {
    forall t | t in c.log.checkIns :: c.row.lastCheckIn.Some? && t <= c.row.lastCheckIn.value
  }

  /** This check-in does not carry an older reading than one committed before. */
  ghost predicate InOrder(c: WillCell, m: WillMove) {
    m.Own? && m.op.CheckIn? && c.row.status == Active ==> forall t | t in c.log.checkIns :: t <= m.op.now
  }

  lemma DeadlineStep(c: WillCell, m: WillMove)
    requires DeadlineOk(c) && WillAllowed(c, m)
    ensures DeadlineOk(WillMoved(c, m))
    ensures LatestOnRecord(c) && InOrder(c, m) ==> LatestOnRecord(WillMoved(c, m))
    ensures WillMoved(c, m).row.interval == c.row.interval
  {
  }

  lemma {:induction false} DeadlineAlways(h: WillHistory, i: nat)
    requires IsHistory(h) && i < |h.cells|
    ensures DeadlineOk(h.cells[i])
    ensures (forall j | 0 <= j < i :: InOrder(h.cells[j], h.moves[j])) ==> LatestOnRecord(h.cells[i])
  {
    if i > 0 {
      hide WillMoved, WillAllowed, DeadlineOk, LatestOnRecord, InOrder, NewBorn;
      DeadlineAlways(h, i - 1);
      DeadlineStep(h.cells[i - 1], h.moves[i - 1]);
    }
  }

  /** Every reading at which the compare-and-swap can win leaves a full interval after
      every check-in that succeeded. */
  ghost predicate SwitchSafe(c: WillCell) {
    forall now, t | Overdue(c.row, now) && t in c.log.checkIns :: t + c.row.interval <= now
  }

  /** The switch is safe exactly when the check-in on record is the latest one. */
  lemma SwitchSafeIff(c: WillCell)
    requires DeadlineOk(c) && c.row.status == Active
    ensures SwitchSafe(c) <==> LatestOnRecord(c)
  {
    if LatestOnRecord(c) {
      assert SwitchSafe(c);
    } else {
      var t :| t in c.log.checkIns && !(c.row.lastCheckIn.Some? && t <= c.row.lastCheckIn.value);
      var now := c.row.lastCheckIn.value + c.row.interval;
      assert Overdue(c.row, now) && t + c.row.interval > now;
    }
  }

  // ----- triggering at most once -----

  predicate PastPending(status: WillStatus) {
    status == PendingTrigger || status == Triggered || status == Archived
  }

  ghost predicate Running(c: WillCell) {
    exists tid :: tid in c.procs
  }

  /** Every won compare-and-swap is accounted for exactly once. */
  ghost predicate WinsOk(c: WillCell) {
    && c.log.wins == Bit(c.waiting) + Bit(Running(c)) + c.log.finishes + c.log.drops + c.log.kills
    && c.log.wins <= 1
    && (c.log.wins == 1 ==> PastPending(c.row.status))
    && (c.row.status in {PendingTrigger, Triggered} ==> c.log.wins == 1)
    && c.log.starts <= c.log.wins
    && (c.waiting ==> c.log.starts == 0)
    && (forall t, u | t in c.procs && u in c.procs :: t == u)
  }

  lemma WinsStep(c: WillCell, m: WillMove)
    requires WinsOk(c) && WillAllowed(c, m)
    ensures WinsOk(WillMoved(c, m))
    ensures PastPending(c.row.status) ==> PastPending(WillMoved(c, m).row.status)
    ensures c.log.wins <= WillMoved(c, m).log.wins
  {
    match m {
      case Start(tid) =>
        assert tid in WillMoved(c, m).procs;
      case List(tid, _) => assert tid in WillMoved(c, m).procs;
      case Create(tid, _) => assert tid in WillMoved(c, m).procs;
      case Resumed(tid) => assert tid in WillMoved(c, m).procs;
      case Perish =>
        assert c.procs != map[] <==> Running(c);
      case _ =>
    }
  }

  // ----- one execution row per action -----

  predicate Mentions(pc: ProcPc, a: ActionId) {
    !pc.Listing? && a in pc.todo
  }

  /** No action has two rows, and no running goroutine still has an action on its list that has one. */
  ghost predicate MadeOk(c: WillCell) {
    && (forall e, f | e in c.made && f in c.made && c.made[e] == c.made[f] :: e == f)
    && (c.log.starts == 0 ==> c.made == map[])
    && (forall tid | tid in c.procs ::
          && c.log.starts == 1
          && (c.procs[tid].Listing? ==> c.made == map[])
          && (!c.procs[tid].Listing? ==> NoDuplicates(c.procs[tid].todo))
          && forall e | e in c.made :: !Mentions(c.procs[tid], c.made[e]))
  }

  lemma MadeStep(c: WillCell, m: WillMove)
    requires MadeOk(c) && WinsOk(c) && WillAllowed(c, m)
    ensures MadeOk(WillMoved(c, m))
  {
  }

  lemma {:induction false} OnceAlways(h: WillHistory, i: nat)
    requires IsHistory(h) && i < |h.cells|
    ensures WinsOk(h.cells[i]) && MadeOk(h.cells[i])
  {
    if i > 0 {
      OnceAlways(h, i - 1);
      WinsStep(h.cells[i - 1], h.moves[i - 1]);
      MadeStep(h.cells[i - 1], h.moves[i - 1]);
    }
  }

  // ----- stranded wills -----

  /** Won, and no longer in anybody's hands. */
  ghost predicate Abandoned(c: WillCell) {
    PastPending(c.row.status) && !c.waiting && !Running(c)
  }

  /** Nothing ever happens to an abandoned will again, except that its owner may archive it. */
  lemma AbandonedStep(c: WillCell, m: WillMove)
    requires Abandoned(c) && WillAllowed(c, m)
    ensures var c' := WillMoved(c, m);
      && Abandoned(c') && c'.made == c.made && c'.log == c.log
      && (c'.row.status == c.row.status || c'.row.status == Archived)
  {
  }

  lemma {:induction false} AbandonedForever(h: WillHistory, i: nat, j: nat)
    requires IsHistory(h) && i <= j < |h.cells| && Abandoned(h.cells[i])
    ensures Abandoned(h.cells[j]) && h.cells[j].made == h.cells[i].made && h.cells[j].log == h.cells[i].log
    ensures h.cells[j].row.status in {h.cells[i].row.status, Archived}
    decreases j
  {
    if i < j {
      AbandonedForever(h, i, j - 1);
      AbandonedStep(h.cells[j - 1], h.moves[j - 1]);
    }
  }
}
