/** The interleavings of the scheduler loop, its pool of goroutines, the API handlers,
    the clock and crashes. Every step is one SQL statement, one channel operation,
    one notifier call or one change of the environment.

    A step that carries `now` uses a clock reading taken before its statement ran:
    any reading that is not in the future is allowed. */
module Protocol {
  import opened Basics
  import opened Tables
  import opened Executions
  import opened WillLife

  /** Where the scheduler loop stands. */
  datatype SchedPc =
    | Idle
    | Resetted
    | Sweep(overdue: seq<WillId>)
    | Won(will: WillId, rest: seq<WillId>)
    | TickDone
    | Retrying(due: seq<ExecId>)

  /** A goroutine of the pool: `processWill`, `retryAction`, or one about to give its slot back. */
  datatype Thread =
    | Processor(w: WillId, proc: ProcPc)
    | Worker(e: ExecId, work: WorkPc)
    | Exiting

  datatype State = State(
    db: Database,
    clock: int,
    unlocked: bool,
    capacity: nat,
    tokens: nat,
    sched: SchedPc,
    threads: map<Tid, Thread>,
    wlog: map<WillId, WillLog>,
    tally: map<ExecId, Tally>)

  datatype SchedOp =
    | StartTick(now: int)
    | ScanOverdue(now: int, wills: seq<WillId>)
    | TryPending(now: int)
    | DispatchWill(tid: Tid)
    | EndTick
    | SkipRetries
    | ScanRetries(now: int, execs: seq<ExecId>)
    | DispatchRetry(tid: Tid)
    | EndRetries

  datatype ProcOp =
    | ListActions(found: seq<ActionId>)
    | CreateExecution(e: ExecId)
    | DispatchExec(worker: Tid)
    | MarkTriggered

  datatype Step =
    | Advance(to: int)
    | Crash
    | Unlock
    | CreateWill(w: WillId, interval: int, maxRetries: int)
    | AddAction(a: ActionId, w: WillId, position: nat)
    | Owner(w: WillId, own: OwnerOp)
    | Sched(sop: SchedOp)
    | Process(tid: Tid, pop: ProcOp)
    | Act(tid: Tid, op: WorkOp)
    | Exit(tid: Tid)

  ghost predicate Init(s: State) {
    && s.db == Database(map[], map[], map[])
    && !s.unlocked
    && s.capacity >= 1
    && s.tokens == 0
    && s.sched == Idle
    && s.threads == map[]
    && s.wlog == map[]
    && s.tally == map[]
  }

  // ----- environment and API -----

  ghost predicate ActionFits(db: Database, a: ActionId, w: WillId, position: nat) {
    && a !in db.actions && w in db.wills
    && forall b | b in db.actions :: db.actions[b] != ActionRow(w, position)
  }

  function AfterCreateWill(s: State, w: WillId, interval: int, maxRetries: int): State {
    s.(db := s.db.(wills := s.db.wills[w := NewWill(interval, maxRetries)]), wlog := s.wlog[w := NO_LOG])
  }

  function AfterAddAction(s: State, a: ActionId, w: WillId, position: nat): State {
    s.(db := s.db.(actions := s.db.actions[a := ActionRow(w, position)]))
  }

  function AfterOwner(s: State, w: WillId, own: OwnerOp): State {
    if w in s.db.wills && w in s.wlog
    then s.(db := s.db.(wills := s.db.wills[w := OwnedRow(s.db.wills[w], own)]),
            wlog := s.wlog[w := OwnedLog(s.db.wills[w], s.wlog[w], own)])
    else s
  }

  /** The win of this will is in memory only: waiting for a slot or being processed. */
  predicate InFlight(s: State, w: WillId) {
    || (s.sched.Won? && s.sched.will == w)
    || exists tid | tid in s.threads :: s.threads[tid].Processor? && s.threads[tid].w == w
  }

  function Perished(log: WillLog): WillLog {
    log.(kills := log.kills + 1)
  }

  /** All goroutines and the key vanish, all rows stay. */
  function AfterCrash(s: State): State {
    s.(unlocked := false, tokens := 0, sched := Idle, threads := map[],
       wlog := map w | w in s.wlog :: if InFlight(s, w) then Perished(s.wlog[w]) else s.wlog[w])
  }

  // ----- the pool -----

  /** A slot is taken when there is one; otherwise the work is silently dropped. */
  function Dispatch(s: State, tid: Tid, start: Thread): State {
    if s.tokens < s.capacity
    then s.(tokens := s.tokens + 1, threads := s.threads[tid := start])
    else s
  }

  function AfterExit(s: State, tid: Tid): State {
    s.(tokens := if s.tokens > 0 then s.tokens - 1 else 0, threads := s.threads - {tid})
  }

  // ----- scheduler loop -----

  /** At most ten rows are taken up by one retry scan. */
  const SCAN_LIMIT: nat := 10

  ghost predicate FindsDue(db: Database, now: int, execs: seq<ExecId>) {
    && NoDuplicates(execs)
    && |execs| <= SCAN_LIMIT
    && (forall e | e in execs :: e in db.execs && Due(db.execs[e], now))
    && (|execs| < SCAN_LIMIT ==> forall e | e in db.execs && Due(db.execs[e], now) :: e in execs)
  }

  ghost predicate FindsOverdue(db: Database, now: int, wills: seq<WillId>) {
    && NoDuplicates(wills)
    && forall w :: w in wills <==> w in db.wills && Overdue(db.wills[w], now)
  }

  ghost predicate SchedEnabled(s: State, a: SchedOp) {
    match a
    case StartTick(now) => s.sched.Idle? && now <= s.clock
    case ScanOverdue(now, wills) => s.sched.Resetted? && now <= s.clock && FindsOverdue(s.db, now, wills)
    case TryPending(now) => s.sched.Sweep? && s.sched.overdue != [] && now <= s.clock
    case DispatchWill(tid) => s.sched.Won? && tid !in s.threads
    case EndTick => s.sched.Sweep? && s.sched.overdue == []
    case SkipRetries => s.sched.TickDone?
    case ScanRetries(now, execs) => s.sched.TickDone? && now <= s.clock && FindsDue(s.db, now, execs)
    case DispatchRetry(tid) => s.sched.Retrying? && s.sched.due != [] && tid !in s.threads
    case EndRetries => s.sched.Retrying? && s.sched.due == []
  }

  function AfterReset(s: State, now: int): State {
    s.(sched := Resetted,
       db := s.db.(execs := map e | e in s.db.execs :: ResetRow(s.db.execs[e], now)),
       tally := map e | e in s.tally ::
         if e in s.db.execs then ResetTally(s.db.execs[e], s.tally[e], now) else s.tally[e])
  }

  function AfterTryPending(s: State, now: int): State
    requires s.sched.Sweep? && s.sched.overdue != []
  {
    var w, rest := s.sched.overdue[0], s.sched.overdue[1..];
    if w in s.db.wills && w in s.wlog && Overdue(s.db.wills[w], now)
    then s.(db := s.db.(wills := s.db.wills[w := s.db.wills[w].(status := PendingTrigger)]),
            sched := Won(w, rest),
            wlog := s.wlog[w := s.wlog[w].(wins := s.wlog[w].wins + 1)])
    else s.(sched := Sweep(rest))
  }

  function AfterDispatchWill(s: State, tid: Tid): State
    requires s.sched.Won?
  {
    var w := s.sched.will;
    var log := if w in s.wlog then s.wlog[w] else NO_LOG;
    Dispatch(s, tid, Processor(w, Listing)).(
      sched := Sweep(s.sched.rest),
      wlog := s.wlog[w :=
        if s.tokens < s.capacity then log.(starts := log.starts + 1) else log.(drops := log.drops + 1)])
  }

  function AfterSched(s: State, a: SchedOp): State
    requires a.TryPending? ==> s.sched.Sweep? && s.sched.overdue != []
    requires a.DispatchWill? ==> s.sched.Won?
    requires a.DispatchRetry? ==> s.sched.Retrying? && s.sched.due != []
  {
    match a
    case StartTick(now) => AfterReset(s, now)
    case ScanOverdue(_, wills) => s.(sched := Sweep(wills))
    case TryPending(now) => AfterTryPending(s, now)
    case DispatchWill(tid) => AfterDispatchWill(s, tid)
    case EndTick => s.(sched := TickDone)
    case SkipRetries => s.(sched := Idle)
    case ScanRetries(_, execs) => s.(sched := Retrying(execs))
    case DispatchRetry(tid) =>
      Dispatch(s, tid, Worker(s.sched.due[0], Spawned)).(sched := Retrying(s.sched.due[1..]))
    case EndRetries => s.(sched := Idle)
  }

  // ----- processWill -----

  ghost predicate ProcEnabled(s: State, tid: Tid, a: ProcOp) {
    && tid in s.threads && s.threads[tid].Processor?
    && var w, pc := s.threads[tid].w, s.threads[tid].proc;
    match a
    case ListActions(found) => pc.Listing? && ListsActions(s.db.actions, w, found)
    case CreateExecution(e) => pc.Looping? && pc.todo != [] && e !in s.db.execs
    case DispatchExec(worker) => pc.Queuing? && worker !in s.threads
    case MarkTriggered => pc.Looping? && pc.todo == []
  }

  function AfterProcess(s: State, tid: Tid, a: ProcOp): State
    requires tid in s.threads && s.threads[tid].Processor?
  {
    var w, pc := s.threads[tid].w, s.threads[tid].proc;
    match a
    case ListActions(found) => s.(threads := s.threads[tid := Processor(w, Looping(found))])
    case CreateExecution(e) =>
      if pc.Looping? && pc.todo != []
      then s.(threads := s.threads[tid := Processor(w, Queuing(pc.todo[1..], e))],
              db := s.db.(execs := s.db.execs[e := NewExec(pc.todo[0], w)]),
              tally := s.tally[e := NO_TALLY])
      else s
    case DispatchExec(worker) =>
      if pc.Queuing?
      then var mid := Dispatch(s, worker, Worker(pc.e, Spawned));
           mid.(threads := mid.threads[tid := Processor(w, Looping(pc.todo))])
      else s
    case MarkTriggered =>
      if w in s.db.wills && w in s.wlog
      then s.(threads := s.threads[tid := Exiting],
              db := s.db.(wills := s.db.wills[w := s.db.wills[w].(status := Triggered)]),
              wlog := s.wlog[w := s.wlog[w].(finishes := s.wlog[w].finishes + 1)])
      else s.(threads := s.threads[tid := Exiting])
  }

  // ----- retryAction -----

  ghost predicate HasRows(s: State, e: ExecId) {
    e in s.db.execs && e in s.tally && s.db.execs[e].will in s.db.wills
  }

  ghost predicate ActEnabled(s: State, tid: Tid, op: WorkOp) {
    && tid in s.threads && s.threads[tid].Worker?
    && HasRows(s, s.threads[tid].e)
    && WorkEnabled(s.threads[tid].work, op, s.clock)
    && (op.Prepare? && !op.outcome.Abort? ==> s.unlocked)
  }

  ghost function AfterAct(s: State, tid: Tid, op: WorkOp): State
    requires ActEnabled(s, tid, op)
  {
    var e := s.threads[tid].e;
    var row := s.db.execs[e];
    var x := Work(s.threads[tid].work, row, s.tally[e], s.db.wills[row.will].maxRetries, op);
    s.(threads := s.threads[tid := if x.pc.Some? then Worker(e, x.pc.value) else Exiting],
       db := s.db.(execs := s.db.execs[e := x.row]),
       tally := s.tally[e := x.k])
  }

  // ----- steps and runs -----

  ghost predicate Enabled(s: State, a: Step) {
    match a
    case Advance(to) => to >= s.clock
    case Crash => true
    case Unlock => true
    case CreateWill(w, interval, _) => w !in s.db.wills && interval > 0
    case AddAction(a, w, position) => ActionFits(s.db, a, w, position)
    case Owner(_, own) => (own.Activate? ==> own.now <= s.clock) && (own.CheckIn? ==> own.now <= s.clock)
    case Sched(sop) => SchedEnabled(s, sop)
    case Process(tid, pop) => ProcEnabled(s, tid, pop)
    case Act(tid, op) => ActEnabled(s, tid, op)
    case Exit(tid) => tid in s.threads && s.threads[tid].Exiting?
  }

  ghost function Next(s: State, a: Step): State
    requires Enabled(s, a)
  {
    match a
    case Advance(to) => s.(clock := to)
    case Crash => AfterCrash(s)
    case Unlock => s.(unlocked := true)
    case CreateWill(w, interval, maxRetries) => AfterCreateWill(s, w, interval, maxRetries)
    case AddAction(a, w, position) => AfterAddAction(s, a, w, position)
    case Owner(w, own) => AfterOwner(s, w, own)
    case Sched(sop) => AfterSched(s, sop)
    case Process(tid, pop) => AfterProcess(s, tid, pop)
    case Act(tid, op) => AfterAct(s, tid, op)
    case Exit(tid) => AfterExit(s, tid)
  }

  /** A finite execution: `states[i]` becomes `states[i + 1]` by `steps[i]`. */
  datatype Run = Run(states: seq<State>, steps: seq<Step>)
  {
    ghost function Last(): State
      requires |states| > 0
    {
      states[|states| - 1]
    }
  }

  ghost predicate IsPath(r: Run) {
    && |r.states| == |r.steps| + 1
    && forall i | 0 <= i < |r.steps| ::
      Enabled(r.states[i], r.steps[i]) && r.states[i + 1] == Next(r.states[i], r.steps[i])
  }

  ghost predicate IsRun(r: Run) {
    IsPath(r) && Init(r.states[0])
  }
}
