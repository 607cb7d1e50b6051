/** The scheduler as the program it is: `tick`, `processWill`, `processRetries` and `retryAction` over the
    tables, statement by statement. Between any two statements everything else may run. Each routine is
    shown to be a path of the protocol, so every theorem about runs of the protocol is about it. */
module SchedulerProgram {
  import opened Basics
  import opened Tables
  import opened Executions
  import opened WillLife
  import opened Protocol
  import opened Invariants
  import opened Paths
  import opened WillService
  import opened ActionService
  import opened ExecutionTheorems
  import opened WillTheorems

  /** Where a routine stands: the protocol state, the steps the program has taken itself, the time. */
  datatype Entry = Entry(state: State, before: seq<Step>, time: int)

  /** The step uses no clock reading older than this. */
  predicate NotBefore(a: Step, time: int) {
    match a
    case Sched(StartTick(now)) => time <= now
    case Sched(ScanOverdue(now, _)) => time <= now
    case Sched(TryPending(now)) => time <= now
    case Sched(ScanRetries(now, _)) => time <= now
    case Act(_, FailUnclaimed(now)) => time <= now
    case Act(_, Claim(now)) => time <= now
    case Act(_, WriteBack(now)) => time <= now
    case Owner(_, Activate(now)) => time <= now
    case Owner(_, CheckIn(now)) => time <= now
    case _ => true
  }

  /** The steps `own` are taken on the path in this order, at the places `at`. */
  ghost predicate Occur(r: Run, own: seq<Step>, at: seq<nat>) {
    && |at| == |own|
    && (forall i | 0 <= i < |at| :: at[i] < |r.steps| && r.steps[at[i]] == own[i])
    && (forall i, j | 0 <= i < j < |at| :: at[i] < at[j])
  }

  /** From `s` to `s'` leads a path of the protocol on which these steps are taken in this order. */
  ghost predicate Woven(s: State, s': State, own: seq<Step>) {
    exists r: Run, at: seq<nat> :: Connects(r, s, s') && Occur(r, own, at)
  }

  lemma WovenItself(s: State)
    ensures Woven(s, s, [])
  {
    assert Connects(Run([s], []), s, s) && Occur(Run([s], []), [], []);
  }

  lemma WovenNext(s: State, m: State, own: seq<Step>, a: Step)
    requires Woven(s, m, own) && Enabled(m, a)
    ensures Woven(s, Next(m, a), own + [a])
  {
    hide Enabled, Next;
    var r: Run, at: seq<nat> :| Connects(r, s, m) && Occur(r, own, at);
    var r' := Run(r.states + [Next(m, a)], r.steps + [a]);
    assert Connects(r', s, Next(m, a));
    assert Occur(r', own + [a], at + [|r.steps|]);
  }

  lemma WovenOn(s: State, m: State, s': State, x: seq<Step>, y: seq<Step>)
    requires Woven(s, m, x) && Woven(m, s', y)
    ensures Woven(s, s', x + y)
  {
    hide Enabled, Next;
    var p: Run, at: seq<nat> :| Connects(p, s, m) && Occur(p, x, at);
    var q: Run, bt: seq<nat> :| Connects(q, m, s') && Occur(q, y, bt);
    Joined(p, q, s, m, s');
    OccurOn(p, q, Run(p.states + q.states[1..], p.steps + q.steps), x, y, at, bt);
  }

  lemma OccurOn(p: Run, q: Run, r: Run, x: seq<Step>, y: seq<Step>, at: seq<nat>, bt: seq<nat>)
    requires Occur(p, x, at) && Occur(q, y, bt) && r.steps == p.steps + q.steps
    ensures Occur(r, x + y, at + seq(|bt|, i requires 0 <= i < |bt| => |p.steps| + bt[i]))
  {
  }

  lemma WovenReaches(s: State, s': State, own: seq<Step>)
    requires Woven(s, s', own)
    ensures Reaches(s, s')
  {
    var r: Run, at: seq<nat> :| Connects(r, s, s') && Occur(r, own, at);
  }

  /** From `a` to `b` leads a path of the protocol. The steps the program has recorded in between are taken on that
      path, in their order, with clock readings taken on the way. */
  ghost predicate Linked(a: Entry, b: Entry) {
    && a.before <= b.before && a.time <= b.time
    && Woven(a.state, b.state, b.before[|a.before|..])
    && forall i | |a.before| <= i < |b.before| :: NotBefore(b.before[i], a.time)
  }

  lemma LinkedItself(a: Entry)
    ensures Linked(a, a)
  {
    WovenItself(a.state);
    assert a.before[|a.before|..] == [];
  }

  lemma LinkedOn(a: Entry, b: Entry, c: Entry)
    requires Linked(a, b) && Linked(b, c)
    ensures Linked(a, c)
  {
    hide Woven;
    WovenOn(a.state, b.state, c.state, b.before[|a.before|..], c.before[|b.before|..]);
    assert c.before[|a.before|..] == b.before[|a.before|..] + c.before[|b.before|..];
    assert b.before == c.before[..|b.before|];
  }

  lemma LinkedNext(a: Entry, b: Entry, step: Step)
    requires Linked(a, b) && Enabled(b.state, step) && NotBefore(step, a.time)
    ensures Linked(a, Entry(Next(b.state, step), b.before + [step], b.time))
  {
    hide Enabled, Next, Woven;
    WovenNext(a.state, b.state, b.before[|a.before|..], step);
    assert (b.before + [step])[|a.before|..] == b.before[|a.before|..] + [step];
  }

  /** One step of the program itself. */
  ghost predicate Took(from: Entry, a: Step, to: Entry) {
    Takes(from.state, a, to.state) && to.before == from.before + [a] && to.time == from.time
  }

  /** A UUID nobody uses yet. */
  method NewId(used: set<string>) returns (id: string)
    ensures id !in used
  {
    ghost var some := FreshId(used);
    id :| id !in used;
  }

  /** Whose local state a pause must not touch. */
  datatype Who = Loop | Goroutine(tid: Tid) | Handler

  /** The process is not restarted, and nobody else moves this routine. */
  ghost predicate Alive(s: State, s': State, who: Who) {
    match who
    case Loop => s'.sched == s.sched
    case Handler => true
    case Goroutine(tid) => At(s, tid) && At(s', tid) && s'.threads[tid] == s.threads[tid]
  }

  /** What `retryAction` read about its execution and its will; neither changes later. */
  ghost predicate Remembers(db: Database, e: ExecId, w: WillId, retries: int) {
    e in db.execs && db.execs[e].will == w && w in db.wills && db.wills[w].maxRetries == retries
  }

  lemma RemembersOn(db: Database, db': Database, e: ExecId, w: WillId, retries: int)
    requires Remembers(db, e, w, retries) && Grows(db, db')
    ensures Remembers(db', e, w, retries)
  {
  }

  lemma ResetShape(s: State, now: int)
    requires s.sched.Idle? && now <= s.clock
    ensures var a := Sched(StartTick(now));
      && Enabled(s, a) && SameFrame(s, Next(s, a)) && Next(s, a).tokens == s.tokens && Next(s, a).sched == Resetted
      && Next(s, a).db == s.db.(execs := map e | e in s.db.execs :: ResetRow(s.db.execs[e], now))
  {
  }

  lemma OwnerShape(s: State, w: WillId, op: OwnerOp)
    requires Inv(s) && (op.Activate? || op.CheckIn? ==> op.now <= s.clock)
    ensures var s' := Next(s, Owner(w, op));
      && Enabled(s, Owner(w, op)) && SameFrame(s, s') && s'.tokens == s.tokens
      && s'.db == if w in s.db.wills then s.db.(wills := s.db.wills[w := OwnedRow(s.db.wills[w], op)]) else s.db
  {
  }

  /** The action has its execution row. */
  ghost predicate HasRowFor(db: Database, b: ActionId) {
    exists e :: e in db.execs && db.execs[e].action == b
  }

  lemma HasRowForOn(db: Database, db': Database, bs: seq<ActionId>)
    requires Grows(db, db') && forall b | b in bs :: HasRowFor(db, b)
    ensures forall b | b in bs :: HasRowFor(db', b)
  {
  }

  /** When the claim, or the failure write in its place, was made; whether the claim was won; when the result was
      written back. */
  datatype Record = Record(first: int, won: bool, last: int)

  /** What `retryAction` does after loading: it leaves, or records a failure without a claim, or claims; and when
      the claim is won it delivers and writes the notifier's report back. */
  function Script(tid: Tid, outcome: Outcome, ok: bool, r: Record): seq<Step> {
    match outcome
    case Abort => [Step.Act(tid, Prepare(Abort))]
    case CannotDecrypt => [Step.Act(tid, Prepare(CannotDecrypt)), Step.Act(tid, FailUnclaimed(r.first))]
    case Decrypted => [Step.Act(tid, Prepare(Decrypted))] + AttemptScript(tid, ok, r)
  }

  function AttemptScript(tid: Tid, ok: bool, r: Record): seq<Step> {
    if r.won
    then [Step.Act(tid, WorkOp.Claim(r.first)), Step.Act(tid, Deliver(ok)), Step.Act(tid, WriteBack(r.last))]
    else [Step.Act(tid, WorkOp.Claim(r.first))]
  }

  // ----- what the loop does, step by step -----

  /** One overdue will: the compare-and-swap at `now`, and when it won, the attempt to start `processWill`. */
  datatype Try = Try(now: int, won: bool, tid: Tid)

  function TryTrail(t: Try): seq<Step> {
    [Sched(TryPending(t.now))] + if t.won then [Sched(DispatchWill(t.tid))] else []
  }

  function TryTrails(ts: seq<Try>): seq<Step> {
    if ts == [] then [] else TryTrails(ts[..|ts| - 1]) + TryTrail(ts[|ts| - 1])
  }

  lemma TryTrailsOn(ts: seq<Try>, t: Try)
    ensures TryTrails(ts + [t]) == TryTrails(ts) + TryTrail(t)
  {
    assert (ts + [t])[..|ts|] == ts;
  }

  datatype TickLog = TickLog(reset: int, scan: int, overdue: seq<WillId>, tries: seq<Try>)

  /** A tick: stale claims are reset, and every overdue will found is tried once, in order. */
  function TickTrail(t: TickLog): seq<Step> {
    [Sched(StartTick(t.reset)), Sched(ScanOverdue(t.scan, t.overdue))] + TryTrails(t.tries) + [Sched(EndTick)]
  }

  datatype ScanLog = ScanLog(now: int, due: seq<ExecId>, tids: seq<Tid>)

  function OfferTrail(tids: seq<Tid>): seq<Step> {
    seq(|tids|, i requires 0 <= i < |tids| => Sched(DispatchRetry(tids[i])))
  }

  /** A retry scan: every row found is offered to the pool once, in order. */
  function ScanTrail(x: ScanLog): seq<Step> {
    [Sched(ScanRetries(x.now, x.due))] + OfferTrail(x.tids) + [Sched(EndRetries)]
  }

  datatype Beat = Beat(tick: TickLog, scan: ScanLog)

  ghost predicate Complete(t: TickLog) {
    |t.tries| == |t.overdue|
  }

  ghost predicate BeatOk(b: Beat) {
    Complete(b.tick) && |b.scan.tids| == |b.scan.due|
  }

  ghost predicate BeatsOk(bs: seq<Beat>) {
    forall b | b in bs :: BeatOk(b)
  }

  function BeatTrail(b: Beat): seq<Step> {
    TickTrail(b.tick) + ScanTrail(b.scan)
  }

  function BeatTrails(bs: seq<Beat>): seq<Step> {
    if bs == [] then [] else BeatTrails(bs[..|bs| - 1]) + BeatTrail(bs[|bs| - 1])
  }

  lemma BeatTrailsOn(bs: seq<Beat>, b: Beat)
    requires BeatsOk(bs) && BeatOk(b)
    ensures BeatTrails(bs + [b]) == BeatTrails(bs) + BeatTrail(b) && BeatsOk(bs + [b])
  {
    assert (bs + [b])[..|bs|] == bs;
  }

  // ----- what `processWill` does, step by step -----

  /** One action: its row, and the goroutine it was offered as. */
  datatype Turn = Turn(e: ExecId, worker: Tid)

  function TurnTrail(tid: Tid, t: Turn): seq<Step> {
    [Process(tid, CreateExecution(t.e)), Process(tid, DispatchExec(t.worker))]
  }

  function TurnTrails(tid: Tid, ts: seq<Turn>): seq<Step> {
    if ts == [] then [] else TurnTrails(tid, ts[..|ts| - 1]) + TurnTrail(tid, ts[|ts| - 1])
  }

  lemma TurnTrailsOn(tid: Tid, ts: seq<Turn>, t: Turn)
    ensures TurnTrails(tid, ts + [t]) == TurnTrails(tid, ts) + TurnTrail(tid, t)
  {
    assert (ts + [t])[..|ts|] == ts;
  }

  /** Every action listed is queued once, in order; then TRIGGERED is written and the slot given back. */
  function WillTrail(tid: Tid, found: seq<ActionId>, ts: seq<Turn>): seq<Step> {
    [Process(tid, ListActions(found))] + TurnTrails(tid, ts) + [Process(tid, MarkTriggered), Exit(tid)]
  }

  /** What the owner asks for, before the clock is read. */
  datatype Request = Activation | CheckingIn | Pausing | Resuming | Archiving

  function Timed(req: Request, now: int): OwnerOp {
    match req
    case Activation => Activate(now)
    case CheckingIn => CheckIn(now)
    case Pausing => Pause
    case Resuming => Resume
    case Archiving => Archive
  }

  /** The columns an accepted request changes, and the status it asks for. */
  predicate Requested(op: OwnerOp, row: WillRow, row': WillRow) {
    match op
    case Activate(now) => row.status == Draft && row' == row.(status := Active, deadline := Some(now))
    case CheckIn(now) =>
      row.status == Active && row' == row.(lastCheckIn := Some(now), deadline := Some(now + row.interval))
    case Pause => row.status == Active && row' == row.(status := Paused)
    case Resume => row.status == Paused && row' == row.(status := Active)
    case Archive => row' == row.(status := Archived)
  }

  /** What a handler that creates a row answers. */
  datatype CreateReply = Ok | Forbidden | BadRequest | InternalError

  class Scheduler {
    const wills: WillTable
    const acts: ActionTable
    const capacity: nat
    var tokens: nat
    var unlocked: bool
    var clock: int
    var lastTick: int
    ghost var view: State
    ghost var trail: seq<Step>

    /** The fields are the protocol state. */
    ghost predicate Valid()
      reads this, wills, acts
    {
      && view.db == Database(wills.rows, acts.actions, acts.execs)
      && view.clock == clock && view.unlocked == unlocked && view.tokens == tokens && view.capacity == capacity
      && Inv(view)
    }

    /** Where the program stands. */
    ghost function Now(): Entry
      reads this
    {
      Entry(view, trail, clock)
    }

    /** The routine that began at `origin` has got here. */
    ghost predicate Since(origin: Entry)
      reads this
    {
      Linked(origin, Now()) && origin.time <= clock
    }

    /** An empty database; fewer than one worker counts as one. */
    constructor (workers: int, now: int)
      ensures Valid() && fresh(wills) && fresh(acts) && Init(view) && trail == []
      ensures capacity == Max(1, workers)
    {
      wills := new WillTable();
      acts := new ActionTable();
      capacity := if workers < 1 then 1 else workers;
      tokens, unlocked, clock, lastTick := 0, false, now, now;
      view := State(Database(map[], map[], map[]), now, false, if workers < 1 then 1 else workers, 0, Idle,
                    map[], map[], map[]);
      trail := [];
    }

    /** Other goroutines, API handlers and the clock run for a while: any path of the protocol that leaves this
        routine where it stands, in a process that is not restarted. Callers know nothing but this contract, so
        what they promise holds whatever runs in between. */
    method Yield(ghost who: Who, ghost origin: Entry)
      requires Valid() && Since(origin)
      requires who.Goroutine? ==> At(view, who.tid)
      modifies this`tokens, this`unlocked, this`clock, this`view, wills, acts
      ensures Valid() && Reaches(old(view), view) && Alive(old(view), view, who)
      ensures Since(origin) && Grows(old(view).db, view.db) && old(clock) <= clock
      ensures old(unlocked) ==> unlocked
    {
      ReachesItself(view);
      ReachesKeeps(view, view);
    }

    ghost method Follow(a: Step, origin: Entry)
      requires Inv(view) && Since(origin) && Enabled(view, a) && NotBefore(a, origin.time) && !a.Advance?
      modifies this`view, this`trail
      ensures Took(old(Now()), a, Now()) && Inv(view) && Since(origin)
    {
      InvStep(view, a);
      RowsStay(view, a);
      LinkedNext(origin, Now(), a);
      view := Next(view, a);
      trail := trail + [a];
    }

    // ----- one statement or channel operation each -----

    method ResetStale(now: int, ghost origin: Entry)
      requires Valid() && Since(origin) && view.sched.Idle? && origin.time <= now <= clock
      modifies this`view, this`trail, acts
      ensures Valid() && Since(origin)
      ensures Took(old(Now()), Sched(StartTick(now)), Now()) && view.sched == Resetted
    {
      hide Inv, Grows, Linked, Enabled, Next, ResetRow, Stale;
      ResetShape(view, now);
      acts.ResetStale(now);
      Follow(Sched(StartTick(now)), origin);
    }

    method SweepOverdue(now: int, ghost origin: Entry) returns (overdue: seq<WillId>)
      requires Valid() && Since(origin) && view.sched.Resetted? && origin.time <= now <= clock
      modifies this`view, this`trail
      ensures Valid() && Since(origin)
      ensures Took(old(Now()), Sched(ScanOverdue(now, overdue)), Now()) && view.sched == Sweep(overdue)
    {
      overdue := wills.GetOverdue(now);
      hide Inv, Grows, Linked;
      Follow(Sched(ScanOverdue(now, overdue)), origin);
    }

    /** The per-row compare-and-swap of `tick`. */
    method SwapToPending(w: WillId, ghost rest: seq<WillId>, now: int, ghost origin: Entry) returns (won: bool)
      requires Valid() && Since(origin) && view.sched == Sweep([w] + rest) && origin.time <= now <= clock
      modifies this`view, this`trail, wills
      ensures Valid() && Since(origin)
      ensures Took(old(Now()), Sched(TryPending(now)), Now())
      ensures won <==> var wills := old(view).db.wills;
        w in wills && wills[w].status == Active && wills[w].deadline.Some? && wills[w].deadline.value <= now
      ensures won ==> view.db.wills == old(view).db.wills[w := old(view).db.wills[w].(status := PendingTrigger)]
      ensures !won ==> view.db == old(view).db
      ensures view.sched == if won then Won(w, rest) else Sweep(rest)
    {
      SwapShape(view, w, rest, now);
      won := wills.TransitionToPending(w, now);
      hide Inv, Grows, Linked, Enabled, Next, Overdue;
      Follow(Sched(TryPending(now)), origin);
    }

    /** Starts `processWill` when there is a free slot, otherwise leaves the will as it is. */
    method StartProcess(ghost origin: Entry) returns (ghost tid: Tid)
      requires Valid() && Since(origin) && view.sched.Won?
      modifies this`view, this`trail, this`tokens
      ensures Valid() && Since(origin)
      ensures Took(old(Now()), Sched(DispatchWill(tid)), Now())
      ensures view.sched == Sweep(old(view).sched.rest)
    {
      hide Inv, Grows, Linked, Enabled, Next;
      tid := FreshTid(view.threads);
      StartShape(view, tid);
      if tokens < capacity {
        tokens := tokens + 1;
      }
      Follow(Sched(DispatchWill(tid)), origin);
    }

    ghost method Finish(origin: Entry)
      requires Valid() && Since(origin) && view.sched == Sweep([])
      modifies this`view, this`trail
      ensures Valid() && Since(origin)
      ensures Took(old(Now()), Sched(EndTick), Now()) && view.sched == TickDone
    {
      hide Inv, Grows, Linked;
      Follow(Sched(EndTick), origin);
    }

    // ----- the scheduler loop -----

    /** The body of the loop in `tick`: one overdue will. */
    method Trigger(w: WillId, ghost rest: seq<WillId>, ghost origin: Entry) returns (ghost t: Try)
      requires Valid() && Since(origin) && view.sched == Sweep([w] + rest)
      modifies this`view, this`trail, this`tokens, this`unlocked, this`clock, wills, acts
      ensures Valid() && Since(origin) && view.sched == Sweep(rest)
      ensures trail == old(trail) + TryTrail(t)
    {
      hide Valid, Grows, Linked, Takes;
      Yield(Loop, origin);
      var now := clock;
      var won := SwapToPending(w, rest, now, origin);
      t := Try(now, won, 0);
      if won {
        Yield(Loop, origin);
        ghost var tid := StartProcess(origin);
        t := Try(now, true, tid);
      }
    }

    /** The loop of `tick`: every overdue will found is tried once. */
    method TriggerAll(overdue: seq<WillId>, ghost origin: Entry) returns (ghost ts: seq<Try>)
      requires Valid() && Since(origin) && view.sched == Sweep(overdue)
      modifies this`view, this`trail, this`tokens, this`unlocked, this`clock, wills, acts
      ensures Valid() && Since(origin) && view.sched == TickDone
      ensures |ts| == |overdue| && trail == old(trail) + TryTrails(ts) + [Sched(EndTick)]
    {
      ts := [];
      assert TryTrails(ts) == [];
      hide Valid, Grows, Linked, Takes, TryTrail, TryTrails;
      var i := 0;
      while i < |overdue|
        invariant 0 <= i <= |overdue| && |ts| == i
        invariant Valid() && Since(origin) && view.sched == Sweep(overdue[i..])
        invariant trail == old(trail) + TryTrails(ts)
      {
        assert overdue[i..] == [overdue[i]] + overdue[i + 1..];
        ghost var t := Trigger(overdue[i], overdue[i + 1..], origin);
        TryTrailsOn(ts, t);
        ts := ts + [t];
        i := i + 1;
      }
      Finish(origin);
    }

    /** The second half of `tick`. */
    method Sweeping(ghost origin: Entry) returns (ghost scan: int, ghost overdue: seq<WillId>, ghost ts: seq<Try>)
      requires Valid() && Since(origin) && view.sched == Resetted
      modifies this`view, this`trail, this`tokens, this`unlocked, this`clock, wills, acts
      ensures Valid() && Since(origin) && view.sched == TickDone && |ts| == |overdue|
      ensures trail == old(trail) + [Sched(ScanOverdue(scan, overdue))] + TryTrails(ts) + [Sched(EndTick)]
    {
      hide Valid, Grows, Linked, Takes, TryTrails;
      Yield(Loop, origin);
      scan := clock;
      var found := SweepOverdue(clock, origin);
      overdue := found;
      ts := TriggerAll(found, origin);
    }

    /** One `tick`. */
    method Tick() returns (ghost t: TickLog)
      requires Valid() && view.sched.Idle?
      modifies this, wills, acts
      ensures Valid() && Since(old(Now())) && view.sched == TickDone
      ensures lastTick == old(clock) && t.reset == old(clock)
      ensures Complete(t) && trail == old(trail) + TickTrail(t)
    {
      ghost var origin := Now();
      LinkedItself(origin);
      lastTick := clock;
      var now := clock;
      assert Valid() && Since(origin);
      hide Valid, Grows, Linked, Takes, TryTrails;
      Yield(Loop, origin);
      ResetStale(now, origin);
      ghost var scan, overdue, ts := Sweeping(origin);
      t := TickLog(now, scan, overdue, ts);
    }

    // ----- retries -----

    method ScanDue(now: int, ghost origin: Entry) returns (due: seq<ExecId>)
      requires Valid() && Since(origin) && view.sched.TickDone? && origin.time <= now <= clock
      modifies this`view, this`trail
      ensures Valid() && Since(origin)
      ensures Took(old(Now()), Sched(ScanRetries(now, due)), Now()) && view.sched == Retrying(due)
    {
      due := acts.DueRetries(now, 10);
      hide Inv, Grows, Linked;
      Follow(Sched(ScanRetries(now, due)), origin);
    }

    /** Starts `retryAction` when there is a free slot; the row stays due otherwise. */
    method StartRetry(ghost e: ExecId, ghost rest: seq<ExecId>, ghost origin: Entry) returns (ghost tid: Tid)
      requires Valid() && Since(origin) && view.sched == Retrying([e] + rest)
      modifies this`view, this`trail, this`tokens
      ensures Valid() && Since(origin)
      ensures Took(old(Now()), Sched(DispatchRetry(tid)), Now())
      ensures view.sched == Retrying(rest)
    {
      hide Inv, Grows, Linked, Enabled, Next;
      tid := FreshTid(view.threads);
      RetryShape(view, e, rest, tid);
      if tokens < capacity {
        tokens := tokens + 1;
      }
      Follow(Sched(DispatchRetry(tid)), origin);
    }

    ghost method Rest(origin: Entry)
      requires Valid() && Since(origin) && view.sched == Retrying([])
      modifies this`view, this`trail
      ensures Valid() && Since(origin)
      ensures Took(old(Now()), Sched(EndRetries), Now()) && view.sched == Idle
    {
      hide Inv, Grows, Linked;
      Follow(Sched(EndRetries), origin);
    }

    ghost method Skip(origin: Entry)
      requires Valid() && Since(origin) && view.sched == TickDone
      modifies this`view, this`trail
      ensures Valid() && Since(origin)
      ensures Took(old(Now()), Sched(SkipRetries), Now()) && view.sched == Idle
    {
      hide Inv, Grows, Linked;
      Follow(Sched(SkipRetries), origin);
    }

    /** `processRetries`: every row of the scan is offered to the pool once. */
    method ProcessRetries() returns (ghost x: ScanLog)
      requires Valid() && view.sched == TickDone
      modifies this, wills, acts
      ensures Valid() && Since(old(Now())) && view.sched == Idle
      ensures lastTick == old(lastTick) && x.now == old(clock)
      ensures |x.tids| == |x.due| && trail == old(trail) + ScanTrail(x)
    {
      ghost var origin := Now();
      LinkedItself(origin);
      var now := clock;
      hide Valid, Grows, Linked, Takes;
      Yield(Loop, origin);
      var due := ScanDue(now, origin);
      ghost var tids: seq<Tid> := [];
      var i := 0;
      while i < |due|
        invariant 0 <= i <= |due| && |tids| == i && lastTick == old(lastTick)
        invariant Valid() && Since(origin) && view.sched == Retrying(due[i..])
        invariant trail == old(trail) + [Sched(ScanRetries(now, due))] + OfferTrail(tids)
      {
        Yield(Loop, origin);
        assert due[i..] == [due[i]] + due[i + 1..];
        ghost var tid := StartRetry(due[i], due[i + 1..], origin);
        assert OfferTrail(tids + [tid]) == OfferTrail(tids) + [Sched(DispatchRetry(tid))];
        tids := tids + [tid];
        i := i + 1;
      }
      Rest(origin);
      x := ScanLog(now, due, tids);
    }

    /** `Start`: an immediate tick, then a tick and a retry scan at each of `beats` ticks of the timer. */
    method Start(beats: nat) returns (ghost first: TickLog, ghost bs: seq<Beat>)
      requires Valid() && view.sched == Idle
      modifies this, wills, acts
      ensures Valid() && Since(old(Now())) && view.sched == Idle
      ensures Complete(first) && |bs| == beats && BeatsOk(bs)
      ensures trail == old(trail) + TickTrail(first) + [Sched(SkipRetries)] + BeatTrails(bs)
    {
      ghost var origin := Now();
      hide Valid, Linked, Takes, TickTrail, BeatTrails, Complete, BeatsOk;
      first := Tick();
      Skip(origin);
      bs := Beats(beats, origin);
    }

    /** So many beats have passed since `before`. */
    ghost predicate Beaten(bs: seq<Beat>, before: seq<Step>, origin: Entry)
      reads this, wills, acts
    {
      Valid() && Since(origin) && view.sched == Idle && BeatsOk(bs) && trail == before + BeatTrails(bs)
    }

    /** One more beat. */
    method NextBeat(ghost bs: seq<Beat>, ghost before: seq<Step>, ghost origin: Entry) returns (ghost bs': seq<Beat>)
      requires Beaten(bs, before, origin)
      modifies this, wills, acts
      ensures Beaten(bs', before, origin) && |bs'| == |bs| + 1
    {
      hide Valid, Since, BeatTrail, BeatTrails, BeatOk, BeatsOk;
      ghost var b := Heartbeat(origin);
      BeatTrailsOn(bs, b);
      bs' := bs + [b];
    }

    /** The loop of `Start`. */
    method Beats(beats: nat, ghost origin: Entry) returns (ghost bs: seq<Beat>)
      requires Valid() && Since(origin) && view.sched == Idle
      modifies this, wills, acts
      ensures Beaten(bs, old(trail), origin) && |bs| == beats
    {
      bs := [];
      ghost var before := trail;
      var beat := 0;
      while beat < beats
        invariant beat <= beats && |bs| == beat && Beaten(bs, before, origin)
      {
        bs := NextBeat(bs, before, origin);
        beat := beat + 1;
      }
    }

    /** One tick of the timer, after a pause. */
    method Heartbeat(ghost origin: Entry) returns (ghost b: Beat)
      requires Valid() && Since(origin) && view.sched == Idle
      modifies this, wills, acts
      ensures Valid() && Since(origin) && view.sched == Idle
      ensures BeatOk(b) && trail == old(trail) + BeatTrail(b)
    {
      hide Valid, Linked, TickTrail, ScanTrail;
      Yield(Loop, origin);
      ghost var start := Now();
      ghost var t := Tick();
      LinkedOn(origin, start, Now());
      ghost var ticked := Now();
      ghost var x := ProcessRetries();
      LinkedOn(origin, ticked, Now());
      b := Beat(t, x);
    }

    // ----- processWill -----

    method List(ghost tid: Tid, w: WillId, ghost origin: Entry) returns (found: seq<ActionId>)
      requires Valid() && Since(origin) && Stands(view, tid, Processor(w, Listing))
      modifies this`view, this`trail
      ensures Valid() && Since(origin) && Stands(view, tid, Processor(w, Looping(found)))
      ensures Took(old(Now()), Process(tid, ListActions(found)), Now())
      ensures ListsActions(view.db.actions, w, found)
    {
      found := acts.ListByWill(w);
      hide Inv, Grows, Linked, ListsActions;
      Follow(Process(tid, ListActions(found)), origin);
    }

    method CreateRow(ghost tid: Tid, w: WillId, b: ActionId, ghost rest: seq<ActionId>, ghost origin: Entry)
      returns (e: ExecId)
      requires Valid() && Since(origin) && Stands(view, tid, Processor(w, Looping([b] + rest)))
      modifies this`view, this`trail, acts
      ensures Valid() && Since(origin) && Stands(view, tid, Processor(w, Queuing(rest, e)))
      ensures Took(old(Now()), Process(tid, CreateExecution(e)), Now())
      ensures e in view.db.execs && view.db.execs[e].action == b
    {
      hide Inv, Grows, Linked, Enabled, Next, Stands;
      e := NewId(acts.execs.Keys);
      CreateShape(view, tid, w, b, rest, e);
      acts.CreateExecution(e, b, w);
      Follow(Process(tid, CreateExecution(e)), origin);
    }

    /** Starts `retryAction` when there is a free slot, otherwise leaves the row QUEUED. */
    method QueueRow(ghost tid: Tid, ghost w: WillId, ghost todo: seq<ActionId>, ghost e: ExecId, ghost origin: Entry)
      returns (ghost worker: Tid)
      requires Valid() && Since(origin) && Stands(view, tid, Processor(w, Queuing(todo, e)))
      modifies this`view, this`trail, this`tokens
      ensures Valid() && Since(origin) && Stands(view, tid, Processor(w, Looping(todo)))
      ensures Took(old(Now()), Process(tid, DispatchExec(worker)), Now())
    {
      hide Inv, Grows, Linked, Enabled, Next, Stands;
      worker := FreshTid(view.threads);
      QueueShape(view, tid, w, todo, e, worker);
      if tokens < capacity {
        tokens := tokens + 1;
      }
      Follow(Process(tid, DispatchExec(worker)), origin);
    }

    method Mark(ghost tid: Tid, w: WillId, ghost origin: Entry)
      requires Valid() && Since(origin) && Stands(view, tid, Processor(w, Looping([])))
      modifies this`view, this`trail, wills
      ensures Valid() && Since(origin) && Stands(view, tid, Exiting)
      ensures Took(old(Now()), Process(tid, MarkTriggered), Now())
    {
      hide Inv, Grows, Linked, Enabled, Next, Stands;
      MarkShape(view, tid, w);
      var _ := wills.UpdateStatus(w, Triggered);
      Follow(Process(tid, MarkTriggered), origin);
    }

    /** The deferred receive from the pool channel. */
    method Release(ghost tid: Tid, ghost origin: Entry)
      requires Valid() && Since(origin) && Stands(view, tid, Exiting)
      modifies this`view, this`trail, this`tokens
      ensures Valid() && Since(origin) && !At(view, tid)
      ensures Took(old(Now()), Exit(tid), Now())
    {
      hide Inv, Grows, Linked, Enabled, Next, Stands;
      ExitShape(view, tid);
      tokens := tokens - 1;
      Follow(Exit(tid), origin);
    }

    /** One turn of the loop in `processWill`. */
    method QueueAction(ghost tid: Tid, w: WillId, b: ActionId, ghost rest: seq<ActionId>, ghost origin: Entry)
      returns (ghost t: Turn)
      requires Valid() && Since(origin) && Stands(view, tid, Processor(w, Looping([b] + rest)))
      modifies this`view, this`trail, this`tokens, this`unlocked, this`clock, wills, acts
      ensures Valid() && Since(origin) && Stands(view, tid, Processor(w, Looping(rest)))
      ensures Grows(old(view).db, view.db) && HasRowFor(view.db, b)
      ensures trail == old(trail) + TurnTrail(tid, t)
    {
      hide Valid, Linked, Enabled, Next;
      Yield(Goroutine(tid), origin);
      var e := CreateRow(tid, w, b, rest, origin);
      Yield(Goroutine(tid), origin);
      ghost var worker := QueueRow(tid, w, rest, e, origin);
      t := Turn(e, worker);
    }

    /** The end of `processWill`: TRIGGERED is written, and the slot given back. */
    method Close(ghost tid: Tid, w: WillId, ghost origin: Entry)
      requires Valid() && Since(origin) && Stands(view, tid, Processor(w, Looping([])))
      modifies this`view, this`trail, this`tokens, this`unlocked, this`clock, wills, acts
      ensures Valid() && Since(origin) && !At(view, tid) && Grows(old(view).db, view.db)
      ensures trail == old(trail) + [Process(tid, MarkTriggered), Exit(tid)]
    {
      hide Valid, Linked, Enabled, Next;
      Yield(Goroutine(tid), origin);
      Mark(tid, w, origin);
      Yield(Goroutine(tid), origin);
      Release(tid, origin);
    }

    /** The first `i` actions of the list have been queued, as `ts` tells. */
    ghost predicate QueuedUpTo(tid: Tid, w: WillId, found: seq<ActionId>, i: nat, ts: seq<Turn>,
                               from: Entry, origin: Entry)
      requires i <= |found|
      reads this, wills, acts
    {
      && Valid() && Since(origin) && Stands(view, tid, Processor(w, Looping(found[i..])))
      && Grows(from.state.db, view.db) && (forall b | b in found[..i] :: HasRowFor(view.db, b))
      && |ts| == i && trail == from.before + TurnTrails(tid, ts)
    }

    /** One turn of the loop, in the course of it. */
    method QueueNext(ghost tid: Tid, w: WillId, found: seq<ActionId>, i: nat, ghost ts: seq<Turn>, ghost from: Entry,
                     ghost origin: Entry)
      returns (ghost ts': seq<Turn>)
      requires i < |found| && QueuedUpTo(tid, w, found, i, ts, from, origin)
      modifies this`view, this`trail, this`tokens, this`unlocked, this`clock, wills, acts
      ensures QueuedUpTo(tid, w, found, i + 1, ts', from, origin)
    {
      hide Valid, Linked, HasRowFor, Grows, Stands, TurnTrail, TurnTrails;
      assert found[i..] == [found[i]] + found[i + 1..];
      ghost var was := view.db;
      ghost var t := QueueAction(tid, w, found[i], found[i + 1..], origin);
      HasRowForOn(was, view.db, found[..i]);
      GrowsOn(from.state.db, was, view.db);
      TurnTrailsOn(tid, ts, t);
      ts' := ts + [t];
    }

    /** The loop of `processWill`. */
    method QueueAll(ghost tid: Tid, w: WillId, found: seq<ActionId>, ghost origin: Entry) returns (ghost ts: seq<Turn>)
      requires Valid() && Since(origin) && Stands(view, tid, Processor(w, Looping(found)))
      modifies this`view, this`trail, this`tokens, this`unlocked, this`clock, wills, acts
      ensures QueuedUpTo(tid, w, found, |found|, ts, old(Now()), origin)
    {
      ts := [];
      ghost var from := Now();
      var i := 0;
      while i < |found|
        invariant 0 <= i <= |found| && QueuedUpTo(tid, w, found, i, ts, from, origin)
      {
        ts := QueueNext(tid, w, found, i, ts, from, origin);
        i := i + 1;
      }
    }

    /** `processWill`: its steps are to list the actions, to queue each of them once, to write TRIGGERED and to leave.
        When it has returned, every action the will had at the start has its execution row. */
    method ProcessWill(ghost tid: Tid, w: WillId) returns (found: seq<ActionId>, ghost ts: seq<Turn>)
      requires Valid() && Stands(view, tid, Processor(w, Listing))
      modifies this, wills, acts
      ensures Valid() && Since(old(Now())) && !At(view, tid)
      ensures forall b | b in old(view).db.actions && old(view).db.actions[b].will == w :: b in found
      ensures forall b | b in found :: HasRowFor(view.db, b)
      ensures |ts| == |found| && trail == old(trail) + WillTrail(tid, found, ts)
    {
      ghost var origin := Now();
      LinkedItself(origin);
      hide Valid, Linked, Enabled, Next, HasRowFor, TurnTrails;
      Yield(Goroutine(tid), origin);
      found := List(tid, w, origin);
      ts := QueueAll(tid, w, found, origin);
      assert found[|found|..] == [] && found[..|found|] == found;
      ghost var was := view.db;
      Close(tid, w, origin);
      HasRowForOn(was, view.db, found);
    }

    // ----- retryAction -----

    /** One statement of `retryAction` that leaves the rows alone. */
    ghost method Move(tid: Tid, e: ExecId, pc: WorkPc, op: WorkOp, origin: Entry)
      requires Valid() && Since(origin) && Stands(view, tid, Worker(e, pc)) && WorkEnabled(pc, op, clock)
      requires op.Load? || op.Deliver? || (op.Prepare? && (op.outcome.Abort? || unlocked))
      modifies this`view, this`trail
      ensures Valid() && Since(origin) && Took(old(Now()), Step.Act(tid, op), Now())
      ensures old(HasRows(view, e)) && view.db == old(view).db
      ensures var pc' := Work(pc, old(view).db.execs[e], old(view).tally[e], 0, op).pc;
        Stands(view, tid, if pc'.Some? then Worker(e, pc'.value) else Exiting)
    {
      hide Inv, Grows, Linked, Enabled, Next, Stands;
      ActShape(view, tid, e, pc, op);
      Follow(Step.Act(tid, op), origin);
    }

    method Claim(ghost tid: Tid, e: ExecId, ghost pc: WorkPc, now: int, ghost origin: Entry) returns (won: bool)
      requires Valid() && Since(origin) && Stands(view, tid, Worker(e, pc)) && pc.Ready? && origin.time <= now <= clock
      modifies this`view, this`trail, acts
      ensures Valid() && Since(origin) && Took(old(Now()), Step.Act(tid, WorkOp.Claim(now)), Now())
      ensures old(HasRows(view, e)) && (won <==> Claimable(old(view).db.execs[e]))
      ensures Stands(view, tid, if won then Worker(e, Claimed(pc.attempt, now)) else Exiting)
    {
      hide Inv, Grows, Linked, Enabled, Next, Stands;
      ActShape(view, tid, e, pc, WorkOp.Claim(now));
      won := acts.Claim(e, now);
      Follow(Step.Act(tid, WorkOp.Claim(now)), origin);
    }

    /** The failure of an execution that was never claimed: the attempt count is written back as read. */
    method FailUnclaimed(ghost tid: Tid, e: ExecId, ghost w: WillId, attempt: nat, retries: int, now: int,
                         ghost origin: Entry)
      requires Valid() && Since(origin) && Stands(view, tid, Worker(e, Failing(attempt))) && origin.time <= now <= clock
      requires Remembers(view.db, e, w, retries)
      modifies this`view, this`trail, acts
      ensures Valid() && Since(origin) && Took(old(Now()), Step.Act(tid, WorkOp.FailUnclaimed(now)), Now())
      ensures Stands(view, tid, Exiting)
    {
      hide Inv, Grows, Linked, Enabled, Next, Stands;
      ActShape(view, tid, e, Failing(attempt), WorkOp.FailUnclaimed(now));
      acts.FailExecution(e, attempt, retries, now);
      Follow(Step.Act(tid, WorkOp.FailUnclaimed(now)), origin);
    }

    /** The write that ends a delivery. */
    method WriteBack(ghost tid: Tid, e: ExecId, ghost w: WillId, attempt: nat, retries: int, ghost started: int,
                     ok: bool, now: int, ghost origin: Entry)
      requires Valid() && Since(origin) && origin.time <= now <= clock
      requires Stands(view, tid, Worker(e, Delivered(attempt, started, ok)))
      requires Remembers(view.db, e, w, retries)
      modifies this`view, this`trail, acts
      ensures Valid() && Since(origin) && Took(old(Now()), Step.Act(tid, WorkOp.WriteBack(now)), Now())
      ensures Stands(view, tid, Exiting)
    {
      hide Inv, Grows, Linked, Enabled, Next, Stands;
      ActShape(view, tid, e, Delivered(attempt, started, ok), WorkOp.WriteBack(now));
      if ok {
        acts.MarkCompleted(e, now);
      } else {
        acts.FailExecution(e, attempt + 1, retries, now);
      }
      Follow(Step.Act(tid, WorkOp.WriteBack(now)), origin);
    }

    /** The first two queries: the execution, and the settings of its will, which nobody changes. */
    method LoadExecution(ghost tid: Tid, e: ExecId, ghost origin: Entry)
      returns (attempt: nat, ghost seen: nat, w: WillId)
      requires Valid() && Since(origin) && Stands(view, tid, Worker(e, Spawned))
      modifies this`view, this`trail
      ensures Valid() && Since(origin) && Took(old(Now()), Step.Act(tid, Load), Now())
      ensures Stands(view, tid, Worker(e, Loaded(attempt, seen)))
      ensures w in wills.rows && Remembers(view.db, e, w, wills.rows[w].maxRetries)
    {
      WorkerHasRows(view, tid);
      attempt, seen, w := acts.execs[e].attempt, view.tally[e].writes, acts.execs[e].will;
      hide Inv, Grows, Linked, Enabled, Next, Stands;
      Move(tid, e, Spawned, Load, origin);
    }

    /** Delivers and writes the result back; `ok` is what the notifier will report. */
    method Serve(ghost tid: Tid, e: ExecId, ghost w: WillId, attempt: nat, retries: int, ghost started: int, ok: bool,
                 ghost origin: Entry)
      returns (ghost last: int)
      requires Valid() && Since(origin) && Stands(view, tid, Worker(e, Claimed(attempt, started)))
      requires Remembers(view.db, e, w, retries)
      modifies this`view, this`trail, this`tokens, this`unlocked, this`clock, wills, acts
      ensures Valid() && Since(origin) && Stands(view, tid, Exiting)
      ensures trail == old(trail) + [Step.Act(tid, Deliver(ok)), Step.Act(tid, WorkOp.WriteBack(last))]
    {
      hide Valid, Linked, Enabled, Next, Remembers, Grows;
      ghost var before := view.db;
      Yield(Goroutine(tid), origin);
      RemembersOn(before, view.db, e, w, retries);
      Move(tid, e, Claimed(attempt, started), Deliver(ok), origin);
      before := view.db;
      Yield(Goroutine(tid), origin);
      RemembersOn(before, view.db, e, w, retries);
      last := clock;
      WriteBack(tid, e, w, attempt, retries, started, ok, clock, origin);
    }

    /** Claims, and when the claim is won serves the action. */
    method Attempt(ghost tid: Tid, e: ExecId, ghost w: WillId, attempt: nat, ghost seen: nat, retries: int, ok: bool,
                   ghost origin: Entry)
      returns (ghost record: Record)
      requires Valid() && Since(origin) && Stands(view, tid, Worker(e, Ready(attempt, seen)))
      requires Remembers(view.db, e, w, retries)
      modifies this`view, this`trail, this`tokens, this`unlocked, this`clock, wills, acts
      ensures Valid() && Since(origin) && Stands(view, tid, Exiting)
      ensures trail == old(trail) + AttemptScript(tid, ok, record)
    {
      hide Valid, Linked, Enabled, Next, Remembers, Grows;
      ghost var start := view.db;
      var now := clock;
      Yield(Goroutine(tid), origin);
      RemembersOn(start, view.db, e, w, retries);
      ghost var before := view.db;
      var won := Claim(tid, e, Ready(attempt, seen), now, origin);
      record := Record(now, won, clock);
      if won {
        RemembersOn(before, view.db, e, w, retries);
        ghost var last := Serve(tid, e, w, attempt, retries, now, ok, origin);
        record := Record(now, won, last);
      }
    }

    /** What `retryAction` does with what it has loaded. */
    method Proceed(ghost tid: Tid, e: ExecId, ghost w: WillId, attempt: nat, ghost seen: nat, retries: int,
                   outcome: Outcome, ok: bool, ghost origin: Entry)
      returns (ghost usable: bool, ghost record: Record)
      requires Valid() && Since(origin) && Stands(view, tid, Worker(e, Loaded(attempt, seen)))
      requires Remembers(view.db, e, w, retries)
      modifies this`view, this`trail, this`tokens, this`unlocked, this`clock, wills, acts
      ensures Valid() && Since(origin) && Stands(view, tid, Exiting)
      ensures old(unlocked) ==> usable
      ensures trail == old(trail) + Script(tid, if usable then outcome else Abort, ok, record)
    {
      hide Valid, Linked, Enabled, Next, Remembers, Grows;
      ghost var start := view.db;
      Yield(Goroutine(tid), origin);
      RemembersOn(start, view.db, e, w, retries);
      usable, record := unlocked, Record(0, false, 0);
      if !unlocked || outcome.Abort? {
        Move(tid, e, Loaded(attempt, seen), Prepare(Abort), origin);
      } else {
        Move(tid, e, Loaded(attempt, seen), Prepare(outcome), origin);
        ghost var prepared := view.db;
        if outcome.Decrypted? {
          record := Attempt(tid, e, w, attempt, seen, retries, ok, origin);
        } else {
          Yield(Goroutine(tid), origin);
          RemembersOn(prepared, view.db, e, w, retries);
          record := Record(clock, false, 0);
          FailUnclaimed(tid, e, w, attempt, retries, clock, origin);
        }
      }
    }

    /** `retryAction`: `outcome` tells whether payload and config can be decrypted, `ok` what the notifier reports.
        Whatever runs in between, it is a path of the protocol and gives its slot back. */
    method RetryAction(ghost tid: Tid, e: ExecId, outcome: Outcome, ok: bool)
      returns (ghost usable: bool, ghost record: Record)
      requires Valid() && Stands(view, tid, Worker(e, Spawned))
      modifies this, wills, acts
      ensures Valid() && Since(old(Now())) && !At(view, tid)
      ensures old(unlocked) ==> usable
      ensures trail == old(trail) + [Step.Act(tid, Load)]
                       + Script(tid, if usable then outcome else Abort, ok, record) + [Exit(tid)]
    {
      ghost var origin := Now();
      LinkedItself(origin);
      hide Valid, Grows, Linked, Enabled, Next, Remembers;
      Yield(Goroutine(tid), origin);
      var attempt, seen, w := LoadExecution(tid, e, origin);
      var retries := wills.rows[w].maxRetries;
      usable, record := Proceed(tid, e, w, attempt, seen, retries, outcome, ok, origin);
      Yield(Goroutine(tid), origin);
      Release(tid, origin);
    }

    // ----- API handlers -----

    /** The statement of one owner request: what it did in columns, and that it did nothing when it changed no row. */
    method OwnerStatement(w: WillId, op: OwnerOp, ghost origin: Entry) returns (changed: bool)
      requires Valid() && Since(origin)
      requires op.Activate? || op.CheckIn? ==> origin.time <= op.now <= clock
      modifies this`view, this`trail, wills
      ensures Valid() && Since(origin) && Took(old(Now()), Owner(w, op), Now())
      ensures changed ==> w in old(view).db.wills && w in view.db.wills
      ensures changed ==> Requested(op, old(view).db.wills[w], view.db.wills[w])
      ensures !changed ==> view.db == old(view).db
    {
      OwnerShape(view, w, op);
      changed := wills.Apply(w, op);
      hide Inv, Grows, Linked, Enabled, Next, OwnedRow;
      Follow(Owner(w, op), origin);
    }

    /** Activation, check-in, pause, resume and archiving. The clock is read when the request comes in, and anything
        may run before the statement, so two check-ins may be written in the opposite order of their readings. */
    method HandleOwner(w: WillId, req: Request) returns (changed: bool, ghost mid: Entry)
      requires Valid()
      modifies this`view, this`trail, this`tokens, this`unlocked, this`clock, wills, acts
      ensures Valid() && Since(old(Now()))
      ensures Linked(old(Now()), mid) && Took(mid, Owner(w, Timed(req, old(clock))), Now())
      ensures mid.before == old(trail)
      ensures !changed ==> view.db == mid.state.db
      ensures changed ==> w in mid.state.db.wills && w in view.db.wills
      ensures changed ==> var row, row' := mid.state.db.wills[w], view.db.wills[w];
        match req
        case Activation => row.status == Draft && row' == row.(status := Active, deadline := Some(old(clock)))
        case CheckingIn =>
          && row.status == Active
          && row' == row.(lastCheckIn := Some(old(clock)), deadline := Some(old(clock) + row.interval))
        case Pausing => row.status == Active && row' == row.(status := Paused)
        case Resuming => row.status == Paused && row' == row.(status := Active)
        case Archiving => row' == row.(status := Archived)
    {
      ghost var origin := Now();
      LinkedItself(origin);
      var op := Timed(req, clock);
      hide Linked, Valid, Enabled, Next;
      Yield(Handler, origin);
      mid := Now();
      changed := OwnerStatement(w, op, origin);
    }

    /** `metaExists` and `dekOpens`: the crypto_meta row the request names exists, and its DEK opens under the KEK. */
    method HandleCreateWill(name: string, interval: int, metaExists: bool, dekOpens: bool)
      returns (r: CreateReply, w: WillId)
      requires Valid()
      modifies this`view, this`trail, wills
      ensures Valid() && Since(old(Now()))
      ensures r.Forbidden? <==> !unlocked
      ensures r.BadRequest? <==> unlocked && (name == "" || interval <= 0)
      ensures r.Ok? <==> unlocked && name != "" && interval > 0 && metaExists && dekOpens
      ensures r.Ok? ==> Took(old(Now()), CreateWill(w, interval, 3), Now())
      ensures r.Ok? ==>
        && w !in old(view).db.wills
        && view.db == old(view).db.(wills := old(view).db.wills[w := WillRow(Draft, interval, None, None, 3)])
      ensures !r.Ok? ==> Now() == old(Now())
    {
      ghost var origin := Now();
      LinkedItself(origin);
      w := NewId(wills.rows.Keys);
      if !unlocked {
        return Forbidden, w;
      }
      if name == "" || interval <= 0 {
        return BadRequest, w;
      }
      if !metaExists || !dekOpens {
        return InternalError, w;
      }
      var created := wills.Create(w, name, interval, unlocked, metaExists);
      hide Inv, Grows, Linked;
      Follow(CreateWill(w, interval, DEFAULT_RETRIES), origin);
      return Ok, w;
    }

    /** The action is sealed under any one crypto_meta row. */
    method HandleAddAction(w: WillId, kind: string, position: int, metaExists: bool, dekOpens: bool)
      returns (r: CreateReply, a: ActionId)
      requires Valid()
      modifies this`view, this`trail, acts
      ensures Valid() && Since(old(Now()))
      ensures r.Forbidden? <==> !unlocked
      ensures var taken := exists b | b in old(view).db.actions ::
          old(view).db.actions[b].will == w && old(view).db.actions[b].position == position;
        r.Ok? <==> unlocked && metaExists && dekOpens && w != "" && position >= 0
                   && kind in ["SMTP", "WEBHOOK", "SIGNAL", "SCRIPT"]
                   && w in old(view).db.wills && !taken
      ensures !r.BadRequest?
      ensures r.Ok? ==> position >= 0 && Took(old(Now()), AddAction(a, w, position), Now())
      ensures r.Ok? ==>
        && a !in old(view).db.actions
        && view.db == old(view).db.(actions := old(view).db.actions[a := ActionRow(w, position)])
      ensures !r.Ok? ==> Now() == old(Now())
    {
      ghost var origin := Now();
      LinkedItself(origin);
      a := NewId(acts.actions.Keys);
      if !unlocked {
        return Forbidden, a;
      }
      if !metaExists || !dekOpens {
        return InternalError, a;
      }
      var ok := acts.Create(a, w, kind, position, unlocked, w in wills.rows, metaExists);
      hide Inv, Grows, Linked;
      if !ok {
        return InternalError, a;
      }
      Follow(AddAction(a, w, position), origin);
      return Ok, a;
    }

    /** `handleUnlock` with a passphrase the engine accepts. */
    method HandleUnlock()
      requires Valid()
      modifies this`view, this`trail, this`unlocked
      ensures Valid() && Since(old(Now())) && unlocked
    {
      ghost var origin := Now();
      LinkedItself(origin);
      unlocked := true;
      hide Inv, Grows, Linked;
      Follow(Unlock, origin);
    }
  }

  /** From an empty database: whatever the owner, the goroutines and the clock do in between, any number of beats is a
      run with these beats on it, and what holds of runs holds of the tables. */
  method Daemon(workers: int, now: int, beats: nat)
    returns (sch: Scheduler, ghost empty: State, ghost first: TickLog, ghost bs: seq<Beat>)
    ensures sch.Valid() && Init(empty) && Complete(first) && |bs| == beats && BeatsOk(bs)
    ensures Woven(empty, sch.view, TickTrail(first) + [Sched(SkipRetries)] + BeatTrails(bs))
    ensures sch.tokens <= sch.capacity == Max(1, workers)
    ensures forall e | e in sch.acts.execs :: StampsOk(sch.acts.execs[e], sch.clock)
    ensures forall e, f | e in sch.acts.execs && f in sch.acts.execs ::
      sch.acts.execs[e].action == sch.acts.execs[f].action ==> e == f
    ensures Max(1, workers) == 1 ==> forall e | e in sch.acts.execs :: sch.acts.execs[e].status == Queued
  {
    sch := new Scheduler(workers, now);
    empty := sch.view;
    hide Woven, TickTrail, BeatTrails;
    first, bs := sch.Start(beats);
    ghost var own := TickTrail(first) + [Sched(SkipRetries)] + BeatTrails(bs);
    assert sch.trail[0..] == own;
    WovenReaches(empty, sch.view, own);
    ghost var r := RunTo(empty, sch.view);
    WholeRun(r, |r.states| - 1);
  }

  lemma WholeRun(r: Run, i: nat)
    requires IsRun(r) && i < |r.states|
    ensures var s := r.states[i];
      && s.tokens <= s.capacity
      && (forall e | e in s.db.execs :: StampsOk(s.db.execs[e], s.clock))
      && (forall e, f | e in s.db.execs && f in s.db.execs && s.db.execs[e].action == s.db.execs[f].action :: e == f)
      && (r.states[0].capacity == 1 ==> forall e | e in s.db.execs :: s.db.execs[e].status == Queued)
  {
    var s := r.states[i];
    StampsAndPool(r, i);
    forall e, f | e in s.db.execs && f in s.db.execs && s.db.execs[e].action == s.db.execs[f].action
      ensures e == f
    {
      OneRowPerAction(r, i, e, f);
    }
    if r.states[0].capacity == 1 {
      SingleSlotStarves(r, i);
    }
  }
}
