/** Concrete runs. They show that the protocol does deliver, and that each assumption of the
    theorems is needed: drop it and the conclusion fails. */
module Traces {
  import opened Basics
  import opened Tables
  import opened Executions
  import opened WillLife
  import opened Protocol
  import opened Lease
  import opened ExecutionTheorems
  import opened Projection
  import opened WillTheorems
  import opened Drain
  import opened Pickup
  import opened Attentive

  /** Which assumptions a run is built under. */
  datatype Under = Under(leased: bool, decided: bool, d: Oracle, attentive: bool)

  ghost predicate Good(r: Run, u: Under) {
    && IsRun(r)
    && (u.leased ==> KeepsLease(r))
    && (u.decided ==> Deterministically(r, u.d))
    && (u.attentive ==> AlwaysAttends(r, "e"))
  }

  /** Steps that an attentive process may take at any time. */
  predicate Harmless(a: Step) {
    !a.Crash? && !a.Advance? && !a.Act? && !(a.Sched? && (a.sop.ScanRetries? || a.sop.DispatchRetry?))
  }

  lemma HarmlessAttends(s: State, a: Step, e: ExecId)
    requires Harmless(a)
    ensures Attends(s, a, e)
  {
  }

  /** A step from `s` that keeps the assumptions. */
  ghost predicate Fits(s: State, a: Step, u: Under) {
    && Enabled(s, a)
    && (u.leased ==> LeaseHeld(Next(s, a)))
    && (u.decided ==> Follows(s, a, u.d))
    && (u.attentive ==> Harmless(a) || Attends(s, a, "e"))
  }

  /** `r'` goes on from `r`. */
  ghost predicate GoesOn(r: Run, r': Run) {
    |r.states| > 0 && r.states <= r'.states && r.steps <= r'.steps
  }

  lemma GoesOnOn(a: Run, b: Run, c: Run)
    requires GoesOn(a, b) && GoesOn(b, c)
    ensures GoesOn(a, c)
  {
  }

  lemma Extend(r: Run, a: Step, u: Under) returns (r': Run)
    requires Good(r, u) && Fits(r.Last(), a, u)
    ensures Good(r', u) && |r'.states| > 0 && r'.Last() == Next(r.Last(), a) && r'.states[0] == r.states[0]
    ensures r' == Run(r.states + [Next(r.Last(), a)], r.steps + [a]) && GoesOn(r, r')
  {
    if Harmless(a) {
      HarmlessAttends(r.Last(), a, "e");
    }
    hide Enabled, Next, Follows, LeaseHeld, Init, Attends, Harmless;
    r' := Run(r.states + [Next(r.Last(), a)], r.steps + [a]);
  }

  /** `s'` is what the step makes of `s`, within the assumptions. */
  ghost predicate Hop(s: State, a: Step, s': State, u: Under) {
    Fits(s, a, u) && Next(s, a) == s'
  }

  lemma Follow(r: Run, a: Step, s': State, u: Under) returns (r': Run)
    requires Good(r, u) && |r.states| > 0 && Hop(r.Last(), a, s', u)
    ensures Good(r', u) && |r'.states| > 0 && r'.Last() == s' && r'.states[0] == r.states[0] && GoesOn(r, r')
    ensures r' == Run(r.states + [s'], r.steps + [a])
  {
    hide Good, Fits, Next;
    r' := Extend(r, a, u);
  }

  // ----- the states of a system with one will and at most one execution row -----

  /** One will with one action, before any execution row exists. */
  function Early(capacity: nat, will: WillRow, log: WillLog, unlocked: bool, tokens: nat, sched: SchedPc,
                 threads: map<Tid, Thread>): State {
    State(Database(map["w" := will], map["a" := ActionRow("w", 0)], map[]),
          0, unlocked, capacity, tokens, sched, threads, map["w" := log], map[])
  }

  function OneWill(status: WillStatus, retries: int): WillRow {
    WillRow(status, 1, None, if status == Draft then None else Some(0), retries)
  }

  const WON_LOG := WillLog({}, 1, 0, 0, 0, 0)
  const STARTED_LOG := WillLog({}, 1, 1, 0, 0, 0)
  const DONE_LOG := WillLog({}, 1, 1, 1, 0, 0)

  ghost predicate Starts(r: Run, capacity: nat) {
    |r.states| > 0 && r.states[0].capacity == capacity && r.states[0].clock == 0
  }

  lemma Create(capacity: nat, retries: int, u: Under) returns (r: Run)
    requires capacity >= 1
    ensures Good(r, u) && Starts(r, capacity)
    ensures r.Last() == Early(capacity, OneWill(Draft, retries), NO_LOG, false, 0, Idle, map[])
  {
    var s0 := State(Database(map[], map[], map[]), 0, false, capacity, 0, Idle, map[], map[], map[]);
    r := Run([s0], []);
    assert Good(r, u);
    hide Good;
    r := Extend(r, CreateWill("w", 1, retries), u);
    r := Extend(r, AddAction("a", "w", 0), u);
  }

  lemma Arm(capacity: nat, retries: int, u: Under) returns (r: Run)
    requires capacity >= 1
    ensures Good(r, u) && Starts(r, capacity)
    ensures r.Last() == Early(capacity, OneWill(Active, retries), NO_LOG, true, 0, Resetted, map[])
  {
    hide GoesOn, Good, Attends, AfterProcess, AfterAct, AfterCrash, ProcEnabled, ActEnabled, Work;
    r := Create(capacity, retries, u);
    r := Extend(r, Owner("w", Activate(0)), u);
    r := Extend(r, Unlock, u);
    r := Extend(r, Sched(StartTick(0)), u);
    assert r.Last().db.execs == map[] && r.Last().tally == map[];
  }

  lemma Found(capacity: nat, retries: int, u: Under) returns (r: Run)
    requires capacity >= 1
    ensures Good(r, u) && |r.states| > 0 && Starts(r, capacity)
    ensures r.Last() == Early(capacity, OneWill(Active, retries), NO_LOG, true, 0, Sweep(["w"]), map[])
  {
    hide Good, Attends, AfterProcess, AfterAct, AfterCrash, ProcEnabled, ActEnabled, Work;
    r := Arm(capacity, retries, u);
    r := Extend(r, Sched(ScanOverdue(0, ["w"])), u);
  }

  lemma RunOut(capacity: nat, retries: int, u: Under) returns (r: Run)
    requires capacity >= 1
    ensures Good(r, u) && |r.states| > 0 && Starts(r, capacity)
    ensures r.Last() == Early(capacity, OneWill(PendingTrigger, retries), WON_LOG, true, 0, Won("w", []), map[])
  {
    hide Good, Attends, AfterProcess, AfterAct, AfterCrash, ProcEnabled, ActEnabled, Work;
    assert ["w"][1..] == [];
    r := Found(capacity, retries, u);
    r := Extend(r, Sched(TryPending(0)), u);
  }

  lemma Trigger(capacity: nat, retries: int, u: Under) returns (r: Run)
    requires capacity >= 1
    ensures Good(r, u) && Starts(r, capacity)
    ensures r.Last() == Early(capacity, OneWill(PendingTrigger, retries), STARTED_LOG, true, 1, Sweep([]),
                              map[0 := Processor("w", Listing)])
  {
    hide Good, Attends, AfterProcess, AfterAct, AfterCrash, ProcEnabled, ActEnabled, Work;
    r := RunOut(capacity, retries, u);
    r := Extend(r, Sched(DispatchWill(0)), u);
  }

  /** What still varies once the only will was triggered. */
  datatype Tail = Tail(
    clock: int,
    unlocked: bool,
    tokens: nat,
    sched: SchedPc,
    threads: map<Tid, Thread>,
    row: ExecRow,
    k: Tally)

  function Base(capacity: nat, will: WillRow, log: WillLog, t: Tail): State {
    State(Database(map["w" := will], map["a" := ActionRow("w", 0)], map["e" := t.row]),
          t.clock, t.unlocked, capacity, t.tokens, t.sched, t.threads, map["w" := log], map["e" := t.k])
  }

  function Late(capacity: nat, retries: int, t: Tail): State {
    Base(capacity, OneWill(Triggered, retries), DONE_LOG, t)
  }

  lemma ListOne(capacity: nat, retries: int, u: Under) returns (r: Run)
    requires capacity >= 1
    ensures Good(r, u) && Starts(r, capacity)
    ensures r.Last() == Early(capacity, OneWill(PendingTrigger, retries), STARTED_LOG, true, 1, Sweep([]),
                              map[0 := Processor("w", Looping(["a"]))])
  {
    hide Good, Attends, AfterSched, AfterAct, AfterOwner, AfterCrash, SchedEnabled, ActEnabled, Work;
    r := Trigger(capacity, retries, u);
    r := Extend(r, Process(0, ListActions(["a"])), u);
  }

  lemma Queue(capacity: nat, retries: int, u: Under) returns (r: Run)
    requires capacity >= 1
    ensures Good(r, u) && Starts(r, capacity)
    ensures r.Last() == Base(capacity, OneWill(PendingTrigger, retries), STARTED_LOG,
      Tail(0, true, 1, Sweep([]), map[0 := Processor("w", Queuing([], "e"))], NewExec("a", "w"), NO_TALLY))
  {
    hide Good, Attends, AfterSched, AfterAct, AfterOwner, AfterCrash, SchedEnabled, ActEnabled, Work;
    assert ["a"][1..] == [];
    r := ListOne(capacity, retries, u);
    r := Extend(r, Process(0, CreateExecution("e")), u);
  }

  function Both(): map<Tid, Thread> {
    map[0 := Processor("w", Looping([])), 1 := Worker("e", Spawned)]
  }

  lemma Hand(capacity: nat, retries: int, u: Under) returns (r: Run)
    requires capacity >= 2
    ensures Good(r, u) && |r.states| > 0 && Starts(r, capacity)
    ensures r.Last() == Base(capacity, OneWill(PendingTrigger, retries), STARTED_LOG,
      Tail(0, true, 2, Sweep([]), Both(), NewExec("a", "w"), NO_TALLY))
  {
    hide Good, Attends, AfterSched, AfterAct, AfterOwner, AfterCrash, SchedEnabled, ActEnabled, Work;
    r := Queue(capacity, retries, u);
    r := Extend(r, Process(0, DispatchExec(1)), u);
    assert r.Last().threads == Both();
  }

  function Ended(): Tail {
    Tail(0, true, 2, Sweep([]), map[0 := Exiting, 1 := Worker("e", Spawned)], NewExec("a", "w"), NO_TALLY)
  }

  lemma HopMark(capacity: nat, retries: int, u: Under)
    ensures Hop(Base(capacity, OneWill(PendingTrigger, retries), STARTED_LOG,
                  Tail(0, true, 2, Sweep([]), Both(), NewExec("a", "w"), NO_TALLY)),
                Process(0, MarkTriggered), Late(capacity, retries, Ended()), u)
  {
    hide AfterSched, AfterAct, AfterOwner, AfterCrash, AfterExit, SchedEnabled, ActEnabled, Work, ActionFits, Attends;
    assert Both()[0 := Exiting] == Ended().threads;
  }

  /** From an empty database to a worker started for the only execution row. */
  lemma Setup(capacity: nat, retries: int, u: Under) returns (r: Run)
    requires capacity >= 2
    ensures Good(r, u) && |r.states| > 0 && Starts(r, capacity)
    ensures r.Last() == Late(capacity, retries, Opening())
  {
    hide Good, Hop, GoesOn;
    r := Hand(capacity, retries, u);
    HopMark(capacity, retries, u);
    r := Follow(r, Process(0, MarkTriggered), Late(capacity, retries, Ended()), u);
    r := Leave(r, capacity, retries, Ended(), 0, u);
    var t := Opening().(sched := Sweep([]));
    assert Ended().(tokens := 1, threads := Ended().threads - {0}) == t;
    hide Late, Hop;
    HopEndTick(capacity, retries, t, u);
    r := Follow(r, Sched(EndTick), Late(capacity, retries, t.(sched := TickDone)), u);
    HopSkip(capacity, retries, t.(sched := TickDone), u);
    r := Follow(r, Sched(SkipRetries), Late(capacity, retries, Opening()), u);
  }

  function Opening(): Tail {
    Tail(0, true, 1, Idle, map[1 := Worker("e", Spawned)], NewExec("a", "w"), NO_TALLY)
  }

  // ----- working on the row -----

  function ActTail(t: Tail, tid: Tid, retries: int, op: WorkOp): Tail
    requires tid in t.threads && t.threads[tid].Worker?
  {
    var x := Work(t.threads[tid].work, t.row, t.k, retries, op);
    t.(row := x.row, k := x.k,
       threads := t.threads[tid := if x.pc.Some? then Worker("e", x.pc.value) else Exiting])
  }

  ghost predicate TailLease(t: Tail) {
    forall tid | tid in t.threads && t.threads[tid].Worker? && t.threads[tid].work.Holding() ::
      t.clock <= t.threads[tid].work.started + LEASE
  }

  ghost predicate AtOnce(t: Tail, tid: Tid, op: WorkOp)
    requires tid in t.threads && t.threads[tid].Worker?
  {
    && (op.Prepare? ==> op.outcome.Decrypted?)
    && (op.Claim? ==> op.now == t.clock && t.threads[tid].work.Ready? && t.threads[tid].work.seen == t.k.writes)
  }

  lemma AtOnceAttends(capacity: nat, retries: int, t: Tail, tid: Tid, op: WorkOp)
    requires tid in t.threads && t.threads[tid].Worker? && AtOnce(t, tid, op)
    ensures Attends(Late(capacity, retries, t), Step.Act(tid, op), "e")
  {
  }

  lemma ActOn(r: Run, capacity: nat, retries: int, t: Tail, tid: Tid, op: WorkOp, u: Under) returns (r': Run)
    requires Good(r, u) && |r.states| > 0 && r.Last() == Late(capacity, retries, t) && t.row.will == "w"
    requires tid in t.threads && t.threads[tid].Worker? && t.threads[tid].e == "e"
    requires WorkEnabled(t.threads[tid].work, op, t.clock) && t.unlocked
    requires u.leased ==> TailLease(ActTail(t, tid, retries, op))
    requires u.decided && op.Prepare? && !op.outcome.Abort? ==> (op.outcome.Decrypted? <==> u.d("e"))
    requires u.attentive ==> AtOnce(t, tid, op)
    ensures Good(r', u) && |r'.states| > 0 && r'.states[0] == r.states[0] && GoesOn(r, r')
    ensures r'.Last() == Late(capacity, retries, ActTail(t, tid, retries, op))
    ensures r'.steps == r.steps + [Step.Act(tid, op)]
  {
    if u.attentive {
      AtOnceAttends(capacity, retries, t, tid, op);
    }
    hide Good, Work, Attends;
    assert Next(r.Last(), Step.Act(tid, op)) == Late(capacity, retries, ActTail(t, tid, retries, op));
    r' := Extend(r, Step.Act(tid, op), u);
  }

  function RescanTail(t: Tail, now: int, tid: Tid): Tail {
    t.(row := ResetRow(t.row, now), k := ResetTally(t.row, t.k, now),
       tokens := t.tokens + 1, threads := t.threads[tid := Worker("e", Spawned)])
  }

  lemma HopReset(capacity: nat, retries: int, t: Tail, now: int, u: Under)
    requires t.sched == Idle && now <= t.clock && (u.leased ==> TailLease(t))
    ensures Hop(Late(capacity, retries, t), Sched(StartTick(now)),
      Late(capacity, retries, t.(sched := Resetted, row := ResetRow(t.row, now), k := ResetTally(t.row, t.k, now))), u)
  {
    hide ResetRow, ResetTally;
    var s' := AfterReset(Late(capacity, retries, t), now);
    assert s'.db.execs == map["e" := ResetRow(t.row, now)] && s'.tally == map["e" := ResetTally(t.row, t.k, now)];
  }

  lemma HopSweep(capacity: nat, retries: int, t: Tail, now: int, u: Under)
    requires t.sched == Resetted && now <= t.clock && (u.leased ==> TailLease(t))
    ensures Hop(Late(capacity, retries, t), Sched(ScanOverdue(now, [])),
                Late(capacity, retries, t.(sched := Sweep([]))), u)
  {
  }

  lemma HopEndTick(capacity: nat, retries: int, t: Tail, u: Under)
    requires t.sched == Sweep([]) && (u.leased ==> TailLease(t))
    ensures Hop(Late(capacity, retries, t), Sched(EndTick), Late(capacity, retries, t.(sched := TickDone)), u)
  {
  }

  lemma HopSkip(capacity: nat, retries: int, t: Tail, u: Under)
    requires t.sched == TickDone && (u.leased ==> TailLease(t))
    ensures Hop(Late(capacity, retries, t), Sched(SkipRetries), Late(capacity, retries, t.(sched := Idle)), u)
  {
  }

  lemma HopScan(capacity: nat, retries: int, t: Tail, now: int, u: Under)
    requires t.sched == TickDone && now <= t.clock && Due(t.row, now) && (u.leased ==> TailLease(t))
    ensures Hop(Late(capacity, retries, t), Sched(ScanRetries(now, ["e"])),
                Late(capacity, retries, t.(sched := Retrying(["e"]))), u)
  {
    var db := Late(capacity, retries, t).db;
    assert DueRows(db, now) == {"e"};
  }

  lemma HopDispatch(capacity: nat, retries: int, t: Tail, tid: Tid, u: Under)
    requires t.sched == Retrying(["e"]) && t.tokens < capacity && tid !in t.threads && (u.leased ==> TailLease(t))
    ensures Hop(Late(capacity, retries, t), Sched(DispatchRetry(tid)),
      Late(capacity, retries, t.(sched := Retrying([]), tokens := t.tokens + 1,
                                 threads := t.threads[tid := Worker("e", Spawned)])), u)
  {
    assert ["e"][1..] == [];
  }

  lemma HopEndRetries(capacity: nat, retries: int, t: Tail, u: Under)
    requires t.sched == Retrying([]) && (u.leased ==> TailLease(t))
    ensures Hop(Late(capacity, retries, t), Sched(EndRetries), Late(capacity, retries, t.(sched := Idle)), u)
  {
  }

  /** A tick that finds no overdue will. */
  lemma QuietTick(r: Run, capacity: nat, retries: int, t: Tail, now: int, u: Under) returns (r': Run)
    requires Good(r, u) && |r.states| > 0 && r.Last() == Late(capacity, retries, t)
    requires t.sched == Idle && now <= t.clock && (u.leased ==> TailLease(t))
    ensures Good(r', u) && |r'.states| > 0 && r'.states[0] == r.states[0] && GoesOn(r, r')
    ensures r'.Last() ==
      Late(capacity, retries, t.(sched := TickDone, row := ResetRow(t.row, now), k := ResetTally(t.row, t.k, now)))
    ensures r'.steps == r.steps + [Sched(StartTick(now)), Sched(ScanOverdue(now, [])), Sched(EndTick)]
    ensures |r'.states| == |r.states| + 3
    ensures forall m | |r.states| <= m < |r'.states| :: r'.states[m].db == r'.Last().db
  {
    hide Good, Late, Hop, ResetRow, ResetTally;
    var t' := t.(sched := Resetted, row := ResetRow(t.row, now), k := ResetTally(t.row, t.k, now));
    HopReset(capacity, retries, t, now, u);
    r' := Follow(r, Sched(StartTick(now)), Late(capacity, retries, t'), u);
    HopSweep(capacity, retries, t', now, u);
    t' := t'.(sched := Sweep([]));
    r' := Follow(r', Sched(ScanOverdue(now, [])), Late(capacity, retries, t'), u);
    HopEndTick(capacity, retries, t', u);
    r' := Follow(r', Sched(EndTick), Late(capacity, retries, t'.(sched := TickDone)), u);
    SameRows(capacity, retries, t', Resetted);
    SameRows(capacity, retries, t', TickDone);
  }

  lemma SameRows(capacity: nat, retries: int, t: Tail, sched: SchedPc)
    ensures Late(capacity, retries, t.(sched := sched)).db == Late(capacity, retries, t).db
  {
  }

  ghost predicate ScansRow(r: Run, k: nat, now: int) {
    k < |r.steps| && k < |r.states| && r.steps[k] == Sched(ScanRetries(now, ["e"])) && r.states[k].clock == now
  }

  lemma ScanStays(r: Run, r': Run, k: nat, now: int)
    requires GoesOn(r, r') && ScansRow(r, k, now)
    ensures ScansRow(r', k, now)
  {
  }

  lemma ScanSteps(r: Run, capacity: nat, retries: int, t: Tail, now: int, s': State, r': Run)
    requires |r.states| == |r.steps| + 1 && r.Last() == Late(capacity, retries, t) && t.clock == now
    requires r' == Run(r.states + [s'], r.steps + [Sched(ScanRetries(now, ["e"]))])
    ensures ScansRow(r', |r.steps|, now)
  {
  }

  lemma SameLength(r: Run, u: Under)
    requires Good(r, u)
    ensures |r.states| == |r.steps| + 1
  {
  }

  /** A retry scan that starts a worker for the row. */
  lemma Offer(r: Run, capacity: nat, retries: int, t: Tail, now: int, tid: Tid, u: Under) returns (r': Run)
    requires Good(r, u) && |r.states| > 0 && r.Last() == Late(capacity, retries, t)
    requires t.sched == TickDone && now <= t.clock && (u.leased ==> TailLease(t))
    requires Due(t.row, now) && t.tokens < capacity && tid !in t.threads
    ensures Good(r', u) && |r'.states| > 0 && r'.states[0] == r.states[0] && GoesOn(r, r')
    ensures r'.Last() == Late(capacity, retries, t.(sched := Idle, tokens := t.tokens + 1,
                                                    threads := t.threads[tid := Worker("e", Spawned)]))
    ensures now == t.clock ==> exists k :: ScansRow(r', k, now)
  {
    hide Good, Late, Hop, Due, ScansRow;
    HopScan(capacity, retries, t, now, u);
    SameLength(r, u);
    var t' := t.(sched := Retrying(["e"]));
    var r1 := Follow(r, Sched(ScanRetries(now, ["e"])), Late(capacity, retries, t'), u);
    HopDispatch(capacity, retries, t', tid, u);
    t' := t'.(sched := Retrying([]), tokens := t'.tokens + 1, threads := t'.threads[tid := Worker("e", Spawned)]);
    r' := Follow(r1, Sched(DispatchRetry(tid)), Late(capacity, retries, t'), u);
    HopEndRetries(capacity, retries, t', u);
    r' := Follow(r', Sched(EndRetries), Late(capacity, retries, t'.(sched := Idle)), u);
    if now == t.clock {
      ScanSteps(r, capacity, retries, t, now, r1.Last(), r1);
      ScanStays(r1, r', |r.steps|, now);
    }
  }

  /** A tick that finds no overdue will, and a retry scan that starts a worker for the row. */
  lemma Rescan(r: Run, capacity: nat, retries: int, t: Tail, now: int, tid: Tid, u: Under) returns (r': Run)
    requires Good(r, u) && |r.states| > 0 && r.Last() == Late(capacity, retries, t)
    requires t.sched == Idle && now <= t.clock && (u.leased ==> TailLease(t))
    requires Due(ResetRow(t.row, now), now) && t.tokens < capacity && tid !in t.threads
    ensures Good(r', u) && |r'.states| > 0 && r'.states[0] == r.states[0] && GoesOn(r, r')
    ensures r'.Last() == Late(capacity, retries, RescanTail(t, now, tid))
    ensures now == t.clock ==> exists k :: ScansRow(r', k, now)
  {
    hide Good, Late, ResetRow, ResetTally, Due, ScansRow;
    var t' := t.(sched := TickDone, row := ResetRow(t.row, now), k := ResetTally(t.row, t.k, now));
    r' := QuietTick(r, capacity, retries, t, now, u);
    r' := Offer(r', capacity, retries, t', now, tid, u);
  }

  lemma Wait(r: Run, capacity: nat, retries: int, t: Tail, to: int, u: Under) returns (r': Run)
    requires Good(r, u) && |r.states| > 0 && r.Last() == Late(capacity, retries, t)
    requires to >= t.clock && (u.leased ==> TailLease(t.(clock := to)))
    requires u.attentive ==> AtRest(Late(capacity, retries, t), "e")
    ensures Good(r', u) && |r'.states| > 0 && r'.states[0] == r.states[0] && GoesOn(r, r')
    ensures r'.Last() == Late(capacity, retries, t.(clock := to))
    ensures r'.steps == r.steps + [Advance(to)] && |r'.states| == |r.states| + 1
  {
    hide Good;
    r' := Extend(r, Advance(to), u);
  }

  lemma Leave(r: Run, capacity: nat, retries: int, t: Tail, tid: Tid, u: Under) returns (r': Run)
    requires Good(r, u) && |r.states| > 0 && r.Last() == Late(capacity, retries, t)
    requires tid in t.threads && t.threads[tid].Exiting? && t.tokens > 0 && (u.leased ==> TailLease(t))
    ensures Good(r', u) && |r'.states| > 0 && r'.states[0] == r.states[0] && GoesOn(r, r')
    ensures r'.Last() == Late(capacity, retries, t.(tokens := t.tokens - 1, threads := t.threads - {tid}))
  {
    hide Good;
    r' := Extend(r, Exit(tid), u);
  }

  // ----- what the runs show -----

  const ALL := Under(true, true, e => true, false)

  function Holder(attempt: nat, started: int): Thread {
    Worker("e", Claimed(attempt, started))
  }

  /** A worker that has been started loads, decrypts and claims the row. */
  lemma Grab(r: Run, capacity: nat, retries: int, t: Tail, tid: Tid, u: Under) returns (r': Run)
    requires Good(r, u) && |r.states| > 0 && r.Last() == Late(capacity, retries, t) && t.row.will == "w"
    requires tid in t.threads && t.threads[tid] == Worker("e", Spawned) && t.unlocked && Claimable(t.row)
    requires u.decided ==> u.d("e")
    requires u.leased ==> TailLease(t)
    ensures Good(r', u) && |r'.states| > 0 && r'.states[0] == r.states[0] && GoesOn(r, r')
    ensures r'.Last() == Late(capacity, retries, GrabTail(t, tid))
  {
    hide Good, Late;
    var t1 := t.(threads := t.threads[tid := Worker("e", Loaded(t.row.attempt, t.k.writes))]);
    assert ActTail(t, tid, retries, Load) == t1;
    r' := ActOn(r, capacity, retries, t, tid, Load, u);
    var t2 := t.(threads := t.threads[tid := Worker("e", Ready(t.row.attempt, t.k.writes))]);
    assert ActTail(t1, tid, retries, Prepare(Decrypted)) == t2;
    r' := ActOn(r', capacity, retries, t1, tid, Prepare(Decrypted), u);
    assert ActTail(t2, tid, retries, Claim(t.clock)) == GrabTail(t, tid);
    r' := ActOn(r', capacity, retries, t2, tid, Claim(t.clock), u);
  }

  function GrabTail(t: Tail, tid: Tid): Tail {
    t.(row := ClaimedRow(t.row, t.clock),
       k := t.k.(claims := t.k.claims + 1, firstClaim := if t.k.claims == 0 then t.clock else t.k.firstClaim),
       threads := t.threads[tid := Holder(t.row.attempt, t.clock)])
  }

  /** With two slots or more a trigger is delivered. */
  lemma TwoSlotsDeliver(capacity: nat, retries: int) returns (r: Run)
    requires capacity >= 2
    ensures IsRun(r) && KeepsLease(r) && Deterministically(r, ALL.d) && r.states[0].capacity == capacity
    ensures var s := r.Last(); HasRows(s, "e") && s.db.execs["e"].status == Completed && s.tally["e"].successes == 1
  {
    var t := Opening();
    r := Setup(capacity, retries, ALL);
    r := Grab(r, capacity, retries, t, 1, ALL);
    t := GrabTail(t, 1);
    r := ActOn(r, capacity, retries, t, 1, Deliver(true), ALL);
    t := ActTail(t, 1, retries, Deliver(true));
    r := ActOn(r, capacity, retries, t, 1, WriteBack(0), ALL);
  }

  /** TRIGGERED does not mean delivered: it is written while the only execution row is still QUEUED. */
  lemma TriggeredUndelivered(capacity: nat, retries: int) returns (r: Run)
    requires capacity >= 2
    ensures IsRun(r) && HasWill(r.Last(), "w") && HasRows(r.Last(), "e")
    ensures r.Last().db.wills["w"].status == Triggered && r.Last().db.execs["e"].status == Queued
  {
    r := Setup(capacity, retries, ALL);
  }

  ghost predicate Contended(s: State) {
    exists t, u :: t in s.threads && u in s.threads && t != u
      && s.threads[t].Worker? && s.threads[u].Worker? && s.threads[t].e == s.threads[u].e
      && s.threads[t].work.Holding() && s.threads[u].work.Holding()
  }

  /** Without the lease, two goroutines hold the same row. */
  lemma LeaseIsNeeded(capacity: nat) returns (r: Run)
    requires capacity >= 2
    ensures IsRun(r) && Deterministically(r, ALL.d) && Contended(r.Last())
  {
    var u := Under(false, true, ALL.d, false);
    var t := Opening();
    r := Setup(capacity, 3, u);
    r := Grab(r, capacity, 3, t, 1, u);
    t := GrabTail(t, 1);
    r := Wait(r, capacity, 3, t, 601, u);
    t := t.(clock := 601);
    r := Rescan(r, capacity, 3, t, 601, 2, u);
    t := RescanTail(t, 601, 2);
    r := Grab(r, capacity, 3, t, 2, u);
    t := GrabTail(t, 2);
    assert t.threads[1].work.Holding() && t.threads[2].work.Holding();
    assert r.Last().threads == t.threads;
  }

  /** A worker that has been started loads the row and finds it undecryptable. */
  lemma Reject(r: Run, capacity: nat, retries: int, t: Tail, tid: Tid, u: Under) returns (r': Run)
    requires Good(r, u) && |r.states| > 0 && r.Last() == Late(capacity, retries, t) && t.row.will == "w"
    requires tid in t.threads && t.threads[tid] == Worker("e", Spawned) && t.unlocked
    requires !u.decided && !u.attentive && (u.leased ==> TailLease(t))
    ensures Good(r', u) && |r'.states| > 0 && r'.states[0] == r.states[0] && GoesOn(r, r')
    ensures r'.Last() ==
      Late(capacity, retries, t.(threads := t.threads[tid := Worker("e", Failing(t.row.attempt))]))
  {
    hide Good, Late;
    var t1 := t.(threads := t.threads[tid := Worker("e", Loaded(t.row.attempt, t.k.writes))]);
    assert ActTail(t, tid, retries, Load) == t1;
    r' := ActOn(r, capacity, retries, t, tid, Load, u);
    assert ActTail(t1, tid, retries, Prepare(CannotDecrypt))
        == t.(threads := t.threads[tid := Worker("e", Failing(t.row.attempt))]);
    r' := ActOn(r', capacity, retries, t1, tid, Prepare(CannotDecrypt), u);
  }

  /** A first attempt that cannot be decrypted leaves a FAILED row and two workers started for it. */
  lemma RejectOnce(capacity: nat, u: Under) returns (r: Run, t: Tail)
    requires capacity >= 2 && !u.decided && !u.attentive
    ensures Good(r, u) && |r.states| > 0 && r.Last() == Late(capacity, 3, t)
    ensures t == Tail(300, true, 2, Idle, map[2 := Worker("e", Spawned), 3 := Worker("e", Spawned)],
                      NewExec("a", "w").(status := Failed, nextRetryAt := Some(300)), NO_TALLY.(writes := 1))
  {
    hide Good, GoesOn;
    t := Opening();
    r := Setup(capacity, 3, u);
    r := Reject(r, capacity, 3, t, 1, u);
    t := t.(threads := t.threads[1 := Worker("e", Failing(1))]);
    r := ActOn(r, capacity, 3, t, 1, FailUnclaimed(0), u);
    t := ActTail(t, 1, 3, FailUnclaimed(0));
    r := Leave(r, capacity, 3, t, 1, u);
    t := t.(tokens := 0, threads := t.threads - {1});
    assert t.threads == map[];
    r := Wait(r, capacity, 3, t, 300, u);
    t := t.(clock := 300);
    r := Rescan(r, capacity, 3, t, 300, 2, u);
    t := RescanTail(t, 300, 2);
    r := Rescan(r, capacity, 3, t, 300, 3, u);
    t := RescanTail(t, 300, 3);
    assert t.threads == map[2 := Worker("e", Spawned), 3 := Worker("e", Spawned)];
  }

  /** Without a fixed verdict on decryption, two goroutines hold the same row although the lease is kept:
      the failure write of one overwrites the claim of another. */
  lemma VerdictIsNeeded(capacity: nat) returns (r: Run)
    requires capacity >= 2
    ensures IsRun(r) && KeepsLease(r) && Contended(r.Last())
  {
    var u := Under(true, false, ALL.d, false);
    var t;
    r, t := RejectOnce(capacity, u);
    r := Reject(r, capacity, 3, t, 2, u);
    t := t.(threads := t.threads[2 := Worker("e", Failing(1))]);
    r := Grab(r, capacity, 3, t, 3, u);
    t := GrabTail(t, 3);
    r := ActOn(r, capacity, 3, t, 2, FailUnclaimed(300), u);
    t := ActTail(t, 2, 3, FailUnclaimed(300));
    r := Leave(r, capacity, 3, t, 2, u);
    t := t.(tokens := 1, threads := t.threads - {2});
    r := Wait(r, capacity, 3, t, 600, u);
    t := t.(clock := 600);
    r := Rescan(r, capacity, 3, t, 600, 4, u);
    t := RescanTail(t, 600, 4);
    r := Grab(r, capacity, 3, t, 4, u);
    t := GrabTail(t, 4);
    assert t.threads[3].work.Holding() && t.threads[4].work.Holding();
    assert r.Last().threads == t.threads;
  }

  lemma BotchTails(t: Tail, tid: Tid, retries: int)
    requires tid in t.threads && t.threads[tid] == Worker("e", Spawned) && Claimable(t.row)
    requires t.tokens > 0 && t.row.attempt + 1 < retries
    ensures var g := GrabTail(t, tid);
      && ActTail(g, tid, retries, Deliver(false)) == ToldTail(t, tid)
      && ActTail(ToldTail(t, tid), tid, retries, WriteBack(t.clock)) == WrittenTail(t, tid)
    ensures var left := t.threads[tid := Exiting] - {tid};
      WrittenTail(t, tid).(tokens := t.tokens - 1, threads := left) == BotchTail(t, tid)
  {
  }

  function ToldTail(t: Tail, tid: Tid): Tail {
    var g := GrabTail(t, tid);
    g.(k := g.k.(calls := g.k.calls + 1),
       threads := g.threads[tid := Worker("e", Delivered(t.row.attempt, t.clock, false))])
  }

  function WrittenTail(t: Tail, tid: Tid): Tail {
    BotchTail(t, tid).(tokens := t.tokens, threads := t.threads[tid := Exiting])
  }

  /** A started worker claims the row, fails to deliver it, records the failure and leaves. */
  lemma Botch(r: Run, capacity: nat, retries: int, t: Tail, tid: Tid, u: Under) returns (r': Run)
    requires Good(r, u) && |r.states| > 0 && r.Last() == Late(capacity, retries, t) && t.row.will == "w"
    requires tid in t.threads && t.threads[tid] == Worker("e", Spawned) && t.unlocked && Claimable(t.row)
    requires u.decided ==> u.d("e")
    requires (u.leased ==> TailLease(t)) && t.tokens > 0 && t.row.attempt + 1 < retries
    ensures Good(r', u) && |r'.states| > 0 && r'.states[0] == r.states[0] && GoesOn(r, r')
    ensures r'.Last() == Late(capacity, retries, BotchTail(t, tid))
  {
    BotchTails(t, tid, retries);
    hide Good, Late, ActTail, GoesOn;
    var r1 := Grab(r, capacity, retries, t, tid, u);
    var r2 := ActOn(r1, capacity, retries, GrabTail(t, tid), tid, Deliver(false), u);
    GoesOnOn(r, r1, r2);
    var r3 := ActOn(r2, capacity, retries, ToldTail(t, tid), tid, WriteBack(t.clock), u);
    GoesOnOn(r, r2, r3);
    r' := Leave(r3, capacity, retries, WrittenTail(t, tid), tid, u);
    GoesOnOn(r, r3, r');
  }

  const RETRIES := 6

  function BotchTail(t: Tail, tid: Tid): Tail {
    var k, next := t.k, t.row.attempt + 1;
    t.(row := ClaimedRow(t.row, t.clock).(
         status := Failed, attempt := next, nextRetryAt := Some(t.clock + RetryDelay(next))),
       k := k.(claims := k.claims + 1, calls := k.calls + 1, writes := k.writes + 1,
               backoff := k.backoff + RetryDelay(next), firstClaim := if k.claims == 0 then t.clock else k.firstClaim),
       tokens := if t.tokens > 0 then t.tokens - 1 else 0, threads := t.threads - {tid})
  }

  /** One failed delivery, then two workers started for the retry. */
  lemma Meet(capacity: nat) returns (r: Run, t: Tail)
    requires capacity >= 2
    ensures Good(r, ALL) && |r.states| > 0 && r.Last() == Late(capacity, RETRIES, t)
    ensures t == Tail(1800, true, 2, Idle, map[2 := Worker("e", Spawned), 3 := Worker("e", Spawned)],
      ExecRow("a", "w", 2, Failed, Some(0), None, Some(1800)), Tally(1, 1, 0, 0, 0, 1, 0, 1800, 0))
  {
    hide Good, Late, GoesOn;
    t := Opening();
    r := Setup(capacity, RETRIES, ALL);
    r := Botch(r, capacity, RETRIES, t, 1, ALL);
    t := BotchTail(t, 1);
    assert t.threads == map[];
    r := Wait(r, capacity, RETRIES, t, 1800, ALL);
    t := t.(clock := 1800);
    r := Rescan(r, capacity, RETRIES, t, 1800, 2, ALL);
    t := RescanTail(t, 1800, 2);
    r := Rescan(r, capacity, RETRIES, t, 1800, 3, ALL);
    t := RescanTail(t, 1800, 3);
    assert t.threads == map[2 := Worker("e", Spawned), 3 := Worker("e", Spawned)];
  }

  /** One worker loads the row; two more deliveries fail before it moves on. */
  lemma Linger(capacity: nat) returns (r: Run, t: Tail)
    requires capacity >= 2
    ensures Good(r, ALL) && |r.states| > 0 && r.Last() == Late(capacity, RETRIES, t)
    ensures t == Tail(88200, true, 1, Idle, map[2 := Worker("e", Loaded(2, 1))],
      ExecRow("a", "w", 4, Failed, Some(88200), None, Some(174600)), Tally(3, 3, 0, 0, 0, 3, 0, 174600, 0))
  {
    hide Good, Late, GoesOn;
    r, t := Meet(capacity);
    r := ActOn(r, capacity, RETRIES, t, 2, Load, ALL);
    t := ActTail(t, 2, RETRIES, Load);
    assert t.threads == map[2 := Worker("e", Loaded(2, 1)), 3 := Worker("e", Spawned)];
    r := Botch(r, capacity, RETRIES, t, 3, ALL);
    t := BotchTail(t, 3);
    assert t.threads == map[2 := Worker("e", Loaded(2, 1))];
    r := Wait(r, capacity, RETRIES, t, 88200, ALL);
    t := t.(clock := 88200);
    r := Rescan(r, capacity, RETRIES, t, 88200, 4, ALL);
    t := RescanTail(t, 88200, 4);
    r := Botch(r, capacity, RETRIES, t, 4, ALL);
    t := BotchTail(t, 4);
    assert t.threads == map[2 := Worker("e", Loaded(2, 1))];
  }

  /** The slow worker claims the row with the count it loaded, and fails too. */
  lemma Awaken(capacity: nat) returns (r: Run, t: Tail)
    requires capacity >= 2
    ensures Good(r, ALL) && |r.states| > 0 && r.Last() == Late(capacity, RETRIES, t)
    ensures t == Tail(88200, true, 1, Idle, map[2 := Worker("e", Delivered(2, 88200, false))],
      ExecRow("a", "w", 4, InProgress, Some(88200), None, Some(174600)), Tally(4, 4, 0, 0, 0, 3, 0, 174600, 0))
  {
    hide Good, Late, GoesOn;
    r, t := Linger(capacity);
    r := ActOn(r, capacity, RETRIES, t, 2, Prepare(Decrypted), ALL);
    t := ActTail(t, 2, RETRIES, Prepare(Decrypted));
    r := ActOn(r, capacity, RETRIES, t, 2, Claim(88200), ALL);
    t := ActTail(t, 2, RETRIES, Claim(88200));
    r := ActOn(r, capacity, RETRIES, t, 2, Deliver(false), ALL);
    t := ActTail(t, 2, RETRIES, Deliver(false));
    assert t.threads == map[2 := Worker("e", Delivered(2, 88200, false))];
  }

  /** Without promptness the attempt count goes down, and the four claims made are not what it says,
      although the lease and the verdict are kept. */
  lemma PromptnessIsNeeded(capacity: nat) returns (r: Run)
    requires capacity >= 2
    ensures IsRun(r) && KeepsLease(r) && Deterministically(r, ALL.d)
    ensures |r.states| >= 2 && HasRows(r.states[|r.states| - 2], "e") && HasRows(r.Last(), "e")
    ensures r.states[|r.states| - 2].db.execs["e"].attempt == 4 && r.Last().db.execs["e"].attempt == 3
    ensures r.Last().tally["e"].claims == 4 && r.Last().tally["e"].resets == 0 && !Settled(r.Last().db.execs["e"])
  {
    var t;
    r, t := Awaken(capacity);
    r := Extend(r, Step.Act(2, WriteBack(88200)), ALL);
  }

  /** From a worker's load to its claim and its failure write; worker 3 makes the only claim. */
  const NO_OTHER_CLAIM := [
    Step.Act(3, Load),
    Step.Act(2, Deliver(false)), Step.Act(2, WriteBack(1800)),
    Step.Act(3, Prepare(Decrypted)), Step.Act(3, Claim(1800)), Step.Act(3, Deliver(false)), Step.Act(3, WriteBack(1800))
  ]

  function FlunkTail(t: Tail, tid: Tid, retries: int): Tail
    requires tid in t.threads && t.threads[tid].Worker? && t.threads[tid].work.Claimed?
  {
    ActTail(ActTail(t, tid, retries, Deliver(false)), tid, retries, WriteBack(t.clock))
  }

  /** A worker that holds the row fails to deliver it and records that. */
  lemma Flunk(r: Run, capacity: nat, retries: int, t: Tail, tid: Tid, u: Under) returns (r': Run)
    requires Good(r, u) && |r.states| > 0 && r.Last() == Late(capacity, retries, t) && t.row.will == "w"
    requires tid in t.threads && t.threads[tid].Worker? && t.threads[tid].e == "e" && t.threads[tid].work.Claimed?
    requires t.unlocked && !u.attentive && (u.leased ==> TailLease(t))
    ensures Good(r', u) && |r'.states| > 0
    ensures r'.Last() == Late(capacity, retries, FlunkTail(t, tid, retries))
    ensures r'.steps == r.steps + [Step.Act(tid, Deliver(false)), Step.Act(tid, WriteBack(t.clock))]
  {
    hide Good, Late, GoesOn;
    var r1 := ActOn(r, capacity, retries, t, tid, Deliver(false), u);
    r' := ActOn(r1, capacity, retries, ActTail(t, tid, retries, Deliver(false)), tid, WriteBack(t.clock), u);
  }

  /** Worker 2 has claimed the row; after that worker 3 loads it, and the delivery of worker 2 fails. */
  lemma Cross(capacity: nat) returns (r: Run, t: Tail)
    requires capacity >= 2
    ensures Good(r, ALL) && |r.states| > 0 && r.Last() == Late(capacity, RETRIES, t)
    ensures |r.steps| >= 3 && r.steps[|r.steps| - 3..] == NO_OTHER_CLAIM[..3]
    ensures t == Crossed()
  {
    r, t := Meet(capacity);
    CrossTails(t);
    hide Good, Late, GoesOn, GrabTail, ActTail, FlunkTail;
    r := Grab(r, capacity, RETRIES, t, 2, ALL);
    r := ActOn(r, capacity, RETRIES, Crossing(Worker("e", Spawned)), 3, Load, ALL);
    t := Crossing(Worker("e", Loaded(2, 1)));
    r := Flunk(r, capacity, RETRIES, t, 2, ALL);
    t := Crossed();
  }

  function Crossing(other: Thread): Tail {
    Tail(1800, true, 2, Idle, map[2 := Holder(2, 1800), 3 := other],
         ExecRow("a", "w", 2, InProgress, Some(1800), None, Some(1800)), Tally(2, 1, 0, 0, 0, 1, 0, 1800, 0))
  }

  function Crossed(): Tail {
    Tail(1800, true, 2, Idle, map[2 := Exiting, 3 := Worker("e", Loaded(2, 1))],
         ExecRow("a", "w", 3, Failed, Some(1800), None, Some(88200)), Tally(2, 2, 0, 0, 0, 2, 0, 88200, 0))
  }

  lemma CrossTails(t: Tail)
    requires t == Tail(1800, true, 2, Idle, map[2 := Worker("e", Spawned), 3 := Worker("e", Spawned)],
      ExecRow("a", "w", 2, Failed, Some(0), None, Some(1800)), Tally(1, 1, 0, 0, 0, 1, 0, 1800, 0))
    ensures GrabTail(t, 2) == Crossing(Worker("e", Spawned))
    ensures ActTail(Crossing(Worker("e", Spawned)), 3, RETRIES, Load) == Crossing(Worker("e", Loaded(2, 1)))
    ensures FlunkTail(Crossing(Worker("e", Loaded(2, 1))), 2, RETRIES) == Crossed()
  {
    assert GrabTail(t, 2).threads == Crossing(Worker("e", Spawned)).threads;
    assert FlunkTail(Crossing(Worker("e", Loaded(2, 1))), 2, RETRIES).threads == Crossed().threads;
  }

  /** Then worker 3 claims it in turn, with the count it loaded. */
  lemma ClaimAfterwards(capacity: nat) returns (r: Run, t: Tail)
    requires capacity >= 2
    ensures Good(r, ALL) && |r.states| > 0 && r.Last() == Late(capacity, RETRIES, t)
    ensures |r.steps| >= 5 && r.steps[|r.steps| - 5..] == NO_OTHER_CLAIM[..5]
    ensures t == Tail(1800, true, 2, Idle, map[2 := Exiting, 3 := Holder(2, 1800)],
      ExecRow("a", "w", 3, InProgress, Some(1800), None, Some(88200)), Tally(3, 2, 0, 0, 0, 2, 0, 88200, 0))
  {
    hide Good, Late, GoesOn;
    r, t := Cross(capacity);
    r := ActOn(r, capacity, RETRIES, t, 3, Prepare(Decrypted), ALL);
    t := ActTail(t, 3, RETRIES, Prepare(Decrypted));
    r := ActOn(r, capacity, RETRIES, t, 3, Claim(1800), ALL);
    t := ActTail(t, 3, RETRIES, Claim(1800));
    assert t.threads == map[2 := Exiting, 3 := Holder(2, 1800)];
  }

  /** Promptness is about failure writes, not claims: no other claim falls between the load and the claim of worker 3,
      but the failure write of a claim won before the load does, and its count is written a second time. Three claims
      and three calls then stand against an attempt count of 3, which allows two. */
  lemma NoOtherClaimIsNotEnough(capacity: nat) returns (r: Run)
    requires capacity >= 2
    ensures IsRun(r) && KeepsLease(r) && Deterministically(r, ALL.d) && HasRows(r.Last(), "e")
    ensures |r.steps| >= 7 && r.steps[|r.steps| - 7..] == NO_OTHER_CLAIM
    ensures var row, k := r.Last().db.execs["e"], r.Last().tally["e"];
      row.attempt == 3 && k.claims == 3 && k.calls == 3 && k.resets == 0 && !Settled(row)
  {
    var t;
    r, t := ClaimAfterwards(capacity);
    hide Good, Late, GoesOn;
    r := Flunk(r, capacity, RETRIES, t, 3, ALL);
    t := FlunkTail(t, 3, RETRIES);
    LateRows(r, capacity, t);
  }

  /** The last step claims the row before its retry time. */
  ghost predicate ClaimsEarly(r: Run, retryAt: int) {
    && |r.steps| > 0 && |r.states| == |r.steps| + 1
    && var s := r.states[|r.steps| - 1];
    WaitsAt(s, "e", retryAt) && s.clock < retryAt && Claims(s, r.steps[|r.steps| - 1], "e")
  }

  lemma ClaimIsEarly(r: Run, capacity: nat, t: Tail, tid: Tid) returns (r': Run)
    requires Good(r, ALL) && |r.states| > 0 && r.Last() == Late(capacity, RETRIES, t) && t.row.will == "w"
    requires tid in t.threads && t.threads[tid].Worker? && t.threads[tid].e == "e" && t.threads[tid].work.Ready?
    requires t.unlocked && TailLease(t) && t.row.status == Failed && t.row.nextRetryAt.Some?
    requires t.clock < t.row.nextRetryAt.value
    ensures IsRun(r') && KeepsLease(r') && Deterministically(r', ALL.d)
    ensures ClaimsEarly(r', t.row.nextRetryAt.value)
  {
    SameLength(r, ALL);
    r' := Extend(r, Step.Act(tid, Claim(t.clock)), ALL);
  }

  /** The backoff is kept only when nobody else was under way: worker 3 was started before worker 2 failed, and claims
      the row a day before its retry time. */
  lemma RetriedEarly(capacity: nat) returns (r: Run)
    requires capacity >= 2
    ensures IsRun(r) && KeepsLease(r) && Deterministically(r, ALL.d) && ClaimsEarly(r, 88200)
  {
    var t;
    r, t := Cross(capacity);
    hide Good, Late, GoesOn, ClaimsEarly;
    r := ActOn(r, capacity, RETRIES, t, 3, Prepare(Decrypted), ALL);
    t := ActTail(t, 3, RETRIES, Prepare(Decrypted));
    r := ClaimIsEarly(r, capacity, t, 3);
  }

  /** A started worker and, on the list of a scan, the row it was started for. */
  lemma ListedTwice(capacity: nat) returns (r: Run, t: Tail)
    requires capacity >= 2
    ensures Good(r, ALL) && |r.states| > 0 && r.Last() == Late(capacity, RETRIES, t)
    ensures t == Tail(1800, true, 1, Retrying(["e"]), map[2 := Worker("e", Spawned)],
      ExecRow("a", "w", 2, Failed, Some(0), None, Some(1800)), Tally(1, 1, 0, 0, 0, 1, 0, 1800, 0))
  {
    hide Good, Late, GoesOn, Hop;
    t := Opening();
    r := Setup(capacity, RETRIES, ALL);
    r := Botch(r, capacity, RETRIES, t, 1, ALL);
    t := BotchTail(t, 1);
    assert t.threads == map[];
    r := Wait(r, capacity, RETRIES, t, 1800, ALL);
    t := t.(clock := 1800);
    r := Rescan(r, capacity, RETRIES, t, 1800, 2, ALL);
    t := RescanTail(t, 1800, 2);
    r := QuietTick(r, capacity, RETRIES, t, 1800, ALL);
    t := t.(sched := TickDone);
    HopScan(capacity, RETRIES, t, 1800, ALL);
    t := t.(sched := Retrying(["e"]));
    r := Follow(r, Sched(ScanRetries(1800, ["e"])), Late(capacity, RETRIES, t), ALL);
    assert t.threads == map[2 := Worker("e", Spawned)];
  }

  /** The same with a scan: it found the row before worker 2 claimed it and failed, and offers it afterwards. */
  lemma RetriedFromList(capacity: nat) returns (r: Run)
    requires capacity >= 2
    ensures IsRun(r) && KeepsLease(r) && Deterministically(r, ALL.d) && ClaimsEarly(r, 88200)
  {
    var t;
    r, t := ListedTwice(capacity);
    hide Good, Late, GoesOn, Hop, ClaimsEarly;
    r := Botch(r, capacity, RETRIES, t, 2, ALL);
    t := BotchTail(t, 2);
    HopDispatch(capacity, RETRIES, t, 3, ALL);
    t := t.(sched := Retrying([]), tokens := 1, threads := t.threads[3 := Worker("e", Spawned)]);
    r := Follow(r, Sched(DispatchRetry(3)), Late(capacity, RETRIES, t), ALL);
    r := ActOn(r, capacity, RETRIES, t, 3, Load, ALL);
    t := ActTail(t, 3, RETRIES, Load);
    r := ActOn(r, capacity, RETRIES, t, 3, Prepare(Decrypted), ALL);
    t := ActTail(t, 3, RETRIES, Prepare(Decrypted));
    r := ClaimIsEarly(r, capacity, t, 3);
  }

  lemma LateRows(r: Run, capacity: nat, t: Tail)
    requires Good(r, ALL) && |r.states| > 0 && r.Last() == Late(capacity, RETRIES, t) && t.row.will == "w"
    ensures IsRun(r) && KeepsLease(r) && Deterministically(r, ALL.d) && HasRows(r.Last(), "e")
    ensures r.Last().db.execs["e"] == t.row && r.Last().tally["e"] == t.k
  {
  }

  // ----- the retry loop runs dry -----

  const ATTENTIVE := Under(true, true, e => true, true)

  /** The last delivery a row gets fails too. */
  lemma GiveUp(r: Run, capacity: nat, retries: int, t: Tail, tid: Tid, u: Under) returns (r': Run)
    requires Good(r, u) && |r.states| > 0 && r.Last() == Late(capacity, retries, t) && t.row.will == "w"
    requires tid in t.threads && t.threads[tid] == Worker("e", Spawned) && t.unlocked && Claimable(t.row)
    requires u.decided ==> u.d("e")
    requires (u.leased ==> TailLease(t)) && t.row.attempt + 1 >= retries
    ensures Good(r', u) && |r'.states| > 0 && r'.states[0] == r.states[0] && GoesOn(r, r')
    ensures r'.Last() == Late(capacity, retries, GivenUpTail(t, tid))
  {
    GiveUpTails(t, tid, retries);
    hide Good, Late, ActTail;
    r' := Grab(r, capacity, retries, t, tid, u);
    r' := ActOn(r', capacity, retries, GrabTail(t, tid), tid, Deliver(false), u);
    r' := ActOn(r', capacity, retries, ToldTail(t, tid), tid, WriteBack(t.clock), u);
  }

  lemma GiveUpTails(t: Tail, tid: Tid, retries: int)
    requires tid in t.threads && t.threads[tid] == Worker("e", Spawned) && Claimable(t.row)
    requires t.row.attempt + 1 >= retries
    ensures ActTail(GrabTail(t, tid), tid, retries, Deliver(false)) == ToldTail(t, tid)
    ensures ActTail(ToldTail(t, tid), tid, retries, WriteBack(t.clock)) == GivenUpTail(t, tid)
  {
  }

  function GivenUpTail(t: Tail, tid: Tid): Tail {
    var k := t.k;
    t.(row := ClaimedRow(t.row, t.clock).(
         status := Exhausted, attempt := t.row.attempt + 1, completedAt := Some(t.clock)),
       k := k.(claims := k.claims + 1, calls := k.calls + 1, writes := k.writes + 1,
               firstClaim := if k.claims == 0 then t.clock else k.firstClaim),
       threads := t.threads[tid := Exiting])
  }

  /** Two failed deliveries half an hour apart, the second found by a retry scan. */
  lemma FailTwice(capacity: nat) returns (r: Run, t: Tail)
    requires capacity >= 2
    ensures Good(r, ATTENTIVE) && |r.states| > 0 && r.Last() == Late(capacity, 3, t)
    ensures t == Tail(1800, true, 1, Idle, map[2 := Exiting],
      ExecRow("a", "w", 3, Exhausted, Some(1800), Some(1800), Some(1800)), Tally(2, 2, 0, 0, 0, 2, 0, 1800, 0))
    ensures r.states[0].clock == 0 && exists k :: ScansRow(r, k, 1800)
  {
    hide Good, Late, GoesOn;
    t := Opening();
    r := Setup(capacity, 3, ATTENTIVE);
    r := Botch(r, capacity, 3, t, 1, ATTENTIVE);
    t := BotchTail(t, 1);
    assert t.threads == map[];
    Rests(capacity, 3, t);
    r := Wait(r, capacity, 3, t, 1800, ATTENTIVE);
    t := t.(clock := 1800);
    r := Rescan(r, capacity, 3, t, 1800, 2, ATTENTIVE);
    t := RescanTail(t, 1800, 2);
    ghost var k :| ScansRow(r, k, 1800);
    var r' := GiveUp(r, capacity, 3, t, 2, ATTENTIVE);
    ScanStays(r, r', k, 1800);
    r := r';
    t := GivenUpTail(t, 2);
    assert t.threads == map[2 := Exiting];
  }

  lemma Rests(capacity: nat, retries: int, t: Tail)
    requires !t.sched.Retrying? && t.row.status != InProgress
    requires forall tid | tid in t.threads :: t.threads[tid].Exiting?
    ensures AtRest(Late(capacity, retries, t), "e")
  {
  }

  /** The premises of the drain bound can all hold: a run that meets them, with a scan in every half hour and no other
      delay, in which the clock passes the bound and the row is EXHAUSTED. */
  lemma RetriesRunDry(capacity: nat) returns (r: Run)
    requires capacity >= 2
    ensures IsRun(r) && KeepsLease(r) && Deterministically(r, ALL.d) && Promptly(r, "e")
    ensures Serves(r, "e", 1800, 0, 0) && DeliversWithin(r, "e", 0)
    ensures HasRows(r.Last(), "e") && "w" in r.Last().db.wills
    ensures var s := r.Last();
      && s.db.wills["w"].maxRetries == 3 && s.db.execs["e"].will == "w" && s.db.execs["e"].status == Exhausted
      && s.tally["e"].claims == 2 && s.tally["e"].resets == 0 && s.tally["e"].completions == 0
      && s.clock > s.tally["e"].firstClaim + DrainBound(3, 0, 1800)
  {
    var t;
    r, t := FailTwice(capacity);
    Rests(capacity, 3, t);
    var k: nat :| ScansRow(r, k, 1800);
    var last := r.Last();
    r := Wait(r, capacity, 3, t, 3601, ATTENTIVE);
    assert ScansRow(r, k, 1800);
    hide IsRun, AlwaysAttends, KeepsLease, Deterministically, ScansRow;
    OneScanIsEnough(r, k);
    AttendsServes(r, "e", 1800);
  }

  lemma OneScanIsEnough(r: Run, k: nat)
    requires IsRun(r) && ScansRow(r, k, 1800) && r.states[0].clock == 0 && r.Last().clock <= 3601
    ensures ScansEvery(r, 1800)
  {
    forall t, j: nat | j < |r.states| && r.states[0].clock <= t && r.states[j].clock > t + 1800
      ensures AskedWithin(r, DueRetries, j, t, 1800)
    {
      ClockGoesOn(r, j, |r.states| - 1);
      if j <= k {
        ClockGoesOn(r, j, k);
      }
      assert AsksAt(r, DueRetries, k, t, 1800);
    }
  }

  lemma HopCrash(capacity: nat, retries: int, t: Tail, u: Under)
    requires forall tid | tid in t.threads :: !t.threads[tid].Processor?
    requires !t.sched.Won? && !u.attentive
    ensures Hop(Late(capacity, retries, t), Crash,
      Late(capacity, retries, t.(unlocked := false, tokens := 0, sched := Idle, threads := map[])), u)
  {
  }

  lemma HopUnlock(capacity: nat, retries: int, t: Tail, u: Under)
    requires u.leased ==> TailLease(t)
    ensures Hop(Late(capacity, retries, t), Unlock, Late(capacity, retries, t.(unlocked := true)), u)
  {
  }

  /** The notifier has succeeded, and the process was restarted before the result was written. */
  lemma CrashedUnrecorded(capacity: nat) returns (r: Run, t: Tail)
    requires capacity >= 2
    ensures Good(r, ALL) && Starts(r, capacity) && r.Last() == Late(capacity, 3, t)
    ensures t == Tail(0, true, 0, Idle, map[], ClaimedRow(NewExec("a", "w"), 0),
                      NO_TALLY.(claims := 1, calls := 1, successes := 1))
  {
    t := Opening();
    r := Setup(capacity, 3, ALL);
    r := Grab(r, capacity, 3, t, 1, ALL);
    t := GrabTail(t, 1);
    r := ActOn(r, capacity, 3, t, 1, Deliver(true), ALL);
    t := ActTail(t, 1, 3, Deliver(true));
    HopCrash(capacity, 3, t, ALL);
    t := t.(unlocked := false, tokens := 0, sched := Idle, threads := map[]);
    r := Follow(r, Crash, Late(capacity, 3, t), ALL);
    HopUnlock(capacity, 3, t, ALL);
    t := t.(unlocked := true);
    r := Follow(r, Unlock, Late(capacity, 3, t), ALL);
  }

  /** A crash between a successful delivery and its record: the notifier succeeds a second time
      under every assumption, which is why the bound counts resets. */
  lemma CrashRepeatsSuccess(capacity: nat) returns (r: Run)
    requires capacity >= 2
    ensures IsRun(r) && KeepsLease(r) && Deterministically(r, ALL.d) && HasRows(r.Last(), "e")
    ensures r.Last().tally["e"].successes == 2 && r.Last().tally["e"].resets == 1
  {
    var t;
    r, t := CrashedUnrecorded(capacity);
    r := Wait(r, capacity, 3, t, 601, ALL);
    t := t.(clock := 601);
    r := Rescan(r, capacity, 3, t, 601, 1, ALL);
    t := RescanTail(t, 601, 1);
    r := Grab(r, capacity, 3, t, 1, ALL);
    t := GrabTail(t, 1);
    r := ActOn(r, capacity, 3, t, 1, Deliver(true), ALL);
  }

  /** One slot: `processWill` finds no room for the worker of its own execution row, which is stranded. */
  lemma SingleSlotStrands(retries: int) returns (r: Run)
    ensures IsRun(r) && Stranded(r.Last(), "e")
  {
    r := Queue(1, retries, ALL);
    r := Extend(r, Process(0, DispatchExec(1)), ALL);
  }

  // ----- check-ins out of order -----

  function OwnerState(row: WillRow, clock: int, checkIns: set<int>): State {
    State(Database(map["w" := row], map[], map[]), clock, false, 1, 0, Idle,
          map[], map["w" := NO_LOG.(checkIns := checkIns)], map[])
  }

  lemma ActivatedAtZero(interval: int) returns (r: Run)
    requires interval > 0
    ensures Good(r, ALL) && |r.states| == 3 && |r.steps| == 2
    ensures r.states[0].clock == r.states[1].clock == 0 && forall a | a in r.steps :: !a.Sched?
    ensures r.Last() == OwnerState(WillRow(Active, interval, None, Some(0), 3), 0, {})
  {
    var s0 := State(Database(map[], map[], map[]), 0, false, 1, 0, Idle, map[], map[], map[]);
    r := Run([s0], []);
    assert Good(r, ALL);
    hide Good;
    r := Extend(r, CreateWill("w", interval, 3), ALL);
    r := Extend(r, Owner("w", Activate(0)), ALL);
  }

  lemma CheckedInTwice() returns (r: Run)
    ensures Good(r, ALL) && |r.states| > 0
    ensures r.Last() == OwnerState(WillRow(Active, 10, Some(0), Some(10), 3), 5, {0, 5})
  {
    hide Good;
    r := ActivatedAtZero(10);
    r := Extend(r, Advance(5), ALL);
    r := Extend(r, Owner("w", CheckIn(5)), ALL);
    r := Extend(r, Owner("w", CheckIn(0)), ALL);
    assert r.Last().wlog["w"].checkIns == {0, 5};
  }

  /** Two concurrent check-ins whose statements run in the opposite order of their clock readings:
      the will is triggered at 10 although a check-in succeeded at 5 and the interval is 10. */
  lemma OrderIsNeeded() returns (r: Run)
    ensures IsRun(r) && HasWill(r.Last(), "w") && r.Last().clock == 10
    ensures r.Last().db.wills["w"].status == PendingTrigger && r.Last().db.wills["w"].interval == 10
    ensures 5 in r.Last().wlog["w"].checkIns
  {
    r := CheckedInTwice();
    r := Extend(r, Advance(10), ALL);
    r := Extend(r, Sched(StartTick(10)), ALL);
    assert r.Last().db.execs == map[] && r.Last().tally == map[];
    r := Extend(r, Sched(ScanOverdue(10, ["w"])), ALL);
    r := Extend(r, Sched(TryPending(10)), ALL);
  }
}
