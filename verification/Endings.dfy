/** What a won will can still come to. The win is only in memory, and `processWill` writes TRIGGERED without looking
    at the status: PENDING_TRIGGER can end, and ARCHIVED can be overwritten, exactly while the win is in flight. */
module Endings {
  import opened Basics
  import opened Tables
  import opened Executions
  import opened WillLife
  import opened Protocol
  import opened Invariants
  import opened Projection
  import opened WillTheorems
  import opened Paths

  // ----- every goroutine can run to its end -----

  /** `m` is one step after `s`. */
  lemma Onward(s: State, a: Step)
    requires Inv(s) && Enabled(s, a)
    ensures Inv(Next(s, a)) && Reaches(s, Next(s, a)) && Grows(s.db, Next(s, a).db)
  {
    InvStep(s, a);
    RowsStay(s, a);
    ReachesItself(s);
    ReachesNext(s, s, a);
  }

  /** Here `processWill` has written its last row. */
  ghost predicate Wrote(s: State, s': State, tid: Tid, w: WillId) {
    && Reaches(s, s') && Inv(s') && s'.sched == s.sched && Stands(s', tid, Exiting)
    && w in s'.db.wills && s'.db.wills[w].status == Triggered
  }

  lemma WroteOn(s: State, m: State, s': State, tid: Tid, w: WillId)
    requires Reaches(s, m) && m.sched == s.sched && Wrote(m, s', tid, w)
    ensures Wrote(s, s', tid, w)
  {
    ReachesOn(s, m, s');
  }

  function Left(pc: ProcPc): nat {
    match pc
    case Listing => 0
    case Looping(todo) => 2 * |todo|
    case Queuing(todo, _) => 2 * |todo| + 1
  }

  /** Only `processWill` goroutines move on this path. */
  ghost predicate Gentle(p: Run) {
    IsPath(p) && forall i | 0 <= i < |p.steps| :: p.steps[i].Process?
  }

  /** The last step of the path is the TRIGGERED write for `w`. */
  ghost predicate Marks(p: Run, tid: Tid, w: WillId) {
    && IsPath(p) && |p.steps| > 0 && p.steps[|p.steps| - 1] == Process(tid, MarkTriggered)
    && Stands(p.states[|p.steps| - 1], tid, Processor(w, Looping([])))
  }

  lemma Prepended(s: State, a: Step, p: Run) returns (q: Run)
    requires Gentle(p) && a.Process? && Enabled(s, a) && p.states[0] == Next(s, a)
    ensures Gentle(q) && q.states[0] == s && q.Last() == p.Last()
    ensures q == Run([s] + p.states, [a] + p.steps)
  {
    hide Enabled, Next;
    q := Run([s] + p.states, [a] + p.steps);
    forall i | 0 <= i < |q.steps|
      ensures Enabled(q.states[i], q.steps[i]) && q.states[i + 1] == Next(q.states[i], q.steps[i])
    {
      if i > 0 {
        assert q.states[i] == p.states[i - 1] && q.steps[i] == p.steps[i - 1] && q.states[i + 1] == p.states[i];
      }
    }
  }

  /** The path of `processWill` on its own, from wherever it stands in its loop to the TRIGGERED write. */
  lemma {:induction false} LoopPath(s: State, tid: Tid, w: WillId, pc: ProcPc) returns (p: Run)
    requires Inv(s) && Stands(s, tid, Processor(w, pc)) && !pc.Listing?
    ensures Gentle(p) && p.states[0] == s && Marks(p, tid, w) && Wrote(s, p.Last(), tid, w)
    decreases Left(pc)
  {
    hide Inv, Enabled, Next, Reaches, Grows, Stands;
    if pc == Looping([]) {
      MarkShape(s, tid, w);
      Onward(s, Process(tid, MarkTriggered));
      p := Run([s, Next(s, Process(tid, MarkTriggered))], [Process(tid, MarkTriggered)]);
    } else {
      var a, pc' := LoopStep(s, tid, w, pc);
      Onward(s, a);
      var m := Next(s, a);
      var rest := LoopPath(m, tid, w, pc');
      p := Prepended(s, a, rest);
      WroteOn(s, m, rest.Last(), tid, w);
    }
  }

  /** One turn of the loop: the next row is created, or the one just created is offered to the pool. */
  lemma LoopStep(s: State, tid: Tid, w: WillId, pc: ProcPc) returns (a: Step, pc': ProcPc)
    requires Stands(s, tid, Processor(w, pc)) && !pc.Listing? && pc != Looping([])
    ensures a.Process? && Enabled(s, a) && Next(s, a).sched == s.sched
    ensures Stands(Next(s, a), tid, Processor(w, pc')) && !pc'.Listing? && Left(pc') < Left(pc)
  {
    hide Enabled, Next, Stands;
    if pc.Looping? {
      var e := FreshId(s.db.execs.Keys);
      assert pc.todo == [pc.todo[0]] + pc.todo[1..];
      CreateShape(s, tid, w, pc.todo[0], pc.todo[1..], e);
      a, pc' := Process(tid, CreateExecution(e)), Queuing(pc.todo[1..], e);
    } else {
      var worker := FreshTid(s.threads);
      QueueShape(s, tid, w, pc.todo, pc.e, worker);
      a, pc' := Process(tid, DispatchExec(worker)), Looping(pc.todo);
    }
  }

  lemma Lowest(actions: map<ActionId, ActionRow>, ids: set<ActionId>) returns (first: ActionId)
    requires ids != {} && ids <= actions.Keys
    ensures first in ids && forall b | b in ids :: actions[first].position <= actions[b].position
    decreases ids
  {
    var one :| one in ids;
    var rest := ids - {one};
    first := one;
    if rest != {} {
      var other := Lowest(actions, rest);
      first := if actions[other].position < actions[one].position then other else one;
    }
    assert forall b | b in ids :: b == one || b in rest;
  }

  lemma Listable(actions: map<ActionId, ActionRow>, w: WillId) returns (found: seq<ActionId>)
    ensures ListsActions(actions, w, found)
  {
    found := [];
    var rest := set a | a in actions && actions[a].will == w;
    while rest != {}
      invariant rest <= actions.Keys && NoDuplicates(found)
      invariant forall a :: a in actions && actions[a].will == w <==> a in found || a in rest
      invariant forall a | a in found :: a !in rest
      invariant forall i, j | 0 <= i < j < |found| :: actions[found[i]].position <= actions[found[j]].position
      invariant forall a, b | a in found && b in rest :: actions[a].position <= actions[b].position
      decreases rest
    {
      var a := Lowest(actions, rest);
      rest := rest - {a};
      found := found + [a];
    }
  }

  lemma ListShape(s: State, tid: Tid, w: WillId, found: seq<ActionId>)
    requires Stands(s, tid, Processor(w, Listing)) && ListsActions(s.db.actions, w, found)
    ensures var a := Process(tid, ListActions(found));
      && Enabled(s, a) && Next(s, a).sched == s.sched && Stands(Next(s, a), tid, Processor(w, Looping(found)))
  {
  }

  /** From wherever it stands, `processWill` can go on to its TRIGGERED write. */
  lemma ProcessorEnds(s: State, tid: Tid, w: WillId, pc: ProcPc) returns (s': State)
    requires Inv(s) && Stands(s, tid, Processor(w, pc))
    ensures Wrote(s, s', tid, w)
  {
    hide Inv, Enabled, Next, Reaches, Grows, Stands, Wrote, ListsActions;
    if pc.Listing? {
      var found := Listable(s.db.actions, w);
      ListShape(s, tid, w, found);
      Onward(s, Process(tid, ListActions(found)));
      var m := Next(s, Process(tid, ListActions(found)));
      var p := LoopPath(m, tid, w, Looping(found));
      s' := p.Last();
      WroteOn(s, m, s', tid, w);
    } else {
      var p := LoopPath(s, tid, w, pc);
      s' := p.Last();
    }
  }

  // ----- a full pool can always make room -----

  ghost predicate Room(s: State, s': State) {
    Reaches(s, s') && Inv(s') && s'.sched == s.sched && s'.tokens < s'.capacity
  }

  lemma RoomOn(s: State, m: State, s': State)
    requires Reaches(s, m) && m.sched == s.sched && Room(m, s')
    ensures Room(s, s')
  {
    ReachesOn(s, m, s');
  }

  lemma ExitFrees(s: State, tid: Tid)
    requires Inv(s) && Stands(s, tid, Exiting)
    ensures Enabled(s, Exit(tid)) && Room(s, Next(s, Exit(tid)))
  {
    ExitShape(s, tid);
    Onward(s, Exit(tid));
    assert PoolOk(s);
  }

  /** What a worker can do next: without a key it leaves, with one it goes on to its claim and may report a failure. */
  function Onwards(pc: WorkPc, clock: int, unlocked: bool): WorkOp {
    match pc
    case Spawned => Load
    case Loaded(_, _) => Prepare(if unlocked then Decrypted else Abort)
    case Failing(_) => FailUnclaimed(clock)
    case Ready(_, _) => Claim(clock)
    case Claimed(_, _) => Deliver(false)
    case Delivered(_, _, _) => WriteBack(clock)
  }

  function Steps(pc: WorkPc): nat {
    match pc
    case Spawned => 5
    case Loaded(_, _) => 4
    case Failing(_) => 1
    case Ready(_, _) => 3
    case Claimed(_, _) => 2
    case Delivered(_, _, _) => 1
  }

  lemma OnwardsGoesOn(pc: WorkPc, row: ExecRow, k: Tally, retries: int, clock: int, unlocked: bool)
    ensures WorkEnabled(pc, Onwards(pc, clock, unlocked), clock)
    ensures var pc' := Work(pc, row, k, retries, Onwards(pc, clock, unlocked)).pc;
      pc'.Some? ==> Steps(pc'.value) < Steps(pc)
  {
  }

  lemma {:induction false} WorkerFrees(s: State, tid: Tid, e: ExecId, pc: WorkPc) returns (s': State)
    requires Inv(s) && Stands(s, tid, Worker(e, pc))
    ensures Room(s, s')
    decreases Steps(pc)
  {
    var op := Onwards(pc, s.clock, s.unlocked);
    assert op.Prepare? && !op.outcome.Abort? ==> s.unlocked;
    WorkerHasRows(s, tid);
    hide Inv, Enabled, Next, Reaches, Grows, Stands, Room, Work, Onwards, Steps, WorkEnabled;
    OnwardsGoesOn(pc, s.db.execs[e], s.tally[e], s.db.wills[s.db.execs[e].will].maxRetries, s.clock, s.unlocked);
    ActShape(s, tid, e, pc, op);
    Onward(s, Step.Act(tid, op));
    var m := Next(s, Step.Act(tid, op));
    var x := Work(pc, s.db.execs[e], s.tally[e], s.db.wills[s.db.execs[e].will].maxRetries, op).pc;
    if x.Some? {
      s' := WorkerFrees(m, tid, e, x.value);
    } else {
      ExitFrees(m, tid);
      s' := Next(m, Exit(tid));
    }
    RoomOn(s, m, s');
  }

  lemma PoolFrees(s: State) returns (s': State)
    requires Inv(s) && s.capacity >= 1
    ensures Room(s, s')
  {
    if s.tokens < s.capacity {
      ReachesItself(s);
      s' := s;
    } else {
      assert s.threads.Keys != {};
      var tid :| tid in s.threads;
      var t := s.threads[tid];
      assert Stands(s, tid, t);
      hide Inv, Enabled, Next, Grows, Room, Reaches, Stands;
      match t {
        case Exiting =>
          ExitFrees(s, tid);
          s' := Next(s, Exit(tid));
        case Worker(e, pc) => s' := WorkerFrees(s, tid, e, pc);
        case Processor(w, pc) =>
          var m := ProcessorEnds(s, tid, w, pc);
          ExitFrees(m, tid);
          s' := Next(m, Exit(tid));
          RoomOn(s, m, s');
      }
    }
  }

  // ----- when an archived will stays archived -----

  /** Some continuation takes the will out of ARCHIVED. */
  ghost predicate CanLeave(s: State, w: WillId) {
    exists s' :: Reaches(s, s') && w in s'.db.wills && s'.db.wills[w].status != Archived
  }

  /** Some continuation has the will TRIGGERED. */
  ghost predicate CanTrigger(s: State, w: WillId) {
    exists s' :: Reaches(s, s') && w in s'.db.wills && s'.db.wills[w].status == Triggered
  }

  lemma WaitingEnds(s: State, w: WillId, rest: seq<WillId>) returns (s': State)
    requires Inv(s) && s.capacity >= 1 && s.sched == Won(w, rest)
    ensures Reaches(s, s') && w in s'.db.wills && s'.db.wills[w].status == Triggered
  {
    var m := PoolFrees(s);
    var tid := FreshTid(m.threads);
    StartShape(m, tid);
    hide Inv, Enabled, Next, Grows, Reaches, Stands;
    Onward(m, Sched(DispatchWill(tid)));
    var n := Next(m, Sched(DispatchWill(tid)));
    s' := ProcessorEnds(n, tid, w, Listing);
    ReachesOn(m, n, s');
    ReachesOn(s, m, s');
  }

  lemma InFlightEnds(s: State, w: WillId)
    requires Inv(s) && s.capacity >= 1 && InFlight(s, w)
    ensures CanLeave(s, w) && CanTrigger(s, w)
  {
    hide Inv, Reaches;
    if s.sched.Won? && s.sched.will == w {
      var s' := WaitingEnds(s, w, s.sched.rest);
    } else {
      var tid :| tid in s.threads && s.threads[tid].Processor? && s.threads[tid].w == w;
      var s' := ProcessorEnds(s, tid, w, s.threads[tid].proc);
    }
  }

  /** A run and a path from one of its states are a run. */
  lemma Continued(r: Run, i: nat, p: Run, s': State) returns (q: Run)
    requires IsRun(r) && i < |r.states| && Connects(p, r.states[i], s')
    ensures IsRun(q) && i < |q.states| && q.states[i] == r.states[i] && q.Last() == s'
  {
    hide Enabled, Next, Init;
    var head := Run(r.states[..i + 1], r.steps[..i]);
    assert Connects(head, r.states[0], r.states[i]);
    Joined(head, p, r.states[0], r.states[i], s');
    q := Run(head.states + p.states[1..], head.steps + p.steps);
  }

  lemma SettledStays(r: Run, i: nat, w: WillId, s': State)
    requires IsRun(r) && i < |r.states| && w in r.states[i].db.wills
    requires PastPending(r.states[i].db.wills[w].status) && !InFlight(r.states[i], w) && Reaches(r.states[i], s')
    ensures w in s'.db.wills && s'.db.wills[w].status in {r.states[i].db.wills[w].status, Archived}
  {
    var s := r.states[i];
    InvAlways(r, i);
    assert HasWill(s, w);
    assert ProcsOf(s, w) == map[];
    var p: Run :| Connects(p, s, s');
    hide IsRun, Inv, Reaches, Connects;
    var q := Continued(r, i, p, s');
    assert |q.states| > 0;
    AbandonedWillStays(q, i, |q.states| - 1, w);
  }

  lemma {:induction false} CapacityStays(r: Run, i: nat)
    requires IsRun(r) && i < |r.states|
    ensures r.states[i].capacity >= 1
  {
    hide Enabled, Next, KeysOk, RefsOk, ThreadsOk, SchedOk, PoolOk;
    if i > 0 {
      CapacityStays(r, i - 1);
      InvAlways(r, i - 1);
      PoolStep(r.states[i - 1], r.steps[i - 1]);
    }
  }

  /** ARCHIVED is meant to be final. In every reachable state an archived will can leave it
      again if and only if its win is in flight: waiting for a slot or in the hands of `processWill`. */
  lemma ArchivedForGoodIff(r: Run, i: nat, w: WillId)
    requires IsRun(r) && i < |r.states| && w in r.states[i].db.wills
    requires r.states[i].db.wills[w].status == Archived
    ensures CanLeave(r.states[i], w) <==> InFlight(r.states[i], w)
  {
    var s := r.states[i];
    InvAlways(r, i);
    CapacityStays(r, i);
    hide IsRun, Inv, Reaches, InFlight;
    if InFlight(s, w) {
      InFlightEnds(s, w);
    } else {
      forall s' | Reaches(s, s')
        ensures w in s'.db.wills && s'.db.wills[w].status == Archived
      {
        SettledStays(r, i, w, s');
      }
    }
  }

  /** A will in PENDING_TRIGGER can still become TRIGGERED if and only if its win is in flight: one dropped at a full
      pool or lost in a crash is stuck for good. */
  lemma PendingEndsIff(r: Run, i: nat, w: WillId)
    requires IsRun(r) && i < |r.states| && w in r.states[i].db.wills
    requires r.states[i].db.wills[w].status == PendingTrigger
    ensures CanTrigger(r.states[i], w) <==> InFlight(r.states[i], w)
  {
    var s := r.states[i];
    InvAlways(r, i);
    CapacityStays(r, i);
    hide IsRun, Inv, Reaches, InFlight;
    if InFlight(s, w) {
      InFlightEnds(s, w);
    } else {
      forall s' | Reaches(s, s')
        ensures w in s'.db.wills && s'.db.wills[w].status in {PendingTrigger, Archived}
      {
        SettledStays(r, i, w, s');
      }
    }
  }
}
