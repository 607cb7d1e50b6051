/** Paths of the protocol between two states, and what each single step of a routine makes of the state. */
module Paths {
  import opened Tables
  import opened Executions
  import opened WillLife
  import opened Protocol
  import opened Invariants

  // ----- paths between two states -----

  ghost predicate Connects(r: Run, s: State, s': State) {
    IsPath(r) && r.states[0] == s && r.Last() == s'
  }

  ghost predicate Reaches(s: State, s': State) {
    exists r: Run :: Connects(r, s, s')
  }

  lemma ReachesItself(s: State)
    ensures Reaches(s, s)
  {
    assert Connects(Run([s], []), s, s);
  }

  lemma ReachesNext(s: State, m: State, a: Step)
    requires Reaches(s, m) && Enabled(m, a)
    ensures Reaches(s, Next(m, a))
  {
    hide Enabled, Next;
    var r: Run :| Connects(r, s, m);
    assert Connects(Run(r.states + [Next(m, a)], r.steps + [a]), s, Next(m, a));
  }

  lemma Joined(p: Run, q: Run, s: State, m: State, s': State)
    requires Connects(p, s, m) && Connects(q, m, s')
    ensures Connects(Run(p.states + q.states[1..], p.steps + q.steps), s, s')
  {
    hide Enabled, Next;
    var r := Run(p.states + q.states[1..], p.steps + q.steps);
    var n := |p.steps|;
    forall i | 0 <= i < |r.steps|
      ensures Enabled(r.states[i], r.steps[i]) && r.states[i + 1] == Next(r.states[i], r.steps[i])
    {
      if i < n {
        assert r.states[i] == p.states[i] && r.states[i + 1] == p.states[i + 1] && r.steps[i] == p.steps[i];
      } else {
        assert r.states[i] == q.states[i - n] && r.states[i + 1] == q.states[i + 1 - n] && r.steps[i] == q.steps[i - n];
      }
    }
  }

  lemma ReachesOn(s: State, m: State, s': State)
    requires Reaches(s, m) && Reaches(m, s')
    ensures Reaches(s, s')
  {
    hide Enabled, Next;
    var p: Run :| Connects(p, s, m);
    var q: Run :| Connects(q, m, s');
    Joined(p, q, s, m, s');
  }

  lemma GrowsOn(a: Database, b: Database, c: Database)
    requires Grows(a, b) && Grows(b, c)
    ensures Grows(a, c)
  {
  }

  lemma {:induction false} PathKeeps(r: Run, i: nat)
    requires IsPath(r) && i < |r.states| && Inv(r.states[0])
    ensures Inv(r.states[i]) && Grows(r.states[0].db, r.states[i].db) && r.states[i].clock >= r.states[0].clock
  {
    if i > 0 {
      PathKeeps(r, i - 1);
      var s, a := r.states[i - 1], r.steps[i - 1];
      assert Enabled(s, a) && r.states[i] == Next(s, a);
      InvStep(s, a);
      RowsStay(s, a);
      PoolOnly(s, a);
      hide Enabled, Next, Inv, Grows;
      GrowsOn(r.states[0].db, s.db, r.states[i].db);
    }
  }

  lemma PoolOnly(s: State, a: Step)
    requires Inv(s) && Enabled(s, a)
    ensures Next(s, a).clock >= s.clock
  {
    PoolStep(s, a);
  }

  /** Whatever else runs in between, rows stay with their settings and the clock does not go back. */
  lemma ReachesKeeps(s: State, s': State)
    requires Reaches(s, s') && Inv(s)
    ensures Inv(s') && Grows(s.db, s'.db) && s'.clock >= s.clock
  {
    var r: Run :| Connects(r, s, s');
    hide Inv, Grows;
    PathKeeps(r, |r.states| - 1);
  }

  lemma FreshTid(threads: map<Tid, Thread>) returns (tid: Tid)
    ensures tid !in threads
  {
    var rest := threads.Keys;
    tid := 0;
    while rest != {}
      invariant rest <= threads.Keys
      invariant forall t | t in threads && t !in rest :: t < tid
      decreases rest
    {
      var t :| t in rest;
      rest := rest - {t};
      tid := if t >= tid then t + 1 else tid;
    }
  }

  lemma FreshId(used: set<string>) returns (id: string)
    ensures id !in used
  {
    var rest := used;
    id := "";
    while rest != {}
      invariant rest <= used
      invariant forall u | u in used && u !in rest :: |u| < |id|
      decreases rest
    {
      var u :| u in rest;
      rest := rest - {u};
      id := if |u| >= |id| then u + "0" else id;
    }
  }

  /** One step, taken. */
  ghost predicate Takes(s: State, a: Step, s': State) {
    Enabled(s, a) && s' == Next(s, a) && Grows(s.db, s'.db)
  }

  // ----- single steps -----

  ghost predicate At(s: State, tid: Tid) {
    tid in s.threads
  }

  ghost predicate Stands(s: State, tid: Tid, t: Thread) {
    tid in s.threads && s.threads[tid] == t
  }

  /** A worker always finds its rows. */
  lemma WorkerHasRows(s: State, tid: Tid)
    requires Inv(s) && tid in s.threads && s.threads[tid].Worker?
    ensures HasRows(s, s.threads[tid].e)
  {
  }

  /** What a step leaves of everything but the rows and the goroutines. */
  ghost predicate SameFrame(s: State, s': State) {
    s'.clock == s.clock && s'.unlocked == s.unlocked && s'.capacity == s.capacity
  }

  lemma SwapShape(s: State, w: WillId, rest: seq<WillId>, now: int)
    requires Inv(s) && s.sched == Sweep([w] + rest) && now <= s.clock
    ensures var a := Sched(TryPending(now)); var won := w in s.db.wills && Overdue(s.db.wills[w], now);
      && Enabled(s, a) && SameFrame(s, Next(s, a)) && Next(s, a).tokens == s.tokens
      && Next(s, a).sched == (if won then Won(w, rest) else Sweep(rest))
      && (won ==> Next(s, a).db == s.db.(wills := s.db.wills[w := s.db.wills[w].(status := PendingTrigger)]))
      && (!won ==> Next(s, a).db == s.db)
  {
  }

  lemma StartShape(s: State, tid: Tid)
    requires s.sched.Won? && tid !in s.threads
    ensures var a := Sched(DispatchWill(tid));
      && Enabled(s, a) && SameFrame(s, Next(s, a)) && Next(s, a).db == s.db
      && Next(s, a).tokens == (if s.tokens < s.capacity then s.tokens + 1 else s.tokens)
      && Next(s, a).sched == Sweep(s.sched.rest)
      && (s.tokens < s.capacity ==> Stands(Next(s, a), tid, Processor(s.sched.will, Listing)))
  {
  }

  lemma RetryShape(s: State, e: ExecId, rest: seq<ExecId>, tid: Tid)
    requires s.sched == Retrying([e] + rest) && tid !in s.threads
    ensures var a := Sched(DispatchRetry(tid));
      && Enabled(s, a) && SameFrame(s, Next(s, a)) && Next(s, a).db == s.db
      && Next(s, a).tokens == (if s.tokens < s.capacity then s.tokens + 1 else s.tokens)
      && Next(s, a).sched == Retrying(rest)
  {
  }

  lemma CreateShape(s: State, tid: Tid, w: WillId, b: ActionId, rest: seq<ActionId>, e: ExecId)
    requires Stands(s, tid, Processor(w, Looping([b] + rest))) && e !in s.db.execs
    ensures var a := Process(tid, CreateExecution(e));
      && Enabled(s, a) && SameFrame(s, Next(s, a)) && Next(s, a).tokens == s.tokens
      && Next(s, a).db == s.db.(execs := s.db.execs[e := NewExec(b, w)])
      && Next(s, a).sched == s.sched && Stands(Next(s, a), tid, Processor(w, Queuing(rest, e)))
  {
  }

  lemma QueueShape(s: State, tid: Tid, w: WillId, todo: seq<ActionId>, e: ExecId, worker: Tid)
    requires Stands(s, tid, Processor(w, Queuing(todo, e))) && worker !in s.threads
    ensures var a := Process(tid, DispatchExec(worker));
      && Enabled(s, a) && SameFrame(s, Next(s, a)) && Next(s, a).db == s.db
      && Next(s, a).tokens == (if s.tokens < s.capacity then s.tokens + 1 else s.tokens)
      && Next(s, a).sched == s.sched && Stands(Next(s, a), tid, Processor(w, Looping(todo)))
  {
  }

  lemma MarkShape(s: State, tid: Tid, w: WillId)
    requires Inv(s) && Stands(s, tid, Processor(w, Looping([])))
    ensures var a := Process(tid, MarkTriggered);
      && Enabled(s, a) && SameFrame(s, Next(s, a)) && Next(s, a).tokens == s.tokens
      && w in s.db.wills && Next(s, a).db == s.db.(wills := s.db.wills[w := s.db.wills[w].(status := Triggered)])
      && Next(s, a).sched == s.sched && Stands(Next(s, a), tid, Exiting)
  {
  }

  /** Every statement of `retryAction` on the row it works on. */
  lemma ActShape(s: State, tid: Tid, e: ExecId, pc: WorkPc, op: WorkOp)
    requires Inv(s) && Stands(s, tid, Worker(e, pc)) && WorkEnabled(pc, op, s.clock)
    requires op.Prepare? && !op.outcome.Abort? ==> s.unlocked
    ensures var a := Step.Act(tid, op);
      && Enabled(s, a) && HasRows(s, e) && SameFrame(s, Next(s, a)) && Next(s, a).tokens == s.tokens
      && var x := Work(pc, s.db.execs[e], s.tally[e], s.db.wills[s.db.execs[e].will].maxRetries, op);
      && Next(s, a).db == s.db.(execs := s.db.execs[e := x.row]) && Next(s, a).sched == s.sched
      && Stands(Next(s, a), tid, if x.pc.Some? then Worker(e, x.pc.value) else Exiting)
  {
  }

  /** What the program reaches from an empty database is a state of a run, so every theorem about runs holds of it. */
  lemma RunTo(s: State, s': State) returns (r: Run)
    requires Init(s) && Reaches(s, s')
    ensures IsRun(r) && r.states[0] == s && r.Last() == s'
  {
    r :| Connects(r, s, s');
  }

  lemma ExitShape(s: State, tid: Tid)
    requires Inv(s) && Stands(s, tid, Exiting)
    ensures s.tokens > 0 && Enabled(s, Exit(tid))
    ensures var s' := Next(s, Exit(tid));
      SameFrame(s, s') && s'.db == s.db && s'.sched == s.sched && s'.tokens == s.tokens - 1 && tid !in s'.threads
  {
  }
}
