/** What every reachable state satisfies, whatever the interleaving: the pool count,
    and that no row, goroutine or list refers to a missing row. */
module Invariants {
  import opened Tables
  import opened Executions
  import opened WillLife
  import opened Protocol

  /** The token count is exactly the number of live goroutines, and never exceeds the pool. */
  ghost predicate PoolOk(s: State) {
    s.tokens == |s.threads| && s.tokens <= s.capacity
  }

  ghost predicate KeysOk(s: State) {
    s.tally.Keys == s.db.execs.Keys && s.wlog.Keys == s.db.wills.Keys
  }

  ghost predicate ExecRefs(db: Database, row: ExecRow) {
    && row.will in db.wills
    && row.action in db.actions && db.actions[row.action].will == row.will
  }

  ghost predicate RefsOk(db: Database) {
    forall e | e in db.execs :: ExecRefs(db, db.execs[e])
  }

  ghost predicate TodoRefs(db: Database, w: WillId, todo: seq<ActionId>) {
    forall a | a in todo :: a in db.actions && db.actions[a].will == w
  }

  ghost predicate ThreadRefs(db: Database, t: Thread) {
    match t
    case Processor(w, pc) =>
      && w in db.wills
      && (!pc.Listing? ==> TodoRefs(db, w, pc.todo))
      && (pc.Queuing? ==> pc.e in db.execs && db.execs[pc.e].will == w)
    case Worker(e, _) => e in db.execs
    case Exiting => true
  }

  ghost predicate ThreadsOk(s: State) {
    forall tid | tid in s.threads :: ThreadRefs(s.db, s.threads[tid])
  }

  ghost predicate SchedOk(s: State) {
    match s.sched
    case Sweep(overdue) => forall w | w in overdue :: w in s.db.wills
    case Won(will, rest) => will in s.db.wills && forall w | w in rest :: w in s.db.wills
    case Retrying(due) => forall e | e in due :: e in s.db.execs && s.db.execs[e].status != Queued
    case _ => true
  }

  ghost predicate Inv(s: State) {
    PoolOk(s) && KeysOk(s) && RefsOk(s.db) && ThreadsOk(s) && SchedOk(s)
  }

  /** Rows are never deleted, their references and settings never change,
      and a row that left QUEUED stays out of it. */
  ghost predicate Grows(db: Database, db': Database) {
    && (forall w | w in db.wills :: w in db'.wills
         && db'.wills[w].maxRetries == db.wills[w].maxRetries
         && db'.wills[w].interval == db.wills[w].interval)
    && (forall a | a in db.actions :: a in db'.actions && db'.actions[a] == db.actions[a])
    && (forall e | e in db.execs :: e in db'.execs
         && db'.execs[e].will == db.execs[e].will
         && db'.execs[e].action == db.execs[e].action
         && (db.execs[e].status != Queued ==> db'.execs[e].status != Queued))
  }

  lemma WorkKeepsRefs(pc: WorkPc, row: ExecRow, k: Tally, retries: int, op: WorkOp)
    ensures var row' := Work(pc, row, k, retries, op).row;
      && row'.will == row.will && row'.action == row.action
      && (row.status != Queued ==> row'.status != Queued)
  {
  }

  lemma SchedRowsStay(s: State, a: SchedOp)
    requires SchedEnabled(s, a)
    ensures Grows(s.db, AfterSched(s, a).db)
  {
  }

  lemma ProcRowsStay(s: State, tid: Tid, a: ProcOp)
    requires ProcEnabled(s, tid, a)
    ensures Grows(s.db, AfterProcess(s, tid, a).db)
  {
  }

  lemma ActRowsStay(s: State, tid: Tid, op: WorkOp)
    requires ActEnabled(s, tid, op)
    ensures Grows(s.db, AfterAct(s, tid, op).db)
  {
  }

  lemma RowsStay(s: State, a: Step)
    requires Enabled(s, a)
    ensures Grows(s.db, Next(s, a).db)
  {
    hide AfterSched, AfterProcess, AfterAct;
    match a {
      case Sched(sop) => SchedRowsStay(s, sop);
      case Process(tid, pop) => ProcRowsStay(s, tid, pop);
      case Act(tid, op) => ActRowsStay(s, tid, op);
      case _ =>
    }
  }

  lemma SchedPool(s: State, a: SchedOp)
    requires PoolOk(s) && SchedEnabled(s, a)
    ensures PoolOk(AfterSched(s, a)) && AfterSched(s, a).capacity == s.capacity && AfterSched(s, a).clock == s.clock
  {
  }

  lemma ProcPool(s: State, tid: Tid, a: ProcOp)
    requires PoolOk(s) && ProcEnabled(s, tid, a)
    ensures var s' := AfterProcess(s, tid, a); PoolOk(s') && s'.capacity == s.capacity && s'.clock == s.clock
  {
  }

  lemma PoolStep(s: State, a: Step)
    requires PoolOk(s) && Enabled(s, a)
    ensures PoolOk(Next(s, a)) && Next(s, a).capacity == s.capacity && Next(s, a).clock >= s.clock
  {
    hide AfterSched, AfterProcess, Work, OwnedRow, OwnedLog;
    match a {
      case Exit(tid) => assert Next(s, a).threads.Keys == s.threads.Keys - {tid};
      case Act(tid, op) => assert Next(s, a).threads.Keys == s.threads.Keys;
      case Process(tid, pop) => ProcPool(s, tid, pop);
      case Sched(sop) => SchedPool(s, sop);
      case _ =>
    }
  }

  lemma SchedKeys(s: State, a: SchedOp)
    requires KeysOk(s) && SchedOk(s) && SchedEnabled(s, a)
    ensures KeysOk(AfterSched(s, a))
  {
  }

  lemma ProcKeys(s: State, tid: Tid, a: ProcOp)
    requires KeysOk(s) && ProcEnabled(s, tid, a)
    ensures KeysOk(AfterProcess(s, tid, a))
  {
  }

  lemma KeysStep(s: State, a: Step)
    requires KeysOk(s) && SchedOk(s) && Enabled(s, a)
    ensures KeysOk(Next(s, a))
  {
    hide AfterSched, AfterProcess, Work;
    match a {
      case Sched(sop) => SchedKeys(s, sop);
      case Process(tid, pop) => ProcKeys(s, tid, pop);
      case _ =>
    }
  }

  lemma ProcRefs(s: State, tid: Tid, a: ProcOp)
    requires RefsOk(s.db) && ThreadsOk(s) && ProcEnabled(s, tid, a)
    ensures RefsOk(AfterProcess(s, tid, a).db)
  {
  }

  lemma SchedDbRefs(s: State, a: SchedOp)
    requires RefsOk(s.db) && SchedEnabled(s, a)
    ensures RefsOk(AfterSched(s, a).db)
  {
  }

  lemma ActRefs(s: State, tid: Tid, op: WorkOp)
    requires RefsOk(s.db) && ActEnabled(s, tid, op)
    ensures RefsOk(AfterAct(s, tid, op).db)
  {
  }

  lemma RefsStep(s: State, a: Step)
    requires RefsOk(s.db) && ThreadsOk(s) && Enabled(s, a)
    ensures RefsOk(Next(s, a).db)
  {
    hide AfterProcess, AfterSched, AfterAct, OwnedRow;
    match a {
      case Process(tid, pop) => ProcRefs(s, tid, pop);
      case Sched(sop) => SchedDbRefs(s, sop);
      case Act(tid, op) => ActRefs(s, tid, op);
      case _ =>
    }
  }

  lemma ThreadRefsGrow(db: Database, db': Database, t: Thread)
    requires ThreadRefs(db, t) && Grows(db, db')
    ensures ThreadRefs(db', t)
  {
  }

  lemma SchedThreads(s: State, a: SchedOp, tid: Tid)
    requires SchedOk(s) && SchedEnabled(s, a) && tid in AfterSched(s, a).threads
    requires tid !in s.threads
    ensures ThreadRefs(s.db, AfterSched(s, a).threads[tid])
  {
  }

  lemma ProcThreads(s: State, t: Tid, a: ProcOp, tid: Tid)
    requires ThreadsOk(s) && ProcEnabled(s, t, a) && tid in AfterProcess(s, t, a).threads
    requires tid !in s.threads || s.threads[tid] != AfterProcess(s, t, a).threads[tid]
    ensures ThreadRefs(AfterProcess(s, t, a).db, AfterProcess(s, t, a).threads[tid])
  {
  }

  /** The goroutines a step creates or moves refer to existing rows. */
  lemma MovedThreadRefs(s: State, a: Step, tid: Tid)
    requires ThreadsOk(s) && SchedOk(s) && Enabled(s, a) && tid in Next(s, a).threads
    requires tid !in s.threads || s.threads[tid] != Next(s, a).threads[tid]
    ensures ThreadRefs(Next(s, a).db, Next(s, a).threads[tid])
  {
    match a {
      case Sched(sop) =>
        SchedThreads(s, sop, tid);
        RowsStay(s, a);
        ThreadRefsGrow(s.db, Next(s, a).db, Next(s, a).threads[tid]);
      case Process(t, pop) => ProcThreads(s, t, pop, tid);
      case Act(t, op) =>
      case _ =>
    }
  }

  lemma ThreadsStep(s: State, a: Step)
    requires ThreadsOk(s) && SchedOk(s) && Enabled(s, a)
    ensures ThreadsOk(Next(s, a))
  {
    hide Enabled, Next, Grows, ThreadRefs;
    var s' := Next(s, a);
    forall tid | tid in s'.threads
      ensures ThreadRefs(s'.db, s'.threads[tid])
    {
      if tid in s.threads && s.threads[tid] == s'.threads[tid] {
        RowsStay(s, a);
        ThreadRefsGrow(s.db, s'.db, s.threads[tid]);
      } else {
        MovedThreadRefs(s, a, tid);
      }
    }
  }

  lemma SchedRefs(s: State, a: SchedOp)
    requires SchedOk(s) && SchedEnabled(s, a)
    ensures SchedOk(AfterSched(s, a))
  {
  }

  lemma SchedOkGrows(s: State, s': State)
    requires SchedOk(s) && Grows(s.db, s'.db) && s'.sched == s.sched
    ensures SchedOk(s')
  {
  }

  lemma SchedStep(s: State, a: Step)
    requires SchedOk(s) && Enabled(s, a)
    ensures SchedOk(Next(s, a))
  {
    hide AfterSched, Grows, Work, OwnedRow, OwnedLog;
    if a.Sched? {
      SchedRefs(s, a.sop);
    } else if !a.Crash? {
      RowsStay(s, a);
      SchedOkGrows(s, Next(s, a));
    }
  }

  lemma InvStep(s: State, a: Step)
    requires Inv(s) && Enabled(s, a)
    ensures Inv(Next(s, a))
  {
    PoolStep(s, a);
    KeysStep(s, a);
    RefsStep(s, a);
    ThreadsStep(s, a);
    SchedStep(s, a);
  }

  lemma {:induction false} InvAlways(r: Run, i: nat)
    requires IsRun(r) && i < |r.states|
    ensures Inv(r.states[i])
  {
    if i > 0 {
      InvAlways(r, i - 1);
      InvStep(r.states[i - 1], r.steps[i - 1]);
    }
  }
}
