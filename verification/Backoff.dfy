/** The backoff is waited for, not only handed out: no scan takes a row up before its retry time, and a row that
    failed while no other goroutine was under way for it is not claimed before. */
module Backoff {
  import opened Basics
  import opened Tables
  import opened WillLife
  import opened Executions
  import opened Protocol
  import opened Invariants
  import opened Projection
  import opened ExecutionTheorems
  import opened Pickup

  /** A retry scan takes up rows that are FAILED with their retry time reached, at most ten of them, and all of them
      when there are fewer than ten. */
  lemma ScanKeepsBackoff(r: Run, k: nat)
    requires IsRun(r) && k < |r.steps| && r.steps[k].Sched? && r.steps[k].sop.ScanRetries?
    ensures var s, found := r.states[k], r.steps[k].sop.execs;
      && r.steps[k].sop.now <= s.clock && |found| <= 10
      && (forall e | e in found :: e in s.db.execs && s.db.execs[e].status == Failed
            && s.db.execs[e].nextRetryAt.Some? && s.db.execs[e].nextRetryAt.value <= r.steps[k].sop.now)
      && (|found| < 10 ==> forall e | e in s.db.execs && s.db.execs[e].status == Failed
            && s.db.execs[e].nextRetryAt.Some? && s.db.execs[e].nextRetryAt.value <= r.steps[k].sop.now :: e in found)
      && r.states[k + 1].sched == Retrying(found)
  {
    assert Enabled(r.states[k], r.steps[k]) && r.states[k + 1] == Next(r.states[k], r.steps[k]);
  }

  // ----- a row nobody attends to -----

  /** This goroutine works on the row, or is about to start one that does. */
  predicate Attending(t: Thread, e: ExecId) {
    match t
    case Worker(f, _) => f == e
    case Processor(_, Queuing(_, f)) => f == e
    case _ => false
  }

  /** No goroutine but `tid` is under way for the row, and no scan has it on its list. */
  ghost predicate Alone(s: State, tid: Tid, e: ExecId) {
    !Listed(s, e) && forall t | t in s.threads && t != tid :: !Attending(s.threads[t], e)
  }

  ghost predicate Unattended(s: State, e: ExecId) {
    !Listed(s, e) && forall t | t in s.threads :: !Attending(s.threads[t], e)
  }

  /** The row waits for its retry time and nobody is under way for it. */
  ghost predicate Resting(s: State, e: ExecId, retryAt: int) {
    WaitsAt(s, e, retryAt) && Unattended(s, e)
  }

  lemma RestingSched(s: State, a: SchedOp, e: ExecId, retryAt: int)
    requires SchedEnabled(s, a) && Resting(s, e, retryAt) && s.clock < retryAt
    ensures Resting(AfterSched(s, a), e, retryAt)
  {
  }

  lemma RestingProcess(s: State, tid: Tid, a: ProcOp, e: ExecId, retryAt: int)
    requires ProcEnabled(s, tid, a) && Resting(s, e, retryAt)
    ensures Resting(AfterProcess(s, tid, a), e, retryAt)
  {
  }

  lemma RestingAct(s: State, tid: Tid, op: WorkOp, e: ExecId, retryAt: int)
    requires ActEnabled(s, tid, op) && Resting(s, e, retryAt)
    ensures Resting(AfterAct(s, tid, op), e, retryAt)
  {
    hide Work;
    assert Attending(s.threads[tid], s.threads[tid].e);
  }

  /** Only the clock can end the rest. */
  lemma RestingStep(s: State, a: Step, e: ExecId, retryAt: int)
    requires Enabled(s, a) && Resting(s, e, retryAt) && s.clock < retryAt
    ensures Resting(Next(s, a), e, retryAt)
  {
    hide AfterSched, AfterProcess, AfterAct, OwnedRow, OwnedLog;
    match a {
      case Sched(sop) => RestingSched(s, sop, e, retryAt);
      case Process(tid, pop) => RestingProcess(s, tid, pop, e, retryAt);
      case Act(tid, op) => RestingAct(s, tid, op, e, retryAt);
      case _ =>
    }
  }

  lemma {:induction false} RestsOn(r: Run, i: nat, j: nat, e: ExecId, retryAt: int)
    requires IsRun(r) && i <= j < |r.states| && Resting(r.states[i], e, retryAt)
    ensures Resting(r.states[j], e, retryAt) || r.states[j].clock >= retryAt
    decreases j
  {
    hide Enabled, Next, Init, Resting;
    if i < j {
      RestsOn(r, i, j - 1, e, retryAt);
      if r.states[j - 1].clock >= retryAt {
        ClockGoesOn(r, j - 1, j);
      } else {
        RestingStep(r.states[j - 1], r.steps[j - 1], e, retryAt);
      }
    }
  }

  /** A row at rest is not claimed, nor is any goroutine started for it, before its retry time. */
  lemma NotBeforeRetryTime(r: Run, i: nat, j: nat, e: ExecId, retryAt: int, tid: Tid)
    requires IsRun(r) && i <= j < |r.states| && Resting(r.states[i], e, retryAt)
    requires tid in r.states[j].threads && Attending(r.states[j].threads[tid], e)
    ensures r.states[j].clock >= retryAt
  {
    RestsOn(r, i, j, e, retryAt);
  }

  // ----- so every backoff is waited for -----

  /** The step of goroutine `tid` that records a failure of the row, below the limit of attempts. */
  ghost predicate Fails(s: State, a: Step, e: ExecId, tid: Tid) {
    && a.Act? && a.tid == tid && tid in s.threads && s.threads[tid].Worker? && s.threads[tid].e == e && HasRows(s, e)
    && var retries, pc := s.db.wills[s.db.execs[e].will].maxRetries, s.threads[tid].work;
    || (a.op.WriteBack? && pc.Delivered? && !pc.ok && pc.attempt + 1 < retries)
    || (a.op.FailUnclaimed? && pc.Failing? && pc.attempt < retries)
  }

  /** When a worker that is the only one under way for its row records a failed delivery, or that the row cannot be
      decrypted, the row is not claimed again before the delay of the table has passed since the clock reading of the
      write: half an hour after the first delivery and a day after any other; five minutes, half an hour or a day by
      the attempt count when it cannot be decrypted. */
  lemma BackoffIsKept(r: Run, i: nat, j: nat, e: ExecId, tid: Tid)
    requires IsRun(r) && i < j < |r.steps| && Fails(r.states[i], r.steps[i], e, tid) && Alone(r.states[i], tid, e)
    requires Claims(r.states[j], r.steps[j], e)
    ensures var pc, op := r.states[i].threads[tid].work, r.steps[i].op;
      && (op.WriteBack? ==> r.states[j].clock >= op.now + if pc.attempt == 1 then 1800 else 86400)
      && (op.FailUnclaimed? ==>
            r.states[j].clock >= op.now + if pc.attempt == 1 then 300 else if pc.attempt == 2 then 1800 else 86400)
  {
    var s, a := r.states[i], r.steps[i];
    assert Enabled(s, a) && r.states[i + 1] == Next(s, a);
    PositiveAttempt(r, i, e, tid);
    var retryAt := FailureRests(s, a, e, tid);
    hide IsRun, Enabled, Next, Resting, Fails;
    NotBeforeRetryTime(r, i + 1, j, e, retryAt, r.steps[j].tid);
  }

  lemma FailureRests(s: State, a: Step, e: ExecId, tid: Tid) returns (retryAt: int)
    requires Enabled(s, a) && Fails(s, a, e, tid) && Alone(s, tid, e) && s.threads[tid].work.attempt >= 1
    ensures Resting(Next(s, a), e, retryAt)
    ensures var pc, op := s.threads[tid].work, a.op;
      && (op.WriteBack? ==> retryAt == op.now + if pc.attempt == 1 then 1800 else 86400)
      && (op.FailUnclaimed? ==>
            retryAt == op.now + if pc.attempt == 1 then 300 else if pc.attempt == 2 then 1800 else 86400)
  {
    retryAt := Next(s, a).db.execs[e].nextRetryAt.value;
  }

  lemma PositiveAttempt(r: Run, i: nat, e: ExecId, tid: Tid)
    requires IsRun(r) && i < |r.states| && e in r.states[i].db.execs
    requires tid in r.states[i].threads && r.states[i].threads[tid].Worker? && r.states[i].threads[tid].e == e
    ensures !r.states[i].threads[tid].work.Spawned? ==> r.states[i].threads[tid].work.attempt >= 1
  {
    hide IsRun;
    var birth, l := RowHasLife(r, i, e);
    assert Shows(r.states[birth + (i - birth)], e, l.cells[i - birth]);
    hide IsLife, LifeIn;
    CellOkAlways(l, |l.cells| - 1);
    assert tid in l.cells[|l.cells| - 1].workers;
  }
}
