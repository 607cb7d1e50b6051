/** A sufficient condition, step by step, for a process that serves a row without delay: the clock moves only
    while nothing is under way for the row. */
module Attentive {
  import opened Tables
  import opened Executions
  import opened WillLife
  import opened Protocol
  import opened Invariants
  import opened Drain
  import opened Projection
  import opened ExecutionTheorems
  import opened Pickup

  predicate Underway(t: Thread, e: ExecId) {
    t.Worker? && t.e == e && (t.work.Spawned? || t.work.Loaded? || t.work.Ready?)
  }

  ghost predicate Begun(s: State, e: ExecId) {
    exists tid :: tid in s.threads && Underway(s.threads[tid], e)
  }

  ghost predicate AtRest(s: State, e: ExecId) {
    !Listed(s, e) && !Begun(s, e) && (e in s.db.execs ==> s.db.execs[e].status != InProgress)
  }

  ghost predicate WorksAtOnce(s: State, a: Step, e: ExecId) {
    a.Act? && a.tid in s.threads && s.threads[a.tid].Worker? && s.threads[a.tid].e == e ==>
      && (a.op.Prepare? ==> a.op.outcome.Decrypted?)
      && (a.op.Claim? ==> a.op.now == s.clock)
  }

  ghost predicate Attends(s: State, a: Step, e: ExecId) {
    && !a.Crash? && (a.Advance? ==> AtRest(s, e))
    && FewDue(s, a) && FindsSlot(s, a, e) && Prompt(s, a, e) && WorksAtOnce(s, a, e)
  }

  ghost predicate AlwaysAttends(r: Run, e: ExecId) {
    |r.steps| < |r.states| && forall i | 0 <= i < |r.steps| :: Attends(r.states[i], r.steps[i], e)
  }

  lemma ListedStep(s: State, a: Step, e: ExecId)
    requires Enabled(s, a) && !a.Crash? && Listed(s, e) && !Offers(s, a, e)
    ensures Listed(Next(s, a), e)
  {
    hide AfterProcess, AfterAct, OwnedRow, OwnedLog, Work;
    match a {
      case Process(tid, pop) => ProcessKeepsLoop(s, tid, pop);
      case Act(tid, op) =>
        assert AfterAct(s, tid, op).sched == s.sched by { ActKeepsLoop(s, tid, op); }
      case _ =>
    }
  }

  lemma ProcessKeepsLoop(s: State, tid: Tid, a: ProcOp)
    requires ProcEnabled(s, tid, a)
    ensures AfterProcess(s, tid, a).sched == s.sched
  {
  }

  lemma ActKeepsLoop(s: State, tid: Tid, op: WorkOp)
    requires ActEnabled(s, tid, op)
    ensures AfterAct(s, tid, op).sched == s.sched
  {
    hide Work;
  }

  lemma BegunStep(s: State, a: Step, e: ExecId)
    requires Enabled(s, a) && Begun(s, e) && !Claims(s, a, e) && !a.Crash? && WorksAtOnce(s, a, e)
    ensures Begun(Next(s, a), e)
  {
    var tid :| tid in s.threads && Underway(s.threads[tid], e);
    hide OwnedRow, OwnedLog, ResetRow, ResetTally, Overdue;
    assert tid in Next(s, a).threads && Underway(Next(s, a).threads[tid], e);
  }

  lemma {:induction false} OfferedBefore(r: Run, e: ExecId, i: nat, k: nat) returns (m: nat)
    requires IsRun(r) && AlwaysAttends(r, e) && i <= k < |r.states| && Listed(r.states[i], e) && !Listed(r.states[k], e)
    ensures i <= m < k && Offers(r.states[m], r.steps[m], e)
    decreases k - i
  {
    hide Enabled, Next, Init, Listed, Offers;
    assert Attends(r.states[i], r.steps[i], e);
    if Offers(r.states[i], r.steps[i], e) {
      m := i;
    } else {
      ListedStep(r.states[i], r.steps[i], e);
      m := OfferedBefore(r, e, i + 1, k);
    }
  }

  lemma {:induction false} ClaimedBefore(r: Run, e: ExecId, i: nat, k: nat) returns (m: nat)
    requires IsRun(r) && AlwaysAttends(r, e) && i <= k < |r.states| && Begun(r.states[i], e) && !Begun(r.states[k], e)
    ensures i <= m < k && Claims(r.states[m], r.steps[m], e)
    decreases k - i
  {
    hide Enabled, Next, Init, Begun, Claims;
    assert Attends(r.states[i], r.steps[i], e);
    if Claims(r.states[i], r.steps[i], e) {
      m := i;
    } else {
      BegunStep(r.states[i], r.steps[i], e);
      m := ClaimedBefore(r, e, i + 1, k);
    }
  }

  lemma OnlyAdvanceMovesClock(s: State, a: Step)
    requires Enabled(s, a) && Inv(s) && !a.Advance?
    ensures Next(s, a).clock == s.clock
  {
    hide AfterProcess, AfterSched, Work, OwnedRow, OwnedLog;
    match a {
      case Process(tid, pop) => ProcPool(s, tid, pop);
      case Sched(sop) => SchedPool(s, sop);
      case _ =>
    }
  }

  /** The first step at which the clock leaves the second of state `i`. */
  lemma {:induction false} FirstAdvance(r: Run, i: nat, j: nat) returns (k: nat)
    requires IsRun(r) && i <= j < |r.states| && r.states[j].clock > r.states[i].clock
    ensures i <= k < j && r.steps[k].Advance? && r.states[k].clock == r.states[i].clock
    decreases j - i
  {
    hide Enabled, Next, Init, Inv;
    if r.steps[i].Advance? {
      k := i;
    } else {
      InvAlways(r, i);
      OnlyAdvanceMovesClock(r.states[i], r.steps[i]);
      k := FirstAdvance(r, i + 1, j);
    }
  }

  lemma AttendsPasses(r: Run, e: ExecId)
    requires IsRun(r) && AlwaysAttends(r, e)
    ensures PassesIn(r, e, 0)
  {
    hide Enabled, Next, Init, Listed, Offers;
    forall i: nat, j: nat | i <= j < |r.states| && Listed(r.states[i], e) && r.states[j].clock > r.states[i].clock + 0
      ensures OfferedWithin(r, e, i, j, 0)
    {
      var k := FirstAdvance(r, i, j);
      assert Attends(r.states[k], r.steps[k], e);
      var m := OfferedBefore(r, e, i, k);
      ClockGoesOn(r, m, k);
      assert Offers(r.states[m], r.steps[m], e);
    }
  }

  lemma AttendsClaims(r: Run, e: ExecId)
    requires IsRun(r) && AlwaysAttends(r, e)
    ensures ClaimsIn(r, e, 0)
  {
    hide Enabled, Next, Init, Claims;
    forall i: nat, j: nat | i <= j < |r.states| && Started(r.states[i], e) && r.states[j].clock > r.states[i].clock + 0
      ensures ClaimedBetween(r, e, i, j)
    {
      var tid :| tid in r.states[i].threads && r.states[i].threads[tid] == Worker(e, Spawned);
      assert Underway(r.states[i].threads[tid], e);
      var k := FirstAdvance(r, i, j);
      assert Attends(r.states[k], r.steps[k], e);
      var m := ClaimedBefore(r, e, i, k);
      assert Claims(r.states[m], r.steps[m], e);
    }
  }

  /** A delivery under way was claimed in this very second. */
  ghost predicate ClaimedNow(s: State, e: ExecId) {
    e in s.db.execs && s.db.execs[e].status == InProgress && s.db.execs[e].startedAt.Some?
    ==> s.clock <= s.db.execs[e].startedAt.value
  }

  lemma SchedClaimsNothing(s: State, a: SchedOp, e: ExecId)
    requires SchedEnabled(s, a) && ClaimedNow(s, e)
    ensures ClaimedNow(AfterSched(s, a), e)
  {
    hide ResetTally;
  }

  lemma ProcessClaimsNothing(s: State, tid: Tid, a: ProcOp, e: ExecId)
    requires ProcEnabled(s, tid, a) && ClaimedNow(s, e)
    ensures ClaimedNow(AfterProcess(s, tid, a), e)
  {
  }

  lemma ClaimedNowStep(s: State, a: Step, e: ExecId)
    requires Enabled(s, a) && Attends(s, a, e) && ClaimedNow(s, e)
    ensures ClaimedNow(Next(s, a), e)
  {
    hide AfterSched, AfterProcess, OwnedRow, OwnedLog, FewDue, FindsSlot, Prompt, Listed, Begun;
    match a {
      case Sched(sop) => SchedClaimsNothing(s, sop, e);
      case Process(tid, pop) => ProcessClaimsNothing(s, tid, pop, e);
      case _ =>
    }
  }

  lemma {:induction false} ClaimedNowAlways(r: Run, e: ExecId, i: nat)
    requires IsRun(r) && AlwaysAttends(r, e) && i < |r.states|
    ensures ClaimedNow(r.states[i], e)
  {
    if i > 0 {
      hide Enabled, Next, Init, Attends, ClaimedNow;
      ClaimedNowAlways(r, e, i - 1);
      assert Attends(r.states[i - 1], r.steps[i - 1], e);
      ClaimedNowStep(r.states[i - 1], r.steps[i - 1], e);
    }
  }

  /** An attentive process serves the row with no delay but the scan period. */
  lemma AttendsServes(r: Run, e: ExecId, period: int)
    requires IsRun(r) && AlwaysAttends(r, e) && ScansEvery(r, period)
    ensures Serves(r, e, period, 0, 0) && DeliversWithin(r, e, 0) && Promptly(r, e)
  {
    AttendsPasses(r, e);
    AttendsClaims(r, e);
    hide IsRun, ScansEvery, PassesIn, ClaimsIn, FewDue, FindsSlot, Prompt, WorksAtOnce, AtRest;
    forall i | 0 <= i < |r.steps|
      ensures FewDue(r.states[i], r.steps[i]) && FindsSlot(r.states[i], r.steps[i], e)
      ensures Prompt(r.states[i], r.steps[i], e)
    {
      assert Attends(r.states[i], r.steps[i], e);
    }
    forall i | 0 <= i < |r.states| && HasRows(r.states[i], e)
      ensures DeliversIn(CellOf(r.states[i], e), 0)
    {
      ClaimedNowAlways(r, e, i);
    }
  }
}
