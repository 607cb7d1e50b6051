/** What holds of every will in every run of the whole system. */
module WillTheorems {
  import opened Basics
  import opened Tables
  import opened Executions
  import opened WillLife
  import opened Protocol
  import opened Invariants
  import opened Projection

  // ----- the dead man's switch -----

  /** Check-ins of `w` are committed in the order of their clock readings. */
  ghost predicate Ordered(s: State, a: Step, w: WillId) {
    a.Owner? && a.w == w && a.own.CheckIn? && HasWill(s, w) && s.db.wills[w].status == Active
    ==> forall t | t in s.wlog[w].checkIns :: t <= a.own.now
  }

  ghost predicate ChecksInOrder(r: Run, w: WillId) {
    |r.steps| < |r.states| && forall i | 0 <= i < |r.steps| :: Ordered(r.states[i], r.steps[i], w)
  }

  lemma {:induction false} WillPersists(r: Run, i: nat, j: nat, w: WillId)
    requires IsRun(r) && i <= j < |r.states| && w in r.states[i].db.wills
    ensures w in r.states[j].db.wills
    decreases j
  {
    hide Enabled, Next, Init;
    if i < j {
      WillPersists(r, i, j - 1, w);
      RowsStay(r.states[j - 1], r.steps[j - 1]);
    }
  }

  /** The history of `w` up to state `j`, covering an earlier state `i` in which it exists. */
  lemma HistoryOf(r: Run, i: nat, j: nat, w: WillId) returns (birth: nat, h: WillHistory)
    requires IsRun(r) && i <= j < |r.states| && w in r.states[i].db.wills
    ensures birth <= i && |h.cells| == j - birth + 1 && HistoryIn(r, w, birth, h) && IsHistory(h)
    ensures ShowsWill(r.states[i], w, h.cells[i - birth])
    ensures ShowsWill(r.states[j], w, h.cells[|h.cells| - 1])
  {
    hide IsRun, IsHistory;
    WillPersists(r, i, j, w);
    birth, h := WillHasHistory(r, j, w);
    if i < birth {
      WillPersists(r, i, birth - 1, w);
    }
    assert ShowsWill(r.states[birth + (i - birth)], w, h.cells[i - birth]);
    assert ShowsWill(r.states[birth + (j - birth)], w, h.cells[j - birth]);
  }

  lemma HistoryInOrder(r: Run, w: WillId, birth: nat, h: WillHistory)
    requires HistoryIn(r, w, birth, h) && ChecksInOrder(r, w)
    ensures forall i | 0 <= i < |h.moves| :: InOrder(h.cells[i], h.moves[i])
  {
  }

  lemma DeadlinesHold(r: Run, i: nat, w: WillId)
    requires IsRun(r) && i < |r.states| && w in r.states[i].db.wills
    ensures HasWill(r.states[i], w) && DeadlineOk(WillCellOf(r.states[i], w))
    ensures ChecksInOrder(r, w) ==> LatestOnRecord(WillCellOf(r.states[i], w))
  {
    var birth, h := HistoryOf(r, i, i, w);
    hide IsRun, DeadlineOk, LatestOnRecord;
    DeadlineAlways(h, |h.cells| - 1);
    if ChecksInOrder(r, w) {
      HistoryInOrder(r, w, birth, h);
    }
  }

  lemma OnlyOverdueEnters(c: WillCell, m: WillMove)
    requires WillAllowed(c, m)
    requires c.row.status != PendingTrigger && WillMoved(c, m).row.status == PendingTrigger
    ensures m.Win? && Overdue(c.row, m.now)
  {
  }

  lemma WinIsTryPending(s: State, a: Step, w: WillId)
    requires WillMoveOf(s, a, w).Win?
    ensures a.Sched? && a.sop.TryPending? && a.sop.now == WillMoveOf(s, a, w).now
  {
  }

  /** The dead man's switch: when a will enters PENDING_TRIGGER, it is by the scheduler's compare-and-swap,
      and at its clock reading a full interval has passed since every check-in that ever succeeded,
      also one that raced with the sweep. */
  lemma NeverTriggersEarly(r: Run, i: nat, w: WillId)
    requires IsRun(r) && i < |r.steps| && w in r.states[i].db.wills && ChecksInOrder(r, w)
    requires r.states[i].db.wills[w].status != PendingTrigger
    requires w in r.states[i + 1].db.wills && r.states[i + 1].db.wills[w].status == PendingTrigger
    ensures r.steps[i].Sched? && r.steps[i].sop.TryPending?
    ensures HasWill(r.states[i], w)
    ensures forall t | t in r.states[i].wlog[w].checkIns ::
              t + r.states[i].db.wills[w].interval <= r.steps[i].sop.now
  {
    var s, a := r.states[i], r.steps[i];
    DeadlinesHold(r, i, w);
    InvAlways(r, i);
    WillProjects(s, a, w);
    hide Enabled, Next, Inv, WillMoved, WillAllowed, WillMoveOf;
    OnlyOverdueEnters(WillCellOf(s, w), WillMoveOf(s, a, w));
    WinIsTryPending(s, a, w);
    SwitchSafeIff(WillCellOf(s, w));
  }

  ghost predicate PastCheckIns(s: State) {
    forall w, t | w in s.wlog && t in s.wlog[w].checkIns :: t <= s.clock
  }

  lemma PastSched(s: State, a: SchedOp)
    requires PastCheckIns(s) && SchedEnabled(s, a)
    ensures PastCheckIns(AfterSched(s, a))
  {
  }

  lemma PastProc(s: State, tid: Tid, a: ProcOp)
    requires PastCheckIns(s) && ProcEnabled(s, tid, a)
    ensures PastCheckIns(AfterProcess(s, tid, a))
  {
  }

  lemma PastStep(s: State, a: Step)
    requires PastCheckIns(s) && Enabled(s, a)
    ensures PastCheckIns(Next(s, a))
  {
    hide AfterSched, AfterProcess, Work, OwnedRow;
    match a {
      case Sched(sop) => PastSched(s, sop);
      case Process(tid, pop) => PastProc(s, tid, pop);
      case _ =>
    }
  }

  lemma {:induction false} PastAlways(r: Run, i: nat)
    requires IsRun(r) && i < |r.states|
    ensures PastCheckIns(r.states[i])
  {
    if i > 0 {
      hide Enabled, Next, PastCheckIns, Init;
      PastAlways(r, i - 1);
      PastStep(r.states[i - 1], r.steps[i - 1]);
    }
  }

  /** Every check-in of `w` is written at the very second it reads the clock. */
  ghost predicate ReadsCurrentClock(r: Run, w: WillId) {
    |r.steps| < |r.states|
    && forall i | 0 <= i < |r.steps| && r.steps[i].Owner? && r.steps[i].w == w && r.steps[i].own.CheckIn? ::
      r.steps[i].own.now == r.states[i].clock
  }

  /** Then the order assumption holds by itself, because the clock does not go back. */
  lemma CurrentReadingsInOrder(r: Run, w: WillId)
    requires IsRun(r) && ReadsCurrentClock(r, w)
    ensures ChecksInOrder(r, w)
  {
    forall i | 0 <= i < |r.steps|
      ensures Ordered(r.states[i], r.steps[i], w)
    {
      PastAlways(r, i);
    }
  }

  /** Without the order assumption: in every reachable state, the guard of the compare-and-swap protects
      all committed check-ins exactly when the one on record has the latest reading. */
  lemma SwitchExact(r: Run, i: nat, w: WillId)
    requires IsRun(r) && i < |r.states| && w in r.states[i].db.wills
    requires r.states[i].db.wills[w].status == Active
    ensures HasWill(r.states[i], w)
    ensures SwitchSafe(WillCellOf(r.states[i], w)) <==> LatestOnRecord(WillCellOf(r.states[i], w))
  {
    DeadlinesHold(r, i, w);
    hide IsRun;
    SwitchSafeIff(WillCellOf(r.states[i], w));
  }

  // ----- activation -----

  /** A will that was activated and never checked in has its deadline in the past. */
  ghost predicate BornDue(s: State) {
    forall w | w in s.db.wills && (s.db.wills[w].status == Active || s.db.wills[w].status == Paused) ::
      s.db.wills[w].deadline.Some?
      && (s.db.wills[w].lastCheckIn.None? ==> s.db.wills[w].deadline.value <= s.clock)
  }

  lemma BornDueSched(s: State, a: SchedOp)
    requires BornDue(s) && SchedEnabled(s, a)
    ensures BornDue(AfterSched(s, a))
  {
  }

  lemma BornDueProc(s: State, tid: Tid, a: ProcOp)
    requires BornDue(s) && ProcEnabled(s, tid, a)
    ensures BornDue(AfterProcess(s, tid, a))
  {
  }

  lemma BornDueStep(s: State, a: Step)
    requires BornDue(s) && Enabled(s, a)
    ensures BornDue(Next(s, a))
  {
    hide AfterSched, AfterProcess, Work, OwnedLog;
    match a {
      case Sched(sop) => BornDueSched(s, sop);
      case Process(tid, pop) => BornDueProc(s, tid, pop);
      case _ =>
    }
  }

  lemma {:induction false} BornDueAlways(r: Run, i: nat)
    requires IsRun(r) && i < |r.states|
    ensures BornDue(r.states[i])
  {
    if i > 0 {
      hide Enabled, Next, BornDue, Init;
      BornDueAlways(r, i - 1);
      BornDueStep(r.states[i - 1], r.steps[i - 1]);
    }
  }

  /** An ACTIVE will can be triggered now if and only if it was never checked in, or a full interval has passed since
      the check-in on record: activation makes a will due at once, whatever its interval. */
  lemma DueNowIff(r: Run, i: nat, w: WillId)
    requires IsRun(r) && i < |r.states| && w in r.states[i].db.wills
    requires r.states[i].db.wills[w].status == Active
    ensures var s := r.states[i]; var row := s.db.wills[w];
      Overdue(row, s.clock) <==> row.lastCheckIn.None? || row.lastCheckIn.value + row.interval <= s.clock
  {
    BornDueAlways(r, i);
    DeadlinesHold(r, i, w);
    hide IsRun;
  }

  // ----- triggering once, and where every win ends up -----

  lemma OnceHolds(r: Run, i: nat, w: WillId)
    requires IsRun(r) && i < |r.states| && w in r.states[i].db.wills
    ensures HasWill(r.states[i], w) && WinsOk(WillCellOf(r.states[i], w)) && MadeOk(WillCellOf(r.states[i], w))
  {
    var birth, h := HistoryOf(r, i, i, w);
    hide IsRun, WinsOk, MadeOk, HistoryIn;
    OnceAlways(h, |h.cells| - 1);
  }

  /** A will is won at most once and processed at most once, and every win is in exactly one place:
      waiting for a slot, being processed, finished, dropped at a full pool, or killed by a crash. */
  lemma TriggeredAtMostOnce(r: Run, i: nat, w: WillId)
    requires IsRun(r) && i < |r.states| && w in r.states[i].db.wills
    ensures HasWill(r.states[i], w)
    ensures var s := r.states[i]; var log := s.wlog[w];
      && log.starts <= log.wins <= 1
      && log.wins == Bit(s.sched.Won? && s.sched.will == w) + Bit(Running(WillCellOf(s, w)))
                     + log.finishes + log.drops + log.kills
      && (log.wins == 1 ==> PastPending(s.db.wills[w].status))
  {
    OnceHolds(r, i, w);
    hide IsRun, MadeOk;
  }

  /** At most one execution row ever exists per action. */
  lemma OneRowPerAction(r: Run, i: nat, e: ExecId, f: ExecId)
    requires IsRun(r) && i < |r.states|
    requires e in r.states[i].db.execs && f in r.states[i].db.execs
    requires r.states[i].db.execs[e].action == r.states[i].db.execs[f].action
    ensures e == f
  {
    var s := r.states[i];
    InvAlways(r, i);
    assert ExecRefs(s.db, s.db.execs[e]) && ExecRefs(s.db, s.db.execs[f]);
    var w := s.db.execs[e].will;
    assert s.db.execs[f].will == w;
    hide IsRun, Inv;
    OnceHolds(r, i, w);
    var made := MadeOf(s, w);
    assert e in made && f in made && made[e] == made[f];
  }

  // ----- stranded work -----

  /** A won will in nobody's hands stays untriggered for good: no execution row is ever created for it. */
  lemma AbandonedWillStays(r: Run, i: nat, j: nat, w: WillId)
    requires IsRun(r) && i <= j < |r.states| && HasWill(r.states[i], w)
    requires Abandoned(WillCellOf(r.states[i], w))
    ensures HasWill(r.states[j], w) && MadeOf(r.states[j], w) == MadeOf(r.states[i], w)
    ensures r.states[j].db.wills[w].status in {r.states[i].db.wills[w].status, Archived}
    ensures r.states[j].wlog[w] == r.states[i].wlog[w]
  {
    var birth, h := HistoryOf(r, i, j, w);
    hide IsRun, IsHistory, HistoryIn, Abandoned, MadeOf;
    AbandonedForever(h, i - birth, |h.cells| - 1);
  }

  /** A QUEUED row no goroutine refers to. */
  ghost predicate Stranded(s: State, e: ExecId) {
    && e in s.db.execs && s.db.execs[e].status == Queued
    && forall tid | tid in s.threads :: !RefersTo(s.threads[tid], e)
  }

  predicate RefersTo(t: Thread, e: ExecId) {
    || (t.Worker? && t.e == e)
    || (t.Processor? && t.proc.Queuing? && t.proc.e == e)
  }

  lemma StrandedSched(s: State, a: SchedOp, e: ExecId)
    requires SchedOk(s) && SchedEnabled(s, a) && Stranded(s, e)
    ensures forall tid | tid in AfterSched(s, a).threads :: !RefersTo(AfterSched(s, a).threads[tid], e)
  {
  }

  lemma StrandedProc(s: State, tid: Tid, a: ProcOp, e: ExecId)
    requires ProcEnabled(s, tid, a) && Stranded(s, e)
    ensures forall t | t in AfterProcess(s, tid, a).threads :: !RefersTo(AfterProcess(s, tid, a).threads[t], e)
  {
  }

  lemma StrandedThreads(s: State, a: Step, e: ExecId)
    requires Inv(s) && Enabled(s, a) && Stranded(s, e)
    ensures forall tid | tid in Next(s, a).threads :: !RefersTo(Next(s, a).threads[tid], e)
  {
    hide AfterSched, AfterProcess, Work, OwnedRow, OwnedLog, WorkEnabled, PoolOk, KeysOk, RefsOk, ThreadsOk;
    match a {
      case Sched(sop) => StrandedSched(s, sop, e);
      case Process(tid, pop) => StrandedProc(s, tid, pop, e);
      case _ =>
    }
  }

  lemma StrandedStep(s: State, a: Step, e: ExecId)
    requires Inv(s) && Enabled(s, a) && Stranded(s, e)
    ensures Stranded(Next(s, a), e) && HasRows(s, e) && HasRows(Next(s, a), e)
    ensures Next(s, a).db.execs[e] == s.db.execs[e] && Next(s, a).tally[e] == s.tally[e]
  {
    StrandedThreads(s, a, e);
    assert ExecRefs(s.db, s.db.execs[e]);
    RowProjects(s, a, e);
    assert WorkersOf(s, e) == map[];
    assert !MoveOf(s, a, e).Act?;
    hide Enabled, Next, Work, MoveOf, WorkersOf, Inv;
  }

  /** Stranded rows never get a delivery, in any continuation. */
  lemma {:induction false} StrandedForever(r: Run, i: nat, j: nat, e: ExecId)
    requires IsRun(r) && i <= j < |r.states| && Stranded(r.states[i], e)
    ensures Stranded(r.states[j], e) && HasRows(r.states[i], e) && HasRows(r.states[j], e)
    ensures r.states[j].db.execs[e] == r.states[i].db.execs[e]
    ensures r.states[j].tally[e] == r.states[i].tally[e]
    decreases j
  {
    InvAlways(r, i);
    assert ExecRefs(r.states[i].db, r.states[i].db.execs[e]);
    if i < j {
      hide Enabled, Next, Init, Stranded, Inv, HasRows;
      StrandedForever(r, i, j - 1, e);
      InvAlways(r, j - 1);
      StrandedStep(r.states[j - 1], r.steps[j - 1], e);
    }
  }

  // ----- a pool of one -----

  /** Nothing but `processWill` ever runs. */
  ghost predicate Starved(s: State) {
    && (forall e | e in s.db.execs :: s.db.execs[e].status == Queued)
    && (forall tid | tid in s.threads :: !s.threads[tid].Worker?)
    && (s.sched.Retrying? ==> s.sched.due == [])
  }

  lemma FirstIsIn(execs: seq<ExecId>)
    ensures execs == [] || execs[0] in execs
  {
  }

  lemma StarvedSched(s: State, a: SchedOp)
    requires Starved(s) && SchedEnabled(s, a)
    ensures Starved(AfterSched(s, a))
  {
    match a {
      case ScanRetries(_, execs) => FirstIsIn(execs);
      case _ =>
    }
  }

  lemma StarvedProc(s: State, tid: Tid, a: ProcOp)
    requires Starved(s) && PoolOk(s) && s.capacity == 1 && ProcEnabled(s, tid, a)
    ensures Starved(AfterProcess(s, tid, a))
  {
  }

  lemma StarvedStep(s: State, a: Step)
    requires Inv(s) && Enabled(s, a) && Starved(s) && s.capacity == 1
    ensures Starved(Next(s, a)) && Next(s, a).capacity == 1
  {
    PoolStep(s, a);
    hide AfterSched, AfterProcess, Work, OwnedRow, OwnedLog, RefsOk, ThreadsOk, SchedOk, KeysOk;
    match a {
      case Sched(sop) => StarvedSched(s, sop);
      case Process(tid, pop) => StarvedProc(s, tid, pop);
      case _ =>
    }
  }

  /** With a single worker slot no execution row ever leaves QUEUED. */
  lemma {:induction false} SingleSlotStarves(r: Run, i: nat)
    requires IsRun(r) && i < |r.states| && r.states[0].capacity == 1
    ensures Starved(r.states[i]) && r.states[i].capacity == 1
  {
    if i > 0 {
      hide Enabled, Next, Init, Starved, Inv;
      SingleSlotStarves(r, i - 1);
      InvAlways(r, i - 1);
      StarvedStep(r.states[i - 1], r.steps[i - 1]);
    }
  }
}
