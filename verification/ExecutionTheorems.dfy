/** What holds of every execution row in every run of the whole system. */
module ExecutionTheorems {
  import opened Basics
  import opened Tables
  import opened Executions
  import opened Protocol
  import opened Invariants
  import opened Lease
  import opened Drain
  import opened Projection

  // ----- assumptions on runs -----

  /** Every goroutine holding a claim is still within the lease. */
  ghost predicate LeaseHeld(s: State) {
    forall tid | tid in s.threads && s.threads[tid].Worker? && s.threads[tid].work.Holding() ::
      s.clock <= s.threads[tid].work.started + LEASE
  }

  ghost predicate KeepsLease(r: Run) {
    forall i | 0 <= i < |r.states| :: LeaseHeld(r.states[i])
  }

  /** `d` tells which rows can be decrypted. */
  type Oracle = ExecId -> bool

  ghost predicate Follows(s: State, a: Step, d: Oracle) {
    a.Act? && a.op.Prepare? && !a.op.outcome.Abort? && a.tid in s.threads && s.threads[a.tid].Worker?
    ==> (a.op.outcome.Decrypted? <==> d(s.threads[a.tid].e))
  }

  ghost predicate Deterministically(r: Run, d: Oracle) {
    |r.steps| < |r.states| && forall i | 0 <= i < |r.steps| :: Follows(r.states[i], r.steps[i], d)
  }

  /** The claim of a worker is not overtaken by another worker's failure write. */
  ghost predicate Prompt(s: State, a: Step, e: ExecId) {
    a.Act? && a.op.Claim? && a.tid in s.threads && s.threads[a.tid].Worker? && s.threads[a.tid].e == e
    && s.threads[a.tid].work.Ready? && e in s.db.execs && Claimable(s.db.execs[e]) && e in s.tally
    ==> s.threads[a.tid].work.seen == s.tally[e].writes
  }

  ghost predicate Promptly(r: Run, e: ExecId) {
    |r.steps| < |r.states| && forall i | 0 <= i < |r.steps| :: Prompt(r.states[i], r.steps[i], e)
  }

  // ----- they carry over to the life of a row -----

  lemma LifeLease(r: Run, e: ExecId, birth: nat, l: Life)
    requires LifeIn(r, e, birth, l) && KeepsLease(r)
    ensures Leased(l)
  {
  }

  lemma LifeVerdict(r: Run, e: ExecId, birth: nat, l: Life, d: Oracle)
    requires IsRun(r) && LifeIn(r, e, birth, l) && Deterministically(r, d)
    ensures Deterministic(l, d(e))
  {
  }

  lemma LifePrompt(r: Run, e: ExecId, birth: nat, l: Life)
    requires LifeIn(r, e, birth, l) && Promptly(r, e)
    ensures Orderly(l)
  {
  }

  lemma {:induction false} RowPersists(r: Run, i: nat, j: nat, e: ExecId)
    requires IsRun(r) && i <= j < |r.states| && e in r.states[i].db.execs
    ensures e in r.states[j].db.execs && r.states[j].db.execs[e].action == r.states[i].db.execs[e].action
    decreases j
  {
    hide Enabled, Next, Init;
    if i < j {
      RowPersists(r, i, j - 1, e);
      RowsStay(r.states[j - 1], r.steps[j - 1]);
    }
  }

  /** The life of `e` up to state `j`, under the two standing assumptions; it covers
      every earlier state `i` in which the row exists. */
  lemma LeasedLife(r: Run, d: Oracle, i: nat, j: nat, e: ExecId) returns (birth: nat, l: Life)
    requires IsRun(r) && i <= j < |r.states| && e in r.states[i].db.execs
    requires KeepsLease(r) && Deterministically(r, d)
    ensures birth <= i && |l.cells| == j - birth + 1 && LifeIn(r, e, birth, l)
    ensures IsLife(l) && Leased(l) && Deterministic(l, d(e))
    ensures Shows(r.states[i], e, l.cells[i - birth])
    ensures Shows(r.states[j], e, l.cells[|l.cells| - 1])
  {
    hide IsRun, Leased, Deterministic, IsLife, KeepsLease, Deterministically;
    RowPersists(r, i, j, e);
    birth, l := RowHasLife(r, j, e);
    if i < birth {
      RowPersists(r, i, birth - 1, e);
    }
    LifeLease(r, e, birth, l);
    LifeVerdict(r, e, birth, l, d);
    assert Shows(r.states[birth + (i - birth)], e, l.cells[i - birth]);
    assert Shows(r.states[birth + (j - birth)], e, l.cells[j - birth]);
  }

  /** What the ledger of a row satisfies in every state. */
  lemma LedgerHolds(r: Run, d: Oracle, i: nat, e: ExecId)
    requires IsRun(r) && i < |r.states| && KeepsLease(r) && Deterministically(r, d)
    requires e in r.states[i].db.execs
    ensures HasRows(r.states[i], e) && LedgerInv(CellOf(r.states[i], e))
  {
    var birth, l := LeasedLife(r, d, i, i, e);
    hide IsRun, IsLife, LifeIn, Leased, Deterministic, KeepsLease, Deterministically, LedgerInv;
    LedgerAlways(l, d(e), |l.cells| - 1);
  }

  // ----- theorems -----

  /** Lease mutual exclusion: at most one live goroutine is between its claim of a row and the write
      that ends it, and the row then is IN_PROGRESS since that goroutine's claim. */
  lemma MutualExclusion(r: Run, d: Oracle, i: nat, t: Tid, u: Tid)
    requires IsRun(r) && i < |r.states| && KeepsLease(r) && Deterministically(r, d)
    requires var s := r.states[i];
      && t in s.threads && s.threads[t].Worker? && s.threads[t].work.Holding()
      && u in s.threads && s.threads[u].Worker? && s.threads[u].work.Holding()
      && s.threads[t].e == s.threads[u].e
    ensures t == u
    ensures var s := r.states[i]; var e := s.threads[t].e;
      && e in s.db.execs && s.db.execs[e].status == InProgress
      && s.db.execs[e].startedAt == Some(s.threads[t].work.started)
  {
    var s := r.states[i];
    var e := s.threads[t].e;
    InvAlways(r, i);
    assert ThreadRefs(s.db, s.threads[t]);
    var birth, l := LeasedLife(r, d, i, i, e);
    hide IsRun, Inv, IsLife, LifeIn, Leased, Deterministic;
    LeaseAlways(l, d(e), |l.cells| - 1);
    var workers := WorkersOf(s, e);
    assert t in workers && u in workers;
  }

  /** COMPLETED and EXHAUSTED are never left, although both finishing writes are unguarded. */
  lemma TerminalIsForever(r: Run, d: Oracle, i: nat, j: nat, e: ExecId)
    requires IsRun(r) && i <= j < |r.states| && KeepsLease(r) && Deterministically(r, d)
    requires e in r.states[i].db.execs && Terminal(r.states[i].db.execs[e])
    ensures e in r.states[j].db.execs
    ensures r.states[j].db.execs[e].status == r.states[i].db.execs[e].status
    ensures r.states[j].db.execs[e].attempt == r.states[i].db.execs[e].attempt
    ensures d(e) ==> r.states[j].db.execs[e] == r.states[i].db.execs[e]
  {
    var birth, l := LeasedLife(r, d, i, j, e);
    hide IsRun, IsLife, LifeIn, Leased, Deterministic, KeepsLease, Deterministically;
    TerminalForever(l, d(e), i - birth, |l.cells| - 1);
  }

  /** A success is recorded at most once, exactly when the row is COMPLETED; the notifier itself
      may succeed again only after a stale reset. */
  lemma AtMostOneSuccess(r: Run, d: Oracle, i: nat, e: ExecId)
    requires IsRun(r) && i < |r.states| && KeepsLease(r) && Deterministically(r, d)
    requires e in r.states[i].db.execs
    ensures e in r.states[i].tally
    ensures var k := r.states[i].tally[e];
      && k.completions == Bit(r.states[i].db.execs[e].status == Completed)
      && k.successes <= 1 + k.resets
  {
    LedgerHolds(r, d, i, e);
    hide IsRun, KeepsLease, Deterministically;
  }

  /** Conservation of attempts: every claim is the present one, was counted, was taken back,
      or had its count overwritten by a worker that had loaded an older one. */
  lemma AttemptsConserved(r: Run, d: Oracle, i: nat, e: ExecId)
    requires IsRun(r) && i < |r.states| && KeepsLease(r) && Deterministically(r, d)
    requires e in r.states[i].db.execs
    ensures HasRows(r.states[i], e)
    ensures var s := r.states[i]; var row, k := s.db.execs[e], s.tally[e];
      && k.claims == (row.attempt - 1) + k.resets + Bit(Settled(row)) + k.lost
      && k.calls <= k.claims <= Quota(s.db.wills[row.will].maxRetries) + k.resets + k.lost
  {
    LedgerHolds(r, d, i, e);
    hide IsRun, KeepsLease, Deterministically;
  }

  /** Nothing is lost when no claim is overtaken, so the number of notifier calls is bounded. */
  lemma CallsBounded(r: Run, d: Oracle, i: nat, e: ExecId)
    requires IsRun(r) && i < |r.states| && KeepsLease(r) && Deterministically(r, d) && Promptly(r, e)
    requires e in r.states[i].db.execs
    ensures HasRows(r.states[i], e)
    ensures var s := r.states[i]; var row, k := s.db.execs[e], s.tally[e];
      && k.claims == (row.attempt - 1) + k.resets + Bit(Settled(row))
      && k.calls <= Quota(s.db.wills[row.will].maxRetries) + k.resets
  {
    var birth, l := LeasedLife(r, d, i, i, e);
    LifePrompt(r, e, birth, l);
    AttemptsConserved(r, d, i, e);
    hide IsRun, IsLife, LifeIn, Leased, Deterministic, Orderly, KeepsLease, Deterministically, Promptly;
    OrderlyAlways(l, d(e), |l.cells| - 1);
  }

  /** A row that cannot be decrypted is never claimed and never delivered; unless one attempt is all
      it gets, it is never given up either. No lease is needed. */
  lemma UndecryptableNeverEnds(r: Run, d: Oracle, i: nat, e: ExecId)
    requires IsRun(r) && i < |r.states| && Deterministically(r, d) && !d(e)
    requires e in r.states[i].db.execs
    ensures HasRows(r.states[i], e)
    ensures var s := r.states[i]; var row, k := s.db.execs[e], s.tally[e];
      && row.attempt == 1 && k.claims == 0 && k.calls == 0
      && row.status ==
         if k.writes == 0 then Queued
         else if s.db.wills[row.will].maxRetries > 1 then Failed
         else Exhausted
  {
    hide IsRun, Deterministically;
    var birth, l := RowHasLife(r, i, e);
    LifeVerdict(r, e, birth, l, d);
    assert Shows(r.states[birth + (i - birth)], e, l.cells[i - birth]);
    hide IsLife, LifeIn, Deterministic;
    HopelessAlways(l, |l.cells| - 1);
  }

  /** The life of a row with every assumption in place. */
  lemma RegularRow(r: Run, d: Oracle, i: nat, e: ExecId) returns (birth: nat, l: Life)
    requires IsRun(r) && i < |r.states| && KeepsLease(r) && Deterministically(r, d) && Promptly(r, e)
    requires e in r.states[i].db.execs && d(e)
    ensures RegularLife(l) && LifeIn(r, e, birth, l) && |l.cells| == i - birth + 1 && birth <= i
    ensures Shows(r.states[i], e, l.cells[|l.cells| - 1])
  {
    birth, l := LeasedLife(r, d, i, i, e);
    LifePrompt(r, e, birth, l);
  }

  /** A decryptable row that is exhausted without a reset was delivered exactly max(1, retries - 1)
      times and was told to wait a total fixed by `retries`. */
  lemma ExhaustionIsExact(r: Run, d: Oracle, i: nat, e: ExecId)
    requires IsRun(r) && i < |r.states| && KeepsLease(r) && Deterministically(r, d) && Promptly(r, e)
    requires HasRows(r.states[i], e) && d(e)
    requires r.states[i].db.execs[e].status == Exhausted && r.states[i].tally[e].resets == 0
    ensures var s := r.states[i]; var k, retries := s.tally[e], s.db.wills[s.db.execs[e].will].maxRetries;
      k.calls == Quota(retries) && k.backoff == TotalBackoff(retries)
  {
    var birth, l := RegularRow(r, d, i, e);
    hide IsRun, RegularLife, LifeIn, KeepsLease, Deterministically, Promptly;
    ExhaustedAfterQuota(l, |l.cells| - 1);
  }

  /** The time stamps each status comes with, and that goroutines never outnumber the pool. */
  lemma StampsAndPool(r: Run, i: nat)
    requires IsRun(r) && i < |r.states|
    ensures var s := r.states[i]; s.tokens == |s.threads| <= s.capacity
    ensures forall e | e in r.states[i].db.execs :: StampsOk(r.states[i].db.execs[e], r.states[i].clock)
  {
    InvAlways(r, i);
    forall e | e in r.states[i].db.execs
      ensures StampsOk(r.states[i].db.execs[e], r.states[i].clock)
    {
      hide IsRun, Inv;
      var birth, l := RowHasLife(r, i, e);
      assert Shows(r.states[birth + (i - birth)], e, l.cells[i - birth]);
      hide IsLife, LifeIn;
      CellOkAlways(l, |l.cells| - 1);
    }
  }

  /** A FAILED row is picked up by every retry scan whose reading is a day past it. */
  lemma FailedBecomesDue(r: Run, i: nat, e: ExecId, now: int)
    requires IsRun(r) && i < |r.states| && e in r.states[i].db.execs
    requires r.states[i].db.execs[e].status == Failed && now >= r.states[i].clock + LONGEST_DELAY
    ensures Due(r.states[i].db.execs[e], now)
  {
    StampsAndPool(r, i);
    hide IsRun;
    assert StampsOk(r.states[i].db.execs[e], r.states[i].clock);
  }
}
