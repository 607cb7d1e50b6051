/** How a due row gets back to a worker: the retry scan finds it, the loop offers it to the pool, the worker claims it.
    From how often scans happen and how long each of these takes follows how long a due row waits, and from that,
    how long the retry loop lasts. */
module Pickup {
  import opened Basics
  import opened Tables
  import opened Executions
  import opened Protocol
  import opened Invariants
  import opened Drain
  import opened Projection
  import opened ExecutionTheorems

  // ----- assumptions on runs -----

  /** The statements of the loop that read the clock: stale claims are reset, overdue wills are asked for, due rows
      are asked for. */
  datatype Query = StaleClaims | OverdueWills | DueRetries

  predicate Asks(a: Step, q: Query) {
    a.Sched? &&
    match q
    case StaleClaims => a.sop.StartTick?
    case OverdueWills => a.sop.ScanOverdue?
    case DueRetries => a.sop.ScanRetries?
  }

  /** Step `k` reads the clock and runs its statement in the `period` seconds from `t` on. */
  ghost predicate AsksAt(r: Run, q: Query, k: nat, t: int, period: int) {
    k < |r.steps| && k < |r.states| && Asks(r.steps[k], q) && t <= r.steps[k].sop.now && r.states[k].clock <= t + period
  }

  ghost predicate AskedWithin(r: Run, q: Query, j: nat, t: int, period: int) {
    exists k :: 0 <= k < j && AsksAt(r, q, k, t, period)
  }

  /** Every window of `period` seconds contains such a statement. */
  ghost predicate AsksEvery(r: Run, q: Query, period: int) {
    forall t, j: nat | j < |r.states| && r.states[0].clock <= t && r.states[j].clock > t + period ::
      AskedWithin(r, q, j, t, period)
  }

  predicate IsScan(a: Step) {
    Asks(a, DueRetries)
  }

  ghost predicate ScansEvery(r: Run, period: int) {
    AsksEvery(r, DueRetries, period)
  }

  function DueRows(db: Database, now: int): set<ExecId> {
    set e | e in db.execs && Due(db.execs[e], now)
  }

  /** No scan meets more due rows than it takes up. */
  ghost predicate FewDue(s: State, a: Step) {
    IsScan(a) ==> |DueRows(s.db, a.sop.now)| <= SCAN_LIMIT
  }

  /** A scan has found the row, and the loop has not come to it yet. */
  ghost predicate Listed(s: State, e: ExecId) {
    s.sched.Retrying? && e in s.sched.due
  }

  /** The loop comes to the row and tries to start a worker for it. */
  ghost predicate Offers(s: State, a: Step, e: ExecId) {
    a.Sched? && a.sop.DispatchRetry? && s.sched.Retrying? && s.sched.due != [] && s.sched.due[0] == e
  }

  /** It finds a free slot. */
  ghost predicate FindsSlot(s: State, a: Step, e: ExecId) {
    Offers(s, a, e) ==> s.tokens < s.capacity
  }

  ghost predicate OfferedWithin(r: Run, e: ExecId, i: nat, j: nat, pass: int) {
    exists m :: 0 <= i <= m < j && m < |r.steps| && j <= |r.states| && Offers(r.states[m], r.steps[m], e)
      && r.states[m].clock <= r.states[i].clock + pass
  }

  /** The loop comes to every row a scan has found within `pass` seconds. */
  ghost predicate PassesIn(r: Run, e: ExecId, pass: int) {
    forall i: nat, j: nat | i <= j < |r.states| && Listed(r.states[i], e)
                            && r.states[j].clock > r.states[i].clock + pass ::
      OfferedWithin(r, e, i, j, pass)
  }

  ghost predicate Started(s: State, e: ExecId) {
    exists tid :: tid in s.threads && s.threads[tid] == Worker(e, Spawned)
  }

  /** A worker of the row makes its claim. */
  ghost predicate Claims(s: State, a: Step, e: ExecId) {
    a.Act? && a.op.Claim? && a.tid in s.threads && s.threads[a.tid].Worker? && s.threads[a.tid].e == e
    && s.threads[a.tid].work.Ready?
  }

  ghost predicate ClaimedBetween(r: Run, e: ExecId, i: nat, j: nat) {
    exists m :: 0 <= i <= m < j && m < |r.steps| && j <= |r.states| && Claims(r.states[m], r.steps[m], e)
  }

  /** When a worker has been started for the row, one makes its claim within `grab` seconds. */
  ghost predicate ClaimsIn(r: Run, e: ExecId, grab: int) {
    forall i: nat, j: nat | i <= j < |r.states| && Started(r.states[i], e)
                            && r.states[j].clock > r.states[i].clock + grab ::
      ClaimedBetween(r, e, i, j)
  }

  /** How the process serves the row `e`: retry scans every `period` seconds that meet at most ten due rows, at most
      `pass` seconds from the scan to the row's turn, a free slot at its turn, and at most `grab` seconds to the
      claim. */
  ghost predicate Serves(r: Run, e: ExecId, period: int, pass: int, grab: int) {
    && |r.steps| < |r.states|
    && ScansEvery(r, period) && PassesIn(r, e, pass) && ClaimsIn(r, e, grab)
    && forall k | 0 <= k < |r.steps| :: FewDue(r.states[k], r.steps[k]) && FindsSlot(r.states[k], r.steps[k], e)
  }

  /** Deliveries of the row take at most `delivery` seconds. */
  ghost predicate DeliversWithin(r: Run, e: ExecId, delivery: int) {
    forall i | 0 <= i < |r.states| && HasRows(r.states[i], e) :: DeliversIn(CellOf(r.states[i], e), delivery)
  }

  // ----- a due row is claimed in time -----

  lemma {:induction false} ClockGoesOn(r: Run, i: nat, j: nat)
    requires IsRun(r) && i <= j < |r.states|
    ensures r.states[i].clock <= r.states[j].clock
    decreases j
  {
    hide Enabled, Next, Init;
    if i < j {
      ClockGoesOn(r, i, j - 1);
      InvAlways(r, j - 1);
      assert PoolOk(r.states[j - 1]);
      PoolStep(r.states[j - 1], r.steps[j - 1]);
    }
  }

  /** In a stretch of a run that outlasts a window begun after its first second, the statement runs in that window. */
  lemma AskedInTime(r: Run, q: Query, i: nat, j: nat, t: int, period: int) returns (k: nat)
    requires IsRun(r) && AsksEvery(r, q, period) && i <= j < |r.states|
    requires t > r.states[i].clock && r.states[j].clock > t + period
    ensures i <= k < j && AsksAt(r, q, k, t, period) && r.steps[k].sop.now <= r.states[k].clock
    ensures Enabled(r.states[k], r.steps[k]) && r.states[k + 1] == Next(r.states[k], r.steps[k])
  {
    ClockGoesOn(r, 0, i);
    assert AskedWithin(r, q, j, t, period);
    k :| 0 <= k < j && AsksAt(r, q, k, t, period);
    assert Enabled(r.states[k], r.steps[k]) && r.states[k + 1] == Next(r.states[k], r.steps[k]);
    assert r.steps[k].sop.now <= r.states[k].clock;
    hide Enabled, Next;
    if k < i {
      ClockGoesOn(r, k, i);
    }
  }

  lemma SmallerSubset(a: set<ExecId>, b: set<ExecId>)
    requires a <= b && |a| >= |b|
    ensures a == b
  {
    if a != b {
      var x :| x in b && x !in a;
      assert a <= b - {x};
      SubsetSize(a, b - {x});
    }
  }

  lemma SubsetSize(a: set<ExecId>, b: set<ExecId>)
    requires a <= b
    ensures |a| <= |b|
  {
    if a != {} {
      var x :| x in a;
      SubsetSize(a - {x}, b - {x});
    }
  }

  lemma DistinctSize(execs: seq<ExecId>)
    requires NoDuplicates(execs)
    ensures |set e | e in execs| == |execs|
  {
    if execs != [] {
      var n := |execs| - 1;
      DistinctSize(execs[..n]);
      assert (set e | e in execs) == (set e | e in execs[..n]) + {execs[n]};
    }
  }

  /** A scan that meets at most ten due rows takes up all of them. */
  lemma FewAreFound(db: Database, now: int, execs: seq<ExecId>, e: ExecId)
    requires FindsDue(db, now, execs) && |DueRows(db, now)| <= SCAN_LIMIT
    requires e in db.execs && Due(db.execs[e], now)
    ensures e in execs
  {
    if |execs| == SCAN_LIMIT {
      var found := set x | x in execs;
      DistinctSize(execs);
      assert found <= DueRows(db, now);
      SmallerSubset(found, DueRows(db, now));
      assert e in DueRows(db, now);
      assert e in found;
    }
  }

  /** The row waits, FAILED and with the same retry time, from state `i` to state `j`. */
  ghost predicate WaitsIn(r: Run, e: ExecId, i: nat, j: nat, retryAt: int) {
    i <= j < |r.states| && forall m | i <= m <= j :: WaitsAt(r.states[m], e, retryAt)
  }

  ghost predicate WaitsAt(s: State, e: ExecId, retryAt: int) {
    e in s.db.execs && s.db.execs[e].status == Failed && s.db.execs[e].nextRetryAt == Some(retryAt)
  }

  lemma ScanLists(s: State, a: Step, e: ExecId)
    requires Enabled(s, a) && IsScan(a) && FewDue(s, a)
    requires e in s.db.execs && Due(s.db.execs[e], a.sop.now)
    ensures Listed(Next(s, a), e) && Next(s, a).clock == s.clock && a.sop.now <= s.clock
  {
    FewAreFound(s.db, a.sop.now, a.sop.execs, e);
  }

  lemma OfferStarts(s: State, a: Step, e: ExecId)
    requires Enabled(s, a) && Offers(s, a, e) && FindsSlot(s, a, e)
    ensures Started(Next(s, a), e) && Next(s, a).clock == s.clock
  {
    assert Next(s, a).threads[a.sop.tid] == Worker(e, Spawned);
  }

  lemma ClaimEndsWait(s: State, a: Step, e: ExecId, retryAt: int)
    requires Enabled(s, a) && Claims(s, a, e) && WaitsAt(s, e, retryAt)
    ensures !WaitsAt(Next(s, a), e, retryAt)
  {
  }

  /** Where in a run a waiting row is found by a scan, comes to its turn, and is claimed. */
  lemma FoundInTime(r: Run, e: ExecId, i: nat, j: nat, retryAt: int, period: int, pass: int, grab: int) returns (k: nat)
    requires IsRun(r) && Serves(r, e, period, pass, grab) && WaitsIn(r, e, i, j, retryAt) && pass >= 0 && grab >= 0
    requires r.states[j].clock > Max(retryAt, r.states[i].clock + 1) + period
    ensures i < k <= j && Listed(r.states[k], e)
    ensures r.states[k].clock <= Max(retryAt, r.states[i].clock + 1) + period
  {
    var m := AskedInTime(r, DueRetries, i, j, Max(retryAt, r.states[i].clock + 1), period);
    assert FewDue(r.states[m], r.steps[m]);
    hide Enabled, Next, FewDue;
    assert WaitsAt(r.states[m], e, retryAt);
    ScanLists(r.states[m], r.steps[m], e);
    k := m + 1;
  }

  /** A FAILED row waits at most from the first second in which it is due for a scan, its turn and the claim. */
  lemma ClaimedInTime(r: Run, e: ExecId, i: nat, j: nat, retryAt: int, period: int, pass: int, grab: int)
    requires IsRun(r) && Serves(r, e, period, pass, grab) && WaitsIn(r, e, i, j, retryAt)
    requires period >= 0 && pass >= 0 && grab >= 0
    ensures r.states[j].clock <= Max(retryAt, r.states[i].clock + 1) + period + pass + grab
  {
    var due := Max(retryAt, r.states[i].clock + 1);
    if r.states[j].clock > due + period + pass + grab {
      var k := FoundInTime(r, e, i, j, retryAt, period, pass, grab);
      assert OfferedWithin(r, e, k, j, pass);
      var m :| 0 <= k <= m < j && m < |r.steps| && j <= |r.states| && Offers(r.states[m], r.steps[m], e)
        && r.states[m].clock <= r.states[k].clock + pass;
      assert Enabled(r.states[m], r.steps[m]) && r.states[m + 1] == Next(r.states[m], r.steps[m]);
      assert FindsSlot(r.states[m], r.steps[m], e);
      hide Enabled, Next, Offers, Started, Claims;
      OfferStarts(r.states[m], r.steps[m], e);
      UnclaimedWhileWaiting(r, e, i, j, retryAt, m + 1);
    }
  }

  lemma UnclaimedWhileWaiting(r: Run, e: ExecId, i: nat, j: nat, retryAt: int, from: nat)
    requires IsRun(r) && WaitsIn(r, e, i, j, retryAt) && i <= from
    ensures !ClaimedBetween(r, e, from, j)
  {
    forall n | from <= n < j && n < |r.steps|
      ensures !Claims(r.states[n], r.steps[n], e)
    {
      assert Enabled(r.states[n], r.steps[n]) && r.states[n + 1] == Next(r.states[n], r.steps[n]);
      assert WaitsAt(r.states[n], e, retryAt) && WaitsAt(r.states[n + 1], e, retryAt);
      hide Enabled, Next, Claims, WaitsAt;
      if Claims(r.states[n], r.steps[n], e) {
        ClaimEndsWait(r.states[n], r.steps[n], e, retryAt);
      }
    }
  }

  // ----- so the retry loop ends in time -----

  lemma LifeWaits(r: Run, e: ExecId, birth: nat, l: Life, b: nat, i: nat)
    requires LifeIn(r, e, birth, l) && Waits(l, b, i)
    ensures WaitsIn(r, e, birth + b, birth + i, l.cells[i].row.nextRetryAt.value)
  {
    forall m | birth + b <= m <= birth + i
      ensures WaitsAt(r.states[m], e, l.cells[i].row.nextRetryAt.value)
    {
      assert Shows(r.states[birth + (m - birth)], e, l.cells[m - birth]);
      assert WaitsLike(l.cells[m - birth], l.cells[i]);
    }
  }

  lemma LifePickedUp(r: Run, e: ExecId, birth: nat, l: Life, period: int, pass: int, grab: int)
    requires IsRun(r) && LifeIn(r, e, birth, l) && Serves(r, e, period, pass, grab)
    requires period >= 0 && pass >= 0 && grab >= 0
    ensures PickedUp(l, period + pass + grab)
  {
    forall b: nat, i: nat | b <= i && Waits(l, b, i)
      ensures l.cells[i].clock <= DueFrom(l.cells[b]) + (period + pass + grab)
    {
      assert WaitsLike(l.cells[b], l.cells[i]);
      LifeWaits(r, e, birth, l, b, i);
      assert Shows(r.states[birth + b], e, l.cells[b]) && Shows(r.states[birth + i], e, l.cells[i]);
      hide IsRun, Serves;
      ClaimedInTime(r, e, birth + b, birth + i, l.cells[i].row.nextRetryAt.value, period, pass, grab);
    }
  }

  lemma LifeDelivers(r: Run, e: ExecId, birth: nat, l: Life, delivery: int)
    requires LifeIn(r, e, birth, l) && DeliversWithin(r, e, delivery)
    ensures forall i | 0 <= i < |l.cells| :: DeliversIn(l.cells[i], delivery)
  {
    forall i | 0 <= i < |l.cells|
      ensures DeliversIn(l.cells[i], delivery)
    {
      assert Shows(r.states[birth + i], e, l.cells[i]);
    }
  }

  /** The retry loop terminates: a claimed row that has not succeeded and lost no claim to a reset is EXHAUSTED once
      the clock has passed its first claim by the deliveries, the fixed backoff, and one scan period, turn and claim
      per retry. */
  lemma RetriesEndInTime(r: Run, d: Oracle, i: nat, e: ExecId, delivery: int, period: int, pass: int, grab: int)
    requires IsRun(r) && i < |r.states| && KeepsLease(r) && Deterministically(r, d) && Promptly(r, e)
    requires Serves(r, e, period, pass, grab) && DeliversWithin(r, e, delivery)
    requires delivery >= 0 && period >= 0 && pass >= 0 && grab >= 0
    requires HasRows(r.states[i], e) && d(e)
    requires var k := r.states[i].tally[e]; k.claims > 0 && k.resets == 0 && k.completions == 0
    requires var s := r.states[i];
      var retries := s.db.wills[s.db.execs[e].will].maxRetries;
      s.clock > s.tally[e].firstClaim + DrainBound(retries, delivery, period + pass + grab)
    ensures r.states[i].db.execs[e].status == Exhausted
  {
    hide IsRun, RegularLife, LifeIn, KeepsLease, Deterministically, Promptly;
    hide Serves, DeliversWithin, PickedUp, DrainBound;
    var birth, l := RegularRow(r, d, i, e);
    LifeDelivers(r, e, birth, l, delivery);
    LifePickedUp(r, e, birth, l, period, pass, grab);
    GivenUpInTime(l, |l.cells| - 1, delivery, period + pass + grab);
  }
}
