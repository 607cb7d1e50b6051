/** Two of the operational objectives of section 16 of Digitalwilldesigndoc.md: how long a passed deadline can go
    unnoticed, and how long a row can stay IN_PROGRESS, given how often the scheduler ticks. */
module Objectives {
  import opened Basics
  import opened Tables
  import opened WillLife
  import opened Executions
  import opened Protocol
  import opened Projection
  import opened WillTheorems
  import opened Pickup

  // ----- a passed deadline -----

  /** The loop of a tick comes to the will, with a clock reading not older than `now`. */
  ghost predicate Tries(s: State, a: Step, w: WillId, now: int) {
    a.Sched? && a.sop.TryPending? && now <= a.sop.now && s.sched.Sweep? && s.sched.overdue != []
    && s.sched.overdue[0] == w
  }

  ghost predicate TriedWithin(r: Run, w: WillId, k: nat, j: nat, now: int, pass: int) {
    exists m :: 0 <= k < m < j && m < |r.steps| && j <= |r.states| && Tries(r.states[m], r.steps[m], w, now)
      && r.states[m].clock <= r.states[k].clock + pass
  }

  ghost predicate Lists(a: Step, w: WillId) {
    Asks(a, OverdueWills) && w in a.sop.wills
  }

  /** The loop comes to every will such a query has found within `pass` seconds; its readings do not go back. */
  ghost predicate TriesIn(r: Run, w: WillId, pass: int) {
    forall k: nat, j: nat | k < j < |r.states| && k < |r.steps| && Lists(r.steps[k], w)
                            && r.states[j].clock > r.states[k].clock + pass ::
      TriedWithin(r, w, k, j, r.steps[k].sop.now, pass)
  }

  /** The will is ACTIVE with this very deadline: no check-in was committed and no trigger won. */
  ghost predicate AwaitsAt(s: State, w: WillId, deadline: int) {
    w in s.db.wills && s.db.wills[w].status == Active && s.db.wills[w].deadline == Some(deadline)
  }

  ghost predicate Awaits(r: Run, w: WillId, i: nat, j: nat, deadline: int) {
    i <= j < |r.states| && forall m | i <= m <= j :: AwaitsAt(r.states[m], w, deadline)
  }

  lemma SweepLists(s: State, a: Step, w: WillId, deadline: int)
    requires Enabled(s, a) && Asks(a, OverdueWills) && AwaitsAt(s, w, deadline) && deadline <= a.sop.now
    ensures Lists(a, w)
  {
  }

  lemma TryWins(s: State, a: Step, w: WillId, deadline: int, now: int)
    requires Enabled(s, a) && HasWill(s, w) && Tries(s, a, w, now) && AwaitsAt(s, w, deadline) && deadline <= now
    ensures !AwaitsAt(Next(s, a), w, deadline)
  {
  }

  /** The query at which a will past its deadline is found. */
  lemma SweptInTime(r: Run, w: WillId, i: nat, j: nat, deadline: int, period: int) returns (k: nat)
    requires IsRun(r) && AsksEvery(r, OverdueWills, period) && Awaits(r, w, i, j, deadline)
    requires r.states[j].clock > Max(deadline, r.states[i].clock + 1) + period
    ensures i <= k < j && k < |r.steps| && Lists(r.steps[k], w) && deadline <= r.steps[k].sop.now
    ensures r.states[k].clock <= Max(deadline, r.states[i].clock + 1) + period
  {
    k := AskedInTime(r, OverdueWills, i, j, Max(deadline, r.states[i].clock + 1), period);
    hide Next;
    assert AwaitsAt(r.states[k], w, deadline);
    SweepLists(r.states[k], r.steps[k], w, deadline);
  }

  /** OHO-2. A will stays ACTIVE past its deadline for at most one period of ticks and its turn in one, counted from
      the deadline or from the second after the one in which this deadline was written, whichever is later. */
  lemma DeadlineNoticedInTime(r: Run, w: WillId, i: nat, j: nat, deadline: int, period: int, pass: int)
    requires IsRun(r) && AsksEvery(r, OverdueWills, period) && TriesIn(r, w, pass) && Awaits(r, w, i, j, deadline)
    requires period >= 0 && pass >= 0
    ensures r.states[j].clock <= Max(deadline, r.states[i].clock + 1) + period + pass
  {
    if r.states[j].clock > Max(deadline, r.states[i].clock + 1) + period + pass {
      var k := SweptInTime(r, w, i, j, deadline, period);
      assert TriedWithin(r, w, k, j, r.steps[k].sop.now, pass);
      var now := r.steps[k].sop.now;
      var m :| 0 <= k < m < j && m < |r.steps| && j <= |r.states| && Tries(r.states[m], r.steps[m], w, now)
        && r.states[m].clock <= r.states[k].clock + pass;
      assert AwaitsAt(r.states[m], w, deadline) && AwaitsAt(r.states[m + 1], w, deadline);
      assert Enabled(r.states[m], r.steps[m]) && r.states[m + 1] == Next(r.states[m], r.steps[m]);
      DeadlinesHold(r, m, w);
      hide Enabled, Next;
      TryWins(r.states[m], r.steps[m], w, deadline, now);
    }
  }

  // ----- a row whose worker is gone -----

  /** The row is IN_PROGRESS since this claim. */
  ghost predicate HeldAt(s: State, e: ExecId, started: int) {
    e in s.db.execs && s.db.execs[e].status == InProgress && s.db.execs[e].startedAt == Some(started)
  }

  ghost predicate Held(r: Run, e: ExecId, i: nat, j: nat, started: int) {
    i <= j < |r.states| && forall m | i <= m <= j :: HeldAt(r.states[m], e, started)
  }

  lemma TickEndsClaim(s: State, a: Step, e: ExecId, started: int)
    requires Enabled(s, a) && Asks(a, StaleClaims) && HeldAt(s, e, started) && started + LEASE < a.sop.now
    ensures !HeldAt(Next(s, a), e, started)
  {
  }

  /** OHO-3. Whether its worker lives or not, a row stays IN_PROGRESS since one claim for at most the lease, a second,
      and one period of ticks. */
  lemma ClaimEndsInTime(r: Run, e: ExecId, i: nat, j: nat, started: int, period: int)
    requires IsRun(r) && AsksEvery(r, StaleClaims, period) && Held(r, e, i, j, started) && period >= 0
    ensures r.states[j].clock <= Max(started + 601, r.states[i].clock + 1) + period
  {
    var t := Max(started + LEASE + 1, r.states[i].clock + 1);
    if r.states[j].clock > t + period {
      var k := AskedInTime(r, StaleClaims, i, j, t, period);
      assert HeldAt(r.states[k], e, started) && HeldAt(r.states[k + 1], e, started);
      TickEndsClaim(r.states[k], r.steps[k], e, started);
    }
  }
}
