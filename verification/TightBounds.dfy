/** The bounds of `Objectives` are attained: runs with every tick on time that use them up to the last second. */
module TightBounds {
  import opened Basics
  import opened Tables
  import opened Executions
  import opened WillLife
  import opened Protocol
  import opened ExecutionTheorems
  import opened Pickup
  import opened Objectives
  import opened Traces

  // ----- a row whose worker is gone -----

  /** Every second up to the present had a tick within `period` seconds. */
  ghost predicate TickedSoFar(r: Run, period: int) {
    |r.states| > 0 && forall t | 0 <= t <= r.Last().clock :: AskedWithin(r, StaleClaims, |r.steps|, t, period)
  }

  function Unclaimed(clock: int): Tail {
    Tail(clock, true, 0, Idle, map[], ClaimedRow(NewExec("a", "w"), 0),
         NO_TALLY.(claims := 1, calls := 1, successes := 1))
  }

  /** A whole beat while the claim made at 0 is not stale yet. */
  lemma EmptyBeat(r: Run, capacity: nat, clock: int, i: nat) returns (r': Run)
    requires Good(r, ALL) && |r.states| > 0 && r.Last() == Late(capacity, 3, Unclaimed(clock)) && clock <= LEASE
    requires HeldSince(r, i)
    ensures Good(r', ALL) && |r'.states| > 0 && r'.states[0] == r.states[0] && GoesOn(r, r')
    ensures r'.Last() == Late(capacity, 3, Unclaimed(clock)) && HeldSince(r', i)
    ensures forall t, period | t <= clock <= t + period :: AskedWithin(r', StaleClaims, |r'.steps|, t, period)
  {
    var t := Unclaimed(clock);
    assert ResetRow(t.row, clock) == t.row && ResetTally(t.row, t.k, clock) == t.k;
    assert r.Last().clock == clock;
    SameLength(r, ALL);
    hide Good, Late, Hop, ResetRow, ResetTally;
    var r1 := QuietTick(r, capacity, 3, t, clock, ALL);
    HopSkip(capacity, 3, t.(sched := TickDone), ALL);
    r' := Follow(r1, Sched(SkipRetries), Late(capacity, 3, t), ALL);
    GoesOnOn(r, r1, r');
    SameRows(capacity, 3, t, TickDone);
    HeldOn(r, r', i, capacity, clock);
    assert r'.states[|r.steps|] == r.Last() && r'.steps[|r.steps|] == Sched(StartTick(clock));
    forall t, period | t <= clock <= t + period
      ensures AskedWithin(r', StaleClaims, |r'.steps|, t, period)
    {
      assert AsksAt(r', StaleClaims, |r.steps|, t, period);
    }
  }

  ghost predicate HeldSince(r: Run, i: nat) {
    |r.states| > 0 && Held(r, "e", i, |r.states| - 1, 0)
  }

  lemma HeldOn(r: Run, r': Run, i: nat, capacity: nat, clock: int)
    requires HeldSince(r, i) && GoesOn(r, r')
    requires forall m | |r.states| <= m < |r'.states| :: r'.states[m].db == Late(capacity, 3, Unclaimed(clock)).db
    ensures HeldSince(r', i)
  {
  }

  lemma MoreTicks(r: Run, r': Run, from: int, to: int, period: int)
    requires GoesOn(r, r') && TickedSoFar(r, period) && r.Last().clock == from <= to == r'.Last().clock <= from + period
    requires forall t | t <= to <= t + period :: AskedWithin(r', StaleClaims, |r'.steps|, t, period)
    ensures TickedSoFar(r', period)
  {
    forall t | 0 <= t <= to
      ensures AskedWithin(r', StaleClaims, |r'.steps|, t, period)
    {
      if t <= from {
        assert AskedWithin(r, StaleClaims, |r.steps|, t, period);
        var k :| 0 <= k < |r.steps| && AsksAt(r, StaleClaims, k, t, period);
        assert AsksAt(r', StaleClaims, k, t, period);
      }
    }
  }

  /** Ticks every `period` seconds up to the end of the lease. */
  lemma {:induction false} TickAlong(r: Run, capacity: nat, clock: int, period: int, i: nat) returns (r': Run)
    requires Good(r, ALL) && |r.states| > 0 && r.Last() == Late(capacity, 3, Unclaimed(clock)) && clock <= LEASE
    requires TickedSoFar(r, period) && period > 0 && HeldSince(r, i)
    ensures Good(r', ALL) && |r'.states| > 0 && r'.states[0] == r.states[0] && GoesOn(r, r')
    ensures r'.Last() == Late(capacity, 3, Unclaimed(LEASE)) && TickedSoFar(r', period) && HeldSince(r', i)
    decreases LEASE - clock
  {
    hide Good, TickedSoFar, AskedWithin, GoesOn, HeldSince;
    if clock < LEASE {
      var next := if clock + period <= LEASE then clock + period else LEASE;
      var r1 := Wait(r, capacity, 3, Unclaimed(clock), next, ALL);
      HeldOn(r, r1, i, capacity, next);
      var r2 := EmptyBeat(r1, capacity, next, i);
      GoesOnOn(r, r1, r2);
      MoreTicks(r, r2, clock, next, period);
      r' := TickAlong(r2, capacity, next, period, i);
      GoesOnOn(r, r2, r');
    } else {
      r' := r;
      SameRun(r);
    }
  }

  lemma SameRun(r: Run)
    requires |r.states| > 0
    ensures GoesOn(r, r)
  {
  }

  lemma TicksSuffice(r: Run, r': Run, period: int)
    requires IsRun(r') && GoesOn(r, r') && TickedSoFar(r, period) && r.Last().clock == LEASE
    requires r'.states[0].clock == 0 && r'.Last().clock == LEASE + 1 + period
    ensures AsksEvery(r', StaleClaims, period)
  {
    forall t, j: nat | j < |r'.states| && r'.states[0].clock <= t && r'.states[j].clock > t + period
      ensures AskedWithin(r', StaleClaims, j, t, period)
    {
      ClockGoesOn(r', j, |r'.states| - 1);
      assert AskedWithin(r, StaleClaims, |r.steps|, t, period);
      var k :| 0 <= k < |r.steps| && AsksAt(r, StaleClaims, k, t, period);
      assert AsksAt(r', StaleClaims, k, t, period);
      if j <= k {
        ClockGoesOn(r', j, k);
      }
    }
  }

  /** Section 16 gives an IN_PROGRESS row ten minutes. For every period of ticks there is a run, with every tick on
      time, in which a row whose worker is gone stays IN_PROGRESS for the lease, a second and a whole period. */
  lemma ClaimOverstays(capacity: nat, period: int) returns (r: Run, i: nat)
    requires capacity >= 2 && period > 0
    ensures IsRun(r) && KeepsLease(r) && Deterministically(r, ALL.d) && AsksEvery(r, StaleClaims, period)
    ensures Held(r, "e", i, |r.states| - 1, 0) && r.states[i].clock == 0
    ensures r.Last().threads == map[] && r.Last().clock == 601 + period
  {
    var t, r0;
    r0, t := CrashedUnrecorded(capacity);
    i := |r0.states| - 1;
    assert t == Unclaimed(0) && r0.Last().clock == 0;
    var r1 := EmptyBeat(r0, capacity, 0, i);
    FirstTick(r1, capacity, period);
    hide TickedSoFar, AsksEvery, AskedWithin, HeldSince;
    var r2 := TickAlong(r1, capacity, 0, period, i);
    r := Wait(r2, capacity, 3, Unclaimed(LEASE), LEASE + 1 + period, ALL);
    HeldOn(r2, r, i, capacity, LEASE + 1 + period);
    TicksSuffice(r2, r, period);
    assert HeldSince(r, i);
  }

  lemma FirstTick(r: Run, capacity: nat, period: int)
    requires |r.states| > 0 && r.Last() == Late(capacity, 3, Unclaimed(0)) && period > 0
    requires forall t, period | t <= 0 <= t + period :: AskedWithin(r, StaleClaims, |r.steps|, t, period)
    ensures TickedSoFar(r, period)
  {
  }

  // ----- a passed deadline -----

  function Watched(clock: int, sched: SchedPc): State {
    OwnerState(WillRow(Active, 1, Some(0), Some(1), 3), clock, {0}).(sched := sched)
  }

  lemma CheckedInAtZero() returns (r: Run)
    ensures Good(r, ALL) && |r.states| == 4 && |r.steps| == 3 && r.Last() == Watched(0, Idle)
    ensures forall i | 0 <= i < 4 :: r.states[i].clock == 0
    ensures forall i | 0 <= i < 3 :: !Lists(r.steps[i], "w")
  {
    hide Good;
    r := ActivatedAtZero(1);
    r := Extend(r, Owner("w", CheckIn(0)), ALL);
    assert r.Last().wlog["w"].checkIns == {0};
  }

  /** A tick begins and asks for overdue wills. */
  lemma Sweeps(r: Run, clock: int, wills: seq<WillId>) returns (r': Run)
    requires Good(r, ALL) && |r.states| > 0 && r.Last() == Watched(clock, Idle)
    requires wills == if clock >= 1 then ["w"] else []
    ensures Good(r', ALL)
    ensures r'.states == r.states + [Watched(clock, Resetted), Watched(clock, Sweep(wills))]
    ensures r'.steps == r.steps + [Sched(StartTick(clock)), Sched(ScanOverdue(clock, wills))]
  {
    hide Good;
    r' := Extend(r, Sched(StartTick(clock)), ALL);
    assert r'.Last().db.execs == map[] && r'.Last().tally == map[];
    r' := Extend(r', Sched(ScanOverdue(clock, wills)), ALL);
  }

  /** A will with its deadline at 1, and a tick at 0 that does not find it. */
  lemma SweptTooSoon() returns (r: Run)
    ensures Good(r, ALL) && |r.states| == 8 && |r.steps| == 7 && r.Last() == Watched(0, Idle)
    ensures forall i | 0 <= i < 8 :: r.states[i].clock == 0
    ensures forall i | 3 <= i < 8 :: AwaitsAt(r.states[i], "w", 1)
    ensures r.steps[4] == Sched(ScanOverdue(0, [])) && forall i | 0 <= i < 7 :: !Lists(r.steps[i], "w")
  {
    r := CheckedInAtZero();
    hide Good;
    r := Sweeps(r, 0, []);
    r := Extend(r, Sched(EndTick), ALL);
    r := Extend(r, Sched(SkipRetries), ALL);
  }

  /** Section 16 gives a passed deadline five minutes. For every period of ticks and every turn no longer than that
      there is a run, with every tick and turn on time, in which a will stays ACTIVE past its deadline for a period
      and a turn. */
  lemma DeadlineOverstays(period: int, pass: int) returns (r: Run)
    requires 0 <= pass <= period
    ensures IsRun(r) && AsksEvery(r, OverdueWills, period) && TriesIn(r, "w", pass)
    ensures |r.states| == 12 && Awaits(r, "w", 3, 11, 1) && r.states[3].clock == 0
    ensures r.Last().clock == 1 + period + pass
  {
    var found := 1 + period;
    r := SweptTooSoon();
    hide Good, Enabled, Next;
    r := Passes(r, 0, found, Idle);
    r := Sweeps(r, found, ["w"]);
    r := Passes(r, found, found + pass, Sweep(["w"]));
    SweepsSuffice(r, period, pass);
    GoodIsRun(r);
  }

  lemma GoodIsRun(r: Run)
    requires Good(r, ALL)
    ensures IsRun(r)
  {
  }

  lemma Passes(r: Run, from: int, to: int, sched: SchedPc) returns (r': Run)
    requires Good(r, ALL) && |r.states| > 0 && r.Last() == Watched(from, sched) && from <= to
    ensures Good(r', ALL) && r' == Run(r.states + [Watched(to, sched)], r.steps + [Advance(to)])
  {
    hide Good;
    r' := Extend(r, Advance(to), ALL);
  }

  lemma SweepsSuffice(r: Run, period: int, pass: int)
    requires |r.states| == 12 && |r.steps| == 11 && 0 <= pass <= period
    requires forall i | 0 <= i < 8 :: r.states[i].clock == 0
    requires forall i | 8 <= i < 11 :: r.states[i].clock == 1 + period
    requires r.states[11].clock == 1 + period + pass
    requires r.steps[4] == Sched(ScanOverdue(0, [])) && r.steps[9] == Sched(ScanOverdue(1 + period, ["w"]))
    requires forall i | 0 <= i < 11 && i != 9 :: !Lists(r.steps[i], "w")
    ensures AsksEvery(r, OverdueWills, period) && TriesIn(r, "w", pass)
  {
    forall t, j: nat | j < |r.states| && r.states[0].clock <= t && r.states[j].clock > t + period
      ensures AskedWithin(r, OverdueWills, j, t, period)
    {
      assert AsksAt(r, OverdueWills, if t == 0 then 4 else 9, t, period);
    }
  }
}
