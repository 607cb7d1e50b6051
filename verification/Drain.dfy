/** How long a row that keeps failing is retried, and when it is given up. */
module Drain {
  import opened Basics
  import opened Tables
  import opened Executions
  import opened Lease

  /** Delays handed out by the failures that moved the attempt count up to `attempt`. */
  function Served(attempt: nat): int {
    if attempt <= 1 then 0 else Served(attempt - 1) + RetryDelay(attempt)
  }

  /** The delays add up to half an hour once and a day for every further attempt:
      the five-minute entry of the table is never served after a delivery. */
  lemma {:induction false} ServedTotal(attempt: nat)
    ensures Served(attempt) == if attempt <= 1 then 0 else 1800 + (attempt - 2) * 86400
  {
    if attempt > 2 {
      ServedTotal(attempt - 1);
    }
  }

  /** All delays served to a row until it is exhausted. */
  function TotalBackoff(retries: int): int {
    if retries <= 2 then 0 else 1800 + (retries - 3) * 86400
  }

  /** A row under the lease, with decryption possible and no claim overtaken. */
  ghost predicate Regular(c: Cell) {
    LeaseInv(c, true) && OrderlyInv(c) && LedgerInv(c) && CellOk(c)
  }

  ghost predicate RegularLife(l: Life) {
    IsLife(l) && Leased(l) && Deterministic(l, true) && Orderly(l)
  }

  /** One move of a regular life, with everything known before it. */
  lemma RegularMove(l: Life, i: nat)
    requires RegularLife(l) && i < |l.moves|
    ensures Regular(l.cells[i]) && Allowed(l.cells[i], l.moves[i])
    ensures l.cells[i + 1] == Moved(l.cells[i], l.moves[i])
  {
    RegularAlways(l, i);
  }

  lemma RegularAlways(l: Life, i: nat)
    requires RegularLife(l) && i < |l.cells|
    ensures Regular(l.cells[i])
  {
    LeaseAlways(l, true, i);
    LedgerAlways(l, true, i);
    OrderlyAlways(l, true, i);
    CellOkAlways(l, i);
  }

  // ----- served backoff -----

  ghost predicate BackoffInv(c: Cell) {
    && (c.row.status != Exhausted ==> c.k.backoff == Served(c.row.attempt))
    && (c.row.status == Exhausted ==>
          c.row.attempt == Quota(c.retries) + 1 && c.k.backoff == Served(c.row.attempt - 1))
  }

  lemma BackoffStep(c: Cell, m: Move)
    requires Regular(c) && Allowed(c, m)
    requires BackoffInv(c)
    ensures BackoffInv(Moved(c, m))
  {
  }

  lemma {:induction false} BackoffAlways(l: Life, i: nat)
    requires RegularLife(l) && i < |l.cells|
    ensures BackoffInv(l.cells[i])
  {
    if i > 0 {
      BackoffAlways(l, i - 1);
      RegularMove(l, i - 1);
      BackoffStep(l.cells[i - 1], l.moves[i - 1]);
    }
  }

  // ----- elapsed time -----

  /** A delivery takes at most `delivery` seconds. */
  ghost predicate DeliversIn(c: Cell, delivery: int) {
    c.row.status == InProgress && c.row.startedAt.Some? ==> c.clock <= c.row.startedAt.value + delivery
  }

  /** From cell `b` to cell `i` the row has been FAILED, waiting for the same retry time. */
  ghost predicate Waits(l: Life, b: nat, i: nat) {
    b <= i < |l.cells| && forall j | b <= j <= i :: WaitsLike(l.cells[j], l.cells[i])
  }

  ghost predicate WaitsLike(c: Cell, last: Cell) {
    c.row.status == Failed && c.row.nextRetryAt.Some? && c.row.nextRetryAt == last.row.nextRetryAt
  }

  /** The first second after a failure was written in which the row is due. */
  function DueFrom(c: Cell): int
    requires c.row.nextRetryAt.Some?
  {
    Max(c.row.nextRetryAt.value, c.clock + 1)
  }

  /** A row that is due is claimed at most `lateness` seconds later. */
  ghost predicate PickedUp(l: Life, lateness: int) {
    forall b, i | 0 <= b <= i && Waits(l, b, i) :: l.cells[i].clock <= DueFrom(l.cells[b]) + lateness
  }

  ghost predicate AlwaysTimely(l: Life, delivery: int, lateness: int) {
    PickedUp(l, lateness) && forall i | 0 <= i < |l.cells| :: DeliversIn(l.cells[i], delivery)
  }

  /** Latest start of the delivery that the row's `attempt` counts, after the first claim. */
  function StartBound(attempt: nat, delivery: int, lateness: int): int {
    if attempt <= 1 then 0
    else StartBound(attempt - 1, delivery, lateness) + delivery + RetryDelay(attempt) + lateness
  }

  lemma {:induction false} StartBoundTotal(attempt: nat, delivery: int, lateness: int)
    requires attempt >= 1
    ensures StartBound(attempt, delivery, lateness) == (attempt - 1) * (delivery + lateness) + Served(attempt)
  {
    if attempt > 1 {
      StartBoundTotal(attempt - 1, delivery, lateness);
    }
  }

  lemma {:induction false} StartBoundGrows(a: nat, b: nat, delivery: int, lateness: int)
    requires a <= b && delivery >= 0 && lateness >= 0
    ensures StartBound(a, delivery, lateness) <= StartBound(b, delivery, lateness)
    decreases b
  {
    if a < b {
      StartBoundGrows(a, b - 1, delivery, lateness);
    }
  }

  /** `from` is the second from which a FAILED row has been due. */
  ghost predicate PaceInv(c: Cell, from: int, delivery: int, lateness: int) {
    c.k.resets == 0 && c.k.claims > 0 ==>
      && (c.row.status != Queued)
      && (c.row.status == InProgress ==>
            && c.row.startedAt.Some?
            && c.row.startedAt.value <= c.k.firstClaim + StartBound(c.row.attempt, delivery, lateness))
      && (c.row.status == Failed ==>
            && c.row.attempt >= 2
            && from + lateness <= c.k.firstClaim + StartBound(c.row.attempt, delivery, lateness))
      && (c.row.status == Exhausted ==>
            && c.row.attempt >= 2 && c.row.completedAt.Some?
            && c.row.completedAt.value <= c.k.firstClaim + StartBound(c.row.attempt - 1, delivery, lateness) + delivery)
  }

  /** A regular row stays FAILED, unchanged, until it is claimed. */
  lemma FailedStays(c: Cell, m: Move)
    requires Regular(c) && Allowed(c, m) && c.row.status == Failed
    ensures Moved(c, m).row == c.row || (m.Act? && m.op.Claim? && Moved(c, m).row.status == InProgress)
  {
  }

  lemma PaceStep(c: Cell, m: Move, from: int, delivery: int, lateness: int)
    requires Regular(c) && Allowed(c, m)
    requires DeliversIn(c, delivery) && PaceInv(c, from, delivery, lateness)
    requires c.row.status == Failed ==> c.clock <= from + lateness
    ensures var c' := Moved(c, m);
      var freed := c.row.status != Failed && c'.row.status == Failed && c'.row.nextRetryAt.Some?;
      var from' := if freed then DueFrom(c') else from;
      PaceInv(c', from', delivery, lateness)
  {
  }

  lemma {:induction false} PaceAlways(l: Life, delivery: int, lateness: int, i: nat) returns (b: nat)
    requires RegularLife(l) && i < |l.cells|
    requires AlwaysTimely(l, delivery, lateness)
    ensures b <= i && (l.cells[i].row.status == Failed ==> Waits(l, b, i))
    ensures l.cells[i].row.status == Failed ==> PaceInv(l.cells[i], DueFrom(l.cells[b]), delivery, lateness)
    ensures l.cells[i].row.status != Failed ==> PaceInv(l.cells[i], 0, delivery, lateness)
  {
    b := i;
    if i > 0 {
      var before := PaceAlways(l, delivery, lateness, i - 1);
      RegularMove(l, i - 1);
      RegularAlways(l, i);
      var c, m := l.cells[i - 1], l.moves[i - 1];
      hide RegularLife, Regular, Moved, Allowed, PaceInv;
      if c.row.status == Failed {
        FailedStays(c, m);
        PaceStep(c, m, DueFrom(l.cells[before]), delivery, lateness);
        if l.cells[i].row.status == Failed {
          b := before;
        } else {
          FromIrrelevant(l.cells[i], DueFrom(l.cells[before]), 0, delivery, lateness);
        }
      } else {
        PaceStep(c, m, 0, delivery, lateness);
        if l.cells[i].row.status == Failed {
          StampedWhenFailed(l.cells[i]);
        }
      }
    }
  }

  lemma FromIrrelevant(c: Cell, from: int, other: int, delivery: int, lateness: int)
    requires PaceInv(c, from, delivery, lateness) && c.row.status != Failed
    ensures PaceInv(c, other, delivery, lateness)
  {
  }

  lemma StampedWhenFailed(c: Cell)
    requires Regular(c) && c.row.status == Failed
    ensures c.row.nextRetryAt.Some?
  {
  }

  /** Seconds from the first claim until the row must have been given up. */
  function DrainBound(retries: int, delivery: int, lateness: int): int {
    Quota(retries) * delivery + (Quota(retries) - 1) * lateness + TotalBackoff(retries)
  }

  /** The bound covers every position a live row can still be in. */
  lemma PaceWithinBound(c: Cell, from: int, delivery: int, lateness: int)
    requires CellOk(c) && AttemptsOk(c) && PaceInv(c, from, delivery, lateness) && DeliversIn(c, delivery)
    requires c.row.status == Failed ==> c.clock <= from + lateness
    requires delivery >= 0 && lateness >= 0
    requires c.k.resets == 0 && c.k.claims > 0 && !Terminal(c.row)
    ensures c.clock <= c.k.firstClaim + DrainBound(c.retries, delivery, lateness)
  {
    var n := Quota(c.retries);
    StartBoundGrows(c.row.attempt, n, delivery, lateness);
    StartBoundTotal(n, delivery, lateness);
    ServedTotal(n);
    assert (n - 1) * (delivery + lateness) + delivery == n * delivery + (n - 1) * lateness;
  }

  /** A decryptable row that was claimed, never succeeded and lost no claim to a reset: after its
      last delivery it is exhausted, it was delivered exactly `max(1, retries - 1)` times, and the
      delays it was told to wait are fixed by `retries`. */
  lemma ExhaustedAfterQuota(l: Life, i: nat)
    requires RegularLife(l) && i < |l.cells|
    requires l.cells[i].row.status == Exhausted && l.cells[i].k.resets == 0
    ensures l.cells[i].k.claims == l.cells[i].k.calls == Quota(l.cells[i].retries)
    ensures l.cells[i].k.backoff == TotalBackoff(l.cells[i].retries)
  {
    RegularAlways(l, i);
    BackoffAlways(l, i);
    ServedTotal(l.cells[i].row.attempt - 1);
  }

  /** The retry loop terminates in time: once the clock has passed the bound, the row is terminal. */
  lemma GivenUpInTime(l: Life, i: nat, delivery: int, lateness: int)
    requires RegularLife(l) && i < |l.cells|
    requires AlwaysTimely(l, delivery, lateness) && delivery >= 0 && lateness >= 0
    requires l.cells[i].k.claims > 0 && l.cells[i].k.resets == 0 && l.cells[i].k.completions == 0
    requires l.cells[i].clock > l.cells[i].k.firstClaim + DrainBound(l.cells[i].retries, delivery, lateness)
    ensures l.cells[i].row.status == Exhausted
  {
    var c := l.cells[i];
    RegularAlways(l, i);
    var b := PaceAlways(l, delivery, lateness, i);
    if !Terminal(c.row) {
      PaceWithinBound(c, if c.row.status == Failed then DueFrom(l.cells[b]) else 0, delivery, lateness);
    }
  }
}
