/** Exclusion, absorption and the attempt ledger of one execution row. Only the claim is a
    compare-and-swap; the two finishing writes are unguarded, so everything here rests on the
    lease being kept and on decryption always giving the same verdict. */
module Lease {
  import opened Basics
  import opened Tables
  import opened Executions

  // ----- assumptions -----

  /** Every goroutine that has claimed the row finishes within the lease. */
  ghost predicate LeaseKept(c: Cell) {
    forall tid | tid in c.workers && c.workers[tid].Holding() :: c.clock <= c.workers[tid].started + LEASE
  }

  /** The payload and config of this row decrypt exactly when `d` says so. */
  ghost predicate Verdict(m: Move, d: bool) {
    m.Act? && m.op.Prepare? && !m.op.outcome.Abort? ==> (m.op.outcome.Decrypted? <==> d)
  }

  /** No failure write of another worker falls between a worker's load and its claim. */
  ghost predicate NotOvertaken(c: Cell, m: Move) {
    m.Act? && m.op.Claim? && m.tid in c.workers && c.workers[m.tid].Ready? && Claimable(c.row)
    ==> c.workers[m.tid].seen == c.k.writes
  }

  ghost predicate Leased(l: Life) {
    forall i | 0 <= i < |l.cells| :: LeaseKept(l.cells[i])
  }

  ghost predicate Deterministic(l: Life, d: bool) {
    forall i | 0 <= i < |l.moves| :: Verdict(l.moves[i], d)
  }

  ghost predicate Orderly(l: Life) {
    |l.moves| < |l.cells| && forall i | 0 <= i < |l.moves| :: NotOvertaken(l.cells[i], l.moves[i])
  }

  // ----- exclusion -----

  ghost predicate Exclusive(c: Cell) {
    && (forall tid | tid in c.workers && c.workers[tid].Holding() ::
          c.row.status == InProgress && c.row.startedAt == Some(c.workers[tid].started))
    && (forall t, u | t in c.workers && u in c.workers && c.workers[t].Holding() && c.workers[u].Holding() :: t == u)
  }

  /** Which goroutine positions the decryption verdict allows. */
  ghost predicate VerdictOk(c: Cell, d: bool) {
    forall tid | tid in c.workers ::
      && (c.workers[tid].Failing? ==> !d)
      && (c.workers[tid].Ready? || c.workers[tid].Holding() ==> d)
  }

  ghost predicate LeaseInv(c: Cell, d: bool) {
    Exclusive(c) && VerdictOk(c, d)
  }

  lemma VerdictStep(c: Cell, m: Move, d: bool)
    requires VerdictOk(c, d) && Allowed(c, m) && Verdict(m, d)
    ensures VerdictOk(Moved(c, m), d)
  {
  }

  lemma ExclusiveStep(c: Cell, m: Move, d: bool)
    requires LeaseInv(c, d) && LeaseKept(c) && Allowed(c, m)
    ensures Exclusive(Moved(c, m))
  {
  }

  lemma {:induction false} LeaseAlways(l: Life, d: bool, i: nat)
    requires IsLife(l) && i < |l.cells| && Leased(l) && Deterministic(l, d)
    ensures LeaseInv(l.cells[i], d)
  {
    if i > 0 {
      LeaseAlways(l, d, i - 1);
      VerdictStep(l.cells[i - 1], l.moves[i - 1], d);
      ExclusiveStep(l.cells[i - 1], l.moves[i - 1], d);
    }
  }

  // ----- absorption -----

  predicate Terminal(row: ExecRow) {
    row.status == Completed || row.status == Exhausted
  }

  lemma TerminalStep(c: Cell, m: Move, d: bool)
    requires LeaseInv(c, d) && Allowed(c, m) && Terminal(c.row)
    requires !d ==> c.row.attempt == 1 && c.row.status == Exhausted && c.retries <= 1
    requires forall tid | tid in c.workers && c.workers[tid].Failing? :: c.workers[tid].attempt == 1
    ensures var c' := Moved(c, m);
      && c'.row.status == c.row.status && c'.row.attempt == c.row.attempt
      && c'.k.claims == c.k.claims && c'.k.completions == c.k.completions
      && (d ==> c'.row == c.row && c'.k == c.k)
  {
  }

  // ----- rows that cannot be decrypted -----

  ghost predicate HopelessInv(c: Cell) {
    && c.row.attempt == 1
    && c.k.claims == c.k.calls == 0
    && (forall tid | tid in c.workers && !c.workers[tid].Spawned? :: c.workers[tid].attempt == 1)
    && (c.k.writes == 0 ==> c.row.status == Queued)
    && (c.k.writes > 0 ==> c.row.status == if c.retries > 1 then Failed else Exhausted)
  }

  lemma HopelessStep(c: Cell, m: Move)
    requires HopelessInv(c) && VerdictOk(c, false) && Allowed(c, m)
    ensures HopelessInv(Moved(c, m))
  {
  }

  /** No lease is needed here: a row that cannot be decrypted is never claimed. */
  lemma {:induction false} HopelessAlways(l: Life, i: nat)
    requires IsLife(l) && i < |l.cells| && Deterministic(l, false)
    ensures HopelessInv(l.cells[i]) && VerdictOk(l.cells[i], false)
  {
    if i > 0 {
      HopelessAlways(l, i - 1);
      VerdictStep(l.cells[i - 1], l.moves[i - 1], false);
      HopelessStep(l.cells[i - 1], l.moves[i - 1]);
    }
  }

  lemma {:induction false} TerminalForever(l: Life, d: bool, i: nat, j: nat)
    requires IsLife(l) && i <= j < |l.cells| && Leased(l) && Deterministic(l, d)
    requires Terminal(l.cells[i].row)
    ensures l.cells[j].row.status == l.cells[i].row.status
    ensures l.cells[j].row.attempt == l.cells[i].row.attempt
    ensures l.cells[j].k.claims == l.cells[i].k.claims && l.cells[j].k.completions == l.cells[i].k.completions
    ensures d ==> l.cells[j].row == l.cells[i].row && l.cells[j].k == l.cells[i].k
    decreases j
  {
    if i < j {
      TerminalForever(l, d, i, j - 1);
      LeaseAlways(l, d, j - 1);
      if !d {
        HopelessAlways(l, j - 1);
      }
      TerminalStep(l.cells[j - 1], l.moves[j - 1], d);
    }
  }

  // ----- the attempt ledger -----

  /** Rows whose last claim has not been taken back. */
  predicate Settled(row: ExecRow) {
    row.status == InProgress || row.status == Completed
  }

  /** Most deliveries a row gets when no claim is taken back and none is overtaken. */
  function Quota(retries: int): int {
    Max(1, retries - 1)
  }

  ghost predicate Balanced(c: Cell) {
    c.k.claims == (c.row.attempt - 1) + c.k.resets + Bit(Settled(c.row)) + c.k.lost
  }

  /** A claim is followed by at most one notifier call, and a terminal success is written once. */
  ghost predicate CallsOk(c: Cell) {
    && c.k.completions == Bit(c.row.status == Completed)
    && c.k.calls + Bit(exists tid | tid in c.workers :: c.workers[tid].Claimed?) <= c.k.claims
  }

  /** A claim without a notifier call is still held, or was taken back. */
  ghost predicate ClaimsServed(c: Cell) {
    c.k.claims <= c.k.calls + c.k.resets
      + Bit(c.row.status == InProgress && !exists tid | tid in c.workers :: c.workers[tid].Delivered?)
  }

  ghost predicate SuccessesOk(c: Cell) {
    && c.k.successes + Bit(exists tid | tid in c.workers :: c.workers[tid].Unproven())
       <= c.k.resets + Bit(Settled(c.row))
  }

  ghost predicate AttemptsOk(c: Cell) {
    && (!Terminal(c.row) ==> c.row.attempt <= Quota(c.retries))
    && (c.row.status == Completed ==> c.row.attempt <= Quota(c.retries))
    && c.row.attempt <= Quota(c.retries) + 1
    && forall tid | tid in c.workers && !c.workers[tid].Spawned? && !Terminal(c.row) ::
      c.workers[tid].attempt <= Quota(c.retries)
  }

  ghost predicate LedgerInv(c: Cell) {
    Balanced(c) && CallsOk(c) && ClaimsServed(c) && SuccessesOk(c) && AttemptsOk(c)
  }

  ghost predicate HopelessIf(c: Cell, d: bool) {
    !d ==> HopelessInv(c)
  }

  lemma BalanceStep(c: Cell, m: Move, d: bool)
    requires LeaseInv(c, d) && HopelessIf(c, d) && LeaseKept(c) && Allowed(c, m)
    requires Balanced(c)
    ensures Balanced(Moved(c, m))
  {
  }

  lemma CallsStep(c: Cell, m: Move, d: bool)
    requires LeaseInv(c, d) && HopelessIf(c, d) && LeaseKept(c) && Allowed(c, m)
    requires CallsOk(c)
    ensures CallsOk(Moved(c, m))
  {
  }

  lemma ServedStep(c: Cell, m: Move, d: bool)
    requires LeaseInv(c, d) && HopelessIf(c, d) && LeaseKept(c) && Allowed(c, m)
    requires ClaimsServed(c)
    ensures ClaimsServed(Moved(c, m))
  {
  }

  lemma SuccessesStep(c: Cell, m: Move, d: bool)
    requires LeaseInv(c, d) && HopelessIf(c, d) && LeaseKept(c) && Allowed(c, m)
    requires SuccessesOk(c)
    ensures SuccessesOk(Moved(c, m))
  {
  }

  lemma AttemptsStep(c: Cell, m: Move, d: bool)
    requires LeaseInv(c, d) && HopelessIf(c, d) && Allowed(c, m) && Verdict(m, d)
    requires AttemptsOk(c)
    ensures AttemptsOk(Moved(c, m))
  {
  }

  lemma {:induction false} LedgerAlways(l: Life, d: bool, i: nat)
    requires IsLife(l) && i < |l.cells| && Leased(l) && Deterministic(l, d)
    ensures LedgerInv(l.cells[i]) && HopelessIf(l.cells[i], d)
  {
    LeaseAlways(l, d, i);
    if !d {
      HopelessAlways(l, i);
    }
    if i > 0 {
      var c, m := l.cells[i - 1], l.moves[i - 1];
      LedgerAlways(l, d, i - 1);
      LeaseAlways(l, d, i - 1);
      BalanceStep(c, m, d);
      CallsStep(c, m, d);
      ServedStep(c, m, d);
      SuccessesStep(c, m, d);
      AttemptsStep(c, m, d);
    }
  }

  // ----- when no claim is overtaken -----

  ghost predicate OrderlyInv(c: Cell) {
    && c.k.lost == 0
    && forall tid | tid in c.workers && c.workers[tid].Holding() :: c.workers[tid].attempt == c.row.attempt
  }

  lemma OrderlyStep(c: Cell, m: Move, d: bool)
    requires LeaseInv(c, d) && CellOk(c) && LeaseKept(c) && Allowed(c, m) && NotOvertaken(c, m)
    requires OrderlyInv(c)
    ensures OrderlyInv(Moved(c, m))
  {
  }

  lemma {:induction false} OrderlyAlways(l: Life, d: bool, i: nat)
    requires IsLife(l) && i < |l.cells| && Leased(l) && Deterministic(l, d) && Orderly(l)
    ensures OrderlyInv(l.cells[i])
  {
    if i > 0 {
      OrderlyAlways(l, d, i - 1);
      LeaseAlways(l, d, i - 1);
      CellOkAlways(l, i - 1);
      OrderlyStep(l.cells[i - 1], l.moves[i - 1], d);
    }
  }
}
