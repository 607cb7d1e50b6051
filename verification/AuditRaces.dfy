/** `Log` as it really runs: reading the last checksum and inserting the row are two statements,
    and other goroutines may run between them. */
module AuditRaces {
  import opened AuditEncoding
  import opened AuditChain

  type Caller = nat

  /** A call of `Log` that has read the head; `readAt` is history: how many rows there were then. */
  datatype Call = Call(entry: Entry, prev: string, readAt: nat)

  /** `readAts` is history: for every stored row, how many rows there were when its head was read. */
  datatype Journal = Journal(rows: seq<Row>, nextSeq: int, calls: map<Caller, Call>, readAts: seq<nat>)

  datatype JournalStep =
    | Read(caller: Caller, entry: Entry)
    | Insert(caller: Caller)
    | Vanish

  ghost predicate Fresh(j: Journal) {
    j.rows == [] && j.calls == map[] && j.readAts == []
  }

  ghost predicate Possible(j: Journal, a: JournalStep) {
    match a
    case Read(caller, entry) => caller !in j.calls && IsUuid(entry.id)
    case Insert(caller) => caller in j.calls
    case Vanish => true
  }

  predicate IdTaken(rows: seq<Row>, id: string) {
    exists i | 0 <= i < |rows| :: rows[i].entry.id == id
  }

  /** An INSERT that repeats a row id fails and leaves the table alone. */
  function After(h: Hash, j: Journal, a: JournalStep): Journal
    requires a.Insert? ==> a.caller in j.calls
  {
    match a
    case Read(caller, entry) =>
      j.(calls := j.calls[caller := Call(entry, HeadAt(j.rows, |j.rows|), |j.rows|)])
    case Insert(caller) =>
      var c := j.calls[caller];
      var left := j.calls - {caller};
      if IdTaken(j.rows, c.entry.id) then j.(calls := left)
      else Journal(j.rows + [Row(j.nextSeq, c.entry, h(ChainInput(c.prev, c.entry)))], j.nextSeq + 1,
                   left, j.readAts + [c.readAt])
    case Vanish => j.(calls := map[])
  }

  datatype JournalRun = JournalRun(states: seq<Journal>, steps: seq<JournalStep>)

  ghost predicate IsJournalRun(h: Hash, r: JournalRun) {
    && |r.states| == |r.steps| + 1
    && Fresh(r.states[0])
    && forall i | 0 <= i < |r.steps| ::
      Possible(r.states[i], r.steps[i]) && r.states[i + 1] == After(h, r.states[i], r.steps[i])
  }

  // ----- what every run keeps -----

  /** The text `Log` hashed for row `i`. */
  function HashedAt(j: Journal, i: nat): string
    requires i < |j.rows| && i < |j.readAts| && j.readAts[i] <= i
  {
    ChainInput(HeadAt(j.rows, j.readAts[i]), j.rows[i].entry)
  }

  ghost predicate RowOk(h: Hash, j: Journal, i: nat)
    requires i < |j.rows| == |j.readAts|
  {
    && j.readAts[i] <= i
    && IsUuid(j.rows[i].entry.id)
    && j.rows[i].checksum == h(HashedAt(j, i))
  }

  ghost predicate CallOk(j: Journal, c: Call) {
    c.readAt <= |j.rows| && c.prev == HeadAt(j.rows, c.readAt) && IsUuid(c.entry.id)
  }

  ghost predicate JournalInv(h: Hash, j: Journal) {
    && |j.readAts| == |j.rows|
    && (forall i | 0 <= i < |j.rows| :: RowOk(h, j, i))
    && (forall i, k | 0 <= i < k < |j.rows| :: j.rows[i].entry.id != j.rows[k].entry.id)
    && (forall c | c in j.calls :: CallOk(j, j.calls[c]))
  }

  lemma JournalStepKeeps(h: Hash, j: Journal, a: JournalStep)
    requires JournalInv(h, j) && Possible(j, a)
    ensures JournalInv(h, After(h, j, a))
  {
    hide ChainInput, IsUuid;
    var j' := After(h, j, a);
    forall i | 0 <= i < |j'.rows|
      ensures RowOk(h, j', i)
    {
      if i < |j.rows| {
        assert RowOk(h, j, i);
        assert HashedAt(j', i) == HashedAt(j, i);
      }
    }
  }

  lemma {:induction false} JournalAlways(h: Hash, r: JournalRun, i: nat)
    requires IsJournalRun(h, r) && i < |r.states|
    ensures JournalInv(h, r.states[i])
  {
    if i > 0 {
      JournalAlways(h, r, i - 1);
      JournalStepKeeps(h, r.states[i - 1], r.steps[i - 1]);
    }
  }

  // ----- exactly when the chain verifies -----

  /** No other row was inserted between the two statements of the call that stored row `i`. */
  predicate Undisturbed(j: Journal, i: nat) {
    i < |j.readAts| && j.readAts[i] == i
  }

  ghost predicate AllUndisturbed(j: Journal) {
    forall i | 0 <= i < |j.rows| :: Undisturbed(j, i)
  }

  /** Two different texts hashed by `Log` or by `VerifyChain` on this table give the same digest. */
  ghost predicate JournalCollision(h: Hash, j: Journal)
    requires JournalInv(h, j)
  {
    exists i, k :: 0 <= i < |j.rows| && 0 <= k < |j.rows|
      && RowOk(h, j, i) && RowOk(h, j, k)
      && (Collision(h, HashedAt(j, i), HashedAt(j, k)) || Collision(h, HashedAt(j, i), InputAt(j.rows, k)))
  }

  lemma StoredHeadIsPrev(h: Hash, j: Journal, n: nat)
    requires JournalInv(h, j) && YieldsDigests(h) && n <= |j.rows|
    ensures IsPrev(HeadAt(j.rows, n)) && (n > 0 ==> IsDigest(HeadAt(j.rows, n)))
  {
    if n > 0 {
      assert RowOk(h, j, n - 1);
      assert IsDigest(h(HashedAt(j, n - 1)));
    }
  }

  /** Row ids are unique, so different rows were hashed from different texts. */
  lemma DistinctTexts(h: Hash, j: Journal, i: nat, k: nat)
    requires JournalInv(h, j) && YieldsDigests(h) && i < k < |j.rows|
    ensures RowOk(h, j, i) && RowOk(h, j, k) && HashedAt(j, i) != HashedAt(j, k)
  {
    assert RowOk(h, j, i) && RowOk(h, j, k) && j.rows[i].entry.id != j.rows[k].entry.id;
    var p, q := HeadAt(j.rows, j.readAts[i]), HeadAt(j.rows, j.readAts[k]);
    StoredHeadIsPrev(h, j, j.readAts[i]);
    StoredHeadIsPrev(h, j, j.readAts[k]);
    if ChainInput(p, j.rows[i].entry) == ChainInput(q, j.rows[k].entry) {
      hide ChainInput, IsUuid, IsPrev, IsDigest, JournalInv, HeadAt, YieldsDigests;
      TextDeterminesId(p, j.rows[i].entry, q, j.rows[k].entry);
    }
  }

  lemma CollisionFound(h: Hash, j: Journal, i: nat, k: nat)
    requires JournalInv(h, j) && i < |j.rows| && k < |j.rows| && RowOk(h, j, i) && RowOk(h, j, k)
    requires Collision(h, HashedAt(j, i), HashedAt(j, k))
    ensures JournalCollision(h, j)
  {
    hide ChainInput, IsUuid, HeadAt, JournalInv;
  }

  /** Different rows never hold the same checksum, or two hashed texts collide. */
  lemma DistinctChecksums(h: Hash, j: Journal, i: nat, k: nat)
    requires JournalInv(h, j) && YieldsDigests(h) && i < k < |j.rows|
    requires j.rows[i].checksum == j.rows[k].checksum
    ensures JournalCollision(h, j)
  {
    DistinctTexts(h, j, i, k);
    hide ChainInput, IsUuid, IsPrev, IsDigest, YieldsDigests, HeadAt, JournalInv, JournalCollision;
    CollisionFound(h, j, i, k);
  }

  /** A row whose call was disturbed does not verify, or two hashed texts collide. */
  lemma DisturbedRow(h: Hash, j: Journal, i: nat)
    requires JournalInv(h, j) && YieldsDigests(h) && i < |j.rows|
    requires !Undisturbed(j, i) && Sound(h, j.rows, i)
    ensures JournalCollision(h, j)
  {
    assert RowOk(h, j, i);
    var n := j.readAts[i];
    if HashedAt(j, i) != InputAt(j.rows, i) {
      assert Collision(h, HashedAt(j, i), InputAt(j.rows, i));
    } else {
      StoredHeadIsPrev(h, j, n);
      StoredHeadIsPrev(h, j, i);
      TextDeterminesId(HeadAt(j.rows, n), j.rows[i].entry, HeadAt(j.rows, i), j.rows[i].entry);
      hide ChainInput, IsUuid;
      if n > 0 {
        DistinctChecksums(h, j, n - 1, i - 1);
      }
    }
  }

  /** The chain verifies exactly when no call of `Log` was disturbed by another insert between its
      read and its own insert, up to a collision among the texts hashed. */
  lemma ChainVerifiesIff(h: Hash, r: JournalRun, i: nat)
    requires IsJournalRun(h, r) && YieldsDigests(h) && i < |r.states|
    ensures JournalInv(h, r.states[i])
    ensures AllUndisturbed(r.states[i]) ==> Accepted(h, r.states[i].rows)
    ensures Accepted(h, r.states[i].rows) ==> AllUndisturbed(r.states[i]) || JournalCollision(h, r.states[i])
  {
    var j := r.states[i];
    JournalAlways(h, r, i);
    if AllUndisturbed(j) {
      forall k | 0 <= k < |j.rows|
        ensures Sound(h, j.rows, k)
      {
        assert RowOk(h, j, k) && Undisturbed(j, k);
      }
    } else if Accepted(h, j.rows) {
      var k :| 0 <= k < |j.rows| && !Undisturbed(j, k);
      DisturbedRow(h, j, k);
    }
  }

  /** Two calls that both read the empty table before either inserts: the second row is disturbed. */
  lemma RaceHappens(h: Hash, e: Entry, f: Entry) returns (r: JournalRun)
    requires IsUuid(e.id) && IsUuid(f.id) && e.id != f.id
    ensures IsJournalRun(h, r) && |r.states| == 5
    ensures |r.states[4].rows| == 2 && !AllUndisturbed(r.states[4])
  {
    hide ChainInput, IsUuid;
    var j0 := Journal([], 1, map[], []);
    var j1 := After(h, j0, Read(0, e));
    var j2 := After(h, j1, Read(1, f));
    var j3 := After(h, j2, Insert(0));
    var j4 := After(h, j3, Insert(1));
    assert j4.readAts == [0, 0] && !Undisturbed(j4, 1);
    r := JournalRun([j0, j1, j2, j3, j4], [Read(0, e), Read(1, f), Insert(0), Insert(1)]);
  }
}
