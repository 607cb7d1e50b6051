/** The audit log: rows chained by checksums, the two operations on it, and what a chain
    that verifies says about the rows. SHA-256 is an arbitrary function into digests here, so the
    theorems either hold or name two different texts that were hashed to the same digest. */
module AuditChain {
  import opened Basics
  import opened AuditEncoding

  type Hash = string -> string

  ghost predicate YieldsDigests(h: Hash) {
    forall x :: IsDigest(h(x))
  }

  datatype Row = Row(seqNo: int, entry: Entry, checksum: string)

  /** The checksum a row after the first `n` rows is chained to. */
  function HeadAt(rows: seq<Row>, n: nat): string
    requires n <= |rows|
  {
    if n == 0 then "" else rows[n - 1].checksum
  }

  /** The text `VerifyChain` hashes for row `i`. */
  function InputAt(rows: seq<Row>, i: nat): string
    requires i < |rows|
  {
    ChainInput(HeadAt(rows, i), rows[i].entry)
  }

  predicate Sound(h: Hash, rows: seq<Row>, i: nat)
    requires i < |rows|
  {
    rows[i].checksum == h(InputAt(rows, i))
  }

  ghost predicate Accepted(h: Hash, rows: seq<Row>) {
    forall i | 0 <= i < |rows| :: Sound(h, rows, i)
  }

  ghost predicate FirstBreak(h: Hash, rows: seq<Row>, k: nat) {
    k < |rows| && !Sound(h, rows, k) && forall i | 0 <= i < k :: Sound(h, rows, i)
  }

  ghost predicate AllWellFormed(rows: seq<Row>) {
    forall i | 0 <= i < |rows| :: WellFormed(rows[i].entry)
  }

  ghost predicate Collision(h: Hash, x: string, y: string) {
    x != y && h(x) == h(y)
  }

  // ----- the service -----

  class AuditService {
    const hash: Hash
    var rows: seq<Row>
    var nextSeq: int

    /** `seq` is an autoincremented key: rows are stored in its order. */
    ghost predicate Valid()
      reads this
    {
      && (forall i | 0 <= i < |rows| :: rows[i].seqNo < nextSeq)
      && (forall i, j | 0 <= i < j < |rows| :: rows[i].seqNo < rows[j].seqNo)
    }

    constructor (h: Hash)
      ensures Valid() && rows == [] && hash == h
    {
      hash, rows, nextSeq := h, [], 1;
    }

    /** `SELECT checksum ... ORDER BY seq DESC LIMIT 1`; no row reads as the empty string. */
    method ReadHead() returns (prev: string)
      ensures prev == HeadAt(rows, |rows|)
    {
      prev := if |rows| == 0 then "" else rows[|rows| - 1].checksum;
    }

    /** The INSERT; it fails on a repeated row id. */
    method Insert(e: Entry, checksum: string) returns (ok: bool)
      requires Valid()
      modifies this
      ensures Valid()
      ensures ok <==> forall i | 0 <= i < |old(rows)| :: old(rows)[i].entry.id != e.id
      ensures rows == if ok then old(rows) + [Row(old(nextSeq), e, checksum)] else old(rows)
    {
      ok := true;
      for i := 0 to |rows|
        invariant ok <==> forall j | 0 <= j < i :: rows[j].entry.id != e.id
      {
        if rows[i].entry.id == e.id {
          ok := false;
        }
      }
      if ok {
        rows, nextSeq := rows + [Row(nextSeq, e, checksum)], nextSeq + 1;
      }
    }

    /** `Log`, with nothing running between its two statements. */
    method Log(eventType: string, actor: string, willId: Option<string>, metadata: Option<string>, id: string, ts: int)
      returns (ok: bool)
      requires Valid()
      modifies this
      ensures Valid()
      ensures ok <==> forall i | 0 <= i < |old(rows)| :: old(rows)[i].entry.id != id
      ensures !ok ==> rows == old(rows)
      ensures ok ==> |rows| == |old(rows)| + 1 && rows[..|old(rows)|] == old(rows)
      ensures var text := if metadata.Some? then metadata.value else "{}";
        ok ==> rows[|old(rows)|].entry == Entry(id, ts, eventType, willId, actor, text)
      ensures ok ==> rows[|old(rows)|].seqNo == old(nextSeq)
      ensures ok ==> rows[|old(rows)|].checksum ==
                     hash(ChainInput(HeadAt(old(rows), |old(rows)|), rows[|old(rows)|].entry))
      ensures ok && Accepted(hash, old(rows)) ==> Accepted(hash, rows)
    {
      var e := Entry(id, ts, eventType, willId, actor, if metadata.Some? then metadata.value else "{}");
      var prev := ReadHead();
      ok := Insert(e, hash(ChainInput(prev, e)));
      if ok {
        AppendSound(hash, old(rows), rows[|old(rows)|]);
      }
    }

    /** `VerifyChain`: acceptance, or the least sequence number of a broken row. */
    method VerifyChain() returns (ok: bool, brokenAt: int)
      requires Valid()
      ensures ok <==> Accepted(hash, rows)
      ensures !ok ==> exists k: nat :: FirstBreak(hash, rows, k) && brokenAt == rows[k].seqNo
      ensures !ok ==> forall i | 0 <= i < |rows| && !Sound(hash, rows, i) :: brokenAt <= rows[i].seqNo
    {
      hide ChainInput;
      var prevChecksum := "";
      for i := 0 to |rows|
        invariant prevChecksum == HeadAt(rows, i)
        invariant forall j | 0 <= j < i :: Sound(hash, rows, j)
      {
        var computed := hash(ChainInput(prevChecksum, rows[i].entry));
        if computed != rows[i].checksum {
          assert !Sound(hash, rows, i);
          assert FirstBreak(hash, rows, i);
          return false, rows[i].seqNo;
        }
        prevChecksum := rows[i].checksum;
      }
      return true, 0;
    }
  }

  // ----- acceptance -----

  lemma SoundInPrefix(h: Hash, rows: seq<Row>, more: seq<Row>, i: nat)
    requires i < |rows|
    ensures Sound(h, rows + more, i) <==> Sound(h, rows, i)
  {
  }

  /** Acceptance is prefix-closed: cutting rows off the end is never noticed. */
  lemma PrefixAccepted(h: Hash, rows: seq<Row>, more: seq<Row>)
    requires Accepted(h, rows + more)
    ensures Accepted(h, rows)
  {
    forall i | 0 <= i < |rows|
      ensures Sound(h, rows, i)
    {
      assert Sound(h, rows + more, i);
      SoundInPrefix(h, rows, more, i);
    }
  }

  lemma AppendSound(h: Hash, rows: seq<Row>, row: Row)
    ensures Accepted(h, rows) && row.checksum == h(ChainInput(HeadAt(rows, |rows|), row.entry))
            ==> Accepted(h, rows + [row])
  {
    if Accepted(h, rows) && row.checksum == h(ChainInput(HeadAt(rows, |rows|), row.entry)) {
      forall i | 0 <= i < |rows + [row]|
        ensures Sound(h, rows + [row], i)
      {
        if i < |rows| {
          SoundInPrefix(h, rows, [row], i);
        }
      }
    }
  }

  lemma HeadIsPrev(h: Hash, rows: seq<Row>, n: nat)
    requires n <= |rows| && Accepted(h, rows) && YieldsDigests(h)
    ensures IsPrev(HeadAt(rows, n)) && (HeadAt(rows, n) == "" <==> n == 0)
  {
    if n > 0 {
      assert Sound(h, rows, n - 1);
      assert IsDigest(h(InputAt(rows, n - 1)));
    }
  }

  // ----- the head checksum determines the log -----

  ghost predicate CollisionAcross(h: Hash, a: seq<Row>, b: seq<Row>) {
    exists i, j :: 0 <= i < |a| && 0 <= j < |b| && Collision(h, InputAt(a, i), InputAt(b, j))
  }

  ghost predicate SameEntries(a: seq<Row>, b: seq<Row>) {
    |a| == |b| && forall i | 0 <= i < |a| :: a[i].entry == b[i].entry && a[i].checksum == b[i].checksum
  }

  lemma CollisionGrows(h: Hash, a: seq<Row>, b: seq<Row>)
    requires |a| > 0 && |b| > 0 && CollisionAcross(h, a[..|a| - 1], b[..|b| - 1])
    ensures CollisionAcross(h, a, b)
  {
    var a', b' := a[..|a| - 1], b[..|b| - 1];
    var i, j :| 0 <= i < |a'| && 0 <= j < |b'| && Collision(h, InputAt(a', i), InputAt(b', j));
    assert InputAt(a, i) == InputAt(a', i) && InputAt(b, j) == InputAt(b', j);
  }

  lemma CutLast(h: Hash, a: seq<Row>) returns (before: seq<Row>)
    requires |a| > 0 && Accepted(h, a) && AllWellFormed(a)
    ensures before == a[..|a| - 1] && |before| == |a| - 1
    ensures Accepted(h, before) && AllWellFormed(before) && HeadAt(before, |before|) == HeadAt(a, |a| - 1)
  {
    before := a[..|a| - 1];
    assert a == before + a[|a| - 1..];
    PrefixAccepted(h, before, a[|a| - 1..]);
  }

  /** One row from the end: unless two hashed texts collide, the last entries and what they chain to agree. */
  lemma LastRowsAgree(h: Hash, a: seq<Row>, b: seq<Row>)
    requires YieldsDigests(h) && Accepted(h, a) && Accepted(h, b) && AllWellFormed(a) && AllWellFormed(b)
    requires |a| > 0 && |b| > 0 && a[|a| - 1].checksum == b[|b| - 1].checksum
    ensures CollisionAcross(h, a, b)
      || (a[|a| - 1].entry == b[|b| - 1].entry && HeadAt(a, |a| - 1) == HeadAt(b, |b| - 1))
  {
    var m, n := |a| - 1, |b| - 1;
    assert Sound(h, a, m) && Sound(h, b, n);
    if InputAt(a, m) != InputAt(b, n) {
      assert Collision(h, InputAt(a, m), InputAt(b, n));
    } else {
      HeadIsPrev(h, a, m);
      HeadIsPrev(h, b, n);
      hide ChainInput, WellFormed;
      ChainInputInjective(HeadAt(a, m), a[m].entry, HeadAt(b, n), b[n].entry);
    }
  }

  lemma ExtendSame(a: seq<Row>, b: seq<Row>)
    requires |a| > 0 && |b| > 0 && SameEntries(a[..|a| - 1], b[..|b| - 1])
    requires a[|a| - 1].entry == b[|b| - 1].entry && a[|a| - 1].checksum == b[|b| - 1].checksum
    ensures SameEntries(a, b)
  {
  }

  /** Two accepted logs that end in the same checksum are the same log, row for row,
      or two of the texts hashed for them collide. */
  lemma {:induction false} HeadDeterminesLog(h: Hash, a: seq<Row>, b: seq<Row>)
    requires YieldsDigests(h) && Accepted(h, a) && Accepted(h, b) && AllWellFormed(a) && AllWellFormed(b)
    requires HeadAt(a, |a|) == HeadAt(b, |b|)
    ensures SameEntries(a, b) || CollisionAcross(h, a, b)
    decreases |a|
  {
    HeadIsPrev(h, a, |a|);
    HeadIsPrev(h, b, |b|);
    hide Accepted, AllWellFormed, YieldsDigests, CollisionAcross, IsPrev, SameEntries;
    if |a| > 0 {
      LastRowsAgree(h, a, b);
      if !CollisionAcross(h, a, b) {
        var a' := CutLast(h, a);
        var b' := CutLast(h, b);
        HeadDeterminesLog(h, a', b');
        if CollisionAcross(h, a', b') {
          CollisionGrows(h, a, b);
        } else {
          ExtendSame(a, b);
        }
      }
    }
  }

  // ----- where an edit is reported -----

  ghost predicate CollisionNear(h: Hash, rows: seq<Row>, edited: seq<Row>, k: nat)
    requires |edited| == |rows| && k < |rows|
  {
    || Collision(h, InputAt(rows, k), InputAt(edited, k))
    || (k + 1 < |rows| && Collision(h, InputAt(rows, k + 1), InputAt(edited, k + 1)))
  }

  lemma BeforeEdit(h: Hash, rows: seq<Row>, k: nat, row: Row, i: nat)
    requires k < |rows| && i < |rows| && i != k && i != k + 1
    ensures Sound(h, rows[k := row], i) <==> Sound(h, rows, i)
    ensures InputAt(rows[k := row], i) == InputAt(rows, i)
  {
  }

  lemma DifferentHeads(p: string, q: string, e: Entry)
    requires p != q && |p| == |q|
    ensures ChainInput(p, e) != ChainInput(q, e)
  {
    Regroup(p, e);
    Regroup(q, e);
    var rest := e.id + (e.eventType + (e.actor + (WillText(e.willId) + (Decimal(e.timestamp) + e.metadata))));
    assert (p + rest)[..|p|] == p && (q + rest)[..|q|] == q;
  }

  /** A row edited in place with its checksum left alone or guessed is reported at that row. */
  lemma EditReportedHere(h: Hash, rows: seq<Row>, k: nat, row: Row)
    requires k < |rows| && Accepted(h, rows) && row.checksum != h(ChainInput(HeadAt(rows, k), row.entry))
    ensures FirstBreak(h, rows[k := row], k)
  {
    var edited := rows[k := row];
    assert HeadAt(edited, k) == HeadAt(rows, k);
    forall i | 0 <= i < k
      ensures Sound(h, edited, i)
    {
      BeforeEdit(h, rows, k, row, i);
      assert Sound(h, rows, i);
    }
  }

  lemma OthersSound(h: Hash, rows: seq<Row>, k: nat, row: Row, edited: seq<Row>)
    requires k < |rows| && edited == rows[k := row]
    requires Accepted(h, rows) && row.checksum == h(ChainInput(HeadAt(rows, k), row.entry))
    ensures InputAt(edited, k) == ChainInput(HeadAt(rows, k), row.entry)
    ensures forall i | 0 <= i < |edited| && i != k + 1 :: Sound(h, edited, i)
  {
    assert HeadAt(edited, k) == HeadAt(rows, k);
    forall i | 0 <= i < |edited| && i != k && i != k + 1
      ensures Sound(h, edited, i)
    {
      BeforeEdit(h, rows, k, row, i);
      assert Sound(h, rows, i);
    }
  }

  /** A row edited in place with its checksum recomputed, whatever is written into it. At the end of the log the edit
      goes unnoticed. Before the end it goes unnoticed if and only if the hashed text is the one it was, up to a
      collision; otherwise it is reported at the successor. */
  lemma EditReportedNext(h: Hash, rows: seq<Row>, k: nat, row: Row)
    requires k < |rows| && Accepted(h, rows) && YieldsDigests(h)
    requires row.checksum == h(ChainInput(HeadAt(rows, k), row.entry))
    ensures k + 1 == |rows| ==> Accepted(h, rows[k := row])
    ensures var same := ChainInput(HeadAt(rows, k), row.entry) == InputAt(rows, k);
      k + 1 < |rows| ==>
        && (same ==> Accepted(h, rows[k := row]))
        && (Accepted(h, rows[k := row]) ==> same || CollisionNear(h, rows, rows[k := row], k))
        && (!same ==> FirstBreak(h, rows[k := row], k + 1) || CollisionNear(h, rows, rows[k := row], k))
  {
    var edited := rows[k := row];
    OthersSound(h, rows, k, row, edited);
    assert Sound(h, rows, k);
    if k + 1 < |rows| {
      assert Sound(h, rows, k + 1);
      if InputAt(edited, k) == InputAt(rows, k) {
        assert InputAt(edited, k + 1) == InputAt(rows, k + 1);
      } else if row.checksum == rows[k].checksum {
        assert Collision(h, InputAt(rows, k), InputAt(edited, k));
      } else if Sound(h, edited, k + 1) {
        assert IsDigest(h(InputAt(rows, k))) && IsDigest(h(InputAt(edited, k)));
        DifferentHeads(rows[k].checksum, row.checksum, rows[k + 1].entry);
        assert Collision(h, InputAt(rows, k + 1), InputAt(edited, k + 1));
      }
    }
  }

  /** Inside the program's own vocabulary no other row has the same text, so every such edit before the end of the
      log is reported, or a collision is at hand. */
  lemma VocabularyEditReported(h: Hash, rows: seq<Row>, k: nat, row: Row)
    requires k < |rows| && Accepted(h, rows) && YieldsDigests(h)
    requires WellFormed(rows[k].entry) && WellFormed(row.entry) && row.entry != rows[k].entry
    requires row.checksum == h(ChainInput(HeadAt(rows, k), row.entry))
    ensures k + 1 < |rows| ==> FirstBreak(h, rows[k := row], k + 1) || CollisionNear(h, rows, rows[k := row], k)
  {
    EditReportedNext(h, rows, k, row);
    HeadIsPrev(h, rows, k);
    hide ChainInput, WellFormed;
    if ChainInput(HeadAt(rows, k), row.entry) == InputAt(rows, k) {
      ChainInputInjective(HeadAt(rows, k), rows[k].entry, HeadAt(rows, k), row.entry);
    }
  }

  /** Another row with the same text: no separator says where the event type ends and the actor starts, or the actor
      and the will identifier. Without an actor and a will, NULL and the empty identifier read the same. */
  function Reworded(e: Entry): Entry {
    if e.actor != "" then e.(eventType := e.eventType + e.actor[..1], actor := e.actor[1..])
    else if e.willId == None then e.(willId := Some(""))
    else if e.willId == Some("") then e.(willId := None)
    else e.(actor := e.willId.value[..1], willId := Some(e.willId.value[1..]))
  }

  lemma RewordedReadsTheSame(prev: string, e: Entry)
    ensures Reworded(e) != e && ChainInput(prev, Reworded(e)) == ChainInput(prev, e)
  {
    var f := Reworded(e);
    assert |f.actor| != |e.actor| || f.willId != e.willId;
    assert f.eventType + (f.actor + WillText(f.willId)) == e.eventType + (e.actor + WillText(e.willId));
    Parted(prev, e);
    Parted(prev, f);
  }

  lemma Parted(prev: string, e: Entry)
    ensures ChainInput(prev, e) ==
      prev + e.id + (e.eventType + (e.actor + WillText(e.willId))) + Decimal(e.timestamp) + e.metadata
  {
    Regroup(prev, e);
  }

  /** Outside it there is such an edit for every row of every log, wherever it stands and with its checksum left
      alone. */
  lemma UnnoticedEdit(h: Hash, rows: seq<Row>, k: nat)
    requires k < |rows| && Accepted(h, rows)
    ensures var row := rows[k].(entry := Reworded(rows[k].entry));
      row != rows[k] && Accepted(h, rows[k := row])
  {
    var row := rows[k].(entry := Reworded(rows[k].entry));
    RewordedReadsTheSame(HeadAt(rows, k), rows[k].entry);
    assert Sound(h, rows, k);
    hide ChainInput, Reworded;
    var edited := rows[k := row];
    OthersSound(h, rows, k, row, edited);
    if k + 1 < |rows| {
      assert Sound(h, rows, k + 1);
      assert InputAt(edited, k + 1) == InputAt(rows, k + 1);
    }
  }

  /** Whoever can rewrite the whole log can make it say anything: every sequence of entries
      has an accepted chain. */
  lemma {:induction false} AnythingCanBeChained(h: Hash, entries: seq<Entry>) returns (rows: seq<Row>)
    ensures Accepted(h, rows) && |rows| == |entries|
    ensures forall i | 0 <= i < |rows| :: rows[i].entry == entries[i]
  {
    if entries == [] {
      rows := [];
    } else {
      var n := |entries| - 1;
      var before := AnythingCanBeChained(h, entries[..n]);
      var row := Row(n, entries[n], h(ChainInput(HeadAt(before, n), entries[n])));
      AppendSound(h, before, row);
      rows := before + [row];
    }
  }
}
