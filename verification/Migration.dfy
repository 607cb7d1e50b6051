/** Schema migration: one transaction per version, so a run may be cut off between any two of them. */
module Migration {
  import opened Basics

  type Content = string

  type Checksum = string -> string

  /** The embedded migration files: the content for each version, when there is one. */
  type Files = map<nat, Content>

  /** What executing a migration does to a schema; None when SQLite rejects it. */
  type Engine<!S> = (S, Content) -> Option<S>

  datatype Record = Record(version: nat, checksum: string)

  /** `schema` stands for all tables and indexes. */
  datatype Db<S> = Db(schema: S, userVersion: nat, records: seq<Record>)

  datatype Result = Done | NewerThanProgram | FileMissing | ExecFailed | CutOff

  /** One transaction: the script, the version number and the record become visible together or not at all. */
  function Committed<S>(run: Engine<S>, sum: Checksum, files: Files, db: Db<S>): Option<Db<S>> {
    var v := db.userVersion + 1;
    if v !in files then None
    else match run(db.schema, files[v])
      case None => None
      case Some(schema) => Some(Db(schema, v, db.records + [Record(v, sum(files[v]))]))
  }

  /** The database after the first `n` migrations, each applied once and in order. */
  function Reference<S>(run: Engine<S>, sum: Checksum, files: Files, empty: S, n: nat): Option<Db<S>> {
    if n == 0 then Some(Db(empty, 0, []))
    else match Reference(run, sum, files, empty, n - 1)
      case None => None
      case Some(db) => Committed(run, sum, files, db)
  }

  /** In step with some number of migrations. */
  ghost predicate InStep<S>(run: Engine<S>, sum: Checksum, files: Files, empty: S, db: Db<S>) {
    Reference(run, sum, files, empty, db.userVersion) == Some(db)
  }

  predicate RecordOk(sum: Checksum, files: Files, rec: Record, v: nat) {
    v in files && rec == Record(v, sum(files[v]))
  }

  /** `user_version` is v exactly when versions 1 to v are each recorded once, in order, with the checksum
      of their file. */
  lemma {:induction false} RecordsMatchVersion<S>(run: Engine<S>, sum: Checksum, files: Files, empty: S, n: nat)
    requires Reference(run, sum, files, empty, n).Some?
    ensures var db := Reference(run, sum, files, empty, n).value;
      && db.userVersion == n == |db.records|
      && forall i | 0 <= i < n :: RecordOk(sum, files, db.records[i], i + 1)
  {
    if n > 0 {
      RecordsMatchVersion(run, sum, files, empty, n - 1);
    }
  }

  /** Executing the scripts of versions 1 to n once each, and nothing else. */
  function Applied<S>(run: Engine<S>, files: Files, empty: S, n: nat): Option<S> {
    if n == 0 then Some(empty)
    else if n !in files then None
    else match Applied(run, files, empty, n - 1)
      case None => None
      case Some(schema) => run(schema, files[n])
  }

  lemma {:induction false} SchemaIsApplied<S>(run: Engine<S>, sum: Checksum, files: Files, empty: S, n: nat)
    requires Reference(run, sum, files, empty, n).Some?
    ensures Applied(run, files, empty, n) == Some(Reference(run, sum, files, empty, n).value.schema)
  {
    if n > 0 {
      SchemaIsApplied(run, sum, files, empty, n - 1);
      RecordsMatchVersion(run, sum, files, empty, n - 1);
    }
  }

  lemma {:induction false} EarlierReference<S>(run: Engine<S>, sum: Checksum, files: Files, empty: S, m: nat, n: nat)
    requires m <= n && Reference(run, sum, files, empty, n).Some?
    ensures Reference(run, sum, files, empty, m).Some?
    decreases n
  {
    if m < n {
      EarlierReference(run, sum, files, empty, m, n - 1);
    }
  }

  // ----- the program -----

  class Store<S> {
    const run: Engine<S>
    const sum: Checksum
    const files: Files
    var db: Db<S>

    constructor (r: Engine<S>, s: Checksum, f: Files, empty: S)
      ensures run == r && sum == s && files == f && db == Db(empty, 0, [])
    {
      run, sum, files, db := r, s, f, Db(empty, 0, []);
    }

    /** `Migrate`, for a program whose schema version is `target`, cut off once `budget` transactions
        have been committed. */
    method Migrate(ghost empty: S, target: nat, budget: nat) returns (r: Result)
      requires InStep(run, sum, files, empty, db)
      modifies this`db
      ensures InStep(run, sum, files, empty, db)
      ensures r.NewerThanProgram? <==> old(db).userVersion > target
      ensures old(db).userVersion <= db.userVersion
      ensures r.NewerThanProgram? ==> db == old(db)
      ensures !r.NewerThanProgram? ==> db.userVersion <= target
      ensures r.Done? ==> db.userVersion == target
      ensures r.CutOff? ==> db.userVersion == old(db).userVersion + budget < target
      ensures r.FileMissing? ==> db.userVersion < target && db.userVersion + 1 !in files
      ensures r.ExecFailed? ==>
        db.userVersion < target && db.userVersion + 1 in files && run(db.schema, files[db.userVersion + 1]).None?
      ensures r.FileMissing? || r.ExecFailed? ==> Committed(run, sum, files, db).None?
    {
      var current := db.userVersion;
      if current > target {
        return NewerThanProgram;
      }
      if current == target {
        return Done;
      }
      var v := current + 1;
      while v <= target
        invariant current + 1 <= v <= target + 1
        invariant db.userVersion == v - 1
        invariant v - 1 - current <= budget
        invariant InStep(run, sum, files, empty, db)
      {
        if v - 1 - current == budget {
          return CutOff;
        }
        if v !in files {
          return FileMissing;
        }
        var content := files[v];
        var schema := run(db.schema, content);
        if schema.None? {
          return ExecFailed;
        }
        db := Db(schema.value, v, db.records + [Record(v, sum(content))]);
        v := v + 1;
      }
      return Done;
    }

    /** Any number of runs cut off anywhere, then one that completes: the result is the database of
        a single uninterrupted run, and its checksums verify. */
    method Resume(ghost empty: S, target: nat, cuts: seq<nat>) returns (r: Result, verified: bool)
      requires InStep(run, sum, files, empty, db) && db.userVersion <= target
      modifies this`db
      ensures InStep(run, sum, files, empty, db)
      ensures Reference(run, sum, files, empty, target).Some? ==>
        r.Done? && db == Reference(run, sum, files, empty, target).value
      ensures verified
    {
      for i := 0 to |cuts|
        invariant InStep(run, sum, files, empty, db) && db.userVersion <= target
      {
        var cut := Migrate(empty, target, cuts[i]);
      }
      r := Migrate(empty, target, target - db.userVersion);
      if Reference(run, sum, files, empty, target).Some? && db.userVersion < target {
        EarlierReference(run, sum, files, empty, db.userVersion + 1, target);
      }
      RecordsMatchVersion(run, sum, files, empty, db.userVersion);
      var ok, bad := VerifyChecksums();
      verified := ok;
    }

    /** An edit of an applied file, seen by the program that checks afterwards: it is reported, with its version,
        exactly when the checksum of the new content is another one. */
    method VerifyEdited(ghost empty: S, ghost before: Files, v: nat) returns (ok: bool, badVersion: nat)
      requires InStep(run, sum, before, empty, db) && 1 <= v <= db.userVersion
      requires v in before && v in files && files == before[v := files[v]]
      requires LowerHex(sum(files[v])) && LowerHex(sum(before[v]))
      ensures ok <==> sum(files[v]) == sum(before[v])
      ensures !ok ==> badVersion == v
    {
      EditSeen(run, sum, before, files, empty, db, v);
      ok, badVersion := VerifyChecksums();
    }

    /** `VerifyChecksums`: the first record whose file is missing or has another checksum, up to letter case. */
    method VerifyChecksums() returns (ok: bool, badVersion: nat)
      ensures ok <==> forall i | 0 <= i < |db.records| :: Matches(sum, files, db.records[i])
      ensures !ok ==> exists i | 0 <= i < |db.records| ::
        badVersion == db.records[i].version && !Matches(sum, files, db.records[i])
        && forall j | 0 <= j < i :: Matches(sum, files, db.records[j])
    {
      for i := 0 to |db.records|
        invariant forall j | 0 <= j < i :: Matches(sum, files, db.records[j])
      {
        var rec := db.records[i];
        if rec.version !in files || !EqualFold(sum(files[rec.version]), rec.checksum) {
          return false, rec.version;
        }
      }
      return true, 0;
    }
  }

  function Lower(c: char): char {
    if 'A' <= c <= 'Z' then (c as int - 'A' as int + 'a' as int) as char else c
  }

  /** Equality of ASCII strings up to letter case. */
  predicate EqualFold(s: string, t: string) {
    |s| == |t| && forall i | 0 <= i < |s| :: Lower(s[i]) == Lower(t[i])
  }

  predicate Matches(sum: Checksum, files: Files, rec: Record) {
    rec.version in files && EqualFold(sum(files[rec.version]), rec.checksum)
  }

  /** Two texts are equal up to case exactly when every two characters are equal or the two cases of one letter, which
      are 32 apart. */
  lemma EqualFoldIff(s: string, t: string)
    ensures EqualFold(s, t) <==>
      |s| == |t| && forall i | 0 <= i < |s| ::
        || s[i] == t[i]
        || ('A' <= s[i] <= 'Z' && t[i] as int == s[i] as int + 32)
        || ('A' <= t[i] <= 'Z' && s[i] as int == t[i] as int + 32)
  {
  }

  /** Digits and lower-case letters only, as `hex.EncodeToString` writes. */
  ghost predicate LowerHex(s: string) {
    forall i | 0 <= i < |s| :: '0' <= s[i] <= '9' || 'a' <= s[i] <= 'f'
  }

  /** On such texts the comparison is plain equality. */
  lemma EqualFoldOfHex(s: string, t: string)
    requires LowerHex(s) && LowerHex(t)
    ensures EqualFold(s, t) <==> s == t
  {
  }

  /** After an edit of the file of version `v` every other record matches, and that of version `v` exactly if the
      checksum is the old one. */
  lemma EditSeen<S>(run: Engine<S>, sum: Checksum, before: Files, files: Files, empty: S, db: Db<S>, v: nat)
    requires InStep(run, sum, before, empty, db) && 1 <= v <= db.userVersion
    requires v in before && v in files && files == before[v := files[v]]
    requires LowerHex(sum(files[v])) && LowerHex(sum(before[v]))
    ensures |db.records| == db.userVersion && db.records[v - 1].version == v
    ensures Matches(sum, files, db.records[v - 1]) <==> sum(files[v]) == sum(before[v])
    ensures forall i | 0 <= i < |db.records| && i != v - 1 :: Matches(sum, files, db.records[i])
  {
    RecordsMatchVersion(run, sum, before, empty, db.userVersion);
    assert RecordOk(sum, before, db.records[v - 1], v);
    EqualFoldOfHex(sum(files[v]), sum(before[v]));
    forall i | 0 <= i < |db.records| && i != v - 1
      ensures Matches(sum, files, db.records[i])
    {
      assert RecordOk(sum, before, db.records[i], i + 1);
    }
  }

  /** Replacing the file of an applied migration is noticed exactly when the checksum of the new content is another
      one, up to case for any checksum function and outright for one that writes lower-case hexadecimal; a file that is
      gone is always noticed. */
  lemma EditedFileRejected<S>(run: Engine<S>, sum: Checksum, files: Files, empty: S, n: nat, v: nat, content: Content)
    requires Reference(run, sum, files, empty, n).Some? && 1 <= v <= n
    ensures v in files
    ensures var records := Reference(run, sum, files, empty, n).value.records;
      var accepted := forall i | 0 <= i < |records| :: Matches(sum, files[v := content], records[i]);
      && (accepted <==> EqualFold(sum(content), sum(files[v])))
      && (LowerHex(sum(content)) && LowerHex(sum(files[v])) ==> (accepted <==> sum(content) == sum(files[v])))
      && !(forall i | 0 <= i < |records| :: Matches(sum, files - {v}, records[i]))
  {
    RecordsMatchVersion(run, sum, files, empty, n);
    var records := Reference(run, sum, files, empty, n).value.records;
    assert RecordOk(sum, files, records[v - 1], v);
    if LowerHex(sum(content)) && LowerHex(sum(files[v])) {
      EqualFoldOfHex(sum(content), sum(files[v]));
    }
    assert Matches(sum, files[v := content], records[v - 1]) <==> EqualFold(sum(content), sum(files[v]));
    assert !Matches(sum, files - {v}, records[v - 1]);
  }
}
