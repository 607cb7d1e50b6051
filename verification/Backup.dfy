/** Backup and restore over a map of files. The snapshot is whatever bytes `VACUUM INTO` wrote, or a plain
    copy when it failed. Reads of missing files give no bytes, as the program ignores those errors. */
module Backup {
  import opened Basics
  import opened AuditEncoding
  import opened AuditChain
  import opened CryptoEngine

  type Path = string

  datatype Manifest = Manifest(version: int, createdAt: int, dbChecksum: string, schemaVersion: int, encrypted: bool)

  /** JSON encoding of a manifest; text that is no manifest reads as some manifest. */
  datatype ManifestCodec = ManifestCodec(marshal: Manifest -> Bytes, unmarshal: Bytes -> Manifest)

  ghost predicate ManifestsRoundTrip(codec: ManifestCodec) {
    forall m: Manifest :: codec.unmarshal(codec.marshal(m)) == m
  }

  const SALT_SIZE: nat := 32
  const BACKUP_ITERS: nat := 600000

  function EncPath(path: Path): Path { path + ".enc" }
  function ManifestPath(path: Path): Path { path + ".manifest" }
  function TmpPath(path: Path): Path { path + ".tmp" }

  /** Where `CreateBackup` leaves the backup. */
  function FinalPath(path: Path, passphrase: string): Path {
    if passphrase == "" then path else EncPath(path)
  }

  function ReadFile(files: map<Path, Bytes>, path: Path): Bytes {
    if path in files then files[path] else ""
  }

  datatype RestoreResult =
    | ManifestMissing | PassphraseRequired | InvalidBackup | CannotDecrypt | ChecksumMismatch | Restored

  /** The random bytes of one encrypted backup, and the ciphertext the cipher answers with. */
  datatype Seed = Seed(salt: Bytes, nonce: Bytes, ct: Bytes)

  /** A backup at `path`: its manifest, and the snapshot in the clear or sealed under the passphrase. */
  ghost predicate BackupAt(h: Hash, kdf: Kdf, codec: ManifestCodec, files: map<Path, Bytes>, l: Ledger,
                           path: Path, passphrase: string, snapshot: Bytes) {
    && path in files && ManifestPath(path) in files
    && var m := codec.unmarshal(files[ManifestPath(path)]);
    && m.dbChecksum == h(snapshot)
    && m.encrypted == (passphrase != "")
    && if passphrase == "" then files[path] == snapshot
       else SealedSnapshot(kdf, files[path], l, passphrase, snapshot)
  }

  ghost predicate SealedSnapshot(kdf: Kdf, stored: Bytes, l: Ledger, passphrase: string, snapshot: Bytes) {
    && |stored| >= SALT_SIZE + NONCE_SIZE
    && var b := Box(kdf(passphrase, stored[..SALT_SIZE], BACKUP_ITERS),
                    stored[SALT_SIZE..SALT_SIZE + NONCE_SIZE], "", stored[SALT_SIZE + NONCE_SIZE..]);
    b in l && l[b] == snapshot
  }

  /** What the snapshot file holds. The fallback truncates its destination before it copies, so a backup
      onto the database file itself copies nothing. */
  function SnapshotOf(files: map<Path, Bytes>, dbPath: Path, path: Path, vacuum: Option<Bytes>): Option<Bytes> {
    if vacuum.Some? then vacuum
    else if dbPath !in files then None
    else if path == dbPath then Some("")
    else Some(files[dbPath])
  }

  /** The random bytes fit and are fresh. */
  ghost predicate Usable(seed: Seed, l: Ledger, plain: Bytes) {
    |seed.salt| == SALT_SIZE && MaySeal(l, seed.nonce, plain, seed.ct)
  }

  datatype Read = Failure(r: RestoreResult) | Data(bytes: Bytes)

  /** What `RestoreBackup` makes of the files at `path` before it touches the database. */
  function ReadBackup(h: Hash, kdf: Kdf, codec: ManifestCodec, files: map<Path, Bytes>, l: Ledger,
                      path: Path, passphrase: string): Read {
    if ManifestPath(path) !in files then Failure(ManifestMissing)
    else
      var m, stored := codec.unmarshal(files[ManifestPath(path)]), ReadFile(files, path);
      if !m.encrypted then Checked(h, m, stored)
      else if passphrase == "" then Failure(PassphraseRequired)
      else if |stored| < SALT_SIZE + NONCE_SIZE then Failure(InvalidBackup)
      else match Unsealed(kdf, stored, l, passphrase)
        case None => Failure(CannotDecrypt)
        case Some(data) => Checked(h, m, data)
  }

  function Unsealed(kdf: Kdf, stored: Bytes, l: Ledger, passphrase: string): Option<Bytes>
    requires |stored| >= SALT_SIZE + NONCE_SIZE
  {
    Open(l, kdf(passphrase, stored[..SALT_SIZE], BACKUP_ITERS),
         stored[SALT_SIZE..SALT_SIZE + NONCE_SIZE], stored[SALT_SIZE + NONCE_SIZE..], "")
  }

  function Checked(h: Hash, m: Manifest, data: Bytes): Read {
    if h(data) == m.dbChecksum then Data(data) else Failure(ChecksumMismatch)
  }

  /** Written to a temporary file that is then renamed over the database. */
  function Replaced(files: map<Path, Bytes>, dbPath: Path, data: Bytes): map<Path, Bytes> {
    (files - {TmpPath(dbPath)})[dbPath := data]
  }

  /** A backup reads back as its snapshot. */
  lemma BackupReads(h: Hash, kdf: Kdf, codec: ManifestCodec, files: map<Path, Bytes>, l: Ledger,
                    path: Path, passphrase: string, snapshot: Bytes)
    requires BackupAt(h, kdf, codec, files, l, path, passphrase, snapshot)
    ensures ReadBackup(h, kdf, codec, files, l, path, passphrase) == Data(snapshot)
  {
  }

  /** Another passphrase reads nothing, unless it derives the very same key. */
  lemma OtherPassphraseFails(h: Hash, kdf: Kdf, codec: ManifestCodec, files: map<Path, Bytes>, l: Ledger,
                             path: Path, passphrase: string, other: string, snapshot: Bytes)
    requires LedgerOk(l) && passphrase != ""
    requires BackupAt(h, kdf, codec, files, l, path, passphrase, snapshot)
    requires kdf(other, Take(files[path], SALT_SIZE), BACKUP_ITERS)
          != kdf(passphrase, Take(files[path], SALT_SIZE), BACKUP_ITERS)
    ensures ReadBackup(h, kdf, codec, files, l, path, other)
         == Failure(if other == "" then PassphraseRequired else CannotDecrypt)
  {
  }

  lemma SealedFrames(kdf: Kdf, l: Ledger, passphrase: string, seed: Seed, snapshot: Bytes)
    requires |seed.salt| == SALT_SIZE && |seed.nonce| == NONCE_SIZE
    requires var b := Box(kdf(passphrase, seed.salt, BACKUP_ITERS), seed.nonce, "", seed.ct); b in l && l[b] == snapshot
    ensures SealedSnapshot(kdf, seed.salt + seed.nonce + seed.ct, l, passphrase, snapshot)
  {
    var stored := seed.salt + seed.nonce + seed.ct;
    assert stored[..SALT_SIZE] == seed.salt;
    assert stored[SALT_SIZE..SALT_SIZE + NONCE_SIZE] == seed.nonce;
    assert stored[SALT_SIZE + NONCE_SIZE..] == seed.ct;
  }

  ghost predicate SameElsewhere(files: map<Path, Bytes>, files': map<Path, Bytes>, touched: set<Path>) {
    forall p | p !in touched :: (p in files' <==> p in files) && (p in files' ==> files'[p] == files[p])
  }

  class Backups {
    const hash: Hash
    const kdf: Kdf
    const codec: ManifestCodec
    var files: map<Path, Bytes>
    var ledger: Ledger
    var open: bool

    constructor (h: Hash, k: Kdf, c: ManifestCodec)
      ensures hash == h && kdf == k && codec == c && files == map[] && ledger == map[] && open
    {
      hash, kdf, codec, files, ledger, open := h, k, c, map[], map[], true;
    }

    method TakeSnapshot(dbPath: Path, path: Path, vacuum: Option<Bytes>) returns (ok: bool)
      modifies this`files
      ensures ok <==> vacuum.Some? || dbPath in old(files)
      ensures !ok ==> files == old(files)
      ensures vacuum.Some? ==> files == old(files)[path := vacuum.value]
      ensures vacuum.None? && dbPath in old(files) ==>
        files == old(files)[path := if path == dbPath then "" else old(files)[dbPath]]
      ensures ok <==> SnapshotOf(old(files), dbPath, path, vacuum).Some?
      ensures ok ==> path in files && SnapshotOf(old(files), dbPath, path, vacuum) == Some(files[path])
    {
      if vacuum.Some? {
        files := files[path := vacuum.value];
      } else {
        if dbPath !in files {
          return false;
        }
        files := files[path := ""];
        files := files[path := files[dbPath]];
      }
      return true;
    }

    /** Checksum, optional encryption and manifest, for a snapshot already in place. */
    method Finish(path: Path, passphrase: string, seed: Seed, now: int) returns (final: Path)
      requires path in files && ManifestsRoundTrip(codec) && LedgerOk(ledger)
      requires passphrase != "" ==> Usable(seed, ledger, files[path])
      modifies this`files, this`ledger
      ensures final == FinalPath(path, passphrase) && LedgerOk(ledger)
      ensures BackupAt(hash, kdf, codec, files, ledger, final, passphrase, old(files)[path])
      ensures passphrase == "" ==> final == path && files[path] == old(files)[path]
      ensures passphrase != "" ==>
        && path !in files && final == path + ".enc" && files[final] == seed.salt + seed.nonce + seed.ct
        && var box := Box(kdf(passphrase, seed.salt, 600000), seed.nonce, "", seed.ct);
        box in ledger && ledger[box] == old(files)[path]
      ensures files[final + ".manifest"] ==
              codec.marshal(Manifest(1, now, hash(old(files)[path]), 2, passphrase != ""))
      ensures SameElsewhere(old(files), files, {path, final, ManifestPath(final)})
    {
      var snapshot := files[path];
      var manifest := Manifest(1, now, hash(snapshot), 2, passphrase != "");
      final := path;
      if passphrase != "" {
        var key := kdf(passphrase, seed.salt, BACKUP_ITERS);
        ledger := Seal(ledger, key, seed.nonce, snapshot, "", seed.ct);
        final := EncPath(path);
        files := files[final := seed.salt + seed.nonce + seed.ct];
        files := files - {path};
        SealedFrames(kdf, ledger, passphrase, seed, snapshot);
      }
      assert ManifestPath(final) != final && ManifestPath(final) != path;
      assert codec.unmarshal(codec.marshal(manifest)) == manifest;
      files := files[ManifestPath(final) := codec.marshal(manifest)];
    }

    /** `CreateBackup`; the audit event is logged after the snapshot was taken. */
    method CreateBackup(dbPath: Path, path: Path, passphrase: string, vacuum: Option<Bytes>, seed: Seed, now: int,
                        aud: AuditService, eventId: string, metadata: string)
      returns (ok: bool)
      requires aud.Valid() && ManifestsRoundTrip(codec) && LedgerOk(ledger)
      requires var snapshot := SnapshotOf(files, dbPath, path, vacuum);
        passphrase != "" && snapshot.Some? ==> Usable(seed, ledger, snapshot.value)
      modifies this`files, this`ledger, aud
      ensures aud.Valid() && LedgerOk(ledger)
      ensures ok <==> vacuum.Some? || dbPath in old(files)
      ensures !ok ==> files == old(files) && aud.rows == old(aud.rows)
      ensures var final := FinalPath(path, passphrase);
        ok ==> BackupAt(hash, kdf, codec, files, ledger, final, passphrase,
                        if vacuum.Some? then vacuum.value else if path == dbPath then "" else old(files)[dbPath])
      ensures ok && passphrase != "" ==> path !in files
      ensures var final := FinalPath(path, passphrase);
        SameElsewhere(old(files), files, {path, final, ManifestPath(final)})
      ensures old(aud.rows) <= aud.rows
      ensures ok && (forall i | 0 <= i < |old(aud.rows)| :: old(aud.rows)[i].entry.id != eventId) ==>
        && |aud.rows| == |old(aud.rows)| + 1
        && aud.rows[|old(aud.rows)|].entry == Entry(eventId, now, "backup_created", None, "cli", metadata)
      ensures Accepted(aud.hash, old(aud.rows)) ==> Accepted(aud.hash, aud.rows)
    {
      hide Accepted, BackupAt, Usable, ManifestsRoundTrip;
      ok := TakeSnapshot(dbPath, path, vacuum);
      if ok {
        var final := Finish(path, passphrase, seed, now);
        var logged := aud.Log("backup_created", "cli", None, Some(metadata), eventId, now);
        assert logged ==> aud.rows == old(aud.rows) + aud.rows[|old(aud.rows)|..];
      }
    }

    /** `RestoreBackup`. Any failed check leaves every file as it was. */
    method RestoreBackup(dbPath: Path, path: Path, passphrase: string) returns (r: RestoreResult)
      modifies this`files, this`open
      ensures var x := ReadBackup(hash, kdf, codec, old(files), ledger, path, passphrase);
        && r == (if x.Data? then Restored else x.r)
        && files == (if x.Data? then Replaced(old(files), dbPath, x.bytes) else old(files))
        && open == (if x.Data? then false else old(open))
      ensures r.ManifestMissing? <==> path + ".manifest" !in old(files)
      ensures !r.ManifestMissing? ==>
        var m, stored := codec.unmarshal(old(files)[path + ".manifest"]), ReadFile(old(files), path);
        && (r.PassphraseRequired? <==> m.encrypted && passphrase == "")
        && (r.InvalidBackup? <==> m.encrypted && passphrase != "" && |stored| < 44)
        && (r.Restored? ==> dbPath in files && hash(files[dbPath]) == m.dbChecksum)
        && (r.Restored? && !m.encrypted ==> files[dbPath] == stored)
        && (!m.encrypted ==> (r.Restored? <==> hash(stored) == m.dbChecksum) && (!r.Restored? <==> r.ChecksumMismatch?))
        && (m.encrypted && passphrase != "" && |stored| >= 44 ==>
              var box := Box(kdf(passphrase, stored[..32], 600000), stored[32..44], "", stored[44..]);
              && (r.CannotDecrypt? <==> box !in ledger)
              && (r.Restored? <==> box in ledger && hash(ledger[box]) == m.dbChecksum)
              && (r.Restored? ==> files[dbPath] == ledger[box]))
      ensures r.Restored? ==> dbPath + ".tmp" !in files && SameElsewhere(old(files), files, {dbPath, dbPath + ".tmp"})
      ensures !r.Restored? ==> files == old(files)
    {
      if ManifestPath(path) !in files {
        return ManifestMissing;
      }
      var manifest := codec.unmarshal(files[ManifestPath(path)]);
      var data := ReadFile(files, path);
      if manifest.encrypted {
        if passphrase == "" {
          return PassphraseRequired;
        }
        if |data| < SALT_SIZE + NONCE_SIZE {
          return InvalidBackup;
        }
        var plain := Unsealed(kdf, data, ledger, passphrase);
        if plain.None? {
          return CannotDecrypt;
        }
        data := plain.value;
      }
      if hash(data) != manifest.dbChecksum {
        return ChecksumMismatch;
      }
      open := false;
      var tmp := TmpPath(dbPath);
      files := files[tmp := data];
      files := (files - {tmp})[dbPath := data];
      return Restored;
    }

    /** Restoring a created backup, from where it was left and with the same passphrase, puts the snapshot
        back; the audit log in it is an accepted beginning of the live one. */
    method BackupThenRestore(dbPath: Path, path: Path, passphrase: string, vacuum: Option<Bytes>, seed: Seed, now: int,
                             aud: AuditService, eventId: string, metadata: string, ghost image: Bytes -> seq<Row>)
      returns (ok: bool, r: RestoreResult)
      requires aud.Valid() && ManifestsRoundTrip(codec) && LedgerOk(ledger)
      requires var snapshot := SnapshotOf(files, dbPath, path, vacuum);
        passphrase != "" && snapshot.Some? ==> Usable(seed, ledger, snapshot.value)
      modifies this, aud
      ensures ok <==> vacuum.Some? || dbPath in old(files)
      ensures ok ==> r.Restored? && dbPath in files
      ensures vacuum.Some? ==> files[dbPath] == vacuum.value
      ensures ok && vacuum.None? ==> files[dbPath] == if path == dbPath then "" else old(files)[dbPath]
      ensures ok && image(files[dbPath]) == old(aud.rows) && Accepted(aud.hash, old(aud.rows)) ==>
        image(files[dbPath]) <= aud.rows && Accepted(aud.hash, image(files[dbPath]))
    {
      hide Accepted, BackupAt, Usable, ManifestsRoundTrip, ReadBackup, SameElsewhere;
      r := ManifestMissing;
      ok := CreateBackup(dbPath, path, passphrase, vacuum, seed, now, aud, eventId, metadata);
      if ok {
        var final := FinalPath(path, passphrase);
        BackupReads(hash, kdf, codec, files, ledger, final, passphrase,
                    if vacuum.Some? then vacuum.value else if path == dbPath then "" else old(files)[dbPath]);
        r := RestoreBackup(dbPath, final, passphrase);
      }
    }

    /** Restoring from the path the backup was asked for: an encrypted backup lies at that path plus ".enc" and
        nothing is left under the path itself, so this works exactly when no passphrase was given, or when a leftover
        manifest happens to describe an empty database in the clear. */
    method RestoreFromGivenPath(dbPath: Path, path: Path, passphrase: string, snapshot: Bytes)
      returns (r: RestoreResult)
      requires BackupAt(hash, kdf, codec, files, ledger, FinalPath(path, passphrase), passphrase, snapshot)
      requires passphrase != "" ==> path !in files
      modifies this
      ensures r.Restored? <==> passphrase == "" || DescribesEmpty(hash, codec, old(files), path)
      ensures passphrase != "" && ManifestPath(path) !in old(files) ==> r.ManifestMissing?
      ensures !r.Restored? ==> files == old(files)
    {
      if passphrase == "" {
        BackupReads(hash, kdf, codec, files, ledger, path, passphrase, snapshot);
      }
      r := RestoreBackup(dbPath, path, passphrase);
    }
  }

  ghost predicate DescribesEmpty(h: Hash, codec: ManifestCodec, files: map<Path, Bytes>, path: Path) {
    && ManifestPath(path) in files
    && !codec.unmarshal(files[ManifestPath(path)]).encrypted
    && codec.unmarshal(files[ManifestPath(path)]).dbChecksum == h("")
  }
}
