/** The text that is hashed for one audit row: a concatenation without separators of the previous
    checksum and all fields. It can nevertheless be taken apart again, as long as identifiers have
    the textual UUID form of section 4 of RFC 9562 and the other fields are what the program writes. */
module AuditEncoding {
  import opened Basics

  /** The hashed fields of an `audit_log` row. */
  datatype Entry = Entry(
    id: string,
    timestamp: int,
    eventType: string,
    willId: Option<string>,
    actor: string,
    metadata: string)

  // ----- field vocabularies -----

  datatype Event =
    | WillCreated | WillActivated | WillPaused | WillArchived
    | CheckIn | CheckInFailed
    | TriggerInitiated
    | ActionQueued | ActionCompleted | ActionFailed | ActionExhausted
    | Triggered
    | KeyRotation
    | DaemonStart | DaemonStop
    | MigrationRun | BackupCreated | ConfigChanged | Unlock

  function EventName(e: Event): string {
    match e
    case WillCreated => "will_created"
    case WillActivated => "will_activated"
    case WillPaused => "will_paused"
    case WillArchived => "will_archived"
    case CheckIn => "check_in"
    case CheckInFailed => "check_in_failed"
    case TriggerInitiated => "trigger_initiated"
    case ActionQueued => "action_queued"
    case ActionCompleted => "action_completed"
    case ActionFailed => "action_failed"
    case ActionExhausted => "action_exhausted"
    case Triggered => "triggered"
    case KeyRotation => "key_rotation"
    case DaemonStart => "daemon_start"
    case DaemonStop => "daemon_stop"
    case MigrationRun => "migration_run"
    case BackupCreated => "backup_created"
    case ConfigChanged => "config_changed"
    case Unlock => "unlock"
  }

  datatype Actor = User | Scheduler | Unlocker | Daemon | Cli

  function ActorName(a: Actor): string {
    match a
    case User => "user"
    case Scheduler => "scheduler"
    case Unlocker => "unlock"
    case Daemon => "daemon"
    case Cli => "cli"
  }

  predicate IsDigit(c: char) {
    '0' <= c <= '9'
  }

  predicate IsHex(c: char) {
    IsDigit(c) || 'a' <= c <= 'f'
  }

  /** A SHA-256 value in lower-case hexadecimal. */
  ghost predicate IsDigest(s: string) {
    |s| == 64 && forall i | 0 <= i < 64 :: IsHex(s[i])
  }

  predicate DashAt(i: int) {
    i == 8 || i == 13 || i == 18 || i == 23
  }

  predicate IsUuid(s: string) {
    |s| == 36 && forall i | 0 <= i < 36 :: if DashAt(i) then s[i] == '-' else IsHex(s[i])
  }

  // ----- encoding -----

  function DigitChar(d: nat): char
    requires d < 10
  {
    ('0' as int + d) as char
  }

  function Digits(n: nat): (s: string)
    ensures |s| > 0 && forall i | 0 <= i < |s| :: IsDigit(s[i])
  {
    if n < 10 then [DigitChar(n)] else Digits(n / 10) + [DigitChar(n % 10)]
  }

  /** `%d` */
  function Decimal(n: int): string {
    if n >= 0 then Digits(n) else "-" + Digits(-n)
  }

  function WillText(w: Option<string>): string {
    if w.Some? then w.value else ""
  }

  function ChainInput(prev: string, e: Entry): string {
    prev + e.id + e.eventType + e.actor + WillText(e.willId) + Decimal(e.timestamp) + e.metadata
  }

  /** What the program itself writes. */
  ghost predicate WellFormed(e: Entry) {
    && IsUuid(e.id)
    && e.timestamp >= 0
    && (exists v: Event :: e.eventType == EventName(v))
    && (exists a: Actor :: e.actor == ActorName(a))
    && (e.willId.Some? ==> IsUuid(e.willId.value))
    && |e.metadata| > 0 && e.metadata[0] == '{'
  }

  ghost predicate IsPrev(prev: string) {
    prev == "" || IsDigest(prev)
  }

  // ----- decoding -----

  function At(s: string, i: nat): char {
    if i < |s| then s[i] else ' '
  }

  function EventOf(s: string): Event {
    var c := At(s, 0);
    if c == 'w' then
      if At(s, 5) == 'c' then WillCreated
      else if At(s, 5) == 'p' then WillPaused
      else if At(s, 6) == 'c' then WillActivated
      else WillArchived
    else if c == 'c' then
      if At(s, 1) == 'o' then ConfigChanged else if At(s, 8) == '_' then CheckInFailed else CheckIn
    else if c == 't' then
      if At(s, 7) == '_' then TriggerInitiated else Triggered
    else if c == 'a' then
      if At(s, 7) == 'q' then ActionQueued
      else if At(s, 7) == 'c' then ActionCompleted
      else if At(s, 7) == 'f' then ActionFailed
      else ActionExhausted
    else if c == 'd' then
      if At(s, 9) == 'a' then DaemonStart else DaemonStop
    else if c == 'k' then KeyRotation
    else if c == 'm' then MigrationRun
    else if c == 'b' then BackupCreated
    else Unlock
  }

  function ActorOf(s: string): Actor {
    var c := At(s, 0);
    if c == 's' then Scheduler
    else if c == 'd' then Daemon
    else if c == 'c' then Cli
    else if At(s, 1) == 's' then User
    else Unlocker
  }

  function Take(s: string, n: nat): string {
    if n <= |s| then s[..n] else s
  }

  function Drop(s: string, n: nat): string {
    if n <= |s| then s[n..] else ""
  }

  function LeadingDigits(s: string): (n: nat)
    ensures n <= |s|
  {
    if |s| > 0 && IsDigit(s[0]) then 1 + LeadingDigits(s[1..]) else 0
  }

  function Number(s: string): nat {
    if |s| == 0 then 0
    else Number(s[..|s| - 1]) * 10 + (if IsDigit(s[|s| - 1]) then s[|s| - 1] as int - '0' as int else 0)
  }

  /** The previous checksum ends where the row id starts: an id has a dash where a digest cannot. */
  function PrevOf(s: string): string {
    if At(s, 8) == '-' then "" else Take(s, 64)
  }

  function WillOf(s: string): Option<string> {
    if IsUuid(Take(s, 36)) then Some(Take(s, 36)) else None
  }

  function Parse(s: string): (string, Entry) {
    var prev := PrevOf(s);
    var s1 := Drop(s, |prev|);
    var id := Take(s1, 36);
    var s2 := Drop(s1, 36);
    var eventType := EventName(EventOf(s2));
    var s3 := Drop(s2, |eventType|);
    var actor := ActorName(ActorOf(s3));
    var s4 := Drop(s3, |actor|);
    var willId := WillOf(s4);
    var s5 := Drop(s4, |WillText(willId)|);
    var n := LeadingDigits(s5);
    (prev, Entry(id, Number(Take(s5, n)), eventType, willId, actor, Drop(s5, n)))
  }

  // ----- decoding undoes encoding -----

  lemma TakeDrop(a: string, b: string)
    ensures Take(a + b, |a|) == a && Drop(a + b, |a|) == b
  {
  }

  lemma AtConcat(a: string, b: string, i: nat)
    ensures i < |a| ==> At(a + b, i) == a[i]
    ensures |a| <= i < |a| + |b| ==> At(a + b, i) == b[i - |a|]
  {
  }

  lemma EventDecodes(v: Event, rest: string)
    requires |rest| > 0 && rest[0] != '_'
    ensures EventOf(EventName(v) + rest) == v
  {
    var n := EventName(v);
    AtConcat(n, rest, 0);
    AtConcat(n, rest, 1);
    AtConcat(n, rest, 5);
    AtConcat(n, rest, 6);
    AtConcat(n, rest, 7);
    AtConcat(n, rest, 8);
    AtConcat(n, rest, 9);
  }

  lemma ActorDecodes(a: Actor, rest: string)
    ensures ActorOf(ActorName(a) + rest) == a
  {
  }

  lemma {:induction false} NumberOfDigits(n: nat)
    ensures Number(Digits(n)) == n
  {
    var s := Digits(n);
    if n >= 10 {
      NumberOfDigits(n / 10);
      assert s[..|s| - 1] == Digits(n / 10);
    } else {
      assert s[..|s| - 1] == "";
    }
  }

  lemma {:induction false} DigitsEnd(a: string, b: string)
    requires forall i | 0 <= i < |a| :: IsDigit(a[i])
    requires |b| > 0 && !IsDigit(b[0])
    ensures LeadingDigits(a + b) == |a|
  {
    if a == "" {
      assert a + b == b;
    } else {
      assert (a + b)[0] == a[0];
      assert (a + b)[1..] == a[1..] + b;
      DigitsEnd(a[1..], b);
    }
  }

  lemma PrevDecodes(prev: string, id: string, rest: string)
    requires IsPrev(prev) && IsUuid(id)
    ensures PrevOf(prev + (id + rest)) == prev
  {
  }

  /** Digits followed by a brace never look like an identifier. */
  lemma NoUuidInDigits(digits: string, meta: string)
    requires |digits| > 0 && forall i | 0 <= i < |digits| :: IsDigit(digits[i])
    requires |meta| > 0 && meta[0] == '{'
    ensures !IsUuid(Take(digits + meta, 36))
  {
    var s, i := digits + meta, if |digits| < 8 then |digits| else 8;
    if |s| >= 36 {
      assert Take(s, 36)[i] == s[i];
      assert DashAt(i) <==> i == 8;
    }
  }

  lemma WillDecodes(w: Option<string>, digits: string, meta: string)
    requires w.Some? ==> IsUuid(w.value)
    requires |digits| > 0 && forall i | 0 <= i < |digits| :: IsDigit(digits[i])
    requires |meta| > 0 && meta[0] == '{'
    ensures WillOf(WillText(w) + (digits + meta)) == w
  {
    if w.Some? {
      TakeDrop(w.value, digits + meta);
    } else {
      assert "" + (digits + meta) == digits + meta;
      NoUuidInDigits(digits, meta);
    }
  }

  lemma Regroup(prev: string, e: Entry)
    ensures ChainInput(prev, e) ==
      prev + (e.id + (e.eventType + (e.actor + (WillText(e.willId) + (Decimal(e.timestamp) + e.metadata)))))
  {
  }

  lemma ActorStart(a: Actor)
    ensures |ActorName(a)| > 0 && ActorName(a)[0] != '_'
  {
  }

  /** Unique decoding: everything that was hashed can be read back from the hashed text. */
  lemma ParseInverts(prev: string, e: Entry)
    requires IsPrev(prev) && WellFormed(e)
    ensures Parse(ChainInput(prev, e)) == (prev, e)
  {
    var v: Event :| e.eventType == EventName(v);
    var a: Actor :| e.actor == ActorName(a);
    var digits, meta := Decimal(e.timestamp), e.metadata;
    var s5 := digits + meta;
    var s4 := WillText(e.willId) + s5;
    var s3 := e.actor + s4;
    var s2 := e.eventType + s3;
    var s1 := e.id + s2;
    Regroup(prev, e);
    hide EventName, ActorName, ChainInput, IsUuid, WillOf, EventOf, ActorOf, PrevOf, Digits, LeadingDigits, Number;
    PrevDecodes(prev, e.id, s2);
    TakeDrop(prev, s1);
    UuidLength(e.id);
    TakeDrop(e.id, s2);
    ActorStart(a);
    assert s3[0] == e.actor[0];
    EventDecodes(v, s3);
    TakeDrop(e.eventType, s3);
    ActorDecodes(a, s4);
    TakeDrop(e.actor, s4);
    WillDecodes(e.willId, digits, meta);
    TakeDrop(WillText(e.willId), s5);
    DigitsEnd(digits, meta);
    TakeDrop(digits, meta);
    NumberOfDigits(e.timestamp);
  }

  lemma UuidLength(s: string)
    requires IsUuid(s)
    ensures |s| == 36
  {
  }

  /** Two rows are hashed from the same text only if they are the same row after the same checksum. */
  lemma ChainInputInjective(p: string, e: Entry, q: string, f: Entry)
    requires IsPrev(p) && IsPrev(q) && WellFormed(e) && WellFormed(f)
    requires ChainInput(p, e) == ChainInput(q, f)
    ensures p == q && e == f
  {
    ParseInverts(p, e);
    ParseInverts(q, f);
  }

  /** Whatever else the rows hold, row ids in UUID form let the text be split after the id. */
  lemma TextDeterminesId(p: string, e: Entry, q: string, f: Entry)
    requires IsPrev(p) && IsPrev(q) && IsUuid(e.id) && IsUuid(f.id)
    requires ChainInput(p, e) == ChainInput(q, f)
    ensures p == q && e.id == f.id
  {
    Regroup(p, e);
    Regroup(q, f);
    var s := e.eventType + (e.actor + (WillText(e.willId) + (Decimal(e.timestamp) + e.metadata)));
    var t := f.eventType + (f.actor + (WillText(f.willId) + (Decimal(f.timestamp) + f.metadata)));
    hide ChainInput, PrevOf, IsUuid;
    PrevDecodes(p, e.id, s);
    PrevDecodes(q, f.id, t);
    TakeDrop(p, e.id + s);
    TakeDrop(q, f.id + t);
    UuidLength(e.id);
    UuidLength(f.id);
    TakeDrop(e.id, s);
    TakeDrop(f.id, t);
  }

  // ----- where the encoding is ambiguous -----

  function Pow10(n: nat): nat {
    if n == 0 then 1 else 10 * Pow10(n - 1)
  }

  lemma {:induction false} LeadingOne(n: nat, b: nat)
    requires n >= 1 && Pow10(n - 1) <= b < Pow10(n)
    ensures Digits(Pow10(n) + b) == "1" + Digits(b)
  {
    if n == 1 {
      assert Pow10(1) == 10 && Digits(1) == "1";
      assert (10 + b) / 10 == 1 && (10 + b) % 10 == b;
    } else {
      LeadingOne(n - 1, b / 10);
      assert (Pow10(n) + b) / 10 == Pow10(n - 1) + b / 10;
      assert (Pow10(n) + b) % 10 == b % 10;
      assert "1" + Digits(b) == ("1" + Digits(b / 10)) + [DigitChar(b % 10)];
    }
  }

  /** A row whose will identifier ends in the leading digit of the timestamp it took over. */
  function Shifted(e: Entry): Entry
    requires e.willId.Some?
  {
    e.(willId := Some(e.willId.value + "1"), timestamp := e.timestamp - 1000000000)
  }

  /** The handlers log whatever identifier the request names, and the column is plain text. Without the UUID form of
      will identifiers the encoding is ambiguous: for every clock reading from November 2004 to May 2033, a row and the
      row that moves the first digit of its timestamp to the end of the identifier have the same text. */
  lemma AmbiguousWithoutUuid(prev: string, e: Entry)
    requires e.willId.Some? && 1100000000 <= e.timestamp < 2000000000
    ensures Shifted(e) != e && ChainInput(prev, Shifted(e)) == ChainInput(prev, e)
  {
    var ts := e.timestamp - 1000000000;
    assert Pow10(3) == 1000;
    assert Pow10(6) == 1000000;
    assert Pow10(8) == 100000000 && Pow10(9) == 1000000000;
    LeadingOne(9, ts);
    var before, w := prev + e.id + e.eventType + e.actor, e.willId.value;
    assert before + (w + "1") + Digits(ts) == before + w + ("1" + Digits(ts));
  }
}
