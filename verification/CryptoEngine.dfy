/** The key hierarchy passphrase - KEK - DEK and the engine that holds the KEK. AES-GCM is ideal:
    a ledger remembers every sealed text, and nothing else ever opens. PBKDF2 is any function. */
module CryptoEngine {
  import opened Basics

  /** Go byte strings. */
  type Bytes = string

  type Key = Bytes

  type Kdf = (string, Bytes, nat) -> Key

  // ----- ideal authenticated encryption -----

  datatype Box = Box(key: Key, nonce: Bytes, aad: Bytes, ct: Bytes)

  type Ledger = map<Box, Bytes>

  const NONCE_SIZE: nat := 12
  const TAG_SIZE: nat := 16

  /** A nonce and a ciphertext that have not been produced before. */
  ghost predicate Fresh(l: Ledger, nonce: Bytes, ct: Bytes) {
    forall b | b in l :: !(b.nonce == nonce && b.ct == ct)
  }

  ghost predicate MaySeal(l: Ledger, nonce: Bytes, plaintext: Bytes, ct: Bytes) {
    |nonce| == NONCE_SIZE && |ct| == |plaintext| + TAG_SIZE && Fresh(l, nonce, ct)
  }

  function Seal(l: Ledger, key: Key, nonce: Bytes, plaintext: Bytes, aad: Bytes, ct: Bytes): Ledger {
    l[Box(key, nonce, aad, ct) := plaintext]
  }

  function Open(l: Ledger, key: Key, nonce: Bytes, ct: Bytes, aad: Bytes): Option<Bytes> {
    var b := Box(key, nonce, aad, ct);
    if b in l then Some(l[b]) else None
  }

  /** No nonce and ciphertext were produced twice. */
  ghost predicate LedgerOk(l: Ledger) {
    forall b, c | b in l && c in l && b.nonce == c.nonce && b.ct == c.ct :: b == c
  }

  /** What was sealed opens to the same text, under no other key and with no other associated data. */
  lemma OpensOnlyAsSealed(l: Ledger, b: Box, key: Key, aad: Bytes)
    requires LedgerOk(l) && b in l
    ensures Open(l, key, b.nonce, b.ct, aad) == if key == b.key && aad == b.aad then Some(l[b]) else None
  {
  }

  // ----- the engine -----

  datatype Meta = Meta(id: string, kekId: string, dekCiphertext: Bytes, dekNonce: Bytes, salt: Bytes, iters: nat)

  datatype EngineState = EngineState(initialized: bool, kek: Option<Key>, kekId: string)

  /** Fewer iterations than this are refused. */
  const MIN_ITERS: nat := 600000

  /** The DEK under the current KEK; the wrap carries no associated data. */
  function DekOf(e: EngineState, l: Ledger, meta: Meta): Option<Key> {
    if e.initialized && e.kek.Some? then Open(l, e.kek.value, meta.dekNonce, meta.dekCiphertext, "") else None
  }

  datatype InitResult = Initialized | AlreadyInitialized | EmptyPassphrase | InvalidMeta

  datatype DekResult = Dek(key: Key) | NotInitialized | DecryptFailed

  datatype UnlockReply = AlreadyUnlocked | NoMeta | Refused | WrongKey | Unlocked

  class Engine {
    const kdf: Kdf
    var initialized: bool
    var kek: Option<Key>
    var kekId: string

    function View(): EngineState
      reads this
    {
      EngineState(initialized, kek, kekId)
    }

    /** An initialized engine holds a KEK. */
    ghost predicate Valid()
      reads this
    {
      initialized ==> kek.Some?
    }

    constructor (k: Kdf)
      ensures Valid() && kdf == k && View() == EngineState(false, None, "")
    {
      kdf, initialized, kek, kekId := k, false, None, "";
    }

    method Initialize(passphrase: string, meta: Meta) returns (r: InitResult)
      requires Valid()
      modifies this
      ensures Valid()
      ensures r.AlreadyInitialized? <==> old(initialized)
      ensures r.Initialized? <==> !old(initialized) && passphrase != "" && |meta.salt| > 0 && meta.iters >= 600000
      ensures r.EmptyPassphrase? <==> !old(initialized) && passphrase == ""
      ensures r.Initialized? ==>
        initialized && kek == Some(kdf(passphrase, meta.salt, meta.iters)) && kekId == meta.kekId
      ensures !r.Initialized? ==> initialized == old(initialized) && kek == old(kek) && kekId == old(kekId)
    {
      if initialized {
        return AlreadyInitialized;
      }
      if passphrase == "" {
        return EmptyPassphrase;
      }
      if |meta.salt| == 0 || meta.iters < MIN_ITERS {
        return InvalidMeta;
      }
      kek := Some(kdf(passphrase, meta.salt, meta.iters));
      kekId := meta.kekId;
      initialized := true;
      return Initialized;
    }

    method DecryptDEK(l: Ledger, meta: Meta) returns (r: DekResult)
      requires Valid()
      ensures r.Dek? <==> DekOf(View(), l, meta).Some?
      ensures r.Dek? <==> initialized && Box(kek.value, meta.dekNonce, "", meta.dekCiphertext) in l
      ensures r.Dek? ==> r.key == l[Box(kek.value, meta.dekNonce, "", meta.dekCiphertext)]
      ensures r.NotInitialized? <==> !initialized
    {
      if !initialized {
        return NotInitialized;
      }
      var plain := Open(l, kek.value, meta.dekNonce, meta.dekCiphertext, "");
      if plain.None? {
        return DecryptFailed;
      }
      return Dek(plain.value);
    }

    /** The KEK is destroyed, so nothing opens until the engine is initialized again. */
    method Shutdown()
      modifies this
      ensures Valid() && View() == EngineState(false, None, old(kekId))
      ensures forall l, meta :: DekOf(View(), l, meta).None?
    {
      kek := None;
      initialized := false;
    }

    /** `handleUnlock`: the passphrase is checked by decrypting the DEK only after the engine was
        initialized with it, and a failed check does not undo the initialization. */
    method HandleUnlock(l: Ledger, passphrase: string, meta: Option<Meta>) returns (reply: UnlockReply)
      requires Valid()
      modifies this
      ensures Valid()
      ensures reply.AlreadyUnlocked? <==> old(initialized)
      ensures reply.AlreadyUnlocked? || reply.NoMeta? || reply.Refused? ==> View() == old(View())
      ensures reply.Unlocked? || reply.WrongKey? ==>
        && meta.Some? && initialized && kekId == meta.value.kekId
        && kek == Some(kdf(passphrase, meta.value.salt, meta.value.iters))
      ensures reply.Unlocked? || reply.WrongKey? ==>
        && (reply.Unlocked? <==> Box(kek.value, meta.value.dekNonce, "", meta.value.dekCiphertext) in l)
      ensures reply.NoMeta? <==> !old(initialized) && meta.None?
      ensures reply.Refused? <==>
        && !old(initialized) && meta.Some?
        && (passphrase == "" || |meta.value.salt| == 0 || meta.value.iters < 600000)
    {
      if initialized {
        return AlreadyUnlocked;
      }
      if meta.None? {
        return NoMeta;
      }
      var r := Initialize(passphrase, meta.value);
      if !r.Initialized? {
        return Refused;
      }
      var dek := DecryptDEK(l, meta.value);
      if !dek.Dek? {
        return WrongKey;
      }
      return Unlocked;
    }

    /** Unlocking with any passphrase when the DEK was wrapped under `right`: the right one unlocks, another one
        exactly when it derives the very same key. */
    method UnlockWrapped(l: Ledger, right: string, passphrase: string, meta: Meta) returns (reply: UnlockReply)
      requires Valid() && !initialized && LedgerOk(l)
      requires Box(kdf(right, meta.salt, meta.iters), meta.dekNonce, "", meta.dekCiphertext) in l
      modifies this
      ensures reply.Refused? <==> passphrase == "" || |meta.salt| == 0 || meta.iters < 600000
      ensures !reply.Refused? ==>
        (reply.Unlocked? <==> kdf(passphrase, meta.salt, meta.iters) == kdf(right, meta.salt, meta.iters))
      ensures !reply.Refused? && passphrase == right ==> reply.Unlocked?
      ensures reply.Refused? || reply.Unlocked? || reply.WrongKey?
    {
      reply := HandleUnlock(l, passphrase, Some(meta));
    }

    /** After a wrong passphrase the engine counts as unlocked: the right passphrase is no longer
        accepted and no DEK opens, until the process is restarted. */
    method WrongPassphraseSticks(l: Ledger, wrong: string, right: string, meta: Meta)
      returns (first: UnlockReply, second: UnlockReply, dek: DekResult)
      requires Valid() && !initialized && wrong != "" && |meta.salt| > 0 && meta.iters >= 600000
      requires Box(kdf(wrong, meta.salt, meta.iters), meta.dekNonce, "", meta.dekCiphertext) !in l
      modifies this
      ensures first.WrongKey? && second.AlreadyUnlocked? && dek.DecryptFailed?
    {
      first := HandleUnlock(l, wrong, Some(meta));
      second := HandleUnlock(l, right, Some(meta));
      dek := DecryptDEK(l, meta);
    }
  }
}
