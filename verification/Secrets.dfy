/** What passphrases, locks and associated data are for: which passphrase makes a stored secret reach the notifier, and
    that a secret moved to another will does not open there. */
module Secrets {
  import opened Basics
  import opened CryptoEngine
  import opened Envelope

  // ----- from the passphrase to the notifier -----

  /** The fresh bytes of the three boxes on the way from an empty database to a delivery. */
  datatype Boxes = Boxes(payloadNonce: Bytes, payloadCt: Bytes, configNonce: Bytes, configCt: Bytes)

  ghost predicate Fits(codec: Codec, meta: Meta, dek: Key, content: Bytes, config: Config, x: Boxes) {
    && |meta.dekNonce| == NONCE_SIZE && |meta.dekCiphertext| == |dek| + TAG_SIZE
    && |x.payloadNonce| == NONCE_SIZE && |x.payloadCt| == |content| + TAG_SIZE
    && |x.configNonce| == NONCE_SIZE && |x.configCt| == |codec.marshal(config)| + TAG_SIZE
    && x.payloadNonce != meta.dekNonce && x.configNonce != meta.dekNonce && x.configNonce != x.payloadNonce
  }

  const NO_VAULT := Vault(map[], map[], EngineState(false, None, ""), map[], map[], [], map[], map[], map[])

  lemma Enlarge(kdf: Kdf, codec: Codec, r: VaultRun, s: VaultStep) returns (r': VaultRun)
    requires IsVaultRun(kdf, codec, r) && Possible(kdf, codec, r.states[|r.states| - 1], s)
    ensures IsVaultRun(kdf, codec, r')
    ensures r' == VaultRun(r.states + [After(kdf, codec, r.states[|r.states| - 1], s)], r.steps + [s])
  {
    hide Possible, After, Empty;
    r' := VaultRun(r.states + [After(kdf, codec, r.states[|r.states| - 1], s)], r.steps + [s]);
  }

  /** A database with one crypto_meta row, enrolled under `right`, and an engine unlocked with `passphrase`. */
  lemma Opened(kdf: Kdf, codec: Codec, right: string, passphrase: string, meta: Meta, dek: Key) returns (r: VaultRun)
    requires passphrase != "" && |meta.salt| > 0 && meta.iters >= 600000
    requires |meta.dekNonce| == NONCE_SIZE && |meta.dekCiphertext| == |dek| + TAG_SIZE
    ensures IsVaultRun(kdf, codec, r) && |r.steps| == 2
    ensures r.steps[0] == Enrol(right, meta, dek) && r.steps[1] == VaultStep.Unlock(passphrase, meta.id)
    ensures var v := r.states[2];
      var box := Box(kdf(right, meta.salt, meta.iters), meta.dekNonce, "", meta.dekCiphertext);
      && v.metas == map[meta.id := meta] && v.ledger == map[box := dek]
      && v.engine == EngineState(true, Some(kdf(passphrase, meta.salt, meta.iters)), meta.kekId)
      && v.wills == map[] && v.actions == map[] && v.calls == []
  {
    r := VaultRun([NO_VAULT], []);
    r := Enlarge(kdf, codec, r, Enrol(right, meta, dek));
    r := Enlarge(kdf, codec, r, VaultStep.Unlock(passphrase, meta.id));
  }

  /** A will and an action are stored, then the engine is locked again. */
  lemma Stocked(kdf: Kdf, codec: Codec, right: string, meta: Meta, dek: Key, w: WillId, content: Bytes,
                a: ActionId, config: Config, x: Boxes)
    returns (r: VaultRun)
    requires right != "" && |meta.salt| > 0 && meta.iters >= 600000 && content != ""
    requires Fits(codec, meta, dek, content, config, x)
    ensures IsVaultRun(kdf, codec, r) && |r.states| == 6
    ensures Holds(kdf, codec, r.states[5], right, meta, dek, w, content, a, config, x)
    ensures r.steps == [Enrol(right, meta, dek), VaultStep.Unlock(right, meta.id),
                        CreateWill(w, content, meta.id, x.payloadNonce, x.payloadCt),
                        AddAction(a, w, config, meta.id, x.configNonce, x.configCt), Lock]
  {
    r := Opened(kdf, codec, right, right, meta, dek);
    hide IsVaultRun;
    r := Enlarge(kdf, codec, r, CreateWill(w, content, meta.id, x.payloadNonce, x.payloadCt));
    r := Enlarge(kdf, codec, r, AddAction(a, w, config, meta.id, x.configNonce, x.configCt));
    r := Enlarge(kdf, codec, r, Lock);
  }

  /** The will and the action are stored, under a DEK wrapped with the key of `right`, and the engine is locked. */
  ghost predicate Holds(kdf: Kdf, codec: Codec, v: Vault, right: string, meta: Meta, dek: Key,
                        w: WillId, content: Bytes, a: ActionId, config: Config, x: Boxes) {
    && v.metas == map[meta.id := meta] && v.engine.kek == None && !v.engine.initialized && v.calls == []
    && v.wills == map[w := WillSecret(x.payloadNonce + x.payloadCt, meta.id)]
    && v.actions == map[a := ActionSecret(w, x.configNonce + x.configCt, meta.id)]
    && v.ledger == map[
         Box(kdf(right, meta.salt, meta.iters), meta.dekNonce, "", meta.dekCiphertext) := dek,
         Box(dek, x.payloadNonce, w + "|" + meta.id, x.payloadCt) := content,
         Box(dek, x.configNonce, w + "|" + meta.id, x.configCt) := codec.marshal(config)]
  }

  lemma WorkAfter(kdf: Kdf, codec: Codec, v: Vault, right: string, passphrase: string, meta: Meta, dek: Key, w: WillId,
                  content: Bytes, a: ActionId, config: Config, x: Boxes)
    requires Holds(kdf, codec, v.(engine := EngineState(false, None, "")), right, meta, dek, w, content, a, config, x)
    requires RoundTrips(codec) && Fits(codec, meta, dek, content, config, x)
    requires v.engine == EngineState(true, Some(kdf(passphrase, meta.salt, meta.iters)), meta.kekId)
    ensures Prepare(codec, v, a, meta) ==
      if kdf(passphrase, meta.salt, meta.iters) == kdf(right, meta.salt, meta.iters)
      then Deliver(Call(a, content, config))
      else Leave
  {
    var payload, text := x.payloadNonce + x.payloadCt, x.configNonce + x.configCt;
    assert payload[..NONCE_SIZE] == x.payloadNonce && payload[NONCE_SIZE..] == x.payloadCt;
    assert text[..NONCE_SIZE] == x.configNonce && text[NONCE_SIZE..] == x.configCt;
    assert codec.unmarshal(codec.marshal(config)) == Some(config);
  }

  /** From the owner's passphrase to the notifier: what was stored with `right` reaches the notifier of a process
      unlocked with another passphrase if and only if that derives the same key; with `right` itself it always does. */
  lemma DeliveryByPassphrase(kdf: Kdf, codec: Codec, right: string, passphrase: string, meta: Meta, dek: Key,
                             w: WillId, content: Bytes, a: ActionId, config: Config, x: Boxes)
    returns (r: VaultRun)
    requires right != "" && passphrase != "" && |meta.salt| > 0 && meta.iters >= 600000 && content != ""
    requires RoundTrips(codec) && Fits(codec, meta, dek, content, config, x)
    ensures IsVaultRun(kdf, codec, r) && |r.states| == 8
    ensures r.steps == [Enrol(right, meta, dek), VaultStep.Unlock(right, meta.id),
                        CreateWill(w, content, meta.id, x.payloadNonce, x.payloadCt),
                        AddAction(a, w, config, meta.id, x.configNonce, x.configCt),
                        Lock, VaultStep.Unlock(passphrase, meta.id), Work(a, meta.id)]
    ensures r.states[7].calls ==
      if kdf(passphrase, meta.salt, meta.iters) == kdf(right, meta.salt, meta.iters)
      then [Call(a, content, config)]
      else []
  {
    r := Stocked(kdf, codec, right, meta, dek, w, content, a, config, x);
    hide IsVaultRun, Prepare, Fits;
    r := Enlarge(kdf, codec, r, VaultStep.Unlock(passphrase, meta.id));
    WorkAfter(kdf, codec, r.states[6], right, passphrase, meta, dek, w, content, a, config, x);
    r := Enlarge(kdf, codec, r, Work(a, meta.id));
  }

  // ----- the engine of the envelope is the engine of the program -----

  /** Unlocking the program's engine has the effect of the step `Unlock`. */
  method UnlockIsStep(e: Engine, v: Vault, passphrase: string, metaId: MetaId) returns (reply: UnlockReply)
    requires e.Valid() && e.View() == v.engine && metaId in v.metas
    modifies e
    ensures e.Valid() && e.View() == UnlockedVault(e.kdf, v, passphrase, v.metas[metaId]).engine
    ensures !v.engine.initialized ==>
      (reply.Unlocked? <==> DekOf(e.View(), v.ledger, v.metas[metaId]).Some?)
  {
    reply := e.HandleUnlock(v.ledger, passphrase, Some(v.metas[metaId]));
  }

  /** Shutting it down has the effect of the step `Lock`, after which every worker leaves. */
  method ShutdownIsStep(e: Engine, kdf: Kdf, codec: Codec, v: Vault)
    requires e.Valid() && e.View() == v.engine
    modifies e
    ensures e.Valid() && e.View() == After(kdf, codec, v, Lock).engine
    ensures forall a, meta :: Prepare(codec, After(kdf, codec, v, Lock), a, meta) == Leave
  {
    e.Shutdown();
  }

  // ----- secrets do not move -----

  /** The associated data tell wills and crypto_meta rows apart as long as will identifiers hold no bar; UUIDs do
      not. */
  lemma AadInjective(w: WillId, m: MetaId, x: WillId, n: MetaId)
    requires '|' !in w && '|' !in x
    ensures Aad(w, m) == Aad(x, n) <==> w == x && m == n
  {
    if Aad(w, m) == Aad(x, n) {
      FirstBar(w, m);
      FirstBar(x, n);
      assert |w| == |x|;
      assert Aad(w, m)[..|w|] == w && Aad(x, n)[..|x|] == x;
      assert Aad(w, m)[|w| + 1..] == m && Aad(x, n)[|x| + 1..] == n;
    }
  }

  lemma FirstBar(w: WillId, m: MetaId)
    requires '|' !in w
    ensures |w| < |Aad(w, m)| && Aad(w, m)[|w|] == '|' && forall i | 0 <= i < |w| :: Aad(w, m)[i] != '|'
  {
  }

  /** A framed box opens with no other associated data. */
  lemma OtherAadFails(l: Ledger, stored: Bytes, dek: Key, aad: Bytes, plain: Bytes, key: Key, other: Bytes)
    requires LedgerOk(l) && Frames(l, stored, dek, aad, plain) && other != aad
    ensures Unframe(l, key, stored, other).None?
  {
  }

  /** A payload copied, with its crypto_meta reference, from one will's row into another's is not delivered. */
  lemma MovedPayloadFails(codec: Codec, v: Vault, source: WillId, a: ActionId, m: MetaId)
    requires VaultInv(codec, v) && a in v.actions && source in v.wills && m in v.metas
    requires source != v.actions[a].will && '|' !in source && '|' !in v.actions[a].will
    ensures !Prepare(codec, v.(wills := v.wills[v.actions[a].will := v.wills[source]]), a, v.metas[m]).Deliver?
  {
    var w, row := v.actions[a].will, v.wills[source];
    forall key: Key
      ensures Unframe(v.ledger, key, row.payload, Aad(w, row.metaId)).None?
    {
      ForeignPayload(codec, v, source, w, key);
    }
    hide VaultInv, Aad, Unframe;
  }

  lemma ForeignPayload(codec: Codec, v: Vault, source: WillId, w: WillId, key: Key)
    requires VaultInv(codec, v) && source in v.wills && source != w && '|' !in source && '|' !in w
    ensures Unframe(v.ledger, key, v.wills[source].payload, Aad(w, v.wills[source].metaId)).None?
  {
    var row := v.wills[source];
    assert WillOk(v, source);
    AadInjective(source, row.metaId, w, row.metaId);
    LedgerIsOk(codec, v);
    hide VaultInv, Aad, LedgerOk;
    if v.contents[source] != "" {
      OtherAadFails(v.ledger, row.payload, v.keys[row.metaId].1, Aad(source, row.metaId), v.contents[source], key,
                    Aad(w, row.metaId));
    }
  }

  lemma LedgerIsOk(codec: Codec, v: Vault)
    requires VaultInv(codec, v)
    ensures LedgerOk(v.ledger)
  {
  }

  /** A config copied from one action's row into another's is opened there if and only if both belong to the same will:
      the associated data do not name the action. */
  lemma MovedConfigIff(codec: Codec, v: Vault, source: ActionId, a: ActionId, key: Key)
    requires VaultInv(codec, v) && RoundTrips(codec) && a in v.actions && source in v.actions
    requires '|' !in v.actions[source].will && '|' !in v.actions[a].will
    requires v.actions[source].metaId in v.keys && key == v.keys[v.actions[source].metaId].1
    ensures source in v.configs
    ensures Unframe(v.ledger, key, v.actions[source].config, Aad(v.actions[a].will, v.actions[source].metaId)) ==
      if v.actions[source].will == v.actions[a].will then Some(codec.marshal(v.configs[source])) else None
  {
    var old', w := v.actions[source], v.actions[a].will;
    assert ActionOk(codec, v, source);
    LedgerIsOk(codec, v);
    AadInjective(old'.will, old'.metaId, w, old'.metaId);
    hide VaultInv, Aad;
    if old'.will == w {
      UnframeExact(v.ledger, old'.config, key, Aad(w, old'.metaId), codec.marshal(v.configs[source]), key);
    } else {
      OtherAadFails(v.ledger, old'.config, key, Aad(old'.will, old'.metaId), codec.marshal(v.configs[source]), key,
                    Aad(w, old'.metaId));
    }
  }
}
