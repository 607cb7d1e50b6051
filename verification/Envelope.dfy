/** From what the owner typed to what the notifier is given: payloads and action configs are sealed
    under the DEK of a crypto_meta row, stored as nonce followed by ciphertext, and opened by a worker that
    takes any one crypto_meta row. */
module Envelope {
  import opened Basics
  import opened CryptoEngine

  type WillId = string
  type ActionId = string
  type MetaId = string

  datatype Config = Config(
    host: string, port: int, username: string, password: string, sender: string, recipient: string,
    subject: string, body: string, tls: string,
    url: string, httpMethod: string, headers: map<string, string>, tlsVerify: bool,
    command: string, args: seq<string>, timeoutSec: int, env: map<string, string>,
    phone: string)

  /** JSON encoding of an action config. */
  datatype Codec = Codec(marshal: Config -> Bytes, unmarshal: Bytes -> Option<Config>)

  ghost predicate RoundTrips(codec: Codec) {
    forall c: Config :: codec.unmarshal(codec.marshal(c)) == Some(c)
  }

  datatype WillSecret = WillSecret(payload: Bytes, metaId: MetaId)
  datatype ActionSecret = ActionSecret(will: WillId, config: Bytes, metaId: MetaId)
  datatype Call = Call(action: ActionId, content: Bytes, config: Config)

  /** `contents`, `configs` and `keys` are history: what the owner gave, and what each crypto_meta row wraps. */
  datatype Vault = Vault(
    ledger: Ledger,
    metas: map<MetaId, Meta>,
    engine: EngineState,
    wills: map<WillId, WillSecret>,
    actions: map<ActionId, ActionSecret>,
    calls: seq<Call>,
    contents: map<WillId, Bytes>,
    configs: map<ActionId, Config>,
    keys: map<MetaId, (Key, Key)>)

  function Aad(will: WillId, metaId: MetaId): Bytes {
    will + "|" + metaId
  }

  /** `DecryptPayload` and the first half of `DecryptConfig`: a stored value is nonce, then ciphertext. */
  function Unframe(l: Ledger, dek: Key, stored: Bytes, aad: Bytes): Option<Bytes> {
    if |stored| < NONCE_SIZE then None
    else Open(l, dek, stored[..NONCE_SIZE], stored[NONCE_SIZE..], aad)
  }

  datatype Attempt = Leave | Undecryptable | Deliver(call: Call)

  /** `retryAction` up to the notifier call, for the crypto_meta row `meta` it happened to take. */
  function Prepare(codec: Codec, v: Vault, a: ActionId, meta: Meta): Attempt {
    if a !in v.actions || v.actions[a].will !in v.wills then Leave
    else
      var act := v.actions[a];
      var w := v.wills[act.will];
      match DekOf(v.engine, v.ledger, meta)
      case None => Leave
      case Some(dek) =>
        match Unframe(v.ledger, dek, w.payload, Aad(act.will, w.metaId))
        case None => Undecryptable
        case Some(content) =>
          match Unframe(v.ledger, dek, act.config, Aad(act.will, act.metaId))
          case None => Undecryptable
          case Some(text) =>
            match codec.unmarshal(text)
            case None => Undecryptable
            case Some(config) => Deliver(Call(a, content, config))
  }

  datatype VaultStep =
    | Enrol(passphrase: string, meta: Meta, dek: Key)
    | Unlock(passphrase: string, metaId: MetaId)
    | Lock
    | CreateWill(w: WillId, content: Bytes, metaId: MetaId, nonce: Bytes, ct: Bytes)
    | AddAction(a: ActionId, w: WillId, config: Config, metaId: MetaId, nonce: Bytes, ct: Bytes)
    | Work(a: ActionId, metaId: MetaId)

  ghost predicate Possible(kdf: Kdf, codec: Codec, v: Vault, s: VaultStep) {
    match s
    case Enrol(passphrase, meta, dek) =>
      meta.id !in v.metas && MaySeal(v.ledger, meta.dekNonce, dek, meta.dekCiphertext)
    case Unlock(_, metaId) => metaId in v.metas
    case Lock => true
    case CreateWill(w, content, metaId, nonce, ct) =>
      && w !in v.wills && metaId in v.metas && DekOf(v.engine, v.ledger, v.metas[metaId]).Some?
      && (content != "" ==> MaySeal(v.ledger, nonce, content, ct))
    case AddAction(a, w, config, metaId, nonce, ct) =>
      && a !in v.actions && w in v.wills && metaId in v.metas
      && DekOf(v.engine, v.ledger, v.metas[metaId]).Some?
      && MaySeal(v.ledger, nonce, codec.marshal(config), ct)
    case Work(_, metaId) => metaId in v.metas
  }

  function Enrolled(kdf: Kdf, v: Vault, passphrase: string, meta: Meta, dek: Key): Vault {
    var kek := kdf(passphrase, meta.salt, meta.iters);
    v.(metas := v.metas[meta.id := meta], keys := v.keys[meta.id := (kek, dek)],
       ledger := Seal(v.ledger, kek, meta.dekNonce, dek, "", meta.dekCiphertext))
  }

  function UnlockedVault(kdf: Kdf, v: Vault, passphrase: string, meta: Meta): Vault {
    if v.engine.initialized || passphrase == "" || |meta.salt| == 0 || meta.iters < MIN_ITERS then v
    else v.(engine := EngineState(true, Some(kdf(passphrase, meta.salt, meta.iters)), meta.kekId))
  }

  /** A will without content stores no payload at all. */
  function WithWill(v: Vault, w: WillId, content: Bytes, metaId: MetaId, dek: Key, nonce: Bytes, ct: Bytes): Vault {
    var v' := v.(contents := v.contents[w := content]);
    if content == "" then v'.(wills := v.wills[w := WillSecret("", metaId)])
    else v'.(wills := v.wills[w := WillSecret(nonce + ct, metaId)],
             ledger := Seal(v.ledger, dek, nonce, content, Aad(w, metaId), ct))
  }

  function WithAction(codec: Codec, v: Vault, a: ActionId, w: WillId, config: Config, metaId: MetaId, dek: Key,
                         nonce: Bytes, ct: Bytes): Vault {
    v.(configs := v.configs[a := config], actions := v.actions[a := ActionSecret(w, nonce + ct, metaId)],
       ledger := Seal(v.ledger, dek, nonce, codec.marshal(config), Aad(w, metaId), ct))
  }

  ghost function After(kdf: Kdf, codec: Codec, v: Vault, s: VaultStep): Vault
    requires Possible(kdf, codec, v, s)
  {
    match s
    case Enrol(passphrase, meta, dek) => Enrolled(kdf, v, passphrase, meta, dek)
    case Unlock(passphrase, metaId) => UnlockedVault(kdf, v, passphrase, v.metas[metaId])
    case Lock => v.(engine := v.engine.(initialized := false, kek := None))
    case CreateWill(w, content, metaId, nonce, ct) =>
      WithWill(v, w, content, metaId, DekOf(v.engine, v.ledger, v.metas[metaId]).value, nonce, ct)
    case AddAction(a, w, config, metaId, nonce, ct) =>
      WithAction(codec, v, a, w, config, metaId, DekOf(v.engine, v.ledger, v.metas[metaId]).value, nonce, ct)
    case Work(a, metaId) =>
      match Prepare(codec, v, a, v.metas[metaId])
      case Deliver(call) => v.(calls := v.calls + [call])
      case _ => v
  }

  datatype VaultRun = VaultRun(states: seq<Vault>, steps: seq<VaultStep>)

  ghost predicate Empty(v: Vault) {
    && v.ledger == map[] && v.metas == map[] && !v.engine.initialized
    && v.wills == map[] && v.actions == map[] && v.calls == []
    && v.contents == map[] && v.configs == map[] && v.keys == map[]
  }

  ghost predicate IsVaultRun(kdf: Kdf, codec: Codec, r: VaultRun) {
    && |r.states| == |r.steps| + 1
    && Empty(r.states[0])
    && forall i | 0 <= i < |r.steps| ::
      Possible(kdf, codec, r.states[i], r.steps[i]) && r.states[i + 1] == After(kdf, codec, r.states[i], r.steps[i])
  }

  // ----- what every run keeps -----

  /** `stored` frames a sealed box that holds `plain`. */
  ghost predicate Frames(l: Ledger, stored: Bytes, dek: Key, aad: Bytes, plain: Bytes) {
    && |stored| >= NONCE_SIZE
    && var b := Box(dek, stored[..NONCE_SIZE], aad, stored[NONCE_SIZE..]);
    b in l && l[b] == plain
  }

  ghost predicate MetaOk(v: Vault, m: MetaId)
    requires m in v.metas
  {
    && m in v.keys
    && var b := Box(v.keys[m].0, v.metas[m].dekNonce, "", v.metas[m].dekCiphertext);
    b in v.ledger && v.ledger[b] == v.keys[m].1
  }

  ghost predicate WillOk(v: Vault, w: WillId)
    requires w in v.wills
  {
    && w in v.contents && v.wills[w].metaId in v.metas && v.wills[w].metaId in v.keys
    && if v.contents[w] == "" then v.wills[w].payload == ""
       else Frames(v.ledger, v.wills[w].payload, v.keys[v.wills[w].metaId].1, Aad(w, v.wills[w].metaId), v.contents[w])
  }

  ghost predicate ActionOk(codec: Codec, v: Vault, a: ActionId)
    requires a in v.actions
  {
    && var act := v.actions[a];
    && a in v.configs && act.will in v.wills && act.metaId in v.metas && act.metaId in v.keys
    && Frames(v.ledger, act.config, v.keys[act.metaId].1, Aad(act.will, act.metaId), codec.marshal(v.configs[a]))
  }

  /** A call carries what the owner gave for that action and its will, and there was something to give. */
  ghost predicate CallOk(v: Vault, call: Call) {
    && call.action in v.actions && call.action in v.configs && v.actions[call.action].will in v.contents
    && call.config == v.configs[call.action]
    && call.content == v.contents[v.actions[call.action].will]
    && call.content != ""
  }

  ghost predicate VaultInv(codec: Codec, v: Vault) {
    && LedgerOk(v.ledger)
    && KeySetsOk(v)
    && (forall m | m in v.metas :: MetaOk(v, m))
    && (forall w | w in v.wills :: WillOk(v, w))
    && (forall a | a in v.actions :: ActionOk(codec, v, a))
    && (forall i | 0 <= i < |v.calls| :: CallOk(v, v.calls[i]))
  }

  /** The DEK an engine gets out of a crypto_meta row is the one that was wrapped in it. */
  lemma DekIsWrapped(codec: Codec, v: Vault, m: MetaId)
    requires VaultInv(codec, v) && m in v.metas
    ensures m in v.keys
    ensures DekOf(v.engine, v.ledger, v.metas[m]) ==
      if v.engine.initialized && v.engine.kek == Some(v.keys[m].0) then Some(v.keys[m].1) else None
  {
  }

  /** Opening a framed box with some key gives what was sealed, and only under the key it was sealed with. */
  lemma UnframeExact(l: Ledger, stored: Bytes, dek: Key, aad: Bytes, plain: Bytes, key: Key)
    requires LedgerOk(l) && Frames(l, stored, dek, aad, plain)
    ensures Unframe(l, key, stored, aad) == if key == dek then Some(plain) else None
  {
  }

  /** What a worker gets: exactly what the owner gave, if the crypto_meta row it took is the one both the
      will and the action were sealed under and the engine holds its KEK; never anything else. */
  lemma PrepareExact(codec: Codec, v: Vault, a: ActionId, m: MetaId)
    requires VaultInv(codec, v) && RoundTrips(codec) && a in v.actions && m in v.metas
    ensures v.actions[a].will in v.wills && v.wills[v.actions[a].will].metaId in v.keys && v.actions[a].metaId in v.keys
    ensures m in v.keys && v.actions[a].will in v.wills && v.actions[a].will in v.contents && a in v.configs
    ensures var act := v.actions[a]; var w, content := v.wills[act.will], v.contents[act.will];
      Prepare(codec, v, a, v.metas[m]) ==
      if !(v.engine.initialized && v.engine.kek == Some(v.keys[m].0)) then Leave
      else if content != "" && v.keys[m].1 == v.keys[w.metaId].1 && v.keys[m].1 == v.keys[act.metaId].1
      then Deliver(Call(a, content, v.configs[a]))
      else Undecryptable
  {
    hide VaultInv, LedgerOk, Frames, Unframe, DekOf;
    ActionParts(codec, v, a);
    DekIsWrapped(codec, v, m);
    PayloadOpens(v, v.actions[a].will, v.keys[m].1);
    var act := v.actions[a];
    UnframeExact(v.ledger, act.config, v.keys[act.metaId].1, Aad(act.will, act.metaId), codec.marshal(v.configs[a]),
                 v.keys[m].1);
    hide ActionOk, WillOk, KeySetsOk, Aad;
    assert codec.unmarshal(codec.marshal(v.configs[a])) == Some(v.configs[a]);
  }

  /** The payload of a will opens under its own DEK only, and an empty one never does. */
  lemma PayloadOpens(v: Vault, w: WillId, key: Key)
    requires LedgerOk(v.ledger) && w in v.wills && WillOk(v, w)
    ensures Unframe(v.ledger, key, v.wills[w].payload, Aad(w, v.wills[w].metaId)) ==
      if v.contents[w] != "" && key == v.keys[v.wills[w].metaId].1 then Some(v.contents[w]) else None
  {
  }

  lemma InvParts(codec: Codec, v: Vault)
    requires VaultInv(codec, v)
    ensures LedgerOk(v.ledger) && KeySetsOk(v)
  {
  }

  /** The parts of the invariant that concern one action and its will. */
  lemma ActionParts(codec: Codec, v: Vault, a: ActionId)
    requires VaultInv(codec, v) && a in v.actions
    ensures LedgerOk(v.ledger) && ActionOk(codec, v, a) && WillOk(v, v.actions[a].will)
    ensures v.metas.Keys == v.keys.Keys
  {
  }

  lemma SealKeeps(l: Ledger, key: Key, nonce: Bytes, plaintext: Bytes, aad: Bytes, ct: Bytes)
    requires LedgerOk(l) && MaySeal(l, nonce, plaintext, ct)
    ensures LedgerOk(Seal(l, key, nonce, plaintext, aad, ct))
    ensures var after := Seal(l, key, nonce, plaintext, aad, ct);
      forall b | b in l :: b in after && after[b] == l[b]
    ensures Frames(Seal(l, key, nonce, plaintext, aad, ct), nonce + ct, key, aad, plaintext)
  {
  }

  /** What stays true when boxes, rows and history are only added. */
  ghost predicate VaultGrows(v: Vault, v': Vault) {
    && (forall b | b in v.ledger :: b in v'.ledger && v'.ledger[b] == v.ledger[b])
    && (forall m | m in v.metas :: m in v'.metas && v'.metas[m] == v.metas[m])
    && (forall m | m in v.keys :: m in v'.keys && v'.keys[m] == v.keys[m])
    && (forall w | w in v.wills :: w in v'.wills && v'.wills[w] == v.wills[w])
    && (forall w | w in v.contents :: w in v'.contents && v'.contents[w] == v.contents[w])
    && (forall a | a in v.actions :: a in v'.actions && v'.actions[a] == v.actions[a])
    && (forall a | a in v.configs :: a in v'.configs && v'.configs[a] == v.configs[a])
  }

  lemma OkGrows(codec: Codec, v: Vault, v': Vault)
    requires VaultGrows(v, v')
    ensures forall m | m in v.metas && MetaOk(v, m) :: MetaOk(v', m)
    ensures forall w | w in v.wills && WillOk(v, w) :: WillOk(v', w)
    ensures forall a | a in v.actions && ActionOk(codec, v, a) :: ActionOk(codec, v', a)
    ensures forall c: Call | CallOk(v, c) :: CallOk(v', c)
  {
  }

  ghost predicate KeySetsOk(v: Vault) {
    v.keys.Keys == v.metas.Keys && v.contents.Keys == v.wills.Keys && v.configs.Keys == v.actions.Keys
  }

  /** Rows that were there stay fine; only what a step adds has to be looked at. */
  lemma Conclude(codec: Codec, v: Vault, v': Vault)
    requires VaultInv(codec, v) && VaultGrows(v, v') && LedgerOk(v'.ledger) && KeySetsOk(v')
    requires forall m | m in v'.metas && m !in v.metas :: MetaOk(v', m)
    requires forall w | w in v'.wills && w !in v.wills :: WillOk(v', w)
    requires forall a | a in v'.actions && a !in v.actions :: ActionOk(codec, v', a)
    requires forall i | 0 <= i < |v'.calls| :: (i < |v.calls| && v'.calls[i] == v.calls[i]) || CallOk(v', v'.calls[i])
    ensures VaultInv(codec, v')
  {
    OkGrows(codec, v, v');
    hide MetaOk, WillOk, ActionOk, CallOk, VaultGrows, LedgerOk;
  }

  lemma EnrolGrows(kdf: Kdf, v: Vault, passphrase: string, meta: Meta, dek: Key)
    requires LedgerOk(v.ledger) && KeySetsOk(v)
    requires meta.id !in v.metas && MaySeal(v.ledger, meta.dekNonce, dek, meta.dekCiphertext)
    ensures var v' := Enrolled(kdf, v, passphrase, meta, dek);
      VaultGrows(v, v') && LedgerOk(v'.ledger) && KeySetsOk(v') && MetaOk(v', meta.id)
  {
    hide Frames;
    SealKeeps(v.ledger, kdf(passphrase, meta.salt, meta.iters), meta.dekNonce, dek, "", meta.dekCiphertext);
  }

  lemma EnrolKeeps(kdf: Kdf, codec: Codec, v: Vault, passphrase: string, meta: Meta, dek: Key)
    requires VaultInv(codec, v) && meta.id !in v.metas && MaySeal(v.ledger, meta.dekNonce, dek, meta.dekCiphertext)
    ensures VaultInv(codec, Enrolled(kdf, v, passphrase, meta, dek))
  {
    hide VaultInv, VaultGrows, LedgerOk, MaySeal, WillOk, ActionOk, MetaOk, CallOk;
    InvParts(codec, v);
    EnrolGrows(kdf, v, passphrase, meta, dek);
    Conclude(codec, v, Enrolled(kdf, v, passphrase, meta, dek));
  }

  lemma EmptyWillGrows(v: Vault, w: WillId, metaId: MetaId, dek: Key, nonce: Bytes, ct: Bytes)
    requires KeySetsOk(v) && w !in v.wills
    ensures var v' := WithWill(v, w, "", metaId, dek, nonce, ct);
      VaultGrows(v, v') && v'.ledger == v.ledger && KeySetsOk(v')
  {
    assert WithWill(v, w, "", metaId, dek, nonce, ct).wills.Keys == v.wills.Keys + {w};
  }

  lemma FullWillGrows(v: Vault, w: WillId, content: Bytes, metaId: MetaId, dek: Key, nonce: Bytes, ct: Bytes)
    requires LedgerOk(v.ledger) && KeySetsOk(v) && w !in v.wills
    requires content != "" && MaySeal(v.ledger, nonce, content, ct)
    ensures var v' := WithWill(v, w, content, metaId, dek, nonce, ct);
      VaultGrows(v, v') && LedgerOk(v'.ledger) && KeySetsOk(v')
  {
    hide Frames, Seal, MaySeal, LedgerOk, Aad;
    SealKeeps(v.ledger, dek, nonce, content, Aad(w, metaId), ct);
    assert WithWill(v, w, content, metaId, dek, nonce, ct).wills.Keys == v.wills.Keys + {w};
  }

  lemma WillGrows(v: Vault, w: WillId, content: Bytes, metaId: MetaId, nonce: Bytes, ct: Bytes)
    requires LedgerOk(v.ledger) && KeySetsOk(v) && w !in v.wills && metaId in v.metas && metaId in v.keys
    requires content != "" ==> MaySeal(v.ledger, nonce, content, ct)
    ensures var v' := WithWill(v, w, content, metaId, v.keys[metaId].1, nonce, ct);
      VaultGrows(v, v') && LedgerOk(v'.ledger) && KeySetsOk(v')
  {
    hide WithWill, VaultGrows, LedgerOk, MaySeal, KeySetsOk;
    if content == "" {
      EmptyWillGrows(v, w, metaId, v.keys[metaId].1, nonce, ct);
    } else {
      FullWillGrows(v, w, content, metaId, v.keys[metaId].1, nonce, ct);
    }
  }

  lemma WillAdded(v: Vault, w: WillId, content: Bytes, metaId: MetaId, nonce: Bytes, ct: Bytes)
    requires LedgerOk(v.ledger) && metaId in v.metas && metaId in v.keys
    requires content != "" ==> MaySeal(v.ledger, nonce, content, ct)
    ensures WillOk(WithWill(v, w, content, metaId, v.keys[metaId].1, nonce, ct), w)
  {
  }

  lemma WillKeeps(codec: Codec, v: Vault, w: WillId, content: Bytes, metaId: MetaId, nonce: Bytes, ct: Bytes)
    requires VaultInv(codec, v) && w !in v.wills && metaId in v.metas && metaId in v.keys
    requires content != "" ==> MaySeal(v.ledger, nonce, content, ct)
    ensures VaultInv(codec, WithWill(v, w, content, metaId, v.keys[metaId].1, nonce, ct))
  {
    hide VaultInv, VaultGrows, LedgerOk, MaySeal, WillOk, ActionOk, MetaOk, CallOk;
    InvParts(codec, v);
    WillGrows(v, w, content, metaId, nonce, ct);
    WillAdded(v, w, content, metaId, nonce, ct);
    Conclude(codec, v, WithWill(v, w, content, metaId, v.keys[metaId].1, nonce, ct));
  }

  lemma ActionGrows(codec: Codec, v: Vault, a: ActionId, w: WillId, config: Config, metaId: MetaId,
                    nonce: Bytes, ct: Bytes)
    requires LedgerOk(v.ledger) && KeySetsOk(v)
    requires a !in v.actions && w in v.wills && metaId in v.metas && metaId in v.keys
    requires MaySeal(v.ledger, nonce, codec.marshal(config), ct)
    ensures var v' := WithAction(codec, v, a, w, config, metaId, v.keys[metaId].1, nonce, ct);
      VaultGrows(v, v') && LedgerOk(v'.ledger) && KeySetsOk(v')
  {
    hide Frames, Seal, MaySeal, LedgerOk, Aad;
    SealKeeps(v.ledger, v.keys[metaId].1, nonce, codec.marshal(config), Aad(w, metaId), ct);
  }

  lemma ActionAdded(codec: Codec, v: Vault, a: ActionId, w: WillId, config: Config, metaId: MetaId,
                    nonce: Bytes, ct: Bytes)
    requires LedgerOk(v.ledger) && w in v.wills && metaId in v.metas && metaId in v.keys
    requires MaySeal(v.ledger, nonce, codec.marshal(config), ct)
    ensures ActionOk(codec, WithAction(codec, v, a, w, config, metaId, v.keys[metaId].1, nonce, ct), a)
  {
  }

  lemma ActionKeeps(codec: Codec, v: Vault, a: ActionId, w: WillId, config: Config, metaId: MetaId,
                    nonce: Bytes, ct: Bytes)
    requires VaultInv(codec, v) && a !in v.actions && w in v.wills && metaId in v.metas && metaId in v.keys
    requires MaySeal(v.ledger, nonce, codec.marshal(config), ct)
    ensures VaultInv(codec, WithAction(codec, v, a, w, config, metaId, v.keys[metaId].1, nonce, ct))
  {
    hide VaultInv, VaultGrows, LedgerOk, MaySeal, WillOk, ActionOk, MetaOk, CallOk;
    InvParts(codec, v);
    ActionGrows(codec, v, a, w, config, metaId, nonce, ct);
    ActionAdded(codec, v, a, w, config, metaId, nonce, ct);
    Conclude(codec, v, WithAction(codec, v, a, w, config, metaId, v.keys[metaId].1, nonce, ct));
  }

  lemma PreparedAction(codec: Codec, v: Vault, a: ActionId, meta: Meta)
    requires Prepare(codec, v, a, meta).Deliver?
    ensures a in v.actions && Prepare(codec, v, a, meta).call.action == a
  {
  }

  lemma CalledOk(codec: Codec, v: Vault, a: ActionId, metaId: MetaId)
    requires VaultInv(codec, v) && RoundTrips(codec) && metaId in v.metas
    requires Prepare(codec, v, a, v.metas[metaId]).Deliver?
    ensures CallOk(v, Prepare(codec, v, a, v.metas[metaId]).call)
  {
    hide VaultInv, RoundTrips, Prepare;
    PreparedAction(codec, v, a, v.metas[metaId]);
    PrepareExact(codec, v, a, metaId);
  }

  lemma MoreCalls(v: Vault, call: Call)
    requires CallOk(v, call)
    ensures var v' := v.(calls := v.calls + [call]); VaultGrows(v, v') && CallOk(v', call)
  {
  }

  lemma WorkKeeps(codec: Codec, v: Vault, a: ActionId, metaId: MetaId)
    requires VaultInv(codec, v) && RoundTrips(codec) && metaId in v.metas
    requires Prepare(codec, v, a, v.metas[metaId]).Deliver?
    ensures VaultInv(codec, v.(calls := v.calls + [Prepare(codec, v, a, v.metas[metaId]).call]))
  {
    hide VaultInv, RoundTrips, Prepare, VaultGrows, LedgerOk, WillOk, ActionOk, MetaOk, CallOk;
    var call := Prepare(codec, v, a, v.metas[metaId]).call;
    CalledOk(codec, v, a, metaId);
    MoreCalls(v, call);
    InvParts(codec, v);
    Conclude(codec, v, v.(calls := v.calls + [call]));
  }

  lemma VaultStepKeeps(kdf: Kdf, codec: Codec, v: Vault, s: VaultStep)
    requires VaultInv(codec, v) && Possible(kdf, codec, v, s) && RoundTrips(codec)
    ensures VaultInv(codec, After(kdf, codec, v, s))
  {
    hide Enrolled, WithWill, WithAction, Prepare, MaySeal, RoundTrips, LedgerOk, Frames;
    match s {
      case Enrol(passphrase, meta, dek) => EnrolKeeps(kdf, codec, v, passphrase, meta, dek);
      case CreateWill(w, content, metaId, nonce, ct) =>
        DekIsWrapped(codec, v, metaId);
        WillKeeps(codec, v, w, content, metaId, nonce, ct);
      case AddAction(a, w, config, metaId, nonce, ct) =>
        DekIsWrapped(codec, v, metaId);
        ActionKeeps(codec, v, a, w, config, metaId, nonce, ct);
      case Work(a, metaId) =>
        if Prepare(codec, v, a, v.metas[metaId]).Deliver? {
          WorkKeeps(codec, v, a, metaId);
        }
      case _ => EngineOnly(codec, v, After(kdf, codec, v, s));
    }
  }

  lemma EngineOnly(codec: Codec, v: Vault, v': Vault)
    requires VaultInv(codec, v) && v' == v.(engine := v'.engine)
    ensures VaultInv(codec, v')
  {
    assert VaultGrows(v, v');
    hide WillOk, ActionOk, CallOk, VaultGrows, MetaOk, LedgerOk;
    OkGrows(codec, v, v');
    Conclude(codec, v, v');
  }

  lemma {:induction false} VaultAlways(kdf: Kdf, codec: Codec, r: VaultRun, i: nat)
    requires IsVaultRun(kdf, codec, r) && RoundTrips(codec) && i < |r.states|
    ensures VaultInv(codec, r.states[i])
  {
    if i > 0 {
      VaultAlways(kdf, codec, r, i - 1);
      hide VaultInv, Possible, After, Empty;
      VaultStepKeeps(kdf, codec, r.states[i - 1], r.steps[i - 1]);
    }
  }

  lemma GrowsItself(v: Vault, v': Vault)
    requires v' == v.(engine := v'.engine, calls := v'.calls)
    ensures VaultGrows(v, v')
  {
  }

  /** Boxes, rows and what the owner gave are only ever added. */
  lemma VaultStepGrows(kdf: Kdf, codec: Codec, v: Vault, s: VaultStep)
    requires VaultInv(codec, v) && Possible(kdf, codec, v, s)
    ensures VaultGrows(v, After(kdf, codec, v, s))
  {
    hide Enrolled, WithWill, WithAction, Prepare, MaySeal, LedgerOk, Frames, VaultGrows;
    InvParts(codec, v);
    match s {
      case Enrol(passphrase, meta, dek) => EnrolGrows(kdf, v, passphrase, meta, dek);
      case CreateWill(w, content, metaId, nonce, ct) =>
        DekIsWrapped(codec, v, metaId);
        WillGrows(v, w, content, metaId, nonce, ct);
      case AddAction(a, w, config, metaId, nonce, ct) =>
        DekIsWrapped(codec, v, metaId);
        ActionGrows(codec, v, a, w, config, metaId, nonce, ct);
      case _ => GrowsItself(v, After(kdf, codec, v, s));
    }
  }

  lemma {:induction false} VaultRunGrows(kdf: Kdf, codec: Codec, r: VaultRun, i: nat, j: nat)
    requires IsVaultRun(kdf, codec, r) && RoundTrips(codec) && i <= j < |r.states|
    ensures VaultGrows(r.states[i], r.states[j])
    decreases j
  {
    if i < j {
      VaultRunGrows(kdf, codec, r, i, j - 1);
      VaultAlways(kdf, codec, r, j - 1);
      hide VaultInv, Possible, After, Empty;
      VaultStepGrows(kdf, codec, r.states[j - 1], r.steps[j - 1]);
    }
  }

  /** With one crypto_meta row the verdict never changes: at any two moments at which a worker does not leave, it
      delivers at both or fails at both, and if it delivers, the same content and config. */
  lemma VerdictConstant(kdf: Kdf, codec: Codec, r: VaultRun, i: nat, j: nat, a: ActionId, m: MetaId)
    requires IsVaultRun(kdf, codec, r) && RoundTrips(codec) && i <= j < |r.states|
    requires r.states[i].metas.Keys == {m} && r.states[j].metas.Keys == {m} && a in r.states[i].actions
    ensures a in r.states[j].actions
    ensures var x := Prepare(codec, r.states[i], a, r.states[i].metas[m]);
      var y := Prepare(codec, r.states[j], a, r.states[j].metas[m]);
      !x.Leave? && !y.Leave? ==> x == y
  {
    VaultRunGrows(kdf, codec, r, i, j);
    VaultAlways(kdf, codec, r, i);
    VaultAlways(kdf, codec, r, j);
    OneMeta(codec, r.states[i], a, m);
    OneMeta(codec, r.states[j], a, m);
    hide Prepare, IsVaultRun, VaultInv;
    PrepareExact(codec, r.states[i], a, m);
    PrepareExact(codec, r.states[j], a, m);
  }

  lemma OneMeta(codec: Codec, v: Vault, a: ActionId, m: MetaId)
    requires VaultInv(codec, v) && v.metas.Keys == {m} && a in v.actions
    ensures v.actions[a].metaId == m && v.actions[a].will in v.wills && v.wills[v.actions[a].will].metaId == m
    ensures v.actions[a].will in v.contents && a in v.configs && m in v.keys
  {
    assert ActionOk(codec, v, a);
    assert WillOk(v, v.actions[a].will);
  }

  /** End to end: every notifier call ever made receives exactly the content given to `will.Create` and the
      config given to `action.Create`; a will created with empty content never reaches the notifier.
      This holds for any number of crypto_meta rows and any passphrases tried. */
  lemma DeliveredAsGiven(kdf: Kdf, codec: Codec, r: VaultRun, i: nat, c: nat)
    requires IsVaultRun(kdf, codec, r) && RoundTrips(codec) && i < |r.states| && c < |r.states[i].calls|
    ensures var v := r.states[i]; var call := v.calls[c];
      && call.action in v.actions && call.action in v.configs && v.actions[call.action].will in v.contents
      && call.config == v.configs[call.action]
      && call.content == v.contents[v.actions[call.action].will] != ""
  {
    VaultAlways(kdf, codec, r, i);
    assert CallOk(r.states[i], r.states[i].calls[c]);
  }

  /** With one crypto_meta row the verdict on an action is fixed: a worker either leaves because the engine
      does not hold the KEK, or delivers exactly when the will has content. */
  lemma VerdictWithOneMeta(kdf: Kdf, codec: Codec, r: VaultRun, i: nat, a: ActionId, m: MetaId)
    requires IsVaultRun(kdf, codec, r) && RoundTrips(codec) && i < |r.states|
    requires r.states[i].metas.Keys == {m} && a in r.states[i].actions
    ensures m in r.states[i].keys && r.states[i].actions[a].will in r.states[i].contents
    ensures var v := r.states[i]; var x := Prepare(codec, v, a, v.metas[m]);
      && (x.Leave? <==> !(v.engine.initialized && v.engine.kek == Some(v.keys[m].0)))
      && (!x.Leave? ==> (x.Deliver? <==> v.contents[v.actions[a].will] != ""))
  {
    var v := r.states[i];
    VaultAlways(kdf, codec, r, i);
    assert ActionOk(codec, v, a);
    assert WillOk(v, v.actions[a].will);
    hide Prepare, Frames, IsVaultRun;
    PrepareExact(codec, v, a, m);
  }

  /** With two crypto_meta rows that wrap different DEKs, a worker that takes the other one
      records a failure although the content is there and the key is right. */
  lemma OtherMetaFails(kdf: Kdf, codec: Codec, r: VaultRun, i: nat, a: ActionId, m: MetaId)
    requires IsVaultRun(kdf, codec, r) && RoundTrips(codec) && i < |r.states|
    requires a in r.states[i].actions && m in r.states[i].metas
    requires var v := r.states[i]; m in v.keys && v.engine.initialized && v.engine.kek == Some(v.keys[m].0)
    requires var v := r.states[i]; var w := v.actions[a].will;
      w in v.wills && v.wills[w].metaId in v.keys && v.keys[v.wills[w].metaId].1 != v.keys[m].1
    ensures Prepare(codec, r.states[i], a, r.states[i].metas[m]).Undecryptable?
  {
    VaultAlways(kdf, codec, r, i);
    hide Prepare, Frames, IsVaultRun;
    PrepareExact(codec, r.states[i], a, m);
  }
}
