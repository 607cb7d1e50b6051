/** The verdict on decryption is not an assumption when there is one crypto_meta row: it is fixed by what the owner
    gave. A run of the scheduler and a history of the vault are told apart only by what their workers prepare. */
module Verdicts {
  import opened Tables
  import opened Executions
  import opened Protocol
  import opened Invariants
  import opened ExecutionTheorems
  import C = CryptoEngine
  import E = Envelope

  /** The worker was told what the vault says about its action at that moment. */
  ghost predicate Agrees(codec: E.Codec, v: E.Vault, m: E.MetaId, s: State, a: Step) {
    a.Act? && a.op.Prepare? && !a.op.outcome.Abort? && a.tid in s.threads && s.threads[a.tid].Worker?
    && s.threads[a.tid].e in s.db.execs ==>
      && m in v.metas && s.db.execs[s.threads[a.tid].e].action in v.actions
      && var x := E.Prepare(codec, v, s.db.execs[s.threads[a.tid].e].action, v.metas[m]);
      !x.Leave? && (a.op.outcome.Decrypted? <==> x.Deliver?)
  }

  /** `at` tells how far the history of the vault had got at each step of the run. */
  ghost predicate RunsWith(codec: E.Codec, r: Run, h: E.VaultRun, m: E.MetaId, at: seq<nat>) {
    && |at| == |r.steps| < |r.states| && |h.states| > 0
    && h.states[|h.states| - 1].metas.Keys == {m}
    && forall i | 0 <= i < |r.steps| :: at[i] < |h.states| && Agrees(codec, h.states[at[i]], m, r.states[i], r.steps[i])
  }

  predicate HasContent(v: E.Vault, a: ActionId) {
    a in v.actions && v.actions[a].will in v.contents && v.contents[v.actions[a].will] != ""
  }

  /** A row can be decrypted when its will was created with content. */
  ghost function ContentOracle(s: State, v: E.Vault): Oracle {
    e => e in s.db.execs && HasContent(v, s.db.execs[e].action)
  }

  lemma VaultVerdict(kdf: C.Kdf, codec: E.Codec, h: E.VaultRun, i: nat, a: ActionId, m: E.MetaId)
    requires E.IsVaultRun(kdf, codec, h) && E.RoundTrips(codec) && i < |h.states|
    requires h.states[|h.states| - 1].metas.Keys == {m} && a in h.states[i].actions && m in h.states[i].metas
    requires !E.Prepare(codec, h.states[i], a, h.states[i].metas[m]).Leave?
    ensures E.Prepare(codec, h.states[i], a, h.states[i].metas[m]).Deliver? <==> HasContent(h.states[|h.states| - 1], a)
  {
    E.VaultRunGrows(kdf, codec, h, i, |h.states| - 1);
    assert h.states[i].metas.Keys <= {m};
    assert h.states[i].metas.Keys == {m};
    hide E.Prepare, E.IsVaultRun;
    E.VerdictWithOneMeta(kdf, codec, h, i, a, m);
  }

  ghost predicate Decides(s: State, a: Step) {
    a.Act? && a.op.Prepare? && !a.op.outcome.Abort? && a.tid in s.threads && s.threads[a.tid].Worker?
  }

  lemma StepVerdict(kdf: C.Kdf, codec: E.Codec, v: E.Vault, h: E.VaultRun, m: E.MetaId, k: nat, s: State, a: Step)
    requires E.IsVaultRun(kdf, codec, h) && E.RoundTrips(codec) && k < |h.states| && v == h.states[|h.states| - 1]
    requires v.metas.Keys == {m} && Agrees(codec, h.states[k], m, s, a)
    requires Decides(s, a) && s.threads[a.tid].e in s.db.execs
    ensures a.op.outcome.Decrypted? <==> HasContent(v, s.db.execs[s.threads[a.tid].e].action)
  {
    VaultVerdict(kdf, codec, h, k, s.db.execs[s.threads[a.tid].e].action, m);
  }

  lemma WorkerRow(r: Run, i: nat, tid: Tid)
    requires IsRun(r) && i < |r.states| && tid in r.states[i].threads && r.states[i].threads[tid].Worker?
    ensures r.states[i].threads[tid].e in r.states[i].db.execs
  {
    InvAlways(r, i);
    hide IsRun, PoolOk, KeysOk, RefsOk, SchedOk;
    assert ThreadRefs(r.states[i].db, r.states[i].threads[tid]);
  }

  lemma StepFollows(kdf: C.Kdf, codec: E.Codec, r: Run, h: E.VaultRun, m: E.MetaId, at: seq<nat>, i: nat)
    requires E.IsVaultRun(kdf, codec, h) && E.RoundTrips(codec)
    requires IsRun(r) && RunsWith(codec, r, h, m, at) && i < |r.steps|
    ensures Follows(r.states[i], r.steps[i], ContentOracle(r.Last(), h.states[|h.states| - 1]))
  {
    var s, a, v := r.states[i], r.steps[i], h.states[|h.states| - 1];
    hide IsRun, Agrees, HasContent;
    assert Agrees(codec, h.states[at[i]], m, s, a);
    if Decides(s, a) {
      var e := s.threads[a.tid].e;
      WorkerRow(r, i, a.tid);
      RowPersists(r, i, |r.states| - 1, e);
      StepVerdict(kdf, codec, v, h, m, at[i], s, a);
    }
  }

  /** With one crypto_meta row the standing assumption on decryption holds by itself. */
  lemma OneMetaDecides(kdf: C.Kdf, codec: E.Codec, r: Run, h: E.VaultRun, m: E.MetaId, at: seq<nat>)
    requires E.IsVaultRun(kdf, codec, h) && E.RoundTrips(codec) && IsRun(r) && RunsWith(codec, r, h, m, at)
    ensures Deterministically(r, ContentOracle(r.Last(), h.states[|h.states| - 1]))
  {
    forall i | 0 <= i < |r.steps|
      ensures Follows(r.states[i], r.steps[i], ContentOracle(r.Last(), h.states[|h.states| - 1]))
    {
      hide Follows;
      StepFollows(kdf, codec, r, h, m, at, i);
    }
  }

  /** So with one crypto_meta row the lease alone gives mutual exclusion. */
  lemma ExclusiveWithOneMeta(kdf: C.Kdf, codec: E.Codec, r: Run, h: E.VaultRun, m: E.MetaId, at: seq<nat>,
                             i: nat, t: Tid, u: Tid)
    requires E.IsVaultRun(kdf, codec, h) && E.RoundTrips(codec) && IsRun(r) && RunsWith(codec, r, h, m, at)
    requires KeepsLease(r) && i < |r.states|
    requires var s := r.states[i];
      && t in s.threads && s.threads[t].Worker? && s.threads[t].work.Holding()
      && u in s.threads && s.threads[u].Worker? && s.threads[u].work.Holding()
      && s.threads[t].e == s.threads[u].e
    ensures t == u
  {
    var d := ContentOracle(r.Last(), h.states[|h.states| - 1]);
    hide E.IsVaultRun, IsRun, RunsWith, KeepsLease, Deterministically;
    OneMetaDecides(kdf, codec, r, h, m, at);
    MutualExclusion(r, d, i, t, u);
  }

  /** And a row of a will without content is never delivered and, with more than one retry, never given up. */
  lemma EmptyWillNeverEnds(kdf: C.Kdf, codec: E.Codec, r: Run, h: E.VaultRun, m: E.MetaId, at: seq<nat>, e: ExecId)
    requires E.IsVaultRun(kdf, codec, h) && E.RoundTrips(codec) && IsRun(r) && RunsWith(codec, r, h, m, at)
    requires e in r.Last().db.execs && !HasContent(h.states[|h.states| - 1], r.Last().db.execs[e].action)
    ensures HasRows(r.Last(), e)
    ensures var s := r.Last(); var row, k := s.db.execs[e], s.tally[e];
      && k.claims == 0 && k.calls == 0
      && (s.db.wills[row.will].maxRetries > 1 ==> row.status == Queued || row.status == Failed)
  {
    OneMetaDecides(kdf, codec, r, h, m, at);
    hide E.IsVaultRun, IsRun, RunsWith, Deterministically;
    UndecryptableNeverEnds(r, ContentOracle(r.Last(), h.states[|h.states| - 1]), |r.states| - 1, e);
  }
}
