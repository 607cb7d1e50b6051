/** The action service, as methods on the `actions` and `action_executions` tables. */
module ActionService {
  import opened Basics
  import opened Tables

  /** The CHECK constraint on `actions.type`. */
  predicate IsKind(kind: string) {
    kind == "SMTP" || kind == "WEBHOOK" || kind == "SIGNAL" || kind == "SCRIPT"
  }

  class ActionTable {
    var actions: map<ActionId, ActionRow>
    var execs: map<ExecId, ExecRow>

    constructor ()
      ensures actions == map[] && execs == map[]
    {
      actions, execs := map[], map[];
    }

    /** `Create`, without the config; `id` is a fresh UUID. The INSERT fails on a will or a crypto_meta row that does
        not exist, on a type outside the CHECK constraint, and on a position the will already uses. */
    method Create(id: ActionId, w: WillId, kind: string, position: int,
                  unlocked: bool, willExists: bool, metaExists: bool)
      returns (ok: bool)
      requires id !in actions
      modifies this`actions
      ensures var taken := exists b | b in old(actions) ::
                old(actions)[b].will == w && old(actions)[b].position == position;
        ok <==>
          && w != "" && position >= 0 && unlocked && willExists && metaExists && !taken
          && kind in ["SMTP", "WEBHOOK", "SIGNAL", "SCRIPT"]
      ensures actions == if ok then old(actions)[id := ActionRow(w, position)] else old(actions)
    {
      if w == "" || position < 0 || !unlocked {
        return false;
      }
      if !IsKind(kind) || !willExists || !metaExists {
        return false;
      }
      var rest := actions.Keys;
      while rest != {}
        invariant rest <= actions.Keys
        invariant forall b | b in actions && b !in rest :: !(actions[b].will == w && actions[b].position == position)
        decreases rest
      {
        var b :| b in rest;
        rest := rest - {b};
        if actions[b].will == w && actions[b].position == position {
          return false;
        }
      }
      actions := actions[id := ActionRow(w, position)];
      return true;
    }

    method FirstByPosition(ids: set<ActionId>) returns (first: ActionId)
      requires ids != {} && ids <= actions.Keys
      ensures first in ids && forall b | b in ids :: actions[first].position <= actions[b].position
    {
      first :| first in ids;
      var rest := ids - {first};
      while rest != {}
        invariant rest <= ids && first in ids
        invariant forall b | b in ids && b !in rest :: actions[first].position <= actions[b].position
        decreases rest
      {
        var b :| b in rest;
        rest := rest - {b};
        if actions[b].position < actions[first].position {
          first := b;
        }
      }
    }

    /** `ListByWill` */
    method ListByWill(w: WillId) returns (found: seq<ActionId>)
      ensures ListsActions(actions, w, found)
      ensures NoDuplicates(found) && forall a :: a in found <==> a in actions && actions[a].will == w
      ensures forall i, j | 0 <= i < j < |found| :: actions[found[i]].position <= actions[found[j]].position
    {
      found := [];
      var rest := set a | a in actions && actions[a].will == w;
      while rest != {}
        invariant rest <= actions.Keys
        invariant NoDuplicates(found)
        invariant forall a :: a in actions && actions[a].will == w <==> a in found || a in rest
        invariant forall a | a in found :: a !in rest
        invariant forall i, j | 0 <= i < j < |found| :: actions[found[i]].position <= actions[found[j]].position
        invariant forall a, b | a in found && b in rest :: actions[a].position <= actions[b].position
        decreases rest
      {
        var a := FirstByPosition(rest);
        rest := rest - {a};
        found := found + [a];
      }
    }

    /** `CreateExecution`; `id` is a fresh UUID. */
    method CreateExecution(id: ExecId, a: ActionId, w: WillId)
      requires id !in execs
      modifies this`execs
      ensures execs == old(execs)[id := ExecRow(a, w, 1, Queued, None, None, None)]
    {
      execs := execs[id := ExecRow(a, w, 1, Queued, None, None, None)];
    }

    /** The claim in `retryAction`: won only from QUEUED or FAILED, so never while another claim stands. */
    method Claim(id: ExecId, now: int) returns (won: bool)
      modifies this`execs
      ensures won <==> id in old(execs) && (old(execs)[id].status == Queued || old(execs)[id].status == Failed)
      ensures won ==> execs == old(execs)[id := old(execs)[id].(status := InProgress, startedAt := Some(now))]
      ensures !won ==> execs == old(execs)
      ensures won ==> !Claimable(execs[id])
    {
      won := id in execs && (execs[id].status == Queued || execs[id].status == Failed);
      if won {
        execs := execs[id := execs[id].(status := InProgress, startedAt := Some(now))];
      }
    }

    /** `ClaimExecution`, which the scheduler does not use: won only from QUEUED. */
    method ClaimExecution(id: ExecId, now: int) returns (won: bool)
      modifies this`execs
      ensures won <==> id in old(execs) && old(execs)[id].status == Queued
      ensures won ==> execs == old(execs)[id := old(execs)[id].(status := InProgress, startedAt := Some(now))]
      ensures !won ==> execs == old(execs)
    {
      won := id in execs && execs[id].status == Queued;
      if won {
        execs := execs[id := execs[id].(status := InProgress, startedAt := Some(now))];
      }
    }

    /** `FailExecution`: exhausted at the limit, otherwise scheduled again; whatever the old status was. */
    method FailExecution(id: ExecId, attempt: nat, maxRetries: int, now: int)
      modifies this`execs
      ensures id !in old(execs) ==> execs == old(execs)
      ensures id in old(execs) && attempt >= maxRetries ==>
        execs == old(execs)[id := old(execs)[id].(status := Exhausted, attempt := attempt, completedAt := Some(now))]
      ensures var delay :=
                if attempt == 0 then 0 else if attempt == 1 then 300 else if attempt == 2 then 1800 else 86400;
        id in old(execs) && attempt < maxRetries ==>
          execs == old(execs)[id := old(execs)[id].(status := Failed, attempt := attempt,
                                                    nextRetryAt := Some(now + delay))]
    {
      if id !in execs {
        return;
      }
      if attempt >= maxRetries {
        execs := execs[id := execs[id].(status := Exhausted, attempt := attempt, completedAt := Some(now))];
      } else {
        var delays := [0, 300, 1800];
        var delay := if attempt < |delays| then delays[attempt] else 86400;
        execs := execs[id := execs[id].(status := Failed, attempt := attempt, nextRetryAt := Some(now + delay))];
      }
    }

    /** `MarkCompleted` */
    method MarkCompleted(id: ExecId, now: int)
      modifies this`execs
      ensures id in old(execs) ==>
        execs == old(execs)[id := old(execs)[id].(status := Completed, completedAt := Some(now))]
      ensures id !in old(execs) ==> execs == old(execs)
    {
      if id in execs {
        execs := execs[id := execs[id].(status := Completed, completedAt := Some(now))];
      }
    }

    /** The first statement of `tick`: no claim older than the lease survives it, what lost its claim is due at once
        with its attempt count kept, and no other row is touched. */
    method ResetStale(now: int)
      modifies this`execs
      ensures execs.Keys == old(execs).Keys
      ensures forall e | e in execs ::
        var row := old(execs)[e];
        if row.status == InProgress && row.startedAt.Some? && row.startedAt.value < now - 600
        then execs[e] == row.(status := Failed, nextRetryAt := Some(now))
        else execs[e] == row
      ensures forall e | e in execs :: !Stale(execs[e], now)
      ensures execs == map e | e in old(execs) :: ResetRow(old(execs)[e], now)
    {
      execs := map e | e in execs :: ResetRow(execs[e], now);
    }

    /** The scan of `processRetries`: at most `limit` rows, FAILED and with their retry time reached, and all of them
        when there are fewer. */
    method DueRetries(now: int, limit: nat) returns (found: seq<ExecId>)
      ensures NoDuplicates(found) && |found| <= limit
      ensures forall e | e in found ::
        e in execs && execs[e].status == Failed && execs[e].nextRetryAt.Some? && execs[e].nextRetryAt.value <= now
      ensures |found| < limit ==>
        forall e | e in execs && execs[e].status == Failed
                   && execs[e].nextRetryAt.Some? && execs[e].nextRetryAt.value <= now :: e in found
    {
      found := [];
      var rest := execs.Keys;
      while rest != {} && |found| < limit
        invariant rest <= execs.Keys
        invariant NoDuplicates(found) && |found| <= limit
        invariant forall e | e in found :: e in execs && Due(execs[e], now) && e !in rest
        invariant forall e | e in execs && e !in rest && Due(execs[e], now) :: e in found
        decreases rest
      {
        var e :| e in rest;
        rest := rest - {e};
        if Due(execs[e], now) {
          found := found + [e];
        }
      }
    }
  }
}
