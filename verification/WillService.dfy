/** The will service and the lifecycle handlers, as methods on the `wills` table. */
module WillService {
  import opened Basics
  import opened Tables
  import opened WillLife

  datatype CreateResult = Created(row: WillRow) | NameRequired | IntervalRequired | Locked | UnknownMeta

  /** `max_retries` of a new will. */
  const DEFAULT_RETRIES: int := 3

  class WillTable {
    var rows: map<WillId, WillRow>

    constructor ()
      ensures rows == map[]
    {
      rows := map[];
    }

    /** `Create`, without the payload; `id` is a fresh UUID. The INSERT fails on an unknown crypto_meta row. */
    method Create(id: WillId, name: string, interval: int, unlocked: bool, metaExists: bool) returns (r: CreateResult)
      requires id !in rows
      modifies this
      ensures r.Created? <==> name != "" && interval > 0 && unlocked && metaExists
      ensures r.NameRequired? <==> name == ""
      ensures r.IntervalRequired? <==> name != "" && interval <= 0
      ensures r.Locked? <==> name != "" && interval > 0 && !unlocked
      ensures r.Created? ==> rows == old(rows)[id := WillRow(Draft, interval, None, None, 3)]
      ensures !r.Created? ==> rows == old(rows)
    {
      if name == "" {
        return NameRequired;
      }
      if interval <= 0 {
        return IntervalRequired;
      }
      if !unlocked {
        return Locked;
      }
      if !metaExists {
        return UnknownMeta;
      }
      rows := rows[id := NewWill(interval, DEFAULT_RETRIES)];
      return Created(rows[id]);
    }

    /** `Transition`: only legal changes, and only from the status the caller believes in. */
    method Transition(w: WillId, from: WillStatus, to: WillStatus) returns (ok: bool)
      modifies this
      ensures ok <==>
        && w in old(rows) && old(rows)[w].status == from
        && (from, to) in {(Draft, Active), (Active, Paused), (Active, PendingTrigger), (Paused, Active),
                          (PendingTrigger, Triggered)}
      ensures rows == if ok then old(rows)[w := old(rows)[w].(status := to)] else old(rows)
    {
      var valid := false;
      match from {
        case Draft => valid := to == Active;
        case Active => valid := to == Paused || to == PendingTrigger;
        case Paused => valid := to == Active;
        case PendingTrigger => valid := to == Triggered;
        case _ =>
      }
      if !valid || w !in rows || rows[w].status != from {
        return false;
      }
      rows := rows[w := rows[w].(status := to)];
      return true;
    }

    /** `TransitionToPending`: won by at most one caller, and only while the will is overdue. */
    method TransitionToPending(w: WillId, now: int) returns (won: bool)
      modifies this
      ensures won <==>
        && w in old(rows) && old(rows)[w].status == Active
        && old(rows)[w].deadline.Some? && old(rows)[w].deadline.value <= now
      ensures rows == if won then old(rows)[w := old(rows)[w].(status := PendingTrigger)] else old(rows)
      ensures won ==> forall t :: !Overdue(rows[w], t)
    {
      if w in rows && rows[w].status == Active && rows[w].deadline.Some? && rows[w].deadline.value <= now {
        rows := rows[w := rows[w].(status := PendingTrigger)];
        return true;
      }
      return false;
    }

    /** `GetOverdue` */
    method GetOverdue(now: int) returns (found: seq<WillId>)
      ensures NoDuplicates(found)
      ensures forall w :: w in found <==>
        w in rows && rows[w].status == Active && rows[w].deadline.Some? && rows[w].deadline.value <= now
    {
      found := [];
      var rest := rows.Keys;
      while rest != {}
        invariant rest <= rows.Keys
        invariant NoDuplicates(found)
        invariant forall w :: w in found <==> w in rows && w !in rest && Overdue(rows[w], now)
        decreases rest
      {
        var w :| w in rest;
        rest := rest - {w};
        if Overdue(rows[w], now) {
          found := found + [w];
        }
      }
    }

    /** `CheckIn` and `handleActivateWill`, `handlePauseWill`, `handleArchiveWill`: what the owner asks for, and
        whether a row was changed. A will that never leaves DRAFT other than here has no deadline before. */
    method Apply(w: WillId, op: OwnerOp) returns (changed: bool)
      modifies this
      ensures rows == if w in old(rows) then old(rows)[w := OwnedRow(old(rows)[w], op)] else old(rows)
      ensures changed <==> w in old(rows) && match op
        case Activate(_) => old(rows)[w].status == Draft
        case CheckIn(_) => old(rows)[w].status == Active
        case Pause => old(rows)[w].status == Active
        case Resume => old(rows)[w].status == Paused
        case Archive => true
      ensures changed ==> w in rows && rows == old(rows)[w := rows[w]]
      ensures !changed ==> rows == old(rows)
      ensures changed && op.Activate? ==> rows[w] == old(rows)[w].(status := Active, deadline := Some(op.now))
      ensures changed && op.CheckIn? ==>
        rows[w] == old(rows)[w].(lastCheckIn := Some(op.now), deadline := Some(op.now + old(rows)[w].interval))
      ensures changed && op.Pause? ==> rows[w] == old(rows)[w].(status := Paused)
      ensures changed && op.Resume? ==> rows[w] == old(rows)[w].(status := Active)
      ensures changed && op.Archive? ==> rows[w] == old(rows)[w].(status := Archived)
    {
      if w !in rows {
        return false;
      }
      match op {
        case Activate(now) =>
          changed := rows[w].status == Draft;
          if changed {
            rows := rows[w := rows[w].(status := Active, deadline := Some(now))];
          }
        case CheckIn(now) =>
          changed := rows[w].status == Active;
          if changed {
            rows := rows[w := rows[w].(lastCheckIn := Some(now), deadline := Some(now + rows[w].interval))];
          }
        case Pause => changed := Transition(w, Active, Paused);
        case Resume => changed := Transition(w, Paused, Active);
        case Archive => changed := UpdateStatus(w, Archived);
      }
    }

    /** `UpdateStatus`: whatever the old status was. */
    method UpdateStatus(w: WillId, to: WillStatus) returns (changed: bool)
      modifies this
      ensures changed <==> w in old(rows)
      ensures rows == if w in old(rows) then old(rows)[w := old(rows)[w].(status := to)] else old(rows)
    {
      changed := w in rows;
      if changed {
        rows := rows[w := rows[w].(status := to)];
      }
    }
  }
}
