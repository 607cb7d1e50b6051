/** The order of a will's actions: positions tell them apart, so a listing by position is one definite list, and
    execution rows are created in that order. */
module ActionOrder {
  import opened Basics
  import opened Tables
  import opened WillLife
  import opened Executions
  import opened Protocol
  import opened Invariants
  import opened Projection
  import opened WillTheorems

  /** No two actions of a will have the same position. */
  ghost predicate PositionsDiffer(actions: map<ActionId, ActionRow>) {
    forall a, b | a in actions && b in actions && actions[a] == actions[b] :: a == b
  }

  lemma {:induction false} PositionsAlways(r: Run, i: nat)
    requires IsRun(r) && i < |r.states|
    ensures PositionsDiffer(r.states[i].db.actions)
  {
    if i > 0 {
      hide Enabled, Next, Init;
      PositionsAlways(r, i - 1);
      PositionsStep(r.states[i - 1], r.steps[i - 1]);
    }
  }

  lemma PositionsStep(s: State, a: Step)
    requires Enabled(s, a) && PositionsDiffer(s.db.actions)
    ensures PositionsDiffer(Next(s, a).db.actions)
  {
    hide AfterSched, AfterProcess, AfterAct, OwnedRow, OwnedLog;
    match a {
      case Sched(sop) => SchedKeepsActions(s, sop);
      case Process(tid, pop) => ProcessKeepsActions(s, tid, pop);
      case Act(tid, op) => ActKeepsActions(s, tid, op);
      case _ =>
    }
  }

  lemma SchedKeepsActions(s: State, a: SchedOp)
    requires SchedEnabled(s, a)
    ensures AfterSched(s, a).db.actions == s.db.actions
  {
  }

  lemma ProcessKeepsActions(s: State, tid: Tid, a: ProcOp)
    requires ProcEnabled(s, tid, a)
    ensures AfterProcess(s, tid, a).db.actions == s.db.actions
  {
  }

  lemma ActKeepsActions(s: State, tid: Tid, op: WorkOp)
    requires ActEnabled(s, tid, op)
    ensures AfterAct(s, tid, op).db.actions == s.db.actions
  {
    hide Work;
  }

  /** Increasing in position. */
  ghost predicate Increasing(actions: map<ActionId, ActionRow>, list: seq<ActionId>) {
    && (forall i | 0 <= i < |list| :: list[i] in actions)
    && forall i, j | 0 <= i < j < |list| :: actions[list[i]].position < actions[list[j]].position
  }

  lemma ListingIncreases(actions: map<ActionId, ActionRow>, w: WillId, found: seq<ActionId>)
    requires PositionsDiffer(actions) && ListsActions(actions, w, found)
    ensures Increasing(actions, found) && forall a :: a in found <==> a in actions && actions[a].will == w
  {
    forall i, j | 0 <= i < j < |found|
      ensures found[i] in actions && found[j] in actions && actions[found[i]].position < actions[found[j]].position
    {
      assert found[i] in found && found[j] in found;
    }
  }

  /** Two increasing lists of the same actions are the same list. */
  lemma {:induction false} OneIncreasing(actions: map<ActionId, ActionRow>, x: seq<ActionId>, y: seq<ActionId>)
    requires Increasing(actions, x) && Increasing(actions, y) && forall a :: a in x <==> a in y
    ensures x == y
    decreases |x|
  {
    if x == [] {
      FirstIsIn(y);
    } else {
      assert x[0] in x && x[0] in y;
      assert y[0] in y && y[0] in x;
      Heads(actions, x, y);
      Tails(actions, x);
      Tails(actions, y);
      OneIncreasing(actions, x[1..], y[1..]);
    }
  }

  lemma Heads(actions: map<ActionId, ActionRow>, x: seq<ActionId>, y: seq<ActionId>)
    requires Increasing(actions, x) && Increasing(actions, y) && x != [] && y != [] && x[0] in y && y[0] in x
    ensures x[0] == y[0]
  {
    var i :| 0 <= i < |x| && x[i] == y[0];
    var j :| 0 <= j < |y| && y[j] == x[0];
    assert i == 0 || j == 0;
  }

  lemma Tails(actions: map<ActionId, ActionRow>, x: seq<ActionId>)
    requires Increasing(actions, x) && x != []
    ensures Increasing(actions, x[1..]) && forall a :: a in x[1..] <==> a in x && a != x[0]
  {
  }

  /** In every reachable state `ListByWill` can answer with one list only: each action of the will once, with the
      smallest position first. */
  lemma OneListing(r: Run, i: nat, w: WillId, x: seq<ActionId>, y: seq<ActionId>)
    requires IsRun(r) && i < |r.states|
    requires ListsActions(r.states[i].db.actions, w, x) && ListsActions(r.states[i].db.actions, w, y)
    ensures x == y
    ensures forall k, l | 0 <= k < l < |x| ::
              && x[k] in r.states[i].db.actions && x[l] in r.states[i].db.actions
              && r.states[i].db.actions[x[k]].position < r.states[i].db.actions[x[l]].position
  {
    PositionsAlways(r, i);
    hide IsRun, ListsActions;
    ListingIncreases(r.states[i].db.actions, w, x);
    ListingIncreases(r.states[i].db.actions, w, y);
    OneIncreasing(r.states[i].db.actions, x, y);
  }

  // ----- rows are created in that order -----

  /** What is still to be queued is increasing, and comes after everything that has a row. */
  ghost predicate Ahead(actions: map<ActionId, ActionRow>, made: map<ExecId, ActionId>, todo: seq<ActionId>) {
    && Increasing(actions, todo)
    && (forall e | e in made :: made[e] in actions)
    && forall e, i | e in made && 0 <= i < |todo| :: actions[made[e]].position < actions[todo[i]].position
  }

  ghost predicate OrderOk(c: WillCell, actions: map<ActionId, ActionRow>) {
    forall tid | tid in c.procs && !c.procs[tid].Listing? :: Ahead(actions, c.made, c.procs[tid].todo)
  }

  lemma OrderStep(c: WillCell, m: WillMove, actions: map<ActionId, ActionRow>)
    requires WillAllowed(c, m) && WinsOk(c) && MadeOk(c) && OrderOk(c, actions)
    requires m.List? ==> Increasing(actions, m.found)
    ensures OrderOk(WillMoved(c, m), actions)
  {
  }

  lemma OrderGrows(c: WillCell, actions: map<ActionId, ActionRow>, more: map<ActionId, ActionRow>)
    requires OrderOk(c, actions) && forall a | a in actions :: a in more && more[a] == actions[a]
    ensures OrderOk(c, more)
  {
    forall tid | tid in c.procs && !c.procs[tid].Listing?
      ensures Ahead(more, c.made, c.procs[tid].todo)
    {
      assert Ahead(actions, c.made, c.procs[tid].todo);
    }
  }

  /** The list a goroutine reads is increasing. */
  lemma ListIncreases(s: State, a: Step, w: WillId)
    requires Enabled(s, a) && PositionsDiffer(s.db.actions) && WillMoveOf(s, a, w).List?
    ensures Increasing(s.db.actions, WillMoveOf(s, a, w).found)
  {
    hide ListsActions, PositionsDiffer, Increasing;
    ListingIncreases(s.db.actions, w, WillMoveOf(s, a, w).found);
  }

  lemma {:induction false} OrderAlways(r: Run, i: nat, w: WillId)
    requires IsRun(r) && i < |r.states| && w in r.states[i].db.wills
    ensures HasWill(r.states[i], w) && OrderOk(WillCellOf(r.states[i], w), r.states[i].db.actions)
  {
    OnceHolds(r, i, w);
    if i > 0 {
      WillArrives(r, i - 1, w);
      assert Enabled(r.states[i - 1], r.steps[i - 1]) && r.states[i] == Next(r.states[i - 1], r.steps[i - 1]);
      if w in r.states[i - 1].db.wills {
        OrderAlways(r, i - 1, w);
        OnceHolds(r, i - 1, w);
        PositionsAlways(r, i - 1);
        hide Next, Enabled, Init, OrderOk, WinsOk, MadeOk, WillMoved, WillAllowed, WillMoveOf, WillCellOf;
        OrderOn(r.states[i - 1], r.steps[i - 1], w);
      }
    } else {
      InitHasNoWill(r, w);
    }
  }

  lemma OrderOn(s: State, a: Step, w: WillId)
    requires Enabled(s, a) && HasWill(s, w) && HasWill(Next(s, a), w) && PositionsDiffer(s.db.actions)
    requires WillAllowed(WillCellOf(s, w), WillMoveOf(s, a, w))
    requires WillCellOf(Next(s, a), w) == WillMoved(WillCellOf(s, w), WillMoveOf(s, a, w))
    requires WinsOk(WillCellOf(s, w)) && MadeOk(WillCellOf(s, w)) && OrderOk(WillCellOf(s, w), s.db.actions)
    ensures OrderOk(WillCellOf(Next(s, a), w), Next(s, a).db.actions)
  {
    RowsStay(s, a);
    hide Next, Enabled, OrderOk, WinsOk, MadeOk, WillMoved, WillAllowed, WillMoveOf, WillCellOf, PositionsDiffer;
    if WillMoveOf(s, a, w).List? {
      ListIncreases(s, a, w);
    }
    OrderStep(WillCellOf(s, w), WillMoveOf(s, a, w), s.db.actions);
    OrderGrows(WillCellOf(Next(s, a), w), s.db.actions, Next(s, a).db.actions);
  }

  /** Execution rows are created in the order of position: when a row is created, every row the will has already got
      belongs to an action with a smaller position. */
  lemma QueuedInOrder(r: Run, i: nat, f: ExecId)
    requires IsRun(r) && i < |r.steps| && r.steps[i].Process? && r.steps[i].pop.CreateExecution?
    requires f in r.states[i].db.execs && r.steps[i].pop.e in r.states[i + 1].db.execs
    requires r.states[i].db.execs[f].will == r.states[i + 1].db.execs[r.steps[i].pop.e].will
    ensures var actions := r.states[i].db.actions;
      var old', new' := r.states[i].db.execs[f].action, r.states[i + 1].db.execs[r.steps[i].pop.e].action;
      old' in actions && new' in actions && actions[old'].position < actions[new'].position
  {
    var s, a := r.states[i], r.steps[i];
    assert Enabled(s, a) && r.states[i + 1] == Next(s, a);
    InvAlways(r, i);
    var w := s.threads[a.tid].w;
    assert ThreadRefs(s.db, s.threads[a.tid]);
    OrderAlways(r, i, w);
    var c := WillCellOf(s, w);
    assert a.tid in c.procs && f in c.made;
    assert Ahead(s.db.actions, c.made, c.procs[a.tid].todo);
  }
}
