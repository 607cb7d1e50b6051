/** When TRIGGERED is written although an action of the will is not COMPLETED or EXHAUSTED. `processWill` reads the
    list of actions once and does not wait for deliveries; actions can be added at any time. */
module EarlyTriggers {
  import opened Basics
  import opened Tables
  import opened Executions
  import opened WillLife
  import opened Protocol
  import opened Invariants
  import opened Projection
  import opened Lease
  import opened ExecutionTheorems
  import opened WillTheorems
  import opened Paths
  import opened Endings

  /** The action has been delivered or given up. */
  ghost predicate Finished(s: State, b: ActionId) {
    exists e :: e in s.db.execs && s.db.execs[e].action == b && Terminal(s.db.execs[e])
  }

  /** Some action of the will is neither delivered nor given up; it need not even have a row. */
  ghost predicate OpenAction(s: State, w: WillId) {
    exists b :: b in s.db.actions && s.db.actions[b].will == w && !Finished(s, b)
  }

  // ----- continuations -----

  /** The run `q` agrees with `r` up to state `i`. */
  ghost predicate Extends(q: Run, r: Run, i: nat) {
    && i < |r.states| && i < |q.states| && i <= |r.steps| && i <= |q.steps|
    && q.states[..i + 1] == r.states[..i + 1] && q.steps[..i] == r.steps[..i]
  }

  ghost predicate WritesTriggered(q: Run, k: nat, w: WillId) {
    && k < |q.steps| && k < |q.states|
    && q.steps[k].Process? && q.steps[k].pop.MarkTriggered?
    && q.steps[k].tid in q.states[k].threads
    && q.states[k].threads[q.steps[k].tid].Processor? && q.states[k].threads[q.steps[k].tid].w == w
  }

  /** From state `i` to state `k` nobody adds an action to the will. */
  ghost predicate AddsNone(q: Run, i: nat, k: nat, w: WillId) {
    k <= |q.steps| && forall j | i <= j < k :: !(q.steps[j].AddAction? && q.steps[j].w == w)
  }

  /** Some continuation within the assumptions writes TRIGGERED while an action of the will is open; `adding` tells
      whether it may add actions to the will. */
  ghost predicate CanEndEarly(r: Run, i: nat, d: Oracle, w: WillId, adding: bool) {
    exists q: Run, k: nat ::
      && Extends(q, r, i) && IsRun(q) && KeepsLease(q) && Deterministically(q, d)
      && i <= k && WritesTriggered(q, k, w) && OpenAction(q.states[k], w)
      && (adding || AddsNone(q, i, k, w))
  }

  /** Only `processWill` goroutines and people who add actions move on this path. */
  ghost predicate Mild(p: Run) {
    IsPath(p) && forall i | 0 <= i < |p.steps| :: MildStep(p.steps[i])
  }

  predicate MildStep(a: Step) {
    a.Process? || a.AddAction?
  }

  lemma GentleIsMild(p: Run)
    requires Gentle(p)
    ensures Mild(p)
  {
    hide IsPath;
  }

  lemma ProcessKeepsLease(s: State, tid: Tid, a: ProcOp)
    requires LeaseHeld(s) && ProcEnabled(s, tid, a)
    ensures LeaseHeld(AfterProcess(s, tid, a))
  {
  }

  lemma ProcessFinishesNothing(s: State, tid: Tid, a: ProcOp, b: ActionId)
    requires ProcEnabled(s, tid, a) && Finished(AfterProcess(s, tid, a), b)
    ensures Finished(s, b)
  {
    var s' := AfterProcess(s, tid, a);
    var e :| e in s'.db.execs && s'.db.execs[e].action == b && Terminal(s'.db.execs[e]);
    assert e in s.db.execs && s.db.execs[e] == s'.db.execs[e];
  }

  /** On a mild step the lease stays kept and open actions stay open. */
  lemma MildStepKeeps(s: State, a: Step, w: WillId)
    requires MildStep(a) && Enabled(s, a)
    ensures LeaseHeld(s) ==> LeaseHeld(Next(s, a))
    ensures OpenAction(s, w) ==> OpenAction(Next(s, a), w)
  {
    RowsStay(s, a);
    if a.Process? && LeaseHeld(s) {
      ProcessKeepsLease(s, a.tid, a.pop);
    }
    if OpenAction(s, w) {
      var b :| b in s.db.actions && s.db.actions[b].will == w && !Finished(s, b);
      if a.Process? && Finished(Next(s, a), b) {
        ProcessFinishesNothing(s, a.tid, a.pop, b);
      }
      assert b in Next(s, a).db.actions && !Finished(Next(s, a), b);
    }
  }

  lemma {:induction false} MildKeeps(p: Run, i: nat, w: WillId)
    requires Mild(p) && i < |p.states|
    ensures LeaseHeld(p.states[0]) ==> LeaseHeld(p.states[i])
    ensures OpenAction(p.states[0], w) ==> OpenAction(p.states[i], w)
  {
    hide Enabled, Next, LeaseHeld, OpenAction;
    if i > 0 {
      MildKeeps(p, i - 1, w);
      assert Enabled(p.states[i - 1], p.steps[i - 1]) && p.states[i] == Next(p.states[i - 1], p.steps[i - 1]);
      MildStepKeeps(p.states[i - 1], p.steps[i - 1], w);
    }
  }

  /** The run up to state `i`, and then the path. */
  ghost predicate Spliced(q: Run, r: Run, i: nat, p: Run) {
    && i < |r.states| && i <= |r.steps| && |p.states| > 0 && p.states[0] == r.states[i]
    && q == Run(r.states[..i + 1] + p.states[1..], r.steps[..i] + p.steps)
  }

  lemma SplicedRun(r: Run, i: nat, p: Run, q: Run)
    requires IsRun(r) && Mild(p) && Spliced(q, r, i, p)
    ensures IsRun(q)
  {
    hide Enabled, Next, Init;
    var head := Run(r.states[..i + 1], r.steps[..i]);
    assert Connects(head, r.states[0], r.states[i]);
    Joined(head, p, r.states[0], r.states[i], p.Last());
  }

  lemma SplicedLease(r: Run, i: nat, p: Run, q: Run)
    requires KeepsLease(r) && Mild(p) && Spliced(q, r, i, p)
    ensures KeepsLease(q)
  {
    hide IsPath, LeaseHeld;
    forall j | 0 <= j < |q.states|
      ensures LeaseHeld(q.states[j])
    {
      if j <= i {
        assert q.states[j] == r.states[j];
      } else {
        MildKeeps(p, j - i, "");
        assert q.states[j] == p.states[j - i];
      }
    }
  }

  lemma SplicedVerdict(r: Run, i: nat, d: Oracle, p: Run, q: Run)
    requires Deterministically(r, d) && Mild(p) && Spliced(q, r, i, p) && |r.states| == |r.steps| + 1
    ensures Deterministically(q, d)
  {
    assert |p.states| == |p.steps| + 1;
    hide IsPath, Follows;
    forall j | 0 <= j < |q.steps|
      ensures Follows(q.states[j], q.steps[j], d)
    {
      if j < i {
        assert q.states[j] == r.states[j] && q.steps[j] == r.steps[j];
      } else {
        assert q.steps[j] == p.steps[j - i];
        MildFollows(q.states[j], q.steps[j], d);
      }
    }
  }

  lemma SplicedEnd(r: Run, i: nat, p: Run, q: Run)
    requires Mild(p) && Spliced(q, r, i, p) && |r.states| == |r.steps| + 1 && |p.steps| > 0
    ensures Extends(q, r, i) && |q.steps| == i + |p.steps| && |q.states| == |q.steps| + 1
    ensures q.steps[|q.steps| - 1] == p.steps[|p.steps| - 1]
    ensures q.states[|q.steps| - 1] == p.states[|p.steps| - 1]
  {
    hide Enabled, Next;
  }

  /** A run within the assumptions goes on along a mild path within them. */
  lemma MildlyContinued(r: Run, i: nat, d: Oracle, p: Run) returns (q: Run)
    requires IsRun(r) && KeepsLease(r) && Deterministically(r, d) && i < |r.states|
    requires Mild(p) && p.states[0] == r.states[i] && |p.steps| > 0
    ensures Extends(q, r, i) && IsRun(q) && KeepsLease(q) && Deterministically(q, d)
    ensures |q.steps| == i + |p.steps| && q.steps[|q.steps| - 1] == p.steps[|p.steps| - 1]
    ensures |q.states| == |q.steps| + 1 && q.states[|q.steps| - 1] == p.states[|p.steps| - 1]
    ensures i <= |r.steps| && q.steps == r.steps[..i] + p.steps
  {
    assert |r.states| == |r.steps| + 1 && |p.states| == |p.steps| + 1;
    q := Run(r.states[..i + 1] + p.states[1..], r.steps[..i] + p.steps);
    hide IsRun, Mild, KeepsLease, Deterministically, Extends;
    SplicedRun(r, i, p, q);
    SplicedLease(r, i, p, q);
    SplicedVerdict(r, i, d, p, q);
    SplicedEnd(r, i, p, q);
  }

  lemma MildFollows(s: State, a: Step, d: Oracle)
    requires MildStep(a)
    ensures Follows(s, a, d)
  {
  }

  // ----- an early write is always possible -----

  lemma FreshPosition(actions: map<ActionId, ActionRow>) returns (position: nat)
    ensures forall b | b in actions :: actions[b].position < position
  {
    var rest := actions.Keys;
    position := 0;
    while rest != {}
      invariant rest <= actions.Keys
      invariant forall b | b in actions && b !in rest :: actions[b].position < position
      decreases rest
    {
      var b :| b in rest;
      rest := rest - {b};
      position := if actions[b].position >= position then actions[b].position + 1 else position;
    }
  }

  /** An action that has just been added has no row. */
  lemma AddedIsOpen(s: State, b: ActionId, w: WillId, position: nat)
    requires Inv(s) && Enabled(s, AddAction(b, w, position))
    ensures OpenAction(Next(s, AddAction(b, w, position)), w)
  {
    var s' := Next(s, AddAction(b, w, position));
    forall e | e in s'.db.execs
      ensures s'.db.execs[e].action != b
    {
      assert ExecRefs(s.db, s.db.execs[e]);
    }
    assert b in s'.db.actions && !Finished(s', b);
  }

  /** Somebody adds an action, and `processWill` goes on to its end. */
  lemma AddingPath(s: State, tid: Tid, w: WillId, pc: ProcPc) returns (p: Run)
    requires Inv(s) && Stands(s, tid, Processor(w, pc)) && !pc.Listing?
    ensures Mild(p) && p.states[0] == s && Marks(p, tid, w) && OpenAction(p.states[|p.steps| - 1], w)
  {
    var b := FreshId(s.db.actions.Keys);
    var position := FreshPosition(s.db.actions);
    var a := AddAction(b, w, position);
    assert ThreadRefs(s.db, s.threads[tid]);
    assert Enabled(s, a) && Stands(Next(s, a), tid, Processor(w, pc));
    AddedIsOpen(s, b, w, position);
    hide Enabled, Next, Inv, Stands, OpenAction;
    Onward(s, a);
    var rest := LoopPath(Next(s, a), tid, w, pc);
    GentleIsMild(rest);
    MildKeeps(rest, |rest.steps| - 1, w);
    p := Before(s, a, rest, tid, w);
  }

  lemma Before(s: State, a: Step, p: Run, tid: Tid, w: WillId) returns (q: Run)
    requires Mild(p) && MildStep(a) && Enabled(s, a) && p.states[0] == Next(s, a) && Marks(p, tid, w)
    ensures Mild(q) && q.states[0] == s && Marks(q, tid, w)
    ensures q.states[|q.steps| - 1] == p.states[|p.steps| - 1]
  {
    hide Enabled, Next, Stands;
    q := Run([s] + p.states, [a] + p.steps);
    forall i | 0 <= i < |q.steps|
      ensures Enabled(q.states[i], q.steps[i]) && q.states[i + 1] == Next(q.states[i], q.steps[i])
      ensures MildStep(q.steps[i])
    {
      if i > 0 {
        assert q.states[i] == p.states[i - 1] && q.steps[i] == p.steps[i - 1] && q.states[i + 1] == p.states[i];
      }
    }
  }

  /** Section 12.1 of the design document wants TRIGGERED only when all actions are COMPLETED or EXHAUSTED. From
      wherever `processWill` stands in its loop it can be written earlier: an action may be added before it is. */
  lemma AlwaysEarly(r: Run, d: Oracle, i: nat, tid: Tid, w: WillId, pc: ProcPc)
    requires IsRun(r) && KeepsLease(r) && Deterministically(r, d) && i < |r.states|
    requires Stands(r.states[i], tid, Processor(w, pc)) && !pc.Listing?
    ensures CanEndEarly(r, i, d, w, true)
  {
    InvAlways(r, i);
    hide IsRun, Inv, KeepsLease, Deterministically, OpenAction;
    var p := AddingPath(r.states[i], tid, w, pc);
    var q := MildlyContinued(r, i, d, p);
    assert WritesTriggered(q, |q.steps| - 1, w);
  }

  // ----- and when nobody adds an action -----

  /** An action still to be queued is open: it has no row yet. */
  lemma TodoIsOpen(r: Run, i: nat, tid: Tid, w: WillId, pc: ProcPc)
    requires IsRun(r) && i < |r.states| && Stands(r.states[i], tid, Processor(w, pc)) && !pc.Listing?
    requires pc.todo != []
    ensures OpenAction(r.states[i], w)
  {
    var s, b := r.states[i], pc.todo[0];
    InvAlways(r, i);
    assert ThreadRefs(s.db, s.threads[tid]);
    assert b in pc.todo;
    OnceHolds(r, i, w);
    hide IsRun;
    var c := WillCellOf(s, w);
    assert tid in c.procs && c.procs[tid] == pc;
    assert Mentions(c.procs[tid], b);
    forall e | e in s.db.execs
      ensures s.db.execs[e].action != b
    {
      assert ExecRefs(s.db, s.db.execs[e]);
      if s.db.execs[e].will == w {
        assert e in c.made && c.made[e] == s.db.execs[e].action;
      }
    }
    assert !Finished(s, b);
  }

  lemma {:induction false} ActionsStay(q: Run, i: nat, k: nat, w: WillId)
    requires IsRun(q) && i <= k < |q.states| && AddsNone(q, i, k, w)
    ensures forall b | b in q.states[k].db.actions && q.states[k].db.actions[b].will == w ::
              b in q.states[i].db.actions && q.states[i].db.actions[b].will == w
    decreases k
  {
    if i < k {
      ActionsStay(q, i, k - 1, w);
      var s, a := q.states[k - 1], q.steps[k - 1];
      assert Enabled(s, a) && q.states[k] == Next(s, a) && !(a.AddAction? && a.w == w);
      hide IsRun;
      ActionsStayStep(s, a, w);
    }
  }

  lemma ActionsStayStep(s: State, a: Step, w: WillId)
    requires Enabled(s, a) && !(a.AddAction? && a.w == w)
    ensures forall b | b in Next(s, a).db.actions && Next(s, a).db.actions[b].will == w ::
              b in s.db.actions && s.db.actions[b].will == w
  {
    hide Work, OwnedRow, OwnedLog, ResetRow, ResetTally;
  }

  /** With every action finished and none added, every action is finished whatever continuation is taken. */
  lemma FinishedStays(q: Run, d: Oracle, i: nat, k: nat, w: WillId)
    requires IsRun(q) && KeepsLease(q) && Deterministically(q, d) && i <= k < |q.states|
    requires AddsNone(q, i, k, w) && !OpenAction(q.states[i], w)
    ensures !OpenAction(q.states[k], w)
  {
    ActionsStay(q, i, k, w);
    hide IsRun, KeepsLease, Deterministically, AddsNone;
    forall b | b in q.states[k].db.actions && q.states[k].db.actions[b].will == w
      ensures Finished(q.states[k], b)
    {
      assert Finished(q.states[i], b);
      var e :| e in q.states[i].db.execs && q.states[i].db.execs[e].action == b && Terminal(q.states[i].db.execs[e]);
      TerminalIsForever(q, d, i, k, e);
      RowPersists(q, i, k, e);
    }
  }

  lemma GentleAddsNone(r: Run, i: nat, p: Run, q: Run, w: WillId)
    requires Gentle(p) && i <= |r.steps| && q.steps == r.steps[..i] + p.steps && |p.steps| > 0
    ensures AddsNone(q, i, |q.steps| - 1, w)
  {
    hide IsPath;
    forall j | i <= j < |q.steps|
      ensures q.steps[j].Process?
    {
      assert q.steps[j] == p.steps[j - i];
    }
  }

  /** `processWill` on its own goes on to its end while the action is open. */
  lemma OpenEndsEarly(r: Run, d: Oracle, i: nat, tid: Tid, w: WillId, pc: ProcPc)
    requires IsRun(r) && KeepsLease(r) && Deterministically(r, d) && i < |r.states|
    requires Stands(r.states[i], tid, Processor(w, pc)) && !pc.Listing? && OpenAction(r.states[i], w)
    ensures CanEndEarly(r, i, d, w, false)
  {
    InvAlways(r, i);
    assert i <= |r.steps|;
    hide IsRun, Inv, KeepsLease, Deterministically, OpenAction, Wrote, IsPath;
    var p := LoopPath(r.states[i], tid, w, pc);
    GentleIsMild(p);
    MildKeeps(p, |p.steps| - 1, w);
    var q := MildlyContinued(r, i, d, p);
    GentleAddsNone(r, i, p, q, w);
    assert WritesTriggered(q, |q.steps| - 1, w);
  }

  lemma ClosedEndsInTime(r: Run, d: Oracle, i: nat, w: WillId)
    requires CanEndEarly(r, i, d, w, false) && i < |r.states|
    ensures OpenAction(r.states[i], w)
  {
    hide IsRun, KeepsLease, Deterministically, OpenAction;
    var q: Run, k: nat :| Extends(q, r, i) && IsRun(q) && KeepsLease(q) && Deterministically(q, d)
      && i <= k && WritesTriggered(q, k, w) && OpenAction(q.states[k], w) && (false || AddsNone(q, i, k, w));
    SameAt(q, r, i);
    if !OpenAction(r.states[i], w) {
      FinishedStays(q, d, i, k, w);
    }
  }

  /** When no action is added, TRIGGERED can be written too early if and only if an action of the will is open now;
      an action still to be queued is open. */
  lemma TriggeredEarlyIff(r: Run, d: Oracle, i: nat, tid: Tid, w: WillId, pc: ProcPc)
    requires IsRun(r) && KeepsLease(r) && Deterministically(r, d) && i < |r.states|
    requires Stands(r.states[i], tid, Processor(w, pc)) && !pc.Listing?
    ensures CanEndEarly(r, i, d, w, false) <==> OpenAction(r.states[i], w)
    ensures pc.todo != [] ==> OpenAction(r.states[i], w)
  {
    hide IsRun, KeepsLease, Deterministically, OpenAction, CanEndEarly;
    if pc.todo != [] {
      TodoIsOpen(r, i, tid, w, pc);
    }
    if OpenAction(r.states[i], w) {
      OpenEndsEarly(r, d, i, tid, w, pc);
    }
    if CanEndEarly(r, i, d, w, false) {
      ClosedEndsInTime(r, d, i, w);
    }
  }

  lemma SameAt(q: Run, r: Run, i: nat)
    requires Extends(q, r, i)
    ensures q.states[i] == r.states[i]
  {
    assert q.states[i] == q.states[..i + 1][i];
  }

  // ----- actions added too late -----

  /** The will has been taken up, and its goroutine has read a list without this action. */
  ghost predicate Overlooked(c: WillCell, b: ActionId) {
    && PastPending(c.row.status) && !c.waiting
    && (forall tid | tid in c.procs :: !c.procs[tid].Listing? && !Mentions(c.procs[tid], b))
    && (forall e | e in c.made :: c.made[e] != b)
  }

  lemma OverlookedStep(c: WillCell, m: WillMove, b: ActionId)
    requires Overlooked(c, b) && WillAllowed(c, m)
    ensures Overlooked(WillMoved(c, m), b)
  {
    match m {
      case Create(tid, e) =>
        var todo := c.procs[tid].todo;
        assert todo[0] in todo;
        assert forall x | x in todo[1..] :: x in todo;
      case Resumed(tid) => assert !Mentions(c.procs[tid], b);
      case _ =>
    }
  }

  lemma {:induction false} OverlookedForever(h: WillHistory, i: nat, j: nat, b: ActionId)
    requires IsHistory(h) && i <= j < |h.cells| && Overlooked(h.cells[i], b)
    ensures Overlooked(h.cells[j], b)
    decreases j
  {
    if i < j {
      OverlookedForever(h, i, j - 1, b);
      hide Overlooked, WillMoved, WillAllowed, NewBorn;
      OverlookedStep(h.cells[j - 1], h.moves[j - 1], b);
    }
  }

  /** An overlooked action never gets an execution row, in any continuation. */
  lemma LateActionStrands(r: Run, i: nat, j: nat, b: ActionId)
    requires IsRun(r) && i <= j < |r.states| && b in r.states[i].db.actions
    requires HasWill(r.states[i], r.states[i].db.actions[b].will)
    requires Overlooked(WillCellOf(r.states[i], r.states[i].db.actions[b].will), b)
    ensures forall e | e in r.states[j].db.execs :: r.states[j].db.execs[e].action != b
  {
    var w := r.states[i].db.actions[b].will;
    var birth, h := HistoryOf(r, i, j, w);
    InvAlways(r, j);
    ActionPersists(r, i, j, b);
    hide IsRun, IsHistory, HistoryIn, Overlooked;
    OverlookedForever(h, i - birth, |h.cells| - 1, b);
    NoRowOf(r.states[j], w, b);
  }

  lemma NoRowOf(s: State, w: WillId, b: ActionId)
    requires Inv(s) && HasWill(s, w) && Overlooked(WillCellOf(s, w), b)
    requires b in s.db.actions && s.db.actions[b].will == w
    ensures forall e | e in s.db.execs :: s.db.execs[e].action != b
  {
    forall e | e in s.db.execs
      ensures s.db.execs[e].action != b
    {
      assert ExecRefs(s.db, s.db.execs[e]);
      if s.db.execs[e].will == w {
        assert e in MadeOf(s, w);
      }
    }
  }

  lemma {:induction false} ActionPersists(r: Run, i: nat, j: nat, b: ActionId)
    requires IsRun(r) && i <= j < |r.states| && b in r.states[i].db.actions
    ensures b in r.states[j].db.actions && r.states[j].db.actions[b] == r.states[i].db.actions[b]
    decreases j
  {
    hide Enabled, Next, Init;
    if i < j {
      ActionPersists(r, i, j - 1, b);
      RowsStay(r.states[j - 1], r.steps[j - 1]);
    }
  }

  /** An action added once the list of a won will has been read is overlooked: it never gets a row. */
  lemma AddedLate(r: Run, i: nat, j: nat)
    requires IsRun(r) && i < j < |r.states| && r.steps[i].AddAction?
    requires HasWill(r.states[i], r.steps[i].w)
    requires var c := WillCellOf(r.states[i], r.steps[i].w);
      PastPending(c.row.status) && !c.waiting && forall tid | tid in c.procs :: !c.procs[tid].Listing?
    ensures forall e | e in r.states[j].db.execs :: r.states[j].db.execs[e].action != r.steps[i].a
  {
    var s, w, b := r.states[i], r.steps[i].w, r.steps[i].a;
    InvAlways(r, i);
    assert Enabled(s, r.steps[i]) && r.states[i + 1] == Next(s, r.steps[i]);
    WillProjects(s, r.steps[i], w);
    NotYetMentioned(s, w, b);
    hide IsRun, Inv, Overlooked;
    LateActionStrands(r, i + 1, j, b);
  }

  lemma NotYetMentioned(s: State, w: WillId, b: ActionId)
    requires Inv(s) && HasWill(s, w) && b !in s.db.actions
    requires var c := WillCellOf(s, w);
      PastPending(c.row.status) && !c.waiting && forall tid | tid in c.procs :: !c.procs[tid].Listing?
    ensures Overlooked(WillCellOf(s, w), b)
  {
    var c := WillCellOf(s, w);
    forall tid | tid in c.procs
      ensures !Mentions(c.procs[tid], b)
    {
      assert ThreadRefs(s.db, s.threads[tid]);
    }
    forall e | e in c.made
      ensures c.made[e] != b
    {
      assert ExecRefs(s.db, s.db.execs[e]);
    }
  }
}
