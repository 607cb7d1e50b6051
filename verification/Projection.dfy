/** Every run of the whole system, seen from one execution row or from one will, is a life of
    that row or a history of that will. Facts about lives and histories thereby hold of all runs. */
module Projection {
  import opened Tables
  import opened Executions
  import opened WillLife
  import opened Protocol
  import opened Invariants

  // ----- one execution row -----

  function WorkersOf(s: State, e: ExecId): map<Tid, WorkPc> {
    map tid | tid in s.threads && s.threads[tid].Worker? && s.threads[tid].e == e :: s.threads[tid].work
  }

  ghost function CellOf(s: State, e: ExecId): Cell
    requires HasRows(s, e)
  {
    Cell(s.db.execs[e], s.tally[e], WorkersOf(s, e), s.db.wills[s.db.execs[e].will].maxRetries, s.clock)
  }

  function SchedMove(s: State, a: SchedOp, e: ExecId): Move {
    match a
    case StartTick(now) => Reset(now)
    case DispatchRetry(tid) =>
      if s.sched.Retrying? && s.sched.due != [] && s.sched.due[0] == e && s.tokens < s.capacity
      then Spawn(tid) else Still(s.clock)
    case _ => Still(s.clock)
  }

  function ProcMove(s: State, tid: Tid, a: ProcOp, e: ExecId): Move {
    if a.DispatchExec? && tid in s.threads && s.threads[tid].Processor? && s.threads[tid].proc.Queuing?
       && s.threads[tid].proc.e == e && s.tokens < s.capacity
    then Spawn(a.worker) else Still(s.clock)
  }

  /** What a step of the system means for the row `e`. */
  function MoveOf(s: State, a: Step, e: ExecId): Move {
    match a
    case Advance(to) => Still(to)
    case Crash => Vanish
    case Sched(sop) => SchedMove(s, sop, e)
    case Process(tid, pop) => ProcMove(s, tid, pop, e)
    case Act(tid, op) =>
      if tid in s.threads && s.threads[tid].Worker? && s.threads[tid].e == e
      then Move.Act(tid, op) else Still(s.clock)
    case _ => Still(s.clock)
  }

  lemma SchedWorkers(s: State, a: SchedOp, e: ExecId)
    requires SchedEnabled(s, a)
    ensures WorkersOf(AfterSched(s, a), e) ==
      if a.DispatchRetry? && s.sched.due[0] == e && s.tokens < s.capacity
      then WorkersOf(s, e)[a.tid := Spawned]
      else WorkersOf(s, e)
  {
    hide ResetRow, ResetTally;
  }

  lemma SchedProjects(s: State, a: SchedOp, e: ExecId)
    requires KeysOk(s) && SchedEnabled(s, a) && HasRows(s, e)
    ensures HasRows(AfterSched(s, a), e)
    ensures Allowed(CellOf(s, e), SchedMove(s, a, e))
    ensures CellOf(AfterSched(s, a), e) == Moved(CellOf(s, e), SchedMove(s, a, e))
  {
    SchedWorkers(s, a, e);
    assert a.DispatchRetry? ==> a.tid !in WorkersOf(s, e);
    hide WorkersOf, Work, WorkEnabled;
  }

  lemma ProcWorkers(s: State, tid: Tid, a: ProcOp, e: ExecId)
    requires ProcEnabled(s, tid, a)
    ensures WorkersOf(AfterProcess(s, tid, a), e) ==
      if a.DispatchExec? && s.threads[tid].proc.e == e && s.tokens < s.capacity
      then WorkersOf(s, e)[a.worker := Spawned]
      else WorkersOf(s, e)
  {
  }

  lemma ProcProjects(s: State, tid: Tid, a: ProcOp, e: ExecId)
    requires KeysOk(s) && ProcEnabled(s, tid, a) && HasRows(s, e)
    ensures HasRows(AfterProcess(s, tid, a), e)
    ensures Allowed(CellOf(s, e), ProcMove(s, tid, a, e))
    ensures CellOf(AfterProcess(s, tid, a), e) == Moved(CellOf(s, e), ProcMove(s, tid, a, e))
  {
    ProcWorkers(s, tid, a, e);
    assert a.DispatchExec? ==> a.worker !in WorkersOf(s, e);
    hide WorkersOf, Work, WorkEnabled;
  }

  lemma ActProjects(s: State, tid: Tid, op: WorkOp, e: ExecId)
    requires KeysOk(s) && RefsOk(s.db) && ActEnabled(s, tid, op) && HasRows(s, e)
    ensures HasRows(AfterAct(s, tid, op), e)
    ensures Allowed(CellOf(s, e), MoveOf(s, Step.Act(tid, op), e))
    ensures CellOf(AfterAct(s, tid, op), e) == Moved(CellOf(s, e), MoveOf(s, Step.Act(tid, op), e))
  {
    hide Work, WorkEnabled;
    var f := s.threads[tid].e;
    WorkKeepsRefs(s.threads[tid].work, s.db.execs[f], s.tally[f], s.db.wills[s.db.execs[f].will].maxRetries, op);
    assert WorkersOf(AfterAct(s, tid, op), e) == Moved(CellOf(s, e), MoveOf(s, Step.Act(tid, op), e)).workers;
  }

  lemma RowProjects(s: State, a: Step, e: ExecId)
    requires Inv(s) && Enabled(s, a) && HasRows(s, e)
    ensures HasRows(Next(s, a), e)
    ensures Allowed(CellOf(s, e), MoveOf(s, a, e))
    ensures CellOf(Next(s, a), e) == Moved(CellOf(s, e), MoveOf(s, a, e))
  {
    hide AfterSched, AfterProcess, AfterAct, OwnedLog, Work, SchedMove, ProcMove;
    match a {
      case Sched(sop) => SchedProjects(s, sop, e);
      case Process(tid, pop) => ProcProjects(s, tid, pop, e);
      case Act(tid, op) => ActProjects(s, tid, op, e);
      case _ =>
        assert WorkersOf(Next(s, a), e) == Moved(CellOf(s, e), MoveOf(s, a, e)).workers;
    }
  }

  ghost predicate Shows(s: State, e: ExecId, c: Cell) {
    HasRows(s, e) && c == CellOf(s, e)
  }

  /** The life of `e` inside a run, from the state `birth` in which its row first exists. */
  ghost predicate LifeIn(r: Run, e: ExecId, birth: nat, l: Life) {
    && |r.states| == |r.steps| + 1
    && |l.cells| == |l.moves| + 1
    && birth + |l.cells| <= |r.states|
    && (forall j | 0 <= j < |l.cells| :: Shows(r.states[birth + j], e, l.cells[j]))
    && (forall j | 0 <= j < |l.moves| :: l.moves[j] == MoveOf(r.states[birth + j], r.steps[birth + j], e))
  }

  /** Only `processWill` creates rows. */
  lemma SchedMakesNoRow(s: State, a: SchedOp)
    requires SchedEnabled(s, a)
    ensures AfterSched(s, a).db.execs.Keys == s.db.execs.Keys
  {
  }

  lemma NoWorkerYet(s: State, e: ExecId)
    requires ThreadsOk(s) && e !in s.db.execs
    ensures WorkersOf(s, e) == map[]
    ensures forall tid | tid in s.threads && s.threads[tid].Processor? && s.threads[tid].proc.Queuing? ::
              s.threads[tid].proc.e != e
  {
  }

  lemma RowBorn(s: State, a: Step, e: ExecId)
    requires Inv(s) && Enabled(s, a) && e !in s.db.execs && e in Next(s, a).db.execs
    ensures HasRows(Next(s, a), e) && Fresh(CellOf(Next(s, a), e))
  {
    hide AfterSched, Work, OwnedRow, OwnedLog;
    match a {
      case Sched(sop) => SchedMakesNoRow(s, sop);
      case Process(tid, pop) =>
        NoWorkerYet(s, e);
        ProcWorkers(s, tid, pop, e);
        hide WorkersOf;
      case _ =>
    }
  }

  lemma InitHasNoRow(r: Run, e: ExecId)
    requires IsRun(r)
    ensures e !in r.states[0].db.execs
  {
  }

  lemma RowPresent(r: Run, i: nat, e: ExecId)
    requires IsRun(r) && i < |r.states| && e in r.states[i].db.execs
    ensures HasRows(r.states[i], e)
  {
    InvAlways(r, i);
  }

  /** A row that exists came from the step before, or was created by it. */
  lemma RowArrives(r: Run, i: nat, e: ExecId)
    requires IsRun(r) && i < |r.steps| && e in r.states[i + 1].db.execs
    ensures HasRows(r.states[i + 1], e)
    ensures var s, a := r.states[i], r.steps[i];
      if e in s.db.execs
      then HasRows(s, e) && Allowed(CellOf(s, e), MoveOf(s, a, e))
           && CellOf(r.states[i + 1], e) == Moved(CellOf(s, e), MoveOf(s, a, e))
      else Fresh(CellOf(r.states[i + 1], e))
  {
    hide Enabled, Next, MoveOf, Allowed, Moved, Fresh, CellOf;
    RowPresent(r, i + 1, e);
    InvAlways(r, i);
    var s, a := r.states[i], r.steps[i];
    if e in s.db.execs {
      RowPresent(r, i, e);
      RowProjects(s, a, e);
    } else {
      RowBorn(s, a, e);
    }
  }

  lemma ExtendLife(l: Life, c: Cell, m: Move)
    requires IsLife(l) && Allowed(l.cells[|l.cells| - 1], m) && c == Moved(l.cells[|l.cells| - 1], m)
    ensures IsLife(Life(l.cells + [c], l.moves + [m]))
  {
  }

  lemma ExtendLifeIn(r: Run, e: ExecId, birth: nat, l: Life, c: Cell)
    requires LifeIn(r, e, birth, l) && birth + |l.cells| < |r.states|
    requires Shows(r.states[birth + |l.cells|], e, c)
    ensures var i := birth + |l.cells| - 1;
      LifeIn(r, e, birth, Life(l.cells + [c], l.moves + [MoveOf(r.states[i], r.steps[i], e)]))
  {
  }

  /** Every existing row has a life that ends in its present cell. */
  lemma {:induction false} RowHasLife(r: Run, i: nat, e: ExecId) returns (birth: nat, l: Life)
    requires IsRun(r) && i < |r.states| && e in r.states[i].db.execs
    ensures 0 < birth <= i && |l.cells| == i - birth + 1 && e !in r.states[birth - 1].db.execs
    ensures IsLife(l) && LifeIn(r, e, birth, l)
  {
    hide Enabled, Next, MoveOf, Allowed, Moved, Init, CellOf;
    InitHasNoRow(r, e);
    RowArrives(r, i - 1, e);
    var c := CellOf(r.states[i], e);
    if e in r.states[i - 1].db.execs {
      var b, before := RowHasLife(r, i - 1, e);
      var m, n := MoveOf(r.states[i - 1], r.steps[i - 1], e), |before.cells|;
      assert Shows(r.states[b + (n - 1)], e, before.cells[n - 1]);
      ExtendLife(before, c, m);
      ExtendLifeIn(r, e, b, before, c);
      birth, l := b, Life(before.cells + [c], before.moves + [m]);
    } else {
      birth, l := i, Life([c], []);
      assert IsLife(l);
    }
  }

  // ----- one will -----

  function ProcsIn(threads: map<Tid, Thread>, w: WillId): map<Tid, ProcPc> {
    map tid | tid in threads && threads[tid].Processor? && threads[tid].w == w :: threads[tid].proc
  }

  function ProcsOf(s: State, w: WillId): map<Tid, ProcPc> {
    ProcsIn(s.threads, w)
  }

  lemma ProcsPut(threads: map<Tid, Thread>, tid: Tid, t: Thread, w: WillId)
    ensures ProcsIn(threads[tid := t], w) ==
      if t.Processor? && t.w == w then ProcsIn(threads, w)[tid := t.proc] else ProcsIn(threads, w) - {tid}
  {
  }

  function MadeOf(s: State, w: WillId): map<ExecId, ActionId> {
    map e | e in s.db.execs && s.db.execs[e].will == w :: s.db.execs[e].action
  }

  ghost predicate HasWill(s: State, w: WillId) {
    w in s.db.wills && w in s.wlog
  }

  ghost function WillCellOf(s: State, w: WillId): WillCell
    requires HasWill(s, w)
  {
    WillCell(s.db.wills[w], s.wlog[w], s.sched.Won? && s.sched.will == w, ProcsOf(s, w), MadeOf(s, w))
  }

  function SchedWillMove(s: State, a: SchedOp, w: WillId): WillMove {
    match a
    case TryPending(now) =>
      if s.sched.Sweep? && s.sched.overdue != [] && s.sched.overdue[0] == w
         && w in s.db.wills && Overdue(s.db.wills[w], now)
      then Win(now) else Nothing
    case DispatchWill(tid) =>
      if s.sched.Won? && s.sched.will == w
      then if s.tokens < s.capacity then Start(tid) else Drop
      else Nothing
    case _ => Nothing
  }

  function ProcWillMove(s: State, tid: Tid, a: ProcOp, w: WillId): WillMove {
    if tid in s.threads && s.threads[tid].Processor? && s.threads[tid].w == w
    then match a
         case ListActions(found) => List(tid, found)
         case CreateExecution(e) => Create(tid, e)
         case DispatchExec(_) => Resumed(tid)
         case MarkTriggered => Finish(tid)
    else Nothing
  }

  /** What a step of the system means for the will `w`. */
  function WillMoveOf(s: State, a: Step, w: WillId): WillMove {
    match a
    case Crash => Perish
    case Owner(x, own) => if x == w then Own(own) else Nothing
    case Sched(sop) => SchedWillMove(s, sop, w)
    case Process(tid, pop) => ProcWillMove(s, tid, pop, w)
    case _ => Nothing
  }

  lemma SchedMade(s: State, a: SchedOp, w: WillId)
    requires SchedEnabled(s, a)
    ensures MadeOf(AfterSched(s, a), w) == MadeOf(s, w)
  {
  }

  lemma SchedProcs(s: State, a: SchedOp, w: WillId)
    requires SchedEnabled(s, a)
    ensures ProcsOf(AfterSched(s, a), w) ==
      if a.DispatchWill? && s.sched.will == w && s.tokens < s.capacity
      then ProcsOf(s, w)[a.tid := Listing]
      else ProcsOf(s, w)
  {
  }

  lemma ResetKeepsWills(s: State, now: int)
    ensures var s' := AfterReset(s, now); s'.db.wills == s.db.wills && s'.wlog == s.wlog && s'.sched == Resetted
  {
  }

  lemma WinProjects(s: State, now: int, w: WillId)
    requires KeysOk(s) && SchedEnabled(s, TryPending(now)) && HasWill(s, w)
    ensures var s', m := AfterTryPending(s, now), SchedWillMove(s, TryPending(now), w);
      && HasWill(s', w) && WillAllowed(WillCellOf(s, w), m)
      && WillCellOf(s', w) == WillMoved(WillCellOf(s, w), m)
  {
  }

  lemma StartProjects(s: State, tid: Tid, w: WillId)
    requires KeysOk(s) && SchedEnabled(s, DispatchWill(tid)) && HasWill(s, w)
    ensures var s', m := AfterDispatchWill(s, tid), SchedWillMove(s, DispatchWill(tid), w);
      && HasWill(s', w) && WillAllowed(WillCellOf(s, w), m)
      && WillCellOf(s', w) == WillMoved(WillCellOf(s, w), m)
  {
    SchedMade(s, DispatchWill(tid), w);
    SchedProcs(s, DispatchWill(tid), w);
    assert tid !in ProcsOf(s, w);
    hide MadeOf, ProcsOf, OwnedRow, OwnedLog;
  }

  lemma SchedWillProjects(s: State, a: SchedOp, w: WillId)
    requires KeysOk(s) && SchedEnabled(s, a) && HasWill(s, w)
    ensures HasWill(AfterSched(s, a), w)
    ensures WillAllowed(WillCellOf(s, w), SchedWillMove(s, a, w))
    ensures WillCellOf(AfterSched(s, a), w) == WillMoved(WillCellOf(s, w), SchedWillMove(s, a, w))
  {
    if a.TryPending? {
      WinProjects(s, a.now, w);
    } else if a.DispatchWill? {
      StartProjects(s, a.tid, w);
    } else {
      SchedMade(s, a, w);
      SchedProcs(s, a, w);
      hide MadeOf, ProcsOf, AfterReset, AfterTryPending, AfterDispatchWill, OwnedRow, OwnedLog;
      if a.StartTick? {
        ResetKeepsWills(s, a.now);
      }
    }
  }

  lemma ProcMade(s: State, tid: Tid, a: ProcOp, w: WillId)
    requires ProcEnabled(s, tid, a)
    ensures MadeOf(AfterProcess(s, tid, a), w) ==
      if a.CreateExecution? && s.threads[tid].w == w
      then MadeOf(s, w)[a.e := s.threads[tid].proc.todo[0]]
      else MadeOf(s, w)
  {
  }

  lemma DispatchProcs(s: State, tid: Tid, worker: Tid, w: WillId)
    requires ProcEnabled(s, tid, DispatchExec(worker))
    ensures var procs, t := ProcsOf(s, w), s.threads[tid];
      ProcsOf(AfterProcess(s, tid, DispatchExec(worker)), w) ==
      if t.w != w then procs else procs[tid := Looping(t.proc.todo)]
  {
    var t := s.threads[tid];
    var mid := Dispatch(s, worker, Worker(t.proc.e, Spawned)).threads;
    NewWorkerProcs(s.threads, worker, Worker(t.proc.e, Spawned), w);
    AtMostItself(s.threads, tid, w);
    hide ProcsIn;
    ProcsPut(mid, tid, Processor(t.w, Looping(t.proc.todo)), w);
  }

  lemma NewWorkerProcs(threads: map<Tid, Thread>, worker: Tid, t: Thread, w: WillId)
    requires worker !in threads && !t.Processor?
    ensures ProcsIn(threads[worker := t], w) == ProcsIn(threads, w)
  {
  }

  lemma AtMostItself(threads: map<Tid, Thread>, tid: Tid, w: WillId)
    requires tid in threads && threads[tid].Processor?
    ensures threads[tid].w != w ==> ProcsIn(threads, w) - {tid} == ProcsIn(threads, w)
  {
  }

  lemma MarkProcs(s: State, tid: Tid, w: WillId)
    requires ProcEnabled(s, tid, MarkTriggered)
    ensures var procs := ProcsOf(s, w);
      ProcsOf(AfterProcess(s, tid, MarkTriggered), w) == if s.threads[tid].w != w then procs else procs - {tid}
  {
    assert AfterProcess(s, tid, MarkTriggered).threads == s.threads[tid := Exiting];
  }

  lemma ProcProcs(s: State, tid: Tid, a: ProcOp, w: WillId)
    requires ProcEnabled(s, tid, a)
    ensures var procs, t := ProcsOf(s, w), s.threads[tid];
      ProcsOf(AfterProcess(s, tid, a), w) ==
      if t.w != w then procs
      else match a
        case ListActions(found) => procs[tid := Looping(found)]
        case CreateExecution(e) => procs[tid := Queuing(t.proc.todo[1..], e)]
        case DispatchExec(_) => procs[tid := Looping(t.proc.todo)]
        case MarkTriggered => procs - {tid}
  {
    match a {
      case DispatchExec(worker) => DispatchProcs(s, tid, worker, w);
      case MarkTriggered => MarkProcs(s, tid, w);
      case _ =>
    }
  }

  lemma CreateProjects(s: State, tid: Tid, e: ExecId, w: WillId)
    requires KeysOk(s) && ProcEnabled(s, tid, CreateExecution(e)) && HasWill(s, w)
    ensures var s', m := AfterProcess(s, tid, CreateExecution(e)), ProcWillMove(s, tid, CreateExecution(e), w);
      && HasWill(s', w) && WillAllowed(WillCellOf(s, w), m)
      && WillCellOf(s', w) == WillMoved(WillCellOf(s, w), m)
  {
    ProcMade(s, tid, CreateExecution(e), w);
    ProcProcs(s, tid, CreateExecution(e), w);
    assert s.threads[tid].w == w ==> tid in ProcsOf(s, w) && ProcsOf(s, w)[tid] == s.threads[tid].proc;
    assert e !in MadeOf(s, w);
    hide MadeOf, ProcsOf, OwnedRow, OwnedLog;
  }

  lemma ProcWillProjects(s: State, tid: Tid, a: ProcOp, w: WillId)
    requires KeysOk(s) && ProcEnabled(s, tid, a) && HasWill(s, w)
    ensures HasWill(AfterProcess(s, tid, a), w)
    ensures WillAllowed(WillCellOf(s, w), ProcWillMove(s, tid, a, w))
    ensures WillCellOf(AfterProcess(s, tid, a), w) == WillMoved(WillCellOf(s, w), ProcWillMove(s, tid, a, w))
  {
    if a.CreateExecution? {
      CreateProjects(s, tid, a.e, w);
    } else {
      ProcMade(s, tid, a, w);
      ProcProcs(s, tid, a, w);
      assert s.threads[tid].w == w ==> tid in ProcsOf(s, w) && ProcsOf(s, w)[tid] == s.threads[tid].proc;
      hide MadeOf, ProcsOf, OwnedRow, OwnedLog;
    }
  }

  lemma ActWillProjects(s: State, tid: Tid, op: WorkOp, w: WillId)
    requires KeysOk(s) && ActEnabled(s, tid, op) && HasWill(s, w)
    ensures HasWill(AfterAct(s, tid, op), w) && WillCellOf(AfterAct(s, tid, op), w) == WillCellOf(s, w)
  {
    hide Work, WorkEnabled;
    var f := s.threads[tid].e;
    WorkKeepsRefs(s.threads[tid].work, s.db.execs[f], s.tally[f], s.db.wills[s.db.execs[f].will].maxRetries, op);
    assert ProcsOf(AfterAct(s, tid, op), w) == ProcsOf(s, w);
    assert MadeOf(AfterAct(s, tid, op), w) == MadeOf(s, w);
  }

  lemma CrashProjects(s: State, w: WillId)
    requires HasWill(s, w)
    ensures HasWill(AfterCrash(s), w) && WillCellOf(AfterCrash(s), w) == WillMoved(WillCellOf(s, w), Perish)
  {
    hide OwnedRow, OwnedLog;
    assert ProcsOf(AfterCrash(s), w) == map[];
    assert MadeOf(AfterCrash(s), w) == MadeOf(s, w);
    if tid :| tid in s.threads && s.threads[tid].Processor? && s.threads[tid].w == w {
      assert tid in ProcsOf(s, w);
    } else {
      assert ProcsOf(s, w) == map[];
    }
  }

  lemma OwnerProjects(s: State, x: WillId, own: OwnerOp, w: WillId)
    requires HasWill(s, w)
    ensures var s', m := AfterOwner(s, x, own), WillMoveOf(s, Owner(x, own), w);
      HasWill(s', w) && WillAllowed(WillCellOf(s, w), m) && WillCellOf(s', w) == WillMoved(WillCellOf(s, w), m)
  {
    hide OwnedRow, OwnedLog;
    assert ProcsOf(AfterOwner(s, x, own), w) == ProcsOf(s, w);
    assert MadeOf(AfterOwner(s, x, own), w) == MadeOf(s, w);
  }

  lemma ElseProjects(s: State, a: Step, w: WillId)
    requires Enabled(s, a) && HasWill(s, w)
    requires a.Advance? || a.Unlock? || a.CreateWill? || a.AddAction? || a.Exit?
    ensures HasWill(Next(s, a), w) && WillCellOf(Next(s, a), w) == WillCellOf(s, w)
  {
    assert ProcsOf(Next(s, a), w) == ProcsOf(s, w);
    assert MadeOf(Next(s, a), w) == MadeOf(s, w);
  }

  lemma WillProjects(s: State, a: Step, w: WillId)
    requires Inv(s) && Enabled(s, a) && HasWill(s, w)
    ensures HasWill(Next(s, a), w)
    ensures WillAllowed(WillCellOf(s, w), WillMoveOf(s, a, w))
    ensures WillCellOf(Next(s, a), w) == WillMoved(WillCellOf(s, w), WillMoveOf(s, a, w))
  {
    hide AfterSched, AfterProcess, AfterAct, AfterCrash, AfterOwner, AfterCreateWill, AfterAddAction, AfterExit,
         SchedWillMove, ProcWillMove, OwnedRow, OwnedLog, RefsOk, ThreadsOk, SchedOk, PoolOk, ProcsIn, MadeOf;
    match a {
      case Sched(sop) => SchedWillProjects(s, sop, w);
      case Process(tid, pop) => ProcWillProjects(s, tid, pop, w);
      case Act(tid, op) => ActWillProjects(s, tid, op, w);
      case Crash => CrashProjects(s, w);
      case Owner(x, own) => OwnerProjects(s, x, own, w);
      case _ => ElseProjects(s, a, w);
    }
  }

  ghost predicate ShowsWill(s: State, w: WillId, c: WillCell) {
    HasWill(s, w) && c == WillCellOf(s, w)
  }

  /** The history of `w` inside a run, from the state `birth` in which its row first exists. */
  ghost predicate HistoryIn(r: Run, w: WillId, birth: nat, h: WillHistory) {
    && |r.states| == |r.steps| + 1
    && |h.cells| == |h.moves| + 1
    && birth + |h.cells| <= |r.states|
    && (forall j | 0 <= j < |h.cells| :: ShowsWill(r.states[birth + j], w, h.cells[j]))
    && (forall j | 0 <= j < |h.moves| :: h.moves[j] == WillMoveOf(r.states[birth + j], r.steps[birth + j], w))
  }

  /** Only the API creates wills. */
  lemma SchedMakesNoWill(s: State, a: SchedOp)
    requires SchedEnabled(s, a)
    ensures AfterSched(s, a).db.wills.Keys == s.db.wills.Keys
  {
  }

  lemma ProcMakesNoWill(s: State, tid: Tid, a: ProcOp)
    requires ProcEnabled(s, tid, a)
    ensures AfterProcess(s, tid, a).db.wills.Keys == s.db.wills.Keys
  {
  }

  lemma NothingOfWillYet(s: State, w: WillId)
    requires Inv(s) && w !in s.db.wills
    ensures ProcsOf(s, w) == map[] && MadeOf(s, w) == map[] && !(s.sched.Won? && s.sched.will == w)
  {
  }

  lemma WillBorn(s: State, a: Step, w: WillId)
    requires Inv(s) && Enabled(s, a) && w !in s.db.wills && w in Next(s, a).db.wills
    ensures HasWill(Next(s, a), w) && NewBorn(WillCellOf(Next(s, a), w))
  {
    NothingOfWillYet(s, w);
    hide AfterSched, AfterProcess, Work, OwnedRow, OwnedLog, Inv;
    match a {
      case Sched(sop) => SchedMakesNoWill(s, sop);
      case Process(tid, pop) => ProcMakesNoWill(s, tid, pop);
      case CreateWill(_, _, _) =>
        assert ProcsOf(Next(s, a), w) == ProcsOf(s, w) && MadeOf(Next(s, a), w) == MadeOf(s, w);
      case _ =>
    }
  }

  lemma InitHasNoWill(r: Run, w: WillId)
    requires IsRun(r)
    ensures w !in r.states[0].db.wills
  {
  }

  lemma WillPresent(r: Run, i: nat, w: WillId)
    requires IsRun(r) && i < |r.states| && w in r.states[i].db.wills
    ensures HasWill(r.states[i], w)
  {
    InvAlways(r, i);
  }

  lemma WillArrives(r: Run, i: nat, w: WillId)
    requires IsRun(r) && i < |r.steps| && w in r.states[i + 1].db.wills
    ensures HasWill(r.states[i + 1], w)
    ensures var s, a := r.states[i], r.steps[i];
      if w in s.db.wills
      then HasWill(s, w) && WillAllowed(WillCellOf(s, w), WillMoveOf(s, a, w))
           && WillCellOf(r.states[i + 1], w) == WillMoved(WillCellOf(s, w), WillMoveOf(s, a, w))
      else NewBorn(WillCellOf(r.states[i + 1], w))
  {
    hide Enabled, Next, WillMoveOf, WillAllowed, WillMoved, NewBorn, WillCellOf;
    WillPresent(r, i + 1, w);
    InvAlways(r, i);
    var s, a := r.states[i], r.steps[i];
    if w in s.db.wills {
      WillPresent(r, i, w);
      WillProjects(s, a, w);
    } else {
      WillBorn(s, a, w);
    }
  }

  lemma ExtendHistory(h: WillHistory, c: WillCell, m: WillMove)
    requires IsHistory(h) && WillAllowed(h.cells[|h.cells| - 1], m) && c == WillMoved(h.cells[|h.cells| - 1], m)
    ensures IsHistory(WillHistory(h.cells + [c], h.moves + [m]))
  {
  }

  lemma ExtendHistoryIn(r: Run, w: WillId, birth: nat, h: WillHistory, c: WillCell)
    requires HistoryIn(r, w, birth, h) && birth + |h.cells| < |r.states|
    requires ShowsWill(r.states[birth + |h.cells|], w, c)
    ensures var i := birth + |h.cells| - 1;
      HistoryIn(r, w, birth, WillHistory(h.cells + [c], h.moves + [WillMoveOf(r.states[i], r.steps[i], w)]))
  {
  }

  /** Every existing will has a history that ends in its present cell. */
  lemma {:induction false} WillHasHistory(r: Run, i: nat, w: WillId) returns (birth: nat, h: WillHistory)
    requires IsRun(r) && i < |r.states| && w in r.states[i].db.wills
    ensures 0 < birth <= i && |h.cells| == i - birth + 1 && w !in r.states[birth - 1].db.wills
    ensures IsHistory(h) && HistoryIn(r, w, birth, h)
  {
    hide Enabled, Next, WillMoveOf, WillAllowed, WillMoved, Init, WillCellOf;
    InitHasNoWill(r, w);
    WillArrives(r, i - 1, w);
    var c := WillCellOf(r.states[i], w);
    if w in r.states[i - 1].db.wills {
      var b, before := WillHasHistory(r, i - 1, w);
      var m, n := WillMoveOf(r.states[i - 1], r.steps[i - 1], w), |before.cells|;
      assert ShowsWill(r.states[b + (n - 1)], w, before.cells[n - 1]);
      ExtendHistory(before, c, m);
      ExtendHistoryIn(r, w, b, before, c);
      birth, h := b, WillHistory(before.cells + [c], before.moves + [m]);
    } else {
      birth, h := i, WillHistory([c], []);
      assert IsHistory(h);
    }
  }
}
