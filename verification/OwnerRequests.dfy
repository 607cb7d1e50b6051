/** What the owner's requests do to a will in every run: a paused will, and one archived before it was triggered, is
    out of the scheduler's reach. */
module OwnerRequests {
  import opened Basics
  import opened Tables
  import opened WillLife
  import opened Protocol
  import opened Invariants
  import opened Projection
  import opened WillTheorems

  /** Each request changes the row in these columns, if its status allows the request, and in no other; no other will
      changes. */
  lemma RequestInColumns(r: Run, i: nat, w: WillId, own: OwnerOp)
    requires IsRun(r) && i < |r.steps| && r.steps[i] == Owner(w, own) && w in r.states[i].db.wills
    ensures var wills, wills' := r.states[i].db.wills, r.states[i + 1].db.wills;
      var row := wills[w];
      w in wills' && wills' == wills[w := wills'[w]] &&
      match own
      case Activate(now) =>
        wills'[w] == if row.status == Draft then row.(status := Active, deadline := Some(now)) else row
      case CheckIn(now) =>
        wills'[w] ==
        if row.status == Active then row.(lastCheckIn := Some(now), deadline := Some(now + row.interval)) else row
      case Pause => wills'[w] == if row.status == Active then row.(status := Paused) else row
      case Resume => wills'[w] == if row.status == Paused then row.(status := Active) else row
      case Archive => wills'[w] == row.(status := Archived)
  {
    DeadlinesHold(r, i, w);
    assert r.states[i + 1] == Next(r.states[i], r.steps[i]);
  }

  /** Paused or archived, never won, and in nobody's hands. */
  ghost predicate HeldBack(c: WillCell) {
    && (c.row.status == Paused || c.row.status == Archived)
    && c.log.wins == 0 && !c.waiting && c.procs == map[] && c.made == map[]
  }

  lemma HeldBackStep(c: WillCell, m: WillMove)
    requires HeldBack(c) && WillAllowed(c, m) && m != Own(Resume)
    ensures var c' := WillMoved(c, m);
      && HeldBack(c') && c'.row == c.row.(status := c'.row.status)
      && (c.row.status == Archived ==> c'.row.status == Archived)
  {
  }

  /** An archived will cannot be resumed. */
  lemma ArchivedStep(c: WillCell, m: WillMove)
    requires HeldBack(c) && WillAllowed(c, m) && c.row.status == Archived
    ensures HeldBack(WillMoved(c, m)) && WillMoved(c, m).row == c.row
  {
  }

  /** Between the two states nobody resumes the will. */
  ghost predicate NotResumed(r: Run, i: nat, j: nat, w: WillId) {
    j <= |r.steps| && forall k | i <= k < j :: r.steps[k] != Owner(w, Resume)
  }

  lemma OneStep(r: Run, k: nat, w: WillId)
    requires IsRun(r) && k < |r.steps| && HasWill(r.states[k], w) && HeldBack(WillCellOf(r.states[k], w))
    requires r.steps[k] != Owner(w, Resume) || r.states[k].db.wills[w].status == Archived
    ensures HasWill(r.states[k + 1], w) && HeldBack(WillCellOf(r.states[k + 1], w))
    ensures var row, row' := r.states[k].db.wills[w], r.states[k + 1].db.wills[w];
      row' == row.(status := row'.status) && (row.status == Archived ==> row'.status == Archived)
  {
    var s, a := r.states[k], r.steps[k];
    InvAlways(r, k);
    WillProjects(s, a, w);
    hide Enabled, Next, Inv, WillMoved, WillAllowed, HeldBack, ProcsOf, MadeOf;
    if s.db.wills[w].status == Archived {
      ArchivedStep(WillCellOf(s, w), WillMoveOf(s, a, w));
    } else {
      NotResume(s, a, w);
      HeldBackStep(WillCellOf(s, w), WillMoveOf(s, a, w));
    }
  }

  lemma NotResume(s: State, a: Step, w: WillId)
    requires a != Owner(w, Resume)
    ensures WillMoveOf(s, a, w) != Own(Resume)
  {
  }

  lemma {:induction false} HeldBackOn(r: Run, i: nat, j: nat, w: WillId)
    requires IsRun(r) && i <= j < |r.states| && HasWill(r.states[i], w) && HeldBack(WillCellOf(r.states[i], w))
    requires NotResumed(r, i, j, w) || r.states[i].db.wills[w].status == Archived
    ensures HasWill(r.states[j], w) && HeldBack(WillCellOf(r.states[j], w))
    ensures var row, row' := r.states[i].db.wills[w], r.states[j].db.wills[w];
      row' == row.(status := row'.status) && (row.status == Archived ==> row'.status == Archived)
    decreases j
  {
    if i < j {
      assert j - 1 < |r.steps|;
      hide IsRun, HeldBack, HasWill, WillCellOf;
      HeldBackOn(r, i, j - 1, w);
      OneStep(r, j - 1, w);
    }
  }

  lemma RunningIff(c: WillCell)
    ensures Running(c) <==> c.procs != map[]
  {
    if c.procs != map[] {
      var tid :| tid in c.procs;
    }
  }

  lemma PausedHeldBack(r: Run, i: nat, w: WillId)
    requires IsRun(r) && i < |r.states| && w in r.states[i].db.wills && r.states[i].db.wills[w].status == Paused
    ensures HasWill(r.states[i], w) && HeldBack(WillCellOf(r.states[i], w))
  {
    OnceHolds(r, i, w);
    var c := WillCellOf(r.states[i], w);
    hide IsRun, ProcsOf, MadeOf;
    RunningIff(c);
  }

  lemma NoRows(s: State, w: WillId)
    requires HasWill(s, w) && HeldBack(WillCellOf(s, w))
    ensures forall e | e in s.db.execs :: s.db.execs[e].will != w
  {
    forall e | e in s.db.execs
      ensures s.db.execs[e].will != w
    {
      assert e !in MadeOf(s, w);
    }
  }

  /** As long as nobody resumes it, a paused will keeps its deadline, its check-in and its settings, is PAUSED or
      ARCHIVED, so it does not enter PENDING_TRIGGER, and gets no execution row. */
  lemma PausedStaysPaused(r: Run, i: nat, j: nat, w: WillId)
    requires IsRun(r) && i <= j < |r.states| && w in r.states[i].db.wills
    requires r.states[i].db.wills[w].status == Paused && NotResumed(r, i, j, w)
    ensures w in r.states[j].db.wills
    ensures var row, row' := r.states[i].db.wills[w], r.states[j].db.wills[w];
      row' == row || row' == row.(status := Archived)
    ensures forall e | e in r.states[j].db.execs :: r.states[j].db.execs[e].will != w
  {
    PausedHeldBack(r, i, w);
    hide IsRun;
    HeldBackOn(r, i, j, w);
    NoRows(r.states[j], w);
  }

  /** A will archived before it was triggered stays as it is, whatever anybody asks for, and gets no execution row. */
  lemma ArchivedInTimeStays(r: Run, i: nat, j: nat, w: WillId)
    requires IsRun(r) && i < j < |r.states| && r.steps[i] == Owner(w, Archive) && w in r.states[i].db.wills
    requires r.states[i].db.wills[w].status in {Draft, Active, Paused}
    ensures w in r.states[j].db.wills
    ensures r.states[j].db.wills[w] == r.states[i].db.wills[w].(status := Archived)
    ensures forall e | e in r.states[j].db.execs :: r.states[j].db.execs[e].will != w
  {
    RequestInColumns(r, i, w, Archive);
    ArchivedHeldBack(r, i, w);
    hide IsRun;
    HeldBackOn(r, i + 1, j, w);
    NoRows(r.states[j], w);
  }

  lemma ArchivedHeldBack(r: Run, i: nat, w: WillId)
    requires IsRun(r) && i < |r.steps| && r.steps[i] == Owner(w, Archive) && w in r.states[i].db.wills
    requires r.states[i].db.wills[w].status in {Draft, Active, Paused}
    ensures HasWill(r.states[i + 1], w) && HeldBack(WillCellOf(r.states[i + 1], w))
    ensures r.states[i + 1].db.wills[w].status == Archived
  {
    var s := r.states[i];
    OnceHolds(r, i, w);
    InvAlways(r, i);
    WillProjects(s, r.steps[i], w);
    var c := WillCellOf(s, w);
    hide IsRun, Inv, ProcsOf, MadeOf;
    RunningIff(c);
  }

  /** Pausing and resuming gives the row back as it was. The deadline goes on running meanwhile: a will whose deadline
      has passed is due at the moment it is resumed. */
  lemma PauseThenResume(r: Run, i: nat, j: nat, w: WillId, now: int)
    requires IsRun(r) && i < j < |r.steps| && r.steps[i] == Owner(w, Pause) && r.steps[j] == Owner(w, Resume)
    requires w in r.states[i].db.wills && r.states[i].db.wills[w].status == Active && NotResumed(r, i + 1, j, w)
    ensures w in r.states[j].db.wills && w in r.states[j + 1].db.wills
    ensures r.states[j].db.wills[w].status == Paused ==>
      && r.states[j + 1].db.wills[w] == r.states[i].db.wills[w]
      && (Overdue(r.states[j + 1].db.wills[w], now) <==> Overdue(r.states[i].db.wills[w], now))
    ensures r.states[j].db.wills[w].status != Paused ==> r.states[j + 1].db.wills[w].status == Archived
  {
    RequestInColumns(r, i, w, Pause);
    PausedStaysPaused(r, i + 1, j, w);
    RequestInColumns(r, j, w, Resume);
  }
}
