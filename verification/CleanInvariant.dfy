/**
 ACT on a ticket that never crashed between a failing observation and its save: no step ran
 past a failure, and ACT ends with the fold over exactly the feed of an uncrashed run.
 */
module CleanInvariant {
  import opened Options
  import opened Records
  import opened Journal
  import opened Act
  import opened Machine
  import opened TicketInvariant
  import opened TicketSteps
  import opened TicketRuns

  /** The first `n` observations passed. */
  ghost predicate Passing(cfg: Config, t: Ticket, v: View, n: nat) {
    && t.plan.Some? && n <= |v.seen| <= |t.plan.value.steps|
    && AllPass(cfg.verify, t.plan.value, v.seen, n)
  }

  /** A failing last observation is on the saved record, or about to be. */
  ghost predicate FailureKept(cfg: Config, t: Ticket, v: View, atSave: bool) {
    var k := |v.seen|;
    && t.plan.Some? && k <= |t.plan.value.steps| == |t.work.steps|
    && (k > 0 && !Passed(cfg.verify, t.plan.value.steps[k - 1], v.seen[k - 1]) ==>
          t.work.steps[k - 1].status == Failed || atSave)
    && (k < |t.plan.value.steps| && t.work.steps[k].status == Running ==> Passing(cfg, t, v, k))
  }

  ghost predicate WholeFold(cfg: Config, b: Option<Work>, t: Ticket, v: View, w: Work) {
    && PlanReady(b, t) && IsWholeFeed(cfg.verify, t.plan.value, v.seen)
    && Extends(Folded(cfg, b, t, v, |v.seen|), w)
  }

  ghost predicate CleanOk(cfg: Config, b: Option<Work>, d: Durable, p: Option<Proc>) {
    var t, v := d.saved, ViewOf(d.journal);
    && (t.state == IsRunning ==>
          && (v.seen != [] ==> Passing(cfg, t, v, |v.seen| - 1))
          && FailureKept(cfg, t, v, p.Some? && p.value.pc.SaveStep?)
          && (p.Some? && p.value.pc.Acting? && p.value.pc.scan.i >= |v.seen| ==> Passing(cfg, t, v, |v.seen|))
          && (p.Some? && BeforeObservation(p.value.pc) ==> Passing(cfg, t, v, |v.seen|))
          && (p.Some? && (p.value.pc == Moving(IsAnalysing) || p.value.pc == Saving(IsAnalysing)) ==>
                WholeFold(cfg, b, t, v, p.value.mem.work) && p.value.mem.work == Folded(cfg, b, t, v, |v.seen|)))
    && (t.state in {IsAnalysing, IsNeedsReview, IsDone} ==> WholeFold(cfg, b, t, v, t.work))
  }

  // ---- the loop -------------------------------------------------------------------------------

  /** Ending ACT from the loop: at the end of the plan, or on a record that failed. */
  lemma {:induction false} LoopEnds(cfg: Config, b: Option<Work>, t: Ticket, v: View, w: Work, scan: Scan)
    requires PlanReady(b, t) && Journaled(t.plan.value, v) && InSync(cfg, b, t, v, t.work)
    requires |t.work.steps| == |t.plan.value.steps| == |w.steps| && ActingOk(cfg, b, t, v, w, scan)
    requires v.seen != [] ==> Passing(cfg, t, v, |v.seen| - 1)
    requires FailureKept(cfg, t, v, false)
    requires scan.i >= |v.seen| ==> Passing(cfg, t, v, |v.seen|)
    requires scan.i == |t.plan.value.steps| || (scan.i < |t.plan.value.steps| && w.steps[scan.i].status == Failed)
    ensures WholeFold(cfg, b, t, v, w) && w == Folded(cfg, b, t, v, |v.seen|)
  {
    hide Replay, Finish, FreshRecords;
    var k, n, i := |v.seen|, |t.plan.value.steps|, scan.i;
    FoldedRecords(cfg, b, t, v, k);
    if k > 0 { FoldedRecords(cfg, b, t, v, k - 1); }
    if i == n {
      if k > 0 && t.work == MarkRunning(Folded(cfg, b, t, v, k - 1), k - 1) {
        assert t.work.steps[k - 1].status == Running;
      }
    } else {
      assert w == t.work && i < k;
      assert !Passed(cfg.verify, t.plan.value.steps[i], v.seen[i]);
      assert i == k - 1;
    }
  }

  /** Reaching the first unobserved step from below means everything before it passed. */
  lemma {:induction false} LoopReaches(cfg: Config, b: Option<Work>, t: Ticket, v: View, w: Work, scan: Scan)
    requires PlanReady(b, t) && Journaled(t.plan.value, v) && InSync(cfg, b, t, v, t.work)
    requires |t.work.steps| == |t.plan.value.steps| == |w.steps| && ActingOk(cfg, b, t, v, w, scan)
    requires v.seen != [] ==> Passing(cfg, t, v, |v.seen| - 1)
    requires FailureKept(cfg, t, v, false)
    requires scan.i + 1 == |v.seen| && w.steps[scan.i].status != Failed
    ensures Passing(cfg, t, v, |v.seen|)
  {
    hide Replay, Finish, FreshRecords;
    var k := |v.seen|;
    FoldedRecords(cfg, b, t, v, k);
    FoldedRecords(cfg, b, t, v, k - 1);
    assert w == t.work;
    assert t.work.steps[k - 1].status != Failed;
    assert Passed(cfg.verify, t.plan.value.steps[k - 1], v.seen[k - 1]);
  }

  /** Where one turn of the loop leads. */
  lemma {:induction false} ActingShape(cfg: Config, p: Proc, scan: Scan)
    requires p.mem.plan.Some? && |p.mem.work.steps| == |p.mem.plan.value.steps| && scan.i <= |p.mem.plan.value.steps|
    requires scan.i < |p.mem.plan.value.steps| ==> OnStep(p, scan) && RecordAt(p, scan) == scan.i
    ensures var r := TickActing(cfg, p, scan);
      r.Some? &&
      if scan.i == |p.mem.plan.value.steps| || p.mem.work.steps[scan.i].status == Failed
        then r == Some(p.(pc := Moving(IsAnalysing)))
      else if p.mem.plan.value.steps[scan.i].id in scan.completed then r.value.pc == Acting(NextStep(scan))
      else p.mem.work.steps[scan.i].status != Skipped ==> r.value.pc == SaveRunning(scan)
  {
    hide Finish, MarkRunning;
  }

  lemma {:induction false} ActingClean(cfg: Config, b: Option<Work>, d: Durable, p: Proc, scan: Scan)
    requires Local(cfg, b, d, p) && p.pc == Acting(scan) && CleanOk(cfg, b, d, Some(p))
    ensures CleanOk(cfg, b, d, TickActing(cfg, p, scan))
  {
    hide Rest, Runs, TickActing, InSync, Folded, ViewOf, WholeFold, Passing, FailureKept, Locate;
    var t, v, w := d.saved, ViewOf(d.journal), p.mem.work;
    ActFacts(cfg, b, d, p);
    ActingAligned(cfg, b, t, v, w, scan);
    var plan := t.plan.value;
    if scan.i < |plan.steps| { LocateAligned(plan, w.steps, scan.i); }
    ActingShape(cfg, p, scan);
    if scan.i == |plan.steps| || w.steps[scan.i].status == Failed {
      LoopEnds(cfg, b, t, v, w, scan);
    } else if scan.i + 1 == |v.seen| {
      LoopReaches(cfg, b, t, v, w, scan);
    } else if scan.i >= |v.seen| {
      ActingPerforms(cfg, b, t, v, w, scan);
    }
  }

  // ---- the other effects ----------------------------------------------------------------------

  lemma {:induction false} SaveRunningClean(cfg: Config, b: Option<Work>, d: Durable, p: Proc, scan: Scan)
    requires Local(cfg, b, d, p) && p.pc == SaveRunning(scan) && CleanOk(cfg, b, d, Some(p))
    ensures CleanOk(cfg, b, Save(d, p), Some(p.(pc := WriteIntent(scan))))
  {
    hide Rest, Runs, InSync, ViewOf, Replay, Finish;
    ActFacts(cfg, b, d, p);
    FoldedRecords(cfg, b, d.saved, ViewOf(d.journal), scan.i);
  }

  /** A new observation behind passing ones, its record still marked running. */
  lemma {:induction false} ObservedCore(cfg: Config, b: Option<Work>, t: Ticket, v: View, v': View, scan: Scan)
    requires PlanReady(b, t) && Journaled(t.plan.value, v) && Performing(cfg, b, t, v, t.work, scan)
    requires Passing(cfg, t, v, |v.seen|) && |v'.seen| == |v.seen| + 1 && v'.seen[..|v.seen|] == v.seen
    ensures Passing(cfg, t, v', |v'.seen| - 1) && FailureKept(cfg, t, v', true)
  {
    hide Replay, Finish;
    FoldedRecords(cfg, b, t, v, scan.i);
    assert forall m :: 0 <= m < |v.seen| ==> v'.seen[m] == v'.seen[..|v.seen|][m];
  }

  lemma {:induction false} ObservationClean(cfg: Config, b: Option<Work>, d: Durable, p: Proc, scan: Scan, o: Observation)
    requires Local(cfg, b, d, p) && p.pc == WriteObservation(scan, o) && CleanOk(cfg, b, d, Some(p))
    ensures var m := TickObservation(cfg, d, p, scan, o); CleanOk(cfg, b, m.d, m.proc)
  {
    hide Rest, Runs, InSync, Replay, Finish, TickObservation, Passing, FailureKept, WholeFold;
    ActFacts(cfg, b, d, p);
    OnObserved(cfg, b, d, p, scan, o);
    ObservationView(d.saved.plan.value, d.journal, o);
    var m := TickObservation(cfg, d, p, scan, o);
    ObservedCore(cfg, b, d.saved, ViewOf(d.journal), ViewOf(m.d.journal), scan);
  }

  lemma {:induction false} OnObserved(cfg: Config, b: Option<Work>, d: Durable, p: Proc, scan: Scan, o: Observation)
    requires Local(cfg, b, d, p) && p.pc == WriteObservation(scan, o)
    ensures var m := TickObservation(cfg, d, p, scan, o);
      && m.proc.Some? && m.proc.value.pc == SaveStep(scan)
      && m.d == Write(d, ObservationEntry, Some(d.saved.plan.value.steps[scan.i].id), Seen(o))
  {
    OnPlanStep(cfg, b, d, p, scan);
    hide Rest, Runs, Finish;
  }

  /** Saving a finished step settles whether it failed. */
  lemma {:induction false} SavedCore(cfg: Config, b: Option<Work>, t: Ticket, m: Ticket, v: View, scan: Scan)
    requires PlanReady(b, t) && Journaled(t.plan.value, v) && Observed(cfg, b, t, v, m.work, scan)
    requires Passing(cfg, t, v, scan.i) && m.plan == t.plan
    ensures FailureKept(cfg, m, v, false) && Passing(cfg, m, v, scan.i)
    ensures m.work.steps[scan.i].status != Failed ==> Passing(cfg, m, v, |v.seen|)
    ensures m.work.steps[scan.i].status == Failed ==>
      WholeFold(cfg, b, m, v, m.work) && m.work == Folded(cfg, b, m, v, |v.seen|)
  {
    hide Replay, Finish;
    FoldedRecords(cfg, b, t, v, scan.i + 1);
    assert m.work.steps[scan.i] == FinishedRecord(cfg.verify, t.plan.value.steps[scan.i], v.seen[scan.i]);
  }

  lemma {:induction false} SaveStepClean(cfg: Config, b: Option<Work>, d: Durable, p: Proc, scan: Scan)
    requires Local(cfg, b, d, p) && p.pc == SaveStep(scan) && CleanOk(cfg, b, d, Some(p))
    ensures var m := TickSaveStep(d, p, scan); CleanOk(cfg, b, m.d, m.proc)
  {
    hide Rest, Runs, InSync, ViewOf, Replay, Finish, Passing, FailureKept, WholeFold;
    ActFacts(cfg, b, d, p);
    SaveStepKeeps(cfg, b, d, p, scan);
    SavedCore(cfg, b, d.saved, p.mem, ViewOf(d.journal), scan);
  }

  /** An entry without a step's intent or observation changes nothing here. */
  lemma {:induction false} IntentClean(cfg: Config, b: Option<Work>, d: Durable, p: Proc, scan: Scan)
    requires Local(cfg, b, d, p) && p.pc == WriteIntent(scan) && CleanOk(cfg, b, d, Some(p))
    ensures var m := TickIntent(d, p, scan); CleanOk(cfg, b, m.d, m.proc)
  {
    hide Rest, Runs, InSync, Replay, WholeFold, Passing, FailureKept, TickIntent;
    ActFacts(cfg, b, d, p);
    OnIntent(cfg, b, d, p, scan);
    var m, v := TickIntent(d, p, scan), ViewOf(d.journal);
    SeenDecides(cfg, d.saved, v, ViewOf(m.d.journal));
    hide ViewOf;
  }

  /** Nothing here looks at the open intent. */
  lemma {:induction false} SeenDecides(cfg: Config, t: Ticket, v: View, v': View)
    requires v'.seen == v.seen
    ensures forall n: nat :: Passing(cfg, t, v, n) ==> Passing(cfg, t, v', n)
    ensures forall atSave :: FailureKept(cfg, t, v, atSave) ==> FailureKept(cfg, t, v', atSave)
  {
  }

  lemma {:induction false} OnIntent(cfg: Config, b: Option<Work>, d: Durable, p: Proc, scan: Scan)
    requires Local(cfg, b, d, p) && p.pc == WriteIntent(scan)
    ensures var m := TickIntent(d, p, scan);
      && m.proc == Some(p.(pc := Execute(scan))) && m.d.saved == d.saved
      && Observations(m.d.journal) == Observations(d.journal) && ObservedIds(m.d.journal) == ObservedIds(d.journal)
  {
    OnPlanStep(cfg, b, d, p, scan);
    hide Rest, Runs;
    var s := Some(StepAt(p, scan).id);
    AppendUnfolds(d.journal, IntentEntry, s, if s == scan.interrupted then Redo else Empty);
  }

  /** The ticket a save of a new state writes, as far as ACT is concerned. */
  lemma {:induction false} SavingClean(cfg: Config, b: Option<Work>, b': Option<Work>, d: Durable, p: Proc, target: TicketState)
    requires Local(cfg, b, d, p) && p.pc == Saving(target) && CleanOk(cfg, b, d, Some(p))
    requires b' == if target == IsPlanned then Some(p.mem.work) else b
    ensures var m := TickSaving(d, p, target); CleanOk(cfg, b', m.d, m.proc)
  {
    hide InSync, Ended, Settled, ActingOk, Performing, Observing, Observed, Replay, Finish, Requests, Completed, HasPendingApproval;
    var t, m, v := d.saved, p.mem, ViewOf(d.journal);
    if target == IsRunning {
      assert v == QUIET && m.work == b.value;
      assert FailureKept(cfg, m, v, false) && Passing(cfg, m, v, 0);
    } else if target in {IsAnalysing, IsNeedsReview, IsDone} {
      assert m.plan == t.plan;
      assert WholeFold(cfg, b, m, v, m.work);
    }
    hide Rest, Runs, ViewOf;
  }

  lemma {:induction false} SaveSopClean(cfg: Config, b: Option<Work>, d: Durable, p: Proc)
    requires Local(cfg, b, d, p) && p.pc == SaveSop && CleanOk(cfg, b, d, Some(p))
    ensures CleanOk(cfg, b, Save(d, p), Some(p.(pc := Moving(FinalState(p.mem)))))
  {
    hide InSync, Ended, Settled, ActingOk, Performing, Observing, Observed, Replay, Finish, ViewOf, FreshRecords;
    var t, m, v := d.saved, p.mem, ViewOf(d.journal);
    assert t.state == IsAnalysing && m == t.(work := m.work) && Extends(t.work, m.work);
    assert Folded(cfg, b, m, v, |v.seen|) == Folded(cfg, b, t, v, |v.seen|);
    hide Rest, Runs, Folded;
  }

  /** Entries without step, and saves of approvals, leave it as it is. */
  lemma {:induction false} StoryClean(cfg: Config, b: Option<Work>, d: Durable, p: Proc, q: Option<Proc>, j: seq<Entry>, a: seq<Approval>)
    requires CleanOk(cfg, b, d, Some(p)) && ViewOf(j) == ViewOf(d.journal)
    requires !p.pc.SaveStep? && !p.pc.Acting? && !BeforeObservation(p.pc)
    requires q.Some? ==> !q.value.pc.SaveStep? && !q.value.pc.Acting? && !BeforeObservation(q.value.pc)
    requires q.Some? && (q.value.pc == Moving(IsAnalysing) || q.value.pc == Saving(IsAnalysing)) ==>
      p.pc == Moving(IsAnalysing) && q.value.mem.work == p.mem.work
    ensures CleanOk(cfg, b, Durable(d.saved.(approvals := a), j), q)
  {
    hide Replay, ViewOf;
    var t, m, v := d.saved, d.saved.(approvals := a), ViewOf(d.journal);
    if t.state == IsRunning {
      assert FailureKept(cfg, m, v, false);
      assert v.seen != [] ==> Passing(cfg, m, v, |v.seen| - 1);
    }
  }

  lemma {:induction false} NoteClean(cfg: Config, b: Option<Work>, d: Durable, p: Proc)
    requires Local(cfg, b, d, p) && CleanOk(cfg, b, d, Some(p)) && (IsNote(p.pc) || p.pc.Moving? || p.pc.Ingested?)
    requires p.pc == Moving(IsAnalysing) ==> d.saved.state == IsRunning
    ensures var m := TickLocal(cfg, d, p); CleanOk(cfg, b, m.d, m.proc)
  {
    hide Rest, Runs, CleanOk, GateResult, FreshRecords, Append, ViewOf, Numbered, Local;
    var m := TickLocal(cfg, d, p);
    NoteKeepsView(d.journal, StateEntry, None);
    if IsNote(p.pc) { NoteKeepsView(d.journal, NoteEntry, AfterNote(p.pc).0); }
    assert m.d == Durable(d.saved.(approvals := d.saved.approvals), m.d.journal);
    StoryClean(cfg, b, d, p, m.proc, m.d.journal, d.saved.approvals);
  }

  lemma {:induction false} CleanKept(cfg: Config, b: Option<Work>, b': Option<Work>, d: Durable, p: Proc)
    requires Local(cfg, b, d, p) && IsLocal(p.pc) && CleanOk(cfg, b, d, Some(p))
    requires b' == if p.pc == Saving(IsPlanned) then Some(p.mem.work) else b
    ensures var m := TickLocal(cfg, d, p); CleanOk(cfg, b', m.d, m.proc)
  {
    hide CleanOk, Rest, Runs, TickActing, TickIngested, TickSaving, TickIntent, TickObservation, TickMoving, TickSaveStep, Note;
    if IsNote(p.pc) || p.pc.Moving? || p.pc.Ingested? {
      MovingRuns(cfg, b, d, p);
      NoteClean(cfg, b, d, p);
    } else {
      match p.pc {
        case Saving(target) => SavingClean(cfg, b, b', d, p, target);
        case SaveRequest => SaveApprovalsClean(cfg, b, d, p);
        case SaveApproval => SaveApprovalsClean(cfg, b, d, p);
        case Acting(scan) => ActingClean(cfg, b, d, p, scan);
        case SaveRunning(scan) => SaveRunningClean(cfg, b, d, p, scan);
        case WriteIntent(scan) => IntentClean(cfg, b, d, p, scan);
        case WriteObservation(scan, o) => ObservationClean(cfg, b, d, p, scan, o);
        case SaveStep(scan) => SaveStepClean(cfg, b, d, p, scan);
        case SaveSop => SaveSopClean(cfg, b, d, p);
      }
    }
  }

  lemma {:induction false} MovingRuns(cfg: Config, b: Option<Work>, d: Durable, p: Proc)
    requires Local(cfg, b, d, p)
    ensures p.pc == Moving(IsAnalysing) ==> d.saved.state == IsRunning
    ensures p.pc == SaveRequest || p.pc == SaveApproval ==> p.mem == d.saved.(approvals := p.mem.approvals)
  {
    hide Rest, Folded, InSync, Ended, Settled, ActingOk, Performing, Observing, Observed, FreshPlan, Requests;
  }

  lemma {:induction false} SaveApprovalsClean(cfg: Config, b: Option<Work>, d: Durable, p: Proc)
    requires Local(cfg, b, d, p) && CleanOk(cfg, b, d, Some(p)) && (p.pc == SaveRequest || p.pc == SaveApproval)
    ensures CleanOk(cfg, b, Save(d, p), None)
  {
    hide Rest, Runs, CleanOk, ViewOf;
    MovingRuns(cfg, b, d, p);
    StoryClean(cfg, b, d, p, None, d.journal, p.mem.approvals);
  }
}
