/** One program point at a time: what each effect of the kernel does to the ticket invariant. */
module TicketSteps {
  import opened Options
  import opened Records
  import opened Journal
  import opened Act
  import opened Machine
  import opened TicketInvariant

  // ---- small facts ------------------------------------------------------------------------

  /** An entry that is neither intent nor observation leaves every journal query alone. */
  lemma {:induction false} NoteKeepsView(j: seq<Entry>, kind: Kind, s: Option<StepId>)
    requires kind == NoteEntry || kind == StateEntry
    ensures ViewOf(Append(j, kind, s, Empty)) == ViewOf(j)
    ensures Numbered(j) ==> Numbered(Append(j, kind, s, Empty))
  {
    AppendUnfolds(j, kind, s, Empty);
  }

  lemma {:induction false} LocateAligned(plan: Plan, records: seq<StepRecord>, i: nat)
    requires plan.Valid() && |records| == |plan.steps| && i < |plan.steps|
    requires forall m :: 0 <= m < |records| ==> records[m].stepId == plan.steps[m].id
    ensures Locate(records, plan.steps[i].id) == i
  {
    assert records[i].stepId == plan.steps[i].id;
  }

  /** Every saved form has one record per plan step, in plan order. */
  lemma {:induction false} InSyncAligned(cfg: Config, b: Option<Work>, t: Ticket, v: View, w: Work)
    requires PlanReady(b, t) && Journaled(t.plan.value, v) && InSync(cfg, b, t, v, w)
    ensures |w.steps| == |t.plan.value.steps|
    ensures forall m :: 0 <= m < |w.steps| ==> w.steps[m].stepId == t.plan.value.steps[m].id
  {
    hide Replay, Finish, FreshRecords;
    var k := |v.seen|;
    ReplayRecords(cfg.verify, t.plan.value, b.value, v.seen[..k]);
    if k > 0 {
      ReplayRecords(cfg.verify, t.plan.value, b.value, v.seen[..k - 1]);
    }
  }

  /** Folding one more observation in. */
  lemma {:induction false} FoldNext(cfg: Config, b: Option<Work>, t: Ticket, v: View, q: nat)
    requires PlanReady(b, t) && q < |v.seen| <= |t.plan.value.steps|
    ensures Folded(cfg, b, t, v, q + 1)
         == Finish(cfg.verify, t.plan.value.steps[q], Folded(cfg, b, t, v, q), q, v.seen[q])
  {
    assert v.seen[..q + 1][..q] == v.seen[..q];
  }

  /** The records the fold leaves behind. */
  lemma {:induction false} FoldedRecords(cfg: Config, b: Option<Work>, t: Ticket, v: View, q: nat)
    requires PlanReady(b, t) && q <= |v.seen| <= |t.plan.value.steps|
    ensures forall m :: 0 <= m < q ==>
      Folded(cfg, b, t, v, q).steps[m] == FinishedRecord(cfg.verify, t.plan.value.steps[m], v.seen[m])
    ensures forall m :: q <= m < |t.plan.value.steps| ==>
      Folded(cfg, b, t, v, q).steps[m] == StepRecord(t.plan.value.steps[m].id, Pending, None, None)
  {
    ReplayRecords(cfg.verify, t.plan.value, b.value, v.seen[..q]);
  }

  lemma {:induction false} ScanFromOk(plan: Plan, j: seq<Entry>)
    requires plan.Valid() && Journaled(plan, ViewOf(j))
    ensures ScanOk(ScanFrom(j), plan, ViewOf(j))
  {
    var ids := ObservedIds(j);
    assert Distinct(ids);
    CompletedIsObserved(j);
    forall m | 0 <= m < |plan.steps|
      ensures plan.steps[m].id in Completed(j) <==> m < |ids|
      ensures m < |ids| ==> Completed(j)[plan.steps[m].id] == Observations(j)[m]
    {
      if m < |ids| {
        assert ids[m] == plan.steps[m].id;
      }
    }
  }

  predicate BeforeObservation(pc: Pc) {
    pc.SaveRunning? || pc.WriteIntent? || pc.Execute? || pc.WriteObservation?
  }

  /** What the invariant says at a point of ACT. */
  lemma {:induction false} ActFacts(cfg: Config, b: Option<Work>, d: Durable, p: Proc)
    requires Rest(cfg, b, d) && Runs(cfg, b, d, p) && (p.pc.Acting? || p.pc.SaveStep? || BeforeObservation(p.pc))
    ensures d.saved.state == IsRunning && PlanReady(b, d.saved) && p.mem == d.saved.(work := p.mem.work)
    ensures Journaled(d.saved.plan.value, ViewOf(d.journal)) && InSync(cfg, b, d.saved, ViewOf(d.journal), d.saved.work)
    ensures |d.saved.work.steps| == |d.saved.plan.value.steps|
    ensures p.pc.Acting? ==> ActingOk(cfg, b, d.saved, ViewOf(d.journal), p.mem.work, p.pc.scan)
    ensures p.pc.SaveStep? ==> Observed(cfg, b, d.saved, ViewOf(d.journal), p.mem.work, p.pc.scan)
    ensures BeforeObservation(p.pc) ==> Performing(cfg, b, d.saved, ViewOf(d.journal), p.mem.work, p.pc.scan)
    ensures BeforeObservation(p.pc) && !p.pc.SaveRunning? ==> p.mem == d.saved
    ensures p.pc.WriteObservation? ==> OpenIntent(d.journal) == Some(d.saved.plan.value.steps[p.pc.scan.i].id)
  {
    hide Folded, InSync, Ended, Settled, ActingOk, Performing, Observed, Journaled, FreshPlan, FreshRecords, Numbered;
    assert InSync(cfg, b, d.saved, ViewOf(d.journal), d.saved.work);
    InSyncAligned(cfg, b, d.saved, ViewOf(d.journal), d.saved.work);
  }

  // ---- the loop over the plan -----------------------------------------------------------------

  lemma {:induction false} ActingRuns(cfg: Config, b: Option<Work>, d: Durable, p: Proc, scan: Scan)
    requires Rest(cfg, b, d) && Runs(cfg, b, d, p) && p.pc == Acting(scan)
    ensures var r := TickActing(cfg, p, scan);
      r.Some? && r.value.id == p.id && Runs(cfg, b, d, r.value)
      && (r.value.pc.Moving? || r.value.pc.Acting? || r.value.pc.SaveRunning?)
  {
    hide Rest, Runs, InSync, Folded, Ended, ActingOk, Performing, Locate, Finish, MarkRunning;
    ActFacts(cfg, b, d, p);
    var t, v, w, r := d.saved, ViewOf(d.journal), p.mem.work, TickActing(cfg, p, scan);
    ActingAligned(cfg, b, t, v, w, scan);
    ScanFacts(cfg, b, t, v, w, scan);
    if scan.i < |t.plan.value.steps| {
      LocateAligned(t.plan.value, w.steps, scan.i);
      var status := w.steps[scan.i].status;
      if status == Failed {
        FailureEnds(cfg, b, t, v, w, scan.i);
      } else if t.plan.value.steps[scan.i].id in scan.completed {
        if status != Done {
          ActingRestores(cfg, b, t, v, w, scan);
        } else {
          ActingSkips(cfg, b, t, v, w, scan);
        }
      } else {
        ActingPerforms(cfg, b, t, v, w, scan);
      }
    }
    LoopGoesOn(cfg, b, d, r.value);
  }

  lemma {:induction false} ScanFacts(cfg: Config, b: Option<Work>, t: Ticket, v: View, w: Work, scan: Scan)
    requires PlanReady(b, t) && Journaled(t.plan.value, v) && |t.work.steps| == |t.plan.value.steps| && ActingOk(cfg, b, t, v, w, scan)
    ensures scan.i <= |t.plan.value.steps|
    ensures scan.i < |t.plan.value.steps| && t.plan.value.steps[scan.i].id in scan.completed ==>
      scan.i < |v.seen| && scan.completed[t.plan.value.steps[scan.i].id] == v.seen[scan.i]
  {
    hide Folded, MarkRunning;
  }

  lemma {:induction false} FailureEnds(cfg: Config, b: Option<Work>, t: Ticket, v: View, w: Work, i: nat)
    requires PlanReady(b, t) && Journaled(t.plan.value, v) && InSync(cfg, b, t, v, w) && i < |w.steps| && w.steps[i].status == Failed
    ensures Ended(cfg, b, t, v, w)
  {
    hide InSync, Folded;
  }

  /** The three places a turn of the loop leads to. */
  lemma {:induction false} LoopGoesOn(cfg: Config, b: Option<Work>, d: Durable, q: Proc)
    requires Rest(cfg, b, d) && d.saved.state == IsRunning && q.mem == d.saved.(work := q.mem.work)
    requires PlanReady(b, d.saved) && Journaled(d.saved.plan.value, ViewOf(d.journal)) && |d.saved.work.steps| == |d.saved.plan.value.steps|
    requires || (q.pc == Moving(IsAnalysing) && Ended(cfg, b, d.saved, ViewOf(d.journal), q.mem.work))
             || (q.pc.Acting? && ActingOk(cfg, b, d.saved, ViewOf(d.journal), q.mem.work, q.pc.scan))
             || (q.pc.SaveRunning? && Performing(cfg, b, d.saved, ViewOf(d.journal), q.mem.work, q.pc.scan))
    ensures Runs(cfg, b, d, q)
  {
    hide InSync, Folded, Ended, ActingOk, Performing, ViewOf, Numbered;
  }

  /** The work in memory has aligned records and one of the saved forms, ready to end ACT from. */
  lemma {:induction false} ActingAligned(cfg: Config, b: Option<Work>, t: Ticket, v: View, w: Work, scan: Scan)
    requires PlanReady(b, t) && Journaled(t.plan.value, v) && InSync(cfg, b, t, v, t.work)
    requires |t.work.steps| == |t.plan.value.steps| && ActingOk(cfg, b, t, v, w, scan)
    ensures |w.steps| == |t.plan.value.steps| && InSync(cfg, b, t, v, w)
    ensures forall m :: 0 <= m < |w.steps| ==> w.steps[m].stepId == t.plan.value.steps[m].id
    ensures scan.i == |t.plan.value.steps| ==> Ended(cfg, b, t, v, w)
  {
    InSyncAligned(cfg, b, t, v, w);
    var k := |v.seen|;
    if scan.i == |t.plan.value.steps| && k > 0 && t.work == MarkRunning(Folded(cfg, b, t, v, k - 1), k - 1) {
      assert t.work.steps[k - 1].status == Running;
    }
  }

  lemma {:induction false} ActingSkips(cfg: Config, b: Option<Work>, t: Ticket, v: View, w: Work, scan: Scan)
    requires PlanReady(b, t) && Journaled(t.plan.value, v) && InSync(cfg, b, t, v, t.work)
    requires |t.work.steps| == |t.plan.value.steps| == |w.steps| && ActingOk(cfg, b, t, v, w, scan)
    requires scan.i < |v.seen| && w.steps[scan.i].status == Done
    ensures ActingOk(cfg, b, t, v, w, NextStep(scan))
  {
  }

  lemma {:induction false} ActingRestores(cfg: Config, b: Option<Work>, t: Ticket, v: View, w: Work, scan: Scan)
    requires PlanReady(b, t) && Journaled(t.plan.value, v) && InSync(cfg, b, t, v, t.work)
    requires |t.work.steps| == |t.plan.value.steps| == |w.steps| && ActingOk(cfg, b, t, v, w, scan)
    requires scan.i < |v.seen| && w.steps[scan.i].status != Done && w.steps[scan.i].status != Failed
    ensures w == t.work && scan.i == |v.seen| - 1
    ensures ActingOk(cfg, b, t, v, Finish(cfg.verify, t.plan.value.steps[scan.i], w, scan.i, v.seen[scan.i]), NextStep(scan))
  {
    hide Folded, Finish, FreshRecords;
    var k := |v.seen|;
    FoldedRecords(cfg, b, t, v, k);
    FoldedRecords(cfg, b, t, v, k - 1);
    FoldNext(cfg, b, t, v, k - 1);
    assert t.work == MarkRunning(Folded(cfg, b, t, v, k - 1), k - 1) && scan.i == k - 1;
    FinishAfterMark(cfg.verify, t.plan.value.steps[k - 1], Folded(cfg, b, t, v, k - 1), k - 1, v.seen[k - 1]);
  }

  lemma {:induction false} ActingPerforms(cfg: Config, b: Option<Work>, t: Ticket, v: View, w: Work, scan: Scan)
    requires PlanReady(b, t) && Journaled(t.plan.value, v) && InSync(cfg, b, t, v, t.work)
    requires |t.work.steps| == |t.plan.value.steps| == |w.steps| && ActingOk(cfg, b, t, v, w, scan)
    requires scan.i < |t.plan.value.steps| && t.plan.value.steps[scan.i].id !in scan.completed
    ensures Performing(cfg, b, t, v, MarkRunning(w, scan.i), scan)
    ensures w.steps[scan.i].status != Skipped
  {
    var k := |v.seen|;
    assert scan.i == k;
    FoldedRecords(cfg, b, t, v, k);
    MarkTwice(Folded(cfg, b, t, v, k), k);
    if k > 0 && t.work == MarkRunning(Folded(cfg, b, t, v, k - 1), k - 1) {
      assert t.work.steps[k - 1].status == Running;
    }
    assert w == Folded(cfg, b, t, v, k) || w == MarkRunning(Folded(cfg, b, t, v, k), k);
  }

  // ---- journal entries that only tell the story -----------------------------------------------

  lemma {:induction false} SameViewKeeps(cfg: Config, b: Option<Work>, d: Durable, j: seq<Entry>)
    requires Rest(cfg, b, d) && ViewOf(d.journal) == ViewOf(j) && Numbered(j)
    ensures Rest(cfg, b, d.(journal := j))
    ensures forall p: Proc :: Runs(cfg, b, d, p) <==> Runs(cfg, b, d.(journal := j), p)
  {
    hide ViewOf, Numbered, Folded, InSync, Ended, Settled, ActingOk, Performing, Observing, Observed, FreshRecords, HasPendingApproval;
  }

  // ---- ACT, the durable effects ---------------------------------------------------------------

  /** Saving a ticket that differs only in its work keeps the fold it is compared with. */
  lemma {:induction false} SaveRunningKeeps(cfg: Config, b: Option<Work>, d: Durable, p: Proc, scan: Scan)
    requires Rest(cfg, b, d) && Runs(cfg, b, d, p) && p.pc == SaveRunning(scan)
    ensures var d' := d.(saved := p.mem);
      Rest(cfg, b, d') && Runs(cfg, b, d', p.(pc := WriteIntent(scan)))
  {
    assert Folded(cfg, b, p.mem, ViewOf(d.journal), scan.i) == Folded(cfg, b, d.saved, ViewOf(d.journal), scan.i);
  }

  lemma {:induction false} OnPlanStep(cfg: Config, b: Option<Work>, d: Durable, p: Proc, scan: Scan)
    requires Rest(cfg, b, d) && d.saved.state == IsRunning
    requires p.mem.plan == d.saved.plan && scan.i < |d.saved.plan.value.steps|
    requires InSync(cfg, b, d.saved, ViewOf(d.journal), p.mem.work)
    ensures OnStep(p, scan) && StepAt(p, scan) == d.saved.plan.value.steps[scan.i] && RecordAt(p, scan) == scan.i
  {
    InSyncAligned(cfg, b, d.saved, ViewOf(d.journal), p.mem.work);
    LocateAligned(d.saved.plan.value, p.mem.work.steps, scan.i);
  }

  lemma {:induction false} IntentKeeps(cfg: Config, b: Option<Work>, d: Durable, p: Proc, scan: Scan, payload: Payload)
    requires Rest(cfg, b, d) && Runs(cfg, b, d, p) && p.pc == WriteIntent(scan) && !payload.Seen?
    ensures var d' := d.(journal := Append(d.journal, IntentEntry, Some(d.saved.plan.value.steps[scan.i].id), payload));
      Rest(cfg, b, d') && Runs(cfg, b, d', p.(pc := Execute(scan)))
  {
    var t, v, s := d.saved, ViewOf(d.journal), Some(d.saved.plan.value.steps[scan.i].id);
    AppendUnfolds(d.journal, IntentEntry, s, payload);
    var v' := ViewOf(Append(d.journal, IntentEntry, s, payload));
    assert v' == v.(open := s);
    assert Journaled(t.plan.value, v');
    assert Folded(cfg, b, t, v', scan.i) == Folded(cfg, b, t, v, scan.i);
    assert InSync(cfg, b, t, v', t.work);
  }

  /** The view after an observation entry of the next plan step. */
  lemma {:induction false} ObservationView(plan: Plan, j: seq<Entry>, o: Observation)
    requires plan.Valid() && Journaled(plan, ViewOf(j)) && |ViewOf(j).seen| < |plan.steps|
    requires OpenIntent(j) == Some(plan.steps[|ViewOf(j).seen|].id)
    ensures var v, i := ViewOf(j), |ViewOf(j).seen|;
      var v' := ViewOf(Append(j, ObservationEntry, Some(plan.steps[i].id), Seen(o)));
      v' == View(v.ids + [plan.steps[i].id], v.seen + [o], None) && Journaled(plan, v')
  {
    AppendUnfolds(j, ObservationEntry, Some(plan.steps[|ViewOf(j).seen|].id), Seen(o));
  }

  /** The observation behind the view: the saved record is one behind, the memory has it folded in. */
  lemma {:induction false} ObservationFolds(cfg: Config, b: Option<Work>, t: Ticket, v: View, v': View, w: Work, scan: Scan, o: Observation)
    requires PlanReady(b, t) && Journaled(t.plan.value, v) && Observing(cfg, b, t, v, w, scan)
    requires v' == View(v.ids + [t.plan.value.steps[scan.i].id], v.seen + [o], None) && Journaled(t.plan.value, v')
    ensures |w.steps| > scan.i
    ensures InSync(cfg, b, t, v', t.work)
    ensures Observed(cfg, b, t, v', Finish(cfg.verify, t.plan.value.steps[scan.i], w, scan.i, o), scan)
  {
    hide Replay, Finish, FreshRecords;
    var i := scan.i;
    assert v'.seen[..i] == v.seen[..i];
    assert Folded(cfg, b, t, v', i) == Folded(cfg, b, t, v, i);
    FoldNext(cfg, b, t, v', i);
    FinishAfterMark(cfg.verify, t.plan.value.steps[i], Folded(cfg, b, t, v, i), i, o);
  }

  lemma {:induction false} ObservationKeeps(cfg: Config, b: Option<Work>, d: Durable, p: Proc, scan: Scan, o: Observation)
    requires Rest(cfg, b, d) && Runs(cfg, b, d, p) && p.pc == WriteObservation(scan, o)
    ensures var step := d.saved.plan.value.steps[scan.i];
      var d' := d.(journal := Append(d.journal, ObservationEntry, Some(step.id), Seen(o)));
      && |p.mem.work.steps| > scan.i
      && Rest(cfg, b, d')
      && Runs(cfg, b, d', Proc(p.id, p.mem.(work := Finish(cfg.verify, step, p.mem.work, scan.i, o)), SaveStep(scan)))
  {
    hide Rest, Runs, InSync, Observed, Numbered, ViewOf, Folded, Finish, Append;
    RunsObserving(cfg, b, d, p, scan, o);
    var t, v, i := d.saved, ViewOf(d.journal), scan.i;
    var step := t.plan.value.steps[i];
    var j' := Append(d.journal, ObservationEntry, Some(step.id), Seen(o));
    ObservationView(t.plan.value, d.journal, o);
    ObservationFolds(cfg, b, t, v, ViewOf(j'), p.mem.work, scan, o);
    ObservedRuns(cfg, b, Durable(t, j'), Proc(p.id, t.(work := Finish(cfg.verify, step, p.mem.work, i, o)), SaveStep(scan)), scan);
  }

  lemma {:induction false} RunsObserving(cfg: Config, b: Option<Work>, d: Durable, p: Proc, scan: Scan, o: Observation)
    requires Rest(cfg, b, d) && Runs(cfg, b, d, p) && p.pc == WriteObservation(scan, o)
    ensures d.saved.state == IsRunning && p.mem == d.saved && PlanReady(b, d.saved)
    ensures Journaled(d.saved.plan.value, ViewOf(d.journal)) && Observing(cfg, b, d.saved, ViewOf(d.journal), p.mem.work, scan)
    ensures OpenIntent(d.journal) == Some(d.saved.plan.value.steps[scan.i].id)
    ensures forall kind, s, y :: Numbered(Append(d.journal, kind, s, y))
  {
    hide InSync, Folded, Settled, Ended;
  }

  lemma {:induction false} ObservedRuns(cfg: Config, b: Option<Work>, d: Durable, p: Proc, scan: Scan)
    requires d.saved.state == IsRunning && Numbered(d.journal) && PlanReady(b, d.saved) && Journaled(d.saved.plan.value, ViewOf(d.journal))
    requires InSync(cfg, b, d.saved, ViewOf(d.journal), d.saved.work)
    requires p.mem == d.saved.(work := p.mem.work) && p.pc == SaveStep(scan)
    requires Observed(cfg, b, d.saved, ViewOf(d.journal), p.mem.work, scan)
    ensures Rest(cfg, b, d) && Runs(cfg, b, d, p)
  {
    hide InSync, Observed, Folded, ViewOf, Numbered;
  }

  lemma {:induction false} SaveStepKeeps(cfg: Config, b: Option<Work>, d: Durable, p: Proc, scan: Scan)
    requires Rest(cfg, b, d) && Runs(cfg, b, d, p) && p.pc == SaveStep(scan)
    ensures OnStep(p, scan) && RecordAt(p, scan) == scan.i
    ensures var d' := d.(saved := p.mem);
      Rest(cfg, b, d')
      && Runs(cfg, b, d', p.(pc := if p.mem.work.steps[scan.i].status == Failed then Moving(IsAnalysing) else Acting(NextStep(scan))))
  {
    OnPlanStep(cfg, b, d, p, scan);
    var t, v, i := d.saved, ViewOf(d.journal), scan.i;
    assert Folded(cfg, b, p.mem, v, i + 1) == Folded(cfg, b, t, v, i + 1);
    assert InSync(cfg, b, p.mem, v, p.mem.work);
    if p.mem.work.steps[i].status == Failed {
      assert HasFailedStep(p.mem.work);
    }
  }
}
