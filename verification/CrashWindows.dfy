/**
 The crash windows of the kernel: exactly when a resumed ticket runs past a failed step, and
 concrete runs in which each window breaks the promise that is conditional on it.
 */
module CrashWindows {
  import opened Options
  import opened Records
  import opened Journal
  import opened Attachments
  import opened Act
  import opened Machine
  import opened TicketInvariant
  import opened TicketSteps
  import opened TicketRuns
  import opened ApprovalInvariant
  import opened CleanInvariant
  import opened GuardRuns
  import opened BugRuns
  import opened KernelTheorems

  // ---- when resume goes past a failure --------------------------------------------------------

  /** The loop over the plan up to the next durable effect. */
  function ScanLoop(cfg: Config, p: Proc): (r: Option<Proc>)
    decreases if p.pc.Acting? && p.mem.plan.Some? && p.pc.scan.i <= |p.mem.plan.value.steps|
      then |p.mem.plan.value.steps| - p.pc.scan.i + 1 else 0
  {
    if !p.pc.Acting? || p.mem.plan.None? || p.pc.scan.i >= |p.mem.plan.value.steps| then
      if p.pc.Acting? then TickActing(cfg, p, p.pc.scan) else Some(p)
    else
      var r := TickActing(cfg, p, p.pc.scan);
      if r.Some? && r.value.pc.Acting? then ScanLoop(cfg, r.value) else r
  }

  /**
   Resuming a RUNNING ticket performs a further step if and only if a step is unobserved and
   no saved record is marked failed. A failing observation in the journal does not matter.
   */
  lemma {:induction false} ResumePerformsIff(cfg: Config, b: Option<Work>, d: Durable, p: Proc)
    requires Local(cfg, b, d, p) && p.pc.Acting?
    requires |d.saved.work.steps| >= p.pc.scan.i
    requires forall q :: 0 <= q < p.pc.scan.i ==> d.saved.work.steps[q].status != Failed
    ensures var r := ScanLoop(cfg, p);
      && d.saved.plan.Some? && r.Some?
      && (r.value.pc.SaveRunning? <==>
            |Observations(d.journal)| < |d.saved.plan.value.steps| && !HasFailedStep(d.saved.work))
      && (r.value.pc.SaveRunning? ==> r.value.pc.scan.i == |Observations(d.journal)|)
      && (!r.value.pc.SaveRunning? ==> r.value.pc == Moving(IsAnalysing))
    decreases |d.saved.work.steps| - p.pc.scan.i
  {
    hide Rest, Runs, TickActing, InSync, Folded;
    ActFacts(cfg, b, d, p);
    var t, v, w, scan := d.saved, ViewOf(d.journal), p.mem.work, p.pc.scan;
    var plan := t.plan.value;
    ActingAligned(cfg, b, t, v, w, scan);
    if scan.i < |plan.steps| { LocateAligned(plan, w.steps, scan.i); }
    ActingShape(cfg, p, scan);
    ActingRuns(cfg, b, d, p, scan);
    ActingIds(cfg, p, scan);
    if scan.i == |plan.steps| {
    } else if w.steps[scan.i].status == Failed {
      FailedIsSaved(cfg, b, t, v, w, scan);
    } else if plan.steps[scan.i].id in scan.completed {
      assert w == t.work;
      ResumePerformsIff(cfg, b, d, TickActing(cfg, p, scan).value);
    } else {
      ActingPerforms(cfg, b, t, v, w, scan);
      NoFailureAhead(cfg, b, t, v);
    }
  }

  lemma {:induction false} FailedIsSaved(cfg: Config, b: Option<Work>, t: Ticket, v: View, w: Work, scan: Scan)
    requires PlanReady(b, t) && Journaled(t.plan.value, v) && InSync(cfg, b, t, v, t.work)
    requires |t.work.steps| == |t.plan.value.steps| == |w.steps| && ActingOk(cfg, b, t, v, w, scan)
    requires scan.i < |w.steps| && w.steps[scan.i].status == Failed
    ensures HasFailedStep(t.work)
  {
    hide Replay, Finish;
    FoldedRecords(cfg, b, t, v, |v.seen|);
    assert t.work.steps[scan.i].status == Failed;
  }

  /** Records at and behind the first unobserved step are pending or running. */
  lemma {:induction false} NoFailureAhead(cfg: Config, b: Option<Work>, t: Ticket, v: View)
    requires PlanReady(b, t) && Journaled(t.plan.value, v) && InSync(cfg, b, t, v, t.work)
    ensures |t.work.steps| == |t.plan.value.steps|
    ensures forall q :: |v.seen| <= q < |t.work.steps| ==> t.work.steps[q].status != Failed
  {
    hide Replay, Finish;
    FoldedRecords(cfg, b, t, v, |v.seen|);
    if |v.seen| > 0 { FoldedRecords(cfg, b, t, v, |v.seen| - 1); }
  }

  /** Without that crash the executor never receives a step behind a failing observation. */
  lemma {:induction false} NoStepPastFailure(cfg: Config, es: seq<Event>, e: Event, id: TicketId, s: StepId, m: nat)
    requires Executes(After(cfg, es), e, id, s) && !FailureCrash(cfg, es, id)
    requires id in After(cfg, es).tickets && m < |Observations(After(cfg, es).tickets[id].journal)|
    ensures var d := After(cfg, es).tickets[id];
      && d.saved.plan.Some? && m < |d.saved.plan.value.steps|
      && Passed(cfg.verify, d.saved.plan.value.steps[m], Observations(d.journal)[m])
  {
    hide WorldOk, GuardsOk, After, RequestCrash, ChildCrash, FailureCrash, Locate;
    AlwaysGuarded(cfg, es);
    LogIsHistory(cfg, es, id, s);
    var w := After(cfg, es);
    ExecutesNextStep(cfg, w, e, id, s);
    GuardOf(cfg, w, id);
    hide Rest, Runs, ApprovalsOk, CountsOk;
    ExecutePoint(cfg, Base(w, id), w.tickets[id], w.proc.value);
  }

  // ---- concrete runs --------------------------------------------------------------------------------

  const NO_ARGS := Args("", map[], map[], {}, None)
  const STEP_A := Step("a", "run", NO_ARGS, Safe)
  const STEP_B := Step("b", "run", NO_ARGS, Safe)
  const ERASE := Step("a", "run", NO_ARGS, Destructive)
  const BUG := Finding("f00d", [], Some("EE"), None)
  const BAD := Observation("bad", [], [], [])
  const GOOD := Observation("good", [], [], [])
  const BUGGY := Observation("good", [], [], [BUG])
  const FIRST := TicketId("null", 1)

  ghost function Demo(): (cfg: Config)
  {
    Config((s: Step, o: Observation) => if o.body == "bad" then Fail else Ok, None, (f: Finding) => "")
  }

  lemma {:induction false} AfterOne(cfg: Config, es: seq<Event>, e: Event)
    ensures After(cfg, es + [e]) == Next(cfg, After(cfg, es), e)
  {
    assert (es + [e])[..|es + [e]| - 1] == es;
  }

  /** One tick of a local effect, as the change of a ticket's files and the process. */
  lemma {:induction false} TickOnce(cfg: Config, es: seq<Event>, p: Proc)
    requires After(cfg, es).proc == Some(p) && IsLocal(p.pc) && p.id in After(cfg, es).tickets
    ensures var w, w' := After(cfg, es), After(cfg, es + [Tick]);
      var m := TickLocal(cfg, w.tickets[p.id], p);
      && w'.tickets == w.tickets[p.id := m.d] && w'.proc == m.proc && w'.index == w.index && w'.sequence == w.sequence
  {
    hide TickLocal;
    AfterOne(cfg, es, Tick);
  }

  /** A ticket's files and the process at some instant of a run. */
  ghost predicate At(cfg: Config, es: seq<Event>, d: Durable, p: Proc) {
    && After(cfg, es).proc == Some(p) && p.id in After(cfg, es).tickets && After(cfg, es).tickets[p.id] == d
  }

  lemma {:induction false} Advance(cfg: Config, es: seq<Event>, d: Durable, p: Proc, d': Durable, p': Proc)
    requires At(cfg, es, d, p) && IsLocal(p.pc) && TickLocal(cfg, d, p) == Moved(d', Some(p')) && p'.id == p.id
    ensures At(cfg, es + [Tick], d', p')
    ensures After(cfg, es + [Tick]).index == After(cfg, es).index && After(cfg, es + [Tick]).sequence == After(cfg, es).sequence
    ensures After(cfg, es + [Tick]).tickets == After(cfg, es).tickets[p.id := d']
  {
    hide TickLocal, After;
    TickOnce(cfg, es, p);
  }

  lemma {:induction false} Queries(j: seq<Entry>)
    ensures var r := Append(j, StateEntry, None, Empty);
      ViewOf(r) == ViewOf(j) && Completed(r) == Completed(j)
  {
    AppendUnfolds(j, StateEntry, None, Empty);
  }

  function Opened(): (t: Ticket) { NewTicket(FIRST, "job") }

  function Submitted(plan: Plan): (e: Event) { Submit(Submission("null", "job", plan, None)) }

  function FirstJob(plan: Plan): (p: Proc)
  {
    Proc(FIRST, Opened(), Ingested(Submission("null", "job", plan, None)))
  }

  /** A first submission and the save of its new ticket. */
  lemma {:induction false} OpensFirst(plan: Plan)
    ensures var es := [Submitted(plan)] + [Tick];
      && At(Demo(), es, Durable(Opened(), []), FirstJob(plan))
      && After(Demo(), es).index == map[] && After(Demo(), es).tickets.Keys == {FIRST} && After(Demo(), es).sequence == map["null" := 1]
  {
    var cfg := Demo();
    AfterOne(cfg, [], Submitted(plan));
    AfterOne(cfg, [Submitted(plan)], Tick);
    assert [] + [Submitted(plan)] == [Submitted(plan)];
    assert After(cfg, []) == INITIAL;
    hide After, TickLocal;
    var w := After(cfg, [Submitted(plan)]);
    assert w.proc == Some(Proc(FIRST, Opened(), SaveNew(Submission("null", "job", plan, None))));
    assert w.tickets == map[] && w.index == map[] && w.sequence == map["null" := 1];
  }

  lemma {:induction false} PlansFirst(plan: Plan)
    requires plan.Valid() && plan.jobId == "job"
    ensures TickLocal(Demo(), Durable(Opened(), []), FirstJob(plan))
         == Moved(Durable(Opened(), Append([], StateEntry, None, Empty)), Some(Proc(FIRST, WithPlan(Opened(), plan, None), Moving(IsPlanned))))
  {
    hide Append, FreshRecords;
  }

  lemma {:induction false} MovesOn(cfg: Config, d: Durable, p: Proc, target: TicketState)
    requires p.pc == Moving(target) && CanTransition(p.mem.state, target)
    ensures TickLocal(cfg, d, p) == Moved(Write(d, StateEntry, None, Empty), Some(Proc(p.id, p.mem.(state := target), Saving(target))))
  {
    hide Append;
  }

  /** A first submission, up to the save of its plan. */
  lemma {:induction false} ReachesPlanned(plan: Plan) returns (es: seq<Event>, j: seq<Entry>)
    requires plan.Valid() && plan.jobId == "job"
    ensures At(Demo(), es, Durable(Opened(), j),
               Proc(FIRST, WithPlan(Opened(), plan, None).(state := IsPlanned), Saving(IsPlanned)))
    ensures ViewOf(j) == QUIET && Completed(j) == map[] && (forall e :: e in es ==> !e.Approve?)
    ensures After(Demo(), es).index == map[] && After(Demo(), es).tickets.Keys == {FIRST} && After(Demo(), es).sequence == map["null" := 1]
  {
    var cfg := Demo();
    Queries([]);
    var j1 := Append([], StateEntry, None, Empty);
    Queries(j1);
    j := Append(j1, StateEntry, None, Empty);
    assert ViewOf(j) == QUIET && Completed(j) == map[];
    hide After, TickLocal, Append, ViewOf, Completed;
    OpensFirst(plan);
    PlansFirst(plan);
    var e0 := [Submitted(plan)] + [Tick];
    var p1 := Proc(FIRST, WithPlan(Opened(), plan, None), Moving(IsPlanned));
    Advance(cfg, e0, Durable(Opened(), []), FirstJob(plan), Durable(Opened(), j1), p1);
    MovesOn(cfg, Durable(Opened(), j1), p1, IsPlanned);
    Advance(cfg, e0 + [Tick], Durable(Opened(), j1), p1, Durable(Opened(), j), Proc(FIRST, p1.mem.(state := IsPlanned), Saving(IsPlanned)));
    es := e0 + [Tick] + [Tick];
  }

  /** From a saved APPROVED-bound ticket to the first turn of the loop: four more effects. */
  lemma {:induction false} ReachesActing(es0: seq<Event>, t: Ticket, j0: seq<Entry>) returns (es: seq<Event>, j: seq<Entry>)
    requires At(Demo(), es0, Durable(t, j0), Proc(FIRST, t, Moving(IsApproved)))
    requires t.state == IsPlanned && ViewOf(j0) == QUIET && Completed(j0) == map[]
    ensures At(Demo(), es, Durable(t.(state := IsRunning), j), Proc(FIRST, t.(state := IsRunning), Acting(Scan(0, map[], None))))
    ensures ViewOf(j) == QUIET && Completed(j) == map[] && es0 <= es && (forall e :: e in es ==> e in es0 || e == Tick)
    ensures After(Demo(), es).index == After(Demo(), es0).index && After(Demo(), es).sequence == After(Demo(), es0).sequence
    ensures After(Demo(), es).tickets.Keys == After(Demo(), es0).tickets.Keys
  {
    hide After;
    var cfg := Demo();
    var a, r := t.(state := IsApproved), t.(state := IsRunning);
    var j1 := Append(j0, StateEntry, None, Empty);
    j := Append(j1, StateEntry, None, Empty);
    Queries(j0);
    Queries(j1);
    Advance(cfg, es0, Durable(t, j0), Proc(FIRST, t, Moving(IsApproved)), Durable(t, j1), Proc(FIRST, a, Saving(IsApproved)));
    var e1 := es0 + [Tick];
    Advance(cfg, e1, Durable(t, j1), Proc(FIRST, a, Saving(IsApproved)), Durable(a, j1), Proc(FIRST, a, Moving(IsRunning)));
    var e2 := e1 + [Tick];
    Advance(cfg, e2, Durable(a, j1), Proc(FIRST, a, Moving(IsRunning)), Durable(a, j), Proc(FIRST, r, Saving(IsRunning)));
    var e3 := e2 + [Tick];
    Advance(cfg, e3, Durable(a, j), Proc(FIRST, r, Saving(IsRunning)), Durable(r, j), Proc(FIRST, r, Acting(Scan(0, map[], None))));
    es := e3 + [Tick];
  }

  /** From a turn of the loop on a pending step to its execution: three more effects. */
  lemma {:induction false} ReachesExecute(es0: seq<Event>, d0: Durable, p: Proc, scan: Scan) returns (es: seq<Event>, d: Durable, q: Proc)
    requires At(Demo(), es0, d0, p) && p.id == FIRST && p.pc == Acting(scan) && OnStep(p, scan)
    requires p.mem.work.steps[RecordAt(p, scan)].status == Pending && StepAt(p, scan).id !in scan.completed
    ensures At(Demo(), es, d, q) && q.id == FIRST && q.pc == Execute(scan)
    ensures q.mem == p.mem.(work := MarkRunning(p.mem.work, RecordAt(p, scan))) && d.saved == q.mem
    ensures d.journal == Append(d0.journal, IntentEntry, Some(StepAt(p, scan).id), if Some(StepAt(p, scan).id) == scan.interrupted then Redo else Empty)
    ensures OnStep(q, scan) && StepAt(q, scan) == StepAt(p, scan) && RecordAt(q, scan) == RecordAt(p, scan)
    ensures forall e :: e in es ==> e in es0 || e == Tick
    ensures After(Demo(), es).index == After(Demo(), es0).index && After(Demo(), es).sequence == After(Demo(), es0).sequence
    ensures After(Demo(), es).tickets.Keys == After(Demo(), es0).tickets.Keys
  {
    hide After, TickLocal;
    var cfg, r := Demo(), RecordAt(p, scan);
    var mem := p.mem.(work := MarkRunning(p.mem.work, r));
    LocateMarked(p.mem.work, r, StepAt(p, scan).id);
    var p1 := Proc(FIRST, mem, SaveRunning(scan));
    MarksRunning(cfg, d0, p, scan);
    Advance(cfg, es0, d0, p, d0, p1);
    var e1 := es0 + [Tick];
    var d1, p2 := d0.(saved := mem), p1.(pc := WriteIntent(scan));
    WritesIntent(cfg, d0, p1, d1, p2, scan);
    Advance(cfg, e1, d0, p1, d1, p2);
    var e2 := e1 + [Tick];
    var s := Some(StepAt(p, scan).id);
    d := Write(d1, IntentEntry, s, if s == scan.interrupted then Redo else Empty);
    q := p2.(pc := Execute(scan));
    Advance(cfg, e2, d1, p2, d, q);
    es := e2 + [Tick];
  }

  lemma {:induction false} MarksRunning(cfg: Config, d: Durable, p: Proc, scan: Scan)
    requires p.pc == Acting(scan) && OnStep(p, scan)
    requires p.mem.work.steps[RecordAt(p, scan)].status == Pending && StepAt(p, scan).id !in scan.completed
    ensures TickLocal(cfg, d, p) == Moved(d, Some(Proc(p.id, p.mem.(work := MarkRunning(p.mem.work, RecordAt(p, scan))), SaveRunning(scan))))
  {
    hide Locate, MarkRunning, Finish;
  }

  lemma {:induction false} WritesIntent(cfg: Config, d: Durable, p: Proc, d1: Durable, p1: Proc, scan: Scan)
    requires p.pc == SaveRunning(scan) && p1.pc == WriteIntent(scan) && OnStep(p1, scan)
    ensures TickLocal(cfg, d, p) == Moved(d.(saved := p.mem), Some(p.(pc := WriteIntent(scan))))
    ensures var s := Some(StepAt(p1, scan).id);
      TickLocal(cfg, d1, p1) == Moved(Write(d1, IntentEntry, s, if s == scan.interrupted then Redo else Empty), Some(p1.(pc := Execute(scan))))
  {
    hide Locate, Append;
  }

  lemma {:induction false} LocateMarked(w: Work, r: nat, s: StepId)
    requires r == Locate(w.steps, s) < |w.steps|
    ensures Locate(MarkRunning(w, r).steps, s) == r
  {
    var m := MarkRunning(w, r).steps;
    assert m[r].stepId == s;
    assert forall k :: 0 <= k < r ==> m[k].stepId == w.steps[k].stepId;
  }

  /** A crash followed by a resume of the first ticket. */
  lemma {:induction false} CrashAndResume(es: seq<Event>, d: Durable, p: Proc, pc: Pc)
    requires At(Demo(), es, d, p) && p.id == FIRST && ResumePoint(d) == Some(pc)
    ensures At(Demo(), es + [Crash] + [Resume(FIRST)], d, Proc(FIRST, d.saved, pc))
    ensures var w, w' := After(Demo(), es), After(Demo(), es + [Crash] + [Resume(FIRST)]);
      w'.tickets == w.tickets && w'.index == w.index && w'.sequence == w.sequence
  {
    AfterOne(Demo(), es, Crash);
    AfterOne(Demo(), es + [Crash], Resume(FIRST));
    hide CrashLog, After;
  }

  /**
   The window between the Planned save and the requests: this run hands a destructive step to
   the executor although nobody was asked and nobody approved.
   */
  lemma {:induction false} UnapprovedDestructionHappens() returns (es: seq<Event>)
    ensures Executes(After(Demo(), es), Perform(GOOD), FIRST, "a")
    ensures StepAt(After(Demo(), es).proc.value, After(Demo(), es).proc.value.pc.scan).risk == Destructive
    ensures FIRST in After(Demo(), es).tickets && After(Demo(), es).tickets[FIRST].saved.approvals == []
    ensures Approve(FIRST, "a") !in es
  {
    hide After;
    var cfg, plan := Demo(), Plan("job", [ERASE]);
    assert plan.steps[0].risk == Destructive;
    var e0, j0 := ReachesPlanned(plan);
    var t := WithPlan(Opened(), plan, None).(state := IsPlanned);
    var p := Proc(FIRST, t, Saving(IsPlanned));
    Advance(cfg, e0, Durable(Opened(), j0), p, Durable(t, j0), Proc(FIRST, t.(approvals := Requests(plan.steps)), RequestNote));
    CrashAndResume(e0 + [Tick], Durable(t, j0), Proc(FIRST, t.(approvals := Requests(plan.steps)), RequestNote), Moving(IsApproved));
    var e1, j1 := ReachesActing(e0 + [Tick] + [Crash] + [Resume(FIRST)], t, j0);
    var r := t.(state := IsRunning);
    var d, q;
    es, d, q := ReachesExecute(e1, Durable(r, j1), Proc(FIRST, r, Acting(Scan(0, map[], None))), Scan(0, map[], None));
  }

  /** The executor's return. */
  lemma {:induction false} Performs(es: seq<Event>, d: Durable, p: Proc, scan: Scan, o: Observation)
    requires At(Demo(), es, d, p) && p.pc == Execute(scan) && OnStep(p, scan)
    ensures At(Demo(), es + [Perform(o)], d, p.(pc := WriteObservation(scan, o)))
    ensures var w, w' := After(Demo(), es), After(Demo(), es + [Perform(o)]);
      w'.tickets == w.tickets && w'.index == w.index && w'.sequence == w.sequence
  {
    AfterOne(Demo(), es, Perform(o));
    hide After, Links, Locate;
  }

  /** The ticket of a plan of safe steps while its first step runs. */
  function FirstRunning(plan: Plan): (t: Ticket)
    requires plan.Valid()
  {
    Ticket(FIRST, "job", IsRunning, Some(plan), [], MarkRunning(Work(FreshRecords(plan), [], [], []), 0), None)
  }

  /** A plan of safe steps gets to its first execution. */
  lemma {:induction false} ReachesFirstStep(plan: Plan) returns (es: seq<Event>, d: Durable, q: Proc)
    requires plan.Valid() && plan.jobId == "job" && plan.steps[0] == STEP_A && !plan.IsDestructive()
    ensures At(Demo(), es, d, q) && q == Proc(FIRST, FirstRunning(plan), Execute(Scan(0, map[], None))) && d.saved == q.mem
    ensures OnStep(q, Scan(0, map[], None)) && RecordAt(q, Scan(0, map[], None)) == 0 && StepAt(q, Scan(0, map[], None)) == STEP_A
    ensures ViewOf(d.journal) == View([], [], Some("a")) && Completed(d.journal) == map[]
    ensures After(Demo(), es).index == map[] && After(Demo(), es).sequence == map["null" := 1] && After(Demo(), es).tickets.Keys == {FIRST}
  {
    hide After, Append;
    var cfg := Demo();
    var e0, j0 := ReachesPlanned(plan);
    var t := WithPlan(Opened(), plan, None).(state := IsPlanned);
    Advance(cfg, e0, Durable(Opened(), j0), Proc(FIRST, t, Saving(IsPlanned)), Durable(t, j0), Proc(FIRST, t, Moving(IsApproved)));
    var e1, j1 := ReachesActing(e0 + [Tick], t, j0);
    var r, scan := t.(state := IsRunning), Scan(0, map[], None);
    assert r.work.steps[0].stepId == "a" && Locate(r.work.steps, "a") == 0;
    es, d, q := ReachesExecute(e1, Durable(r, j1), Proc(FIRST, r, Acting(scan)), scan);
    AppendUnfolds(j1, IntentEntry, Some("a"), Empty);
  }

  lemma {:induction false} Observes(cfg: Config, d: Durable, p: Proc, scan: Scan, o: Observation)
    requires OnStep(p, scan)
    ensures var step := StepAt(p, scan);
      TickLocal(cfg, d, p.(pc := WriteObservation(scan, o))) ==
        Moved(Write(d, ObservationEntry, Some(step.id), Seen(o)),
              Some(Proc(p.id, p.mem.(work := Finish(cfg.verify, step, p.mem.work, RecordAt(p, scan), o)), SaveStep(scan))))
  {
    hide Finish, Append, Locate;
  }

  /** A plan of safe steps runs its first step. */
  lemma {:induction false} RunsFirstStep(plan: Plan, o: Observation) returns (es: seq<Event>, d: Durable, q: Proc)
    requires plan.Valid() && plan.jobId == "job" && plan.steps[0] == STEP_A && !plan.IsDestructive()
    ensures At(Demo(), es, d, q) && q.id == FIRST && q.pc == SaveStep(Scan(0, map[], None))
    ensures d.saved == FirstRunning(plan)
    ensures q.mem == d.saved.(work := Finish(Demo().verify, STEP_A, d.saved.work, 0, o))
    ensures Completed(d.journal) == map["a" := o] && Observations(d.journal) == [o] && OpenIntent(d.journal) == None
    ensures After(Demo(), es).index == map[] && After(Demo(), es).sequence == map["null" := 1] && After(Demo(), es).tickets.Keys == {FIRST}
  {
    hide After, Finish, Append, FirstRunning, TickLocal, OnStep, StepAt, RecordAt, Completed, Observations, OpenIntent, Demo;
    var cfg, scan := Demo(), Scan(0, map[], None);
    var e2, d2, p2 := ReachesFirstStep(plan);
    Performs(e2, d2, p2, scan, o);
    var p3 := p2.(pc := WriteObservation(scan, o));
    d := Write(d2, ObservationEntry, Some("a"), Seen(o));
    q := Proc(FIRST, p2.mem.(work := Finish(cfg.verify, STEP_A, p2.mem.work, 0, o)), SaveStep(scan));
    Observes(cfg, d2, p2, scan, o);
    Advance(cfg, e2 + [Perform(o)], d2, p3, d, q);
    es := e2 + [Perform(o)] + [Tick];
    AppendUnfolds(d2.journal, ObservationEntry, Some("a"), Seen(o));
    assert Observations(d.journal) == [o];
  }

  /** The loop rebuilds a journalled but unsaved first step and moves on. */
  lemma {:induction false} RestoresFirst(p: Proc, scan: Scan, o: Observation)
    requires p.mem.plan == Some(Plan("job", [STEP_A, STEP_B])) && |p.mem.work.steps| == 2
    requires p.mem.work.steps[0] == StepRecord("a", Running, None, None) && p.mem.work.steps[1] == StepRecord("b", Pending, None, None)
    requires scan.i == 0 && scan.completed == map["a" := o]
    ensures var q := Proc(p.id, p.mem.(work := Finish(Demo().verify, STEP_A, p.mem.work, 0, o)), Acting(NextStep(scan)));
      && TickActing(Demo(), p, scan) == Some(q)
      && OnStep(q, NextStep(scan)) && RecordAt(q, NextStep(scan)) == 1 && StepAt(q, NextStep(scan)) == STEP_B
      && q.mem.work.steps[1].status == Pending
  {
    var w := Finish(Demo().verify, STEP_A, p.mem.work, 0, o);
    assert Locate(p.mem.work.steps, "a") == 0;
    assert w.steps[0].stepId == "a" && w.steps[1] == p.mem.work.steps[1];
    assert Locate(w.steps[1..], "b") == 0;
  }

  /**
   The window between a failing observation and its save: this run hands step b to the
   executor although the journal already holds a failing observation of step a.
   */
  lemma {:induction false} StepPastFailureHappens() returns (es: seq<Event>)
    ensures Executes(After(Demo(), es), Perform(GOOD), FIRST, "b")
    ensures FIRST in After(Demo(), es).tickets && Observations(After(Demo(), es).tickets[FIRST].journal) == [BAD]
    ensures !Passed(Demo().verify, STEP_A, BAD)
  {
    hide After, Locate, Observations, Append, MarkRunning;
    var e1, d1, p2, scan := RestoresFailure();
    var d, q;
    es, d, q := ReachesExecute(e1, d1, p2, scan);
    AppendUnfolds(d1.journal, IntentEntry, Some("b"), Empty);
  }

  /** A crash behind the failing observation of step a; the resumed loop restores it and stands on step b. */
  lemma {:induction false} RestoresFailure() returns (es: seq<Event>, d: Durable, p: Proc, scan: Scan)
    ensures At(Demo(), es, d, p) && p.id == FIRST && p.pc == Acting(scan) && OnStep(p, scan) && StepAt(p, scan) == STEP_B
    ensures p.mem.work.steps[RecordAt(p, scan)].status == Pending && "b" !in scan.completed && scan.interrupted == None
    ensures Observations(d.journal) == [BAD]
    ensures p.mem.plan == Some(Plan("job", [STEP_A, STEP_B])) && p.mem.state == IsRunning && RecordAt(p, scan) == 1
    ensures |p.mem.work.steps| == 2 && p.mem.work.steps[0].stepId == "a" && p.mem.work.steps[0].status == Failed && p.mem.work.steps[1].stepId == "b"
  {
    FailsBadly();
    hide After, TickActing, Finish, Append, Locate, Observations, Completed, OpenIntent, Passed;
    var e1, p1 := ResumesBehindFailure();
    d := After(Demo(), e1).tickets[FIRST];
    var first := p1.pc.scan;
    RestoresFirst(p1, first, BAD);
    p, scan := TickActing(Demo(), p1, first).value, NextStep(first);
    Advance(Demo(), e1, d, p1, d, p);
    es := e1 + [Tick];
  }

  lemma {:induction false} FailsBadly()
    ensures !Passed(Demo().verify, STEP_A, BAD)
    ensures forall w: Work :: |w.steps| == 2 && w.steps[0].stepId == "a" ==>
      var r := Finish(Demo().verify, STEP_A, w, 0, BAD).steps; |r| == 2 && r[0].stepId == "a" && r[0].status == Failed && r[1] == w.steps[1]
  {
    hide NewVotes, NewExports, MergeFindings;
  }

  /**
   A second crash, while step b runs behind the failure: the resumed loop stops at the failed
   record, and ACT ends with step b still running and its intent open.
   */
  lemma {:induction false} RunningStepIsLeft() returns (es: seq<Event>, d: Durable)
    ensures FIRST in After(Demo(), es).tickets && After(Demo(), es).tickets[FIRST] == d
    ensures d.saved.state == IsAnalysing && |d.saved.work.steps| == 2 && d.saved.work.steps[1].status == Running
    ensures OpenIntent(d.journal) == Some("b") && Observations(d.journal) == [BAD]
  {
    hide After, Locate, Observations, OpenIntent, Completed, Append, TickLocal;
    var cfg := Demo();
    var e0, d0 := InterruptedBehindFailure();
    var p := Proc(FIRST, d0.saved, Acting(ScanFrom(d0.journal)));
    StopsAtFailure(cfg, d0, p);
    Advance(cfg, e0, d0, p, d0, p.(pc := Moving(IsAnalysing)));
    var a, d1 := d0.saved.(state := IsAnalysing), Write(d0, StateEntry, None, Empty);
    MovesOn(cfg, d0, p.(pc := Moving(IsAnalysing)), IsAnalysing);
    Advance(cfg, e0 + [Tick], d0, p.(pc := Moving(IsAnalysing)), d1, Proc(FIRST, a, Saving(IsAnalysing)));
    d := d1.(saved := a);
    SavesAnalysing(cfg, d1, Proc(FIRST, a, Saving(IsAnalysing)));
    Advance(cfg, e0 + [Tick] + [Tick], d1, Proc(FIRST, a, Saving(IsAnalysing)), d, Proc(FIRST, a, CollectNote));
    es := e0 + [Tick] + [Tick] + [Tick];
    AppendUnfolds(d0.journal, StateEntry, None, Empty);
  }

  lemma {:induction false} StopsAtFailure(cfg: Config, d: Durable, p: Proc)
    requires p.pc.Acting? && p.pc.scan.i == 0 && p.mem.plan == Some(Plan("job", [STEP_A, STEP_B]))
    requires |p.mem.work.steps| == 2 && p.mem.work.steps[0].stepId == "a" && p.mem.work.steps[0].status == Failed
    ensures TickLocal(cfg, d, p) == Moved(d, Some(p.(pc := Moving(IsAnalysing))))
  {
    assert Locate(p.mem.work.steps, "a") == 0;
    hide Finish, MarkRunning;
  }

  /** The run up to the second resume. */
  lemma {:induction false} InterruptedBehindFailure() returns (es: seq<Event>, d: Durable)
    ensures At(Demo(), es, d, Proc(FIRST, d.saved, Acting(ScanFrom(d.journal))))
    ensures d.saved.plan == Some(Plan("job", [STEP_A, STEP_B])) && d.saved.state == IsRunning && |d.saved.work.steps| == 2
    ensures d.saved.work.steps[0].stepId == "a" && d.saved.work.steps[0].status == Failed && d.saved.work.steps[1].status == Running
    ensures OpenIntent(d.journal) == Some("b") && Observations(d.journal) == [BAD]
  {
    hide After, Locate, Observations, OpenIntent, Completed, Append, TickActing;
    var e0, d0, p, scan := RestoresFailure();
    var q;
    es, d, q := ReachesExecute(e0, d0, p, scan);
    AppendUnfolds(d0.journal, IntentEntry, Some("b"), Empty);
    CrashAndResume(es, d, q, Acting(ScanFrom(d.journal)));
    es := es + [Crash] + [Resume(FIRST)];
  }

  /** The crash and the resume themselves. */
  lemma {:induction false} ResumesBehindFailure() returns (es: seq<Event>, p: Proc)
    ensures FIRST in After(Demo(), es).tickets && At(Demo(), es, After(Demo(), es).tickets[FIRST], p) && p.id == FIRST
    ensures p.pc == Acting(Scan(0, map["a" := BAD], None)) && p.mem.plan == Some(Plan("job", [STEP_A, STEP_B])) && p.mem.state == IsRunning
    ensures p.mem.work.steps == [StepRecord("a", Running, None, None), StepRecord("b", Pending, None, None)]
    ensures Observations(After(Demo(), es).tickets[FIRST].journal) == [BAD]
  {
    var plan := Plan("job", [STEP_A, STEP_B]);
    hide After, TickActing, Finish, Append, Locate, Observations, Completed, OpenIntent;
    var e0, d, p0 := RunsFirstStep(plan, BAD);
    CrashAndResume(e0, d, p0, Acting(ScanFrom(d.journal)));
    es, p := e0 + [Crash] + [Resume(FIRST)], Proc(FIRST, d.saved, Acting(ScanFrom(d.journal)));
    assert FreshRecords(plan)[0] == StepRecord("a", Pending, None, None) && FreshRecords(plan)[1] == StepRecord("b", Pending, None, None);
  }

  // ---- the window between a bug ticket and its index record ----------------------------------------

  ghost function Buggy(): (w: Work)
  {
    Work([FinishedRecord(Demo().verify, STEP_A, BUGGY)], [], [], [BUG])
  }

  const ONE_STEP := Plan("job", [STEP_A])

  function Running1(w: Work): (t: Ticket) { Ticket(FIRST, "job", IsRunning, Some(ONE_STEP), [], w, None) }

  /** A run of one step whose observation carries a finding. */
  lemma {:induction false} RunsBuggyStep() returns (es: seq<Event>, d: Durable)
    ensures At(Demo(), es, d, Proc(FIRST, Running1(Buggy()), SaveStep(Scan(0, map[], None))))
    ensures After(Demo(), es).index == map[] && After(Demo(), es).sequence == map["null" := 1] && After(Demo(), es).tickets.Keys == {FIRST}
  {
    hide After, Finish, Buggy, MarkRunning, FreshRecords, Completed, Observations, OpenIntent;
    var p0;
    es, d, p0 := RunsFirstStep(ONE_STEP, BUGGY);
    BuggyWork();
  }

  /** The work of a run whose only step is done. */
  predicate OneDone(w: Work) { |w.steps| == 1 && w.steps[0].stepId == "a" && w.steps[0].status == Done }

  /** From there to the start of ANALYSE. */
  lemma {:induction false} ReachesAnalyse(w: Work, e0: seq<Event>, d0: Durable) returns (es: seq<Event>, d: Durable)
    requires OneDone(w) && At(Demo(), e0, d0, Proc(FIRST, Running1(w), SaveStep(Scan(0, map[], None))))
    ensures At(Demo(), es, d, Proc(FIRST, d.saved, CollectNote))
    ensures d.saved == Running1(w).(state := IsAnalysing)
    ensures After(Demo(), es).index == After(Demo(), e0).index && After(Demo(), es).sequence == After(Demo(), e0).sequence
    ensures After(Demo(), es).tickets.Keys == After(Demo(), e0).tickets.Keys
  {
    hide After, TickLocal, Append;
    var cfg := Demo();
    var t, scan := Running1(w), Scan(0, map[], None);
    var d1 := d0.(saved := t);
    StepIsSaved(cfg, w, d0, d1, t, scan);
    Advance(cfg, e0, d0, Proc(FIRST, t, SaveStep(scan)), d1, Proc(FIRST, t, Acting(NextStep(scan))));
    var e1 := e0 + [Tick];
    Advance(cfg, e1, d1, Proc(FIRST, t, Acting(NextStep(scan))), d1, Proc(FIRST, t, Moving(IsAnalysing)));
    var e2 := e1 + [Tick];
    var a, d2 := t.(state := IsAnalysing), Write(d1, StateEntry, None, Empty);
    MovesOn(cfg, d1, Proc(FIRST, t, Moving(IsAnalysing)), IsAnalysing);
    Advance(cfg, e2, d1, Proc(FIRST, t, Moving(IsAnalysing)), d2, Proc(FIRST, a, Saving(IsAnalysing)));
    var e3 := e2 + [Tick];
    d := d2.(saved := a);
    SavesAnalysing(cfg, d2, Proc(FIRST, a, Saving(IsAnalysing)));
    Advance(cfg, e3, d2, Proc(FIRST, a, Saving(IsAnalysing)), d, Proc(FIRST, a, CollectNote));
    es := e3 + [Tick];
  }

  /** The only step is saved, and the loop has no step left. */
  lemma {:induction false} StepIsSaved(cfg: Config, w: Work, d: Durable, d1: Durable, t: Ticket, scan: Scan)
    requires OneDone(w) && t == Running1(w) && scan.i == 0
    ensures TickLocal(cfg, d, Proc(FIRST, t, SaveStep(scan))) == Moved(d.(saved := t), Some(Proc(FIRST, t, Acting(NextStep(scan)))))
    ensures TickLocal(cfg, d1, Proc(FIRST, t, Acting(NextStep(scan)))) == Moved(d1, Some(Proc(FIRST, t, Moving(IsAnalysing))))
  {
    assert Locate(t.work.steps, "a") == 0;
  }

  lemma {:induction false} SavesAnalysing(cfg: Config, d: Durable, p: Proc)
    requires p.pc == Saving(IsAnalysing)
    ensures TickLocal(cfg, d, p) == Moved(d.(saved := p.mem), Some(p.(pc := CollectNote)))
  {
  }

  lemma {:induction false} BuggyWork()
    ensures Finish(Demo().verify, STEP_A, MarkRunning(Work(FreshRecords(ONE_STEP), [], [], []), 0), 0, BUGGY) == Buggy()
  {
    assert MergeAll([], []) == [] && Find([], BUG.fingerprint) == 0;
    assert [BUG][..0] == [];
    assert MergeAll([], [BUG]) == [BUG];
    var w := MarkRunning(Work(FreshRecords(ONE_STEP), [], [], []), 0);
    assert w.steps[0 := FinishedRecord(Demo().verify, STEP_A, BUGGY)] == Buggy().steps;
  }

  /** From COLLECT with a finding nobody has indexed: the next free number becomes its bug ticket. */
  lemma {:induction false} ReachesRecord(es0: seq<Event>, d0: Durable, n: nat) returns (es: seq<Event>, d: Durable, p: Proc)
    requires At(Demo(), es0, d0, Proc(FIRST, d0.saved, CollectNote))
    requires d0.saved == Running1(Buggy()).(state := IsAnalysing) && n >= 1
    requires After(Demo(), es0).index == map[] && After(Demo(), es0).sequence == map["null" := n]
    ensures At(Demo(), es, d, p) && p.id == FIRST && d.saved == d0.saved && p.pc.RecordChild?
    ensures var w := After(Demo(), es); var child := TicketId("null", n + 1);
      && w.index == map[] && w.sequence == map["null" := n + 1]
      && child in w.tickets && BugFor(w.tickets[child].saved, "f00d")
      && (forall x :: x in After(Demo(), es0).tickets && x != FIRST && x != child ==> x in w.tickets && w.tickets[x] == After(Demo(), es0).tickets[x])
  {
    var cfg := Demo();
    assert d0.saved.work.findings == [BUG];
    hide After, Append, Buggy, TickLocal, Triage, BugFor;
    var d1 := Write(d0, NoteEntry, None, Empty);
    Collects(cfg, d0, Proc(FIRST, d0.saved, CollectNote));
    Advance(cfg, es0, d0, Proc(FIRST, d0.saved, CollectNote), d1, Proc(FIRST, d0.saved, RcaNote));
    var e1 := es0 + [Tick];
    AfterOne(cfg, e1, Analyse(None));
    TriageOne();
    var e2, d2 := e1 + [Analyse(None)], Write(d1, NoteEntry, None, Empty);
    var s := Spawn([BUG], [], [], []);
    assert At(cfg, e2, d2, Proc(FIRST, d0.saved, Spawning(s)));
    SpawnsBug(e2, d2, d0.saved, s, n);
    es := e2 + [Tick] + [Tick];
    d := d2;
    p := Proc(FIRST, d0.saved, RecordChild(s, TicketId("null", n + 1)));
  }

  lemma {:induction false} SpawnsBug(es: seq<Event>, d: Durable, t: Ticket, s: Spawn, n: nat)
    requires At(Demo(), es, d, Proc(FIRST, t, Spawning(s))) && s == Spawn([BUG], [], [], []) && t.id == FIRST
    requires After(Demo(), es).index == map[] && After(Demo(), es).sequence == map["null" := n] && n >= 1
    ensures var w, w', child := After(Demo(), es), After(Demo(), es + [Tick] + [Tick]), TicketId("null", n + 1);
      && At(Demo(), es + [Tick] + [Tick], d, Proc(FIRST, t, RecordChild(s, child)))
      && w'.index == map[] && w'.sequence == map["null" := n + 1]
      && w'.tickets.Keys == w.tickets.Keys + {child} && BugFor(w'.tickets[child].saved, "f00d")
      && forall x :: x in w.tickets && x != child ==> w'.tickets[x] == w.tickets[x]
  {
    AfterOne(Demo(), es, Tick);
    AfterOne(Demo(), es + [Tick], Tick);
    hide After, TickLocal;
  }

  lemma {:induction false} Collects(cfg: Config, d: Durable, p: Proc)
    requires p.pc == CollectNote
    ensures TickLocal(cfg, d, p) == Moved(Write(d, NoteEntry, None, Empty), Some(p.(pc := RcaNote)))
  {
  }

  lemma {:induction false} TriageOne()
    ensures Triage(Demo().route, [BUG]) == [BUG]
  {
    assert [BUG][..0] == [] && MergeAll([], []) == [] && Find([], BUG.fingerprint) == 0;
    assert MergeAll([], [BUG]) == [BUG];
  }

  /**
   This run crashes between the save of a bug ticket and its index record, and after the resume
   two bug tickets carry the same fingerprint.
   */
  lemma {:induction false} TwoBugTicketsHappen() returns (es: seq<Event>)
    ensures var w := After(Demo(), es); var a, c := TicketId("null", 2), TicketId("null", 3);
      a in w.tickets && c in w.tickets && BugFor(w.tickets[a].saved, "f00d") && BugFor(w.tickets[c].saved, "f00d")
  {
    assert OneDone(Buggy());
    hide After, Buggy;
    var b0, c0 := RunsBuggyStep();
    var e0, d0 := ReachesAnalyse(Buggy(), b0, c0);
    var e1, d1, p1 := ReachesRecord(e0, d0, 1);
    CrashAndResume(e1, d1, p1, CollectNote);
    var e2, d2, p2 := ReachesRecord(e1 + [Crash] + [Resume(FIRST)], d1, 2);
    es := e2;
  }

  // ---- the window between the save behind the SOP and the closing save --------------------------------

  const OPINION := Vote("analyst", "no fault found", "")
  const RESULT := Rca([OPINION], [])

  ghost function Fine(votes: seq<Vote>): (w: Work)
  {
    Work([FinishedRecord(Demo().verify, STEP_A, GOOD)], votes, [], [])
  }

  lemma {:induction false} FineWork()
    ensures Finish(Demo().verify, STEP_A, MarkRunning(Work(FreshRecords(ONE_STEP), [], [], []), 0), 0, GOOD) == Fine([])
    ensures OneDone(Fine([]))
  {
    var w := MarkRunning(Work(FreshRecords(ONE_STEP), [], [], []), 0);
    assert w.steps[0 := FinishedRecord(Demo().verify, STEP_A, GOOD)] == Fine([]).steps;
  }

  lemma {:induction false} RunsFineStep() returns (es: seq<Event>, d: Durable)
    ensures At(Demo(), es, d, Proc(FIRST, Running1(Fine([])), SaveStep(Scan(0, map[], None))))
  {
    hide After, Finish, Fine, MarkRunning, FreshRecords, Completed, Observations, OpenIntent;
    var p0;
    es, d, p0 := RunsFirstStep(ONE_STEP, GOOD);
    FineWork();
  }

  /** The effects behind an analysis without findings, up to the closing transition. */
  lemma {:induction false} SopTicks(cfg: Config, d: Durable, p: Proc)
    requires p.mem.work.findings == [] && !HasFailedStep(p.mem.work)
    ensures p.pc == SopNote ==> TickLocal(cfg, d, p) == Moved(Write(d, NoteEntry, None, Empty), Some(p.(pc := SaveSop)))
    ensures p.pc == SaveSop ==> TickLocal(cfg, d, p) == Moved(d.(saved := p.mem), Some(p.(pc := Moving(IsDone))))
    ensures p.pc == Saving(IsDone) ==> TickLocal(cfg, d, p) == Moved(d.(saved := p.mem), None)
  {
    hide Append, HasFailedStep;
  }

  lemma {:induction false} AnalysesFine(es: seq<Event>, d: Durable, t: Ticket, votes: seq<Vote>)
    requires At(Demo(), es, d, Proc(FIRST, t, RcaNote)) && t == Running1(Fine(votes)).(state := IsAnalysing)
    ensures var e1, d1 := es + [Analyse(Some(RESULT))] + [Tick], Write(d, NoteEntry, None, Empty);
      At(Demo(), e1, d1, Proc(FIRST, t.(work := Fine(votes + [OPINION])), SopNote))
  {
    AfterOne(Demo(), es, Analyse(Some(RESULT)));
    AfterOne(Demo(), es + [Analyse(Some(RESULT))], Tick);
    hide After, Append, TickLocal;
    assert Triage(Demo().route, []) == [];
    assert [] + NewFindings({}, []) == [];
    var w := Fine(votes);
    assert WithRca(w, Some(RESULT)) == Fine(votes + [OPINION]);
  }

  lemma {:induction false} FineIsClean(votes: seq<Vote>)
    ensures Fine(votes).findings == [] && !HasFailedStep(Fine(votes))
  {
  }

  /** One analysis, up to the closing transition. */
  lemma {:induction false} AnalysisRound(es0: seq<Event>, d0: Durable, votes: seq<Vote>) returns (es: seq<Event>, d: Durable)
    requires At(Demo(), es0, d0, Proc(FIRST, d0.saved, CollectNote))
    requires d0.saved == Running1(Fine(votes)).(state := IsAnalysing)
    ensures At(Demo(), es, d, Proc(FIRST, d.saved, Moving(IsDone)))
    ensures d.saved == Running1(Fine(votes + [OPINION])).(state := IsAnalysing)
  {
    hide After, TickLocal, Append, Fine, HasFailedStep;
    var cfg, t := Demo(), d0.saved;
    var d1 := Write(d0, NoteEntry, None, Empty);
    Collects(cfg, d0, Proc(FIRST, t, CollectNote));
    Advance(cfg, es0, d0, Proc(FIRST, t, CollectNote), d1, Proc(FIRST, t, RcaNote));
    AnalysesFine(es0 + [Tick], d1, t, votes);
    var e2, d2 := es0 + [Tick] + [Analyse(Some(RESULT))] + [Tick], Write(d1, NoteEntry, None, Empty);
    var m := t.(work := Fine(votes + [OPINION]));
    FineIsClean(votes + [OPINION]);
    var d3 := Write(d2, NoteEntry, None, Empty);
    SopTicks(cfg, d2, Proc(FIRST, m, SopNote));
    Advance(cfg, e2, d2, Proc(FIRST, m, SopNote), d3, Proc(FIRST, m, SaveSop));
    d := d3.(saved := m);
    SopTicks(cfg, d3, Proc(FIRST, m, SaveSop));
    Advance(cfg, e2 + [Tick], d3, Proc(FIRST, m, SaveSop), d, Proc(FIRST, m, Moving(IsDone)));
    es := e2 + [Tick] + [Tick];
  }

  /** Two analyses with a crash between the save behind the SOP and the closing save. */
  lemma {:induction false} AnalysedTwice() returns (es: seq<Event>, d: Durable)
    ensures At(Demo(), es, d, Proc(FIRST, d.saved, Moving(IsDone)))
    ensures d.saved == Running1(Fine([] + [OPINION] + [OPINION])).(state := IsAnalysing)
  {
    FineWork();
    hide After, TickLocal, Append, Fine, HasFailedStep, OneDone;
    var b0, c0 := RunsFineStep();
    var e0, d0 := ReachesAnalyse(Fine([]), b0, c0);
    var e1, d1 := AnalysisRound(e0, d0, []);
    CrashAndResume(e1, d1, Proc(FIRST, d1.saved, Moving(IsDone)), CollectNote);
    es, d := AnalysisRound(e1 + [Crash] + [Resume(FIRST)], d1, [] + [OPINION]);
  }

  lemma {:induction false} Closes(e0: seq<Event>, d0: Durable) returns (es: seq<Event>)
    requires At(Demo(), e0, d0, Proc(FIRST, d0.saved, Moving(IsDone))) && d0.saved.state == IsAnalysing
    requires d0.saved.work.findings == [] && !HasFailedStep(d0.saved.work)
    ensures FIRST in After(Demo(), es).tickets && After(Demo(), es).tickets[FIRST].saved == d0.saved.(state := IsDone)
  {
    hide After, TickLocal, Append, HasFailedStep;
    var cfg, p := Demo(), Proc(FIRST, d0.saved, Moving(IsDone));
    MovesOn(cfg, d0, p, IsDone);
    var d, q := Write(d0, StateEntry, None, Empty), Proc(FIRST, d0.saved.(state := IsDone), Saving(IsDone));
    Advance(cfg, e0, d0, p, d, q);
    SopTicks(cfg, d, q);
    TickOnce(cfg, e0 + [Tick], q);
    es := e0 + [Tick] + [Tick];
  }

  /**
   This run crashes between the save behind the SOP and the closing save; its analyses bring one
   vote, the executor none, and the ticket closes with that vote twice.
   */
  lemma {:induction false} VotesTwiceHappen() returns (es: seq<Event>)
    ensures FIRST in After(Demo(), es).tickets
    ensures var t := After(Demo(), es).tickets[FIRST].saved; t.state == IsDone && t.work.votes == [OPINION, OPINION]
  {
    var votes := [] + [OPINION] + [OPINION];
    FineIsClean(votes);
    assert Fine(votes).votes == [OPINION, OPINION];
    hide After, Fine, HasFailedStep;
    var e0, d0 := AnalysedTwice();
    es := Closes(e0, d0);
  }
}
