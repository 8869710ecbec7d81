/**
 The Agent Kernel's promises over whole runs: for every list of events, with crashes anywhere.
 A promise that a crash window breaks is stated with the exact window.
 */
module KernelTheorems {
  import opened Options
  import opened Records
  import opened Journal
  import opened SkillGate
  import opened Attachments
  import opened Act
  import opened Machine
  import opened TicketInvariant
  import opened TicketSteps
  import opened TicketRuns
  import opened PlanRuns
  import opened ApprovalInvariant
  import opened CleanInvariant
  import opened GuardRuns
  import opened BugInvariant
  import opened BugRuns

  // ---- reading a run ----------------------------------------------------------------------------

  /** The event hands a step of this ticket to the executor. */
  predicate Executes(w: World, e: Event, id: TicketId, s: StepId) {
    e.Perform? && AtExecute(ProcOf(w, id), s)
  }

  /** A crash between a step's intent and its observation. */
  predicate Cuts(w: World, e: Event, id: TicketId, s: StepId) {
    e.Crash? && (AtExecute(ProcOf(w, id), s) || AtObservation(ProcOf(w, id), s))
  }

  /** A crash between the Planned save and the save of the approval requests. */
  predicate CutsRequest(w: World, e: Event, id: TicketId) {
    e.Crash? && InRequest(ProcOf(w, id))
  }

  /** A crash between a failing observation's journal entry and the save of its record. */
  predicate CutsFailure(w: World, e: Event, id: TicketId) {
    e.Crash? && ProcOf(w, id).Some?
    && var p := ProcOf(w, id).value;
       p.pc.SaveStep? && OnStep(p, p.pc.scan) && p.mem.work.steps[RecordAt(p, p.pc.scan)].status == Failed
  }

  /** A crash between the save of a bug ticket and its index record. */
  predicate CutsChild(w: World, e: Event, child: TicketId) {
    e.Crash? && BeingRecorded(w, child)
  }

  function ExecutionsIn(cfg: Config, es: seq<Event>, id: TicketId, s: StepId): (n: nat)
  {
    if es == [] then 0
    else
      var p := es[..|es| - 1];
      ExecutionsIn(cfg, p, id, s) + One(Executes(After(cfg, p), es[|es| - 1], id, s))
  }

  function CutsIn(cfg: Config, es: seq<Event>, id: TicketId, s: StepId): (n: nat)
  {
    if es == [] then 0
    else
      var p := es[..|es| - 1];
      CutsIn(cfg, p, id, s) + One(Cuts(After(cfg, p), es[|es| - 1], id, s))
  }

  ghost predicate RequestCrash(cfg: Config, es: seq<Event>, id: TicketId) {
    exists m :: 0 <= m < |es| && CutsRequest(After(cfg, es[..m]), es[m], id)
  }

  ghost predicate FailureCrash(cfg: Config, es: seq<Event>, id: TicketId) {
    exists m :: 0 <= m < |es| && CutsFailure(After(cfg, es[..m]), es[m], id)
  }

  ghost predicate ChildCrash(cfg: Config, es: seq<Event>, child: TicketId) {
    exists m :: 0 <= m < |es| && CutsChild(After(cfg, es[..m]), es[m], child)
  }

  lemma {:induction false} CrashSplits(cfg: Config, es: seq<Event>, id: TicketId)
    requires es != []
    ensures var n := |es| - 1; var w := After(cfg, es[..n]);
      && (RequestCrash(cfg, es, id) <==> RequestCrash(cfg, es[..n], id) || CutsRequest(w, es[n], id))
      && (FailureCrash(cfg, es, id) <==> FailureCrash(cfg, es[..n], id) || CutsFailure(w, es[n], id))
      && (ChildCrash(cfg, es, id) <==> ChildCrash(cfg, es[..n], id) || CutsChild(w, es[n], id))
  {
    hide CutsRequest, CutsFailure, CutsChild, After;
    var n := |es| - 1;
    var p := es[..n];
    assert forall m :: 0 <= m < n ==> p[..m] == es[..m] && p[m] == es[m];
    if RequestCrash(cfg, p, id) { var m :| 0 <= m < n && CutsRequest(After(cfg, p[..m]), p[m], id); assert CutsRequest(After(cfg, es[..m]), es[m], id); }
    if FailureCrash(cfg, p, id) { var m :| 0 <= m < n && CutsFailure(After(cfg, p[..m]), p[m], id); assert CutsFailure(After(cfg, es[..m]), es[m], id); }
    if ChildCrash(cfg, p, id) { var m :| 0 <= m < n && CutsChild(After(cfg, p[..m]), p[m], id); assert CutsChild(After(cfg, es[..m]), es[m], id); }
  }

  /** Only the executor's return and crashes are recorded. */
  lemma {:induction false} LogQuiet(cfg: Config, w: World, e: Event)
    requires !e.Perform? && !e.Crash?
    ensures var h, h' := w.log, Next(cfg, w, e).log;
      h'.executions == h.executions && h'.cuts == h.cuts && h'.requestCut == h.requestCut
      && h'.failCut == h.failCut && h'.orphans == h.orphans
  {
    hide Locate, TickLocal, Links, TickRca, FirstPending, Completed, OpenIntent;
  }

  lemma {:induction false} LogPerform(cfg: Config, w: World, o: Observation, id: TicketId, s: StepId)
    ensures var h, h' := w.log, Next(cfg, w, Perform(o)).log;
      && Count(h'.executions, id, s) == Count(h.executions, id, s) + One(Executes(w, Perform(o), id, s))
      && h'.cuts == h.cuts && h'.requestCut == h.requestCut && h'.failCut == h.failCut && h'.orphans == h.orphans
  {
    hide Locate, Links, Count;
    if w.proc.Some? && w.proc.value.pc.Execute? && OnStep(w.proc.value, w.proc.value.pc.scan) {
      CountAppend(w.log.executions, Execution(w.proc.value.id, StepAt(w.proc.value, w.proc.value.pc.scan)), id, s);
    }
  }

  lemma {:induction false} LogCrash(cfg: Config, w: World, id: TicketId, s: StepId)
    ensures var h, h' := w.log, Next(cfg, w, Crash).log;
      && h'.executions == h.executions
      && Count(h'.cuts, id, s) == Count(h.cuts, id, s) + One(Cuts(w, Crash, id, s))
      && (id in h'.requestCut <==> id in h.requestCut || CutsRequest(w, Crash, id))
      && (id in h'.failCut <==> id in h.failCut || CutsFailure(w, Crash, id))
      && (id in h'.orphans <==> id in h.orphans || CutsChild(w, Crash, id))
  {
    if w.proc.Some? { LogCrashOf(cfg, w, w.proc.value, id, s); }
    NoProcNoCut(w, id, s);
    hide CrashLog, Cuts, CutsFailure, CutsRequest, CutsChild, Count;
  }

  lemma {:induction false} NoProcNoCut(w: World, id: TicketId, s: StepId)
    ensures w.proc.None? ==> !Cuts(w, Crash, id, s) && !CutsRequest(w, Crash, id) && !CutsFailure(w, Crash, id) && !CutsChild(w, Crash, id)
  {
  }

  lemma {:induction false} LogCrashOf(cfg: Config, w: World, p: Proc, id: TicketId, s: StepId)
    requires w.proc == Some(p)
    ensures var h, h' := w.log, CrashLog(cfg, w.log, p);
      && h'.executions == h.executions
      && Count(h'.cuts, id, s) == Count(h.cuts, id, s) + One(Cuts(w, Crash, id, s))
      && (id in h'.requestCut <==> id in h.requestCut || CutsRequest(w, Crash, id))
      && (id in h'.failCut <==> id in h.failCut || CutsFailure(w, Crash, id))
      && (id in h'.orphans <==> id in h.orphans || CutsChild(w, Crash, id))
  {
    hide Locate, Count, Next, RecordAt;
    if (p.pc.Execute? || p.pc.WriteObservation?) && OnStep(p, p.pc.scan) {
      CountAppend(w.log.cuts, Execution(p.id, StepAt(p, p.pc.scan)), id, s);
    }
  }

  /** The history fields say exactly what happened in the run. */
  lemma {:induction false} LogIsHistory(cfg: Config, es: seq<Event>, id: TicketId, s: StepId)
    ensures var h := After(cfg, es).log;
      && Count(h.executions, id, s) == ExecutionsIn(cfg, es, id, s)
      && Count(h.cuts, id, s) == CutsIn(cfg, es, id, s)
      && (id in h.requestCut <==> RequestCrash(cfg, es, id))
      && (id in h.failCut <==> FailureCrash(cfg, es, id))
      && (id in h.orphans <==> ChildCrash(cfg, es, id))
  {
    if es != [] {
      hide RequestCrash, FailureCrash, ChildCrash, Next, Count, CutsFailure, AtExecute, AtObservation, BeingRecorded, InRequest;
      var n := |es| - 1;
      var w, e := After(cfg, es[..n]), es[n];
      LogIsHistory(cfg, es[..n], id, s);
      CrashSplits(cfg, es, id);
      if e.Perform? { LogPerform(cfg, w, e.seen, id, s); NotCrash(w, e, id); }
      else if e.Crash? { LogCrash(cfg, w, id, s); }
      else { LogQuiet(cfg, w, e); NotCrash(w, e, id); }
    }
  }

  lemma {:induction false} NotCrash(w: World, e: Event, id: TicketId)
    requires !e.Crash?
    ensures !CutsFailure(w, e, id)
  {
  }

  // ---- the journal ------------------------------------------------------------------------------

  /**
   Every reachable journal is numbered 1..n, its observed steps are the first steps of the
   plan in order, and the interrupted step is none or exactly the next one.
   */
  lemma {:induction false} JournalFollowsPlan(cfg: Config, es: seq<Event>, id: TicketId)
    requires id in After(cfg, es).tickets
    ensures var t, j := After(cfg, es).tickets[id].saved, After(cfg, es).tickets[id].journal;
      && Numbered(j)
      && (t.plan.None? ==> ObservedIds(j) == [] && OpenIntent(j).None?)
      && (t.plan.Some? ==>
            && |ObservedIds(j)| <= |t.plan.value.steps|
            && (forall m :: 0 <= m < |ObservedIds(j)| ==> ObservedIds(j)[m] == t.plan.value.steps[m].id)
            && (OpenIntent(j).Some? ==>
                  |ObservedIds(j)| < |t.plan.value.steps| && OpenIntent(j).value == t.plan.value.steps[|ObservedIds(j)|].id))
  {
    AlwaysOk(cfg, es);
    var w := After(cfg, es);
    hide Settled, InSync, WorldOk, After;
    RestOf(cfg, w, id);
  }

  lemma {:induction false} RestOf(cfg: Config, w: World, id: TicketId)
    requires WorldOk(cfg, w) && id in w.tickets
    ensures Rest(cfg, Base(w, id), w.tickets[id])
  {
    hide Rest, Runs;
  }

  // ---- no finished step is repeated -------------------------------------------------------------

  /** Only the process working on a ticket writes its files. */
  lemma {:induction false} OnlyWorkerWrites(cfg: Config, w: World, e: Event, id: TicketId)
    requires WorldOk(cfg, w) && id in w.tickets && ProcOf(w, id).None?
    ensures id in Next(cfg, w, e).tickets && Next(cfg, w, e).tickets[id] == w.tickets[id]
  {
    hide Rest, Runs, TickLocal, TickSpawn, TickRca, Locate, CrashLog;
    if e.Tick? && w.proc.Some? && !IsLocal(w.proc.value.pc) && w.proc.value.id in w.tickets && !w.proc.value.pc.SaveNew? {
      SpawnFiles(cfg, w, w.proc.value, id);
    }
  }

  lemma {:induction false} SpawnFiles(cfg: Config, w: World, p: Proc, id: TicketId)
    requires WorldOk(cfg, w) && id in w.tickets && w.proc == Some(p) && !IsLocal(p.pc) && !p.pc.SaveNew?
    ensures id in TickProc(cfg, w, p).tickets && TickProc(cfg, w, p).tickets[id] == w.tickets[id]
  {
    hide Rest, Runs, TickLocal;
    if p.pc.Spawning? || p.pc.SaveChild? || p.pc.RecordChild? {
      SpawnShape(cfg, w, p);
    }
  }

  /** The process on a ticket appends to its journal and nothing else. */
  lemma {:induction false} WorkerAppends(cfg: Config, w: World, e: Event, id: TicketId)
    requires WorldOk(cfg, w) && id in w.tickets && ProcOf(w, id).Some?
    ensures id in Next(cfg, w, e).tickets && w.tickets[id].journal <= Next(cfg, w, e).tickets[id].journal
  {
    hide Rest, Runs, TickLocal, TickSpawn, Locate, CrashLog, Triage, NewFindings;
    var p := w.proc.value;
    if e.Tick? {
      if IsLocal(p.pc) { LocalAppends(cfg, w.tickets[id], p); }
      else if !p.pc.SaveNew? { SpawnFiles(cfg, w, p, id); }
    }
  }

  lemma {:induction false} LocalAppends(cfg: Config, d: Durable, p: Proc)
    requires IsLocal(p.pc)
    ensures d.journal <= TickLocal(cfg, d, p).d.journal
  {
    hide Finish, Locate, FreshRecords, Requests, Completed, OpenIntent, GateResult;
  }

  /** Files come into being once, and journals only grow. */
  lemma {:induction false} JournalGrows(cfg: Config, w: World, e: Event, id: TicketId)
    requires WorldOk(cfg, w) && id in w.tickets
    ensures id in Next(cfg, w, e).tickets && w.tickets[id].journal <= Next(cfg, w, e).tickets[id].journal
  {
    hide Next, WorldOk;
    if ProcOf(w, id).None? { OnlyWorkerWrites(cfg, w, e, id); } else { WorkerAppends(cfg, w, e, id); }
  }

  lemma {:induction false} RunGrows(cfg: Config, es: seq<Event>, i: nat, k: nat, id: TicketId)
    requires i <= k <= |es| && id in After(cfg, es[..i]).tickets
    ensures id in After(cfg, es[..k]).tickets
    ensures After(cfg, es[..i]).tickets[id].journal <= After(cfg, es[..k]).tickets[id].journal
    decreases k
  {
    hide WorldOk, Next;
    if i < k {
      RunGrows(cfg, es, i, k - 1, id);
      AlwaysOk(cfg, es[..k - 1]);
      JournalGrows(cfg, After(cfg, es[..k - 1]), es[k - 1], id);
      assert es[..k][..k - 1] == es[..k - 1];
    }
  }

  lemma {:induction false} ObservedGrows(j: seq<Entry>, j': seq<Entry>)
    requires j <= j'
    ensures ObservedIds(j) <= ObservedIds(j')
    decreases |j'|
  {
    if |j| < |j'| {
      assert j <= j'[..|j'| - 1];
      ObservedGrows(j, j'[..|j'| - 1]);
    } else {
      assert j == j';
    }
  }

  /** The executor only ever receives the first step without an observation. */
  lemma {:induction false} ExecutesNextStep(cfg: Config, w: World, e: Event, id: TicketId, s: StepId)
    requires WorldOk(cfg, w) && Executes(w, e, id, s)
    ensures id in w.tickets && w.tickets[id].saved.plan.Some?
    ensures var ids := ObservedIds(w.tickets[id].journal);
      && s !in ids && |ids| < |w.tickets[id].saved.plan.value.steps|
      && w.tickets[id].saved.plan.value.steps[|ids|].id == s
      && OpenIntent(w.tickets[id].journal) == Some(s)
  {
    hide Rest, Runs;
    var p := w.proc.value;
    assert Local(cfg, Base(w, id), w.tickets[id], p);
    StandsOnStep(cfg, Base(w, id), w.tickets[id], p);
    ExecutePoint(cfg, Base(w, id), w.tickets[id], p);
  }

  /** In every run the executor receives the first unobserved step, its own intent open in the journal. */
  lemma {:induction false} EveryExecutionIsNext(cfg: Config, es: seq<Event>, e: Event, id: TicketId, s: StepId)
    requires Executes(After(cfg, es), e, id, s)
    ensures var w := After(cfg, es);
      && id in w.tickets && w.tickets[id].saved.plan.Some?
      && var ids, steps := ObservedIds(w.tickets[id].journal), w.tickets[id].saved.plan.value.steps;
         s !in ids && |ids| < |steps| && steps[|ids|].id == s && OpenIntent(w.tickets[id].journal) == Some(s)
  {
    hide WorldOk, After, Executes;
    AlwaysOk(cfg, es);
    ExecutesNextStep(cfg, After(cfg, es), e, id, s);
  }

  lemma {:induction false} ExecutePoint(cfg: Config, b: Option<Work>, d: Durable, p: Proc)
    requires Local(cfg, b, d, p) && p.pc.Execute?
    ensures d.saved.state == IsRunning && d.saved.plan.Some? && p.mem == d.saved
    ensures p.pc.scan.i == |ObservedIds(d.journal)| < |d.saved.plan.value.steps|
    ensures OpenIntent(d.journal) == Some(d.saved.plan.value.steps[p.pc.scan.i].id)
  {
    hide Folded, InSync, Ended, Settled, ActingOk, Observed, FreshPlan, FreshRecords, Numbered;
  }

  /**
   Once an observation of a step is in the journal, no later event of any run performs that
   step again.
   */
  lemma {:induction false} FinishedStepNeverRepeats(cfg: Config, es: seq<Event>, i: nat, k: nat, id: TicketId, s: StepId)
    requires i <= k < |es| && id in After(cfg, es[..i]).tickets
    requires s in Completed(After(cfg, es[..i]).tickets[id].journal)
    ensures !Executes(After(cfg, es[..k]), es[k], id, s)
  {
    hide WorldOk, Executes;
    var j, j' := After(cfg, es[..i]).tickets[id].journal, RunJournal(cfg, es, i, k, id);
    CompletedWasObserved(j, s);
    ObservedGrows(j, j');
    AlwaysOk(cfg, es[..k]);
    if Executes(After(cfg, es[..k]), es[k], id, s) {
      ExecutesNextStep(cfg, After(cfg, es[..k]), es[k], id, s);
    }
  }

  ghost function RunJournal(cfg: Config, es: seq<Event>, i: nat, k: nat, id: TicketId): (j: seq<Entry>)
    requires i <= k <= |es| && id in After(cfg, es[..i]).tickets
    ensures id in After(cfg, es[..k]).tickets && j == After(cfg, es[..k]).tickets[id].journal
    ensures After(cfg, es[..i]).tickets[id].journal <= j
  {
    RunGrows(cfg, es, i, k, id);
    After(cfg, es[..k]).tickets[id].journal
  }

  lemma {:induction false} CompletedWasObserved(j: seq<Entry>, s: StepId)
    requires s in Completed(j)
    ensures s in ObservedIds(j)
  {
    if j != [] {
      if IsObservation(j[|j| - 1]) && j[|j| - 1].stepId.value == s {
        assert ObservedIds(j)[|ObservedIds(j)| - 1] == s;
      } else {
        CompletedWasObserved(j[..|j| - 1], s);
        var k :| 0 <= k < |ObservedIds(j[..|j| - 1])| && ObservedIds(j[..|j| - 1])[k] == s;
        assert ObservedIds(j)[k] == s;
      }
    }
  }

  /**
   A step is executed at most once more than crashes fell between its intent and its
   observation, and never more often than its intent was journalled.
   */
  lemma {:induction false} ExecutionsAreBounded(cfg: Config, es: seq<Event>, id: TicketId, s: StepId)
    ensures ExecutionsIn(cfg, es, id, s) <= 1 + CutsIn(cfg, es, id, s)
    ensures var w := After(cfg, es);
      ExecutionsIn(cfg, es, id, s) <= if id in w.tickets then IntentCount(w.tickets[id].journal, s) else 0
  {
    hide WorldOk, ExecutionsIn, CutsIn, After, RequestCrash, FailureCrash, ChildCrash;
    LogIsHistory(cfg, es, id, s);
    AlwaysGuarded(cfg, es);
    var w := After(cfg, es);
    if id in w.tickets {
      CountOf(cfg, w, id, s);
    } else {
      hide Guarded;
      CountAbsent(w.log.executions, id, s);
    }
  }

  lemma {:induction false} CountOf(cfg: Config, w: World, id: TicketId, s: StepId)
    requires WorldOk(cfg, w) && GuardsOk(cfg, w) && id in w.tickets
    ensures Count(w.log.executions, id, s) <= 1 + Count(w.log.cuts, id, s)
    ensures Count(w.log.executions, id, s) <= IntentCount(w.tickets[id].journal, s)
  {
    hide CleanOk, ApprovalsOk, Rest, Runs;
    var v, j := ProcOf(w, id), w.tickets[id].journal;
    assert CountsOk(w.log, id, w.tickets[id], v);
    assert CountOk(Count(w.log.executions, id, s), Count(w.log.cuts, id, s), j, v, s);
    if AtObservation(v, s) {
      assert Local(cfg, Base(w, id), w.tickets[id], v.value);
      StandsOnStep(cfg, Base(w, id), w.tickets[id], v.value);
    }
  }

  // ---- recovery equals the uncrashed run ----------------------------------------------------------

  lemma {:induction false} GuardOf(cfg: Config, w: World, id: TicketId)
    requires WorldOk(cfg, w) && GuardsOk(cfg, w) && id in w.tickets
    ensures Rest(cfg, Base(w, id), w.tickets[id])
    ensures Guarded(cfg, Base(w, id), w.log, id, w.tickets[id], ProcOf(w, id))
    ensures ProcOf(w, id).Some? ==> Local(cfg, Base(w, id), w.tickets[id], w.proc.value)
  {
    hide Rest, Runs, Guarded;
  }

  /** ACT has just ended: its last transition is in the journal, not yet saved. */
  predicate ActEnded(w: World, id: TicketId) {
    ProcOf(w, id).Some? && w.proc.value.pc == Saving(IsAnalysing)
  }

  /**
   However often the process crashed and was resumed, ACT ends with the work an uncrashed run
   computes from the journalled observations, unless a crash fell between a failing
   observation and the save of its record.
   */
  lemma {:induction false} RecoveryEquivalence(cfg: Config, es: seq<Event>, id: TicketId)
    requires id in After(cfg, es).tickets && ActEnded(After(cfg, es), id) && !FailureCrash(cfg, es, id)
    ensures var w, from := After(cfg, es), SubmissionOf(cfg, es, id);
      var plan, seen := w.proc.value.mem.plan, Observations(w.tickets[id].journal);
      && plan.Some? && IsSubmitted(cfg, es, id, plan.value) && id in w.log.planned
      && w.log.planned[id] == PlannedWork(from.value, plan.value) && w.log.planned[id].steps == FreshRecords(plan.value)
      && IsWholeFeed(cfg.verify, plan.value, seen)
      && w.proc.value.mem.work == Uncrashed(cfg.verify, plan.value, PlannedWork(from.value, plan.value), 0, seen)
  {
    hide WorldOk, GuardsOk, After, RequestCrash, ChildCrash, FailureCrash, SubmissionOf, PlannedFrom;
    AlwaysGuarded(cfg, es);
    LogIsHistory(cfg, es, id, "");
    var w := After(cfg, es);
    GuardOf(cfg, w, id);
    EndPoint(cfg, Base(w, id), w.tickets[id], w.proc.value);
    PlanIsSubmitted(cfg, es, id);
    var plan, seen := w.proc.value.mem.plan.value, Observations(w.tickets[id].journal);
    assert seen[..|seen|] == seen;
    ReplayIsUncrashed(cfg.verify, plan, w.log.planned[id], seen);
  }

  /** The plan is that of the submission the ticket's number was taken for, as the gate expanded it. */
  predicate IsSubmitted(cfg: Config, es: seq<Event>, id: TicketId, plan: Plan) {
    var from := SubmissionOf(cfg, es, id);
    from.Some? && Submit(from.value) in es && from.value.agent == id.agent && PlannedFrom(cfg, from.value, plan)
  }

  /**
   With crashes anywhere: ACT ends with the fold over the journalled observations, or with a step
   marked running that the fold has not or not yet observed. The latter only behind a failed
   record, and only if a crash fell between a failing observation and the save of its record.
   */
  lemma {:induction false} ActEndsWith(cfg: Config, es: seq<Event>, id: TicketId)
    requires id in After(cfg, es).tickets && ActEnded(After(cfg, es), id)
    ensures var w, from := After(cfg, es), SubmissionOf(cfg, es, id);
      var plan, seen, work := w.proc.value.mem.plan, Observations(w.tickets[id].journal), w.proc.value.mem.work;
      && plan.Some? && IsSubmitted(cfg, es, id, plan.value) && |seen| <= |plan.value.steps|
      && var base, k := PlannedWork(from.value, plan.value), |seen|;
         && (|| work == Replay(cfg.verify, plan.value, base, seen)
             || (k < |plan.value.steps| && work == MarkRunning(Replay(cfg.verify, plan.value, base, seen), k))
             || (k > 0 && work == MarkRunning(Replay(cfg.verify, plan.value, base, seen[..k - 1]), k - 1)))
         && (HasFailedStep(work) || k == |plan.value.steps|)
         && (work != Replay(cfg.verify, plan.value, base, seen) ==> HasFailedStep(work) && FailureCrash(cfg, es, id))
  {
    hide WorldOk, GuardsOk, After, FailureCrash, SubmissionOf, PlannedFrom, Replay, MarkRunning, Uncrashed, FreshRecords;
    AlwaysGuarded(cfg, es);
    var w := After(cfg, es);
    GuardOf(cfg, w, id);
    EndForms(cfg, Base(w, id), w.tickets[id], w.proc.value);
    PlanIsSubmitted(cfg, es, id);
    if !FailureCrash(cfg, es, id) {
      RecoveryEquivalence(cfg, es, id);
      ReplayIsUncrashed(cfg.verify, w.proc.value.mem.plan.value, w.log.planned[id], Observations(w.tickets[id].journal));
    }
  }

  lemma {:induction false} EndForms(cfg: Config, b: Option<Work>, d: Durable, p: Proc)
    requires Local(cfg, b, d, p) && p.pc == Saving(IsAnalysing)
    ensures p.mem.plan == d.saved.plan && PlanReady(b, d.saved) && |Observations(d.journal)| <= |d.saved.plan.value.steps|
    ensures var plan, seen, work := d.saved.plan.value, Observations(d.journal), p.mem.work;
      var k := |seen|;
      && (|| work == Replay(cfg.verify, plan, b.value, seen)
          || (k < |plan.steps| && work == MarkRunning(Replay(cfg.verify, plan, b.value, seen), k))
          || (k > 0 && work == MarkRunning(Replay(cfg.verify, plan, b.value, seen[..k - 1]), k - 1)))
      && (HasFailedStep(work) || (work == Replay(cfg.verify, plan, b.value, seen) && k == |plan.steps|))
  {
    hide Replay, MarkRunning, FreshRecords, HasFailedStep, Settled, Numbered;
    var seen := Observations(d.journal);
    assert seen[..|seen|] == seen;
    assert Ended(cfg, b, d.saved, ViewOf(d.journal), p.mem.work);
  }

  /**
   At the end of ACT each vote and each export is on the ticket once if and only if the plan
   cross-check told each once and no journalled observation repeats one that it is the first to bring.
   */
  lemma {:induction false} AttachedOnceIff(cfg: Config, es: seq<Event>, id: TicketId)
    requires id in After(cfg, es).tickets && ActEnded(After(cfg, es), id) && !FailureCrash(cfg, es, id)
    ensures var w := After(cfg, es);
      var work, seen := w.proc.value.mem.work, Observations(w.tickets[id].journal);
      && SubmissionOf(cfg, es, id).Some?
      && (Once(VoteKey, work.votes) <==> VotesToldOnce(CheckVotes(SubmissionOf(cfg, es, id).value), seen))
      && (Once(ExportKey, work.exports) <==> ExportsToldOnce([], seen))
  {
    hide After, FailureCrash, Observations, FreshRecords, Uncrashed, Replay, VotesToldOnce, ExportsToldOnce, Once, SubmissionOf, PlannedFrom;
    RecoveryEquivalence(cfg, es, id);
    var w := After(cfg, es);
    var plan, base, seen := w.proc.value.mem.plan.value, w.log.planned[id], Observations(w.tickets[id].journal);
    ReplayIsUncrashed(cfg.verify, plan, base, seen);
    ReplayIsOnceIff(cfg.verify, plan, base, seen);
  }

  lemma {:induction false} EndPoint(cfg: Config, b: Option<Work>, d: Durable, p: Proc)
    requires Local(cfg, b, d, p) && p.pc == Saving(IsAnalysing) && CleanOk(cfg, b, d, Some(p))
    ensures p.mem.plan == d.saved.plan && PlanReady(b, d.saved)
    ensures IsWholeFeed(cfg.verify, d.saved.plan.value, Observations(d.journal))
    ensures p.mem.work == Folded(cfg, b, d.saved, ViewOf(d.journal), |Observations(d.journal)|)
  {
    hide InSync, Ended, Settled, ActingOk, Performing, Observing, Observed, FreshPlan, FreshRecords, Numbered, Folded, Passing, FailureKept;
  }

  /** Two such runs with the same plan, planned work and observations end ACT alike. */
  lemma {:induction false} SameObservationsSameWork(cfg: Config, es: seq<Event>, es': seq<Event>, id: TicketId, id': TicketId)
    requires id in After(cfg, es).tickets && ActEnded(After(cfg, es), id) && !FailureCrash(cfg, es, id)
    requires id' in After(cfg, es').tickets && ActEnded(After(cfg, es'), id') && !FailureCrash(cfg, es', id')
    requires After(cfg, es).proc.value.mem.plan == After(cfg, es').proc.value.mem.plan
    requires id in After(cfg, es).log.planned && id' in After(cfg, es').log.planned
    requires After(cfg, es).log.planned[id] == After(cfg, es').log.planned[id']
    requires Observations(After(cfg, es).tickets[id].journal) == Observations(After(cfg, es').tickets[id'].journal)
    ensures After(cfg, es).proc.value.mem.work == After(cfg, es').proc.value.mem.work
  {
    hide After, FailureCrash;
    RecoveryEquivalence(cfg, es, id);
    RecoveryEquivalence(cfg, es', id');
  }

  /** Nor does it matter when or under which number the submission ran. */
  lemma {:induction false} SameSubmissionSameWork(cfg: Config, es: seq<Event>, es': seq<Event>, id: TicketId, id': TicketId)
    requires id in After(cfg, es).tickets && ActEnded(After(cfg, es), id) && !FailureCrash(cfg, es, id)
    requires id' in After(cfg, es').tickets && ActEnded(After(cfg, es'), id') && !FailureCrash(cfg, es', id')
    requires SubmissionOf(cfg, es, id) == SubmissionOf(cfg, es', id')
    requires Observations(After(cfg, es).tickets[id].journal) == Observations(After(cfg, es').tickets[id'].journal)
    ensures After(cfg, es).proc.value.mem.plan == After(cfg, es').proc.value.mem.plan
    ensures After(cfg, es).proc.value.mem.work == After(cfg, es').proc.value.mem.work
  {
    hide After, FailureCrash, Uncrashed, SubmissionOf, FreshRecords;
    RecoveryEquivalence(cfg, es, id);
    RecoveryEquivalence(cfg, es', id');
  }

  // ---- approval before destruction ------------------------------------------------------------------

  /** The submitted step of that id destroys. */
  predicate SubmittedDestructive(cfg: Config, sub: Submission, s: StepId) {
    exists m :: 0 <= m < |sub.plan.steps| && sub.plan.steps[m].id == s && Destroys(cfg, sub, sub.plan.steps[m])
  }

  /** The executor receives the submitted step at its place in the plan, destructive exactly if that one destroys. */
  lemma {:induction false} ExecutedRiskIff(cfg: Config, es: seq<Event>, e: Event, id: TicketId, s: StepId)
    requires Executes(After(cfg, es), e, id, s)
    ensures var w, from := After(cfg, es), SubmissionOf(cfg, es, id);
      && id in w.tickets && w.tickets[id].saved.plan.Some? && IsSubmitted(cfg, es, id, w.tickets[id].saved.plan.value)
      && (StepAt(w.proc.value, w.proc.value.pc.scan).risk == Destructive <==> SubmittedDestructive(cfg, from.value, s))
  {
    hide WorldOk, After, Locate, SubmissionOf, PlannedFrom, Destroys;
    AlwaysOk(cfg, es);
    var w := After(cfg, es);
    ExecutesNextStep(cfg, w, e, id, s);
    PlanIsSubmitted(cfg, es, id);
    AtPlanStep(cfg, w, id);
    var sub, plan, m := SubmissionOf(cfg, es, id).value, w.tickets[id].saved.plan.value, w.proc.value.pc.scan.i;
    PlannedRisk(cfg, sub, plan, m);
    UniqueStep(cfg, sub, plan, m);
  }

  /**
   A skill step the executor receives stands in the submitted plan, and its skill was in the library,
   open to the ticket's agent, turned on for it and compiled to the risks the step carries.
   */
  lemma {:induction false} ExecutedSkillIsAdmitted(cfg: Config, es: seq<Event>, e: Event, id: TicketId, s: StepId)
    requires Executes(After(cfg, es), e, id, s) && cfg.gate.Some?
    ensures var w, from := After(cfg, es), SubmissionOf(cfg, es, id);
      var step := StepAt(w.proc.value, w.proc.value.pc.scan);
      && from.Some? && Submit(from.value) in es && from.value.agent == id.agent
      && exists m :: 0 <= m < |from.value.plan.steps| && from.value.plan.steps[m].id == s
           && Gated(cfg.gate.value, from.value.plan.steps[m], step, from.value.plan.jobId, id.agent)
  {
    hide WorldOk, After, Locate, SubmissionOf, PlannedFrom, Gated;
    AlwaysOk(cfg, es);
    var w := After(cfg, es);
    ExecutesNextStep(cfg, w, e, id, s);
    PlanIsSubmitted(cfg, es, id);
    AtPlanStep(cfg, w, id);
    var sub, plan, m := SubmissionOf(cfg, es, id).value, w.tickets[id].saved.plan.value, w.proc.value.pc.scan.i;
    PlannedRisk(cfg, sub, plan, m);
    PlannedStepIsGated(cfg, sub, plan, m);
    assert sub.plan.steps[m].id == s;
  }

  lemma {:induction false} AtPlanStep(cfg: Config, w: World, id: TicketId)
    requires WorldOk(cfg, w) && id in w.tickets && ProcOf(w, id).Some? && w.proc.value.pc.Execute?
    ensures var d, p := w.tickets[id], w.proc.value;
      && d.saved.plan.Some? && p.pc.scan.i < |d.saved.plan.value.steps| && OnStep(p, p.pc.scan)
      && StepAt(p, p.pc.scan) == d.saved.plan.value.steps[p.pc.scan.i]
  {
    hide Rest, Runs, Locate;
    var d, p := w.tickets[id], w.proc.value;
    assert Local(cfg, Base(w, id), d, p);
    ExecutePoint(cfg, Base(w, id), d, p);
    StandsOnStep(cfg, Base(w, id), d, p);
  }

  /** Submitted steps have their own ids, so the one that was asked about is meant. */
  lemma {:induction false} UniqueStep(cfg: Config, sub: Submission, plan: Plan, m: nat)
    requires PlannedFrom(cfg, sub, plan) && m < |plan.steps| == |sub.plan.steps|
    ensures SubmittedDestructive(cfg, sub, sub.plan.steps[m].id) <==> Destroys(cfg, sub, sub.plan.steps[m])
  {
    hide Destroys, GateResult;
  }

  /**
   The executor receives a destructive step, or one whose submission was destructive or compiled to
   a destructive step, only when an approval for that step id is stored, unless a crash fell
   between the Planned save and the save of the requests.
   */
  lemma {:induction false} DestructiveStepIsApproved(cfg: Config, es: seq<Event>, e: Event, id: TicketId, s: StepId)
    requires Executes(After(cfg, es), e, id, s) && !RequestCrash(cfg, es, id)
    requires || StepAt(After(cfg, es).proc.value, After(cfg, es).proc.value.pc.scan).risk == Destructive
             || (SubmissionOf(cfg, es, id).Some? && SubmittedDestructive(cfg, SubmissionOf(cfg, es, id).value, s))
    ensures id in After(cfg, es).tickets && Stored(After(cfg, es).tickets[id].saved.approvals, s)
  {
    hide WorldOk, GuardsOk, After, RequestCrash, ChildCrash, FailureCrash, Locate, Stored, SubmissionOf, SubmittedDestructive, PlannedFrom;
    AlwaysGuarded(cfg, es);
    LogIsHistory(cfg, es, id, s);
    ExecutedRiskIff(cfg, es, e, id, s);
    var w := After(cfg, es);
    ExecutesNextStep(cfg, w, e, id, s);
    GuardOf(cfg, w, id);
    AtPlanStep(cfg, w, id);
    var d, p := w.tickets[id], w.proc.value;
    hide Rest, Runs, CleanOk, CountsOk;
    ExecutePoint(cfg, Base(w, id), d, p);
    assert AllApproved(d.saved.plan.value, d.saved.approvals);
  }

  /**
   Exactly then: past PLANNED, or in PLANNED with no request being written, a ticket with a
   destructive plan has asked for all its destructive steps if and only if no such crash fell.
   */
  lemma {:induction false} RequestsSavedIffNoCrash(cfg: Config, es: seq<Event>, id: TicketId)
    requires id in After(cfg, es).tickets && !InRequest(ProcOf(After(cfg, es), id))
    requires After(cfg, es).tickets[id].saved.plan.Some? && After(cfg, es).tickets[id].saved.plan.value.IsDestructive()
    ensures var t := After(cfg, es).tickets[id].saved;
      && (AllAsked(t.plan.value, t.approvals) <==> !RequestCrash(cfg, es, id))
      && (t.state != IsPlanned ==> (AllApproved(t.plan.value, t.approvals) <==> !RequestCrash(cfg, es, id)))
      && (RequestCrash(cfg, es, id) ==> t.approvals == [])
  {
    hide WorldOk, GuardsOk, After, RequestCrash, ChildCrash, FailureCrash;
    AlwaysGuarded(cfg, es);
    LogIsHistory(cfg, es, id, "");
    var w := After(cfg, es);
    GuardOf(cfg, w, id);
    hide Rest, CleanOk, CountsOk;
    var t := w.tickets[id].saved;
    var i :| 0 <= i < |t.plan.value.steps| && t.plan.value.steps[i].risk == Destructive;
    if AllApproved(t.plan.value, t.approvals) { ApprovedWasAsked(t.plan.value, t.approvals); }
    if t.approvals == [] { assert !Asked(t.approvals, t.plan.value.steps[i].id); }
  }

  lemma {:induction false} ApprovedWasAsked(plan: Plan, approvals: seq<Approval>)
    requires AllApproved(plan, approvals)
    ensures AllAsked(plan, approvals)
  {
    forall i | 0 <= i < |plan.steps| && plan.steps[i].risk == Destructive ensures Asked(approvals, plan.steps[i].id) {
      assert Stored(approvals, plan.steps[i].id);
      var a :| 0 <= a < |approvals| && approvals[a] == Approval(plan.steps[i].id, Some(true));
      assert approvals[a].stepId == plan.steps[i].id;
    }
  }

  /** Stored approvals, on disk or in memory, each go back to an approve call for that step. */
  ghost predicate FromPeople(es: seq<Event>, w: World) {
    && (forall id, s :: id in w.tickets && Stored(w.tickets[id].saved.approvals, s) ==> Approve(id, s) in es)
    && (forall s :: w.proc.Some? && Stored(w.proc.value.mem.approvals, s) ==> Approve(w.proc.value.id, s) in es)
  }

  lemma {:induction false} RequestsStoreNothing(steps: seq<Step>, s: StepId)
    ensures !Stored(Requests(steps), s)
  {
    if steps != [] {
      RequestsStoreNothing(steps[1..], s);
      var r, rest := Requests(steps), Requests(steps[1..]);
      forall a | 0 <= a < |r| ensures r[a] != Approval(s, Some(true)) {
        if steps[0].risk == Destructive { if a > 0 { assert r[a] == rest[a - 1]; } } else { assert r == rest; }
      }
    }
  }

  lemma {:induction false} LocalApprovals(cfg: Config, d: Durable, p: Proc, s: StepId)
    requires IsLocal(p.pc)
    ensures var m := TickLocal(cfg, d, p);
      && (Stored(m.d.saved.approvals, s) ==> Stored(d.saved.approvals, s) || Stored(p.mem.approvals, s))
      && (m.proc.Some? ==> m.proc.value.id == p.id && (Stored(m.proc.value.mem.approvals, s) ==> Stored(p.mem.approvals, s)))
  {
    hide Finish, Locate, FreshRecords, Requests, Completed, OpenIntent, GateResult, Append, Stored;
    if p.mem.plan.Some? { RequestsStoreNothing(p.mem.plan.value.steps, s); }
  }

  lemma {:induction false} PeopleStep(cfg: Config, es: seq<Event>, w: World, e: Event)
    requires WorldOk(cfg, w) && FromPeople(es, w)
    ensures FromPeople(es + [e], Next(cfg, w, e))
  {
    hide Rest, Runs, TickLocal, TickSpawn, Locate, CrashLog, Triage, NewFindings, Stored, Completed, OpenIntent, Links;
    var w' := Next(cfg, w, e);
    forall id, s | id in w'.tickets && Stored(w'.tickets[id].saved.approvals, s) ensures Approve(id, s) in es + [e] {
      if id in w.tickets && w'.tickets[id].saved == w.tickets[id].saved {
      } else { ChangedApprovals(cfg, w, e, id, s); }
    }
    forall s | w'.proc.Some? && Stored(w'.proc.value.mem.approvals, s) ensures Approve(w'.proc.value.id, s) in es + [e] {
      MemoryApprovals(cfg, w, e, s);
    }
  }

  lemma {:induction false} ChangedApprovals(cfg: Config, w: World, e: Event, id: TicketId, s: StepId)
    requires WorldOk(cfg, w) && id in Next(cfg, w, e).tickets && Stored(Next(cfg, w, e).tickets[id].saved.approvals, s)
    requires id in w.tickets ==> Next(cfg, w, e).tickets[id].saved != w.tickets[id].saved
    ensures w.proc.Some? && w.proc.value.id == id
    ensures Stored(w.proc.value.mem.approvals, s) || (id in w.tickets && Stored(w.tickets[id].saved.approvals, s))
  {
    hide WorldOk, TickProc, Locate, CrashLog, Triage, NewFindings, Completed, OpenIntent, Links, SequenceOf, FirstPending;
    if e.Tick? && w.proc.Some? { TickChanges(cfg, w, w.proc.value, id, s); }
  }

  lemma {:induction false} TickChanges(cfg: Config, w: World, p: Proc, id: TicketId, s: StepId)
    requires WorldOk(cfg, w) && w.proc == Some(p) && id in TickProc(cfg, w, p).tickets
    ensures id != p.id && id in w.tickets ==> TickProc(cfg, w, p).tickets[id] == w.tickets[id]
    ensures id != p.id && id !in w.tickets ==> TickProc(cfg, w, p).tickets[id].saved.approvals == []
    ensures id == p.id && Stored(TickProc(cfg, w, p).tickets[id].saved.approvals, s) ==>
      Stored(p.mem.approvals, s) || (id in w.tickets && Stored(w.tickets[id].saved.approvals, s))
  {
    hide WorldOk, TickLocal, TickSpawn, Stored;
    if IsLocal(p.pc) && p.id in w.tickets { LocalApprovals(cfg, w.tickets[p.id], p, s); }
    if p.pc.Spawning? || p.pc.SaveChild? || p.pc.RecordChild? { SpawnShape(cfg, w, p); }
  }

  lemma {:induction false} MemoryApprovals(cfg: Config, w: World, e: Event, s: StepId)
    requires WorldOk(cfg, w) && Next(cfg, w, e).proc.Some? && Stored(Next(cfg, w, e).proc.value.mem.approvals, s)
    ensures var id := Next(cfg, w, e).proc.value.id;
      || e == Approve(id, s)
      || (w.proc.Some? && w.proc.value.id == id && Stored(w.proc.value.mem.approvals, s))
      || (id in w.tickets && Stored(w.tickets[id].saved.approvals, s))
  {
    hide WorldOk, TickProc, Locate, CrashLog, Triage, NewFindings, Completed, OpenIntent, Links, SequenceOf, FirstPending;
    if e.Tick? && w.proc.Some? { TickApprovals(cfg, w, w.proc.value, s); }
    if e.Approve? && e.id in w.tickets { StoredByApprove(w.tickets[e.id].saved.approvals, e.stepId, s); }
  }

  lemma {:induction false} StoredByApprove(approvals: seq<Approval>, x: StepId, s: StepId)
    ensures var i := FirstPending(approvals, x);
      i < |approvals| && Stored(approvals[i := Approval(x, Some(true))], s) ==> x == s || Stored(approvals, s)
  {
    hide FirstPending;
  }

  /** A tick puts no approval into memory that was not there. */
  lemma {:induction false} TickApprovals(cfg: Config, w: World, p: Proc, s: StepId)
    requires w.proc == Some(p)
    ensures var w' := TickProc(cfg, w, p);
      w'.proc.Some? ==> w'.proc.value.id == p.id && (Stored(w'.proc.value.mem.approvals, s) ==> Stored(p.mem.approvals, s))
  {
    hide TickLocal, Links, SequenceOf, ChildTicket, Linked, Stored;
    if IsLocal(p.pc) && p.id in w.tickets { LocalApprovals(cfg, w.tickets[p.id], p, s); }
  }

  lemma {:induction false} ApprovalsComeFromPeople(cfg: Config, es: seq<Event>)
    ensures FromPeople(es, After(cfg, es))
  {
    hide WorldOk, FromPeople, Next;
    if es != [] {
      var n := |es| - 1;
      ApprovalsComeFromPeople(cfg, es[..n]);
      AlwaysOk(cfg, es[..n]);
      PeopleStep(cfg, es[..n], After(cfg, es[..n]), es[n]);
      assert es[..n] + [es[n]] == es;
    } else {
      InitialFromPeople();
    }
  }

  lemma {:induction false} InitialFromPeople()
    ensures FromPeople([], INITIAL)
  {
  }

  /** So a destructive step reaches the executor only behind an approve call for it. */
  lemma {:induction false} DestructionNeedsAPerson(cfg: Config, es: seq<Event>, e: Event, id: TicketId, s: StepId)
    requires Executes(After(cfg, es), e, id, s) && !RequestCrash(cfg, es, id)
    requires || StepAt(After(cfg, es).proc.value, After(cfg, es).proc.value.pc.scan).risk == Destructive
             || (SubmissionOf(cfg, es, id).Some? && SubmittedDestructive(cfg, SubmissionOf(cfg, es, id).value, s))
    ensures Approve(id, s) in es
  {
    hide Stored, After, RequestCrash, SubmissionOf, SubmittedDestructive;
    DestructiveStepIsApproved(cfg, es, e, id, s);
    ApprovalsComeFromPeople(cfg, es);
  }

  // ---- Done is sound and final ------------------------------------------------------------------------

  /**
   With crashes anywhere: a Done ticket has, for every plan step, a journalled observation the
   agent judged ok and a record that carries it, and it has no finding.
   */
  lemma {:induction false} DoneIsSound(cfg: Config, es: seq<Event>, id: TicketId)
    requires id in After(cfg, es).tickets && After(cfg, es).tickets[id].saved.state == IsDone
    ensures var t, seen := After(cfg, es).tickets[id].saved, Observations(After(cfg, es).tickets[id].journal);
      && t.work.findings == [] && t.plan.Some? && |seen| == |t.plan.value.steps| == |t.work.steps|
      && ObservedIds(After(cfg, es).tickets[id].journal) == seq(|seen|, m requires 0 <= m < |seen| => t.plan.value.steps[m].id)
      && forall m :: 0 <= m < |seen| ==>
           var step := t.plan.value.steps[m];
           cfg.verify(step, seen[m]) == Ok && t.work.steps[m] == StepRecord(step.id, Done, Some(seen[m]), Some(Ok))
  {
    AlwaysOk(cfg, es);
    var w := After(cfg, es);
    hide WorldOk, After;
    RestOf(cfg, w, id);
    DoneRest(cfg, Base(w, id), w.tickets[id]);
    hide Rest;
  }

  lemma {:induction false} DoneRest(cfg: Config, b: Option<Work>, d: Durable)
    requires Rest(cfg, b, d) && d.saved.state == IsDone
    ensures var t, v := d.saved, ViewOf(d.journal);
      && t.work.findings == [] && t.plan.Some? && |v.seen| == |t.plan.value.steps| == |t.work.steps|
      && |v.ids| == |v.seen| && (forall m :: 0 <= m < |v.ids| ==> v.ids[m] == t.plan.value.steps[m].id)
      && forall m :: 0 <= m < |v.seen| ==>
           Passed(cfg.verify, t.plan.value.steps[m], v.seen[m])
           && t.work.steps[m] == FinishedRecord(cfg.verify, t.plan.value.steps[m], v.seen[m])
  {
    hide InSync, Replay, Finish, FreshRecords;
    var t, v := d.saved, ViewOf(d.journal);
    var x: Work :| Ended(cfg, b, t, v, x) && Extends(x, t.work);
    assert !HasFailedStep(x);
    FoldedRecords(cfg, b, t, v, |v.seen|);
    assert forall m :: 0 <= m < |v.seen| ==> t.work.steps[m].status != Failed;
  }

  /** Which of the two a closed ticket is: Done if and only if no step failed and there is no finding. */
  lemma {:induction false} DoneIff(cfg: Config, es: seq<Event>, id: TicketId)
    requires id in After(cfg, es).tickets && After(cfg, es).tickets[id].saved.state in {IsDone, IsNeedsReview}
    ensures var t := After(cfg, es).tickets[id].saved;
      t.state == IsDone <==> t.work.findings == [] && forall m :: 0 <= m < |t.work.steps| ==> t.work.steps[m].status != Failed
  {
    hide WorldOk, After;
    AlwaysOk(cfg, es);
    var w := After(cfg, es);
    RestOf(cfg, w, id);
    hide Settled, PlanReady, Journaled;
  }

  /** The moves a saved ticket makes, of those its states allow. */
  predicate Follows(a: TicketState, c: TicketState) {
    || a == c
    || (a, c) in {(IsOpen, IsPlanned), (IsOpen, IsFailed), (IsPlanned, IsApproved), (IsApproved, IsRunning),
                  (IsRunning, IsAnalysing), (IsAnalysing, IsNeedsReview), (IsAnalysing, IsDone)}
  }

  lemma {:induction false} SavedFollows(cfg: Config, b: Option<Work>, d: Durable, p: Proc)
    requires Local(cfg, b, d, p) && Saves(p.pc)
    ensures Follows(d.saved.state, p.mem.state)
  {
    hide Folded, InSync, Ended, Settled, ActingOk, Performing, Observing, Observed, Requests, HasPendingApproval, PlanReady, Journaled, Numbered, ViewOf;
  }

  /** Whatever happens, a saved ticket goes on to the next state or stays: no state is skipped and none taken back. */
  lemma {:induction false} StatesFollow(cfg: Config, es: seq<Event>, e: Event, id: TicketId)
    requires id in After(cfg, es).tickets
    ensures id in After(cfg, es + [e]).tickets
    ensures Follows(After(cfg, es).tickets[id].saved.state, After(cfg, es + [e]).tickets[id].saved.state)
  {
    assert (es + [e])[..|es + [e]| - 1] == es;
    AlwaysOk(cfg, es);
    var w := After(cfg, es);
    assert After(cfg, es + [e]) == Next(cfg, w, e);
    hide After;
    if ProcOf(w, id).None? {
      hide Next, WorldOk;
      OnlyWorkerWrites(cfg, w, e, id);
    } else {
      WorkerFollows(cfg, w, e, id);
    }
  }

  lemma {:induction false} WorkerFollows(cfg: Config, w: World, e: Event, id: TicketId)
    requires WorldOk(cfg, w) && id in w.tickets && ProcOf(w, id).Some?
    ensures id in Next(cfg, w, e).tickets && Follows(w.tickets[id].saved.state, Next(cfg, w, e).tickets[id].saved.state)
  {
    hide Rest, Runs, TickLocal, TickSpawn, Locate, CrashLog, Follows;
    var p := w.proc.value;
    SameFollows(w.tickets[id].saved.state);
    if e.Tick? {
      if IsLocal(p.pc) {
        assert Local(cfg, Base(w, id), w.tickets[id], p);
        LocalShape(cfg, w.tickets[id], p);
        if Saves(p.pc) { SavedFollows(cfg, Base(w, id), w.tickets[id], p); }
      } else if !p.pc.SaveNew? {
        SpawnFiles(cfg, w, p, id);
      }
    }
  }

  lemma {:induction false} SameFollows(a: TicketState)
    ensures Follows(a, a)
  {
  }

  /** A ticket closed as Done, Failed or Needs review never changes again, whatever is called. */
  lemma {:induction false} ClosedIsFinal(cfg: Config, es: seq<Event>, more: seq<Event>, id: TicketId)
    requires id in After(cfg, es).tickets
    requires After(cfg, es).tickets[id].saved.state in {IsDone, IsFailed, IsNeedsReview}
    ensures id in After(cfg, es + more).tickets && After(cfg, es + more).tickets[id] == After(cfg, es).tickets[id]
    decreases |more|
  {
    hide Next, WorldOk, GuardsOk;
    if more == [] {
      assert es + more == es;
    } else {
      var n := |more| - 1;
      ClosedIsFinal(cfg, es, more[..n], id);
      var before := es + more[..n];
      assert (es + more)[..|es + more| - 1] == before && (es + more)[|es + more| - 1] == more[n];
      AlwaysGuarded(cfg, before);
      NobodyWorksOnClosed(cfg, After(cfg, before), id);
      OnlyWorkerWrites(cfg, After(cfg, before), more[n], id);
    }
  }

  lemma {:induction false} NobodyWorksOnClosed(cfg: Config, w: World, id: TicketId)
    requires WorldOk(cfg, w) && GuardsOk(cfg, w) && id in w.tickets
    requires w.tickets[id].saved.state in {IsDone, IsFailed, IsNeedsReview}
    ensures ProcOf(w, id).None?
  {
    GuardOf(cfg, w, id);
    hide WorldOk, GuardsOk, CleanOk, CountsOk, Rest, Runs, ApprovalsOk;
    if ProcOf(w, id).Some? { WorkedOnIsOpen(cfg, Base(w, id), id in w.log.requestCut, w.tickets[id], w.proc.value); }
  }

  /** The ticket a process works on is saved in a state that is not final. */
  lemma {:induction false} WorkedOnIsOpen(cfg: Config, b: Option<Work>, cut: bool, d: Durable, p: Proc)
    requires Local(cfg, b, d, p) && ApprovalsOk(cut, d, Some(p))
    ensures d.saved.state !in {IsDone, IsFailed, IsNeedsReview}
  {
    hide Rest, Folded, InSync, Ended, Settled, ActingOk, Performing, Observing, Observed, FreshRecords, ViewOf, Numbered, AllAsked, AllApproved, Requests;
  }

  // ---- one bug ticket per fingerprint -----------------------------------------------------------------

  /** Every index entry names a saved bug ticket that carries that fingerprint. */
  lemma {:induction false} IndexNamesItsBug(cfg: Config, es: seq<Event>, fp: Fingerprint)
    requires fp in After(cfg, es).index
    ensures var w := After(cfg, es);
      w.index[fp].ticketId in w.tickets && BugFor(w.tickets[w.index[fp].ticketId].saved, fp)
  {
    hide After;
    AlwaysBugs(cfg, es);
  }

  /**
   Across all tickets sharing the index, a fingerprint has at most one bug ticket, unless a
   crash fell between the save of one of the two and its index record.
   */
  lemma {:induction false} OneBugPerFingerprint(cfg: Config, es: seq<Event>, a: TicketId, c: TicketId, fp: Fingerprint)
    requires a in After(cfg, es).tickets && BugFor(After(cfg, es).tickets[a].saved, fp)
    requires c in After(cfg, es).tickets && BugFor(After(cfg, es).tickets[c].saved, fp)
    requires !ChildCrash(cfg, es, a) && !ChildCrash(cfg, es, c)
    ensures a == c
  {
    hide After, RequestCrash, ChildCrash, FailureCrash, LinksKnown, SpawnOk;
    AlwaysBugs(cfg, es);
    LogIsHistory(cfg, es, a, "");
    LogIsHistory(cfg, es, c, "");
  }

  /** Exactly then: with no process running, a bug ticket is indexed if and only if no such crash hit it. */
  lemma {:induction false} BugIsIndexedIffNoCrash(cfg: Config, es: seq<Event>, id: TicketId)
    requires id in After(cfg, es).tickets && After(cfg, es).tickets[id].saved.parent.Some? && After(cfg, es).proc.None?
    ensures IsBug(After(cfg, es).tickets[id].saved)
    ensures Indexed(After(cfg, es), id) <==> !ChildCrash(cfg, es, id)
  {
    hide After, RequestCrash, ChildCrash, FailureCrash, LinksKnown;
    AlwaysBugs(cfg, es);
    LogIsHistory(cfg, es, id, "");
  }

  /**
   Every finding of a closed ticket is linked to a ticket: the one the index names for its
   fingerprint, or the one it already named when the executor or the analysis delivered it.
   */
  lemma {:induction false} FindingsEndLinked(cfg: Config, es: seq<Event>, id: TicketId, i: nat)
    requires id in After(cfg, es).tickets && After(cfg, es).tickets[id].saved.state in {IsNeedsReview, IsDone}
    requires i < |After(cfg, es).tickets[id].saved.work.findings|
    ensures var w := After(cfg, es);
      var f := w.tickets[id].saved.work.findings[i];
      && f.ticketId.Some?
      && (|| (f.fingerprint in w.index && w.index[f.fingerprint].ticketId == f.ticketId.value)
          || (f.fingerprint, f.ticketId.value) in w.log.supplied)
  {
    hide After, Observations;
    AlwaysBugs(cfg, es);
    var w := After(cfg, es);
    var d := w.tickets[id];
    assert d.saved.parent.None?;
    assert LinksOk(Known(w), d, ProcOf(w, id));
    LinkIn(d.saved.work.findings, i);
  }

  /** The event hands the kernel a finding that already names its ticket. */
  predicate Brings(w: World, e: Event, x: (Fingerprint, TicketId)) {
    || (e.Perform? && w.proc.Some? && w.proc.value.pc.Execute? && OnStep(w.proc.value, w.proc.value.pc.scan) && x in Links(e.seen.findings))
    || (e.Analyse? && w.proc.Some? && w.proc.value.pc.RcaNote? && w.proc.value.id in w.tickets
        && e.rca.Some? && x in Links(e.rca.value.findings))
  }

  lemma {:induction false} NextSupplied(cfg: Config, w: World, e: Event, x: (Fingerprint, TicketId))
    ensures x in Next(cfg, w, e).log.supplied <==> x in w.log.supplied || Brings(w, e, x)
  {
    hide Links, TickLocal, Locate, TickRca, FirstPending, ResumePoint;
  }

  ghost predicate BroughtIn(cfg: Config, es: seq<Event>, x: (Fingerprint, TicketId)) {
    exists k :: 0 <= k < |es| && Brings(After(cfg, es[..k]), es[k], x)
  }

  lemma {:induction false} BroughtMore(cfg: Config, es: seq<Event>, x: (Fingerprint, TicketId))
    requires es != []
    ensures var p := es[..|es| - 1];
      BroughtIn(cfg, es, x) <==> BroughtIn(cfg, p, x) || Brings(After(cfg, p), es[|es| - 1], x)
  {
    hide Brings, After;
    var n := |es| - 1;
    var p := es[..n];
    assert forall k :: 0 <= k < n ==> p[..k] == es[..k] && p[k] == es[k];
    if BroughtIn(cfg, p, x) {
      var k :| 0 <= k < n && Brings(After(cfg, p[..k]), p[k], x);
      assert Brings(After(cfg, es[..k]), es[k], x);
    }
  }

  /** A link counts as supplied if and only if the executor or the analysis brought it in some event of the run. */
  lemma {:induction false} SuppliedIff(cfg: Config, es: seq<Event>, x: (Fingerprint, TicketId))
    ensures x in After(cfg, es).log.supplied <==> BroughtIn(cfg, es, x)
  {
    hide Next, Brings;
    if es != [] {
      var p := es[..|es| - 1];
      NextSupplied(cfg, After(cfg, p), es[|es| - 1], x);
      SuppliedIff(cfg, p, x);
      BroughtMore(cfg, es, x);
      hide BroughtIn;
    }
  }
}
