/**
 PLAN over whole runs (packages/slas-kernel/slas_kernel/kernel.py, `_run`, `_attach_plan`): which
 submission a ticket stems from, and what of it is on the ticket.
 */
module PlanRuns {
  import opened Options
  import opened Records
  import opened Journal
  import opened SkillGate
  import opened Attachments
  import opened Act
  import opened Machine
  import opened TicketInvariant
  import opened TicketRuns

  /** The submission that took the ticket's number, read off the run. */
  function SubmissionOf(cfg: Config, es: seq<Event>, id: TicketId): (from: Option<Submission>)
  {
    if es == [] then None
    else
      var p, e := es[..|es| - 1], es[|es| - 1];
      SubmittedAfter(After(cfg, p), e, id, SubmissionOf(cfg, p, id))
  }

  function SubmittedAfter(w: World, e: Event, id: TicketId, from: Option<Submission>): (r: Option<Submission>)
  {
    if e.Submit? && w.proc.None? && id == TicketId(e.sub.agent, SequenceOf(w, e.sub.agent) + 1) then Some(e.sub) else from
  }

  function CheckVotes(sub: Submission): (votes: seq<Vote>) { if sub.check.Some? then sub.check.value else [] }

  /** The plan is the submitted one as the skill gate expanded it. */
  predicate PlannedFrom(cfg: Config, sub: Submission, plan: Plan) {
    sub.plan.Valid() && GateResult(cfg, sub) == Expanded(plan) && plan.jobId == sub.jobId
  }

  /** The work a ticket is planned with: a pending record per step, and the votes of the cross-check. */
  function PlannedWork(sub: Submission, plan: Plan): (w: Work)
  {
    Work(FreshRecords(plan), CheckVotes(sub), [], [])
  }

  // ---- the invariant ----------------------------------------------------------------------------------

  /** The plan is attached in memory and not saved yet. */
  predicate IsFresh(pc: Pc) { pc == CheckNote || pc == Moving(IsPlanned) || pc == Saving(IsPlanned) }

  predicate Remembered(planned: map<TicketId, Work>, id: TicketId, work: Work) { id in planned && planned[id] == work }

  ghost predicate ProcFrom(cfg: Config, from: Option<Submission>, planned: map<TicketId, Work>, p: Proc) {
    && (p.pc.SaveNew? || p.pc.Ingested? ==> from == Some(p.pc.sub) && p.mem == NewTicket(p.id, p.pc.sub.jobId))
    && (p.mem.plan.Some? ==>
          && from.Some? && PlannedFrom(cfg, from.value, p.mem.plan.value)
          && var work := PlannedWork(from.value, p.mem.plan.value);
             if IsFresh(p.pc) then p.mem.work == work else Remembered(planned, p.id, work))
  }

  ghost predicate TicketFrom(cfg: Config, from: Option<Submission>, planned: map<TicketId, Work>, t: Ticket, id: TicketId) {
    t.plan.Some? ==>
      && from.Some? && PlannedFrom(cfg, from.value, t.plan.value)
      && Remembered(planned, id, PlannedWork(from.value, t.plan.value))
  }

  ghost predicate PlanOk(cfg: Config, w: World, id: TicketId, from: Option<Submission>) {
    && (id in w.tickets ==> TicketFrom(cfg, from, w.log.planned, w.tickets[id].saved, id))
    && (ProcOf(w, id).Some? ==> ProcFrom(cfg, from, w.log.planned, w.proc.value))
  }

  // ---- one effect ---------------------------------------------------------------------------------------

  /** What the history remembers of planned work behind a tick. */
  function PlannedAfter(planned: map<TicketId, Work>, p: Proc): (r: map<TicketId, Work>)
  {
    if p.pc == Saving(IsPlanned) then planned[p.id := p.mem.work] else planned
  }

  /** PLAN itself: the gate's plan and the votes of the cross-check, on a ticket that had neither. */
  lemma {:induction false} PlanAttached(cfg: Config, d: Durable, p: Proc, sub: Submission, planned: map<TicketId, Work>)
    requires p.pc == Ingested(sub) && p.mem == NewTicket(p.id, sub.jobId)
    ensures var m := TickIngested(cfg, d, p, sub);
      && m.d.saved == d.saved
      && (m.proc.Some? ==> m.proc.value.id == p.id && ProcFrom(cfg, Some(sub), planned, m.proc.value))
  {
    hide FreshRecords, GateResult, Append;
    assert [] + CheckVotes(sub) == CheckVotes(sub);
  }

  /** An effect on the ticket itself. */
  lemma {:induction false} LocalFrom(cfg: Config, d: Durable, p: Proc, from: Option<Submission>, planned: map<TicketId, Work>)
    requires IsLocal(p.pc) && ProcFrom(cfg, from, planned, p) && TicketFrom(cfg, from, planned, d.saved, p.id)
    ensures var m := TickLocal(cfg, d, p);
      && TicketFrom(cfg, from, PlannedAfter(planned, p), m.d.saved, p.id)
      && (m.proc.Some? ==> m.proc.value.id == p.id && ProcFrom(cfg, from, PlannedAfter(planned, p), m.proc.value))
  {
    hide PlannedFrom, PlannedWork, TickIngested;
    if p.pc.Ingested? {
      PlanAttached(cfg, d, p, p.pc.sub, planned);
    } else {
      LocalKeepsPlan(cfg, d, p);
      hide TickLocal;
    }
  }

  /** Past PLAN an effect keeps plan and fresh work in memory, and saves what is in memory. */
  lemma {:induction false} LocalKeepsPlan(cfg: Config, d: Durable, p: Proc)
    requires IsLocal(p.pc) && !p.pc.Ingested?
    ensures var m := TickLocal(cfg, d, p);
      && (m.d.saved == d.saved || m.d.saved == p.mem)
      && (p.pc == Saving(IsPlanned) ==> m.d.saved == p.mem)
      && (m.proc.Some? ==>
            var q := m.proc.value;
            && q.id == p.id && q.mem.plan == p.mem.plan && !q.pc.SaveNew? && !q.pc.Ingested?
            && (IsFresh(q.pc) ==> IsFresh(p.pc) && p.pc != Saving(IsPlanned) && q.mem.work == p.mem.work)
            && (IsFresh(p.pc) && !IsFresh(q.pc) ==> p.pc == Saving(IsPlanned)))
      && (IsFresh(p.pc) && p.pc != Saving(IsPlanned) ==> m.d.saved == d.saved)
  {
    hide Append, Finish, MarkRunning, Locate, Requests, ScanFrom, HasFailedStep;
  }

  lemma {:induction false} LocalKeepsId(cfg: Config, d: Durable, p: Proc)
    requires IsLocal(p.pc)
    ensures TickLocal(cfg, d, p).proc.Some? ==> TickLocal(cfg, d, p).proc.value.id == p.id
  {
    hide Append, Finish, MarkRunning, Locate, Requests, ScanFrom, FinalState, FreshRecords, GateResult;
  }

  /** Bug tickets and the index leave plan and planned work alone. */
  lemma {:induction false} SpawnFrom(cfg: Config, w: World, p: Proc, from: Option<Submission>)
    requires WorldOk(cfg, w) && w.proc == Some(p) && PlanOk(cfg, w, p.id, from) && (p.pc.Spawning? || p.pc.SaveChild? || p.pc.RecordChild?)
    ensures PlanOk(cfg, TickSpawn(w, p), p.id, from)
  {
    hide Rest, Runs, PlannedFrom, PlannedWork, TickSpawn;
    assert ProcOk(cfg, w, p);
    SpawnKeepsPlan(w, p);
  }

  predicate KeepsPlan(w: World, p: Proc, w': World) {
    && w'.log == w.log
    && (forall x :: x in w.tickets && !(p.pc.SaveChild? && x == p.pc.child) ==> x in w'.tickets && w'.tickets[x] == w.tickets[x])
    && (w'.proc.Some? ==>
          var q := w'.proc.value;
          q.id == p.id && q.mem.plan == p.mem.plan && !IsFresh(q.pc) && !q.pc.SaveNew? && !q.pc.Ingested?)
  }

  lemma {:induction false} SpawningKeepsPlan(w: World, p: Proc, s: Spawn)
    ensures KeepsPlan(w, p, TickSpawning(w, p, s))
  {
    hide Linked, SequenceOf;
  }

  lemma {:induction false} ChildKeepsPlan(w: World, p: Proc, s: Spawn, child: TicketId)
    ensures p.pc == SaveChild(s, child) ==> KeepsPlan(w, p, TickSaveChild(w, p, s, child))
    ensures KeepsPlan(w, p, TickRecordChild(w, p, s, child))
  {
    hide ChildTicket, Linked;
  }

  lemma {:induction false} SpawnKeepsPlan(w: World, p: Proc)
    requires p.pc.Spawning? || p.pc.SaveChild? || p.pc.RecordChild?
    ensures KeepsPlan(w, p, TickSpawn(w, p))
  {
    hide KeepsPlan, TickSpawning, TickSaveChild, TickRecordChild;
    match p.pc
    case Spawning(s) => SpawningKeepsPlan(w, p, s);
    case SaveChild(s, child) => ChildKeepsPlan(w, p, s, child);
    case RecordChild(s, child) => ChildKeepsPlan(w, p, s, child);
  }

  /** The process that works on the ticket ticks. */
  lemma {:induction false} OwnTick(cfg: Config, w: World, p: Proc, from: Option<Submission>)
    requires WorldOk(cfg, w) && w.proc == Some(p) && PlanOk(cfg, w, p.id, from)
    ensures PlanOk(cfg, TickProc(cfg, w, p), p.id, from)
  {
    hide WorldOk, TickLocal, TickSpawn, PlannedFrom, PlannedWork;
    if p.pc.Spawning? || p.pc.SaveChild? || p.pc.RecordChild? {
      SpawnFrom(cfg, w, p, from);
    } else if IsLocal(p.pc) && p.id in w.tickets {
      LocalFrom(cfg, w.tickets[p.id], p, from, w.log.planned);
    }
  }

  /** Another ticket's process ticks. */
  lemma {:induction false} OtherTick(cfg: Config, w: World, p: Proc, id: TicketId, from: Option<Submission>)
    requires WorldOk(cfg, w) && w.proc == Some(p) && p.id != id && PlanOk(cfg, w, id, from)
    ensures PlanOk(cfg, TickProc(cfg, w, p), id, from)
  {
    hide Rest, Runs, TickLocal, PlannedFrom, PlannedWork;
    assert ProcOk(cfg, w, p);
    if IsLocal(p.pc) && p.id in w.tickets { LocalKeepsId(cfg, w.tickets[p.id], p); }
  }

  /** A number is handed out once, so a new submission is of no ticket that exists. */
  lemma {:induction false} SubmitFrom(cfg: Config, w: World, sub: Submission, id: TicketId, from: Option<Submission>)
    requires WorldOk(cfg, w) && PlanOk(cfg, w, id, from) && w.proc.None?
    ensures PlanOk(cfg, StartRun(w, sub), id, SubmittedAfter(w, Submit(sub), id, from))
  {
    hide Rest, Runs, PlannedFrom, PlannedWork;
  }

  /** A call on a ticket starts from its file. */
  lemma {:induction false} CallFrom(cfg: Config, w: World, called: TicketId, s: StepId, id: TicketId, from: Option<Submission>)
    requires WorldOk(cfg, w) && PlanOk(cfg, w, id, from) && w.proc.None? && called in w.tickets
    ensures PlanOk(cfg, StartApprove(w, called, s), id, from) && PlanOk(cfg, StartResume(w, called), id, from)
  {
    hide Rest, Runs, PlannedFrom, PlannedWork, FirstPending, ScanFrom, HasPendingApproval;
  }

  /** The executor or the analysis returns. */
  lemma {:induction false} ReturnFrom(cfg: Config, w: World, p: Proc, scan: Scan, o: Observation, rca: Option<Rca>, id: TicketId, from: Option<Submission>)
    requires PlanOk(cfg, w, id, from) && w.proc == Some(p)
    ensures p.pc == Execute(scan) ==> PlanOk(cfg, PerformStep(w, p, scan, o), id, from)
    ensures p.pc.RcaNote? && p.id in w.tickets ==> PlanOk(cfg, AnalyseStep(cfg, w, p, rca), id, from)
  {
    hide PlannedFrom, PlannedWork, Links, Locate, Triage, NewFindings, Append;
  }

  lemma {:induction false} NextFrom(cfg: Config, w: World, e: Event, id: TicketId, from: Option<Submission>)
    requires WorldOk(cfg, w) && PlanOk(cfg, w, id, from)
    ensures PlanOk(cfg, Next(cfg, w, e), id, SubmittedAfter(w, e, id, from))
  {
    hide WorldOk, PlanOk, TickProc, StartRun, StartApprove, StartResume, PerformStep, AnalyseStep;
    match e {
      case Submit(sub) => if w.proc.None? { SubmitFrom(cfg, w, sub, id, from); }
      case Approve(called, s) => if w.proc.None? && called in w.tickets { CallFrom(cfg, w, called, s, id, from); }
      case Resume(called) => if w.proc.None? && called in w.tickets { CallFrom(cfg, w, called, "", id, from); }
      case Tick =>
        if w.proc.Some? {
          if w.proc.value.id == id { OwnTick(cfg, w, w.proc.value, from); } else { OtherTick(cfg, w, w.proc.value, id, from); }
        }
      case Perform(o) =>
        if w.proc.Some? && w.proc.value.pc.Execute? { ReturnFrom(cfg, w, w.proc.value, w.proc.value.pc.scan, o, None, id, from); }
      case Analyse(rca) =>
        if w.proc.Some? && w.proc.value.pc.RcaNote? && w.proc.value.id in w.tickets {
          ReturnFrom(cfg, w, w.proc.value, Scan(0, map[], None), Observation("", [], [], []), rca, id, from);
        }
      case Crash => if w.proc.Some? { CrashFrom(cfg, w, w.proc.value, id, from); }
    }
  }

  lemma {:induction false} CrashFrom(cfg: Config, w: World, p: Proc, id: TicketId, from: Option<Submission>)
    requires PlanOk(cfg, w, id, from) && w.proc == Some(p)
    ensures PlanOk(cfg, Next(cfg, w, Crash), id, from)
  {
    hide PlannedFrom, PlannedWork, Locate;
  }

  lemma {:induction false} AlwaysPlanned(cfg: Config, es: seq<Event>, id: TicketId)
    ensures PlanOk(cfg, After(cfg, es), id, SubmissionOf(cfg, es, id))
  {
    hide Next, WorldOk, PlanOk;
    if es == [] {
      NothingPlanned(cfg, id);
    } else {
      var p := es[..|es| - 1];
      AlwaysPlanned(cfg, p, id);
      AlwaysOk(cfg, p);
      NextFrom(cfg, After(cfg, p), es[|es| - 1], id, SubmissionOf(cfg, p, id));
    }
  }

  lemma {:induction false} NothingPlanned(cfg: Config, id: TicketId)
    ensures PlanOk(cfg, INITIAL, id, None)
  {
  }

  // ---- what PLAN put on the ticket ------------------------------------------------------------------------

  lemma {:induction false} SubmissionIsEvent(cfg: Config, es: seq<Event>, id: TicketId)
    requires SubmissionOf(cfg, es, id).Some?
    ensures var sub := SubmissionOf(cfg, es, id).value; Submit(sub) in es && sub.agent == id.agent
  {
    hide After;
    var p := es[..|es| - 1];
    if SubmissionOf(cfg, es, id) == SubmissionOf(cfg, p, id) {
      SubmissionIsEvent(cfg, p, id);
    } else {
      assert es[|es| - 1] in es;
    }
  }

  /**
   A ticket with a plan stems from a submission of the run: its plan is that submission's, as the
   gate expanded it, and the work it was planned with holds the votes of the cross-check and nothing else.
   */
  lemma {:induction false} PlanIsSubmitted(cfg: Config, es: seq<Event>, id: TicketId)
    requires id in After(cfg, es).tickets && After(cfg, es).tickets[id].saved.plan.Some?
    ensures var w, from := After(cfg, es), SubmissionOf(cfg, es, id);
      && from.Some? && Submit(from.value) in es && from.value.agent == id.agent
      && PlannedFrom(cfg, from.value, w.tickets[id].saved.plan.value)
      && id in w.log.planned && w.log.planned[id] == PlannedWork(from.value, w.tickets[id].saved.plan.value)
  {
    hide After, PlannedFrom, PlannedWork;
    AlwaysPlanned(cfg, es, id);
    SubmissionIsEvent(cfg, es, id);
  }

  /** Each step of the plan is the submitted step at its place, admitted and compiled by the gate if it is a skill. */
  lemma {:induction false} PlannedStepIsGated(cfg: Config, sub: Submission, plan: Plan, m: nat)
    requires PlannedFrom(cfg, sub, plan) && m < |plan.steps|
    ensures |sub.plan.steps| == |plan.steps| && plan.Valid()
    ensures if cfg.gate.Some? then Gated(cfg.gate.value, sub.plan.steps[m], plan.steps[m], sub.plan.jobId, sub.agent)
      else plan.steps[m] == sub.plan.steps[m]
  {
    hide Gated, Admissible, Expand;
    if cfg.gate.Some? {
      ExpandIsFaithful(cfg.gate.value, sub.plan, sub.agent);
      ExpandKeeps(cfg.gate.value, sub.plan, sub.agent);
    }
  }

  /** The step is destructive itself, or a skill that compiles to a destructive step. */
  predicate Destroys(cfg: Config, sub: Submission, step: Step) {
    || step.risk == Destructive
    || (cfg.gate.Some? && IsSkill(step)
        && Admissible(cfg.gate.value, step, sub.plan.jobId, sub.agent)
        && var skill := cfg.gate.value.library[step.args.skillId];
           Destructive in cfg.gate.value.compile(skill, BoundInputs(step.args, skill), sub.plan.jobId).value)
  }

  lemma {:induction false} PlannedRisk(cfg: Config, sub: Submission, plan: Plan, m: nat)
    requires PlannedFrom(cfg, sub, plan) && m < |plan.steps|
    ensures |sub.plan.steps| == |plan.steps| && plan.steps[m].id == sub.plan.steps[m].id
    ensures plan.steps[m].risk == Destructive <==> Destroys(cfg, sub, sub.plan.steps[m])
  {
    PlannedStepIsGated(cfg, sub, plan, m);
  }

  /** Every skill step of the submission is admissible for the agent, or no gate is installed. */
  predicate Passes(cfg: Config, sub: Submission) {
    cfg.gate.Some? ==> forall m :: 0 <= m < |sub.plan.steps| && IsSkill(sub.plan.steps[m]) ==>
      Admissible(cfg.gate.value, sub.plan.steps[m], sub.plan.jobId, sub.agent)
  }

  predicate HasDestroyer(cfg: Config, sub: Submission) {
    exists m :: 0 <= m < |sub.plan.steps| && Destroys(cfg, sub, sub.plan.steps[m])
  }

  /** PLAN goes on exactly with an admissible plan, and waits exactly for one that destroys. */
  lemma {:induction false} GateDecides(cfg: Config, sub: Submission)
    requires sub.plan.Valid()
    ensures var r := GateResult(cfg, sub);
      && (r.Expanded? <==> Passes(cfg, sub))
      && (r.Expanded? ==> r.plan.jobId == sub.plan.jobId && (r.plan.IsDestructive() <==> HasDestroyer(cfg, sub)))
  {
    hide Admissible, Destroys, Expand;
    var r := GateResult(cfg, sub);
    if cfg.gate.Some? { ExpandIsFaithful(cfg.gate.value, sub.plan, sub.agent); }
    if r.Expanded? {
      var here := sub.(jobId := sub.plan.jobId);
      assert GateResult(cfg, here) == r;
      forall m | 0 <= m < |r.plan.steps|
        ensures |sub.plan.steps| == |r.plan.steps| && (r.plan.steps[m].risk == Destructive <==> Destroys(cfg, sub, sub.plan.steps[m]))
      {
        PlannedRisk(cfg, here, r.plan, m);
        assert Destroys(cfg, here, sub.plan.steps[m]) <==> Destroys(cfg, sub, sub.plan.steps[m]) by { SameDestroyer(cfg, sub, here, sub.plan.steps[m]); }
      }
    }
  }

  lemma {:induction false} SameDestroyer(cfg: Config, sub: Submission, other: Submission, step: Step)
    requires other == sub.(jobId := other.jobId)
    ensures Destroys(cfg, other, step) <==> Destroys(cfg, sub, step)
  {
    hide Admissible;
  }

  /** One undecided request for each submitted step that destroys, and none for any other. */
  ghost predicate AsksFor(cfg: Config, sub: Submission, approvals: seq<Approval>) {
    && (forall i :: 0 <= i < |approvals| ==> approvals[i].approved.None?)
    && (forall i :: 0 <= i < |approvals| ==> AskedAbout(cfg, sub, approvals[i].stepId))
    && (forall m :: 0 <= m < |sub.plan.steps| && Destroys(cfg, sub, sub.plan.steps[m]) ==> Approval(sub.plan.steps[m].id, None) in approvals)
    && (forall i, k :: 0 <= i < k < |approvals| ==> approvals[i].stepId != approvals[k].stepId)
  }

  ghost predicate AskedAbout(cfg: Config, sub: Submission, s: StepId) {
    exists m :: 0 <= m < |sub.plan.steps| && sub.plan.steps[m].id == s && Destroys(cfg, sub, sub.plan.steps[m])
  }

  lemma {:induction false} RequestsAre(steps: seq<Step>)
    ensures forall a :: a in Requests(steps) <==> exists m :: 0 <= m < |steps| && steps[m].risk == Destructive && a == Approval(steps[m].id, None)
    ensures (forall i, k :: 0 <= i < k < |steps| ==> steps[i].id != steps[k].id) ==>
      forall i, k :: 0 <= i < k < |Requests(steps)| ==> Requests(steps)[i].stepId != Requests(steps)[k].stepId
  {
    if steps != [] {
      var rest, r := steps[1..], Requests(steps);
      RequestsAre(rest);
      forall a ensures a in r <==> exists m :: 0 <= m < |steps| && steps[m].risk == Destructive && a == Approval(steps[m].id, None) {
        if a in Requests(rest) {
          var m :| 0 <= m < |rest| && rest[m].risk == Destructive && a == Approval(rest[m].id, None);
          assert steps[m + 1] == rest[m];
        }
        if exists m :: 0 <= m < |steps| && steps[m].risk == Destructive && a == Approval(steps[m].id, None) {
          var m :| 0 <= m < |steps| && steps[m].risk == Destructive && a == Approval(steps[m].id, None);
          if m > 0 { assert rest[m - 1] == steps[m]; }
        }
      }
      if forall i, k :: 0 <= i < k < |steps| ==> steps[i].id != steps[k].id { RequestsDiffer(steps); }
    }
  }

  lemma {:induction false} RequestsDiffer(steps: seq<Step>)
    requires steps != [] && forall i, k :: 0 <= i < k < |steps| ==> steps[i].id != steps[k].id
    requires forall a :: a in Requests(steps[1..]) ==> exists m :: 0 <= m < |steps[1..]| && a.stepId == steps[1..][m].id
    requires forall i, k :: 0 <= i < k < |Requests(steps[1..])| ==> Requests(steps[1..])[i].stepId != Requests(steps[1..])[k].stepId
    ensures forall i, k :: 0 <= i < k < |Requests(steps)| ==> Requests(steps)[i].stepId != Requests(steps)[k].stepId
  {
    var rest, r := Requests(steps[1..]), Requests(steps);
    if steps[0].risk == Destructive {
      forall k | 0 < k < |r| ensures r[k].stepId != steps[0].id {
        assert r[k] == rest[k - 1] && r[k] in rest;
        var m :| 0 <= m < |steps[1..]| && r[k].stepId == steps[1..][m].id;
        assert steps[1..][m] == steps[m + 1];
      }
    }
  }

  lemma {:induction false} PlannedIsValid(cfg: Config, sub: Submission, plan: Plan)
    requires PlannedFrom(cfg, sub, plan)
    ensures plan.Valid() && |plan.steps| == |sub.plan.steps|
  {
    hide Admissible, Expand;
    if cfg.gate.Some? {
      ExpandIsFaithful(cfg.gate.value, sub.plan, sub.agent);
      ExpandKeeps(cfg.gate.value, sub.plan, sub.agent);
    }
  }

  /** The requests `run` makes are for exactly the submitted steps that destroy. */
  lemma {:induction false} RequestsAsk(cfg: Config, sub: Submission, plan: Plan)
    requires PlannedFrom(cfg, sub, plan)
    ensures AsksFor(cfg, sub, Requests(plan.steps))
  {
    hide GateResult, Destroys, Requests;
    forall m | 0 <= m < |plan.steps|
      ensures |sub.plan.steps| == |plan.steps| && plan.steps[m].id == sub.plan.steps[m].id
      ensures plan.steps[m].risk == Destructive <==> Destroys(cfg, sub, sub.plan.steps[m])
    {
      PlannedRisk(cfg, sub, plan, m);
    }
    PlannedIsValid(cfg, sub, plan);
    hide PlannedFrom;
    RequestsAre(plan.steps);
    var r := Requests(plan.steps);
    forall i | 0 <= i < |r| ensures r[i].approved.None? && AskedAbout(cfg, sub, r[i].stepId) {
      assert r[i] in r;
      var m :| 0 <= m < |plan.steps| && plan.steps[m].risk == Destructive && r[i] == Approval(plan.steps[m].id, None);
      assert sub.plan.steps[m].id == r[i].stepId;
    }
  }
}
