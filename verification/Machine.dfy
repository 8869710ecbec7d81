/**
 The Agent Kernel as a state machine over durable effects
 (packages/slas-kernel/slas_kernel/kernel.py, store.py, slas_triage/dedup.py).

 One `Tick` performs at most one durable effect: a journal append, a ticket save, an index
 record or the allocation of a ticket number. `Crash` may come between any two of them and
 drops everything that is not on disk. `log` holds history variables that no step reads.
 An event that is not enabled changes nothing, so every list of events is a run.
 */
module Machine {
  import opened Options
  import opened Records
  import opened Journal
  import opened SkillGate
  import opened Attachments
  import opened Act

  datatype Config = Config(verify: Verify, gate: Option<Gate>, route: Finding -> string)

  /** A job as ingested, the agent's plan for it, and the votes of a plan cross-check if one runs. */
  datatype Submission = Submission(agent: string, jobId: string, plan: Plan, check: Option<seq<Vote>>)

  datatype Rca = Rca(votes: seq<Vote>, findings: seq<Finding>)

  /** Where the loop over the plan stands, with the journal queries made before it started. */
  datatype Scan = Scan(i: nat, completed: map<StepId, Observation>, interrupted: Option<StepId>)

  datatype Spawn = Spawn(todo: seq<Finding>, updated: seq<Finding>, spawned: seq<TicketId>, votes: seq<Vote>)

  datatype Pc =
    | SaveNew(sub: Submission) | Ingested(sub: Submission) | GateNote(stepId: StepId) | CheckNote
    | Moving(target: TicketState) | Saving(target: TicketState)
    | RequestNote | SaveRequest
    | ApproveNote(stepId: StepId) | SaveApproval
    | Acting(scan: Scan) | SaveRunning(scan: Scan) | WriteIntent(scan: Scan) | Execute(scan: Scan)
    | WriteObservation(scan: Scan, seen: Observation) | SaveStep(scan: Scan)
    | CollectNote | RcaNote | Spawning(spawn: Spawn)
    | SaveChild(spawn: Spawn, child: TicketId) | RecordChild(spawn: Spawn, child: TicketId)
    | SpawnNote | SopNote | SaveSop

  datatype Durable = Durable(saved: Ticket, journal: seq<Entry>)
  datatype Proc = Proc(id: TicketId, mem: Ticket, pc: Pc)
  datatype BugEntry = BugEntry(ticketId: TicketId, firstSeenIn: TicketId, seen: nat)
  datatype Execution = Execution(id: TicketId, step: Step)

  datatype History = History(
    executions: seq<Execution>,        // every step handed to the executor
    cuts: seq<Execution>,              // crashes between a step's intent and its observation
    failCut: set<TicketId>,            // crashed between a failing observation and its save
    requestCut: set<TicketId>,         // crashed between the Planned save and the approvals save
    orphans: set<TicketId>,            // child tickets whose index record a crash prevented
    planned: map<TicketId, Work>,      // the work as saved with the plan
    supplied: set<(Fingerprint, TicketId)>)  // links that findings already carried on arrival

  datatype World = World(
    tickets: map<TicketId, Durable>,
    sequence: map<string, nat>,
    index: map<Fingerprint, BugEntry>,
    proc: Option<Proc>,
    log: History)

  datatype Event =
    | Submit(sub: Submission)
    | Approve(id: TicketId, stepId: StepId)
    | Resume(id: TicketId)
    | Tick
    | Perform(seen: Observation)      // the executor returns
    | Analyse(rca: Option<Rca>)       // the RCA pipeline returns, or there is none
    | Crash

  const EMPTY_HISTORY := History([], [], {}, {}, {}, map[], {})
  const INITIAL := World(map[], map[], map[], None, EMPTY_HISTORY)

  function SequenceOf(w: World, agent: string): (n: nat)
  {
    if agent in w.sequence then w.sequence[agent] else 0
  }

  /** The process, if it works on this ticket. */
  function ProcOf(w: World, id: TicketId): (v: Option<Proc>)
  {
    if w.proc.Some? && w.proc.value.id == id then w.proc else None
  }

  function NewTicket(id: TicketId, jobId: string): (t: Ticket)
  {
    Ticket(id, jobId, IsOpen, None, [], NO_WORK, None)
  }

  /** The job of a bug ticket: the parent's job and the first eight characters of the fingerprint. */
  function BugJob(jobId: string, fp: Fingerprint): (job: string)
  {
    jobId + "#bug-" + if |fp| <= 8 then fp else fp[..8]
  }

  function ChildTicket(parent: Ticket, child: TicketId, f: Finding, votes: seq<Vote>): (t: Ticket)
  {
    Ticket(child, BugJob(parent.jobId, f.fingerprint), IsOpen, None, [], Work([], votes, [], [f.(ticketId := Some(child))]), Some(parent.id))
  }

  function Requests(steps: seq<Step>): (r: seq<Approval>)
  {
    if steps == [] then []
    else if steps[0].risk == Destructive then [Approval(steps[0].id, None)] + Requests(steps[1..])
    else Requests(steps[1..])
  }

  /** Position of the first undecided approval for a step, or the length of the list. */
  function FirstPending(approvals: seq<Approval>, s: StepId): (i: nat)
    ensures i <= |approvals|
    ensures i < |approvals| ==> approvals[i] == Approval(s, None)
    ensures forall k :: 0 <= k < i ==> approvals[k] != Approval(s, None)
  {
    if approvals == [] then 0
    else if approvals[0].stepId == s && approvals[0].approved.None? then 0
    else 1 + FirstPending(approvals[1..], s)
  }

  function Links(fs: seq<Finding>): (r: set<(Fingerprint, TicketId)>)
  {
    set f | f in fs && f.ticketId.Some? :: (f.fingerprint, f.ticketId.value)
  }

  // ---- one ticket and the process working on it ---------------------------------------------

  /** A ticket's files and the process after one effect. */
  datatype Moved = Moved(d: Durable, proc: Option<Proc>)

  function Write(d: Durable, kind: Kind, s: Option<StepId>, payload: Payload): (d': Durable)
  {
    d.(journal := Append(d.journal, kind, s, payload))
  }

  function Note(d: Durable, p: Proc, s: Option<StepId>, pc: Pc): (m: Moved)
  {
    Moved(Write(d, NoteEntry, s, Empty), Some(p.(pc := pc)))
  }

  function Save(d: Durable, p: Proc): (d': Durable) { d.(saved := p.mem) }

  // ---- PLAN -------------------------------------------------------------------------------

  function GateResult(cfg: Config, sub: Submission): (r: Expansion)
  {
    if cfg.gate.None? then Expanded(sub.plan) else Expand(cfg.gate.value, sub.plan, sub.agent)
  }

  /** `_attach_plan` and the votes of the plan cross-check. */
  function WithPlan(t: Ticket, plan: Plan, check: Option<seq<Vote>>): (t': Ticket)
  {
    var votes := if check.Some? then check.value else [];
    t.(plan := Some(plan), work := t.work.(steps := FreshRecords(plan), votes := t.work.votes + votes))
  }

  function TickIngested(cfg: Config, d: Durable, p: Proc, sub: Submission): (m: Moved)
  {
    var d1 := Write(d, StateEntry, None, Empty);
    if !sub.plan.Valid() then Moved(d1, None)
    else match GateResult(cfg, sub)
      case Refused(s) => Moved(d1, Some(p.(pc := GateNote(s))))
      case Expanded(plan) =>
        if plan.jobId != p.mem.jobId then Moved(d1, None)
        else Moved(d1, Some(Proc(p.id, WithPlan(p.mem, plan, sub.check),
                                 if sub.check.Some? then CheckNote else Moving(IsPlanned))))
  }

  function TickMoving(d: Durable, p: Proc, target: TicketState): (m: Moved)
  {
    if !CanTransition(p.mem.state, target) then Moved(d, None)
    else Moved(Write(d, StateEntry, None, Empty), Some(Proc(p.id, p.mem.(state := target), Saving(target))))
  }

  function ScanFrom(j: seq<Entry>): (s: Scan)
  {
    Scan(0, Completed(j), OpenIntent(j))
  }

  function TickSaving(d: Durable, p: Proc, target: TicketState): (m: Moved)
  {
    var d1 := Save(d, p);
    match target
    case IsPlanned =>
      if p.mem.plan.Some? && p.mem.plan.value.IsDestructive()
        then Moved(d1, Some(Proc(p.id, p.mem.(approvals := Requests(p.mem.plan.value.steps)), RequestNote)))
      else Moved(d1, Some(p.(pc := Moving(IsApproved))))
    case IsApproved => Moved(d1, Some(p.(pc := Moving(IsRunning))))
    case IsRunning => Moved(d1, Some(p.(pc := Acting(ScanFrom(d.journal)))))
    case IsAnalysing => Moved(d1, Some(p.(pc := CollectNote)))
    case _ => Moved(d1, None)
  }

  // ---- ACT ----------------------------------------------------------------------------------

  /** The step the scan stands on and the position of its record, when both exist. */
  predicate OnStep(p: Proc, scan: Scan) {
    && p.mem.plan.Some? && scan.i < |p.mem.plan.value.steps|
    && Locate(p.mem.work.steps, p.mem.plan.value.steps[scan.i].id) < |p.mem.work.steps|
  }

  function StepAt(p: Proc, scan: Scan): (s: Step)
    requires OnStep(p, scan)
  {
    p.mem.plan.value.steps[scan.i]
  }

  function RecordAt(p: Proc, scan: Scan): (r: nat)
    requires OnStep(p, scan)
    ensures r < |p.mem.work.steps|
  {
    Locate(p.mem.work.steps, StepAt(p, scan).id)
  }

  function NextStep(scan: Scan): (s: Scan) { scan.(i := scan.i + 1) }

  /** One turn of the loop over the plan; it writes nothing. None stands for an exception. */
  function TickActing(cfg: Config, p: Proc, scan: Scan): (r: Option<Proc>)
  {
    if p.mem.plan.None? then None
    else if scan.i >= |p.mem.plan.value.steps| then Some(p.(pc := Moving(IsAnalysing)))
    else if !OnStep(p, scan) then None
    else
      var step, r := StepAt(p, scan), RecordAt(p, scan);
      var status := p.mem.work.steps[r].status;
      if status == Failed then Some(p.(pc := Moving(IsAnalysing)))
      else if step.id in scan.completed then
        if status == Done then Some(p.(pc := Acting(NextStep(scan))))
        else
          var work := Finish(cfg.verify, step, p.mem.work, r, scan.completed[step.id]);
          Some(Proc(p.id, p.mem.(work := work), Acting(NextStep(scan))))
      else if status == Skipped then Some(p.(pc := Acting(NextStep(scan))))
      else Some(Proc(p.id, p.mem.(work := MarkRunning(p.mem.work, r)), SaveRunning(scan)))
  }

  function TickIntent(d: Durable, p: Proc, scan: Scan): (m: Moved)
  {
    if !OnStep(p, scan) then Moved(d, None)
    else
      var s := Some(StepAt(p, scan).id);
      Moved(Write(d, IntentEntry, s, if s == scan.interrupted then Redo else Empty), Some(p.(pc := Execute(scan))))
  }

  function TickObservation(cfg: Config, d: Durable, p: Proc, scan: Scan, o: Observation): (m: Moved)
  {
    if !OnStep(p, scan) then Moved(d, None)
    else
      var step := StepAt(p, scan);
      var mem := p.mem.(work := Finish(cfg.verify, step, p.mem.work, RecordAt(p, scan), o));
      Moved(Write(d, ObservationEntry, Some(step.id), Seen(o)), Some(Proc(p.id, mem, SaveStep(scan))))
  }

  function TickSaveStep(d: Durable, p: Proc, scan: Scan): (m: Moved)
  {
    if !OnStep(p, scan) then Moved(Save(d, p), None)
    else if p.mem.work.steps[RecordAt(p, scan)].status == Failed
      then Moved(Save(d, p), Some(p.(pc := Moving(IsAnalysing))))
    else Moved(Save(d, p), Some(p.(pc := Acting(NextStep(scan)))))
  }

  // ---- ANALYSE and CLOSE --------------------------------------------------------------------

  /** Findings of the pipeline whose fingerprint the ticket did not have before. */
  function NewFindings(known: set<Fingerprint>, fs: seq<Finding>): (r: seq<Finding>)
  {
    if fs == [] then []
    else if fs[0].fingerprint in known then NewFindings(known, fs[1..])
    else [fs[0]] + NewFindings(known, fs[1..])
  }

  function WithRca(w: Work, rca: Option<Rca>): (w': Work)
  {
    if rca.None? then w
    else w.(votes := w.votes + rca.value.votes,
            findings := w.findings + NewFindings(Prints(w.findings), rca.value.findings))
  }

  function TickRca(cfg: Config, d: Durable, p: Proc, rca: Option<Rca>): (m: Moved)
  {
    var mem := p.mem.(work := WithRca(p.mem.work, rca));
    var votes := if rca.Some? then rca.value.votes else [];
    Note(d, p.(mem := mem), None, Spawning(Spawn(Triage(cfg.route, mem.work.findings), [], [], votes)))
  }

  function FinalState(t: Ticket): (s: TicketState)
  {
    if HasFailedStep(t.work) || t.work.findings != [] then IsNeedsReview else IsDone
  }

  /** The effects that touch nothing but the ticket itself. */
  predicate IsLocal(pc: Pc) {
    && !pc.SaveNew? && !pc.Execute? && !pc.RcaNote?
    && !pc.Spawning? && !pc.SaveChild? && !pc.RecordChild?
  }

  /** Points where the kernel only writes a note; the note names a step in two of them. */
  predicate IsNote(pc: Pc) {
    pc.GateNote? || pc.CheckNote? || pc.RequestNote? || pc.ApproveNote? || pc.CollectNote? || pc.SpawnNote? || pc.SopNote?
  }

  function AfterNote(pc: Pc): (r: (Option<StepId>, Pc))
    requires IsNote(pc)
  {
    match pc
    case GateNote(s) => (Some(s), Moving(IsFailed))
    case CheckNote => (None, Moving(IsPlanned))
    case RequestNote => (None, SaveRequest)
    case ApproveNote(s) => (Some(s), SaveApproval)
    case CollectNote => (None, RcaNote)
    case SpawnNote => (None, SopNote)
    case SopNote => (None, SaveSop)
  }

  function TickLocal(cfg: Config, d: Durable, p: Proc): (m: Moved)
    requires IsLocal(p.pc)
  {
    if IsNote(p.pc) then Note(d, p, AfterNote(p.pc).0, AfterNote(p.pc).1)
    else match p.pc
      case Ingested(sub) => TickIngested(cfg, d, p, sub)
      case Moving(target) => TickMoving(d, p, target)
      case Saving(target) => TickSaving(d, p, target)
      case SaveRequest => Moved(Save(d, p), None)
      case SaveApproval => Moved(Save(d, p), None)
      case Acting(scan) => Moved(d, TickActing(cfg, p, scan))
      case SaveRunning(scan) => Moved(Save(d, p), Some(p.(pc := WriteIntent(scan))))
      case WriteIntent(scan) => TickIntent(d, p, scan)
      case WriteObservation(scan, o) => TickObservation(cfg, d, p, scan, o)
      case SaveStep(scan) => TickSaveStep(d, p, scan)
      case SaveSop => Moved(Save(d, p), Some(p.(pc := Moving(FinalState(p.mem)))))
  }

  // ---- the effects several tickets share ------------------------------------------------------

  function Goto(w: World, p: Proc, pc: Pc): (w': World) { w.(proc := Some(p.(pc := pc))) }

  function StartRun(w: World, sub: Submission): (w': World)
  {
    var id := TicketId(sub.agent, SequenceOf(w, sub.agent) + 1);
    w.(sequence := w.sequence[sub.agent := id.number],
       proc := Some(Proc(id, NewTicket(id, sub.jobId), SaveNew(sub))))
  }

  function PerformStep(w: World, p: Proc, scan: Scan, o: Observation): (w': World)
  {
    if !OnStep(p, scan) then w.(proc := None)
    else
      var log := w.log.(executions := w.log.executions + [Execution(p.id, StepAt(p, scan))],
                        supplied := w.log.supplied + Links(o.findings));
      Goto(w.(log := log), p, WriteObservation(scan, o))
  }

  function Linked(f: Finding, id: TicketId): (r: Finding) { f.(ticketId := Some(id)) }

  function TickSpawning(w: World, p: Proc, s: Spawn): (w': World)
  {
    if s.todo == [] then
      Goto(w, p.(mem := p.mem.(work := p.mem.work.(findings := s.updated))),
           if s.spawned == [] then SopNote else SpawnNote)
    else
      var f := s.todo[0];
      if f.ticketId.Some? then Goto(w, p, Spawning(s.(todo := s.todo[1..], updated := s.updated + [f])))
      else if f.fingerprint in w.index then
        var known := w.index[f.fingerprint];
        Goto(w.(index := w.index[f.fingerprint := known.(seen := known.seen + 1)]), p,
             Spawning(s.(todo := s.todo[1..], updated := s.updated + [Linked(f, known.ticketId)])))
      else
        var child := TicketId(p.id.agent, SequenceOf(w, p.id.agent) + 1);
        Goto(w.(sequence := w.sequence[p.id.agent := child.number]), p, SaveChild(s, child))
  }

  function TickSaveChild(w: World, p: Proc, s: Spawn, child: TicketId): (w': World)
  {
    if s.todo == [] then w.(proc := None)
    else
      Goto(w.(tickets := w.tickets[child := Durable(ChildTicket(p.mem, child, s.todo[0], s.votes), [])]),
           p, RecordChild(s, child))
  }

  function TickRecordChild(w: World, p: Proc, s: Spawn, child: TicketId): (w': World)
  {
    if s.todo == [] then w.(proc := None)
    else
      var f := s.todo[0];
      var entry := if f.fingerprint in w.index
                     then w.index[f.fingerprint].(seen := w.index[f.fingerprint].seen + 1)
                     else BugEntry(child, p.id, 1);
      Goto(w.(index := w.index[f.fingerprint := entry]), p,
           Spawning(s.(todo := s.todo[1..], updated := s.updated + [Linked(f, child)], spawned := s.spawned + [child])))
  }

  function AnalyseStep(cfg: Config, w: World, p: Proc, rca: Option<Rca>): (w': World)
    requires p.id in w.tickets
  {
    var brought := if rca.Some? then Links(rca.value.findings) else {};
    Apply(w.(log := w.log.(supplied := w.log.supplied + brought)), p.id, TickRca(cfg, w.tickets[p.id], p, rca))
  }

  // ---- one event ----------------------------------------------------------------------------

  function TickSpawn(w: World, p: Proc): (w': World)
    requires p.pc.Spawning? || p.pc.SaveChild? || p.pc.RecordChild?
  {
    match p.pc
    case Spawning(s) => TickSpawning(w, p, s)
    case SaveChild(s, child) => TickSaveChild(w, p, s, child)
    case RecordChild(s, child) => TickRecordChild(w, p, s, child)
  }

  function Apply(w: World, id: TicketId, m: Moved): (w': World)
  {
    w.(tickets := w.tickets[id := m.d], proc := m.proc)
  }

  /** The planned work is remembered in the history when the plan is first saved. */
  function Remember(w: World, p: Proc): (w': World)
  {
    if p.pc == Saving(IsPlanned) then w.(log := w.log.(planned := w.log.planned[p.id := p.mem.work])) else w
  }

  function TickProc(cfg: Config, w: World, p: Proc): (w': World)
  {
    if p.pc.SaveNew? then
      Goto(w.(tickets := w.tickets[p.id := Durable(p.mem, [])]), p, Ingested(p.pc.sub))
    else if p.pc.Execute? || p.pc.RcaNote? then w
    else if p.pc.Spawning? || p.pc.SaveChild? || p.pc.RecordChild? then TickSpawn(w, p)
    else if p.id !in w.tickets then w.(proc := None)
    else Apply(Remember(w, p), p.id, TickLocal(cfg, w.tickets[p.id], p))
  }

  function StartApprove(w: World, id: TicketId, s: StepId): (w': World)
    requires id in w.tickets
  {
    var t := w.tickets[id].saved;
    var i := FirstPending(t.approvals, s);
    if i == |t.approvals| then w
    else w.(proc := Some(Proc(id, t.(approvals := t.approvals[i := Approval(s, Some(true))]), ApproveNote(s))))
  }

  /** Where `resume` continues, or None where it returns or raises at once. */
  function ResumePoint(d: Durable): (r: Option<Pc>)
  {
    match d.saved.state
    case IsPlanned => if HasPendingApproval(d.saved) then None else Some(Moving(IsApproved))
    case IsApproved => Some(Moving(IsRunning))
    case IsRunning => Some(Acting(ScanFrom(d.journal)))
    case IsAnalysing => Some(CollectNote)
    case _ => None
  }

  function StartResume(w: World, id: TicketId): (w': World)
    requires id in w.tickets
  {
    var at := ResumePoint(w.tickets[id]);
    if at.None? then w else w.(proc := Some(Proc(id, w.tickets[id].saved, at.value)))
  }

  function CrashLog(cfg: Config, h: History, p: Proc): (h': History)
  {
    match p.pc
    case Execute(scan) => if OnStep(p, scan) then h.(cuts := h.cuts + [Execution(p.id, StepAt(p, scan))]) else h
    case WriteObservation(scan, _) =>
      if OnStep(p, scan) then h.(cuts := h.cuts + [Execution(p.id, StepAt(p, scan))]) else h
    case SaveStep(scan) =>
      if OnStep(p, scan) && p.mem.work.steps[RecordAt(p, scan)].status == Failed
        then h.(failCut := h.failCut + {p.id}) else h
    case RequestNote => h.(requestCut := h.requestCut + {p.id})
    case SaveRequest => h.(requestCut := h.requestCut + {p.id})
    case RecordChild(_, child) => h.(orphans := h.orphans + {child})
    case _ => h
  }

  function Next(cfg: Config, w: World, e: Event): (w': World)
  {
    match e
    case Submit(sub) => if w.proc.Some? then w else StartRun(w, sub)
    case Approve(id, s) => if w.proc.Some? || id !in w.tickets then w else StartApprove(w, id, s)
    case Resume(id) => if w.proc.Some? || id !in w.tickets then w else StartResume(w, id)
    case Tick => if w.proc.None? then w else TickProc(cfg, w, w.proc.value)
    case Perform(o) =>
      if w.proc.Some? && w.proc.value.pc.Execute? then PerformStep(w, w.proc.value, w.proc.value.pc.scan, o) else w
    case Analyse(rca) =>
      if w.proc.Some? && w.proc.value.pc.RcaNote? && w.proc.value.id in w.tickets
        then AnalyseStep(cfg, w, w.proc.value, rca) else w
    case Crash =>
      if w.proc.None? then w else w.(proc := None, log := CrashLog(cfg, w.log, w.proc.value))
  }

  /** The world after a list of events from the empty installation. */
  function After(cfg: Config, es: seq<Event>): (w: World)
  {
    if es == [] then INITIAL else Next(cfg, After(cfg, es[..|es| - 1]), es[|es| - 1])
  }
}
