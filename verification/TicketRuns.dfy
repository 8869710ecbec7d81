/** Every event keeps the ticket invariant, so every run does. */
module TicketRuns {
  import opened Options
  import opened Records
  import opened Journal
  import opened SkillGate
  import opened Attachments
  import opened Act
  import opened Machine
  import opened TicketInvariant
  import opened TicketSteps

  /** Program points that carry no claim about another ticket. */
  predicate Plain(pc: Pc) {
    !pc.SaveNew? && !pc.SaveChild? && !pc.RecordChild?
  }

  /** The ticket a process works on, seen on its own. */
  ghost predicate Local(cfg: Config, b: Option<Work>, d: Durable, p: Proc) {
    Rest(cfg, b, d) && Runs(cfg, b, d, p) && p.mem.id == p.id == d.saved.id
  }

  /** Where an effect has taken it: files in order, and the process too if it goes on. */
  ghost predicate MovedOk(cfg: Config, b: Option<Work>, m: Moved, id: TicketId) {
    && m.d.saved.id == id && Rest(cfg, b, m.d)
    && (m.proc.Some? ==> m.proc.value.id == id && Plain(m.proc.value.pc) && Local(cfg, b, m.d, m.proc.value))
  }

  // ---- PLAN ---------------------------------------------------------------------------------

  lemma {:induction false} WriteKeeps(cfg: Config, b: Option<Work>, d: Durable, kind: Kind, s: Option<StepId>)
    requires Rest(cfg, b, d) && (kind == NoteEntry || kind == StateEntry)
    ensures Rest(cfg, b, Write(d, kind, s, Empty))
    ensures forall p: Proc :: Runs(cfg, b, d, p) <==> Runs(cfg, b, Write(d, kind, s, Empty), p)
  {
    NoteKeepsView(d.journal, kind, s);
    SameViewKeeps(cfg, b, d, Append(d.journal, kind, s, Empty));
  }

  lemma {:induction false} IngestedKeeps(cfg: Config, b: Option<Work>, d: Durable, p: Proc, sub: Submission)
    requires Local(cfg, b, d, p) && p.pc == Ingested(sub)
    ensures MovedOk(cfg, b, TickIngested(cfg, d, p, sub), p.id)
  {
    hide FreshRecords;
    if cfg.gate.Some? && Expand(cfg.gate.value, sub.plan, sub.agent).Expanded? { ExpandKeeps(cfg.gate.value, sub.plan, sub.agent); }
    hide Expand;
    var m := TickIngested(cfg, d, p, sub);
    WriteKeeps(cfg, b, d, StateEntry, None);
    if m.proc.Some? {
      assert d.saved.state == IsOpen && p.mem == d.saved;
      assert Runs(cfg, b, d, m.proc.value);
      hide Rest, Runs;
    }
  }

  lemma {:induction false} MovingKeeps(cfg: Config, b: Option<Work>, d: Durable, p: Proc, target: TicketState)
    requires Local(cfg, b, d, p) && p.pc == Moving(target)
    ensures MovedOk(cfg, b, TickMoving(d, p, target), p.id) && TickMoving(d, p, target).proc.Some?
  {
    hide Rest, Runs, CanTransition;
    WriteKeeps(cfg, b, d, StateEntry, None);
    MovingRuns(cfg, b, d, p, target);
  }

  lemma {:induction false} MovingRuns(cfg: Config, b: Option<Work>, d: Durable, p: Proc, target: TicketState)
    requires Local(cfg, b, d, p) && p.pc == Moving(target)
    ensures CanTransition(p.mem.state, target) && Runs(cfg, b, d, Proc(p.id, p.mem.(state := target), Saving(target)))
  {
    hide InSync, Ended, Settled, ViewOf, Numbered, FreshRecords, HasPendingApproval;
  }

  /** What the save of the next state leaves on disk. */
  lemma {:induction false} SavedRest(cfg: Config, b: Option<Work>, b': Option<Work>, d: Durable, p: Proc, target: TicketState)
    requires Rest(cfg, b, d) && Runs(cfg, b, d, p) && p.pc == Saving(target)
    requires b' == if target == IsPlanned then Some(p.mem.work) else b
    ensures Rest(cfg, b', d.(saved := p.mem))
  {
    var t, v, m := d.saved, ViewOf(d.journal), p.mem;
    match target {
      case IsRunning => assert InSync(cfg, b, m, v, m.work);
      case IsAnalysing => SettledNow(cfg, b, t, m, v, m.work, m.work);
      case IsNeedsReview =>
        var x: Work :| Ended(cfg, b, t, v, x) && Extends(x, t.work);
        SettledNow(cfg, b, t, m, v, x, m.work);
      case IsDone =>
        var x: Work :| Ended(cfg, b, t, v, x) && Extends(x, t.work);
        SettledNow(cfg, b, t, m, v, x, m.work);
      case _ =>
    }
  }

  /** A RUNNING ticket just loaded or saved starts its scan at the first step. */
  lemma {:induction false} ScanStarts(cfg: Config, b: Option<Work>, d: Durable, p: Proc)
    requires Rest(cfg, b, d) && d.saved.state == IsRunning && p.mem == d.saved
    requires p.pc == Acting(ScanFrom(d.journal))
    ensures Runs(cfg, b, d, p)
  {
    ScanFromOk(d.saved.plan.value, d.journal);
    InSyncAligned(cfg, b, d.saved, ViewOf(d.journal), d.saved.work);
  }

  /** Where the process stands right behind the save of a state. */
  lemma {:induction false} SavedRuns(cfg: Config, b: Option<Work>, d: Durable, p: Proc)
    requires Rest(cfg, b, d) && d.saved == p.mem
    ensures d.saved.state == IsPlanned && !HasPendingApproval(d.saved) ==> Runs(cfg, b, d, p.(pc := Moving(IsApproved)))
    ensures d.saved.state == IsApproved ==> Runs(cfg, b, d, p.(pc := Moving(IsRunning)))
    ensures d.saved.state == IsAnalysing ==> Runs(cfg, b, d, p.(pc := CollectNote))
    ensures d.saved.state == IsPlanned && d.saved.plan.value.IsDestructive() ==>
      Runs(cfg, b, d, Proc(p.id, p.mem.(approvals := Requests(d.saved.plan.value.steps)), RequestNote))
  {
    hide Folded, InSync, Ended, Settled, ActingOk, Performing, Observing, Observed, Journaled, FreshPlan, FreshRecords, ViewOf, Numbered;
  }

  lemma {:induction false} SavingFacts(cfg: Config, b: Option<Work>, d: Durable, p: Proc, target: TicketState)
    requires Rest(cfg, b, d) && Runs(cfg, b, d, p) && p.pc == Saving(target)
    ensures p.mem.state == target
    ensures target == IsPlanned ==> p.mem.plan.Some? && p.mem.approvals == []
  {
    hide Rest, Folded, InSync, Ended, Settled, ActingOk, Performing, Observing, Observed, FreshRecords;
  }

  lemma {:induction false} SavingKeeps(cfg: Config, b: Option<Work>, b': Option<Work>, d: Durable, p: Proc, target: TicketState)
    requires Local(cfg, b, d, p) && p.pc == Saving(target)
    requires b' == if target == IsPlanned then Some(p.mem.work) else b
    ensures MovedOk(cfg, b', TickSaving(d, p, target), p.id)
  {
    hide Rest, Runs;
    SavedRest(cfg, b, b', d, p, target);
    SavingFacts(cfg, b, d, p, target);
    var m := TickSaving(d, p, target);
    SavedRuns(cfg, b', Save(d, p), p);
    if target == IsRunning { ScanStarts(cfg, b', m.d, m.proc.value); }
  }

  /** Settled carries over to a ticket with the same plan. */
  lemma {:induction false} SettledNow(cfg: Config, b: Option<Work>, t: Ticket, m: Ticket, v: View, x: Work, work: Work)
    requires PlanReady(b, t) && Journaled(t.plan.value, v) && Ended(cfg, b, t, v, x) && Extends(x, work)
    requires m.plan == t.plan
    ensures Settled(cfg, b, m, v, work)
  {
    assert Ended(cfg, b, m, v, x);
  }

  /** A note in the journal, the process moving on with what it has in memory. */
  lemma {:induction false} NoteKeeps(cfg: Config, b: Option<Work>, d: Durable, p: Proc, s: Option<StepId>, pc: Pc)
    requires Local(cfg, b, d, p.(pc := pc)) && Plain(pc)
    ensures MovedOk(cfg, b, Note(d, p, s, pc), p.id)
  {
    hide Rest, Runs;
    WriteKeeps(cfg, b, d, NoteEntry, s);
  }

  lemma {:induction false} ApprovalsKeep(cfg: Config, b: Option<Work>, d: Durable, a: seq<Approval>)
    requires Rest(cfg, b, d) && d.saved.plan.Some?
    ensures Rest(cfg, b, d.(saved := d.saved.(approvals := a)))
  {
    var t, m, v := d.saved, d.saved.(approvals := a), ViewOf(d.journal);
    if t.state in {IsAnalysing, IsNeedsReview, IsDone} {
      var x: Work :| Ended(cfg, b, t, v, x) && Extends(x, t.work);
      SettledNow(cfg, b, t, m, v, x, m.work);
    }
  }

  // ---- ACT ------------------------------------------------------------------------------------

  lemma {:induction false} IntentRuns(cfg: Config, b: Option<Work>, d: Durable, p: Proc, scan: Scan)
    requires Local(cfg, b, d, p) && p.pc == WriteIntent(scan)
    ensures MovedOk(cfg, b, TickIntent(d, p, scan), p.id)
  {
    hide Rest, Runs, InSync, Folded, Locate, Append;
    ActFacts(cfg, b, d, p);
    OnPlanStep(cfg, b, d, p, scan);
    var s := Some(d.saved.plan.value.steps[scan.i].id);
    IntentKeeps(cfg, b, d, p, scan, if s == scan.interrupted then Redo else Empty);
  }

  lemma {:induction false} ObservationRuns(cfg: Config, b: Option<Work>, d: Durable, p: Proc, scan: Scan, o: Observation)
    requires Local(cfg, b, d, p) && p.pc == WriteObservation(scan, o)
    ensures MovedOk(cfg, b, TickObservation(cfg, d, p, scan, o), p.id)
  {
    hide Rest, Runs, InSync, Folded, Locate, Append, Finish;
    ActFacts(cfg, b, d, p);
    OnPlanStep(cfg, b, d, p, scan);
    ObservationKeeps(cfg, b, d, p, scan, o);
  }

  // ---- ANALYSE and CLOSE ------------------------------------------------------------------------

  lemma {:induction false} RcaRuns(cfg: Config, b: Option<Work>, d: Durable, p: Proc, q: Proc)
    requires Rest(cfg, b, d) && Runs(cfg, b, d, p) && p.pc.RcaNote? && q.pc.Spawning?
    requires q.mem == p.mem.(work := q.mem.work) && Extends(p.mem.work, q.mem.work)
    ensures Runs(cfg, b, d, q)
  {
    hide Folded, InSync, Ended, Settled, ActingOk, Performing, Observing, Observed, Journaled, FreshPlan, FreshRecords, ViewOf, Numbered;
  }

  lemma {:induction false} RcaKeeps(cfg: Config, b: Option<Work>, d: Durable, p: Proc, rca: Option<Rca>)
    requires Local(cfg, b, d, p) && p.pc.RcaNote?
    ensures MovedOk(cfg, b, TickRca(cfg, d, p, rca), p.id)
  {
    hide Rest, Runs, Triage, NewFindings;
    var m := TickRca(cfg, d, p, rca);
    RcaRuns(cfg, b, d, p, m.proc.value);
    WriteKeeps(cfg, b, d, NoteEntry, None);
  }

  lemma {:induction false} SaveSopKeeps(cfg: Config, b: Option<Work>, d: Durable, p: Proc)
    requires Local(cfg, b, d, p) && p.pc == SaveSop
    ensures Rest(cfg, b, Save(d, p)) && Runs(cfg, b, Save(d, p), p.(pc := Moving(FinalState(p.mem))))
  {
    hide InSync, Folded, Ended, ViewOf, Numbered, FreshRecords, HasFailedStep;
    var t, v, m := d.saved, ViewOf(d.journal), p.mem;
    var x: Work :| Ended(cfg, b, t, v, x) && Extends(x, t.work);
    SettledNow(cfg, b, t, m, v, x, m.work);
  }

  // ---- all local effects ------------------------------------------------------------------------

  /** Notes only move the process along. */
  lemma {:induction false} NotePoints(cfg: Config, b: Option<Work>, d: Durable, p: Proc)
    requires Local(cfg, b, d, p) && IsNote(p.pc)
    ensures Local(cfg, b, d, p.(pc := AfterNote(p.pc).1))
  {
    hide Rest, Folded, InSync, Ended, Settled, ActingOk, Performing, Observing, Observed, FreshPlan, FreshRecords, Requests;
  }

  lemma {:induction false} ApprovalPoints(cfg: Config, b: Option<Work>, d: Durable, p: Proc)
    requires Local(cfg, b, d, p) && (p.pc == SaveRequest || p.pc == SaveApproval)
    ensures MovedOk(cfg, b, Moved(Save(d, p), None), p.id)
  {
    ApprovalsKeep(cfg, b, d, p.mem.approvals);
    hide Rest;
    assert p.mem == d.saved.(approvals := p.mem.approvals);
  }

  lemma {:induction false} LocalKeeps(cfg: Config, b: Option<Work>, b': Option<Work>, d: Durable, p: Proc)
    requires Local(cfg, b, d, p) && IsLocal(p.pc)
    requires b' == if p.pc == Saving(IsPlanned) then Some(p.mem.work) else b
    ensures MovedOk(cfg, b', TickLocal(cfg, d, p), p.id)
  {
    hide Rest, Runs, TickActing, TickIngested, TickSaving, TickIntent, TickObservation, TickMoving, Note;
    if IsNote(p.pc) {
      NotePoints(cfg, b, d, p);
      NoteKeeps(cfg, b, d, p, AfterNote(p.pc).0, AfterNote(p.pc).1);
    } else {
      match p.pc {
        case Ingested(sub) => IngestedKeeps(cfg, b, d, p, sub);
        case Moving(target) => MovingKeeps(cfg, b, d, p, target);
        case Saving(target) => SavingKeeps(cfg, b, b', d, p, target);
        case SaveRequest => ApprovalPoints(cfg, b, d, p);
        case SaveApproval => ApprovalPoints(cfg, b, d, p);
        case Acting(scan) => ActingRuns(cfg, b, d, p, scan); ActingIds(cfg, p, scan);
        case SaveRunning(scan) => SaveRunningKeeps(cfg, b, d, p, scan);
        case WriteIntent(scan) => IntentRuns(cfg, b, d, p, scan);
        case WriteObservation(scan, o) => ObservationRuns(cfg, b, d, p, scan, o);
        case SaveStep(scan) => SaveStepKeeps(cfg, b, d, p, scan);
        case SaveSop => SaveSopKeeps(cfg, b, d, p);
      }
    }
  }

  lemma {:induction false} ActingIds(cfg: Config, p: Proc, scan: Scan)
    ensures var q := TickActing(cfg, p, scan); q.Some? ==> q.value.mem.id == p.mem.id
  {
  }

  // ---- the world --------------------------------------------------------------------------------

  /** One ticket's files and the process change, and the log only for that ticket. */
  lemma {:induction false} ApplyKeeps(cfg: Config, w: World, log: History, id: TicketId, m: Moved)
    requires WorldOk(cfg, w) && id in w.tickets
    requires forall x :: x in w.tickets && x != id ==> Base(w.(log := log), x) == Base(w, x)
    requires MovedOk(cfg, Base(w.(log := log), id), m, id)
    ensures WorldOk(cfg, Apply(w.(log := log), id, m))
  {
    hide Rest, Runs;
    var w0, w' := w.(log := log), Apply(w.(log := log), id, m);
    assert forall x :: Base(w', x) == Base(w0, x);
    forall x | x in w'.tickets ensures Rest(cfg, Base(w', x), w'.tickets[x]) {
      if x != id { assert w'.tickets[x] == w.tickets[x]; }
    }
  }

  /** While bug tickets are spawned the parent's files do not change. */
  lemma {:induction false} SpawnRuns(cfg: Config, b: Option<Work>, d: Durable, p: Proc, q: Proc)
    requires Local(cfg, b, d, p) && (p.pc.Spawning? || p.pc.SaveChild? || p.pc.RecordChild?)
    requires q.pc.Spawning? || q.pc.SaveChild? || q.pc.RecordChild? || q.pc == SpawnNote || q.pc == SopNote
    requires q.id == p.id && q.mem == p.mem.(work := p.mem.work.(findings := q.mem.work.findings))
    ensures Runs(cfg, b, d, q)
  {
    hide Folded, InSync, Ended, Settled, ActingOk, Performing, Observing, Observed, Journaled, FreshPlan, FreshRecords, ViewOf, Numbered;
  }

  lemma {:induction false} ChildRests(cfg: Config, b: Option<Work>, p: Proc, s: Spawn, child: TicketId)
    requires s.todo != []
    ensures Rest(cfg, b, Durable(ChildTicket(p.mem, child, s.todo[0], s.votes), []))
  {
  }

  /** The parent is untouched and every new ticket is at rest. */
  lemma {:induction false} SpawnWorld(cfg: Config, w: World, p: Proc, w': World)
    requires WorldOk(cfg, w) && w.proc == Some(p) && w'.proc.Some? && w'.log == w.log && p.id in w'.tickets
    requires p.pc.Spawning? || p.pc.SaveChild? || p.pc.RecordChild?
    requires w'.tickets[p.id] == w.tickets[p.id]
    requires forall x :: x in w'.tickets ==> w'.tickets[x].saved.id == x && x.number <= SequenceOf(w', x.agent)
    requires forall x :: x in w'.tickets ==>
      (x in w.tickets && w'.tickets[x] == w.tickets[x]) || Rest(cfg, Base(w, x), w'.tickets[x])
    requires var q := w'.proc.value;
      && q.id == p.id && q.mem == p.mem.(work := p.mem.work.(findings := q.mem.work.findings))
      && (q.pc.Spawning? || q.pc == SpawnNote || q.pc == SopNote
          || (q.pc.SaveChild? && q.pc.child !in w'.tickets && q.pc.child.number == SequenceOf(w', q.pc.child.agent)
              && q.pc.spawn.todo != [] && q.pc.spawn.todo[0].ticketId.None?)
          || (q.pc.RecordChild? && q.pc.child in w'.tickets && q.pc.child != p.id
              && q.pc.spawn.todo != [] && q.pc.spawn.todo[0].ticketId.None?))
    ensures WorldOk(cfg, w')
  {
    hide Rest, Runs;
    assert Local(cfg, Base(w, p.id), w.tickets[p.id], p);
    SpawnRuns(cfg, Base(w, p.id), w.tickets[p.id], p, w'.proc.value);
    assert forall x :: Base(w', x) == Base(w, x);
    forall x | x in w'.tickets ensures Rest(cfg, Base(w', x), w'.tickets[x]) {
      if x in w.tickets && w'.tickets[x] == w.tickets[x] { assert Rest(cfg, Base(w, x), w.tickets[x]); }
    }
    assert ProcOk(cfg, w', w'.proc.value);
  }

  lemma {:induction false} ProcKnows(cfg: Config, w: World, p: Proc)
    requires WorldOk(cfg, w) && w.proc == Some(p) && !p.pc.SaveNew?
    ensures p.id in w.tickets && p.mem.id == p.id
  {
    hide Rest, Runs;
  }

  /** Looking at the next finding changes no ticket; at most a number is taken. */
  lemma {:induction false} SpawningShape(w: World, p: Proc, s: Spawn)
    ensures var w' := TickSpawning(w, p, s);
      && w'.tickets == w.tickets && w'.log == w.log && w'.proc.Some?
      && w'.proc.value.id == p.id
      && w'.proc.value.mem == p.mem.(work := p.mem.work.(findings := w'.proc.value.mem.work.findings))
      && (if w'.proc.value.pc.SaveChild?
            then && w'.sequence == w.sequence[p.id.agent := SequenceOf(w, p.id.agent) + 1]
                 && w'.proc.value.pc.child == TicketId(p.id.agent, SequenceOf(w, p.id.agent) + 1)
                 && w'.proc.value.pc.spawn.todo != [] && w'.proc.value.pc.spawn.todo[0].ticketId.None?
            else w'.sequence == w.sequence
                 && (w'.proc.value.pc.Spawning? || w'.proc.value.pc == SpawnNote || w'.proc.value.pc == SopNote))
  {
  }

  lemma {:induction false} SpawningKeeps(cfg: Config, w: World, p: Proc, s: Spawn)
    requires WorldOk(cfg, w) && w.proc == Some(p) && p.pc == Spawning(s)
    ensures WorldOk(cfg, TickSpawning(w, p, s))
  {
    hide Rest, Runs, ProcOk;
    var w' := TickSpawning(w, p, s);
    SpawningShape(w, p, s);
    assert p.id in w.tickets by { ProcKnows(cfg, w, p); }
    assert forall x :: x in w'.tickets ==> SequenceOf(w, x.agent) <= SequenceOf(w', x.agent);
    if w'.proc.value.pc.SaveChild? {
      assert forall x :: x in w.tickets && x.agent == p.id.agent ==> x.number < w'.proc.value.pc.child.number;
    }
    SpawnWorld(cfg, w, p, w');
  }

  lemma {:induction false} SaveChildKeeps(cfg: Config, w: World, p: Proc, s: Spawn, child: TicketId)
    requires WorldOk(cfg, w) && w.proc == Some(p) && p.pc == SaveChild(s, child)
    ensures WorldOk(cfg, TickSaveChild(w, p, s, child))
  {
    hide Rest, Runs;
    ChildRests(cfg, Base(w, child), p, s, child);
    SpawnWorld(cfg, w, p, TickSaveChild(w, p, s, child));
  }

  lemma {:induction false} RecordChildKeeps(cfg: Config, w: World, p: Proc, s: Spawn, child: TicketId)
    requires WorldOk(cfg, w) && w.proc == Some(p) && p.pc == RecordChild(s, child)
    ensures WorldOk(cfg, TickRecordChild(w, p, s, child))
  {
    hide Rest, Runs;
    SpawnWorld(cfg, w, p, TickRecordChild(w, p, s, child));
  }

  lemma {:induction false} SpawnKeeps(cfg: Config, w: World, p: Proc)
    requires WorldOk(cfg, w) && w.proc == Some(p)
    requires p.pc.Spawning? || p.pc.SaveChild? || p.pc.RecordChild?
    ensures WorldOk(cfg, TickSpawn(w, p))
  {
    hide WorldOk, TickSpawning, TickSaveChild, TickRecordChild;
    match p.pc {
      case Spawning(s) => SpawningKeeps(cfg, w, p, s);
      case SaveChild(s, child) => SaveChildKeeps(cfg, w, p, s, child);
      case RecordChild(s, child) => RecordChildKeeps(cfg, w, p, s, child);
    }
  }

  lemma {:induction false} NewRests(cfg: Config, b: Option<Work>, p: Proc)
    requires p.pc.SaveNew? && p.mem == NewTicket(p.id, p.mem.jobId)
    ensures Rest(cfg, b, Durable(p.mem, []))
    ensures Runs(cfg, b, Durable(p.mem, []), p.(pc := Ingested(p.pc.sub)))
  {
  }

  lemma {:induction false} TickKeeps(cfg: Config, w: World, p: Proc)
    requires WorldOk(cfg, w) && w.proc == Some(p)
    ensures WorldOk(cfg, TickProc(cfg, w, p))
  {
    hide WorldOk, TickLocal, TickSpawn;
    if p.pc.SaveNew? {
      SaveNewKeeps(cfg, w, p);
    } else if p.pc.Execute? || p.pc.RcaNote? {
    } else if p.pc.Spawning? || p.pc.SaveChild? || p.pc.RecordChild? {
      SpawnKeeps(cfg, w, p);
    } else {
      LocalTickKeeps(cfg, w, p);
    }
  }

  lemma {:induction false} SaveNewKeeps(cfg: Config, w: World, p: Proc)
    requires WorldOk(cfg, w) && w.proc == Some(p) && p.pc.SaveNew?
    ensures WorldOk(cfg, TickProc(cfg, w, p))
  {
    hide Rest, Runs, TickLocal, TickSpawn;
    NewRests(cfg, Base(w, p.id), p);
    var w' := TickProc(cfg, w, p);
    assert forall x :: Base(w', x) == Base(w, x);
    forall x | x in w'.tickets ensures Rest(cfg, Base(w', x), w'.tickets[x]) {
      if x != p.id { assert w'.tickets[x] == w.tickets[x]; }
    }
  }

  lemma {:induction false} LocalTickKeeps(cfg: Config, w: World, p: Proc)
    requires WorldOk(cfg, w) && w.proc == Some(p) && IsLocal(p.pc)
    ensures WorldOk(cfg, TickProc(cfg, w, p))
  {
    hide Rest, Runs, TickLocal, TickSpawn;
    var log := Remember(w, p).log;
    assert p.id in w.tickets;
    LocalKeeps(cfg, Base(w, p.id), Base(w.(log := log), p.id), w.tickets[p.id], p);
    ApplyKeeps(cfg, w, log, p.id, TickLocal(cfg, w.tickets[p.id], p));
    hide WorldOk;
  }

  lemma {:induction false} ResumeRuns(cfg: Config, b: Option<Work>, d: Durable, p: Proc)
    requires Rest(cfg, b, d) && ResumePoint(d) == Some(p.pc) && p.mem == d.saved
    ensures Runs(cfg, b, d, p)
  {
    if d.saved.state == IsRunning { ScanStarts(cfg, b, d, p); }
  }

  lemma {:induction false} ApproveRuns(cfg: Config, b: Option<Work>, d: Durable, p: Proc, s: StepId)
    requires Rest(cfg, b, d) && d.saved.approvals != []
    requires p.pc == ApproveNote(s) && p.mem == d.saved.(approvals := p.mem.approvals)
    ensures Runs(cfg, b, d, p)
  {
  }

  lemma {:induction false} ProcStarts(cfg: Config, w: World, p: Proc)
    requires WorldOk(cfg, w) && p.id in w.tickets && p.mem.id == p.id && Plain(p.pc)
    requires Runs(cfg, Base(w, p.id), w.tickets[p.id], p)
    ensures WorldOk(cfg, w.(proc := Some(p)))
  {
    hide Rest, Runs;
    assert forall x :: Base(w.(proc := Some(p)), x) == Base(w, x);
  }

  lemma {:induction false} StartKeeps(cfg: Config, w: World, id: TicketId, s: StepId)
    requires WorldOk(cfg, w) && w.proc.None? && id in w.tickets
    ensures WorldOk(cfg, StartResume(w, id)) && WorldOk(cfg, StartApprove(w, id, s))
  {
    hide Rest, Runs, FirstPending, Completed, OpenIntent;
    var d, r, a := w.tickets[id], StartResume(w, id), StartApprove(w, id, s);
    if r.proc.Some? {
      ResumeRuns(cfg, Base(w, id), d, r.proc.value);
      ProcStarts(cfg, w, r.proc.value);
    }
    if a.proc.Some? {
      ApproveRuns(cfg, Base(w, id), d, a.proc.value, s);
      ProcStarts(cfg, w, a.proc.value);
    }
  }

  lemma {:induction false} PerformRuns(cfg: Config, b: Option<Work>, d: Durable, p: Proc, scan: Scan, o: Observation)
    requires Local(cfg, b, d, p) && p.pc == Execute(scan)
    ensures OnStep(p, scan) && Runs(cfg, b, d, p.(pc := WriteObservation(scan, o)))
  {
    OnPlanStep(cfg, b, d, p, scan);
  }

  lemma {:induction false} PerformKeeps(cfg: Config, w: World, p: Proc, scan: Scan, o: Observation)
    requires WorldOk(cfg, w) && w.proc == Some(p) && p.pc == Execute(scan)
    ensures OnStep(p, scan) && WorldOk(cfg, PerformStep(w, p, scan, o))
  {
    hide Rest, Runs;
    var d, b, w' := w.tickets[p.id], Base(w, p.id), PerformStep(w, p, scan, o);
    PerformRuns(cfg, b, d, p, scan, o);
    assert w.tickets[p.id := d] == w.tickets;
    ApplyKeeps(cfg, w, w'.log, p.id, Moved(d, w'.proc));
  }

  lemma {:induction false} NextKeeps(cfg: Config, w: World, e: Event)
    requires WorldOk(cfg, w)
    ensures WorldOk(cfg, Next(cfg, w, e))
  {
    hide WorldOk, TickProc, StartRun, StartResume, StartApprove, PerformStep, AnalyseStep;
    var w' := Next(cfg, w, e);
    match e {
      case Submit(sub) => if w.proc.None? { SubmitKeeps(cfg, w, sub); }
      case Approve(id, s) => if w.proc.None? && id in w.tickets { StartKeeps(cfg, w, id, s); }
      case Resume(id) => if w.proc.None? && id in w.tickets { StartKeeps(cfg, w, id, ""); }
      case Tick => if w.proc.Some? { TickKeeps(cfg, w, w.proc.value); }
      case Perform(o) =>
        if w.proc.Some? && w.proc.value.pc.Execute? { PerformKeeps(cfg, w, w.proc.value, w.proc.value.pc.scan, o); }
      case Analyse(rca) =>
        if w.proc.Some? && w.proc.value.pc.RcaNote? && w.proc.value.id in w.tickets { AnalyseKeeps(cfg, w, w.proc.value, rca); }
      case Crash => if w.proc.Some? { SameTickets(cfg, w, w'); }
    }
  }

  lemma {:induction false} AnalyseKeeps(cfg: Config, w: World, p: Proc, rca: Option<Rca>)
    requires WorldOk(cfg, w) && w.proc == Some(p) && p.pc.RcaNote? && p.id in w.tickets
    ensures WorldOk(cfg, AnalyseStep(cfg, w, p, rca))
  {
    hide Rest, Runs, TickRca;
    var w' := AnalyseStep(cfg, w, p, rca);
    RcaKeeps(cfg, Base(w, p.id), w.tickets[p.id], p, rca);
    ApplyKeeps(cfg, w, w'.log, p.id, TickRca(cfg, w.tickets[p.id], p, rca));
  }

  /** A crash leaves the files alone. */
  lemma {:induction false} SameTickets(cfg: Config, w: World, w': World)
    requires WorldOk(cfg, w) && w'.tickets == w.tickets && w'.sequence == w.sequence && w'.log.planned == w.log.planned && w'.proc.None?
    ensures WorldOk(cfg, w')
  {
    hide Rest, Runs;
    assert forall x :: Base(w', x) == Base(w, x);
  }

  /** A submission takes the next number and leaves the files alone. */
  lemma {:induction false} SubmitKeeps(cfg: Config, w: World, sub: Submission)
    requires WorldOk(cfg, w) && w.proc.None?
    ensures WorldOk(cfg, StartRun(w, sub))
  {
    hide Rest, Runs;
    assert forall x :: Base(StartRun(w, sub), x) == Base(w, x);
  }

  /** Every run, with crashes anywhere, keeps the invariant. */
  lemma {:induction false} AlwaysOk(cfg: Config, es: seq<Event>)
    ensures WorldOk(cfg, After(cfg, es))
  {
    if es != [] {
      AlwaysOk(cfg, es[..|es| - 1]);
      NextKeeps(cfg, After(cfg, es[..|es| - 1]), es[|es| - 1]);
    }
  }
}
