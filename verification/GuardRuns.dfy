/** Approvals, clean folds and execution counts hold of every ticket after every run. */
module GuardRuns {
  import opened Options
  import opened Records
  import opened Journal
  import opened Attachments
  import opened Act
  import opened Machine
  import opened TicketInvariant
  import opened TicketSteps
  import opened TicketRuns
  import opened ApprovalInvariant
  import opened CleanInvariant

  // ---- counting executions --------------------------------------------------------------------

  function Count(xs: seq<Execution>, id: TicketId, s: StepId): (n: nat)
  {
    if xs == [] then 0
    else Count(xs[..|xs| - 1], id, s) + if xs[|xs| - 1].id == id && xs[|xs| - 1].step.id == s then 1 else 0
  }

  lemma {:induction false} CountAppend(xs: seq<Execution>, x: Execution, id: TicketId, s: StepId)
    ensures Count(xs + [x], id, s) == Count(xs, id, s) + if x.id == id && x.step.id == s then 1 else 0
  {
    assert (xs + [x])[..|xs + [x]| - 1] == xs;
  }

  lemma {:induction false} CountAbsent(xs: seq<Execution>, id: TicketId, s: StepId)
    requires forall x :: x in xs ==> x.id != id
    ensures Count(xs, id, s) == 0
  {
    if xs != [] {
      assert xs[|xs| - 1] in xs;
      assert forall x :: x in xs[..|xs| - 1] ==> x in xs;
      CountAbsent(xs[..|xs| - 1], id, s);
    }
  }

  predicate AtExecute(v: Option<Proc>, s: StepId) {
    v.Some? && v.value.pc.Execute? && OnStep(v.value, v.value.pc.scan) && StepAt(v.value, v.value.pc.scan).id == s
  }

  predicate AtObservation(v: Option<Proc>, s: StepId) {
    v.Some? && v.value.pc.WriteObservation? && OnStep(v.value, v.value.pc.scan) && StepAt(v.value, v.value.pc.scan).id == s
  }

  function One(b: bool): (n: nat) { if b then 1 else 0 }

  /** Executions against cuts, observations and intents of one step. */
  ghost predicate CountOk(n: nat, cuts: nat, j: seq<Entry>, v: Option<Proc>, s: StepId) {
    && n <= cuts + One(s in ObservedIds(j)) + One(AtObservation(v, s))
    && n + One(AtExecute(v, s)) <= IntentCount(j, s)
  }

  ghost predicate CountsOk(log: History, id: TicketId, d: Durable, v: Option<Proc>) {
    forall s :: CountOk(Count(log.executions, id, s), Count(log.cuts, id, s), d.journal, v, s)
  }

  /** The journal entry a local effect writes, if any. */
  lemma {:induction false} LocalEntry(cfg: Config, d: Durable, p: Proc)
    requires IsLocal(p.pc)
    ensures var m := TickLocal(cfg, d, p);
      && (p.pc.WriteIntent? && OnStep(p, p.pc.scan) ==>
            m.proc == Some(p.(pc := Execute(p.pc.scan)))
            && exists y: Payload :: !y.Seen? && m.d.journal == Append(d.journal, IntentEntry, Some(StepAt(p, p.pc.scan).id), y))
      && (p.pc.WriteObservation? && OnStep(p, p.pc.scan) ==>
            && m.d.journal == Append(d.journal, ObservationEntry, Some(StepAt(p, p.pc.scan).id), Seen(p.pc.seen))
            && m.proc.Some? && m.proc.value.pc.SaveStep?)
      && (!p.pc.WriteIntent? && !p.pc.WriteObservation? ==>
            && (m.d.journal == d.journal || exists kind, x :: (kind == NoteEntry || kind == StateEntry) && m.d.journal == Append(d.journal, kind, x, Empty))
            && (m.proc.Some? ==> !m.proc.value.pc.Execute? && !m.proc.value.pc.WriteObservation?))
  {
    hide Finish, Locate, FreshRecords, MarkRunning, Requests, Completed, OpenIntent, GateResult;
  }

  lemma {:induction false} StandsOnStep(cfg: Config, b: Option<Work>, d: Durable, p: Proc)
    requires Local(cfg, b, d, p) && BeforeObservation(p.pc) && !p.pc.SaveRunning?
    ensures OnStep(p, p.pc.scan) && StepAt(p, p.pc.scan).id !in ObservedIds(d.journal)
    ensures StepAt(p, p.pc.scan) == d.saved.plan.value.steps[p.pc.scan.i]
  {
    ActFacts(cfg, b, d, p);
    OnPlanStep(cfg, b, d, p, p.pc.scan);
    hide Rest, Runs, InSync, Folded;
    var ids, plan, i := ObservedIds(d.journal), d.saved.plan.value, p.pc.scan.i;
    forall m | 0 <= m < |ids| ensures ids[m] != plan.steps[i].id {
      assert ids[m] == plan.steps[m].id;
    }
  }

  lemma {:induction false} CountsKept(cfg: Config, b: Option<Work>, log: History, d: Durable, p: Proc)
    requires Local(cfg, b, d, p) && IsLocal(p.pc) && CountsOk(log, p.id, d, Some(p))
    ensures var m := TickLocal(cfg, d, p); CountsOk(log, p.id, m.d, m.proc)
  {
    hide TickLocal, Locate, Rest, Runs;
    LocalEntry(cfg, d, p);
    var m := TickLocal(cfg, d, p);
    if p.pc.WriteIntent? {
      StandsOnStep(cfg, b, d, p);
      var y: Payload :| !y.Seen? && m.d.journal == Append(d.journal, IntentEntry, Some(StepAt(p, p.pc.scan).id), y);
      AppendUnfolds(d.journal, IntentEntry, Some(StepAt(p, p.pc.scan).id), y);
    } else if p.pc.WriteObservation? {
      StandsOnStep(cfg, b, d, p);
      AppendUnfolds(d.journal, ObservationEntry, Some(StepAt(p, p.pc.scan).id), Seen(p.pc.seen));
    } else if m.d.journal != d.journal {
      var kind, x :| (kind == NoteEntry || kind == StateEntry) && m.d.journal == Append(d.journal, kind, x, Empty);
      AppendUnfolds(d.journal, kind, x, Empty);
    }
    hide Append, ObservedIds, IntentCount, Count;
    forall s ensures CountOk(Count(log.executions, p.id, s), Count(log.cuts, p.id, s), m.d.journal, m.proc, s) {
      assert CountOk(Count(log.executions, p.id, s), Count(log.cuts, p.id, s), d.journal, Some(p), s);
    }
  }

  // ---- all three, for every ticket --------------------------------------------------------------

  ghost predicate Guarded(cfg: Config, b: Option<Work>, log: History, id: TicketId, d: Durable, v: Option<Proc>) {
    && ApprovalsOk(id in log.requestCut, d, v)
    && (id !in log.failCut ==> CleanOk(cfg, b, d, v))
    && CountsOk(log, id, d, v)
  }

  ghost predicate GuardsOk(cfg: Config, w: World) {
    && (forall id :: id in w.tickets ==> Guarded(cfg, Base(w, id), w.log, id, w.tickets[id], ProcOf(w, id)))
    && (forall id :: id in w.log.requestCut || id in w.log.failCut ==> id in w.tickets)
    && (forall x :: x in w.log.executions || x in w.log.cuts ==> x.id in w.tickets)
  }

  /** A ticket without a plan is guarded by having nothing to guard. */
  lemma {:induction false} NewGuarded(cfg: Config, b: Option<Work>, log: History, id: TicketId, t: Ticket, v: Option<Proc>)
    requires t.state == IsOpen && Planless(t) && id !in log.requestCut && !InRequest(v)
    requires forall x :: x in log.executions || x in log.cuts ==> x.id != id
    requires v.Some? ==> v.value.pc.Ingested?
    ensures Guarded(cfg, b, log, id, Durable(t, []), v)
  {
    forall s ensures CountOk(Count(log.executions, id, s), Count(log.cuts, id, s), [], v, s) {
      CountAbsent(log.executions, id, s);
    }
  }

  lemma {:induction false} LocalGuarded(cfg: Config, b: Option<Work>, b': Option<Work>, log: History, log': History, d: Durable, p: Proc)
    requires Local(cfg, b, d, p) && IsLocal(p.pc) && Guarded(cfg, b, log, p.id, d, Some(p))
    requires b' == if p.pc == Saving(IsPlanned) then Some(p.mem.work) else b
    requires log' == log.(planned := log'.planned)
    ensures var m := TickLocal(cfg, d, p); Guarded(cfg, b', log', p.id, m.d, m.proc)
  {
    hide Rest, Runs, TickLocal, CleanOk, CountOk;
    ApprovalsKept(cfg, b, p.id in log.requestCut, d, p);
    if p.id !in log.failCut { CleanKept(cfg, b, b', d, p); }
    CountsKept(cfg, b, log, d, p);
  }

  /** Starting on a ticket at rest. */
  lemma {:induction false} StartGuarded(cfg: Config, b: Option<Work>, log: History, d: Durable, p: Proc)
    requires Rest(cfg, b, d) && Guarded(cfg, b, log, p.id, d, None)
    requires p.mem == d.saved && ResumePoint(d) == Some(p.pc)
    ensures Guarded(cfg, b, log, p.id, d, Some(p))
  {
    hide Rest, WholeFold, ViewOf, Completed, OpenIntent, Count;
    forall s ensures CountOk(Count(log.executions, p.id, s), Count(log.cuts, p.id, s), d.journal, Some(p), s) {
      assert CountOk(Count(log.executions, p.id, s), Count(log.cuts, p.id, s), d.journal, None, s);
    }
    assert d.saved.state == IsRunning && |ViewOf(d.journal).seen| == 0 && p.id !in log.failCut ==> Passing(cfg, d.saved, ViewOf(d.journal), 0);
  }

  lemma {:induction false} ApproveGuarded(cfg: Config, b: Option<Work>, log: History, d: Durable, p: Proc, s: StepId)
    requires Rest(cfg, b, d) && Guarded(cfg, b, log, p.id, d, None) && d.saved.plan.Some?
    requires FirstPending(d.saved.approvals, s) < |d.saved.approvals| && p.pc == ApproveNote(s)
    requires p.mem == d.saved.(approvals := d.saved.approvals[FirstPending(d.saved.approvals, s) := Approval(s, Some(true))])
    ensures Guarded(cfg, b, log, p.id, d, Some(p))
  {
    hide Rest, CleanOk, FirstPending;
    var t, i := d.saved, FirstPending(d.saved.approvals, s);
    assert t.approvals[i].approved.None?;
    assert HasPendingApproval(t);
    forall x | Asked(t.approvals, x) ensures Asked(p.mem.approvals, x) {
      var a :| 0 <= a < |t.approvals| && t.approvals[a].stepId == x;
      assert p.mem.approvals[a].stepId == x;
    }
    forall x ensures CountOk(Count(log.executions, p.id, x), Count(log.cuts, p.id, x), d.journal, Some(p), x) {
      assert CountOk(Count(log.executions, p.id, x), Count(log.cuts, p.id, x), d.journal, None, x);
    }
    CleanSame(cfg, b, d, None, Some(p));
  }

  /** Program points outside ACT say nothing about clean folds. */
  predicate Elsewhere(v: Option<Proc>) {
    v.Some? ==> !v.value.pc.SaveStep? && !v.value.pc.Acting? && !BeforeObservation(v.value.pc)
                && v.value.pc != Moving(IsAnalysing) && v.value.pc != Saving(IsAnalysing)
  }

  lemma {:induction false} CleanSame(cfg: Config, b: Option<Work>, d: Durable, v: Option<Proc>, v': Option<Proc>)
    requires Elsewhere(v) && Elsewhere(v')
    ensures CleanOk(cfg, b, d, v) == CleanOk(cfg, b, d, v')
  {
    hide Passing, FailureKept, WholeFold;
  }

  /** While ANALYSE works in memory, or nothing does, the guards are about the files alone. */
  lemma {:induction false} ElsewhereGuarded(cfg: Config, b: Option<Work>, log: History, id: TicketId, d: Durable, v: Option<Proc>, v': Option<Proc>)
    requires Guarded(cfg, b, log, id, d, v) && Elsewhere(v) && Elsewhere(v') && !InRequest(v) && !InRequest(v')
    requires v.Some? ==> !v.value.pc.ApproveNote? && !v.value.pc.SaveApproval?
    requires v'.Some? ==> !v'.value.pc.ApproveNote? && !v'.value.pc.SaveApproval?
    ensures Guarded(cfg, b, log, id, d, v')
  {
    hide CleanOk;
    CleanSame(cfg, b, d, v, v');
    forall x ensures CountOk(Count(log.executions, id, x), Count(log.cuts, id, x), d.journal, v', x) {
      assert CountOk(Count(log.executions, id, x), Count(log.cuts, id, x), d.journal, v, x);
    }
  }

  lemma {:induction false} RcaGuarded(cfg: Config, b: Option<Work>, log: History, d: Durable, p: Proc, q: Proc)
    requires Guarded(cfg, b, log, p.id, d, Some(p)) && p.pc.RcaNote? && q.pc.Spawning? && q.id == p.id
    ensures Guarded(cfg, b, log, p.id, Write(d, NoteEntry, None, Empty), Some(q))
  {
    hide CleanOk, Append;
    NoteKeepsView(d.journal, NoteEntry, None);
    AppendUnfolds(d.journal, NoteEntry, None, Empty);
    if p.id !in log.failCut { StoryClean(cfg, b, d, p, Some(q), Append(d.journal, NoteEntry, None, Empty), d.saved.approvals); }
    var j := Append(d.journal, NoteEntry, None, Empty);
    assert Durable(d.saved.(approvals := d.saved.approvals), j) == Write(d, NoteEntry, None, Empty);
    forall x ensures CountOk(Count(log.executions, p.id, x), Count(log.cuts, p.id, x), j, Some(q), x) {
      assert CountOk(Count(log.executions, p.id, x), Count(log.cuts, p.id, x), d.journal, Some(p), x);
    }
  }

  lemma {:induction false} PerformGuarded(cfg: Config, b: Option<Work>, log: History, log': History, d: Durable, p: Proc, scan: Scan, o: Observation)
    requires Local(cfg, b, d, p) && Guarded(cfg, b, log, p.id, d, Some(p)) && p.pc == Execute(scan) && OnStep(p, scan)
    requires log' == log.(executions := log.executions + [Execution(p.id, StepAt(p, scan))], supplied := log'.supplied)
    ensures Guarded(cfg, b, log', p.id, d, Some(p.(pc := WriteObservation(scan, o))))
  {
    hide Rest, Runs, Passing, FailureKept, WholeFold, ViewOf, Locate;
    var q := p.(pc := WriteObservation(scan, o));
    forall s ensures CountOk(Count(log'.executions, p.id, s), Count(log'.cuts, p.id, s), d.journal, Some(q), s) {
      assert CountOk(Count(log.executions, p.id, s), Count(log.cuts, p.id, s), d.journal, Some(p), s);
      CountAppend(log.executions, Execution(p.id, StepAt(p, scan)), p.id, s);
      assert StepAt(q, scan) == StepAt(p, scan);
    }
  }

  /** A crash leaves the guards, or is remembered as falling into a window. */
  lemma {:induction false} CrashGuarded(cfg: Config, b: Option<Work>, log: History, d: Durable, p: Proc)
    requires Local(cfg, b, d, p) && Guarded(cfg, b, log, p.id, d, Some(p))
    ensures Guarded(cfg, b, CrashLog(cfg, log, p), p.id, d, None)
  {
    hide CleanOk, Locate, Local, ApprovalsOk, CountsOk;
    CrashApprovals(cfg, b, log, d, p);
    CrashCounts(cfg, b, log, d, p);
    if p.id !in CrashLog(cfg, log, p).failCut { CrashClean(cfg, b, d, p); }
  }

  lemma {:induction false} CrashApprovals(cfg: Config, b: Option<Work>, log: History, d: Durable, p: Proc)
    requires Local(cfg, b, d, p) && ApprovalsOk(p.id in log.requestCut, d, Some(p))
    ensures ApprovalsOk(p.id in CrashLog(cfg, log, p).requestCut, d, None)
  {
    hide Locate, Rest, Runs, AllAsked, AllApproved, NoneRefused, HasPendingApproval, Requests;
    MemApprovals(cfg, b, d, p);
    if p.pc == RequestNote || p.pc == SaveRequest { DestructiveRequest(cfg, b, d, p); }
  }

  lemma {:induction false} CrashCounts(cfg: Config, b: Option<Work>, log: History, d: Durable, p: Proc)
    requires Local(cfg, b, d, p) && CountsOk(log, p.id, d, Some(p))
    ensures CountsOk(CrashLog(cfg, log, p), p.id, d, None)
  {
    hide Locate, Rest, Runs, ObservedIds, IntentCount, Count;
    var log' := CrashLog(cfg, log, p);
    if BeforeObservation(p.pc) && !p.pc.SaveRunning? { StandsOnStep(cfg, b, d, p); }
    hide Local;
    forall s ensures CountOk(Count(log'.executions, p.id, s), Count(log'.cuts, p.id, s), d.journal, None, s) {
      assert CountOk(Count(log.executions, p.id, s), Count(log.cuts, p.id, s), d.journal, Some(p), s);
      if p.pc.Execute? || p.pc.WriteObservation? {
        CountAppend(log.cuts, Execution(p.id, StepAt(p, p.pc.scan)), p.id, s);
      }
    }
  }

  lemma {:induction false} DestructiveRequest(cfg: Config, b: Option<Work>, d: Durable, p: Proc)
    requires Local(cfg, b, d, p) && (p.pc == RequestNote || p.pc == SaveRequest)
    ensures d.saved.state == IsPlanned && d.saved.plan.Some? && d.saved.plan.value.IsDestructive()
  {
    hide Folded, InSync, Ended, Settled, ActingOk, Performing, Observing, Observed, FreshRecords, ViewOf, Numbered, Requests;
  }

  lemma {:induction false} CrashClean(cfg: Config, b: Option<Work>, d: Durable, p: Proc)
    requires Local(cfg, b, d, p) && CleanOk(cfg, b, d, Some(p))
    requires p.pc.SaveStep? && OnStep(p, p.pc.scan) ==> p.mem.work.steps[RecordAt(p, p.pc.scan)].status != Failed
    ensures CleanOk(cfg, b, d, None)
  {
    hide WholeFold, Replay, Finish, ViewOf;
    if p.pc.SaveStep? {
      var v, scan := ViewOf(d.journal), p.pc.scan;
      SaveStepKeeps(cfg, b, d, p, scan);
      ActFacts(cfg, b, d, p);
      hide Rest, Runs, InSync;
      FoldedRecords(cfg, b, d.saved, v, scan.i + 1);
      assert p.mem.work.steps[scan.i] == FinishedRecord(cfg.verify, d.saved.plan.value.steps[scan.i], v.seen[scan.i]);
    }
    hide Rest, Runs;
  }

  // ---- the world ----------------------------------------------------------------------------------

  /** What a step may add to the log about tickets other than its own: nothing. */
  ghost predicate LogFrame(log: History, log': History, id: TicketId) {
    && (forall x :: x != id ==> (x in log'.requestCut <==> x in log.requestCut) && (x in log'.failCut <==> x in log.failCut))
    && (forall x, s :: x != id ==> Count(log'.executions, x, s) == Count(log.executions, x, s)
                                   && Count(log'.cuts, x, s) == Count(log.cuts, x, s))
  }

  lemma {:induction false} FrameGuarded(cfg: Config, b: Option<Work>, log: History, log': History, id: TicketId, x: TicketId, d: Durable)
    requires Guarded(cfg, b, log, x, d, None) && LogFrame(log, log', id) && x != id
    ensures Guarded(cfg, b, log', x, d, None)
  {
    hide CleanOk, ApprovalsOk, CountOk;
    forall s ensures CountOk(Count(log'.executions, x, s), Count(log'.cuts, x, s), d.journal, None, s) {
      assert CountOk(Count(log.executions, x, s), Count(log.cuts, x, s), d.journal, None, s);
    }
  }

  lemma {:induction false} LogFrameAppend(log: History, log': History, x: Execution)
    requires log'.requestCut == log.requestCut && log'.failCut == log.failCut
    requires log'.executions == log.executions || log'.executions == log.executions + [x]
    requires log'.cuts == log.cuts || log'.cuts == log.cuts + [x]
    ensures LogFrame(log, log', x.id)
  {
    forall y, s | y != x.id ensures Count(log'.executions, y, s) == Count(log.executions, y, s)
                                    && Count(log'.cuts, y, s) == Count(log.cuts, y, s) {
      CountAppend(log.executions, x, y, s);
      CountAppend(log.cuts, x, y, s);
    }
  }

  /** Tickets other than the one worked on keep their guards. */
  lemma {:induction false} OthersGuarded(cfg: Config, w: World, w': World, id: TicketId)
    requires GuardsOk(cfg, w) && LogFrame(w.log, w'.log, id)
    requires w.proc.Some? ==> w.proc.value.id == id
    requires w'.proc.Some? ==> w'.proc.value.id == id
    requires forall x :: x in w.tickets && x != id ==> Base(w', x) == Base(w, x)
    ensures forall x :: x in w.tickets && x != id ==> Guarded(cfg, Base(w', x), w'.log, x, w.tickets[x], ProcOf(w', x))
  {
    hide Guarded;
    forall x | x in w.tickets && x != id ensures Guarded(cfg, Base(w', x), w'.log, x, w.tickets[x], ProcOf(w', x)) {
      FrameGuarded(cfg, Base(w, x), w.log, w'.log, id, x, w.tickets[x]);
    }
  }

  ghost predicate LogInTickets(w: World) {
    && (forall id :: id in w.log.requestCut || id in w.log.failCut ==> id in w.tickets)
    && (forall x :: x in w.log.executions || x in w.log.cuts ==> x.id in w.tickets)
  }

  /** One ticket changes; the others keep what they had. */
  lemma {:induction false} OneChanges(cfg: Config, w: World, w': World, id: TicketId)
    requires GuardsOk(cfg, w) && LogFrame(w.log, w'.log, id) && LogInTickets(w')
    requires id in w'.tickets && (forall x :: x in w'.tickets && x != id ==> x in w.tickets && w'.tickets[x] == w.tickets[x])
    requires w.proc.Some? ==> w.proc.value.id == id
    requires w'.proc.Some? ==> w'.proc.value.id == id
    requires forall x :: x in w.tickets && x != id ==> Base(w', x) == Base(w, x)
    requires Guarded(cfg, Base(w', id), w'.log, id, w'.tickets[id], w'.proc)
    ensures GuardsOk(cfg, w')
  {
    hide Guarded, LogFrame;
    OthersGuarded(cfg, w, w', id);
  }

  /** What every effect of the spawn loop does: only SaveChild adds a ticket. */
  ghost predicate SpawnStep(w: World, p: Proc, w': World) {
    && w'.log == w.log && w'.proc.Some? && w'.proc.value.id == p.id
    && (w'.proc.value.pc.Spawning? || w'.proc.value.pc.SaveChild? || w'.proc.value.pc.RecordChild?
        || w'.proc.value.pc == SpawnNote || w'.proc.value.pc == SopNote)
    && (if p.pc.SaveChild? then
          && p.pc.spawn.todo != []
          && w'.tickets == w.tickets[p.pc.child := Durable(ChildTicket(p.mem, p.pc.child, p.pc.spawn.todo[0], p.pc.spawn.votes), [])]
        else w'.tickets == w.tickets)
  }

  lemma {:induction false} SpawningShape(w: World, p: Proc, s: Spawn)
    requires p.pc == Spawning(s)
    ensures SpawnStep(w, p, TickSpawning(w, p, s))
  {
  }

  lemma {:induction false} ChildShape(w: World, p: Proc, s: Spawn, child: TicketId)
    requires s.todo != []
    ensures p.pc == SaveChild(s, child) ==> SpawnStep(w, p, TickSaveChild(w, p, s, child))
    ensures p.pc == RecordChild(s, child) ==> SpawnStep(w, p, TickRecordChild(w, p, s, child))
  {
    hide ChildTicket;
  }

  lemma {:induction false} SpawnShape(cfg: Config, w: World, p: Proc)
    requires WorldOk(cfg, w) && w.proc == Some(p)
    requires p.pc.Spawning? || p.pc.SaveChild? || p.pc.RecordChild?
    ensures p.id in w.tickets && SpawnStep(w, p, TickSpawn(w, p))
    ensures p.pc.SaveChild? ==> p.pc.child !in w.tickets
  {
    SpawnFacts(cfg, w, p);
    hide WorldOk, SpawnStep, TickSpawning, TickSaveChild, TickRecordChild;
    match p.pc
    case Spawning(s) => SpawningShape(w, p, s);
    case SaveChild(s, child) => ChildShape(w, p, s, child);
    case RecordChild(s, child) => ChildShape(w, p, s, child);
  }

  lemma {:induction false} SpawnFacts(cfg: Config, w: World, p: Proc)
    requires WorldOk(cfg, w) && w.proc == Some(p)
    requires p.pc.Spawning? || p.pc.SaveChild? || p.pc.RecordChild?
    ensures p.id in w.tickets
    ensures p.pc.SaveChild? || p.pc.RecordChild? ==> p.pc.spawn.todo != []
    ensures p.pc.SaveChild? ==> p.pc.child !in w.tickets
  {
    hide Rest, Runs;
    assert ProcOk(cfg, w, p);
  }

  lemma {:induction false} SpawnGuards(cfg: Config, w: World, p: Proc)
    requires WorldOk(cfg, w) && GuardsOk(cfg, w) && w.proc == Some(p)
    requires p.pc.Spawning? || p.pc.SaveChild? || p.pc.RecordChild?
    ensures GuardsOk(cfg, TickSpawn(w, p))
  {
    hide WorldOk, Guarded, TickSpawn;
    var w' := TickSpawn(w, p);
    SpawnShape(cfg, w, p);
    assert forall x :: Base(w', x) == Base(w, x);
    ElsewhereGuarded(cfg, Base(w, p.id), w.log, p.id, w.tickets[p.id], Some(p), w'.proc);
    if p.pc.SaveChild? {
      NewGuarded(cfg, Base(w', p.pc.child), w'.log, p.pc.child, w'.tickets[p.pc.child].saved, None);
    }
  }

  lemma {:induction false} TickGuards(cfg: Config, w: World, p: Proc)
    requires WorldOk(cfg, w) && GuardsOk(cfg, w) && w.proc == Some(p)
    ensures GuardsOk(cfg, TickProc(cfg, w, p))
  {
    hide WorldOk, GuardsOk, TickLocal, TickSpawn;
    if p.pc.SaveNew? {
      SaveNewGuards(cfg, w, p);
    } else if p.pc.Execute? || p.pc.RcaNote? {
    } else if p.pc.Spawning? || p.pc.SaveChild? || p.pc.RecordChild? {
      SpawnGuards(cfg, w, p);
    } else {
      LocalTickGuards(cfg, w, p);
    }
  }

  lemma {:induction false} SaveNewGuards(cfg: Config, w: World, p: Proc)
    requires WorldOk(cfg, w) && GuardsOk(cfg, w) && w.proc == Some(p) && p.pc.SaveNew?
    ensures GuardsOk(cfg, TickProc(cfg, w, p))
  {
    hide Rest, Runs, Guarded, TickLocal, TickSpawn;
    var w' := TickProc(cfg, w, p);
    NewGuarded(cfg, Base(w', p.id), w.log, p.id, p.mem, w'.proc);
    OneChanges(cfg, w, w', p.id);
  }

  lemma {:induction false} LocalTickGuards(cfg: Config, w: World, p: Proc)
    requires WorldOk(cfg, w) && GuardsOk(cfg, w) && w.proc == Some(p) && IsLocal(p.pc)
    ensures GuardsOk(cfg, TickProc(cfg, w, p))
  {
    hide Rest, Runs, Guarded, TickLocal, TickSpawn;
    var w' := TickProc(cfg, w, p);
    LocalKeeps(cfg, Base(w, p.id), Base(w', p.id), w.tickets[p.id], p);
    LocalGuarded(cfg, Base(w, p.id), Base(w', p.id), w.log, w'.log, w.tickets[p.id], p);
    OneChanges(cfg, w, w', p.id);
  }

  lemma {:induction false} StartGuards(cfg: Config, w: World, id: TicketId, s: StepId)
    requires WorldOk(cfg, w) && GuardsOk(cfg, w) && w.proc.None? && id in w.tickets
    ensures GuardsOk(cfg, StartResume(w, id)) && GuardsOk(cfg, StartApprove(w, id, s))
  {
    hide Rest, Guarded, FirstPending, Completed, OpenIntent;
    var d, r, a := w.tickets[id], StartResume(w, id), StartApprove(w, id, s);
    if r.proc.Some? {
      StartGuarded(cfg, Base(w, id), w.log, d, r.proc.value);
      OneChanges(cfg, w, r, id);
    }
    if a.proc.Some? {
      PendingHasPlan(cfg, Base(w, id), d);
      ApproveGuarded(cfg, Base(w, id), w.log, d, a.proc.value, s);
      OneChanges(cfg, w, a, id);
    }
  }

  lemma {:induction false} PendingHasPlan(cfg: Config, b: Option<Work>, d: Durable)
    requires Rest(cfg, b, d) && d.saved.approvals != []
    ensures d.saved.plan.Some?
  {
  }

  lemma {:induction false} PerformGuards(cfg: Config, w: World, p: Proc, scan: Scan, o: Observation)
    requires WorldOk(cfg, w) && GuardsOk(cfg, w) && w.proc == Some(p) && p.pc == Execute(scan)
    ensures GuardsOk(cfg, PerformStep(w, p, scan, o))
  {
    hide Rest, Runs, Guarded, LogFrame, Links;
    PerformKeeps(cfg, w, p, scan, o);
    var w' := PerformStep(w, p, scan, o);
    PerformGuarded(cfg, Base(w, p.id), w.log, w'.log, w.tickets[p.id], p, scan, o);
    LogFrameAppend(w.log, w'.log, Execution(p.id, StepAt(p, scan)));
    OneChanges(cfg, w, w', p.id);
  }

  lemma {:induction false} RcaGuards(cfg: Config, w: World, p: Proc, rca: Option<Rca>)
    requires WorldOk(cfg, w) && GuardsOk(cfg, w) && w.proc == Some(p) && p.pc.RcaNote? && p.id in w.tickets
    ensures GuardsOk(cfg, AnalyseStep(cfg, w, p, rca))
  {
    hide Rest, Runs, Links, Triage, NewFindings, CleanOk, ApprovalsOk;
    var w' := AnalyseStep(cfg, w, p, rca);
    assert Guarded(cfg, Base(w, p.id), w.log, p.id, w.tickets[p.id], Some(p));
    RcaGuarded(cfg, Base(w, p.id), w.log, w.tickets[p.id], p, w'.proc.value);
    OneChanges(cfg, w, w', p.id);
  }

  lemma {:induction false} CrashGuards(cfg: Config, w: World, p: Proc)
    requires WorldOk(cfg, w) && GuardsOk(cfg, w) && w.proc == Some(p)
    ensures GuardsOk(cfg, Next(cfg, w, Crash))
  {
    hide Rest, Runs, Guarded, LogFrame, Locate;
    var w' := Next(cfg, w, Crash);
    CrashFrame(cfg, w.log, p);
    if p.pc.SaveNew? {
      assert w'.log == w.log;
      forall x | x in w'.tickets ensures Guarded(cfg, Base(w', x), w'.log, x, w'.tickets[x], ProcOf(w', x)) {
        assert x != p.id;
      }
    } else {
      CrashGuarded(cfg, Base(w, p.id), w.log, w.tickets[p.id], p);
      OneChanges(cfg, w, w', p.id);
    }
  }

  lemma {:induction false} CrashFrame(cfg: Config, log: History, p: Proc)
    ensures var log' := CrashLog(cfg, log, p);
      && LogFrame(log, log', p.id) && log'.planned == log.planned
      && (forall x :: x in log'.executions || x in log'.cuts ==> x in log.executions || x in log.cuts || x.id == p.id)
      && (forall x :: x in log'.requestCut || x in log'.failCut ==> x in log.requestCut || x in log.failCut || x == p.id)
  {
    hide Locate;
    var log' := CrashLog(cfg, log, p);
    if (p.pc.Execute? || p.pc.WriteObservation?) && OnStep(p, p.pc.scan) {
      LogFrameAppend(log, log', Execution(p.id, StepAt(p, p.pc.scan)));
    }
  }

  lemma {:induction false} NextGuards(cfg: Config, w: World, e: Event)
    requires WorldOk(cfg, w) && GuardsOk(cfg, w)
    ensures GuardsOk(cfg, Next(cfg, w, e))
  {
    hide Rest, Runs, Guarded, TickProc, StartResume, StartApprove, PerformStep, AnalyseStep, CrashLog;
    match e {
      case Submit(_) =>
        var w' := Next(cfg, w, e);
        if w.proc.None? {
          assert forall x :: x in w.tickets ==> x != w'.proc.value.id;
          assert forall x :: Base(w', x) == Base(w, x);
        }
      case Approve(id, s) => if w.proc.None? && id in w.tickets { StartGuards(cfg, w, id, s); }
      case Resume(id) => if w.proc.None? && id in w.tickets { StartGuards(cfg, w, id, ""); }
      case Tick => if w.proc.Some? { TickGuards(cfg, w, w.proc.value); }
      case Perform(o) =>
        if w.proc.Some? && w.proc.value.pc.Execute? { PerformGuards(cfg, w, w.proc.value, w.proc.value.pc.scan, o); }
      case Analyse(rca) =>
        if w.proc.Some? && w.proc.value.pc.RcaNote? && w.proc.value.id in w.tickets { RcaGuards(cfg, w, w.proc.value, rca); }
      case Crash => if w.proc.Some? { CrashGuards(cfg, w, w.proc.value); }
    }
  }

  lemma {:induction false} AlwaysGuarded(cfg: Config, es: seq<Event>)
    ensures WorldOk(cfg, After(cfg, es)) && GuardsOk(cfg, After(cfg, es))
  {
    AlwaysOk(cfg, es);
    if es != [] {
      AlwaysGuarded(cfg, es[..|es| - 1]);
      NextGuards(cfg, After(cfg, es[..|es| - 1]), es[|es| - 1]);
    }
  }
}
