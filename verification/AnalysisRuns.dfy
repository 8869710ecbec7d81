/**
 ANALYSE over whole runs (packages/slas-kernel/slas_kernel/kernel.py, `_analyse_and_close`): what
 each analysis that reached its save has added to the ticket, and how often one did.
 */
module AnalysisRuns {
  import opened Options
  import opened Records
  import opened Journal
  import opened Attachments
  import opened Act
  import opened Machine
  import opened TicketInvariant
  import opened TicketRuns
  import opened PlanRuns
  import opened ApprovalInvariant
  import opened CleanInvariant
  import opened GuardRuns
  import opened KernelTheorems

  // ---- what an analysis adds ----------------------------------------------------------------------

  /** Every finding with a ticket stays as it is; every other one is linked and nothing else. */
  ghost predicate LinkedFrom(fs: seq<Finding>, out: seq<Finding>) {
    && |out| == |fs|
    && forall i :: 0 <= i < |fs| ==>
      if fs[i].ticketId.Some? then out[i] == fs[i]
      else out[i].ticketId.Some? && out[i] == Linked(fs[i], out[i].ticketId.value)
  }

  /** The votes of the analysis behind the ticket's; its findings triaged with the ticket's, then linked. */
  ghost predicate AnalysedTo(cfg: Config, w: Work, rca: Option<Rca>, w': Work) {
    && w' == WithRca(w, rca).(findings := w'.findings)
    && LinkedFrom(Triage(cfg.route, WithRca(w, rca).findings), w'.findings)
  }

  /** One analysis after the other. */
  ghost predicate AnalysedBy(cfg: Config, base: Work, rcas: seq<Option<Rca>>, w: Work)
    decreases |rcas|, 1
  {
    if rcas == [] then w == base else exists v: Work :: AnalysedThen(cfg, base, rcas, v, w)
  }

  ghost predicate AnalysedThen(cfg: Config, base: Work, rcas: seq<Option<Rca>>, v: Work, w: Work)
    requires rcas != []
    decreases |rcas|, 0
  {
    AnalysedBy(cfg, base, rcas[..|rcas| - 1], v) && AnalysedTo(cfg, v, rcas[|rcas| - 1], w)
  }

  lemma {:induction false} AnalysedOnce(cfg: Config, base: Work, rcas: seq<Option<Rca>>, v: Work, rca: Option<Rca>, w: Work)
    requires AnalysedBy(cfg, base, rcas, v) && AnalysedTo(cfg, v, rca, w)
    ensures AnalysedBy(cfg, base, rcas + [rca], w)
  {
    assert (rcas + [rca])[..|rcas + [rca]| - 1] == rcas;
    assert AnalysedThen(cfg, base, rcas + [rca], v, w);
  }

  // ---- the run, read for one ticket -----------------------------------------------------------------

  /** The result of the analysis in progress, or of the last one. */
  function LastRca(cfg: Config, es: seq<Event>): (rca: Option<Rca>)
  {
    if es == [] then None
    else
      var p, e := es[..|es| - 1], es[|es| - 1];
      RcaAfter(After(cfg, p), e, LastRca(cfg, p))
  }

  function RcaAfter(w: World, e: Event, last: Option<Rca>): (rca: Option<Rca>)
  {
    if e.Analyse? && w.proc.Some? && w.proc.value.pc.RcaNote? then e.rca else last
  }

  /** A tick at this point of the program, by the process that works on the ticket. */
  predicate TicksAt(w: World, e: Event, id: TicketId, pc: Pc) {
    e.Tick? && ProcOf(w, id).Some? && w.proc.value.pc == pc
  }

  /** The work ACT ended with, as first saved in ANALYSING. */
  function ActWork(cfg: Config, es: seq<Event>, id: TicketId): (work: Option<Work>)
  {
    if es == [] then None
    else
      var p, e := es[..|es| - 1], es[|es| - 1];
      var w := After(cfg, p);
      if TicksAt(w, e, id, Saving(IsAnalysing)) then Some(w.proc.value.mem.work) else ActWork(cfg, p, id)
  }

  /** The results of the analyses whose save behind the SOP was reached, in order. */
  function Analyses(cfg: Config, es: seq<Event>, id: TicketId): (rcas: seq<Option<Rca>>)
  {
    if es == [] then []
    else
      var p, e := es[..|es| - 1], es[|es| - 1];
      Analyses(cfg, p, id) + if TicksAt(After(cfg, p), e, id, SaveSop) then [LastRca(cfg, p)] else []
  }

  /** Between the save behind the SOP and the save of the closing transition. */
  predicate Closing(v: Option<Proc>) {
    v.Some? && v.value.pc in {Moving(IsNeedsReview), Moving(IsDone), Saving(IsNeedsReview), Saving(IsDone)}
  }

  /** How many crashes fell in that window. */
  function CloseCuts(cfg: Config, es: seq<Event>, id: TicketId): (n: nat)
  {
    if es == [] then 0
    else
      var p, e := es[..|es| - 1], es[|es| - 1];
      CloseCuts(cfg, p, id) + One(e.Crash? && Closing(ProcOf(After(cfg, p), id)))
  }

  // ---- one effect on the ticket itself --------------------------------------------------------------

  predicate IsLate(t: Ticket) { t.state == IsAnalysing || t.state == IsNeedsReview || t.state == IsDone }

  /** The last analysis was saved and no crash undid its way to the end: the ticket is closing or closed. */
  predicate Over(d: Durable, v: Option<Proc>) { Closing(v) || d.saved.state == IsNeedsReview || d.saved.state == IsDone }

  ghost predicate SpawnProgress(all: seq<Finding>, s: Spawn) {
    && |s.updated| + |s.todo| == |all| && s.todo == all[|s.updated|..]
    && LinkedFrom(all[..|s.updated|], s.updated)
  }

  /** What is in memory while the analysis `rca` goes on. */
  ghost predicate Progress(cfg: Config, rca: Option<Rca>, d: Durable, p: Proc) {
    && (p.pc.Spawning? || p.pc.SaveChild? || p.pc.RecordChild? ==>
          && p.mem.work == WithRca(d.saved.work, rca)
          && SpawnProgress(Triage(cfg.route, p.mem.work.findings), p.pc.spawn))
    && (p.pc == SpawnNote || p.pc == SopNote || p.pc == SaveSop ==> AnalysedTo(cfg, d.saved.work, rca, p.mem.work))
  }

  /** A note or a transition adds no observation. */
  lemma {:induction false} NoteAddsNone(j: seq<Entry>, kind: Kind, s: Option<StepId>)
    requires kind == NoteEntry || kind == StateEntry
    ensures Observations(Append(j, kind, s, Empty)) == Observations(j)
  {
    AppendUnfolds(j, kind, s, Empty);
  }

  /** In ANALYSING an effect keeps plan and observations, and changes the work only where the SOP is saved. */
  lemma {:induction false} LateTick(cfg: Config, b: Option<Work>, d: Durable, p: Proc, rca: Option<Rca>)
    requires Local(cfg, b, d, p) && IsLocal(p.pc) && d.saved.state == IsAnalysing && Progress(cfg, rca, d, p)
    ensures var m := TickLocal(cfg, d, p);
      && IsLate(m.d.saved) && m.d.saved.plan == d.saved.plan && Observations(m.d.journal) == Observations(d.journal)
      && (p.pc != SaveSop ==> m.d.saved.work == d.saved.work)
      && (p.pc == SaveSop ==> AnalysedTo(cfg, d.saved.work, rca, m.d.saved.work))
      && One(Over(m.d, m.proc)) == One(Over(d, Some(p))) + One(p.pc == SaveSop)
      && (m.proc.Some? ==> Progress(cfg, rca, m.d, m.proc.value))
  {
    hide Rest, Settled, Journaled, ViewOf, Numbered, Append, Observations, AnalysedTo, Triage, FreshRecords, Folded, HasPendingApproval, HasFailedStep;
    NoteAddsNone(d.journal, StateEntry, None);
    if IsNote(p.pc) { NoteAddsNone(d.journal, NoteEntry, AfterNote(p.pc).0); }
  }

  /** ANALYSING is entered with the work ACT ended with. */
  lemma {:induction false} EntersLate(cfg: Config, b: Option<Work>, d: Durable, p: Proc)
    requires Local(cfg, b, d, p) && p.pc == Saving(IsAnalysing)
    ensures var m := TickLocal(cfg, d, p);
      && m.d == d.(saved := p.mem) && m.d.saved.state == IsAnalysing && d.saved.state == IsRunning
      && m.proc == Some(p.(pc := CollectNote)) && p.mem.plan == d.saved.plan
  {
    hide Rest, Settled, Ended, Journaled, ViewOf, Numbered, InSync;
  }

  /** Before that no effect leads there. */
  lemma {:induction false} StaysEarly(cfg: Config, b: Option<Work>, d: Durable, p: Proc)
    requires Local(cfg, b, d, p) && IsLocal(p.pc) && !IsLate(d.saved) && p.pc != Saving(IsAnalysing)
    ensures !IsLate(TickLocal(cfg, d, p).d.saved) && p.pc != SaveSop && !Closing(Some(p))
  {
    hide Rest, Settled, Ended, Journaled, ViewOf, Numbered, InSync, ActingOk, Performing, Observing, Observed, FreshRecords, Folded, GateResult, Finish, HasPendingApproval;
  }

  lemma {:induction false} LinkedMore(fs: seq<Finding>, out: seq<Finding>, f: Finding, g: Finding)
    requires LinkedFrom(fs, out) && (if f.ticketId.Some? then g == f else g.ticketId.Some? && g == Linked(f, g.ticketId.value))
    ensures LinkedFrom(fs + [f], out + [g])
  {
  }

  /** One finding less to do. */
  lemma {:induction false} SpawnOneMore(all: seq<Finding>, s: Spawn, s': Spawn, g: Finding)
    requires SpawnProgress(all, s) && s.todo != []
    requires s'.todo == s.todo[1..] && s'.updated == s.updated + [g]
    requires var f := s.todo[0]; if f.ticketId.Some? then g == f else g.ticketId.Some? && g == Linked(f, g.ticketId.value)
    ensures SpawnProgress(all, s')
  {
    var k := |s.updated|;
    assert s.todo[0] == all[k] && all[..k + 1] == all[..k] + [all[k]];
    LinkedMore(all[..k], s.updated, all[k], g);
  }

  /** The spawn loop ends with every finding linked. */
  lemma {:induction false} SpawnKeepsProgress(cfg: Config, rca: Option<Rca>, w: World, p: Proc, d: Durable)
    requires (p.pc.Spawning? || p.pc.SaveChild? || p.pc.RecordChild?) && Progress(cfg, rca, d, p)
    requires p.pc.SaveChild? || p.pc.RecordChild? ==> p.pc.spawn.todo != [] && p.pc.spawn.todo[0].ticketId.None?
    ensures var q := TickSpawn(w, p).proc;
      q.Some? && Progress(cfg, rca, d, q.value) && !Closing(q)
  {
    hide Triage, SpawnProgress, LinkedFrom, WithRca;
    var all, s := Triage(cfg.route, p.mem.work.findings), p.pc.spawn;
    if p.pc.Spawning? && s.todo == [] {
      SpawnIsDone(all, s);
    } else if p.pc.Spawning? && s.todo[0].ticketId.Some? {
      SpawnOneMore(all, s, s.(todo := s.todo[1..], updated := s.updated + [s.todo[0]]), s.todo[0]);
    } else if p.pc.Spawning? && s.todo[0].fingerprint in w.index {
      var g := Linked(s.todo[0], w.index[s.todo[0].fingerprint].ticketId);
      SpawnOneMore(all, s, s.(todo := s.todo[1..], updated := s.updated + [g]), g);
    } else if p.pc.RecordChild? {
      var g := Linked(s.todo[0], p.pc.child);
      SpawnOneMore(all, s, s.(todo := s.todo[1..], updated := s.updated + [g], spawned := s.spawned + [p.pc.child]), g);
    }
  }

  lemma {:induction false} SpawnIsDone(all: seq<Finding>, s: Spawn)
    requires SpawnProgress(all, s) && s.todo == []
    ensures LinkedFrom(all, s.updated)
  {
    assert all[..|all|] == all;
  }

  // ---- the invariant ----------------------------------------------------------------------------------

  /** The work ACT ended with is that of the uncrashed loop, unless a crash hit a failing step's save. */
  ghost predicate ActIs(cfg: Config, w: World, id: TicketId, act: Work)
    requires id in w.tickets
  {
    var t, seen := w.tickets[id].saved, Observations(w.tickets[id].journal);
    id !in w.log.failCut ==>
      && t.plan.Some? && id in w.log.planned && w.log.planned[id].steps == FreshRecords(t.plan.value)
      && IsWholeFeed(cfg.verify, t.plan.value, seen)
      && act == Uncrashed(cfg.verify, t.plan.value, w.log.planned[id], 0, seen)
  }

  /** `act`, `rcas`, `cuts` and `last` are what the run so far says of the ticket. */
  ghost predicate AnalysisOk(cfg: Config, w: World, id: TicketId, act: Option<Work>, rcas: seq<Option<Rca>>, cuts: nat, last: Option<Rca>) {
    if id in w.tickets && IsLate(w.tickets[id].saved) then
      var d, v := w.tickets[id], ProcOf(w, id);
      && act.Some? && ActIs(cfg, w, id, act.value) && AnalysedBy(cfg, act.value, rcas, d.saved.work)
      && |rcas| == cuts + One(Over(d, v))
      && (v.Some? ==> Progress(cfg, last, d, v.value))
    else rcas == [] && cuts == 0
  }

  function ActAfter(w: World, e: Event, id: TicketId, act: Option<Work>): (r: Option<Work>)
  {
    if TicksAt(w, e, id, Saving(IsAnalysing)) then Some(w.proc.value.mem.work) else act
  }

  function RcasAfter(w: World, e: Event, id: TicketId, rcas: seq<Option<Rca>>, last: Option<Rca>): (r: seq<Option<Rca>>)
  {
    rcas + if TicksAt(w, e, id, SaveSop) then [last] else []
  }

  function CutsAfter(w: World, e: Event, id: TicketId, cuts: nat): (n: nat)
  {
    cuts + One(e.Crash? && Closing(ProcOf(w, id)))
  }

  /** Nobody works on the ticket: it stays as it is, and a call that begins now has done nothing yet. */
  lemma {:induction false} UntouchedStep(cfg: Config, w: World, e: Event, id: TicketId, act: Option<Work>, rcas: seq<Option<Rca>>, cuts: nat, last: Option<Rca>)
    requires WorldOk(cfg, w) && AnalysisOk(cfg, w, id, act, rcas, cuts, last) && id in w.tickets && ProcOf(w, id).None?
    ensures AnalysisOk(cfg, Next(cfg, w, e), id, ActAfter(w, e, id, act), RcasAfter(w, e, id, rcas, last), CutsAfter(w, e, id, cuts), RcaAfter(w, e, last))
  {
    hide WorldOk, Uncrashed, Observations, FreshRecords, AnalysedBy, Next;
    OnlyWorkerWrites(cfg, w, e, id);
    Beginning(cfg, w, e, id, RcaAfter(w, e, last));
    SameLog(cfg, w, e, id);
    assert rcas + [] == rcas;
    hide Progress, Over, IsLate, IsWholeFeed;
  }

  lemma {:induction false} Beginning(cfg: Config, w: World, e: Event, id: TicketId, last: Option<Rca>)
    requires WorldOk(cfg, w) && ProcOf(w, id).None? && id in w.tickets
    ensures var v := ProcOf(Next(cfg, w, e), id);
      v.Some? ==> v.value.pc.Acting? || v.value.pc == CollectNote || v.value.pc.ApproveNote? || v.value.pc == Moving(IsApproved) || v.value.pc == Moving(IsRunning)
  {
    hide Rest, Runs, TickLocal, Locate, FirstPending, Links, CrashLog, ScanFrom, Triage, NewFindings;
    if w.proc.Some? && IsLocal(w.proc.value.pc) && w.proc.value.id in w.tickets {
      LocalApprovals(cfg, w.tickets[w.proc.value.id], w.proc.value, "");
    }
  }

  /** The remembered plan work changes only where a plan is first saved, and no failure crash is forgotten. */
  lemma {:induction false} SameLog(cfg: Config, w: World, e: Event, id: TicketId)
    ensures var w' := Next(cfg, w, e);
      && w.log.failCut <= w'.log.failCut
      && (ProcOf(w, id).None? || w.proc.value.pc != Saving(IsPlanned) ==>
            (id in w'.log.planned <==> id in w.log.planned) && (id in w.log.planned ==> w'.log.planned[id] == w.log.planned[id]))
  {
    hide TickProc, Locate, FirstPending, Links, ResumePoint, TickRca;
    if e.Tick? && w.proc.Some? { TickLog(cfg, w, w.proc.value); }
  }

  lemma {:induction false} TickLog(cfg: Config, w: World, p: Proc)
    ensures var w' := TickProc(cfg, w, p);
      && w'.log.failCut == w.log.failCut
      && w'.log.planned == if p.pc == Saving(IsPlanned) && p.id in w.tickets then w.log.planned[p.id := p.mem.work] else w.log.planned
  {
    hide TickLocal, TickSpawn;
    if p.pc.Spawning? || p.pc.SaveChild? || p.pc.RecordChild? { SpawnKeepsPlan(w, p); }
  }

  lemma {:induction false} ActStays(cfg: Config, w: World, w': World, id: TicketId, act: Work)
    requires id in w.tickets && id in w'.tickets && ActIs(cfg, w, id, act) && w.log.failCut <= w'.log.failCut
    requires w'.tickets[id].saved.plan == w.tickets[id].saved.plan
    requires Observations(w'.tickets[id].journal) == Observations(w.tickets[id].journal)
    requires (id in w'.log.planned <==> id in w.log.planned) && (id in w.log.planned ==> w'.log.planned[id] == w.log.planned[id])
    ensures ActIs(cfg, w', id, act)
  {
    hide Uncrashed, Observations, FreshRecords, IsWholeFeed;
  }

  /** What is known of the ticket a process works on. */
  lemma {:induction false} WorkFacts(cfg: Config, w: World, id: TicketId)
    requires WorldOk(cfg, w) && GuardsOk(cfg, w) && id in w.tickets && ProcOf(w, id).Some?
    ensures Local(cfg, Base(w, id), w.tickets[id], w.proc.value)
    ensures w.tickets[id].saved.state !in {IsDone, IsFailed, IsNeedsReview}
    ensures id !in w.log.failCut ==> CleanOk(cfg, Base(w, id), w.tickets[id], w.proc)
  {
    GuardOf(cfg, w, id);
    hide WorldOk, GuardsOk, CleanOk, CountsOk, Rest, Runs, ApprovalsOk;
    WorkedOnIsOpen(cfg, Base(w, id), id in w.log.requestCut, w.tickets[id], w.proc.value);
  }

  /** ACT ends with the uncrashed work. */
  lemma {:induction false} EntryWork(cfg: Config, b: Option<Work>, d: Durable, p: Proc)
    requires Local(cfg, b, d, p) && p.pc == Saving(IsAnalysing) && CleanOk(cfg, b, d, Some(p))
    ensures var seen := Observations(d.journal);
      && p.mem.plan == d.saved.plan && d.saved.plan.Some? && b.Some? && b.value.steps == FreshRecords(d.saved.plan.value)
      && IsWholeFeed(cfg.verify, d.saved.plan.value, seen)
      && p.mem.work == Uncrashed(cfg.verify, d.saved.plan.value, b.value, 0, seen)
  {
    hide Rest, Runs, CleanOk, Uncrashed, Replay, FreshRecords, Observations, IsWholeFeed;
    EndPoint(cfg, b, d, p);
    var seen := Observations(d.journal);
    assert seen[..|seen|] == seen;
    ReplayIsUncrashed(cfg.verify, d.saved.plan.value, b.value, seen);
  }

  lemma {:induction false} TickIs(cfg: Config, w: World, p: Proc)
    requires w.proc == Some(p) && IsLocal(p.pc) && p.id in w.tickets
    ensures var w', m := Next(cfg, w, Tick), TickLocal(cfg, w.tickets[p.id], p);
      && w'.tickets == w.tickets[p.id := m.d] && w'.proc == m.proc && ProcOf(w', p.id) == m.proc
      && w'.log.failCut == w.log.failCut
      && (m.proc.Some? ==> m.proc.value.id == p.id)
      && (p.pc != Saving(IsPlanned) ==> w'.log.planned == w.log.planned)
  {
    hide TickLocal;
    LocalApprovals(cfg, w.tickets[p.id], p, "");
  }

  /** A local effect of the process that works on the ticket. */
  lemma {:induction false} LocalStep(cfg: Config, w: World, p: Proc, act: Option<Work>, rcas: seq<Option<Rca>>, cuts: nat, last: Option<Rca>)
    requires WorldOk(cfg, w) && GuardsOk(cfg, w) && w.proc == Some(p) && IsLocal(p.pc) && p.id in w.tickets
    requires AnalysisOk(cfg, w, p.id, act, rcas, cuts, last)
    ensures AnalysisOk(cfg, Next(cfg, w, Tick), p.id, ActAfter(w, Tick, p.id, act), RcasAfter(w, Tick, p.id, rcas, last), cuts, last)
  {
    hide WorldOk, GuardsOk, Rest, Runs, CleanOk, Next, TickLocal, Observations, Uncrashed, FreshRecords, IsWholeFeed, AnalysedBy, AnalysedTo, Progress, Over, ActIs;
    var id, d, b, w' := p.id, w.tickets[p.id], Base(w, p.id), Next(cfg, w, Tick);
    WorkFacts(cfg, w, id);
    TickIs(cfg, w, p);
    assert rcas + [] == rcas;
    if d.saved.state == IsAnalysing {
      LateTick(cfg, b, d, p, last);
      NoPlanSave(cfg, b, d, p);
      ActStays(cfg, w, w', id, act.value);
      if p.pc == SaveSop { AnalysedOnce(cfg, act.value, rcas, d.saved.work, last, w'.tickets[id].saved.work); }
    } else if p.pc == Saving(IsAnalysing) {
      EntersLate(cfg, b, d, p);
      Entered(cfg, w, p, w');
    } else {
      StaysEarly(cfg, b, d, p);
    }
  }

  lemma {:induction false} NoPlanSave(cfg: Config, b: Option<Work>, d: Durable, p: Proc)
    requires Local(cfg, b, d, p) && d.saved.state == IsAnalysing
    ensures p.pc != Saving(IsPlanned) && p.pc != Saving(IsAnalysing)
  {
    hide Rest, Settled, Ended, Journaled, ViewOf, Numbered, InSync, FreshRecords;
  }

  lemma {:induction false} Entered(cfg: Config, w: World, p: Proc, w': World)
    requires w.proc == Some(p) && p.id in w.tickets && p.pc == Saving(IsAnalysing) && p.mem.plan == w.tickets[p.id].saved.plan
    requires Local(cfg, Base(w, p.id), w.tickets[p.id], p)
    requires p.id !in w.log.failCut ==> CleanOk(cfg, Base(w, p.id), w.tickets[p.id], Some(p))
    requires p.id in w'.tickets && w'.tickets[p.id] == w.tickets[p.id].(saved := p.mem)
    requires w'.proc == Some(p.(pc := CollectNote)) && p.mem.state == IsAnalysing
    requires w'.log.failCut == w.log.failCut && w'.log.planned == w.log.planned
    ensures ActIs(cfg, w', p.id, p.mem.work) && AnalysedBy(cfg, p.mem.work, [], p.mem.work)
    ensures !Over(w'.tickets[p.id], w'.proc) && forall last :: Progress(cfg, last, w'.tickets[p.id], w'.proc.value)
  {
    hide Rest, Runs, CleanOk, Observations, Uncrashed, FreshRecords, IsWholeFeed;
    if p.id !in w.log.failCut { EntryWork(cfg, Base(w, p.id), w.tickets[p.id], p); }
  }

  /** An effect on a bug ticket or the index. */
  lemma {:induction false} SpawnTick(cfg: Config, w: World, p: Proc, act: Option<Work>, rcas: seq<Option<Rca>>, cuts: nat, last: Option<Rca>)
    requires WorldOk(cfg, w) && w.proc == Some(p) && p.id in w.tickets && (p.pc.Spawning? || p.pc.SaveChild? || p.pc.RecordChild?)
    requires AnalysisOk(cfg, w, p.id, act, rcas, cuts, last)
    ensures AnalysisOk(cfg, Next(cfg, w, Tick), p.id, act, rcas, cuts, last)
  {
    hide WorldOk, Next, TickSpawn, Observations, Uncrashed, FreshRecords, IsWholeFeed, AnalysedBy, Progress, ActIs;
    var id, w' := p.id, Next(cfg, w, Tick);
    SpawnFrame(cfg, w, p);
    SpawnTodo(cfg, w, p);
    if IsLate(w.tickets[id].saved) {
      SpawnKeepsProgress(cfg, last, w, p, w.tickets[id]);
      ActStays(cfg, w, w', id, act.value);
    }
  }

  lemma {:induction false} SpawnFrame(cfg: Config, w: World, p: Proc)
    requires WorldOk(cfg, w) && w.proc == Some(p) && p.id in w.tickets && (p.pc.Spawning? || p.pc.SaveChild? || p.pc.RecordChild?)
    ensures var w' := Next(cfg, w, Tick);
      && p.id in w'.tickets && w'.tickets[p.id] == w.tickets[p.id] && w'.log == w.log && w'.proc == TickSpawn(w, p).proc
      && w'.proc.Some? && w'.proc.value.id == p.id
  {
    hide WorldOk, TickSpawn;
    SpawnShape(cfg, w, p);
  }

  lemma {:induction false} SpawnTodo(cfg: Config, w: World, p: Proc)
    requires WorldOk(cfg, w) && w.proc == Some(p)
    ensures p.pc.SaveChild? || p.pc.RecordChild? ==> p.pc.spawn.todo != [] && p.pc.spawn.todo[0].ticketId.None?
  {
    hide Rest, Runs;
    assert ProcOk(cfg, w, p);
  }

  /** The analysis returns. */
  lemma {:induction false} AnalyseTick(cfg: Config, w: World, p: Proc, rca: Option<Rca>, act: Option<Work>, rcas: seq<Option<Rca>>, cuts: nat, last: Option<Rca>)
    requires WorldOk(cfg, w) && w.proc == Some(p) && p.id in w.tickets && p.pc.RcaNote?
    requires AnalysisOk(cfg, w, p.id, act, rcas, cuts, last)
    ensures AnalysisOk(cfg, Next(cfg, w, Analyse(rca)), p.id, act, rcas, cuts, rca)
  {
    var id, w' := p.id, Next(cfg, w, Analyse(rca));
    hide Rest, Runs, Observations, Uncrashed, FreshRecords, IsWholeFeed, AnalysedBy, ActIs, Append, Triage, NewFindings, Links;
    RcaPoint(cfg, w, p);
    hide WorldOk;
    NoteAddsNone(w.tickets[id].journal, NoteEntry, None);
    assert Triage(cfg.route, w'.proc.value.mem.work.findings)[0..] == Triage(cfg.route, w'.proc.value.mem.work.findings);
    if IsLate(w.tickets[id].saved) { ActStays(cfg, w, w', id, act.value); }
  }

  lemma {:induction false} RcaPoint(cfg: Config, w: World, p: Proc)
    requires WorldOk(cfg, w) && w.proc == Some(p) && p.id in w.tickets && p.pc.RcaNote?
    ensures p.mem == w.tickets[p.id].saved
  {
    hide Rest, Settled, Journaled, ViewOf, Numbered;
    assert Local(cfg, Base(w, p.id), w.tickets[p.id], p);
  }

  /** A power cut: the analysis in progress is lost, and one that was saved will be made again. */
  lemma {:induction false} CrashTick(cfg: Config, w: World, p: Proc, act: Option<Work>, rcas: seq<Option<Rca>>, cuts: nat, last: Option<Rca>)
    requires WorldOk(cfg, w) && GuardsOk(cfg, w) && w.proc == Some(p) && p.id in w.tickets
    requires AnalysisOk(cfg, w, p.id, act, rcas, cuts, last)
    ensures AnalysisOk(cfg, Next(cfg, w, Crash), p.id, act, rcas, CutsAfter(w, Crash, p.id, cuts), last)
  {
    hide Rest, Runs, CleanOk, WorldOk, GuardsOk, Observations, Uncrashed, FreshRecords, IsWholeFeed, AnalysedBy, ActIs, Progress;
    var id, w' := p.id, Next(cfg, w, Crash);
    WorkFacts(cfg, w, id);
    SameLog(cfg, w, Crash, id);
    NotPlanning(cfg, w, p);
    assert w'.tickets == w.tickets && w'.proc.None? && w'.log.planned == w.log.planned by { CrashKeeps(cfg, w, p); }
    hide Next;
    if IsLate(w.tickets[id].saved) {
      ActStays(cfg, w, w', id, act.value);
    } else {
      NotClosing(cfg, w, p);
    }
  }

  lemma {:induction false} CrashKeeps(cfg: Config, w: World, p: Proc)
    requires w.proc == Some(p)
    ensures var w' := Next(cfg, w, Crash); w'.tickets == w.tickets && w'.proc.None? && w'.log.planned == w.log.planned
  {
    hide Locate;
  }

  lemma {:induction false} NotClosing(cfg: Config, w: World, p: Proc)
    requires p.id in w.tickets && Local(cfg, Base(w, p.id), w.tickets[p.id], p) && !IsLate(w.tickets[p.id].saved)
    ensures !Closing(Some(p))
  {
    if IsLocal(p.pc) && p.pc != Saving(IsAnalysing) { StaysEarly(cfg, Base(w, p.id), w.tickets[p.id], p); }
  }

  lemma {:induction false} NotPlanning(cfg: Config, w: World, p: Proc)
    requires p.id in w.tickets && Local(cfg, Base(w, p.id), w.tickets[p.id], p)
    ensures w.tickets[p.id].saved.state == IsAnalysing ==> p.pc != Saving(IsPlanned)
  {
    if w.tickets[p.id].saved.state == IsAnalysing { NoPlanSave(cfg, Base(w, p.id), w.tickets[p.id], p); }
  }

  /** The executor returns: in ACT only. */
  lemma {:induction false} PerformTick(cfg: Config, w: World, p: Proc, o: Observation, act: Option<Work>, rcas: seq<Option<Rca>>, cuts: nat, last: Option<Rca>)
    requires w.proc == Some(p) && p.id in w.tickets && p.pc.Execute? && AnalysisOk(cfg, w, p.id, act, rcas, cuts, last)
    ensures AnalysisOk(cfg, Next(cfg, w, Perform(o)), p.id, act, rcas, cuts, last)
  {
    hide Observations, Uncrashed, FreshRecords, IsWholeFeed, AnalysedBy, ActIs, Locate, Links, AnalysedTo, SpawnProgress;
    var w' := Next(cfg, w, Perform(o));
    if IsLate(w.tickets[p.id].saved) { ActStays(cfg, w, w', p.id, act.value); }
  }

  /** The process that works on the ticket takes a step, or an event is not enabled. */
  lemma {:induction false} WorkedStep(cfg: Config, w: World, e: Event, id: TicketId, act: Option<Work>, rcas: seq<Option<Rca>>, cuts: nat, last: Option<Rca>)
    requires WorldOk(cfg, w) && GuardsOk(cfg, w) && AnalysisOk(cfg, w, id, act, rcas, cuts, last) && id in w.tickets && ProcOf(w, id).Some?
    ensures AnalysisOk(cfg, Next(cfg, w, e), id, ActAfter(w, e, id, act), RcasAfter(w, e, id, rcas, last), CutsAfter(w, e, id, cuts), RcaAfter(w, e, last))
  {
    hide WorldOk, GuardsOk, AnalysisOk, CrashLog, TickSpawn, TickLocal, PerformStep, AnalyseStep, StartResume, StartApprove, StartRun;
    var p := w.proc.value;
    assert rcas + [] == rcas;
    match e {
      case Tick =>
        if IsLocal(p.pc) { LocalStep(cfg, w, p, act, rcas, cuts, last); }
        else if p.pc.Spawning? || p.pc.SaveChild? || p.pc.RecordChild? { SpawnTick(cfg, w, p, act, rcas, cuts, last); }
        else { NotNew(cfg, w, p); }
      case Crash => CrashTick(cfg, w, p, act, rcas, cuts, last);
      case Analyse(rca) => if p.pc.RcaNote? { AnalyseTick(cfg, w, p, rca, act, rcas, cuts, last); }
      case Perform(o) => if p.pc.Execute? { PerformTick(cfg, w, p, o, act, rcas, cuts, last); }
      case _ =>
    }
  }

  lemma {:induction false} NotNew(cfg: Config, w: World, p: Proc)
    requires WorldOk(cfg, w) && w.proc == Some(p) && p.id in w.tickets
    ensures !p.pc.SaveNew?
  {
    hide Rest, Runs;
    assert ProcOk(cfg, w, p);
  }

  /** A ticket that appears is open. */
  lemma {:induction false} NewStep(cfg: Config, w: World, e: Event, id: TicketId, act: Option<Work>, rcas: seq<Option<Rca>>, cuts: nat, last: Option<Rca>)
    requires WorldOk(cfg, w) && AnalysisOk(cfg, w, id, act, rcas, cuts, last) && id !in w.tickets
    ensures AnalysisOk(cfg, Next(cfg, w, e), id, ActAfter(w, e, id, act), RcasAfter(w, e, id, rcas, last), CutsAfter(w, e, id, cuts), RcaAfter(w, e, last))
  {
    hide Rest, Runs, TickLocal, Locate, Links, Triage, NewFindings, CrashLog, FirstPending, AnalysedBy, ActIs, Progress;
    if w.proc.Some? { assert ProcOk(cfg, w, w.proc.value); }
  }
}
