/**
 The note on an intent, and the counts of the bug index, over whole runs
 (packages/slas-kernel/slas_kernel/kernel.py, `_perform`; slas_triage/dedup.py, `BugIndex.record`).
 */
module RedoRuns {
  import opened Options
  import opened Records
  import opened Journal
  import opened Act
  import opened Machine
  import opened TicketInvariant
  import opened TicketSteps
  import opened TicketRuns
  import opened PlanRuns
  import opened GuardRuns
  import opened KernelTheorems

  // ---- "re-performing after an interruption" -----------------------------------------------------------

  /** An intent says it re-performs a step exactly when that step's intent was open before it. */
  predicate RedoTold(j: seq<Entry>) {
    forall k :: 0 <= k < |j| && j[k].kind == IntentEntry ==> (j[k].payload == Redo <==> OpenIntent(j[..k]) == j[k].stepId)
  }

  /** The step found interrupted when the loop began is still open, or was observed since. */
  predicate ScanTold(j: seq<Entry>, pc: Pc) {
    match pc
    case Acting(scan) => Stale(j, scan.interrupted)
    case SaveRunning(scan) => Stale(j, scan.interrupted)
    case WriteIntent(scan) => Stale(j, scan.interrupted)
    case Execute(scan) => IsPast(j, scan.interrupted) || scan.interrupted == OpenIntent(j)
    case WriteObservation(scan, _) => IsPast(j, scan.interrupted) || scan.interrupted == OpenIntent(j)
    case SaveStep(scan) => IsPast(j, scan.interrupted) && OpenIntent(j).None?
    case _ => true
  }

  predicate IsPast(j: seq<Entry>, s: Option<StepId>) { s.None? || s.value in ObservedIds(j) }

  predicate Stale(j: seq<Entry>, s: Option<StepId>) { s == OpenIntent(j) || (OpenIntent(j).None? && IsPast(j, s)) }

  ghost predicate RedoOk(w: World, id: TicketId) {
    id in w.tickets ==>
      && RedoTold(w.tickets[id].journal)
      && (ProcOf(w, id).Some? ==> ScanTold(w.tickets[id].journal, w.proc.value.pc))
  }

  lemma {:induction false} OtherEntryKeeps(j: seq<Entry>, kind: Kind, s: Option<StepId>, y: Payload)
    requires RedoTold(j) && kind != IntentEntry
    ensures RedoTold(Append(j, kind, s, y))
  {
    hide OpenIntent;
    var r := Append(j, kind, s, y);
    forall k | 0 <= k < |r| && r[k].kind == IntentEntry ensures r[k].payload == Redo <==> OpenIntent(r[..k]) == r[k].stepId {
      assert r[..k] == j[..k];
    }
  }

  lemma {:induction false} IntentIsTold(j: seq<Entry>, s: StepId, interrupted: Option<StepId>)
    requires RedoTold(j) && Stale(j, interrupted) && s !in ObservedIds(j)
    ensures RedoTold(Append(j, IntentEntry, Some(s), if Some(s) == interrupted then Redo else Empty))
  {
    hide OpenIntent, ObservedIds;
    var r := Append(j, IntentEntry, Some(s), if Some(s) == interrupted then Redo else Empty);
    forall k | 0 <= k < |r| && r[k].kind == IntentEntry ensures r[k].payload == Redo <==> OpenIntent(r[..k]) == r[k].stepId {
      assert r[..k] == j[..k];
      if k == |j| { assert j[..k] == j; }
    }
  }

  /** The process that works on the ticket ticks, anywhere but at an intent or an observation. */
  lemma {:induction false} QuietTick(cfg: Config, d: Durable, p: Proc)
    requires IsLocal(p.pc) && !p.pc.WriteIntent? && !p.pc.WriteObservation? && RedoTold(d.journal) && ScanTold(d.journal, p.pc)
    ensures var m := TickLocal(cfg, d, p);
      RedoTold(m.d.journal) && (m.proc.Some? ==> ScanTold(m.d.journal, m.proc.value.pc))
  {
    hide RedoTold, TickLocal, OpenIntent, ObservedIds;
    LocalEntry(cfg, d, p);
    var m := TickLocal(cfg, d, p);
    if m.d.journal != d.journal {
      var kind, x :| (kind == NoteEntry || kind == StateEntry) && m.d.journal == Append(d.journal, kind, x, Empty);
      OtherEntryKeeps(d.journal, kind, x, Empty);
    }
    ScanFollows(cfg, d, p);
  }

  /** Where a process is in the loop it came from the loop, or begins it with the journal as it is. */
  lemma {:induction false} ScanFollows(cfg: Config, d: Durable, p: Proc)
    requires IsLocal(p.pc) && !p.pc.WriteIntent? && !p.pc.WriteObservation? && ScanTold(d.journal, p.pc)
    ensures var m := TickLocal(cfg, d, p); m.proc.Some? ==> ScanTold(m.d.journal, m.proc.value.pc)
  {
    hide Finish, MarkRunning, Locate, Requests, Completed, OpenIntent, ObservedIds, FreshRecords, GateResult, Append, HasFailedStep, HasPendingApproval;
  }

  lemma {:induction false} IntentTick(cfg: Config, b: Option<Work>, d: Durable, p: Proc)
    requires Local(cfg, b, d, p) && p.pc.WriteIntent? && RedoTold(d.journal) && ScanTold(d.journal, p.pc)
    ensures var m := TickLocal(cfg, d, p);
      RedoTold(m.d.journal) && (m.proc.Some? ==> ScanTold(m.d.journal, m.proc.value.pc))
  {
    hide Rest, Runs, RedoTold;
    ActFacts(cfg, b, d, p);
    StandsOnStep(cfg, b, d, p);
    hide Locate, ObservedIds, OpenIntent, Append, Folded, InSync;
    var s := StepAt(p, p.pc.scan).id;
    IntentIsTold(d.journal, s, p.pc.scan.interrupted);
    IntentOpens(d.journal, s, p.pc.scan.interrupted);
  }

  lemma {:induction false} IntentOpens(j: seq<Entry>, s: StepId, interrupted: Option<StepId>)
    requires Stale(j, interrupted) && NextIfOpen(j, s)
    ensures var r := Append(j, IntentEntry, Some(s), if Some(s) == interrupted then Redo else Empty);
      IsPast(r, interrupted) || interrupted == OpenIntent(r)
  {
    AppendUnfolds(j, IntentEntry, Some(s), if Some(s) == interrupted then Redo else Empty);
    hide OpenIntent, ObservedIds, Append;
  }

  /** Only this step can be the open one. */
  predicate NextIfOpen(j: seq<Entry>, s: StepId) { OpenIntent(j).None? || OpenIntent(j) == Some(s) }

  lemma {:induction false} ObservationTick(cfg: Config, b: Option<Work>, d: Durable, p: Proc)
    requires Local(cfg, b, d, p) && p.pc.WriteObservation? && RedoTold(d.journal) && ScanTold(d.journal, p.pc)
    ensures var m := TickLocal(cfg, d, p);
      RedoTold(m.d.journal) && (m.proc.Some? ==> ScanTold(m.d.journal, m.proc.value.pc))
  {
    hide RedoTold, ScanTold;
    hide Rest, Runs;
    ActFacts(cfg, b, d, p);
    StandsOnStep(cfg, b, d, p);
    var s := StepAt(p, p.pc.scan).id;
    OtherEntryKeeps(d.journal, ObservationEntry, Some(s), Seen(p.pc.seen));
    ObservationCloses(d.journal, s, p);
    hide Locate, Finish, Append;
  }

  lemma {:induction false} ObservationCloses(j: seq<Entry>, s: StepId, p: Proc)
    requires p.pc.WriteObservation? && ScanTold(j, p.pc) && OpenIntent(j) == Some(s)
    ensures ScanTold(Append(j, ObservationEntry, Some(s), Seen(p.pc.seen)), SaveStep(p.pc.scan))
  {
    AppendUnfolds(j, ObservationEntry, Some(s), Seen(p.pc.seen));
    hide OpenIntent, ObservedIds, Append;
  }

  lemma {:induction false} OwnTick(cfg: Config, w: World, p: Proc)
    requires WorldOk(cfg, w) && w.proc == Some(p) && p.id in w.tickets && RedoOk(w, p.id)
    ensures RedoOk(TickProc(cfg, w, p), p.id)
  {
    hide Rest, Runs, RedoTold, ScanTold, TickLocal;
    if IsLocal(p.pc) {
      assert Local(cfg, Base(w, p.id), w.tickets[p.id], p);
      LocalKeepsId(cfg, w.tickets[p.id], p);
      hide WorldOk;
      if p.pc.WriteIntent? { IntentTick(cfg, Base(w, p.id), w.tickets[p.id], p); }
      else if p.pc.WriteObservation? { ObservationTick(cfg, Base(w, p.id), w.tickets[p.id], p); }
      else { QuietTick(cfg, w.tickets[p.id], p); }
    } else if p.pc.Spawning? || p.pc.SaveChild? || p.pc.RecordChild? {
      SpawnFiles(cfg, w, p, p.id);
      SpawnStays(cfg, w, p);
    }
  }

  /** The spawn loop is behind the loop over the plan. */
  lemma {:induction false} SpawnStays(cfg: Config, w: World, p: Proc)
    requires p.pc.Spawning? || p.pc.SaveChild? || p.pc.RecordChild?
    ensures var w' := TickProc(cfg, w, p);
      w'.proc.Some? ==> w'.proc.value.id == p.id && forall j :: ScanTold(j, w'.proc.value.pc)
  {
    hide ChildTicket, Linked, SequenceOf;
  }

  lemma {:induction false} NewFile(cfg: Config, w: World, e: Event, id: TicketId)
    requires WorldOk(cfg, w) && id !in w.tickets
    ensures RedoOk(Next(cfg, w, e), id)
  {
    hide Rest, Runs, TickLocal, TickRca, Locate, CrashLog;
    if w.proc.Some? { assert ProcOk(cfg, w, w.proc.value); }
  }

  /** An event of another ticket's process, or a call that starts one on this ticket. */
  lemma {:induction false} Untouched(cfg: Config, w: World, e: Event, id: TicketId)
    requires WorldOk(cfg, w) && id in w.tickets && ProcOf(w, id).None? && RedoOk(w, id)
    ensures RedoOk(Next(cfg, w, e), id)
  {
    hide RedoTold;
    OnlyWorkerWrites(cfg, w, e, id);
    hide Rest, Runs, TickLocal, TickSpawn, TickRca, Locate, CrashLog, OpenIntent, ObservedIds, FirstPending, Completed, HasPendingApproval;
    if e.Tick? && w.proc.Some? { OtherKeepsId(cfg, w, w.proc.value); }
  }

  lemma {:induction false} OtherKeepsId(cfg: Config, w: World, p: Proc)
    requires WorldOk(cfg, w) && w.proc == Some(p)
    ensures TickProc(cfg, w, p).proc.Some? ==> TickProc(cfg, w, p).proc.value.id == p.id
  {
    hide Rest, Runs, TickLocal, ChildTicket, Linked, SequenceOf;
    if IsLocal(p.pc) && p.id in w.tickets { LocalKeepsId(cfg, w.tickets[p.id], p); }
  }

  lemma {:induction false} WorkedOn(cfg: Config, w: World, e: Event, id: TicketId)
    requires WorldOk(cfg, w) && id in w.tickets && ProcOf(w, id).Some? && RedoOk(w, id)
    ensures RedoOk(Next(cfg, w, e), id)
  {
    hide RedoTold, WorldOk, TickProc, Locate, OpenIntent, ObservedIds, CrashLog;
    var p := w.proc.value;
    match e
    case Tick => OwnTick(cfg, w, p);
    case Analyse(rca) => if p.pc.RcaNote? { AnalysisTold(cfg, w, p, rca); }
    case _ =>
  }

  lemma {:induction false} AnalysisTold(cfg: Config, w: World, p: Proc, rca: Option<Rca>)
    requires p.id in w.tickets && RedoTold(w.tickets[p.id].journal)
    ensures RedoOk(AnalyseStep(cfg, w, p, rca), p.id)
  {
    hide RedoTold, WithRca, Links, OpenIntent;
    OtherEntryKeeps(w.tickets[p.id].journal, NoteEntry, None, Empty);
  }

  lemma {:induction false} AlwaysTold(cfg: Config, es: seq<Event>, id: TicketId)
    ensures RedoOk(After(cfg, es), id)
  {
    hide Next, WorldOk, RedoOk;
    if es == [] {
      NothingTold(id);
    } else {
      var p, e := es[..|es| - 1], es[|es| - 1];
      var w := After(cfg, p);
      AlwaysTold(cfg, p, id);
      AlwaysOk(cfg, p);
      if id !in w.tickets { NewFile(cfg, w, e, id); }
      else if ProcOf(w, id).None? { Untouched(cfg, w, e, id); }
      else { WorkedOn(cfg, w, e, id); }
    }
  }

  lemma {:induction false} NothingTold(id: TicketId)
    ensures RedoOk(INITIAL, id)
  {
  }

  /**
   In every journal of every run an intent carries the note "re-performing after an interruption"
   if and only if the intent of the same step was open before it.
   */
  lemma {:induction false} RedoIff(cfg: Config, es: seq<Event>, id: TicketId, k: nat)
    requires id in After(cfg, es).tickets && k < |After(cfg, es).tickets[id].journal|
    requires After(cfg, es).tickets[id].journal[k].kind == IntentEntry
    ensures var j := After(cfg, es).tickets[id].journal;
      j[k].payload == Redo <==> OpenIntent(j[..k]) == j[k].stepId
  {
    hide After, OpenIntent, ScanTold;
    AlwaysTold(cfg, es, id);
  }

  // ---- the bug index counts ------------------------------------------------------------------------------

  /** A ticket's finding of this fingerprint is recorded: counted again, or with the bug ticket just saved for it. */
  predicate Tallies(w: World, e: Event, fp: Fingerprint) {
    e.Tick? && w.proc.Some?
    && match w.proc.value.pc
       case Spawning(s) => s.todo != [] && s.todo[0].ticketId.None? && s.todo[0].fingerprint == fp && fp in w.index
       case RecordChild(s, _) => s.todo != [] && s.todo[0].fingerprint == fp
       case _ => false
  }

  function RecordsIn(cfg: Config, es: seq<Event>, fp: Fingerprint): (n: nat)
  {
    if es == [] then 0
    else
      var p := es[..|es| - 1];
      RecordsIn(cfg, p, fp) + if Tallies(After(cfg, p), es[|es| - 1], fp) then 1 else 0
  }

  /** What one event does to one entry of the index. */
  ghost predicate EntryFollows(before: map<Fingerprint, BugEntry>, after: map<Fingerprint, BugEntry>, fp: Fingerprint, recorded: bool) {
    && (fp in after <==> fp in before || recorded)
    && (fp in after ==> after[fp].seen == (if fp in before then before[fp].seen else 0) + if recorded then 1 else 0)
    && (fp in before ==> after[fp].ticketId == before[fp].ticketId && after[fp].firstSeenIn == before[fp].firstSeenIn)
  }

  lemma {:induction false} SpawnTallies(w: World, p: Proc, fp: Fingerprint)
    requires w.proc == Some(p) && (p.pc.Spawning? || p.pc.SaveChild? || p.pc.RecordChild?)
    ensures EntryFollows(w.index, TickSpawn(w, p).index, fp, Tallies(w, Tick, fp))
  {
    hide ChildTicket, Linked, SequenceOf;
  }

  lemma {:induction false} OthersTallyNothing(cfg: Config, w: World, e: Event, fp: Fingerprint)
    requires e.Tick? && w.proc.Some? ==> var pc := w.proc.value.pc; !(pc.Spawning? || pc.SaveChild? || pc.RecordChild?)
    ensures Next(cfg, w, e).index == w.index && !Tallies(w, e, fp)
  {
    hide TickLocal, TickRca, Locate, CrashLog, TickSpawn, SequenceOf, FirstPending, ResumePoint;
  }

  lemma {:induction false} EntryStep(cfg: Config, w: World, e: Event, fp: Fingerprint)
    ensures EntryFollows(w.index, Next(cfg, w, e).index, fp, Tallies(w, e, fp))
  {
    hide TickSpawn, Tallies, TickLocal;
    if e.Tick? && w.proc.Some? && var pc := w.proc.value.pc; (pc.Spawning? || pc.SaveChild? || pc.RecordChild?) {
      SpawnTallies(w, w.proc.value, fp);
    } else {
      OthersTallyNothing(cfg, w, e, fp);
      hide Next;
    }
  }

  /**
   In every run the index has an entry exactly for the fingerprints recorded so far, and `seen` is
   how often that was.
   */
  lemma {:induction false} SeenIsCounted(cfg: Config, es: seq<Event>, fp: Fingerprint)
    ensures fp in After(cfg, es).index <==> RecordsIn(cfg, es, fp) > 0
    ensures fp in After(cfg, es).index ==> After(cfg, es).index[fp].seen == RecordsIn(cfg, es, fp)
  {
    hide Next, Tallies;
    if es != [] {
      var p := es[..|es| - 1];
      SeenIsCounted(cfg, p, fp);
      EntryStep(cfg, After(cfg, p), es[|es| - 1], fp);
    }
  }

  /** The ticket an entry names and the run it was first seen in never change. */
  lemma {:induction false} EntriesStay(cfg: Config, es: seq<Event>, more: seq<Event>, fp: Fingerprint)
    requires fp in After(cfg, es).index
    ensures var before, after := After(cfg, es).index, After(cfg, es + more).index;
      fp in after && after[fp].ticketId == before[fp].ticketId && after[fp].firstSeenIn == before[fp].firstSeenIn
  {
    hide Next, Tallies;
    if more == [] {
      assert es + more == es;
    } else {
      var n := |more| - 1;
      EntriesStay(cfg, es, more[..n], fp);
      assert (es + more)[..|es + more| - 1] == es + more[..n];
      EntryStep(cfg, After(cfg, es + more[..n]), more[n], fp);
    }
  }
}
