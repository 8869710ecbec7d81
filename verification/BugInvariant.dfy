/**
 Bug tickets across runs: the index, the child tickets and the links on findings
 (packages/slas-kernel/slas_kernel/kernel.py, `_spawn_bug_tickets`; slas_triage/dedup.py).
 */
module BugInvariant {
  import opened Options
  import opened Records
  import opened Journal
  import opened Attachments
  import opened Act
  import opened Machine
  import opened TicketInvariant
  import opened TicketSteps
  import opened TicketRuns
  import opened ApprovalInvariant
  import opened GuardRuns

  // ---- links on findings ------------------------------------------------------------------------

  ghost predicate AllLinked(fs: seq<Finding>) {
    forall i :: 0 <= i < |fs| ==> fs[i].ticketId.Some?
  }

  lemma {:induction false} LinkIn(fs: seq<Finding>, i: nat)
    requires i < |fs| && fs[i].ticketId.Some?
    ensures (fs[i].fingerprint, fs[i].ticketId.value) in Links(fs)
  {
    assert fs[i] in fs;
  }

  /** Links only look at fingerprints and ticket ids, position by position. */
  lemma {:induction false} LinksWithin(fs: seq<Finding>, k: set<(Fingerprint, TicketId)>)
    requires forall i :: 0 <= i < |fs| && fs[i].ticketId.Some? ==> (fs[i].fingerprint, fs[i].ticketId.value) in k
    ensures Links(fs) <= k
  {
    forall f | f in fs && f.ticketId.Some? ensures (f.fingerprint, f.ticketId.value) in k {
      var i :| 0 <= i < |fs| && fs[i] == f;
    }
  }

  lemma {:induction false} PutLinks(fs: seq<Finding>, f: Finding, k: set<(Fingerprint, TicketId)>)
    requires Links(fs) <= k && Links([f]) <= k
    ensures Links(Put(fs, f)) <= k && Links(MergeOne(fs, f)) <= k
  {
    forall i | 0 <= i < |fs| && fs[i].ticketId.Some? ensures (fs[i].fingerprint, fs[i].ticketId.value) in k { LinkIn(fs, i); }
    if f.ticketId.Some? { LinkIn([f], 0); }
    LinksWithin(Put(fs, f), k);
    LinksWithin(MergeOne(fs, f), k);
  }

  lemma {:induction false} LinksSplit(fs: seq<Finding>)
    requires fs != []
    ensures Links(fs[..|fs| - 1]) <= Links(fs) && Links([fs[|fs| - 1]]) <= Links(fs)
    ensures Links(fs[1..]) <= Links(fs) && Links([fs[0]]) <= Links(fs)
  {
    assert forall f :: f in fs[..|fs| - 1] ==> f in fs;
    assert forall f :: f in fs[1..] ==> f in fs;
  }

  lemma {:induction false} KeyedLinks(fs: seq<Finding>)
    ensures Links(Keyed(fs)) <= Links(fs)
  {
    if fs != [] {
      KeyedLinks(fs[..|fs| - 1]);
      LinksSplit(fs);
      PutLinks(Keyed(fs[..|fs| - 1]), fs[|fs| - 1], Links(fs));
    }
  }

  lemma {:induction false} MergeAllLinks(fs: seq<Finding>, more: seq<Finding>, k: set<(Fingerprint, TicketId)>)
    requires Links(fs) <= k && Links(more) <= k
    ensures Links(MergeAll(fs, more)) <= k
  {
    if more != [] {
      LinksSplit(more);
      MergeAllLinks(fs, more[..|more| - 1], k);
      PutLinks(MergeAll(fs, more[..|more| - 1]), more[|more| - 1], k);
    }
  }

  /** Attaching an observation brings in no link of its own making. */
  lemma {:induction false} FinishLinks(verify: Verify, step: Step, w: Work, r: nat, o: Observation, k: set<(Fingerprint, TicketId)>)
    requires r < |w.steps| && Links(w.findings) <= k && Links(o.findings) <= k
    ensures Links(Finish(verify, step, w, r, o).findings) <= k
  {
    KeyedLinks(w.findings);
    MergeAllLinks(Keyed(w.findings), o.findings, k);
  }

  lemma {:induction false} TriageLinks(route: Finding -> string, fs: seq<Finding>, k: set<(Fingerprint, TicketId)>)
    requires Links(fs) <= k
    ensures Links(Triage(route, fs)) <= k
  {
    MergeAllLinks([], fs, k);
    var once := MergeAll([], fs);
    forall i | 0 <= i < |once| && once[i].ticketId.Some? ensures (once[i].fingerprint, once[i].ticketId.value) in k { LinkIn(once, i); }
    LinksWithin(Triage(route, fs), k);
  }

  /** Points of ANALYSE behind the spawn loop. */
  predicate BehindSpawn(pc: Pc) {
    pc == SpawnNote || pc == SopNote || pc == SaveSop
    || (pc.Moving? && (pc.target == IsNeedsReview || pc.target == IsDone))
    || (pc.Saving? && (pc.target == IsNeedsReview || pc.target == IsDone))
  }

  /** Every link on this ticket, in its journal and in memory, is among `k`. */
  ghost predicate LinksOk(k: set<(Fingerprint, TicketId)>, d: Durable, v: Option<Proc>) {
    && Links(d.saved.work.findings) <= k
    && (d.saved.state == IsNeedsReview || d.saved.state == IsDone ==> AllLinked(d.saved.work.findings))
    && (forall m :: 0 <= m < |Observations(d.journal)| ==> Links(Observations(d.journal)[m].findings) <= k)
    && (v.Some? ==>
          && Links(v.value.mem.work.findings) <= k
          && (v.value.pc.WriteObservation? ==> Links(v.value.pc.seen.findings) <= k)
          && (BehindSpawn(v.value.pc) ==> AllLinked(v.value.mem.work.findings)))
  }

  lemma {:induction false} LinksGrow(k: set<(Fingerprint, TicketId)>, k': set<(Fingerprint, TicketId)>, d: Durable, v: Option<Proc>)
    requires LinksOk(k, d, v) && k <= k'
    ensures LinksOk(k', d, v)
  {
  }

  /** Findings in memory change only where an observation is attached. */
  lemma {:induction false} MemFindings(cfg: Config, d: Durable, p: Proc)
    requires IsLocal(p.pc)
    ensures var m := TickLocal(cfg, d, p);
      m.proc.Some? ==>
        && m.proc.value.id == p.id
        && (!p.pc.Acting? && !p.pc.WriteObservation? ==> m.proc.value.mem.work.findings == p.mem.work.findings)
        && !m.proc.value.pc.WriteObservation?
        && (BehindSpawn(m.proc.value.pc) ==> BehindSpawn(p.pc))
  {
    hide Finish, Locate, FreshRecords, Requests, Completed, OpenIntent, GateResult, Append;
  }

  /** A restored step takes its observation from the journal. */
  lemma {:induction false} ActingLinks(cfg: Config, b: Option<Work>, d: Durable, p: Proc, k: set<(Fingerprint, TicketId)>)
    requires Local(cfg, b, d, p) && p.pc.Acting? && LinksOk(k, d, Some(p))
    ensures var r := TickActing(cfg, p, p.pc.scan); r.Some? ==> Links(r.value.mem.work.findings) <= k
  {
    hide Rest, Runs, InSync, Folded, Finish;
    ActFacts(cfg, b, d, p);
    var scan := p.pc.scan;
    if OnStep(p, scan) && StepAt(p, scan).id in scan.completed {
      assert scan.completed[StepAt(p, scan).id] == Observations(d.journal)[scan.i];
      FinishLinks(cfg.verify, StepAt(p, scan), p.mem.work, RecordAt(p, scan), scan.completed[StepAt(p, scan).id], k);
    }
    hide Links, Locate;
  }

  lemma {:induction false} LinksKept(cfg: Config, b: Option<Work>, d: Durable, p: Proc, k: set<(Fingerprint, TicketId)>)
    requires Local(cfg, b, d, p) && IsLocal(p.pc) && LinksOk(k, d, Some(p))
    ensures var m := TickLocal(cfg, d, p); LinksOk(k, m.d, m.proc)
  {
    hide Rest, Runs, TickLocal, Links, Locate, AllLinked;
    var m := TickLocal(cfg, d, p);
    LocalShape(cfg, d, p);
    MemFindings(cfg, d, p);
    LocalEntry(cfg, d, p);
    ClosingStates(cfg, b, d, p);
    if p.pc.Acting? {
      ActingLinks(cfg, b, d, p, k);
      assert m == Moved(d, TickActing(cfg, p, p.pc.scan)) by { TickIsActing(cfg, d, p); }
    } else if p.pc.WriteObservation? {
      StandsOnStep(cfg, b, d, p);
      ObservationLinks(cfg, d, p, k);
      AppendUnfolds(d.journal, ObservationEntry, Some(StepAt(p, p.pc.scan).id), Seen(p.pc.seen));
    } else if p.pc.WriteIntent? {
      StandsOnStep(cfg, b, d, p);
      var y: Payload :| !y.Seen? && m.d.journal == Append(d.journal, IntentEntry, Some(StepAt(p, p.pc.scan).id), y);
      AppendUnfolds(d.journal, IntentEntry, Some(StepAt(p, p.pc.scan).id), y);
    } else if m.d.journal != d.journal {
      var kind, x :| (kind == NoteEntry || kind == StateEntry) && m.d.journal == Append(d.journal, kind, x, Empty);
      AppendUnfolds(d.journal, kind, x, Empty);
    }
    hide Append, Observations;
  }

  lemma {:induction false} TickIsActing(cfg: Config, d: Durable, p: Proc)
    requires p.pc.Acting?
    ensures TickLocal(cfg, d, p) == Moved(d, TickActing(cfg, p, p.pc.scan))
  {
  }

  lemma {:induction false} ObservationLinks(cfg: Config, d: Durable, p: Proc, k: set<(Fingerprint, TicketId)>)
    requires p.pc.WriteObservation? && OnStep(p, p.pc.scan)
    requires Links(p.mem.work.findings) <= k && Links(p.pc.seen.findings) <= k
    ensures var m := TickLocal(cfg, d, p); m.proc.Some? && Links(m.proc.value.mem.work.findings) <= k
  {
    hide Links, Locate, Append;
    FinishLinks(cfg.verify, StepAt(p, p.pc.scan), p.mem.work, RecordAt(p, p.pc.scan), p.pc.seen, k);
    hide Finish;
  }

  /** A ticket saved as closed comes from behind the spawn loop, or was closed before. */
  lemma {:induction false} ClosingStates(cfg: Config, b: Option<Work>, d: Durable, p: Proc)
    requires Local(cfg, b, d, p) && IsLocal(p.pc)
    ensures Saves(p.pc) && (p.mem.state == IsNeedsReview || p.mem.state == IsDone) ==>
      BehindSpawn(p.pc) || (p.mem.work == d.saved.work && p.mem.state == d.saved.state)
  {
    hide Rest, Folded, InSync, Ended, Settled, ActingOk, Performing, Observing, Observed, FreshPlan, Requests;
  }
}
