/** The bug index, its child tickets and the links on findings after every run. */
module BugRuns {
  import opened Options
  import opened Records
  import opened Journal
  import opened Attachments
  import opened Act
  import opened Machine
  import opened TicketInvariant
  import opened TicketRuns
  import opened ApprovalInvariant
  import opened GuardRuns
  import opened BugInvariant

  type LinkSet = set<(Fingerprint, TicketId)>

  /** A bug ticket: open, with one finding, which names the ticket itself. */
  predicate IsBug(t: Ticket) {
    && t.parent.Some? && t.state == IsOpen && |t.work.findings| == 1
    && t.work.findings[0].ticketId == Some(t.id)
  }

  predicate BugFor(t: Ticket, fp: Fingerprint) {
    IsBug(t) && t.work.findings[0].fingerprint == fp
  }

  /** The index names this ticket for its own fingerprint. */
  predicate Indexed(w: World, id: TicketId)
    requires id in w.tickets && IsBug(w.tickets[id].saved)
  {
    var fp := w.tickets[id].saved.work.findings[0].fingerprint;
    fp in w.index && w.index[fp].ticketId == id
  }

  predicate BeingRecorded(w: World, id: TicketId) {
    w.proc.Some? && w.proc.value.pc.RecordChild? && w.proc.value.pc.child == id
  }

  /** Links a finding may carry: brought along on arrival, or read off the index. */
  ghost function Known(w: World): (k: LinkSet)
  {
    w.log.supplied + set fp | fp in w.index :: (fp, w.index[fp].ticketId)
  }

  ghost predicate SpawnOk(k: LinkSet, s: Spawn) {
    Links(s.todo) <= k && Links(s.updated) <= k && AllLinked(s.updated)
  }

  ghost predicate ChildrenOk(w: World) {
    && (forall fp :: fp in w.index ==>
          w.index[fp].ticketId in w.tickets && BugFor(w.tickets[w.index[fp].ticketId].saved, fp))
    && (forall id :: id in w.tickets && w.tickets[id].saved.parent.Some? ==>
          && w.tickets[id].saved.id == id && IsBug(w.tickets[id].saved)
          && (Indexed(w, id) <==> id !in w.log.orphans && !BeingRecorded(w, id)))
    && (forall id :: id in w.log.orphans ==> id in w.tickets && w.tickets[id].saved.parent.Some?)
  }

  ghost predicate WorkerOk(w: World) {
    w.proc.Some? ==>
      var p := w.proc.value;
      && p.mem.parent.None? && (p.id in w.tickets ==> w.tickets[p.id].saved.parent.None?)
      && (p.pc.SaveChild? ==> p.pc.spawn.todo != [] && p.pc.spawn.todo[0].fingerprint !in w.index)
      && (p.pc.RecordChild? ==>
            && p.pc.spawn.todo != [] && p.pc.spawn.todo[0].fingerprint !in w.index
            && p.pc.child in w.tickets && BugFor(w.tickets[p.pc.child].saved, p.pc.spawn.todo[0].fingerprint)
            && p.pc.child !in w.log.orphans)
      && (p.pc.Spawning? || p.pc.SaveChild? || p.pc.RecordChild? ==> SpawnOk(Known(w), p.pc.spawn))
  }

  ghost predicate LinksKnown(w: World) {
    && (forall id :: id in w.tickets && w.tickets[id].saved.parent.None? ==>
          LinksOk(Known(w), w.tickets[id], ProcOf(w, id)))
    && (w.proc.Some? && w.proc.value.id !in w.tickets ==> w.proc.value.mem.work == NO_WORK)
  }

  ghost predicate BugsOk(w: World) {
    ChildrenOk(w) && WorkerOk(w) && LinksKnown(w)
  }

  // ---- steps that leave the index alone -----------------------------------------------------------

  lemma {:induction false} MemParent(cfg: Config, d: Durable, p: Proc)
    requires IsLocal(p.pc)
    ensures var m := TickLocal(cfg, d, p);
      && (m.proc.Some? ==>
            && m.proc.value.mem.parent == p.mem.parent && m.proc.value.id == p.id
            && !m.proc.value.pc.SaveChild? && !m.proc.value.pc.RecordChild? && !m.proc.value.pc.Spawning?)
  {
    hide Finish, Locate, FreshRecords, Requests, Completed, OpenIntent, GateResult, Append;
  }

  lemma {:induction false} KnownGrows(w: World, w': World)
    requires w.log.supplied <= w'.log.supplied
    requires forall fp :: fp in w.index ==> fp in w'.index && w'.index[fp].ticketId == w.index[fp].ticketId
    ensures Known(w) <= Known(w')
  {
    forall fp | fp in w.index ensures (fp, w.index[fp].ticketId) in Known(w') {
      assert (fp, w'.index[fp].ticketId) in (set x | x in w'.index :: (x, w'.index[x].ticketId));
    }
  }

  ghost predicate NoRecord(w: World) { w.proc.Some? ==> !w.proc.value.pc.RecordChild? }

  /** Tickets that are not bugs may change freely. */
  lemma {:induction false} ChildrenSame(w: World, w': World, id: TicketId)
    requires ChildrenOk(w) && w'.index == w.index && w'.log.orphans == w.log.orphans
    requires w'.tickets == w.tickets || (id in w'.tickets && w'.tickets == w.tickets[id := w'.tickets[id]]
                                         && w'.tickets[id].saved.parent.None?)
    requires id in w.tickets ==> w.tickets[id].saved.parent.None?
    requires NoRecord(w) && NoRecord(w')
    ensures ChildrenOk(w')
  {
    forall x | x in w'.tickets && w'.tickets[x].saved.parent.Some?
      ensures w'.tickets[x].saved.id == x && IsBug(w'.tickets[x].saved) && (Indexed(w', x) <==> x !in w'.log.orphans)
    {
      assert w'.tickets[x] == w.tickets[x];
    }
  }

  /** One non-bug ticket changes, the index and the orphans do not. */
  lemma {:induction false} PlainChange(w: World, w': World, id: TicketId)
    requires BugsOk(w) && w'.index == w.index && w'.log.orphans == w.log.orphans && w.log.supplied <= w'.log.supplied
    requires w'.tickets == w.tickets || (id in w'.tickets && w'.tickets == w.tickets[id := w'.tickets[id]]
                                         && w'.tickets[id].saved.parent.None?)
    requires id in w.tickets ==> w.tickets[id].saved.parent.None?
    requires w.proc.Some? ==> w.proc.value.id == id
    requires NoRecord(w) && NoRecord(w')
    requires w'.proc.Some? ==>
      var q := w'.proc.value;
      && q.id == id && q.mem.parent.None? && !q.pc.SaveChild?
      && (q.pc.Spawning? ==> SpawnOk(Known(w'), q.pc.spawn))
      && (id !in w'.tickets ==> q.mem.work == NO_WORK)
    requires id in w'.tickets ==> LinksOk(Known(w'), w'.tickets[id], w'.proc)
    ensures BugsOk(w')
  {
    hide LinksOk, SpawnOk;
    KnownGrows(w, w');
    hide Known;
    forall x | x in w'.tickets && w'.tickets[x].saved.parent.None?
      ensures LinksOk(Known(w'), w'.tickets[x], ProcOf(w', x))
    {
      if x != id { LinksGrow(Known(w), Known(w'), w.tickets[x], None); }
    }
    ChildrenSame(w, w', id);
    hide ChildrenOk;
  }

  // ---- the spawn loop -------------------------------------------------------------------------------

  /** Same links, or more known ones, for every ticket while the parent spawns. */
  lemma {:induction false} SpawnLinks(w: World, w': World, p: Proc)
    requires LinksKnown(w) && w.proc == Some(p) && p.id in w.tickets && Known(w) <= Known(w')
    requires w'.proc.Some? && w'.proc.value.id == p.id && p.id in w'.tickets
    requires forall x :: x in w'.tickets && w'.tickets[x].saved.parent.None? ==> x in w.tickets && w'.tickets[x] == w.tickets[x]
    requires w.tickets[p.id].saved.parent.None? && w'.tickets[p.id] == w.tickets[p.id]
    requires Links(w'.proc.value.mem.work.findings) <= Known(w') && !w'.proc.value.pc.WriteObservation?
    requires BehindSpawn(w'.proc.value.pc) ==> AllLinked(w'.proc.value.mem.work.findings)
    ensures LinksKnown(w')
  {
    hide Known, Links;
    forall x | x in w'.tickets && w'.tickets[x].saved.parent.None?
      ensures LinksOk(Known(w'), w'.tickets[x], ProcOf(w', x))
    {
      LinksGrow(Known(w), Known(w'), w.tickets[x], ProcOf(w, x));
    }
  }

  lemma {:induction false} UpdatedGrows(k: LinkSet, s: Spawn, f: Finding)
    requires SpawnOk(k, s) && s.todo != [] && f.ticketId.Some? && (f.fingerprint, f.ticketId.value) in k
    ensures SpawnOk(k, s.(todo := s.todo[1..], updated := s.updated + [f]))
  {
    LinksSplit(s.todo);
    forall i | 0 <= i < |s.updated + [f]| && (s.updated + [f])[i].ticketId.Some?
      ensures ((s.updated + [f])[i].fingerprint, (s.updated + [f])[i].ticketId.value) in k
    {
      if i < |s.updated| { LinkIn(s.updated, i); }
    }
    LinksWithin(s.updated + [f], k);
  }

  /** What looking at the next finding leaves for the loop. */
  lemma {:induction false} SpawningWorker(w: World, p: Proc, s: Spawn)
    requires BugsOk(w) && w.proc == Some(p) && p.pc == Spawning(s) && Links(p.mem.work.findings) <= Known(w)
    ensures var w' := TickSpawning(w, p, s);
      && WorkerOk(w') && Known(w) <= Known(w') && Links(w'.proc.value.mem.work.findings) <= Known(w')
      && (BehindSpawn(w'.proc.value.pc) ==> AllLinked(w'.proc.value.mem.work.findings))
  {
    hide LinksOk, Links, ChildrenOk, LinksKnown, Known, SpawnOk, AllLinked;
    var w' := TickSpawning(w, p, s);
    KnownGrows(w, w');
    SpawnLinksKnown(Known(w), Known(w'), s);
    if s.todo != [] {
      var f := s.todo[0];
      if f.ticketId.Some? {
        UpdatedGrows(Known(w'), s, f);
      } else if f.fingerprint in w.index {
        IndexKnown(w, f.fingerprint);
        UpdatedGrows(Known(w'), s, Linked(f, w.index[f.fingerprint].ticketId));
      }
    }
  }

  lemma {:induction false} SpawnLinksKnown(k: LinkSet, k': LinkSet, s: Spawn)
    requires SpawnOk(k, s) && k <= k'
    ensures SpawnOk(k', s) && Links(s.updated) <= k' && AllLinked(s.updated)
    ensures s.todo != [] && s.todo[0].ticketId.Some? ==> (s.todo[0].fingerprint, s.todo[0].ticketId.value) in k'
  {
    if s.todo != [] && s.todo[0].ticketId.Some? { LinkIn(s.todo, 0); }
    hide Links;
  }

  lemma {:induction false} IndexKnown(w: World, fp: Fingerprint)
    requires fp in w.index
    ensures (fp, w.index[fp].ticketId) in Known(w)
  {
  }

  lemma {:induction false} SpawningChildren(w: World, p: Proc, s: Spawn)
    requires ChildrenOk(w) && w.proc == Some(p) && p.pc == Spawning(s)
    ensures ChildrenOk(TickSpawning(w, p, s))
  {
    SpawningIndex(w, p, s);
    var w' := TickSpawning(w, p, s);
    hide TickSpawning, BugFor, IsBug;
    forall x | x in w.tickets && w.tickets[x].saved.parent.Some?
      ensures IsBug(w.tickets[x].saved) && Indexed(w', x) == Indexed(w, x)
    {
    }
  }

  lemma {:induction false} SpawningIndex(w: World, p: Proc, s: Spawn)
    requires w.proc == Some(p) && p.pc == Spawning(s)
    ensures var w' := TickSpawning(w, p, s);
      && w'.tickets == w.tickets && w'.log == w.log && w'.proc.Some? && !w'.proc.value.pc.RecordChild?
      && (forall fp :: fp in w'.index <==> fp in w.index)
      && forall fp :: fp in w.index ==> w'.index[fp].ticketId == w.index[fp].ticketId
  {
  }

  lemma {:induction false} SpawningBugs(w: World, p: Proc, s: Spawn)
    requires BugsOk(w) && w.proc == Some(p) && p.id in w.tickets && p.pc == Spawning(s)
    ensures BugsOk(TickSpawning(w, p, s))
  {
    hide LinksOk, Links, Known, ChildrenOk, AllLinked;
    assert LinksOk(Known(w), w.tickets[p.id], Some(p));
    MemKnown(Known(w), w.tickets[p.id], p);
    SpawningWorker(w, p, s);
    SpawningChildren(w, p, s);
    SpawnLinks(w, TickSpawning(w, p, s), p);
  }

  lemma {:induction false} MemKnown(k: LinkSet, d: Durable, p: Proc)
    requires LinksOk(k, d, Some(p))
    ensures Links(p.mem.work.findings) <= k
  {
  }

  lemma {:induction false} SaveChildBugs(w: World, p: Proc, s: Spawn, child: TicketId)
    requires BugsOk(w) && w.proc == Some(p) && p.id in w.tickets && p.pc == SaveChild(s, child) && child !in w.tickets
    ensures BugsOk(TickSaveChild(w, p, s, child))
  {
    hide LinksOk, Links;
    var w' := TickSaveChild(w, p, s, child);
    assert LinksOk(Known(w), w.tickets[p.id], Some(p));
    MemKnown(Known(w), w.tickets[p.id], p);
    assert Known(w') == Known(w);
    SpawnLinks(w, w', p);
    SavedChildren(w, p, s, child);
    hide ChildrenOk, LinksKnown, Known, SpawnOk;
  }

  /** The new bug ticket is the one the process is about to record. */
  lemma {:induction false} SavedChildren(w: World, p: Proc, s: Spawn, child: TicketId)
    requires ChildrenOk(w) && WorkerOk(w) && w.proc == Some(p) && p.pc == SaveChild(s, child) && child !in w.tickets
    ensures ChildrenOk(TickSaveChild(w, p, s, child))
  {
    hide Links, SpawnOk;
    var w' := TickSaveChild(w, p, s, child);
    forall x | x in w.tickets && w.tickets[x].saved.parent.Some? ensures IsBug(w'.tickets[x].saved) && Indexed(w', x) == Indexed(w, x) {
      assert w'.tickets[x] == w.tickets[x];
    }
  }

  lemma {:induction false} RecordedChildren(w: World, p: Proc, s: Spawn, child: TicketId)
    requires ChildrenOk(w) && WorkerOk(w) && w.proc == Some(p) && p.pc == RecordChild(s, child)
    ensures ChildrenOk(TickRecordChild(w, p, s, child))
  {
    hide Known, Links, AllLinked;
    var w', fp := TickRecordChild(w, p, s, child), s.todo[0].fingerprint;
    assert w'.index == w.index[fp := BugEntry(child, p.id, 1)];
    forall x | x in w.tickets && w.tickets[x].saved.parent.Some?
      ensures Indexed(w', x) <==> x !in w'.log.orphans
    {
      if x != child && w.tickets[x].saved.work.findings[0].fingerprint == fp {
        assert !Indexed(w, x);
      }
    }
  }

  lemma {:induction false} RecordChildBugs(w: World, p: Proc, s: Spawn, child: TicketId)
    requires BugsOk(w) && w.proc == Some(p) && p.id in w.tickets && p.pc == RecordChild(s, child)
    ensures BugsOk(TickRecordChild(w, p, s, child))
  {
    hide LinksOk, Links, ChildrenOk, AllLinked;
    var w', f := TickRecordChild(w, p, s, child), s.todo[0];
    assert LinksOk(Known(w), w.tickets[p.id], Some(p));
    MemKnown(Known(w), w.tickets[p.id], p);
    KnownGrows(w, w');
    assert w'.index[f.fingerprint].ticketId == child;
    assert (f.fingerprint, w'.index[f.fingerprint].ticketId) in Known(w');
    hide Known;
    assert SpawnOk(Known(w'), s);
    UpdatedGrows(Known(w'), s, Linked(f, child));
    SpawnLinks(w, w', p);
    RecordedChildren(w, p, s, child);
  }

  // ---- all events -----------------------------------------------------------------------------------

  lemma {:induction false} NewFindingLinks(known: set<Fingerprint>, fs: seq<Finding>, k: LinkSet)
    requires Links(fs) <= k
    ensures Links(NewFindings(known, fs)) <= k
  {
    if fs != [] {
      LinksSplit(fs);
      NewFindingLinks(known, fs[1..], k);
      var rest := NewFindings(known, fs[1..]);
      assert Links([fs[0]] + rest) == Links([fs[0]]) + Links(rest);
    }
  }

  lemma {:induction false} RcaLinks(cfg: Config, k: LinkSet, d: Durable, p: Proc, rca: Option<Rca>)
    requires LinksOk(k, d, Some(p)) && (rca.Some? ==> Links(rca.value.findings) <= k)
    ensures var m := TickRca(cfg, d, p, rca);
      && m.proc.Some? && m.proc.value.id == p.id && m.proc.value.mem.parent == p.mem.parent
      && m.d.saved == d.saved && m.proc.value.pc.Spawning? && SpawnOk(k, m.proc.value.pc.spawn)
      && LinksOk(k, m.d, m.proc)
  {
    hide Triage, Append;
    AppendUnfolds(d.journal, NoteEntry, None, Empty);
    var work := WithRca(p.mem.work, rca);
    if rca.Some? {
      NewFindingLinks(Prints(p.mem.work.findings), rca.value.findings, k);
      var more := NewFindings(Prints(p.mem.work.findings), rca.value.findings);
      assert Links(p.mem.work.findings + more) == Links(p.mem.work.findings) + Links(more);
    }
    assert Links(work.findings) <= k;
    TriageLinks(cfg.route, work.findings, k);
    hide Links, NewFindings, Observations;
  }

  lemma {:induction false} TickBugs(cfg: Config, w: World, p: Proc)
    requires WorldOk(cfg, w) && BugsOk(w) && w.proc == Some(p)
    ensures BugsOk(TickProc(cfg, w, p))
  {
    hide Rest, Runs, TickLocal, ChildrenOk, LinksOk, Known, SpawnOk, TickSpawning, TickSaveChild, TickRecordChild;
    var w' := TickProc(cfg, w, p);
    if p.pc.SaveNew? {
      NewLinks(Known(w'), p);
      PlainChange(w, w', p.id);
    } else if p.pc.Execute? || p.pc.RcaNote? {
    } else if p.pc.Spawning? {
      SpawningBugs(w, p, p.pc.spawn);
    } else if p.pc.SaveChild? {
      SaveChildBugs(w, p, p.pc.spawn, p.pc.child);
    } else if p.pc.RecordChild? {
      RecordChildBugs(w, p, p.pc.spawn, p.pc.child);
    } else {
      var d := w.tickets[p.id];
      assert LinksOk(Known(w), d, Some(p));
      assert Known(w') == Known(w) by { KnownGrows(w, w'); KnownGrows(w', w); }
      LinksKept(cfg, Base(w, p.id), d, p, Known(w));
      MemParent(cfg, d, p);
      LocalShape(cfg, d, p);
      PlainChange(w, w', p.id);
    }
  }

  lemma {:induction false} NewLinks(k: LinkSet, p: Proc)
    requires p.pc.SaveNew? && p.mem == NewTicket(p.id, p.mem.jobId)
    ensures LinksOk(k, Durable(p.mem, []), Some(p.(pc := Ingested(p.pc.sub))))
  {
  }

  lemma {:induction false} StartBugs(cfg: Config, w: World, id: TicketId, s: StepId)
    requires WorldOk(cfg, w) && BugsOk(w) && w.proc.None? && id in w.tickets
    ensures BugsOk(StartResume(w, id)) && BugsOk(StartApprove(w, id, s))
  {
    hide BugsOk, WorldOk, StartResume, StartApprove;
    ResumeBugs(w, id);
    ApproveBugs(cfg, w, id, s);
  }

  lemma {:induction false} ResumeBugs(w: World, id: TicketId)
    requires BugsOk(w) && w.proc.None? && id in w.tickets
    ensures BugsOk(StartResume(w, id))
  {
    hide Known, Completed, OpenIntent, Links, Observations, AllLinked, SpawnOk, ChildrenOk;
    var r := StartResume(w, id);
    if r.proc.Some? {
      BugTicketsAreOpen(w, id);
      assert Known(r) == Known(w) by { KnownGrows(w, r); KnownGrows(r, w); }
      PlainChange(w, r, id);
    }
  }

  lemma {:induction false} ApproveBugs(cfg: Config, w: World, id: TicketId, s: StepId)
    requires WorldOk(cfg, w) && BugsOk(w) && w.proc.None? && id in w.tickets
    ensures BugsOk(StartApprove(w, id, s))
  {
    hide Rest, Known, FirstPending, Links, Observations, AllLinked, SpawnOk, ChildrenOk;
    var d, a := w.tickets[id], StartApprove(w, id, s);
    if d.saved.approvals != [] { PendingHasPlan(cfg, Base(w, id), d); PlanNotOpen(cfg, Base(w, id), d); }
    if a.proc.Some? {
      BugTicketsAreOpen(w, id);
      assert Known(a) == Known(w) by { KnownGrows(w, a); KnownGrows(a, w); }
      PlainChange(w, a, id);
    }
  }

  lemma {:induction false} BugTicketsAreOpen(w: World, id: TicketId)
    requires ChildrenOk(w) && id in w.tickets
    ensures w.tickets[id].saved.parent.Some? ==> IsBug(w.tickets[id].saved)
  {
  }

  lemma {:induction false} PlanNotOpen(cfg: Config, b: Option<Work>, d: Durable)
    requires Rest(cfg, b, d) && d.saved.plan.Some?
    ensures d.saved.state != IsOpen
  {
  }

  lemma {:induction false} PerformBugs(cfg: Config, w: World, p: Proc, scan: Scan, o: Observation)
    requires WorldOk(cfg, w) && BugsOk(w) && w.proc == Some(p) && p.pc == Execute(scan)
    ensures BugsOk(PerformStep(w, p, scan, o))
  {
    hide Rest, Runs, ChildrenOk, Links, AllLinked, SpawnOk, Observations;
    PerformKeeps(cfg, w, p, scan, o);
    var w' := PerformStep(w, p, scan, o);
    KnownGrows(w, w');
    assert Links(o.findings) <= Known(w');
    hide Known, Locate;
    assert LinksOk(Known(w), w.tickets[p.id], Some(p));
    LinksGrow(Known(w), Known(w'), w.tickets[p.id], Some(p));
    PlainChange(w, w', p.id);
  }

  lemma {:induction false} AnalyseBugs(cfg: Config, w: World, p: Proc, rca: Option<Rca>)
    requires WorldOk(cfg, w) && BugsOk(w) && w.proc == Some(p) && p.pc.RcaNote? && p.id in w.tickets
    ensures BugsOk(AnalyseStep(cfg, w, p, rca))
  {
    hide Rest, Runs, ChildrenOk, Links, LinksOk, SpawnOk, TickRca;
    var w' := AnalyseStep(cfg, w, p, rca);
    KnownGrows(w, w');
    assert rca.Some? ==> Links(rca.value.findings) <= Known(w');
    hide Known;
    assert LinksOk(Known(w), w.tickets[p.id], Some(p));
    LinksGrow(Known(w), Known(w'), w.tickets[p.id], Some(p));
    RcaLinks(cfg, Known(w'), w.tickets[p.id], p, rca);
    PlainChange(w, w', p.id);
  }

  lemma {:induction false} CrashOrphans(cfg: Config, w: World, p: Proc)
    requires w.proc == Some(p)
    ensures var w' := Next(cfg, w, Crash);
      && w'.tickets == w.tickets && w'.index == w.index && w'.proc.None? && w'.log.supplied == w.log.supplied
      && w'.log.orphans == if p.pc.RecordChild? then w.log.orphans + {p.pc.child} else w.log.orphans
  {
    hide Locate;
  }

  /** Only a crash between a child's save and its index record leaves an orphan. */
  lemma {:induction false} CrashChildren(w: World, w': World, p: Proc)
    requires ChildrenOk(w) && WorkerOk(w) && w.proc == Some(p)
    requires w'.tickets == w.tickets && w'.index == w.index && w'.proc.None?
    requires w'.log.orphans == if p.pc.RecordChild? then w.log.orphans + {p.pc.child} else w.log.orphans
    ensures ChildrenOk(w')
  {
    hide SpawnOk, Known;
    forall x | x in w.tickets && w.tickets[x].saved.parent.Some?
      ensures Indexed(w', x) <==> x !in w'.log.orphans
    {
      assert Indexed(w', x) == Indexed(w, x);
    }
  }

  lemma {:induction false} CrashBugs(cfg: Config, w: World, p: Proc)
    requires BugsOk(w) && w.proc == Some(p)
    ensures BugsOk(Next(cfg, w, Crash))
  {
    hide ChildrenOk, WorkerOk, Next, LinksOk;
    var w' := Next(cfg, w, Crash);
    CrashOrphans(cfg, w, p);
    CrashChildren(w, w', p);
    assert Known(w') == Known(w) by { KnownGrows(w, w'); KnownGrows(w', w); }
    hide Known;
    forall x | x in w.tickets && w.tickets[x].saved.parent.None? ensures LinksOk(Known(w'), w.tickets[x], None) {
      LinksDrop(Known(w), w.tickets[x], ProcOf(w, x));
    }
    IdleWorker(w');
  }

  lemma {:induction false} LinksDrop(k: LinkSet, d: Durable, v: Option<Proc>)
    requires LinksOk(k, d, v)
    ensures LinksOk(k, d, None)
  {
  }

  lemma {:induction false} IdleWorker(w: World)
    requires w.proc.None?
    ensures WorkerOk(w)
  {
  }

  lemma {:induction false} NextBugs(cfg: Config, w: World, e: Event)
    requires WorldOk(cfg, w) && BugsOk(w)
    ensures BugsOk(Next(cfg, w, e))
  {
    hide Rest, Runs, ChildrenOk, LinksOk, SpawnOk, Known, TickProc, StartResume, StartApprove, PerformStep, AnalyseStep, CrashLog;
    match e {
      case Submit(_) =>
        var w' := Next(cfg, w, e);
        if w.proc.None? { PlainChange(w, w', w'.proc.value.id); }
      case Approve(id, s) => if w.proc.None? && id in w.tickets { StartBugs(cfg, w, id, s); }
      case Resume(id) => if w.proc.None? && id in w.tickets { StartBugs(cfg, w, id, ""); }
      case Tick => if w.proc.Some? { TickBugs(cfg, w, w.proc.value); }
      case Perform(o) =>
        if w.proc.Some? && w.proc.value.pc.Execute? { PerformBugs(cfg, w, w.proc.value, w.proc.value.pc.scan, o); }
      case Analyse(rca) =>
        if w.proc.Some? && w.proc.value.pc.RcaNote? && w.proc.value.id in w.tickets { AnalyseBugs(cfg, w, w.proc.value, rca); }
      case Crash => if w.proc.Some? { CrashBugs(cfg, w, w.proc.value); }
    }
  }

  lemma {:induction false} AlwaysBugs(cfg: Config, es: seq<Event>)
    ensures BugsOk(After(cfg, es))
  {
    hide Rest, Runs;
    if es != [] {
      AlwaysOk(cfg, es[..|es| - 1]);
      AlwaysBugs(cfg, es[..|es| - 1]);
      NextBugs(cfg, After(cfg, es[..|es| - 1]), es[|es| - 1]);
    }
  }
}
