/**
 The kernel in the form of the source: an object over the ticket store, the journals and the
 bug index, with loops that update them (packages/slas-kernel/slas_kernel/kernel.py).

 `power(n)` says whether the n-th durable effect happens: where it does not, the call returns as
 a killed process would, and a later call may go on. Every call is proved to be a run of the
 state machine, so every theorem about runs is about this object; and a call that no power cut
 hits is proved to end where the source promises.
 */
module KernelObject {
  import opened Options
  import opened Records
  import opened Journal
  import opened SkillGate
  import opened Attachments
  import opened Act
  import opened Machine
  import opened TicketInvariant
  import opened TicketSteps
  import opened TicketRuns
  import opened PlanRuns

  lemma {:induction false} Snoc(cfg: Config, es: seq<Event>, e: Event)
    ensures After(cfg, es + [e]) == Next(cfg, After(cfg, es), e)
  {
    assert (es + [e])[..|es + [e]| - 1] == es;
  }

  lemma {:induction false} SavedUnderItsId(cfg: Config, es: seq<Event>, id: TicketId)
    requires id in After(cfg, es).tickets
    ensures After(cfg, es).tickets[id].saved.id == id
  {
    hide Rest, Runs, After;
    AlwaysOk(cfg, es);
  }

  lemma {:induction false} PlannedHasPlan(cfg: Config, es: seq<Event>, id: TicketId)
    requires id in After(cfg, es).tickets && After(cfg, es).tickets[id].saved.state in {IsPlanned, IsApproved, IsRunning}
    ensures After(cfg, es).tickets[id].saved.plan.Some?
  {
    hide Runs, After, InSync;
    AlwaysOk(cfg, es);
    var w := After(cfg, es);
    assert Rest(cfg, Base(w, id), w.tickets[id]);
  }

  /** Every step of a plan has its record, so the loop never raises for a missing one. */
  lemma {:induction false} StandsOnRecord(cfg: Config, es: seq<Event>, p: Proc)
    requires After(cfg, es).proc == Some(p) && p.pc.Acting? && p.mem.plan.Some? && p.pc.scan.i < |p.mem.plan.value.steps|
    ensures OnStep(p, p.pc.scan)
  {
    hide After, Rest, Runs, InSync, Folded, Locate;
    AlwaysOk(cfg, es);
    var w := After(cfg, es);
    var b, d := Base(w, p.id), w.tickets[p.id];
    ActFacts(cfg, b, d, p);
    ActingAligned(cfg, b, d.saved, ViewOf(d.journal), p.mem.work, p.pc.scan);
    LocateAligned(d.saved.plan.value, p.mem.work.steps, p.pc.scan.i);
  }

  /** The effects of `_perform` on a ticket whose record is found. */
  lemma {:induction false} PerformTicks(cfg: Config, d: Durable, t: Ticket, scan: Scan, o: Observation)
    requires OnStep(Proc(t.id, t, Acting(scan)), scan)
    ensures var p := Proc(t.id, t, Acting(scan));
      var step, r := StepAt(p, scan), RecordAt(p, scan);
      var after := Finish(cfg.verify, step, t.work, r, o);
      && TickLocal(cfg, d, p.(pc := SaveRunning(scan))) == Moved(d.(saved := t), Some(p.(pc := WriteIntent(scan))))
      && TickLocal(cfg, d, p.(pc := WriteIntent(scan)))
           == Moved(Write(d, IntentEntry, Some(step.id), if Some(step.id) == scan.interrupted then Redo else Empty), Some(p.(pc := Execute(scan))))
      && TickLocal(cfg, d, p.(pc := WriteObservation(scan, o)))
           == Moved(Write(d, ObservationEntry, Some(step.id), Seen(o)), Some(Proc(t.id, t.(work := after), SaveStep(scan))))
      && TickLocal(cfg, d, p.(pc := SaveStep(scan)))
           == Moved(d.(saved := t), Some(p.(pc := if t.work.steps[r].status == Failed then Moving(IsAnalysing) else Acting(NextStep(scan)))))
  {
    hide Finish, Locate, Append;
  }

  lemma {:induction false} ApproveTicks(cfg: Config, d: Durable, t: Ticket, s: StepId)
    ensures TickLocal(cfg, d, Proc(t.id, t, ApproveNote(s))) == Moved(Write(d, NoteEntry, Some(s), Empty), Some(Proc(t.id, t, SaveApproval)))
    ensures TickLocal(cfg, d, Proc(t.id, t, SaveApproval)) == Moved(d.(saved := t), None)
  {
  }

  lemma {:induction false} PlanTicks(cfg: Config, d: Durable, t: Ticket, sub: Submission)
    ensures TickLocal(cfg, d, Proc(t.id, t, Ingested(sub))) == TickIngested(cfg, d, Proc(t.id, t, Ingested(sub)), sub)
    ensures TickLocal(cfg, d, Proc(t.id, t, CheckNote)) == Moved(Write(d, NoteEntry, None, Empty), Some(Proc(t.id, t, Moving(IsPlanned))))
  {
    hide TickIngested;
  }

  lemma {:induction false} CloseTicks(cfg: Config, d: Durable, t: Ticket)
    ensures TickLocal(cfg, d, Proc(t.id, t, SpawnNote)) == Moved(Write(d, NoteEntry, None, Empty), Some(Proc(t.id, t, SopNote)))
    ensures TickLocal(cfg, d, Proc(t.id, t, SopNote)) == Moved(Write(d, NoteEntry, None, Empty), Some(Proc(t.id, t, SaveSop)))
    ensures TickLocal(cfg, d, Proc(t.id, t, SaveSop)) == Moved(d.(saved := t), Some(Proc(t.id, t, Moving(FinalState(t)))))
  {
  }

  /** The agent's next number: one more than the last, beginning at 1. */
  function NextId(agent: string, sequence: map<string, nat>): (id: TicketId)
  {
    TicketId(agent, if agent in sequence then sequence[agent] + 1 else 1)
  }

  predicate IsClosed(t: Ticket) { t.state == IsDone || t.state == IsNeedsReview }

  predicate IsWaiting(t: Ticket) { t.state == IsPlanned && HasPendingApproval(t) }

  /** The saved states `resume` goes on from; a planned ticket must have every request decided. */
  predicate GoesOn(t: Ticket) {
    || t.state in {IsApproved, IsRunning, IsAnalysing}
    || (t.state == IsPlanned && forall i :: 0 <= i < |t.approvals| ==> t.approvals[i].approved.Some?)
  }

  /** The machine's `resume` starts a process on exactly those states, for the ticket as saved. */
  lemma {:induction false} ResumesIff(w: World, id: TicketId)
    requires w.proc.None? && id in w.tickets
    ensures StartResume(w, id).proc.Some? <==> GoesOn(w.tickets[id].saved)
    ensures GoesOn(w.tickets[id].saved) ==>
      var p := StartResume(w, id).proc.value;
      p.id == id && p.mem == w.tickets[id].saved
    ensures StartResume(w, id) == w.(proc := StartResume(w, id).proc)
  {
    hide Completed, OpenIntent;
  }

  lemma {:induction false} ResumeBegins(cfg: Config, es: seq<Event>, id: TicketId)
    requires After(cfg, es).proc.None?
    ensures var w, w' := After(cfg, es), After(cfg, es + [Resume(id)]);
      && w'.tickets == w.tickets && w'.sequence == w.sequence && w'.index == w.index
      && w'.proc == if id !in w.tickets || ResumePoint(w.tickets[id]).None? then None
                    else Some(Proc(id, w.tickets[id].saved, ResumePoint(w.tickets[id]).value))
  {
    Snoc(cfg, es, Resume(id));
    hide After, ResumePoint;
  }

  /** How `run` leaves a ticket when no power cut hits it: closed, waiting for a person, or stopped at PLAN. */
  ghost predicate RunEnds(cfg: Config, sub: Submission, t: Ticket) {
    if !sub.plan.Valid() then t.state == IsOpen
    else if !Passes(cfg, sub) then t.state == IsFailed
    else if sub.plan.jobId != sub.jobId then t.state == IsOpen
    else if HasDestroyer(cfg, sub) then IsWaiting(t) && AsksFor(cfg, sub, t.approvals)
    else IsClosed(t)
  }

  /** The same requests, every one decided; those decided before keep their decision. */
  predicate AllDecided(asked: seq<Approval>, decided: seq<Approval>) {
    && |decided| == |asked|
    && forall i :: 0 <= i < |asked| ==>
         decided[i] == if asked[i].approved.Some? then asked[i] else Approval(asked[i].stepId, Some(true))
  }

  lemma {:induction false} RequestsPend(steps: seq<Step>)
    requires exists i :: 0 <= i < |steps| && steps[i].risk == Destructive
    ensures exists i :: 0 <= i < |Requests(steps)| && Requests(steps)[i].approved.None?
  {
    if steps[0].risk == Destructive {
      assert Requests(steps)[0].approved.None?;
    } else {
      var i :| 0 <= i < |steps| && steps[i].risk == Destructive;
      assert steps[1..][i - 1] == steps[i];
      RequestsPend(steps[1..]);
      assert Requests(steps) == Requests(steps[1..]);
    }
  }

  class Kernel {
    const cfg: Config
    const executor: nat -> Observation
    const analyst: nat -> Option<Rca>
    var tickets: map<TicketId, Durable>
    var sequence: map<string, nat>
    var index: map<Fingerprint, BugEntry>
    var calls: nat
    const power: nat -> bool
    var effects: nat
    ghost var trace: seq<Event>

    constructor (cfg: Config, executor: nat -> Observation, analyst: nat -> Option<Rca>, power: nat -> bool)
      ensures Idle() && trace == []
    {
      this.cfg, this.executor, this.analyst, this.power := cfg, executor, analyst, power;
      tickets, sequence, index := map[], map[], map[];
      calls, effects, trace := 0, 0, [];
    }

    /** The files are those of the machine after the trace. */
    ghost predicate OnDisk()
      reads this
    {
      var w := After(cfg, trace);
      w.tickets == tickets && w.sequence == sequence && w.index == index
    }

    /** No call is in progress. */
    ghost predicate Idle()
      reads this
    {
      OnDisk() && After(cfg, trace).proc.None?
    }

    /** A call is in progress and stands at this point. */
    ghost predicate Working(p: Proc)
      reads this
    {
      OnDisk() && After(cfg, trace).proc == Some(p)
    }

    /** No power cut lies ahead. */
    ghost predicate Powered()
      reads `effects
    {
      forall n :: n >= effects ==> power(n)
    }

    // ---- single effects -----------------------------------------------------------------------

    method Survives(ghost p: Proc) returns (alive: bool)
      requires Working(p)
      modifies `effects, `trace
      ensures alive ==> trace == old(trace) && Working(p)
      ensures !alive ==> trace == old(trace) + [Crash] && Idle()
      ensures old(Powered()) ==> alive && Powered()
    {
      alive := power(effects);
      effects := effects + 1;
      if !alive {
        Snoc(cfg, trace, Crash);
        trace := trace + [Crash];
      }
    }

    /** One journal entry of the ticket in work. */
    method AppendEntry(id: TicketId, kind: Kind, s: Option<StepId>, payload: Payload, ghost p: Proc) returns (alive: bool)
      requires Working(p) && p.id == id && id in tickets && IsLocal(p.pc)
      requires TickLocal(cfg, tickets[id], p).d == Write(tickets[id], kind, s, payload) && p.pc != Saving(IsPlanned)
      modifies `effects, `trace, `tickets
      ensures !alive ==> Idle() && tickets == old(tickets) && trace == old(trace) + [Crash]
      ensures alive ==> OnDisk() && After(cfg, trace).proc == TickLocal(cfg, old(tickets[id]), p).proc
      ensures alive ==> tickets == old(tickets)[id := Write(old(tickets[id]), kind, s, payload)] && trace == old(trace) + [Tick]
      ensures old(Powered()) ==> alive && Powered()
    {
      hide Powered;
      alive := Survives(p);
      if alive {
        Snoc(cfg, trace, Tick);
        tickets := tickets[id := tickets[id].(journal := Append(tickets[id].journal, kind, s, payload))];
        trace := trace + [Tick];
      }
    }

    /** `store.save` of the ticket in work. */
    method SaveTicket(t: Ticket, ghost p: Proc) returns (alive: bool)
      requires Working(p) && p.id == t.id && t.id in tickets && IsLocal(p.pc)
      requires TickLocal(cfg, tickets[t.id], p).d == tickets[t.id].(saved := t)
      modifies `effects, `trace, `tickets
      ensures !alive ==> Idle() && tickets == old(tickets) && trace == old(trace) + [Crash]
      ensures alive ==> OnDisk() && After(cfg, trace).proc == TickLocal(cfg, old(tickets[t.id]), p).proc
      ensures alive ==> tickets == old(tickets)[t.id := old(tickets[t.id]).(saved := t)] && trace == old(trace) + [Tick]
      ensures old(Powered()) ==> alive && Powered()
    {
      hide Powered;
      alive := Survives(p);
      if alive {
        Snoc(cfg, trace, Tick);
        tickets := tickets[t.id := tickets[t.id].(saved := t)];
        trace := trace + [Tick];
      }
    }

    /** `_transition`: the new state in memory, then the journal, then the store. */
    method Transition(t: Ticket, target: TicketState, ghost p: Proc) returns (r: Ticket, alive: bool)
      requires Working(p) && p == Proc(t.id, t, Moving(target)) && t.id in tickets && CanTransition(t.state, target)
      modifies `effects, `trace, `tickets
      ensures r == t.(state := target) && old(trace) <= trace
      ensures !alive ==> Idle()
      ensures alive ==> OnDisk() && t.id in tickets && old(t.id in tickets)
      ensures alive ==> var d := Write(old(tickets[t.id]), StateEntry, None, Empty);
        tickets == old(tickets)[t.id := d.(saved := r)]
        && After(cfg, trace).proc == TickSaving(d, Proc(t.id, r, Saving(target)), target).proc
      ensures old(Powered()) ==> alive && Powered()
    {
      hide Powered, After;
      r := t.(state := target);
      alive := AppendEntry(t.id, StateEntry, None, Empty, p);
      if !alive { return; }
      ghost var q := Proc(t.id, r, Saving(target));
      alive := SaveTicket(r, q);
    }

    // ---- ACT ------------------------------------------------------------------------------------

    /** A turn of the loop that writes nothing. */
    ghost method Silent(p: Proc)
      requires Working(p) && p.pc.Acting? && p.id in tickets
      modifies `trace
      ensures OnDisk() && After(cfg, trace).proc == TickActing(cfg, p, p.pc.scan) && old(trace) <= trace
    {
      hide Powered, TickActing;
      Snoc(cfg, trace, Tick);
      assert tickets[p.id := tickets[p.id]] == tickets;
      trace := trace + [Tick];
    }

    /** `_perform`: mark, save, intent, execute, observation, verdict, save. */
    method PerformStep(t0: Ticket, step: Step, r: nat, scan: Scan) returns (t: Ticket, alive: bool, failed: bool)
      requires t0.plan.Some? && scan.i < |t0.plan.value.steps| && step == t0.plan.value.steps[scan.i]
      requires r == Locate(t0.work.steps, step.id) < |t0.work.steps| && t0.id in tickets
      requires Working(Proc(t0.id, t0.(work := MarkRunning(t0.work, r)), SaveRunning(scan)))
      modifies `effects, `trace, `tickets, `calls
      ensures t.id == t0.id && t.plan == t0.plan && t.state == t0.state && (alive ==> t.id in tickets) && old(trace) <= trace
      ensures !alive ==> Idle()
      ensures alive ==> Working(Proc(t.id, t, if failed then Moving(IsAnalysing) else Acting(NextStep(scan))))
      ensures old(Powered()) ==> alive && Powered()
    {
      hide Powered, After, TickLocal, Locate, NewVotes, NewExports, MergeFindings;
      t := t0.(work := MarkRunning(t0.work, r));
      LocateKept(t0.work.steps, t.work.steps, step.id);
      hide Powered, MarkRunning;
      failed := false;
      alive := IntendStep(t, step, scan);
      if !alive { return; }
      var o := executor(calls);
      calls := calls + 1;
      Executed(t, step, scan, o);
      t, alive, failed := RecordStep(t, step, r, scan, o);
    }

    /** The observation is journalled, judged and saved with its record. */
    method RecordStep(t0: Ticket, step: Step, r: nat, scan: Scan, o: Observation) returns (t: Ticket, alive: bool, failed: bool)
      requires t0.id in tickets && Working(Proc(t0.id, t0, WriteObservation(scan, o)))
      requires var p := Proc(t0.id, t0, Acting(scan));
        OnStep(p, scan) && step == StepAt(p, scan) && r == RecordAt(p, scan)
      modifies `effects, `trace, `tickets
      ensures t.id == t0.id && t.plan == t0.plan && t.state == t0.state && t.id in tickets && old(trace) <= trace
      ensures !alive ==> Idle()
      ensures alive ==> Working(Proc(t.id, t, if failed then Moving(IsAnalysing) else Acting(NextStep(scan))))
      ensures old(Powered()) ==> alive && Powered()
    {
      hide Powered, After, TickLocal, Locate, NewVotes, NewExports, MergeFindings, Append;
      failed, t := false, t0;
      PerformTicks(cfg, tickets[t.id], t, scan, o);
      alive := AppendEntry(t.id, ObservationEntry, Some(step.id), Seen(o), Proc(t.id, t, WriteObservation(scan, o)));
      if !alive { return; }
      t := t.(work := Finish(cfg.verify, step, t.work, r, o));
      LocateKept(t0.work.steps, t.work.steps, step.id);
      hide Powered, Finish;
      PerformTicks(cfg, tickets[t.id], t, scan, o);
      alive := SaveTicket(t, Proc(t.id, t, SaveStep(scan)));
      failed := t.work.steps[r].status == Failed;
    }

    /** The record marked running is saved and the intent journalled. */
    method IntendStep(t: Ticket, step: Step, scan: Scan) returns (alive: bool)
      requires t.id in tickets && Working(Proc(t.id, t, SaveRunning(scan)))
      requires OnStep(Proc(t.id, t, Acting(scan)), scan) && step == StepAt(Proc(t.id, t, Acting(scan)), scan)
      modifies `effects, `trace, `tickets
      ensures !alive ==> Idle()
      ensures old(trace) <= trace && t.id in tickets
      ensures alive ==> Working(Proc(t.id, t, Execute(scan)))
      ensures old(Powered()) ==> alive && Powered()
    {
      hide Powered, After, TickLocal, Locate, Append;
      PerformTicks(cfg, tickets[t.id], t, scan, Observation("", [], [], []));
      alive := SaveTicket(t, Proc(t.id, t, SaveRunning(scan)));
      if !alive { return; }
      PerformTicks(cfg, tickets[t.id], t, scan, Observation("", [], [], []));
      alive := AppendEntry(t.id, IntentEntry, Some(step.id), if Some(step.id) == scan.interrupted then Redo else Empty,
                           Proc(t.id, t, WriteIntent(scan)));
    }

    ghost method Executed(t: Ticket, step: Step, scan: Scan, o: Observation)
      requires Working(Proc(t.id, t, Execute(scan))) && OnStep(Proc(t.id, t, Execute(scan)), scan)
      modifies `trace
      ensures Working(Proc(t.id, t, WriteObservation(scan, o))) && old(trace) <= trace
    {
      hide Powered, Locate, Links;
      Snoc(cfg, trace, Perform(o));
      trace := trace + [Perform(o)];
    }

    /** `_act`: every step not yet observed, in plan order. */
    method Act(t0: Ticket) returns (t: Ticket, alive: bool)
      requires t0.id in tickets && t0.plan.Some?
      requires Working(Proc(t0.id, t0, Acting(ScanFrom(tickets[t0.id].journal))))
      modifies `effects, `trace, `tickets, `calls
      ensures t.id == t0.id && t.plan == t0.plan && t.state == t0.state && (alive ==> t.id in tickets) && old(trace) <= trace
      ensures !alive ==> Idle()
      ensures alive ==> Working(Proc(t.id, t, Moving(IsAnalysing)))
      ensures old(Powered()) ==> alive && Powered()
    {
      hide Powered, After;
      var completed, interrupted := Completed(tickets[t0.id].journal), OpenIntent(tickets[t0.id].journal);
      t, alive := t0, true;
      var i := 0;
      while i < |t0.plan.value.steps|
        invariant t.id == t0.id && t.id in tickets && t.plan == t0.plan && t.state == t0.state && alive && old(trace) <= trace
        invariant Working(Proc(t.id, t, Acting(Scan(i, completed, interrupted)))) && (old(Powered()) ==> Powered())
      {
        var step, scan := t.plan.value.steps[i], Scan(i, completed, interrupted);
        StandsOnRecord(cfg, trace, Proc(t.id, t, Acting(scan)));
        var r := Locate(t.work.steps, step.id);
        Silent(Proc(t.id, t, Acting(scan)));
        if t.work.steps[r].status == Failed { return; }
        if step.id in completed {
          if t.work.steps[r].status != Done {
            t := t.(work := Finish(cfg.verify, step, t.work, r, completed[step.id]));
          }
          i := i + 1;
          continue;
        }
        if t.work.steps[r].status == Skipped {
          i := i + 1;
          continue;
        }
        var failed;
        t, alive, failed := PerformStep(t, step, r, scan);
        if !alive || failed { return; }
        i := i + 1;
      }
      Silent(Proc(t.id, t, Acting(Scan(i, completed, interrupted))));
    }

    // ---- ANALYSE and CLOSE ----------------------------------------------------------------------

    /** The analysis of the ticket, its result noted in the journal. */
    method AppendAnalysis(t: Ticket) returns (rca: Option<Rca>, alive: bool)
      requires Working(Proc(t.id, t, RcaNote)) && t.id in tickets
      modifies `effects, `trace, `tickets, `calls
      ensures old(trace) <= trace && (!alive ==> Idle())
      ensures alive ==> t.id in tickets
      ensures alive ==> Working(TickRca(cfg, old(tickets[t.id]), Proc(t.id, t, RcaNote), rca).proc.value)
      ensures old(Powered()) ==> alive && Powered()
    {
      hide Powered, Triage, NewFindings, Links, WithRca, Append;
      rca := analyst(calls);
      calls := calls + 1;
      alive := Survives(Proc(t.id, t, RcaNote));
      if alive {
        Snoc(cfg, trace, Analyse(rca));
        tickets := tickets[t.id := Write(tickets[t.id], NoteEntry, None, Empty)];
        trace := trace + [Analyse(rca)];
      }
    }

    /** A finding that already has its ticket: nothing is written. */
    ghost method KeepLink(t: Ticket, sp: Spawn)
      requires Working(Proc(t.id, t, Spawning(sp))) && sp.todo != [] && sp.todo[0].ticketId.Some?
      modifies `trace
      ensures old(trace) <= trace
      ensures Working(Proc(t.id, t, Spawning(sp.(todo := sp.todo[1..], updated := sp.updated + [sp.todo[0]]))))
    {
      Snoc(cfg, trace, Tick);
      trace := trace + [Tick];
    }

    /** `index.record` for a fingerprint that is already tracked. */
    method CountAgain(t: Ticket, fp: Fingerprint, ghost sp: Spawn) returns (alive: bool)
      requires Working(Proc(t.id, t, Spawning(sp))) && sp.todo != [] && sp.todo[0].ticketId.None?
      requires fp == sp.todo[0].fingerprint && fp in index
      modifies `effects, `trace, `index
      ensures old(trace) <= trace && (!alive ==> Idle())
      ensures alive ==> Working(Proc(t.id, t,
        Spawning(sp.(todo := sp.todo[1..], updated := sp.updated + [Linked(sp.todo[0], old(index[fp].ticketId))]))))
      ensures index == if alive then old(index)[fp := old(index[fp]).(seen := old(index[fp].seen) + 1)] else old(index)
      ensures old(Powered()) ==> alive && Powered()
    {
      hide Powered;
      alive := Survives(Proc(t.id, t, Spawning(sp)));
      if alive {
        Snoc(cfg, trace, Tick);
        index := index[fp := index[fp].(seen := index[fp].seen + 1)];
        trace := trace + [Tick];
      }
    }

    /** `next_ticket_id` for a bug ticket. */
    method TakeNumber(t: Ticket, ghost sp: Spawn) returns (child: TicketId, alive: bool)
      requires Working(Proc(t.id, t, Spawning(sp))) && sp.todo != [] && sp.todo[0].ticketId.None? && sp.todo[0].fingerprint !in index
      modifies `effects, `trace, `sequence
      ensures old(trace) <= trace && (!alive ==> Idle())
      ensures alive ==> Working(Proc(t.id, t, SaveChild(sp, child)))
      ensures child == NextId(t.id.agent, old(sequence))
      ensures sequence == if alive then old(sequence)[t.id.agent := child.number] else old(sequence)
      ensures old(Powered()) ==> alive && Powered()
    {
      hide Powered;
      var number := if t.id.agent in sequence then sequence[t.id.agent] + 1 else 1;
      child := TicketId(t.id.agent, number);
      alive := Survives(Proc(t.id, t, Spawning(sp)));
      if alive {
        Snoc(cfg, trace, Tick);
        sequence := sequence[t.id.agent := number];
        trace := trace + [Tick];
      }
    }

    /** `store.save(child)`. */
    method SaveBug(t: Ticket, f: Finding, votes: seq<Vote>, child: TicketId, ghost sp: Spawn) returns (alive: bool)
      requires Working(Proc(t.id, t, SaveChild(sp, child))) && sp.todo != [] && f == sp.todo[0] && votes == sp.votes
      modifies `effects, `trace, `tickets
      ensures old(trace) <= trace && (!alive ==> Idle()) && old(tickets).Keys <= tickets.Keys
      ensures alive ==> Working(Proc(t.id, t, RecordChild(sp, child)))
      ensures alive ==>
        var job := t.jobId + "#bug-" + if |f.fingerprint| <= 8 then f.fingerprint else f.fingerprint[..8];
        tickets == old(tickets)[child := Durable(
          Ticket(child, job, IsOpen, None, [], Work([], votes, [], [f.(ticketId := Some(child))]), Some(t.id)), [])]
      ensures !alive ==> tickets == old(tickets)
      ensures old(Powered()) ==> alive && Powered()
    {
      hide Powered;
      alive := Survives(Proc(t.id, t, SaveChild(sp, child)));
      if alive {
        Snoc(cfg, trace, Tick);
        tickets := tickets[child := Durable(ChildTicket(t, child, f, votes), [])];
        trace := trace + [Tick];
      }
    }

    /** `index.record` of a new fingerprint. */
    method RecordBug(t: Ticket, f: Finding, child: TicketId, ghost sp: Spawn) returns (alive: bool)
      requires Working(Proc(t.id, t, RecordChild(sp, child))) && sp.todo != [] && f == sp.todo[0] && f.fingerprint !in index
      modifies `effects, `trace, `index
      ensures old(trace) <= trace && (!alive ==> Idle())
      ensures alive ==> Working(Proc(t.id, t,
        Spawning(sp.(todo := sp.todo[1..], updated := sp.updated + [Linked(f, child)], spawned := sp.spawned + [child]))))
      ensures index == if alive then old(index)[f.fingerprint := BugEntry(child, t.id, 1)] else old(index)
      ensures old(Powered()) ==> alive && Powered()
    {
      hide Powered;
      alive := Survives(Proc(t.id, t, RecordChild(sp, child)));
      if alive {
        Snoc(cfg, trace, Tick);
        index := index[f.fingerprint := BugEntry(child, t.id, 1)];
        trace := trace + [Tick];
      }
    }

    /** A bug ticket for a new fingerprint: a number, the ticket, the index record. */
    method OpenBug(t: Ticket, f: Finding, votes: seq<Vote>, ghost sp: Spawn) returns (child: TicketId, alive: bool)
      requires Working(Proc(t.id, t, Spawning(sp))) && t.id in tickets && sp.todo != [] && sp.todo[0].ticketId.None?
      requires f == sp.todo[0] && f.fingerprint !in index && votes == sp.votes
      modifies `effects, `trace, `tickets, `sequence, `index
      ensures old(trace) <= trace && (!alive ==> Idle()) && (alive ==> t.id in tickets)
      ensures alive ==> Working(Proc(t.id, t,
        Spawning(sp.(todo := sp.todo[1..], updated := sp.updated + [Linked(f, child)], spawned := sp.spawned + [child]))))
      ensures old(Powered()) ==> alive && Powered()
    {
      hide Powered, After;
      child, alive := TakeNumber(t, sp);
      if !alive { return; }
      alive := SaveBug(t, f, votes, child, sp);
      if !alive { return; }
      alive := RecordBug(t, f, child, sp);
    }

    /** `_spawn_bug_tickets`: one child ticket per fingerprint across runs. */
    method SpawnBugTickets(t0: Ticket, todo: seq<Finding>, votes: seq<Vote>) returns (t: Ticket, spawned: seq<TicketId>, alive: bool)
      requires t0.id in tickets && Working(Proc(t0.id, t0, Spawning(Spawn(todo, [], [], votes))))
      modifies `effects, `trace, `tickets, `sequence, `index
      ensures old(trace) <= trace && (!alive ==> Idle()) && (alive ==> t0.id in tickets)
      ensures t.id == t0.id && t.state == t0.state
      ensures alive ==> Working(Proc(t.id, t, if spawned == [] then SopNote else SpawnNote))
      ensures old(Powered()) ==> alive && Powered()
    {
      hide Powered, After;
      var updated: seq<Finding> := [];
      t, spawned, alive := t0, [], true;
      for i := 0 to |todo|
        invariant t0.id in tickets && alive && old(trace) <= trace && (old(Powered()) ==> Powered())
        invariant Working(Proc(t0.id, t0, Spawning(Spawn(todo[i..], updated, spawned, votes))))
      {
        var f := todo[i];
        ghost var sp := Spawn(todo[i..], updated, spawned, votes);
        assert sp.todo[0] == f && sp.todo[1..] == todo[i + 1..];
        if f.ticketId.Some? {
          KeepLink(t0, sp);
          updated := updated + [f];
        } else if f.fingerprint in index {
          var known := index[f.fingerprint].ticketId;
          alive := CountAgain(t0, f.fingerprint, sp);
          if !alive { return; }
          updated := updated + [Linked(f, known)];
        } else {
          var child;
          child, alive := OpenBug(t0, f, votes, sp);
          if !alive { return; }
          spawned := spawned + [child];
          updated := updated + [Linked(f, child)];
        }
      }
      t := t0.(work := t0.work.(findings := updated));
      assert todo[|todo|..] == [];
      EndSpawn(t0, updated, spawned, votes);
    }

    ghost method EndSpawn(t: Ticket, updated: seq<Finding>, spawned: seq<TicketId>, votes: seq<Vote>)
      requires Working(Proc(t.id, t, Spawning(Spawn([], updated, spawned, votes))))
      modifies `trace
      ensures old(trace) <= trace
      ensures Working(Proc(t.id, t.(work := t.work.(findings := updated)), if spawned == [] then SopNote else SpawnNote))
    {
      Snoc(cfg, trace, Tick);
      trace := trace + [Tick];
    }

    /** SOP and CLOSE, behind the bug tickets. */
    method CloseTicket(t0: Ticket, spawned: seq<TicketId>) returns (alive: bool)
      requires t0.id in tickets && t0.state == IsAnalysing
      requires Working(Proc(t0.id, t0, if spawned == [] then SopNote else SpawnNote))
      modifies `effects, `trace, `tickets
      ensures Idle() && old(trace) <= trace
      ensures old(Powered()) ==> alive && Powered()
      ensures alive ==> t0.id in tickets && IsClosed(tickets[t0.id].saved)
    {
      hide Powered, After;
      alive := WriteSop(t0, spawned);
      if !alive { return; }
      hide Powered, HasFailedStep;
      var t;
      t, alive := Transition(t0, FinalState(t0), Proc(t0.id, t0, Moving(FinalState(t0))));
    }

    /** The notes about bug tickets and the SOP, then the save before the last transition. */
    method WriteSop(t: Ticket, spawned: seq<TicketId>) returns (alive: bool)
      requires t.id in tickets && Working(Proc(t.id, t, if spawned == [] then SopNote else SpawnNote))
      modifies `effects, `trace, `tickets
      ensures !alive ==> Idle()
      ensures old(trace) <= trace && t.id in tickets
      ensures alive ==> Working(Proc(t.id, t, Moving(FinalState(t))))
      ensures old(Powered()) ==> alive && Powered()
    {
      hide Powered, After, TickLocal, Append, FinalState;
      alive := NoteSpawned(t, spawned);
      if !alive { return; }
      CloseTicks(cfg, tickets[t.id], t);
      alive := AppendEntry(t.id, NoteEntry, None, Empty, Proc(t.id, t, SopNote));
      if !alive { return; }
      CloseTicks(cfg, tickets[t.id], t);
      alive := SaveTicket(t, Proc(t.id, t, SaveSop));
    }

    /** The note of the bug tickets, where some were opened. */
    method NoteSpawned(t: Ticket, spawned: seq<TicketId>) returns (alive: bool)
      requires t.id in tickets && Working(Proc(t.id, t, if spawned == [] then SopNote else SpawnNote))
      modifies `effects, `trace, `tickets
      ensures !alive ==> Idle()
      ensures old(trace) <= trace && t.id in tickets
      ensures alive ==> Working(Proc(t.id, t, SopNote))
      ensures old(Powered()) ==> alive && Powered()
    {
      hide Powered, After, TickLocal, Append, FinalState;
      alive := true;
      if spawned != [] {
        CloseTicks(cfg, tickets[t.id], t);
        alive := AppendEntry(t.id, NoteEntry, None, Empty, Proc(t.id, t, SpawnNote));
      }
    }

    /** `_analyse_and_close`: COLLECT, RCA, bug tickets, SOP, CLOSE. */
    method AnalyseAndClose(t0: Ticket) returns (alive: bool)
      requires t0.id in tickets && t0.state == IsAnalysing && Working(Proc(t0.id, t0, CollectNote))
      modifies `effects, `trace, `tickets, `sequence, `index, `calls
      ensures Idle() && old(trace) <= trace
      ensures old(Powered()) ==> alive && Powered()
      ensures alive ==> t0.id in tickets && IsClosed(tickets[t0.id].saved)
    {
      hide Powered, After, Triage, NewFindings;
      alive := AppendEntry(t0.id, NoteEntry, None, Empty, Proc(t0.id, t0, CollectNote));
      if !alive { return; }
      var rca;
      rca, alive := AppendAnalysis(t0);
      if !alive { return; }
      var t := t0.(work := WithRca(t0.work, rca));
      var spawned;
      t, spawned, alive := SpawnBugTickets(t, Triage(cfg.route, t.work.findings), if rca.Some? then rca.value.votes else []);
      if !alive { return; }
      alive := CloseTicket(t, spawned);
    }

    /** `_act_and_close`. */
    method ActAndClose(t0: Ticket) returns (alive: bool)
      requires t0.id in tickets && t0.plan.Some?
      requires (t0.state == IsApproved && Working(Proc(t0.id, t0, Moving(IsRunning))))
            || (t0.state == IsRunning && Working(Proc(t0.id, t0, Acting(ScanFrom(tickets[t0.id].journal)))))
      modifies `effects, `trace, `tickets, `sequence, `index, `calls
      ensures Idle() && old(trace) <= trace
      ensures old(Powered()) ==> alive && Powered()
      ensures alive ==> t0.id in tickets && IsClosed(tickets[t0.id].saved)
    {
      hide Powered, After;
      var t;
      t, alive := t0, true;
      if t.state == IsApproved {
        t, alive := Transition(t, IsRunning, Proc(t.id, t, Moving(IsRunning)));
        if !alive { return; }
      }
      t, alive := Act(t);
      if !alive { return; }
      t, alive := Transition(t, IsAnalysing, Proc(t.id, t, Moving(IsAnalysing)));
      if !alive { return; }
      alive := AnalyseAndClose(t);
    }

    /** From PLANNED with nothing left to approve. */
    method ApproveAndGo(t0: Ticket) returns (alive: bool)
      requires t0.id in tickets && t0.plan.Some? && t0.state == IsPlanned && Working(Proc(t0.id, t0, Moving(IsApproved)))
      modifies `effects, `trace, `tickets, `sequence, `index, `calls
      ensures Idle() && old(trace) <= trace
      ensures old(Powered()) ==> alive && Powered()
      ensures alive ==> t0.id in tickets && IsClosed(tickets[t0.id].saved)
    {
      hide Powered, After;
      var t;
      t, alive := Transition(t0, IsApproved, Proc(t0.id, t0, Moving(IsApproved)));
      if !alive { return; }
      alive := ActAndClose(t);
    }

    // ---- the public calls ---------------------------------------------------------------------------

    method CreateTicket(sub: Submission) returns (id: TicketId, alive: bool)
      requires Idle()
      modifies `effects, `trace, `tickets, `sequence
      ensures old(trace) + [Submit(sub)] <= trace && (!alive ==> Idle())
      ensures alive ==> id in tickets && Working(Proc(id, NewTicket(id, sub.jobId), Ingested(sub)))
      ensures alive ==> tickets[id].saved == NewTicket(id, sub.jobId)
      ensures id == NextId(sub.agent, old(sequence)) && sequence == old(sequence)[sub.agent := id.number]
      ensures old(Powered()) ==> alive && Powered()
    {
      hide Powered;
      var number := if sub.agent in sequence then sequence[sub.agent] + 1 else 1;
      id := TicketId(sub.agent, number);
      Snoc(cfg, trace, Submit(sub));
      sequence := sequence[sub.agent := number];
      trace := trace + [Submit(sub)];
      hide After, NewTicket;
      alive := SaveNewTicket(NewTicket(id, sub.jobId), sub);
    }

    method SaveNewTicket(t: Ticket, sub: Submission) returns (alive: bool)
      requires Working(Proc(t.id, t, SaveNew(sub)))
      modifies `effects, `trace, `tickets
      ensures old(trace) <= trace && (!alive ==> Idle())
      ensures alive ==> t.id in tickets && Working(Proc(t.id, t, Ingested(sub))) && tickets[t.id].saved == t
      ensures old(Powered()) ==> alive && Powered()
    {
      hide Powered;
      alive := Survives(Proc(t.id, t, SaveNew(sub)));
      if alive {
        Snoc(cfg, trace, Tick);
        tickets := tickets[t.id := Durable(t, [])];
        trace := trace + [Tick];
      }
    }

    /** The note and the save of the approval requests. */
    method SaveRequests(t: Ticket) returns (alive: bool)
      requires t.id in tickets && Working(Proc(t.id, t, RequestNote))
      modifies `effects, `trace, `tickets
      ensures Idle() && old(trace) <= trace
      ensures old(Powered()) ==> alive && Powered()
      ensures alive ==> t.id in tickets && tickets[t.id].saved == t
    {
      hide Powered, After, Append;
      alive := AppendEntry(t.id, NoteEntry, None, Empty, Proc(t.id, t, RequestNote));
      if !alive { return; }
      alive := SaveTicket(t, Proc(t.id, t, SaveRequest));
    }

    /** From an attached plan: PLANNED, then the approval requests or ACT. */
    method PlanAndGo(t0: Ticket) returns (alive: bool)
      requires t0.id in tickets && t0.state == IsOpen && t0.plan.Some? && Working(Proc(t0.id, t0, Moving(IsPlanned)))
      modifies `effects, `trace, `tickets, `sequence, `index, `calls
      ensures Idle() && old(trace) <= trace
      ensures old(Powered()) ==> alive && Powered()
      ensures alive ==>
        t0.id in tickets && if t0.plan.value.IsDestructive() then IsWaiting(tickets[t0.id].saved) else IsClosed(tickets[t0.id].saved)
      ensures alive && t0.plan.value.IsDestructive() ==> tickets[t0.id].saved.approvals == Requests(t0.plan.value.steps)
    {
      hide Powered, After, Requests;
      var t;
      t, alive := Transition(t0, IsPlanned, Proc(t0.id, t0, Moving(IsPlanned)));
      if !alive { return; }
      if t.plan.value.IsDestructive() {
        RequestsPend(t.plan.value.steps);
        t := t.(approvals := Requests(t.plan.value.steps));
        alive := SaveRequests(t);
        return;
      }
      alive := ApproveAndGo(t);
    }

    /** The gate refused a step: a note, then FAILED. */
    method RefusePlan(t0: Ticket, s: StepId) returns (alive: bool)
      requires t0.id in tickets && t0.state == IsOpen && Working(Proc(t0.id, t0, GateNote(s)))
      modifies `effects, `trace, `tickets
      ensures Idle() && old(trace) <= trace
      ensures old(Powered()) ==> alive && Powered()
      ensures alive ==> t0.id in tickets && tickets[t0.id].saved.state == IsFailed
    {
      hide Powered, After, Append;
      alive := AppendEntry(t0.id, NoteEntry, Some(s), Empty, Proc(t0.id, t0, GateNote(s)));
      if !alive { return; }
      var t;
      t, alive := Transition(t0, IsFailed, Proc(t0.id, t0, Moving(IsFailed)));
    }

    /** PLAN: the skill gate and the cross-check, then on as the plan demands. */
    method PlanTicket(t0: Ticket, sub: Submission) returns (alive: bool)
      requires t0.id in tickets && t0 == NewTicket(t0.id, sub.jobId) && tickets[t0.id].saved == t0 && Working(Proc(t0.id, t0, Ingested(sub)))
      modifies `effects, `trace, `tickets, `sequence, `index, `calls
      ensures Idle() && old(trace) <= trace
      ensures old(Powered()) ==> alive && Powered()
      ensures alive ==> t0.id in tickets && RunEnds(cfg, sub, tickets[t0.id].saved)
    {
      hide Powered, After, FreshRecords, Expand, Append, TickLocal;
      var id, t := t0.id, t0;
      PlanTicks(cfg, tickets[id], t, sub);
      hide TickLocal;
      if sub.plan.Valid() { GateDecides(cfg, sub); }
      hide Passes, HasDestroyer;
      alive := AppendEntry(id, StateEntry, None, Empty, Proc(id, t, Ingested(sub)));
      if !alive || !sub.plan.Valid() { return; }
      var expansion := GateResult(cfg, sub);
      if expansion.Refused? {
        alive := RefusePlan(t, expansion.stepId);
        return;
      }
      if expansion.plan.jobId != t.jobId { return; }
      RequestsAsk(cfg, sub, expansion.plan);
      hide AsksFor, Requests;
      t := WithPlan(t, expansion.plan, sub.check);
      alive := NoteCheck(t, sub);
      if !alive { return; }
      alive := PlanAndGo(t);
    }

    /** The note of the plan cross-check, where one ran. */
    method NoteCheck(t: Ticket, sub: Submission) returns (alive: bool)
      requires t.id in tickets && Working(Proc(t.id, t, if sub.check.Some? then CheckNote else Moving(IsPlanned)))
      modifies `effects, `trace, `tickets
      ensures !alive ==> Idle()
      ensures old(trace) <= trace && t.id in tickets
      ensures alive ==> Working(Proc(t.id, t, Moving(IsPlanned)))
      ensures old(Powered()) ==> alive && Powered()
    {
      hide Powered, After, TickLocal, Append;
      alive := true;
      if sub.check.Some? {
        PlanTicks(cfg, tickets[t.id], t, sub);
        alive := AppendEntry(t.id, NoteEntry, None, Empty, Proc(t.id, t, CheckNote));
      }
    }

    /** `run`: INGEST, TICKET, PLAN, then act unless a destructive step needs approval. */
    method Run(sub: Submission) returns (id: TicketId, alive: bool)
      requires Idle()
      modifies `effects, `trace, `tickets, `sequence, `index, `calls
      ensures Idle() && old(trace) + [Submit(sub)] <= trace
      ensures old(Powered()) ==> alive && Powered()
      ensures alive ==> id in tickets && RunEnds(cfg, sub, tickets[id].saved)
      ensures id == NextId(sub.agent, old(sequence))
    {
      hide Powered, After, RunEnds;
      id, alive := CreateTicket(sub);
      if !alive { return; }
      alive := PlanTicket(NewTicket(id, sub.jobId), sub);
    }

    /** `approve`: one human decision; false where the source raises KeyError. */
    method ApproveStep(id: TicketId, s: StepId) returns (ok: bool, alive: bool)
      requires Idle()
      modifies `effects, `trace, `tickets
      ensures Idle() && old(trace) + [Approve(id, s)] <= trace
      ensures ok <==> old(id in tickets && FirstPending(tickets[id].saved.approvals, s) < |tickets[id].saved.approvals|)
      ensures !ok ==> tickets == old(tickets)
      ensures old(Powered()) ==> alive && Powered()
      ensures ok && alive ==> tickets.Keys == old(tickets).Keys && forall k :: k in tickets && k != id ==> tickets[k] == old(tickets)[k]
      ensures ok && alive ==>
        var t := old(tickets[id].saved);
        tickets[id].saved == t.(approvals := t.approvals[FirstPending(t.approvals, s) := Approval(s, Some(true))])
    {
      Snoc(cfg, trace, Approve(id, s));
      trace := trace + [Approve(id, s)];
      hide Powered, After, TickLocal, Append;
      alive := true;
      if id !in tickets { return false, true; }
      var t := tickets[id].saved;
      var i := FirstPending(t.approvals, s);
      if i == |t.approvals| { return false, true; }
      ok := true;
      SavedUnderItsId(cfg, trace, id);
      t := t.(approvals := t.approvals[i := Approval(s, Some(true))]);
      alive := RecordApproval(t, s);
    }

    /** The note and the save of an approval. */
    method RecordApproval(t: Ticket, s: StepId) returns (alive: bool)
      requires t.id in tickets && Working(Proc(t.id, t, ApproveNote(s)))
      modifies `effects, `trace, `tickets
      ensures Idle() && old(trace) <= trace
      ensures old(Powered()) ==> alive && Powered()
      ensures alive ==> t.id in tickets && tickets[t.id].saved == t && tickets.Keys == old(tickets).Keys
      ensures alive ==> forall k :: k in tickets && k != t.id ==> tickets[k] == old(tickets)[k]
    {
      hide Powered, After, TickLocal, Append;
      ApproveTicks(cfg, tickets[t.id], t, s);
      alive := AppendEntry(t.id, NoteEntry, Some(s), Empty, Proc(t.id, t, ApproveNote(s)));
      if !alive { return; }
      ApproveTicks(cfg, tickets[t.id], t, s);
      alive := SaveTicket(t, Proc(t.id, t, SaveApproval));
    }

    /** `resume`: a ticket that goes on ends closed; any other call writes nothing. */
    method ResumeTicket(id: TicketId) returns (alive: bool)
      requires Idle()
      modifies `effects, `trace, `tickets, `sequence, `index, `calls
      ensures Idle() && old(trace) + [Resume(id)] <= trace
      ensures old(Powered()) ==> alive && Powered()
      ensures alive && old(id in tickets) ==>
        id in tickets && (IsClosed(tickets[id].saved) <==> old(GoesOn(tickets[id].saved) || IsClosed(tickets[id].saved)))
      ensures !old(id in tickets && GoesOn(tickets[id].saved)) ==>
        alive && tickets == old(tickets) && index == old(index) && sequence == old(sequence)
    {
      ResumeBegins(cfg, trace, id);
      hide Powered, After, Completed, OpenIntent;
      trace := trace + [Resume(id)];
      alive := true;
      if id !in tickets { return; }
      SavedUnderItsId(cfg, trace, id);
      var t := tickets[id].saved;
      if t.state == IsDone || t.state == IsFailed { return; }
      if t.state == IsPlanned {
        if HasPendingApproval(t) { return; }
        PlannedHasPlan(cfg, trace, id);
        alive := ApproveAndGo(t);
      } else if t.state == IsApproved || t.state == IsRunning {
        PlannedHasPlan(cfg, trace, id);
        alive := ActAndClose(t);
      } else if t.state == IsAnalysing {
        alive := AnalyseAndClose(t);
      }
    }

    // ---- calls in sequence ----------------------------------------------------------------------------

    /** A person approves what is still undecided, request by request. */
    method ApproveAll(id: TicketId)
      requires Idle() && Powered() && id in tickets
      modifies `effects, `trace, `tickets
      ensures Idle() && Powered() && tickets.Keys == old(tickets).Keys
      ensures var t := old(tickets[id].saved);
        && tickets[id].saved == t.(approvals := tickets[id].saved.approvals)
        && AllDecided(t.approvals, tickets[id].saved.approvals)
    {
      hide Powered, Idle;
      var asked := tickets[id].saved.approvals;
      for i := 0 to |asked|
        invariant Idle() && Powered() && tickets.Keys == old(tickets).Keys
        invariant tickets[id].saved == old(tickets[id].saved).(approvals := tickets[id].saved.approvals)
        invariant |tickets[id].saved.approvals| == |asked| && tickets[id].saved.approvals[i..] == asked[i..]
        invariant AllDecided(asked[..i], tickets[id].saved.approvals[..i])
      {
        ghost var now := tickets[id].saved.approvals;
        assert now[i] == now[i..][0] == asked[i..][0];
        if asked[i].approved.None? {
          assert FirstPending(now, asked[i].stepId) == i by {
            forall k | 0 <= k < i ensures now[k] != Approval(asked[i].stepId, None) { assert now[..i][k].approved.Some?; }
          }
          var ok, alive := ApproveStep(id, asked[i].stepId);
          assert tickets[id].saved.approvals[..i] == now[..i];
        }
        assert tickets[id].saved.approvals[i + 1..] == asked[i + 1..] by {
          assert tickets[id].saved.approvals[i + 1..] == now[i..][1..];
        }
      }
      assert asked[..|asked|] == asked && tickets[id].saved.approvals[..|asked|] == tickets[id].saved.approvals;
    }

    /**
     Whatever happened before: a planned ticket whose requests are all approved and which is then
     resumed ends closed, if no power cut hits it.
     */
    method Release(id: TicketId)
      requires Idle() && Powered() && id in tickets && tickets[id].saved.state == IsPlanned
      modifies `effects, `trace, `tickets, `sequence, `index, `calls
      ensures Idle() && Powered() && id in tickets && IsClosed(tickets[id].saved)
    {
      hide Powered, Idle;
      ApproveAll(id);
      var alive := ResumeTicket(id);
    }

    /** A plan that passes PLAN is acted on and closed once its destructive steps are approved. */
    method RunApproved(sub: Submission) returns (id: TicketId)
      requires Idle() && Powered() && sub.plan.Valid() && Passes(cfg, sub) && sub.plan.jobId == sub.jobId
      modifies `effects, `trace, `tickets, `sequence, `index, `calls
      ensures Idle() && Powered() && id in tickets && IsClosed(tickets[id].saved)
    {
      hide Powered, Idle, Passes, HasDestroyer;
      var alive;
      id, alive := Run(sub);
      if tickets[id].saved.state == IsPlanned { Release(id); }
    }
  }

  lemma {:induction false} LocateKept(a: seq<StepRecord>, c: seq<StepRecord>, s: StepId)
    requires |a| == |c| && forall k :: 0 <= k < |a| ==> c[k].stepId == a[k].stepId
    ensures Locate(c, s) == Locate(a, s)
  {
    var r := Locate(a, s);
    if r < |a| { assert c[r].stepId == s; }
  }
}
