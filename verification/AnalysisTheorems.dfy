/**
 What ANALYSE leaves on a ticket, for every list of events: the exact votes and findings of a
 closed ticket, and exactly when the votes of an analysis are there more than once.
 */
module AnalysisTheorems {
  import opened Options
  import opened Records
  import opened Journal
  import opened Attachments
  import opened Act
  import opened Machine
  import opened TicketInvariant
  import opened PlanRuns
  import opened GuardRuns
  import opened KernelTheorems
  import opened AnalysisRuns

  lemma {:induction false} AlwaysAnalysed(cfg: Config, es: seq<Event>, id: TicketId)
    ensures AnalysisOk(cfg, After(cfg, es), id, ActWork(cfg, es, id), Analyses(cfg, es, id), CloseCuts(cfg, es, id), LastRca(cfg, es))
  {
    hide WorldOk, GuardsOk, AnalysisOk, Next;
    if es == [] {
      NothingYet(cfg, id);
    } else {
      var p, e := es[..|es| - 1], es[|es| - 1];
      var w := After(cfg, p);
      AlwaysAnalysed(cfg, p, id);
      AlwaysGuarded(cfg, p);
      if id !in w.tickets {
        NewStep(cfg, w, e, id, ActWork(cfg, p, id), Analyses(cfg, p, id), CloseCuts(cfg, p, id), LastRca(cfg, p));
      } else if ProcOf(w, id).None? {
        UntouchedStep(cfg, w, e, id, ActWork(cfg, p, id), Analyses(cfg, p, id), CloseCuts(cfg, p, id), LastRca(cfg, p));
      } else {
        WorkedStep(cfg, w, e, id, ActWork(cfg, p, id), Analyses(cfg, p, id), CloseCuts(cfg, p, id), LastRca(cfg, p));
      }
    }
  }

  lemma {:induction false} NothingYet(cfg: Config, id: TicketId)
    ensures AnalysisOk(cfg, INITIAL, id, None, [], 0, None)
  {
  }

  function VotesOf(rca: Option<Rca>): (votes: seq<Vote>) { if rca.Some? then rca.value.votes else [] }

  function AllVotes(rcas: seq<Option<Rca>>): (votes: seq<Vote>)
  {
    if rcas == [] then [] else AllVotes(rcas[..|rcas| - 1]) + VotesOf(rcas[|rcas| - 1])
  }

  lemma {:induction false} AnalysedVotes(cfg: Config, base: Work, rcas: seq<Option<Rca>>, w: Work)
    requires AnalysedBy(cfg, base, rcas, w)
    ensures w.steps == base.steps && w.exports == base.exports && w.votes == base.votes + AllVotes(rcas)
  {
    hide LinkedFrom, Triage, NewFindings;
    if rcas != [] {
      var v: Work :| AnalysedThen(cfg, base, rcas, v, w);
      AnalysedVotes(cfg, base, rcas[..|rcas| - 1], v);
      assert w.votes == v.votes + VotesOf(rcas[|rcas| - 1]);
    }
  }

  /** The work ACT ended with is what the uncrashed loop makes of the submission and the journalled observations. */
  ghost predicate IsUncrashed(cfg: Config, es: seq<Event>, id: TicketId, work: Work)
    requires id in After(cfg, es).tickets
  {
    var t, seen := After(cfg, es).tickets[id].saved, Observations(After(cfg, es).tickets[id].journal);
    && t.plan.Some? && IsSubmitted(cfg, es, id, t.plan.value) && IsWholeFeed(cfg.verify, t.plan.value, seen)
    && work == Uncrashed(cfg.verify, t.plan.value, PlannedWork(SubmissionOf(cfg, es, id).value, t.plan.value), 0, seen)
  }

  lemma {:induction false} ActIsUncrashed(cfg: Config, es: seq<Event>, id: TicketId)
    requires id in After(cfg, es).tickets && IsLate(After(cfg, es).tickets[id].saved)
    ensures ActWork(cfg, es, id).Some? && (!FailureCrash(cfg, es, id) ==> IsUncrashed(cfg, es, id, ActWork(cfg, es, id).value))
  {
    hide After, FailureCrash, ChildCrash, RequestCrash, Observations, FreshRecords, Uncrashed, IsWholeFeed, AnalysedBy, Progress, Analyses, CloseCuts, ActWork, LastRca, SubmissionOf, PlannedFrom;
    AlwaysAnalysed(cfg, es, id);
    LogIsHistory(cfg, es, id, "");
    if !FailureCrash(cfg, es, id) { PlanIsSubmitted(cfg, es, id); }
  }

  /**
   From ANALYSING on, however often the process crashed: the ticket is the work ACT ended with,
   analysed once by each analysis whose save behind the SOP was reached. A closed one was
   analysed once more than crashes fell between that save and the save of the closing transition.
   Without a crash at a failing step's save, ACT's work is that of the uncrashed loop.
   */
  lemma {:induction false} ClosedTicketKeepsWork(cfg: Config, es: seq<Event>, id: TicketId)
    requires id in After(cfg, es).tickets
    requires After(cfg, es).tickets[id].saved.state in {IsAnalysing, IsNeedsReview, IsDone}
    ensures var t, rcas, act := After(cfg, es).tickets[id].saved, Analyses(cfg, es, id), ActWork(cfg, es, id);
      && act.Some? && (!FailureCrash(cfg, es, id) ==> IsUncrashed(cfg, es, id, act.value))
      && AnalysedBy(cfg, act.value, rcas, t.work)
      && t.work.steps == act.value.steps && t.work.exports == act.value.exports && t.work.votes == act.value.votes + AllVotes(rcas)
      && (t.state != IsAnalysing ==> |rcas| == 1 + CloseCuts(cfg, es, id))
  {
    hide After, FailureCrash, IsUncrashed, ActIs, AnalysedBy, Progress, Analyses, CloseCuts, ActWork, LastRca, AllVotes;
    AlwaysAnalysed(cfg, es, id);
    ActIsUncrashed(cfg, es, id);
    AnalysedVotes(cfg, ActWork(cfg, es, id).value, Analyses(cfg, es, id), After(cfg, es).tickets[id].saved.work);
  }

  /** With no crash in that window, one analysis gives a closed ticket its votes and findings. */
  lemma {:induction false} ClosedOnce(cfg: Config, es: seq<Event>, id: TicketId)
    requires id in After(cfg, es).tickets && CloseCuts(cfg, es, id) == 0
    requires After(cfg, es).tickets[id].saved.state in {IsNeedsReview, IsDone}
    ensures var t, rcas, act := After(cfg, es).tickets[id].saved, Analyses(cfg, es, id), ActWork(cfg, es, id);
      && |rcas| == 1 && act.Some? && AnalysedTo(cfg, act.value, rcas[0], t.work)
      && (!FailureCrash(cfg, es, id) ==> IsUncrashed(cfg, es, id, act.value))
  {
    hide After, FailureCrash, IsUncrashed, AnalysedTo, Analyses, CloseCuts, AllVotes, ActWork;
    ClosedTicketKeepsWork(cfg, es, id);
    var t, rcas, work := After(cfg, es).tickets[id].saved, Analyses(cfg, es, id), ActWork(cfg, es, id).value;
    var v: Work :| AnalysedThen(cfg, work, rcas, v, t.work);
    assert rcas[..|rcas| - 1] == [];
    assert AnalysedBy(cfg, work, [], v) && v == work;
  }

  lemma {:induction false} VotesAddUp(rcas: seq<Option<Rca>>)
    requires forall i :: 0 <= i < |rcas| ==> VotesOf(rcas[i]) != []
    ensures |AllVotes(rcas)| >= |rcas|
  {
    if rcas != [] { VotesAddUp(rcas[..|rcas| - 1]); }
  }

  /**
   On a closed ticket the votes of the last analysis stand alone behind those of ACT if and only
   if no crash fell between a save behind the SOP and the save of the closing transition.
   */
  lemma {:induction false} RcaVotesOnceIff(cfg: Config, es: seq<Event>, id: TicketId)
    requires id in After(cfg, es).tickets
    requires After(cfg, es).tickets[id].saved.state in {IsNeedsReview, IsDone}
    requires forall i :: 0 <= i < |Analyses(cfg, es, id)| ==> VotesOf(Analyses(cfg, es, id)[i]) != []
    ensures var t, rcas, act := After(cfg, es).tickets[id].saved, Analyses(cfg, es, id), ActWork(cfg, es, id);
      && act.Some? && rcas != [] && (!FailureCrash(cfg, es, id) ==> IsUncrashed(cfg, es, id, act.value))
      && (t.work.votes == act.value.votes + VotesOf(rcas[|rcas| - 1]) <==> CloseCuts(cfg, es, id) == 0)
  {
    hide After, FailureCrash, IsUncrashed, AnalysedBy, Analyses, CloseCuts, ActWork;
    ClosedTicketKeepsWork(cfg, es, id);
    var rcas := Analyses(cfg, es, id);
    VotesAddUp(rcas[..|rcas| - 1]);
    if |rcas| == 1 { assert rcas[..0] == []; }
  }

  // ---- one finding per fingerprint ------------------------------------------------------------------

  function RcaPrints(rcas: seq<Option<Rca>>): (r: set<Fingerprint>)
  {
    if rcas == [] then {}
    else
      var last := rcas[|rcas| - 1];
      RcaPrints(rcas[..|rcas| - 1]) + if last.Some? then Prints(last.value.findings) else {}
  }

  lemma {:induction false} NewPrints(known: set<Fingerprint>, fs: seq<Finding>)
    ensures Prints(NewFindings(known, fs)) == Prints(fs) - known
  {
    if fs != [] {
      NewPrints(known, fs[1..]);
      assert fs == [fs[0]] + fs[1..];
      PrintsJoin([fs[0]], fs[1..]);
      PrintsJoin([fs[0]], NewFindings(known, fs[1..]));
      assert Prints([fs[0]]) == {fs[0].fingerprint} by { assert fs[0] in [fs[0]]; }
    }
  }

  lemma {:induction false} PrintsJoin(xs: seq<Finding>, ys: seq<Finding>)
    ensures Prints(xs + ys) == Prints(xs) + Prints(ys)
  {
    assert forall f :: f in xs + ys <==> f in xs || f in ys;
  }

  lemma {:induction false} LinkedPrints(fs: seq<Finding>, out: seq<Finding>)
    requires LinkedFrom(fs, out)
    ensures Prints(out) == Prints(fs) && (OnePerPrint(fs) ==> OnePerPrint(out))
  {
    assert forall i :: 0 <= i < |fs| ==> out[i].fingerprint == fs[i].fingerprint;
    forall x | x in out ensures x.fingerprint in Prints(fs) {
      var i :| 0 <= i < |out| && out[i] == x;
      assert fs[i] in fs;
    }
    forall x | x in fs ensures x.fingerprint in Prints(out) {
      var i :| 0 <= i < |fs| && fs[i] == x;
      assert out[i] in out;
    }
  }

  lemma {:induction false} AnalysedPrints(cfg: Config, base: Work, rcas: seq<Option<Rca>>, w: Work)
    requires AnalysedBy(cfg, base, rcas, w)
    ensures Prints(w.findings) == Prints(base.findings) + RcaPrints(rcas) && (rcas != [] ==> OnePerPrint(w.findings))
  {
    hide LinkedFrom, Triage, NewFindings, Prints, OnePerPrint;
    if rcas != [] {
      var v: Work :| AnalysedThen(cfg, base, rcas, v, w);
      AnalysedPrints(cfg, base, rcas[..|rcas| - 1], v);
      var rca := rcas[|rcas| - 1];
      var told := WithRca(v, rca).findings;
      if rca.Some? {
        NewPrints(Prints(v.findings), rca.value.findings);
        PrintsJoin(v.findings, NewFindings(Prints(v.findings), rca.value.findings));
      }
      TriageIsOnePerPrint(cfg.route, told);
      LinkedPrints(Triage(cfg.route, told), w.findings);
    }
  }

  /**
   A closed ticket has one finding per fingerprint, and its fingerprints are exactly those ACT
   ended with and those of the saved analyses: without a crash at a failing step's save, those of
   the journalled observations and of the saved analyses.
   */
  lemma {:induction false} ClosedFindings(cfg: Config, es: seq<Event>, id: TicketId)
    requires id in After(cfg, es).tickets
    requires After(cfg, es).tickets[id].saved.state in {IsNeedsReview, IsDone}
    ensures var d, rcas, act := After(cfg, es).tickets[id], Analyses(cfg, es, id), ActWork(cfg, es, id);
      && act.Some? && OnePerPrint(d.saved.work.findings)
      && Prints(d.saved.work.findings) == Prints(act.value.findings) + RcaPrints(rcas)
      && (!FailureCrash(cfg, es, id) ==> Prints(d.saved.work.findings) == PrintsSeen(Observations(d.journal)) + RcaPrints(rcas))
  {
    hide After, FailureCrash, Prints, PrintsSeen, OnePerPrint, AnalysedBy, Analyses, CloseCuts, ActWork, Uncrashed, PlannedFrom, SubmissionOf, Observations, IsWholeFeed;
    ClosedTicketKeepsWork(cfg, es, id);
    var d, act := After(cfg, es).tickets[id], ActWork(cfg, es, id).value;
    AnalysedPrints(cfg, act, Analyses(cfg, es, id), d.saved.work);
    if !FailureCrash(cfg, es, id) {
      UncrashedPrints(cfg, SubmissionOf(cfg, es, id).value, d.saved.plan.value, Observations(d.journal));
    }
  }

  lemma {:induction false} UncrashedPrints(cfg: Config, sub: Submission, plan: Plan, seen: seq<Observation>)
    requires IsWholeFeed(cfg.verify, plan, seen)
    ensures Prints(Uncrashed(cfg.verify, plan, PlannedWork(sub, plan), 0, seen).findings) == PrintsSeen(seen)
  {
    hide FreshRecords;
    ReplayIsUncrashed(cfg.verify, plan, PlannedWork(sub, plan), seen);
    ReplayPrints(cfg.verify, plan, PlannedWork(sub, plan), seen);
  }
}
