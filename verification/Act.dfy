/**
 ACT on values: what performing or restoring one step does to a ticket's work, the fold of
 that over a list of observations, and the run that no crash disturbs
 (packages/slas-kernel/slas_kernel/kernel.py, `_act`, `_perform`, `_restore_from_journal`).
 */
module Act {
  import opened Options
  import opened Records
  import opened Attachments

  type Verify = (Step, Observation) -> Outcome

  function FreshRecords(plan: Plan): (r: seq<StepRecord>)
    ensures |r| == |plan.steps|
    ensures forall i :: 0 <= i < |r| ==> r[i] == StepRecord(plan.steps[i].id, Pending, None, None)
  {
    seq(|plan.steps|, i requires 0 <= i < |plan.steps| => StepRecord(plan.steps[i].id, Pending, None, None))
  }

  /** Position of a step's record, or the length of the list. */
  function Locate(records: seq<StepRecord>, s: StepId): (r: nat)
    ensures r <= |records|
    ensures r < |records| ==> records[r].stepId == s
    ensures forall k :: 0 <= k < r ==> records[k].stepId != s
  {
    if records == [] then 0
    else if records[0].stepId == s then 0
    else 1 + Locate(records[1..], s)
  }

  function Passed(verify: Verify, step: Step, o: Observation): (b: bool)
  {
    verify(step, o) == Ok
  }

  /** Verdict and status onto the record, then votes, exports and findings onto the ticket. */
  function Finish(verify: Verify, step: Step, w: Work, r: nat, o: Observation): (w': Work)
    requires r < |w.steps|
    ensures |w'.steps| == |w.steps|
  {
    var status := if Passed(verify, step, o) then Done else Failed;
    var record := StepRecord(w.steps[r].stepId, status, Some(o), Some(verify(step, o)));
    Attach(w.(steps := w.steps[r := record]), o)
  }

  function MarkRunning(w: Work, r: nat): (w': Work)
    requires r < |w.steps|
    ensures |w'.steps| == |w.steps|
  {
    w.(steps := w.steps[r := StepRecord(w.steps[r].stepId, Running, None, None)])
  }

  /** The fold of `verify` and `_attach` over observations in plan order. */
  function Replay(verify: Verify, plan: Plan, w: Work, obs: seq<Observation>): (w': Work)
    requires |obs| <= |plan.steps| == |w.steps|
    ensures |w'.steps| == |w.steps|
  {
    if obs == [] then w
    else
      var k := |obs| - 1;
      Finish(verify, plan.steps[k], Replay(verify, plan, w, obs[..k]), k, obs[k])
  }

  /** `_act` when nothing interrupts it: steps in order, stopping behind the first that fails. */
  function Uncrashed(verify: Verify, plan: Plan, w: Work, i: nat, feed: seq<Observation>): (w': Work)
    requires i <= |plan.steps| == |w.steps|
    decreases |plan.steps| - i
  {
    if i == |plan.steps| || i >= |feed| then w
    else
      var next := Finish(verify, plan.steps[i], w, i, feed[i]);
      if Passed(verify, plan.steps[i], feed[i]) then Uncrashed(verify, plan, next, i + 1, feed) else next
  }

  function FinishedRecord(verify: Verify, step: Step, o: Observation): (r: StepRecord)
  {
    StepRecord(step.id, if Passed(verify, step, o) then Done else Failed, Some(o), Some(verify(step, o)))
  }

  /** Re-performing or restoring a step overwrites its record whole. */
  lemma {:induction false} FinishAfterMark(verify: Verify, step: Step, w: Work, r: nat, o: Observation)
    requires r < |w.steps|
    ensures Finish(verify, step, MarkRunning(w, r), r, o) == Finish(verify, step, w, r, o)
  {
    var record := FinishedRecord(verify, step, o).(stepId := w.steps[r].stepId);
    assert MarkRunning(w, r).steps[r := record] == w.steps[r := record];
  }

  lemma {:induction false} MarkTwice(w: Work, r: nat)
    requires r < |w.steps|
    ensures MarkRunning(MarkRunning(w, r), r) == MarkRunning(w, r)
  {
    assert MarkRunning(MarkRunning(w, r), r).steps == MarkRunning(w, r).steps;
  }

  lemma {:induction false} ReplayRecords(verify: Verify, plan: Plan, w: Work, obs: seq<Observation>)
    requires |obs| <= |plan.steps| && w.steps == FreshRecords(plan)
    ensures var s := Replay(verify, plan, w, obs).steps;
      && (forall m :: 0 <= m < |obs| ==> s[m] == FinishedRecord(verify, plan.steps[m], obs[m]))
      && (forall m :: |obs| <= m < |s| ==> s[m] == StepRecord(plan.steps[m].id, Pending, None, None))
  {
    if obs != [] {
      var k := |obs| - 1;
      ReplayRecords(verify, plan, w, obs[..k]);
      var before := Replay(verify, plan, w, obs[..k]);
      assert before.steps[k].stepId == plan.steps[k].id;
      assert Replay(verify, plan, w, obs).steps == before.steps[k := FinishedRecord(verify, plan.steps[k], obs[k])];
      assert forall m :: 0 <= m < k ==> obs[..k][m] == obs[m];
    }
  }

  ghost predicate AllPass(verify: Verify, plan: Plan, obs: seq<Observation>, n: nat)
    requires n <= |obs| <= |plan.steps|
  {
    forall m :: 0 <= m < n ==> Passed(verify, plan.steps[m], obs[m])
  }

  /** The feed of an uncrashed run: it ends behind a failing step or at the end of the plan. */
  ghost predicate IsWholeFeed(verify: Verify, plan: Plan, obs: seq<Observation>) {
    && |obs| <= |plan.steps|
    && (obs != [] ==> AllPass(verify, plan, obs, |obs| - 1))
    && (|obs| < |plan.steps| ==> obs != [] && !Passed(verify, plan.steps[|obs| - 1], obs[|obs| - 1]))
  }

  lemma {:induction false} UncrashedFrom(verify: Verify, plan: Plan, w: Work, i: nat, obs: seq<Observation>)
    requires i <= |obs| <= |plan.steps| == |w.steps|
    requires obs != [] ==> AllPass(verify, plan, obs, |obs| - 1)
    ensures Uncrashed(verify, plan, Replay(verify, plan, w, obs[..i]), i, obs) == Replay(verify, plan, w, obs)
    decreases |obs| - i
  {
    if i == |obs| {
      assert obs[..i] == obs;
    } else {
      assert obs[..i + 1][..i] == obs[..i];
      var next := Replay(verify, plan, w, obs[..i + 1]);
      if Passed(verify, plan.steps[i], obs[i]) {
        UncrashedFrom(verify, plan, w, i + 1, obs);
      } else {
        assert i == |obs| - 1 && obs[..i + 1] == obs;
      }
    }
  }

  /** The fold over a whole feed is what the uncrashed run computes. */
  lemma {:induction false} ReplayIsUncrashed(verify: Verify, plan: Plan, w: Work, obs: seq<Observation>)
    requires IsWholeFeed(verify, plan, obs) && |plan.steps| == |w.steps|
    ensures Replay(verify, plan, w, obs) == Uncrashed(verify, plan, w, 0, obs)
  {
    UncrashedFrom(verify, plan, w, 0, obs);
    assert obs[..0] == [];
  }

  // ---- votes and exports over a whole journal -----------------------------------------------------

  function VotesSeen(obs: seq<Observation>): (r: set<(string, string)>)
  {
    if obs == [] then {} else VotesSeen(obs[..|obs| - 1]) + VoteKeys(obs[|obs| - 1].votes)
  }

  function ExportsSeen(obs: seq<Observation>): (r: set<string>)
  {
    if obs == [] then {} else ExportsSeen(obs[..|obs| - 1]) + ExportPaths(obs[|obs| - 1].exports)
  }

  /** Each vote is new to the ticket or told once: no observation repeats one it is the first to bring. */
  predicate VotesToldOnce(votes: seq<Vote>, obs: seq<Observation>) {
    Once(VoteKey, votes) && forall m :: 0 <= m < |obs| ==> OnceFrom(VoteKey, VoteKeys(votes) + VotesSeen(obs[..m]), obs[m].votes)
  }

  predicate ExportsToldOnce(exports: seq<Export>, obs: seq<Observation>) {
    Once(ExportKey, exports) && forall m :: 0 <= m < |obs| ==> OnceFrom(ExportKey, ExportPaths(exports) + ExportsSeen(obs[..m]), obs[m].exports)
  }

  lemma {:induction false} ToldMore(votes: seq<Vote>, exports: seq<Export>, obs: seq<Observation>)
    requires obs != []
    ensures var k := |obs| - 1;
      && (VotesToldOnce(votes, obs) <==>
            VotesToldOnce(votes, obs[..k]) && OnceFrom(VoteKey, VoteKeys(votes) + VotesSeen(obs[..k]), obs[k].votes))
      && (ExportsToldOnce(exports, obs) <==>
            ExportsToldOnce(exports, obs[..k]) && OnceFrom(ExportKey, ExportPaths(exports) + ExportsSeen(obs[..k]), obs[k].exports))
  {
    hide OnceFrom, VoteKeys, ExportPaths, VotesSeen, ExportsSeen, Once;
    var k := |obs| - 1;
    assert forall m :: 0 <= m < k ==> obs[..k][m] == obs[m] && obs[..k][..m] == obs[..m];
  }

  /** A replayed journal leaves each vote and export once if and only if none is repeated within the observation that brings it. */
  lemma {:induction false} ReplayIsOnceIff(verify: Verify, plan: Plan, w: Work, obs: seq<Observation>)
    requires |obs| <= |plan.steps| == |w.steps|
    ensures var r := Replay(verify, plan, w, obs);
      && VoteKeys(r.votes) == VoteKeys(w.votes) + VotesSeen(obs)
      && ExportPaths(r.exports) == ExportPaths(w.exports) + ExportsSeen(obs)
      && (Once(VoteKey, r.votes) <==> VotesToldOnce(w.votes, obs))
      && (Once(ExportKey, r.exports) <==> ExportsToldOnce(w.exports, obs))
  {
    hide OnceFrom, VoteKeys, ExportPaths, NewVotes, NewExports, MergeFindings;
    if obs != [] {
      var k := |obs| - 1;
      ReplayIsOnceIff(verify, plan, w, obs[..k]);
      ToldMore(w.votes, w.exports, obs);
      var before := Replay(verify, plan, w, obs[..k]);
      FinishAttaches(verify, plan.steps[k], before, k, obs[k]);
      hide Attach, Finish, VotesToldOnce, ExportsToldOnce, Once;
    }
  }

  lemma {:induction false} FinishAttaches(verify: Verify, step: Step, w: Work, r: nat, o: Observation)
    requires r < |w.steps|
    ensures var w' := Finish(verify, step, w, r, o);
      && VoteKeys(w'.votes) == VoteKeys(w.votes) + VoteKeys(o.votes)
      && ExportPaths(w'.exports) == ExportPaths(w.exports) + ExportPaths(o.exports)
      && (Once(VoteKey, w'.votes) <==> Once(VoteKey, w.votes) && OnceFrom(VoteKey, VoteKeys(w.votes), o.votes))
      && (Once(ExportKey, w'.exports) <==> Once(ExportKey, w.exports) && OnceFrom(ExportKey, ExportPaths(w.exports), o.exports))
  {
    AttachIsOnce(w, o);
    hide VoteKeys, ExportPaths, OnceFrom, NewVotes, NewExports, MergeFindings, Once;
  }

  // ---- findings over a whole journal ----------------------------------------------------------------

  function PrintsSeen(obs: seq<Observation>): (r: set<Fingerprint>)
  {
    if obs == [] then {} else PrintsSeen(obs[..|obs| - 1]) + Prints(obs[|obs| - 1].findings)
  }

  lemma {:induction false} MergedPrints(have: seq<Finding>, seen: seq<Finding>)
    ensures Prints(MergeFindings(have, seen)) == Prints(have) + Prints(seen)
  {
    hide MergeAll, Keyed;
    if seen != [] {
      KeyedKeeps(have);
      MergeAllKeeps(Keyed(have), seen);
    } else {
      assert Prints(seen) == {};
    }
  }

  /** A replayed journal leaves exactly the fingerprints that were there or observed. */
  lemma {:induction false} ReplayPrints(verify: Verify, plan: Plan, w: Work, obs: seq<Observation>)
    requires |obs| <= |plan.steps| == |w.steps|
    ensures Prints(Replay(verify, plan, w, obs).findings) == Prints(w.findings) + PrintsSeen(obs)
  {
    hide MergeFindings, Prints;
    if obs != [] {
      var k := |obs| - 1;
      ReplayPrints(verify, plan, w, obs[..k]);
      MergedPrints(Replay(verify, plan, w, obs[..k]).findings, obs[k].findings);
    }
  }
}
