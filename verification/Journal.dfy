/**
 The write-ahead journal: one append-only list of entries per ticket
 (packages/slas-kernel/slas_kernel/journal.py).
 */
module Journal {
  import opened Options
  import opened Records

  datatype Kind = IntentEntry | ActionEntry | ObservationEntry | StateEntry | NoteEntry

  /** `Redo` is the "re-performing after an interruption" note on an intent. */
  datatype Payload = Empty | Redo | Seen(observation: Observation)

  datatype Entry = Entry(number: nat, kind: Kind, stepId: Option<StepId>, payload: Payload)

  predicate IsObservation(e: Entry) {
    e.kind == ObservationEntry && e.stepId.Some? && e.payload.Seen?
  }

  function Append(j: seq<Entry>, kind: Kind, stepId: Option<StepId>, payload: Payload): (r: seq<Entry>)
  {
    j + [Entry(|j| + 1, kind, stepId, payload)]
  }

  /** The observation entries in the order they were written: step ids and what was seen. */
  function ObservedIds(j: seq<Entry>): (r: seq<StepId>)
    ensures |r| == |Observations(j)|
  {
    if j == [] then []
    else if IsObservation(j[|j| - 1]) then ObservedIds(j[..|j| - 1]) + [j[|j| - 1].stepId.value]
    else ObservedIds(j[..|j| - 1])
  }

  function Observations(j: seq<Entry>): (r: seq<Observation>)
  {
    if j == [] then []
    else if IsObservation(j[|j| - 1]) then Observations(j[..|j| - 1]) + [j[|j| - 1].payload.observation]
    else Observations(j[..|j| - 1])
  }

  /** Step id to its observation; a later observation of the same step replaces an earlier one. */
  function Completed(j: seq<Entry>): (r: map<StepId, Observation>)
  {
    if j == [] then map[]
    else if IsObservation(j[|j| - 1])
      then Completed(j[..|j| - 1])[j[|j| - 1].stepId.value := j[|j| - 1].payload.observation]
    else Completed(j[..|j| - 1])
  }

  /** The effect of one entry on the pending intent. */
  function IntentAfter(open: Option<StepId>, e: Entry): (r: Option<StepId>)
  {
    if e.stepId.None? then open
    else if e.kind == IntentEntry then e.stepId
    else if e.kind == ObservationEntry && e.stepId == open then None
    else open
  }

  function OpenIntent(j: seq<Entry>): (r: Option<StepId>)
  {
    if j == [] then None else IntentAfter(OpenIntent(j[..|j| - 1]), j[|j| - 1])
  }

  /** Entry k is an intent of this step, and behind it no step is begun and this one not observed. */
  predicate LeftOpen(j: seq<Entry>, s: StepId, k: nat) {
    && k < |j| && j[k].kind == IntentEntry && j[k].stepId == Some(s)
    && forall m :: k < m < |j| ==>
         !(j[m].kind == IntentEntry && j[m].stepId.Some?) && !(j[m].kind == ObservationEntry && j[m].stepId == Some(s))
  }

  /** The interrupted step is the one whose intent was the last and has no observation behind it. */
  lemma {:induction false} OpenIntentIff(j: seq<Entry>, s: StepId)
    ensures OpenIntent(j) == Some(s) <==> exists k: nat :: LeftOpen(j, s, k)
  {
    if j != [] {
      var n := |j| - 1;
      var p := j[..n];
      OpenIntentIff(p, s);
      forall k: nat | k < n
        ensures LeftOpen(j, s, k) <==> LeftOpen(p, s, k) && !(j[n].kind == IntentEntry && j[n].stepId.Some?) && !(j[n].kind == ObservationEntry && j[n].stepId == Some(s))
      {
        assert forall m :: k <= m < n ==> p[m] == j[m];
      }
      if OpenIntent(j) == Some(s) {
        if j[n].kind == IntentEntry && j[n].stepId.Some? {
          assert LeftOpen(j, s, n);
        } else {
          var k: nat :| LeftOpen(p, s, k);
          assert LeftOpen(j, s, k);
        }
      }
      if exists k: nat :: LeftOpen(j, s, k) {
        var k: nat :| LeftOpen(j, s, k);
        if k < n { assert LeftOpen(p, s, k); }
      }
    }
  }

  /** How many intents name a step. */
  function IntentCount(j: seq<Entry>, s: StepId): (n: nat)
  {
    if j == [] then 0
    else IntentCount(j[..|j| - 1], s)
         + if j[|j| - 1].kind == IntentEntry && j[|j| - 1].stepId == Some(s) then 1 else 0
  }

  predicate Numbered(j: seq<Entry>) {
    forall i :: 0 <= i < |j| ==> j[i].number == i + 1
  }

  lemma {:induction false} AppendUnfolds(j: seq<Entry>, kind: Kind, stepId: Option<StepId>, payload: Payload)
    ensures var r := Append(j, kind, stepId, payload);
      var e := Entry(|j| + 1, kind, stepId, payload);
      && OpenIntent(r) == IntentAfter(OpenIntent(j), e)
      && Completed(r) == (if IsObservation(e) then Completed(j)[stepId.value := payload.observation] else Completed(j))
      && ObservedIds(r) == (if IsObservation(e) then ObservedIds(j) + [stepId.value] else ObservedIds(j))
      && Observations(r) == (if IsObservation(e) then Observations(j) + [payload.observation] else Observations(j))
      && (forall s :: IntentCount(r, s) ==
           IntentCount(j, s) + if kind == IntentEntry && stepId == Some(s) then 1 else 0)
  {
    var r := Append(j, kind, stepId, payload);
    assert r[..|r| - 1] == j;
  }

  predicate Distinct(s: seq<StepId>) {
    forall a, b :: 0 <= a < b < |s| ==> s[a] != s[b]
  }

  lemma {:induction false} DistinctPrefix(s: seq<StepId>, n: nat)
    requires Distinct(s) && n <= |s|
    ensures Distinct(s[..n])
  {
  }

  /** Completed steps are exactly the observed ids; with no id twice, each maps to its own observation. */
  lemma {:induction false} CompletedIsObserved(j: seq<Entry>)
    requires Distinct(ObservedIds(j))
    ensures forall s :: s in Completed(j) <==> s in ObservedIds(j)
    ensures forall i :: 0 <= i < |ObservedIds(j)| ==>
      ObservedIds(j)[i] in Completed(j) && Completed(j)[ObservedIds(j)[i]] == Observations(j)[i]
  {
    if j != [] {
      var p, e, ids := j[..|j| - 1], j[|j| - 1], ObservedIds(j);
      if IsObservation(e) {
        assert ids == ObservedIds(p) + [e.stepId.value];
        DistinctPrefix(ids, |ids| - 1);
        assert ids[..|ids| - 1] == ObservedIds(p);
        CompletedIsObserved(p);
        assert Observations(j) == Observations(p) + [e.payload.observation];
        forall i | 0 <= i < |ids|
          ensures ids[i] in Completed(j) && Completed(j)[ids[i]] == Observations(j)[i]
        {
          if i < |ids| - 1 {
            assert ids[i] == ObservedIds(p)[i] && ids[i] != ids[|ids| - 1];
          }
        }
      } else {
        CompletedIsObserved(p);
      }
    }
  }

  /** The journal file of one ticket. */
  class JournalFile {
    var lines: seq<Entry>

    constructor ()
      ensures lines == []
    {
      lines := [];
    }

    method AppendEntry(kind: Kind, stepId: Option<StepId>, payload: Payload) returns (e: Entry)
      requires Numbered(lines)
      modifies this
      ensures lines == Append(old(lines), kind, stepId, payload)
      ensures e == lines[|lines| - 1] && Numbered(lines)
    {
      e := Entry(|lines| + 1, kind, stepId, payload);
      lines := lines + [e];
    }

    method CompletedSteps() returns (r: map<StepId, Observation>)
      ensures r == Completed(lines)
    {
      r := map[];
      for i := 0 to |lines|
        invariant r == Completed(lines[..i])
      {
        assert lines[..i + 1][..i] == lines[..i];
        if lines[i].kind == ObservationEntry && lines[i].stepId.Some? && lines[i].payload.Seen? {
          r := r[lines[i].stepId.value := lines[i].payload.observation];
        }
      }
      assert lines[..|lines|] == lines;
    }

    method InterruptedStep() returns (open: Option<StepId>)
      ensures open == OpenIntent(lines)
    {
      open := None;
      for i := 0 to |lines|
        invariant open == OpenIntent(lines[..i])
      {
        assert lines[..i + 1][..i] == lines[..i];
        var e := lines[i];
        if e.stepId.None? { continue; }
        if e.kind == IntentEntry {
          open := e.stepId;
        } else if e.kind == ObservationEntry && e.stepId == open {
          open := None;
        }
      }
      assert lines[..|lines|] == lines;
    }
  }
}
