/**
 What one observation adds to a ticket: `_attach`, and the deduplication by fingerprint it
 shares with triage (packages/slas-kernel/slas_kernel/kernel.py, slas_triage/dedup.py).
 */
module Attachments {
  import opened Options
  import opened Records

  const EVIDENCE_CAP := 20

  function VoteKey(v: Vote): (k: (string, string)) { (v.voter, v.reason) }

  function ExportKey(e: Export): (k: string) { e.path }

  function Keys<T(==), K(==)>(key: T -> K, xs: seq<T>): (r: set<K>)
  {
    set x | x in xs :: key(x)
  }

  /** The elements whose key is not among `known`, in order. */
  function New<T(==), K(==)>(key: T -> K, known: set<K>, xs: seq<T>): (r: seq<T>)
  {
    if xs == [] then []
    else if key(xs[0]) in known then New(key, known, xs[1..])
    else [xs[0]] + New(key, known, xs[1..])
  }

  function VoteKeys(votes: seq<Vote>): (r: set<(string, string)>) { Keys(VoteKey, votes) }

  function NewVotes(known: set<(string, string)>, votes: seq<Vote>): (r: seq<Vote>) { New(VoteKey, known, votes) }

  function ExportPaths(exports: seq<Export>): (r: set<string>) { Keys(ExportKey, exports) }

  function NewExports(known: set<string>, exports: seq<Export>): (r: seq<Export>) { New(ExportKey, known, exports) }

  /** Position of the finding with a fingerprint, or the length of the list. */
  function Find(fs: seq<Finding>, fp: Fingerprint): (i: nat)
    ensures i <= |fs|
    ensures i < |fs| ==> fs[i].fingerprint == fp
    ensures forall k :: 0 <= k < i ==> fs[k].fingerprint != fp
  {
    if fs == [] then 0
    else if fs[0].fingerprint == fp then 0
    else 1 + Find(fs[1..], fp)
  }

  function Unseen(evidence: seq<string>, known: seq<string>): (r: seq<string>)
  {
    if evidence == [] then []
    else if evidence[0] in known then Unseen(evidence[1..], known)
    else [evidence[0]] + Unseen(evidence[1..], known)
  }

  function Capped(evidence: seq<string>): (r: seq<string>)
    ensures |r| <= EVIDENCE_CAP && r <= evidence
  {
    if |evidence| <= EVIDENCE_CAP then evidence else evidence[..EVIDENCE_CAP]
  }

  /** Dictionary assignment: a known key keeps its place and takes the new value. */
  function Put(fs: seq<Finding>, f: Finding): (r: seq<Finding>)
  {
    var i := Find(fs, f.fingerprint);
    if i < |fs| then fs[i := f] else fs + [f]
  }

  function Keyed(fs: seq<Finding>): (r: seq<Finding>)
  {
    if fs == [] then [] else Put(Keyed(fs[..|fs| - 1]), fs[|fs| - 1])
  }

  /** The first finding of a fingerprint stays; a repeat adds its unseen evidence. */
  function MergeOne(fs: seq<Finding>, f: Finding): (r: seq<Finding>)
  {
    var i := Find(fs, f.fingerprint);
    if i < |fs|
      then fs[i := fs[i].(evidence := Capped(fs[i].evidence + Unseen(f.evidence, fs[i].evidence)))]
    else fs + [f]
  }

  function MergeAll(fs: seq<Finding>, more: seq<Finding>): (r: seq<Finding>)
  {
    if more == [] then fs else MergeOne(MergeAll(fs, more[..|more| - 1]), more[|more| - 1])
  }

  function MergeFindings(have: seq<Finding>, seen: seq<Finding>): (r: seq<Finding>)
  {
    if seen == [] then have else MergeAll(Keyed(have), seen)
  }

  function Attach(w: Work, o: Observation): (r: Work)
  {
    w.(votes := w.votes + NewVotes(VoteKeys(w.votes), o.votes),
       exports := w.exports + NewExports(ExportPaths(w.exports), o.exports),
       findings := MergeFindings(w.findings, o.findings))
  }

  function Routed(route: Finding -> string, f: Finding): (r: Finding)
  {
    if f.routing.None? then f.(routing := Some(route(f))) else f
  }

  function Triage(route: Finding -> string, fs: seq<Finding>): (r: seq<Finding>)
    ensures |r| == |MergeAll([], fs)|
  {
    var once := MergeAll([], fs);
    seq(|once|, i requires 0 <= i < |once| => Routed(route, once[i]))
  }

  // ---- one finding per fingerprint --------------------------------------------------------

  function Prints(fs: seq<Finding>): (r: set<Fingerprint>)
  {
    set f | f in fs :: f.fingerprint
  }

  ghost predicate OnePerPrint(fs: seq<Finding>) {
    forall i, k :: 0 <= i < k < |fs| ==> fs[i].fingerprint != fs[k].fingerprint
  }

  lemma {:induction false} PutKeeps(fs: seq<Finding>, f: Finding)
    requires OnePerPrint(fs)
    ensures OnePerPrint(Put(fs, f)) && OnePerPrint(MergeOne(fs, f))
    ensures Prints(Put(fs, f)) == Prints(fs) + {f.fingerprint}
    ensures Prints(MergeOne(fs, f)) == Prints(fs) + {f.fingerprint}
  {
    var i := Find(fs, f.fingerprint);
    PrintsOfUpdate(fs, f);
    if i < |fs| {
      var g := fs[i].(evidence := Capped(fs[i].evidence + Unseen(f.evidence, fs[i].evidence)));
      PrintsOfUpdate(fs, g);
    }
  }

  lemma {:induction false} PrintsOfUpdate(fs: seq<Finding>, f: Finding)
    ensures Prints(Put(fs, f)) == Prints(fs) + {f.fingerprint}
  {
    var i := Find(fs, f.fingerprint);
    var r := Put(fs, f);
    assert r[i] == f;
    forall k | 0 <= k < |fs| ensures fs[k].fingerprint in Prints(r) {
      assert r[k].fingerprint == fs[k].fingerprint;
      assert r[k] in r;
    }
    forall x | x in r ensures x.fingerprint in Prints(fs) + {f.fingerprint} {
      var k :| 0 <= k < |r| && r[k] == x;
      if k < |fs| { assert fs[k] in fs; }
    }
    assert forall x | x in fs :: exists k :: 0 <= k < |fs| && fs[k] == x;
  }

  lemma {:induction false} KeyedKeeps(fs: seq<Finding>)
    ensures OnePerPrint(Keyed(fs)) && Prints(Keyed(fs)) == Prints(fs)
  {
    if fs != [] {
      var p := fs[..|fs| - 1];
      KeyedKeeps(p);
      PutKeeps(Keyed(p), fs[|fs| - 1]);
      assert fs == p + [fs[|fs| - 1]];
    }
  }

  lemma {:induction false} MergeAllKeeps(fs: seq<Finding>, more: seq<Finding>)
    requires OnePerPrint(fs)
    ensures OnePerPrint(MergeAll(fs, more)) && Prints(MergeAll(fs, more)) == Prints(fs) + Prints(more)
  {
    if more != [] {
      var p := more[..|more| - 1];
      MergeAllKeeps(fs, p);
      PutKeeps(MergeAll(fs, p), more[|more| - 1]);
      assert more == p + [more[|more| - 1]];
    }
  }

  /** Triage loses no fingerprint and repeats none. */
  lemma {:induction false} TriageIsOnePerPrint(route: Finding -> string, fs: seq<Finding>)
    ensures OnePerPrint(Triage(route, fs)) && Prints(Triage(route, fs)) == Prints(fs)
    ensures (Triage(route, fs) == []) == (fs == [])
    ensures var once, r := MergeAll([], fs), Triage(route, fs);
      forall i :: 0 <= i < |r| ==> r[i] == once[i].(routing := if once[i].routing.Some? then once[i].routing else Some(route(once[i])))
  {
    MergeAllKeeps([], fs);
    var once, r := MergeAll([], fs), Triage(route, fs);
    assert forall i :: 0 <= i < |r| ==> r[i].fingerprint == once[i].fingerprint;
    forall x | x in once ensures x.fingerprint in Prints(r) {
      var i :| 0 <= i < |once| && once[i] == x;
      assert r[i] in r;
    }
    forall x | x in r ensures x.fingerprint in Prints(once) {
      var i :| 0 <= i < |r| && r[i] == x;
      assert once[i] in once;
    }
    assert Prints(r) == Prints(once);
    if fs != [] { assert fs[0] in fs; assert fs[0].fingerprint in Prints(r); }
  }

  // ---- once each ------------------------------------------------------------------------------

  /** No two of the elements that `known` lacks share a key. */
  predicate OnceFrom<T(==), K(==)>(key: T -> K, known: set<K>, xs: seq<T>) {
    forall i, j :: 0 <= i < j < |xs| && key(xs[i]) !in known && key(xs[j]) !in known ==> key(xs[i]) != key(xs[j])
  }

  /** No two elements share a key. */
  predicate Once<T(==), K(==)>(key: T -> K, xs: seq<T>) { OnceFrom(key, {}, xs) }

  lemma {:induction false} NewAre<T, K>(key: T -> K, known: set<K>, xs: seq<T>)
    ensures forall x :: x in New(key, known, xs) <==> x in xs && key(x) !in known
  {
    if xs != [] {
      NewAre(key, known, xs[1..]);
      assert xs == [xs[0]] + xs[1..];
    }
  }

  lemma {:induction false} NewHas<T, K>(key: T -> K, known: set<K>, xs: seq<T>, x: T)
    ensures x in New(key, known, xs) <==> x in xs && key(x) !in known
  {
    if xs != [] {
      NewHas(key, known, xs[1..], x);
      assert xs == [xs[0]] + xs[1..];
    }
  }

  lemma {:induction false} NoneNew<T, K>(key: T -> K, known: set<K>, xs: seq<T>)
    requires Keys(key, xs) <= known
    ensures New(key, known, xs) == []
  {
    if xs != [] {
      assert xs[0] in xs;
      assert Keys(key, xs[1..]) <= Keys(key, xs);
      NoneNew(key, known, xs[1..]);
    }
  }

  /** No element that `known` lacks has the key of x. */
  predicate NoneLike<T(==), K(==)>(key: T -> K, known: set<K>, x: T, xs: seq<T>) {
    forall y :: y in xs ==> key(y) in known || key(y) != key(x)
  }

  lemma {:induction false} NoneLikeNew<T, K>(key: T -> K, known: set<K>, x: T, xs: seq<T>)
    ensures NoneLike(key, {}, x, New(key, known, xs)) <==> NoneLike(key, known, x, xs)
  {
    var kept := New(key, known, xs);
    if NoneLike(key, known, x, xs) {
      forall y | y in kept ensures key(y) != key(x) { NewHas(key, known, xs, y); }
    } else {
      var y :| y in xs && !(key(y) in known || key(y) != key(x));
      NewHas(key, known, xs, y);
    }
  }

  lemma {:induction false} OnceCons<T, K>(key: T -> K, known: set<K>, x: T, rest: seq<T>)
    ensures OnceFrom(key, known, [x] + rest) <==>
      OnceFrom(key, known, rest) && (key(x) !in known ==> NoneLike(key, known, x, rest))
  {
    var xs := [x] + rest;
    assert forall i :: 0 <= i < |rest| ==> xs[i + 1] == rest[i];
    if OnceFrom(key, known, xs) {
      forall i, j | 0 <= i < j < |rest| && key(rest[i]) !in known && key(rest[j]) !in known ensures key(rest[i]) != key(rest[j]) {
        assert key(xs[i + 1]) != key(xs[j + 1]);
      }
      forall y | y in rest && key(x) !in known && key(y) !in known ensures key(y) != key(x) {
        var i :| 0 <= i < |rest| && rest[i] == y;
        assert key(xs[0]) != key(xs[i + 1]);
      }
    }
  }

  /** What is kept has each key once if and only if what it is chosen from has each new key once. */
  lemma {:induction false} NewOnceIff<T, K>(key: T -> K, known: set<K>, xs: seq<T>)
    ensures Once(key, New(key, known, xs)) <==> OnceFrom(key, known, xs)
  {
    if xs != [] {
      var x, rest := xs[0], xs[1..];
      NewOnceIff(key, known, rest);
      assert xs == [x] + rest;
      OnceCons(key, known, x, rest);
      var kept := New(key, known, rest);
      OnceCons(key, {}, x, kept);
      NoneLikeNew(key, known, x, rest);
      assert New(key, known, xs) == if key(x) in known then kept else [x] + kept;
      hide New, OnceFrom, NoneLike;
    }
  }

  lemma {:induction false} OnceAppend<T, K>(key: T -> K, xs: seq<T>, ys: seq<T>)
    requires Keys(key, xs) !! Keys(key, ys)
    ensures Once(key, xs + ys) <==> Once(key, xs) && Once(key, ys)
  {
    if xs == [] {
      assert xs + ys == ys;
    } else {
      var x, rest := xs[0], xs[1..];
      assert xs == [x] + rest && xs + ys == [x] + (rest + ys);
      assert forall y :: y in xs <==> y == x || y in rest;
      assert Keys(key, rest) <= Keys(key, xs) && key(x) in Keys(key, xs);
      OnceAppend(key, rest, ys);
      OnceCons(key, {}, x, rest);
      OnceCons(key, {}, x, rest + ys);
      assert forall y :: y in ys ==> key(y) in Keys(key, ys);
    }
  }

  /** Appending what is new: the keys of both, each once if and only if it was so and the new ones are. */
  lemma {:induction false} AppendNew<T, K>(key: T -> K, xs: seq<T>, ys: seq<T>)
    ensures var r := xs + New(key, Keys(key, xs), ys);
      && Keys(key, r) == Keys(key, xs) + Keys(key, ys)
      && (Once(key, r) <==> Once(key, xs) && OnceFrom(key, Keys(key, xs), ys))
      && New(key, Keys(key, r), ys) == []
  {
    var more := New(key, Keys(key, xs), ys);
    NewAre(key, Keys(key, xs), ys);
    NewOnceIff(key, Keys(key, xs), ys);
    forall k | k in Keys(key, more) ensures k !in Keys(key, xs) {
      var y :| y in more && key(y) == k;
    }
    OnceAppend(key, xs, more);
    assert Keys(key, xs + more) == Keys(key, xs) + Keys(key, ys);
    NoneNew(key, Keys(key, xs + more), ys);
  }

  /**
   Every vote and export of an observation ends up on the ticket behind what was there, and
   attaching the observation again adds neither. Each is there once if and only if each was there
   once and the observation does not repeat one the ticket lacks.
   */
  lemma {:induction false} AttachIsOnce(w: Work, o: Observation)
    ensures var r := Attach(w, o);
      && w.votes <= r.votes && VoteKeys(r.votes) == VoteKeys(w.votes) + VoteKeys(o.votes)
      && w.exports <= r.exports && ExportPaths(r.exports) == ExportPaths(w.exports) + ExportPaths(o.exports)
      && Attach(r, o).votes == r.votes && Attach(r, o).exports == r.exports && r.steps == w.steps
      && (forall v :: v in r.votes <==> v in w.votes || (v in o.votes && forall u :: u in w.votes ==> u.voter != v.voter || u.reason != v.reason))
      && (forall e :: e in r.exports <==> e in w.exports || (e in o.exports && forall u :: u in w.exports ==> u.path != e.path))
      && (Once(VoteKey, r.votes) <==> Once(VoteKey, w.votes) && OnceFrom(VoteKey, VoteKeys(w.votes), o.votes))
      && (Once(ExportKey, r.exports) <==> Once(ExportKey, w.exports) && OnceFrom(ExportKey, ExportPaths(w.exports), o.exports))
  {
    AttachedAre(w, o);
    hide New, Keys, MergeFindings, OnceFrom;
    AppendNew(VoteKey, w.votes, o.votes);
    AppendNew(ExportKey, w.exports, o.exports);
  }

  lemma {:induction false} AttachedAre(w: Work, o: Observation)
    ensures var r := Attach(w, o);
      && (forall v :: v in r.votes <==> v in w.votes || (v in o.votes && forall u :: u in w.votes ==> u.voter != v.voter || u.reason != v.reason))
      && (forall e :: e in r.exports <==> e in w.exports || (e in o.exports && forall u :: u in w.exports ==> u.path != e.path))
  {
    NewAre(VoteKey, VoteKeys(w.votes), o.votes);
    NewAre(ExportKey, ExportPaths(w.exports), o.exports);
    hide New, MergeFindings;
  }

  /** One observation that repeats a vote and an export leaves both of each on the ticket. */
  lemma {:induction false} RepeatsWithinStay(v: Vote, e: Export)
    ensures var r := Attach(NO_WORK, Observation("", [v, v], [e, e], []));
      r.votes == [v, v] && r.exports == [e, e] && !Once(VoteKey, r.votes) && !Once(ExportKey, r.exports)
  {
    assert New(VoteKey, {}, [v, v]) == [v] + New(VoteKey, {}, [v]) == [v] + [v];
    assert New(ExportKey, {}, [e, e]) == [e] + New(ExportKey, {}, [e]) == [e] + [e];
    assert Keys(VoteKey, []) == {} && Keys(ExportKey, []) == {};
    var r := Attach(NO_WORK, Observation("", [v, v], [e, e], []));
    assert VoteKey(r.votes[0]) == VoteKey(r.votes[1]) && ExportKey(r.exports[0]) == ExportKey(r.exports[1]);
  }

  /** The same finding but for its evidence. */
  predicate SameBut(a: Finding, b: Finding) { a == b.(evidence := a.evidence) }

  /** Findings merged in: those that were there keep their place, each new one follows as its first copy. */
  ghost predicate Merged(have: seq<Finding>, seen: seq<Finding>, r: seq<Finding>) {
    && |have| <= |r|
    && (forall i :: 0 <= i < |have| ==> SameBut(r[i], have[i]))
    && (forall i :: |have| <= i < |r| ==>
          exists m :: 0 <= m < |seen| && SameBut(r[i], seen[m]) && r[i].fingerprint !in Prints(have) && r[i].fingerprint !in Prints(seen[..m]))
  }

  lemma {:induction false} MergedAre(have: seq<Finding>, seen: seq<Finding>)
    requires OnePerPrint(have)
    ensures Merged(have, seen, MergeAll(have, seen)) && OnePerPrint(MergeAll(have, seen))
  {
    hide Merged, MergeOne, OnePerPrint;
    if seen != [] {
      var n := |seen| - 1;
      MergedAre(have, seen[..n]);
      MergeAllKeeps(have, seen);
      MergeAllKeeps(have, seen[..n]);
      MergedMore(have, seen, MergeAll(have, seen[..n]));
    } else {
      NothingMerged(have);
    }
  }

  lemma {:induction false} NothingMerged(have: seq<Finding>)
    ensures Merged(have, [], have)
  {
  }

  lemma {:induction false} MergedMore(have: seq<Finding>, seen: seq<Finding>, before: seq<Finding>)
    requires seen != [] && Merged(have, seen[..|seen| - 1], before) && Prints(before) == Prints(have) + Prints(seen[..|seen| - 1])
    ensures Merged(have, seen, MergeOne(before, seen[|seen| - 1]))
  {
    hide Capped, Unseen, Prints;
    var n := |seen| - 1;
    var p, f := seen[..n], seen[n];
    var r := MergeOne(before, f);
    forall i | |have| <= i < |r|
      ensures exists m :: 0 <= m < |seen| && SameBut(r[i], seen[m]) && r[i].fingerprint !in Prints(have) && r[i].fingerprint !in Prints(seen[..m])
    {
      if i < |before| {
        var m :| 0 <= m < |p| && SameBut(before[i], p[m]) && before[i].fingerprint !in Prints(have) && before[i].fingerprint !in Prints(p[..m]);
        assert seen[m] == p[m] && seen[..m] == p[..m];
      } else {
        NotThere(before, f.fingerprint);
      }
    }
  }

  lemma {:induction false} NotThere(fs: seq<Finding>, fp: Fingerprint)
    requires Find(fs, fp) == |fs|
    ensures fp !in Prints(fs)
  {
  }

  lemma {:induction false} KeyedIsSame(fs: seq<Finding>)
    requires OnePerPrint(fs)
    ensures Keyed(fs) == fs
  {
    if fs != [] {
      var n := |fs| - 1;
      KeyedIsSame(fs[..n]);
      assert fs == fs[..n] + [fs[n]];
    }
  }

  /** On a ticket with one finding per fingerprint an observation only adds: evidence to what is there, first copies behind it. */
  lemma {:induction false} FindingsOnlyGrow(w: Work, o: Observation)
    requires OnePerPrint(w.findings)
    ensures Merged(w.findings, o.findings, Attach(w, o).findings) && OnePerPrint(Attach(w, o).findings)
  {
    hide New, Prints;
    KeyedIsSame(w.findings);
    MergedAre(w.findings, o.findings);
  }

  lemma {:induction false} UnseenAre(evidence: seq<string>, known: seq<string>)
    ensures forall e :: e in Unseen(evidence, known) <==> e in evidence && e !in known
  {
    if evidence != [] {
      UnseenAre(evidence[1..], known);
      assert evidence == [evidence[0]] + evidence[1..];
    }
  }

  /** A repeat adds its unseen evidence behind what was there, the first 20 entries stay, and nothing else changes. */
  lemma {:induction false} RepeatAddsEvidence(fs: seq<Finding>, f: Finding)
    requires f.fingerprint in Prints(fs)
    ensures var i, r := Find(fs, f.fingerprint), MergeOne(fs, f);
      && i < |fs| && |r| == |fs| && r[i] == fs[i].(evidence := r[i].evidence) && |r[i].evidence| <= 20
      && (forall k :: 0 <= k < |fs| && k != i ==> r[k] == fs[k])
      && (forall e :: e in r[i].evidence ==> e in fs[i].evidence || e in f.evidence)
      && r[i].evidence <= fs[i].evidence + Unseen(f.evidence, fs[i].evidence)
      && (|r[i].evidence| < 20 ==> fs[i].evidence <= r[i].evidence && forall e :: e in f.evidence ==> e in r[i].evidence)
      && (|fs[i].evidence| + |Unseen(f.evidence, fs[i].evidence)| >= 20 ==> |r[i].evidence| == 20)
      && (|fs[i].evidence| + |Unseen(f.evidence, fs[i].evidence)| <= 20 ==>
            fs[i].evidence <= r[i].evidence && forall e :: e in f.evidence ==> e in r[i].evidence)
  {
    var g :| g in fs && g.fingerprint == f.fingerprint;
    var i := Find(fs, f.fingerprint);
    UnseenAre(f.evidence, fs[i].evidence);
    var all := fs[i].evidence + Unseen(f.evidence, fs[i].evidence);
    assert forall e :: e in Capped(all) ==> e in all;
  }
}
