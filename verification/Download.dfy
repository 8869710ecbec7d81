/**
 The resuming download of one file (packages/slas-fetch/slas_fetch/fetch.py): a retry loop that
 appends to `<target>.part` with Range requests against a server that drops, shortens or restarts.
 */
module Download {
  import opened Options

  type Bytes = seq<bv8>
  /** What one `read` returns before the end of the body. */
  type Chunk = b: Bytes | |b| > 0 witness [0]

  /**
   What comes back for one request: an HTTP error, no connection after the opener's own
   retries, or a body read in chunks that ends cleanly or by a dropped connection.
   */
  datatype Answer =
    | HttpError(code: int)
    | Unreachable
    | Body(status: int, chunks: seq<Chunk>, dropped: bool)

  /** StillRunning: the answers at hand ran out, and the loop would send another request. */
  datatype Outcome = Finished | Refused(code: int) | Stalled | WrongSize | StillRunning

  datatype Next = Stop(outcome: Outcome) | Again(stalls: nat)

  function Joined(chunks: seq<Chunk>): (r: Bytes)
  {
    if chunks == [] then [] else Joined(chunks[..|chunks| - 1]) + chunks[|chunks| - 1]
  }

  function Have(part: Option<Bytes>): (n: nat) { if part.Some? then |part.value| else 0 }

  /** What `.part` holds behind one body: appended to only by a partial answer to a Range request. */
  function Received(part: Option<Bytes>, a: Answer): (r: Bytes)
    requires a.Body?
  {
    (if Have(part) > 0 && a.status == 206 then part.value else []) + Joined(a.chunks)
  }

  function Retry(before: nat, have: nat, stalls: nat, retries: nat): (n: Next)
  {
    var s := if have > before then 0 else stalls + 1;
    if s > retries then Stop(Stalled) else Again(s)
  }

  function Round(part: Option<Bytes>, stalls: nat, a: Answer, expected: nat, retries: nat): (r: (Option<Bytes>, Next))
  {
    match a
    case HttpError(code) => (part, Stop(Refused(code)))
    case Unreachable => (part, Retry(Have(part), Have(part), stalls, retries))
    case Body(_, _, dropped) =>
      var now := Received(part, a);
      if !dropped && (expected == 0 || |now| >= expected) then
        (Some(now), Stop(if expected != 0 && |now| != expected then WrongSize else Finished))
      else (Some(now), Retry(Have(part), |now|, stalls, retries))
  }

  /** The loop over the answers: how it ends and what `.part` then holds. */
  function Loop(part: Option<Bytes>, stalls: nat, answers: seq<Answer>, expected: nat, retries: nat): (r: (Outcome, Option<Bytes>))
    decreases |answers|
  {
    if answers == [] then (StillRunning, part)
    else
      var (now, next) := Round(part, stalls, answers[0], expected, retries);
      if next.Stop? then (next.outcome, now) else Loop(now, next.stalls, answers[1..], expected, retries)
  }

  /** A `.part` longer than the published size is discarded before the first request. */
  function Kept(part: Option<Bytes>, expected: nat): (r: Option<Bytes>)
  {
    if expected != 0 && Have(part) > expected then None else part
  }

  /** It is discarded exactly then, and otherwise resumed whole; without a published size always. */
  lemma {:induction false} DiscardedIff(part: Bytes, expected: nat)
    ensures Kept(Some(part), expected).None? <==> 0 < expected < |part|
    ensures Kept(Some(part), expected).Some? ==> Kept(Some(part), expected).value == part
    ensures Kept(None, expected).None?
  {
  }

  // ---- when the loop ends --------------------------------------------------------------------------

  /** `.part` behind the first k answers, were none of them the last. */
  function PartAt(part: Option<Bytes>, answers: seq<Answer>, k: nat): (r: Option<Bytes>)
    requires k <= |answers|
  {
    if k == 0 then part
    else
      var was, a := PartAt(part, answers, k - 1), answers[k - 1];
      if !a.Body? then was
      else Some((if Have(was) > 0 && a.status == 206 then was.value else []) + Joined(a.chunks))
  }

  /** Answer k brought no byte more. */
  predicate NoGain(part: Option<Bytes>, answers: seq<Answer>, k: nat)
    requires k < |answers|
  {
    Have(PartAt(part, answers, k + 1)) <= Have(PartAt(part, answers, k))
  }

  /** Answer k is a body read to its end that is long enough. */
  predicate IsWhole(part: Option<Bytes>, answers: seq<Answer>, expected: nat, k: nat)
    requires k < |answers|
  {
    && answers[k].Body? && !answers[k].dropped
    && (expected == 0 || Have(PartAt(part, answers, k + 1)) >= expected)
  }

  /** With answer k more answers in a row than `retries` brought nothing; `stalls` of them came before the first. */
  predicate GivesUp(part: Option<Bytes>, stalls: nat, answers: seq<Answer>, retries: nat, k: nat)
    requires k < |answers|
  {
    k + 1 + stalls > retries && forall i :: 0 <= i <= k && k - retries <= i ==> NoGain(part, answers, i)
  }

  /** Why the loop ends with answer k, or None where it asks again. */
  function EndAt(part: Option<Bytes>, stalls: nat, answers: seq<Answer>, expected: nat, retries: nat, k: nat): (o: Option<Outcome>)
    requires k < |answers|
  {
    if answers[k].HttpError? then Some(Refused(answers[k].code))
    else if IsWhole(part, answers, expected, k) then
      Some(if expected == 0 || Have(PartAt(part, answers, k + 1)) == expected then Finished else WrongSize)
    else if GivesUp(part, stalls, answers, retries, k) then Some(Stalled)
    else None
  }

  lemma {:induction false} PartAtNext(part: Option<Bytes>, answers: seq<Answer>, k: nat)
    requires k < |answers|
    ensures PartAt(part, answers, k + 1) == PartAt(PartAt(part, answers, 1), answers[1..], k)
  {
    hide Joined;
    if k > 0 { PartAtNext(part, answers, k - 1); }
  }

  /** Behind a first answer that ended nothing, the loop ends where it would from there. */
  lemma {:induction false} EndAtNext(part: Option<Bytes>, stalls: nat, answers: seq<Answer>, expected: nat, retries: nat, k: nat)
    requires k + 1 < |answers| && stalls <= retries && EndAt(part, stalls, answers, expected, retries, 0).None?
    ensures var s := if NoGain(part, answers, 0) then stalls + 1 else 0;
      EndAt(part, stalls, answers, expected, retries, k + 1) == EndAt(PartAt(part, answers, 1), s, answers[1..], expected, retries, k)
  {
    hide PartAt;
    var now := PartAt(part, answers, 1);
    forall i | 0 <= i <= k ensures NoGain(part, answers, i + 1) <==> NoGain(now, answers[1..], i) {
      PartAtNext(part, answers, i);
      PartAtNext(part, answers, i + 1);
    }
    PartAtNext(part, answers, k + 1);
    var s := if NoGain(part, answers, 0) then stalls + 1 else 0;
    hide NoGain;
    assert GivesUp(part, stalls, answers, retries, k + 1) <==> GivesUp(now, s, answers[1..], retries, k) by {
      if GivesUp(now, s, answers[1..], retries, k) {
        forall i | 0 <= i <= k + 1 && k + 1 - retries <= i ensures NoGain(part, answers, i) {
          if i > 0 { assert NoGain(now, answers[1..], i - 1); }
        }
      }
      if GivesUp(part, stalls, answers, retries, k + 1) {
        forall i | 0 <= i <= k && k - retries <= i ensures NoGain(now, answers[1..], i) { assert NoGain(part, answers, i + 1); }
      }
    }
  }

  /**
   The loop ends with the first answer that is an error, a whole body, or the last of more than
   `retries` in a row that brought nothing, and with nothing else.
   */
  lemma {:induction false} LoopEndsIff(part: Option<Bytes>, stalls: nat, answers: seq<Answer>, expected: nat, retries: nat, k: nat)
    requires stalls <= retries && k <= |answers|
    requires forall i :: 0 <= i < k ==> EndAt(part, stalls, answers, expected, retries, i).None?
    requires k < |answers| ==> EndAt(part, stalls, answers, expected, retries, k).Some?
    ensures Loop(part, stalls, answers, expected, retries) ==
      if k < |answers| then (EndAt(part, stalls, answers, expected, retries, k).value, PartAt(part, answers, k + 1))
      else (StillRunning, PartAt(part, answers, k))
    decreases |answers|
  {
    hide Joined;
    if answers != [] { FirstRound(part, stalls, answers, expected, retries); }
    if answers != [] && k > 0 {
      hide Round, Retry, PartAt;
      var now, s := PartAt(part, answers, 1), if NoGain(part, answers, 0) then stalls + 1 else 0;
      hide NoGain;
      assert EndAt(part, stalls, answers, expected, retries, 0).None?;
      forall i | 0 <= i < k && i + 1 < |answers|
        ensures EndAt(now, s, answers[1..], expected, retries, i) == EndAt(part, stalls, answers, expected, retries, i + 1)
      {
        EndAtNext(part, stalls, answers, expected, retries, i);
      }
      hide EndAt;
      LoopEndsIff(now, s, answers[1..], expected, retries, k - 1);
      if k < |answers| { PartAtNext(part, answers, k); }
      PartAtNext(part, answers, k - 1);
    }
  }

  lemma {:induction false} FirstRound(part: Option<Bytes>, stalls: nat, answers: seq<Answer>, expected: nat, retries: nat)
    requires answers != [] && stalls <= retries
    ensures var (now, next) := Round(part, stalls, answers[0], expected, retries);
      && now == PartAt(part, answers, 1)
      && next == match EndAt(part, stalls, answers, expected, retries, 0)
           case Some(o) => Stop(o)
           case None => Again(if NoGain(part, answers, 0) then stalls + 1 else 0)
    ensures EndAt(part, stalls, answers, expected, retries, 0).None? && NoGain(part, answers, 0) ==> stalls < retries
  {
    hide Joined;
    assert PartAt(part, answers, 0) == part;
    if stalls + 1 > retries && NoGain(part, answers, 0) { assert GivesUp(part, stalls, answers, retries, 0); }
  }

  // ---- integrity ------------------------------------------------------------------------------

  ghost predicate Prefix(p: Bytes, c: Bytes) { |p| <= |c| && p == c[..|p|] }

  ghost predicate PartOf(part: Option<Bytes>, c: Bytes) { part.Some? ==> Prefix(part.value, c) }

  /** The answer comes from the content: a partial answer continues at the offset asked for. */
  ghost predicate Honest(c: Bytes, have: nat, a: Answer) {
    a.Body? ==> Prefix(Joined(a.chunks), if 0 < have <= |c| && a.status == 206 then c[have..] else c)
  }

  /** Every answer the loop gets to is honest for the offset it asked for. */
  ghost predicate HonestRun(c: Bytes, part: Option<Bytes>, stalls: nat, answers: seq<Answer>, expected: nat, retries: nat)
    decreases |answers|
  {
    answers != [] ==>
      && Honest(c, Have(part), answers[0])
      && var (now, next) := Round(part, stalls, answers[0], expected, retries);
        (next.Again? ==> HonestRun(c, now, next.stalls, answers[1..], expected, retries))
  }

  lemma {:induction false} RoundKeepsPrefix(c: Bytes, part: Option<Bytes>, stalls: nat, a: Answer, expected: nat, retries: nat)
    requires PartOf(part, c) && Honest(c, Have(part), a)
    ensures PartOf(Round(part, stalls, a, expected, retries).0, c)
  {
    if a.Body? {
      var have, more := Have(part), Joined(a.chunks);
      if have > 0 && a.status == 206 {
        assert part.value + more == c[..have] + c[have..][..|more|] == c[..have + |more|];
      } else {
        assert [] + more == more;
      }
    }
  }

  /**
   Integrity: whatever mix of drops, short bodies, full and partial answers, `.part` is a
   prefix of the content at every end, and a finished download of known size is the content.
   */
  lemma {:induction false} DownloadIsFaithful(c: Bytes, part: Option<Bytes>, stalls: nat, answers: seq<Answer>, expected: nat, retries: nat)
    requires PartOf(part, c) && HonestRun(c, part, stalls, answers, expected, retries)
    ensures var (o, now) := Loop(part, stalls, answers, expected, retries);
      && PartOf(now, c)
      && (o == Finished ==> now.Some?)
      && (o == Finished && expected == |c| ==> now == Some(c))
      && (expected == |c| ==> o != WrongSize)
    decreases |answers|
  {
    if answers != [] {
      var (now, next) := Round(part, stalls, answers[0], expected, retries);
      RoundKeepsPrefix(c, part, stalls, answers[0], expected, retries);
      assert c[..|c|] == c;
      if next.Again? {
        DownloadIsFaithful(c, now, next.stalls, answers[1..], expected, retries);
      }
    }
  }

  /** With no published size a body cut short by a clean close is taken for the file. */
  lemma {:induction false} UnknownSizeAcceptsShortBody(c: Bytes, status: int, cut: Chunk, retries: nat)
    requires Prefix(cut, c)
    ensures var answers := [Body(status, [cut], false)];
      HonestRun(c, None, 0, answers, 0, retries) && Loop(None, 0, answers, 0, retries) == (Finished, Some(cut))
  {
    JoinedOne(cut);
  }

  lemma {:induction false} JoinedOne(b: Chunk)
    ensures Joined([b]) == b
  {
    assert [b][..0] == [];
    assert Joined([]) == [];
  }

  // ---- termination -----------------------------------------------------------------------------

  /**
   Range requests as RFC 9110 has them: a body answering one is a 206 (section 15.3.7), and a
   range that starts behind the end is a 416 (section 15.5.17).
   */
  ghost predicate Honours(c: Bytes, have: nat, a: Answer) {
    && Honest(c, have, a)
    && (have > 0 && a.Body? ==> a.status == 206 && have < |c|)
  }

  ghost predicate HonouringRun(c: Bytes, part: Option<Bytes>, stalls: nat, answers: seq<Answer>, expected: nat, retries: nat)
    decreases |answers|
  {
    answers != [] ==>
      && Honours(c, Have(part), answers[0])
      && var (now, next) := Round(part, stalls, answers[0], expected, retries);
        (next.Again? ==> HonouringRun(c, now, next.stalls, answers[1..], expected, retries))
  }

  lemma {:induction false} HonouringIsHonest(c: Bytes, part: Option<Bytes>, stalls: nat, answers: seq<Answer>, expected: nat, retries: nat)
    requires HonouringRun(c, part, stalls, answers, expected, retries)
    ensures HonestRun(c, part, stalls, answers, expected, retries)
    decreases |answers|
  {
    if answers != [] {
      var (now, next) := Round(part, stalls, answers[0], expected, retries);
      if next.Again? { HonouringIsHonest(c, now, next.stalls, answers[1..], expected, retries); }
    }
  }

  /** A kind of server: honest, and a body answering a Range request has one of these statuses. */
  ghost predicate Permits(c: Bytes, statuses: set<int>, have: nat, a: Answer) {
    Honest(c, have, a) && (have > 0 && a.Body? ==> a.status in statuses)
  }

  ghost predicate KindRun(c: Bytes, statuses: set<int>, part: Option<Bytes>, stalls: nat, answers: seq<Answer>, expected: nat, retries: nat)
    decreases |answers|
  {
    answers != [] ==>
      && Permits(c, statuses, Have(part), answers[0])
      && var (now, next) := Round(part, stalls, answers[0], expected, retries);
        (next.Again? ==> KindRun(c, statuses, now, next.stalls, answers[1..], expected, retries))
  }

  lemma {:induction false} HonouringIsKind(c: Bytes, part: Option<Bytes>, stalls: nat, answers: seq<Answer>, expected: nat, retries: nat)
    requires HonouringRun(c, part, stalls, answers, expected, retries)
    ensures KindRun(c, {206}, part, stalls, answers, expected, retries)
    decreases |answers|
  {
    if answers != [] {
      var (now, next) := Round(part, stalls, answers[0], expected, retries);
      if next.Again? { HonouringIsKind(c, now, next.stalls, answers[1..], expected, retries); }
    }
  }

  /** Bytes still missing first, stalls left before the limit second, as one number. */
  function Measure(c: Bytes, have: nat, stalls: nat, retries: nat): (m: int)
  {
    (|c| - have) * (retries + 1) + retries - stalls
  }

  lemma {:induction false} ProgressPays(missing: nat, less: nat, retries: nat)
    requires less < missing
    ensures less * (retries + 1) + retries < missing * (retries + 1)
  {
    var gap := missing - less;
    assert missing * (retries + 1) == less * (retries + 1) + gap * (retries + 1);
    assert gap * (retries + 1) >= retries + 1 by { if gap > 1 { assert (gap - 1) * (retries + 1) >= 0; } }
  }

  /** No body throws received bytes away, or no stall is forgiven, or there is nothing to receive. */
  predicate NothingLost(c: Bytes, statuses: set<int>, retries: nat) {
    statuses <= {206} || retries == 0 || c == []
  }

  lemma {:induction false} RoundLowersMeasure(c: Bytes, statuses: set<int>, part: Option<Bytes>, stalls: nat, a: Answer, expected: nat, retries: nat)
    requires PartOf(part, c) && stalls <= retries && NothingLost(c, statuses, retries) && Permits(c, statuses, Have(part), a)
    requires Round(part, stalls, a, expected, retries).1.Again?
    ensures var (now, next) := Round(part, stalls, a, expected, retries);
      next.stalls <= retries && 0 <= Measure(c, Have(now), next.stalls, retries) < Measure(c, Have(part), stalls, retries)
  {
    hide Joined, Measure;
    RoundKeepsPrefix(c, part, stalls, a, expected, retries);
    var (now, next) := Round(part, stalls, a, expected, retries);
    assert next.stalls <= retries && (Have(now) > Have(part) || (Have(now) == Have(part) && next.stalls > stalls));
    hide Round, NothingLost, Permits;
    MeasureFalls(c, Have(part), Have(now), stalls, next.stalls, retries);
  }

  lemma {:induction false} MeasureFalls(c: Bytes, have: nat, now: nat, stalls: nat, next: nat, retries: nat)
    requires have <= |c| && now <= |c| && stalls <= retries && next <= retries
    requires now > have || (now == have && next > stalls)
    ensures 0 <= Measure(c, now, next, retries) < Measure(c, have, stalls, retries)
  {
    assert (|c| - now) * (retries + 1) >= 0;
    if now > have { ProgressPays(|c| - have, |c| - now, retries); }
  }

  /**
   Termination: against a server that answers a Range request with 206 or an error the loop has
   ended by the time (missing bytes + 1) * (retries + 1) answers came, although progress resets
   the stall counter.
   */
  lemma {:induction false} DownloadEnds(c: Bytes, statuses: set<int>, part: Option<Bytes>, stalls: nat, answers: seq<Answer>, expected: nat, retries: nat)
    requires PartOf(part, c) && stalls <= retries && NothingLost(c, statuses, retries)
    requires KindRun(c, statuses, part, stalls, answers, expected, retries)
    requires |answers| > Measure(c, Have(part), stalls, retries) >= 0
    ensures Loop(part, stalls, answers, expected, retries).0 != StillRunning
    decreases |answers|
  {
    hide Measure, Joined, NothingLost, PartOf, Honest;
    var (now, next) := Round(part, stalls, answers[0], expected, retries);
    if next.Again? {
      RoundKeepsPrefix(c, part, stalls, answers[0], expected, retries);
      RoundLowersMeasure(c, statuses, part, stalls, answers[0], expected, retries);
      DownloadEnds(c, statuses, now, next.stalls, answers[1..], expected, retries);
    }
  }

  lemma {:induction false} DownloadBound(c: Bytes, statuses: set<int>, part: Option<Bytes>, answers: seq<Answer>, expected: nat, retries: nat)
    requires PartOf(part, c) && NothingLost(c, statuses, retries)
    requires KindRun(c, statuses, part, 0, answers, expected, retries)
    requires |answers| >= (|c| - Have(part) + 1) * (retries + 1)
    ensures Loop(part, 0, answers, expected, retries).0 != StillRunning
  {
    var missing := |c| - Have(part);
    assert (missing + 1) * (retries + 1) == missing * (retries + 1) + retries + 1;
    assert missing * (retries + 1) >= 0;
    DownloadEnds(c, statuses, part, 0, answers, expected, retries);
  }

  /** An empty body and a body of one byte in turn, both from the start of the file. */
  function Restarts(c: Bytes, status: int, n: nat): (answers: seq<Answer>)
    requires c != []
    ensures |answers| == 2 * n
  {
    if n == 0 then [] else [Body(status, [], true), Body(status, [c[..1]], true)] + Restarts(c, status, n - 1)
  }

  /** The loop never ends when any status but 206 restarts the file: every second body counts as progress. */
  lemma {:induction false} RestartsRunForever(c: Bytes, statuses: set<int>, status: int, part: Option<Bytes>, n: nat, expected: nat, retries: nat)
    requires c != [] && retries > 0 && status in statuses && status != 206
    ensures KindRun(c, statuses, part, 0, Restarts(c, status, n), expected, retries)
    ensures Loop(part, 0, Restarts(c, status, n), expected, retries).0 == StillRunning
    decreases n
  {
    if n > 0 {
      JoinedOne(c[..1]);
      assert Joined([]) == [];
      var answers := Restarts(c, status, n);
      var (p1, n1) := Round(part, 0, answers[0], expected, retries);
      assert p1 == Some([]) && n1 == Again(1);
      var (p2, n2) := Round(p1, 1, answers[1], expected, retries);
      assert p2 == Some(c[..1]) && n2 == Again(0);
      assert answers[1..][1..] == Restarts(c, status, n - 1) && answers[1..][0] == answers[1];
      RestartsRunForever(c, statuses, status, p2, n - 1, expected, retries);
      assert KindRun(c, statuses, p1, 1, answers[1..], expected, retries);
    }
  }

  /** From this `.part`, every run of the kind with n answers has ended. */
  ghost predicate EndsWithin(c: Bytes, statuses: set<int>, part: Option<Bytes>, expected: nat, retries: nat, n: nat) {
    forall answers: seq<Answer> :: |answers| >= n && KindRun(c, statuses, part, 0, answers, expected, retries) ==>
      Loop(part, 0, answers, expected, retries).0 != StillRunning
  }

  /**
   Exactly which kinds of server end the loop: every long enough run ends if and only if a Range
   request is answered with 206 or an error, or no retry is configured, or the file is empty.
   */
  lemma {:induction false} AlwaysEndsIff(c: Bytes, statuses: set<int>, part: Option<Bytes>, expected: nat, retries: nat)
    requires PartOf(part, c)
    ensures (exists n: nat :: EndsWithin(c, statuses, part, expected, retries, n)) <==>
      statuses <= {206} || retries == 0 || c == []
  {
    hide KindRun, Loop, Round;
    if retries > 0 && c != [] && exists status :: status in statuses && status != 206 {
      var status :| status in statuses && status != 206;
      forall n: nat ensures !EndsWithin(c, statuses, part, expected, retries, n) {
        RestartsRunForever(c, statuses, status, part, n, expected, retries);
        assert |Restarts(c, status, n)| >= n;
      }
    } else {
      assert NothingLost(c, statuses, retries);
      var missing := |c| - Have(part);
      assert (missing + 1) * (retries + 1) >= 0;
      var n := (missing + 1) * (retries + 1);
      forall answers: seq<Answer> | |answers| >= n && KindRun(c, statuses, part, 0, answers, expected, retries)
        ensures Loop(part, 0, answers, expected, retries).0 != StillRunning
      {
        DownloadBound(c, statuses, part, answers, expected, retries);
      }
      assert EndsWithin(c, statuses, part, expected, retries, n);
    }
  }

  // ---- a `.part` of exactly the published size ----------------------------------------------------

  /** It is not discarded, the request asks behind the end, and no run of any length finishes. */
  lemma {:induction false} FullPartNeverFinishes(c: Bytes, part: Option<Bytes>, stalls: nat, answers: seq<Answer>, retries: nat)
    requires |c| > 0 && Have(part) == |c| && HonouringRun(c, part, stalls, answers, |c|, retries)
    ensures Kept(part, |c|) == part
    ensures Loop(part, stalls, answers, |c|, retries).0 != Finished
    decreases |answers|
  {
    if answers != [] {
      var (now, next) := Round(part, stalls, answers[0], |c|, retries);
      if next.Again? { FullPartNeverFinishes(c, part, next.stalls, answers[1..], retries); }
    }
  }

  /** What an undisturbed server that honours Range sends. */
  function Undisturbed(c: Bytes, have: nat): (a: Answer)
  {
    if have == 0 then Body(200, if c == [] then [] else [c], false)
    else if have < |c| then Body(206, [c[have..]], false)
    else HttpError(416)
  }

  /** On an undisturbed link one request finishes the file, unless `.part` already has its full size. */
  lemma {:induction false} FinishesIffPartNotFull(c: Bytes, part: Option<Bytes>, retries: nat)
    requires c != [] && (Have(part) <= |c| ==> PartOf(part, c))
    ensures var kept := Kept(part, |c|);
      (Loop(kept, 0, [Undisturbed(c, Have(kept))], |c|, retries) == (Finished, Some(c))) <==> Have(part) != |c|
  {
    var kept := Kept(part, |c|);
    var have := Have(kept);
    var a := Undisturbed(c, have);
    if have == 0 {
      JoinedOne(c);
      assert [] + c == c;
    } else if have < |c| {
      JoinedOne(c[have..]);
      assert kept.value + c[have..] == c;
    }
    assert [a][0] == a && [a][1..] == [];
  }

  // ---- the files on disk ---------------------------------------------------------------------------

  /** One target and its `.part` on disk. */
  class Files {
    var part: Option<Bytes>
    var target: Option<Bytes>

    constructor (part: Option<Bytes>, target: Option<Bytes>)
      ensures this.part == part && this.target == target
    {
      this.part, this.target := part, target;
    }

    /** `Hub.download`: renames `.part` to the target on success, and touches nothing else. */
    method Fetch(expected: nat, retries: nat, answers: seq<Answer>) returns (outcome: Outcome)
      modifies this
      ensures var (o, now) := Loop(Kept(old(part), expected), 0, answers, expected, retries);
        && outcome == o
        && (o == Finished && now.Some? ==> target == now && part == None)
        && (o != Finished ==> target == old(target) && part == now)
      ensures outcome == Finished ==> target.Some? && part.None?
    {
      var have := Have(part);
      if expected != 0 && have > expected {
        part := None;
        have := 0;
      }
      var stalls, i := 0, 0;
      while true
        invariant i <= |answers| && have == Have(part) && target == old(target)
        invariant Loop(part, stalls, answers[i..], expected, retries) == Loop(Kept(old(part), expected), 0, answers, expected, retries)
        decreases |answers| - i
      {
        if i == |answers| {
          return StillRunning;
        }
        var before, a := have, answers[i];
        ghost var p := part;
        assert answers[i..][0] == a && answers[i..][1..] == answers[i + 1..];
        i := i + 1;
        var failed := true;
        match a {
          case HttpError(code) =>
            return Refused(code);
          case Unreachable =>
          case Body(status, chunks, dropped) =>
            ReadBody(status, chunks);
            have := Have(part);
            failed := dropped;
        }
        if !failed && (expected == 0 || have >= expected) {
          break;
        }
        stalls := if have > before then 0 else stalls + 1;
        if stalls > retries {
          return Stalled;
        }
      }
      if expected != 0 && have != expected {
        return WrongSize;
      }
      target, part := part, None;
      outcome := Finished;
    }

    /** The inner loop: opened to append or afresh, then one write per chunk. */
    method ReadBody(status: int, chunks: seq<Chunk>)
      modifies this
      ensures target == old(target) && part == Some(Received(old(part), Body(status, chunks, true)))
    {
      var have := Have(part);
      var handle := if have > 0 && status == 206 then part.value else [];
      part := Some(handle);
      assert handle + Joined(chunks[..0]) == handle;
      for i := 0 to |chunks|
        invariant target == old(target) && part == Some(handle + Joined(chunks[..i]))
      {
        assert chunks[..i + 1][..i] == chunks[..i];
        assert handle + Joined(chunks[..i + 1]) == handle + Joined(chunks[..i]) + chunks[i];
        part := Some(part.value + chunks[i]);
      }
      assert chunks[..|chunks|] == chunks;
    }
  }
}
