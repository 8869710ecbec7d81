/**
 Sign-in throttling: 10 failures per 15 minutes per email and per address
 (apps/api/slas_api/throttle.py). The sliding window in memory, the fixed window in Redis,
 and the history of calls both are measured against. Times are whole seconds.
 */
module Throttle {
  import opened Options

  const FAILURE_LIMIT := 10
  const WINDOW := 15 * 60

  datatype Key = Email(digest: string) | Address(address: string)

  /** One call that changes the counters. */
  datatype Op = Failed(at: int, email: Key, address: Key) | Cleared(at: int, email: Key)

  predicate Touches(op: Op, k: Key) {
    op.email == k || (op.Failed? && op.address == k)
  }

  /** The failures of a key since it was last cleared. */
  function Failures(h: seq<Op>, k: Key): (r: seq<int>)
  {
    if h == [] then []
    else
      var op, before := h[|h| - 1], Failures(h[..|h| - 1], k);
      if op.Cleared? then (if op.email == k then [] else before)
      else if Touches(op, k) then before + [op.at] else before
  }

  /** Keys of an email and of an address never coincide; calls come in order of time. */
  ghost predicate WellFormed(h: seq<Op>) {
    && (forall i :: 0 <= i < |h| ==> h[i].email.Email? && (h[i].Failed? ==> h[i].address.Address?))
    && (forall i, j :: 0 <= i < j < |h| ==> h[i].at <= h[j].at)
  }

  function Recent(times: seq<int>, now: int): (r: seq<int>)
  {
    if times == [] then []
    else
      var rest := Recent(times[..|times| - 1], now);
      if times[|times| - 1] > now - WINDOW then rest + [times[|times| - 1]] else rest
  }

  predicate Blocks(h: seq<Op>, k: Key, now: int) {
    |Recent(Failures(h, k), now)| >= FAILURE_LIMIT
  }

  lemma {:induction false} RecentSnoc(times: seq<int>, at: int, now: int)
    ensures Recent(times + [at], now) == if at > now - WINDOW then Recent(times, now) + [at] else Recent(times, now)
  {
    assert (times + [at])[..|times + [at]| - 1] == times;
  }

  /** What was pruned earlier would be pruned now. */
  lemma {:induction false} RecentOfRecent(times: seq<int>, then_: int, now: int)
    requires then_ <= now
    ensures Recent(Recent(times, then_), now) == Recent(times, now)
  {
    if times != [] {
      RecentOfRecent(times[..|times| - 1], then_, now);
      RecentSnoc(Recent(times[..|times| - 1], then_), times[|times| - 1], now);
    }
  }

  lemma {:induction false} FailuresSnoc(h: seq<Op>, op: Op, k: Key)
    ensures Failures(h + [op], k) ==
      if op.Cleared? then (if op.email == k then [] else Failures(h, k))
      else if Touches(op, k) then Failures(h, k) + [op.at] else Failures(h, k)
  {
    assert (h + [op])[..|h + [op]| - 1] == h;
  }

  /** Call i is a failure of this key at or behind the instant `since`, and no later call clears the key. */
  predicate Stands(h: seq<Op>, k: Key, since: int, i: nat) {
    && i < |h| && h[i].Failed? && (h[i].email == k || h[i].address == k) && h[i].at > since
    && forall j :: i < j < |h| ==> !(h[j].Cleared? && h[j].email == k)
  }

  ghost function Standing(h: seq<Op>, k: Key, since: int): (s: set<nat>)
  {
    set i: nat | i < |h| && Stands(h, k, since, i)
  }

  lemma {:induction false} RecentAreStanding(h: seq<Op>, k: Key, now: int)
    ensures |Recent(Failures(h, k), now)| == |Standing(h, k, now - 900)|
  {
    var since := now - 900;
    var all := Standing(h, k, since);
    if h != [] {
      var n := |h| - 1;
      var p, op := h[..n], h[n];
      RecentAreStanding(p, k, now);
      assert p + [op] == h;
      FailuresSnoc(p, op, k);
      RecentSnoc(Failures(p, k), op.at, now);
      hide Failures, Recent;
      StandingMore(p, op, k, since);
    } else {
      assert all == {};
    }
  }

  lemma {:induction false} StandingMore(p: seq<Op>, op: Op, k: Key, since: int)
    ensures |Standing(p + [op], k, since)| ==
      if op.Cleared? && op.email == k then 0
      else |Standing(p, k, since)| + if op.Failed? && (op.email == k || op.address == k) && op.at > since then 1 else 0
  {
    hide Stands;
    var h, n := p + [op], |p|;
    var clears := op.Cleared? && op.email == k;
    var before, all := if clears then {} else Standing(p, k, since), Standing(h, k, since);
    StandsLast(p, op, k, since);
    var adds := Stands(h, k, since, n);
    forall i: nat ensures i in all <==> i in before || (adds && i == n) {
      if i < n { StandsEarlier(p, op, k, since, i); }
    }
    hide *;
    OneMore(before, all, n, adds);
  }

  lemma {:induction false} OneMore(before: set<nat>, all: set<nat>, n: nat, adds: bool)
    requires n !in before && forall i: nat :: i in all <==> i in before || (adds && i == n)
    ensures |all| == |before| + if adds then 1 else 0
  {
    assert all == before + if adds then {n} else {};
  }

  lemma {:induction false} StandsEarlier(p: seq<Op>, op: Op, k: Key, since: int, i: nat)
    requires i < |p|
    ensures Stands(p + [op], k, since, i) <==> Stands(p, k, since, i) && !(op.Cleared? && op.email == k)
  {
    var h := p + [op];
    assert h[|p|] == op && forall j :: i <= j < |p| ==> h[j] == p[j];
  }

  lemma {:induction false} StandsLast(p: seq<Op>, op: Op, k: Key, since: int)
    ensures Stands(p + [op], k, since, |p|) <==> op.Failed? && (op.email == k || op.address == k) && op.at > since
  {
  }

  /** The sliding window blocks exactly on ten failures of the key in the last 15 minutes that no clear came behind. */
  lemma {:induction false} BlocksIff(h: seq<Op>, k: Key, now: int)
    ensures Blocks(h, k, now) <==> |Standing(h, k, now - 900)| >= 10
  {
    RecentAreStanding(h, k, now);
  }

  datatype Answer = Blocked | Open | Unavailable

  type Table = map<Key, seq<int>>

  function Times(counts: Table, k: Key): (r: seq<int>)
  {
    if k in counts then counts[k] else []
  }

  /** From the clock on, the stored times count exactly like all failures since the last clear. */
  ghost predicate Faithful(counts: Table, h: seq<Op>, clock: int) {
    && WellFormed(h) && (forall i :: 0 <= i < |h| ==> h[i].at <= clock)
    && forall k, now :: now >= clock ==> Recent(Times(counts, k), now) == Recent(Failures(h, k), now)
  }

  lemma {:induction false} PruneKeeps(counts: Table, h: seq<Op>, clock: int, k: Key, now: int)
    requires Faithful(counts, h, clock) && now >= clock
    ensures Faithful(counts[k := Recent(Times(counts, k), now)], h, now)
    ensures Recent(Times(counts, k), now) == Recent(Failures(h, k), now)
  {
    var after := counts[k := Recent(Times(counts, k), now)];
    forall x, t | t >= now ensures Recent(Times(after, x), t) == Recent(Failures(h, x), t) {
      if x == k { RecentOfRecent(Times(counts, k), now, t); } else { assert Times(after, x) == Times(counts, x); }
    }
  }

  lemma {:induction false} OneMoreCall(h: seq<Op>, op: Op, clock: int)
    requires WellFormed(h) && (forall i :: 0 <= i < |h| ==> h[i].at <= clock) && clock <= op.at
    requires op.email.Email? && (op.Failed? ==> op.address.Address?)
    ensures WellFormed(h + [op]) && forall i :: 0 <= i < |h + [op]| ==> (h + [op])[i].at <= op.at
  {
  }

  /** Pruned lists with the new failure behind them. */
  function Pushed(counts: Table, k: Key, now: int): (r: Table)
  {
    counts[k := Recent(Times(counts, k), now) + [now]]
  }

  lemma {:induction false} FailureKeeps(counts: Table, h: seq<Op>, clock: int, e: Key, a: Key, now: int)
    requires Faithful(counts, h, clock) && now >= clock && e.Email? && a.Address?
    ensures Faithful(Pushed(Pushed(counts, e, now), a, now), h + [Failed(now, e, a)], now)
  {
    hide Recent, Failures, WellFormed;
    var after, h' := Pushed(Pushed(counts, e, now), a, now), h + [Failed(now, e, a)];
    OneMoreCall(h, Failed(now, e, a), clock);
    forall k, t | t >= now ensures Recent(Times(after, k), t) == Recent(Failures(h', k), t) {
      FailuresSnoc(h, Failed(now, e, a), k);
      if k == e || k == a {
        assert Times(after, k) == Recent(Times(counts, k), now) + [now];
        RecentSnoc(Recent(Times(counts, k), now), now, t);
        RecentOfRecent(Times(counts, k), now, t);
        RecentSnoc(Failures(h, k), now, t);
      } else {
        assert Times(after, k) == Times(counts, k);
      }
    }
  }

  lemma {:induction false} ClearKeeps(counts: Table, h: seq<Op>, clock: int, e: Key, now: int)
    requires Faithful(counts, h, clock) && now >= clock && e.Email?
    ensures Faithful(counts - {e}, h + [Cleared(now, e)], now)
  {
    hide Recent, Failures, WellFormed;
    var h', after := h + [Cleared(now, e)], counts - {e};
    OneMoreCall(h, Cleared(now, e), clock);
    forall k, t | t >= now ensures Recent(Times(after, k), t) == Recent(Failures(h', k), t) {
      FailuresSnoc(h, Cleared(now, e), k);
      assert k != e ==> Times(after, k) == Times(counts, k);
    }
  }

  /** `MemoryThrottle`: lists of times per key, pruned whenever they are looked at. */
  class MemoryThrottle {
    const digest: string -> string
    var counts: Table
    var available: bool
    ghost var history: seq<Op>
    ghost var clock: int

    constructor (digest: string -> string, ghost now: int)
      ensures Valid() && history == [] && available && this.digest == digest
    {
      this.digest := digest;
      counts, available := map[], true;
      history, clock := [], now;
    }

    function EmailKey(email: string): (k: Key) { Email(digest(email)) }

    ghost predicate Valid()
      reads this
    {
      Faithful(counts, history, clock)
    }

    method Live(k: Key, now: int) returns (kept: seq<int>)
      modifies `counts
      ensures kept == Recent(Times(old(counts), k), now) && counts == old(counts)[k := kept]
    {
      kept := [];
      var stored := Times(counts, k);
      for i := 0 to |stored|
        invariant kept == Recent(stored[..i], now) && counts == old(counts)
      {
        assert stored[..i + 1] == stored[..i] + [stored[i]];
        RecentSnoc(stored[..i], stored[i], now);
        if stored[i] > now - WINDOW { kept := kept + [stored[i]]; }
      }
      assert stored[..|stored|] == stored;
      counts := counts[k := kept];
    }

    /** Blocks exactly when 10 or more failures since the last clear lie in the last 15 minutes, for either key. */
    method IsBlocked(email: string, address: string, now: int) returns (r: Answer)
      requires Valid() && now >= clock
      modifies `counts, `clock
      ensures Valid() && history == old(history) && available == old(available)
      ensures r == Unavailable <==> !available
      ensures available ==>
        (r == Blocked <==> Blocks(history, EmailKey(email), now) || Blocks(history, Address(address), now))
    {
      if !available { return Unavailable; }
      hide Recent, Failures;
      PruneKeeps(counts, history, clock, EmailKey(email), now);
      var kept := Live(EmailKey(email), now);
      clock := now;
      if |kept| >= FAILURE_LIMIT { return Blocked; }
      PruneKeeps(counts, history, clock, Address(address), now);
      kept := Live(Address(address), now);
      r := if |kept| >= FAILURE_LIMIT then Blocked else Open;
    }

    /** One key of a failure: prune, then append the time. */
    method Push(k: Key, now: int)
      modifies `counts
      ensures counts == Pushed(old(counts), k, now)
    {
      hide Recent;
      var kept := Live(k, now);
      counts := counts[k := kept + [now]];
      assert counts == old(counts)[k := kept + [now]];
    }

    method RecordFailure(email: string, address: string, now: int) returns (ok: bool)
      requires Valid() && now >= clock
      modifies `counts, `clock, `history
      ensures Valid() && ok == available && available == old(available)
      ensures history == if available then old(history) + [Failed(now, EmailKey(email), Address(address))] else old(history)
    {
      if !available { return false; }
      FailureKeeps(counts, history, clock, EmailKey(email), Address(address), now);
      hide Recent, Faithful, Pushed;
      Push(EmailKey(email), now);
      Push(Address(address), now);
      history := history + [Failed(now, EmailKey(email), Address(address))];
      clock := now;
      ok := true;
    }

    method Clear(email: string, now: int) returns (ok: bool)
      requires Valid() && now >= clock
      modifies `counts, `clock, `history
      ensures Valid() && ok == available && available == old(available)
      ensures history == if available then old(history) + [Cleared(now, EmailKey(email))] else old(history)
    {
      if !available { return false; }
      var e := EmailKey(email);
      ClearKeeps(counts, history, clock, e, now);
      hide Faithful;
      counts := counts - {e};
      history := history + [Cleared(now, e)];
      clock := now;
      ok := true;
    }
  }

  // ---- the fixed window -------------------------------------------------------------------------

  /** A Redis counter: its value and the instant its key expires. */
  datatype Counter = Counter(count: nat, expires: int)

  type Counters = map<Key, Counter>

  function Value(c: Counters, k: Key, now: int): (n: nat)
  {
    if k in c && now < c[k].expires then c[k].count else 0
  }

  /** INCR, then EXPIRE with NX: an expired or missing key starts a new window. */
  function Incr(c: Counters, k: Key, now: int): (c': Counters)
  {
    if k in c && now < c[k].expires then c[k := Counter(c[k].count + 1, c[k].expires)]
    else c[k := Counter(1, now + WINDOW)]
  }

  function Applied(c: Counters, op: Op): (c': Counters)
  {
    match op
    case Failed(at, e, a) => Incr(Incr(c, e, at), a, at)
    case Cleared(_, e) => c - {e}
  }

  function CountersAfter(h: seq<Op>): (c: Counters)
  {
    if h == [] then map[] else Applied(CountersAfter(h[..|h| - 1]), h[|h| - 1])
  }

  predicate RedisBlocks(h: seq<Op>, k: Key, now: int) {
    Value(CountersAfter(h), k, now) >= FAILURE_LIMIT
  }

  /** `RedisThrottle` over that table. */
  class RedisThrottle {
    const digest: string -> string
    var counters: Counters
    var reachable: bool
    ghost var history: seq<Op>

    constructor (digest: string -> string)
      ensures Valid() && history == [] && this.digest == digest
    {
      this.digest := digest;
      counters, reachable, history := map[], true, [];
    }

    ghost predicate Valid()
      reads this
    {
      counters == CountersAfter(history)
    }

    method IsBlocked(email: string, address: string, now: int) returns (r: Answer)
      requires Valid()
      ensures r == Unavailable <==> !reachable
      ensures reachable ==>
        (r == Blocked <==> RedisBlocks(history, Email(digest(email)), now) || RedisBlocks(history, Address(address), now))
    {
      if !reachable { return Unavailable; }
      var blocked := Value(counters, Email(digest(email)), now) >= FAILURE_LIMIT || Value(counters, Address(address), now) >= FAILURE_LIMIT;
      r := if blocked then Blocked else Open;
    }

    method RecordFailure(email: string, address: string, now: int) returns (ok: bool)
      requires Valid()
      modifies `counters, `history
      ensures Valid() && ok == reachable
      ensures history == if reachable then old(history) + [Failed(now, Email(digest(email)), Address(address))] else old(history)
    {
      if !reachable { return false; }
      ghost var h := history;
      counters := Incr(counters, Email(digest(email)), now);
      counters := Incr(counters, Address(address), now);
      history := history + [Failed(now, Email(digest(email)), Address(address))];
      assert history[..|history| - 1] == h;
      ok := true;
    }

    method Clear(email: string, now: int) returns (ok: bool)
      requires Valid()
      modifies `counters, `history
      ensures Valid() && ok == reachable
      ensures history == if reachable then old(history) + [Cleared(now, Email(digest(email)))] else old(history)
    {
      if !reachable { return false; }
      ghost var h := history;
      counters := counters - {Email(digest(email))};
      history := history + [Cleared(now, Email(digest(email)))];
      assert history[..|history| - 1] == h;
      ok := true;
    }
  }

  // ---- the fixed window is the weaker one ---------------------------------------------------------

  /** The last `n` failures all lie at or behind `since`. */
  ghost predicate LastAt(times: seq<int>, n: nat, since: int) {
    n <= |times| && forall i :: |times| - n <= i < |times| ==> times[i] >= since
  }

  /** Where the fixed window begins: at the first failure, and again at the first one behind each window. */
  function WindowStart(times: seq<int>): (start: Option<int>)
  {
    if times == [] then None
    else
      var before, t := WindowStart(times[..|times| - 1]), times[|times| - 1];
      if before.Some? && t < before.value + WINDOW then before else Some(t)
  }

  /** How many of the failures lie at or behind an instant. */
  function Since(times: seq<int>, start: int): (n: nat)
  {
    if times == [] then 0 else Since(times[..|times| - 1], start) + if times[|times| - 1] >= start then 1 else 0
  }

  lemma {:induction false} SinceSnoc(times: seq<int>, at: int, start: int)
    ensures Since(times + [at], start) == Since(times, start) + if at >= start then 1 else 0
    ensures WindowStart(times + [at]) ==
      if WindowStart(times).Some? && at < WindowStart(times).value + WINDOW then WindowStart(times) else Some(at)
  {
    assert (times + [at])[..|times + [at]| - 1] == times;
  }

  lemma {:induction false} NoneSince(times: seq<int>, start: int)
    requires forall i :: 0 <= i < |times| ==> times[i] < start
    ensures Since(times, start) == 0
  {
    if times != [] { NoneSince(times[..|times| - 1], start); }
  }

  /** A counter belongs to the window the failures open, holds them all, and counts those of that window. */
  ghost predicate Counts(c: Counters, k: Key, times: seq<int>) {
    && (k in c <==> times != [])
    && (k in c ==>
          && WindowStart(times) == Some(c[k].expires - WINDOW)
          && c[k].count == Since(times, c[k].expires - WINDOW)
          && LastAt(times, c[k].count, c[k].expires - WINDOW)
          && forall i :: 0 <= i < |times| ==> times[i] < c[k].expires)
  }

  /** A counter counts exactly the failures of its own window, all of them since the last clear. */
  lemma {:induction false} CounterCountsFailures(h: seq<Op>, k: Key)
    requires WellFormed(h)
    ensures Counts(CountersAfter(h), k, Failures(h, k))
    ensures k in CountersAfter(h) && h != [] ==> CountersAfter(h)[k].expires - WINDOW <= h[|h| - 1].at
  {
    hide Failures, Counts, Applied, WellFormed;
    if h != [] {
      var p, op := h[..|h| - 1], h[|h| - 1];
      EarlierWellFormed(h);
      CounterCountsFailures(p, k);
      assert p + [op] == h;
      FailuresSnoc(p, op, k);
      CounterStep(CountersAfter(p), Failures(p, k), op, k);
    } else {
      NothingCounted(k);
    }
  }

  lemma {:induction false} EarlierWellFormed(h: seq<Op>)
    requires WellFormed(h) && h != []
    ensures var p, op := h[..|h| - 1], h[|h| - 1];
      && WellFormed(p) && (p != [] ==> p[|p| - 1].at <= op.at)
      && op.email.Email? && (op.Failed? ==> op.address.Address?)
  {
  }

  lemma {:induction false} NothingCounted(k: Key)
    ensures Counts(CountersAfter([]), k, Failures([], k)) && k !in CountersAfter([])
  {
  }

  /** One call keeps a counter the count of its own window. */
  lemma {:induction false} CounterStep(c: Counters, times: seq<int>, op: Op, k: Key)
    requires op.email.Email? && (op.Failed? ==> op.address.Address?)
    requires Counts(c, k, times) && (k in c ==> c[k].expires - WINDOW <= op.at)
    ensures var now, c' := (if op.Cleared? then (if op.email == k then [] else times) else if Touches(op, k) then times + [op.at] else times), Applied(c, op);
      Counts(c', k, now) && (k in c' ==> c'[k].expires - WINDOW <= op.at)
  {
    if op.Failed? && Touches(op, k) {
      var c' := Applied(c, op);
      SinceSnoc(times, op.at, c'[k].expires - WINDOW);
      if c'[k].count == 1 && !(k in c && op.at < c[k].expires) { NoneSince(times, op.at); }
    }
  }

  lemma {:induction false} RecentKeepsLast(times: seq<int>, n: nat, since: int, now: int)
    requires LastAt(times, n, since) && since > now - WINDOW
    ensures |Recent(times, now)| >= n
  {
    if n > 0 {
      RecentKeepsLast(times[..|times| - 1], n - 1, since, now);
    }
  }

  /** Whenever the Redis counter blocks, the sliding window blocks too. */
  lemma {:induction false} RedisBlocksOnlyIfWindowBlocks(h: seq<Op>, k: Key, now: int)
    requires WellFormed(h) && RedisBlocks(h, k, now)
    ensures Blocks(h, k, now)
  {
    CounterCountsFailures(h, k);
    var c := CountersAfter(h)[k];
    RecentKeepsLast(Failures(h, k), c.count, c.expires - WINDOW, now);
  }

  // ---- when the two agree ---------------------------------------------------------------------------

  /** The fixed window is still open, and ten of these failures lie in it. */
  predicate TenInWindow(failures: seq<int>, times: seq<int>, now: int) {
    && WindowStart(failures).Some? && now < WindowStart(failures).value + WINDOW
    && Since(times, WindowStart(failures).value) >= FAILURE_LIMIT
  }

  /** The Redis counter blocks if and only if its window is open and ten failures since the last clear lie in it. */
  lemma {:induction false} RedisBlocksIff(h: seq<Op>, k: Key, now: int)
    requires WellFormed(h)
    ensures RedisBlocks(h, k, now) <==> TenInWindow(Failures(h, k), Failures(h, k), now)
  {
    hide WellFormed, Failures, CountersAfter;
    CounterCountsFailures(h, k);
  }

  lemma {:induction false} SinceOfRecent(times: seq<int>, start: int, now: int)
    requires start > now - WINDOW
    ensures Since(Recent(times, now), start) == Since(times, start)
  {
    if times != [] {
      var p, t := times[..|times| - 1], times[|times| - 1];
      SinceOfRecent(p, start, now);
      SinceSnoc(Recent(p, now), t, start);
    }
  }

  /**
   The two throttles give one answer for a key if and only if the sliding window does not block,
   or ten of the recent failures lie in the fixed window and that window is still open.
   */
  lemma {:induction false} ThrottlesAgreeIff(h: seq<Op>, k: Key, now: int)
    requires WellFormed(h)
    ensures (RedisBlocks(h, k, now) <==> Blocks(h, k, now)) <==>
      !Blocks(h, k, now) || TenInWindow(Failures(h, k), Recent(Failures(h, k), now), now)
  {
    hide WellFormed, Failures, CountersAfter, Recent, Since;
    var f := Failures(h, k);
    RedisBlocksIff(h, k, now);
    if RedisBlocks(h, k, now) { RedisBlocksOnlyIfWindowBlocks(h, k, now); }
    if WindowStart(f).Some? && now < WindowStart(f).value + WINDOW { SinceOfRecent(f, WindowStart(f).value, now); }
  }

  // ---- and strictly so --------------------------------------------------------------------------

  const E := Email("e")
  const A := Address("a")

  /** One failure at 0, then `n` failures at 800. */
  function Burst(n: nat): (h: seq<Op>)
    ensures |h| == n + 1
  {
    if n == 0 then [Failed(0, E, A)] else Burst(n - 1) + [Failed(800, E, A)]
  }

  lemma {:induction false} BurstCounters(n: nat)
    ensures var c := CountersAfter(Burst(n));
      E in c && A in c && c[E] == Counter(n + 1, WINDOW) && c[A] == Counter(n + 1, WINDOW)
  {
    if n > 0 {
      BurstCounters(n - 1);
      assert Burst(n)[..n] == Burst(n - 1);
      hide Burst;
      assert CountersAfter(Burst(n)) == Applied(CountersAfter(Burst(n - 1)), Failed(800, E, A));
    } else {
      assert Burst(0)[..0] == [];
    }
  }

  lemma {:induction false} BurstFailures(n: nat)
    ensures |Recent(Failures(Burst(n), E), 900)| == n
  {
    if n > 0 {
      BurstFailures(n - 1);
      FailuresSnoc(Burst(n - 1), Failed(800, E, A), E);
      RecentSnoc(Failures(Burst(n - 1), E), 800, 900);
    } else {
      FailuresSnoc([], Failed(0, E, A), E);
      assert [] + [Failed(0, E, A)] == Burst(0) && Failures([], E) == [];
      RecentSnoc([], 0, 900);
    }
  }

  lemma {:induction false} BurstOrdered(n: nat)
    ensures WellFormed(Burst(n)) && forall i :: 0 <= i <= n ==> Burst(n)[i].at <= 800
  {
    if n > 0 { BurstOrdered(n - 1); }
  }

  /** This history is blocked by the sliding window and not by the Redis counter. */
  lemma {:induction false} WindowCanBlockAlone() returns (h: seq<Op>)
    ensures WellFormed(h) && Blocks(h, E, 900) && !RedisBlocks(h, E, 900) && !RedisBlocks(h, A, 900)
  {
    BurstCounters(9);
    BurstFailures(9);
    BurstOrdered(9);
    var b, op := Burst(9), Failed(900, E, A);
    h := b + [op];
    assert h[..|h| - 1] == b;
    FailuresSnoc(b, op, E);
    RecentSnoc(Failures(b, E), 900, 900);
    hide Burst, Failures, Recent;
    var c := CountersAfter(b);
    assert CountersAfter(h) == Applied(c, op);
    assert Incr(c, E, 900) == c[E := Counter(1, 900 + WINDOW)];
    assert Incr(Incr(c, E, 900), A, 900) == c[E := Counter(1, 900 + WINDOW)][A := Counter(1, 900 + WINDOW)];
    forall i, j | 0 <= i < j < |h| ensures h[i].at <= h[j].at {
      if j == |b| { assert h[i] == b[i]; }
    }
  }
}
