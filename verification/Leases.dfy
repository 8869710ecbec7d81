/**
 Exclusive leases on targets and stations (packages/slas-kernel/slas_kernel/leases.py): one
 run per machine at a time, over whole histories of calls under a clock that does not go back.
 */
module Leases {

  import opened Options

  datatype Lease = Lease(target: string, ticketId: string, user: string, since: int, until: int)

  type Table = map<string, Lease>

  const HOUR := 3600

  function Holder(items: Table, target: string, now: int): (r: Option<Lease>)
  {
    if target in items && items[target].until > now then Some(items[target]) else None
  }

  /** The lease `acquire` grants, or None where it raises LeaseError. */
  function Granted(items: Table, target: string, ticketId: string, user: string, now: int, hours: int): (r: Option<Lease>)
  {
    if target in items && items[target].until > now && items[target].ticketId != ticketId then None
    else
      var since := if target in items && items[target].ticketId == ticketId then items[target].since else now;
      Some(Lease(target, ticketId, user, since, now + hours * HOUR))
  }

  predicate Releases(items: Table, target: string, ticketId: string) {
    target in items && items[target].ticketId == ticketId
  }

  function FreeTargets(items: Table, candidates: seq<string>, now: int): (r: seq<string>)
  {
    if candidates == [] then []
    else
      var rest := FreeTargets(items, candidates[1..], now);
      if Holder(items, candidates[0], now).None? then [candidates[0]] + rest else rest
  }

  // ---- histories ------------------------------------------------------------------------------

  datatype Op =
    | Acquire(at: int, target: string, ticketId: string, user: string, hours: int)
    | Release(at: int, target: string, ticketId: string)

  function Applied(items: Table, op: Op): (r: Table)
  {
    match op
    case Acquire(at, target, ticketId, user, hours) =>
      var lease := Granted(items, target, ticketId, user, at, hours);
      if lease.Some? then items[target := lease.value] else items
    case Release(_, target, ticketId) => if Releases(items, target, ticketId) then items - {target} else items
  }

  function After(h: seq<Op>): (items: Table)
  {
    if h == [] then map[] else Applied(After(h[..|h| - 1]), h[|h| - 1])
  }

  ghost predicate Ordered(h: seq<Op>) {
    forall i, j :: 0 <= i < j < |h| ==> h[i].at <= h[j].at
  }

  /**
   What a ticket believes about a target from the answers it got itself: until when its last
   grant runs, or None before any grant and behind a release of its own that succeeded.
   */
  function Belief(h: seq<Op>, target: string, ticketId: string): (until: Option<int>)
  {
    if h == [] then None
    else
      var p, op := h[..|h| - 1], h[|h| - 1];
      if op.target != target || op.ticketId != ticketId then Belief(p, target, ticketId)
      else match op
        case Acquire(at, _, _, user, hours) =>
          if Granted(After(p), target, ticketId, user, at, hours).Some? then Some(at + hours * HOUR) else Belief(p, target, ticketId)
        case Release(_, _, _) => if Releases(After(p), target, ticketId) then None else Belief(p, target, ticketId)
  }

  /** A ticket owns a target at an instant: it was granted it, has not given it back, and time is left. */
  predicate Owns(h: seq<Op>, target: string, ticketId: string, now: int) {
    Belief(h, target, ticketId).Some? && Belief(h, target, ticketId).value > now
  }

  /** The table's lease is its ticket's belief, and no other ticket's belief outlives the last call. */
  lemma {:induction false} BeliefsMatchTable(h: seq<Op>, target: string, ticketId: string)
    requires Ordered(h)
    ensures target in After(h) ==>
      && After(h)[target].target == target
      && (After(h)[target].ticketId == ticketId ==> Belief(h, target, ticketId) == Some(After(h)[target].until))
    ensures h != [] && Owns(h, target, ticketId, h[|h| - 1].at) ==> target in After(h) && After(h)[target].ticketId == ticketId
  {
    if h != [] {
      var p, op := h[..|h| - 1], h[|h| - 1];
      assert forall i :: 0 <= i < |p| ==> p[i] == h[i];
      BeliefsMatchTable(p, target, ticketId);
      if p != [] { assert p[|p| - 1].at <= op.at; }
      if p == [] { assert Belief(p, target, ticketId) == None; }
    }
  }

  /** No later than the last call: the clock of a question about the present. */
  ghost predicate Present(h: seq<Op>, now: int) {
    Ordered(h) && (h != [] ==> h[|h| - 1].at <= now)
  }

  /** Ownership of one target by two tickets never overlaps, at any instant of any history. */
  lemma {:induction false} OwnershipIsExclusive(h: seq<Op>, target: string, x: string, y: string, now: int)
    requires Present(h, now) && Owns(h, target, x, now) && Owns(h, target, y, now)
    ensures x == y
  {
    BeliefsMatchTable(h, target, x);
    BeliefsMatchTable(h, target, y);
  }

  /** `holder` names a ticket exactly when that ticket owns the target at that instant. */
  lemma {:induction false} HolderIsOwner(h: seq<Op>, target: string, ticketId: string, now: int)
    requires Present(h, now)
    ensures (Holder(After(h), target, now).Some? && Holder(After(h), target, now).value.ticketId == ticketId)
        <==> Owns(h, target, ticketId, now)
  {
    BeliefsMatchTable(h, target, ticketId);
  }

  /** `free_targets` keeps, in order, exactly the candidates nobody owns. */
  lemma {:induction false} FreeTargetsAreUnowned(h: seq<Op>, candidates: seq<string>, now: int, target: string)
    requires Present(h, now)
    ensures target in FreeTargets(After(h), candidates, now) <==>
      target in candidates && forall x :: !Owns(h, target, x, now)
  {
    forall x ensures (Holder(After(h), target, now).Some? && Holder(After(h), target, now).value.ticketId == x) <==> Owns(h, target, x, now) {
      HolderIsOwner(h, target, x, now);
    }
    if Holder(After(h), target, now).Some? { assert Owns(h, target, Holder(After(h), target, now).value.ticketId, now); }
    FreeMembers(After(h), candidates, now, target);
  }

  lemma {:induction false} FreeMembers(items: Table, candidates: seq<string>, now: int, target: string)
    ensures target in FreeTargets(items, candidates, now) <==> target in candidates && Holder(items, target, now).None?
  {
    if candidates != [] {
      FreeMembers(items, candidates[1..], now, target);
      assert candidates == [candidates[0]] + candidates[1..];
    }
  }

  /** The answer keeps the candidates' order and repeats: it is taken candidate by candidate. */
  lemma {:induction false} FreeTargetsInOrder(items: Table, a: seq<string>, b: seq<string>, now: int)
    ensures FreeTargets(items, a + b, now) == FreeTargets(items, a, now) + FreeTargets(items, b, now)
    ensures |a| == 1 ==> FreeTargets(items, a, now) == if a[0] in items && items[a[0]].until > now then [] else a
  {
    if a == [] {
      assert a + b == b;
    } else {
      FreeTargetsInOrder(items, a[1..], b, now);
      assert (a + b)[1..] == a[1..] + b;
      assert |a| == 1 ==> a == [a[0]] && FreeTargets(items, a[1..], now) == [];
    }
  }

  /** Once another ticket owns the target, a late release changes nothing. */
  lemma {:induction false} LateReleaseIsRefused(h: seq<Op>, target: string, late: string, owner: string, at: int)
    requires Present(h, at) && Owns(h, target, owner, at) && late != owner
    ensures !Releases(After(h), target, late)
    ensures Owns(h + [Release(at, target, late)], target, owner, at)
  {
    BeliefsMatchTable(h, target, owner);
    var h' := h + [Release(at, target, late)];
    assert h'[..|h'| - 1] == h;
  }

  /** An unexpired lease of another ticket is the only reason for `acquire` to refuse. */
  lemma {:induction false} AcquireFailsIffOwned(h: seq<Op>, target: string, ticketId: string, user: string, now: int, hours: int)
    requires Present(h, now)
    ensures Granted(After(h), target, ticketId, user, now, hours).None? <==> exists x :: x != ticketId && Owns(h, target, x, now)
  {
    forall x ensures (Holder(After(h), target, now).Some? && Holder(After(h), target, now).value.ticketId == x) <==> Owns(h, target, x, now) {
      HolderIsOwner(h, target, x, now);
    }
    if Granted(After(h), target, ticketId, user, now, hours).None? {
      assert Owns(h, target, After(h)[target].ticketId, now);
    }
  }

  // ---- the object -------------------------------------------------------------------------------

  /** `LeaseTable`: the dictionary in one JSON file, loaded and saved by every call. */
  class LeaseTable {
    var items: Table
    ghost var history: seq<Op>

    constructor ()
      ensures Valid() && history == []
    {
      items, history := map[], [];
    }

    ghost predicate Valid()
      reads this
    {
      items == After(history)
    }

    method HolderOf(target: string, now: int) returns (lease: Option<Lease>)
      requires Valid() && Present(history, now)
      ensures lease == Holder(items, target, now)
      ensures forall x :: (lease.Some? && lease.value.ticketId == x) <==> Owns(history, target, x, now)
    {
      lease := None;
      if target in items && items[target].until > now {
        lease := Some(items[target]);
      }
      forall x ensures (lease.Some? && lease.value.ticketId == x) <==> Owns(history, target, x, now) {
        HolderIsOwner(history, target, x, now);
      }
    }

    method FreeTargetsOf(candidates: seq<string>, now: int) returns (free: seq<string>)
      requires Valid() && Present(history, now)
      ensures free == FreeTargets(items, candidates, now)
      ensures forall t :: t in free <==> t in candidates && forall x :: !Owns(history, t, x, now)
    {
      free := [];
      for i := 0 to |candidates|
        invariant free + FreeTargets(items, candidates[i..], now) == FreeTargets(items, candidates, now)
      {
        var t := candidates[i];
        assert candidates[i..][0] == t && candidates[i..][1..] == candidates[i + 1..];
        var lease := HolderOf(t, now);
        if lease.None? { free := free + [t]; }
      }
      forall t ensures t in free <==> t in candidates && forall x :: !Owns(history, t, x, now) {
        FreeTargetsAreUnowned(history, candidates, now, t);
      }
    }

    method AcquireLease(target: string, ticketId: string, user: string, now: int, hours: int) returns (lease: Option<Lease>)
      requires Valid() && Present(history, now)
      modifies this
      ensures Valid() && history == old(history) + [Acquire(now, target, ticketId, user, hours)]
      ensures lease.None? <==> exists x :: x != ticketId && Owns(old(history), target, x, now)
      ensures lease.None? ==> items == old(items)
      ensures lease.Some? ==> items == old(items)[target := lease.value] && Belief(history, target, ticketId) == Some(lease.value.until)
      ensures lease.Some? ==>
        var own := old(target in items && items[target].ticketId == ticketId);
        lease.value == Lease(target, ticketId, user, if own then old(items[target].since) else now, now + hours * 3600)
    {
      AcquireFailsIffOwned(history, target, ticketId, user, now, hours);
      ghost var h := history;
      history := history + [Acquire(now, target, ticketId, user, hours)];
      assert history[..|history| - 1] == h;
      if target in items {
        var current := items[target];
        if current.until > now && current.ticketId != ticketId {
          return None;
        }
        lease := Some(Lease(target, ticketId, user, if current.ticketId == ticketId then current.since else now, now + hours * HOUR));
      } else {
        lease := Some(Lease(target, ticketId, user, now, now + hours * HOUR));
      }
      items := items[target := lease.value];
    }

    method ReleaseLease(target: string, ticketId: string, ghost now: int) returns (ok: bool)
      requires Valid() && Present(history, now)
      modifies this
      ensures Valid() && history == old(history) + [Release(now, target, ticketId)]
      ensures ok <==> old(target in items && items[target].ticketId == ticketId)
      ensures Owns(old(history), target, ticketId, now) ==> ok
      ensures !Owns(history, target, ticketId, now)
      ensures ok ==> Belief(history, target, ticketId).None? && items == old(items) - {target}
      ensures !ok ==> items == old(items)
      ensures (exists x :: x != ticketId && Owns(old(history), target, x, now)) ==> !ok
    {
      ghost var h := history;
      forall x | x != ticketId && Owns(h, target, x, now) ensures !Releases(After(h), target, ticketId) {
        LateReleaseIsRefused(h, target, ticketId, x, now);
      }
      HolderIsOwner(h, target, ticketId, now);
      history := history + [Release(now, target, ticketId)];
      assert history[..|history| - 1] == h;
      if target !in items || items[target].ticketId != ticketId {
        return false;
      }
      items := items - {target};
      ok := true;
    }
  }
}
