/**
 The local alert channel (packages/slas-observability/slas_observability/alerts.py): alerts
 in one file, a repeat within the window counted on the open one, acknowledged ones left alone.
 */
module Alerts {

  import opened Options

  datatype Severity = Info | Warning | Critical
  datatype Source = Platform | Alertmanager

  datatype Alert = Alert(
    id: string,
    severity: Severity,
    sentence: string,
    source: Source,
    firedAt: int,
    lastSeenAt: int,
    count: nat,
    acknowledged: Option<(string, int)>)
  {
    predicate IsOpen() { acknowledged.None? }
  }

  datatype Op =
    | Raise(at: int, id: string, severity: Severity, sentence: string, source: Source)
    | Acknowledge(at: int, id: string, person: string)

  /** Position of the first open alert with this id last seen within the window, or the length. */
  function FirstRecent(alerts: seq<Alert>, id: string, now: int, window: int): (i: nat)
    ensures i <= |alerts|
    ensures i < |alerts| ==> alerts[i].id == id && alerts[i].IsOpen() && now - alerts[i].lastSeenAt <= window
    ensures forall k :: 0 <= k < i ==> !(alerts[k].id == id && alerts[k].IsOpen() && now - alerts[k].lastSeenAt <= window)
  {
    if alerts == [] then 0
    else if alerts[0].id == id && alerts[0].IsOpen() && now - alerts[0].lastSeenAt <= window then 0
    else 1 + FirstRecent(alerts[1..], id, now, window)
  }

  function FirstOpen(alerts: seq<Alert>, id: string): (i: nat)
    ensures i <= |alerts|
    ensures i < |alerts| ==> alerts[i].id == id && alerts[i].IsOpen()
    ensures forall k :: 0 <= k < i ==> !(alerts[k].id == id && alerts[k].IsOpen())
  {
    if alerts == [] then 0
    else if alerts[0].id == id && alerts[0].IsOpen() then 0
    else 1 + FirstOpen(alerts[1..], id)
  }

  function Applied(alerts: seq<Alert>, op: Op, window: int): (r: seq<Alert>)
    ensures |alerts| <= |r| <= |alerts| + 1
  {
    match op
    case Raise(at, id, severity, sentence, source) =>
      var i := FirstRecent(alerts, id, at, window);
      if i < |alerts| then alerts[i := alerts[i].(count := alerts[i].count + 1, lastSeenAt := at, sentence := sentence)]
      else alerts + [Alert(id, severity, sentence, source, at, at, 1, None)]
    case Acknowledge(at, id, person) =>
      var i := FirstOpen(alerts, id);
      if i < |alerts| then alerts[i := alerts[i].(acknowledged := Some((person, at)))] else alerts
  }

  function After(h: seq<Op>, window: int): (alerts: seq<Alert>)
  {
    if h == [] then [] else Applied(After(h[..|h| - 1], window), h[|h| - 1], window)
  }

  /** The alert a call returns, as it then stands in the file; None where the source raises KeyError. */
  function Answered(alerts: seq<Alert>, op: Op, window: int): (a: Option<Alert>)
  {
    var after := Applied(alerts, op, window);
    match op
    case Raise(at, id, _, _, _) => Some(after[FirstRecent(alerts, id, at, window)])
    case Acknowledge(_, id, _) => var i := FirstOpen(alerts, id); if i < |alerts| then Some(after[i]) else None
  }

  /** The alerts a run of calls returns, in order, failed acknowledgements left out. */
  function Answers(h: seq<Op>, more: seq<Op>, window: int): (handled: seq<Alert>)
  {
    if more == [] then []
    else
      var n := |more| - 1;
      var a := Answered(After(h + more[..n], window), more[n], window);
      Answers(h, more[..n], window) + if a.Some? then [a.value] else []
  }

  lemma {:induction false} AfterOneMore(h: seq<Op>, op: Op, window: int)
    ensures After(h + [op], window) == Applied(After(h, window), op, window)
  {
    assert (h + [op])[..|h + [op]| - 1] == h;
  }

  ghost predicate Ordered(h: seq<Op>) {
    forall i, j :: 0 <= i < j < |h| ==> h[i].at <= h[j].at
  }

  function Counts(alerts: seq<Alert>): (n: nat)
  {
    if alerts == [] then 0 else Counts(alerts[..|alerts| - 1]) + alerts[|alerts| - 1].count
  }

  function Raises(h: seq<Op>): (n: nat)
  {
    if h == [] then 0 else Raises(h[..|h| - 1]) + if h[|h| - 1].Raise? then 1 else 0
  }

  lemma {:induction false} CountsUpdate(alerts: seq<Alert>, i: nat, a: Alert)
    requires i < |alerts|
    ensures Counts(alerts[i := a]) == Counts(alerts) - alerts[i].count + a.count
  {
    var n := |alerts| - 1;
    if i < n {
      CountsUpdate(alerts[..n], i, a);
      assert alerts[i := a][..n] == alerts[..n][i := a];
    } else {
      assert alerts[i := a][..n] == alerts[..n];
    }
  }

  /** Conservation: the counts add up to the number of raises, whatever was acknowledged. */
  lemma {:induction false} CountsAreConserved(h: seq<Op>, window: int)
    ensures Counts(After(h, window)) == Raises(h)
  {
    if h != [] {
      var p, op := h[..|h| - 1], h[|h| - 1];
      CountsAreConserved(p, window);
      var alerts := After(p, window);
      if op.Raise? {
        var i := FirstRecent(alerts, op.id, op.at, window);
        if i < |alerts| {
          CountsUpdate(alerts, i, After(h, window)[i]);
        } else {
          assert After(h, window)[..|alerts|] == alerts;
        }
      } else {
        var i := FirstOpen(alerts, op.id);
        if i < |alerts| { CountsUpdate(alerts, i, After(h, window)[i]); }
      }
    }
  }

  /** An acknowledged alert never changes again, nor does any alert change its place. */
  lemma {:induction false} AcknowledgedIsFinal(h: seq<Op>, more: seq<Op>, window: int, i: nat)
    requires i < |After(h, window)| && !After(h, window)[i].IsOpen()
    ensures i < |After(h + more, window)| && After(h + more, window)[i] == After(h, window)[i]
  {
    if more == [] {
      assert h + more == h;
    } else {
      var n := |more| - 1;
      AcknowledgedIsFinal(h, more[..n], window, i);
      assert (h + more)[..|h + more| - 1] == h + more[..n];
    }
  }

  /** Two open alerts with one id: the later fired more than the window after the earlier was last seen. */
  ghost predicate Apart(alerts: seq<Alert>, window: int) {
    forall i, j :: 0 <= i < j < |alerts| && alerts[i].id == alerts[j].id && alerts[i].IsOpen() && alerts[j].IsOpen() ==>
      alerts[j].firedAt > alerts[i].lastSeenAt + window
  }

  ghost predicate Dated(alerts: seq<Alert>, now: int) {
    forall i :: 0 <= i < |alerts| ==> alerts[i].firedAt <= alerts[i].lastSeenAt <= now
  }

  lemma {:induction false} OpenAlertsAreApart(h: seq<Op>, window: int)
    requires Ordered(h)
    ensures Apart(After(h, window), window)
    ensures h != [] ==> Dated(After(h, window), h[|h| - 1].at)
  {
    if h != [] {
      var p, op := h[..|h| - 1], h[|h| - 1];
      assert forall i :: 0 <= i < |p| ==> p[i] == h[i];
      OpenAlertsAreApart(p, window);
      if p != [] { assert p[|p| - 1].at <= op.at; }
      var before, after := After(p, window), After(h, window);
      assert Dated(before, op.at);
      if op.Raise? { RaiseKeepsApart(before, op, window); }
    }
  }

  lemma {:induction false} RaiseKeepsApart(alerts: seq<Alert>, op: Op, window: int)
    requires op.Raise? && Apart(alerts, window) && Dated(alerts, op.at)
    ensures Apart(Applied(alerts, op, window), window) && Dated(Applied(alerts, op, window), op.at)
  {
    var i := FirstRecent(alerts, op.id, op.at, window);
    if i < |alerts| {
      // A later open alert with this id would have fired more than the window after alerts[i] was last seen.
      assert forall j :: i < j < |alerts| && alerts[j].id == alerts[i].id && alerts[j].IsOpen() ==> alerts[j].firedAt > alerts[i].lastSeenAt + window;
    }
  }

  /**
   At most one open alert of an id can take the next repeat, so the file never has two open
   alerts of one id within the window of each other.
   */
  lemma {:induction false} OneRecentPerId(h: seq<Op>, window: int, i: nat, j: nat, now: int)
    requires Ordered(h) && (h != [] ==> h[|h| - 1].at <= now)
    requires i < j < |After(h, window)| && After(h, window)[i].id == After(h, window)[j].id
    requires After(h, window)[i].IsOpen() && After(h, window)[j].IsOpen()
    ensures now - After(h, window)[i].lastSeenAt > window
  {
    OpenAlertsAreApart(h, window);
    var a := After(h, window);
    assert a[j].firedAt > a[i].lastSeenAt + window && a[j].firedAt <= now;
  }

  // ---- the object -----------------------------------------------------------------------------------

  /** One entry of Alertmanager's webhook body, already parsed. */
  datatype Item = Item(id: string, severity: string, sentence: string, resolved: bool)

  function SeverityOf(text: string): (s: Severity)
  {
    if text == "info" then Info else if text == "critical" then Critical else Warning
  }

  function OpOf(item: Item, at: int): (op: Op)
  {
    if item.resolved then Acknowledge(at, item.id, "Prometheus (resolved)")
    else Raise(at, item.id, SeverityOf(item.severity), item.sentence, Alertmanager)
  }

  /** The first open alert with this id that is recent, when only recent ones are asked for. */
  predicate IsFirst(alerts: seq<Alert>, i: nat, id: string, since: Option<int>) {
    && i < |alerts| && Matches(alerts[i], id, since)
    && forall k :: 0 <= k < i ==> !Matches(alerts[k], id, since)
  }

  predicate Matches(a: Alert, id: string, since: Option<int>) {
    a.id == id && a.IsOpen() && (since.Some? ==> a.lastSeenAt >= since.value)
  }

  /** A raise counts on the first open alert of its id seen within the window, or adds one; all others stay. */
  ghost predicate RaisedTo(before: seq<Alert>, after: seq<Alert>, a: Alert, now: int, window: int) {
    if exists k :: 0 <= k < |before| && Matches(before[k], a.id, Some(now - window)) then
      exists i: nat :: IsFirst(before, i, a.id, Some(now - window))
        && after == before[i := before[i].(count := before[i].count + 1, lastSeenAt := now, sentence := a.sentence)]
    else
      after == before + [Alert(a.id, a.severity, a.sentence, a.source, now, now, 1, None)]
  }

  /** An acknowledgement closes the first open alert of its id, or changes nothing; all others stay. */
  ghost predicate AcknowledgedTo(before: seq<Alert>, after: seq<Alert>, id: string, person: string, now: int) {
    if exists k :: 0 <= k < |before| && Matches(before[k], id, None) then
      exists i: nat :: IsFirst(before, i, id, None) && after == before[i := before[i].(acknowledged := Some((person, now)))]
    else
      after == before
  }

  /** What one item of the webhook does to the file. */
  ghost predicate ItemHandled(before: seq<Alert>, after: seq<Alert>, item: Item, now: int, window: int) {
    if item.resolved then AcknowledgedTo(before, after, item.id, "Prometheus (resolved)", now)
    else
      var severity := if item.severity == "info" then Info else if item.severity == "critical" then Critical else Warning;
      RaisedTo(before, after, Alert(item.id, severity, item.sentence, Alertmanager, now, now, 1, None), now, window)
  }

  /** The call in the history that one item stands for. */
  predicate ItemCalled(op: Op, item: Item, now: int) {
    && op.at == now && op.id == item.id
    && (item.resolved <==> op.Acknowledge?) && (!item.resolved <==> op.Raise?)
    && (item.resolved ==> op.person == "Prometheus (resolved)")
    && (!item.resolved ==>
          && op.sentence == item.sentence && op.source == Alertmanager
          && (op.severity == Info <==> item.severity == "info") && (op.severity == Critical <==> item.severity == "critical"))
  }

  lemma {:induction false} AppliedIs(alerts: seq<Alert>, op: Op, window: int)
    ensures op.Raise? ==>
      RaisedTo(alerts, Applied(alerts, op, window), Alert(op.id, op.severity, op.sentence, op.source, op.at, op.at, 1, None), op.at, window)
    ensures op.Acknowledge? ==> AcknowledgedTo(alerts, Applied(alerts, op, window), op.id, op.person, op.at)
  {
    if op.Raise? {
      var i := FirstRecent(alerts, op.id, op.at, window);
      if i < |alerts| { assert IsFirst(alerts, i, op.id, Some(op.at - window)); }
    } else {
      var i := FirstOpen(alerts, op.id);
      if i < |alerts| { assert IsFirst(alerts, i, op.id, None); }
    }
  }

  /** Behind a firing item its alert is open with its sentence; behind a resolved one the alert that was first open is not. */
  lemma {:induction false} ItemShows(before: seq<Alert>, after: seq<Alert>, item: Item, now: int, window: int)
    requires ItemHandled(before, after, item, now, window)
    ensures !item.resolved ==>
      exists i :: 0 <= i < |after| && Matches(after[i], item.id, Some(now)) && after[i].lastSeenAt == now && after[i].sentence == item.sentence
    ensures forall i: nat :: item.resolved && IsFirst(before, i, item.id, None) ==>
      |after| == |before| && after[i].acknowledged == Some(("Prometheus (resolved)", now))
  {
    if !item.resolved {
      if exists k :: 0 <= k < |before| && Matches(before[k], item.id, Some(now - window)) {
        var i: nat :| IsFirst(before, i, item.id, Some(now - window))
          && after == before[i := before[i].(count := before[i].count + 1, lastSeenAt := now, sentence := item.sentence)];
        assert Matches(after[i], item.id, Some(now));
      } else {
        assert Matches(after[|before|], item.id, Some(now));
      }
    }
  }

  /** Each call reads the clock itself. */
  function OpsOf(items: seq<Item>, clock: seq<int>): (ops: seq<Op>)
    requires |clock| == |items|
    ensures |ops| == |items|
  {
    seq(|items|, i requires 0 <= i < |items| => OpOf(items[i], clock[i]))
  }

  /** The history grows by one call an item, each of them doing to the file what its item asks. */
  ghost predicate WebhookHandled(before: seq<Op>, after: seq<Op>, items: seq<Item>, clock: seq<int>, window: int)
    requires |clock| == |items|
  {
    && |after| == |before| + |items| && before <= after
    && forall i :: 0 <= i < |items| ==>
         var n := |before| + i;
         && ItemCalled(after[n], items[i], clock[i])
         && ItemHandled(After(after[..n], window), After(after[..n + 1], window), items[i], clock[i], window)
  }

  /** The alert an item changed or added is among those handled; a resolved item no alert was open for has none. */
  ghost predicate ItemAnswered(before: seq<Alert>, after: seq<Alert>, item: Item, now: int, handled: seq<Alert>) {
    (item.resolved ==> exists k :: 0 <= k < |before| && Matches(before[k], item.id, None)) ==>
      exists a :: a in handled && a in after && a.id == item.id
        && if item.resolved then a.acknowledged == Some(("Prometheus (resolved)", now))
           else a.IsOpen() && a.lastSeenAt == now && a.sentence == item.sentence
  }

  ghost predicate ItemsAnswered(h: seq<Op>, after: seq<Op>, items: seq<Item>, clock: seq<int>, handled: seq<Alert>, window: int)
    requires |clock| == |items|
  {
    && |h| + |items| <= |after|
    && |handled| <= |items|
    && forall i :: 0 <= i < |items| ==>
         ItemAnswered(After(after[..|h| + i], window), After(after[..|h| + i + 1], window), items[i], clock[i], handled)
  }

  lemma {:induction false} ItemsHandled(h: seq<Op>, items: seq<Item>, clock: seq<int>, window: int)
    requires |clock| == |items|
    ensures WebhookHandled(h, h + OpsOf(items, clock), items, clock, window)
  {
    hide After, Applied, RaisedTo, AcknowledgedTo;
    var all := h + OpsOf(items, clock);
    forall i | 0 <= i < |items|
      ensures var n := |h| + i;
        && ItemCalled(all[n], items[i], clock[i])
        && ItemHandled(After(all[..n], window), After(all[..n + 1], window), items[i], clock[i], window)
    {
      var n := |h| + i;
      assert all[n] == OpOf(items[i], clock[i]) && all[..n + 1] == all[..n] + [all[n]];
      AfterOneMore(all[..n], all[n], window);
      AppliedIs(After(all[..n], window), all[n], window);
    }
  }

  lemma {:induction false} ItemsGiven(h: seq<Op>, items: seq<Item>, clock: seq<int>, window: int)
    requires |clock| == |items|
    ensures ItemsAnswered(h, h + OpsOf(items, clock), items, clock, Answers(h, OpsOf(items, clock), window), window)
  {
    hide After, Applied, Answered, OpOf, ItemAnswered;
    if items != [] {
      var n := |items| - 1;
      ItemsGiven(h, items[..n], clock[..n], window);
      OpsOneMore(items, clock, n);
      assert items[..n + 1] == items && clock[..n + 1] == clock;
      hide OpsOf, Answers;
      ItemGivenOneMore(h, OpsOf(items[..n], clock[..n]), items, clock, window);
    }
  }

  lemma {:induction false} ItemGivenOneMore(h: seq<Op>, some: seq<Op>, items: seq<Item>, clock: seq<int>, window: int)
    requires |clock| == |items| == |some| + 1
    requires ItemsAnswered(h, h + some, items[..|some|], clock[..|some|], Answers(h, some, window), window)
    ensures var ops := some + [OpOf(items[|some|], clock[|some|])];
      ItemsAnswered(h, h + ops, items, clock, Answers(h, ops, window), window)
  {
    hide After, Applied, Answered, OpOf, Answers, ItemAnswered;
    var n, before := |some|, After(h + some, window);
    var last := OpOf(items[n], clock[n]);
    var all := (h + some) + [last];
    var was, handled := Answers(h, some, window), Answers(h, some + [last], window);
    assert h + (some + [last]) == all;
    AnswersOneMore(h, some, last, window);
    forall i | 0 <= i < |items|
      ensures ItemAnswered(After(all[..|h| + i], window), After(all[..|h| + i + 1], window), items[i], clock[i], handled)
    {
      if i < n {
        assert all[..|h| + i] == (h + some)[..|h| + i] && all[..|h| + i + 1] == (h + some)[..|h| + i + 1];
        var b, a := After(all[..|h| + i], window), After(all[..|h| + i + 1], window);
        assert ItemAnswered(b, a, items[..n][i], clock[..n][i], was);
        StaysAnswered(b, a, items[i], clock[i], was, handled);
      } else {
        assert all[..|h| + i] == h + some && all[..|h| + i + 1] == all;
        AfterOneMore(h + some, last, window);
        LastGiven(before, items[n], clock[n], handled, window);
      }
    }
  }

  lemma {:induction false} StaysAnswered(before: seq<Alert>, after: seq<Alert>, item: Item, now: int, handled: seq<Alert>, more: seq<Alert>)
    requires ItemAnswered(before, after, item, now, handled) && forall a :: a in handled ==> a in more
    ensures ItemAnswered(before, after, item, now, more)
  {
  }

  lemma {:induction false} AnswersOneMore(h: seq<Op>, ops: seq<Op>, op: Op, window: int)
    ensures var a := Answered(After(h + ops, window), op, window);
      Answers(h, ops + [op], window) == Answers(h, ops, window) + if a.Some? then [a.value] else []
  {
    hide After, Answered;
    assert (ops + [op])[..|ops|] == ops;
  }

  lemma {:induction false} OpsOneMore(items: seq<Item>, clock: seq<int>, i: nat)
    requires |clock| == |items| && i < |items|
    ensures OpsOf(items[..i + 1], clock[..i + 1]) == OpsOf(items[..i], clock[..i]) + [OpOf(items[i], clock[i])]
  {
    hide OpOf;
  }

  lemma {:induction false} LastGiven(before: seq<Alert>, item: Item, now: int, handled: seq<Alert>, window: int)
    requires var a := Answered(before, OpOf(item, now), window); a.Some? ==> a.value in handled
    ensures ItemAnswered(before, Applied(before, OpOf(item, now), window), item, now, handled)
  {
    var op := OpOf(item, now);
    var a := Answered(before, op, window);
    if a.Some? { assert a.value in Applied(before, op, window); }
  }

  class LocalAlertChannel {
    const window: int
    var alerts: seq<Alert>
    ghost var history: seq<Op>

    constructor (window: int)
      ensures Valid() && history == [] && this.window == window
    {
      this.window := window;
      alerts, history := [], [];
    }

    ghost predicate Valid()
      reads this
    {
      alerts == After(history, window)
    }

    method RaiseAlert(now: int, id: string, severity: Severity, sentence: string, source: Source) returns (a: Alert)
      requires Valid()
      modifies this
      ensures Valid() && history == old(history) + [Raise(now, id, severity, sentence, source)]
      ensures RaisedTo(old(alerts), alerts, Alert(id, severity, sentence, source, now, now, 1, None), now, window)
      ensures a in alerts && a.id == id && a.IsOpen() && a.lastSeenAt == now && a.sentence == sentence
      ensures Some(a) == Answered(old(alerts), Raise(now, id, severity, sentence, source), window)
    {
      hide After, FirstRecent;
      ghost var op := Raise(now, id, severity, sentence, source);
      AfterOneMore(history, op, window);
      AppliedIs(alerts, op, window);
      hide RaisedTo, AcknowledgedTo;
      var i := 0;
      while i < |alerts| && !(alerts[i].id == id && alerts[i].IsOpen() && now - alerts[i].lastSeenAt <= window)
        invariant i <= FirstRecent(alerts, id, now, window)
      {
        i := i + 1;
      }
      history := history + [op];
      if i < |alerts| {
        a := alerts[i].(count := alerts[i].count + 1, lastSeenAt := now, sentence := sentence);
        alerts := alerts[i := a];
        assert alerts[i] == a;
      } else {
        a := Alert(id, severity, sentence, source, now, now, 1, None);
        alerts := alerts + [a];
        assert alerts[|alerts| - 1] == a;
      }
    }

    /** None where the source raises KeyError: no open alert has this id. */
    method AcknowledgeAlert(now: int, id: string, person: string) returns (a: Option<Alert>)
      requires Valid()
      modifies this
      ensures Valid() && history == old(history) + [Acknowledge(now, id, person)]
      ensures a.None? <==> forall k :: 0 <= k < |old(alerts)| ==> !(old(alerts)[k].id == id && old(alerts)[k].IsOpen())
      ensures AcknowledgedTo(old(alerts), alerts, id, person, now)
      ensures a.Some? ==> a.value in alerts && a.value.id == id && a.value.acknowledged == Some((person, now))
      ensures a == Answered(old(alerts), Acknowledge(now, id, person), window)
    {
      hide After, FirstOpen;
      ghost var op := Acknowledge(now, id, person);
      AfterOneMore(history, op, window);
      AppliedIs(alerts, op, window);
      hide RaisedTo, AcknowledgedTo;
      for i := 0 to |alerts|
        invariant alerts == old(alerts) && history == old(history)
        invariant i <= FirstOpen(alerts, id)
      {
        if alerts[i].id == id && alerts[i].IsOpen() {
          a := Some(alerts[i].(acknowledged := Some((person, now))));
          alerts := alerts[i := a.value];
          assert alerts[i] == a.value;
          history := history + [op];
          return;
        }
      }
      a := None;
      history := history + [op];
    }

    /** `ingest_alertmanager`: every firing item is raised, every resolved one acknowledged, in order. */
    method IngestAlertmanager(clock: seq<int>, items: seq<Item>) returns (handled: seq<Alert>)
      requires Valid() && |clock| == |items|
      modifies this
      ensures Valid() && history == old(history) + OpsOf(items, clock)
      ensures handled == Answers(old(history), OpsOf(items, clock), window)
      ensures WebhookHandled(old(history), history, items, clock, window) && ItemsAnswered(old(history), history, items, clock, handled, window)
    {
      handled := HandleItems(clock, items);
      ItemsHandled(old(history), items, clock, window);
      ItemsGiven(old(history), items, clock, window);
    }

    method HandleItems(clock: seq<int>, items: seq<Item>) returns (handled: seq<Alert>)
      requires Valid() && |clock| == |items|
      modifies this
      ensures Valid() && history == old(history) + OpsOf(items, clock)
      ensures handled == Answers(old(history), OpsOf(items, clock), window)
    {
      hide After, Applied, SeverityOf, Answered, RaisedTo, AcknowledgedTo;
      handled := [];
      for i := 0 to |items|
        invariant Valid() && history == old(history) + OpsOf(items[..i], clock[..i])
        invariant handled == Answers(old(history), OpsOf(items[..i], clock[..i]), window)
      {
        var item := items[i];
        ghost var ops := OpsOf(items[..i + 1], clock[..i + 1]);
        assert ops[..i] == OpsOf(items[..i], clock[..i]) && ops[i] == OpOf(item, clock[i]);
        if item.resolved {
          var a := AcknowledgeAlert(clock[i], item.id, "Prometheus (resolved)");
          if a.Some? { handled := handled + [a.value]; }
        } else {
          var a := RaiseAlert(clock[i], item.id, SeverityOf(item.severity), item.sentence, Alertmanager);
          handled := handled + [a];
        }
        assert ops == OpsOf(items[..i], clock[..i]) + [OpOf(item, clock[i])];
      }
      assert items[..|items|] == items && clock[..|items|] == clock;
    }
  }
}
