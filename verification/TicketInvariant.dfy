/**
 What every reachable world says about each ticket: the saved work is the fold of the
 journalled observations, at most one step behind, and the journal follows the plan order.
 */
module TicketInvariant {
  import opened Options
  import opened Records
  import opened Journal
  import opened Act
  import opened Machine

  /** What the kernel can read off a journal: observed steps, what was seen, the open intent. */
  datatype View = View(ids: seq<StepId>, seen: seq<Observation>, open: Option<StepId>)

  ghost function ViewOf(j: seq<Entry>): (v: View)
    ensures |v.ids| == |v.seen|
  {
    View(ObservedIds(j), Observations(j), OpenIntent(j))
  }

  const QUIET := View([], [], None)

  ghost predicate Planless(t: Ticket) {
    t.plan.None? && t.work.steps == [] && t.approvals == []
  }

  /** The work a ticket was saved with when its plan was attached. */
  ghost function Base(w: World, id: TicketId): (b: Option<Work>)
  {
    if id in w.log.planned then Some(w.log.planned[id]) else None
  }

  ghost predicate PlanReady(b: Option<Work>, t: Ticket) {
    && t.plan.Some? && t.plan.value.Valid()
    && b.Some? && b.value.steps == FreshRecords(t.plan.value)
  }

  /** The observed steps are the first steps of the plan; only the next one may be open. */
  ghost predicate Journaled(plan: Plan, v: View) {
    var ids := v.ids;
    && |ids| == |v.seen| && |ids| <= |plan.steps|
    && (forall m :: 0 <= m < |ids| ==> ids[m] == plan.steps[m].id)
    && (v.open.Some? ==> |ids| < |plan.steps| && v.open.value == plan.steps[|ids|].id)
  }

  /** The fold over the first `q` journalled observations. */
  ghost function Folded(cfg: Config, b: Option<Work>, t: Ticket, v: View, q: nat): (w: Work)
    requires PlanReady(b, t) && q <= |v.seen| <= |t.plan.value.steps|
    ensures |w.steps| == |t.plan.value.steps|
  {
    Replay(cfg.verify, t.plan.value, b.value, v.seen[..q])
  }

  /** Saved work: all observations folded in, or the next step marked, or the last one still missing. */
  ghost predicate InSync(cfg: Config, b: Option<Work>, t: Ticket, v: View, w: Work)
    requires PlanReady(b, t) && Journaled(t.plan.value, v)
  {
    var k := |v.seen|;
    || w == Folded(cfg, b, t, v, k)
    || (k < |t.plan.value.steps| && w == MarkRunning(Folded(cfg, b, t, v, k), k))
    || (k > 0 && w == MarkRunning(Folded(cfg, b, t, v, k - 1), k - 1))
  }

  /** How ACT may end: a failed record, or every step observed and folded in. */
  ghost predicate Ended(cfg: Config, b: Option<Work>, t: Ticket, v: View, w: Work)
    requires PlanReady(b, t) && Journaled(t.plan.value, v)
  {
    && InSync(cfg, b, t, v, w)
    && (HasFailedStep(w) || (w == Folded(cfg, b, t, v, |v.seen|) && |v.seen| == |t.plan.value.steps|))
  }

  /** ANALYSE touches neither step records nor exports, and only adds votes. */
  ghost predicate Extends(x: Work, w: Work) {
    w.steps == x.steps && w.exports == x.exports && x.votes <= w.votes
  }

  ghost predicate Settled(cfg: Config, b: Option<Work>, t: Ticket, v: View, w: Work)
    requires PlanReady(b, t) && Journaled(t.plan.value, v)
  {
    exists x: Work :: Ended(cfg, b, t, v, x) && Extends(x, w)
  }

  /** Holds of a ticket's two files at every instant, whatever the process is doing. */
  ghost predicate Rest(cfg: Config, b: Option<Work>, d: Durable) {
    var t, v := d.saved, ViewOf(d.journal);
    && Numbered(d.journal)
    && match t.state
       case IsOpen => Planless(t) && v == QUIET
       case IsFailed => Planless(t) && v == QUIET
       case IsPlanned => PlanReady(b, t) && v == QUIET && t.work == b.value
       case IsApproved => PlanReady(b, t) && v == QUIET && t.work == b.value
       case IsRunning => PlanReady(b, t) && Journaled(t.plan.value, v) && InSync(cfg, b, t, v, t.work)
       case IsAnalysing => PlanReady(b, t) && Journaled(t.plan.value, v) && Settled(cfg, b, t, v, t.work)
       case IsNeedsReview => PlanReady(b, t) && Journaled(t.plan.value, v) && Settled(cfg, b, t, v, t.work)
                             && (HasFailedStep(t.work) || t.work.findings != [])
       case IsDone => PlanReady(b, t) && Journaled(t.plan.value, v) && Settled(cfg, b, t, v, t.work)
                      && !HasFailedStep(t.work) && t.work.findings == []
  }

  /** In memory: a valid plan attached, nothing saved about it yet. */
  ghost predicate FreshPlan(t: Ticket, m: Ticket) {
    && m.plan.Some? && m.plan.value.Valid() && m.work.steps == FreshRecords(m.plan.value)
    && m.approvals == [] && t.state == IsOpen && m.id == t.id
  }

  /** From the scan's position on, the snapshot of completed steps matches the journal. */
  ghost predicate ScanOk(scan: Scan, plan: Plan, v: View) {
    && scan.i <= |plan.steps|
    && forall m :: scan.i <= m < |plan.steps| ==>
         && (plan.steps[m].id in scan.completed <==> m < |v.seen|)
         && (m < |v.seen| ==> scan.completed[plan.steps[m].id] == v.seen[m])
  }

  ghost predicate ActingOk(cfg: Config, b: Option<Work>, t: Ticket, v: View, w: Work, scan: Scan)
    requires PlanReady(b, t) && Journaled(t.plan.value, v) && |t.work.steps| == |t.plan.value.steps|
  {
    var k := |v.seen|;
    && ScanOk(scan, t.plan.value, v) && scan.i <= k
    && ( // nothing rebuilt yet: every earlier record was saved as done
         || (w == t.work && forall q :: 0 <= q < scan.i ==> t.work.steps[q].status == Done)
         // the last observation was rebuilt from the journal
         || (scan.i == k > 0 && w == Folded(cfg, b, t, v, k)
             && t.work == MarkRunning(Folded(cfg, b, t, v, k - 1), k - 1))
         // the last step was performed by this process
         || (scan.i == k && w == t.work == Folded(cfg, b, t, v, k)))
  }

  /** The scan stands on the first unobserved step and its record is marked running in memory. */
  ghost predicate Performing(cfg: Config, b: Option<Work>, t: Ticket, v: View, w: Work, scan: Scan)
    requires PlanReady(b, t) && Journaled(t.plan.value, v)
  {
    && ScanOk(scan, t.plan.value, v) && scan.i == |v.seen| < |t.plan.value.steps|
    && w == MarkRunning(Folded(cfg, b, t, v, scan.i), scan.i)
  }

  ghost predicate Observing(cfg: Config, b: Option<Work>, t: Ticket, v: View, w: Work, scan: Scan)
    requires PlanReady(b, t) && Journaled(t.plan.value, v)
  {
    && Performing(cfg, b, t, v, w, scan) && t.work == w
    && v.open == Some(t.plan.value.steps[scan.i].id)
  }

  ghost predicate Observed(cfg: Config, b: Option<Work>, t: Ticket, v: View, w: Work, scan: Scan)
    requires PlanReady(b, t) && Journaled(t.plan.value, v)
  {
    && ScanOk(NextStep(scan), t.plan.value, v) && scan.i + 1 == |v.seen|
    && w == Folded(cfg, b, t, v, scan.i + 1) && t.work == MarkRunning(Folded(cfg, b, t, v, scan.i), scan.i)
  }

  /** What the running process knows about its ticket at each point of the program. */
  ghost predicate Runs(cfg: Config, b: Option<Work>, d: Durable, p: Proc)
    requires Rest(cfg, b, d)
  {
    var t, v, m := d.saved, ViewOf(d.journal), p.mem;
    && m.id == t.id
    && match p.pc
       case SaveNew(_) => false
       case Ingested(_) => t.state == IsOpen && m == t
       case GateNote(_) => t.state == IsOpen && m == t
       case CheckNote => FreshPlan(t, m) && m.state == IsOpen
       case Moving(target) =>
         (match target
          case IsPlanned => FreshPlan(t, m) && m.state == IsOpen
          case IsFailed => t.state == IsOpen && m == t
          case IsApproved => t.state == IsPlanned && m == t && !HasPendingApproval(t)
          case IsRunning => t.state == IsApproved && m == t
          case IsAnalysing => t.state == IsRunning && m == t.(work := m.work) && Ended(cfg, b, t, v, m.work)
          case IsNeedsReview => t.state == IsAnalysing && m == t && FinalState(t) == target
          case IsDone => t.state == IsAnalysing && m == t && FinalState(t) == target
          case IsOpen => false)
       case Saving(target) =>
         && m.state == target
         && (match target
             case IsPlanned => FreshPlan(t, m)
             case IsFailed => t.state == IsOpen && m == t.(state := target)
             case IsApproved => t.state == IsPlanned && m == t.(state := target) && !HasPendingApproval(t)
             case IsRunning => t.state == IsApproved && m == t.(state := target)
             case IsAnalysing => t.state == IsRunning && m == t.(work := m.work, state := target) && Ended(cfg, b, t, v, m.work)
             case IsNeedsReview => t.state == IsAnalysing && m == t.(state := target) && FinalState(t) == target
             case IsDone => t.state == IsAnalysing && m == t.(state := target) && FinalState(t) == target
             case IsOpen => false)
       case RequestNote => t.state == IsPlanned && t.plan.value.IsDestructive() && m == t.(approvals := Requests(t.plan.value.steps))
       case SaveRequest => t.state == IsPlanned && t.plan.value.IsDestructive() && m == t.(approvals := Requests(t.plan.value.steps))
       case ApproveNote(_) => t.plan.Some? && m == t.(approvals := m.approvals)
       case SaveApproval => t.plan.Some? && m == t.(approvals := m.approvals)
       case Acting(scan) => t.state == IsRunning && m == t.(work := m.work) && ActingOk(cfg, b, t, v, m.work, scan)
       case SaveRunning(scan) => t.state == IsRunning && m == t.(work := m.work) && Performing(cfg, b, t, v, m.work, scan)
       case WriteIntent(scan) => t.state == IsRunning && m == t && Performing(cfg, b, t, v, m.work, scan)
       case Execute(scan) => t.state == IsRunning && m == t && Observing(cfg, b, t, v, m.work, scan)
       case WriteObservation(scan, _) => t.state == IsRunning && m == t && Observing(cfg, b, t, v, m.work, scan)
       case SaveStep(scan) => t.state == IsRunning && m == t.(work := m.work) && Observed(cfg, b, t, v, m.work, scan)
       case CollectNote => t.state == IsAnalysing && m == t
       case RcaNote => t.state == IsAnalysing && m == t
       case _ => t.state == IsAnalysing && m == t.(work := m.work) && Extends(t.work, m.work)
  }

  /** Ticket numbers are handed out once; the process works on a ticket that exists. */
  ghost predicate ProcOk(cfg: Config, w: World, p: Proc)
    requires forall id :: id in w.tickets ==> Rest(cfg, Base(w, id), w.tickets[id])
  {
    && p.mem.id == p.id
    && (if p.pc.SaveNew? then
          && p.id !in w.tickets && p.id.number == SequenceOf(w, p.id.agent)
          && p.mem == NewTicket(p.id, p.mem.jobId)
        else
          p.id in w.tickets && Runs(cfg, Base(w, p.id), w.tickets[p.id], p))
    && (p.pc.SaveChild? ==>
          && p.pc.child !in w.tickets && p.pc.child.number == SequenceOf(w, p.pc.child.agent)
          && p.pc.spawn.todo != [] && p.pc.spawn.todo[0].ticketId.None?)
    && (p.pc.RecordChild? ==>
          && p.pc.child in w.tickets && p.pc.child != p.id
          && p.pc.spawn.todo != [] && p.pc.spawn.todo[0].ticketId.None?)
  }

  ghost predicate WorldOk(cfg: Config, w: World) {
    && (forall id :: id in w.tickets ==>
          w.tickets[id].saved.id == id && id.number <= SequenceOf(w, id.agent))
    && (forall id :: id in w.tickets ==> Rest(cfg, Base(w, id), w.tickets[id]))
    && (w.proc.Some? ==> ProcOk(cfg, w, w.proc.value))
  }
}
