/**
 Who approved what: in every reachable world a destructive step past PLANNED is approved
 on disk, unless a crash fell before the requests were saved.
 */
module ApprovalInvariant {
  import opened Options
  import opened Records
  import opened Journal
  import opened SkillGate
  import opened Act
  import opened Machine
  import opened TicketInvariant
  import opened TicketRuns

  // ---- approvals ------------------------------------------------------------------------------

  ghost predicate Stored(approvals: seq<Approval>, s: StepId) {
    exists a :: 0 <= a < |approvals| && approvals[a] == Approval(s, Some(true))
  }

  ghost predicate Asked(approvals: seq<Approval>, s: StepId) {
    exists a :: 0 <= a < |approvals| && approvals[a].stepId == s
  }

  ghost predicate AllAsked(plan: Plan, approvals: seq<Approval>) {
    forall i :: 0 <= i < |plan.steps| && plan.steps[i].risk == Destructive ==> Asked(approvals, plan.steps[i].id)
  }

  ghost predicate AllApproved(plan: Plan, approvals: seq<Approval>) {
    forall i :: 0 <= i < |plan.steps| && plan.steps[i].risk == Destructive ==> Stored(approvals, plan.steps[i].id)
  }

  ghost predicate NoneRefused(approvals: seq<Approval>) {
    forall a :: 0 <= a < |approvals| ==> !(approvals[a].approved.Some? && !approvals[a].approved.value)
  }

  predicate InRequest(v: Option<Proc>) {
    v.Some? && (v.value.pc == RequestNote || v.value.pc == SaveRequest)
  }

  /** `cut`: a crash fell between the Planned save and the save of the requests. */
  ghost predicate ApprovalsOk(cut: bool, d: Durable, v: Option<Proc>) {
    var t := d.saved;
    && NoneRefused(t.approvals)
    && (cut ==> t.approvals == [] && t.plan.Some? && t.plan.value.IsDestructive() && !InRequest(v))
    && (InRequest(v) ==> t.approvals == [])
    && (t.plan.Some? && t.state == IsPlanned && !cut && !InRequest(v) ==> AllAsked(t.plan.value, t.approvals))
    && (t.plan.Some? && t.state != IsPlanned ==> !HasPendingApproval(t))
    && (t.plan.Some? && t.state != IsPlanned && !cut ==> AllApproved(t.plan.value, t.approvals))
    && (v.Some? && (v.value.pc.ApproveNote? || v.value.pc.SaveApproval?) ==>
          && t.state == IsPlanned && t.plan.Some? && !cut && NoneRefused(v.value.mem.approvals)
          && AllAsked(t.plan.value, v.value.mem.approvals))
  }

  lemma {:induction false} RequestsAskAll(steps: seq<Step>)
    ensures forall i :: 0 <= i < |steps| && steps[i].risk == Destructive ==> Asked(Requests(steps), steps[i].id)
    ensures NoneRefused(Requests(steps))
  {
    if steps != [] {
      RequestsAskAll(steps[1..]);
      var r, rest := Requests(steps), Requests(steps[1..]);
      forall i | 0 <= i < |steps| && steps[i].risk == Destructive ensures Asked(r, steps[i].id) {
        if i == 0 {
          assert r[0].stepId == steps[0].id;
        } else {
          assert steps[1..][i - 1] == steps[i];
          var a :| 0 <= a < |rest| && rest[a].stepId == steps[i].id;
          if steps[0].risk == Destructive { assert r[a + 1] == rest[a]; }
        }
      }
    }
  }

  /** Asked, nothing undecided, nothing refused: approved. */
  lemma {:induction false} DecidedIsApproved(plan: Plan, t: Ticket)
    requires AllAsked(plan, t.approvals) && NoneRefused(t.approvals) && !HasPendingApproval(t)
    ensures AllApproved(plan, t.approvals)
  {
    forall i | 0 <= i < |plan.steps| && plan.steps[i].risk == Destructive
      ensures Stored(t.approvals, plan.steps[i].id)
    {
      var a :| 0 <= a < |t.approvals| && t.approvals[a].stepId == plan.steps[i].id;
      assert t.approvals[a].approved.Some? && t.approvals[a].approved.value;
      assert t.approvals[a] == Approval(plan.steps[i].id, Some(true));
    }
  }

  /** The approvals a save would write, point by point. */
  lemma {:induction false} MemApprovals(cfg: Config, b: Option<Work>, d: Durable, p: Proc)
    requires Local(cfg, b, d, p)
    ensures p.pc == SaveRequest || p.pc == RequestNote ==>
      d.saved.state == IsPlanned && d.saved.plan.Some? && p.mem == d.saved.(approvals := Requests(d.saved.plan.value.steps))
    ensures p.pc == SaveApproval || p.pc.ApproveNote? ==> d.saved.plan.Some? && p.mem == d.saved.(approvals := p.mem.approvals)
    ensures p.pc == Saving(IsPlanned) ==> d.saved.state == IsOpen && d.saved.plan.None? && p.mem.approvals == [] && p.mem.plan.Some? && p.mem.state == IsPlanned
    ensures p.pc == Saving(IsApproved) ==> d.saved.state == IsPlanned && d.saved.plan.Some? && p.mem == d.saved.(state := IsApproved) && !HasPendingApproval(d.saved)
    ensures p.pc.Saving? && p.pc != Saving(IsPlanned) && p.pc != Saving(IsApproved) && d.saved.plan.Some? ==>
      p.mem.plan == d.saved.plan && p.mem.approvals == d.saved.approvals && d.saved.state != IsPlanned && p.mem.state != IsPlanned
    ensures p.pc.Saving? && d.saved.plan.None? && p.pc != Saving(IsPlanned) ==> p.mem.plan.None? && p.mem.approvals == []
    ensures p.pc.SaveRunning? || p.pc.SaveStep? || p.pc == SaveSop ==>
      p.mem.plan == d.saved.plan && p.mem.approvals == d.saved.approvals && p.mem.state == d.saved.state != IsPlanned
  {
    hide Folded, InSync, Ended, Settled, ActingOk, Performing, Observing, Observed, FreshRecords, ViewOf, Numbered, Requests, HasPendingApproval;
  }

  /** Every local effect keeps it. */
  lemma {:induction false} ApprovalsKept(cfg: Config, b: Option<Work>, cut: bool, d: Durable, p: Proc)
    requires Local(cfg, b, d, p) && IsLocal(p.pc) && ApprovalsOk(cut, d, Some(p))
    requires d.saved.plan.None? ==> !cut
    ensures var m := TickLocal(cfg, d, p); ApprovalsOk(cut, m.d, m.proc)
  {
    hide Rest, Runs, Asked, Stored;
    MemApprovals(cfg, b, d, p);
    LocalShape(cfg, d, p);
    var m := TickLocal(cfg, d, p);
    if p.pc == SaveRequest { RequestsAskAll(d.saved.plan.value.steps); }
    if p.pc == Saving(IsApproved) && !cut { DecidedIsApproved(d.saved.plan.value, d.saved); }
  }

  predicate Saves(pc: Pc) {
    pc.Saving? || pc == SaveRequest || pc == SaveApproval || pc.SaveRunning? || pc.SaveStep? || pc == SaveSop
  }

  /** A local effect saves the ticket in memory or leaves the saved one; few points follow. */
  lemma {:induction false} LocalShape(cfg: Config, d: Durable, p: Proc)
    requires IsLocal(p.pc)
    ensures var m := TickLocal(cfg, d, p);
      && m.d.saved == (if Saves(p.pc) then p.mem else d.saved)
      && (InRequest(m.proc) <==>
            (p.pc == RequestNote || (p.pc == Saving(IsPlanned) && p.mem.plan.Some? && p.mem.plan.value.IsDestructive())))
      && (m.proc.Some? && (m.proc.value.pc.ApproveNote? || m.proc.value.pc.SaveApproval?) ==>
            p.pc.ApproveNote? && m.proc.value.mem == p.mem)
  {
    hide Finish, Locate, FreshRecords, MarkRunning, Requests, Completed, OpenIntent, Append, Expand;
  }
}
