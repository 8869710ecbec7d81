/**
 The records the Agent Kernel reads and writes: plans, tickets, observations, findings.
 Timestamps, titles and rendered prose are left out; every field that decides a branch is kept.
 */
module Records {
  import opened Options

  type StepId = string
  type Fingerprint = string

  /** `T-<agent>-<seq>`: one counter per agent, so the pair is the identity. */
  datatype TicketId = TicketId(agent: string, number: nat)

  datatype Risk = Safe | Caution | Destructive

  function RiskOrder(r: Risk): (n: nat)
    ensures n <= 2
  {
    match r
    case Safe => 0
    case Caution => 1
    case Destructive => 2
  }

  datatype Args = Args(
    skillId: string,
    inputs: map<string, string>,
    place: map<string, string>,
    secretRefs: set<string>,
    compiled: Option<seq<Risk>>)

  datatype Step = Step(id: StepId, primitive: string, args: Args, risk: Risk)

  datatype Plan = Plan(jobId: string, steps: seq<Step>) {
    /** The validator on plans: at least one step, no step id twice. */
    predicate Valid() {
      && steps != []
      && forall i, j :: 0 <= i < j < |steps| ==> steps[i].id != steps[j].id
    }

    predicate IsDestructive() {
      exists i :: 0 <= i < |steps| && steps[i].risk == Destructive
    }
  }

  datatype Vote = Vote(voter: string, reason: string, body: string)
  datatype Export = Export(path: string, kind: string)

  datatype Finding = Finding(
    fingerprint: Fingerprint,
    evidence: seq<string>,
    routing: Option<string>,
    ticketId: Option<TicketId>)

  datatype Observation = Observation(
    body: string,
    votes: seq<Vote>,
    exports: seq<Export>,
    findings: seq<Finding>)

  datatype Outcome = Ok | Fail | Retry

  datatype StepStatus = Pending | Running | Done | Failed | Skipped

  datatype StepRecord = StepRecord(
    stepId: StepId,
    status: StepStatus,
    observation: Option<Observation>,
    verdict: Option<Outcome>)

  /** A decision on one destructive step; `approved` is undecided while it is None. */
  datatype Approval = Approval(stepId: StepId, approved: Option<bool>)

  datatype TicketState =
    | IsOpen | IsPlanned | IsApproved | IsRunning
    | IsAnalysing | IsNeedsReview | IsDone | IsFailed

  predicate CanTransition(from: TicketState, to: TicketState) {
    match from
    case IsOpen => to in {IsPlanned, IsFailed}
    case IsPlanned => to in {IsApproved, IsFailed}
    case IsApproved => to in {IsRunning, IsFailed}
    case IsRunning => to in {IsAnalysing, IsFailed}
    case IsAnalysing => to in {IsNeedsReview, IsDone, IsFailed}
    case IsNeedsReview => to in {IsDone, IsFailed}
    case IsDone => false
    case IsFailed => false
  }

  /** What ACT accumulates on a ticket. */
  datatype Work = Work(
    steps: seq<StepRecord>,
    votes: seq<Vote>,
    exports: seq<Export>,
    findings: seq<Finding>)

  datatype Ticket = Ticket(
    id: TicketId,
    jobId: string,
    state: TicketState,
    plan: Option<Plan>,
    approvals: seq<Approval>,
    work: Work,
    parent: Option<TicketId>)

  const NO_WORK := Work([], [], [], [])

  predicate Finished(t: Ticket) {
    t.state == IsDone || t.state == IsFailed
  }

  predicate HasPendingApproval(t: Ticket) {
    exists i :: 0 <= i < |t.approvals| && t.approvals[i].approved.None?
  }

  predicate HasFailedStep(w: Work) {
    exists i :: 0 <= i < |w.steps| && w.steps[i].status == Failed
  }
}
