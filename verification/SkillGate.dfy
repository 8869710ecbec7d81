/**
 PLAN-time skill expansion (packages/slas-kernel/slas_kernel/skills.py): a `skill` step is
 compiled once, behind the enablement gate, and takes the largest risk of its compiled steps.
 */
module SkillGate {
  import opened Options
  import opened Records

  const SKILL_PRIMITIVE := "skill"
  const SECRET_PLACEHOLDER := "resolved-at-dispatch"
  const TARGET_ARGS := ["station", "target"]

  datatype Skill = Skill(id: string, agents: set<string>, inputs: set<string>)

  /** The compiler itself is a parameter: the risks of the compiled steps, or a compile error. */
  datatype Gate = Gate(
    library: map<string, Skill>,
    enabled: set<(string, string)>,
    compile: (Skill, map<string, string>, string) -> Option<seq<Risk>>)

  datatype Expansion = Expanded(plan: Plan) | Refused(stepId: StepId)

  function MaxRisk(risks: seq<Risk>): (r: Risk)
    ensures forall i :: 0 <= i < |risks| ==> RiskOrder(risks[i]) <= RiskOrder(r)
    ensures r == Safe || r in risks
  {
    if risks == [] then Safe
    else
      var rest := MaxRisk(risks[1..]);
      assert forall i :: 1 <= i < |risks| ==> risks[i] == risks[1..][i - 1];
      if RiskOrder(rest) > RiskOrder(risks[0]) then rest else risks[0]
  }

  /** The target arguments fill gaps in the given inputs; secrets become a placeholder, last. */
  function BoundInputs(args: Args, skill: Skill): (r: map<string, string>)
    ensures forall k :: k in args.secretRefs ==> k in r && r[k] == SECRET_PLACEHOLDER
    ensures forall k :: k in args.inputs && k !in args.secretRefs ==> k in r && r[k] == args.inputs[k]
    ensures forall k :: k !in args.inputs && k !in args.secretRefs ==>
      (k in r <==> (k == "station" || k == "target") && k in args.place && k in skill.inputs) && (k in r ==> r[k] == args.place[k])
  {
    var placed := map k | k in args.place && k in TARGET_ARGS && k in skill.inputs && k !in args.inputs
                    :: args.place[k];
    args.inputs + placed + (map k | k in args.secretRefs :: SECRET_PLACEHOLDER)
  }

  /** The risks a skill step compiles to, or None where the gate refuses it. */
  function CompiledRisks(g: Gate, s: Step, jobId: string, agent: string): (r: Option<seq<Risk>>)
  {
    if s.args.skillId !in g.library then None
    else
      var skill := g.library[s.args.skillId];
      if agent !in skill.agents then None
      else if (skill.id, agent) !in g.enabled then None
      else g.compile(skill, BoundInputs(s.args, skill), jobId)
  }

  function ExpandStep(g: Gate, s: Step, jobId: string, agent: string): (r: Option<Step>)
  {
    match CompiledRisks(g, s, jobId, agent)
    case None => None
    case Some(risks) =>
      var risk := MaxRisk(risks);
      Some(s.(args := s.args.(compiled := Some(risks)),
              risk := if RiskOrder(risk) < RiskOrder(s.risk) then s.risk else risk))
  }

  /** The steps in order; the first refused skill step ends the expansion. */
  function ExpandSteps(g: Gate, steps: seq<Step>, jobId: string, agent: string): (r: (seq<Step>, Option<StepId>))
  {
    if steps == [] then ([], None)
    else
      var head := if steps[0].primitive == SKILL_PRIMITIVE then ExpandStep(g, steps[0], jobId, agent) else Some(steps[0]);
      if head.None? then ([], Some(steps[0].id))
      else
        var (rest, bad) := ExpandSteps(g, steps[1..], jobId, agent);
        ([head.value] + rest, bad)
  }

  function Expand(g: Gate, plan: Plan, agent: string): (r: Expansion)
  {
    var (steps, bad) := ExpandSteps(g, plan.steps, plan.jobId, agent);
    if bad.Some? then Refused(bad.value) else Expanded(plan.(steps := steps))
  }

  predicate IsSkill(s: Step) { s.primitive == "skill" }

  /** In the library, open to the agent, turned on for it, and compilable with the step's inputs. */
  predicate Admissible(g: Gate, s: Step, jobId: string, agent: string) {
    && s.args.skillId in g.library
    && var skill := g.library[s.args.skillId];
       && agent in skill.agents && (skill.id, agent) in g.enabled
       && g.compile(skill, BoundInputs(s.args, skill), jobId).Some?
  }

  /** A skill step carries the risks it compiled to and the largest of them and its own; any other step is left alone. */
  predicate Gated(g: Gate, before: Step, after: Step, jobId: string, agent: string) {
    if !IsSkill(before) then after == before
    else
      && Admissible(g, before, jobId, agent)
      && var skill := g.library[before.args.skillId];
         var risks := g.compile(skill, BoundInputs(before.args, skill), jobId).value;
         && after == before.(args := before.args.(compiled := Some(risks)), risk := after.risk)
         && after.risk in [before.risk] + risks
         && RiskOrder(before.risk) <= RiskOrder(after.risk)
         && forall c :: c in risks ==> RiskOrder(c) <= RiskOrder(after.risk)
  }

  lemma {:induction false} ExpandStepsIsFaithful(g: Gate, steps: seq<Step>, jobId: string, agent: string)
    ensures var (out, bad) := ExpandSteps(g, steps, jobId, agent);
      && (bad.None? ==> |out| == |steps|)
      && (bad.Some? ==> |out| < |steps| && bad.value == steps[|out|].id
                        && IsSkill(steps[|out|]) && !Admissible(g, steps[|out|], jobId, agent))
      && |out| <= |steps|
      && forall i :: 0 <= i < |out| ==> Gated(g, steps[i], out[i], jobId, agent)
  {
    if steps != [] {
      ExpandStepsIsFaithful(g, steps[1..], jobId, agent);
      var (out, bad) := ExpandSteps(g, steps, jobId, agent);
      var (rest, _) := ExpandSteps(g, steps[1..], jobId, agent);
      if out != [] {
        assert out[1..] == rest;
        forall i | 0 <= i < |out| ensures Gated(g, steps[i], out[i], jobId, agent) {
          if i > 0 {
            assert out[i] == rest[i - 1] && steps[i] == steps[1..][i - 1];
          }
        }
      }
    }
  }

  /**
   The gate passes a plan if and only if every skill step is admissible; each step then is as `Gated`
   says. Otherwise it names the first skill step that is not.
   */
  lemma {:induction false} ExpandIsFaithful(g: Gate, plan: Plan, agent: string)
    ensures Expand(g, plan, agent).Expanded? <==>
      forall i :: 0 <= i < |plan.steps| && IsSkill(plan.steps[i]) ==> Admissible(g, plan.steps[i], plan.jobId, agent)
    ensures match Expand(g, plan, agent)
      case Expanded(p) =>
        && p.jobId == plan.jobId && |p.steps| == |plan.steps|
        && forall i :: 0 <= i < |plan.steps| ==> Gated(g, plan.steps[i], p.steps[i], plan.jobId, agent)
      case Refused(s) =>
        exists i :: 0 <= i < |plan.steps| && plan.steps[i].id == s && IsSkill(plan.steps[i])
          && !Admissible(g, plan.steps[i], plan.jobId, agent)
          && forall k :: 0 <= k < i && IsSkill(plan.steps[k]) ==> Admissible(g, plan.steps[k], plan.jobId, agent)
  {
    ExpandStepsIsFaithful(g, plan.steps, plan.jobId, agent);
    hide Admissible;
    var (steps, bad) := ExpandSteps(g, plan.steps, plan.jobId, agent);
    if bad.None? {
      forall i | 0 <= i < |plan.steps| && IsSkill(plan.steps[i]) ensures Admissible(g, plan.steps[i], plan.jobId, agent) {
        assert Gated(g, plan.steps[i], steps[i], plan.jobId, agent);
      }
    } else {
      assert plan.steps[|steps|].id == bad.value;
      forall k | 0 <= k < |steps| && IsSkill(plan.steps[k]) ensures Admissible(g, plan.steps[k], plan.jobId, agent) {
        assert Gated(g, plan.steps[k], steps[k], plan.jobId, agent);
      }
    }
  }

  /** What the gate passes is a valid plan again, and destructive if it was. */
  lemma {:induction false} ExpandKeeps(g: Gate, plan: Plan, agent: string)
    requires Expand(g, plan, agent).Expanded?
    ensures var p := Expand(g, plan, agent).plan;
      (plan.Valid() ==> p.Valid()) && (plan.IsDestructive() ==> p.IsDestructive())
  {
    ExpandIsFaithful(g, plan, agent);
    hide Expand;
    var p := Expand(g, plan, agent).plan;
    forall i | 0 <= i < |plan.steps|
      ensures p.steps[i].id == plan.steps[i].id && (plan.steps[i].risk == Destructive ==> p.steps[i].risk == Destructive)
    {
      assert Gated(g, plan.steps[i], p.steps[i], plan.jobId, agent);
    }
  }
}
