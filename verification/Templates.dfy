/**
 The template compiler (internal/orchestration/templates.go): every admissible input yields a definition
 that StartWorkflow accepts.
 */
module Templates {
  import opened Wrappers
  import opened Model
  import opened Text
  import opened Definitions
  import opened WorkflowGraph
  import opened WorkflowSteps
  import opened Scheduler

  datatype TemplateAgent = TemplateAgent(agentId: string, skill: string)

  datatype TemplateInput = TemplateInput(
    id: string, name: string, idempotencyKey: string, maxConcurrency: int, content: string, agents: seq<TemplateAgent>)

  datatype Definition = Definition(
    id: string, name: string, version: nat, idempotencyKey: string, maxConcurrency: int, steps: seq<StepInput>)

  datatype TemplateError = BadInput | UnknownTemplate | WrongAgentCount | AmbiguousAgent

  datatype Template = Template(id: string, version: nat, minAgents: nat, maxAgents: nat)

  const CATALOG: seq<Template> := [
    Template("single-agent", 1, 1, 1),
    Template("sequential-pipeline", 1, 2, 64),
    Template("parallel-fanout", 1, 2, 64),
    Template("review-revision", 1, 2, 2),
    Template("human-approval", 1, 1, 1)]

  function FindTemplate(catalog: seq<Template>, id: string): Option<Template> {
    if catalog == [] then None
    else if catalog[0].id == id then Some(catalog[0])
    else FindTemplate(catalog[1..], id)
  }

  predicate NamesOne(agent: TemplateAgent) {
    (Trim(agent.agentId) == "") != (Trim(agent.skill) == "")
  }

  function Step(id: string, agent: TemplateAgent, after: seq<string>, content: string): StepInput {
    StepInput(id, Trim(agent.agentId), Trim(agent.skill), after, content,
              seq(|after|, i requires 0 <= i < |after| => ArtifactInput(after[i], "", None)), true, "")
  }

  function BranchId(i: nat): string { "branch-" + Decimal(i + 1) }
  function StageId(i: nat): string { "stage-" + Decimal(i + 1) }

  /** A template of the catalogue takes these agents. */
  ghost predicate Fits(template: string, agents: seq<TemplateAgent>) {
    exists t :: t in CATALOG && t.id == template && t.minAgents <= |agents| <= t.maxAgents
  }

  function FanoutSteps(agents: seq<TemplateAgent>, content: string): seq<StepInput> {
    seq(|agents|, i requires 0 <= i < |agents| => Step(BranchId(i), agents[i], [], content))
  }

  function PipelineSteps(agents: seq<TemplateAgent>, content: string): seq<StepInput> {
    seq(|agents|, i requires 0 <= i < |agents| =>
      Step(StageId(i), agents[i], if i == 0 then [] else [StageId(i - 1)], content))
  }

  function ReviewSteps(agents: seq<TemplateAgent>, content: string): seq<StepInput>
    requires |agents| == 2
  {
    [Step("draft", agents[0], [], content),
     Step("review", agents[1], ["draft"], content),
     Step("revision", agents[0], ["review"], content)]
  }

  /** The topologies of the catalogue. */
  datatype Shape = OneAgent(stepId: string) | Fanout | Pipelined | Reviewed

  function ShapeOf(template: string): Shape {
    if template == "single-agent" then OneAgent("agent")
    else if template == "human-approval" then OneAgent("approval")
    else if template == "parallel-fanout" then Fanout
    else if template == "sequential-pipeline" then Pipelined
    else Reviewed
  }

  predicate Suits(shape: Shape, agents: seq<TemplateAgent>) {
    match shape
    case OneAgent(id) => |agents| == 1 && (id == "agent" || id == "approval")
    case Reviewed => |agents| == 2
    case _ => 2 <= |agents| <= 64
  }

  lemma FitsMeans(template: string, agents: seq<TemplateAgent>)
    requires Fits(template, agents)
    ensures Suits(ShapeOf(template), agents)
  {
    var t :| t in CATALOG && t.id == template && t.minAgents <= |agents| <= t.maxAgents;
    CatalogDistinct();
  }

  lemma CatalogDistinct()
    ensures forall i, j :: 0 <= i < j < |CATALOG| ==> CATALOG[i].id != CATALOG[j].id
  {
    assert "single-agent"[1] == 'i' && "sequential-pipeline"[1] == 'e' && "parallel-fanout"[1] == 'a' &&
           "review-revision"[1] == 'e' && "human-approval"[1] == 'u';
    assert "sequential-pipeline"[0] == 's' && "review-revision"[0] == 'r';
  }

  function StepsFor(shape: Shape, agents: seq<TemplateAgent>, content: string): seq<StepInput>
    requires Suits(shape, agents)
  {
    match shape
    case OneAgent(id) => [Step(id, agents[0], [], content)]
    case Fanout => FanoutSteps(agents, content)
    case Pipelined => PipelineSteps(agents, content)
    case Reviewed => ReviewSteps(agents, content)
  }

  function StepsOf(template: string, agents: seq<TemplateAgent>, content: string): seq<StepInput>
    requires Fits(template, agents)
  {
    FitsMeans(template, agents);
    StepsFor(ShapeOf(template), agents, content)
  }

  lemma {:induction false} FindTemplateFinds(catalog: seq<Template>, id: string)
    ensures match FindTemplate(catalog, id)
            case None => forall t :: t in catalog ==> t.id != id
            case Some(t) => t in catalog && t.id == id
  {
    if catalog != [] {
      FindTemplateFinds(catalog[1..], id);
    }
  }

  function Compile(templateId: string, input: TemplateInput, contentOk: string -> bool)
    : Result<Definition, TemplateError>
  {
    var id := Trim(templateId);
    if !contentOk(input.content) then Err(BadInput)
    else
      match FindTemplate(CATALOG, id)
      case None => Err(UnknownTemplate)
      case Some(template) =>
        FindTemplateFinds(CATALOG, id);
        if |input.agents| < template.minAgents || |input.agents| > template.maxAgents then Err(WrongAgentCount)
        else if exists agent :: agent in input.agents && !NamesOne(agent) then Err(AmbiguousAgent)
        else
          var name := Trim(input.name);
          Ok(Definition(input.id, if name == "" then id else name, template.version, input.idempotencyKey,
                        input.maxConcurrency, StepsOf(id, input.agents, input.content)))
  }

  /** The template exists, takes this many agents, and each agent is named in exactly one way. */
  ghost predicate Admissible(templateId: string, input: TemplateInput, contentOk: string -> bool) {
    contentOk(input.content) &&
    Fits(Trim(templateId), input.agents) &&
    forall agent :: agent in input.agents ==> NamesOne(agent)
  }

  lemma CompilesIffAdmissible(templateId: string, input: TemplateInput, contentOk: string -> bool)
    ensures Compile(templateId, input, contentOk).Ok? <==> Admissible(templateId, input, contentOk)
    ensures Compile(templateId, input, contentOk).Ok? ==> Compile(templateId, input, contentOk).value.version == 1
  {
    var id := Trim(templateId);
    FindTemplateFinds(CATALOG, id);
    if t :| t in CATALOG && t.id == id && t.minAgents <= |input.agents| <= t.maxAgents {
      CatalogDistinct();
    }
  }

  // Every step depends on nothing, or on an earlier step

  lemma {:induction false} NumberedIdsDiffer(prefix: string, i: nat, j: nat)
    requires prefix + Decimal(i + 1) == prefix + Decimal(j + 1)
    ensures i == j
  {
    assert (prefix + Decimal(i + 1))[|prefix|..] == Decimal(i + 1);
    assert (prefix + Decimal(j + 1))[|prefix|..] == Decimal(j + 1);
    DecimalIsInjective(i + 1, j + 1);
  }

  lemma {:induction false} DecimalEndsInDigit(n: nat)
    ensures Decimal(n) != "" && !Space(Decimal(n)[|Decimal(n)| - 1])
  {
    assert Decimal(n)[|Decimal(n)| - 1] == "0123456789"[n % 10];
  }

  lemma NumberedIdIsTrimmed(prefix: string, i: nat)
    requires prefix != "" && !Space(prefix[0])
    ensures Trim(prefix + Decimal(i + 1)) == prefix + Decimal(i + 1)
  {
    DecimalEndsInDigit(i + 1);
    TrimKeeps(prefix + Decimal(i + 1));
  }

  /** What every compiled list of steps looks like. */
  ghost predicate Layered(steps: seq<StepInput>) {
    steps != [] && |steps| <= 64 &&
    (forall i, j :: 0 <= i < j < |steps| ==> steps[i].id != steps[j].id) &&
    (forall i :: 0 <= i < |steps| ==> steps[i].id != "" && Trim(steps[i].id) == steps[i].id) &&
    forall i :: 0 <= i < |steps| ==> FollowsEarlier(steps, i)
  }

  /** Nothing, or one earlier step, together with all of its artifacts. */
  ghost predicate FollowsEarlier(steps: seq<StepInput>, i: nat)
    requires i < |steps|
  {
    (steps[i].dependsOn == [] && steps[i].inputs == []) ||
    exists j :: 0 <= j < i && steps[i].dependsOn == [steps[j].id] &&
      steps[i].inputs == [ArtifactInput(steps[j].id, "", None)]
  }

  lemma NumberedStepsAreLayered(steps: seq<StepInput>, prefix: string)
    requires 1 <= |steps| <= 64 && prefix != "" && !Space(prefix[0])
    requires forall i :: 0 <= i < |steps| ==> steps[i].id == prefix + Decimal(i + 1) && FollowsEarlier(steps, i)
    ensures Layered(steps)
  {
    forall i, j | 0 <= i < j < |steps| ensures steps[i].id != steps[j].id {
      if steps[i].id == steps[j].id {
        NumberedIdsDiffer(prefix, i, j);
      }
    }
    forall i | 0 <= i < |steps| ensures Trim(steps[i].id) == steps[i].id {
      NumberedIdIsTrimmed(prefix, i);
    }
  }

  lemma FixedIdsAreTrimmed(id: string)
    requires id == "draft" || id == "review" || id == "revision"
    ensures id != "" && Trim(id) == id
  {
    TrimKeeps(id);
  }

  lemma ReviewIsLayered(steps: seq<StepInput>, agents: seq<TemplateAgent>, content: string)
    requires |agents| == 2 && steps == ReviewSteps(agents, content)
    ensures Layered(steps)
  {
    FixedIdsAreTrimmed("draft");
    FixedIdsAreTrimmed("review");
    FixedIdsAreTrimmed("revision");
    assert "draft"[0] == 'd' && "review"[3] == 'i' && "revision"[3] == 'i' && |"review"| != |"revision"|;
    assert FollowsEarlier(steps, 0) && steps[1].dependsOn == [steps[0].id] && steps[2].dependsOn == [steps[1].id];
    assert steps[1].inputs == [ArtifactInput(steps[0].id, "", None)];
    assert steps[2].inputs == [ArtifactInput(steps[1].id, "", None)];
    assert FollowsEarlier(steps, 1) && FollowsEarlier(steps, 2);
  }

  lemma SingleIsLayered(id: string, agents: seq<TemplateAgent>, content: string)
    requires (id == "agent" || id == "approval") && agents != []
    ensures Layered([Step(id, agents[0], [], content)])
  {
    TrimKeeps(id);
  }

  lemma FanoutIsLayered(agents: seq<TemplateAgent>, content: string)
    requires 2 <= |agents| <= 64
    ensures Layered(FanoutSteps(agents, content))
  {
    NumberedStepsAreLayered(FanoutSteps(agents, content), "branch-");
  }

  lemma PipelineIsLayered(agents: seq<TemplateAgent>, content: string)
    requires 2 <= |agents| <= 64
    ensures Layered(PipelineSteps(agents, content))
  {
    var steps := PipelineSteps(agents, content);
    forall i | 0 <= i < |steps| ensures FollowsEarlier(steps, i) {
      if i > 0 {
        assert steps[i - 1].id == StageId(i - 1);
        assert steps[i].inputs == [ArtifactInput(steps[i - 1].id, "", None)];
      }
    }
    NumberedStepsAreLayered(steps, "stage-");
  }

  lemma ShapesAreLayered(shape: Shape, agents: seq<TemplateAgent>, content: string)
    requires Suits(shape, agents)
    ensures Layered(StepsFor(shape, agents, content))
  {
    match shape
    case OneAgent(id) => SingleIsLayered(id, agents, content);
    case Fanout => FanoutIsLayered(agents, content);
    case Pipelined => PipelineIsLayered(agents, content);
    case Reviewed => ReviewIsLayered(ReviewSteps(agents, content), agents, content);
  }

  /** Every step names an agent or a skill, and carries the template's content. */
  ghost predicate Staffed(steps: seq<StepInput>, content: string) {
    forall i :: 0 <= i < |steps| ==> (steps[i].agentId != "" || steps[i].skill != "") && steps[i].content == content
  }

  lemma StepIsStaffed(id: string, agent: TemplateAgent, after: seq<string>, content: string)
    requires NamesOne(agent)
    ensures Staffed([Step(id, agent, after, content)], content)
  {
  }

  lemma FanoutIsStaffed(agents: seq<TemplateAgent>, content: string)
    requires forall i :: 0 <= i < |agents| ==> NamesOne(agents[i])
    ensures Staffed(FanoutSteps(agents, content), content)
  {
    var steps := FanoutSteps(agents, content);
    forall i | 0 <= i < |steps|
      ensures (steps[i].agentId != "" || steps[i].skill != "") && steps[i].content == content
    {
      StepIsStaffed(BranchId(i), agents[i], [], content);
    }
  }

  lemma PipelineIsStaffed(agents: seq<TemplateAgent>, content: string)
    requires forall i :: 0 <= i < |agents| ==> NamesOne(agents[i])
    ensures Staffed(PipelineSteps(agents, content), content)
  {
    var steps := PipelineSteps(agents, content);
    forall i | 0 <= i < |steps|
      ensures (steps[i].agentId != "" || steps[i].skill != "") && steps[i].content == content
    {
      StepIsStaffed(StageId(i), agents[i], if i == 0 then [] else [StageId(i - 1)], content);
    }
  }

  lemma ReviewIsStaffed(agents: seq<TemplateAgent>, content: string)
    requires |agents| == 2 && NamesOne(agents[0]) && NamesOne(agents[1])
    ensures Staffed(ReviewSteps(agents, content), content)
  {
    StepIsStaffed("draft", agents[0], [], content);
    StepIsStaffed("review", agents[1], ["draft"], content);
    StepIsStaffed("revision", agents[0], ["review"], content);
  }

  lemma ShapesAreStaffed(shape: Shape, agents: seq<TemplateAgent>, content: string)
    requires Suits(shape, agents) && forall agent :: agent in agents ==> NamesOne(agent)
    ensures Staffed(StepsFor(shape, agents, content), content)
  {
    assert NamesOne(agents[0]);
    match shape
    case OneAgent(id) => StepIsStaffed(id, agents[0], [], content);
    case Fanout => FanoutIsStaffed(agents, content);
    case Pipelined => PipelineIsStaffed(agents, content);
    case Reviewed => ReviewIsStaffed(agents, content);
  }

  /** A layered definition passes normalisation. */
  lemma LayeredStepIsGood(steps: seq<StepInput>, i: nat, contentOk: string -> bool)
    requires Layered(steps) && i < |steps|
    requires (steps[i].agentId != "" || steps[i].skill != "") && contentOk(steps[i].content)
    ensures GoodStep(steps[i], i, contentOk)
  {
    var s := steps[i];
    assert FollowsEarlier(steps, i);
    assert NormalForm(s.dependsOn, s.dependsOn) && GoodInputs(s.inputs, s.dependsOn) by {
      if s.dependsOn != [] {
        var j :| 0 <= j < i && s.dependsOn == [steps[j].id] && s.inputs == [ArtifactInput(steps[j].id, "", None)];
        assert Trim(steps[j].id) == steps[j].id;
        assert TrimmedSet(s.dependsOn) == {steps[j].id};
        assert Trim("") == "";
        assert Trimmed(s.inputs[0]) == s.inputs[0];
      }
    }
  }

  /** Where each step depends only on earlier ones, the graph is known and acyclic. */
  lemma EarlierDependenciesRank(steps: seq<WorkflowStep>)
    requires DistinctIds(steps)
    requires forall i, d :: 0 <= i < |steps| && d in steps[i].dependsOn ==> exists j :: 0 <= j < i && steps[j].id == d
    ensures AllKnown(steps) && Acyclic(steps)
  {
    var rank := PositionRank(steps);
    PositionsAreRanks(steps);
    forall i, d | 0 <= i < |steps| && d in steps[i].dependsOn
      ensures d in rank && rank[d] < rank[steps[i].id] && d in StepIds(steps)
    {
      var j :| 0 <= j < i && steps[j].id == d;
      assert steps[j] in steps;
    }
    assert Ranked(steps, rank);
  }

  /** Each step's place in the list. */
  function PositionRank(steps: seq<WorkflowStep>): map<string, nat> {
    if steps == [] then map[]
    else
      var last := |steps| - 1;
      PositionRank(steps[..last])[steps[last].id := last]
  }

  lemma {:induction false} PositionsAreRanks(steps: seq<WorkflowStep>)
    requires DistinctIds(steps)
    ensures forall i :: 0 <= i < |steps| ==> steps[i].id in PositionRank(steps) && PositionRank(steps)[steps[i].id] == i
  {
    if steps != [] {
      PositionsAreRanks(steps[..|steps| - 1]);
    }
  }

  /** The aggregate's steps for a layered definition form an accepted graph. */
  lemma LayeredGraphIsAccepted(steps: seq<StepInput>, made: seq<WorkflowStep>)
    requires Layered(steps) && |made| == |steps| && forall i :: 0 <= i < |steps| ==> StepFor(steps[i], i, made[i])
    ensures DistinctIds(made) && AllKnown(made) && Acyclic(made)
  {
    forall i, d | 0 <= i < |made| && d in made[i].dependsOn ensures exists j :: 0 <= j < i && made[j].id == d {
      assert StepFor(steps[i], i, made[i]) && FollowsEarlier(steps, i);
      var j :| 0 <= j < i && steps[i].dependsOn == [steps[j].id];
      assert TrimmedSet(steps[i].dependsOn) == {Trim(steps[j].id)};
      assert StepFor(steps[j], j, made[j]);
    }
    EarlierDependenciesRank(made);
  }

  /**
   Every admissible template run compiles to a definition with distinct step IDs that passes normalisation
   and whose graph is accepted; so the scheduler's guarantees hold for it.
   */
  lemma CompiledDefinitionIsAccepted(templateId: string, input: TemplateInput, contentOk: string -> bool,
                                     made: seq<WorkflowStep>)
    requires Admissible(templateId, input, contentOk)
    ensures Compile(templateId, input, contentOk).Ok?
    ensures var steps := Compile(templateId, input, contentOk).value.steps;
            1 <= |steps| <= 64 && GoodSteps(steps, contentOk, |steps|) &&
            (|made| == |steps| && (forall i :: 0 <= i < |steps| ==> StepFor(steps[i], i, made[i])) ==>
               DistinctIds(made) && AllKnown(made) && Acyclic(made))
  {
    CompilesIffAdmissible(templateId, input, contentOk);
    var id := Trim(templateId);
    var steps := Compile(templateId, input, contentOk).value.steps;
    FitsMeans(id, input.agents);
    ShapesAreLayered(ShapeOf(id), input.agents, input.content);
    ShapesAreStaffed(ShapeOf(id), input.agents, input.content);
    forall i | 0 <= i < |steps| ensures GoodStep(steps[i], i, contentOk) {
      LayeredStepIsGood(steps, i, contentOk);
    }
    if |made| == |steps| && forall i :: 0 <= i < |steps| ==> StepFor(steps[i], i, made[i]) {
      LayeredGraphIsAccepted(steps, made);
    }
  }

  // Who does what

  /** That agent or skill does the step on the template's content, after at most one other, whose artifacts it gets. */
  ghost predicate IsDoneBy(s: StepInput, id: string, agent: TemplateAgent, after: Option<string>, content: string) {
    s.id == id && s.agentId == Trim(agent.agentId) && s.skill == Trim(agent.skill) && s.content == content &&
    s.required && s.compensationText == "" &&
    match after
    case None => s.dependsOn == [] && s.inputs == []
    case Some(other) => s.dependsOn == [other] && s.inputs == [ArtifactInput(other, "", None)]
  }

  ghost predicate FanoutTopology(agents: seq<TemplateAgent>, content: string, steps: seq<StepInput>) {
    2 <= |agents| == |steps| <= 64 &&
    forall i :: 0 <= i < |steps| ==> IsDoneBy(steps[i], "branch-" + Decimal(i + 1), agents[i], None, content)
  }

  ghost predicate PipelineTopology(agents: seq<TemplateAgent>, content: string, steps: seq<StepInput>) {
    2 <= |agents| == |steps| <= 64 &&
    forall i :: 0 <= i < |steps| ==>
      IsDoneBy(steps[i], "stage-" + Decimal(i + 1), agents[i], if i == 0 then None else Some("stage-" + Decimal(i)),
               content)
  }

  /** The topologies, template by template. */
  ghost predicate Topology(template: string, agents: seq<TemplateAgent>, content: string, steps: seq<StepInput>) {
    (template == "single-agent" ==>
       |agents| == |steps| == 1 && IsDoneBy(steps[0], "agent", agents[0], None, content)) &&
    (template == "human-approval" ==>
       |agents| == |steps| == 1 && IsDoneBy(steps[0], "approval", agents[0], None, content)) &&
    (template == "parallel-fanout" ==> FanoutTopology(agents, content, steps)) &&
    (template == "sequential-pipeline" ==> PipelineTopology(agents, content, steps)) &&
    (template == "review-revision" ==>
       |agents| == 2 && |steps| == 3 && IsDoneBy(steps[0], "draft", agents[0], None, content) &&
       IsDoneBy(steps[1], "review", agents[1], Some("draft"), content) &&
       IsDoneBy(steps[2], "revision", agents[0], Some("review"), content))
  }

  /** Exactly these five templates exist, for these numbers of agents. */
  predicate Exists(template: string, agents: nat) {
    (template == "single-agent" && agents == 1) || (template == "human-approval" && agents == 1) ||
    (template == "parallel-fanout" && 2 <= agents <= 64) || (template == "sequential-pipeline" && 2 <= agents <= 64) ||
    (template == "review-revision" && agents == 2)
  }

  lemma FitsIffExists(template: string, agents: seq<TemplateAgent>)
    ensures Fits(template, agents) <==> Exists(template, |agents|)
  {
    assert CATALOG[0].id == "single-agent" && CATALOG[1].id == "sequential-pipeline" &&
           CATALOG[2].id == "parallel-fanout" && CATALOG[3].id == "review-revision" &&
           CATALOG[4].id == "human-approval";
    if Exists(template, |agents|) {
      assert CATALOG[0] in CATALOG && CATALOG[1] in CATALOG && CATALOG[2] in CATALOG && CATALOG[3] in CATALOG &&
             CATALOG[4] in CATALOG;
    }
  }

  lemma FanoutIsDoneBy(agents: seq<TemplateAgent>, content: string, i: nat)
    requires i < |agents|
    ensures IsDoneBy(FanoutSteps(agents, content)[i], "branch-" + Decimal(i + 1), agents[i], None, content)
  {
  }

  lemma PipelineIsDoneBy(agents: seq<TemplateAgent>, content: string, i: nat)
    requires i < |agents|
    ensures IsDoneBy(PipelineSteps(agents, content)[i], "stage-" + Decimal(i + 1), agents[i],
                     if i == 0 then None else Some("stage-" + Decimal(i)), content)
  {
  }

  lemma FanoutIsSuch(agents: seq<TemplateAgent>, content: string)
    requires 2 <= |agents| <= 64
    ensures FanoutTopology(agents, content, FanoutSteps(agents, content))
  {
    forall i | 0 <= i < |agents|
      ensures IsDoneBy(FanoutSteps(agents, content)[i], "branch-" + Decimal(i + 1), agents[i], None, content)
    {
      FanoutIsDoneBy(agents, content, i);
    }
  }

  lemma TopologyOfFanout(agents: seq<TemplateAgent>, content: string)
    requires Fits("parallel-fanout", agents)
    ensures Topology("parallel-fanout", agents, content, StepsOf("parallel-fanout", agents, content))
  {
    FitsIffExists("parallel-fanout", agents);
    assert "single-agent"[1] == 'i' && "sequential-pipeline"[1] == 'e' && "parallel-fanout"[1] == 'a' &&
           "review-revision"[0] == 'r' && "human-approval"[1] == 'u';
    FanoutIsSuch(agents, content);
  }

  lemma PipelineIsSuch(agents: seq<TemplateAgent>, content: string)
    requires 2 <= |agents| <= 64
    ensures PipelineTopology(agents, content, PipelineSteps(agents, content))
  {
    forall i | 0 <= i < |agents|
      ensures IsDoneBy(PipelineSteps(agents, content)[i], "stage-" + Decimal(i + 1), agents[i],
                       if i == 0 then None else Some("stage-" + Decimal(i)), content)
    {
      PipelineIsDoneBy(agents, content, i);
    }
  }

  lemma TopologyOfPipeline(agents: seq<TemplateAgent>, content: string)
    requires Fits("sequential-pipeline", agents)
    ensures Topology("sequential-pipeline", agents, content, StepsOf("sequential-pipeline", agents, content))
  {
    FitsIffExists("sequential-pipeline", agents);
    assert "single-agent"[1] == 'i' && "sequential-pipeline"[1] == 'e' && "parallel-fanout"[1] == 'a' &&
           "review-revision"[0] == 'r' && "human-approval"[1] == 'u';
    PipelineIsSuch(agents, content);
  }

  lemma TopologyOfFew(template: string, agents: seq<TemplateAgent>, content: string)
    requires Fits(template, agents) && template != "parallel-fanout" && template != "sequential-pipeline"
    ensures Topology(template, agents, content, StepsOf(template, agents, content))
  {
    FitsIffExists(template, agents);
    assert "single-agent"[1] == 'i' && "review-revision"[0] == 'r' && "human-approval"[1] == 'u';
  }

  lemma TopologyOfShape(template: string, agents: seq<TemplateAgent>, content: string)
    requires Fits(template, agents)
    ensures Topology(template, agents, content, StepsOf(template, agents, content))
  {
    if template == "parallel-fanout" {
      TopologyOfFanout(agents, content);
    } else if template == "sequential-pipeline" {
      TopologyOfPipeline(agents, content);
    } else {
      TopologyOfFew(template, agents, content);
    }
  }

  /**
   What a template compiles to: who does which step on what, in which topology, and the run's own ID, name,
   idempotency key and concurrency limit.
   */
  lemma CompiledDefinitionIs(templateId: string, input: TemplateInput, contentOk: string -> bool)
    ensures var template := Trim(templateId);
            Compile(templateId, input, contentOk).Ok? <==>
            contentOk(input.content) && Exists(template, |input.agents|) &&
            forall agent :: agent in input.agents ==> ((Trim(agent.agentId) == "") <==> (Trim(agent.skill) != ""))
    ensures Compile(templateId, input, contentOk).Ok? ==>
              var d, template := Compile(templateId, input, contentOk).value, Trim(templateId);
              Topology(template, input.agents, input.content, d.steps) && d.id == input.id &&
              d.name == (if Trim(input.name) == "" then template else Trim(input.name)) &&
              d.idempotencyKey == input.idempotencyKey && d.maxConcurrency == input.maxConcurrency
  {
    CompilesIffAdmissible(templateId, input, contentOk);
    FitsIffExists(Trim(templateId), input.agents);
    if Compile(templateId, input, contentOk).Ok? {
      TopologyOfShape(Trim(templateId), input.agents, input.content);
    }
  }

  // The pipeline's one order

  /** Wherever the step stands, its dependencies stand before it. */
  ghost predicate AfterDependencies(order: seq<string>, s: WorkflowStep) {
    forall p, d :: 0 <= p < |order| && order[p] == s.id && d in s.dependsOn ==> d in order[..p]
  }

  ghost predicate TopologicalOrder(order: seq<string>, steps: seq<WorkflowStep>) {
    |order| == |steps| && forall i :: 0 <= i < |steps| ==> steps[i].id in order && AfterDependencies(order, steps[i])
  }

  /** The aggregate's steps for a compiled pipeline. */
  ghost predicate Pipeline(made: seq<WorkflowStep>, agents: seq<TemplateAgent>, content: string) {
    2 <= |agents| <= 64 && |made| == |agents| &&
    forall i :: 0 <= i < |made| ==> StepFor(PipelineSteps(agents, content)[i], i, made[i])
  }

  lemma StageFollows(made: seq<WorkflowStep>, agents: seq<TemplateAgent>, content: string, i: nat)
    requires Pipeline(made, agents, content) && i < |made|
    ensures made[i].id == StageId(i) && (i > 0 ==> StageId(i - 1) in made[i].dependsOn)
  {
    assert StepFor(PipelineSteps(agents, content)[i], i, made[i]);
    if i > 0 {
      NumberedIdIsTrimmed("stage-", i - 1);
      assert TrimmedSet([StageId(i - 1)]) == {StageId(i - 1)};
    }
  }

  /** Every stage but the first depends on the one before. */
  ghost predicate Chain(made: seq<WorkflowStep>) {
    forall i :: 0 <= i < |made| ==> made[i].id == StageId(i) && (i > 0 ==> StageId(i - 1) in made[i].dependsOn)
  }

  lemma {:induction false} StageNotBefore(order: seq<string>, made: seq<WorkflowStep>, i: nat, p: nat)
    requires Chain(made) && TopologicalOrder(order, made)
    requires i < |made| && p < |order| && order[p] == StageId(i)
    ensures p >= i
  {
    if i > 0 {
      assert made[i].id == StageId(i) && AfterDependencies(order, made[i]);
      assert StageId(i - 1) in order[..p];
      var q :| 0 <= q < p && order[q] == StageId(i - 1);
      StageNotBefore(order, made, i - 1, q);
    }
  }

  lemma PreviousComesBefore(order: seq<string>, made: seq<WorkflowStep>, i: nat)
    requires Chain(made) && TopologicalOrder(order, made)
    requires i + 1 < |made| && order[i + 1] == StageId(i + 1)
    ensures StageId(i) in order[..i + 1]
  {
    assert made[i + 1].id == StageId(i + 1) && AfterDependencies(order, made[i + 1]);
  }

  lemma {:induction false} StageStandsAt(order: seq<string>, made: seq<WorkflowStep>, i: nat)
    requires Chain(made) && TopologicalOrder(order, made)
    requires i < |made|
    ensures order[i] == StageId(i)
    decreases |made| - i
  {
    var p: nat;
    if i == |made| - 1 {
      assert made[i].id == StageId(i) && made[i].id in order;
      p :| p < |order| && order[p] == StageId(i);
    } else {
      StageStandsAt(order, made, i + 1);
      PreviousComesBefore(order, made, i);
      p :| p < i + 1 && order[p] == StageId(i);
    }
    StageNotBefore(order, made, i, p);
  }

  function StageOrder(n: nat): seq<string> {
    seq(n, i requires 0 <= i < n => StageId(i))
  }

  /** A sequential pipeline of n agents has stage-1, ..., stage-n as its only topological order. */
  lemma PipelineHasOneOrder(order: seq<string>, made: seq<WorkflowStep>, agents: seq<TemplateAgent>, content: string)
    requires Pipeline(made, agents, content)
    ensures TopologicalOrder(order, made) <==> order == StageOrder(|made|)
  {
    if TopologicalOrder(order, made) {
      forall i | 0 <= i < |made| ensures made[i].id == StageId(i) && (i > 0 ==> StageId(i - 1) in made[i].dependsOn) {
        StageFollows(made, agents, content, i);
      }
      forall i | 0 <= i < |made| ensures order[i] == StageId(i) {
        StageStandsAt(order, made, i);
      }
    }
    PipelineOrderIsTopological(made, agents, content);
  }

  lemma StageDependsOnPrevious(made: seq<WorkflowStep>, agents: seq<TemplateAgent>, content: string, i: nat, d: string)
    requires Pipeline(made, agents, content) && i < |made| && d in made[i].dependsOn
    ensures i > 0 && d == StageId(i - 1)
  {
    assert StepFor(PipelineSteps(agents, content)[i], i, made[i]);
    if i > 0 {
      NumberedIdIsTrimmed("stage-", i - 1);
      assert TrimmedSet([StageId(i - 1)]) == {StageId(i - 1)};
    }
  }

  /** That order is one: every stage comes after its dependency. */
  lemma PipelineOrderIsTopological(made: seq<WorkflowStep>, agents: seq<TemplateAgent>, content: string)
    requires Pipeline(made, agents, content)
    ensures TopologicalOrder(StageOrder(|made|), made)
  {
    var order := StageOrder(|made|);
    forall i | 0 <= i < |made| ensures made[i].id in order && AfterDependencies(order, made[i]) {
      StageFollows(made, agents, content, i);
      assert order[i] == made[i].id;
      StageAfterDependencies(made, agents, content, i);
    }
  }

  lemma StageAfterDependencies(made: seq<WorkflowStep>, agents: seq<TemplateAgent>, content: string, i: nat)
    requires Pipeline(made, agents, content) && i < |made|
    ensures AfterDependencies(StageOrder(|made|), made[i])
  {
    StageFollows(made, agents, content, i);
    forall p, d | 0 <= p < |made| && StageId(p) == made[i].id && d in made[i].dependsOn
      ensures d in StageOrder(|made|)[..p]
    {
      NumberedIdsDiffer("stage-", i, p);
      StageDependsOnPrevious(made, agents, content, i, d);
      PreviousInOrder(|made|, i);
    }
  }

  lemma PreviousInOrder(n: nat, i: nat)
    requires 1 <= i < n
    ensures StageId(i - 1) in StageOrder(n)[..i]
  {
    assert StageOrder(n)[..i][i - 1] == StageId(i - 1);
  }

  // Starting a template

  datatype TemplateStartError = NotCompiled(compilation: TemplateError) | NotStarted(start: StartError)

  function StepsMade(normal: seq<(WorkflowStep, seq<ArtifactInput>)>): seq<WorkflowStep> {
    seq(|normal|, i requires 0 <= i < |normal| => normal[i].0)
  }

  lemma MadeSteps(steps: seq<StepInput>, normal: seq<(WorkflowStep, seq<ArtifactInput>)>)
    requires |normal| == |steps| && AllMade(steps, normal)
    ensures forall i :: 0 <= i < |steps| ==> StepFor(steps[i], i, StepsMade(normal)[i])
    ensures forall s :: s in StepsMade(normal) ==> Waiting(s)
  {
    forall i | 0 <= i < |steps| ensures StepFor(steps[i], i, StepsMade(normal)[i]) {
      assert MadeFor(steps[i], i, normal[i]);
    }
  }

  /** The aggregate's steps are those of the compiled definition. */
  ghost predicate StepsAre(templateId: string, input: TemplateInput, contentOk: string -> bool,
                           made: seq<WorkflowStep>) {
    var d := Compile(templateId, input, contentOk);
    d.Ok? && |made| == |d.value.steps| && forall i :: 0 <= i < |made| ==> StepFor(d.value.steps[i], i, made[i])
  }

  /** Compiles a template and builds the aggregate's steps; normalisation cannot fail. */
  method PrepareTemplate(templateId: string, input: TemplateInput, contentOk: string -> bool)
    returns (r: Result<(nat, seq<WorkflowStep>), TemplateStartError>)
    ensures r.Ok? <==> Admissible(templateId, input, contentOk)
    ensures r.Ok? ==>
              var (version, steps) := r.value;
              version <= 1000 && 1 <= |steps| <= 64 && DistinctIds(steps) && AllKnown(steps) && Acyclic(steps) &&
              (forall s :: s in steps ==> Waiting(s)) && StepsAre(templateId, input, contentOk, steps)
  {
    CompilesIffAdmissible(templateId, input, contentOk);
    var compiled := Compile(templateId, input, contentOk);
    if compiled.Err? {
      return Err(NotCompiled(compiled.error));
    }
    CompiledDefinitionIsAccepted(templateId, input, contentOk, []);
    var normal := NormalizeSteps(compiled.value.steps, contentOk);
    var steps := StepsMade(normal.value);
    MadeSteps(compiled.value.steps, normal.value);
    CompiledDefinitionIsAccepted(templateId, input, contentOk, steps);
    return Ok((compiled.value.version, steps));
  }

  /**
   Compiles a template and starts the workflow. It is accepted exactly when there is a tenant, the input is
   admissible and the concurrency limit is at most 1024: no later check can fail.
   */
  method StartWorkflowTemplate(tenant: string, templateId: string, input: TemplateInput, contentOk: string -> bool,
                               provider: Provider)
    returns (r: Result<Coordinator, TemplateStartError>)
    requires provider.calls == []
    modifies provider
    ensures r.Ok? <==> tenant != "" && Admissible(templateId, input, contentOk) && input.maxConcurrency <= 1024
    ensures r.Ok? ==>
              fresh(r.value) && r.value.Valid() && r.value.provider == provider &&
              StepsAre(templateId, input, contentOk, r.value.origin) &&
              r.value.maxConcurrency == (if input.maxConcurrency <= 0 then |r.value.origin| else input.maxConcurrency)
    ensures r.Err? ==> provider.calls == []
  {
    var prepared := PrepareTemplate(templateId, input, contentOk);
    if prepared.Err? {
      return Err(prepared.error);
    }
    var started := StartWorkflow(tenant, prepared.value.0, prepared.value.1, input.maxConcurrency, provider);
    return match started case Ok(c) => Ok(c) case Err(e) => Err(NotStarted(e));
  }
}
