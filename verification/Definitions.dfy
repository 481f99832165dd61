/**
 From a workflow definition to the steps of an aggregate (internal/orchestration/workflow.go,
 normalizeDependencies, normalizeArtifactInputs and the step loop of StartWorkflow).
 */
module Definitions {
  import opened Wrappers
  import opened Model
  import opened Text
  import opened Ordering

  datatype ArtifactInput = ArtifactInput(fromStep: string, artifactId: string, partIndex: Option<int>)

  datatype StepInput = StepInput(
    id: string, agentId: string, skill: string, dependsOn: seq<string>, content: string,
    inputs: seq<ArtifactInput>, required: bool, compensationText: string)

  datatype DefinitionError =
    | EmptyDependency(step: string)
    | SelfDependency(step: string)
    | BadArtifactInput(step: string)
    | RepeatedArtifactInput(step: string)
    | NoAgent(step: string)
    | BadContent(step: string)

  // Dependencies

  predicate GoodDependencies(stepId: string, values: seq<string>) {
    forall v :: v in values ==> Trim(v) != "" && Trim(v) != stepId
  }

  ghost predicate Ascending(xs: seq<string>) {
    forall i, j :: 0 <= i < j < |xs| ==> Less(xs[i], xs[j])
  }

  function TrimmedSet(values: seq<string>): set<string> {
    set v | v in values :: Trim(v)
  }

  /** The trimmed dependencies, each once, in ascending order. */
  ghost predicate NormalForm(values: seq<string>, normal: seq<string>) {
    Ascending(normal) && forall x :: x in normal <==> x in TrimmedSet(values)
  }

  lemma AscendingIsDistinct(xs: seq<string>, i: nat, j: nat)
    requires Ascending(xs) && i < j < |xs|
    ensures xs[i] != xs[j]
  {
    LessIrreflexive(xs[i]);
  }

  lemma SomeMember(xs: seq<string>)
    ensures xs == [] || exists x :: x in xs
  {
    if xs != [] {
      assert xs[0] in xs;
    }
  }

  lemma {:induction false} AscendingIsUnique(xs: seq<string>, ys: seq<string>)
    requires Ascending(xs) && Ascending(ys) && forall x :: x in xs <==> x in ys
    ensures xs == ys
  {
    SomeMember(xs);
    SomeMember(ys);
    if xs != [] && ys != [] {
      HeadsAgree(xs, ys);
      forall x ensures x in xs[1..] <==> x in ys[1..] {
        TailMember(xs, x);
        TailMember(ys, x);
      }
      AscendingIsUnique(xs[1..], ys[1..]);
      assert xs == [xs[0]] + xs[1..] && ys == [ys[0]] + ys[1..];
    }
  }

  lemma TailMember(xs: seq<string>, x: string)
    requires Ascending(xs) && xs != []
    ensures x in xs[1..] <==> x in xs && x != xs[0]
  {
    if x in xs[1..] {
      var i :| 0 <= i < |xs| - 1 && xs[1..][i] == x;
      AscendingIsDistinct(xs, 0, i + 1);
    }
  }

  lemma HeadsAgree(xs: seq<string>, ys: seq<string>)
    requires Ascending(xs) && Ascending(ys) && xs != [] && ys != [] && forall x :: x in xs <==> x in ys
    ensures xs[0] == ys[0]
  {
    if xs[0] != ys[0] {
      assert xs[0] in ys && ys[0] in xs;
      var i :| 0 <= i < |ys| && ys[i] == xs[0];
      var j :| 0 <= j < |xs| && xs[j] == ys[0];
      LessTransitive(ys[0], xs[0], ys[0]);
      LessIrreflexive(ys[0]);
    }
  }

  /**
   The normal form does not depend on the order, the repetitions or the white space of the definition:
   two lists that name the same steps have the same one.
   */
  lemma NormalFormIsUnique(a: seq<string>, b: seq<string>, normalA: seq<string>, normalB: seq<string>)
    requires NormalForm(a, normalA) && NormalForm(b, normalB)
    requires TrimmedSet(a) == TrimmedSet(b)
    ensures normalA == normalB
  {
    AscendingIsUnique(normalA, normalB);
  }

  /** Normalising again changes nothing. */
  lemma NormalFormIsStable(values: seq<string>, normal: seq<string>, again: seq<string>)
    requires NormalForm(values, normal) && NormalForm(normal, again)
    ensures again == normal
  {
    forall x | x in normal ensures Trim(x) == x {
      var v :| v in values && Trim(v) == x;
      TrimIsStable(v);
    }
    assert forall x :: x in TrimmedSet(normal) <==> x in normal;
    AscendingIsUnique(again, normal);
  }

  function AsKey(s: string): SortKey {
    SortKey(0, s, "")
  }

  method SortStrings(xs: seq<string>) returns (r: seq<string>)
    requires forall i, j :: 0 <= i < j < |xs| ==> xs[i] != xs[j]
    ensures Ascending(r) && forall x :: x in r <==> x in xs
  {
    r := [];
    var i := 0;
    while i < |xs|
      invariant 0 <= i <= |xs| && Sorted(r, AsKey) && forall x :: x in r <==> x in xs[..i]
    {
      assert xs[i] !in xs[..i];
      r := Insert(r, xs[i], AsKey);
      assert xs[..i + 1] == xs[..i] + [xs[i]];
      i := i + 1;
    }
    assert xs[..i] == xs;
    forall a, b | 0 <= a < b < |r| ensures Less(r[a], r[b]) {
      assert Before(AsKey(r[a]), AsKey(r[b]));
    }
  }

  method NormalizeDependencies(stepId: string, values: seq<string>) returns (r: Result<seq<string>, DefinitionError>)
    ensures r.Ok? <==> GoodDependencies(stepId, values)
    ensures r.Ok? ==> NormalForm(values, r.value)
  {
    var seen, result := {}, [];
    var i := 0;
    while i < |values|
      invariant 0 <= i <= |values| && GoodDependencies(stepId, values[..i])
      invariant forall x :: x in seen <==> x in result
      invariant forall a, b :: 0 <= a < b < |result| ==> result[a] != result[b]
      invariant forall x :: x in result <==> x in TrimmedSet(values[..i])
    {
      var dependency := Trim(values[i]);
      assert values[..i + 1] == values[..i] + [values[i]];
      assert TrimmedSet(values[..i + 1]) == TrimmedSet(values[..i]) + {dependency};
      if dependency == "" {
        assert values[i] in values;
        return Err(EmptyDependency(stepId));
      }
      if dependency == stepId {
        assert values[i] in values;
        return Err(SelfDependency(stepId));
      }
      if dependency !in seen {
        seen := seen + {dependency};
        result := result + [dependency];
      }
      i := i + 1;
    }
    assert values[..i] == values;
    result := SortStrings(result);
    return Ok(result);
  }

  // Artifact inputs

  function Trimmed(v: ArtifactInput): ArtifactInput {
    v.(fromStep := Trim(v.fromStep), artifactId := Trim(v.artifactId))
  }

  /** The first n inputs, trimmed. */
  function TrimmedTo(values: seq<ArtifactInput>, n: nat): seq<ArtifactInput>
    requires n <= |values|
  {
    if n == 0 then [] else TrimmedTo(values, n - 1) + [Trimmed(values[n - 1])]
  }

  /** The inputs without outer white space, in order. */
  ghost predicate TrimmedForms(values: seq<ArtifactInput>, trimmed: seq<ArtifactInput>) {
    |trimmed| == |values| &&
    forall i :: 0 <= i < |values| ==>
      trimmed[i].fromStep == Trim(values[i].fromStep) && trimmed[i].artifactId == Trim(values[i].artifactId) &&
      trimmed[i].partIndex == values[i].partIndex
  }

  lemma {:induction false} TrimmedAt(values: seq<ArtifactInput>, n: nat, i: nat)
    requires i < n <= |values|
    ensures |TrimmedTo(values, n)| == n && TrimmedTo(values, n)[i] == Trimmed(values[i])
  {
    if n > 1 {
      TrimmedAt(values, n - 1, if i < n - 1 then i else 0);
    }
  }

  lemma TrimmedAll(values: seq<ArtifactInput>)
    ensures TrimmedForms(values, TrimmedTo(values, |values|))
  {
    var trimmed := TrimmedTo(values, |values|);
    if values != [] {
      TrimmedAt(values, |values|, 0);
    }
    forall i | 0 <= i < |values| ensures trimmed[i] == Trimmed(values[i]) {
      TrimmedAt(values, |values|, i);
    }
  }

  /** An input names a direct dependency, and its part index is not negative. */
  predicate GoodInput(v: ArtifactInput, dependencies: seq<string>) {
    v.fromStep != "" && v.fromStep in dependencies && (v.partIndex.Some? ==> v.partIndex.value >= 0)
  }

  const NUL := 0 as char

  function InputKey(v: ArtifactInput): string {
    v.fromStep + [NUL] + v.artifactId + [NUL] +
    if v.partIndex.Some? && v.partIndex.value >= 0 then Decimal(v.partIndex.value) else ""
  }

  function InputKeys(values: seq<ArtifactInput>): seq<string> {
    seq(|values|, i requires 0 <= i < |values| => InputKey(Trimmed(values[i])))
  }

  /** The first n are distinct. */
  ghost predicate DistinctTo(xs: seq<string>, n: nat)
    requires n <= |xs|
  {
    forall i, j :: 0 <= i < j < n ==> xs[i] != xs[j]
  }

  /** The set of the first n. */
  ghost predicate SeenTo(seen: set<string>, xs: seq<string>, n: nat)
    requires n <= |xs|
  {
    forall x :: x in seen <==> exists k :: 0 <= k < n && xs[k] == x
  }

  lemma OneMoreSeen(seen: set<string>, xs: seq<string>, n: nat)
    requires n < |xs| && SeenTo(seen, xs, n) && DistinctTo(xs, n)
    ensures DistinctTo(xs, n + 1) <==> xs[n] !in seen
    ensures SeenTo(seen + {xs[n]}, xs, n + 1)
  {
  }

  lemma RepetitionStays(xs: seq<string>, n: nat)
    requires n <= |xs| && !DistinctTo(xs, n)
    ensures !DistinctTo(xs, |xs|)
  {
  }

  ghost predicate AllGood(values: seq<ArtifactInput>, dependencies: seq<string>, n: nat)
    requires n <= |values|
  {
    forall i :: 0 <= i < n ==> GoodInput(Trimmed(values[i]), dependencies)
  }

  /** Every input is good, and no two of them are the same. */
  ghost predicate GoodInputs(values: seq<ArtifactInput>, dependencies: seq<string>) {
    AllGood(values, dependencies, |values|) && DistinctTo(InputKeys(values), |values|)
  }

  lemma {:induction false} DecimalHasNoNul(n: nat)
    ensures NUL !in Decimal(n)
  {
    if n >= 10 {
      DecimalHasNoNul(n / 10);
    }
  }

  /** For names without NUL, two inputs have the same key exactly when they are the same input. */
  lemma InputKeyIsInjective(a: ArtifactInput, b: ArtifactInput)
    requires a.partIndex.Some? ==> a.partIndex.value >= 0
    requires b.partIndex.Some? ==> b.partIndex.value >= 0
    requires NUL !in a.artifactId && NUL !in b.artifactId
    ensures InputKey(a) == InputKey(b) <==> a == b
  {
    if InputKey(a) == InputKey(b) {
      var lastA := if a.partIndex.Some? then Decimal(a.partIndex.value) else "";
      var lastB := if b.partIndex.Some? then Decimal(b.partIndex.value) else "";
      if a.partIndex.Some? { DecimalHasNoNul(a.partIndex.value); DecimalHasNoColon(a.partIndex.value); }
      if b.partIndex.Some? { DecimalHasNoNul(b.partIndex.value); DecimalHasNoColon(b.partIndex.value); }
      LastSeparator(a.fromStep + [NUL] + a.artifactId, lastA, b.fromStep + [NUL] + b.artifactId, lastB, NUL);
      LastSeparator(a.fromStep, a.artifactId, b.fromStep, b.artifactId, NUL);
      if a.partIndex.Some? && b.partIndex.Some? { DecimalIsInjective(a.partIndex.value, b.partIndex.value); }
    }
  }

  /**
   For names without NUL, inputs are good exactly if each names a direct dependency, none asks for a negative part, and
   no two of them, once trimmed, are the same.
   */
  lemma InputsAreGoodIff(values: seq<ArtifactInput>, dependencies: seq<string>)
    requires forall v :: v in values ==> NUL !in Trim(v.artifactId)
    ensures GoodInputs(values, dependencies) <==>
            (forall v :: v in values ==>
               Trim(v.fromStep) in dependencies && Trim(v.fromStep) != "" &&
               (v.partIndex == None || v.partIndex.value >= 0)) &&
            forall i, j :: 0 <= i < j < |values| ==> Trimmed(values[i]) != Trimmed(values[j])
  {
    var keys := InputKeys(values);
    if AllGood(values, dependencies, |values|) {
      forall i, j | 0 <= i < j < |values| ensures keys[i] == keys[j] <==> Trimmed(values[i]) == Trimmed(values[j]) {
        assert GoodInput(Trimmed(values[i]), dependencies) && GoodInput(Trimmed(values[j]), dependencies);
        assert values[i] in values && values[j] in values;
        InputKeyIsInjective(Trimmed(values[i]), Trimmed(values[j]));
      }
    } else {
      var i :| 0 <= i < |values| && !GoodInput(Trimmed(values[i]), dependencies);
      assert values[i] in values;
    }
  }

  /** The first n inputs are good and distinct; `seen` holds their keys, `result` their trimmed forms. */
  ghost predicate InputsTaken(values: seq<ArtifactInput>, dependencies: seq<string>, n: nat, seen: set<string>,
                              result: seq<ArtifactInput>)
    requires n <= |values|
  {
    result == TrimmedTo(values, n) && AllGood(values, dependencies, n) &&
    DistinctTo(InputKeys(values), n) && SeenTo(seen, InputKeys(values), n)
  }

  /** One round of the loop: the input taken, or why it is refused. */
  method NormalizeInput(stepId: string, dependencies: seq<string>, values: seq<ArtifactInput>, i: nat,
                        seen: set<string>, ghost result: seq<ArtifactInput>)
    returns (r: Result<(ArtifactInput, string), DefinitionError>)
    requires i < |values| && InputsTaken(values, dependencies, i, seen, result)
    ensures r.Err? ==> !GoodInputs(values, dependencies)
    ensures r.Ok? ==> InputsTaken(values, dependencies, i + 1, seen + {r.value.1}, result + [r.value.0])
  {
    var value := values[i].(fromStep := Trim(values[i].fromStep), artifactId := Trim(values[i].artifactId));
    assert value == Trimmed(values[i]);
    if value.fromStep == "" || value.fromStep !in dependencies ||
       (value.partIndex.Some? && value.partIndex.value < 0) {
      return Err(BadArtifactInput(stepId));
    }
    ghost var keys := InputKeys(values);
    var key := InputKey(value);
    OneMoreSeen(seen, keys, i);
    if key in seen {
      RepetitionStays(keys, i + 1);
      return Err(RepeatedArtifactInput(stepId));
    }
    return Ok((value, key));
  }

  lemma AllInputsTaken(values: seq<ArtifactInput>, dependencies: seq<string>, seen: set<string>,
                       result: seq<ArtifactInput>)
    requires InputsTaken(values, dependencies, |values|, seen, result)
    ensures GoodInputs(values, dependencies) && TrimmedForms(values, result)
  {
    TrimmedAll(values);
  }

  lemma NoInputTaken(values: seq<ArtifactInput>, dependencies: seq<string>)
    ensures InputsTaken(values, dependencies, 0, {}, [])
  {
  }

  method NormalizeArtifactInputs(stepId: string, dependencies: seq<string>, values: seq<ArtifactInput>)
    returns (r: Result<seq<ArtifactInput>, DefinitionError>)
    ensures r.Ok? <==> GoodInputs(values, dependencies)
    ensures r.Ok? ==> TrimmedForms(values, r.value)
  {
    var seen: set<string> := {};
    var result := [];
    var i := 0;
    NoInputTaken(values, dependencies);
    while i < |values|
      invariant 0 <= i <= |values| && InputsTaken(values, dependencies, i, seen, result)
    {
      var next := NormalizeInput(stepId, dependencies, values, i, seen, result);
      if next.Err? {
        return Err(next.error);
      }
      result := result + [next.value.0];
      seen := seen + {next.value.1};
      i := i + 1;
    }
    AllInputsTaken(values, dependencies, seen, result);
    return Ok(result);
  }

  // The steps of a definition

  function StepIdOf(step: StepInput, index: nat): string {
    if step.id == "" then "step-" + Decimal(index + 1) else step.id
  }

  /** A step of a definition that StartWorkflow takes as it stands. */
  ghost predicate GoodStep(step: StepInput, index: nat, contentOk: string -> bool) {
    (step.agentId != "" || step.skill != "") && contentOk(step.content) &&
    GoodDependencies(StepIdOf(step, index), step.dependsOn) &&
    exists normal :: NormalForm(step.dependsOn, normal) && GoodInputs(step.inputs, normal)
  }

  /** Which steps are taken: somebody does it, its content is accepted, and it depends on others that it names. */
  lemma StepIsGoodIff(step: StepInput, index: nat, contentOk: string -> bool, normal: seq<string>)
    requires NormalForm(step.dependsOn, normal)
    ensures var id := if step.id != "" then step.id else "step-" + Decimal(index + 1);
            GoodStep(step, index, contentOk) <==>
            !(step.agentId == "" && step.skill == "") && contentOk(step.content) &&
            (forall v :: v in step.dependsOn ==> Trim(v) !in {"", id}) && GoodInputs(step.inputs, normal)
  {
    if GoodStep(step, index, contentOk) {
      var other :| NormalForm(step.dependsOn, other) && GoodInputs(step.inputs, other);
      NormalFormIsUnique(step.dependsOn, step.dependsOn, normal, other);
    }
  }

  /** The aggregate's step for a step of the definition. */
  ghost predicate StepFor(step: StepInput, index: nat, made: WorkflowStep) {
    NormalForm(step.dependsOn, made.dependsOn) &&
    made.id == (if step.id != "" then step.id else "step-" + Decimal(index + 1)) &&
    made == WorkflowStep(made.id, step.agentId, made.dependsOn, "", "", Unknown, step.required, 0,
                         step.compensationText, "", None)
  }

  method NormalizeStep(step: StepInput, index: nat, contentOk: string -> bool)
    returns (r: Result<(WorkflowStep, seq<ArtifactInput>), DefinitionError>)
    ensures r.Ok? <==> GoodStep(step, index, contentOk)
    ensures r.Ok? ==> MadeFor(step, index, r.value)
  {
    var id := StepIdOf(step, index);
    if step.agentId == "" && step.skill == "" {
      return Err(NoAgent(id));
    }
    if !contentOk(step.content) {
      return Err(BadContent(id));
    }
    var dependencies := NormalizeDependencies(id, step.dependsOn);
    if dependencies.Err? {
      return Err(dependencies.error);
    }
    var inputs := NormalizeArtifactInputs(id, dependencies.value, step.inputs);
    if inputs.Err? {
      if normal :| NormalForm(step.dependsOn, normal) && GoodInputs(step.inputs, normal) {
        NormalFormIsUnique(step.dependsOn, step.dependsOn, normal, dependencies.value);
      }
      return Err(inputs.error);
    }
    return Ok((WorkflowStep(id, step.agentId, dependencies.value, "", "", Unknown, step.required, 0,
                            step.compensationText, "", None), inputs.value));
  }

  /** The first n steps are ones StartWorkflow takes as they stand. */
  ghost predicate GoodSteps(steps: seq<StepInput>, contentOk: string -> bool, n: nat)
    requires n <= |steps|
  {
    forall i :: 0 <= i < n ==> GoodStep(steps[i], i, contentOk)
  }

  ghost predicate MadeFor(step: StepInput, index: nat, made: (WorkflowStep, seq<ArtifactInput>)) {
    StepFor(step, index, made.0) && TrimmedForms(step.inputs, made.1)
  }

  ghost predicate AllMade(steps: seq<StepInput>, made: seq<(WorkflowStep, seq<ArtifactInput>)>)
    requires |made| <= |steps|
  {
    forall i :: 0 <= i < |made| ==> MadeFor(steps[i], i, made[i])
  }

  lemma OneMoreStep(steps: seq<StepInput>, contentOk: string -> bool, n: nat)
    requires n < |steps| && GoodSteps(steps, contentOk, n)
    ensures GoodSteps(steps, contentOk, n + 1) <==> GoodStep(steps[n], n, contentOk)
  {
  }

  /** Builds the aggregate's steps, all of them unscheduled, with their artifact inputs. */
  method NormalizeSteps(steps: seq<StepInput>, contentOk: string -> bool)
    returns (r: Result<seq<(WorkflowStep, seq<ArtifactInput>)>, DefinitionError>)
    ensures r.Ok? <==> GoodSteps(steps, contentOk, |steps|)
    ensures r.Ok? ==> |r.value| == |steps| && AllMade(steps, r.value)
  {
    var made: seq<(WorkflowStep, seq<ArtifactInput>)> := [];
    var i := 0;
    while i < |steps|
      invariant 0 <= i <= |steps| && |made| == i
      invariant GoodSteps(steps, contentOk, i) && AllMade(steps, made)
    {
      var step := NormalizeStep(steps[i], i, contentOk);
      OneMoreStep(steps, contentOk, i);
      if step.Err? {
        return Err(step.error);
      }
      made := made + [step.value];
      i := i + 1;
    }
    return Ok(made);
  }
}
