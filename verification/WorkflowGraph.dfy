/**
 Validation of a workflow's dependency graph (internal/orchestration/workflow.go, validateWorkflowGraph):
 a three-colour depth-first search that accepts exactly the graphs with a topological rank.
 */
module WorkflowGraph {
  import opened Wrappers
  import opened Model

  datatype GraphError = UnknownDependency(step: string, dependency: string) | CycleAt(step: string)

  function StepIds(steps: seq<WorkflowStep>): set<string> {
    set s | s in steps :: s.id
  }

  ghost predicate AllKnown(steps: seq<WorkflowStep>) {
    forall s, d :: s in steps && d in s.dependsOn ==> d in StepIds(steps)
  }

  /** A rank under which every dependency lies strictly below its dependent. */
  ghost predicate Ranked(steps: seq<WorkflowStep>, rank: map<string, nat>) {
    forall s :: s in steps ==>
      s.id in rank && forall d :: d in s.dependsOn ==> d in rank && rank[d] < rank[s.id]
  }

  ghost predicate Acyclic(steps: seq<WorkflowStep>) {
    exists rank: map<string, nat> :: Ranked(steps, rank)
  }

  type Graph = map<string, seq<string>>

  function Next(graph: Graph, id: string): seq<string> {
    if id in graph then graph[id] else []
  }

  /** The graph has an edge for each dependency of each step, and no other. */
  ghost predicate GraphOf(graph: Graph, steps: seq<WorkflowStep>) {
    (forall s, d :: s in steps && d in s.dependsOn ==> d in Next(graph, s.id)) &&
    (forall id, d :: d in Next(graph, id) ==> exists s :: s in steps && s.id == id && d in s.dependsOn)
  }

  /** A path along the edges; each step depends on its successor. */
  ghost predicate Path(graph: Graph, p: seq<string>) {
    forall i :: 0 <= i < |p| - 1 ==> p[i + 1] in Next(graph, p[i])
  }

  ghost predicate CycleThrough(graph: Graph, id: string, p: seq<string>) {
    |p| >= 2 && p[0] == id && p[|p| - 1] == id && Path(graph, p)
  }

  lemma {:induction false} RankFallsAlongPath(steps: seq<WorkflowStep>, graph: Graph, rank: map<string, nat>,
                                              p: seq<string>)
    requires GraphOf(graph, steps) && Ranked(steps, rank) && Path(graph, p) && |p| >= 2
    ensures p[0] in rank && p[|p| - 1] in rank && rank[p[|p| - 1]] < rank[p[0]]
  {
    var n := |p| - 1;
    assert p[n] in Next(graph, p[n - 1]);
    if n >= 2 {
      assert Path(graph, p[..n]) by {
        forall i | 0 <= i < n - 1 ensures p[..n][i + 1] in Next(graph, p[..n][i]) {
          assert p[i + 1] in Next(graph, p[i]);
        }
      }
      RankFallsAlongPath(steps, graph, rank, p[..n]);
    }
  }

  lemma CycleHasNoRank(steps: seq<WorkflowStep>, graph: Graph, id: string, p: seq<string>)
    requires GraphOf(graph, steps) && CycleThrough(graph, id, p)
    ensures !Acyclic(steps)
  {
    if rank: map<string, nat> :| Ranked(steps, rank) {
      RankFallsAlongPath(steps, graph, rank, p);
    }
  }

  const GREY: int := 1
  const BLACK: int := 2

  /** Each finished step comes after all of its dependencies. */
  ghost predicate Finished(graph: Graph, done: seq<string>) {
    (forall i, j :: 0 <= i < j < |done| ==> done[i] != done[j]) &&
    (forall i, d :: 0 <= i < |done| && d in Next(graph, done[i]) ==> d in done[..i])
  }

  /** The grey steps are the stack and the black ones are done. */
  ghost predicate Coloured(visit: map<string, int>, stack: seq<string>, done: seq<string>) {
    (forall x :: x in visit <==> x in stack || x in done) &&
    (forall x :: x in stack ==> visit[x] == GREY) &&
    (forall x :: x in done ==> visit[x] == BLACK)
  }

  lemma CloseCycle(graph: Graph, stack: seq<string>, id: string) returns (loop: seq<string>)
    requires id in stack && Path(graph, stack + [id])
    ensures CycleThrough(graph, id, loop)
  {
    var i :| 0 <= i < |stack| && stack[i] == id;
    loop := stack[i..] + [id];
    forall k | 0 <= k < |loop| - 1 ensures loop[k + 1] in Next(graph, loop[k]) {
      assert (stack + [id])[i + k + 1] in Next(graph, (stack + [id])[i + k]);
    }
  }

  lemma ExtendPath(graph: Graph, p: seq<string>, d: string)
    requires p != [] && Path(graph, p) && d in Next(graph, p[|p| - 1])
    ensures Path(graph, p + [d])
  {
    var q := p + [d];
    forall k | 0 <= k < |q| - 1 ensures q[k + 1] in Next(graph, q[k]) {
      if k < |p| - 1 { assert p[k + 1] in Next(graph, p[k]); }
    }
  }

  lemma Enter(visit: map<string, int>, stack: seq<string>, done: seq<string>, id: string)
    requires Coloured(visit, stack, done) && id !in visit
    ensures Coloured(visit[id := GREY], stack + [id], done)
  {
  }

  lemma Leave(graph: Graph, visit: map<string, int>, stack: seq<string>, done: seq<string>, id: string)
    requires Coloured(visit, stack + [id], done) && Finished(graph, done) && id !in stack && id !in done
    requires forall d :: d in Next(graph, id) ==> d in done
    ensures Coloured(visit[id := BLACK], stack, done + [id]) && Finished(graph, done + [id])
  {
    var all := done + [id];
    forall i, d | 0 <= i < |all| && d in Next(graph, all[i]) ensures d in all[..i] {
      if i < |done| {
        assert d in done[..i];
        assert all[..i] == done[..i];
      } else {
        assert all[..i] == done;
      }
    }
  }

  ghost predicate FirstDone(ids: seq<string>, n: nat, done: seq<string>) {
    forall k :: 0 <= k < n && k < |ids| ==> ids[k] in done
  }

  lemma OneMoreDone(ids: seq<string>, n: nat, earlier: seq<string>, done: seq<string>)
    requires n < |ids| && FirstDone(ids, n, earlier) && ids[n] in done
    requires forall x :: x in earlier ==> x in done
    ensures FirstDone(ids, n + 1, done)
  {
  }

  lemma FewerLeft(nodes: set<string>, seen: set<string>, id: string, more: set<string>)
    requires id in nodes && id !in seen && seen + {id} <= more
    ensures |nodes - more| < |nodes - seen|
  {
    CardinalitySubset(nodes - more, nodes - seen - {id});
    assert |nodes - seen| == |nodes - seen - {id}| + 1;
  }

  class Walker {
    const graph: Graph
    var visit: map<string, int>
    /** Finished steps, in the order in which they were finished. */
    ghost var done: seq<string>

    constructor (graph: Graph)
      ensures this.graph == graph && visit == map[] && done == []
    {
      this.graph := graph;
      visit, done := map[], [];
    }

    ghost predicate Valid(stack: seq<string>)
      reads this
    {
      Coloured(visit, stack, done) && Finished(graph, done)
    }

    /** Visits a step below the stack; on a cycle, returns the step at which it closes. */
    method Walk(id: string, ghost nodes: set<string>, ghost stack: seq<string>)
      returns (cycle: Option<string>, ghost loop: seq<string>)
      requires Valid(stack) && id in nodes
      requires forall x, d :: x in nodes && d in Next(graph, x) ==> d in nodes
      requires Path(graph, stack + [id])
      modifies this
      decreases |nodes - visit.Keys|
      ensures cycle.None? ==> Valid(stack) && id in done
      ensures (forall x :: x in old(done) ==> x in done) && old(visit).Keys <= visit.Keys
      ensures cycle.Some? ==> CycleThrough(graph, cycle.value, loop)
    {
      loop := [];
      if id in visit && visit[id] == GREY {
        loop := CloseCycle(graph, stack, id);
        return Some(id), loop;
      }
      if id in visit && visit[id] == BLACK {
        return None, loop;
      }
      ghost var seen := visit.Keys;
      Enter(visit, stack, done, id);
      visit := visit[id := GREY];
      ghost var deeper := stack + [id];
      var dependencies := Next(graph, id);
      var i := 0;
      while i < |dependencies|
        invariant 0 <= i <= |dependencies| && Valid(deeper)
        invariant (forall x :: x in old(done) ==> x in done) && seen + {id} <= visit.Keys
        invariant FirstDone(dependencies, i, done)
      {
        ghost var earlier := done;
        FewerLeft(nodes, seen, id, visit.Keys);
        ExtendPath(graph, deeper, dependencies[i]);
        cycle, loop := Walk(dependencies[i], nodes, deeper);
        if cycle.Some? {
          return;
        }
        OneMoreDone(dependencies, i, earlier, done);
        i := i + 1;
      }
      Leave(graph, visit, stack, done, id);
      visit := visit[id := BLACK];
      done := done + [id];
      return None, [];
    }
  }

  lemma {:induction false} CardinalitySubset<T>(a: set<T>, b: set<T>)
    requires a <= b
    ensures |a| <= |b|
  {
    if a != {} {
      var x :| x in a;
      CardinalitySubset(a - {x}, b - {x});
    }
  }

  /** Appends one step's dependencies to its adjacency list, or finds one that names no step. */
  method AddEdges(before: Graph, step: WorkflowStep, known: set<string>) returns (graph: Graph, unknown: Option<string>)
    ensures unknown.None? <==> forall d :: d in step.dependsOn ==> d in known
    ensures unknown.Some? ==> unknown.value in step.dependsOn && unknown.value !in known
    ensures unknown.None? ==>
              Next(graph, step.id) == Next(before, step.id) + step.dependsOn &&
              forall id :: id != step.id ==> Next(graph, id) == Next(before, id)
  {
    graph := before;
    var j := 0;
    while j < |step.dependsOn|
      invariant 0 <= j <= |step.dependsOn|
      invariant forall id :: id != step.id ==> Next(graph, id) == Next(before, id)
      invariant Next(graph, step.id) == Next(before, step.id) + step.dependsOn[..j]
      invariant forall k :: 0 <= k < j ==> step.dependsOn[k] in known
    {
      var dependency := step.dependsOn[j];
      if dependency !in known {
        return graph, Some(dependency);
      }
      graph := graph[step.id := Next(graph, step.id) + [dependency]];
      j := j + 1;
    }
    return graph, None;
  }

  /** The adjacency lists, built step by step, or the first dependency that names no step. */
  method BuildGraph(steps: seq<WorkflowStep>) returns (graph: Graph, unknown: Option<(string, string)>)
    ensures unknown.None? <==> AllKnown(steps)
    ensures unknown.None? ==> GraphOf(graph, steps)
    ensures unknown.Some? ==>
              exists s :: s in steps && s.id == unknown.value.0 && unknown.value.1 in s.dependsOn &&
                          unknown.value.1 !in StepIds(steps)
  {
    graph, unknown := map[], None;
    var known := StepIds(steps);
    var i := 0;
    while i < |steps|
      invariant 0 <= i <= |steps|
      invariant GraphOf(graph, steps[..i])
      invariant forall k, d :: 0 <= k < i && d in steps[k].dependsOn ==> d in known
    {
      var next, missing := AddEdges(graph, steps[i], known);
      if missing.Some? {
        assert steps[i] in steps;
        return graph, Some((steps[i].id, missing.value));
      }
      OneMoreStep(graph, next, steps[..i], steps[i]);
      assert steps[..i + 1] == steps[..i] + [steps[i]];
      graph := next;
      i := i + 1;
    }
    assert steps[..i] == steps;
  }

  lemma OneMoreStep(before: Graph, after: Graph, steps: seq<WorkflowStep>, step: WorkflowStep)
    requires GraphOf(before, steps)
    requires forall id :: id != step.id ==> Next(after, id) == Next(before, id)
    requires Next(after, step.id) == Next(before, step.id) + step.dependsOn
    ensures GraphOf(after, steps + [step])
  {
    var more := steps + [step];
    forall s, d | s in more && d in s.dependsOn ensures d in Next(after, s.id) {
      if s in steps { assert d in Next(before, s.id); }
    }
    forall id, d | d in Next(after, id) ensures exists s :: s in more && s.id == id && d in s.dependsOn {
      if d in Next(before, id) {
        var s :| s in steps && s.id == id && d in s.dependsOn;
        assert s in more;
      } else {
        assert step in more;
      }
    }
  }

  ghost function Position(done: seq<string>, x: string): nat
    requires x in done
    ensures Position(done, x) < |done| && done[Position(done, x)] == x
  {
    var i :| 0 <= i < |done| && done[i] == x;
    i
  }

  /** Finishing order is a rank. */
  lemma FinishingOrderRanks(steps: seq<WorkflowStep>, graph: Graph, done: seq<string>)
    requires GraphOf(graph, steps)
    requires forall s :: s in steps ==> s.id in done
    requires Finished(graph, done)
    ensures Acyclic(steps)
  {
    var rank := map x | x in done :: Position(done, x);
    forall s, d | s in steps && d in s.dependsOn ensures d in rank && rank[d] < rank[s.id] {
      var i := Position(done, s.id);
      assert d in Next(graph, done[i]);
      assert d in done[..i];
      var j :| 0 <= j < i && done[j] == d;
      assert j == Position(done, d);
    }
    assert Ranked(steps, rank);
  }

  /** Sound and complete: accepted exactly when every dependency names a step and a rank exists. */
  method ValidateWorkflowGraph(steps: seq<WorkflowStep>) returns (err: Option<GraphError>)
    ensures err.None? <==> AllKnown(steps) && Acyclic(steps)
    ensures err.Some? && err.value.UnknownDependency? ==>
              exists s :: s in steps && s.id == err.value.step && err.value.dependency in s.dependsOn &&
                          err.value.dependency !in StepIds(steps)
    ensures err.Some? && err.value.CycleAt? ==>
              AllKnown(steps) && exists graph, p :: GraphOf(graph, steps) && CycleThrough(graph, err.value.step, p)
  {
    var graph, unknown := BuildGraph(steps);
    if unknown.Some? {
      return Some(UnknownDependency(unknown.value.0, unknown.value.1));
    }
    var walker := new Walker(graph);
    ghost var nodes := StepIds(steps);
    var i := 0;
    while i < |steps|
      invariant 0 <= i <= |steps| && walker.graph == graph && walker.Valid([])
      invariant forall k :: 0 <= k < i ==> steps[k].id in walker.done
    {
      assert steps[i] in steps;
      assert forall x, d :: x in nodes && d in Next(graph, x) ==> d in nodes;
      var cycle, loop := walker.Walk(steps[i].id, nodes, []);
      if cycle.Some? {
        CycleHasNoRank(steps, graph, cycle.value, loop);
        return Some(CycleAt(cycle.value));
      }
      i := i + 1;
    }
    FinishingOrderRanks(steps, graph, walker.done);
    return None;
  }
}
