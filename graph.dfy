/** `WorkflowGraph`: the nodes, the guarded edges between them, and the run
    loop that executes nodes one at a time until there is no next node, the
    next node is unknown, a tool raises, or 100 nodes have run. */
module EngineGraph {
  import opened Values
  import opened Models
  import opened EngineState
  import opened EngineNode

  /** The runaway-loop cap of `run`. */
  const MaxSteps: nat := 100

  /** An outgoing edge of a node: its target and its optional guard. */
  datatype Edge = Edge(to: string, condition: Option<string>)

  /** An edge qualifies when it has no guard or its guard holds; a guard that
      raises does not hold. */
  predicate Enabled(e: Edge, ev: Evaluator, s: State) {
    e.condition.None? || GuardHolds(ev, e.condition.value, s)
  }

  /** The index of the first qualifying edge, scanning in declared order. */
  function FirstEnabled(es: seq<Edge>, ev: Evaluator, s: State): (r: Option<nat>)
    ensures r.Some? ==> r.value < |es| && Enabled(es[r.value], ev, s)
    ensures r.Some? ==> forall j :: 0 <= j < r.value ==> !Enabled(es[j], ev, s)
    ensures r.None? ==> forall j :: 0 <= j < |es| ==> !Enabled(es[j], ev, s)
  {
    if es == [] then None
    else if Enabled(es[0], ev, s) then Some(0)
    else match FirstEnabled(es[1..], ev, s)
      case None => None
      case Some(i) => Some(i + 1)
  }

  /** The index of the first qualifying edge that leads away from `current`. */
  function FirstEnabledExit(es: seq<Edge>, current: string, ev: Evaluator, s: State): (r: Option<nat>)
    ensures r.Some? ==> r.value < |es| && es[r.value].to != current && Enabled(es[r.value], ev, s)
    ensures r.Some? ==> forall j :: 0 <= j < r.value && es[j].to != current ==> !Enabled(es[j], ev, s)
    ensures r.None? ==> forall j :: 0 <= j < |es| && es[j].to != current ==> !Enabled(es[j], ev, s)
  {
    if es == [] then None
    else if es[0].to != current && Enabled(es[0], ev, s) then Some(0)
    else match FirstEnabledExit(es[1..], current, ev, s)
      case None => None
      case Some(i) => Some(i + 1)
  }

  /** `_get_next_node`: no next node without an edge list; otherwise the
      target of the first qualifying edge, and when none qualifies the target
      of the first declared edge. */
  function NextNode(edges: map<string, seq<Edge>>, current: string, ev: Evaluator, s: State): (r: Option<string>)
    ensures r.None? <==> current !in edges || edges[current] == []
    ensures r.Some? ==> exists i :: 0 <= i < |edges[current]| && edges[current][i].to == r.value
    ensures current in edges ==>
      forall i :: (0 <= i < |edges[current]| && Enabled(edges[current][i], ev, s) &&
                   forall j :: 0 <= j < i ==> !Enabled(edges[current][j], ev, s)) ==>
        r == Some(edges[current][i].to)
    ensures (current in edges && edges[current] != [] &&
             forall i :: 0 <= i < |edges[current]| ==> !Enabled(edges[current][i], ev, s)) ==>
      r == Some(edges[current][0].to)
  {
    if current !in edges then None
    else
      var es := edges[current];
      match FirstEnabled(es, ev, s)
      case Some(i) => Some(es[i].to)
      case None => if es != [] then Some(es[0].to) else None
  }

  /** `_get_alternate_next_node`: the target of the first qualifying edge that
      does not lead back to `current`, if there is one. */
  function AlternateNext(edges: map<string, seq<Edge>>, current: string, ev: Evaluator, s: State): (r: Option<string>)
    ensures r != Some(current)
    ensures r.None? <==>
      current !in edges ||
      forall i :: 0 <= i < |edges[current]| && edges[current][i].to != current ==> !Enabled(edges[current][i], ev, s)
    ensures r.Some? ==>
      exists i :: 0 <= i < |edges[current]| && edges[current][i].to == r.value && Enabled(edges[current][i], ev, s) &&
        forall j :: 0 <= j < i && edges[current][j].to != current ==> !Enabled(edges[current][j], ev, s)
  {
    if current !in edges then None
    else
      var es := edges[current];
      match FirstEnabledExit(es, current, ev, s)
      case Some(i) => Some(es[i].to)
      case None => None
  }

  /** Whether an output asks to leave a loop: `not result.get("should_loop", True)`. */
  predicate StopsLooping(output: State) {
    !Truthy(Lookup(output, "should_loop", Bool(true)))
  }

  /** The next node after `current` produced `output` and the state became
      `s`, with the loop-exit override: when the selected edge leads back to
      `current` and the output stops looping, the alternate scan decides. */
  function SelectNext(edges: map<string, seq<Edge>>, current: string, ev: Evaluator, s: State, output: State): (r: Option<string>)
    ensures StopsLooping(output) ==> r != Some(current)
    ensures NextNode(edges, current, ev, s) == Some(current) && StopsLooping(output) ==>
      r == AlternateNext(edges, current, ev, s)
    ensures !StopsLooping(output) ==> r == NextNode(edges, current, ev, s)
    ensures NextNode(edges, current, ev, s) != Some(current) ==> r == NextNode(edges, current, ev, s)
    ensures r.Some? ==> current in edges && exists i :: 0 <= i < |edges[current]| && edges[current][i].to == r.value
  {
    var next := NextNode(edges, current, ev, s);
    if next == Some(current) && StopsLooping(output) then AlternateNext(edges, current, ev, s) else next
  }

  /** The fixed part of a graph: each node's definition and the edge lists. */
  datatype Config = Config(defs: map<string, NodeDef>, edges: map<string, seq<Edge>>)

  /** What a run has produced so far: the loop counters of the nodes, the
      state and its history, and the log. */
  datatype Progress = Progress(counters: map<string, nat>, data: State, history: seq<State>, log: seq<LogEntry>)

  /** The end of a run; `raised` when a tool's exception ended it. */
  datatype RunResult = RunResult(final: Progress, raised: bool)

  /** Whether the run loop stops before executing `current`. */
  predicate Halts(g: Config, current: Option<string>, steps: nat) {
    current.None? || current.value == "" || steps >= MaxSteps || current.value !in g.defs
  }

  /** The loop counter of `name`; a node that has none yet is at zero. */
  function Counter(counters: map<string, nat>, name: string): nat {
    if name in counters then counters[name] else 0
  }

  /** What one execution of a known node does to the progress of a run. */
  datatype Step = Step(next: Option<string>, progress: Progress, raised: bool, output: State)

  /** One turn of the run loop on the known node `name`: execute it against
      the state; if its tool raised, stop; otherwise merge its output into the
      state, snapshot the state, log the execution and select the next node. */
  function StepOnce(g: Config, ev: Evaluator, name: string, p: Progress): (r: Step)
    requires name in g.defs
    ensures r.raised ==> r.progress.log == p.log && r.progress.history == p.history && r.progress.data == p.data
    ensures !r.raised ==>
      && r.progress.data == p.data + r.output
      && r.progress.history == p.history + [r.progress.data]
      && r.progress.log == p.log + [LogEntry(name, r.progress.data, r.output)]
  {
    var e := NodeExecution(g.defs[name], ev, Counter(p.counters, name), p.data);
    match e.result
    case Failed => Step(None, p.(counters := p.counters[name := e.iterations]), true, map[])
    case Output(out) =>
      var data := p.data + out;
      Step(SelectNext(g.edges, name, ev, data, out),
           Progress(p.counters[name := e.iterations], data, p.history + [data], p.log + [LogEntry(name, data, out)]),
           false, out)
  }

  /** The rest of a run that is about to consider `current` after `steps`
      executions: the loop test of `run`. Nothing is executed once the run
      halts. */
  function RunFrom(g: Config, ev: Evaluator, current: Option<string>, steps: nat, p: Progress): (r: RunResult)
    requires steps <= MaxSteps
    ensures Halts(g, current, steps) ==> r == RunResult(p, false)
    decreases MaxSteps - steps, 2
  {
    if current.None? || current.value == "" || steps >= MaxSteps then RunResult(p, false)
    else RunAt(g, ev, current.value, steps, p)
  }

  /** The rest of a run at the non-empty name `name`: it stops at a name
      that is not a node. */
  function RunAt(g: Config, ev: Evaluator, name: string, steps: nat, p: Progress): (r: RunResult)
    requires steps < MaxSteps
    ensures name !in g.defs ==> r == RunResult(p, false)
    decreases MaxSteps - steps, 1
  {
    if name !in g.defs then RunResult(p, false)
    else RunNode(g, ev, name, steps, p)
  }

  /** The rest of a run that executes the node `name` at step `steps`: it
      ends there if a tool raised, and goes on from the selected node
      otherwise. */
  function RunNode(g: Config, ev: Evaluator, name: string, steps: nat, p: Progress): (r: RunResult)
    requires steps < MaxSteps && name in g.defs
    decreases MaxSteps - steps, 0
  {
    var st := StepOnce(g, ev, name, p);
    if st.raised then RunResult(st.progress, true)
    else RunFrom(g, ev, st.next, steps + 1, st.progress)
  }

  /** `StepOnce` on a node whose execution produced `out`. */
  lemma StepOnceOutput(g: Config, ev: Evaluator, name: string, p: Progress, out: State, n: nat)
    requires name in g.defs
    requires NodeExecution(g.defs[name], ev, Counter(p.counters, name), p.data) == Execution(Output(out), n)
    ensures var data := p.data + out;
      StepOnce(g, ev, name, p) ==
        Step(SelectNext(g.edges, name, ev, data, out),
             Progress(p.counters[name := n], data, p.history + [data], p.log + [LogEntry(name, data, out)]),
             false, out)
  {
  }

  /** `StepOnce` on a node whose tool raised. */
  lemma StepOnceFailed(g: Config, ev: Evaluator, name: string, p: Progress, n: nat)
    requires name in g.defs
    requires NodeExecution(g.defs[name], ev, Counter(p.counters, name), p.data) == Execution(Failed, n)
    ensures StepOnce(g, ev, name, p) == Step(None, p.(counters := p.counters[name := n]), true, map[])
  {
  }

  /** One turn of the run loop, for a node the run does not halt at. */
  lemma RunFromStep(g: Config, ev: Evaluator, name: string, steps: nat, p: Progress)
    requires steps <= MaxSteps
    requires !Halts(g, Some(name), steps)
    ensures var st := StepOnce(g, ev, name, p);
      RunFrom(g, ev, Some(name), steps, p) ==
        if st.raised then RunResult(st.progress, true) else RunFrom(g, ev, st.next, steps + 1, st.progress)
  {
    assert RunFrom(g, ev, Some(name), steps, p) == RunAt(g, ev, name, steps, p);
    assert RunAt(g, ev, name, steps, p) == RunNode(g, ev, name, steps, p);
  }

  /** The rest of a run only appends to the log: at most one entry per
      remaining step, each for a known node, the first for `current`. */
  lemma {:induction false} RunFromLog(g: Config, ev: Evaluator, current: Option<string>, steps: nat, p: Progress)
    requires steps <= MaxSteps
    ensures var r := RunFrom(g, ev, current, steps, p);
      && p.log <= r.final.log
      && |r.final.log| <= |p.log| + (MaxSteps - steps)
      && (forall k :: |p.log| <= k < |r.final.log| ==> r.final.log[k].node in g.defs)
      && (|r.final.log| > |p.log| ==> current.Some? && r.final.log[|p.log|].node == current.value)
    decreases MaxSteps - steps
  {
    if !Halts(g, current, steps) {
      RunFromStep(g, ev, current.value, steps, p);
      var st := StepOnce(g, ev, current.value, p);
      if !st.raised {
        RunFromLog(g, ev, st.next, steps + 1, st.progress);
        assert p.log <= st.progress.log;
      }
    }
  }

  /** The history and log of `q` extend those of `p` in step, each new
      snapshot equal to its entry's snapshot. */
  ghost predicate ExtendsInStep(p: Progress, q: Progress) {
    && p.log <= q.log
    && p.history <= q.history
    && |q.history| - |p.history| == |q.log| - |p.log|
    && (forall k :: |p.log| <= k < |q.log| ==> q.history[|p.history| + k - |p.log|] == q.log[k].stateSnapshot)
  }

  /** Extending in step is transitive. */
  lemma ExtendsInStepTrans(p: Progress, q: Progress, r: Progress)
    requires ExtendsInStep(p, q) && ExtendsInStep(q, r)
    ensures ExtendsInStep(p, r)
  {
    forall k | |p.log| <= k < |r.log|
      ensures r.history[|p.history| + k - |p.log|] == r.log[k].stateSnapshot
    {
      if k < |q.log| {
        assert r.history[|p.history| + k - |p.log|] == q.history[|p.history| + k - |p.log|];
        assert r.log[k] == q.log[k];
      }
    }
  }

  /** The rest of a run appends one history snapshot per log entry, equal to
      that entry's snapshot, and the state stays the latest snapshot. */
  lemma {:induction false} RunFromHistory(g: Config, ev: Evaluator, current: Option<string>, steps: nat, p: Progress)
    requires steps <= MaxSteps
    requires p.history != [] && p.data == p.history[|p.history| - 1]
    ensures var r := RunFrom(g, ev, current, steps, p);
      && ExtendsInStep(p, r.final)
      && r.final.data == r.final.history[|r.final.history| - 1]
    decreases MaxSteps - steps
  {
    if !Halts(g, current, steps) {
      RunFromStep(g, ev, current.value, steps, p);
      var st := StepOnce(g, ev, current.value, p);
      if !st.raised {
        var p1 := st.progress;
        RunFromHistory(g, ev, st.next, steps + 1, p1);
        assert ExtendsInStep(p, p1);
        ExtendsInStepTrans(p, p1, RunFrom(g, ev, current, steps, p).final);
      }
    }
  }

  /** `RunFromStep` for a step that did not raise. */
  lemma RunFromAdvances(g: Config, ev: Evaluator, name: string, steps: nat, p: Progress, next: Option<string>, q: Progress, out: State)
    requires steps <= MaxSteps && !Halts(g, Some(name), steps)
    requires StepOnce(g, ev, name, p) == Step(next, q, false, out)
    ensures RunFrom(g, ev, Some(name), steps, p) == RunFrom(g, ev, next, steps + 1, q)
  {
    RunFromStep(g, ev, name, steps, p);
  }

  /** `RunFromStep` for a step whose tool raised. */
  lemma RunFromRaises(g: Config, ev: Evaluator, name: string, steps: nat, p: Progress, q: Progress)
    requires steps <= MaxSteps && !Halts(g, Some(name), steps)
    requires StepOnce(g, ev, name, p) == Step(None, q, true, map[])
    ensures RunFrom(g, ev, Some(name), steps, p) == RunResult(q, true)
  {
    RunFromStep(g, ev, name, steps, p);
  }

  /** The progress at the start of a run from the state `initial`. */
  function Start(counters: map<string, nat>, initial: State): Progress {
    Progress(counters, initial, [initial], [])
  }

  /** A whole run: at most 100 log entries, a history of one snapshot more
      than the log with snapshot `k + 1` taken right after entry `k`, and the
      first entry, if any, for the entry point. */
  lemma RunShape(g: Config, ev: Evaluator, entry: string, counters: map<string, nat>, initial: State)
    ensures var r := RunFrom(g, ev, Some(entry), 0, Start(counters, initial));
      |r.final.log| <= MaxSteps &&
      |r.final.history| == |r.final.log| + 1 &&
      r.final.history[0] == initial &&
      (forall k :: 0 <= k < |r.final.log| ==> r.final.history[k + 1] == r.final.log[k].stateSnapshot) &&
      (r.final.log != [] ==> r.final.log[0].node == entry) &&
      (entry == "" || entry !in g.defs ==> r.final.log == [] && r.final.data == initial)
  {
    var r := RunFrom(g, ev, Some(entry), 0, Start(counters, initial));
    RunFromLog(g, ev, Some(entry), 0, Start(counters, initial));
    RunFromHistory(g, ev, Some(entry), 0, Start(counters, initial));
    assert [initial] <= r.final.history;
  }

  /** A node always asks to go on: it never raises and never reports a falsy
      `should_loop`. */
  ghost predicate AlwaysContinues(d: NodeDef, ev: Evaluator) {
    forall n: nat, s: State ::
      NodeExecution(d, ev, n, s).result.Output? && !StopsLooping(NodeExecution(d, ev, n, s).result.values)
  }

  /** A Function node without a tool always goes on. */
  lemma FunctionWithoutToolContinues(d: NodeDef, ev: Evaluator)
    requires d.kind == Function && d.tool.None?
    ensures AlwaysContinues(d, ev)
  {
    forall n: nat, s: State
      ensures NodeExecution(d, ev, n, s).result == Output(map[])
    {
    }
  }

  /** A known node whose only edge is an unguarded edge to itself, and which
      never stops looping, runs until the cap: every remaining step executes
      it. */
  lemma {:induction false} SelfLoopRunsToCap(g: Config, ev: Evaluator, name: string, steps: nat, p: Progress)
    requires steps <= MaxSteps
    requires name != "" && name in g.defs
    requires name in g.edges && g.edges[name] == [Edge(name, None)]
    requires AlwaysContinues(g.defs[name], ev)
    ensures var r := RunFrom(g, ev, Some(name), steps, p);
      !r.raised &&
      |r.final.log| == |p.log| + (MaxSteps - steps) &&
      forall k :: |p.log| <= k < |r.final.log| ==> r.final.log[k].node == name
    decreases MaxSteps - steps
  {
    if steps < MaxSteps {
      RunFromStep(g, ev, name, steps, p);
      var e := NodeExecution(g.defs[name], ev, Counter(p.counters, name), p.data);
      assert e.result.Output? && !StopsLooping(e.result.values);
      var st := StepOnce(g, ev, name, p);
      assert !st.raised && st.output == e.result.values;
      assert Enabled(g.edges[name][0], ev, st.progress.data);
      assert st.next == Some(name);
      SelfLoopRunsToCap(g, ev, name, steps + 1, st.progress);
      RunFromLog(g, ev, st.next, steps + 1, st.progress);
    }
  }

  /** A whole run from such a node executes it exactly 100 times. */
  lemma SelfLoopRunsExactlyCap(g: Config, ev: Evaluator, name: string, counters: map<string, nat>, initial: State)
    requires name != "" && name in g.defs
    requires name in g.edges && g.edges[name] == [Edge(name, None)]
    requires AlwaysContinues(g.defs[name], ev)
    ensures var r := RunFrom(g, ev, Some(name), 0, Start(counters, initial));
      !r.raised && |r.final.log| == MaxSteps &&
      forall k :: 0 <= k < MaxSteps ==> r.final.log[k].node == name
  {
    SelfLoopRunsToCap(g, ev, name, 0, Start(counters, initial));
  }

  /** One execution of a loop node `name` without a condition whose edges are
      `[(name, None), (exit, None)]`: it logs itself, raises its counter by
      one, and goes back to itself below the bound and to `exit` on reaching
      it. */
  lemma LoopStep(g: Config, ev: Evaluator, name: string, exit: string, steps: nat, p: Progress)
    returns (next: Option<string>, p1: Progress)
    requires steps < MaxSteps
    requires name != "" && name in g.defs && exit != name
    requires g.defs[name].kind == Loop && !HasCondition(g.defs[name].condition)
    requires name in g.edges && g.edges[name] == [Edge(name, None), Edge(exit, None)]
    ensures p1.counters == p.counters[name := Counter(p.counters, name) + 1]
    ensures |p1.log| == |p.log| + 1 && p.log <= p1.log && p1.log[|p.log|].node == name
    ensures next == (if Counter(p.counters, name) + 1 < g.defs[name].maxIterations then Some(name) else Some(exit))
    ensures RunFrom(g, ev, Some(name), steps, p) == RunFrom(g, ev, next, steps + 1, p1)
  {
    RunFromStep(g, ev, name, steps, p);
    var d := g.defs[name];
    var c := Counter(p.counters, name);
    var e := NodeExecution(d, ev, c, p.data);
    var out := e.result.values;
    assert out == LoopOutput(c + 1, c + 1 < d.maxIterations);
    var st := StepOnce(g, ev, name, p);
    assert st.output == out;
    assert Enabled(g.edges[name][0], ev, st.progress.data);
    assert NextNode(g.edges, name, ev, st.progress.data) == Some(name);
    if c + 1 < d.maxIterations {
      assert !StopsLooping(out);
    } else {
      assert StopsLooping(out);
      assert FirstEnabledExit(g.edges[name], name, ev, st.progress.data) == Some(1);
    }
    next, p1 := st.next, st.progress;
  }

  /** Such a loop node with bound `m` and counter `c < m` is executed
      `m - c` times in a row, after which the run goes on from `exit`. */
  lemma {:induction false} LoopRunsToExit(g: Config, ev: Evaluator, name: string, exit: string, steps: nat, p: Progress)
    returns (q: Progress)
    requires name != "" && name in g.defs && exit != name
    requires g.defs[name].kind == Loop && !HasCondition(g.defs[name].condition)
    requires name in g.edges && g.edges[name] == [Edge(name, None), Edge(exit, None)]
    requires Counter(p.counters, name) < g.defs[name].maxIterations
    requires steps + (g.defs[name].maxIterations - Counter(p.counters, name)) <= MaxSteps
    ensures |q.log| == |p.log| + (g.defs[name].maxIterations - Counter(p.counters, name)) && p.log <= q.log
    ensures forall k :: |p.log| <= k < |q.log| ==> q.log[k].node == name
    ensures RunFrom(g, ev, Some(name), steps, p) ==
      RunFrom(g, ev, Some(exit), steps + (g.defs[name].maxIterations - Counter(p.counters, name)), q)
    decreases g.defs[name].maxIterations - Counter(p.counters, name)
  {
    var next, p1 := LoopStep(g, ev, name, exit, steps, p);
    if Counter(p.counters, name) + 1 < g.defs[name].maxIterations {
      q := LoopRunsToExit(g, ev, name, exit, steps + 1, p1);
      forall k | |p.log| <= k < |q.log|
        ensures q.log[k].node == name
      {
        if k == |p.log| {
          assert q.log[k] == p1.log[k];
        }
      }
    } else {
      q := p1;
    }
  }

  /** Hence the log of the run shows the loop node exactly `m - c` times in
      a row, followed by `exit` if anything follows: the first-declared self
      edge is not taken again once the bound is reached. */
  lemma LoopExitsAfterBound(g: Config, ev: Evaluator, name: string, exit: string, steps: nat, p: Progress)
    requires name != "" && name in g.defs && exit != name
    requires g.defs[name].kind == Loop && !HasCondition(g.defs[name].condition)
    requires name in g.edges && g.edges[name] == [Edge(name, None), Edge(exit, None)]
    requires Counter(p.counters, name) < g.defs[name].maxIterations
    requires steps + (g.defs[name].maxIterations - Counter(p.counters, name)) <= MaxSteps
    ensures var n := g.defs[name].maxIterations - Counter(p.counters, name);
      var r := RunFrom(g, ev, Some(name), steps, p);
      && |r.final.log| >= |p.log| + n
      && (forall k :: |p.log| <= k < |p.log| + n ==> r.final.log[k].node == name)
      && (|r.final.log| > |p.log| + n ==> r.final.log[|p.log| + n].node == exit)
  {
    var n := g.defs[name].maxIterations - Counter(p.counters, name);
    var q := LoopRunsToExit(g, ev, name, exit, steps, p);
    RunFromLog(g, ev, Some(exit), steps + n, q);
    var r := RunFrom(g, ev, Some(exit), steps + n, q);
    forall k | |p.log| <= k < |p.log| + n
      ensures r.final.log[k].node == name
    {
      assert r.final.log[k] == q.log[k];
    }
  }

  /** The definitions of the nodes, which never change, and the edges. */
  function GraphConfig(nodes: map<string, Node>, edges: map<string, seq<Edge>>): Config {
    Config(map k | k in nodes :: nodes[k].Def(), edges)
  }

  /** The loop counters of the nodes are those in `counters`. */
  ghost predicate Tracks(nodes: map<string, Node>, counters: map<string, nat>)
    reads nodes.Values
  {
    counters.Keys == nodes.Keys && forall k :: k in nodes ==> nodes[k].iterations == counters[k]
  }

  /** Every node is stored under its own name. */
  ghost predicate NodesNamed(nodes: map<string, Node>) {
    forall k :: k in nodes ==> nodes[k].name == k
  }

  class WorkflowGraph {
    var nodes: map<string, Node>
    var edges: map<string, seq<Edge>>
    const entryPoint: string
    var executionLog: seq<LogEntry>

    /** Every node is stored under its own name, and an edge list, once
        created, holds at least one edge. */
    ghost predicate Valid()
      reads this
    {
      NodesNamed(nodes) && forall k :: k in edges ==> edges[k] != []
    }

    /** The loop counters of the nodes. */
    function Counters(): map<string, nat>
      reads this, nodes.Values
    {
      map k | k in nodes :: nodes[k].iterations
    }

    /** A new graph has no nodes, no edges and an empty log. */
    constructor (entryPoint: string)
      ensures Valid()
      ensures this.entryPoint == entryPoint
      ensures nodes == map[] && edges == map[] && executionLog == []
    {
      this.entryPoint := entryPoint;
      nodes := map[];
      edges := map[];
      executionLog := [];
    }

    /** `add_node`: the node is stored under its name, replacing any node of
        that name. */
    method AddNode(node: Node)
      requires Valid()
      modifies this
      ensures Valid()
      ensures nodes == old(nodes)[node.name := node]
      ensures edges == old(edges) && executionLog == old(executionLog)
    {
      nodes := nodes[node.name := node];
    }

    /** `add_edge`: the edge goes at the end of its source's list; every other
        list stays as it was. */
    method AddEdge(from: string, to: string, condition: Option<string>)
      requires Valid()
      modifies this
      ensures Valid()
      ensures from in edges
      ensures edges[from] == (if from in old(edges) then old(edges)[from] else []) + [Edge(to, condition)]
      ensures forall k :: k != from ==> (k in edges <==> k in old(edges))
      ensures forall k :: k != from && k in old(edges) ==> edges[k] == old(edges)[k]
      ensures nodes == old(nodes) && executionLog == old(executionLog)
    {
      if from !in edges {
        edges := edges[from := []];
      }
      edges := edges[from := edges[from] + [Edge(to, condition)]];
    }

    /** `run`: executes the graph from the entry point against a fresh state
        built from `initial`, clearing the log first. Loop counters are not
        reset, so they carry over from earlier runs. `raised` reports a tool
        exception, which ends the run with the log kept so far. */
    method Run(ev: Evaluator, initial: State) returns (state: WorkflowState, log: seq<LogEntry>, raised: bool)
      requires Valid()
      modifies this, nodes.Values
      ensures Valid() && nodes == old(nodes) && edges == old(edges)
      ensures fresh(state) && state.Valid()
      ensures var r := RunFrom(GraphConfig(old(nodes), old(edges)), ev, Some(entryPoint), 0, Start(old(Counters()), initial));
        && state.data == r.final.data
        && state.history == r.final.history
        && log == r.final.log
        && executionLog == log
        && Counters() == r.final.counters
        && raised == r.raised
    {
      ghost var g := GraphConfig(nodes, edges);
      ghost var counters := Counters();
      assert Tracks(nodes, counters);
      state := new WorkflowState(Some(initial));
      ghost var counters';
      raised, log, counters' := Drive(ev, state, g, counters);
      executionLog := log;
      TracksCounters(counters');
    }

    /** The loop of `run`, from the entry point against `state`. It also ends
        at a name that is not a node (`break`) and when a tool raises (the
        exception propagates out of `run`). */
    method Drive(ev: Evaluator, state: WorkflowState, ghost g: Config, ghost counters: map<string, nat>)
      returns (raised: bool, log: seq<LogEntry>, ghost counters': map<string, nat>)
      requires NodesNamed(nodes) && g == GraphConfig(nodes, edges)
      requires state.Valid() && Tracks(nodes, counters)
      modifies nodes.Values, state
      ensures state.Valid() && Tracks(nodes, counters')
      ensures RunFrom(g, ev, Some(entryPoint), 0, Progress(counters, old(state.data), old(state.history), [])) ==
        RunResult(Progress(counters', state.data, state.history, log), raised)
    {
      var current := Some(entryPoint);
      var steps: nat := 0;
      log := [];
      raised := false;
      counters' := counters;
      ghost var target := RunFrom(g, ev, Some(entryPoint), 0, Progress(counters, state.data, state.history, []));
      while !raised && current.Some? && current.value != "" && steps < MaxSteps && current.value in nodes
        invariant steps <= MaxSteps
        invariant state.Valid() && Tracks(nodes, counters')
        invariant !raised ==> RunFrom(g, ev, current, steps, Progress(counters', state.data, state.history, log)) == target
        invariant raised ==> target == RunResult(Progress(counters', state.data, state.history, log), true)
        decreases MaxSteps - steps
      {
        var name := current.value;
        current, raised, log, counters' := Turn(ev, state, name, g, counters', steps, log);
        steps := steps + 1;
      }
    }

    /** Tracking `counters` means they are the loop counters. */
    lemma TracksCounters(counters: map<string, nat>)
      requires Tracks(nodes, counters)
      ensures Counters() == counters
    {
    }


    /** One turn of the loop of `run` on the node `name`: execute it; if its
        tool raised, report that; otherwise merge its output into the state,
        append the log entry and select the next node, with the loop-exit
        override. The whole turn is `StepOnce`. */
    method Turn(ev: Evaluator, state: WorkflowState, name: string, ghost g: Config, ghost counters: map<string, nat>, ghost at: nat, log: seq<LogEntry>)
      returns (next: Option<string>, failed: bool, log': seq<LogEntry>, ghost counters': map<string, nat>)
      requires NodesNamed(nodes) && g == GraphConfig(nodes, edges) && name in nodes && name != ""
      requires state.Valid() && Tracks(nodes, counters) && at < MaxSteps
      modifies nodes[name], state
      ensures state.Valid() && Tracks(nodes, counters')
      ensures var q := Progress(counters', state.data, state.history, log');
        RunFrom(g, ev, Some(name), at, Progress(counters, old(state.data), old(state.history), log)) ==
          if failed then RunResult(q, true) else RunFrom(g, ev, next, at + 1, q)
    {
      ghost var p := Progress(counters, state.data, state.history, log);
      var node := nodes[name];
      assert g.defs[name] == node.Def() && Counter(p.counters, name) == node.iterations;
      assert forall k :: k in nodes && k != name ==> nodes[k] != node;
      var result := node.Execute(ev, state);
      counters' := counters[name := node.iterations];
      forall k | k in nodes
        ensures nodes[k].iterations == counters'[k]
      {
        if k != name {
          assert nodes[k] != node;
        }
      }
      if result.Failed? {
        StepOnceFailed(g, ev, name, p, node.iterations);
        RunFromRaises(g, ev, name, at, p, p.(counters := counters'));
        return None, true, log, counters';
      }
      var out := result.values;
      StepOnceOutput(g, ev, name, p, out, node.iterations);
      state.Update(out);
      var snapshot := state.GetState();
      log' := log + [LogEntry(name, snapshot, out)];
      next := NextNode(edges, name, ev, snapshot);
      if next == Some(name) && !Truthy(Lookup(out, "should_loop", Bool(true))) {
        next := AlternateNext(edges, name, ev, snapshot);
      }
      failed := false;
      assert next == SelectNext(g.edges, name, ev, snapshot, out);
      RunFromAdvances(g, ev, name, at, p, next, Progress(counters', state.data, state.history, log'), out);
    }
  }
}
