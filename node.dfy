/** `Node`: one step of a workflow. Its kind, tool, condition and bound are
    fixed at construction; only the loop counter `iterations` changes. */
module EngineNode {
  import opened Values
  import opened Models
  import opened EngineState

  /** The fixed part of a node. */
  datatype NodeDef = NodeDef(kind: NodeKind, tool: Option<Tool>, condition: Option<string>, maxIterations: int)

  /** What executing a node yields: an output dict, or the exception its
      tool raised. */
  datatype StepResult = Output(values: State) | Failed

  /** The result of one execution together with the counter afterwards. */
  datatype Execution = Execution(result: StepResult, iterations: nat)

  /** `if self.condition:` an absent or empty condition is no condition. */
  predicate HasCondition(condition: Option<string>) {
    condition.Some? && condition.value != ""
  }

  /** `_evaluate_condition`: true without a condition, otherwise the
      truthiness of the evaluated guard, false when evaluation raises. */
  function ConditionHolds(condition: Option<string>, ev: Evaluator, s: State): (b: bool)
    ensures !HasCondition(condition) ==> b
    ensures HasCondition(condition) && ev(condition.value, s).EvalError? ==> !b
    ensures HasCondition(condition) && ev(condition.value, s).Evaluated? ==> (b <==> Truthy(ev(condition.value, s).v))
  {
    if !HasCondition(condition) then true else GuardHolds(ev, condition.value, s)
  }

  /** The output of a loop node whose counter has just become `n`. */
  function LoopOutput(n: nat, shouldLoop: bool): State {
    map["should_loop" := Bool(shouldLoop), "iterations" := Int(n)]
  }

  /** `execute`, on a node with definition `d` and counter `iterations`,
      against the state `s`. */
  function NodeExecution(d: NodeDef, ev: Evaluator, iterations: nat, s: State): (e: Execution)
    // a Function node: the tool's dict, `{}` for no tool or a `None` result,
    // and the tool's exception when it raises
    ensures d.kind == Function && d.tool.None? ==> e.result == Output(map[])
    ensures d.kind == Function && d.tool.Some? ==>
      (d.tool.value(s).Raised? <==> e.result.Failed?) &&
      (d.tool.value(s).Returned? ==> e.result == Output(d.tool.value(s).m)) &&
      (d.tool.value(s).ReturnedNone? ==> e.result == Output(map[]))
    // a Conditional node: exactly one key
    ensures d.kind == Conditional ==>
      e.result == Output(map["condition_result" := Bool(ConditionHolds(d.condition, ev, s))])
    // a Loop node: the counter goes up by one and is reported, and it asks
    // to loop again only below the bound and when its condition holds
    ensures d.kind == Loop ==>
      e.iterations == iterations + 1 &&
      e.result.Output? && e.result.values.Keys == {"should_loop", "iterations"} &&
      e.result.values["iterations"] == Int(iterations + 1) &&
      e.result.values["should_loop"].Bool? &&
      (Truthy(e.result.values["should_loop"]) <==>
         iterations + 1 < d.maxIterations && ConditionHolds(d.condition, ev, s))
    ensures d.kind != Loop ==> e.iterations == iterations
  {
    match d.kind
    case Function =>
      var r := if d.tool.None? then Output(map[])
               else match d.tool.value(s)
                    case Returned(m) => Output(m)
                    case ReturnedNone => Output(map[])
                    case Raised => Failed;
      Execution(r, iterations)
    case Conditional =>
      Execution(Output(map["condition_result" := Bool(ConditionHolds(d.condition, ev, s))]), iterations)
    case Loop =>
      var n := iterations + 1;
      var go := n < d.maxIterations && ConditionHolds(d.condition, ev, s);
      Execution(Output(LoopOutput(n, go)), n)
  }

  /** A loop node without a condition, bound `m`, started at 0 asks to loop
      again on each of its first `m - 1` executions and stops on the `m`-th. */
  lemma {:induction false} LoopStopsAtBound(d: NodeDef, ev: Evaluator, k: nat, s: State)
    requires d.kind == Loop && !HasCondition(d.condition)
    requires 1 <= k
    ensures var e := NodeExecution(d, ev, k - 1, s);
      e.iterations == k &&
      (e.result.values["should_loop"] == Bool(false) <==> k >= d.maxIterations)
  {
    var e := NodeExecution(d, ev, k - 1, s);
    assert e.result.values == LoopOutput(k, k < d.maxIterations);
  }

  class Node {
    const name: string
    const kind: NodeKind
    const tool: Option<Tool>
    const condition: Option<string>
    const maxIterations: int
    var iterations: nat

    function Def(): NodeDef {
      NodeDef(kind, tool, condition, maxIterations)
    }

    /** A new node's counter is zero; without arguments there is no tool,
        no condition and a bound of 10 iterations. */
    constructor (name: string, kind: NodeKind, tool: Option<Tool> := None,
                 condition: Option<string> := None, maxIterations: int := 10)
      ensures this.name == name && this.kind == kind && this.tool == tool
      ensures this.condition == condition && this.maxIterations == maxIterations
      ensures iterations == 0
    {
      this.name := name;
      this.kind := kind;
      this.tool := tool;
      this.condition := condition;
      this.maxIterations := maxIterations;
      iterations := 0;
    }

    /** `execute`: follows the kind; only a loop node changes its counter. */
    method Execute(ev: Evaluator, state: WorkflowState) returns (result: StepResult)
      modifies this
      ensures var e := NodeExecution(Def(), ev, old(iterations), state.data);
        result == e.result && iterations == e.iterations
    {
      if kind == Function {
        if tool.Some? {
          var snapshot := state.GetState();
          var r := tool.value(snapshot);
          result := match r
            case Returned(m) => Output(m)
            case ReturnedNone => Output(map[])
            case Raised => Failed;
          return;
        }
        result := Output(map[]);
      } else if kind == Conditional {
        if HasCondition(condition) {
          var b := EvaluateCondition(ev, state);
          result := Output(map["condition_result" := Bool(b)]);
          return;
        }
        result := Output(map["condition_result" := Bool(true)]);
      } else {
        iterations := iterations + 1;
        var shouldContinue := iterations < maxIterations;
        if HasCondition(condition) {
          var b := EvaluateCondition(ev, state);
          shouldContinue := shouldContinue && b;
        }
        result := Output(map["should_loop" := Bool(shouldContinue), "iterations" := Int(iterations)]);
      }
    }

    /** `_evaluate_condition`. */
    method EvaluateCondition(ev: Evaluator, state: WorkflowState) returns (b: bool)
      ensures b == ConditionHolds(condition, ev, state.data)
    {
      if !HasCondition(condition) {
        return true;
      }
      var snapshot := state.GetState();
      match ev(condition.value, snapshot)
      case Evaluated(v) => b := Truthy(v);
      case EvalError => b := false;
    }

    /** `reset`: only the counter changes, to zero. */
    method Reset()
      modifies this
      ensures iterations == 0
    {
      iterations := 0;
    }
  }

  /** `Node(name, node_type)` with the other arguments left out: no tool, no
      condition, at most 10 iterations, and the counter at zero. */
  method NewNodeWithDefaults(name: string, kind: NodeKind) returns (n: Node)
    ensures fresh(n)
    ensures n.name == name && n.kind == kind && n.tool == None && n.condition == None
    ensures n.maxIterations == 10 && n.iterations == 0
  {
    n := new Node(name, kind);
  }
}
