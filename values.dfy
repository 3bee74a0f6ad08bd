/** Python values as they flow through a workflow state, with the dynamic
    behaviours the engine relies on: truthiness, `dict.get`, guard
    evaluation and tool calls. */
module Values {

  datatype Option<T> = None | Some(value: T)

  datatype Result<T> = Ok(value: T) | Err(message: string)

  /** The shapes of Python value the engine and the code-review tools inspect.
      `Num` is a Python float, kept as an exact real. */
  datatype Value =
    | Null
    | Bool(b: bool)
    | Int(i: int)
    | Num(r: real)
    | Str(s: string)
    | List(items: seq<Value>)

  /** A workflow state, a node output, a tool result: a Python `dict` with string keys. */
  type State = map<string, Value>

  /** Python truthiness (`bool(v)`). */
  predicate Truthy(v: Value) {
    match v
    case Null => false
    case Bool(b) => b
    case Int(i) => i != 0
    case Num(r) => r != 0.0
    case Str(s) => s != ""
    case List(items) => items != []
  }

  /** `d.get(key, default)`. */
  function Lookup(d: State, key: string, default: Value): Value {
    if key in d then d[key] else default
  }

  /** The outcome of evaluating a guard expression: the value it produced, or
      an exception raised while evaluating it. */
  datatype EvalResult = Evaluated(v: Value) | EvalError

  /** The semantics of guard strings against a state snapshot. The engine
      treats it as a black box, so it is a parameter of every operation that
      evaluates guards. */
  type Evaluator = (string, State) -> EvalResult

  /** A guard holds when its evaluation returns a truthy value; an evaluation
      that raises counts as false. */
  predicate GuardHolds(ev: Evaluator, guard: string, s: State) {
    match ev(guard, s)
    case Evaluated(v) => Truthy(v)
    case EvalError => false
  }

  /** What a tool callable does when called on a state snapshot: returns a
      dict, returns `None`, or raises. */
  datatype ToolResult = Returned(m: State) | ReturnedNone | Raised

  type Tool = State -> ToolResult
}

/** The two declarations of the request/response schemas that the engine uses. */
module Models {
  import opened Values

  /** `NodeType`. */
  datatype NodeKind = Function | Conditional | Loop

  /** `ExecutionLog`; the wall-clock timestamp is not modelled. */
  datatype LogEntry = LogEntry(node: string, stateSnapshot: State, output: State)
}
