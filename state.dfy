/** `WorkflowState`: the key/value data of one run and the snapshots taken
    of it. Dafny maps are values, so every snapshot is independent of later
    changes, which is what the deep copies of the Python code achieve. */
module EngineState {
  import opened Values

  /** `initial_state or {}`: a missing initial state is the empty dict. */
  function InitialData(initial: Option<State>): (d: State)
    ensures initial.None? ==> d == map[]
    ensures initial.Some? ==> d == initial.value
  {
    if initial.None? then map[] else initial.value
  }

  class WorkflowState {
    /** The current state (`_state`). */
    var data: State
    /** The snapshots, oldest first (`_history`). */
    var history: seq<State>

    ghost predicate Valid()
      reads this
    {
      |history| >= 1
    }

    /** The history starts with one snapshot: the initial state. */
    constructor (initial: Option<State>)
      ensures Valid()
      ensures data == InitialData(initial)
      ensures history == [data]
    {
      data := InitialData(initial);
      history := [InitialData(initial)];
    }

    /** `get(key, default)`: the stored value or the default; no change. */
    method Get(key: string, default: Value) returns (v: Value)
      ensures key in data ==> v == data[key]
      ensures key !in data ==> v == default
    {
      v := Lookup(data, key, default);
    }

    /** `set(key, value)`: changes one key and takes no snapshot. */
    method Set(key: string, value: Value)
      requires Valid()
      modifies this
      ensures Valid()
      ensures data == old(data)[key := value]
      ensures history == old(history)
    {
      data := data[key := value];
    }

    /** `update(patch)`: the patch is merged in, its values winning, and the
        new state is appended to the history, earlier entries untouched. */
    method Update(patch: State)
      requires Valid()
      modifies this
      ensures Valid()
      ensures data == old(data) + patch
      ensures forall k :: k in patch ==> data[k] == patch[k]
      ensures forall k :: k in old(data) && k !in patch ==> data[k] == old(data)[k]
      ensures data.Keys == old(data).Keys + patch.Keys
      ensures history == old(history) + [data]
    {
      data := data + patch;
      history := history + [data];
    }

    /** `get_state()`: a copy equal to the current state. */
    method GetState() returns (s: State)
      ensures s == data
    {
      s := data;
    }

    /** `get_history()`. */
    method GetHistory() returns (h: seq<State>)
      ensures h == history
    {
      h := history;
    }

    /** `state[key]`: the stored value, or a `KeyError` when absent. */
    method GetItem(key: string) returns (r: Result<Value>)
      ensures key in data ==> r == Ok(data[key])
      ensures key !in data ==> r.Err?
    {
      if key in data {
        r := Ok(data[key]);
      } else {
        r := Err("KeyError");
      }
    }

    /** `state[key] = value`: the same as `Set`. */
    method SetItem(key: string, value: Value)
      requires Valid()
      modifies this
      ensures Valid()
      ensures data == old(data)[key := value]
      ensures history == old(history)
    {
      Set(key, value);
    }
  }

  /** A client: two updates leave the first snapshot as it was taken. */
  method SnapshotIsolation() returns (first: State, last: State)
    ensures first == map["a" := Int(1)]
    ensures last == map["a" := Int(2)]
  {
    var st := new WorkflowState(None);
    st.Update(map["a" := Int(1)]);
    st.Update(map["a" := Int(2)]);
    var h := st.GetHistory();
    first := h[1];
    last := h[2];
  }
}
