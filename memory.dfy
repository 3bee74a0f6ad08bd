/** `MemoryStorage`: the in-memory tables of saved graphs and of run records. */
module Storage {
  import opened Values
  import opened Models
  import opened EngineState
  import opened EngineGraph

  /** A saved graph with its metadata, `(graph, {"name": name})`. */
  datatype StoredGraph = StoredGraph(graph: WorkflowGraph, name: string)

  /** A saved run: the state snapshot, the status and the log. */
  datatype RunRecord = RunRecord(state: State, status: string, log: seq<LogEntry>)

  class MemoryStorage {
    var graphs: map<string, StoredGraph>
    var runs: map<string, RunRecord>

    /** Both tables start empty. */
    constructor ()
      ensures graphs == map[] && runs == map[]
    {
      graphs := map[];
      runs := map[];
    }

    /** `save_graph`: stores the graph and its name under `id` and returns
        it; `id` stands for the fresh identifier `save_graph` draws from `uuid4`.
        The runs table is untouched. */
    method SaveGraph(graph: WorkflowGraph, name: string, id: string) returns (graphId: string)
      modifies this
      ensures graphId == id
      ensures graphs == old(graphs)[id := StoredGraph(graph, name)]
      ensures runs == old(runs)
    {
      graphs := graphs[id := StoredGraph(graph, name)];
      graphId := id;
    }

    /** `get_graph`: the graph saved under `id`, or `None`. */
    method GetGraph(id: string) returns (r: Option<WorkflowGraph>)
      ensures id in graphs ==> r == Some(graphs[id].graph)
      ensures id !in graphs ==> r == None
    {
      if id in graphs {
        return Some(graphs[id].graph);
      }
      return None;
    }

    /** `save_run`: records a snapshot of the state with the status and the
        log under `id`, replacing an earlier record; the graphs table is
        untouched. */
    method SaveRun(id: string, state: WorkflowState, status: string, log: seq<LogEntry>)
      modifies this
      ensures runs == old(runs)[id := RunRecord(state.data, status, log)]
      ensures graphs == old(graphs)
    {
      var snapshot := state.GetState();
      runs := runs[id := RunRecord(snapshot, status, log)];
    }

    /** `get_run`: the record saved under `id`, or `None`. */
    method GetRun(id: string) returns (r: Option<RunRecord>)
      ensures id in runs ==> r == Some(runs[id])
      ensures id !in runs ==> r == None
    {
      if id in runs {
        return Some(runs[id]);
      }
      return None;
    }

    /** `list_graphs`: the saved ids, each mapped to its graph's name. */
    method ListGraphs() returns (r: map<string, string>)
      ensures r.Keys == graphs.Keys
      ensures forall id :: id in r ==> r[id] == graphs[id].name
    {
      r := map id | id in graphs :: graphs[id].name;
    }
  }

  /** A saved graph is found again under the returned id, with its name
      listed, and the runs are as they were. */
  method SaveThenGetGraph(st: MemoryStorage, graph: WorkflowGraph, name: string, id: string)
    returns (found: Option<WorkflowGraph>, listed: map<string, string>)
    modifies st
    ensures found == Some(graph)
    ensures id in listed && listed[id] == name
    ensures st.runs == old(st.runs)
  {
    var gid := st.SaveGraph(graph, name, id);
    found := st.GetGraph(gid);
    listed := st.ListGraphs();
  }

  /** Saving a run twice under one id keeps only the second record. */
  method SaveRunTwice(st: MemoryStorage, id: string, s1: WorkflowState, s2: WorkflowState,
                      status1: string, status2: string, log1: seq<LogEntry>, log2: seq<LogEntry>)
    returns (r: Option<RunRecord>)
    modifies st
    ensures r == Some(RunRecord(s2.data, status2, log2))
    ensures st.graphs == old(st.graphs)
  {
    st.SaveRun(id, s1, status1, log1);
    st.SaveRun(id, s2, status2, log2);
    r := st.GetRun(id);
  }
}
