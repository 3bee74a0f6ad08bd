# Workflow engine: a verified Dafny model

This project models the core of a small workflow/graph engine for agent
workflows. A workflow is a graph of nodes joined by edges. An edge may carry
a guard.

A run starts at the entry point. Each node it reaches is executed against a
shared key/value state:

- a Function node calls a registered tool;
- a Conditional node evaluates a guard;
- a Loop node counts its iterations.

Each node's output is merged into the state, a snapshot is taken, and a log
entry is appended. The next node is then chosen from the outgoing edges:

- the first edge whose guard is absent or holds;
- otherwise the first declared edge;
- with a loop-exit override when the chosen edge leads back to the node and
  its output carries a falsy `should_loop`.

The run ends when there is no next node, the next name is empty, the next
node is unknown, a tool raises, or 100 nodes have run.

Around the engine sit three more parts:

- the tool registry, a name-to-tool table kept in registration order;
- the in-memory storage of graphs and run records;
- the five code-review tools: `extract_functions`, `check_complexity`,
  `detect_issues`, `suggest_improvements` and `calculate_quality_score`.

Modules:

- `Values` (values.dfy) holds the Python values that flow through a state,
  with truthiness and `dict.get`.
  - A guard is evaluated by an abstract `Evaluator`, which gives a value or
    an error; an error counts as false.
  - A tool is a function from a state snapshot to a dict, `None`, or an
    exception.
  - `Models` holds `NodeType` and the log entry.
- `EngineState` (state.dfy) is the `WorkflowState` class: the current data
  and its snapshot history.
- `EngineNode` (node.dfy) has a pure specification, `NodeExecution`, and the
  `Node` class, whose `Execute` is proved against it.
- `EngineGraph` (graph.dfy) has:
  - the pure next-node scans;
  - the whole run as a pure function, `RunFrom` / `RunAt` / `RunNode`;
  - lemmas about runs: the log and history correspondence, the 100-step
    cap, and the loop exit;
  - the `WorkflowGraph` class, whose `Run` method, with its `while` loop, is
    proved equal to the pure run.
- `Tools` (registry.dfy) is `ToolRegistry`. A Python dict keeps its keys in
  insertion order, so it is a map together with the order of first
  registration.
- `Storage` (memory.dfy) is `MemoryStorage`.
- `Text` (text.dfy) holds the Python string operations the tools use:
  - `in` on strings, `str.split`, `str.strip` and `str.startswith`;
  - their defining properties, among them the `"\n".join` round trip of
    `split` and the piece count of a split on one character.
- `CodeReview` (codereview.dfy) holds the five tools as the pure functions
  the registry stores, and the registration. The two tools that loop
  (`extract_functions`, `suggest_improvements`) also come as methods with
  those loops, proved equal to the functions.

## Model

| member | source | states |
|---|---|---|
| EngineState.InitialData | workflow_engine_project/app/engine/state.py:8 | a missing initial state becomes the empty dict, a given one is kept |
| EngineState.WorkflowState.constructor | workflow_engine_project/app/engine/state.py:7-9 | the history starts with exactly one snapshot, equal to the initial state |
| EngineState.WorkflowState.Get | workflow_engine_project/app/engine/state.py:11-12 | the stored value, or the default when the key is absent; nothing changes |
| EngineState.WorkflowState.Set | workflow_engine_project/app/engine/state.py:14-15 | only the given key changes, and no snapshot is taken |
| EngineState.WorkflowState.Update | workflow_engine_project/app/engine/state.py:17-19 | patch values win and untouched keys keep their values; the keys are the union; exactly one snapshot, equal to the new state, is appended and earlier ones are unchanged |
| EngineState.WorkflowState.GetState | workflow_engine_project/app/engine/state.py:21-22 | a value equal to the current state |
| EngineState.WorkflowState.GetHistory | workflow_engine_project/app/engine/state.py:24-25 | the snapshot history |
| EngineState.WorkflowState.GetItem | workflow_engine_project/app/engine/state.py:27-28 | the stored value, or a KeyError when the key is absent |
| EngineState.WorkflowState.SetItem | workflow_engine_project/app/engine/state.py:30-31 | the same effect as `set` |
| EngineState.SnapshotIsolation | workflow_engine_project/app/engine/state.py:17-22 | on a fresh state, updating `a` to 1 and then to 2 leaves the first update's snapshot at `{a: 1}` and the second at `{a: 2}` |
| EngineNode.ConditionHolds | workflow_engine_project/app/engine/node.py:45-56 | true without a condition; false when evaluation raises; otherwise the truthiness of the guard's value |
| EngineNode.NodeExecution | workflow_engine_project/app/engine/node.py:23-43 | Function: the tool's dict, `{}` for no tool or a `None` result, failure when the tool raises. Conditional: exactly `{condition_result: b}`. Loop: the counter goes up by one and is reported, and `should_loop` holds iff the new count is below the bound and the condition holds. Other kinds keep the counter |
| EngineNode.LoopStopsAtBound | workflow_engine_project/app/engine/node.py:36-41 | without a condition, the k-th execution from zero reports `should_loop` false exactly when k reaches `max_iterations` |
| EngineNode.Node.constructor | workflow_engine_project/app/engine/node.py:8-21 | the fields as given, with the counter at 0; the tool and condition default to none and `max_iterations` to 10 |
| EngineNode.NewNodeWithDefaults | workflow_engine_project/app/engine/node.py:8-21 | a node built from a name and a kind alone has no tool, no condition, a bound of 10 iterations and its counter at 0 |
| EngineNode.Node.Execute | workflow_engine_project/app/engine/node.py:23-43 | the result and the new counter are those of `NodeExecution` for the node's definition and old counter |
| EngineNode.Node.EvaluateCondition | workflow_engine_project/app/engine/node.py:45-56 | the result is `ConditionHolds` of the node's condition on the current state |
| EngineNode.Node.Reset | workflow_engine_project/app/engine/node.py:58-60 | the counter becomes 0 and nothing else changes |
| EngineGraph.FirstEnabled | workflow_engine_project/app/engine/graph.py:68-78 | the index of the first edge whose guard is absent or holds, with no qualifying edge before it; none when no edge qualifies; a raising guard does not qualify |
| EngineGraph.FirstEnabledExit | workflow_engine_project/app/engine/graph.py:90-99 | the same, restricted to edges that do not lead back to the current node |
| EngineGraph.NextNode | workflow_engine_project/app/engine/graph.py:63-83 | none iff the node has no edges; else the target of the first qualifying edge, else the first declared target; always one of the node's targets |
| EngineGraph.AlternateNext | workflow_engine_project/app/engine/graph.py:85-101 | never the current node; the first qualifying edge leading elsewhere, and none iff there is no such edge |
| EngineGraph.SelectNext | workflow_engine_project/app/engine/graph.py:53-59 | when `_get_next_node` picks the current node and the output stops looping, the choice of `_get_alternate_next_node`, never the current node; otherwise, or when `_get_next_node` leaves the node, it is `_get_next_node`'s choice; always one of the node's targets |
| EngineGraph.StepOnce | workflow_engine_project/app/engine/graph.py:41-53 | on a raise nothing is merged or logged; otherwise the output is merged, and one snapshot and one log entry for the node are appended |
| EngineGraph.RunFrom | workflow_engine_project/app/engine/graph.py:35-40 | nothing more runs once the name is none or empty, the name is unknown, or 100 steps have run |
| EngineGraph.RunAt | workflow_engine_project/app/engine/graph.py:38-39 | an unknown node name ends the run with nothing executed |
| EngineGraph.RunFromStep | workflow_engine_project/app/engine/graph.py:35-59 | one turn of the loop: execute, stop if the tool raised, otherwise continue from the selected node |
| EngineGraph.RunFromLog | workflow_engine_project/app/engine/graph.py:35-61 | the log only grows, by at most one entry per remaining step; every new entry names a known node, and the first one names the current node |
| EngineGraph.RunFromHistory | workflow_engine_project/app/engine/graph.py:42-51 | one snapshot per log entry, each equal to that entry's snapshot; the data is the last snapshot |
| EngineGraph.RunShape | workflow_engine_project/app/engine/graph.py:26-61 | a whole run logs at most 100 entries; the history has one snapshot more than the log, starting with the initial state; the first entry is the entry point; an empty or unknown entry point runs nothing |
| EngineGraph.FunctionWithoutToolContinues | workflow_engine_project/app/engine/node.py:25-29 | a Function node without a tool never raises and never stops a loop |
| EngineGraph.SelfLoopRunsToCap | workflow_engine_project/app/engine/graph.py:32-36 | a node whose only edge is an unguarded self-edge, and which never stops looping, fills every remaining step |
| EngineGraph.SelfLoopRunsExactlyCap | workflow_engine_project/app/engine/graph.py:32-36 | such a node, as the entry point, is executed exactly 100 times |
| EngineGraph.LoopStep | workflow_engine_project/app/engine/graph.py:53-59 | a loop node with edges to itself and to `exit` logs itself and raises its counter by one; it goes back to itself below the bound and to `exit` on reaching it |
| EngineGraph.LoopRunsToExit | workflow_engine_project/app/engine/graph.py:53-59 | such a loop node with bound m and counter c runs m - c times in a row, then the run continues from `exit` |
| EngineGraph.LoopExitsAfterBound | workflow_engine_project/app/engine/graph.py:53-59 | the log shows the loop node exactly m - c times, then `exit` if anything follows |
| EngineGraph.WorkflowGraph.constructor | workflow_engine_project/app/engine/graph.py:10-14 | no nodes, no edges and an empty log |
| EngineGraph.WorkflowGraph.AddNode | workflow_engine_project/app/engine/graph.py:16-18 | the node is stored under its name, replacing any earlier one; edges and log unchanged |
| EngineGraph.WorkflowGraph.AddEdge | workflow_engine_project/app/engine/graph.py:20-24 | the edge goes at the end of its source's list, which is created if missing; every other source's list is unchanged |
| EngineGraph.WorkflowGraph.Run | workflow_engine_project/app/engine/graph.py:26-61 | the final state, history, log, node counters and raise flag are those of the pure run from the entry point; the log is replaced, not appended to; nodes and edges are unchanged |
| EngineGraph.WorkflowGraph.Drive | workflow_engine_project/app/engine/graph.py:35-59 | the `while` loop computes the pure run from the entry point |
| EngineGraph.WorkflowGraph.Turn | workflow_engine_project/app/engine/graph.py:38-59 | one iteration computes one step of the pure run |
| Tools.ToolRegistry.constructor | workflow_engine_project/app/tools/registry.py:6-7 | a new registry is empty |
| Tools.ToolRegistry.Register | workflow_engine_project/app/tools/registry.py:9-11 | binds the name, overwriting; every other binding stays; a new name goes at the end of the order |
| Tools.ToolRegistry.Get | workflow_engine_project/app/tools/registry.py:13-17 | the bound tool, or the "not found" error for an unknown name |
| Tools.ToolRegistry.ListTools | workflow_engine_project/app/tools/registry.py:19-21 | every registered name exactly once, in first-registration order |
| Tools.RegisterThenGet | workflow_engine_project/app/tools/registry.py:9-17 | after `register(name, f)`, `get(name)` gives f and `get` of any other name is unchanged |
| Storage.MemoryStorage.constructor | workflow_engine_project/app/storage/memory.py:10-12 | both tables start empty |
| Storage.MemoryStorage.SaveGraph | workflow_engine_project/app/storage/memory.py:14-18 | the graph and its name are stored under the id, which is returned; runs are untouched |
| Storage.MemoryStorage.GetGraph | workflow_engine_project/app/storage/memory.py:20-24 | the stored graph, or none for an unknown id |
| Storage.MemoryStorage.SaveRun | workflow_engine_project/app/storage/memory.py:26-32 | a snapshot of the state with the status and log is stored under the id, replacing an earlier record; graphs are untouched |
| Storage.MemoryStorage.GetRun | workflow_engine_project/app/storage/memory.py:34-36 | the stored record, or none for an unknown id |
| Storage.MemoryStorage.ListGraphs | workflow_engine_project/app/storage/memory.py:38-43 | exactly the saved ids, each mapped to its graph's name |
| Storage.SaveThenGetGraph | workflow_engine_project/app/storage/memory.py:14-24 | a saved graph is found again under the returned id and listed with its name; runs unchanged |
| Storage.SaveRunTwice | workflow_engine_project/app/storage/memory.py:26-36 | saving twice under one id keeps only the second record |
| Text.IndexFromFinds | workflow_engine_project/app/workflows/code_review.py:35-37 | the search returns the first occurrence at or after the start, and none only when there is no occurrence there |
| Text.ContainsIff | workflow_engine_project/app/workflows/code_review.py:35-37 | `pat in s` holds iff the pattern occurs at some position |
| Text.FirstOccurrence | workflow_engine_project/app/workflows/code_review.py:11 | an occurrence with none before it is the one the search finds |
| Text.SkipSpaceStops | workflow_engine_project/app/workflows/code_review.py:10 | the leading whitespace is skipped and the scan stops at the first other character |
| Text.TrimEndStops | workflow_engine_project/app/workflows/code_review.py:10 | the trailing whitespace is dropped and the cut stops after the last other character |
| Text.StripDropsSpace | workflow_engine_project/app/workflows/code_review.py:10 | `strip()` gives a slice that neither starts nor ends with whitespace, and drops only whitespace around it |
| Text.SplitFrom | workflow_engine_project/app/workflows/code_review.py:8 | at least one piece; with no separator left, the whole rest; otherwise at least two pieces, the first running up to the separator |
| Text.PieceFrom | workflow_engine_project/app/workflows/code_review.py:11 | the first piece is the longest stretch without a separator, ending at the end or at a separator |
| Text.SecondPiece | workflow_engine_project/app/workflows/code_review.py:11 | piece 1 starts right after the first separator, holds no separator, and ends at the end or at the next separator |
| Text.JoinSplit | workflow_engine_project/app/workflows/code_review.py:8 | joining the pieces of `split` with the separator gives back the string |
| Text.SplitPieces | workflow_engine_project/app/workflows/code_review.py:8 | no piece of `split` contains the separator |
| Text.SplitCount | workflow_engine_project/app/workflows/code_review.py:22 | splitting on one character gives one piece more than its number of occurrences |
| CodeReview.LineCount | workflow_engine_project/app/workflows/code_review.py:22 | `len(code.split("\n"))` is the number of newlines plus one |
| CodeReview.DefLineStart | workflow_engine_project/app/workflows/code_review.py:10-11 | on a def line, the first "def " of the line is the one that opens the stripped line |
| CodeReview.UpToParen | workflow_engine_project/app/workflows/code_review.py:11 | `split("(")[0]` is the prefix up to the first "(", or the whole string |
| CodeReview.StretchAfterDef | workflow_engine_project/app/workflows/code_review.py:11 | the name expression takes, after the first "def ", the longest stretch holding neither "(" nor another "def " |
| CodeReview.FunctionNameIsStretch | workflow_engine_project/app/workflows/code_review.py:10-11 | the name of a def line is the text after its opening "def ", up to the first "(", the next "def " or the end of the line |
| CodeReview.DefLines | workflow_engine_project/app/workflows/code_review.py:9-10 | every listed index is a line whose stripped form starts with "def " |
| CodeReview.DefLinesExact | workflow_engine_project/app/workflows/code_review.py:9-10 | the def lines are listed in increasing order, and a line is listed iff it is a def line |
| CodeReview.NamesOfDefLines | workflow_engine_project/app/workflows/code_review.py:9-12 | one name per def line, in line order, each that line's name |
| CodeReview.ExtractFunctionsTool | workflow_engine_project/app/workflows/code_review.py:4-17 | raises iff `code` is not a string; otherwise exactly `functions` (the names of the def lines) and `function_count`, equal to its length |
| CodeReview.ExtractFunctions | workflow_engine_project/app/workflows/code_review.py:4-17 | the loop over the lines computes `ExtractFunctionsTool` |
| CodeReview.SnippetLines | workflow_engine_project/app/workflows/code_review.py:8 | "def f():\n    pass" splits into its two lines |
| CodeReview.SnippetName | workflow_engine_project/app/workflows/code_review.py:10-11 | "def f():" is a def line named "f" |
| CodeReview.SnippetNames | workflow_engine_project/app/workflows/code_review.py:8-12 | the snippet's only name is "f" |
| CodeReview.ExtractOneFunction | workflow_engine_project/app/workflows/code_review.py:4-17 | on `{code: "def f():\n    pass"}` the tool gives `functions = ["f"]` and `function_count = 1` |
| CodeReview.CheckComplexityTool | workflow_engine_project/app/workflows/code_review.py:19-28 | raises iff `code` is not a string; `lines_of_code` is the newline count plus one; `complexity_score` is lines/10 up to 100 lines, and the integer 10 beyond that |
| CodeReview.DetectIssues | workflow_engine_project/app/workflows/code_review.py:33-40 | at most three issues, drawn from the three messages in check order; the TODO issue iff "TODO" occurs, the print issue iff "print(" occurs, the long-file issue iff the line count exceeds 100 |
| CodeReview.DetectIssuesTool | workflow_engine_project/app/workflows/code_review.py:30-45 | raises iff `code` is not a string; otherwise exactly `issues` and `issue_count`, equal to its length |
| CodeReview.LongIssueAgreesWithLineCount | workflow_engine_project/app/workflows/code_review.py:22-39 | the long-file issue is reported iff `lines_of_code` exceeds 100 |
| CodeReview.SuggestionsFor | workflow_engine_project/app/workflows/code_review.py:53-58 | a string or a list gives at most three suggestions; any other issue makes `in` raise |
| CodeReview.SuggestionsRaise | workflow_engine_project/app/workflows/code_review.py:52-58 | once one issue raises, the whole loop raises |
| CodeReview.SuggestImprovementsTool | workflow_engine_project/app/workflows/code_review.py:47-63 | raises iff `issues` is not iterable or one issue makes `in` raise; otherwise exactly `suggestions` and `suggestion_count`, equal to its length |
| CodeReview.SuggestImprovements | workflow_engine_project/app/workflows/code_review.py:47-63 | the loop over the issues computes `SuggestImprovementsTool` |
| CodeReview.FixesByWords | workflow_engine_project/app/workflows/code_review.py:53-58 | the suggestions for a string are fixed by which of "TODO", "print" and "too long" it contains |
| CodeReview.OneFixPerIssue | workflow_engine_project/app/workflows/code_review.py:35-58 | each message of `detect_issues` gets exactly its one matching suggestion |
| CodeReview.OneFixEach | workflow_engine_project/app/workflows/code_review.py:52-58 | issues that each get one suggestion get them in order |
| CodeReview.SuggestionsForDetectedIssues | workflow_engine_project/app/workflows/code_review.py:30-63 | on the output of `detect_issues`, one suggestion per issue, in the same order; `suggestion_count` equals `issue_count` |
| CodeReview.QualityScoreTool | workflow_engine_project/app/workflows/code_review.py:65-74 | raises iff a count is not a number; otherwise `10 - issue_count - complexity/2` when positive, else the integer 0 (defaults 0 and 5), with `quality_check_complete` true |
| CodeReview.DefaultQuality | workflow_engine_project/app/workflows/code_review.py:67-69 | a state without counts scores 7.5 |
| CodeReview.QualityScoreBounds | workflow_engine_project/app/workflows/code_review.py:69 | for non-negative counts the score lies between 0 and 10, and more issues never raise it |
| CodeReview.RegisterCodeReviewTools | workflow_engine_project/app/workflows/code_review.py:76-81 | the five names are bound to the five tools, each overwriting; on a registry holding none of them, they join the order in that sequence |
| CodeReview.CodeReviewRegistry | workflow_engine_project/app/workflows/code_review.py:76-81 | on a new registry, `list_tools` gives exactly the five names, in registration order |

## Left out

- Python's `eval` of guard strings is an abstract evaluator parameter, which gives a value or an error. Python expression semantics and the printed diagnostics are not modelled.
- `async`/`await` is not modelled: nodes run one after another as ordinary calls.
- The `time.time()` timestamp of a log entry is not modelled, because it is nondeterministic.
- `copy.deepcopy` is not modelled: Dafny maps are values, so every snapshot is independent.
  - The model does not capture that `WorkflowState` keeps the caller's initial dict rather than a copy.
  - It does not capture that a stored run record, and the log list inside it, are shared with the callers of `save_run` and `get_run`.
  - It does not capture that `get_history` returns the live history list, and that `get` and `state[key]` return the stored objects, so callers can change the history or the state without `update`.
- Storage.MemoryStorage.SaveGraph: the graph id is a parameter supplied by the caller. The id drawn from `uuid4` is not modelled, so freshness of the id is not stated.
- CodeReview.CheckComplexityTool: Python floats are exact reals, so float rounding of `complexity_score` is not modelled.
- CodeReview.QualityScoreTool: Python floats are exact reals, so float rounding of `quality_score` is not modelled.
- CodeReview.SuggestImprovementsTool: a dict value has no `Value` case, so an issue that is a dict is not modelled. Only strings and lists are among the issues `in` accepts.
- CodeReview.RegisterCodeReviewTools: the resulting name order is stated only for a registry that holds none of the five names. Otherwise only the bindings and the registry's consistency are stated.
- The module-level `tool_registry` and `storage` objects become parameters.
- A tool that raises ends the run with the flag `raised`, in place of propagating the exception. The log up to that point is kept.
- The FastAPI endpoints, pydantic schemas and request-to-graph translation are not part of this model. Of the schemas, the model keeps only `NodeType` (as `NodeKind`) and the log entry (values.dfy, module `Models`).
- The five-step end-to-end code-review run is not stated as one lemma. Each tool is stated separately, and the engine is stated for any tools.
- Node loop counters persist across runs, as in the code: `run` never calls `reset`.

`line.split("def ")[1].split("(")[0]` stops at the first `(` and also at a second "def " on the same line, as `CodeReview.FunctionNameIsStretch` states.
