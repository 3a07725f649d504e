/** The backtest-results store (frontend/src/stores/backtestResultsStore.ts): the loaded
    results, the selected task and its result, and a comparison set of at most four
    distinct task ids whose results are kept alongside. Results are plain objects; their
    `task_id` field ties them to tasks. */
module ResultsStore {
  import opened Wrappers
  import opened Seqs
  import opened Js

  /** A task as listed by the backend: its status and, once finished, its results. */
  datatype Task = Task(status: string, results: Option<seq<JsObject>>)

  /** The largest number of tasks compared at once. */
  const MaxCompared := 4

  predicate OfTask(r: JsObject, id: string) {
    Get(r, "task_id") == Text(id)
  }

  /** `ids.includes(r.task_id)`. */
  predicate InCompare(r: JsObject, ids: seq<string>) {
    Get(r, "task_id").Text? && Get(r, "task_id").s in ids
  }

  function InCompareTest(ids: seq<string>): JsObject -> bool {
    r => InCompare(r, ids)
  }

  function OtherId(id: string): string -> bool {
    x => x != id
  }

  /** `results.find(r => r.task_id === id) || null`: the first result of the task. */
  function FindTask(results: seq<JsObject>, id: string): (r: Option<JsObject>)
    ensures r.None? <==> forall i :: 0 <= i < |results| ==> !OfTask(results[i], id)
    ensures r.Some? ==> exists i :: 0 <= i < |results| && results[i] == r.value && OfTask(results[i], id)
                                    && forall j :: 0 <= j < i ==> !OfTask(results[j], id)
  {
    if results == [] then None
    else if OfTask(results[0], id) then Some(results[0])
    else
      var rest := FindTask(results[1..], id);
      assert forall i :: 1 <= i < |results| ==> results[i] == results[1..][i - 1];
      rest
  }

  predicate Completed(t: Task) {
    t.status == "completed" && t.results.Some?
  }

  /** `tasks.filter(completed).flatMap(t => t.results)`. */
  function CompletedResults(tasks: seq<Task>): seq<JsObject> {
    if tasks == [] then []
    else (if Completed(tasks[0]) then tasks[0].results.value else []) + CompletedResults(tasks[1..])
  }

  /** The results `setTasks` keeps are exactly those of completed tasks. */
  lemma {:induction false} CompletedResultsMembers(tasks: seq<Task>, x: JsObject)
    ensures x in CompletedResults(tasks) <==> exists i :: 0 <= i < |tasks| && Completed(tasks[i]) && x in tasks[i].results.value
  {
    if tasks != [] {
      CompletedResultsMembers(tasks[1..], x);
      if exists i :: 1 <= i < |tasks| && Completed(tasks[i]) && x in tasks[i].results.value {
        var i :| 1 <= i < |tasks| && Completed(tasks[i]) && x in tasks[i].results.value;
        assert tasks[1..][i - 1] == tasks[i];
      }
      if exists i :: 0 <= i < |tasks[1..]| && Completed(tasks[1..][i]) && x in tasks[1..][i].results.value {
        var i :| 0 <= i < |tasks[1..]| && Completed(tasks[1..][i]) && x in tasks[1..][i].results.value;
        assert tasks[i + 1] == tasks[1..][i];
      }
    }
  }

  /** The results of tasks in order: their number is the sum of the completed tasks'. */
  lemma {:induction false} CompletedResultsConcat(a: seq<Task>, b: seq<Task>)
    ensures CompletedResults(a + b) == CompletedResults(a) + CompletedResults(b)
  {
    if a != [] {
      CompletedResultsConcat(a[1..], b);
      assert (a + b)[1..] == a[1..] + b;
    } else {
      assert a + b == b;
    }
  }

  /** No result is in an empty comparison. */
  lemma NothingCompared(results: seq<JsObject>)
    ensures Filter(results, InCompareTest([])) == []
  {
  }

  /** Removing an id keeps the others distinct and in order. */
  lemma RemoveIdKeepsDistinct(ids: seq<string>, id: string)
    requires Distinct(ids)
    ensures Distinct(Filter(ids, OtherId(id)))
    ensures SubsequenceOf(Filter(ids, OtherId(id)), ids)
  {
    FilterDistinct(ids, OtherId(id));
    FilterIsSubsequence(ids, OtherId(id));
  }

  /** Removing an id drops exactly that id. */
  lemma RemoveIdExactly(ids: seq<string>, id: string)
    ensures id !in Filter(ids, OtherId(id))
    ensures forall x :: x in ids && x != id ==> x in Filter(ids, OtherId(id))
  {
    var r := Filter(ids, OtherId(id));
    forall x | x in ids && x != id ensures x in r {
      var i :| 0 <= i < |ids| && ids[i] == x;
      assert OtherId(id)(ids[i]);
    }
  }

  class Store {
    var results: seq<JsObject>
    var tasks: seq<Task>
    var selectedTaskId: Option<string>
    var selectedResult: Option<JsObject>
    var compareMode: bool
    var compareTaskIds: seq<string>
    var compareResults: seq<JsObject>
    var loading: bool
    var error: Option<string>

    /** At most four distinct compared ids whose results are the compared results, and a
      selected result that follows the selected task. */
    ghost predicate Valid()
      reads this
    {
      && |compareTaskIds| <= MaxCompared
      && Distinct(compareTaskIds)
      && compareResults == Filter(results, InCompareTest(compareTaskIds))
      && (selectedTaskId.None? ==> selectedResult.None?)
      && (selectedTaskId.Some? && selectedTaskId.value != "" ==> selectedResult == FindTask(results, selectedTaskId.value))
    }

    constructor()
      ensures Valid()
      ensures results == [] && tasks == [] && selectedTaskId == None && selectedResult == None
      ensures !compareMode && compareTaskIds == [] && compareResults == [] && !loading && error == None
    {
      results, tasks := [], [];
      selectedTaskId, selectedResult := None, None;
      compareMode, compareTaskIds, compareResults := false, [], [];
      loading, error := false, None;
    }

    /** `setResults`: the selection is refreshed only while a (non-empty) task id is
      selected; the compared results are recomputed. */
    method SetResults(rs: seq<JsObject>)
      requires Valid()
      modifies this
      ensures Valid()
      ensures results == rs
      ensures selectedTaskId == old(selectedTaskId)
      ensures selectedResult == (if selectedTaskId.Some? && selectedTaskId.value != "" then FindTask(rs, selectedTaskId.value)
                                 else old(selectedResult))
      ensures compareResults == Filter(rs, InCompareTest(compareTaskIds))
      ensures tasks == old(tasks) && compareMode == old(compareMode) && compareTaskIds == old(compareTaskIds)
      ensures loading == old(loading) && error == old(error)
    {
      results := rs;
      if selectedTaskId.Some? && selectedTaskId.value != "" {
        selectedResult := FindTask(rs, selectedTaskId.value);
      }
      compareResults := Filter(rs, InCompareTest(compareTaskIds));
    }

    /** `setTasks`: the results become those of the completed tasks, in task order. */
    method SetTasks(ts: seq<Task>)
      requires Valid()
      modifies this
      ensures Valid()
      ensures tasks == ts && results == CompletedResults(ts)
      ensures selectedTaskId == old(selectedTaskId)
      ensures selectedResult == (if selectedTaskId.Some? && selectedTaskId.value != "" then FindTask(results, selectedTaskId.value)
                                 else old(selectedResult))
      ensures compareMode == old(compareMode) && compareTaskIds == old(compareTaskIds)
      ensures compareResults == Filter(results, InCompareTest(compareTaskIds))
      ensures loading == old(loading) && error == old(error)
    {
      tasks := ts;
      SetResults(CompletedResults(ts));
    }

    /** `selectTask`: the first result of that task, or none. */
    method SelectTask(id: string)
      requires Valid()
      modifies this
      ensures Valid()
      ensures selectedTaskId == Some(id) && selectedResult == FindTask(results, id)
      ensures results == old(results) && tasks == old(tasks) && compareMode == old(compareMode)
      ensures compareTaskIds == old(compareTaskIds) && compareResults == old(compareResults)
      ensures loading == old(loading) && error == old(error)
    {
      selectedTaskId := Some(id);
      selectedResult := FindTask(results, id);
    }

    method ClearSelection()
      requires Valid()
      modifies this
      ensures Valid()
      ensures selectedTaskId == None && selectedResult == None
      ensures results == old(results) && tasks == old(tasks) && compareMode == old(compareMode)
      ensures compareTaskIds == old(compareTaskIds) && compareResults == old(compareResults)
      ensures loading == old(loading) && error == old(error)
    {
      selectedTaskId, selectedResult := None, None;
    }

    /** `toggleCompareMode`: leaving compare mode also empties the comparison. */
    method ToggleCompareMode()
      requires Valid()
      modifies this
      ensures Valid()
      ensures compareMode == !old(compareMode)
      ensures old(compareMode) ==> compareTaskIds == [] && compareResults == []
      ensures !old(compareMode) ==> compareTaskIds == old(compareTaskIds) && compareResults == old(compareResults)
      ensures results == old(results) && tasks == old(tasks)
      ensures selectedTaskId == old(selectedTaskId) && selectedResult == old(selectedResult)
      ensures loading == old(loading) && error == old(error)
    {
      var was := compareMode;
      compareMode := !was;
      if was {
        ClearCompare();
      }
    }

    /** `addToCompare`: nothing once four ids are held or when the id is already held;
      otherwise the id goes last and the compared results are recomputed. */
    method AddToCompare(id: string)
      requires Valid()
      modifies this
      ensures Valid()
      ensures |old(compareTaskIds)| >= MaxCompared || id in old(compareTaskIds) ==>
        compareTaskIds == old(compareTaskIds) && compareResults == old(compareResults)
      ensures |old(compareTaskIds)| < MaxCompared && id !in old(compareTaskIds) ==>
        compareTaskIds == old(compareTaskIds) + [id] && compareResults == Filter(results, InCompareTest(compareTaskIds))
      ensures results == old(results) && tasks == old(tasks) && compareMode == old(compareMode)
      ensures selectedTaskId == old(selectedTaskId) && selectedResult == old(selectedResult)
      ensures loading == old(loading) && error == old(error)
    {
      if |compareTaskIds| >= MaxCompared {
        return;
      }
      if id !in compareTaskIds {
        var ids := compareTaskIds + [id];
        compareTaskIds := ids;
        compareResults := Filter(results, InCompareTest(ids));
      }
    }

    /** `removeFromCompare`: exactly that id goes, the others keep their order. */
    method RemoveFromCompare(id: string)
      requires Valid()
      modifies this
      ensures Valid()
      ensures compareTaskIds == Filter(old(compareTaskIds), OtherId(id))
      ensures id !in compareTaskIds && SubsequenceOf(compareTaskIds, old(compareTaskIds))
      ensures forall x :: x in old(compareTaskIds) && x != id ==> x in compareTaskIds
      ensures compareResults == Filter(results, InCompareTest(compareTaskIds))
      ensures results == old(results) && tasks == old(tasks) && compareMode == old(compareMode)
      ensures selectedTaskId == old(selectedTaskId) && selectedResult == old(selectedResult)
      ensures loading == old(loading) && error == old(error)
    {
      RemoveIdKeepsDistinct(compareTaskIds, id);
      RemoveIdExactly(compareTaskIds, id);
      var ids := Filter(compareTaskIds, OtherId(id));
      compareTaskIds := ids;
      compareResults := Filter(results, InCompareTest(ids));
    }

    method ClearCompare()
      requires Valid()
      modifies this
      ensures Valid()
      ensures compareTaskIds == [] && compareResults == []
      ensures results == old(results) && tasks == old(tasks) && compareMode == old(compareMode)
      ensures selectedTaskId == old(selectedTaskId) && selectedResult == old(selectedResult)
      ensures loading == old(loading) && error == old(error)
    {
      NothingCompared(results);
      compareTaskIds, compareResults := [], [];
    }

    method SetLoading(b: bool)
      requires Valid()
      modifies this
      ensures Valid()
      ensures loading == b && error == old(error)
      ensures results == old(results) && tasks == old(tasks) && compareMode == old(compareMode)
      ensures compareTaskIds == old(compareTaskIds) && compareResults == old(compareResults)
      ensures selectedTaskId == old(selectedTaskId) && selectedResult == old(selectedResult)
    {
      loading := b;
    }

    method SetError(e: Option<string>)
      requires Valid()
      modifies this
      ensures Valid()
      ensures error == e && loading == old(loading)
      ensures results == old(results) && tasks == old(tasks) && compareMode == old(compareMode)
      ensures compareTaskIds == old(compareTaskIds) && compareResults == old(compareResults)
      ensures selectedTaskId == old(selectedTaskId) && selectedResult == old(selectedResult)
    {
      error := e;
    }
  }
}
