/** The memory-storage branch of the database service
    (backend/app/services/database_service.py): strategies and backtest tasks kept in
    insertion-ordered tables keyed by their id, backtest results kept per task, and one
    download-status record. A model object is the map of the attributes it carries;
    `to_dict` projects it onto its model's columns. The asynchronous ORM calls of the
    database branch are outside the model: with a session they yield `DatabaseBranch`. */
module DatabaseService {
  import opened Wrappers
  import opened Seqs

  /** A Python value stored in a model attribute or a request dictionary. */
  datatype Value =
    | Null
    | Bool(b: bool)
    | Int(i: int)
    | Num(r: real)
    | Str(s: string)
    | Items(items: seq<Value>)
    | Dict(entries: map<string, Value>)

  /** The attributes of a model object, or the fields of a dictionary. */
  type Obj = map<string, Value>

  datatype DbError =
    | NoSession                 // ValueError: database mode without a session
    | DatabaseBranch            // the ORM call of database mode
    | InvalidKeyword            // TypeError of the declarative constructor
    | AttributeError            // `.get` called on a model object

  /** Python truthiness. */
  predicate Truthy(v: Value) {
    match v
    case Null => false
    case Bool(b) => b
    case Int(i) => i != 0
    case Num(r) => r != 0.0
    case Str(s) => s != ""
    case Items(xs) => xs != []
    case Dict(m) => m != map[]
  }

  /** `getattr(o, k, default)` / `d.get(k, default)`. */
  function AttrOr(o: Obj, k: string, default: Value): Value {
    if k in o then o[k] else default
  }

  /** An unset column attribute of a transient object reads as None. */
  function Attr(o: Obj, k: string): Value {
    AttrOr(o, k, Null)
  }

  // ---------------------------------------------------------------- models

  /** A table model: its columns in `to_dict` order, and the columns `to_dict` replaces
      by `[]` or `{}` when falsy. */
  datatype Model = Model(columns: seq<string>, listColumns: set<string>, dictColumns: set<string>)

  const StrategyModel := Model(
    ["id", "name", "description", "factors", "parameters", "is_active", "created_at", "updated_at"],
    {"factors"}, {"parameters"})

  const TaskModel := Model(
    ["task_id", "status", "message", "progress", "symbols", "strategy", "parameters", "date_start",
     "date_end", "rule_type", "leverage_rate", "c_rate", "slippage", "symbols_total",
     "symbols_completed", "created_at", "updated_at", "completed_at"],
    {"symbols"}, {"parameters"})

  const ResultModel := Model(
    ["id", "task_id", "symbol", "strategy", "parameters", "final_return", "annual_return",
     "max_drawdown", "sharpe_ratio", "win_rate", "profit_loss_ratio", "total_trades",
     "equity_curve", "trade_records", "statistics", "created_at"],
    {"equity_curve", "trade_records"}, {"parameters", "statistics"})

  const StatusModel := Model(
    ["id", "status", "progress", "message", "symbols", "trade_type", "intervals", "symbols_total",
     "symbols_completed", "error_details", "created_at", "updated_at", "completed_at"],
    {"symbols", "intervals"}, {"error_details"})

  /** `to_dict`: every column of the model, with falsy list and dict columns replaced by
      an empty list or dict. */
  function ToDict(m: Model, o: Obj): (d: Obj)
    ensures d.Keys == set c | c in m.columns
  {
    map c | c in m.columns ::
      if c in m.listColumns && !Truthy(Attr(o, c)) then Items([])
      else if c in m.dictColumns && !Truthy(Attr(o, c)) then Dict(map[])
      else Attr(o, c)
  }

  /** The declarative constructor `Model(**data)`: a keyword that is not a column raises
      TypeError; otherwise the object carries exactly the given attributes. */
  function Construct(m: Model, data: Obj): (r: Result<Obj, DbError>)
    ensures r.Ok? <==> forall k :: k in data ==> k in m.columns
    ensures r.Ok? ==> r.value == data
    ensures r.Err? ==> r.error == InvalidKeyword
  {
    if data.Keys <= Names(m) then Ok(data) else Err(InvalidKeyword)
  }

  function Names(m: Model): set<string> {
    set c | c in m.columns
  }

  /** `Strategy.from_dict`: the six fields taken from the request, with defaults for
      factors, parameters and is_active. */
  function StrategyFromDict(data: Obj): (o: Obj)
    ensures o.Keys == {"id", "name", "description", "factors", "parameters", "is_active"}
    ensures Attr(o, "id") == Attr(data, "id")
    ensures "is_active" !in data ==> o["is_active"] == Bool(true)
  {
    map["id" := Attr(data, "id"),
        "name" := Attr(data, "name"),
        "description" := Attr(data, "description"),
        "factors" := AttrOr(data, "factors", Items([])),
        "parameters" := AttrOr(data, "parameters", Dict(map[])),
        "is_active" := AttrOr(data, "is_active", Bool(true))]
  }

  /** The answer of `get_data_status` while no status record exists. */
  const IdleStatus: Obj := map[
    "status" := Str("idle"),
    "progress" := Num(0.0),
    "message" := Str("Ready to download data"),
    "symbols_total" := Int(0),
    "symbols_completed" := Int(0)]

  /** The database branch of every operation: ValueError without a session. */
  function DatabasePath(db: bool): DbError {
    if db then DatabaseBranch else NoSession
  }

  // ---------------------------------------------------------------- tables

  /** A Python dict as its keys in insertion order plus the key-to-value map. */
  ghost predicate Table<V>(order: seq<Value>, m: map<Value, V>) {
    && Distinct(order)
    && (forall i :: 0 <= i < |order| ==> order[i] in m)
    && (forall k :: k in m ==> k in order)
  }

  /** The key order after `d[k] = v`: a new key goes last, an existing key keeps its place. */
  function Put(order: seq<Value>, k: Value): (r: seq<Value>)
    ensures k in r && |r| >= |order|
    ensures forall i :: 0 <= i < |order| ==> r[i] == order[i]
  {
    if k in order then order else order + [k]
  }

  function OtherThan(k: Value): Value -> bool {
    x => x != k
  }

  /** The key order after `del d[k]`. */
  function Remove(order: seq<Value>, k: Value): (r: seq<Value>)
    ensures SubsequenceOf(r, order)
    ensures k !in r
    ensures forall i :: 0 <= i < |order| && order[i] != k ==> order[i] in r
  {
    FilterIsSubsequence(order, OtherThan(k));
    Filter(order, OtherThan(k))
  }

  lemma PutKeepsTable<V>(order: seq<Value>, m: map<Value, V>, k: Value, v: V)
    requires Table(order, m)
    ensures Table(Put(order, k), m[k := v])
  {
  }

  lemma RemoveKeepsTable<V>(order: seq<Value>, m: map<Value, V>, k: Value)
    requires Table(order, m)
    ensures Table(Remove(order, k), m - {k})
  {
    FilterDistinct(order, OtherThan(k));
  }

  /** `list(d.values())`. */
  function Values(order: seq<Value>, m: map<Value, Obj>): (r: seq<Obj>)
    requires forall i :: 0 <= i < |order| ==> order[i] in m
    ensures |r| == |order|
    ensures forall i :: 0 <= i < |order| ==> r[i] == m[order[i]]
  {
    seq(|order|, i requires 0 <= i < |order| => m[order[i]])
  }

  // ---------------------------------------------------------------- listings

  function Min(a: int, b: int): int {
    if a <= b then a else b
  }

  /** A Python slice bound: negative counts from the end, then clamped into [0, n]. */
  function SliceIndex(i: int, n: nat): (k: nat)
    ensures k <= n
    ensures i >= 0 ==> k == Min(i, n)
  {
    if i < 0 then (if i + n < 0 then 0 else i + n) else Min(i, n)
  }

  /** `s[lo:hi]` with Python's bound rules. */
  function PySlice<T>(s: seq<T>, lo: int, hi: int): (r: seq<T>)
    ensures |r| <= |s|
    ensures 0 <= lo <= hi ==> r == s[Min(lo, |s|)..Min(hi, |s|)] && |r| <= hi - lo
  {
    var a, b := SliceIndex(lo, |s|), SliceIndex(hi, |s|);
    if a < b then s[a..b] else []
  }

  function Dicts(m: Model, s: seq<Obj>): (r: seq<Obj>)
    ensures |r| == |s|
    ensures forall i :: 0 <= i < |s| ==> r[i] == ToDict(m, s[i])
  {
    seq(|s|, i requires 0 <= i < |s| => ToDict(m, s[i]))
  }

  /** A strategy counts as active unless its is_active attribute is falsy. */
  predicate IsActive(o: Obj) {
    Truthy(AttrOr(o, "is_active", Bool(true)))
  }

  function ActiveTest(): Obj -> bool {
    o => IsActive(o)
  }

  /** The listing `get_strategies` evidently intends: the active strategies (or all),
      in insertion order, page [skip, skip + limit), as dictionaries. */
  function StrategiesListing(values: seq<Obj>, skip: int, limit: int, activeOnly: bool): (r: seq<Obj>)
    ensures |r| <= |values|
    ensures 0 <= skip && 0 <= limit ==> |r| <= limit
  {
    var chosen := if activeOnly then Filter(values, ActiveTest()) else values;
    Dicts(StrategyModel, PySlice(chosen, skip, skip + limit))
  }

  /** `get_strategies` as written: `s.get(...)` on a Strategy object raises
      AttributeError as soon as one strategy is stored and active_only is set. */
  function StrategiesListingAsWritten(values: seq<Obj>, skip: int, limit: int, activeOnly: bool): Result<seq<Obj>, DbError> {
    if activeOnly && values != [] then Err(AttributeError)
    else Ok(StrategiesListing(values, skip, limit, activeOnly))
  }

  /** The task filter applies only for a truthy status. */
  predicate HasStatus(o: Obj, status: string) {
    Attr(o, "status") == Str(status)
  }

  function StatusTest(status: string): Obj -> bool {
    o => HasStatus(o, status)
  }

  /** The listing `get_backtest_tasks` evidently intends. */
  function TasksListing(values: seq<Obj>, skip: int, limit: int, status: Option<string>): (r: seq<Obj>)
    ensures |r| <= |values|
    ensures 0 <= skip && 0 <= limit ==> |r| <= limit
  {
    var chosen := if status.Some? && status.value != "" then Filter(values, StatusTest(status.value)) else values;
    Dicts(TaskModel, PySlice(chosen, skip, skip + limit))
  }

  /** `get_backtest_tasks` as written: `t.get("status")` on a BacktestTask object raises
      as soon as one task is stored and a status is given. */
  function TasksListingAsWritten(values: seq<Obj>, skip: int, limit: int, status: Option<string>): Result<seq<Obj>, DbError> {
    if status.Some? && status.value != "" && values != [] then Err(AttributeError)
    else Ok(TasksListing(values, skip, limit, status))
  }

  /** `r` is records [skip, skip + limit) of `chosen` (clamped to its length), each as
      a dictionary of model `m`. */
  predicate IsPage(r: seq<Obj>, m: Model, chosen: seq<Obj>, skip: nat, limit: nat) {
    && |r| == Min(skip + limit, |chosen|) - Min(skip, |chosen|)
    && forall i :: 0 <= i < |r| ==> r[i] == ToDict(m, chosen[Min(skip, |chosen|) + i])
  }

  /** A page with non-negative bounds is the records [skip, skip + limit) of `chosen`. */
  lemma PageOf(m: Model, chosen: seq<Obj>, skip: nat, limit: nat)
    ensures IsPage(Dicts(m, PySlice(chosen, skip, skip + limit)), m, chosen, skip, limit)
  {
  }

  /** Filtering keeps exactly the items that pass. */
  lemma ChosenExactly(values: seq<Obj>, keep: Obj -> bool)
    ensures forall k :: 0 <= k < |Filter(values, keep)| ==> keep(Filter(values, keep)[k])
    ensures forall k :: 0 <= k < |values| && keep(values[k]) ==> values[k] in Filter(values, keep)
  {
  }

  /** A listing with non-negative bounds is the page [skip, skip + limit) of the chosen
      strategies, and with active_only every chosen strategy is active and every active
      one is chosen. */
  lemma StrategiesPage(values: seq<Obj>, skip: nat, limit: nat, activeOnly: bool)
    ensures var chosen := if activeOnly then Filter(values, ActiveTest()) else values;
      && IsPage(StrategiesListing(values, skip, limit, activeOnly), StrategyModel, chosen, skip, limit)
      && (activeOnly ==> forall k :: 0 <= k < |chosen| ==> IsActive(chosen[k]))
      && (activeOnly ==> forall k :: 0 <= k < |values| && IsActive(values[k]) ==> values[k] in chosen)
  {
    var chosen := if activeOnly then Filter(values, ActiveTest()) else values;
    PageOf(StrategyModel, chosen, skip, limit);
    if activeOnly {
      ChosenExactly(values, ActiveTest());
      forall k | 0 <= k < |chosen| ensures IsActive(chosen[k]) {
        assert ActiveTest()(chosen[k]);
      }
      forall k | 0 <= k < |values| && IsActive(values[k]) ensures values[k] in chosen {
        assert ActiveTest()(values[k]);
      }
    }
  }

  /** With a status, exactly the tasks having it are chosen, and the listing is the page
      [skip, skip + limit) of them. */
  lemma TasksPage(values: seq<Obj>, skip: nat, limit: nat, status: string)
    requires status != ""
    ensures var chosen := Filter(values, StatusTest(status));
      && IsPage(TasksListing(values, skip, limit, Some(status)), TaskModel, chosen, skip, limit)
      && (forall k :: 0 <= k < |chosen| ==> HasStatus(chosen[k], status))
      && (forall k :: 0 <= k < |values| && HasStatus(values[k], status) ==> values[k] in chosen)
  {
    var chosen := Filter(values, StatusTest(status));
    PageOf(TaskModel, chosen, skip, limit);
    ChosenExactly(values, StatusTest(status));
    forall k | 0 <= k < |chosen| ensures HasStatus(chosen[k], status) {
      assert StatusTest(status)(chosen[k]);
    }
    forall k | 0 <= k < |values| && HasStatus(values[k], status) ensures values[k] in chosen {
      assert StatusTest(status)(values[k]);
    }
  }

  /** Without a (truthy) status nothing is filtered. */
  lemma TasksUnfiltered(values: seq<Obj>, skip: int, limit: int, status: Option<string>)
    requires status.None? || status == Some("")
    ensures TasksListing(values, skip, limit, status) == Dicts(TaskModel, PySlice(values, skip, skip + limit))
  {
  }

  /** The two memory-mode listings as written fail on every non-empty table when
      filtering, while the corrected listings return the matching records. */
  lemma ListingsAsWrittenFail(values: seq<Obj>, skip: int, limit: int, status: string)
    requires values != [] && status != ""
    ensures StrategiesListingAsWritten(values, skip, limit, true) == Err(AttributeError)
    ensures TasksListingAsWritten(values, skip, limit, Some(status)) == Err(AttributeError)
  {
  }

  /** One freshly created strategy: the default listing as written raises, the corrected
      one returns it. */
  lemma DefaultListingOfOneStrategy()
    ensures var s := StrategyFromDict(map["id" := Str("s1")]);
      && StrategiesListingAsWritten([s], 0, 100, true) == Err(AttributeError)
      && StrategiesListing([s], 0, 100, true) == [ToDict(StrategyModel, s)]
  {
    var s := StrategyFromDict(map["id" := Str("s1")]);
    assert IsActive(s);
    assert Filter([s], ActiveTest()) == Filter([], ActiveTest()) + [s];
  }

  /** `for key, value in update_data.items(): setattr(obj, key, value)`. */
  method SetAttrs(o: Obj, update: Obj) returns (r: Obj)
    ensures r.Keys == o.Keys + update.Keys
    ensures forall k :: k in update ==> r[k] == update[k]
    ensures forall k :: k in o && k !in update ==> r[k] == o[k]
  {
    r := o;
    var pending := update.Keys;
    while pending != {}
      invariant pending <= update.Keys
      invariant r.Keys == o.Keys + (update.Keys - pending)
      invariant forall k :: k in update && k !in pending ==> r[k] == update[k]
      invariant forall k :: k in o && k !in update ==> r[k] == o[k]
      invariant forall k :: k in o && k in pending ==> r[k] == o[k]
      decreases pending
    {
      var k :| k in pending;
      r := r[k := update[k]];
      pending := pending - {k};
    }
  }

  // ---------------------------------------------------------------- the service

  class Service {
    var useMemory: bool
    var strategyIds: seq<Value>
    var strategies: map<Value, Obj>
    var taskIds: seq<Value>
    var tasks: map<Value, Obj>
    var results: map<Value, seq<Obj>>
    var dataStatus: Option<Obj>

    ghost predicate Valid()
      reads this
    {
      Table(strategyIds, strategies) && Table(taskIds, tasks)
    }

    /** `use_memory` comes from the settings, passed in here. */
    constructor(useMemory: bool)
      ensures Valid()
      ensures this.useMemory == useMemory
      ensures strategyIds == [] && strategies == map[] && taskIds == [] && tasks == map[]
      ensures results == map[] && dataStatus == None
    {
      this.useMemory := useMemory;
      strategyIds, strategies := [], map[];
      taskIds, tasks := [], map[];
      results, dataStatus := map[], None;
    }

    /** `get_strategy`: the stored strategy as a dictionary, or None. */
    method GetStrategy(db: bool, id: Value) returns (r: Result<Option<Obj>, DbError>)
      ensures !useMemory ==> r == Err(DatabasePath(db))
      ensures useMemory && id in strategies ==> r == Ok(Some(ToDict(StrategyModel, strategies[id])))
      ensures useMemory && id !in strategies ==> r == Ok(None)
    {
      if useMemory {
        if id in strategies {
          r := Ok(Some(ToDict(StrategyModel, strategies[id])));
        } else {
          r := Ok(None);
        }
        return;
      }
      r := Err(DatabasePath(db));
    }

    /** `get_strategies` with the attribute filter it evidently intends. */
    method GetStrategies(db: bool, skip: int, limit: int, activeOnly: bool) returns (r: Result<seq<Obj>, DbError>)
      requires Valid()
      ensures !useMemory ==> r == Err(DatabasePath(db))
      ensures useMemory ==> r == Ok(StrategiesListing(Values(strategyIds, strategies), skip, limit, activeOnly))
    {
      if useMemory {
        var values := Values(strategyIds, strategies);
        r := Ok(StrategiesListing(values, skip, limit, activeOnly));
        return;
      }
      r := Err(DatabasePath(db));
    }

    /** `create_strategy`: stored under its id, replacing any strategy with that id. */
    method CreateStrategy(db: bool, data: Obj) returns (r: Result<Obj, DbError>)
      requires Valid()
      modifies this
      ensures Valid()
      ensures !useMemory ==> r == Err(DatabasePath(db)) && unchanged(this)
      ensures useMemory ==> var s := StrategyFromDict(data);
        && r == Ok(ToDict(StrategyModel, s))
        && strategies == old(strategies)[Attr(data, "id") := s]
        && strategyIds == Put(old(strategyIds), Attr(data, "id"))
      ensures useMemory == old(useMemory) && taskIds == old(taskIds) && tasks == old(tasks)
      ensures results == old(results) && dataStatus == old(dataStatus)
    {
      if useMemory {
        var s := StrategyFromDict(data);
        var id := s["id"];
        PutKeepsTable(strategyIds, strategies, id, s);
        strategyIds := Put(strategyIds, id);
        strategies := strategies[id := s];
        r := Ok(ToDict(StrategyModel, s));
        return;
      }
      r := Err(DatabasePath(db));
    }

    /** `update_strategy`: exactly the supplied attributes set; None for an unknown id. */
    method UpdateStrategy(db: bool, id: Value, update: Obj) returns (r: Result<Option<Obj>, DbError>)
      requires Valid()
      modifies this
      ensures Valid()
      ensures !useMemory ==> r == Err(DatabasePath(db)) && unchanged(this)
      ensures useMemory && id !in old(strategies) ==> r == Ok(None) && unchanged(this)
      ensures useMemory && id in old(strategies) ==>
        && id in strategies
        && strategies.Keys == old(strategies).Keys
        && (forall k :: k in strategies && k != id ==> strategies[k] == old(strategies)[k])
        && strategies[id].Keys == old(strategies)[id].Keys + update.Keys
        && (forall a :: a in update ==> strategies[id][a] == update[a])
        && (forall a :: a in old(strategies)[id] && a !in update ==> strategies[id][a] == old(strategies)[id][a])
        && r == Ok(Some(ToDict(StrategyModel, strategies[id])))
      ensures strategyIds == old(strategyIds)
      ensures useMemory == old(useMemory) && taskIds == old(taskIds) && tasks == old(tasks)
      ensures results == old(results) && dataStatus == old(dataStatus)
    {
      if useMemory {
        if id in strategies {
          var s := SetAttrs(strategies[id], update);
          strategies := strategies[id := s];
          r := Ok(Some(ToDict(StrategyModel, s)));
        } else {
          r := Ok(None);
        }
        return;
      }
      r := Err(DatabasePath(db));
    }

    /** `delete_strategy`: True iff the id was stored; only that entry goes. */
    method DeleteStrategy(db: bool, id: Value) returns (r: Result<bool, DbError>)
      requires Valid()
      modifies this
      ensures Valid()
      ensures !useMemory ==> r == Err(DatabasePath(db)) && unchanged(this)
      ensures useMemory ==> && r == Ok(id in old(strategies))
                            && strategies == old(strategies) - {id}
                            && strategyIds == (if id in old(strategies) then Remove(old(strategyIds), id) else old(strategyIds))
      ensures useMemory == old(useMemory) && taskIds == old(taskIds) && tasks == old(tasks)
      ensures results == old(results) && dataStatus == old(dataStatus)
    {
      if useMemory {
        if id in strategies {
          RemoveKeepsTable(strategyIds, strategies, id);
          strategyIds := Remove(strategyIds, id);
          strategies := strategies - {id};
          r := Ok(true);
        } else {
          r := Ok(false);
        }
        return;
      }
      r := Err(DatabasePath(db));
    }

    /** `get_backtest_task`. */
    method GetBacktestTask(db: bool, id: Value) returns (r: Result<Option<Obj>, DbError>)
      ensures !useMemory ==> r == Err(DatabasePath(db))
      ensures useMemory && id in tasks ==> r == Ok(Some(ToDict(TaskModel, tasks[id])))
      ensures useMemory && id !in tasks ==> r == Ok(None)
    {
      if useMemory {
        if id in tasks {
          r := Ok(Some(ToDict(TaskModel, tasks[id])));
        } else {
          r := Ok(None);
        }
        return;
      }
      r := Err(DatabasePath(db));
    }

    /** `get_backtest_tasks` with the attribute filter it evidently intends. */
    method GetBacktestTasks(db: bool, skip: int, limit: int, status: Option<string>) returns (r: Result<seq<Obj>, DbError>)
      requires Valid()
      ensures !useMemory ==> r == Err(DatabasePath(db))
      ensures useMemory ==> r == Ok(TasksListing(Values(taskIds, tasks), skip, limit, status))
    {
      if useMemory {
        var values := Values(taskIds, tasks);
        r := Ok(TasksListing(values, skip, limit, status));
        return;
      }
      r := Err(DatabasePath(db));
    }

    /** `create_backtest_task`: a keyword that is not a column raises and stores nothing;
      otherwise the task is stored under its task_id. */
    method CreateBacktestTask(db: bool, data: Obj) returns (r: Result<Obj, DbError>)
      requires Valid()
      modifies this
      ensures Valid()
      ensures !useMemory ==> r == Err(DatabasePath(db)) && unchanged(this)
      ensures useMemory && Construct(TaskModel, data).Err? ==> r == Err(Construct(TaskModel, data).error) && unchanged(this)
      ensures useMemory && Construct(TaskModel, data).Ok? ==>
        && r == Ok(ToDict(TaskModel, data))
        && tasks == old(tasks)[Attr(data, "task_id") := data]
        && taskIds == Put(old(taskIds), Attr(data, "task_id"))
      ensures useMemory == old(useMemory) && strategyIds == old(strategyIds) && strategies == old(strategies)
      ensures results == old(results) && dataStatus == old(dataStatus)
    {
      if useMemory {
        var t := Construct(TaskModel, data);
        if t.Err? {
          r := Err(t.error);
          return;
        }
        var id := Attr(t.value, "task_id");
        PutKeepsTable(taskIds, tasks, id, t.value);
        taskIds := Put(taskIds, id);
        tasks := tasks[id := t.value];
        r := Ok(ToDict(TaskModel, t.value));
        return;
      }
      r := Err(DatabasePath(db));
    }

    /** `update_backtest_task`: exactly the supplied attributes set; None for an unknown id. */
    method UpdateBacktestTask(db: bool, id: Value, update: Obj) returns (r: Result<Option<Obj>, DbError>)
      requires Valid()
      modifies this
      ensures Valid()
      ensures !useMemory ==> r == Err(DatabasePath(db)) && unchanged(this)
      ensures useMemory && id !in old(tasks) ==> r == Ok(None) && unchanged(this)
      ensures useMemory && id in old(tasks) ==>
        && id in tasks
        && tasks.Keys == old(tasks).Keys
        && (forall k :: k in tasks && k != id ==> tasks[k] == old(tasks)[k])
        && tasks[id].Keys == old(tasks)[id].Keys + update.Keys
        && (forall a :: a in update ==> tasks[id][a] == update[a])
        && (forall a :: a in old(tasks)[id] && a !in update ==> tasks[id][a] == old(tasks)[id][a])
        && r == Ok(Some(ToDict(TaskModel, tasks[id])))
      ensures taskIds == old(taskIds)
      ensures useMemory == old(useMemory) && strategyIds == old(strategyIds) && strategies == old(strategies)
      ensures results == old(results) && dataStatus == old(dataStatus)
    {
      if useMemory {
        if id in tasks {
          var t := SetAttrs(tasks[id], update);
          tasks := tasks[id := t];
          r := Ok(Some(ToDict(TaskModel, t)));
        } else {
          r := Ok(None);
        }
        return;
      }
      r := Err(DatabasePath(db));
    }

    /** `create_backtest_result`: appended to the list of its task_id (None when the
      request has none), the list created on first use. */
    method CreateBacktestResult(db: bool, data: Obj) returns (r: Result<Obj, DbError>)
      requires Valid()
      modifies this
      ensures Valid()
      ensures !useMemory ==> r == Err(DatabasePath(db)) && unchanged(this)
      ensures useMemory && Construct(ResultModel, data).Err? ==> r == Err(Construct(ResultModel, data).error) && unchanged(this)
      ensures useMemory && Construct(ResultModel, data).Ok? ==>
        && r == Ok(ToDict(ResultModel, data))
        && var key := Attr(data, "task_id");
           results == old(results)[key := (if key in old(results) then old(results)[key] else []) + [data]]
      ensures useMemory == old(useMemory) && strategyIds == old(strategyIds) && strategies == old(strategies)
      ensures taskIds == old(taskIds) && tasks == old(tasks) && dataStatus == old(dataStatus)
    {
      if useMemory {
        var made := Construct(ResultModel, data);
        if made.Err? {
          r := Err(made.error);
          return;
        }
        var key := Attr(data, "task_id");
        if key !in results {
          results := results[key := []];
        }
        results := results[key := results[key] + [made.value]];
        r := Ok(ToDict(ResultModel, made.value));
        return;
      }
      r := Err(DatabasePath(db));
    }

    /** `get_backtest_results`: the task's results in insertion order, [] if none. */
    method GetBacktestResults(db: bool, taskId: string) returns (r: Result<seq<Obj>, DbError>)
      ensures !useMemory ==> r == Err(DatabasePath(db))
      ensures useMemory && Str(taskId) !in results ==> r == Ok([])
      ensures useMemory && Str(taskId) in results ==> r == Ok(Dicts(ResultModel, results[Str(taskId)]))
    {
      if useMemory {
        var stored := if Str(taskId) in results then results[Str(taskId)] else [];
        r := Ok(Dicts(ResultModel, stored));
        return;
      }
      r := Err(DatabasePath(db));
    }

    /** `get_data_status`: the stored record, or the idle default before the first update. */
    method GetDataStatus(db: bool) returns (r: Result<Obj, DbError>)
      ensures !useMemory ==> r == Err(DatabasePath(db))
      ensures useMemory && dataStatus.None? ==> r == Ok(IdleStatus)
      ensures useMemory && dataStatus.Some? ==> r == Ok(ToDict(StatusModel, dataStatus.value))
    {
      if useMemory {
        if dataStatus.Some? {
          r := Ok(ToDict(StatusModel, dataStatus.value));
        } else {
          r := Ok(IdleStatus);
        }
        return;
      }
      r := Err(DatabasePath(db));
    }

    /** `update_data_status`: the first call creates the record, later calls set the
      supplied attributes on it. */
    method UpdateDataStatus(db: bool, data: Obj) returns (r: Result<Obj, DbError>)
      requires Valid()
      modifies this
      ensures Valid()
      ensures !useMemory ==> r == Err(DatabasePath(db)) && unchanged(this)
      ensures useMemory && old(dataStatus).None? && Construct(StatusModel, data).Err? ==>
        r == Err(Construct(StatusModel, data).error) && unchanged(this)
      ensures useMemory && old(dataStatus).None? && Construct(StatusModel, data).Ok? ==>
        dataStatus == Some(data) && r == Ok(ToDict(StatusModel, data))
      ensures useMemory && old(dataStatus).Some? ==>
        && dataStatus.Some?
        && dataStatus.value.Keys == old(dataStatus).value.Keys + data.Keys
        && (forall a :: a in data ==> dataStatus.value[a] == data[a])
        && (forall a :: a in old(dataStatus).value && a !in data ==> dataStatus.value[a] == old(dataStatus).value[a])
        && r == Ok(ToDict(StatusModel, dataStatus.value))
      ensures useMemory == old(useMemory) && strategyIds == old(strategyIds) && strategies == old(strategies)
      ensures taskIds == old(taskIds) && tasks == old(tasks) && results == old(results)
    {
      if useMemory {
        if dataStatus.None? {
          var made := Construct(StatusModel, data);
          if made.Err? {
            r := Err(made.error);
            return;
          }
          dataStatus := Some(made.value);
        } else {
          var s := SetAttrs(dataStatus.value, data);
          dataStatus := Some(s);
        }
        r := Ok(ToDict(StatusModel, dataStatus.value));
        return;
      }
      r := Err(DatabasePath(db));
    }

    method SwitchToDatabaseMode()
      modifies this
      ensures !useMemory
      ensures strategyIds == old(strategyIds) && strategies == old(strategies) && taskIds == old(taskIds)
      ensures tasks == old(tasks) && results == old(results) && dataStatus == old(dataStatus)
    {
      useMemory := false;
    }

    method SwitchToMemoryMode()
      modifies this
      ensures useMemory
      ensures strategyIds == old(strategyIds) && strategies == old(strategies) && taskIds == old(taskIds)
      ensures tasks == old(tasks) && results == old(results) && dataStatus == old(dataStatus)
    {
      useMemory := true;
    }

    /** `clear_memory_storage`: all four tables back to their initial state; the mode
      stays. */
    method ClearMemoryStorage()
      modifies this
      ensures Valid()
      ensures useMemory == old(useMemory)
      ensures strategyIds == [] && strategies == map[] && taskIds == [] && tasks == map[]
      ensures results == map[] && dataStatus == None
    {
      strategyIds, strategies := [], map[];
      taskIds, tasks := [], map[];
      results, dataStatus := map[], None;
    }
  }

  /** Storing then reading: a created strategy is returned by `get_strategy` under its id,
      and a deleted one is gone while the others stay. */
  method CreateThenGet(s: Service, data: Obj) returns (created: Result<Obj, DbError>, fetched: Result<Option<Obj>, DbError>)
    requires s.Valid() && s.useMemory
    modifies s
    ensures s.Valid()
    ensures created.Ok? && fetched == Ok(Some(created.value))
  {
    created := s.CreateStrategy(false, data);
    fetched := s.GetStrategy(false, Attr(data, "id"));
  }

  /** After clearing, every lookup misses and the status is idle again. */
  method ClearThenRead(s: Service, db: bool, id: Value, taskId: string) returns (strategy: Result<Option<Obj>, DbError>, results: Result<seq<Obj>, DbError>, status: Result<Obj, DbError>)
    requires s.Valid() && s.useMemory
    modifies s
    ensures strategy == Ok(None) && results == Ok([]) && status == Ok(IdleStatus)
  {
    s.ClearMemoryStorage();
    strategy := s.GetStrategy(db, id);
    results := s.GetBacktestResults(db, taskId);
    status := s.GetDataStatus(db);
  }
}
