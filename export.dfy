/** The export button of the results page (frontend/src/components/BacktestResults/ExportButton.tsx):
    the options of a one-click export, the rows built from the results, and the CSV text
    and JSON payload those rows become. Number and date formatting (`toFixed`,
    `toLocaleString`, number-to-string) are given as opaque formatters. */
module Export {
  import opened Wrappers
  import opened Strs
  import opened Seqs
  import opened Js

  datatype FieldLabel = FieldLabel(key: string, title: string)

  /** `availableFields`: every exportable field and its column title. */
  const AvailableFields: seq<FieldLabel> := [
    FieldLabel("symbol", "交易对"),
    FieldLabel("strategy", "策略"),
    FieldLabel("final_return", "总收益率"),
    FieldLabel("annual_return", "年化收益率"),
    FieldLabel("max_drawdown", "最大回撤"),
    FieldLabel("sharpe_ratio", "夏普比率"),
    FieldLabel("sortino_ratio", "Sortino比率"),
    FieldLabel("calmar_ratio", "Calmar比率"),
    FieldLabel("win_rate", "胜率"),
    FieldLabel("profit_factor", "盈利因子"),
    FieldLabel("total_trades", "总交易次数"),
    FieldLabel("winning_trades", "盈利交易次数"),
    FieldLabel("losing_trades", "亏损交易次数"),
    FieldLabel("avg_win", "平均盈利"),
    FieldLabel("avg_loss", "平均亏损"),
    FieldLabel("volatility", "波动率"),
    FieldLabel("var_95", "VaR (95%)"),
    FieldLabel("cvar_95", "CVaR (95%)"),
    FieldLabel("created_at", "创建时间")
  ]

  /** `availableFields.map(f => f.key)`. */
  function AllKeys(): (keys: seq<string>)
    ensures |keys| == |AvailableFields| && forall i :: 0 <= i < |keys| ==> keys[i] == AvailableFields[i].key
  {
    seq(|AvailableFields|, i requires 0 <= i < |AvailableFields| => AvailableFields[i].key)
  }

  /** The label of the first entry of `fields` with this key. */
  function FindLabel(fields: seq<FieldLabel>, key: string): (r: Option<string>)
    ensures r.None? <==> forall i :: 0 <= i < |fields| ==> fields[i].key != key
    ensures r.Some? ==> exists i :: (0 <= i < |fields| && fields[i].key == key && fields[i].title == r.value &&
      forall j :: 0 <= j < i ==> fields[j].key != key)
  {
    if fields == [] then None
    else if fields[0].key == key then Some(fields[0].title)
    else
      var r := FindLabel(fields[1..], key);
      assert forall i :: 1 <= i < |fields| ==> fields[i] == fields[1..][i - 1];
      if r.Some? then
        var i :| 0 <= i < |fields[1..]| && fields[1..][i].key == key && fields[1..][i].title == r.value &&
          forall j :: 0 <= j < i ==> fields[1..][j].key != key;
        assert fields[i + 1].title == r.value;
        r
      else r
  }

  /** `availableFields.find(f => f.key === field)?.title || field`. */
  function LabelOf(field: string): string {
    var found := FindLabel(AvailableFields, field);
    if found.Some? && found.value != "" then found.value else field
  }

  /** A known field is titled with its label, any other field with its own key. */
  lemma LabelOfField(i: int, field: string)
    requires 0 <= i < |AvailableFields|
    ensures LabelOf(AvailableFields[i].key) == AvailableFields[i].title
    ensures (forall j :: 0 <= j < |AvailableFields| ==> AvailableFields[j].key != field) ==> LabelOf(field) == field
  {
    KeysDistinct();
    FindFirstOfDistinct(AvailableFields, i);
    TitlesNonEmpty();
  }

  /** With distinct keys, the entry found for a key is the one holding it. */
  lemma {:induction false} FindFirstOfDistinct(fields: seq<FieldLabel>, i: int)
    requires 0 <= i < |fields|
    requires forall a, b :: 0 <= a < b < |fields| ==> fields[a].key != fields[b].key
    ensures FindLabel(fields, fields[i].key) == Some(fields[i].title)
    decreases i
  {
    if i > 0 {
      var rest := fields[1..];
      assert fields[0].key != fields[i].key;
      forall a, b | 0 <= a < b < |rest| ensures rest[a].key != rest[b].key {
        assert rest[a] == fields[a + 1] && rest[b] == fields[b + 1];
      }
      assert rest[i - 1] == fields[i];
      FindFirstOfDistinct(rest, i - 1);
    }
  }

  lemma KeysDistinct()
    ensures forall a, b :: 0 <= a < b < |AvailableFields| ==> AvailableFields[a].key != AvailableFields[b].key
  {
  }

  lemma TitlesNonEmpty()
    ensures forall a :: 0 <= a < |AvailableFields| ==> AvailableFields[a].title != ""
  {
  }

  // ---------------------------------------------------------------- options

  datatype Format = Csv | Excel | Pdf | Json

  datatype ExportOptions = ExportOptions(
    format: Format,
    includeCharts: bool,
    includeStatistics: bool,
    includeTrades: bool,
    includeEquityCurve: bool,
    selectedFields: seq<string>)

  /** The options of `handleQuickExport`, which is offered for CSV, Excel and PDF. */
  function QuickExportOptions(format: Format): (o: ExportOptions)
    requires format != Json
    ensures o.format == format && o.selectedFields == AllKeys()
    ensures o.includeCharts <==> format == Pdf
    ensures o.includeEquityCurve <==> format == Pdf
    ensures o.includeStatistics && !o.includeTrades
  {
    ExportOptions(format, format == Pdf, true, false, format == Pdf, AllKeys())
  }

  // ---------------------------------------------------------------- rows

  /** The formatting primitives the export calls; `parseNumber` is `Number(s)` on text
      (`None` for NaN) and `otherText` is `String(v)` for arrays and objects. */
  datatype Formatters = Formatters(
    fixed2: real -> string,
    numberText: real -> string,
    localeDate: JsValue -> string,
    parseNumber: string -> Option<real>,
    otherText: JsValue -> string)

  const PercentFields: seq<string> := ["final_return", "annual_return", "max_drawdown", "win_rate", "volatility", "var_95", "cvar_95"]
  const RatioFields: seq<string> := ["sharpe_ratio", "sortino_ratio", "calmar_ratio", "profit_factor"]

  /** How `handleDefaultExport` formats a field. */
  datatype FieldKind = Percent | Ratio | Date | Plain

  function KindOf(field: string): (k: FieldKind)
    ensures k == Percent <==> field in PercentFields
    ensures k == Ratio <==> field !in PercentFields && field in RatioFields
    ensures k == Date <==> field !in PercentFields && field !in RatioFields && field == "created_at"
  {
    if field in PercentFields then Percent
    else if field in RatioFields then Ratio
    else if field == "created_at" then Date
    else Plain
  }

  /** The two field tables the rows are built from: column titles and formatting. */
  datatype Layout = Layout(titleOf: string -> string, kindOf: string -> FieldKind)

  /** The component's tables. */
  function ComponentLayout(): Layout {
    Layout(LabelOf, KindOf)
  }

  /** JavaScript's numeric conversion inside `value * 100`; `None` is NaN. */
  function ToNumber(v: JsValue, fmt: Formatters): Option<real> {
    match v
    case Num(n) => Some(n)
    case Null => Some(0.0)
    case Bool(b) => Some(if b then 1.0 else 0.0)
    case Text(s) => fmt.parseNumber(s)
    case _ => None
  }

  /** The formatting of one field's value; `toFixed` on a value that is not a number throws. */
  function FormatCell(kind: FieldKind, value: JsValue, fmt: Formatters): (r: Result<JsValue, string>)
    ensures r.Err? <==> BadRatio(kind, value)
    ensures kind == Plain ==> r == Ok(value)
    ensures kind == Percent ==> r.Ok? && r.value.Text? && EndsWith(r.value.s, "%")
  {
    match kind
    case Percent =>
      var n := ToNumber(value, fmt);
      Ok(Text((if n.Some? then fmt.fixed2(n.value * 100.0) else "NaN") + "%"))
    case Ratio =>
      if value.Num? then Ok(Text(fmt.fixed2(value.n))) else Err("TypeError: toFixed is not a function")
    case Date => Ok(Text(fmt.localeDate(value)))
    case Plain => Ok(value)
  }

  predicate BadRatio(kind: FieldKind, value: JsValue) {
    kind == Ratio && !value.Num?
  }

  /** A row object: its keys in insertion order, each with its value. */
  type Row = seq<(string, JsValue)>

  function Keys(row: Row): (keys: seq<string>)
    ensures |keys| == |row| && forall i :: 0 <= i < |row| ==> keys[i] == row[i].0
  {
    if row == [] then [] else [row[0].0] + Keys(row[1..])
  }

  /** `row[key]`. */
  function Lookup(row: Row, key: string): (v: JsValue)
    ensures key !in Keys(row) ==> v == Undefined
  {
    if row == [] then Undefined else if row[0].0 == key then row[0].1 else Lookup(row[1..], key)
  }

  /** `row[key] = value`: an existing key keeps its place, a new key goes last. */
  function Put(row: Row, key: string, value: JsValue): (r: Row)
    ensures Keys(r) == Keys(row) + (if key in Keys(row) then [] else [key])
    ensures Lookup(r, key) == value
    ensures forall k :: k != key ==> Lookup(r, k) == Lookup(row, k)
  {
    if row == [] then [(key, value)]
    else if row[0].0 == key then [(key, value)] + row[1..]
    else
      assert Keys(row) == [row[0].0] + Keys(row[1..]);
      [row[0]] + Put(row[1..], key, value)
  }

  /** The row `handleDefaultExport` builds for one result: each selected field the result
      has, formatted and stored under its title; a failing `toFixed` aborts the export. */
  function RowOf(result: JsObject, selected: seq<string>, layout: Layout, fmt: Formatters): Result<Row, string> {
    if selected == [] then Ok([])
    else
      var prev := RowOf(result, selected[..|selected| - 1], layout, fmt);
      var field := selected[|selected| - 1];
      if prev.Err? || field !in result then prev
      else
        var cell := FormatCell(layout.kindOf(field), result[field], fmt);
        if cell.Err? then Err(cell.error) else Ok(Put(prev.value, layout.titleOf(field), cell.value))
  }

  /** The titles of the selected fields the result has, in selection order. */
  function PresentLabels(result: JsObject, selected: seq<string>, layout: Layout): seq<string> {
    if selected == [] then []
    else
      var field := selected[|selected| - 1];
      PresentLabels(result, selected[..|selected| - 1], layout) + (if field in result then [layout.titleOf(field)] else [])
  }

  /** A row's columns are the titles of the selected fields the result has, each once, in
      the order of their first selection. */
  lemma {:induction false} RowColumns(result: JsObject, selected: seq<string>, layout: Layout, fmt: Formatters)
    requires RowOf(result, selected, layout, fmt).Ok?
    ensures Keys(RowOf(result, selected, layout, fmt).value) == Dedup(PresentLabels(result, selected, layout))
  {
    if selected != [] {
      var init, field := selected[..|selected| - 1], selected[|selected| - 1];
      var prev := RowOf(result, init, layout, fmt);
      RowColumns(result, init, layout, fmt);
      var labels := PresentLabels(result, init, layout);
      if field in result {
        var cell := FormatCell(layout.kindOf(field), result[field], fmt);
        assert RowOf(result, selected, layout, fmt) == Ok(Put(prev.value, layout.titleOf(field), cell.value));
        assert PresentLabels(result, selected, layout) == labels + [layout.titleOf(field)];
        ColumnsStep(prev.value, labels, layout.titleOf(field), cell.value);
      } else {
        assert RowOf(result, selected, layout, fmt) == prev;
        assert PresentLabels(result, selected, layout) == labels;
      }
    }
  }

  /** Storing one more title extends the columns as de-duplication extends the titles. */
  lemma ColumnsStep(row: Row, labels: seq<string>, k: string, v: JsValue)
    requires Keys(row) == Dedup(labels)
    ensures Keys(Put(row, k, v)) == Dedup(labels + [k])
  {
    assert (labels + [k])[..|labels|] == labels;
  }

  /** A column holds the formatted value of the last selected field with that title. */
  lemma {:induction false} RowCell(result: JsObject, selected: seq<string>, layout: Layout, fmt: Formatters, i: int)
    requires RowOf(result, selected, layout, fmt).Ok?
    requires 0 <= i < |selected| && selected[i] in result
    requires forall j :: i < j < |selected| && selected[j] in result ==> layout.titleOf(selected[j]) != layout.titleOf(selected[i])
    ensures FormatCell(layout.kindOf(selected[i]), result[selected[i]], fmt).Ok?
    ensures Lookup(RowOf(result, selected, layout, fmt).value, layout.titleOf(selected[i])) == FormatCell(layout.kindOf(selected[i]), result[selected[i]], fmt).value
  {
    var init, field := selected[..|selected| - 1], selected[|selected| - 1];
    if i < |selected| - 1 {
      assert init[i] == selected[i];
      RowCell(result, init, layout, fmt, i);
    }
  }

  /** The row fails exactly when a selected ratio field the result has is not a number. */
  lemma {:induction false} RowFails(result: JsObject, selected: seq<string>, layout: Layout, fmt: Formatters)
    ensures RowOf(result, selected, layout, fmt).Err? <==>
      exists i :: 0 <= i < |selected| && selected[i] in result && BadRatio(layout.kindOf(selected[i]), result[selected[i]])
  {
    if selected != [] {
      var init, field := selected[..|selected| - 1], selected[|selected| - 1];
      var prev := RowOf(result, init, layout, fmt);
      RowFails(result, init, layout, fmt);
      assert forall i :: 0 <= i < |init| ==> init[i] == selected[i];
      var last := |selected| - 1;
      if prev.Err? {
        assert RowOf(result, selected, layout, fmt) == prev;
        var i :| 0 <= i < |init| && init[i] in result && BadRatio(layout.kindOf(init[i]), result[init[i]]);
        assert selected[i] == init[i];
      } else if field !in result {
        assert RowOf(result, selected, layout, fmt) == prev;
        assert selected[last] !in result;
      } else {
        var cell := FormatCell(layout.kindOf(field), result[field], fmt);
        assert RowOf(result, selected, layout, fmt).Err? <==> cell.Err?;
        assert cell.Err? <==> BadRatio(layout.kindOf(selected[last]), result[selected[last]]);
      }
    }
  }

  /** `options.selectedFields.forEach(...)` filling one row. */
  method BuildRow(result: JsObject, selected: seq<string>, layout: Layout, fmt: Formatters) returns (r: Result<Row, string>)
    ensures r == RowOf(result, selected, layout, fmt)
  {
    var row: Row := [];
    var i := 0;
    while i < |selected|
      invariant 0 <= i <= |selected|
      invariant RowOf(result, selected[..i], layout, fmt) == Ok(row)
    {
      var field := selected[i];
      assert selected[..i + 1][..i] == selected[..i];
      if field in result {
        var cell := FormatCell(layout.kindOf(field), result[field], fmt);
        if cell.Err? {
          assert RowOf(result, selected[..i + 1], layout, fmt) == Err(cell.error);
          RowErrorPersists(result, selected, i + 1, layout, fmt);
          return Err(cell.error);
        }
        row := Put(row, layout.titleOf(field), cell.value);
      }
      i := i + 1;
    }
    assert selected[..i] == selected;
    return Ok(row);
  }

  /** Once a prefix of the selection fails, the whole selection fails with that error. */
  lemma {:induction false} RowErrorPersists(result: JsObject, selected: seq<string>, n: int, layout: Layout, fmt: Formatters)
    requires 0 <= n <= |selected| && RowOf(result, selected[..n], layout, fmt).Err?
    ensures RowOf(result, selected, layout, fmt) == RowOf(result, selected[..n], layout, fmt)
    decreases |selected| - n
  {
    if n < |selected| {
      assert selected[..n + 1][..n] == selected[..n];
      RowErrorPersists(result, selected, n + 1, layout, fmt);
    } else {
      assert selected[..n] == selected;
    }
  }

  /** Each item mapped through `f`, or the first failure, scanning from the front. */
  function MapAll<A, B>(xs: seq<A>, f: A -> Result<B, string>): (r: Result<seq<B>, string>)
    ensures r.Ok? ==> (|r.value| == |xs| && forall i :: 0 <= i < |xs| ==> f(xs[i]) == Ok(r.value[i]))
    ensures r.Err? ==> exists i :: 0 <= i < |xs| && f(xs[i]).Err?
  {
    if xs == [] then Ok([])
    else
      var prev := MapAll(xs[..|xs| - 1], f);
      var y := f(xs[|xs| - 1]);
      if prev.Err? then
        var i :| 0 <= i < |xs| - 1 && f(xs[..|xs| - 1][i]).Err?;
        assert xs[..|xs| - 1][i] == xs[i];
        prev
      else if y.Err? then Err(y.error)
      else
        assert forall i :: 0 <= i < |xs| - 1 ==> xs[..|xs| - 1][i] == xs[i];
        Ok(prev.value + [y.value])
  }

  /** One more item extends the mapped prefix, or keeps its first failure. */
  lemma MapAllStep<A, B>(xs: seq<A>, i: int, f: A -> Result<B, string>)
    requires 0 <= i < |xs|
    ensures var prev := MapAll(xs[..i], f);
      MapAll(xs[..i + 1], f) ==
        if prev.Err? then prev else if f(xs[i]).Err? then Err(f(xs[i]).error) else Ok(prev.value + [f(xs[i]).value])
  {
    assert xs[..i + 1][..i] == xs[..i];
    assert xs[..i + 1][i] == xs[i];
  }

  function RowFn(selected: seq<string>, layout: Layout, fmt: Formatters): JsObject -> Result<Row, string> {
    o => RowOf(o, selected, layout, fmt)
  }

  /** `results.map(...)`: every row, or the first failure. */
  function RowsOf(results: seq<JsObject>, selected: seq<string>, layout: Layout, fmt: Formatters): (r: Result<seq<Row>, string>)
    ensures r.Ok? ==> (|r.value| == |results| &&
      forall i :: 0 <= i < |results| ==> RowOf(results[i], selected, layout, fmt) == Ok(r.value[i]))
    ensures r.Err? ==> exists i :: 0 <= i < |results| && RowOf(results[i], selected, layout, fmt).Err?
  {
    var r := MapAll(results, RowFn(selected, layout, fmt));
    assert forall i :: 0 <= i < |results| ==> RowFn(selected, layout, fmt)(results[i]) == RowOf(results[i], selected, layout, fmt);
    r
  }

  /** `results.map(...)` as the component runs it, one `BuildRow` per result. */
  method BuildRows(results: seq<JsObject>, selected: seq<string>, layout: Layout, fmt: Formatters) returns (r: Result<seq<Row>, string>)
    ensures r == RowsOf(results, selected, layout, fmt)
  {
    var rows: seq<Row> := [];
    var i := 0;
    while i < |results|
      invariant 0 <= i <= |results|
      invariant RowsOf(results[..i], selected, layout, fmt) == Ok(rows)
    {
      MapAllStep(results, i, RowFn(selected, layout, fmt));
      var row := BuildRow(results[i], selected, layout, fmt);
      if row.Err? {
        RowsErrorPersists(results, i + 1, selected, layout, fmt);
        return Err(row.error);
      }
      rows := rows + [row.value];
      i := i + 1;
    }
    assert results[..i] == results;
    return Ok(rows);
  }

  /** Once a prefix of the results fails, the whole export fails with that error. */
  lemma {:induction false} RowsErrorPersists(results: seq<JsObject>, n: int, selected: seq<string>, layout: Layout, fmt: Formatters)
    requires 0 <= n <= |results| && RowsOf(results[..n], selected, layout, fmt).Err?
    ensures RowsOf(results, selected, layout, fmt) == RowsOf(results[..n], selected, layout, fmt)
    decreases |results| - n
  {
    if n < |results| {
      MapAllStep(results, n, RowFn(selected, layout, fmt));
      RowsErrorPersists(results, n + 1, selected, layout, fmt);
    } else {
      assert results[..n] == results;
    }
  }

  // ---------------------------------------------------------------- CSV

  /** `${value || ''}`: falsy cells are empty. */
  function CellText(v: JsValue, fmt: Formatters): (s: string)
    ensures !Truthy(v) ==> s == ""
    ensures v.Text? ==> s == v.s
  {
    if !Truthy(v) then ""
    else
      match v
      case Text(s) => s
      case Num(n) => fmt.numberText(n)
      case Bool(_) => "true"
      case _ => fmt.otherText(v)
  }

  /** Double quotes around the cell text, with no escaping of quotes inside it. */
  function Quote(s: string): string {
    "\"" + s + "\""
  }

  function QuotedCells(row: Row, headers: seq<string>, fmt: Formatters): (cells: seq<string>)
    ensures |cells| == |headers|
    ensures forall j :: 0 <= j < |headers| ==> cells[j] == Quote(CellText(Lookup(row, headers[j]), fmt))
  {
    seq(|headers|, j requires 0 <= j < |headers| => Quote(CellText(Lookup(row, headers[j]), fmt)))
  }

  function RowLine(row: Row, headers: seq<string>, fmt: Formatters): string {
    Join(QuotedCells(row, headers, fmt), ",")
  }

  function Lines(data: seq<Row>, headers: seq<string>, fmt: Formatters): (lines: seq<string>)
    ensures |lines| == |data| && forall i :: 0 <= i < |data| ==> lines[i] == RowLine(data[i], headers, fmt)
  {
    seq(|data|, i requires 0 <= i < |data| => RowLine(data[i], headers, fmt))
  }

  const Bom := "﻿"

  /** The text `downloadCSV` writes: nothing for no rows; otherwise a byte-order mark, the
      first row's keys as header, then one line per row, joined by newlines. */
  function CsvContent(data: seq<Row>, fmt: Formatters): (r: Option<string>)
    ensures r.None? <==> data == []
  {
    if data == [] then None
    else
      var headers := Keys(data[0]);
      Some(Bom + Join([Join(headers, ",")] + Lines(data, headers, fmt), "\n"))
  }

  /** A joined string holds a character only if a piece or the separator holds it. */
  lemma {:induction false} JoinAvoids(parts: seq<string>, sep: string, c: char)
    requires c !in sep && forall k :: 0 <= k < |parts| ==> c !in parts[k]
    ensures c !in Join(parts, sep)
  {
    if |parts| > 1 {
      JoinAvoids(parts[1..], sep, c);
    }
  }

  predicate NoNewline(s: string) { '\n' !in s }

  /** When neither a key nor a cell holds a newline, the file after its byte-order mark
      splits back into the header line and one line per row. */
  lemma CsvLayout(data: seq<Row>, fmt: Formatters)
    requires data != []
    requires forall h :: h in Keys(data[0]) ==> NoNewline(h)
    requires forall i, h :: 0 <= i < |data| && h in Keys(data[0]) ==> NoNewline(CellText(Lookup(data[i], h), fmt))
    ensures CsvContent(data, fmt).Some?
    ensures var text := CsvContent(data, fmt).value;
      text[..1] == Bom &&
      Split(text[1..], '\n') == [Join(Keys(data[0]), ",")] + Lines(data, Keys(data[0]), fmt)
  {
    var headers := Keys(data[0]);
    var lines := [Join(headers, ",")] + Lines(data, headers, fmt);
    LinesClean(data, headers, fmt);
    forall k | 0 <= k < |lines| ensures '\n' !in lines[k] {
      if k > 0 { assert lines[k] == Lines(data, headers, fmt)[k - 1]; }
    }
    SplitJoin(lines, '\n');
    var text := Bom + Join(lines, "\n");
    assert text[1..] == Join(lines, "\n");
  }

  /** Neither the header line nor a row line holds a newline when no key and no cell does. */
  lemma LinesClean(data: seq<Row>, headers: seq<string>, fmt: Formatters)
    requires forall h :: h in headers ==> NoNewline(h)
    requires forall i, h :: 0 <= i < |data| && h in headers ==> NoNewline(CellText(Lookup(data[i], h), fmt))
    ensures '\n' !in Join(headers, ",")
    ensures forall k :: 0 <= k < |Lines(data, headers, fmt)| ==> '\n' !in Lines(data, headers, fmt)[k]
  {
    var body := Lines(data, headers, fmt);
    forall k | 0 <= k < |headers| ensures '\n' !in headers[k] {
      assert headers[k] in headers;
    }
    JoinAvoids(headers, ",", '\n');
    forall k | 0 <= k < |body| ensures '\n' !in body[k] {
      LineAvoidsNewline(data[k], headers, fmt);
    }
  }

  /** A row line holds a newline only if one of its cells does. */
  lemma LineAvoidsNewline(row: Row, headers: seq<string>, fmt: Formatters)
    requires forall h :: h in headers ==> NoNewline(CellText(Lookup(row, h), fmt))
    ensures '\n' !in RowLine(row, headers, fmt)
  {
    var cells := QuotedCells(row, headers, fmt);
    forall j | 0 <= j < |cells| ensures '\n' !in cells[j] {
      assert headers[j] in headers;
      var t := CellText(Lookup(row, headers[j]), fmt);
      assert cells[j] == "\"" + t + "\"";
      assert forall c :: c in cells[j] ==> c == '"' || c in t;
    }
    JoinAvoids(cells, ",", '\n');
  }

  /** A row missing a header column shows an empty quoted cell there. */
  lemma MissingColumnIsEmpty(row: Row, headers: seq<string>, fmt: Formatters, j: int)
    requires 0 <= j < |headers| && headers[j] !in Keys(row)
    ensures QuotedCells(row, headers, fmt)[j] == "\"\""
  {
  }

  /** An embedded quote is written as it is, so a cell `a"b` becomes `"a"b"`. */
  lemma QuotesNotEscaped()
    ensures Quote("a\"b") == "\"a\"b\""
  {
  }

  // ---------------------------------------------------------------- dispatch

  datatype Output =
    | NoFile
    | CsvFile(content: string)
    | JsonFile(results: seq<Row>, trades: seq<JsValue>)

  /** `handleDefaultExport`: build the rows, then write CSV or JSON; other formats write nothing. */
  function DefaultExport(format: Format, options: ExportOptions, results: seq<JsObject>, trades: seq<JsValue>,
                         fmt: Formatters): (r: Result<Output, string>)
    ensures r.Err? <==> RowsOf(results, options.selectedFields, ComponentLayout(), fmt).Err?
    ensures r.Ok? && r.value != NoFile ==> format == Csv || format == Json
    ensures r.Ok? && format == Csv ==> (r.value == NoFile <==> results == [])
    ensures r.Ok? && format == Json ==> (r.value.JsonFile? &&
      r.value.results == RowsOf(results, options.selectedFields, ComponentLayout(), fmt).value &&
      r.value.trades == (if options.includeTrades then trades else []))
  {
    var rows := RowsOf(results, options.selectedFields, ComponentLayout(), fmt);
    if rows.Err? then Err(rows.error)
    else if format == Csv then
      var csv := CsvContent(rows.value, fmt);
      Ok(if csv.Some? then CsvFile(csv.value) else NoFile)
    else if format == Json then
      Ok(JsonFile(rows.value, if options.includeTrades then trades else []))
    else Ok(NoFile)
  }

  datatype QuickOutcome =
    | Delegated(format: Format, options: ExportOptions)
    | Exported(output: Output)
    | Failed(error: string)

  /** `handleQuickExport`: hand the default options to `onExport` when the page gives one,
      otherwise run the default export; a thrown error is reported as a failure. */
  function QuickExport(format: Format, hasHandler: bool, results: seq<JsObject>, trades: seq<JsValue>,
                       fmt: Formatters): (r: QuickOutcome)
    requires format != Json
    ensures hasHandler ==> r == Delegated(format, QuickExportOptions(format))
    ensures !hasHandler ==> !r.Delegated? && (r.Failed? <==> RowsOf(results, AllKeys(), ComponentLayout(), fmt).Err?)
    ensures r.Exported? ==> r.output == NoFile || r.output.CsvFile?
  {
    var options := QuickExportOptions(format);
    if hasHandler then Delegated(format, options)
    else
      var out := DefaultExport(format, options, results, trades, fmt);
      if out.Err? then Failed(out.error) else Exported(out.value)
  }
}
