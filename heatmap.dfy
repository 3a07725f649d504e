/** The monthly returns heatmap (frontend/src/components/Charts/MonthlyReturnsHeatmap.tsx):
    the year list, the twelve-column matrices of values, labels and hover texts, and the
    compounded return of each year. Returns are fractions; the chart shows percent.
    Number formatting (`toFixed`) is given as opaque formatters. */
module Heatmap {
  import opened Wrappers
  import opened Strs
  import opened Seqs
  import opened Sorting

  datatype MonthlyReturn = MonthlyReturn(year: nat, month: int, ret: real)

  function YearColumn(data: seq<MonthlyReturn>): (c: seq<nat>)
    ensures |c| == |data| && forall i :: 0 <= i < |data| ==> c[i] == data[i].year
  {
    seq(|data|, i requires 0 <= i < |data| => data[i].year)
  }

  // ---------------------------------------------------------------- years

  /** JavaScript's default `sort()` compares its elements as text. */
  predicate TextLe(a: nat, b: nat) {
    LexLe(DecimalText(a), DecimalText(b))
  }

  predicate NumLe(a: nat, b: nat) {
    a <= b
  }

  lemma TextLeIsPreorder()
    ensures TotalPreorder(TextLe)
  {
    forall a: nat, b: nat ensures TextLe(a, b) || TextLe(b, a) {
      LexLeTotal(DecimalText(a), DecimalText(b));
    }
    forall a: nat, b: nat, c: nat | TextLe(a, b) && TextLe(b, c) ensures TextLe(a, c) {
      LexLeTransitive(DecimalText(a), DecimalText(b), DecimalText(c));
    }
  }

  lemma NumLeIsPreorder()
    ensures TotalPreorder(NumLe)
  {
  }

  /** Sorting the distinct years keeps exactly the years of the data, once each. */
  lemma SortedYears(data: seq<MonthlyReturn>, le: (nat, nat) -> bool)
    requires TotalPreorder(le)
    ensures Distinct(SortBy(Dedup(YearColumn(data)), le))
    ensures forall y :: y in SortBy(Dedup(YearColumn(data)), le) <==> exists i :: 0 <= i < |data| && data[i].year == y
  {
    var d := Dedup(YearColumn(data));
    SortDistinct(d, le);
    var r := SortBy(d, le);
    forall y ensures y in r <==> y in d {
      assert y in r <==> y in multiset(r);
      assert y in d <==> y in multiset(d);
    }
    forall y ensures y in d <==> exists i :: 0 <= i < |data| && data[i].year == y {
      if y in d {
        var i :| 0 <= i < |YearColumn(data)| && YearColumn(data)[i] == y;
        assert data[i].year == y;
      }
      if exists i :: 0 <= i < |data| && data[i].year == y {
        var i :| 0 <= i < |data| && data[i].year == y;
        assert YearColumn(data)[i] == y;
      }
    }
  }

  /** `[...new Set(data.map(d => d.year))].sort()` as written: distinct years in text order. */
  function YearsAsWritten(data: seq<MonthlyReturn>): (r: seq<nat>)
    ensures Distinct(r) && SortedBy(r, TextLe)
    ensures forall y :: y in r <==> exists i :: 0 <= i < |data| && data[i].year == y
  {
    TextLeIsPreorder();
    SortedYears(data, TextLe);
    SortBy(Dedup(YearColumn(data)), TextLe)
  }

  /** The year list the chart means to show: each year once, in ascending order. */
  function Years(data: seq<MonthlyReturn>): (r: seq<nat>)
    ensures forall i, j :: 0 <= i < j < |r| ==> r[i] < r[j]
    ensures forall y :: y in r <==> exists i :: 0 <= i < |data| && data[i].year == y
  {
    NumLeIsPreorder();
    SortedYears(data, NumLe);
    var r := SortBy(Dedup(YearColumn(data)), NumLe);
    assert forall i, j :: 0 <= i < j < |r| ==> r[i] <= r[j] && r[i] != r[j];
    r
  }

  /** "999" sorts after "2024". */
  lemma TextOrderOf999And2024()
    ensures !TextLe(999, 2024)
  {
    assert DecimalText(9) == "9" && DecimalText(99) == "99" && DecimalText(999) == "999";
    assert DecimalText(2) == "2" && DecimalText(20) == "20" && DecimalText(202) == "202" && DecimalText(2024) == "2024";
  }

  /** Text order puts the year 999 after 2024. */
  lemma TextSortMisordersYears()
    ensures YearsAsWritten([MonthlyReturn(999, 1, 0.01), MonthlyReturn(2024, 1, 0.01)]) == [2024, 999]
  {
    var data := [MonthlyReturn(999, 1, 0.01), MonthlyReturn(2024, 1, 0.01)];
    var years: seq<nat> := [999, 2024];
    assert YearColumn(data) == years;
    assert Dedup(years[..1]) == [999];
    assert Dedup(years) == years;
    TextLeIsPreorder();
    TextOrderOf999And2024();
    var one: seq<nat> := [2024];
    assert years[1..] == one;
    assert SortBy(one, TextLe) == one;
    assert Insert(999, one, TextLe) == [2024, 999];
  }

  /** With four-digit years, text order is numeric order, so the list as written is the
      intended one. */
  lemma FourDigitYearsAgree(data: seq<MonthlyReturn>)
    requires forall i :: 0 <= i < |data| ==> 1000 <= data[i].year <= 9999
    ensures YearsAsWritten(data) == Years(data)
  {
    TextLeIsPreorder();
    NumLeIsPreorder();
    var d := Dedup(YearColumn(data));
    forall a, b | a in d && b in d ensures TextLe(a, b) == NumLe(a, b) {
      var i :| 0 <= i < |YearColumn(data)| && YearColumn(data)[i] == a;
      var j :| 0 <= j < |YearColumn(data)| && YearColumn(data)[j] == b;
      FourDigits(a);
      FourDigits(b);
      DecimalOrder(a, b);
    }
    SortCongruent(d, TextLe, NumLe);
  }

  // ---------------------------------------------------------------- cells

  /** `data.find(d => d.year === year && d.month === month)`. */
  function FindMonth(data: seq<MonthlyReturn>, year: nat, month: int): (r: Option<MonthlyReturn>)
    ensures r.None? <==> forall i :: 0 <= i < |data| ==> !(data[i].year == year && data[i].month == month)
    ensures r.Some? ==> exists i :: (0 <= i < |data| && data[i] == r.value && data[i].year == year &&
      data[i].month == month && forall j :: 0 <= j < i ==> !(data[j].year == year && data[j].month == month))
  {
    if data == [] then None
    else if data[0].year == year && data[0].month == month then Some(data[0])
    else
      var r := FindMonth(data[1..], year, month);
      assert forall i :: 1 <= i < |data| ==> data[i] == data[1..][i - 1];
      if r.Some? then
        var i :| 0 <= i < |data[1..]| && data[1..][i] == r.value && data[1..][i].year == year &&
          data[1..][i].month == month && forall j :: 0 <= j < i ==> !(data[1..][j].year == year && data[1..][j].month == month);
        assert data[i + 1] == r.value;
        r
      else r
  }

  /** `monthData ? monthData.return * 100 : null`. */
  function MonthPercent(data: seq<MonthlyReturn>, year: nat, month: int): Option<real> {
    var found := FindMonth(data, year, month);
    if found.Some? then Some(found.value.ret * 100.0) else None
  }

  datatype Formatters = Formatters(fixed1: real -> string, fixed2: real -> string)

  /** `returnValue || 0`. */
  function CellValue(data: seq<MonthlyReturn>, year: nat, month: int): real {
    var v := MonthPercent(data, year, month);
    if v.Some? && v.value != 0.0 then v.value else 0.0
  }

  /** `returnValue ? "<v>%" : ''`. */
  function CellText(data: seq<MonthlyReturn>, year: nat, month: int, fmt: Formatters): string {
    var v := MonthPercent(data, year, month);
    if v.Some? && v.value != 0.0 then fmt.fixed1(v.value) + "%" else ""
  }

  /** The hover text: year, month and the percentage, or "no data" (无数据). */
  function CellHover(data: seq<MonthlyReturn>, year: nat, month: nat, fmt: Formatters): string {
    var v := MonthPercent(data, year, month);
    var head := DecimalText(year) + "年" + DecimalText(month) + "月<br>";
    if v.Some? && v.value != 0.0 then head + "收益率: " + fmt.fixed2(v.value) + "%" else head + "无数据"
  }

  /** A cell shows the first entry for its year and month. */
  lemma CellIsFirstMatch(data: seq<MonthlyReturn>, year: nat, month: int, i: int)
    requires 0 <= i < |data| && data[i].year == year && data[i].month == month
    requires forall j :: 0 <= j < i ==> !(data[j].year == year && data[j].month == month)
    ensures CellValue(data, year, month) == data[i].ret * 100.0
  {
    var found := FindMonth(data, year, month);
    var k :| 0 <= k < |data| && data[k] == found.value && data[k].year == year &&
      data[k].month == month && forall j :: 0 <= j < k ==> !(data[j].year == year && data[j].month == month);
    assert k == i;
  }

  /** A month without an entry, or with a zero return, shows 0 and no label. */
  lemma EmptyCell(data: seq<MonthlyReturn>, year: nat, month: int, fmt: Formatters)
    requires FindMonth(data, year, month).None? || FindMonth(data, year, month).value.ret == 0.0
    ensures CellValue(data, year, month) == 0.0 && CellText(data, year, month, fmt) == ""
  {
  }

  /** The value, label and hover matrices: one row per year, one column per month. */
  method BuildGrid(data: seq<MonthlyReturn>, years: seq<nat>, fmt: Formatters)
    returns (z: seq<seq<real>>, text: seq<seq<string>>, hover: seq<seq<string>>)
    ensures |z| == |years| && |text| == |years| && |hover| == |years|
    ensures forall i :: 0 <= i < |years| ==> |z[i]| == 12 && |text[i]| == 12 && |hover[i]| == 12
    ensures forall i, m :: 0 <= i < |years| && 1 <= m <= 12 ==>
      z[i][m - 1] == CellValue(data, years[i], m) &&
      text[i][m - 1] == CellText(data, years[i], m, fmt) &&
      hover[i][m - 1] == CellHover(data, years[i], m, fmt)
  {
    z, text, hover := [], [], [];
    var i := 0;
    while i < |years|
      invariant 0 <= i <= |years| && |z| == i && |text| == i && |hover| == i
      invariant forall k :: 0 <= k < i ==> |z[k]| == 12 && |text[k]| == 12 && |hover[k]| == 12
      invariant forall k, m :: 0 <= k < i && 1 <= m <= 12 ==>
        z[k][m - 1] == CellValue(data, years[k], m) &&
        text[k][m - 1] == CellText(data, years[k], m, fmt) &&
        hover[k][m - 1] == CellHover(data, years[k], m, fmt)
    {
      var year := years[i];
      var yearData, yearText, yearHover := [], [], [];
      var month := 1;
      while month <= 12
        invariant 1 <= month <= 13 && |yearData| == month - 1 && |yearText| == month - 1 && |yearHover| == month - 1
        invariant forall m :: 1 <= m < month ==>
          yearData[m - 1] == CellValue(data, year, m) &&
          yearText[m - 1] == CellText(data, year, m, fmt) &&
          yearHover[m - 1] == CellHover(data, year, m, fmt)
      {
        yearData := yearData + [CellValue(data, year, month)];
        yearText := yearText + [CellText(data, year, month, fmt)];
        yearHover := yearHover + [CellHover(data, year, month, fmt)];
        month := month + 1;
      }
      z, text, hover := z + [yearData], text + [yearText], hover + [yearHover];
      i := i + 1;
    }
  }

  // ---------------------------------------------------------------- yearly returns

  /** `entries.reduce((acc, d) => acc * (1 + d.return), 1)`. */
  function Growth(entries: seq<MonthlyReturn>): real {
    if entries == [] then 1.0 else Growth(entries[..|entries| - 1]) * (1.0 + entries[|entries| - 1].ret)
  }

  function YearEntries(data: seq<MonthlyReturn>, year: nat): seq<MonthlyReturn> {
    Filter(data, (d: MonthlyReturn) => d.year == year)
  }

  /** The compounded return of a year, in percent. */
  function YearlyReturn(data: seq<MonthlyReturn>, year: nat): real {
    (Growth(YearEntries(data, year)) - 1.0) * 100.0
  }

  /** `yearlyReturns`: one compounded return per listed year. */
  function YearlyReturns(data: seq<MonthlyReturn>, years: seq<nat>): (r: seq<(nat, real)>)
    ensures |r| == |years| && forall i :: 0 <= i < |years| ==> r[i] == (years[i], YearlyReturn(data, years[i]))
  {
    seq(|years|, i requires 0 <= i < |years| => (years[i], YearlyReturn(data, years[i])))
  }

  /** Compounding over two stretches multiplies their growth factors. */
  lemma {:induction false} GrowthConcat(a: seq<MonthlyReturn>, b: seq<MonthlyReturn>)
    ensures Growth(a + b) == Growth(a) * Growth(b)
  {
    if b != [] {
      var b', x := b[..|b| - 1], b[|b| - 1];
      GrowthConcat(a, b');
      assert (a + b)[..|a + b| - 1] == a + b';
      assert Growth(a + b) == Growth(a + b') * (1.0 + x.ret);
      assert Growth(a) * Growth(b) == Growth(a) * (Growth(b') * (1.0 + x.ret));
    } else {
      assert a + b == a;
    }
  }

  /** A loss of less than 100% every month leaves the year above -100%. */
  lemma {:induction false} GrowthPositive(entries: seq<MonthlyReturn>)
    requires forall i :: 0 <= i < |entries| ==> entries[i].ret > -1.0
    ensures Growth(entries) > 0.0
  {
    if entries != [] {
      var init := entries[..|entries| - 1];
      GrowthPositive(init);
      var g, f := Growth(init), 1.0 + entries[|entries| - 1].ret;
      assert Growth(entries) == g * f;
      PositiveProduct(g, f);
    }
  }

  lemma PositiveProduct(g: real, f: real)
    requires g > 0.0 && f > 0.0
    ensures g * f > 0.0
  {
  }

  lemma YearlyAboveTotalLoss(data: seq<MonthlyReturn>, year: nat)
    requires forall i :: 0 <= i < |data| ==> data[i].ret > -1.0
    ensures YearlyReturn(data, year) > -100.0
  {
    var entries := YearEntries(data, year);
    GrowthPositive(entries);
  }

  /** The yearly figure compounds every entry of the year, a repeated month included,
      while the matrix shows only the first entry for that month. */
  lemma RepeatedMonthCountsTwice()
    ensures var data := [MonthlyReturn(2024, 1, 0.1), MonthlyReturn(2024, 1, 0.1)];
      CellValue(data, 2024, 1) == 10.0 && YearlyReturn(data, 2024) == 21.0
  {
    var data := [MonthlyReturn(2024, 1, 0.1), MonthlyReturn(2024, 1, 0.1)];
    var keep := (d: MonthlyReturn) => d.year == 2024;
    FilterAll(data, keep);
    assert YearEntries(data, 2024) == data;
    assert data[..1] == [MonthlyReturn(2024, 1, 0.1)];
    assert data[..1][..0] == [];
    assert Growth(data[..1]) == 1.1;
    assert Growth(data) == 1.1 * 1.1;
    assert FindMonth(data, 2024, 1) == Some(data[0]);
  }
}
