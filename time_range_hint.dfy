/** Data-quality grading and overlap analysis of the per-symbol data ranges shown
    beside the backtest date picker (frontend/src/components/TimeRangeHint/index.tsx).
    Dates are milliseconds since the epoch; a missing or empty date string is `None`. */
module TimeRangeHint {
  import opened Wrappers
  import opened Seqs

  const DayMs: int := 86400000

  /** What the data-range endpoint reports for one symbol. */
  datatype DataRange = DataRange(
    available: bool,
    startDate: Option<int>,
    endDate: Option<int>,
    totalRecords: Option<int>,
    autoFetchAvailable: bool,
    qualityScore: string)

  datatype Quality = High | Medium | Low | AutoFetch

  /** The quality message, by kind; the count is the one shown inside the text. */
  datatype QualityMessage = WillAutoFetch | Ample | Moderate | Few(count: int) | Insufficient(count: int)

  /** `shortSpan` records the "time span is short" suffix of the message. */
  datatype Assessment = Assessment(quality: Quality, recommended: bool, message: QualityMessage, shortSpan: bool)

  /** `dayjs(later).diff(earlier, 'day')`: whole days, truncated toward zero. */
  function DayDiff(later: int, earlier: int): int {
    var d := later - earlier;
    if d >= 0 then d / DayMs else -((-d) / DayMs)
  }

  /** Fewer than `days` whole days (days ≥ 1) means less than that many days of time. */
  lemma DayDiffBelow(later: int, earlier: int, days: int)
    requires days >= 1
    ensures DayDiff(later, earlier) < days <==> later - earlier < days * DayMs
  {
    var d := later - earlier;
    if d >= 0 {
      if d < days * DayMs {
        assert d / DayMs < days by { DivBelow(d, days); }
      } else {
        assert d / DayMs >= days by { DivAtLeast(d, days); }
      }
    } else {
      assert (-d) / DayMs >= 0;
    }
  }

  lemma DivBelow(d: int, days: int)
    requires 0 <= d < days * DayMs
    ensures d / DayMs < days
  {
    var q := d / DayMs;
    assert q * DayMs <= d;
  }

  lemma DivAtLeast(d: int, days: int)
    requires days >= 1 && d >= days * DayMs
    ensures d / DayMs >= days
  {
    var q := d / DayMs;
    assert d == q * DayMs + d % DayMs;
    assert d % DayMs < DayMs;
  }

  /** `range.total_records || 0`. */
  function Records(r: DataRange): int {
    match r.totalRecords
    case Some(n) => n
    case None => 0
  }

  predicate IsAutoFetch(r: DataRange) {
    r.autoFetchAvailable || r.qualityScore == "auto_fetch"
  }

  /** Both dates are present and lie less than 30 days apart. */
  predicate ShortSpan(r: DataRange) {
    r.startDate.Some? && r.endDate.Some? && DayDiff(r.endDate.value, r.startDate.value) < 30
  }

  /** `assessDataQuality`: auto-fetch wins outright; otherwise the record count picks the
      tier and a span under 30 days withdraws the recommendation. */
  function AssessDataQuality(r: DataRange): (a: Assessment)
    ensures IsAutoFetch(r) ==> a == Assessment(AutoFetch, true, WillAutoFetch, false)
    ensures !IsAutoFetch(r) ==> a.quality == (if Records(r) >= 5000 then High else if Records(r) >= 2000 then Medium else Low)
    ensures !IsAutoFetch(r) ==> (a.recommended <==> Records(r) >= 2000 && !ShortSpan(r))
    ensures a.shortSpan <==> !IsAutoFetch(r) && ShortSpan(r)
  {
    if IsAutoFetch(r) then Assessment(AutoFetch, true, WillAutoFetch, false)
    else
      var n := Records(r);
      var tier :=
        if n >= 5000 then Assessment(High, true, Ample, false)
        else if n >= 2000 then Assessment(Medium, true, Moderate, false)
        else if n >= 1000 then Assessment(Low, false, Few(n), false)
        else Assessment(Low, false, Insufficient(n), false);
      if ShortSpan(r) then tier.(recommended := false, shortSpan := true) else tier
  }

  /** Outside auto-fetch a recommended range has at least 2000 records and spans at
      least 30 days. */
  lemma RecommendedNeedsData(r: DataRange)
    requires AssessDataQuality(r).recommended && AssessDataQuality(r).quality != AutoFetch
    ensures Records(r) >= 2000
    ensures r.startDate.Some? && r.endDate.Some? ==> r.endDate.value - r.startDate.value >= 30 * DayMs
  {
    if r.startDate.Some? && r.endDate.Some? {
      DayDiffBelow(r.endDate.value, r.startDate.value, 30);
    }
  }

  // ---------------------------------------------------------------- overlap analysis

  datatype Span = Span(start: int, end: int)

  datatype Suggestion =
    | AutoFetchAtRun
    | ChooseSymbolsWithData
    | ChooseOverlapping
    | ChooseWithin(span: Span)
    | ChooseAtLeast30Days
    | AutoAdjust(span: Span)

  datatype Warning = NoData | NoOverlap | RangeDisjoint | RangeShort

  datatype Analysis = Analysis(hasValidData: bool, overlappingRange: Option<Span>, suggestions: seq<Suggestion>, warnings: seq<Warning>)

  /** `range.available && range.start_date && range.end_date`. */
  predicate Usable(r: DataRange) {
    r.available && r.startDate.Some? && r.endDate.Some?
  }

  /** The start dates, in order (0 stands for a missing one, which a usable range never has). */
  function Starts(rs: seq<DataRange>): (r: seq<int>)
    ensures |r| == |rs|
    ensures forall i :: 0 <= i < |rs| && rs[i].startDate.Some? ==> r[i] == rs[i].startDate.value
  {
    if rs == [] then [] else [rs[0].startDate.GetOr(0)] + Starts(rs[1..])
  }

  function Ends(rs: seq<DataRange>): (r: seq<int>)
    ensures |r| == |rs|
    ensures forall i :: 0 <= i < |rs| && rs[i].endDate.Some? ==> r[i] == rs[i].endDate.value
  {
    if rs == [] then [] else [rs[0].endDate.GetOr(0)] + Ends(rs[1..])
  }

  /** `xs.reduce((latest, x) => x.isAfter(latest) ? x : latest)`. */
  function Latest(xs: seq<int>): (m: int)
    requires |xs| >= 1
    ensures m in xs && forall i :: 0 <= i < |xs| ==> xs[i] <= m
  {
    if |xs| == 1 then xs[0]
    else
      var m := Latest(xs[..|xs| - 1]);
      assert forall i :: 0 <= i < |xs| - 1 ==> xs[..|xs| - 1][i] == xs[i];
      if xs[|xs| - 1] > m then xs[|xs| - 1] else m
  }

  /** `xs.reduce((earliest, x) => x.isBefore(earliest) ? x : earliest)`. */
  function Earliest(xs: seq<int>): (m: int)
    requires |xs| >= 1
    ensures m in xs && forall i :: 0 <= i < |xs| ==> m <= xs[i]
  {
    if |xs| == 1 then xs[0]
    else
      var m := Earliest(xs[..|xs| - 1]);
      assert forall i :: 0 <= i < |xs| - 1 ==> xs[..|xs| - 1][i] == xs[i];
      if xs[|xs| - 1] < m then xs[|xs| - 1] else m
  }

  /** What the user's own date range adds once the data ranges overlap on `o`. */
  function UserRangeAdvice(o: Span, user: Option<Span>): (seq<Suggestion>, seq<Warning>) {
    match user
    case None => ([ChooseWithin(o)], [])
    case Some(u) =>
      if u.end < o.start || u.start > o.end then ([ChooseWithin(o)], [RangeDisjoint])
      else
        var actual := Intersection(o, u);
        var short := DayDiff(actual.end, actual.start) < 30;
        ((if short then [ChooseAtLeast30Days] else []) + (if u.start < o.start || u.end > o.end then [AutoAdjust(actual)] else []),
         if short then [RangeShort] else [])
  }

  /** The later start and the earlier end. */
  function Intersection(o: Span, u: Span): Span {
    Span(if u.start > o.start then u.start else o.start, if u.end < o.end then u.end else o.end)
  }

  /** `analyzeDataRanges` over the values of the per-symbol record, in its order. */
  function AnalyzeDataRanges(ranges: seq<DataRange>, user: Option<Span>): (a: Analysis)
    ensures a.overlappingRange.Some? <==> a.hasValidData && Filter(ranges, Usable) != []
  {
    var usable := Filter(ranges, Usable);
    if usable == [] then
      if Filter(ranges, IsAutoFetch) != [] then Analysis(true, None, [AutoFetchAtRun], [])
      else Analysis(false, None, [ChooseSymbolsWithData], [NoData])
    else
      var o := Span(Latest(Starts(usable)), Earliest(Ends(usable)));
      if o.start > o.end then Analysis(false, None, [ChooseOverlapping], [NoOverlap])
      else
        var (suggestions, warnings) := UserRangeAdvice(o, user);
        Analysis(true, Some(o), suggestions, warnings)
  }

  /** With no usable range the data is valid exactly when some symbol will be fetched
      automatically, and there is no overlap to show. */
  lemma NoUsableRange(ranges: seq<DataRange>, user: Option<Span>)
    requires forall i :: 0 <= i < |ranges| ==> !Usable(ranges[i])
    ensures AnalyzeDataRanges(ranges, user).overlappingRange == None
    ensures AnalyzeDataRanges(ranges, user).hasValidData <==> exists i :: 0 <= i < |ranges| && IsAutoFetch(ranges[i])
  {
    if exists i :: 0 <= i < |ranges| && IsAutoFetch(ranges[i]) {
      var i :| 0 <= i < |ranges| && IsAutoFetch(ranges[i]);
      assert ranges[i] in Filter(ranges, IsAutoFetch);
    }
    if Filter(ranges, IsAutoFetch) != [] {
      var r := Filter(ranges, IsAutoFetch)[0];
      assert IsAutoFetch(r) && r in ranges;
    }
  }

  /** The latest start over the usable ranges, as the reduce computes it. */
  function OverlapStart(ranges: seq<DataRange>): int
    requires Filter(ranges, Usable) != []
  {
    Latest(Starts(Filter(ranges, Usable)))
  }

  function OverlapEnd(ranges: seq<DataRange>): int
    requires Filter(ranges, Usable) != []
  {
    Earliest(Ends(Filter(ranges, Usable)))
  }

  /** The overlap starts at the start of some usable range, and no usable range starts later. */
  lemma OverlapStartIsLatest(ranges: seq<DataRange>)
    requires Filter(ranges, Usable) != []
    ensures forall i :: 0 <= i < |ranges| && Usable(ranges[i]) ==> ranges[i].startDate.value <= OverlapStart(ranges)
    ensures exists i :: 0 <= i < |ranges| && Usable(ranges[i]) && ranges[i].startDate.value == OverlapStart(ranges)
  {
    var usable := Filter(ranges, Usable);
    var st := Starts(usable);
    forall i | 0 <= i < |ranges| && Usable(ranges[i])
      ensures ranges[i].startDate.value <= OverlapStart(ranges)
    {
      var k :| 0 <= k < |usable| && usable[k] == ranges[i];
      assert st[k] == ranges[i].startDate.value;
    }
    var j :| 0 <= j < |st| && st[j] == OverlapStart(ranges);
    assert Usable(usable[j]) && usable[j] in ranges;
    var i :| 0 <= i < |ranges| && ranges[i] == usable[j];
    assert ranges[i].startDate.value == OverlapStart(ranges);
  }

  /** The overlap ends at the end of some usable range, and no usable range ends earlier. */
  lemma OverlapEndIsEarliest(ranges: seq<DataRange>)
    requires Filter(ranges, Usable) != []
    ensures forall i :: 0 <= i < |ranges| && Usable(ranges[i]) ==> OverlapEnd(ranges) <= ranges[i].endDate.value
    ensures exists i :: 0 <= i < |ranges| && Usable(ranges[i]) && ranges[i].endDate.value == OverlapEnd(ranges)
  {
    var usable := Filter(ranges, Usable);
    var en := Ends(usable);
    forall i | 0 <= i < |ranges| && Usable(ranges[i])
      ensures OverlapEnd(ranges) <= ranges[i].endDate.value
    {
      var k :| 0 <= k < |usable| && usable[k] == ranges[i];
      assert en[k] == ranges[i].endDate.value;
    }
    var j :| 0 <= j < |en| && en[j] == OverlapEnd(ranges);
    assert Usable(usable[j]) && usable[j] in ranges;
    var i :| 0 <= i < |ranges| && ranges[i] == usable[j];
    assert ranges[i].endDate.value == OverlapEnd(ranges);
  }

  /** With some usable range the analysis is decided by the latest start and the earliest end. */
  lemma AnalysisWithUsable(ranges: seq<DataRange>, user: Option<Span>)
    requires Filter(ranges, Usable) != []
    ensures var o := Span(OverlapStart(ranges), OverlapEnd(ranges));
      AnalyzeDataRanges(ranges, user) ==
        if o.start > o.end then Analysis(false, None, [ChooseOverlapping], [NoOverlap])
        else Analysis(true, Some(o), UserRangeAdvice(o, user).0, UserRangeAdvice(o, user).1)
  {
  }

  /** With some usable range the data is valid exactly when every usable range starts no
      later than every usable range ends; the overlap shown is then [latest start,
      earliest end], and otherwise the only warning is that the ranges do not overlap. */
  lemma OverlapAnalysis(ranges: seq<DataRange>, user: Option<Span>)
    requires Filter(ranges, Usable) != []
    ensures AnalyzeDataRanges(ranges, user).hasValidData <==>
      forall i, j :: 0 <= i < |ranges| && 0 <= j < |ranges| && Usable(ranges[i]) && Usable(ranges[j]) ==>
        ranges[i].startDate.value <= ranges[j].endDate.value
    ensures AnalyzeDataRanges(ranges, user).hasValidData ==>
      AnalyzeDataRanges(ranges, user).overlappingRange == Some(Span(OverlapStart(ranges), OverlapEnd(ranges)))
    ensures !AnalyzeDataRanges(ranges, user).hasValidData ==>
      AnalyzeDataRanges(ranges, user).warnings == [NoOverlap] && AnalyzeDataRanges(ranges, user).overlappingRange == None
  {
    AnalysisWithUsable(ranges, user);
    OverlapStartIsLatest(ranges);
    OverlapEndIsEarliest(ranges);
    if OverlapStart(ranges) > OverlapEnd(ranges) {
      var i :| 0 <= i < |ranges| && Usable(ranges[i]) && ranges[i].startDate.value == OverlapStart(ranges);
      var j :| 0 <= j < |ranges| && Usable(ranges[j]) && ranges[j].endDate.value == OverlapEnd(ranges);
      assert ranges[i].startDate.value > ranges[j].endDate.value;
    }
  }

  /** A user range that misses the overlap is reported, not clamped. */
  lemma DisjointUserRange(o: Span, u: Span)
    requires u.end < o.start || u.start > o.end
    ensures UserRangeAdvice(o, Some(u)) == ([ChooseWithin(o)], [RangeDisjoint])
  {
  }

  /** Otherwise the intersection is the part of the user's range inside the overlap; a
      short-range warning comes iff it spans under 30 days, and an auto-adjust suggestion
      iff the user's range reaches outside the overlap. */
  lemma OverlappingUserRange(o: Span, u: Span)
    requires o.start <= o.end && u.start <= u.end
    requires !(u.end < o.start || u.start > o.end)
    ensures var actual := Intersection(o, u);
      o.start <= actual.start <= actual.end <= o.end && u.start <= actual.start && actual.end <= u.end
    ensures var (suggestions, warnings) := UserRangeAdvice(o, Some(u));
      (RangeShort in warnings <==> Intersection(o, u).end - Intersection(o, u).start < 30 * DayMs)
      && (AutoAdjust(Intersection(o, u)) in suggestions <==> u.start < o.start || u.end > o.end)
      && RangeDisjoint !in warnings
  {
    var actual := Intersection(o, u);
    DayDiffBelow(actual.end, actual.start, 30);
  }
}
