/**
 * The accumulators behind metric aggregation: one pass over the filtered stream, one accumulator for each
 * requested attribute. Numbers are reals, and the spread is the variance instead of its square root.
 */
module MetricAggregate {
  import opened Prelude
  import Paging

  datatype MetricEntry = MetricEntry(time: int, values: map<string, real>)

  datatype MetricValue = MetricValue(max: real, min: real, avg: real, cnt: nat, variance: real)

  // The reference: what the summary of a column is

  function Sum(s: seq<real>): real {
    if s == [] then 0.0 else Sum(s[..|s| - 1]) + s[|s| - 1]
  }

  /** The sum of the squared distances from a centre. */
  function Deviation(s: seq<real>, centre: real): real {
    if s == [] then 0.0
    else Deviation(s[..|s| - 1], centre) + Square(s[|s| - 1] - centre)
  }

  function Square(d: real): real {
    d * d
  }

  /** The summary of a column is all zeros when the column is empty. */
  ghost predicate IsSummary(column: seq<real>, v: MetricValue) {
    && v.cnt == |column|
    && if column == [] then v == MetricValue(0.0, 0.0, 0.0, 0, 0.0)
       else
         && v.max in column
         && v.min in column
         && (forall x :: x in column ==> v.min <= x <= v.max)
         && v.avg * v.cnt as real == Sum(column)
         && v.variance * v.cnt as real == Deviation(column, v.avg)
  }

  // One attribute

  function Larger(a: Option<real>, x: real): real {
    if a.Some? && a.value > x then a.value else x
  }

  function Smaller(a: Option<real>, x: real): real {
    if a.Some? && a.value < x then a.value else x
  }

  /** None stands for the infinities with which the extremes begin. */
  class AttributeAccumulator {
    var currentMax: Option<real>
    var currentMin: Option<real>
    var sum: real
    var avgCounter: nat
    var counter: nat
    var values: seq<real>

    constructor ()
      ensures Holds([])
    {
      currentMax, currentMin, sum, avgCounter, counter, values := None, None, 0.0, 0, 0, [];
    }

    /** The state after the values of `column` have been added. */
    ghost predicate Holds(column: seq<real>)
      reads this
    {
      && values == column && avgCounter == counter == |column| && sum == Sum(column)
      && IsExtreme(column, currentMax, (x: real, y: real) => x >= y)
      && IsExtreme(column, currentMin, (x: real, y: real) => x <= y)
    }

    method Add(value: real, ghost column: seq<real>)
      requires Holds(column)
      modifies this
      ensures Holds(column + [value])
    {
      assert (column + [value])[..|column|] == column;
      currentMax := Some(Larger(currentMax, value));
      currentMin := Some(Smaller(currentMin, value));
      sum := sum + value;
      avgCounter := avgCounter + 1;
      counter := counter + 1;
      values := values + [value];
    }

    method Build(ghost column: seq<real>) returns (v: MetricValue)
      requires Holds(column)
      ensures IsSummary(column, v)
    {
      var maximum := if currentMax.Some? then currentMax.value else 0.0;
      var minimum := if currentMin.Some? then currentMin.value else 0.0;
      var avg := if avgCounter == 0 then 0.0 else sum / avgCounter as real;
      var variance := BuildVariance(column);
      v := MetricValue(maximum, minimum, avg, counter, variance);
    }

    /** The only aggregator that makes its passes at the end. */
    method BuildVariance(ghost column: seq<real>) returns (variance: real)
      requires Holds(column)
      ensures column == [] ==> variance == 0.0
      ensures column != [] ==>
                variance * |column| as real == Deviation(column, Sum(column) / |column| as real)
    {
      if |values| == 0 {
        return 0.0;
      }
      var total := Total(values);
      var sqrSum := SquaredDistances(values, total / |values| as real);
      variance := sqrSum / |values| as real;
    }
  }

  method Total(values: seq<real>) returns (total: real)
    ensures total == Sum(values)
  {
    total := 0.0;
    for i := 0 to |values|
      invariant total == Sum(values[..i])
    {
      assert values[..i + 1][..i] == values[..i];
      total := total + values[i];
    }
    assert values[..|values|] == values;
  }

  method SquaredDistances(values: seq<real>, centre: real) returns (total: real)
    ensures total == Deviation(values, centre)
  {
    total := 0.0;
    for i := 0 to |values|
      invariant total == Deviation(values[..i], centre)
    {
      assert values[..i + 1][..i] == values[..i];
      total := total + Square(values[i] - centre);
    }
    assert values[..|values|] == values;
  }

  ghost predicate IsExtreme(column: seq<real>, e: Option<real>, beats: (real, real) -> bool) {
    if column == [] then e == None
    else e.Some? && e.value in column && forall x :: x in column ==> beats(e.value, x)
  }

  // All requested attributes

  /** The values of one attribute; `time` is an attribute too. */
  function Value(entry: MetricEntry, attribute: string): Option<real> {
    if attribute == "time" then Some(entry.time as real)
    else if attribute in entry.values then Some(entry.values[attribute])
    else None
  }

  function Column(entries: seq<MetricEntry>, attribute: string): seq<real> {
    if entries == [] then []
    else
      var n := |entries| - 1;
      var value := Value(entries[n], attribute);
      Column(entries[..n], attribute) + if value.Some? then [value.value] else []
  }

  lemma ColumnAppend(entries: seq<MetricEntry>, entry: MetricEntry, attribute: string)
    ensures var value := Value(entry, attribute);
            Column(entries + [entry], attribute) ==
            if value.Some? then Column(entries, attribute) + [value.value] else Column(entries, attribute)
  {
    assert (entries + [entry])[..|entries|] == entries;
  }

  /** What the value of an attribute is, `time` being an attribute of every entry. */
  ghost predicate HasValue(entry: MetricEntry, attribute: string, value: real) {
    if attribute == "time" then value == entry.time as real
    else attribute in entry.values && entry.values[attribute] == value
  }

  /** `at` are the positions, in ascending order, of exactly the entries that have the attribute. */
  ghost predicate IsColumn(entries: seq<MetricEntry>, attribute: string, at: seq<nat>, column: seq<real>) {
    && |at| == |column|
    && (forall j :: 0 <= j < |at| ==> at[j] < |entries| && HasValue(entries[at[j]], attribute, column[j]))
    && (forall j, k :: 0 <= j < k < |at| ==> at[j] < at[k])
    && (forall i :: 0 <= i < |entries| ==>
          (i in at <==> attribute == "time" || attribute in entries[i].values))
  }

  lemma ColumnGrows(entries: seq<MetricEntry>, attribute: string, at: seq<nat>, column: seq<real>, entry: MetricEntry)
    requires IsColumn(entries, attribute, at, column)
    ensures var value := Value(entry, attribute);
            if value.Some? then IsColumn(entries + [entry], attribute, at + [|entries|], column + [value.value])
            else IsColumn(entries + [entry], attribute, at, column)
  {
    assert |entries| !in at;
    assert (entries + [entry])[|entries|] == entry && (at + [|entries|])[|at|] == |entries|;
  }

  /** A column holds the values of exactly the entries that have the attribute, in their order. */
  lemma {:induction false} ColumnIsExact(entries: seq<MetricEntry>, attribute: string) returns (at: seq<nat>)
    ensures IsColumn(entries, attribute, at, Column(entries, attribute))
  {
    at := [];
    if entries != [] {
      hide Column, IsColumn;
      var n := |entries| - 1;
      at := ColumnIsExact(entries[..n], attribute);
      ColumnGrows(entries[..n], attribute, at, Column(entries[..n], attribute), entries[n]);
      ColumnAppend(entries[..n], entries[n], attribute);
      assert entries == entries[..n] + [entries[n]];
      if Value(entries[n], attribute).Some? {
        at := at + [n];
      }
    }
  }

  /** The attribute names between the commas. */
  function Split(text: string, separator: char): (parts: seq<string>)
    ensures parts != []
  {
    if text == "" then [""]
    else
      var n := |text| - 1;
      var parts := Split(text[..n], separator);
      if text[n] == separator then parts + [""]
      else parts[..|parts| - 1] + [parts[|parts| - 1] + [text[n]]]
  }

  function Join(parts: seq<string>, separator: char): string
    requires parts != []
  {
    if |parts| == 1 then parts[0]
    else Join(parts[..|parts| - 1], separator) + [separator] + parts[|parts| - 1]
  }

  ghost predicate IsSplit(text: string, separator: char, parts: seq<string>) {
    parts != [] && (forall i :: 0 <= i < |parts| ==> separator !in parts[i]) && Join(parts, separator) == text
  }

  lemma {:induction false} SplitIsSplit(text: string, separator: char)
    ensures IsSplit(text, separator, Split(text, separator))
  {
    if text != "" {
      var n := |text| - 1;
      var before, parts := Split(text[..n], separator), Split(text, separator);
      SplitIsSplit(text[..n], separator);
      assert text == text[..n] + [text[n]];
      if text[n] == separator {
        assert parts[..|parts| - 1] == before;
      } else {
        assert parts[..|parts| - 1] == before[..|before| - 1];
      }
    }
  }

  function Lengthened(parts: seq<string>, piece: string): seq<string>
    requires parts != []
  {
    parts[..|parts| - 1] + [parts[|parts| - 1] + piece]
  }

  lemma LengthenedTwice(parts: seq<string>, a: string, b: string)
    requires parts != []
    ensures Lengthened(Lengthened(parts, a), b) == Lengthened(parts, a + b)
  {
    var l := |parts| - 1;
    assert (parts[l] + a) + b == parts[l] + (a + b);
    assert Lengthened(parts, a)[..l] == parts[..l];
  }

  lemma SplitSnoc(text: string, separator: char, c: char)
    ensures var parts := Split(text, separator);
            Split(text + [c], separator) == if c == separator then parts + [""] else Lengthened(parts, [c])
  {
    assert (text + [c])[..|text|] == text;
  }

  lemma {:induction false} SplitLastPart(text: string, separator: char, part: string)
    requires separator !in part
    ensures Split(text + part, separator) == Lengthened(Split(text, separator), part)
  {
    hide Split, Lengthened;
    if part == "" {
      assert text + part == text;
      LengthenedByNothing(Split(text, separator));
    } else {
      var n := |part| - 1;
      assert part == part[..n] + [part[n]];
      assert text + part == (text + part[..n]) + [part[n]];
      SplitLastPart(text, separator, part[..n]);
      SplitSnoc(text + part[..n], separator, part[n]);
      LengthenedTwice(Split(text, separator), part[..n], [part[n]]);
    }
  }

  lemma LengthenedByNothing(parts: seq<string>)
    requires parts != []
    ensures Lengthened(parts, "") == parts
  {
    assert parts[|parts| - 1] + "" == parts[|parts| - 1];
  }

  lemma {:induction false} SplitOfJoin(parts: seq<string>, separator: char)
    requires parts != [] && forall i :: 0 <= i < |parts| ==> separator !in parts[i]
    ensures Split(Join(parts, separator), separator) == parts
  {
    hide Split, Lengthened;
    var n := |parts| - 1;
    if n == 0 {
      SplitLastPart("", separator, parts[0]);
      SplitOfNothing(separator);
      LengthenedNew([], parts[0]);
      assert "" + parts[0] == parts[0] && [] + [parts[0]] == parts && [] + [""] == [""];
    } else {
      var front := Join(parts[..n], separator);
      SplitOfJoin(parts[..n], separator);
      SplitSnoc(front, separator, separator);
      SplitLastPart(front + [separator], separator, parts[n]);
      LengthenedNew(parts[..n], parts[n]);
      assert parts == parts[..n] + [parts[n]];
    }
  }

  lemma SplitOfNothing(separator: char)
    ensures Split("", separator) == [""]
  {
  }

  lemma LengthenedNew(parts: seq<string>, part: string)
    ensures Lengthened(parts + [""], part) == parts + [part]
  {
    assert "" + part == part;
  }

  /** Splitting undoes joining: the parts are the only ones without a separator that join to the text. */
  lemma {:induction false} SplitIsExact(text: string, separator: char, parts: seq<string>)
    ensures parts == Split(text, separator) <==> IsSplit(text, separator, parts)
  {
    SplitIsSplit(text, separator);
    if IsSplit(text, separator, parts) {
      SplitOfJoin(parts, separator);
    }
  }

  ghost predicate AllDistinct<T(!new)>(s: seq<T>) {
    forall i, j :: 0 <= i < j < |s| ==> s[i] != s[j]
  }

  method Unique(attributes: seq<string>) returns (unique: seq<string>)
    ensures AllDistinct(unique)
    ensures forall a :: a in unique <==> a in attributes
  {
    unique := [];
    for i := 0 to |attributes|
      invariant AllDistinct(unique)
      invariant forall a :: a in unique <==> a in attributes[..i]
    {
      if attributes[i] !in unique {
        unique := unique + [attributes[i]];
      }
    }
  }

  class EntryAccumulator {
    const uniqueAttributes: seq<string>
    var accumulators: map<string, AttributeAccumulator>

    /** Every attribute has an accumulator of its own. */
    ghost predicate Valid()
      reads this
    {
      && AllDistinct(uniqueAttributes)
      && (forall a :: a in accumulators <==> a in uniqueAttributes)
      && forall a, b :: a in accumulators && b in accumulators && a != b ==> accumulators[a] != accumulators[b]
    }

    ghost predicate Holds(entries: seq<MetricEntry>)
      requires Valid()
      reads this, accumulators.Values
    {
      forall a :: a in accumulators ==> accumulators[a].Holds(Column(entries, a))
    }

    constructor (attributes: seq<string>)
      ensures Valid() && Holds([])
      ensures fresh(accumulators.Values)
      ensures forall a :: a in accumulators <==> a in attributes
    {
      var unique := Unique(attributes);
      var table: map<string, AttributeAccumulator> := map[];
      for i := 0 to |unique|
        invariant forall a :: a in table <==> a in unique[..i]
        invariant forall a, b :: a in table && b in table && a != b ==> table[a] != table[b]
        invariant forall a :: a in table ==> fresh(table[a]) && table[a].Holds([])
      {
        var accumulator := new AttributeAccumulator();
        table := table[unique[i] := accumulator];
      }
      uniqueAttributes := unique;
      accumulators := table;
    }

    method Add(entry: MetricEntry, ghost entries: seq<MetricEntry>)
      requires Valid() && Holds(entries)
      modifies accumulators.Values
      ensures accumulators == old(accumulators) && Valid() && Holds(entries + [entry])
    {
      hide Column, Value, AttributeAccumulator.Holds;
      for i := 0 to |uniqueAttributes|
        invariant forall k :: 0 <= k < |uniqueAttributes| ==>
          var a := uniqueAttributes[k];
          accumulators[a].Holds(Column(if k < i then entries + [entry] else entries, a))
      {
        var attribute := uniqueAttributes[i];
        var value := Value(entry, attribute);
        ColumnAppend(entries, entry, attribute);
        if value.Some? {
          accumulators[attribute].Add(value.value, Column(entries, attribute));
        }
      }
    }

    method Build(ghost entries: seq<MetricEntry>) returns (aggregated: map<string, MetricValue>)
      requires Valid() && Holds(entries)
      ensures aggregated.Keys == accumulators.Keys
      ensures forall a :: a in aggregated ==> IsSummary(Column(entries, a), aggregated[a])
    {
      hide IsSummary, Column, AttributeAccumulator.Holds;
      aggregated := map[];
      for i := 0 to |uniqueAttributes|
        invariant forall a :: a in aggregated <==> a in uniqueAttributes[..i]
        invariant forall a :: a in aggregated ==> IsSummary(Column(entries, a), aggregated[a])
      {
        var attribute := uniqueAttributes[i];
        var v := accumulators[attribute].Build(Column(entries, attribute));
        aggregated := aggregated[attribute := v];
      }
    }
  }

  /** Metric searches know no search term. */
  function MetricCheckers(search: Paging.EntrySearch): seq<MetricEntry -> bool> {
    (if search.fromDate.Some? then [(entry: MetricEntry) => entry.time >= search.fromDate.value] else []) +
    (if search.toDate.Some? then [(entry: MetricEntry) => entry.time <= search.toDate.value] else [])
  }

  lemma {:induction false} CheckersAreExact(search: Paging.EntrySearch, entry: MetricEntry)
    ensures Paging.PassesAll(MetricCheckers(search), entry) <==> Paging.InWindow(search, entry.time)
  {
    Paging.PassesBoth(
      if search.fromDate.Some? then [(entry: MetricEntry) => entry.time >= search.fromDate.value] else [],
      if search.toDate.Some? then [(entry: MetricEntry) => entry.time <= search.toDate.value] else [], entry);
  }

  /** Keeping what passes the checkers is keeping what lies in the window. */
  lemma {:induction false} CheckedIsInWindow(search: Paging.EntrySearch, entries: seq<MetricEntry>)
    ensures Paging.Filter(entry => Paging.PassesAll(MetricCheckers(search), entry), entries) ==
            Paging.Filter((entry: MetricEntry) => Paging.InWindow(search, entry.time), entries)
  {
    forall i | 0 <= i < |entries|
      ensures Paging.PassesAll(MetricCheckers(search), entries[i]) <==> Paging.InWindow(search, entries[i].time)
    {
      CheckersAreExact(search, entries[i]);
    }
    Paging.FilterCongruent(entry => Paging.PassesAll(MetricCheckers(search), entry),
                           (entry: MetricEntry) => Paging.InWindow(search, entry.time), entries);
  }

  method SearchMetric(search: Paging.EntrySearch, paging: Paging.EntryPaging, entries: seq<MetricEntry>)
    returns (page: Paging.EntryPage<MetricEntry>)
    ensures Paging.IsRequestedPage(
              Paging.Filter((entry: MetricEntry) => Paging.InWindow(search, entry.time), entries), paging, page)
  {
    hide Paging.IsRequestedPage, Paging.Page, Paging.Filter;
    page := Paging.Search(entry => Paging.PassesAll(MetricCheckers(search), entry), paging, entries);
    CheckedIsInWindow(search, entries);
  }

  /** One pass over a run's entries gives the summary, within the window, of each requested attribute's column. */
  method AggregateMetric(search: Paging.EntrySearch, apply: string, entries: seq<MetricEntry>)
    returns (aggregated: map<string, MetricValue>)
    ensures forall a :: a in aggregated <==> a in Split(apply, ',')
    ensures forall a :: a in aggregated ==>
      IsSummary(Projected((entry: MetricEntry) => Paging.InWindow(search, entry.time), entries, a), aggregated[a])
  {
    var isMatch := (entry: MetricEntry) => Paging.PassesAll(MetricCheckers(search), entry);
    var accumulator := new EntryAccumulator(Split(apply, ','));
    ghost var kept := [];
    for i := 0 to |entries|
      invariant accumulator.Valid() && fresh(accumulator) && fresh(accumulator.accumulators.Values)
      invariant forall a :: a in accumulator.accumulators <==> a in Split(apply, ',')
      invariant kept == Paging.Filter(isMatch, entries[..i]) && accumulator.Holds(kept)
    {
      hide AttributeAccumulator.Holds, Paging.Filter, Split, Paging.PassesAll, MetricCheckers;
      Paging.FilterLast(isMatch, entries[..i], entries[i]);
      Paging.SplitAt(entries, i);
      if isMatch(entries[i]) {
        accumulator.Add(entries[i], kept);
        kept := kept + [entries[i]];
      }
    }
    assert entries[..|entries|] == entries;
    CheckedIsInWindow(search, entries);
    aggregated := accumulator.Build(kept);
  }

  // What a summary says

  function SumOfSquares(s: seq<real>): real {
    Deviation(s, 0.0)
  }

  lemma {:induction false} DeviationExpanded(s: seq<real>, centre: real)
    ensures Deviation(s, centre) ==
            SumOfSquares(s) - 2.0 * centre * Sum(s) + (|s| as real) * (centre * centre)
  {
    if s != [] {
      var n := |s| - 1;
      DeviationExpanded(s[..n], centre);
      SquareExpanded(s[n], centre, Sum(s[..n]), n as real);
    }
  }

  lemma SquareExpanded(x: real, c: real, sum: real, n: real)
    ensures Square(x - c) == Square(x - 0.0) - 2.0 * c * x + c * c
    ensures 2.0 * c * (sum + x) == 2.0 * c * sum + 2.0 * c * x
    ensures (n + 1.0) * (c * c) == n * (c * c) + c * c
  {
  }

  /** The variance is the mean of the squares less the square of the mean. */
  lemma {:induction false} VarianceIsMeanOfSquaresLessSquare(column: seq<real>, v: MetricValue)
    requires column != [] && IsSummary(column, v)
    ensures v.variance == SumOfSquares(column) / |column| as real - v.avg * v.avg
  {
    hide Sum, Deviation;
    DeviationExpanded(column, v.avg);
    var n := |column| as real;
    MeanOfSquares(n, SumOfSquares(column), v.avg, v.variance, Sum(column));
  }

  lemma MeanOfSquares(n: real, squares: real, avg: real, variance: real, sum: real)
    requires n > 0.0 && avg * n == sum
    requires variance * n == squares - 2.0 * avg * sum + n * (avg * avg)
    ensures variance == squares / n - avg * avg
  {
    assert avg * sum == n * (avg * avg);
    assert squares == (variance + avg * avg) * n;
  }

  lemma {:induction false} SumBounds(s: seq<real>, low: real, high: real)
    requires forall x :: x in s ==> low <= x <= high
    ensures low * |s| as real <= Sum(s) <= high * |s| as real
  {
    if s != [] {
      var n := |s| - 1;
      assert s[n] in s;
      assert forall x :: x in s[..n] ==> x in s;
      SumBounds(s[..n], low, high);
    }
  }

  lemma {:induction false} MinAvgMax(column: seq<real>, v: MetricValue)
    requires IsSummary(column, v)
    ensures v.min <= v.avg <= v.max
  {
    hide Sum, Deviation;
    if column != [] {
      SumBounds(column, v.min, v.max);
      var n := |column| as real;
      Cancel(v.min, v.avg, n);
      Cancel(v.avg, v.max, n);
    }
  }

  lemma Cancel(a: real, b: real, n: real)
    requires n > 0.0 && a * n <= b * n
    ensures a <= b
  {
  }

  lemma OneMoreValue(s: seq<real>, centre: real)
    requires s != []
    ensures var n := |s| - 1;
            Sum(s) == Sum(s[..n]) + s[n] && Deviation(s, centre) == Deviation(s[..n], centre) + Square(s[n] - centre)
  {
  }

  /** The most that n values in the range can have as sum of squares, given their sum. */
  function MaxSquares(low: real, high: real, sum: real, n: real): real {
    (low + high) * sum - n * (low * high)
  }

  lemma {:induction false} SquaresBound(s: seq<real>, low: real, high: real)
    requires forall x :: x in s ==> low <= x <= high
    ensures SumOfSquares(s) <= MaxSquares(low, high, Sum(s), |s| as real)
  {
    if s == [] {
      NoSquares(low, high);
    } else {
      hide Sum, Deviation, Square, MaxSquares;
      var n := |s| - 1;
      assert s[n] in s;
      assert forall x :: x in s[..n] ==> x in s;
      SquaresBound(s[..n], low, high);
      OneMoreValue(s, 0.0);
      BoundGrows(SumOfSquares(s[..n]), s[n], low, high, Sum(s[..n]), n as real);
    }
  }

  lemma NoSquares(low: real, high: real)
    ensures MaxSquares(low, high, 0.0, 0.0) == 0.0
  {
  }

  lemma OneSquareBound(x: real, low: real, high: real)
    requires low <= x <= high
    ensures Square(x - 0.0) <= (low + high) * x - low * high
  {
    ProductNonNegative(high - x, x - low);
    assert (high - x) * (x - low) == (low + high) * x - low * high - Square(x - 0.0);
  }

  lemma BoundGrows(squares: real, x: real, low: real, high: real, sum: real, n: real)
    requires squares <= MaxSquares(low, high, sum, n) && low <= x <= high
    ensures squares + Square(x - 0.0) <= MaxSquares(low, high, sum + x, n + 1.0)
  {
    hide Square;
    OneSquareBound(x, low, high);
    assert (low + high) * (sum + x) == (low + high) * sum + (low + high) * x;
    assert (n + 1.0) * (low * high) == n * (low * high) + low * high;
  }

  lemma ProductNonNegative(a: real, b: real)
    requires a >= 0.0 && b >= 0.0
    ensures a * b >= 0.0
  {
  }

  lemma {:induction false} DeviationNonNegative(s: seq<real>, centre: real)
    ensures Deviation(s, centre) >= 0.0
    ensures Deviation(s, centre) == 0.0 ==> forall x :: x in s ==> x == centre
  {
    hide Square;
    if s != [] {
      var n := |s| - 1;
      DeviationNonNegative(s[..n], centre);
      SquareNonNegative(s[n] - centre);
      assert s == s[..n] + [s[n]];
    }
  }

  lemma SquareNonNegative(d: real)
    ensures Square(d) >= 0.0
    ensures d != 0.0 ==> Square(d) > 0.0
  {
    hide Square;
    SquareEven(d);
    SquareOfZero();
    if d > 0.0 {
      SquarePositive(d);
    } else if d < 0.0 {
      SquarePositive(-d);
    } else {
      assert d == 0.0;
    }
  }

  lemma SquareEven(d: real)
    ensures Square(-d) == Square(d)
  {
  }

  lemma SquareOfZero()
    ensures Square(0.0) == 0.0
  {
  }

  lemma SquarePositive(d: real)
    requires d > 0.0
    ensures Square(d) > 0.0
  {
    ProductPositive(d, d, Square(d));
  }

  lemma ProductPositive(a: real, b: real, product: real)
    requires a > 0.0 && b > 0.0 && product == a * b
    ensures product > 0.0
  {
  }

  /** The spread is bounded by how far the average is from the extremes. */
  lemma {:induction false} VarianceBounds(column: seq<real>, v: MetricValue)
    requires IsSummary(column, v)
    ensures 0.0 <= v.variance <= (v.max - v.avg) * (v.avg - v.min) <= (v.max - v.min) * (v.max - v.min) / 4.0
  {
    hide Deviation, Sum;
    ProductBound(v.max, v.avg, v.min);
    if column != [] {
      VarianceIsMeanOfSquaresLessSquare(column, v);
      SquaresBound(column, v.min, v.max);
      MeanSquareBound(|column| as real, SumOfSquares(column), v.avg, Sum(column), v.min, v.max);
      VarianceNonNegative(column, v);
    }
  }

  lemma VarianceNonNegative(column: seq<real>, v: MetricValue)
    requires column != [] && IsSummary(column, v)
    ensures v.variance >= 0.0
  {
    hide Deviation, Sum;
    DeviationNonNegative(column, v.avg);
    Cancel(0.0, v.variance, |column| as real);
  }

  lemma MeanSquareBound(n: real, squares: real, avg: real, sum: real, low: real, high: real)
    requires n > 0.0 && avg * n == sum
    requires squares <= MaxSquares(low, high, sum, n)
    ensures squares / n - avg * avg <= (high - avg) * (avg - low)
  {
    var q := squares / n;
    assert q * n == squares;
    assert (low + high) * sum == ((low + high) * avg) * n;
    Cancel(q, (low + high) * avg - low * high, n);
  }

  lemma ProductBound(high: real, avg: real, low: real)
    ensures (high - avg) * (avg - low) <= (high - low) * (high - low) / 4.0
  {
    var d := high + low - 2.0 * avg;
    assert (high - low) * (high - low) - 4.0 * ((high - avg) * (avg - low)) == d * d;
  }

  /** There is no spread if and only if all values of the attribute are the same. */
  lemma {:induction false} NoSpreadIffConstant(column: seq<real>, v: MetricValue)
    requires IsSummary(column, v)
    ensures v.variance == 0.0 <==> v.min == v.max
  {
    if column != [] {
      DeviationNonNegative(column, v.avg);
      VarianceBounds(column, v);
      if v.variance == 0.0 {
        assert v.max == v.avg && v.min == v.avg;
      }
    }
  }

  // Permuted streams

  lemma RemoveLast<T>(a: seq<T>, x: T, b: seq<T>) returns (front: seq<T>, back: seq<T>)
    requires multiset(a + [x]) == multiset(b)
    ensures b == front + [x] + back && multiset(a) == multiset(front + back)
  {
    assert x in multiset(a + [x]);
    var k :| 0 <= k < |b| && b[k] == x;
    front, back := b[..k], b[k + 1..];
    assert b == front + [x] + back;
    assert multiset(b) == multiset(front + back) + multiset{x};
    assert multiset(a + [x]) == multiset(a) + multiset{x};
    assert multiset(a) == multiset(a + [x]) - multiset{x};
  }

  lemma {:induction false} SumAppend(a: seq<real>, b: seq<real>)
    ensures Sum(a + b) == Sum(a) + Sum(b)
    decreases |b|
  {
    if b == [] {
      assert a + b == a;
    } else {
      var n := |b| - 1;
      assert (a + b)[..|a| + n] == a + b[..n];
      SumAppend(a, b[..n]);
    }
  }

  lemma {:induction false} DeviationAppend(a: seq<real>, b: seq<real>, centre: real)
    ensures Deviation(a + b, centre) == Deviation(a, centre) + Deviation(b, centre)
    decreases |b|
  {
    if b == [] {
      assert a + b == a;
    } else {
      var n := |b| - 1;
      assert (a + b)[..|a| + n] == a + b[..n];
      DeviationAppend(a, b[..n], centre);
    }
  }

  lemma {:induction false} SumsPermuted(a: seq<real>, b: seq<real>, centre: real)
    requires multiset(a) == multiset(b)
    ensures Sum(a) == Sum(b) && Deviation(a, centre) == Deviation(b, centre)
    decreases |a|
  {
    hide Sum, Deviation;
    if a == [] {
      assert b == [];
    } else {
      var n := |a| - 1;
      assert a == a[..n] + [a[n]];
      var front, back := RemoveLast(a[..n], a[n], b);
      SumsPermuted(a[..n], front + back, centre);
      SumsOfParts(a[..n], [a[n]], [], centre);
      SumsOfParts(front, [a[n]], back, centre);
      assert a[..n] + [a[n]] + [] == a && a[..n] + [] == a[..n];
    }
  }

  lemma SumsOfParts(a: seq<real>, x: seq<real>, b: seq<real>, centre: real)
    ensures Sum(a + x + b) == Sum(a + b) + Sum(x)
    ensures Deviation(a + x + b, centre) == Deviation(a + b, centre) + Deviation(x, centre)
  {
    hide Sum, Deviation;
    SumAppend(a + x, b);
    SumAppend(a, x);
    SumAppend(a, b);
    DeviationAppend(a + x, b, centre);
    DeviationAppend(a, x, centre);
    DeviationAppend(a, b, centre);
  }

  /** Columns with the same values have the same summary. */
  lemma {:induction false} SummaryPermuted(a: seq<real>, b: seq<real>, v: MetricValue, w: MetricValue)
    requires multiset(a) == multiset(b) && IsSummary(a, v) && IsSummary(b, w)
    ensures v == w
  {
    hide Sum, Deviation;
    SameValues(a, b);
    SumsPermuted(a, b, v.avg);
    if a != [] {
      Cancel(v.avg, w.avg, |a| as real);
      Cancel(w.avg, v.avg, |a| as real);
      Cancel(v.variance, w.variance, |a| as real);
      Cancel(w.variance, v.variance, |a| as real);
    }
  }

  lemma SameValues<T>(a: seq<T>, b: seq<T>)
    requires multiset(a) == multiset(b)
    ensures |a| == |b| && forall x :: x in a <==> x in b
  {
    assert |multiset(a)| == |a| && |multiset(b)| == |b|;
    assert forall x :: x in a <==> x in multiset(a);
    assert forall x :: x in b <==> x in multiset(b);
  }

  lemma {:induction false} ColumnConcat(a: seq<MetricEntry>, b: seq<MetricEntry>, attribute: string)
    ensures Column(a + b, attribute) == Column(a, attribute) + Column(b, attribute)
    decreases |b|
  {
    if b == [] {
      assert a + b == a;
    } else {
      var n := |b| - 1;
      assert (a + b)[..|a| + n] == a + b[..n];
      ColumnConcat(a, b[..n], attribute);
    }
  }

  /** The filtered and projected stream. */
  function Projected(isMatch: MetricEntry -> bool, entries: seq<MetricEntry>, attribute: string): seq<real> {
    Column(Paging.Filter(isMatch, entries), attribute)
  }

  lemma ProjectedConcat(isMatch: MetricEntry -> bool, a: seq<MetricEntry>, b: seq<MetricEntry>, attribute: string)
    ensures Projected(isMatch, a + b, attribute) ==
            Projected(isMatch, a, attribute) + Projected(isMatch, b, attribute)
  {
    Paging.FilterAppend(isMatch, a, b);
    ColumnConcat(Paging.Filter(isMatch, a), Paging.Filter(isMatch, b), attribute);
  }

  lemma {:induction false} ProjectedPermuted(isMatch: MetricEntry -> bool, a: seq<MetricEntry>, b: seq<MetricEntry>,
                                             attribute: string)
    requires multiset(a) == multiset(b)
    ensures multiset(Projected(isMatch, a, attribute)) == multiset(Projected(isMatch, b, attribute))
    decreases |a|
  {
    hide Projected;
    if a == [] {
      assert b == [];
    } else {
      var n := |a| - 1;
      assert a == a[..n] + [a[n]];
      var front, back := RemoveLast(a[..n], a[n], b);
      ProjectedPermuted(isMatch, a[..n], front + back, attribute);
      ProjectedConcat(isMatch, a[..n], [a[n]], attribute);
      ProjectedConcat(isMatch, front + [a[n]], back, attribute);
      ProjectedConcat(isMatch, front, [a[n]], attribute);
      ProjectedConcat(isMatch, front, back, attribute);
    }
  }

  /** Aggregating a permuted stream gives the same numbers. */
  lemma {:induction false} OrderDoesNotMatter(isMatch: MetricEntry -> bool, a: seq<MetricEntry>, b: seq<MetricEntry>,
                                              attribute: string,
                           v: MetricValue, w: MetricValue)
    requires multiset(a) == multiset(b)
    requires IsSummary(Projected(isMatch, a, attribute), v) && IsSummary(Projected(isMatch, b, attribute), w)
    ensures v == w
  {
    ProjectedPermuted(isMatch, a, b, attribute);
    SummaryPermuted(Projected(isMatch, a, attribute), Projected(isMatch, b, attribute), v, w);
  }
}
