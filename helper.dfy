/** The gap-filling of src/helper/helper/helper.service.ts: a series of
    per-period In/Out records is completed with zero records for every
    month (or day) of a range that has none, then sorted by date; and the
    `mb2bytes` conversion. */
module Helper {
  import opened Wrappers
  import opened Strings
  import opened Calendar

  datatype Flow = AmountIn | AmountOut

  /** The `type` text of a series record. */
  function FlowText(f: Flow): string
  {
    match f
    case AmountIn => "Amount In"
    case AmountOut => "Amount Out"
  }

  /** One record of a report series: `{date, type, amount}`. */
  datatype Point = Point(date: string, flow: Flow, amount: real)

  /** `mb2bytes`: a mebibyte is 1024 * 1024 bytes. */
  function Mb2Bytes(mb: real): (b: real)
    ensures b == mb * 1048576.0
  {
    mb * 1024.0 * 1024.0
  }

  /** The dates a series already has (`monthSet` / `dateMap`). */
  function Dates(data: seq<Point>): set<string>
  {
    set p | p in data :: p.date
  }

  /** How many labels of the range the series lacks. */
  function MissingCount(labels: seq<string>, present: set<string>): nat
  {
    if |labels| == 0 then 0
    else MissingCount(labels[..|labels| - 1], present) + (if labels[|labels| - 1] in present then 0 else 1)
  }

  /** The zero pair of one label, or nothing when the label is present. */
  function Missing(name: string, present: set<string>): (r: seq<Point>)
    ensures r == [] <==> name in present
    ensures forall p :: p in r ==> p.date == name && p.amount == 0.0
  {
    if name in present then [] else [Point(name, AmountIn, 0.0), Point(name, AmountOut, 0.0)]
  }

  /** The records the filling adds, in range order: an 'Amount In' and an
      'Amount Out' record of amount 0 for each label not present. */
  function Gaps(labels: seq<string>, present: set<string>): (r: seq<Point>)
    ensures |r| == 2 * MissingCount(labels, present)
  {
    if |labels| == 0 then []
    else Gaps(labels[..|labels| - 1], present) + Missing(labels[|labels| - 1], present)
  }

  /** An added record is a zero record of a missing label of the range. */
  lemma {:induction false} GapsAdded(labels: seq<string>, present: set<string>, p: Point)
    requires p in Gaps(labels, present)
    ensures p.amount == 0.0 && p.date in labels && p.date !in present
  {
    var init := labels[..|labels| - 1];
    var last := labels[|labels| - 1];
    assert labels == init + [last];
    if p in Gaps(init, present) {
      GapsAdded(init, present, p);
    }
  }

  /** Every missing label of the range has both of its records. */
  lemma {:induction false} GapsMissing(labels: seq<string>, present: set<string>, k: int)
    requires 0 <= k < |labels| && labels[k] !in present
    ensures Point(labels[k], AmountIn, 0.0) in Gaps(labels, present)
    ensures Point(labels[k], AmountOut, 0.0) in Gaps(labels, present)
  {
    var init := labels[..|labels| - 1];
    if k < |init| {
      assert init[k] == labels[k];
      GapsMissing(init, present, k);
    }
  }

  /** How often one point occurs among the records of one label. */
  lemma MissingCounts(last: string, present: set<string>, name: string, flow: Flow)
    ensures multiset(Missing(last, present))[Point(name, flow, 0.0)] == if last == name && name !in present then 1 else 0
  {
  }

  /** Extending the range by one label adds that label's gaps at the end. */
  lemma GapsSnoc(labels: seq<string>, name: string, present: set<string>)
    ensures Gaps(labels + [name], present) == Gaps(labels, present) + Missing(name, present)
  {
    assert (labels + [name])[..|labels|] == labels;
  }

  lemma AppendAssociative<T>(a: seq<T>, b: seq<T>, c: seq<T>)
    ensures a + b + c == a + (b + c)
  {
  }

  /** The gaps of two consecutive ranges are the gaps of each, in order. */
  lemma {:induction false} GapsAppend(a: seq<string>, b: seq<string>, present: set<string>)
    ensures Gaps(a + b, present) == Gaps(a, present) + Gaps(b, present)
    decreases |b|
  {
    if |b| == 0 {
      assert a + b == a;
    } else {
      var init := b[..|b| - 1];
      var last := b[|b| - 1];
      assert b == init + [last];
      AppendAssociative(a, init, [last]);
      GapsSnoc(a + init, last, present);
      GapsAppend(a, init, present);
      GapsSnoc(init, last, present);
      AppendAssociative(Gaps(a, present), Gaps(init, present), Missing(last, present));
    }
  }

  /** Each missing label gets exactly one 'Amount In' and one 'Amount Out'
      zero record per time it occurs in the range (a present label gets
      none, by GapsAdded). */
  lemma {:induction false} GapsPerLabel(labels: seq<string>, present: set<string>, name: string, flow: Flow)
    requires name !in present
    ensures multiset(Gaps(labels, present))[Point(name, flow, 0.0)] == multiset(labels)[name]
  {
    if |labels| > 0 {
      var init := labels[..|labels| - 1];
      var last := labels[|labels| - 1];
      assert labels == init + [last];
      assert multiset(labels) == multiset(init) + multiset{last};
      GapsSnoc(init, last, present);
      GapsPerLabel(init, present, name, flow);
      MissingCounts(last, present, name, flow);
    }
  }

  predicate SortedByDate(s: seq<Point>)
  {
    forall i, j :: 0 <= i < j < |s| ==> LexLeq(s[i].date, s[j].date)
  }

  function InsertByDate(p: Point, s: seq<Point>): (r: seq<Point>)
    ensures multiset(r) == multiset(s) + multiset{p}
  {
    if |s| == 0 then [p]
    else if LexLeq(p.date, s[0].date) then [p] + s
    else
      assert s == [s[0]] + s[1..];
      [s[0]] + InsertByDate(p, s[1..])
  }

  lemma {:induction false} InsertByDateSorted(p: Point, s: seq<Point>)
    requires SortedByDate(s)
    ensures SortedByDate(InsertByDate(p, s))
  {
    if |s| == 0 {
    } else if LexLeq(p.date, s[0].date) {
      forall j | 0 < j < |s| ensures LexLeq(p.date, s[j].date) {
        LexLeqTransitive(p.date, s[0].date, s[j].date);
      }
    } else {
      var rest := InsertByDate(p, s[1..]);
      InsertByDateSorted(p, s[1..]);
      LexLeqTotal(p.date, s[0].date);
      forall k | 0 <= k < |rest| ensures LexLeq(s[0].date, rest[k].date) {
        assert rest[k] in multiset(rest);
        if rest[k] != p {
          assert rest[k] in multiset(s[1..]);
          var j :| 0 <= j < |s[1..]| && s[1..][j] == rest[k];
          assert s[j + 1] == rest[k];
        }
      }
    }
  }

  /** `filledData.sort((a, b) => (a.date > b.date ? 1 : -1))`: ascending by
      date.  The comparator never answers 0, so the order among records of
      the same date is unspecified in JavaScript; the model orders them by
      insertion. */
  function SortByDate(s: seq<Point>): (r: seq<Point>)
    ensures SortedByDate(r)
    ensures multiset(r) == multiset(s)
  {
    if |s| == 0 then []
    else
      assert s == s[..|s| - 1] + [s[|s| - 1]];
      InsertByDateSorted(s[|s| - 1], SortByDate(s[..|s| - 1]));
      InsertByDate(s[|s| - 1], SortByDate(s[..|s| - 1]))
  }

  /** The filled series: the data plus the gaps of the range, sorted. */
  function Filled(data: seq<Point>, labels: seq<string>): seq<Point>
  {
    SortByDate(data + Gaps(labels, Dates(data)))
  }

  /** What filling promises for any range: the result is sorted by date;
      every input record is kept unchanged and the only records added are
      the zero pairs of missing labels, two per missing label; and every
      label of the range has a record. */
  lemma {:induction false} FilledProperties(data: seq<Point>, labels: seq<string>)
    ensures SortedByDate(Filled(data, labels))
    ensures multiset(Filled(data, labels)) == multiset(data) + multiset(Gaps(labels, Dates(data)))
    ensures |Filled(data, labels)| == |data| + 2 * MissingCount(labels, Dates(data))
    ensures forall p :: p in data ==> p in Filled(data, labels)
    ensures forall k :: 0 <= k < |labels| ==> exists p :: p in Filled(data, labels) && p.date == labels[k]
  {
    forall k | 0 <= k < |labels| ensures exists p :: p in Filled(data, labels) && p.date == labels[k] {
      FilledCovers(data, labels, k);
    }
    var r := Filled(data, labels);
    var gaps := Gaps(labels, Dates(data));
    assert multiset(data + gaps) == multiset(data) + multiset(gaps);
    assert |r| == |multiset(r)|;
    FilledKeeps(data, labels);
  }

  /** The filling keeps every record of the series. */
  lemma FilledKeeps(data: seq<Point>, labels: seq<string>)
    ensures forall p :: p in data ==> p in Filled(data, labels)
  {
    var r := Filled(data, labels);
    var gaps := Gaps(labels, Dates(data));
    assert multiset(data + gaps) == multiset(data) + multiset(gaps);
    forall p | p in data ensures p in r {
      assert p in multiset(data);
      assert p in multiset(r);
    }
  }

  /** Every label of the range has a record after the filling: its own
      data or its zero records. */
  lemma FilledCovers(data: seq<Point>, labels: seq<string>, k: int)
    requires 0 <= k < |labels|
    ensures exists p :: p in Filled(data, labels) && p.date == labels[k]
  {
    var r := Filled(data, labels);
    var gaps := Gaps(labels, Dates(data));
    assert multiset(data + gaps) == multiset(data) + multiset(gaps);
    if labels[k] in Dates(data) {
      var p :| p in data && p.date == labels[k];
      assert p in multiset(data);
      assert p in multiset(r);
    } else {
      GapsMissing(labels, Dates(data), k);
      var p := Point(labels[k], AmountIn, 0.0);
      assert p in gaps;
      assert p in multiset(gaps);
      assert p in multiset(r);
    }
  }

  /** A record the filling adds is a zero record of a label of the range
      that the series lacked. */
  lemma FilledOnlyAdded(data: seq<Point>, labels: seq<string>, p: Point)
    requires p in Filled(data, labels) && p !in data
    ensures p.amount == 0.0 && p.date in labels && p.date !in Dates(data)
  {
    var gaps := Gaps(labels, Dates(data));
    assert multiset(data + gaps) == multiset(data) + multiset(gaps);
    assert p in multiset(Filled(data, labels));
    assert p !in multiset(data);
    assert p in multiset(gaps);
    GapsAdded(labels, Dates(data), p);
  }

  // -------------------------------------------------------------- ranges

  /** The labels of the periods `first` to `last`, in order. */
  function Labels(first: int, last: int, labelOf: int -> string): (r: seq<string>)
    ensures |r| == if last < first then 0 else last - first + 1
    decreases last - first
  {
    if last < first then [] else Labels(first, last - 1, labelOf) + [labelOf(last)]
  }

  /** The `k`-th label is that of period `first + k`. */
  lemma {:induction false} LabelsAt(first: int, last: int, labelOf: int -> string, d: int)
    requires first <= d <= last
    ensures Labels(first, last, labelOf)[d - first] == labelOf(d)
    decreases last - first
  {
    if d < last {
      LabelsAt(first, last - 1, labelOf, d);
    }
  }

  /** Filling the periods `first` to `last` leaves a record for each of
      them. */
  lemma LabelsCovered(data: seq<Point>, first: int, last: int, labelOf: int -> string, d: int)
    requires first <= d <= last
    ensures exists p :: p in Filled(data, Labels(first, last, labelOf)) && p.date == labelOf(d)
  {
    var labels := Labels(first, last, labelOf);
    LabelsAt(first, last, labelOf, d);
    FilledCovers(data, labels, d - first);
  }

  /** A record the filling adds is a zero record of a period of the range. */
  lemma LabelsOnlyAdded(data: seq<Point>, first: int, last: int, labelOf: int -> string, p: Point)
    requires p in Filled(data, Labels(first, last, labelOf)) && p !in data
    ensures p.amount == 0.0
    ensures exists d :: first <= d <= last && p.date == labelOf(d)
  {
    FilledOnlyAdded(data, Labels(first, last, labelOf), p);
    LabelsOnlyPeriods(first, last, labelOf, p.date);
  }

  /** A label of the range is the label of one of its periods. */
  lemma {:induction false} LabelsOnlyPeriods(first: int, last: int, labelOf: int -> string, name: string)
    requires name in Labels(first, last, labelOf)
    ensures exists d :: first <= d <= last && name == labelOf(d)
    decreases last - first
  {
    if name != labelOf(last) {
      LabelsOnlyPeriods(first, last - 1, labelOf, name);
    }
  }

  // -------------------------------------------------------------- months

  /** `parseInt` of the field `i` of `s.split('-')`; a field past the end is
      `undefined`, which `parseInt` reads as NaN (None). */
  function DateField(s: string, i: nat): Option<int>
  {
    var fields := Split(s, '-');
    if i < |fields| then ParseInt(fields[i]) else None
  }

  /** The month bounds of `fillMissingMonths` once its two texts are parsed
      and both years are numbers; the months may be NaN. */
  datatype MonthRange = MonthRange(minYear: int, minMonth: Option<int>, maxYear: int, maxMonth: Option<int>)

  /** `startMonth`: the first month of the range in its first year, January
      after. */
  function StartMonth(g: MonthRange, year: int): Option<int>
  {
    if year == g.minYear then g.minMonth else Some(1)
  }

  /** `endMonth`: the last month of the range in its last year, December
      before. */
  function EndMonth(g: MonthRange, year: int): Option<int>
  {
    if year == g.maxYear then g.maxMonth else Some(12)
  }

  /** The labels of the months of one year. */
  function InYear(year: int, monthLabel: (int, int) -> string): int -> string
  {
    m => monthLabel(year, m)
  }

  /** The months one year contributes; a NaN bound runs no month. */
  function YearMonths(g: MonthRange, year: int, monthLabel: (int, int) -> string): seq<string>
  {
    var first := StartMonth(g, year);
    var last := EndMonth(g, year);
    if first.Some? && last.Some? then Labels(first.value, last.value, InYear(year, monthLabel)) else []
  }

  /** The labels of the years from `g.minYear` up to, not including,
      `until`. */
  function YearBlocks(g: MonthRange, until: int, monthLabel: (int, int) -> string): seq<string>
    decreases until - g.minYear
  {
    if until <= g.minYear then [] else YearBlocks(g, until - 1, monthLabel) + YearMonths(g, until - 1, monthLabel)
  }

  /** The month labels the loops visit for the parsed bounds; a NaN year
      runs no loop at all (`year <= NaN` is false). */
  function MonthLabelsOf(minYear: Option<int>, minMonth: Option<int>, maxYear: Option<int>, maxMonth: Option<int>,
                         monthLabel: (int, int) -> string): seq<string>
  {
    if minYear.Some? && maxYear.Some? then
      var g := MonthRange(minYear.value, minMonth, maxYear.value, maxMonth);
      YearBlocks(g, g.maxYear + 1, monthLabel)
    else []
  }

  /** Every month label the loops of `fillMissingMonths(data, from, to)`
      visit, in order. */
  function MonthLabels(from: string, upTo: string): seq<string>
  {
    MonthLabelsOf(DateField(from, 0), DateField(from, 1), DateField(upTo, 0), DateField(upTo, 1), MonthLabel)
  }

  function MonthsFilled(data: seq<Point>, from: string, upTo: string): seq<Point>
  {
    Filled(data, MonthLabels(from, upTo))
  }

  /** `fillMissingMonths(data, from, to)`: both texts are split on '-' and
      their first two fields read with `parseInt`. */
  method FillMissingMonths(data: seq<Point>, from: string, upTo: string) returns (r: seq<Point>)
    ensures r == MonthsFilled(data, from, upTo)
  {
    var minYear := DateField(from, 0);
    var minMonthIndex := DateField(from, 1);
    var maxYear := DateField(upTo, 0);
    var maxMonthIndex := DateField(upTo, 1);
    r := FillMonthsWith(data, minYear, minMonthIndex, maxYear, maxMonthIndex, MonthLabel);
  }

  /** The loops of `fillMissingMonths` over the parsed bounds, for any way
      of writing a month label (they do not depend on it). */
  method FillMonthsWith(data: seq<Point>, minYear: Option<int>, minMonthIndex: Option<int>, maxYear: Option<int>, maxMonthIndex: Option<int>,
                        monthLabel: (int, int) -> string) returns (r: seq<Point>)
    ensures r == Filled(data, MonthLabelsOf(minYear, minMonthIndex, maxYear, maxMonthIndex, monthLabel))
  {
    var present := PresentDates(data);
    var transformed: seq<Point> := [];
    if minYear.Some? && maxYear.Some? {
      transformed := FillYears(MonthRange(minYear.value, minMonthIndex, maxYear.value, maxMonthIndex), present, monthLabel);
    }
    r := SortByDate(data + transformed);
  }

  /** The `existingDates` set: the date of every data point. */
  method PresentDates(data: seq<Point>) returns (present: set<string>)
    ensures present == Dates(data)
  {
    present := {};
    for i := 0 to |data|
      invariant present == Dates(data[..i])
    {
      assert data[..i + 1] == data[..i] + [data[i]];
      present := present + {data[i].date};
    }
    assert data[..|data|] == data;
  }

  /** The outer loop of `fillMissingMonths`, year by year from the first
      year to the last. */
  method FillYears(g: MonthRange, present: set<string>, monthLabel: (int, int) -> string) returns (transformed: seq<Point>)
    ensures transformed == Gaps(YearBlocks(g, g.maxYear + 1, monthLabel), present)
  {
    transformed := [];
    var year := g.minYear;
    ghost var done: seq<string> := [];
    while year <= g.maxYear
      invariant g.minYear <= year
      invariant g.minYear <= g.maxYear ==> year <= g.maxYear + 1
      invariant g.maxYear < g.minYear ==> year == g.minYear
      invariant done == YearBlocks(g, year, monthLabel)
      invariant transformed == Gaps(done, present)
      decreases g.maxYear - year
    {
      YearBlocksStep(g, year, monthLabel, present);
      transformed := FillMonthsOfYear(transformed, g, year, present, monthLabel);
      done := done + YearMonths(g, year, monthLabel);
      year := year + 1;
    }
    if g.maxYear < g.minYear {
      YearBlocksNone(g, year, monthLabel);
      YearBlocksNone(g, g.maxYear + 1, monthLabel);
    }
  }

  /** No year before the first is visited. */
  lemma YearBlocksNone(g: MonthRange, until: int, monthLabel: (int, int) -> string)
    requires until <= g.minYear
    ensures YearBlocks(g, until, monthLabel) == []
  {
  }

  /** One more year of the outer loop appends that year's gaps. */
  lemma YearBlocksStep(g: MonthRange, year: int, monthLabel: (int, int) -> string, present: set<string>)
    requires g.minYear <= year
    ensures YearBlocks(g, year + 1, monthLabel) == YearBlocks(g, year, monthLabel) + YearMonths(g, year, monthLabel)
    ensures Gaps(YearBlocks(g, year + 1, monthLabel), present)
         == Gaps(YearBlocks(g, year, monthLabel), present) + Gaps(YearMonths(g, year, monthLabel), present)
  {
    GapsAppend(YearBlocks(g, year, monthLabel), YearMonths(g, year, monthLabel), present);
  }

  /** One pass of the outer loop of `fillMissingMonths`: the range's first
      month in its first year, its last month in its last year, January to
      December otherwise. */
  method FillMonthsOfYear(transformed: seq<Point>, g: MonthRange, year: int, present: set<string>,
                          monthLabel: (int, int) -> string) returns (r: seq<Point>)
    ensures r == transformed + Gaps(YearMonths(g, year, monthLabel), present)
  {
    var startMonth := if year == g.minYear then g.minMonth else Some(1);
    var endMonth := if year == g.maxYear then g.maxMonth else Some(12);
    if startMonth.Some? && endMonth.Some? {
      r := FillYear(transformed, startMonth.value, endMonth.value, present, InYear(year, monthLabel));
    } else {
      r := transformed;
      assert Gaps(YearMonths(g, year, monthLabel), present) == [];
    }
  }

  /** The inner loop of `fillMissingMonths`: the months `first` to `last`
      of one year, each missing one appending its zero pair. */
  method FillYear(transformed: seq<Point>, first: int, last: int, present: set<string>, monthYearOf: int -> string)
    returns (r: seq<Point>)
    ensures r == transformed + Gaps(Labels(first, last, monthYearOf), present)
  {
    r := transformed;
    var monthIndex := first;
    assert transformed + Gaps([], present) == transformed;
    while monthIndex <= last
      invariant monthIndex == first || first < monthIndex <= last + 1
      invariant r == transformed + Gaps(Labels(first, monthIndex - 1, monthYearOf), present)
      decreases last - monthIndex
    {
      var monthYear := monthYearOf(monthIndex);
      ghost var before := Labels(first, monthIndex - 1, monthYearOf);
      GapsSnoc(before, monthYear, present);
      AppendAssociative(transformed, Gaps(before, present), Missing(monthYear, present));
      if monthYear !in present {
        r := r + [Point(monthYear, AmountIn, 0.0), Point(monthYear, AmountOut, 0.0)];
      } else {
        assert r + Missing(monthYear, present) == r;
      }
      monthIndex := monthIndex + 1;
    }
    if monthIndex - 1 != last {
      assert Labels(first, monthIndex - 1, monthYearOf) == [] == Labels(first, last, monthYearOf);
    }
  }

  /** A month between a visited year's first and last month is among the
      labels the outer loop visits. */
  lemma {:induction false} YearBlocksCover(g: MonthRange, until: int, monthLabel: (int, int) -> string, y: int, m: int)
    requires g.minYear <= y < until
    requires StartMonth(g, y).Some? && EndMonth(g, y).Some?
    requires StartMonth(g, y).value <= m <= EndMonth(g, y).value
    ensures monthLabel(y, m) in YearBlocks(g, until, monthLabel)
    decreases until - g.minYear
  {
    if y < until - 1 {
      YearBlocksCover(g, until - 1, monthLabel, y, m);
      InAppendLeft(monthLabel(y, m), YearBlocks(g, until - 1, monthLabel), YearMonths(g, until - 1, monthLabel));
    } else {
      YearMonthsCover(g, y, monthLabel, m);
      InAppendRight(monthLabel(y, m), YearBlocks(g, until - 1, monthLabel), YearMonths(g, until - 1, monthLabel));
    }
  }

  lemma InAppendLeft<T>(x: T, a: seq<T>, b: seq<T>)
    requires x in a
    ensures x in a + b
  {
  }

  lemma InAppendRight<T>(x: T, a: seq<T>, b: seq<T>)
    requires x in b
    ensures x in a + b
  {
  }

  /** A month between the year's first and last month has its label. */
  lemma YearMonthsCover(g: MonthRange, y: int, monthLabel: (int, int) -> string, m: int)
    requires StartMonth(g, y).Some? && EndMonth(g, y).Some?
    requires StartMonth(g, y).value <= m <= EndMonth(g, y).value
    ensures monthLabel(y, m) in YearMonths(g, y, monthLabel)
  {
    var first := StartMonth(g, y).value;
    LabelsAt(first, EndMonth(g, y).value, InYear(y, monthLabel), m);
  }

  /** Every month from (fromYear, fromMonth) to (toYear, toMonth) has a
      label, when both texts parse to real months. */
  lemma MonthLabelsCover(from: string, upTo: string, fromYear: int, fromMonth: int, toYear: int, toMonth: int, y: int, m: int)
    requires DateField(from, 0) == Some(fromYear) && DateField(from, 1) == Some(fromMonth)
    requires DateField(upTo, 0) == Some(toYear) && DateField(upTo, 1) == Some(toMonth)
    requires 1 <= fromMonth <= 12 && 1 <= toMonth <= 12 && 1 <= m <= 12
    requires fromYear * 12 + fromMonth <= y * 12 + m <= toYear * 12 + toMonth
    ensures MonthLabel(y, m) in MonthLabels(from, upTo)
  {
    var g := MonthRange(fromYear, Some(fromMonth), toYear, Some(toMonth));
    MonthLabelsParsed(from, upTo, g);
    RangeCover(g, y, m);
  }

  /** The months `fillMissingMonths(data, from, to)` visits once both texts
      parse to numbers. */
  lemma MonthLabelsParsed(from: string, upTo: string, g: MonthRange)
    requires DateField(from, 0) == Some(g.minYear) && DateField(from, 1) == g.minMonth
    requires DateField(upTo, 0) == Some(g.maxYear) && DateField(upTo, 1) == g.maxMonth
    ensures MonthLabels(from, upTo) == YearBlocks(g, g.maxYear + 1, MonthLabel)
  {
  }

  /** With real months as bounds, every month between them has a record
      after `fillMissingMonths`. */
  lemma MonthsFilledCover(data: seq<Point>, from: string, upTo: string, fromYear: int, fromMonth: int, toYear: int, toMonth: int, y: int, m: int)
    requires DateField(from, 0) == Some(fromYear) && DateField(from, 1) == Some(fromMonth)
    requires DateField(upTo, 0) == Some(toYear) && DateField(upTo, 1) == Some(toMonth)
    requires 1 <= fromMonth <= 12 && 1 <= toMonth <= 12 && 1 <= m <= 12
    requires fromYear * 12 + fromMonth <= y * 12 + m <= toYear * 12 + toMonth
    ensures exists p :: p in MonthsFilled(data, from, upTo) && p.date == MonthLabel(y, m)
  {
    var labels := MonthLabels(from, upTo);
    MonthLabelsCover(from, upTo, fromYear, fromMonth, toYear, toMonth, y, m);
    var k :| 0 <= k < |labels| && labels[k] == MonthLabel(y, m);
    FilledCovers(data, labels, k);
  }

  /** A record `fillMissingMonths` adds is a zero record of a visited month
      the series lacked. */
  lemma MonthsOnlyAdded(data: seq<Point>, from: string, upTo: string, p: Point)
    requires p in MonthsFilled(data, from, upTo) && p !in data
    ensures p.amount == 0.0 && p.date in MonthLabels(from, upTo) && p.date !in Dates(data)
  {
    FilledOnlyAdded(data, MonthLabels(from, upTo), p);
  }

  /** A month between the two bounds of a range of real months is visited. */
  lemma RangeCover(g: MonthRange, y: int, m: int)
    requires g.minMonth.Some? && g.maxMonth.Some?
    requires 1 <= g.minMonth.value <= 12 && 1 <= g.maxMonth.value <= 12 && 1 <= m <= 12
    requires g.minYear * 12 + g.minMonth.value <= y * 12 + m <= g.maxYear * 12 + g.maxMonth.value
    ensures MonthLabel(y, m) in YearBlocks(g, g.maxYear + 1, MonthLabel)
  {
    YearBlocksCover(g, g.maxYear + 1, MonthLabel, y, m);
  }

  /** A `from` or `to` whose year is not a number adds nothing. */
  lemma MonthsNaNYearAddsNothing(data: seq<Point>, from: string, upTo: string)
    requires DateField(from, 0).None? || DateField(upTo, 0).None?
    ensures MonthsFilled(data, from, upTo) == SortByDate(data)
  {
    assert data + [] == data;
  }

  /** When `from`'s month is after `to`'s, nothing is added. */
  lemma MonthsReversedAddNothing(data: seq<Point>, from: string, upTo: string, fromYear: int, fromMonth: int, toYear: int, toMonth: int)
    requires DateField(from, 0) == Some(fromYear) && DateField(from, 1) == Some(fromMonth)
    requires DateField(upTo, 0) == Some(toYear) && DateField(upTo, 1) == Some(toMonth)
    requires 1 <= fromMonth <= 12 && 1 <= toMonth <= 12
    requires fromYear * 12 + fromMonth > toYear * 12 + toMonth
    ensures MonthLabels(from, upTo) == []
    ensures MonthsFilled(data, from, upTo) == SortByDate(data)
  {
    var g := MonthRange(fromYear, Some(fromMonth), toYear, Some(toMonth));
    MonthLabelsParsed(from, upTo, g);
    RangeReversed(g);
    assert data + [] == data;
  }

  /** A range whose first month is after its last visits nothing. */
  lemma RangeReversed(g: MonthRange)
    requires g.minMonth.Some? && g.maxMonth.Some?
    requires 1 <= g.minMonth.value <= 12 && 1 <= g.maxMonth.value <= 12
    requires g.minYear * 12 + g.minMonth.value > g.maxYear * 12 + g.maxMonth.value
    ensures YearBlocks(g, g.maxYear + 1, MonthLabel) == []
  {
    if g.minYear <= g.maxYear {
      assert g.minYear == g.maxYear;
      assert YearBlocks(g, g.maxYear, MonthLabel) == [];
      assert YearMonths(g, g.maxYear, MonthLabel) == [];
    }
  }

  /** The first two '-' fields of `y-m-rest`, when `y` and `m` hold no '-'. */
  lemma {:induction false} LeadingFields(y: string, m: string, rest: string)
    requires '-' !in y && '-' !in m
    ensures |Split(y + "-" + m + "-" + rest, '-')| >= 2
    ensures Split(y + "-" + m + "-" + rest, '-')[0] == y
    ensures Split(y + "-" + m + "-" + rest, '-')[1] == m
  {
    assert y + "-" + m + "-" + rest == y + ['-'] + (m + ['-'] + rest);
    SplitAtFirstSeparator(y, '-', m + ['-'] + rest);
    SplitAtFirstSeparator(m, '-', rest);
  }

  lemma PaddedHasNoDash(n: nat, width: nat)
    ensures '-' !in PadStart(NatToString(n), width, '0')
  {
    var t := PadStart(NatToString(n), width, '0');
    PaddedDigits(n, width);
    forall k | 0 <= k < |t| ensures t[k] != '-' { assert IsDigit(t[k]); }
  }

  /** Reading a `YYYY-MM-DD` label back: its first two fields parse to the
      year and month it was written from, so `fillMissingMonths` given two
      day labels fills the months between those days. */
  lemma DayLabelFields(day: int)
    requires 0 <= CivilFromDays(day).year <= 9999
    requires 1 <= CivilFromDays(day).month <= 12
    ensures DateField(DayLabel(day), 0) == Some(CivilFromDays(day).year)
    ensures DateField(DayLabel(day), 1) == Some(CivilFromDays(day).month)
  {
    var c := CivilFromDays(day);
    var y := PadStart(NatToString(c.year), 4, '0');
    var m := PadStart(NatToString(c.month), 2, '0');
    assert IsoYear(c.year) == y;
    assert Pad2(c.month) == m;
    assert DayLabel(day) == y + "-" + m + "-" + Pad2(c.day);
    PaddedHasNoDash(c.year, 4);
    PaddedHasNoDash(c.month, 2);
    LeadingFields(y, m, Pad2(c.day));
    ParseIntPadded(c.year, 4);
    ParseIntPadded(c.month, 2);
  }

  // ---------------------------------------------------------------- days

  /** The labels of days `from` to `to`, in order. */
  function DayLabels(from: int, upTo: int): seq<string>
  {
    Labels(from, upTo, DayLabel)
  }

  function DaysFilled(data: seq<Point>, from: int, upTo: int): seq<Point>
  {
    Filled(data, DayLabels(from, upTo))
  }

  /** `fillMissingDays(data, from, to)`, with the dates as day numbers. */
  method FillMissingDays(data: seq<Point>, from: int, upTo: int) returns (r: seq<Point>)
    ensures r == DaysFilled(data, from, upTo)
  {
    r := FillDaysWith(data, from, upTo, DayLabel);
  }

  /** The loop of `fillMissingDays`, for any way of writing a day (it does
      not depend on it). */
  method FillDaysWith(data: seq<Point>, from: int, upTo: int, dayLabel: int -> string) returns (r: seq<Point>)
    ensures r == Filled(data, Labels(from, upTo, dayLabel))
  {
    var present := PresentDates(data);
    var transformed: seq<Point> := [];
    var currentDate := from;
    while currentDate <= upTo
      invariant currentDate == from || from < currentDate <= upTo + 1
      invariant transformed == Gaps(Labels(from, currentDate - 1, dayLabel), present)
      decreases upTo - currentDate
    {
      var formattedDate := dayLabel(currentDate);
      GapsSnoc(Labels(from, currentDate - 1, dayLabel), formattedDate, present);
      if formattedDate !in present {
        transformed := transformed + [Point(formattedDate, AmountIn, 0.0), Point(formattedDate, AmountOut, 0.0)];
      }
      currentDate := currentDate + 1;
    }
    assert Labels(from, currentDate - 1, dayLabel) == Labels(from, upTo, dayLabel);
    r := SortByDate(data + transformed);
  }

  /** Exactly the days from `from` to `to` are filled: each has a record,
      and an added record is always a zero record of a day in the range. */
  lemma DaysFilledRange(data: seq<Point>, from: int, upTo: int)
    ensures forall d :: from <= d <= upTo ==> exists p :: p in DaysFilled(data, from, upTo) && p.date == DayLabel(d)
    ensures forall p :: p in DaysFilled(data, from, upTo) && p !in data ==>
      p.amount == 0.0 && exists d :: from <= d <= upTo && p.date == DayLabel(d)
    ensures upTo < from ==> DaysFilled(data, from, upTo) == SortByDate(data)
  {
    var r := DaysFilled(data, from, upTo);
    forall d | from <= d <= upTo ensures exists p :: p in r && p.date == DayLabel(d) {
      LabelsCovered(data, from, upTo, DayLabel, d);
      var p :| p in r && p.date == DayLabel(d);
    }
    forall p | p in r && p !in data ensures p.amount == 0.0 && exists d :: from <= d <= upTo && p.date == DayLabel(d) {
      LabelsOnlyAdded(data, from, upTo, DayLabel, p);
      var d :| from <= d <= upTo && p.date == DayLabel(d);
    }
    if upTo < from {
      assert data + [] == data;
    }
  }

}
