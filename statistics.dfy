/** The reports of src/modules/statistics/statistic.service.ts: the
    per-period 'Amount In' / 'Amount Out' series of one user's ledger
    records over a date range, and the user's all-time totals.  The Mongo
    pipelines are modelled as functions over the stored records; the
    service's own steps (defaults, the choice of the grouping, the
    flattening and the gap-filling) as a method. */
module Statistics {
  import opened Wrappers
  import opened Schemas
  import opened Calendar
  import opened Repository
  import opened Helper

  // ------------------------------------------------------------ the rows

  /** The fields of a ledger record that the series pipeline reads. */
  datatype Row = Row(userId: Option<UserId>, createdAt: Time, operator: Option<Operator>, amount: real)

  function RowOf(e: Entry): Row
  {
    Row(e.userId, e.createdAt, e.operator, e.amount)
  }

  function Rows(es: seq<Entry>): (r: seq<Row>)
    ensures |r| == |es|
    ensures forall i :: 0 <= i < |es| ==> r[i] == RowOf(es[i])
  {
    seq(|es|, i requires 0 <= i < |es| => RowOf(es[i]))
  }

  /** `$cond: [{$eq: ['$operator', '+']}, '$amount', 0]`. */
  function CreditOf(r: Row): (c: real)
    ensures r.operator != Some(Credit) ==> c == 0.0
    ensures r.operator == Some(Credit) ==> c == r.amount
  {
    if r.operator == Some(Credit) then r.amount else 0.0
  }

  /** `$cond: [{$eq: ['$operator', '-']}, '$amount', 0]`. */
  function DebitOf(r: Row): (c: real)
    ensures r.operator != Some(Debit) ==> c == 0.0
    ensures r.operator == Some(Debit) ==> c == r.amount
  {
    if r.operator == Some(Debit) then r.amount else 0.0
  }

  /** The sum of the credits of all rows. */
  function CreditTotal(rows: seq<Row>): real
  {
    if |rows| == 0 then 0.0 else CreditTotal(rows[..|rows| - 1]) + CreditOf(rows[|rows| - 1])
  }

  /** The sum of the debits of all rows. */
  function DebitTotal(rows: seq<Row>): real
  {
    if |rows| == 0 then 0.0 else DebitTotal(rows[..|rows| - 1]) + DebitOf(rows[|rows| - 1])
  }

  // ---------------------------------------------------------- the window

  /** The `$match` of the series: the user's records whose ObjectId time
      lies from the first second of day `fromDay` to the last second of day
      `toDay` (UTC).  The record's status is not looked at. */
  predicate InWindow(r: Row, uid: UserId, fromDay: int, toDay: int)
  {
    r.userId == Some(uid) && fromDay * SecondsPerDay <= r.createdAt < (toDay + 1) * SecondsPerDay
  }

  function Window(rows: seq<Row>, uid: UserId, fromDay: int, toDay: int): (w: seq<Row>)
    ensures |w| <= |rows|
  {
    if |rows| == 0 then []
    else
      var init := Window(rows[..|rows| - 1], uid, fromDay, toDay);
      if InWindow(rows[|rows| - 1], uid, fromDay, toDay) then init + [rows[|rows| - 1]] else init
  }

  /** The window holds exactly the rows of the user in the date range. */
  lemma {:induction false} WindowMembers(rows: seq<Row>, uid: UserId, fromDay: int, toDay: int, x: Row)
    ensures x in Window(rows, uid, fromDay, toDay) <==> x in rows && InWindow(x, uid, fromDay, toDay)
  {
    if |rows| > 0 {
      var init := rows[..|rows| - 1];
      assert rows == init + [rows[|rows| - 1]];
      WindowMembers(init, uid, fromDay, toDay, x);
    }
  }

  /** On a window the day of every record lies in the range. */
  lemma WindowDays(r: Row, uid: UserId, fromDay: int, toDay: int)
    requires InWindow(r, uid, fromDay, toDay)
    ensures fromDay <= DayOf(r.createdAt) <= toDay
  {
  }

  // ------------------------------------------------------------ grouping

  /** One `$group` result: the `$dateToString` key, the `$first`
      `createdAt` and the two sums. */
  datatype Bucket = Bucket(key: string, first: Time, amountIn: real, amountOut: real)

  /** The keys of the buckets, in order. */
  function Keys(gs: seq<Bucket>): (r: seq<string>)
    ensures |r| == |gs|
  {
    if |gs| == 0 then [] else [gs[0].key] + Keys(gs[1..])
  }

  /** No two buckets share a key. */
  predicate Distinct(gs: seq<Bucket>)
  {
    |gs| == 0 || (gs[0].key !in Keys(gs[1..]) && Distinct(gs[1..]))
  }

  /** The bucket of key `k`, if there is one. */
  function BucketOf(gs: seq<Bucket>, k: string): Option<Bucket>
  {
    if |gs| == 0 then None else if gs[0].key == k then Some(gs[0]) else BucketOf(gs[1..], k)
  }

  /** What one more record does to its bucket, or the bucket it opens. */
  function Absorb(b: Option<Bucket>, key: string, r: Row): Bucket
  {
    if b.Some? then b.value.(amountIn := b.value.amountIn + CreditOf(r), amountOut := b.value.amountOut + DebitOf(r))
    else Bucket(key, r.createdAt, CreditOf(r), DebitOf(r))
  }

  /** The accumulation of one record by `$group`: the bucket of its key
      adds its amounts, and a new key opens a bucket whose `$first` time is
      the record's. */
  function AddToGroups(gs: seq<Bucket>, key: string, r: Row): (res: seq<Bucket>)
  {
    if |gs| == 0 then [Bucket(key, r.createdAt, CreditOf(r), DebitOf(r))]
    else if gs[0].key == key then [Absorb(Some(gs[0]), key, r)] + gs[1..]
    else [gs[0]] + AddToGroups(gs[1..], key, r)
  }

  /** `$group` over the matched records, in their order. */
  function Groups(rows: seq<Row>, keyOf: Time -> string): seq<Bucket>
  {
    if |rows| == 0 then []
    else
      var last := rows[|rows| - 1];
      AddToGroups(Groups(rows[..|rows| - 1], keyOf), keyOf(last.createdAt), last)
  }

  // The reference definitions a bucket is checked against, key by key.

  /** The `createdAt` of the first row with key `k`. */
  function FirstTime(rows: seq<Row>, keyOf: Time -> string, k: string): Option<Time>
  {
    if |rows| == 0 then None
    else
      var before := FirstTime(rows[..|rows| - 1], keyOf, k);
      if before.Some? then before
      else if keyOf(rows[|rows| - 1].createdAt) == k then Some(rows[|rows| - 1].createdAt)
      else None
  }

  /** The credits of the rows with key `k`. */
  function CreditSum(rows: seq<Row>, keyOf: Time -> string, k: string): real
  {
    if |rows| == 0 then 0.0
    else
      var last := rows[|rows| - 1];
      CreditSum(rows[..|rows| - 1], keyOf, k) + (if keyOf(last.createdAt) == k then CreditOf(last) else 0.0)
  }

  /** The debits of the rows with key `k`. */
  function DebitSum(rows: seq<Row>, keyOf: Time -> string, k: string): real
  {
    if |rows| == 0 then 0.0
    else
      var last := rows[|rows| - 1];
      DebitSum(rows[..|rows| - 1], keyOf, k) + (if keyOf(last.createdAt) == k then DebitOf(last) else 0.0)
  }

  /** The bucket key `k` should have: none when no row has that key. */
  function Summary(rows: seq<Row>, keyOf: Time -> string, k: string): Option<Bucket>
  {
    var t := FirstTime(rows, keyOf, k);
    if t.Some? then Some(Bucket(k, t.value, CreditSum(rows, keyOf, k), DebitSum(rows, keyOf, k))) else None
  }

  lemma {:induction false} KeysAdded(gs: seq<Bucket>, key: string, r: Row, k: string)
    ensures k in Keys(AddToGroups(gs, key, r)) <==> k in Keys(gs) || k == key
  {
    if |gs| > 0 {
      assert Keys(gs) == [gs[0].key] + Keys(gs[1..]);
      if gs[0].key == key {
        assert Keys([Absorb(Some(gs[0]), key, r)] + gs[1..]) == [key] + Keys(gs[1..]) by {
          assert ([Absorb(Some(gs[0]), key, r)] + gs[1..])[1..] == gs[1..];
        }
      } else {
        KeysAdded(gs[1..], key, r, k);
        assert ([gs[0]] + AddToGroups(gs[1..], key, r))[1..] == AddToGroups(gs[1..], key, r);
      }
    }
  }

  lemma {:induction false} BucketOfKeys(gs: seq<Bucket>, k: string)
    ensures BucketOf(gs, k).Some? <==> k in Keys(gs)
  {
    if |gs| > 0 {
      BucketOfKeys(gs[1..], k);
    }
  }

  /** Adding a record keeps the keys distinct, changes only the bucket of
      its key, and that bucket absorbs it. */
  lemma {:induction false} AddToGroupsLookup(gs: seq<Bucket>, key: string, r: Row, k: string)
    requires Distinct(gs)
    ensures Distinct(AddToGroups(gs, key, r))
    ensures BucketOf(AddToGroups(gs, key, r), k) == if k == key then Some(Absorb(BucketOf(gs, k), key, r)) else BucketOf(gs, k)
  {
    if |gs| > 0 {
      var res := AddToGroups(gs, key, r);
      if gs[0].key == key {
        assert res[1..] == gs[1..];
      } else {
        AddToGroupsLookup(gs[1..], key, r, k);
        KeysAdded(gs[1..], key, r, gs[0].key);
        assert res[1..] == AddToGroups(gs[1..], key, r);
      }
    }
  }

  lemma {:induction false} NoRowsNoSums(rows: seq<Row>, keyOf: Time -> string, k: string)
    requires FirstTime(rows, keyOf, k).None?
    ensures CreditSum(rows, keyOf, k) == 0.0 && DebitSum(rows, keyOf, k) == 0.0
  {
    if |rows| > 0 {
      NoRowsNoSums(rows[..|rows| - 1], keyOf, k);
    }
  }

  /** `$group` is right key by key: the buckets have distinct keys, and the
      bucket of key `k` exists exactly when some row has that key, its
      `$first` time is the first such row's and its sums are the sums of
      those rows' credits and debits. */
  lemma {:induction false} GroupsLookup(rows: seq<Row>, keyOf: Time -> string, k: string)
    ensures Distinct(Groups(rows, keyOf))
    ensures BucketOf(Groups(rows, keyOf), k) == Summary(rows, keyOf, k)
  {
    if |rows| > 0 {
      var init := rows[..|rows| - 1];
      var last := rows[|rows| - 1];
      var key := keyOf(last.createdAt);
      GroupsLookup(init, keyOf, k);
      AddToGroupsLookup(Groups(init, keyOf), key, last, k);
      if k == key && FirstTime(init, keyOf, k).None? {
        NoRowsNoSums(init, keyOf, k);
      }
    }
  }

  lemma {:induction false} DistinctBucketOf(gs: seq<Bucket>, i: int)
    requires Distinct(gs) && 0 <= i < |gs|
    ensures BucketOf(gs, gs[i].key) == Some(gs[i])
  {
    if i > 0 {
      DistinctBucketOf(gs[1..], i - 1);
      assert Keys(gs[1..])[i - 1] == gs[i].key by {
        KeysAt(gs[1..], i - 1);
      }
    }
  }

  lemma {:induction false} KeysAt(gs: seq<Bucket>, i: int)
    requires 0 <= i < |gs|
    ensures Keys(gs)[i] == gs[i].key
  {
    if i > 0 {
      KeysAt(gs[1..], i - 1);
    }
  }

  /** Every bucket holds the sums of the rows of its key. */
  lemma GroupSums(rows: seq<Row>, keyOf: Time -> string, i: int)
    requires 0 <= i < |Groups(rows, keyOf)|
    ensures var b := Groups(rows, keyOf)[i];
      FirstTime(rows, keyOf, b.key) == Some(b.first)
      && b.amountIn == CreditSum(rows, keyOf, b.key) && b.amountOut == DebitSum(rows, keyOf, b.key)
  {
    var gs := Groups(rows, keyOf);
    GroupsLookup(rows, keyOf, gs[i].key);
    DistinctBucketOf(gs, i);
  }

  /** The sum of the 'Amount In' of all buckets. */
  function TotalIn(gs: seq<Bucket>): real
  {
    if |gs| == 0 then 0.0 else gs[0].amountIn + TotalIn(gs[1..])
  }

  function TotalOut(gs: seq<Bucket>): real
  {
    if |gs| == 0 then 0.0 else gs[0].amountOut + TotalOut(gs[1..])
  }

  lemma {:induction false} AddToGroupsTotals(gs: seq<Bucket>, key: string, r: Row)
    ensures TotalIn(AddToGroups(gs, key, r)) == TotalIn(gs) + CreditOf(r)
    ensures TotalOut(AddToGroups(gs, key, r)) == TotalOut(gs) + DebitOf(r)
  {
    if |gs| > 0 {
      var res := AddToGroups(gs, key, r);
      if gs[0].key == key {
        assert res[1..] == gs[1..];
      } else {
        AddToGroupsTotals(gs[1..], key, r);
        assert res[1..] == AddToGroups(gs[1..], key, r);
      }
    }
  }

  /** Grouping loses and invents no amount: the buckets' sums add up to the
      credits and debits of all matched records. */
  lemma {:induction false} GroupsTotals(rows: seq<Row>, keyOf: Time -> string)
    ensures TotalIn(Groups(rows, keyOf)) == CreditTotal(rows)
    ensures TotalOut(Groups(rows, keyOf)) == DebitTotal(rows)
  {
    if |rows| > 0 {
      var init := rows[..|rows| - 1];
      var last := rows[|rows| - 1];
      GroupsTotals(init, keyOf);
      AddToGroupsTotals(Groups(init, keyOf), keyOf(last.createdAt), last);
    }
  }

  // ------------------------------------------------------------- sorting

  predicate SortedByFirst(s: seq<Bucket>)
  {
    forall i, j :: 0 <= i < j < |s| ==> s[i].first <= s[j].first
  }

  function InsertBucket(b: Bucket, s: seq<Bucket>): (r: seq<Bucket>)
    ensures multiset(r) == multiset(s) + multiset{b}
  {
    if |s| == 0 then [b]
    else if b.first <= s[0].first then [b] + s
    else
      assert s == [s[0]] + s[1..];
      [s[0]] + InsertBucket(b, s[1..])
  }

  lemma {:induction false} InsertBucketSorted(b: Bucket, s: seq<Bucket>)
    requires SortedByFirst(s)
    ensures SortedByFirst(InsertBucket(b, s))
  {
    if |s| > 0 && b.first > s[0].first {
      var rest := InsertBucket(b, s[1..]);
      InsertBucketSorted(b, s[1..]);
      forall k | 0 <= k < |rest| ensures s[0].first <= rest[k].first {
        assert rest[k] in multiset(rest);
        if rest[k] != b {
          assert rest[k] in multiset(s[1..]);
          var j :| 0 <= j < |s[1..]| && s[1..][j] == rest[k];
          assert s[j + 1] == rest[k];
        }
      }
    }
  }

  /** `$sort: {date: 1}`: ascending by the `$first` time.  Buckets with the
      same time keep their order here; Mongo leaves that order open. */
  function SortBuckets(s: seq<Bucket>): (r: seq<Bucket>)
    ensures SortedByFirst(r)
    ensures multiset(r) == multiset(s)
  {
    if |s| == 0 then []
    else
      assert s == s[..|s| - 1] + [s[|s| - 1]];
      var sorted := SortBuckets(s[..|s| - 1]);
      InsertBucketSorted(s[|s| - 1], sorted);
      InsertBucket(s[|s| - 1], sorted)
  }

  // ---------------------------------------------------------- flattening

  /** The `reduce` of the service: every bucket becomes its 'Amount In'
      record followed by its 'Amount Out' record. */
  function Flattened(bs: seq<Bucket>): (r: seq<Point>)
    ensures |r| == 2 * |bs|
  {
    if |bs| == 0 then []
    else
      var b := bs[|bs| - 1];
      Flattened(bs[..|bs| - 1]) + [Point(b.key, AmountIn, b.amountIn), Point(b.key, AmountOut, b.amountOut)]
  }

  /** Two records per bucket, in bucket order, In before Out, each carrying
      the bucket's key and sum. */
  lemma {:induction false} FlattenedAt(bs: seq<Bucket>, i: int)
    requires 0 <= i < |bs|
    ensures Flattened(bs)[2 * i] == Point(bs[i].key, AmountIn, bs[i].amountIn)
    ensures Flattened(bs)[2 * i + 1] == Point(bs[i].key, AmountOut, bs[i].amountOut)
  {
    var init := bs[..|bs| - 1];
    if i < |init| {
      FlattenedAt(init, i);
    }
  }

  /** The flattened series has a record for a date exactly when some bucket
      has that key. */
  lemma {:induction false} FlattenedDates(bs: seq<Bucket>, k: string)
    ensures k in Dates(Flattened(bs)) <==> k in Keys(bs)
  {
    if |bs| > 0 {
      var init := bs[..|bs| - 1];
      var b := bs[|bs| - 1];
      var f := Flattened(init);
      var added := [Point(b.key, AmountIn, b.amountIn), Point(b.key, AmountOut, b.amountOut)];
      FlattenedDates(init, k);
      KeysSnoc(init, b);
      assert bs == init + [b];
      if k in Dates(f + added) {
        var p: Point :| p in f + added && p.date == k;
        if p in f {
          assert k in Dates(f);
        }
      }
      if k in Dates(f) {
        var p: Point :| p in f && p.date == k;
        assert p in f + added;
      }
      if k == b.key {
        assert added[0] in f + added;
      }
    }
  }

  lemma {:induction false} KeysSnoc(bs: seq<Bucket>, b: Bucket)
    ensures Keys(bs + [b]) == Keys(bs) + [b.key]
  {
    if |bs| > 0 {
      assert (bs + [b])[1..] == bs[1..] + [b];
      KeysSnoc(bs[1..], b);
    }
  }

  /** The service's `reduce`, pushing into the accumulator. */
  method Flatten(bs: seq<Bucket>) returns (acc: seq<Point>)
    ensures acc == Flattened(bs)
  {
    acc := [];
    for i := 0 to |bs|
      invariant acc == Flattened(bs[..i])
    {
      assert bs[..i + 1][..i] == bs[..i];
      acc := acc + [Point(bs[i].key, AmountIn, bs[i].amountIn), Point(bs[i].key, AmountOut, bs[i].amountOut)];
    }
    assert bs[..|bs|] == bs;
  }

  // ------------------------------------------------------------- format

  datatype Granularity = Daily | Monthly | Yearly

  /** The `$dateToString` format of each granularity. */
  function FormatText(g: Granularity): string
  {
    match g
    case Daily => "%Y-%m-%d"
    case Monthly => "%Y-%m"
    case Yearly => "%Y"
  }

  /** The bucket key `$dateToString` writes for a time. */
  function KeyFunction(g: Granularity): Time -> string
  {
    match g
    case Daily => t => DayLabel(DayOf(t))
    case Monthly => t => MonthKey(DayOf(t))
    case Yearly => t => YearKey(DayOf(t))
  }

  /** The grouping the series uses for a range of `diff` days (None when a
      bound is not a date, so that `diff` is NaN). */
  function GranularityOf(diff: Option<int>): (g: Granularity)
    ensures g != Yearly
    ensures g == Monthly <==> diff.Some? && diff.value > 45
  {
    if diff.Some? && diff.value > 45 then Monthly else Daily
  }

  /** The service's choice of `format`: daily, yearly past 365 days, then
      monthly past 45 days; the monthly test comes last, so a yearly series
      is never produced. */
  method ChooseFormat(diff: Option<int>) returns (format: Granularity)
    ensures format == GranularityOf(diff)
  {
    format := Daily;
    if diff.Some? && diff.value > 365 {
      format := Yearly;
    }
    if diff.Some? && diff.value > 45 {
      format := Monthly;
    }
  }

  // ------------------------------------------------------------ the query

  /** The `from` and `to` query texts; either may be absent. */
  datatype Query = Query(from: Option<string>, upTo: Option<string>)

  /** `query.from` is truthy: present and not empty. */
  predicate Given(s: Option<string>)
  {
    s.Some? && s.value != ""
  }

  /** A bound's text: the query's, or the day label of its default day. */
  function BoundText(s: Option<string>, defaultDay: int): string
  {
    if Given(s) then s.value else DayLabel(defaultDay)
  }

  /** A bound's day: the query text read as a date, or the default day
      whose label the service wrote. */
  function BoundDay(s: Option<string>, defaultDay: int, parseDay: string -> Option<int>): Option<int>
  {
    if Given(s) then parseDay(s.value) else Some(defaultDay)
  }

  /** Both bounds are dates (the ObjectIds of the range are built from
      them). */
  predicate Defined(q: Query, today: int, parseDay: string -> Option<int>)
  {
    BoundDay(q.from, today - 7, parseDay).Some? && BoundDay(q.upTo, today, parseDay).Some?
  }

  /** The series before the gap-filling: the user's records of the range,
      grouped by `g`'s key, sorted by their first time and flattened. */
  function Series(entries: seq<Entry>, uid: UserId, fromDay: int, toDay: int, g: Granularity): seq<Point>
  {
    Flattened(SortBuckets(Groups(Window(Rows(entries), uid, fromDay, toDay), KeyFunction(g))))
  }

  /** `statisticAmountInAmountOut(user, query)` on the stored records, with
      today's day number and the service's way of reading a date text. */
  function Report(entries: seq<Entry>, uid: UserId, q: Query, today: int, parseDay: string -> Option<int>): seq<Point>
    requires Defined(q, today, parseDay)
  {
    var fromDay := BoundDay(q.from, today - 7, parseDay).value;
    var toDay := BoundDay(q.upTo, today, parseDay).value;
    var g := GranularityOf(Some(toDay - fromDay));
    var series := Series(entries, uid, fromDay, toDay, g);
    match g
    case Monthly => MonthsFilled(series, BoundText(q.from, today - 7), BoundText(q.upTo, today))
    case Daily => DaysFilled(series, fromDay, toDay)
    case Yearly => series
  }

  // ------------------------------------------------------- report lemmas

  /** The series does not look at the status of a record: records that
      differ only in status give the same report (PENDING and FAILED
      records are counted). */
  lemma ReportIgnoresStatus(entries: seq<Entry>, other: seq<Entry>, uid: UserId, q: Query, today: int, parseDay: string -> Option<int>)
    requires Defined(q, today, parseDay)
    requires |other| == |entries|
    requires forall i :: 0 <= i < |entries| ==> other[i] == entries[i].(status := other[i].status)
    ensures Report(other, uid, q, today, parseDay) == Report(entries, uid, q, today, parseDay)
  {
    assert Rows(other) == Rows(entries);
  }

  /** Every bucket of the sorted groups contributes its two records, with
      the sums of the matched records of its key. */
  lemma SeriesSums(rows: seq<Row>, keyOf: Time -> string, i: int)
    requires 0 <= i < |SortBuckets(Groups(rows, keyOf))|
    ensures var b := SortBuckets(Groups(rows, keyOf))[i];
      && Flattened(SortBuckets(Groups(rows, keyOf)))[2 * i] == Point(b.key, AmountIn, CreditSum(rows, keyOf, b.key))
      && Flattened(SortBuckets(Groups(rows, keyOf)))[2 * i + 1] == Point(b.key, AmountOut, DebitSum(rows, keyOf, b.key))
  {
    var gs := Groups(rows, keyOf);
    var sorted := SortBuckets(gs);
    FlattenedAt(sorted, i);
    assert sorted[i] in multiset(gs);
    var j :| 0 <= j < |gs| && gs[j] == sorted[i];
    GroupSums(rows, keyOf, j);
  }

  /** A range of more than 45 days is reported by month, any other by day. */
  lemma ReportGranularity(entries: seq<Entry>, uid: UserId, q: Query, today: int, parseDay: string -> Option<int>)
    requires Defined(q, today, parseDay)
    ensures var fromDay := BoundDay(q.from, today - 7, parseDay).value;
      var toDay := BoundDay(q.upTo, today, parseDay).value;
      var series := Series(entries, uid, fromDay, toDay, GranularityOf(Some(toDay - fromDay)));
      Report(entries, uid, q, today, parseDay) ==
        if toDay - fromDay > 45 then MonthsFilled(Series(entries, uid, fromDay, toDay, Monthly), BoundText(q.from, today - 7), BoundText(q.upTo, today))
        else DaysFilled(Series(entries, uid, fromDay, toDay, Daily), fromDay, toDay)
  {
  }

  /** With no bounds given the report is the daily series of the last seven
      days and today, filled day by day. */
  lemma DefaultReport(entries: seq<Entry>, uid: UserId, today: int, parseDay: string -> Option<int>)
    ensures Defined(Query(None, None), today, parseDay)
    ensures Report(entries, uid, Query(None, None), today, parseDay) ==
      DaysFilled(Series(entries, uid, today - 7, today, Daily), today - 7, today)
  {
    ReportGranularity(entries, uid, Query(None, None), today, parseDay);
  }

  /** A daily report has a record for every day of its range. */
  lemma DailyReportHasDay(entries: seq<Entry>, uid: UserId, q: Query, today: int, parseDay: string -> Option<int>, d: int)
    requires Defined(q, today, parseDay)
    requires BoundDay(q.upTo, today, parseDay).value - BoundDay(q.from, today - 7, parseDay).value <= 45
    requires BoundDay(q.from, today - 7, parseDay).value <= d <= BoundDay(q.upTo, today, parseDay).value
    ensures exists p :: p in Report(entries, uid, q, today, parseDay) && p.date == DayLabel(d)
  {
    var fromDay := BoundDay(q.from, today - 7, parseDay).value;
    var toDay := BoundDay(q.upTo, today, parseDay).value;
    var series := Series(entries, uid, fromDay, toDay, Daily);
    ReportGranularity(entries, uid, q, today, parseDay);
    LabelsCovered(series, fromDay, toDay, DayLabel, d);
  }

  /** A record of a daily report is either a record of the series or a zero
      record of a day of the range. */
  lemma DailyReportRecord(entries: seq<Entry>, uid: UserId, q: Query, today: int, parseDay: string -> Option<int>, p: Point)
    requires Defined(q, today, parseDay)
    requires BoundDay(q.upTo, today, parseDay).value - BoundDay(q.from, today - 7, parseDay).value <= 45
    requires p in Report(entries, uid, q, today, parseDay)
    ensures var fromDay := BoundDay(q.from, today - 7, parseDay).value;
      var toDay := BoundDay(q.upTo, today, parseDay).value;
      p in Series(entries, uid, fromDay, toDay, Daily) ||
      (p.amount == 0.0 && exists d :: fromDay <= d <= toDay && p.date == DayLabel(d))
  {
    var fromDay := BoundDay(q.from, today - 7, parseDay).value;
    var toDay := BoundDay(q.upTo, today, parseDay).value;
    var series := Series(entries, uid, fromDay, toDay, Daily);
    ReportGranularity(entries, uid, q, today, parseDay);
    assert p in Filled(series, Labels(fromDay, toDay, DayLabel));
    if p !in series {
      LabelsOnlyAdded(series, fromDay, toDay, DayLabel, p);
    }
  }

  /** A daily report keeps every record of the series. */
  lemma DailyReportKeeps(entries: seq<Entry>, uid: UserId, q: Query, today: int, parseDay: string -> Option<int>, p: Point)
    requires Defined(q, today, parseDay)
    requires BoundDay(q.upTo, today, parseDay).value - BoundDay(q.from, today - 7, parseDay).value <= 45
    requires p in Series(entries, uid, BoundDay(q.from, today - 7, parseDay).value, BoundDay(q.upTo, today, parseDay).value, Daily)
    ensures p in Report(entries, uid, q, today, parseDay)
  {
    var fromDay := BoundDay(q.from, today - 7, parseDay).value;
    var toDay := BoundDay(q.upTo, today, parseDay).value;
    ReportGranularity(entries, uid, q, today, parseDay);
    FilledKeeps(Series(entries, uid, fromDay, toDay, Daily), DayLabels(fromDay, toDay));
  }

  /** A monthly report whose bounds were written as `YYYY-MM-DD` (years 0
      to 9999) has a record for every month from the first bound's month to
      the second's. */
  lemma MonthlyReportCoversMonths(entries: seq<Entry>, uid: UserId, q: Query, today: int, parseDay: string -> Option<int>,
                                  a: int, b: int, y: int, m: int)
    requires Defined(q, today, parseDay)
    requires BoundDay(q.upTo, today, parseDay).value - BoundDay(q.from, today - 7, parseDay).value > 45
    requires BoundText(q.from, today - 7) == DayLabel(a) && BoundText(q.upTo, today) == DayLabel(b)
    requires 0 <= CivilFromDays(a).year <= 9999 && 0 <= CivilFromDays(b).year <= 9999
    requires 1 <= CivilFromDays(a).month <= 12 && 1 <= CivilFromDays(b).month <= 12 && 1 <= m <= 12
    requires CivilFromDays(a).year * 12 + CivilFromDays(a).month <= y * 12 + m <= CivilFromDays(b).year * 12 + CivilFromDays(b).month
    ensures exists p :: p in Report(entries, uid, q, today, parseDay) && p.date == MonthLabel(y, m)
  {
    var fromDay := BoundDay(q.from, today - 7, parseDay).value;
    var toDay := BoundDay(q.upTo, today, parseDay).value;
    var series := Series(entries, uid, fromDay, toDay, Monthly);
    ReportGranularity(entries, uid, q, today, parseDay);
    DayLabelFields(a);
    DayLabelFields(b);
    MonthsFilledCover(series, DayLabel(a), DayLabel(b), CivilFromDays(a).year, CivilFromDays(a).month,
                      CivilFromDays(b).year, CivilFromDays(b).month, y, m);
  }

  // ------------------------------------------------------------- totals

  /** The one element `statisticTotal` returns. */
  datatype Totals = Totals(amountIn: real, amountOut: real)

  /** The `$match` of the totals: the user's SUCCEEDED records. */
  function Settled(es: seq<Entry>, uid: UserId): seq<Entry>
  {
    if |es| == 0 then []
    else
      var init := Settled(es[..|es| - 1], uid);
      var e := es[|es| - 1];
      if e.userId == Some(uid) && e.status == Succeeded then init + [e] else init
  }

  /** `statisticTotal(user)`: the sums of the group over the user's
      SUCCEEDED records, or zeros when the match is empty and the
      pipeline returns no group. */
  function TotalsOf(es: seq<Entry>, uid: UserId): Totals
  {
    var matched := Rows(Settled(es, uid));
    if |matched| == 0 then Totals(0.0, 0.0) else Totals(CreditTotal(matched), DebitTotal(matched))
  }

  lemma RowsSnoc(es: seq<Entry>, e: Entry)
    ensures Rows(es + [e]) == Rows(es) + [RowOf(e)]
  {
  }

  /** One more record changes the totals only when it is a SUCCEEDED record
      of the user, and then adds its credit to 'Amount In' and its debit to
      'Amount Out'. */
  lemma TotalsAppend(es: seq<Entry>, e: Entry, uid: UserId)
    ensures TotalsOf(es + [e], uid) ==
      if e.userId == Some(uid) && e.status == Succeeded
      then Totals(TotalsOf(es, uid).amountIn + CreditOf(RowOf(e)), TotalsOf(es, uid).amountOut + DebitOf(RowOf(e)))
      else TotalsOf(es, uid)
  {
    assert (es + [e])[..|es|] == es;
    var s := Settled(es, uid);
    if e.userId == Some(uid) && e.status == Succeeded {
      RowsSnoc(s, e);
      var matched := Rows(s) + [RowOf(e)];
      assert matched[..|matched| - 1] == Rows(s);
    }
  }

  /** A user with no SUCCEEDED record has zero totals. */
  lemma {:induction false} TotalsWithoutSettled(es: seq<Entry>, uid: UserId)
    requires forall i :: 0 <= i < |es| ==> es[i].userId != Some(uid) || es[i].status != Succeeded
    ensures TotalsOf(es, uid) == Totals(0.0, 0.0)
  {
    if |es| > 0 {
      var init := es[..|es| - 1];
      TotalsWithoutSettled(init, uid);
      assert es == init + [es[|es| - 1]];
      TotalsAppend(init, es[|es| - 1], uid);
    }
  }

  // ------------------------------------------------------------ service

  class StatisticService {
    const repo: AppRepository

    constructor (repo: AppRepository)
      ensures this.repo == repo
    {
      this.repo := repo;
    }

    /** `statisticAmountInAmountOut(user, query)` at time `now`, reading a
        date text with `parseDay`. */
    method StatisticAmountInAmountOut(uid: UserId, query: Query, now: Time, parseDay: string -> Option<int>)
      returns (statistic: seq<Point>)
      requires Defined(query, DayOf(now), parseDay)
      ensures statistic == Report(repo.entries, uid, query, DayOf(now), parseDay)
    {
      var today := DayOf(now);
      var from := query.from;
      var upTo := query.upTo;
      if !Given(from) {
        from := Some(DayLabel(today - 7));
      }
      if !Given(upTo) {
        upTo := Some(DayLabel(today));
      }
      var fromDay := BoundDay(query.from, today - 7, parseDay).value;
      var toDay := BoundDay(query.upTo, today, parseDay).value;
      var format := ChooseFormat(Some(toDay - fromDay));
      var buckets := SortBuckets(Groups(Window(Rows(repo.entries), uid, fromDay, toDay), KeyFunction(format)));
      statistic := Flatten(buckets);
      ghost var series := Series(repo.entries, uid, fromDay, toDay, format);
      assert statistic == series;
      ReportGranularity(repo.entries, uid, query, today, parseDay);
      if format == Monthly {
        assert from.value == BoundText(query.from, today - 7) && upTo.value == BoundText(query.upTo, today);
        statistic := FillMissingMonths(statistic, from.value, upTo.value);
        assert statistic == MonthsFilled(series, BoundText(query.from, today - 7), BoundText(query.upTo, today));
      }
      if format == Daily {
        statistic := FillMissingDays(statistic, fromDay, toDay);
        assert statistic == DaysFilled(series, fromDay, toDay);
      }
    }

    /** `statisticTotal(user)`: always a single element. */
    method StatisticTotal(uid: UserId) returns (r: seq<Totals>)
      ensures r == [TotalsOf(repo.entries, uid)]
    {
      var matched := Rows(Settled(repo.entries, uid));
      if |matched| > 0 {
        r := [Totals(CreditTotal(matched), DebitTotal(matched))];
      } else {
        r := [Totals(0.0, 0.0)];
      }
    }
  }
}
