/** Sales figures over the Closing and Closing MP sheets: the same-day
    totals shown in every confirmation (`get_combined_stats`), the daily,
    weekly and monthly per-operator buckets of the evening report, and the
    ranked sections the report prints. Sheets arrive as the records a read
    returned; `None` stands for a read that raised. */
module Report {
  import opened Outcomes
  import opened Text
  import opened Dates
  import opened Intake

  /** `int(row.get(key, 0) or 0)` for the cell's text: an absent or empty
      cell counts 0, any other text goes through `int()`, which may fail. */
  function Count(cell: string): Option<int>
  {
    if cell == [] then Some(0) else PyInt(cell)
  }

  const BoxColumn: string := "QTY BOX"
  const SachetColumn: string := "QTY SACHET"

  function BoxCount(row: Row): Option<int> { Count(Cell(row, BoxColumn)) }

  function SachetCount(row: Row): Option<int> { Count(Cell(row, SachetColumn)) }

  // ---------------------------------------------------------------------
  // get_combined_stats
  // ---------------------------------------------------------------------

  datatype Totals = Totals(invoices: int, box: int, sachet: int)

  const NoTotals: Totals := Totals(0, 0, 0)

  /** A row of the day `todayText` for the operator, or for anyone when no
      operator is given. */
  predicate SameDay(row: Row, todayText: string, operator: string)
  {
    StartsWith(Cell(row, "TANGGAL INPUT"), todayText) && (operator == [] || Cell(row, "CUSTOMER SERVICE") == operator)
  }

  /** The outcome of one row: the sheet goes on, or an `int()` failure
      ends it. */
  datatype TallyStep = Continue(totals: Totals) | Halt(totals: Totals)

  /** One row of the tally. The invoice is counted before the box cell is
      read, and the box before the sachet cell; a cell `int()` cannot read
      raises, which ends the sheet with what was added so far. */
  function RowTally(row: Row, todayText: string, operator: string, t: Totals): (r: TallyStep)
    ensures r.totals.invoices == t.invoices + (if SameDay(row, todayText, operator) then 1 else 0)
    ensures r.Halt? <==> SameDay(row, todayText, operator) && !Readable(row)
    ensures !SameDay(row, todayText, operator) ==> r == Continue(t)
    ensures SameDay(row, todayText, operator) && Readable(row) ==>
      r == Continue(Totals(t.invoices + 1, t.box + BoxCount(row).value, t.sachet + SachetCount(row).value))
  {
    if !SameDay(row, todayText, operator) then Continue(t)
    else
      var counted := t.(invoices := t.invoices + 1);
      match BoxCount(row)
      case None => Halt(counted)
      case Some(b) =>
        var boxed := counted.(box := counted.box + b);
        match SachetCount(row)
        case None => Halt(boxed)
        case Some(s) => Continue(boxed.(sachet := boxed.sachet + s))
  }

  /** The totals after one sheet's rows, starting from `t`. */
  function SheetTally(rows: seq<Row>, todayText: string, operator: string, t: Totals): Totals
  {
    if |rows| == 0 then t
    else
      match RowTally(rows[0], todayText, operator, t)
      case Halt(u) => u
      case Continue(u) => SheetTally(rows[1..], todayText, operator, u)
  }

  /** The sheets in turn; one whose read raised adds nothing. */
  function TallySheets(sheets: seq<Option<seq<Row>>>, todayText: string, operator: string, t: Totals): Totals
  {
    if |sheets| == 0 then t
    else
      var next := if sheets[0].Some? then SheetTally(sheets[0].value, todayText, operator, t) else t;
      TallySheets(sheets[1..], todayText, operator, next)
  }

  /** `get_combined_stats(operator)` on `today`; an empty operator counts
      everyone. */
  function CombinedStats(sheets: seq<Option<seq<Row>>>, today: Date, operator: string): Totals
  {
    TallySheets(sheets, FormatShort(today), operator, NoTotals)
  }

  method GetCombinedStats(sheets: seq<Option<seq<Row>>>, today: Date, operator: string) returns (stats: Totals)
    ensures stats == CombinedStats(sheets, today, operator)
  {
    var todayText := FormatShort(today);
    stats := NoTotals;
    var k := 0;
    while k < |sheets|
      invariant 0 <= k <= |sheets|
      invariant TallySheets(sheets[k..], todayText, operator, stats) == CombinedStats(sheets, today, operator)
    {
      assert sheets[k..][1..] == sheets[k + 1..];
      if sheets[k].Some? {
        stats := TallyRows(sheets[k].value, todayText, operator, stats);
      }
      k := k + 1;
    }
  }

  /** The `try` around one sheet's rows: the loop stops at the first row
      whose cells `int()` cannot read. */
  method TallyRows(rows: seq<Row>, todayText: string, operator: string, start: Totals) returns (stats: Totals)
    ensures stats == SheetTally(rows, todayText, operator, start)
  {
    stats := start;
    var i := 0;
    var failed := false;
    while i < |rows| && !failed
      invariant 0 <= i <= |rows|
      invariant failed ==> stats == SheetTally(rows, todayText, operator, start)
      invariant !failed ==> SheetTally(rows[i..], todayText, operator, stats) == SheetTally(rows, todayText, operator, start)
    {
      ghost var before := stats;
      stats, failed := TallyRow(rows[i], todayText, operator, stats);
      SheetTallyAt(rows, i, todayText, operator, before);
      i := i + 1;
    }
    if !failed {
      assert rows[i..] == [];
    }
  }

  /** The body of the row loop. */
  method TallyRow(row: Row, todayText: string, operator: string, t: Totals) returns (stats: Totals, failed: bool)
    ensures RowTally(row, todayText, operator, t) == if failed then Halt(stats) else Continue(stats)
  {
    stats := t;
    failed := false;
    if StartsWith(Cell(row, "TANGGAL INPUT"), todayText) {
      if operator == [] || Cell(row, "CUSTOMER SERVICE") == operator {
        stats := stats.(invoices := stats.invoices + 1);
        var b := BoxCount(row);
        if b.None? {
          failed := true;
        } else {
          stats := stats.(box := stats.box + b.value);
          var s := SachetCount(row);
          if s.None? {
            failed := true;
          } else {
            stats := stats.(sachet := stats.sachet + s.value);
          }
        }
      }
    }
  }

  /** The tally from row `i` on takes row `i` and then the rest. */
  lemma SheetTallyAt(rows: seq<Row>, i: nat, todayText: string, operator: string, t: Totals)
    requires i < |rows|
    ensures SheetTally(rows[i..], todayText, operator, t) ==
      match RowTally(rows[i], todayText, operator, t)
      case Halt(u) => u
      case Continue(u) => SheetTally(rows[i + 1..], todayText, operator, u)
  {
    assert rows[i..][0] == rows[i] && rows[i..][1..] == rows[i + 1..];
  }

  /** The rows a sheet's tally looks at. */
  function SameDayRows(rows: seq<Row>, todayText: string, operator: string): (r: seq<Row>)
    ensures |r| <= |rows|
    ensures forall row :: row in r ==> row in rows && SameDay(row, todayText, operator)
  {
    if |rows| == 0 then []
    else (if SameDay(rows[0], todayText, operator) then [rows[0]] else []) + SameDayRows(rows[1..], todayText, operator)
  }

  predicate Readable(row: Row)
  {
    BoxCount(row).Some? && SachetCount(row).Some?
  }

  /** One invoice and the row's box and sachet cells, where readable. */
  function Figures(row: Row): Totals
  {
    Totals(1, if BoxCount(row).Some? then BoxCount(row).value else 0, if SachetCount(row).Some? then SachetCount(row).value else 0)
  }

  /** The figures of all the rows. */
  function Sum(rows: seq<Row>): Totals
  {
    if |rows| == 0 then NoTotals else Plus(Sum(rows[1..]), Figures(rows[0]))
  }

  /** One invoice per row. */
  lemma {:induction false} SumInvoices(rows: seq<Row>)
    ensures Sum(rows).invoices == |rows|
    decreases |rows|
  {
    if |rows| > 0 {
      SumInvoices(rows[1..]);
    }
  }

  function Plus(a: Totals, b: Totals): Totals
  {
    Totals(a.invoices + b.invoices, a.box + b.box, a.sachet + b.sachet)
  }

  /** When every counted row is readable, a sheet adds one invoice per row
      of the day (and operator) and exactly those rows' quantities. */
  lemma {:induction false} SheetTallyReadable(rows: seq<Row>, todayText: string, operator: string, t: Totals)
    requires forall k :: 0 <= k < |SameDayRows(rows, todayText, operator)| ==> Readable(SameDayRows(rows, todayText, operator)[k])
    ensures SheetTally(rows, todayText, operator, t) == Plus(t, Sum(SameDayRows(rows, todayText, operator)))
    decreases |rows|
  {
    if rows != [] {
      var all := SameDayRows(rows, todayText, operator);
      var rest := SameDayRows(rows[1..], todayText, operator);
      var u := RowTally(rows[0], todayText, operator, t).totals;
      if SameDay(rows[0], todayText, operator) {
        assert all == [rows[0]] + rest;
        assert forall k :: 0 <= k < |rest| ==> rest[k] == all[k + 1];
        assert Readable(all[0]);
        SheetTallyReadable(rows[1..], todayText, operator, u);
      } else {
        assert all == rest;
        SheetTallyReadable(rows[1..], todayText, operator, u);
      }
    }
  }

  /** Whatever the cells hold, a sheet counts at most one invoice per row
      of the day. */
  lemma {:induction false} SheetTallyInvoices(rows: seq<Row>, todayText: string, operator: string, t: Totals)
    ensures t.invoices <= SheetTally(rows, todayText, operator, t).invoices <= t.invoices + |SameDayRows(rows, todayText, operator)|
    decreases |rows|
  {
    if rows != [] {
      var rest := SameDayRows(rows[1..], todayText, operator);
      var step := RowTally(rows[0], todayText, operator, t);
      if SameDay(rows[0], todayText, operator) {
        assert SameDayRows(rows, todayText, operator) == [rows[0]] + rest;
      } else {
        assert SameDayRows(rows, todayText, operator) == rest;
      }
      if step.Continue? {
        SheetTallyInvoices(rows[1..], todayText, operator, step.totals);
      }
    }
  }

  /** A sheet whose read raised leaves the totals of the other. */
  lemma CombinedStatsSkipsUnread(rows: seq<Row>, today: Date, operator: string)
    ensures CombinedStats([None, Some(rows)], today, operator) == SheetTally(rows, FormatShort(today), operator, NoTotals)
    ensures CombinedStats([Some(rows), None], today, operator) == SheetTally(rows, FormatShort(today), operator, NoTotals)
  {
    var txt := FormatShort(today);
    assert [None, Some(rows)][1..] == [Some(rows)];
    assert [Some(rows), None][1..] == [None];
    assert TallySheets([Some(rows)], txt, operator, NoTotals) == TallySheets([], txt, operator, SheetTally(rows, txt, operator, NoTotals));
    assert TallySheets([None], txt, operator, SheetTally(rows, txt, operator, NoTotals)) == TallySheets([], txt, operator, SheetTally(rows, txt, operator, NoTotals));
  }

  // ---------------------------------------------------------------------
  // The bucket loop of send_sales_report
  // ---------------------------------------------------------------------

  /** One operator's raw figures: boxes, sachets and invoices. */
  datatype Counts = Counts(b: int, s: int, i: int)

  /** A `defaultdict` keyed by operator, in insertion order. */
  type Bucket = seq<(string, Counts)>

  function Names(bk: Bucket): (r: seq<string>)
    ensures |r| == |bk|
    ensures forall k :: 0 <= k < |bk| ==> r[k] == bk[k].0
  {
    if |bk| == 0 then [] else [bk[0].0] + Names(bk[1..])
  }

  predicate UniqueNames(bk: Bucket)
  {
    forall j, k :: 0 <= j < k < |bk| ==> bk[j].0 != bk[k].0
  }

  /** The figures kept for `name`, zero when it has none. */
  function Lookup(bk: Bucket, name: string): Counts
  {
    if |bk| == 0 then Counts(0, 0, 0) else if bk[0].0 == name then bk[0].1 else Lookup(bk[1..], name)
  }

  /** `bucket[name]['b'] += box; …['s'] += sachet; …['i'] += 1`: a name
      met for the first time is added at the end. */
  function Credit(bk: Bucket, name: string, box: int, sachet: int): Bucket
  {
    if |bk| == 0 then [(name, Counts(box, sachet, 1))]
    else if bk[0].0 == name then [(name, Counts(bk[0].1.b + box, bk[0].1.s + sachet, bk[0].1.i + 1))] + bk[1..]
    else [bk[0]] + Credit(bk[1..], name, box, sachet)
  }

  /** Crediting adds to `name`'s figures only. */
  lemma {:induction false} CreditLookup(bk: Bucket, name: string, box: int, sachet: int)
    ensures var r := Credit(bk, name, box, sachet);
      && Lookup(r, name) == Counts(Lookup(bk, name).b + box, Lookup(bk, name).s + sachet, Lookup(bk, name).i + 1)
      && forall other :: other != name ==> Lookup(r, other) == Lookup(bk, other)
    decreases |bk|
  {
    if bk != [] && bk[0].0 != name {
      CreditLookup(bk[1..], name, box, sachet);
    }
  }

  /** Crediting keeps the order of the names, a new one going last. */
  lemma {:induction false} CreditNames(bk: Bucket, name: string, box: int, sachet: int)
    ensures Names(Credit(bk, name, box, sachet)) == if name in Names(bk) then Names(bk) else Names(bk) + [name]
    decreases |bk|
  {
    if bk != [] {
      var r := Credit(bk, name, box, sachet);
      assert Names(bk) == [bk[0].0] + Names(bk[1..]);
      if bk[0].0 != name {
        CreditNames(bk[1..], name, box, sachet);
        var tail := Credit(bk[1..], name, box, sachet);
        assert r == [bk[0]] + tail;
        assert Names(r) == [bk[0].0] + Names(tail);
      } else {
        assert Names(r) == [name] + Names(bk[1..]);
      }
    }
  }

  /** So it keeps the names unique. */
  lemma CreditUnique(bk: Bucket, name: string, box: int, sachet: int)
    requires UniqueNames(bk)
    ensures UniqueNames(Credit(bk, name, box, sachet))
  {
    var r := Credit(bk, name, box, sachet);
    CreditNames(bk, name, box, sachet);
    forall j, k | 0 <= j < k < |r|
      ensures r[j].0 != r[k].0
    {
      assert r[j].0 == Names(r)[j] && r[k].0 == Names(r)[k];
      if k < |bk| {
        assert Names(r)[j] == bk[j].0 && Names(r)[k] == bk[k].0;
      } else {
        assert Names(r)[j] == Names(bk)[j];
      }
    }
  }

  lemma {:induction false} LookupAbsent(bk: Bucket, name: string)
    requires forall k :: 0 <= k < |bk| ==> bk[k].0 != name
    ensures Lookup(bk, name) == Counts(0, 0, 0)
    decreases |bk|
  {
    if bk != [] {
      LookupAbsent(bk[1..], name);
    }
  }

  /** One sheet row as the report reads it: the TANGGAL date, the operator
      and both quantities. */
  datatype Sale = Sale(date: Date, operator: string, box: int, sachet: int)

  const BrandPrefix: string := "DOORASI "

  /** `str(row.get("CUSTOMER SERVICE", "Unknown")).replace("DOORASI ", "").strip()` */
  function OperatorOf(row: Row): string
  {
    var shown := if "CUSTOMER SERVICE" in row then row["CUSTOMER SERVICE"] else "Unknown";
    Strip(ReplaceAll(shown, BrandPrefix, ""))
  }

  /** The row's sale, or `None` when its date or a quantity does not parse
      (the `except (ValueError, TypeError): continue` of the source). */
  function ReadSale(row: Row): (r: Option<Sale>)
    ensures r.Some? ==> ValidDate(r.value.date)
  {
    match ParseShortDate(Cell(row, "TANGGAL"))
    case None => None
    case Some(d) =>
      if Readable(row) then Some(Sale(d, OperatorOf(row), BoxCount(row).value, SachetCount(row).value)) else None
  }

  datatype Buckets = Buckets(daily: Bucket, weekly: Bucket, monthly: Bucket)

  const NoBuckets: Buckets := Buckets([], [], [])

  /** The report's three windows, as `today`, the week start and the month
      start. */
  datatype Period = Period(today: Date, weekStart: Date, monthStart: Date)

  predicate InWeek(p: Period, d: Date) { DateLe(p.weekStart, d) && DateLe(d, p.today) }

  predicate InMonth(p: Period, d: Date) { DateLe(p.monthStart, d) && DateLe(d, p.today) }

  function File(bs: Buckets, sale: Sale, p: Period): Buckets
  {
    var n := sale.operator;
    var b := sale.box;
    var s := sale.sachet;
    Buckets(
      if sale.date == p.today then Credit(bs.daily, n, b, s) else bs.daily,
      if InWeek(p, sale.date) then Credit(bs.weekly, n, b, s) else bs.weekly,
      if InMonth(p, sale.date) then Credit(bs.monthly, n, b, s) else bs.monthly)
  }

  /** The rows of one sheet in order; a row without a sale is skipped
      whole. */
  function FileRows(rows: seq<Row>, p: Period, bs: Buckets): Buckets
  {
    if |rows| == 0 then bs
    else
      var next := match ReadSale(rows[0]) case None => bs case Some(sale) => File(bs, sale, p);
      FileRows(rows[1..], p, next)
  }

  function FileSheets(sheets: seq<seq<Row>>, p: Period, bs: Buckets): Buckets
  {
    if |sheets| == 0 then bs else FileSheets(sheets[1..], p, FileRows(sheets[0], p, bs))
  }

  method CollectBuckets(sheets: seq<seq<Row>>, p: Period) returns (bs: Buckets)
    ensures bs == FileSheets(sheets, p, NoBuckets)
  {
    bs := NoBuckets;
    var k := 0;
    while k < |sheets|
      invariant 0 <= k <= |sheets|
      invariant FileSheets(sheets[k..], p, bs) == FileSheets(sheets, p, NoBuckets)
    {
      assert sheets[k..][1..] == sheets[k + 1..];
      var rows := sheets[k];
      ghost var start := bs;
      var i := 0;
      while i < |rows|
        invariant 0 <= i <= |rows|
        invariant FileRows(rows[i..], p, bs) == FileRows(rows, p, start)
      {
        assert rows[i..][1..] == rows[i + 1..];
        var sale := ReadSale(rows[i]);
        if sale.Some? {
          var n, b, s := sale.value.operator, sale.value.box, sale.value.sachet;
          var daily, weekly, monthly := bs.daily, bs.weekly, bs.monthly;
          if sale.value.date == p.today {
            daily := Credit(daily, n, b, s);
          }
          if DateLe(p.weekStart, sale.value.date) && DateLe(sale.value.date, p.today) {
            weekly := Credit(weekly, n, b, s);
          }
          if DateLe(p.monthStart, sale.value.date) && DateLe(sale.value.date, p.today) {
            monthly := Credit(monthly, n, b, s);
          }
          bs := Buckets(daily, weekly, monthly);
        }
        i := i + 1;
      }
      k := k + 1;
    }
  }

  /** Every name of `small` is in `large`, with at most as many invoices. */
  ghost predicate Within(small: Bucket, large: Bucket)
  {
    && (forall n :: n in Names(small) ==> n in Names(large))
    && (forall n :: Lookup(small, n).i <= Lookup(large, n).i)
  }

  /** The day bucket is within the week and month buckets: the invariant
      the filing keeps. */
  ghost predicate DailyWithin(bs: Buckets)
  {
    && UniqueNames(bs.daily) && UniqueNames(bs.weekly) && UniqueNames(bs.monthly)
    && Within(bs.daily, bs.weekly) && Within(bs.daily, bs.monthly)
  }

  predicate ValidPeriod(p: Period)
  {
    DateLe(p.weekStart, p.today) && DateLe(p.monthStart, p.today)
  }

  /** Crediting a sale to the larger bucket whenever it goes to the smaller
      one keeps the smaller within the larger. */
  lemma CreditKeepsWithin(small: Bucket, large: Bucket, n: string, b: int, s: int, toSmall: bool, toLarge: bool)
    requires Within(small, large) && (toSmall ==> toLarge)
    ensures Within(if toSmall then Credit(small, n, b, s) else small, if toLarge then Credit(large, n, b, s) else large)
  {
    CreditLookup(small, n, b, s);
    CreditLookup(large, n, b, s);
    CreditNames(small, n, b, s);
    CreditNames(large, n, b, s);
  }

  lemma FileKeepsDailyWithin(bs: Buckets, sale: Sale, p: Period)
    requires DailyWithin(bs) && ValidPeriod(p)
    ensures DailyWithin(File(bs, sale, p))
  {
    var n, b, s := sale.operator, sale.box, sale.sachet;
    var today := sale.date == p.today;
    assert today ==> InWeek(p, sale.date) && InMonth(p, sale.date);
    CreditKeepsWithin(bs.daily, bs.weekly, n, b, s, today, InWeek(p, sale.date));
    CreditKeepsWithin(bs.daily, bs.monthly, n, b, s, today, InMonth(p, sale.date));
    CreditUnique(bs.daily, n, b, s);
    CreditUnique(bs.weekly, n, b, s);
    CreditUnique(bs.monthly, n, b, s);
  }

  lemma {:induction false} FileRowsKeepsDailyWithin(rows: seq<Row>, p: Period, bs: Buckets)
    requires DailyWithin(bs) && ValidPeriod(p)
    ensures DailyWithin(FileRows(rows, p, bs))
    decreases |rows|
  {
    if rows != [] {
      var next := match ReadSale(rows[0]) case None => bs case Some(sale) => File(bs, sale, p);
      if ReadSale(rows[0]).Some? {
        FileKeepsDailyWithin(bs, ReadSale(rows[0]).value, p);
      }
      FileRowsKeepsDailyWithin(rows[1..], p, next);
    }
  }

  /** An operator's daily invoice count never exceeds their weekly or
      monthly count, and every operator of the day appears in both. */
  lemma {:induction false} DailyWithinReport(sheets: seq<seq<Row>>, p: Period, bs: Buckets)
    requires DailyWithin(bs) && ValidPeriod(p)
    ensures DailyWithin(FileSheets(sheets, p, bs))
    decreases |sheets|
  {
    if sheets != [] {
      FileRowsKeepsDailyWithin(sheets[0], p, bs);
      DailyWithinReport(sheets[1..], p, FileRows(sheets[0], p, bs));
    }
  }

  /** A row whose date or quantities do not parse changes no bucket. */
  lemma UnreadableRowSkipped(row: Row, rest: seq<Row>, p: Period, bs: Buckets)
    requires ParseShortDate(Cell(row, "TANGGAL")).None? || !Readable(row)
    ensures FileRows([row] + rest, p, bs) == FileRows(rest, p, bs)
  {
    assert ([row] + rest)[1..] == rest;
  }

  /** The operator is the label with every "DOORASI " removed, then
      stripped; a label without it is only stripped. */
  lemma OperatorOfPlainLabel(row: Row)
    requires "CUSTOMER SERVICE" in row && !Contains(row["CUSTOMER SERVICE"], BrandPrefix)
    ensures OperatorOf(row) == Strip(row["CUSTOMER SERVICE"])
  {
    ReplaceAllAbsent(row["CUSTOMER SERVICE"], BrandPrefix, "");
  }

  lemma OperatorOfBrandedLabel(row: Row, name: string)
    requires "CUSTOMER SERVICE" in row && row["CUSTOMER SERVICE"] == BrandPrefix + name && !Contains(name, BrandPrefix)
    ensures OperatorOf(row) == Strip(name)
  {
    ReplaceAllAtStart(BrandPrefix, name, "");
    ReplaceAllAbsent(name, BrandPrefix, "");
    assert "" + name == name;
  }

  /** A row without a `CUSTOMER SERVICE` cell is credited to "Unknown". */
  lemma OperatorOfMissingLabel(row: Row)
    requires "CUSTOMER SERVICE" !in row
    ensures OperatorOf(row) == "Unknown"
  {
    assert 'D' !in "Unknown";
    ContainsNotChar("Unknown", BrandPrefix);
    ReplaceAllAbsent("Unknown", BrandPrefix, "");
    StripOfStripped("Unknown");
  }
}
