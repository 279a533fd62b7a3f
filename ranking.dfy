/** `format_rank_section` of `send_sales_report` and the report message
    built from its three sections. */
module Ranking {
  import opened Outcomes
  import opened Text
  import opened Dates
  import opened Intake
  import opened Report

  /** A ranked operator: boxes after converting sachets, the sachets left
      over, and the invoice count. */
  datatype Entry = Entry(name: string, box: int, rem: int, invoices: int)

  /** `data['b'] + data['s'] // 5` and `data['s'] % 5`. Python floors and
      Dafny divides Euclidean-style; for the divisor 5 the two agree. */
  function Convert(name: string, c: Counts): (e: Entry)
    ensures e.name == name && e.invoices == c.i
    ensures 0 <= e.rem < 5 && 5 * e.box + e.rem == 5 * c.b + c.s
  {
    Entry(name, c.b + c.s / 5, c.s % 5, c.i)
  }

  /** The conversion is the only split of the figures into whole boxes and
      fewer than five sachets. */
  lemma ConvertUnique(name: string, c: Counts, box: int, rem: int)
    requires 0 <= rem < 5 && 5 * box + rem == 5 * c.b + c.s
    ensures Convert(name, c).box == box && Convert(name, c).rem == rem
  {
    var e := Convert(name, c);
    assert 5 * (e.box - box) == rem - e.rem;
  }

  /** The entries in the bucket's insertion order. */
  function ConvertAll(bk: Bucket): (r: seq<Entry>)
    ensures |r| == |bk|
    ensures forall k :: 0 <= k < |bk| ==> r[k] == Convert(bk[k].0, bk[k].1)
  {
    if |bk| == 0 then [] else ConvertAll(bk[..|bk| - 1]) + [Convert(bk[|bk| - 1].0, bk[|bk| - 1].1)]
  }

  // ---------------------------------------------------------------------
  // ranked_list.sort(key=lambda x: (x['b'], x['s']), reverse=True)
  // ---------------------------------------------------------------------

  /** `x` ranks strictly above `y`: more boxes, or as many and more
      sachets. */
  predicate Above(x: Entry, y: Entry)
  {
    x.box > y.box || (x.box == y.box && x.rem > y.rem)
  }

  predicate NonIncreasing(l: seq<Entry>)
  {
    forall i, j :: 0 <= i < j < |l| ==> !Above(l[j], l[i])
  }

  /** Puts `x` before the first entry that does not rank above it, so
      ahead of its equals. */
  function Insert(x: Entry, l: seq<Entry>): seq<Entry>
  {
    if |l| == 0 || !Above(l[0], x) then [x] + l else [l[0]] + Insert(x, l[1..])
  }

  /** The descending stable sort: Python's `sort(reverse=True)` keeps equal
      keys in their original order. */
  function SortDesc(l: seq<Entry>): seq<Entry>
  {
    if |l| == 0 then [] else Insert(l[0], SortDesc(l[1..]))
  }

  lemma {:induction false} InsertPermutes(x: Entry, l: seq<Entry>)
    ensures multiset(Insert(x, l)) == multiset(l) + multiset{x}
    decreases |l|
  {
    if |l| > 0 && Above(l[0], x) {
      InsertPermutes(x, l[1..]);
      assert l == [l[0]] + l[1..];
    }
  }

  lemma {:induction false} InsertSorted(x: Entry, l: seq<Entry>)
    requires NonIncreasing(l)
    ensures NonIncreasing(Insert(x, l))
    decreases |l|
  {
    var r := Insert(x, l);
    if |l| == 0 || !Above(l[0], x) {
      forall i, j | 0 <= i < j < |r|
        ensures !Above(r[j], r[i])
      {
        if i > 0 {
          assert r[i] == l[i - 1] && r[j] == l[j - 1];
        } else {
          assert r[j] == l[j - 1];
          assert !Above(r[j], l[0]);
        }
      }
    } else {
      var tail := Insert(x, l[1..]);
      assert NonIncreasing(l[1..]) by {
        forall i, j | 0 <= i < j < |l[1..]|
          ensures !Above(l[1..][j], l[1..][i])
        {
          assert l[1..][i] == l[i + 1] && l[1..][j] == l[j + 1];
        }
      }
      InsertSorted(x, l[1..]);
      InsertPermutes(x, l[1..]);
      forall i, j | 0 <= i < j < |r|
        ensures !Above(r[j], r[i])
      {
        if i > 0 {
          assert r[i] == tail[i - 1] && r[j] == tail[j - 1];
        } else {
          assert r[j] == tail[j - 1];
          assert r[j] in multiset(l[1..]) + multiset{x} by {
            assert tail[j - 1] in multiset(tail);
          }
          if r[j] != x {
            assert r[j] in l[1..];
            var k :| 0 <= k < |l[1..]| && l[1..][k] == r[j];
            assert l[k + 1] == r[j];
          }
        }
      }
    }
  }

  /** The ranked list holds the same entries, non-increasing in
      (boxes, sachets). */
  lemma {:induction false} SortDescCorrect(l: seq<Entry>)
    ensures multiset(SortDesc(l)) == multiset(l)
    ensures NonIncreasing(SortDesc(l))
    decreases |l|
  {
    if |l| > 0 {
      SortDescCorrect(l[1..]);
      InsertPermutes(l[0], SortDesc(l[1..]));
      InsertSorted(l[0], SortDesc(l[1..]));
      assert l == [l[0]] + l[1..];
    }
  }

  /** `[e]` when `e` has the key (`box`, `rem`), else `[]`. */
  function KeyPart(e: Entry, box: int, rem: int): seq<Entry>
  {
    if e.box == box && e.rem == rem then [e] else []
  }

  /** The entries with the key (`box`, `rem`), in order. */
  function WithKey(l: seq<Entry>, box: int, rem: int): seq<Entry>
  {
    if |l| == 0 then [] else KeyPart(l[0], box, rem) + WithKey(l[1..], box, rem)
  }

  lemma WithKeyCons(e: Entry, l: seq<Entry>, box: int, rem: int)
    ensures WithKey([e] + l, box, rem) == KeyPart(e, box, rem) + WithKey(l, box, rem)
  {
    assert ([e] + l)[0] == e && ([e] + l)[1..] == l;
  }

  /** Two entries one of which ranks above the other never share a key. */
  lemma AboveKeysDiffer(x: Entry, y: Entry, box: int, rem: int)
    requires Above(y, x)
    ensures KeyPart(x, box, rem) == [] || KeyPart(y, box, rem) == []
  {
  }

  lemma {:induction false} InsertWithKey(x: Entry, l: seq<Entry>, box: int, rem: int)
    ensures WithKey(Insert(x, l), box, rem) == KeyPart(x, box, rem) + WithKey(l, box, rem)
    decreases |l|
  {
    if |l| > 0 && Above(l[0], x) {
      InsertWithKey(x, l[1..], box, rem);
      WithKeyCons(l[0], Insert(x, l[1..]), box, rem);
      assert l == [l[0]] + l[1..];
      WithKeyCons(l[0], l[1..], box, rem);
      AboveKeysDiffer(x, l[0], box, rem);
    } else {
      WithKeyCons(x, l, box, rem);
    }
  }

  /** Stability: entries with equal keys keep their relative order. */
  lemma {:induction false} SortDescStable(l: seq<Entry>, box: int, rem: int)
    ensures WithKey(SortDesc(l), box, rem) == WithKey(l, box, rem)
    decreases |l|
  {
    if |l| > 0 {
      SortDescStable(l[1..], box, rem);
      InsertWithKey(l[0], SortDesc(l[1..]), box, rem);
    }
  }

  // ---------------------------------------------------------------------
  // The section text
  // ---------------------------------------------------------------------

  /** `f"{i+1}. {n} | {b} Box - {s} Sachet ({i} Inv)"` */
  function RankLine(position: nat, e: Entry): string
  {
    NatToString(position + 1) + ". " + e.name + " | " + IntToString(e.box) + " Box - "
      + IntToString(e.rem) + " Sachet (" + IntToString(e.invoices) + " Inv)"
  }

  /** The numbered lines, from 1. */
  function RankLines(l: seq<Entry>): (r: seq<string>)
    ensures |r| == |l|
    ensures forall k :: 0 <= k < |l| ==> r[k] == RankLine(k, l[k])
  {
    seq(|l|, k requires 0 <= k < |l| => RankLine(k, l[k]))
  }

  function EntryTotals(e: Entry): Totals
  {
    Totals(e.invoices, e.box, e.rem)
  }

  /** The TOTAL line's figures: the converted boxes and the left-over
      sachets summed over the entries, which are not converted again. */
  function SectionTotals(l: seq<Entry>): Totals
  {
    if |l| == 0 then NoTotals else Plus(SectionTotals(l[..|l| - 1]), EntryTotals(l[|l| - 1]))
  }

  /** `f"TOTAL: {i} Invoice | {b} Box | {s} Sachet"` */
  function TotalLine(t: Totals): string
  {
    "TOTAL: " + IntToString(t.invoices) + " Invoice | " + IntToString(t.box) + " Box | " + IntToString(t.sachet) + " Sachet"
  }

  const NoData: string := "Tidak ada data."

  /** What follows the section's title line: the ranked lines and the
      TOTAL line, or the no-data line for an empty bucket. */
  function SectionBody(bk: Bucket): string
  {
    if |bk| == 0 then NoData + "\n\n"
    else
      var entries := ConvertAll(bk);
      Join(RankLines(SortDesc(entries)), "\n") + "\n" + TotalLine(SectionTotals(entries)) + "\n\n"
  }

  /** `format_rank_section(title, bucket, period)` */
  function RankSection(title: string, bk: Bucket, period: string): (r: string)
    ensures StartsWith(r, title + " " + period + "\n")
    ensures |bk| == 0 ==> r == title + " " + period + "\n" + NoData + "\n\n"
  {
    var head := title + " " + period + "\n";
    assert (head + SectionBody(bk))[..|head|] == head;
    head + SectionBody(bk)
  }

  /** The loop of `format_rank_section`: converts each operator's figures
      and adds them to the running TOTAL. */
  method RankEntries(bk: Bucket) returns (ranked: seq<Entry>, total: Totals)
    ensures ranked == ConvertAll(bk)
    ensures total == SectionTotals(ranked)
  {
    total := NoTotals;
    ranked := [];
    for k := 0 to |bk|
      invariant ranked == ConvertAll(bk[..k])
      invariant total == SectionTotals(ranked)
    {
      var (name, data) := bk[k];
      var totalBox := data.b + data.s / 5;
      var remSachet := data.s % 5;
      total := Totals(total.invoices + data.i, total.box + totalBox, total.sachet + remSachet);
      assert bk[..k + 1][..k] == bk[..k];
      ranked := ranked + [Entry(name, totalBox, remSachet, data.i)];
      assert ranked[..|ranked| - 1] == ConvertAll(bk[..k]);
    }
    assert bk[..|bk|] == bk;
  }

  method FormatRankSection(title: string, bk: Bucket, period: string) returns (text: string)
    ensures text == RankSection(title, bk, period)
  {
    if |bk| == 0 {
      return title + " " + period + "\n" + NoData + "\n\n";
    }
    var ranked, total := RankEntries(bk);
    var lines := RankLines(SortDesc(ranked));
    var body := Join(lines, "\n") + "\n" + TotalLine(total) + "\n\n";
    assert body == SectionBody(bk);
    text := title + " " + period + "\n" + body;
  }

  /** The raw figures of a bucket. */
  function RawTotals(bk: Bucket): Totals
  {
    if |bk| == 0 then NoTotals
    else Plus(RawTotals(bk[..|bk| - 1]), Totals(bk[|bk| - 1].1.i, bk[|bk| - 1].1.b, bk[|bk| - 1].1.s))
  }

  /** The TOTAL line keeps every sachet: five times its boxes plus its
      sachets is five times the raw boxes plus the raw sachets, its
      invoices are the raw invoices, and it shows at most four sachets per
      operator. */
  lemma {:induction false} SectionTotalsConserve(bk: Bucket)
    ensures var t := SectionTotals(ConvertAll(bk));
      var raw := RawTotals(bk);
      && t.invoices == raw.invoices
      && 5 * t.box + t.sachet == 5 * raw.box + raw.sachet
      && 0 <= t.sachet <= 4 * |bk|
    decreases |bk|
  {
    if |bk| > 0 {
      var front := bk[..|bk| - 1];
      SectionTotalsConserve(front);
      var all := ConvertAll(bk);
      assert all[..|all| - 1] == ConvertAll(front);
    }
  }

  // ---------------------------------------------------------------------
  // The report message
  // ---------------------------------------------------------------------

  const ReportTitle: string := "🏆 Laporan Penjualan CS\n📅 Tanggal: "
  const DailyTitle: string := "▶︎ Daily"
  const WeeklyTitle: string := "▶︎ Mingguan (7 Hari Terakhir)"

  function MonthlyTitle(month: nat): string
    requires 1 <= month <= 12
  {
    "▶︎ Bulanan (" + EnglishMonthNames[month] + ")"
  }

  /** The three windows' buckets, filed from the sheets as read. */
  function ReportBuckets(today: Date, weekStart: Date, sheets: seq<seq<Row>>): Buckets
    requires ValidDate(today)
  {
    FileSheets(sheets, Period(today, weekStart, MonthStart(today)), NoBuckets)
  }

  function DailySection(today: Date, bs: Buckets): string
  {
    RankSection(DailyTitle, bs.daily, "(" + FormatShort(today) + ")")
  }

  function WeeklySection(today: Date, weekStart: Date, bs: Buckets): string
  {
    RankSection(WeeklyTitle, bs.weekly, "(" + FormatShort(weekStart) + " - " + FormatShort(today) + ")")
  }

  function MonthlySection(today: Date, bs: Buckets): string
    requires ValidDate(today)
  {
    RankSection(MonthlyTitle(today.month), bs.monthly, "")
  }

  /** `msg` before it is stripped: the title with the long date, a blank
      line, and the daily, weekly and monthly sections. */
  function ReportMessage(today: Date, weekStart: Date, bs: Buckets): string
    requires ValidDate(today)
  {
    ReportTitle + FormatLong(today) + "\n\n"
      + DailySection(today, bs) + WeeklySection(today, weekStart, bs) + MonthlySection(today, bs)
  }

  /** The message `send_sales_report` posts for `today`, from the sheets as
      read; `None` when a read raises or the week start falls before year
      1, which the report's own `except` turns into an admin alert. */
  function SalesReport(today: Date, sheets: seq<Option<seq<Row>>>): (r: Option<string>)
    requires ValidDate(today)
    ensures r.Some? <==> (forall k :: 0 <= k < |sheets| ==> sheets[k].Some?) && DaysBefore(today, 6).Some?
  {
    if exists k :: 0 <= k < |sheets| && sheets[k].None? then None
    else
      match DaysBefore(today, 6)
      case None => None
      case Some(weekStart) =>
        Some(Strip(ReportMessage(today, weekStart, ReportBuckets(today, weekStart, ReadSheets(sheets)))))
  }

  /** The posted report is the title with the long date, a blank line, the
      daily and weekly sections in full, and the monthly section without
      its closing blank line, which the strip removes. */
  lemma SalesReportSections(today: Date, sheets: seq<Option<seq<Row>>>, weekStart: Date, bs: Buckets,
                            daily: string, weekly: string, monthly: string)
    requires ValidDate(today) && SalesReport(today, sheets).Some?
    requires DaysBefore(today, 6) == Some(weekStart)
    requires bs == ReportBuckets(today, weekStart, ReadSheets(sheets))
    requires daily == DailySection(today, bs) && weekly == WeeklySection(today, weekStart, bs)
    requires monthly == MonthlySection(today, bs)
    ensures ClosesLine(monthly)
    ensures SalesReport(today, sheets).value == ReportTitle + FormatLong(today) + "\n\n" + daily + weekly + monthly[..|monthly| - 2]
  {
    SalesReportPosts(today, sheets);
    SectionClosesLine(MonthlyTitle(today.month), bs.monthly, "");
    StripReport(FormatLong(today), daily, weekly, monthly);
  }

  lemma StripReport(long: string, d: string, w: string, m: string)
    requires ClosesLine(m)
    ensures Strip(ReportTitle + long + "\n\n" + d + w + m) == ReportTitle + long + "\n\n" + d + w + m[..|m| - 2]
  {
    ReportHeadOpens(long);
    StripClosedText(ReportTitle + long + "\n\n", d, w, m);
  }

  lemma SalesReportPosts(today: Date, sheets: seq<Option<seq<Row>>>)
    requires ValidDate(today) && SalesReport(today, sheets).Some?
    ensures var weekStart := DaysBefore(today, 6).value;
      SalesReport(today, sheets).value == Strip(ReportMessage(today, weekStart, ReportBuckets(today, weekStart, ReadSheets(sheets))))
  {
  }

  lemma ReportHeadOpens(long: string)
    ensures var a := ReportTitle + long + "\n\n"; a != [] && !IsSpace(a[0])
  {
    var a := ReportTitle + long + "\n\n";
    assert a[0] == ReportTitle[0] == '🏆';
  }

  /** A text that ends in a visible character and one blank line. */
  predicate ClosesLine(r: string)
  {
    |r| >= 3 && r[|r| - 2..] == "\n\n" && !IsSpace(r[|r| - 3])
  }

  lemma StripClosedText(a: string, d: string, w: string, m: string)
    requires a != [] && !IsSpace(a[0]) && ClosesLine(m)
    ensures Strip(a + d + w + m) == a + d + w + m[..|m| - 2]
  {
    var y := a + d + w + m[..|m| - 2];
    assert y[0] == a[0];
    assert y[|y| - 1] == m[|m| - 3];
    assert m == m[..|m| - 2] + "\n\n";
    assert a + d + w + m == y + "\n\n";
    StripTrailingBlank(y);
  }

  /** Every section ends in a line that is not blank, followed by one blank
      line. */
  lemma SectionClosesLine(title: string, bk: Bucket, period: string)
    ensures ClosesLine(RankSection(title, bk, period))
  {
    SectionBodyCloses(bk);
    ClosesLineAfter(title + " " + period + "\n", SectionBody(bk));
  }

  lemma SectionBodyCloses(bk: Bucket)
    ensures ClosesLine(SectionBody(bk))
  {
    if |bk| == 0 {
      assert NoData[|NoData| - 1] == '.';
      ClosesLineOf(NoData);
    } else {
      var entries := ConvertAll(bk);
      var t := TotalLine(SectionTotals(entries));
      TotalLineEnds(SectionTotals(entries));
      ClosesLineOf(t);
      ClosesLineAfter(Join(RankLines(SortDesc(entries)), "\n") + "\n", t + "\n\n");
    }
  }

  lemma ClosesLineOf(z: string)
    requires z != [] && !IsSpace(z[|z| - 1])
    ensures ClosesLine(z + "\n\n")
  {
    var r := z + "\n\n";
    assert r[|r| - 2..] == "\n\n";
    assert r[|r| - 3] == z[|z| - 1];
  }

  lemma ClosesLineAfter(h: string, b: string)
    requires ClosesLine(b)
    ensures ClosesLine(h + b)
  {
    var r := h + b;
    assert r[|r| - 2..] == b[|b| - 2..];
    assert r[|r| - 3] == b[|b| - 3];
  }

  lemma TotalLineEnds(t: Totals)
    ensures TotalLine(t) != [] && TotalLine(t)[|TotalLine(t)| - 1] == 't'
  {
    var front := "TOTAL: " + IntToString(t.invoices) + " Invoice | " + IntToString(t.box) + " Box | " + IntToString(t.sachet);
    assert TotalLine(t) == front + " Sachet";
  }

  function ReadSheets(sheets: seq<Option<seq<Row>>>): (r: seq<seq<Row>>)
    requires forall k :: 0 <= k < |sheets| ==> sheets[k].Some?
    ensures |r| == |sheets|
    ensures forall k :: 0 <= k < |sheets| ==> r[k] == sheets[k].value
  {
    if |sheets| == 0 then [] else [sheets[0].value] + ReadSheets(sheets[1..])
  }

  /** The report's buckets for `today`: the week runs over the seven days
      ending today, the month from its first day to today, and no
      operator's daily invoices exceed their weekly or monthly ones. */
  lemma ReportPeriod(today: Date, weekStart: Date, sheets: seq<seq<Row>>, n: string)
    requires ValidDate(today) && DaysBefore(today, 6) == Some(weekStart)
    ensures var bs := FileSheets(sheets, Period(today, weekStart, MonthStart(today)), NoBuckets);
      && Lookup(bs.daily, n).i <= Lookup(bs.weekly, n).i
      && Lookup(bs.daily, n).i <= Lookup(bs.monthly, n).i
      && (n in Names(bs.daily) ==> n in Names(bs.weekly) && n in Names(bs.monthly))
  {
    var p := Period(today, weekStart, MonthStart(today));
    assert ValidPeriod(p);
    assert DailyWithin(NoBuckets);
    DailyWithinReport(sheets, p, NoBuckets);
  }
}
