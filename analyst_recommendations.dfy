/**
 * `analyst_recommendations.py`: the analyst recommendations of the current
 * day, scraped from the rows of a page's table. A row is the sequence of the
 * texts of its `<td>` cells.
 */
module AnalystRecommendations {
  import opened Wrappers
  import opened Json
  import opened Dates
  import opened Text
  import opened Summary
  import opened Pipeline
  import opened Rows

  /** The texts of the cells of one `<tr>`. */
  type Row = seq<string>

  datatype Recommendation = Recommendation(
    symbol: string, companyName: string, analyst: string,
    recommendation: string, targetPrice: string, date: string)

  /** The entry of a row of at least 6 cells; `date` keeps the stripped text that was parsed. */
  function RecommendationOf(cols: Row): Recommendation
    requires |cols| >= 6
  {
    Recommendation(Strip(cols[0]), Strip(cols[1]), Strip(cols[3]), Strip(cols[4]), Strip(cols[5]), Strip(cols[2]))
  }

  /** Whether cell 2, stripped, parses with `%Y-%m-%d` to today's date. */
  predicate DatedToday(cols: Row, today: Date)
    requires |cols| >= 3
  {
    ParseYMD(Strip(cols[2])) == Some(today)
  }

  /**
   * One row as the source reads it: skipped under 5 cells, or when its date
   * does not parse or is not today. A row of exactly 5 cells dated today
   * raises IndexError at `cols[5]`, which the per-row `except ValueError`
   * does not catch (None).
   */
  function ReadRowAsWritten(today: Date, cols: Row): Option<Option<Recommendation>> {
    if |cols| < 5 || !DatedToday(cols, today) then Some(None)
    else if |cols| < 6 then None
    else Some(Some(RecommendationOf(cols)))
  }

  /** `filter_analyst_recommendations` as written: an IndexError anywhere empties the result. */
  function FilterAsWritten(rows: seq<Row>, today: Date): seq<Recommendation> {
    Collect(rows, (cols: Row) => ReadRowAsWritten(today, cols)).GetOr([])
  }

  /** One row with the guard the fields need: at least 6 cells. No row raises. */
  function ReadRow(today: Date, cols: Row): Option<Option<Recommendation>> {
    if |cols| < 6 || !DatedToday(cols, today) then Some(None)
    else Some(Some(RecommendationOf(cols)))
  }

  /** `filter_analyst_recommendations` with the guard on 6 cells. */
  function Filter(rows: seq<Row>, today: Date): seq<Recommendation> {
    Collect(rows, (cols: Row) => ReadRow(today, cols)).GetOr([])
  }

  /**
   * A row of exactly 5 cells dated today makes the filter as written return
   * `[]`, whatever the other rows hold.
   */
  lemma FiveCellRowEmptiesResult(rows: seq<Row>, today: Date, i: nat)
    requires i < |rows| && |rows[i]| == 5 && DatedToday(rows[i], today)
    ensures FilterAsWritten(rows, today) == []
  {
    var read := (cols: Row) => ReadRowAsWritten(today, cols);
    assert read(rows[i]).None?;
    CollectFails(rows, read);
  }

  /**
   * The input that shows it: a complete row dated today followed by a row of
   * 5 cells dated today. The filter as written returns nothing; with the
   * guard on 6 cells, the complete row is kept.
   */
  lemma FiveCellRowExample(today: Date, full: Row, short: Row)
    requires |full| >= 6 && DatedToday(full, today)
    requires |short| == 5 && DatedToday(short, today)
    ensures FilterAsWritten([full, short], today) == []
    ensures Filter([full, short], today) == [RecommendationOf(full)]
  {
    FiveCellRowEmptiesResult([full, short], today, 1);
    CompleteRowKept(today, full, short);
  }

  /** The corrected filter keeps the complete row and skips the short one. */
  lemma CompleteRowKept(today: Date, full: Row, short: Row)
    requires |full| >= 6 && DatedToday(full, today) && |short| == 5
    ensures Filter([full, short], today) == [RecommendationOf(full)]
  {
    var read := (cols: Row) => ReadRow(today, cols);
    var x := RecommendationOf(full);
    RowsRead(today, full, short);
    assert read(full) == Some(Some(x)) && read(short) == Some(None);
    CollectPairFirst(full, short, read, x);
    assert Filter([full, short], today) == Collect([full, short], read).GetOr([]);
  }

  /** How the corrected filter reads a complete row dated today and a row of 5 cells. */
  lemma RowsRead(today: Date, full: Row, short: Row)
    requires |full| >= 6 && DatedToday(full, today) && |short| == 5
    ensures ReadRow(today, full) == Some(Some(RecommendationOf(full)))
    ensures ReadRow(today, short) == Some(None)
  {
  }

  /** Today's date written with `%Y-%m-%d` is a date text the filter matches to today. */
  lemma TodayText(today: Date)
    requires Valid(today)
    ensures ParseYMD(FormatYMD(today)) == Some(today) && Strip(FormatYMD(today)) == FormatYMD(today)
  {
    var s := FormatYMD(today);
    ParseFormatYMD(today);
    assert IsDigit(s[0]) && IsDigit(s[9]) by {
      assert s[0] == Pad(today.year as nat, 4)[0];
      assert s[9] == Pad(today.day as nat, 2)[1];
    }
    StripPlain(s);
  }

  /** A text with no white space at either end is its own strip. */
  lemma StripPlain(s: string)
    requires s == [] || (!IsSpace(s[0]) && !IsSpace(s[|s| - 1]))
    ensures Strip(s) == s
  {
  }

  /**
   * With the guard on 6 cells the filter never gives up: it keeps exactly the
   * rows of at least 6 cells whose date is today, in row order, one entry per
   * row, each carrying the date text that matched.
   */
  lemma FilterKeeps(rows: seq<Row>, today: Date, e: Recommendation)
    ensures var read := (cols: Row) => ReadRow(today, cols);
      && Filter(rows, today) == Kept(rows, read)
      && |Filter(rows, today)| <= |rows|
      && (e in Filter(rows, today) <==>
            exists i :: 0 <= i < |rows| && |rows[i]| >= 6 && DatedToday(rows[i], today) && e == RecommendationOf(rows[i]))
      && (e in Filter(rows, today) ==> ParseYMD(e.date) == Some(today))
  {
    var read := (cols: Row) => ReadRow(today, cols);
    CollectFails(rows, read);
    CollectKept(rows, read);
    KeptLength(rows, read);
    KeptMember(rows, read, e);
    if e in Filter(rows, today) {
      var i :| 0 <= i < |rows| && read(rows[i]) == Some(Some(e));
    }
  }

  /**
   * With no row of exactly 5 cells dated today, the filter as written is the
   * filter with the guard on 6 cells; otherwise it is empty.
   */
  lemma FilterAsWrittenIs(rows: seq<Row>, today: Date)
    ensures FilterAsWritten(rows, today) ==
      if exists i :: 0 <= i < |rows| && |rows[i]| == 5 && DatedToday(rows[i], today) then [] else Filter(rows, today)
  {
    if exists i :: 0 <= i < |rows| && |rows[i]| == 5 && DatedToday(rows[i], today) {
      var i :| 0 <= i < |rows| && |rows[i]| == 5 && DatedToday(rows[i], today);
      FiveCellRowEmptiesResult(rows, today, i);
    } else {
      CollectAgree(rows, (cols: Row) => ReadRowAsWritten(today, cols), (cols: Row) => ReadRow(today, cols));
    }
  }

  /**
   * The filter as written keeps an entry exactly when no row of 5 cells is
   * dated today and some row of at least 6 cells dated today gives it.
   */
  lemma FilterAsWrittenKeeps(rows: seq<Row>, today: Date, e: Recommendation)
    ensures e in FilterAsWritten(rows, today) <==>
      && (forall i :: 0 <= i < |rows| ==> !(|rows[i]| == 5 && DatedToday(rows[i], today)))
      && exists i :: 0 <= i < |rows| && |rows[i]| >= 6 && DatedToday(rows[i], today) && e == RecommendationOf(rows[i])
  {
    FilterAsWrittenIs(rows, today);
    FilterKeeps(rows, today, e);
  }

  /** Some entry is returned as written exactly when some complete row, and no row of 5 cells, is dated today. */
  lemma SomeKeptAsWritten(rows: seq<Row>, today: Date)
    ensures FilterAsWritten(rows, today) != [] <==>
      && (forall i :: 0 <= i < |rows| ==> !(|rows[i]| == 5 && DatedToday(rows[i], today)))
      && exists i :: 0 <= i < |rows| && |rows[i]| >= 6 && DatedToday(rows[i], today)
  {
    FilterAsWrittenIs(rows, today);
    SomeKept(rows, today);
  }

  /**
   * `filter_analyst_recommendations`, row by row: a row of 5 cells dated
   * today raises IndexError, and the outer handler returns `[]`.
   */
  method FilterRecommendations(rows: seq<Row>, today: Date) returns (recommendations: seq<Recommendation>)
    ensures recommendations == FilterAsWritten(rows, today)
  {
    ghost var read := (cols: Row) => ReadRowAsWritten(today, cols);
    recommendations := [];
    var i := 0;
    while i < |rows|
      invariant i <= |rows|
      invariant Collect(rows[..i], read) == Some(recommendations)
    {
      var cols := rows[i];
      CollectNext(rows, i, read);
      i := i + 1;
      if |cols| >= 5 {
        var recDate := ParseYMD(Strip(cols[2]));
        if recDate.None? {
          continue;
        }
        if recDate.value == today {
          if |cols| < 6 {
            CollectFailed(rows, i, read);
            return [];
          }
          recommendations := recommendations + [RecommendationOf(cols)];
        }
      }
    }
    assert rows[..i] == rows;
  }

  // Summary

  const Block: seq<Template> := [
    Line("Symbol: ", "symbol", ""),
    Line("Company: ", "companyName", ""),
    Line("Analyst: ", "analyst", ""),
    Line("Recommendation: ", "recommendation", ""),
    Line("Target Price: ", "targetPrice", ""),
    Line("Date: ", "date", ""),
    Fixed(Rule('=')),
    Fixed("")
  ]

  /** The dictionary appended for an entry. */
  function AsItem(e: Recommendation): Item {
    map[
      "symbol" := e.symbol, "companyName" := e.companyName, "analyst" := e.analyst,
      "recommendation" := e.recommendation, "targetPrice" := e.targetPrice, "date" := e.date
    ]
  }

  function Preamble(today: Date): seq<string>
    requires Valid(today)
  {
    ["Analyst Recommendations Summary (" + FormatDMY(today) + ")", Rule('='), ""]
  }

  /** `save_text_summary(data, today, ...)`. */
  function SummaryText(today: Date, es: seq<Recommendation>): seq<string>
    requires Valid(today)
  {
    Document(Preamble(today), [], Block, Objects(ItemsOf(es, AsItem))).lines
  }

  method SaveSummary(today: Date, es: seq<Recommendation>) returns (lines: seq<string>)
    requires Valid(today)
    ensures lines == SummaryText(today, es)
  {
    var w := WriteDocument(Preamble(today), [], Block, Objects(ItemsOf(es, AsItem)));
    lines := w.lines;
  }

  function Card(e: Recommendation): seq<string> {
    [
      "Symbol: " + e.symbol,
      "Company: " + e.companyName,
      "Analyst: " + e.analyst,
      "Recommendation: " + e.recommendation,
      "Target Price: " + e.targetPrice,
      "Date: " + e.date,
      Rule('='),
      ""
    ]
  }

  lemma Covered(es: seq<Recommendation>)
    ensures forall i, j :: 0 <= i < |es| && 0 <= j < |Block| ==> KeysOf(Block[j]) <= ItemsOf(es, AsItem)[i].Keys
  {
    forall i, j | 0 <= i < |es| && 0 <= j < |Block| ensures KeysOf(Block[j]) <= ItemsOf(es, AsItem)[i].Keys {
      assert j in {0, 1, 2, 3, 4, 5, 6, 7};
    }
  }

  /** An entry renders each block line completely, as its card says. */
  lemma CardRendered(e: Recommendation)
    ensures forall j :: 0 <= j < |Block| ==> Fill(Block[j], Object(AsItem(e))) == Some(Card(e)[j])
  {
    var item := AsItem(e);
    FillPlain("Symbol: ", "symbol", item);
    FillPlain("Company: ", "companyName", item);
    FillPlain("Analyst: ", "analyst", item);
    FillPlain("Recommendation: ", "recommendation", item);
    FillPlain("Target Price: ", "targetPrice", item);
    FillPlain("Date: ", "date", item);
    forall j | 0 <= j < |Block| ensures Fill(Block[j], Object(item)) == Some(Card(e)[j]) {
      assert j in {0, 1, 2, 3, 4, 5, 6, 7};
    }
  }

  /**
   * The summary: the title with today as `dd-mm-YYYY`, a rule of `=`, a blank
   * line, then the card of every entry, in order.
   */
  lemma SummaryShape(today: Date, es: seq<Recommendation>, k: nat)
    requires Valid(today) && k < |es|
    ensures var lines := SummaryText(today, es);
      |lines| == 3 + 8 * |es|
      && lines[..3] == ["Analyst Recommendations Summary (" + FormatDMY(today) + ")", Rule('='), ""]
      && lines[3 + 8 * k..11 + 8 * k] == Card(es[k])
  {
    var items := ItemsOf(es, AsItem);
    Covered(es);
    DocumentOfRecords(Preamble(today), [], Block, items);
    CardRendered(es[k]);
    DocumentBlock(Preamble(today), [], Block, items, k, Card(es[k]));
  }

  // The run

  /** Loading the page: its table rows, or a timeout or another error. */
  datatype PageLoad = Loaded(rows: seq<Row>) | LoadTimeout | LoadError

  /** What `fetch_analyst_recommendations` leaves behind: nothing when the page did not load. */
  datatype AnalystRun = Aborted | Finished(files: map<string, Artifact>, returned: seq<Recommendation>)

  function ExpectedRun(today: Date, load: PageLoad): AnalystRun
    requires Valid(today)
  {
    match load
    case Loaded(rows) =>
      var es := FilterAsWritten(rows, today);
      Finished(if es != [] then map[SummaryName("analyst_recommendations", FormatDMY(today)) := TextFile(SummaryText(today, es))] else map[], es)
    case _ => Aborted
  }

  method RunAnalystRecommendations(today: Date, load: PageLoad) returns (run: AnalystRun)
    requires Valid(today)
    ensures run == ExpectedRun(today, load)
  {
    if !load.Loaded? {
      return Aborted;
    }
    var es := FilterRecommendations(load.rows, today);
    var files := map[];
    if es != [] {
      var lines := SaveSummary(today, es);
      files := files[SummaryName("analyst_recommendations", FormatDMY(today)) := TextFile(lines)];
    }
    run := Finished(files, es);
  }

  /**
   * A page that does not load ends the run with nothing written; otherwise
   * the summary `analyst_recommendations_<dd-mm-YYYY>_summary.txt` is
   * written exactly when some complete row is dated today and no row of 5
   * cells is, and it holds the entries returned.
   */
  lemma Outputs(today: Date, load: PageLoad)
    requires Valid(today)
    ensures var run := ExpectedRun(today, load);
      && (run.Aborted? <==> !load.Loaded?)
      && (load.Loaded? ==>
            var name, rows := SummaryName("analyst_recommendations", FormatDMY(today)), load.rows;
            && run.returned == FilterAsWritten(rows, today)
            && (name in run.files ==> run.files[name] == TextFile(SummaryText(today, run.returned)))
            && (name in run.files <==>
                  && (forall i :: 0 <= i < |rows| ==> !(|rows[i]| == 5 && DatedToday(rows[i], today)))
                  && exists i :: 0 <= i < |rows| && |rows[i]| >= 6 && DatedToday(rows[i], today)))
  {
    if load.Loaded? {
      SomeKeptAsWritten(load.rows, today);
    }
  }

  /** With the guard on 6 cells, some entry is kept exactly when some row has its six cells and is dated today. */
  lemma SomeKept(rows: seq<Row>, today: Date)
    ensures Filter(rows, today) != [] <==> exists i :: 0 <= i < |rows| && |rows[i]| >= 6 && DatedToday(rows[i], today)
  {
    var es := Filter(rows, today);
    if es != [] {
      FilterKeeps(rows, today, es[0]);
    } else if exists i :: 0 <= i < |rows| && |rows[i]| >= 6 && DatedToday(rows[i], today) {
      var i :| 0 <= i < |rows| && |rows[i]| >= 6 && DatedToday(rows[i], today);
      FilterKeeps(rows, today, RecommendationOf(rows[i]));
    }
  }
}
