/**
 * `financial_sender.py`: the NSE financial results filed between yesterday
 * and today. The payload is the list of records itself.
 */
module FinancialSender {
  import opened Wrappers
  import opened Json
  import opened Dates
  import opened Text
  import opened Retry
  import opened Attempts
  import opened Normalize
  import opened Summary
  import opened Pipeline

  /** The 8 fields of a normalized result, each read from the key of the same name. */
  const Table: KeyTable := [
    Field("symbol", "symbol"),
    Field("companyName", "companyName"),
    Field("period", "period"),
    Field("relatingTo", "relatingTo"),
    Field("financialYear", "financialYear"),
    Field("filingDate", "filingDate"),
    Field("consolidated", "consolidated"),
    Field("xbrl", "xbrl")
  ]

  /** The lines written per result: 8 labelled lines, a rule and a blank line. */
  const Block: seq<Template> := [
    Line("Symbol: ", "symbol", ""),
    Line("Company: ", "companyName", ""),
    Line("Period: ", "period", ""),
    Line("Quarter: ", "relatingTo", ""),
    Line("Financial Year: ", "financialYear", ""),
    Line("Filing Date: ", "filingDate", ""),
    Line("Consolidated: ", "consolidated", ""),
    Line("XBRL Link: ", "xbrl", ""),
    Fixed(Rule('=')),
    Fixed("")
  ]

  const Feed: JsonFeed := JsonFeed(
    "financial_results", "financial", "Financial Results Summary",
    SinceYesterday, RangeHeading, LenOfPayload, false, Table, Block)

  lemma TableDistinct()
    ensures DistinctKeys(Table)
  {
    forall i, j | 0 <= i < j < |Table| ensures Table[i].canonical != Table[j].canonical {
      assert i in {0, 1, 2, 3, 4, 5, 6, 7};
      assert j in {0, 1, 2, 3, 4, 5, 6, 7};
    }
  }

  /** Every key the block reads is a field of a normalized record. */
  lemma BlockCovered()
    ensures BlockReadsTable(Feed)
  {
    var ks := CanonicalKeys(Table);
    assert Table[0].canonical in ks && Table[1].canonical in ks && Table[2].canonical in ks && Table[3].canonical in ks
      && Table[4].canonical in ks && Table[5].canonical in ks && Table[6].canonical in ks && Table[7].canonical in ks;
    forall j | 0 <= j < |Block| ensures KeysOf(Block[j]) <= ks {
      assert j in {0, 1, 2, 3, 4, 5, 6, 7, 8, 9};
    }
  }

  /**
   * Every element of the list becomes one result, in order, each of the 8
   * fields read from the key of the same name, with `''` when it is absent.
   */
  lemma FilterFields(d: Doc, es: seq<Entry>, k: nat)
    requires Elements(Feed, d) == Some(es) && forall n :: 0 <= n < |es| ==> es[n].Object?
    requires k < |es|
    ensures |FeedFilter(Feed, d)| == |es|
    ensures FeedFilter(Feed, d)[k].Keys == CanonicalKeys(Table)
    ensures var r, item := FeedFilter(Feed, d)[k], es[k].fields;
      && Get(r, "symbol") == Get(item, "symbol")
      && Get(r, "companyName") == Get(item, "companyName")
      && Get(r, "period") == Get(item, "period")
      && Get(r, "relatingTo") == Get(item, "relatingTo")
      && Get(r, "financialYear") == Get(item, "financialYear")
      && Get(r, "filingDate") == Get(item, "filingDate")
      && Get(r, "consolidated") == Get(item, "consolidated")
      && Get(r, "xbrl") == Get(item, "xbrl")
  {
    TableDistinct();
    FilterMapsEveryElement(Feed, d, es);
    FilteredKeys(Feed, d);
    assert Table[0].canonical == "symbol" && Table[1].canonical == "companyName" && Table[2].canonical == "period"
      && Table[3].canonical == "relatingTo" && Table[4].canonical == "financialYear" && Table[5].canonical == "filingDate"
      && Table[6].canonical == "consolidated" && Table[7].canonical == "xbrl";
  }

  /** The lines of one result in the summary: 8 labelled lines (`relatingTo` under `Quarter`, `xbrl` under `XBRL Link`), a rule of `=` and a blank line. */
  function Card(rec: Record): seq<string> {
    [
      "Symbol: " + Get(rec, "symbol"),
      "Company: " + Get(rec, "companyName"),
      "Period: " + Get(rec, "period"),
      "Quarter: " + Get(rec, "relatingTo"),
      "Financial Year: " + Get(rec, "financialYear"),
      "Filing Date: " + Get(rec, "filingDate"),
      "Consolidated: " + Get(rec, "consolidated"),
      "XBRL Link: " + Get(rec, "xbrl"),
      Rule('='),
      ""
    ]
  }

  /** A record carrying the table's keys renders each block line completely, as its card says. */
  lemma CardRendered(rec: Record)
    requires rec.Keys == CanonicalKeys(Table)
    ensures forall j :: 0 <= j < |Block| ==> Fill(Block[j], Object(rec)) == Some(Card(rec)[j])
  {
    BlockCovered();
    forall j | 0 <= j < |Block| ensures Fill(Block[j], Object(rec)) == Some(Card(rec)[j]) {
      assert j in {0, 1, 2, 3, 4, 5, 6, 7, 8, 9};
      assert KeysOf(Block[j]) <= rec.Keys;
      if j == 0 {
        assert "Symbol: " + Get(rec, "symbol") + "" == "Symbol: " + Get(rec, "symbol");
      }
      else if j == 1 {
        assert "Company: " + Get(rec, "companyName") + "" == "Company: " + Get(rec, "companyName");
      }
      else if j == 2 {
        assert "Period: " + Get(rec, "period") + "" == "Period: " + Get(rec, "period");
      }
      else if j == 3 {
        assert "Quarter: " + Get(rec, "relatingTo") + "" == "Quarter: " + Get(rec, "relatingTo");
      }
      else if j == 4 {
        assert "Financial Year: " + Get(rec, "financialYear") + "" == "Financial Year: " + Get(rec, "financialYear");
      }
      else if j == 5 {
        assert "Filing Date: " + Get(rec, "filingDate") + "" == "Filing Date: " + Get(rec, "filingDate");
      }
      else if j == 6 {
        assert "Consolidated: " + Get(rec, "consolidated") + "" == "Consolidated: " + Get(rec, "consolidated");
      }
      else if j == 7 {
        assert "XBRL Link: " + Get(rec, "xbrl") + "" == "XBRL Link: " + Get(rec, "xbrl");
      }
    }
  }

  /**
   * The summary of filtered results: the title with the range, a rule of `=`, a
   * blank line, then the card of every result, in order.
   */
  lemma SummaryShape(r: DateRange, rs: seq<Record>, k: nat)
    requires forall n :: 0 <= n < |rs| ==> rs[n].Keys == CanonicalKeys(Table)
    requires k < |rs|
    ensures var lines := SummaryLines(Feed, r, rs);
      |lines| == 3 + |rs| * 10
      && lines[0] == "Financial Results Summary" + " (" + r.from + " to " + r.to + ")"
      && lines[1] == Rule('=') && lines[2] == ""
      && lines[3 + k * 10..3 + k * 10 + 10] == Card(rs[k])
  {
    var lines := SummaryLines(Feed, r, rs);
    BlockCovered();
    assert |lines| == 3 + |rs| * 10 && lines[0] == "Financial Results Summary" + " (" + r.from + " to " + r.to + ")" && lines[1] == Rule('=') && lines[2] == "" by {
      SummaryOfRecords(Feed, r, rs, k, 0);
    }
    SummaryCard(r, rs, k);
  }

  /** Record `k` fills its 10 lines of the summary with its card. */
  lemma SummaryCard(r: DateRange, rs: seq<Record>, k: nat)
    requires forall n :: 0 <= n < |rs| ==> rs[n].Keys == CanonicalKeys(Table)
    requires k < |rs|
    ensures var lines := SummaryLines(Feed, r, rs);
      3 + k * 10 + 10 <= |lines| && lines[3 + k * 10..3 + k * 10 + 10] == Card(rs[k])
  {
    BlockCovered();
    CardRendered(rs[k]);
    SummaryBlock(Feed, r, rs, k, Card(rs[k]));
  }

  /**
   * The query runs from yesterday to today, and the files of a run are
   * `financial_results_<to>.json` when a truthy payload came back,
   * `financial_results_<to>_summary.txt` when in addition the filter kept a
   * record, and `financial_raw_response_attempt_<n>.txt` for each attempt
   * whose ok response did not parse. The run returns the filtered records,
   * or `[]` when nothing was fetched.
   */
  lemma Outputs(today: Date, outcomes: seq<Navigation>, m: nat)
    requires Valid(today) && |outcomes| == MaxAttempts && today != Date(MinYear, 1, 1)
    ensures var run, o, to := ExpectedRun(Feed, today, outcomes), Outcome(DirectSteps(outcomes, Feed.probe), None), FormatDMY(today);
      && QueryRange(Feed.span, today) == Some(DateRange(FormatDMY(PrevDay(today).value), to))
      && (JsonName("financial_results", to) in run.files <==> TruthyOpt(o.payload))
      && (SummaryName("financial_results", to) in run.files <==> TruthyOpt(o.payload) && run.exit.records != [])
      && (DumpName("financial", m) in run.dumpFiles <==> 1 <= m <= o.attempts && Unparsable(outcomes[m - 1]))
      && run.exit == Returned(if TruthyOpt(o.payload) then FeedFilter(Feed, o.payload.value) else [])
  {
    SinceYesterdayRange(today);
    var to := FormatDMY(today);
    OutputsOfRun(Feed, today, outcomes);
    DumpFileOfAttempt(Feed, today, outcomes, m);
  }
}
