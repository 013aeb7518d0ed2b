/**
 * `corporate_action.py`: the NSE corporate actions between yesterday and
 * today. The payload is the list of records itself.
 */
module CorporateAction {
  import opened Wrappers
  import opened Json
  import opened Dates
  import opened Text
  import opened Retry
  import opened Attempts
  import opened Normalize
  import opened Summary
  import opened Pipeline

  /** The 6 fields of a normalized action, each read from the key of the same name. */
  const Table: KeyTable := [
    Field("symbol", "symbol"),
    Field("companyName", "companyName"),
    Field("actionType", "actionType"),
    Field("exDate", "exDate"),
    Field("purpose", "purpose"),
    Field("details", "details")
  ]

  /** The lines written per action: 6 labelled lines, a rule and a blank line. */
  const Block: seq<Template> := [
    Line("Symbol: ", "symbol", ""),
    Line("Company: ", "companyName", ""),
    Line("Action Type: ", "actionType", ""),
    Line("Ex-Date: ", "exDate", ""),
    Line("Purpose: ", "purpose", ""),
    Line("Details: ", "details", ""),
    Fixed(Rule('=')),
    Fixed("")
  ]

  const Feed: JsonFeed := JsonFeed(
    "corporate_actions", "corporate_actions", "Corporate Actions Summary",
    SinceYesterday, RangeHeading, LenOfPayload, false, Table, Block)

  lemma TableDistinct()
    ensures DistinctKeys(Table)
  {
    forall i, j | 0 <= i < j < |Table| ensures Table[i].canonical != Table[j].canonical {
      assert i in {0, 1, 2, 3, 4, 5};
      assert j in {0, 1, 2, 3, 4, 5};
    }
  }

  /** Every key the block reads is a field of a normalized record. */
  lemma BlockCovered()
    ensures BlockReadsTable(Feed)
  {
    var ks := CanonicalKeys(Table);
    assert Table[0].canonical in ks && Table[1].canonical in ks && Table[2].canonical in ks && Table[3].canonical in ks
      && Table[4].canonical in ks && Table[5].canonical in ks;
    forall j | 0 <= j < |Block| ensures KeysOf(Block[j]) <= ks {
      assert j in {0, 1, 2, 3, 4, 5, 6, 7};
    }
  }

  /**
   * Every element of the list becomes one action, in order, each of the 6
   * fields read from the key of the same name, with `''` when it is absent.
   */
  lemma FilterFields(d: Doc, es: seq<Entry>, k: nat)
    requires Elements(Feed, d) == Some(es) && forall n :: 0 <= n < |es| ==> es[n].Object?
    requires k < |es|
    ensures |FeedFilter(Feed, d)| == |es|
    ensures FeedFilter(Feed, d)[k].Keys == CanonicalKeys(Table)
    ensures var r, item := FeedFilter(Feed, d)[k], es[k].fields;
      && Get(r, "symbol") == Get(item, "symbol")
      && Get(r, "companyName") == Get(item, "companyName")
      && Get(r, "actionType") == Get(item, "actionType")
      && Get(r, "exDate") == Get(item, "exDate")
      && Get(r, "purpose") == Get(item, "purpose")
      && Get(r, "details") == Get(item, "details")
  {
    TableDistinct();
    FilterMapsEveryElement(Feed, d, es);
    FilteredKeys(Feed, d);
    assert Table[0].canonical == "symbol" && Table[1].canonical == "companyName" && Table[2].canonical == "actionType"
      && Table[3].canonical == "exDate" && Table[4].canonical == "purpose" && Table[5].canonical == "details";
  }

  /** The lines of one action in the summary: 6 labelled lines, a rule of `=` and a blank line. */
  function Card(rec: Record): seq<string> {
    [
      "Symbol: " + Get(rec, "symbol"),
      "Company: " + Get(rec, "companyName"),
      "Action Type: " + Get(rec, "actionType"),
      "Ex-Date: " + Get(rec, "exDate"),
      "Purpose: " + Get(rec, "purpose"),
      "Details: " + Get(rec, "details"),
      Rule('='),
      ""
    ]
  }

  /** A record carrying the table's keys renders each block line completely, as its card says. */
  lemma CardRendered(rec: Record)
    requires rec.Keys == CanonicalKeys(Table)
    ensures forall j :: 0 <= j < |Block| ==> Fill(Block[j], Object(rec)) == Some(Card(rec)[j])
  {
    BlockCovered();
    forall j | 0 <= j < |Block| ensures Fill(Block[j], Object(rec)) == Some(Card(rec)[j]) {
      assert j in {0, 1, 2, 3, 4, 5, 6, 7};
      assert KeysOf(Block[j]) <= rec.Keys;
      if j == 0 {
        assert "Symbol: " + Get(rec, "symbol") + "" == "Symbol: " + Get(rec, "symbol");
      }
      else if j == 1 {
        assert "Company: " + Get(rec, "companyName") + "" == "Company: " + Get(rec, "companyName");
      }
      else if j == 2 {
        assert "Action Type: " + Get(rec, "actionType") + "" == "Action Type: " + Get(rec, "actionType");
      }
      else if j == 3 {
        assert "Ex-Date: " + Get(rec, "exDate") + "" == "Ex-Date: " + Get(rec, "exDate");
      }
      else if j == 4 {
        assert "Purpose: " + Get(rec, "purpose") + "" == "Purpose: " + Get(rec, "purpose");
      }
      else if j == 5 {
        assert "Details: " + Get(rec, "details") + "" == "Details: " + Get(rec, "details");
      }
    }
  }

  /**
   * The summary of filtered actions: the title with the range, a rule of `=`, a
   * blank line, then the card of every action, in order.
   */
  lemma SummaryShape(r: DateRange, rs: seq<Record>, k: nat)
    requires forall n :: 0 <= n < |rs| ==> rs[n].Keys == CanonicalKeys(Table)
    requires k < |rs|
    ensures var lines := SummaryLines(Feed, r, rs);
      |lines| == 3 + |rs| * 8
      && lines[0] == "Corporate Actions Summary" + " (" + r.from + " to " + r.to + ")"
      && lines[1] == Rule('=') && lines[2] == ""
      && lines[3 + k * 8..3 + k * 8 + 8] == Card(rs[k])
  {
    var lines := SummaryLines(Feed, r, rs);
    BlockCovered();
    assert |lines| == 3 + |rs| * 8 && lines[0] == "Corporate Actions Summary" + " (" + r.from + " to " + r.to + ")" && lines[1] == Rule('=') && lines[2] == "" by {
      SummaryOfRecords(Feed, r, rs, k, 0);
    }
    SummaryCard(r, rs, k);
  }

  /** Record `k` fills its 8 lines of the summary with its card. */
  lemma SummaryCard(r: DateRange, rs: seq<Record>, k: nat)
    requires forall n :: 0 <= n < |rs| ==> rs[n].Keys == CanonicalKeys(Table)
    requires k < |rs|
    ensures var lines := SummaryLines(Feed, r, rs);
      3 + k * 8 + 8 <= |lines| && lines[3 + k * 8..3 + k * 8 + 8] == Card(rs[k])
  {
    BlockCovered();
    CardRendered(rs[k]);
    SummaryBlock(Feed, r, rs, k, Card(rs[k]));
  }

  /**
   * The query runs from yesterday to today, and the files of a run are
   * `corporate_actions_<to>.json` when a truthy payload came back,
   * `corporate_actions_<to>_summary.txt` when in addition the filter kept a
   * record, and `corporate_actions_raw_response_attempt_<n>.txt` for each attempt
   * whose ok response did not parse. The run returns the filtered records,
   * or `[]` when nothing was fetched.
   */
  lemma Outputs(today: Date, outcomes: seq<Navigation>, m: nat)
    requires Valid(today) && |outcomes| == MaxAttempts && today != Date(MinYear, 1, 1)
    ensures var run, o, to := ExpectedRun(Feed, today, outcomes), Outcome(DirectSteps(outcomes, Feed.probe), None), FormatDMY(today);
      && QueryRange(Feed.span, today) == Some(DateRange(FormatDMY(PrevDay(today).value), to))
      && (JsonName("corporate_actions", to) in run.files <==> TruthyOpt(o.payload))
      && (SummaryName("corporate_actions", to) in run.files <==> TruthyOpt(o.payload) && run.exit.records != [])
      && (DumpName("corporate_actions", m) in run.dumpFiles <==> 1 <= m <= o.attempts && Unparsable(outcomes[m - 1]))
      && run.exit == Returned(if TruthyOpt(o.payload) then FeedFilter(Feed, o.payload.value) else [])
  {
    SinceYesterdayRange(today);
    var to := FormatDMY(today);
    OutputsOfRun(Feed, today, outcomes);
    DumpFileOfAttempt(Feed, today, outcomes, m);
  }
}
