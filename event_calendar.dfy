/**
 * `event_calendar.py`: the NSE event calendar of the current day. The payload
 * is the list of records itself; the summary title names the single day.
 */
module EventCalendar {
  import opened Wrappers
  import opened Json
  import opened Dates
  import opened Text
  import opened Retry
  import opened Attempts
  import opened Normalize
  import opened Summary
  import opened Pipeline

  /** The 5 fields of a normalized event; the description comes from `bm_desc`. */
  const Table: KeyTable := [
    Field("symbol", "symbol"),
    Field("company", "company"),
    Field("purpose", "purpose"),
    Field("description", "bm_desc"),
    Field("date", "date")
  ]

  /** The lines written per event: 5 labelled lines, a rule and a blank line. */
  const Block: seq<Template> := [
    Line("Symbol: ", "symbol", ""),
    Line("Company: ", "company", ""),
    Line("Purpose: ", "purpose", ""),
    Line("Description: ", "description", ""),
    Line("Date: ", "date", ""),
    Fixed(Rule('=')),
    Fixed("")
  ]

  const Feed: JsonFeed := JsonFeed(
    "event_calendar", "event", "Event Calendar Summary",
    Today, DayHeading, LenOfPayload, false, Table, Block)

  lemma TableDistinct()
    ensures DistinctKeys(Table)
  {
    forall i, j | 0 <= i < j < |Table| ensures Table[i].canonical != Table[j].canonical {
      assert i in {0, 1, 2, 3, 4};
      assert j in {0, 1, 2, 3, 4};
    }
  }

  /** Every key the block reads is a field of a normalized record. */
  lemma BlockCovered()
    ensures BlockReadsTable(Feed)
  {
    var ks := CanonicalKeys(Table);
    assert Table[0].canonical in ks && Table[1].canonical in ks && Table[2].canonical in ks && Table[3].canonical in ks
      && Table[4].canonical in ks;
    forall j | 0 <= j < |Block| ensures KeysOf(Block[j]) <= ks {
      assert j in {0, 1, 2, 3, 4, 5, 6};
    }
  }

  /**
   * Every element of the list becomes one event, in order, each of the 5
   * fields read from its source key, with `''` when it is absent.
   */
  lemma FilterFields(d: Doc, es: seq<Entry>, k: nat)
    requires Elements(Feed, d) == Some(es) && forall n :: 0 <= n < |es| ==> es[n].Object?
    requires k < |es|
    ensures |FeedFilter(Feed, d)| == |es|
    ensures FeedFilter(Feed, d)[k].Keys == CanonicalKeys(Table)
    ensures var r, item := FeedFilter(Feed, d)[k], es[k].fields;
      && Get(r, "symbol") == Get(item, "symbol")
      && Get(r, "company") == Get(item, "company")
      && Get(r, "purpose") == Get(item, "purpose")
      && Get(r, "description") == Get(item, "bm_desc")
      && Get(r, "date") == Get(item, "date")
  {
    TableDistinct();
    FilterMapsEveryElement(Feed, d, es);
    FilteredKeys(Feed, d);
    assert Table[0].canonical == "symbol" && Table[1].canonical == "company" && Table[2].canonical == "purpose"
      && Table[3].canonical == "description" && Table[4].canonical == "date";
  }

  /** The lines of one event in the summary: 5 labelled lines, a rule of `=` and a blank line. */
  function Card(rec: Record): seq<string> {
    [
      "Symbol: " + Get(rec, "symbol"),
      "Company: " + Get(rec, "company"),
      "Purpose: " + Get(rec, "purpose"),
      "Description: " + Get(rec, "description"),
      "Date: " + Get(rec, "date"),
      Rule('='),
      ""
    ]
  }

  /** A record carrying the table's keys renders each block line completely, as its card says. */
  lemma CardRendered(rec: Record)
    requires rec.Keys == CanonicalKeys(Table)
    ensures forall j :: 0 <= j < |Block| ==> Fill(Block[j], Object(rec)) == Some(Card(rec)[j])
  {
    BlockCovered();
    forall j | 0 <= j < |Block| ensures Fill(Block[j], Object(rec)) == Some(Card(rec)[j]) {
      assert j in {0, 1, 2, 3, 4, 5, 6};
      assert KeysOf(Block[j]) <= rec.Keys;
      if j == 0 {
        assert "Symbol: " + Get(rec, "symbol") + "" == "Symbol: " + Get(rec, "symbol");
      }
      else if j == 1 {
        assert "Company: " + Get(rec, "company") + "" == "Company: " + Get(rec, "company");
      }
      else if j == 2 {
        assert "Purpose: " + Get(rec, "purpose") + "" == "Purpose: " + Get(rec, "purpose");
      }
      else if j == 3 {
        assert "Description: " + Get(rec, "description") + "" == "Description: " + Get(rec, "description");
      }
      else if j == 4 {
        assert "Date: " + Get(rec, "date") + "" == "Date: " + Get(rec, "date");
      }
    }
  }

  /**
   * The summary of filtered events: the title with the single date, a rule of `=`, a
   * blank line, then the card of every event, in order.
   */
  lemma SummaryShape(r: DateRange, rs: seq<Record>, k: nat)
    requires forall n :: 0 <= n < |rs| ==> rs[n].Keys == CanonicalKeys(Table)
    requires k < |rs|
    ensures var lines := SummaryLines(Feed, r, rs);
      |lines| == 3 + |rs| * 7
      && lines[0] == "Event Calendar Summary" + " (" + r.to + ")"
      && lines[1] == Rule('=') && lines[2] == ""
      && lines[3 + k * 7..3 + k * 7 + 7] == Card(rs[k])
  {
    var lines := SummaryLines(Feed, r, rs);
    BlockCovered();
    assert |lines| == 3 + |rs| * 7 && lines[0] == "Event Calendar Summary" + " (" + r.to + ")" && lines[1] == Rule('=') && lines[2] == "" by {
      SummaryOfRecords(Feed, r, rs, k, 0);
    }
    SummaryCard(r, rs, k);
  }

  /** Record `k` fills its 7 lines of the summary with its card. */
  lemma SummaryCard(r: DateRange, rs: seq<Record>, k: nat)
    requires forall n :: 0 <= n < |rs| ==> rs[n].Keys == CanonicalKeys(Table)
    requires k < |rs|
    ensures var lines := SummaryLines(Feed, r, rs);
      3 + k * 7 + 7 <= |lines| && lines[3 + k * 7..3 + k * 7 + 7] == Card(rs[k])
  {
    BlockCovered();
    CardRendered(rs[k]);
    SummaryBlock(Feed, r, rs, k, Card(rs[k]));
  }

  /**
   * The query runs from today to today, and the files of a run are
   * `event_calendar_<to>.json` when a truthy payload came back,
   * `event_calendar_<to>_summary.txt` when in addition the filter kept a
   * record, and `event_raw_response_attempt_<n>.txt` for each attempt
   * whose ok response did not parse. The run returns the filtered records,
   * or `[]` when nothing was fetched.
   */
  lemma Outputs(today: Date, outcomes: seq<Navigation>, m: nat)
    requires Valid(today) && |outcomes| == MaxAttempts
    ensures var run, o, to := ExpectedRun(Feed, today, outcomes), Outcome(DirectSteps(outcomes, Feed.probe), None), FormatDMY(today);
      && QueryRange(Feed.span, today) == Some(DateRange(to, to))
      && (JsonName("event_calendar", to) in run.files <==> TruthyOpt(o.payload))
      && (SummaryName("event_calendar", to) in run.files <==> TruthyOpt(o.payload) && run.exit.records != [])
      && (DumpName("event", m) in run.dumpFiles <==> 1 <= m <= o.attempts && Unparsable(outcomes[m - 1]))
      && run.exit == Returned(if TruthyOpt(o.payload) then FeedFilter(Feed, o.payload.value) else [])
  {
    var to := FormatDMY(today);
    OutputsOfRun(Feed, today, outcomes);
    DumpFileOfAttempt(Feed, today, outcomes, m);
  }
}
