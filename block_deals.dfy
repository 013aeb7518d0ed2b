/**
 * `block_deals.py`: the NSE block deals between yesterday and today. The
 * records sit under the payload's `data` member and use `BD_*` keys.
 */
module BlockDeals {
  import opened Wrappers
  import opened Json
  import opened Dates
  import opened Text
  import opened Retry
  import opened Attempts
  import opened Normalize
  import opened Summary
  import opened Pipeline

  /** The 7 fields of a normalized deal and the `BD_*` keys they are read from. */
  const Table: KeyTable := [
    Field("symbol", "BD_SYMBOL"),
    Field("companyName", "BD_SCRIP_NAME"),
    Field("clientName", "BD_CLIENT_NAME"),
    Field("buySell", "BD_BUY_SELL"),
    Field("quantity", "BD_QTY_TRD"),
    Field("price", "BD_TP_WATP"),
    Field("date", "mTIMESTAMP")
  ]

  /** The lines written per deal: 7 labelled lines, a rule and a blank line. */
  const Block: seq<Template> := [
    Line("Symbol: ", "symbol", ""),
    Line("Company: ", "companyName", ""),
    Line("Client: ", "clientName", ""),
    Line("Transaction Type: ", "buySell", ""),
    Line("Quantity: ", "quantity", ""),
    Line("Price: Rs. ", "price", ""),
    Line("Date: ", "date", ""),
    Fixed(Rule('=')),
    Fixed("")
  ]

  const Feed: JsonFeed := JsonFeed(
    "block_deals", "block_deals", "Block Deals Summary",
    SinceYesterday, RangeHeading, LenOfData, true, Table, Block)

  lemma TableDistinct()
    ensures DistinctKeys(Table)
  {
    forall i, j | 0 <= i < j < |Table| ensures Table[i].canonical != Table[j].canonical {
      assert i in {0, 1, 2, 3, 4, 5, 6};
      assert j in {0, 1, 2, 3, 4, 5, 6};
    }
  }

  /** Every key the block reads is a field of a normalized record. */
  lemma BlockCovered()
    ensures BlockReadsTable(Feed)
  {
    var ks := CanonicalKeys(Table);
    assert Table[0].canonical in ks && Table[1].canonical in ks && Table[2].canonical in ks && Table[3].canonical in ks
      && Table[4].canonical in ks && Table[5].canonical in ks && Table[6].canonical in ks;
    forall j | 0 <= j < |Block| ensures KeysOf(Block[j]) <= ks {
      assert j in {0, 1, 2, 3, 4, 5, 6, 7, 8};
    }
  }

  /**
   * Every element of `data` becomes one deal, in order, each of the 7 fields
   * read from its `BD_*` key (the date from `mTIMESTAMP`), with `''` when the
   * key is absent.
   */
  lemma FilterFields(d: Doc, es: seq<Entry>, k: nat)
    requires Elements(Feed, d) == Some(es) && forall n :: 0 <= n < |es| ==> es[n].Object?
    requires k < |es|
    ensures |FeedFilter(Feed, d)| == |es|
    ensures FeedFilter(Feed, d)[k].Keys == CanonicalKeys(Table)
    ensures var r, item := FeedFilter(Feed, d)[k], es[k].fields;
      && Get(r, "symbol") == Get(item, "BD_SYMBOL")
      && Get(r, "companyName") == Get(item, "BD_SCRIP_NAME")
      && Get(r, "clientName") == Get(item, "BD_CLIENT_NAME")
      && Get(r, "buySell") == Get(item, "BD_BUY_SELL")
      && Get(r, "quantity") == Get(item, "BD_QTY_TRD")
      && Get(r, "price") == Get(item, "BD_TP_WATP")
      && Get(r, "date") == Get(item, "mTIMESTAMP")
  {
    TableDistinct();
    FilterMapsEveryElement(Feed, d, es);
    FilteredKeys(Feed, d);
    assert Table[0].canonical == "symbol" && Table[1].canonical == "companyName" && Table[2].canonical == "clientName"
      && Table[3].canonical == "buySell" && Table[4].canonical == "quantity" && Table[5].canonical == "price"
      && Table[6].canonical == "date";
  }

  /** The lines of one deal in the summary: 7 labelled lines (`buySell` under `Transaction Type`, the price in rupees), a rule of `=` and a blank line. */
  function Card(rec: Record): seq<string> {
    [
      "Symbol: " + Get(rec, "symbol"),
      "Company: " + Get(rec, "companyName"),
      "Client: " + Get(rec, "clientName"),
      "Transaction Type: " + Get(rec, "buySell"),
      "Quantity: " + Get(rec, "quantity"),
      "Price: Rs. " + Get(rec, "price"),
      "Date: " + Get(rec, "date"),
      Rule('='),
      ""
    ]
  }

  /** A record carrying the table's keys renders each block line completely, as its card says. */
  lemma CardRendered(rec: Record)
    requires rec.Keys == CanonicalKeys(Table)
    ensures forall j :: 0 <= j < |Block| ==> Fill(Block[j], Object(rec)) == Some(Card(rec)[j])
  {
    BlockCovered();
    forall j | 0 <= j < |Block| ensures Fill(Block[j], Object(rec)) == Some(Card(rec)[j]) {
      assert j in {0, 1, 2, 3, 4, 5, 6, 7, 8};
      assert KeysOf(Block[j]) <= rec.Keys;
      if j == 0 {
        assert "Symbol: " + Get(rec, "symbol") + "" == "Symbol: " + Get(rec, "symbol");
      }
      else if j == 1 {
        assert "Company: " + Get(rec, "companyName") + "" == "Company: " + Get(rec, "companyName");
      }
      else if j == 2 {
        assert "Client: " + Get(rec, "clientName") + "" == "Client: " + Get(rec, "clientName");
      }
      else if j == 3 {
        assert "Transaction Type: " + Get(rec, "buySell") + "" == "Transaction Type: " + Get(rec, "buySell");
      }
      else if j == 4 {
        assert "Quantity: " + Get(rec, "quantity") + "" == "Quantity: " + Get(rec, "quantity");
      }
      else if j == 5 {
        assert "Price: Rs. " + Get(rec, "price") + "" == "Price: Rs. " + Get(rec, "price");
      }
      else if j == 6 {
        assert "Date: " + Get(rec, "date") + "" == "Date: " + Get(rec, "date");
      }
    }
  }

  /**
   * The summary of filtered deals: the title with the range, a rule of `=`, a
   * blank line, then the card of every deal, in order.
   */
  lemma SummaryShape(r: DateRange, rs: seq<Record>, k: nat)
    requires forall n :: 0 <= n < |rs| ==> rs[n].Keys == CanonicalKeys(Table)
    requires k < |rs|
    ensures var lines := SummaryLines(Feed, r, rs);
      |lines| == 3 + |rs| * 9
      && lines[0] == "Block Deals Summary" + " (" + r.from + " to " + r.to + ")"
      && lines[1] == Rule('=') && lines[2] == ""
      && lines[3 + k * 9..3 + k * 9 + 9] == Card(rs[k])
  {
    var lines := SummaryLines(Feed, r, rs);
    BlockCovered();
    assert |lines| == 3 + |rs| * 9 && lines[0] == "Block Deals Summary" + " (" + r.from + " to " + r.to + ")" && lines[1] == Rule('=') && lines[2] == "" by {
      SummaryOfRecords(Feed, r, rs, k, 0);
    }
    SummaryCard(r, rs, k);
  }

  /** Record `k` fills its 9 lines of the summary with its card. */
  lemma SummaryCard(r: DateRange, rs: seq<Record>, k: nat)
    requires forall n :: 0 <= n < |rs| ==> rs[n].Keys == CanonicalKeys(Table)
    requires k < |rs|
    ensures var lines := SummaryLines(Feed, r, rs);
      3 + k * 9 + 9 <= |lines| && lines[3 + k * 9..3 + k * 9 + 9] == Card(rs[k])
  {
    BlockCovered();
    CardRendered(rs[k]);
    SummaryBlock(Feed, r, rs, k, Card(rs[k]));
  }

  /**
   * The query runs from yesterday to today, and the files of a run are
   * `block_deals_<to>.json` when a truthy payload came back,
   * `block_deals_<to>_summary.txt` when in addition the filter kept a
   * record, and `block_deals_raw_response_attempt_<n>.txt` for each attempt
   * whose ok response did not parse. The run returns the filtered records,
   * or `[]` when nothing was fetched.
   */
  lemma Outputs(today: Date, outcomes: seq<Navigation>, m: nat)
    requires Valid(today) && |outcomes| == MaxAttempts && today != Date(MinYear, 1, 1)
    ensures var run, o, to := ExpectedRun(Feed, today, outcomes), Outcome(DirectSteps(outcomes, Feed.probe), None), FormatDMY(today);
      && QueryRange(Feed.span, today) == Some(DateRange(FormatDMY(PrevDay(today).value), to))
      && (JsonName("block_deals", to) in run.files <==> TruthyOpt(o.payload))
      && (SummaryName("block_deals", to) in run.files <==> TruthyOpt(o.payload) && run.exit.records != [])
      && (DumpName("block_deals", m) in run.dumpFiles <==> 1 <= m <= o.attempts && Unparsable(outcomes[m - 1]))
      && run.exit == Returned(if TruthyOpt(o.payload) then FeedFilter(Feed, o.payload.value) else [])
  {
    SinceYesterdayRange(today);
    var to := FormatDMY(today);
    OutputsOfRun(Feed, today, outcomes);
    DumpFileOfAttempt(Feed, today, outcomes, m);
  }
}
