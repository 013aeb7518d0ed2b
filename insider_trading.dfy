/**
 * `insider_trading.py`: the NSE insider-trading (PIT) disclosures of the
 * current day. The records sit under the payload's `data` member.
 */
module InsiderTrading {
  import opened Wrappers
  import opened Json
  import opened Dates
  import opened Text
  import opened Retry
  import opened Attempts
  import opened Normalize
  import opened Summary
  import opened Pipeline

  /** The 15 fields of a normalized disclosure and the source keys they are read from. */
  const Table: KeyTable := [
    Field("symbol", "symbol"),
    Field("company", "company"),
    Field("acquirerName", "acqName"),
    Field("personCategory", "personCategory"),
    Field("transactionType", "tdpTransactionType"),
    Field("securityType", "secType"),
    Field("securityAcquired", "secAcq"),
    Field("securityValue", "secVal"),
    Field("preSharesNo", "befAcqSharesNo"),
    Field("preSharesPer", "befAcqSharesPer"),
    Field("postSharesNo", "afterAcqSharesNo"),
    Field("postSharesPer", "afterAcqSharesPer"),
    Field("acquisitionMode", "acqMode"),
    Field("exchange", "exchange"),
    Field("date", "date")
  ]

  /** The lines written per disclosure: 13 labelled lines, a rule and a blank line. */
  const Block: seq<Template> := [
    Line("Symbol: ", "symbol", ""),
    Line("Company: ", "company", ""),
    Line("Acquirer Name: ", "acquirerName", ""),
    Line("Person Category: ", "personCategory", ""),
    Line("Transaction Type: ", "transactionType", ""),
    Line("Security Type: ", "securityType", ""),
    Line("Securities Acquired: ", "securityAcquired", ""),
    Line("Security Value: Rs. ", "securityValue", ""),
    Pair("Pre-Transaction Shares: ", "preSharesNo", " (", "preSharesPer", "%)"),
    Pair("Post-Transaction Shares: ", "postSharesNo", " (", "postSharesPer", "%)"),
    Line("Acquisition Mode: ", "acquisitionMode", ""),
    Line("Exchange: ", "exchange", ""),
    Line("Date: ", "date", ""),
    Fixed(Rule('=')),
    Fixed("")
  ]

  const Feed: JsonFeed := JsonFeed(
    "insider_trading", "insider_trading", "Insider Trading Summary",
    Today, RangeHeading, LenOfData, true, Table, Block)

  lemma TableDistinct()
    ensures DistinctKeys(Table)
  {
    forall i, j | 0 <= i < j < |Table| ensures Table[i].canonical != Table[j].canonical {
      assert i in {0, 1, 2, 3, 4, 5, 6, 7, 8, 9, 10, 11, 12, 13, 14};
      assert j in {0, 1, 2, 3, 4, 5, 6, 7, 8, 9, 10, 11, 12, 13, 14};
    }
  }

  /** Every key the block reads is a field of a normalized record. */
  lemma BlockCovered()
    ensures BlockReadsTable(Feed)
  {
    var ks := CanonicalKeys(Table);
    assert forall i :: 0 <= i < |Table| ==> Table[i].canonical in ks;
    BlockFirstKeys(ks);
    BlockLastKeys(ks);
  }

  lemma BlockFirstKeys(ks: set<string>)
    requires forall i :: 0 <= i < |Table| ==> Table[i].canonical in ks
    ensures forall j :: 0 <= j < 8 ==> KeysOf(Block[j]) <= ks
  {
    assert Table[0].canonical in ks && Table[1].canonical in ks && Table[2].canonical in ks && Table[3].canonical in ks
      && Table[4].canonical in ks && Table[5].canonical in ks && Table[6].canonical in ks && Table[7].canonical in ks;
    forall j | 0 <= j < 8 ensures KeysOf(Block[j]) <= ks {
      assert j in {0, 1, 2, 3, 4, 5, 6, 7};
    }
  }

  lemma BlockLastKeys(ks: set<string>)
    requires forall i :: 0 <= i < |Table| ==> Table[i].canonical in ks
    ensures forall j :: 8 <= j < |Block| ==> KeysOf(Block[j]) <= ks
  {
    assert Table[8].canonical in ks && Table[9].canonical in ks && Table[10].canonical in ks && Table[11].canonical in ks
      && Table[12].canonical in ks && Table[13].canonical in ks && Table[14].canonical in ks;
    forall j | 8 <= j < |Block| ensures KeysOf(Block[j]) <= ks {
      assert j in {8, 9, 10, 11, 12, 13, 14};
    }
  }

  /**
   * Every element of `data` becomes one disclosure, in order, each of the 15
   * fields read from its fixed source key, with `''` when the key is absent.
   */
  lemma FilterFields(d: Doc, es: seq<Entry>, k: nat)
    requires Elements(Feed, d) == Some(es) && forall n :: 0 <= n < |es| ==> es[n].Object?
    requires k < |es|
    ensures |FeedFilter(Feed, d)| == |es|
    ensures FeedFilter(Feed, d)[k].Keys == CanonicalKeys(Table)
    ensures var r, item := FeedFilter(Feed, d)[k], es[k].fields;
      && Get(r, "symbol") == Get(item, "symbol")
      && Get(r, "company") == Get(item, "company")
      && Get(r, "acquirerName") == Get(item, "acqName")
      && Get(r, "personCategory") == Get(item, "personCategory")
      && Get(r, "transactionType") == Get(item, "tdpTransactionType")
      && Get(r, "securityType") == Get(item, "secType")
      && Get(r, "securityAcquired") == Get(item, "secAcq")
      && Get(r, "securityValue") == Get(item, "secVal")
      && Get(r, "preSharesNo") == Get(item, "befAcqSharesNo")
      && Get(r, "preSharesPer") == Get(item, "befAcqSharesPer")
      && Get(r, "postSharesNo") == Get(item, "afterAcqSharesNo")
      && Get(r, "postSharesPer") == Get(item, "afterAcqSharesPer")
      && Get(r, "acquisitionMode") == Get(item, "acqMode")
      && Get(r, "exchange") == Get(item, "exchange")
      && Get(r, "date") == Get(item, "date")
  {
    TableDistinct();
    FilterMapsEveryElement(Feed, d, es);
    FilteredKeys(Feed, d);
    DisclosureRecord(FeedFilter(Feed, d)[k], es[k].fields);
  }

  /** A record that holds, for each row of the table, the value of its source key. */
  lemma DisclosureRecord(r: Record, item: Item)
    requires forall i :: 0 <= i < |Table| ==> Table[i].canonical in r && r[Table[i].canonical] == Get(item, Table[i].source)
    ensures
      && Get(r, "symbol") == Get(item, "symbol")
      && Get(r, "company") == Get(item, "company")
      && Get(r, "acquirerName") == Get(item, "acqName")
      && Get(r, "personCategory") == Get(item, "personCategory")
      && Get(r, "transactionType") == Get(item, "tdpTransactionType")
      && Get(r, "securityType") == Get(item, "secType")
      && Get(r, "securityAcquired") == Get(item, "secAcq")
      && Get(r, "securityValue") == Get(item, "secVal")
      && Get(r, "preSharesNo") == Get(item, "befAcqSharesNo")
      && Get(r, "preSharesPer") == Get(item, "befAcqSharesPer")
      && Get(r, "postSharesNo") == Get(item, "afterAcqSharesNo")
      && Get(r, "postSharesPer") == Get(item, "afterAcqSharesPer")
      && Get(r, "acquisitionMode") == Get(item, "acqMode")
      && Get(r, "exchange") == Get(item, "exchange")
      && Get(r, "date") == Get(item, "date")
  {
    assert Table[0].canonical == "symbol" && Table[1].canonical == "company" && Table[2].canonical == "acquirerName"
      && Table[3].canonical == "personCategory" && Table[4].canonical == "transactionType" && Table[5].canonical == "securityType"
      && Table[6].canonical == "securityAcquired";
    assert Table[0].source == "symbol" && Table[1].source == "company" && Table[2].source == "acqName"
      && Table[3].source == "personCategory" && Table[4].source == "tdpTransactionType" && Table[5].source == "secType"
      && Table[6].source == "secAcq";
    DisclosureRecordRest(r, item);
  }

  lemma DisclosureRecordRest(r: Record, item: Item)
    requires forall i :: 0 <= i < |Table| ==> Table[i].canonical in r && r[Table[i].canonical] == Get(item, Table[i].source)
    ensures
      && Get(r, "securityValue") == Get(item, "secVal")
      && Get(r, "preSharesNo") == Get(item, "befAcqSharesNo")
      && Get(r, "preSharesPer") == Get(item, "befAcqSharesPer")
      && Get(r, "postSharesNo") == Get(item, "afterAcqSharesNo")
      && Get(r, "postSharesPer") == Get(item, "afterAcqSharesPer")
      && Get(r, "acquisitionMode") == Get(item, "acqMode")
      && Get(r, "exchange") == Get(item, "exchange")
      && Get(r, "date") == Get(item, "date")
  {
    assert Table[7].canonical == "securityValue" && Table[8].canonical == "preSharesNo"
      && Table[9].canonical == "preSharesPer" && Table[10].canonical == "postSharesNo" && Table[11].canonical == "postSharesPer"
      && Table[12].canonical == "acquisitionMode" && Table[13].canonical == "exchange" && Table[14].canonical == "date";
    assert Table[7].source == "secVal" && Table[8].source == "befAcqSharesNo"
      && Table[9].source == "befAcqSharesPer" && Table[10].source == "afterAcqSharesNo" && Table[11].source == "afterAcqSharesPer"
      && Table[12].source == "acqMode" && Table[13].source == "exchange" && Table[14].source == "date";
  }

  /** The lines of one disclosure in the summary: 13 labelled lines (the value in rupees, the share counts with their percentages in parentheses), a rule of `=` and a blank line. */
  function Card(rec: Record): seq<string> {
    [
      "Symbol: " + Get(rec, "symbol"),
      "Company: " + Get(rec, "company"),
      "Acquirer Name: " + Get(rec, "acquirerName"),
      "Person Category: " + Get(rec, "personCategory"),
      "Transaction Type: " + Get(rec, "transactionType"),
      "Security Type: " + Get(rec, "securityType"),
      "Securities Acquired: " + Get(rec, "securityAcquired"),
      "Security Value: Rs. " + Get(rec, "securityValue"),
      "Pre-Transaction Shares: " + Get(rec, "preSharesNo") + " (" + Get(rec, "preSharesPer") + "%)",
      "Post-Transaction Shares: " + Get(rec, "postSharesNo") + " (" + Get(rec, "postSharesPer") + "%)",
      "Acquisition Mode: " + Get(rec, "acquisitionMode"),
      "Exchange: " + Get(rec, "exchange"),
      "Date: " + Get(rec, "date"),
      Rule('='),
      ""
    ]
  }

  /** A record carrying the table's keys renders each block line completely, as its card says. */
  lemma CardRendered(rec: Record)
    requires rec.Keys == CanonicalKeys(Table)
    ensures forall j :: 0 <= j < |Block| ==> Fill(Block[j], Object(rec)) == Some(Card(rec)[j])
  {
    assert forall i :: 0 <= i < |Table| ==> Table[i].canonical in rec;
    KeysPresent(rec);
    CardFirstLines(rec);
    CardMiddleLines(rec);
    CardLastLines(rec);
    forall j | 0 <= j < |Block| ensures Fill(Block[j], Object(rec)) == Some(Card(rec)[j]) {
      assert j in {0, 1, 2, 3, 4, 5, 6, 7, 8, 9, 10, 11, 12, 13, 14};
    }
  }

  /** A record holding every canonical key of the table holds each of the 15 names. */
  lemma KeysPresent(rec: Record)
    requires forall i :: 0 <= i < |Table| ==> Table[i].canonical in rec
    ensures "symbol" in rec && "company" in rec && "acquirerName" in rec && "personCategory" in rec
    ensures "transactionType" in rec && "securityType" in rec && "securityAcquired" in rec && "securityValue" in rec
    ensures "preSharesNo" in rec && "preSharesPer" in rec && "postSharesNo" in rec && "postSharesPer" in rec
    ensures "acquisitionMode" in rec && "exchange" in rec && "date" in rec
  {
    assert Table[0].canonical in rec && Table[1].canonical in rec && Table[2].canonical in rec && Table[3].canonical in rec
      && Table[4].canonical in rec && Table[5].canonical in rec && Table[6].canonical in rec && Table[7].canonical in rec
      && Table[8].canonical in rec && Table[9].canonical in rec && Table[10].canonical in rec && Table[11].canonical in rec
      && Table[12].canonical in rec && Table[13].canonical in rec && Table[14].canonical in rec;
  }

  lemma CardFirstLines(rec: Record)
    requires "symbol" in rec && "company" in rec && "acquirerName" in rec && "personCategory" in rec && "transactionType" in rec
    ensures Fill(Block[0], Object(rec)) == Some(Card(rec)[0])
    ensures Fill(Block[1], Object(rec)) == Some(Card(rec)[1])
    ensures Fill(Block[2], Object(rec)) == Some(Card(rec)[2])
    ensures Fill(Block[3], Object(rec)) == Some(Card(rec)[3])
    ensures Fill(Block[4], Object(rec)) == Some(Card(rec)[4])
  {
    FillPlain("Symbol: ", "symbol", rec);
    FillPlain("Company: ", "company", rec);
    FillPlain("Acquirer Name: ", "acquirerName", rec);
    FillPlain("Person Category: ", "personCategory", rec);
    FillPlain("Transaction Type: ", "transactionType", rec);
  }

  lemma CardMiddleLines(rec: Record)
    requires "securityType" in rec && "securityAcquired" in rec && "securityValue" in rec
    requires "preSharesNo" in rec && "preSharesPer" in rec && "postSharesNo" in rec && "postSharesPer" in rec
    ensures Fill(Block[5], Object(rec)) == Some(Card(rec)[5])
    ensures Fill(Block[6], Object(rec)) == Some(Card(rec)[6])
    ensures Fill(Block[7], Object(rec)) == Some(Card(rec)[7])
    ensures Fill(Block[8], Object(rec)) == Some(Card(rec)[8])
    ensures Fill(Block[9], Object(rec)) == Some(Card(rec)[9])
  {
    FillPlain("Security Type: ", "securityType", rec);
    FillPlain("Securities Acquired: ", "securityAcquired", rec);
    FillPlain("Security Value: Rs. ", "securityValue", rec);
  }

  lemma CardLastLines(rec: Record)
    requires "acquisitionMode" in rec && "exchange" in rec && "date" in rec
    ensures Fill(Block[10], Object(rec)) == Some(Card(rec)[10])
    ensures Fill(Block[11], Object(rec)) == Some(Card(rec)[11])
    ensures Fill(Block[12], Object(rec)) == Some(Card(rec)[12])
    ensures Fill(Block[13], Object(rec)) == Some(Card(rec)[13])
    ensures Fill(Block[14], Object(rec)) == Some(Card(rec)[14])
  {
    FillPlain("Acquisition Mode: ", "acquisitionMode", rec);
    FillPlain("Exchange: ", "exchange", rec);
    FillPlain("Date: ", "date", rec);
  }

  /**
   * The summary of filtered disclosures: the title with the range, a rule of `=`, a
   * blank line, then the card of every disclosure, in order.
   */
  lemma SummaryShape(r: DateRange, rs: seq<Record>, k: nat)
    requires forall n :: 0 <= n < |rs| ==> rs[n].Keys == CanonicalKeys(Table)
    requires k < |rs|
    ensures var lines := SummaryLines(Feed, r, rs);
      |lines| == 3 + |rs| * 15
      && lines[0] == "Insider Trading Summary" + " (" + r.from + " to " + r.to + ")"
      && lines[1] == Rule('=') && lines[2] == ""
      && lines[3 + k * 15..3 + k * 15 + 15] == Card(rs[k])
  {
    var lines := SummaryLines(Feed, r, rs);
    BlockCovered();
    assert |lines| == 3 + |rs| * 15 && lines[0] == "Insider Trading Summary" + " (" + r.from + " to " + r.to + ")" && lines[1] == Rule('=') && lines[2] == "" by {
      SummaryOfRecords(Feed, r, rs, k, 0);
    }
    SummaryCard(r, rs, k);
  }

  /** Record `k` fills its 15 lines of the summary with its card. */
  lemma SummaryCard(r: DateRange, rs: seq<Record>, k: nat)
    requires forall n :: 0 <= n < |rs| ==> rs[n].Keys == CanonicalKeys(Table)
    requires k < |rs|
    ensures var lines := SummaryLines(Feed, r, rs);
      3 + k * 15 + 15 <= |lines| && lines[3 + k * 15..3 + k * 15 + 15] == Card(rs[k])
  {
    BlockCovered();
    FeedCard(rs[k]);
    SummaryBlock(Feed, r, rs, k, Card(rs[k]));
  }

  /** The card of a record, stated for the block of the feed. */
  lemma FeedCard(rec: Record)
    requires rec.Keys == CanonicalKeys(Table)
    ensures |Card(rec)| == |Feed.block| == 15
    ensures forall j :: 0 <= j < |Card(rec)| ==> Fill(Feed.block[j], Object(rec)) == Some(Card(rec)[j])
  {
    CardRendered(rec);
  }

  /**
   * The query runs from today to today, and the files of a run are
   * `insider_trading_<to>.json` when a truthy payload came back,
   * `insider_trading_<to>_summary.txt` when in addition the filter kept a
   * record, and `insider_trading_raw_response_attempt_<n>.txt` for each attempt
   * whose ok response did not parse. The run returns the filtered records,
   * or `[]` when nothing was fetched.
   */
  lemma Outputs(today: Date, outcomes: seq<Navigation>, m: nat)
    requires Valid(today) && |outcomes| == MaxAttempts
    ensures var run, o, to := ExpectedRun(Feed, today, outcomes), Outcome(DirectSteps(outcomes, Feed.probe), None), FormatDMY(today);
      && QueryRange(Feed.span, today) == Some(DateRange(to, to))
      && (JsonName("insider_trading", to) in run.files <==> TruthyOpt(o.payload))
      && (SummaryName("insider_trading", to) in run.files <==> TruthyOpt(o.payload) && run.exit.records != [])
      && (DumpName("insider_trading", m) in run.dumpFiles <==> 1 <= m <= o.attempts && Unparsable(outcomes[m - 1]))
      && run.exit == Returned(if TruthyOpt(o.payload) then FeedFilter(Feed, o.payload.value) else [])
  {
    var to := FormatDMY(today);
    OutputsOfRun(Feed, today, outcomes);
    DumpFileOfAttempt(Feed, today, outcomes, m);
  }
}
