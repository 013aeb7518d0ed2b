/**
 * `market_data.py`: the NIFTY 50 index history of the current day and the
 * market turnover, fetched by two three-attempt loops, filtered together,
 * saved together, and summarized in one file with two sections.
 */
module MarketData {
  import opened Wrappers
  import opened Json
  import opened Dates
  import opened Retry
  import opened Attempts
  import opened Normalize
  import opened Summary
  import Pipeline

  /** The 7 fields of an index entry and the keys they are read from. */
  const IndexTable: KeyTable := [
    Field("indexName", "index"),
    Field("date", "timestamp"),
    Field("open", "open"),
    Field("close", "close"),
    Field("high", "high"),
    Field("low", "low"),
    Field("volume", "volume")
  ]

  /** The 3 fields of a turnover entry, each read from the key of the same name. */
  const TurnoverTable: KeyTable := [
    Field("segment", "segment"),
    Field("turnover", "turnover"),
    Field("date", "date")
  ]

  /** The lines written per index entry: 7 labelled lines and a rule of `-`. */
  const IndexBlock: seq<Template> := [
    Line("Index: ", "indexName", ""),
    Line("Date: ", "date", ""),
    Line("Open: ", "open", ""),
    Line("Close: ", "close", ""),
    Line("High: ", "high", ""),
    Line("Low: ", "low", ""),
    Line("Volume: ", "volume", ""),
    Fixed(Rule('-'))
  ]

  /** The lines written per turnover entry: 3 labelled lines (the turnover in crore rupees) and a rule of `-`. */
  const TurnoverBlock: seq<Template> := [
    Line("Segment: ", "segment", ""),
    Line("Turnover: Rs. ", "turnover", " Cr"),
    Line("Date: ", "date", ""),
    Fixed(Rule('-'))
  ]

  /** The two lists `filter_market_data` returns. */
  datatype Filtered = Filtered(index: seq<Record>, turnover: seq<Record>)

  /** One list of the filter: the entries of `d.get('data', [])` mapped through the table, None when that raises. */
  function Section(d: Doc, t: KeyTable): Option<seq<Record>> {
    match DataEntries(d)
    case None => None
    case Some(es) => Normalized(es, t, [])
  }

  /** `filter_market_data(index_data, turnover_data)`: both loops run in one `try`, so either raising empties both lists. */
  function FilterMarket(index: Doc, turnover: Doc): Filtered {
    match (Section(index, IndexTable), Section(turnover, TurnoverTable))
    case (Some(i), Some(t)) => Filtered(i, t)
    case _ => Filtered([], [])
  }

  /** `payload or {}`: a falsy or missing payload is replaced by an empty object. */
  function OrEmpty(p: Option<Doc>): (d: Doc)
    ensures TruthyOpt(p) ==> d == p.value
    ensures !TruthyOpt(p) ==> d == Dict(None, 0)
  {
    if TruthyOpt(p) then p.value else Dict(None, 0)
  }

  /** The filter method: the index loop, then the turnover loop, each appending one entry per element. */
  method FilterMarketData(index: Doc, turnover: Doc) returns (f: Filtered)
    ensures f == FilterMarket(index, turnover)
  {
    var ies := DataEntries(index);
    if ies.None? {
      return Filtered([], []);
    }
    var indexRecords, ok := NormalizeEntries(ies.value, IndexTable, []);
    if !ok {
      return Filtered([], []);
    }
    var tes := DataEntries(turnover);
    if tes.None? {
      return Filtered([], []);
    }
    var turnoverRecords, ok2 := NormalizeEntries(tes.value, TurnoverTable, []);
    if !ok2 {
      return Filtered([], []);
    }
    f := Filtered(indexRecords, turnoverRecords);
  }

  lemma IndexTableDistinct()
    ensures DistinctKeys(IndexTable)
  {
    forall i, j | 0 <= i < j < |IndexTable| ensures IndexTable[i].canonical != IndexTable[j].canonical {
      assert i in {0, 1, 2, 3, 4, 5, 6};
      assert j in {0, 1, 2, 3, 4, 5, 6};
    }
  }

  lemma TurnoverTableDistinct()
    ensures DistinctKeys(TurnoverTable)
  {
    forall i, j | 0 <= i < j < |TurnoverTable| ensures TurnoverTable[i].canonical != TurnoverTable[j].canonical {
      assert i in {0, 1, 2};
      assert j in {0, 1, 2};
    }
  }

  /** An index entry carries exactly the 7 fields, each read from its source key, `''` when absent. */
  lemma IndexRecord(item: Item)
    ensures var r := Project(item, IndexTable);
      r.Keys == CanonicalKeys(IndexTable)
      && Get(r, "indexName") == Get(item, "index")
      && Get(r, "date") == Get(item, "timestamp")
      && Get(r, "open") == Get(item, "open")
      && Get(r, "close") == Get(item, "close")
      && Get(r, "high") == Get(item, "high")
      && Get(r, "low") == Get(item, "low")
      && Get(r, "volume") == Get(item, "volume")
  {
    IndexTableDistinct();
    forall i | 0 <= i < |IndexTable| ensures Project(item, IndexTable)[IndexTable[i].canonical] == Get(item, IndexTable[i].source) {
      ProjectAt(item, IndexTable, i);
    }
    assert IndexTable[0].canonical == "indexName" && IndexTable[1].canonical == "date" && IndexTable[2].canonical == "open"
      && IndexTable[3].canonical == "close" && IndexTable[4].canonical == "high" && IndexTable[5].canonical == "low"
      && IndexTable[6].canonical == "volume";
  }

  /** A turnover entry carries exactly the 3 fields, each read from the key of the same name, `''` when absent. */
  lemma TurnoverRecord(item: Item)
    ensures var r := Project(item, TurnoverTable);
      r.Keys == CanonicalKeys(TurnoverTable)
      && Get(r, "segment") == Get(item, "segment")
      && Get(r, "turnover") == Get(item, "turnover")
      && Get(r, "date") == Get(item, "date")
  {
    TurnoverTableDistinct();
    forall i | 0 <= i < |TurnoverTable| ensures Project(item, TurnoverTable)[TurnoverTable[i].canonical] == Get(item, TurnoverTable[i].source) {
      ProjectAt(item, TurnoverTable, i);
    }
    assert TurnoverTable[0].canonical == "segment" && TurnoverTable[1].canonical == "turnover" && TurnoverTable[2].canonical == "date";
  }

  /**
   * When both `data` members are arrays of objects, the filter yields one
   * index entry per index element and one turnover entry per turnover
   * element, in source order.
   */
  lemma FilterMapsBoth(index: Doc, turnover: Doc, ies: seq<Entry>, tes: seq<Entry>)
    requires DataEntries(index) == Some(ies) && forall k :: 0 <= k < |ies| ==> ies[k].Object?
    requires DataEntries(turnover) == Some(tes) && forall k :: 0 <= k < |tes| ==> tes[k].Object?
    ensures var f := FilterMarket(index, turnover);
      |f.index| == |ies| && |f.turnover| == |tes|
      && (forall k :: 0 <= k < |ies| ==> f.index[k] == Project(ies[k].fields, IndexTable))
      && (forall k :: 0 <= k < |tes| ==> f.turnover[k] == Project(tes[k].fields, TurnoverTable))
  {
    NormalizedPointwise(ies, IndexTable);
    NormalizedPointwise(tes, TurnoverTable);
  }

  /** A payload without a `data` member contributes an empty list and does not disturb the other. */
  lemma MissingDataIsEmpty(n: nat, other: Doc)
    ensures FilterMarket(Dict(None, n), other).index == []
    ensures FilterMarket(other, Dict(None, n)).turnover == []
    ensures FilterMarket(Dict(None, n), other).turnover == Section(other, TurnoverTable).GetOr([])
    ensures FilterMarket(other, Dict(None, n)).index == Section(other, IndexTable).GetOr([])
  {
    assert Section(Dict(None, n), IndexTable) == Some([]);
    assert Section(Dict(None, n), TurnoverTable) == Some([]);
  }

  /**
   * Both loops run in one `try`: a list given as the index payload makes
   * `.get` raise, which discards the turnover entries too.
   */
  lemma ListIndexRaises(es: seq<Entry>, turnover: Doc)
    ensures FilterMarket(Array(es), turnover) == Filtered([], [])
  {
    assert Section(Array(es), IndexTable).None?;
  }

  /** Every filtered entry carries exactly the fields of its table. */
  lemma FilteredKeys(index: Doc, turnover: Doc)
    ensures var f := FilterMarket(index, turnover);
      (forall k :: 0 <= k < |f.index| ==> f.index[k].Keys == CanonicalKeys(IndexTable))
      && (forall k :: 0 <= k < |f.turnover| ==> f.turnover[k].Keys == CanonicalKeys(TurnoverTable))
  {
    var f := FilterMarket(index, turnover);
    if f != Filtered([], []) {
      var ies, tes := DataEntries(index).value, DataEntries(turnover).value;
      forall k | 0 <= k < |f.index| ensures f.index[k].Keys == CanonicalKeys(IndexTable) {
        NormalizedMember(ies, IndexTable, [], f.index[k]);
      }
      forall k | 0 <= k < |f.turnover| ensures f.turnover[k].Keys == CanonicalKeys(TurnoverTable) {
        NormalizedMember(tes, TurnoverTable, [], f.turnover[k]);
      }
    }
  }

  /** The title, a rule of `=`, a blank line, and the index section header with its rule of `-`. */
  function IndexHeader(today: string): seq<string> {
    ["Market Data Summary (" + today + ")", Rule('='), "", "Index Data (NIFTY 50)", Rule('-')]
  }

  /** A blank line and the turnover section header with its rule of `-`. */
  const TurnoverHeader: seq<string> := ["", "Turnover Data", Rule('-')]

  /** The summary file: the index section, then the turnover section, each header written even when its list is empty. */
  function SummaryText(today: string, f: Filtered): seq<string> {
    Document(IndexHeader(today), [], IndexBlock, Objects(f.index)).lines
      + Document(TurnoverHeader, [], TurnoverBlock, Objects(f.turnover)).lines
  }

  /** The lines of one index entry in the summary. */
  function IndexCard(rec: Record): seq<string> {
    [
      "Index: " + Get(rec, "indexName"),
      "Date: " + Get(rec, "date"),
      "Open: " + Get(rec, "open"),
      "Close: " + Get(rec, "close"),
      "High: " + Get(rec, "high"),
      "Low: " + Get(rec, "low"),
      "Volume: " + Get(rec, "volume"),
      Rule('-')
    ]
  }

  /** The lines of one turnover entry in the summary. */
  function TurnoverCard(rec: Record): seq<string> {
    [
      "Segment: " + Get(rec, "segment"),
      "Turnover: Rs. " + Get(rec, "turnover") + " Cr",
      "Date: " + Get(rec, "date"),
      Rule('-')
    ]
  }

  lemma IndexCovered(rs: seq<Record>)
    requires forall n :: 0 <= n < |rs| ==> rs[n].Keys == CanonicalKeys(IndexTable)
    ensures forall i, j :: 0 <= i < |rs| && 0 <= j < |IndexBlock| ==> KeysOf(IndexBlock[j]) <= rs[i].Keys
  {
    var ks := CanonicalKeys(IndexTable);
    assert IndexTable[0].canonical in ks && IndexTable[1].canonical in ks && IndexTable[2].canonical in ks
      && IndexTable[3].canonical in ks && IndexTable[4].canonical in ks && IndexTable[5].canonical in ks
      && IndexTable[6].canonical in ks;
    forall j | 0 <= j < |IndexBlock| ensures KeysOf(IndexBlock[j]) <= ks {
      assert j in {0, 1, 2, 3, 4, 5, 6, 7};
    }
  }

  lemma TurnoverCovered(rs: seq<Record>)
    requires forall n :: 0 <= n < |rs| ==> rs[n].Keys == CanonicalKeys(TurnoverTable)
    ensures forall i, j :: 0 <= i < |rs| && 0 <= j < |TurnoverBlock| ==> KeysOf(TurnoverBlock[j]) <= rs[i].Keys
  {
    var ks := CanonicalKeys(TurnoverTable);
    assert TurnoverTable[0].canonical in ks && TurnoverTable[1].canonical in ks && TurnoverTable[2].canonical in ks;
    forall j | 0 <= j < |TurnoverBlock| ensures KeysOf(TurnoverBlock[j]) <= ks {
      assert j in {0, 1, 2, 3};
    }
  }

  /** An index entry renders each line of its block completely, as its card says. */
  lemma IndexCardRendered(rec: Record)
    requires rec.Keys == CanonicalKeys(IndexTable)
    ensures forall j :: 0 <= j < |IndexBlock| ==> Fill(IndexBlock[j], Object(rec)) == Some(IndexCard(rec)[j])
  {
    assert forall i :: 0 <= i < |IndexTable| ==> IndexTable[i].canonical in rec;
    assert IndexTable[0].canonical in rec && IndexTable[1].canonical in rec && IndexTable[2].canonical in rec
      && IndexTable[3].canonical in rec && IndexTable[4].canonical in rec && IndexTable[5].canonical in rec
      && IndexTable[6].canonical in rec;
    FillPlain("Index: ", "indexName", rec);
    FillPlain("Date: ", "date", rec);
    FillPlain("Open: ", "open", rec);
    FillPlain("Close: ", "close", rec);
    FillPlain("High: ", "high", rec);
    FillPlain("Low: ", "low", rec);
    FillPlain("Volume: ", "volume", rec);
    forall j | 0 <= j < |IndexBlock| ensures Fill(IndexBlock[j], Object(rec)) == Some(IndexCard(rec)[j]) {
      assert j in {0, 1, 2, 3, 4, 5, 6, 7};
    }
  }

  /** A turnover entry renders each line of its block completely, as its card says. */
  lemma TurnoverCardRendered(rec: Record)
    requires rec.Keys == CanonicalKeys(TurnoverTable)
    ensures forall j :: 0 <= j < |TurnoverBlock| ==> Fill(TurnoverBlock[j], Object(rec)) == Some(TurnoverCard(rec)[j])
  {
    TurnoverCovered([rec]);
    forall j | 0 <= j < |TurnoverBlock| ensures Fill(TurnoverBlock[j], Object(rec)) == Some(TurnoverCard(rec)[j]) {
      assert j in {0, 1, 2, 3};
      assert KeysOf(TurnoverBlock[j]) <= [rec][0].Keys;
      var c := TurnoverCard(rec);
      if j == 0 || j == 2 {
        assert c[j] + "" == c[j];
      }
    }
  }

  /** A section whose records carry every key its block reads: the header, then one full block per record. */
  lemma SectionComplete(header: seq<string>, block: seq<Template>, rs: seq<Record>)
    requires forall i, j :: 0 <= i < |rs| && 0 <= j < |block| ==> KeysOf(block[j]) <= rs[i].Keys
    ensures var w := Document(header, [], block, Objects(rs));
      w.complete && |w.lines| == |header| + |rs| * |block| && w.lines[..|header|] == header
  {
    if rs != [] {
      DocumentOfRecords(header, [], block, rs);
    } else {
      assert header + [] == header;
    }
  }

  /** The index section: its header, then the card of every entry in order. */
  lemma IndexSection(today: string, rs: seq<Record>)
    requires forall n :: 0 <= n < |rs| ==> rs[n].Keys == CanonicalKeys(IndexTable)
    ensures var a := Document(IndexHeader(today), [], IndexBlock, Objects(rs)).lines;
      |a| == 5 + 8 * |rs| && a[..5] == IndexHeader(today)
      && forall k :: 0 <= k < |rs| ==> a[5 + 8 * k..13 + 8 * k] == IndexCard(rs[k])
  {
    IndexCovered(rs);
    SectionComplete(IndexHeader(today), IndexBlock, rs);
    forall k | 0 <= k < |rs|
      ensures Document(IndexHeader(today), [], IndexBlock, Objects(rs)).lines[5 + 8 * k..13 + 8 * k] == IndexCard(rs[k])
    {
      IndexCardRendered(rs[k]);
      DocumentBlock(IndexHeader(today), [], IndexBlock, rs, k, IndexCard(rs[k]));
    }
  }

  /** The turnover section: its header, then the card of every entry in order. */
  lemma TurnoverSection(rs: seq<Record>)
    requires forall n :: 0 <= n < |rs| ==> rs[n].Keys == CanonicalKeys(TurnoverTable)
    ensures var b := Document(TurnoverHeader, [], TurnoverBlock, Objects(rs)).lines;
      |b| == 3 + 4 * |rs| && b[..3] == TurnoverHeader
      && forall k :: 0 <= k < |rs| ==> b[3 + 4 * k..7 + 4 * k] == TurnoverCard(rs[k])
  {
    TurnoverCovered(rs);
    SectionComplete(TurnoverHeader, TurnoverBlock, rs);
    forall k | 0 <= k < |rs|
      ensures Document(TurnoverHeader, [], TurnoverBlock, Objects(rs)).lines[3 + 4 * k..7 + 4 * k] == TurnoverCard(rs[k])
    {
      TurnoverCardRendered(rs[k]);
      DocumentBlock(TurnoverHeader, [], TurnoverBlock, rs, k, TurnoverCard(rs[k]));
    }
  }

  /**
   * The summary of filtered data: the title, a rule of `=`, a blank line,
   * the index header and its rule, the card of every index entry, then a
   * blank line, the turnover header and its rule, and the card of every
   * turnover entry, each list in order.
   */
  lemma SummaryShape(today: string, f: Filtered)
    requires forall n :: 0 <= n < |f.index| ==> f.index[n].Keys == CanonicalKeys(IndexTable)
    requires forall n :: 0 <= n < |f.turnover| ==> f.turnover[n].Keys == CanonicalKeys(TurnoverTable)
    ensures var lines, n := SummaryText(today, f), |f.index|;
      |lines| == 8 + 8 * n + 4 * |f.turnover|
      && lines[..5] == IndexHeader(today)
      && (forall k :: 0 <= k < n ==> lines[5 + 8 * k..13 + 8 * k] == IndexCard(f.index[k]))
      && lines[5 + 8 * n..8 + 8 * n] == TurnoverHeader
      && (forall k :: 0 <= k < |f.turnover| ==> lines[8 + 8 * n + 4 * k..12 + 8 * n + 4 * k] == TurnoverCard(f.turnover[k]))
  {
    var a := Document(IndexHeader(today), [], IndexBlock, Objects(f.index)).lines;
    var b := Document(TurnoverHeader, [], TurnoverBlock, Objects(f.turnover)).lines;
    var n := |f.index|;
    IndexSection(today, f.index);
    TurnoverSection(f.turnover);
    assert (a + b)[..5] == a[..5];
    forall k | 0 <= k < n ensures (a + b)[5 + 8 * k..13 + 8 * k] == IndexCard(f.index[k]) {
      assert (a + b)[5 + 8 * k..13 + 8 * k] == a[5 + 8 * k..13 + 8 * k];
    }
    forall k | 0 <= k < |f.turnover| ensures (a + b)[8 + 8 * n + 4 * k..12 + 8 * n + 4 * k] == TurnoverCard(f.turnover[k]) {
      assert (a + b)[8 + 8 * n + 4 * k..12 + 8 * n + 4 * k] == b[3 + 4 * k..7 + 4 * k];
    }
    assert (a + b)[5 + 8 * n..8 + 8 * n] == b[..3];
  }

  /** `save_text_summary`: the two sections are written by two loops. */
  method SaveSummary(today: string, f: Filtered) returns (lines: seq<string>)
    ensures lines == SummaryText(today, f)
  {
    var index := WriteDocument(IndexHeader(today), [], IndexBlock, Objects(f.index));
    var turnover := WriteDocument(TurnoverHeader, [], TurnoverBlock, Objects(f.turnover));
    lines := index.lines + turnover.lines;
  }

  /** What `fetch_market_data` returns. */
  datatype MarketExit =
    | Delivered(data: Filtered, summaryName: string)
      /** `return filtered_data, ...` with `filtered_data` never bound: UnboundLocalError. */
    | Unbound

  /** Everything a run leaves behind. */
  datatype MarketRun = MarketRun(
    indexAttempts: nat,
    turnoverAttempts: nat,
    sleeps: nat,
    dumpFiles: seq<string>,
    files: map<string, Pipeline.Artifact>,
    exit: MarketExit)

  const IndexDumpPrefix := "market_index"
  const TurnoverDumpPrefix := "market_turnover"
  const Prefix := "market_data"

  /**
   * The run, from today's date and the outcomes of the three index attempts
   * and the three turnover attempts, with `filtered_data` bound to empty
   * lists before the `if index_data or turnover_data:` test.
   */
  function ExpectedRun(today: Date, indexOutcomes: seq<Navigation>, turnoverOutcomes: seq<Navigation>): MarketRun
    requires Valid(today) && |indexOutcomes| == MaxAttempts && |turnoverOutcomes| == MaxAttempts
  {
    var to := FormatDMY(today);
    var oi := Outcome(DirectSteps(indexOutcomes, NoProbe), None);
    var ot := Outcome(DirectSteps(turnoverOutcomes, NoProbe), None);
    var dumps := Pipeline.DumpNames(IndexDumpPrefix, oi.dumps) + Pipeline.DumpNames(TurnoverDumpPrefix, ot.dumps);
    var summary := SummaryName(Prefix, to);
    if !(TruthyOpt(oi.payload) || TruthyOpt(ot.payload)) then
      MarketRun(oi.attempts, ot.attempts, oi.sleeps + ot.sleeps, dumps, map[], Delivered(Filtered([], []), summary))
    else
      var f := FilterMarket(OrEmpty(oi.payload), OrEmpty(ot.payload));
      var saved := map[JsonName(Prefix, to) := Pipeline.JsonDump];
      var files := if f.index == [] && f.turnover == [] then saved
        else saved[summary := Pipeline.TextFile(SummaryText(to, f))];
      MarketRun(oi.attempts, ot.attempts, oi.sleeps + ot.sleeps, dumps, files, Delivered(f, summary))
  }

  /** `fetch_market_data` after the browser is up: the two fetch loops, then saving, filtering and summarizing. */
  method RunMarketData(today: Date, indexOutcomes: seq<Navigation>, turnoverOutcomes: seq<Navigation>) returns (run: MarketRun)
    requires Valid(today) && |indexOutcomes| == MaxAttempts && |turnoverOutcomes| == MaxAttempts
    ensures run == ExpectedRun(today, indexOutcomes, turnoverOutcomes)
  {
    var to := FormatDMY(today);
    var index, ia, isl, idumps := RetryLoop(DirectSteps(indexOutcomes, NoProbe), None);
    var turnover, ta, tsl, tdumps := RetryLoop(DirectSteps(turnoverOutcomes, NoProbe), None);
    var files := map[];
    var filtered := Filtered([], []);
    var summary := SummaryName(Prefix, to);
    if TruthyOpt(index) || TruthyOpt(turnover) {
      files := files[JsonName(Prefix, to) := Pipeline.JsonDump];
      filtered := FilterMarketData(OrEmpty(index), OrEmpty(turnover));
      if filtered.index != [] || filtered.turnover != [] {
        var lines := SaveSummary(to, filtered);
        files := files[summary := Pipeline.TextFile(lines)];
      }
    }
    var dumps := Pipeline.DumpNames(IndexDumpPrefix, idumps) + Pipeline.DumpNames(TurnoverDumpPrefix, tdumps);
    run := MarketRun(ia, ta, isl + tsl, dumps, files, Delivered(filtered, summary));
  }

  /**
   * The JSON file is written exactly when either fetch produced a truthy
   * payload; the summary exactly when, in addition, either filtered list is
   * non-empty, and it then holds the summary of the returned lists.
   */
  lemma Outputs(today: Date, indexOutcomes: seq<Navigation>, turnoverOutcomes: seq<Navigation>)
    requires Valid(today) && |indexOutcomes| == MaxAttempts && |turnoverOutcomes| == MaxAttempts
    ensures var run, to := ExpectedRun(today, indexOutcomes, turnoverOutcomes), FormatDMY(today);
      var fetched := TruthyOpt(Outcome(DirectSteps(indexOutcomes, NoProbe), None).payload)
        || TruthyOpt(Outcome(DirectSteps(turnoverOutcomes, NoProbe), None).payload);
      var f := run.exit.data;
      && run.exit.Delivered?
      && (JsonName("market_data", to) in run.files <==> fetched)
      && (SummaryName("market_data", to) in run.files <==> fetched && (f.index != [] || f.turnover != []))
      && (SummaryName("market_data", to) in run.files ==> run.files[SummaryName("market_data", to)] == Pipeline.TextFile(SummaryText(to, f)))
      && (!fetched ==> f == Filtered([], []))
  {
    Pipeline.NamesDiffer(Prefix, FormatDMY(today));
  }

  /** The index dump files and the turnover dump files never share a name. */
  lemma DumpPrefixesDiffer(m: nat, n: nat)
    ensures Pipeline.DumpName(IndexDumpPrefix, m) != Pipeline.DumpName(TurnoverDumpPrefix, n)
  {
    assert Pipeline.DumpName(IndexDumpPrefix, m)[7] == 'i';
    assert Pipeline.DumpName(TurnoverDumpPrefix, n)[7] == 't';
  }

  /**
   * `market_index_raw_response_attempt_<m>.txt` exists exactly when index
   * attempt `m` was made and its ok response did not parse, and likewise for
   * `market_turnover_raw_response_attempt_<m>.txt`.
   */
  lemma DumpFiles(today: Date, indexOutcomes: seq<Navigation>, turnoverOutcomes: seq<Navigation>, m: nat)
    requires Valid(today) && |indexOutcomes| == MaxAttempts && |turnoverOutcomes| == MaxAttempts
    ensures var run := ExpectedRun(today, indexOutcomes, turnoverOutcomes);
      var oi := Outcome(DirectSteps(indexOutcomes, NoProbe), None);
      var ot := Outcome(DirectSteps(turnoverOutcomes, NoProbe), None);
      && (Pipeline.DumpName("market_index", m) in run.dumpFiles <==> 1 <= m <= oi.attempts && Unparsable(indexOutcomes[m - 1]))
      && (Pipeline.DumpName("market_turnover", m) in run.dumpFiles <==> 1 <= m <= ot.attempts && Unparsable(turnoverOutcomes[m - 1]))
  {
    var oi := Outcome(DirectSteps(indexOutcomes, NoProbe), None);
    var ot := Outcome(DirectSteps(turnoverOutcomes, NoProbe), None);
    var a, b := Pipeline.DumpNames(IndexDumpPrefix, oi.dumps), Pipeline.DumpNames(TurnoverDumpPrefix, ot.dumps);
    Pipeline.DumpFilesOfLoop(IndexDumpPrefix, indexOutcomes, NoProbe, m);
    Pipeline.DumpFilesOfLoop(TurnoverDumpPrefix, turnoverOutcomes, NoProbe, m);
    forall i | 0 <= i < |b| ensures b[i] != Pipeline.DumpName(IndexDumpPrefix, m) {
      DumpPrefixesDiffer(m, ot.dumps[i]);
    }
    forall i | 0 <= i < |a| ensures a[i] != Pipeline.DumpName(TurnoverDumpPrefix, m) {
      DumpPrefixesDiffer(oi.dumps[i], m);
    }
  }

  /** `return filtered_data, summary_filename` as written: the name is bound only inside `if index_data or turnover_data:`. */
  function ExitAsWritten(indexData: Option<Doc>, turnoverData: Option<Doc>, f: Filtered, summary: string): MarketExit {
    if TruthyOpt(indexData) || TruthyOpt(turnoverData) then Delivered(f, summary) else Unbound
  }

  /**
   * The function as written ends in UnboundLocalError exactly when the run
   * saves no file; whenever it saves one, it returns what the corrected run
   * returns.
   */
  lemma UnboundIffNothingSaved(today: Date, indexOutcomes: seq<Navigation>, turnoverOutcomes: seq<Navigation>)
    requires Valid(today) && |indexOutcomes| == MaxAttempts && |turnoverOutcomes| == MaxAttempts
    ensures var run := ExpectedRun(today, indexOutcomes, turnoverOutcomes);
      var e := ExitAsWritten(Outcome(DirectSteps(indexOutcomes, NoProbe), None).payload,
        Outcome(DirectSteps(turnoverOutcomes, NoProbe), None).payload, run.exit.data, run.exit.summaryName);
      && (e == Unbound <==> run.files == map[])
      && (run.files != map[] ==> e == run.exit)
  {
    Outputs(today, indexOutcomes, turnoverOutcomes);
  }

  /**
   * Three timeouts on both endpoints: nothing is written, and the function as
   * written ends in UnboundLocalError where the corrected run returns two
   * empty lists.
   */
  lemma TimeoutsUnbound(today: Date)
    requires Valid(today)
    ensures var outcomes := [NavTimeout, NavTimeout, NavTimeout];
      var run := ExpectedRun(today, outcomes, outcomes);
      var o := Outcome(DirectSteps(outcomes, NoProbe), None);
      ExitAsWritten(o.payload, o.payload, run.exit.data, run.exit.summaryName) == Unbound
      && run.exit == Delivered(Filtered([], []), SummaryName("market_data", FormatDMY(today)))
      && run.files == map[]
  {
    var outcomes := [NavTimeout, NavTimeout, NavTimeout];
    NoGoodResponse(outcomes, NoProbe);
    UnboundIffNothingSaved(today, outcomes, outcomes);
  }
}
