/**
 * `board_meeting.py`: the NSE board meetings between yesterday and today,
 * fetched from inside the page. Records without a symbol or a company name
 * are dropped, and a summary is written on every run, with a note when no
 * meeting remains.
 */
module BoardMeeting {
  import opened Wrappers
  import opened Json
  import opened Dates
  import opened Text
  import opened Retry
  import opened Attempts
  import opened Normalize
  import opened Summary
  import opened Pipeline

  /** The 8 fields of a normalized meeting and the `bm_*`/`sm_*` keys they are read from. */
  const Table: KeyTable := [
    Field("symbol", "bm_symbol"),
    Field("companyName", "sm_name"),
    Field("purpose", "bm_purpose"),
    Field("boardMeetingDate", "bm_date"),
    Field("description", "bm_desc"),
    Field("industry", "sm_indusrty"),
    Field("isin", "sm_isin"),
    Field("attachment", "attachment")
  ]

  /** A meeting is kept only with a non-empty symbol and company name. */
  const Mandatory: seq<string> := ["symbol", "companyName"]

  /** The lines written per meeting: 8 labelled lines, a rule of `=` and a blank line. */
  const Block: seq<Template> := [
    Line("Symbol: ", "symbol", ""),
    Line("Company: ", "companyName", ""),
    Line("ISIN: ", "isin", ""),
    Line("Industry: ", "industry", ""),
    Line("Purpose: ", "purpose", ""),
    Line("Date: ", "boardMeetingDate", ""),
    Line("Description: ", "description", ""),
    Line("Attachment: ", "attachment", ""),
    Fixed(Rule('=')),
    Fixed("")
  ]

  /** What the summary says when no meeting remains. */
  const EmptyNote: string := "No valid board meetings found for the specified date range."

  const Prefix := "board_meetings"
  const RawPrefix := "board_meetings_raw"

  /** `filter_board_meetings(json_data)`: the payload is the list of meetings itself. */
  function Filter(d: Doc): seq<Record> {
    ListFilter(d, Table, Mandatory)
  }

  function TitleLine(r: DateRange): string {
    "NSE Board Meetings Summary (" + r.from + " to " + r.to + ")"
  }

  /** `save_text_summary(records, from_date, to_date, ...)`. */
  function SummaryText(r: DateRange, records: seq<Record>): seq<string> {
    Document([TitleLine(r), Rule('='), ""], [EmptyNote], Block, Objects(records)).lines
  }

  /** `f"board_meetings_raw_response_attempt_{n}_{to_date}.html"`: the page saved by a failed attempt. */
  function PageDumpName(n: nat, to: string): string {
    Prefix + "_raw_response_attempt_" + Show(n) + "_" + to + ".html"
  }

  function PageDumpNames(dumps: seq<nat>, to: string): (names: seq<string>)
    ensures |names| == |dumps|
    ensures forall i :: 0 <= i < |dumps| ==> names[i] == PageDumpName(dumps[i], to)
  {
    seq(|dumps|, i requires 0 <= i < |dumps| => PageDumpName(dumps[i], to))
  }

  /**
   * The run, from today's date and the outcomes of the three in-page fetches.
   * The raw payload is saved whenever it is truthy; the filtered list and its
   * summary when the filter kept a meeting; otherwise the summary of no
   * meetings is written.
   */
  function ExpectedRun(today: Date, outcomes: seq<Evaluation>): FeedRun
    requires Valid(today) && |outcomes| == MaxAttempts
  {
    match PreviousDayRange(today)
    case None => FeedRun(0, 0, [], map[], DateOverflow)
    case Some(r) =>
      var o := Outcome(EvaluateSteps(outcomes, true), None);
      var dumps := PageDumpNames(o.dumps, r.to);
      var summary := SummaryName(Prefix, r.to);
      if !TruthyOpt(o.payload) then
        FeedRun(o.attempts, o.sleeps, dumps, map[summary := TextFile(SummaryText(r, []))], Returned([]))
      else
        var records := Filter(o.payload.value);
        var raw := map[JsonName(RawPrefix, r.to) := JsonDump];
        var files := if records == [] then raw[summary := TextFile(SummaryText(r, []))]
          else raw[JsonName(Prefix, r.to) := JsonDump][summary := TextFile(SummaryText(r, records))];
        FeedRun(o.attempts, o.sleeps, dumps, files, Returned(records))
  }

  /** `save_text_summary`, written line by line. */
  method SaveSummary(r: DateRange, records: seq<Record>) returns (lines: seq<string>)
    ensures lines == SummaryText(r, records)
  {
    var w := WriteDocument([TitleLine(r), Rule('='), ""], [EmptyNote], Block, Objects(records));
    lines := w.lines;
  }

  /** `fetch_board_meetings` after the browser is up. */
  method RunBoardMeetings(today: Date, outcomes: seq<Evaluation>) returns (run: FeedRun)
    requires Valid(today) && |outcomes| == MaxAttempts
    ensures run == ExpectedRun(today, outcomes)
  {
    var range := PreviousDayRange(today);
    if range.None? {
      return FeedRun(0, 0, [], map[], DateOverflow);
    }
    var r := range.value;
    var payload, attempts, sleeps, dumps := RetryLoop(EvaluateSteps(outcomes, true), None);
    var files := map[];
    var filtered := [];
    var summary := SummaryName(Prefix, r.to);
    if TruthyOpt(payload) {
      files := files[JsonName(RawPrefix, r.to) := JsonDump];
      filtered := FilterList(payload.value, Table, Mandatory);
      if filtered != [] {
        files := files[JsonName(Prefix, r.to) := JsonDump];
        var lines := SaveSummary(r, filtered);
        files := files[summary := TextFile(lines)];
      } else {
        var lines := SaveSummary(r, []);
        files := files[summary := TextFile(lines)];
      }
    } else {
      var lines := SaveSummary(r, []);
      files := files[summary := TextFile(lines)];
    }
    run := FeedRun(attempts, sleeps, PageDumpNames(dumps, r.to), files, Returned(filtered));
  }

  lemma TableDistinct()
    ensures DistinctKeys(Table)
  {
    forall i, j | 0 <= i < j < |Table| ensures Table[i].canonical != Table[j].canonical {
      assert i in {0, 1, 2, 3, 4, 5, 6, 7};
      assert j in {0, 1, 2, 3, 4, 5, 6, 7};
    }
  }

  /**
   * A normalized meeting carries exactly the 8 fields, each read from its
   * source key (the industry from the key spelled `sm_indusrty`), `''` when
   * absent.
   */
  lemma MeetingRecord(item: Item)
    ensures var r := Project(item, Table);
      r.Keys == CanonicalKeys(Table)
      && Get(r, "symbol") == Get(item, "bm_symbol")
      && Get(r, "companyName") == Get(item, "sm_name")
      && Get(r, "purpose") == Get(item, "bm_purpose")
      && Get(r, "boardMeetingDate") == Get(item, "bm_date")
      && Get(r, "description") == Get(item, "bm_desc")
      && Get(r, "industry") == Get(item, "sm_indusrty")
      && Get(r, "isin") == Get(item, "sm_isin")
      && Get(r, "attachment") == Get(item, "attachment")
  {
    TableDistinct();
    ProjectAt(item, Table, 0);
    ProjectAt(item, Table, 1);
    ProjectAt(item, Table, 2);
    ProjectAt(item, Table, 3);
    ProjectAt(item, Table, 4);
    ProjectAt(item, Table, 5);
    ProjectAt(item, Table, 6);
    ProjectAt(item, Table, 7);
  }

  /** An element is kept exactly when its `bm_symbol` and its `sm_name` are non-empty. */
  lemma MeetingAdmitted(item: Item)
    ensures Admitted(Project(item, Table), Mandatory) <==> Get(item, "bm_symbol") != "" && Get(item, "sm_name") != ""
  {
    var r := Project(item, Table);
    assert Get(r, "symbol") == Get(item, "bm_symbol") && Get(r, "companyName") == Get(item, "sm_name")
      && "symbol" in r && "companyName" in r by {
      MeetingRecord(item);
      assert Table[0].canonical in CanonicalKeys(Table) && Table[1].canonical in CanonicalKeys(Table);
    }
    assert Mandatory[0] == "symbol" && Mandatory[1] == "companyName";
  }

  /**
   * On a list of objects, a meeting is in the filtered list exactly when some
   * element projects to it and it has a symbol and a company name; the list
   * is never longer than the input.
   */
  lemma KeptIff(es: seq<Entry>, r: Record)
    requires forall k :: 0 <= k < |es| ==> es[k].Object?
    ensures |Filter(Array(es))| <= |es|
    ensures r in Filter(Array(es)) <==>
      Admitted(r, Mandatory) && exists k :: 0 <= k < |es| && Project(es[k].fields, Table) == r
  {
    NormalizedFails(es, Table, Mandatory);
    NormalizedAdmitted(es, Table, Mandatory);
    NormalizedMember(es, Table, Mandatory, r);
  }

  /** Any element that is not an object, or a payload that is not a list, makes the filter return `[]`. */
  lemma FilterRaises(d: Doc)
    requires !d.Array? || exists k :: 0 <= k < |d.entries| && d.entries[k].NonObject?
    ensures Filter(d) == []
  {
    ListFilterRaises(d, Table, Mandatory);
  }

  /** The lines of one meeting in the summary. */
  function Card(rec: Record): seq<string> {
    [
      "Symbol: " + Get(rec, "symbol"),
      "Company: " + Get(rec, "companyName"),
      "ISIN: " + Get(rec, "isin"),
      "Industry: " + Get(rec, "industry"),
      "Purpose: " + Get(rec, "purpose"),
      "Date: " + Get(rec, "boardMeetingDate"),
      "Description: " + Get(rec, "description"),
      "Attachment: " + Get(rec, "attachment"),
      Rule('='),
      ""
    ]
  }

  lemma Covered(rs: seq<Record>)
    requires forall n :: 0 <= n < |rs| ==> rs[n].Keys == CanonicalKeys(Table)
    ensures forall i, j :: 0 <= i < |rs| && 0 <= j < |Block| ==> KeysOf(Block[j]) <= rs[i].Keys
  {
    var ks := CanonicalKeys(Table);
    assert Table[0].canonical in ks && Table[1].canonical in ks && Table[2].canonical in ks && Table[3].canonical in ks
      && Table[4].canonical in ks && Table[5].canonical in ks && Table[6].canonical in ks && Table[7].canonical in ks;
    forall j | 0 <= j < |Block| ensures KeysOf(Block[j]) <= ks {
      assert j in {0, 1, 2, 3, 4, 5, 6, 7, 8, 9};
    }
  }

  /** A meeting carrying the table's keys renders each block line completely, as its card says. */
  lemma CardRendered(rec: Record)
    requires rec.Keys == CanonicalKeys(Table)
    ensures forall j :: 0 <= j < |Block| ==> Fill(Block[j], Object(rec)) == Some(Card(rec)[j])
  {
    var ks := CanonicalKeys(Table);
    assert Table[0].canonical in ks && Table[1].canonical in ks && Table[2].canonical in ks && Table[3].canonical in ks
      && Table[4].canonical in ks && Table[5].canonical in ks && Table[6].canonical in ks && Table[7].canonical in ks;
    FillPlain("Symbol: ", "symbol", rec);
    FillPlain("Company: ", "companyName", rec);
    FillPlain("ISIN: ", "isin", rec);
    FillPlain("Industry: ", "industry", rec);
    FillPlain("Purpose: ", "purpose", rec);
    FillPlain("Date: ", "boardMeetingDate", rec);
    FillPlain("Description: ", "description", rec);
    FillPlain("Attachment: ", "attachment", rec);
    forall j | 0 <= j < |Block| ensures Fill(Block[j], Object(rec)) == Some(Card(rec)[j]) {
      assert j in {0, 1, 2, 3, 4, 5, 6, 7, 8, 9};
    }
  }

  /**
   * The summary: the title with the range, a rule of `=` and a blank line,
   * then the note when there is no meeting, and otherwise the card of every
   * meeting, in order.
   */
  lemma SummaryShape(r: DateRange, rs: seq<Record>)
    requires forall n :: 0 <= n < |rs| ==> rs[n].Keys == CanonicalKeys(Table)
    ensures var lines := SummaryText(r, rs);
      lines[..3] == ["NSE Board Meetings Summary (" + r.from + " to " + r.to + ")", Rule('='), ""]
      && (rs == [] ==> lines == lines[..3] + [EmptyNote])
      && (rs != [] ==>
            |lines| == 3 + 10 * |rs|
            && forall k :: 0 <= k < |rs| ==> lines[3 + 10 * k..13 + 10 * k] == Card(rs[k]))
  {
    var pre := [TitleLine(r), Rule('='), ""];
    if rs != [] {
      Covered(rs);
      DocumentOfRecords(pre, [EmptyNote], Block, rs);
      forall k | 0 <= k < |rs| ensures SummaryText(r, rs)[3 + 10 * k..13 + 10 * k] == Card(rs[k]) {
        SummaryCard(r, rs, k);
      }
    } else {
      assert SummaryText(r, rs) == pre + [EmptyNote];
    }
  }

  /** Meeting `k` fills lines `3 + 10k` up to `13 + 10k` of the summary with its card. */
  lemma SummaryCard(r: DateRange, rs: seq<Record>, k: nat)
    requires forall n :: 0 <= n < |rs| ==> rs[n].Keys == CanonicalKeys(Table)
    requires k < |rs|
    ensures 13 + 10 * k <= |SummaryText(r, rs)| && SummaryText(r, rs)[3 + 10 * k..13 + 10 * k] == Card(rs[k])
  {
    Covered(rs);
    CardRendered(rs[k]);
    DocumentBlock([TitleLine(r), Rule('='), ""], [EmptyNote], Block, rs, k, Card(rs[k]));
  }

  /**
   * A summary is written on every run that gets past the date computation:
   * of the filtered meetings when there are any, of no meetings otherwise.
   * The raw payload is saved exactly when it is truthy, the filtered list
   * exactly when it is non-empty, and the run returns that list.
   */
  lemma Outputs(today: Date, outcomes: seq<Evaluation>)
    requires Valid(today) && |outcomes| == MaxAttempts && today != Date(MinYear, 1, 1)
    ensures var run, r := ExpectedRun(today, outcomes), PreviousDayRange(today).value;
      var o := Outcome(EvaluateSteps(outcomes, true), None);
      && r == DateRange(FormatDMY(PrevDay(today).value), FormatDMY(today))
      && run.exit == Returned(if TruthyOpt(o.payload) then Filter(o.payload.value) else [])
      && SummaryName("board_meetings", r.to) in run.files
      && run.files[SummaryName("board_meetings", r.to)] == TextFile(SummaryText(r, run.exit.records))
      && (JsonName("board_meetings_raw", r.to) in run.files <==> TruthyOpt(o.payload))
      && (JsonName("board_meetings", r.to) in run.files <==> run.exit.records != [])
  {
    var r := PreviousDayRange(today).value;
    var to := r.to;
    var raw, json, summary := JsonName(RawPrefix, to), JsonName(Prefix, to), SummaryName(Prefix, to);
    assert |raw| == |Prefix| + |to| + 10 && |json| == |Prefix| + |to| + 6 && |summary| == |Prefix| + |to| + 13;
    var run, o := ExpectedRun(today, outcomes), Outcome(EvaluateSteps(outcomes, true), None);
    if TruthyOpt(o.payload) {
      var records := Filter(o.payload.value);
      if records == [] {
        assert run.files == map[raw := JsonDump, summary := TextFile(SummaryText(r, []))];
      } else {
        assert run.files == map[raw := JsonDump, json := JsonDump, summary := TextFile(SummaryText(r, records))];
      }
    } else {
      assert run.files == map[summary := TextFile(SummaryText(r, []))];
    }
  }

  /** Distinct attempts save their pages under distinct names. */
  lemma PageDumpNameInjective(m: nat, n: nat, to: string)
    requires PageDumpName(m, to) == PageDumpName(n, to)
    ensures m == n
  {
    var p := Prefix + "_raw_response_attempt_";
    var tail := "_" + to + ".html";
    assert PageDumpName(m, to) == p + (Show(m) + tail);
    assert PageDumpName(n, to) == p + (Show(n) + tail);
    assert Show(m) + tail == PageDumpName(m, to)[|p|..];
    assert Show(n) + tail == PageDumpName(n, to)[|p|..];
    ShowDelimited(m, n, tail, tail);
  }

  /**
   * The page of attempt `m` (1-based) is saved exactly when that attempt was
   * made and raised something other than a timeout, including a result whose
   * `len()` raised.
   */
  lemma DumpFiles(today: Date, outcomes: seq<Evaluation>, m: nat)
    requires Valid(today) && |outcomes| == MaxAttempts && today != Date(MinYear, 1, 1)
    ensures var o, to := Outcome(EvaluateSteps(outcomes, true), None), FormatDMY(today);
      PageDumpName(m, to) in ExpectedRun(today, outcomes).dumpFiles <==>
        (1 <= m <= o.attempts && (outcomes[m - 1].EvalError? || (outcomes[m - 1].Evaluated? && !Sized(outcomes[m - 1].result))))
  {
    var o, to := Outcome(EvaluateSteps(outcomes, true), None), FormatDMY(today);
    EvaluateDumps(outcomes, m);
    var names := PageDumpNames(o.dumps, to);
    assert ExpectedRun(today, outcomes).dumpFiles == names;
    if PageDumpName(m, to) in names {
      var i :| 0 <= i < |names| && names[i] == PageDumpName(m, to);
      PageDumpNameInjective(o.dumps[i], m, to);
    }
    if m in o.dumps {
      var i :| 0 <= i < |o.dumps| && o.dumps[i] == m;
      assert names[i] == PageDumpName(m, to);
    }
  }

  /** On the first representable day, computing yesterday overflows before anything is fetched or written. */
  lemma FirstDayOverflows(outcomes: seq<Evaluation>)
    requires |outcomes| == MaxAttempts
    ensures ExpectedRun(Date(MinYear, 1, 1), outcomes) == FeedRun(0, 0, [], map[], DateOverflow)
  {
    assert PrevDay(Date(MinYear, 1, 1)).None?;
  }
}
