/**
 * The common shape of the NSE JSON feeds (insider trading, financial results,
 * block deals, corporate actions, event calendar): compute the query range,
 * fetch with the three-attempt loop, and if a truthy payload came back save
 * it, filter it, and write the summary when the filter kept something.
 *
 * File contents other than summaries are not modelled: a saved JSON payload
 * or a raw diagnostic is recorded by its name only.
 */
module Pipeline {
  import opened Wrappers
  import opened Json
  import opened Dates
  import opened Text
  import opened Retry
  import opened Attempts
  import opened Normalize
  import opened Summary

  /** A file a run leaves in the working directory. */
  datatype Artifact = JsonDump | TextFile(lines: seq<string>) | PageDump(html: string)

  /** Which days a feed queries. */
  datatype Span = Today | SinceYesterday

  /** Whether the summary title shows the range (`from to to`) or a single date. */
  datatype Heading = RangeHeading | DayHeading

  /** What one feed script fixes: names, title, range, the fetch probe, where its records sit, its key table and its record block. */
  datatype JsonFeed = JsonFeed(
    prefix: string,
    dumpPrefix: string,
    title: string,
    span: Span,
    heading: Heading,
    probe: Probe,
    wrapped: bool,
    table: KeyTable,
    block: seq<Template>)

  /** What the fetch function returns. */
  datatype Exit =
    | Returned(records: seq<Record>)
      /** `return filtered_data` with the name never bound: UnboundLocalError. */
    | UnboundLocal
      /** `today - timedelta(days=1)` on the first representable day: OverflowError. */
    | DateOverflow

  /** Everything a run leaves behind. */
  datatype FeedRun = FeedRun(attempts: nat, sleeps: nat, dumpFiles: seq<string>, files: map<string, Artifact>, exit: Exit)

  /** The `from_date`/`to_date` of the query, None where computing it overflows. */
  function QueryRange(span: Span, today: Date): (r: Option<DateRange>)
    requires Valid(today)
    ensures r.Some? ==> r.value.to == FormatDMY(today)
    ensures span == Today ==> r == Some(DateRange(FormatDMY(today), FormatDMY(today)))
  {
    match span
    case Today => Some(SameDayRange(today))
    case SinceYesterday => PreviousDayRange(today)
  }

  /** The yesterday..today range fails only on the first representable day, and then starts the day before. */
  lemma SinceYesterdayRange(today: Date)
    requires Valid(today)
    ensures QueryRange(SinceYesterday, today).None? <==> today == Date(MinYear, 1, 1)
    ensures QueryRange(SinceYesterday, today).Some? ==>
      QueryRange(SinceYesterday, today).value.from == FormatDMY(PrevDay(today).value)
      && Ordinal(PrevDay(today).value) == Ordinal(today) - 1
  {
  }

  function HeadingLine(feed: JsonFeed, r: DateRange): string {
    match feed.heading
    case RangeHeading => feed.title + " (" + r.from + " to " + r.to + ")"
    case DayHeading => feed.title + " (" + r.to + ")"
  }

  /** The title line, a rule of `=`, and a blank line. */
  function Preamble(feed: JsonFeed, r: DateRange): seq<string> {
    [HeadingLine(feed, r), Rule('='), ""]
  }

  /** The summary of a list of filtered records. */
  function SummaryLines(feed: JsonFeed, r: DateRange, records: seq<Record>): seq<string> {
    Document(Preamble(feed, r), [], feed.block, Objects(records)).lines
  }

  /** `filter_x(json_data)`. */
  function FeedFilter(feed: JsonFeed, d: Doc): seq<Record> {
    if feed.wrapped then DataFilter(d, feed.table, []) else ListFilter(d, feed.table, [])
  }

  /** `f"{prefix}_raw_response_attempt_{n}.txt"`. */
  function DumpName(prefix: string, n: nat): string {
    prefix + "_raw_response_attempt_" + Show(n) + ".txt"
  }

  function DumpNames(prefix: string, dumps: seq<nat>): (names: seq<string>)
    ensures |names| == |dumps|
    ensures forall i :: 0 <= i < |dumps| ==> names[i] == DumpName(prefix, dumps[i])
  {
    seq(|dumps|, i requires 0 <= i < |dumps| => DumpName(prefix, dumps[i]))
  }

  /** The run of a feed script, from today's date and the outcomes of its three fetch attempts. */
  function ExpectedRun(feed: JsonFeed, today: Date, outcomes: seq<Navigation>): FeedRun
    requires Valid(today) && |outcomes| == MaxAttempts
  {
    match QueryRange(feed.span, today)
    case None => FeedRun(0, 0, [], map[], DateOverflow)
    case Some(r) =>
      var o := Outcome(DirectSteps(outcomes, feed.probe), None);
      var dumps := DumpNames(feed.dumpPrefix, o.dumps);
      if !TruthyOpt(o.payload) then FeedRun(o.attempts, o.sleeps, dumps, map[], Returned([]))
      else
        var records := FeedFilter(feed, o.payload.value);
        var saved := map[JsonName(feed.prefix, r.to) := JsonDump];
        var files := if records == [] then saved
          else saved[SummaryName(feed.prefix, r.to) := TextFile(SummaryLines(feed, r, records))];
        FeedRun(o.attempts, o.sleeps, dumps, files, Returned(records))
  }

  /** The summary file is written by the loop of `save_text_summary`. */
  method SaveSummary(feed: JsonFeed, r: DateRange, records: seq<Record>) returns (lines: seq<string>)
    ensures lines == SummaryLines(feed, r, records)
  {
    var w := WriteDocument(Preamble(feed, r), [], feed.block, Objects(records));
    lines := w.lines;
  }

  /**
   * The fetch function of a JSON feed, with `filtered_data` bound to `[]`
   * before the `if json_data:` test.
   */
  method RunJsonFeed(feed: JsonFeed, today: Date, outcomes: seq<Navigation>) returns (run: FeedRun)
    requires Valid(today) && |outcomes| == MaxAttempts
    ensures run == ExpectedRun(feed, today, outcomes)
  {
    var range := QueryRange(feed.span, today);
    if range.None? {
      return FeedRun(0, 0, [], map[], DateOverflow);
    }
    var r := range.value;
    var payload, attempts, sleeps, dumps := RetryLoop(DirectSteps(outcomes, feed.probe), None);
    var files := map[];
    var filtered := [];
    if TruthyOpt(payload) {
      files := files[JsonName(feed.prefix, r.to) := JsonDump];
      if feed.wrapped {
        filtered := FilterData(payload.value, feed.table, []);
      } else {
        filtered := FilterList(payload.value, feed.table, []);
      }
      if filtered != [] {
        var lines := SaveSummary(feed, r, filtered);
        files := files[SummaryName(feed.prefix, r.to) := TextFile(lines)];
      }
    }
    run := FeedRun(attempts, sleeps, DumpNames(feed.dumpPrefix, dumps), files, Returned(filtered));
  }

  /** The JSON file is named after the `to` date and the summary after the same date with `_summary.txt`. */
  lemma NamesDiffer(prefix: string, to: string)
    ensures JsonName(prefix, to) != SummaryName(prefix, to)
  {
    var n := |prefix| + 1 + |to|;
    assert JsonName(prefix, to)[n] == '.';
    assert SummaryName(prefix, to)[n] == '_';
  }

  /**
   * The payload is saved exactly when the fetch produced a truthy value, and
   * the summary exactly when, in addition, the filter kept at least one
   * record; it then holds the summary of those records.
   */
  lemma OutputsOfRun(feed: JsonFeed, today: Date, outcomes: seq<Navigation>)
    requires Valid(today) && |outcomes| == MaxAttempts && QueryRange(feed.span, today).Some?
    ensures var run := ExpectedRun(feed, today, outcomes);
      var r := QueryRange(feed.span, today).value;
      var o := Outcome(DirectSteps(outcomes, feed.probe), None);
      && (JsonName(feed.prefix, r.to) in run.files <==> TruthyOpt(o.payload))
      && (SummaryName(feed.prefix, r.to) in run.files <==> TruthyOpt(o.payload) && run.exit.records != [])
      && (SummaryName(feed.prefix, r.to) in run.files ==>
            run.files[SummaryName(feed.prefix, r.to)] == TextFile(SummaryLines(feed, r, run.exit.records)))
      && run.exit == Returned(if TruthyOpt(o.payload) then FeedFilter(feed, o.payload.value) else [])
  {
    NamesDiffer(feed.prefix, QueryRange(feed.span, today).value.to);
  }

  /** The elements `filter_x` iterates over, None when the iteration itself raises. */
  function Elements(feed: JsonFeed, d: Doc): Option<seq<Entry>> {
    if feed.wrapped then DataEntries(d) else Iterated(d)
  }

  /**
   * A feed without mandatory fields maps every element to one record, in
   * order, and each canonical field holds `item.get(source, '')`.
   */
  lemma FilterMapsEveryElement(feed: JsonFeed, d: Doc, es: seq<Entry>)
    requires DistinctKeys(feed.table)
    requires Elements(feed, d) == Some(es) && forall k :: 0 <= k < |es| ==> es[k].Object?
    ensures |FeedFilter(feed, d)| == |es|
    ensures forall k, i :: 0 <= k < |es| && 0 <= i < |feed.table| ==>
      feed.table[i].canonical in FeedFilter(feed, d)[k]
      && FeedFilter(feed, d)[k][feed.table[i].canonical] == Get(es[k].fields, feed.table[i].source)
  {
    NormalizedPointwise(es, feed.table);
    forall k, i | 0 <= k < |es| && 0 <= i < |feed.table|
      ensures feed.table[i].canonical in FeedFilter(feed, d)[k]
      ensures FeedFilter(feed, d)[k][feed.table[i].canonical] == Get(es[k].fields, feed.table[i].source)
    {
      ProjectAt(es[k].fields, feed.table, i);
    }
  }

  /** Any exception while filtering (the payload or an element of the wrong kind) yields `[]`. */
  lemma FilterRaisesToEmpty(feed: JsonFeed, d: Doc)
    requires Elements(feed, d).None? || exists k :: 0 <= k < |Elements(feed, d).value| && Elements(feed, d).value[k].NonObject?
    ensures FeedFilter(feed, d) == []
  {
    if Elements(feed, d).Some? {
      NormalizedFails(Elements(feed, d).value, feed.table, []);
    }
  }

  /** Every filtered record carries exactly the canonical keys of the table. */
  lemma FilteredKeys(feed: JsonFeed, d: Doc)
    ensures forall k :: 0 <= k < |FeedFilter(feed, d)| ==> FeedFilter(feed, d)[k].Keys == CanonicalKeys(feed.table)
  {
    var rs := FeedFilter(feed, d);
    var es := Elements(feed, d);
    if es.Some? && Normalized(es.value, feed.table, []).Some? {
      assert rs == Normalized(es.value, feed.table, []).value;
      forall k | 0 <= k < |rs| ensures rs[k].Keys == CanonicalKeys(feed.table) {
        NormalizedMember(es.value, feed.table, [], rs[k]);
      }
    }
  }

  /** The block only reads fields the table defines. */
  predicate BlockReadsTable(feed: JsonFeed) {
    forall j :: 0 <= j < |feed.block| ==> KeysOf(feed.block[j]) <= CanonicalKeys(feed.table)
  }

  /**
   * The summary of filtered records: the title line, a rule of `=`, a blank
   * line, then one block per record in order, line `j` of the block of record
   * `k` at position `3 + k * |block| + j`.
   */
  lemma SummaryOfRecords(feed: JsonFeed, r: DateRange, rs: seq<Record>, k: nat, j: nat)
    requires BlockReadsTable(feed) && forall n :: 0 <= n < |rs| ==> rs[n].Keys == CanonicalKeys(feed.table)
    requires k < |rs| && j < |feed.block|
    ensures var lines := SummaryLines(feed, r, rs);
      |lines| == 3 + |rs| * |feed.block|
      && lines[0] == HeadingLine(feed, r) && lines[1] == Rule('=') && lines[2] == ""
      && 3 + k * |feed.block| + j < |lines|
      && Fill(feed.block[j], Object(rs[k])) == Some(lines[3 + k * |feed.block| + j])
  {
    DocumentOfRecords(Preamble(feed, r), [], feed.block, rs);
    DocumentLine(Preamble(feed, r), [], feed.block, rs, k, j);
    assert SummaryLines(feed, r, rs)[..3] == Preamble(feed, r);
  }

  /**
   * When every line of the block renders for record `k` as `card` says, the
   * summary holds exactly `card` at the place of that record's block.
   */
  lemma SummaryBlock(feed: JsonFeed, r: DateRange, rs: seq<Record>, k: nat, card: seq<string>)
    requires BlockReadsTable(feed) && forall n :: 0 <= n < |rs| ==> rs[n].Keys == CanonicalKeys(feed.table)
    requires k < |rs| && |card| == |feed.block|
    requires forall j :: 0 <= j < |card| ==> Fill(feed.block[j], Object(rs[k])) == Some(card[j])
    ensures var lines, b := SummaryLines(feed, r, rs), 3 + k * |feed.block|;
      b + |card| <= |lines| && lines[b..b + |card|] == card
  {
    forall n, j | 0 <= n < |rs| && 0 <= j < |feed.block| ensures KeysOf(feed.block[j]) <= rs[n].Keys {
    }
    DocumentBlock(Preamble(feed, r), [], feed.block, rs, k, card);
  }

  /** Distinct attempts write distinct diagnostic files. */
  lemma DumpNameInjective(prefix: string, m: nat, n: nat)
    requires DumpName(prefix, m) == DumpName(prefix, n)
    ensures m == n
  {
    var p := prefix + "_raw_response_attempt_";
    var a, b := DumpName(prefix, m), DumpName(prefix, n);
    assert |Show(m)| == |Show(n)|;
    assert Show(m) == a[|p|..|p| + |Show(m)|];
    assert Show(n) == b[|p|..|p| + |Show(n)|];
    ShowInjective(m, n);
  }

  /**
   * Of a direct-navigation loop, the diagnostic file of attempt `m` (1-based)
   * exists exactly when that attempt was made and its ok response did not
   * parse as JSON.
   */
  lemma DumpFilesOfLoop(prefix: string, outcomes: seq<Navigation>, probe: Probe, m: nat)
    requires |outcomes| == MaxAttempts
    ensures var o := Outcome(DirectSteps(outcomes, probe), None);
      DumpName(prefix, m) in DumpNames(prefix, o.dumps) <==> (1 <= m <= o.attempts && Unparsable(outcomes[m - 1]))
  {
    var o := Outcome(DirectSteps(outcomes, probe), None);
    DumpedIffUnparsable(outcomes, probe, m);
    var names := DumpNames(prefix, o.dumps);
    if DumpName(prefix, m) in names {
      var i :| 0 <= i < |names| && names[i] == DumpName(prefix, m);
      DumpNameInjective(prefix, o.dumps[i], m);
    }
    if m in o.dumps {
      var i :| 0 <= i < |o.dumps| && o.dumps[i] == m;
      assert names[i] == DumpName(prefix, m);
    }
  }

  /** The diagnostic files of a feed run are those of its fetch loop. */
  lemma DumpFileOfAttempt(feed: JsonFeed, today: Date, outcomes: seq<Navigation>, m: nat)
    requires Valid(today) && |outcomes| == MaxAttempts && QueryRange(feed.span, today).Some?
    ensures var o := Outcome(DirectSteps(outcomes, feed.probe), None);
      DumpName(feed.dumpPrefix, m) in ExpectedRun(feed, today, outcomes).dumpFiles <==>
        (1 <= m <= o.attempts && Unparsable(outcomes[m - 1]))
  {
    DumpFilesOfLoop(feed.dumpPrefix, outcomes, feed.probe, m);
  }

  /** `return filtered_data` as written: the name is bound only inside `if json_data:`. */
  function ExitAsWritten(jsonData: Option<Doc>, filtered: seq<Record>): Exit {
    if TruthyOpt(jsonData) then Returned(filtered) else UnboundLocal
  }

  /**
   * Once the query range is computed, the fetch function as written ends in
   * UnboundLocalError exactly when the run saves no file; whenever it saves
   * one, it returns what the corrected run returns.
   */
  lemma UnboundIffNothingSaved(feed: JsonFeed, today: Date, outcomes: seq<Navigation>)
    requires Valid(today) && |outcomes| == MaxAttempts && QueryRange(feed.span, today).Some?
    ensures var run := ExpectedRun(feed, today, outcomes);
      var e := ExitAsWritten(Outcome(DirectSteps(outcomes, feed.probe), None).payload, run.exit.records);
      && (e == UnboundLocal <==> run.files == map[])
      && (run.files != map[] ==> e == run.exit)
  {
    OutputsOfRun(feed, today, outcomes);
  }

  /**
   * When no attempt brings back a parsed body, the fetch function as written
   * ends in UnboundLocalError, while the corrected run returns an empty list.
   */
  lemma NothingFetchedIsUnbound(feed: JsonFeed, today: Date, outcomes: seq<Navigation>)
    requires Valid(today) && |outcomes| == MaxAttempts && QueryRange(feed.span, today).Some?
    requires forall j :: 0 <= j < MaxAttempts ==> !(outcomes[j].Responded? && outcomes[j].ok && outcomes[j].body.Some?)
    ensures var o := Outcome(DirectSteps(outcomes, feed.probe), None);
      ExitAsWritten(o.payload, []) == UnboundLocal
      && ExpectedRun(feed, today, outcomes).files == map[]
      && ExpectedRun(feed, today, outcomes).exit == Returned([])
      && ExpectedRun(feed, today, outcomes).attempts == MaxAttempts
  {
    NoGoodResponse(outcomes, feed.probe);
    UnboundIffNothingSaved(feed, today, outcomes);
  }

  /**
   * The concrete input showing it: three timeouts. Nothing is written, yet the
   * function as written does not return.
   */
  lemma ThreeTimeoutsUnbound(feed: JsonFeed, today: Date)
    requires Valid(today) && QueryRange(feed.span, today).Some?
    ensures var o := Outcome(DirectSteps([NavTimeout, NavTimeout, NavTimeout], feed.probe), None);
      o.payload.None? && ExitAsWritten(o.payload, []) == UnboundLocal
      && ExpectedRun(feed, today, [NavTimeout, NavTimeout, NavTimeout]).files == map[]
  {
    NoGoodResponse([NavTimeout, NavTimeout, NavTimeout], feed.probe);
    NothingFetchedIsUnbound(feed, today, [NavTimeout, NavTimeout, NavTimeout]);
  }
}
