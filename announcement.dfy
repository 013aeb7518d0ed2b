/**
 * `announcement.py`: the NSE corporate announcements of the current day. The
 * payload is not filtered: it is saved as it came back and its elements are
 * written to the summary with their raw NSE keys. When nothing truthy came
 * back, the summary says so and the page is saved for debugging.
 */
module Announcement {
  import opened Wrappers
  import opened Json
  import opened Dates
  import opened Retry
  import opened Attempts
  import opened Summary
  import opened Pipeline

  /** The lines written per announcement, read from the raw keys of the element. */
  const Block: seq<Template> := [
    Line("Symbol: ", "symbol", ""),
    Line("Company: ", "sm_name", ""),
    Line("ISIN: ", "sm_isin", ""),
    Line("Description: ", "desc", ""),
    Line("Announcement Date: ", "an_dt", ""),
    Line("Industry: ", "smIndustry", ""),
    Line("Details: ", "attchmntText", ""),
    Line("Attachment: ", "attchmntFile", ""),
    Fixed(Rule('=')),
    Fixed("")
  ]

  /** The keys every element must hold for its block to be written in full. */
  const RawKeys: set<string> := {"symbol", "sm_name", "sm_isin", "desc", "an_dt", "smIndustry", "attchmntText", "attchmntFile"}

  const EmptyNote: string := "No announcements found for the specified date range."

  const Prefix := "nse_announcements"

  function TitleLine(r: DateRange): string {
    "NSE Corporate Announcements (" + r.from + " to " + r.to + ")"
  }

  function Preamble(r: DateRange): seq<string> {
    [TitleLine(r), Rule('='), ""]
  }

  /**
   * `save_text_summary(data, ...)` on the raw payload: the note when the
   * payload is falsy; otherwise the blocks of its elements, up to the first
   * line that raises. A payload that cannot be iterated stops the writing
   * right after the preamble.
   */
  function SummaryOf(r: DateRange, d: Doc): Written {
    if !Truthy(d) then Written(Preamble(r) + [EmptyNote], true)
    else match Iterated(d)
      case None => Written(Preamble(r), false)
      case Some(es) => Document(Preamble(r), [EmptyNote], Block, es)
  }

  /** `f"nse_announcements_raw_{to_date}.html"`: the page saved when nothing was fetched. */
  function RawPageName(to: string): string {
    "nse_announcements_raw_" + to + ".html"
  }

  /**
   * One pass of the loop. Loading the page and evaluating the request are in
   * one `try`, and no error writes a dump, so a failed page load acts like a
   * failed evaluation: `EvalTimeout` or `EvalError`. A result is assigned
   * before `len()` is taken of it; the loop breaks only when that succeeds.
   */
  function AttemptStep(a: Evaluation): Step<Doc> {
    match a
    case Evaluated(d) => Step(Some(d), Sized(d), false)
    case EvalTimeout => Step(None, false, false)
    case EvalError => Step(None, false, false)
  }

  function AttemptSteps(outcomes: seq<Evaluation>): (steps: seq<Step<Doc>>)
    ensures |steps| == |outcomes|
    ensures forall i :: 0 <= i < |outcomes| ==> steps[i] == AttemptStep(outcomes[i])
  {
    seq(|outcomes|, i requires 0 <= i < |outcomes| => AttemptStep(outcomes[i]))
  }

  /** What `fetch_nse_announcements` leaves behind and returns (after the browser is up). */
  datatype AnnouncementRun = AnnouncementRun(
    attempts: nat, sleeps: nat, pageDumps: seq<string>, files: map<string, Artifact>, returned: Doc)

  /** The run, from today's date and the outcomes of the three attempts; the payload starts as `[]`. */
  function ExpectedRun(today: Date, outcomes: seq<Evaluation>): AnnouncementRun
    requires Valid(today) && |outcomes| == MaxAttempts
  {
    var r := SameDayRange(today);
    var o := Outcome(AttemptSteps(outcomes), Array([]));
    var summary := SummaryName(Prefix, r.to);
    if Truthy(o.payload) then
      AnnouncementRun(o.attempts, o.sleeps, [],
        map[JsonName(Prefix, r.to) := JsonDump, summary := TextFile(SummaryOf(r, o.payload).lines)], o.payload)
    else
      AnnouncementRun(o.attempts, o.sleeps, [RawPageName(r.to)],
        map[summary := TextFile(SummaryOf(r, Array([])).lines)], o.payload)
  }

  /** `save_text_summary`, written line by line. */
  method SaveSummary(r: DateRange, d: Doc) returns (w: Written)
    ensures w == SummaryOf(r, d)
  {
    if !Truthy(d) {
      w := WriteDocument(Preamble(r), [EmptyNote], Block, []);
      return;
    }
    var es := Iterated(d);
    if es.None? {
      return Written(Preamble(r), false);
    }
    w := WriteDocument(Preamble(r), [EmptyNote], Block, es.value);
  }

  /** `fetch_nse_announcements` after the browser is up. */
  method RunAnnouncements(today: Date, outcomes: seq<Evaluation>) returns (run: AnnouncementRun)
    requires Valid(today) && |outcomes| == MaxAttempts
    ensures run == ExpectedRun(today, outcomes)
  {
    var r := SameDayRange(today);
    var payload, attempts, sleeps, dumps := RetryLoop(AttemptSteps(outcomes), Array([]));
    var summary := SummaryName(Prefix, r.to);
    if Truthy(payload) {
      var w := SaveSummary(r, payload);
      run := AnnouncementRun(attempts, sleeps, [], map[JsonName(Prefix, r.to) := JsonDump, summary := TextFile(w.lines)], payload);
    } else {
      var w := SaveSummary(r, Array([]));
      run := AnnouncementRun(attempts, sleeps, [RawPageName(r.to)], map[summary := TextFile(w.lines)], payload);
    }
  }

  /**
   * The loop breaks on the first attempt whose result has a length, even an
   * empty list, and returns that result.
   */
  lemma FirstSizedWins(outcomes: seq<Evaluation>, k: nat)
    requires |outcomes| == MaxAttempts && k < MaxAttempts
    requires outcomes[k].Evaluated? && Sized(outcomes[k].result)
    requires forall j :: 0 <= j < k ==> !(outcomes[j].Evaluated? && Sized(outcomes[j].result))
    ensures Outcome(AttemptSteps(outcomes), Array([])).attempts == k + 1
    ensures Outcome(AttemptSteps(outcomes), Array([])).payload == outcomes[k].result
  {
    var steps := AttemptSteps(outcomes);
    FirstDoneIs(steps, k);
    LastAssignedStep(steps, k, Array([]));
  }

  /** When no attempt evaluates, all three are made and the payload keeps its initial `[]`. */
  lemma NothingEvaluated(outcomes: seq<Evaluation>)
    requires |outcomes| == MaxAttempts && forall j :: 0 <= j < MaxAttempts ==> !outcomes[j].Evaluated?
    ensures Outcome(AttemptSteps(outcomes), Array([])) == Trace(Array([]), MaxAttempts, MaxAttempts - 1, [])
  {
    var steps := AttemptSteps(outcomes);
    AllFailed(steps, Array([]));
    var dumps := Dumped(steps, MaxAttempts);
    if dumps != [] {
      DumpedMember(steps, MaxAttempts, dumps[0]);
    }
  }

  /**
   * The query runs from today to today; the payload is saved and summarized
   * exactly when it is truthy; otherwise the summary holds the note and the
   * page is saved as `nse_announcements_raw_<to>.html`. The summary is
   * written on every run, and the payload is returned as it is.
   */
  lemma Outputs(today: Date, outcomes: seq<Evaluation>)
    requires Valid(today) && |outcomes| == MaxAttempts
    ensures var run, o, r := ExpectedRun(today, outcomes), Outcome(AttemptSteps(outcomes), Array([])), SameDayRange(today);
      && r == DateRange(FormatDMY(today), FormatDMY(today))
      && (JsonName("nse_announcements", r.to) in run.files <==> Truthy(o.payload))
      && SummaryName("nse_announcements", r.to) in run.files
      && run.files[SummaryName("nse_announcements", r.to)]
           == TextFile(if Truthy(o.payload) then SummaryOf(r, o.payload).lines else Preamble(r) + [EmptyNote])
      && (run.pageDumps == [] <==> Truthy(o.payload))
      && (!Truthy(o.payload) ==> run.pageDumps == [RawPageName(r.to)])
      && run.returned == o.payload
  {
    var r := SameDayRange(today);
    NamesDiffer(Prefix, r.to);
  }

  /** Whether an element holds every key the block reads. */
  lemma FitsIff(e: Entry)
    ensures Fits(Block, e) <==> e.Object? && RawKeys <= e.fields.Keys
  {
    if e.Object? && RawKeys <= e.fields.Keys {
      forall j | 0 <= j < |Block| ensures KeysOf(Block[j]) <= e.fields.Keys {
        assert j in {0, 1, 2, 3, 4, 5, 6, 7, 8, 9};
      }
      FitsByKeys(Block, e);
    } else if !e.Object? {
      assert Fill(Block[0], e).None?;
    } else {
      var k :| k in RawKeys && k !in e.fields.Keys;
      var j :| j in {0, 1, 2, 3, 4, 5, 6, 7} && Block[j] == Line(Block[j].head, k, "");
      assert Fill(Block[j], e).None?;
    }
  }

  /** The lines of one announcement in the summary. */
  function Card(item: Item): seq<string> {
    [
      "Symbol: " + Get(item, "symbol"),
      "Company: " + Get(item, "sm_name"),
      "ISIN: " + Get(item, "sm_isin"),
      "Description: " + Get(item, "desc"),
      "Announcement Date: " + Get(item, "an_dt"),
      "Industry: " + Get(item, "smIndustry"),
      "Details: " + Get(item, "attchmntText"),
      "Attachment: " + Get(item, "attchmntFile"),
      Rule('='),
      ""
    ]
  }

  /** An element holding the raw keys renders each block line completely, as its card says. */
  lemma CardRendered(item: Item)
    requires RawKeys <= item.Keys
    ensures forall j :: 0 <= j < |Block| ==> Fill(Block[j], Object(item)) == Some(Card(item)[j])
  {
    FillPlain("Symbol: ", "symbol", item);
    FillPlain("Company: ", "sm_name", item);
    FillPlain("ISIN: ", "sm_isin", item);
    FillPlain("Description: ", "desc", item);
    FillPlain("Announcement Date: ", "an_dt", item);
    FillPlain("Industry: ", "smIndustry", item);
    FillPlain("Details: ", "attchmntText", item);
    FillPlain("Attachment: ", "attchmntFile", item);
    forall j | 0 <= j < |Block| ensures Fill(Block[j], Object(item)) == Some(Card(item)[j]) {
      assert j in {0, 1, 2, 3, 4, 5, 6, 7, 8, 9};
    }
  }

  /** The objects of a list, as records. */
  function FieldsOf(es: seq<Entry>): (rs: seq<Item>)
    requires forall i :: 0 <= i < |es| ==> es[i].Object?
    ensures |rs| == |es| && Objects(rs) == es
    ensures forall i :: 0 <= i < |es| ==> rs[i] == es[i].fields
  {
    seq(|es|, i requires 0 <= i < |es| => es[i].fields)
  }

  /**
   * A non-empty list of objects that all hold the raw keys is summarized in
   * full: the title with the single date, a rule of `=`, a blank line, then
   * the card of every announcement in order.
   */
  lemma SummaryOfList(r: DateRange, es: seq<Entry>)
    requires |es| > 0 && forall i :: 0 <= i < |es| ==> es[i].Object? && RawKeys <= es[i].fields.Keys
    ensures var w := SummaryOf(r, Array(es));
      w.complete && |w.lines| == 3 + 10 * |es|
      && w.lines[..3] == ["NSE Corporate Announcements (" + r.from + " to " + r.to + ")", Rule('='), ""]
      && forall k :: 0 <= k < |es| ==> w.lines[3 + 10 * k..13 + 10 * k] == Card(es[k].fields)
  {
    var rs := FieldsOf(es);
    Covered(rs);
    DocumentOfRecords(Preamble(r), [EmptyNote], Block, rs);
    forall k | 0 <= k < |es| ensures SummaryOf(r, Array(es)).lines[3 + 10 * k..13 + 10 * k] == Card(es[k].fields) {
      SummaryCard(r, es, k);
    }
  }

  /** Announcement `k` of such a list fills lines `3 + 10k` up to `13 + 10k` of the summary with its card. */
  lemma SummaryCard(r: DateRange, es: seq<Entry>, k: nat)
    requires forall i :: 0 <= i < |es| ==> es[i].Object? && RawKeys <= es[i].fields.Keys
    requires k < |es|
    ensures var w := SummaryOf(r, Array(es));
      13 + 10 * k <= |w.lines| && w.lines[3 + 10 * k..13 + 10 * k] == Card(es[k].fields)
  {
    var rs := FieldsOf(es);
    Covered(rs);
    CardRendered(rs[k]);
    DocumentBlock(Preamble(r), [EmptyNote], Block, rs, k, Card(rs[k]));
  }

  lemma Covered(rs: seq<Item>)
    requires forall i :: 0 <= i < |rs| ==> RawKeys <= rs[i].Keys
    ensures forall i, j :: 0 <= i < |rs| && 0 <= j < |Block| ==> KeysOf(Block[j]) <= rs[i].Keys
  {
    forall i, j | 0 <= i < |rs| && 0 <= j < |Block| ensures KeysOf(Block[j]) <= rs[i].Keys {
      assert j in {0, 1, 2, 3, 4, 5, 6, 7, 8, 9};
    }
  }

  /**
   * The first element that lacks a raw key (or is not an object) stops the
   * summary: it keeps the preamble, the full blocks of the elements before
   * it, and the lines of its own block before the first missing key, and
   * the writing is reported as failed.
   */
  lemma SummaryStops(r: DateRange, es: seq<Entry>, k: nat)
    requires k < |es| && !(es[k].Object? && RawKeys <= es[k].fields.Keys)
    requires forall i :: 0 <= i < k ==> es[i].Object? && RawKeys <= es[i].fields.Keys
    ensures var w := SummaryOf(r, Array(es));
      !w.complete && |w.lines| < 3 + 10 * (k + 1)
      && w.lines == Preamble(r) + Body(es[..k], Block).lines + Render(Block, es[k]).lines
  {
    FitsIff(es[k]);
    forall i | 0 <= i < k ensures Fits(Block, es[i]) {
      FitsIff(es[i]);
    }
    DocumentStops(Preamble(r), [EmptyNote], Block, es, k);
  }

  /** A truthy payload that is not a list (an object, a string, `true`, a number) leaves only the preamble. */
  lemma SummaryOfNonList(r: DateRange, d: Doc)
    requires Truthy(d) && !d.Array?
    ensures SummaryOf(r, d) == Written(Preamble(r), false)
  {
    match Iterated(d)
    case None =>
    case Some(es) =>
      assert es != [] && es[0] == NonObject;
      assert Fill(Block[0], NonObject).None?;
      assert Block[..0] == [];
      RenderStops(Block, NonObject, 0);
      SummaryStops(r, es, 0);
      assert es[..0] == [];
  }
}
