/**
 * `bse_notices.py`: the BSE notices of the current day, scraped from the
 * results table of a submitted form. The page is taken as already parsed:
 * the rows of the notices table, each with its class list and its cells.
 */
module BseNotices {
  import opened Wrappers
  import opened Json
  import opened Dates
  import opened Text
  import opened Retry
  import opened Attempts
  import opened Summary
  import opened Pipeline
  import opened Rows

  /** An `<a>` element: its text and its `href` attribute, if it has one. */
  datatype Anchor = Anchor(text: string, href: Option<string>)

  /** An `<input type="image">` element and its `id` attribute, if it has one. */
  datatype ImageInput = ImageInput(id: Option<string>)

  /** A `<td>`: its text, its first anchor and its first image input. */
  datatype Cell = Cell(text: string, anchor: Option<Anchor>, image: Option<ImageInput>)

  /** A `<tr>`: its `class` list and its `<td>` cells. */
  datatype Row = Row(classes: seq<string>, cells: seq<Cell>)

  /**
   * A captured page: its HTML and the rows of the table with id
   * `ContentPlaceHolder1_GridView2`, or None when it has no such table.
   */
  datatype Page = Page(html: string, table: Option<seq<Row>>)

  /** The 7 fields of a notice. */
  datatype Notice = Notice(
    noticeNo: string, subject: string, subjectUrl: string,
    segment: string, category: string, department: string, pdfId: string)

  /** The dictionary appended for a notice, as dumped to JSON and read by the summary. */
  function AsItem(n: Notice): Item {
    map[
      "noticeNo" := n.noticeNo, "subject" := n.subject, "subjectUrl" := n.subjectUrl,
      "segment" := n.segment, "category" := n.category, "department" := n.department, "pdfId" := n.pdfId
    ]
  }

  const Site := "https://www.bseindia.com"

  /** The subject link: a link that does not start with `http` is taken relative to the BSE site. */
  function SubjectUrl(href: string): (url: string)
    ensures url == "" <==> href == ""
    ensures url != "" ==> StartsWith(url, "http")
    ensures |href| <= |url| && url[|url| - |href|..] == href
    ensures StartsWith(href, "http") ==> url == href
  {
    if href != "" && !StartsWith(href, "http") then Site + href else href
  }

  /** Making a link absolute twice is making it absolute once. */
  lemma SubjectUrlIdempotent(href: string)
    ensures SubjectUrl(SubjectUrl(href)) == SubjectUrl(href)
  {
  }

  /** Whether reading a row raises: an anchor without `href`, or an image input without `id`. */
  predicate Raises(cells: seq<Cell>)
    requires |cells| >= 6
  {
    (cells[1].anchor.Some? && cells[1].anchor.value.href.None?)
    || (cells[5].image.Some? && cells[5].image.value.id.None?)
  }

  /** The notice read from the cells of a row of at least 6 cells that does not raise. */
  function NoticeOf(cells: seq<Cell>): Notice
    requires |cells| >= 6 && !Raises(cells)
  {
    var a, img := cells[1].anchor, cells[5].image;
    Notice(
      Strip(cells[0].text),
      if a.Some? then Strip(a.value.text) else "",
      if a.Some? then SubjectUrl(a.value.href.value) else "",
      Strip(cells[2].text),
      Strip(cells[3].text),
      Strip(cells[4].text),
      if img.Some? then img.value.id.value else "")
  }

  /**
   * One row of the loop: Some(None) when it is skipped (a pagination row, or
   * fewer than 6 cells), Some(Some(n)) when it gives notice `n`, and None
   * when reading it raises.
   */
  function RowNotice(row: Row): Option<Option<Notice>> {
    if "pgr" in row.classes || |row.cells| < 6 then Some(None)
    else if Raises(row.cells) then None
    else Some(Some(NoticeOf(row.cells)))
  }

  /** `parse_notices(html)`: the first row is the header; anything that raises yields `[]`. */
  function Notices(p: Page): seq<Notice> {
    match p.table
    case None => []
    case Some(rows) => if |rows| == 0 then [] else Collect(rows[1..], RowNotice).GetOr([])
  }

  /** `parse_notices`, row by row. */
  method ParseNotices(p: Page) returns (notices: seq<Notice>)
    ensures notices == Notices(p)
  {
    if p.table.None? {
      return [];
    }
    var all := p.table.value;
    if |all| == 0 {
      return [];
    }
    var rows := all[1..];
    notices := [];
    var i := 0;
    while i < |rows|
      invariant i <= |rows|
      invariant Collect(rows[..i], RowNotice) == Some(notices)
    {
      var row := rows[i];
      CollectNext(rows, i, RowNotice);
      i := i + 1;
      if "pgr" in row.classes {
        continue;
      }
      var cols := row.cells;
      if |cols| >= 6 {
        var link := cols[1].anchor;
        if link.Some? && link.value.href.None? {
          CollectFailed(rows, i, RowNotice);
          return [];
        }
        var input := cols[5].image;
        if input.Some? && input.value.id.None? {
          CollectFailed(rows, i, RowNotice);
          return [];
        }
        notices := notices + [NoticeOf(cols)];
      }
    }
    assert rows[..i] == rows;
  }

  /**
   * The notices of a page with a table: the header row is dropped, pagination
   * rows and rows of fewer than 6 cells are skipped, and every other row
   * gives one notice, in order; a row that raises empties
   * the result.
   */
  lemma NoticesOfTable(html: string, header: Row, rows: seq<Row>)
    ensures var ns := Notices(Page(html, Some([header] + rows)));
      && ((exists i :: 0 <= i < |rows| && RowNotice(rows[i]).None?) ==> ns == [])
      && ((forall i :: 0 <= i < |rows| ==> RowNotice(rows[i]).Some?) ==> ns == Kept(rows, RowNotice))
      && |ns| <= |rows|
  {
    assert ([header] + rows)[1..] == rows;
    CollectFails(rows, RowNotice);
    KeptLength(rows, RowNotice);
    if Collect(rows, RowNotice).Some? {
      CollectKept(rows, RowNotice);
    }
  }

  /** A pagination row and a row of fewer than 6 cells are skipped without raising. */
  lemma SkippedRows(row: Row)
    requires "pgr" in row.classes || |row.cells| < 6
    ensures RowNotice(row) == Some(None) && Contribution(row, RowNotice) == []
  {
  }

  /**
   * A kept row: the notice number, segment, category and department are the
   * stripped texts of cells 0, 2, 3 and 4; the subject and its link come from
   * the anchor of cell 1 (`''` without one); the PDF id is the id of the
   * image input of cell 5 (`''` without one).
   */
  lemma RowFields(row: Row)
    requires "pgr" !in row.classes && |row.cells| >= 6
    ensures var c := row.cells;
      && (RowNotice(row).None? <==> Raises(c))
      && (!Raises(c) ==>
            var n := RowNotice(row).value.value;
            && n.noticeNo == Strip(c[0].text)
            && n.segment == Strip(c[2].text)
            && n.category == Strip(c[3].text)
            && n.department == Strip(c[4].text)
            && (c[1].anchor.None? ==> n.subject == "" && n.subjectUrl == "")
            && (c[1].anchor.Some? ==> n.subject == Strip(c[1].anchor.value.text)
                                      && n.subjectUrl == SubjectUrl(c[1].anchor.value.href.value))
            && (c[5].image.None? ==> n.pdfId == "")
            && (c[5].image.Some? ==> n.pdfId == c[5].image.value.id.value))
  {
  }

  // Summary

  /** The lines written per notice: 7 labelled lines, a rule of `=` and a blank line. */
  const Block: seq<Template> := [
    Line("Notice No: ", "noticeNo", ""),
    Line("Subject: ", "subject", ""),
    Line("Subject URL: ", "subjectUrl", ""),
    Line("Segment: ", "segment", ""),
    Line("Category: ", "category", ""),
    Line("Department: ", "department", ""),
    Line("PDF ID: ", "pdfId", ""),
    Fixed(Rule('=')),
    Fixed("")
  ]

  function Preamble(r: DateRange): seq<string> {
    ["BSE Notices Summary (" + r.from + " to " + r.to + ")", Rule('='), ""]
  }

  /** `save_text_summary(notices, ...)`: no note for an empty list, only the preamble. */
  function SummaryText(r: DateRange, notices: seq<Notice>): seq<string> {
    Document(Preamble(r), [], Block, Objects(ItemsOf(notices, AsItem))).lines
  }

  method SaveSummary(r: DateRange, notices: seq<Notice>) returns (lines: seq<string>)
    ensures lines == SummaryText(r, notices)
  {
    var w := WriteDocument(Preamble(r), [], Block, Objects(ItemsOf(notices, AsItem)));
    lines := w.lines;
  }

  /** The lines of one notice in the summary. */
  function Card(n: Notice): seq<string> {
    [
      "Notice No: " + n.noticeNo,
      "Subject: " + n.subject,
      "Subject URL: " + n.subjectUrl,
      "Segment: " + n.segment,
      "Category: " + n.category,
      "Department: " + n.department,
      "PDF ID: " + n.pdfId,
      Rule('='),
      ""
    ]
  }

  lemma Covered(ns: seq<Notice>)
    ensures forall i, j :: 0 <= i < |ns| && 0 <= j < |Block| ==> KeysOf(Block[j]) <= ItemsOf(ns, AsItem)[i].Keys
  {
    forall i, j | 0 <= i < |ns| && 0 <= j < |Block| ensures KeysOf(Block[j]) <= ItemsOf(ns, AsItem)[i].Keys {
      assert j in {0, 1, 2, 3, 4, 5, 6, 7, 8};
    }
  }

  /** A notice renders each block line completely, as its card says. */
  lemma CardRendered(n: Notice)
    ensures forall j :: 0 <= j < |Block| ==> Fill(Block[j], Object(AsItem(n))) == Some(Card(n)[j])
  {
    var item := AsItem(n);
    FillPlain("Notice No: ", "noticeNo", item);
    FillPlain("Subject: ", "subject", item);
    FillPlain("Subject URL: ", "subjectUrl", item);
    FillPlain("Segment: ", "segment", item);
    FillPlain("Category: ", "category", item);
    FillPlain("Department: ", "department", item);
    FillPlain("PDF ID: ", "pdfId", item);
    forall j | 0 <= j < |Block| ensures Fill(Block[j], Object(item)) == Some(Card(n)[j]) {
      assert j in {0, 1, 2, 3, 4, 5, 6, 7, 8};
    }
  }

  /**
   * The summary: the title with the range, a rule of `=`, a blank line, then
   * the card of every notice, in order.
   */
  lemma SummaryShape(r: DateRange, ns: seq<Notice>, k: nat)
    requires k < |ns|
    ensures var lines := SummaryText(r, ns);
      |lines| == 3 + 9 * |ns|
      && lines[..3] == ["BSE Notices Summary (" + r.from + " to " + r.to + ")", Rule('='), ""]
      && lines[3 + 9 * k..12 + 9 * k] == Card(ns[k])
  {
    var items := ItemsOf(ns, AsItem);
    Covered(ns);
    DocumentOfRecords(Preamble(r), [], Block, items);
    CardRendered(ns[k]);
    DocumentBlock(Preamble(r), [], Block, items, k, Card(ns[k]));
  }

  // The run

  /** One pass of the loop: the page was captured after submitting the form, or loading or submitting failed. */
  datatype Submission = Captured(page: Page) | SubmitTimeout | SubmitError

  /** `html_content` and `notices_data` as the loop leaves them. */
  datatype Capture = Capture(html: Option<string>, notices: seq<Notice>)

  /** A captured page sets both variables (parsing never raises); the loop breaks when it gave notices. */
  function SubmitStep(a: Submission): Step<Capture> {
    match a
    case Captured(p) => Step(Some(Capture(Some(p.html), Notices(p))), Notices(p) != [], false)
    case SubmitTimeout => Step(None, false, false)
    case SubmitError => Step(None, false, false)
  }

  function SubmitSteps(outcomes: seq<Submission>): (steps: seq<Step<Capture>>)
    ensures |steps| == |outcomes|
    ensures forall i :: 0 <= i < |outcomes| ==> steps[i] == SubmitStep(outcomes[i])
  {
    seq(|outcomes|, i requires 0 <= i < |outcomes| => SubmitStep(outcomes[i]))
  }

  const Prefix := "bse_notices"

  /** `f"bse_notices_raw_{to_date}.html"`. */
  function RawPageName(to: string): string {
    "bse_notices_raw_" + to + ".html"
  }

  /** What `fetch_bse_notices` leaves behind and returns (after the browser is up). */
  datatype NoticesRun = NoticesRun(attempts: nat, sleeps: nat, files: map<string, Artifact>, returned: seq<Notice>)

  function ExpectedRun(today: Date, outcomes: seq<Submission>): NoticesRun
    requires Valid(today) && |outcomes| == MaxAttempts
  {
    var r := SameDayRange(today);
    var o := Outcome(SubmitSteps(outcomes), Capture(None, []));
    var ns := o.payload.notices;
    var saved := if ns != [] then
        map[JsonName(Prefix, r.to) := JsonDump, SummaryName(Prefix, r.to) := TextFile(SummaryText(r, ns))]
      else map[];
    var html := o.payload.html;
    var files := if html.Some? && html.value != "" && ns == [] then saved[RawPageName(r.to) := PageDump(html.value)] else saved;
    NoticesRun(o.attempts, o.sleeps, files, ns)
  }

  /** `fetch_bse_notices` after the browser is up. */
  method RunNotices(today: Date, outcomes: seq<Submission>) returns (run: NoticesRun)
    requires Valid(today) && |outcomes| == MaxAttempts
    ensures run == ExpectedRun(today, outcomes)
  {
    var r := SameDayRange(today);
    var capture, attempts, sleeps, dumps := RetryLoop(SubmitSteps(outcomes), Capture(None, []));
    var notices, html := capture.notices, capture.html;
    var files := map[];
    if notices != [] {
      files := files[JsonName(Prefix, r.to) := JsonDump];
      var lines := SaveSummary(r, notices);
      files := files[SummaryName(Prefix, r.to) := TextFile(lines)];
    }
    if html.Some? && html.value != "" && notices == [] {
      files := files[RawPageName(r.to) := PageDump(html.value)];
    }
    run := NoticesRun(attempts, sleeps, files, notices);
  }

  /** The loop breaks on the first captured page that gives notices, and returns them. */
  lemma FirstNoticesWin(outcomes: seq<Submission>, k: nat)
    requires |outcomes| == MaxAttempts && k < MaxAttempts
    requires outcomes[k].Captured? && Notices(outcomes[k].page) != []
    requires forall j :: 0 <= j < k ==> !(outcomes[j].Captured? && Notices(outcomes[j].page) != [])
    ensures var o := Outcome(SubmitSteps(outcomes), Capture(None, []));
      o.attempts == k + 1 && o.payload == Capture(Some(outcomes[k].page.html), Notices(outcomes[k].page))
  {
    var steps := SubmitSteps(outcomes);
    FirstDoneIs(steps, k);
    LastAssignedStep(steps, k, Capture(None, []));
  }

  /** When no page gives notices, all three attempts are made and nothing is returned. */
  lemma NoNotices(outcomes: seq<Submission>)
    requires |outcomes| == MaxAttempts
    requires forall j :: 0 <= j < MaxAttempts ==> !(outcomes[j].Captured? && Notices(outcomes[j].page) != [])
    ensures var o := Outcome(SubmitSteps(outcomes), Capture(None, []));
      o.attempts == MaxAttempts && o.sleeps == MaxAttempts - 1 && o.payload.notices == []
  {
    var steps := SubmitSteps(outcomes);
    var o := Outcome(steps, Capture(None, []));
    assert FirstDone(steps) == |steps|;
    assert o.payload.notices == [] by {
      LastAssignedNotices(steps, |steps|);
    }
  }

  /** Every capture assigned by the loop, and the initial one, carries notices only when its step broke the loop. */
  lemma {:induction false} LastAssignedNotices(steps: seq<Step<Capture>>, n: nat)
    requires n <= |steps|
    requires forall j :: 0 <= j < |steps| ==> !steps[j].done && (steps[j].stored.Some? ==> steps[j].stored.value.notices == [])
    ensures LastAssigned(steps[..n], Capture(None, [])).notices == []
  {
    if n > 0 {
      LastAssignedNotices(steps, n - 1);
      LastAssignedStep(steps, n - 1, Capture(None, []));
    }
  }

  /**
   * The query runs from today to today. The JSON file and the summary are
   * written exactly when notices were parsed; the captured page is saved
   * exactly when a non-empty page was captured and gave no notices; the
   * notices are returned.
   */
  lemma Outputs(today: Date, outcomes: seq<Submission>)
    requires Valid(today) && |outcomes| == MaxAttempts
    ensures var run, o, r := ExpectedRun(today, outcomes), Outcome(SubmitSteps(outcomes), Capture(None, [])), SameDayRange(today);
      var ns, html := o.payload.notices, o.payload.html;
      && r == DateRange(FormatDMY(today), FormatDMY(today))
      && (JsonName("bse_notices", r.to) in run.files <==> ns != [])
      && (SummaryName("bse_notices", r.to) in run.files <==> ns != [])
      && (ns != [] ==> run.files[SummaryName("bse_notices", r.to)] == TextFile(SummaryText(r, ns)))
      && (RawPageName(r.to) in run.files <==> html.Some? && html.value != "" && ns == [])
      && run.returned == ns
  {
    var r := SameDayRange(today);
    var json, summary, raw := JsonName(Prefix, r.to), SummaryName(Prefix, r.to), RawPageName(r.to);
    assert |json| == |r.to| + 17 && |summary| == |r.to| + 24 && |raw| == |r.to| + 21;
  }
}
