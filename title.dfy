/**
 * `title.py`: the articles of `news.json` sent to Gemini in batches of 50,
 * each batch with the next API key in turn, and the replies gathered under
 * one header per batch into the text saved as a PDF. The Gemini request is
 * a function parameter; the PDF layout is left out.
 */
module Title {
  import opened Wrappers
  import opened Text
  import opened Arith

  /** One entry of `news.json`: its `title` and `link` members, None when missing. */
  datatype News = News(title: Option<string>, link: Option<string>)

  const BatchSize: nat := 50
  /** Fewer articles than this abort the run; a batch with fewer is skipped. */
  const MinTitles: nat := 10
  const FailedSummary := "\U{274C} Failed to get summary."

  /** `(total + batch_size - 1) // batch_size`. */
  function NumBatches(total: nat): nat {
    (total + BatchSize - 1) / BatchSize
  }

  /** The number of batches is the ceiling of `total / 50`: enough for every article, and no batch starts past the end. */
  lemma NumBatchesIsCeiling(total: nat)
    ensures NumBatches(total) * BatchSize >= total
    ensures NumBatches(total) > 0 ==> (NumBatches(total) - 1) * BatchSize < total
  {
  }

  function BatchEnd(i: nat, total: nat): nat {
    if (i + 1) * BatchSize < total then (i + 1) * BatchSize else total
  }

  /** `news_list[start:end]` for batch `i`. */
  function Batch(news: seq<News>, i: nat): seq<News>
    requires i < NumBatches(|news|)
  {
    news[i * BatchSize..BatchEnd(i, |news|)]
  }

  /** Every batch but the last holds 50 articles; the last holds between 1 and 50. */
  lemma BatchSizes(news: seq<News>, i: nat)
    requires i < NumBatches(|news|)
    ensures 1 <= |Batch(news, i)| <= BatchSize
    ensures i + 1 < NumBatches(|news|) ==> |Batch(news, i)| == BatchSize
  {
  }

  /** A run of at least 10 articles processes its first batch, and only its last batch can be skipped. */
  lemma OnlyLastSkipped(news: seq<News>, i: nat)
    requires |news| >= MinTitles && i < NumBatches(|news|)
    requires |Batch(news, i)| < MinTitles
    ensures i > 0 && i == NumBatches(|news|) - 1
  {
    BatchSizes(news, i);
  }

  /** The batches one after the other. */
  function Flatten(batches: seq<seq<News>>): seq<News> {
    if batches == [] then [] else Flatten(batches[..|batches| - 1]) + batches[|batches| - 1]
  }

  function Batches(news: seq<News>, n: nat): (bs: seq<seq<News>>)
    requires n <= NumBatches(|news|)
    ensures |bs| == n && forall i :: 0 <= i < n ==> bs[i] == Batch(news, i)
  {
    seq(n, i requires 0 <= i < n => Batch(news, i))
  }

  /** The first `n` batches are, in order and without overlap, the articles before the end of batch `n - 1`. */
  lemma {:induction false} BatchesPrefix(news: seq<News>, n: nat)
    requires 0 < n <= NumBatches(|news|)
    ensures Flatten(Batches(news, n)) == news[..BatchEnd(n - 1, |news|)]
  {
    if n == 1 {
      assert Batches(news, 1)[..0] == [];
    } else {
      BatchesPrefix(news, n - 1);
      assert Batches(news, n)[..n - 1] == Batches(news, n - 1);
      assert news[..BatchEnd(n - 2, |news|)] + Batch(news, n - 1) == news[..BatchEnd(n - 1, |news|)];
    }
  }

  /** The batches cover the article list exactly, in order. */
  lemma BatchesCover(news: seq<News>)
    ensures Flatten(Batches(news, NumBatches(|news|))) == news
  {
    var n := NumBatches(|news|);
    if n > 0 {
      BatchesPrefix(news, n);
      assert BatchEnd(n - 1, |news|) == |news|;
    } else {
      assert news == [];
    }
  }

  /** `pankaj[i % len(pankaj)]`: the key of batch `i`. */
  function Key(keys: seq<string>, i: nat): string
    requires keys != []
  {
    keys[i % |keys|]
  }

  /** Keys are used in turn: the first batches take the keys in order, and the choice repeats every `|keys|` batches. */
  lemma KeyRotation(keys: seq<string>, i: nat)
    requires keys != []
    ensures Key(keys, i) in keys
    ensures i < |keys| ==> Key(keys, i) == keys[i]
    ensures Key(keys, i + |keys|) == Key(keys, i)
  {
    var n := |keys|;
    var q, r := i / n, i % n;
    assert i + n == (q + 1) * n + r by {
      assert i == q * n + r;
      assert (q + 1) * n == q * n + n;
    }
    DivUnique(i + n, n, q + 1, r);
    if i < n {
      DivUnique(i, n, 0, i);
    }
  }

  /** `- Title: <title>\n  Link: <link>` for one article; None when a member is missing (KeyError). */
  function Entry(n: News): Option<string> {
    if n.title.Some? && n.link.Some? then Some("- Title: " + n.title.value + "\n  Link: " + n.link.value) else None
  }

  /** The title list of `send_to_gemini`: the entries joined by newlines; None when one of them raises. */
  function FormatTitles(batch: seq<News>): (r: Option<string>)
    ensures r.Some? <==> forall i :: 0 <= i < |batch| ==> Entry(batch[i]).Some?
  {
    if forall i :: 0 <= i < |batch| ==> Entry(batch[i]).Some? then Some(Join("\n", Entries(batch)))
    else None
  }

  /** The entries of a batch whose every article has `title` and `link`. */
  function Entries(batch: seq<News>): (es: seq<string>)
    requires forall i :: 0 <= i < |batch| ==> Entry(batch[i]).Some?
    ensures |es| == |batch| && forall i :: 0 <= i < |batch| ==> es[i] == Entry(batch[i]).value
  {
    seq(|batch|, i requires 0 <= i < |batch| => Entry(batch[i]).value)
  }

  /**
   * A built title list is the entries of the batch joined by newlines: it is
   * as long as the entries and one newline between each two, and the entry of
   * article `i` sits after the entries before it, each followed by a newline,
   * and is itself followed by a newline unless it is the last.
   */
  lemma FormatTitlesEntries(batch: seq<News>, i: nat)
    requires FormatTitles(batch).Some? && i < |batch|
    ensures var text, es := FormatTitles(batch).value, Entries(batch);
      && |text| == TotalLength(es) + |batch| - 1
      && es[i] == Entry(batch[i]).value
      && PartAt(text, "\n", es, i)
  {
    JoinLength("\n", Entries(batch));
    JoinParts("\n", Entries(batch), i);
  }

  /** The header of batch `i`, numbered from 1. */
  function Header(i: nat): string {
    "\n\n=== Batch " + Show(i + 1) + " Summary ===\n\n"
  }

  /** What a processed batch adds: its header, then Gemini's reply or the failure note when the reply is missing or empty. */
  function Section(i: nat, reply: Option<string>): string {
    Header(i) + if reply.Some? && reply.value != "" then reply.value else FailedSummary
  }

  /**
   * `all_summaries` after the first `n` batches, where `ask(titles, key)` is
   * Gemini's reply to a title list sent with a key (None when the request
   * fails); None when formatting a batch raised KeyError.
   */
  function Summaries(news: seq<News>, keys: seq<string>, ask: (string, string) -> Option<string>, n: nat): Option<string>
    requires keys != [] && n <= NumBatches(|news|)
  {
    if n == 0 then Some("")
    else
      match Summaries(news, keys, ask, n - 1)
      case None => None
      case Some(acc) =>
        var batch := Batch(news, n - 1);
        if |batch| < MinTitles then Some(acc)
        else
          match FormatTitles(batch)
          case None => None
          case Some(titles) => Some(acc + Section(n - 1, ask(titles, Key(keys, n - 1))))
  }

  datatype TitleRun =
    | NotEnough                               // fewer than 10 articles: nothing is sent
    | KeyErrorRaised                          // an article without `title` or `link`
    | NameErrorRaised                         // line 133 as written
    | Finished(summaries: string, pdfSaved: bool)

  /** `main`, with the key count of line 133 read from the key list it indexes. */
  function Run(news: seq<News>, keys: seq<string>, ask: (string, string) -> Option<string>): TitleRun
    requires keys != []
  {
    if |news| < MinTitles then NotEnough
    else
      match Summaries(news, keys, ask, NumBatches(|news|))
      case None => KeyErrorRaised
      case Some(s) => Finished(s, Strip(s) != "")
  }

  /**
   * `main` as written: the progress line of the first batch that is not
   * skipped names `GEMINI_API_KEYS`, which is not defined, before anything is
   * sent.
   */
  function RunAsWritten(news: seq<News>, keys: seq<string>, ask: (string, string) -> Option<string>): TitleRun
    requires keys != []
  {
    if |news| < MinTitles then NotEnough
    else if exists i :: 0 <= i < NumBatches(|news|) && |Batch(news, i)| >= MinTitles then NameErrorRaised
    else Run(news, keys, ask)
  }

  /** As written, every run with enough articles ends with NameError: its first batch is never skipped. */
  lemma NameErrorOnFirstBatch(news: seq<News>, keys: seq<string>, ask: (string, string) -> Option<string>)
    requires keys != [] && |news| >= MinTitles
    ensures RunAsWritten(news, keys, ask) == NameErrorRaised
  {
    BatchSizes(news, 0);
    assert 0 < NumBatches(|news|) && |Batch(news, 0)| >= MinTitles;
  }

  /** Once a batch raised KeyError, the batches after it change nothing. */
  lemma {:induction false} SummariesFailed(news: seq<News>, keys: seq<string>, ask: (string, string) -> Option<string>, k: nat, n: nat)
    requires keys != [] && k <= n <= NumBatches(|news|)
    requires Summaries(news, keys, ask, k).None?
    ensures Summaries(news, keys, ask, n).None?
    decreases n
  {
    if k < n {
      SummariesFailed(news, keys, ask, k, n - 1);
    }
  }

  /** The text gathered after `k` batches is the start of the text gathered after `n`. */
  lemma {:induction false} SummariesPrefix(news: seq<News>, keys: seq<string>, ask: (string, string) -> Option<string>, k: nat, n: nat)
    requires keys != [] && k <= n <= NumBatches(|news|)
    requires Summaries(news, keys, ask, n).Some?
    ensures Summaries(news, keys, ask, k).Some?
    ensures StartsWith(Summaries(news, keys, ask, n).value, Summaries(news, keys, ask, k).value)
    decreases n
  {
    if k < n {
      SummariesPrefix(news, keys, ask, k, n - 1);
    }
  }

  /** A text holding one character that is not white space does not strip to nothing. */
  lemma NotBlank(s: string, k: nat)
    requires k < |s| && !IsSpace(s[k])
    ensures Strip(s) != ""
  {
    StripSpec(s);
  }

  /**
   * A run with enough articles and no KeyError gathers text that starts with
   * the header of batch 1, followed by that batch's reply or failure note,
   * and that text is always saved as the PDF.
   */
  lemma FinishedRunSavesPdf(news: seq<News>, keys: seq<string>, ask: (string, string) -> Option<string>)
    requires keys != [] && |news| >= MinTitles
    requires Run(news, keys, ask).Finished?
    ensures var r := Run(news, keys, ask);
      && FormatTitles(Batch(news, 0)).Some?
      && StartsWith(r.summaries, Section(0, ask(FormatTitles(Batch(news, 0)).value, keys[0])))
      && r.pdfSaved
  {
    var n := NumBatches(|news|);
    BatchSizes(news, 0);
    assert Summaries(news, keys, ask, n).Some?;
    SummariesPrefix(news, keys, ask, 1, n);
    FirstSection(news, keys, ask);
    var first := Section(0, ask(FormatTitles(Batch(news, 0)).value, keys[0]));
    SectionMarked(0, ask(FormatTitles(Batch(news, 0)).value, keys[0]));
    MarkedNotBlank(Summaries(news, keys, ask, n).value, first);
  }

  /** When the first batch is processed without KeyError, the text after it is that batch's section. */
  lemma FirstSection(news: seq<News>, keys: seq<string>, ask: (string, string) -> Option<string>)
    requires keys != [] && 0 < NumBatches(|news|) && |Batch(news, 0)| >= MinTitles
    requires Summaries(news, keys, ask, 1).Some?
    ensures FormatTitles(Batch(news, 0)).Some?
    ensures Summaries(news, keys, ask, 1) == Some(Section(0, ask(FormatTitles(Batch(news, 0)).value, keys[0])))
  {
    var first := Section(0, ask(FormatTitles(Batch(news, 0)).value, keys[0]));
    assert "" + first == first;
  }

  /** A text that starts with a section is not blank. */
  lemma MarkedNotBlank(s: string, first: string)
    requires StartsWith(s, first) && |first| > 2 && first[..3] == "\n\n="
    ensures Strip(s) != ""
  {
    assert s[2] == s[..|first|][2] == first[..3][2];
    NotBlank(s, 2);
  }

  /** Every section starts with two newlines and then `=`. */
  lemma SectionMarked(i: nat, reply: Option<string>)
    ensures |Section(i, reply)| > 2 && Section(i, reply)[..3] == "\n\n="
  {
  }

  /**
   * The loop of `main` over the batches: skipped batches add nothing, each
   * other batch formats its titles, takes its key in turn and adds its
   * section; the text is saved when it is not blank.
   */
  method SummarizeBatches(news: seq<News>, keys: seq<string>, ask: (string, string) -> Option<string>) returns (run: TitleRun)
    requires keys != []
    ensures run == Run(news, keys, ask)
  {
    var total := |news|;
    if total < MinTitles {
      return NotEnough;
    }
    var allSummaries := "";
    var numBatches := (total + BatchSize - 1) / BatchSize;
    var i := 0;
    while i < numBatches
      invariant i <= numBatches == NumBatches(total)
      invariant Summaries(news, keys, ask, i) == Some(allSummaries)
    {
      var start := i * BatchSize;
      var end := if (i + 1) * BatchSize < total then (i + 1) * BatchSize else total;
      var titleBatch := news[start..end];
      assert titleBatch == Batch(news, i);
      if |titleBatch| < MinTitles {
        i := i + 1;
        continue;
      }
      var apiKey := keys[i % |keys|];
      var titles := FormatTitles(titleBatch);
      if titles.None? {
        SummariesFailed(news, keys, ask, i + 1, numBatches);
        return KeyErrorRaised;
      }
      var summary := ask(titles.value, apiKey);
      allSummaries := allSummaries + Section(i, summary);
      i := i + 1;
    }
    run := Finished(allSummaries, Strip(allSummaries) != "");
  }
}
