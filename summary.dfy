/**
 * The plain-text summaries the feeds write with `save_text_summary`.
 *
 * A summary file is a sequence of lines, each written by one `f.write` call
 * ending in a newline: a preamble (a title line, a 60-character rule, a blank
 * line), then one block of lines per record, or a fixed sentence when there
 * are no records. A record block is a fixed list of line templates filled from
 * the record with `item[key]`. That lookup raises when the key is absent or
 * the element is not an object; the exception escapes the loop, the `with`
 * block closes the file, and what was written so far stays on disk.
 * `Written` captures that: the lines on disk and whether writing finished.
 */
module Summary {
  import opened Wrappers
  import opened Json

  const RuleWidth: nat := 60

  /** `c * 60`. */
  function Rule(c: char): (r: string)
    ensures |r| == RuleWidth
    ensures forall i :: 0 <= i < |r| ==> r[i] == c
  {
    seq(RuleWidth, _ => c)
  }

  /** One line of a record block. */
  datatype Template =
      /** A line that does not depend on the record (a rule, a blank line). */
    | Fixed(text: string)
      /** `f"{head}{item[key]}{suffix}"`. */
    | Line(head: string, key: string, suffix: string)
      /** `f"{head}{item[key1]}{mid}{item[key2]}{suffix}"`. */
    | Pair(head: string, key1: string, mid: string, key2: string, suffix: string)

  /** `item[key]`: None when it raises (KeyError, or TypeError on an element that is not an object). */
  function Lookup(e: Entry, key: string): (v: Option<string>)
    ensures v.Some? <==> e.Object? && key in e.fields
  {
    if e.Object? && key in e.fields then Some(e.fields[key]) else None
  }

  /** The text of one line for one element, or None when building it raises. */
  function Fill(t: Template, e: Entry): Option<string> {
    match t
    case Fixed(s) => Some(s)
    case Line(head, key, suffix) =>
      (match Lookup(e, key)
       case None => None
       case Some(v) => Some(head + v + suffix))
    case Pair(head, key1, mid, key2, suffix) =>
      (match Lookup(e, key1)
       case None => None
       case Some(v1) =>
         match Lookup(e, key2)
         case None => None
         case Some(v2) => Some(head + v1 + mid + v2 + suffix))
  }

  /** The keys a template reads. */
  function KeysOf(t: Template): set<string> {
    match t
    case Fixed(_) => {}
    case Line(_, key, _) => {key}
    case Pair(_, key1, _, key2, _) => {key1, key2}
  }

  /** A line without suffix, for an object holding its key, is the head followed by the value. */
  lemma FillPlain(head: string, key: string, fields: Item)
    requires key in fields
    ensures Fill(Line(head, key, ""), Object(fields)) == Some(head + Get(fields, key))
  {
    assert head + fields[key] + "" == head + fields[key];
  }

  /** Lines on disk after writing, and whether writing ran to the end. */
  datatype Written = Written(lines: seq<string>, complete: bool)

  /**
   * Writing the lines of one block for one element: the lines up to the first
   * one that raises.
   */
  function Render(ts: seq<Template>, e: Entry): (w: Written)
    ensures |w.lines| <= |ts|
    ensures w.complete ==> |w.lines| == |ts|
    ensures w.complete <==> forall j :: 0 <= j < |ts| ==> Fill(ts[j], e).Some?
    ensures forall j :: 0 <= j < |w.lines| ==> Fill(ts[j], e) == Some(w.lines[j])
    ensures !w.complete ==> Fill(ts[|w.lines|], e).None?
  {
    if ts == [] then Written([], true)
    else
      var w := Render(ts[..|ts| - 1], e);
      if !w.complete then w
      else match Fill(ts[|ts| - 1], e)
        case None => Written(w.lines, false)
        case Some(l) => Written(w.lines + [l], true)
  }

  /** Writing the blocks of all elements in turn; the first element whose block raises stops the writing. */
  function Body(items: seq<Entry>, block: seq<Template>): (w: Written) {
    if items == [] then Written([], true)
    else
      var w := Body(items[..|items| - 1], block);
      if !w.complete then w
      else
        var r := Render(block, items[|items| - 1]);
        Written(w.lines + r.lines, r.complete)
  }

  /** Every line of a block can be built for an element: it is an object holding every key the block reads. */
  predicate Fits(block: seq<Template>, e: Entry) {
    forall j :: 0 <= j < |block| ==> Fill(block[j], e).Some?
  }

  lemma {:induction false} FitsByKeys(block: seq<Template>, e: Entry)
    requires e.Object? && forall j :: 0 <= j < |block| ==> KeysOf(block[j]) <= e.fields.Keys
    ensures Fits(block, e)
  {
    forall j | 0 <= j < |block| ensures Fill(block[j], e).Some? {
      match block[j]
      case Fixed(_) =>
      case Line(_, key, _) => assert key in KeysOf(block[j]);
      case Pair(_, key1, _, key2, _) => assert key1 in KeysOf(block[j]) && key2 in KeysOf(block[j]);
    }
  }

  /** When every element fits, writing completes with one full block per element. */
  lemma {:induction false} BodyComplete(items: seq<Entry>, block: seq<Template>)
    requires forall i :: 0 <= i < |items| ==> Fits(block, items[i])
    ensures Body(items, block).complete
    ensures |Body(items, block).lines| == |items| * |block|
  {
    if items != [] {
      var n := |items| - 1;
      BodyComplete(items[..n], block);
      assert (n + 1) * |block| == n * |block| + |block|;
    }
  }

  /** When every element fits, line `i * |block| + j` of the file body is line `j` of the block of element `i`. */
  lemma {:induction false} BodyLine(items: seq<Entry>, block: seq<Template>, i: nat, j: nat)
    requires forall k :: 0 <= k < |items| ==> Fits(block, items[k])
    requires i < |items| && j < |block|
    ensures i * |block| + j < |Body(items, block).lines|
    ensures Fill(block[j], items[i]) == Some(Body(items, block).lines[i * |block| + j])
  {
    var n := |items| - 1;
    var b := |block|;
    BodyComplete(items, block);
    MulBelow(i, j, |items|, b);
    var init := items[..n];
    BodyComplete(init, block);
    assert |Body(init, block).lines| == n * b;
    if i < n {
      assert init[i] == items[i];
      BodyLine(init, block, i, j);
      MulBelow(i, j, n, b);
    } else {
      assert i * b + j == n * b + j;
    }
  }

  lemma MulBelow(i: nat, j: nat, n: nat, b: nat)
    requires i < n && j < b
    ensures i * b + j < n * b
  {
    assert (i + 1) * b <= n * b by {
      assert n * b == (i + 1) * b + (n - i - 1) * b;
    }
  }

  /**
   * When some element does not fit, writing stops inside the block of the
   * first such element: the file holds the full blocks of the elements
   * before it and the lines of its block up to the one that raised.
   */
  lemma {:induction false} BodyStops(items: seq<Entry>, block: seq<Template>, k: nat)
    requires k < |items| && !Fits(block, items[k])
    requires forall i :: 0 <= i < k ==> Fits(block, items[i])
    ensures !Body(items, block).complete
    ensures Body(items, block).lines == Body(items[..k], block).lines + Render(block, items[k]).lines
  {
    var n := |items| - 1;
    if k == n {
      BodyComplete(items[..k], block);
    } else {
      assert items[..n][..k] == items[..k] && items[..n][k] == items[k];
      BodyStops(items[..n], block, k);
    }
  }

  /** The file stops inside the block of the first element that does not fit, after the full blocks before it. */
  lemma DocumentStops(preamble: seq<string>, empty: seq<string>, block: seq<Template>, items: seq<Entry>, k: nat)
    requires k < |items| && !Fits(block, items[k])
    requires forall i :: 0 <= i < k ==> Fits(block, items[i])
    ensures var w := Document(preamble, empty, block, items);
      !w.complete && |w.lines| < |preamble| + |block| * (k + 1)
      && w.lines == preamble + Body(items[..k], block).lines + Render(block, items[k]).lines
  {
    BodyStops(items, block, k);
    forall i | 0 <= i < k ensures Fits(block, items[..k][i]) {
      assert items[..k][i] == items[i];
    }
    BodyComplete(items[..k], block);
    assert |block| * (k + 1) == k * |block| + |block|;
  }

  /**
   * The whole file: the preamble, then the blocks of the elements, or the
   * `empty` lines when there are none.
   */
  function Document(preamble: seq<string>, empty: seq<string>, block: seq<Template>, items: seq<Entry>): Written {
    if items == [] then Written(preamble + empty, true)
    else
      var b := Body(items, block);
      Written(preamble + b.lines, b.complete)
  }

  /** A sequence of records seen as JSON objects. */
  function Objects(rs: seq<map<string, string>>): (es: seq<Entry>)
    ensures |es| == |rs|
    ensures forall i :: 0 <= i < |rs| ==> es[i] == Object(rs[i])
  {
    seq(|rs|, i requires 0 <= i < |rs| => Object(rs[i]))
  }

  /** The dictionaries a script appends, one per entry, `asItem` building each. */
  function ItemsOf<E>(es: seq<E>, asItem: E -> map<string, string>): (items: seq<map<string, string>>)
    ensures |items| == |es|
    ensures forall i :: 0 <= i < |es| ==> items[i] == asItem(es[i])
  {
    seq(|es|, i requires 0 <= i < |es| => asItem(es[i]))
  }

  /**
   * Records that carry every key the block reads are written in full: the
   * preamble, then line `j` of block `i` at position `|preamble| + i * |block| + j`.
   */
  lemma DocumentOfRecords(preamble: seq<string>, empty: seq<string>, block: seq<Template>, rs: seq<map<string, string>>)
    requires |rs| > 0
    requires forall i, j :: 0 <= i < |rs| && 0 <= j < |block| ==> KeysOf(block[j]) <= rs[i].Keys
    ensures Document(preamble, empty, block, Objects(rs)).complete
    ensures Document(preamble, empty, block, Objects(rs)).lines[..|preamble|] == preamble
    ensures |Document(preamble, empty, block, Objects(rs)).lines| == |preamble| + |rs| * |block|
  {
    RecordsFit(block, rs);
    BodyComplete(Objects(rs), block);
  }

  /** In the file of such records, line `j` of the block of record `i`. */
  lemma DocumentLine(preamble: seq<string>, empty: seq<string>, block: seq<Template>, rs: seq<map<string, string>>, i: nat, j: nat)
    requires forall i, j :: 0 <= i < |rs| && 0 <= j < |block| ==> KeysOf(block[j]) <= rs[i].Keys
    requires i < |rs| && j < |block|
    ensures |preamble| + i * |block| + j < |Document(preamble, empty, block, Objects(rs)).lines|
    ensures Fill(block[j], Object(rs[i])) == Some(Document(preamble, empty, block, Objects(rs)).lines[|preamble| + i * |block| + j])
  {
    RecordsFit(block, rs);
    BodyLine(Objects(rs), block, i, j);
  }

  /** When record `i` renders line by line as `card`, its whole block in the file is `card`. */
  lemma DocumentBlock(preamble: seq<string>, empty: seq<string>, block: seq<Template>, rs: seq<map<string, string>>, i: nat, card: seq<string>)
    requires forall i, j :: 0 <= i < |rs| && 0 <= j < |block| ==> KeysOf(block[j]) <= rs[i].Keys
    requires i < |rs| && |card| == |block|
    requires forall j :: 0 <= j < |block| ==> Fill(block[j], Object(rs[i])) == Some(card[j])
    ensures var lines, b := Document(preamble, empty, block, Objects(rs)).lines, |preamble| + i * |block|;
      b + |block| <= |lines| && lines[b..b + |block|] == card
  {
    var lines, b := Document(preamble, empty, block, Objects(rs)).lines, |preamble| + i * |block|;
    DocumentOfRecords(preamble, empty, block, rs);
    BlockBelow(i, |rs|, |block|);
    var slice := lines[b..b + |block|];
    forall j | 0 <= j < |block| ensures slice[j] == card[j] {
      DocumentLine(preamble, empty, block, rs, i, j);
    }
  }

  lemma BlockBelow(i: nat, n: nat, b: nat)
    requires i < n
    ensures i * b + b <= n * b
  {
    var d: nat := n - i - 1;
    assert n * b == i * b + b + d * b;
  }

  lemma RecordsFit(block: seq<Template>, rs: seq<map<string, string>>)
    requires forall i, j :: 0 <= i < |rs| && 0 <= j < |block| ==> KeysOf(block[j]) <= rs[i].Keys
    ensures forall i :: 0 <= i < |rs| ==> Fits(block, Objects(rs)[i])
  {
    forall i | 0 <= i < |rs| ensures Fits(block, Objects(rs)[i]) {
      FitsByKeys(block, Objects(rs)[i]);
    }
  }

  /** The file's text: every line followed by a newline. */
  function Unlines(lines: seq<string>): (s: string)
    ensures |s| >= |lines|
  {
    if lines == [] then "" else Unlines(lines[..|lines| - 1]) + lines[|lines| - 1] + "\n"
  }

  /** Writing more lines only extends the text already written. */
  lemma {:induction false} UnlinesAppend(a: seq<string>, b: seq<string>)
    ensures Unlines(a + b) == Unlines(a) + Unlines(b)
  {
    if b == [] {
      assert a + b == a;
    } else {
      var b' := b[..|b| - 1];
      assert (a + b)[..|a + b| - 1] == a + b';
      assert (a + b)[|a + b| - 1] == b[|b| - 1];
      UnlinesAppend(a, b');
    }
  }

  /** The writes of one record block, stopping at the first line that raises. */
  method WriteBlock(block: seq<Template>, item: Entry) returns (w: Written)
    ensures w == Render(block, item)
  {
    var lines := [];
    var j := 0;
    while j < |block|
      invariant j <= |block|
      invariant Render(block[..j], item) == Written(lines, true)
    {
      assert block[..j + 1][..j] == block[..j] && block[..j + 1][j] == block[j];
      var line := Fill(block[j], item);
      if line.None? {
        RenderStops(block, item, j);
        return Written(lines, false);
      }
      lines := lines + [line.value];
      j := j + 1;
    }
    assert block[..j] == block;
    w := Written(lines, true);
  }

  /**
   * `save_text_summary`: write the preamble, then for each element its block
   * (or the `empty` lines when there are no elements), stopping at the first
   * line that raises.
   */
  method WriteDocument(preamble: seq<string>, empty: seq<string>, block: seq<Template>, items: seq<Entry>) returns (w: Written)
    ensures w == Document(preamble, empty, block, items)
  {
    var lines := preamble;
    if |items| == 0 {
      return Written(lines + empty, true);
    }
    var i := 0;
    while i < |items|
      invariant i <= |items|
      invariant Body(items[..i], block).complete
      invariant lines == preamble + Body(items[..i], block).lines
    {
      var r := WriteBlock(block, items[i]);
      BodyNext(items, block, i);
      assert lines + r.lines == preamble + (Body(items[..i], block).lines + r.lines);
      lines := lines + r.lines;
      if !r.complete {
        BodyStopsAt(items, block, i);
        return Written(lines, false);
      }
      i := i + 1;
    }
    assert items[..i] == items;
    w := Written(lines, true);
  }

  /** One more element after a completed body adds its block. */
  lemma BodyNext(items: seq<Entry>, block: seq<Template>, i: nat)
    requires i < |items| && Body(items[..i], block).complete
    ensures Body(items[..i + 1], block) == Written(Body(items[..i], block).lines + Render(block, items[i]).lines, Render(block, items[i]).complete)
  {
    assert items[..i + 1][..i] == items[..i] && items[..i + 1][i] == items[i];
  }

  /** The first element whose block raises ends the whole body there. */
  lemma BodyStopsAt(items: seq<Entry>, block: seq<Template>, i: nat)
    requires i < |items| && Body(items[..i], block).complete && !Render(block, items[i]).complete
    ensures Body(items, block) == Written(Body(items[..i], block).lines + Render(block, items[i]).lines, false)
  {
    forall k | 0 <= k < i ensures Fits(block, items[k]) {
      BodyFits(items[..i], block, k);
      assert items[..i][k] == items[k];
    }
    BodyStops(items, block, i);
  }

  /** Rendering stops at the first template that raises. */
  lemma {:induction false} RenderStops(ts: seq<Template>, e: Entry, j: nat)
    requires j < |ts| && Fill(ts[j], e).None? && Render(ts[..j], e).complete
    ensures Render(ts, e) == Written(Render(ts[..j], e).lines, false)
  {
    var n := |ts| - 1;
    if j < n {
      assert ts[..n][..j] == ts[..j] && ts[..n][j] == ts[j];
      RenderStops(ts[..n], e, j);
    } else {
      assert ts[..j] == ts[..n];
    }
  }

  /** A completed body fitted every element. */
  lemma {:induction false} BodyFits(items: seq<Entry>, block: seq<Template>, k: nat)
    requires Body(items, block).complete && k < |items|
    ensures Fits(block, items[k])
  {
    var n := |items| - 1;
    if k < n {
      assert items[..n][k] == items[k];
      BodyFits(items[..n], block, k);
    }
  }
}
