/**
 * The text Python's `csv.writer` produces with the `excel` dialect and
 * `QUOTE_MINIMAL`: fields separated by `,`, records ended by `\r\n`, and a
 * field put between double quotes (its own quotes doubled) only when it holds
 * a comma, a quote, a carriage return or a line feed. This is the format of
 * section 2 of RFC 4180; `Parse` reads it back.
 */
module Csv {
  import opened Wrappers

  const Terminator := "\r\n"

  /** The characters that force a field into quotes: the delimiter, the quote and those of the terminator. */
  predicate Special(c: char) {
    c == ',' || c == '"' || c == '\r' || c == '\n'
  }

  predicate NeedsQuotes(f: string) {
    exists i :: 0 <= i < |f| && Special(f[i])
  }

  /** One character inside quotes: a double quote is doubled, any other character stands for itself. */
  function QuoteChar(c: char): string {
    if c == '"' then "\"\"" else [c]
  }

  /** The field with every double quote doubled. */
  function Escape(f: string): (e: string)
    ensures |e| >= |f|
  {
    if f == [] then [] else QuoteChar(f[0]) + Escape(f[1..])
  }

  /** One field as `QUOTE_MINIMAL` writes it. */
  function Encode(f: string): string {
    if NeedsQuotes(f) then "\"" + (Escape(f) + "\"") else f
  }

  /** The encoded fields of a record, separated by commas. */
  function Fields(row: seq<string>): string {
    if row == [] then ""
    else if |row| == 1 then Encode(row[0])
    else Encode(row[0]) + ("," + Fields(row[1..]))
  }

  /**
   * `writer.writerow(row)` without its terminator. A record of one empty
   * field is written as `""`, so that it does not read as an empty line; a
   * record of no field is written as an empty line.
   */
  function Record(row: seq<string>): string {
    if row == [""] then "\"\"" else Fields(row)
  }

  /** The text of a sequence of `writerow` calls. */
  function Lines(rows: seq<seq<string>>): string {
    if rows == [] then "" else Record(rows[0]) + (Terminator + Lines(rows[1..]))
  }

  lemma {:induction false} LinesAppend(rows: seq<seq<string>>, row: seq<string>)
    ensures Lines(rows + [row]) == Lines(rows) + (Record(row) + Terminator)
  {
    var last := Record(row) + Terminator;
    if rows != [] {
      var tail := rows[1..];
      assert (rows + [row])[0] == rows[0] && (rows + [row])[1..] == tail + [row];
      LinesAppend(tail, row);
      Associative(Terminator, Lines(tail), last);
      Associative(Record(rows[0]), Terminator + Lines(tail), last);
    } else {
      assert [row][1..] == [];
      assert Lines([]) + last == last;
      assert Terminator + "" == Terminator;
    }
  }

  /** Concatenation of texts is associative. */
  lemma Associative(a: string, b: string, c: string)
    ensures (a + b) + c == a + (b + c)
  {
  }

  /** A field quoted with `QUOTE_MINIMAL` is left as it is exactly when it needs no quotes. */
  lemma EncodeMinimal(f: string)
    ensures Encode(f) == f <==> !NeedsQuotes(f)
  {
    if NeedsQuotes(f) {
      assert |Encode(f)| >= |f| + 2;
    }
  }

  // Reading

  /** A field read from the front of a text, and the text after it. */
  datatype Scanned = Scanned(text: string, rest: string)

  /** The length of an unquoted field: up to the first `,`, `\r` or `\n`. */
  function PlainLength(s: string): (n: nat)
    ensures n <= |s|
    ensures forall i :: 0 <= i < n ==> s[i] != ',' && s[i] != '\r' && s[i] != '\n'
    ensures n < |s| ==> s[n] == ',' || s[n] == '\r' || s[n] == '\n'
  {
    if s == [] || s[0] == ',' || s[0] == '\r' || s[0] == '\n' then 0 else 1 + PlainLength(s[1..])
  }

  /** The inside of a quoted field, read after its opening quote up to its closing one; None when it is not closed. */
  function QuotedBody(s: string): (r: Option<Scanned>)
    ensures r.Some? ==> |r.value.rest| < |s|
  {
    if s == [] then None
    else if s[0] == '"' then
      if |s| >= 2 && s[1] == '"' then
        match QuotedBody(s[2..])
        case None => None
        case Some(b) => Some(Scanned("\"" + b.text, b.rest))
      else Some(Scanned("", s[1..]))
    else
      match QuotedBody(s[1..])
      case None => None
      case Some(b) => Some(Scanned([s[0]] + b.text, b.rest))
  }

  function ReadField(s: string): (r: Option<Scanned>)
    ensures r.Some? ==> |r.value.rest| <= |s|
  {
    if s != [] && s[0] == '"' then QuotedBody(s[1..])
    else Some(Scanned(s[..PlainLength(s)], s[PlainLength(s)..]))
  }

  /** The fields of one record and the text after its terminator; None when the text is not CSV. */
  function ReadRecord(s: string): (r: Option<(seq<string>, string)>)
    ensures r.Some? ==> |r.value.1| < |s| || (s == [] && r.value.1 == [])
    decreases |s|
  {
    match ReadField(s)
    case None => None
    case Some(f) =>
      if f.rest == [] then Some(([f.text], []))
      else if f.rest[0] == ',' then
        match ReadRecord(f.rest[1..])
        case None => None
        case Some(more) => Some(([f.text] + more.0, more.1))
      else if |f.rest| >= 2 && f.rest[..2] == Terminator then Some(([f.text], f.rest[2..]))
      else None
  }

  /** The records of a CSV text, each ended by `\r\n` or by the end of the text. */
  function Parse(s: string): Option<seq<seq<string>>>
    decreases |s|
  {
    if s == [] then Some([])
    else
      match ReadRecord(s)
      case None => None
      case Some(r) =>
        match Parse(r.1)
        case None => None
        case Some(rows) => Some([r.0] + rows)
  }

  /** The inside of a quoted field is read back to the field, whatever follows the closing quote. */
  lemma {:induction false} QuotedBodyOfEscape(f: string, t: string)
    requires t == [] || t[0] != '"'
    ensures QuotedBody(Escape(f) + ("\"" + t)) == Some(Scanned(f, t))
  {
    if f == [] {
      ClosingQuote(t);
      assert Escape(f) + ("\"" + t) == "\"" + t;
    } else {
      QuotedBodyOfEscape(f[1..], t);
      EscapeStep(f, "\"" + t, t);
    }
  }

  /** A quote that is not doubled closes the field. */
  lemma ClosingQuote(t: string)
    requires t == [] || t[0] != '"'
    ensures QuotedBody("\"" + t) == Some(Scanned("", t))
  {
    assert ("\"" + t)[1..] == t;
  }

  /** One more character of the field, in front of an inside already read back. */
  lemma EscapeStep(f: string, w: string, t: string)
    requires f != []
    requires QuotedBody(Escape(f[1..]) + w) == Some(Scanned(f[1..], t))
    ensures QuotedBody(Escape(f) + w) == Some(Scanned(f, t))
  {
    var u := Escape(f[1..]) + w;
    Associative(QuoteChar(f[0]), Escape(f[1..]), w);
    assert Escape(f) + w == QuoteChar(f[0]) + u;
    if f[0] == '"' {
      QuotedPair(u);
      assert "\"" + f[1..] == f;
    } else {
      QuotedChar(f[0], u);
      assert [f[0]] + f[1..] == f;
    }
  }

  /** A doubled quote inside a quoted field stands for one quote. */
  lemma QuotedPair(u: string)
    ensures QuotedBody(u).Some? ==> QuotedBody("\"\"" + u) == Some(Scanned("\"" + QuotedBody(u).value.text, QuotedBody(u).value.rest))
  {
    assert ("\"\"" + u)[2..] == u;
  }

  /** Any other character inside a quoted field stands for itself. */
  lemma QuotedChar(c: char, u: string)
    requires c != '"'
    ensures QuotedBody(u).Some? ==> QuotedBody([c] + u) == Some(Scanned([c] + QuotedBody(u).value.text, QuotedBody(u).value.rest))
  {
    assert ([c] + u)[1..] == u;
  }

  /** An unquoted field is read up to the separator or terminator after it. */
  lemma {:induction false} PlainLengthOf(f: string, t: string)
    requires !NeedsQuotes(f)
    requires t == [] || t[0] == ',' || t[0] == '\r'
    ensures PlainLength(f + t) == |f|
  {
    if f != [] {
      assert !NeedsQuotes(f[1..]) by {
        forall i | 0 <= i < |f[1..]| ensures !Special(f[1..][i]) {
          assert f[1..][i] == f[i + 1];
        }
      }
      assert (f + t)[1..] == f[1..] + t;
      assert !Special(f[0]);
      PlainLengthOf(f[1..], t);
    }
  }

  /** Any encoded field is read back, up to the separator or terminator after it. */
  lemma FieldRoundTrip(f: string, t: string)
    requires t == [] || t[0] == ',' || t[0] == '\r'
    ensures ReadField(Encode(f) + t) == Some(Scanned(f, t))
  {
    if NeedsQuotes(f) {
      QuotedFieldRoundTrip(f, t);
    } else {
      PlainFieldRoundTrip(f, t);
    }
  }

  lemma QuotedFieldRoundTrip(f: string, t: string)
    requires NeedsQuotes(f)
    requires t == [] || t[0] == ',' || t[0] == '\r'
    ensures ReadField(Encode(f) + t) == Some(Scanned(f, t))
  {
    var inside := Escape(f) + ("\"" + t);
    Associative(Escape(f), "\"", t);
    Associative("\"", Escape(f) + "\"", t);
    assert Encode(f) + t == "\"" + inside;
    assert ("\"" + inside)[1..] == inside;
    QuotedBodyOfEscape(f, t);
  }

  lemma PlainFieldRoundTrip(f: string, t: string)
    requires !NeedsQuotes(f)
    requires t == [] || t[0] == ',' || t[0] == '\r'
    ensures ReadField(Encode(f) + t) == Some(Scanned(f, t))
  {
    PlainLengthOf(f, t);
    var s := f + t;
    assert Encode(f) == f;
    assert s[..|f|] == f && s[|f|..] == t;
    if f != [] {
      assert !Special(f[0]);
    }
  }

  /** The fields of a record are read back, and reading stops after its terminator. */
  lemma {:induction false} FieldsRoundTrip(row: seq<string>, t: string)
    requires row != []
    ensures ReadRecord(Fields(row) + (Terminator + t)) == Some((row, t))
  {
    if |row| == 1 {
      assert [row[0]] == row;
      LastFieldRoundTrip(row[0], t);
    } else {
      var after := Fields(row[1..]) + (Terminator + t);
      Associative(",", Fields(row[1..]), Terminator + t);
      Associative(Encode(row[0]), "," + Fields(row[1..]), Terminator + t);
      FieldsRoundTrip(row[1..], t);
      NextFieldRoundTrip(row[0], after, row[1..], t);
      assert [row[0]] + row[1..] == row;
    }
  }

  /** The last field of a record is read back, and reading stops after the terminator. */
  lemma LastFieldRoundTrip(f: string, t: string)
    ensures ReadRecord(Encode(f) + (Terminator + t)) == Some(([f], t))
  {
    FieldRoundTrip(f, Terminator + t);
    TerminatorThen(t);
  }

  /** The terminator in front of a text. */
  lemma TerminatorThen(t: string)
    ensures (Terminator + t)[0] == '\r' && (Terminator + t)[..2] == Terminator && (Terminator + t)[2..] == t
  {
  }

  /** A field followed by a comma is read back, then the record goes on. */
  lemma NextFieldRoundTrip(f: string, after: string, row: seq<string>, t: string)
    requires ReadRecord(after) == Some((row, t))
    ensures ReadRecord(Encode(f) + ("," + after)) == Some(([f] + row, t))
  {
    FieldRoundTrip(f, "," + after);
    assert ("," + after)[1..] == after;
  }

  /** A record is read back, and reading stops after its terminator. */
  lemma RecordRoundTrip(row: seq<string>, t: string)
    requires row != []
    ensures ReadRecord(Record(row) + (Terminator + t)) == Some((row, t))
  {
    if row == [""] {
      var s := Record(row) + (Terminator + t);
      assert s[0] == '"' && s[1..] == "\"" + (Terminator + t);
      ClosingQuote(Terminator + t);
      TerminatorThen(t);
    } else {
      FieldsRoundTrip(row, t);
    }
  }

  /** What `writerow` writes, record after record, is read back to the same records. */
  lemma {:induction false} ParseLines(rows: seq<seq<string>>)
    requires forall i :: 0 <= i < |rows| ==> rows[i] != []
    ensures Parse(Lines(rows)) == Some(rows)
  {
    if rows != [] {
      var tail := rows[1..];
      LinesFront(rows);
      ParseLines(tail);
      ParseStep(Lines(rows), rows[0], Lines(tail), tail);
      assert [rows[0]] + tail == rows;
    }
  }

  /** The first record of the text is read back, followed by the text of the others. */
  lemma LinesFront(rows: seq<seq<string>>)
    requires rows != [] && forall i :: 0 <= i < |rows| ==> rows[i] != []
    ensures Lines(rows) != [] && ReadRecord(Lines(rows)) == Some((rows[0], Lines(rows[1..])))
    ensures forall i :: 0 <= i < |rows[1..]| ==> rows[1..][i] != []
  {
    RecordRoundTrip(rows[0], Lines(rows[1..]));
    forall i | 0 <= i < |rows[1..]| ensures rows[1..][i] != [] {
      assert rows[1..][i] == rows[i + 1];
    }
  }

  /** A text made of one record and the records read from the rest. */
  lemma ParseStep(s: string, row: seq<string>, t: string, rows: seq<seq<string>>)
    requires s != [] && ReadRecord(s) == Some((row, t)) && Parse(t) == Some(rows)
    ensures Parse(s) == Some([row] + rows)
  {
  }
}
