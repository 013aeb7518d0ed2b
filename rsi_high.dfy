/**
 * `rsi_high.py`: the stocks of a TradingView screener scan written as a CSV
 * attachment, and the e-mail `main` sends for each outcome of the scan. The
 * HTTP request is left out: the model starts from the decoded response.
 */
module RsiHigh {
  import opened Wrappers
  import opened Text
  import opened Csv

  /**
   * The RSI bound of the scan's query (RSI greater than 82) and the bound the
   * e-mail bodies announce (RSI below 30). The two are kept as they are: the
   * bodies do not describe the query, and the no-stocks message puts the
   * query's bound after a `<`.
   */
  const QueryRsiAbove := 82
  const AnnouncedRsiBelow := 30

  /**
   * One entry of the response's `data` list: its `s` member when present, and
   * its `d` list when present, each value as the text the CSV writer gives it.
   */
  datatype Stock = Stock(s: Option<string>, d: Option<seq<string>>)

  /** The decoded response of a scan that answered with status 200; `data` is None when the key is missing. */
  datatype Response = Response(data: Option<seq<Stock>>)

  const Header: seq<string> := ["Symbol", "Company Name", "Close", "RSI", "Sector", "Market Cap", "Currency", "P/E Ratio"]

  /** The placeholder written in the RSI column of every stock. */
  const RsiPlaceholder := "higher 80"

  /** Position `k` of `d` when `d` is long enough, else the empty text. */
  function Column(d: seq<string>, k: nat): string {
    if |d| > k then d[k] else ""
  }

  /** The row of one stock: its symbol, positions 1, 6, 21, 15, 11 and 17 of `d`, and the placeholder as the RSI. */
  function RowOf(stock: Stock): (row: seq<string>)
    ensures |row| == |Header|
  {
    var d := stock.d.GetOr([]);
    [stock.s.GetOr(""), Column(d, 1), Column(d, 6), RsiPlaceholder, Column(d, 21), Column(d, 15), Column(d, 11), Column(d, 17)]
  }

  /** The header and then one row per stock, in the order of the stocks. */
  function Table(stocks: seq<Stock>): (rows: seq<seq<string>>)
    ensures |rows| == |stocks| + 1 && rows[0] == Header
    ensures forall i :: 0 <= i < |stocks| ==> rows[i + 1] == RowOf(stocks[i])
    ensures forall i :: 0 <= i < |rows| ==> |rows[i]| == |Header|
  {
    [Header] + seq(|stocks|, i requires 0 <= i < |stocks| => RowOf(stocks[i]))
  }

  /** The text `stocks_to_csv` returns. */
  function CsvText(stocks: seq<Stock>): string {
    Lines(Table(stocks))
  }

  lemma TableAppend(stocks: seq<Stock>, stock: Stock)
    ensures Table(stocks + [stock]) == Table(stocks) + [RowOf(stock)]
  {
  }

  /** One more stock adds its record, and its terminator, at the end of the text. */
  lemma CsvTextAppend(stocks: seq<Stock>, stock: Stock)
    ensures CsvText(stocks + [stock]) == CsvText(stocks) + (Record(RowOf(stock)) + Terminator)
  {
    TableAppend(stocks, stock);
    LinesAppend(Table(stocks), RowOf(stock));
  }

  lemma CsvTextNext(stocks: seq<Stock>, i: nat)
    requires i < |stocks|
    ensures CsvText(stocks[..i + 1]) == CsvText(stocks[..i]) + (Record(RowOf(stocks[i])) + Terminator)
  {
    assert stocks[..i + 1] == stocks[..i] + [stocks[i]];
    CsvTextAppend(stocks[..i], stocks[i]);
  }

  /** Without stocks, the text is the header record. */
  lemma CsvTextEmpty()
    ensures CsvText([]) == Record(Header) + Terminator
  {
    assert Table([]) == [Header];
    assert Lines([Header]) == Record(Header) + (Terminator + Lines([]));
    assert Terminator + "" == Terminator;
  }

  /** `stocks_to_csv`: the header, then one `writerow` per stock. */
  method StocksToCsv(stocks: seq<Stock>) returns (csv: string)
    ensures csv == CsvText(stocks)
  {
    csv := Record(Header) + Terminator;
    CsvTextEmpty();
    for i := 0 to |stocks|
      invariant csv == CsvText(stocks[..i])
    {
      var row := RowOf(stocks[i]);
      csv := csv + (Record(row) + Terminator);
      CsvTextNext(stocks, i);
    }
    assert stocks[..|stocks|] == stocks;
  }

  /**
   * The CSV reads back, with `QUOTE_MINIMAL` quoting, to the header followed by
   * one record per stock in input order: the symbol (empty when missing), the
   * RSI placeholder, and each positional column taken from `d` only when `d`
   * is long enough.
   */
  lemma CsvReadsBack(stocks: seq<Stock>)
    ensures Parse(CsvText(stocks)).Some?
    ensures var rows := Parse(CsvText(stocks)).value;
      && |rows| == |stocks| + 1 && rows[0] == Header
      && forall i :: 0 <= i < |stocks| ==> RecordOfStock(rows[i + 1], stocks[i])
  {
    ParseLines(Table(stocks));
    forall i | 0 <= i < |stocks| ensures RecordOfStock(Table(stocks)[i + 1], stocks[i]) {
      RowColumns(stocks[i]);
    }
  }

  /** What a record of the CSV holds for a stock, column by column. */
  predicate RecordOfStock(record: seq<string>, stock: Stock) {
    var d := stock.d.GetOr([]);
    && |record| == |Header|
    && record[0] == stock.s.GetOr("")
    && record[3] == RsiPlaceholder
    && Picked(record[1], d, 1) && Picked(record[2], d, 6) && Picked(record[4], d, 21)
    && Picked(record[5], d, 15) && Picked(record[6], d, 11) && Picked(record[7], d, 17)
  }

  /** A column holds position `k` of `d` when there is one, and is empty otherwise. */
  predicate Picked(cell: string, d: seq<string>, k: nat) {
    (|d| > k ==> cell == d[k]) && (|d| <= k ==> cell == "")
  }

  lemma RowColumns(stock: Stock)
    ensures RecordOfStock(RowOf(stock), stock)
  {
  }

  // The e-mail

  datatype Attachment = Attachment(filename: string, content: string)
  datatype Email = Email(subject: string, body: Body, attachment: Option<Attachment>)

  /** The two ways `send_email` is called: with the CSV and the stock count, or with an error message. */
  datatype Request = Report(csv: string, count: nat) | Failure(message: string)

  const AttachmentName := "low_rsi_stocks.csv"
  const ScanFailed := "Scan failed or returned no data"
  const NoStocks := "No stocks with RSI < " + Show(QueryRsiAbove) + " found"
  /** `str(KeyError('s'))`, the error of a stock without `s`. */
  const MissingSymbol := "Fatal error: 's'"

  /** The plain-text part of the e-mail: what it reports, and `BodyText` for its words. */
  datatype Body = FailureNotice(message: string, date: string) | ReportNotice(count: nat, date: string)

  function BodyText(body: Body): string {
    match body
    case FailureNotice(message, date) =>
      "Dear Recipient,\n\nFailed to scan stocks for RSI < " + Show(AnnouncedRsiBelow) + " on " + date + ".\nError: " + message
      + "\n\nPlease check the logs for details.\n\nBest regards,\nAutomated Data Service\n"
    case ReportNotice(count, date) =>
      "Dear Recipient,\n\nAttached is the CSV file containing " + Show(count) + " stocks with RSI < " + Show(AnnouncedRsiBelow) + " for " + date
      + ".\nPlease review the attachment for details.\n\nBest regards,\nAutomated Data Service\n"
  }

  function ReportSubject(date: string): string {
    "high RSI Stocks Report - " + date
  }

  function ErrorSubject(date: string): string {
    "high RSI Stocks Report - Error - " + date
  }

  /** `send_email`: the message it builds, before the SMTP session (left out). */
  function SendEmail(request: Request, date: string): (e: Email)
    ensures e.attachment.Some? <==> request.Report? && request.count > 0
  {
    match request
    case Failure(message) =>
      Email(ErrorSubject(date), FailureNotice(message, date), None)
    case Report(csv, count) =>
      Email(ReportSubject(date), ReportNotice(count, date),
        if count > 0 then Some(Attachment(AttachmentName, csv)) else None)
  }

  /**
   * The request `main` ends with, the `__main__` handler included: the log
   * line listing `stock['s']` raises KeyError for a stock without `s`, and the
   * handler then sends the error e-mail.
   */
  function MainRequest(scan: Option<Response>): Request {
    if scan.Some? && scan.value.data.Some? then
      var stocks := scan.value.data.value;
      if stocks == [] then Failure(NoStocks)
      else if exists i :: 0 <= i < |stocks| && stocks[i].s.None? then Failure(MissingSymbol)
      else Report(CsvText(stocks), |stocks|)
    else Failure(ScanFailed)
  }

  /** The e-mail of one run; `date` is the current date written with `%Y-%m-%d`. */
  function Main(scan: Option<Response>, date: string): Email {
    SendEmail(MainRequest(scan), date)
  }

  lemma SubjectsDiffer(date: string)
    ensures ReportSubject(date) != ErrorSubject(date)
  {
    assert |ErrorSubject(date)| == |ReportSubject(date)| + 8;
  }

  /** The scan returned a non-empty `data` list whose every stock has `s`. */
  predicate Listed(scan: Option<Response>) {
    && scan.Some? && scan.value.data.Some? && scan.value.data.value != []
    && forall i :: 0 <= i < |scan.value.data.value| ==> scan.value.data.value[i].s.Some?
  }

  /**
   * A run whose scan listed stocks sends the report: the CSV of those stocks
   * as the attachment, which reads back to their rows, and their count in the
   * body.
   */
  lemma ListedIsReported(scan: Option<Response>, date: string)
    requires Listed(scan)
    ensures var stocks := scan.value.data.value;
      && Main(scan, date) == Email(ReportSubject(date), ReportNotice(|stocks|, date), Some(Attachment(AttachmentName, CsvText(stocks))))
      && Parse(CsvText(stocks)) == Some(Table(stocks))
  {
    var stocks := scan.value.data.value;
    assert MainRequest(scan) == Report(CsvText(stocks), |stocks|);
    ParseLines(Table(stocks));
  }

  /** Every other run sends the error subject and body, and no attachment. */
  lemma UnlistedIsError(scan: Option<Response>, date: string)
    requires !Listed(scan)
    ensures MainRequest(scan).Failure?
    ensures Main(scan, date) == Email(ErrorSubject(date), FailureNotice(MainRequest(scan).message, date), None)
  {
    assert MainRequest(scan).Failure?;
  }

  /** A run attaches the CSV exactly when the scan listed stocks, and its subject says Error exactly when it attaches nothing. */
  lemma MainOutcome(scan: Option<Response>, date: string)
    ensures Main(scan, date).attachment.Some? <==> Listed(scan)
    ensures Main(scan, date).attachment.None? <==> Main(scan, date).subject == ErrorSubject(date)
  {
    var e := Main(scan, date);
    if Listed(scan) {
      ListedIsReported(scan, date);
      SubjectsDiffer(date);
      assert e.subject == ReportSubject(date) && e.attachment.Some?;
    } else {
      UnlistedIsError(scan, date);
      assert e.subject == ErrorSubject(date) && e.attachment.None?;
    }
  }

  /** A scan that failed, or whose response has no `data` or an empty one, sends an error e-mail with its message. */
  lemma NoDataIsError(scan: Option<Response>, date: string)
    requires scan.None? || scan.value.data.None? || scan.value.data.value == []
    ensures MainRequest(scan) == Failure(if scan.Some? && scan.value.data.Some? then NoStocks else ScanFailed)
    ensures Main(scan, date).attachment.None?
  {
  }

  /** In a run, a stock without `s` never reaches the CSV: the run ends with the error e-mail instead. */
  lemma SymbolDefaultUnused(scan: Option<Response>, stocks: seq<Stock>, i: nat)
    requires scan == Some(Response(Some(stocks))) && i < |stocks| && stocks[i].s.None?
    ensures MainRequest(scan) == Failure(MissingSymbol)
  {
  }
}
