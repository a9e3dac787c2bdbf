/**
 * The print server (print-server/src/print-server.js): the byte builders of
 * its text and receipt jobs, the normalisation of raw content before it is
 * written to the job file, and the field checks of its print routes.
 * The clock, the file system and the printer are parameters: `millis` is
 * `Date.now()`, `iso` the ISO timestamp, and the print outcome is given.
 */
module PrintServer {
  import opened Common
  import opened EscPos
  import opened ReceiptLayout

  // ---------------------------------------------------------------------
  // generateTextContent

  /** The options of a text job; `cut` is absent, true or false. */
  datatype TextOptions = TextOptions(centered: bool, bold: bool, doubleSize: bool, cut: Option<bool>)

  /** `options || {}`: no option set. */
  const NoTextOptions := TextOptions(false, false, false, None)

  /** `options.cut !== false`. */
  predicate CutsPaper(options: TextOptions) {
    options.cut != Some(false)
  }

  /** The style reset after the text: normal size and left alignment (bold is not switched off). */
  const TextReset: Bytes := NORMAL + ALIGN_LEFT

  function TextTail(options: TextOptions): Bytes {
    When(CutsPaper(options), THREE_LINES + CUT_FULL)
  }

  /** `generateTextContent(text, options)`. */
  function TextContent(text: Text, options: TextOptions): Bytes {
    OpenStyles(options.centered, options.bold, options.doubleSize) + TerminatedText(text) + TextReset + TextTail(options)
  }

  lemma TextResetDecode()
    ensures Decode(TextReset) == [PrintMode(0), Align(0)]
    ensures Clean(TextReset) && FullCuts(TextReset) == 0
  {
    ModeConstantsDecode();
    AlignConstantsDecode();
    CleanAppend(NORMAL, ALIGN_LEFT);
  }

  lemma TextTailDecode(options: TextOptions)
    ensures Decode(TextTail(options)) == CmdsWhen(CutsPaper(options), [Feed, Feed, Feed, Cut(0)])
    ensures Clean(TextTail(options)) && FullCuts(TextTail(options)) == (if CutsPaper(options) then 1 else 0)
  {
    if CutsPaper(options) {
      ThreeLinesDecode();
      CutFullDecode();
      CleanAppend(THREE_LINES, CUT_FULL);
      FeedsThenCut(Decode(THREE_LINES + CUT_FULL), [], Feed, Cut(0));
    } else {
      assert Decode([]) == [];
    }
  }

  /**
   * A text job: INIT, the requested styles in the order centre, bold, double
   * size, the text closed by exactly one added line feed when it lacks one,
   * normal size and left alignment, and three feeds and a full cut unless
   * the cut is explicitly disabled.
   */
  lemma TextContentDecode(text: Text, options: TextOptions)
    ensures Decode(TextContent(text, options))
      == [Init] + CmdsWhen(options.centered, [Align(1)]) + CmdsWhen(options.bold, [Emphasis(1)])
         + CmdsWhen(options.doubleSize, [PrintMode(0x30)])
         + (TextCmds(text) + CmdsWhen(!EndsWithNewline(text), [Feed]))
         + [PrintMode(0), Align(0)]
         + CmdsWhen(CutsPaper(options), [Feed, Feed, Feed, Cut(0)])
    ensures Clean(TextContent(text, options))
    ensures FullCuts(TextContent(text, options)) == (if CutsPaper(options) then 1 else 0)
  {
    var open := OpenStyles(options.centered, options.bold, options.doubleSize);
    OpenStylesDecode(options.centered, options.bold, options.doubleSize);
    TerminatedTextDecode(text);
    TextResetDecode();
    TextTailDecode(options);
    CleanAppend3(open, TerminatedText(text), TextReset);
    CleanAppend(open + TerminatedText(text) + TextReset, TextTail(options));
  }

  // ---------------------------------------------------------------------
  // generateReceiptContent

  /** `{qty} x {name}`. */
  function QtyText(item: Item): Text {
    IntText(item.qty) + " x " + item.name
  }

  /** The price text, indented by five spaces. */
  function IndentedPrice(euros: int -> Text, item: Item): Text {
    "     EUR " + euros(item.price * item.qty)
  }

  /** The two pushes of one item: its line, then its price line left-aligned. */
  function ItemPush(line: Text, price: Text): Bytes {
    TextToBytes(line + "\n") + AlignedText(price + "\n", "LEFT")
  }

  function ServerItem(euros: int -> Text, item: Item): Bytes {
    ItemPush(QtyText(item), IndentedPrice(euros, item))
  }

  function ServerItems(euros: int -> Text, items: seq<Item>): Bytes {
    if items == [] then [] else ServerItems(euros, items[..|items| - 1]) + ServerItem(euros, items[|items| - 1])
  }

  /** The `order.items.forEach` loop. */
  method PushServerItems(euros: int -> Text, items: seq<Item>) returns (commands: Bytes)
    ensures commands == ServerItems(euros, items)
  {
    commands := [];
    var i := 0;
    while i < |items|
      invariant 0 <= i <= |items|
      invariant commands == ServerItems(euros, items[..i])
    {
      commands := commands + ServerItem(euros, items[i]);
      assert items[..i + 1][..i] == items[..i];
      i := i + 1;
    }
    assert items[..|items|] == items;
  }

  /** Each item prints its line, then its price line framed by left alignment. */
  lemma ItemPushDecode(line: Text, price: Text)
    ensures Decode(ItemPush(line, price)) == TextCmds(line) + [Feed] + [Align(0)] + TextCmds(price) + [Feed, Align(0)]
    ensures Clean(ItemPush(line, price)) && FullCuts(ItemPush(line, price)) == 0
  {
    var a := TextToBytes(line + "\n");
    var b := AlignedText(price + "\n", "LEFT");
    assert Decode(a) == TextCmds(line) + [Feed] && Clean(a) && FullCuts(a) == 0 by {
      LineDecode(line);
    }
    assert Decode(b) == [Align(0)] + TextCmds(price + "\n") + [Align(0)] && Clean(b) && FullCuts(b) == 0 by {
      LeftAlignedDecode(price + "\n");
    }
    TextCmdsAppend(price, "\n");
    CleanAppend(a, b);
    JoinItemPush(Decode(a + b), Decode(a), Decode(b), TextCmds(line), TextCmds(price), TextCmds("\n"), Feed, Align(0));
  }

  lemma JoinItemPush<T>(all: seq<T>, x: seq<T>, y: seq<T>, t: seq<T>, p: seq<T>, nl: seq<T>, f: T, a: T)
    requires all == x + y && x == t + [f] && y == [a] + (p + nl) + [a] && nl == [f]
    ensures all == t + [f] + [a] + p + [f, a]
  {
  }

  lemma {:induction false} ServerItemsClean(euros: int -> Text, items: seq<Item>)
    ensures Clean(ServerItems(euros, items)) && FullCuts(ServerItems(euros, items)) == 0
  {
    if items == [] {
      assert Decode([]) == [];
    } else {
      ServerItemsClean(euros, items[..|items| - 1]);
      ItemPushDecode(QtyText(items[|items| - 1]), IndentedPrice(euros, items[|items| - 1]));
      CleanJoin(ServerItems(euros, items[..|items| - 1]), ServerItem(euros, items[|items| - 1]));
    }
  }

  /** The receipt's fixed title and footer message. */
  const SERVER_TITLE: Text := "SAGRA PARROCCHIA"
  const SERVER_FOOTER: Text := "Ritira alle cucine indicate"
  /** The characters of the thin and thick separator lines. */
  const THIN_RULE: Text := "-"
  const THICK_RULE: Text := "="

  /** The date, order number and station lines. */
  function ServerInfo(now: Text, orderNo: Text, station: Text): Text {
    "Data: " + now + "\n" + "Ordine: " + orderNo + "\n" + "Stazione: " + station + "\n"
  }

  /** INIT, the header, the order information between separators. */
  function ServerHead(width: nat, now: Text, orderNo: Text, station: Text): Bytes {
    INIT + Header(SERVER_TITLE, "") + Separator(THICK_RULE, width)
    + TextToBytes(ServerInfo(now, orderNo, station))
    + Separator(THIN_RULE, width)
  }

  /** The bold total line, which `priceLine` may refuse (a negative space count). */
  function ServerTotal(width: nat, euros: int -> Text, total: int): Option<Bytes> {
    PriceLine("TOTALE:", "EUR " + euros(total), width)
  }

  /** The space count of the total line; a negative count makes `repeat` throw. */
  function ServerTotalSpaces(width: nat, euros: int -> Text, total: int): int {
    PriceSpaces("TOTALE:", "EUR " + euros(total), width)
  }

  /** The message of the RangeError `repeat` throws for a negative count. */
  function CountError(count: int): Text {
    "Invalid count value: " + IntText(count)
  }

  function ServerClose(width: nat, totalLine: Bytes): Bytes {
    Separator(THIN_RULE, width) + BOLD_ON + totalLine + BOLD_OFF + Separator(THICK_RULE, width)
    + Footer(SERVER_FOOTER, 3)
  }

  /**
   * `generateReceiptContent(orderNo, station, order)` with the total printed
   * by `priceLine`; None when `priceLine` throws.
   */
  function ReceiptContent(width: nat, euros: int -> Text, now: Text, orderNo: Text, station: Text,
                          items: seq<Item>, total: int): Option<Bytes> {
    var totalLine := ServerTotal(width, euros, total);
    if totalLine.None? then None
    else Some(ServerHead(width, now, orderNo, station) + ServerItems(euros, items) + ServerClose(width, totalLine.value))
  }

  /** `generateReceiptContent`: the pushes in order, the items in a loop. */
  method GenerateReceiptContent(width: nat, euros: int -> Text, now: Text, orderNo: Text, station: Text,
                                items: seq<Item>, total: int) returns (commands: Option<Bytes>)
    ensures commands == ReceiptContent(width, euros, now, orderNo, station, items, total)
  {
    var head := ServerHead(width, now, orderNo, station);
    var body := PushServerItems(euros, items);
    var totalLine := ServerTotal(width, euros, total);
    if totalLine.None? {
      return None;
    }
    commands := Some(head + body + ServerClose(width, totalLine.value));
  }

  /** The receipt fails only on a total line with no room left for its description. */
  lemma ReceiptContentDefined(width: nat, euros: int -> Text, now: Text, orderNo: Text, station: Text,
                              items: seq<Item>, total: int)
    ensures ReceiptContent(width, euros, now, orderNo, station, items, total).None?
        <==> 7 > width - |"EUR " + euros(total)| - 1 && width - |"EUR " + euros(total)| - 1 < 2
    ensures width >= |euros(total)| + 8 ==> ReceiptContent(width, euros, now, orderNo, station, items, total).Some?
  {
    PriceLineFails("TOTALE:", "EUR " + euros(total), width);
  }

  lemma ServerHeadClean(width: nat, now: Text, orderNo: Text, station: Text)
    ensures Clean(ServerHead(width, now, orderNo, station)) && FullCuts(ServerHead(width, now, orderNo, station)) == 0
  {
    HeadPieces(SERVER_TITLE, width, ServerInfo(now, orderNo, station));
  }

  lemma HeadPieces(title: Text, width: nat, info: Text)
    ensures var head := INIT + Header(title, "") + Separator(THICK_RULE, width) + TextToBytes(info) + Separator(THIN_RULE, width);
      Clean(head) && FullCuts(head) == 0
  {
    assert Clean(INIT) && FullCuts(INIT) == 0 by { ControlConstantsDecode(); }
    assert Clean(Header(title, "")) && FullCuts(Header(title, "")) == 0 by { HeaderDecode(title, ""); }
    assert Clean(TextToBytes(info)) && FullCuts(TextToBytes(info)) == 0 by { TextDecode(info); }
    CleanJoin3x(INIT, Header(title, ""), Separator(THICK_RULE, width), TextToBytes(info), Separator(THIN_RULE, width));
  }

  lemma CleanJoin3x(a: Bytes, b: Bytes, c: Bytes, d: Bytes, e: Bytes)
    requires Clean(a) && Clean(b) && Clean(c) && Clean(d) && Clean(e)
    requires FullCuts(a) == FullCuts(b) == FullCuts(c) == FullCuts(d) == FullCuts(e) == 0
    ensures Clean(a + b + c + d + e) && FullCuts(a + b + c + d + e) == 0
  {
    CleanAppend3(a, b, c);
    CleanJoin(a + b + c, d);
    CleanJoin(a + b + c + d, e);
  }

  lemma ServerCloseClean(width: nat, totalLine: Bytes)
    requires Clean(totalLine) && FullCuts(totalLine) == 0
    ensures Clean(ServerClose(width, totalLine)) && FullCuts(ServerClose(width, totalLine)) == 1
  {
    ClosePieces(width, totalLine, SERVER_FOOTER);
  }

  lemma ClosePieces(width: nat, totalLine: Bytes, message: Text)
    requires Clean(totalLine) && FullCuts(totalLine) == 0
    ensures var close := Separator(THIN_RULE, width) + BOLD_ON + totalLine + BOLD_OFF + Separator(THICK_RULE, width) + Footer(message, 3);
      Clean(close) && FullCuts(close) == 1
  {
    Decode1(Emphasis(1));
    Decode1(Emphasis(0));
    FooterDecode(message, 3);
    CutOnceAtEnd(Separator(THIN_RULE, width) + BOLD_ON + totalLine + BOLD_OFF + Separator(THICK_RULE, width) + Footer(message, 3),
      Separator(THIN_RULE, width), BOLD_ON, totalLine, BOLD_OFF, Separator(THICK_RULE, width), Footer(message, 3));
  }

  /** A receipt is made of recognised commands only and cuts the paper once. */
  lemma ReceiptContentCuts(width: nat, euros: int -> Text, now: Text, orderNo: Text, station: Text,
                           items: seq<Item>, total: int)
    requires ReceiptContent(width, euros, now, orderNo, station, items, total).Some?
    ensures var r := ReceiptContent(width, euros, now, orderNo, station, items, total).value;
      Clean(r) && FullCuts(r) == 1
  {
    var totalLine := ServerTotal(width, euros, total).value;
    var head := ServerHead(width, now, orderNo, station);
    var body := ServerItems(euros, items);
    var close := ServerClose(width, totalLine);
    ServerHeadClean(width, now, orderNo, station);
    ServerItemsClean(euros, items);
    ServerCloseClean(width, totalLine);
    ReceiptContentPieces(width, euros, now, orderNo, station, items, total);
    OneCutJoin(ReceiptContent(width, euros, now, orderNo, station, items, total).value, head, body, close);
  }

  lemma OneCutJoin(r: Bytes, head: Bytes, body: Bytes, close: Bytes)
    requires r == head + body + close
    requires Clean(head) && Clean(body) && Clean(close)
    requires FullCuts(head) == 0 && FullCuts(body) == 0 && FullCuts(close) == 1
    ensures Clean(r) && FullCuts(r) == 1
  {
    CleanJoin(head, body);
    CleanJoin(head + body, close);
  }

  /** It starts with INIT and the centred double-size header, and its last command is the full cut. */
  lemma ReceiptContentFrame(width: nat, euros: int -> Text, now: Text, orderNo: Text, station: Text,
                            items: seq<Item>, total: int)
    requires ReceiptContent(width, euros, now, orderNo, station, items, total).Some?
    ensures var r := ReceiptContent(width, euros, now, orderNo, station, items, total).value;
      |r| >= 8 && r[..8] == INIT + ALIGN_CENTER + DOUBLE_SIZE && r[|r| - 3..] == CUT_FULL
  {
    ReceiptContentPieces(width, euros, now, orderNo, station, items, total);
    ServerFrame(ReceiptContent(width, euros, now, orderNo, station, items, total).value,
                width, now, orderNo, station, ServerItems(euros, items), ServerTotal(width, euros, total).value);
  }

  lemma ServerFrame(r: Bytes, width: nat, now: Text, orderNo: Text, station: Text, body: Bytes, totalLine: Bytes)
    requires r == ServerHead(width, now, orderNo, station) + body + ServerClose(width, totalLine)
    ensures |r| >= 8 && r[..8] == INIT + ALIGN_CENTER + DOUBLE_SIZE && r[|r| - 3..] == CUT_FULL
  {
    ServerHeadStart(width, now, orderNo, station);
    ServerCloseEnd(width, totalLine);
    FramePieces(r, ServerHead(width, now, orderNo, station), body, ServerClose(width, totalLine));
  }

  lemma ReceiptContentPieces(width: nat, euros: int -> Text, now: Text, orderNo: Text, station: Text,
                             items: seq<Item>, total: int)
    requires ReceiptContent(width, euros, now, orderNo, station, items, total).Some?
    ensures ReceiptContent(width, euros, now, orderNo, station, items, total).value
      == ServerHead(width, now, orderNo, station) + ServerItems(euros, items)
         + ServerClose(width, ServerTotal(width, euros, total).value)
  {
  }

  lemma ServerHeadStart(width: nat, now: Text, orderNo: Text, station: Text)
    ensures var h := ServerHead(width, now, orderNo, station); |h| >= 8 && h[..8] == INIT + ALIGN_CENTER + DOUBLE_SIZE
  {
    HeadStart(SERVER_TITLE, width, ServerInfo(now, orderNo, station));
  }

  lemma HeadStart(title: Text, width: nat, info: Text)
    ensures var head := INIT + Header(title, "") + Separator(THICK_RULE, width) + TextToBytes(info) + Separator(THIN_RULE, width);
      |head| >= 8 && head[..8] == INIT + ALIGN_CENTER + DOUBLE_SIZE
  {
    var header := Header(title, "");
    PrefixOfPieces(header, Separator(THICK_RULE, width), TextToBytes(info), Separator(THIN_RULE, width));
  }

  lemma PrefixOfPieces(header: Bytes, b: Bytes, c: Bytes, d: Bytes)
    requires |header| >= 6 && header[..6] == ALIGN_CENTER + DOUBLE_SIZE
    ensures |INIT + header + b + c + d| >= 8 && (INIT + header + b + c + d)[..8] == INIT + ALIGN_CENTER + DOUBLE_SIZE
  {
    var r := INIT + header + b + c + d;
    assert r == INIT + header + (b + c + d);
    assert r[..8] == INIT + header[..6];
  }

  lemma ServerCloseEnd(width: nat, totalLine: Bytes)
    ensures var c := ServerClose(width, totalLine); |c| >= 3 && c[|c| - 3..] == CUT_FULL
  {
    EndsWithFooter(Separator(THIN_RULE, width) + BOLD_ON + totalLine + BOLD_OFF + Separator(THICK_RULE, width),
      Footer(SERVER_FOOTER, 3));
  }

  lemma EndsWithFooter(a: Bytes, footer: Bytes)
    requires |footer| >= 3 && footer[|footer| - 3..] == CUT_FULL
    ensures |a + footer| >= 3 && (a + footer)[|a + footer| - 3..] == CUT_FULL
  {
    assert (a + footer)[|a + footer| - 3..] == footer[|footer| - 3..];
  }

  lemma FramePieces(r: Bytes, head: Bytes, body: Bytes, close: Bytes)
    requires r == head + body + close
    requires |head| >= 8 && head[..8] == INIT + ALIGN_CENTER + DOUBLE_SIZE
    requires |close| >= 3 && close[|close| - 3..] == CUT_FULL
    ensures |r| >= 8 && r[..8] == INIT + ALIGN_CENTER + DOUBLE_SIZE && r[|r| - 3..] == CUT_FULL
  {
    assert r[..8] == head[..8];
    assert r[|r| - 3..] == close[|close| - 3..];
  }

  // ---------------------------------------------------------------------
  // printRawContent

  /**
   * What a client may send as `content` in a JSON body. A number, boolean,
   * null or object is kept as it is, and `fs.writeFileSync` refuses it with
   * an error describing the value (`refusal`).
   */
  datatype Content =
    | NumberArray(values: seq<int>)            // an array of byte values
    | TextString(text: Text)                   // a string, printed as plain text
    | OtherValue(truthy: bool, refusal: Text)  // any other JSON value

  /** `Buffer.from(array)` keeps each value modulo 256. */
  function ByteOf(x: int): Byte {
    x % 256
  }

  /** The bytes written to the job file; None when the value is neither a buffer nor a string. */
  function Normalise(content: Content): (b: Option<Bytes>)
    ensures b.None? <==> content.OtherValue?
    ensures content.NumberArray? ==> |b.value| == |content.values|
    ensures content.NumberArray? ==> forall i :: 0 <= i < |b.value| ==> b.value[i] == content.values[i] % 256
  {
    match content
    case NumberArray(values) => Some(seq(|values|, i requires 0 <= i < |values| => ByteOf(values[i])))
    case TextString(text) => Some(INIT + TextToBytes(text) + THREE_LINES + CUT_FULL)
    case OtherValue(_, _) => None
  }

  /** An array of values that are already bytes is written unchanged. */
  lemma NormaliseBytes(values: seq<int>)
    requires forall i :: 0 <= i < |values| ==> 0 <= values[i] < 256
    ensures Normalise(NumberArray(values)) == Some(values)
  {
    assert Normalise(NumberArray(values)).value == values;
  }

  /** A string prints as INIT, its characters, three feeds and one full cut. */
  lemma NormaliseText(text: Text)
    ensures Decode(Normalise(TextString(text)).value) == [Init] + TextCmds(text) + [Feed, Feed, Feed, Cut(0)]
    ensures Clean(Normalise(TextString(text)).value) && FullCuts(Normalise(TextString(text)).value) == 1
  {
    InitDecode();
    ThreeLinesDecode();
    CutFullDecode();
    TextDecode(text);
    CleanAppend3(INIT, TextToBytes(text), THREE_LINES);
    CleanAppend(INIT + TextToBytes(text) + THREE_LINES, CUT_FULL);
    FeedsThenCut(Decode(Normalise(TextString(text)).value), [Init] + TextCmds(text), Feed, Cut(0));
  }

  lemma FeedsThenCut<T>(d: seq<T>, head: seq<T>, f: T, c: T)
    requires d == head + [f, f, f] + [c]
    ensures d == head + [f, f, f, c]
  {
  }

  /** What `printFile` reports after printing the job file. */
  datatype PrintOutput = PrintOutput(output: Text, platform: Text)

  /** The success record of `printRawContent`. */
  datatype RawJob = RawJob(jobId: Text, message: Text, printJob: Text, platform: Text, timestamp: Text)

  /** The file a job writes, the bytes written (None when the write throws) and the outcome reported. */
  datatype RawAttempt = RawAttempt(fileName: Text, data: Option<Bytes>, result: Result<RawJob, string>)

  /** `print-${jobId || Date.now()}.bin`; an empty job id counts as missing. */
  function JobFileName(jobId: Text, millis: Text): Text {
    "print-" + (if jobId != [] then jobId else millis) + ".bin"
  }

  /**
   * `printRawContent(content, jobId)`: the normalised bytes go to the job
   * file, which is printed in raw mode; a value the file write refuses is
   * never printed. Either failure becomes "Stampa fallita: ...".
   */
  function PrintRawContent(content: Content, jobId: Text, millis: Text, iso: Text,
                           printed: Result<PrintOutput, Text>): (a: RawAttempt)
    ensures a.data == Normalise(content) && a.fileName == JobFileName(jobId, millis)
    ensures a.result.Ok? <==> !content.OtherValue? && printed.Ok?
    ensures a.result.Ok? ==>
      && a.result.value.jobId == (if jobId != [] then jobId else "UNKNOWN")
      && a.result.value.printJob == printed.value.output && a.result.value.platform == printed.value.platform
    ensures content.OtherValue? ==> a.result == Err("Stampa fallita: " + content.refusal)
    ensures !content.OtherValue? && printed.Err? ==> a.result == Err("Stampa fallita: " + printed.error)
  {
    var result :=
      if content.OtherValue? then Err("Stampa fallita: " + content.refusal)
      else match printed
        case Ok(out) => Ok(RawJob(if jobId != [] then jobId else "UNKNOWN", "Contenuto stampato", out.output, out.platform, iso))
        case Err(message) => Err("Stampa fallita: " + message);
    RawAttempt(JobFileName(jobId, millis), Normalise(content), result)
  }

  /** The job file name always has the "print-" prefix and the ".bin" extension around a non-empty id. */
  lemma JobFileNameShape(jobId: Text, millis: Text)
    requires millis != []
    ensures var n := JobFileName(jobId, millis);
      && |n| > 10 && n[..6] == "print-" && n[|n| - 4..] == ".bin"
      && (jobId != [] ==> n[6..|n| - 4] == jobId)
  {
  }

  // ---------------------------------------------------------------------
  // Routes

  /** What a route answers. */
  datatype Response =
    | BadRequest(error: string)    // 400
    | Printed(job: RawJob)         // 200
    | ServerError(error: string)   // 500

  function Answer(a: RawAttempt): Response {
    match a.result
    case Ok(job) => Printed(job)
    case Err(e) => ServerError(e)
  }

  /** `!content`: a missing content, the empty string, or a falsy value (`0`, `false`, `null`); an empty array is truthy. */
  predicate ContentMissing(content: Option<Content>) {
    content.None? || content.value == TextString("") || (content.value.OtherValue? && !content.value.truthy)
  }

  /** POST /print-raw: the job id defaults to `JOB-<millis>`. */
  function PrintRaw(content: Option<Content>, jobId: Text, millis: Text, iso: Text,
                    printed: Result<PrintOutput, Text>): (r: Response)
    ensures ContentMissing(content) <==> r.BadRequest?
    ensures !ContentMissing(content) && content.value.OtherValue? ==>
      r == ServerError("Stampa fallita: " + content.value.refusal)
    ensures !ContentMissing(content) && !content.value.OtherValue? && printed.Ok? ==>
      r.Printed? && r.job.jobId == (if jobId != [] then jobId else "JOB-" + millis)
  {
    if ContentMissing(content) then BadRequest("Campo \"content\" mancante. Invia array di comandi ESC/POS.")
    else Answer(PrintRawContent(content.value, if jobId != [] then jobId else "JOB-" + millis, millis, iso, printed))
  }

  /** POST /print-text: the text is required, the options default to none. */
  function PrintText(text: Option<Text>, options: Option<TextOptions>, millis: Text, iso: Text,
                     printed: Result<PrintOutput, Text>): (r: Response)
    ensures (text.None? || text == Some([])) <==> r.BadRequest?
    ensures text.Some? && text.value != [] && printed.Ok? ==> r.Printed? && r.job.jobId == "TEXT-" + millis
  {
    if text.None? || text.value == [] then BadRequest("Campo \"text\" mancante.")
    else
      var content := TextContent(text.value, if options.Some? then options.value else NoTextOptions);
      Answer(PrintRawContent(NumberArray(content), "TEXT-" + millis, millis, iso, printed))
  }

  /** A number or a string field of a request. */
  datatype Scalar = Num(n: int) | Str(s: Text)

  /** JavaScript falsiness of a present scalar: 0 and "". */
  predicate Falsy(v: Option<Scalar>) {
    v.None? || v == Some(Num(0)) || v == Some(Str(""))
  }

  /** `${v}` / `v.toString()`. */
  function ScalarText(v: Scalar): Text {
    match v
    case Num(n) => IntText(n)
    case Str(s) => s
  }

  /** The fields of a /print-receipt request. */
  datatype ReceiptRequest = ReceiptRequest(customerNumber: Option<Scalar>, station: Option<Scalar>,
                                           items: Option<seq<Item>>, total: Option<int>)

  /** `!customerNumber || !station || !items || !total`; an empty item array is present. */
  predicate ReceiptFieldsMissing(req: ReceiptRequest) {
    Falsy(req.customerNumber) || Falsy(req.station) || req.items.None? || req.total.None? || req.total == Some(0)
  }

  /**
   * POST /print-receipt: the customer number names the job. A receipt whose
   * total line cannot be laid out answers 500.
   */
  function PrintReceipt(req: ReceiptRequest, width: nat, euros: int -> Text, now: Text, millis: Text, iso: Text,
                        printed: Result<PrintOutput, Text>): (r: Response)
    ensures ReceiptFieldsMissing(req) <==> r.BadRequest?
    ensures !ReceiptFieldsMissing(req) && r.Printed? ==> r.job.jobId == ScalarText(req.customerNumber.value)
    ensures !ReceiptFieldsMissing(req) && ServerTotalSpaces(width, euros, req.total.value) < 0
      ==> r == ServerError(CountError(ServerTotalSpaces(width, euros, req.total.value)))
  {
    if ReceiptFieldsMissing(req) then
      BadRequest("Parametri mancanti. DEPRECATO: Usa /print-raw per nuove implementazioni.")
    else
      var orderNo := ScalarText(req.customerNumber.value);
      var content := ReceiptContent(width, euros, now, orderNo, ScalarText(req.station.value), req.items.value, req.total.value);
      if content.None? then ServerError(CountError(ServerTotalSpaces(width, euros, req.total.value)))
      else
        assert orderNo != [] by { assert req.customerNumber.value.Str? ==> req.customerNumber.value.s != []; }
        Answer(PrintRawContent(NumberArray(content.value), orderNo, millis, iso, printed))
  }
}
