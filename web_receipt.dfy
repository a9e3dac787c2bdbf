/**
 * The web application's ReceiptGenerator (src/services/receiptGenerator.js):
 * the order receipt, which prints the shared sections with a 32-column
 * default width and a three-feed footer, and the plain text print job.
 */
module WebReceipt {
  import opened Common
  import opened EscPos
  import opened ReceiptLayout

  /** The defaults of the web generator's constructor. */
  const WebDefaults := ReceiptConfig("SAGRA PARROCCHIA", "Ritira alle cucine indicate", 32, "EUR", "=", "-")

  function WebConfig(options: ReceiptOptions): ReceiptConfig {
    ResolveConfig(options, WebDefaults)
  }

  /** With no options the generator prints a 32-column "SAGRA PARROCCHIA" receipt. */
  lemma WebConfigDefaults(options: ReceiptOptions)
    requires options == ReceiptOptions(None, None, None, None, None, None)
    ensures WebConfig(options) == WebDefaults
    ensures WebConfig(options).width == 32 && WebConfig(options).title == "SAGRA PARROCCHIA"
  {
  }

  // ---------------------------------------------------------------------
  // The order receipt.

  /** `createOrderInfo` here: the three information lines, then the item separator. */
  function WebOrderInfo(config: ReceiptConfig, now: Text, order: Order): Bytes {
    Lines(InfoLines(now, order)) + SeparatorLine(config, config.itemSeparator)
  }

  method CreateOrderInfo(config: ReceiptConfig, now: Text, order: Order) returns (commands: Bytes)
    ensures commands == WebOrderInfo(config, now, order)
  {
    commands := PushLines(InfoLines(now, order));
    commands := commands + SeparatorLine(config, config.itemSeparator);
  }

  /** What `generateOrderReceipt` returns. */
  function OrderReceipt(config: ReceiptConfig, euros: int -> Text, now: Text, order: Order): Bytes {
    INIT + ReceiptHeader(config) + WebOrderInfo(config, now, order)
    + ItemsList(config, euros, order.items) + TotalBlock(config, euros, order.total) + ReceiptFooter(config, 3)
  }

  /** `generateOrderReceipt`: initialise, header, order information, items, total, footer. */
  method GenerateOrderReceipt(config: ReceiptConfig, euros: int -> Text, now: Text, order: Order) returns (commands: Bytes)
    ensures commands == OrderReceipt(config, euros, now, order)
  {
    var info := CreateOrderInfo(config, now, order);
    var itemsList := CreateItemsList(config, euros, order.items);
    commands := INIT + ReceiptHeader(config) + info + itemsList
      + TotalBlock(config, euros, order.total) + ReceiptFooter(config, 3);
  }

  lemma WebOrderInfoClean(config: ReceiptConfig, now: Text, order: Order)
    ensures Clean(WebOrderInfo(config, now, order)) && FullCuts(WebOrderInfo(config, now, order)) == 0
  {
    LinesPrint(InfoLines(now, order));
    CleanJoin(Lines(InfoLines(now, order)), SeparatorLine(config, config.itemSeparator));
  }

  lemma WebHeadClean(config: ReceiptConfig, now: Text, order: Order)
    ensures Clean(INIT) && FullCuts(INIT) == 0
    ensures Clean(ReceiptHeader(config)) && FullCuts(ReceiptHeader(config)) == 0
    ensures Clean(WebOrderInfo(config, now, order)) && FullCuts(WebOrderInfo(config, now, order)) == 0
  {
    ControlConstantsDecode();
    ReceiptHeaderClean(config);
    WebOrderInfoClean(config, now, order);
  }

  lemma WebBackClean(config: ReceiptConfig, euros: int -> Text, order: Order)
    ensures Clean(ItemsList(config, euros, order.items)) && FullCuts(ItemsList(config, euros, order.items)) == 0
    ensures Clean(TotalBlock(config, euros, order.total)) && FullCuts(TotalBlock(config, euros, order.total)) == 0
    ensures Clean(ReceiptFooter(config, 3)) && FullCuts(ReceiptFooter(config, 3)) == 1
  {
    LinesPrint(ItemsListLines(config, euros, order.items));
    TotalBlockDecode(config, euros, order.total);
    ReceiptFooterLayout(config, 3);
  }

  /** The order receipt is made of recognised commands only and cuts the paper exactly once. */
  lemma OrderReceiptCuts(config: ReceiptConfig, euros: int -> Text, now: Text, order: Order)
    ensures Clean(OrderReceipt(config, euros, now, order)) && FullCuts(OrderReceipt(config, euros, now, order)) == 1
  {
    WebHeadClean(config, now, order);
    WebBackClean(config, euros, order);
    CutOnceAtEnd(OrderReceipt(config, euros, now, order), INIT, ReceiptHeader(config), WebOrderInfo(config, now, order),
      ItemsList(config, euros, order.items), TotalBlock(config, euros, order.total), ReceiptFooter(config, 3));
  }

  /** It starts by initialising the printer and ends with three feeds and the full cut. */
  lemma OrderReceiptFrame(config: ReceiptConfig, euros: int -> Text, now: Text, order: Order)
    ensures var r := OrderReceipt(config, euros, now, order);
      && |r| >= 8 && r[..2] == INIT && r[|r| - 6..] == THREE_LINES + CUT_FULL
  {
    FooterEnd(config);
    FramePieces(ReceiptHeader(config), WebOrderInfo(config, now, order), ItemsList(config, euros, order.items),
      TotalBlock(config, euros, order.total), ReceiptFooter(config, 3));
  }

  lemma FooterEnd(config: ReceiptConfig)
    ensures var f := ReceiptFooter(config, 3); |f| >= 6 && f[|f| - 6..] == THREE_LINES + CUT_FULL
  {
    ReceiptFooterEnd(config, 3);
    ThreeFeedBytes();
  }

  lemma FramePieces(h: Bytes, o: Bytes, l: Bytes, t: Bytes, f: Bytes)
    requires |f| >= 6 && f[|f| - 6..] == THREE_LINES + CUT_FULL
    ensures var r := INIT + h + o + l + t + f;
      && |r| >= 8 && r[..2] == INIT && r[|r| - 6..] == THREE_LINES + CUT_FULL
  {
    var a := INIT + h + o + l + t;
    assert (a + f)[|a + f| - 6..] == f[|f| - 6..];
  }

  // ---------------------------------------------------------------------
  // Plain text.

  /** The options of `generateSimpleText`; `cut` is absent, true or false. */
  datatype SimpleOptions = SimpleOptions(center: bool, bold: bool, large: bool, cut: Option<bool>)

  /** `options.cut !== false`: only an explicit false keeps the paper uncut. */
  predicate Cuts(options: SimpleOptions) {
    options.cut != Some(false)
  }

  const SimpleReset: Bytes := NORMAL + BOLD_OFF + ALIGN_LEFT

  function SimpleTail(options: SimpleOptions): Bytes {
    When(Cuts(options), LF + LF + CUT_FULL)
  }

  /** `generateSimpleText(text, options)`. */
  function SimpleText(text: Text, options: SimpleOptions): Bytes {
    OpenStyles(options.center, options.bold, options.large) + TerminatedText(text) + SimpleReset + SimpleTail(options)
  }

  lemma SimpleResetDecode()
    ensures Decode(SimpleReset) == [PrintMode(0), Emphasis(0), Align(0)]
    ensures Clean(SimpleReset) && FullCuts(SimpleReset) == 0
  {
    Decode1(PrintMode(0));
    Decode1(Emphasis(0));
    Decode1(Align(0));
    CleanAppend3(NORMAL, BOLD_OFF, ALIGN_LEFT);
    ThreeCommands(Decode(SimpleReset), PrintMode(0), Emphasis(0), Align(0));
  }

  lemma ThreeCommands<T>(d: seq<T>, x: T, y: T, z: T)
    requires d == [x] + [y] + [z]
    ensures d == [x, y, z]
  {
  }

  lemma SimpleTailDecode(options: SimpleOptions)
    ensures Decode(SimpleTail(options)) == CmdsWhen(Cuts(options), [Feed, Feed, Cut(0)])
    ensures Clean(SimpleTail(options)) && FullCuts(SimpleTail(options)) == (if Cuts(options) then 1 else 0)
  {
    if Cuts(options) {
      LfDecode();
      CutFullDecode();
      CleanAppend3(LF, LF, CUT_FULL);
      ThreeCommands(Decode(LF + LF + CUT_FULL), Feed, Feed, Cut(0));
    } else {
      assert Decode([]) == [];
    }
  }

  /**
   * The plain text job: the requested styles, the text closed by a line feed,
   * every style reset, and two feeds and one full cut unless the cut is
   * explicitly disabled.
   */
  lemma SimpleTextDecode(text: Text, options: SimpleOptions)
    ensures Decode(SimpleText(text, options))
      == [Init] + CmdsWhen(options.center, [Align(1)]) + CmdsWhen(options.bold, [Emphasis(1)])
         + CmdsWhen(options.large, [PrintMode(0x30)])
         + (TextCmds(text) + CmdsWhen(!EndsWithNewline(text), [Feed]))
         + [PrintMode(0), Emphasis(0), Align(0)]
         + CmdsWhen(Cuts(options), [Feed, Feed, Cut(0)])
    ensures Clean(SimpleText(text, options))
    ensures FullCuts(SimpleText(text, options)) == (if Cuts(options) then 1 else 0)
  {
    OpenStylesDecode(options.center, options.bold, options.large);
    TerminatedTextDecode(text);
    SimpleResetDecode();
    SimpleTailDecode(options);
    CleanAppend3(OpenStyles(options.center, options.bold, options.large), TerminatedText(text), SimpleReset);
    CleanAppend(OpenStyles(options.center, options.bold, options.large) + TerminatedText(text) + SimpleReset, SimpleTail(options));
  }
}
