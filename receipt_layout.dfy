/**
 * The layout the two ReceiptGenerator classes share
 * (print-station/src/receiptGenerator.js and src/services/receiptGenerator.js
 * contain the same code for these parts): the configuration built by the
 * constructor, separators, right-aligned price lines, the header, the order
 * information, the item list and the total block.
 */
module ReceiptLayout {
  import opened Common
  import opened EscPos

  /** `this.config` of a ReceiptGenerator. */
  datatype ReceiptConfig = ReceiptConfig(
    title: Text, footer: Text, width: nat, currency: Text, separator: Text, itemSeparator: Text)

  /** The constructor's argument: each key is absent or given, possibly with a falsy value. */
  datatype ReceiptOptions = ReceiptOptions(
    title: Option<Text>, footer: Option<Text>, width: Option<nat>,
    currency: Option<Text>, separator: Option<Text>, itemSeparator: Option<Text>)

  /**
   * One key of `{ key: config.key || default, ..., ...config }`. The `||`
   * would replace a falsy value by the default, but the spread that follows
   * puts back every value that was given, falsy or not, so the default only
   * fills a missing key.
   */
  function ResolveKey<T>(given: Option<T>, default: T): (v: T)
    ensures given.Some? ==> v == given.value
    ensures given.None? ==> v == default
  {
    if given.Some? then given.value else default
  }

  /** The constructor: every given key wins over its default, even a falsy one (width 0, ""). */
  function ResolveConfig(options: ReceiptOptions, defaults: ReceiptConfig): (c: ReceiptConfig)
    ensures options.title.Some? ==> c.title == options.title.value
    ensures options.title.None? ==> c.title == defaults.title
    ensures options.footer.Some? ==> c.footer == options.footer.value
    ensures options.footer.None? ==> c.footer == defaults.footer
    ensures options.width.Some? ==> c.width == options.width.value
    ensures options.width.None? ==> c.width == defaults.width
    ensures options.currency.Some? ==> c.currency == options.currency.value
    ensures options.currency.None? ==> c.currency == defaults.currency
    ensures options.separator.Some? ==> c.separator == options.separator.value
    ensures options.separator.None? ==> c.separator == defaults.separator
    ensures options.itemSeparator.Some? ==> c.itemSeparator == options.itemSeparator.value
    ensures options.itemSeparator.None? ==> c.itemSeparator == defaults.itemSeparator
  {
    ReceiptConfig(
      ResolveKey(options.title, defaults.title),
      ResolveKey(options.footer, defaults.footer),
      ResolveKey(options.width, defaults.width),
      ResolveKey(options.currency, defaults.currency),
      ResolveKey(options.separator, defaults.separator),
      ResolveKey(options.itemSeparator, defaults.itemSeparator))
  }

  /** An order line as the receipts read it. */
  datatype Item = Item(name: Text, quantity: int, qty: int, price: int, preparationLine: Text)

  /** `item.quantity || item.qty`: a zero (or missing) quantity falls back to `qty`. */
  function Quantity(item: Item): int {
    if item.quantity != 0 then item.quantity else item.qty
  }

  /** The order fields the receipts print. */
  datatype Order = Order(customerNumber: Text, station: Text, items: seq<Item>, total: int)

  /** `${quantity}x ${name}`. */
  function QuantityLine(item: Item): Text {
    IntText(Quantity(item)) + "x " + item.name
  }

  /** `formatPrice`: the currency, a space and the amount as rendered by `euros`. */
  function FormatPrice(config: ReceiptConfig, euros: int -> Text, amount: int): Text {
    config.currency + " " + euros(amount)
  }

  /** `createSeparator(char)`: the given character, or the configured one when none is given. */
  function SeparatorChar(config: ReceiptConfig, given: Text): Text {
    if given != [] then given else config.separator
  }

  function SeparatorLine(config: ReceiptConfig, given: Text): Bytes {
    Separator(SeparatorChar(config, given), config.width)
  }

  /** A one-character separator is that character exactly `width` times, then a line feed. */
  lemma SeparatorLineLayout(config: ReceiptConfig, given: Text)
    requires |SeparatorChar(config, given)| == 1
    ensures var r := SeparatorLine(config, given);
      && |r| == config.width + 1 && r[config.width] == 0x0A
      && forall i :: 0 <= i < config.width ==> r[i] == SeparatorChar(config, given)[0] as int
  {
    var c := SeparatorChar(config, given);
    RepeatTextChar(c[0], config.width);
    assert c == [c[0]];
  }

  /** `createPriceLine`: pad between description and price, or cut the description (no ellipsis). */
  function PaddedPriceLine(width: int, description: Text, price: Text): Text {
    var availableSpace := width - |price|;
    var padding := if availableSpace - |description| > 0 then availableSpace - |description| else 0;
    if padding > 0 then description + Repeat(' ', padding) + price
    else Prefix(description, availableSpace - 1) + " " + price
  }

  /**
   * The price is always the intact end of the line; when it is shorter than
   * the width the line is exactly `width` characters, otherwise it is a space
   * and the price. A description that fits is kept whole; one that does not
   * is cut to `width - |price| - 1` characters followed by one space.
   */
  lemma PaddedPriceLineLayout(width: int, description: Text, price: Text)
    ensures var line := PaddedPriceLine(width, description, price);
      && |line| == (if |price| < width then width else |price| + 1)
      && line[|line| - |price|..] == price
      && (|description| < width - |price| ==> line[..|description|] == description)
      && (|price| < width <= |description| + |price| ==>
            line[..width - |price|] == description[..width - |price| - 1] + " ")
  {
    var line := PaddedPriceLine(width, description, price);
    if width - |price| - |description| > 0 {
      assert line[..|description|] == description;
    } else {
      var cut := Prefix(description, width - |price| - 1);
      assert line == cut + " " + price;
      assert line[|line| - |price|..] == price;
    }
  }

  /** `textToBytes(line)` followed by LF for every line, in order. */
  function Joined(lines: seq<Text>): Text {
    if lines == [] then [] else Joined(lines[..|lines| - 1]) + lines[|lines| - 1] + "\n"
  }

  function Lines(lines: seq<Text>): Bytes {
    TextToBytes(Joined(lines))
  }

  /** Lines of text print as characters and feeds only: one feed ends every line. */
  lemma {:induction false} LinesPrint(lines: seq<Text>)
    ensures Clean(Lines(lines)) && FullCuts(Lines(lines)) == 0
    ensures Lines(lines) == (if lines == [] then [] else Lines(lines[..|lines| - 1]) + TextToBytes(lines[|lines| - 1]) + LF)
  {
    TextDecode(Joined(lines));
    if lines != [] {
      var init := lines[..|lines| - 1];
      TextToBytesAppend(Joined(init) + lines[|lines| - 1], "\n");
      TextToBytesAppend(Joined(init), lines[|lines| - 1]);
    }
  }

  /** `lines.forEach(line => { push(textToBytes(line)); push(LINE_FEED) })`. */
  method PushLines(lines: seq<Text>) returns (commands: Bytes)
    ensures commands == Lines(lines)
  {
    commands := [];
    var i := 0;
    assert Lines([]) == [] by { LinesPrint([]); }
    while i < |lines|
      invariant 0 <= i <= |lines|
      invariant commands == Lines(lines[..i])
    {
      commands := commands + TextToBytes(lines[i]) + LF;
      assert lines[..i + 1][..i] == lines[..i];
      LinesPrint(lines[..i + 1]);
      i := i + 1;
    }
    assert lines[..|lines|] == lines;
  }

  /** `createHeader`: centred bold double-size title, styles reset, then the separator. */
  function ReceiptHeader(config: ReceiptConfig): Bytes {
    ALIGN_CENTER + BOLD_ON + DOUBLE_SIZE + TextToBytes(config.title) + LF + NORMAL + BOLD_OFF + ALIGN_LEFT
    + SeparatorLine(config, [])
  }

  lemma ReceiptHeaderClean(config: ReceiptConfig)
    ensures Clean(ReceiptHeader(config)) && FullCuts(ReceiptHeader(config)) == 0
  {
    ControlConstantsDecode();
    AlignConstantsDecode();
    ModeConstantsDecode();
    FaceConstantsDecode();
    TextDecode(config.title);
    var a := ALIGN_CENTER + BOLD_ON + DOUBLE_SIZE;
    CleanJoin(ALIGN_CENTER, BOLD_ON);
    CleanJoin(ALIGN_CENTER + BOLD_ON, DOUBLE_SIZE);
    var b := a + TextToBytes(config.title) + LF;
    CleanJoin(a, TextToBytes(config.title));
    CleanJoin(a + TextToBytes(config.title), LF);
    var c := b + NORMAL + BOLD_OFF + ALIGN_LEFT;
    CleanJoin(b, NORMAL);
    CleanJoin(b + NORMAL, BOLD_OFF);
    CleanJoin(b + NORMAL + BOLD_OFF, ALIGN_LEFT);
    CleanJoin(c, SeparatorLine(config, []));
  }

  /** `createOrderInfo`'s three lines: date, order number, and the station or "N/A". */
  function InfoLines(now: Text, order: Order): (lines: seq<Text>)
    ensures |lines| == 3
  {
    ["Data: " + now, "Ordine: " + order.customerNumber,
     "Stazione: " + (if order.station != [] then order.station else "N/A")]
  }

  /** The two lines `createItemsList` prints for one item: quantity and name, then its price. */
  function ItemLines(config: ReceiptConfig, euros: int -> Text, item: Item): seq<Text> {
    [QuantityLine(item), PaddedPriceLine(config.width, "", FormatPrice(config, euros, item.price * Quantity(item)))]
  }

  /** All item lines in order: exactly two per item. */
  function ItemsListLines(config: ReceiptConfig, euros: int -> Text, items: seq<Item>): (lines: seq<Text>)
    ensures |lines| == 2 * |items|
    ensures forall i :: 0 <= i < |items| ==>
      lines[2 * i] == QuantityLine(items[i]) && lines[2 * i + 1] == ItemLines(config, euros, items[i])[1]
  {
    if items == [] then []
    else
      var init := items[..|items| - 1];
      var prev := ItemsListLines(config, euros, init);
      ItemsListLinesStep(config, euros, items, prev);
      prev + ItemLines(config, euros, items[|items| - 1])
  }

  lemma ItemsListLinesStep(config: ReceiptConfig, euros: int -> Text, items: seq<Item>, prev: seq<Text>)
    requires |items| > 0 && |prev| == 2 * (|items| - 1)
    requires forall i :: 0 <= i < |items| - 1 ==>
      prev[2 * i] == QuantityLine(items[i]) && prev[2 * i + 1] == ItemLines(config, euros, items[i])[1]
    ensures var lines := prev + ItemLines(config, euros, items[|items| - 1]);
      |lines| == 2 * |items|
      && forall i :: 0 <= i < |items| ==>
        lines[2 * i] == QuantityLine(items[i]) && lines[2 * i + 1] == ItemLines(config, euros, items[i])[1]
  {
    var two := ItemLines(config, euros, items[|items| - 1]);
    var lines := prev + two;
    forall i | 0 <= i < |items|
      ensures lines[2 * i] == QuantityLine(items[i]) && lines[2 * i + 1] == ItemLines(config, euros, items[i])[1]
    {
      if i < |items| - 1 {
        assert lines[2 * i] == prev[2 * i] && lines[2 * i + 1] == prev[2 * i + 1];
      } else {
        assert lines[2 * i] == two[0] && lines[2 * i + 1] == two[1];
      }
    }
  }

  function ItemsList(config: ReceiptConfig, euros: int -> Text, items: seq<Item>): Bytes {
    Lines(ItemsListLines(config, euros, items))
  }

  /** One more item appends its two lines to the printed list. */
  lemma ItemsListStep(config: ReceiptConfig, euros: int -> Text, items: seq<Item>, i: nat)
    requires i < |items|
    ensures ItemsList(config, euros, items[..i + 1])
      == ItemsList(config, euros, items[..i])
         + TextToBytes(QuantityLine(items[i])) + LF + TextToBytes(ItemLines(config, euros, items[i])[1]) + LF
  {
    var before := ItemsListLines(config, euros, items[..i]);
    assert items[..i + 1][..i] == items[..i];
    var after := before + ItemLines(config, euros, items[i]);
    assert ItemsListLines(config, euros, items[..i + 1]) == after;
    LinesPrint(after);
    assert after[..|after| - 1] == before + [QuantityLine(items[i])];
    LinesPrint(before + [QuantityLine(items[i])]);
    assert (before + [QuantityLine(items[i])])[..|before|] == before;
  }

  /** `createItemsList`: for each item, its quantity line and its price line, each with a line feed. */
  method CreateItemsList(config: ReceiptConfig, euros: int -> Text, items: seq<Item>) returns (commands: Bytes)
    ensures commands == ItemsList(config, euros, items)
  {
    commands := [];
    var i := 0;
    while i < |items|
      invariant 0 <= i <= |items|
      invariant commands == ItemsList(config, euros, items[..i])
    {
      var item := items[i];
      commands := commands + TextToBytes(QuantityLine(item)) + LF;
      commands := commands + TextToBytes(ItemLines(config, euros, item)[1]) + LF;
      ItemsListStep(config, euros, items, i);
      i := i + 1;
    }
    assert items[..|items|] == items;
  }

  /** `createTotal`: item separator, the bold "TOTALE:" price line, the closing separator. */
  function TotalBlock(config: ReceiptConfig, euros: int -> Text, total: int): Bytes {
    SeparatorLine(config, config.itemSeparator) + BOLD_ON
    + TextToBytes(TotalLine(config, euros, total)) + LF + BOLD_OFF + SeparatorLine(config, [])
  }

  function TotalLine(config: ReceiptConfig, euros: int -> Text, total: int): Text {
    PaddedPriceLine(config.width, "TOTALE:", FormatPrice(config, euros, total))
  }

  /**
   * The printer sees the item-separator line, bold on, the total line, bold
   * off, and the main separator line; nothing is cut.
   */
  lemma TotalBlockDecode(config: ReceiptConfig, euros: int -> Text, total: int)
    ensures Decode(TotalBlock(config, euros, total))
      == TextCmds(RepeatText(SeparatorChar(config, config.itemSeparator), config.width)) + [Feed, Emphasis(1)]
         + TextCmds(TotalLine(config, euros, total)) + [Feed, Emphasis(0)]
         + TextCmds(RepeatText(config.separator, config.width)) + [Feed]
    ensures Clean(TotalBlock(config, euros, total)) && FullCuts(TotalBlock(config, euros, total)) == 0
  {
    var s1 := SeparatorLine(config, config.itemSeparator);
    var t := TextToBytes(TotalLine(config, euros, total));
    var s2 := SeparatorLine(config, []);
    assert Decode(t) == TextCmds(TotalLine(config, euros, total)) && Clean(t) && FullCuts(t) == 0 by {
      TextDecode(TotalLine(config, euros, total));
    }
    assert Decode(LF) == [Feed] && Clean(LF) && FullCuts(LF) == 0 by {
      ControlConstantsDecode();
    }
    assert Decode(BOLD_ON) == [Emphasis(1)] && Decode(BOLD_OFF) == [Emphasis(0)] by {
      FaceConstantsDecode();
    }
    assert Clean(BOLD_ON) && Clean(BOLD_OFF) && FullCuts(BOLD_ON) == 0 && FullCuts(BOLD_OFF) == 0 by {
      FaceConstantsDecode();
    }
    CleanAppend6(s1, BOLD_ON, t, LF, BOLD_OFF, s2);
    assert SeparatorChar(config, []) == config.separator;
    TotalRegroup(TextCmds(RepeatText(SeparatorChar(config, config.itemSeparator), config.width)),
                 TextCmds(TotalLine(config, euros, total)), TextCmds(RepeatText(config.separator, config.width)));
  }

  lemma TotalRegroup(a: seq<Cmd>, b: seq<Cmd>, c: seq<Cmd>)
    ensures (a + [Feed]) + [Emphasis(1)] + b + [Feed] + [Emphasis(0)] + (c + [Feed])
         == a + [Feed, Emphasis(1)] + b + [Feed, Emphasis(0)] + c + [Feed]
  {
  }

  /** `createFooter`: the configured footer centred when there is one, `feeds` line feeds, a full cut. */
  function ReceiptFooter(config: ReceiptConfig, feeds: nat): Bytes {
    FooterMessage(config.footer) + FeedCustom(feeds) + CUT_FULL
  }

  /** The footer's message only when one is configured; it always ends with `feeds` feeds and one full cut. */
  lemma ReceiptFooterLayout(config: ReceiptConfig, feeds: nat)
    ensures var r := ReceiptFooter(config, feeds);
      && Decode(r) == (if config.footer != [] then [Align(1)] + TextCmds(config.footer) + [Feed, Align(0)] else [])
                      + Repeat(Feed, feeds) + [Cut(0)]
      && Clean(r) && FullCuts(r) == 1
      && |r| >= feeds + 3 && r[|r| - feeds - 3..] == Repeat<Byte>(0x0A, feeds) + CUT_FULL
  {
    var m := FooterMessage(config.footer);
    var k := FeedCustom(feeds);
    FooterMessageDecode(config.footer);
    assert Decode(k) == Repeat(Feed, feeds) by {
      FeedsDecode(feeds);
    }
    CutFullDecode();
    CleanAppend3(m, k, CUT_FULL);
    ReceiptFooterEnd(config, feeds);
  }

  lemma ReceiptFooterEnd(config: ReceiptConfig, feeds: nat)
    ensures var r := ReceiptFooter(config, feeds);
      |r| >= feeds + 3 && r[|r| - feeds - 3..] == Repeat<Byte>(0x0A, feeds) + CUT_FULL
  {
    SuffixOf(FooterMessage(config.footer), FeedCustom(feeds), CUT_FULL);
  }

  lemma SuffixOf<T>(a: seq<T>, b: seq<T>, c: seq<T>)
    ensures (a + b + c)[|a + b + c| - |b| - |c|..] == b + c
  {
  }
}
