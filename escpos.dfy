/**
 * The ESC/POS command table and the byte-level helpers of the print station
 * (print-station/src/escpos-commands.js), together with a decoder that reads a
 * byte stream back as the printer does. The decoder is the reference the rest
 * of the model is checked against: every helper's output decodes to the
 * commands it is meant to send, and decoding inverts encoding.
 */
module EscPos {
  import opened Common

  type Byte = b: int | 0 <= b < 256
  type Bytes = seq<Byte>

  // Control, cut, alignment and style commands.
  const INIT: Bytes := [0x1B, 0x40]
  const LF: Bytes := [0x0A]
  const CUT_FULL: Bytes := [0x1D, 0x56, 0x00]
  const CUT_PARTIAL: Bytes := [0x1D, 0x56, 0x01]
  const ALIGN_LEFT: Bytes := [0x1B, 0x61, 0x00]
  const ALIGN_CENTER: Bytes := [0x1B, 0x61, 0x01]
  const ALIGN_RIGHT: Bytes := [0x1B, 0x61, 0x02]
  const NORMAL: Bytes := [0x1B, 0x21, 0x00]
  const BOLD_ON: Bytes := [0x1B, 0x45, 0x01]
  const BOLD_OFF: Bytes := [0x1B, 0x45, 0x00]
  const UNDERLINE_ON: Bytes := [0x1B, 0x2D, 0x01]
  const UNDERLINE_OFF: Bytes := [0x1B, 0x2D, 0x00]
  const ITALIC_ON: Bytes := [0x1B, 0x34]
  const ITALIC_OFF: Bytes := [0x1B, 0x35]
  const DOUBLE_HEIGHT: Bytes := [0x1B, 0x21, 0x10]
  const DOUBLE_WIDTH: Bytes := [0x1B, 0x21, 0x20]
  const DOUBLE_SIZE: Bytes := [0x1B, 0x21, 0x30]
  const THREE_LINES: Bytes := [0x0A, 0x0A, 0x0A]

  /** UTF-8 encoding of receipt text: one byte per character. */
  function TextToBytes(t: Text): (r: Bytes)
    ensures |r| == |t|
    ensures forall i :: 0 <= i < |t| ==> r[i] == t[i] as int
  {
    seq(|t|, i requires 0 <= i < |t| => t[i] as int)
  }

  lemma TextToBytesAppend(a: Text, b: Text)
    ensures TextToBytes(a + b) == TextToBytes(a) + TextToBytes(b)
  {
  }

  /** `FEED.CUSTOM(n)`: exactly n line feeds. */
  function FeedCustom(n: nat): (r: Bytes)
    ensures |r| == n && forall i :: 0 <= i < n ==> r[i] == 0x0A
    ensures FullCuts(r) == 0 && Clean(r)
  {
    var r := Repeat<Byte>(0x0A, n);
    FeedsDecode(n);
    r
  }

  // ---------------------------------------------------------------------
  // The printer's reading of a byte stream.

  /** One command as the printer recognises it. */
  datatype Cmd =
    | Init                        // ESC @
    | Align(n: Byte)              // ESC a n
    | PrintMode(n: Byte)          // ESC ! n
    | Emphasis(n: Byte)           // ESC E n
    | Underline(n: Byte)          // ESC - n
    | ItalicOn                    // ESC 4
    | ItalicOff                   // ESC 5
    | Cut(m: Byte)                // GS V m, m in {0, 1}
    | CutFeed(m: Byte, n: Byte)   // GS V m n, m in {0x41, 0x42}
    | Feed                        // LF
    | Char(code: Byte)            // a printable character
    | Raw(b: Byte)                // a byte that starts no known command

  function Encode1(c: Cmd): (r: Bytes)
    ensures |r| > 0
  {
    match c
    case Init => [0x1B, 0x40]
    case Align(n) => [0x1B, 0x61, n]
    case PrintMode(n) => [0x1B, 0x21, n]
    case Emphasis(n) => [0x1B, 0x45, n]
    case Underline(n) => [0x1B, 0x2D, n]
    case ItalicOn => [0x1B, 0x34]
    case ItalicOff => [0x1B, 0x35]
    case Cut(m) => [0x1D, 0x56, m]
    case CutFeed(m, n) => [0x1D, 0x56, m, n]
    case Feed => [0x0A]
    case Char(b) => [b]
    case Raw(b) => [b]
  }

  function Encode(cs: seq<Cmd>): Bytes {
    if cs == [] then [] else Encode1(cs[0]) + Encode(cs[1..])
  }

  /** The commands the decoder reads back as themselves. */
  predicate Encodable(c: Cmd) {
    match c
    case Cut(m) => m == 0 || m == 1
    case CutFeed(m, _) => m == 0x41 || m == 0x42
    case Char(b) => 0x20 <= b <= 0x7E
    case Raw(_) => false
    case _ => true
  }

  /** The first command of a non-empty stream and the number of bytes it takes. */
  function Step(b: Bytes): (r: (Cmd, nat))
    requires |b| > 0
    ensures 1 <= r.1 <= |b|
  {
    if b[0] == 0x1B && |b| >= 2 then
      if b[1] == 0x40 then (Init, 2)
      else if b[1] == 0x34 then (ItalicOn, 2)
      else if b[1] == 0x35 then (ItalicOff, 2)
      else if |b| >= 3 && b[1] == 0x61 then (Align(b[2]), 3)
      else if |b| >= 3 && b[1] == 0x21 then (PrintMode(b[2]), 3)
      else if |b| >= 3 && b[1] == 0x45 then (Emphasis(b[2]), 3)
      else if |b| >= 3 && b[1] == 0x2D then (Underline(b[2]), 3)
      else (Raw(b[0]), 1)
    else if b[0] == 0x1D && |b| >= 3 && b[1] == 0x56 then
      if b[2] == 0x00 || b[2] == 0x01 then (Cut(b[2]), 3)
      else if (b[2] == 0x41 || b[2] == 0x42) && |b| >= 4 then (CutFeed(b[2], b[3]), 4)
      else (Raw(b[0]), 1)
    else if b[0] == 0x0A then (Feed, 1)
    else if 0x20 <= b[0] <= 0x7E then (Char(b[0]), 1)
    else (Raw(b[0]), 1)
  }

  function Decode(b: Bytes): seq<Cmd>
    decreases |b|
  {
    if b == [] then [] else
    var (c, n) := Step(b);
    [c] + Decode(b[n..])
  }

  predicate NoRaw(cs: seq<Cmd>) {
    forall i :: 0 <= i < |cs| ==> !cs[i].Raw?
  }

  /** Every byte of `b` belongs to a command the printer recognises. */
  predicate Clean(b: Bytes) {
    NoRaw(Decode(b))
  }

  /** The number of full cuts (GS V 0) the printer performs on `b`. */
  function FullCuts(b: Bytes): nat {
    CountIf(Decode(b), (c: Cmd) => c == Cut(0))
  }

  /** The commands a receipt text decodes to. */
  function TextCmd(c: Ch): Cmd {
    if c == '\n' then Feed else Char(c as int)
  }

  function TextCmds(t: Text): (cs: seq<Cmd>)
    ensures |cs| == |t|
    ensures forall i :: 0 <= i < |t| ==> cs[i] == TextCmd(t[i])
  {
    seq(|t|, i requires 0 <= i < |t| => TextCmd(t[i]))
  }

  lemma StepEncode1(c: Cmd, rest: Bytes)
    requires Encodable(c)
    ensures Step(Encode1(c) + rest) == (c, |Encode1(c)|)
  {
  }

  /** Decoding inverts encoding on the commands the printer recognises. */
  lemma {:induction false} DecodeEncode(cs: seq<Cmd>)
    requires forall i :: 0 <= i < |cs| ==> Encodable(cs[i])
    ensures Decode(Encode(cs)) == cs
  {
    if cs != [] {
      var e := Encode1(cs[0]);
      var rest := Encode(cs[1..]);
      StepEncode1(cs[0], rest);
      assert (e + rest)[|e|..] == rest;
      DecodeEncode(cs[1..]);
    }
  }

  lemma StepPrefix(b: Bytes)
    requires |b| > 0
    ensures Encode1(Step(b).0) == b[..Step(b).1]
  {
  }

  /** Encoding inverts decoding on every byte stream: nothing is lost. */
  lemma {:induction false} EncodeDecode(b: Bytes)
    ensures Encode(Decode(b)) == b
    decreases |b|
  {
    if b != [] {
      var step := Step(b);
      var rest := Decode(b[step.1..]);
      DecodeUnfold(b);
      EncodeCons(step.0, rest);
      StepPrefix(b);
      EncodeDecode(b[step.1..]);
      assert b == b[..step.1] + b[step.1..];
    }
  }

  lemma DecodeUnfold(b: Bytes)
    requires |b| > 0
    ensures Decode(b) == [Step(b).0] + Decode(b[Step(b).1..])
  {
  }

  lemma EncodeCons(c: Cmd, rest: seq<Cmd>)
    ensures Encode([c] + rest) == Encode1(c) + Encode(rest)
  {
    assert ([c] + rest)[1..] == rest;
  }

  lemma StepAppend(a: Bytes, c: Bytes)
    requires |a| > 0 && !Step(a).0.Raw?
    ensures Step(a + c) == Step(a)
  {
  }

  /** A clean stream decodes independently of what follows it. */
  lemma {:induction false} DecodeAppend(a: Bytes, c: Bytes)
    requires Clean(a)
    ensures Decode(a + c) == Decode(a) + Decode(c)
    decreases |a|
  {
    if a == [] {
      assert a + c == c;
    } else {
      var n := CleanHead(a);
      DecodeAppend(a[n..], c);
      DecodeAppendCons(a, c);
    }
  }

  /** The inductive step of DecodeAppend: one known command in front. */
  lemma DecodeAppendCons(a: Bytes, c: Bytes)
    requires |a| > 0 && !Step(a).0.Raw?
    requires Decode(a[Step(a).1..] + c) == Decode(a[Step(a).1..]) + Decode(c)
    ensures Decode(a + c) == Decode(a) + Decode(c)
  {
    var tail := a[Step(a).1..];
    var x := DecodeAppendStep(a, c);
    DecodeUnfold(a);
    ConsAppend(x, Decode(a + c), Decode(tail + c), Decode(tail), Decode(c), Decode(a));
  }

  lemma ConsAppend<T>(x: T, xtc: seq<T>, tc: seq<T>, t: seq<T>, c: seq<T>, xt: seq<T>)
    requires xtc == [x] + tc && tc == t + c && xt == [x] + t
    ensures xtc == xt + c
  {
  }

  /** The first command of a clean stream is a known one, and what follows it is clean. */
  lemma CleanHead(a: Bytes) returns (n: nat)
    requires Clean(a) && |a| > 0
    ensures n == Step(a).1 && !Step(a).0.Raw? && Clean(a[n..])
    ensures Decode(a) == [Step(a).0] + Decode(a[n..])
  {
    n := Step(a).1;
    DecodeUnfold(a);
    assert Decode(a)[0] == Step(a).0;
    forall i | 0 <= i < |Decode(a[n..])| ensures !Decode(a[n..])[i].Raw? {
      assert Decode(a[n..])[i] == Decode(a)[i + 1];
    }
  }

  /** Appending bytes after a known first command leaves that command alone. */
  lemma DecodeAppendStep(a: Bytes, c: Bytes) returns (x: Cmd)
    requires |a| > 0 && !Step(a).0.Raw?
    ensures x == Step(a).0
    ensures Decode(a + c) == [x] + Decode(a[Step(a).1..] + c)
  {
    x := Step(a).0;
    var n := Step(a).1;
    StepAppend(a, c);
    DecodeUnfold(a + c);
    assert (a + c)[n..] == a[n..] + c;
  }

  /** Concatenating clean streams is clean, and full cuts add up. */
  lemma CleanAppend(a: Bytes, c: Bytes)
    requires Clean(a) && Clean(c)
    ensures Decode(a + c) == Decode(a) + Decode(c)
    ensures Clean(a + c)
    ensures FullCuts(a + c) == FullCuts(a) + FullCuts(c)
  {
    DecodeAppend(a, c);
    CountIfAppend(Decode(a), Decode(c), (x: Cmd) => x == Cut(0));
  }

  lemma {:induction false} TextDecode(t: Text)
    ensures Decode(TextToBytes(t)) == TextCmds(t)
    ensures Clean(TextToBytes(t)) && FullCuts(TextToBytes(t)) == 0
  {
    var b := TextToBytes(t);
    if t != [] {
      assert Step(b) == (TextCmd(t[0]), 1);
      assert b[1..] == TextToBytes(t[1..]);
      TextDecode(t[1..]);
      assert Decode(b) == [TextCmd(t[0])] + TextCmds(t[1..]);
    }
    assert Decode(b) == TextCmds(t);
    assert CountIf(TextCmds(t), (c: Cmd) => c == Cut(0)) == 0 by {
      NoCutsCount(TextCmds(t));
    }
  }

  lemma {:induction false} NoCutsCount(cs: seq<Cmd>)
    requires forall i :: 0 <= i < |cs| ==> cs[i].Feed? || cs[i].Char?
    ensures CountIf(cs, (c: Cmd) => c == Cut(0)) == 0
  {
    if cs != [] {
      NoCutsCount(cs[1..]);
    }
  }

  lemma {:induction false} FeedsDecode(n: nat)
    ensures Decode(Repeat<Byte>(0x0A, n)) == Repeat(Feed, n)
    ensures Clean(Repeat<Byte>(0x0A, n)) && FullCuts(Repeat<Byte>(0x0A, n)) == 0
  {
    if n > 0 {
      var b: Bytes := Repeat<Byte>(0x0A, n);
      assert Step(b) == (Feed, 1);
      assert b[1..] == Repeat<Byte>(0x0A, n - 1);
      FeedsDecode(n - 1);
      assert Decode(b) == [Feed] + Decode(b[1..]);
      assert Repeat(Feed, n) == [Feed] + Repeat(Feed, n - 1);
    } else {
      assert Repeat<Byte>(0x0A, n) == [] && Repeat(Feed, n) == [];
    }
    NoCutsCount(Repeat(Feed, n));
  }

  lemma Decode1(c: Cmd)
    requires Encodable(c)
    ensures Decode(Encode1(c)) == [c] && Clean(Encode1(c))
    ensures FullCuts(Encode1(c)) == (if c == Cut(0) then 1 else 0)
  {
    StepEncode1(c, []);
    assert Encode1(c) + [] == Encode1(c);
    assert Encode1(c)[|Encode1(c)|..] == [];
  }

  /** What the control, feed and cut constants mean to the printer. */
  lemma ControlConstantsDecode()
    ensures Decode(INIT) == [Init] && Decode(LF) == [Feed]
    ensures Decode(CUT_FULL) == [Cut(0)] && Decode(CUT_PARTIAL) == [Cut(1)]
    ensures Decode(THREE_LINES) == [Feed, Feed, Feed]
    ensures Clean(INIT) && Clean(LF) && Clean(CUT_FULL) && Clean(CUT_PARTIAL) && Clean(THREE_LINES)
    ensures FullCuts(CUT_FULL) == 1
    ensures FullCuts(INIT) == FullCuts(LF) == FullCuts(CUT_PARTIAL) == FullCuts(THREE_LINES) == 0
  {
    InitDecode();
    LfDecode();
    CutFullDecode();
    assert Decode(CUT_PARTIAL) == [Cut(1)] && Clean(CUT_PARTIAL) && FullCuts(CUT_PARTIAL) == 0 by { Decode1(Cut(1)); }
    ThreeLinesDecode();
  }

  lemma InitDecode()
    ensures Decode(INIT) == [Init] && Clean(INIT) && FullCuts(INIT) == 0
  {
    Decode1(Init);
  }

  lemma LfDecode()
    ensures Decode(LF) == [Feed] && Clean(LF) && FullCuts(LF) == 0
  {
    Decode1(Feed);
  }

  lemma CutFullDecode()
    ensures Decode(CUT_FULL) == [Cut(0)] && Clean(CUT_FULL) && FullCuts(CUT_FULL) == 1
  {
    Decode1(Cut(0));
  }

  lemma ThreeLinesDecode()
    ensures Decode(THREE_LINES) == [Feed, Feed, Feed] && Clean(THREE_LINES) && FullCuts(THREE_LINES) == 0
  {
    FeedsDecode(3);
    ThreeFeedBytes();
    assert Repeat(Feed, 3) == [Feed, Feed, Feed];
  }

  lemma ThreeFeedBytes()
    ensures Repeat<Byte>(0x0A, 3) == THREE_LINES
  {
    assert Repeat<Byte>(0x0A, 3) == [0x0A, 0x0A, 0x0A];
  }

  /** What the alignment constants mean: ESC a n with n = 0, 1, 2. */
  lemma AlignConstantsDecode()
    ensures Decode(ALIGN_LEFT) == [Align(0)] && Decode(ALIGN_CENTER) == [Align(1)]
    ensures Decode(ALIGN_RIGHT) == [Align(2)]
    ensures Clean(ALIGN_LEFT) && Clean(ALIGN_CENTER) && Clean(ALIGN_RIGHT)
    ensures FullCuts(ALIGN_LEFT) == FullCuts(ALIGN_CENTER) == FullCuts(ALIGN_RIGHT) == 0
  {
    Decode1(Align(0));
    Decode1(Align(1));
    Decode1(Align(2));
  }

  /** What the print-mode constants mean: ESC ! n with n = 0, 0x10, 0x20, 0x30. */
  lemma ModeConstantsDecode()
    ensures Decode(NORMAL) == [PrintMode(0)] && Decode(DOUBLE_SIZE) == [PrintMode(0x30)]
    ensures Decode(DOUBLE_HEIGHT) == [PrintMode(0x10)] && Decode(DOUBLE_WIDTH) == [PrintMode(0x20)]
    ensures Clean(NORMAL) && Clean(DOUBLE_SIZE) && Clean(DOUBLE_HEIGHT) && Clean(DOUBLE_WIDTH)
    ensures FullCuts(NORMAL) == FullCuts(DOUBLE_SIZE) == FullCuts(DOUBLE_HEIGHT) == FullCuts(DOUBLE_WIDTH) == 0
  {
    Decode1(PrintMode(0));
    Decode1(PrintMode(0x30));
    Decode1(PrintMode(0x10));
    Decode1(PrintMode(0x20));
  }

  /** What the emphasis, underline and italic constants mean. */
  lemma FaceConstantsDecode()
    ensures Decode(BOLD_ON) == [Emphasis(1)] && Decode(BOLD_OFF) == [Emphasis(0)]
    ensures Decode(UNDERLINE_ON) == [Underline(1)] && Decode(UNDERLINE_OFF) == [Underline(0)]
    ensures Decode(ITALIC_ON) == [ItalicOn] && Decode(ITALIC_OFF) == [ItalicOff]
    ensures Clean(BOLD_ON) && Clean(BOLD_OFF) && Clean(UNDERLINE_ON) && Clean(UNDERLINE_OFF)
    ensures Clean(ITALIC_ON) && Clean(ITALIC_OFF)
    ensures FullCuts(BOLD_ON) == FullCuts(BOLD_OFF) == FullCuts(UNDERLINE_ON) == FullCuts(UNDERLINE_OFF) == 0
    ensures FullCuts(ITALIC_ON) == FullCuts(ITALIC_OFF) == 0
  {
    Decode1(Emphasis(1));
    Decode1(Emphasis(0));
    Decode1(Underline(1));
    Decode1(Underline(0));
    Decode1(ItalicOn);
    Decode1(ItalicOff);
  }

  // ---------------------------------------------------------------------
  // HELPERS

  /** Three clean pieces: their commands concatenate and their full cuts add up. */
  lemma CleanAppend3(a: Bytes, b: Bytes, c: Bytes)
    requires Clean(a) && Clean(b) && Clean(c)
    ensures Decode(a + b + c) == Decode(a) + Decode(b) + Decode(c)
    ensures Clean(a + b + c)
    ensures FullCuts(a + b + c) == FullCuts(a) + FullCuts(b) + FullCuts(c)
  {
    CleanAppend(a, b);
    CleanAppend(a + b, c);
  }

  lemma ConcatAssoc<T>(a: seq<T>, b: seq<T>, c: seq<T>, d: seq<T>)
    ensures a + b + c + d == a + (b + c) + d == a + (b + c + d)
  {
  }

  /** Six clean pieces pushed in turn. */
  lemma CleanAppend6(a: Bytes, b: Bytes, c: Bytes, d: Bytes, e: Bytes, f: Bytes)
    requires Clean(a) && Clean(b) && Clean(c) && Clean(d) && Clean(e) && Clean(f)
    ensures Decode(a + b + c + d + e + f) == Decode(a) + Decode(b) + Decode(c) + Decode(d) + Decode(e) + Decode(f)
    ensures Clean(a + b + c + d + e + f)
    ensures FullCuts(a + b + c + d + e + f)
      == FullCuts(a) + FullCuts(b) + FullCuts(c) + FullCuts(d) + FullCuts(e) + FullCuts(f)
  {
    CleanAppend3(a, b, c);
    CleanAppend3(a + b + c, d, e);
    CleanAppend(a + b + c + d + e, f);
  }

  /** The clean-and-cuts half of CleanAppend, for proofs that need no decoded commands. */
  lemma CleanJoin(a: Bytes, c: Bytes)
    requires Clean(a) && Clean(c)
    ensures Clean(a + c) && FullCuts(a + c) == FullCuts(a) + FullCuts(c)
  {
    CleanAppend(a, c);
  }

  /** Six clean pieces of which only the last one cuts: the whole cuts once. */
  lemma CutOnceAtEnd(r: Bytes, a: Bytes, b: Bytes, c: Bytes, d: Bytes, e: Bytes, f: Bytes)
    requires r == a + b + c + d + e + f
    requires Clean(a) && Clean(b) && Clean(c) && Clean(d) && Clean(e) && Clean(f)
    requires FullCuts(a) == FullCuts(b) == FullCuts(c) == FullCuts(d) == FullCuts(e) == 0 && FullCuts(f) == 1
    ensures Clean(r) && FullCuts(r) == 1
  {
    CleanJoin6(a, b, c, d, e, f);
  }

  /** The clean-and-cuts half of CleanAppend6. */
  lemma CleanJoin6(a: Bytes, b: Bytes, c: Bytes, d: Bytes, e: Bytes, f: Bytes)
    requires Clean(a) && Clean(b) && Clean(c) && Clean(d) && Clean(e) && Clean(f)
    ensures Clean(a + b + c + d + e + f)
    ensures FullCuts(a + b + c + d + e + f)
      == FullCuts(a) + FullCuts(b) + FullCuts(c) + FullCuts(d) + FullCuts(e) + FullCuts(f)
  {
    CleanAppend6(a, b, c, d, e, f);
  }

  lemma StartsWithInit7(a: Bytes, b: Bytes, c: Bytes, d: Bytes, e: Bytes, f: Bytes, g: Bytes)
    ensures |INIT + a + b + c + d + e + f + g| >= 2 && (INIT + a + b + c + d + e + f + g)[..2] == INIT
  {
  }

  lemma TextCmdsAppend(a: Text, b: Text)
    ensures TextCmds(a + b) == TextCmds(a) + TextCmds(b)
  {
  }

  /** A line of text decodes to its characters and one feed. */
  lemma LineDecode(t: Text)
    ensures Decode(TextToBytes(t + "\n")) == TextCmds(t) + [Feed]
    ensures Clean(TextToBytes(t + "\n")) && FullCuts(TextToBytes(t + "\n")) == 0
  {
    TextDecode(t + "\n");
    TextCmdsAppend(t, "\n");
  }

  /** The printer command each style name of `TEXT_STYLE` stands for. */
  function StyleCmd(style: string): Option<Cmd> {
    if style == "NORMAL" then Some(PrintMode(0))
    else if style == "BOLD_ON" then Some(Emphasis(1))
    else if style == "BOLD_OFF" then Some(Emphasis(0))
    else if style == "UNDERLINE_ON" then Some(Underline(1))
    else if style == "UNDERLINE_OFF" then Some(Underline(0))
    else if style == "ITALIC_ON" then Some(ItalicOn)
    else if style == "ITALIC_OFF" then Some(ItalicOff)
    else if style == "DOUBLE_HEIGHT" then Some(PrintMode(0x10))
    else if style == "DOUBLE_WIDTH" then Some(PrintMode(0x20))
    else if style == "DOUBLE_SIZE" then Some(PrintMode(0x30))
    else None
  }

  /** `TEXT_STYLE[style]`: the bytes of a known style name. */
  function TextStyle(style: string): Option<Bytes> {
    if style == "NORMAL" then Some(NORMAL)
    else if style == "BOLD_ON" then Some(BOLD_ON)
    else if style == "BOLD_OFF" then Some(BOLD_OFF)
    else if style == "UNDERLINE_ON" then Some(UNDERLINE_ON)
    else if style == "UNDERLINE_OFF" then Some(UNDERLINE_OFF)
    else if style == "ITALIC_ON" then Some(ITALIC_ON)
    else if style == "ITALIC_OFF" then Some(ITALIC_OFF)
    else if style == "DOUBLE_HEIGHT" then Some(DOUBLE_HEIGHT)
    else if style == "DOUBLE_WIDTH" then Some(DOUBLE_WIDTH)
    else if style == "DOUBLE_SIZE" then Some(DOUBLE_SIZE)
    else None
  }

  /** Every entry of the style table sends exactly the command its name says, and nothing is cut. */
  lemma TextStyleDecode(style: string)
    ensures TextStyle(style).Some? <==> StyleCmd(style).Some?
    ensures TextStyle(style).Some? ==>
      Decode(TextStyle(style).value) == [StyleCmd(style).value] && Clean(TextStyle(style).value)
      && FullCuts(TextStyle(style).value) == 0
  {
    if StyleCmd(style).Some? {
      Decode1(StyleCmd(style).value);
    }
  }

  /** `ALIGN[alignment]`: the bytes of a known alignment name. */
  function AlignBytes(alignment: string): Option<Bytes> {
    if alignment == "LEFT" then Some(ALIGN_LEFT)
    else if alignment == "CENTER" then Some(ALIGN_CENTER)
    else if alignment == "RIGHT" then Some(ALIGN_RIGHT)
    else None
  }

  function AlignCode(alignment: string): Byte {
    if alignment == "CENTER" then 1 else if alignment == "RIGHT" then 2 else 0
  }

  /** The three alignment names select ESC a 0, 1 and 2; any other name selects nothing. */
  lemma AlignBytesDecode(alignment: string)
    ensures AlignBytes(alignment).Some? <==> alignment in {"LEFT", "CENTER", "RIGHT"}
    ensures AlignBytes(alignment).Some? ==>
      Decode(AlignBytes(alignment).value) == [Align(AlignCode(alignment))]
      && Clean(AlignBytes(alignment).value) && FullCuts(AlignBytes(alignment).value) == 0
  {
    if alignment in {"LEFT", "CENTER", "RIGHT"} {
      Decode1(Align(AlignCode(alignment)));
    }
  }

  function OptCmd(c: Option<Cmd>): seq<Cmd> {
    if c.Some? then [c.value] else []
  }

  function OptBytes(b: Option<Bytes>): Bytes {
    if b.Some? then b.value else []
  }

  /** `styledText`: the style prefix (only for a known style), the text, then NORMAL. */
  function StyledText(text: Text, style: string): (r: Bytes)
    ensures |r| >= 3 && r[|r| - 3..] == NORMAL
    ensures r[..|r| - 3] == OptBytes(TextStyle(style)) + TextToBytes(text)
  {
    OptBytes(TextStyle(style)) + TextToBytes(text) + NORMAL
  }

  /** The printer sees the style command, the characters, and a return to normal mode. */
  lemma StyledTextDecode(text: Text, style: string)
    ensures Decode(StyledText(text, style)) == OptCmd(StyleCmd(style)) + TextCmds(text) + [PrintMode(0)]
    ensures Clean(StyledText(text, style)) && FullCuts(StyledText(text, style)) == 0
  {
    var prefix := OptBytes(TextStyle(style));
    TextStyleDecode(style);
    assert Decode(prefix) == OptCmd(StyleCmd(style)) && Clean(prefix) && FullCuts(prefix) == 0 by {
      if prefix == [] { assert Decode(prefix) == []; }
    }
    TextDecode(text);
    Decode1(PrintMode(0));
    CleanAppend3(prefix, TextToBytes(text), NORMAL);
  }

  /** `alignedText`: the alignment (only for a known name), the text, then ALIGN.LEFT. */
  function AlignedText(text: Text, alignment: string): (r: Bytes)
    ensures |r| >= 3 && r[|r| - 3..] == ALIGN_LEFT
    ensures r[..|r| - 3] == OptBytes(AlignBytes(alignment)) + TextToBytes(text)
  {
    OptBytes(AlignBytes(alignment)) + TextToBytes(text) + ALIGN_LEFT
  }

  /** The printer sees the alignment, the characters, and left alignment restored. */
  lemma AlignedTextDecode(text: Text, alignment: string)
    ensures Decode(AlignedText(text, alignment))
      == (if alignment in {"LEFT", "CENTER", "RIGHT"} then [Align(AlignCode(alignment))] else [])
         + TextCmds(text) + [Align(0)]
    ensures Clean(AlignedText(text, alignment)) && FullCuts(AlignedText(text, alignment)) == 0
  {
    var prefix := OptBytes(AlignBytes(alignment));
    AlignBytesDecode(alignment);
    assert Clean(prefix) && FullCuts(prefix) == 0 by {
      if prefix == [] { assert Decode(prefix) == []; }
    }
    TextDecode(text);
    Decode1(Align(0));
    CleanAppend3(prefix, TextToBytes(text), ALIGN_LEFT);
  }

  /** Left-aligned text: ESC a 0, the characters, ESC a 0 again. */
  lemma LeftAlignedDecode(text: Text)
    ensures Decode(AlignedText(text, "LEFT")) == [Align(0)] + TextCmds(text) + [Align(0)]
    ensures Clean(AlignedText(text, "LEFT")) && FullCuts(AlignedText(text, "LEFT")) == 0
  {
    assert AlignedText(text, "LEFT") == ALIGN_LEFT + TextToBytes(text) + ALIGN_LEFT;
    assert Decode(ALIGN_LEFT) == [Align(0)] && Clean(ALIGN_LEFT) && FullCuts(ALIGN_LEFT) == 0 by {
      Decode1(Align(0));
    }
    TextDecode(text);
    CleanAppend3(ALIGN_LEFT, TextToBytes(text), ALIGN_LEFT);
  }

  /** `separator(c, n)`: `c` repeated n times, then a line feed. */
  function Separator(c: Text, n: nat): (r: Bytes)
    ensures |r| == n * |c| + 1 && r[|r| - 1] == 0x0A
    ensures Decode(r) == TextCmds(RepeatText(c, n)) + [Feed]
    ensures Clean(r) && FullCuts(r) == 0
  {
    LineDecode(RepeatText(c, n));
    TextToBytes(RepeatText(c, n) + "\n")
  }

  /** `substring(0, end)`: JavaScript clamps `end` into 0..|s|. */
  function Prefix(s: Text, end: int): (r: Text)
    ensures |r| == if end < 0 then 0 else if end > |s| then |s| else end
    ensures r == s[..|r|]
  {
    if end < 0 then [] else if end > |s| then s else s[..end]
  }

  /**
   * `priceLine`: the description, padded with spaces so that the price ends
   * the line, or cut and suffixed with "..." when it does not fit. None when
   * the space count would be negative (String.repeat throws a RangeError).
   */
  function PriceLineText(description: Text, price: Text, lineWidth: int): Option<Text> {
    var desc := PriceDescription(description, price, lineWidth);
    var spaces := PriceSpaces(description, price, lineWidth);
    if spaces < 0 then None else Some(desc + Repeat(' ', spaces) + price + "\n")
  }

  /** The description as `priceLine` prints it: whole when it fits, otherwise cut and ended with "...". */
  function PriceDescription(description: Text, price: Text, lineWidth: int): Text {
    var maxDescLength := lineWidth - |price| - 1;
    if |description| > maxDescLength then Prefix(description, maxDescLength - 3) + "..." else description
  }

  /** The count `priceLine` passes to `repeat`. */
  function PriceSpaces(description: Text, price: Text, lineWidth: int): int {
    lineWidth - |PriceDescription(description, price, lineWidth)| - |price|
  }

  /** The bytes of the price line: plain characters and one final feed. */
  function PriceLine(description: Text, price: Text, lineWidth: int): (r: Option<Bytes>)
    ensures r.Some? <==> PriceLineText(description, price, lineWidth).Some?
    ensures r.Some? ==>
      && Clean(r.value) && FullCuts(r.value) == 0
      && |r.value| == |PriceLineText(description, price, lineWidth).value|
      && r.value[|r.value| - 1] == 0x0A
  {
    var t := PriceLineText(description, price, lineWidth);
    if t.Some? then
      TextDecode(t.value);
      Some(TextToBytes(t.value))
    else None
  }

  /**
   * With room for the price and an ellipsis the line is exactly `lineWidth`
   * characters before its line feed and ends with the whole price; a
   * description longer than `lineWidth - |price| - 1` is cut and ends in "...".
   */
  lemma PriceLineLayout(description: Text, price: Text, lineWidth: int)
    requires lineWidth >= |price| + 4
    ensures PriceLineText(description, price, lineWidth).Some?
    ensures var line := PriceLineText(description, price, lineWidth).value;
      && |line| == lineWidth + 1
      && line[lineWidth - |price|..] == price + "\n"
      && (|description| > lineWidth - |price| - 1 ==>
            line[..lineWidth - |price| - 1] == description[..lineWidth - |price| - 4] + "...")
      && (|description| <= lineWidth - |price| - 1 ==> line[..|description|] == description)
  {
    var m := lineWidth - |price| - 1;
    var desc := if |description| > m then Prefix(description, m - 3) + "..." else description;
    assert |desc| <= m;
    var line := desc + Repeat(' ', lineWidth - |desc| - |price|) + price + "\n";
    assert line[lineWidth - |price|..] == price + "\n";
    assert line[..|desc|] == desc;
  }

  /** The helper fails exactly when the description must be cut and fewer than two columns remain for it. */
  lemma PriceLineFails(description: Text, price: Text, lineWidth: int)
    ensures PriceLineText(description, price, lineWidth).None?
        <==> |description| > lineWidth - |price| - 1 && lineWidth - |price| - 1 < 2
  {
  }

  /** `centerText`: max(0, floor((width - |text|) / 2)) spaces, the text, a line feed. */
  function CenterPadding(text: Text, lineWidth: int): nat {
    if lineWidth - |text| <= 0 then 0 else (lineWidth - |text|) / 2
  }

  function CenterText(text: Text, lineWidth: int): (r: Bytes)
    ensures Clean(r) && FullCuts(r) == 0
    ensures Decode(r) == Repeat(Char(0x20), CenterPadding(text, lineWidth)) + TextCmds(text) + [Feed]
  {
    var pad: Text := Repeat(' ', CenterPadding(text, lineWidth));
    LineDecode(pad + text);
    TextCmdsAppend(pad, text);
    assert TextCmds(pad) == Repeat(Char(0x20), CenterPadding(text, lineWidth));
    TextToBytes(pad + text + "\n")
  }

  /** A text that fits is centred to within one column: the right margin is the left one or one more. */
  lemma CenterTextBalanced(text: Text, lineWidth: int)
    requires |text| <= lineWidth
    ensures var left := CenterPadding(text, lineWidth);
      var right := lineWidth - |text| - left;
      right == left || right == left + 1
  {
  }

  /** A line for a non-empty text, nothing for the empty one (`subtitle ? ... : ''`). */
  function OptionalLine(t: Text): Bytes {
    if t != [] then TextToBytes(t + "\n") else []
  }

  lemma OptionalLineDecode(t: Text)
    ensures Decode(OptionalLine(t)) == (if t != [] then TextCmds(t) + [Feed] else [])
    ensures Clean(OptionalLine(t)) && FullCuts(OptionalLine(t)) == 0
  {
    if t == [] { assert Decode(OptionalLine(t)) == []; } else { LineDecode(t); }
  }

  /** `header(title, subtitle)`. */
  function Header(title: Text, subtitle: Text): (r: Bytes)
    ensures |r| >= 9 && r[..6] == ALIGN_CENTER + DOUBLE_SIZE && r[|r| - 3..] == ALIGN_LEFT
  {
    ALIGN_CENTER + DOUBLE_SIZE + TextToBytes(title + "\n") + NORMAL + OptionalLine(subtitle) + ALIGN_LEFT
  }

  /** The title block: centred, double size, the title line, back to normal size. */
  lemma HeaderTitleDecode(title: Text)
    ensures var top := ALIGN_CENTER + DOUBLE_SIZE + TextToBytes(title + "\n") + NORMAL;
      Decode(top) == [Align(1), PrintMode(0x30)] + TextCmds(title) + [Feed, PrintMode(0)]
      && Clean(top) && FullCuts(top) == 0
  {
    var a := ALIGN_CENTER + DOUBLE_SIZE;
    var line := TextToBytes(title + "\n");
    CenterDoubleDecode();
    assert Decode(line) == TextCmds(title) + [Feed] && Clean(line) && FullCuts(line) == 0 by {
      LineDecode(title);
    }
    assert Decode(NORMAL) == [PrintMode(0)] && Clean(NORMAL) && FullCuts(NORMAL) == 0 by {
      Decode1(PrintMode(0));
    }
    CleanAppend3(a, line, NORMAL);
    LineBetween(Decode(a + line + NORMAL), Decode(a), Decode(line), Decode(NORMAL), TextCmds(title), Feed, PrintMode(0));
  }

  lemma CenterDoubleDecode()
    ensures var a := ALIGN_CENTER + DOUBLE_SIZE;
      Decode(a) == [Align(1), PrintMode(0x30)] && Clean(a) && FullCuts(a) == 0
  {
    Decode1(Align(1));
    Decode1(PrintMode(0x30));
    CleanAppend(ALIGN_CENTER, DOUBLE_SIZE);
  }

  /** Three pieces of which the middle one is a line and the last one a single command. */
  lemma LineBetween<T>(all: seq<T>, x: seq<T>, y: seq<T>, z: seq<T>, t: seq<T>, f: T, p: T)
    requires all == x + y + z && y == t + [f] && z == [p]
    ensures all == x + t + [f, p]
  {
  }

  /**
   * The header prints the title centred in double size, the subtitle (when
   * non-empty) centred in normal size, and leaves the printer left-aligned
   * in normal mode.
   */
  lemma HeaderDecode(title: Text, subtitle: Text)
    ensures Decode(Header(title, subtitle))
      == [Align(1), PrintMode(0x30)] + TextCmds(title) + [Feed, PrintMode(0)]
         + (if subtitle != [] then TextCmds(subtitle) + [Feed] else []) + [Align(0)]
    ensures Clean(Header(title, subtitle)) && FullCuts(Header(title, subtitle)) == 0
  {
    HeaderTitleDecode(title);
    OptionalLineDecode(subtitle);
    Decode1(Align(0));
    CleanAppend3(ALIGN_CENTER + DOUBLE_SIZE + TextToBytes(title + "\n") + NORMAL, OptionalLine(subtitle), ALIGN_LEFT);
  }

  /** The footer's optional message: centred, then left alignment restored. */
  function FooterMessage(message: Text): Bytes {
    if message != [] then ALIGN_CENTER + TextToBytes(message + "\n") + ALIGN_LEFT else []
  }

  lemma FooterMessageDecode(message: Text)
    ensures Decode(FooterMessage(message))
      == (if message != [] then [Align(1)] + TextCmds(message) + [Feed, Align(0)] else [])
    ensures Clean(FooterMessage(message)) && FullCuts(FooterMessage(message)) == 0
  {
    if message == [] {
      assert Decode(FooterMessage(message)) == [];
    } else {
      var line := TextToBytes(message + "\n");
      assert Decode(ALIGN_CENTER) == [Align(1)] && Clean(ALIGN_CENTER) && FullCuts(ALIGN_CENTER) == 0 by {
        Decode1(Align(1));
      }
      assert Decode(ALIGN_LEFT) == [Align(0)] && Clean(ALIGN_LEFT) && FullCuts(ALIGN_LEFT) == 0 by {
        Decode1(Align(0));
      }
      assert Decode(line) == TextCmds(message) + [Feed] && Clean(line) && FullCuts(line) == 0 by {
        LineDecode(message);
      }
      CleanAppend3(ALIGN_CENTER, line, ALIGN_LEFT);
      LineBetween(Decode(FooterMessage(message)), [Align(1)], Decode(line), [Align(0)], TextCmds(message), Feed, Align(0));
    }
  }

  /** `footer(message, feedLines)`: the optional centred message, feedLines + 3 feeds, a full cut. */
  function Footer(message: Text, feedLines: nat): (r: Bytes)
    ensures |r| >= 3 && r[|r| - 3..] == CUT_FULL
  {
    FooterMessage(message) + FeedCustom(feedLines) + THREE_LINES + CUT_FULL
  }

  /** The closing run of a footer: feedLines + 3 feeds and one full cut. */
  lemma FeedAndCutDecode(feedLines: nat)
    ensures var t := FeedCustom(feedLines) + THREE_LINES + CUT_FULL;
      Decode(t) == Repeat(Feed, feedLines + 3) + [Cut(0)] && Clean(t) && FullCuts(t) == 1
  {
    var k := FeedCustom(feedLines);
    assert Decode(k) == Repeat(Feed, feedLines) && Clean(k) && FullCuts(k) == 0 by {
      FeedsDecode(feedLines);
    }
    ThreeLinesDecode();
    CutFullDecode();
    CleanAppend3(k, THREE_LINES, CUT_FULL);
    RepeatThreeMore(Feed, feedLines);
  }

  lemma RepeatThreeMore<T>(x: T, n: nat)
    ensures Repeat(x, n) + [x, x, x] == Repeat(x, n + 3)
  {
    var r := Repeat(x, n) + [x, x, x];
    assert forall i :: 0 <= i < n + 3 ==> r[i] == x;
  }

  /** The footer ends the receipt with feedLines + 3 feeds and exactly one full cut. */
  lemma FooterDecode(message: Text, feedLines: nat)
    ensures Decode(Footer(message, feedLines))
      == (if message != [] then [Align(1)] + TextCmds(message) + [Feed, Align(0)] else [])
         + Repeat(Feed, feedLines + 3) + [Cut(0)]
    ensures Clean(Footer(message, feedLines)) && FullCuts(Footer(message, feedLines)) == 1
  {
    var m := FooterMessage(message);
    var t := FeedCustom(feedLines) + THREE_LINES + CUT_FULL;
    FooterMessageDecode(message);
    FeedAndCutDecode(feedLines);
    ConcatAssoc(m, FeedCustom(feedLines), THREE_LINES, CUT_FULL);
    CleanAppend(m, t);
  }

  // ---------------------------------------------------------------------
  // Command lists built by successive `commands.push(...part)`.

  /** The bytes of `parts` pushed one after the other. */
  function Concat(parts: seq<Bytes>): Bytes {
    if parts == [] then [] else Concat(parts[..|parts| - 1]) + parts[|parts| - 1]
  }

  predicate AllClean(parts: seq<Bytes>) {
    forall i :: 0 <= i < |parts| ==> Clean(parts[i])
  }

  /** The full cuts of the parts taken separately. */
  function SumCuts(parts: seq<Bytes>): nat {
    if parts == [] then 0 else SumCuts(parts[..|parts| - 1]) + FullCuts(parts[|parts| - 1])
  }

  /** Pushing the parts of two lists one after the other pushes the concatenation of the lists. */
  lemma {:induction false} ConcatAppend(a: seq<Bytes>, b: seq<Bytes>)
    ensures Concat(a + b) == Concat(a) + Concat(b)
    ensures SumCuts(a + b) == SumCuts(a) + SumCuts(b)
    decreases |b|
  {
    if b == [] {
      assert a + b == a;
    } else {
      var b' := b[..|b| - 1];
      var x := b[|b| - 1];
      assert a + b == (a + b') + [x] && b == b' + [x];
      ConcatSnoc(a + b', x);
      ConcatSnoc(b', x);
      ConcatAppend(a, b');
      SnocAssoc(Concat(a + b), Concat(a + b'), Concat(a), Concat(b'), Concat(b), x);
    }
  }

  lemma ConcatSnoc(p: seq<Bytes>, x: Bytes)
    ensures Concat(p + [x]) == Concat(p) + x && SumCuts(p + [x]) == SumCuts(p) + FullCuts(x)
  {
    assert (p + [x])[..|p|] == p;
  }

  lemma SnocAssoc<T>(whole: seq<T>, init: seq<T>, a: seq<T>, b': seq<T>, b: seq<T>, x: seq<T>)
    requires whole == init + x && init == a + b' && b == b' + x
    ensures whole == a + b
  {
  }

  /** Clean parts give a clean command list whose full cuts are the sum of the parts' cuts. */
  lemma {:induction false} ConcatClean(parts: seq<Bytes>)
    requires AllClean(parts)
    ensures Clean(Concat(parts)) && FullCuts(Concat(parts)) == SumCuts(parts)
    decreases |parts|
  {
    if parts == [] {
      assert Decode([]) == [];
    } else {
      var init := parts[..|parts| - 1];
      assert AllClean(init) by {
        forall i | 0 <= i < |init| ensures Clean(init[i]) { assert init[i] == parts[i]; }
      }
      ConcatClean(init);
      CleanAppend(Concat(init), parts[|parts| - 1]);
    }
  }

  /** The first part pushed is a prefix of the whole command list. */
  lemma {:induction false} ConcatStartsWith(parts: seq<Bytes>)
    requires |parts| > 0
    ensures |Concat(parts)| >= |parts[0]| && Concat(parts)[..|parts[0]|] == parts[0]
    decreases |parts|
  {
    if |parts| > 1 {
      var init := parts[..|parts| - 1];
      ConcatStartsWith(init);
      assert init[0] == parts[0];
    } else {
      assert Concat(parts) == Concat([]) + parts[0];
    }
  }

  /** The last part pushed is a suffix of the whole command list. */
  lemma ConcatEndsWith(parts: seq<Bytes>)
    requires |parts| > 0
    ensures |Concat(parts)| >= |parts[|parts| - 1]|
    ensures Concat(parts)[|Concat(parts)| - |parts[|parts| - 1]|..] == parts[|parts| - 1]
  {
  }

  /** The commands of the parts decoded one by one, in order. */
  function DecodeAll(parts: seq<Bytes>): seq<Cmd> {
    if parts == [] then [] else DecodeAll(parts[..|parts| - 1]) + Decode(parts[|parts| - 1])
  }

  /** Clean parts decode independently: the printer sees each part's commands in turn. */
  lemma {:induction false} DecodeConcat(parts: seq<Bytes>)
    requires AllClean(parts)
    ensures Decode(Concat(parts)) == DecodeAll(parts)
    decreases |parts|
  {
    if parts == [] {
      assert Decode([]) == [];
    } else {
      var init := parts[..|parts| - 1];
      assert AllClean(init) by {
        forall i | 0 <= i < |init| ensures Clean(init[i]) { assert init[i] == parts[i]; }
      }
      DecodeConcat(init);
      ConcatClean(init);
      CleanAppend(Concat(init), parts[|parts| - 1]);
    }
  }

  // ---------------------------------------------------------------------
  // Plain text jobs: optional pushes, the style prefix and the text body.

  /** `if (b) commands.push(...bytes)`. */
  function When(b: bool, bytes: Bytes): Bytes {
    if b then bytes else []
  }

  function CmdsWhen(b: bool, cs: seq<Cmd>): seq<Cmd> {
    if b then cs else []
  }

  /** An optional one-command push decodes to that command or to nothing. */
  lemma WhenDecode(b: bool, c: Cmd)
    requires Encodable(c) && c != Cut(0)
    ensures Decode(When(b, Encode1(c))) == CmdsWhen(b, [c])
    ensures Clean(When(b, Encode1(c))) && FullCuts(When(b, Encode1(c))) == 0
  {
    Decode1(c);
    assert Decode([]) == [];
  }

  /** `text.endsWith('\n')`. */
  predicate EndsWithNewline(t: Text) {
    |t| > 0 && t[|t| - 1] == '\n'
  }

  /** INIT, then centring, bold and double size, each only when asked for, in that order. */
  function OpenStyles(center: bool, bold: bool, large: bool): Bytes {
    INIT + When(center, ALIGN_CENTER) + When(bold, BOLD_ON) + When(large, DOUBLE_SIZE)
  }

  lemma OpenStylesDecode(center: bool, bold: bool, large: bool)
    ensures Decode(OpenStyles(center, bold, large))
      == [Init] + CmdsWhen(center, [Align(1)]) + CmdsWhen(bold, [Emphasis(1)]) + CmdsWhen(large, [PrintMode(0x30)])
    ensures Clean(OpenStyles(center, bold, large)) && FullCuts(OpenStyles(center, bold, large)) == 0
  {
    assert Decode(INIT) == [Init] && Clean(INIT) by { Decode1(Init); }
    assert ALIGN_CENTER == Encode1(Align(1)) && BOLD_ON == Encode1(Emphasis(1)) && DOUBLE_SIZE == Encode1(PrintMode(0x30));
    WhenDecode(center, Align(1));
    WhenDecode(bold, Emphasis(1));
    WhenDecode(large, PrintMode(0x30));
    var c := When(center, ALIGN_CENTER);
    var b := When(bold, BOLD_ON);
    var l := When(large, DOUBLE_SIZE);
    CleanAppend3(INIT, c, b);
    CleanAppend(INIT + c + b, l);
  }

  /** The text, with a line feed added unless it already ends with one. */
  function TerminatedText(text: Text): Bytes {
    TextToBytes(text) + When(!EndsWithNewline(text), LF)
  }

  /** The printed text always ends with a line feed, and a text ending in one gets no second feed. */
  lemma TerminatedTextDecode(text: Text)
    ensures Decode(TerminatedText(text)) == TextCmds(text) + CmdsWhen(!EndsWithNewline(text), [Feed])
    ensures var d := Decode(TerminatedText(text)); |d| > 0 && d[|d| - 1] == Feed
    ensures Clean(TerminatedText(text)) && FullCuts(TerminatedText(text)) == 0
  {
    TerminatedTextPieces(text);
    EndsInFeed(text, Decode(TerminatedText(text)));
  }

  lemma TerminatedTextPieces(text: Text)
    ensures Decode(TerminatedText(text)) == TextCmds(text) + CmdsWhen(!EndsWithNewline(text), [Feed])
    ensures Clean(TerminatedText(text)) && FullCuts(TerminatedText(text)) == 0
  {
    TextDecode(text);
    if EndsWithNewline(text) {
      assert TerminatedText(text) == TextToBytes(text) + [];
      CleanAppend(TextToBytes(text), []);
      assert Decode([]) == [];
    } else {
      LfDecode();
      CleanAppend(TextToBytes(text), LF);
    }
  }

  lemma EndsInFeed(text: Text, d: seq<Cmd>)
    requires d == TextCmds(text) + CmdsWhen(!EndsWithNewline(text), [Feed])
    ensures |d| > 0 && d[|d| - 1] == Feed
  {
    if EndsWithNewline(text) {
      assert TextCmds(text)[|text| - 1] == TextCmd('\n') == Feed;
      assert d == TextCmds(text);
    }
  }
}
