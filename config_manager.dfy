/**
 * The ConfigManager of print-station/src/configManager.js: a JSON tree
 * read from a file, merged over built-in defaults, validated, and read or
 * written by dot-separated paths. The file system is a parameter: what
 * reading and parsing the file produced.
 */
module ConfigManager {
  import opened Common

  /** A JSON value; numbers are integers here. */
  datatype Json = Null | Bool(b: bool) | Num(n: int) | Str(s: string) | Arr(items: seq<Json>) | Obj(fields: map<string, Json>)

  /** JavaScript truthiness of a JSON value. */
  predicate Truthy(j: Json) {
    match j
    case Null => false
    case Bool(b) => b
    case Num(n) => n != 0
    case Str(s) => s != []
    case _ => true
  }

  /** `typeof j === 'object'` (which includes arrays and null). */
  predicate IsObjectType(j: Json) {
    j.Null? || j.Arr? || j.Obj?
  }

  /** The entries of a sequence keyed by decimal index, as an array or string exposes them. */
  function IndexMap(items: seq<Json>): (m: map<string, Json>)
    ensures |m.Keys| <= |items|
  {
    if items == [] then map[]
    else
      var n := |items| - 1;
      var init := IndexMap(items[..n]);
      assert init[NatText(n) := items[n]].Keys <= init.Keys + {NatText(n)};
      init[NatText(n) := items[n]]
  }

  /** The one-character strings of `s`. */
  function CharItems(s: string): (items: seq<Json>)
    ensures |items| == |s|
  {
    if s == [] then [] else [Str([s[0]])] + CharItems(s[1..])
  }

  /** The own enumerable properties: what `Object.entries(j)` lists and `{ ...j }` copies. */
  function Entries(j: Json): map<string, Json> {
    match j
    case Obj(fields) => fields
    case Arr(items) => IndexMap(items)
    case Str(s) => IndexMap(CharItems(s))
    case _ => map[]
  }

  /** `defaultConfig[key] || {}`. */
  function DefaultBranch(defaults: Json, key: string): (d: Json)
    ensures Truthy(d)
  {
    var entries := Entries(defaults);
    if key in entries && Truthy(entries[key]) then entries[key] else Obj(map[])
  }

  // ---------------------------------------------------------------------
  // mergeWithDefaults

  /** `mergeWithDefaults(user, defaults)`: the defaults' entries, overridden key by key by the user's. */
  function Merge(user: map<string, Json>, defaults: Json): (r: map<string, Json>)
    requires Truthy(defaults)
    ensures r.Keys == user.Keys + Entries(defaults).Keys
    decreases Obj(user), 1
  {
    map k | k in user.Keys + Entries(defaults).Keys :: MergedValue(user, defaults, k)
  }

  /** User objects merge recursively; user scalars, arrays and null replace the default. */
  function MergedValue(user: map<string, Json>, defaults: Json, key: string): Json
    requires Truthy(defaults)
    requires key in user || key in Entries(defaults)
    decreases Obj(user), 0
  {
    if key in user then
      match user[key]
      case Obj(fields) =>
        assert Obj(fields) == user[key];
        Obj(Merge(fields, DefaultBranch(defaults, key)))
      case other => other
    else Entries(defaults)[key]
  }

  /** The merge after the user entries in `done` have been assigned. */
  ghost function PartialMerge(user: map<string, Json>, defaults: Json, done: set<string>): map<string, Json>
    requires Truthy(defaults) && done <= user.Keys
  {
    map k | k in done + Entries(defaults).Keys ::
      if k in done || k !in user then MergedValue(user, defaults, k) else Entries(defaults)[k]
  }

  lemma PartialMergeStep(user: map<string, Json>, defaults: Json, done: set<string>, key: string)
    requires Truthy(defaults) && done <= user.Keys && key in user
    ensures PartialMerge(user, defaults, done + {key})
         == PartialMerge(user, defaults, done)[key := MergedValue(user, defaults, key)]
  {
  }

  /** `mergeWithDefaults`: a copy of the defaults, then one assignment per user entry. */
  method MergeWithDefaults(user: map<string, Json>, defaults: Json) returns (merged: map<string, Json>)
    requires Truthy(defaults)
    ensures merged == Merge(user, defaults)
    decreases Obj(user), 1
  {
    merged := Entries(defaults);
    var todo := user.Keys;
    PartialMergeEnds(user, defaults);
    while todo != {}
      invariant todo <= user.Keys
      invariant merged == PartialMerge(user, defaults, user.Keys - todo)
      decreases todo
    {
      var key :| key in todo;
      PartialMergeStep(user, defaults, user.Keys - todo, key);
      merged := AssignEntry(user, defaults, merged, key);
      assert user.Keys - (todo - {key}) == (user.Keys - todo) + {key};
      todo := todo - {key};
    }
    assert user.Keys - todo == user.Keys;
  }

  lemma PartialMergeEnds(user: map<string, Json>, defaults: Json)
    requires Truthy(defaults)
    ensures PartialMerge(user, defaults, {}) == Entries(defaults)
    ensures PartialMerge(user, defaults, user.Keys) == Merge(user, defaults)
  {
    PartialMergeNone(user, defaults);
    PartialMergeAll(user, defaults);
  }

  lemma PartialMergeNone(user: map<string, Json>, defaults: Json)
    requires Truthy(defaults)
    ensures PartialMerge(user, defaults, {}) == Entries(defaults)
  {
    var p := PartialMerge(user, defaults, {});
    assert p.Keys == Entries(defaults).Keys;
  }

  lemma PartialMergeAll(user: map<string, Json>, defaults: Json)
    requires Truthy(defaults)
    ensures PartialMerge(user, defaults, user.Keys) == Merge(user, defaults)
  {
  }

  /** One iteration of the merge: `merged[key] = value`, or the merge of an object value into its default. */
  method AssignEntry(user: map<string, Json>, defaults: Json, merged: map<string, Json>, key: string)
    returns (next: map<string, Json>)
    requires Truthy(defaults) && key in user
    ensures next == merged[key := MergedValue(user, defaults, key)]
    decreases Obj(user), 0
  {
    var value := user[key];
    if value.Obj? {
      assert Obj(value.fields) == user[key];
      var sub := MergeWithDefaults(value.fields, DefaultBranch(defaults, key));
      next := merged[key := Obj(sub)];
    } else {
      next := merged[key := value];
    }
  }

  /** Merging a tree over itself gives it back: the defaults survive a round trip through a new config file. */
  lemma {:induction false} MergeIdempotent(m: map<string, Json>)
    ensures Merge(m, Obj(m)) == m
    decreases Obj(m)
  {
    forall k | k in m
      ensures MergedValue(m, Obj(m), k) == m[k]
    {
      if m[k].Obj? {
        assert Obj(m[k].fields) == m[k];
        MergeIdempotent(m[k].fields);
      }
    }
  }

  // ---------------------------------------------------------------------
  // get

  /** One step of `get`: `value && typeof value === 'object' && key in value`, then `value[key]`. */
  function Lookup(value: Json, key: string): (r: Option<Json>)
    ensures r.Some? ==> value.Obj? || value.Arr?
  {
    match value
    case Obj(fields) => if key in fields then Some(fields[key]) else None
    case Arr(items) => if IsCanonicalNat(key) && DigitsValue(key) < |items| then Some(items[DigitsValue(key)]) else None
    case _ => None
  }

  /** The value at a key path, None (`undefined`) as soon as a step fails. */
  function GetPath(value: Json, keys: seq<string>): Option<Json>
    decreases |keys|
  {
    if keys == [] then Some(value)
    else
      match Lookup(value, keys[0])
      case None => None
      case Some(child) => GetPath(child, keys[1..])
  }

  /** The walk of `get` over the keys of a path. */
  method GetKeys(config: Json, keys: seq<string>) returns (result: Option<Json>)
    ensures result == GetPath(config, keys)
  {
    var value := config;
    var i := 0;
    while i < |keys|
      invariant 0 <= i <= |keys|
      invariant GetPath(config, keys) == GetPath(value, keys[i..])
    {
      assert keys[i..][1..] == keys[i + 1..];
      var next := Lookup(value, keys[i]);
      if next.None? {
        return None;
      }
      value := next.value;
      i := i + 1;
    }
    assert keys[i..] == [];
    result := Some(value);
  }

  // ---------------------------------------------------------------------
  // set

  /** How `set` ends: a new tree, a TypeError, or a write that goes through an array. */
  datatype SetOutcome = Updated(value: Json) | Throws | ThroughArray

  /** The container `set` descends into: an existing object-typed value, or a fresh `{}`. */
  function Descend(fields: map<string, Json>, key: string): (child: Json)
    ensures IsObjectType(child)
  {
    if key in fields && IsObjectType(fields[key]) then fields[key] else Obj(map[])
  }

  /** A completed write below `key` seen from the object that holds it. */
  function Enclose(fields: map<string, Json>, key: string, inner: SetOutcome): SetOutcome {
    if inner.Updated? then Updated(Obj(fields[key := inner.value])) else inner
  }

  /** `set` on the key path of `current`: `key in` on null or a primitive throws. */
  function SetPath(current: Json, keys: seq<string>, v: Json): (r: SetOutcome)
    requires |keys| >= 1
    ensures r.Updated? ==> current.Obj? && r.value.Obj?
    decreases |keys|
  {
    match current
    case Arr(_) => ThroughArray
    case Obj(fields) =>
      if |keys| == 1 then Updated(Obj(fields[keys[0] := v]))
      else Enclose(fields, keys[0], SetPath(Descend(fields, keys[0]), keys[1..], v))
    case _ => Throws
  }

  /** After a successful `set(path, v)`, `get(path)` is `v`, and so is everything below it. */
  lemma {:induction false} SetThenGet(j: Json, keys: seq<string>, v: Json, rest: seq<string>)
    requires |keys| >= 1 && SetPath(j, keys, v).Updated?
    ensures GetPath(SetPath(j, keys, v).value, keys + rest) == GetPath(v, rest)
    decreases |keys|
  {
    assert (keys + rest)[0] == keys[0];
    if |keys| == 1 {
      assert (keys + rest)[1..] == rest;
    } else {
      SetThenGet(Descend(j.fields, keys[0]), keys[1..], v, rest);
      assert (keys + rest)[1..] == keys[1..] + rest;
    }
  }

  /** Two key paths that part ways at some step. */
  predicate Diverge(p: seq<string>, q: seq<string>) {
    exists d :: 0 <= d < |p| && d < |q| && p[d] != q[d]
  }

  /** A successful `set(path, v)` leaves the value at every path that parts from `path` unchanged. */
  lemma {:induction false} SetKeepsOthers(j: Json, keys: seq<string>, v: Json, q: seq<string>)
    requires |keys| >= 1 && SetPath(j, keys, v).Updated?
    requires Diverge(keys, q)
    ensures GetPath(SetPath(j, keys, v).value, q) == GetPath(j, q)
    decreases |keys|
  {
    var d :| 0 <= d < |keys| && d < |q| && keys[d] != q[d];
    if q[0] != keys[0] {
    } else {
      var child := Descend(j.fields, keys[0]);
      assert keys[1..][d - 1] != q[1..][d - 1];
      SetKeepsOthers(child, keys[1..], v, q[1..]);
      assert q[1..][0] == q[1];
    }
  }

  /** A frame of the walk down: the object left behind and the key taken. */
  datatype Frame = Frame(fields: map<string, Json>, key: string)

  /** Rebuilds the tree around a new innermost object, the way the in-place writes appear from the root. */
  function Plug(frames: seq<Frame>, inner: Json): Json
    decreases |frames|
  {
    if frames == [] then inner
    else
      var f := frames[|frames| - 1];
      Plug(frames[..|frames| - 1], Obj(f.fields[f.key := inner]))
  }

  function Lift(frames: seq<Frame>, outcome: SetOutcome): SetOutcome {
    match outcome
    case Updated(inner) => Updated(Plug(frames, inner))
    case other => other
  }

  lemma LiftStep(frames: seq<Frame>, f: Frame, inner: SetOutcome)
    ensures Lift(frames + [f], inner) == Lift(frames, Enclose(f.fields, f.key, inner))
  {
    assert (frames + [f])[..|frames|] == frames;
  }

  /** The walk of `set`: down the intermediate keys, then the last assignment. */
  method SetKeys(config: Json, keys: seq<string>, v: Json) returns (outcome: SetOutcome)
    requires |keys| >= 1
    ensures outcome == SetPath(config, keys, v)
  {
    var current := config;
    var frames: seq<Frame> := [];
    var i := 0;
    while i < |keys| - 1
      invariant 0 <= i <= |keys| - 1
      invariant SetPath(config, keys, v) == Lift(frames, SetPath(current, keys[i..], v))
    {
      if !current.Obj? {
        return if current.Arr? then ThroughArray else Throws;
      }
      var key := keys[i];
      var child := Descend(current.fields, key);
      assert keys[i..][1..] == keys[i + 1..];
      LiftStep(frames, Frame(current.fields, key), SetPath(child, keys[i + 1..], v));
      frames := frames + [Frame(current.fields, key)];
      current := child;
      i := i + 1;
    }
    if !current.Obj? {
      return if current.Arr? then ThroughArray else Throws;
    }
    assert keys[i..] == [keys[i]];
    outcome := Updated(Plug(frames, Obj(current.fields[keys[i] := v])));
  }

  // ---------------------------------------------------------------------
  // Defaults, validation and loading

  const PLACEHOLDER := "YOUR_PRINTER_NAME_HERE"

  /** `getDefaultConfig()`. */
  function DefaultConfig(): Json {
    Obj(map[
      "server" := Obj(map["port" := Num(3001), "host" := Str("127.0.0.1"),
                          "name" := Str("Thermal Print Server"), "version" := Str("1.0")]),
      "printer" := Obj(map["name" := Str(PLACEHOLDER), "type" := Str("thermal"), "width" := Num(32),
                           "description" := Str("Thermal Receipt Printer")]),
      "system" := Obj(map["platform" := Str("auto"), "tempDir" := Str("./temp"),
                          "cleanupDelay" := Num(10000), "encoding" := Str("utf8")]),
      "logging" := Obj(map["enabled" := Bool(true), "level" := Str("info"), "requestLogging" := Bool(true)])
    ])
  }

  /** `config.<section>` is there and not null, so reading one of its fields does not throw. */
  predicate HasSection(config: Json, section: string) {
    config.Obj? && section in config.fields && !config.fields[section].Null?
  }

  /** `config.<section>.<key>`, None for undefined (a section that is not an object has no fields). */
  function Field(config: Json, section: string, key: string): Option<Json>
    requires HasSection(config, section)
  {
    var s := config.fields[section];
    if s.Obj? && key in s.fields then Some(s.fields[key]) else None
  }

  predicate Falsy(value: Option<Json>) {
    value.None? || !Truthy(value.value)
  }

  // ---------------------------------------------------------------------
  // ToNumber, as `port < 1` and `port > 65535` apply it.

  /** A number as a literal spells it: NaN, an infinity, or (-1)^negative · mantissa · 10^exponent, not rounded to a double. */
  datatype Numeric = NaN | Infinite(negative: bool) | Decimal(negative: bool, mantissa: nat, exponent: int)

  function Pow10(n: nat): (p: nat)
    ensures p >= 1
  {
    if n == 0 then 1 else 10 * Pow10(n - 1)
  }

  function Signed(negative: bool, m: nat): int {
    if negative then -(m as int) else m as int
  }

  /** `x < k` for an integer k; every comparison with NaN is false. */
  predicate Below(x: Numeric, k: int) {
    match x
    case NaN => false
    case Infinite(negative) => negative
    case Decimal(negative, m, e) =>
      if e >= 0 then Signed(negative, m) * Pow10(e) < k else Signed(negative, m) < k * Pow10(-e)
  }

  /** `x > k` for an integer k; every comparison with NaN is false. */
  predicate Above(x: Numeric, k: int) {
    match x
    case NaN => false
    case Infinite(negative) => !negative
    case Decimal(negative, m, e) =>
      if e >= 0 then Signed(negative, m) * Pow10(e) > k else Signed(negative, m) > k * Pow10(-e)
  }

  /** The position of the first `c1` or `c2` in `s`, or |s| when there is none. */
  function FirstOf(s: string, c1: char, c2: char): (k: nat)
    ensures k <= |s|
    ensures forall i :: 0 <= i < k ==> s[i] != c1 && s[i] != c2
    ensures k < |s| ==> s[k] == c1 || s[k] == c2
  {
    if s == [] || s[0] == c1 || s[0] == c2 then 0 else 1 + FirstOf(s[1..], c1, c2)
  }

  /** The exponent of a decimal literal: digits with an optional sign. */
  function SignedDigits(s: string): Option<int> {
    if s != [] && (s[0] == '+' || s[0] == '-') then
      if s[1..] != [] && IsDigits(s[1..]) then Some(Signed(s[0] == '-', DigitsValue(s[1..]))) else None
    else if s != [] && IsDigits(s) then Some(DigitsValue(s))
    else None
  }

  /**
   * The mantissa of a decimal literal (`12`, `1.5`, `.5`, `5.`): its digits
   * read as one number, and how many of them follow the point.
   */
  function Mantissa(digits: string): Option<(nat, nat)> {
    var d := FirstOf(digits, '.', '.');
    var whole := digits[..d];
    var fraction := if d < |digits| then digits[d + 1..] else [];
    if !IsDigits(whole) || !IsDigits(fraction) || whole + fraction == [] then None
    else
      DigitsJoin(whole, fraction);
      Some((DigitsValue(whole + fraction), |fraction|))
  }

  lemma DigitsJoin(a: string, b: string)
    requires IsDigits(a) && IsDigits(b)
    ensures IsDigits(a + b)
  {
    assert forall i :: 0 <= i < |a + b| ==> (a + b)[i] == if i < |a| then a[i] else b[i - |a|];
  }

  /**
   * An unsigned decimal literal other than `Infinity` (`12`, `1.5`, `1e9`,
   * `2.5E-3`) as its digits and the power of ten they are scaled by.
   */
  function UnsignedDecimal(s: string): Option<(nat, int)> {
    var k := FirstOf(s, 'e', 'E');
    var exponent := if k < |s| then SignedDigits(s[k + 1..]) else Some(0);
    match Mantissa(s[..k])
    case None => None
    case Some((m, f)) => if exponent.None? then None else Some((m, exponent.value - f))
  }

  /** A digit of base 2, 8 or 16 (either case), and 16 for any other character. */
  function RadixDigit(c: char): nat {
    if '0' <= c <= '9' then c as int - '0' as int
    else if 'a' <= c <= 'f' then c as int - 'a' as int + 10
    else if 'A' <= c <= 'F' then c as int - 'A' as int + 10
    else 16
  }

  predicate InRadix(s: string, radix: nat) {
    forall i :: 0 <= i < |s| ==> RadixDigit(s[i]) < radix
  }

  function RadixValue(s: string, radix: nat): nat
    requires InRadix(s, radix)
  {
    if s == [] then 0 else radix * RadixValue(s[..|s| - 1], radix) + RadixDigit(s[|s| - 1])
  }

  /** The base a `0x`, `0o` or `0b` prefix announces, 0 for any other letter. */
  function RadixOf(c: char): nat {
    if c == 'x' || c == 'X' then 16 else if c == 'o' || c == 'O' then 8 else if c == 'b' || c == 'B' then 2 else 0
  }

  /**
   * `Number(s)`: surrounding white space is ignored and blank is 0; then a
   * `0x`/`0o`/`0b` integer without sign, or a signed decimal literal or
   * Infinity; anything else is NaN.
   */
  function StringToNumber(s: string): (x: Numeric)
    ensures Trim(s) == [] ==> x == Decimal(false, 0, 0)
  {
    var t := Trim(s);
    if t == [] then Decimal(false, 0, 0) else TrimmedToNumber(t)
  }

  /** A non-blank literal without surrounding white space. */
  function TrimmedToNumber(t: string): Numeric
    requires t != []
  {
    if |t| > 2 && t[0] == '0' && RadixOf(t[1]) > 0 then RadixToNumber(t[2..], RadixOf(t[1]))
    else SignedToNumber(t)
  }

  /** The digits after a `0x`, `0o` or `0b` prefix; NaN when one is not a digit of that base. */
  function RadixToNumber(digits: string, radix: nat): Numeric {
    if InRadix(digits, radix) then Decimal(false, RadixValue(digits, radix), 0) else NaN
  }

  /** A decimal literal or `Infinity`, with an optional sign. */
  function SignedToNumber(t: string): Numeric
    requires t != []
  {
    var negative := t[0] == '-';
    var body := if t[0] == '+' || t[0] == '-' then t[1..] else t;
    if body == "Infinity" then Infinite(negative)
    else match UnsignedDecimal(body)
      case Some((m, e)) => Decimal(negative, m, e)
      case None => NaN
  }

  /** `String(j)` as `Array.prototype.join` writes an element: null is empty, arrays are joined with commas. */
  function ElementText(j: Json): string {
    match j
    case Null => ""
    case Bool(b) => if b then "true" else "false"
    case Num(n) => IntText(n)
    case Str(s) => s
    case Obj(_) => "[object Object]"
    case Arr(items) => if items == [] then "" else Join(seq(|items|, i requires 0 <= i < |items| => ElementText(items[i])), ',')
  }

  /** The number a relational comparison with a number sees: strings, arrays and objects go through their text. */
  function NumberOf(value: Json): Numeric {
    match value
    case Null => Decimal(false, 0, 0)
    case Bool(b) => Decimal(false, if b then 1 else 0, 0)
    case Num(n) => Decimal(n < 0, if n < 0 then -n else n, 0)
    case _ => StringToNumber(ElementText(value))
  }

  /** A string without white space at either end is its own trimmed form. */
  lemma TrimUntouched(s: string)
    requires s != [] && !IsSpace(s[0]) && !IsSpace(s[|s| - 1])
    ensures Trim(s) == s
  {
    assert LeadingSpaces(s) == 0;
    assert TrailingSpaces(s) == |s|;
    assert s[0..][..|s|] == s;
  }

  /** A run of digits is a decimal literal with nothing after the point and exponent 0. */
  lemma DigitsDecimal(s: string)
    requires s != [] && IsDigits(s)
    ensures UnsignedDecimal(s) == Some((DigitsValue(s), 0))
  {
    DigitsHaveNo(s, 'e', 'E');
    assert s[..|s|] == s;
    DigitsMantissa(s);
  }

  /** Digits contain no exponent marker and no point. */
  lemma DigitsHaveNo(s: string, c1: char, c2: char)
    requires IsDigits(s) && !('0' <= c1 <= '9') && !('0' <= c2 <= '9')
    ensures FirstOf(s, c1, c2) == |s|
  {
  }

  lemma DigitsMantissa(s: string)
    requires s != [] && IsDigits(s)
    ensures Mantissa(s) == Some((DigitsValue(s), 0))
  {
    DigitsHaveNo(s, '.', '.');
    assert s[..|s|] == s && s + [] == s;
  }

  /** A run of decimal digits, leading zeros included, is the number it spells. */
  lemma DigitsToNumber(s: string)
    requires s != [] && IsDigits(s)
    ensures StringToNumber(s) == Decimal(false, DigitsValue(s), 0)
  {
    DigitsUntrimmed(s);
    assert StringToNumber(s) == TrimmedToNumber(s);
    if |s| > 2 {
      assert RadixOf(s[1]) == 0 by { assert '0' <= s[1] <= '9'; }
    }
    UnsignedDigits(s, false);
  }

  lemma DigitsUntrimmed(s: string)
    requires s != [] && IsDigits(s)
    ensures Trim(s) == s
  {
    assert '0' <= s[0] <= '9' && '0' <= s[|s| - 1] <= '9';
    TrimUntouched(s);
  }

  /** Digits after an optional minus sign: the decimal reading, negated for the sign. */
  lemma UnsignedDigits(s: string, negative: bool)
    requires s != [] && IsDigits(s)
    ensures SignedToNumber(if negative then "-" + s else s) == Decimal(negative, DigitsValue(s), 0)
  {
    var t := if negative then "-" + s else s;
    assert t[0] == (if negative then '-' else s[0]);
    assert '0' <= s[0] <= '9';
    if negative {
      assert t[1..] == s;
    }
    assert s != "Infinity" by { assert "Infinity"[0] == 'I'; }
    DigitsDecimal(s);
  }

  /** A minus sign before a run of digits negates it. */
  lemma NegatedDigitsToNumber(t: string, s: string)
    requires s != [] && IsDigits(s) && t == "-" + s
    ensures StringToNumber(t) == Decimal(true, DigitsValue(s), 0)
  {
    assert t[|t| - 1] == s[|s| - 1] && '0' <= s[|s| - 1] <= '9';
    TrimUntouched(t);
    assert StringToNumber(t) == TrimmedToNumber(t);
    UnsignedDigits(s, true);
  }

  /** A string compares as the number it converts to. */
  lemma StrNumber(s: string)
    ensures NumberOf(Str(s)) == StringToNumber(s)
  {
    assert ElementText(Str(s)) == s;
  }

  /** `Number(String(n)) === n`: the text of an integer converts back to that integer. */
  lemma IntTextToNumber(n: int)
    ensures NumberOf(Str(IntText(n))) == NumberOf(Num(n))
  {
    StrNumber(IntText(n));
    if n < 0 {
      NegativeText(n);
    } else {
      NonNegativeText(n);
    }
  }

  lemma NonNegativeText(n: int)
    requires n >= 0
    ensures StringToNumber(IntText(n)) == Decimal(false, n, 0)
  {
    var digits := NatText(n);
    assert IntText(n) == digits;
    DigitsToNumber(digits);
    DigitsValueOfNatText(n);
  }

  lemma NegativeText(n: int)
    requires n < 0
    ensures StringToNumber(IntText(n)) == Decimal(true, -n, 0)
  {
    var m: nat := -n;
    var digits := NatText(m);
    assert IntText(n) == "-" + digits;
    NegatedDigitsToNumber(IntText(n), digits);
    DigitsValueOfNatText(m);
  }

  /** `!name || name === 'YOUR_PRINTER_NAME_HERE'`. */
  predicate PrinterUnset(name: Option<Json>) {
    Falsy(name) || name == Some(Str(PLACEHOLDER))
  }

  /** `!port || port < 1 || port > 65535`: every comparison with NaN is false. */
  predicate BadPort(port: Option<Json>) {
    Falsy(port) || Below(NumberOf(port.value), 1) || Above(NumberOf(port.value), 65535)
  }

  /** For a JSON integer the check is the plain range test. */
  lemma IntegerPort(n: int)
    ensures BadPort(Some(Num(n))) <==> n < 1 || n > 65535
  {
  }

  /**
   * Coercion makes the check reject ports written as signed, exponent, blank
   * or hexadecimal strings and as arrays whose text is such a number, and
   * accept a valid port with white space around it; arrays of two or more
   * elements are NaN and pass.
   */
  lemma CoercedPorts()
    ensures BadPort(Some(Str("-5"))) && BadPort(Some(Str("1e9"))) && BadPort(Some(Str(" ")))
    ensures BadPort(Some(Str("0x0"))) && BadPort(Some(Arr([]))) && BadPort(Some(Arr([Num(0)])))
    ensures BadPort(Some(Arr([Num(70000)])))
    ensures !BadPort(Some(Str(" 3001 "))) && !BadPort(Some(Arr([Num(1), Num(2)])))
  {
    SignedStringPort();
    BillionPort();
    BlankAndHexPorts();
    ArrayPorts();
    PaddedPort();
  }

  lemma SignedStringPort()
    ensures BadPort(Some(Str("-5")))
  {
    NegativePort("-5", "5");
  }

  /** A minus sign before digits always gives a port below 1, "-0" included. */
  lemma NegativePort(t: string, s: string)
    requires s != [] && IsDigits(s) && t == "-" + s
    ensures BadPort(Some(Str(t)))
  {
    NegatedDigitsToNumber(t, s);
    StringPort(t, Decimal(true, DigitsValue(s), 0));
  }

  /** "1e9" is a billion, above the largest port. */
  lemma BillionPort()
    ensures BadPort(Some(Str("1e9")))
  {
    BillionDecimal();
    UnsignedToNumber("1e9", 1, 9);
    assert Pow10(9) == 1000000000;
    StringPort("1e9", Decimal(false, 1, 9));
  }

  /** The port check on a string is the range test on the number it converts to. */
  lemma StringPort(s: string, x: Numeric)
    requires StringToNumber(s) == x
    ensures BadPort(Some(Str(s))) <==> s == [] || Below(x, 1) || Above(x, 65535)
  {
    StrNumber(s);
  }

  /** The port check on an array is the range test on the number its joined text converts to. */
  lemma ArrayPort(items: seq<Json>, x: Numeric)
    requires StringToNumber(ElementText(Arr(items))) == x
    ensures BadPort(Some(Arr(items))) <==> Below(x, 1) || Above(x, 65535)
  {
  }

  /** A literal starting with a digit other than a radix prefix converts as its unsigned decimal reading. */
  lemma UnsignedToNumber(s: string, m: nat, e: int)
    requires s != [] && '0' <= s[0] <= '9' && !IsSpace(s[|s| - 1])
    requires |s| > 2 && s[0] == '0' ==> RadixOf(s[1]) == 0
    requires UnsignedDecimal(s) == Some((m, e))
    ensures StringToNumber(s) == Decimal(false, m, e)
  {
    TrimUntouched(s);
  }

  /** Only the trimmed text matters. */
  lemma SameTrim(s: string, t: string)
    requires Trim(s) == Trim(t)
    ensures StringToNumber(s) == StringToNumber(t)
  {
  }

  lemma BillionDecimal()
    ensures UnsignedDecimal("1e9") == Some((1, 9))
  {
    var s := "1e9";
    assert FirstOf(s, 'e', 'E') == 1 by {
      assert s[0] == '1' && s[1] == 'e';
      assert FirstOf(s[1..], 'e', 'E') == 0;
    }
    assert s[2..] == "9" && s[..1] == "1";
    assert SignedDigits("9") == Some(9) by { assert DigitsValue("9") == 9 by { assert "9"[..0] == []; } }
    DigitsMantissa("1");
    assert DigitsValue("1") == 1 by { assert "1"[..0] == []; }
  }

  lemma ThreeThousandOne()
    ensures DigitsValue("3001") == 3001
  {
    assert "3001"[..3] == "300" && "300"[..2] == "30" && "30"[..1] == "3" && "3"[..0] == [];
  }

  lemma BlankAndHexPorts()
    ensures BadPort(Some(Str(" "))) && BadPort(Some(Str("0x0")))
  {
    BlankPort();
    HexPort();
  }

  lemma BlankPort()
    ensures BadPort(Some(Str(" ")))
  {
    StrNumber(" ");
    assert LeadingSpaces(" ") == 1;
    assert Trim(" ") == [];
  }

  lemma HexPort()
    ensures BadPort(Some(Str("0x0")))
  {
    StrNumber("0x0");
    TrimUntouched("0x0");
    assert "0x0"[2..] == "0";
    assert RadixValue("0", 16) == 0;
  }

  lemma ArrayPorts()
    ensures BadPort(Some(Arr([]))) && BadPort(Some(Arr([Num(0)]))) && BadPort(Some(Arr([Num(70000)])))
    ensures !BadPort(Some(Arr([Num(1), Num(2)])))
  {
    assert ElementText(Arr([])) == "";
    assert Trim("") == [];
    ArrayPort([], Decimal(false, 0, 0));
    SingletonPort(0);
    SingletonPort(70000);
    PairText();
    PairNaN();
    ArrayPort([Num(1), Num(2)], NaN);
  }

  lemma SingletonPort(n: int)
    ensures BadPort(Some(Arr([Num(n)]))) <==> n < 1 || n > 65535
  {
    OneElement(Num(n));
    IntTextToNumber(n);
    StrNumber(IntText(n));
    ArrayPort([Num(n)], NumberOf(Num(n)));
  }

  lemma PairText()
    ensures ElementText(Arr([Num(1), Num(2)])) == "1,2"
  {
    var items := [Num(1), Num(2)];
    var parts := seq(2, i requires 0 <= i < 2 => ElementText(items[i]));
    assert parts[0] == "1" && parts[1] == "2";
    assert Join(parts, ',') == "1" + [','] + Join(parts[1..], ',');
    assert parts[1..] == ["2"];
  }

  lemma PairNaN()
    ensures StringToNumber("1,2") == NaN
  {
    var s := "1,2";
    TrimUntouched(s);
    assert FirstOf(s, 'e', 'E') == 3 by {
      assert s[1..][1..][1..] == [];
    }
    assert s[..3] == s;
    assert !IsDigits(s) by { assert s[1] == ','; }
  }

  /** A one-element array converts as the text of its element. */
  lemma OneElement(x: Json)
    ensures ElementText(Arr([x])) == ElementText(x)
  {
    assert seq(1, i requires 0 <= i < 1 => ElementText([x][i])) == [ElementText(x)];
  }

  lemma PaddedPort()
    ensures !BadPort(Some(Str(" 3001 ")))
  {
    PaddedTrim();
    ThreeThousandOne();
    PaddedDigits(" 3001 ", "3001");
  }

  /** Digits with white space around them convert as the digits alone. */
  lemma PaddedDigits(s: string, t: string)
    requires Trim(s) == t && t != [] && IsDigits(t)
    ensures StringToNumber(s) == Decimal(false, DigitsValue(t), 0)
    ensures BadPort(Some(Str(s))) <==> DigitsValue(t) < 1 || DigitsValue(t) > 65535
  {
    assert !IsSpace(t[0]) && !IsSpace(t[|t| - 1]) by {
      assert '0' <= t[0] <= '9' && '0' <= t[|t| - 1] <= '9';
    }
    TrimUntouched(t);
    SameTrim(s, t);
    DigitsToNumber(t);
    StringPort(s, Decimal(false, DigitsValue(t), 0));
  }

  lemma PaddedTrim()
    ensures Trim(" 3001 ") == "3001"
  {
    var s := " 3001 ";
    assert LeadingSpaces(s[1..]) == 0 by { assert s[1..][0] == '3'; }
    assert LeadingSpaces(s) == 1;
    assert s[1..] == "3001 ";
    var t := "3001 ";
    assert TrailingSpaces(t[..4]) == 4 by { assert t[..4] == "3001"; }
    assert TrailingSpaces(t) == 4;
    assert t[..4] == "3001";
  }

  const PRINTER_ERROR := "Nome stampante non configurato. Modifica config.json"
  const PORT_ERROR := "Porta server non valida"
  const TEMP_DIR_ERROR := "Directory temporanea non specificata"

  predicate ValidSections(config: Json) {
    HasSection(config, "printer") && HasSection(config, "server") && HasSection(config, "system")
  }

  /** `validateConfig()`: the problems it reports, in order, or None when it throws on a null or missing section. */
  function Validation(config: Json): (r: Option<seq<string>>)
    ensures r.None? <==> !ValidSections(config)
    ensures r.Some? ==> |r.value| <= 3
    ensures r.Some? ==> (PRINTER_ERROR in r.value <==> PrinterUnset(Field(config, "printer", "name")))
    ensures r.Some? ==> (PORT_ERROR in r.value <==> BadPort(Field(config, "server", "port")))
    ensures r.Some? ==> (TEMP_DIR_ERROR in r.value <==> Falsy(Field(config, "system", "tempDir")))
  {
    if !ValidSections(config) then None
    else
      Some((if PrinterUnset(Field(config, "printer", "name")) then [PRINTER_ERROR] else [])
         + (if BadPort(Field(config, "server", "port")) then [PORT_ERROR] else [])
         + (if Falsy(Field(config, "system", "tempDir")) then [TEMP_DIR_ERROR] else []))
  }

  /** The defaults report exactly one problem: the placeholder printer name. */
  lemma DefaultsNeedPrinter()
    ensures Validation(DefaultConfig()) == Some([PRINTER_ERROR])
  {
    var d := DefaultConfig();
    assert ValidSections(d);
    assert Field(d, "printer", "name") == Some(Str(PLACEHOLDER));
    assert Field(d, "server", "port") == Some(Num(3001));
    assert Field(d, "system", "tempDir") == Some(Str("./temp"));
    assert PrinterUnset(Field(d, "printer", "name"));
    assert !BadPort(Field(d, "server", "port"));
    assert !Falsy(Field(d, "system", "tempDir"));
    assert [PRINTER_ERROR] + [] + [] == [PRINTER_ERROR];
  }

  /** What reading and parsing the configuration file produced. */
  datatype ConfigFile =
    | Missing(writable: bool)   // the defaults are written first when possible
    | Unreadable
    | Malformed                 // `JSON.parse` throws
    | Parsed(json: Json)

  /** The configuration from a parsed file: merged and validated, or the defaults when either throws. */
  function FromParsed(json: Json): (c: Json)
    ensures c.Obj? && DefaultConfig().fields.Keys <= c.fields.Keys
    ensures ValidSections(c)
  {
    if json.Null? then DefaultConfig()
    else
      var merged := Obj(Merge(Entries(json), DefaultConfig()));
      if Validation(merged).None? then DefaultConfig() else merged
  }

  /** `loadConfig()`: never fails; every read, parse or validation error falls back to the defaults. */
  function Loaded(file: ConfigFile): (c: Json)
    ensures c.Obj? && DefaultConfig().fields.Keys <= c.fields.Keys
    ensures ValidSections(c)
  {
    match file
    case Missing(writable) => if writable then FromParsed(DefaultConfig()) else DefaultConfig()
    case Parsed(json) => FromParsed(json)
    case _ => DefaultConfig()
  }

  /** Without a usable file the configuration is exactly the defaults, whether or not they could be written. */
  lemma LoadWithoutFile(file: ConfigFile)
    requires !file.Parsed?
    ensures Loaded(file) == DefaultConfig()
  {
    MergeIdempotent(DefaultConfig().fields);
    DefaultsNeedPrinter();
  }

  /** A user value that is not an object survives the merge at its path. */
  lemma {:induction false} UserValuesWin(user: map<string, Json>, defaults: Json, p: seq<string>)
    requires Truthy(defaults) && p != []
    requires GetPath(Obj(user), p).Some? && !GetPath(Obj(user), p).value.Obj?
    ensures GetPath(Obj(Merge(user, defaults)), p) == GetPath(Obj(user), p)
    decreases |p|
  {
    var k := p[0];
    if user[k].Obj? {
      assert |p| > 1;
      assert Obj(user[k].fields) == user[k];
      UserValuesWin(user[k].fields, DefaultBranch(defaults, k), p[1..]);
    }
  }

  /** The user tree leaves the default at `p` alone: it has no entry on the way except objects, and none at `p`. */
  predicate NotOverridden(user: map<string, Json>, p: seq<string>)
    decreases |p|
  {
    p == [] || p[0] !in user || (|p| > 1 && user[p[0]].Obj? && NotOverridden(user[p[0]].fields, p[1..]))
  }

  /** The defaults hold objects at every step of `p` before the last. */
  predicate ObjectsAlong(defaults: map<string, Json>, p: seq<string>)
    decreases |p|
  {
    |p| <= 1 || (p[0] in defaults && defaults[p[0]].Obj? && ObjectsAlong(defaults[p[0]].fields, p[1..]))
  }

  /** Every default the user does not override is still there after the merge. */
  lemma {:induction false} DefaultsSurvive(user: map<string, Json>, defaults: map<string, Json>, p: seq<string>)
    requires p != [] && NotOverridden(user, p) && ObjectsAlong(defaults, p)
    requires GetPath(Obj(defaults), p).Some?
    ensures GetPath(Obj(Merge(user, Obj(defaults))), p) == GetPath(Obj(defaults), p)
    decreases |p|
  {
    var k := p[0];
    if k in user {
      var d := defaults[k];
      assert Obj(d.fields) == d;
      assert Obj(user[k].fields) == user[k];
      DefaultsSurvive(user[k].fields, d.fields, p[1..]);
    }
  }

  // ---------------------------------------------------------------------
  // The manager object

  class Manager {
    const configPath: string
    var config: Option<Json>   // null until loaded

    /** The constructor: nothing is loaded yet. */
    constructor (configPath: Option<string>)
      ensures this.configPath == (if configPath.Some? then configPath.value else "./config/config.json")
      ensures config.None?
    {
      this.configPath := if configPath.Some? then configPath.value else "./config/config.json";
      config := None;
    }

    /** The configuration in use, loading it first if needed. */
    function Current(file: ConfigFile): Json
      reads this
    {
      if config.Some? then config.value else Loaded(file)
    }

    /** `loadConfig()`. */
    method LoadConfig(file: ConfigFile) returns (c: Json)
      modifies this
      ensures config == Some(Loaded(file)) && c == Loaded(file)
    {
      c := Loaded(file);
      config := Some(c);
    }

    /** `get(path)`. */
    method Get(path: string, file: ConfigFile) returns (value: Option<Json>)
      modifies this
      ensures config == Some(old(Current(file)))
      ensures value == GetPath(old(Current(file)), Split(path, '.'))
    {
      if config.None? {
        var _ := LoadConfig(file);
      }
      value := GetKeys(config.value, Split(path, '.'));
    }

    /** `set(path, value)`: the tree changes only when the walk completes. */
    method Set(path: string, newValue: Json, file: ConfigFile) returns (outcome: SetOutcome)
      modifies this
      ensures outcome == SetPath(old(Current(file)), Split(path, '.'), newValue)
      ensures config == Some(if outcome.Updated? then outcome.value else old(Current(file)))
    {
      if config.None? {
        var _ := LoadConfig(file);
      }
      outcome := SetKeys(config.value, Split(path, '.'), newValue);
      if outcome.Updated? {
        config := Some(outcome.value);
      }
    }

    /** `getAll()`: a shallow copy of the top-level entries. */
    method GetAll(file: ConfigFile) returns (copy: map<string, Json>)
      modifies this
      ensures config == Some(old(Current(file)))
      ensures copy == Entries(old(Current(file)))
    {
      if config.None? {
        var _ := LoadConfig(file);
      }
      copy := Entries(config.value);
    }
  }
}
