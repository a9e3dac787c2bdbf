/**
 * Shared vocabulary of the model: optional values, results, printable text
 * and the decimal rendering JavaScript uses for integers in template strings.
 */
module Common {

  datatype Option<T> = None | Some(value: T)

  datatype Result<T, E> = Ok(value: T) | Err(error: E)

  /** A character the receipts print: printable ASCII or the line feed. */
  type Ch = c: char | c == '\n' || (' ' <= c <= '~') witness ' '

  /** Receipt text; UTF-8 encodes each of these characters as one byte. */
  type Text = seq<Ch>

  /** `x.repeat(n)` on a one-element sequence, also used for byte runs. */
  function Repeat<T>(x: T, n: nat): (r: seq<T>)
    ensures |r| == n
    ensures forall i :: 0 <= i < n ==> r[i] == x
  {
    seq(n, _ => x)
  }

  /** `s.repeat(n)` for a whole string. */
  function RepeatText(s: Text, n: nat): (r: Text)
    ensures |r| == n * |s|
  {
    if n == 0 then [] else s + RepeatText(s, n - 1)
  }

  function DigitChar(d: nat): (c: Ch)
    requires d < 10
  {
    "0123456789"[d]
  }

  function DigitValue(c: char): nat
    requires '0' <= c <= '9'
  {
    c as int - '0' as int
  }

  predicate IsDigits(s: string) {
    forall i :: 0 <= i < |s| ==> '0' <= s[i] <= '9'
  }

  /** Decimal digits of a natural number, as `String(n)` prints it. */
  function NatText(n: nat): (r: Text)
    ensures |r| > 0 && IsDigits(r)
    ensures |r| > 1 ==> r[0] != '0'
  {
    if n < 10 then [DigitChar(n)] else NatText(n / 10) + [DigitChar(n % 10)]
  }

  /** `String(i)` for an integer. */
  function IntText(i: int): (r: Text)
    ensures |r| > 0
  {
    if i < 0 then "-" + NatText(-i) else NatText(i)
  }

  /** The value of a string of decimal digits (the inverse of NatText). */
  function DigitsValue(s: string): nat
    requires IsDigits(s)
  {
    if s == [] then 0 else 10 * DigitsValue(s[..|s| - 1]) + DigitValue(s[|s| - 1])
  }

  lemma {:induction false} DigitsValueOfNatText(n: nat)
    ensures DigitsValue(NatText(n)) == n
  {
    var r := NatText(n);
    if n < 10 {
      assert r[..|r| - 1] == [];
    } else {
      assert r[..|r| - 1] == NatText(n / 10);
      DigitsValueOfNatText(n / 10);
    }
  }

  /** A string of digits without a superfluous leading zero. */
  predicate IsCanonicalNat(s: string) {
    |s| > 0 && IsDigits(s) && (|s| > 1 ==> s[0] != '0')
  }

  lemma {:induction false} NatTextOfDigitsValue(s: string)
    requires IsCanonicalNat(s)
    ensures NatText(DigitsValue(s)) == s
    decreases |s|
  {
    var init := s[..|s| - 1];
    var last := s[|s| - 1];
    assert s == init + [last];
    if |s| == 1 {
      SingleDigit(last);
    } else {
      assert IsCanonicalNat(init) by {
        assert init[0] == s[0];
      }
      NatTextOfDigitsValue(init);
      NatTextSnoc(init, last);
    }
  }

  lemma SingleDigit(c: char)
    requires '0' <= c <= '9'
    ensures NatText(DigitsValue([c])) == [c]
  {
    DigitCharValue(c);
    assert [c][..0] == [];
  }

  /** Appending a digit to a canonical numeral appends it to the printed value. */
  lemma NatTextSnoc(init: string, last: char)
    requires IsCanonicalNat(init) && |init| >= 1 && init[0] != '0' && NatText(DigitsValue(init)) == init
    requires '0' <= last <= '9'
    ensures NatText(DigitsValue(init + [last])) == init + [last]
  {
    var d := DigitsValue(init);
    DigitCharValue(last);
    assert d >= 1 by {
      assert NatText(0) == "0";
    }
    NatTextAppendDigit(d, DigitValue(last));
    assert (init + [last])[..|init|] == init;
  }

  /** Printing `10 * d + v` prints `d`, then the digit `v`. */
  lemma NatTextAppendDigit(d: nat, v: nat)
    requires d >= 1 && v < 10
    ensures NatText(10 * d + v) == NatText(d) + [DigitChar(v)]
  {
    DivMod10(d, v);
  }

  lemma DigitCharValue(c: char)
    requires '0' <= c <= '9'
    ensures DigitValue(c) < 10 && DigitChar(DigitValue(c)) == c
  {
  }

  lemma DivMod10(d: nat, v: nat)
    requires v < 10
    ensures (10 * d + v) / 10 == d && (10 * d + v) % 10 == v
  {
  }

  /** The number of elements of `s` satisfying `p`. */
  function CountIf<T>(s: seq<T>, p: T -> bool): (n: nat)
    ensures n <= |s|
  {
    if s == [] then 0 else (if p(s[0]) then 1 else 0) + CountIf(s[1..], p)
  }

  lemma {:induction false} CountIfAppend<T>(a: seq<T>, b: seq<T>, p: T -> bool)
    ensures CountIf(a + b, p) == CountIf(a, p) + CountIf(b, p)
  {
    if a == [] {
      assert a + b == b;
    } else {
      assert (a + b)[1..] == a[1..] + b;
      CountIfAppend(a[1..], b, p);
    }
  }

  /** The elements of `s` satisfying `p`, in their original order. */
  function Filter<T>(s: seq<T>, p: T -> bool): (r: seq<T>)
    ensures |r| <= |s|
    ensures forall x :: x in r ==> x in s && p(x)
  {
    if s == [] then [] else (if p(s[0]) then [s[0]] else []) + Filter(s[1..], p)
  }

  /** Filtering by a predicate and by its negation splits a sequence into two parts that together hold every element once. */
  lemma {:induction false} FilterPartition<T>(s: seq<T>, p: T -> bool, q: T -> bool)
    requires forall x :: q(x) == !p(x)
    ensures |Filter(s, p)| + |Filter(s, q)| == |s|
    ensures forall x :: x in s <==> x in Filter(s, p) || x in Filter(s, q)
  {
    if s != [] {
      var h, t := s[0], s[1..];
      FilterPartition(t, p, q);
      assert forall x :: x in s <==> x == h || x in t by {
        assert s == [h] + t;
      }
      assert Filter(s, p) == (if p(h) then [h] else []) + Filter(t, p);
      assert Filter(s, q) == (if q(h) then [h] else []) + Filter(t, q);
    }
  }

  lemma {:induction false} FilterAppend<T>(a: seq<T>, b: seq<T>, p: T -> bool)
    ensures Filter(a + b, p) == Filter(a, p) + Filter(b, p)
  {
    if a == [] {
      assert a + b == b;
    } else {
      assert (a + b)[1..] == a[1..] + b;
      FilterAppend(a[1..], b, p);
    }
  }

  /** `toUpperCase` on receipt text: ASCII lower-case letters become upper-case. */
  function UpperChar(c: Ch): (u: Ch)
    ensures 'a' <= c <= 'z' ==> 'A' <= u <= 'Z' && u as int == c as int - 32
    ensures !('a' <= c <= 'z') ==> u == c
  {
    if 'a' <= c <= 'z' then (c as int - 32) as char else c
  }

  function Upper(t: Text): (u: Text)
    ensures |u| == |t|
    ensures forall i :: 0 <= i < |t| ==> u[i] == UpperChar(t[i])
  {
    seq(|t|, i requires 0 <= i < |t| => UpperChar(t[i]))
  }

  /** Upper-casing leaves no lower-case letter and is idempotent. */
  lemma UpperIdempotent(t: Text)
    ensures forall i :: 0 <= i < |t| ==> !('a' <= Upper(t)[i] <= 'z')
    ensures Upper(Upper(t)) == Upper(t)
  {
  }

  /** Repeating a one-character string repeats that character. */
  lemma {:induction false} RepeatTextChar(c: Ch, n: nat)
    ensures RepeatText([c], n) == Repeat(c, n)
  {
    if n > 0 {
      RepeatTextChar(c, n - 1);
      assert Repeat(c, n) == [c] + Repeat(c, n - 1);
    } else {
      assert Repeat(c, 0) == [];
    }
  }

  // ---------------------------------------------------------------------
  // Splitting strings

  /** `str.split(sep)` for a one-character separator. */
  function Split(s: string, sep: char): (parts: seq<string>)
    ensures |parts| >= 1
    ensures forall k :: 0 <= k < |parts| ==> sep !in parts[k]
  {
    if s == [] then [[]]
    else
      var rest := Split(s[1..], sep);
      if s[0] == sep then [[]] + rest else [[s[0]] + rest[0]] + rest[1..]
  }

  /** `parts.join(sep)`. */
  function Join(parts: seq<string>, sep: char): string
    requires |parts| >= 1
  {
    if |parts| == 1 then parts[0] else parts[0] + [sep] + Join(parts[1..], sep)
  }

  /** Splitting loses nothing: joining the pieces with the separator gives the string back. */
  lemma {:induction false} SplitJoin(s: string, sep: char)
    ensures Join(Split(s, sep), sep) == s
    decreases |s|
  {
    if s != [] {
      var rest := Split(s[1..], sep);
      SplitJoin(s[1..], sep);
      if s[0] == sep {
        assert Split(s, sep)[1..] == rest;
        assert s == [sep] + s[1..];
      } else if |rest| == 1 {
        assert s == [s[0]] + s[1..];
      } else {
        assert Join(rest, sep) == rest[0] + [sep] + Join(rest[1..], sep);
        assert Split(s, sep)[1..] == rest[1..];
        assert s == [s[0]] + s[1..];
      }
    }
  }

  /** A first line without a separator splits off as the first piece. */
  lemma {:induction false} SplitFirstLine(head: string, rest: string, sep: char)
    requires sep !in head
    ensures Split(head + [sep] + rest, sep) == [head] + Split(rest, sep)
    decreases |head|
  {
    if head == [] {
      assert [] + [sep] + rest == [sep] + rest;
      assert ([sep] + rest)[1..] == rest;
    } else {
      SplitFirstLine(head[1..], rest, sep);
      assert (head + [sep] + rest)[1..] == head[1..] + [sep] + rest;
      assert [head[0]] + head[1..] == head;
    }
  }

  // ---------------------------------------------------------------------
  // JavaScript string helpers

  /** JavaScript's white space and line terminators: what `trim` removes and `\s` matches. */
  predicate IsSpace(c: char) {
    || c == ' ' || c == '\t' || c == '\n' || c == '\r' || c == '\U{000B}' || c == '\U{000C}'
    || c == '\U{00A0}' || c == '\U{1680}' || ('\U{2000}' <= c <= '\U{200A}')
    || c == '\U{2028}' || c == '\U{2029}' || c == '\U{202F}' || c == '\U{205F}' || c == '\U{3000}'
    || c == '\U{FEFF}'
  }

  predicate NoSpace(s: string) {
    forall i :: 0 <= i < |s| ==> !IsSpace(s[i])
  }

  predicate AllSpace(s: string) {
    forall i :: 0 <= i < |s| ==> IsSpace(s[i])
  }

  /** The number of white-space characters `s` starts with. */
  function LeadingSpaces(s: string): (k: nat)
    ensures k <= |s| && AllSpace(s[..k]) && (k < |s| ==> !IsSpace(s[k]))
  {
    if s != [] && IsSpace(s[0]) then
      var k := LeadingSpaces(s[1..]);
      assert s[..k + 1] == [s[0]] + s[1..][..k];
      k + 1
    else 0
  }

  /** Where the white space `s` ends with begins. */
  function TrailingSpaces(s: string): (k: nat)
    ensures k <= |s| && AllSpace(s[k..]) && (0 < k ==> !IsSpace(s[k - 1]))
  {
    if s != [] && IsSpace(s[|s| - 1]) then
      var k := TrailingSpaces(s[..|s| - 1]);
      assert s[k..] == s[..|s| - 1][k..] + [s[|s| - 1]];
      k
    else |s|
  }

  /** `trim()`: a middle part of `s`, without white space at either end, cut from white space only. */
  function Trim(s: string): (r: string)
    ensures exists i, j :: 0 <= i <= j <= |s| && r == s[i..j] && AllSpace(s[..i]) && AllSpace(s[j..])
    ensures r == [] || (!IsSpace(r[0]) && !IsSpace(r[|r| - 1]))
  {
    var i := LeadingSpaces(s);
    var k := TrailingSpaces(s[i..]);
    assert s[i..][k..] == s[i + k..];
    assert s[i..][..k] == s[i..i + k];
    s[i..][..k]
  }
}
