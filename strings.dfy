/**
 * The handful of Python `str` operations the services rely on, over `seq<char>`:
 * `strip`, `rstrip(c)`, `lower`, `startswith`, `in`, `split(sep)`, `int(...)` and `str(int)`.
 * Character classes are ASCII: `IsSpace` is `str.isspace()` restricted to ASCII and
 * `LowerChar` is `str.lower()` on `A`..`Z`.
 */
module Strings {
  import opened Wrappers

  predicate IsSpace(c: char) {
    c == ' ' || c == '\t' || c == '\n' || c == '\r' || c == '\U{0B}' || c == '\U{0C}'
    || ('\U{1C}' <= c <= '\U{1F}')
  }

  predicate IsDigit(c: char) {
    '0' <= c <= '9'
  }

  /** A non-empty run of decimal digits (regex `\d+` matching a whole string). */
  predicate IsDigits(s: string) {
    |s| > 0 && forall i :: 0 <= i < |s| ==> IsDigit(s[i])
  }

  predicate StartsWith<T(==)>(s: seq<T>, prefix: seq<T>) {
    |prefix| <= |s| && s[..|prefix|] == prefix
  }

  predicate EndsWith<T(==)>(s: seq<T>, suffix: seq<T>) {
    |suffix| <= |s| && s[|s| - |suffix|..] == suffix
  }

  // ---------------------------------------------------------------- strip

  /** `s.lstrip()`. */
  function TrimStart(s: string): (r: string)
    ensures |r| <= |s| && r == s[|s| - |r|..]
    ensures r == [] || !IsSpace(r[0])
    ensures forall i :: 0 <= i < |s| - |r| ==> IsSpace(s[i])
  {
    if |s| > 0 && IsSpace(s[0]) then TrimStart(s[1..]) else s
  }

  /** `s.rstrip()`. */
  function TrimEnd(s: string): (r: string)
    ensures |r| <= |s| && r == s[..|r|]
    ensures r == [] || !IsSpace(r[|r| - 1])
    ensures forall i :: |r| <= i < |s| ==> IsSpace(s[i])
  {
    if |s| > 0 && IsSpace(s[|s| - 1]) then TrimEnd(s[..|s| - 1]) else s
  }

  /** `s.strip()`: the text between the leading and the trailing whitespace. */
  function Strip(s: string): (r: string)
    ensures |r| <= |s|
    ensures r == [] || (!IsSpace(r[0]) && !IsSpace(r[|r| - 1]))
    ensures r == [] <==> forall i :: 0 <= i < |s| ==> IsSpace(s[i])
  {
    var t := TrimStart(s);
    assert t == [] ==> forall i :: 0 <= i < |s| ==> IsSpace(s[i]);
    assert t != [] ==> !IsSpace(s[|s| - |t|]);
    TrimEnd(t)
  }

  /** `s.rstrip(c)`: `s` without its trailing copies of `c`. */
  function RStripChar(s: string, c: char): (r: string)
    ensures |r| <= |s| && r == s[..|r|]
    ensures r == [] || r[|r| - 1] != c
    ensures forall i :: |r| <= i < |s| ==> s[i] == c
  {
    if |s| > 0 && s[|s| - 1] == c then RStripChar(s[..|s| - 1], c) else s
  }

  lemma {:induction false} TrimStartOfTrimmed(s: string)
    requires s == [] || !IsSpace(s[0])
    ensures TrimStart(s) == s
  {
  }

  lemma {:induction false} TrimEndOfTrimmed(s: string)
    requires s == [] || !IsSpace(s[|s| - 1])
    ensures TrimEnd(s) == s
  {
  }

  // ---------------------------------------------------------------- case

  function LowerChar(c: char): char {
    if 'A' <= c <= 'Z' then (c as int - 'A' as int + 'a' as int) as char else c
  }

  /** `s.lower()`. */
  function Lower(s: string): (r: string)
    ensures |r| == |s|
    ensures forall i :: 0 <= i < |s| ==> r[i] == LowerChar(s[i])
  {
    seq(|s|, i requires 0 <= i < |s| => LowerChar(s[i]))
  }

  predicate IsLowerAscii(s: string) {
    forall i :: 0 <= i < |s| ==> !('A' <= s[i] <= 'Z')
  }

  /** Text without capital letters is its own lower-case form. */
  lemma LowerOfLower(s: string)
    requires IsLowerAscii(s)
    ensures Lower(s) == s
  {
  }

  // ---------------------------------------------------------------- search

  predicate OccursAt(s: string, sub: string, i: nat) {
    i + |sub| <= |s| && s[i..i + |sub|] == sub
  }

  /** The leftmost position at or after `from` where `sub` occurs in `s`. */
  function FindFrom(s: string, sub: string, from: nat): (r: Option<nat>)
    requires from <= |s|
    ensures r.Some? ==> from <= r.value && OccursAt(s, sub, r.value)
    ensures forall k: nat :: from <= k && (r.None? || k < r.value) ==> !OccursAt(s, sub, k)
    decreases |s| - from
  {
    if OccursAt(s, sub, from) then Some(from)
    else if from == |s| then None
    else FindFrom(s, sub, from + 1)
  }

  /** Python's `sub in s`. */
  predicate Contains(s: string, sub: string) {
    FindFrom(s, sub, 0).Some?
  }

  lemma ContainsAt(s: string, sub: string, i: nat)
    requires OccursAt(s, sub, i)
    ensures Contains(s, sub)
  {
  }

  /** In `a + b + (c + d)`, `b` occurs and `d` is the end. */
  lemma MiddleAndEnd(a: string, b: string, c: string, d: string)
    ensures Contains(a + b + (c + d), b) && EndsWith(a + b + (c + d), d)
  {
    var s := a + b + (c + d);
    assert s[|a|..|a| + |b|] == b;
    ContainsAt(s, b, |a|);
    assert s[|s| - |d|..] == d;
  }

  /** The first index of `c` in `s`. */
  function IndexOfChar(s: string, c: char): (r: Option<nat>)
    ensures r.Some? ==> r.value < |s| && s[r.value] == c && c !in s[..r.value]
    ensures r.None? <==> c !in s
  {
    if |s| == 0 then None
    else if s[0] == c then Some(0)
    else match IndexOfChar(s[1..], c)
      case None => None
      case Some(k) =>
        assert s[1..][..k] == s[1..k + 1];
        Some(k + 1)
  }

  /** The first index of `s` whose element satisfies `p` (a `for ... : if p(x): return` loop). */
  function FirstWhere<T>(s: seq<T>, p: T -> bool): (r: Option<nat>)
    ensures r.Some? ==> r.value < |s| && p(s[r.value])
    ensures forall k :: 0 <= k < |s| && (r.None? || k < r.value) ==> !p(s[k])
  {
    if |s| == 0 then None
    else if p(s[0]) then Some(0)
    else match FirstWhere(s[1..], p)
      case None => None
      case Some(k) => Some(k + 1)
  }

  /** A loop that stops at the first match finds what `FirstWhere` names. */
  lemma FirstWhereAt<T>(s: seq<T>, p: T -> bool, i: nat)
    requires i < |s| && p(s[i]) && forall k :: 0 <= k < i ==> !p(s[k])
    ensures FirstWhere(s, p) == Some(i)
  {
  }

  /** One more element that fails `p` extends a prefix in which none holds. */
  lemma NoneUpToNext<T>(s: seq<T>, p: T -> bool, i: nat)
    requires i < |s| && !p(s[i]) && forall k :: 0 <= k < i ==> !p(s[k])
    ensures forall k :: 0 <= k < i + 1 ==> !p(s[k])
  {
  }

  /** The end of the longest run of characters satisfying `p` that starts at `from`. */
  function RunEnd(s: string, from: nat, p: char -> bool): (j: nat)
    requires from <= |s|
    ensures from <= j <= |s|
    ensures forall k :: from <= k < j ==> p(s[k])
    ensures j == |s| || !p(s[j])
    decreases |s| - from
  {
    if from < |s| && p(s[from]) then RunEnd(s, from + 1, p) else from
  }

  /** A sequence ends with every suffix of its last part. */
  lemma EndsWithSuffixOfLast<T>(a: seq<T>, b: seq<T>, k: nat)
    requires k <= |b|
    ensures EndsWith(a + b, b[k..])
  {
    assert (a + b)[|a + b| - |b[k..]|..] == b[k..];
  }

  /** Ending with `b`, which ends with `c`, is ending with `c`. */
  lemma EndsWithTrans<T>(a: seq<T>, b: seq<T>, c: seq<T>)
    requires EndsWith(a, b) && EndsWith(b, c)
    ensures EndsWith(a, c)
  {
    assert a[|a| - |c|..] == b[|b| - |c|..];
  }

  /** `s[:n]`. */
  function Take(s: string, n: nat): (r: string)
    ensures |r| <= n && StartsWith(s, r)
    ensures |s| <= n ==> r == s
  {
    if |s| <= n then s else s[..n]
  }

  // ---------------------------------------------------------------- split

  /** The inverse of `Split`: the parts glued back together with `sep`. */
  function Join(parts: seq<string>, sep: char): string
    requires |parts| >= 1
  {
    if |parts| == 1 then parts[0] else parts[0] + [sep] + Join(parts[1..], sep)
  }

  /** `s.split(sep)` for a one-character separator. */
  function Split(s: string, sep: char): (parts: seq<string>)
    ensures |parts| >= 1
    ensures forall i :: 0 <= i < |parts| ==> sep !in parts[i]
    decreases |s|
  {
    match IndexOfChar(s, sep)
    case None => [s]
    case Some(k) => [s[..k]] + Split(s[k + 1..], sep)
  }

  /** Joining the parts of a split with the separator gives back the text. */
  lemma {:induction false} JoinSplit(s: string, sep: char)
    ensures Join(Split(s, sep), sep) == s
    decreases |s|
  {
    match IndexOfChar(s, sep)
    case None =>
    case Some(k) =>
      var rest := Split(s[k + 1..], sep);
      assert Split(s, sep)[1..] == rest;
      JoinSplit(s[k + 1..], sep);
      assert s == s[..k] + [sep] + s[k + 1..];
  }

  /** `a, b = s.split(sep)`: the two sides of the only `sep`; `None` where the unpacking raises. */
  function SplitPair(s: string, sep: char): (r: Option<(string, string)>)
    ensures r.Some? ==> r.value.0 + [sep] + r.value.1 == s && sep !in r.value.0 && sep !in r.value.1
  {
    var parts := Split(s, sep);
    if |parts| == 2 then
      JoinSplit(s, sep);
      assert Join(parts, sep) == parts[0] + [sep] + parts[1];
      Some((parts[0], parts[1]))
    else None
  }

  /** Two sides without the separator are read back from `a + [sep] + b`. */
  lemma SplitPairOf(a: string, b: string, sep: char)
    requires sep !in a && sep !in b
    ensures SplitPair(a + [sep] + b, sep) == Some((a, b))
  {
    var s := a + [sep] + b;
    assert s[..|a|] == a && s[|a|] == sep;
    assert IndexOfChar(s, sep) == Some(|a|) by {
      assert sep in s;
    }
    assert s[|a| + 1..] == b;
    assert Split(b, sep) == [b];
  }

  /** The first part of a split is the text before the first separator. */
  lemma SplitFirst(s: string, sep: char, k: nat)
    requires IndexOfChar(s, sep) == Some(k)
    ensures Split(s, sep)[0] == s[..k]
  {
  }

  // ---------------------------------------------------------------- numbers

  function DigitValue(c: char): nat
    requires IsDigit(c)
  {
    c as int - '0' as int
  }

  function DigitChar(d: nat): (c: char)
    requires d < 10
    ensures IsDigit(c) && DigitValue(c) == d
  {
    ('0' as int + d) as char
  }

  /** The number a run of decimal digits denotes (`int(s)` for such `s`). */
  function DigitsValue(s: string): nat
    requires forall i :: 0 <= i < |s| ==> IsDigit(s[i])
  {
    if |s| == 0 then 0 else 10 * DigitsValue(s[..|s| - 1]) + DigitValue(s[|s| - 1])
  }

  /** `str(n)` for a natural number: its canonical decimal digits. */
  function NatToString(n: nat): (r: string)
    ensures IsDigits(r) && DigitsValue(r) == n
    ensures r[0] == '0' ==> n == 0
    decreases n
  {
    if n < 10 then
      assert [DigitChar(n)][..0] == [];
      [DigitChar(n)]
    else
      var h := NatToString(n / 10);
      var r := h + [DigitChar(n % 10)];
      assert r[..|r| - 1] == h;
      r
  }

  /** `str(i)` for an integer. */
  function IntToString(i: int): (r: string)
    ensures |r| > 0 && !IsSpace(r[0]) && !IsSpace(r[|r| - 1])
  {
    if i < 0 then "-" + NatToString(-i) else NatToString(i)
  }

  /** Python's `int(s)` on text: surrounding whitespace, an optional sign, decimal digits. */
  function ParseInt(s: string): (r: Option<int>)
    ensures r.Some? ==> exists k :: 0 <= k < |s| && IsDigit(s[k])
  {
    var t := Strip(s);
    if |t| > 0 && (t[0] == '-' || t[0] == '+') && IsDigits(t[1..]) then
      var v: int := DigitsValue(t[1..]);
      ParseIntWitness(s, 1);
      Some(if t[0] == '-' then -v else v)
    else if IsDigits(t) then
      ParseIntWitness(s, 0);
      Some(DigitsValue(t))
    else None
  }

  lemma ParseIntWitness(s: string, k: nat)
    requires k < |Strip(s)| && IsDigit(Strip(s)[k])
    ensures exists j :: 0 <= j < |s| && IsDigit(s[j])
  {
    var lead := TrimStart(s);
    var t := TrimEnd(lead);
    assert Strip(s) == t;
    assert t == lead[..|t|];
    assert lead == s[|s| - |lead|..];
    var j := |s| - |lead| + k;
    assert s[j] == t[k];
    assert IsDigit(s[j]);
  }

  /** `int(s)` of a run of digits is the number they denote. */
  lemma ParseIntOfDigits(s: string)
    requires IsDigits(s)
    ensures ParseInt(s) == Some(DigitsValue(s) as int)
  {
    TrimStartOfTrimmed(s);
    TrimEndOfTrimmed(s);
    assert Strip(s) == s;
  }

  /** `int(str(i)) == i`: printing an integer and parsing it back is the identity. */
  lemma ParseIntOfIntToString(i: int)
    ensures ParseInt(IntToString(i)) == Some(i)
  {
    var r := IntToString(i);
    TrimStartOfTrimmed(r);
    TrimEndOfTrimmed(r);
    assert Strip(r) == r;
    if i < 0 {
      assert r[1..] == NatToString(-i);
    }
  }

  // ---------------------------------------------------------------- repr

  const HEX_DIGITS := "0123456789abcdef"

  /** The quote `repr(s)` uses: `"` when `s` holds a `'` and no `"`, otherwise `'`. */
  function ReprQuote(s: string): (q: char)
    ensures q == '\'' || q == '"'
  {
    if '\'' in s && '"' !in s then '"' else '\''
  }

  /** An ASCII control character, which `repr` writes as an escape. */
  predicate IsControl(c: char) {
    c < ' ' || c == '\U{7F}'
  }

  /** How `repr` writes one character between quotes `q`. */
  function EscapeChar(c: char, q: char): (r: string)
    ensures (c == q || c == '\\' || IsControl(c)) <==> r != [c]
    ensures r != [c] ==> |r| >= 2 && r[0] == '\\'
  {
    if c == q || c == '\\' then ['\\', c]
    else if c == '\t' then "\\t"
    else if c == '\n' then "\\n"
    else if c == '\r' then "\\r"
    else if IsControl(c) then "\\x" + [HEX_DIGITS[c as int / 16], HEX_DIGITS[c as int % 16]]
    else [c]
  }

  /** The characters of `s` as `repr` writes them between quotes `q`. */
  function Escape(s: string, q: char): (r: string)
    ensures |r| >= |s|
  {
    if s == [] then [] else EscapeChar(s[0], q) + Escape(s[1..], q)
  }

  /** `repr(s)` of a `str`: quoted, with the quote, `\\` and control characters escaped. */
  function PyRepr(s: string): (r: string)
    ensures |r| >= |s| + 2 && r[0] == ReprQuote(s) && r[|r| - 1] == ReprQuote(s)
  {
    var q := ReprQuote(s);
    [q] + Escape(s, q) + [q]
  }

  /** The value of a hexadecimal digit. */
  function HexValue(c: char): (r: Option<nat>)
    ensures r.Some? ==> r.value < 16
  {
    if '0' <= c <= '9' then Some(c as int - '0' as int)
    else if 'a' <= c <= 'f' then Some(c as int - 'a' as int + 10)
    else if 'A' <= c <= 'F' then Some(c as int - 'A' as int + 10)
    else None
  }

  /** How Python reads the escapes of a string literal back: the inverse of `Escape`. */
  function Unescape(t: string): string
    decreases |t|
  {
    if t == [] then []
    else if t[0] == '\\' && |t| >= 2 then
      var e := t[1];
      if e == 't' then ['\t'] + Unescape(t[2..])
      else if e == 'n' then ['\n'] + Unescape(t[2..])
      else if e == 'r' then ['\r'] + Unescape(t[2..])
      else if e == 'x' && |t| >= 4 && HexValue(t[2]).Some? && HexValue(t[3]).Some? then
        [(HexValue(t[2]).value * 16 + HexValue(t[3]).value) as char] + Unescape(t[4..])
      else [e] + Unescape(t[2..])
    else [t[0]] + Unescape(t[1..])
  }

  lemma HexValueOfDigit(n: nat)
    requires n < 16
    ensures HexValue(HEX_DIGITS[n]) == Some(n)
  {
  }

  /** One escaped character reads back as itself, whatever follows it. */
  lemma UnescapeEscapeChar(c: char, q: char, rest: string)
    requires q == '\'' || q == '"'
    ensures Unescape(EscapeChar(c, q) + rest) == [c] + Unescape(rest)
  {
    var t := EscapeChar(c, q) + rest;
    if EscapeChar(c, q) == [c] {
      assert t[1..] == rest;
    } else if IsControl(c) && c != '\t' && c != '\n' && c != '\r' {
      var hi, lo := c as int / 16, c as int % 16;
      HexValueOfDigit(hi);
      HexValueOfDigit(lo);
      assert t[2] == HEX_DIGITS[hi] && t[3] == HEX_DIGITS[lo];
      assert t[4..] == rest;
      assert (hi * 16 + lo) as char == c;
    } else {
      assert t[2..] == rest;
    }
  }

  /** Reading the escapes back gives the original text. */
  lemma {:induction false} UnescapeEscape(s: string, q: char)
    requires q == '\'' || q == '"'
    ensures Unescape(Escape(s, q)) == s
  {
    if s != [] {
      UnescapeEscapeChar(s[0], q, Escape(s[1..], q));
      UnescapeEscape(s[1..], q);
      assert s == [s[0]] + s[1..];
    }
  }

  /** `eval(repr(s)) == s`: the text between the quotes of `repr(s)` reads back as `s`. */
  lemma ReprRoundTrip(s: string)
    ensures var r := PyRepr(s); Unescape(r[1..|r| - 1]) == s
  {
    var r := PyRepr(s);
    assert r[1..|r| - 1] == Escape(s, ReprQuote(s));
    UnescapeEscape(s, ReprQuote(s));
  }

  /** A text with no quote, backslash or control character is written as it is, in single quotes. */
  lemma {:induction false} ReprOfPlain(s: string)
    requires forall k :: 0 <= k < |s| ==> s[k] != '\'' && s[k] != '\\' && !IsControl(s[k])
    ensures PyRepr(s) == "'" + s + "'"
  {
    PlainEscape(s, '\'');
  }

  lemma {:induction false} PlainEscape(s: string, q: char)
    requires forall k :: 0 <= k < |s| ==> s[k] != q && s[k] != '\\' && !IsControl(s[k])
    ensures Escape(s, q) == s
  {
    if s != [] {
      PlainEscape(s[1..], q);
      assert s == [s[0]] + s[1..];
    }
  }

  /** `repr("it's")` is `"it's"`, in double quotes. */
  lemma ReprApostrophe()
    ensures PyRepr("it's") == "\"it's\""
  {
    assert ReprQuote("it's") == '"';
    PlainEscape("it's", '"');
  }

  /** `repr("a\\b")` doubles the backslash. */
  lemma ReprBackslash()
    ensures PyRepr("a\\b") == "'a\\\\b'"
  {
    var s := "a\\b";
    assert ReprQuote(s) == '\'';
    assert Escape(s[2..], '\'') == "b" by { PlainEscape(s[2..], '\''); }
    assert Escape(s[1..], '\'') == "\\\\" + Escape(s[2..], '\'');
    assert Escape(s, '\'') == "a" + Escape(s[1..], '\'');
  }
}
