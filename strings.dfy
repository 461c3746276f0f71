/**
 * String and integer helpers shared by the model: the parts of Go's
 * `strings` and `strconv` packages (and the two character-class regexes
 * `\D` and `\s`) that the DARM pipeline uses.
 */
module Strings {

  // ---------------------------------------------------------------------
  // Character classes
  // ---------------------------------------------------------------------

  /** RE2's `\d`: ASCII digits only. */
  predicate IsDigit(c: char) { '0' <= c <= '9' }

  predicate AllDigits(s: string) {
    forall i :: 0 <= i < |s| ==> IsDigit(s[i])
  }

  /** RE2's `\s`: `[\t\n\f\r ]`. */
  predicate IsRe2Space(c: char) {
    c == ' ' || c == '\t' || c == '\n' || c == '\U{C}' || c == '\r'
  }

  /** Go's `unicode.IsSpace`, used by `strings.TrimSpace`. */
  predicate IsSpace(c: char) {
    c == ' ' || c == '\t' || c == '\n' || c == '\U{B}' || c == '\U{C}' || c == '\r'
    || c == '\U{85}' || c == '\U{A0}' || c == '\U{1680}' || ('\U{2000}' <= c <= '\U{200A}')
    || c == '\U{2028}' || c == '\U{2029}' || c == '\U{202F}' || c == '\U{205F}' || c == '\U{3000}'
  }

  predicate AllSpace(s: string) {
    forall i :: 0 <= i < |s| ==> IsSpace(s[i])
  }

  /** A string that `strings.TrimSpace` leaves as it is. */
  predicate Trimmed(s: string) {
    s == [] || (!IsSpace(s[0]) && !IsSpace(s[|s| - 1]))
  }

  // ---------------------------------------------------------------------
  // Filtering, trimming, replacing
  // ---------------------------------------------------------------------

  /** `regexp.MustCompile(`\D`).ReplaceAllString(s, "")`: the ASCII digits of `s`, in order. */
  function Digits(s: string): (r: string)
    ensures AllDigits(r) && |r| <= |s|
  {
    if s == [] then []
    else if IsDigit(s[0]) then [s[0]] + Digits(s[1..])
    else Digits(s[1..])
  }

  lemma {:induction false} DigitsAppend(a: string, b: string)
    ensures Digits(a + b) == Digits(a) + Digits(b)
  {
    if a != [] {
      assert (a + b)[1..] == a[1..] + b;
      DigitsAppend(a[1..], b);
      if IsDigit(a[0]) {
        assert Digits(a + b) == [a[0]] + (Digits(a[1..]) + Digits(b));
      }
    } else {
      assert a + b == b;
    }
  }

  lemma {:induction false} DigitsOfDigits(s: string)
    requires AllDigits(s)
    ensures Digits(s) == s
  {
    if s != [] {
      DigitsOfDigits(s[1..]);
    }
  }

  /** `s[:n]` when `len(s) > n`, otherwise `s`. */
  function Take(s: string, n: nat): (r: string)
    ensures |r| == if |s| <= n then |s| else n
    ensures r <= s
  {
    if |s| <= n then s else s[..n]
  }

  /** `strings.TrimLeft(s, string(c))`: drop every leading `c`. */
  function TrimLeftChar(s: string, c: char): (r: string)
    ensures |r| <= |s| && s == s[..|s| - |r|] + r
    ensures r != [] ==> r[0] != c
    ensures forall i :: 0 <= i < |s| - |r| ==> s[i] == c
  {
    if s != [] && s[0] == c then TrimLeftChar(s[1..], c) else s
  }

  function TrimLeftSpace(s: string): (r: string)
    ensures |r| <= |s| && r == s[|s| - |r|..]
    ensures r == [] || !IsSpace(r[0])
    ensures AllSpace(s[..|s| - |r|])
  {
    if s != [] && IsSpace(s[0]) then TrimLeftSpace(s[1..]) else s
  }

  function TrimRightSpace(s: string): (r: string)
    ensures |r| <= |s| && r == s[..|r|]
    ensures r == [] || !IsSpace(r[|r| - 1])
    ensures AllSpace(s[|r|..])
  {
    if s != [] && IsSpace(s[|s| - 1]) then TrimRightSpace(s[..|s| - 1]) else s
  }

  /**
   * `strings.TrimSpace`. The ensures below only bound the result;
   * `TrimSpaceSlice` (the result is `s` less a white-space prefix and
   * suffix) and `TrimSpaceAround` (padding a trimmed string and trimming
   * gives it back) characterise it in full.
   */
  function TrimSpace(s: string): (r: string)
    ensures Trimmed(r)
    ensures |r| <= |s|
  {
    TrimRightSpace(TrimLeftSpace(s))
  }

  /** `strings.TrimSpace` removes white space from both ends and nothing else. */
  lemma TrimSpaceSlice(s: string)
    ensures exists i, j :: 0 <= i <= j <= |s| && TrimSpace(s) == s[i..j] && AllSpace(s[..i]) && AllSpace(s[j..])
  {
    var left := TrimLeftSpace(s);
    var r := TrimRightSpace(left);
    var i := |s| - |left|;
    assert r == s[i..i + |r|] && AllSpace(s[..i]);
    assert s[i + |r|..] == left[|r|..];
  }

  lemma TrimSpaceOfTrimmed(s: string)
    requires Trimmed(s)
    ensures TrimSpace(s) == s
  {
  }

  /** Leading white space is dropped by `strings.TrimSpace`. */
  lemma {:induction false} TrimSpaceAfterSpace(w: string, s: string)
    requires AllSpace(w) && Trimmed(s)
    ensures TrimSpace(w + s) == s
  {
    if w != [] {
      assert (w + s)[1..] == w[1..] + s;
      TrimSpaceAfterSpace(w[1..], s);
    } else {
      assert w + s == s;
    }
  }

  /** Trailing white space is dropped by `strings.TrimSpace` too. */
  lemma {:induction false} TrimRightOfSpace(s: string, v: string)
    requires AllSpace(v) && (s == [] || !IsSpace(s[|s| - 1]))
    ensures TrimRightSpace(s + v) == s
    decreases |v|
  {
    if v == [] {
      assert s + v == s;
    } else {
      var t := s + v;
      assert t[..|t| - 1] == s + v[..|v| - 1];
      TrimRightOfSpace(s, v[..|v| - 1]);
    }
  }

  /** A string made only of white space trims to nothing. */
  lemma {:induction false} TrimLeftAllSpace(w: string)
    requires AllSpace(w)
    ensures TrimLeftSpace(w) == []
  {
    if w != [] {
      TrimLeftAllSpace(w[1..]);
    }
  }

  /** `strings.TrimSpace` removes exactly the white space around a trimmed string. */
  lemma TrimSpaceAround(w: string, s: string, v: string)
    requires AllSpace(w) && AllSpace(v) && Trimmed(s)
    ensures TrimSpace(w + s + v) == s
  {
    assert w + s + v == w + (s + v);
    if s == [] {
      assert AllSpace(w + s + v);
      TrimLeftAllSpace(w + s + v);
    } else {
      assert (s + v)[0] == s[0];
      TrimLeftSpaceOf(w, s + v);
      TrimRightOfSpace(s, v);
    }
  }

  lemma {:induction false} TrimLeftSpaceOf(w: string, t: string)
    requires AllSpace(w) && (t == [] || !IsSpace(t[0]))
    ensures TrimLeftSpace(w + t) == t
  {
    if w != [] {
      assert (w + t)[1..] == w[1..] + t;
      TrimLeftSpaceOf(w[1..], t);
    } else {
      assert w + t == t;
    }
  }

  /** `strings.Trim(s, cutset)`: drop leading and trailing characters of `cutset`. */
  function TrimLeftSet(s: string, cutset: set<char>): (r: string)
    ensures r == [] || r[0] !in cutset
  {
    if s != [] && s[0] in cutset then TrimLeftSet(s[1..], cutset) else s
  }

  function TrimRightSet(s: string, cutset: set<char>): (r: string)
    ensures r == [] || r[|r| - 1] !in cutset
  {
    if s != [] && s[|s| - 1] in cutset then TrimRightSet(s[..|s| - 1], cutset) else s
  }

  function Trim(s: string, cutset: set<char>): string {
    TrimRightSet(TrimLeftSet(s, cutset), cutset)
  }

  lemma TrimOfBracketed(open: char, body: string, close: char, cutset: set<char>)
    requires open in cutset && close in cutset
    requires body != [] && body[0] !in cutset && body[|body| - 1] !in cutset
    ensures Trim([open] + body + [close], cutset) == body
  {
    var s := [open] + body + [close];
    assert s[1..] == body + [close];
    assert TrimLeftSet(s, cutset) == body + [close];
    assert (body + [close])[..|body|] == body;
    assert TrimRightSet(body + [close], cutset) == TrimRightSet(body, cutset) == body;
  }

  /** `strings.ReplaceAll(s, string(c), by)` for a one-character pattern. */
  function ReplaceChar(s: string, c: char, repl: string): (r: string)
    ensures c !in repl ==> c !in r
    ensures forall x :: x in r ==> x in s || x in repl
  {
    if s == [] then []
    else (if s[0] == c then repl else [s[0]]) + ReplaceChar(s[1..], c, repl)
  }

  lemma {:induction false} ReplaceCharAbsent(s: string, c: char, repl: string)
    requires c !in s
    ensures ReplaceChar(s, c, repl) == s
  {
    if s != [] {
      ReplaceCharAbsent(s[1..], c, repl);
    }
  }

  /** Remove every character in `cs` (a regex character-class replacement by ""). */
  function RemoveChars(s: string, cs: set<char>): (r: string)
    ensures forall x :: x in r ==> x in s && x !in cs
    ensures |r| <= |s|
  {
    if s == [] then []
    else (if s[0] in cs then [] else [s[0]]) + RemoveChars(s[1..], cs)
  }

  lemma {:induction false} RemoveCharsNone(s: string, cs: set<char>)
    requires forall x :: x in s ==> x !in cs
    ensures RemoveChars(s, cs) == s
  {
    if s != [] {
      RemoveCharsNone(s[1..], cs);
    }
  }

  lemma {:induction false} RemoveCharsAppend(a: string, b: string, cs: set<char>)
    ensures RemoveChars(a + b, cs) == RemoveChars(a, cs) + RemoveChars(b, cs)
  {
    if a == [] {
      assert a + b == b;
    } else {
      assert (a + b)[1..] == a[1..] + b;
      RemoveCharsAppend(a[1..], b, cs);
    }
  }

  lemma {:induction false} ReplaceCharAppend(a: string, b: string, c: char, repl: string)
    ensures ReplaceChar(a + b, c, repl) == ReplaceChar(a, c, repl) + ReplaceChar(b, c, repl)
  {
    if a == [] {
      assert a + b == b;
    } else {
      assert (a + b)[1..] == a[1..] + b;
      ReplaceCharAppend(a[1..], b, c, repl);
    }
  }

  /** Removing a character that occurs once, between two parts without it, joins the parts. */
  lemma {:induction false} RemoveBetween(a: string, c: char, b: string, cs: set<char>)
    requires c in cs
    requires forall x :: x in a ==> x !in cs
    requires forall x :: x in b ==> x !in cs
    ensures RemoveChars(a + [c] + b, cs) == a + b
  {
    var s := a + [c] + b;
    if a == [] {
      assert s == [c] + b && s[1..] == b;
      RemoveCharsNone(b, cs);
    } else {
      assert s[0] == a[0] && a[0] in a;
      assert s[1..] == a[1..] + [c] + b;
      RemoveBetween(a[1..], c, b, cs);
      assert a == [a[0]] + a[1..];
    }
  }

  lemma {:induction false} RemoveCharsAll(w: string, cs: set<char>)
    requires forall x :: x in w ==> x in cs
    ensures RemoveChars(w, cs) == []
  {
    if w != [] {
      assert w[0] in w;
      RemoveCharsAll(w[1..], cs);
    }
  }

  /** A string is what comes before position `k`, the character there, and what follows. */
  lemma SplitAround(s: string, k: nat, c: char)
    requires k < |s| && s[k] == c
    ensures s == s[..k] + [c] + s[k + 1..]
  {
  }

  function Count(s: string, c: char): nat {
    if s == [] then 0 else (if s[0] == c then 1 else 0) + Count(s[1..], c)
  }

  lemma {:induction false} CountAppend(a: string, b: string, c: char)
    ensures Count(a + b, c) == Count(a, c) + Count(b, c)
  {
    if a == [] {
      assert a + b == b;
    } else {
      assert (a + b)[1..] == a[1..] + b;
      CountAppend(a[1..], b, c);
    }
  }

  // ---------------------------------------------------------------------
  // Split and Join
  // ---------------------------------------------------------------------

  /**
   * `strings.Split(s, sep)` for a non-empty separator: the pieces between
   * the leftmost non-overlapping occurrences of `sep`.
   */
  function Split(s: string, sep: string): (r: seq<string>)
    requires sep != []
    ensures |r| >= 1
    decreases |s|
  {
    if |s| < |sep| then [s]
    else if s[..|sep|] == sep then [[]] + Split(s[|sep|..], sep)
    else
      var rest := Split(s[1..], sep);
      [[s[0]] + rest[0]] + rest[1..]
  }

  /** `strings.Join(xs, sep)`. */
  function Join(xs: seq<string>, sep: string): string {
    if xs == [] then []
    else if |xs| == 1 then xs[0]
    else xs[0] + sep + Join(xs[1..], sep)
  }

  lemma {:induction false} JoinAllDigits(xs: seq<string>)
    requires forall i :: 0 <= i < |xs| ==> AllDigits(xs[i])
    ensures AllDigits(Join(xs, ""))
  {
    if |xs| > 1 {
      JoinAllDigits(xs[1..]);
      assert Join(xs, "") == xs[0] + Join(xs[1..], "");
    }
  }

  /** Replacing a one-character separator rejoins the parts with the replacement. */
  lemma {:induction false} ReplaceCharJoin(xs: seq<string>, c: char, repl: string)
    requires forall i :: 0 <= i < |xs| ==> c !in xs[i]
    ensures ReplaceChar(Join(xs, [c]), c, repl) == Join(xs, repl)
  {
    if |xs| == 1 {
      ReplaceCharAbsent(xs[0], c, repl);
    } else if |xs| > 1 {
      ReplaceCharJoin(xs[1..], c, repl);
      ReplaceCharAppend(xs[0] + [c], Join(xs[1..], [c]), c, repl);
      ReplaceCharAppend(xs[0], [c], c, repl);
      ReplaceCharAbsent(xs[0], c, repl);
      assert ReplaceChar([c], c, repl) == repl;
    }
  }

  lemma {:induction false} SplitNoSep(x: string, sep: string)
    requires sep != [] && sep[0] !in x
    ensures Split(x, sep) == [x]
    decreases |x|
  {
    if |x| >= |sep| {
      assert x[..|sep|][0] == x[0] != sep[0];
      SplitNoSep(x[1..], sep);
      assert [x[0]] + x[1..] == x;
    }
  }

  lemma {:induction false} SplitAtSep(x: string, sep: string, rest: string)
    requires sep != [] && sep[0] !in x
    ensures Split(x + sep + rest, sep) == [x] + Split(rest, sep)
    decreases |x|
  {
    var s := x + sep + rest;
    if x == [] {
      assert s == sep + rest;
      assert s[..|sep|] == sep;
      assert s[|sep|..] == rest;
    } else {
      assert s[..|sep|][0] == x[0] != sep[0];
      assert s[1..] == x[1..] + sep + rest;
      SplitAtSep(x[1..], sep, rest);
      assert [x[0]] + x[1..] == x;
    }
  }

  /** Splitting a join gives the parts back when no part holds the separator's first character. */
  lemma {:induction false} SplitJoin(xs: seq<string>, sep: string)
    requires sep != [] && |xs| >= 1
    requires forall i :: 0 <= i < |xs| ==> sep[0] !in xs[i]
    ensures Split(Join(xs, sep), sep) == xs
  {
    if |xs| == 1 {
      SplitNoSep(xs[0], sep);
    } else {
      SplitJoin(xs[1..], sep);
      SplitAtSep(xs[0], sep, Join(xs[1..], sep));
      assert [xs[0]] + xs[1..] == xs;
    }
  }

  // ---------------------------------------------------------------------
  // Decimal numbers
  // ---------------------------------------------------------------------

  function DigitChar(d: nat): (c: char)
    requires d < 10
    ensures IsDigit(c)
  {
    ['0', '1', '2', '3', '4', '5', '6', '7', '8', '9'][d]
  }

  function DigitValue(c: char): (d: nat)
    requires IsDigit(c)
    ensures d < 10 && DigitChar(d) == c
  {
    (c as int - '0' as int) as nat
  }

  /** Value of a string of decimal digits, most significant first; `""` is 0. */
  function ParseDigits(s: string): nat
    requires AllDigits(s)
  {
    if s == [] then 0 else 10 * ParseDigits(s[..|s| - 1]) + DigitValue(s[|s| - 1])
  }

  /** `strconv.Itoa` / `%d` for a non-negative value: the shortest decimal numeral. */
  function NatToString(n: nat): (r: string)
    ensures AllDigits(r) && r != []
    ensures r[0] == '0' ==> n == 0 && |r| == 1
  {
    if n < 10 then [DigitChar(n)] else NatToString(n / 10) + [DigitChar(n % 10)]
  }

  /** `strconv.Itoa` / `%d` / `%v` for an `int`. */
  function IntToString(i: int): (r: string)
    ensures r != []
    ensures i >= 0 ==> AllDigits(r)
    ensures i < 0 ==> r[0] == '-' && AllDigits(r[1..])
  {
    if i < 0 then "-" + NatToString(-i) else NatToString(i)
  }

  /** A decimal numeral without superfluous leading zeros. */
  predicate Canonical(s: string) {
    s != [] && AllDigits(s) && (s[0] == '0' ==> |s| == 1)
  }

  lemma {:induction false} ParseNatToString(n: nat)
    ensures ParseDigits(NatToString(n)) == n
  {
    if n >= 10 {
      var s := NatToString(n);
      ParseNatToString(n / 10);
      assert s[..|s| - 1] == NatToString(n / 10);
    }
  }

  lemma {:induction false} ParseDigitsLeadingZero(s: string)
    requires AllDigits(s) && s != [] && s[0] == '0'
    ensures ParseDigits(s) == ParseDigits(s[1..])
    decreases |s|
  {
    if |s| > 1 {
      ParseDigitsLeadingZero(s[..|s| - 1]);
      assert s[..|s| - 1][1..] == s[1..][..|s[1..]| - 1];
    }
  }

  lemma {:induction false} ParseDigitsBound(s: string)
    requires AllDigits(s) && s != [] && s[0] != '0'
    ensures ParseDigits(s) >= Pow10(|s| - 1)
    decreases |s|
  {
    if |s| > 1 {
      ParseDigitsBound(s[..|s| - 1]);
    }
  }

  lemma {:induction false} NatToStringLength(n: nat, k: nat)
    requires Pow10(k) <= n < Pow10(k + 1)
    ensures |NatToString(n)| == k + 1
  {
    if k > 0 {
      NatToStringLength(n / 10, k - 1);
    }
  }

  /** A canonical numeral is the numeral of its value. */
  lemma {:induction false} NatToStringParse(s: string)
    requires Canonical(s)
    ensures NatToString(ParseDigits(s)) == s
    decreases |s|
  {
    if |s| > 1 {
      var init := s[..|s| - 1];
      assert init[0] == s[0] != '0';
      ParseDigitsBound(init);
      NatToStringParse(init);
      var n, m, d := ParseDigits(s), ParseDigits(init), DigitValue(s[|s| - 1]);
      assert n == 10 * m + d && m >= 1;
      assert n / 10 == m && n % 10 == d;
      assert NatToString(n) == NatToString(m) + [DigitChar(d)];
      assert s == init + [s[|s| - 1]];
    }
  }

  function Pow10(k: nat): (p: nat)
    ensures p >= 1
  {
    if k == 0 then 1 else 10 * Pow10(k - 1)
  }

  /** Exactly `w` digits of `n`, zero-padded on the left (Go's `appendInt(b, n, w)` when `n < 10^w`). */
  function FixedWidth(n: nat, w: nat): (r: string)
    ensures |r| == w && AllDigits(r)
  {
    if w == 0 then [] else FixedWidth(n / 10, w - 1) + [DigitChar(n % 10)]
  }

  lemma {:induction false} ParseFixedWidth(n: nat, w: nat)
    requires n < Pow10(w)
    ensures ParseDigits(FixedWidth(n, w)) == n
  {
    if w > 0 {
      var s := FixedWidth(n, w);
      assert s[..|s| - 1] == FixedWidth(n / 10, w - 1);
      assert s[|s| - 1] == DigitChar(n % 10);
      assert n / 10 < Pow10(w - 1) && n == 10 * (n / 10) + n % 10;
      ParseFixedWidth(n / 10, w - 1);
    }
  }

  lemma {:induction false} FixedWidthParse(s: string)
    requires AllDigits(s)
    ensures FixedWidth(ParseDigits(s), |s|) == s
  {
    if s != [] {
      var init := s[..|s| - 1];
      FixedWidthParse(init);
      var n := ParseDigits(s);
      assert n / 10 == ParseDigits(init) && n % 10 == DigitValue(s[|s| - 1]);
      assert init + [s[|s| - 1]] == s;
    }
  }

  /** A two-digit numeral, digit by digit. */
  lemma ParseTwoDigits(s: string)
    requires |s| == 2 && AllDigits(s)
    ensures ParseDigits(s) == 10 * DigitValue(s[0]) + DigitValue(s[1])
  {
    var first := s[..1];
    assert first[..0] == [] && first[0] == s[0];
    assert ParseDigits(first) == DigitValue(s[0]);
  }

  /** A four-digit numeral, digit by digit. */
  lemma ParseFourDigits(s: string)
    requires |s| == 4 && AllDigits(s)
    ensures ParseDigits(s) == 1000 * DigitValue(s[0]) + 100 * DigitValue(s[1]) + 10 * DigitValue(s[2]) + DigitValue(s[3])
  {
    ParseTwoDigits(s[..2]);
    assert s[..3][..2] == s[..2];
    assert s[..2][..1][..0] == [];
  }

  lemma {:induction false} ParseDigitsBelow(s: string)
    requires AllDigits(s)
    ensures ParseDigits(s) < Pow10(|s|)
  {
    if s != [] {
      ParseDigitsBelow(s[..|s| - 1]);
    }
  }

  // ---------------------------------------------------------------------
  // Go integer semantics
  // ---------------------------------------------------------------------

  const MaxInt64: int := 0x7FFF_FFFF_FFFF_FFFF
  const MinInt64: int := -0x8000_0000_0000_0000
  const MaxUint64: int := 0xFFFF_FFFF_FFFF_FFFF

  function ClampInt64(i: int): (r: int)
    ensures MinInt64 <= r <= MaxInt64
    ensures MinInt64 <= i <= MaxInt64 ==> r == i
  {
    if i < MinInt64 then MinInt64 else if i > MaxInt64 then MaxInt64 else i
  }

  /** Length of the longest prefix of `s` made of digits. */
  function DigitPrefixLength(s: string): (k: nat)
    ensures k <= |s| && AllDigits(s[..k])
    ensures k < |s| ==> !IsDigit(s[k])
  {
    if s != [] && IsDigit(s[0]) then
      var k := 1 + DigitPrefixLength(s[1..]);
      assert s[..k] == [s[0]] + s[1..][..k - 1];
      k
    else 0
  }

  /**
   * `strconv.Atoi(s)` with its error ignored, on a 64-bit platform: an
   * optional sign and decimal digits give their value, clamped to the
   * `int64` range when it overflows; any other string gives 0, except that
   * `ParseUint` reports the overflow (and so the clamped value) as soon as
   * the digits read so far exceed `2^64 - 1`, before it sees a bad character.
   */
  function Atoi(s: string): (r: int)
    ensures MinInt64 <= r <= MaxInt64
  {
    var signed := s != [] && (s[0] == '-' || s[0] == '+');
    var negative := s != [] && s[0] == '-';
    var body := if signed then s[1..] else s;
    var k := DigitPrefixLength(body);
    var v: int := ParseDigits(body[..k]);
    if k == |body| && k > 0 then ClampInt64(if negative then -v else v)
    else if v > MaxUint64 then (if negative then MinInt64 else MaxInt64)
    else 0
  }

  /** The value of a canonical numeral that fits `int64` is what `Atoi` reads. */
  lemma AtoiCanonical(s: string)
    requires AllDigits(s) && s != [] && ParseDigits(s) <= MaxInt64
    ensures Atoi(s) == ParseDigits(s)
  {
    assert s[0] != '-' && s[0] != '+';
    assert s[..|s|] == s;
  }

  /** Go's `%` on integers: truncated division, the remainder takes the sign of `a`. */
  function GoRem(a: int, b: int): (r: int)
    requires b > 0
    ensures -b < r < b
    ensures a >= 0 ==> r == a % b
    ensures a < 0 ==> r <= 0
  {
    if a >= 0 then a % b else -((-a) % b)
  }
}
