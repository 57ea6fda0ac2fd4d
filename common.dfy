/**
 * Shared vocabulary of the model: an Option type for the nullable values of the
 * application, and the handful of JavaScript string and number primitives the
 * application code relies on (`trim`, `toLowerCase`, `includes`, `padStart`,
 * `split`, `join`, `toString`, `toFixed(2)`, `Math.trunc`), each written out
 * with the JavaScript semantics for the inputs the model covers.
 */
module Common {

  datatype Option<+T> = None | Some(value: T) {
    /** The JavaScript `x ?? d` idiom. */
    function GetOr(d: T): T {
      match this
      case Some(v) => v
      case None => d
    }
  }

  /** `s || d` on a text: a missing or empty text gives the default. */
  function TextOr(s: Option<string>, d: string): (r: string)
    ensures r == d <==> s.None? || s.value == "" || s.value == d
    ensures r != d ==> s == Some(r)
  {
    if s.None? || s.value == "" then d else s.value
  }

  /** `x || d` on a number: a missing value or 0 gives the default. */
  function NumOr(x: Option<real>, d: real): (r: real)
    ensures x.None? || x.value == 0.0 ==> r == d
    ensures x.Some? && x.value != 0.0 ==> r == x.value
  {
    if x.None? || x.value == 0.0 then d else x.value
  }

  /** The answer of a remote query: an error, no data, or rows. */
  datatype Answer<T> = Failed | NoData | Data(value: T)

  // ---------------------------------------------------------------------------
  // Sequences

  /** `xs.filter(p)`: the members satisfying `p`, in their order. */
  function Filter<T>(xs: seq<T>, p: T -> bool): (r: seq<T>)
    ensures |r| <= |xs|
    ensures forall k :: 0 <= k < |r| ==> p(r[k]) && r[k] in xs
  {
    if xs == [] then [] else (if p(xs[0]) then [xs[0]] else []) + Filter(xs[1..], p)
  }

  /** A value is kept exactly when it is a member satisfying the test. */
  lemma {:induction false} FilterIff<T>(xs: seq<T>, p: T -> bool, x: T)
    ensures x in Filter(xs, p) <==> x in xs && p(x)
  {
    if xs != [] {
      FilterIff(xs[1..], p, x);
      assert xs == [xs[0]] + xs[1..];
    }
  }

  /** Filtering is done piecewise: the order of the kept members is that of the input. */
  lemma {:induction false} FilterAppend<T>(xs: seq<T>, ys: seq<T>, p: T -> bool)
    ensures Filter(xs + ys, p) == Filter(xs, p) + Filter(ys, p)
  {
    if xs == [] {
      assert xs + ys == ys;
    } else {
      assert (xs + ys)[1..] == xs[1..] + ys;
      FilterAppend(xs[1..], ys, p);
    }
  }

  /** A test every member passes keeps the whole sequence. */
  lemma {:induction false} FilterAll<T>(xs: seq<T>, p: T -> bool)
    requires forall k :: 0 <= k < |xs| ==> p(xs[k])
    ensures Filter(xs, p) == xs
  {
    if xs != [] {
      FilterAll(xs[1..], p);
    }
  }

  /** A test no member passes keeps nothing. */
  lemma {:induction false} FilterNone<T>(xs: seq<T>, p: T -> bool)
    requires forall k :: 0 <= k < |xs| ==> !p(xs[k])
    ensures Filter(xs, p) == []
  {
    if xs != [] {
      FilterNone(xs[1..], p);
    }
  }

  /**
   * With a stricter test the result is the looser test's result filtered again:
   * a subsequence of it.
   */
  lemma {:induction false} FilterStricter<T>(xs: seq<T>, strict: T -> bool, loose: T -> bool)
    requires forall x :: strict(x) ==> loose(x)
    ensures Filter(xs, strict) == Filter(Filter(xs, loose), strict)
  {
    if xs != [] {
      FilterStricter(xs[1..], strict, loose);
      assert Filter(xs, strict) == (if strict(xs[0]) then [xs[0]] else []) + Filter(xs[1..], strict);
      if loose(xs[0]) {
        var kept := Filter(xs, loose);
        assert kept == [xs[0]] + Filter(xs[1..], loose);
        assert kept[0] == xs[0] && kept[1..] == Filter(xs[1..], loose);
        assert Filter(kept, strict) == (if strict(xs[0]) then [xs[0]] else []) + Filter(kept[1..], strict);
      } else {
        assert !strict(xs[0]);
        assert Filter(xs, loose) == Filter(xs[1..], loose);
      }
    }
  }

  /** One more element of a loop's prefix. */
  lemma PrefixStep<T>(xs: seq<T>, i: int)
    requires 0 <= i < |xs|
    ensures xs[..i + 1] == xs[..i] + [xs[i]]
  {
  }

  /** The full prefix is the sequence. */
  lemma PrefixAll<T>(xs: seq<T>)
    ensures xs[..|xs|] == xs
  {
  }

  /** The position `xs.find(p)` stops at: the first member satisfying `p`, if any. */
  function FindIndex<T>(xs: seq<T>, p: T -> bool): (r: Option<nat>)
    ensures r.None? <==> forall k :: 0 <= k < |xs| ==> !p(xs[k])
    ensures r.Some? ==> r.value < |xs| && p(xs[r.value])
    ensures r.Some? ==> forall k :: 0 <= k < r.value ==> !p(xs[k])
  {
    if xs == [] then None
    else if p(xs[0]) then Some(0)
    else
      match FindIndex(xs[1..], p)
      case None => None
      case Some(i) => Some(i + 1)
  }

  /** Searching a longer sequence finds the same member, or else the new last one. */
  lemma {:induction false} FindIndexAppend<T>(xs: seq<T>, e: T, p: T -> bool)
    ensures FindIndex(xs + [e], p) ==
      if FindIndex(xs, p).Some? then FindIndex(xs, p) else if p(e) then Some(|xs|) else None
  {
    if xs != [] {
      assert (xs + [e])[0] == xs[0];
      assert (xs + [e])[1..] == xs[1..] + [e];
      FindIndexAppend(xs[1..], e, p);
    }
  }

  // ---------------------------------------------------------------------------
  // Numbers

  /** `Math.trunc(a / b)` for a positive divisor: division rounding toward zero. */
  function TruncDiv(a: int, b: int): int
    requires b > 0
  {
    if a >= 0 then a / b else -((-a) / b)
  }

  function Abs(x: real): real {
    if x < 0.0 then -x else x
  }

  /** The integer nearest to a non-negative real, ties going up. */
  function RoundHalfUp(x: real): (n: int)
    requires x >= 0.0
    ensures n >= 0
    ensures (n as real) - 0.5 <= x < (n as real) + 0.5
  {
    (x + 0.5).Floor
  }

  /**
   * `Number(x.toFixed(2))`: the magnitude is rounded to hundredths with ties away
   * from zero and the sign is put back (binary floating point is not modelled).
   */
  function Round2(x: real): (r: real)
    ensures -0.005 <= r - x <= 0.005
    ensures x >= 0.0 ==> r >= 0.0
  {
    var n := RoundHalfUp(Abs(x) * 100.0);
    if x < 0.0 then -(n as real) / 100.0 else (n as real) / 100.0
  }

  lemma {:induction false} Round2OfCents(k: int)
    ensures Round2((k as real) / 100.0) == (k as real) / 100.0
  {
    if k >= 0 {
      assert RoundHalfUp(Abs((k as real) / 100.0) * 100.0) == k;
    } else {
      assert Abs((k as real) / 100.0) * 100.0 == (-k) as real;
      assert RoundHalfUp(Abs((k as real) / 100.0) * 100.0) == -k;
    }
  }

  // ---------------------------------------------------------------------------
  // Decimal text

  predicate IsDigit(c: char) {
    '0' <= c <= '9'
  }

  function DigitChar(d: nat): (c: char)
    requires d < 10
    ensures IsDigit(c) && c as int - '0' as int == d
  {
    "0123456789"[d]
  }

  /** `n.toString()` for a natural number. */
  function NatToString(n: nat): (r: string)
    ensures |r| >= 1
    ensures forall i :: 0 <= i < |r| ==> IsDigit(r[i])
  {
    if n < 10 then [DigitChar(n)] else NatToString(n / 10) + [DigitChar(n % 10)]
  }

  /** `i.toString()` for an integer. */
  function IntToString(i: int): string {
    if i < 0 then "-" + NatToString(-i) else NatToString(i)
  }

  /** The value of a string of decimal digits: the reading direction of `NatToString`. */
  function DigitsValue(s: string): nat
    requires forall i :: 0 <= i < |s| ==> IsDigit(s[i])
  {
    if s == [] then 0
    else
      assert IsDigit(s[|s| - 1]);
      DigitsValue(s[..|s| - 1]) * 10 + (s[|s| - 1] as int - '0' as int)
  }

  lemma {:induction false} NatToStringRoundTrip(n: nat)
    ensures DigitsValue(NatToString(n)) == n
  {
    if n >= 10 {
      var r := NatToString(n);
      assert r[..|r| - 1] == NatToString(n / 10);
      NatToStringRoundTrip(n / 10);
    }
  }

  lemma {:induction false} NatToStringLength(n: nat)
    ensures n < 10 <==> |NatToString(n)| == 1
    ensures 10 <= n < 100 <==> |NatToString(n)| == 2
    ensures n >= 100 <==> |NatToString(n)| >= 3
  {
    if n >= 10 {
      NatToStringLength(n / 10);
    }
  }

  /** `s.padStart(2, '0')`: left-padded with '0' to width 2, never truncated. */
  function PadStart2(s: string): (r: string)
    ensures |r| == if |s| >= 2 then |s| else 2
    ensures r[|r| - |s|..] == s
    ensures forall i :: 0 <= i < |r| - |s| ==> r[i] == '0'
  {
    if |s| >= 2 then s else seq(2 - |s|, _ => '0') + s
  }

  /** A zero in front does not change the value of a digit string. */
  lemma {:induction false} LeadingZero(s: string)
    requires forall i :: 0 <= i < |s| ==> IsDigit(s[i])
    ensures DigitsValue(['0'] + s) == DigitsValue(s)
  {
    if s != [] {
      var t := ['0'] + s;
      assert t[..|t| - 1] == ['0'] + s[..|s| - 1];
      LeadingZero(s[..|s| - 1]);
    }
  }

  /** Two-digit zero-padded decimal of a natural number (`n.toString().padStart(2, '0')`). */
  function Pad2(n: nat): string {
    PadStart2(NatToString(n))
  }

  lemma Pad2Small(n: nat)
    requires n < 100
    ensures |Pad2(n)| == 2
    ensures Pad2(n) == [DigitChar(n / 10), DigitChar(n % 10)]
  {
    NatToStringLength(n);
    if n >= 10 {
      assert NatToString(n / 10) == [DigitChar(n / 10)];
    }
  }

  lemma Pad2Large(n: nat)
    requires n >= 100
    ensures Pad2(n) == NatToString(n) && |Pad2(n)| >= 3
  {
    NatToStringLength(n);
  }

  /** Padding keeps the value and only adds a zero in front of a single digit. */
  lemma Pad2Value(n: nat)
    ensures forall i :: 0 <= i < |Pad2(n)| ==> IsDigit(Pad2(n)[i])
    ensures DigitsValue(Pad2(n)) == n
    ensures |Pad2(n)| >= 2 && (n < 100 <==> |Pad2(n)| == 2)
  {
    NatToStringRoundTrip(n);
    NatToStringLength(n);
    if n < 10 {
      assert Pad2(n) == ['0'] + NatToString(n);
      LeadingZero(NatToString(n));
    }
  }

  /**
   * `x.toFixed(2)`: an optional '-', the integer part, '.', and two decimals of the
   * magnitude rounded to hundredths with ties away from zero.
   */
  function Fixed2(x: real): (r: string)
    ensures |r| >= 4 && r[|r| - 3] == '.'
    ensures (r[0] == '-') <==> x < 0.0
  {
    var n := RoundHalfUp(Abs(x) * 100.0);
    (if x < 0.0 then "-" else "") + NatToString(n / 100) + "." + [DigitChar((n % 100) / 10), DigitChar(n % 10)]
  }

  // ---------------------------------------------------------------------------
  // Strings

  /** The white space of JavaScript's `\s` and of `String.prototype.trim`. */
  predicate IsJsSpace(c: char) {
    || c == ' ' || c == '\t' || c == '\n' || c == '\r' || c == '\U{B}' || c == '\U{C}'
    || c == '\U{A0}' || c == '\U{1680}' || ('\U{2000}' <= c <= '\U{200A}')
    || c == '\U{2028}' || c == '\U{2029}' || c == '\U{202F}' || c == '\U{205F}'
    || c == '\U{3000}' || c == '\U{FEFF}'
  }

  predicate IsBlank(s: string) {
    forall i :: 0 <= i < |s| ==> IsJsSpace(s[i])
  }

  function TrimStart(s: string): (r: string)
    ensures |r| <= |s| && r == s[|s| - |r|..]
    ensures r == [] || !IsJsSpace(r[0])
    ensures IsBlank(s[..|s| - |r|])
  {
    if s != [] && IsJsSpace(s[0]) then TrimStart(s[1..]) else s
  }

  function TrimEnd(s: string): (r: string)
    ensures |r| <= |s| && r == s[..|r|]
    ensures r == [] || !IsJsSpace(r[|r| - 1])
    ensures IsBlank(s[|r|..])
  {
    if s != [] && IsJsSpace(s[|s| - 1]) then TrimEnd(s[..|s| - 1]) else s
  }

  /** `s.trim()`. */
  function Trim(s: string): string {
    TrimEnd(TrimStart(s))
  }

  /** A trimmed text is empty exactly when the text is all white space. */
  lemma TrimEmptyIffBlank(s: string)
    ensures Trim(s) == [] <==> IsBlank(s)
  {
    var t := TrimStart(s);
    TrimEndEmptyIffBlank(t);
    BlankSplit(s, |s| - |t|);
  }

  lemma TrimEndEmptyIffBlank(t: string)
    ensures TrimEnd(t) == [] <==> IsBlank(t)
  {
    var r := TrimEnd(t);
    if r == [] {
      assert t[|r|..] == t;
    } else {
      assert t[|r| - 1] == r[|r| - 1];
    }
  }

  lemma BlankSplit(s: string, n: int)
    requires 0 <= n <= |s|
    ensures IsBlank(s) <==> IsBlank(s[..n]) && IsBlank(s[n..])
  {
    if IsBlank(s[..n]) && IsBlank(s[n..]) {
      forall i | 0 <= i < |s| ensures IsJsSpace(s[i]) {
        if i < n {
          assert s[..n][i] == s[i];
        } else {
          assert s[n..][i - n] == s[i];
        }
      }
    }
  }

  /**
   * `toLowerCase` on one character, for the ASCII and Latin-1 letters (the letters
   * of the application's Spanish texts); other characters are kept.
   */
  function LowerChar(c: char): char {
    if 'A' <= c <= 'Z' || ('\U{C0}' <= c <= '\U{DE}' && c != '\U{D7}') then (c as int + 32) as char else c
  }

  function ToLower(s: string): (r: string)
    ensures |r| == |s|
    ensures forall i :: 0 <= i < |s| ==> r[i] == LowerChar(s[i])
  {
    seq(|s|, i requires 0 <= i < |s| => LowerChar(s[i]))
  }

  lemma ToLowerSlice(s: string, i: int, j: int)
    requires 0 <= i <= j <= |s|
    ensures ToLower(s)[i..j] == ToLower(s[i..j])
  {
  }

  predicate OccursAt(s: string, sub: string, i: int) {
    0 <= i && i + |sub| <= |s| && s[i..i + |sub|] == sub
  }

  /** `s.includes(sub)`. */
  predicate Contains(s: string, sub: string) {
    exists i | 0 <= i <= |s| :: OccursAt(s, sub, i)
  }

  lemma ContainsEmpty(s: string)
    ensures Contains(s, "")
  {
    assert OccursAt(s, "", 0);
  }

  lemma ContainsTransitive(a: string, b: string, c: string)
    requires Contains(a, b) && Contains(b, c)
    ensures Contains(a, c)
  {
    var i :| 0 <= i <= |a| && OccursAt(a, b, i);
    var j :| 0 <= j <= |b| && OccursAt(b, c, j);
    assert a[i..i + |b|] == b;
    assert b[j..j + |c|] == c;
    assert forall k :: 0 <= k < |c| ==> a[i + j + k] == b[j + k] == c[k];
    assert a[i + j..i + j + |c|] == c;
    assert OccursAt(a, c, i + j);
  }

  lemma ContainsLower(s: string, sub: string)
    requires Contains(s, sub)
    ensures Contains(ToLower(s), ToLower(sub))
  {
    var i :| 0 <= i <= |s| && OccursAt(s, sub, i);
    ToLowerSlice(s, i, i + |sub|);
    assert OccursAt(ToLower(s), ToLower(sub), i);
  }

  /** `s.startsWith(p)`. */
  predicate StartsWith(s: string, p: string) {
    p <= s
  }

  /** `parts.join(sep)`. */
  function Join(parts: seq<string>, sep: string): string {
    if parts == [] then ""
    else if |parts| == 1 then parts[0]
    else parts[0] + sep + Join(parts[1..], sep)
  }

  /** `parts.join("")`: the parts one after the other. */
  function Concat(parts: seq<string>): string {
    if parts == [] then "" else parts[0] + Concat(parts[1..])
  }

  lemma ConcatCons(part: string, parts: seq<string>)
    ensures Concat([part] + parts) == part + Concat(parts)
  {
    assert ([part] + parts)[1..] == parts;
  }

  lemma {:induction false} ConcatAppend(p: seq<string>, q: seq<string>)
    ensures Concat(p + q) == Concat(p) + Concat(q)
    decreases |p|
  {
    if p == [] {
      assert p + q == q;
    } else {
      assert (p + q)[1..] == p[1..] + q;
      ConcatAppend(p[1..], q);
    }
  }

  /** A character in neither the parts nor the separator is not in the joined text. */
  lemma {:induction false} JoinAvoids(parts: seq<string>, sep: string, c: char)
    requires c !in sep
    requires forall k :: 0 <= k < |parts| ==> c !in parts[k]
    ensures c !in Join(parts, sep)
  {
    if |parts| > 1 {
      JoinAvoids(parts[1..], sep, c);
      assert Join(parts, sep) == parts[0] + sep + Join(parts[1..], sep);
    }
  }

  /** Index of the first occurrence of `c` in `s`. */
  function FirstIndex(s: string, c: char): (i: nat)
    requires c in s
    ensures i < |s| && s[i] == c && c !in s[..i]
  {
    if s[0] == c then 0 else FirstIndex(s[1..], c) + 1
  }

  /** `iso.split('T')[0]`: the date part of an ISO timestamp, everything before its first `T`. */
  function DatePart(iso: string): (d: string)
    ensures 'T' !in d && d <= iso
    ensures d == iso || iso[|d|] == 'T'
  {
    Split(iso, 'T')[0]
  }

  /** `s.split(c)` for a one-character separator. */
  function Split(s: string, c: char): (r: seq<string>)
    ensures |r| >= 1
    ensures forall k :: 0 <= k < |r| ==> c !in r[k]
    decreases |s|
  {
    if c !in s then [s]
    else
      var i := FirstIndex(s, c);
      [s[..i]] + Split(s[i + 1..], c)
  }

  /** Splitting the joined lines on the separator gives the lines back. */
  lemma {:induction false} SplitJoin(lines: seq<string>, c: char)
    requires |lines| >= 1
    requires forall k :: 0 <= k < |lines| ==> c !in lines[k]
    ensures Split(Join(lines, [c]), c) == lines
  {
    if |lines| > 1 {
      var s := Join(lines, [c]);
      assert s == lines[0] + [c] + Join(lines[1..], [c]);
      assert s[|lines[0]|] == c;
      assert s[..|lines[0]|] == lines[0];
      var i := FirstIndex(s, c);
      assert c !in s[..|lines[0]|];
      assert i <= |lines[0]| && i >= |lines[0]|;
      assert s[i + 1..] == Join(lines[1..], [c]);
      SplitJoin(lines[1..], c);
    }
  }
}
