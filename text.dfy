/**
 * The JavaScript string operations the application relies on, written out:
 * `trim`, `startsWith`, `endsWith`, `includes`, `replace(/\/+$/, '')`,
 * `split('@')[0]`, `join`, number-to-string conversion and `parseInt`.
 */
module Text {
  import opened Common

  /** The characters ECMAScript's `trim` removes: WhiteSpace and LineTerminator. */
  predicate IsSpace(c: char) {
    c == ' ' || c == '\t' || c == '\n' || c == '\r' || c == '\U{000B}' || c == '\U{000C}'
    || c == '\U{00A0}' || c == '\U{1680}' || ('\U{2000}' <= c <= '\U{200A}')
    || c == '\U{2028}' || c == '\U{2029}' || c == '\U{202F}' || c == '\U{205F}'
    || c == '\U{3000}' || c == '\U{FEFF}'
  }

  predicate AllSpace(s: string) {
    forall i :: 0 <= i < |s| ==> IsSpace(s[i])
  }

  /** `trimStart`: the longest suffix of `s` that does not start with white space. */
  function TrimStart(s: string): (r: string)
    ensures |r| <= |s| && r == s[|s| - |r|..]
    ensures forall i :: 0 <= i < |s| - |r| ==> IsSpace(s[i])
    ensures r == [] || !IsSpace(r[0])
  {
    if |s| > 0 && IsSpace(s[0]) then
      var r := TrimStart(s[1..]);
      assert forall i :: 1 <= i < |s| - |r| ==> s[i] == s[1..][i - 1];
      r
    else s
  }

  /** `trimEnd`: the longest prefix of `s` that does not end with white space. */
  function TrimEnd(s: string): (r: string)
    ensures |r| <= |s| && r == s[..|r|]
    ensures forall i :: |r| <= i < |s| ==> IsSpace(s[i])
    ensures r == [] || !IsSpace(r[|r| - 1])
  {
    if |s| > 0 && IsSpace(s[|s| - 1]) then
      TrimEnd(s[..|s| - 1])
    else s
  }

  /** `r` is `s` with the white space `s[..a]` in front and all of what follows `r` cut off as white space. */
  predicate MiddleOf(r: string, s: string, a: int) {
    0 <= a <= |s| - |r| && r == s[a..a + |r|] && AllSpace(s[..a]) && AllSpace(s[a + |r|..])
  }

  /** `trim`: the middle of `s` left once the white space at both ends is removed. */
  function Trim(s: string): (r: string)
    ensures r == [] || (!IsSpace(r[0]) && !IsSpace(r[|r| - 1]))
    ensures MiddleOf(r, s, |s| - |TrimStart(s)|)
  {
    TrimIsMiddle(s);
    TrimEnd(TrimStart(s))
  }

  lemma TrimIsMiddle(s: string)
    ensures MiddleOf(TrimEnd(TrimStart(s)), s, |s| - |TrimStart(s)|)
  {
    var t := TrimStart(s);
    var r := TrimEnd(t);
    var a := |s| - |t|;
    assert r == s[a..a + |r|] by {
      assert t == s[a..];
      assert r == t[..|r|];
    }
    var head := s[..a];
    assert AllSpace(head) by {
      forall i | 0 <= i < |head|
        ensures IsSpace(head[i])
      {
        assert head[i] == s[i];
      }
    }
    var tail := s[a + |r|..];
    assert AllSpace(tail) by {
      forall i | 0 <= i < |tail|
        ensures IsSpace(tail[i])
      {
        assert tail[i] == t[|r| + i];
      }
    }
    assert 0 <= a <= |s| - |r|;
    assert MiddleOf(r, s, a);
  }

  /** Trimming leaves nothing exactly when the string is white space only (or empty). */
  lemma TrimEmptyIffAllSpace(s: string)
    ensures Trim(s) == [] <==> AllSpace(s)
  {
    var t := TrimStart(s);
    if !AllSpace(s) {
      var i :| 0 <= i < |s| && !IsSpace(s[i]);
      assert t[i - (|s| - |t|)] == s[i];
    }
  }

  /** `s.replace(/c+$/, '')`: every trailing copy of `c` removed. */
  function StripTrailing(s: string, c: char): (r: string)
    ensures |r| <= |s| && r == s[..|r|]
    ensures r == [] || r[|r| - 1] != c
    ensures forall i :: |r| <= i < |s| ==> s[i] == c
  {
    if |s| > 0 && s[|s| - 1] == c then StripTrailing(s[..|s| - 1], c) else s
  }

  predicate StartsWith(s: string, prefix: string) {
    |prefix| <= |s| && s[..|prefix|] == prefix
  }

  predicate EndsWith(s: string, suffix: string) {
    |suffix| <= |s| && s[|s| - |suffix|..] == suffix
  }

  /** `sub` occurs in `s` starting at index `i`. */
  predicate OccursAt(s: string, sub: string, i: int) {
    0 <= i <= |s| - |sub| && s[i..i + |sub|] == sub
  }

  /** `s.includes(sub)`; the empty string is contained in every string. */
  predicate Contains(s: string, sub: string) {
    exists i :: 0 <= i <= |s| - |sub| && OccursAt(s, sub, i)
  }

  /** `s.split(sep)[0]`: everything before the first `sep`, or all of `s` when there is none. */
  function BeforeFirst(s: string, sep: char): (r: string)
    ensures |r| <= |s| && r == s[..|r|]
    ensures sep !in r
    ensures |r| < |s| ==> s[|r|] == sep
  {
    if s == [] then []
    else if s[0] == sep then []
    else
      var r := [s[0]] + BeforeFirst(s[1..], sep);
      assert s[..|r|] == [s[0]] + s[1..][..|r| - 1];
      r
  }

  /** `parts.join(sep)`. */
  function Join(parts: seq<string>, sep: string): (r: string)
    ensures parts != [] ==> StartsWith(r, parts[0])
  {
    if |parts| == 0 then ""
    else if |parts| == 1 then parts[0]
    else parts[0] + sep + Join(parts[1..], sep)
  }

  /** Parts free of `c`, joined by a separator holding one `c`: exactly one `c` between each two parts. */
  lemma {:induction false} JoinCount(parts: seq<string>, sep: string, c: char)
    requires parts != []
    requires forall k :: 0 <= k < |parts| ==> c !in parts[k]
    requires multiset(sep)[c] == 1
    ensures multiset(Join(parts, sep))[c] == |parts| - 1
  {
    assert multiset(parts[0])[c] == 0;
    if |parts| > 1 {
      var rest := Join(parts[1..], sep);
      JoinCount(parts[1..], sep, c);
      assert Join(parts, sep) == parts[0] + sep + rest;
      assert multiset(parts[0] + sep + rest) == multiset(parts[0]) + multiset(sep) + multiset(rest);
    }
  }

  /** `s.split(c)`: the pieces between the occurrences of `c`; there is always at least one. */
  function Split(s: string, c: char): (pieces: seq<string>)
    ensures |pieces| >= 1
  {
    if s == [] then [[]]
    else if s[0] == c then [[]] + Split(s[1..], c)
    else
      var rest := Split(s[1..], c);
      [[s[0]] + rest[0]] + rest[1..]
  }

  /** A first character other than `c` joins the first piece. */
  lemma SplitCons(x: char, s: string, c: char)
    requires x != c
    ensures Split([x] + s, c) == [[x] + Split(s, c)[0]] + Split(s, c)[1..]
  {
    assert ([x] + s)[1..] == s;
  }

  /** A first character `c` closes an empty first piece. */
  lemma SplitAtSeparator(s: string, c: char)
    ensures Split([c] + s, c) == [[]] + Split(s, c)
  {
    assert ([c] + s)[1..] == s;
  }

  /** Text free of `c` in front of `t` only lengthens the first piece of `t`. */
  lemma {:induction false} SplitAfterFree(a: string, t: string, c: char)
    requires c !in a
    ensures Split(a + t, c) == [a + Split(t, c)[0]] + Split(t, c)[1..]
  {
    var pieces := Split(t, c);
    if a == [] {
      assert a + t == t && a + pieces[0] == pieces[0];
      assert pieces == [pieces[0]] + pieces[1..];
    } else {
      var x, b := a[0], a[1..];
      assert x != c by {
        assert a[0] in a;
      }
      assert c !in b;
      SplitAfterFree(b, t, c);
      assert a + t == [x] + (b + t) by {
        assert a == [x] + b;
      }
      SplitCons(x, b + t, c);
      assert [x] + (b + pieces[0]) == a + pieces[0] by {
        assert a == [x] + b;
      }
    }
  }

  /**
   * Splitting parts joined by a separator that starts with `c` (and holds it
   * nowhere else) at `c` gives the parts back, each after the first carrying
   * the rest of the separator in front.
   */
  lemma {:induction false} SplitJoin(parts: seq<string>, sep: string, c: char)
    requires parts != []
    requires forall k :: 0 <= k < |parts| ==> c !in parts[k]
    requires sep != [] && sep[0] == c && c !in sep[1..]
    ensures |Split(Join(parts, sep), c)| == |parts|
    ensures Split(Join(parts, sep), c)[0] == parts[0]
    ensures forall k :: 1 <= k < |parts| ==> Split(Join(parts, sep), c)[k] == sep[1..] + parts[k]
  {
    if |parts| == 1 {
      SplitAfterFree(parts[0], [], c);
      assert parts[0] + [] == parts[0];
    } else {
      var rest := Join(parts[1..], sep);
      SplitJoin(parts[1..], sep, c);
      var tail := sep[1..] + rest;
      SplitAfterFree(sep[1..], rest, c);
      assert Split(tail, c) == [sep[1..] + parts[1]] + Split(rest, c)[1..];
      assert Join(parts, sep) == parts[0] + ([c] + tail) by {
        assert sep == [c] + sep[1..];
      }
      SplitAtSeparator(tail, c);
      var front := Split([c] + tail, c);
      assert front[0] == [] && front[1..] == Split(tail, c);
      SplitAfterFree(parts[0], [c] + tail, c);
      var pieces := Split(Join(parts, sep), c);
      assert pieces == [parts[0] + []] + Split(tail, c);
      assert parts[0] + [] == parts[0];
      forall k | 2 <= k < |parts|
        ensures pieces[k] == sep[1..] + parts[k]
      {
        assert pieces[k] == Split(rest, c)[k - 1];
        assert parts[1..][k - 1] == parts[k];
      }
    }
  }

  // ---------------------------------------------------------------------
  // Numbers and their decimal text
  // ---------------------------------------------------------------------

  predicate IsDecimalDigit(c: char) {
    '0' <= c <= '9'
  }

  function DigitChar(d: nat): (c: char)
    requires d < 10
    ensures IsDecimalDigit(c) && c as int - '0' as int == d
  {
    ('0' as int + d) as char
  }

  /** The decimal text of a natural number, without leading zeros. */
  function NatToString(n: nat): (r: string)
    ensures |r| >= 1
    ensures forall k :: 0 <= k < |r| ==> IsDecimalDigit(r[k])
    ensures r[0] == '0' ==> n == 0 && r == "0"
  {
    if n < 10 then [DigitChar(n)] else NatToString(n / 10) + [DigitChar(n % 10)]
  }

  /** `String(n)` for an integer: a minus sign for a negative one, then its decimal digits. */
  function IntToString(n: int): (r: string)
    ensures |r| >= 1
    ensures n >= 0 ==> forall k :: 0 <= k < |r| ==> IsDecimalDigit(r[k])
    ensures n < 0 ==> |r| >= 2 && r[0] == '-' && forall k :: 1 <= k < |r| ==> IsDecimalDigit(r[k])
  {
    if n < 0 then "-" + NatToString(-n) else NatToString(n)
  }

  /** The value of `c` as a digit in base `radix` (10 or 16), if it is one. */
  function DigitValue(c: char, radix: nat): (r: Option<nat>)
    ensures r.Some? ==> r.value < radix
  {
    if '0' <= c <= '9' && (c as int - '0' as int) < radix then Some(c as int - '0' as int)
    else if radix == 16 && 'a' <= c <= 'f' then Some(c as int - 'a' as int + 10)
    else if radix == 16 && 'A' <= c <= 'F' then Some(c as int - 'A' as int + 10)
    else None
  }

  predicate AllDigits(s: string, radix: nat) {
    forall i :: 0 <= i < |s| ==> DigitValue(s[i], radix).Some?
  }

  /** The length of the longest prefix of `s` made of digits in base `radix`. */
  function DigitRun(s: string, radix: nat): (n: nat)
    ensures n <= |s| && AllDigits(s[..n], radix)
    ensures n < |s| ==> DigitValue(s[n], radix).None?
  {
    if s != [] && DigitValue(s[0], radix).Some? then
      var n := 1 + DigitRun(s[1..], radix);
      assert forall i :: 1 <= i < n ==> s[..n][i] == s[1..][..n - 1][i - 1];
      n
    else 0
  }

  /** The value of a run of digits, most significant first. */
  function DigitsValue(s: string, radix: nat): nat
    requires AllDigits(s, radix)
  {
    if s == [] then 0
    else DigitsValue(s[..|s| - 1], radix) * radix + DigitValue(s[|s| - 1], radix).value
  }

  /**
   * The unsigned part of `parseInt`: a `0x`/`0X` prefix selects base 16, and
   * the longest run of digits that follows is the value; no digits gives NaN.
   */
  function ParseMagnitude(u: string): Option<nat> {
    var hex := |u| >= 2 && u[0] == '0' && (u[1] == 'x' || u[1] == 'X');
    var radix := if hex then 16 else 10;
    var body := if hex then u[2..] else u;
    var n := DigitRun(body, radix);
    if n == 0 then None else Some(DigitsValue(body[..n], radix))
  }

  /**
   * `parseInt(s)` with no radix: leading white space is skipped, then an
   * optional sign, then the magnitude; NaN is `None`.
   */
  function ParseInt(s: string): (r: Option<int>)
    ensures TrimStart(s) == [] ==> r.None?
    ensures r.Some? && r.value < 0 ==> TrimStart(s)[0] == '-'
  {
    ParseSigned(TrimStart(s))
  }

  /** `parseInt` skips any white space in front of the number. */
  lemma ParseIntSkipsSpace(ws: string, s: string)
    requires AllSpace(ws)
    ensures ParseInt(ws + s) == ParseInt(s)
  {
    TrimStartSkipsSpace(ws, s);
  }

  lemma {:induction false} TrimStartSkipsSpace(ws: string, s: string)
    requires AllSpace(ws)
    ensures TrimStart(ws + s) == TrimStart(s)
  {
    if ws != [] {
      assert (ws + s)[0] == ws[0] && IsSpace(ws[0]);
      assert (ws + s)[1..] == ws[1..] + s;
      assert AllSpace(ws[1..]) by {
        forall i | 0 <= i < |ws| - 1
          ensures IsSpace(ws[1..][i])
        {
          assert ws[1..][i] == ws[i + 1];
        }
      }
      TrimStartSkipsSpace(ws[1..], s);
    } else {
      assert ws + s == s;
    }
  }

  /** An optional sign followed by the magnitude. */
  function ParseSigned(t: string): Option<int> {
    var negative := |t| > 0 && t[0] == '-';
    var u := if |t| > 0 && (t[0] == '-' || t[0] == '+') then t[1..] else t;
    match ParseMagnitude(u)
    case None => None
    case Some(m) => Some(if negative then -(m as int) else m)
  }

  lemma {:induction false} DigitsValueOfNatToString(n: nat)
    ensures AllDigits(NatToString(n), 10)
    ensures DigitsValue(NatToString(n), 10) == n
  {
    var s := NatToString(n);
    if n >= 10 {
      DigitsValueOfNatToString(n / 10);
      assert s[..|s| - 1] == NatToString(n / 10);
    }
  }

  lemma ParseMagnitudeOfNatToString(m: nat)
    ensures ParseMagnitude(NatToString(m)) == Some(m)
  {
    var digits := NatToString(m);
    DigitsValueOfNatToString(m);
    assert DigitRun(digits, 10) == |digits|;
    assert digits[..|digits|] == digits;
  }

  /** Reading back the decimal text of any integer gives that integer. */
  lemma ParseIntOfIntToString(n: int)
    ensures ParseInt(IntToString(n)) == Some(n)
  {
    var s := IntToString(n);
    if n < 0 {
      var m: nat := -n;
      assert s == "-" + NatToString(m);
      ParseIntOfNegative(m);
    } else {
      assert s == NatToString(n);
      ParseIntOfNatural(n);
    }
  }

  lemma NoLeadingSpace(n: int)
    ensures TrimStart(IntToString(n)) == IntToString(n)
  {
    var s := IntToString(n);
    assert s[0] == '-' || IsDecimalDigit(s[0]);
    assert !IsSpace(s[0]);
  }

  lemma ParseIntOfNatural(m: nat)
    ensures ParseInt(NatToString(m)) == Some(m)
  {
    var s := NatToString(m);
    NoLeadingSpace(m);
    assert IntToString(m) == s;
    ParseMagnitudeOfNatToString(m);
    ParseUnsigned(s, m);
  }

  lemma ParseIntOfNegative(m: nat)
    requires m > 0
    ensures ParseInt("-" + NatToString(m)) == Some(-(m as int))
  {
    var s := "-" + NatToString(m);
    NoLeadingSpace(-(m as int));
    assert IntToString(-(m as int)) == s;
    assert s[1..] == NatToString(m);
    ParseMagnitudeOfNatToString(m);
    ParseNegative(s, m);
  }

  /** Text starting with a digit is read as an unsigned magnitude. */
  lemma ParseUnsigned(t: string, mag: nat)
    requires t != [] && IsDecimalDigit(t[0]) && ParseMagnitude(t) == Some(mag)
    ensures ParseSigned(t) == Some(mag)
  {
    assert t[0] != '-' && t[0] != '+';
  }

  /** Text starting with '-' is read as the negated magnitude of the rest. */
  lemma ParseNegative(t: string, mag: nat)
    requires t != [] && t[0] == '-' && ParseMagnitude(t[1..]) == Some(mag)
    ensures ParseSigned(t) == Some(-(mag as int))
  {
  }
}
