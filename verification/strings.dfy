/**
 * The few JavaScript string operations the bot relies on, with the
 * semantics of the language rather than of a convenient idealisation:
 * `String.prototype.split` on one character always yields at least one
 * part, `trim` removes the ECMAScript white-space set, `parseInt` reads the
 * longest prefix of digits in base ten, or sixteen after `0x`, and a number
 * is rendered in decimal.
 */
module Strings {
  import opened Wrappers

  /** The characters of ECMAScript's WhiteSpace and LineTerminator productions:
      what `trim` strips and what the regular-expression class `\s` matches. */
  predicate IsSpace(c: char) {
    || c == ' ' || c == '\t' || c == '\n' || c == '\U{000B}' || c == '\U{000C}' || c == '\r'
    || c == '\U{00A0}' || c == '\U{1680}' || ('\U{2000}' <= c <= '\U{200A}')
    || c == '\U{2028}' || c == '\U{2029}' || c == '\U{202F}' || c == '\U{205F}'
    || c == '\U{3000}' || c == '\U{FEFF}'
  }

  predicate IsDigit(c: char) {
    '0' <= c <= '9'
  }

  predicate StartsWith(s: string, prefix: string) {
    |prefix| <= |s| && s[..|prefix|] == prefix
  }

  /** A string with no white space at either end, as `trim` leaves it. */
  predicate Trimmed(s: string) {
    s == [] || (!IsSpace(s[0]) && !IsSpace(s[|s| - 1]))
  }

  // ---------------------------------------------------------------------------
  // trim

  function TrimStart(s: string): (r: string)
    ensures |r| <= |s| && r == s[|s| - |r|..]
    ensures forall k :: 0 <= k < |s| - |r| ==> IsSpace(s[k])
    ensures r == [] || !IsSpace(r[0])
    decreases |s|
  {
    if |s| > 0 && IsSpace(s[0]) then TrimStart(s[1..]) else s
  }

  function TrimEnd(s: string): (r: string)
    ensures |r| <= |s| && r == s[..|r|]
    ensures forall k :: |r| <= k < |s| ==> IsSpace(s[k])
    ensures r == [] || !IsSpace(r[|r| - 1])
    decreases |s|
  {
    if |s| > 0 && IsSpace(s[|s| - 1]) then TrimEnd(s[..|s| - 1]) else s
  }

  /** The number of white-space characters `trim` drops from the front. */
  function Lead(s: string): (n: nat)
    ensures n <= |s|
    ensures forall k :: 0 <= k < n ==> IsSpace(s[k])
    ensures n < |s| ==> !IsSpace(s[n])
    decreases |s|
  {
    if |s| > 0 && IsSpace(s[0]) then 1 + Lead(s[1..]) else 0
  }

  /** `String.prototype.trim`: the infix left once white space is removed from
      both ends; everything it drops is white space. */
  function Trim(s: string): (r: string)
    ensures Trimmed(r)
    ensures Lead(s) + |r| <= |s| && r == s[Lead(s)..Lead(s) + |r|]
    ensures forall k :: Lead(s) + |r| <= k < |s| ==> IsSpace(s[k])
  {
    var i := Lead(s);
    var r := TrimEnd(s[i..]);
    assert r == [] || !IsSpace(r[0]) by {
      if r != [] { assert r[0] == s[i]; }
    }
    assert forall k :: i + |r| <= k < |s| ==> IsSpace(s[k]) by {
      forall k | i + |r| <= k < |s| ensures IsSpace(s[k]) {
        assert s[k] == s[i..][k - i];
      }
    }
    r
  }

  /** Trimming leaves an already trimmed string alone. */
  lemma TrimTrimmed(s: string)
    requires Trimmed(s)
    ensures Trim(s) == s
  {
  }

  /** White space in front of a piece that does not start with it is
      exactly what `trim` skips. */
  lemma {:induction false} LeadPadded(lead: string, rest: string)
    requires forall k :: 0 <= k < |lead| ==> IsSpace(lead[k])
    requires rest == [] || !IsSpace(rest[0])
    ensures Lead(lead + rest) == |lead|
    decreases |lead|
  {
    if |lead| > 0 {
      assert (lead + rest)[1..] == lead[1..] + rest;
      LeadPadded(lead[1..], rest);
    } else {
      assert lead + rest == rest;
    }
  }

  lemma {:induction false} TrimEndPadded(f: string, trail: string)
    requires forall k :: 0 <= k < |trail| ==> IsSpace(trail[k])
    requires f == [] || !IsSpace(f[|f| - 1])
    ensures TrimEnd(f + trail) == f
    decreases |trail|
  {
    if |trail| > 0 {
      var t := trail[..|trail| - 1];
      assert (f + trail)[..|f + trail| - 1] == f + t;
      TrimEndPadded(f, t);
    } else {
      assert f + trail == f;
    }
  }

  /** `trim` removes white-space padding from both ends of a trimmed piece. */
  lemma TrimPadded(lead: string, f: string, trail: string)
    requires forall k :: 0 <= k < |lead| ==> IsSpace(lead[k])
    requires forall k :: 0 <= k < |trail| ==> IsSpace(trail[k])
    requires Trimmed(f)
    ensures Trim(lead + f + trail) == f
  {
    var s := lead + f + trail;
    if f == [] {
      assert s == (lead + trail) + [];
      LeadPadded(lead + trail, []);
      assert s[Lead(s)..] == [];
    } else {
      assert s == lead + (f + trail);
      LeadPadded(lead, f + trail);
      assert s[|lead|..] == f + trail;
      TrimEndPadded(f, trail);
    }
  }

  // ---------------------------------------------------------------------------
  // split and join

  /** `s.split(c)`: the maximal `c`-free pieces between occurrences of `c`.
      The empty string splits into one empty piece. */
  function Split(s: string, c: char): (parts: seq<string>)
    ensures |parts| >= 1
    ensures forall i :: 0 <= i < |parts| ==> c !in parts[i]
    ensures c in s <==> |parts| >= 2
    decreases |s|
  {
    if |s| == 0 then [""]
    else if s[0] == c then [""] + Split(s[1..], c)
    else
      var rest := Split(s[1..], c);
      [[s[0]] + rest[0]] + rest[1..]
  }

  /** `parts.join(c)`. */
  function Join(parts: seq<string>, c: char): string
    decreases |parts|
  {
    if |parts| == 0 then ""
    else if |parts| == 1 then parts[0]
    else parts[0] + [c] + Join(parts[1..], c)
  }

  /** `xs[xs.length - 1]`, or `pop()` on a list that is not empty. */
  function Last<T>(xs: seq<T>): T
    requires |xs| > 0
  {
    xs[|xs| - 1]
  }

  /** The longest prefix free of the characters in `stops`. */
  function Until(s: string, stops: string): (r: string)
    ensures StartsWith(s, r)
    ensures forall i :: 0 <= i < |r| ==> r[i] !in stops
    ensures |r| < |s| ==> s[|r|] in stops
    decreases |s|
  {
    if |s| > 0 && s[0] !in stops then [s[0]] + Until(s[1..], stops) else ""
  }

  /** A stop-free piece followed by a stop (or nothing) is exactly what
      `Until` takes. */
  lemma {:induction false} UntilPrefix(a: string, b: string, stops: string)
    requires forall i :: 0 <= i < |a| ==> a[i] !in stops
    requires |b| == 0 || b[0] in stops
    ensures Until(a + b, stops) == a
    decreases |a|
  {
    if |a| > 0 {
      assert (a + b)[1..] == a[1..] + b;
      UntilPrefix(a[1..], b, stops);
      assert [a[0]] + a[1..] == a;
    } else {
      assert a + b == b;
    }
  }

  /** JavaScript's `parts[i]`: `undefined` past the end. */
  function Field(parts: seq<string>, i: nat): Option<string> {
    if i < |parts| then Some(parts[i]) else None
  }

  /** JavaScript's `x || d` on a string that may be `undefined`: a missing or
      empty string is replaced by the default. */
  function OrElse(x: Option<string>, d: string): (r: string)
    ensures x.Some? && x.value != "" ==> r == x.value
    ensures x.None? || x.value == "" ==> r == d
  {
    if x.Some? && x.value != "" then x.value else d
  }

  /** A piece free of the separator splits off the front of whatever follows it. */
  lemma {:induction false} SplitCons(p: string, c: char, rest: string)
    requires c !in p
    ensures Split(p + [c] + rest, c) == [p] + Split(rest, c)
    decreases |p|
  {
    if |p| == 0 {
      assert p + [c] + rest == [c] + rest;
      assert ([c] + rest)[1..] == rest;
    } else {
      var s := p + [c] + rest;
      assert s[1..] == p[1..] + [c] + rest;
      SplitCons(p[1..], c, rest);
      assert [p[0]] + p[1..] == p;
    }
  }

  /** A separator-free string is a single piece. */
  lemma {:induction false} SplitWhole(p: string, c: char)
    requires c !in p
    ensures Split(p, c) == [p]
    decreases |p|
  {
    if |p| > 0 {
      SplitWhole(p[1..], c);
      assert [p[0]] + p[1..] == p;
    }
  }

  /** Splitting undoes joining, provided no piece holds the separator. */
  lemma {:induction false} SplitJoin(parts: seq<string>, c: char)
    requires |parts| >= 1
    requires forall i :: 0 <= i < |parts| ==> c !in parts[i]
    ensures Split(Join(parts, c), c) == parts
    decreases |parts|
  {
    if |parts| == 1 {
      SplitWhole(parts[0], c);
    } else {
      SplitJoin(parts[1..], c);
      SplitCons(parts[0], c, Join(parts[1..], c));
      assert [parts[0]] + parts[1..] == parts;
    }
  }

  /** Joining undoes splitting: no character is lost or invented. */
  lemma {:induction false} JoinSplit(s: string, c: char)
    ensures Join(Split(s, c), c) == s
    decreases |s|
  {
    if |s| == 0 {
    } else if s[0] == c {
      JoinSplit(s[1..], c);
      assert [""] + Split(s[1..], c) == [""] + Split(s[1..], c);
      assert s == [c] + s[1..];
    } else {
      JoinSplit(s[1..], c);
      var rest := Split(s[1..], c);
      var parts := [[s[0]] + rest[0]] + rest[1..];
      if |rest| == 1 {
        assert s == [s[0]] + s[1..];
      } else {
        assert parts[1..] == rest[1..];
        assert Join(rest, c) == rest[0] + [c] + Join(rest[1..], c);
        assert s == [s[0]] + s[1..];
      }
    }
  }

  /** Two joins of separator-free pieces are equal only when the pieces are. */
  lemma JoinInjective(a: seq<string>, b: seq<string>, c: char)
    requires |a| >= 1 && |b| >= 1
    requires forall i :: 0 <= i < |a| ==> c !in a[i]
    requires forall i :: 0 <= i < |b| ==> c !in b[i]
    requires Join(a, c) == Join(b, c)
    ensures a == b
  {
    SplitJoin(a, c);
    SplitJoin(b, c);
  }

  /** The last piece of a split is whatever follows the last separator. */
  lemma {:induction false} SplitLastPiece(stem: string, c: char, tail: string)
    requires c !in tail
    ensures Last(Split(stem + [c] + tail, c)) == tail
    decreases |stem|
  {
    var s := stem + [c] + tail;
    if |stem| == 0 {
      assert s == [c] + tail;
      assert s[1..] == tail;
      SplitWhole(tail, c);
    } else {
      assert s[1..] == stem[1..] + [c] + tail;
      SplitLastPiece(stem[1..], c, tail);
      assert c in s[1..];
    }
  }

  /** A join ends with its last piece, after a separator when there are
      several pieces. */
  lemma {:induction false} JoinLast(parts: seq<string>, c: char)
    requires |parts| >= 2
    ensures Join(parts, c) == Join(parts[..|parts| - 1], c) + [c] + Last(parts)
    decreases |parts|
  {
    if |parts| > 2 {
      JoinLast(parts[1..], c);
      assert parts[1..][..|parts| - 2] == parts[..|parts| - 1][1..];
    } else {
      assert parts[..1][1..] == [];
    }
  }

  /** A separator-free head ends at the first separator, so two strings that
      agree up to and including it have the same head. */
  lemma FreeHeadUnique(g: string, h: string, c: char, y: string)
    requires c !in g && c !in h
    requires StartsWith(h + [c] + y, g + [c])
    ensures g == h
  {
    var s := h + [c] + y;
    assert forall i :: 0 <= i < |g| ==> s[i] == g[i] != c;
    assert forall i :: 0 <= i < |h| ==> s[i] == h[i] != c;
    assert s[|g|] == c && s[|h|] == c;
    assert |g| == |h|;
    assert s[..|h|] == h;
  }

  /** A string that begins with a separator-free piece and the separator splits
      into that piece followed by the pieces of the remainder. */
  lemma SplitAfterPrefix(s: string, p: string, c: char)
    requires c !in p
    requires StartsWith(s, p + [c])
    ensures Split(s, c) == [p] + Split(s[|p| + 1..], c)
  {
    assert s == p + [c] + s[|p| + 1..];
    SplitCons(p, c, s[|p| + 1..]);
  }

  // ---------------------------------------------------------------------------
  // numbers

  function DigitChar(d: nat): (c: char)
    requires d < 10
    ensures IsDigit(c)
  {
    "0123456789"[d]
  }

  function DigitValue(c: char): (d: nat)
    requires IsDigit(c)
    ensures d < 10
  {
    (c as int - '0' as int) as nat
  }

  /** The decimal rendering of a natural number, most significant digit first. */
  function ShowNat(n: nat): (r: string)
    ensures |r| > 0
    ensures forall i :: 0 <= i < |r| ==> IsDigit(r[i])
  {
    if n < 10 then [DigitChar(n)] else ShowNat(n / 10) + [DigitChar(n % 10)]
  }

  /** Template-literal rendering `${n}` of an integer. */
  function ShowInt(n: int): (r: string)
    ensures |r| > 0
    ensures forall i :: 0 <= i < |r| ==> IsDigit(r[i]) || r[i] == '-'
  {
    if n < 0 then "-" + ShowNat(-n) else ShowNat(n)
  }

  /** The value of a string of decimal digits. */
  function DigitsValue(ds: string): nat
    requires forall i :: 0 <= i < |ds| ==> IsDigit(ds[i])
  {
    if |ds| == 0 then 0 else DigitsValue(ds[..|ds| - 1]) * 10 + DigitValue(ds[|ds| - 1])
  }

  /** The longest prefix of decimal digits. */
  function DigitPrefix(s: string): (r: string)
    ensures StartsWith(s, r)
    ensures forall i :: 0 <= i < |r| ==> IsDigit(r[i])
    ensures |r| < |s| ==> !IsDigit(s[|r|])
  {
    if |s| > 0 && IsDigit(s[0]) then [s[0]] + DigitPrefix(s[1..]) else ""
  }

  predicate IsHexDigit(c: char) {
    IsDigit(c) || 'a' <= c <= 'f' || 'A' <= c <= 'F'
  }

  function HexDigitValue(c: char): (d: nat)
    requires IsHexDigit(c)
    ensures d < 16
  {
    if IsDigit(c) then DigitValue(c)
    else if 'a' <= c <= 'f' then (c as int - 'a' as int + 10) as nat
    else (c as int - 'A' as int + 10) as nat
  }

  /** The value of a string of hexadecimal digits. */
  function HexValue(ds: string): nat
    requires forall i :: 0 <= i < |ds| ==> IsHexDigit(ds[i])
  {
    if |ds| == 0 then 0 else HexValue(ds[..|ds| - 1]) * 16 + HexDigitValue(ds[|ds| - 1])
  }

  /** The longest prefix of hexadecimal digits. */
  function HexPrefix(s: string): (r: string)
    ensures StartsWith(s, r)
    ensures forall i :: 0 <= i < |r| ==> IsHexDigit(r[i])
    ensures |r| < |s| ==> !IsHexDigit(s[|r|])
  {
    if |s| > 0 && IsHexDigit(s[0]) then [s[0]] + HexPrefix(s[1..]) else ""
  }

  /** Whether `parseInt` without a radix reads `s` in base sixteen: it starts
      with `0x` or `0X`. */
  predicate HexMarked(s: string) {
    |s| >= 2 && s[0] == '0' && (s[1] == 'x' || s[1] == 'X')
  }

  /** `parseInt(s)` with no radix: leading white space and one sign are
      skipped; a `0x` or `0X` prefix selects base sixteen and is dropped,
      otherwise the base is ten; the longest run of digits of that base is
      read, and without one the result is `NaN`, written `None`. A result
      needs a decimal digit somewhere in the input. */
  function ParseInt(s: string): (r: Option<int>)
    ensures r.Some? ==> exists i :: 0 <= i < |s| && IsDigit(s[i])
  {
    var t := TrimStart(s);
    var signed := |t| > 0 && (t[0] == '-' || t[0] == '+');
    var body := if signed then t[1..] else t;
    match ReadMagnitude(body)
    case None => None
    case Some(v) =>
      assert s[|s| - |t| + (if signed then 1 else 0)] == body[0];
      var n: int := v;
      Some(if signed && t[0] == '-' then -n else n)
  }

  /** The digits after the white space and the sign: base sixteen after a
      `0x` or `0X` prefix, base ten otherwise; `None` without a digit. */
  function ReadMagnitude(body: string): (r: Option<nat>)
    ensures r.Some? ==> |body| > 0 && IsDigit(body[0])
  {
    if HexMarked(body) then
      var hs := HexPrefix(body[2..]);
      if |hs| == 0 then None else Some(HexValue(hs))
    else
      var ds := DigitPrefix(body);
      if |ds| == 0 then None else Some(DigitsValue(ds))
  }

  /** A run of decimal digits not led by `0x` reads in base ten. */
  lemma ReadDigits(ds: string)
    requires |ds| > 0 && forall i :: 0 <= i < |ds| ==> IsDigit(ds[i])
    ensures ReadMagnitude(ds) == Some(DigitsValue(ds))
  {
    assert !HexMarked(ds) by { if |ds| >= 2 { assert IsDigit(ds[1]); } }
    DigitPrefixAll(ds);
  }

  /** A `0x` prefix switches `parseInt` to base sixteen. */
  lemma ParseHex(hs: string)
    requires |hs| > 0 && forall i :: 0 <= i < |hs| ==> IsHexDigit(hs[i])
    ensures ParseInt("0x" + hs) == Some(HexValue(hs) as int)
  {
    var s := "0x" + hs;
    assert !IsSpace(s[0]);
    assert TrimStart(s) == s;
    assert HexMarked(s);
    assert s[2..] == hs;
    HexPrefixAll(hs);
  }

  lemma {:induction false} HexPrefixAll(s: string)
    requires forall i :: 0 <= i < |s| ==> IsHexDigit(s[i])
    ensures HexPrefix(s) == s
    decreases |s|
  {
    if |s| > 0 {
      HexPrefixAll(s[1..]);
      assert [s[0]] + s[1..] == s;
    }
  }

  lemma {:induction false} ShowNatValue(n: nat)
    ensures DigitsValue(ShowNat(n)) == n
  {
    if n >= 10 {
      ShowNatValue(n / 10);
      var r := ShowNat(n);
      assert r[..|r| - 1] == ShowNat(n / 10);
    }
  }

  lemma {:induction false} DigitPrefixAll(s: string)
    requires forall i :: 0 <= i < |s| ==> IsDigit(s[i])
    ensures DigitPrefix(s) == s
    decreases |s|
  {
    if |s| > 0 {
      DigitPrefixAll(s[1..]);
      assert [s[0]] + s[1..] == s;
    }
  }

  lemma ParseDigits(ds: string)
    requires |ds| > 0 && forall i :: 0 <= i < |ds| ==> IsDigit(ds[i])
    ensures ParseInt(ds) == Some(DigitsValue(ds) as int)
  {
    assert !IsSpace(ds[0]);
    assert TrimStart(ds) == ds;
    ReadDigits(ds);
  }

  /** A leading minus negates what the rest reads as. */
  lemma ParseNegated(t: string, v: nat)
    requires |t| > 0 && t[0] == '-' && ReadMagnitude(t[1..]) == Some(v)
    ensures ParseInt(t) == Some(-(v as int))
  {
    assert !IsSpace(t[0]);
    assert TrimStart(t) == t;
  }

  /** `parseInt` reads back what the template literal rendered. */
  lemma ParseShowInt(n: int)
    ensures ParseInt(ShowInt(n)) == Some(n)
  {
    if n < 0 {
      ParseShowNegative(-n, ShowInt(n));
    } else {
      ParseShowNat(n, ShowInt(n));
    }
  }

  lemma ParseShowNat(n: nat, s: string)
    requires s == ShowNat(n)
    ensures ParseInt(s) == Some(n)
  {
    ParseDigits(s);
    ShowNatValue(n);
  }

  lemma ParseShowNegative(n: nat, s: string)
    requires s == "-" + ShowNat(n)
    ensures ParseInt(s) == Some(-(n as int))
  {
    ReadShowNat(n);
    assert s[1..] == ShowNat(n);
    ParseNegated(s, n);
  }

  lemma ReadShowNat(n: nat)
    ensures ReadMagnitude(ShowNat(n)) == Some(n)
  {
    ReadDigits(ShowNat(n));
    ShowNatValue(n);
  }

  // ---------------------------------------------------------------------------
  // case

  function LowerChar(c: char): char {
    if 'A' <= c <= 'Z' then (c as int + 32) as char else c
  }

  /** `toLowerCase` on the ASCII letters; every other character is kept. */
  function LowerAscii(s: string): (r: string)
    ensures |r| == |s|
    ensures forall i :: 0 <= i < |s| ==> r[i] == LowerChar(s[i])
  {
    seq(|s|, i requires 0 <= i < |s| => LowerChar(s[i]))
  }
}
