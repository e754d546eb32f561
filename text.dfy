/**
 * The JavaScript string built-ins the extension relies on (`trim`, `split`,
 * `substring`, `String(n)`, `padStart`, `||` on strings), stated over `seq<char>`.
 */
module Text {
  import opened Wrappers

  /** The characters `String.prototype.trim` removes: ECMAScript white space and line terminators. */
  predicate IsWhitespace(c: char) {
    || c == ' ' || c == '\t' || c == '\n' || c == '\r' || c == '\U{B}' || c == '\U{C}'
    || c == '\U{A0}' || c == '\U{1680}' || ('\U{2000}' <= c <= '\U{200A}')
    || c == '\U{2028}' || c == '\U{2029}' || c == '\U{202F}' || c == '\U{205F}'
    || c == '\U{3000}' || c == '\U{FEFF}'
  }

  predicate AllWhitespace(s: string) {
    forall i :: 0 <= i < |s| ==> IsWhitespace(s[i])
  }

  /** The number of white-space characters `s` starts with. */
  function LeadingSpace(s: string): (n: nat)
    ensures n <= |s|
  {
    if s != [] && IsWhitespace(s[0]) then 1 + LeadingSpace(s[1..]) else 0
  }

  /** The length of `s` without its trailing white space. */
  function ContentEnd(s: string): (n: nat)
    ensures n <= |s|
  {
    if s != [] && IsWhitespace(s[|s| - 1]) then ContentEnd(s[..|s| - 1]) else |s|
  }

  /** `s` with its leading white space removed. */
  function TrimStart(s: string): string {
    s[LeadingSpace(s)..]
  }

  /** `s` with its trailing white space removed. */
  function TrimEnd(s: string): string {
    s[..ContentEnd(s)]
  }

  /** `String.prototype.trim`. */
  function Trim(s: string): string {
    TrimEnd(TrimStart(s))
  }

  /** The leading run is white space, and the character after it is not. */
  lemma {:induction false} LeadingSpaceFacts(s: string)
    ensures var n := LeadingSpace(s);
      AllWhitespace(s[..n]) && (n < |s| ==> !IsWhitespace(s[n]))
  {
    if s != [] && IsWhitespace(s[0]) {
      LeadingSpaceFacts(s[1..]);
      var n := LeadingSpace(s);
      forall i | 0 <= i < n
        ensures IsWhitespace(s[..n][i])
      {
        if i > 0 {
          assert s[..n][i] == s[1..][..n - 1][i - 1];
        }
      }
      if n < |s| {
        assert s[n] == s[1..][n - 1];
      }
    }
  }

  /** The trailing run is white space, and the character before it is not. */
  lemma {:induction false} ContentEndFacts(s: string)
    ensures var n := ContentEnd(s);
      AllWhitespace(s[n..]) && (n > 0 ==> !IsWhitespace(s[n - 1]))
  {
    if s != [] && IsWhitespace(s[|s| - 1]) {
      var p := s[..|s| - 1];
      ContentEndFacts(p);
      var n := ContentEnd(s);
      assert n == ContentEnd(p);
      forall i | 0 <= i < |s| - n
        ensures IsWhitespace(s[n..][i])
      {
        if n + i < |p| {
          assert s[n..][i] == p[n..][i];
        }
      }
      if n > 0 {
        assert s[n - 1] == p[n - 1];
      }
    }
  }

  /** Leading white space of a concatenation: it reaches into `t` only when all of `s` is white space. */
  lemma {:induction false} LeadingSpaceConcat(s: string, t: string)
    ensures LeadingSpace(s + t) == if LeadingSpace(s) < |s| then LeadingSpace(s) else |s| + LeadingSpace(t)
  {
    if s == [] {
      assert s + t == t;
    } else {
      assert (s + t)[0] == s[0] && (s + t)[1..] == s[1..] + t;
      if IsWhitespace(s[0]) {
        LeadingSpaceConcat(s[1..], t);
      }
    }
  }

  /** `s.split(sep)` for a one-character separator: never empty, one piece more than there are separators. */
  function Split(s: string, sep: char): (r: seq<string>)
    ensures |r| >= 1
    ensures forall k :: 0 <= k < |r| ==> sep !in r[k]
  {
    if s == [] then [[]]
    else
      var rest := Split(s[1..], sep);
      if s[0] == sep then [[]] + rest
      else [[s[0]] + rest[0]] + rest[1..]
  }

  /** The pieces joined with `sep` between them (`Array.prototype.join`). */
  function Join(xs: seq<string>, sep: char): string {
    if xs == [] then []
    else if |xs| == 1 then xs[0]
    else xs[0] + [sep] + Join(xs[1..], sep)
  }

  /** `s.substring(0, n)`: the first `n` characters, `n` clamped to `[0, |s|]`. */
  function Take(s: string, n: int): (r: string)
    ensures |r| == if n <= 0 then 0 else if n < |s| then n else |s|
    ensures r == s[..|r|]
  {
    if n <= 0 then [] else if n < |s| then s[..n] else s
  }

  /** `s.startsWith(prefix)`. */
  predicate StartsWith(s: string, prefix: string) {
    |prefix| <= |s| && s[..|prefix|] == prefix
  }

  /** `value || fallback` for an optional string: an absent or empty value falls back. */
  function OrElse(value: Option<string>, fallback: string): (r: string)
    ensures value.Some? && value.value != [] ==> r == value.value
    ensures value.None? || value.value == [] ==> r == fallback
  {
    if value.Some? && value.value != [] then value.value else fallback
  }

  predicate IsDigit(c: char) {
    '0' <= c <= '9'
  }

  function DigitChar(d: nat): char
    requires d < 10
  {
    "0123456789"[d]
  }

  /** `String(n)` for a non-negative integer: its decimal digits, without leading zeros. */
  function DecimalString(n: nat): (r: string)
    ensures |r| >= 1
    ensures forall i :: 0 <= i < |r| ==> IsDigit(r[i])
    ensures n < 10 <==> |r| == 1
    ensures n < 100 ==> |r| <= 2
  {
    if n < 10 then [DigitChar(n)] else DecimalString(n / 10) + [DigitChar(n % 10)]
  }

  /** The number a string of decimal digits denotes (leading zeros allowed). */
  function DecimalValue(s: string): nat
    requires forall i :: 0 <= i < |s| ==> IsDigit(s[i])
  {
    if s == [] then 0
    else
      var d := s[|s| - 1];
      assert IsDigit(d);
      DecimalValue(s[..|s| - 1]) * 10 + ((d as int - '0' as int) as nat)
  }

  /** `n` zero digits. */
  function Zeros(n: nat): (r: string)
    ensures |r| == n && forall i :: 0 <= i < n ==> r[i] == '0'
  {
    seq(n, _ => '0')
  }

  /** `s.padStart(width, '0')`. */
  function PadStartZero(s: string, width: nat): (r: string)
    ensures |r| == if |s| < width then width else |s|
    ensures r == Zeros(|r| - |s|) + s
  {
    if |s| < width then Zeros(width - |s|) + s else Zeros(0) + s
  }

  /** `String(n).padStart(2, '0')`, the two-digit counter prefix of output file names. */
  function Pad2(n: nat): string {
    PadStartZero(DecimalString(n), 2)
  }

  lemma {:induction false} DecimalRoundTrip(n: nat)
    ensures DecimalValue(DecimalString(n)) == n
  {
    if n >= 10 {
      var s := DecimalString(n);
      assert s[..|s| - 1] == DecimalString(n / 10);
      DecimalRoundTrip(n / 10);
    }
  }

  lemma {:induction false} LeadingZeroValue(s: string)
    requires forall i :: 0 <= i < |s| ==> IsDigit(s[i])
    ensures DecimalValue(['0'] + s) == DecimalValue(s)
  {
    if s != [] {
      var t := ['0'] + s;
      assert t[..|t| - 1] == ['0'] + s[..|s| - 1];
      LeadingZeroValue(s[..|s| - 1]);
    }
  }

  /** Leading zeros do not change the value of a numeral. */
  lemma {:induction false} ZerosValue(n: nat, s: string)
    requires forall i :: 0 <= i < |s| ==> IsDigit(s[i])
    ensures forall i :: 0 <= i < |Zeros(n) + s| ==> IsDigit((Zeros(n) + s)[i])
    ensures DecimalValue(Zeros(n) + s) == DecimalValue(s)
  {
    if n > 0 {
      assert Zeros(n) + s == Zeros(n - 1) + (['0'] + s);
      LeadingZeroValue(s);
      ZerosValue(n - 1, ['0'] + s);
    } else {
      assert Zeros(n) + s == s;
    }
  }

  lemma PadValue(s: string, width: nat)
    requires forall i :: 0 <= i < |s| ==> IsDigit(s[i])
    ensures forall i :: 0 <= i < |PadStartZero(s, width)| ==> IsDigit(PadStartZero(s, width)[i])
    ensures DecimalValue(PadStartZero(s, width)) == DecimalValue(s)
  {
    var r := PadStartZero(s, width);
    ZerosValue(|r| - |s|, s);
  }

  /**
   * The two-digit prefix is a decimal numeral of exactly two digits for n < 100, and always
   * reads back as n: distinct counters give distinct prefixes.
   */
  lemma Pad2RoundTrip(n: nat)
    ensures |Pad2(n)| >= 2 && (n < 100 ==> |Pad2(n)| == 2)
    ensures forall i :: 0 <= i < |Pad2(n)| ==> IsDigit(Pad2(n)[i])
    ensures DecimalValue(Pad2(n)) == n
  {
    DecimalRoundTrip(n);
    PadValue(DecimalString(n), 2);
  }

  // ---------------------------------------------------------------------------
  // Facts about Split and Trim used by the prompt-list lemmas.
  // ---------------------------------------------------------------------------

  /** Splitting at a separator character splits each side independently. */
  lemma {:induction false} SplitAtSeparator(a: string, sep: char, b: string)
    ensures Split(a + [sep] + b, sep) == Split(a, sep) + Split(b, sep)
  {
    var s := a + [sep] + b;
    if a == [] {
      assert s[0] == sep && s[1..] == b;
    } else {
      assert s[0] == a[0] && s[1..] == a[1..] + [sep] + b;
      SplitAtSeparator(a[1..], sep, b);
    }
  }

  /** A leading non-separator character joins the first piece. */
  lemma SplitConsOther(c: char, s: string, sep: char)
    requires c != sep
    ensures Split([c] + s, sep) == [[c] + Split(s, sep)[0]] + Split(s, sep)[1..]
  {
    assert ([c] + s)[1..] == s;
  }

  /** The pieces `p` with `c` appended to the last one. */
  function GrowLast(p: seq<string>, c: char): seq<string>
    requires p != []
  {
    p[..|p| - 1] + [p[|p| - 1] + [c]]
  }

  /** A trailing non-separator character joins the last piece. */
  lemma {:induction false} SplitSnocOther(s: string, c: char, sep: char)
    requires c != sep
    ensures Split(s + [c], sep) == GrowLast(Split(s, sep), c)
  {
    if s == [] {
      var t := s + [c];
      assert t == [c] && t[1..] == [];
      var e: string := [];
      assert Split(e, sep) == [e];
      assert [c] + e == [c];
      assert Split(t, sep) == [[c]];
    } else {
      SplitSnocOther(s[1..], c, sep);
      SplitSnocOtherStep(s, c, sep);
    }
  }

  /** The inductive step of `SplitSnocOther`: from `s[1..]` to `s`. */
  lemma SplitSnocOtherStep(s: string, c: char, sep: char)
    requires c != sep && s != []
    requires Split(s[1..] + [c], sep) == GrowLast(Split(s[1..], sep), c)
    ensures Split(s + [c], sep) == GrowLast(Split(s, sep), c)
  {
    var t := s + [c];
    assert t[0] == s[0] && t[1..] == s[1..] + [c];
    var p1 := Split(s[1..], sep);
    if s[0] == sep {
      GrowLastCons([], p1, c);
    } else {
      GrowLastExtendFirst(s[0], p1, c);
    }
  }

  lemma GrowLastCons(x: string, p: seq<string>, c: char)
    requires p != []
    ensures GrowLast([x] + p, c) == [x] + GrowLast(p, c)
  {
    assert ([x] + p)[..|p|] == [x] + p[..|p| - 1];
  }

  lemma GrowLastExtendFirst(a: char, p: seq<string>, c: char)
    requires p != []
    ensures var g := GrowLast(p, c);
      [[a] + g[0]] + g[1..] == GrowLast([[a] + p[0]] + p[1..], c)
  {
    var g := GrowLast(p, c);
    if |p| == 1 {
      assert g == [p[0] + [c]];
      assert [a] + (p[0] + [c]) == ([a] + p[0]) + [c];
    } else {
      assert g[0] == p[0];
      assert g[1..] == p[1..|p| - 1] + [p[|p| - 1] + [c]];
    }
  }

  /** A trailing separator adds one empty piece. */
  lemma SplitSnocSeparator(s: string, sep: char)
    ensures Split(s + [sep], sep) == Split(s, sep) + [[]]
  {
    SplitAtSeparator(s, sep, []);
    assert s + [sep] + [] == s + [sep];
  }

  lemma TrimConsWhitespace(c: char, s: string)
    requires IsWhitespace(c)
    ensures Trim([c] + s) == Trim(s)
  {
    assert ([c] + s)[1..] == s;
    assert TrimStart([c] + s) == TrimStart(s);
  }

  lemma TrimSnocWhitespace(s: string, c: char)
    requires IsWhitespace(c)
    ensures Trim(s + [c]) == Trim(s)
  {
    var n := LeadingSpace(s);
    LeadingSpaceConcat(s, [c]);
    if n < |s| {
      var u := TrimStart(s);
      assert TrimStart(s + [c]) == u + [c];
      assert (u + [c])[..|u|] == u;
      assert ContentEnd(u + [c]) == ContentEnd(u);
    } else {
      assert [c][1..] == [];
      assert LeadingSpace([c]) == 1;
      assert TrimStart(s + [c]) == [];
    }
  }

  /** Every string is its white-space margins around its trimmed core. */
  lemma TrimDecomposition(s: string) returns (lead: string, trail: string)
    ensures s == lead + Trim(s) + trail
    ensures AllWhitespace(lead) && AllWhitespace(trail)
  {
    var n := LeadingSpace(s);
    var u := TrimStart(s);
    var m := ContentEnd(u);
    LeadingSpaceFacts(s);
    ContentEndFacts(u);
    lead := s[..n];
    trail := u[m..];
    assert u == u[..m] + trail;
    assert s == lead + u;
  }

  lemma ConcatAssoc(a: string, b: string, c: string)
    ensures a + b + c == a + (b + c)
  {
  }

  lemma SliceSplit(s: string, k: nat)
    requires k <= |s|
    ensures s == s[..k] + s[k..]
  {
  }

  /** A character absent from `s` is absent from every slice of it. */
  lemma NotInSlice(s: string, a: nat, b: nat, c: char)
    requires a <= b <= |s| && c !in s
    ensures c !in s[a..b]
  {
    forall i | 0 <= i < b - a
      ensures s[a..b][i] != c
    {
      assert s[a..b][i] == s[a + i];
    }
  }

  /** Trimming a string that already has no white-space margins leaves it unchanged. */
  lemma TrimUntrimmed(s: string)
    requires s == [] || (!IsWhitespace(s[0]) && !IsWhitespace(s[|s| - 1]))
    ensures Trim(s) == s
  {
    assert LeadingSpace(s) == 0;
    assert TrimStart(s) == s;
  }

  /** A trimmed string has no white-space margins. */
  lemma TrimmedEnds(s: string)
    ensures var t := Trim(s);
      t == [] || (!IsWhitespace(t[0]) && !IsWhitespace(t[|t| - 1]))
  {
    var n := LeadingSpace(s);
    var u := TrimStart(s);
    var t := Trim(s);
    LeadingSpaceFacts(s);
    ContentEndFacts(u);
    if t != [] {
      assert t[0] == u[0] == s[n];
      assert t[|t| - 1] == u[ContentEnd(u) - 1];
    }
  }

  /** `trim` is idempotent. */
  lemma TrimIdempotent(s: string)
    ensures Trim(Trim(s)) == Trim(s)
  {
    TrimmedEnds(s);
    TrimUntrimmed(Trim(s));
  }

  /** Trimming white space yields the empty string. */
  lemma TrimWhitespace(s: string)
    requires AllWhitespace(s)
    ensures Trim(s) == []
  {
    LeadingSpaceFacts(s);
  }

  /** A character absent from `s` is absent from its trimmed form. */
  lemma TrimSubstring(s: string, c: char)
    requires c !in s
    ensures c !in Trim(s)
  {
    var u := TrimStart(s);
    NotInSlice(s, LeadingSpace(s), |s|, c);
    NotInSlice(u, 0, ContentEnd(u), c);
  }
}
