/**
 * File names the extension derives: `sanitizeFilename` in the background worker, the
 * `NN-edit-<prompt>.png` names of collected edit images, and the `NN-grok-<name>.mp4`
 * output names the popup gives queue items.
 */
module Filenames {
  import opened Text

  /** The characters `sanitizeFilename` keeps: `[A-Za-z0-9_-]`. */
  predicate IsSafeChar(c: char) {
    ('a' <= c <= 'z') || ('A' <= c <= 'Z') || ('0' <= c <= '9') || c == '_' || c == '-'
  }

  predicate AllSafe(s: string) {
    forall i :: 0 <= i < |s| ==> IsSafeChar(s[i])
  }

  /** No two underscores in a row. */
  predicate NoDoubleUnderscore(s: string) {
    forall i :: 0 <= i < |s| - 1 ==> !(s[i] == '_' && s[i + 1] == '_')
  }

  /** The shape every sanitized name has. */
  predicate IsSanitized(s: string) {
    && AllSafe(s)
    && NoDoubleUnderscore(s)
    && (s == [] || (s[0] != '_' && s[|s| - 1] != '_'))
  }

  /** `.replace(/[^a-zA-Z0-9_-]/g, '_')`. */
  function ReplaceUnsafe(s: string): (r: string)
    ensures |r| == |s|
    ensures forall i :: 0 <= i < |s| ==> r[i] == if IsSafeChar(s[i]) then s[i] else '_'
  {
    if s == [] then [] else [if IsSafeChar(s[0]) then s[0] else '_'] + ReplaceUnsafe(s[1..])
  }

  /** `.replace(/_+/g, '_')`: every run of underscores becomes one. */
  function CollapseUnderscores(s: string): (r: string)
    ensures |r| <= |s|
    ensures s != [] ==> r != [] && r[0] == s[0] && r[|r| - 1] == s[|s| - 1]
    ensures NoDoubleUnderscore(r)
    ensures AllSafe(s) ==> AllSafe(r)
  {
    if |s| < 2 then s
    else if s[0] == '_' && s[1] == '_' then CollapseUnderscores(s[1..])
    else
      var rest := CollapseUnderscores(s[1..]);
      assert rest[0] == s[1];
      var r := [s[0]] + rest;
      assert forall i :: 1 <= i < |r| ==> r[i] == rest[i - 1];
      r
  }

  /** `.replace(/^_|_$/g, '')`: one leading and one trailing underscore removed. */
  function TrimUnderscores(s: string): string {
    var t := if s != [] && s[0] == '_' then s[1..] else s;
    if t != [] && t[|t| - 1] == '_' then t[..|t| - 1] else t
  }

  /** `sanitizeFilename`. */
  function SanitizeFilename(s: string): string {
    TrimUnderscores(CollapseUnderscores(ReplaceUnsafe(s)))
  }

  /** The characters that carry content: safe ones other than the underscore separator. */
  predicate IsContentChar(c: char) {
    IsSafeChar(c) && c != '_'
  }

  /** The content characters of `s`, in order. */
  function Content(s: string): string {
    if s == [] then [] else (if IsContentChar(s[0]) then [s[0]] else []) + Content(s[1..])
  }

  lemma {:induction false} ContentAppend(a: string, b: string)
    ensures Content(a + b) == Content(a) + Content(b)
  {
    if a != [] {
      assert (a + b)[0] == a[0] && (a + b)[1..] == a[1..] + b;
      ContentAppend(a[1..], b);
      var h := if IsContentChar(a[0]) then [a[0]] else [];
      assert Content(a + b) == h + Content(a[1..] + b);
      assert h + (Content(a[1..]) + Content(b)) == (h + Content(a[1..])) + Content(b);
    } else {
      assert a + b == b;
    }
  }

  lemma {:induction false} ContentReplaceUnsafe(s: string)
    ensures Content(ReplaceUnsafe(s)) == Content(s)
  {
    if s != [] {
      var r := ReplaceUnsafe(s);
      assert r[1..] == ReplaceUnsafe(s[1..]);
      ContentReplaceUnsafe(s[1..]);
    }
  }

  lemma {:induction false} ContentCollapse(s: string)
    ensures Content(CollapseUnderscores(s)) == Content(s)
  {
    if |s| >= 2 {
      ContentCollapse(s[1..]);
      if !(s[0] == '_' && s[1] == '_') {
        ContentAppend([s[0]], CollapseUnderscores(s[1..]));
      }
    }
  }

  lemma ContentTrimUnderscores(s: string)
    ensures Content(TrimUnderscores(s)) == Content(s)
  {
    var t := if s != [] && s[0] == '_' then s[1..] else s;
    if s != [] && s[0] == '_' {
      ContentAppend([s[0]], s[1..]);
      assert s == [s[0]] + s[1..];
    }
    if t != [] && t[|t| - 1] == '_' {
      ContentAppend(t[..|t| - 1], [t[|t| - 1]]);
      assert t == t[..|t| - 1] + [t[|t| - 1]];
    }
  }

  lemma {:induction false} CollapseNoDouble(s: string)
    requires NoDoubleUnderscore(s)
    ensures CollapseUnderscores(s) == s
  {
    if |s| >= 2 {
      CollapseNoDouble(s[1..]);
    }
  }

  lemma TrimUnderscoresShape(s: string)
    requires AllSafe(s) && NoDoubleUnderscore(s)
    ensures IsSanitized(TrimUnderscores(s))
  {
    var t := if s != [] && s[0] == '_' then s[1..] else s;
    assert AllSafe(t) && NoDoubleUnderscore(t);
    assert t != [] ==> t[0] != '_';
  }

  lemma {:induction false} ReplaceUnsafeOfSafe(s: string)
    requires AllSafe(s)
    ensures ReplaceUnsafe(s) == s
  {
    if s != [] {
      ReplaceUnsafeOfSafe(s[1..]);
    }
  }

  /**
   * `sanitizeFilename` returns only `[A-Za-z0-9_-]` characters, never two underscores in a
   * row, and no underscore at either end; and it keeps every letter, digit and hyphen of
   * its input, in order.
   */
  lemma SanitizeFilenameShape(s: string)
    ensures IsSanitized(SanitizeFilename(s))
    ensures Content(SanitizeFilename(s)) == Content(s)
  {
    var a := ReplaceUnsafe(s);
    var b := CollapseUnderscores(a);
    TrimUnderscoresShape(b);
    ContentReplaceUnsafe(s);
    ContentCollapse(a);
    ContentTrimUnderscores(b);
  }

  /** Sanitizing an already sanitized name changes nothing. */
  lemma SanitizeFilenameIdempotent(s: string)
    ensures SanitizeFilename(SanitizeFilename(s)) == SanitizeFilename(s)
  {
    var r := SanitizeFilename(s);
    SanitizeFilenameShape(s);
    ReplaceUnsafeOfSafe(r);
    CollapseNoDouble(r);
  }

  // ---------------------------------------------------------------------------
  // Edit image names: `${pad2(p + 1)}-edit-${sanitizeFilename(prompt.substring(0, 30))}.png`.
  // ---------------------------------------------------------------------------

  function EditImageFilename(p: nat, prompt: string): string {
    Pad2(p + 1) + "-edit-" + SanitizeFilename(Take(prompt, 30)) + ".png"
  }

  // ---------------------------------------------------------------------------
  // Video output names: `${pad2(index + 1)}-grok-${name.replace(/\.[^/.]+$/, '')}.mp4`.
  // ---------------------------------------------------------------------------

  predicate IsSeparator(c: char) {
    c == '.' || c == '/'
  }

  /** No '.' and no '/' after position `k`. */
  predicate NoSeparatorAfter(s: string, k: int) {
    forall i :: 0 <= i < |s| && k < i ==> !IsSeparator(s[i])
  }

  /** `s` ends in `.ext` with a non-empty `ext` free of '.' and '/': what `/\.[^/.]+$/` matches. */
  predicate HasExtension(s: string) {
    exists k :: 0 <= k < |s| - 1 && s[k] == '.' && NoSeparatorAfter(s, k)
  }

  /** The position of the last '.' or '/', or -1. */
  function LastSeparator(s: string): (k: int)
    ensures -1 <= k < |s|
    ensures k >= 0 ==> IsSeparator(s[k])
    ensures NoSeparatorAfter(s, k)
  {
    if s == [] then -1
    else if IsSeparator(s[|s| - 1]) then |s| - 1
    else LastSeparator(s[..|s| - 1])
  }

  /** Whether there is an extension is decided by the last '.' or '/'. */
  lemma HasExtensionAtLastSeparator(s: string)
    ensures var k := LastSeparator(s);
      HasExtension(s) <==> (k >= 0 && s[k] == '.' && k < |s| - 1)
  {
    var k := LastSeparator(s);
    if HasExtension(s) {
      var k' :| 0 <= k' < |s| - 1 && s[k'] == '.' && NoSeparatorAfter(s, k');
      assert IsSeparator(s[k']);
      assert k' <= k;
    }
  }

  /** `name.replace(/\.[^/.]+$/, '')`: the final extension removed, if there is one. */
  function StripExtension(name: string): (r: string)
    ensures |r| <= |name| && r == name[..|r|]
    ensures r != name <==> HasExtension(name)
    ensures r != name ==> |name| >= |r| + 2 && name[|r|] == '.' && NoSeparatorAfter(name, |r|)
  {
    var k := LastSeparator(name);
    HasExtensionAtLastSeparator(name);
    if k >= 0 && name[k] == '.' && k < |name| - 1 then name[..k] else name
  }

  /** The separator at `k` with none after it is the last one. */
  lemma {:induction false} LastSeparatorAt(s: string, k: nat)
    requires k < |s| && IsSeparator(s[k]) && NoSeparatorAfter(s, k)
    ensures LastSeparator(s) == k
  {
    if k < |s| - 1 {
      LastSeparatorAt(s[..|s| - 1], k);
    }
  }

  /** The popup's output name for the queue item at `index` whose file is called `name`. */
  function OutputFilename(index: nat, name: string): string {
    Pad2(index + 1) + "-grok-" + StripExtension(name) + ".mp4"
  }

  /** A file `base.ext` becomes `NN-grok-base.mp4`. */
  lemma OutputFilenameOf(index: nat, base: string, ext: string)
    requires ext != [] && forall i :: 0 <= i < |ext| ==> !IsSeparator(ext[i])
    ensures OutputFilename(index, base + "." + ext) == Pad2(index + 1) + "-grok-" + base + ".mp4"
  {
    var name := base + "." + ext;
    assert name[|base|] == '.';
    assert NoSeparatorAfter(name, |base|) by {
      forall i | 0 <= i < |name| && |base| < i ensures !IsSeparator(name[i]) {
        assert name[i] == ext[i - |base| - 1];
      }
    }
    LastSeparatorAt(name, |base|);
    assert name[..|base|] == base;
  }

  /** The number of leading decimal digits. */
  function LeadingDigits(s: string): nat {
    if s != [] && IsDigit(s[0]) then 1 + LeadingDigits(s[1..]) else 0
  }

  lemma {:induction false} LeadingDigitsOf(p: string, x: string)
    requires forall i :: 0 <= i < |p| ==> IsDigit(p[i])
    requires x != [] && !IsDigit(x[0])
    ensures LeadingDigits(p + x) == |p|
  {
    if p == [] {
      assert p + x == x;
    } else {
      assert (p + x)[0] == p[0] && (p + x)[1..] == p[1..] + x;
      LeadingDigitsOf(p[1..], x);
    }
  }

  /** A digit string followed by '-' can be read back: the counter prefix is determined. */
  lemma NumberedPrefix(p: string, q: string, x: string, y: string)
    requires forall i :: 0 <= i < |p| ==> IsDigit(p[i])
    requires forall i :: 0 <= i < |q| ==> IsDigit(q[i])
    requires x != [] && x[0] == '-' && y != [] && y[0] == '-'
    requires p + x == q + y
    ensures p == q
  {
    LeadingDigitsOf(p, x);
    LeadingDigitsOf(q, y);
    assert p == (p + x)[..|p|] && q == (q + y)[..|q|];
  }

  /** Two names that each start with a counter prefix and then '-' have the same counter. */
  lemma NumberedDistinct(m: nat, n: nat, x: string, y: string)
    requires x != [] && x[0] == '-' && y != [] && y[0] == '-'
    requires Pad2(m) + x == Pad2(n) + y
    ensures m == n
  {
    Pad2RoundTrip(m);
    Pad2RoundTrip(n);
    NumberedPrefix(Pad2(m), Pad2(n), x, y);
  }

  lemma Regroup(p: string, a: string, b: string, c: string)
    ensures p + a + b + c == p + (a + b + c)
    ensures a != [] ==> (a + b + c)[0] == a[0]
  {
  }

  /** Output names of different queue positions never collide, whatever the file names. */
  lemma OutputFilenamesDistinct(i: nat, a: string, j: nat, b: string)
    requires OutputFilename(i, a) == OutputFilename(j, b)
    ensures i == j
  {
    Regroup(Pad2(i + 1), "-grok-", StripExtension(a), ".mp4");
    Regroup(Pad2(j + 1), "-grok-", StripExtension(b), ".mp4");
    NumberedDistinct(i + 1, j + 1, "-grok-" + StripExtension(a) + ".mp4", "-grok-" + StripExtension(b) + ".mp4");
  }

  /** Edit image names of different prompt positions never collide. */
  lemma EditImageFilenamesDistinct(p: nat, a: string, q: nat, b: string)
    requires EditImageFilename(p, a) == EditImageFilename(q, b)
    ensures p == q
  {
    var sa := SanitizeFilename(Take(a, 30));
    var sb := SanitizeFilename(Take(b, 30));
    Regroup(Pad2(p + 1), "-edit-", sa, ".png");
    Regroup(Pad2(q + 1), "-edit-", sb, ".png");
    NumberedDistinct(p + 1, q + 1, "-edit-" + sa + ".png", "-edit-" + sb + ".png");
  }
}
