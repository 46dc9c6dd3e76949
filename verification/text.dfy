/** The string primitives the screen relies on: `String.prototype.trim`,
    `toLowerCase` (ASCII letters only), `includes`, `slice(0, n)` and
    `split(/\n+/)`. */
module Text {

  /** The characters `trim` removes: ECMAScript WhiteSpace (tab, vertical tab,
      form feed, zero-width no-break space and every space separator) and
      LineTerminator (line feed, carriage return, line and paragraph separator). */
  predicate IsSpace(c: char) {
    c == '\t' || c == '\n' || c == '\U{000B}' || c == '\U{000C}' || c == '\r' ||
    c == ' ' || c == '\U{00A0}' || c == '\U{1680}' ||
    ('\U{2000}' <= c <= '\U{200A}') ||
    c == '\U{2028}' || c == '\U{2029}' || c == '\U{202F}' || c == '\U{205F}' ||
    c == '\U{3000}' || c == '\U{FEFF}'
  }

  /** Empty or made only of whitespace. */
  predicate IsBlank(s: string) {
    forall k :: 0 <= k < |s| ==> IsSpace(s[k])
  }

  /** The number of whitespace characters `s` starts with. */
  function LeadingSpace(s: string): (n: nat)
    ensures n <= |s|
    ensures forall k :: 0 <= k < n ==> IsSpace(s[k])
    ensures n < |s| ==> !IsSpace(s[n])
    decreases |s|
  {
    if s != [] && IsSpace(s[0]) then 1 + LeadingSpace(s[1..]) else 0
  }

  /** The position where the whitespace `s` ends with begins. */
  function TrailingSpaceStart(s: string): (n: nat)
    ensures n <= |s|
    ensures forall k :: n <= k < |s| ==> IsSpace(s[k])
    ensures n > 0 ==> !IsSpace(s[n - 1])
    decreases |s|
  {
    if s != [] && IsSpace(s[|s| - 1]) then TrailingSpaceStart(s[..|s| - 1]) else |s|
  }

  /** `trimStart`. */
  function TrimStart(s: string): string {
    s[LeadingSpace(s)..]
  }

  /** `trimEnd`. */
  function TrimEnd(s: string): string {
    s[..TrailingSpaceStart(s)]
  }

  /** `trim`: no whitespace left at either end, and nothing left of a blank string. */
  function Trim(s: string): (r: string)
    ensures r == [] || (!IsSpace(r[0]) && !IsSpace(r[|r| - 1]))
    ensures r == [] <==> IsBlank(s)
  {
    var t := TrimStart(s);
    var r := TrimEnd(t);
    assert t == [] ==> LeadingSpace(s) == |s|;
    assert t != [] ==> !IsSpace(t[0]);
    assert r == [] ==> IsBlank(t);
    r
  }

  /** ASCII case folding of one character. */
  function LowerChar(c: char): (d: char)
    ensures 'A' <= c <= 'Z' ==> 'a' <= d <= 'z' && d as int - c as int == 32
    ensures !('A' <= c <= 'Z') ==> d == c
  {
    if 'A' <= c <= 'Z' then (c as int + 32) as char else c
  }

  /** `toLowerCase`, restricted to ASCII letters. */
  function Lower(s: string): (r: string)
    ensures |r| == |s|
    ensures forall k :: 0 <= k < |s| ==> r[k] == LowerChar(s[k])
    decreases |s|
  {
    if s == [] then [] else [LowerChar(s[0])] + Lower(s[1..])
  }

  /** `haystack.startsWith(needle)`. */
  predicate StartsWith(haystack: string, needle: string) {
    |needle| <= |haystack| && haystack[..|needle|] == needle
  }

  /** `haystack.includes(needle)`, scanning from the left. */
  predicate Contains(haystack: string, needle: string): (r: bool)
    ensures needle == [] ==> r
    ensures r ==> |needle| <= |haystack|
    decreases |haystack|
  {
    StartsWith(haystack, needle) || (haystack != [] && Contains(haystack[1..], needle))
  }

  /** `s.slice(0, n)`: at most `n` characters, a prefix of `s`. */
  function Take(s: string, n: nat): (r: string)
    ensures |r| == if |s| <= n then |s| else n
    ensures r <= s
  {
    if |s| <= n then s else s[..n]
  }

  /** Length of the longest prefix of `s` without a line feed. */
  function LineLength(s: string): (n: nat)
    ensures n <= |s|
    ensures forall k :: 0 <= k < n ==> s[k] != '\n'
    ensures n < |s| ==> s[n] == '\n'
    decreases |s|
  {
    if s == [] || s[0] == '\n' then 0 else 1 + LineLength(s[1..])
  }

  /** Drop a leading run of line feeds. */
  function SkipNewlines(s: string): (r: string)
    ensures |r| <= |s|
    ensures s != [] && s[0] == '\n' ==> |r| < |s|
    decreases |s|
  {
    if s != [] && s[0] == '\n' then SkipNewlines(s[1..]) else s
  }

  /** `s.split(/\n+/)`: the pieces between maximal runs of line feeds. */
  function SplitLines(s: string): (r: seq<string>)
    ensures |r| >= 1
    ensures r[0] == s[..LineLength(s)]
    ensures forall k :: 0 <= k < |r| ==> '\n' !in r[k]
    decreases |s|
  {
    var n := LineLength(s);
    if n == |s| then [s]
    else [s[..n]] + SplitLines(SkipNewlines(s[n..]))
  }

  /** `s` with every run of line feeds collapsed to a single line feed. */
  function Squeeze(s: string): string
    decreases |s|
  {
    if s == [] then []
    else if s[0] == '\n' then "\n" + Squeeze(SkipNewlines(s))
    else [s[0]] + Squeeze(s[1..])
  }

  /** `pieces.join("\n")`. */
  function JoinLines(pieces: seq<string>): string
    decreases |pieces|
  {
    if pieces == [] then ""
    else if |pieces| == 1 then pieces[0]
    else pieces[0] + "\n" + JoinLines(pieces[1..])
  }

  // ---------------------------------------------------------------------------
  // Properties

  /** `r` sits at offset `i` of `s` with only whitespace around it. */
  ghost predicate TrimmedAt(s: string, r: string, i: int) {
    0 <= i <= |s| - |r| && r == s[i..i + |r|] &&
    (forall k :: 0 <= k < i ==> IsSpace(s[k])) &&
    (forall k :: i + |r| <= k < |s| ==> IsSpace(s[k]))
  }

  /** `trim` removes exactly the whitespace around a contiguous piece of its input. */
  lemma TrimIsInfix(s: string)
    ensures exists i :: TrimmedAt(s, Trim(s), i)
  {
    var i := LeadingSpace(s);
    var t := TrimStart(s);
    var j := TrailingSpaceStart(t);
    assert Trim(s) == s[i..i + j];
    forall k | i + j <= k < |s| ensures IsSpace(s[k]) {
      assert s[k] == t[k - i];
    }
    assert TrimmedAt(s, Trim(s), i);
  }

  /** `needle` occurs in `haystack` starting at position `i`. */
  ghost predicate OccursAt(haystack: string, needle: string, i: int) {
    0 <= i && i + |needle| <= |haystack| && haystack[i..i + |needle|] == needle
  }

  /** A successful scan finds an occurrence. */
  lemma {:induction false} ContainsOccurs(haystack: string, needle: string)
    requires Contains(haystack, needle)
    ensures exists i :: OccursAt(haystack, needle, i)
    decreases |haystack|
  {
    if StartsWith(haystack, needle) {
      assert OccursAt(haystack, needle, 0);
    } else {
      var rest := haystack[1..];
      ContainsOccurs(rest, needle);
      var i :| OccursAt(rest, needle, i);
      assert rest[i..i + |needle|] == haystack[i + 1..i + 1 + |needle|];
      assert OccursAt(haystack, needle, i + 1);
    }
  }

  /** An occurrence at position `i` makes the scan succeed. */
  lemma {:induction false} OccursContains(haystack: string, needle: string, i: int)
    requires OccursAt(haystack, needle, i)
    ensures Contains(haystack, needle)
    decreases i
  {
    if i > 0 {
      var rest := haystack[1..];
      assert rest[i - 1..i - 1 + |needle|] == haystack[i..i + |needle|];
      OccursContains(rest, needle, i - 1);
    } else {
      assert StartsWith(haystack, needle);
    }
  }

  /** `Contains` agrees with the positional definition of a substring. */
  lemma ContainsIffOccurs(haystack: string, needle: string)
    ensures Contains(haystack, needle) <==> exists i :: OccursAt(haystack, needle, i)
  {
    if Contains(haystack, needle) {
      ContainsOccurs(haystack, needle);
    }
    if exists i :: OccursAt(haystack, needle, i) {
      var i :| OccursAt(haystack, needle, i);
      OccursContains(haystack, needle, i);
    }
  }

  /** Lower-casing keeps whitespace and non-whitespace apart. */
  lemma LowerCharKeepsSpace(c: char)
    ensures IsSpace(LowerChar(c)) <==> IsSpace(c)
  {
  }

  lemma {:induction false} LowerSlice(s: string, i: nat, j: nat)
    requires i <= j <= |s|
    ensures Lower(s[i..j]) == Lower(s)[i..j]
  {
  }

  lemma {:induction false} LeadingSpaceLower(s: string)
    ensures LeadingSpace(Lower(s)) == LeadingSpace(s)
    decreases |s|
  {
    if s != [] {
      LowerCharKeepsSpace(s[0]);
      assert Lower(s)[1..] == Lower(s[1..]);
      LeadingSpaceLower(s[1..]);
    }
  }

  lemma {:induction false} TrailingSpaceStartLower(s: string)
    ensures TrailingSpaceStart(Lower(s)) == TrailingSpaceStart(s)
    decreases |s|
  {
    if s != [] {
      var last := |s| - 1;
      var ls := Lower(s);
      assert ls != [] && ls[last] == LowerChar(s[last]);
      LowerCharKeepsSpace(s[last]);
      LowerSlice(s, 0, last);
      assert ls[..last] == Lower(s[..last]);
      TrailingSpaceStartLower(s[..last]);
    }
  }

  lemma TrimStartLower(s: string)
    ensures TrimStart(Lower(s)) == Lower(TrimStart(s))
  {
    LeadingSpaceLower(s);
    LowerSlice(s, LeadingSpace(s), |s|);
  }

  lemma TrimEndLower(s: string)
    ensures TrimEnd(Lower(s)) == Lower(TrimEnd(s))
  {
    TrailingSpaceStartLower(s);
    LowerSlice(s, 0, TrailingSpaceStart(s));
  }

  /** Trimming and lower-casing commute, so the normalised query depends only on
      the lower-cased query. */
  lemma TrimLowerCommute(s: string)
    ensures Lower(Trim(s)) == Trim(Lower(s))
  {
    TrimStartLower(s);
    TrimEndLower(TrimStart(s));
  }

  /** Trimming twice is trimming once. */
  lemma TrimIdempotent(s: string)
    ensures Trim(Trim(s)) == Trim(s)
  {
    var t := Trim(s);
    if t != [] {
      assert LeadingSpace(t) == 0;
      assert TrailingSpaceStart(t) == |t|;
    }
  }

  /** Whitespace in front of a string only adds to its leading whitespace. */
  lemma {:induction false} LeadingSpaceBlankPrefix(pad: string, s: string)
    requires IsBlank(pad)
    ensures LeadingSpace(pad + s) == |pad| + LeadingSpace(s)
    decreases |pad|
  {
    if pad != [] {
      assert (pad + s)[1..] == pad[1..] + s;
      LeadingSpaceBlankPrefix(pad[1..], s);
    } else {
      assert pad + s == s;
    }
  }

  /** Leading whitespace stops inside a non-blank string, whatever follows it. */
  lemma {:induction false} LeadingSpaceNotBlank(s: string, tail: string)
    requires !IsBlank(s)
    ensures LeadingSpace(s + tail) == LeadingSpace(s)
    decreases |s|
  {
    if IsSpace(s[0]) {
      assert (s + tail)[1..] == s[1..] + tail;
      assert !IsBlank(s[1..]) by {
        var k :| 0 <= k < |s| && !IsSpace(s[k]);
        assert s[1..][k - 1] == s[k];
      }
      LeadingSpaceNotBlank(s[1..], tail);
    }
  }

  /** Whitespace after a string only adds to its trailing whitespace. */
  lemma {:induction false} TrailingSpaceBlankSuffix(s: string, pad: string)
    requires IsBlank(pad)
    ensures TrailingSpaceStart(s + pad) == TrailingSpaceStart(s)
    decreases |pad|
  {
    if pad != [] {
      var init := pad[..|pad| - 1];
      assert (s + pad)[..|s + pad| - 1] == s + init;
      TrailingSpaceBlankSuffix(s, init);
    } else {
      assert s + pad == s;
    }
  }

  lemma BlankConcat(a: string, b: string)
    requires IsBlank(a) && IsBlank(b)
    ensures IsBlank(a + b)
  {
    forall k | 0 <= k < |a + b| ensures IsSpace((a + b)[k]) {
      if k >= |a| { assert (a + b)[k] == b[k - |a|]; }
    }
  }

  /** Any position that meets the contract of `LeadingSpace` is its result. */
  lemma LeadingSpaceIs(s: string, n: nat)
    requires n <= |s|
    requires forall k :: 0 <= k < n ==> IsSpace(s[k])
    requires n < |s| ==> !IsSpace(s[n])
    ensures LeadingSpace(s) == n
  {
  }

  /** A non-blank string does not start with whitespace only. */
  lemma LeadingSpaceInside(q: string)
    requires !IsBlank(q)
    ensures LeadingSpace(q) < |q|
  {
  }

  /** Blank padding followed by the leading whitespace of `q` is all whitespace. */
  lemma PaddedLeadingSpace(pad: string, q: string, tail: string)
    requires IsBlank(pad)
    ensures forall k :: 0 <= k < |pad| + LeadingSpace(q) ==> IsSpace((pad + (q + tail))[k])
  {
    var s := pad + (q + tail);
    var i := LeadingSpace(q);
    forall k | 0 <= k < |pad| + i ensures IsSpace(s[k]) {
      if k < |pad| {
        assert s[k] == pad[k];
      } else {
        assert s[k] == q[k - |pad|];
      }
    }
  }

  /** Dropping padding and a prefix of `q` from a concatenation leaves the rest of `q`. */
  lemma DropPadded(pad: string, q: string, tail: string, i: nat)
    requires i <= |q|
    ensures (pad + (q + tail))[|pad| + i..] == q[i..] + tail
  {
    var rest := q + tail;
    assert (pad + rest)[|pad|..] == rest;
    assert rest[i..] == q[i..] + tail;
  }

  /** `trimStart` stops at the first non-whitespace character of `q` behind blank padding. */
  lemma TrimStartStopsInQ(pad: string, q: string, tail: string)
    requires IsBlank(pad) && !IsBlank(q)
    ensures |pad| + LeadingSpace(q) < |pad + (q + tail)|
    ensures TrimStart(pad + (q + tail)) == (pad + (q + tail))[|pad| + LeadingSpace(q)..]
  {
    var s := pad + (q + tail);
    var i := LeadingSpace(q);
    var n := |pad| + i;
    LeadingSpaceInside(q);
    PaddedLeadingSpace(pad, q, tail);
    assert s[n] == q[i];
    LeadingSpaceIs(s, n);
  }

  /** Whitespace in front of a non-blank string is what `trimStart` removes. */
  lemma TrimStartPadded(pad: string, q: string, tail: string)
    requires IsBlank(pad) && !IsBlank(q)
    ensures TrimStart(pad + (q + tail)) == q[LeadingSpace(q)..] + tail
  {
    TrimStartStopsInQ(pad, q, tail);
    DropPadded(pad, q, tail, LeadingSpace(q));
  }

  /** `trim` ignores whitespace padding on either side. */
  lemma TrimPadded(q: string, pad1: string, pad2: string)
    requires IsBlank(pad1) && IsBlank(pad2)
    ensures Trim(pad1 + q + pad2) == Trim(q)
  {
    assert pad1 + q + pad2 == pad1 + (q + pad2);
    if IsBlank(q) {
      BlankConcat(q, pad2);
      BlankConcat(pad1, q + pad2);
    } else {
      TrimStartPadded(pad1, q, pad2);
      TrailingSpaceBlankSuffix(q[LeadingSpace(q)..], pad2);
    }
  }

  /** The first piece of a split is non-blank when the text does not start with whitespace. */
  lemma FirstLineNotBlank(s: string)
    requires s != [] && !IsSpace(s[0])
    ensures !IsBlank(SplitLines(s)[0]) && |SplitLines(s)[0]| > 0
  {
    assert s[0] != '\n';
    assert SplitLines(s)[0][0] == s[0];
  }

  /** Text without line feeds passes through `Squeeze` unchanged. */
  lemma {:induction false} SqueezeLine(p: string, q: string)
    requires '\n' !in p
    ensures Squeeze(p + q) == p + Squeeze(q)
    decreases |p|
  {
    if p == [] {
      assert p + q == q;
    } else {
      assert (p + q)[0] == p[0] && (p + q)[1..] == p[1..] + q;
      SqueezeLine(p[1..], q);
    }
  }

  lemma JoinLinesCons(a: string, rest: seq<string>)
    requires rest != []
    ensures JoinLines([a] + rest) == a + "\n" + JoinLines(rest)
  {
    assert ([a] + rest)[1..] == rest;
  }

  /** A run of line feeds collapses to one. */
  lemma SqueezeRun(tail: string)
    requires tail != [] && tail[0] == '\n'
    ensures Squeeze(tail) == "\n" + Squeeze(SkipNewlines(tail))
  {
  }

  /** Collapsing runs keeps a line and one line feed after it. */
  lemma SqueezeAtLine(line: string, tail: string)
    requires '\n' !in line
    requires tail != [] && tail[0] == '\n'
    ensures Squeeze(line + tail) == line + "\n" + Squeeze(SkipNewlines(tail))
  {
    SqueezeRun(tail);
    SqueezeLine(line, tail);
  }

  /** Joining the pieces of a split with single line feeds gives the text with
      its runs of line feeds collapsed. */
  lemma {:induction false} SplitLinesRoundTrip(s: string)
    ensures JoinLines(SplitLines(s)) == Squeeze(s)
    decreases |s|
  {
    var n := LineLength(s);
    var line, tail := s[..n], s[n..];
    assert '\n' !in line by {
      forall k | 0 <= k < |line| ensures line[k] != '\n' {
        assert line[k] == s[k];
      }
    }
    assert s == line + tail;
    if n == |s| {
      SqueezeLine(line, tail);
    } else {
      var rest := SkipNewlines(tail);
      SplitLinesRoundTrip(rest);
      JoinLinesCons(line, SplitLines(rest));
      SqueezeAtLine(line, tail);
    }
  }

  /** The first line of `p + q` is `p` when `p` has no line feed and `q` is
      empty or starts with one. */
  lemma LineLengthAt(p: string, q: string)
    requires '\n' !in p
    requires q == [] || q[0] == '\n'
    ensures LineLength(p + q) == |p|
  {
    var x := p + q;
    assert forall k :: 0 <= k < |p| ==> x[k] == p[k] && x[k] != '\n';
    assert q != [] ==> x[|p|] == '\n';
  }

  /** Pieces without line feeds are recovered from their join. */
  lemma {:induction false} JoinLinesInjective(a: seq<string>, b: seq<string>)
    requires |a| >= 1 && |b| >= 1
    requires forall k :: 0 <= k < |a| ==> '\n' !in a[k]
    requires forall k :: 0 <= k < |b| ==> '\n' !in b[k]
    requires JoinLines(a) == JoinLines(b)
    ensures a == b
    decreases |a|
  {
    var x := JoinLines(a);
    var ta := if |a| == 1 then "" else "\n" + JoinLines(a[1..]);
    var tb := if |b| == 1 then "" else "\n" + JoinLines(b[1..]);
    assert x == a[0] + ta;
    assert x == b[0] + tb;
    LineLengthAt(a[0], ta);
    LineLengthAt(b[0], tb);
    assert a[0] == x[..|a[0]|] == b[0];
    assert ta == x[|a[0]|..] == tb;
    assert (|a| == 1) == (ta == []) && (|b| == 1) == (tb == []);
    if |a| > 1 {
      assert JoinLines(a[1..]) == ta[1..] == JoinLines(b[1..]);
      JoinLinesInjective(a[1..], b[1..]);
      assert a == [a[0]] + a[1..] && b == [b[0]] + b[1..];
    }
  }

  /** `split(/\n+/)` is the only list of line-feed-free pieces whose join is
      the text with its runs of line feeds collapsed. */
  lemma SplitLinesUnique(s: string, r: seq<string>)
    requires |r| >= 1
    requires forall k :: 0 <= k < |r| ==> '\n' !in r[k]
    requires JoinLines(r) == Squeeze(s)
    ensures r == SplitLines(s)
  {
    SplitLinesRoundTrip(s);
    JoinLinesInjective(r, SplitLines(s));
  }
}
