/** JavaScript strings as the service sees them: sequences of UTF-16 code units,
    with the few String.prototype operations it relies on (trim, includes,
    startsWith, split, replace). Lengths and indices count code units, as
    JavaScript's do. */
module Text {

  /** One UTF-16 code unit. */
  newtype CodeUnit = x: int | 0 <= x < 0x1_0000

  type Str = seq<CodeUnit>

  datatype Option<T> = None | Some(value: T)

  const LineFeed: CodeUnit := 0x0A
  const Space: CodeUnit := 0x20

  /** The UTF-16 encoding of one Unicode scalar value: one code unit in the
      Basic Multilingual Plane, a surrogate pair above it. */
  function EncodeChar(c: char): (r: Str)
    ensures 1 <= |r| <= 2
    ensures |r| == 1 <==> c as int < 0x1_0000
    ensures |r| == 2 ==> 0xD800 <= r[0] < 0xDC00 && 0xDC00 <= r[1] < 0xE000
  {
    var v := c as int;
    if v < 0x1_0000 then [v as CodeUnit]
    else
      var u := v - 0x1_0000;
      [(0xD800 + u / 0x400) as CodeUnit, (0xDC00 + u % 0x400) as CodeUnit]
  }

  /** The UTF-16 encoding of a Dafny string; used to write the service's
      string literals as the code units JavaScript stores. */
  function Utf16(s: string): (r: Str)
    ensures |s| <= |r| <= 2 * |s|
  {
    if s == [] then [] else EncodeChar(s[0]) + Utf16(s[1..])
  }

  /** A string as code units, one unit per character: the units JavaScript
      stores for a string of Basic Multilingual Plane characters, which every
      literal written with it is. */
  function Units(s: string): (r: Str)
    ensures |r| == |s|
    ensures forall i :: 0 <= i < |s| && s[i] as int < 0x1_0000 ==> r[i] as int == s[i] as int
  {
    seq(|s|, i requires 0 <= i < |s| => (s[i] as int % 0x1_0000) as CodeUnit)
  }

  /** The characters String.prototype.trim removes and the regular-expression
      class \s matches: WhiteSpace and LineTerminator of ECMA-262. */
  const WhiteSpace: set<CodeUnit> :=
    {0x09, 0x0A, 0x0B, 0x0C, 0x0D, 0x20, 0xA0, 0x1680,
     0x2000, 0x2001, 0x2002, 0x2003, 0x2004, 0x2005, 0x2006, 0x2007, 0x2008, 0x2009, 0x200A,
     0x2028, 0x2029, 0x202F, 0x205F, 0x3000, 0xFEFF}

  /** The characters the regular-expression `.` does not match. */
  const LineTerminators: set<CodeUnit> := {0x0A, 0x0D, 0x2028, 0x2029}

  predicate IsWhite(c: CodeUnit) {
    c in WhiteSpace
  }

  predicate IsLineTerminator(c: CodeUnit) {
    c in LineTerminators
  }

  predicate AllWhite(s: Str) {
    forall k {:trigger IsWhite(s[k])} :: 0 <= k < |s| ==> IsWhite(s[k])
  }

  /** The end of the longest run of white space starting at j; the
      regular-expression \s* matches exactly this run. */
  function SkipWhite(s: Str, j: nat): (r: nat)
    requires j <= |s|
    decreases |s| - j
    ensures j <= r <= |s|
    ensures forall k :: j <= k < r ==> IsWhite(s[k])
    ensures r == |s| || !IsWhite(s[r])
  {
    if j == |s| || !IsWhite(s[j]) then j else SkipWhite(s, j + 1)
  }

  /** Walking back from j but not past a, the end of the last character
      that is not white space (or a, if there is none). */
  function CoreEnd(s: Str, a: nat, j: nat): (e: nat)
    requires a <= j <= |s|
    decreases j
    ensures a <= e <= j
    ensures forall k :: e <= k < j ==> IsWhite(s[k])
    ensures e == a || !IsWhite(s[e - 1])
  {
    if j == a || !IsWhite(s[j - 1]) then j else CoreEnd(s, a, j - 1)
  }

  /** String.prototype.trim: s without the white space at either end. */
  function Trim(s: Str): (r: Str)
    ensures |r| <= |s|
  {
    var a := SkipWhite(s, 0);
    s[a..CoreEnd(s, a, |s|)]
  }

  /** SkipWhite is determined by where the run of white space ends. */
  lemma {:induction false} SkipWhiteAcross(s: Str, j: nat, k: nat)
    requires j <= k <= |s|
    requires forall i :: j <= i < k ==> IsWhite(s[i])
    requires k == |s| || !IsWhite(s[k])
    ensures SkipWhite(s, j) == k
    decreases k - j
  {
    if j < k {
      SkipWhiteAcross(s, j + 1, k);
    }
  }

  /** CoreEnd is determined by where the trailing white space begins. */
  lemma {:induction false} CoreEndAcross(s: Str, a: nat, e: nat, j: nat)
    requires a <= e <= j <= |s|
    requires forall i :: e <= i < j ==> IsWhite(s[i])
    requires e == a || !IsWhite(s[e - 1])
    ensures CoreEnd(s, a, j) == e
    decreases j
  {
    if e < j {
      CoreEndAcross(s, a, e, j - 1);
    }
  }

  /** Trim(s) holds only characters of s. */
  lemma TrimKeeps(s: Str, c: CodeUnit)
    requires c in Trim(s)
    ensures c in s
  {
    var k :| 0 <= k < |Trim(s)| && Trim(s)[k] == c;
    assert Trim(s)[k] == s[SkipWhite(s, 0) + k];
  }

  /** Both halves of a string are white space exactly when the whole is. */
  lemma AllWhiteConcat(a: Str, b: Str)
    requires AllWhite(a) && AllWhite(b)
    ensures AllWhite(a + b)
  {
    forall k | 0 <= k < |a + b| ensures IsWhite((a + b)[k]) {
      if k >= |a| { assert (a + b)[k] == b[k - |a|]; }
    }
  }

  /** s is Trim(s) with white space on either side, and Trim(s) neither
      begins nor ends with white space. */
  lemma TrimSplits(s: Str) returns (u1: Str, u2: Str)
    ensures s == u1 + Trim(s) + u2
    ensures AllWhite(u1) && AllWhite(u2)
    ensures Trim(s) == [] || (!IsWhite(Trim(s)[0]) && !IsWhite(Trim(s)[|Trim(s)| - 1]))
  {
    var a := SkipWhite(s, 0);
    var e := CoreEnd(s, a, |s|);
    u1, u2 := s[..a], s[e..];
    ThreeSlices(s, a, e);
    WhiteRun(s, 0, a);
    WhiteRun(s, e, |s|);
    assert s[0..a] == u1 && s[e..|s|] == u2;
    TrimEnds(s);
  }

  lemma ThreeSlices(s: Str, a: nat, e: nat)
    requires a <= e <= |s|
    ensures s == s[..a] + s[a..e] + s[e..]
  {
  }

  lemma TrimEnds(s: Str)
    ensures Trim(s) == [] || (!IsWhite(Trim(s)[0]) && !IsWhite(Trim(s)[|Trim(s)| - 1]))
  {
    var a := SkipWhite(s, 0);
    var e := CoreEnd(s, a, |s|);
    if a < e {
      assert Trim(s)[0] == s[a];
      assert Trim(s)[|Trim(s)| - 1] == s[e - 1];
    }
  }

  /** A run of white space found by index is an all-white slice. */
  lemma WhiteRun(s: Str, i: nat, j: nat)
    requires i <= j <= |s|
    requires forall k :: i <= k < j ==> IsWhite(s[k])
    ensures AllWhite(s[i..j])
  {
    forall k | 0 <= k < j - i ensures IsWhite(s[i..j][k]) {
      assert s[i..j][k] == s[i + k];
    }
  }

  /** Trim(s) is determined by how s splits into white space, a core that
      neither begins nor ends with white space, and white space. */
  lemma TrimOfPadded(w1: Str, core: Str, w2: Str)
    requires AllWhite(w1) && AllWhite(w2)
    requires core == [] || (!IsWhite(core[0]) && !IsWhite(core[|core| - 1]))
    ensures Trim(w1 + core + w2) == core
  {
    var x := w1 + core + w2;
    var a, e := |w1|, |w1| + |core|;
    assert forall i :: 0 <= i < a ==> x[i] == w1[i];
    assert forall i :: e <= i < |x| ==> x[i] == w2[i - e];
    assert forall i :: a <= i < e ==> x[i] == core[i - a];
    if core == [] {
      SkipWhiteAcross(x, 0, |x|);
      CoreEndAcross(x, |x|, |x|, |x|);
    } else {
      SkipWhiteAcross(x, 0, a);
      CoreEndAcross(x, a, e, |x|);
      assert x[a..e] == core;
    }
  }

  /** Trimming a string padded with white space on either side gives what
      trimming the inner string gives. */
  lemma TrimIgnoresPadding(w1: Str, s: Str, w2: Str)
    requires AllWhite(w1) && AllWhite(w2)
    ensures Trim(w1 + s + w2) == Trim(s)
  {
    var u1, u2 := TrimSplits(s);
    var r := Trim(s);
    assert w1 + s + w2 == (w1 + u1) + r + (u2 + w2);
    AllWhiteConcat(w1, u1);
    AllWhiteConcat(u2, w2);
    TrimOfPadded(w1 + u1, r, u2 + w2);
  }

  /** Three adjacent slices of s make up the slice they cover. */
  lemma AdjacentSlices(s: Str, i: nat, j: nat, k: nat, l: nat)
    requires i <= j <= k <= l <= |s|
    ensures s[i..j] + s[j..k] + s[k..l] == s[i..l]
  {
  }

  lemma AdjacentSlices2(s: Str, i: nat, j: nat, k: nat)
    requires i <= j <= k <= |s|
    ensures s[i..j] + s[j..k] == s[i..k]
  {
  }

  /** Trimming ignores leading white space. */
  lemma TrimIgnoresLeadingWhite(w: Str, s: Str)
    requires AllWhite(w)
    ensures Trim(w + s) == Trim(s)
  {
    assert w + s + [] == w + s;
    TrimIgnoresPadding(w, s, []);
  }

  /** pat occurs in s starting at index i. */
  predicate OccursAt(s: Str, pat: Str, i: nat) {
    i + |pat| <= |s| && s[i..i + |pat|] == pat
  }

  /** String.prototype.indexOf(pat, from): the first occurrence at or after from. */
  function IndexOf(s: Str, pat: Str, from: nat): (r: Option<nat>)
    decreases |s| - from
    ensures r.Some? ==> from <= r.value && OccursAt(s, pat, r.value)
    ensures r.Some? ==> forall j :: from <= j < r.value ==> !OccursAt(s, pat, j)
    ensures r.None? ==> forall j :: from <= j ==> !OccursAt(s, pat, j)
  {
    if from + |pat| > |s| then None
    else if s[from..from + |pat|] == pat then Some(from)
    else IndexOf(s, pat, from + 1)
  }

  /** String.prototype.includes. */
  predicate Contains(s: Str, pat: Str) {
    IndexOf(s, pat, 0).Some?
  }

  /** includes is true exactly when the pattern occurs at some index. */
  lemma ContainsOccurs(s: Str, pat: Str)
    ensures Contains(s, pat) <==> exists i :: OccursAt(s, pat, i)
  {
    if Contains(s, pat) {
      assert OccursAt(s, pat, IndexOf(s, pat, 0).value);
    }
  }

  /** includes of a one-unit string is membership. */
  lemma ContainsUnit(s: Str, c: CodeUnit)
    ensures Contains(s, [c]) <==> c in s
  {
    if c in s {
      var i :| 0 <= i < |s| && s[i] == c;
      assert OccursAt(s, [c], i);
    }
    if Contains(s, [c]) {
      var i := IndexOf(s, [c], 0).value;
      assert s[i..i + 1] == [c];
      assert s[i] in s;
    }
  }

  /** String.prototype.startsWith. */
  predicate StartsWith(s: Str, prefix: Str) {
    |prefix| <= |s| && s[..|prefix|] == prefix
  }

  /** startsWith is true exactly when the text is the prefix followed by
      some rest. */
  lemma StartsWithRest(s: Str, prefix: Str)
    ensures StartsWith(s, prefix) <==> exists rest :: s == prefix + rest
  {
    if StartsWith(s, prefix) {
      assert s == prefix + s[|prefix|..];
    }
    if exists rest :: s == prefix + rest {
      var rest :| s == prefix + rest;
      assert s[..|prefix|] == prefix;
    }
  }

  /** The inverse of SplitOn: the parts with sep between consecutive ones. */
  function Join(parts: seq<Str>, sep: Str): Str
    requires |parts| >= 1
  {
    if |parts| == 1 then parts[0] else parts[0] + sep + Join(parts[1..], sep)
  }

  /** Joining one more part appends the separator and that part. */
  lemma {:induction false} JoinSnoc(parts: seq<Str>, x: Str, sep: Str)
    requires |parts| >= 1
    decreases |parts|
    ensures Join(parts + [x], sep) == Join(parts, sep) + sep + x
  {
    if |parts| == 1 {
      assert parts + [x] == [parts[0], x];
    } else {
      assert (parts + [x])[1..] == parts[1..] + [x];
      JoinSnoc(parts[1..], x, sep);
    }
  }

  /** String.prototype.split with a non-empty string separator: the pieces
      between the non-overlapping occurrences of sep, found left to right. */
  function SplitOn(s: Str, sep: Str): (parts: seq<Str>)
    requires |sep| > 0
    decreases |s|
    ensures |parts| >= 1
  {
    match IndexOf(s, sep, 0)
    case None => [s]
    case Some(i) => [s[..i]] + SplitOn(s[i + |sep|..], sep)
  }

  /** A split has more than one part exactly when the separator occurs. */
  lemma SplitOnContains(s: Str, sep: Str)
    requires |sep| > 0
    ensures |SplitOn(s, sep)| >= 2 <==> Contains(s, sep)
  {
    match IndexOf(s, sep, 0)
    case None =>
    case Some(i) =>
      assert |SplitOn(s[i + |sep|..], sep)| >= 1;
  }

  /** Splitting loses nothing: joining the parts with sep restores s. */
  lemma {:induction false} SplitOnJoin(s: Str, sep: Str)
    requires |sep| > 0
    decreases |s|
    ensures Join(SplitOn(s, sep), sep) == s
  {
    match IndexOf(s, sep, 0)
    case None =>
    case Some(i) =>
      var rest := s[i + |sep|..];
      SplitOnJoin(rest, sep);
      var parts := SplitOn(s, sep);
      assert parts == [s[..i]] + SplitOn(rest, sep);
      assert parts[1..] == SplitOn(rest, sep);
      assert Join(parts, sep) == s[..i] + sep + rest;
      ThreeSlices(s, i, i + |sep|);
  }

  /** No part of a split contains the separator. */
  lemma {:induction false} SplitOnPartsFree(s: Str, sep: Str)
    requires |sep| > 0
    decreases |s|
    ensures forall k :: 0 <= k < |SplitOn(s, sep)| ==> !Contains(SplitOn(s, sep)[k], sep)
  {
    match IndexOf(s, sep, 0)
    case None =>
    case Some(i) =>
      var head := s[..i];
      assert !Contains(head, sep) by {
        if Contains(head, sep) {
          var j := IndexOf(head, sep, 0).value;
          assert head[j..j + |sep|] == s[j..j + |sep|];
          assert OccursAt(s, sep, j);
        }
      }
      SplitOnPartsFree(s[i + |sep|..], sep);
      assert SplitOn(s, sep)[1..] == SplitOn(s[i + |sep|..], sep);
  }

  /** indexOf finds an occurrence with none before it. */
  lemma IndexOfFirst(s: Str, pat: Str, i: nat)
    requires OccursAt(s, pat, i)
    requires forall j :: 0 <= j < i ==> !OccursAt(s, pat, j)
    ensures IndexOf(s, pat, 0) == Some(i)
  {
  }

  /** Each cut of a split is at the leftmost occurrence of the separator:
      in a part followed by the separator, indexOf finds that separator.
      With SplitOnJoin and SplitOnPartsFree this fixes the parts, also when
      the separator overlaps itself, as "**" does in "a***b". */
  lemma {:induction false} SplitOnLeftmost(s: Str, sep: Str)
    requires |sep| > 0
    decreases |s|
    ensures forall k :: 0 <= k < |SplitOn(s, sep)| - 1 ==>
      IndexOf(SplitOn(s, sep)[k] + sep, sep, 0) == Some(|SplitOn(s, sep)[k]|)
  {
    match IndexOf(s, sep, 0)
    case None =>
    case Some(i) =>
      var rest := s[i + |sep|..];
      SplitOnLeftmost(rest, sep);
      var parts := SplitOn(s, sep);
      assert parts[1..] == SplitOn(rest, sep);
      var t := s[..i] + sep;
      assert t == s[..i + |sep|];
      forall j | 0 <= j < i
        ensures !OccursAt(t, sep, j)
      {
        assert !OccursAt(s, sep, j);
        assert t[j..j + |sep|] == s[j..j + |sep|];
      }
      IndexOfFirst(t, sep, i);
      forall k | 1 <= k < |parts| - 1
        ensures IndexOf(parts[k] + sep, sep, 0) == Some(|parts[k]|)
      {
        assert parts[k] == SplitOn(rest, sep)[k - 1];
      }
  }

  /** String.prototype.replace with a string pattern: the first occurrence of
      pat, if any, is replaced by rep. */
  function ReplaceFirst(s: Str, pat: Str, rep: Str): (r: Str)
    ensures !Contains(s, pat) ==> r == s
    ensures StartsWith(s, pat) ==> r == rep + s[|pat|..]
    ensures forall c :: c in r ==> c in s || c in rep
  {
    match IndexOf(s, pat, 0)
    case None => s
    case Some(i) =>
      assert StartsWith(s, pat) ==> OccursAt(s, pat, 0) && i == 0;
      s[..i] + rep + s[i + |pat|..]
  }
}
