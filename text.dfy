/**
 * The handful of Python `str` operations the generation pipeline relies on,
 * written out on `seq<char>`: `strip`, `split`, `join`, `startswith`,
 * `endswith`, `split(sep, 1)[-1]` and `rsplit(sep, 1)[0]`.
 */
module Text {

  /** The characters for which Python's `str.isspace()` holds; `strip()` with no
      argument removes exactly these. */
  const Whitespace: set<char> := {
    '\U{0009}', '\U{000A}', '\U{000B}', '\U{000C}', '\U{000D}', '\U{001C}', '\U{001D}', '\U{001E}',
    '\U{001F}', '\U{0020}', '\U{0085}', '\U{00A0}', '\U{1680}', '\U{2000}', '\U{2001}', '\U{2002}',
    '\U{2003}', '\U{2004}', '\U{2005}', '\U{2006}', '\U{2007}', '\U{2008}', '\U{2009}', '\U{200A}',
    '\U{2028}', '\U{2029}', '\U{202F}', '\U{205F}', '\U{3000}'
  }

  // ---------------------------------------------------------------------------
  // strip
  // ---------------------------------------------------------------------------

  /** `s.lstrip(chars)`: drops every leading character that is in `cs`. */
  function LStrip(s: string, cs: set<char>): string
    decreases |s|
  {
    if s != [] && s[0] in cs then LStrip(s[1..], cs) else s
  }

  /** What lstrip keeps is a suffix that does not start with a `cs` character,
      and everything it drops is in `cs`. */
  lemma {:induction false} LStripSpec(s: string, cs: set<char>)
    ensures var r := LStrip(s, cs);
      && |r| <= |s| && r == s[|s| - |r|..]
      && (forall k :: 0 <= k < |s| - |r| ==> s[k] in cs)
      && (r == [] || r[0] !in cs)
    decreases |s|
  {
    if s != [] && s[0] in cs {
      LStripSpec(s[1..], cs);
      var r := LStrip(s[1..], cs);
      assert s[1..][|s| - 1 - |r|..] == s[|s| - |r|..];
      forall k | 1 <= k < |s| - |r| ensures s[k] in cs {
        assert s[k] == s[1..][k - 1];
      }
    }
  }

  /** `s.rstrip(chars)`: drops every trailing character that is in `cs`. */
  function RStrip(s: string, cs: set<char>): string
    decreases |s|
  {
    if s != [] && s[|s| - 1] in cs then RStrip(s[..|s| - 1], cs) else s
  }

  /** What rstrip keeps is a prefix that does not end with a `cs` character,
      and everything it drops is in `cs`. */
  lemma {:induction false} RStripSpec(s: string, cs: set<char>)
    ensures var r := RStrip(s, cs);
      && |r| <= |s| && r == s[..|r|]
      && (forall k :: |r| <= k < |s| ==> s[k] in cs)
      && (r == [] || r[|r| - 1] !in cs)
    decreases |s|
  {
    if s != [] && s[|s| - 1] in cs {
      RStripSpec(s[..|s| - 1], cs);
      var r := RStrip(s[..|s| - 1], cs);
      assert s[..|s| - 1][..|r|] == s[..|r|];
      forall k | |r| <= k < |s| - 1 ensures s[k] in cs {
        assert s[k] == s[..|s| - 1][k];
      }
    }
  }

  /** Everything in `s` before index `i` and from index `j` on is in `cs`. */
  ghost predicate Flanked(s: string, i: int, j: int, cs: set<char>)
  {
    && 0 <= i <= j <= |s|
    && (forall k :: 0 <= k < i ==> s[k] in cs)
    && (forall k :: j <= k < |s| ==> s[k] in cs)
  }

  /** `r` is what is left of `s` once every leading and every trailing
      character from `cs` is gone: a slice of `s` flanked only by `cs`
      characters, which neither starts nor ends with one. */
  ghost predicate IsStripOf(r: string, s: string, cs: set<char>)
  {
    && (exists i, j :: Flanked(s, i, j, cs) && r == s[i..j])
    && (r == [] || (r[0] !in cs && r[|r| - 1] !in cs))
  }

  /** `s.strip(chars)`: the characters of `chars` are a set, and every
      leading and trailing occurrence is removed, not only one layer. */
  function StripSet(s: string, cs: set<char>): string
  {
    RStrip(LStrip(s, cs), cs)
  }

  /** Strip meets its description. */
  lemma StripSetSpec(s: string, cs: set<char>)
    ensures IsStripOf(StripSet(s, cs), s, cs)
  {
    var l := LStrip(s, cs);
    var r := RStrip(l, cs);
    StripSetSlice(s, cs);
    LStripSpec(s, cs);
    RStripSpec(l, cs);
    var i := |s| - |l|;
    assert Flanked(s, i, i + |r|, cs) && r == s[i..i + |r|];
    assert r != [] ==> r[0] == l[0];
  }

  /** Strip only removes characters: what it keeps occurs in `s`. */
  lemma StripSetChars(s: string, cs: set<char>)
    ensures forall ch :: ch in StripSet(s, cs) ==> ch in s
  {
    StripSetSlice(s, cs);
  }

  /** Stripping the left, then the right, keeps a flanked slice of `s`. */
  lemma StripSetSlice(s: string, cs: set<char>)
    ensures var i := |s| - |LStrip(s, cs)|;
      Flanked(s, i, i + |RStrip(LStrip(s, cs), cs)|, cs)
      && RStrip(LStrip(s, cs), cs) == s[i..i + |RStrip(LStrip(s, cs), cs)|]
  {
    var l := LStrip(s, cs);
    var r := RStrip(l, cs);
    LStripSpec(s, cs);
    RStripSpec(l, cs);
    var i := |s| - |l|;
    assert l == s[i..];
    assert r == l[..|r|];
    forall k | i + |r| <= k < |s| ensures s[k] in cs {
      assert s[k] == l[k - i];
    }
  }

  /** `s.strip()`. */
  function Strip(s: string): string
  {
    StripSet(s, Whitespace)
  }

  /** `s.strip(c)` for a one-character argument. */
  function StripChar(s: string, c: char): string
  {
    StripSet(s, {c})
  }

  /** Two non-empty flanked slices that start and end outside `cs` coincide. */
  lemma FlankedBounds(s: string, cs: set<char>, i1: int, j1: int, i2: int, j2: int)
    requires Flanked(s, i1, j1, cs) && i1 < j1 && s[i1] !in cs && s[j1 - 1] !in cs
    requires Flanked(s, i2, j2, cs) && i2 < j2 && s[i2] !in cs && s[j2 - 1] !in cs
    ensures i1 == i2 && j1 == j2
  {
  }

  /** An empty flanked slice leaves no room for a character outside `cs`. */
  lemma FlankedEmpty(s: string, cs: set<char>, i1: int, i2: int, j2: int)
    requires Flanked(s, i1, i1, cs)
    requires Flanked(s, i2, j2, cs) && (i2 < j2 ==> s[i2] !in cs)
    ensures i2 == j2
  {
  }

  /** The description of strip pins the result down: there is only one. */
  lemma StripUnique(r1: string, r2: string, s: string, cs: set<char>)
    requires IsStripOf(r1, s, cs) && IsStripOf(r2, s, cs)
    ensures r1 == r2
  {
    var i1, j1 :| Flanked(s, i1, j1, cs) && r1 == s[i1..j1];
    var i2, j2 :| Flanked(s, i2, j2, cs) && r2 == s[i2..j2];
    assert i1 < j1 ==> r1[0] == s[i1] && r1[|r1| - 1] == s[j1 - 1];
    assert i2 < j2 ==> r2[0] == s[i2] && r2[|r2| - 1] == s[j2 - 1];
    if i1 == j1 {
      FlankedEmpty(s, cs, i1, i2, j2);
    } else if i2 == j2 {
      FlankedEmpty(s, cs, i2, i1, j1);
    } else {
      FlankedBounds(s, cs, i1, j1, i2, j2);
    }
  }

  /** Appending one more character of `cs` does not change what strip keeps. */
  lemma {:induction false} StripSetSnoc(s: string, cs: set<char>, c: char)
    requires c in cs
    ensures StripSet(s + [c], cs) == StripSet(s, cs)
  {
    var r := StripSet(s, cs);
    var t := s + [c];
    StripSetSpec(s, cs);
    StripSetSpec(t, cs);
    var i, j :| Flanked(s, i, j, cs) && r == s[i..j];
    assert r == t[i..j];
    assert Flanked(t, i, j, cs) by {
      forall k | j <= k < |t| ensures t[k] in cs {
        if k < |s| { assert t[k] == s[k]; }
      }
    }
    assert IsStripOf(r, t, cs);
    StripUnique(StripSet(t, cs), r, t, cs);
  }

  /** Characters of `cs` put around a string that does not itself start or end
      with one are exactly what strip removes again. */
  lemma StripSetWrap(pre: string, s: string, post: string, cs: set<char>)
    requires forall k :: 0 <= k < |pre| ==> pre[k] in cs
    requires forall k :: 0 <= k < |post| ==> post[k] in cs
    requires s == [] || (s[0] !in cs && s[|s| - 1] !in cs)
    ensures StripSet(pre + s + post, cs) == s
  {
    var t := pre + s + post;
    assert s == t[|pre|..|pre| + |s|];
    assert Flanked(t, |pre|, |pre| + |s|, cs) by {
      forall k | 0 <= k < |pre| ensures t[k] in cs {
        assert t[k] == pre[k];
      }
      forall k | |pre| + |s| <= k < |t| ensures t[k] in cs {
        assert t[k] == post[k - |pre| - |s|];
      }
    }
    assert IsStripOf(s, t, cs);
    StripSetSpec(t, cs);
    StripUnique(StripSet(t, cs), s, t, cs);
  }

  /** Stripping twice is stripping once. */
  lemma StripSetIdempotent(s: string, cs: set<char>)
    ensures StripSet(StripSet(s, cs), cs) == StripSet(s, cs)
  {
    StripSetSpec(s, cs);
    StripSetNoop(StripSet(s, cs), cs);
  }

  /** A string that neither starts nor ends with a `cs` character is its own strip. */
  lemma StripSetNoop(s: string, cs: set<char>)
    requires s == [] || (s[0] !in cs && s[|s| - 1] !in cs)
    ensures StripSet(s, cs) == s
  {
    assert s == s[0..|s|] && Flanked(s, 0, |s|, cs);
    assert IsStripOf(s, s, cs);
    StripSetSpec(s, cs);
    StripUnique(StripSet(s, cs), s, s, cs);
  }

  // ---------------------------------------------------------------------------
  // split and join on a one-character separator
  // ---------------------------------------------------------------------------

  /** `s.split(sep)`: always at least one piece; an empty string gives `[""]`. */
  function Split(s: string, sep: char): (r: seq<string>)
    ensures |r| >= 1
    decreases |s|
  {
    if s == [] then [[]]
    else
      var rest := Split(s[1..], sep);
      if s[0] == sep then [[]] + rest else [[s[0]] + rest[0]] + rest[1..]
  }

  /** `sep.join(parts)`. */
  function Join(parts: seq<string>, sep: string): string
  {
    if |parts| == 0 then []
    else if |parts| == 1 then parts[0]
    else parts[0] + sep + Join(parts[1..], sep)
  }

  /** No piece of a split contains the separator. */
  lemma {:induction false} SplitPiecesFree(s: string, sep: char)
    ensures forall p :: p in Split(s, sep) ==> sep !in p
  {
    if s != [] {
      SplitPiecesFree(s[1..], sep);
      var rest := Split(s[1..], sep);
      if s[0] != sep {
        assert rest[0] in rest;
        assert forall p :: p in rest[1..] ==> p in rest;
      }
    }
  }

  /** A split has one more piece than there are separators. */
  lemma {:induction false} SplitCount(s: string, sep: char)
    ensures |Split(s, sep)| == multiset(s)[sep] + 1
  {
    if s != [] {
      SplitCount(s[1..], sep);
      assert s == [s[0]] + s[1..];
      assert multiset(s) == multiset([s[0]]) + multiset(s[1..]);
    }
  }

  /** Joining the pieces with the separator gives back the original string. */
  lemma {:induction false} JoinSplit(s: string, sep: char)
    ensures Join(Split(s, sep), [sep]) == s
  {
    if s != [] {
      JoinSplit(s[1..], sep);
      var rest := Split(s[1..], sep);
      if s[0] == sep {
        assert Split(s, sep) == [[]] + rest;
        assert s == [] + [sep] + s[1..];
      } else {
        var r := Split(s, sep);
        assert r[0] == [s[0]] + rest[0] && r[1..] == rest[1..];
        if |rest| == 1 {
          assert s == [s[0]] + rest[0];
        } else {
          assert Join(rest, [sep]) == rest[0] + [sep] + Join(rest[1..], [sep]);
          assert s == [s[0]] + s[1..];
        }
      }
    }
  }

  /** Splitting distributes over a separator: the pieces of `a + sep + b` are
      the pieces of `a` followed by the pieces of `b`. */
  lemma {:induction false} SplitAppend(a: string, b: string, sep: char)
    ensures Split(a + [sep] + b, sep) == Split(a, sep) + Split(b, sep)
  {
    var s := a + [sep] + b;
    if a == [] {
      assert s[1..] == b;
    } else {
      assert s[1..] == a[1..] + [sep] + b;
      SplitAppend(a[1..], b, sep);
    }
  }

  /** A string without the separator is a single piece. */
  lemma {:induction false} SplitFree(s: string, sep: char)
    requires sep !in s
    ensures Split(s, sep) == [s]
  {
    if s != [] {
      SplitFree(s[1..], sep);
      assert s == [s[0]] + s[1..];
    }
  }

  /** Splitting a join recovers the parts, as long as none contains the separator. */
  lemma {:induction false} SplitJoin(parts: seq<string>, sep: char)
    requires |parts| >= 1
    requires forall k :: 0 <= k < |parts| ==> sep !in parts[k]
    ensures Split(Join(parts, [sep]), sep) == parts
  {
    if |parts| == 1 {
      SplitFree(parts[0], sep);
    } else {
      SplitJoin(parts[1..], sep);
      SplitAppend(parts[0], Join(parts[1..], [sep]), sep);
      SplitFree(parts[0], sep);
      assert parts == [parts[0]] + parts[1..];
    }
  }

  // ---------------------------------------------------------------------------
  // prefixes, suffixes and the two one-shot splits
  // ---------------------------------------------------------------------------

  /** `s.startswith(p)`. */
  predicate StartsWith(s: string, p: string)
  {
    |p| <= |s| && s[..|p|] == p
  }

  /** `s.endswith(p)`. */
  predicate EndsWith(s: string, p: string)
  {
    |p| <= |s| && s[|s| - |p|..] == p
  }

  /** `s.find(c)` for one character, with `|s|` standing for "not found". */
  function FirstIndex(s: string, c: char): (i: nat)
    ensures i <= |s|
    ensures i < |s| ==> s[i] == c
    ensures forall k :: 0 <= k < i ==> s[k] != c
    decreases |s|
  {
    if s == [] then 0 else if s[0] == c then 0 else 1 + FirstIndex(s[1..], c)
  }

  /** `s.split(sep, 1)[-1]`: what follows the first separator, or all of `s`
      when there is none. */
  function AfterFirst(s: string, sep: char): string
  {
    var i := FirstIndex(s, sep);
    if i == |s| then s else s[i + 1..]
  }

  /** `p` occurs in `s` at index `m`. */
  predicate OccursAt(s: string, p: string, m: int)
  {
    0 <= m && m + |p| <= |s| && s[m..m + |p|] == p
  }

  /** `s.rfind(p)` for a non-empty `p`, with `-1` for "not found". */
  function RFind(s: string, p: string): (k: int)
    requires |p| > 0
    ensures k == -1 || OccursAt(s, p, k)
    ensures forall m :: k < m ==> !OccursAt(s, p, m)
    decreases |s|
  {
    if |s| < |p| then -1
    else if s[|s| - |p|..] == p then |s| - |p|
    else
      var t := s[..|s| - 1];
      assert forall m :: OccursAt(s, p, m) && m + |p| < |s| ==> OccursAt(t, p, m) by {
        forall m | OccursAt(s, p, m) && m + |p| < |s| ensures OccursAt(t, p, m) {
          assert t[m..m + |p|] == s[m..m + |p|];
        }
      }
      var k := RFind(t, p);
      if k >= 0 then
        assert t[k..k + |p|] == s[k..k + |p|];
        k
      else k
  }

  /** `s.rsplit(p, 1)[0]`: everything before the last occurrence of `p`, or
      all of `s` when there is none. Python refuses an empty separator. */
  function RSplitHead(s: string, p: string): string
    requires |p| > 0
  {
    var k := RFind(s, p);
    if k < 0 then s else s[..k]
  }

  lemma AfterFirstAt(a: string, b: string, sep: char)
    requires sep !in a
    ensures AfterFirst(a + [sep] + b, sep) == b
  {
    var s := a + [sep] + b;
    var i := FirstIndex(s, sep);
    assert s[|a|] == sep;
    assert forall k :: 0 <= k < |a| ==> s[k] == a[k];
    assert i == |a|;
  }

  /** A string ending with `p` loses exactly that suffix. */
  lemma RSplitHeadSuffix(s: string, p: string)
    requires |p| > 0 && EndsWith(s, p)
    ensures RSplitHead(s, p) == s[..|s| - |p|]
  {
  }

  /** A block of text joined to parts that hold no separator reads back as
      the block's own pieces followed by those parts. */
  lemma SplitJoinAfter(head: string, tail: seq<string>, sep: char)
    requires forall k :: 0 <= k < |tail| ==> sep !in tail[k]
    ensures Split(Join([head] + tail, [sep]), sep) == Split(head, sep) + tail
  {
    if tail != [] {
      assert ([head] + tail)[1..] == tail;
      SplitAppend(head, Join(tail, [sep]), sep);
      SplitJoin(tail, sep);
    }
  }

  /** A join of two or more parts ends with the separator and the last part. */
  lemma {:induction false} JoinEndsWithLast(parts: seq<string>, sep: string)
    requires |parts| >= 2
    ensures EndsWith(Join(parts, sep), sep + parts[|parts| - 1])
  {
    var last := parts[|parts| - 1];
    if |parts| == 2 {
      assert parts[1..] == [last];
      assert Join(parts, sep) == parts[0] + (sep + last);
    } else {
      JoinEndsWithLast(parts[1..], sep);
      var rest := Join(parts[1..], sep);
      assert Join(parts, sep) == (parts[0] + sep) + rest;
    }
  }

  /** A join of two or more parts starts with the first part and the separator. */
  lemma JoinStartsWithFirst(parts: seq<string>, sep: string)
    requires |parts| >= 2
    ensures StartsWith(Join(parts, sep), parts[0] + sep)
  {
    assert Join(parts, sep) == (parts[0] + sep) + Join(parts[1..], sep);
  }
}
