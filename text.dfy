/** The handful of Python string operations the bot relies on: `str.isspace`,
    `str.strip`, `str.lower`, `str.split()` with no separator, `str.startswith`
    and single-character `str.replace`. Strings are sequences of Unicode scalar
    values, which is what a Python `str` indexes. */
module Text {

  /** Python's `str.isspace` for a single character. */
  predicate IsSpace(c: char)
  {
    || c == ' '
    || ('\t' <= c <= '\r')
    || ('\U{1C}' <= c <= '\U{1F}')
    || c == '\U{85}' || c == '\U{A0}' || c == '\U{1680}'
    || ('\U{2000}' <= c <= '\U{200A}')
    || c == '\U{2028}' || c == '\U{2029}' || c == '\U{202F}' || c == '\U{205F}' || c == '\U{3000}'
  }

  ghost predicate AllSpace(s: string)
  {
    forall i :: 0 <= i < |s| ==> IsSpace(s[i])
  }

  ghost predicate NoSpace(s: string)
  {
    forall i :: 0 <= i < |s| ==> !IsSpace(s[i])
  }

  lemma AllSpaceCons(c: char, s: string)
    requires IsSpace(c) && AllSpace(s)
    ensures AllSpace([c] + s)
  {
    assert forall i :: 0 < i <= |s| ==> ([c] + s)[i] == s[i - 1];
  }

  lemma AllSpaceSnoc(s: string, c: char)
    requires AllSpace(s) && IsSpace(c)
    ensures AllSpace(s + [c])
  {
    assert forall i :: 0 <= i < |s| ==> (s + [c])[i] == s[i];
  }

  /** `s.lstrip()`: drops the leading whitespace. */
  function TrimStart(s: string): (r: string)
    ensures |r| <= |s| && r == s[|s| - |r|..]
    ensures AllSpace(s[..|s| - |r|])
    ensures r == [] || !IsSpace(r[0])
  {
    if s != [] && IsSpace(s[0]) then
      var r := TrimStart(s[1..]);
      AllSpaceCons(s[0], s[1..][..|s| - 1 - |r|]);
      assert s[..|s| - |r|] == [s[0]] + s[1..][..|s| - 1 - |r|];
      r
    else s
  }

  /** `s.rstrip()`: drops the trailing whitespace. */
  function TrimEnd(s: string): (r: string)
    ensures |r| <= |s| && r == s[..|r|]
    ensures AllSpace(s[|r|..])
    ensures r == [] || !IsSpace(r[|r| - 1])
  {
    if s != [] && IsSpace(s[|s| - 1]) then
      var r := TrimEnd(s[..|s| - 1]);
      AllSpaceSnoc(s[..|s| - 1][|r|..], s[|s| - 1]);
      assert s[|r|..] == s[..|s| - 1][|r|..] + [s[|s| - 1]];
      r
    else s
  }

  /** `r` is `s` with the whitespace `s[..p]` cut in front and the
      whitespace after `r` cut behind. */
  ghost predicate CutFrom(s: string, p: nat, r: string)
  {
    && p + |r| <= |s| && r == s[p..p + |r|]
    && AllSpace(s[..p]) && AllSpace(s[p + |r|..])
  }

  /** `s.strip()`: the input with its leading and trailing whitespace cut,
      so that what is left neither starts nor ends with whitespace. */
  function Strip(s: string): (r: string)
    ensures |r| <= |s|
    ensures r == [] || (!IsSpace(r[0]) && !IsSpace(r[|r| - 1]))
    ensures r == [] <==> AllSpace(s)
  {
    var t := TrimStart(s);
    var u := TrimEnd(t);
    TrimBothBlank(s, t, u);
    u
  }

  /** What `strip` leaves is the input with only whitespace cut in front
      and behind. */
  lemma StripCutsOnlyWhitespace(s: string)
    ensures exists p: nat :: CutFrom(s, p, Strip(s))
  {
    var t := TrimStart(s);
    var u := TrimEnd(t);
    assert Strip(s) == u;
    TrimBothCut(s, t, u);
    assert CutFrom(s, |s| - |t|, Strip(s));
  }

  /** Cutting whitespace in front (giving `t`) and then behind (giving `u`)
      leaves an infix framed by whitespace. */
  lemma TrimBothCut(s: string, t: string, u: string)
    requires |t| <= |s| && t == s[|s| - |t|..] && AllSpace(s[..|s| - |t|])
    requires |u| <= |t| && u == t[..|u|] && AllSpace(t[|u|..])
    ensures CutFrom(s, |s| - |t|, u)
  {
    var p := |s| - |t|;
    assert u == s[p..p + |u|];
    assert s[p + |u|..] == t[|u|..];
  }

  /** Nothing is left exactly when everything was whitespace. */
  lemma TrimBothBlank(s: string, t: string, u: string)
    requires |t| <= |s| && t == s[|s| - |t|..] && AllSpace(s[..|s| - |t|])
    requires t == [] || !IsSpace(t[0])
    requires |u| <= |t| && u == t[..|u|] && AllSpace(t[|u|..])
    ensures u == [] <==> AllSpace(s)
  {
    var p := |s| - |t|;
    if u == [] {
      assert t[|u|..] == t;
      assert t == [];
      forall i | 0 <= i < |s| ensures IsSpace(s[i]) {
        assert s[i] == s[..p][i];
      }
    } else {
      assert t[0] == s[p];
    }
  }

  lemma TrimStartOfTrimmed(s: string)
    requires s == [] || !IsSpace(s[0])
    ensures TrimStart(s) == s
  {
  }

  lemma TrimEndOfTrimmed(s: string)
    requires s == [] || !IsSpace(s[|s| - 1])
    ensures TrimEnd(s) == s
  {
  }

  /** Stripping twice is stripping once. */
  lemma StripIdempotent(s: string)
    ensures Strip(Strip(s)) == Strip(s)
  {
    var r := Strip(s);
    assert r == [] || !IsSpace(r[0]);
    TrimStartOfTrimmed(r);
    TrimEndOfTrimmed(r);
    assert Strip(r) == TrimEnd(TrimStart(r));
  }

  /** `str.lower` on the letters an operator of this bot types: ASCII,
      Latin-1 and Cyrillic capitals. Every other character is kept. */
  function LowerChar(c: char): char
  {
    if 'A' <= c <= 'Z' then (c as int + 32) as char
    else if '\U{C0}' <= c <= '\U{DE}' && c != '\U{D7}' then (c as int + 32) as char
    else if '\U{400}' <= c <= '\U{40F}' then (c as int + 80) as char
    else if '\U{410}' <= c <= '\U{42F}' then (c as int + 32) as char
    else c
  }

  lemma LowerCharKeepsSpace(c: char)
    ensures IsSpace(LowerChar(c)) <==> IsSpace(c)
  {
  }

  /** `s.lower()`: keeps the length and the whitespace, and its result has no
      capital left to lower. */
  function Lower(s: string): (r: string)
    ensures |r| == |s|
    ensures forall i :: 0 <= i < |s| ==> r[i] == LowerChar(s[i])
    ensures forall i :: 0 <= i < |s| ==> (IsSpace(r[i]) <==> IsSpace(s[i]))
    ensures forall i :: 0 <= i < |r| ==> LowerChar(r[i]) == r[i]
  {
    var r := seq(|s|, i requires 0 <= i < |s| => LowerChar(s[i]));
    assert forall i :: 0 <= i < |s| ==> (IsSpace(r[i]) <==> IsSpace(s[i])) by {
      forall i | 0 <= i < |s| ensures IsSpace(r[i]) <==> IsSpace(s[i]) { LowerCharKeepsSpace(s[i]); }
    }
    r
  }

  /** Lower-casing twice is lower-casing once. */
  lemma LowerIdempotent(s: string)
    ensures Lower(Lower(s)) == Lower(s)
  {
    var r := Lower(s);
    assert forall i :: 0 <= i < |r| ==> Lower(r)[i] == LowerChar(r[i]) == r[i];
  }

  /** `s.replace(from, to)` for one-character `from` and `to`: every `from`
      becomes `to`, every other character stays where it was, so no `from`
      is left. */
  function ReplaceChar(s: string, from: char, to: char): (r: string)
    ensures |r| == |s|
    ensures from != to ==> from !in r
    ensures forall i :: 0 <= i < |s| && s[i] != from ==> r[i] == s[i]
    ensures forall i :: 0 <= i < |s| && s[i] == from ==> r[i] == to
  {
    seq(|s|, i requires 0 <= i < |s| => if s[i] == from then to else s[i])
  }

  predicate StartsWith(s: string, prefix: string)
  {
    |prefix| <= |s| && s[..|prefix|] == prefix
  }

  /** Python's slice `s[:n]`. */
  function Prefix(s: string, n: nat): (r: string)
    ensures |r| == if |s| <= n then |s| else n
    ensures StartsWith(s, r)
  {
    if |s| <= n then s else s[..n]
  }

  /** The length of the run of non-whitespace characters that starts `s`. */
  function WordLength(s: string): (n: nat)
    requires s != [] && !IsSpace(s[0])
    ensures 1 <= n <= |s|
    ensures NoSpace(s[..n])
    ensures n == |s| || IsSpace(s[n])
  {
    if |s| == 1 || IsSpace(s[1]) then 1
    else
      var m := WordLength(s[1..]);
      assert s[..m + 1] == [s[0]] + s[1..][..m];
      m + 1
  }

  /** `s.split()`: the maximal runs of non-whitespace characters, in order. */
  function Split(s: string): (tokens: seq<string>)
    ensures forall k :: 0 <= k < |tokens| ==> tokens[k] != [] && NoSpace(tokens[k])
    decreases |s|
  {
    if s == [] then []
    else if IsSpace(s[0]) then Split(s[1..])
    else
      var n := WordLength(s);
      [s[..n]] + Split(s[n..])
  }

  /** The first word of a text begins with one of its characters. */
  lemma {:induction false} FirstWordOccurs(s: string)
    requires Split(s) != []
    ensures Split(s)[0][0] in s
    decreases |s|
  {
    if IsSpace(s[0]) {
      FirstWordOccurs(s[1..]);
      assert Split(s)[0][0] in s[1..];
    }
  }

  /** The characters of `s` that are not whitespace, in order: a reference
      definition that `Split` is checked against. */
  function NonSpace(s: string): (r: string)
    ensures NoSpace(r)
  {
    if s == [] then []
    else if IsSpace(s[0]) then NonSpace(s[1..])
    else [s[0]] + NonSpace(s[1..])
  }

  function Concat(tokens: seq<string>): string
  {
    if tokens == [] then [] else tokens[0] + Concat(tokens[1..])
  }

  /** A string splits into no tokens exactly when it is blank. */
  lemma {:induction false} SplitEmptyIffBlank(s: string)
    ensures Split(s) == [] <==> AllSpace(s)
    decreases |s|
  {
    if s != [] && IsSpace(s[0]) {
      SplitEmptyIffBlank(s[1..]);
      assert AllSpace(s) <==> AllSpace(s[1..]) by {
        if AllSpace(s[1..]) {
          forall i | 0 <= i < |s| ensures IsSpace(s[i]) {
            if i > 0 { assert s[i] == s[1..][i - 1]; }
          }
        }
      }
    }
  }

  lemma {:induction false} NonSpaceAppend(a: string, b: string)
    ensures NonSpace(a + b) == NonSpace(a) + NonSpace(b)
    decreases |a|
  {
    if a != [] {
      assert (a + b)[1..] == a[1..] + b;
      NonSpaceAppend(a[1..], b);
    } else {
      assert a + b == b;
    }
  }

  lemma {:induction false} NonSpaceOfWord(w: string)
    requires NoSpace(w)
    ensures NonSpace(w) == w
    decreases |w|
  {
    if w != [] {
      NonSpaceOfWord(w[1..]);
    }
  }

  /** Gluing the tokens back together gives the input with its whitespace
      removed: `split()` neither loses nor invents a character. */
  lemma {:induction false} SplitKeepsNonSpace(s: string)
    ensures Concat(Split(s)) == NonSpace(s)
    decreases |s|
  {
    if s == [] {
    } else if IsSpace(s[0]) {
      SplitKeepsNonSpace(s[1..]);
    } else {
      var n := WordLength(s);
      var rest := s[n..];
      SplitKeepsNonSpace(rest);
      assert Split(s) == [s[..n]] + Split(rest);
      assert Concat(Split(s)) == s[..n] + Concat(Split(rest));
      assert s == s[..n] + rest;
      NonSpaceAppend(s[..n], rest);
      NonSpaceOfWord(s[..n]);
    }
  }

  /** `WordLength` is the one length that ends the first word: any `n` that
      covers only non-whitespace and stops at the end or at a whitespace
      character is it. */
  lemma {:induction false} WordLengthUnique(s: string, n: nat)
    requires 1 <= n <= |s| && NoSpace(s[..n]) && (n == |s| || IsSpace(s[n]))
    ensures WordLength(s) == n
    decreases n
  {
    assert !IsSpace(s[..n][0]);
    if n > 1 {
      assert s[1] == s[..n][1];
      assert s[1..][..n - 1] == s[..n][1..];
      assert n - 1 == |s[1..]| || IsSpace(s[1..][n - 1]);
      WordLengthUnique(s[1..], n - 1);
    }
  }

  /** A single word splits into itself. */
  lemma SplitWord(w: string)
    requires w != [] && NoSpace(w)
    ensures Split(w) == [w]
  {
    assert w[..|w|] == w;
    WordLengthUnique(w, |w|);
    assert w[|w|..] == [];
  }

  /** Splitting at a whitespace character is splitting each side: together
      with `SplitWord` and `Split([]) == []` this pins `Split` to the
      maximal runs of non-whitespace characters. */
  lemma {:induction false} SplitAtSpace(a: string, c: char, b: string)
    requires IsSpace(c)
    ensures Split(a + [c] + b) == Split(a) + Split(b)
    decreases |a|
  {
    var x := a + [c] + b;
    if a == [] {
      assert x[1..] == b;
    } else if IsSpace(a[0]) {
      assert x[1..] == a[1..] + [c] + b;
      SplitAtSpace(a[1..], c, b);
    } else {
      var m := WordLength(a);
      assert x[..m] == a[..m];
      assert m == |x| || IsSpace(x[m]) by {
        if m < |a| { assert x[m] == a[m]; } else { assert x[m] == c; }
      }
      WordLengthUnique(x, m);
      assert x[m..] == a[m..] + [c] + b;
      SplitAtSpace(a[m..], c, b);
      assert Split(x) == [a[..m]] + (Split(a[m..]) + Split(b));
    }
  }
}
