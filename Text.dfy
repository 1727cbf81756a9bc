/** Whitespace and trimming of text fields, as Python's `str.strip()` with no
    argument does it: every character for which `str.isspace()` holds is removed
    from both ends of the string, and nothing else is touched. */
module Text {

  /** The characters Python's `str.isspace()` accepts. */
  predicate IsSpace(c: char) {
    || c == ' ' || c == '\t' || c == '\n' || c == '\r'
    || c == '\U{0B}' || c == '\U{0C}'
    || ('\U{1C}' <= c <= '\U{1F}')
    || c == '\U{85}' || c == '\U{A0}' || c == '\U{1680}'
    || ('\U{2000}' <= c <= '\U{200A}')
    || c == '\U{2028}' || c == '\U{2029}' || c == '\U{202F}'
    || c == '\U{205F}' || c == '\U{3000}'
  }

  /** A string made of whitespace only (the empty string included). */
  predicate AllSpace(s: string) {
    forall i :: 0 <= i < |s| ==> IsSpace(s[i])
  }

  /** Removes leading whitespace: the result is the longest suffix of `s` that
      does not start with whitespace, and what was cut off is all whitespace. */
  function TrimStart(s: string): (r: string)
    ensures |r| <= |s|
    ensures AllSpace(s[..|s| - |r|])
    ensures r == [] || !IsSpace(r[0])
  {
    if |s| > 0 && IsSpace(s[0]) then TrimStart(s[1..]) else s
  }

  /** What `TrimStart` keeps is the rest of the string, unchanged. */
  lemma {:induction false} TrimStartSuffix(s: string)
    ensures TrimStart(s) == s[|s| - |TrimStart(s)|..]
  {
    if |s| > 0 && IsSpace(s[0]) {
      TrimStartSuffix(s[1..]);
    }
  }

  /** Removes trailing whitespace: the result is a prefix of `s` that does not
      end with whitespace, and what was cut off is all whitespace. */
  function TrimEnd(s: string): (r: string)
    ensures |r| <= |s|
    ensures AllSpace(s[|r|..])
    ensures r == [] || !IsSpace(r[|r| - 1])
  {
    if |s| > 0 && IsSpace(s[|s| - 1]) then TrimEnd(s[..|s| - 1]) else s
  }

  /** What `TrimEnd` keeps is the start of the string, unchanged. */
  lemma {:induction false} TrimEndPrefix(s: string)
    ensures TrimEnd(s) == s[..|TrimEnd(s)|]
  {
    if |s| > 0 && IsSpace(s[|s| - 1]) {
      TrimEndPrefix(s[..|s| - 1]);
    }
  }

  /** Python's `s.strip()`. */
  function Trim(s: string): (r: string)
    ensures r == [] || (!IsSpace(r[0]) && !IsSpace(r[|r| - 1]))
    ensures r == [] <==> AllSpace(s)
  {
    TrimBlank(s);
    TrimEndPrefix(TrimStart(s));
    TrimEnd(TrimStart(s))
  }

  /** Both ends stripped leave nothing exactly when there was only whitespace. */
  lemma TrimBlank(s: string)
    ensures TrimEnd(TrimStart(s)) == [] <==> AllSpace(s)
  {
    var a := TrimStart(s);
    var r := TrimEnd(a);
    TrimStartSuffix(s);
    TrimEndPrefix(a);
    SuffixSplit(s, a);
    if r == [] {
      PrefixSplit(a, r);
      AllSpaceConcat(s[..|s| - |a|], a);
    }
    if a != [] {
      assert a[0] == s[|s| - |a|];
    }
  }

  /** A string is the whitespace stripped from its start, what `Trim` keeps,
      and the whitespace stripped from its end. */
  lemma TrimParts(s: string) returns (v1: string, v2: string)
    ensures AllSpace(v1) && AllSpace(v2)
    ensures s == v1 + Trim(s) + v2
    ensures Trim(s) == s[|v1|..|v1| + |Trim(s)|]
  {
    var a := TrimStart(s);
    var r := TrimEnd(a);
    TrimStartSuffix(s);
    TrimEndPrefix(a);
    v1 := s[..|s| - |a|];
    v2 := a[|r|..];
    SuffixSplit(s, a);
    PrefixSplit(a, r);
    Regroup(s, v1, a, r, v2);
    SliceOfConcat(v1, r, v2);
  }

  lemma SuffixSplit(s: string, a: string)
    requires |a| <= |s| && a == s[|s| - |a|..]
    ensures s == s[..|s| - |a|] + a
  {
  }

  lemma PrefixSplit(a: string, r: string)
    requires |r| <= |a| && r == a[..|r|]
    ensures a == r + a[|r|..]
  {
  }

  lemma Regroup(s: string, v1: string, a: string, r: string, v2: string)
    requires s == v1 + a && a == r + v2
    ensures s == v1 + r + v2
  {
  }

  lemma SliceOfConcat(u: string, t: string, v: string)
    ensures (u + t + v)[|u|..|u| + |t|] == t
  {
  }

  lemma {:induction false} TrimStartPadded(w: string, t: string)
    requires AllSpace(w)
    requires t == [] || !IsSpace(t[0])
    ensures TrimStart(w + t) == t
  {
    if w != [] {
      assert (w + t)[1..] == w[1..] + t;
      TrimStartPadded(w[1..], t);
    }
  }

  lemma {:induction false} TrimEndPadded(t: string, w: string)
    requires AllSpace(w)
    requires t == [] || !IsSpace(t[|t| - 1])
    ensures TrimEnd(t + w) == t
  {
    if w != [] {
      assert (t + w)[..|t + w| - 1] == t + w[..|w| - 1];
      TrimEndPadded(t, w[..|w| - 1]);
    }
  }

  lemma AllSpaceConcat(u: string, v: string)
    requires AllSpace(u) && AllSpace(v)
    ensures AllSpace(u + v)
  {
    forall i | 0 <= i < |u + v| ensures IsSpace((u + v)[i]) {
      if i < |u| { assert (u + v)[i] == u[i]; } else { assert (u + v)[i] == v[i - |u|]; }
    }
  }

  lemma Assoc(a: string, b: string, c: string)
    ensures a + b + c == a + (b + c)
  {
  }

  lemma SplitConcat(a: string, b: string)
    ensures (a + b)[..|a|] == a && (a + b)[|a|..] == b
  {
  }

  lemma SeqRegroup(a: string, b: string, c: string, d: string, e: string)
    ensures a + (b + (c + d)) + e == (a + b) + c + (d + e)
  {
  }

  /** `Trim` is characterised by its result alone: whatever whitespace
      surrounds a string that neither starts nor ends with whitespace, trimming
      gives back exactly that string. */
  lemma TrimUnique(w1: string, t: string, w2: string)
    requires AllSpace(w1) && AllSpace(w2)
    requires t == [] || (!IsSpace(t[0]) && !IsSpace(t[|t| - 1]))
    ensures Trim(w1 + t + w2) == t
  {
    if t == [] {
      assert w1 + t + w2 == w1 + w2;
      assert AllSpace(w1 + w2);
    } else {
      assert w1 + t + w2 == w1 + (t + w2);
      TrimStartPadded(w1, t + w2);
      TrimEndPadded(t, w2);
    }
  }

  /** A string that neither starts nor ends with whitespace strips to itself. */
  lemma TrimBare(s: string)
    requires s == [] || (!IsSpace(s[0]) && !IsSpace(s[|s| - 1]))
    ensures Trim(s) == s
  {
    assert [] + s + [] == s;
    TrimUnique([], s, []);
  }

  /** Stripping twice is stripping once. */
  lemma TrimIdempotent(s: string)
    ensures Trim(Trim(s)) == Trim(s)
  {
    TrimBare(Trim(s));
  }

  /** Whitespace added around a field does not change what stripping gives. */
  lemma TrimPadding(w1: string, s: string, w2: string)
    requires AllSpace(w1) && AllSpace(w2)
    ensures Trim(w1 + s + w2) == Trim(s)
  {
    var v1, v2 := TrimParts(s);
    var r := Trim(s);
    AllSpaceConcat(w1, v1);
    AllSpaceConcat(v2, w2);
    SeqRegroup(w1, v1, r, v2, w2);
    assert w1 + s + w2 == (w1 + v1) + r + (v2 + w2);
    TrimUnique(w1 + v1, r, v2 + w2);
  }

  /** A character that is not whitespace survives stripping: it lies between
      the first and last characters kept. */
  lemma TrimKeeps(s: string, i: int) returns (lo: nat, hi: nat)
    requires 0 <= i < |s| && !IsSpace(s[i])
    ensures lo <= i < hi <= |s| && Trim(s) == s[lo..hi]
  {
    var v1, v2 := TrimParts(s);
    lo := |v1|;
    hi := lo + |Trim(s)|;
  }
}
