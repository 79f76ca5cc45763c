/**
 * The few Python string operations the bot relies on, over `seq<char>`:
 * `str.strip()`, `str.lower()` (ASCII letters only), `startswith`,
 * `endswith` and the substring test `sub in s`.
 */
module Text {

  /** The characters Python's `str.isspace()` accepts; `str.strip()` removes these from both ends. */
  predicate IsSpace(c: char)
  {
    var n := c as int;
    (0x09 <= n <= 0x0D) || (0x1C <= n <= 0x20) || n == 0x85 || n == 0xA0 || n == 0x1680
    || (0x2000 <= n <= 0x200A) || n == 0x2028 || n == 0x2029 || n == 0x202F || n == 0x205F || n == 0x3000
  }

  predicate AllSpace(s: string)
  {
    forall i :: 0 <= i < |s| ==> IsSpace(s[i])
  }

  /** `s.lstrip()`: the suffix of `s` left after dropping leading whitespace. */
  function TrimStart(s: string): (r: string)
    ensures r == [] || !IsSpace(r[0])
    decreases |s|
  {
    if s != [] && IsSpace(s[0]) then TrimStart(s[1..]) else s
  }

  /** `s.rstrip()`: the prefix of `s` left after dropping trailing whitespace. */
  function TrimEnd(s: string): (r: string)
    ensures r == [] || !IsSpace(r[|r| - 1])
    decreases |s|
  {
    if s != [] && IsSpace(s[|s| - 1]) then TrimEnd(s[..|s| - 1]) else s
  }

  /** `s.strip()` */
  function Strip(s: string): (r: string)
    ensures |r| <= |s|
    ensures r == [] || (!IsSpace(r[0]) && !IsSpace(r[|r| - 1]))
  {
    TrimStartSplit(s);
    TrimEndSplit(TrimStart(s));
    TrimEnd(TrimStart(s))
  }

  /** `s.startswith(p)` */
  predicate StartsWith(s: string, p: string)
  {
    |p| <= |s| && s[..|p|] == p
  }

  /** `s.endswith(p)` */
  predicate EndsWith(s: string, p: string)
  {
    |p| <= |s| && s[|s| - |p|..] == p
  }

  /** `sub in s`: `sub` occurs in `s` at some position. */
  predicate Contains(s: string, sub: string)
    decreases |s|
  {
    StartsWith(s, sub) || (s != [] && Contains(s[1..], sub))
  }

  /** `c.lower()` restricted to ASCII: upper-case Latin letters map to lower case, all else is kept. */
  function LowerChar(c: char): char
  {
    if 'A' <= c <= 'Z' then (c as int + 32) as char else c
  }

  /** `s.lower()` restricted to ASCII, character by character. */
  function LowerAscii(s: string): (r: string)
    ensures |r| == |s|
    ensures forall i :: 0 <= i < |s| ==> r[i] == LowerChar(s[i])
  {
    if s == [] then [] else [LowerChar(s[0])] + LowerAscii(s[1..])
  }

  // ---------------------------------------------------------------------
  // Properties of strip

  /** A text that neither starts nor ends with whitespace is its own strip. */
  lemma StripUnpadded(s: string)
    requires s == [] || (!IsSpace(s[0]) && !IsSpace(s[|s| - 1]))
    ensures Strip(s) == s
  {
    assert TrimStart(s) == s;
    assert TrimEnd(s) == s;
  }

  /** Stripping what is already stripped changes nothing. */
  lemma StripIdempotent(s: string)
    ensures Strip(Strip(s)) == Strip(s)
  {
    StripUnpadded(Strip(s));
  }

  /** `lstrip` returns a suffix of its input, and what it drops is whitespace. */
  lemma {:induction false} TrimStartSplit(s: string)
    ensures |TrimStart(s)| <= |s| && TrimStart(s) == s[|s| - |TrimStart(s)|..]
    ensures AllSpace(s[..|s| - |TrimStart(s)|])
    decreases |s|
  {
    if s != [] && IsSpace(s[0]) {
      var r := TrimStart(s[1..]);
      TrimStartSplit(s[1..]);
      assert s[..|s| - |r|] == [s[0]] + s[1..][..|s[1..]| - |r|];
    }
  }

  /** `rstrip` returns a prefix of its input, and what it drops is whitespace. */
  lemma {:induction false} TrimEndSplit(s: string)
    ensures |TrimEnd(s)| <= |s| && TrimEnd(s) == s[..|TrimEnd(s)|]
    ensures AllSpace(s[|TrimEnd(s)|..])
    decreases |s|
  {
    if s != [] && IsSpace(s[|s| - 1]) {
      var r := TrimEnd(s[..|s| - 1]);
      TrimEndSplit(s[..|s| - 1]);
      assert s[|r|..] == s[..|s| - 1][|r|..] + [s[|s| - 1]];
    }
  }

  /** The stripped text is the slice of `s` between a run of leading and a run of trailing whitespace. */
  lemma StripIsSlice(s: string) returns (a: nat, b: nat)
    ensures a <= b <= |s|
    ensures Strip(s) == s[a..b]
    ensures forall k :: 0 <= k < a ==> IsSpace(s[k])
    ensures forall k :: b <= k < |s| ==> IsSpace(s[k])
  {
    a, b := StripBounds(s);
    forall k | 0 <= k < a ensures IsSpace(s[k]) {
      assert s[..a][k] == s[k];
    }
    forall k | b <= k < |s| ensures IsSpace(s[k]) {
      assert s[b..][k - b] == s[k];
    }
  }

  lemma StripBounds(s: string) returns (a: nat, b: nat)
    ensures a <= b <= |s| && Strip(s) == s[a..b]
    ensures AllSpace(s[..a]) && AllSpace(s[b..])
  {
    var t := TrimStart(s);
    var e := TrimEnd(t);
    TrimStartSplit(s);
    TrimEndSplit(t);
    a := |s| - |t|;
    b := a + |e|;
    assert t == s[a..];
    assert e == t[..|e|];
    assert s[a..b] == e;
    assert s[b..] == t[|e|..];
  }

  lemma {:induction false} TrimStartSpacePrefix(pre: string, t: string)
    requires AllSpace(pre)
    ensures TrimStart(pre + t) == TrimStart(t)
    decreases |pre|
  {
    if pre != [] {
      assert (pre + t)[0] == pre[0] && IsSpace(pre[0]);
      assert (pre + t)[1..] == pre[1..] + t;
      TrimStartSpacePrefix(pre[1..], t);
    } else {
      assert pre + t == t;
    }
  }

  lemma {:induction false} TrimStartAppend(t: string, post: string)
    requires TrimStart(t) != []
    ensures TrimStart(t + post) == TrimStart(t) + post
    decreases |t|
  {
    assert t != [];
    assert (t + post)[0] == t[0];
    if IsSpace(t[0]) {
      assert (t + post)[1..] == t[1..] + post;
      TrimStartAppend(t[1..], post);
    }
  }

  lemma {:induction false} TrimEndSpaceSuffix(t: string, post: string)
    requires AllSpace(post)
    ensures TrimEnd(t + post) == TrimEnd(t)
    decreases |post|
  {
    if post != [] {
      var n := |t + post|;
      assert (t + post)[n - 1] == post[|post| - 1] && IsSpace(post[|post| - 1]);
      assert (t + post)[..n - 1] == t + post[..|post| - 1];
      TrimEndSpaceSuffix(t, post[..|post| - 1]);
    } else {
      assert t + post == t;
    }
  }

  /** Whitespace added around a text does not change what strip returns. */
  lemma StripPadded(pre: string, s: string, post: string)
    requires AllSpace(pre) && AllSpace(post)
    ensures Strip(pre + s + post) == Strip(s)
  {
    assert pre + s + post == pre + (s + post);
    TrimStartSpacePrefix(pre, s + post);
    if TrimStart(s) == [] {
      TrimStartSplit(s);
      assert s[..|s|] == s;
      assert AllSpace(s);
      assert AllSpace(s + post);
      TrimStartSpacePrefix(s + post, []);
      assert s + post + [] == s + post;
    } else {
      TrimStartAppend(s, post);
      TrimEndSpaceSuffix(TrimStart(s), post);
    }
  }

  // ---------------------------------------------------------------------
  // Properties of the substring test

  /** An occurrence at any position is found by `in`. */
  lemma {:induction false} ContainsAt(s: string, sub: string, i: nat)
    requires i + |sub| <= |s| && s[i..i + |sub|] == sub
    ensures Contains(s, sub)
    decreases i
  {
    if i == 0 {
      assert s[..|sub|] == sub;
    } else {
      assert s[1..][i - 1..i - 1 + |sub|] == s[i..i + |sub|];
      ContainsAt(s[1..], sub, i - 1);
    }
  }

  /** Conversely, `sub in s` holds only at a position where `sub` occurs. */
  lemma {:induction false} ContainsOccurs(s: string, sub: string) returns (i: nat)
    requires Contains(s, sub)
    ensures i + |sub| <= |s| && s[i..i + |sub|] == sub
    decreases |s|
  {
    if StartsWith(s, sub) {
      i := 0;
    } else {
      var j := ContainsOccurs(s[1..], sub);
      assert s[1..][j..j + |sub|] == s[j + 1..j + 1 + |sub|];
      i := j + 1;
    }
  }

  /** An occurrence lying inside `s[a..b]` is an occurrence in that slice. */
  lemma ContainsInSlice(s: string, a: nat, b: nat, sub: string, i: nat)
    requires a <= i && i + |sub| <= b <= |s| && s[i..i + |sub|] == sub
    ensures Contains(s[a..b], sub)
  {
    var r := s[a..b];
    forall k | 0 <= k < |sub| ensures r[i - a + k] == sub[k] {
      assert r[i - a + k] == s[i + k] == s[i..i + |sub|][k];
    }
    assert r[i - a..i - a + |sub|] == sub;
    ContainsAt(r, sub, i - a);
  }

  /** A substring whose first and last characters are not whitespace survives strip. */
  lemma StripKeepsInner(s: string, sub: string, i: nat)
    requires sub != [] && !IsSpace(sub[0]) && !IsSpace(sub[|sub| - 1])
    requires i + |sub| <= |s| && s[i..i + |sub|] == sub
    ensures Contains(Strip(s), sub)
  {
    var a, b := StripIsSlice(s);
    var j := i + |sub| - 1;
    assert s[i..i + |sub|][0] == s[i];
    assert s[i..i + |sub|][|sub| - 1] == s[j];
    assert !IsSpace(s[i]) && !IsSpace(s[j]);
    assert a <= i;
    assert j < b;
    ContainsInSlice(s, a, b, sub, i);
  }
}
