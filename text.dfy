/** String operations of the Go, JavaScript and Python standard libraries that the core uses. */
module Text {

  /** `t` is a prefix of `s` (Go strings.HasPrefix). */
  predicate IsPrefix(t: string, s: string)
  {
    |t| <= |s| && s[..|t|] == t
  }

  /** `t` occurs in `s` as a contiguous substring (Go strings.Contains, Python `in` on str). */
  predicate Contains(s: string, t: string)
    decreases |s|
  {
    IsPrefix(t, s) || (|s| > 0 && Contains(s[1..], t))
  }

  /** Every substring starting at some position of `s` is found by Contains. */
  lemma {:induction false} ContainsAt(s: string, t: string, i: nat)
    requires i + |t| <= |s| && s[i..i + |t|] == t
    ensures Contains(s, t)
    decreases i
  {
    if i == 0 {
      assert s[..|t|] == s[0..|t|];
    } else {
      assert s[1..][i - 1..i - 1 + |t|] == s[i..i + |t|];
      ContainsAt(s[1..], t, i - 1);
    }
  }

  /** Conversely, Contains finds only actual occurrences. */
  lemma {:induction false} ContainsWitness(s: string, t: string) returns (i: nat)
    requires Contains(s, t)
    ensures i + |t| <= |s| && s[i..i + |t|] == t
    decreases |s|
  {
    if IsPrefix(t, s) {
      i := 0;
    } else {
      var j := ContainsWitness(s[1..], t);
      assert s[1..][j..j + |t|] == s[j + 1..j + 1 + |t|];
      i := j + 1;
    }
  }

  /** Position of the first `c` in `s`, or -1 (JavaScript indexOf, Go strings.IndexByte). */
  function IndexOf(s: string, c: char): (k: int)
    ensures -1 <= k < |s|
    ensures k == -1 <==> c !in s
    ensures 0 <= k ==> s[k] == c && c !in s[..k]
    decreases |s|
  {
    if s == [] then -1
    else if s[0] == c then 0
    else
      var k := IndexOf(s[1..], c);
      assert s[1..] == s[1..][..];
      if k == -1 then -1
      else
        assert s[..k + 1] == [s[0]] + s[1..][..k];
        k + 1
  }

  /** The first field of `s` split on `sep` (`s.split(sep)[0]`, `strings.Split(s, sep)[0]`). */
  function FirstField(s: string, sep: char): (r: string)
    ensures sep !in r
    ensures IsPrefix(r, s)
    ensures |r| == |s| || s[|r|] == sep
  {
    if sep in s then s[..IndexOf(s, sep)] else s
  }

  /** `s` with its first `c` removed (JavaScript `s.replace(c, '')` for a one-character string). */
  function RemoveFirst(s: string, c: char): (r: string)
    ensures c !in s ==> r == s
    ensures c in s ==> var k := IndexOf(s, c);
      k <= |r| && c !in r[..k] && s == r[..k] + [c] + r[k..]
  {
    if c in s then s[..IndexOf(s, c)] + s[IndexOf(s, c) + 1..] else s
  }

  /** The last field of `s` split on `sep` (`s.split(sep).pop()`): what follows the last `sep`. */
  function LastField(s: string, sep: char): (r: string)
    ensures sep !in r
    ensures |r| <= |s| && r == s[|s| - |r|..]
    ensures |r| == |s| || s[|s| - |r| - 1] == sep
    decreases |s|
  {
    if s == [] || s[|s| - 1] == sep then []
    else
      var init := LastField(s[..|s| - 1], sep);
      assert s[..|s| - 1][|s| - 1 - |init|..] + [s[|s| - 1]] == s[|s| - 1 - |init|..];
      init + [s[|s| - 1]]
  }

  /** What follows the last `sep` is the last field. */
  lemma {:induction false} LastFieldAfter(a: string, sep: char, b: string)
    requires sep !in b
    ensures LastField(a + [sep] + b, sep) == b
    decreases |b|
  {
    var s := a + [sep] + b;
    if b != [] {
      var b' := b[..|b| - 1];
      LastFieldAfter(a, sep, b');
      assert s[..|s| - 1] == a + [sep] + b';
      assert b == b' + [b[|b| - 1]];
    }
  }

  /** Go strings.TrimPrefix. */
  function TrimPrefix(s: string, prefix: string): (r: string)
    ensures IsPrefix(prefix, s) ==> prefix + r == s
    ensures !IsPrefix(prefix, s) ==> r == s
  {
    if IsPrefix(prefix, s) then s[|prefix|..] else s
  }

  /** White space as Go's unicode.IsSpace defines it. */
  predicate IsSpace(c: char)
  {
    c == ' ' || c == '\t' || c == '\n' || c == '\r' || c == '\U{B}' || c == '\U{C}'
    || c == '\U{85}' || c == '\U{A0}' || c == '\U{1680}' || ('\U{2000}' <= c <= '\U{200A}')
    || c == '\U{2028}' || c == '\U{2029}' || c == '\U{202F}' || c == '\U{205F}' || c == '\U{3000}'
  }

  predicate AllSpace(s: string)
  {
    forall k :: 0 <= k < |s| ==> IsSpace(s[k])
  }

  /** `r` is the infix of `s` at position `i`, with only white space before and after it. */
  predicate Margined(s: string, i: nat, r: string)
  {
    && i + |r| <= |s| && r == s[i..i + |r|] && AllSpace(s[..i]) && AllSpace(s[i + |r|..])
  }

  function TrimLeft(s: string): (r: string)
    ensures |r| <= |s| && r == s[|s| - |r|..]
    ensures AllSpace(s[..|s| - |r|])
    ensures r == [] || !IsSpace(r[0])
    decreases |s|
  {
    if s != [] && IsSpace(s[0]) then
      var r := TrimLeft(s[1..]);
      assert s[..|s| - |r|] == [s[0]] + s[1..][..|s[1..]| - |r|];
      r
    else s
  }

  function TrimRight(s: string): (r: string)
    ensures |r| <= |s| && r == s[..|r|]
    ensures AllSpace(s[|r|..])
    ensures r == [] || !IsSpace(r[|r| - 1])
    decreases |s|
  {
    if s != [] && IsSpace(s[|s| - 1]) then
      var r := TrimRight(s[..|s| - 1]);
      assert s[|r|..] == s[..|s| - 1][|r|..] + [s[|s| - 1]];
      r
    else s
  }

  /**
   * Go strings.TrimSpace: `s` without its leading and trailing white space, that is the infix
   * of `s` that starts where TrimLeft's white-space prefix ends and is followed by white space
   * only.
   */
  function TrimSpace(s: string): (r: string)
    ensures r == [] <==> AllSpace(s)
    ensures r != [] ==> !IsSpace(r[0]) && !IsSpace(r[|r| - 1])
    ensures Margined(s, |s| - |TrimLeft(s)|, r)
  {
    TrimmedEnds(s, TrimLeft(s), TrimRight(TrimLeft(s)));
    TrimmedInfix(s, TrimLeft(s), TrimRight(TrimLeft(s)));
    TrimRight(TrimLeft(s))
  }

  /** Trimming the left of `s` to `left`, then the right of `left` to `r`, removes all the white space at the ends. */
  lemma TrimmedEnds(s: string, left: string, r: string)
    requires |left| <= |s| && left == s[|s| - |left|..] && AllSpace(s[..|s| - |left|])
    requires left == [] || !IsSpace(left[0])
    requires |r| <= |left| && r == left[..|r|] && AllSpace(left[|r|..])
    requires r == [] || !IsSpace(r[|r| - 1])
    ensures r == [] <==> AllSpace(s)
    ensures r != [] ==> !IsSpace(r[0])
  {
    if r == [] {
      assert s == s[..|s| - |left|] + left;
    } else {
      assert r[0] == left[0] == s[|s| - |left|];
    }
  }

  /** `r`, cut from the suffix `left` of `s` by TrimRight, sits in `s` between white-space margins. */
  lemma TrimmedInfix(s: string, left: string, r: string)
    requires |left| <= |s| && left == s[|s| - |left|..] && AllSpace(s[..|s| - |left|])
    requires |r| <= |left| && r == left[..|r|] && AllSpace(left[|r|..])
    ensures Margined(s, |s| - |left|, r)
  {
    SliceOfSuffix(s, left, r);
  }

  /** `r`, a prefix of the suffix `left` of `s`, is the infix of `s` at the start of `left`. */
  lemma SliceOfSuffix<T>(s: seq<T>, left: seq<T>, r: seq<T>)
    requires |left| <= |s| && left == s[|s| - |left|..]
    requires |r| <= |left| && r == left[..|r|]
    ensures r == s[|s| - |left|..|s| - |left| + |r|]
    ensures s[|s| - |left| + |r|..] == left[|r|..]
  {
  }
}
