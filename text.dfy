/**
 * Character and string operations of Python's `str` that the core relies on:
 * whitespace, `strip`, `lower`, `isdigit`, substring search, `split` and `join`.
 */
module Text {
  import opened Wrappers

  /** Python's `str.isspace` for one character; the same set is `\s` in a `str` regular expression. */
  predicate IsSpace(c: char) {
    var n := c as int;
    (9 <= n <= 13) || (28 <= n <= 32) || n == 0x85 || n == 0xA0 || n == 0x1680
    || (0x2000 <= n <= 0x200A) || n == 0x2028 || n == 0x2029 || n == 0x202F
    || n == 0x205F || n == 0x3000
  }

  predicate IsDigit(c: char) {
    '0' <= c <= '9'
  }

  /** Python's `str.isdigit` restricted to ASCII digits: non-empty and all digits. */
  predicate IsDigits(s: string) {
    |s| > 0 && forall i :: 0 <= i < |s| ==> IsDigit(s[i])
  }

  function Lower(c: char): (r: char)
    ensures ('A' <= c <= 'Z') == (r != c)
  {
    if 'A' <= c <= 'Z' then (c as int + 32) as char else c
  }

  function Upper(c: char): (r: char)
    ensures ('a' <= c <= 'z') == (r != c)
  {
    if 'a' <= c <= 'z' then (c as int - 32) as char else c
  }

  function LowerStr(s: string): (r: string)
    ensures |r| == |s|
    ensures forall i :: 0 <= i < |s| ==> r[i] == Lower(s[i])
  {
    if s == [] then [] else [Lower(s[0])] + LowerStr(s[1..])
  }

  /** Python's `str.capitalize` over ASCII: first character upper case, the rest lower case. */
  function Capitalize(s: string): (r: string)
    ensures |r| == |s|
  {
    if s == [] then [] else [Upper(s[0])] + LowerStr(s[1..])
  }

  predicate StartsWith(s: string, prefix: string) {
    |prefix| <= |s| && s[..|prefix|] == prefix
  }

  predicate OccursAt(s: string, i: int, u: string) {
    0 <= i && i + |u| <= |s| && s[i..i + |u|] == u
  }

  /** Python's `u in s` for strings. */
  predicate Contains(s: string, u: string) {
    exists i :: 0 <= i <= |s| && OccursAt(s, i, u)
  }

  lemma ContainsWitness(s: string, i: int, u: string)
    requires OccursAt(s, i, u)
    ensures Contains(s, u)
  {
  }

  /** `u` occurs in any text that is built around it. */
  lemma ContainsMiddle(a: string, u: string, b: string)
    ensures Contains(a + u + b, u)
  {
    assert (a + u + b)[|a|..|a| + |u|] == u;
    ContainsWitness(a + u + b, |a|, u);
  }

  /** Occurrences survive being embedded in a larger text. */
  lemma ContainsInside(a: string, s: string, b: string, u: string)
    requires Contains(s, u)
    ensures Contains(a + s + b, u)
  {
    var i :| 0 <= i <= |s| && OccursAt(s, i, u);
    var t, j := a + s + b, |a| + i;
    assert t[j..j + |u|] == s[i..i + |u|];
    ContainsWitness(t, j, u);
  }

  /** A slice of a slice is a slice. */
  lemma SliceOfSlice(s: string, lo: nat, hi: nat, k: nat, n: nat)
    requires lo <= hi <= |s| && k + n <= hi - lo
    ensures s[lo..hi][k..k + n] == s[lo + k..lo + k + n]
  {
    var x, y := s[lo..hi][k..k + n], s[lo + k..lo + k + n];
    forall j | 0 <= j < n ensures x[j] == y[j] {
      assert s[lo..hi][k + j] == s[lo + k + j];
    }
  }

  /** An occurrence of `p + u` is an occurrence of `u` just after `p`. */
  lemma OccursAfter(s: string, i: nat, p: string, u: string)
    requires OccursAt(s, i, p + u)
    ensures OccursAt(s, i + |p|, u)
  {
    SliceOfSlice(s, i, i + |p + u|, |p|, |u|);
    assert (p + u)[|p|..|p| + |u|] == u;
  }

  /** The first index at which `u` occurs in `s` at or after `from`. */
  function FindFrom(s: string, u: string, from: nat): (r: Option<nat>)
    requires from <= |s|
    ensures r.Some? ==> from <= r.value && OccursAt(s, r.value, u)
    ensures r.Some? ==> forall k :: from <= k < r.value ==> !OccursAt(s, k, u)
    ensures r.None? ==> forall k :: from <= k <= |s| ==> !OccursAt(s, k, u)
    decreases |s| - from
  {
    if OccursAt(s, from, u) then Some(from)
    else if from == |s| then None
    else FindFrom(s, u, from + 1)
  }

  /** Python's `s.find(u)`, as an option. */
  function Find(s: string, u: string): (r: Option<nat>)
    ensures r.Some? <==> Contains(s, u)
    ensures r.Some? ==> OccursAt(s, r.value, u) && forall k :: 0 <= k < r.value ==> !OccursAt(s, k, u)
  {
    FindFrom(s, u, 0)
  }

  function IndexOfChar(s: string, c: char): (r: Option<nat>)
    ensures r.Some? <==> c in s
    ensures r.Some? ==> r.value < |s| && s[r.value] == c && c !in s[..r.value]
  {
    if s == [] then None
    else if s[0] == c then Some(0)
    else match IndexOfChar(s[1..], c)
      case None => None
      case Some(k) => Some(k + 1)
  }

  function LastIndexOfChar(s: string, c: char): (r: Option<nat>)
    ensures r.Some? <==> c in s
    ensures r.Some? ==> r.value < |s| && s[r.value] == c && c !in s[r.value + 1..]
  {
    if s == [] then None
    else if s[|s| - 1] == c then Some(|s| - 1)
    else
      assert s == s[..|s| - 1] + [s[|s| - 1]];
      LastIndexOfChar(s[..|s| - 1], c)
  }

  /** `s.split(c, 1)[0]`: the text before the first `c`, or all of `s`. */
  function BeforeChar(s: string, c: char): (r: string)
    ensures c !in r && StartsWith(s, r)
  {
    match IndexOfChar(s, c)
    case None => s
    case Some(k) => s[..k]
  }

  /** `s.split(c, 1)[1]` when `c` occurs: the text after the first `c`. */
  function AfterChar(s: string, c: char): (r: string)
    requires c in s
    ensures s == BeforeChar(s, c) + [c] + r
  {
    var k := IndexOfChar(s, c).value;
    assert s == s[..k] + [c] + s[k + 1..];
    s[k + 1..]
  }

  /** `s.replace(a, b)` for single characters. */
  function ReplaceChar(s: string, a: char, b: char): (r: string)
    ensures |r| == |s|
    ensures forall i :: 0 <= i < |s| ==> r[i] == if s[i] == a then b else s[i]
  {
    if s == [] then [] else [if s[0] == a then b else s[0]] + ReplaceChar(s[1..], a, b)
  }

  predicate Stripped(s: string) {
    s == [] || (!IsSpace(s[0]) && !IsSpace(s[|s| - 1]))
  }

  /** The number of whitespace characters that begin `s`. */
  function Lead(s: string): (n: nat)
    ensures n <= |s|
    ensures forall i :: 0 <= i < n ==> IsSpace(s[i])
    ensures n == |s| || !IsSpace(s[n])
  {
    if s != [] && IsSpace(s[0]) then 1 + Lead(s[1..]) else 0
  }

  /** The number of whitespace characters that end `s`. */
  function Trail(s: string): (n: nat)
    ensures n <= |s|
    ensures forall i :: |s| - n <= i < |s| ==> IsSpace(s[i])
    ensures n == |s| || !IsSpace(s[|s| - n - 1])
  {
    if s != [] && IsSpace(s[|s| - 1]) then 1 + Trail(s[..|s| - 1]) else 0
  }

  /** Python's `str.strip()` with no argument. */
  function Strip(s: string): (r: string)
    ensures Stripped(r)
    ensures Lead(s) + |r| <= |s| && r == s[Lead(s)..Lead(s) + |r|]
    ensures forall i :: Lead(s) + |r| <= i < |s| ==> IsSpace(s[i])
    ensures r == [] <==> forall i :: 0 <= i < |s| ==> IsSpace(s[i])
  {
    var a := Lead(s);
    if a == |s| then []
    else
      var z := Trail(s);
      assert !IsSpace(s[a]);
      s[a..|s| - z]
  }

  lemma StripChars(s: string, c: char)
    requires c in Strip(s)
    ensures c in s
  {
    var r := Strip(s);
    var k :| 0 <= k < |r| && r[k] == c;
    assert s[Lead(s) + k] == c;
  }

  lemma StripKeepsOut(s: string, c: char)
    requires c !in s
    ensures c !in Strip(s)
  {
    if c in Strip(s) {
      StripChars(s, c);
    }
  }

  /** An occurrence inside the stripped text is an occurrence in the text. */
  lemma StripContains(s: string, u: string)
    requires Contains(Strip(s), u)
    ensures Contains(s, u)
  {
    var r, a := Strip(s), Lead(s);
    assert s == s[..a] + r + s[a + |r|..];
    ContainsInside(s[..a], r, s[a + |r|..], u);
  }

  /** Stripping is the identity on text with no surrounding whitespace. */
  lemma StripStripped(s: string)
    requires Stripped(s)
    ensures Strip(s) == s
  {
    if s != [] {
      assert Lead(s) == 0;
      assert Trail(s) == 0;
    }
  }

  /** Whitespace around a stripped text is exactly what `strip()` removes. */
  lemma StripAround(a: string, x: string, b: string)
    requires forall i :: 0 <= i < |a| ==> IsSpace(a[i])
    requires forall i :: 0 <= i < |b| ==> IsSpace(b[i])
    requires Stripped(x)
    ensures Strip(a + x + b) == x
  {
    var s := a + x + b;
    if x == [] {
      assert forall i :: 0 <= i < |s| ==> IsSpace(s[i]) by {
        assert s == a + b;
      }
    } else {
      assert forall i :: 0 <= i < |a| ==> IsSpace(s[i]);
      assert !IsSpace(s[|a|]);
      assert Lead(s) == |a|;
      var r := Strip(s);
      assert r == s[|a|..|a| + |x|] == x;
    }
  }
  /** A run of digits has nothing to strip. */
  lemma StripDigits(v: string)
    requires IsDigits(v)
    ensures Strip(v) == v
  {
    StripAround([], v, []);
    assert [] + v + [] == v;
  }

  /** Stripping text that starts with a non-space keeps every character up to a later non-space. */
  lemma StripKeepsHead(s: string, k: nat)
    requires k < |s| && !IsSpace(s[0]) && !IsSpace(s[k])
    ensures k < |Strip(s)| && Strip(s)[..k + 1] == s[..k + 1]
  {
    assert Lead(s) == 0;
  }

  /** Splitting at the first `c` of a text built around a `c`-free head gives that head back. */
  lemma SplitAtFirst(a: string, c: char, b: string)
    requires c !in a
    ensures c in a + [c] + b
    ensures BeforeChar(a + [c] + b, c) == a
    ensures AfterChar(a + [c] + b, c) == b
  {
    var s := a + [c] + b;
    assert s[|a|] == c;
    assert s[..|a|] == a;
    assert s[|a| + 1..] == b;
  }

  /** Python's `sep.join(xs)`. */
  function Join(xs: seq<string>, sep: string): (r: string)
    ensures xs == [] ==> r == []
  {
    if xs == [] then []
    else if |xs| == 1 then xs[0]
    else xs[0] + sep + Join(xs[1..], sep)
  }

  lemma {:induction false} JoinAppend(xs: seq<string>, x: string, sep: string)
    ensures Join(xs + [x], sep) == if xs == [] then x else Join(xs, sep) + sep + x
  {
    if |xs| > 1 {
      assert (xs + [x])[1..] == xs[1..] + [x];
      JoinAppend(xs[1..], x, sep);
    } else if |xs| == 1 {
      assert (xs + [x])[1..] == [x];
    }
  }

  /** Every joined element occurs in the joined text. */
  lemma {:induction false} JoinContains(xs: seq<string>, sep: string, k: nat)
    requires k < |xs|
    ensures Contains(Join(xs, sep), xs[k])
  {
    if |xs| == 1 {
      ContainsMiddle([], xs[0], []);
      assert [] + xs[0] + [] == xs[0];
    } else if k == 0 {
      ContainsMiddle([], xs[0], sep + Join(xs[1..], sep));
      assert [] + xs[0] + (sep + Join(xs[1..], sep)) == Join(xs, sep);
    } else {
      JoinContains(xs[1..], sep, k - 1);
      ContainsInside(xs[0] + sep, Join(xs[1..], sep), [], xs[k]);
      assert (xs[0] + sep) + Join(xs[1..], sep) + [] == Join(xs, sep);
    }
  }

  /** Each line of a text made of newline-ended lines occurs in it. */
  lemma LinesContain(xs: seq<string>, k: nat)
    requires k < |xs|
    ensures Contains(Join(xs, "\n") + "\n", xs[k])
  {
    JoinContains(xs, "\n", k);
    ContainsInside([], Join(xs, "\n"), "\n", xs[k]);
    assert [] + Join(xs, "\n") + "\n" == Join(xs, "\n") + "\n";
  }

  /** A joined text begins with its first element. */
  lemma JoinStartsWith(xs: seq<string>, sep: string)
    requires xs != []
    ensures StartsWith(Join(xs, sep), xs[0])
  {
    if |xs| > 1 {
      assert Join(xs, sep)[..|xs[0]|] == xs[0];
    }
  }

  /** The decimal text of a natural number (Python's `str(n)`). */
  function NatText(n: nat): (r: string)
    ensures |r| > 0 && IsDigits(r)
  {
    if n < 10 then [(n + '0' as int) as char]
    else NatText(n / 10) + [((n % 10) + '0' as int) as char]
  }
}
