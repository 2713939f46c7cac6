/**
 * `re.search(pattern, text, re.IGNORECASE).group(1)` for the three phrase patterns of the
 * parameter extractor. Each pattern is a sequence of literal words, `\s+` runs and
 * non-capturing groups `(?:...|...)` (optionally followed by `?`), ending in the capture
 * `([^,\.]+)`. Matching follows Python's backtracking order: `\s+` is greedy and gives back
 * one character at a time, a group tries its branches left to right and an optional group
 * is tried before it is skipped, and the search tries start positions left to right.
 */
module Patterns {
  import opened Wrappers
  import opened Text

  /** Literal text (matched ignoring ASCII case), or `\s+`. */
  datatype Atom = Word(w: string) | Blanks

  /** One atom, or a group `(?:b1|b2|...)` whose branches are atom sequences; `optional` adds `?`. */
  datatype Node = Single(atom: Atom) | Group(branches: seq<seq<Atom>>, optional: bool)

  /** The nodes of a pattern; the capture `([^,\.]+)` follows the last one. */
  type Pattern = seq<Node>

  /** The characters `[^,\.]` admits. */
  predicate Capturable(c: char) {
    c != ',' && c != '.'
  }

  predicate WordAt(s: string, i: nat, w: string) {
    i + |w| <= |s| && LowerStr(s[i..i + |w|]) == LowerStr(w)
  }

  /** The length of the longest run of whitespace starting at `i`. */
  function BlankRun(s: string, i: nat): (n: nat)
    requires i <= |s|
    ensures i + n <= |s|
    ensures forall k :: i <= k < i + n ==> IsSpace(s[k])
    ensures i + n == |s| || !IsSpace(s[i + n])
    decreases |s| - i
  {
    if i < |s| && IsSpace(s[i]) then 1 + BlankRun(s, i + 1) else 0
  }

  /**
   * Matching nodes `j..` of `p` at position `i` of `s`: the position where the capture
   * starts on the first successful path, if any.
   */
  function MatchNodes(p: Pattern, j: nat, s: string, i: nat): (r: Option<nat>)
    requires j <= |p| && i <= |s|
    ensures r.Some? ==> i <= r.value < |s| && Capturable(s[r.value])
    decreases |p| - j, 3, 0, 0, 0
  {
    if j == |p| then
      if i < |s| && Capturable(s[i]) then Some(i) else None
    else match p[j]
      case Single(Word(w)) =>
        if WordAt(s, i, w) then MatchNodes(p, j + 1, s, i + |w|) else None
      case Single(Blanks) =>
        var n := BlankRun(s, i);
        if n == 0 then None else RetreatBlanks(p, j, s, i, n)
      case Group(_, _) =>
        MatchBranches(p, j, 0, s, i)
  }

  /** Node `j` is `\s+` and has taken `n` blanks: go on, or give one back and retry. */
  function RetreatBlanks(p: Pattern, j: nat, s: string, i: nat, n: nat): (r: Option<nat>)
    requires j < |p| && 1 <= n && i + n <= |s|
    ensures r.Some? ==> i <= r.value < |s| && Capturable(s[r.value])
    decreases |p| - j, 0, n, 0, 0
  {
    var r := MatchNodes(p, j + 1, s, i + n);
    if r.Some? || n == 1 then r else RetreatBlanks(p, j, s, i, n - 1)
  }

  /** Node `j` is a group: branches `b..` in order, then skipping the group when it is optional. */
  function MatchBranches(p: Pattern, j: nat, b: nat, s: string, i: nat): (r: Option<nat>)
    requires j < |p| && p[j].Group? && b <= |p[j].branches| && i <= |s|
    ensures r.Some? ==> i <= r.value < |s| && Capturable(s[r.value])
    decreases |p| - j, 2, |p[j].branches| - b, 0, 0
  {
    if b == |p[j].branches| then
      if p[j].optional then MatchNodes(p, j + 1, s, i) else None
    else
      var r := MatchBranch(p, j, b, 0, s, i);
      if r.Some? then r else MatchBranches(p, j, b + 1, s, i)
  }

  /** Atoms `k..` of branch `b` of group `j`, then the nodes after the group. */
  function MatchBranch(p: Pattern, j: nat, b: nat, k: nat, s: string, i: nat): (r: Option<nat>)
    requires j < |p| && p[j].Group? && b < |p[j].branches| && k <= |p[j].branches[b]| && i <= |s|
    ensures r.Some? ==> i <= r.value < |s| && Capturable(s[r.value])
    decreases |p| - j, 1, |p[j].branches[b]| - k, 1, 0
  {
    var atoms := p[j].branches[b];
    if k == |atoms| then MatchNodes(p, j + 1, s, i)
    else match atoms[k]
      case Word(w) =>
        if WordAt(s, i, w) then MatchBranch(p, j, b, k + 1, s, i + |w|) else None
      case Blanks =>
        var n := BlankRun(s, i);
        if n == 0 then None else RetreatBranchBlanks(p, j, b, k, s, i, n)
  }

  /** Atom `k` of a branch is `\s+` and has taken `n` blanks: go on, or give one back and retry. */
  function RetreatBranchBlanks(p: Pattern, j: nat, b: nat, k: nat, s: string, i: nat, n: nat): (r: Option<nat>)
    requires j < |p| && p[j].Group? && b < |p[j].branches| && k < |p[j].branches[b]|
    requires 1 <= n && i + n <= |s|
    ensures r.Some? ==> i <= r.value < |s| && Capturable(s[r.value])
    decreases |p| - j, 1, |p[j].branches[b]| - k, 0, n
  {
    var r := MatchBranch(p, j, b, k + 1, s, i + n);
    if r.Some? || n == 1 then r else RetreatBranchBlanks(p, j, b, k, s, i, n - 1)
  }

  /** `re.search`: the first start position, from `st` on, where the pattern matches. */
  function SearchFrom(p: Pattern, s: string, st: nat): (r: Option<nat>)
    requires st <= |s|
    ensures r.Some? ==> r.value < |s| && Capturable(s[r.value])
    decreases |s| - st
  {
    var r := MatchNodes(p, 0, s, st);
    if r.Some? || st == |s| then r else SearchFrom(p, s, st + 1)
  }

  /** Where a greedy `[^,\.]+` that starts at `g` stops. */
  function CaptureEnd(s: string, g: nat): (e: nat)
    requires g <= |s|
    ensures g <= e <= |s|
    ensures forall k :: g <= k < e ==> Capturable(s[k])
    ensures e == |s| || !Capturable(s[e])
    decreases |s| - g
  {
    if g < |s| && Capturable(s[g]) then CaptureEnd(s, g + 1) else g
  }

  /** `m.group(1)` of `re.search(p, s, re.IGNORECASE)`, when there is a match. */
  function Search(p: Pattern, s: string): (r: Option<string>)
    ensures r.Some? ==> |r.value| > 0 && forall c :: c in r.value ==> Capturable(c)
  {
    match SearchFrom(p, s, 0)
    case None => None
    case Some(g) => Some(s[g..CaptureEnd(s, g)])
  }

  /** `(?:with|using|for)\s+NAME\s+(?:of|as|:)?\s+([^,\.]+)` */
  function WithPattern(name: string): Pattern {
    [ Group([[Word("with")], [Word("using")], [Word("for")]], false), Single(Blanks),
      Single(Word(name)), Single(Blanks),
      Group([[Word("of")], [Word("as")], [Word(":")]], true), Single(Blanks) ]
  }

  /** `NAME(?:\s+is|:)\s+([^,\.]+)` */
  function IsPattern(name: string): Pattern {
    [ Single(Word(name)), Group([[Blanks, Word("is")], [Word(":")]], false), Single(Blanks) ]
  }

  /** Where the `\s+` nodes of `SetPattern` are. */
  lemma SetPatternBlanks(name: string)
    ensures |SetPattern(name)| == 6
    ensures SetPattern(name)[1] == Single(Blanks) && SetPattern(name)[3] == Single(Blanks)
    ensures SetPattern(name)[5] == Single(Blanks)
  {
  }

  /** `(?:set|using)\s+NAME\s+(?:to|as)\s+([^,\.]+)` */
  function SetPattern(name: string): Pattern {
    [ Group([[Word("set")], [Word("using")]], false), Single(Blanks),
      Single(Word(name)), Single(Blanks),
      Group([[Word("to")], [Word("as")]], false), Single(Blanks) ]
  }

  /** A case-insensitive word match fixes the first character, up to ASCII case. */
  lemma WordAtFirst(s: string, i: nat, w: string)
    requires w != [] && WordAt(s, i, w)
    ensures i < |s| && Lower(s[i]) == Lower(w[0])
  {
    assert LowerStr(s[i..i + |w|])[0] == Lower(s[i]);
  }

  /** A `\s+` node facing a single blank goes on after it. */
  lemma OneBlankStep(p: Pattern, j: nat, s: string, i: nat)
    requires j < |p| && p[j] == Single(Blanks) && i < |s| && IsSpace(s[i])
    requires i + 1 == |s| || !IsSpace(s[i + 1])
    ensures MatchNodes(p, j, s, i) == MatchNodes(p, j + 1, s, i + 1)
  {
    assert BlankRun(s, i + 1) == 0;
    assert BlankRun(s, i) == 1;
    assert RetreatBlanks(p, j, s, i, 1) == MatchNodes(p, j + 1, s, i + 1);
  }

  /** A `\s+` node facing two blanks gives one back when the rest fails after both. */
  lemma TwoBlanksStep(p: Pattern, j: nat, s: string, i: nat)
    requires j < |p| && p[j] == Single(Blanks) && i + 1 < |s| && IsSpace(s[i]) && IsSpace(s[i + 1])
    requires i + 2 == |s| || !IsSpace(s[i + 2])
    requires MatchNodes(p, j + 1, s, i + 2).None?
    ensures MatchNodes(p, j, s, i) == MatchNodes(p, j + 1, s, i + 1)
  {
    assert BlankRun(s, i + 2) == 0;
    assert BlankRun(s, i + 1) == 1;
    assert BlankRun(s, i) == 2;
    assert RetreatBlanks(p, j, s, i, 2) == RetreatBlanks(p, j, s, i, 1);
  }

  /** `re.search` tries start positions left to right: none matching from `st` on means no match. */
  lemma {:induction false} SearchNone(p: Pattern, s: string, st: nat)
    requires st <= |s|
    requires forall k :: st <= k <= |s| ==> MatchNodes(p, 0, s, k).None?
    ensures SearchFrom(p, s, st).None?
    decreases |s| - st
  {
    if st < |s| {
      SearchNone(p, s, st + 1);
    }
  }

  /** ... and the first start position that matches decides the capture. */
  lemma {:induction false} SearchFirst(p: Pattern, s: string, st: nat, k: nat)
    requires st <= k <= |s| && MatchNodes(p, 0, s, k).Some?
    requires forall m :: st <= m < k ==> MatchNodes(p, 0, s, m).None?
    ensures SearchFrom(p, s, st) == MatchNodes(p, 0, s, k)
    decreases k - st
  {
    if st < k {
      SearchFirst(p, s, st + 1, k);
    }
  }

  /** A group whose branches all begin with a word matches only where one of those words does. */
  lemma {:induction false} BranchesStart(p: Pattern, j: nat, b: nat, s: string, i: nat)
    requires j < |p| && p[j].Group? && !p[j].optional && b <= |p[j].branches| && i <= |s|
    requires forall c :: b <= c < |p[j].branches| ==> p[j].branches[c] != [] && p[j].branches[c][0].Word?
    requires MatchBranches(p, j, b, s, i).Some?
    ensures exists c :: b <= c < |p[j].branches| && WordAt(s, i, p[j].branches[c][0].w)
    decreases |p[j].branches| - b
  {
    if MatchBranch(p, j, b, 0, s, i).Some? {
      assert WordAt(s, i, p[j].branches[b][0].w);
    } else {
      BranchesStart(p, j, b + 1, s, i);
    }
  }

  /** A match of the first pattern starts with `with`, `using` or `for`. */
  lemma WithPatternStart(name: string, s: string, i: nat)
    requires i <= |s| && MatchNodes(WithPattern(name), 0, s, i).Some?
    ensures WordAt(s, i, "with") || WordAt(s, i, "using") || WordAt(s, i, "for")
  {
    var p := WithPattern(name);
    BranchesStart(p, 0, 0, s, i);
    var c :| 0 <= c < 3 && WordAt(s, i, p[0].branches[c][0].w);
    assert c == 0 || c == 1 || c == 2;
  }

  /** A match of the second pattern starts with the parameter name. */
  lemma IsPatternStart(name: string, s: string, i: nat)
    requires i <= |s| && MatchNodes(IsPattern(name), 0, s, i).Some?
    ensures WordAt(s, i, name)
  {
  }

  /** A match of the third pattern starts with `set` or `using`. */
  lemma SetPatternStart(name: string, s: string, i: nat)
    requires i <= |s| && MatchNodes(SetPattern(name), 0, s, i).Some?
    ensures WordAt(s, i, "set") || WordAt(s, i, "using")
  {
    var p := SetPattern(name);
    BranchesStart(p, 0, 0, s, i);
    var c :| 0 <= c < 2 && WordAt(s, i, p[0].branches[c][0].w);
    assert c == 0 || c == 1;
  }

  /** The patterns tried for a parameter, in order. */
  function PhrasePatterns(name: string): (ps: seq<Pattern>)
    ensures |ps| == 3
  {
    [WithPattern(name), IsPattern(name), SetPattern(name)]
  }

  // Worked example: "set count to 5" for the parameter `count`.

  /** The first letters of the words the patterns begin with, position by position. */
  lemma SetCountFirstLetters(s: string, k: nat)
    requires s == "set count to 5" && k < |s|
    ensures Lower(s[k]) != 'w' && Lower(s[k]) != 'f'
    ensures Lower(s[k]) == 'u' ==> k == 6
    ensures Lower(s[k]) == 'c' ==> k == 4
  {
    if k < 5 {
      assert k == 0 || k == 1 || k == 2 || k == 3 || k == 4;
    } else if k < 10 {
      assert k == 5 || k == 6 || k == 7 || k == 8 || k == 9;
    } else {
      assert k == 10 || k == 11 || k == 12 || k == 13;
    }
  }

  lemma SetCountNotUsing(s: string)
    requires s == "set count to 5"
    ensures !WordAt(s, 6, "using")
  {
    assert LowerStr(s[6..11])[1] == Lower(s[7]);
    assert LowerStr("using")[1] == Lower('s');
  }

  /** Where the words of the patterns occur, or not, in the example. */
  lemma SetCountWords(s: string)
    requires s == "set count to 5"
    ensures WordAt(s, 0, "set") && WordAt(s, 4, "count") && WordAt(s, 10, "to")
    ensures !WordAt(s, 10, "is") && !WordAt(s, 9, ":")
  {
    assert s[0..3] == "set";
    assert s[4..9] == "count";
    assert s[10..12] == "to";
    assert LowerStr(s[10..12])[1] == 'o';
  }

  lemma SetCountIsAtName(s: string)
    requires s == "set count to 5"
    ensures MatchNodes(IsPattern("count"), 0, s, 4).None?
  {
    var p := IsPattern("count");
    SetCountWords(s);
    assert BlankRun(s, 10) == 0;
    assert BlankRun(s, 9) == 1;
    assert MatchBranch(p, 1, 0, 1, s, 10).None?;
    assert RetreatBranchBlanks(p, 1, 0, 0, s, 9, 1).None?;
    assert MatchBranch(p, 1, 0, 0, s, 9).None?;
    assert MatchBranch(p, 1, 1, 0, s, 9).None?;
    assert MatchBranches(p, 1, 2, s, 9).None?;
    assert MatchBranches(p, 1, 0, s, 9).None?;
  }

  lemma SetCountWithMisses(s: string, k: nat)
    requires s == "set count to 5" && k <= |s|
    ensures MatchNodes(WithPattern("count"), 0, s, k).None?
  {
    SetCountNotUsing(s);
    if MatchNodes(WithPattern("count"), 0, s, k).Some? {
      WithPatternStart("count", s, k);
      if WordAt(s, k, "with") {
        WordAtFirst(s, k, "with");
      } else if WordAt(s, k, "for") {
        WordAtFirst(s, k, "for");
      } else {
        WordAtFirst(s, k, "using");
      }
      SetCountFirstLetters(s, k);
    }
  }

  lemma SetCountIsMisses(s: string, k: nat)
    requires s == "set count to 5" && k <= |s|
    ensures MatchNodes(IsPattern("count"), 0, s, k).None?
  {
    SetCountIsAtName(s);
    if k != 4 && MatchNodes(IsPattern("count"), 0, s, k).Some? {
      IsPatternStart("count", s, k);
      WordAtFirst(s, k, "count");
      SetCountFirstLetters(s, k);
    }
  }

  /** From `to` on, the third pattern reaches the capture at the `5`. */
  lemma SetCountFromTo(s: string)
    requires s == "set count to 5"
    ensures MatchNodes(SetPattern("count"), 4, s, 10) == Some(13)
  {
    var p := SetPattern("count");
    assert MatchNodes(p, 6, s, 13) == Some(13);
    assert BlankRun(s, 12) == 1;
    assert RetreatBlanks(p, 5, s, 12, 1) == Some(13);
    assert MatchNodes(p, 5, s, 12) == Some(13);
    assert WordAt(s, 10, "to");
    assert MatchBranch(p, 4, 0, 1, s, 12) == Some(13);
    assert MatchBranch(p, 4, 0, 0, s, 10) == Some(13);
  }

  lemma SetCountAfterName(s: string)
    requires s == "set count to 5"
    ensures MatchNodes(SetPattern("count"), 3, s, 9) == Some(13)
  {
    SetCountFromTo(s);
    OneBlankStep(SetPattern("count"), 3, s, 9);
  }

  lemma SetCountFromName(s: string)
    requires s == "set count to 5"
    ensures MatchNodes(SetPattern("count"), 2, s, 4) == Some(13)
  {
    SetCountAfterName(s);
    SetCountWords(s);
  }

  lemma SetCountFromBlank(s: string)
    requires s == "set count to 5"
    ensures MatchNodes(SetPattern("count"), 1, s, 3) == Some(13)
  {
    SetCountFromName(s);
    SetPatternBlanks("count");
    assert IsSpace(s[3]) && !IsSpace(s[4]);
    OneBlankStep(SetPattern("count"), 1, s, 3);
  }

  lemma SetCountSetMatches(s: string)
    requires s == "set count to 5"
    ensures MatchNodes(SetPattern("count"), 0, s, 0) == Some(13)
  {
    var p := SetPattern("count");
    SetCountFromBlank(s);
    SetCountWords(s);
    assert MatchBranch(p, 0, 0, 1, s, 3) == Some(13);
    assert MatchBranch(p, 0, 0, 0, s, 0) == Some(13);
    assert MatchBranches(p, 0, 0, s, 0) == Some(13);
  }

  lemma SetCountWithNone(s: string)
    requires s == "set count to 5"
    ensures Search(WithPattern("count"), s) == None
  {
    forall k | 0 <= k <= |s| ensures MatchNodes(WithPattern("count"), 0, s, k).None? {
      SetCountWithMisses(s, k);
    }
    SearchNone(WithPattern("count"), s, 0);
  }

  lemma SetCountIsNone(s: string)
    requires s == "set count to 5"
    ensures Search(IsPattern("count"), s) == None
  {
    forall k | 0 <= k <= |s| ensures MatchNodes(IsPattern("count"), 0, s, k).None? {
      SetCountIsMisses(s, k);
    }
    SearchNone(IsPattern("count"), s, 0);
  }

  lemma SetCountSetFive(s: string)
    requires s == "set count to 5"
    ensures Search(SetPattern("count"), s) == Some("5")
  {
    SetCountSetMatches(s);
    SearchFirst(SetPattern("count"), s, 0, 0);
    assert CaptureEnd(s, 14) == 14;
    assert CaptureEnd(s, 13) == 14;
    assert s[13..14] == "5";
  }

  // Worked example: without a connector, the first pattern needs two blanks between the
  // name and the value, since the blanks before and after the optional group are separate
  // `\s+` runs.

  /** The first letters of the words the first pattern begins with, position by position. */
  lemma UrlFirstLetters(s: string, k: nat)
    requires s == "with url x" && k < |s|
    ensures Lower(s[k]) != 'f'
    ensures Lower(s[k]) == 'w' ==> k == 0
    ensures Lower(s[k]) == 'u' ==> k == 5
  {
    if k < 5 {
      assert k == 0 || k == 1 || k == 2 || k == 3 || k == 4;
    } else {
      assert k == 5 || k == 6 || k == 7 || k == 8 || k == 9;
    }
  }

  /** Where the words of the first pattern occur, or not, in the example. */
  lemma UrlWords(s: string)
    requires s == "with url x" || s == "with url  x"
    ensures WordAt(s, 0, "with") && WordAt(s, 5, "url")
    ensures !WordAt(s, 0, "using") && !WordAt(s, 0, "for")
  {
    assert s[0..4] == "with";
    assert s[5..8] == "url";
  }

  /** After the name, one blank is all there is: the `\s+` after the name takes it. */
  lemma UrlOneBlankFromName(s: string)
    requires s == "with url x"
    ensures MatchNodes(WithPattern("url"), 2, s, 5).None?
  {
    var p := WithPattern("url");
    UrlWords(s);
    assert BlankRun(s, 9) == 0;
    assert MatchNodes(p, 5, s, 9).None?;
    assert MatchBranches(p, 4, 0, s, 9).None?;
    assert BlankRun(s, 8) == 1;
    assert MatchNodes(p, 3, s, 8).None?;
  }

  /** At the start, `with url` is followed by a single blank, taken by the `\s+` after the name. */
  lemma UrlOneBlankAtStart(s: string)
    requires s == "with url x"
    ensures MatchNodes(WithPattern("url"), 0, s, 0).None?
  {
    var p := WithPattern("url");
    UrlOneBlankFromName(s);
    UrlWords(s);
    assert BlankRun(s, 4) == 1;
    assert MatchNodes(p, 1, s, 4).None?;
    assert MatchBranch(p, 0, 0, 1, s, 4).None?;
    assert MatchBranch(p, 0, 0, 0, s, 0).None?;
    assert MatchBranch(p, 0, 1, 0, s, 0).None?;
    assert MatchBranch(p, 0, 2, 0, s, 0).None?;
    assert MatchBranches(p, 0, 1, s, 0).None?;
  }

  lemma UrlNotUsing(s: string)
    requires s == "with url x"
    ensures !WordAt(s, 5, "using")
  {
    assert LowerStr(s[5..10])[1] == Lower(s[6]);
    assert LowerStr("using")[1] == Lower('s');
  }

  lemma UrlOneBlankMisses(s: string, k: nat)
    requires s == "with url x" && k <= |s|
    ensures MatchNodes(WithPattern("url"), 0, s, k).None?
  {
    UrlNotUsing(s);
    if k == 0 {
      UrlOneBlankAtStart(s);
    } else if MatchNodes(WithPattern("url"), 0, s, k).Some? {
      WithPatternStart("url", s, k);
      if WordAt(s, k, "with") {
        WordAtFirst(s, k, "with");
      } else if WordAt(s, k, "for") {
        WordAtFirst(s, k, "for");
      } else {
        WordAtFirst(s, k, "using");
      }
      UrlFirstLetters(s, k);
    }
  }

  /** "with url x" binds nothing through the first pattern. */
  lemma UrlOneBlankNone(s: string)
    requires s == "with url x"
    ensures Search(WithPattern("url"), s) == None
  {
    forall k | 0 <= k <= |s| ensures MatchNodes(WithPattern("url"), 0, s, k).None? {
      UrlOneBlankMisses(s, k);
    }
    SearchNone(WithPattern("url"), s, 0);
  }

  /** Taking both blanks after the name leaves none for the last `\s+`. */
  lemma UrlTwoBlanksGreedyFails(s: string)
    requires s == "with url  x"
    ensures MatchNodes(WithPattern("url"), 4, s, 10).None?
  {
    var p := WithPattern("url");
    assert BlankRun(s, 10) == 0;
    assert MatchNodes(p, 5, s, 10).None?;
    assert MatchBranches(p, 4, 0, s, 10).None?;
  }

  /** Giving one blank back, the group is skipped and the last `\s+` takes the other. */
  lemma UrlTwoBlanksRetreat(s: string)
    requires s == "with url  x"
    ensures MatchNodes(WithPattern("url"), 4, s, 9) == Some(10)
  {
    var p := WithPattern("url");
    assert MatchNodes(p, 6, s, 10) == Some(10);
    assert BlankRun(s, 10) == 0;
    assert BlankRun(s, 9) == 1;
    assert MatchNodes(p, 5, s, 9) == Some(10);
    assert MatchBranch(p, 4, 0, 0, s, 9).None?;
    assert MatchBranch(p, 4, 1, 0, s, 9).None?;
    assert MatchBranch(p, 4, 2, 0, s, 9).None?;
    assert MatchBranches(p, 4, 3, s, 9) == Some(10);
  }

  /** From the name on, the `\s+` after the name gives one of its two blanks back. */
  lemma UrlTwoBlanksFromName(s: string)
    requires s == "with url  x"
    ensures MatchNodes(WithPattern("url"), 2, s, 5) == Some(10)
  {
    var p := WithPattern("url");
    UrlTwoBlanksGreedyFails(s);
    UrlTwoBlanksRetreat(s);
    UrlWords(s);
    TwoBlanksStep(p, 3, s, 8);
    assert MatchNodes(p, 3, s, 8) == Some(10);
  }

  lemma UrlTwoBlanksMatch(s: string)
    requires s == "with url  x"
    ensures MatchNodes(WithPattern("url"), 0, s, 0) == Some(10)
  {
    var p := WithPattern("url");
    UrlTwoBlanksFromName(s);
    UrlWords(s);
    assert BlankRun(s, 4) == 1;
    assert MatchNodes(p, 1, s, 4) == Some(10);
    assert MatchBranch(p, 0, 0, 1, s, 4) == Some(10);
    assert MatchBranch(p, 0, 0, 0, s, 0) == Some(10);
    assert MatchBranches(p, 0, 0, s, 0) == Some(10);
  }

  /** "with url  x", with two blanks, binds `x`. */
  lemma UrlTwoBlanks(s: string)
    requires s == "with url  x"
    ensures Search(WithPattern("url"), s) == Some("x")
  {
    var p := WithPattern("url");
    UrlTwoBlanksMatch(s);
    SearchFirst(p, s, 0, 0);
    assert CaptureEnd(s, 11) == 11;
    assert CaptureEnd(s, 10) == 11;
    assert s[10..11] == "x";
  }
}
