/**
 * The invocation builder (`CodeGenerator` in app/services/code_generator.py): it reads the
 * parameters off a function's signature text, binds values for them from the user's prompt
 * with three phrase patterns, renders the bound values as keyword arguments and fills the
 * fixed script template.
 */
module CodeGenerator {
  import opened Wrappers
  import opened Text
  import opened Dicts
  import opened Patterns
  import opened Values

  // ---------------------------------------------------------------------------------------
  // Reading parameters off a signature (`_parse_parameters`)
  // ---------------------------------------------------------------------------------------

  /** One processed parameter: `{'name': ..., 'has_default': ..., 'default': ...}`. */
  datatype Param = Param(name: string, hasDefault: bool, default: Option<string>)

  /**
   * `sig.split('(', 1)[1].rsplit(')', 1)[0]`: the text after the first `(`, cut at the last
   * `)` that follows it (or kept whole when no `)` follows it).
   */
  function ParamText(sig: string): (t: string)
    requires '(' in sig
    ensures |t| <= |AfterChar(sig, '(')| && t == AfterChar(sig, '(')[..|t|]
    ensures ')' in AfterChar(sig, '(') ==>
      (|t| < |AfterChar(sig, '(')| && AfterChar(sig, '(')[|t|] == ')' && ')' !in AfterChar(sig, '(')[|t| + 1..])
    ensures ')' !in AfterChar(sig, '(') ==> t == AfterChar(sig, '(')
  {
    var rest := AfterChar(sig, '(');
    match LastIndexOfChar(rest, ')')
    case None => rest
    case Some(k) => rest[..k]
  }

  lemma {:induction false} BalanceConcat(a: string, b: string)
    ensures Balance(a + b) == Balance(a) + Balance(b)
  {
    if a != [] {
      assert (a + b)[1..] == a[1..] + b;
      BalanceConcat(a[1..], b);
    } else {
      assert a + b == b;
    }
  }

  lemma {:induction false} BalanceFlat(t: string)
    requires '(' !in t && ')' !in t
    ensures Balance(t) == 0
  {
    if t != [] {
      assert t == [t[0]] + t[1..];
      BalanceFlat(t[1..]);
    }
  }

  /** The loop state of the comma splitter: paren depth, the piece being built, the pieces kept. */
  datatype Scanner = Scanner(depth: int, current: string, pieces: seq<string>)

  /** One character of the splitter loop: a comma at depth 0 ends a piece, kept when not blank. */
  function Step(sc: Scanner, c: char): Scanner {
    if c == ',' && sc.depth == 0 then
      Scanner(0, "", if Strip(sc.current) != [] then sc.pieces + [Strip(sc.current)] else sc.pieces)
    else if c == '(' then Scanner(sc.depth + 1, sc.current + [c], sc.pieces)
    else if c == ')' then Scanner(sc.depth - 1, sc.current + [c], sc.pieces)
    else Scanner(sc.depth, sc.current + [c], sc.pieces)
  }

  /** The number of `(` minus the number of `)` in `t`. */
  function Balance(t: string): int {
    if t == [] then 0
    else (if t[0] == '(' then 1 else if t[0] == ')' then -1 else 0) + Balance(t[1..])
  }

  lemma {:induction false} BalanceAppend(t: string, c: char)
    ensures Balance(t + [c]) == Balance(t) + (if c == '(' then 1 else if c == ')' then -1 else 0)
  {
    if t != [] {
      assert (t + [c])[1..] == t[1..] + [c];
      BalanceAppend(t[1..], c);
    }
  }

  /** Every kept piece is non-blank and stripped. */
  predicate CleanPieces(ps: seq<string>) {
    forall k :: 0 <= k < |ps| ==> ps[k] != [] && Stripped(ps[k])
  }

  /** The splitter loop run over `t` from state `sc`: the depth moves by the parenthesis balance of `t`. */
  function Run(sc: Scanner, t: string): (r: Scanner)
    ensures r.depth == sc.depth + Balance(t)
    ensures CleanPieces(sc.pieces) ==> CleanPieces(r.pieces)
    decreases |t|
  {
    if t == [] then sc
    else
      BalanceAppend(t[..|t| - 1], t[|t| - 1]);
      assert t == t[..|t| - 1] + [t[|t| - 1]];
      Step(Run(sc, t[..|t| - 1]), t[|t| - 1])
  }

  lemma RunSnoc(sc: Scanner, t: string, c: char)
    ensures Run(sc, t + [c]) == Step(Run(sc, t), c)
  {
    assert (t + [c])[..|t|] == t;
  }

  /** The splitter loop over `t` from the start; its depth is the parenthesis balance of `t`. */
  function Scan(t: string): (sc: Scanner)
    ensures sc.depth == Balance(t) && CleanPieces(sc.pieces)
  {
    Run(Scanner(0, "", []), t)
  }

  /** The pieces the splitter keeps from `t + ','`. */
  function Pieces(t: string): (ps: seq<string>)
    ensures CleanPieces(ps)
  {
    Scan(t + ",").pieces
  }

  /** Running over `a + b` is running over `a`, then over `b`. */
  lemma {:induction false} RunAppend(sc: Scanner, a: string, b: string)
    ensures Run(sc, a + b) == Run(Run(sc, a), b)
    decreases |b|
  {
    if b == [] {
      assert a + b == a;
    } else {
      var b', c := b[..|b| - 1], b[|b| - 1];
      assert a + b == (a + b') + [c];
      assert b == b' + [c];
      RunSnoc(sc, a + b', c);
      RunAppend(sc, a, b');
      RunSnoc(Run(sc, a), b', c);
    }
  }

  /** The pieces kept before a run stay in front of the pieces the run adds. */
  lemma {:induction false} RunKeeps(sc: Scanner, t: string)
    ensures Run(sc, t).pieces == sc.pieces + Run(Scanner(sc.depth, sc.current, []), t).pieces
    ensures Run(sc, t).current == Run(Scanner(sc.depth, sc.current, []), t).current
    decreases |t|
  {
    if t != [] {
      var t', c := t[..|t| - 1], t[|t| - 1];
      assert t == t' + [c];
      RunKeeps(sc, t');
      RunSnoc(sc, t', c);
      RunSnoc(Scanner(sc.depth, sc.current, []), t', c);
    }
  }

  /** No comma of `t` sits at depth 0 when the splitter starts at depth `d`. */
  predicate NoTopComma(t: string, d: int) {
    forall k :: 0 <= k < |t| && t[k] == ',' ==> d + Balance(t[..k]) != 0
  }

  /** Text with no comma at depth 0 is only appended to the current piece. */
  lemma {:induction false} RunNoSplit(sc: Scanner, t: string)
    requires NoTopComma(t, sc.depth)
    ensures Run(sc, t) == Scanner(sc.depth + Balance(t), sc.current + t, sc.pieces)
    decreases |t|
  {
    if t != [] {
      var t', c := t[..|t| - 1], t[|t| - 1];
      assert t == t' + [c];
      assert t'[..] == t[..|t| - 1];
      forall k | 0 <= k < |t'| && t'[k] == ','
        ensures sc.depth + Balance(t'[..k]) != 0
      {
        assert t'[..k] == t[..k];
      }
      RunNoSplit(sc, t');
      RunSnoc(sc, t', c);
      assert (sc.current + t') + [c] == sc.current + t;
    }
  }

  /** The piece a stretch of text contributes: its stripped text, unless that is blank. */
  function Kept(x: string): (ps: seq<string>)
    ensures CleanPieces(ps)
  {
    if Strip(x) != [] then [Strip(x)] else []
  }

  /**
   * A comma at depth 0 splits: a balanced stretch `x` with no comma of its own at depth 0
   * becomes one piece (when not blank), and splitting goes on after the comma.
   */
  lemma PiecesSplit(x: string, y: string)
    requires Balance(x) == 0 && NoTopComma(x, 0)
    ensures Pieces(x + "," + y) == Kept(x) + Pieces(y)
  {
    var init := Scanner(0, "", []);
    assert x + "," + y + "," == (x + ",") + (y + ",");
    RunAppend(init, x + ",", y + ",");
    RunNoSplit(init, x);
    assert "" + x == x;
    RunSnoc(init, x, ',');
    assert Run(init, x + ",") == Scanner(0, "", Kept(x));
    RunKeeps(Scanner(0, "", Kept(x)), y + ",");
    calc {
      Pieces(x + "," + y);
      Run(init, (x + ",") + (y + ",")).pieces;
      Run(Scanner(0, "", Kept(x)), y + ",").pieces;
      Kept(x) + Run(init, y + ",").pieces;
    }
  }

  /** The last stretch, when balanced and free of depth-0 commas, is the last piece. */
  lemma PiecesLast(x: string)
    requires Balance(x) == 0 && NoTopComma(x, 0)
    ensures Pieces(x) == Kept(x)
  {
    var init := Scanner(0, "", []);
    RunSnoc(init, x, ',');
    RunNoSplit(init, x);
    assert "" + x == x;
  }

  /**
   * A call with a flat argument list, `a(b)c`, is balanced and its commas are all at depth 1:
   * so a default such as `d=f(x, y)` is never split.
   */
  lemma ParenGroup(a: string, b: string, c: string)
    requires ',' !in a && '(' !in a && ')' !in a
    requires '(' !in b && ')' !in b
    requires ',' !in c && '(' !in c && ')' !in c
    ensures Balance(a + "(" + b + ")" + c) == 0
    ensures NoTopComma(a + "(" + b + ")" + c, 0)
  {
    var t := a + "(" + b + ")" + c;
    BalanceFlat(a);
    BalanceFlat(b);
    BalanceFlat(c);
    BalanceConcat(a, "(");
    BalanceConcat(a + "(", b);
    BalanceConcat(a + "(" + b, ")");
    BalanceConcat(a + "(" + b + ")", c);
    forall k | 0 <= k < |t| && t[k] == ','
      ensures Balance(t[..k]) != 0
    {
      if |a| < k < |a| + 1 + |b| {
        var b' := b[..k - |a| - 1];
        assert t[..k] == a + "(" + b';
        assert forall ch :: ch in b' ==> ch in b;
        BalanceFlat(b');
        BalanceConcat(a, "(");
        BalanceConcat(a + "(", b');
      }
    }
  }

  /** An unterminated last stretch (depth not back at 0) is dropped. */
  lemma PiecesUnterminated(x: string)
    requires Balance(x) != 0 && NoTopComma(x, 0)
    ensures Pieces(x) == []
  {
    var init := Scanner(0, "", []);
    RunSnoc(init, x, ',');
    RunNoSplit(init, x);
  }

  /** Cutting a type hint off a stripped name: the stripped text before the first `:`. */
  function DropHint(name: string): (r: string)
    requires Stripped(name)
    ensures ':' !in r && Stripped(r)
    ensures forall c :: c in r ==> c in name
  {
    if ':' in name then
      var r := Strip(BeforeChar(name, ':'));
      forall c | c in r ensures c in name {
        StripChars(BeforeChar(name, ':'), c);
      }
      r
    else
      name
  }

  /** `p.split('=', 1)` with both halves stripped, and the type hint cut off the name. */
  function ParseParam(p: string): (r: Param)
    ensures r.hasDefault <==> '=' in p
    ensures r.default.Some? <==> r.hasDefault
    ensures r.hasDefault ==> r.default.value == Strip(AfterChar(p, '='))
    ensures r.name == DropHint(Strip(BeforeChar(p, '=')))
    ensures '=' !in r.name && ':' !in r.name && Stripped(r.name)
  {
    var hasDefault := '=' in p;
    var name := if hasDefault then Strip(BeforeChar(p, '=')) else Strip(p);
    assert name == Strip(BeforeChar(p, '='));
    StripKeepsOut(BeforeChar(p, '='), '=');
    Param(DropHint(name), hasDefault, if hasDefault then Some(Strip(AfterChar(p, '='))) else None)
  }

  function ParseAll(ps: seq<string>): (r: seq<Param>)
    ensures |r| == |ps|
    ensures forall k :: 0 <= k < |ps| ==> r[k] == ParseParam(ps[k])
  {
    seq(|ps|, k requires 0 <= k < |ps| => ParseParam(ps[k]))
  }

  /** What `_parse_parameters(sig)` returns. */
  function Parameters(sig: string): (r: seq<Param>)
    ensures !('(' in sig && ')' in sig) ==> r == []
    ensures '(' in sig && ')' in sig && Strip(ParamText(sig)) == [] ==> r == []
    ensures '(' in sig && ')' in sig && Strip(ParamText(sig)) != [] ==> r == ParseAll(Pieces(ParamText(sig)))
  {
    if '(' in sig && ')' in sig then
      var t := ParamText(sig);
      if Strip(t) == [] then [] else ParseAll(Pieces(t))
    else []
  }

  /** A parameter as a signature declares it: its name, its type hint and its default, as text. */
  datatype Declared = Declared(name: string, hint: Option<string>, default: Option<string>)

  /**
   * How `inspect.signature` shows one parameter: `name`, `name: hint`, `name=default` or
   * `name: hint = default`.
   */
  function ShowParam(d: Declared): string {
    d.name + (if d.hint.Some? then ": " + d.hint.value else "")
    + (if d.default.Some? then (if d.hint.Some? then " = " else "=") + d.default.value else "")
  }

  /** No comma or parenthesis: text the splitter passes through unchanged. */
  predicate Flat(x: string) {
    ',' !in x && '(' !in x && ')' !in x
  }

  /** A declared parameter whose shown text reads back as it was declared. */
  predicate Showable(d: Declared) {
    d.name != [] && Stripped(d.name) && '=' !in d.name && ':' !in d.name && Flat(d.name)
    && (d.hint.Some? ==> d.hint.value != [] && Stripped(d.hint.value) && '=' !in d.hint.value && Flat(d.hint.value))
    && (d.default.Some? ==> d.default.value != [] && Stripped(d.default.value) && Flat(d.default.value))
  }

  /** What `_parse_parameters` is meant to recover from a declared parameter. */
  function Recovered(d: Declared): Param {
    Param(d.name, d.default.Some?, d.default)
  }

  /** The name part: stripping cuts nothing off, and the hint is cut at its `:`. */
  lemma NamePart(name: string, rest: string)
    requires name != [] && Stripped(name) && ':' !in name
    ensures DropHint(Strip(name + ":" + rest)) == name
  {
    var s := name + ":" + rest;
    StripKeepsHead(s, |name|);
    var r := Strip(s);
    assert r[..|name| + 1] == name + [':'];
    assert r == name + [':'] + r[|name| + 1..];
    SplitAtFirst(name, ':', r[|name| + 1..]);
    StripStripped(name);
  }

  lemma ParsePlain(name: string)
    requires Stripped(name) && '=' !in name && ':' !in name
    ensures ParseParam(name) == Param(name, false, None)
  {
    StripStripped(name);
  }

  lemma ParseHinted(name: string, h: string)
    requires name != [] && Stripped(name) && '=' !in name && ':' !in name && '=' !in h
    ensures ParseParam(name + ":" + (" " + h)) == Param(name, false, None)
  {
    NamePart(name, " " + h);
  }

  lemma ParseDefaulted(name: string, d: string)
    requires Stripped(name) && '=' !in name && ':' !in name && Stripped(d)
    ensures ParseParam(name + "=" + d) == Param(name, true, Some(d))
  {
    SplitAtFirst(name, '=', d);
    StripStripped(name);
    StripStripped(d);
  }

  lemma ParseHintedDefaulted(name: string, h: string, d: string)
    requires name != [] && Stripped(name) && '=' !in name && ':' !in name && '=' !in h && Stripped(d)
    ensures ParseParam(name + ":" + (" " + h + " ") + "=" + (" " + d)) == Param(name, true, Some(d))
  {
    var before := name + ":" + (" " + h + " ");
    SplitAtFirst(before, '=', " " + d);
    NamePart(name, " " + h + " ");
    StripAround(" ", d, "");
    assert " " + d + "" == " " + d;
  }

  /** Reading back a shown parameter gives its name, whether it has a default, and the default. */
  lemma ParseShown(d: Declared)
    requires Showable(d)
    ensures ParseParam(ShowParam(d)) == Recovered(d)
  {
    var p := ShowParam(d);
    match (d.hint, d.default)
    case (None, None) =>
      assert p == d.name;
      ParsePlain(d.name);
    case (Some(h), None) =>
      assert p == d.name + ":" + (" " + h);
      ParseHinted(d.name, h);
    case (None, Some(v)) =>
      assert p == d.name + "=" + v;
      ParseDefaulted(d.name, v);
    case (Some(h), Some(v)) =>
      assert p == d.name + ":" + (" " + h + " ") + "=" + (" " + v);
      ParseHintedDefaulted(d.name, h, v);
  }

  lemma FlatConcat(a: string, b: string)
    requires Flat(a) && Flat(b)
    ensures Flat(a + b)
  {
    assert forall c :: c in a + b ==> c in a || c in b;
  }

  /** The shown text of a showable parameter is non-blank, stripped and flat. */
  lemma ShownShape(d: Declared)
    requires Showable(d)
    ensures ShowParam(d) != [] && Stripped(ShowParam(d)) && Flat(ShowParam(d))
  {
    var h := if d.hint.Some? then ": " + d.hint.value else "";
    var v := if d.default.Some? then (if d.hint.Some? then " = " else "=") + d.default.value else "";
    if d.hint.Some? { FlatConcat(": ", d.hint.value); }
    if d.default.Some? { FlatConcat(if d.hint.Some? then " = " else "=", d.default.value); }
    FlatConcat(d.name, h);
    FlatConcat(d.name + h, v);
    var p := ShowParam(d);
    assert p == d.name + h + v;
    assert p[0] == d.name[0];
    if d.default.Some? {
      assert p[|p| - 1] == d.default.value[|d.default.value| - 1];
    } else if d.hint.Some? {
      assert p[|p| - 1] == d.hint.value[|d.hint.value| - 1];
    } else {
      assert p == d.name;
    }
  }

  function ShowAll(ds: seq<Declared>): (r: seq<string>)
    ensures |r| == |ds| && forall k :: 0 <= k < |ds| ==> r[k] == ShowParam(ds[k])
  {
    seq(|ds|, k requires 0 <= k < |ds| => ShowParam(ds[k]))
  }

  function RecoveredAll(ds: seq<Declared>): (r: seq<Param>)
    ensures |r| == |ds| && forall k :: 0 <= k < |ds| ==> r[k] == Recovered(ds[k])
  {
    seq(|ds|, k requires 0 <= k < |ds| => Recovered(ds[k]))
  }

  predicate NoParens(x: string) {
    '(' !in x && ')' !in x
  }

  lemma NoParensConcat(a: string, b: string)
    requires NoParens(a) && NoParens(b)
    ensures NoParens(a + b)
  {
    assert forall c :: c in a + b ==> c in a || c in b;
  }

  lemma {:induction false} JoinNoParens(xs: seq<string>)
    requires forall k :: 0 <= k < |xs| ==> NoParens(xs[k])
    ensures NoParens(Join(xs, ", "))
  {
    if |xs| > 1 {
      forall k | 0 <= k < |xs| - 1 ensures NoParens(xs[1..][k]) {
        assert xs[1..][k] == xs[k + 1];
      }
      JoinNoParens(xs[1..]);
      NoParensConcat(xs[0], ", ");
      NoParensConcat(xs[0] + ", ", Join(xs[1..], ", "));
    }
  }

  /** Flat text is balanced and has no comma at all. */
  lemma FlatStretch(x: string)
    requires Flat(x)
    ensures Balance(x) == 0 && NoTopComma(x, 0)
  {
    BalanceFlat(x);
  }

  /** A flat piece after at most one blank: balanced, free of commas, and stripped back to itself. */
  lemma LeadPiece(lead: string, x: string)
    requires lead == "" || lead == " "
    requires Stripped(x) && Flat(x)
    ensures Balance(lead + x) == 0 && NoTopComma(lead + x, 0) && Strip(lead + x) == x
  {
    FlatConcat(lead, x);
    FlatStretch(lead + x);
    StripAround(lead, x, "");
    assert lead + x + "" == lead + x;
  }

  /** One flat piece in front of a `", "` keeps its place before the pieces of the rest. */
  lemma PiecesCons(lead: string, x: string, rest: string)
    requires lead == "" || lead == " "
    requires x != [] && Stripped(x) && Flat(x)
    ensures Pieces(lead + x + ", " + rest) == [x] + Pieces(" " + rest)
  {
    var y := lead + x;
    LeadPiece(lead, x);
    assert Kept(y) == [x];
    assert lead + x + ", " + rest == y + "," + (" " + rest);
    PiecesSplit(y, " " + rest);
  }

  /** The last flat piece. */
  lemma PiecesOne(lead: string, x: string)
    requires lead == "" || lead == " "
    requires Stripped(x) && Flat(x)
    ensures Pieces(lead + x) == if x == [] then [] else [x]
  {
    LeadPiece(lead, x);
    PiecesLast(lead + x);
  }

  /** Splitting flat pieces joined by `", "` gives the pieces back. */
  lemma {:induction false} PiecesJoin(xs: seq<string>, lead: string)
    requires lead == "" || lead == " "
    requires forall k :: 0 <= k < |xs| ==> xs[k] != [] && Stripped(xs[k]) && Flat(xs[k])
    ensures Pieces(lead + Join(xs, ", ")) == xs
    decreases |xs|
  {
    if xs == [] {
      PiecesOne(lead, []);
      assert lead + [] == lead;
    } else if |xs| == 1 {
      PiecesOne(lead, xs[0]);
    } else {
      var rest := Join(xs[1..], ", ");
      assert lead + Join(xs, ", ") == lead + xs[0] + ", " + rest;
      PiecesCons(lead, xs[0], rest);
      forall k | 0 <= k < |xs| - 1 ensures xs[1..][k] != [] && Stripped(xs[1..][k]) && Flat(xs[1..][k]) {
        assert xs[1..][k] == xs[k + 1];
      }
      PiecesJoin(xs[1..], " ");
      assert xs == [xs[0]] + xs[1..];
    }
  }

  /** The parameter text of `(body)ret` is `body` when only the closing `)` is a parenthesis. */
  lemma ParamTextOf(body: string, ret: string)
    requires NoParens(body) && ')' !in ret
    ensures '(' in "(" + body + ")" + ret && ')' in "(" + body + ")" + ret
    ensures ParamText("(" + body + ")" + ret) == body
  {
    var sig := "(" + body + ")" + ret;
    assert sig == [] + ['('] + (body + ")" + ret);
    SplitAtFirst([], '(', body + ")" + ret);
    var rest := body + ")" + ret;
    assert rest[|body|] == ')';
    var t := ParamText(sig);
    assert ')' in sig by {
      assert sig[|body| + 1] == ')';
    }
  }

  lemma ParseAllShown(ds: seq<Declared>)
    requires forall k :: 0 <= k < |ds| ==> Showable(ds[k])
    ensures ParseAll(ShowAll(ds)) == RecoveredAll(ds)
  {
    forall k | 0 <= k < |ds| ensures ParseParam(ShowAll(ds)[k]) == Recovered(ds[k]) {
      ParseShown(ds[k]);
    }
  }

  /** Shown parameters joined by `", "` are non-blank text when there is at least one. */
  lemma ShownBody(ds: seq<Declared>)
    requires forall k :: 0 <= k < |ds| ==> Showable(ds[k])
    ensures NoParens(Join(ShowAll(ds), ", "))
    ensures Pieces(Join(ShowAll(ds), ", ")) == ShowAll(ds)
    ensures ds != [] ==> Strip(Join(ShowAll(ds), ", ")) != []
  {
    var xs := ShowAll(ds);
    forall k | 0 <= k < |xs| ensures xs[k] != [] && Stripped(xs[k]) && Flat(xs[k]) && NoParens(xs[k]) {
      ShownShape(ds[k]);
    }
    var body := Join(xs, ", ");
    JoinNoParens(xs);
    PiecesJoin(xs, "");
    assert "" + body == body;
    if xs != [] {
      JoinStartsWith(xs, ", ");
      assert body[0] == xs[0][0];
    }
  }

  /**
   * Round trip: the parameters read off a signature as `inspect.signature` shows it,
   * `(p1, p2, ...) -> ret`, are the declared ones, in order.
   */
  lemma ParametersOfShown(ds: seq<Declared>, ret: string)
    requires forall k :: 0 <= k < |ds| ==> Showable(ds[k])
    requires ')' !in ret
    ensures Parameters("(" + Join(ShowAll(ds), ", ") + ")" + ret) == RecoveredAll(ds)
  {
    var body := Join(ShowAll(ds), ", ");
    ShownBody(ds);
    ParamTextOf(body, ret);
    ParseAllShown(ds);
  }

  /** The splitter loop of `_parse_parameters` over `t + ','`. */
  method SplitPieces(t: string) returns (pieces: seq<string>)
    ensures pieces == Pieces(t)
  {
    var u := t + ",";
    var depth, current := 0, "";
    pieces := [];
    var i := 0;
    while i < |u|
      invariant 0 <= i <= |u|
      invariant Scan(u[..i]) == Scanner(depth, current, pieces)
    {
      var c := u[i];
      assert u[..i + 1] == u[..i] + [c];
      RunSnoc(Scanner(0, "", []), u[..i], c);
      if c == ',' && depth == 0 {
        if Strip(current) != [] {
          pieces := pieces + [Strip(current)];
        }
        current := "";
      } else {
        if c == '(' {
          depth := depth + 1;
        } else if c == ')' {
          depth := depth - 1;
        }
        current := current + [c];
      }
      i := i + 1;
    }
    assert u[..|u|] == u;
  }

  /** The processing loop of `_parse_parameters`: one record per piece, in order. */
  method ProcessPieces(pieces: seq<string>) returns (ps: seq<Param>)
    ensures ps == ParseAll(pieces)
  {
    ps := [];
    var j := 0;
    while j < |pieces|
      invariant 0 <= j <= |pieces|
      invariant ps == ParseAll(pieces[..j])
    {
      assert pieces[..j + 1] == pieces[..j] + [pieces[j]];
      ps := ps + [ParseParam(pieces[j])];
      j := j + 1;
    }
    assert pieces[..j] == pieces;
  }

  /** `_parse_parameters`: the pieces of the text between the parentheses, then one record per piece. */
  method ParseParameters(sig: string) returns (ps: seq<Param>)
    ensures ps == Parameters(sig)
  {
    var pieces: seq<string> := [];
    if '(' in sig && ')' in sig {
      var t := ParamText(sig);
      if Strip(t) == [] {
        return [];
      }
      pieces := SplitPieces(t);
    }
    ps := ProcessPieces(pieces);
  }

  // ---------------------------------------------------------------------------------------
  // Binding values from the prompt (`_extract_parameter_values`)
  // ---------------------------------------------------------------------------------------

  /**
   * The value the first matching pattern of `ps` binds in `u`: its capture, stripped. The
   * first pattern that matches decides, and the later ones are not consulted.
   */
  function FirstBind(u: string, ps: seq<Pattern>): (r: Option<string>)
    ensures r.Some? ==> Stripped(r.value) && ',' !in r.value && '.' !in r.value
    ensures r.None? <==> forall k :: 0 <= k < |ps| ==> Search(ps[k], u).None?
  {
    if ps == [] then None
    else match Search(ps[0], u)
      case Some(g) =>
        StripKeepsOut(g, ',');
        StripKeepsOut(g, '.');
        Some(Strip(g))
      case None =>
        assert forall k :: 1 <= k < |ps| ==> ps[k] == ps[1..][k - 1];
        FirstBind(u, ps[1..])
  }

  /** The pattern that decides is the first one that matches; its stripped capture is the value. */
  lemma {:induction false} FirstBindDecides(u: string, ps: seq<Pattern>, k: nat)
    requires k < |ps| && Search(ps[k], u).Some?
    requires forall m :: 0 <= m < k ==> Search(ps[m], u).None?
    ensures FirstBind(u, ps) == Some(Strip(Search(ps[k], u).value))
  {
    if k > 0 {
      assert ps[1..][k - 1] == ps[k];
      forall m | 0 <= m < k - 1 ensures Search(ps[1..][m], u).None? {
        assert ps[1..][m] == ps[m + 1];
      }
      FirstBindDecides(u, ps[1..], k - 1);
    }
  }

  /** What the three phrase patterns bind for parameter `name` in `u`. */
  function Bind(u: string, name: string): (r: Option<string>)
    ensures r.Some? ==> Stripped(r.value) && ',' !in r.value && '.' !in r.value
  {
    FirstBind(u, PhrasePatterns(name))
  }

  /** The assignments the extraction loop makes, in order: one per bound parameter other than `self`. */
  function Bindings(u: string, params: seq<Param>): (kvs: seq<(string, string)>)
    ensures forall i :: 0 <= i < |kvs| ==> kvs[i].0 != "self" && Bind(u, kvs[i].0) == Some(kvs[i].1)
    ensures forall i :: 0 <= i < |kvs| ==> kvs[i].0 in Names(params)
  {
    if params == [] then []
    else
      var rest := Bindings(u, params[..|params| - 1]);
      var name := params[|params| - 1].name;
      if name != "self" && Bind(u, name).Some? then rest + [(name, Bind(u, name).value)] else rest
  }

  /** The names of a parameter list. */
  function Names(params: seq<Param>): (ns: seq<string>)
    ensures |ns| == |params| && forall i :: 0 <= i < |params| ==> ns[i] == params[i].name
  {
    seq(|params|, i requires 0 <= i < |params| => params[i].name)
  }

  /** Every parameter other than `self` that one of the patterns binds is assigned. */
  lemma {:induction false} BindingsComplete(u: string, params: seq<Param>, j: nat)
    requires j < |params| && params[j].name != "self" && Bind(u, params[j].name).Some?
    ensures params[j].name in Keys(Bindings(u, params))
  {
    var init := params[..|params| - 1];
    var kvs, rest := Bindings(u, params), Bindings(u, init);
    assert |rest| <= |kvs| && kvs[..|rest|] == rest by {
      assert kvs == rest || kvs == rest + [kvs[|kvs| - 1]];
    }
    if j < |params| - 1 {
      assert init[j] == params[j];
      BindingsComplete(u, init, j);
      var i :| 0 <= i < |rest| && Keys(rest)[i] == params[j].name;
      assert kvs[i] == rest[i];
      assert Keys(kvs)[i] == params[j].name;
    } else {
      assert Keys(kvs)[|kvs| - 1] == params[j].name;
    }
  }

  /** What `_extract_parameter_values(user_input, params)` returns. */
  function Extracted(input: Option<string>, params: seq<Param>): Dict<string> {
    if input.None? || input.value == [] || params == [] then []
    else PutAll([], Bindings(input.value, params))
  }

  /** The inner loop of `_extract_parameter_values`: the patterns in order, stopping at the first match. */
  method FirstMatch(u: string, patterns: seq<Pattern>) returns (r: Option<string>)
    ensures r == FirstBind(u, patterns)
  {
    var j := 0;
    while j < |patterns|
      invariant 0 <= j <= |patterns|
      invariant FirstBind(u, patterns) == FirstBind(u, patterns[j..])
    {
      var found := Search(patterns[j], u);
      assert patterns[j..][0] == patterns[j];
      if found.Some? {
        return Some(Strip(found.value));
      }
      assert patterns[j..][1..] == patterns[j + 1..];
      j := j + 1;
    }
    return None;
  }

  /** One more parameter: its binding, if any, is appended to those of the parameters before it. */
  lemma BindingsSnoc(u: string, params: seq<Param>, i: nat)
    requires i < |params|
    ensures Bindings(u, params[..i + 1]) ==
      if params[i].name != "self" && Bind(u, params[i].name).Some?
      then Bindings(u, params[..i]) + [(params[i].name, Bind(u, params[i].name).value)]
      else Bindings(u, params[..i])
  {
    assert params[..i + 1][..i] == params[..i];
  }

  /** The dict after one more assignment. */
  lemma PutAllSnoc(d: Dict<string>, kvs: seq<(string, string)>, k: string, v: string)
    ensures PutAll(d, kvs + [(k, v)]) == Put(PutAll(d, kvs), k, v)
  {
    assert (kvs + [(k, v)])[..|kvs|] == kvs;
  }

  /** `_extract_parameter_values`: for each parameter other than `self`, the first pattern that matches. */
  method ExtractParameterValues(input: Option<string>, params: seq<Param>) returns (values: Dict<string>)
    ensures values == Extracted(input, params)
  {
    values := [];
    if input.None? || input.value == [] || params == [] {
      return;
    }
    var u := input.value;
    for i := 0 to |params|
      invariant values == PutAll([], Bindings(u, params[..i]))
    {
      var name := params[i].name;
      BindingsSnoc(u, params, i);
      if name != "self" {
        var found := FirstMatch(u, PhrasePatterns(name));
        if found.Some? {
          PutAllSnoc([], Bindings(u, params[..i]), name, found.value);
          values := Put(values, name, found.value);
        }
      }
    }
    assert params[..|params|] == params;
  }

  /**
   * A parameter gets a value exactly when the prompt is non-empty, the parameter is not
   * `self` and one of its three patterns matches; the value is the one that pattern binds.
   * So the keys are parameter names, and `self` is never one of them.
   */
  lemma ExtractedGet(input: Option<string>, params: seq<Param>, k: string)
    ensures Get(Extracted(input, params), k) ==
      if input.Some? && input.value != [] && k != "self" && k in Names(params)
      then Bind(input.value, k) else None
  {
    if input.Some? && input.value != [] && params != [] {
      var u := input.value;
      var kvs := Bindings(u, params);
      PutAllGet([], kvs, k);
      if k != "self" && k in Names(params) && Bind(u, k).Some? {
        var j :| 0 <= j < |params| && params[j].name == k;
        BindingsComplete(u, params, j);
      }
    }
  }

  // ---------------------------------------------------------------------------------------
  // Rendering keyword arguments (`_format_arguments`)
  // ---------------------------------------------------------------------------------------

  /** `value.capitalize()` of a value that reads `true`, `false` or `none` in any case. */
  lemma CapitalizeKeyword(v: string, word: string)
    requires word in ["true", "false", "none"] && LowerStr(v) == word
    ensures Capitalize(v) == [Upper(word[0])] + word[1..]
  {
    assert |v| == |word| && v != [];
    assert Lower(v[0]) == word[0];
    assert LowerStr(v[1..]) == LowerStr(v)[1..];
  }

  /**
   * One keyword argument: digits bare, `true`/`false`/`none` in any case as the Python
   * constant, anything else in double quotes with no escaping.
   */
  function RenderArg(name: string, value: string): (r: string)
    ensures IsDigits(value) ==> r == name + "=" + value
    ensures !IsDigits(value) && LowerStr(value) == "true" ==> r == name + "=True"
    ensures !IsDigits(value) && LowerStr(value) == "false" ==> r == name + "=False"
    ensures !IsDigits(value) && LowerStr(value) == "none" ==> r == name + "=None"
    ensures !IsDigits(value) && LowerStr(value) !in ["true", "false", "none"] ==>
      r == name + "=\"" + value + "\""
  {
    if IsDigits(value) then name + "=" + value
    else if LowerStr(value) in ["true", "false", "none"] then
      CapitalizeKeyword(value, LowerStr(value));
      name + "=" + Capitalize(value)
    else name + "=\"" + value + "\""
  }

  function RenderAll(d: Dict<string>): (r: seq<string>)
    ensures |r| == |d| && forall i :: 0 <= i < |d| ==> r[i] == RenderArg(d[i].0, d[i].1)
  {
    seq(|d|, i requires 0 <= i < |d| => RenderArg(d[i].0, d[i].1))
  }

  /** What `_format_arguments(param_values)` returns: the rendered pairs, in order, joined by `", "`. */
  function Arguments(d: Dict<string>): (r: string)
    ensures d == [] ==> r == ""
    ensures 0 < |d| ==> StartsWith(r, RenderArg(d[0].0, d[0].1))
  {
    var args := RenderAll(d);
    if 0 < |d| then JoinStartsWith(args, ", "); Join(args, ", ") else Join(args, ", ")
  }

  /** Every pair appears rendered in the argument text. */
  lemma ArgumentsMention(d: Dict<string>, i: nat)
    requires i < |d|
    ensures Contains(Arguments(d), RenderArg(d[i].0, d[i].1))
  {
    JoinContains(RenderAll(d), ", ", i);
  }

  /** `_format_arguments`: render each pair in insertion order, then join. */
  method FormatArguments(d: Dict<string>) returns (r: string)
    ensures r == Arguments(d)
  {
    var args: seq<string> := [];
    var i := 0;
    while i < |d|
      invariant 0 <= i <= |d|
      invariant args == RenderAll(d[..i])
    {
      var (name, value) := d[i];
      var arg: string;
      if IsDigits(value) {
        arg := name + "=" + value;
      } else if LowerStr(value) in ["true", "false", "none"] {
        arg := name + "=" + Capitalize(value);
      } else {
        arg := name + "=\"" + value + "\"";
      }
      assert d[..i + 1] == d[..i] + [d[i]];
      args := args + [arg];
      i := i + 1;
    }
    assert d[..i] == d;
    r := Join(args, ", ");
  }

  // ---------------------------------------------------------------------------------------
  // The script template (`generate_function_code`)
  // ---------------------------------------------------------------------------------------

  /** The fixed lines of the script between the import and the call. */
  const TemplateHead: seq<string> := ["", "def main():", "    try:", "        # Execute the function"]

  /** The lines of the tail that print the result or the error; their braces are literal. */
  const StatusPrint: string := "            print(f\"Function executed {status}.\")"
  const ItemPrint: string := "                print(f\"  {key}: {value}\")"
  const ResultPrint: string := "            print(f\"Result: {result}\")"
  const ErrorPrint: string := "        print(f\"Error executing function: {e}\")"

  /** The fixed lines of the script after the call. */
  const TemplateTail: seq<string> := [
    "        ",
    "        # Handle the result",
    "        if result is None:",
    "            print(\"Function executed successfully with no return value.\")",
    "        elif isinstance(result, bool):",
    "            status = \"successfully\" if result else \"with issues\"",
    "\"",
    StatusPrint,
    "        elif isinstance(result, dict):",
    "            print(\"Function result:\")",
    "            for key, value in result.items():",
    ItemPrint,
    "        else:",
    ResultPrint,
    "            ",
    "    except Exception as e:",
    ErrorPrint,
    "",
    "if __name__ == \"__main__\":",
    "    main()"]

  /**
   * The lines of the generated script. The part after the `status = ...` line is a raw string
   * that begins with a stray `"` and is not interpolated, so its braces stay literal.
   */
  function TemplateLines(moduleName: string, name: string, args: string): (ls: seq<string>)
    ensures |ls| == 26
  {
    ["from app.functions." + moduleName + " import " + name] + TemplateHead + ["        result = " + name + "(" + args + ")"] + TemplateTail
  }

  /** The generated script: the template lines, each ended by a newline. */
  function FunctionCode(moduleName: string, name: string, args: string): string {
    Join(TemplateLines(moduleName, name, args), "\n") + "\n"
  }

  /** Line `k` of the template occurs in the script. */
  lemma CodeHasLine(moduleName: string, name: string, args: string, k: nat)
    requires k < 26
    ensures Contains(FunctionCode(moduleName, name, args), TemplateLines(moduleName, name, args)[k])
  {
    LinesContain(TemplateLines(moduleName, name, args), k);
  }

  /** A piece of line `k` of the template occurs in the script. */
  lemma CodeHasPiece(moduleName: string, name: string, args: string, k: nat, pre: string, u: string, post: string)
    requires k < 26 && TemplateLines(moduleName, name, args)[k] == pre + u + post
    ensures Contains(FunctionCode(moduleName, name, args), u)
  {
    CodeHasLine(moduleName, name, args, k);
    ContainsMiddle(pre, u, post);
    ContainsInside2(FunctionCode(moduleName, name, args), pre + u + post, u);
  }

  /** The script's first line imports the function from its module. */
  lemma CodeImports(moduleName: string, name: string, args: string)
    ensures StartsWith(FunctionCode(moduleName, name, args), "from app.functions." + moduleName + " import " + name)
  {
    var ls := TemplateLines(moduleName, name, args);
    var code := FunctionCode(moduleName, name, args);
    JoinStartsWith(ls, "\n");
    assert code[..|ls[0]|] == Join(ls, "\n")[..|ls[0]|];
  }

  /** The script calls the function with the rendered arguments. */
  lemma CodeCalls(moduleName: string, name: string, args: string)
    ensures Contains(FunctionCode(moduleName, name, args), "        result = " + name + "(" + args + ")")
  {
    CodeHasLine(moduleName, name, args, 5);
  }

  /** The raw part of the template is not interpolated: its placeholders appear literally. */
  lemma CodePlaceholders(moduleName: string, name: string, args: string)
    ensures Contains(FunctionCode(moduleName, name, args), "{status}")
    ensures Contains(FunctionCode(moduleName, name, args), "{key}")
    ensures Contains(FunctionCode(moduleName, name, args), "{value}")
    ensures Contains(FunctionCode(moduleName, name, args), "{result}")
    ensures Contains(FunctionCode(moduleName, name, args), "{e}")
  {
    StatusPlaceholder(moduleName, name, args);
    ItemPlaceholders(moduleName, name, args);
    ResultPlaceholder(moduleName, name, args);
    ErrorPlaceholder(moduleName, name, args);
  }

  /** The boolean branch prints `{status}` literally. */
  lemma StatusPlaceholder(moduleName: string, name: string, args: string)
    ensures Contains(FunctionCode(moduleName, name, args), "{status}")
  {
    TailHasPiece(moduleName, name, args, 7, "            print(f\"Function executed ", "{status}", ".\")");
  }

  /** The dictionary branch prints `{key}` and `{value}` literally. */
  lemma ItemPlaceholders(moduleName: string, name: string, args: string)
    ensures Contains(FunctionCode(moduleName, name, args), "{key}")
    ensures Contains(FunctionCode(moduleName, name, args), "{value}")
  {
    TailHasPiece(moduleName, name, args, 11, "                print(f\"  ", "{key}", ": {value}\")");
    TailHasPiece(moduleName, name, args, 11, "                print(f\"  {key}: ", "{value}", "\")");
  }

  /** The fallback branch prints `{result}` literally. */
  lemma ResultPlaceholder(moduleName: string, name: string, args: string)
    ensures Contains(FunctionCode(moduleName, name, args), "{result}")
  {
    TailHasPiece(moduleName, name, args, 13, "            print(f\"Result: ", "{result}", "\")");
  }

  /** The error handler prints `{e}` literally. */
  lemma ErrorPlaceholder(moduleName: string, name: string, args: string)
    ensures Contains(FunctionCode(moduleName, name, args), "{e}")
  {
    TailHasPiece(moduleName, name, args, 16, "        print(f\"Error executing function: ", "{e}", "\")");
  }

  /** A piece of line `k` of the fixed tail occurs in the script. */
  lemma TailHasPiece(moduleName: string, name: string, args: string, k: nat, pre: string, u: string, post: string)
    requires k < |TemplateTail| && TemplateTail[k] == pre + u + post
    ensures Contains(FunctionCode(moduleName, name, args), u)
  {
    assert TemplateLines(moduleName, name, args)[6 + k] == TemplateTail[k];
    CodeHasPiece(moduleName, name, args, 6 + k, pre, u, post);
  }

  lemma ContainsInside2(s: string, line: string, u: string)
    requires Contains(s, line) && Contains(line, u)
    ensures Contains(s, u)
  {
    var i :| 0 <= i <= |s| && OccursAt(s, i, line);
    assert s == s[..i] + line + s[i + |line|..];
    ContainsInside(s[..i], line, s[i + |line|..], u);
  }

  /** `generate_function_code(function_info, user_input)`: parse, bind, render, fill the template. */
  method GenerateFunctionCode(meta: Metadata, input: Option<string>) returns (code: string)
    ensures code == FunctionCode(meta.moduleName, meta.name, Arguments(Extracted(input, Parameters(meta.signature))))
    ensures StartsWith(code, "from app.functions." + meta.moduleName + " import " + meta.name)
  {
    var params := ParseParameters(meta.signature);
    var values := ExtractParameterValues(input, params);
    var args := FormatArguments(values);
    code := FunctionCode(meta.moduleName, meta.name, args);
    CodeImports(meta.moduleName, meta.name, args);
  }

  // Worked example: a comma inside a default value's parentheses does not split.

  /** A blank, then a stripped stretch that is balanced and has no depth-0 comma: one piece. */
  lemma BlankPiece(x: string)
    requires x != [] && Stripped(x) && Balance(" " + x) == 0 && NoTopComma(" " + x, 0)
    ensures Pieces(" " + x) == [x]
  {
    PiecesLast(" " + x);
    StripAround(" ", x, "");
    assert " " + x + "" == " " + x;
  }

  lemma NestedTail(y: string)
    requires y == " d=f(a, b)"
    ensures Pieces(y) == ["d=f(a, b)"]
  {
    ParenGroup(" d=f", "a, b", "");
    assert " d=f" + "(" + "a, b" + ")" + "" == y;
    assert y == " " + y[1..];
    BlankPiece(y[1..]);
  }

  lemma NestedHead(x: string)
    requires x == "a"
    ensures Balance(x) == 0 && NoTopComma(x, 0) && Kept(x) == ["a"]
  {
    assert Strip(x) == "a";
  }

  /** `a, d=f(a, b)` splits into two pieces, the second keeping its inner comma. */
  lemma NestedPieces(t: string)
    requires t == "a, d=f(a, b)"
    ensures Pieces(t) == ["a", "d=f(a, b)"]
  {
    var x, y := "a", " d=f(a, b)";
    assert t == x + "," + y;
    NestedHead(x);
    NestedTail(y);
    PiecesSplit(x, y);
  }

  // Worked example: "set count to 5" against the signature `(count)`.

  /** When the first two phrase patterns miss, the third decides the binding. */
  lemma FirstBindThird(u: string, ps: seq<Pattern>, g: string)
    requires |ps| == 3 && Search(ps[0], u).None? && Search(ps[1], u).None? && Search(ps[2], u) == Some(g)
    ensures FirstBind(u, ps) == Some(Strip(g))
  {
    FirstBindDecides(u, ps, 2);
  }

  lemma SetCountSearches(s: string, n: string, v: string, ps: seq<Pattern>)
    requires s == "set count to 5" && n == "count" && v == "5" && ps == PhrasePatterns(n)
    ensures Search(ps[0], s).None? && Search(ps[1], s).None? && Search(ps[2], s) == Some(v)
  {
    SetCountWithNone(s);
    SetCountIsNone(s);
    SetCountSetFive(s);
  }

  /** Only the third phrase pattern binds `count`, to `"5"`. */
  lemma SetCountBinds(s: string, n: string, v: string)
    requires s == "set count to 5" && n == "count" && v == "5"
    ensures Bind(s, n) == Some(v)
  {
    var ps := PhrasePatterns(n);
    SetCountSearches(s, n, v, ps);
    FirstBindThird(s, ps, v);
    assert IsDigit(v[0]);
    StripDigits(v);
  }

  lemma SetCountBindings(s: string, n: string, v: string)
    requires s == "set count to 5" && n == "count" && v == "5"
    ensures Bindings(s, [Param(n, false, None)]) == [(n, v)]
  {
    SetCountBinds(s, n, v);
    var params := [Param(n, false, None)];
    assert params[..0] == [];
  }

  /** A single all-digit binding renders bare. */
  lemma ArgumentsDigits(k: string, v: string)
    requires IsDigits(v)
    ensures Arguments([(k, v)]) == k + "=" + v
  {
    assert RenderAll([(k, v)]) == [k + "=" + v];
  }

  /** One assignment into an empty dict. */
  lemma PutAllOne(k: string, v: string)
    ensures PutAll([], [(k, v)]) == [(k, v)]
  {
    PutAllSnoc([], [], k, v);
    assert [] + [(k, v)] == [(k, v)];
    assert Keys<string>([]) == [];
  }

  /** The generated call for that request passes `count=5` unquoted, since the value is all digits. */
  lemma SetCountArguments(s: string, n: string, v: string)
    requires s == "set count to 5" && n == "count" && v == "5"
    ensures Extracted(Some(s), [Param(n, false, None)]) == [(n, v)]
    ensures Arguments(Extracted(Some(s), [Param(n, false, None)])) == n + "=" + v
  {
    SetCountBindings(s, n, v);
    PutAllOne(n, v);
    assert Extracted(Some(s), [Param(n, false, None)]) == PutAll([], Bindings(s, [Param(n, false, None)]));
    assert IsDigit(v[0]);
    ArgumentsDigits(n, v);
  }
}
