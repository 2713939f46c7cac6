/**
 * The per-session memory: a bounded interaction history, a key/value scratch map and
 * a textual summary of the latest turns. The session file on disk is a ghost snapshot
 * that every mutating method brings up to date.
 */
module Context {
  import opened Wrappers
  import opened Text
  import opened Values

  /** One entry of `interaction_history`: the four keys of the record `add_interaction` builds. */
  datatype Interaction = Interaction(timestamp: string, userQuery: string, response: Value, metadata: map<string, Value>)

  /**
   * What `sessions/<id>.json` held when the context was built: no file, a file that does not
   * load (unreadable, not JSON, not a JSON object), or a JSON object whose `history` and `data`
   * keys may each be missing.
   */
  datatype Stored =
    | NoFile
    | Unreadable
    | Saved(history: Option<seq<Interaction>>, data: Option<map<string, Value>>)

  /** The `max_history` used when the caller gives none. */
  const DefaultMaxHistory: int := 10

  /** The summary of an empty history. */
  const NoInteractions: string := "No previous interactions."

  /** The history `_load_session` leaves: the saved one, or empty when none loads. */
  function LoadedHistory(stored: Stored): (h: seq<Interaction>)
    ensures stored.Saved? && stored.history.Some? ==> h == stored.history.value
    ensures !(stored.Saved? && stored.history.Some?) ==> h == []
  {
    if stored.Saved? then stored.history.GetOr([]) else []
  }

  /** The scratch map `_load_session` leaves: the saved one, or empty when none loads. */
  function LoadedData(stored: Stored): (d: map<string, Value>)
    ensures stored.Saved? && stored.data.Some? ==> d == stored.data.value
    ensures !(stored.Saved? && stored.data.Some?) ==> d == map[]
  {
    if stored.Saved? then stored.data.GetOr(map[]) else map[]
  }

  /** Where Python's `h[start:]` begins, for a possibly negative `start`. */
  function SliceStart(start: int, n: nat): (k: nat)
    ensures k <= n
    ensures start >= 0 ==> k == if start <= n then start else n
    ensures start < 0 ==> k == if n + start >= 0 then n + start else 0
  {
    if start >= 0 then (if start <= n then start else n)
    else if n + start >= 0 then n + start else 0
  }

  function Min(a: int, b: int): int {
    if a <= b then a else b
  }

  /**
   * The history trimming of `add_interaction`: when longer than `m`, keep `h[-m:]`.
   * For `m >= 1` that is the newest `min(|h|, m)` entries in order; at `m == 0` the
   * slice `h[-0:]` is the whole history.
   */
  function Bounded<T>(h: seq<T>, m: int): (r: seq<T>)
    ensures m >= 1 ==> |r| == Min(|h|, m) && r == h[|h| - |r|..]
    ensures m == 0 ==> r == h
    ensures |h| <= m ==> r == h
  {
    if |h| > m then h[SliceStart(-m, |h|)..] else h
  }

  /** The history after appending each of `xs` in turn, trimming after each append. */
  function Appended<T>(h: seq<T>, xs: seq<T>, m: int): seq<T>
    decreases |xs|
  {
    if xs == [] then h
    else Bounded(Appended(h, xs[..|xs| - 1], m) + [xs[|xs| - 1]], m)
  }

  /** Trimming again after one more append still keeps exactly the newest entries. */
  lemma BoundedSnoc<T>(s: seq<T>, x: T, m: int)
    requires m >= 1
    ensures Bounded(Bounded(s, m) + [x], m) == Bounded(s + [x], m)
  {
    var b := Bounded(s, m);
    var a := |s| - |b|;
    var c := |b| + 1 - Min(|b| + 1, m);
    assert b == s[a..];
    assert b + [x] == (s + [x])[a..];
    assert Bounded(b + [x], m) == (b + [x])[c..];
    assert (s + [x])[a..][c..] == (s + [x])[a + c..];
    assert a + c == |s + [x]| - Min(|s + [x]|, m);
  }

  /**
   * FIFO trimming: starting from an empty history, appending `xs` one by one with
   * `max_history = m >= 1` keeps the newest `min(|xs|, m)` of them, in order.
   */
  lemma {:induction false} AppendedKeepsNewest<T>(xs: seq<T>, m: int)
    requires m >= 1
    ensures Appended([], xs, m) == Bounded(xs, m)
    decreases |xs|
  {
    if xs != [] {
      var ys, x := xs[..|xs| - 1], xs[|xs| - 1];
      assert ys + [x] == xs;
      calc {
        Appended([], xs, m);
        Bounded(Appended([], ys, m) + [x], m);
        { AppendedKeepsNewest(ys, m); }
        Bounded(Bounded(ys, m) + [x], m);
        { BoundedSnoc(ys, x, m); }
        Bounded(xs, m);
      }
    }
  }

  /** Eleven appends at the default maximum of ten keep the second through the eleventh. */
  lemma ElevenAppends<T>(xs: seq<T>)
    requires |xs| == 11
    ensures Appended([], xs, DefaultMaxHistory) == xs[1..]
  {
    AppendedKeepsNewest(xs, DefaultMaxHistory);
  }

  /** `get_data(key, default)`: the stored value, or the supplied default. */
  function Lookup(data: map<string, Value>, key: string, default: Value): (v: Value)
    ensures key in data ==> v == data[key]
    ensures key !in data ==> v == default
  {
    if key in data then data[key] else default
  }

  /** `get_data` after `set_data`: the key just stored reads back, every other key is as before. */
  lemma LookupAfterStore(data: map<string, Value>, key: string, value: Value, k: string, default: Value)
    ensures Lookup(data[key := value], k, default) == if k == key then value else Lookup(data, k, default)
  {
  }

  /** The `System:` line of the summary for one recorded response. */
  function SystemLine(response: Value): (line: string)
    ensures response.Record? && "function" in response.fields ==>
      line == "System: Used function '" + Show(response.fields["function"]) + "'"
    ensures response.Record? && "function" !in response.fields && "error" in response.fields ==>
      line == "System: Error - " + Show(response.fields["error"])
    ensures !(response.Record? && ("function" in response.fields || "error" in response.fields)) ==>
      line == "System: Response provided"
  {
    match response
    case Record(f) =>
      if "function" in f then "System: Used function '" + Show(f["function"]) + "'"
      else if "error" in f then "System: Error - " + Show(f["error"])
      else "System: Response provided"
    case _ => "System: Response provided"
  }

  /** The four summary lines of the `n`-th interaction of the window. */
  function Block(n: nat, x: Interaction, clock: string -> string): (ls: seq<string>)
    ensures |ls| == 4 && ls[3] == "---"
    ensures StartsWith(ls[0], "Interaction ")
  {
    ["Interaction " + NatText(n) + " (" + clock(x.timestamp) + "):",
     "User: " + x.userQuery,
     SystemLine(x.response),
     "---"]
  }

  /** The summary lines of a window, numbered from 1. */
  function Blocks(w: seq<Interaction>, clock: string -> string): (ls: seq<string>)
    ensures |ls| == 4 * |w|
    decreases |w|
  {
    if w == [] then [] else Blocks(w[..|w| - 1], clock) + Block(|w|, w[|w| - 1], clock)
  }

  /** Lines `4i` to `4i + 3` of the summary lines are the block of interaction `i + 1`. */
  lemma {:induction false} BlocksAt(w: seq<Interaction>, clock: string -> string, i: nat)
    requires i < |w|
    ensures Blocks(w, clock)[4 * i..4 * i + 4] == Block(i + 1, w[i], clock)
    decreases |w|
  {
    var front := Blocks(w[..|w| - 1], clock);
    if i < |w| - 1 {
      BlocksAt(w[..|w| - 1], clock, i);
      assert Blocks(w, clock)[4 * i..4 * i + 4] == front[4 * i..4 * i + 4];
    } else {
      assert Blocks(w, clock)[4 * i..4 * i + 4] == Block(|w|, w[|w| - 1], clock);
    }
  }

  /** `history[-3:]`: the newest three interactions, or all of them when fewer. */
  function Window(h: seq<Interaction>): (w: seq<Interaction>)
    ensures |w| == Min(|h|, 3) && w == h[|h| - |w|..]
  {
    h[SliceStart(-3, |h|)..]
  }

  /** What `get_context_summary` returns for a history. */
  function Summary(h: seq<Interaction>, clock: string -> string): string {
    if h == [] then NoInteractions else Join(Blocks(Window(h), clock), "\n")
  }

  /** The summary is the fixed sentence exactly when there is no history. */
  lemma SummaryEmpty(h: seq<Interaction>, clock: string -> string)
    ensures Summary(h, clock) == NoInteractions <==> h == []
  {
    if h != [] {
      var ls := Blocks(Window(h), clock);
      BlocksAt(Window(h), clock, 0);
      assert ls[0..4] == Block(1, Window(h)[0], clock);
      JoinStartsWith(ls, "\n");
      assert Summary(h, clock)[0] == ls[0][0] == 'I';
    }
  }

  /** A non-empty summary covers only the newest `min(3, n)` interactions, four lines each. */
  lemma SummaryShape(h: seq<Interaction>, clock: string -> string, i: nat)
    requires h != [] && i < Min(|h|, 3)
    ensures |Blocks(Window(h), clock)| == 4 * Min(|h|, 3)
    ensures Blocks(Window(h), clock)[4 * i..4 * i + 4] == Block(i + 1, h[|h| - Min(|h|, 3) + i], clock)
  {
    BlocksAt(Window(h), clock, i);
  }

  /** The newest interaction's `System:` line appears in the summary. */
  lemma SummaryMentionsNewest(h: seq<Interaction>, clock: string -> string)
    requires h != []
    ensures Contains(Summary(h, clock), SystemLine(h[|h| - 1].response))
  {
    var w := Window(h);
    var ls := Blocks(w, clock);
    var k := |w| - 1;
    BlocksAt(w, clock, k);
    assert ls[4 * k..4 * k + 4] == Block(k + 1, w[k], clock);
    assert ls[4 * k + 2] == SystemLine(w[k].response);
    JoinContains(ls, "\n", 4 * k + 2);
  }

  /** A session's memory: the fields of `SessionContext`, with the session file as a ghost snapshot. */
  class SessionContext {
    var sessionId: string
    var maxHistory: int
    var history: seq<Interaction>
    var data: map<string, Value>
    /** The contents of this session's file on disk. */
    ghost var saved: Stored

    /** The file on disk holds the current history and data. */
    ghost predicate Persisted()
      reads this
    {
      saved == Saved(Some(history), Some(data))
    }

    /**
     * `SessionContext(session_id, max_history)`: an empty or missing id is replaced by
     * `session_` followed by `stamp`, the time formatted as `%Y%m%d%H%M%S`; then whatever
     * the session file holds is loaded.
     */
    constructor (sessionId: Option<string>, maxHistory: int, stamp: string, stored: Stored)
      ensures this.sessionId == if sessionId.Some? && sessionId.value != [] then sessionId.value else "session_" + stamp
      ensures this.maxHistory == maxHistory
      ensures history == LoadedHistory(stored) && data == LoadedData(stored)
      ensures saved == stored
    {
      this.sessionId := if sessionId.Some? && sessionId.value != [] then sessionId.value else "session_" + stamp;
      this.maxHistory := maxHistory;
      history := LoadedHistory(stored);
      data := LoadedData(stored);
      saved := stored;
    }

    /** `add_interaction`: append one record stamped `now`, trim to `max_history`, save. */
    method AddInteraction(userQuery: string, response: Value, metadata: Option<map<string, Value>>, now: string)
      modifies this
      ensures history == Bounded(old(history) + [Interaction(now, userQuery, response, metadata.GetOr(map[]))], maxHistory)
      ensures sessionId == old(sessionId) && maxHistory == old(maxHistory) && data == old(data)
      ensures Persisted()
    {
      var interaction := Interaction(now, userQuery, response, if metadata.Some? then metadata.value else map[]);
      history := history + [interaction];
      if |history| > maxHistory {
        history := history[SliceStart(-maxHistory, |history|)..];
      }
      saved := Saved(Some(history), Some(data));
    }

    /** `set_data`: store one key and save; the history is untouched. */
    method SetData(key: string, value: Value)
      modifies this
      ensures data == old(data)[key := value]
      ensures sessionId == old(sessionId) && maxHistory == old(maxHistory) && history == old(history)
      ensures Lookup(data, key, Null) == value
      ensures Persisted()
    {
      data := data[key := value];
      saved := Saved(Some(history), Some(data));
    }

    /** `get_data(key, default)`. */
    function GetData(key: string, default: Value): (v: Value)
      reads this
      ensures key in data ==> v == data[key]
      ensures key !in data ==> v == default
    {
      Lookup(data, key, default)
    }

    /** `get_context_summary`: the fixed sentence, or four lines per interaction of the window. */
    method GetContextSummary(clock: string -> string) returns (summary: string)
      ensures summary == Summary(history, clock)
      ensures summary == NoInteractions <==> history == []
    {
      SummaryEmpty(history, clock);
      if history == [] {
        return NoInteractions;
      }
      var window := history[SliceStart(-3, |history|)..];
      var lines: seq<string> := [];
      for i := 0 to |window|
        invariant lines == Blocks(window[..i], clock)
      {
        var x := window[i];
        lines := lines + Block(i + 1, x, clock);
        assert window[..i + 1][..i] == window[..i] && window[..i + 1][i] == x;
      }
      assert window[..|window|] == window;
      summary := Join(lines, "\n");
    }
  }
}
