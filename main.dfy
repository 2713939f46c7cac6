/**
 * The HTTP layer: the session store, the `/execute` request that turns a prompt into a
 * matched function, generated code, an optional run and one recorded turn, and the
 * `/functions` and `/health` listings. The vector search is a parameter.
 */
module Api {
  import opened Wrappers
  import opened Text
  import opened Dicts
  import opened Values
  import CodeGenerator
  import opened Context
  import opened Registry

  /** What the vector search returned: a falsy result, or the `metadatas` lists of its hits. */
  datatype SearchResult = NoResult | Found(metadatas: seq<seq<Metadata>>)

  /** The reply of `/execute`: the response model, or an HTTP error with its detail text. */
  datatype Response =
    | Ok(functionId: string, code: string, executionResult: Option<Value>, context: string)
    | Failed(status: nat, detail: string)

  /** One entry of the `/functions` listing. */
  datatype Listing = Listing(id: string, name: string, moduleName: string, signature: string, description: string)

  /** The phrase whose presence in the summary means "no context to add". */
  const ContextMarker: string := "No previous interactions"

  /** What joins the prompt and the summary in the search prompt. */
  const ContextHeader: string := "\nContext from previous interactions:\n"

  /** The detail of the 500 raised for a search without hits: `str()` of the inner 404. */
  const NoMatchDetail: string := "404: No matching function found"

  /** The session key of a request: the `session_id` query parameter, or a fresh `session_<uuid>`. */
  function SessionKey(query: Option<string>, uuid: string): (id: string)
    ensures query.Some? && query.value != [] ==> id == query.value
    ensures !(query.Some? && query.value != []) ==> id == "session_" + uuid
    ensures id != []
  {
    if query.Some? && query.value != [] then query.value else "session_" + uuid
  }

  /** The search prompt: the request prompt, followed by the summary when it has something to say. */
  function EnhancedPrompt(prompt: string, summary: string): (p: string)
    ensures summary == [] || Contains(summary, ContextMarker) ==> p == prompt
    ensures summary != [] && !Contains(summary, ContextMarker) ==>
      p == prompt + ContextHeader + summary && StartsWith(p, prompt) && |p| > |prompt|
  {
    if summary != [] && !Contains(summary, ContextMarker) then prompt + ContextHeader + summary else prompt
  }

  /** A session without history searches with the bare prompt. */
  lemma FreshSessionPlainPrompt(prompt: string, clock: string -> string)
    ensures EnhancedPrompt(prompt, Summary([], clock)) == prompt
  {
    assert NoInteractions == [] + ContextMarker + ".";
    ContainsMiddle([], ContextMarker, ".");
  }

  /** `search_results['metadatas'][0][0]`, or nothing when the search has no usable hit. */
  function TopMatch(r: SearchResult): (m: Option<Metadata>)
    ensures m.None? <==> r.NoResult? || r.metadatas == [] || r.metadatas[0] == []
    ensures m.Some? ==> m.value == r.metadatas[0][0]
  {
    if r.NoResult? || r.metadatas == [] || r.metadatas[0] == [] then None else Some(r.metadatas[0][0])
  }

  /** The id of a matched function: `<module>.<name>`. */
  function FunctionId(meta: Metadata): string {
    meta.moduleName + "." + meta.name
  }

  /** The response recorded for a turn: `{'function': id, 'execution_result': result}`. */
  function Recorded(id: string, result: Option<Value>): (v: Value)
    ensures v.Record? && "function" in v.fields && v.fields["function"] == Text(id)
    ensures "execution_result" in v.fields && v.fields["execution_result"] == result.GetOr(Null)
  {
    Record(map["function" := Text(id), "execution_result" := result.GetOr(Null)])
  }

  /** After a successful request the summary names the function it used. */
  lemma ServedTurnSummarised(h: seq<Interaction>, m: int, now: string, prompt: string, id: string, result: Option<Value>, clock: string -> string)
    requires m >= 0
    ensures Contains(Summary(Bounded(h + [Interaction(now, prompt, Recorded(id, result), map[])], m), clock),
      "System: Used function '" + id + "'")
  {
    var x := Interaction(now, prompt, Recorded(id, result), map[]);
    var b := Bounded(h + [x], m);
    assert b != [] && b[|b| - 1] == x;
    SummaryMentionsNewest(b, clock);
    assert SystemLine(x.response) == "System: Used function '" + id + "'";
  }

  /** The listing of one registered function, its id split on the dot. */
  function ListingOf(id: string, f: Fn): (l: Listing)
    requires '.' in id
    ensures l.moduleName + "." + l.name == id
    ensures l.description == Description(l.name, f.doc)
  {
    var name := AfterChar(id, '.');
    Listing(id, name, BeforeChar(id, '.'), f.signature, Description(name, f.doc))
  }

  /** `module, name = function_id.split('.')` succeeds: the id has exactly one dot. */
  predicate OneDot(id: string) {
    '.' in id && '.' !in AfterChar(id, '.')
  }

  /** The `/functions` listing: one entry per id, or a failure when some id does not have exactly one dot. */
  function Listings(d: Dict<Fn>): (r: Option<seq<Listing>>)
    ensures r.Some? <==> forall i :: 0 <= i < |d| ==> OneDot(d[i].0)
    ensures r.Some? ==> |r.value| == |d| && forall i :: 0 <= i < |d| ==> r.value[i] == ListingOf(d[i].0, d[i].1)
  {
    if forall i :: 0 <= i < |d| ==> OneDot(d[i].0)
    then Some(seq(|d|, i requires 0 <= i < |d| => ListingOf(d[i].0, d[i].1)))
    else None
  }

  /** One id without exactly one dot fails the whole listing. */
  lemma ListingsFail(d: Dict<Fn>, i: nat)
    requires i < |d| && !OneDot(d[i].0)
    ensures Listings(d) == None
  {
  }

  /** A listing built entry by entry is the listing. */
  lemma ListingsAll(d: Dict<Fn>, listed: seq<Listing>)
    requires |listed| == |d| && forall k :: 0 <= k < |d| ==> OneDot(d[k].0) && listed[k] == ListingOf(d[k].0, d[k].1)
    ensures Listings(d) == Some(listed)
  {
    assert Listings(d).value == listed;
  }

  /**
   * With dot-free module and function names, the listing of a freshly populated registry
   * never fails, and each entry names a module and one of its public functions.
   */
  lemma ListingOfPopulated(mods: seq<Module>, i: nat)
    requires Dotless(mods) && i < |Populated([], mods)|
    ensures Listings(Populated([], mods)).Some?
    ensures var l := Listings(Populated([], mods)).value[i];
      exists a, b :: (0 <= a < |mods| && 0 <= b < |mods[a].members| &&
        l.moduleName == mods[a].name && l.name == mods[a].members[b].name)
  {
    var d := Populated([], mods);
    forall k | 0 <= k < |d| ensures OneDot(d[k].0) {
      assert d[k].0 in Keys(d);
      RegisteredIdSplits(mods, d[k].0);
    }
    assert d[i].0 in Keys(d);
    RegisteredIdSplits(mods, d[i].0);
  }

  /** `/health`: a constant status. */
  function HealthCheck(): (v: Value)
    ensures v.Record? && v.fields.Keys == {"status", "version"}
    ensures v.fields["status"] == Text("healthy") && v.fields["version"] == Text("1.0.0")
  {
    Record(map["status" := Text("healthy"), "version" := Text("1.0.0")])
  }

  /** The top hit of the search made for `prompt` on a session with history `h`. */
  function Top(prompt: string, h: seq<Interaction>, search: string -> SearchResult, clock: string -> string): Option<Metadata> {
    TopMatch(search(EnhancedPrompt(prompt, Summary(h, clock))))
  }

  /** The code generated for a matched function from the original (not the enhanced) prompt. */
  function Generated(meta: Metadata, prompt: string): string {
    CodeGenerator.FunctionCode(meta.moduleName, meta.name,
      CodeGenerator.Arguments(CodeGenerator.Extracted(Some(prompt), CodeGenerator.Parameters(meta.signature))))
  }

  /** The application: the global session store and the registry built at start-up. */
  class App {
    var sessions: map<string, SessionContext>
    const registry: FunctionRegistry

    constructor (registry: FunctionRegistry)
      ensures sessions == map[] && this.registry == registry
    {
      sessions := map[];
      this.registry := registry;
    }

    /**
     * `get_session`: the session stored under the request's key, created (and loaded from
     * `stored`, the file for that key) when the key is new. Existing sessions are never replaced.
     */
    method GetSession(query: Option<string>, uuid: string, stored: Stored) returns (session: SessionContext)
      modifies this
      ensures SessionKey(query, uuid) in sessions && session == sessions[SessionKey(query, uuid)]
      ensures SessionKey(query, uuid) in old(sessions) ==> sessions == old(sessions)
      ensures SessionKey(query, uuid) !in old(sessions) ==>
        (sessions == old(sessions)[SessionKey(query, uuid) := session] && fresh(session) &&
         session.sessionId == SessionKey(query, uuid) && session.maxHistory == DefaultMaxHistory &&
         session.history == LoadedHistory(stored) && session.data == LoadedData(stored))
      ensures forall k :: k in old(sessions) ==> k in sessions && sessions[k] == old(sessions)[k]
    {
      var id := SessionKey(query, uuid);
      if id !in sessions {
        var created := new SessionContext(Some(id), DefaultMaxHistory, [], stored);
        sessions := sessions[id := created];
      }
      session := sessions[id];
    }

    /** The execution result of a request: a run only for a non-empty `parameters` map, passed as keyword arguments. */
    function RunResult(id: string, parameters: Option<map<string, Value>>): (r: Option<Value>)
      reads this, registry
      ensures r.Some? <==> parameters.Some? && parameters.value != map[]
      ensures r.Some? ==> r.value == registry.ExecuteFunction(id, None, parameters)
    {
      if parameters.Some? && parameters.value != map[] then Some(registry.ExecuteFunction(id, None, parameters)) else None
    }

    /**
     * The `/execute` endpoint body for `prompt` and the request's `parameters`, on `session`.
     * `search` is the vector search, `clock` formats a stored timestamp as `HH:MM:SS`, and
     * `now` is the timestamp of this turn.
     */
    method Execute(prompt: string, parameters: Option<map<string, Value>>, session: SessionContext,
                   search: string -> SearchResult, clock: string -> string, now: string)
      returns (resp: Response)
      modifies session
      ensures resp.Ok? <==> Top(prompt, old(session.history), search, clock).Some?
      ensures resp.Failed? ==> resp == Failed(500, NoMatchDetail)
      ensures resp.Failed? ==>
        (session.history == old(session.history) && session.data == old(session.data) && session.saved == old(session.saved))
      ensures resp.Ok? ==>
        resp == Ok(FunctionId(Top(prompt, old(session.history), search, clock).value),
          Generated(Top(prompt, old(session.history), search, clock).value, prompt),
          RunResult(FunctionId(Top(prompt, old(session.history), search, clock).value), parameters),
          Summary(old(session.history), clock))
      ensures resp.Ok? ==>
        (session.history == Bounded(old(session.history) +
           [Interaction(now, prompt, Recorded(resp.functionId, resp.executionResult), map[])], session.maxHistory) &&
         session.data == old(session.data) && session.Persisted())
      ensures session.sessionId == old(session.sessionId) && session.maxHistory == old(session.maxHistory)
      ensures resp.Ok? && session.maxHistory >= 0 ==>
        Contains(Summary(session.history, clock), "System: Used function '" + resp.functionId + "'")
    {
      var summary := session.GetContextSummary(clock);
      var enhanced := EnhancedPrompt(prompt, summary);
      var results := search(enhanced);
      if results.NoResult? || results.metadatas == [] || results.metadatas[0] == [] {
        return Failed(500, NoMatchDetail);
      }
      var meta := results.metadatas[0][0];
      resp := Serve(prompt, parameters, session, meta, summary, clock, now);
    }

    /** The part of `/execute` after a match: generate, maybe run, record the turn, reply. */
    method Serve(prompt: string, parameters: Option<map<string, Value>>, session: SessionContext,
                 meta: Metadata, summary: string, clock: string -> string, now: string)
      returns (resp: Response)
      modifies session
      ensures resp == Ok(FunctionId(meta), Generated(meta, prompt), RunResult(FunctionId(meta), parameters), summary)
      ensures session.history == Bounded(old(session.history) +
        [Interaction(now, prompt, Recorded(resp.functionId, resp.executionResult), map[])], session.maxHistory)
      ensures session.data == old(session.data) && session.Persisted()
      ensures session.sessionId == old(session.sessionId) && session.maxHistory == old(session.maxHistory)
      ensures session.maxHistory >= 0 ==>
        Contains(Summary(session.history, clock), "System: Used function '" + resp.functionId + "'")
    {
      var id := meta.moduleName + "." + meta.name;
      var code := CodeGenerator.GenerateFunctionCode(meta, Some(prompt));
      var result: Option<Value> := None;
      if parameters.Some? && parameters.value != map[] {
        result := Some(registry.ExecuteFunction(id, None, parameters));
      }
      ghost var before := session.history;
      session.AddInteraction(prompt, Recorded(id, result), None, now);
      resp := Ok(id, code, result, summary);
      if session.maxHistory >= 0 {
        ServedTurnSummarised(before, session.maxHistory, now, prompt, id, result, clock);
      }
    }

    /** `/functions`: one listing per registered id, in registration order; a badly formed id fails the request. */
    method ListFunctions() returns (r: Option<seq<Listing>>)
      ensures r == Listings(registry.functions)
    {
      var d := registry.functions;
      var listed: seq<Listing> := [];
      for i := 0 to |d|
        invariant |listed| == i && forall k :: 0 <= k < i ==> OneDot(d[k].0) && listed[k] == ListingOf(d[k].0, d[k].1)
      {
        var id := d[i].0;
        if !OneDot(id) {
          ListingsFail(d, i);
          return None;
        }
        var l := ListingOf(id, d[i].1);
        listed := listed + [l];
      }
      ListingsAll(d, listed);
      r := Some(listed);
    }
  }
}
