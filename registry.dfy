/**
 * The function registry: every public function of the three action modules, registered
 * under `<module>.<name>` with a description taken from its docstring, and the fixed
 * result shapes of running one by id.
 */
module Registry {
  import opened Wrappers
  import opened Text
  import opened Dicts
  import opened Values

  /** What a call did: returned a value, or raised an exception whose `str()` is `message`. */
  datatype Outcome = Returned(value: Value) | Raised(message: string)

  /**
   * A Python function object: its `__doc__`, the text of `inspect.signature`, and its
   * behaviour on positional and keyword arguments (side effects are not modelled).
   */
  datatype Fn = Fn(doc: Option<string>, signature: string, call: (seq<Value>, map<string, Value>) -> Outcome)

  /** One `(name, obj)` pair of `inspect.getmembers(module, inspect.isfunction)`. */
  datatype Member = Member(name: string, fn: Fn)

  /** An action module: its name in the registry and its functions in `getmembers` order. */
  datatype Module = Module(name: string, members: seq<Member>)

  /** One registration: the id, the function, and the document handed to the vector index. */
  datatype Registration = Registration(id: string, name: string, fn: Fn, description: string, moduleName: string)

  /** `name.startswith('_')`. */
  predicate Private(name: string) {
    StartsWith(name, "_")
  }

  /** The docstring is used when it is truthy: present and non-empty. */
  predicate HasDoc(doc: Option<string>) {
    doc.Some? && doc.value != []
  }

  /**
   * The description rule: the first line of the stripped docstring when there is one,
   * otherwise `Function to ` and the name with underscores turned into spaces.
   */
  function Description(name: string, doc: Option<string>): string {
    if HasDoc(doc) then BeforeChar(Strip(doc.value), '\n')
    else "Function to " + ReplaceChar(name, '_', ' ')
  }

  /** The description is a whole first line of the stripped docstring, or the fallback without underscores. */
  lemma DescriptionRule(name: string, doc: Option<string>)
    ensures var d := Description(name, doc);
      (HasDoc(doc) ==> '\n' !in d && StartsWith(Strip(doc.value), d)) &&
      (HasDoc(doc) ==> d == Strip(doc.value) || Strip(doc.value)[|d|] == '\n') &&
      (!HasDoc(doc) ==> d == "Function to " + ReplaceChar(name, '_', ' ')) &&
      (!HasDoc(doc) ==> '_' !in d)
  {
    if HasDoc(doc) {
      var s := Strip(doc.value);
      if '\n' in s {
        assert s == BeforeChar(s, '\n') + ['\n'] + AfterChar(s, '\n');
      }
    }
  }

  /** The document in `Registration` form is well made: id, visibility and description as the rules give them. */
  predicate WellMade(x: Registration) {
    x.id == x.moduleName + "." + x.name && !Private(x.name) && x.description == Description(x.name, x.fn.doc)
  }

  /** What registering one member of module `moduleName` adds: nothing for a private name. */
  function Register(moduleName: string, m: Member): seq<Registration> {
    if Private(m.name) then []
    else [Registration(moduleName + "." + m.name, m.name, m.fn, Description(m.name, m.fn.doc), moduleName)]
  }

  /** A private member registers nothing; any other exactly one well-made registration naming the module. */
  lemma RegisterRule(moduleName: string, m: Member)
    ensures Private(m.name) <==> Register(moduleName, m) == []
    ensures !Private(m.name) ==>
      |Register(moduleName, m)| == 1 && WellMade(Register(moduleName, m)[0]) && Register(moduleName, m)[0].moduleName == moduleName
  {
  }

  /** `f(xs[0]) + f(xs[1]) + … + f(xs[n - 1])`: a flat map over the first `n` elements. */
  function FlatMap<A, B>(xs: seq<A>, f: A -> seq<B>, n: nat): seq<B>
    requires n <= |xs|
  {
    if n == 0 then [] else FlatMap(xs, f, n - 1) + f(xs[n - 1])
  }

  /** An index into a concatenation lands in one of its parts. */
  lemma ConcatIndex<T>(a: seq<T>, b: seq<T>, k: nat)
    requires k < |a + b|
    ensures k < |a| ==> (a + b)[k] == a[k]
    ensures |a| <= k ==> k - |a| < |b| && (a + b)[k] == b[k - |a|]
  {
  }

  /** Every item of a flat map is an item of the image of one of the elements mapped. */
  lemma {:induction false} FlatMapFrom<A, B>(xs: seq<A>, f: A -> seq<B>, n: nat, k: nat)
    requires n <= |xs| && k < |FlatMap(xs, f, n)|
    ensures exists j, l :: 0 <= j < n && 0 <= l < |f(xs[j])| && FlatMap(xs, f, n)[k] == f(xs[j])[l]
  {
    var front := FlatMap(xs, f, n - 1);
    ConcatIndex(front, f(xs[n - 1]), k);
    if k < |front| {
      FlatMapFrom(xs, f, n - 1, k);
      var j, l :| 0 <= j < n - 1 && 0 <= l < |f(xs[j])| && front[k] == f(xs[j])[l];
      assert FlatMap(xs, f, n)[k] == f(xs[j])[l];
    } else {
      assert FlatMap(xs, f, n)[k] == f(xs[n - 1])[k - |front|];
    }
  }

  /** Every item of the image of an element mapped is an item of the flat map. */
  lemma {:induction false} FlatMapHas<A, B>(xs: seq<A>, f: A -> seq<B>, n: nat, j: nat, l: nat)
    requires j < n <= |xs| && l < |f(xs[j])|
    ensures f(xs[j])[l] in FlatMap(xs, f, n)
  {
    var front := FlatMap(xs, f, n - 1);
    if j < n - 1 {
      FlatMapHas(xs, f, n - 1, j, l);
      var k :| 0 <= k < |front| && front[k] == f(xs[j])[l];
      ConcatIndex(front, f(xs[n - 1]), k);
    } else {
      ConcatIndex(front, f(xs[n - 1]), |front| + l);
    }
  }

  /** Registering the members of module `moduleName`, one member at a time. */
  function Registrar(moduleName: string): Member -> seq<Registration> {
    m => Register(moduleName, m)
  }

  /** The registrations of the first `n` members of a module, in order. */
  function ModuleRegistrations(moduleName: string, ms: seq<Member>, n: nat): seq<Registration>
    requires n <= |ms|
  {
    if n == 0 then [] else ModuleRegistrations(moduleName, ms, n - 1) + Register(moduleName, ms[n - 1])
  }

  /** The registrations of all a module's members. */
  function Batch(mod: Module): seq<Registration> {
    ModuleRegistrations(mod.name, mod.members, |mod.members|)
  }

  /** The registrations of the first `n` modules, module by module. */
  function Registrations(mods: seq<Module>, n: nat): seq<Registration>
    requires n <= |mods|
  {
    if n == 0 then [] else Registrations(mods, n - 1) + Batch(mods[n - 1])
  }

  /** A module's registrations are the flat map of registering each member. */
  lemma {:induction false} ModuleFlatMap(moduleName: string, ms: seq<Member>, n: nat)
    requires n <= |ms|
    ensures ModuleRegistrations(moduleName, ms, n) == FlatMap(ms, Registrar(moduleName), n)
  {
    if n > 0 {
      ModuleFlatMap(moduleName, ms, n - 1);
      assert Registrar(moduleName)(ms[n - 1]) == Register(moduleName, ms[n - 1]);
    }
  }

  /** All the registrations are the flat map of each module's. */
  lemma {:induction false} RegistrationsFlatMap(mods: seq<Module>, n: nat)
    requires n <= |mods|
    ensures Registrations(mods, n) == FlatMap(mods, Batch, n)
  {
    if n > 0 {
      RegistrationsFlatMap(mods, n - 1);
    }
  }

  /** One more module: its registrations follow those of the modules before it. */
  lemma RegistrationsNext(mods: seq<Module>, i: nat)
    requires i < |mods|
    ensures Registrations(mods, i + 1) == Registrations(mods, i) + ModuleRegistrations(mods[i].name, mods[i].members, |mods[i].members|)
  {
    assert Batch(mods[i]) == ModuleRegistrations(mods[i].name, mods[i].members, |mods[i].members|);
  }

  /** All the registrations `_populate_registry` makes. */
  function AllRegistrations(mods: seq<Module>): seq<Registration> {
    Registrations(mods, |mods|)
  }

  /** Every registration of a module is well made and names that module. */
  lemma ModuleWellMade(moduleName: string, ms: seq<Member>, n: nat, k: nat)
    requires n <= |ms| && k < |ModuleRegistrations(moduleName, ms, n)|
    ensures WellMade(ModuleRegistrations(moduleName, ms, n)[k])
    ensures ModuleRegistrations(moduleName, ms, n)[k].moduleName == moduleName
  {
    ModuleFlatMap(moduleName, ms, n);
    FlatMapFrom(ms, Registrar(moduleName), n, k);
    var j, l :| 0 <= j < n && 0 <= l < |Registrar(moduleName)(ms[j])| &&
      ModuleRegistrations(moduleName, ms, n)[k] == Registrar(moduleName)(ms[j])[l];
    assert Registrar(moduleName)(ms[j]) == Register(moduleName, ms[j]);
    RegisterRule(moduleName, ms[j]);
  }

  /** Every registration is well made. */
  lemma RegistrationsWellMade(mods: seq<Module>, n: nat, k: nat)
    requires n <= |mods| && k < |Registrations(mods, n)|
    ensures WellMade(Registrations(mods, n)[k])
  {
    RegistrationsFlatMap(mods, n);
    FlatMapFrom(mods, Batch, n, k);
    var j, l :| 0 <= j < n && 0 <= l < |Batch(mods[j])| && Registrations(mods, n)[k] == Batch(mods[j])[l];
    ModuleWellMade(mods[j].name, mods[j].members, |mods[j].members|, l);
  }

  /** The `(id, function)` assignments made to `self.functions`, in order. */
  function Pairs(rs: seq<Registration>): (kvs: seq<(string, Fn)>)
    ensures |kvs| == |rs| && forall k :: 0 <= k < |rs| ==> kvs[k] == (rs[k].id, rs[k].fn)
  {
    if rs == [] then [] else [(rs[0].id, rs[0].fn)] + Pairs(rs[1..])
  }

  /** Assignments in sequence: the dict after `a + b` is the dict after `a`, then `b`. */
  lemma {:induction false} PutAllConcat<V>(d: Dict<V>, a: seq<(string, V)>, b: seq<(string, V)>)
    ensures PutAll(d, a + b) == PutAll(PutAll(d, a), b)
    decreases |b|
  {
    if b != [] {
      assert (a + b)[..|a + b| - 1] == a + b[..|b| - 1];
      PutAllConcat(d, a, b[..|b| - 1]);
    } else {
      assert a + b == a;
    }
  }

  lemma PairsConcat(a: seq<Registration>, b: seq<Registration>)
    ensures Pairs(a + b) == Pairs(a) + Pairs(b)
  {
  }

  /** Every public member among the first `n` of a module is registered, under `<module>.<name>`. */
  lemma ModuleComplete(moduleName: string, ms: seq<Member>, n: nat, j: nat)
    requires j < n <= |ms| && !Private(ms[j].name)
    ensures Register(moduleName, ms[j])[0] in ModuleRegistrations(moduleName, ms, n)
  {
    assert Registrar(moduleName)(ms[j]) == Register(moduleName, ms[j]);
    ModuleFlatMap(moduleName, ms, n);
    FlatMapHas(ms, Registrar(moduleName), n, j, 0);
  }

  /** Every public member of every module is registered, under its id and with its description. */
  lemma RegistrationsComplete(mods: seq<Module>, n: nat, i: nat, j: nat)
    requires i < n <= |mods| && j < |mods[i].members| && !Private(mods[i].members[j].name)
    ensures Registration(mods[i].name + "." + mods[i].members[j].name, mods[i].members[j].name,
      mods[i].members[j].fn, Description(mods[i].members[j].name, mods[i].members[j].fn.doc),
      mods[i].name) in Registrations(mods, n)
  {
    var x := Register(mods[i].name, mods[i].members[j])[0];
    ModuleComplete(mods[i].name, mods[i].members, |mods[i].members|, j);
    var l :| 0 <= l < |Batch(mods[i])| && Batch(mods[i])[l] == x;
    RegistrationsFlatMap(mods, n);
    FlatMapHas(mods, Batch, n, i, l);
  }

  /** One step of the inner loop: registering a member assigns its id, or nothing when private. */
  lemma RegisterStep(d: Dict<Fn>, prev: seq<Registration>, moduleName: string, x: Member)
    ensures PutAll(d, Pairs(prev + Register(moduleName, x))) ==
      if Private(x.name) then PutAll(d, Pairs(prev)) else Put(PutAll(d, Pairs(prev)), moduleName + "." + x.name, x.fn)
  {
    if Private(x.name) {
      assert prev + Register(moduleName, x) == prev;
    } else {
      var r := Register(moduleName, x);
      PairsConcat(prev, r);
      PutAllConcat(d, Pairs(prev), Pairs(r));
    }
  }

  /** One pass of the inner loop, stated on the registrations made so far in the module. */
  lemma MemberStep(d: Dict<Fn>, before: seq<Registration>, m: Module, j: nat)
    requires j < |m.members|
    ensures var x, prev := m.members[j], before + ModuleRegistrations(m.name, m.members, j);
      var next := before + ModuleRegistrations(m.name, m.members, j + 1);
      (Private(x.name) ==> next == prev && PutAll(d, Pairs(next)) == PutAll(d, Pairs(prev))) &&
      (!Private(x.name) ==>
        next == prev + [Registration(m.name + "." + x.name, x.name, x.fn, Description(x.name, x.fn.doc), m.name)] &&
        PutAll(d, Pairs(next)) == Put(PutAll(d, Pairs(prev)), m.name + "." + x.name, x.fn))
  {
    var x, prev := m.members[j], before + ModuleRegistrations(m.name, m.members, j);
    assert before + ModuleRegistrations(m.name, m.members, j + 1) == prev + Register(m.name, x);
    RegisterStep(d, prev, m.name, x);
    if Private(x.name) {
      assert prev + Register(m.name, x) == prev;
    }
  }

  /**
   * `f` is the dict `d` after assigning the id of each registration in `rs`, in order. Stated
   * over the pair list named `kvs`, so that the assignments are only unfolded where that list
   * is mentioned.
   */
  ghost predicate Tracks(f: Dict<Fn>, d: Dict<Fn>, rs: seq<Registration>) {
    forall kvs :: kvs == Pairs(rs) ==> f == PutAll(d, kvs)
  }

  /** The dict `_populate_registry` leaves after the first `n` modules, when started from `d`. */
  function PopulatedUpTo(d: Dict<Fn>, mods: seq<Module>, n: nat): Dict<Fn>
    requires n <= |mods|
  {
    PutAll(d, Pairs(Registrations(mods, n)))
  }

  /** The dict `_populate_registry` leaves when started from `d`. */
  function Populated(d: Dict<Fn>, mods: seq<Module>): Dict<Fn> {
    PopulatedUpTo(d, mods, |mods|)
  }

  /** Before any module, population has changed nothing. */
  lemma PopulatedNone(d: Dict<Fn>, mods: seq<Module>)
    ensures PopulatedUpTo(d, mods, 0) == d && Registrations(mods, 0) == []
  {
    assert Pairs(Registrations(mods, 0)) == [];
  }

  /**
   * Looking an id up in the populated registry finds the function of its LAST registration
   * (a repeated id overwrites), and nothing for an id that was never registered.
   */
  lemma RegistryGet(mods: seq<Module>, id: string)
    ensures Get(Populated([], mods), id) == match LastKey(Pairs(AllRegistrations(mods)), id)
      case None => None
      case Some(k) => Some(AllRegistrations(mods)[k].fn)
  {
    PutAllGet([], Pairs(AllRegistrations(mods)), id);
  }

  /** Every id in the populated registry comes from a registration. */
  lemma RegisteredIdsWellMade(mods: seq<Module>, id: string)
    requires id in Keys(Populated([], mods))
    ensures exists k :: 0 <= k < |AllRegistrations(mods)| && AllRegistrations(mods)[k].id == id && WellMade(AllRegistrations(mods)[k])
  {
    PutAllKeys([], Pairs(AllRegistrations(mods)), id);
    var k := LastKey(Pairs(AllRegistrations(mods)), id).value;
    assert AllRegistrations(mods)[k].id == id;
    RegistrationsWellMade(mods, |mods|, k);
  }

  /** Neither module names nor function names contain a dot (Python identifiers never do). */
  predicate Dotless(mods: seq<Module>) {
    forall i :: 0 <= i < |mods| ==>
      '.' !in mods[i].name && (forall j :: 0 <= j < |mods[i].members| ==> '.' !in mods[i].members[j].name)
  }

  /** A registration names module `mod` and one of its members. */
  ghost predicate ComesFrom(x: Registration, mod: Module) {
    x.moduleName == mod.name && Member(x.name, x.fn) in mod.members
  }

  /** A module's registrations come from its members. */
  lemma ModuleMember(moduleName: string, ms: seq<Member>, n: nat, k: nat)
    requires n <= |ms| && k < |ModuleRegistrations(moduleName, ms, n)|
    ensures Member(ModuleRegistrations(moduleName, ms, n)[k].name, ModuleRegistrations(moduleName, ms, n)[k].fn) in ms
  {
    ModuleFlatMap(moduleName, ms, n);
    FlatMapFrom(ms, Registrar(moduleName), n, k);
    var j, l :| 0 <= j < n && 0 <= l < |Registrar(moduleName)(ms[j])| &&
      ModuleRegistrations(moduleName, ms, n)[k] == Registrar(moduleName)(ms[j])[l];
    assert Registrar(moduleName)(ms[j]) == Register(moduleName, ms[j]);
    assert ms[j] in ms;
  }

  /** A registration names one of the modules and one of that module's members. */
  lemma RegistrationModule(mods: seq<Module>, n: nat, k: nat)
    requires n <= |mods| && k < |Registrations(mods, n)|
    ensures exists i :: 0 <= i < n && ComesFrom(Registrations(mods, n)[k], mods[i])
  {
    RegistrationsFlatMap(mods, n);
    FlatMapFrom(mods, Batch, n, k);
    var j, l :| 0 <= j < n && 0 <= l < |Batch(mods[j])| && Registrations(mods, n)[k] == Batch(mods[j])[l];
    ModuleMember(mods[j].name, mods[j].members, |mods[j].members|, l);
    ModuleWellMade(mods[j].name, mods[j].members, |mods[j].members|, l);
    assert ComesFrom(Registrations(mods, n)[k], mods[j]);
  }

  /**
   * A private function is never registered: with dot-free names, no registered id is
   * `<module>._<name>`.
   */
  lemma PrivateSkipped(mods: seq<Module>, i: nat, j: nat)
    requires Dotless(mods) && i < |mods| && j < |mods[i].members| && Private(mods[i].members[j].name)
    ensures mods[i].name + "." + mods[i].members[j].name !in Keys(Populated([], mods))
  {
    var id := mods[i].name + "." + mods[i].members[j].name;
    if id in Keys(Populated([], mods)) {
      RegisteredIdsWellMade(mods, id);
      var k :| 0 <= k < |AllRegistrations(mods)| && AllRegistrations(mods)[k].id == id && WellMade(AllRegistrations(mods)[k]);
      var x := AllRegistrations(mods)[k];
      RegistrationModule(mods, |mods|, k);
      var i' :| 0 <= i' < |mods| && ComesFrom(x, mods[i']);
      SplitAtFirst(x.moduleName, '.', x.name);
      SplitAtFirst(mods[i].name, '.', mods[i].members[j].name);
    }
  }

  /**
   * With dot-free names every registered id splits on its single dot into the
   * module and the function name it was registered under.
   */
  lemma RegisteredIdSplits(mods: seq<Module>, id: string)
    requires Dotless(mods) && id in Keys(Populated([], mods))
    ensures '.' in id && '.' !in AfterChar(id, '.')
    ensures exists i, j :: (0 <= i < |mods| && 0 <= j < |mods[i].members| &&
      BeforeChar(id, '.') == mods[i].name && AfterChar(id, '.') == mods[i].members[j].name)
  {
    RegisteredIdsWellMade(mods, id);
    var k :| 0 <= k < |AllRegistrations(mods)| && AllRegistrations(mods)[k].id == id && WellMade(AllRegistrations(mods)[k]);
    var x := AllRegistrations(mods)[k];
    RegistrationModule(mods, |mods|, k);
    var i :| 0 <= i < |mods| && ComesFrom(x, mods[i]);
    var j :| 0 <= j < |mods[i].members| && mods[i].members[j] == Member(x.name, x.fn);
    SplitAtFirst(x.moduleName, '.', x.name);
  }

  /** `{"success": True, "result": v}`. */
  function Success(v: Value): Value {
    Record(map["success" := Bool(true), "result" := v])
  }

  /** `{"success": False, "error": message}`. */
  function Failure(message: string): Value {
    Record(map["success" := Bool(false), "error" := Text(message)])
  }

  /** The message of the lookup failure. */
  const NotFound: string := "Function not found"

  /** The registry object: the three modules by name, and the id-to-function dict. */
  class FunctionRegistry {
    const modules: seq<Module>
    var functions: Dict<Fn>
    /** The documents handed to the vector index by the last population, in order. */
    var indexed: seq<Registration>

    /** `FunctionRegistry()`: the modules application, system and utilities, in that order, then population. */
    constructor (application: seq<Member>, system: seq<Member>, utilities: seq<Member>)
      ensures modules == [Module("application", application), Module("system", system), Module("utilities", utilities)]
      ensures functions == Populated([], modules)
      ensures indexed == AllRegistrations(modules)
    {
      modules := [Module("application", application), Module("system", system), Module("utilities", utilities)];
      functions := [];
      indexed := [];
      new;
      Populate();
    }

    /** `_populate_registry`: for each module, for each public member, assign its id and send its document. */
    method Populate()
      modifies this
      ensures functions == Populated(old(functions), modules)
      ensures indexed == AllRegistrations(modules)
    {
      ghost var d0 := functions;
      indexed := [];
      PopulatedNone(d0, modules);
      for i := 0 to |modules|
        invariant indexed == Registrations(modules, i)
        invariant Tracks(functions, d0, indexed)
      {
        var m := modules[i];
        PopulateModule(m, d0);
        RegistrationsNext(modules, i);
      }
    }

    /** The inner loop of `_populate_registry` over the members of one module. */
    method PopulateModule(m: Module, ghost d: Dict<Fn>)
      requires Tracks(functions, d, indexed)
      modifies this
      ensures indexed == old(indexed) + Batch(m)
      ensures Tracks(functions, d, indexed)
    {
      ghost var before := indexed;
      for j := 0 to |m.members|
        invariant indexed == before + ModuleRegistrations(m.name, m.members, j)
        invariant Tracks(functions, d, indexed)
      {
        PopulateMember(m, d, before, j);
      }
    }

    /** One pass of the inner loop: a public member is assigned its id and its document is sent. */
    method PopulateMember(m: Module, ghost d: Dict<Fn>, ghost before: seq<Registration>, j: nat)
      requires j < |m.members|
      requires indexed == before + ModuleRegistrations(m.name, m.members, j)
      requires Tracks(functions, d, indexed)
      modifies this
      ensures indexed == before + ModuleRegistrations(m.name, m.members, j + 1)
      ensures Tracks(functions, d, indexed)
    {
      var x := m.members[j];
      MemberStep(d, before, m, j);
      if !StartsWith(x.name, "_") {
        var id := m.name + "." + x.name;
        functions := Put(functions, id, x.fn);
        var description := Description(x.name, x.fn.doc);
        indexed := indexed + [Registration(id, x.name, x.fn, description, m.name)];
      }
    }

    /** `get_function(id)`: the stored function, or `None` for an unknown id. */
    function GetFunction(id: string): (r: Option<Fn>)
      reads this
      ensures r.Some? <==> id in Keys(functions)
    {
      Get(functions, id)
    }

    /**
     * `execute_function(id, args, kwargs)`: never raises; missing arguments are empty; an
     * unknown id and a raised exception give `success` False, a returned value `success` True.
     */
    function ExecuteFunction(id: string, args: Option<seq<Value>>, kwargs: Option<map<string, Value>>): (r: Value)
      reads this
      ensures id !in Keys(functions) ==> r == Failure(NotFound)
      ensures id in Keys(functions) ==>
        var out := GetFunction(id).value.call(args.GetOr([]), kwargs.GetOr(map[]));
        r == if out.Returned? then Success(out.value) else Failure(out.message)
      ensures r.Record? && r.fields.Keys == if r.fields["success"] == Bool(true) then {"success", "result"} else {"success", "error"}
    {
      match GetFunction(id)
      case None => Failure(NotFound)
      case Some(f) =>
        match f.call(args.GetOr([]), kwargs.GetOr(map[]))
        case Returned(v) => Success(v)
        case Raised(e) => Failure(e)
    }
  }
}
