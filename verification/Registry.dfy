/** The engine's workflow cache over the store of definitions (engine/engine.go:65-114, engine/store.go:44-68). */
module Registries {
  import opened Model

  type Store = map<string, map<string, WorkflowDef>>

  datatype State = State(cache: map<string, WorkflowDef>, store: Store)

  const EMPTY_STATE := State(map[], map[])

  /** `GetWorkflow`. */
  function StoreGet(store: Store, name: string, version: string): Option<WorkflowDef> {
    if name in store && version in store[name] then Some(store[name][version]) else None
  }

  function StorePut(store: Store, def: WorkflowDef): Store {
    store[def.name := (if def.name in store then store[def.name] else map[])[def.version := def]]
  }

  /** `loadWorkflow`: the cache first, then the store. */
  function Found(s: State, name: string, version: string): Option<WorkflowDef> {
    if WfKey(name, version) in s.cache then Some(s.cache[WfKey(name, version)]) else StoreGet(s.store, name, version)
  }

  /** A restart loses the cache, not the store. */
  datatype Call = RegisterCall(def: WorkflowDef) | LoadCall(name: string, version: string) | RestartCall

  function Do(s: State, c: Call): State {
    match c
    case RegisterCall(def) =>
      if Registrable(def)
      then State(s.cache[WfKey(def.name, def.version) := Registered(def)], StorePut(s.store, Registered(def)))
      else s
    case LoadCall(name, version) =>
      if WfKey(name, version) !in s.cache && StoreGet(s.store, name, version).Some?
      then s.(cache := s.cache[WfKey(name, version) := StoreGet(s.store, name, version).value])
      else s
    case RestartCall => s.(cache := map[])
  }

  function DoAll(calls: seq<Call>): State
    decreases |calls|
  {
    if calls == [] then EMPTY_STATE else Do(DoAll(calls[..|calls| - 1]), calls[|calls| - 1])
  }

  // ---- in place ----------------------------------------------------------

  class Registry {
    var workflows: map<string, WorkflowDef>
    var store: Store

    function Now(): State
      reads this
    {
      State(workflows, store)
    }

    method RegisterWorkflow(def: WorkflowDef) returns (ok: bool)
      modifies this
      ensures ok == Registrable(def) && Now() == Do(old(Now()), RegisterCall(def))
    {
      if def.name == "" || def.version == "" { return false; }
      var w := def;
      if w.initial == "" && |w.steps| > 0 { w := w.(initial := w.steps[0].name); }
      if Lookup(w, w.initial).None? { return false; }
      workflows := workflows[WfKey(w.name, w.version) := w];
      var versions := if w.name in store then store[w.name] else map[];
      versions := versions[w.version := w];
      store := store[w.name := versions];
      ok := true;
    }

    method LoadWorkflow(name: string, version: string) returns (def: Option<WorkflowDef>)
      modifies this
      ensures def == Found(old(Now()), name, version) && Now() == Do(old(Now()), LoadCall(name, version))
    {
      var key := WfKey(name, version);
      if key in workflows { return Some(workflows[key]); }
      def := StoreGet(store, name, version);
      if def.Some? { workflows := workflows[key := def.value]; }
    }

    /** A new process has an empty cache, and the same store. */
    method Restart()
      modifies this
      ensures Now() == Do(old(Now()), RestartCall)
      ensures forall n, v :: Found(Now(), n, v) == StoreGet(old(store), n, v)
    {
      workflows := map[];
    }
  }

  // ---- keys --------------------------------------------------------------

  /** Names without '@' make the key injective. */
  lemma KeyInjective(n: string, v: string, m: string, w: string)
    requires '@' !in n && '@' !in m && WfKey(n, v) == WfKey(m, w)
    ensures n == m && v == w
  {
    var k := WfKey(n, v);
    NotBefore(n, v, m, w);
    NotBefore(m, w, n, v);
    assert n == k[..|n|] && m == k[..|m|];
    assert v == k[|n| + 1..] && w == k[|m| + 1..];
  }

  lemma NotBefore(n: string, v: string, m: string, w: string)
    requires '@' !in m && WfKey(n, v) == WfKey(m, w)
    ensures |m| <= |n|
  {
    var k := WfKey(n, v);
    assert k[|n|] == '@' && forall i :: 0 <= i < |m| ==> k[i] == m[i];
  }

  /** Any '@' in a name or a version makes the key that of another pair, too. */
  lemma KeyShared(n: string, v: string) returns (m: string, w: string)
    requires '@' in n || '@' in v
    ensures WfKey(m, w) == WfKey(n, v) && m != n
  {
    if '@' in n {
      var i :| 0 <= i < |n| && n[i] == '@';
      m, w := n[..i], n[i + 1..] + "@" + v;
      assert n == m + "@" + n[i + 1..];
    } else {
      var i :| 0 <= i < |v| && v[i] == '@';
      m, w := n + "@" + v[..i], v[i + 1..];
      assert v == v[..i] + "@" + w;
    }
  }

  // ---- agreement ---------------------------------------------------------

  /** The store files definitions under their names and versions; what is cached is filed. */
  ghost predicate Filed(s: State) {
    && (forall n, v :: StoreGet(s.store, n, v).Some? ==>
          StoreGet(s.store, n, v).value.name == n && StoreGet(s.store, n, v).value.version == v)
    && (forall k :: k in s.cache ==>
          && k == WfKey(s.cache[k].name, s.cache[k].version)
          && StoreGet(s.store, s.cache[k].name, s.cache[k].version) == Some(s.cache[k]))
  }

  ghost predicate PlainNames(s: State) {
    forall n, v :: StoreGet(s.store, n, v).Some? ==> '@' !in n
  }

  lemma PutGets(store: Store, def: WorkflowDef, n: string, v: string)
    ensures StoreGet(StorePut(store, def), n, v) ==
              if n == def.name && v == def.version then Some(def) else StoreGet(store, n, v)
  {
  }

  predicate Plain(c: Call) {
    c.RegisterCall? ==> '@' !in c.def.name
  }

  lemma RegisterFiles(s: State, def: WorkflowDef)
    requires Filed(s) && Registrable(def)
    ensures Filed(Do(s, RegisterCall(def)))
    ensures PlainNames(s) && '@' !in def.name ==> PlainNames(Do(s, RegisterCall(def)))
  {
    hide StoreGet, StorePut;
    var w, s' := Registered(def), Do(s, RegisterCall(def));
    forall n, v
      ensures StoreGet(s'.store, n, v) == if n == w.name && v == w.version then Some(w) else StoreGet(s.store, n, v)
    {
      PutGets(s.store, w, n, v);
    }
    forall k | k in s'.cache
      ensures k == WfKey(s'.cache[k].name, s'.cache[k].version)
      ensures StoreGet(s'.store, s'.cache[k].name, s'.cache[k].version) == Some(s'.cache[k])
    {
      var x := s'.cache[k];
      if k != WfKey(w.name, w.version) { assert x == s.cache[k]; }
    }
  }

  lemma {:induction false} AlwaysFiled(calls: seq<Call>)
    ensures Filed(DoAll(calls))
    ensures (forall c :: c in calls ==> Plain(c)) ==> PlainNames(DoAll(calls))
    decreases |calls|
  {
    if calls != [] {
      var s, c := DoAll(calls[..|calls| - 1]), calls[|calls| - 1];
      assert c in calls && forall x :: x in calls[..|calls| - 1] ==> x in calls;
      AlwaysFiled(calls[..|calls| - 1]);
      if c.RegisterCall? && Registrable(c.def) { RegisterFiles(s, c.def); }
    }
  }

  /** For every sequence of calls that registers names without '@', restarts included, a lookup of such a name returns
      what the store returns. */
  lemma CacheAgrees(calls: seq<Call>, n: string, v: string)
    requires (forall c :: c in calls ==> Plain(c)) && '@' !in n
    ensures Found(DoAll(calls), n, v) == StoreGet(DoAll(calls).store, n, v)
  {
    var s := DoAll(calls);
    AlwaysFiled(calls);
    var k := WfKey(n, v);
    if k in s.cache { KeyInjective(n, v, s.cache[k].name, s.cache[k].version); }
  }

  /** Every lookup whatsoever returns what the store returns. */
  ghost predicate Agrees(s: State) {
    forall n, v :: Found(s, n, v) == StoreGet(s.store, n, v)
  }

  predicate Clean(def: WorkflowDef) {
    '@' !in def.name && '@' !in def.version
  }

  lemma OneAt(n: string, v: string, m: string, w: string)
    requires '@' !in n && '@' !in v && WfKey(n, v) == WfKey(m, w)
    ensures '@' !in m
  {
    var k := WfKey(n, v);
    assert forall i :: 0 <= i < |k| && k[i] == '@' ==> i == |n|;
    assert k[|m|] == '@';
    assert m == k[..|m|] && n == k[..|n|];
  }

  /** Whatever was registered: all lookups, of any name and version, agree exactly when no cached definition has an '@'
      in its name or version. */
  lemma AgreesIffClean(calls: seq<Call>)
    ensures Agrees(DoAll(calls)) <==> forall k :: k in DoAll(calls).cache ==> Clean(DoAll(calls).cache[k])
  {
    var s := DoAll(calls);
    AlwaysFiled(calls);
    if k :| k in s.cache && !Clean(s.cache[k]) {
      var m, w := KeyShared(s.cache[k].name, s.cache[k].version);
      assert Found(s, m, w) == Some(s.cache[k]);
    } else {
      forall n, v ensures Found(s, n, v) == StoreGet(s.store, n, v) {
        var k := WfKey(n, v);
        if k in s.cache {
          OneAt(s.cache[k].name, s.cache[k].version, n, v);
          KeyInjective(n, v, s.cache[k].name, s.cache[k].version);
        }
      }
    }
  }
}
