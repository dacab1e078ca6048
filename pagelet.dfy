/**
 * The cache orchestration of the package pagelet in index.js: the cache key,
 * the `fireforget` wrapper around an optional cache backend, and the two
 * cache-or-fetch flows `latest` and `get`. Each flow is first described as a
 * function of the cache contents and the upstream replies (a `Run`: the
 * reply, the cache afterwards and the requests made), and the methods of the
 * `Pagelet` class are proved to follow those descriptions.
 */
module Pagelet {
  import opened JsValues

  /** `'v' + major + ':' + name + '@' + version`. */
  function Key(major: string, name: string, version: string): string {
    "v" + major + ":" + name + "@" + version
  }

  /** How a backend answers: by return value (one-argument get) or by callback. */
  datatype Kind = Sync | Async

  /**
   * What `fireforget` sees of the cache: none configured, or a backend of
   * some kind holding `store`. An asynchronous backend reports a missing key
   * as `missError`, as a file-per-key cache does when the file is absent.
   */
  datatype Backend = NoCache | Backend(kind: Kind, store: map<string, Value>, missError: Value)

  /** A request made while serving a page. */
  datatype Request =
    | CacheCall(op: string, key: string)
    | RegistryGet(path: string)
    | ResolveCall(name: string)

  /** The callback arguments of `fireforget` and the cache afterwards. */
  datatype Fired = Fired(reply: Reply, backend: Backend)

  /** What a flow calls back with, the cache afterwards and the requests it made. */
  datatype Run = Run(reply: Reply, backend: Backend, trace: seq<Request>)

  /** `cache.get(key)`: the stored value, or what the backend says of a missing key. */
  function Read(b: Backend, key: string): Reply
    requires b.Backend?
  {
    if key in b.store then Reply(Undefined, b.store[key])
    else if b.kind.Sync? then Reply(Undefined, Undefined)
    else Reply(b.missError, Undefined)
  }

  /** `fireforget(method, key, obj, fn)`, as the arguments `fn` receives. */
  function Fire(b: Backend, op: string, key: string, obj: Value): Fired {
    if b.Backend? && key != "" then
      if op == "get" then Fired(Read(b, key), b)
      else if op == "set" then Fired(Empty, b.(store := b.store[key := obj]))
      else Fired(Empty, b)
    else Fired(Empty, b)
  }

  /** `!err && data`: the cached reply is used. */
  predicate Hit(r: Reply) {
    !Truthy(r.err) && Truthy(r.data)
  }

  /** `if (Array.isArray(data)) data = data[0]`. */
  function FirstIfArray(data: Value): Value {
    if data.Arr? then (if |data.items| == 0 then Undefined else data.items[0]) else data
  }

  /** The path `latest` asks the registry for. */
  function LatestPath(name: string): string {
    name + "/latest"
  }

  /**
   * The inputs on which `latest` completes: on a cache miss, a registry reply
   * without error carries a document whose `version` can be read.
   */
  predicate LatestOk(b: Backend, major: string, name: string, registry: string -> Reply) {
    var reg := registry(LatestPath(name));
    Hit(Fire(b, "get", Key(major, name, "latest"), Undefined).reply)
    || Truthy(reg.err) || !Nullish(FirstIfArray(reg.data))
  }

  /** `latest(name, fn)`. */
  function LatestRun(b: Backend, major: string, name: string, registry: string -> Reply): Run
    requires LatestOk(b, major, name, registry)
  {
    var key := Key(major, name, "latest");
    var cached := Fire(b, "get", key, Undefined);
    if Hit(cached.reply) then Run(cached.reply, cached.backend, [CacheCall("get", key)])
    else
      var reg := registry(LatestPath(name));
      if Truthy(reg.err) then
        Run(Reply(reg.err, Undefined), cached.backend, [CacheCall("get", key), RegistryGet(LatestPath(name))])
      else
        var version := Prop(FirstIfArray(reg.data), "version");
        Run(Reply(Undefined, version), Fire(cached.backend, "set", key, version).backend,
            [CacheCall("get", key), RegistryGet(LatestPath(name)), CacheCall("set", key)])
  }

  /** `get(next)` for the page of `name`: latest version, then document cache, then `resolve`. */
  function GetRun(b: Backend, major: string, name: string, registry: string -> Reply, resolver: string -> Reply): Run
    requires LatestOk(b, major, name, registry)
  {
    var latest := LatestRun(b, major, name, registry);
    if Truthy(latest.reply.err) then Run(Reply(latest.reply.err, Undefined), latest.backend, latest.trace)
    else
      var key := Key(major, name, ToJsString(latest.reply.data));
      var cached := Fire(latest.backend, "get", key, Undefined);
      if Hit(cached.reply) then Run(cached.reply, cached.backend, latest.trace + [CacheCall("get", key)])
      else
        var res := resolver(name);
        if !Truthy(res.err) then
          Run(res, Fire(cached.backend, "set", key, res.data).backend,
              latest.trace + [CacheCall("get", key), ResolveCall(name), CacheCall("set", key)])
        else
          Run(res, cached.backend, latest.trace + [CacheCall("get", key), ResolveCall(name)])
  }

  // ---------------------------------------------------------------------------
  // Properties of the key

  /** For a fixed name, different versions get different keys. */
  lemma KeyInjectiveInVersion(major: string, name: string, v1: string, v2: string)
    requires Key(major, name, v1) == Key(major, name, v2)
    ensures v1 == v2
  {
    var prefix := "v" + major + ":" + name + "@";
    assert Key(major, name, v1) == prefix + v1 && Key(major, name, v2) == prefix + v2;
    assert v1 == (prefix + v1)[|prefix|..];
    assert v2 == (prefix + v2)[|prefix|..];
  }

  /** The `latest` pointer never shares a key with a document. */
  lemma LatestKeyIsDistinct(major: string, name: string, version: string)
    requires version != "latest"
    ensures Key(major, name, "latest") != Key(major, name, version)
  {
    if Key(major, name, "latest") == Key(major, name, version) {
      KeyInjectiveInVersion(major, name, "latest", version);
    }
  }

  /** The position of the last `@` of `s`, or -1. */
  function LastAt(s: string): int
    ensures -1 <= LastAt(s) < |s|
  {
    if s == [] then -1 else if s[|s| - 1] == '@' then |s| - 1 else LastAt(s[..|s| - 1])
  }

  /** A string ending in `@` followed by an `@`-free tail has its last `@` just before the tail. */
  lemma {:induction false} LastAtBeforeTail(p: string, v: string)
    requires |p| > 0 && p[|p| - 1] == '@' && '@' !in v
    ensures LastAt(p + v) == |p| - 1
    decreases |v|
  {
    if v == [] {
      assert p + v == p;
    } else {
      var w := v[..|v| - 1];
      assert (p + v)[..|p + v| - 1] == p + w;
      assert (p + v)[|p + v| - 1] == v[|v| - 1];
      assert v[|v| - 1] in v;
      assert forall c :: c in w ==> c in v;
      LastAtBeforeTail(p, w);
    }
  }

  /**
   * Keys tell (name, version) pairs apart as long as versions have no `@`:
   * the last `@` of the key separates them.
   */
  lemma KeyInjective(major: string, n1: string, v1: string, n2: string, v2: string)
    requires '@' !in v1 && '@' !in v2
    requires Key(major, n1, v1) == Key(major, n2, v2)
    ensures n1 == n2 && v1 == v2
  {
    var k := Key(major, n1, v1);
    var p1, p2 := "v" + major + ":" + n1 + "@", "v" + major + ":" + n2 + "@";
    assert k == p1 + v1 && k == p2 + v2;
    LastAtBeforeTail(p1, v1);
    LastAtBeforeTail(p2, v2);
    assert |p1| == |p2|;
    assert v1 == k[|p1|..] && v2 == k[|p2|..];
    assert p1 == k[..|p1|] && p2 == k[..|p2|];
    assert n1 == p1[|"v" + major + ":"|..|p1| - 1];
    assert n2 == p2[|"v" + major + ":"|..|p2| - 1];
  }

  /** With an `@` in the version, two different pairs share a key. */
  lemma KeyAmbiguousWithAt(major: string)
    ensures Key(major, "a@b", "c") == Key(major, "a", "b@c")
    ensures "a@b" != "a"
  {
    assert Key(major, "a@b", "c") == "v" + major + ":" + "a@b@c";
    assert Key(major, "a", "b@c") == "v" + major + ":" + "a@b@c";
  }

  /**
   * `key(name)` without a version ends in `@undefined`, whatever the major
   * version and the name; so `key('foo')` with major 0 is `v0:foo@undefined`,
   * not `v0:foo`.
   */
  lemma KeyWithoutVersion(major: string, name: string)
    ensures var k := Key(major, name, ToJsString(Undefined));
      |k| >= 10 && k[|k| - 10..] == "@undefined"
    ensures Key("0", "foo", ToJsString(Undefined)) == "v0:foo@undefined"
    ensures Key("0", "foo", ToJsString(Undefined)) != "v0:foo"
  {
    var k := Key(major, name, ToJsString(Undefined));
    assert k == ("v" + major + ":" + name) + "@undefined";
    assert |Key("0", "foo", ToJsString(Undefined))| == 16;
  }

  // ---------------------------------------------------------------------------
  // Properties of fireforget

  /** Without a cache, or with an empty key, every method calls back empty and changes nothing. */
  lemma FireWithoutCacheOrKey(b: Backend, op: string, key: string, obj: Value)
    requires b.NoCache? || key == ""
    ensures Fire(b, op, key, obj) == Fired(Empty, b)
  {
  }

  /** A method other than `get` and `set` calls back empty and changes nothing. */
  lemma FireOtherMethod(b: Backend, op: string, key: string, obj: Value)
    requires op != "get" && op != "set"
    ensures Fire(b, op, key, obj) == Fired(Empty, b)
  {
  }

  /** `get` yields the stored value, for either kind of backend, and changes nothing. */
  lemma FireGetStored(b: Backend, key: string, obj: Value)
    requires b.Backend? && key != "" && key in b.store
    ensures Fire(b, "get", key, obj) == Fired(Reply(Undefined, b.store[key]), b)
  {
  }

  /** A missing key is a miss for either kind of backend. */
  lemma FireGetMissing(b: Backend, key: string, obj: Value)
    requires b.Backend? && key != "" && key !in b.store
    ensures Fire(b, "get", key, obj).backend == b
    ensures !Hit(Fire(b, "get", key, obj).reply)
    ensures b.kind.Async? ==> Fire(b, "get", key, obj).reply == Reply(b.missError, Undefined)
  {
  }

  /** `set` stores the value under its key and leaves every other key as it was. */
  lemma FireSet(b: Backend, key: string, obj: Value)
    requires b.Backend? && key != ""
    ensures var f := Fire(b, "set", key, obj);
      && f.reply == Empty
      && f.backend.Backend? && f.backend.kind == b.kind && f.backend.missError == b.missError
      && key in f.backend.store && f.backend.store[key] == obj
      && (forall k :: k != key ==> (k in f.backend.store <==> k in b.store))
      && (forall k :: k != key && k in b.store ==> f.backend.store[k] == b.store[k])
  {
  }

  /** What `set` stores, a later `get` of the same key yields. */
  lemma FireSetThenGet(b: Backend, key: string, obj: Value, other: Value)
    requires b.Backend? && key != ""
    ensures Fire(Fire(b, "set", key, obj).backend, "get", key, other).reply == Reply(Undefined, obj)
  {
  }

  // ---------------------------------------------------------------------------
  // Properties of latest and get

  /** A cached `latest` pointer is returned as it is, without asking the registry. */
  lemma LatestHitMakesNoFetch(b: Backend, major: string, name: string, registry: string -> Reply)
    requires Hit(Fire(b, "get", Key(major, name, "latest"), Undefined).reply)
    ensures LatestOk(b, major, name, registry)
    ensures var run := LatestRun(b, major, name, registry);
      && run.reply == Fire(b, "get", Key(major, name, "latest"), Undefined).reply
      && run.backend == b
      && RegistryGet(LatestPath(name)) !in run.trace
  {
  }

  /** On a miss, a registry error is returned and nothing is written. */
  lemma LatestRegistryError(b: Backend, major: string, name: string, registry: string -> Reply)
    requires !Hit(Fire(b, "get", Key(major, name, "latest"), Undefined).reply)
    requires Truthy(registry(LatestPath(name)).err)
    ensures LatestOk(b, major, name, registry)
    ensures var run := LatestRun(b, major, name, registry);
      && run.reply == Reply(registry(LatestPath(name)).err, Undefined)
      && run.backend == b
      && RegistryGet(LatestPath(name)) in run.trace
  {
  }

  /**
   * On a miss, the registry's `version` (of the first document when it sends
   * a list) is stored under the `latest` key and returned.
   */
  lemma LatestStoresVersion(b: Backend, major: string, name: string, registry: string -> Reply)
    requires LatestOk(b, major, name, registry)
    requires !Hit(Fire(b, "get", Key(major, name, "latest"), Undefined).reply)
    requires !Truthy(registry(LatestPath(name)).err)
    ensures var data := registry(LatestPath(name)).data;
      var version := Prop(FirstIfArray(data), "version");
      var run := LatestRun(b, major, name, registry);
      && (data.Arr? ==> |data.items| > 0 && version == Prop(data.items[0], "version"))
      && run.reply == Reply(Undefined, version)
      && run.backend == (if b.Backend? then b.(store := b.store[Key(major, name, "latest") := version]) else b)
  {
  }

  /** An error from `latest` is passed on; the document cache is not consulted and nothing is written. */
  lemma GetLatestError(b: Backend, major: string, name: string, registry: string -> Reply, resolver: string -> Reply)
    requires LatestOk(b, major, name, registry)
    requires Truthy(LatestRun(b, major, name, registry).reply.err)
    ensures var run := GetRun(b, major, name, registry, resolver);
      && run.reply == Reply(LatestRun(b, major, name, registry).reply.err, Undefined)
      && run.backend == b
      && run.trace == LatestRun(b, major, name, registry).trace
      && ResolveCall(name) !in run.trace
  {
  }

  /** A cached document is returned as it is, without calling `resolve`. */
  lemma GetHitMakesNoResolve(b: Backend, major: string, name: string, registry: string -> Reply, resolver: string -> Reply)
    requires LatestOk(b, major, name, registry)
    requires var latest := LatestRun(b, major, name, registry);
      && !Truthy(latest.reply.err)
      && Hit(Fire(latest.backend, "get", Key(major, name, ToJsString(latest.reply.data)), Undefined).reply)
    ensures var latest := LatestRun(b, major, name, registry);
      var run := GetRun(b, major, name, registry, resolver);
      && run.reply == Fire(latest.backend, "get", Key(major, name, ToJsString(latest.reply.data)), Undefined).reply
      && run.backend == latest.backend
      && ResolveCall(name) !in run.trace
  {
    var latest := LatestRun(b, major, name, registry);
    assert ResolveCall(name) !in latest.trace;
  }

  /**
   * On a miss, the result of `resolve` is passed on in any case, and stored
   * under the document key only when it carries no error.
   */
  lemma GetStoresOnlyOnSuccess(b: Backend, major: string, name: string, registry: string -> Reply, resolver: string -> Reply)
    requires LatestOk(b, major, name, registry)
    requires var latest := LatestRun(b, major, name, registry);
      && !Truthy(latest.reply.err)
      && !Hit(Fire(latest.backend, "get", Key(major, name, ToJsString(latest.reply.data)), Undefined).reply)
    ensures var latest := LatestRun(b, major, name, registry);
      var key := Key(major, name, ToJsString(latest.reply.data));
      var run := GetRun(b, major, name, registry, resolver);
      && run.reply == resolver(name)
      && ResolveCall(name) in run.trace
      && (Truthy(resolver(name).err) ==> run.backend == latest.backend)
      && (!Truthy(resolver(name).err) ==> run.backend == Fire(latest.backend, "set", key, resolver(name).data).backend)
  {
  }

  /** After a `latest` run that yields a truthy version, the pointer is in the cache. */
  lemma LatestLeavesPointer(b: Backend, major: string, name: string, registry: string -> Reply)
    requires b.Backend? && LatestOk(b, major, name, registry)
    requires Truthy(LatestRun(b, major, name, registry).reply.data)
    ensures var run := LatestRun(b, major, name, registry);
      && run.backend.Backend?
      && Key(major, name, "latest") in run.backend.store
      && run.backend.store[Key(major, name, "latest")] == run.reply.data
  {
  }

  /**
   * A page served with data leaves both entries in the cache: serving it
   * again makes no registry request, calls no `resolve`, writes nothing and
   * yields the same data. Versions spelled `latest` are excluded: their
   * document would overwrite the pointer.
   */
  lemma GetTwiceServedFromCache(b: Backend, major: string, name: string, registry: string -> Reply, resolver: string -> Reply)
    requires b.Backend? && LatestOk(b, major, name, registry)
    requires Truthy(LatestRun(b, major, name, registry).reply.data)
    requires ToJsString(LatestRun(b, major, name, registry).reply.data) != "latest"
    requires !Truthy(GetRun(b, major, name, registry, resolver).reply.err)
    requires Truthy(GetRun(b, major, name, registry, resolver).reply.data)
    ensures var first := GetRun(b, major, name, registry, resolver);
      && LatestOk(first.backend, major, name, registry)
      && var second := GetRun(first.backend, major, name, registry, resolver);
      && RegistryGet(LatestPath(name)) !in second.trace
      && ResolveCall(name) !in second.trace
      && second.backend == first.backend
      && second.reply.data == first.reply.data
  {
    var latest := LatestRun(b, major, name, registry);
    var first := GetRun(b, major, name, registry, resolver);
    var latestKey := Key(major, name, "latest");
    var version := latest.reply.data;
    var key := Key(major, name, ToJsString(version));
    LatestLeavesPointer(b, major, name, registry);
    LatestKeyIsDistinct(major, name, ToJsString(version));
    assert !Truthy(latest.reply.err);
    // The first run leaves the pointer and the document in the cache.
    assert first.backend.Backend? && latestKey in first.backend.store && first.backend.store[latestKey] == version
        && key in first.backend.store && first.backend.store[key] == first.reply.data;
    // The second run finds both.
    FireGetStored(first.backend, latestKey, Undefined);
    assert LatestRun(first.backend, major, name, registry).reply == Reply(Undefined, version);
    FireGetStored(first.backend, key, Undefined);
  }

  // ---------------------------------------------------------------------------
  // The objects

  /** A cache backend holding values by key. */
  class Cache {
    var store: map<string, Value>
    const kind: Kind
    const missError: Value

    constructor (kind: Kind, missError: Value)
      ensures store == map[] && this.kind == kind && this.missError == missError
    {
      store := map[];
      this.kind := kind;
      this.missError := missError;
    }

    /** `cache.get(key)` or `cache.get(key, fn)`. */
    method Get(key: string) returns (r: Reply)
      ensures r == Read(Backend(kind, store, missError), key)
    {
      r := Read(Backend(kind, store, missError), key);
    }

    /** `cache.set(key, obj)` or `cache.set(key, obj, fn)`. */
    method Set(key: string, obj: Value)
      modifies this
      ensures store == old(store)[key := obj]
    {
      store := store[key := obj];
    }
  }

  class Pagelet {
    const major: string
    const cache: Cache?
    /** The requests made so far, oldest first. */
    ghost var requests: seq<Request>

    constructor (major: string, cache: Cache?)
      ensures this.major == major && this.cache == cache && requests == []
    {
      this.major := major;
      this.cache := cache;
      requests := [];
    }

    function State(): Backend
      reads this, cache
    {
      if cache == null then NoCache else Backend(cache.kind, cache.store, cache.missError)
    }

    /** `fireforget(method, key, obj, fn)`: the arguments `fn` is called with. */
    method Fireforget(op: string, key: string, obj: Value) returns (r: Reply)
      modifies this, cache
      ensures var f := Fire(old(State()), op, key, obj);
        r == f.reply && State() == f.backend
      ensures requests == old(requests) + [CacheCall(op, key)]
    {
      requests := requests + [CacheCall(op, key)];
      r := Empty;
      if key != "" && cache != null {
        if op == "get" {
          r := cache.Get(key);
        } else if op == "set" {
          cache.Set(key, obj);
        }
      }
    }

    /** `latest(name, fn)`, with the registry's replies given by `registry`. */
    method Latest(name: string, registry: string -> Reply) returns (r: Reply)
      requires LatestOk(State(), major, name, registry)
      modifies this, cache
      ensures var run := LatestRun(old(State()), major, name, registry);
        r == run.reply && State() == run.backend && requests == old(requests) + run.trace
    {
      var key := Key(major, name, "latest");
      var cached := Fireforget("get", key, Undefined);
      if !Truthy(cached.err) && Truthy(cached.data) {
        return cached;
      }
      var reg := registry(LatestPath(name));
      requests := requests + [RegistryGet(LatestPath(name))];
      if Truthy(reg.err) {
        return Reply(reg.err, Undefined);
      }
      var data := reg.data;
      if data.Arr? {
        data := if |data.items| == 0 then Undefined else data.items[0];
      }
      var version := Prop(data, "version");
      var _ := Fireforget("set", key, version);
      r := Reply(Undefined, version);
    }

    /** `get(next)`: the reply `next` is called with. */
    method Get(name: string, registry: string -> Reply, resolver: string -> Reply) returns (r: Reply)
      requires LatestOk(State(), major, name, registry)
      modifies this, cache
      ensures var run := GetRun(old(State()), major, name, registry, resolver);
        r == run.reply && State() == run.backend && requests == old(requests) + run.trace
    {
      var latest := Latest(name, registry);
      if Truthy(latest.err) {
        return Reply(latest.err, Undefined);
      }
      var key := Key(major, name, ToJsString(latest.data));
      var cached := Fireforget("get", key, Undefined);
      if !Truthy(cached.err) && Truthy(cached.data) {
        return cached;
      }
      r := resolver(name);
      requests := requests + [ResolveCall(name)];
      if !Truthy(r.err) {
        var _ := Fireforget("set", key, r.data);
      }
    }
  }
}
