/**
 * The record reducer of resolve.js (`reduce`): it normalises, in place, the
 * record joined from the package details, the dependency map, the rendered
 * README and the GitHub data, so that the result can be cached and handed to
 * the page template.
 *
 * Each step is given as a specification function on values, the record is a
 * class whose `Reduce` method performs the steps in the order of the source,
 * and the lemmas state what the steps promise.
 */
module Reduce {
  import opened JsValues

  /** Package fields dropped first: the raw README and the version history. */
  const Bulky: set<string> := {"readmeFilename", "versions", "readme"}

  /** The back-references of a dependency entry, which make the record cyclic. */
  const BackRefs: set<string> := {"dependencies", "dependent", "parent"}

  /** Package timestamps that are wrapped whether present or not. */
  const TimeFields: seq<string> := ["created", "modified"]

  /** Package links removed when they are empty. */
  const LinkFields: seq<string> := ["repository", "homepage", "bugs"]

  /**
   * The two date formatters (`moment(date).format('MMM Do YYYY')` and
   * `moment(date).fromNow()`); they depend on the locale and the clock.
   */
  datatype Clock = Clock(human: Value -> string, ago: Value -> string)

  /** The display form `{human, ago, full}` of a timestamp. */
  function Stamp(date: Value, clock: Clock): Value {
    Obj(map["human" := Str(clock.human(date)), "ago" := Str(clock.ago(date)), "full" := date])
  }

  predicate Distinct(s: seq<string>) {
    forall i, j :: 0 <= i < j < |s| ==> s[i] != s[j]
  }

  /** `order` lists the keys of `m` once each: the order of `Object.keys`. */
  predicate Enumerates(order: seq<string>, m: map<string, Value>) {
    && Distinct(order)
    && (forall id :: id in m ==> id in order)
    && (forall i :: 0 <= i < |order| ==> order[i] in m)
  }

  // ---------------------------------------------------------------------------
  // Dependency entries

  /** An entry whose `parent.name` can be read: an object with a parent. */
  predicate EntryOk(entry: Value) {
    entry.Obj? && "parent" in entry.fields && !Nullish(entry.fields["parent"])
  }

  /** `entry.parent.name`. */
  function ParentName(entry: Value): Value
    requires EntryOk(entry)
  {
    Prop(entry.fields["parent"], "name")
  }

  /** `+(entry.parent.name === package.name)`. */
  function MainFlag(entry: Value, packageName: Value): int
    requires EntryOk(entry)
  {
    if ParentName(entry) == packageName then 1 else 0
  }

  /** The entry with `main` set and its three back-references deleted. */
  function FlattenEntry(entry: Value, packageName: Value): Value
    requires EntryOk(entry)
  {
    Obj(entry.fields["main" := Num(MainFlag(entry, packageName))] - BackRefs)
  }

  /**
   * The dependency values `reduce` handles: a map of entries that have a
   * parent, as the dependency resolver hands over, or a value that lists no
   * entries at all (`undefined`, an empty array, a boolean, a number or the
   * empty string, which `typeof` and `|| {}` turn into an empty listing).
   */
  predicate ShrinkwrapOk(sw: Value) {
    || sw.Undefined?
    || sw == Arr([])
    || sw.Bool?
    || sw.Num?
    || sw == Str("")
    || (sw.Obj? && forall id :: id in sw.fields ==> EntryOk(sw.fields[id]))
  }

  /** The own keys of the dependency map, with their values. */
  function Entries(sw: Value): map<string, Value> {
    if sw.Obj? then sw.fields else map[]
  }

  function FlattenAll(m: map<string, Value>, packageName: Value): (r: map<string, Value>)
    requires forall id :: id in m ==> EntryOk(m[id])
    ensures r.Keys == m.Keys
  {
    map id | id in m :: FlattenEntry(m[id], packageName)
  }

  /** `Object.keys(m).map(id => m[id])` when `Object.keys(m)` is `order`. */
  function ValuesInOrder(m: map<string, Value>, order: seq<string>): (r: seq<Value>)
    requires forall i :: 0 <= i < |order| ==> order[i] in m
    ensures |r| == |order|
  {
    seq(|order|, i requires 0 <= i < |order| => m[order[i]])
  }

  /** The `main` number of a flattened entry, as the sort comparator reads it. */
  function MainOf(v: Value): int {
    if v.Obj? && Field(v.fields, "main").Num? then Field(v.fields, "main").n else 0
  }

  predicate IsMain(v: Value) {
    MainOf(v) == 1
  }

  function Mains(xs: seq<Value>): seq<Value> {
    if xs == [] then [] else (if IsMain(xs[0]) then [xs[0]] else []) + Mains(xs[1..])
  }

  function Others(xs: seq<Value>): seq<Value> {
    if xs == [] then [] else (if IsMain(xs[0]) then [] else [xs[0]]) + Others(xs[1..])
  }

  /**
   * `xs.sort((a, b) => b.main - a.main)` for entries whose `main` is 0 or 1.
   * The source's sort need not be stable; this is the stable outcome.
   */
  function SortByMain(xs: seq<Value>): seq<Value> {
    Mains(xs) + Others(xs)
  }

  /** The `shrinkwrap` list that `reduce` produces from the input map. */
  function ListedShrinkwrap(sw: Value, packageName: Value, order: seq<string>): seq<Value>
    requires ShrinkwrapOk(sw) && Enumerates(order, Entries(sw))
  {
    if sw.Obj? then SortByMain(ValuesInOrder(FlattenAll(sw.fields, packageName), order)) else []
  }

  // ---------------------------------------------------------------------------
  // Package fields

  /**
   * `if (p.time) Object.keys(p.time).forEach(k => p.time[k] = stamp(p.time[k]))`:
   * objects and arrays have their members wrapped; a truthy number or boolean
   * has no own keys.
   */
  function WrapTimes(time: Value, clock: Clock): Value {
    match time
    case Obj(f) => Obj(map k | k in f :: Stamp(f[k], clock))
    case Arr(xs) => Arr(seq(|xs|, i requires 0 <= i < |xs| => Stamp(xs[i], clock)))
    case _ => time
  }

  /** Wraps `p[f]` for each `f` of `fields` in turn, creating it when absent. */
  function StampFields(p: map<string, Value>, fields: seq<string>, clock: Clock): map<string, Value>
    decreases |fields|
  {
    if fields == [] then p
    else
      var q := StampFields(p, fields[..|fields| - 1], clock);
      var f := fields[|fields| - 1];
      q[f := Stamp(Field(q, f), clock)]
  }

  /** `Object.keys(v).length` on a value that is not null or undefined. */
  function KeyCount(v: Value): nat
    requires !Nullish(v)
  {
    if v.Obj? then |v.fields| else if v.Arr? then |v.items| else if v.Str? then |v.s| else 0
  }

  /** Deletes each of `fields` in turn from `p` when it holds an empty array or object. */
  function PruneEmpty(p: map<string, Value>, fields: seq<string>): map<string, Value>
    decreases |fields|
  {
    if fields == [] then p
    else
      PruneOne(PruneEmpty(p, fields[..|fields| - 1]), fields[|fields| - 1])
  }

  /** Deletes `p[f]` when it holds an empty array or object. */
  function PruneOne(p: map<string, Value>, f: string): map<string, Value> {
    if f in p && IsEmptyCollection(p[f]) then p - {f} else p
  }

  /** The package record after every step of `reduce`. */
  function ReducedPackage(p: map<string, Value>, clock: Clock): map<string, Value> {
    PruneEmpty(StampFields(WithTimeWrapped(p - Bulky, clock), TimeFields, clock), LinkFields)
  }

  /** The package with its `time` member wrapped, if it has one. */
  function WithTimeWrapped(p: map<string, Value>, clock: Clock): map<string, Value> {
    if "time" in p then p["time" := WrapTimes(p["time"], clock)] else p
  }

  /** `data.readme || data.package.description || ''`. */
  function DefaultReadme(readme: Value, description: Value): Value {
    if Truthy(readme) then readme else if Truthy(description) then description else Str("")
  }

  /** `v.length` as the GitHub step reads it. */
  function Length(v: Value): Value
    requires !Nullish(v)
  {
    match v
    case Arr(xs) => Num(|xs|)
    case Str(s) => Num(|s|)
    case Obj(f) => Field(f, "length")
    case _ => Undefined
  }

  /** The GitHub step's outcome: a non-empty array becomes its last element. */
  function CollapseGithub(github: Value): Value {
    if github.Arr? && |github.items| > 0 then github.items[|github.items| - 1] else github
  }

  // ---------------------------------------------------------------------------
  // The record

  class Record {
    var package: map<string, Value>
    var readme: Value
    var shrinkwrap: Value
    var github: Value

    constructor (package: map<string, Value>, readme: Value, shrinkwrap: Value, github: Value)
      ensures this.package == package && this.readme == readme
      ensures this.shrinkwrap == shrinkwrap && this.github == github
    {
      this.package := package;
      this.readme := readme;
      this.shrinkwrap := shrinkwrap;
      this.github := github;
    }

    /** `reduce(data, fn)`: the record after every step, updated in place. */
    method Reduce(clock: Clock, order: seq<string>)
      requires Reducible(package, shrinkwrap, github, order)
      modifies this
      ensures package == ReducedPackage(old(package), clock)
      ensures readme == DefaultReadme(old(readme), Field(old(package), "description"))
      ensures github == CollapseGithub(old(github))
      ensures shrinkwrap == Arr(ListedShrinkwrap(old(shrinkwrap), Field(old(package), "name"), order))
    {
      package, readme, shrinkwrap, github := ReduceSteps(package, readme, shrinkwrap, github, clock, order);
    }
  }

  /**
   * The inputs on which `reduce` runs to completion. Outside them the source
   * throws a TypeError: a dependency entry without a parent, a null link
   * field (`Object.keys(null)`), a non-empty string `time` (assignment to a
   * string index in strict mode), a GitHub value with a truthy `length` and
   * no `pop`. `order` is the order in which `Object.keys` lists the
   * dependency map.
   */
  predicate Reducible(package: map<string, Value>, shrinkwrap: Value, github: Value, order: seq<string>) {
    && ShrinkwrapOk(shrinkwrap)
    && Enumerates(order, Entries(shrinkwrap))
    && !(github.Str? && github.s != "")
    && !(github.Obj? && Truthy(Field(github.fields, "length")))
    && !(Field(package, "time").Str? && Field(package, "time").s != "")
    && LinksOk(package)
  }

  /** The steps of `reduce` in the order of the source, on the record's four members. */
  method ReduceSteps(package0: map<string, Value>, readme0: Value, shrinkwrap0: Value, github0: Value,
                     clock: Clock, order: seq<string>)
    returns (package: map<string, Value>, readme: Value, shrinkwrap: Value, github: Value)
    requires Reducible(package0, shrinkwrap0, github0, order)
    ensures package == ReducedPackage(package0, clock)
    ensures readme == DefaultReadme(readme0, Field(package0, "description"))
    ensures github == CollapseGithub(github0)
    ensures shrinkwrap == Arr(ListedShrinkwrap(shrinkwrap0, Field(package0, "name"), order))
  {
    package := package0 - {"readmeFilename"};
    package := package - {"versions"};
    package := package - {"readme"};
    assert package == package0 - Bulky;
    assert "repository" !in Bulky && "homepage" !in Bulky && "bugs" !in Bulky && "time" !in Bulky;
    assert "name" !in Bulky && "description" !in Bulky;
    var name := Field(package, "name");
    shrinkwrap := FlattenDependencies(shrinkwrap0, name, order);
    github := CollapseGithubList(github0);
    readme := DefaultReadme(readme0, Field(package, "description"));
    if shrinkwrap.Obj? {
      forall id | id in shrinkwrap.fields ensures Flat(shrinkwrap.fields[id]) {
        FlattenEntryProperties(shrinkwrap0.fields[id], name);
      }
    }
    package := WrapPublishTimes(package, clock);
    package := WrapCreatedModified(package, clock);
    shrinkwrap := ListDependencies(shrinkwrap, order);
    package := RemoveEmptyLinks(package);
  }

  /** Sets `main` on every dependency entry and deletes its back-references. */
  method FlattenDependencies(sw: Value, name: Value, order: seq<string>) returns (flat: Value)
    requires ShrinkwrapOk(sw) && Enumerates(order, Entries(sw))
    ensures sw.Obj? ==> flat == Obj(FlattenAll(sw.fields, name))
    ensures !sw.Obj? ==> flat == sw
    ensures flat.Obj? ==> Enumerates(order, flat.fields)
    ensures SortByMain(if flat.Obj? then ValuesInOrder(flat.fields, order) else []) == ListedShrinkwrap(sw, name, order)
  {
    flat := sw;
    if sw.Obj? {
      var m := FlattenMap(sw.fields, name, order);
      flat := Obj(m);
    }
  }

  /** `if (data.github && data.github.length) data.github = data.github.pop()`. */
  method CollapseGithubList(github: Value) returns (r: Value)
    requires !(github.Str? && github.s != "")
    requires !(github.Obj? && Truthy(Field(github.fields, "length")))
    ensures r == CollapseGithub(github)
  {
    r := github;
    if Truthy(github) && Truthy(Length(github)) {
      var items := github.items;
      r := items[|items| - 1];
    }
  }

  /** Wraps every member of a truthy `package.time`. */
  method WrapPublishTimes(p: map<string, Value>, clock: Clock) returns (q: map<string, Value>)
    requires !(Field(p, "time").Str? && Field(p, "time").s != "")
    ensures q == WithTimeWrapped(p, clock)
    ensures LinksOk(p) ==> LinksOk(q)
  {
    q := p;
    var time := Field(p, "time");
    if Truthy(time) {
      if time.Obj? {
        var t := WrapTimeMap(time.fields, clock);
        q := q["time" := Obj(t)];
      } else if time.Arr? {
        var xs := WrapTimeList(time.items, clock);
        q := q["time" := Arr(xs)];
      }
    }
  }

  /** Wraps `created` and then `modified` of the package, present or not. */
  method WrapCreatedModified(p: map<string, Value>, clock: Clock) returns (q: map<string, Value>)
    ensures q == StampFields(p, TimeFields, clock)
    ensures LinksOk(p) ==> LinksOk(q)
  {
    q := p;
    for i := 0 to |TimeFields|
      invariant q == StampFields(p, TimeFields[..i], clock)
    {
      var f := TimeFields[i];
      q := q[f := Stamp(Field(q, f), clock)];
      assert TimeFields[..i + 1][..i] == TimeFields[..i];
    }
    assert TimeFields[..|TimeFields|] == TimeFields;
    if LinksOk(p) {
      LinksAfterStamps(p, clock);
    }
  }

  /** `Object.keys(data.shrinkwrap || {}).map(...).sort(...)` after flattening. */
  method ListDependencies(sw: Value, order: seq<string>) returns (r: Value)
    requires sw.Obj? ==> Enumerates(order, sw.fields)
    requires sw.Obj? ==> forall id :: id in sw.fields ==> Flat(sw.fields[id])
    ensures r == Arr(SortByMain(if sw.Obj? then ValuesInOrder(sw.fields, order) else []))
    ensures !sw.Obj? ==> r == Arr([])
    ensures sw.Obj? ==> multiset(r.items) == multiset(ValuesInOrder(sw.fields, order))
    ensures forall i, j :: 0 <= i < j < |r.items| && IsMain(r.items[j]) ==> IsMain(r.items[i])
  {
    var listed := if sw.Obj? then ValuesInOrder(sw.fields, order) else [];
    SortByMainProperties(listed);
    r := Arr(SortByMain(listed));
  }

  /** Deletes `repository`, `homepage` and `bugs` when they are empty. */
  method RemoveEmptyLinks(p: map<string, Value>) returns (q: map<string, Value>)
    requires LinksOk(p)
    ensures q == PruneEmpty(p, LinkFields)
  {
    q := p;
    for i := 0 to |LinkFields|
      invariant q == PruneEmpty(p, LinkFields[..i])
      invariant LinksOk(q)
    {
      q := RemoveIfEmpty(q, LinkFields[i]);
      assert LinkFields[..i + 1][..i] == LinkFields[..i];
    }
    assert LinkFields[..|LinkFields|] == LinkFields;
  }

  /** The body of the loop over the link fields, for one key. */
  method RemoveIfEmpty(p: map<string, Value>, key: string) returns (q: map<string, Value>)
    requires Field(p, key) != Null
    ensures q == PruneOne(p, key)
    ensures LinksOk(p) ==> LinksOk(q)
  {
    q := p;
    var v := Field(p, key);
    if v.Arr? {
      if KeyCount(v) == 0 {
        q := q - {key};
      }
    } else if (v.Null? || v.Obj?) && KeyCount(v) == 0 {
      q := q - {key};
    }
  }

  /** The loop over `Object.keys(shrinkwrap)`, updating each entry in turn. */
  method FlattenMap(m0: map<string, Value>, name: Value, order: seq<string>) returns (m: map<string, Value>)
    requires forall id :: id in m0 ==> EntryOk(m0[id])
    requires Enumerates(order, m0)
    ensures m == FlattenAll(m0, name)
  {
    m := m0;
    var i := 0;
    while i < |order|
      invariant 0 <= i <= |order|
      invariant FlattenedUpTo(m, m0, name, order, i)
    {
      var id := order[i];
      FlattenStep(m, m0, name, order, i);
      var flat := FlattenEach(m[id], name);
      m := m[id := flat];
      i := i + 1;
    }
    FlattenedAll(m, m0, name, order);
  }

  /** After `i` turns of the loop: the first `i` listed entries flattened, the rest as they were. */
  predicate FlattenedUpTo(m: map<string, Value>, m0: map<string, Value>, name: Value, order: seq<string>, i: nat)
    requires forall id :: id in m0 ==> EntryOk(m0[id])
    requires Enumerates(order, m0) && i <= |order|
  {
    && m.Keys == m0.Keys
    && (forall j :: 0 <= j < i ==> m[order[j]] == FlattenEntry(m0[order[j]], name))
    && (forall k :: i <= k < |order| ==> m[order[k]] == m0[order[k]])
  }

  /** One turn of the loop keeps `FlattenedUpTo`. */
  lemma FlattenStep(m: map<string, Value>, m0: map<string, Value>, name: Value, order: seq<string>, i: nat)
    requires forall id :: id in m0 ==> EntryOk(m0[id])
    requires Enumerates(order, m0) && i < |order|
    requires FlattenedUpTo(m, m0, name, order, i)
    ensures order[i] in m && EntryOk(m[order[i]])
    ensures FlattenedUpTo(m[order[i] := FlattenEntry(m[order[i]], name)], m0, name, order, i + 1)
  {
    var m' := m[order[i] := FlattenEntry(m[order[i]], name)];
    forall k | i + 1 <= k < |order| ensures m'[order[k]] == m0[order[k]] {
      assert order[k] != order[i];
    }
    forall j | 0 <= j < i ensures m'[order[j]] == FlattenEntry(m0[order[j]], name) {
      assert order[j] != order[i];
    }
  }

  /** Once every listed key is done, the map is `FlattenAll`. */
  lemma FlattenedAll(m: map<string, Value>, m0: map<string, Value>, name: Value, order: seq<string>)
    requires forall id :: id in m0 ==> EntryOk(m0[id])
    requires Enumerates(order, m0)
    requires FlattenedUpTo(m, m0, name, order, |order|)
    ensures m == FlattenAll(m0, name)
  {
    forall id | id in m ensures m[id] == FlattenEntry(m0[id], name) {
      assert id in order;
      var j :| 0 <= j < |order| && order[j] == id;
    }
  }

  /** The body of the loop over the dependency map, for one entry. */
  method FlattenEach(entry: Value, name: Value) returns (flat: Value)
    requires EntryOk(entry)
    ensures flat == FlattenEntry(entry, name)
  {
    var e := entry.fields["main" := Num(if ParentName(entry) == name then 1 else 0)];
    e := e - {"dependencies"};
    e := e - {"dependent"};
    e := e - {"parent"};
    flat := Obj(e);
  }

  /** No link field holds null, on which `Object.keys` throws. */
  predicate LinksOk(p: map<string, Value>) {
    Field(p, "repository") != Null && Field(p, "homepage") != Null && Field(p, "bugs") != Null
  }

  /** Wrapping the timestamps touches no link field. */
  lemma LinksAfterStamps(p: map<string, Value>, clock: Clock)
    requires LinksOk(p)
    ensures LinksOk(StampFields(p, TimeFields, clock))
  {
    assert TimeFields[..1] == ["created"];
    assert TimeFields[..1][..0] == [];
  }

  /** The loop over `Object.keys(time)` of an object: each member wrapped, in any order. */
  method WrapTimeMap(time: map<string, Value>, clock: Clock) returns (t: map<string, Value>)
    ensures Obj(t) == WrapTimes(Obj(time), clock)
  {
    t := time;
    var todo := t.Keys;
    while todo != {}
      invariant todo <= t.Keys && t.Keys == time.Keys
      invariant forall k :: k in t ==> t[k] == if k in todo then time[k] else Stamp(time[k], clock)
      decreases todo
    {
      var k :| k in todo;
      t := t[k := Stamp(t[k], clock)];
      todo := todo - {k};
    }
  }

  /** The loop over `Object.keys(time)` of an array: each element wrapped. */
  method WrapTimeList(time: seq<Value>, clock: Clock) returns (xs: seq<Value>)
    ensures Arr(xs) == WrapTimes(Arr(time), clock)
  {
    xs := time;
    for i := 0 to |xs|
      invariant |xs| == |time|
      invariant forall j :: 0 <= j < |xs| ==> xs[j] == if j < i then Stamp(time[j], clock) else time[j]
    {
      xs := xs[i := Stamp(xs[i], clock)];
    }
  }

  // ---------------------------------------------------------------------------
  // What the steps promise

  /** A wrapped timestamp has exactly the three display keys and keeps the original as `full`. */
  lemma StampKeepsDate(date: Value, clock: Clock)
    ensures Stamp(date, clock).Obj?
    ensures Stamp(date, clock).fields.Keys == {"human", "ago", "full"}
    ensures Stamp(date, clock).fields["full"] == date
    ensures Stamp(date, clock).fields["human"].Str? && Stamp(date, clock).fields["ago"].Str?
  {
  }

  /** A flattened entry has no back-reference, a 0/1 `main` flag, and keeps every other field. */
  lemma FlattenEntryProperties(entry: Value, name: Value)
    requires EntryOk(entry)
    ensures var r := FlattenEntry(entry, name);
      && r.Obj?
      && "dependencies" !in r.fields && "dependent" !in r.fields && "parent" !in r.fields
      && "main" in r.fields
      && (r.fields["main"] == Num(1) <==> ParentName(entry) == name)
      && (r.fields["main"] == Num(0) <==> ParentName(entry) != name)
      && (forall f :: f in r.fields ==> f == "main" || f in entry.fields)
      && (forall f :: f in entry.fields && f !in BackRefs && f != "main" ==> f in r.fields && r.fields[f] == entry.fields[f])
  {
  }

  /** Splitting into main and other entries loses and adds nothing. */
  lemma {:induction false} MainsAndOthers(xs: seq<Value>)
    ensures multiset(Mains(xs)) + multiset(Others(xs)) == multiset(xs)
    ensures forall x :: x in Mains(xs) ==> IsMain(x)
    ensures forall x :: x in Others(xs) ==> !IsMain(x)
  {
    MainsAndOthersCount(xs);
    MainsAndOthersKind(xs);
  }

  lemma {:induction false} MainsAndOthersCount(xs: seq<Value>)
    ensures multiset(Mains(xs)) + multiset(Others(xs)) == multiset(xs)
  {
    if xs != [] {
      MainsAndOthersCount(xs[1..]);
      assert xs == [xs[0]] + xs[1..];
    }
  }

  lemma {:induction false} MainsAndOthersKind(xs: seq<Value>)
    ensures forall x :: x in Mains(xs) ==> IsMain(x)
    ensures forall x :: x in Others(xs) ==> !IsMain(x)
  {
    if xs != [] {
      MainsAndOthersKind(xs[1..]);
    }
  }

  /** The sort is a permutation that puts every main entry before every other one. */
  lemma SortByMainProperties(xs: seq<Value>)
    ensures multiset(SortByMain(xs)) == multiset(xs)
    ensures |SortByMain(xs)| == |xs|
    ensures forall i, j :: 0 <= i < j < |SortByMain(xs)| && IsMain(SortByMain(xs)[j]) ==> IsMain(SortByMain(xs)[i])
  {
    MainsAndOthers(xs);
    var r := SortByMain(xs);
    assert |multiset(r)| == |multiset(xs)|;
    forall k | |Mains(xs)| <= k < |r| ensures !IsMain(r[k]) {
      assert r[k] == Others(xs)[k - |Mains(xs)|];
    }
    forall k | 0 <= k < |Mains(xs)| ensures IsMain(r[k]) {
      assert r[k] == Mains(xs)[k];
    }
  }

  /** A duplicate-free listing of a key set is as long as the set is large. */
  lemma {:induction false} EnumerationSize(order: seq<string>, m: map<string, Value>)
    requires Enumerates(order, m)
    ensures |order| == |m|
  {
    if order == [] {
      assert m.Keys == {};
    } else {
      var id := order[0];
      var rest := m - {id};
      forall j | 0 <= j < |order[1..]| ensures order[1..][j] in rest {
        assert order[1..][j] == order[j + 1] != order[0];
      }
      forall k | k in rest ensures k in order[1..] {
        var j :| 0 <= j < |order| && order[j] == k;
        assert j != 0;
        assert order[1..][j - 1] == k;
      }
      forall a, b | 0 <= a < b < |order[1..]| ensures order[1..][a] != order[1..][b] {
        assert order[1..][a] == order[a + 1] && order[1..][b] == order[b + 1];
      }
      EnumerationSize(order[1..], rest);
      assert m.Keys == rest.Keys + {id};
    }
  }

  /** The listing has one flattened entry per key of the map, and nothing else. */
  lemma ListingMembers(m: map<string, Value>, name: Value, order: seq<string>)
    requires (forall id :: id in m ==> EntryOk(m[id])) && Enumerates(order, m)
    ensures |ValuesInOrder(FlattenAll(m, name), order)| == |m|
    ensures forall x :: x in ValuesInOrder(FlattenAll(m, name), order) <==>
      exists id :: id in m && x == FlattenEntry(m[id], name)
  {
    EnumerationSize(order, m);
    ListingHasOnlyEntries(m, name, order);
    ListingHasEveryEntry(m, name, order);
  }

  lemma ListingHasOnlyEntries(m: map<string, Value>, name: Value, order: seq<string>)
    requires (forall id :: id in m ==> EntryOk(m[id])) && Enumerates(order, m)
    ensures forall x :: x in ValuesInOrder(FlattenAll(m, name), order) ==>
      exists id :: id in m && x == FlattenEntry(m[id], name)
  {
    var listing := ValuesInOrder(FlattenAll(m, name), order);
    forall x | x in listing ensures exists id :: id in m && x == FlattenEntry(m[id], name) {
      var i :| 0 <= i < |listing| && listing[i] == x;
      assert order[i] in m && x == FlattenEntry(m[order[i]], name);
    }
  }

  lemma ListingHasEveryEntry(m: map<string, Value>, name: Value, order: seq<string>)
    requires (forall id :: id in m ==> EntryOk(m[id])) && Enumerates(order, m)
    ensures forall id :: id in m ==> FlattenEntry(m[id], name) in ValuesInOrder(FlattenAll(m, name), order)
  {
    var listing := ValuesInOrder(FlattenAll(m, name), order);
    forall id | id in m ensures FlattenEntry(m[id], name) in listing {
      var i :| 0 <= i < |order| && order[i] == id;
      assert listing[i] == FlattenEntry(m[id], name);
    }
  }

  /** A flattened entry: an object without back-references whose `main` is 0 or 1. */
  predicate Flat(x: Value) {
    && x.Obj?
    && "dependencies" !in x.fields && "dependent" !in x.fields && "parent" !in x.fields
    && (MainOf(x) == 0 || MainOf(x) == 1)
  }

  /** Every listed entry is flattened. */
  lemma ListingShape(m: map<string, Value>, name: Value, order: seq<string>)
    requires (forall id :: id in m ==> EntryOk(m[id])) && Enumerates(order, m)
    ensures forall x :: x in ValuesInOrder(FlattenAll(m, name), order) ==> Flat(x)
  {
    var listing := ValuesInOrder(FlattenAll(m, name), order);
    forall x | x in listing ensures Flat(x) {
      var i :| 0 <= i < |listing| && listing[i] == x;
      FlattenEntryProperties(m[order[i]], name);
    }
  }

  /** Two sequences with the same multiset have the same members. */
  lemma SameMembers(a: seq<Value>, b: seq<Value>)
    requires multiset(a) == multiset(b)
    ensures forall x :: x in a <==> x in b
  {
    forall x ensures x in a <==> x in b {
      assert x in a <==> x in multiset(a);
      assert x in b <==> x in multiset(b);
    }
  }

  /** Sorting flattened entries keeps them, and orders them by `main`, 1 before 0. */
  lemma SortFlat(xs: seq<Value>)
    requires forall x :: x in xs ==> Flat(x)
    ensures multiset(SortByMain(xs)) == multiset(xs)
    ensures |SortByMain(xs)| == |xs|
    ensures forall x :: x in SortByMain(xs) <==> x in xs
    ensures forall i :: 0 <= i < |SortByMain(xs)| ==> Flat(SortByMain(xs)[i])
    ensures forall i, j :: 0 <= i < j < |SortByMain(xs)| ==> MainOf(SortByMain(xs)[i]) >= MainOf(SortByMain(xs)[j])
  {
    var r := SortByMain(xs);
    SortByMainProperties(xs);
    SameMembers(r, xs);
    forall i | 0 <= i < |r| ensures Flat(r[i]) {
      assert r[i] in r;
    }
    forall i, j | 0 <= i < j < |r| ensures MainOf(r[i]) >= MainOf(r[j]) {
      assert Flat(r[i]) && Flat(r[j]) by {
        assert r[i] in r && r[j] in r;
      }
    }
  }

  /**
   * The output `shrinkwrap` list holds the flattened entries of the input map,
   * one per key, as a permutation of the `Object.keys` listing; every one is
   * flattened; and it is sorted by `main`, 1 before 0.
   */
  lemma ListedShrinkwrapProperties(sw: Value, name: Value, order: seq<string>)
    requires ShrinkwrapOk(sw) && Enumerates(order, Entries(sw))
    ensures var r := ListedShrinkwrap(sw, name, order);
      && |r| == |Entries(sw)|
      && multiset(r) == multiset(ValuesInOrder(FlattenAll(Entries(sw), name), order))
      && (forall x :: x in r <==> exists id :: id in Entries(sw) && x == FlattenEntry(Entries(sw)[id], name))
      && (forall i :: 0 <= i < |r| ==> Flat(r[i]))
      && (forall i, j :: 0 <= i < j < |r| ==> MainOf(r[i]) >= MainOf(r[j]))
  {
    var m := Entries(sw);
    var listing := ValuesInOrder(FlattenAll(m, name), order);
    if sw.Obj? {
      ListingMembers(m, name, order);
      ListingShape(m, name, order);
      SortFlat(listing);
      SortByMainProperties(listing);
    } else {
      EnumerationSize(order, m);
    }
  }

  /** `a || b || ... || fallback`: the first truthy value, else the last operand. */
  function FirstTruthy(xs: seq<Value>, fallback: Value): Value {
    if xs == [] then fallback else if Truthy(xs[0]) then xs[0] else FirstTruthy(xs[1..], fallback)
  }

  /** The README defaults to the first truthy of the rendered README and the description, else ''. */
  lemma DefaultReadmeIsFirstTruthy(readme: Value, description: Value)
    ensures DefaultReadme(readme, description) == FirstTruthy([readme, description], Str(""))
    ensures Truthy(DefaultReadme(readme, description)) <==> Truthy(readme) || Truthy(description)
  {
    var xs := [readme, description];
    assert xs[1..] == [description];
    assert xs[1..][1..] == [];
    assert FirstTruthy([description], Str("")) == if Truthy(description) then description else Str("");
  }

  /** A non-empty array becomes its last element; anything else is kept. */
  lemma CollapseGithubProperties(github: Value)
    ensures github.Arr? && |github.items| > 0 ==>
      CollapseGithub(github) in github.items && CollapseGithub(github) == github.items[|github.items| - 1]
    ensures !(github.Arr? && |github.items| > 0) ==> CollapseGithub(github) == github
  {
  }

  /** Every member of `time` is wrapped with its original value as `full`; the keys stay. */
  lemma WrapTimesProperties(time: Value, clock: Clock)
    ensures time.Obj? ==> WrapTimes(time, clock).Obj? && WrapTimes(time, clock).fields.Keys == time.fields.Keys
    ensures time.Obj? ==> forall k :: k in time.fields ==>
      WrapTimes(time, clock).fields[k].Obj? && "full" in WrapTimes(time, clock).fields[k].fields &&
      WrapTimes(time, clock).fields[k].fields["full"] == time.fields[k]
    ensures time.Arr? ==> WrapTimes(time, clock).Arr? && |WrapTimes(time, clock).items| == |time.items|
    ensures time.Arr? ==> forall i :: 0 <= i < |time.items| ==>
      WrapTimes(time, clock).items[i].Obj? && "full" in WrapTimes(time, clock).items[i].fields &&
      WrapTimes(time, clock).items[i].fields["full"] == time.items[i]
    ensures !time.Obj? && !time.Arr? ==> WrapTimes(time, clock) == time
  {
  }

  lemma StampTimeFields(p: map<string, Value>, clock: Clock)
    ensures var q := StampFields(p, TimeFields, clock);
      && q == p["created" := Stamp(Field(p, "created"), clock)]["modified" := Stamp(Field(p, "modified"), clock)]
  {
    assert TimeFields[..1] == ["created"];
    assert TimeFields[..1][..0] == [];
    assert "created" != "modified";
  }

  /** Pruning one key removes that key exactly when it holds an empty collection. */
  lemma PruneOneProperties(p: map<string, Value>, f: string)
    ensures var q := PruneOne(p, f);
      && q.Keys <= p.Keys
      && (forall k :: k in q ==> q[k] == p[k])
      && (forall k :: k in p && k != f ==> k in q)
      && (f in q <==> f in p && !IsEmptyCollection(p[f]))
  {
  }

  /** The three link fields are pruned one after the other. */
  lemma PruneLinksUnfold(p: map<string, Value>)
    ensures PruneEmpty(p, LinkFields) == PruneOne(PruneOne(PruneOne(p, "repository"), "homepage"), "bugs")
  {
    var l1, l2 := LinkFields[..1], LinkFields[..2];
    assert l1[..0] == [] && l2[..1] == l1 && LinkFields[..2] == l2;
    assert PruneEmpty(p, l1) == PruneOne(p, "repository");
    assert PruneEmpty(p, l2) == PruneOne(PruneEmpty(p, l1), "homepage");
    assert PruneEmpty(p, LinkFields) == PruneOne(PruneEmpty(p, l2), "bugs");
  }

  lemma PruneLinkFields(p: map<string, Value>)
    ensures var q := PruneEmpty(p, LinkFields);
      && q.Keys <= p.Keys
      && (forall k :: k in q ==> q[k] == p[k])
      && (forall k :: k in p && k != "repository" && k != "homepage" && k != "bugs" ==> k in q)
      && ("repository" in q <==> "repository" in p && !IsEmptyCollection(p["repository"]))
      && ("homepage" in q <==> "homepage" in p && !IsEmptyCollection(p["homepage"]))
      && ("bugs" in q <==> "bugs" in p && !IsEmptyCollection(p["bugs"]))
  {
    PruneLinksUnfold(p);
    var q1 := PruneOne(p, "repository");
    var q2 := PruneOne(q1, "homepage");
    PruneOneProperties(p, "repository");
    PruneOneProperties(q1, "homepage");
    PruneOneProperties(q2, "bugs");
  }

  /** `reduce` drops the README text, the README file name and the version list. */
  lemma ReducedPackageDropsBulky(p: map<string, Value>, clock: Clock)
    ensures var r := ReducedPackage(p, clock);
      "readmeFilename" !in r && "versions" !in r && "readme" !in r
  {
    var p2 := WithTimeWrapped(p - Bulky, clock);
    StampTimeFields(p2, clock);
    PruneLinkFields(StampFields(p2, TimeFields, clock));
  }

  /** Every package field that no step names comes out as it went in. */
  lemma ReducedPackageKeepsOthers(p: map<string, Value>, clock: Clock)
    ensures var r := ReducedPackage(p, clock);
      forall k ::
        k !in Bulky && k != "time" && k != "created" && k != "modified" &&
        k != "repository" && k != "homepage" && k != "bugs" ==>
        (k in r <==> k in p) && (k in p ==> r[k] == p[k])
  {
    var p2 := WithTimeWrapped(p - Bulky, clock);
    StampTimeFields(p2, clock);
    PruneLinkFields(StampFields(p2, TimeFields, clock));
  }

  /**
   * `created` and `modified` are wrapped whether present or not, and `time`
   * is wrapped member by member when present.
   */
  lemma ReducedPackageStamps(p: map<string, Value>, clock: Clock)
    ensures var r := ReducedPackage(p, clock);
      && "created" in r && r["created"] == Stamp(Field(p, "created"), clock)
      && "modified" in r && r["modified"] == Stamp(Field(p, "modified"), clock)
      && ("time" in r <==> "time" in p)
      && ("time" in p ==> r["time"] == WrapTimes(p["time"], clock))
  {
    var p2 := WithTimeWrapped(p - Bulky, clock);
    StampTimeFields(p2, clock);
    PruneLinkFields(StampFields(p2, TimeFields, clock));
    assert "time" !in Bulky && "created" !in Bulky && "modified" !in Bulky;
  }

  /** `repository`, `homepage` and `bugs` are deleted exactly when they are empty. */
  lemma ReducedPackageLinks(p: map<string, Value>, clock: Clock)
    ensures var r := ReducedPackage(p, clock);
      && ("repository" in r <==> "repository" in p && !IsEmptyCollection(p["repository"]))
      && ("repository" in r ==> r["repository"] == p["repository"])
      && ("homepage" in r <==> "homepage" in p && !IsEmptyCollection(p["homepage"]))
      && ("homepage" in r ==> r["homepage"] == p["homepage"])
      && ("bugs" in r <==> "bugs" in p && !IsEmptyCollection(p["bugs"]))
      && ("bugs" in r ==> r["bugs"] == p["bugs"])
  {
    var p2 := WithTimeWrapped(p - Bulky, clock);
    StampTimeFields(p2, clock);
    PruneLinkFields(StampFields(p2, TimeFields, clock));
    assert "repository" !in Bulky && "homepage" !in Bulky && "bugs" !in Bulky;
  }

  /** How deeply `full` fields nest: each wrapping adds one level. */
  function FullDepth(v: Value): nat {
    if v.Obj? && "full" in v.fields then 1 + FullDepth(v.fields["full"]) else 0
  }

  /**
   * `reduce` is not idempotent: a second pass wraps the already wrapped
   * `created` timestamp again.
   */
  lemma ReducedPackageNotIdempotent(p: map<string, Value>, clock: Clock)
    ensures Field(ReducedPackage(ReducedPackage(p, clock), clock), "created") != Field(ReducedPackage(p, clock), "created")
  {
    var once := ReducedPackage(p, clock);
    ReducedPackageStamps(p, clock);
    ReducedPackageStamps(once, clock);
    var c := once["created"];
    assert FullDepth(Stamp(c, clock)) == 1 + FullDepth(c);
  }
}
