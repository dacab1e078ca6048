/**
 * The join policy of `resolve(name, options, next)` in resolve.js: fetch the
 * package details, then run the dependency, README and GitHub branches side
 * by side and join them into the record that `reduce` normalises. Every
 * upstream client is a function of its request: the model says which
 * requests are made and what the join does with the replies.
 */
module Resolve {
  import opened JsValues
  import opened Reduce

  /** The `(err, parsed, changed)` reply of `githulk.repository.moved`. */
  datatype MoveReply = MoveReply(err: Value, parsed: Value, changed: Value)

  /**
   * The upstream clients, as the replies they give. `settlesFirst` says
   * which of the dependency and README branches calls back first when both
   * fail: the join reports the first error it receives.
   */
  datatype Upstream = Upstream(
    details: string -> Reply,         // npm.packages.details(name)
    dependents: Value -> Reply,       // shrinkwrap.resolve(data): (err, dependent)
    render: Value -> Reply,           // readme(data)
    project: Value -> Value,          // githulk.project(data)
    moved: string -> MoveReply,       // githulk.repository.moved('user/repo')
    repository: string -> Value,      // data of githulk.repository.get('user/repo')
    shrinkwrapSettlesFirst: bool)

  /** A request made to an upstream client. */
  datatype Call =
    | DetailsCall(name: string)
    | ShrinkwrapCall(pkg: Value)
    | ReadmeCall(pkg: Value)
    | ProjectCall(pkg: Value)
    | MovedCall(slug: string)
    | RepositoryCall(slug: string)

  /** The record handed to `reduce`. */
  datatype Joined = Joined(package: Value, readme: Value, shrinkwrap: Value, github: Value)

  datatype Resolution = Failed(error: Value) | Resolved(record: Joined)

  /** A result together with the requests made to compute it. */
  datatype Traced<T> = Traced(result: T, calls: set<Call>)

  /** `Array.isArray(data) ? data.pop() : data`. */
  function SelectDetails(data: Value): Value {
    if data.Arr? then (if |data.items| == 0 then Undefined else data.items[|data.items| - 1]) else data
  }

  /** `project.user + '/' + project.repo`. */
  function Slug(project: Value): string
    requires !Nullish(project)
  {
    ToJsString(Prop(project, "user")) + "/" + ToJsString(Prop(project, "repo"))
  }

  /** `!project || !project.user || !project.repo`: the GitHub branch gives up at once. */
  predicate NoProject(project: Value) {
    !Truthy(project) || !Truthy(Prop(project, "user")) || !Truthy(Prop(project, "repo"))
  }

  /**
   * The inputs on which the GitHub branch completes: when `moved` reports a
   * change, the parsed project it returns has properties that can be read.
   */
  predicate GithubOk(up: Upstream, pkg: Value) {
    var project := up.project(pkg);
    NoProject(project) || (var m := up.moved(Slug(project));
      Truthy(m.err) || !Truthy(m.changed) || !Nullish(m.parsed))
  }

  /** The GitHub branch: what it hands to the join, and the requests it makes. */
  function Github(up: Upstream, pkg: Value): Traced<Value>
    requires GithubOk(up, pkg)
  {
    var project := up.project(pkg);
    if NoProject(project) then Traced(Undefined, {ProjectCall(pkg)})
    else
      var m := up.moved(Slug(project));
      if Truthy(m.err) then Traced(Undefined, {ProjectCall(pkg), MovedCall(Slug(project))})
      else
        var current := if Truthy(m.changed) then m.parsed else project;
        Traced(up.repository(Slug(current)),
               {ProjectCall(pkg), MovedCall(Slug(project)), RepositoryCall(Slug(current))})
  }

  /** The inputs on which `resolve` reaches its join without throwing. */
  predicate JoinOk(up: Upstream, name: string) {
    var d := up.details(name);
    Truthy(d.err) || GithubOk(up, SelectDetails(d.data))
  }

  /**
   * `resolve` up to the call of `reduce`: the details error, else the first
   * branch error, else the joined record; and every request made.
   */
  function Join(up: Upstream, name: string): Traced<Resolution>
    requires JoinOk(up, name)
  {
    var d := up.details(name);
    if Truthy(d.err) then Traced(Failed(d.err), {DetailsCall(name)})
    else
      var pkg := SelectDetails(d.data);
      var sw := up.dependents(pkg);
      var rd := up.render(pkg);
      var gh := Github(up, pkg);
      var calls := {DetailsCall(name), ShrinkwrapCall(pkg), ReadmeCall(pkg)} + gh.calls;
      if Truthy(sw.err) && (!Truthy(rd.err) || up.shrinkwrapSettlesFirst) then Traced(Failed(sw.err), calls)
      else if Truthy(rd.err) then Traced(Failed(rd.err), calls)
      else Traced(Resolved(Joined(pkg, rd.data, sw.data, gh.result)), calls)
  }

  // ---------------------------------------------------------------------------
  // Properties

  /** The registry may answer with a list of documents; the last one is used. */
  lemma SelectDetailsProperties(data: Value)
    ensures data.Arr? && |data.items| > 0 ==> SelectDetails(data) == data.items[|data.items| - 1]
    ensures data.Arr? && |data.items| == 0 ==> SelectDetails(data) == Undefined
    ensures !data.Arr? ==> SelectDetails(data) == data
  {
  }

  /** A details error is the final error, and nothing else is requested. */
  lemma DetailsErrorStops(up: Upstream, name: string)
    requires Truthy(up.details(name).err)
    ensures JoinOk(up, name)
    ensures Join(up, name) == Traced(Failed(up.details(name).err), {DetailsCall(name)})
  {
  }

  /** `resolve` fails exactly when the details, dependency or README request fails. */
  lemma JoinFailsIff(up: Upstream, name: string)
    requires JoinOk(up, name)
    ensures var d := up.details(name);
      var pkg := SelectDetails(d.data);
      Join(up, name).result.Failed? <==>
        Truthy(d.err) || Truthy(up.dependents(pkg).err) || Truthy(up.render(pkg).err)
  {
  }

  /**
   * The error reported: the details error, else the error of the branch that
   * failed, else, when both failed, that of the one that called back first.
   */
  lemma JoinError(up: Upstream, name: string)
    requires JoinOk(up, name)
    requires !Truthy(up.details(name).err)
    ensures var pkg := SelectDetails(up.details(name).data);
      var sw, rd := up.dependents(pkg), up.render(pkg);
      && (Truthy(sw.err) && !Truthy(rd.err) ==> Join(up, name).result == Failed(sw.err))
      && (!Truthy(sw.err) && Truthy(rd.err) ==> Join(up, name).result == Failed(rd.err))
      && (Truthy(sw.err) && Truthy(rd.err) ==>
            Join(up, name).result == Failed(if up.shrinkwrapSettlesFirst then sw.err else rd.err))
  {
  }

  /** On success the record holds the selected document and the three branch results. */
  lemma JoinRecord(up: Upstream, name: string)
    requires JoinOk(up, name)
    requires Join(up, name).result.Resolved?
    ensures var pkg := SelectDetails(up.details(name).data);
      Join(up, name).result.record ==
        Joined(pkg, up.render(pkg).data, up.dependents(pkg).data, Github(up, pkg).result)
  {
  }

  /**
   * Once the details are in, all three branches are started whatever they
   * answer; the branches' errors do not stop the GitHub requests.
   */
  lemma BranchesAllStart(up: Upstream, name: string)
    requires JoinOk(up, name)
    requires !Truthy(up.details(name).err)
    ensures var pkg := SelectDetails(up.details(name).data);
      Join(up, name).calls == {DetailsCall(name), ShrinkwrapCall(pkg), ReadmeCall(pkg)} + Github(up, pkg).calls
  {
  }

  /** The GitHub branch yields nothing when the project has no user or repository. */
  lemma GithubWithoutProject(up: Upstream, pkg: Value)
    requires NoProject(up.project(pkg))
    ensures GithubOk(up, pkg)
    ensures Github(up, pkg) == Traced(Undefined, {ProjectCall(pkg)})
  {
  }

  /** A failing `moved` request is ignored: the branch yields nothing and asks no more. */
  lemma GithubMoveFails(up: Upstream, pkg: Value)
    requires !NoProject(up.project(pkg))
    requires Truthy(up.moved(Slug(up.project(pkg))).err)
    ensures GithubOk(up, pkg)
    ensures Github(up, pkg).result == Undefined
    ensures forall c :: c in Github(up, pkg).calls ==> !c.RepositoryCall?
  {
  }

  /**
   * After a successful `moved`, the repository asked for is the parsed one
   * when the project moved and the original one otherwise; its data is the
   * branch result, whatever error came with it.
   */
  lemma GithubFollowsMove(up: Upstream, pkg: Value)
    requires GithubOk(up, pkg)
    requires !NoProject(up.project(pkg))
    requires !Truthy(up.moved(Slug(up.project(pkg))).err)
    ensures var project := up.project(pkg);
      var m := up.moved(Slug(project));
      var slug := if Truthy(m.changed) then Slug(m.parsed) else Slug(project);
      && RepositoryCall(slug) in Github(up, pkg).calls
      && Github(up, pkg).result == up.repository(slug)
  {
  }

  /** Only the branch that found a project asks GitHub about it. */
  lemma GithubAsksOnlyWithProject(up: Upstream, pkg: Value)
    requires GithubOk(up, pkg)
    ensures (exists c :: c in Github(up, pkg).calls && c.MovedCall?) <==> !NoProject(up.project(pkg))
  {
    var project := up.project(pkg);
    if !NoProject(project) {
      assert MovedCall(Slug(project)) in Github(up, pkg).calls;
    }
  }

  // ---------------------------------------------------------------------------
  // The whole of `resolve`

  /**
   * `resolve(name, options, next)`: the join, then `reduce` of the joined
   * record in place. `order` is the order in which `Object.keys` lists the
   * dependency map of the record.
   */
  method ResolvePackage(up: Upstream, name: string, clock: Clock, order: seq<string>)
    returns (err: Value, data: Record?)
    requires JoinOk(up, name)
    requires var j := Join(up, name).result;
      j.Resolved? ==>
        && j.record.package.Obj?
        && Reducible(j.record.package.fields, j.record.shrinkwrap, j.record.github, order)
    ensures var j := Join(up, name).result;
      && (j.Failed? ==> err == j.error && data == null)
      && (j.Resolved? ==>
            && err == Undefined && data != null && fresh(data)
            && data.package == ReducedPackage(j.record.package.fields, clock)
            && data.readme == DefaultReadme(j.record.readme, Field(j.record.package.fields, "description"))
            && data.github == CollapseGithub(j.record.github)
            && data.shrinkwrap ==
                 Arr(ListedShrinkwrap(j.record.shrinkwrap, Field(j.record.package.fields, "name"), order)))
  {
    var j := Join(up, name).result;
    if j.Failed? {
      err, data := j.error, null;
    } else {
      var rec := j.record;
      data := new Record(rec.package.fields, rec.readme, rec.shrinkwrap, rec.github);
      data.Reduce(clock, order);
      err := Undefined;
    }
  }
}
