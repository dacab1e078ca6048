# packages-pagelet, modelled in Dafny

This project models the core of the packages pagelet. The pagelet renders the page of one package of the npm registry. It has three parts:

- **The record reducer** (`reduce`, resolve.js). It normalises the joined record `{package, readme, shrinkwrap, github}` in place. It deletes the bulky package fields and strips the back-references of the dependency map. It marks the main dependencies, collapses the GitHub reply, defaults the README, and wraps the timestamps for display. It turns the dependency map into a list with the main dependencies first, and it deletes empty link fields.
- **The join of `resolve`** (resolve.js). It fetches the package details, then runs the dependency, README and GitHub branches side by side and joins their replies.
- **The cache orchestration** (index.js). This is the cache key, the `fireforget` wrapper around an optional cache backend, and the cache-or-fetch flows `latest` (the version pointer) and `get` (the resolved document).

Files:

- `values.dfy` (module `JsValues`) holds JavaScript values as the core sees them. Objects are maps from property names to values, so a missing property reads as `undefined`. It also gives truthiness, property reads, `String(v)`, and the `(err, data)` arguments of a node-style callback.
- `reduce.dfy` (module `Reduce`) has the specification functions of every step of `reduce`. Most steps are also methods in the shape of the source: `FlattenDependencies`, `CollapseGithubList`, `WrapPublishTimes`, `WrapCreatedModified`, `ListDependencies` and `RemoveEmptyLinks`, with loops where the source loops. The three deletes are statements of `ReduceSteps`, and the README default is the expression `DefaultReadme`, as in the source. `Record` is a class whose four fields `Reduce` updates in place. Lemmas state what the steps promise.
- `resolve.dfy` (module `Resolve`) writes the join as a pure function of the upstream replies. Each upstream client is a function of its request. The join also returns the set of requests made. `ResolvePackage` joins and then reduces.
- `pagelet.dfy` (module `Pagelet`) has the key, the cache backend class `Cache`, and the class `Pagelet` with `Fireforget`, `Latest` and `Get`. Each flow is first written as a pure run: the reply, the cache afterwards, and the list of requests. The class methods are proved to follow these runs, and lemmas state the cache properties about the runs.

Modelling choices:

- The order that `Object.keys` gives for the dependency map is a parameter, `order`. It must list each key exactly once (`Enumerates`).
- The sort comparator `b.main - a.main` is modelled by the stable partition main-first (`SortByMain`). The method contracts (`ListDependencies`, `ReduceSteps`, `Record.Reduce`) fix this stable outcome. The lemmas about the list claim only the permutation and the main-first order, which hold for any outcome of the comparator.
- The two `moment` formatters are an uninterpreted `Clock`.
- The sync or async kind of a cache backend is an explicit `Kind`, in place of the source's check of `Function.length`.
- Strict equality `===` on objects is modelled as equality of values.

Three facts about the code shape the model:

- `key(name)` without a version gives `v0:foo@undefined`, because index.js:60 always appends `'@' + version`. The test at test/pagelet.test.js:16 expects `v0:foo`; the model follows the code (`KeyWithoutVersion`).
- `reduce` is not idempotent. A second pass wraps `created` again (`ReducedPackageNotIdempotent`).
- The code has no "empty result" error and no expiry times. `fireforget` never passes an expiry time.

## Model

| member | source | states |
|---|---|---|
| `Reduce.Record.Reduce` | resolve.js:106-184 | After `reduce`, each of the record's four fields is the value of its specification function applied to the old contents: `ReducedPackage`, `DefaultReadme`, `CollapseGithub` and `ListedShrinkwrap`. |
| `Reduce.ReduceSteps` | resolve.js:106-181 | The steps in the source's order, applied to the record's members, give exactly the content of the specification functions. |
| `Reduce.FlattenDependencies` | resolve.js:116-124 | An object dependency map becomes its flattened map, keyed the same. Anything else is left as it is. Listing the result then yields `ListedShrinkwrap`. |
| `Reduce.FlattenMap` | resolve.js:117-123 | The loop over the map's keys in `Object.keys` order flattens every entry (`FlattenAll`). |
| `Reduce.FlattenStep` | resolve.js:117-123 | One turn of the loop flattens the next listed entry and keeps every other entry as it was. |
| `Reduce.FlattenedAll` | resolve.js:117-123 | Once every listed key has been visited, every entry of the map is flattened. |
| `Reduce.FlattenEach` | resolve.js:118-122 | Flattening one entry sets `main` from `parent.name === package.name` and deletes `dependencies`, `dependent` and `parent`. |
| `Reduce.FlattenEntryProperties` | resolve.js:118-122 | A flattened entry has no `dependencies`, `dependent` or `parent`, its `main` is 1 exactly when its parent's name equals the package name and 0 exactly when it does not, and every other field of the entry is kept with its value while no field besides `main` is added. |
| `Reduce.CollapseGithubList` | resolve.js:129 | The GitHub value becomes `CollapseGithub` of itself. |
| `Reduce.CollapseGithubProperties` | resolve.js:129 | A non-empty GitHub array is replaced by its last element. Anything else is kept. |
| `Reduce.DefaultReadmeIsFirstTruthy` | resolve.js:134 | `readme` becomes the first truthy value among the old readme, the description and `''`. It is truthy exactly when one of the first two is. |
| `Reduce.WrapPublishTimes` | resolve.js:139-147 | A truthy `time` has its members wrapped, and nothing else changes. No link field becomes null. |
| `Reduce.WrapTimeMap` | resolve.js:139-147 | The loop over an object's keys wraps every member. |
| `Reduce.WrapTimeList` | resolve.js:139-147 | The loop over an array's indices wraps every element. |
| `Reduce.WrapTimesProperties` | resolve.js:139-147 | Each wrapped member is `{human, ago, full}` with `full` the original value. The key set or length of `time` is kept. A time that is neither an object nor an array is left unchanged. |
| `Reduce.StampKeepsDate` | resolve.js:142-146 | A stamp has exactly the keys `human`, `ago` and `full`. `full` is the date, and the other two are strings. |
| `Reduce.WrapCreatedModified` | resolve.js:149-157 | The loop wraps `created` and then `modified`. No link field becomes null. |
| `Reduce.StampTimeFields` | resolve.js:149-157 | Wrapping sets both `created` and `modified` to the stamp of their old value, even when they are absent, in which case the old value is `undefined`. |
| `Reduce.LinksAfterStamps` | resolve.js:149-157 | Wrapping the timestamps leaves the link fields non-null. |
| `Reduce.ListDependencies` | resolve.js:162-166 | A value that is not an object becomes `[]`. An object of flattened entries becomes a list that is a permutation of its values, with no main entry after a non-main one. The list is the stable outcome `SortByMain` of the values in `Object.keys` order. |
| `Reduce.EnumerationSize` | resolve.js:162-163 | A duplicate-free listing of the keys is as long as the map is large. |
| `Reduce.ListingMembers` | resolve.js:162-163 | The listing has one entry per key. A value is listed exactly when it is the flattened entry of some key. |
| `Reduce.ListingHasOnlyEntries` | resolve.js:162-163 | Every listed value is the flattened entry of some key. |
| `Reduce.ListingHasEveryEntry` | resolve.js:162-163 | The flattened entry of every key is listed. |
| `Reduce.ListingShape` | resolve.js:116-124 | Every listed entry is an object without back-references, and its `main` is 0 or 1. |
| `Reduce.MainsAndOthers` | resolve.js:164-166 | Splitting the list into main and other entries loses nothing and adds nothing: the multisets add up. Every main entry is main, and no other entry is. |
| `Reduce.MainsAndOthersCount` | resolve.js:164-166 | The multisets of the two parts add up to the multiset of the list. |
| `Reduce.MainsAndOthersKind` | resolve.js:164-166 | The first part holds only main entries, and the second only others. |
| `Reduce.SortByMainProperties` | resolve.js:164-166 | The sort is a permutation, and no main entry comes after a non-main one. |
| `Reduce.SortFlat` | resolve.js:162-166 | Sorted flattened entries are a permutation of the listing with the same members. They are all still flattened, and `main` never increases along the list. |
| `Reduce.ListedShrinkwrapProperties` | resolve.js:116-166 | The output list has one entry per input key, as a permutation of the listing. Its members are exactly the flattened input entries. None has a back-reference, `main` is 0 or 1, and the main entries come first. |
| `Reduce.RemoveEmptyLinks` | resolve.js:171-181 | The loop over `repository`, `homepage` and `bugs` prunes each one that is empty (`PruneEmpty`). |
| `Reduce.RemoveIfEmpty` | resolve.js:176-180 | One key is deleted exactly when it holds an empty array or an object with no keys. |
| `Reduce.PruneOneProperties` | resolve.js:176-180 | Pruning removes the key exactly when its value is an empty collection. It keeps every other key and every value. |
| `Reduce.PruneLinksUnfold` | resolve.js:171-175 | The three links are pruned one after the other, in the listed order. |
| `Reduce.PruneLinkFields` | resolve.js:171-181 | A link field survives exactly when it was present and not empty. No other field is touched, and no value changes. |
| `Reduce.ReducedPackageDropsBulky` | resolve.js:107-109 | The reduced package has no `readmeFilename`, `versions` or `readme`. |
| `Reduce.ReducedPackageKeepsOthers` | resolve.js:106-181 | Every package field that no step names is present after `reduce` exactly when it was before, with the same value. |
| `Reduce.ReducedPackageStamps` | resolve.js:139-157 | `created` and `modified` are always present and hold the stamp of their old value. `time` is present exactly when it was before, wrapped member by member. |
| `Reduce.ReducedPackageLinks` | resolve.js:171-181 | `repository`, `homepage` and `bugs` are deleted exactly when they are empty. When kept, they are unchanged. |
| `Reduce.ReducedPackageNotIdempotent` | resolve.js:149-157 | Reducing twice wraps `created` a second time, so the second result differs from the first. |
| `Resolve.SelectDetailsProperties` | resolve.js:49 | A list of documents is reduced to its last element, or `undefined` when it is empty. Any other reply is used as it is. |
| `Resolve.DetailsErrorStops` | resolve.js:46-47 | A details error is the final error, and no other request is made. |
| `Resolve.JoinFailsIff` | resolve.js:46-95 | `resolve` fails exactly when the details, dependency or README request fails. The GitHub branch never causes a failure. |
| `Resolve.JoinError` | resolve.js:86-87 | The error reported is that of the failing branch. When both fail, it is the error of the branch that called back first. |
| `Resolve.JoinRecord` | resolve.js:89-94 | On success the record holds the selected document, the README data, the dependents and the GitHub result. |
| `Resolve.BranchesAllStart` | resolve.js:54-85 | Once the details are in, the dependency, README and project requests are all made, together with the GitHub branch's own requests, whatever the replies. |
| `Resolve.GithubWithoutProject` | resolve.js:64-65 | With no project, or no user or repository, the branch yields nothing and asks GitHub nothing. |
| `Resolve.GithubMoveFails` | resolve.js:71-74 | A failing `moved` request is ignored. The branch yields nothing and makes no repository request. |
| `Resolve.GithubFollowsMove` | resolve.js:75-81 | After `moved`, the repository asked for is the parsed one when `changed` is truthy, and the original one otherwise. Its data is the branch result, whatever error came with it. |
| `Resolve.GithubAsksOnlyWithProject` | resolve.js:64-72 | A `moved` request is made exactly when the project has a user and a repository. |
| `Resolve.ResolvePackage` | resolve.js:46-95 | A failed join passes on its error and yields no record. A successful join yields a fresh record holding the reduced form of the joined data. |
| `Pagelet.KeyInjectiveInVersion` | index.js:59-61 | For a fixed name, equal keys mean equal versions. |
| `Pagelet.LatestKeyIsDistinct` | index.js:59-61 | The `latest` pointer key differs from the key of every other version. |
| `Pagelet.KeyInjective` | index.js:59-61 | When versions contain no `@`, equal keys mean equal names and equal versions. |
| `Pagelet.KeyAmbiguousWithAt` | index.js:59-61 | A distinct name and version with an `@` in the version can share a key. |
| `Pagelet.KeyWithoutVersion` | index.js:59-61 | For every major version and name, a key built without a version ends in `@undefined`; with major `0`, `key('foo')` is `v0:foo@undefined` and not `v0:foo`. |
| `Pagelet.FireWithoutCacheOrKey` | index.js:119-138 | Without a cache, or with an empty key, every method calls back with no error and no data, and the cache is unchanged. |
| `Pagelet.FireOtherMethod` | index.js:119-138 | A method other than `get` or `set` calls back empty and changes nothing. |
| `Pagelet.FireGetStored` | index.js:120-125 | `get` yields exactly the stored value, for either kind of backend, and changes nothing. |
| `Pagelet.FireGetMissing` | index.js:120-125 | A missing key is a miss for either kind of backend, and the cache is unchanged. |
| `Pagelet.FireSet` | index.js:126-131 | `set` stores the value under its key and leaves every other key and the backend kind as they were. |
| `Pagelet.FireSetThenGet` | index.js:120-131 | A `get` after a `set` of the same key yields the value that was set. |
| `Pagelet.LatestHitMakesNoFetch` | index.js:74-75 | A cached pointer is returned as it is. The cache is unchanged and no registry request is made. |
| `Pagelet.LatestRegistryError` | index.js:81-82 | On a miss, a registry error is returned and nothing is written. |
| `Pagelet.LatestStoresVersion` | index.js:81-87 | On a miss, the registry's `version` is stored under the `latest` key and returned. The version is taken from element 0 when the registry sends a list. |
| `Pagelet.LatestLeavesPointer` | index.js:70-87 | When `latest` yields a truthy version, that version is stored under the pointer key afterwards. |
| `Pagelet.GetLatestError` | index.js:156-157 | An error from `latest` is passed on. The document cache is not consulted, nothing is written and `resolve` is not called. |
| `Pagelet.GetHitMakesNoResolve` | index.js:161-162 | A cached document is returned as it is, without calling `resolve`. |
| `Pagelet.GetStoresOnlyOnSuccess` | index.js:168-179 | On a miss, the reply of `resolve` is passed on in every case. It is stored under the document key only when it carries no error. |
| `Pagelet.GetTwiceServedFromCache` | index.js:151-182 | After a page is served with data, serving it again makes no registry request and calls no `resolve`. It writes nothing and yields the same data. This assumes the version is not spelled `latest`. |
| `Pagelet.Cache.Set` | index.js:126-131 | The backend stores the value under the key. |
| `Pagelet.Pagelet.Fireforget` | index.js:101-142 | The callback arguments and the new cache are those of `Fire`. The call is appended to the request list. |
| `Pagelet.Pagelet.Latest` | index.js:70-90 | The reply, the new cache and the requests made are those of `LatestRun`. |
| `Pagelet.Pagelet.Get` | index.js:151-182 | The reply, the new cache and the requests made are those of `GetRun`. |

## Left out

- Deferral and concurrency are not modelled. This covers the `setImmediate`/`setTimeout` deferral in `fireforget` (index.js:114-118) and the concurrency of `async.parallel`. The three branches are independent replies that are then joined. When both the dependency and README branches fail, which one calls back first is a flag of the upstream (`shrinkwrapSettlesFirst`). The cache write in `get` is modelled as done before `next` is called; in the source it is deferred to a later tick.
- The foreign clients are replaced by functions of their request. These are `npm-registry`, `githulk`, `shrinkwrap` and `renderme`. The cache backend is modelled by its contents instead: the `Cache` class and the `Backend` datatype hold a `store` map. The construction of the clients (resolve.js:23-44, index.js:77-79) is left out.
- Backend kind is an explicit flag, replacing the check of `Function.length` (index.js:121, 127). The argument shifting of `fireforget` when `obj` is a function (index.js:102-107) is not modelled: callers pass `obj` explicitly.
- `Pagelet.Pagelet.Fireforget`: the reply of a `set` is modelled as empty. The source gives back whatever the backend's `set` returns or passes to its callback, and no caller reads it. A backend's own failures (an unwritable or unreadable store) are not modelled, except for the miss error of an async backend.
- `Reduce.Record.Reduce`: `Reducible` excludes the inputs on which the source throws a TypeError, and dependency values that list entries without being a map. These are:
  - a dependency value that is null, on which `Object.keys` throws;
  - a dependency value that is a non-empty array or a non-empty string. The source does not throw on every such value, but the dependency resolver hands over a map, and the model does not represent the listing of array indices or string characters;
  - an entry without a `parent`;
  - a null link field;
  - a non-empty string `time`, on which assignment to a string index throws in strict mode;
  - a GitHub value with a truthy `length` that is not an array.
- `Reduce.Record.Reduce`: the steps run on the record's members in the order of the source, and the record's fields are then assigned the results. The intermediate states of the record cannot be observed, because `fn` receives the record only at the end.
- `Reduce.ListDependencies`: the sort is modelled by one legal outcome, the stable one, and the method contracts fix that outcome. An engine whose sort is not stable may order entries of equal `main` differently. The lemmas about the list claim only the permutation and the main-first order, which every outcome has.
- `Reduce.WrapTimeMap`: the members of `time` are wrapped in an arbitrary key order, since each is wrapped independently.
- `Resolve.ResolvePackage`: a package document that is not an object is excluded, as are the throwing inputs of `reduce`. On `null` or `undefined` the source throws at the first `delete` (resolve.js:107). On a string, number or boolean the deletes succeed, and the assignment of `created` (resolve.js:152) throws in strict mode. An array package runs to completion in the source, but it is excluded because the model's arrays carry no named properties. In the GitHub branch, a `moved` reply that reports a change but returns a null or undefined project is excluded (`GithubOk`), because the source throws on it.
- `Pagelet.Pagelet.Latest`: a registry reply without error whose document, or first element, is null or undefined is excluded (`LatestOk`), because the source throws on `data.version`.
- Object identity is not modelled: `===` on objects is structural equality.
- JavaScript numbers are modelled as integers. NaN, fractions and the coercions of `+` on non-string operands beyond `String(v)` are not modelled.
- The Pagelet view, CSS and dependency configuration (index.js:13-25) and the exports of the modules are left out.
- The files outside the core are left out: the file cache example, the browser scripts and the example server. They are callers, or perform file and DOM I/O.
- The two expiry classes and the download statistics are left out, as the code implements neither.
