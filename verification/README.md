# Class-loader eligibility matchers

A Dafny model of `ClassLoaderMatcher`, the part of the Java agent that decides
whether a class loader may be instrumented. It has two memoising boolean
matchers over class loaders:

- the **skip matcher** (`SkipClassLoaderMatcher`) answers "leave this loader
  alone?". A loader is skipped when its implementation type is one of seven
  known problematic loader types. It is also skipped when it does not resolve
  the two marker classes `io.opentracing.util.GlobalTracer` and
  `datadog.trace.bootstrap.PatchLogger` to the very class objects the
  bootstrap loader defined. The bootstrap loader is never skipped;
- the **resource matcher** (`ClassLoaderHasClassesNamedMatcher`) answers "does
  this loader see all of these classes?". It rewrites each class name once into
  a class-file resource name (`a.b.C` becomes `a/b/C.class`) and then asks the
  loader for every resource. The bootstrap loader never matches.

Both matchers check for the bootstrap loader first, then consult their own
cache, and on a miss compute, store and return the decision.

## How the model is built

- `classloaders.dfy` (`ClassLoaders`): a loader is `Bootstrap` (Java's `null`)
  or an `Instance` carrying an identity, its type name, a class table
  (`loadClass`; a missing name is `ClassNotFoundException`) and a resource set
  (`getResource`). Class objects carry their defining loader, so a loader's own
  copy of a marker class is a different object from the bootstrap's.
- `decision_cache.dfy` (`DecisionCache`): a cache is a `map<ClassLoader, bool>`.
  `Consistent(cache, policy)` is the central invariant: the bootstrap loader is
  never a key and every cached value is the policy's value for its key.
  `Evict` removes an arbitrary set of keys; this stands for both weak-key
  reclamation and the size bound. A call's `Answer` also records whether it
  ran the policy's probes (`computed`), so that a cache hit can be told apart
  from a recomputation.
- `skip_matcher.dfy` (`SkipClassLoaderMatcher`) and
  `has_classes_named_matcher.dfy` (`HasClassesNamedMatcher`): the two policies,
  each with a pure reference decision (`SkipPolicy`, `Policy`) and a `Matches`
  that threads the cache through as explicit state.
- `resource_names.dfy` (`ResourceNames`): class-name normalisation.

The skip matcher's cache is a process-wide singleton in the source. Here it is
a parameter of `Matches`, and the caller passes back the cache it got.

The Javadoc of `hasClassesNamed` (ClassLoaderMatcher.java:26-31) says an
empty list "returns true", and also that the bootstrap loader never matches.
`matches` returns false for the bootstrap loader (ClassLoaderMatcher.java:137-140)
before it looks at the list, so an empty list matches every loader except the
bootstrap one (`EmptyListMatchesAllButBootstrap`).

## Model

| member | source | states |
|---|---|---|
| `SkipClassLoaderMatcher.ShouldSkipClass` | dd-java-agent/agent-tooling/src/main/java/datadog/trace/agent/tooling/ClassLoaderMatcher.java:64-76 | the `switch` over the loader's type name answers true exactly when the name is in the fixed set of seven names |
| `SkipClassLoaderMatcher.LoadsExpectedClass` | dd-java-agent/agent-tooling/src/main/java/datadog/trace/agent/tooling/ClassLoaderMatcher.java:97-104 | true iff the loader's class table maps the class name to the identical expected class object; a class that is not found gives false, and so does a same-named class defined elsewhere |
| `SkipClassLoaderMatcher.DelegatesToBootstrap` | dd-java-agent/agent-tooling/src/main/java/datadog/trace/agent/tooling/ClassLoaderMatcher.java:84-95 | true iff both marker classes resolve to the bootstrap-defined objects; failing either marker makes it false |
| `SkipClassLoaderMatcher.SkipPolicy` | dd-java-agent/agent-tooling/src/main/java/datadog/trace/agent/tooling/ClassLoaderMatcher.java:50-61 | the bootstrap loader is never skipped; any other loader is skipped iff its type name is listed or either marker fails to resolve to the expected object |
| `SkipClassLoaderMatcher.Matches` | dd-java-agent/agent-tooling/src/main/java/datadog/trace/agent/tooling/ClassLoaderMatcher.java:50-62 | bootstrap gives false and leaves the cache untouched; a hit returns the cached value, runs no probes and writes nothing; a miss runs the probes, returns the skip decision and adds exactly that one entry; from a consistent cache it returns the skip decision and leaves a consistent cache |
| `SkipClassLoaderMatcher.KnownLoaderTypeAlwaysSkipped` | dd-java-agent/agent-tooling/src/main/java/datadog/trace/agent/tooling/ClassLoaderMatcher.java:59-76 | a loader whose type name is listed is skipped, whatever its delegation behaviour |
| `SkipClassLoaderMatcher.DelegatingLoaderNotSkipped` | dd-java-agent/agent-tooling/src/main/java/datadog/trace/agent/tooling/ClassLoaderMatcher.java:59-95 | an unlisted loader that resolves both markers to the expected objects is not skipped |
| `SkipClassLoaderMatcher.MatchesIdempotent` | dd-java-agent/agent-tooling/src/main/java/datadog/trace/agent/tooling/ClassLoaderMatcher.java:55-61 | a second call on the same loader returns the same value even after an arbitrary eviction; without eviction the second call is a hit that runs no probes and changes nothing, so the probes run at most once per loader |
| `DecisionCache.Evict` | dd-java-agent/agent-tooling/src/main/java/datadog/trace/agent/tooling/ClassLoaderMatcher.java:110-115 | eviction only forgets: every surviving entry keeps its value, and every entry not evicted survives |
| `DecisionCache.EvictPreservesConsistent` | dd-java-agent/agent-tooling/src/main/java/datadog/trace/agent/tooling/ClassLoaderMatcher.java:42-43 | cache consistency survives the removal of any set of entries |
| `DecisionCache.PutPreservesConsistent` | dd-java-agent/agent-tooling/src/main/java/datadog/trace/agent/tooling/ClassLoaderMatcher.java:59-60 | storing the policy's value for a non-bootstrap loader keeps the cache consistent |
| `ResourceNames.ReplaceChar` | dd-java-agent/agent-tooling/src/main/java/datadog/trace/agent/tooling/ClassLoaderMatcher.java:122 | `replace(".", "/")` keeps the length, turns every `.` into `/` and leaves every other character where it was |
| `ResourceNames.ResourceName` | dd-java-agent/agent-tooling/src/main/java/datadog/trace/agent/tooling/ClassLoaderMatcher.java:122 | the resource name is the class name with dots turned into slashes followed by `.class`, and has no `.` before that suffix |
| `ResourceNames.ReplaceCharUndone` | dd-java-agent/agent-tooling/src/main/java/datadog/trace/agent/tooling/ClassLoaderMatcher.java:122 | replacing a character by one the text never contains is undone by the reverse replacement |
| `ResourceNames.ResourceNameRoundTrip` | dd-java-agent/agent-tooling/src/main/java/datadog/trace/agent/tooling/ClassLoaderMatcher.java:122 | for class names without `/`, the class name can be read back from its resource name |
| `HasClassesNamedMatcher.New` | dd-java-agent/agent-tooling/src/main/java/datadog/trace/agent/tooling/ClassLoaderMatcher.java:119-124 | the constructor keeps the number and order of names, maps each to its resource name, each ending in `.class` with no other `.`, and starts from an empty, consistent cache |
| `HasClassesNamedMatcher.HasResources` | dd-java-agent/agent-tooling/src/main/java/datadog/trace/agent/tooling/ClassLoaderMatcher.java:126-133 | true iff every resource resolves in the loader (so true for an empty list); a missing first resource gives false |
| `HasClassesNamedMatcher.Matches` | dd-java-agent/agent-tooling/src/main/java/datadog/trace/agent/tooling/ClassLoaderMatcher.java:136-148 | bootstrap gives false and leaves the cache untouched; a hit returns the cached value, runs no probes and writes nothing; a miss runs the probes, returns whether all resources resolve and adds exactly that one entry; from a consistent cache it returns the policy value and leaves a consistent cache |
| `HasClassesNamedMatcher.EmptyListMatchesAllButBootstrap` | dd-java-agent/agent-tooling/src/main/java/datadog/trace/agent/tooling/ClassLoaderMatcher.java:26-35 | for a matcher with no class names, on every call and whatever its cache holds, every non-bootstrap loader matches and the bootstrap loader does not |
| `HasClassesNamedMatcher.OneMissingFails` | dd-java-agent/agent-tooling/src/main/java/datadog/trace/agent/tooling/ClassLoaderMatcher.java:126-133 | one missing resource anywhere in the list makes the matcher answer false |
| `HasClassesNamedMatcher.OrderIrrelevant` | dd-java-agent/agent-tooling/src/main/java/datadog/trace/agent/tooling/ClassLoaderMatcher.java:126-133 | the resource walk gives the same answer for any two lists with the same names, whatever their order or repetition |
| `HasClassesNamedMatcher.MatchesIdempotent` | dd-java-agent/agent-tooling/src/main/java/datadog/trace/agent/tooling/ClassLoaderMatcher.java:141-147 | a second call on the same loader returns the same value even after an arbitrary eviction; without eviction the second call is a hit that runs no probes and changes nothing, so each loader is probed at most once |

## Left out

- Guava cache internals: weak-key reclamation, least-recently-used ordering and the `maximumSize(25)` bound (`CACHE_MAX_SIZE`). Eviction is modelled as the removal of any set of entries (`DecisionCache.Evict`), which covers all of them but does not say which entries go first or that the resource cache never holds more than 25 entries.
- `CACHE_CONCURRENCY` and all concurrency: the model is sequential. Racing first calls in the source compute the same value, which the consistency invariant already covers.
- Real `ClassLoader.loadClass` and `getResource`: they are deterministic lookups in the loader's class table and resource set. Exceptions other than `ClassNotFoundException` are not modelled.
- Debug logging when a marker class fails to load: it has no effect on results.
- ByteBuddy `ElementMatcher.Junction` plumbing, the factories `skipClassLoader` and `hasClassesNamed`, and the private constructor that throws: glue and singleton discipline.
- The constructor rewriting the caller's varargs array in place: Java aliasing. `HasClassesNamedMatcher.New` produces a fresh sequence.
- The constructor's `NullPointerException` for a `null` varargs array or a `null` class name (ClassLoaderMatcher.java:121-122): a Dafny sequence or string cannot be null, so this error path is not modelled.
- Loader identity: the cache is keyed by the whole loader record rather than by object identity. The two agree under the assumption that a loader's probes never change their answers. A loader whose answers changed would get a fresh decision here, where the source keeps returning its stored one.
- `HasClassesNamedMatcher.HasResources`: states the result of the walk, not the number of `getResource` calls it makes. The stop at the first missing resource shows only in the recursion.
