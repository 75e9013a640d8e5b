/**
 The skip policy: should instrumentation leave every class of a loader alone?

 A loader is skipped when its implementation type is one of a fixed set of
 known problematic loaders, or when it does not delegate to the bootstrap
 loader for the agent's two marker classes. The bootstrap loader itself is
 never skipped. Decisions are cached per loader in one process-wide cache.
 */
module SkipClassLoaderMatcher {
  import opened ClassLoaders
  import opened DecisionCache

  /** Implementation-type names of loaders that are always skipped. */
  const SkippedLoaderTypeNames: set<string> := {
    "org.codehaus.groovy.runtime.callsite.CallSiteClassLoader",
    "sun.reflect.DelegatingClassLoader",
    "jdk.internal.reflect.DelegatingClassLoader",
    "clojure.lang.DynamicClassLoader",
    "org.apache.cxf.common.util.ASMHelper$TypeHelperClassLoader",
    "sun.misc.Launcher$ExtClassLoader",
    "datadog.trace.bootstrap.DatadogClassLoader"
  }

  /** The marker classes as the agent holds them: both are defined by the
      bootstrap loader. */
  const GlobalTracerClass := JClass("io.opentracing.util.GlobalTracer", DefinedByBootstrap)
  const PatchLoggerClass := JClass("datadog.trace.bootstrap.PatchLogger", DefinedByBootstrap)

  /** True when `cl`'s class table maps `expected`'s name to `expected` itself. */
  ghost predicate ResolvesTo(cl: ClassLoader, expected: JClass)
    requires cl.Instance?
  {
    expected.name in cl.classes && cl.classes[expected.name] == expected
  }

  /** Exact match of the loader's type name against the fixed list, written
      as the source's `switch`. */
  function ShouldSkipClass(cl: ClassLoader): (r: bool)
    requires cl.Instance?
    ensures r <==> TypeName(cl) in SkippedLoaderTypeNames
  {
    match TypeName(cl)
    case "org.codehaus.groovy.runtime.callsite.CallSiteClassLoader" => true
    case "sun.reflect.DelegatingClassLoader" => true
    case "jdk.internal.reflect.DelegatingClassLoader" => true
    case "clojure.lang.DynamicClassLoader" => true
    case "org.apache.cxf.common.util.ASMHelper$TypeHelperClassLoader" => true
    case "sun.misc.Launcher$ExtClassLoader" => true
    case "datadog.trace.bootstrap.DatadogClassLoader" => true
    case _ => false
  }

  /** Does loading `expected`'s name through `cl` give back that very class
      object? A missing class and a same-named class defined elsewhere both
      answer false. */
  function LoadsExpectedClass(cl: ClassLoader, expected: JClass): (r: bool)
    requires cl.Instance?
    ensures r <==> ResolvesTo(cl, expected)
    ensures expected.name !in cl.classes ==> !r
    ensures expected.name in cl.classes && cl.classes[expected.name] != expected ==> !r
  {
    match LoadClass(cl, expected.name)
    case None => false
    case Some(c) => c == expected
  }

  /** The loader delegates only when neither marker probe fails. The source
      runs both probes so that each failure is logged; the probes are pure,
      so whether the second one runs cannot be observed here. */
  function DelegatesToBootstrap(cl: ClassLoader): (r: bool)
    requires cl.Instance?
    ensures r <==> ResolvesTo(cl, GlobalTracerClass) && ResolvesTo(cl, PatchLoggerClass)
  {
    LoadsExpectedClass(cl, GlobalTracerClass) && LoadsExpectedClass(cl, PatchLoggerClass)
  }

  /** The skip decision for any loader, bootstrap included. This is the
      reference the cache is kept consistent with. */
  function SkipPolicy(cl: ClassLoader): (r: bool)
    ensures cl == Bootstrap ==> !r
    ensures cl.Instance? ==>
      (r <==> TypeName(cl) in SkippedLoaderTypeNames
              || !ResolvesTo(cl, GlobalTracerClass)
              || !ResolvesTo(cl, PatchLoggerClass))
  {
    match cl
    case Bootstrap => false
    case Instance(_, _, _, _) => ShouldSkipClass(cl) || !DelegatesToBootstrap(cl)
  }

  /** `SkipClassLoaderMatcher.matches`: bootstrap first, then the cache, then
      compute and store. */
  function Matches(cache: Cache, cl: ClassLoader): (a: Answer)
    ensures cl == Bootstrap ==> a == Answer(false, cache, false)
    ensures cl != Bootstrap && cl in cache ==> a == Answer(cache[cl], cache, false)
    ensures cl != Bootstrap && cl !in cache ==>
      a.computed && a.value == SkipPolicy(cl) && a.cache == cache[cl := a.value]
    ensures Consistent(cache, SkipPolicy) ==>
      a.value == SkipPolicy(cl) && Consistent(a.cache, SkipPolicy)
  {
    if cl == Bootstrap then
      Answer(false, cache, false)
    else
      match GetIfPresent(cache, cl)
      case Some(v) => Answer(v, cache, false)
      case None =>
        var v := ShouldSkipClass(cl) || !DelegatesToBootstrap(cl);
        Answer(v, Put(cache, cl, v), true)
  }

  /** A loader of a listed type is skipped whatever its delegation behaviour. */
  lemma KnownLoaderTypeAlwaysSkipped(cache: Cache, cl: ClassLoader)
    requires Consistent(cache, SkipPolicy)
    requires cl.Instance? && TypeName(cl) in SkippedLoaderTypeNames
    ensures Matches(cache, cl).value
  {
  }

  /** An unlisted loader that resolves both markers to the agent's own class
      objects is instrumented. */
  lemma DelegatingLoaderNotSkipped(cache: Cache, cl: ClassLoader)
    requires Consistent(cache, SkipPolicy)
    requires cl.Instance? && TypeName(cl) !in SkippedLoaderTypeNames
    requires ResolvesTo(cl, GlobalTracerClass) && ResolvesTo(cl, PatchLoggerClass)
    ensures !Matches(cache, cl).value
  {
  }

  /** Repeated calls on one loader agree, even if the cache evicted entries in
      between; and without eviction the second call is a hit that runs no
      probes and leaves the cache as it was, so the probes run at most once
      per loader. */
  lemma MatchesIdempotent(cache: Cache, cl: ClassLoader, gone: set<ClassLoader>)
    requires Consistent(cache, SkipPolicy)
    ensures Matches(Evict(Matches(cache, cl).cache, gone), cl).value == Matches(cache, cl).value
    ensures var first := Matches(cache, cl);
            var second := Matches(first.cache, cl);
            second.value == first.value && second.cache == first.cache && !second.computed
  {
  }
}
