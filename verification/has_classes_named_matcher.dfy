/**
 The resource-presence policy: does a loader see every one of a fixed list of
 classes, looked up as class-file resources?

 Each matcher normalises its class names once, at construction, and keeps its
 own cache. The bootstrap loader never matches, even for an empty list.
 */
module HasClassesNamedMatcher {
  import opened ClassLoaders
  import opened DecisionCache
  import opened ResourceNames

  datatype Matcher = Matcher(resources: seq<string>, cache: Cache)

  /** The reference decision: a non-bootstrap loader that resolves every resource. */
  ghost predicate Policy(resources: seq<string>, cl: ClassLoader) {
    cl.Instance? && forall i :: 0 <= i < |resources| ==> resources[i] in cl.resources
  }

  /** The matcher's invariant: its cache agrees with its own policy. */
  ghost predicate Valid(m: Matcher) {
    Consistent(m.cache, (cl: ClassLoader) => Policy(m.resources, cl))
  }

  /** The constructor: each class name is rewritten in place into its
      resource name, in order; the cache starts empty. */
  method New(classNames: seq<string>) returns (m: Matcher)
    ensures |m.resources| == |classNames|
    ensures forall i :: 0 <= i < |classNames| ==> m.resources[i] == ResourceName(classNames[i])
    ensures forall i :: 0 <= i < |m.resources| ==> IsClassResource(m.resources[i])
    ensures m.cache == map[]
    ensures Valid(m)
  {
    var resources := classNames;
    var i := 0;
    while i < |resources|
      invariant |resources| == |classNames|
      invariant 0 <= i <= |resources|
      invariant forall j :: 0 <= j < i ==> resources[j] == ResourceName(classNames[j])
      invariant forall j :: i <= j < |resources| ==> resources[j] == classNames[j]
    {
      resources := resources[i := ResourceName(resources[i])];
      i := i + 1;
    }
    m := Matcher(resources, map[]);
  }

  /** The resource walk: stop with false at the first resource the loader
      does not find; an exhausted (or empty) list gives true. */
  function HasResources(cl: ClassLoader, resources: seq<string>): (r: bool)
    requires cl.Instance?
    ensures r <==> forall i :: 0 <= i < |resources| ==> resources[i] in cl.resources
    ensures |resources| > 0 && resources[0] !in cl.resources ==> !r
  {
    if |resources| == 0 then true
    else if !HasResource(cl, resources[0]) then false
    else HasResources(cl, resources[1..])
  }

  /** `ClassLoaderHasClassesNamedMatcher.matches`: bootstrap first, then the
      cache, then compute and store. */
  function Matches(m: Matcher, cl: ClassLoader): (a: Answer)
    ensures cl == Bootstrap ==> a == Answer(false, m.cache, false)
    ensures cl != Bootstrap && cl in m.cache ==> a == Answer(m.cache[cl], m.cache, false)
    ensures cl != Bootstrap && cl !in m.cache ==>
      a.computed && (a.value <==> Policy(m.resources, cl)) && a.cache == m.cache[cl := a.value]
    ensures Valid(m) ==>
      (a.value <==> Policy(m.resources, cl)) && Valid(Update(m, a))
  {
    if cl == Bootstrap then
      Answer(false, m.cache, false)
    else
      match GetIfPresent(m.cache, cl)
      case Some(cached) => Answer(cached, m.cache, false)
      case None =>
        var value := HasResources(cl, m.resources);
        Answer(value, Put(m.cache, cl, value), true)
  }

  /** The matcher's state after a call. */
  function Update(m: Matcher, a: Answer): Matcher {
    m.(cache := a.cache)
  }

  /** The matcher after its cache dropped the entries of `gone`. */
  function EvictFrom(m: Matcher, gone: set<ClassLoader>): Matcher {
    m.(cache := Evict(m.cache, gone))
  }

  /** A matcher over an empty list matches every loader but the bootstrap one,
      on every call and whatever its cache already holds. */
  lemma EmptyListMatchesAllButBootstrap(m: Matcher, cl: ClassLoader)
    requires Valid(m) && m.resources == []
    ensures Matches(m, cl).value <==> cl != Bootstrap
  {
  }

  /** One missing resource is enough to make a loader fail, wherever it sits in the list. */
  lemma OneMissingFails(m: Matcher, cl: ClassLoader, k: nat)
    requires Valid(m)
    requires cl.Instance? && k < |m.resources| && m.resources[k] !in cl.resources
    ensures !Matches(m, cl).value
  {
  }

  /** The walk stops at the first missing resource, but its answer does not
      depend on the order (or repetition) of the names. */
  lemma OrderIrrelevant(resources: seq<string>, other: seq<string>, cl: ClassLoader)
    requires cl.Instance?
    requires forall r :: r in resources <==> r in other
    ensures HasResources(cl, resources) == HasResources(cl, other)
  {
    if HasResources(cl, other) {
      forall i | 0 <= i < |resources|
        ensures resources[i] in cl.resources
      {
        assert resources[i] in other;
        var j :| 0 <= j < |other| && other[j] == resources[i];
      }
    }
    if HasResources(cl, resources) {
      forall j | 0 <= j < |other|
        ensures other[j] in cl.resources
      {
        assert other[j] in resources;
        var i :| 0 <= i < |resources| && resources[i] == other[j];
      }
    }
  }

  /** Repeated calls on one loader agree, even if entries were evicted in
      between; without eviction the second call is a hit that runs no probes
      and changes nothing, so each loader is probed at most once. */
  lemma MatchesIdempotent(m: Matcher, cl: ClassLoader, gone: set<ClassLoader>)
    requires Valid(m)
    ensures Matches(EvictFrom(Update(m, Matches(m, cl)), gone), cl).value == Matches(m, cl).value
    ensures var first := Matches(m, cl);
            var second := Matches(Update(m, first), cl);
            second.value == first.value && second.cache == first.cache && !second.computed
  {
  }
}
