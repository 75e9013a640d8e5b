/**
 The per-matcher cache of loader decisions.

 The source keeps each matcher's decisions in a weak-keyed Guava cache. Here a
 cache is a finite map from loader to decision, threaded through `Matches` as
 explicit state. Entries may vanish at any time (a loader was reclaimed, or the
 size bound pushed an entry out); `Evict` models that as the removal of an
 arbitrary set of keys.
 */
module DecisionCache {
  import opened ClassLoaders

  type Cache = map<ClassLoader, bool>

  /** What a `matches` call returns, together with the cache it leaves behind.
      `computed` records whether this call ran the policy's probes. */
  datatype Answer = Answer(value: bool, cache: Cache, computed: bool)

  /** The cache invariant: the bootstrap loader is never a key, and every
      cached decision is the one `policy` gives for its key. */
  ghost predicate Consistent(cache: Cache, policy: ClassLoader -> bool) {
    && Bootstrap !in cache
    && forall cl :: cl in cache ==> cache[cl] == policy(cl)
  }

  /** `cache.getIfPresent(cl)`, with `None` for Java's `null`. */
  function GetIfPresent(cache: Cache, cl: ClassLoader): Option<bool> {
    if cl in cache then Some(cache[cl]) else None
  }

  /** `cache.put(cl, v)`. */
  function Put(cache: Cache, cl: ClassLoader, v: bool): Cache {
    cache[cl := v]
  }

  /** Removal of any set of entries by the cache itself. It only forgets:
      every surviving entry keeps its key and value. */
  function Evict(cache: Cache, gone: set<ClassLoader>): (c: Cache)
    ensures forall cl :: cl in c ==> cl in cache && cl !in gone && c[cl] == cache[cl]
    ensures forall cl :: cl in cache && cl !in gone ==> cl in c
  {
    cache - gone
  }

  /** Consistency survives any eviction. */
  lemma EvictPreservesConsistent(cache: Cache, gone: set<ClassLoader>, policy: ClassLoader -> bool)
    requires Consistent(cache, policy)
    ensures Consistent(Evict(cache, gone), policy)
  {
  }

  /** Storing the policy's own value for a non-bootstrap loader keeps the cache consistent. */
  lemma PutPreservesConsistent(cache: Cache, cl: ClassLoader, policy: ClassLoader -> bool)
    requires Consistent(cache, policy)
    requires cl != Bootstrap
    ensures Consistent(Put(cache, cl, policy(cl)), policy)
  {
  }
}
