/**
 The host runtime's class loaders, seen only through the probes the matchers use.

 A loader is either the bootstrap loader (Java's `null` loader reference) or an
 instance. An instance answers three deterministic questions: the name of its
 implementation type, which class object (if any) a class name loads to, and
 whether a resource name resolves. The `id` field keeps two loaders with the
 same probe tables apart, as distinct Java objects are.

 Datatype equality, and so cache keying, compares the whole record, tables
 included, not just `id`. That matches Java's identity keying only because
 a loader's probes are taken to be deterministic: a loader always answers the
 same way. A loader whose answers changed would be a new key here, whereas the
 source's identity-keyed cache would keep returning the decision it stored.
 */
module ClassLoaders {

  /** Which loader defined a class object. */
  datatype Definer = DefinedByBootstrap | DefinedByLoader(loaderId: nat)

  /** A class object. Two class objects with the same name but different
      definers are distinct, as in the JVM. */
  datatype JClass = JClass(name: string, definer: Definer)

  datatype Option<+T> = None | Some(value: T)

  datatype ClassLoader =
    | Bootstrap
    | Instance(id: nat, typeName: string, classes: map<string, JClass>, resources: set<string>)

  /** `loader.getClass().getName()`. */
  function TypeName(cl: ClassLoader): string
    requires cl.Instance?
  {
    cl.typeName
  }

  /** `loader.loadClass(name)`: `None` models `ClassNotFoundException`. */
  function LoadClass(cl: ClassLoader, name: string): Option<JClass>
    requires cl.Instance?
  {
    if name in cl.classes then Some(cl.classes[name]) else None
  }

  /** `loader.getResource(name) != null`. */
  predicate HasResource(cl: ClassLoader, name: string)
    requires cl.Instance?
  {
    name in cl.resources
  }
}
