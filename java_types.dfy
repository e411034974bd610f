/**
 * The pieces of the Java runtime that the event bus reaches through
 * reflection, reduced to plain values: runtime classes, object references,
 * what `Class.getMethods()` reports of a method, the `@MySubscribe` tag and
 * the `MyThreadMode` enum.
 */
module JavaTypes {

  datatype Option<+T> = None | Some(value: T)

  /** A runtime class (`Class<?>`), compared by identity. */
  type ClassId = nat

  /** An object reference: its identity and its runtime class (`getClass()`). */
  datatype Obj = Obj(identity: nat, cls: ClassId)

  /** `java.lang.reflect.Modifier.PUBLIC`. */
  const PUBLIC: int := 0x0001

  /** The five constants of `MyThreadMode`. */
  datatype ThreadMode = Posting | Main | MainOrdered | Background | Async

  /**
   * A `@MySubscribe` tag on a method; `declared` is the `threadMode` element
   * when the tag spells one out.
   */
  datatype SubscribeTag = SubscribeTag(declared: Option<ThreadMode>)

  /** `annotation.threadMode()`: the declared mode, POSTING when none is written. */
  function TagMode(tag: SubscribeTag): ThreadMode
  {
    match tag.declared
    case Some(m) => m
    case None => Posting
  }

  /**
   * One public method as reflection reports it: an identity, the modifier
   * bits of `getModifiers()`, the classes of `getParameterTypes()` and the
   * result of `getAnnotation(MySubscribe.class)`.
   */
  datatype JMethod = JMethod(
    id: nat,
    modifiers: int,
    paramTypes: seq<ClassId>,
    annotation: Option<SubscribeTag>)
}
