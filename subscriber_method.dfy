/**
 * `MySubscriberMethod`: the immutable description of one handler method.
 * Its three final fields become the fields of a datatype value, so the
 * getters are the datatype's destructors and nothing can change a
 * descriptor once it is built.
 */
module SubscriberMethods {
  import opened JavaTypes

  /** (method, threadMode, eventType), as passed to the constructor. */
  datatype SubscriberMethod = SubscriberMethod(
    handler: JMethod,
    threadMode: ThreadMode,
    eventType: ClassId)

  /** `getMethod()`, `getThreadMode()` and `getEventType()` return what the constructor was given. */
  lemma GettersReturnConstructorArguments(m: JMethod, mode: ThreadMode, t: ClassId)
    ensures var d := SubscriberMethod(m, mode, t);
      d.handler == m && d.threadMode == mode && d.eventType == t
  {
  }

  /** A descriptor is nothing but its three fields: equal fields, equal descriptors, and back. */
  lemma DeterminedByFields(d: SubscriberMethod, e: SubscriberMethod)
    ensures d == e <==> (d.handler == e.handler && d.threadMode == e.threadMode && d.eventType == e.eventType)
    ensures d == SubscriberMethod(d.handler, d.threadMode, d.eventType)
  {
  }
}
