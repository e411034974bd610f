/**
 * `MySubscription`: the immutable binding of a subscriber object to one of
 * its handler descriptors. The constructor checks nothing, so every pair is
 * a binding.
 */
module Subscriptions {
  import opened JavaTypes
  import opened SubscriberMethods

  /** (subscriber, subscriberMethod), as passed to the constructor. */
  datatype Subscription = Subscription(subscriber: Obj, subscriberMethod: SubscriberMethod)

  /** `getSubscriber()` and `getSubscriberMethod()` return what the constructor was given, for any pair. */
  lemma GettersReturnConstructorArguments(s: Obj, d: SubscriberMethod)
    ensures var b := Subscription(s, d);
      b.subscriber == s && b.subscriberMethod == d
  {
  }

  /** A binding is nothing but its two fields. */
  lemma DeterminedByFields(b: Subscription, c: Subscription)
    ensures b == c <==> (b.subscriber == c.subscriber && b.subscriberMethod == c.subscriberMethod)
  {
  }
}
