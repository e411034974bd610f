# EventBus_Demo core in Dafny

This project models the two message-dispatch cores of the EventBus_Demo
Android application.

**`MyEventBus`, the reflective event bus.**
- `register(subscriber)` resolves the handler methods of the subscriber's
  class. A handler method is public, has exactly one parameter and carries
  `@MySubscribe`. The resolved list goes into the per-class
  `METHOD_CACHE`.
- When the lookup hits the cache, `register` subscribes every descriptor.
  That appends a `MySubscription` to `subscriptionsByEventType[eventType]`
  and the event type to `typesBySubscriber[subscriber]`.
- `post(event)` walks the bindings stored under the event's exact class,
  in subscription order.
- For each binding, `postSingleSubscription` uses the handler's
  `MyThreadMode` and whether the posting thread is the main thread. It
  either calls `invokeMethod` in place, queues the call on the main
  thread, or queues it on the worker pool.
- `invokeMethod` swallows `IllegalAccessException` and
  `InvocationTargetException`. Any other throwable from a call made in
  place leaves `post`. A handed-off call runs later inside a `Runnable`
  on the main looper or the pool, so its throwable is raised there and
  not in `post`.

**`Dispatcher`, the plain observer list.**
- `register` appends a subscriber.
- `unregister` removes its first occurrence (`ArrayList.remove(Object)`).
- `post(msg)` calls `onEvent(msg)` on every element in list order.

**The value types.** `MySubscriberMethod` (method, thread mode, event type)
and `MySubscription` (subscriber, descriptor) are immutable datatypes.

Files:

- `java_types.dfy` (`JavaTypes`): what reflection reports, as plain
  values.
  - A class is a `ClassId`.
  - An object is an `Obj`: an identity and a class.
  - A method is a `JMethod`: modifiers, parameter classes and an optional
    `@MySubscribe` tag.
  - `MyThreadMode` is the `ThreadMode` datatype, and `PUBLIC = 0x0001`.
- `subscriber_method.dfy` (`SubscriberMethods`) and `subscription.dfy`
  (`Subscriptions`): the two value types.
- `event_bus.dfy` (`EventBus`) has these parts:
  - the resolver `Resolve`, which specifies `findByReflection`;
  - the registry functions `AddBinding`, `AddType`, `AddAllBindings` and
    `AddAllTypes`, which specify `subscribe` and the `for` loop of
    `register`;
  - the registry invariant `RegistryValid`. Under each event type there
    are only well-formed bindings for that exact type, and
    `typesBySubscriber` counts every (subscriber, type) pair as often as
    the bindings do;
  - the delivery functions `RouteFor`, `PostSingleSubscription` and
    `PostTrace`;
  - the class `MyEventBus`, whose methods change its three maps in place
    and are proved against those functions.
- `dispatcher.dfy` (`PubSub`): the class `Dispatcher` over a sequence of
  subscribers, with `RemoveFirst` specifying `ArrayList.remove(Object)`.

Side effects become values:

- Reflection (`Class.getMethods()`) is the constant `methodsOf` given to
  the bus at construction.
- The outcome of `Method.invoke` is the parameter `invoke`.
- Whether the posting thread is the main thread is the parameter
  `isMainThread`.
- A `post` returns the trace of `Action`s it takes. A handler call in
  place carries its outcome. A hand-off to the main thread or to the pool
  is recorded and not run.
- `Dispatcher.Post` returns the `onEvent` calls it makes, in order.

The model keeps these behaviours of the code:

- `findSubscriberMethods` returns `null` when the class was not yet
  cached. So the first `register` of a class only fills the cache and
  subscribes nothing. A later `register` of any instance of that class
  subscribes it. See `EventBus.MyEventBus.Register`.
- `findSubscriberMethods` caches a scan result only when it is
  non-empty.
- A method qualifies only when its modifiers are exactly
  `Modifier.PUBLIC`. A `public final` or `public static` handler is
  rejected.
- `MyEventBus` has no `unregister`. Only `subscribe` reads
  `typesBySubscriber`, to append to it; nothing else consults it.
- The per-subscriber event types are kept in a list, with duplicates.
  Once its class is cached, registering the same subscriber again binds
  it again.

## Model

| member | source | states |
|---|---|---|
| SubscriberMethods.GettersReturnConstructorArguments | app/src/main/java/com/eventbus_demo/myeventbus/MySubscriberMethod.java:22-38 | each getter returns the argument the constructor was given |
| SubscriberMethods.DeterminedByFields | app/src/main/java/com/eventbus_demo/myeventbus/MySubscriberMethod.java:12-26 | a descriptor is nothing but its three final fields, which never change after construction |
| Subscriptions.GettersReturnConstructorArguments | app/src/main/java/com/eventbus_demo/myeventbus/MySubscription.java:16-27 | `getSubscriber` and `getSubscriberMethod` return the constructor's arguments |
| Subscriptions.DeterminedByFields | app/src/main/java/com/eventbus_demo/myeventbus/MySubscription.java:10-19 | a binding is nothing but its two final fields, which never change after construction |
| EventBus.ResolveConcat | app/src/main/java/com/eventbus_demo/myeventbus/MyEventBus.java:180-203 | the scan is a left-to-right fold: scanning a + b gives the result for a followed by the result for b |
| EventBus.ResolveSound | app/src/main/java/com/eventbus_demo/myeventbus/MyEventBus.java:180-204 | at most one descriptor per method; every descriptor found comes from one of the methods, which passed the PUBLIC/one-parameter/tag test, and is built from that method's tag mode and parameter class |
| EventBus.ResolvePosition | app/src/main/java/com/eventbus_demo/myeventbus/MyEventBus.java:186-201 | the method at position i adds a descriptor exactly when it passes the test, and that descriptor is `Describe(ms[i])` at the index after those of the passing methods before i |
| EventBus.ResolveDefaultsToPosting | app/src/main/java/com/eventbus_demo/myeventbus/MyEventBus.java:190-198 | a qualifying method whose tag declares no mode resolves to a descriptor with POSTING, the default of `MySubscribe.threadMode()` |
| EventBus.ResolveKeepsOrder | app/src/main/java/com/eventbus_demo/myeventbus/MyEventBus.java:180-200 | passing methods appear in the result in reflection order |
| EventBus.SubscribeAppendsBinding | app/src/main/java/com/eventbus_demo/myeventbus/MyEventBus.java:107-124 | subscribe creates the list of the event type if absent and appends the binding at its end; the lists of all other types are unchanged |
| EventBus.SubscribeAppendsType | app/src/main/java/com/eventbus_demo/myeventbus/MyEventBus.java:128-136 | subscribe creates the subscriber's type list if absent and appends the event type, duplicates kept; other subscribers are unchanged |
| EventBus.AddAllBindingsLookup | app/src/main/java/com/eventbus_demo/myeventbus/MyEventBus.java:83-86 | subscribing every descriptor adds under each class exactly the bindings for that class, in descriptor order, after the existing ones |
| EventBus.AddAllTypesOf | app/src/main/java/com/eventbus_demo/myeventbus/MyEventBus.java:83-86 | subscribing every descriptor appends all their event types, in order, to that subscriber's list and to no one else's |
| EventBus.SubscribeKeepsCount | app/src/main/java/com/eventbus_demo/myeventbus/MyEventBus.java:105-137 | if the count of type t in the types of subscriber o equals the count of bindings of o under t, one subscribe keeps the two counts equal |
| EventBus.SubscribeKeepsTypesMatching | app/src/main/java/com/eventbus_demo/myeventbus/MyEventBus.java:105-137 | subscribe keeps `typesBySubscriber` consistent with `subscriptionsByEventType`, with multiplicity |
| EventBus.SubscribeKeepsWellFormed | app/src/main/java/com/eventbus_demo/myeventbus/MyEventBus.java:105-124 | subscribing a resolved descriptor keeps every list non-empty and holding only resolved descriptors for its own event type |
| EventBus.AddAllKeepsRegistryValid | app/src/main/java/com/eventbus_demo/myeventbus/MyEventBus.java:82-87 | subscribing a sequence of resolved descriptors keeps the whole registry invariant |
| EventBus.RouteFor | app/src/main/java/com/eventbus_demo/myeventbus/MyEventBus.java:248-287 | POSTING runs in place; MAIN/MAIN_ORDERED always end on the main thread, BACKGROUND/ASYNC never do; a thread hop happens if and only if the mode is not POSTING and the current thread is not the one the mode asks for |
| EventBus.PostSingleSubscription | app/src/main/java/com/eventbus_demo/myeventbus/MyEventBus.java:236-307 | one action for the binding; it runs in place exactly when `RouteFor` says so, carrying `invoke`'s outcome; it is queued to the main thread exactly for MAIN/MAIN_ORDERED off the main thread, and to the pool exactly for BACKGROUND/ASYNC on it; POSTING always runs in place |
| EventBus.PostTraceShape | app/src/main/java/com/eventbus_demo/myeventbus/MyEventBus.java:223-228 | post's trace has one action per binding in order, and stops early only right after a call whose throwable escapes `invokeMethod` |
| EventBus.PostTraceUnique | app/src/main/java/com/eventbus_demo/myeventbus/MyEventBus.java:223-228 | that shape determines the trace uniquely |
| EventBus.SwallowedFailuresDoNotStopPost | app/src/main/java/com/eventbus_demo/myeventbus/MyEventBus.java:295-307 | if no handler throws anything other than IllegalAccessException/InvocationTargetException, post handles every binding exactly once, in order |
| EventBus.PostHandlesExactClass | app/src/main/java/com/eventbus_demo/myeventbus/MyEventBus.java:215-228 | under the registry invariant, post only handles bindings stored under the event's exact class whose handler takes exactly that class |
| EventBus.MyEventBus.constructor | app/src/main/java/com/eventbus_demo/myeventbus/MyEventBus.java:25-61 | the bus starts with an empty cache and empty maps, and satisfies the invariant |
| EventBus.MyEventBus.FindByReflection | app/src/main/java/com/eventbus_demo/myeventbus/MyEventBus.java:172-205 | the loop returns `Resolve` of the class's methods |
| EventBus.MyEventBus.FindSubscriberMethods | app/src/main/java/com/eventbus_demo/myeventbus/MyEventBus.java:144-165 | on a hit, the cached list, which is the non-empty scan result, and no change; on a miss, `None` (`null`), caching the scan result only if it is non-empty; the invariant is kept |
| EventBus.MyEventBus.Subscribe | app/src/main/java/com/eventbus_demo/myeventbus/MyEventBus.java:105-137 | the two maps become `AddBinding` and `AddType` of the old ones; the cache is untouched |
| EventBus.MyEventBus.SubscribeEach | app/src/main/java/com/eventbus_demo/myeventbus/MyEventBus.java:83-86 | the loop subscribes every descriptor in order: the maps become `AddAllBindings` and `AddAllTypes` of the old ones |
| EventBus.MyEventBus.Register | app/src/main/java/com/eventbus_demo/myeventbus/MyEventBus.java:74-88 | for a cached class, every resolved descriptor is subscribed and the cache is unchanged; for an uncached class, only the cache changes; the invariant is kept |
| EventBus.MyEventBus.Post | app/src/main/java/com/eventbus_demo/myeventbus/MyEventBus.java:215-229 | the actions taken are `PostTrace` of the list under the event's exact class (none when there is no list) |
| PubSub.FirstIndex | app/src/main/java/com/eventbus_demo/publisher_subscriber/Dispatcher.java:43 | the index `remove(Object)` removes holds s and has no s before it |
| PubSub.RemoveFirstRemovesFirstOccurrence | app/src/main/java/com/eventbus_demo/publisher_subscriber/Dispatcher.java:43 | `remove(Object)` cuts out exactly the first occurrence, keeping order, and does nothing when s is absent |
| PubSub.RemoveFirstKeepsOthers | app/src/main/java/com/eventbus_demo/publisher_subscriber/Dispatcher.java:42-44 | unregister removes one copy of s if present and keeps every other subscriber, with multiplicity; the length drops by one exactly when s was present |
| PubSub.UnregisterUndoesRegister | app/src/main/java/com/eventbus_demo/publisher_subscriber/Dispatcher.java:34-44 | unregister right after registering a new subscriber restores the list; for one already present it removes the earlier copy and keeps the new one at the end |
| PubSub.Dispatcher.constructor | app/src/main/java/com/eventbus_demo/publisher_subscriber/Dispatcher.java:20-22 | a new dispatcher has no subscribers |
| PubSub.Dispatcher.Register | app/src/main/java/com/eventbus_demo/publisher_subscriber/Dispatcher.java:34-36 | the subscriber is appended at the end, even when already present |
| PubSub.Dispatcher.Unregister | app/src/main/java/com/eventbus_demo/publisher_subscriber/Dispatcher.java:42-44 | the list becomes `RemoveFirst` of the old list |
| PubSub.Dispatcher.Post | app/src/main/java/com/eventbus_demo/publisher_subscriber/Dispatcher.java:51-55 | one `onEvent(msg)` per list element, in list order; the list is unchanged |

## Left out

- Threads. `Looper`, `Handler.post` and the cached thread pool are not
  modelled. A hand-off is recorded as a `ToMain` or `ToPool` action, and
  the later call on the other thread is not run.
- Concurrency. `CopyOnWriteArrayList` snapshots and concurrent
  `register`/`post` are out of scope: every operation is modelled as
  atomic on one thread.
- `Looper.getMainLooper() == Looper.myLooper()` is read once per `post`
  through the `isMainThread` parameter. The source reads it once per
  binding, which agrees when a `post` runs on one thread.
- Reflection. `Class.getMethods()` is fixed per class by `methodsOf`.
  Inherited methods and the order reflection uses are whatever
  `methodsOf` lists.
- Handler calls. `Method.invoke` is a function of the binding and the
  event. A handler's own effects, including a re-entrant `post` or
  `register` from inside a handler, are not modelled.
- `Dispatcher.Post`: an exception thrown by `onEvent`, and re-entrant
  changes to the list during the loop, are not modelled. Every element
  is called.
- The singletons. `getInstance()` of both classes is left out, and each
  model is one object built by its constructor. The static
  `METHOD_CACHE` is a field of that single bus.
- Equality. Subscribers are compared by the datatype's equality. A
  custom `equals`/`hashCode` on a subscriber class is not modelled.
- SubscriberMethods.DeterminedByFields and Subscriptions.DeterminedByFields:
  descriptors and bindings are compared as values. Java compares
  `MySubscriberMethod` and `MySubscription` objects by identity, since
  neither overrides `equals`. The core never compares them.
- Logging. The `printStackTrace()` calls with which `invokeMethod` logs
  the two exceptions it swallows are not modelled.
- Null. `null` subscribers and events are not modelled. Every `Obj` has
  a class.
- The demo activities, `Client`, `Publisher` and the `Subscriber`
  interface are not part of this model.
