/**
 * `MyEventBus`: the reflective event bus. It resolves the handler methods
 * of a subscriber's class (with a per-class cache), records one binding per
 * handler in `subscriptionsByEventType` and the handled types in
 * `typesBySubscriber`, and on `post` walks the bindings stored under the
 * event's exact class, choosing for each one an inline call, a hand-off to
 * the main thread or a hand-off to the worker pool.
 *
 * Reflection is the constant `methodsOf` (what `Class.getMethods()`
 * reports); the handler call `Method.invoke` is a parameter of `Post` that
 * gives its outcome; the thread hops are recorded as actions of a trace.
 */
module EventBus {
  import opened JavaTypes
  import opened SubscriberMethods
  import opened Subscriptions

  // ------------------------------------------------------------------
  // Resolution (findByReflection)
  // ------------------------------------------------------------------

  /** The test a method must pass: modifiers exactly PUBLIC, one parameter, a `@MySubscribe` tag. */
  predicate IsSubscriberMethod(m: JMethod) {
    m.modifiers == PUBLIC && |m.paramTypes| == 1 && m.annotation.Some?
  }

  /** The descriptor built for a method that passes: the tag's mode and the parameter's class. */
  function Describe(m: JMethod): SubscriberMethod
    requires IsSubscriberMethod(m)
  {
    SubscriberMethod(m, TagMode(m.annotation.value), m.paramTypes[0])
  }

  /** A descriptor the resolver can have produced. */
  ghost predicate WellFormed(d: SubscriberMethod) {
    IsSubscriberMethod(d.handler) && d == Describe(d.handler)
  }

  /** The descriptors found among the methods `ms`, scanned front to back. */
  function Resolve(ms: seq<JMethod>): seq<SubscriberMethod>
    decreases |ms|
  {
    if ms == [] then []
    else
      var m := ms[|ms| - 1];
      Resolve(ms[..|ms| - 1]) + (if IsSubscriberMethod(m) then [Describe(m)] else [])
  }

  /** Scanning two runs of methods one after the other finds the two results in that order. */
  lemma {:induction false} ResolveConcat(a: seq<JMethod>, b: seq<JMethod>)
    ensures Resolve(a + b) == Resolve(a) + Resolve(b)
    decreases |b|
  {
    if b == [] {
      assert a + b == a;
    } else {
      var b' := b[..|b| - 1];
      assert (a + b)[..|a + b| - 1] == a + b';
      ResolveConcat(a, b');
    }
  }

  /** Every descriptor found comes from one of the methods and passed the test. */
  lemma {:induction false} ResolveSound(ms: seq<JMethod>)
    ensures |Resolve(ms)| <= |ms|
    ensures forall d :: d in Resolve(ms) ==> d.handler in ms && WellFormed(d)
    decreases |ms|
  {
    if ms != [] {
      var init := ms[..|ms| - 1];
      ResolveSound(init);
      assert forall m :: m in init ==> m in ms;
    }
  }

  /**
   * Every method is counted once: the method at `i` adds one descriptor
   * exactly when it passes the test, and that descriptor sits right after
   * those of the passing methods before `i`.
   */
  lemma {:induction false} ResolvePosition(ms: seq<JMethod>, i: nat)
    requires i < |ms|
    ensures |Resolve(ms[..i + 1])| == |Resolve(ms[..i])| + (if IsSubscriberMethod(ms[i]) then 1 else 0)
    ensures |Resolve(ms[..i + 1])| <= |Resolve(ms)|
    ensures IsSubscriberMethod(ms[i]) ==> Resolve(ms)[|Resolve(ms[..i])|] == Describe(ms[i])
  {
    assert ms[..i + 1][..i] == ms[..i];
    assert ms == ms[..i + 1] + ms[i + 1..];
    ResolveConcat(ms[..i + 1], ms[i + 1..]);
  }

  /** A tagged handler that spells out no thread mode is resolved with POSTING. */
  lemma ResolveDefaultsToPosting(m: JMethod)
    requires IsSubscriberMethod(m) && m.annotation.value.declared.None?
    ensures Resolve([m]) == [SubscriberMethod(m, Posting, m.paramTypes[0])]
  {
  }

  /** Passing methods keep their input order in the result. */
  lemma {:induction false} ResolveKeepsOrder(ms: seq<JMethod>, i: nat, j: nat)
    requires i < j < |ms|
    requires IsSubscriberMethod(ms[i])
    ensures |Resolve(ms[..i])| < |Resolve(ms[..j])|
  {
    ResolvePosition(ms, i);
    assert ms[..j] == ms[..i + 1] + ms[i + 1..j];
    ResolveConcat(ms[..i + 1], ms[i + 1..j]);
  }

  /**
   * METHOD_CACHE holds, per class, the non-empty result of scanning that
   * class's methods.
   */
  ghost predicate CacheSound(cache: map<ClassId, seq<SubscriberMethod>>, methodsOf: ClassId -> seq<JMethod>) {
    forall c :: c in cache ==> cache[c] == Resolve(methodsOf(c)) && cache[c] != []
  }

  // ------------------------------------------------------------------
  // The registry (subscribe)
  // ------------------------------------------------------------------

  /** `subscriptionsByEventType.get(t)`, with an absent key read as no bindings. */
  function Lookup(subs: map<ClassId, seq<Subscription>>, t: ClassId): seq<Subscription> {
    if t in subs then subs[t] else []
  }

  /** `typesBySubscriber.get(s)`, with an absent key read as no types. */
  function TypesOf(types: map<Obj, seq<ClassId>>, s: Obj): seq<ClassId> {
    if s in types then types[s] else []
  }

  /** `subscriptionsByEventType` after subscribe(s, d). */
  function AddBinding(subs: map<ClassId, seq<Subscription>>, s: Obj, d: SubscriberMethod): map<ClassId, seq<Subscription>> {
    subs[d.eventType := Lookup(subs, d.eventType) + [Subscription(s, d)]]
  }

  /** `typesBySubscriber` after subscribe(s, d), with t the event type of d. */
  function AddType(types: map<Obj, seq<ClassId>>, s: Obj, t: ClassId): map<Obj, seq<ClassId>> {
    types[s := TypesOf(types, s) + [t]]
  }

  /**
   * subscribe(s, d) leaves a list under d's event type, created empty if
   * there was none, with the binding (s, d) appended at its end, and leaves
   * the lists of all other event types as they were.
   */
  lemma SubscribeAppendsBinding(subs: map<ClassId, seq<Subscription>>, s: Obj, d: SubscriberMethod, t: ClassId)
    ensures AddBinding(subs, s, d).Keys == subs.Keys + {d.eventType}
    ensures Lookup(AddBinding(subs, s, d), t) == Lookup(subs, t) + (if t == d.eventType then [Subscription(s, d)] else [])
  {
  }

  /**
   * subscribe(s, d) leaves a list under s, created empty if there was none,
   * with d's event type appended at its end even when already listed, and
   * leaves the lists of all other subscribers as they were.
   */
  lemma SubscribeAppendsType(types: map<Obj, seq<ClassId>>, s: Obj, t: ClassId, o: Obj)
    ensures AddType(types, s, t).Keys == types.Keys + {s}
    ensures TypesOf(AddType(types, s, t), o) == TypesOf(types, o) + (if o == s then [t] else [])
  {
  }

  /** `subscriptionsByEventType` after subscribing s with each of ds in turn. */
  function AddAllBindings(subs: map<ClassId, seq<Subscription>>, s: Obj, ds: seq<SubscriberMethod>): map<ClassId, seq<Subscription>>
    decreases |ds|
  {
    if ds == [] then subs
    else AddBinding(AddAllBindings(subs, s, ds[..|ds| - 1]), s, ds[|ds| - 1])
  }

  /** `typesBySubscriber` after subscribing s with each of ds in turn. */
  function AddAllTypes(types: map<Obj, seq<ClassId>>, s: Obj, ds: seq<SubscriberMethod>): map<Obj, seq<ClassId>>
    decreases |ds|
  {
    if ds == [] then types
    else AddType(AddAllTypes(types, s, ds[..|ds| - 1]), s, ds[|ds| - 1].eventType)
  }

  /** The bindings of s to those of ds that handle exactly the class t, in order. */
  function BindingsOfType(s: Obj, ds: seq<SubscriberMethod>, t: ClassId): seq<Subscription>
    decreases |ds|
  {
    if ds == [] then []
    else
      var d := ds[|ds| - 1];
      BindingsOfType(s, ds[..|ds| - 1], t) + (if d.eventType == t then [Subscription(s, d)] else [])
  }

  /** The event types of ds, one per descriptor. */
  function EventTypes(ds: seq<SubscriberMethod>): seq<ClassId> {
    seq(|ds|, k requires 0 <= k < |ds| => ds[k].eventType)
  }

  /**
   * Registering s with descriptors ds adds under each class t exactly the
   * bindings of s to the descriptors for t, after the bindings already there.
   */
  lemma {:induction false} AddAllBindingsLookup(subs: map<ClassId, seq<Subscription>>, s: Obj, ds: seq<SubscriberMethod>, t: ClassId)
    ensures Lookup(AddAllBindings(subs, s, ds), t) == Lookup(subs, t) + BindingsOfType(s, ds, t)
    decreases |ds|
  {
    if ds != [] {
      AddAllBindingsLookup(subs, s, ds[..|ds| - 1], t);
      SubscribeAppendsBinding(AddAllBindings(subs, s, ds[..|ds| - 1]), s, ds[|ds| - 1], t);
    }
  }

  /**
   * Registering s with descriptors ds appends the event type of every
   * descriptor, duplicates included, to the types of s and of no one else.
   */
  lemma {:induction false} AddAllTypesOf(types: map<Obj, seq<ClassId>>, s: Obj, ds: seq<SubscriberMethod>, o: Obj)
    ensures TypesOf(AddAllTypes(types, s, ds), o) == TypesOf(types, o) + (if o == s then EventTypes(ds) else [])
    decreases |ds|
  {
    if ds != [] {
      var init := ds[..|ds| - 1];
      AddAllTypesOf(types, s, init, o);
      SubscribeAppendsType(AddAllTypes(types, s, init), s, ds[|ds| - 1].eventType, o);
      assert EventTypes(ds) == EventTypes(init) + [ds[|ds| - 1].eventType];
    }
  }

  /** Under each class, only bindings whose handler takes exactly that class and that the resolver can have produced; no empty list. */
  ghost predicate BindingsWellFormed(subs: map<ClassId, seq<Subscription>>) {
    forall t :: t in subs ==>
      && subs[t] != []
      && forall b :: b in subs[t] ==> b.subscriberMethod.eventType == t && WellFormed(b.subscriberMethod)
  }

  /** The subscribers of a list of bindings, in order. */
  function SubscribersOf(bs: seq<Subscription>): seq<Obj> {
    seq(|bs|, k requires 0 <= k < |bs| => bs[k].subscriber)
  }

  /** How often x occurs in xs. */
  function Occurrences<T(==)>(xs: seq<T>, x: T): nat {
    multiset(xs)[x]
  }

  /**
   * `typesBySubscriber` agrees with `subscriptionsByEventType`: s lists t as
   * often as t's list holds bindings of s, and no subscriber has an empty list.
   */
  ghost predicate TypesMatchBindings(subs: map<ClassId, seq<Subscription>>, types: map<Obj, seq<ClassId>>) {
    && (forall s :: s in types ==> types[s] != [])
    && (forall s, t :: Occurrences(TypesOf(types, s), t) == Occurrences(SubscribersOf(Lookup(subs, t)), s))
  }

  lemma OccurrencesAppend<T>(xs: seq<T>, y: T, x: T)
    ensures Occurrences(xs + [y], x) == Occurrences(xs, x) + (if x == y then 1 else 0)
  {
    assert multiset(xs + [y]) == multiset(xs) + multiset{y};
  }

  /** The subscribers of bindings with one more binding at the end. */
  lemma SubscribersOfAppend(bs: seq<Subscription>, b: Subscription)
    ensures SubscribersOf(bs + [b]) == SubscribersOf(bs) + [b.subscriber]
  {
  }

  /**
   * One subscribe(s, d) adds one to the count of t in the types of o exactly
   * when it adds one binding of o under t, so the two counts stay equal.
   */
  lemma {:induction false} SubscribeKeepsCount(subs: map<ClassId, seq<Subscription>>, types: map<Obj, seq<ClassId>>, s: Obj, d: SubscriberMethod, o: Obj, t: ClassId)
    requires Occurrences(TypesOf(types, o), t) == Occurrences(SubscribersOf(Lookup(subs, t)), o)
    ensures Occurrences(TypesOf(AddType(types, s, d.eventType), o), t)
         == Occurrences(SubscribersOf(Lookup(AddBinding(subs, s, d), t)), o)
  {
    var bs := Lookup(subs, t);
    SubscribeAppendsBinding(subs, s, d, t);
    SubscribeAppendsType(types, s, d.eventType, o);
    if o == s {
      OccurrencesAppend(TypesOf(types, o), d.eventType, t);
    }
    if t == d.eventType {
      SubscribersOfAppend(bs, Subscription(s, d));
      OccurrencesAppend(SubscribersOf(bs), s, o);
    }
  }

  /** One subscribe keeps the two maps in agreement. */
  lemma {:induction false} SubscribeKeepsTypesMatching(subs: map<ClassId, seq<Subscription>>, types: map<Obj, seq<ClassId>>, s: Obj, d: SubscriberMethod)
    requires TypesMatchBindings(subs, types)
    ensures TypesMatchBindings(AddBinding(subs, s, d), AddType(types, s, d.eventType))
  {
    var subs', types' := AddBinding(subs, s, d), AddType(types, s, d.eventType);
    forall o, t
      ensures Occurrences(TypesOf(types', o), t) == Occurrences(SubscribersOf(Lookup(subs', t)), o)
    {
      SubscribeKeepsCount(subs, types, s, d, o, t);
    }
    forall o | o in types'
      ensures types'[o] != []
    {
      SubscribeAppendsType(types, s, d.eventType, o);
      assert types'[o] == TypesOf(types', o);
    }
  }

  /** One subscribe with a resolved descriptor keeps every list well formed. */
  lemma {:induction false} SubscribeKeepsWellFormed(subs: map<ClassId, seq<Subscription>>, s: Obj, d: SubscriberMethod)
    requires BindingsWellFormed(subs)
    requires WellFormed(d)
    ensures BindingsWellFormed(AddBinding(subs, s, d))
  {
    var subs' := AddBinding(subs, s, d);
    forall t | t in subs'
      ensures subs'[t] != []
      ensures forall b: Subscription :: b in subs'[t] ==> b.subscriberMethod.eventType == t && WellFormed(b.subscriberMethod)
    {
      SubscribeAppendsBinding(subs, s, d, t);
      assert subs'[t] == Lookup(subs', t);
      assert t in subs ==> subs[t] == Lookup(subs, t);
    }
  }

  /** The registry invariant: well-formed lists under their own classes, and the two maps in agreement. */
  ghost predicate RegistryValid(subs: map<ClassId, seq<Subscription>>, types: map<Obj, seq<ClassId>>) {
    BindingsWellFormed(subs) && TypesMatchBindings(subs, types)
  }

  /** Subscribing s with resolved descriptors, one after the other, keeps the registry invariant. */
  lemma {:induction false} AddAllKeepsRegistryValid(subs: map<ClassId, seq<Subscription>>, types: map<Obj, seq<ClassId>>, s: Obj, ds: seq<SubscriberMethod>)
    requires RegistryValid(subs, types)
    requires forall d :: d in ds ==> WellFormed(d)
    ensures RegistryValid(AddAllBindings(subs, s, ds), AddAllTypes(types, s, ds))
    decreases |ds|
  {
    if ds != [] {
      var init, d := ds[..|ds| - 1], ds[|ds| - 1];
      assert forall e :: e in init ==> e in ds;
      AddAllKeepsRegistryValid(subs, types, s, init);
      SubscribeKeepsTypesMatching(AddAllBindings(subs, s, init), AddAllTypes(types, s, init), s, d);
      SubscribeKeepsWellFormed(AddAllBindings(subs, s, init), s, d);
    }
  }

  // ------------------------------------------------------------------
  // Delivery (post, postSingleSubscription, invokeMethod)
  // ------------------------------------------------------------------

  /** Where a handler call goes. */
  datatype Route = RunInline | HandOffToMain | HandOffToPool

  /** MAIN and MAIN_ORDERED handlers must run on the main thread. */
  predicate WantsMain(mode: ThreadMode) {
    mode == Main || mode == MainOrdered
  }

  /** Whether a call taking route r from a thread that is (or is not) the main one runs on the main thread. */
  predicate RunsOnMain(r: Route, isMainThread: bool) {
    r == HandOffToMain || (r == RunInline && isMainThread)
  }

  /**
   * The `switch` of postSingleSubscription: POSTING stays on the posting
   * thread; MAIN and MAIN_ORDERED always end up on the main thread and
   * BACKGROUND and ASYNC never do; and a hop happens exactly when the mode
   * asks for a thread other than the current one.
   */
  function RouteFor(mode: ThreadMode, isMainThread: bool): (r: Route)
    ensures mode == Posting ==> r == RunInline
    ensures WantsMain(mode) ==> RunsOnMain(r, isMainThread) && r != HandOffToPool
    ensures (mode == Background || mode == Async) ==> !RunsOnMain(r, isMainThread) && r != HandOffToMain
    ensures r != RunInline <==> mode != Posting && isMainThread != WantsMain(mode)
  {
    match mode
    case Posting => RunInline
    case Main | MainOrdered => if isMainThread then RunInline else HandOffToMain
    case Background | Async => if isMainThread then HandOffToPool else RunInline
  }

  /** How `Method.invoke` ends: normally, with one of the two exceptions invokeMethod catches, or with any other throwable. */
  datatype InvokeOutcome = Returned | IllegalAccess | InvocationTarget | Unchecked

  /** What post does with one binding: call it now (with the call's outcome), or queue it on the main thread or the pool. */
  datatype Action =
    | Inline(binding: Subscription, outcome: InvokeOutcome)
    | ToMain(binding: Subscription)
    | ToPool(binding: Subscription)

  /**
   * invokeMethod swallows IllegalAccessException and
   * InvocationTargetException; only another throwable from an inline call
   * leaves post.
   */
  predicate Escapes(a: Action) {
    a.Inline? && a.outcome == Unchecked
  }

  /**
   * postSingleSubscription: one action for the binding b; an inline call
   * carries the outcome of invoking b's handler on the event, a hand-off
   * to the main thread happens only for MAIN/MAIN_ORDERED off the main
   * thread, and one to the pool only for BACKGROUND/ASYNC on it.
   */
  function PostSingleSubscription(b: Subscription, event: Obj, isMainThread: bool, invoke: (Subscription, Obj) -> InvokeOutcome): (a: Action)
    ensures a.binding == b
    ensures a.Inline? ==> a.outcome == invoke(b, event)
    ensures a.Inline? <==> RouteFor(b.subscriberMethod.threadMode, isMainThread) == RunInline
    ensures a.ToMain? <==> WantsMain(b.subscriberMethod.threadMode) && !isMainThread
    ensures a.ToPool? <==> (b.subscriberMethod.threadMode == Background || b.subscriberMethod.threadMode == Async) && isMainThread
  {
    match RouteFor(b.subscriberMethod.threadMode, isMainThread)
    case RunInline => Inline(b, invoke(b, event))
    case HandOffToMain => ToMain(b)
    case HandOffToPool => ToPool(b)
  }

  /** The actions post takes for the bindings bs, in order, stopping after a call whose throwable escapes. */
  function PostTrace(bs: seq<Subscription>, event: Obj, isMainThread: bool, invoke: (Subscription, Obj) -> InvokeOutcome): seq<Action>
    decreases |bs|
  {
    if bs == [] then []
    else
      var a := PostSingleSubscription(bs[0], event, isMainThread, invoke);
      if Escapes(a) then [a] else [a] + PostTrace(bs[1..], event, isMainThread, invoke)
  }

  /**
   * What a trace of post over bs looks like, stated without recursion: one
   * action per binding, in order, cut short only right after an action whose
   * throwable escapes.
   */
  ghost predicate IsPostTrace(tr: seq<Action>, bs: seq<Subscription>, event: Obj, isMainThread: bool, invoke: (Subscription, Obj) -> InvokeOutcome) {
    && |tr| <= |bs|
    && (forall k :: 0 <= k < |tr| ==> tr[k] == PostSingleSubscription(bs[k], event, isMainThread, invoke))
    && (forall k :: 0 <= k < |tr| - 1 ==> !Escapes(tr[k]))
    && (|tr| < |bs| ==> 0 < |tr| && Escapes(tr[|tr| - 1]))
  }

  /** PostTrace has that shape. */
  lemma {:induction false} PostTraceShape(bs: seq<Subscription>, event: Obj, isMainThread: bool, invoke: (Subscription, Obj) -> InvokeOutcome)
    ensures IsPostTrace(PostTrace(bs, event, isMainThread, invoke), bs, event, isMainThread, invoke)
    decreases |bs|
  {
    if bs != [] {
      PostTraceShape(bs[1..], event, isMainThread, invoke);
    }
  }

  /** ... and it is the only trace with that shape. */
  lemma {:induction false} PostTraceUnique(tr: seq<Action>, bs: seq<Subscription>, event: Obj, isMainThread: bool, invoke: (Subscription, Obj) -> InvokeOutcome)
    requires IsPostTrace(tr, bs, event, isMainThread, invoke)
    ensures tr == PostTrace(bs, event, isMainThread, invoke)
    decreases |bs|
  {
    if bs != [] {
      var a := PostSingleSubscription(bs[0], event, isMainThread, invoke);
      assert tr[0] == a;
      if Escapes(a) {
        assert |tr| == 1;
      } else {
        assert |tr| > 1 || |bs| == 1;
        assert IsPostTrace(tr[1..], bs[1..], event, isMainThread, invoke);
        PostTraceUnique(tr[1..], bs[1..], event, isMainThread, invoke);
        assert tr == [a] + tr[1..];
      }
    }
  }

  /**
   * When every handler call ends normally or with one of the exceptions
   * invokeMethod swallows, post reaches every binding, each exactly once.
   */
  lemma {:induction false} SwallowedFailuresDoNotStopPost(bs: seq<Subscription>, event: Obj, isMainThread: bool, invoke: (Subscription, Obj) -> InvokeOutcome)
    requires forall b :: b in bs ==> invoke(b, event) != Unchecked
    ensures var tr := PostTrace(bs, event, isMainThread, invoke);
      && |tr| == |bs|
      && forall k :: 0 <= k < |tr| ==> tr[k].binding == bs[k]
  {
    PostTraceShape(bs, event, isMainThread, invoke);
  }

  /** post only ever takes bindings whose handler takes exactly the event's class. */
  lemma PostHandlesExactClass(subs: map<ClassId, seq<Subscription>>, event: Obj, isMainThread: bool, invoke: (Subscription, Obj) -> InvokeOutcome)
    requires BindingsWellFormed(subs)
    ensures forall a :: a in PostTrace(Lookup(subs, event.cls), event, isMainThread, invoke) ==>
      a.binding in Lookup(subs, event.cls) && a.binding.subscriberMethod.eventType == event.cls
  {
    var bs := Lookup(subs, event.cls);
    PostTraceShape(bs, event, isMainThread, invoke);
  }

  // ------------------------------------------------------------------
  // The bus
  // ------------------------------------------------------------------

  class MyEventBus {
    /** `Class.getMethods()` of every class: what reflection reports, fixed for the run. */
    const methodsOf: ClassId -> seq<JMethod>
    /** METHOD_CACHE: resolved descriptors per subscriber class. */
    var methodCache: map<ClassId, seq<SubscriberMethod>>
    /** Event class to its bindings, in subscription order. */
    var subscriptionsByEventType: map<ClassId, seq<Subscription>>
    /** Subscriber to the event classes of its bindings; read only by subscribe, to append to it. */
    var typesBySubscriber: map<Obj, seq<ClassId>>

    ghost predicate Valid()
      reads this
    {
      && CacheSound(methodCache, methodsOf)
      && RegistryValid(subscriptionsByEventType, typesBySubscriber)
    }

    /** The bus starts with both maps and the method cache empty. */
    constructor (methodsOf: ClassId -> seq<JMethod>)
      ensures Valid()
      ensures this.methodsOf == methodsOf
      ensures methodCache == map[] && subscriptionsByEventType == map[] && typesBySubscriber == map[]
    {
      this.methodsOf := methodsOf;
      methodCache := map[];
      subscriptionsByEventType := map[];
      typesBySubscriber := map[];
    }

    /** findByReflection: the descriptors of the class's qualifying methods, in the order reflection lists them. */
    method FindByReflection(subscriberClass: ClassId) returns (found: seq<SubscriberMethod>)
      ensures found == Resolve(methodsOf(subscriberClass))
    {
      found := [];
      var methods := methodsOf(subscriberClass);
      var i := 0;
      while i < |methods|
        invariant 0 <= i <= |methods|
        invariant found == Resolve(methods[..i])
      {
        var m := methods[i];
        var modifiers := m.modifiers;
        var params := m.paramTypes;
        if modifiers == PUBLIC && |params| == 1 {
          var annotation := m.annotation;
          if annotation.Some? {
            var threadMode := TagMode(annotation.value);
            found := found + [SubscriberMethod(m, threadMode, params[0])];
          }
        }
        assert methods[..i + 1][..i] == methods[..i];
        i := i + 1;
      }
      assert methods[..|methods|] == methods;
    }

    /**
     * findSubscriberMethods: on a hit, the cached list and no change; on a
     * miss, `None` (Java's `null`) after caching the scan result if it is
     * non-empty.
     */
    method FindSubscriberMethods(subscriberClass: ClassId) returns (r: Option<seq<SubscriberMethod>>)
      requires Valid()
      modifies this`methodCache
      ensures Valid()
      ensures subscriberClass in old(methodCache) ==>
        && r == Some(old(methodCache)[subscriberClass])
        && r.value == Resolve(methodsOf(subscriberClass)) && r.value != []
        && methodCache == old(methodCache)
      ensures subscriberClass !in old(methodCache) ==>
        && r == None
        && var found := Resolve(methodsOf(subscriberClass));
           methodCache == if found == [] then old(methodCache) else old(methodCache)[subscriberClass := found]
    {
      if subscriberClass !in methodCache {
        var found := FindByReflection(subscriberClass);
        if found != [] {
          methodCache := methodCache[subscriberClass := found];
        }
      } else {
        return Some(methodCache[subscriberClass]);
      }
      return None;
    }

    /**
     * subscribe: appends the binding (subscriber, subscriberMethod) to the
     * list of its event type, creating that list first if needed, and
     * appends the event type to the subscriber's list, creating it if needed.
     */
    method Subscribe(subscriber: Obj, subscriberMethod: SubscriberMethod)
      modifies this`subscriptionsByEventType, this`typesBySubscriber
      ensures subscriptionsByEventType == AddBinding(old(subscriptionsByEventType), subscriber, subscriberMethod)
      ensures typesBySubscriber == AddType(old(typesBySubscriber), subscriber, subscriberMethod.eventType)
    {
      var eventType := subscriberMethod.eventType;
      var subscriptions: seq<Subscription>;
      if eventType !in subscriptionsByEventType {
        subscriptions := [];
        subscriptionsByEventType := subscriptionsByEventType[eventType := subscriptions];
      } else {
        subscriptions := subscriptionsByEventType[eventType];
      }
      var subscription := Subscription(subscriber, subscriberMethod);
      subscriptionsByEventType := subscriptionsByEventType[eventType := subscriptions + [subscription]];

      var eventTypes: seq<ClassId>;
      if subscriber !in typesBySubscriber {
        eventTypes := [];
        typesBySubscriber := typesBySubscriber[subscriber := eventTypes];
      } else {
        eventTypes := typesBySubscriber[subscriber];
      }
      typesBySubscriber := typesBySubscriber[subscriber := eventTypes + [eventType]];
    }

    /**
     * The `for` loop of register: subscribe(subscriber, m) for each m of
     * `methods`, in order.
     */
    method SubscribeEach(subscriber: Obj, methods: seq<SubscriberMethod>)
      modifies this`subscriptionsByEventType, this`typesBySubscriber
      ensures subscriptionsByEventType == AddAllBindings(old(subscriptionsByEventType), subscriber, methods)
      ensures typesBySubscriber == AddAllTypes(old(typesBySubscriber), subscriber, methods)
    {
      var i := 0;
      while i < |methods|
        invariant 0 <= i <= |methods|
        invariant subscriptionsByEventType == AddAllBindings(old(subscriptionsByEventType), subscriber, methods[..i])
        invariant typesBySubscriber == AddAllTypes(old(typesBySubscriber), subscriber, methods[..i])
      {
        Subscribe(subscriber, methods[i]);
        assert methods[..i + 1][..i] == methods[..i];
        i := i + 1;
      }
      assert methods[..|methods|] == methods;
    }

    /**
     * register: subscribes the subscriber with every descriptor of its
     * class, in order, but only when the class was already cached; the
     * first registration of a class only fills the cache.
     */
    method Register(subscriber: Obj)
      requires Valid()
      modifies this
      ensures Valid()
      ensures subscriber.cls in old(methodCache) ==>
        && methodCache == old(methodCache)
        && subscriptionsByEventType == AddAllBindings(old(subscriptionsByEventType), subscriber, Resolve(methodsOf(subscriber.cls)))
        && typesBySubscriber == AddAllTypes(old(typesBySubscriber), subscriber, Resolve(methodsOf(subscriber.cls)))
      ensures subscriber.cls !in old(methodCache) ==>
        && subscriptionsByEventType == old(subscriptionsByEventType)
        && typesBySubscriber == old(typesBySubscriber)
        && var found := Resolve(methodsOf(subscriber.cls));
           methodCache == if found == [] then old(methodCache) else old(methodCache)[subscriber.cls := found]
    {
      var clazz := subscriber.cls;
      var subscriberMethods := FindSubscriberMethods(clazz);
      if subscriberMethods.Some? && subscriberMethods.value != [] {
        var methods := subscriberMethods.value;
        SubscribeEach(subscriber, methods);
        ResolveSound(methodsOf(clazz));
        AddAllKeepsRegistryValid(old(subscriptionsByEventType), old(typesBySubscriber), subscriber, methods);
      } else {
        assert clazz !in old(methodCache);
      }
    }

    /**
     * post: the actions taken for the bindings stored under the event's
     * exact class, in subscription order, as PostTrace gives them; neither
     * map changes.
     */
    method Post(event: Obj, isMainThread: bool, invoke: (Subscription, Obj) -> InvokeOutcome) returns (trace: seq<Action>)
      ensures trace == PostTrace(Lookup(subscriptionsByEventType, event.cls), event, isMainThread, invoke)
    {
      trace := [];
      var eventType := event.cls;
      if eventType in subscriptionsByEventType && |subscriptionsByEventType[eventType]| > 0 {
        var subscriptions := subscriptionsByEventType[eventType];
        var i := 0;
        while i < |subscriptions|
          invariant 0 <= i <= |subscriptions|
          invariant |trace| == i
          invariant forall k :: 0 <= k < i ==> trace[k] == PostSingleSubscription(subscriptions[k], event, isMainThread, invoke)
          invariant forall k :: 0 <= k < i ==> !Escapes(trace[k])
        {
          var action := PostSingleSubscription(subscriptions[i], event, isMainThread, invoke);
          trace := trace + [action];
          if Escapes(action) {
            PostTraceUnique(trace, subscriptions, event, isMainThread, invoke);
            return;
          }
          i := i + 1;
        }
        PostTraceUnique(trace, subscriptions, event, isMainThread, invoke);
      }
    }
  }
}
