/**
 * The service container: a registry of factories per service identifier and a
 * memo of the one instance built for each identifier.
 *
 * The Swift container keys both dictionaries by `ObjectIdentifier(T.self)`; here
 * that key is an explicit `ServiceId`. A built service is an object (its identity
 * is Swift's `===`) that records the service identifiers it conforms to, which is
 * what `as? T` inspects. A factory is described by the identifiers its product
 * conforms to; invoking it allocates a fresh service.
 *
 * The lock is not modelled: every operation runs sequentially. The window in which
 * `resolve` has released the lock while the factory runs is modelled by splitting
 * resolution into its two critical sections, `Lookup` and `Store`, which a caller
 * (or the lemma `RaceKeepsFirstStore`) may interleave with other operations.
 */
module Dependencies {
  import opened Common

  /** Stands for `ObjectIdentifier(T.self)` of a requested service type `T`. */
  type ServiceId = nat

  /** An instance produced by a factory. */
  class Service {
    /** The service identifiers `T` for which `self as? T` succeeds. */
    const conformsTo: set<ServiceId>

    constructor (types: set<ServiceId>)
      ensures conformsTo == types
    {
      conformsTo := types;
    }
  }

  /** A registered `(Dependency) -> Any` block; `block` tells apart blocks with the same product type. */
  datatype Factory = Factory(block: nat, produces: set<ServiceId>)

  /** One invocation of a factory, with the container it was handed. */
  datatype FactoryCall = FactoryCall(factory: Factory, container: Dependency)

  /** The two dictionaries of the container, as a value. */
  datatype State = State(registerMap: map<ServiceId, Factory>, resolveMap: map<ServiceId, Service>)

  /** What the first critical section of `resolve` decides. */
  datatype Decision =
    | Memoised(instance: Service)  // `resolveMap[key] as? T` succeeded
    | Unregistered                 // no factory: `resolve` returns nil
    | Build(factory: Factory)      // the factory must be invoked outside the lock

  /** `resolveMap[k] as? T`: the memoised instance for `k`, when it conforms to `k`. */
  function Memo(resolveMap: map<ServiceId, Service>, k: ServiceId): (r: Option<Service>)
    ensures r.Some? <==> k in resolveMap && k in resolveMap[k].conformsTo
    ensures r.Some? ==> r.value == resolveMap[k]
  {
    if k in resolveMap && k in resolveMap[k].conformsTo then Some(resolveMap[k]) else None
  }

  /** The memo fast path first, then the factory lookup. */
  function LookupOf(s: State, k: ServiceId): (d: Decision)
    ensures d.Memoised? <==> Memo(s.resolveMap, k).Some?
    ensures d.Memoised? ==> d.instance == s.resolveMap[k] && k in d.instance.conformsTo
    ensures d.Unregistered? <==> Memo(s.resolveMap, k).None? && k !in s.registerMap
    ensures d.Build? <==> Memo(s.resolveMap, k).None? && k in s.registerMap
    ensures d.Build? ==> d.factory == s.registerMap[k]
  {
    match Memo(s.resolveMap, k)
    case Some(x) => Memoised(x)
    case None => if k in s.registerMap then Build(s.registerMap[k]) else Unregistered
  }

  /**
   * The second critical section, entered with a product `made` that passed `as? T`:
   * an instance that conforms and was stored meanwhile wins; otherwise `made` is stored.
   */
  function StoreStep(s: State, k: ServiceId, made: Service): (out: (Option<Service>, State))
    requires k in made.conformsTo
    ensures out.0.Some? && k in out.1.resolveMap && out.0.value == out.1.resolveMap[k]
    ensures out.1.registerMap == s.registerMap
    ensures forall j :: j != k ==> Memo(out.1.resolveMap, j) == Memo(s.resolveMap, j)
    ensures Memo(s.resolveMap, k).Some? ==> out == (Memo(s.resolveMap, k), s)
    ensures Memo(s.resolveMap, k).None? ==> out.0 == Some(made)
  {
    match Memo(s.resolveMap, k)
    case Some(existing) => (Some(existing), s)
    case None => (Some(made), s.(resolveMap := s.resolveMap[k := made]))
  }

  /**
   * The whole of `resolve(k)` run without interruption. `made` is what the factory
   * returned, and is given exactly when the factory was invoked.
   */
  function ResolveStep(s: State, k: ServiceId, made: Option<Service>): (out: (Option<Service>, State))
    requires LookupOf(s, k).Build? <==> made.Some?
    ensures out.1.registerMap == s.registerMap
    ensures out.0.Some? ==> k in out.0.value.conformsTo && k in out.1.resolveMap && out.1.resolveMap[k] == out.0.value
    ensures out.0.None? ==> out.1 == s
    ensures forall j :: j != k ==> Memo(out.1.resolveMap, j) == Memo(s.resolveMap, j)
    ensures Memo(s.resolveMap, k).Some? ==> out == (Memo(s.resolveMap, k), s)
  {
    match LookupOf(s, k)
    case Memoised(x) => (Some(x), s)
    case Unregistered => (None, s)
    case Build(f) =>
      if k in made.value.conformsTo then StoreStep(s, k, made.value) else (None, s)
  }

  /** The memo fast path returns the stored instance and changes nothing. */
  lemma ResolveMemoised(s: State, k: ServiceId, x: Service)
    requires Memo(s.resolveMap, k) == Some(x)
    ensures ResolveStep(s, k, None) == (Some(x), s)
  {
  }

  /** Without a memoised instance and without a factory, `resolve` yields nil and changes nothing. */
  lemma ResolveUnregistered(s: State, k: ServiceId)
    requires Memo(s.resolveMap, k).None? && k !in s.registerMap
    ensures ResolveStep(s, k, None) == (None, s)
  {
  }

  /** A product that is not a `T` yields nil and stores nothing. */
  lemma ResolveMismatch(s: State, k: ServiceId, made: Service)
    requires LookupOf(s, k).Build? && k !in made.conformsTo
    ensures ResolveStep(s, k, Some(made)) == (None, s)
  {
  }

  /**
   * A first successful resolution memoises its product: the second resolution
   * takes the fast path (no factory) and returns the identical instance.
   */
  lemma ResolveTwiceSameInstance(s: State, k: ServiceId, made: Service)
    requires LookupOf(s, k).Build? && k in made.conformsTo
    ensures var (r1, s1) := ResolveStep(s, k, Some(made));
      r1 == Some(made) && Memo(s1.resolveMap, k) == Some(made) &&
      LookupOf(s1, k) == Memoised(made) &&
      ResolveStep(s1, k, None) == (r1, s1)
  {
  }

  /**
   * Two resolutions of `k` that both found no instance and both invoked the factory
   * (the lock is released meanwhile): whichever stores first wins, the other product
   * is dropped, and both callers receive the first one.
   */
  lemma RaceKeepsFirstStore(s: State, k: ServiceId, first: Service, second: Service)
    requires LookupOf(s, k).Build?
    requires k in first.conformsTo && k in second.conformsTo
    ensures var (r1, s1) := StoreStep(s, k, first);
      var (r2, s2) := StoreStep(s1, k, second);
      r1 == Some(first) && r2 == Some(first) && s2 == s1 && s1.resolveMap[k] == first
  {
  }

  /** The operations a client performs on a container. */
  datatype Op =
    | RegisterOp(id: ServiceId, factory: Factory)
    /** `made` is what the factory would return, should it be invoked. */
    | ResolveOp(id: ServiceId, made: Service)

  /** What an operation returns: nothing for `register`; the result, and whether a factory ran, for `resolve`. */
  datatype Outcome = Registered | Resolved(result: Option<Service>, invokedFactory: bool)

  /** One operation: `register` overwrites one factory, `resolve` runs `ResolveStep`. */
  function Apply(s: State, op: Op): (out: (State, Outcome))
    ensures out.0.registerMap == if op.RegisterOp? then s.registerMap[op.id := op.factory] else s.registerMap
    ensures out.1.Registered? <==> op.RegisterOp?
    ensures op.RegisterOp? ==> out.0.resolveMap == s.resolveMap
    ensures op.ResolveOp? ==> (out.1.invokedFactory <==> LookupOf(s, op.id).Build?)
    ensures out.1.Resolved? && out.1.result.Some? ==>
              op.id in out.0.resolveMap && out.1.result.value == out.0.resolveMap[op.id]
    ensures forall j :: Memo(s.resolveMap, j).Some? ==> Memo(out.0.resolveMap, j) == Memo(s.resolveMap, j)
  {
    match op
    case RegisterOp(k, f) => (s.(registerMap := s.registerMap[k := f]), Registered)
    case ResolveOp(k, m) =>
      var build := LookupOf(s, k).Build?;
      var (r, s') := ResolveStep(s, k, if build then Some(m) else None);
      (s', Resolved(r, build))
  }

  /** Runs a sequence of operations; one outcome per operation. */
  function Run(s: State, ops: seq<Op>): (out: (State, seq<Outcome>))
    ensures |out.1| == |ops|
    ensures forall i :: 0 <= i < |ops| ==> (out.1[i].Registered? <==> ops[i].RegisterOp?)
    ensures forall j :: Memo(s.resolveMap, j).Some? ==> Memo(out.0.resolveMap, j) == Memo(s.resolveMap, j)
    decreases |ops|
  {
    if ops == [] then (s, [])
    else
      var (s1, o) := Apply(s, ops[0]);
      var (s2, os) := Run(s1, ops[1..]);
      (s2, [o] + os)
  }

  /** Running `op` and then `rest`. */
  lemma RunCons(s: State, op: Op, rest: seq<Op>)
    ensures Run(s, [op] + rest) ==
      (Run(Apply(s, op).0, rest).0, [Apply(s, op).1] + Run(Apply(s, op).0, rest).1)
  {
  }

  /**
   * Singleton per identifier: once an instance is memoised for `k`, every later
   * sequence of registrations and resolutions keeps it, and every `resolve(k)` in it
   * returns that identical instance without invoking a factory (re-registration included).
   */
  lemma {:induction false} SingletonPersists(s: State, k: ServiceId, x: Service, ops: seq<Op>)
    requires Memo(s.resolveMap, k) == Some(x)
    ensures Memo(Run(s, ops).0.resolveMap, k) == Some(x)
    ensures forall i :: 0 <= i < |ops| && ops[i].ResolveOp? && ops[i].id == k ==>
              Run(s, ops).1[i] == Resolved(Some(x), false)
    decreases |ops|
  {
    if ops != [] {
      var (s1, o) := Apply(s, ops[0]);
      match ops[0] {
        case RegisterOp(j, f) =>
          assert s1.resolveMap == s.resolveMap;
        case ResolveOp(j, m) =>
          if j == k {
            assert o == Resolved(Some(x), false) && s1 == s;
          } else if LookupOf(s, j).Build? && j in m.conformsTo {
            assert Memo(s1.resolveMap, k) == Memo(s.resolveMap, k);
          }
      }
      SingletonPersists(s1, k, x, ops[1..]);
      var (s2, os) := Run(s1, ops[1..]);
      assert Run(s, ops).1 == [o] + os;
      forall i | 0 <= i < |ops| && ops[i].ResolveOp? && ops[i].id == k
        ensures Run(s, ops).1[i] == Resolved(Some(x), false)
      {
        if i > 0 {
          assert ops[1..][i - 1] == ops[i];
        }
      }
    }
  }

  /** Registering under one identifier never changes what is memoised or what another identifier resolves to. */
  lemma RegisterIsLocal(s: State, k: ServiceId, f: Factory, j: ServiceId)
    requires j != k
    ensures var (s1, o) := Apply(s, RegisterOp(k, f));
      o == Registered && s1.resolveMap == s.resolveMap && LookupOf(s1, j) == LookupOf(s, j)
  {
  }

  /**
   * Overwrite semantics: of two registrations for `k` before its first resolution,
   * the later factory is the one invoked, and its product is the instance kept.
   */
  lemma LastRegistrationBuilds(s: State, k: ServiceId, f1: Factory, f2: Factory, made: Service)
    requires Memo(s.resolveMap, k).None?
    requires k in made.conformsTo
    ensures var (s3, os) := Run(s, [RegisterOp(k, f1), RegisterOp(k, f2), ResolveOp(k, made)]);
      LookupOf(State(s.registerMap[k := f2], s.resolveMap), k) == Build(f2) &&
      os[2] == Resolved(Some(made), true) && k in s3.resolveMap && s3.resolveMap[k] == made
  {
    var s1 := s.(registerMap := s.registerMap[k := f1]);
    var s2 := s1.(registerMap := s1.registerMap[k := f2]);
    var s3 := s2.(resolveMap := s2.resolveMap[k := made]);
    assert s2.registerMap == s.registerMap[k := f2];
    assert LookupOf(s2, k) == Build(f2);
    assert Apply(s2, ResolveOp(k, made)) == (s3, Resolved(Some(made), true));
    RunCons(s2, ResolveOp(k, made), []);
    RunCons(s1, RegisterOp(k, f2), [ResolveOp(k, made)]);
    RunCons(s, RegisterOp(k, f1), [RegisterOp(k, f2), ResolveOp(k, made)]);
  }

  /** Keys are independent: registering `a` alone leaves `b` unresolvable. */
  lemma OtherKeyUnresolved(a: ServiceId, b: ServiceId, f: Factory, made: Service)
    requires a != b
    ensures var (s, os) := Run(State(map[], map[]), [RegisterOp(a, f), ResolveOp(b, made)]);
      os[1] == Resolved(None, false) && s.resolveMap == map[]
  {
    var s1 := State(map[a := f], map[]);
    assert LookupOf(s1, b) == Unregistered;
    RunCons(s1, ResolveOp(b, made), []);
    RunCons(State(map[], map[]), RegisterOp(a, f), [ResolveOp(b, made)]);
  }

  /** The container: `Dependency` in the Swift sources. */
  class Dependency {
    var registerMap: map<ServiceId, Factory>
    var resolveMap: map<ServiceId, Service>
    /** Every factory invocation so far, in order. */
    ghost var calls: seq<FactoryCall>

    function St(): State
      reads this
    {
      State(registerMap, resolveMap)
    }

    /** The initialiser that takes both dictionaries (empty in the shared container). */
    constructor (registerMap: map<ServiceId, Factory>, resolveMap: map<ServiceId, Service>)
      ensures this.registerMap == registerMap && this.resolveMap == resolveMap
      ensures calls == []
    {
      this.registerMap := registerMap;
      this.resolveMap := resolveMap;
      calls := [];
    }

    /**
     * `register(T.self) { … }`: the block's static type guarantees its product is a `T`.
     * Only the factory table changes; no factory runs.
     */
    method Register(k: ServiceId, f: Factory)
      requires k in f.produces
      modifies this`registerMap
      ensures St() == Apply(old(St()), RegisterOp(k, f)).0
      ensures registerMap == old(registerMap)[k := f]
      ensures resolveMap == old(resolveMap) && calls == old(calls)
    {
      registerMap := registerMap[k := f];
    }

    /** The first critical section of `resolve`: memo fast path, then factory lookup. */
    method Lookup(k: ServiceId) returns (d: Decision)
      ensures d == LookupOf(St(), k)
    {
      if k in resolveMap && k in resolveMap[k].conformsTo {
        return Memoised(resolveMap[k]);
      }
      if k !in registerMap {
        return Unregistered;
      }
      return Build(registerMap[k]);
    }

    /** `factory(self)`: the block is handed this container and returns a new instance. */
    method Invoke(f: Factory) returns (made: Service)
      modifies this`calls
      ensures fresh(made) && made.conformsTo == f.produces
      ensures calls == old(calls) + [FactoryCall(f, this)]
    {
      made := new Service(f.produces);
      calls := calls + [FactoryCall(f, this)];
    }

    /** The second critical section: re-check the memo slot, then store. */
    method Store(k: ServiceId, made: Service) returns (r: Option<Service>)
      requires k in made.conformsTo
      modifies this`resolveMap
      ensures (r, St()) == StoreStep(old(St()), k, made)
    {
      if k in resolveMap && k in resolveMap[k].conformsTo {
        return Some(resolveMap[k]);
      }
      resolveMap := resolveMap[k := made];
      return Some(made);
    }

    /**
     * `resolve(T.self)`. The ghost `made` is the factory's product, present exactly
     * when the factory was invoked.
     */
    method Resolve(k: ServiceId) returns (r: Option<Service>, ghost made: Option<Service>)
      modifies this`resolveMap, this`calls
      ensures LookupOf(old(St()), k).Build? <==> made.Some?
      ensures (r, St()) == ResolveStep(old(St()), k, made)
      ensures made.None? ==> calls == old(calls)
      ensures made.Some? ==>
                fresh(made.value)
                && made.value.conformsTo == LookupOf(old(St()), k).factory.produces
                && calls == old(calls) + [FactoryCall(LookupOf(old(St()), k).factory, this)]
    {
      var d := Lookup(k);
      match d {
        case Memoised(x) =>
          r, made := Some(x), None;
        case Unregistered =>
          r, made := None, None;
        case Build(f) =>
          var newService := Invoke(f);
          made := Some(newService);
          if k !in newService.conformsTo {
            r := None;
          } else {
            r := Store(k, newService);
          }
      }
    }
  }

  /**
   * The factory is handed the container itself, runs on the first resolution only,
   * and the second resolution returns the identical instance.
   */
  method ResolveTwice(c: Dependency, k: ServiceId, f: Factory) returns (first: Option<Service>, second: Option<Service>)
    requires k in f.produces
    requires k !in c.resolveMap
    modifies c
    ensures first.Some? && first == second
    ensures c.calls == old(c.calls) + [FactoryCall(f, c)]
  {
    c.Register(k, f);
    ghost var made;
    first, made := c.Resolve(k);
    second, made := c.Resolve(k);
  }
}
