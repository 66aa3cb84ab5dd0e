/**
 The plugin's service container: factories built on first use and shared afterwards, with the
 services under construction kept on a stack to detect circular dependencies.

 A factory is what it asks the container for, in order, and whether it returns an object.
 */
module Container {
  import opened Common

  type Id = string

  datatype Factory = Factory(needs: seq<Id>, yieldsObject: bool)

  /** A constructed service, made of the services its factory was given. */
  datatype Service = Service(id: Id, serial: nat, parts: seq<Service>)

  datatype Failure = NotRegistered(id: Id) | Circular(cycle: seq<Id>) | NotAnObject(id: Id)

  type Factories = map<Id, Factory>
  type Instances = map<Id, Service>

  // ---------------------------------------------------------------- which services can be built

  /** Service `id` can be built, by a construction at most `n` deep. */
  ghost predicate Derives(f: Factories, made: Instances, id: Id, n: nat)
    decreases n
  {
    id in made ||
    (n > 0 && id in f && f[id].yieldsObject
     && forall k :: 0 <= k < |f[id].needs| ==> Derives(f, made, f[id].needs[k], n - 1))
  }

  ghost predicate Resolvable(f: Factories, made: Instances, id: Id) { exists n: nat :: Derives(f, made, id, n) }

  /** A factory not run yet asks for another service. */
  ghost predicate Needs(f: Factories, made: Instances, a: Id, b: Id) {
    a !in made && a in f && b in f[a].needs
  }

  /** Each service of the list is asked for by the one before it. */
  ghost predicate Chain(f: Factories, made: Instances, path: seq<Id>) {
    forall k :: 0 <= k < |path| - 1 ==> Needs(f, made, path[k], path[k + 1])
  }

  lemma {:induction false} DerivesMore(f: Factories, made: Instances, id: Id, n: nat, m: nat)
    requires Derives(f, made, id, n) && n <= m
    ensures Derives(f, made, id, m)
    decreases n
  {
    if id !in made {
      forall k | 0 <= k < |f[id].needs| ensures Derives(f, made, f[id].needs[k], m - 1) {
        DerivesMore(f, made, f[id].needs[k], n - 1, m - 1);
      }
    }
  }

  /** What can be built can be built together, at one depth. */
  lemma {:induction false} CommonDepth(f: Factories, made: Instances, ids: seq<Id>) returns (n: nat)
    requires forall k :: 0 <= k < |ids| ==> Resolvable(f, made, ids[k])
    ensures forall k :: 0 <= k < |ids| ==> Derives(f, made, ids[k], n)
  {
    n := 0;
    if ids != [] {
      var last := |ids| - 1;
      var m := CommonDepth(f, made, ids[..last]);
      assert forall k :: 0 <= k < last ==> ids[..last][k] == ids[k];
      var d: nat :| Derives(f, made, ids[last], d);
      n := m + d;
      forall k | 0 <= k < |ids| ensures Derives(f, made, ids[k], n) {
        DerivesMore(f, made, ids[k], if k < last then m else d, n);
      }
    }
  }

  /** A service not built yet can be built exactly when its factory works and all it needs can be built. */
  lemma ResolvableIf(f: Factories, made: Instances, id: Id)
    requires id !in made
    ensures Resolvable(f, made, id) <==>
      (id in f && f[id].yieldsObject && forall k :: 0 <= k < |f[id].needs| ==> Resolvable(f, made, f[id].needs[k]))
  {
    if id in f && f[id].yieldsObject && forall k :: 0 <= k < |f[id].needs| ==> Resolvable(f, made, f[id].needs[k]) {
      var n := CommonDepth(f, made, f[id].needs);
      assert Derives(f, made, id, n + 1);
    }
    if n: nat :| Derives(f, made, id, n) {
      forall k | 0 <= k < |f[id].needs| ensures Resolvable(f, made, f[id].needs[k]) {
        assert Derives(f, made, f[id].needs[k], n - 1);
      }
    }
  }

  /** Along a chain every service needs a shallower construction. */
  lemma {:induction false} DerivesAlong(f: Factories, made: Instances, path: seq<Id>, i: nat, j: nat, n: nat)
    requires Chain(f, made, path) && i <= j < |path| && Derives(f, made, path[i], n)
    ensures n >= j - i && Derives(f, made, path[j], n - (j - i))
    decreases j - i
  {
    if i < j {
      assert Needs(f, made, path[i], path[i + 1]);
      var k :| 0 <= k < |f[path[i]].needs| && f[path[i]].needs[k] == path[i + 1];
      DerivesAlong(f, made, path, i + 1, j, n - 1);
    }
  }

  /** A service that needs itself, directly or not, cannot be built at any depth. */
  lemma {:induction false} CircularUnderivable(f: Factories, made: Instances, path: seq<Id>, i: nat, j: nat, n: nat)
    requires Chain(f, made, path) && i < j < |path| && path[i] == path[j]
    ensures !Derives(f, made, path[j], n)
  {
    if Derives(f, made, path[j], n) {
      DerivesAlong(f, made, path, i, j, n);
      CircularUnderivable(f, made, path, i, j, n - (j - i));
    }
  }

  /** Nor can anything that leads to something that cannot be built. */
  lemma ChainUnresolvable(f: Factories, made: Instances, path: seq<Id>, i: nat, j: nat)
    requires Chain(f, made, path) && i <= j < |path| && !Resolvable(f, made, path[j])
    ensures !Resolvable(f, made, path[i])
  {
    if n: nat :| Derives(f, made, path[i], n) {
      DerivesAlong(f, made, path, i, j, n);
    }
  }

  // ---------------------------------------------------------------- building some of them first

  ghost predicate Extends(was: Instances, now: Instances) {
    forall id :: id in was ==> id in now && now[id] == was[id]
  }

  /** `now` holds what `was` held, and beyond it only services that could be built from there. */
  ghost predicate BuiltFrom(f: Factories, was: Instances, now: Instances) {
    Extends(was, now) && forall id :: id in now ==> Resolvable(f, was, id)
  }

  lemma {:induction false} DerivesWithMore(f: Factories, was: Instances, now: Instances, id: Id, n: nat)
    requires Extends(was, now) && Derives(f, was, id, n)
    ensures Derives(f, now, id, n)
    decreases n
  {
    if id !in was {
      forall k | 0 <= k < |f[id].needs| ensures Derives(f, now, f[id].needs[k], n - 1) {
        DerivesWithMore(f, was, now, f[id].needs[k], n - 1);
      }
    }
  }

  lemma {:induction false} DerivesWithLess(f: Factories, was: Instances, now: Instances, id: Id, n: nat)
    requires BuiltFrom(f, was, now) && Derives(f, now, id, n)
    ensures Resolvable(f, was, id)
    decreases n
  {
    if id !in now {
      forall k | 0 <= k < |f[id].needs| ensures Resolvable(f, was, f[id].needs[k]) {
        DerivesWithLess(f, was, now, f[id].needs[k], n - 1);
      }
      ResolvableIf(f, was, id);
    }
  }

  /** Building some services first does not change which can be built. */
  lemma ResolvableAlike(f: Factories, was: Instances, now: Instances, id: Id)
    requires BuiltFrom(f, was, now)
    ensures Resolvable(f, was, id) <==> Resolvable(f, now, id)
  {
    if n: nat :| Derives(f, was, id, n) { DerivesWithMore(f, was, now, id, n); }
    if n: nat :| Derives(f, now, id, n) { DerivesWithLess(f, was, now, id, n); }
  }

  lemma BuiltInTurn(f: Factories, a: Instances, b: Instances, c: Instances)
    requires BuiltFrom(f, a, b) && BuiltFrom(f, b, c)
    ensures BuiltFrom(f, a, c)
  {
    forall id | id in c ensures Resolvable(f, a, id) {
      ResolvableAlike(f, a, b, id);
    }
  }

  /** A service under construction that is asked for again cannot be built. */
  lemma NoWayThrough(f: Factories, made: Instances, stack: seq<Id>, id: Id)
    requires Chain(f, made, stack + [id]) && id in stack
    ensures !Resolvable(f, made, id)
  {
    var cycle := stack + [id];
    var i :| 0 <= i < |stack| && stack[i] == id;
    forall n: nat ensures !Derives(f, made, id, n) {
      CircularUnderivable(f, made, cycle, i, |stack|, n);
    }
  }

  lemma BuiltOneMore(f: Factories, was: Instances, now: Instances, service: Service)
    requires BuiltFrom(f, was, now) && Resolvable(f, was, service.id) && service.id !in now
    ensures BuiltFrom(f, was, now[service.id := service])
  {
  }

  /** The stack is a chain of constructions that leads to `id`. */
  ghost predicate Underway(f: Factories, made: Instances, stack: seq<Id>, id: Id) {
    OnStack(f, made, stack) && Chain(f, made, stack + [id])
  }

  /** The registered services that are not under construction. */
  function Pending(f: Factories, stack: seq<Id>): set<Id> { f.Keys - set x | x in stack }

  ghost predicate OnStack(f: Factories, made: Instances, stack: seq<Id>) {
    forall x :: x in stack ==> x in f && x !in made
  }

  lemma StackUnmade(f: Factories, made: Instances, stack: seq<Id>)
    requires OnStack(f, made, stack)
    ensures forall x :: x in stack ==> x !in made
  {
  }

  lemma NothingBuilt(f: Factories, made: Instances)
    ensures BuiltFrom(f, made, made) && forall id :: id in made ==> Resolvable(f, made, id)
  {
    forall id | id in made ensures Resolvable(f, made, id) {
      assert Derives(f, made, id, 0);
    }
  }

  /** The stack still leads to what its top asks for after other services were built. */
  lemma LinkUnderway(f: Factories, was: Instances, now: Instances, stack: seq<Id>, need: Id)
    requires stack != [] && OnStack(f, was, stack) && Chain(f, was, stack)
    requires forall x :: x in stack ==> x !in now
    requires need in f[stack[|stack| - 1]].needs
    ensures Underway(f, now, stack, need)
  {
    forall k | 0 <= k < |stack| ensures Needs(f, now, (stack + [need])[k], (stack + [need])[k + 1]) {
      assert k < |stack| - 1 ==> Needs(f, was, stack[k], stack[k + 1]);
    }
  }

  // ---------------------------------------------------------------- the container

  function Popped(stack: seq<Id>): seq<Id> { if stack == [] then [] else stack[..|stack| - 1] }

  /** One instance per id, each made of the shared instances of what its factory asked for. */
  ghost predicate Shared(made: Instances, next: nat) {
    && (forall id :: id in made ==> made[id].id == id && made[id].serial < next)
    && (forall a, b :: a in made && b in made && made[a].serial == made[b].serial ==> a == b)
    && (forall id, p :: id in made && p in made[id].parts ==> p.id in made && made[p.id] == p)
  }

  /** A service is made of what its factory asks for, in that order. */
  ghost predicate FollowsFactory(f: Factories, service: Service) {
    && service.id in f && |service.parts| == |f[service.id].needs|
    && forall k :: 0 <= k < |service.parts| ==> service.parts[k].id == f[service.id].needs[k]
  }

  ghost predicate NewFollowFactories(f: Factories, was: Instances, now: Instances) {
    forall id :: id in now && id !in was ==> FollowsFactory(f, now[id])
  }

  /** Service `a` leads to service `b` through factories that have not been run to the end. */
  ghost predicate LeadsTo(f: Factories, made: Instances, a: Id, b: Id) {
    exists path :: |path| >= 1 && path[0] == a && path[|path| - 1] == b && Chain(f, made, path)
  }

  /** What an exception says is so, and the service asked for leads there. */
  ghost predicate Blames(f: Factories, made: Instances, id: Id, failure: Failure) {
    match failure
    case NotRegistered(x) => x !in f && x !in made && LeadsTo(f, made, id, x)
    case NotAnObject(x) => x in f && x !in made && !f[x].yieldsObject && LeadsTo(f, made, id, x)
    case Circular(c) =>
      |c| >= 2 && Chain(f, made, c) && c[|c| - 1] in c[..|c| - 1] && LeadsTo(f, made, id, c[|c| - 1])
  }

  lemma LeadsToItself(f: Factories, made: Instances, a: Id)
    ensures LeadsTo(f, made, a, a)
  {
    assert Chain(f, made, [a]);
  }

  /** What an exception blames is reason enough: no construction of the service could succeed. */
  lemma {:induction false} BlamedIsUnresolvable(f: Factories, made: Instances, id: Id, failure: Failure)
    requires Blames(f, made, id, failure)
    ensures !Resolvable(f, made, id)
  {
    var x := match failure case NotRegistered(x) => x case NotAnObject(x) => x case Circular(c) => c[|c| - 1];
    if failure.Circular? {
      var c := failure.cycle;
      assert c == c[..|c| - 1] + [x];
      NoWayThrough(f, made, c[..|c| - 1], x);
    } else {
      ResolvableIf(f, made, x);
    }
    var path :| |path| >= 1 && path[0] == id && path[|path| - 1] == x && Chain(f, made, path);
    ChainUnresolvable(f, made, path, 0, |path| - 1);
  }

  lemma LeadsFurther(f: Factories, made: Instances, a: Id, b: Id, failure: Failure)
    requires Needs(f, made, a, b) && Blames(f, made, b, failure)
    ensures Blames(f, made, a, failure)
  {
    var x := match failure case NotRegistered(x) => x case NotAnObject(x) => x case Circular(c) => c[|c| - 1];
    var path :| |path| >= 1 && path[0] == b && path[|path| - 1] == x && Chain(f, made, path);
    var longer := [a] + path;
    forall k | 0 <= k < |longer| - 1 ensures Needs(f, made, longer[k], longer[k + 1]) {
      assert k > 0 ==> Needs(f, made, path[k - 1], path[k]);
    }
    assert longer[|longer| - 1] == x;
  }

  /** The services a factory was given: the shared instances of the ids it asked for. */
  ghost predicate Made(made: Instances, ids: seq<Id>, parts: seq<Service>) {
    |parts| == |ids| && forall k :: 0 <= k < |ids| ==> ids[k] in made && made[ids[k]] == parts[k]
  }

  lemma MadeFurther(was: Instances, now: Instances, ids: seq<Id>, k: nat, parts: seq<Service>)
    requires k < |ids| && Extends(was, now) && Made(was, ids[..k], parts) && ids[k] in now
    ensures Made(now, ids[..k + 1], parts + [now[ids[k]]])
  {
    assert forall j :: 0 <= j < k ==> ids[..k][j] in was;
  }

  lemma ItselfFollows(f: Factories, made: Instances)
    ensures NewFollowFactories(f, made, made)
  {
  }

  lemma BlameItself(f: Factories, made: Instances, stack: seq<Id>, id: Id, failure: Failure)
    requires id !in made
    requires match failure
      case NotRegistered(x) => x == id && id !in f
      case NotAnObject(x) => x == id && id in f && !f[id].yieldsObject
      case Circular(c) => c == stack + [id] && id in stack && Chain(f, made, c)
    ensures Blames(f, made, id, failure)
  {
    LeadsToItself(f, made, id);
    assert (stack + [id])[..|stack|] == stack;
  }

  lemma OneMoreFollows(f: Factories, was: Instances, now: Instances, service: Service)
    requires NewFollowFactories(f, was, now) && BuiltFrom(f, was, now) && service.id in f
    requires Shared(now, service.serial) && Made(now, f[service.id].needs, service.parts)
    ensures NewFollowFactories(f, was, now[service.id := service])
  {
  }

  lemma MadeAreShared(made: Instances, next: nat, ids: seq<Id>, parts: seq<Service>)
    requires Shared(made, next) && Made(made, ids, parts)
    ensures forall p :: p in parts ==> p.id in made && made[p.id] == p
  {
  }

  lemma NothingAsked(f: Factories, made: Instances)
    ensures Made(made, [], []) && NewFollowFactories(f, made, made) && BuiltFrom(f, made, made)
  {
    NothingBuilt(f, made);
  }

  /** One more service obtained for a factory: everything so far still stands. */
  lemma AskedInTurn(f: Factories, was: Instances, before: Instances, now: Instances, ids: seq<Id>, k: nat,
    parts: seq<Service>)
    requires BuiltFrom(f, was, before) && BuiltFrom(f, before, now)
    requires NewFollowFactories(f, was, before) && NewFollowFactories(f, before, now)
    requires k < |ids| && Made(before, ids[..k], parts)
    ensures BuiltFrom(f, was, now) && NewFollowFactories(f, was, now)
    ensures Resolvable(f, was, ids[k]) <==> Resolvable(f, before, ids[k])
    ensures ids[k] in now ==> Made(now, ids[..k + 1], parts + [now[ids[k]]])
  {
    BuiltInTurn(f, was, before, now);
    ResolvableAlike(f, was, before, ids[k]);
    NewInTurn(f, was, before, now);
    if ids[k] in now { MadeFurther(before, now, ids, k, parts); }
  }

  lemma Asks(f: Factories, made: Instances, id: Id, k: nat)
    requires id in f && id !in made && k < |f[id].needs|
    ensures Needs(f, made, id, f[id].needs[k])
  {
  }

  lemma NewInTurn(f: Factories, a: Instances, b: Instances, c: Instances)
    requires Extends(b, c) && NewFollowFactories(f, a, b) && NewFollowFactories(f, b, c)
    ensures NewFollowFactories(f, a, c)
  {
  }

  lemma SharedGrows(made: Instances, next: nat, service: Service)
    requires Shared(made, next) && service.id !in made && service.serial == next
    requires forall p :: p in service.parts ==> p.id in made && made[p.id] == p
    ensures Shared(made[service.id := service], next + 1)
  {
  }

  class Container {
    var factories: map<Id, Factory>
    var instances: map<Id, Service>
    var resolving: seq<Id>
    /** How many services have been constructed. */
    var next: nat

    constructor ()
      ensures factories == map[] && instances == map[] && resolving == [] && next == 0
      ensures Shared(instances, next)
    {
      factories, instances, resolving, next := map[], map[], [], 0;
    }

    method Set(id: Id, factory: Factory)
      modifies this`factories
      ensures factories == old(factories)[id := factory]
    {
      factories := factories[id := factory];
    }

    method Has(id: Id) returns (found: bool)
      ensures found <==> id in factories || id in instances
    {
      found := id in factories || id in instances;
    }

    method Get(id: Id) returns (r: Result<Service, Failure>)
      requires Shared(instances, next) && Underway(factories, instances, resolving, id)
      modifies this`instances, this`resolving, this`next
      ensures Shared(instances, next) && next >= old(next)
      ensures BuiltFrom(factories, old(instances), instances)
      ensures forall x :: x in old(resolving) ==> x !in instances
      ensures r.Ok? <==> Resolvable(factories, old(instances), id)
      ensures r.Ok? ==> id in instances && r.value == instances[id]
      ensures r.Err? ==> Blames(factories, instances, id, r.error)
      ensures NewFollowFactories(factories, old(instances), instances)
      ensures resolving == if r.Err? && r.error.Circular? then [] else old(resolving)
      decreases Pending(factories, resolving), 0
    {
      hide Shared, BuiltFrom, Resolvable, Blames, NewFollowFactories, FollowsFactory;
      NothingBuilt(factories, instances);
      ItselfFollows(factories, instances);
      if id in instances {
        return Ok(instances[id]);
      }
      ResolvableIf(factories, instances, id);
      if id !in factories {
        BlameItself(factories, instances, resolving, id, NotRegistered(id));
        return Err(NotRegistered(id));
      }
      if id in resolving {
        var cycle := resolving + [id];
        NoWayThrough(factories, instances, resolving, id);
        BlameItself(factories, instances, resolving, id, Circular(cycle));
        resolving := [];
        return Err(Circular(cycle));
      }
      ghost var was, pending := instances, Pending(factories, resolving);
      resolving := resolving + [id];
      assert id in pending && id !in Pending(factories, resolving);
      assert id in resolving;
      var parts, failure := RunFactory(id);
      resolving := Popped(resolving);
      if failure.Some? {
        return Err(failure.value);
      }
      if !factories[id].yieldsObject {
        BlameItself(factories, instances, [], id, NotAnObject(id));
        return Err(NotAnObject(id));
      }
      var service := Service(id, next, parts);
      MadeAreShared(instances, next, factories[id].needs, parts);
      SharedGrows(instances, next, service);
      BuiltOneMore(factories, was, instances, service);
      OneMoreFollows(factories, was, instances, service);
      next := next + 1;
      instances := instances[id := service];
      return Ok(service);
    }

    /** The factory's own calls of `Get`, up to the first that throws. */
    method RunFactory(id: Id) returns (parts: seq<Service>, failure: Option<Failure>)
      requires Shared(instances, next) && id in factories && id !in instances
      requires resolving != [] && resolving[|resolving| - 1] == id
      requires OnStack(factories, instances, resolving) && Chain(factories, instances, resolving)
      modifies this`instances, this`resolving, this`next
      ensures Shared(instances, next) && next >= old(next)
      ensures BuiltFrom(factories, old(instances), instances)
      ensures forall x :: x in old(resolving) ==> x !in instances
      ensures failure.None? <==>
        forall k :: 0 <= k < |factories[id].needs| ==> Resolvable(factories, old(instances), factories[id].needs[k])
      ensures failure.None? ==> Made(instances, factories[id].needs, parts)
      ensures failure.Some? ==> Blames(factories, instances, id, failure.value)
      ensures NewFollowFactories(factories, old(instances), instances)
      ensures resolving == if failure.Some? && failure.value.Circular? then [] else old(resolving)
      decreases Pending(factories, resolving), 1
    {
      hide *;
      StackUnmade(factories, instances, resolving);
      parts, failure := [], None;
      var needs, k := factories[id].needs, 0;
      ghost var was, stack := instances, resolving;
      NothingAsked(factories, instances);
      assert needs[..0] == [];
      while k < |needs|
        invariant k <= |needs|
        invariant resolving == stack && Shared(instances, next) && next >= old(next)
        invariant BuiltFrom(factories, was, instances) && NewFollowFactories(factories, was, instances)
        invariant forall x :: x in stack ==> x !in instances
        invariant forall j :: 0 <= j < k ==> Resolvable(factories, was, needs[j])
        invariant Made(instances, needs[..k], parts)
      {
        ghost var before := instances;
        LinkUnderway(factories, was, instances, stack, needs[k]);
        var r := Get(needs[k]);
        AskedInTurn(factories, was, before, instances, needs, k, parts);
        if r.Err? {
          Asks(factories, instances, id, k);
          LeadsFurther(factories, instances, id, needs[k], r.error);
          return parts, Some(r.error);
        }
        parts := parts + [r.value];
        k := k + 1;
      }
      assert needs[..k] == needs;
    }
  }
}
