/**
 * Runnable operations and their ordered composite, `RunnableSet`.
 *
 * A leaf runnable (a WebPA server, a health tracker, or any other operation) starts
 * itself through code outside this model: binding a socket, spawning goroutines.
 * What such a start does is given by a `World`: how many goroutines the leaf
 * registers with the wait group and whether it returns an error. The composite's own
 * logic, starting members in order and stopping at the first error, is modelled
 * exactly, first as the functions `Start`/`StartAll`, then as the methods `Run`/`RunSet`
 * that loop as the Go code does and are proved to agree with those functions.
 */
module Runnables {
  import opened Wrappers

  /** A Go `error` value; nil is `None` in an `Option<Error>`. */
  datatype Error = Error(message: string)

  /** A logger produced by the logger factory; its internals are outside the model. */
  datatype Logger = Logger(id: nat)

  /** One `health.Option` value; its meaning belongs to the health package. */
  datatype HealthOption = HealthOption(id: nat)

  /** What `health.New` was given: the object it returns is opaque beyond these. */
  datatype Tracker = Tracker(interval: int, logger: Logger, options: seq<HealthOption>)

  /** An `http.Handler`: one supplied by the caller, the global default mux, or a health tracker. */
  datatype Handler =
    | Supplied(id: nat)
    | DefaultServeMux
    | TrackerHandler(tracker: Tracker)

  /** A Runnable: the leaves the server package builds, any other operation, or a set. */
  datatype Runnable =
    | Server(name: string, address: string, logger: Logger,
             certificateFile: string, keyFile: string, handler: Option<Handler>)
    | Health(tracker: Tracker)
    | Operation(id: nat)
    | Set(members: seq<Runnable>)

  predicate IsLeaf(r: Runnable) {
    !r.Set?
  }

  /** What starting one leaf does: goroutines it adds to the wait group and its error. */
  datatype LeafEffect = LeafEffect(added: nat, err: Option<Error>)

  type World = Runnable -> LeafEffect

  /** The outcome of a start: its error, and the leaves whose Run was invoked, in order. */
  datatype Started = Started(err: Option<Error>, invoked: seq<Runnable>)

  /** Starting one runnable: a leaf answers from the world, a set starts its members. */
  function Start(r: Runnable, world: World): Started
    decreases r
  {
    match r
    case Set(members) => StartAll(members, world)
    case _ => Started(world(r).err, [r])
  }

  /** `RunnableSet.Run`: members in list order; the first error ends the start. */
  function StartAll(members: seq<Runnable>, world: World): Started
    decreases members
  {
    if members == [] then Started(None, [])
    else
      var first := Start(members[0], world);
      if first.err.Some? then first
      else
        var rest := StartAll(members[1..], world);
        Started(rest.err, first.invoked + rest.invoked)
  }

  /** The leaves each member invokes when started, one member after another. */
  function Invoked(members: seq<Runnable>, world: World): seq<Runnable>
    decreases |members|
  {
    if members == [] then [] else Start(members[0], world).invoked + Invoked(members[1..], world)
  }

  /** Goroutines registered by the given leaf starts. */
  function Added(leaves: seq<Runnable>, world: World): nat
    decreases |leaves|
  {
    if leaves == [] then 0 else world(leaves[0]).added + Added(leaves[1..], world)
  }

  /**
   * Index of the first member whose start fails, or `|members|` when none does
   * (`Builder.FirstFailedAnswer` is the same notion over logger answers).
   */
  function FirstFailure(members: seq<Runnable>, world: World): (k: nat)
    ensures k <= |members|
    ensures forall j :: 0 <= j < k ==> Start(members[j], world).err.None?
    ensures k < |members| ==> Start(members[k], world).err.Some?
    decreases |members|
  {
    if members == [] then 0
    else if Start(members[0], world).err.Some? then 0
    else 1 + FirstFailure(members[1..], world)
  }

  lemma {:induction false} AddedAppend(leaves: seq<Runnable>, more: seq<Runnable>, world: World)
    ensures Added(leaves + more, world) == Added(leaves, world) + Added(more, world)
    decreases |leaves|
  {
    if leaves == [] {
      assert leaves + more == more;
    } else {
      assert (leaves + more)[1..] == leaves[1..] + more;
      AddedAppend(leaves[1..], more, world);
    }
  }

  /**
   * A failing member after succeeding ones decides the composite's outcome: its error is
   * returned, the members before it stay started, and no later member starts.
   */
  lemma {:induction false} StartAllStopsAt(members: seq<Runnable>, i: nat, world: World)
    requires i < |members| && Start(members[i], world).err.Some?
    requires forall j :: 0 <= j < i ==> Start(members[j], world).err.None?
    ensures StartAll(members, world).err == Start(members[i], world).err
    ensures StartAll(members, world).invoked == Invoked(members[..i + 1], world)
    decreases i
  {
    if i == 0 {
      assert members[..1][1..] == [];
    } else {
      StartAllStopsAt(members[1..], i - 1, world);
      assert members[..i + 1][1..] == members[1..][..i];
    }
  }

  /** When every member starts, the composite succeeds having invoked every member's leaves. */
  lemma {:induction false} StartAllCompletes(members: seq<Runnable>, world: World)
    requires forall j :: 0 <= j < |members| ==> Start(members[j], world).err.None?
    ensures StartAll(members, world).err == None
    ensures StartAll(members, world).invoked == Invoked(members, world)
    decreases |members|
  {
    if members != [] {
      StartAllCompletes(members[1..], world);
    }
  }

  /**
   * The composite's outcome in closed form: the error is that of the first failing
   * member, none when all succeed.
   */
  lemma StartAllFirstFailure(members: seq<Runnable>, world: World)
    ensures var k := FirstFailure(members, world);
      StartAll(members, world).err == if k < |members| then Start(members[k], world).err else None
  {
    var k := FirstFailure(members, world);
    if k < |members| {
      StartAllStopsAt(members, k, world);
    } else {
      StartAllCompletes(members, world);
    }
  }

  /** The composite fails exactly when one of its members fails. */
  lemma StartAllFails(members: seq<Runnable>, world: World)
    ensures StartAll(members, world).err.Some? <==>
      exists k :: 0 <= k < |members| && Start(members[k], world).err.Some?
  {
    StartAllFirstFailure(members, world);
  }

  /** An empty set starts nothing and succeeds. */
  lemma EmptySetStartsNothing(world: World)
    ensures StartAll([], world).err == None && StartAll([], world).invoked == []
  {
  }

  /**
   * In a set of leaves (no nested sets) that fails at member `i`, exactly the members
   * up to `i` are invoked, each once, in list order.
   */
  lemma LeafSetStopsAt(members: seq<Runnable>, i: nat, world: World)
    requires forall j :: 0 <= j < |members| ==> IsLeaf(members[j])
    requires i < |members| && Start(members[i], world).err.Some?
    requires forall j :: 0 <= j < i ==> Start(members[j], world).err.None?
    ensures StartAll(members, world).invoked == members[..i + 1]
  {
    StartAllStopsAt(members, i, world);
    InvokedLeaves(members[..i + 1], world);
  }

  /** In a set of leaves that all start, every member is invoked exactly once, in list order. */
  lemma LeafSetCompletes(members: seq<Runnable>, world: World)
    requires forall j :: 0 <= j < |members| ==> IsLeaf(members[j])
    requires forall j :: 0 <= j < |members| ==> Start(members[j], world).err.None?
    ensures StartAll(members, world).invoked == members
  {
    StartAllCompletes(members, world);
    InvokedLeaves(members, world);
  }

  lemma {:induction false} InvokedLeaves(members: seq<Runnable>, world: World)
    requires forall i :: 0 <= i < |members| ==> IsLeaf(members[i])
    ensures Invoked(members, world) == members
    decreases |members|
  {
    if members != [] {
      InvokedLeaves(members[1..], world);
      assert [members[0]] + members[1..] == members;
    }
  }

  /**
   * A set nested inside a set starts as if its members stood in the outer list in its
   * place: the same error and the same leaves, in the same order.
   */
  lemma {:induction false} StartAllSplice(prefix: seq<Runnable>, inner: seq<Runnable>, suffix: seq<Runnable>, world: World)
    ensures StartAll(prefix + [Set(inner)] + suffix, world).err == StartAll(prefix + inner + suffix, world).err
    ensures StartAll(prefix + [Set(inner)] + suffix, world).invoked == StartAll(prefix + inner + suffix, world).invoked
    decreases |prefix|
  {
    if prefix == [] {
      assert prefix + [Set(inner)] + suffix == [Set(inner)] + suffix;
      assert prefix + inner + suffix == inner + suffix;
      StartNested(inner, suffix, world);
    } else {
      StartAllSplice(prefix[1..], inner, suffix, world);
      assert (prefix + [Set(inner)] + suffix)[1..] == prefix[1..] + [Set(inner)] + suffix;
      assert (prefix + [Set(inner)] + suffix)[0] == prefix[0];
      assert (prefix + inner + suffix)[1..] == prefix[1..] + inner + suffix;
      assert (prefix + inner + suffix)[0] == prefix[0];
    }
  }

  lemma {:induction false} StartNested(inner: seq<Runnable>, rest: seq<Runnable>, world: World)
    ensures StartAll([Set(inner)] + rest, world).err == StartAll(inner + rest, world).err
    ensures StartAll([Set(inner)] + rest, world).invoked == StartAll(inner + rest, world).invoked
    decreases |inner|
  {
    var nested := [Set(inner)] + rest;
    assert nested[0] == Set(inner) && nested[1..] == rest;
    if inner == [] {
      assert inner + rest == rest;
      assert Start(Set(inner), world).err == None && Start(Set(inner), world).invoked == [];
      assert [] + StartAll(rest, world).invoked == StartAll(rest, world).invoked;
    } else {
      var spliced := inner + rest;
      assert spliced[0] == inner[0] && spliced[1..] == inner[1..] + rest;
      var first := Start(inner[0], world);
      assert Start(Set(inner), world) == StartAll(inner, world);
      if first.err.Some? {
        assert StartAll(inner, world) == first;
        assert StartAll(spliced, world) == first;
      } else {
        StartNested(inner[1..], rest, world);
        var tail := [Set(inner[1..])] + rest;
        assert tail[0] == Set(inner[1..]) && tail[1..] == rest;
        var more := StartAll(inner[1..], world);
        var after := StartAll(rest, world);
        assert Start(Set(inner[1..]), world) == more;
        assert StartAll(inner, world).err == more.err;
        assert StartAll(inner, world).invoked == first.invoked + more.invoked;
        assert first.invoked + (more.invoked + after.invoked) == (first.invoked + more.invoked) + after.invoked;
      }
    }
  }

  /** The leaves among `leaves` whose own start succeeded, in order. */
  function Succeeded(leaves: seq<Runnable>, world: World): seq<Runnable>
    decreases |leaves|
  {
    if leaves == [] then []
    else (if world(leaves[0]).err.None? then [leaves[0]] else []) + Succeeded(leaves[1..], world)
  }

  lemma {:induction false} SucceededAppend(leaves: seq<Runnable>, more: seq<Runnable>, world: World)
    ensures Succeeded(leaves + more, world) == Succeeded(leaves, world) + Succeeded(more, world)
    decreases |leaves|
  {
    if leaves == [] {
      assert leaves + more == more;
    } else {
      var all := leaves + more;
      assert all[0] == leaves[0] && all[1..] == leaves[1..] + more;
      SucceededAppend(leaves[1..], more, world);
      var head := if world(leaves[0]).err.None? then [leaves[0]] else [];
      var tail, others := Succeeded(leaves[1..], world), Succeeded(more, world);
      assert Succeeded(all, world) == head + (tail + others);
      assert Succeeded(leaves, world) == head + tail;
      assert head + (tail + others) == (head + tail) + others;
    }
  }

  /**
   * Every leaf a start invokes succeeded, except, when the start fails, the last one
   * invoked, whose error is the start's error.
   */
  lemma {:induction false} StartOutcome(r: Runnable, world: World)
    ensures var started := Start(r, world);
      started.err.None? ==> Succeeded(started.invoked, world) == started.invoked
    ensures var started := Start(r, world);
      started.err.Some? ==>
        |started.invoked| >= 1 &&
        world(started.invoked[|started.invoked| - 1]).err == started.err &&
        Succeeded(started.invoked, world) == started.invoked[..|started.invoked| - 1]
    decreases r
  {
    match r
    case Set(members) =>
      StartAllOutcome(members, world);
    case _ =>
      assert [r][1..] == [];
  }

  /** `StartOutcome` for a set: only the last leaf invoked can have failed, and then the set did. */
  lemma {:induction false} StartAllOutcome(members: seq<Runnable>, world: World)
    ensures var started := StartAll(members, world);
      started.err.None? ==> Succeeded(started.invoked, world) == started.invoked
    ensures var started := StartAll(members, world);
      started.err.Some? ==>
        |started.invoked| >= 1 &&
        world(started.invoked[|started.invoked| - 1]).err == started.err &&
        Succeeded(started.invoked, world) == started.invoked[..|started.invoked| - 1]
    decreases members
  {
    if members != [] {
      var first := Start(members[0], world);
      StartOutcome(members[0], world);
      if first.err.None? {
        var rest := StartAll(members[1..], world);
        StartAllOutcome(members[1..], world);
        SucceededAppend(first.invoked, rest.invoked, world);
        var all := first.invoked + rest.invoked;
        if rest.err.Some? {
          assert all[|all| - 1] == rest.invoked[|rest.invoked| - 1];
          assert all[..|all| - 1] == first.invoked + rest.invoked[..|rest.invoked| - 1];
        }
      }
    }
  }

  /**
   * Under the `Runnable` convention that a `Run` that could not start spawns nothing,
   * the goroutines a start registers are those of the leaves that succeeded.
   */
  lemma {:induction false} AddedBySucceeded(leaves: seq<Runnable>, world: World)
    requires forall l :: world(l).err.Some? ==> world(l).added == 0
    ensures Added(leaves, world) == Added(Succeeded(leaves, world), world)
    decreases |leaves|
  {
    if leaves != [] {
      AddedBySucceeded(leaves[1..], world);
      var head := if world(leaves[0]).err.None? then [leaves[0]] else [];
      AddedAppend(head, Succeeded(leaves[1..], world), world);
      if head != [] {
        assert head[1..] == [];
      }
    }
  }

  /**
   * What `RunAll`'s wait group holds after an error: the leaves that succeeded, then the
   * failing one; under the `Runnable` convention its count is that of the leaves that
   * succeeded.
   */
  lemma WaitGroupHoldsSucceeded(members: seq<Runnable>, world: World)
    requires forall l :: world(l).err.Some? ==> world(l).added == 0
    ensures var started := StartAll(members, world);
      Added(started.invoked, world) == Added(Succeeded(started.invoked, world), world)
    ensures var started := StartAll(members, world);
      started.err.Some? ==>
        |started.invoked| >= 1 &&
        world(started.invoked[|started.invoked| - 1]).err == started.err &&
        Succeeded(started.invoked, world) == started.invoked[..|started.invoked| - 1]
  {
    var started := StartAll(members, world);
    StartAllOutcome(members, world);
    AddedBySucceeded(started.invoked, world);
  }

  /**
   * What is left of a set's start after some members started without error, having
   * invoked `done`: the outcome of the whole set is that of `rest`, after `done`.
   */
  ghost predicate StartedSoFar(members: seq<Runnable>, rest: seq<Runnable>, done: seq<Runnable>, world: World) {
    StartAll(members, world).err == StartAll(rest, world).err &&
    StartAll(members, world).invoked == done + StartAll(rest, world).invoked
  }

  /** One iteration of `RunSet`'s loop: the member's start either ends the set's start or extends what was invoked. */
  lemma RunSetStep(members: seq<Runnable>, rest: seq<Runnable>, done: seq<Runnable>, world: World)
    requires rest != [] && StartedSoFar(members, rest, done, world)
    ensures var first := Start(rest[0], world);
      first.err.Some? ==> StartAll(members, world).err == first.err &&
                          StartAll(members, world).invoked == done + first.invoked
    ensures var first := Start(rest[0], world);
      first.err.None? ==> StartedSoFar(members, rest[1..], done + first.invoked, world)
  {
    var first := Start(rest[0], world);
    var others := StartAll(rest[1..], world);
    assert done + (first.invoked + others.invoked) == (done + first.invoked) + others.invoked;
  }

  /** When no member is left, the set's start succeeded having invoked exactly `done`. */
  lemma RunSetEnd(members: seq<Runnable>, done: seq<Runnable>, world: World)
    requires StartedSoFar(members, [], done, world)
    ensures StartAll(members, world).err == None && StartAll(members, world).invoked == done
  {
    assert done + [] == done;
  }

  /** What the wait group holds after one more member: its log and counter grow by that member's leaves. */
  lemma WaitGroupStep(base: seq<Runnable>, done: seq<Runnable>, step: seq<Runnable>, world: World)
    ensures (base + done) + step == base + (done + step)
    ensures Added(done + step, world) == Added(done, world) + Added(step, world)
  {
    AddedAppend(done, step, world);
  }

  /**
   * A Go `*sync.WaitGroup`: the counter of registered goroutines. The ghost log records
   * every leaf whose Run received this wait group, in call order.
   */
  class WaitGroup {
    var counter: nat
    ghost var started: seq<Runnable>

    constructor ()
      ensures counter == 0 && started == []
    {
      counter := 0;
      started := [];
    }
  }

  /** A leaf's own `Run(waitGroup)`: it registers its goroutines and returns its error. */
  method RunLeaf(leaf: Runnable, waitGroup: WaitGroup, world: World) returns (err: Option<Error>)
    requires IsLeaf(leaf)
    modifies waitGroup
    ensures err == world(leaf).err
    ensures waitGroup.counter == old(waitGroup.counter) + world(leaf).added
    ensures waitGroup.started == old(waitGroup.started) + [leaf]
  {
    waitGroup.counter := waitGroup.counter + world(leaf).added;
    waitGroup.started := waitGroup.started + [leaf];
    err := world(leaf).err;
  }

  /** `Runnable.Run`: dispatches to the leaf's own Run or to the set's loop. */
  method Run(r: Runnable, waitGroup: WaitGroup, world: World) returns (err: Option<Error>)
    modifies waitGroup
    ensures err == Start(r, world).err
    ensures waitGroup.started == old(waitGroup.started) + Start(r, world).invoked
    ensures waitGroup.counter == old(waitGroup.counter) + Added(Start(r, world).invoked, world)
    decreases r
  {
    match r
    case Set(members) =>
      err := RunSet(members, waitGroup, world);
    case _ =>
      err := RunLeaf(r, waitGroup, world);
      assert [r][..0] == [];
  }

  /**
   * `RunnableSet.Run`: runs each member against the same wait group, in list order,
   * returning the first error; members already started are not undone.
   */
  method RunSet(members: seq<Runnable>, waitGroup: WaitGroup, world: World) returns (err: Option<Error>)
    modifies waitGroup
    ensures err == StartAll(members, world).err
    ensures waitGroup.started == old(waitGroup.started) + StartAll(members, world).invoked
    ensures waitGroup.counter == old(waitGroup.counter) + Added(StartAll(members, world).invoked, world)
    decreases members
  {
    var i := 0;
    ghost var done: seq<Runnable> := [];
    ghost var rest := members;
    while i < |members|
      invariant 0 <= i <= |members| && rest == members[i..]
      invariant StartedSoFar(members, rest, done, world)
      invariant waitGroup.started == old(waitGroup.started) + done
      invariant waitGroup.counter == old(waitGroup.counter) + Added(done, world)
    {
      RunSetStep(members, rest, done, world);
      WaitGroupStep(old(waitGroup.started), done, Start(members[i], world).invoked, world);
      err := Run(members[i], waitGroup, world);
      if err.Some? {
        return;
      }
      done := done + Start(members[i], world).invoked;
      rest := rest[1..];
      i := i + 1;
    }
    RunSetEnd(members, done, world);
    err := None;
  }

  /**
   * `RunnableSet.RunAll`: a fresh wait group, the set run against it, and both returned,
   * so that a caller can wait for the members that did start even after an error.
   */
  method RunAll(members: seq<Runnable>, world: World) returns (waitGroup: WaitGroup, err: Option<Error>)
    ensures fresh(waitGroup)
    ensures err == StartAll(members, world).err
    ensures waitGroup.started == StartAll(members, world).invoked
    ensures waitGroup.counter == Added(StartAll(members, world).invoked, world)
  {
    waitGroup := new WaitGroup();
    err := RunSet(members, waitGroup, world);
  }
}
