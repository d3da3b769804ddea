/**
 * `PhysicsProvider` (`src/jolt/PhysicsProvider.tsx`): loads the engine once
 * per process, builds one physics interface per mount, steps it every frame
 * with a clamped time step, and tears it down in a fixed order.
 *
 * React's part is modelled by the order in which the methods are called:
 * the constructor is the first render, `Mount` the effect (up to its first
 * `await`), `Resolve` the continuation after the engine promise settles,
 * `Unmount` the effect's cleanup, `Frame` one `useFrame` callback and
 * `Render` what the component renders.
 */
module Provider {
  import opened Ledger
  import opened Values
  import opened Jolt
  import opened Utils

  // ---------------------------------------------------------------------------
  // The frame step.

  /** The longest frame the simulation advances by ("prevent spiral of death"). */
  const MAX_DELTA: real := 1.0 / 30.0
  /** Above this frame length the step is split into two collision steps. */
  const SUBSTEP_THRESHOLD: real := 1.0 / 55.0

  /** `Math.min(delta, 1 / 30)`. */
  function ClampDelta(delta: real): (deltaTime: real)
    ensures deltaTime <= MAX_DELTA && deltaTime <= delta
    ensures deltaTime == delta || deltaTime == MAX_DELTA
  {
    if delta < MAX_DELTA then delta else MAX_DELTA
  }

  /** `deltaTime > 1 / 55 ? 2 : 1`. */
  function CollisionSteps(deltaTime: real): (n: int)
    ensures n == 1 || n == 2
  {
    if deltaTime > SUBSTEP_THRESHOLD then 2 else 1
  }

  /**
   * What one frame asks of the engine: never more than 1/30 s, split in two
   * exactly when longer than 1/55 s, so that no collision step covers more
   * than 1/55 s; a frame no longer than 1/30 s is passed on unchanged.
   */
  lemma FrameSchedule(delta: real)
    ensures ClampDelta(delta) <= MAX_DELTA
    ensures delta <= MAX_DELTA ==> ClampDelta(delta) == delta
    ensures CollisionSteps(ClampDelta(delta)) == 2 <==> ClampDelta(delta) > SUBSTEP_THRESHOLD
    ensures ClampDelta(delta) / CollisionSteps(ClampDelta(delta)) as real <= SUBSTEP_THRESHOLD
  {
  }

  // ---------------------------------------------------------------------------
  // The process-wide engine promise.

  /** The engine options the loader is called with. */
  const INITIAL_MEMORY: nat := 128 * 1024 * 1024

  /** The `loader` prop: absent means the bundled multithreaded build. */
  datatype Loader = DefaultInitJolt | CustomLoader(tag: nat)

  /**
   * The module-level `globalJoltPromise` and a record of the loader calls made.
   * The engine the promise settles to is allocated when the loader is called.
   */
  class Runtime {
    var globalJoltPromise: Engine?
    var loaderCalls: seq<Loader>

    /** The loader runs at most once per process, and exactly when the promise exists. */
    ghost predicate Valid()
      reads this
    {
      |loaderCalls| <= 1 && (globalJoltPromise == null <==> loaderCalls == [])
    }

    constructor ()
      ensures Valid() && globalJoltPromise == null && loaderCalls == []
    {
      globalJoltPromise, loaderCalls := null, [];
    }

    /**
     * The first lines of `init`: call `loader || defaultInitJolt` only when no
     * promise exists yet; every later provider, whatever its `loader`, awaits
     * the first one.
     */
    method Acquire(loader: Option<Loader>) returns (jolt: Engine)
      requires Valid()
      modifies this
      ensures Valid() && jolt == globalJoltPromise
      ensures old(globalJoltPromise) != null ==> jolt == old(globalJoltPromise) && loaderCalls == old(loaderCalls)
      ensures old(globalJoltPromise) == null ==>
        && fresh(jolt) && jolt.Valid() && jolt.log == [] && jolt.iface == null
        && jolt.allowMemoryGrowth && jolt.initialMemory == INITIAL_MEMORY
        && loaderCalls == [if loader.Some? then loader.value else DefaultInitJolt]
    {
      if globalJoltPromise == null {
        var initFn := if loader.Some? then loader.value else DefaultInitJolt;
        globalJoltPromise := new Engine(true, INITIAL_MEMORY);
        loaderCalls := [initFn];
      }
      jolt := globalJoltPromise;
    }
  }

  // ---------------------------------------------------------------------------
  // The provider.

  /** The settings the provider writes before building the interface. */
  const MAX_WORKER_THREADS := 3
  const MAX_BODIES := 4096
  const MAX_BODY_PAIRS := 4096
  const MAX_CONTACT_CONSTRAINTS := 4096
  const TEMP_ALLOCATOR_SIZE := 64 * 1024 * 1024

  /** What `PhysicsContext` hands to the children. */
  datatype Context = Context(jolt: Engine, physicsSystem: PhysicsSystem, bodyInterface: BodyInterface, debug: bool)

  /** The native objects one initialisation allocates, in allocation order. */
  datatype InitObjects = InitObjects(
    settings: object, objectFilter: object, bpInterface: object,
    bpLayerNonMoving: object, bpLayerMoving: object, objectVsBroadphaseFilter: object, iface: object)

  /**
   * The engine calls of one initialisation: settings, the collision tables,
   * the interface, and the settings released right after the interface is built.
   */
  function InitLog(o: InitObjects): seq<Event> {
    [New(o.settings), New(o.objectFilter), New(o.bpInterface), New(o.bpLayerNonMoving), New(o.bpLayerMoving),
     Delete(o.bpLayerNonMoving), Delete(o.bpLayerMoving), New(o.objectVsBroadphaseFilter),
     New(o.iface), Delete(o.settings)]
  }

  /**
   * The engine calls of the cleanup: the interface first, then the three
   * tables kept on it, in the reverse of their allocation order.
   */
  function TeardownLog(iface: object, data: Option<CleanupData>): seq<Event> {
    [Delete(iface)] +
    if data.Some? then [Delete(data.value.objectVsBroadphaseFilter), Delete(data.value.bpInterface), Delete(data.value.objectFilter)]
    else []
  }

  /**
   * After an initialisation and its teardown, each of the initialisation's
   * objects has been allocated once and released once: nothing it made is
   * left live, and nothing is released twice.
   */
  lemma InitThenTeardownBalanced(log0: seq<Event>, o: InitObjects, data: CleanupData, x: object)
    requires data.objectFilter == o.objectFilter && data.bpInterface == o.bpInterface
    requires data.objectVsBroadphaseFilter == o.objectVsBroadphaseFilter
    requires Sound(log0 + InitLog(o) + TeardownLog(o.iface, Some(data)))
    requires x in {o.settings, o.objectFilter, o.bpInterface, o.bpLayerNonMoving, o.bpLayerMoving,
                   o.objectVsBroadphaseFilter, o.iface}
    ensures var log := log0 + InitLog(o) + TeardownLog(o.iface, Some(data));
            Count(log, New(x)) == 1 && Count(log, Delete(x)) == 1 && x !in Replay(log).live && x in Replay(log).seen
  {
    var log := log0 + InitLog(o) + TeardownLog(o.iface, Some(data));
    assert New(x) in log && Delete(x) in log by {
      assert log[|log0| .. |log0| + 10] == InitLog(o);
      assert log[|log0| + 10 ..] == TeardownLog(o.iface, Some(data));
    }
    AllocatedAndReleased(log, x);
  }

  class PhysicsProvider {
    const runtime: Runtime
    const loader: Option<Loader>
    const debug: bool

    var ready: bool
    var joltRef: Engine?
    var physicsSystemRef: PhysicsSystem?
    var bodyInterfaceRef: BodyInterface?
    /** The effect's `isMounted` flag. */
    var isMounted: bool
    /** The engine whose promise the pending `init` continuation awaits, if one is pending. */
    var awaiting: Engine?

    /** Ready only once both refs are set, and then they come from one interface. */
    ghost predicate Valid()
      reads this
    {
      ready ==> joltRef != null && physicsSystemRef != null && bodyInterfaceRef != null
                && bodyInterfaceRef == physicsSystemRef.bodyInterface && bodyInterfaceRef.engine == joltRef
    }

    /** The first render: not ready, every ref empty. */
    constructor (runtime: Runtime, loader: Option<Loader>, debug: bool)
      ensures Valid() && this.runtime == runtime && this.loader == loader && this.debug == debug
      ensures !ready && joltRef == null && physicsSystemRef == null && bodyInterfaceRef == null
      ensures !isMounted && awaiting == null
    {
      this.runtime, this.loader, this.debug := runtime, loader, debug;
      ready, isMounted := false, false;
      joltRef, physicsSystemRef, bodyInterfaceRef, awaiting := null, null, null, null;
    }

    /** `if (!ready) return null`: the children see a context only when ready. */
    function Render(): (ctx: Option<Context>)
      requires Valid()
      reads this
      ensures ctx.Some? <==> ready
      ensures ctx.Some? ==> ctx.value.bodyInterface == ctx.value.physicsSystem.bodyInterface
                            && ctx.value.bodyInterface.engine == ctx.value.jolt && ctx.value.debug == debug
    {
      if ready then Some(Context(joltRef, physicsSystemRef, bodyInterfaceRef, debug)) else None
    }

    /** The effect: `isMounted = true`, then `init()` up to its `await`. */
    method Mount()
      requires runtime.Valid() && Valid()
      modifies this`isMounted, this`awaiting, runtime
      ensures runtime.Valid() && Valid() && isMounted && awaiting == runtime.globalJoltPromise
      ensures old(runtime.globalJoltPromise) != null ==>
        awaiting == old(runtime.globalJoltPromise) && runtime.loaderCalls == old(runtime.loaderCalls)
      ensures old(runtime.globalJoltPromise) == null ==>
        && fresh(awaiting) && awaiting.Valid() && awaiting.log == [] && awaiting.iface == null
        && runtime.loaderCalls == [if loader.Some? then loader.value else DefaultInitJolt]
    {
      isMounted := true;
      awaiting := runtime.Acquire(loader);
    }

    /**
     * The continuation of `init` once the promise has settled. After an
     * unmount it does nothing at all; otherwise it builds the interface and
     * publishes it, and only then becomes ready.
     */
    method Resolve() returns (ghost o: InitObjects)
      requires Valid() && awaiting != null && awaiting.Valid()
      modifies this, awaiting`log, awaiting`seen, awaiting`live, awaiting`bodies, awaiting`iface
      ensures Valid() && awaiting == null && old(awaiting).Valid()
      ensures !old(isMounted) ==>
        && unchanged(old(awaiting)) && ready == old(ready) && joltRef == old(joltRef)
        && physicsSystemRef == old(physicsSystemRef) && bodyInterfaceRef == old(bodyInterfaceRef)
      ensures old(isMounted) ==>
        var jolt := old(awaiting);
        && ready && joltRef == jolt && jolt.iface != null && jolt.iface == o.iface
        && fresh(jolt.iface) && jolt.iface.engine == jolt
        && jolt.log == old(jolt.log) + InitLog(o)
        && jolt.live == old(jolt.live) + {o.objectFilter, o.bpInterface, o.objectVsBroadphaseFilter, o.iface}
        && jolt.bodies == old(jolt.bodies)
        && physicsSystemRef == jolt.iface.physicsSystem && bodyInterfaceRef == jolt.iface.physicsSystem.bodyInterface
        && bodyInterfaceRef.Valid() && bodyInterfaceRef.Alive() && bodyInterfaceRef.poses == map[]
        && bodyInterfaceRef.maxBodies == MAX_BODIES
        && jolt.iface.cleanupUserData.Some?
        && jolt.iface.cleanupUserData.value.objectFilter == o.objectFilter
        && jolt.iface.cleanupUserData.value.bpInterface == o.bpInterface
        && jolt.iface.cleanupUserData.value.objectVsBroadphaseFilter == o.objectVsBroadphaseFilter
        && jolt.iface.cleanupUserData.value.objectFilter.enabled == ENABLED_PAIRS
        && jolt.iface.cleanupUserData.value.bpInterface.mapping == LAYER_MAPPING
    {
      var jolt := awaiting;
      awaiting := null;
      if !isMounted {
        o := InitObjects(jolt, jolt, jolt, jolt, jolt, jolt, jolt);
        return;
      }
      var joltInterface;
      joltInterface, o := BuildInterface(jolt);
      joltRef := jolt;
      joltInterface.cleanupUserData := Some(CleanupData(joltInterface.objectLayerPairFilter,
                                                        joltInterface.broadPhaseLayerInterface,
                                                        joltInterface.objectVsBroadPhaseLayerFilter));
      physicsSystemRef := joltInterface.physicsSystem;
      bodyInterfaceRef := physicsSystemRef.bodyInterface;
      jolt.iface := joltInterface;
      ready := true;
    }

    /** The cleanup: the interface on the module object, then the tables kept on it. */
    method Unmount()
      requires joltRef != null && joltRef.Valid()
      requires joltRef.iface != null ==> joltRef.iface in joltRef.live
      requires joltRef.iface != null && joltRef.iface.cleanupUserData.Some? ==>
        var data := joltRef.iface.cleanupUserData.value;
        data.objectVsBroadphaseFilter in joltRef.live && data.bpInterface in joltRef.live && data.objectFilter in joltRef.live
      modifies this`isMounted, joltRef`log, joltRef`seen, joltRef`live, joltRef`bodies
      ensures !isMounted && joltRef.Valid() && joltRef.bodies == old(joltRef.bodies)
      ensures joltRef.iface == null ==> unchanged(joltRef)
      ensures joltRef.iface != null ==>
        && joltRef.log == old(joltRef.log) + TeardownLog(joltRef.iface, joltRef.iface.cleanupUserData)
        && joltRef.iface !in joltRef.live
        && forall bi: BodyInterface :: bi.engine == joltRef ==> !bi.Alive()
    {
      isMounted := false;
      var jolt := joltRef;
      var iface := jolt.iface;
      if iface != null {
        jolt.Destroy(iface);
        if iface.cleanupUserData.Some? {
          var data := iface.cleanupUserData.value;
          jolt.Destroy(data.objectVsBroadphaseFilter);
          jolt.Destroy(data.bpInterface);
          jolt.Destroy(data.objectFilter);
        }
      }
    }

    /** The cleanup before anything was resolved: `joltRef` is still empty, so only the flag changes. */
    method UnmountEarly()
      requires joltRef == null
      modifies this`isMounted
      ensures !isMounted
    {
      isMounted := false;
    }

    /**
     * One `useFrame` callback: nothing unless the module object carries an
     * interface; otherwise exactly one `Step` with the clamped time step and
     * its collision-step count.
     */
    method Frame(delta: real, advance: (BodyID, Pose) -> Pose, deform: (BodyID, nat, Vec3) -> Vec3)
      requires joltRef != null && joltRef.iface != null ==>
        && joltRef.iface in joltRef.live && joltRef.iface.engine == joltRef
        && joltRef.iface.physicsSystem.bodyInterface.Valid() && joltRef.iface.physicsSystem.bodyInterface.engine == joltRef
      modifies if joltRef != null && joltRef.iface != null then {joltRef.iface.physicsSystem.bodyInterface} else {}
      modifies if joltRef != null then {joltRef} else {}
      ensures joltRef != null ==> joltRef.iface == old(joltRef.iface) && joltRef.nextBody == old(joltRef.nextBody)
      ensures joltRef != null && joltRef.iface == null ==> unchanged(joltRef)
      ensures joltRef != null && joltRef.iface != null ==>
        var bi := joltRef.iface.physicsSystem.bodyInterface;
        && joltRef.log == old(joltRef.log) + [Event.Step(joltRef.iface, ClampDelta(delta), CollisionSteps(ClampDelta(delta)))]
        && joltRef.Now() == old(joltRef.Now()) && bi.Valid()
        && bi.poses.Keys == old(bi.poses.Keys)
        && (forall id :: id in bi.poses ==> bi.poses[id] == advance(id, old(bi.poses[id])))
    {
      if joltRef == null || joltRef.iface == null {
        return;
      }
      var iface := joltRef.iface;
      var deltaTime := ClampDelta(delta);
      var numSteps := CollisionSteps(deltaTime);
      iface.Step(deltaTime, numSteps, advance, deform);
    }
  }

  /**
   * The body of `init` after the mount check: settings, collision tables,
   * the interface, and the settings released right after.
   */
  method BuildInterface(jolt: Engine) returns (joltInterface: JoltInterface, ghost o: InitObjects)
    requires jolt.Valid()
    modifies jolt`log, jolt`seen, jolt`live, jolt`bodies
    ensures jolt.Valid() && jolt.bodies == old(jolt.bodies) && jolt.iface == old(jolt.iface)
    ensures fresh(joltInterface) && joltInterface.engine == jolt && o.iface == joltInterface
    ensures fresh(joltInterface.physicsSystem) && fresh(joltInterface.physicsSystem.bodyInterface)
    ensures joltInterface.physicsSystem.bodyInterface.engine == jolt
    ensures joltInterface.physicsSystem.bodyInterface.poses == map[] && joltInterface.physicsSystem.bodyInterface.soft == map[]
    ensures joltInterface.physicsSystem.bodyInterface.maxBodies == MAX_BODIES
    ensures joltInterface.physicsSystem.maxBodyPairs == MAX_BODY_PAIRS
    ensures joltInterface.physicsSystem.maxContactConstraints == MAX_CONTACT_CONSTRAINTS
    ensures joltInterface.maxWorkerThreads == MAX_WORKER_THREADS && joltInterface.tempAllocatorSize == TEMP_ALLOCATOR_SIZE
    ensures joltInterface.objectLayerPairFilter == o.objectFilter && joltInterface.broadPhaseLayerInterface == o.bpInterface
    ensures joltInterface.objectVsBroadPhaseLayerFilter == o.objectVsBroadphaseFilter
    ensures joltInterface.objectLayerPairFilter.enabled == ENABLED_PAIRS
    ensures joltInterface.broadPhaseLayerInterface.mapping == LAYER_MAPPING
    ensures joltInterface.cleanupUserData == None
    ensures jolt.log == old(jolt.log) + InitLog(o)
    ensures jolt.live == old(jolt.live) + {o.objectFilter, o.bpInterface, o.objectVsBroadphaseFilter, o.iface}
  {
    ghost var log0, live0 := jolt.log, jolt.live;
    var settings := NewSettings(jolt);
    var objectFilter, bpInterface, objectVsBroadphaseFilter;
    ghost var l0, l1;
    objectFilter, bpInterface, objectVsBroadphaseFilter, l0, l1 := SetupCollisionFiltering(jolt);
    joltInterface := NewInterface(jolt, settings, objectFilter, bpInterface, objectVsBroadphaseFilter);
    o := InitObjects(settings, objectFilter, bpInterface, l0, l1, objectVsBroadphaseFilter, joltInterface);
    assert jolt.log == log0 + [New(settings)]
                            + [New(objectFilter), New(bpInterface), New(l0), New(l1), Delete(l0), Delete(l1), New(objectVsBroadphaseFilter)]
                            + [New(joltInterface), Delete(settings)];
  }

  /** `new jolt.JoltSettings()` with the provider's numeric settings written. */
  method NewSettings(jolt: Engine) returns (settings: JoltSettings)
    requires jolt.Valid()
    modifies jolt`log, jolt`seen, jolt`live, jolt`bodies
    ensures jolt.Valid() && jolt.bodies == old(jolt.bodies) && fresh(settings)
    ensures jolt.log == old(jolt.log) + [New(settings)] && jolt.live == old(jolt.live) + {settings}
    ensures settings.maxWorkerThreads == MAX_WORKER_THREADS && settings.maxBodies == MAX_BODIES
    ensures settings.maxBodyPairs == MAX_BODY_PAIRS && settings.maxContactConstraints == MAX_CONTACT_CONSTRAINTS
    ensures settings.tempAllocatorSize == TEMP_ALLOCATOR_SIZE
  {
    settings := new JoltSettings();
    jolt.Register(settings);
    settings.maxWorkerThreads := MAX_WORKER_THREADS;
    settings.maxBodies := MAX_BODIES;
    settings.maxBodyPairs := MAX_BODY_PAIRS;
    settings.maxContactConstraints := MAX_CONTACT_CONSTRAINTS;
    settings.tempAllocatorSize := TEMP_ALLOCATOR_SIZE;
  }

  /**
   * The filter tables written into the settings, then `new jolt.JoltInterface(settings)`
   * followed at once by `jolt.destroy(settings)`.
   */
  method NewInterface(jolt: Engine, settings: JoltSettings, objectFilter: ObjectLayerPairFilterTable,
                      bpInterface: BroadPhaseLayerInterfaceTable, objectVsBroadphaseFilter: ObjectVsBroadPhaseLayerFilterTable)
    returns (joltInterface: JoltInterface)
    requires jolt.Valid() && settings in jolt.live
    modifies settings, jolt`log, jolt`seen, jolt`live, jolt`bodies
    ensures jolt.Valid() && jolt.bodies == old(jolt.bodies)
    ensures fresh(joltInterface) && joltInterface.engine == jolt
    ensures fresh(joltInterface.physicsSystem) && fresh(joltInterface.physicsSystem.bodyInterface)
    ensures joltInterface.physicsSystem.bodyInterface.engine == jolt
    ensures joltInterface.physicsSystem.bodyInterface.poses == map[] && joltInterface.physicsSystem.bodyInterface.soft == map[]
    ensures joltInterface.physicsSystem.bodyInterface.maxBodies == if old(settings.maxBodies) < 0 then 0 else old(settings.maxBodies)
    ensures joltInterface.physicsSystem.maxBodyPairs == if old(settings.maxBodyPairs) < 0 then 0 else old(settings.maxBodyPairs)
    ensures joltInterface.physicsSystem.maxContactConstraints
         == if old(settings.maxContactConstraints) < 0 then 0 else old(settings.maxContactConstraints)
    ensures joltInterface.maxWorkerThreads == old(settings.maxWorkerThreads)
    ensures joltInterface.tempAllocatorSize == old(settings.tempAllocatorSize)
    ensures joltInterface.objectLayerPairFilter == objectFilter
    ensures joltInterface.broadPhaseLayerInterface == bpInterface
    ensures joltInterface.objectVsBroadPhaseLayerFilter == objectVsBroadphaseFilter
    ensures joltInterface.cleanupUserData == None
    ensures jolt.log == old(jolt.log) + [New(joltInterface), Delete(settings)]
    ensures jolt.live == old(jolt.live) + {joltInterface} - {settings}
  {
    joltInterface := ConstructInterface(jolt, settings, objectFilter, bpInterface, objectVsBroadphaseFilter);
    jolt.Register(joltInterface);
    jolt.Destroy(settings);
  }

  /** `settings.mObjectLayerPairFilter = ...` and the other two, then the interface built from the settings. */
  method ConstructInterface(jolt: Engine, settings: JoltSettings, objectFilter: ObjectLayerPairFilterTable,
                            bpInterface: BroadPhaseLayerInterfaceTable, objectVsBroadphaseFilter: ObjectVsBroadPhaseLayerFilterTable)
    returns (joltInterface: JoltInterface)
    requires jolt.Valid()
    modifies settings
    ensures fresh(joltInterface) && joltInterface.engine == jolt
    ensures fresh(joltInterface.physicsSystem) && fresh(joltInterface.physicsSystem.bodyInterface)
    ensures joltInterface.physicsSystem.bodyInterface.engine == jolt
    ensures joltInterface.physicsSystem.bodyInterface.poses == map[] && joltInterface.physicsSystem.bodyInterface.soft == map[]
    ensures joltInterface.physicsSystem.bodyInterface.maxBodies == if old(settings.maxBodies) < 0 then 0 else old(settings.maxBodies)
    ensures joltInterface.physicsSystem.maxBodyPairs == if old(settings.maxBodyPairs) < 0 then 0 else old(settings.maxBodyPairs)
    ensures joltInterface.physicsSystem.maxContactConstraints
         == if old(settings.maxContactConstraints) < 0 then 0 else old(settings.maxContactConstraints)
    ensures joltInterface.maxWorkerThreads == old(settings.maxWorkerThreads)
    ensures joltInterface.tempAllocatorSize == old(settings.tempAllocatorSize)
    ensures joltInterface.objectLayerPairFilter == objectFilter
    ensures joltInterface.broadPhaseLayerInterface == bpInterface
    ensures joltInterface.objectVsBroadPhaseLayerFilter == objectVsBroadphaseFilter
    ensures joltInterface.cleanupUserData == None
  {
    settings.objectLayerPairFilter := objectFilter;
    settings.broadPhaseLayerInterface := bpInterface;
    settings.objectVsBroadPhaseLayerFilter := objectVsBroadphaseFilter;
    joltInterface := new JoltInterface(jolt, settings);
  }

  /**
   * A provider unmounted before the engine promise settles creates nothing:
   * the continuation sees `isMounted == false` and returns, and the provider
   * never becomes ready.
   */
  method UnmountBeforeResolve(runtime: Runtime, loader: Option<Loader>) returns (provider: PhysicsProvider)
    requires runtime.Valid()
    requires runtime.globalJoltPromise != null ==> runtime.globalJoltPromise.Valid()
    modifies runtime, if runtime.globalJoltPromise != null then {runtime.globalJoltPromise} else {}
    ensures runtime.Valid() && runtime.globalJoltPromise != null
    ensures old(runtime.globalJoltPromise) != null ==> unchanged(old(runtime.globalJoltPromise))
    ensures old(runtime.globalJoltPromise) == null ==> runtime.globalJoltPromise.log == []
    ensures !provider.ready && provider.Render() == None && provider.joltRef == null
  {
    provider := new PhysicsProvider(runtime, loader, false);
    provider.Mount();
    provider.UnmountEarly();
    ghost var o := provider.Resolve();
  }
}
