/**
 * The physics engine's API as the bridge uses it. The engine itself is opaque:
 * what the model keeps of it is the ledger of native objects and bodies
 * (`Engine`), the values the bridge writes into native objects and reads back,
 * and the demands the engine makes of its caller (an object is released only
 * while live, a body is destroyed only when not in the world, ...), written as
 * preconditions.
 *
 * `new jolt.X(...)` is modelled as `new X(...)` followed by `jolt.Register(x)`;
 * `jolt.destroy(x)` as `jolt.Destroy(x)`.
 */
module Jolt {
  import opened Ledger
  import opened Values

  /** The loaded engine module (`jolt`) and its ledger. */
  class Engine {
    /** Options the module was loaded with. */
    const allowMemoryGrowth: bool
    const initialMemory: nat

    var log: seq<Event>
    var seen: set<object>
    var live: set<object>
    var bodies: map<BodyID, BodyState>
    var nextBody: BodyID

    /** The `interface` property the provider attaches to the shared module object. */
    var iface: JoltInterface?

    ghost predicate Valid()
      reads this
    {
      && Sound(log)
      && Replay(log) == State(seen, live, bodies)
      && (forall id :: id in bodies ==> id < nextBody)
    }

    function Now(): State
      reads this
    {
      State(seen, live, bodies)
    }

    constructor (allowMemoryGrowth: bool, initialMemory: nat)
      ensures Valid()
      ensures this.allowMemoryGrowth == allowMemoryGrowth && this.initialMemory == initialMemory
      ensures log == [] && live == {} && bodies == map[] && iface == null
    {
      this.allowMemoryGrowth := allowMemoryGrowth;
      this.initialMemory := initialMemory;
      log, seen, live, bodies, nextBody := [], {}, {}, map[], 0;
      iface := null;
    }

    /** Records one engine call; the engine must admit it. */
    method Call(e: Event)
      requires Valid() && Admits(Now(), e)
      requires e.CreateBody? ==> e.id < nextBody
      modifies this`log, this`seen, this`live, this`bodies
      ensures Valid()
      ensures log == old(log) + [e] && Now() == Apply(old(Now()), e)
    {
      Extend(log, e);
      log := log + [e];
      match e
      case New(o) => seen, live := seen + {o}, live + {o};
      case Delete(o) => live := live - {o};
      case CreateBody(id) => bodies := bodies[id := Created];
      case AddBody(id, a) => bodies := bodies[id := Added(a)];
      case RemoveBody(id) => bodies := bodies[id := Removed];
      case DestroyBody(id) => bodies := bodies[id := Destroyed];
      case Step(_, _, _) =>
      case ReleaseLock(_) =>
    }

    /** `new jolt.X(...)`: a freshly allocated native object becomes live. */
    method Register(o: object)
      requires Valid() && o !in seen
      modifies this`log, this`seen, this`live, this`bodies
      ensures Valid() && bodies == old(bodies)
      ensures log == old(log) + [New(o)] && seen == old(seen) + {o} && live == old(live) + {o}
    {
      Call(New(o));
    }

    /** `jolt.destroy(o)`: only a live object may be released. */
    method Destroy(o: object)
      requires Valid() && o in live
      modifies this`log, this`seen, this`live, this`bodies
      ensures Valid()
      ensures seen == old(seen) && bodies == old(bodies)
      ensures log == old(log) + [Delete(o)] && live == old(live) - {o}
    {
      Call(Delete(o));
    }

    /** The engine picks an identifier no body has had. */
    method FreshBodyID() returns (id: BodyID)
      requires Valid()
      modifies this`nextBody
      ensures Valid() && id !in bodies && nextBody == id + 1 && id == old(nextBody)
    {
      id := nextBody;
      nextBody := nextBody + 1;
    }
  }

  // ---------------------------------------------------------------------------
  // Small native values.

  /** `jolt.RVec3` (also used for `jolt.Vec3`). */
  class RVec3 {
    var value: Vec3
    constructor (v: Vec3) ensures value == v { value := v; }
  }

  /** `jolt.Quat`. */
  class Quat {
    var value: Rotation
    constructor (q: Rotation) ensures value == q { value := q; }
  }

  // ---------------------------------------------------------------------------
  // Collision filtering tables.

  /** `ObjectLayerPairFilterTable`: the object-layer pairs for which collision was enabled. */
  class ObjectLayerPairFilterTable {
    const numObjectLayers: nat
    var enabled: set<(nat, nat)>

    constructor (numObjectLayers: nat)
      ensures this.numObjectLayers == numObjectLayers && enabled == {}
    {
      this.numObjectLayers := numObjectLayers;
      enabled := {};
    }

    method EnableCollision(layer1: nat, layer2: nat)
      requires layer1 < numObjectLayers && layer2 < numObjectLayers
      modifies this
      ensures enabled == old(enabled) + {(layer1, layer2)}
    {
      enabled := enabled + {(layer1, layer2)};
    }
  }

  /** `BroadPhaseLayer`: a broad-phase layer number wrapped as a native object. */
  class BroadPhaseLayer {
    const value: nat
    constructor (value: nat) ensures this.value == value { this.value := value; }
  }

  /** `BroadPhaseLayerInterfaceTable`: which broad-phase layer each object layer maps to. */
  class BroadPhaseLayerInterfaceTable {
    const numObjectLayers: nat
    const numBroadPhaseLayers: nat
    var mapping: map<nat, nat>

    constructor (numObjectLayers: nat, numBroadPhaseLayers: nat)
      ensures this.numObjectLayers == numObjectLayers && this.numBroadPhaseLayers == numBroadPhaseLayers
      ensures mapping == map[]
    {
      this.numObjectLayers := numObjectLayers;
      this.numBroadPhaseLayers := numBroadPhaseLayers;
      mapping := map[];
    }

    /** Records the layer's number; the table keeps no reference to the helper object. */
    method MapObjectToBroadPhaseLayer(objectLayer: nat, layer: BroadPhaseLayer)
      requires objectLayer < numObjectLayers && layer.value < numBroadPhaseLayers
      modifies this
      ensures mapping == old(mapping)[objectLayer := layer.value]
    {
      mapping := mapping[objectLayer := layer.value];
    }
  }

  /** `ObjectVsBroadPhaseLayerFilterTable`, built from the two tables above. */
  class ObjectVsBroadPhaseLayerFilterTable {
    const bpInterface: BroadPhaseLayerInterfaceTable
    const numBroadPhaseLayers: nat
    const objectFilter: ObjectLayerPairFilterTable
    const numObjectLayers: nat

    constructor (bpInterface: BroadPhaseLayerInterfaceTable, numBroadPhaseLayers: nat,
                 objectFilter: ObjectLayerPairFilterTable, numObjectLayers: nat)
      ensures this.bpInterface == bpInterface && this.numBroadPhaseLayers == numBroadPhaseLayers
      ensures this.objectFilter == objectFilter && this.numObjectLayers == numObjectLayers
    {
      this.bpInterface := bpInterface;
      this.numBroadPhaseLayers := numBroadPhaseLayers;
      this.objectFilter := objectFilter;
      this.numObjectLayers := numObjectLayers;
    }
  }

  // ---------------------------------------------------------------------------
  // Soft-body shared settings.

  /** `SoftBodySharedSettingsVertex`: a reusable vertex record; the engine's default inverse mass is 1. */
  class SoftBodySharedSettingsVertex {
    var position: Vec3
    var invMass: real
    constructor ()
      ensures position == Zero && invMass == 1.0
    {
      position, invMass := Zero, 1.0;
    }
    function Value(): Vertex reads this { Vertex(position, invMass) }
  }

  /** `SoftBodySharedSettingsFace`: a reusable face record. */
  class SoftBodySharedSettingsFace {
    var v0: U32
    var v1: U32
    var v2: U32
    var material: U32

    constructor (v0: int, v1: int, v2: int, material: int)
      ensures Value() == Face(ToUint32(v0), ToUint32(v1), ToUint32(v2), ToUint32(material))
    {
      this.v0, this.v1, this.v2 := ToUint32(v0), ToUint32(v1), ToUint32(v2);
      this.material := ToUint32(material);
    }

    function Value(): Face reads this { Face(v0, v1, v2, material) }

    /** `set_mVertex(k, x)`: only slot `k` changes. */
    method SetVertex(k: nat, x: int)
      requires k < 3
      modifies this
      ensures Value() == if k == 0 then old(Value()).(v0 := ToUint32(x))
                         else if k == 1 then old(Value()).(v1 := ToUint32(x))
                         else old(Value()).(v2 := ToUint32(x))
    {
      if k == 0 { v0 := ToUint32(x); } else if k == 1 { v1 := ToUint32(x); } else { v2 := ToUint32(x); }
    }
  }

  /** `SoftBodySharedSettingsVertexAttributes`: compliances handed to `CreateConstraints`. */
  class SoftBodySharedSettingsVertexAttributes {
    var compliance: real
    var shearCompliance: real
    var bendCompliance: real
    constructor ()
      ensures compliance == 0.0 && shearCompliance == 0.0 && bendCompliance == 0.0
    {
      compliance, shearCompliance, bendCompliance := 0.0, 0.0, 0.0;
    }
  }

  datatype Attributes = Attributes(compliance: real, shearCompliance: real, bendCompliance: real)

  datatype BendType = Dihedral

  /** The engine's own passes over shared settings; they are recorded, not executed. */
  datatype Pass =
    | CreateConstraints(attributes: seq<Attributes>, bendType: BendType)
    | CalculateEdgeLengths
    | CalculateVolumeConstraintVolumes
    | Optimize

  /** `SoftBodySharedSettings`: the vertex and face lists as pushed, and the passes run over them. */
  class SoftBodySharedSettings {
    var vertices: seq<Vertex>
    var faces: seq<Face>
    var passes: seq<Pass>

    constructor ()
      ensures vertices == [] && faces == [] && passes == []
    {
      vertices, faces, passes := [], [], [];
    }

    /** `mVertices.push_back(v)`: appends a copy. */
    method PushVertex(v: SoftBodySharedSettingsVertex)
      modifies this
      ensures vertices == old(vertices) + [v.Value()] && faces == old(faces) && passes == old(passes)
    {
      vertices := vertices + [v.Value()];
    }

    /** `AddFace(f)`: appends a copy. */
    method AddFace(f: SoftBodySharedSettingsFace)
      modifies this
      ensures faces == old(faces) + [f.Value()] && vertices == old(vertices) && passes == old(passes)
    {
      faces := faces + [f.Value()];
    }

    /** `CreateConstraints(attr, 1, bendType)`: one attribute record for all vertices. */
    method CreateConstraintsFrom(attr: SoftBodySharedSettingsVertexAttributes, bendType: BendType)
      modifies this
      ensures passes == old(passes) + [CreateConstraints([Attributes(attr.compliance, attr.shearCompliance, attr.bendCompliance)], bendType)]
      ensures vertices == old(vertices) && faces == old(faces)
    {
      passes := passes + [CreateConstraints([Attributes(attr.compliance, attr.shearCompliance, attr.bendCompliance)], bendType)];
    }

    method Run(p: Pass)
      requires !p.CreateConstraints?
      modifies this
      ensures passes == old(passes) + [p] && vertices == old(vertices) && faces == old(faces)
    {
      passes := passes + [p];
    }
  }

  // ---------------------------------------------------------------------------
  // Body creation settings.

  /** `BodyCreationSettings`: the shape and motion data are opaque; the pose is what the bridge writes. */
  class BodyCreationSettings {
    var position: Vec3
    var rotation: Rotation
    constructor (position: Vec3, rotation: Rotation)
      ensures this.position == position && this.rotation == rotation
    {
      this.position, this.rotation := position, rotation;
    }
  }

  /** `SoftBodyCreationSettings`, wrapping shared settings. */
  class SoftBodyCreationSettings {
    const shared: SoftBodySharedSettings
    var position: Vec3
    var rotation: Rotation
    constructor (shared: SoftBodySharedSettings, position: Vec3, rotation: Rotation)
      ensures this.shared == shared && this.position == position && this.rotation == rotation
    {
      this.shared, this.position, this.rotation := shared, position, rotation;
    }
  }

  // ---------------------------------------------------------------------------
  // The world: bodies, their poses and soft-body vertices.

  /** What `CreateBody` returns; only its identifier is used. */
  class Body {
    const id: BodyID
    constructor (id: BodyID) ensures this.id == id { this.id := id; }
  }

  /**
   * `BodyInterface` together with the body manager behind it: the current
   * pose of every body that exists, and the current vertex positions of every
   * soft body.
   */
  class BodyInterface {
    const engine: Engine
    const maxBodies: nat
    var poses: map<BodyID, Pose>
    var soft: map<BodyID, seq<Vec3>>

    /** Every body this interface has a pose for exists in the engine (created, not destroyed). */
    ghost predicate Valid()
      reads this, engine
    {
      && engine.Valid()
      && (forall id :: id in poses ==> id in engine.bodies && engine.bodies[id] != Destroyed)
      && soft.Keys <= poses.Keys
    }

    /**
     * The interface on the module object owns this body interface and has not
     * been destroyed: the engine accepts body calls only while the physics
     * system behind them exists.
     */
    ghost predicate Alive()
      reads this, engine
    {
      engine.iface != null && engine.iface.physicsSystem.bodyInterface == this && engine.iface in engine.live
    }

    constructor (engine: Engine, maxBodies: nat)
      requires engine.Valid()
      ensures Valid() && this.engine == engine && this.maxBodies == maxBodies
      ensures poses == map[] && soft == map[]
    {
      this.engine, this.maxBodies := engine, maxBodies;
      poses, soft := map[], map[];
    }

    function InWorld(id: BodyID): bool
      reads this, engine
    {
      id in engine.bodies && engine.bodies[id].Added?
    }

    function NotInWorld(id: BodyID): bool
      reads this, engine
    {
      id in engine.bodies && (engine.bodies[id] == Created || engine.bodies[id] == Removed)
    }

    /** `CreateBody`: none when the body manager is full, else a new body with the settings' pose. */
    method CreateBody(settings: BodyCreationSettings) returns (body: Body?)
      requires Valid() && Alive()
      modifies this, engine`log, engine`seen, engine`live, engine`bodies, engine`nextBody
      ensures Valid() && Alive()
      ensures old(|poses|) >= maxBodies ==> body == null && unchanged(this, engine)
      ensures old(|poses|) < maxBodies ==>
        && body != null && fresh(body) && body.id !in old(engine.bodies)
        && engine.log == old(engine.log) + [Event.CreateBody(body.id)]
        && engine.bodies == old(engine.bodies)[body.id := Created]
        && poses == old(poses)[body.id := Pose(settings.position, settings.rotation)]
        && soft == old(soft)
      ensures engine.live == old(engine.live) && engine.seen == old(engine.seen)
    {
      if |poses| >= maxBodies {
        return null;
      }
      var id := engine.FreshBodyID();
      engine.Call(Event.CreateBody(id));
      poses := poses[id := Pose(settings.position, settings.rotation)];
      body := new Body(id);
    }

    /** `CreateSoftBody`: like `CreateBody`; the vertices start at the shared settings' positions. */
    method CreateSoftBody(settings: SoftBodyCreationSettings) returns (body: Body?)
      requires Valid() && Alive()
      modifies this, engine`log, engine`seen, engine`live, engine`bodies, engine`nextBody
      ensures Valid() && Alive()
      ensures old(|poses|) >= maxBodies ==> body == null && unchanged(this, engine)
      ensures old(|poses|) < maxBodies ==>
        && body != null && fresh(body) && body.id !in old(engine.bodies)
        && engine.log == old(engine.log) + [Event.CreateBody(body.id)]
        && engine.bodies == old(engine.bodies)[body.id := Created]
        && poses == old(poses)[body.id := Pose(settings.position, settings.rotation)]
        && soft == old(soft)[body.id := Positions(settings.shared.vertices)]
      ensures engine.live == old(engine.live) && engine.seen == old(engine.seen)
    {
      if |poses| >= maxBodies {
        return null;
      }
      var id := engine.FreshBodyID();
      engine.Call(Event.CreateBody(id));
      poses := poses[id := Pose(settings.position, settings.rotation)];
      soft := soft[id := Positions(settings.shared.vertices)];
      body := new Body(id);
    }

    /** `AddBody`: only a body that is not in the world can be added. */
    method AddBody(id: BodyID, activation: Activation)
      requires Valid() && Alive() && NotInWorld(id)
      modifies engine`log, engine`seen, engine`live, engine`bodies
      ensures Valid() && Alive()
      ensures engine.log == old(engine.log) + [Event.AddBody(id, activation)]
      ensures engine.bodies == old(engine.bodies)[id := Added(activation)]
      ensures engine.live == old(engine.live) && engine.seen == old(engine.seen)
    {
      engine.Call(Event.AddBody(id, activation));
    }

    /** `RemoveBody`: only a body in the world can be removed. */
    method RemoveBody(id: BodyID)
      requires Valid() && Alive() && InWorld(id)
      modifies engine`log, engine`seen, engine`live, engine`bodies
      ensures Valid() && Alive()
      ensures engine.log == old(engine.log) + [Event.RemoveBody(id)]
      ensures engine.bodies == old(engine.bodies)[id := Removed]
      ensures engine.live == old(engine.live) && engine.seen == old(engine.seen)
    {
      engine.Call(Event.RemoveBody(id));
    }

    /** `DestroyBody`: only a body that is not in the world can be destroyed. */
    method DestroyBody(id: BodyID)
      requires Valid() && Alive() && NotInWorld(id)
      modifies this, engine`log, engine`seen, engine`live, engine`bodies
      ensures Valid() && Alive()
      ensures engine.log == old(engine.log) + [Event.DestroyBody(id)]
      ensures engine.bodies == old(engine.bodies)[id := Destroyed]
      ensures poses == old(poses) - {id} && soft == old(soft) - {id}
      ensures engine.live == old(engine.live) && engine.seen == old(engine.seen)
    {
      engine.Call(Event.DestroyBody(id));
      poses := poses - {id};
      soft := soft - {id};
    }

    /** `GetPositionAndRotation`: the body's pose, or zero and identity for a body that does not exist. */
    method GetPositionAndRotation(id: BodyID, pos: RVec3, rot: Quat)
      requires Alive()
      modifies pos, rot
      ensures id in poses ==> pos.value == poses[id].position && rot.value == poses[id].rotation
      ensures id !in poses ==> pos.value == Zero && rot.value == Identity
    {
      if id in poses {
        pos.value := poses[id].position;
        rot.value := poses[id].rotation;
      } else {
        pos.value := Zero;
        rot.value := Identity;
      }
    }
  }

  /** The physics system behind an interface; it owns the body interface. */
  class PhysicsSystem {
    const bodyInterface: BodyInterface
    const maxBodyPairs: nat
    const maxContactConstraints: nat
    constructor (bodyInterface: BodyInterface, maxBodyPairs: nat, maxContactConstraints: nat)
      ensures this.bodyInterface == bodyInterface
      ensures this.maxBodyPairs == maxBodyPairs && this.maxContactConstraints == maxContactConstraints
    {
      this.bodyInterface := bodyInterface;
      this.maxBodyPairs, this.maxContactConstraints := maxBodyPairs, maxContactConstraints;
    }
  }

  /** `JoltSettings`: the values the provider writes before building the interface. */
  class JoltSettings {
    var maxWorkerThreads: int
    var maxBodies: int
    var maxBodyPairs: int
    var maxContactConstraints: int
    var tempAllocatorSize: int
    var objectLayerPairFilter: ObjectLayerPairFilterTable?
    var broadPhaseLayerInterface: BroadPhaseLayerInterfaceTable?
    var objectVsBroadPhaseLayerFilter: ObjectVsBroadPhaseLayerFilterTable?

    /** The engine's defaults are not part of the model; the provider overwrites every field. */
    constructor ()
      ensures objectLayerPairFilter == null && broadPhaseLayerInterface == null && objectVsBroadPhaseLayerFilter == null
    {
      maxWorkerThreads, maxBodies, maxBodyPairs, maxContactConstraints, tempAllocatorSize := 0, 0, 0, 0, 0;
      objectLayerPairFilter, broadPhaseLayerInterface, objectVsBroadPhaseLayerFilter := null, null, null;
    }
  }

  /** The three filter tables the provider keeps on the interface for its cleanup. */
  datatype CleanupData = CleanupData(
    objectFilter: ObjectLayerPairFilterTable,
    bpInterface: BroadPhaseLayerInterfaceTable,
    objectVsBroadphaseFilter: ObjectVsBroadPhaseLayerFilterTable)

  /**
   * `JoltInterface`: copies the numeric settings into a new physics system and
   * keeps references to the three filter tables, which it does not own.
   */
  class JoltInterface {
    const engine: Engine
    const physicsSystem: PhysicsSystem
    const maxWorkerThreads: int
    const tempAllocatorSize: int
    const objectLayerPairFilter: ObjectLayerPairFilterTable
    const broadPhaseLayerInterface: BroadPhaseLayerInterfaceTable
    const objectVsBroadPhaseLayerFilter: ObjectVsBroadPhaseLayerFilterTable
    var cleanupUserData: Option<CleanupData>

    constructor (engine: Engine, settings: JoltSettings)
      requires engine.Valid()
      requires settings.objectLayerPairFilter != null && settings.broadPhaseLayerInterface != null
      requires settings.objectVsBroadPhaseLayerFilter != null
      ensures this.engine == engine && fresh(physicsSystem) && fresh(physicsSystem.bodyInterface)
      ensures physicsSystem.bodyInterface.Valid() && physicsSystem.bodyInterface.engine == engine
      ensures physicsSystem.bodyInterface.poses == map[] && physicsSystem.bodyInterface.soft == map[]
      ensures physicsSystem.bodyInterface.maxBodies == if settings.maxBodies < 0 then 0 else settings.maxBodies
      ensures physicsSystem.maxBodyPairs == if settings.maxBodyPairs < 0 then 0 else settings.maxBodyPairs
      ensures physicsSystem.maxContactConstraints == if settings.maxContactConstraints < 0 then 0 else settings.maxContactConstraints
      ensures maxWorkerThreads == settings.maxWorkerThreads && tempAllocatorSize == settings.tempAllocatorSize
      ensures objectLayerPairFilter == settings.objectLayerPairFilter
      ensures broadPhaseLayerInterface == settings.broadPhaseLayerInterface
      ensures objectVsBroadPhaseLayerFilter == settings.objectVsBroadPhaseLayerFilter
      ensures cleanupUserData == None
    {
      this.engine := engine;
      var bodyInterface := new BodyInterface(engine, if settings.maxBodies < 0 then 0 else settings.maxBodies);
      physicsSystem := new PhysicsSystem(bodyInterface,
        if settings.maxBodyPairs < 0 then 0 else settings.maxBodyPairs,
        if settings.maxContactConstraints < 0 then 0 else settings.maxContactConstraints);
      maxWorkerThreads := settings.maxWorkerThreads;
      tempAllocatorSize := settings.tempAllocatorSize;
      objectLayerPairFilter := settings.objectLayerPairFilter;
      broadPhaseLayerInterface := settings.broadPhaseLayerInterface;
      objectVsBroadPhaseLayerFilter := settings.objectVsBroadPhaseLayerFilter;
      cleanupUserData := None;
    }

    /**
     * `Step(deltaTime, collisionSteps)`. The simulation itself is opaque; its
     * outcome is given as `advance` (the new pose of each body) and `deform`
     * (the new position of each soft-body vertex). Which bodies exist and how
     * many vertices each soft body has do not change.
     */
    method Step(deltaTime: real, collisionSteps: int,
                advance: (BodyID, Pose) -> Pose, deform: (BodyID, nat, Vec3) -> Vec3)
      requires physicsSystem.bodyInterface.Valid() && physicsSystem.bodyInterface.engine == engine
      requires this in engine.live
      modifies physicsSystem.bodyInterface, engine`log, engine`seen, engine`live, engine`bodies
      ensures physicsSystem.bodyInterface.Valid()
      ensures engine.log == old(engine.log) + [Event.Step(this, deltaTime, collisionSteps)]
      ensures engine.Now() == old(engine.Now())
      ensures var bi := physicsSystem.bodyInterface;
        && bi.poses.Keys == old(bi.poses.Keys) && bi.soft.Keys == old(bi.soft.Keys)
        && (forall id :: id in bi.poses ==> bi.poses[id] == advance(id, old(bi.poses[id])))
        && (forall id :: id in bi.soft ==> |bi.soft[id]| == |old(bi.soft[id])|)
    {
      var bi := physicsSystem.bodyInterface;
      engine.Call(Event.Step(this, deltaTime, collisionSteps));
      var ps := bi.poses;
      var sv := bi.soft;
      bi.poses := map id | id in ps :: advance(id, ps[id]);
      bi.soft := map id | id in sv :: seq(|sv[id]|, i requires 0 <= i < |sv[id]| => deform(id, i, sv[id][i]));
    }
  }

  // ---------------------------------------------------------------------------
  // Reading a soft body under a lock.

  /** `BodyLockRead`: succeeds exactly when the body exists. */
  class BodyLockRead {
    const bodyInterface: BodyInterface
    const id: BodyID
    const succeeded: bool
    var released: bool

    constructor (bodyInterface: BodyInterface, id: BodyID)
      requires bodyInterface.Alive()
      ensures this.bodyInterface == bodyInterface && this.id == id
      ensures succeeded == (id in bodyInterface.poses) && !released
    {
      this.bodyInterface, this.id := bodyInterface, id;
      succeeded := id in bodyInterface.poses;
      released := false;
    }

    /** `ReleaseLock()`. */
    method ReleaseLock()
      requires bodyInterface.engine.Valid() && this in bodyInterface.engine.live
      modifies this, bodyInterface.engine`log, bodyInterface.engine`seen, bodyInterface.engine`live, bodyInterface.engine`bodies
      ensures released
      ensures bodyInterface.engine.log == old(bodyInterface.engine.log) + [Event.ReleaseLock(this)]
      ensures bodyInterface.engine.Now() == old(bodyInterface.engine.Now())
      ensures bodyInterface.engine.Valid()
    {
      bodyInterface.engine.Call(Event.ReleaseLock(this));
      released := true;
    }
  }

  datatype Option<T> = None | Some(value: T)
}
