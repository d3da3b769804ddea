/**
 * `Softbody` (`src/jolt/SoftBody.tsx`): one engine soft body per mount,
 * and every frame its simulated vertex positions copied into the mesh's
 * position attribute under a read lock.
 */
module SoftBodies {
  import opened Ledger
  import opened Values
  import opened Jolt
  import opened Layout
  import opened Three

  /** The engine calls of the copy loop: each vertex copy allocated, then released before the next. */
  function Pairs(copies: seq<object>): (log: seq<Event>)
    ensures |log| == 2 * |copies|
  {
    if copies == [] then [] else Pairs(copies[..|copies| - 1]) + [New(copies[|copies| - 1]), Delete(copies[|copies| - 1])]
  }

  /** Copy `i` is allocated at event `2i` and released at event `2i + 1`, right after its one use. */
  lemma {:induction false} PairsAt(copies: seq<object>, i: nat)
    requires i < |copies|
    ensures Pairs(copies)[2 * i] == New(copies[i]) && Pairs(copies)[2 * i + 1] == Delete(copies[i])
    decreases |copies|
  {
    var init := copies[..|copies| - 1];
    if i < |init| {
      PairsAt(init, i);
      assert Pairs(copies)[..2 * |init|] == Pairs(init);
    }
  }

  /** In a sound log, every vertex copy is allocated once, released once, and no longer live. */
  lemma CopiesReleased(log0: seq<Event>, copies: seq<object>, rest: seq<Event>, i: nat)
    requires Sound(log0 + Pairs(copies) + rest) && i < |copies|
    ensures var log := log0 + Pairs(copies) + rest;
      Count(log, New(copies[i])) == 1 && Count(log, Delete(copies[i])) == 1 && copies[i] !in Replay(log).live
  {
    var log := log0 + Pairs(copies) + rest;
    PairsAt(copies, i);
    assert log[|log0| + 2 * i] == New(copies[i]) && log[|log0| + 2 * i + 1] == Delete(copies[i]);
    AllocatedAndReleased(log, copies[i]);
  }

  /** The engine calls of one frame that takes the lock: the copies made (if any), then release and destroy. */
  function FrameLog(lock: object, succeeded: bool, copies: seq<object>): seq<Event> {
    [New(lock)] + (if succeeded then Pairs(copies) + [ReleaseLock(lock)] else []) + [Delete(lock)]
  }

  /** A frame's lock is allocated once and destroyed once, and released in between exactly when it succeeded. */
  lemma FrameLockBalanced(log0: seq<Event>, lock: object, succeeded: bool, copies: seq<object>)
    requires Sound(log0 + FrameLog(lock, succeeded, copies))
    ensures var log := log0 + FrameLog(lock, succeeded, copies);
      && Count(log, New(lock)) == 1 && Count(log, Delete(lock)) == 1 && lock !in Replay(log).live
      && (ReleaseLock(lock) in log[|log0|..] <==> succeeded)
  {
    var log := log0 + FrameLog(lock, succeeded, copies);
    assert log[|log0|] == New(lock) && log[|log| - 1] == Delete(lock);
    AllocatedAndReleased(log, lock);
    if !succeeded {
      assert log[|log0|..] == [New(lock), Delete(lock)];
    } else {
      assert log[|log0|..][|log| - |log0| - 2] == ReleaseLock(lock);
    }
  }

  class Softbody {
    /** The context and the `settings` prop. */
    const jolt: Engine
    const physicsSystem: PhysicsSystem?
    const bodyInterface: BodyInterface?
    const settings: SoftBodyCreationSettings?

    var meshRef: Mesh?
    var bodyID: Option<BodyID>

    /** The context's body interface is the physics system's, and an identifier is recorded only against it. */
    ghost predicate Valid()
      reads this
    {
      && (physicsSystem != null ==> bodyInterface == physicsSystem.bodyInterface)
      && (bodyID.Some? ==> bodyInterface != null)
    }

    constructor (jolt: Engine, physicsSystem: PhysicsSystem?, bodyInterface: BodyInterface?,
                 settings: SoftBodyCreationSettings?, meshRef: Mesh?)
      requires physicsSystem != null ==> bodyInterface == physicsSystem.bodyInterface
      ensures Valid() && this.jolt == jolt && this.physicsSystem == physicsSystem
      ensures this.bodyInterface == bodyInterface && this.settings == settings
      ensures this.meshRef == meshRef && bodyID == None
    {
      this.jolt, this.physicsSystem, this.bodyInterface, this.settings := jolt, physicsSystem, bodyInterface, settings;
      this.meshRef, bodyID := meshRef, None;
    }

    /**
     * The layout effect: without a physics system, body interface or settings
     * nothing happens; a null `CreateSoftBody` adds nothing and records no
     * identifier; otherwise the identifier is recorded and the body added and
     * activated.
     */
    method Mount()
      requires Valid() && bodyID == None
      requires bodyInterface != null ==> bodyInterface.Valid() && bodyInterface.Alive() && bodyInterface.engine == jolt
      modifies this`bodyID
      modifies if bodyInterface != null then {bodyInterface} else {}
      modifies jolt`log, jolt`seen, jolt`live, jolt`bodies, jolt`nextBody
      ensures Valid() && jolt.live == old(jolt.live)
      ensures physicsSystem == null || bodyInterface == null || settings == null ==> unchanged(jolt) && bodyID == None
      ensures bodyInterface != null ==> bodyInterface.Valid() && bodyInterface.Alive()
      ensures physicsSystem != null && settings != null && bodyID == None ==>
        unchanged(jolt) && old(|bodyInterface.poses|) >= bodyInterface.maxBodies
      ensures bodyID.Some? ==>
        var id := bodyID.value;
        && physicsSystem != null && settings != null && id !in old(jolt.bodies)
        && jolt.log == old(jolt.log) + [CreateBody(id), AddBody(id, Activate)]
        && bodyInterface.InWorld(id)
        && bodyInterface.poses == old(bodyInterface.poses)[id := Pose(settings.position, settings.rotation)]
        && bodyInterface.soft == old(bodyInterface.soft)[id := Positions(settings.shared.vertices)]
    {
      if physicsSystem == null || bodyInterface == null || settings == null {
        return;
      }
      var body := bodyInterface.CreateSoftBody(settings);
      if body == null {
        return;
      }
      var id := body.id;
      bodyID := Some(id);
      bodyInterface.AddBody(id, Activate);
    }

    /** The cleanup: remove, destroy and forget the body; a second call does nothing. */
    method Unmount()
      requires Valid()
      requires bodyID.Some? ==> bodyInterface.Valid() && bodyInterface.Alive() && bodyInterface.engine == jolt
                                && bodyInterface.InWorld(bodyID.value)
      modifies this`bodyID
      modifies if bodyInterface != null then {bodyInterface} else {}
      modifies jolt`log, jolt`seen, jolt`live, jolt`bodies
      ensures Valid() && bodyID == None
      ensures old(bodyID) == None ==> unchanged(jolt) && (bodyInterface != null ==> unchanged(bodyInterface))
      ensures old(bodyID).Some? ==>
        var id := old(bodyID).value;
        && jolt.log == old(jolt.log) + [RemoveBody(id), DestroyBody(id)]
        && jolt.bodies == old(jolt.bodies)[id := Destroyed] && jolt.live == old(jolt.live)
        && bodyInterface.Valid() && bodyInterface.Alive() && bodyInterface.poses == old(bodyInterface.poses) - {id}
        && bodyInterface.soft == old(bodyInterface.soft) - {id}
    {
      if bodyID.Some? {
        var id := bodyID.value;
        bodyInterface.RemoveBody(id);
        bodyInterface.DestroyBody(id);
        bodyID := None;
      }
    }

    /**
     * The frame callback. With a mesh, a body and a physics system, a read
     * lock is taken; when it succeeds and the position attribute has as many
     * vertices as the soft body, every vertex is copied, the attribute is
     * flagged and the normals recomputed, and the lock is released. The lock
     * object is destroyed in every case.
     */
    method Frame() returns (ghost lock: object, ghost succeeded: bool, ghost copies: seq<object>)
      requires Valid()
      requires bodyInterface != null ==> bodyInterface.Valid() && bodyInterface.engine == jolt
      requires bodyID.Some? ==> bodyInterface.Alive()
      modifies if meshRef != null then meshRef.geometry.Footprint() else {}
      modifies jolt`log, jolt`seen, jolt`live, jolt`bodies
      ensures jolt.live == old(jolt.live) && jolt.bodies == old(jolt.bodies)
      ensures meshRef == null || bodyID.None? || physicsSystem == null ==>
        && unchanged(jolt) && copies == []
        && (meshRef != null ==> unchanged(old(meshRef.geometry.Footprint())))
      ensures meshRef != null && bodyID.Some? && physicsSystem != null ==>
        && bodyInterface.Valid()
        && succeeded == (bodyID.value in bodyInterface.poses)
        && jolt.log == old(jolt.log) + FrameLog(lock, succeeded, copies)
        && Copied(meshRef.geometry, bodyInterface.soft, bodyID.value, |copies|)
    {
      lock, succeeded, copies := jolt, false, [];
      if meshRef == null || bodyID.None? || physicsSystem == null {
        return;
      }
      lock, succeeded, copies := LockedCopy(bodyInterface, bodyID.value, meshRef.geometry);
    }
  }

  /**
   * What a frame does to the mesh's geometry: when the body is a soft body
   * and the position attribute's `count` equals its vertex count, every
   * vertex is written, the attribute flagged and the normals recomputed, one
   * vertex copy per vertex (`copies` counts them); otherwise the geometry is as it was and no copy
   * is made.
   */
  twostate predicate Copied(geom: BufferGeometry, soft: map<BodyID, seq<Vec3>>, id: BodyID, copies: nat)
    reads geom.Footprint()
  {
    && geom.position == old(geom.position)
    && if geom.position != null && id in soft && geom.position.data.Length == 3 * |soft[id]| then
         && geom.position.data[..] == FlattenPositions(soft[id])
         && geom.position.needsUpdate && geom.normalsComputed == old(geom.normalsComputed) + 1
         && copies == |soft[id]|
       else
         && (geom.position != null ==> geom.position.data[..] == old(geom.position.data[..])
                                       && geom.position.needsUpdate == old(geom.position.needsUpdate))
         && geom.normalsComputed == old(geom.normalsComputed) && copies == 0
  }

  /** The frame after its guard: take the lock, copy under it when it succeeded, destroy it. */
  method LockedCopy(bodyInterface: BodyInterface, id: BodyID, geom: BufferGeometry)
    returns (ghost lock: object, ghost succeeded: bool, ghost copies: seq<object>)
    requires bodyInterface.Valid() && bodyInterface.Alive()
    modifies geom.Footprint()
    modifies bodyInterface.engine`log, bodyInterface.engine`seen, bodyInterface.engine`live, bodyInterface.engine`bodies
    ensures bodyInterface.Valid()
    ensures bodyInterface.engine.live == old(bodyInterface.engine.live)
    ensures bodyInterface.engine.bodies == old(bodyInterface.engine.bodies)
    ensures succeeded == (id in bodyInterface.poses)
    ensures bodyInterface.engine.log == old(bodyInterface.engine.log) + FrameLog(lock, succeeded, copies)
    ensures Copied(geom, bodyInterface.soft, id, |copies|)
  {
    var l;
    l, copies := LockAndCopy(bodyInterface, id, geom);
    lock, succeeded := l, l.succeeded;
    bodyInterface.engine.Destroy(l);
  }

  /** The lock taken and, when it succeeded, the copy made and the lock released; the lock stays live. */
  method LockAndCopy(bodyInterface: BodyInterface, id: BodyID, geom: BufferGeometry)
    returns (lock: BodyLockRead, ghost copies: seq<object>)
    requires bodyInterface.Valid() && bodyInterface.Alive()
    modifies geom.Footprint()
    modifies bodyInterface.engine`log, bodyInterface.engine`seen, bodyInterface.engine`live, bodyInterface.engine`bodies
    ensures bodyInterface.Valid() && fresh(lock)
    ensures bodyInterface.engine.live == old(bodyInterface.engine.live) + {lock}
    ensures bodyInterface.engine.bodies == old(bodyInterface.engine.bodies)
    ensures lock.succeeded == (id in bodyInterface.poses)
    ensures bodyInterface.engine.log == old(bodyInterface.engine.log) + [New(lock)]
      + (if lock.succeeded then Pairs(copies) + [ReleaseLock(lock)] else [])
    ensures Copied(geom, bodyInterface.soft, id, |copies|)
  {
    lock := TakeLock(bodyInterface, id);
    copies := [];
    if lock.succeeded {
      copies := CopyAndRelease(lock, geom);
    }
  }

  /** `new jolt.BodyLockRead(physicsSystem.GetBodyLockInterface(), id)`. */
  method TakeLock(bodyInterface: BodyInterface, id: BodyID) returns (lock: BodyLockRead)
    requires bodyInterface.Valid() && bodyInterface.Alive()
    modifies bodyInterface.engine`log, bodyInterface.engine`seen, bodyInterface.engine`live, bodyInterface.engine`bodies
    ensures bodyInterface.Valid() && fresh(lock) && lock.bodyInterface == bodyInterface && lock.id == id
    ensures lock.succeeded == (id in bodyInterface.poses) && !lock.released
    ensures bodyInterface.engine.log == old(bodyInterface.engine.log) + [New(lock)]
    ensures bodyInterface.engine.live == old(bodyInterface.engine.live) + {lock}
    ensures bodyInterface.engine.bodies == old(bodyInterface.engine.bodies)
  {
    lock := new BodyLockRead(bodyInterface, id);
    bodyInterface.engine.Register(lock);
  }

  /** Under a lock that succeeded: the copy, then `ReleaseLock`. */
  method CopyAndRelease(lock: BodyLockRead, geom: BufferGeometry) returns (ghost copies: seq<object>)
    requires lock.bodyInterface.Valid() && lock in lock.bodyInterface.engine.live
    modifies lock, geom.Footprint()
    modifies lock.bodyInterface.engine`log, lock.bodyInterface.engine`seen
    modifies lock.bodyInterface.engine`live, lock.bodyInterface.engine`bodies
    ensures lock.bodyInterface.Valid() && lock.released
    ensures lock.bodyInterface.engine.live == old(lock.bodyInterface.engine.live)
    ensures lock.bodyInterface.engine.bodies == old(lock.bodyInterface.engine.bodies)
    ensures lock.bodyInterface.engine.log == old(lock.bodyInterface.engine.log) + Pairs(copies) + [ReleaseLock(lock)]
    ensures Copied(geom, lock.bodyInterface.soft, lock.id, |copies|)
  {
    copies := CopyIfMatching(lock.bodyInterface, lock.id, geom);
    lock.ReleaseLock();
  }

  /**
   * The body of the `try`: the copy runs only when the body is a soft body
   * and the attribute's vertex count equals the soft body's.
   */
  method CopyIfMatching(bodyInterface: BodyInterface, id: BodyID, geom: BufferGeometry) returns (ghost copies: seq<object>)
    requires bodyInterface.Valid()
    modifies geom.Footprint()
    modifies bodyInterface.engine`log, bodyInterface.engine`seen, bodyInterface.engine`live, bodyInterface.engine`bodies
    ensures bodyInterface.Valid()
    ensures bodyInterface.engine.live == old(bodyInterface.engine.live)
    ensures bodyInterface.engine.bodies == old(bodyInterface.engine.bodies)
    ensures bodyInterface.engine.log == old(bodyInterface.engine.log) + Pairs(copies)
    ensures Copied(geom, bodyInterface.soft, id, |copies|)
  {
    copies := [];
    var posAttr := geom.position;
    if id !in bodyInterface.soft || posAttr == null {
      return;
    }
    var vertices := bodyInterface.soft[id];
    var count := |vertices|;
    if posAttr.data.Length == 3 * count {
      copies := CopyVertices(bodyInterface.engine, vertices, posAttr);
      posAttr.needsUpdate := true;
      geom.ComputeVertexNormals();
    }
  }

  /** The copy loop: vertex `i` read as a fresh copy, written with `setXYZ`, and the copy released. */
  method CopyVertices(jolt: Engine, vertices: seq<Vec3>, posAttr: PositionAttribute) returns (ghost copies: seq<object>)
    requires jolt.Valid() && posAttr.data.Length == 3 * |vertices|
    modifies posAttr.data, jolt`log, jolt`seen, jolt`live, jolt`bodies
    ensures jolt.Valid() && jolt.live == old(jolt.live) && jolt.bodies == old(jolt.bodies)
    ensures jolt.log == old(jolt.log) + Pairs(copies) && |copies| == |vertices|
    ensures posAttr.data[..] == FlattenPositions(vertices)
  {
    ghost var log0 := jolt.log;
    copies := [];
    var i := 0;
    while i < |vertices|
      invariant 0 <= i <= |vertices| && |copies| == i
      invariant jolt.Valid() && jolt.live == old(jolt.live) && jolt.bodies == old(jolt.bodies)
      invariant jolt.log == log0 + Pairs(copies)
      invariant posAttr.data[..3 * i] == FlattenPositions(vertices[..i])
    {
      ghost var v := CopyVertex(jolt, posAttr, i, vertices[i]);
      assert posAttr.data[..3 * (i + 1)] == FlattenPositions(vertices[..i + 1]) by {
        assert vertices[..i + 1] == vertices[..i] + [vertices[i]];
        FlattenAppend(vertices[..i], vertices[i]);
      }
      copies := copies + [v];
      assert copies[..|copies| - 1] == copies[..i];
      i := i + 1;
    }
    assert vertices[..i] == vertices;
    assert posAttr.data[..] == posAttr.data[..3 * i];
  }

  /** One iteration: `GetVertexPosition(i)`, `setXYZ`, `jolt.destroy(v)`. */
  method CopyVertex(jolt: Engine, posAttr: PositionAttribute, i: nat, value: Vec3) returns (ghost copy: object)
    requires jolt.Valid() && i < posAttr.Count()
    modifies posAttr.data, jolt`log, jolt`seen, jolt`live, jolt`bodies
    ensures jolt.Valid() && jolt.live == old(jolt.live) && jolt.bodies == old(jolt.bodies)
    ensures jolt.log == old(jolt.log) + [New(copy), Delete(copy)]
    ensures posAttr.data[..] == old(posAttr.data[..])[3 * i := value.x][3 * i + 1 := value.y][3 * i + 2 := value.z]
  {
    var v := new RVec3(value);
    jolt.Register(v);
    posAttr.SetXYZ(i, v.value);
    jolt.Destroy(v);
    copy := v;
  }

  /** Appending a vertex appends its three components. */
  lemma FlattenAppend(ps: seq<Vec3>, p: Vec3)
    ensures FlattenPositions(ps + [p]) == FlattenPositions(ps) + [p.x, p.y, p.z]
  {
    var qs := ps + [p];
    forall j | 0 <= j < 3 * |qs|
      ensures FlattenPositions(qs)[j] == (FlattenPositions(ps) + [p.x, p.y, p.z])[j]
    {
      if j < 3 * |ps| {
        FlattenPositionsAt(ps, j / 3, j % 3);
        FlattenPositionsAt(qs, j / 3, j % 3);
      } else {
        FlattenPositionsAt(qs, |ps|, j - 3 * |ps|);
      }
    }
  }
}
