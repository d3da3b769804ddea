/**
 * `RigidBody` (`src/jolt/RigidBody.tsx`): one engine body per mount,
 * created from user settings with the position and rotation props written
 * over them, and mirrored into a scene-graph group every frame.
 *
 * The two layout effects and the frame callback are methods; React runs
 * `MountTemps` and `MountBody` after the first commit and the two cleanups
 * on unmount or when a dependency changes.
 */
module RigidBodies {
  import opened Ledger
  import opened Values
  import opened Jolt
  import opened Utils
  import opened Three

  /** The reusable out-parameters of the frame read. */
  datatype Temps = Temps(pos: RVec3, rot: Quat)

  /** The native objects one mount allocates, in allocation order. */
  datatype MountObjects = MountObjects(bodySettings: object, p: object, q: object)

  /** The engine calls of a mount whose `CreateBody` succeeded. */
  function MountLog(o: MountObjects, id: BodyID): seq<Event> {
    [New(o.bodySettings), New(o.p), New(o.q), CreateBody(id), AddBody(id, Activate),
     Delete(o.p), Delete(o.q), Delete(o.bodySettings)]
  }

  /** The engine calls of the body cleanup. */
  function UnmountLog(id: BodyID): seq<Event> {
    [RemoveBody(id), DestroyBody(id)]
  }

  /**
   * A mount followed by its cleanup leaves the body destroyed, created once
   * and destroyed once, removed from the world before it was destroyed, and
   * every temporary allocated once and released once.
   */
  lemma MountThenUnmount(log0: seq<Event>, o: MountObjects, id: BodyID, x: object)
    requires Sound(log0 + MountLog(o, id) + UnmountLog(id))
    requires x in {o.bodySettings, o.p, o.q}
    ensures var log := log0 + MountLog(o, id) + UnmountLog(id);
      && id in Replay(log).bodies && Replay(log).bodies[id] == Destroyed
      && Count(log, CreateBody(id)) == 1 && Count(log, DestroyBody(id)) == 1
      && log[|log0| + 8] == RemoveBody(id) && log[|log0| + 9] == DestroyBody(id)
      && Count(log, New(x)) == 1 && Count(log, Delete(x)) == 1 && x !in Replay(log).live
  {
    var log := log0 + MountLog(o, id) + UnmountLog(id);
    assert log[|log0| .. |log0| + 8] == MountLog(o, id);
    assert log[|log0| + 8 ..] == UnmountLog(id);
    assert New(x) in log && Delete(x) in log;
    AllocatedAndReleased(log, x);
    assert CreateBody(id) in log && DestroyBody(id) in log;
    Occurs(log, CreateBody(id));
    Occurs(log, DestroyBody(id));
    BodyBalance(log, id);
  }

  class RigidBody {
    /** The context this component was rendered under. */
    const jolt: Engine
    const bodyInterface: BodyInterface?

    /** The current props; position and rotation are read only when the body is created. */
    var position: Vec3
    var rotation: Rotation

    var objectRef: Group?
    var bodyID: Option<BodyID>
    var temps: Option<Temps>
    /** `CreateBody` returned null: `body.GetID()` throws and the effect is aborted. */
    var crashed: bool

    /** A body identifier is only ever recorded against a body interface. */
    ghost predicate Valid()
      reads this
    {
      bodyID.Some? ==> bodyInterface != null
    }

    /** The first render: no body, no temporaries; the default props are the origin and no rotation. */
    constructor (jolt: Engine, bodyInterface: BodyInterface?, position: Vec3, rotation: Rotation, objectRef: Group?)
      ensures Valid() && this.jolt == jolt && this.bodyInterface == bodyInterface
      ensures this.position == position && this.rotation == rotation && this.objectRef == objectRef
      ensures bodyID == None && temps == None && !crashed
    {
      this.jolt, this.bodyInterface := jolt, bodyInterface;
      this.position, this.rotation, this.objectRef := position, rotation, objectRef;
      bodyID, temps, crashed := None, None, false;
    }

    /** The first layout effect: allocate the two temporaries. */
    method MountTemps()
      requires jolt.Valid()
      modifies this`temps, jolt`log, jolt`seen, jolt`live, jolt`bodies
      ensures jolt.Valid() && jolt.bodies == old(jolt.bodies) && temps.Some?
      ensures fresh(temps.value.pos) && fresh(temps.value.rot)
      ensures jolt.log == old(jolt.log) + [New(temps.value.pos), New(temps.value.rot)]
      ensures jolt.live == old(jolt.live) + {temps.value.pos, temps.value.rot}
    {
      var pos := new RVec3(Zero);
      jolt.Register(pos);
      var rot := new Quat(Identity);
      jolt.Register(rot);
      temps := Some(Temps(pos, rot));
    }

    /** Its cleanup: release both temporaries once and forget them; a second call does nothing. */
    method UnmountTemps()
      requires jolt.Valid()
      requires temps.Some? ==> temps.value.pos in jolt.live && temps.value.rot in jolt.live
      modifies this`temps, jolt`log, jolt`seen, jolt`live, jolt`bodies
      ensures jolt.Valid() && jolt.bodies == old(jolt.bodies) && temps == None
      ensures old(temps) == None ==> unchanged(jolt)
      ensures old(temps).Some? ==>
        && jolt.log == old(jolt.log) + [Delete(old(temps).value.pos), Delete(old(temps).value.rot)]
        && jolt.live == old(jolt.live) - {old(temps).value.pos, old(temps).value.rot}
    {
      if temps.Some? {
        jolt.Destroy(temps.value.pos);
        jolt.Destroy(temps.value.rot);
        temps := None;
      }
    }

    /**
     * The second layout effect. Without a body interface nothing happens.
     * Otherwise the settings from `getSettings` (whose own pose is
     * `settingsPose`) get the position and rotation props, the body is created,
     * its identifier recorded, the body added and activated, and the wrappers
     * and the settings released. When `CreateBody` returns null the effect
     * stops after the three allocations.
     */
    method MountBody(settingsPose: Pose) returns (ghost o: MountObjects)
      requires Valid() && bodyID == None && !crashed
      requires bodyInterface != null ==> bodyInterface.Valid() && bodyInterface.Alive() && bodyInterface.engine == jolt
      modifies this`bodyID, this`crashed
      modifies if bodyInterface != null then {bodyInterface} else {}
      modifies jolt`log, jolt`seen, jolt`live, jolt`bodies, jolt`nextBody
      ensures Valid()
      ensures bodyInterface == null ==> unchanged(jolt) && bodyID == None && !crashed
      ensures bodyInterface != null ==> bodyInterface.Valid() && bodyInterface.Alive()
      ensures bodyInterface != null && crashed ==>
        && bodyID == None && old(|bodyInterface.poses|) >= bodyInterface.maxBodies
        && jolt.log == old(jolt.log) + [New(o.bodySettings), New(o.p), New(o.q)]
      ensures bodyInterface != null && !crashed ==>
        && bodyID.Some? && bodyID.value !in old(jolt.bodies)
        && jolt.log == old(jolt.log) + MountLog(o, bodyID.value)
        && jolt.live == old(jolt.live)
        && bodyInterface.InWorld(bodyID.value)
        && bodyInterface.poses == old(bodyInterface.poses)[bodyID.value := Pose(position, rotation)]
    {
      if bodyInterface == null {
        o := MountObjects(jolt, jolt, jolt);
        return;
      }
      var id;
      id, o := CreateAndAdd(bodyInterface, settingsPose, position, rotation);
      bodyID := id;
      crashed := id.None?;
    }

    /** The body cleanup: remove, destroy and forget the body; a second call does nothing. */
    method UnmountBody()
      requires Valid()
      requires bodyID.Some? ==> bodyInterface.Valid() && bodyInterface.Alive() && bodyInterface.engine == jolt
                                && bodyInterface.InWorld(bodyID.value)
      modifies this`bodyID
      modifies if bodyInterface != null then {bodyInterface} else {}
      modifies jolt`log, jolt`seen, jolt`live, jolt`bodies
      ensures Valid() && bodyID == None
      ensures old(bodyID) == None ==> unchanged(jolt) && (bodyInterface != null ==> unchanged(bodyInterface))
      ensures old(bodyID).Some? ==>
        var id := old(bodyID).value;
        && jolt.log == old(jolt.log) + UnmountLog(id)
        && jolt.bodies == old(jolt.bodies)[id := Destroyed] && jolt.live == old(jolt.live)
        && bodyInterface.Valid() && bodyInterface.Alive() && bodyInterface.poses == old(bodyInterface.poses) - {id}
    {
      if bodyID.Some? {
        var id := bodyID.value;
        bodyInterface.RemoveBody(id);
        bodyInterface.DestroyBody(id);
        bodyID := None;
      }
    }

    /**
     * A re-render with new position or rotation props. They are read only
     * when the body is created and are not dependencies of the body effect,
     * so the body keeps its identifier, its pose and its place in the world.
     */
    method SetProps(position: Vec3, rotation: Rotation)
      modifies this`position, this`rotation
      ensures this.position == position && this.rotation == rotation
      ensures bodyID == old(bodyID) && unchanged(jolt)
      ensures bodyInterface != null ==> unchanged(bodyInterface)
    {
      this.position, this.rotation := position, rotation;
    }

    /**
     * The frame callback: when a body, a group and the temporaries all exist,
     * one `GetPositionAndRotation` into the temporaries, copied component by
     * component into the group; otherwise nothing changes.
     */
    method Frame()
      requires Valid()
      requires bodyID.Some? ==> bodyInterface.Alive()
      modifies if objectRef != null then {objectRef} else {}
      modifies if temps.Some? then {temps.value.pos, temps.value.rot} else {}
      ensures objectRef != null && !(bodyID.Some? && temps.Some?) ==> unchanged(objectRef)
      ensures temps.Some? && !(bodyID.Some? && objectRef != null) ==> unchanged(temps.value.pos, temps.value.rot)
      ensures bodyID.Some? && objectRef != null && temps.Some? ==>
        var id := bodyID.value;
        && (id in bodyInterface.poses ==> objectRef.position == bodyInterface.poses[id].position
                                          && objectRef.quaternion == bodyInterface.poses[id].rotation)
        && (id !in bodyInterface.poses ==> objectRef.position == Zero && objectRef.quaternion == Identity)
    {
      if bodyID.None? || objectRef == null || temps.None? {
        return;
      }
      var pos, rot := temps.value.pos, temps.value.rot;
      bodyInterface.GetPositionAndRotation(bodyID.value, pos, rot);
      objectRef.position := Vec3(pos.value.x, pos.value.y, pos.value.z);
      objectRef.quaternion := Rotation(rot.value.x, rot.value.y, rot.value.z, rot.value.w);
    }
  }

  /**
   * Steps 1 to 5 of the body effect: `None` when `CreateBody` returns null,
   * after which nothing else happens.
   */
  method CreateAndAdd(bodyInterface: BodyInterface, settingsPose: Pose, position: Vec3, rotation: Rotation)
    returns (id: Option<BodyID>, ghost o: MountObjects)
    requires bodyInterface.Valid() && bodyInterface.Alive()
    modifies bodyInterface, bodyInterface.engine`log, bodyInterface.engine`seen, bodyInterface.engine`live
    modifies bodyInterface.engine`bodies, bodyInterface.engine`nextBody
    ensures bodyInterface.Valid() && bodyInterface.Alive()
    ensures id.None? ==>
      && old(|bodyInterface.poses|) >= bodyInterface.maxBodies
      && bodyInterface.engine.log == old(bodyInterface.engine.log) + [New(o.bodySettings), New(o.p), New(o.q)]
    ensures id.Some? ==>
      && id.value !in old(bodyInterface.engine.bodies)
      && bodyInterface.engine.log == old(bodyInterface.engine.log) + MountLog(o, id.value)
      && bodyInterface.engine.live == old(bodyInterface.engine.live)
      && bodyInterface.InWorld(id.value)
      && bodyInterface.poses == old(bodyInterface.poses)[id.value := Pose(position, rotation)]
  {
    var jolt := bodyInterface.engine;
    ghost var log0 := jolt.log;
    var body, bodySettings, p, q := PrepareAndCreate(bodyInterface, settingsPose, position, rotation);
    o := MountObjects(bodySettings, p, q);
    if body == null {
      return None, o;
    }
    id := Some(body.id);
    AddAndRelease(bodyInterface, body.id, bodySettings, p, q);
  }

  /** Steps 1 to 3 of the body effect: the settings, the wrappers, and `CreateBody`. */
  method PrepareAndCreate(bodyInterface: BodyInterface, settingsPose: Pose, position: Vec3, rotation: Rotation)
    returns (body: Body?, bodySettings: BodyCreationSettings, p: RVec3, q: Quat)
    requires bodyInterface.Valid() && bodyInterface.Alive()
    modifies bodyInterface, bodyInterface.engine`log, bodyInterface.engine`seen, bodyInterface.engine`live
    modifies bodyInterface.engine`bodies, bodyInterface.engine`nextBody
    ensures bodyInterface.Valid() && bodyInterface.Alive()
    ensures fresh(bodySettings) && fresh(p) && fresh(q)
    ensures bodyInterface.engine.live == old(bodyInterface.engine.live) + {bodySettings, p, q}
    ensures body == null ==>
      && old(|bodyInterface.poses|) >= bodyInterface.maxBodies
      && bodyInterface.engine.log == old(bodyInterface.engine.log) + [New(bodySettings), New(p), New(q)]
    ensures body != null ==>
      && body.id !in old(bodyInterface.engine.bodies)
      && bodyInterface.engine.log == old(bodyInterface.engine.log) + [New(bodySettings), New(p), New(q), CreateBody(body.id)]
      && bodyInterface.NotInWorld(body.id)
      && bodyInterface.engine.bodies == old(bodyInterface.engine.bodies)[body.id := Created]
      && bodyInterface.poses == old(bodyInterface.poses)[body.id := Pose(position, rotation)]
  {
    var jolt := bodyInterface.engine;
    bodySettings, p, q := PrepareSettings(jolt, settingsPose, position, rotation);
    body := bodyInterface.CreateBody(bodySettings);
  }

  /**
   * `getSettings(jolt)` (a fresh settings object with pose `settingsPose`),
   * then the two wrappers, whose values are copied into the settings.
   */
  method PrepareSettings(jolt: Engine, settingsPose: Pose, position: Vec3, rotation: Rotation)
    returns (bodySettings: BodyCreationSettings, p: RVec3, q: Quat)
    requires jolt.Valid()
    modifies jolt`log, jolt`seen, jolt`live, jolt`bodies
    ensures jolt.Valid() && jolt.bodies == old(jolt.bodies)
    ensures fresh(bodySettings) && fresh(p) && fresh(q)
    ensures bodySettings.position == position && bodySettings.rotation == rotation
    ensures jolt.log == old(jolt.log) + [New(bodySettings), New(p), New(q)]
    ensures jolt.live == old(jolt.live) + {bodySettings, p, q}
  {
    bodySettings := new BodyCreationSettings(settingsPose.position, settingsPose.rotation);
    jolt.Register(bodySettings);
    p := WrapVec3(jolt, position.x, position.y, position.z);
    q := WrapQuat(jolt, rotation.x, rotation.y, rotation.z, rotation.w);
    bodySettings.position := p.value;
    bodySettings.rotation := q.value;
  }

  /** `AddBody(id, Activate)`, then the wrappers and the settings released. */
  method AddAndRelease(bodyInterface: BodyInterface, id: BodyID, bodySettings: BodyCreationSettings, p: RVec3, q: Quat)
    requires bodyInterface.Valid() && bodyInterface.Alive() && bodyInterface.NotInWorld(id)
    requires bodySettings in bodyInterface.engine.live && p in bodyInterface.engine.live && q in bodyInterface.engine.live
    modifies bodyInterface.engine`log, bodyInterface.engine`seen, bodyInterface.engine`live, bodyInterface.engine`bodies
    ensures bodyInterface.Valid() && bodyInterface.Alive() && bodyInterface.InWorld(id)
    ensures bodyInterface.engine.bodies == old(bodyInterface.engine.bodies)[id := Added(Activate)]
    ensures bodyInterface.engine.log == old(bodyInterface.engine.log) + [AddBody(id, Activate), Delete(p), Delete(q), Delete(bodySettings)]
    ensures bodyInterface.engine.live == old(bodyInterface.engine.live) - {p, q, bodySettings}
  {
    var jolt := bodyInterface.engine;
    bodyInterface.AddBody(id, Activate);
    jolt.Destroy(p);
    jolt.Destroy(q);
    jolt.Destroy(bodySettings);
  }
}
