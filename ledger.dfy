/**
 * The physics engine's native heap, seen from the bridge: a ledger of every
 * native object the bridge allocates and releases, and of every body it
 * creates, adds, removes and destroys.
 *
 * A log of calls is replayed into a `State`; a log is `Sound` when every call
 * in it was legal in the state its prefix left behind (no release of an object
 * that is not live, no destruction of a body that is still in the world, ...).
 * The lemmas at the end state what a sound log guarantees.
 */
module Ledger {

  /** A body identifier handed out by the body interface. */
  type BodyID = nat

  /** The activation argument of `AddBody`. */
  datatype Activation = Activate | DontActivate

  /** The life of one body: created, added to the world, removed, destroyed. */
  datatype BodyState = Created | Added(activation: Activation) | Removed | Destroyed

  /** The calls the bridge makes into the engine whose order matters. */
  datatype Event =
    | New(o: object)                                        // `new jolt.X(...)`
    | Delete(o: object)                                     // `jolt.destroy(o)`
    | CreateBody(id: BodyID)                                // `CreateBody` / `CreateSoftBody`
    | AddBody(id: BodyID, activation: Activation)
    | RemoveBody(id: BodyID)
    | DestroyBody(id: BodyID)
    | Step(iface: object, deltaTime: real, collisionSteps: int)
    | ReleaseLock(lock: object)

  /** What the engine knows: every object ever allocated, the live ones, and the bodies. */
  datatype State = State(seen: set<object>, live: set<object>, bodies: map<BodyID, BodyState>)

  const Empty := State({}, {}, map[])

  /** Whether the engine accepts event `e` in state `s`. */
  predicate Admits(s: State, e: Event) {
    match e
    case New(o) => o !in s.seen
    case Delete(o) => o in s.live
    case CreateBody(id) => id !in s.bodies
    case AddBody(id, _) => id in s.bodies && (s.bodies[id] == Created || s.bodies[id] == Removed)
    case RemoveBody(id) => id in s.bodies && s.bodies[id].Added?
    case DestroyBody(id) => id in s.bodies && (s.bodies[id] == Created || s.bodies[id] == Removed)
    case Step(iface, _, _) => iface in s.live
    case ReleaseLock(lock) => lock in s.live
  }

  /** The state after event `e`. */
  function Apply(s: State, e: Event): State {
    match e
    case New(o) => s.(seen := s.seen + {o}, live := s.live + {o})
    case Delete(o) => s.(live := s.live - {o})
    case CreateBody(id) => s.(bodies := s.bodies[id := Created])
    case AddBody(id, a) => s.(bodies := s.bodies[id := Added(a)])
    case RemoveBody(id) => s.(bodies := s.bodies[id := Removed])
    case DestroyBody(id) => s.(bodies := s.bodies[id := Destroyed])
    case Step(_, _, _) => s
    case ReleaseLock(_) => s
  }

  /** The state a log leaves behind, replayed from the empty engine. */
  function Replay(log: seq<Event>): State {
    if log == [] then Empty else Apply(Replay(log[..|log| - 1]), log[|log| - 1])
  }

  /** Every call in the log was legal when it was made. */
  predicate Sound(log: seq<Event>) {
    log == [] || (Sound(log[..|log| - 1]) && Admits(Replay(log[..|log| - 1]), log[|log| - 1]))
  }

  /** How often event `e` occurs in the log. */
  function Count(log: seq<Event>, e: Event): nat {
    if log == [] then 0
    else Count(log[..|log| - 1], e) + (if log[|log| - 1] == e then 1 else 0)
  }

  /** Appending one event: the replay takes one more step, and soundness asks that the engine admit it. */
  lemma Extend(log: seq<Event>, e: Event)
    ensures Replay(log + [e]) == Apply(Replay(log), e)
    ensures Sound(log + [e]) <==> Sound(log) && Admits(Replay(log), e)
  {
    assert (log + [e])[..|log|] == log;
  }

  // ---------------------------------------------------------------------------
  // Native objects: allocated at most once, released at most once, live exactly
  // while allocated and not yet released.

  lemma {:induction false} ObjectBalance(log: seq<Event>, o: object)
    requires Sound(log)
    ensures Count(log, New(o)) <= 1
    ensures Count(log, Delete(o)) <= Count(log, New(o))
    ensures o in Replay(log).seen <==> Count(log, New(o)) == 1
    ensures o in Replay(log).live <==> Count(log, New(o)) == 1 && Count(log, Delete(o)) == 0
  {
    if log != [] {
      var init := log[..|log| - 1];
      ObjectBalance(init, o);
    }
  }

  /** An event that occurs in a log is counted there. */
  lemma {:induction false} Occurs(log: seq<Event>, e: Event)
    requires e in log
    ensures Count(log, e) >= 1
  {
    var init := log[..|log| - 1];
    if log[|log| - 1] != e {
      assert e in init;
      Occurs(init, e);
    }
  }

  /**
   * In a sound log, an object that is both allocated and released somewhere in
   * it was allocated once, released once, and is no longer live.
   */
  lemma AllocatedAndReleased(log: seq<Event>, o: object)
    requires Sound(log) && New(o) in log && Delete(o) in log
    ensures Count(log, New(o)) == 1 && Count(log, Delete(o)) == 1
    ensures o in Replay(log).seen && o !in Replay(log).live
  {
    Occurs(log, New(o));
    Occurs(log, Delete(o));
    ObjectBalance(log, o);
  }

  /** An object that was allocated and is no longer live was released exactly once. */
  lemma ReleasedExactlyOnce(log: seq<Event>, o: object)
    requires Sound(log)
    requires o in Replay(log).seen && o !in Replay(log).live
    ensures Count(log, New(o)) == 1 && Count(log, Delete(o)) == 1
  {
    ObjectBalance(log, o);
  }

  // ---------------------------------------------------------------------------
  // Bodies.

  lemma {:induction false} SoundPrefix(log: seq<Event>, k: nat)
    requires Sound(log) && k <= |log|
    ensures Sound(log[..k])
    decreases |log|
  {
    if k < |log| {
      var init := log[..|log| - 1];
      assert init[..k] == log[..k];
      SoundPrefix(init, k);
    } else {
      assert log[..k] == log;
    }
  }

  /** Once added, a body stays added until a `RemoveBody` for it. */
  lemma {:induction false} StaysAdded(log: seq<Event>, id: BodyID, i: nat, j: nat)
    requires Sound(log) && i < j <= |log|
    requires log[i].AddBody? && log[i].id == id
    requires forall k :: i < k < j ==> log[k] != RemoveBody(id)
    ensures id in Replay(log[..j]).bodies && Replay(log[..j]).bodies[id].Added?
  {
    var pre := log[..j];
    assert pre[..j - 1] == log[..j - 1];
    if j == i + 1 {
    } else {
      StaysAdded(log, id, i, j - 1);
      SoundPrefix(log, j);
      var e := log[j - 1];
      assert Admits(Replay(log[..j - 1]), e);
    }
  }

  /** A body that was added is removed before it is destroyed. */
  lemma RemovedBeforeDestroyed(log: seq<Event>, id: BodyID, i: nat, j: nat)
    requires Sound(log) && i < j < |log|
    requires log[i].AddBody? && log[i].id == id
    requires log[j] == DestroyBody(id)
    ensures exists k :: i < k < j && log[k] == RemoveBody(id)
  {
    SoundPrefix(log, j + 1);
    var pre := log[..j + 1];
    assert pre[..j] == log[..j];
    assert Admits(Replay(log[..j]), DestroyBody(id));
    if forall k :: i < k < j ==> log[k] != RemoveBody(id) {
      StaysAdded(log, id, i, j);
      assert false;
    }
  }

  /** Each body is created at most once and destroyed at most once; it is destroyed exactly when its state says so. */
  lemma {:induction false} BodyBalance(log: seq<Event>, id: BodyID)
    requires Sound(log)
    ensures Count(log, CreateBody(id)) <= 1
    ensures Count(log, DestroyBody(id)) <= Count(log, CreateBody(id))
    ensures id in Replay(log).bodies <==> Count(log, CreateBody(id)) == 1
    ensures id in Replay(log).bodies && Replay(log).bodies[id] == Destroyed <==> Count(log, DestroyBody(id)) == 1
  {
    if log != [] {
      var init := log[..|log| - 1];
      BodyBalance(init, id);
    }
  }
}
