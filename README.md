# r3f-jolt bridge, modelled in Dafny

This project models r3f-jolt, the bridge between a React / three.js scene and
the Jolt physics engine compiled to WebAssembly. The model covers four parts:

- the provider. It loads the engine once per process, builds the physics
  world with its collision filtering, steps it every frame and tears it
  down again.
- the rigid-body component. It creates one engine body, adds it to the world
  and copies the body's pose into a three.js group every frame.
- the soft-body component. Every frame it locks its body and copies the
  soft-body vertex positions into the mesh's position attribute.
- the helpers in `utils.ts`. These are the collision tables, the vector and
  quaternion wrappers, the procedural soft-body sphere, and two converters
  between engine soft-body settings and three.js buffer geometry.

Native engine memory is never collected in this system: every `new jolt.X`
must be matched by exactly one `jolt.destroy`, and bodies must be removed
from the world before they are destroyed. The model therefore keeps a
*ledger* (module `Ledger`, file `ledger.dfy`). It is a log of every
allocation, release and body call, replayed into the engine's state. A log is
`Sound` when every call in it was legal when it was made. The class
`Jolt.Engine` keeps its log sound as an invariant. Every model operation
states exactly which events it appends, and lemmas then read the balance of
allocations and releases off those event sequences.

Modules follow the source files:

| file | module | models |
|---|---|---|
| `ledger.dfy` | `Ledger` | the engine heap as a log of calls, and what a sound log guarantees |
| `values.dfy` | `Values` | vectors, quaternions, soft-body vertex and face records, and the 16- and 32-bit conversions at the WebAssembly and typed-array boundaries |
| `jolt.dfy` | `Jolt` | the engine objects the bridge calls, as classes whose methods append to the ledger |
| `three.dfy` | `Three` | the three.js group, buffer attributes, buffer geometry and mesh |
| `sphere.dfy` | `SphereTopology` | the vertex and face lists of the procedural sphere, as functions, and their layout lemmas |
| `layout.dfy` | `Layout` | how vertex and face lists are laid out in typed arrays and read back |
| `utils.dfy` | `Utils` | `src/jolt/utils.ts` |
| `provider.dfy` | `Provider` | `src/jolt/PhysicsProvider.tsx` |
| `rigid_body.dfy` | `RigidBodies` | `src/jolt/RigidBody.tsx` |
| `soft_body.dfy` | `SoftBodies` | `src/jolt/SoftBody.tsx` |

React is modelled by the order in which it calls things:

- A component is a class.
- Each `useLayoutEffect` / `useEffect` body is a method such as `Mount`.
- The cleanup an effect returns is another method such as `Unmount`.
- Each `useFrame` callback is a `Frame` method.
- The render result is a function (`Render`).
- The asynchronous `init` of the provider is split at its `await`:
  - `Mount` runs up to the `await`.
  - `Resolve` runs the continuation once the engine promise has settled.

Between the two halves a cleanup may run; `UnmountEarly` models that.

Modelling choices:

- Simulation results come from parameters and are not computed. The new pose
  of each body after `Step` is a function parameter `advance`, and the new
  soft-body vertex positions are a parameter `deform`.
- The points of the sphere come from an uninterpreted `Spherical` parameter,
  whose trigonometry is not modelled.
- Coordinates are exact reals.
- Integers that cross into unsigned engine parameters are reduced modulo
  2^32. Indices stored in a `Uint16Array` are reduced modulo 2^16.

The two converters do not check that the vertex or index count is a
multiple of three. They read `ceil(count / 3)` triangles, and the last one
reaches past the end or reads `undefined` (zero). See
`Layout.SequentialFacesWithin` and `Layout.IndexedFacesWithin`.

Engine body calls (`CreateBody`, `AddBody`, `RemoveBody`, `DestroyBody`,
`GetPositionAndRotation`, and taking a `BodyLockRead`) require the body
interface to be alive (`Jolt.BodyInterface.Alive`): the interface on the
module object owns it and has not been destroyed. The provider's cleanup
destroys that interface, after which no body interface of the engine is
alive. So a component cleanup or frame that touches a body after the
provider's cleanup is a precondition violation in the model.

## Model

| member | source | states |
|---|---|---|
| `Ledger.ObjectBalance` | src/jolt/RigidBody.tsx:27-41 | in a sound log each native object is allocated at most once and released at most as often as allocated; it is live exactly when allocated and not yet released |
| `Ledger.AllocatedAndReleased` | src/jolt/RigidBody.tsx:48-77 | an object whose allocation and release both occur in a sound log was allocated exactly once, released exactly once, and is no longer live |
| `Ledger.ReleasedExactlyOnce` | src/jolt/PhysicsProvider.tsx:113-120 | an object that was allocated and is no longer live was released exactly once |
| `Ledger.RemovedBeforeDestroyed` | src/jolt/RigidBody.tsx:79-85 | in a sound log, a body that was added to the world is removed from it at some point between the add and any destroy |
| `Ledger.BodyBalance` | src/jolt/SoftBody.tsx:19-32 | each body is created at most once and destroyed at most as often as created; it is known to the engine exactly when created, and destroyed exactly when the destroy occurred |
| `Values.ToUint32` | src/jolt/utils.ts:90-105 | a value passed as an unsigned 32-bit argument is congruent to the input modulo 2^32 and equal to it when the input is in range |
| `Values.ToUint16` | src/jolt/utils.ts:151-156 | a value stored into a `Uint16Array` is congruent to the input modulo 2^16 and equal to it when the input is in range |
| `Utils.CollisionTable` | src/jolt/utils.ts:5-10 | moving objects collide with non-moving and with moving ones; non-moving ones do not collide with each other; both object layers map to the broad-phase layer of the same number |
| `Utils.WrapVec3` | src/jolt/utils.ts:12-14 | a fresh engine vector holding the three components, recorded as one allocation |
| `Utils.WrapQuat` | src/jolt/utils.ts:16-18 | a fresh engine quaternion holding the four components, recorded as one allocation |
| `Utils.MapLayers` | src/jolt/utils.ts:25-33 | both broad-phase layer helpers are allocated, mapped from the object layer of the same number and released again, leaving nothing live |
| `Utils.SetupCollisionFiltering` | src/jolt/utils.ts:20-43 | three fresh tables with the enabled pairs and layer mapping above, the combined filter over the other two, the exact allocation and release sequence, and the three tables left live |
| `Utils.CreateSoftBodySphereSettings` | src/jolt/utils.ts:46-123 | the settings hold exactly the sphere's vertex list and face list in emission order and the three passes with the sphere's compliances; only the settings object stays live |
| `Utils.DefaultSphereFitsIndexBuffer` | src/jolt/utils.ts:46-50 | the default sphere has 162 vertices and 320 faces, and its faces survive the 16-bit index buffer unchanged |
| `Utils.SphereIndicesRoundTrip` | src/jolt/utils.ts:151-156 | a sphere with at most 65536 vertices flattened into the index buffer and converted back gives the same faces |
| `Utils.FillPositions` | src/jolt/utils.ts:141-148 | the position array is the settings' vertex positions flattened into x, y, z triples |
| `Utils.FillIndices` | src/jolt/utils.ts:151-156 | the index array is the faces' slots in order, each kept modulo 2^16 |
| `Utils.CreateGeometryFromSoftBodySettings` | src/jolt/utils.ts:127-164 | a fresh geometry whose position and index arrays are those flattenings; its vertex count is the settings' vertex count; normals are computed once |
| `Utils.PushConvertedVertices` | src/jolt/utils.ts:176-185 | one vertex per position triple, in order, with inverse mass 1 |
| `Utils.AddIndexedFaces` | src/jolt/utils.ts:188-194 | the faces are the index array read in triples, with a missing trailing slot read as 0 |
| `Utils.AddSequentialFaces` | src/jolt/utils.ts:196-201 | the faces are `(3k, 3k+1, 3k+2)` for `ceil(count / 3)` values of k |
| `Utils.CreateSoftBodySettingsFromGeometry` | src/jolt/utils.ts:167-217 | the settings hold the converted vertices, the indexed or sequential faces, and all three passes at the given compliance; only the settings object stays live |
| `SphereTopology.SphereVertexCount` | src/jolt/utils.ts:57-76 | the sphere has `2 + (numTheta - 2) * numPhi` vertices, the number `vertex_index` assumes |
| `SphereTopology.SphereVertexAt` | src/jolt/utils.ts:79-83 | the vertex at `vertex_index(theta, phi)` is ring `theta`'s point at segment `phi` |
| `SphereTopology.PoleSlots` | src/jolt/utils.ts:57-83 | `vertex_index` maps polar step 0 to slot 0 (the top pole) and the last polar step to slot 1 (the bottom pole) |
| `SphereTopology.VertexIndexInRange` | src/jolt/utils.ts:79-83 | every `vertex_index` of a valid polar step and segment names an existing vertex |
| `SphereTopology.SphereFaceCount` | src/jolt/utils.ts:86-107 | the sphere has `numPhi * (2 * numTheta - 4)` faces |
| `SphereTopology.SphereFaceAt` | src/jolt/utils.ts:88-106 | where each band face, each second band face and each closing face sits in the face list, and its three slots |
| `SphereTopology.SphereFacesWithin` | src/jolt/utils.ts:86-107 | every face slot names an existing vertex and every face has material 0 |
| `Layout.UnflattenFlatten` | src/jolt/utils.ts:141-148 | reading a flattened vertex list back as a position attribute gives the list |
| `Layout.FlattenUnflatten` | src/jolt/utils.ts:176-185 | flattening what was read back gives the array, up to a trailing partial triple |
| `Layout.ConvertedVerticesAre` | src/jolt/utils.ts:176-185 | the converter's vertices are the attribute's vertices, each with inverse mass 1 |
| `Layout.IndexedFlattenIndices` | src/jolt/utils.ts:151-156 | flattening faces into the index buffer and converting them back gives the same faces when every slot fits in 16 bits |
| `Layout.IndexedFlattenIndicesWraps` | src/jolt/utils.ts:151-156 | one slot past 16 bits and that round trip fails |
| `Layout.SequentialFacesWithin` | src/jolt/utils.ts:196-201 | unindexed faces all name existing vertices if and only if the vertex count is a multiple of three |
| `Layout.IndexedFacesWithin` | src/jolt/utils.ts:188-194 | in-range index values give in-range faces; a trailing partial triple is completed with slot 0 |
| `Provider.ClampDelta` | src/jolt/PhysicsProvider.tsx:139 | the step length is at most 1/30 s and at most the frame time, and is one of the two |
| `Provider.CollisionSteps` | src/jolt/PhysicsProvider.tsx:140 | one or two collision steps |
| `Provider.FrameSchedule` | src/jolt/PhysicsProvider.tsx:134-143 | a frame asks for at most 1/30 s; a frame no longer than that is passed on unchanged; it is split in two exactly when longer than 1/55 s; no collision step covers more than 1/55 s |
| `Provider.Runtime.Acquire` | src/jolt/PhysicsProvider.tsx:53-59 | the loader, or the bundled one when absent, is called only when no engine promise exists, with memory growth and 128 MiB; every later caller gets the first engine |
| `Provider.InitThenTeardownBalanced` | src/jolt/PhysicsProvider.tsx:68-121 | after one initialisation and its cleanup, each of the seven native objects it allocated has been allocated once and released once |
| `Provider.PhysicsProvider.Render` | src/jolt/PhysicsProvider.tsx:145-158 | children get a context exactly when the provider is ready; the context's body interface is its physics system's |
| `Provider.PhysicsProvider.Mount` | src/jolt/PhysicsProvider.tsx:49-61 | the effect marks itself mounted and awaits the process-wide engine, calling the loader only if none exists |
| `Provider.PhysicsProvider.Resolve` | src/jolt/PhysicsProvider.tsx:61-103 | after the await, an unmounted provider does nothing; otherwise it appends the initialisation's calls, leaves the interface and the three tables live, and becomes ready with the world's body interface, which is alive |
| `Provider.PhysicsProvider.Unmount` | src/jolt/PhysicsProvider.tsx:108-121 | the cleanup destroys the interface and then the three tables, or nothing when there is no interface; afterwards the interface is not live and no body interface of the engine is alive |
| `Provider.PhysicsProvider.UnmountEarly` | src/jolt/PhysicsProvider.tsx:108-113 | a cleanup before the engine arrived only clears the mounted flag |
| `Provider.PhysicsProvider.Frame` | src/jolt/PhysicsProvider.tsx:134-143 | with an interface, the provider steps the world once by the clamped time in one or two collision steps; without one it does nothing |
| `Provider.BuildInterface` | src/jolt/PhysicsProvider.tsx:68-88 | the settings with the five capacities and the three tables, the interface built from them, and the settings released right after |
| `Provider.UnmountBeforeResolve` | src/jolt/PhysicsProvider.tsx:49-62 | a provider unmounted before the engine arrives never initialises and never renders its children |
| `RigidBodies.MountThenUnmount` | src/jolt/RigidBody.tsx:44-85 | a mount and its cleanup leave the body created once, removed, then destroyed once, and every temporary allocated once and released once |
| `RigidBodies.RigidBody.MountTemps` | src/jolt/RigidBody.tsx:27-33 | two fresh reusable temporaries are allocated |
| `RigidBodies.RigidBody.UnmountTemps` | src/jolt/RigidBody.tsx:34-41 | the temporaries are released once and forgotten; a second cleanup does nothing |
| `RigidBodies.RigidBody.MountBody` | src/jolt/RigidBody.tsx:44-77 | without a body interface nothing happens; otherwise the settings get the component's pose, the body is created and added with activation, the wrappers and settings are released, and the body sits in the world at that pose |
| `RigidBodies.RigidBody.UnmountBody` | src/jolt/RigidBody.tsx:79-85 | the body is removed, then destroyed, then forgotten; without a body nothing happens |
| `RigidBodies.RigidBody.SetProps` | src/jolt/RigidBody.tsx:16-17 | new position or rotation props change only the props: the body keeps its identifier, and the engine and the body interface (so the body's pose) are unchanged; the props are not dependencies of the body effect (line 86) |
| `RigidBodies.RigidBody.Frame` | src/jolt/RigidBody.tsx:88-112 | with a body, a group and temporaries the group takes the body's current position and rotation; otherwise nothing changes |
| `SoftBodies.PairsAt` | src/jolt/SoftBody.tsx:53-57 | each vertex copy is allocated and then released right after its one use, before the next copy |
| `SoftBodies.CopiesReleased` | src/jolt/SoftBody.tsx:53-57 | in a sound log every vertex copy is allocated once, released once and no longer live |
| `SoftBodies.FrameLockBalanced` | src/jolt/SoftBody.tsx:39-64 | a frame's lock is allocated once and destroyed once, and released in between exactly when it succeeded |
| `SoftBodies.Softbody.Mount` | src/jolt/SoftBody.tsx:16-24 | with all inputs present and a body created, the body is added with activation and remembered; otherwise nothing happens |
| `SoftBodies.Softbody.Unmount` | src/jolt/SoftBody.tsx:26-32 | the body is removed, then destroyed, then forgotten; without a body nothing happens |
| `SoftBodies.Softbody.Frame` | src/jolt/SoftBody.tsx:35-65 | the lock succeeds exactly when the body exists; when the attribute's length is three times the body's vertex count the attribute becomes the body's vertices flattened, flagged for upload, with normals recomputed; the lock is always destroyed |
| `SoftBodies.CopyVertices` | src/jolt/SoftBody.tsx:53-57 | the attribute holds the vertex positions flattened, each through one short-lived copy |

## Left out

- The React scheduler, the worker threads and the page's cross-origin isolation headers. Effects are method calls in the order React makes them.
- `usePhysics` throwing outside a provider (src/jolt/PhysicsProvider.tsx:23-27). The components are constructed with the context's fields, and `Render` states when a context exists.
- Several providers sharing the one engine module, whose `interface` property the last one to initialise overwrites. The model has one provider per engine.
- Free-memory logging before initialisation and after cleanup: it is console output only.
- The simulation itself. `Step` takes the new poses and vertex positions as function parameters.
- Float32 and float64 rounding, and the normals that `computeVertexNormals` computes. Only the call is counted.
- The trigonometry of `setFromSphericalCoords`: sphere points come from an uninterpreted parameter.
- The engine passes `CreateConstraints`, `CalculateEdgeLengths`, `CalculateVolumeConstraintVolumes` and `Optimize` are recorded in order but not executed.
  - The model assumes these passes add and reorder constraints, and leave the vertex and face lists as pushed.
  - The constraints themselves are not modelled.
- The engine's vertex size and heap layout used by `vertexSize`: the flattener reads the vertex list directly.
- Whether destroying the broad-phase layer helpers after mapping them is safe inside the engine. Only the allocations and releases are recorded.
- Symmetry of `EnableCollision` in the engine's table. The table records the pairs as given.
- Exceptions swallowed in the soft-body frame (src/jolt/SoftBody.tsx:61):
  - A body that is not a soft body, and a geometry without a position attribute, are both modelled as "nothing written, lock still released".
  - A partial copy interrupted half-way is not modelled.
- `RigidBodies.RigidBody.MountBody`: when `CreateBody` returns null, the source throws at `GetID`.
  - The model sets a crash flag and keeps the three leaked temporaries live.
  - React's error boundary is not modelled.
- The default value of the engine temporaries (`new jolt.RVec3()`, `new jolt.Quat()`) is not modelled. Every read of them follows a write.
- `Three.PositionAttribute`: the model only builds position attributes whose array length is a multiple of three, so `count` is whole.
  - The source's fractional `count` for other lengths is captured only through the soft-body count check.
  - That check is stated as "array length equals three times the vertex count".
- `Provider.PhysicsProvider.Unmount` requires the interface and the three tables to be live.
  - The cleanup does not clear the engine module's `interface` property.
  - Two cleanups without a new initialisation in between would destroy the same interface twice (for example, a loader change followed by an unmount before the new `init` resumes).
  - The model excludes that sequence rather than modelling a double release.
- `Provider.CollisionSteps`: its own contract states only that there are one or two steps. The "two exactly when longer than 1/55 s" direction is `Provider.FrameSchedule`.
- `Utils.CreateSoftBodySettingsFromGeometry` requires a position attribute.
  - On a geometry without one, the source throws a `TypeError` at `posAttr.count` (src/jolt/utils.ts:178).
  - By then it has allocated `sharedSettings` (src/jolt/utils.ts:171) and the vertex record (src/jolt/utils.ts:175), and both leak.
  - That path and its leaks are not modelled.
- The loader's own work (fetching and instantiating the WebAssembly module): the promise settles to a fresh engine.
