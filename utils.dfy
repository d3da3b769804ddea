/**
 * The bridge's helpers (`src/jolt/utils.ts`): collision-layer setup, the
 * wrappers for engine vectors and quaternions, the procedural sphere
 * generator, and the two translators between engine soft-body settings and
 * render geometry.
 *
 * Each method is proved against the pure description in `SphereTopology` or
 * `Layout`, and states the exact sequence of native allocations and releases
 * it makes.
 */
module Utils {
  import opened Ledger
  import opened Values
  import opened Jolt
  import opened SphereTopology
  import opened Layout
  import opened Three

  const LAYER_NON_MOVING: nat := 0
  const LAYER_MOVING: nat := 1
  const NUM_OBJECT_LAYERS: nat := 2
  const NUM_BROAD_PHASE_LAYERS: nat := 2
  const BP_LAYER_NON_MOVING: nat := 0
  const BP_LAYER_MOVING: nat := 1

  /** The object-layer pairs the provider enables: moving bodies hit everything, static never hits static. */
  const ENABLED_PAIRS: set<(nat, nat)> := {(LAYER_NON_MOVING, LAYER_MOVING), (LAYER_MOVING, LAYER_MOVING)}

  /** The object-layer to broad-phase-layer table: layer `i` goes to broad-phase layer `i`. */
  const LAYER_MAPPING: map<nat, nat> := map[LAYER_NON_MOVING := BP_LAYER_NON_MOVING, LAYER_MOVING := BP_LAYER_MOVING]

  lemma CollisionTable()
    ensures (LAYER_NON_MOVING, LAYER_NON_MOVING) !in ENABLED_PAIRS
    ensures (LAYER_NON_MOVING, LAYER_MOVING) in ENABLED_PAIRS && (LAYER_MOVING, LAYER_MOVING) in ENABLED_PAIRS
    ensures forall p :: p in ENABLED_PAIRS ==> p.0 < NUM_OBJECT_LAYERS && p.1 < NUM_OBJECT_LAYERS
    ensures forall l :: l in LAYER_MAPPING ==> l < NUM_OBJECT_LAYERS && LAYER_MAPPING[l] == l
    ensures LAYER_MAPPING.Keys == {LAYER_NON_MOVING, LAYER_MOVING}
  {
  }

  /** `wrapVec3`: a new engine vector holding `(x, y, z)`. */
  method WrapVec3(jolt: Engine, x: real, y: real, z: real) returns (r: RVec3)
    requires jolt.Valid()
    modifies jolt`log, jolt`seen, jolt`live, jolt`bodies
    ensures jolt.Valid() && fresh(r) && r.value == Vec3(x, y, z)
    ensures jolt.log == old(jolt.log) + [New(r)] && jolt.live == old(jolt.live) + {r} && jolt.bodies == old(jolt.bodies)
  {
    r := new RVec3(Vec3(x, y, z));
    jolt.Register(r);
  }

  /** `wrapQuat`: a new engine quaternion holding `(x, y, z, w)`. */
  method WrapQuat(jolt: Engine, x: real, y: real, z: real, w: real) returns (r: Quat)
    requires jolt.Valid()
    modifies jolt`log, jolt`seen, jolt`live, jolt`bodies
    ensures jolt.Valid() && fresh(r) && r.value == Rotation(x, y, z, w)
    ensures jolt.log == old(jolt.log) + [New(r)] && jolt.live == old(jolt.live) + {r} && jolt.bodies == old(jolt.bodies)
  {
    r := new Quat(Rotation(x, y, z, w));
    jolt.Register(r);
  }

  /** The first half of `setupCollisionFiltering`: the pair table with `ENABLED_PAIRS`. */
  method NewObjectFilter(jolt: Engine) returns (objectFilter: ObjectLayerPairFilterTable)
    requires jolt.Valid()
    modifies jolt`log, jolt`seen, jolt`live, jolt`bodies
    ensures jolt.Valid() && jolt.bodies == old(jolt.bodies) && fresh(objectFilter)
    ensures objectFilter.numObjectLayers == NUM_OBJECT_LAYERS && objectFilter.enabled == ENABLED_PAIRS
    ensures jolt.log == old(jolt.log) + [New(objectFilter)] && jolt.live == old(jolt.live) + {objectFilter}
  {
    objectFilter := new ObjectLayerPairFilterTable(NUM_OBJECT_LAYERS);
    jolt.Register(objectFilter);
    objectFilter.EnableCollision(LAYER_NON_MOVING, LAYER_MOVING);
    objectFilter.EnableCollision(LAYER_MOVING, LAYER_MOVING);
  }

  /** The second half: the broad-phase table, filled from two short-lived layer values. */
  method NewBroadPhaseInterface(jolt: Engine)
    returns (bpInterface: BroadPhaseLayerInterfaceTable, ghost bpLayerNonMoving: BroadPhaseLayer, ghost bpLayerMoving: BroadPhaseLayer)
    requires jolt.Valid()
    modifies jolt`log, jolt`seen, jolt`live, jolt`bodies
    ensures jolt.Valid() && jolt.bodies == old(jolt.bodies) && fresh(bpInterface)
    ensures bpInterface.numObjectLayers == NUM_OBJECT_LAYERS && bpInterface.numBroadPhaseLayers == NUM_BROAD_PHASE_LAYERS
    ensures bpInterface.mapping == LAYER_MAPPING
    ensures jolt.log == old(jolt.log) + [New(bpInterface), New(bpLayerNonMoving), New(bpLayerMoving),
                                         Delete(bpLayerNonMoving), Delete(bpLayerMoving)]
    ensures jolt.live == old(jolt.live) + {bpInterface}
  {
    bpInterface := new BroadPhaseLayerInterfaceTable(NUM_OBJECT_LAYERS, NUM_BROAD_PHASE_LAYERS);
    jolt.Register(bpInterface);
    bpLayerNonMoving, bpLayerMoving := MapLayers(jolt, bpInterface);
  }

  /** The two broad-phase layer helpers: allocated, mapped from the object layer of the same number, released. */
  method MapLayers(jolt: Engine, bpInterface: BroadPhaseLayerInterfaceTable)
    returns (ghost bpLayerNonMoving: BroadPhaseLayer, ghost bpLayerMoving: BroadPhaseLayer)
    requires jolt.Valid() && bpInterface.mapping == map[]
    requires bpInterface.numObjectLayers == NUM_OBJECT_LAYERS && bpInterface.numBroadPhaseLayers == NUM_BROAD_PHASE_LAYERS
    modifies bpInterface, jolt`log, jolt`seen, jolt`live, jolt`bodies
    ensures jolt.Valid() && jolt.bodies == old(jolt.bodies) && jolt.live == old(jolt.live)
    ensures bpInterface.mapping == LAYER_MAPPING
    ensures jolt.log == old(jolt.log) + [New(bpLayerNonMoving), New(bpLayerMoving), Delete(bpLayerNonMoving), Delete(bpLayerMoving)]
  {
    var nonMoving := new BroadPhaseLayer(BP_LAYER_NON_MOVING);
    jolt.Register(nonMoving);
    var moving := new BroadPhaseLayer(BP_LAYER_MOVING);
    jolt.Register(moving);
    bpInterface.MapObjectToBroadPhaseLayer(LAYER_NON_MOVING, nonMoving);
    bpInterface.MapObjectToBroadPhaseLayer(LAYER_MOVING, moving);
    jolt.Destroy(nonMoving);
    jolt.Destroy(moving);
    bpLayerNonMoving, bpLayerMoving := nonMoving, moving;
  }

  /**
   * `setupCollisionFiltering`: a pair table with exactly `ENABLED_PAIRS`, a
   * broad-phase table with `LAYER_MAPPING`, and the combined filter over the
   * two. The two broad-phase layer values are released as soon as they have
   * been copied into the table; the three tables stay live for the caller.
   */
  method SetupCollisionFiltering(jolt: Engine)
    returns (objectFilter: ObjectLayerPairFilterTable, bpInterface: BroadPhaseLayerInterfaceTable,
             objectVsBroadphaseFilter: ObjectVsBroadPhaseLayerFilterTable,
             ghost bpLayerNonMoving: BroadPhaseLayer, ghost bpLayerMoving: BroadPhaseLayer)
    requires jolt.Valid()
    modifies jolt`log, jolt`seen, jolt`live, jolt`bodies
    ensures jolt.Valid() && jolt.bodies == old(jolt.bodies)
    ensures fresh(objectFilter) && fresh(bpInterface) && fresh(objectVsBroadphaseFilter)
    ensures objectFilter.numObjectLayers == NUM_OBJECT_LAYERS && objectFilter.enabled == ENABLED_PAIRS
    ensures bpInterface.numObjectLayers == NUM_OBJECT_LAYERS && bpInterface.numBroadPhaseLayers == NUM_BROAD_PHASE_LAYERS
    ensures bpInterface.mapping == LAYER_MAPPING
    ensures objectVsBroadphaseFilter.bpInterface == bpInterface && objectVsBroadphaseFilter.objectFilter == objectFilter
    ensures objectVsBroadphaseFilter.numBroadPhaseLayers == NUM_BROAD_PHASE_LAYERS
    ensures objectVsBroadphaseFilter.numObjectLayers == NUM_OBJECT_LAYERS
    ensures jolt.log == old(jolt.log) + [New(objectFilter), New(bpInterface), New(bpLayerNonMoving), New(bpLayerMoving),
                                         Delete(bpLayerNonMoving), Delete(bpLayerMoving), New(objectVsBroadphaseFilter)]
    ensures jolt.live == old(jolt.live) + {objectFilter, bpInterface, objectVsBroadphaseFilter}
  {
    ghost var log0 := jolt.log;
    objectFilter := NewObjectFilter(jolt);
    bpInterface, bpLayerNonMoving, bpLayerMoving := NewBroadPhaseInterface(jolt);
    objectVsBroadphaseFilter := new ObjectVsBroadPhaseLayerFilterTable(bpInterface, NUM_BROAD_PHASE_LAYERS,
                                                                        objectFilter, NUM_OBJECT_LAYERS);
    jolt.Register(objectVsBroadphaseFilter);
    assert jolt.log == log0 + [New(objectFilter)]
                            + [New(bpInterface), New(bpLayerNonMoving), New(bpLayerMoving),
                               Delete(bpLayerNonMoving), Delete(bpLayerMoving)]
                            + [New(objectVsBroadphaseFilter)];
  }

  // ---------------------------------------------------------------------------
  // The procedural sphere.

  const DEFAULT_NUM_THETA := 10
  const DEFAULT_NUM_PHI := 20
  const DEFAULT_COMPLIANCE := 0.0001
  /** The sphere's bend compliance, fixed regardless of `compliance`. */
  const SPHERE_BEND_COMPLIANCE := 0.001

  /**
   * The passes every generated settings object goes through, in order. They
   * add and reorder constraints and leave the vertex and face lists as pushed,
   * so only their order is recorded.
   */
  function Passes(compliance: real, shearCompliance: real, bendCompliance: real): seq<Pass> {
    [CreateConstraints([Attributes(compliance, shearCompliance, bendCompliance)], Dihedral),
     CalculateEdgeLengths, CalculateVolumeConstraintVolumes, Optimize]
  }

  /** The inner vertex loop for ring `theta`: pushes the ring's vertices in segment order. */
  method PushRing(sharedSettings: SoftBodySharedSettings, v: SoftBodySharedSettingsVertex,
                  at: Spherical, numTheta: int, numPhi: int, theta: nat)
    requires 1 <= theta < numTheta - 1 && v.invMass == 1.0
    modifies sharedSettings, v
    ensures sharedSettings.vertices == old(sharedSettings.vertices) + Ring(numTheta, numPhi, at, theta)
    ensures sharedSettings.faces == old(sharedSettings.faces) && sharedSettings.passes == old(sharedSettings.passes)
    ensures v.invMass == 1.0
  {
    ghost var before := sharedSettings.vertices;
    var phi := 0;
    while phi < numPhi
      invariant 0 <= phi <= Segments(numPhi)
      invariant sharedSettings.vertices == before + Ring(numTheta, numPhi, at, theta)[..phi]
      invariant v.invMass == 1.0
      invariant sharedSettings.faces == old(sharedSettings.faces) && sharedSettings.passes == old(sharedSettings.passes)
    {
      v.position := at(theta as real / (numTheta - 1) as real, phi as real / numPhi as real);
      sharedSettings.PushVertex(v);
      assert Ring(numTheta, numPhi, at, theta)[..phi + 1]
          == Ring(numTheta, numPhi, at, theta)[..phi] + [RingVertex(numTheta, numPhi, at, theta, phi)];
      phi := phi + 1;
    }
    assert Ring(numTheta, numPhi, at, theta)[..phi] == Ring(numTheta, numPhi, at, theta);
  }

  /** Step 1 of the generator: the two poles, then the rings, through one reused vertex record. */
  method PushSphereVertices(sharedSettings: SoftBodySharedSettings, v: SoftBodySharedSettingsVertex,
                            at: Spherical, numTheta: int, numPhi: int)
    requires sharedSettings.vertices == [] && v.invMass == 1.0
    modifies sharedSettings, v
    ensures sharedSettings.vertices == SphereVertices(numTheta, numPhi, at)
    ensures sharedSettings.faces == old(sharedSettings.faces) && sharedSettings.passes == old(sharedSettings.passes)
  {
    v.position := at(0.0, 0.0);
    sharedSettings.PushVertex(v);
    v.position := at(1.0, 0.0);
    sharedSettings.PushVertex(v);
    var poles := [At(at, 0.0, 0.0), At(at, 1.0, 0.0)];

    var theta := 1;
    while theta < numTheta - 1
      invariant 1 <= theta <= Rings(numTheta) + 1
      invariant sharedSettings.vertices == poles + RingsUpTo(numTheta, numPhi, at, theta - 1)
      invariant v.invMass == 1.0
      invariant sharedSettings.faces == old(sharedSettings.faces) && sharedSettings.passes == old(sharedSettings.passes)
    {
      PushRing(sharedSettings, v, at, numTheta, numPhi, theta);
      theta := theta + 1;
    }
  }

  /** The faces of column `phi`: the inner loop over `theta`, then the closing face. */
  method AddColumn(sharedSettings: SoftBodySharedSettings, f: SoftBodySharedSettingsFace,
                   numTheta: int, numPhi: int, phi: nat)
    requires phi < numPhi && f.material == 0
    modifies sharedSettings, f
    ensures sharedSettings.faces == old(sharedSettings.faces) + ColumnFaces(numTheta, numPhi, phi)
    ensures sharedSettings.vertices == old(sharedSettings.vertices) && sharedSettings.passes == old(sharedSettings.passes)
    ensures f.material == 0
  {
    ghost var before := sharedSettings.faces;
    var theta := 0;
    while theta < numTheta - 2
      invariant 0 <= theta <= Rings(numTheta)
      invariant sharedSettings.faces == before + StripFaces(numTheta, numPhi, phi, theta)
      invariant f.material == 0
      invariant sharedSettings.vertices == old(sharedSettings.vertices) && sharedSettings.passes == old(sharedSettings.passes)
    {
      f.SetVertex(0, VertexIndex(numTheta, numPhi, theta, phi));
      f.SetVertex(1, VertexIndex(numTheta, numPhi, theta + 1, phi));
      f.SetVertex(2, VertexIndex(numTheta, numPhi, theta + 1, phi + 1));
      sharedSettings.AddFace(f);
      if theta > 0 {
        f.SetVertex(1, VertexIndex(numTheta, numPhi, theta + 1, phi + 1));
        f.SetVertex(2, VertexIndex(numTheta, numPhi, theta, phi + 1));
        sharedSettings.AddFace(f);
      }
      theta := theta + 1;
    }
    f.SetVertex(0, VertexIndex(numTheta, numPhi, numTheta - 2, phi + 1));
    f.SetVertex(1, VertexIndex(numTheta, numPhi, numTheta - 2, phi));
    f.SetVertex(2, VertexIndex(numTheta, numPhi, numTheta - 1, 0));
    sharedSettings.AddFace(f);
  }

  /** Step 2 of the generator: all columns, through one reused face record. */
  method AddSphereFaces(sharedSettings: SoftBodySharedSettings, f: SoftBodySharedSettingsFace, numTheta: int, numPhi: int)
    requires sharedSettings.faces == [] && f.material == 0
    modifies sharedSettings, f
    ensures sharedSettings.faces == SphereFaces(numTheta, numPhi)
    ensures sharedSettings.vertices == old(sharedSettings.vertices) && sharedSettings.passes == old(sharedSettings.passes)
  {
    var phi := 0;
    while phi < numPhi
      invariant 0 <= phi <= Segments(numPhi)
      invariant sharedSettings.faces == ColumnsUpTo(numTheta, numPhi, phi)
      invariant f.material == 0
      invariant sharedSettings.vertices == old(sharedSettings.vertices) && sharedSettings.passes == old(sharedSettings.passes)
    {
      AddColumn(sharedSettings, f, numTheta, numPhi, phi);
      phi := phi + 1;
    }
  }

  /** Step 1 with its vertex record: allocated, used for every push, released. */
  method SphereVerticesWithRecord(jolt: Engine, sharedSettings: SoftBodySharedSettings,
                                  at: Spherical, numTheta: int, numPhi: int)
    returns (ghost vertex: object)
    requires jolt.Valid() && sharedSettings.vertices == []
    modifies sharedSettings, jolt`log, jolt`seen, jolt`live, jolt`bodies
    ensures jolt.Valid() && jolt.bodies == old(jolt.bodies) && jolt.live == old(jolt.live)
    ensures jolt.log == old(jolt.log) + [New(vertex), Delete(vertex)]
    ensures sharedSettings.vertices == SphereVertices(numTheta, numPhi, at)
    ensures sharedSettings.faces == old(sharedSettings.faces) && sharedSettings.passes == old(sharedSettings.passes)
  {
    var v := new SoftBodySharedSettingsVertex();
    jolt.Register(v);
    PushSphereVertices(sharedSettings, v, at, numTheta, numPhi);
    jolt.Destroy(v);
    vertex := v;
  }

  /** Step 2 with its face record. */
  method SphereFacesWithRecord(jolt: Engine, sharedSettings: SoftBodySharedSettings, numTheta: int, numPhi: int)
    returns (ghost face: object)
    requires jolt.Valid() && sharedSettings.faces == []
    modifies sharedSettings, jolt`log, jolt`seen, jolt`live, jolt`bodies
    ensures jolt.Valid() && jolt.bodies == old(jolt.bodies) && jolt.live == old(jolt.live)
    ensures jolt.log == old(jolt.log) + [New(face), Delete(face)]
    ensures sharedSettings.faces == SphereFaces(numTheta, numPhi)
    ensures sharedSettings.vertices == old(sharedSettings.vertices) && sharedSettings.passes == old(sharedSettings.passes)
  {
    var f := new SoftBodySharedSettingsFace(0, 0, 0, 0);
    jolt.Register(f);
    AddSphereFaces(sharedSettings, f, numTheta, numPhi);
    jolt.Destroy(f);
    face := f;
  }

  /** Step 3: one attribute record for all vertices, then the engine's passes. */
  method RunPasses(jolt: Engine, sharedSettings: SoftBodySharedSettings,
                   compliance: real, shearCompliance: real, bendCompliance: real)
    returns (ghost attr: object)
    requires jolt.Valid() && sharedSettings.passes == []
    modifies sharedSettings, jolt`log, jolt`seen, jolt`live, jolt`bodies
    ensures jolt.Valid() && jolt.bodies == old(jolt.bodies) && jolt.live == old(jolt.live)
    ensures jolt.log == old(jolt.log) + [New(attr), Delete(attr)]
    ensures sharedSettings.passes == Passes(compliance, shearCompliance, bendCompliance)
    ensures sharedSettings.vertices == old(sharedSettings.vertices) && sharedSettings.faces == old(sharedSettings.faces)
  {
    var a := new SoftBodySharedSettingsVertexAttributes();
    jolt.Register(a);
    a.compliance := compliance;
    a.shearCompliance := shearCompliance;
    a.bendCompliance := bendCompliance;
    sharedSettings.CreateConstraintsFrom(a, Dihedral);
    sharedSettings.Run(CalculateEdgeLengths);
    sharedSettings.Run(CalculateVolumeConstraintVolumes);
    sharedSettings.Run(Optimize);
    jolt.Destroy(a);
    attr := a;
  }

  /**
   * `createSoftBodySphereSettings(jolt, radius, numTheta, numPhi, compliance)`,
   * with `at` the point `setFromSphericalCoords(radius, ...)` yields. The new
   * settings hold exactly the vertices and faces `SphereTopology` describes,
   * in push order; the reused vertex, face and attribute records are each
   * allocated once and released once.
   */
  method CreateSoftBodySphereSettings(jolt: Engine, at: Spherical, numTheta: int, numPhi: int, compliance: real)
    returns (sharedSettings: SoftBodySharedSettings, ghost vertex: object, ghost face: object, ghost attr: object)
    requires jolt.Valid()
    modifies jolt`log, jolt`seen, jolt`live, jolt`bodies
    ensures jolt.Valid() && jolt.bodies == old(jolt.bodies) && fresh(sharedSettings)
    ensures sharedSettings.vertices == SphereVertices(numTheta, numPhi, at)
    ensures sharedSettings.faces == SphereFaces(numTheta, numPhi)
    ensures sharedSettings.passes == Passes(compliance, compliance, SPHERE_BEND_COMPLIANCE)
    ensures jolt.log == old(jolt.log) + [New(sharedSettings), New(vertex), Delete(vertex),
                                         New(face), Delete(face), New(attr), Delete(attr)]
    ensures jolt.live == old(jolt.live) + {sharedSettings}
  {
    ghost var log0 := jolt.log;
    sharedSettings := new SoftBodySharedSettings();
    jolt.Register(sharedSettings);
    vertex := SphereVerticesWithRecord(jolt, sharedSettings, at, numTheta, numPhi);
    face := SphereFacesWithRecord(jolt, sharedSettings, numTheta, numPhi);
    attr := RunPasses(jolt, sharedSettings, compliance, compliance, SPHERE_BEND_COMPLIANCE);
    assert jolt.log == log0 + [New(sharedSettings)] + [New(vertex), Delete(vertex)]
                            + [New(face), Delete(face)] + [New(attr), Delete(attr)];
  }

  /**
   * With the default sizes (10 polar steps, 20 segments) the sphere has 162
   * vertices and 320 faces, every face index fits the 16-bit index buffer,
   * and flattening the faces and reading them back gives them unchanged.
   */
  lemma DefaultSphereFitsIndexBuffer(numTheta: int, numPhi: int)
    requires numTheta == DEFAULT_NUM_THETA && numPhi == DEFAULT_NUM_PHI
    ensures VertexCount(numTheta, numPhi) == 162
    ensures |SphereFaces(numTheta, numPhi)| == 320
    ensures IndexedFaces(FlattenIndices(SphereFaces(numTheta, numPhi))) == SphereFaces(numTheta, numPhi)
  {
    assert VertexCount(numTheta, numPhi) == 2 + 8 * 20;
    SphereFaceCount(numTheta, numPhi);
    assert |SphereFaces(numTheta, numPhi)| == 20 * 16;
    SphereIndicesRoundTrip(numTheta, numPhi);
  }

  /** A sphere with at most 65536 vertices survives the 16-bit index buffer. */
  lemma SphereIndicesRoundTrip(numTheta: int, numPhi: int)
    requires numTheta >= 3 && numPhi >= 1 && VertexCount(numTheta, numPhi) <= TWO_TO_16
    ensures IndexedFaces(FlattenIndices(SphereFaces(numTheta, numPhi))) == SphereFaces(numTheta, numPhi)
  {
    var fs := SphereFaces(numTheta, numPhi);
    SphereFacesWithin(numTheta, numPhi);
    assert forall f :: 0 <= f < |fs| ==> FaceWithin(fs[f], VertexCount(numTheta, numPhi));
    IndexedFlattenIndices(fs);
  }

  // ---------------------------------------------------------------------------
  // Settings to geometry.

  /** The vertex loop of the flattener: a new `Float32Array` of `3 * n` entries. */
  method FillPositions(vertices: seq<Vertex>) returns (posArray: array<real>)
    ensures fresh(posArray) && posArray[..] == FlattenPositions(Positions(vertices))
  {
    var numVertices := |vertices|;
    var ps := Positions(vertices);
    posArray := new real[numVertices * 3](_ => 0.0);
    for i := 0 to numVertices
      invariant forall j :: 0 <= j < 3 * i ==> posArray[j] == FlattenPositions(ps)[j]
    {
      var pos := vertices[i].position;
      posArray[i * 3] := pos.x;
      posArray[i * 3 + 1] := pos.y;
      posArray[i * 3 + 2] := pos.z;
      FlattenPositionsAt(ps, i, 0);
      FlattenPositionsAt(ps, i, 1);
      FlattenPositionsAt(ps, i, 2);
    }
  }

  /** The face loop of the flattener: a new `Uint16Array` of `3 * m` entries. */
  method FillIndices(faces: seq<Face>) returns (indexArray: array<nat>)
    ensures fresh(indexArray) && indexArray[..] == FlattenIndices(faces)
  {
    var numFaces := |faces|;
    indexArray := new nat[numFaces * 3](_ => 0);
    for i := 0 to numFaces
      invariant forall j :: 0 <= j < 3 * i ==> indexArray[j] == FlattenIndices(faces)[j]
    {
      var f := faces[i];
      indexArray[i * 3] := ToUint16(f.Slot(0));
      indexArray[i * 3 + 1] := ToUint16(f.Slot(1));
      indexArray[i * 3 + 2] := ToUint16(f.Slot(2));
      FlattenIndicesAt(faces, i, 0);
      FlattenIndicesAt(faces, i, 1);
      FlattenIndicesAt(faces, i, 2);
    }
  }

  /**
   * `createGeometryFromSoftBodySettings`: a geometry whose position array is
   * the settings' vertex positions flattened, and whose 16-bit index array is
   * the settings' faces flattened; the normals are computed once.
   */
  method CreateGeometryFromSoftBodySettings(settings: SoftBodySharedSettings) returns (geometry: BufferGeometry)
    ensures fresh(geometry) && geometry.position != null && geometry.index != null
    ensures fresh(geometry.position) && fresh(geometry.position.data) && fresh(geometry.index) && fresh(geometry.index.data)
    ensures geometry.position.data[..] == FlattenPositions(Positions(settings.vertices))
    ensures geometry.index.data[..] == FlattenIndices(settings.faces)
    ensures geometry.position.Count() == |settings.vertices| && !geometry.position.needsUpdate
    ensures geometry.normalsComputed == 1
  {
    var posArray := FillPositions(settings.vertices);
    var indexArray := FillIndices(settings.faces);
    geometry := new BufferGeometry();
    geometry.position := new PositionAttribute(posArray);
    geometry.index := new IndexAttribute(indexArray);
    geometry.ComputeVertexNormals();
  }

  // ---------------------------------------------------------------------------
  // Geometry to settings.


  /** The converter's vertex loop: one push per position entry through a reused record with inverse mass 1. */
  method PushConvertedVertices(sharedSettings: SoftBodySharedSettings, v: SoftBodySharedSettingsVertex, data: seq<real>)
    requires sharedSettings.vertices == []
    modifies sharedSettings, v
    ensures sharedSettings.vertices == ConvertedVertices(data)
    ensures sharedSettings.faces == old(sharedSettings.faces) && sharedSettings.passes == old(sharedSettings.passes)
  {
    v.invMass := 1.0;
    for i := 0 to |data| / 3
      invariant sharedSettings.vertices == ConvertedVertices(data)[..i]
      invariant v.invMass == 1.0
      invariant sharedSettings.faces == old(sharedSettings.faces) && sharedSettings.passes == old(sharedSettings.passes)
    {
      v.position := Vec3(data[3 * i], data[3 * i + 1], data[3 * i + 2]);
      sharedSettings.PushVertex(v);
      assert Unflatten(data)[i] == v.position;
      assert ConvertedVertices(data)[..i + 1] == ConvertedVertices(data)[..i] + [ConvertedVertices(data)[i]];
    }
    assert ConvertedVertices(data)[..|data| / 3] == ConvertedVertices(data);
  }

  lemma TriplesStep(count: int, k: nat)
    ensures k < Triples(count) <==> 3 * k < count
  {
  }

  /** The indexed face loop: `for (i = 0; i < indexAttr.count; i += 3)`. */
  method AddIndexedFaces(sharedSettings: SoftBodySharedSettings, f: SoftBodySharedSettingsFace, idx: seq<int>)
    requires sharedSettings.faces == [] && f.material == 0
    modifies sharedSettings, f
    ensures sharedSettings.faces == IndexedFaces(idx)
    ensures sharedSettings.vertices == old(sharedSettings.vertices) && sharedSettings.passes == old(sharedSettings.passes)
  {
    var i, k := 0, 0;
    while i < |idx|
      invariant i == 3 * k && k <= Triples(|idx|)
      invariant sharedSettings.faces == IndexedFaces(idx)[..k]
      invariant f.material == 0
      invariant sharedSettings.vertices == old(sharedSettings.vertices) && sharedSettings.passes == old(sharedSettings.passes)
    {
      TriplesStep(|idx|, k);
      f.SetVertex(0, IndexAt(idx, i));
      f.SetVertex(1, IndexAt(idx, i + 1));
      f.SetVertex(2, IndexAt(idx, i + 2));
      sharedSettings.AddFace(f);
      assert IndexedFaces(idx)[..k + 1] == IndexedFaces(idx)[..k] + [IndexedFaces(idx)[k]];
      i, k := i + 3, k + 1;
    }
    TriplesStep(|idx|, k);
    assert IndexedFaces(idx)[..k] == IndexedFaces(idx);
  }

  /** The unindexed face loop: `for (i = 0; i < posAttr.count; i += 3)` with slots `i, i + 1, i + 2`. */
  method AddSequentialFaces(sharedSettings: SoftBodySharedSettings, f: SoftBodySharedSettingsFace, count: nat)
    requires sharedSettings.faces == [] && f.material == 0
    modifies sharedSettings, f
    ensures sharedSettings.faces == SequentialFaces(count)
    ensures sharedSettings.vertices == old(sharedSettings.vertices) && sharedSettings.passes == old(sharedSettings.passes)
  {
    var i, k := 0, 0;
    while i < count
      invariant i == 3 * k && k <= Triples(count)
      invariant sharedSettings.faces == SequentialFaces(count)[..k]
      invariant f.material == 0
      invariant sharedSettings.vertices == old(sharedSettings.vertices) && sharedSettings.passes == old(sharedSettings.passes)
    {
      TriplesStep(count, k);
      f.SetVertex(0, i);
      f.SetVertex(1, i + 1);
      f.SetVertex(2, i + 2);
      sharedSettings.AddFace(f);
      assert SequentialFaces(count)[..k + 1] == SequentialFaces(count)[..k] + [SequentialFaces(count)[k]];
      i, k := i + 3, k + 1;
    }
    TriplesStep(count, k);
    assert SequentialFaces(count)[..k] == SequentialFaces(count);
  }

  /** The converter's vertex step with its record. */
  method ConvertedVerticesWithRecord(jolt: Engine, sharedSettings: SoftBodySharedSettings, data: seq<real>)
    returns (ghost vertex: object)
    requires jolt.Valid() && sharedSettings.vertices == []
    modifies sharedSettings, jolt`log, jolt`seen, jolt`live, jolt`bodies
    ensures jolt.Valid() && jolt.bodies == old(jolt.bodies) && jolt.live == old(jolt.live)
    ensures jolt.log == old(jolt.log) + [New(vertex), Delete(vertex)]
    ensures sharedSettings.vertices == ConvertedVertices(data)
    ensures sharedSettings.faces == old(sharedSettings.faces) && sharedSettings.passes == old(sharedSettings.passes)
  {
    var v := new SoftBodySharedSettingsVertex();
    jolt.Register(v);
    PushConvertedVertices(sharedSettings, v, data);
    jolt.Destroy(v);
    vertex := v;
  }

  /** The converter's face step with its record: indexed when there is an index buffer, sequential otherwise. */
  method ConvertedFacesWithRecord(jolt: Engine, sharedSettings: SoftBodySharedSettings, index: IndexAttribute?, count: nat)
    returns (ghost face: object)
    requires jolt.Valid() && sharedSettings.faces == []
    modifies sharedSettings, jolt`log, jolt`seen, jolt`live, jolt`bodies
    ensures jolt.Valid() && jolt.bodies == old(jolt.bodies) && jolt.live == old(jolt.live)
    ensures jolt.log == old(jolt.log) + [New(face), Delete(face)]
    ensures sharedSettings.faces == if index != null then IndexedFaces(index.data[..]) else SequentialFaces(count)
    ensures sharedSettings.vertices == old(sharedSettings.vertices) && sharedSettings.passes == old(sharedSettings.passes)
  {
    var f := new SoftBodySharedSettingsFace(0, 0, 0, 0);
    jolt.Register(f);
    if index != null {
      AddIndexedFaces(sharedSettings, f, index.data[..]);
    } else {
      AddSequentialFaces(sharedSettings, f, count);
    }
    jolt.Destroy(f);
    face := f;
  }

  /**
   * `createSoftBodySettingsFromGeometry(jolt, geometry, compliance)`: one
   * vertex per position entry, in order, with inverse mass 1; faces read in
   * triples from the index buffer when there is one, else `(3k, 3k+1, 3k+2)`
   * for `ceil(count / 3)` faces; all three compliances set to `compliance`.
   */
  method CreateSoftBodySettingsFromGeometry(jolt: Engine, geometry: BufferGeometry, compliance: real)
    returns (sharedSettings: SoftBodySharedSettings, ghost vertex: object, ghost face: object, ghost attr: object)
    requires jolt.Valid() && geometry.position != null
    modifies jolt`log, jolt`seen, jolt`live, jolt`bodies
    ensures jolt.Valid() && jolt.bodies == old(jolt.bodies) && fresh(sharedSettings)
    ensures sharedSettings.vertices == ConvertedVertices(geometry.position.data[..])
    ensures sharedSettings.faces == if geometry.index != null then IndexedFaces(geometry.index.data[..])
                                    else SequentialFaces(geometry.position.Count())
    ensures sharedSettings.passes == Passes(compliance, compliance, compliance)
    ensures jolt.log == old(jolt.log) + [New(sharedSettings), New(vertex), Delete(vertex),
                                         New(face), Delete(face), New(attr), Delete(attr)]
    ensures jolt.live == old(jolt.live) + {sharedSettings}
  {
    ghost var log0 := jolt.log;
    sharedSettings, vertex, face := ConvertTopology(jolt, geometry.position, geometry.index);
    attr := RunPasses(jolt, sharedSettings, compliance, compliance, compliance);
    assert jolt.log == log0 + [New(sharedSettings), New(vertex), Delete(vertex), New(face), Delete(face)]
                            + [New(attr), Delete(attr)];
  }

  /** The converter's new settings object, its vertex step and its face step. */
  method ConvertTopology(jolt: Engine, posAttr: PositionAttribute, index: IndexAttribute?)
    returns (sharedSettings: SoftBodySharedSettings, ghost vertex: object, ghost face: object)
    requires jolt.Valid()
    modifies jolt`log, jolt`seen, jolt`live, jolt`bodies
    ensures jolt.Valid() && jolt.bodies == old(jolt.bodies) && fresh(sharedSettings)
    ensures jolt.log == old(jolt.log) + [New(sharedSettings), New(vertex), Delete(vertex), New(face), Delete(face)]
    ensures jolt.live == old(jolt.live) + {sharedSettings}
    ensures sharedSettings.vertices == ConvertedVertices(posAttr.data[..])
    ensures sharedSettings.faces == if index != null then IndexedFaces(index.data[..]) else SequentialFaces(posAttr.Count())
    ensures sharedSettings.passes == []
  {
    ghost var log0 := jolt.log;
    sharedSettings := new SoftBodySharedSettings();
    jolt.Register(sharedSettings);
    vertex := ConvertedVerticesWithRecord(jolt, sharedSettings, posAttr.data[..]);
    face := ConvertedFacesWithRecord(jolt, sharedSettings, index, posAttr.Count());
    assert jolt.log == log0 + [New(sharedSettings)] + [New(vertex), Delete(vertex)] + [New(face), Delete(face)];
  }
}
