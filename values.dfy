/**
 * Value types shared by the engine side and the render side: vectors,
 * quaternions, poses, the engine's soft-body vertex and face records, and the
 * fixed-width integers that the WebAssembly boundary and typed arrays impose.
 * Coordinates are exact reals: float32 and float64 rounding is not modelled.
 */
module Values {

  datatype Vec3 = Vec3(x: real, y: real, z: real)

  /** A quaternion in (x, y, z, w) order. */
  datatype Rotation = Rotation(x: real, y: real, z: real, w: real)

  datatype Pose = Pose(position: Vec3, rotation: Rotation)

  const Zero := Vec3(0.0, 0.0, 0.0)
  const Identity := Rotation(0.0, 0.0, 0.0, 1.0)

  /** Component `c` (0 = x, 1 = y, 2 = z) of a vector. */
  function Component(v: Vec3, c: nat): real
    requires c < 3
  {
    if c == 0 then v.x else if c == 1 then v.y else v.z
  }

  const TWO_TO_16 := 0x1_0000
  const TWO_TO_32 := 0x1_0000_0000

  type U16 = x: int | 0 <= x < TWO_TO_16
  type U32 = x: int | 0 <= x < TWO_TO_32

  /**
   * An integer passed to an unsigned 32-bit engine parameter: the WebAssembly
   * boundary keeps it modulo 2^32 (Dafny's `%` never yields a negative value,
   * as the conversion requires).
   */
  function ToUint32(x: int): (r: U32)
    ensures 0 <= x < TWO_TO_32 ==> r == x
    ensures (r - x) % TWO_TO_32 == 0
  {
    x % TWO_TO_32
  }

  /** An integer stored into a `Uint16Array` slot: kept modulo 2^16. */
  function ToUint16(x: int): (r: U16)
    ensures 0 <= x < TWO_TO_16 ==> r == x
    ensures (r - x) % TWO_TO_16 == 0
  {
    x % TWO_TO_16
  }

  /** One entry of the engine's soft-body vertex list (`SoftBodySharedSettings::Vertex`). */
  datatype Vertex = Vertex(position: Vec3, invMass: real)

  /** One entry of the engine's soft-body face list: three vertex slots and a material index. */
  datatype Face = Face(v0: U32, v1: U32, v2: U32, material: U32) {
    /** `get_mVertex(k)`. */
    function Slot(k: nat): U32
      requires k < 3
    {
      if k == 0 then v0 else if k == 1 then v1 else v2
    }
  }

  /** The value of `position` for each vertex of a list. */
  function Positions(vs: seq<Vertex>): (ps: seq<Vec3>)
    ensures |ps| == |vs| && forall i :: 0 <= i < |vs| ==> ps[i] == vs[i].position
  {
    seq(|vs|, i requires 0 <= i < |vs| => vs[i].position)
  }

  /** A face the way the bridge builds one: three slots passed as unsigned 32-bit, material 0. */
  function Triangle(a: int, b: int, c: int): Face {
    Face(ToUint32(a), ToUint32(b), ToUint32(c), 0)
  }

  predicate FaceWithin(f: Face, n: int) {
    f.v0 < n && f.v1 < n && f.v2 < n
  }

  /** Every slot of every face names one of `n` vertices. */
  predicate FacesWithin(fs: seq<Face>, n: int) {
    forall i :: 0 <= i < |fs| ==> FaceWithin(fs[i], n)
  }

  /** Every face has the default material 0. */
  predicate Untextured(fs: seq<Face>) {
    forall i :: 0 <= i < |fs| ==> fs[i].material == 0
  }

  lemma UnsignedNotLarger(x: int)
    requires x >= 0
    ensures ToUint32(x) <= x
  {
    if x >= TWO_TO_32 {
      assert ToUint32(x) < TWO_TO_32;
    }
  }

  lemma TriangleWithin(a: int, b: int, c: int, n: int)
    requires 0 <= a < n && 0 <= b < n && 0 <= c < n
    ensures FaceWithin(Triangle(a, b, c), n)
  {
    UnsignedNotLarger(a);
    UnsignedNotLarger(b);
    UnsignedNotLarger(c);
  }
}
