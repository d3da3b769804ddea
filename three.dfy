/**
 * The render-side objects the bridge reads and writes: a scene-graph group
 * with a position and a quaternion, and a buffer geometry with a flat
 * position attribute and an optional index attribute.
 */
module Three {
  import opened Values

  /** A `THREE.Group`: only its transform matters here. */
  class Group {
    var position: Vec3
    var quaternion: Rotation

    constructor ()
      ensures position == Zero && quaternion == Identity
    {
      position, quaternion := Zero, Identity;
    }
  }

  /**
   * A position `BufferAttribute` whose `array` (here `data`) is a `Float32Array` with item size 3. The
   * model keeps attributes whose array length is a multiple of three, so
   * `count` is a whole number.
   */
  class PositionAttribute {
    const data: array<real>
    var needsUpdate: bool

    constructor (data: array<real>)
      requires data.Length % 3 == 0
      ensures this.data == data && !needsUpdate
    {
      this.data := data;
      needsUpdate := false;
    }

    /** `count`: the number of vertices. */
    function Count(): nat
      reads this
    {
      data.Length / 3
    }

    /** `setXYZ(i, x, y, z)`: overwrites the three entries of vertex `i` and nothing else. */
    method SetXYZ(i: nat, v: Vec3)
      requires i < Count()
      modifies data
      ensures data[..] == old(data[..])[3 * i := v.x][3 * i + 1 := v.y][3 * i + 2 := v.z]
    {
      data[3 * i] := v.x;
      data[3 * i + 1] := v.y;
      data[3 * i + 2] := v.z;
    }
  }

  /** An index `BufferAttribute` with item size 1 whose `array` (here `data`) is an unsigned typed array. */
  class IndexAttribute {
    const data: array<nat>

    constructor (data: array<nat>)
      ensures this.data == data
    {
      this.data := data;
    }
  }

  /** A `THREE.BufferGeometry`; `normalsComputed` counts the calls to `computeVertexNormals`. */
  class BufferGeometry {
    var position: PositionAttribute?
    var index: IndexAttribute?
    var normalsComputed: nat

    constructor ()
      ensures position == null && index == null && normalsComputed == 0
    {
      position, index, normalsComputed := null, null, 0;
    }

    /** The objects a write to this geometry's vertex data may touch. */
    ghost function Footprint(): set<object>
      reads this
    {
      {this} + if position != null then {position, position.data} else {}
    }

    /** `computeVertexNormals()`: the normals themselves are not modelled. */
    method ComputeVertexNormals()
      modifies this
      ensures position == old(position) && index == old(index) && normalsComputed == old(normalsComputed) + 1
    {
      normalsComputed := normalsComputed + 1;
    }
  }

  /** A `THREE.Mesh` and the geometry it draws. */
  class Mesh {
    var geometry: BufferGeometry

    constructor (geometry: BufferGeometry)
      ensures this.geometry == geometry
    {
      this.geometry := geometry;
    }
  }
}
