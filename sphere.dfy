/**
 * Topology of the procedural UV sphere that `createSoftBodySphereSettings`
 * builds: which vertex goes into which slot, which faces are emitted in which
 * order, and why every face refers to a vertex that exists.
 *
 * A sphere has `numTheta` polar steps (pole 0 at the top, pole 1 at the
 * bottom, `numTheta - 2` rings between) and `numPhi` azimuthal steps per
 * ring. Positions are opaque: `at(p, a)` is the point at polar angle `p * pi`
 * and azimuth `a * 2 * pi` on the sphere of the requested radius.
 */
module SphereTopology {
  import opened Values

  type Spherical = (real, real) -> Vec3

  /** Number of rings the ring loop visits (`theta` from 1 while `theta < numTheta - 1`). */
  function Rings(numTheta: int): nat {
    if numTheta > 2 then numTheta - 2 else 0
  }

  /** Number of vertices per ring (`phi` from 0 while `phi < numPhi`). */
  function Segments(numPhi: int): nat {
    if numPhi > 0 then numPhi else 0
  }

  /** The number of vertices the generator pushes. */
  function VertexCount(numTheta: int, numPhi: int): nat {
    2 + Rings(numTheta) * Segments(numPhi)
  }

  /** `vertex_index(inTheta, inPhi)`: pole 0, pole 1, or a ring slot, with `inPhi` wrapping around the ring. */
  function VertexIndex(numTheta: int, numPhi: int, theta: int, phi: nat): int
    requires numPhi > 0
  {
    if theta == 0 then 0
    else if theta == numTheta - 1 then 1
    else 2 + (theta - 1) * numPhi + phi % numPhi
  }

  // ---------------------------------------------------------------------------
  // Vertices, in push order.

  /** A vertex as the reused default-constructed record has it: inverse mass 1. */
  function At(at: Spherical, polar: real, azimuth: real): Vertex {
    Vertex(at(polar, azimuth), 1.0)
  }

  /** The vertex pushed for ring `theta`, segment `phi`. */
  function RingVertex(numTheta: int, numPhi: int, at: Spherical, theta: nat, phi: nat): Vertex
    requires 1 <= theta < numTheta - 1 && numPhi > 0
  {
    At(at, theta as real / (numTheta - 1) as real, phi as real / numPhi as real)
  }

  /** The vertices of ring `theta`, in segment order. */
  function Ring(numTheta: int, numPhi: int, at: Spherical, theta: nat): (r: seq<Vertex>)
    requires 1 <= theta < numTheta - 1
    ensures |r| == Segments(numPhi)
  {
    seq(Segments(numPhi), phi requires 0 <= phi < Segments(numPhi) => RingVertex(numTheta, numPhi, at, theta, phi))
  }

  /** Rings 1 to `k`, ring-major. */
  function RingsUpTo(numTheta: int, numPhi: int, at: Spherical, k: nat): seq<Vertex>
    requires k <= Rings(numTheta)
  {
    if k == 0 then [] else RingsUpTo(numTheta, numPhi, at, k - 1) + Ring(numTheta, numPhi, at, k)
  }

  /** Everything the generator pushes: pole 0, pole 1, then the rings. */
  function SphereVertices(numTheta: int, numPhi: int, at: Spherical): seq<Vertex> {
    [At(at, 0.0, 0.0), At(at, 1.0, 0.0)] + RingsUpTo(numTheta, numPhi, at, Rings(numTheta))
  }

  lemma {:induction false} RingsUpToLength(numTheta: int, numPhi: int, at: Spherical, k: nat)
    requires k <= Rings(numTheta)
    ensures |RingsUpTo(numTheta, numPhi, at, k)| == k * Segments(numPhi)
  {
    if k > 0 {
      RingsUpToLength(numTheta, numPhi, at, k - 1);
      MulSucc(k - 1, Segments(numPhi));
    }
  }

  /** The generator pushes exactly `2 + (numTheta - 2) * numPhi` vertices (two for a sphere without rings). */
  lemma SphereVertexCount(numTheta: int, numPhi: int, at: Spherical)
    ensures |SphereVertices(numTheta, numPhi, at)| == VertexCount(numTheta, numPhi)
    ensures numTheta >= 2 && numPhi >= 0 ==> VertexCount(numTheta, numPhi) == 2 + (numTheta - 2) * numPhi
  {
    RingsUpToLength(numTheta, numPhi, at, Rings(numTheta));
  }

  lemma {:induction false} RingsUpToAt(numTheta: int, numPhi: int, at: Spherical, k: nat, theta: nat, phi: nat)
    requires k <= Rings(numTheta) && 1 <= theta <= k && phi < numPhi
    ensures (theta - 1) * numPhi + phi < |RingsUpTo(numTheta, numPhi, at, k)|
    ensures RingsUpTo(numTheta, numPhi, at, k)[(theta - 1) * numPhi + phi] == RingVertex(numTheta, numPhi, at, theta, phi)
  {
    var prefix := RingsUpTo(numTheta, numPhi, at, k - 1);
    RingsUpToLength(numTheta, numPhi, at, k - 1);
    BlockIndex(prefix, Ring(numTheta, numPhi, at, k), k - 1, numPhi, theta - 1, phi);
    if theta < k {
      RingsUpToAt(numTheta, numPhi, at, k - 1, theta, phi);
    }
  }

  /**
   * `vertex_index` agrees with the push order: the poles are slots 0 and 1,
   * and ring `theta`, segment `phi` (taken modulo `numPhi`, so `phi == numPhi`
   * is segment 0 again) is the slot the ring loop pushed it into.
   */
  lemma SphereVertexAt(numTheta: int, numPhi: int, at: Spherical, theta: nat, phi: nat)
    requires 1 <= theta <= numTheta - 2 && numPhi > 0
    ensures 2 <= VertexIndex(numTheta, numPhi, theta, phi) < |SphereVertices(numTheta, numPhi, at)|
    ensures SphereVertices(numTheta, numPhi, at)[VertexIndex(numTheta, numPhi, theta, phi)]
         == RingVertex(numTheta, numPhi, at, theta, phi % numPhi)
  {
    RingsUpToAt(numTheta, numPhi, at, Rings(numTheta), theta, phi % numPhi);
  }

  lemma PoleSlots(numTheta: int, numPhi: int, at: Spherical, phi: nat)
    requires numTheta >= 2 && numPhi > 0
    ensures VertexIndex(numTheta, numPhi, 0, phi) == 0
    ensures VertexIndex(numTheta, numPhi, numTheta - 1, phi) == 1
    ensures SphereVertices(numTheta, numPhi, at)[0] == At(at, 0.0, 0.0)
    ensures SphereVertices(numTheta, numPhi, at)[1] == At(at, 1.0, 0.0)
  {
  }

  /** For every polar step of the sphere the index is a slot that exists. */
  lemma VertexIndexInRange(numTheta: int, numPhi: int, theta: int, phi: nat)
    requires numTheta >= 2 && numPhi > 0 && 0 <= theta <= numTheta - 1
    ensures 0 <= VertexIndex(numTheta, numPhi, theta, phi) < VertexCount(numTheta, numPhi)
  {
    if 0 < theta < numTheta - 1 {
      MulSucc(theta - 1, numPhi);
      MulLe(theta, numTheta - 2, numPhi);
    }
  }

  // ---------------------------------------------------------------------------
  // Faces, in emission order.

  /** The faces emitted in the inner loop for one `(phi, theta)`: the second one only when `theta > 0`. */
  function BandFaces(numTheta: int, numPhi: int, phi: nat, theta: nat): seq<Face>
    requires numPhi > 0
  {
    var first := Triangle(VertexIndex(numTheta, numPhi, theta, phi),
                     VertexIndex(numTheta, numPhi, theta + 1, phi),
                     VertexIndex(numTheta, numPhi, theta + 1, phi + 1));
    if theta > 0 then
      [first, Triangle(VertexIndex(numTheta, numPhi, theta, phi),
                  VertexIndex(numTheta, numPhi, theta + 1, phi + 1),
                  VertexIndex(numTheta, numPhi, theta, phi + 1))]
    else [first]
  }

  /** The inner loop's faces for `theta` from 0 to `k - 1`. */
  function StripFaces(numTheta: int, numPhi: int, phi: nat, k: nat): (r: seq<Face>)
    requires numPhi > 0
    ensures |r| == if k == 0 then 0 else 2 * k - 1
  {
    if k == 0 then [] else StripFaces(numTheta, numPhi, phi, k - 1) + BandFaces(numTheta, numPhi, phi, k - 1)
  }

  /** The face closing column `phi`, ending at the bottom pole. */
  function ClosingFace(numTheta: int, numPhi: int, phi: nat): Face
    requires numPhi > 0
  {
    Triangle(VertexIndex(numTheta, numPhi, numTheta - 2, phi + 1),
        VertexIndex(numTheta, numPhi, numTheta - 2, phi),
        VertexIndex(numTheta, numPhi, numTheta - 1, 0))
  }

  /** All faces of column `phi`. */
  function ColumnFaces(numTheta: int, numPhi: int, phi: nat): (r: seq<Face>)
    requires numPhi > 0
    ensures |r| == ColumnLength(numTheta)
  {
    StripFaces(numTheta, numPhi, phi, Rings(numTheta)) + [ClosingFace(numTheta, numPhi, phi)]
  }

  /** Columns 0 to `k - 1`. */
  function ColumnsUpTo(numTheta: int, numPhi: int, k: nat): seq<Face>
    requires k <= Segments(numPhi)
  {
    if k == 0 then [] else ColumnsUpTo(numTheta, numPhi, k - 1) + ColumnFaces(numTheta, numPhi, k - 1)
  }

  /** Everything the generator adds with `AddFace`. */
  function SphereFaces(numTheta: int, numPhi: int): seq<Face> {
    if numPhi > 0 then ColumnsUpTo(numTheta, numPhi, numPhi) else []
  }

  /** Faces per column: `2 * numTheta - 4` when there is at least one ring, else only the closing face. */
  function ColumnLength(numTheta: int): nat {
    if numTheta > 2 then 2 * numTheta - 4 else 1
  }

  /** Arithmetic helper for the block-index proofs; it has no counterpart in the converter. */
  lemma MulSucc(a: nat, len: nat)
    ensures (a + 1) * len == a * len + len
  {
  }

  /** Arithmetic helper for the block-index proofs; it has no counterpart in the converter. */
  lemma MulLe(a: nat, b: nat, len: nat)
    requires a <= b
    ensures a * len <= b * len
  {
  }

  lemma {:induction false} ColumnsUpToLength(numTheta: int, numPhi: int, k: nat)
    requires k <= Segments(numPhi)
    ensures |ColumnsUpTo(numTheta, numPhi, k)| == k * ColumnLength(numTheta)
  {
    if k > 0 {
      ColumnsUpToLength(numTheta, numPhi, k - 1);
      MulSucc(k - 1, ColumnLength(numTheta));
    }
  }

  /** The generator emits `numPhi * (2 * numTheta - 4)` faces once there is a ring. */
  lemma SphereFaceCount(numTheta: int, numPhi: int)
    ensures |SphereFaces(numTheta, numPhi)| == Segments(numPhi) * ColumnLength(numTheta)
    ensures numTheta >= 3 && numPhi >= 0 ==> |SphereFaces(numTheta, numPhi)| == numPhi * (2 * numTheta - 4)
  {
    ColumnsUpToLength(numTheta, numPhi, Segments(numPhi));
  }

  /** Offset, inside its column, of the first face emitted for `theta`. */
  function BandOffset(theta: nat): nat {
    if theta == 0 then 0 else 2 * theta - 1
  }

  lemma {:induction false} StripAt(numTheta: int, numPhi: int, phi: nat, k: nat, theta: nat, j: nat)
    requires numPhi > 0 && theta < k && j < |BandFaces(numTheta, numPhi, phi, theta)|
    ensures BandOffset(theta) + j < |StripFaces(numTheta, numPhi, phi, k)|
    ensures StripFaces(numTheta, numPhi, phi, k)[BandOffset(theta) + j] == BandFaces(numTheta, numPhi, phi, theta)[j]
  {
    if theta < k - 1 {
      StripAt(numTheta, numPhi, phi, k - 1, theta, j);
    }
  }

  /** Indexing into `prefix + last` where `prefix` holds `n` blocks of `len` and `last` is one more. */
  lemma BlockIndex<T>(prefix: seq<T>, last: seq<T>, n: nat, len: nat, phi: nat, j: nat)
    requires |prefix| == n * len && |last| == len && phi <= n && j < len
    ensures phi * len + j < |prefix + last|
    ensures phi == n ==> (prefix + last)[phi * len + j] == last[j]
    ensures phi < n ==> phi * len + j < |prefix| && (prefix + last)[phi * len + j] == prefix[phi * len + j]
  {
    MulSucc(phi, len);
    if phi < n {
      MulLe(phi + 1, n, len);
    }
  }

  lemma {:induction false} ColumnsUpToAt(numTheta: int, numPhi: int, k: nat, phi: nat, j: nat)
    requires k <= Segments(numPhi) && phi < k && j < ColumnLength(numTheta)
    ensures |ColumnsUpTo(numTheta, numPhi, phi)| + j < |ColumnsUpTo(numTheta, numPhi, k)|
    ensures ColumnsUpTo(numTheta, numPhi, k)[|ColumnsUpTo(numTheta, numPhi, phi)| + j] == ColumnFaces(numTheta, numPhi, phi)[j]
  {
    var prefix := ColumnsUpTo(numTheta, numPhi, k - 1);
    assert ColumnsUpTo(numTheta, numPhi, k) == prefix + ColumnFaces(numTheta, numPhi, k - 1);
    if phi < k - 1 {
      ColumnsUpToAt(numTheta, numPhi, k - 1, phi, j);
    }
  }

  /** Inside column `phi`: the faces emitted for `theta`, and the closing face last. */
  lemma ColumnFaceAt(numTheta: int, numPhi: int, phi: nat, theta: nat)
    requires numTheta >= 3 && 0 < numPhi && theta < numTheta - 2
    ensures ColumnFaces(numTheta, numPhi, phi)[BandOffset(theta)] == BandFaces(numTheta, numPhi, phi, theta)[0]
    ensures theta > 0 ==> ColumnFaces(numTheta, numPhi, phi)[2 * theta] == BandFaces(numTheta, numPhi, phi, theta)[1]
    ensures ColumnFaces(numTheta, numPhi, phi)[2 * numTheta - 5] == ClosingFace(numTheta, numPhi, phi)
  {
    var strip := StripFaces(numTheta, numPhi, phi, Rings(numTheta));
    assert ColumnFaces(numTheta, numPhi, phi) == strip + [ClosingFace(numTheta, numPhi, phi)];
    StripAt(numTheta, numPhi, phi, Rings(numTheta), theta, 0);
    if theta > 0 {
      StripAt(numTheta, numPhi, phi, Rings(numTheta), theta, 1);
    }
  }

  /** Column `phi` occupies the `ColumnLength(numTheta)` slots from `start == phi * ColumnLength(numTheta)` on. */
  lemma SphereFaceInColumn(numTheta: int, numPhi: int, phi: nat, start: nat, j: nat)
    requires phi < numPhi && j < ColumnLength(numTheta) && start == phi * ColumnLength(numTheta)
    ensures start + j < |SphereFaces(numTheta, numPhi)|
    ensures SphereFaces(numTheta, numPhi)[start + j] == ColumnFaces(numTheta, numPhi, phi)[j]
  {
    ColumnsUpToLength(numTheta, numPhi, phi);
    ColumnsUpToAt(numTheta, numPhi, numPhi, phi, j);
  }

  /**
   * Where each face lands: in column `phi`, `theta == 0` contributes one face
   * and every later `theta` two, the second keeping the first's slot 0
   * (`vertex_index(theta, phi)`), and the column ends with the face closing
   * at the bottom pole, slot 1. A column has `2 * numTheta - 4` faces.
   */
  lemma SphereFaceAt(numTheta: int, numPhi: int, phi: nat, start: nat, theta: nat)
    requires numTheta >= 3 && phi < numPhi && theta < numTheta - 2 && start == phi * ColumnLength(numTheta)
    ensures ColumnLength(numTheta) == 2 * numTheta - 4
    ensures start + 2 * numTheta - 5 < |SphereFaces(numTheta, numPhi)|
    ensures SphereFaces(numTheta, numPhi)[start + BandOffset(theta)]
         == Triangle(VertexIndex(numTheta, numPhi, theta, phi),
                VertexIndex(numTheta, numPhi, theta + 1, phi),
                VertexIndex(numTheta, numPhi, theta + 1, phi + 1))
    ensures theta > 0 ==> (SphereFaces(numTheta, numPhi)[start + 2 * theta]
                           == Triangle(VertexIndex(numTheta, numPhi, theta, phi),
                                  VertexIndex(numTheta, numPhi, theta + 1, phi + 1),
                                  VertexIndex(numTheta, numPhi, theta, phi + 1)))
    ensures SphereFaces(numTheta, numPhi)[start + 2 * numTheta - 5] == ClosingFace(numTheta, numPhi, phi)
    ensures ClosingFace(numTheta, numPhi, phi).v2 == 1
  {
    ColumnFaceAt(numTheta, numPhi, phi, theta);
    SphereFaceInColumn(numTheta, numPhi, phi, start, BandOffset(theta));
    if theta > 0 {
      SphereFaceInColumn(numTheta, numPhi, phi, start, 2 * theta);
    }
    SphereFaceInColumn(numTheta, numPhi, phi, start, 2 * numTheta - 5);
  }

  // ---------------------------------------------------------------------------
  // Every face index is a vertex that exists.

  lemma {:induction false} StripWithin(numTheta: int, numPhi: int, phi: nat, k: nat)
    requires numTheta >= 3 && numPhi > 0 && k <= numTheta - 2
    ensures FacesWithin(StripFaces(numTheta, numPhi, phi, k), VertexCount(numTheta, numPhi))
    ensures Untextured(StripFaces(numTheta, numPhi, phi, k))
  {
    if k > 0 {
      var n := VertexCount(numTheta, numPhi);
      var t := k - 1;
      StripWithin(numTheta, numPhi, phi, t);
      VertexIndexInRange(numTheta, numPhi, t, phi);
      VertexIndexInRange(numTheta, numPhi, t + 1, phi);
      VertexIndexInRange(numTheta, numPhi, t + 1, phi + 1);
      VertexIndexInRange(numTheta, numPhi, t, phi + 1);
      TriangleWithin(VertexIndex(numTheta, numPhi, t, phi), VertexIndex(numTheta, numPhi, t + 1, phi),
                VertexIndex(numTheta, numPhi, t + 1, phi + 1), n);
      TriangleWithin(VertexIndex(numTheta, numPhi, t, phi), VertexIndex(numTheta, numPhi, t + 1, phi + 1),
                VertexIndex(numTheta, numPhi, t, phi + 1), n);
    }
  }

  lemma {:induction false} ColumnsWithin(numTheta: int, numPhi: int, k: nat)
    requires numTheta >= 3 && numPhi > 0 && k <= numPhi
    ensures FacesWithin(ColumnsUpTo(numTheta, numPhi, k), VertexCount(numTheta, numPhi))
    ensures Untextured(ColumnsUpTo(numTheta, numPhi, k))
  {
    if k > 0 {
      var n := VertexCount(numTheta, numPhi);
      var phi := k - 1;
      ColumnsWithin(numTheta, numPhi, phi);
      StripWithin(numTheta, numPhi, phi, Rings(numTheta));
      VertexIndexInRange(numTheta, numPhi, numTheta - 2, phi + 1);
      VertexIndexInRange(numTheta, numPhi, numTheta - 2, phi);
      VertexIndexInRange(numTheta, numPhi, numTheta - 1, 0);
      TriangleWithin(VertexIndex(numTheta, numPhi, numTheta - 2, phi + 1), VertexIndex(numTheta, numPhi, numTheta - 2, phi),
                VertexIndex(numTheta, numPhi, numTheta - 1, 0), n);
    }
  }

  /** With at least one ring and one segment, every face index is below the vertex count; every material is 0. */
  lemma SphereFacesWithin(numTheta: int, numPhi: int)
    requires numTheta >= 3 && numPhi >= 1
    ensures FacesWithin(SphereFaces(numTheta, numPhi), VertexCount(numTheta, numPhi))
    ensures Untextured(SphereFaces(numTheta, numPhi))
  {
    ColumnsWithin(numTheta, numPhi, numPhi);
  }
}
