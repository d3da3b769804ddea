/**
 * How vertex and face lists are laid out in render-side typed arrays, and
 * how the generic converter reads them back.
 *
 * A position attribute is a flat array of `x, y, z` triples; an index
 * attribute is a flat array of vertex slots, three per triangle. The
 * converter reads `ceil(count / 3)` triangles in steps of three with no
 * check that `count` is a multiple of three.
 */
module Layout {
  import opened Values

  // ---------------------------------------------------------------------------
  // Positions.

  /** `posArray` as the flattener fills it: entry `3 * i + c` is component `c` of vertex `i`. */
  function FlattenPositions(ps: seq<Vec3>): (r: seq<real>)
    ensures |r| == 3 * |ps|
  {
    seq(3 * |ps|, j requires 0 <= j < 3 * |ps| => Component(ps[j / 3], j % 3))
  }

  /** The vertices a position attribute holds: `count == length / 3`, and vertex `i` is `(getX(i), getY(i), getZ(i))`. */
  function Unflatten(a: seq<real>): (ps: seq<Vec3>)
    ensures |ps| == |a| / 3
  {
    seq(|a| / 3, i requires 0 <= i < |a| / 3 => Vec3(a[3 * i], a[3 * i + 1], a[3 * i + 2]))
  }

  lemma FlattenPositionsAt(ps: seq<Vec3>, i: nat, c: nat)
    requires i < |ps| && c < 3
    ensures 3 * i + c < 3 * |ps| && FlattenPositions(ps)[3 * i + c] == Component(ps[i], c)
  {
    assert (3 * i + c) / 3 == i && (3 * i + c) % 3 == c;
  }

  /** Reading a flattened list back gives the list. */
  lemma UnflattenFlatten(ps: seq<Vec3>)
    ensures Unflatten(FlattenPositions(ps)) == ps
  {
    var a := FlattenPositions(ps);
    assert |a| / 3 == |ps|;
    forall i | 0 <= i < |ps|
      ensures Unflatten(a)[i] == ps[i]
    {
      FlattenPositionsAt(ps, i, 0);
      FlattenPositionsAt(ps, i, 1);
      FlattenPositionsAt(ps, i, 2);
    }
  }

  /** Flattening what was read gives the array back, up to a trailing partial triple. */
  lemma FlattenUnflatten(a: seq<real>)
    ensures FlattenPositions(Unflatten(a)) == a[..3 * (|a| / 3)]
  {
    var ps := Unflatten(a);
    forall j | 0 <= j < 3 * |ps|
      ensures FlattenPositions(ps)[j] == a[j]
    {
      var i, c := j / 3, j % 3;
      assert j == 3 * i + c;
      FlattenPositionsAt(ps, i, c);
    }
  }

  /** The vertex list the converter pushes: the attribute's vertices, in order, each with inverse mass 1. */
  function ConvertedVertices(a: seq<real>): (vs: seq<Vertex>)
    ensures |vs| == |a| / 3
  {
    seq(|a| / 3, i requires 0 <= i < |a| / 3 => Vertex(Unflatten(a)[i], 1.0))
  }

  lemma ConvertedVerticesAre(a: seq<real>)
    ensures Positions(ConvertedVertices(a)) == Unflatten(a)
    ensures forall i :: 0 <= i < |a| / 3 ==> ConvertedVertices(a)[i].invMass == 1.0
  {
  }

  // ---------------------------------------------------------------------------
  // Faces.

  /** `indexArray` as the flattener fills it: entry `3 * f + k` is slot `k` of face `f`, stored modulo 2^16. */
  function FlattenIndices(fs: seq<Face>): (r: seq<U16>)
    ensures |r| == 3 * |fs|
  {
    seq(3 * |fs|, j requires 0 <= j < 3 * |fs| => ToUint16(fs[j / 3].Slot(j % 3)))
  }

  lemma FlattenIndicesAt(fs: seq<Face>, f: nat, k: nat)
    requires f < |fs| && k < 3
    ensures 3 * f + k < 3 * |fs| && FlattenIndices(fs)[3 * f + k] == ToUint16(fs[f].Slot(k))
  {
    assert (3 * f + k) / 3 == f && (3 * f + k) % 3 == k;
  }

  /** Loop trips of `for (i = 0; i < count; i += 3)`: `ceil(count / 3)`. */
  function Triples(count: int): nat {
    if count > 0 then (count + 2) / 3 else 0
  }

  /** `indexAttr.getX(i)`: slot `i`, or 0 past the end (`undefined` becomes 0 as an unsigned argument). */
  function IndexAt(idx: seq<int>, i: int): int {
    if 0 <= i < |idx| then idx[i] else 0
  }

  /** The faces the converter adds for an indexed geometry: `(idx[3k], idx[3k+1], idx[3k+2])`. */
  function IndexedFaces(idx: seq<int>): (fs: seq<Face>)
    ensures |fs| == Triples(|idx|)
  {
    seq(Triples(|idx|), k requires 0 <= k < Triples(|idx|) =>
      Triangle(IndexAt(idx, 3 * k), IndexAt(idx, 3 * k + 1), IndexAt(idx, 3 * k + 2)))
  }

  /** The faces the converter adds for an unindexed geometry: `(3k, 3k+1, 3k+2)`. */
  function SequentialFaces(count: int): (fs: seq<Face>)
    ensures |fs| == Triples(count)
  {
    seq(Triples(count), k requires 0 <= k < Triples(count) => Triangle(3 * k, 3 * k + 1, 3 * k + 2))
  }

  /**
   * Flattening a face list into the index buffer and converting it back gives
   * the same faces, as long as every slot fits in 16 bits and the material
   * is the converter's 0.
   */
  lemma IndexedFlattenIndices(fs: seq<Face>)
    requires forall f :: 0 <= f < |fs| ==> fs[f].v0 < TWO_TO_16 && fs[f].v1 < TWO_TO_16 && fs[f].v2 < TWO_TO_16
    requires forall f :: 0 <= f < |fs| ==> fs[f].material == 0
    ensures IndexedFaces(FlattenIndices(fs)) == fs
  {
    var idx := FlattenIndices(fs);
    assert Triples(|idx|) == |fs|;
    forall f | 0 <= f < |fs|
      ensures IndexedFaces(idx)[f] == fs[f]
    {
      FlattenIndicesAt(fs, f, 0);
      FlattenIndicesAt(fs, f, 1);
      FlattenIndicesAt(fs, f, 2);
    }
  }

  /** One slot past 16 bits and the round trip breaks: the index buffer keeps it modulo 2^16. */
  lemma IndexedFlattenIndicesWraps()
    ensures var fs := [Face(TWO_TO_16, 1, 2, 0)]; IndexedFaces(FlattenIndices(fs)) != fs
  {
    var fs := [Face(TWO_TO_16, 1, 2, 0)];
    FlattenIndicesAt(fs, 0, 0);
    assert IndexedFaces(FlattenIndices(fs))[0].v0 == 0;
  }

  /**
   * An unindexed geometry's faces all name existing vertices exactly when the
   * vertex count is a multiple of three; otherwise the last face reaches past
   * the end.
   */
  lemma SequentialFacesWithin(count: nat)
    requires count + 2 < TWO_TO_32
    ensures FacesWithin(SequentialFaces(count), count) <==> count % 3 == 0
  {
    var fs := SequentialFaces(count);
    if count % 3 == 0 {
      forall k | 0 <= k < |fs|
        ensures FaceWithin(fs[k], count)
      {
        assert 3 * k + 2 < count;
      }
    } else {
      var last := |fs| - 1;
      assert 3 * last + 2 >= count;
      assert fs[last].v2 == 3 * last + 2;
    }
  }

  /**
   * An indexed geometry whose index values name existing vertices yields
   * faces that do too; a trailing partial triple is completed with slot 0.
   */
  lemma IndexedFacesWithin(idx: seq<int>, n: int)
    requires n > 0 && forall i :: 0 <= i < |idx| ==> 0 <= idx[i] < n
    ensures FacesWithin(IndexedFaces(idx), n)
    ensures |idx| % 3 != 0 ==> IndexedFaces(idx)[|idx| / 3].v2 == 0
  {
    var fs := IndexedFaces(idx);
    forall k | 0 <= k < |fs|
      ensures FaceWithin(fs[k], n)
    {
      TriangleWithin(IndexAt(idx, 3 * k), IndexAt(idx, 3 * k + 1), IndexAt(idx, 3 * k + 2), n);
    }
  }
}
