/**
 * Building one renderable mesh from an imported model file: every sub-mesh
 * of the imported scene is appended to a single vertex array and a single
 * index array, and each sub-mesh's face indices are moved past the
 * vertices of the sub-meshes before it.
 *
 * graphics.cc `create_mesh`, tests/shared.h `create_mesh` and
 * tests/shadows.h `load_mesh` are three copies of this algorithm; they
 * differ only in how the texture coordinate's V component is flipped.
 */
module MeshMerge {
  import opened Common

  /** One vertex as the importer hands it over. */
  datatype SourceVertex = SourceVertex(position: Vec3, normal: Vec3, texCoord: Vec3)

  type Face = seq<u32>

  /**
   * An imported sub-mesh. `hasTexCoords` is false when the importer has no
   * first texture-coordinate channel for it; `texCoord` is then unused.
   */
  datatype SubMesh = SubMesh(vertices: seq<SourceVertex>, hasTexCoords: bool, faces: seq<Face>)

  /** What the importer returned: nothing at all, or a scene with status flags. */
  datatype ImportedScene =
    | NullScene
    | Scene(hasRootNode: bool, incomplete: bool, meshes: seq<SubMesh>)

  /** graphics.cc negates V; tests/shared.h and tests/shadows.h use 1 - V. */
  datatype UVFlip = NegateV | OneMinusV

  datatype Vertex = Vertex(position: Vec3, normal: Vec3, uv: Vec2)

  datatype Mesh = Mesh(vertexes: BoundedArray<Vertex>, indexes: BoundedArray<u32>)

  predicate ImportFailed(scene: ImportedScene) {
    scene.NullScene? || !scene.hasRootNode || scene.incomplete
  }

  function FaceIndexCount(faces: seq<Face>): nat {
    if faces == [] then 0 else FaceIndexCount(faces[..|faces| - 1]) + |faces[|faces| - 1]|
  }

  function TotalVertexCount(ms: seq<SubMesh>): nat {
    if ms == [] then 0 else TotalVertexCount(ms[..|ms| - 1]) + |ms[|ms| - 1].vertices|
  }

  function TotalIndexCount(ms: seq<SubMesh>): nat {
    if ms == [] then 0 else TotalIndexCount(ms[..|ms| - 1]) + FaceIndexCount(ms[|ms| - 1].faces)
  }

  /** Both counters fit the source's 32-bit counters. */
  predicate FitsU32(ms: seq<SubMesh>) {
    TotalVertexCount(ms) < U32_LIMIT && TotalIndexCount(ms) < U32_LIMIT
  }

  function FlipUV(t: Vec3, flip: UVFlip): Vec2 {
    match flip
    case NegateV => Vec2(t.x, -t.y)
    case OneMinusV => Vec2(t.x, 1.0 - t.y)
  }

  function ToVertex(v: SourceVertex, hasTexCoords: bool, flip: UVFlip): Vertex {
    Vertex(v.position, v.normal, if hasTexCoords then FlipUV(v.texCoord, flip) else ZERO_VEC2)
  }

  function ConvertVertexes(vs: seq<SourceVertex>, hasTexCoords: bool, flip: UVFlip): seq<Vertex> {
    seq(|vs|, i requires 0 <= i < |vs| => ToVertex(vs[i], hasTexCoords, flip))
  }

  /** The vertices of all sub-meshes, in order. */
  function MergedVertexes(ms: seq<SubMesh>, flip: UVFlip): (r: seq<Vertex>)
    ensures |r| == TotalVertexCount(ms)
  {
    if ms == [] then []
    else
      var last := ms[|ms| - 1];
      MergedVertexes(ms[..|ms| - 1], flip) + ConvertVertexes(last.vertices, last.hasTexCoords, flip)
  }

  /** `a + b` on u32, wrapping around as C++ unsigned arithmetic does. */
  function WrapAdd(a: u32, b: u32): u32 {
    ((a as int + b as int) % U32_LIMIT) as u32
  }

  function RebaseFace(face: Face, base: u32): seq<u32> {
    seq(|face|, i requires 0 <= i < |face| => WrapAdd(base, face[i]))
  }

  /** The indices of all faces of one sub-mesh, each shifted by `base`. */
  function RebaseFaces(faces: seq<Face>, base: u32): (r: seq<u32>)
    ensures |r| == FaceIndexCount(faces)
  {
    if faces == [] then [] else RebaseFaces(faces[..|faces| - 1], base) + RebaseFace(faces[|faces| - 1], base)
  }

  /** Every sub-mesh's indices, shifted by the number of vertices before it. */
  function MergedIndexes(ms: seq<SubMesh>): (r: seq<u32>)
    requires TotalVertexCount(ms) < U32_LIMIT
    ensures |r| == TotalIndexCount(ms)
  {
    if ms == [] then []
    else
      var init := ms[..|ms| - 1];
      MergedIndexes(init) + RebaseFaces(ms[|ms| - 1].faces, TotalVertexCount(init) as u32)
  }

  lemma TotalsStep(ms: seq<SubMesh>, k: nat)
    requires k < |ms|
    ensures ms[..k + 1][..k] == ms[..k]
    ensures TotalVertexCount(ms[..k + 1]) == TotalVertexCount(ms[..k]) + |ms[k].vertices|
    ensures TotalIndexCount(ms[..k + 1]) == TotalIndexCount(ms[..k]) + FaceIndexCount(ms[k].faces)
  {
    assert ms[..k + 1][..k] == ms[..k];
  }

  lemma {:induction false} TotalsPrefix(ms: seq<SubMesh>, k: nat)
    requires k <= |ms|
    ensures TotalVertexCount(ms[..k]) <= TotalVertexCount(ms)
    ensures TotalIndexCount(ms[..k]) <= TotalIndexCount(ms)
    decreases |ms| - k
  {
    if k == |ms| {
      assert ms[..k] == ms;
    } else {
      TotalsStep(ms, k);
      TotalsPrefix(ms, k + 1);
    }
  }

  lemma FaceCountStep(faces: seq<Face>, f: nat)
    requires f < |faces|
    ensures faces[..f + 1][..f] == faces[..f]
    ensures FaceIndexCount(faces[..f + 1]) == FaceIndexCount(faces[..f]) + |faces[f]|
  {
    assert faces[..f + 1][..f] == faces[..f];
  }

  lemma {:induction false} FaceCountPrefix(faces: seq<Face>, f: nat)
    requires f <= |faces|
    ensures FaceIndexCount(faces[..f]) <= FaceIndexCount(faces)
    decreases |faces| - f
  {
    if f == |faces| {
      assert faces[..f] == faces;
    } else {
      FaceCountStep(faces, f);
      FaceCountPrefix(faces, f + 1);
    }
  }

  /** The counting pass: the totals the two arrays are allocated with. */
  method CountMesh(ms: seq<SubMesh>) returns (vertexCount: u32, indexCount: u32)
    requires FitsU32(ms)
    ensures vertexCount as int == TotalVertexCount(ms)
    ensures indexCount as int == TotalIndexCount(ms)
  {
    vertexCount, indexCount := 0, 0;
    var k := 0;
    while k < |ms|
      invariant 0 <= k <= |ms|
      invariant vertexCount as int == TotalVertexCount(ms[..k])
      invariant indexCount as int == TotalIndexCount(ms[..k])
    {
      TotalsStep(ms, k);
      TotalsPrefix(ms, k + 1);
      vertexCount := vertexCount + |ms[k].vertices| as u32;
      var faces := ms[k].faces;
      var f := 0;
      while f < |faces|
        invariant 0 <= f <= |faces|
        invariant indexCount as int == TotalIndexCount(ms[..k]) + FaceIndexCount(faces[..f])
      {
        FaceCountStep(faces, f);
        FaceCountPrefix(faces, f + 1);
        indexCount := indexCount + |faces[f]| as u32;
        f := f + 1;
      }
      assert faces[..f] == faces;
      k := k + 1;
    }
    assert ms[..k] == ms;
  }

  /** Appends the converted vertices of one sub-mesh. */
  method AppendVertexes(a: BoundedArray<Vertex>, mesh: SubMesh, flip: UVFlip) returns (b: BoundedArray<Vertex>)
    requires |a.items| + |mesh.vertices| <= a.capacity
    ensures b.capacity == a.capacity
    ensures b.items == a.items + ConvertVertexes(mesh.vertices, mesh.hasTexCoords, flip)
  {
    b := a;
    var v := 0;
    while v < |mesh.vertices|
      invariant 0 <= v <= |mesh.vertices|
      invariant b.capacity == a.capacity
      invariant b.items == a.items + ConvertVertexes(mesh.vertices[..v], mesh.hasTexCoords, flip)
    {
      assert ConvertVertexes(mesh.vertices[..v + 1], mesh.hasTexCoords, flip)
          == ConvertVertexes(mesh.vertices[..v], mesh.hasTexCoords, flip)
             + [ToVertex(mesh.vertices[v], mesh.hasTexCoords, flip)];
      b := Push(b, ToVertex(mesh.vertices[v], mesh.hasTexCoords, flip));
      v := v + 1;
    }
    assert mesh.vertices[..v] == mesh.vertices;
  }

  /** Appends the indices of every face of one sub-mesh, shifted by `base`. */
  method AppendFaces(a: BoundedArray<u32>, faces: seq<Face>, base: u32) returns (b: BoundedArray<u32>)
    requires |a.items| + FaceIndexCount(faces) <= a.capacity
    ensures b.capacity == a.capacity
    ensures b.items == a.items + RebaseFaces(faces, base)
  {
    b := a;
    var f := 0;
    assert faces[..0] == [];
    while f < |faces|
      invariant 0 <= f <= |faces|
      invariant b.capacity == a.capacity
      invariant b.items == a.items + RebaseFaces(faces[..f], base)
    {
      FaceCountStep(faces, f);
      FaceCountPrefix(faces, f + 1);
      var face := faces[f];
      var faceBefore := b.items;
      var j := 0;
      while j < |face|
        invariant 0 <= j <= |face|
        invariant b.capacity == a.capacity
        invariant b.items == faceBefore + RebaseFace(face[..j], base)
      {
        assert RebaseFace(face[..j + 1], base) == RebaseFace(face[..j], base) + [WrapAdd(base, face[j])];
        b := Push(b, WrapAdd(base, face[j]));
        j := j + 1;
      }
      assert face[..j] == face;
      f := f + 1;
    }
    assert faces[..f] == faces;
  }

  /**
   * Counts the vertices and indices of all sub-meshes, allocates arrays of
   * exactly that size, then appends each sub-mesh's converted vertices and
   * rebased indices. No append exceeds the allocated capacity.
   */
  method CreateMesh(scene: ImportedScene, flip: UVFlip) returns (r: Result<Mesh>)
    requires scene.Scene? ==> FitsU32(scene.meshes)
    ensures r.Failure? <==> ImportFailed(scene)
    ensures r.Failure? ==> r.error == MeshImportFailed
    ensures r.Success? ==>
              && r.value.vertexes.capacity == TotalVertexCount(scene.meshes)
              && r.value.indexes.capacity == TotalIndexCount(scene.meshes)
              && r.value.vertexes.items == MergedVertexes(scene.meshes, flip)
              && r.value.indexes.items == MergedIndexes(scene.meshes)
  {
    if ImportFailed(scene) {
      return Failure(MeshImportFailed);
    }
    var ms := scene.meshes;
    var vertexCount, indexCount := CountMesh(ms);
    var vertexes: BoundedArray<Vertex> := EmptyArray(vertexCount as nat);
    var indexes: BoundedArray<u32> := EmptyArray(indexCount as nat);

    var k := 0;
    assert ms[..0] == [];
    while k < |ms|
      invariant 0 <= k <= |ms|
      invariant vertexes.capacity == TotalVertexCount(ms)
      invariant indexes.capacity == TotalIndexCount(ms)
      invariant TotalVertexCount(ms[..k]) < U32_LIMIT
      invariant vertexes.items == MergedVertexes(ms[..k], flip)
      invariant indexes.items == MergedIndexes(ms[..k])
    {
      TotalsStep(ms, k);
      TotalsPrefix(ms, k + 1);
      var indexBase: u32 := |vertexes.items| as u32;
      vertexes := AppendVertexes(vertexes, ms[k], flip);
      indexes := AppendFaces(indexes, ms[k].faces, indexBase);
      k := k + 1;
    }
    assert ms[..k] == ms;
    return Success(Mesh(vertexes, indexes));
  }

  /** Vertex `v` of sub-mesh `k` lands right after the vertices of sub-meshes 0 .. k-1. */
  lemma {:induction false} MergedVertexAt(ms: seq<SubMesh>, flip: UVFlip, k: nat, v: nat)
    requires k < |ms| && v < |ms[k].vertices|
    ensures TotalVertexCount(ms[..k]) + v < |MergedVertexes(ms, flip)|
    ensures MergedVertexes(ms, flip)[TotalVertexCount(ms[..k]) + v]
         == ToVertex(ms[k].vertices[v], ms[k].hasTexCoords, flip)
    decreases |ms|
  {
    var init := ms[..|ms| - 1];
    if k == |ms| - 1 {
      assert ms[..k] == init;
    } else {
      assert init[..k] == ms[..k];
      TotalsPrefix(init, k + 1);
      TotalsStep(init, k);
      MergedVertexAt(init, flip, k, v);
    }
  }

  /** A sub-mesh without texture coordinates contributes vertices with UV (0, 0). */
  lemma MissingTexCoordsGiveZeroUV(ms: seq<SubMesh>, flip: UVFlip, k: nat)
    requires k < |ms| && !ms[k].hasTexCoords
    ensures TotalVertexCount(ms[..k]) + |ms[k].vertices| <= |MergedVertexes(ms, flip)|
    ensures forall i :: TotalVertexCount(ms[..k]) <= i < TotalVertexCount(ms[..k]) + |ms[k].vertices| ==>
              MergedVertexes(ms, flip)[i].uv == ZERO_VEC2
  {
    TotalsStep(ms, k);
    TotalsPrefix(ms, k + 1);
    var start := TotalVertexCount(ms[..k]);
    forall i | start <= i < start + |ms[k].vertices|
      ensures MergedVertexes(ms, flip)[i].uv == ZERO_VEC2
    {
      MergedVertexAt(ms, flip, k, i - start);
    }
  }

  lemma {:induction false} RebaseFacesAt(faces: seq<Face>, base: u32, f: nat, j: nat)
    requires f < |faces| && j < |faces[f]|
    ensures FaceIndexCount(faces[..f]) + j < |RebaseFaces(faces, base)|
    ensures RebaseFaces(faces, base)[FaceIndexCount(faces[..f]) + j] == WrapAdd(base, faces[f][j])
    decreases |faces|
  {
    var init := faces[..|faces| - 1];
    if f == |faces| - 1 {
      assert faces[..f] == init;
    } else {
      assert init[..f] == faces[..f];
      FaceCountStep(init, f);
      FaceCountPrefix(init, f + 1);
      RebaseFacesAt(init, base, f, j);
    }
  }

  /**
   * Index `j` of face `f` of sub-mesh `k` lands after the indices of the
   * earlier sub-meshes and earlier faces, and holds the original index plus
   * the number of vertices of sub-meshes 0 .. k-1 (in u32 arithmetic).
   */
  lemma {:induction false} MergedIndexAt(ms: seq<SubMesh>, k: nat, f: nat, j: nat)
    requires TotalVertexCount(ms) < U32_LIMIT
    requires k < |ms| && f < |ms[k].faces| && j < |ms[k].faces[f]|
    ensures TotalVertexCount(ms[..k]) < U32_LIMIT
    ensures TotalIndexCount(ms[..k]) + FaceIndexCount(ms[k].faces[..f]) + j < |MergedIndexes(ms)|
    ensures MergedIndexes(ms)[TotalIndexCount(ms[..k]) + FaceIndexCount(ms[k].faces[..f]) + j]
         == WrapAdd(TotalVertexCount(ms[..k]) as u32, ms[k].faces[f][j])
    decreases |ms|
  {
    var init, last := ms[..|ms| - 1], ms[|ms| - 1];
    TotalsPrefix(ms, |ms| - 1);
    TotalsPrefix(ms, k);
    var base := TotalVertexCount(init) as u32;
    assert MergedIndexes(ms) == MergedIndexes(init) + RebaseFaces(last.faces, base);
    if k == |ms| - 1 {
      assert ms[..k] == init;
      RebaseFacesAt(last.faces, base, f, j);
    } else {
      assert init[..k] == ms[..k] && init[k] == ms[k];
      MergedIndexAt(init, k, f, j);
    }
  }

  /** Every face index of every sub-mesh names one of that sub-mesh's vertices. */
  predicate FacesInRange(ms: seq<SubMesh>) {
    forall k, f, j :: 0 <= k < |ms| && 0 <= f < |ms[k].faces| && 0 <= j < |ms[k].faces[f]| ==>
      ms[k].faces[f][j] as int < |ms[k].vertices|
  }

  lemma {:induction false} RebaseFacesBounds(faces: seq<Face>, base: u32, n: nat)
    requires base as int + n <= U32_LIMIT
    requires forall f, j :: 0 <= f < |faces| && 0 <= j < |faces[f]| ==> faces[f][j] as int < n
    ensures forall i :: 0 <= i < |RebaseFaces(faces, base)| ==>
              base <= RebaseFaces(faces, base)[i] && (RebaseFaces(faces, base)[i] as int) < base as int + n
    decreases |faces|
  {
    if faces != [] {
      var init := faces[..|faces| - 1];
      RebaseFacesBounds(init, base, n);
      var last := faces[|faces| - 1];
      assert forall j :: 0 <= j < |last| ==> RebaseFace(last, base)[j] as int == base as int + last[j] as int;
    }
  }

  /**
   * If every face index is in range for its own sub-mesh and the vertex
   * total fits in 32 bits, every merged index names a vertex of the merged
   * mesh (whose length is `TotalVertexCount(ms)`).
   */
  lemma {:induction false} MergedIndexesInRange(ms: seq<SubMesh>)
    requires TotalVertexCount(ms) < U32_LIMIT
    requires FacesInRange(ms)
    ensures forall i :: 0 <= i < |MergedIndexes(ms)| ==> (MergedIndexes(ms)[i] as int) < TotalVertexCount(ms)
    decreases |ms|
  {
    if ms != [] {
      var init := ms[..|ms| - 1];
      var last := ms[|ms| - 1];
      assert FacesInRange(init) by {
        forall k, f, j | 0 <= k < |init| && 0 <= f < |init[k].faces| && 0 <= j < |init[k].faces[f]|
          ensures init[k].faces[f][j] as int < |init[k].vertices|
        {
          assert init[k] == ms[k];
        }
      }
      MergedIndexesInRange(init);
      assert forall f, j :: 0 <= f < |last.faces| && 0 <= j < |last.faces[f]| ==>
        last.faces[f][j] as int < |last.vertices| by {
        forall f, j | 0 <= f < |last.faces| && 0 <= j < |last.faces[f]|
          ensures last.faces[f][j] as int < |last.vertices|
        {
          assert last == ms[|ms| - 1];
        }
      }
      RebaseFacesBounds(last.faces, TotalVertexCount(init) as u32, |last.vertices|);
    }
  }
}
