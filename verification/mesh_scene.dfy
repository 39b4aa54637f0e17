/** The in-memory mesh that the adapter builds from raw vertex and face
    arrays (one mesh, one material, one root node referencing mesh 0). Only
    the vertex and face layout is modelled; the allocation is not. */
module MeshScene {

  /** A C `int` face entry. */
  newtype int32 = x: int | -0x8000_0000 <= x < 0x8000_0000

  /** A C `unsigned int` face index, as the mesh stores it. */
  newtype uint32 = x: int | 0 <= x < 0x1_0000_0000

  /** The implicit `int` -> `unsigned int` conversion: reduction modulo 2^32,
      so negative entries wrap around. */
  function ToUnsigned(x: int32): (u: uint32)
    ensures x >= 0 ==> u as int == x as int
    ensures x < 0 ==> u as int == x as int + 0x1_0000_0000
  {
    (x as int % 0x1_0000_0000) as uint32
  }

  /** Reading an `unsigned int` back as an `int` (two's complement). */
  function ToSigned(u: uint32): int32
  {
    if u < 0x8000_0000 then u as int as int32 else (u as int - 0x1_0000_0000) as int32
  }

  /** The conversion to unsigned loses nothing: every face entry can be read back. */
  lemma SignedRoundTrip(x: int32)
    ensures ToSigned(ToUnsigned(x)) == x
  {
  }

  /** A mesh vertex (three coordinates). */
  datatype Vertex = Vertex(x: real, y: real, z: real)

  /** A mesh face: its vertex indices. */
  datatype Face = Face(indices: seq<uint32>)

  /** The mesh scene: its vertex array and its face array. */
  datatype Scene = Scene(vertices: seq<Vertex>, faces: seq<Face>)

  /** The raw arrays do not have three entries per vertex or per face; the
      source only logs an error in that case and carries on. */
  predicate ReportsLayoutError(vertices: seq<real>, faces: seq<int32>) {
    |vertices| % 3 != 0 || |faces| % 3 != 0
  }

  /** Vertex `v` of the scene built from a flat coordinate array. */
  function VertexAt(vertices: seq<real>, v: nat): Vertex
    requires 3 * v + 2 < |vertices|
  {
    Vertex(vertices[3 * v], vertices[3 * v + 1], vertices[3 * v + 2])
  }

  /** Face `f` of the scene built from a flat index array. */
  function FaceAt(faces: seq<int32>, f: nat): Face
    requires 3 * f + 2 < |faces|
  {
    Face([ToUnsigned(faces[3 * f]), ToUnsigned(faces[3 * f + 1]), ToUnsigned(faces[3 * f + 2])])
  }

  /** The scene built from raw data: |vertices|/3 vertices and |faces|/3
      triangular faces; trailing entries that do not complete a triple are
      dropped. */
  function SceneFromVertexData(vertices: seq<real>, faces: seq<int32>): (s: Scene)
    ensures |s.vertices| == |vertices| / 3 && |s.faces| == |faces| / 3
    ensures forall f :: 0 <= f < |s.faces| ==> |s.faces[f].indices| == 3
  {
    Scene(seq(|vertices| / 3, v requires 0 <= v < |vertices| / 3 => VertexAt(vertices, v)),
          seq(|faces| / 3, f requires 0 <= f < |faces| / 3 => FaceAt(faces, f)))
  }

  /** Flattening a vertex array back into coordinates, three per vertex. */
  function FlattenVertices(vs: seq<Vertex>): (r: seq<real>)
    ensures |r| == 3 * |vs|
  {
    if |vs| == 0 then [] else [vs[0].x, vs[0].y, vs[0].z] + FlattenVertices(vs[1..])
  }

  /** Flattening a face array back into signed indices, all of each face in order. */
  function FlattenFaces(fs: seq<Face>): seq<int32>
  {
    if |fs| == 0 then []
    else seq(|fs[0].indices|, i requires 0 <= i < |fs[0].indices| => ToSigned(fs[0].indices[i]))
         + FlattenFaces(fs[1..])
  }

  /** Coordinate `k` of a flattened vertex array is coordinate k % 3 of vertex k / 3. */
  lemma {:induction false} FlattenVerticesAt(vs: seq<Vertex>, k: nat)
    requires k < 3 * |vs|
    ensures var v := vs[k / 3];
            FlattenVertices(vs)[k] == (if k % 3 == 0 then v.x else if k % 3 == 1 then v.y else v.z)
  {
    if k >= 3 {
      FlattenVerticesAt(vs[1..], k - 3);
    }
  }

  /** Flattening triangular faces yields three entries per face, in order. */
  lemma {:induction false} FlattenTrianglesAt(fs: seq<Face>, k: nat)
    requires forall f :: 0 <= f < |fs| ==> |fs[f].indices| == 3
    requires k < 3 * |fs|
    ensures |FlattenFaces(fs)| == 3 * |fs|
    ensures FlattenFaces(fs)[k] == ToSigned(fs[k / 3].indices[k % 3])
  {
    if k >= 3 {
      FlattenTrianglesAt(fs[1..], k - 3);
    } else if |fs| > 1 {
      FlattenTrianglesAt(fs[1..], 0);
    } else {
      assert fs[1..] == [];
    }
  }

  /** The vertex array of the built scene, flattened again, is the input
      coordinate array without its incomplete trailing triple. */
  lemma {:induction false} VertexLayoutRoundTrip(vertices: seq<real>, faces: seq<int32>)
    ensures FlattenVertices(SceneFromVertexData(vertices, faces).vertices)
            == vertices[..|vertices| - |vertices| % 3]
  {
    var vs := SceneFromVertexData(vertices, faces).vertices;
    var flat := FlattenVertices(vs);
    forall k | 0 <= k < |flat|
      ensures flat[k] == vertices[k]
    {
      FlattenVerticesAt(vs, k);
    }
  }

  /** The face array of the built scene, flattened again and read back as
      signed, is the input index array without its incomplete trailing triple. */
  lemma {:induction false} FaceLayoutRoundTrip(vertices: seq<real>, faces: seq<int32>)
    ensures FlattenFaces(SceneFromVertexData(vertices, faces).faces)
            == faces[..|faces| - |faces| % 3]
  {
    var fs := SceneFromVertexData(vertices, faces).faces;
    if |fs| == 0 {
      assert FlattenFaces(fs) == [];
    } else {
      FlattenTrianglesAt(fs, 0);
      var flat := FlattenFaces(fs);
      forall k | 0 <= k < |flat|
        ensures flat[k] == faces[k]
      {
        FlattenTrianglesAt(fs, k);
        SignedRoundTrip(faces[k]);
      }
    }
  }

  /** No layout error is reported exactly when the raw arrays are recovered
      in full from the scene. */
  lemma LayoutErrorIffLoss(vertices: seq<real>, faces: seq<int32>)
    ensures !ReportsLayoutError(vertices, faces) <==>
            (FlattenVertices(SceneFromVertexData(vertices, faces).vertices) == vertices &&
             FlattenFaces(SceneFromVertexData(vertices, faces).faces) == faces)
  {
    VertexLayoutRoundTrip(vertices, faces);
    FaceLayoutRoundTrip(vertices, faces);
    if |vertices| % 3 != 0 {
      assert |vertices[..|vertices| - |vertices| % 3]| < |vertices|;
    }
    if |faces| % 3 != 0 {
      assert |faces[..|faces| - |faces| % 3]| < |faces|;
    }
  }

  /** The scene construction as the source writes it: one loop filling the
      vertices, one filling the faces. */
  method CreateSceneFromVertexData(vertices: seq<real>, faces: seq<int32>) returns (s: Scene)
    ensures s == SceneFromVertexData(vertices, faces)
  {
    var numVertices := |vertices| / 3;
    var numFaces := |faces| / 3;
    var vs: seq<Vertex> := [];
    var v := 0;
    while v < numVertices
      invariant 0 <= v <= numVertices
      invariant |vs| == v
      invariant forall w :: 0 <= w < v ==> vs[w] == VertexAt(vertices, w)
    {
      vs := vs + [Vertex(vertices[3 * v + 0], vertices[3 * v + 1], vertices[3 * v + 2])];
      v := v + 1;
    }
    var fs: seq<Face> := [];
    var f := 0;
    while f < numFaces
      invariant 0 <= f <= numFaces
      invariant |fs| == f
      invariant forall g :: 0 <= g < f ==> fs[g] == FaceAt(faces, g)
    {
      var indices := [ToUnsigned(faces[3 * f + 0]), ToUnsigned(faces[3 * f + 1]), ToUnsigned(faces[3 * f + 2])];
      fs := fs + [Face(indices)];
      f := f + 1;
    }
    s := Scene(vs, fs);
  }
}
