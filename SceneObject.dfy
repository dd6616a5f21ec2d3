// One loaded mesh as the scene holds it: its identity, its vertex data, the
// bounding-box dimensions computed once at construction, and the two flags the
// renderer and the scene update afterwards. Also the flattening of a face-list
// mesh into the vertex sequence such an object is built from.

module SceneObjects {
  import opened Geometry

  /** C++ `unsigned int`. */
  newtype u32 = x: int | 0 <= x < 0x1_0000_0000

  const U32Max: u32 := 0xFFFF_FFFF

  /** std::numeric_limits<float>::max(), the seed of the bounding-box loop. */
  const FloatMax: real := 340282346638528859811704183484516925440.0

  /** `++m_idCounter` on an unsigned int: after the largest value it wraps to 0. */
  function NextId(c: u32): (r: u32)
    ensures r as int == (c as int + 1) % 0x1_0000_0000
  {
    if c == U32Max then 0 else c + 1
  }

  /** The ids handed out by `n` constructions, the counter starting at `last`. */
  function IssuedIds(last: u32, n: nat): seq<u32>
    decreases n
  {
    if n == 0 then [] else [NextId(last)] + IssuedIds(NextId(last), n - 1)
  }

  /** While the counter does not wrap, the k-th construction gets last + k + 1. */
  lemma {:induction false} IssuedIdsCount(last: u32, n: nat)
    requires last as int + n <= U32Max as int
    ensures |IssuedIds(last, n)| == n
    ensures forall k :: 0 <= k < n ==> IssuedIds(last, n)[k] as int == last as int + k + 1
    decreases n
  {
    if n > 0 {
      IssuedIdsCount(NextId(last), n - 1);
    }
  }

  /** From the initial counter value 0, ids are 1, 2, 3, ...: strictly increasing,
      hence pairwise distinct, for fewer than 2^32 constructions. */
  lemma IssuedIdsIncrease(n: nat)
    requires n <= U32Max as int
    ensures |IssuedIds(0, n)| == n
    ensures forall k :: 0 <= k < n ==> IssuedIds(0, n)[k] as int == k + 1
    ensures forall i, j :: 0 <= i < j < n ==> IssuedIds(0, n)[i] < IssuedIds(0, n)[j]
  {
    IssuedIdsCount(0, n);
  }

  /** The static member `SceneObject::m_idCounter`, initially 0. The program has
      one counter shared by every object; a single instance of this class, passed
      to every `SceneObject` constructor, stands for it. */
  class IdCounter {
    var last: u32

    constructor ()
      ensures last == 0
    {
      last := 0;
    }
  }

  /** A vertex record: only its position is read by the code modelled here. */
  datatype Vertex = Vertex(position: Vec3, normal: Vec3, texture: Vec2)

  function Min(a: real, b: real): real { if a <= b then a else b }
  function Max(a: real, b: real): real { if a >= b then a else b }

  /** What `minCoords` holds on axis `a` after the loop of calculateDimensions
      has processed `vs`, starting from FloatMax. */
  function MinCoord(vs: seq<Vertex>, a: Axis): (r: real)
    ensures r <= FloatMax
    ensures forall i :: 0 <= i < |vs| ==> r <= Coord(vs[i].position, a)
    ensures r == FloatMax || exists i :: 0 <= i < |vs| && Coord(vs[i].position, a) == r
  {
    if |vs| == 0 then FloatMax
    else
      var prev := MinCoord(vs[..|vs| - 1], a);
      assert forall i :: 0 <= i < |vs| - 1 ==> vs[..|vs| - 1][i] == vs[i];
      Min(prev, Coord(vs[|vs| - 1].position, a))
  }

  /** What `maxCoords` holds on axis `a`, starting from -FloatMax. */
  function MaxCoord(vs: seq<Vertex>, a: Axis): (r: real)
    ensures r >= -FloatMax
    ensures forall i :: 0 <= i < |vs| ==> Coord(vs[i].position, a) <= r
    ensures r == -FloatMax || exists i :: 0 <= i < |vs| && Coord(vs[i].position, a) == r
  {
    if |vs| == 0 then -FloatMax
    else
      var prev := MaxCoord(vs[..|vs| - 1], a);
      assert forall i :: 0 <= i < |vs| - 1 ==> vs[..|vs| - 1][i] == vs[i];
      Max(prev, Coord(vs[|vs| - 1].position, a))
  }

  /** A coordinate a float can hold. */
  predicate InFloatRange(v: Vec3)
  {
    -FloatMax <= v.x <= FloatMax && -FloatMax <= v.y <= FloatMax && -FloatMax <= v.z <= FloatMax
  }

  /** For a non-empty list of float vertices the loop yields the true extremes:
      each bound is attained by some vertex and the lower never exceeds the upper. */
  lemma BoundsAttained(vs: seq<Vertex>, a: Axis)
    requires |vs| > 0
    requires forall i :: 0 <= i < |vs| ==> InFloatRange(vs[i].position)
    ensures exists i :: 0 <= i < |vs| && Coord(vs[i].position, a) == MinCoord(vs, a)
    ensures exists i :: 0 <= i < |vs| && Coord(vs[i].position, a) == MaxCoord(vs, a)
    ensures MinCoord(vs, a) <= MaxCoord(vs, a)
  {
    assert InFloatRange(vs[0].position);
    assert MinCoord(vs, a) <= Coord(vs[0].position, a) <= MaxCoord(vs, a);
  }

  /** The min/max loop of calculateDimensions over the vertex positions. */
  method Bounds(vs: seq<Vertex>) returns (minCoords: Vec3, maxCoords: Vec3)
    ensures minCoords == Vec3(MinCoord(vs, X), MinCoord(vs, Y), MinCoord(vs, Z))
    ensures maxCoords == Vec3(MaxCoord(vs, X), MaxCoord(vs, Y), MaxCoord(vs, Z))
  {
    minCoords := Vec3(FloatMax, FloatMax, FloatMax);
    maxCoords := Vec3(-FloatMax, -FloatMax, -FloatMax);
    for i := 0 to |vs|
      invariant minCoords == Vec3(MinCoord(vs[..i], X), MinCoord(vs[..i], Y), MinCoord(vs[..i], Z))
      invariant maxCoords == Vec3(MaxCoord(vs[..i], X), MaxCoord(vs[..i], Y), MaxCoord(vs[..i], Z))
    {
      var p := vs[i].position;
      assert vs[..i + 1][..i] == vs[..i];
      minCoords := Vec3(Min(minCoords.x, p.x), Min(minCoords.y, p.y), Min(minCoords.z, p.z));
      maxCoords := Vec3(Max(maxCoords.x, p.x), Max(maxCoords.y, p.y), Max(maxCoords.z, p.z));
    }
    assert vs[..|vs|] == vs;
  }

  /** Component-wise sum of the vertex positions, accumulated in list order. */
  function SumPositions(vs: seq<Vertex>): Vec3
  {
    if |vs| == 0 then Zero else SumPositions(vs[..|vs| - 1]).Plus(vs[|vs| - 1].position)
  }

  /** The arithmetic mean of the vertex positions. */
  function Centroid(vs: seq<Vertex>): Vec3
    requires |vs| > 0
  {
    SumPositions(vs).Over(|vs| as real)
  }

  /** Every coordinate sum is at least n times a lower bound of the coordinates. */
  lemma {:induction false} SumAtLeast(vs: seq<Vertex>, a: Axis, lo: real)
    requires forall i :: 0 <= i < |vs| ==> lo <= Coord(vs[i].position, a)
    ensures |vs| as real * lo <= Coord(SumPositions(vs), a)
  {
    if |vs| > 0 {
      var init := vs[..|vs| - 1];
      assert forall i :: 0 <= i < |init| ==> init[i] == vs[i];
      SumAtLeast(init, a, lo);
    }
  }

  /** Every coordinate sum is at most n times an upper bound of the coordinates. */
  lemma {:induction false} SumAtMost(vs: seq<Vertex>, a: Axis, hi: real)
    requires forall i :: 0 <= i < |vs| ==> Coord(vs[i].position, a) <= hi
    ensures Coord(SumPositions(vs), a) <= |vs| as real * hi
  {
    if |vs| > 0 {
      var init := vs[..|vs| - 1];
      assert forall i :: 0 <= i < |init| ==> init[i] == vs[i];
      SumAtMost(init, a, hi);
    }
  }

  lemma DivideBounds(s: real, n: real, lo: real, hi: real)
    requires n > 0.0 && n * lo <= s <= n * hi
    ensures lo <= s / n <= hi
  {
  }

  /** Each coordinate of the centre is that coordinate's sum over the vertex count. */
  lemma CentroidCoord(vs: seq<Vertex>, a: Axis)
    requires |vs| > 0
    ensures Coord(Centroid(vs), a) == Coord(SumPositions(vs), a) / |vs| as real
  {
  }

  /** The centre of an object lies inside its bounding box on every axis. */
  lemma {:induction false} CentroidWithinBounds(vs: seq<Vertex>, a: Axis)
    requires |vs| > 0
    ensures MinCoord(vs, a) <= Coord(Centroid(vs), a) <= MaxCoord(vs, a)
  {
    var lo, hi := MinCoord(vs, a), MaxCoord(vs, a);
    SumAtLeast(vs, a, lo);
    SumAtMost(vs, a, hi);
    CentroidCoord(vs, a);
    DivideBounds(Coord(SumPositions(vs), a), |vs| as real, lo, hi);
  }

  /** A mesh as CGAL hands it over: one sequence of vertex points per face, in
      face order and, within a face, in the order around its halfedge. */
  type Mesh = seq<seq<Vec3>>

  /** The buffers makeObject builds an object from. */
  datatype MeshBuffers = MeshBuffers(vertices: seq<Vec3>, normals: seq<Vec3>, textures: seq<Vec2>)

  /** The points of the first faces, face after face. */
  function Flatten(faces: Mesh): (r: seq<Vec3>)
    ensures forall i, j :: 0 <= i < |faces| && 0 <= j < |faces[i]| ==> faces[i][j] in r
    ensures forall p :: p in r ==> exists i :: 0 <= i < |faces| && p in faces[i]
  {
    if |faces| == 0 then [] else Flatten(faces[..|faces| - 1]) + faces[|faces| - 1]
  }

  /** Sum of the face degrees (the number of points around each face). */
  function DegreeSum(faces: Mesh): nat
  {
    if |faces| == 0 then 0 else DegreeSum(faces[..|faces| - 1]) + |faces[|faces| - 1]|
  }

  /** Flattening distributes over splitting the face list. */
  lemma {:induction false} FlattenAppend(f: Mesh, g: Mesh)
    ensures Flatten(f + g) == Flatten(f) + Flatten(g)
    decreases |g|
  {
    if |g| > 0 {
      var g' := g[..|g| - 1];
      assert (f + g)[..|f + g| - 1] == f + g';
      FlattenAppend(f, g');
    } else {
      assert f + g == f;
    }
  }

  /** The vertex count is the sum of the face degrees. */
  lemma {:induction false} FlattenLength(faces: Mesh)
    ensures |Flatten(faces)| == DegreeSum(faces)
  {
    if |faces| > 0 {
      FlattenLength(faces[..|faces| - 1]);
    }
  }

  /** A fully triangulated mesh gives three vertices per face. */
  lemma {:induction false} TriangulatedLength(faces: Mesh)
    requires forall i :: 0 <= i < |faces| ==> |faces[i]| == 3
    ensures |Flatten(faces)| == 3 * |faces|
  {
    if |faces| > 0 {
      var init := faces[..|faces| - 1];
      assert forall i :: 0 <= i < |init| ==> init[i] == faces[i];
      TriangulatedLength(init);
    }
  }

  /** SceneObject::makeObject: a null mesh gives an empty pointer; otherwise the
      nested loops push every face's points in order, normals stay empty (their
      computation is commented out) and textures are not filled in yet. */
  method MakeObject(mesh: Option<Mesh>) returns (r: Option<MeshBuffers>)
    ensures mesh.None? <==> r.None?
    ensures mesh.Some? ==> r.value.vertices == Flatten(mesh.value)
    ensures mesh.Some? ==> r.value.normals == [] && r.value.textures == []
  {
    if mesh.None? {
      return None;
    }
    var faces := mesh.value;
    var vertices: seq<Vec3> := [];
    for i := 0 to |faces|
      invariant vertices == Flatten(faces[..i])
    {
      var face := faces[i];
      assert faces[..i + 1][..i] == faces[..i];
      for j := 0 to |face|
        invariant vertices == Flatten(faces[..i]) + face[..j]
      {
        vertices := vertices + [face[j]];
        assert face[..j + 1] == face[..j] + [face[j]];
      }
      assert face[..|face|] == face;
    }
    assert faces[..|faces|] == faces;
    return Some(MeshBuffers(vertices, [], []));
  }

  class SceneObject {
    const filepath: string
    const name: string
    const vertices: seq<Vertex>
    const numVertices: u32
    const numFaces: u32
    const numEdges: u32
    const id: u32
    /** Bounding-box extents in centimetres (metres × 100). */
    const length: real
    const width: real
    const height: real
    var buffersInited: bool
    var isActive: bool

    /** Stores its arguments unchanged, takes the next id from the counter and
        computes the bounding-box dimensions once. */
    constructor (counter: IdCounter, filepath: string, name: string, vertices: seq<Vertex>,
                 verticesCount: u32, facesCount: u32, edgesCount: u32)
      modifies counter
      ensures counter.last == NextId(old(counter.last)) && id == counter.last
      ensures this.filepath == filepath && this.name == name && this.vertices == vertices
      ensures numVertices == verticesCount && numFaces == facesCount && numEdges == edgesCount
      ensures !buffersInited && isActive
      ensures length == (MaxCoord(vertices, X) - MinCoord(vertices, X)) * 100.0
      ensures width == (MaxCoord(vertices, Y) - MinCoord(vertices, Y)) * 100.0
      ensures height == (MaxCoord(vertices, Z) - MinCoord(vertices, Z)) * 100.0
      ensures |vertices| > 0 ==> length >= 0.0 && width >= 0.0 && height >= 0.0
    {
      this.filepath := filepath;
      this.name := name;
      this.vertices := vertices;
      numVertices := verticesCount;
      numFaces := facesCount;
      numEdges := edgesCount;
      counter.last := NextId(counter.last);
      id := counter.last;
      buffersInited := false;
      isActive := true;
      var minCoords, maxCoords := Bounds(vertices);
      length := (maxCoords.x - minCoords.x) * 100.0;
      width := (maxCoords.y - minCoords.y) * 100.0;
      height := (maxCoords.z - minCoords.z) * 100.0;
      if |vertices| > 0 {
        assert MinCoord(vertices, X) <= Coord(vertices[0].position, X) <= MaxCoord(vertices, X);
        assert MinCoord(vertices, Y) <= Coord(vertices[0].position, Y) <= MaxCoord(vertices, Y);
        assert MinCoord(vertices, Z) <= Coord(vertices[0].position, Z) <= MaxCoord(vertices, Z);
      }
    }

    predicate IsBuffersInited()
      reads this
    {
      buffersInited
    }

    method SetBuffersInited(inited: bool)
      modifies this`buffersInited
      ensures IsBuffersInited() == inited
    {
      buffersInited := inited;
    }

    /** setVisible(state) with a Qt check state: 0 (unchecked) hides the object. */
    method SetVisible(state: int)
      modifies this`isActive
      ensures isActive == (state != 0)
    {
      isActive := state != 0;
    }

    /** getObjectCenter: accumulates the positions, then divides by their number. */
    method GetObjectCenter() returns (center: Vec3)
      requires |vertices| > 0
      ensures center == Centroid(vertices)
      ensures forall a :: MinCoord(vertices, a) <= Coord(center, a) <= MaxCoord(vertices, a)
    {
      center := Zero;
      for i := 0 to |vertices|
        invariant center == SumPositions(vertices[..i])
      {
        assert vertices[..i + 1][..i] == vertices[..i];
        center := center.Plus(vertices[i].position);
      }
      assert vertices[..|vertices|] == vertices;
      center := center.Over(|vertices| as real);
      forall a: Axis ensures MinCoord(vertices, a) <= Coord(center, a) <= MaxCoord(vertices, a) {
        CentroidWithinBounds(vertices, a);
      }
    }
  }
}
