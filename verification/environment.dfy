/**
 * Scenery meshes: the skybox sphere, the crossed grass quads and the distant
 * cylinder. Each builds its vertex list and its triangle index list with
 * loops; every index names a vertex that exists, and each cell's triangles
 * use that cell's corners. Vertex positions come from `sinf`/`cosf` and
 * are left out; a vertex is modelled by the grid place and texture
 * coordinates it is generated from.
 */
module Scenery {
  import opened Options
  import opened Maths
  import opened Textures
  import opened Materials

  // ---------------------------------------------------------------------------
  // Index patterns

  /** The six indices of a grid cell whose top-left corner is `first`, rows `stride` apart. */
  function GridCell(first: nat, stride: nat): seq<nat>
  {
    [first, first + 1, first + stride, first + stride, first + 1, first + stride + 1]
  }

  /** The six indices of a quad with corners `base .. base + 3`, two by two. */
  function StripQuad(base: nat): seq<nat>
  {
    [base, base + 1, base + 2, base + 1, base + 3, base + 2]
  }

  /** Every index names one of `count` vertices. */
  ghost predicate Below(indices: seq<nat>, count: nat)
  {
    forall i :: 0 <= i < |indices| ==> indices[i] < count
  }

  /** The `q`-th group of six indices is `cell`. */
  ghost predicate CellAt(indices: seq<nat>, q: nat, cell: seq<nat>)
  {
    6 * q + 6 <= |indices| && indices[6 * q..6 * q + 6] == cell
  }

  /** Appending keeps every group already there and places the new one after them. */
  lemma CellAppended(indices: seq<nat>, q: nat, cell: seq<nat>, count: nat)
    requires |indices| == 6 * q && |cell| == 6 && Below(indices, count) && Below(cell, count)
    ensures CellAt(indices + cell, q, cell) && Below(indices + cell, count) && |indices + cell| == 6 * (q + 1)
    ensures forall p, c :: CellAt(indices, p, c) ==> CellAt(indices + cell, p, c)
  {
    assert (indices + cell)[6 * q..6 * q + 6] == cell;
    forall p, c | CellAt(indices, p, c)
      ensures CellAt(indices + cell, p, c)
    {
      assert (indices + cell)[6 * p..6 * p + 6] == indices[6 * p..6 * p + 6];
    }
  }

  // ---------------------------------------------------------------------------
  // Skybox

  const LatitudeBands: nat := 30
  const LongitudeBands: nat := 30

  /** A sphere vertex: its latitude and longitude step and its texture coordinates. */
  datatype SkyVertex = SkyVertex(latitude: nat, longitude: nat, u: real, v: real)

  /** Vertex `(lat, lon)` sits at `lat * 31 + lon`, mapped `u = 1 - lon/30`, `v = lat/30`. */
  ghost predicate SkyVertexAt(vertices: seq<SkyVertex>, lat: nat, lon: nat)
  {
    lat * 31 + lon < |vertices| &&
    vertices[lat * 31 + lon] == SkyVertex(lat, lon, 1.0 - lon as real / 30.0, lat as real / 30.0)
  }

  /** Cell `(lat, lon)` is the `lat * 30 + lon`-th group, two triangles over its four corners. */
  ghost predicate SkyCell(indices: seq<nat>, lat: nat, lon: nat)
  {
    CellAt(indices, lat * 30 + lon, GridCell(lat * 31 + lon, 31))
  }

  /** One latitude row of the skybox vertex loop. */
  method SkyRow(vertices: seq<SkyVertex>, lat: nat) returns (result: seq<SkyVertex>)
    requires lat <= LatitudeBands && |vertices| == lat * 31
    requires forall l, m :: 0 <= l < lat && 0 <= m <= 30 ==> SkyVertexAt(vertices, l, m)
    ensures |result| == (lat + 1) * 31
    ensures forall l, m :: 0 <= l <= lat && 0 <= m <= 30 ==> SkyVertexAt(result, l, m)
  {
    result := vertices;
    var lon := 0;
    while lon <= LongitudeBands
      invariant 0 <= lon <= 31 && |result| == lat * 31 + lon && result[..lat * 31] == vertices
      invariant forall m :: 0 <= m < lon ==> SkyVertexAt(result, lat, m)
    {
      ghost var before := result;
      result := result + [SkyVertex(lat, lon, 1.0 - lon as real / LongitudeBands as real, lat as real / LatitudeBands as real)];
      forall m | 0 <= m <= lon
        ensures SkyVertexAt(result, lat, m)
      {
        if m < lon {
          assert SkyVertexAt(before, lat, m);
          assert result[lat * 31 + m] == before[lat * 31 + m];
        }
      }
      lon := lon + 1;
    }
    forall l, m | 0 <= l < lat && 0 <= m <= 30
      ensures SkyVertexAt(result, l, m)
    {
      assert SkyVertexAt(vertices, l, m);
      assert result[l * 31 + m] == vertices[l * 31 + m];
    }
  }

  /** The vertex loops of `Skybox::init`: 31 rows of 31 vertices. */
  method SkyboxVertices() returns (vertices: seq<SkyVertex>)
    ensures |vertices| == 961
    ensures forall lat, lon :: 0 <= lat <= 30 && 0 <= lon <= 30 ==> SkyVertexAt(vertices, lat, lon)
  {
    vertices := [];
    var lat := 0;
    while lat <= LatitudeBands
      invariant 0 <= lat <= 31 && |vertices| == lat * 31
      invariant forall l, m :: 0 <= l < lat && 0 <= m <= 30 ==> SkyVertexAt(vertices, l, m)
    {
      vertices := SkyRow(vertices, lat);
      lat := lat + 1;
    }
  }

  /** One latitude band of the skybox index loop. */
  method SkyBand(indices: seq<nat>, lat: nat) returns (result: seq<nat>)
    requires lat < LatitudeBands && |indices| == 6 * (lat * 30) && Below(indices, 961)
    requires forall l, m :: 0 <= l < lat && 0 <= m < 30 ==> SkyCell(indices, l, m)
    ensures |result| == 6 * ((lat + 1) * 30) && Below(result, 961)
    ensures forall l, m :: 0 <= l <= lat && 0 <= m < 30 ==> SkyCell(result, l, m)
  {
    result := indices;
    var lon := 0;
    while lon < LongitudeBands
      invariant 0 <= lon <= 30 && |result| == 6 * (lat * 30 + lon) && Below(result, 961)
      invariant forall l, m :: 0 <= l < lat && 0 <= m < 30 ==> SkyCell(result, l, m)
      invariant forall m :: 0 <= m < lon ==> SkyCell(result, lat, m)
    {
      var first := lat * (LongitudeBands + 1) + lon;
      var second := first + LongitudeBands + 1;
      var cell := [first, first + 1, second, second, first + 1, second + 1];
      assert cell == GridCell(lat * 31 + lon, 31);
      CellAppended(result, lat * 30 + lon, cell, 961);
      ghost var before := result;
      result := result + cell;
      forall l, m | (0 <= l < lat && 0 <= m < 30) || (l == lat && 0 <= m <= lon)
        ensures SkyCell(result, l, m)
      {
        if l < lat || m < lon {
          assert SkyCell(before, l, m);
        }
      }
      lon := lon + 1;
    }
  }

  /** The index loops of `Skybox::init`: 900 cells, six indices each, all below 961. */
  method SkyboxIndices() returns (indices: seq<nat>)
    ensures |indices| == 5400 && Below(indices, 961)
    ensures forall lat, lon :: 0 <= lat < 30 && 0 <= lon < 30 ==> SkyCell(indices, lat, lon)
  {
    indices := [];
    var lat := 0;
    while lat < LatitudeBands
      invariant 0 <= lat <= 30 && |indices| == 6 * (lat * 30) && Below(indices, 961)
      invariant forall l, m :: 0 <= l < lat && 0 <= m < 30 ==> SkyCell(indices, l, m)
    {
      indices := SkyBand(indices, lat);
      lat := lat + 1;
    }
  }

  /**
   * The triangles of skybox cell `(lat, lon)` span exactly its corners:
   * `(lat, lon)`, `(lat, lon + 1)`, `(lat + 1, lon)` and `(lat + 1, lon + 1)`.
   */
  lemma SkyCellCorners(vertices: seq<SkyVertex>, indices: seq<nat>, lat: nat, lon: nat)
    requires lat < 30 && lon < 30
    requires forall l, m :: 0 <= l <= 30 && 0 <= m <= 30 ==> SkyVertexAt(vertices, l, m)
    requires SkyCell(indices, lat, lon) && Below(indices, |vertices|)
    ensures var q := 6 * (lat * 30 + lon);
      vertices[indices[q]].latitude == lat && vertices[indices[q]].longitude == lon &&
      vertices[indices[q + 1]].latitude == lat && vertices[indices[q + 1]].longitude == lon + 1 &&
      vertices[indices[q + 2]].latitude == lat + 1 && vertices[indices[q + 2]].longitude == lon &&
      vertices[indices[q + 5]].latitude == lat + 1 && vertices[indices[q + 5]].longitude == lon + 1
  {
    var q := 6 * (lat * 30 + lon);
    assert indices[q..q + 6] == GridCell(lat * 31 + lon, 31);
    assert indices[q] == lat * 31 + lon && indices[q + 1] == lat * 31 + (lon + 1);
    assert indices[q + 2] == (lat + 1) * 31 + lon && indices[q + 5] == (lat + 1) * 31 + (lon + 1);
    assert SkyVertexAt(vertices, lat, lon) && SkyVertexAt(vertices, lat, lon + 1);
    assert SkyVertexAt(vertices, lat + 1, lon) && SkyVertexAt(vertices, lat + 1, lon + 1);
  }

  /** The skybox mesh: 961 vertices on the 31 x 31 grid and 900 cells over them, every index below 961. */
  ghost predicate SkyMeshOk(vertices: seq<SkyVertex>, indices: seq<nat>)
  {
    |vertices| == 961 && |indices| == 5400 && Below(indices, |vertices|) &&
    (forall lat, lon :: 0 <= lat <= 30 && 0 <= lon <= 30 ==> SkyVertexAt(vertices, lat, lon)) &&
    forall lat, lon :: 0 <= lat < 30 && 0 <= lon < 30 ==> SkyCell(indices, lat, lon)
  }

  class Skybox {
    var vertices: seq<SkyVertex>
    var indices: seq<nat>
    var material: Option<Material>
    var shaderName: string
    var initialized: bool

    constructor ()
      ensures material == None && !initialized
    {
      vertices, indices, material, shaderName, initialized := [], [], None, "", false;
    }

    /**
     * `init`: the sphere mesh, and a material whose diffuse texture is the
     * cache's entry for `texturePath`, textured exactly when it decoded.
     */
    method Init(manager: TextureManager, texturePath: string, decoded: Option<Image>)
      requires manager.Valid() && (decoded.Some? ==> Stageable(decoded.value))
      modifies this, manager
      ensures manager.Valid() && initialized && shaderName == "SkyboxEmissive"
      ensures SkyMeshOk(vertices, indices)
      ensures material.Some? && fresh(material.value) && texturePath in manager.textures
      ensures material.value.diffuseTexture == Some(manager.textures[texturePath])
      ensures material.value.hasTexture == manager.textures[texturePath].loaded
    {
      BuildMesh();
      LoadMaterial(manager, texturePath, decoded);
    }

    /** The material step of `init`, and the shader name; the mesh is untouched. */
    method LoadMaterial(manager: TextureManager, texturePath: string, decoded: Option<Image>)
      requires manager.Valid() && (decoded.Some? ==> Stageable(decoded.value))
      modifies `material, `shaderName, `initialized, manager
      ensures manager.Valid() && initialized && shaderName == "SkyboxEmissive"
      ensures material.Some? && fresh(material.value) && texturePath in manager.textures
      ensures material.value.diffuseTexture == Some(manager.textures[texturePath])
      ensures material.value.hasTexture == manager.textures[texturePath].loaded
    {
      shaderName := "SkyboxEmissive";
      initialized := true;
      material := DiffuseOnly(manager, texturePath, decoded);
    }

    /** The vertex and index loops of `init`. */
    method BuildMesh()
      modifies `vertices, `indices
      ensures SkyMeshOk(vertices, indices)
    {
      vertices := SkyboxVertices();
      indices := SkyboxIndices();
    }
  }

  /** A new material whose diffuse texture comes from the cache, textured exactly when it decoded. */
  method DiffuseOnly(manager: TextureManager, texturePath: string, decoded: Option<Image>) returns (material: Option<Material>)
    requires manager.Valid() && (decoded.Some? ==> Stageable(decoded.value))
    modifies manager
    ensures manager.Valid() && texturePath in manager.textures
    ensures material.Some? && fresh(material.value)
    ensures material.value.diffuseTexture == Some(manager.textures[texturePath])
    ensures material.value.hasTexture == manager.textures[texturePath].loaded
  {
    var m := new Material();
    var texture := manager.Load(texturePath, decoded);
    m.diffuseTexture := Some(texture);
    m.hasTexture := texture.loaded;
    material := Some(m);
  }

  // ---------------------------------------------------------------------------
  // Grass

  /** A mesh vertex as the grass table gives it; the tangent derived from the normal is left out. */
  datatype StaticVertex = StaticVertex(position: Vec3, normal: Vec3, u: real, v: real)

  /** The grass vertex table: two crossed quads, each drawn front and back, 0.5 wide either side and 1 high. */
  const GrassVertices: seq<StaticVertex> := [
    StaticVertex(Vec3(-0.5, 0.0, 0.0), Vec3(0.0, 0.0, 1.0), 0.0, 1.0),
    StaticVertex(Vec3(0.5, 0.0, 0.0), Vec3(0.0, 0.0, 1.0), 1.0, 1.0),
    StaticVertex(Vec3(-0.5, 1.0, 0.0), Vec3(0.0, 0.0, 1.0), 0.0, 0.0),
    StaticVertex(Vec3(0.5, 1.0, 0.0), Vec3(0.0, 0.0, 1.0), 1.0, 0.0),
    StaticVertex(Vec3(0.5, 0.0, 0.0), Vec3(0.0, 0.0, -1.0), 0.0, 1.0),
    StaticVertex(Vec3(-0.5, 0.0, 0.0), Vec3(0.0, 0.0, -1.0), 1.0, 1.0),
    StaticVertex(Vec3(0.5, 1.0, 0.0), Vec3(0.0, 0.0, -1.0), 0.0, 0.0),
    StaticVertex(Vec3(-0.5, 1.0, 0.0), Vec3(0.0, 0.0, -1.0), 1.0, 0.0),
    StaticVertex(Vec3(0.0, 0.0, -0.5), Vec3(1.0, 0.0, 0.0), 0.0, 1.0),
    StaticVertex(Vec3(0.0, 0.0, 0.5), Vec3(1.0, 0.0, 0.0), 1.0, 1.0),
    StaticVertex(Vec3(0.0, 1.0, -0.5), Vec3(1.0, 0.0, 0.0), 0.0, 0.0),
    StaticVertex(Vec3(0.0, 1.0, 0.5), Vec3(1.0, 0.0, 0.0), 1.0, 0.0),
    StaticVertex(Vec3(0.0, 0.0, 0.5), Vec3(-1.0, 0.0, 0.0), 0.0, 1.0),
    StaticVertex(Vec3(0.0, 0.0, -0.5), Vec3(-1.0, 0.0, 0.0), 1.0, 1.0),
    StaticVertex(Vec3(0.0, 1.0, 0.5), Vec3(-1.0, 0.0, 0.0), 0.0, 0.0),
    StaticVertex(Vec3(0.0, 1.0, -0.5), Vec3(-1.0, 0.0, 0.0), 1.0, 0.0)
  ]

  /** The index loop of `GrassPatch::init`: four quads of corners `4i .. 4i + 3`. */
  method GrassIndices() returns (indices: seq<nat>)
    ensures |indices| == 24 && Below(indices, |GrassVertices|)
    ensures forall i :: 0 <= i < 4 ==> CellAt(indices, i, StripQuad(4 * i))
  {
    indices := [];
    var i := 0;
    while i < 4
      invariant 0 <= i <= 4 && |indices| == 6 * i && Below(indices, 16)
      invariant forall j :: 0 <= j < i ==> CellAt(indices, j, StripQuad(4 * j))
    {
      var base := i * 4;
      var quad := [base + 0, base + 1, base + 2, base + 1, base + 3, base + 2];
      CellAppended(indices, i, quad, 16);
      indices := indices + quad;
      i := i + 1;
    }
  }

  /**
   * Every grass triangle faces one way: the six indices of quad `i` name
   * vertices sharing one normal, and each quad has a twin with the opposite
   * normal.
   */
  lemma GrassQuadsFaceOneWay(indices: seq<nat>, i: nat, k: nat)
    requires i < 4 && k < 6 && CellAt(indices, i, StripQuad(4 * i))
    ensures GrassVertices[indices[6 * i + k]].normal == GrassVertices[4 * i].normal
    ensures var n, t := GrassVertices[4 * i].normal, GrassVertices[4 * (if i % 2 == 0 then i + 1 else i - 1)].normal;
      t == Vec3(-n.x, -n.y, -n.z)
  {
    assert indices[6 * i..6 * i + 6] == StripQuad(4 * i);
    assert indices[6 * i + k] == StripQuad(4 * i)[k];
  }

  class GrassPatch {
    var vertices: seq<StaticVertex>
    var indices: seq<nat>
    var materials: seq<Material>
    var shaderName: string
    var time: real

    constructor ()
      ensures time == 0.0 && materials == []
    {
      vertices, indices, materials, shaderName, time := [], [], [], "", 0.0;
    }

    /** `init`: the grass mesh, 16 vertices and 24 indices below 16. */
    method Init()
      modifies this
      ensures vertices == GrassVertices && |indices| == 24 && Below(indices, |vertices|)
      ensures forall i :: 0 <= i < 4 ==> CellAt(indices, i, StripQuad(4 * i))
      ensures shaderName == "Grass" && materials == old(materials) && time == old(time)
    {
      vertices := GrassVertices;
      indices := GrassIndices();
      shaderName := "Grass";
    }

    /**
     * `addTexture`: one material, whose diffuse texture is the cache's entry
     * for `texturePath`, is appended. A cache load never returns null, so
     * the material counts as textured even when the file did not decode.
     */
    method AddTexture(manager: TextureManager, texturePath: string, decoded: Option<Image>)
      requires manager.Valid() && (decoded.Some? ==> Stageable(decoded.value))
      modifies this, manager
      ensures manager.Valid() && texturePath in manager.textures && time == old(time)
      ensures |materials| == |old(materials)| + 1 && materials[..|old(materials)|] == old(materials)
      ensures fresh(materials[|old(materials)|]) && materials[|old(materials)|].hasTexture
      ensures materials[|old(materials)|].diffuseTexture == Some(manager.textures[texturePath])
    {
      var m := GrassMaterial(manager, texturePath, decoded);
      materials := materials + [m];
    }

    /**
     * The guards of `drawInstanced`: with no instances nothing happens;
     * otherwise the wind clock advances by `dt`, and the material of grass
     * type `grassType` is bound when there is one. Returns that material.
     */
    method DrawInstanced(dt: real, grassType: int, instanceCount: int) returns (bound: Option<Material>)
      modifies `time
      ensures instanceCount == 0 ==> time == old(time) && bound == None
      ensures instanceCount != 0 ==> time == old(time) + dt
      ensures bound.Some? <==> instanceCount != 0 && 0 <= grassType < |materials|
      ensures bound.Some? ==> bound.value == materials[grassType]
    {
      if instanceCount == 0 {
        return None;
      }
      time := time + dt;
      bound := None;
      if grassType >= 0 && grassType < |materials| {
        bound := Some(materials[grassType]);
      }
    }
  }

  /** The material `addTexture` makes: the cache's texture for the path, marked textured. */
  method GrassMaterial(manager: TextureManager, texturePath: string, decoded: Option<Image>) returns (material: Material)
    requires manager.Valid() && (decoded.Some? ==> Stageable(decoded.value))
    modifies manager
    ensures manager.Valid() && texturePath in manager.textures
    ensures fresh(material) && material.hasTexture
    ensures material.diffuseTexture == Some(manager.textures[texturePath])
  {
    material := new Material();
    var texture := manager.Load(texturePath, decoded);
    material.diffuseTexture := Some(texture);
    material.hasTexture := true;
  }

  // ---------------------------------------------------------------------------
  // Distant layer

  const Segments: nat := 72

  /** A cylinder vertex: its column, whether it is on the top edge, and its `u`. */
  datatype ColumnVertex = ColumnVertex(column: nat, top: bool, u: real)

  /** Column `i` has its top vertex at `2i` and its bottom at `2i + 1`, both at `u = (i / 72) * repeatCount`. */
  ghost predicate ColumnAt(vertices: seq<ColumnVertex>, i: nat, repeatCount: int)
  {
    var u := (i as real / 72.0) * repeatCount as real;
    2 * i + 1 < |vertices| && vertices[2 * i] == ColumnVertex(i, true, u) && vertices[2 * i + 1] == ColumnVertex(i, false, u)
  }

  /** The vertex loop of `DistantLayer::init`: 73 columns of two. */
  method DistantVertices(repeatCount: int) returns (vertices: seq<ColumnVertex>)
    ensures |vertices| == 146
    ensures forall i :: 0 <= i <= 72 ==> ColumnAt(vertices, i, repeatCount)
  {
    vertices := [];
    var i := 0;
    while i <= Segments
      invariant 0 <= i <= 73 && |vertices| == 2 * i
      invariant forall j :: 0 <= j < i ==> ColumnAt(vertices, j, repeatCount)
    {
      var u := (i as real / Segments as real) * repeatCount as real;
      ghost var before := vertices;
      vertices := vertices + [ColumnVertex(i, true, u), ColumnVertex(i, false, u)];
      forall j | 0 <= j <= i
        ensures ColumnAt(vertices, j, repeatCount)
      {
        if j < i {
          assert ColumnAt(before, j, repeatCount);
          assert vertices[2 * j] == before[2 * j] && vertices[2 * j + 1] == before[2 * j + 1];
        }
      }
      i := i + 1;
    }
  }

  /** The index loop of `DistantLayer::init`: 72 quads of corners `2i .. 2i + 3`. */
  method DistantIndices() returns (indices: seq<nat>)
    ensures |indices| == 432 && Below(indices, 146)
    ensures forall i :: 0 <= i < 72 ==> CellAt(indices, i, StripQuad(2 * i))
  {
    indices := [];
    var i := 0;
    while i < Segments
      invariant 0 <= i <= 72 && |indices| == 6 * i && Below(indices, 146)
      invariant forall j :: 0 <= j < i ==> CellAt(indices, j, StripQuad(2 * j))
    {
      var base := i * 2;
      var quad := [base, base + 1, base + 2, base + 1, base + 3, base + 2];
      CellAppended(indices, i, quad, 146);
      indices := indices + quad;
      i := i + 1;
    }
  }

  /**
   * Quad `i` of the cylinder joins column `i` to column `i + 1`, and each of
   * its triangles has a top and a bottom vertex.
   */
  lemma DistantQuadSpansColumns(vertices: seq<ColumnVertex>, indices: seq<nat>, repeatCount: int, i: nat, k: nat)
    requires i < 72 && k < 6 && |vertices| == 146
    requires ColumnAt(vertices, i, repeatCount) && ColumnAt(vertices, i + 1, repeatCount)
    requires CellAt(indices, i, StripQuad(2 * i))
    ensures vertices[indices[6 * i + k]].column == i || vertices[indices[6 * i + k]].column == i + 1
    ensures var t := 6 * i + 3 * (k / 3);
      vertices[indices[t]].top != vertices[indices[t + 1]].top || vertices[indices[t + 1]].top != vertices[indices[t + 2]].top
  {
    assert indices[6 * i..6 * i + 6] == StripQuad(2 * i);
    assert indices[6 * i + k] == StripQuad(2 * i)[k];
    var t := 6 * i + 3 * (k / 3);
    assert indices[t] == StripQuad(2 * i)[3 * (k / 3)];
    assert indices[t + 1] == StripQuad(2 * i)[3 * (k / 3) + 1];
  }

  /** The cylinder mesh: 73 columns of two vertices and 72 quads between neighbouring columns, every index below 146. */
  ghost predicate DistantMeshOk(vertices: seq<ColumnVertex>, indices: seq<nat>, repeatCount: int)
  {
    |vertices| == 146 && |indices| == 432 && Below(indices, |vertices|) &&
    (forall i :: 0 <= i <= 72 ==> ColumnAt(vertices, i, repeatCount)) &&
    forall i :: 0 <= i < 72 ==> CellAt(indices, i, StripQuad(2 * i))
  }

  class DistantLayer {
    var vertices: seq<ColumnVertex>
    var indices: seq<nat>
    var material: Option<Material>
    var shaderName: string
    var initialized: bool

    constructor ()
      ensures material == None && !initialized
    {
      vertices, indices, material, shaderName, initialized := [], [], None, "", false;
    }

    /**
     * `init`: the cylinder mesh, texture repeated `repeatCount` times round
     * it, and a material textured exactly when its file decoded.
     */
    method Init(manager: TextureManager, texturePath: string, decoded: Option<Image>, repeatCount: int)
      requires manager.Valid() && (decoded.Some? ==> Stageable(decoded.value))
      modifies this, manager
      ensures manager.Valid() && initialized && shaderName == "DistantLayerEmissive"
      ensures DistantMeshOk(vertices, indices, repeatCount)
      ensures material.Some? && fresh(material.value) && texturePath in manager.textures
      ensures material.value.diffuseTexture == Some(manager.textures[texturePath])
      ensures material.value.hasTexture == manager.textures[texturePath].loaded
    {
      BuildMesh(repeatCount);
      LoadMaterial(manager, texturePath, decoded);
    }

    /** The material step of `init`, and the shader name; the mesh is untouched. */
    method LoadMaterial(manager: TextureManager, texturePath: string, decoded: Option<Image>)
      requires manager.Valid() && (decoded.Some? ==> Stageable(decoded.value))
      modifies `material, `shaderName, `initialized, manager
      ensures manager.Valid() && initialized && shaderName == "DistantLayerEmissive"
      ensures material.Some? && fresh(material.value) && texturePath in manager.textures
      ensures material.value.diffuseTexture == Some(manager.textures[texturePath])
      ensures material.value.hasTexture == manager.textures[texturePath].loaded
    {
      shaderName := "DistantLayerEmissive";
      initialized := true;
      material := DiffuseOnly(manager, texturePath, decoded);
    }

    /** The vertex and index loops of `init`. */
    method BuildMesh(repeatCount: int)
      modifies `vertices, `indices
      ensures DistantMeshOk(vertices, indices, repeatCount)
    {
      vertices := DistantVertices(repeatCount);
      indices := DistantIndices();
    }
  }
}
