/**
 * The records the loader produces: vertices, textures and meshes, and the
 * pure descriptions of the vertex and index lists a mesh is built from.
 */
module MeshData {
  import opened Wrappers
  import opened Geometry
  import opened AiScene

  datatype Vertex = Vertex(position: Vec3, normal: Vec3, texCoord: Vec2)

  /** A loaded texture: the name the graphics library gave it, its kind
      ("texture_diffuse", ...) and the path it was loaded from. */
  datatype Texture = Texture(id: nat, kind: string, path: string)

  datatype Mesh = Mesh(vertices: seq<Vertex>, indices: seq<nat>, textures: seq<Texture>)

  /** The i-th vertex of an imported mesh: position and normal copied, the
      coordinate taken from channel 0 when it exists and (0, 0) otherwise. */
  function VertexOf(mesh: SceneMesh, i: nat): Vertex
    requires i < |mesh.vertices| && Shaped(mesh)
  {
    var coord := match mesh.texCoords
      case Some(channel) => Vec2(channel[i].x, channel[i].y)
      case None => Vec2(0.0, 0.0);
    Vertex(mesh.vertices[i], mesh.normals[i], coord)
  }

  /** The concatenation of the faces' index lists, in face order. */
  function Flatten(faces: seq<Face>): seq<nat> {
    if faces == [] then [] else Flatten(faces[..|faces| - 1]) + faces[|faces| - 1]
  }

  /** The offset at which face i starts in the flattened list. */
  function Offset(faces: seq<Face>, i: nat): nat
    requires i <= |faces|
  {
    |Flatten(faces[..i])|
  }

  /** Flattening distributes over concatenation of face lists. */
  lemma {:induction false} FlattenAppend(a: seq<Face>, b: seq<Face>)
    ensures Flatten(a + b) == Flatten(a) + Flatten(b)
    decreases |b|
  {
    if b == [] {
      assert a + b == a;
    } else {
      var b' := b[..|b| - 1];
      assert (a + b)[..|a + b| - 1] == a + b';
      FlattenAppend(a, b');
    }
  }

  /** Face i's indices sit, in order, at their offset in the flattened list. */
  lemma {:induction false} FlattenAt(faces: seq<Face>, i: nat, j: nat)
    requires i < |faces| && j < |faces[i]|
    ensures Offset(faces, i) + j < |Flatten(faces)|
    ensures Flatten(faces)[Offset(faces, i) + j] == faces[i][j]
  {
    assert faces == faces[..i] + [faces[i]] + faces[i + 1..];
    FlattenAppend(faces[..i] + [faces[i]], faces[i + 1..]);
    FlattenAppend(faces[..i], [faces[i]]);
    var one: seq<Face> := [faces[i]];
    assert one[..0] == [];
    assert Flatten(one) == faces[i];
  }

  /** The flattened list holds exactly as many indices as the faces together. */
  function IndexCount(faces: seq<Face>): nat {
    if faces == [] then 0 else IndexCount(faces[..|faces| - 1]) + |faces[|faces| - 1]|
  }

  lemma {:induction false} FlattenLength(faces: seq<Face>)
    ensures |Flatten(faces)| == IndexCount(faces)
  {
    if faces != [] {
      FlattenLength(faces[..|faces| - 1]);
    }
  }
}
