/**
 * The scene handed over by the import library, as a plain input value:
 * a tree of nodes that refer to meshes by index, the meshes themselves and
 * the materials they refer to by index.
 */
module AiScene {
  import opened Wrappers
  import opened Geometry

  /** The scene flag that marks an import that did not complete. */
  const FlagsIncomplete: bv32 := 0x1

  /** The texture kinds the viewer asks for, and any other kind a material
      may carry. */
  datatype TextureType = Diffuse | Specular | Normals | OtherType(code: nat)

  /** A material maps each texture kind to its list of texture paths; a kind
      that is not in the map has no textures. */
  datatype Material = Material(textures: map<TextureType, seq<string>>) {
    function TexturePaths(kind: TextureType): seq<string> {
      if kind in textures then textures[kind] else []
    }
  }

  /** A face is the list of vertex indices it uses. */
  type Face = seq<nat>

  /** A mesh: positions, normals, the optional first texture-coordinate
      channel, faces and the index of its material. */
  datatype SceneMesh = SceneMesh(vertices: seq<Vec3>, normals: seq<Vec3>,
                                 texCoords: Option<seq<Vec3>>, faces: seq<Face>,
                                 materialIndex: nat)

  /** A node: the indices of its own meshes and its children. */
  datatype Node = Node(meshes: seq<nat>, children: seq<Node>)

  datatype Scene = Scene(flags: bv32, root: Option<Node>,
                         meshes: seq<SceneMesh>, materials: seq<Material>)

  /** Every vertex has a normal, and a coordinate when channel 0 exists. */
  predicate Shaped(mesh: SceneMesh) {
    && |mesh.normals| == |mesh.vertices|
    && (mesh.texCoords.Some? ==> |mesh.texCoords.value| == |mesh.vertices|)
  }

  /** What the loader dereferences without checking: the per-vertex arrays
      and the material the mesh refers to. */
  predicate MeshOk(mesh: SceneMesh, materialCount: nat) {
    Shaped(mesh) && mesh.materialIndex < materialCount
  }

  /** Mesh number `index` exists and can be converted. */
  predicate MeshIndexOk(scene: Scene, index: nat) {
    index < |scene.meshes| && MeshOk(scene.meshes[index], |scene.materials|)
  }

  /** Every mesh the subtree refers to exists and can be converted; meshes
      that no node refers to are never read and may be anything. */
  predicate NodeOk(node: Node, scene: Scene) {
    && (forall i :: 0 <= i < |node.meshes| ==> MeshIndexOk(scene, node.meshes[i]))
    && (forall i :: 0 <= i < |node.children| ==> NodeOk(node.children[i], scene))
  }

  /** What the walk from the root dereferences without checking. */
  predicate SceneOk(scene: Scene) {
    scene.root.Some? ==> NodeOk(scene.root.value, scene)
  }

  /** The import result is usable: present, complete and with a root node. */
  predicate Usable(imported: Option<Scene>) {
    && imported.Some?
    && imported.value.flags & FlagsIncomplete == 0
    && imported.value.root.Some?
  }

  /** The mesh indices of a subtree in pre-order: the node's own meshes in
      order, then each child's subtree from left to right. */
  function PreOrder(node: Node): seq<nat>
    decreases node, 1
  {
    node.meshes + PreOrderAll(node.children)
  }

  function PreOrderAll(nodes: seq<Node>): seq<nat>
    decreases nodes, 0
  {
    if nodes == [] then []
    else PreOrderAll(nodes[..|nodes| - 1]) + PreOrder(nodes[|nodes| - 1])
  }

  /** Every index the pre-order walk yields names a mesh that exists and
      can be converted. */
  lemma {:induction false} PreOrderInRange(node: Node, scene: Scene)
    requires NodeOk(node, scene)
    ensures forall k :: 0 <= k < |PreOrder(node)| ==> MeshIndexOk(scene, PreOrder(node)[k])
    decreases node, 1
  {
    PreOrderAllInRange(node.children, scene);
  }

  lemma {:induction false} PreOrderAllInRange(nodes: seq<Node>, scene: Scene)
    requires forall i :: 0 <= i < |nodes| ==> NodeOk(nodes[i], scene)
    ensures forall k :: 0 <= k < |PreOrderAll(nodes)| ==> MeshIndexOk(scene, PreOrderAll(nodes)[k])
    decreases nodes, 0
  {
    if nodes != [] {
      PreOrderAllInRange(nodes[..|nodes| - 1], scene);
      PreOrderInRange(nodes[|nodes| - 1], scene);
    }
  }
}
