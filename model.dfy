/**
 * The model loader: it walks the imported scene's node tree, converts each
 * mesh it meets into the viewer's own mesh record and loads every texture
 * file once, through a cache of the textures loaded so far.
 */
module ModelLoader {
  import opened Wrappers
  import opened Geometry
  import opened AiScene
  import opened MeshData
  import opened Paths
  import opened TextureCache

  const DiffuseName := "texture_diffuse"
  const SpecularName := "texture_specular"
  const NormalName := "texture_normal"

  /** The graphics library as far as the loader sees it: it hands out fresh
      texture names, and it reads the image files it is given, which the
      model records in order. */
  class Gl {
    var nameCount: nat
    var files: seq<string>

    constructor ()
      ensures nameCount == 0 && files == []
    {
      nameCount := 0;
      files := [];
    }
  }

  /** Loads the image at `path` relative to `directory` into a new texture
      and returns that texture's name. */
  method TextureFromFile(gl: Gl, path: string, directory: string) returns (id: nat)
    modifies gl
    ensures id == old(gl.nameCount) + 1 && gl.nameCount == id
    ensures gl.files == old(gl.files) + [JoinPath(directory, path)]
  {
    var filename := JoinPath(directory, path);
    gl.nameCount := gl.nameCount + 1;
    id := gl.nameCount;
    gl.files := gl.files + [filename];
  }

  /** The pixel formats an image is uploaded with. */
  datatype PixelFormat = Red | Rgb | Rgba

  function Channels(format: PixelFormat): nat {
    match format
    case Red => 1
    case Rgb => 3
    case Rgba => 4
  }

  /** The upload format for an image with the given number of components;
      no format is chosen for any other count. */
  function FormatFor(components: int): (r: Option<PixelFormat>)
    ensures r.Some? ==> Channels(r.value) == components
    ensures r.None? <==> components != 1 && components != 3 && components != 4
  {
    if components == 1 then Some(Red)
    else if components == 3 then Some(Rgb)
    else if components == 4 then Some(Rgba)
    else None
  }

  /** The texture paths a mesh asks its material for: diffuse, then
      specular, then normal maps. */
  function MaterialPaths(material: Material): seq<string> {
    material.TexturePaths(Diffuse) + material.TexturePaths(Specular)
      + material.TexturePaths(Normals)
  }

  /** The texture requests a mesh with this material makes, in order: its
      diffuse paths, then its specular paths, then its normal paths, each
      tagged with the type name its kind is loaded under. */
  function MeshRequests(material: Material): seq<Request> {
    Tagged(material.TexturePaths(Diffuse), DiffuseName)
      + Tagged(material.TexturePaths(Specular), SpecularName)
      + Tagged(material.TexturePaths(Normals), NormalName)
  }

  /** The requests of a mesh ask for the material's paths, in order. */
  lemma {:induction false} MeshRequestPaths(material: Material)
    ensures RequestPaths(MeshRequests(material)) == MaterialPaths(material)
  {
    var d := Tagged(material.TexturePaths(Diffuse), DiffuseName);
    var s := Tagged(material.TexturePaths(Specular), SpecularName);
    var n := Tagged(material.TexturePaths(Normals), NormalName);
    assert RequestPaths(d + s + n) == RequestPaths(d) + RequestPaths(s) + RequestPaths(n);
  }

  /** The requests the meshes with the given scene indices make when they
      are converted in that order; an index out of range, or a mesh whose
      material is out of range, requests nothing. */
  function WalkRequests(scene: Scene, order: seq<nat>): seq<Request> {
    if order == [] then []
    else
      var i := order[|order| - 1];
      var last :=
        if i < |scene.meshes| && scene.meshes[i].materialIndex < |scene.materials|
        then MeshRequests(scene.materials[scene.meshes[i].materialIndex]) else [];
      WalkRequests(scene, order[..|order| - 1]) + last
  }

  /** Walking two stretches of meshes makes the requests of both, in order. */
  lemma {:induction false} WalkRequestsAppend(scene: Scene, a: seq<nat>, b: seq<nat>)
    ensures WalkRequests(scene, a + b) == WalkRequests(scene, a) + WalkRequests(scene, b)
    decreases |b|
  {
    if b == [] {
      assert a + b == a;
    } else {
      var front := b[..|b| - 1];
      assert (a + b)[..|a + b| - 1] == a + front;
      WalkRequestsAppend(scene, a, front);
      var last := WalkRequests(scene, b) [|WalkRequests(scene, front)|..];
      assert WalkRequests(scene, b) == WalkRequests(scene, front) + last;
      AppendAssoc(WalkRequests(scene, a), WalkRequests(scene, front), last);
    }
  }

  /** The requests of a subtree's walk, node by node: the node's own meshes,
      then each child's subtree from first to last. */
  function NodeRequests(scene: Scene, node: Node): seq<Request>
    decreases node, 1
  {
    WalkRequests(scene, node.meshes) + ChildrenRequests(scene, node.children)
  }

  function ChildrenRequests(scene: Scene, nodes: seq<Node>): seq<Request>
    decreases nodes, 0
  {
    if nodes == [] then []
    else ChildrenRequests(scene, nodes[..|nodes| - 1]) + NodeRequests(scene, nodes[|nodes| - 1])
  }

  /** The walk of a subtree makes the requests of its meshes in pre-order. */
  lemma {:induction false} NodeRequestsWalk(scene: Scene, node: Node)
    ensures NodeRequests(scene, node) == WalkRequests(scene, PreOrder(node))
    decreases node, 1
  {
    ChildrenRequestsWalk(scene, node.children);
    WalkRequestsAppend(scene, node.meshes, PreOrderAll(node.children));
  }

  lemma {:induction false} ChildrenRequestsWalk(scene: Scene, nodes: seq<Node>)
    ensures ChildrenRequests(scene, nodes) == WalkRequests(scene, PreOrderAll(nodes))
    decreases nodes, 0
  {
    if nodes != [] {
      var front, last := nodes[..|nodes| - 1], nodes[|nodes| - 1];
      ChildrenRequestsWalk(scene, front);
      NodeRequestsWalk(scene, last);
      WalkRequestsAppend(scene, PreOrderAll(front), PreOrder(last));
    }
  }

  /** The log after one more mesh of a node's own list. */
  lemma {:induction false} MeshLogStep(scene: Scene, indices: seq<nat>, i: nat,
                                       log0: seq<Request>, log1: seq<Request>, log2: seq<Request>)
    requires i < |indices| && indices[i] < |scene.meshes|
    requires scene.meshes[indices[i]].materialIndex < |scene.materials|
    requires log1 == log0 + WalkRequests(scene, indices[..i])
    requires log2 == log1 + MeshRequests(scene.materials[scene.meshes[indices[i]].materialIndex])
    ensures log2 == log0 + WalkRequests(scene, indices[..i + 1])
  {
    assert indices[..i + 1][..i] == indices[..i];
    AppendAssoc(log0, WalkRequests(scene, indices[..i]),
                MeshRequests(scene.materials[scene.meshes[indices[i]].materialIndex]));
  }

  /** The log after a node's own meshes and then its children. */
  lemma {:induction false} NodeLogStep(scene: Scene, node: Node,
                                       log0: seq<Request>, log1: seq<Request>, log2: seq<Request>)
    requires log1 == log0 + WalkRequests(scene, node.meshes)
    requires log2 == log1 + ChildrenRequests(scene, node.children)
    ensures log2 == log0 + NodeRequests(scene, node)
  {
    AppendAssoc(log0, WalkRequests(scene, node.meshes), ChildrenRequests(scene, node.children));
  }

  /** The log after one more child. */
  lemma {:induction false} ChildLogStep(scene: Scene, children: seq<Node>, j: nat,
                                        log0: seq<Request>, log1: seq<Request>, log2: seq<Request>)
    requires j < |children|
    requires log1 == log0 + ChildrenRequests(scene, children[..j])
    requires log2 == log1 + NodeRequests(scene, children[j])
    ensures log2 == log0 + ChildrenRequests(scene, children[..j + 1])
  {
    assert children[..j + 1][..j] == children[..j];
    AppendAssoc(log0, ChildrenRequests(scene, children[..j]), NodeRequests(scene, children[j]));
  }

  /** `m` is the conversion of `mesh` whose textures are the hits, in
      `cache`, of the material's texture paths. */
  ghost predicate Built(m: Mesh, mesh: SceneMesh, material: Material, cache: seq<Texture>) {
    && Shaped(mesh)
    && |m.vertices| == |mesh.vertices|
    && (forall i :: 0 <= i < |m.vertices| ==> m.vertices[i] == VertexOf(mesh, i))
    && m.indices == Flatten(mesh.faces)
    && Hits(cache, MaterialPaths(material), m.textures)
  }

  /** `m` is the conversion of mesh number `index` of the scene. */
  ghost predicate BuiltFrom(m: Mesh, scene: Scene, index: nat, cache: seq<Texture>) {
    && index < |scene.meshes|
    && scene.meshes[index].materialIndex < |scene.materials|
    && Built(m, scene.meshes[index], scene.materials[scene.meshes[index].materialIndex], cache)
  }

  /** `ms` are the conversions of the scene's meshes listed in `order`. */
  ghost predicate AllBuilt(ms: seq<Mesh>, scene: Scene, order: seq<nat>, cache: seq<Texture>) {
    && |ms| == |order|
    && forall k {:trigger ms[k]} :: 0 <= k < |ms| ==> BuiltFrom(ms[k], scene, order[k], cache)
  }

  /** A conversion stays one when the cache grows. */
  lemma {:induction false} AllBuiltGrow(ms: seq<Mesh>, scene: Scene, order: seq<nat>,
                                        cache: seq<Texture>, cache': seq<Texture>)
    requires AllBuilt(ms, scene, order, cache) && cache <= cache'
    ensures AllBuilt(ms, scene, order, cache')
  {
    forall k | 0 <= k < |ms|
      ensures BuiltFrom(ms[k], scene, order[k], cache')
    {
      assert BuiltFrom(ms[k], scene, order[k], cache);
      var mesh := scene.meshes[order[k]];
      HitsGrow(cache, cache', MaterialPaths(scene.materials[mesh.materialIndex]), ms[k].textures);
    }
  }

  lemma {:induction false} AllBuiltAppend(ms1: seq<Mesh>, o1: seq<nat>, ms2: seq<Mesh>,
                                          o2: seq<nat>,
                                          scene: Scene, cache: seq<Texture>)
    requires AllBuilt(ms1, scene, o1, cache) && AllBuilt(ms2, scene, o2, cache)
    ensures AllBuilt(ms1 + ms2, scene, o1 + o2, cache)
  {
    forall k | |ms1| <= k < |ms1| + |ms2|
      ensures BuiltFrom((ms1 + ms2)[k], scene, (o1 + o2)[k], cache)
    {
      assert (ms1 + ms2)[k] == ms2[k - |ms1|];
      assert (o1 + o2)[k] == o2[k - |ms1|];
    }
  }

  /** The conversions after one more mesh of a node's own list. */
  lemma {:induction false} MeshBuiltStep(built: seq<Mesh>, m: Mesh, scene: Scene,
                                         indices: seq<nat>, i: nat,
                                         cache: seq<Texture>, cache': seq<Texture>)
    requires i < |indices|
    requires AllBuilt(built, scene, indices[..i], cache) && cache <= cache'
    requires BuiltFrom(m, scene, indices[i], cache')
    ensures AllBuilt(built + [m], scene, indices[..i + 1], cache')
  {
    AllBuiltGrow(built, scene, indices[..i], cache, cache');
    AllBuiltAppend(built, indices[..i], [m], [indices[i]], scene, cache');
    assert indices[..i + 1] == indices[..i] + [indices[i]];
  }

  /** The conversions after a node's own meshes and then its children. */
  lemma {:induction false} NodeBuiltStep(b1: seq<Mesh>, b2: seq<Mesh>, scene: Scene, node: Node,
                                         cache: seq<Texture>, cache': seq<Texture>)
    requires AllBuilt(b1, scene, node.meshes, cache) && cache <= cache'
    requires AllBuilt(b2, scene, PreOrderAll(node.children), cache')
    ensures AllBuilt(b1 + b2, scene, PreOrder(node), cache')
  {
    AllBuiltGrow(b1, scene, node.meshes, cache, cache');
    AllBuiltAppend(b1, node.meshes, b2, PreOrderAll(node.children), scene, cache');
  }

  /** The conversions after one more child. */
  lemma {:induction false} ChildBuiltStep(b1: seq<Mesh>, b2: seq<Mesh>, scene: Scene,
                                          children: seq<Node>, j: nat,
                                          cache: seq<Texture>, cache': seq<Texture>)
    requires j < |children|
    requires AllBuilt(b1, scene, PreOrderAll(children[..j]), cache) && cache <= cache'
    requires AllBuilt(b2, scene, PreOrder(children[j]), cache')
    ensures AllBuilt(b1 + b2, scene, PreOrderAll(children[..j + 1]), cache')
  {
    AllBuiltGrow(b1, scene, PreOrderAll(children[..j]), cache, cache');
    AllBuiltAppend(b1, PreOrderAll(children[..j]), b2, PreOrder(children[j]), scene, cache');
    assert children[..j + 1][..j] == children[..j];
  }

  /** One turn of the loop over a node's own meshes: with mesh i converted,
      the log, the conversions, the cache growth and the name counter
      cover the first i + 1 meshes. */
  lemma {:induction false} MeshStep(scene: Scene, indices: seq<nat>, i: nat, directory: string,
                                    m: Mesh, m0: seq<Mesh>, ms: seq<Mesh>,
                                    r0: seq<Request>, rb: seq<Request>, r: seq<Request>,
                                    c0: seq<Texture>, cb: seq<Texture>, c: seq<Texture>,
                                    f0: seq<string>, fb: seq<string>, f: seq<string>,
                                    n0: nat, nb: nat, n: nat)
    requires i < |indices| && MeshIndexOk(scene, indices[i])
    requires rb == r0 + WalkRequests(scene, indices[..i])
    requires r == rb + MeshRequests(scene.materials[scene.meshes[indices[i]].materialIndex])
    requires m0 <= ms && AllBuilt(ms[|m0|..], scene, indices[..i], cb)
    requires Built(m, scene.meshes[indices[i]],
                   scene.materials[scene.meshes[indices[i]].materialIndex], c)
    requires Grew(c0, cb, f0, fb, n0 + 1, directory) && nb == n0 + (|cb| - |c0|)
    requires Grew(cb, c, fb, f, nb + 1, directory) && n == nb + (|c| - |cb|)
    ensures r == r0 + WalkRequests(scene, indices[..i + 1])
    ensures m0 <= ms + [m] && AllBuilt((ms + [m])[|m0|..], scene, indices[..i + 1], c)
    ensures Grew(c0, c, f0, f, n0 + 1, directory)
    ensures n == n0 + (|c| - |c0|)
  {
    MeshLogStep(scene, indices, i, r0, rb, r);
    GrewTrans(c0, cb, c, f0, fb, f, n0 + 1, nb + 1, directory);
    MeshBuiltStep(ms[|m0|..], m, scene, indices, i, cb, c);
    GainedSnoc(m0, ms, m);
  }

  /** One turn of the loop over a node's children: with child j walked, the
      log, the conversions, the cache growth and the name counter cover the
      first j + 1 children. */
  lemma {:induction false} ChildStep(scene: Scene, children: seq<Node>, j: nat, directory: string,
                                     m0: seq<Mesh>, mb: seq<Mesh>, ms: seq<Mesh>,
                                     r0: seq<Request>, rb: seq<Request>, r: seq<Request>,
                                     c0: seq<Texture>, cb: seq<Texture>, c: seq<Texture>,
                                     f0: seq<string>, fb: seq<string>, f: seq<string>,
                                     n0: nat, nb: nat, n: nat)
    requires j < |children|
    requires rb == r0 + ChildrenRequests(scene, children[..j])
    requires r == rb + NodeRequests(scene, children[j])
    requires m0 <= mb && AllBuilt(mb[|m0|..], scene, PreOrderAll(children[..j]), cb)
    requires mb <= ms && AllBuilt(ms[|mb|..], scene, PreOrder(children[j]), c)
    requires Grew(c0, cb, f0, fb, n0 + 1, directory) && nb == n0 + (|cb| - |c0|)
    requires Grew(cb, c, fb, f, nb + 1, directory) && n == nb + (|c| - |cb|)
    ensures r == r0 + ChildrenRequests(scene, children[..j + 1])
    ensures m0 <= ms && AllBuilt(ms[|m0|..], scene, PreOrderAll(children[..j + 1]), c)
    ensures Grew(c0, c, f0, f, n0 + 1, directory)
    ensures n == n0 + (|c| - |c0|)
  {
    ChildLogStep(scene, children, j, r0, rb, r);
    GrewTrans(c0, cb, c, f0, fb, f, n0 + 1, nb + 1, directory);
    ChildBuiltStep(mb[|m0|..], ms[|mb|..], scene, children, j, cb, c);
    GainedSplit(m0, mb, ms);
  }

  /** What a list gained past s0 is what it gained up to s1 and then past s1. */
  lemma {:induction false} GainedSplit(s0: seq<Mesh>, s1: seq<Mesh>, s2: seq<Mesh>)
    requires s0 <= s1 && s1 <= s2
    ensures s2[|s0|..] == s1[|s0|..] + s2[|s1|..]
  {
    assert s1 == s2[..|s1|];
  }

  /** Appending a mesh extends what the list gained past s0 by that mesh. */
  lemma {:induction false} GainedSnoc(s0: seq<Mesh>, s1: seq<Mesh>, m: Mesh)
    requires s0 <= s1
    ensures s0 <= s1 + [m] && (s1 + [m])[|s0|..] == s1[|s0|..] + [m]
  {
  }

  /** The vertex list of a mesh, converted one vertex at a time. */
  method CopyVertices(mesh: SceneMesh) returns (vertices: seq<Vertex>)
    requires Shaped(mesh)
    ensures |vertices| == |mesh.vertices|
    ensures forall i :: 0 <= i < |vertices| ==>
              vertices[i].position == mesh.vertices[i] && vertices[i].normal == mesh.normals[i]
    ensures mesh.texCoords.Some? ==> forall i :: 0 <= i < |vertices| ==>
              vertices[i].texCoord == Vec2(mesh.texCoords.value[i].x, mesh.texCoords.value[i].y)
    ensures mesh.texCoords.None? ==> forall i :: 0 <= i < |vertices| ==>
              vertices[i].texCoord == Vec2(0.0, 0.0)
  {
    vertices := [];
    var i := 0;
    while i < |mesh.vertices|
      invariant 0 <= i <= |mesh.vertices|
      invariant |vertices| == i
      invariant forall k :: 0 <= k < i ==>
                  vertices[k].position == mesh.vertices[k] && vertices[k].normal == mesh.normals[k]
      invariant mesh.texCoords.Some? ==> forall k :: 0 <= k < i ==>
                  vertices[k].texCoord == Vec2(mesh.texCoords.value[k].x, mesh.texCoords.value[k].y)
      invariant mesh.texCoords.None? ==> forall k :: 0 <= k < i ==>
                  vertices[k].texCoord == Vec2(0.0, 0.0)
    {
      var position := mesh.vertices[i];
      var normal := mesh.normals[i];
      var coord;
      if mesh.texCoords.Some? {
        coord := Vec2(mesh.texCoords.value[i].x, mesh.texCoords.value[i].y);
      } else {
        coord := Vec2(0.0, 0.0);
      }
      vertices := vertices + [Vertex(position, normal, coord)];
      i := i + 1;
    }
  }

  /** The index list of a mesh: every face's indices, face after face. */
  method CollectIndices(faces: seq<Face>) returns (indices: seq<nat>)
    ensures indices == Flatten(faces)
  {
    indices := [];
    var i := 0;
    while i < |faces|
      invariant 0 <= i <= |faces|
      invariant indices == Flatten(faces[..i])
    {
      var face := faces[i];
      var j := 0;
      while j < |face|
        invariant 0 <= j <= |face|
        invariant indices == Flatten(faces[..i]) + face[..j]
      {
        indices := indices + [face[j]];
        j := j + 1;
      }
      assert face[..j] == face;
      assert faces[..i + 1][..i] == faces[..i];
      i := i + 1;
    }
    assert faces[..i] == faces;
  }

  /** The three runs of a mesh's texture loading, for its material's diffuse,
      specular and normal maps, each continuing the cache and the texture
      names where the previous one stopped. */
  ghost predicate MeshRuns(cache0: seq<Texture>, material: Material,
                           id1: nat, r1: Outcome, id2: nat, r2: Outcome, id3: nat, r3: Outcome)
  {
    && RunOf(r1, cache0, material.TexturePaths(Diffuse), DiffuseName, id1)
    && id2 == id1 + |r1.misses|
    && RunOf(r2, r1.cache, material.TexturePaths(Specular), SpecularName, id2)
    && id3 == id2 + |r2.misses|
    && RunOf(r3, r2.cache, material.TexturePaths(Normals), NormalName, id3)
  }

  /** The three runs of one mesh in terms of the misses of each: which paths each run
      loads, and the textures each appends to the cache. */
  lemma {:induction false} MeshRunsCache(cache0: seq<Texture>, material: Material,
                                         firstId: nat, r1: Outcome, id2: nat, r2: Outcome,
                                         id3: nat, r3: Outcome)
    requires MeshRuns(cache0, material, firstId, r1, id2, r2, id3, r3)
    ensures var known := PathsOf(cache0);
            var diffuse := Misses(known, material.TexturePaths(Diffuse));
            var specular := Misses(known + diffuse, material.TexturePaths(Specular));
            var normal := Misses(known + diffuse + specular, material.TexturePaths(Normals));
            && r1.misses == diffuse && r2.misses == specular && r3.misses == normal
    ensures r1.cache == cache0 + Fresh(r1.misses, DiffuseName, firstId)
    ensures r2.cache == r1.cache + Fresh(r2.misses, SpecularName, id2)
    ensures r3.cache == r2.cache + Fresh(r3.misses, NormalName, id3)
  {
    LoadRunEffect(cache0, material.TexturePaths(Diffuse), DiffuseName, firstId, [], "");
    LoadRunEffect(r1.cache, material.TexturePaths(Specular), SpecularName, id2, [], "");
    LoadRunEffect(r2.cache, material.TexturePaths(Normals), NormalName, id3, [], "");
  }

  /** What the three runs of one mesh leave behind: the cache only grows, one
      texture and one file read per miss, and the mesh's textures are the cache's
      answers to all of the material's paths. */
  lemma {:induction false} MeshRunsEffect(cache0: seq<Texture>, material: Material, id1: nat,
                                          r1: Outcome,
                                          id2: nat, r2: Outcome, id3: nat, r3: Outcome,
                                          files0: seq<string>, directory: string)
    requires MeshRuns(cache0, material, id1, r1, id2, r2, id3, r3)
    ensures Grew(cache0, r3.cache, files0,
                 files0 + Joined(directory, r1.misses) + Joined(directory, r2.misses)
                   + Joined(directory, r3.misses),
                 id1, directory)
    ensures |r1.misses| + |r2.misses| + |r3.misses| == |r3.cache| - |cache0|
    ensures Hits(r3.cache, MaterialPaths(material), r1.textures + r2.textures + r3.textures)
  {
    var c1, c2 := r1.cache, r2.cache;
    var f1 := files0 + Joined(directory, r1.misses);
    var f2 := f1 + Joined(directory, r2.misses);
    LoadRunEffect(cache0, material.TexturePaths(Diffuse), DiffuseName, id1, files0, directory);
    LoadRunEffect(c1, material.TexturePaths(Specular), SpecularName, id2, f1, directory);
    LoadRunEffect(c2, material.TexturePaths(Normals), NormalName, id3, f2, directory);
    GrewTrans(cache0, c1, c2, files0, f1, f2, id1, id2, directory);
    GrewTrans(cache0, c2, r3.cache, files0, f2, f2 + Joined(directory, r3.misses),
              id1, id3, directory);
    HitsGrow(c1, r3.cache, material.TexturePaths(Diffuse), r1.textures);
    HitsGrow(c2, r3.cache, material.TexturePaths(Specular), r2.textures);
    HitsAppend(r3.cache, material.TexturePaths(Diffuse), r1.textures,
               material.TexturePaths(Specular), r2.textures);
    HitsAppend(r3.cache, material.TexturePaths(Diffuse) + material.TexturePaths(Specular),
               r1.textures + r2.textures, material.TexturePaths(Normals), r3.textures);
  }

  class Model {
    /** The textures loaded so far, in load order. */
    var texturesLoaded: seq<Texture>
    var meshes: seq<Mesh>
    /** The directory texture paths are resolved against. */
    var directory: string
    /** The imported scene; None stands for a null scene pointer. */
    var scene: Option<Scene>

    /** Every texture request made so far, in order, with the type name it
        was made under. */
    ghost var requested: seq<Request>

    /** The cache holds one entry for each request of the log that asked
        for its path first, in log order; so no path is cached twice
        (LoggedNoDup). */
    ghost predicate Valid()
      reads this
    {
      Entries(texturesLoaded) == Missed([], requested)
    }

    /** Reads the model at `path`; `imported` is what the import library
        returns for it. */
    constructor (path: string, imported: Option<Scene>, gl: Gl)
      requires Usable(imported) ==> SceneOk(imported.value)
      modifies gl
      ensures Valid() && NoDup(PathsOf(texturesLoaded))
      ensures scene == imported
      ensures !Usable(imported) ==>
                meshes == [] && texturesLoaded == [] && directory == "" && requested == []
      ensures !Usable(imported) ==>
                gl.files == old(gl.files) && gl.nameCount == old(gl.nameCount)
      ensures Usable(imported) ==>
                var requests := NodeRequests(imported.value, imported.value.root.value);
                && directory == Directory(path)
                && requested == requests
                && texturesLoaded == AfterRequests([], requests, old(gl.nameCount) + 1)
                && AllBuilt(meshes, imported.value, PreOrder(imported.value.root.value), texturesLoaded)
                && Grew([], texturesLoaded, old(gl.files), gl.files, old(gl.nameCount) + 1, directory)
                && gl.nameCount == old(gl.nameCount) + |texturesLoaded|
    {
      texturesLoaded := [];
      meshes := [];
      directory := "";
      scene := None;
      requested := [];
      new;
      LoadModel(path, imported, gl);
    }

    /** Takes the import result for `path`; when the scene is missing,
        incomplete or has no root nothing else happens, otherwise the
        directory is set and the node tree is walked from the root. */
    method LoadModel(path: string, imported: Option<Scene>, gl: Gl)
      requires Valid()
      requires Usable(imported) ==> SceneOk(imported.value)
      modifies this`scene, this`directory, this`texturesLoaded, this`meshes, this`requested, gl
      ensures Valid() && NoDup(PathsOf(texturesLoaded))
      ensures scene == imported
      ensures !Usable(imported) ==>
                && directory == old(directory) && meshes == old(meshes)
                && texturesLoaded == old(texturesLoaded) && requested == old(requested)
                && gl.files == old(gl.files) && gl.nameCount == old(gl.nameCount)
      ensures Usable(imported) ==>
                var requests := NodeRequests(imported.value, imported.value.root.value);
                && directory == Directory(path)
                && requested == old(requested) + requests
                && texturesLoaded == AfterRequests(old(texturesLoaded), requests, old(gl.nameCount) + 1)
                && old(meshes) <= meshes
                && AllBuilt(meshes[|old(meshes)|..], imported.value,
                            PreOrder(imported.value.root.value), texturesLoaded)
                && Grew(old(texturesLoaded), texturesLoaded, old(gl.files), gl.files,
                        old(gl.nameCount) + 1, directory)
                && gl.nameCount == old(gl.nameCount) + (|texturesLoaded| - |old(texturesLoaded)|)
    {
      scene := imported;
      if scene.None? || scene.value.flags & FlagsIncomplete != 0 || scene.value.root.None? {
        LoggedNoDup(texturesLoaded, requested);
        return;
      }
      directory := Directory(path);
      ghost var c0, r0, f0, n0 := texturesLoaded, requested, gl.files, gl.nameCount;
      ProcessNode(scene.value.root.value, gl);
      CacheOfLog(old(texturesLoaded), texturesLoaded, old(requested),
                 NodeRequests(imported.value, imported.value.root.value),
                 old(gl.files), gl.files, old(gl.nameCount) + 1, directory);
      LoggedNoDup(texturesLoaded, requested);
    }

    /** Converts the node's own meshes in order, then walks its children
        from first to last. */
    method ProcessNode(node: Node, gl: Gl)
      requires Valid()
      requires scene.Some? && NodeOk(node, scene.value)
      modifies this`texturesLoaded, this`meshes, this`requested, gl
      decreases node, 1
      ensures Valid()
      ensures requested == old(requested) + NodeRequests(scene.value, node)
      ensures old(meshes) <= meshes
      ensures AllBuilt(meshes[|old(meshes)|..], scene.value, PreOrder(node), texturesLoaded)
      ensures Grew(old(texturesLoaded), texturesLoaded, old(gl.files), gl.files,
                   old(gl.nameCount) + 1, directory)
      ensures gl.nameCount == old(gl.nameCount) + (|texturesLoaded| - |old(texturesLoaded)|)
    {
      ghost var m0, c0, f0, n0 := meshes, texturesLoaded, gl.files, gl.nameCount;
      ghost var r0 := requested;
      ProcessNodeMeshes(node.meshes, gl);
      ghost var mb, cb, fb, nb, rb := meshes, texturesLoaded, gl.files, gl.nameCount, requested;
      ProcessChildren(node, gl);
      NodeLogStep(scene.value, node, r0, rb, requested);
      GrewTrans(c0, cb, texturesLoaded, f0, fb, gl.files, n0 + 1, nb + 1, directory);
      NodeBuiltStep(mb[|m0|..], meshes[|mb|..], scene.value, node, cb, texturesLoaded);
      GainedSplit(m0, mb, meshes);
    }

    /** The first loop of a node's conversion: the meshes with the given
        scene indices, converted and appended in order. */
    method ProcessNodeMeshes(indices: seq<nat>, gl: Gl)
      requires Valid()
      requires scene.Some?
      requires forall k :: 0 <= k < |indices| ==> MeshIndexOk(scene.value, indices[k])
      modifies this`texturesLoaded, this`meshes, this`requested, gl
      ensures Valid()
      ensures requested == old(requested) + WalkRequests(scene.value, indices)
      ensures old(meshes) <= meshes
      ensures AllBuilt(meshes[|old(meshes)|..], scene.value, indices, texturesLoaded)
      ensures Grew(old(texturesLoaded), texturesLoaded, old(gl.files), gl.files,
                   old(gl.nameCount) + 1, directory)
      ensures gl.nameCount == old(gl.nameCount) + (|texturesLoaded| - |old(texturesLoaded)|)
    {
      ghost var m0, c0, f0, n0 := meshes, texturesLoaded, gl.files, gl.nameCount;
      ghost var r0 := requested;
      GrewNone(c0, f0, n0 + 1, directory);
      var i := 0;
      while i < |indices|
        invariant 0 <= i <= |indices|
        invariant Valid()
        invariant requested == r0 + WalkRequests(scene.value, indices[..i])
        invariant m0 <= meshes
        invariant AllBuilt(meshes[|m0|..], scene.value, indices[..i], texturesLoaded)
        invariant Grew(c0, texturesLoaded, f0, gl.files, n0 + 1, directory)
        invariant gl.nameCount == n0 + (|texturesLoaded| - |c0|)
      {
        ghost var mb, cb, fb, nb, rb := meshes, texturesLoaded, gl.files, gl.nameCount, requested;
        var mesh := ProcessMesh(scene.value.meshes[indices[i]], gl);
        MeshStep(scene.value, indices, i, directory, mesh, m0, meshes, r0, rb, requested,
                 c0, cb, texturesLoaded, f0, fb, gl.files, n0, nb, gl.nameCount);
        meshes := meshes + [mesh];
        i := i + 1;
      }
      assert indices[..i] == indices;
    }

    /** The second loop of a node's conversion: each child converted in
        turn, from first to last. */
    method ProcessChildren(node: Node, gl: Gl)
      requires Valid()
      requires scene.Some? && NodeOk(node, scene.value)
      modifies this`texturesLoaded, this`meshes, this`requested, gl
      decreases node, 0
      ensures Valid()
      ensures requested == old(requested) + ChildrenRequests(scene.value, node.children)
      ensures old(meshes) <= meshes
      ensures AllBuilt(meshes[|old(meshes)|..], scene.value, PreOrderAll(node.children),
                       texturesLoaded)
      ensures Grew(old(texturesLoaded), texturesLoaded, old(gl.files), gl.files,
                   old(gl.nameCount) + 1, directory)
      ensures gl.nameCount == old(gl.nameCount) + (|texturesLoaded| - |old(texturesLoaded)|)
    {
      ghost var m0, c0, f0, n0 := meshes, texturesLoaded, gl.files, gl.nameCount;
      ghost var r0 := requested;
      GrewNone(c0, f0, n0 + 1, directory);
      var j := 0;
      while j < |node.children|
        invariant 0 <= j <= |node.children|
        invariant Valid()
        invariant requested == r0 + ChildrenRequests(scene.value, node.children[..j])
        invariant m0 <= meshes
        invariant AllBuilt(meshes[|m0|..], scene.value, PreOrderAll(node.children[..j]),
                           texturesLoaded)
        invariant Grew(c0, texturesLoaded, f0, gl.files, n0 + 1, directory)
        invariant gl.nameCount == n0 + (|texturesLoaded| - |c0|)
      {
        ghost var mb, cb, fb, nb, rb := meshes, texturesLoaded, gl.files, gl.nameCount, requested;
        ProcessNode(node.children[j], gl);
        ChildStep(scene.value, node.children, j, directory, m0, mb, meshes, r0, rb, requested,
                  c0, cb, texturesLoaded, f0, fb, gl.files, n0, nb, gl.nameCount);
        j := j + 1;
      }
      assert node.children[..j] == node.children;
    }

    /** Converts one mesh: its vertices, its indices, and its material's
        diffuse, specular and normal maps, in that order. */
    method ProcessMesh(mesh: SceneMesh, gl: Gl) returns (m: Mesh)
      requires Valid()
      requires scene.Some? && MeshOk(mesh, |scene.value.materials|)
      modifies this`texturesLoaded, this`requested, gl
      ensures Valid()
      ensures requested == old(requested) + MeshRequests(scene.value.materials[mesh.materialIndex])
      ensures Built(m, mesh, scene.value.materials[mesh.materialIndex], texturesLoaded)
      ensures Grew(old(texturesLoaded), texturesLoaded, old(gl.files), gl.files,
                   old(gl.nameCount) + 1, directory)
      ensures gl.nameCount == old(gl.nameCount) + (|texturesLoaded| - |old(texturesLoaded)|)
    {
      var vertices := CopyVertices(mesh);
      var indices := CollectIndices(mesh.faces);
      var textures;
      ghost var r1, id2, r2, id3, r3;
      ghost var c0, f0, n0 := texturesLoaded, gl.files, gl.nameCount;
      textures, r1, id2, r2, id3, r3 := LoadMeshTextures(scene.value.materials[mesh.materialIndex], gl);
      MeshRunsEffect(c0, scene.value.materials[mesh.materialIndex], n0 + 1, r1, id2, r2, id3, r3,
                     f0, directory);
      m := Mesh(vertices, indices, textures);
    }

    /** The texture part of a mesh's conversion: the material's diffuse maps,
        then its specular maps, then its normal maps, each run continuing the
        cache and the texture names where the previous one stopped. */
    method LoadMeshTextures(material: Material, gl: Gl)
      returns (textures: seq<Texture>, ghost r1: Outcome, ghost id2: nat, ghost r2: Outcome,
               ghost id3: nat, ghost r3: Outcome)
      requires Valid()
      modifies this`texturesLoaded, this`requested, gl
      ensures Valid()
      ensures requested == old(requested) + MeshRequests(material)
      ensures MeshRuns(old(texturesLoaded), material, old(gl.nameCount) + 1, r1, id2, r2, id3, r3)
      ensures textures == r1.textures + r2.textures + r3.textures
      ensures texturesLoaded == r3.cache
      ensures gl.files == old(gl.files) + Joined(directory, r1.misses)
                + Joined(directory, r2.misses) + Joined(directory, r3.misses)
      ensures gl.nameCount == old(gl.nameCount) + |r1.misses| + |r2.misses| + |r3.misses|
    {
      ghost var c0, f0, n0 := texturesLoaded, gl.files, gl.nameCount;
      ghost var d := Tagged(material.TexturePaths(Diffuse), DiffuseName);
      ghost var s := Tagged(material.TexturePaths(Specular), SpecularName);
      ghost var n := Tagged(material.TexturePaths(Normals), NormalName);
      AppendAssoc(old(requested) + d, s, n);
      AppendAssoc(old(requested), d, s);
      AppendAssoc(old(requested), d + s, n);
      textures, r1 := LoadMaterialTextures(material, Diffuse, DiffuseName, gl);
      ghost var c1, n1 := texturesLoaded, gl.nameCount;
      assert requested == old(requested) + d;
      assert gl.files == old(gl.files) + Joined(directory, r1.misses);
      var specularMaps;
      specularMaps, r2 := LoadMaterialTextures(material, Specular, SpecularName, gl);
      textures := textures + specularMaps;
      ghost var c2, n2 := texturesLoaded, gl.nameCount;
      assert requested == old(requested) + d + s;
      assert gl.files == old(gl.files) + Joined(directory, r1.misses) + Joined(directory, r2.misses);
      var normalMaps;
      normalMaps, r3 := LoadMaterialTextures(material, Normals, NormalName, gl);
      textures := textures + normalMaps;
      id2, id3 := n1 + 1, n2 + 1;
      assert requested == old(requested) + d + s + n;
    }

    /** The search of the cache for a path: the index of the first entry loaded from it. */
    method FindLoaded(path: string) returns (found: Option<nat>)
      ensures found.Some? ==> found.value < |texturesLoaded| && texturesLoaded[found.value].path == path
      ensures found.Some? ==> forall k :: 0 <= k < found.value ==> texturesLoaded[k].path != path
      ensures found.None? ==> forall k :: 0 <= k < |texturesLoaded| ==> texturesLoaded[k].path != path
    {
      var j := 0;
      while j < |texturesLoaded|
        invariant 0 <= j <= |texturesLoaded|
        invariant forall k :: 0 <= k < j ==> texturesLoaded[k].path != path
      {
        if texturesLoaded[j].path == path {
          return Some(j);
        }
        j := j + 1;
      }
      return None;
    }

    /** One request of loadMaterialTextures: the cached texture on a hit, a
        texture loaded from the directory on a miss, as Serve describes. */
    method ServeRequest(path: string, typeName: string, gl: Gl,
                        ghost prev: Outcome, ghost firstId: nat, ghost files0: seq<string>)
      returns (texture: Texture, ghost next: Outcome)
      requires Valid()
      requires texturesLoaded == prev.cache
      requires gl.nameCount + 1 == firstId + |prev.misses|
      requires gl.files == files0 + Joined(directory, prev.misses)
      modifies this`texturesLoaded, this`requested, gl
      ensures Valid()
      ensures requested == old(requested) + [Request(path, typeName)]
      ensures next == Serve(prev, path, typeName, firstId)
      ensures next.textures == prev.textures + [texture]
              && texturesLoaded == next.cache
              && gl.files == files0 + Joined(directory, next.misses)
              && gl.nameCount + 1 == firstId + |next.misses|
    {
      var found := FindLoaded(path);
      if found.Some? {
        ServeHit(prev, path, typeName, firstId, found.value);
        LoggedHit(texturesLoaded, requested, found.value, typeName);
        texture := texturesLoaded[found.value];
        next := Outcome(prev.textures + [texture], prev.cache, prev.misses);
      } else {
        ServeMiss(prev, path, typeName, firstId);
        var id := TextureFromFile(gl, path, directory);
        texture := Texture(id, typeName, path);
        LoggedMiss(texturesLoaded, requested, texture);
        JoinedSnoc(files0, directory, prev.misses, path);
        texturesLoaded := texturesLoaded + [texture];
        next := Outcome(prev.textures + [texture], texturesLoaded, prev.misses + [path]);
      }
      requested := requested + [Request(path, typeName)];
    }

    /** The material's textures of one kind, one per texture path in the
        material's order: a path loaded before is served from the cache, any
        other path is loaded from the model's directory, tagged with
        `typeName` and appended to the cache. */
    method LoadMaterialTextures(material: Material, kind: TextureType, typeName: string, gl: Gl)
      returns (textures: seq<Texture>, ghost run: Outcome)
      requires Valid()
      modifies this`texturesLoaded, this`requested, gl
      ensures Valid()
      ensures requested == old(requested) + Tagged(material.TexturePaths(kind), typeName)
      ensures RunOf(run, old(texturesLoaded), material.TexturePaths(kind), typeName,
                             old(gl.nameCount) + 1)
      ensures textures == run.textures
      ensures texturesLoaded == run.cache
      ensures gl.files == old(gl.files) + Joined(directory, run.misses)
      ensures gl.nameCount == old(gl.nameCount) + |run.misses|
    {
      var paths := material.TexturePaths(kind);
      ghost var c0, r0, f0, n0 := texturesLoaded, requested, gl.files, gl.nameCount;
      run := Outcome([], c0, []);
      textures := [];
      var i := 0;
      while i < |paths|
        invariant 0 <= i <= |paths|
        invariant Valid()
        invariant requested == r0 + Tagged(paths[..i], typeName)
        invariant RunOf(run, c0, paths[..i], typeName, n0 + 1)
        invariant textures == run.textures
        invariant texturesLoaded == run.cache
        invariant gl.files == f0 + Joined(directory, run.misses)
        invariant gl.nameCount == n0 + |run.misses|
      {
        var texture;
        RunOfSnoc(run, c0, paths, i, typeName, n0 + 1);
        texture, run := ServeRequest(paths[i], typeName, gl, run, n0 + 1, f0);
        textures := textures + [texture];
        TaggedStep(paths, i, typeName, r0);
        i := i + 1;
      }
      assert paths[..i] == paths;
    }
  }
}
