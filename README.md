# open-model-viewer: model loader and camera

This project is a Dafny model of the core of open-model-viewer, a small
OpenGL viewer for 3D model files. It covers two parts.

- **The model loader** (`src/model.cpp`). It takes the scene the import
  library produced for a model file and checks it. It then walks the
  scene's node tree in pre-order. Each mesh it meets becomes the viewer's
  own `Mesh` record: vertices, indices and textures. Every texture path is
  loaded once only. A cache, `textures_loaded`, holds every texture loaded
  so far and is searched by path string before any file is read, so two
  different path strings for the same file are loaded twice.
- **The free-look camera** (`src/camera.cpp`). It has a position and the
  angles yaw and pitch. Three vectors (front, right and up) are derived
  from those angles. The keyboard moves the position, the mouse turns the
  angles with the pitch clamped to [-89, 89], and the view transform looks
  from the position along front.

The model has these modules, one file each.

| file | module | what it holds |
|---|---|---|
| `wrappers.dfy` | `Wrappers` | `Option` |
| `geometry.dfy` | `Geometry` | `Vec2` and `Vec3` over the reals: sum, difference, scaling, dot, cross |
| `scene.dfy` | `AiScene` | the imported scene as an input value: nodes, meshes, materials, flags; the pre-order of a node tree |
| `mesh.dfy` | `MeshData` | `Vertex`, `Texture`, `Mesh`; the vertex conversion and the flattening of faces into an index list |
| `paths.dfy` | `Paths` | the directory of a model path, and the join of that directory with a texture path |
| `texture_cache.dfy` | `TextureCache` | the cache on values: the lookup, a run of requests as a function (`LoadRun`) with its properties, and the cache after any log of requests (`AfterRequests`) |
| `model.dfy` | `ModelLoader` | the class `Model`, with the loader's methods over the fields `texturesLoaded`, `meshes`, `directory` and `scene` and the ghost request log `requested`; the requests a mesh, a node and a subtree make; the class `Gl`, which stands for the graphics library |
| `camera.dfy` | `CameraModel` | the class `Camera`, with its fields and its four operations |

The source's methods change object state step by step, so the model uses
classes with `modifies` clauses and loops with invariants.

- Each loop of `loadMaterialTextures`, `processNode` and `processMesh` is
  proved against a function on values. `LoadRun` serves a list of
  requests against a cache. `PreOrder` lists a subtree's mesh indices.
  `Flatten` concatenates the faces.
- The properties the source relies on are proved as lemmas about those
  functions. These include the first hit, no duplicate paths, growth only
  by misses, consecutive texture names and pre-order.
- The ghost field `requested` logs every texture request made so far: its
  path and the type name it was made under. `Model.Valid()` says that the
  cache entries are, in order, the requests of the log that asked for
  their path first. Every method that changes the cache or the log
  requires `Valid()` and keeps it, `ServeRequest` included. No path is
  then cached twice (`LoggedNoDup`).
- Each method states the requests it adds to the log: `MeshRequests` for a
  mesh, `NodeRequests` for a subtree, which `NodeRequestsWalk` proves to be
  the mesh requests in pre-order. With the naming facts of `Grew`, the log
  fixes the cache exactly (`CacheOfLog`). `LoadModel` and the constructor
  state that equation: the new cache is `AfterRequests` of the old cache,
  the subtree's requests and the next free texture name.

The graphics library is the object `Gl`. It records, in order, every file
name given to the image loader (`files`). It hands out texture names from a
counter (`nameCount`). The scene that the import library returns is a
parameter of the constructor and of `LoadModel`.

## Model

| member | source | states |
|---|---|---|
| ModelLoader.Model.constructor | src/model.cpp:8-10 | Only a scene that passes the guard must be well formed, and only in the meshes its node tree refers to (`SceneOk`). The constructor always keeps the import result and leaves `Valid()` with no path cached twice. For an unusable result, nothing is loaded, nothing is requested and the graphics library is untouched. For a usable result, the directory is the model path's directory and the log is exactly the root subtree's requests. The cache is exactly `AfterRequests([], those requests, first free name)`. The meshes are the conversions of the root's subtree in pre-order. The files read are the directory-joined new paths in order, and the name counter advances once per cache entry. |
| ModelLoader.Model.LoadModel | src/model.cpp:17-30 | Only a scene that passes the guard must be well formed, and only in the meshes its node tree refers to (`SceneOk`). The guard: when the scene is missing, marked incomplete or has no root, the directory, meshes, cache, log and graphics library are unchanged. For any other scene, the directory is set to `Directory(path)` and the log grows by exactly the root subtree's requests. The new cache is exactly `AfterRequests(old cache, those requests, next free name)`. The existing meshes are kept as a prefix and the appended meshes are the conversions of the root's pre-order. The cache grows as in `Grew`, and the name counter advances by exactly the number of new entries. `Valid()` is kept and no path is cached twice. |
| ModelLoader.Model.ProcessNode | src/model.cpp:32-42 | `Valid()` is kept and the log grows by exactly `NodeRequests(scene, node)`: the node's own meshes' requests, then each child's. It keeps the earlier meshes and appends the conversions of exactly `PreOrder(node)`. The cache only grows, by textures named from the next free name and read in order. |
| ModelLoader.Model.ProcessNodeMeshes | src/model.cpp:34-37 | The first loop of `processNode`. It appends the conversions of the given scene meshes in order, keeps earlier meshes and cache entries, and grows the log by exactly the meshes' requests in that order (`WalkRequests`). |
| ModelLoader.Model.ProcessChildren | src/model.cpp:40-41 | The second loop of `processNode`. It appends each child's pre-order conversion, from first child to last, and grows the log by exactly the children's requests in that order. |
| ModelLoader.Model.ProcessMesh | src/model.cpp:44-101 | The mesh holds every vertex converted. Texture coordinates are taken from channel 0, or are (0, 0) when that channel is missing. The index list is the concatenation of the faces. The textures are the cache's hits for the material's diffuse, then specular, then normal paths. The log grows by exactly the material's requests (`MeshRequests`), and the cache grows as in `Grew`. |
| ModelLoader.Model.LoadMeshTextures | src/model.cpp:89-98 | This is the texture part of `processMesh`. It makes three runs (diffuse, specular, normal), each continuing the cache and the names where the previous run stopped. The result is the three runs' textures concatenated in that order, and the new cache is the third run's. Exactly the misses of the three runs are read, in order. The log grows by the three kinds' requests in that order. |
| ModelLoader.Model.LoadMaterialTextures | src/model.cpp:104-128 | One texture per path of the material, in order. The new cache is `LoadRun`'s cache for those paths. The files read are the directory-joined misses, in order. The name counter advances once per miss. The log grows by one request per path, tagged with `typeName`, and `Valid()` is kept. |
| ModelLoader.Model.FindLoaded | src/model.cpp:112-117 | The inner search. When it finds an index, that entry has the path and no earlier entry has it. When it finds nothing, no entry has the path. |
| ModelLoader.Model.ServeRequest | src/model.cpp:108-125 | One request is served as `Serve` describes. A hit returns the cached texture and leaves the cache alone. A miss reads one file, `directory/path`, takes the next texture name, and appends one texture with that kind and path. The log grows by this one request and `Valid()` is kept. |
| ModelLoader.TextureFromFile | src/model.cpp:131-136 | The file read is `directory + '/' + path`, appended to the file log. The texture name returned is a fresh one. |
| ModelLoader.FormatFor | src/model.cpp:143-151 | A chosen upload format has exactly as many channels as the image has components. |
| ModelLoader.CopyVertices | src/model.cpp:50-79 | The vertex loop yields one vertex per imported vertex. Its position and normal are copied. Its texture coordinate is (x, y) of channel 0 when the mesh has that channel, and (0, 0) otherwise. |
| ModelLoader.CollectIndices | src/model.cpp:82-86 | The two nested index loops yield `Flatten(faces)`. |
| ModelLoader.MeshRunsCache | src/model.cpp:92-94 | Each run's misses are the paths of its kind known neither before the mesh nor from an earlier run. Each run appends exactly one texture per miss to the cache, tagged with its kind name and with consecutive names. |
| ModelLoader.MeshRunsEffect | src/model.cpp:89-98 | The three runs together grow the cache as in `Grew`, by as many textures as they have misses. Their concatenated textures are the cache's hits for all of the material's paths in order. |
| ModelLoader.AllBuiltGrow | src/model.cpp:36 | A converted mesh stays a correct conversion when later meshes add textures to the cache. |
| ModelLoader.AllBuiltAppend | src/model.cpp:34-41 | Conversions of two index lists, appended, are the conversions of the appended list. |
| TextureCache.FirstWithPath | src/model.cpp:112-117 | A found position is in range and its entry has the path. |
| TextureCache.FirstWithPathSpec | src/model.cpp:112-117 | No entry before the found position has the path. When nothing is found, no entry has it. |
| TextureCache.LookupSpec | src/model.cpp:112-118 | A lookup hits if and only if the path is in the cache. The texture it hits is a cache entry loaded from that path. |
| TextureCache.LookupFirst | src/model.cpp:112-117 | An entry that no earlier entry shadows is the hit for its path. |
| TextureCache.LookupExtend | src/model.cpp:124 | Appending to the cache never changes the hit of a path already cached. |
| TextureCache.LookupBeyond | src/model.cpp:124 | A path not in the old part of the cache is hit in the appended part, or not at all. |
| TextureCache.MissesSpec | src/model.cpp:107-126 | Each miss is a requested path that was not cached before. Each is missed once, and every request is a known path or a miss. A duplicate-free cache stays duplicate-free when the misses are appended. |
| TextureCache.ServeHit | src/model.cpp:112-116 | A search that stops at entry j serves `textures_loaded[j]` and changes neither the cache nor the misses. |
| TextureCache.ServeMiss | src/model.cpp:118-125 | A search that finds nothing serves a new texture with the next name, the requested kind and the path. That texture is appended to the cache and the path to the misses. |
| TextureCache.LoadRunShape | src/model.cpp:107-126 | A run returns one texture per request. Its misses are `Misses` of the known paths. Its cache is the old cache followed by one fresh texture per miss, named consecutively and tagged with the kind. |
| TextureCache.LoadRunServed | src/model.cpp:107-126 | Each request is served with a texture loaded from its path, which the final cache hits. That texture is the earlier hit when the path was cached beforehand; otherwise it has the requested kind. |
| TextureCache.ServeShape | src/model.cpp:112-125 | One more request keeps the run's form: texture count, misses and cache. |
| TextureCache.ServeServed | src/model.cpp:112-125 | One more request keeps every earlier request served and serves the new one. |
| TextureCache.ServedLast | src/model.cpp:112-125 | The last request of a run is served as `Served` says, both on a hit and on a miss. |
| TextureCache.LoadRunNoDup | src/model.cpp:112-125 | A run leaves a duplicate-free cache duplicate-free. |
| TextureCache.LoadRunEffect | src/model.cpp:104-128 | A run's misses are `Misses` of the known paths. The cache gains one texture per miss. The files read are the directory-joined misses, and the names are consecutive. Every returned texture is the final cache's hit for its request. |
| TextureCache.RunOfSnoc | src/model.cpp:107-126 | Serving request i after a run over the first i requests gives the run over the first i + 1 requests. |
| TextureCache.HitsGrow | src/model.cpp:124 | Hits survive any growth of the cache. |
| TextureCache.HitsAppend | src/model.cpp:96-98 | The concatenated textures of two runs are the hits of the concatenated paths. |
| TextureCache.GrewTrans | src/model.cpp:118-125 | Two growths in a row, the second named from where the first stopped, are one growth. |
| TextureCache.FreshGrew | src/model.cpp:118-125 | Appending the fresh textures of some misses, and logging their files, is a growth. |
| ModelLoader.MeshRequests | src/model.cpp:92-94 | Definition: the requests one mesh makes, its material's diffuse, specular and normal paths, each tagged with its type name. Its property is `MeshRequestPaths`. |
| ModelLoader.MeshRequestPaths | src/model.cpp:92-98 | A mesh requests exactly its material's texture paths, in the order the three runs take them. |
| ModelLoader.WalkRequests | src/model.cpp:34-37 | Definition: the requests of a list of scene meshes, one mesh after another. Its properties are `WalkRequestsAppend` and `NodeRequestsWalk`. |
| ModelLoader.WalkRequestsAppend | src/model.cpp:34-41 | The requests of two mesh lists one after the other are those of the appended list. |
| ModelLoader.NodeRequests | src/model.cpp:32-42 | Definition: the requests of a subtree, the node's own meshes first and then each child's subtree. Its property is `NodeRequestsWalk`. |
| ModelLoader.ChildrenRequests | src/model.cpp:40-41 | Definition: the requests of the children's subtrees, from first child to last. Its property is `ChildrenRequestsWalk`. |
| ModelLoader.NodeRequestsWalk | src/model.cpp:32-42 | A subtree makes the requests of its meshes taken in pre-order. |
| ModelLoader.ChildrenRequestsWalk | src/model.cpp:40-41 | A list of children makes the requests of their meshes taken in pre-order. |
| ModelLoader.MeshLogStep | src/model.cpp:34-37 | After the first i meshes, converting mesh i makes the log the requests of the first i + 1 meshes. |
| ModelLoader.NodeLogStep | src/model.cpp:32-42 | The node's meshes' requests followed by its children's make the node's requests. |
| ModelLoader.ChildLogStep | src/model.cpp:40-41 | After the first j children, walking child j makes the log the requests of the first j + 1 children. |
| ModelLoader.MeshBuiltStep | src/model.cpp:34-37 | The conversions of the first i meshes, followed by mesh i's, are the conversions of the first i + 1 meshes against the grown cache. |
| ModelLoader.NodeBuiltStep | src/model.cpp:32-42 | The conversions of a node's own meshes, followed by its children's, are the conversions of the node's pre-order. |
| ModelLoader.ChildBuiltStep | src/model.cpp:40-41 | The conversions of the first j children's subtrees, followed by child j's, are those of the first j + 1 children's pre-order. |
| ModelLoader.MeshStep | src/model.cpp:34-37 | One turn of the loop over a node's own meshes: once mesh i is converted, the log holds the requests of the first i + 1 meshes, the converted list gained exactly their conversions, the cache grew as in `Grew` and the name counter advanced by the number of new entries. |
| ModelLoader.ChildStep | src/model.cpp:40-41 | One turn of the loop over a node's children: once child j is walked, the log, the gained conversions, the cache growth and the name counter cover the pre-order of the first j + 1 children. |
| TextureCache.Lookup | src/model.cpp:112-117 | Definition: the first cache entry with the path, or nothing. Its properties are `LookupSpec`, `LookupFirst`, `LookupExtend` and `LookupBeyond`. |
| TextureCache.Serve | src/model.cpp:112-125 | Definition: one request against a run so far, a hit or a new texture with the next name. Its properties are `ServeHit`, `ServeMiss`, `ServeShape` and `ServeServed`. |
| TextureCache.LoadRun | src/model.cpp:107-126 | Definition: the requests of one call of `loadMaterialTextures` served in order. Its properties are `LoadRunShape`, `LoadRunServed`, `LoadRunNoDup`, `LoadRunEffect` and `RunAfterRequests`. |
| TextureCache.Missed | src/model.cpp:112-124 | Definition: the requests that load a texture, those whose path is neither known nor asked for by an earlier request. Its properties are `MissedPaths`, `MissedFirst`, `MissedAppend` and `MissedTagged`. |
| TextureCache.MissedPaths | src/model.cpp:112-124 | The paths of the missed requests are the misses of the requested paths. Every missed request is one of the requests. |
| TextureCache.MissedFirst | src/model.cpp:118-124 | Each missed request is the first request for its path, so a texture keeps the type name of the first request that loaded it. |
| TextureCache.MissedCovers | src/model.cpp:112-124 | Every requested path is either known beforehand or the path of some missed request: no request goes without a texture. |
| TextureCache.MissedAppend | src/model.cpp:107-126 | Two stretches of requests miss the first stretch's misses and then the second's, against everything known by then. |
| TextureCache.MissedTagged | src/model.cpp:107-126 | The requests of one run miss exactly the run's misses, with the run's type name. |
| TextureCache.AfterRequests | src/model.cpp:107-126 | The cache after a list of requests, one step per request as in the loop body: a cached path leaves the cache alone, any other appends a texture with the next name. The old cache stays a prefix. |
| TextureCache.AfterRequestsLoaded | src/model.cpp:107-126 | In closed form, the cache after some requests is the old cache followed by one texture per missed request, named consecutively. |
| TextureCache.AfterRequestsStep | src/model.cpp:107-126 | The closed form of the cache after some requests still holds after one more request: a cached path adds nothing, any other adds a texture named next. |
| TextureCache.LoadedSnoc | src/model.cpp:118-124 | One more missed request appends one texture with its path and type name, named one past the last. |
| TextureCache.AfterRequestsAppend | src/model.cpp:92-94 | Serving more requests from the cache some requests left, with the names continuing, gives the cache of all the requests together. |
| TextureCache.RunAfterRequests | src/model.cpp:107-126 | One run of `loadMaterialTextures` leaves the cache its requests give. |
| TextureCache.TaggedStep | src/model.cpp:107-126 | After the first i paths of a run, request i makes the log the requests of the first i + 1 paths. |
| TextureCache.LoggedHit | src/model.cpp:112-116 | A request for a cached path keeps the cache's entries equal to the first requests of the log. |
| TextureCache.LoggedMiss | src/model.cpp:118-124 | A request for a path not cached, with its new texture appended, keeps the cache's entries equal to the first requests of the log. |
| TextureCache.LoggedNoDup | src/model.cpp:111-125 | A cache whose entries are the first requests of a log holds every path at most once. |
| TextureCache.CacheOfLog | src/model.cpp:118-124 | A cache kept equal to its log's first requests, grown with consecutive names, is exactly `AfterRequests` of the earlier cache and the new requests. |
| AiScene.Usable | src/model.cpp:23 | Definition: the scene guard, a scene that is present, not marked incomplete and has a root. `LoadModel` and the constructor state what happens on each side of it. |
| AiScene.PreOrder | src/model.cpp:32-42 | Definition: a subtree's mesh indices, the node's own first and then each child's subtree. Its properties are `PreOrderInRange`, `NodeRequestsWalk` and `ProcessNode`'s contract. |
| AiScene.PreOrderAll | src/model.cpp:40-41 | Definition: the children's subtrees' mesh indices, from first child to last. Its property is `PreOrderAllInRange`. |
| MeshData.Flatten | src/model.cpp:82-86 | Definition: the face indices, face after face. Its properties are `FlattenAppend`, `FlattenAt`, `FlattenLength` and `CollectIndices`. |
| Paths.JoinPath | src/model.cpp:132-133 | Definition: the directory, a '/', then the path. Its properties are `DirectoryOfJoin` and `JoinOfDirectory`. |
| CameraModel.FrontOf | src/camera.cpp:56-59 | Definition: the normalised front vector for a yaw and pitch. `UpdateCamera` and `BasisOrthogonal` state what is built from it. |
| CameraModel.Moved | src/camera.cpp:15-29 | Definition: the position after one keyboard movement. `HandleKeyboard` and `MoveThenOppositeRestores` state its properties. |
| Paths.LastIndexOf | src/model.cpp:27 | A found position holds the character and no later position does. Nothing is found if and only if the character does not occur. |
| Paths.Directory | src/model.cpp:27 | The directory is a prefix of the path. It is the whole path when the path has no '/'. Otherwise it is cut just before the last '/'. |
| Paths.DirectoryOfJoin | src/model.cpp:27 | The directory of `directory/name`, for a name without '/', is the directory again. |
| Paths.JoinOfDirectory | src/model.cpp:27 | A path with a '/' is its directory joined with the part after the last '/'. |
| AiScene.PreOrderInRange | src/model.cpp:35 | When every mesh a subtree refers to exists and can be converted (`NodeOk`), so does every mesh of its pre-order (`MeshIndexOk`). |
| MeshData.FlattenAppend | src/model.cpp:82-86 | Flattening distributes over the concatenation of face lists. |
| MeshData.FlattenAt | src/model.cpp:82-86 | The j-th index of face i sits at the face's offset plus j in the index list. |
| MeshData.FlattenLength | src/model.cpp:82-86 | The index list holds exactly as many indices as the faces together. |
| CameraModel.Camera.constructor | src/camera.cpp:4-10 | The constructor stores the position, angles, speed and sensitivity as given, without clamping the pitch. The basis is the one derived from the angles and the world up vector (0, 1, 0). |
| CameraModel.Camera.HandleKeyboard | src/camera.cpp:13-30 | Only the position changes, by speed * deltaTime along front (forward, back) or right (right, left). The angles and the basis are kept. |
| CameraModel.Camera.HandleMouse | src/camera.cpp:33-47 | Yaw grows by xoffset * sensitivity and is never wrapped. Pitch is the old pitch plus yoffset * sensitivity, clamped to [-89, 89]. The basis is rebuilt. |
| CameraModel.Camera.GetView | src/camera.cpp:50-52 | The view looks from the position, towards a target whose offset from the position is front, with the camera's up vector. It reads only position, front and up. |
| CameraModel.Camera.UpdateCamera | src/camera.cpp:55-63 | Front is rebuilt from yaw and pitch, then right = front × worldUp and up = right × front. Position, angles, speed and sensitivity are kept. |
| CameraModel.Camera.BasisIsOrthogonal | src/camera.cpp:61-62 | In every valid camera state, right is horizontal and front, right and up are pairwise orthogonal. |
| CameraModel.BasisOrthogonal | src/camera.cpp:61-62 | For any front vector, the right and up vectors built by the two cross products are orthogonal to each other and to front. |
| CameraModel.ClampPitch | src/camera.cpp:41-44 | The clamped pitch lies in [-89, 89], and a pitch already in range is kept. |
| CameraModel.ClampPitchIsNearest | src/camera.cpp:41-44 | The clamped pitch is the point of [-89, 89] nearest to the raw pitch. |
| CameraModel.ClampPitchSaturates | src/camera.cpp:41-44 | A pitch at or beyond a limit becomes exactly that limit. |
| CameraModel.ZeroOffsetKeepsPitch | src/camera.cpp:37-44 | A zero vertical mouse offset keeps the pitch if and only if it is already in range. |
| CameraModel.MoveThenOppositeRestores | src/camera.cpp:17-28 | A move followed by the opposite move with the same velocity over the same basis restores the position. |

## Left out

- Rendering is not modelled: `Model::draw` (`src/model.cpp:12-15`) and the meshes' GPU buffers. The mesh buffer setup is not part of this model, and the `Mesh` record stands for the constructed mesh.
- `src/shader.cpp` and `src/Main.cpp` are not part of this model. They are the shader program and the window and event loop.
- The import library and its post-processing flags are not modelled. The imported scene is an input value, and the error message printed on a bad import is left out.
- The image loader, the OpenGL calls (`glGenTextures`, the upload, the mipmaps, the texture parameters) and the printed message on a failed load are not modelled. A failed load still returns its texture name in the source, so texture names and the cache do not depend on it.
- Each new texture name is the next value of a counter. The real graphics library only promises a name not in use. The model's consecutive names are a simplification of that.
- `FormatFor`: for a component count other than 1, 3 or 4 the source leaves the format uninitialised. The model returns `None` and does not model the upload that follows.
- Single-precision floats are modelled as reals. Sine, cosine, the degree-to-radian conversion and normalisation are functions the camera is given, left uninterpreted. `glm::lookAt` is represented by its three arguments (the `View` datatype).
- `unsigned int` loop counters and texture names are unbounded naturals. No 32-bit wrap-around is modelled.
- Path comparison with `strcmp` is modelled as sequence equality: paths hold no NUL characters.
- The source dereferences, without checks:
  - per-vertex normals;
  - each node's mesh indices;
  - each mesh's material index.

  These are preconditions here (`MeshOk`, `NodeOk`, `SceneOk`), not error paths.
  They are required only of a scene that passes the guard of `loadModel`,
  and only of the meshes some node of the root's subtree refers to: those
  are the only ones the source reads.
- In the source the scene pointer is left dangling once the importer is destroyed at the end of `loadModel`. The model keeps the scene as a value.
- Some loops and loop bodies are their own methods, each with its own contract:
  - `ProcessNodeMeshes` and `ProcessChildren` for the two loops of `processNode`;
  - `LoadMeshTextures` for the texture part of `processMesh`;
  - `FindLoaded` and `ServeRequest` for the inner search and the body of `loadMaterialTextures`.

  On a miss, `ServeRequest` appends the new texture to the cache, and the caller then appends it to the result list. The source appends to the result list first (`src/model.cpp:123-124`). The two lists are different objects, so neither order changes what either list holds.
- A few methods have ghost outputs (`LoadMaterialTextures`, `LoadMeshTextures`, `ServeRequest`). These are the value-level runs their contracts are stated against, and they have no counterpart in the source. The request log `requested` is ghost state with no counterpart in the source either.
- `CameraModel.Camera.constructor` takes the uninterpreted numeric functions as an extra argument, `math`.
