/**
 * The texture cache of the loader, described on values: the cache is the
 * list of textures loaded so far, searched front to back by path.
 */
module TextureCache {
  import opened Wrappers
  import opened MeshData
  import opened Paths

  /** The paths of the cached textures, in cache order. */
  function PathsOf(cache: seq<Texture>): seq<string> {
    seq(|cache|, k requires 0 <= k < |cache| => cache[k].path)
  }

  predicate NoDup(s: seq<string>) {
    forall i, j :: 0 <= i < j < |s| ==> s[i] != s[j]
  }

  /** The position of the first cached texture with the given path. */
  function FirstWithPath(cache: seq<Texture>, path: string): (r: Option<nat>)
    ensures r.Some? ==> r.value < |cache| && cache[r.value].path == path
  {
    if cache == [] then None
    else if cache[0].path == path then Some(0)
    else match FirstWithPath(cache[1..], path)
      case None => None
      case Some(k) => Some(k + 1)
  }

  /** No entry before the one the search finds has the path, and a search that
      finds nothing has passed over every entry. */
  lemma {:induction false} FirstWithPathSpec(cache: seq<Texture>, path: string)
    ensures var r := FirstWithPath(cache, path);
            && (r.Some? ==> forall k :: 0 <= k < r.value ==> cache[k].path != path)
            && (r.None? ==> forall k :: 0 <= k < |cache| ==> cache[k].path != path)
  {
    if cache != [] && cache[0].path != path {
      FirstWithPathSpec(cache[1..], path);
      var r := FirstWithPath(cache[1..], path);
      if r.Some? {
        forall k | 0 <= k < r.value + 1 ensures cache[k].path != path {
          if k > 0 {
            assert cache[k] == cache[1..][k - 1];
          }
        }
      } else {
        forall k | 0 <= k < |cache| ensures cache[k].path != path {
          if k > 0 {
            assert cache[k] == cache[1..][k - 1];
          }
        }
      }
    }
  }

  /** The cache hit for a path: the first cached texture with that path. */
  function Lookup(cache: seq<Texture>, path: string): Option<Texture> {
    match FirstWithPath(cache, path)
    case None => None
    case Some(k) => Some(cache[k])
  }

  /** A lookup hits exactly the paths in the cache, with an entry loaded from that path. */
  lemma {:induction false} LookupSpec(cache: seq<Texture>, path: string)
    ensures var r := Lookup(cache, path);
            && (r.Some? <==> path in PathsOf(cache))
            && (r.Some? ==> r.value in cache && r.value.path == path)
  {
    FirstWithPathSpec(cache, path);
    if path in PathsOf(cache) {
      var k :| 0 <= k < |cache| && PathsOf(cache)[k] == path;
      assert cache[k].path == path;
    }
    if FirstWithPath(cache, path).Some? {
      assert PathsOf(cache)[FirstWithPath(cache, path).value] == path;
    }
  }

  /** An entry that no earlier entry shadows is what a lookup of its path hits. */
  lemma {:induction false} LookupFirst(cache: seq<Texture>, k: nat)
    requires k < |cache|
    requires forall j :: 0 <= j < k ==> cache[j].path != cache[k].path
    ensures Lookup(cache, cache[k].path) == Some(cache[k])
  {
    FirstWithPathSpec(cache, cache[k].path);
  }

  /** Appending to the cache does not change the hit of a path already in it. */
  lemma {:induction false} LookupExtend(cache: seq<Texture>, more: seq<Texture>, path: string)
    requires path in PathsOf(cache)
    ensures Lookup(cache + more, path) == Lookup(cache, path)
  {
    LookupSpec(cache, path);
    FirstWithPathSpec(cache, path);
    var k := FirstWithPath(cache, path).value;
    var all := cache + more;
    assert all[k] == cache[k];
    LookupFirst(all, k);
  }

  /** A path not yet cached is hit in the appended part, or not at all. */
  lemma {:induction false} LookupBeyond(cache: seq<Texture>, more: seq<Texture>, path: string)
    requires path !in PathsOf(cache)
    ensures Lookup(cache + more, path) == Lookup(more, path)
  {
    var all := cache + more;
    LookupSpec(more, path);
    FirstWithPathSpec(more, path);
    if path in PathsOf(more) {
      var k := FirstWithPath(more, path).value;
      assert all[|cache| + k] == more[k];
      forall j | 0 <= j < |cache| + k
        ensures all[j].path != path
      {
        if j < |cache| {
          assert all[j].path == PathsOf(cache)[j];
        } else {
          assert all[j] == more[j - |cache|];
        }
      }
      LookupFirst(all, |cache| + k);
    } else {
      forall j | 0 <= j < |all|
        ensures all[j].path != path
      {
        if j < |cache| {
          assert all[j].path == PathsOf(cache)[j];
        } else {
          assert all[j] == more[j - |cache|];
          assert all[j].path == PathsOf(more)[j - |cache|];
        }
      }
    }
  }

  /** The requested paths that a run of lookups misses, in the order they are
      first requested: a path misses when it is neither known beforehand nor
      already loaded by an earlier request of the same run. */
  function Misses(known: seq<string>, paths: seq<string>): seq<string> {
    if paths == [] then []
    else
      var earlier := Misses(known, paths[..|paths| - 1]);
      var p := paths[|paths| - 1];
      if p in known || p in earlier then earlier else earlier + [p]
  }

  /** The misses are requested paths that were not known, each once, and
      together with the known paths they cover every request. */
  lemma {:induction false} MissesSpec(known: seq<string>, paths: seq<string>)
    ensures forall p :: p in Misses(known, paths) ==> p in paths && p !in known
    ensures forall p :: p in paths ==> p in known || p in Misses(known, paths)
    ensures NoDup(Misses(known, paths))
    ensures NoDup(known) ==> NoDup(known + Misses(known, paths))
  {
    if paths != [] {
      var front := paths[..|paths| - 1];
      MissesSpec(known, front);
      assert paths == front + [paths[|paths| - 1]];
      var all := known + Misses(known, paths);
      if NoDup(known) {
        forall i, j | 0 <= i < j < |all| ensures all[i] != all[j] {
          if i < |known| && j >= |known| {
            assert all[j] in Misses(known, paths);
          }
        }
      }
    }
  }

  /** The textures a run of misses loads: one per missing path, in order,
      with the given kind and consecutive names from firstId. */
  function Fresh(misses: seq<string>, kind: string, firstId: nat): seq<Texture> {
    seq(|misses|, k requires 0 <= k < |misses| => Texture(firstId + k, kind, misses[k]))
  }

  /** The file names the misses are read from. */
  function Joined(directory: string, misses: seq<string>): seq<string> {
    seq(|misses|, k requires 0 <= k < |misses| => JoinPath(directory, misses[k]))
  }

  lemma {:induction false} PathsOfFresh(cache: seq<Texture>, misses: seq<string>, kind: string,
                                        firstId: nat)
    ensures PathsOf(cache + Fresh(misses, kind, firstId)) == PathsOf(cache) + misses
  {
  }

  /** Each of `textures` is what a lookup of the matching path hits. */
  ghost predicate Hits(cache: seq<Texture>, paths: seq<string>, textures: seq<Texture>) {
    && |textures| == |paths|
    && forall i :: 0 <= i < |textures| ==> Lookup(cache, paths[i]) == Some(textures[i])
  }

  /** Hits survive any growth of the cache. */
  lemma {:induction false} HitsGrow(cache: seq<Texture>, cache': seq<Texture>, paths: seq<string>,
                                    textures: seq<Texture>)
    requires Hits(cache, paths, textures) && cache <= cache'
    ensures Hits(cache', paths, textures)
  {
    assert cache' == cache + cache'[|cache|..];
    forall i | 0 <= i < |textures|
      ensures Lookup(cache', paths[i]) == Some(textures[i])
    {
      LookupSpec(cache, paths[i]);
      LookupExtend(cache, cache'[|cache|..], paths[i]);
    }
  }

  lemma {:induction false} HitsAppend(cache: seq<Texture>, p1: seq<string>, t1: seq<Texture>,
                                      p2: seq<string>, t2: seq<Texture>)
    requires Hits(cache, p1, t1) && Hits(cache, p2, t2)
    ensures Hits(cache, p1 + p2, t1 + t2)
  {
    forall i | 0 <= i < |t1| + |t2|
      ensures Lookup(cache, (p1 + p2)[i]) == Some((t1 + t2)[i])
    {
      if i >= |t1| {
        assert (p1 + p2)[i] == p2[i - |t1|];
      }
    }
  }

  lemma {:induction false} FreshSnoc(misses: seq<string>, path: string, kind: string, firstId: nat)
    ensures Fresh(misses + [path], kind, firstId) ==
              Fresh(misses, kind, firstId) + [Texture(firstId + |misses|, kind, path)]
  {
  }

  /** The file log after one more miss. */
  lemma {:induction false} JoinedSnoc(files: seq<string>, directory: string, misses: seq<string>,
                                      path: string)
    ensures (files + Joined(directory, misses)) + [JoinPath(directory, path)]
              == files + Joined(directory, misses + [path])
  {
    assert Joined(directory, misses + [path]) == Joined(directory, misses) + [JoinPath(directory, path)];
  }

  /** The cache grew from `before` to `after` by textures named consecutively
      from firstId and read, in the same order, from the files that the file
      log gained between `filesBefore` and `filesAfter`. */
  ghost predicate Grew(before: seq<Texture>, after: seq<Texture>,
                       filesBefore: seq<string>, filesAfter: seq<string>,
                       firstId: nat, directory: string)
  {
    && before <= after
    && filesBefore <= filesAfter
    && |filesAfter| - |filesBefore| == |after| - |before|
    && forall k :: |before| <= k < |after| ==>
         after[k].id == firstId + (k - |before|)
         && filesAfter[|filesBefore| + (k - |before|)] == JoinPath(directory, after[k].path)
  }

  /** One run of lookups makes the cache grow by its misses. */
  lemma {:induction false} FreshGrew(cache: seq<Texture>, files: seq<string>, misses: seq<string>,
                                     kind: string, firstId: nat, directory: string)
    ensures Grew(cache, cache + Fresh(misses, kind, firstId),
                 files, files + Joined(directory, misses), firstId, directory)
  {
  }

  /** Growth composes. */
  lemma {:induction false} GrewTrans(c0: seq<Texture>, c1: seq<Texture>, c2: seq<Texture>,
                                     f0: seq<string>, f1: seq<string>, f2: seq<string>,
                                     firstId: nat, midId: nat, directory: string)
    requires Grew(c0, c1, f0, f1, firstId, directory)
    requires midId == firstId + (|c1| - |c0|)
    requires Grew(c1, c2, f1, f2, midId, directory)
    ensures Grew(c0, c2, f0, f2, firstId, directory)
  {
    forall k | |c0| <= k < |c2|
      ensures c2[k].id == firstId + (k - |c0|)
      ensures f2[|f0| + (k - |c0|)] == JoinPath(directory, c2[k].path)
    {
      if k < |c1| {
        assert c2[k] == c1[k];
        assert f2[|f0| + (k - |c0|)] == f1[|f0| + (k - |c0|)];
      }
    }
  }

  lemma {:induction false} GrewNone(cache: seq<Texture>, files: seq<string>, firstId: nat,
                                    directory: string)
    ensures Grew(cache, cache, files, files, firstId, directory)
  {
  }

  /** What a run of lookups leaves behind: the texture served for each
      request, the cache, and the paths that were missed and loaded. */
  datatype Outcome = Outcome(textures: seq<Texture>, cache: seq<Texture>, misses: seq<string>)

  /** Serves one more request p after the run `prev`: a path the cache
      holds yields its first cached texture; any other path yields a new
      texture of the given kind, named next after the earlier misses, which
      is appended to the cache. */
  function Serve(prev: Outcome, p: string, kind: string, firstId: nat): Outcome {
    match Lookup(prev.cache, p)
    case Some(t) => Outcome(prev.textures + [t], prev.cache, prev.misses)
    case None =>
      var t := Texture(firstId + |prev.misses|, kind, p);
      Outcome(prev.textures + [t], prev.cache + [t], prev.misses + [p])
  }

  /** A search that stops at position j finds the hit Serve uses. */
  lemma {:induction false} ServeHit(prev: Outcome, p: string, kind: string, firstId: nat, j: nat)
    requires j < |prev.cache| && prev.cache[j].path == p
    requires forall k :: 0 <= k < j ==> prev.cache[k].path != p
    ensures Serve(prev, p, kind, firstId) == Outcome(prev.textures + [prev.cache[j]], prev.cache, prev.misses)
  {
    LookupFirst(prev.cache, j);
  }

  /** A search that finds nothing leads Serve to load a new texture. */
  lemma {:induction false} ServeMiss(prev: Outcome, p: string, kind: string, firstId: nat)
    requires forall k :: 0 <= k < |prev.cache| ==> prev.cache[k].path != p
    ensures var t := Texture(firstId + |prev.misses|, kind, p);
            Serve(prev, p, kind, firstId) == Outcome(prev.textures + [t], prev.cache + [t], prev.misses + [p])
  {
    assert p !in PathsOf(prev.cache);
  }

  /** Serves the requests in order, starting from cache0 and naming new
      textures consecutively from firstId. */
  function LoadRun(cache0: seq<Texture>, paths: seq<string>, kind: string, firstId: nat): Outcome {
    if paths == [] then Outcome([], cache0, [])
    else Serve(LoadRun(cache0, paths[..|paths| - 1], kind, firstId), paths[|paths| - 1], kind, firstId)
  }

  /** `run` is what serving `paths` in order, from `cache0`, produces. */
  ghost predicate RunOf(run: Outcome, cache0: seq<Texture>, paths: seq<string>, kind: string,
                        firstId: nat)
  {
    run == LoadRun(cache0, paths, kind, firstId)
  }

  /** One texture per request; the cache grows by exactly the textures
      loaded for the misses, and the misses are those of Misses. */
  lemma {:induction false} LoadRunShape(cache0: seq<Texture>, paths: seq<string>,
                                        kind: string, firstId: nat)
    ensures var run := LoadRun(cache0, paths, kind, firstId);
            && |run.textures| == |paths|
            && run.misses == Misses(PathsOf(cache0), paths)
            && run.cache == cache0 + Fresh(run.misses, kind, firstId)
  {
    if paths != [] {
      var front := paths[..|paths| - 1];
      var prev := LoadRun(cache0, front, kind, firstId);
      LoadRunShape(cache0, front, kind, firstId);
      assert LoadRun(cache0, paths, kind, firstId) == Serve(prev, paths[|paths| - 1], kind, firstId);
      ServeShape(cache0, paths, prev, kind, firstId);
    }
  }

  /** The misses and the cache after one more request. */
  lemma {:induction false} ServeShape(cache0: seq<Texture>, paths: seq<string>, prev: Outcome,
                                      kind: string, firstId: nat)
    requires paths != []
    requires |prev.textures| == |paths| - 1
    requires prev.misses == Misses(PathsOf(cache0), paths[..|paths| - 1])
    requires prev.cache == cache0 + Fresh(prev.misses, kind, firstId)
    ensures var next := Serve(prev, paths[|paths| - 1], kind, firstId);
            && |next.textures| == |paths|
            && next.misses == Misses(PathsOf(cache0), paths)
            && next.cache == cache0 + Fresh(next.misses, kind, firstId)
  {
    var p := paths[|paths| - 1];
    PathsOfFresh(cache0, prev.misses, kind, firstId);
    LookupSpec(prev.cache, p);
    assert Lookup(prev.cache, p).Some? <==> p in PathsOf(cache0) || p in prev.misses;
    if Lookup(prev.cache, p).None? {
      var loaded := Texture(firstId + |prev.misses|, kind, p);
      FreshSnoc(prev.misses, p, kind, firstId);
      assert Serve(prev, p, kind, firstId)
        == Outcome(prev.textures + [loaded], prev.cache + [loaded], prev.misses + [p]);
    }
  }

  /** Request path p was served with texture t: t carries p, it is what the
      cache now hits for p, it is the old hit if p was cached beforehand,
      and a new texture of the requested kind otherwise. */
  ghost predicate Served(cache0: seq<Texture>, cache: seq<Texture>, p: string, t: Texture,
                         kind: string)
  {
    && t.path == p
    && Lookup(cache, p) == Some(t)
    && (p in PathsOf(cache0) ==> Lookup(cache0, p) == Some(t))
    && (p !in PathsOf(cache0) ==> t.kind == kind)
  }

  /** Each request is served by the texture at the same position. */
  ghost predicate AllServed(cache0: seq<Texture>, cache: seq<Texture>, paths: seq<string>,
                            textures: seq<Texture>, kind: string)
  {
    && |textures| == |paths|
    && forall k :: 0 <= k < |paths| ==> Served(cache0, cache, paths[k], textures[k], kind)
  }

  /** Every request of a run is served as Served says. */
  lemma {:induction false} LoadRunServed(cache0: seq<Texture>, paths: seq<string>,
                                         kind: string, firstId: nat)
    ensures var run := LoadRun(cache0, paths, kind, firstId);
            AllServed(cache0, run.cache, paths, run.textures, kind)
  {
    if paths != [] {
      var front := paths[..|paths| - 1];
      var prev := LoadRun(cache0, front, kind, firstId);
      LoadRunServed(cache0, front, kind, firstId);
      LoadRunShape(cache0, front, kind, firstId);
      assert LoadRun(cache0, paths, kind, firstId) == Serve(prev, paths[|paths| - 1], kind, firstId);
      ServeServed(cache0, paths, prev, kind, firstId);
    }
  }

  /** Serving one more request keeps every request served. */
  lemma {:induction false} ServeServed(cache0: seq<Texture>, paths: seq<string>, prev: Outcome,
                                       kind: string, firstId: nat)
    requires paths != []
    requires prev.cache == cache0 + Fresh(prev.misses, kind, firstId)
    requires AllServed(cache0, prev.cache, paths[..|paths| - 1], prev.textures, kind)
    ensures var next := Serve(prev, paths[|paths| - 1], kind, firstId);
            AllServed(cache0, next.cache, paths, next.textures, kind)
  {
    var front, p := paths[..|paths| - 1], paths[|paths| - 1];
    assert paths == front + [p];
    ServedLast(cache0, prev.cache, prev.misses, p, kind, firstId);
    match Lookup(prev.cache, p)
    case Some(hit) =>
      AllServedSnoc(cache0, prev.cache, front, prev.textures, p, hit, kind);
    case None =>
      var loaded := Texture(firstId + |prev.misses|, kind, p);
      AllServedGrow(cache0, prev.cache, prev.cache + [loaded], front, prev.textures, kind);
      AllServedSnoc(cache0, prev.cache + [loaded], front, prev.textures, p, loaded, kind);
      assert Serve(prev, p, kind, firstId)
        == Outcome(prev.textures + [loaded], prev.cache + [loaded], prev.misses + [p]);
  }

  /** Being served survives growth of the cache. */
  lemma {:induction false} AllServedGrow(cache0: seq<Texture>, cache: seq<Texture>,
                                         cache': seq<Texture>,
                                         paths: seq<string>, textures: seq<Texture>, kind: string)
    requires AllServed(cache0, cache, paths, textures, kind) && cache <= cache'
    ensures AllServed(cache0, cache', paths, textures, kind)
  {
    assert cache' == cache + cache'[|cache|..];
    forall k | 0 <= k < |paths|
      ensures Lookup(cache', paths[k]) == Lookup(cache, paths[k])
    {
      LookupSpec(cache, paths[k]);
      LookupExtend(cache, cache'[|cache|..], paths[k]);
    }
  }

  lemma {:induction false} AllServedSnoc(cache0: seq<Texture>, cache: seq<Texture>,
                                         paths: seq<string>,
                                         textures: seq<Texture>, p: string, t: Texture,
                                         kind: string)
    requires AllServed(cache0, cache, paths, textures, kind)
    requires Served(cache0, cache, p, t, kind)
    ensures AllServed(cache0, cache, paths + [p], textures + [t], kind)
  {
    assert forall k :: 0 <= k < |paths| ==> (paths + [p])[k] == paths[k] && (textures + [t])[k] == textures[k];
  }

  /** The last request of a run, served against the cache its predecessors
      left behind. */
  lemma {:induction false} ServedLast(cache0: seq<Texture>, cache: seq<Texture>,
                                      misses: seq<string>,
                                      p: string, kind: string, firstId: nat)
    requires cache == cache0 + Fresh(misses, kind, firstId)
    ensures Lookup(cache, p).Some? ==> Served(cache0, cache, p, Lookup(cache, p).value, kind)
    ensures Lookup(cache, p).None? ==>
              var t := Texture(firstId + |misses|, kind, p);
              Served(cache0, cache + [t], p, t, kind)
  {
    var loaded := Fresh(misses, kind, firstId);
    LookupSpec(cache, p);
    LookupSpec(cache0, p);
    if p in PathsOf(cache0) {
      LookupExtend(cache0, loaded, p);
    } else {
      LookupBeyond(cache0, loaded, p);
      var k := FirstWithPath(loaded, p);
      if k.Some? {
        assert Lookup(cache, p) == Some(loaded[k.value]);
      }
    }
    if Lookup(cache, p).None? {
      var t := Texture(firstId + |misses|, kind, p);
      forall j | 0 <= j < |cache| ensures (cache + [t])[j].path != p {
        assert (cache + [t])[j].path == PathsOf(cache)[j];
      }
      LookupFirst(cache + [t], |cache|);
    }
  }

  /** A run keeps the cache free of duplicate paths. */
  lemma {:induction false} LoadRunNoDup(cache0: seq<Texture>, paths: seq<string>, kind: string,
                                        firstId: nat)
    requires NoDup(PathsOf(cache0))
    ensures NoDup(PathsOf(LoadRun(cache0, paths, kind, firstId).cache))
  {
    var run := LoadRun(cache0, paths, kind, firstId);
    LoadRunShape(cache0, paths, kind, firstId);
    MissesSpec(PathsOf(cache0), paths);
    PathsOfFresh(cache0, run.misses, kind, firstId);
  }

  /** Served requests are hits. */
  lemma {:induction false} ServedHits(cache0: seq<Texture>, cache: seq<Texture>, paths: seq<string>,
                                      textures: seq<Texture>, kind: string)
    requires AllServed(cache0, cache, paths, textures, kind)
    ensures Hits(cache, paths, textures)
  {
  }

  /** Serving one more request extends the run over the requests before it. */
  lemma {:induction false} RunOfSnoc(run: Outcome, cache0: seq<Texture>, paths: seq<string>,
                                     i: nat, kind: string,
                                     firstId: nat)
    requires i < |paths| && RunOf(run, cache0, paths[..i], kind, firstId)
    ensures RunOf(Serve(run, paths[i], kind, firstId), cache0, paths[..i + 1], kind, firstId)
  {
    assert paths[..i + 1][..i] == paths[..i];
  }

  /** What a run leaves behind: the cache extended by one texture per miss,
      each miss's file read in order, and every returned texture the cache
      hit of its request. */
  lemma {:induction false} LoadRunEffect(cache0: seq<Texture>, paths: seq<string>, kind: string,
                                         firstId: nat,
                                         files0: seq<string>, directory: string)
    ensures var run := LoadRun(cache0, paths, kind, firstId);
            var misses := Misses(PathsOf(cache0), paths);
            && run.misses == misses
            && run.cache == cache0 + Fresh(misses, kind, firstId)
            && PathsOf(run.cache) == PathsOf(cache0) + misses
            && Grew(cache0, run.cache, files0, files0 + Joined(directory, misses), firstId, directory)
            && Hits(run.cache, paths, run.textures)
  {
    var run := LoadRun(cache0, paths, kind, firstId);
    LoadRunShape(cache0, paths, kind, firstId);
    LoadRunServed(cache0, paths, kind, firstId);
    ServedHits(cache0, run.cache, paths, run.textures, kind);
    PathsOfFresh(cache0, run.misses, kind, firstId);
    FreshGrew(cache0, files0, run.misses, kind, firstId, directory);
  }

  /** One texture request: the path asked for and the kind a texture loaded
      for it is tagged with. */
  datatype Request = Request(path: string, kind: string)

  /** The requests of one run: each path, tagged with the run's kind. */
  function Tagged(paths: seq<string>, kind: string): seq<Request> {
    seq(|paths|, k requires 0 <= k < |paths| => Request(paths[k], kind))
  }

  /** One more path of a run adds its request at the end. */
  lemma {:induction false} TaggedStep(paths: seq<string>, i: nat, kind: string, log0: seq<Request>)
    requires i < |paths|
    ensures log0 + Tagged(paths[..i], kind) + [Request(paths[i], kind)]
              == log0 + Tagged(paths[..i + 1], kind)
  {
    assert Tagged(paths[..i + 1], kind) == Tagged(paths[..i], kind) + [Request(paths[i], kind)];
    AppendAssoc(log0, Tagged(paths[..i], kind), [Request(paths[i], kind)]);
  }

  /** Concatenation regroups freely; stated once so that the proofs below
      can name the grouping they need. */
  lemma {:induction false} AppendAssoc<T>(a: seq<T>, b: seq<T>, c: seq<T>)
    ensures (a + b) + c == a + (b + c)
  {
  }

  function RequestPaths(requests: seq<Request>): (paths: seq<string>)
    ensures |paths| == |requests|
    ensures forall k :: 0 <= k < |requests| ==> paths[k] == requests[k].path
  {
    seq(|requests|, k requires 0 <= k < |requests| => requests[k].path)
  }

  /** The requests that load a texture, in order: those whose path is
      neither known beforehand nor asked for by an earlier request. */
  function Missed(known: seq<string>, requests: seq<Request>): seq<Request>
    decreases |requests|
  {
    if requests == [] then []
    else
      var earlier := Missed(known, requests[..|requests| - 1]);
      var q := requests[|requests| - 1];
      if q.path in known || q.path in RequestPaths(earlier) then earlier else earlier + [q]
  }

  /** The textures the given requests load: one each, in order, named
      consecutively from firstId and tagged with the request's kind. */
  function Loaded(requests: seq<Request>, firstId: nat): seq<Texture> {
    seq(|requests|, k requires 0 <= k < |requests| =>
          Texture(firstId + k, requests[k].kind, requests[k].path))
  }

  /** The cache after a sequence of requests, whatever runs they are split
      into: a request whose path is cached leaves it as it is, any other
      appends a texture of the request's kind, named with the next id. */
  function AfterRequests(cache0: seq<Texture>, requests: seq<Request>, firstId: nat): (r: seq<Texture>)
    ensures cache0 <= r
    decreases |requests|
  {
    if requests == [] then cache0
    else
      var before := AfterRequests(cache0, requests[..|requests| - 1], firstId);
      var q := requests[|requests| - 1];
      if q.path in PathsOf(before) then before
      else before + [Texture(firstId + (|before| - |cache0|), q.kind, q.path)]
  }

  /** In closed form: the textures loaded for the missed requests appended
      to the cache. */
  /** One more missed request appends its texture, named next. */
  lemma {:induction false} LoadedSnoc(cache0: seq<Texture>, m: seq<Request>, q: Request,
                                      firstId: nat)
    ensures cache0 + Loaded(m, firstId) + [Texture(firstId + |m|, q.kind, q.path)]
              == cache0 + Loaded(m + [q], firstId)
  {
    LoadedAppend(m, [q], firstId);
    assert Loaded([q], firstId + |m|) == [Texture(firstId + |m|, q.kind, q.path)];
    AppendAssoc(cache0, Loaded(m, firstId), Loaded([q], firstId + |m|));
  }

  lemma {:induction false} AfterRequestsLoaded(cache0: seq<Texture>, requests: seq<Request>,
                                               firstId: nat)
    ensures AfterRequests(cache0, requests, firstId)
              == cache0 + Loaded(Missed(PathsOf(cache0), requests), firstId)
    decreases |requests|
  {
    if requests != [] {
      var front := requests[..|requests| - 1];
      AfterRequestsLoaded(cache0, front, firstId);
      assert requests == front + [requests[|requests| - 1]];
      AfterRequestsStep(cache0, front, requests[|requests| - 1], firstId);
    }
  }

  /** The closed form of `AfterRequests` survives one more request. */
  lemma {:induction false} AfterRequestsStep(cache0: seq<Texture>, front: seq<Request>, q: Request,
                                             firstId: nat)
    requires AfterRequests(cache0, front, firstId)
               == cache0 + Loaded(Missed(PathsOf(cache0), front), firstId)
    ensures AfterRequests(cache0, front + [q], firstId)
              == cache0 + Loaded(Missed(PathsOf(cache0), front + [q]), firstId)
  {
    var requests := front + [q];
    assert requests[..|requests| - 1] == front;
    var m := Missed(PathsOf(cache0), front);
    var before := AfterRequests(cache0, front, firstId);
    PathsOfLoaded(cache0, m, firstId);
    assert PathsOf(before) == PathsOf(cache0) + RequestPaths(m);
    if q.path !in PathsOf(before) {
      assert |before| - |cache0| == |m|;
      LoadedSnoc(cache0, m, q, firstId);
    }
  }

  /** The (path, type name) entries of the cached textures, in cache order. */
  function Entries(cache: seq<Texture>): seq<Request> {
    seq(|cache|, k requires 0 <= k < |cache| => Request(cache[k].path, cache[k].kind))
  }

  /** The missed requests' paths are the misses of the requested paths: each
      path not known beforehand, once, in the order first asked for. */
  lemma {:induction false} MissedPaths(known: seq<string>, requests: seq<Request>)
    ensures RequestPaths(Missed(known, requests)) == Misses(known, RequestPaths(requests))
    ensures forall q :: q in Missed(known, requests) ==> q in requests
    decreases |requests|
  {
    if requests != [] {
      var front := requests[..|requests| - 1];
      var q := requests[|requests| - 1];
      MissedPaths(known, front);
      assert RequestPaths(requests)[..|requests| - 1] == RequestPaths(front);
      var earlier := Missed(known, front);
      if !(q.path in known || q.path in RequestPaths(earlier)) {
        assert RequestPaths(earlier + [q]) == RequestPaths(earlier) + [q.path];
      }
    }
  }

  /** A missed request is the first request of its path, so a texture is
      loaded with the kind of the first request that asks for its path. */
  lemma {:induction false} MissedFirst(known: seq<string>, requests: seq<Request>, m: nat)
    requires m < |Missed(known, requests)|
    ensures exists j :: 0 <= j < |requests| && requests[j] == Missed(known, requests)[m]
                        && forall k :: 0 <= k < j ==> requests[k].path != requests[j].path
    decreases |requests|
  {
    var front := requests[..|requests| - 1];
    var q := requests[|requests| - 1];
    var earlier := Missed(known, front);
    if m < |earlier| {
      assert Missed(known, requests)[m] == earlier[m];
      MissedFirst(known, front, m);
      var j :| 0 <= j < |front| && front[j] == earlier[m]
               && forall k :: 0 <= k < j ==> front[k].path != front[j].path;
      assert requests[j] == Missed(known, requests)[m] by {
        assert requests[j] == front[j];
      }
      forall k | 0 <= k < j
        ensures requests[k].path != requests[j].path
      {
        assert requests[k] == front[k] && requests[j] == front[j];
      }
    } else {
      assert Missed(known, requests) == earlier + [q];
      var j := |requests| - 1;
      assert requests[j] == Missed(known, requests)[m];
      forall k | 0 <= k < j
        ensures requests[k].path != requests[j].path
      {
        MissedCovers(known, front, k);
        assert requests[k] == front[k];
      }
    }
  }

  /** Every requested path is known beforehand or among the missed ones. */
  lemma {:induction false} MissedCovers(known: seq<string>, requests: seq<Request>, k: nat)
    requires k < |requests|
    ensures requests[k].path in known || requests[k].path in RequestPaths(Missed(known, requests))
  {
    MissedPaths(known, requests);
    MissesSpec(known, RequestPaths(requests));
    assert RequestPaths(requests)[k] == requests[k].path;
    assert requests[k].path in RequestPaths(requests);
  }

  /** Requests served in two stretches miss what one stretch misses: the
      first stretch's misses, then the second's against everything known by
      then. */
  lemma {:induction false} MissedAppend(known: seq<string>, a: seq<Request>, b: seq<Request>)
    ensures Missed(known, a + b)
              == Missed(known, a) + Missed(known + RequestPaths(Missed(known, a)), b)
    decreases |b|
  {
    if b == [] {
      assert a + b == a;
    } else {
      var front, q := b[..|b| - 1], b[|b| - 1];
      assert (a + b)[..|a + b| - 1] == a + front;
      assert (a + b)[|a + b| - 1] == q;
      MissedAppend(known, a, front);
      var ma := Missed(known, a);
      var rest := Missed(known + RequestPaths(ma), front);
      assert RequestPaths(ma + rest) == RequestPaths(ma) + RequestPaths(rest);
      if !(q.path in known + RequestPaths(ma) || q.path in RequestPaths(rest)) {
        assert ma + (rest + [q]) == (ma + rest) + [q];
      }
    }
  }

  /** A run of one kind misses the requests of its misses. */
  lemma {:induction false} MissedTagged(known: seq<string>, paths: seq<string>, kind: string)
    ensures Missed(known, Tagged(paths, kind)) == Tagged(Misses(known, paths), kind)
    decreases |paths|
  {
    if paths != [] {
      var front := paths[..|paths| - 1];
      assert Tagged(paths, kind)[..|paths| - 1] == Tagged(front, kind);
      MissedTagged(known, front, kind);
      assert RequestPaths(Tagged(Misses(known, front), kind)) == Misses(known, front);
      var m := Misses(known, front);
      assert Tagged(m + [paths[|paths| - 1]], kind) == Tagged(m, kind) + [Request(paths[|paths| - 1], kind)];
    }
  }

  /** Requests served from a cache with the result of earlier requests
      continue those requests, names included. */
  lemma {:induction false} AfterRequestsAppend(cache0: seq<Texture>, a: seq<Request>,
                                               b: seq<Request>, firstId: nat,
                                               mid: seq<Texture>, midId: nat)
    requires mid == AfterRequests(cache0, a, firstId)
    requires midId == firstId + (|mid| - |cache0|)
    ensures AfterRequests(mid, b, midId) == AfterRequests(cache0, a + b, firstId)
  {
    var known := PathsOf(cache0);
    var ma := Missed(known, a);
    var la := Loaded(ma, firstId);
    assert mid == cache0 + la by {
      AfterRequestsLoaded(cache0, a, firstId);
    }
    assert PathsOf(mid) == known + RequestPaths(ma) by {
      PathsOfLoaded(cache0, ma, firstId);
    }
    var mb := Missed(PathsOf(mid), b);
    var lb := Loaded(mb, midId);
    assert AfterRequests(mid, b, midId) == mid + lb by {
      AfterRequestsLoaded(mid, b, midId);
    }
    assert AfterRequests(cache0, a + b, firstId) == cache0 + Loaded(ma + mb, firstId) by {
      AfterRequestsLoaded(cache0, a + b, firstId);
      MissedAppend(known, a, b);
    }
    assert Loaded(ma + mb, firstId) == la + lb by {
      LoadedAppend(ma, mb, firstId);
    }
    AppendAssoc(cache0, la, lb);
  }

  /** Loading textures for requests adds the requests' paths. */
  lemma {:induction false} PathsOfLoaded(cache0: seq<Texture>, requests: seq<Request>, firstId: nat)
    ensures PathsOf(cache0 + Loaded(requests, firstId)) == PathsOf(cache0) + RequestPaths(requests)
  {
  }

  /** Textures loaded for two stretches of requests are named on from
      where the first stretch stopped. */
  lemma {:induction false} LoadedAppend(a: seq<Request>, b: seq<Request>, firstId: nat)
    ensures Loaded(a + b, firstId) == Loaded(a, firstId) + Loaded(b, firstId + |a|)
  {
  }

  /** One run of lookups serves its paths as requests of its kind. */
  lemma {:induction false} RunAfterRequests(cache0: seq<Texture>, paths: seq<string>, kind: string,
                                            firstId: nat)
    ensures LoadRun(cache0, paths, kind, firstId).cache
              == AfterRequests(cache0, Tagged(paths, kind), firstId)
  {
    AfterRequestsLoaded(cache0, Tagged(paths, kind), firstId);
    LoadRunShape(cache0, paths, kind, firstId);
    MissedTagged(PathsOf(cache0), paths, kind);
    var m := Misses(PathsOf(cache0), paths);
    assert Fresh(m, kind, firstId) == Loaded(Tagged(m, kind), firstId);
  }

  /** A request for a path the cache holds leaves the cache as it is: the
      request is not a first request of its path. */
  lemma {:induction false} LoggedHit(cache: seq<Texture>, log: seq<Request>, j: nat, kind: string)
    requires Entries(cache) == Missed([], log)
    requires j < |cache|
    ensures Entries(cache) == Missed([], log + [Request(cache[j].path, kind)])
  {
    var q := Request(cache[j].path, kind);
    assert (log + [q])[..|log + [q]| - 1] == log;
    assert RequestPaths(Missed([], log)) == PathsOf(cache);
    assert PathsOf(cache)[j] == q.path;
  }

  /** A request for a path the cache does not hold is a first request: the
      texture loaded for it is the next entry. */
  lemma {:induction false} LoggedMiss(cache: seq<Texture>, log: seq<Request>, t: Texture)
    requires Entries(cache) == Missed([], log)
    requires forall k :: 0 <= k < |cache| ==> cache[k].path != t.path
    ensures Entries(cache + [t]) == Missed([], log + [Request(t.path, t.kind)])
  {
    var q := Request(t.path, t.kind);
    assert (log + [q])[..|log + [q]| - 1] == log;
    assert RequestPaths(Missed([], log)) == PathsOf(cache);
    assert q.path !in PathsOf(cache);
    assert Entries(cache + [t]) == Entries(cache) + [q];
  }

  /** A cache whose entries are the missed requests of a log holds each
      path once. */
  lemma {:induction false} LoggedNoDup(cache: seq<Texture>, log: seq<Request>)
    requires Entries(cache) == Missed([], log)
    ensures NoDup(PathsOf(cache))
  {
    MissedPaths([], log);
    MissesSpec([], RequestPaths(log));
    assert PathsOf(cache) == RequestPaths(Missed([], log));
  }

  /** The cache is fixed by its log of requests and the names of its new
      entries: what the requests after `cache0` added is what they missed,
      named consecutively from firstId. */
  lemma {:induction false} CacheOfLog(cache0: seq<Texture>, cache: seq<Texture>,
                                      log0: seq<Request>, log: seq<Request>,
                                      files0: seq<string>, files: seq<string>,
                                      firstId: nat, directory: string)
    requires Entries(cache0) == Missed([], log0)
    requires Entries(cache) == Missed([], log0 + log)
    requires Grew(cache0, cache, files0, files, firstId, directory)
    ensures cache == AfterRequests(cache0, log, firstId)
  {
    AfterRequestsLoaded(cache0, log, firstId);
    MissedAppend([], log0, log);
    assert [] + RequestPaths(Missed([], log0)) == PathsOf(cache0);
    var m := Missed(PathsOf(cache0), log);
    assert Entries(cache) == Entries(cache0) + m;
    forall k | |cache0| <= k < |cache|
      ensures cache[k] == Loaded(m, firstId)[k - |cache0|]
    {
      assert Entries(cache)[k] == m[k - |cache0|];
    }
  }
}
