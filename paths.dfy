/**
 * The two string operations of the loader: the directory of the model
 * file (everything before the last '/') and the join of that directory
 * with a texture's relative path.
 */
module Paths {
  import opened Wrappers

  /** The position of the last occurrence of c in s, if any. */
  function LastIndexOf(s: string, c: char): (r: Option<nat>)
    ensures r.Some? ==> r.value < |s| && s[r.value] == c
    ensures r.Some? ==> forall k :: r.value < k < |s| ==> s[k] != c
    ensures r.None? <==> c !in s
  {
    if s == [] then None
    else if s[|s| - 1] == c then Some(|s| - 1)
    else LastIndexOf(s[..|s| - 1], c)
  }

  /** The directory of a model path: the part before the last '/', or the
      whole path when it has none (a substring up to "not found" is the whole
      string). */
  function Directory(path: string): (dir: string)
    ensures dir <= path
    ensures '/' !in path ==> dir == path
    ensures '/' in path ==> |dir| < |path| && path[|dir|] == '/' && '/' !in path[|dir| + 1..]
  {
    match LastIndexOf(path, '/')
    case None => path
    case Some(k) => path[..k]
  }

  /** The file name a texture is read from: directory, '/', relative path. */
  function JoinPath(directory: string, path: string): string {
    directory + "/" + path
  }

  /** Joining a directory with a path that has no '/' and taking the
      directory again gives the directory back. */
  lemma {:induction false} DirectoryOfJoin(directory: string, path: string)
    requires '/' !in path
    ensures Directory(JoinPath(directory, path)) == directory
  {
    var joined := JoinPath(directory, path);
    assert joined[|directory|] == '/';
    assert joined[|directory| + 1..] == path;
    assert '/' in joined;
    assert joined[..|directory|] == directory;
  }

  /** A path with a '/' is its directory joined with the part after the
      last '/'. */
  lemma {:induction false} JoinOfDirectory(path: string)
    requires '/' in path
    ensures JoinPath(Directory(path), path[|Directory(path)| + 1..]) == path
  {
    var dir := Directory(path);
    assert path == path[..|dir|] + [path[|dir|]] + path[|dir| + 1..];
  }
}
