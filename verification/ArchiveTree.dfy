/** Names in an archive and the tree of files they unpack to. */
module ArchiveTree {
  import opened Options

  type Path = seq<string>

  // ------------------------------------------------------------------ names

  function Split(name: string): (parts: Path)
    ensures parts != []
  {
    if name == "" then [""]
    else
      var rest := Split(name[1..]);
      if name[0] == '/' then [""] + rest else [[name[0]] + rest[0]] + rest[1..]
  }

  function Join(parts: Path): string {
    if parts == [] then "" else if |parts| == 1 then parts[0] else parts[0] + "/" + Join(parts[1..])
  }

  predicate Ordinary(part: string) {
    part != "" && part != "." && part != ".." && '/' !in part
  }

  predicate SafeName(name: string) {
    && name != "" && '\\' !in name && '\0' !in name && name[0] != '/'
    && forall part <- Split(name) :: part != "" && part != "." && part != ".."
  }

  lemma {:induction false} SplitHasNoSlash(name: string)
    ensures forall part <- Split(name) :: '/' !in part
  {
    if name != "" {
      SplitHasNoSlash(name[1..]);
    }
  }

  lemma {:induction false} JoinOfSplit(name: string)
    ensures Join(Split(name)) == name
  {
    if name != "" {
      JoinOfSplit(name[1..]);
      var rest := Split(name[1..]);
      if name[0] == '/' {
        assert ([""] + rest)[1..] == rest;
        assert Join([""] + rest) == "/" + Join(rest);
      } else {
        JoinConsChar(name[0], rest);
      }
      assert name == [name[0]] + name[1..];
    }
  }

  lemma JoinConsChar(c: char, parts: Path)
    requires parts != []
    ensures Join([[c] + parts[0]] + parts[1..]) == [c] + Join(parts)
  {
    var longer := [[c] + parts[0]] + parts[1..];
    assert longer[1..] == parts[1..];
    if |parts| > 1 {
      assert ([c] + parts[0]) + "/" + Join(parts[1..]) == [c] + (parts[0] + "/" + Join(parts[1..]));
    }
  }

  lemma {:induction false} SplitOfOne(part: string)
    requires '/' !in part
    ensures Split(part) == [part]
  {
    if part != "" {
      SplitOfOne(part[1..]);
      assert part == [part[0]] + part[1..];
    }
  }

  lemma {:induction false} SplitOfSlash(part: string, rest: string)
    requires '/' !in part
    ensures Split(part + "/" + rest) == [part] + Split(rest)
  {
    var name := part + "/" + rest;
    if part == "" {
      assert name == "/" + rest && name[1..] == rest;
    } else {
      SplitOfSlash(part[1..], rest);
      assert name[1..] == part[1..] + "/" + rest;
      assert part == [part[0]] + part[1..];
      assert ([part[1..]] + Split(rest))[1..] == Split(rest);
    }
  }

  lemma {:induction false} SplitOfJoin(parts: Path)
    requires parts != [] && forall part <- parts :: '/' !in part
    ensures Split(Join(parts)) == parts
  {
    if |parts| == 1 {
      SplitOfOne(parts[0]);
      assert parts == [parts[0]];
    } else {
      SplitOfJoin(parts[1..]);
      SplitOfSlash(parts[0], Join(parts[1..]));
      assert parts == [parts[0]] + parts[1..];
    }
  }

  // ------------------------------------------------------------- file tree

  type Bytes = seq<bv8>
  datatype Node = Dir | File(contents: Bytes, mode: bv32)

  /** What lies under an extraction target; the target itself is the empty path. */
  type Tree = map<Path, Node>

  const BARE: Tree := map[[] := Dir]

  predicate Above(p: Path, path: Path) {
    p <= path
  }

  function Parent(path: Path): Path
    requires path != []
  {
    path[..|path| - 1]
  }

  /** `mkdir` with its parents, none of which may be a file. */
  function MakeDirs(tree: Tree, path: Path): Option<Tree>
    decreases |path|
  {
    if path in tree then (if tree[path].Dir? then Some(tree) else None)
    else if path == [] then None
    else
      match MakeDirs(tree, Parent(path))
      case None => None
      case Some(grown) => Some(grown[path := Dir])
  }

  /** Create the parents, then the file, which must not exist. */
  function WriteNew(tree: Tree, path: Path, file: Node): Option<Tree> {
    if path == [] then None
    else
      match MakeDirs(tree, Parent(path))
      case None => None
      case Some(grown) => if path in grown then None else Some(grown[path := file])
  }

  ghost predicate Rooted(tree: Tree) {
    && [] in tree && tree[[]].Dir?
    && forall path <- tree :: path != [] ==> Parent(path) in tree && tree[Parent(path)].Dir?
  }

  lemma {:induction false} MakeDirsAddsPrefixes(tree: Tree, path: Path)
    requires Rooted(tree)
    requires forall k :: 0 <= k <= |path| && path[..k] in tree ==> tree[path[..k]].Dir?
    ensures MakeDirs(tree, path).Some?
    ensures var grown := MakeDirs(tree, path).value;
      && (forall p :: p in grown <==> p in tree || Above(p, path))
      && (forall p <- grown :: grown[p] == if p in tree then tree[p] else Dir)
    decreases |path|
  {
    assert path[..|path|] == path;
    if path !in tree {
      var parent := Parent(path);
      assert forall k :: 0 <= k <= |parent| ==> parent[..k] == path[..k];
      MakeDirsAddsPrefixes(tree, parent);
      assert forall p :: Above(p, path) <==> Above(p, parent) || p == path;
    } else {
      PrefixesPresent(tree, path);
    }
  }

  lemma {:induction false} PrefixesPresent(tree: Tree, path: Path)
    requires Rooted(tree) && path in tree
    ensures forall p :: Above(p, path) ==> p in tree
    decreases |path|
  {
    if path != [] {
      PrefixesPresent(tree, Parent(path));
      assert forall p :: Above(p, path) <==> Above(p, Parent(path)) || p == path;
    }
  }
}
