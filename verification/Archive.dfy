/** Creating, checking and unpacking artifact archives. */
module Archive {
  import opened Options
  import opened ArchiveTree

  datatype Kind = Regular | HardLink | SymLink | Other
  datatype Member = Member(name: string, kind: Kind, mode: bv32, size: int, contents: Bytes)

  const SIZE_LIMIT: int := 2 * 1024 * 1024 * 1024

  datatype Error =
    | UnsafePath | NonRegular | Duplicate | UnsafeMode | SizeLimit | Empty | FileDirectoryCollision
    | TargetExists | AlreadyThere | InputOutput | LinkForbidden | SpecialFile

  function Parts(m: Member): Path {
    Split(m.name)
  }

  /** No bits beyond the permissions, and not writable by group or others. */
  predicate SafeMode(mode: bv32) {
    mode & 0xFFFFFE00 == 0 && mode & 0x12 == 0
  }

  predicate Good(m: Member) {
    SafeName(m.name) && m.kind == Regular && SafeMode(m.mode) && m.size >= 0
  }

  function Total(ms: seq<Member>): int {
    if ms == [] then 0 else Total(ms[..|ms| - 1]) + ms[|ms| - 1].size
  }

  predicate AllGood(ms: seq<Member>) {
    forall m <- ms :: Good(m)
  }

  /** No member is at the place of another or inside another. */
  ghost predicate Separate(ms: seq<Member>) {
    forall i, j :: 0 <= i < |ms| && 0 <= j < |ms| && i != j ==> !Above(Parts(ms[i]), Parts(ms[j]))
  }

  ghost predicate Acceptable(ms: seq<Member>) {
    && ms != []
    && AllGood(ms)
    && Separate(ms)
    && Total(ms) <= SIZE_LIMIT
  }

  // -------------------------------------------------------------- preflight

  lemma {:induction false} TotalGrows(ms: seq<Member>, k: nat)
    requires k <= |ms| && forall m <- ms :: m.size >= 0
    ensures Total(ms[..k]) <= Total(ms)
  {
    if k < |ms| {
      var shorter := ms[..|ms| - 1];
      TotalGrows(shorter, k);
      assert shorter[..k] == ms[..k];
    } else {
      assert ms[..k] == ms;
    }
  }

  /** A directory that the name needs is itself a name. */
  predicate Under(names: set<string>, name: string) {
    exists k | 1 <= k < |Split(name)| :: Join(Split(name)[..k]) in names
  }

  function Names(ms: seq<Member>): set<string> {
    set m | m in ms :: m.name
  }

  predicate Distinct(ms: seq<Member>) {
    forall i, j :: 0 <= i < j < |ms| ==> ms[i].name != ms[j].name
  }

  lemma AboveMeansUnder(ms: seq<Member>, i: nat, j: nat)
    requires i < |ms| && j < |ms| && ms[i].name != ms[j].name && Above(Parts(ms[i]), Parts(ms[j]))
    ensures Under(Names(ms), ms[j].name)
  {
    assert Split(ms[i].name) != Split(ms[j].name) by {
      JoinOfSplit(ms[i].name);
      JoinOfSplit(ms[j].name);
    }
    var k := |Split(ms[i].name)|;
    assert Split(ms[j].name)[..k] == Split(ms[i].name);
    JoinOfSplit(ms[i].name);
    assert Join(Split(ms[j].name)[..k]) in Names(ms);
  }

  lemma UnderMeansAbove(ms: seq<Member>, j: nat) returns (i: nat)
    requires j < |ms| && Under(Names(ms), ms[j].name)
    ensures i < |ms| && i != j && Above(Parts(ms[i]), Parts(ms[j]))
  {
    var parts := Split(ms[j].name);
    var k :| 1 <= k < |parts| && Join(parts[..k]) in Names(ms);
    i :| 0 <= i < |ms| && ms[i].name == Join(parts[..k]);
    SplitHasNoSlash(ms[j].name);
    SplitOfJoin(parts[..k]);
  }

  lemma SeparateIffNoneUnder(ms: seq<Member>)
    requires Distinct(ms)
    ensures Separate(ms) <==> forall name <- Names(ms) :: !Under(Names(ms), name)
  {
    if forall name <- Names(ms) :: !Under(Names(ms), name) {
      forall i, j | 0 <= i < |ms| && 0 <= j < |ms| && i != j
        ensures !Above(Parts(ms[i]), Parts(ms[j]))
      {
        if Above(Parts(ms[i]), Parts(ms[j])) {
          AboveMeansUnder(ms, i, j);
        }
      }
    } else {
      var name :| name in Names(ms) && Under(Names(ms), name);
      var j :| 0 <= j < |ms| && ms[j].name == name;
      var i := UnderMeansAbove(ms, j);
    }
  }

  /** Every refusal names something that is wrong with the archive. */
  ghost predicate Explains(e: Error, ms: seq<Member>) {
    match e
    case UnsafePath => exists m <- ms :: !SafeName(m.name)
    case NonRegular => exists m <- ms :: m.kind != Regular
    case Duplicate => exists i, j :: 0 <= i < j < |ms| && ms[i].name == ms[j].name
    case UnsafeMode => exists m <- ms :: !SafeMode(m.mode)
    case SizeLimit => (exists m <- ms :: m.size < 0) || (exists k :: 0 <= k <= |ms| && Total(ms[..k]) > SIZE_LIMIT)
    case Empty => ms == []
    case FileDirectoryCollision => !Separate(ms)
    case _ => false
  }

  lemma DuplicatesAreNotSeparate(ms: seq<Member>)
    requires Explains(Duplicate, ms)
    ensures !Separate(ms)
  {
    var i, j :| 0 <= i < j < |ms| && ms[i].name == ms[j].name;
    assert Above(Parts(ms[i]), Parts(ms[j]));
  }

  lemma ExplainedIsUnacceptable(e: Error, ms: seq<Member>)
    requires Explains(e, ms)
    ensures !Acceptable(ms)
  {
    if Acceptable(ms) {
      if e == Duplicate {
        DuplicatesAreNotSeparate(ms);
      }
      if e == SizeLimit {
        var k :| 0 <= k <= |ms| && Total(ms[..k]) > SIZE_LIMIT;
        TotalGrows(ms, k);
      }
    }
  }

  /** What the loop over the members has established about the first ones. */
  ghost predicate Checked(ms: seq<Member>, names: set<string>, total: int) {
    && names == Names(ms) && Distinct(ms)
    && AllGood(ms)
    && total == Total(ms) <= SIZE_LIMIT
  }

  lemma CheckedExtends(ms: seq<Member>, names: set<string>, total: int, m: Member)
    requires Checked(ms, names, total) && Good(m) && m.name !in names && total + m.size <= SIZE_LIMIT
    ensures Checked(ms + [m], names + {m.name}, total + m.size)
  {
    assert (ms + [m])[..|ms|] == ms;
    assert forall i :: 0 <= i < |ms| ==> ms[i].name in names;
  }

  /** The checks that concern one member alone. */
  method CheckMember(m: Member, names: set<string>) returns (r: Option<Error>)
    ensures r.None? <==> SafeName(m.name) && m.kind == Regular && m.name !in names && SafeMode(m.mode)
    ensures r.Some? ==> match r.value
                        case UnsafePath => !SafeName(m.name)
                        case NonRegular => m.kind != Regular
                        case Duplicate => m.name in names
                        case UnsafeMode => !SafeMode(m.mode)
                        case _ => false
  {
    if !SafeName(m.name) { return Some(UnsafePath); }
    if m.kind != Regular { return Some(NonRegular); }
    if m.name in names { return Some(Duplicate); }
    if m.mode & 0xFFFFFE00 != 0 || m.mode & 0x12 != 0 { return Some(UnsafeMode); }
    return None;
  }

  lemma DuplicateExplained(ms: seq<Member>, i: nat)
    requires i < |ms| && ms[i].name in Names(ms[..i])
    ensures Explains(Duplicate, ms)
  {
    var m :| m in ms[..i] && m.name == ms[i].name;
    var k :| 0 <= k < i && ms[..i][k] == m;
    assert ms[k].name == ms[i].name;
  }

  /** The loop over the members. */
  method CheckMembers(ms: seq<Member>) returns (r: Option<Error>, names: set<string>)
    ensures r.Some? ==> Explains(r.value, ms)
    ensures r.None? ==> Checked(ms, names, Total(ms))
  {
    names := {};
    var total := 0;
    for i := 0 to |ms|
      invariant Checked(ms[..i], names, total)
    {
      var m := ms[i];
      assert m in ms;
      r := CheckMember(m, names);
      if r.Some? {
        if r.value == Duplicate { DuplicateExplained(ms, i); }
        return;
      }
      assert ms[..i + 1] == ms[..i] + [m];
      total := total + m.size;
      assert Total(ms[..i + 1]) == total by { assert ms[..i + 1][..i] == ms[..i]; }
      if m.size < 0 || total > SIZE_LIMIT { return Some(SizeLimit), names; }
      CheckedExtends(ms[..i], names, total - m.size, m);
      names := names + {m.name};
    }
    assert ms[..|ms|] == ms;
    return None, names;
  }

  /** Preflight refuses exactly the archives that are not acceptable. */
  method Preflight(ms: seq<Member>) returns (r: Option<Error>)
    ensures r.None? <==> Acceptable(ms)
    ensures r.Some? ==> Explains(r.value, ms)
  {
    var names;
    r, names := CheckMembers(ms);
    if r.Some? {
      ExplainedIsUnacceptable(r.value, ms);
      return;
    }
    if ms == [] { return Some(Empty); }
    SeparateIffNoneUnder(ms);
    var left := names;
    while left != {}
      invariant left <= names
      invariant forall name <- names - left :: !Under(names, name)
      decreases |left|
    {
      var name :| name in left;
      if exists k | 1 <= k < |Split(name)| :: Join(Split(name)[..k]) in names {
        return Some(FileDirectoryCollision);
      }
      left := left - {name};
    }
    return None;
  }

  // ---------------------------------------------------------------- extract

  function FileOf(m: Member): Node {
    File(m.contents, m.mode)
  }

  /** Unpack the members in their order; nothing, if a target exists already or
      a file stands where a directory is needed. */
  function Unpack(ms: seq<Member>): Option<Tree> {
    if ms == [] then Some(BARE)
    else
      match Unpack(ms[..|ms| - 1])
      case None => None
      case Some(tree) => WriteNew(tree, Parts(ms[|ms| - 1]), FileOf(ms[|ms| - 1]))
  }

  /** The path is a directory that some member needs, or a member. */
  ghost predicate Needed(p: Path, ms: seq<Member>) {
    p == [] || exists i :: 0 <= i < |ms| && Above(p, Parts(ms[i]))
  }

  /** The tree holds exactly the members, and the directories they need. */
  ghost predicate Mirrors(tree: Tree, ms: seq<Member>) {
    && (forall p :: p in tree <==> Needed(p, ms))
    && (forall p <- tree :: tree[p].File? ==> exists i :: 0 <= i < |ms| && p == Parts(ms[i]))
    && (forall i :: 0 <= i < |ms| ==> Parts(ms[i]) in tree && tree[Parts(ms[i])] == FileOf(ms[i]))
  }

  lemma NeededExtends(p: Path, ms: seq<Member>, m: Member)
    ensures Needed(p, ms + [m]) <==> Needed(p, ms) || Above(p, Parts(m))
  {
    var longer := ms + [m];
    if Needed(p, ms) && p != [] {
      var i :| 0 <= i < |ms| && Above(p, Parts(ms[i]));
      assert longer[i] == ms[i];
    }
    if Above(p, Parts(m)) {
      assert longer[|ms|] == m;
    }
  }

  lemma SeparateSplits(ms: seq<Member>, m: Member)
    ensures Separate(ms + [m]) <==>
            Separate(ms) && Apart(ms, Parts(m))
  {
    var longer := ms + [m];
    assert forall i :: 0 <= i < |ms| ==> longer[i] == ms[i];
    assert longer[|ms|] == m;
    if Separate(longer) {
      assert forall i :: 0 <= i < |ms| ==> !Above(Parts(longer[i]), Parts(longer[|ms|]))
                                           && !Above(Parts(longer[|ms|]), Parts(longer[i]));
      assert forall i, j :: 0 <= i < |ms| && 0 <= j < |ms| && i != j ==> !Above(Parts(longer[i]), Parts(longer[j]));
    }
  }

  /** The member lies neither at, above nor inside any of the others. */
  ghost predicate Apart(ms: seq<Member>, path: Path) {
    forall i :: 0 <= i < |ms| ==> !Above(Parts(ms[i]), path) && !Above(path, Parts(ms[i]))
  }

  /** Nothing is at this path, and only directories are above it. */
  ghost predicate Room(tree: Tree, path: Path) {
    path !in tree && forall p :: Above(p, path) && p in tree ==> tree[p].Dir?
  }

  /** The tree after writing a file where there is room for it. */
  lemma WriteAdds(tree: Tree, path: Path, file: Node)
    requires Rooted(tree) && path != [] && file.File?
    requires Room(tree, path)
    ensures WriteNew(tree, path, file).Some?
    ensures var next := WriteNew(tree, path, file).value;
      && Rooted(next)
      && (forall p :: p in next <==> p in tree || Above(p, path))
      && (forall p <- next :: next[p] == if p in tree then tree[p] else if p == path then file else Dir)
  {
    var parent := Parent(path);
    assert forall k :: 0 <= k <= |parent| ==> parent[..k] == path[..k] && Above(path[..k], path);
    MakeDirsAddsPrefixes(tree, parent);
    assert forall p :: Above(p, path) <==> Above(p, parent) || p == path;
    RootedGrows(tree, path, MakeDirs(tree, parent).value[path := file]);
  }

  lemma RootedGrows(tree: Tree, path: Path, next: Tree)
    requires Rooted(tree) && path != []
    requires forall p :: p in next <==> p in tree || Above(p, path)
    requires forall p <- next :: p in tree ==> next[p] == tree[p]
    requires forall p <- next :: p !in tree && p != path ==> next[p].Dir?
    requires forall p :: Above(p, path) && p in tree ==> tree[p].Dir?
    ensures Rooted(next)
  {
    forall p | p in next && p != []
      ensures Parent(p) in next && next[Parent(p)].Dir?
    {
      if p !in tree {
        assert Above(Parent(p), path) && Parent(p) != path;
      }
    }
  }

  lemma ApartGivesRoom(tree: Tree, ms: seq<Member>, path: Path)
    requires Mirrors(tree, ms) && path != [] && Apart(ms, path)
    ensures Room(tree, path)
  {
    assert !Needed(path, ms);
  }

  lemma RoomGivesApart(tree: Tree, ms: seq<Member>, path: Path, i: nat)
    requires Mirrors(tree, ms) && path != [] && Room(tree, path) && i < |ms|
    ensures !Above(Parts(ms[i]), path) && !Above(path, Parts(ms[i]))
  {
    var other := Parts(ms[i]);
    assert other in tree && tree[other].File?;
    assert !Needed(path, ms);
  }

  lemma MirrorsExtends(tree: Tree, ms: seq<Member>, m: Member, next: Tree)
    requires Mirrors(tree, ms) && Parts(m) !in tree
    requires forall p :: p in next <==> p in tree || Above(p, Parts(m))
    requires forall p <- next :: next[p] == if p in tree then tree[p] else if p == Parts(m) then FileOf(m) else Dir
    ensures Mirrors(next, ms + [m])
  {
    var longer := ms + [m];
    assert longer[|ms|] == m && forall i :: 0 <= i < |ms| ==> longer[i] == ms[i];
    forall p
      ensures p in next <==> Needed(p, longer)
    {
      NeededExtends(p, ms, m);
    }
    forall p | p in next && next[p].File?
      ensures exists i :: 0 <= i < |longer| && p == Parts(longer[i])
    {
      if p in tree {
        var i :| 0 <= i < |ms| && p == Parts(ms[i]);
        assert longer[i] == ms[i];
      }
    }
    MembersStay(tree, ms, m, next);
  }

  lemma MembersStay(tree: Tree, ms: seq<Member>, m: Member, next: Tree)
    requires Mirrors(tree, ms) && Parts(m) !in tree
    requires Parts(m) in next && next[Parts(m)] == FileOf(m)
    requires forall p <- tree :: p in next && next[p] == tree[p]
    ensures var longer := ms + [m];
      forall i :: 0 <= i < |longer| ==> Parts(longer[i]) in next && next[Parts(longer[i])] == FileOf(longer[i])
  {
    var longer := ms + [m];
    forall i | 0 <= i < |longer|
      ensures Parts(longer[i]) in next && next[Parts(longer[i])] == FileOf(longer[i])
    {
      if i < |ms| {
        assert longer[i] == ms[i];
      }
    }
  }

  /** Writing a member succeeds exactly if it is apart from those written before. */
  lemma WriteIffApart(tree: Tree, ms: seq<Member>, m: Member)
    requires Rooted(tree) && Mirrors(tree, ms)
    ensures var next := WriteNew(tree, Parts(m), FileOf(m));
      && (next.Some? <==> Apart(ms, Parts(m)))
      && (next.Some? ==> Rooted(next.value) && Mirrors(next.value, ms + [m]))
  {
    var path := Parts(m);
    if WriteNew(tree, path, FileOf(m)).Some? {
      WriteNeedsRoom(tree, path, FileOf(m));
      RoomMeansApart(tree, ms, path);
    }
    if Apart(ms, path) {
      ApartGivesRoom(tree, ms, path);
      WriteAdds(tree, path, FileOf(m));
      MirrorsExtends(tree, ms, m, WriteNew(tree, path, FileOf(m)).value);
    }
  }

  lemma RoomMeansApart(tree: Tree, ms: seq<Member>, path: Path)
    requires Mirrors(tree, ms) && path != [] && Room(tree, path)
    ensures Apart(ms, path)
  {
    forall i | 0 <= i < |ms|
      ensures !Above(Parts(ms[i]), path) && !Above(path, Parts(ms[i]))
    {
      RoomGivesApart(tree, ms, path, i);
    }
  }

  lemma WriteNeedsRoom(tree: Tree, path: Path, file: Node)
    requires Rooted(tree) && path != [] && WriteNew(tree, path, file).Some?
    ensures Room(tree, path)
  {
    MakeDirsNeedsDirs(tree, Parent(path));
    assert forall p :: Above(p, path) <==> Above(p, Parent(path)) || p == path;
  }

  lemma {:induction false} MakeDirsNeedsDirs(tree: Tree, path: Path)
    requires Rooted(tree) && MakeDirs(tree, path).Some?
    ensures forall p :: Above(p, path) && p in tree ==> tree[p].Dir?
    ensures forall p :: p in tree ==> p in MakeDirs(tree, path).value
    decreases |path|
  {
    if path in tree {
      DirsAbove(tree, path);
    } else {
      MakeDirsNeedsDirs(tree, Parent(path));
      assert forall p :: Above(p, path) <==> Above(p, Parent(path)) || p == path;
    }
  }

  lemma {:induction false} DirsAbove(tree: Tree, path: Path)
    requires Rooted(tree) && path in tree && tree[path].Dir?
    ensures forall p :: Above(p, path) && p in tree ==> tree[p].Dir?
    decreases |path|
  {
    if path != [] {
      DirsAbove(tree, Parent(path));
      assert forall p :: Above(p, path) <==> Above(p, Parent(path)) || p == path;
    }
  }

  /** Unpacking never meets an existing target or a file in the place of a
      directory exactly if the members are separate; then the tree is exactly
      the members. */
  lemma {:induction false} UnpackIffSeparate(ms: seq<Member>)
    ensures Unpack(ms).Some? <==> Separate(ms)
    ensures Unpack(ms).Some? ==> Rooted(Unpack(ms).value) && Mirrors(Unpack(ms).value, ms)
  {
    if ms == [] {
      assert forall p :: p in BARE <==> Needed(p, ms);
    } else {
      var shorter, m := ms[..|ms| - 1], ms[|ms| - 1];
      assert ms == shorter + [m];
      UnpackIffSeparate(shorter);
      SeparateSplits(shorter, m);
      if Separate(shorter) {
        WriteIffApart(Unpack(shorter).value, shorter, m);
      }
    }
  }

  /** A tree is determined by the members it mirrors, in whatever order. */
  lemma MirrorIsUnique(t: Tree, ms: seq<Member>, u: Tree, ns: seq<Member>)
    requires Mirrors(t, ms) && Mirrors(u, ns)
    requires forall m :: m in ms <==> m in ns
    ensures t == u
  {
    forall p
      ensures p in t <==> p in u
    {
      NeededEither(p, ms, ns);
    }
    forall p | p in t
      ensures t[p] == u[p]
    {
      SameFile(t, ms, u, ns, p);
      SameFile(u, ns, t, ms, p);
    }
  }

  lemma NeededEither(p: Path, ms: seq<Member>, ns: seq<Member>)
    requires forall m :: m in ms <==> m in ns
    ensures Needed(p, ms) <==> Needed(p, ns)
  {
    if p != [] && Needed(p, ms) {
      var i :| 0 <= i < |ms| && Above(p, Parts(ms[i]));
      assert ms[i] in ns;
    }
    if p != [] && Needed(p, ns) {
      var i :| 0 <= i < |ns| && Above(p, Parts(ns[i]));
      assert ns[i] in ms;
    }
  }

  lemma SameFile(t: Tree, ms: seq<Member>, u: Tree, ns: seq<Member>, p: Path)
    requires Mirrors(t, ms) && Mirrors(u, ns) && p in t && p in u
    requires forall m :: m in ms ==> m in ns
    ensures t[p].File? ==> t[p] == u[p]
  {
    if t[p].File? {
      var i :| 0 <= i < |ms| && p == Parts(ms[i]);
      assert ms[i] in ns;
      var j :| 0 <= j < |ns| && ns[j] == ms[i];
    }
  }

  lemma SeparateInAnyOrder(ms: seq<Member>, ns: seq<Member>)
    requires Separate(ms) && multiset(ms) == multiset(ns)
    ensures Separate(ns)
  {
    forall i, j | 0 <= i < |ns| && 0 <= j < |ns| && i != j
      ensures !Above(Parts(ns[i]), Parts(ns[j]))
    {
      var k, l := TwoPlaces(ms, ns, i, j);
    }
  }

  lemma WithoutOne<T>(xs: seq<T>, k: nat)
    requires k < |xs|
    ensures multiset(xs[..k] + xs[k + 1..]) == multiset(xs) - multiset{xs[k]}
  {
    assert xs == xs[..k] + [xs[k]] + xs[k + 1..];
  }

  /** Two places of a sequence have two places in any permutation of it. */
  lemma TwoPlaces<T>(ms: seq<T>, ns: seq<T>, i: nat, j: nat) returns (k: nat, l: nat)
    requires multiset(ms) == multiset(ns) && i < |ns| && j < |ns| && i != j
    ensures k < |ms| && l < |ms| && k != l && ms[k] == ns[i] && ms[l] == ns[j]
  {
    assert ns[i] in multiset(ns);
    k :| 0 <= k < |ms| && ms[k] == ns[i];
    var others, rest := ms[..k] + ms[k + 1..], ns[..i] + ns[i + 1..];
    WithoutOne(ms, k);
    WithoutOne(ns, i);
    assert rest[if j < i then j else j - 1] == ns[j];
    assert ns[j] in multiset(rest) && ns[j] in multiset(others);
    l := PlaceIn(ms, k, ns[j]);
  }

  lemma PlaceIn<T>(ms: seq<T>, k: nat, x: T) returns (l: nat)
    requires k < |ms| && x in ms[..k] + ms[k + 1..]
    ensures l < |ms| && l != k && ms[l] == x
  {
    var others := ms[..k] + ms[k + 1..];
    var o :| 0 <= o < |others| && others[o] == x;
    l := if o < k then o else o + 1;
  }

  /** An accepted archive unpacks in every order, always to the same tree. */
  lemma OrderDoesNotMatter(ms: seq<Member>, ns: seq<Member>)
    requires Acceptable(ms) && multiset(ms) == multiset(ns)
    ensures Unpack(ms).Some? && Unpack(ns) == Unpack(ms)
  {
    SeparateInAnyOrder(ms, ns);
    UnpackIffSeparate(ms);
    UnpackIffSeparate(ns);
    assert forall m :: m in ms <==> m in multiset(ms);
    assert forall m :: m in ns <==> m in multiset(ns);
    MirrorIsUnique(Unpack(ms).value, ms, Unpack(ns).value, ns);
  }

  /** Extraction leaves the whole archive or, after any failure, nothing; it
      fails on its own only for a target that exists or an archive that
      preflight refuses. */
  method Extract(destination: Option<Tree>, ms: seq<Member>) returns (r: Option<Error>, after: Option<Tree>)
    ensures destination.Some? ==> r == Some(TargetExists) && after == destination
    ensures destination.None? && !Acceptable(ms) ==> r.Some? && Explains(r.value, ms) && after == None
    ensures destination.None? && Acceptable(ms) ==> r.None? || (r == Some(InputOutput) && after == None)
    ensures r.None? ==> after.Some? && after == Unpack(ms) && Mirrors(after.value, ms)
  {
    if destination.Some? { return Some(TargetExists), destination; }
    r := Preflight(ms);
    if r.Some? { return r, None; }
    UnpackIffSeparate(ms);
    var tree := BARE;
    for i := 0 to |ms|
      invariant Unpack(ms[..i]) == Some(tree)
    {
      if * { return Some(InputOutput), None; }
      assert ms[..i + 1][..i] == ms[..i];
      UnpackStops(ms, i + 1);
      var next := WriteNew(tree, Parts(ms[i]), FileOf(ms[i]));
      if next.None? { return Some(AlreadyThere), None; }
      tree := next.value;
    }
    assert ms[..|ms|] == ms;
    return None, Some(tree);
  }

  lemma {:induction false} UnpackStops(ms: seq<Member>, k: nat)
    requires k <= |ms| && Unpack(ms).Some?
    ensures Unpack(ms[..k]).Some?
  {
    if k < |ms| {
      var shorter := ms[..|ms| - 1];
      UnpackStops(shorter, k);
      assert shorter[..k] == ms[..k];
    } else {
      assert ms[..k] == ms;
    }
  }
}
