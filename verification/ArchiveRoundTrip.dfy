/** Creating an archive from a directory, and what comes back out of it. */
module ArchiveRoundTrip {
  import opened Options
  import opened ArchiveTree
  import opened Archive

  /** What a directory scan meets; hard links to one file share its inode. */
  datatype Entry =
    | Folder
    | Plain(contents: Bytes, mode: bv32, inode: nat)
    | Link
    | Special

  type Source = map<Path, Entry>

  /** Names as the file system has them, every entry inside a folder. */
  ghost predicate WellFormed(source: Source) {
    forall path <- source ::
      && path != [] && (forall part <- path :: Ordinary(part))
      && (|path| > 1 ==> Parent(path) in source && source[Parent(path)].Folder?)
  }

  /** The order of the scan. */
  ghost predicate Scans(order: seq<Path>, source: Source) {
    && (forall path :: path in order <==> path in source)
    && (forall i, j :: 0 <= i < j < |order| ==> order[i] != order[j])
  }

  /** The regular files, in the order of the scan. */
  function FilesOf(source: Source, order: seq<Path>): seq<Path> {
    if order == [] then []
    else
      var last := order[|order| - 1];
      FilesOf(source, order[..|order| - 1])
      + if last in source && source[last].Plain? then [last] else []
  }

  ghost predicate AllPlain(source: Source, files: seq<Path>) {
    forall f <- files :: f in source && source[f].Plain?
  }

  function Inodes(source: Source, files: seq<Path>): set<nat> {
    set f | f in files && f in source && source[f].Plain? :: source[f].inode
  }

  /** The member for a file: a second name of an inode becomes a link without content. */
  function MemberFor(source: Source, before: seq<Path>, file: Path): Member
    requires file in source && source[file].Plain?
  {
    var entry := source[file];
    if entry.inode in Inodes(source, before) then Member(Join(file), HardLink, entry.mode, 0, [])
    else Member(Join(file), Regular, entry.mode, |entry.contents|, entry.contents)
  }

  function MembersFor(source: Source, files: seq<Path>): seq<Member>
    requires AllPlain(source, files)
  {
    if files == [] then []
    else
      var before, last := files[..|files| - 1], files[|files| - 1];
      MembersFor(source, before) + [MemberFor(source, before, last)]
  }

  lemma MembersExtend(source: Source, files: seq<Path>, file: Path)
    requires AllPlain(source, files) && file in source && source[file].Plain?
    ensures AllPlain(source, files + [file])
    ensures MembersFor(source, files + [file]) == MembersFor(source, files) + [MemberFor(source, files, file)]
    ensures Inodes(source, files + [file]) == Inodes(source, files) + {source[file].inode}
  {
    assert (files + [file])[..|files|] == files;
  }

  predicate Creatable(source: Source, path: Path) {
    path in source && (source[path].Folder? || (source[path].Plain? && SafeName(Join(path))))
  }

  lemma {:induction false} FilesOfArePlain(source: Source, order: seq<Path>)
    ensures AllPlain(source, FilesOf(source, order))
    ensures forall f :: f in FilesOf(source, order) <==> f in order && f in source && source[f].Plain?
  {
    if order != [] {
      FilesOfArePlain(source, order[..|order| - 1]);
    }
  }

  /** What the scan has taken so far. */
  ghost predicate Taken(source: Source, order: seq<Path>, members: seq<Member>, inodes: set<nat>) {
    && (forall path <- order :: Creatable(source, path))
    && AllPlain(source, FilesOf(source, order))
    && members == MembersFor(source, FilesOf(source, order))
    && inodes == Inodes(source, FilesOf(source, order))
  }

  lemma TakesFolder(source: Source, order: seq<Path>, members: seq<Member>, inodes: set<nat>, path: Path)
    requires Taken(source, order, members, inodes) && path in source && source[path].Folder?
    ensures Taken(source, order + [path], members, inodes)
  {
    assert (order + [path])[..|order|] == order;
    assert FilesOf(source, order + [path]) == FilesOf(source, order);
  }

  lemma TakesFile(source: Source, order: seq<Path>, members: seq<Member>, inodes: set<nat>, path: Path)
    requires Taken(source, order, members, inodes) && path in source && source[path].Plain? && SafeName(Join(path))
    ensures Taken(source, order + [path], members + [MemberFor(source, FilesOf(source, order), path)],
                  inodes + {source[path].inode})
  {
    assert (order + [path])[..|order|] == order;
    MembersExtend(source, FilesOf(source, order), path);
  }

  /** One pass over the scan; it stops at the first entry it may not take. */
  method Create(source: Source, order: seq<Path>) returns (r: Option<Error>, members: seq<Member>)
    requires Scans(order, source)
    ensures r.None? <==> forall path <- order :: Creatable(source, path)
    ensures r.None? ==> AllPlain(source, FilesOf(source, order)) && members == MembersFor(source, FilesOf(source, order))
    ensures r.Some? ==> r.value == LinkForbidden || r.value == SpecialFile || r.value == UnsafePath
  {
    members := [];
    var inodes: set<nat> := {};
    for i := 0 to |order|
      invariant Taken(source, order[..i], members, inodes)
    {
      var path := order[i];
      assert path in order && order[..i + 1] == order[..i] + [path];
      var entry := source[path];
      if entry.Link? { return Some(LinkForbidden), []; }
      if entry.Folder? {
        TakesFolder(source, order[..i], members, inodes, path);
        continue;
      }
      if !entry.Plain? { return Some(SpecialFile), []; }
      var name := Join(path);
      if !SafeName(name) { return Some(UnsafePath), []; }
      TakesFile(source, order[..i], members, inodes, path);
      members := members + [if entry.inode in inodes then Member(name, HardLink, entry.mode, 0, [])
                            else Member(name, Regular, entry.mode, |entry.contents|, entry.contents)];
      inodes := inodes + {entry.inode};
    }
    assert order[..|order|] == order;
    return None, members;
  }

  // ------------------------------------------------------------- round trip

  function TotalSize(source: Source, files: seq<Path>): nat
    requires AllPlain(source, files)
  {
    if files == [] then 0
    else TotalSize(source, files[..|files| - 1]) + |source[files[|files| - 1]].contents|
  }

  ghost predicate SinglyLinked(source: Source, files: seq<Path>)
    requires AllPlain(source, files)
  {
    forall i, j :: 0 <= i < j < |files| ==> source[files[i]].inode != source[files[j]].inode
  }

  ghost predicate SafeModes(source: Source, files: seq<Path>)
    requires AllPlain(source, files)
  {
    forall f <- files :: SafeMode(source[f].mode)
  }

  predicate AllRegular(ms: seq<Member>) {
    forall m <- ms :: m.kind == Regular
  }

  /** What a tree must be for its archive to be accepted again. */
  ghost predicate Portable(source: Source, files: seq<Path>)
    requires AllPlain(source, files)
  {
    && files != []
    && SafeModes(source, files)
    && SinglyLinked(source, files)
    && TotalSize(source, files) <= SIZE_LIMIT
  }

  lemma {:induction false} MembersAt(source: Source, files: seq<Path>, i: nat)
    requires AllPlain(source, files) && i < |files|
    ensures |MembersFor(source, files)| == |files|
    ensures MembersFor(source, files)[i] == MemberFor(source, files[..i], files[i])
  {
    var shorter := files[..|files| - 1];
    if i < |files| - 1 {
      MembersAt(source, shorter, i);
      assert shorter[..i] == files[..i];
    } else if i > 0 {
      MembersAt(source, shorter, 0);
    }
  }

  lemma RegularIffFirst(source: Source, files: seq<Path>)
    requires AllPlain(source, files)
    ensures AllRegular(MembersFor(source, files)) <==> SinglyLinked(source, files)
  {
    var ms := MembersFor(source, files);
    forall i | 0 <= i < |files|
      ensures |ms| == |files| && ms[i] == MemberFor(source, files[..i], files[i])
    {
      MembersAt(source, files, i);
    }
    if SinglyLinked(source, files) {
      forall m | m in ms
        ensures m.kind == Regular
      {
        var j :| 0 <= j < |ms| && ms[j] == m;
        FirstOfItsInode(source, files, j);
      }
    } else {
      var i, j :| 0 <= i < j < |files| && source[files[i]].inode == source[files[j]].inode;
      assert files[..j][i] == files[i];
      assert source[files[j]].inode in Inodes(source, files[..j]);
      assert ms[j] in ms;
    }
  }

  lemma FirstOfItsInode(source: Source, files: seq<Path>, j: nat)
    requires AllPlain(source, files) && SinglyLinked(source, files) && j < |files|
    ensures source[files[j]].inode !in Inodes(source, files[..j])
  {
  }

  lemma {:induction false} SizesAgree(source: Source, files: seq<Path>)
    requires AllPlain(source, files) && SinglyLinked(source, files)
    ensures Total(MembersFor(source, files)) == TotalSize(source, files)
  {
    if files != [] {
      var last := |files| - 1;
      SizesAgree(source, files[..last]);
      FirstOfItsInode(source, files, last);
      var before := MembersFor(source, files[..last]);
      assert MembersFor(source, files)[..|before|] == before;
    }
  }

  /** Files of a directory tree are never at or inside one another. */
  lemma {:induction false} FilesDoNotNest(source: Source, f: Path, g: Path)
    requires WellFormed(source) && f in source && source[f].Plain? && g in source && Above(f, g)
    ensures f == g
    decreases |g|
  {
    if f != g {
      assert Above(f, Parent(g)) && |g| > 1;
      FilesDoNotNest(source, f, Parent(g));
      assert false;
    }
  }

  /** Names as they come back. */
  lemma NamesComeBack(source: Source, f: Path)
    requires WellFormed(source) && f in source
    ensures Split(Join(f)) == f
  {
    SplitOfJoin(f);
  }

  lemma MembersAreSeparate(source: Source, files: seq<Path>)
    requires WellFormed(source) && AllPlain(source, files)
    requires Different(files)
    ensures Separate(MembersFor(source, files))
  {
    var ms := MembersFor(source, files);
    forall i, j | 0 <= i < |ms| && 0 <= j < |ms| && i != j
      ensures !Above(Parts(ms[i]), Parts(ms[j]))
    {
      if files != [] { MembersAt(source, files, 0); }
      MembersAt(source, files, i);
      MembersAt(source, files, j);
      NamesComeBack(source, files[i]);
      NamesComeBack(source, files[j]);
      if Above(files[i], files[j]) {
        FilesDoNotNest(source, files[i], files[j]);
      }
    }
  }

  lemma {:induction false} FilesAreDistinct(source: Source, order: seq<Path>)
    requires forall i, j :: 0 <= i < j < |order| ==> order[i] != order[j]
    ensures Different(FilesOf(source, order))
  {
    if order != [] {
      var shorter := order[..|order| - 1];
      FilesAreDistinct(source, shorter);
      FilesOfArePlain(source, shorter);
      assert order[|order| - 1] !in shorter;
    }
  }

  ghost predicate Different(files: seq<Path>) {
    forall i, j :: 0 <= i < j < |files| ==> files[i] != files[j]
  }

  lemma FilesToAccept(source: Source, files: seq<Path>)
    requires WellFormed(source) && AllPlain(source, files) && Different(files)
    requires forall f <- files :: SafeName(Join(f))
    ensures Acceptable(MembersFor(source, files)) <==> Portable(source, files)
  {
    MembersAreSeparate(source, files);
    RegularIffFirst(source, files);
    GoodIffSafe(source, files);
    if SinglyLinked(source, files) {
      SizesAgree(source, files);
    }
    JudgedAlike(source, files, AllGood(MembersFor(source, files)), SafeModes(source, files));
  }

  /** Preflight's verdict and the source's portability rest on the same facts. */
  lemma JudgedAlike(source: Source, files: seq<Path>, good: bool, modes: bool)
    requires AllPlain(source, files)
    requires good == AllGood(MembersFor(source, files)) && modes == SafeModes(source, files)
    requires good <==> SinglyLinked(source, files) && modes
    requires Separate(MembersFor(source, files)) && (MembersFor(source, files) == [] <==> files == [])
    requires SinglyLinked(source, files) ==> Total(MembersFor(source, files)) == TotalSize(source, files)
    ensures Acceptable(MembersFor(source, files)) <==> Portable(source, files)
  {
  }

  /** Preflight accepts a created archive exactly if its source is portable. */
  lemma AcceptedIffPortable(source: Source, order: seq<Path>)
    requires WellFormed(source) && Scans(order, source) && forall path <- order :: Creatable(source, path)
    ensures AllPlain(source, FilesOf(source, order))
    ensures var files := FilesOf(source, order);
      Acceptable(MembersFor(source, files)) <==> Portable(source, files)
  {
    FilesOfArePlain(source, order);
    FilesAreDistinct(source, order);
    FilesToAccept(source, FilesOf(source, order));
  }

  lemma GoodIffSafe(source: Source, files: seq<Path>)
    requires AllPlain(source, files) && forall f <- files :: SafeName(Join(f))
    ensures var ms := MembersFor(source, files);
      && (ms == [] <==> files == [])
      && (AllGood(ms) <==> AllRegular(ms) && SafeModes(source, files))
  {
    var ms := MembersFor(source, files);
    if files != [] { MembersAt(source, files, 0); }
    if AllGood(ms) {
      forall f | f in files
        ensures SafeMode(source[f].mode)
      {
        var i :| 0 <= i < |files| && files[i] == f;
        GoodAt(source, files, i);
      }
    }
    if AllRegular(ms) && SafeModes(source, files) {
      forall m | m in ms
        ensures Good(m)
      {
        var i :| 0 <= i < |ms| && ms[i] == m;
        GoodAt(source, files, i);
      }
    }
  }

  lemma GoodAt(source: Source, files: seq<Path>, i: nat)
    requires AllPlain(source, files) && (forall f <- files :: SafeName(Join(f))) && i < |files|
    ensures var ms := MembersFor(source, files);
      && |ms| == |files| && ms[i] in ms && files[i] in files
      && (Good(ms[i]) <==> ms[i].kind == Regular && SafeMode(source[files[i]].mode))
  {
    MembersAt(source, files, i);
  }

  lemma PlacesAndContents(source: Source, files: seq<Path>, i: nat)
    requires WellFormed(source) && AllPlain(source, files) && SinglyLinked(source, files) && i < |files|
    ensures var ms := MembersFor(source, files);
      && |ms| == |files| && Parts(ms[i]) == files[i]
      && FileOf(ms[i]) == File(source[files[i]].contents, source[files[i]].mode)
  {
    MembersAt(source, files, i);
    NamesComeBack(source, files[i]);
    FirstOfItsInode(source, files, i);
  }

  lemma FileComesBack(source: Source, files: seq<Path>, back: Tree, f: Path)
    requires WellFormed(source) && AllPlain(source, files) && SinglyLinked(source, files)
    requires Mirrors(back, MembersFor(source, files)) && f in files
    ensures f in back && back[f] == File(source[f].contents, source[f].mode)
  {
    var i :| 0 <= i < |files| && files[i] == f;
    PlacesAndContents(source, files, i);
  }

  lemma NothingElseComesBack(source: Source, files: seq<Path>, back: Tree, f: Path)
    requires WellFormed(source) && AllPlain(source, files) && SinglyLinked(source, files)
    requires Mirrors(back, MembersFor(source, files)) && f in back && back[f].File?
    ensures f in files
  {
    var ms := MembersFor(source, files);
    var i :| 0 <= i < |ms| && f == Parts(ms[i]);
    if files != [] { MembersAt(source, files, 0); }
    PlacesAndContents(source, files, i);
  }

  /** Round trip: unpacking the archive of a portable tree gives back the same
      files, with the same contents and modes, and no others. */
  lemma RoundTrip(source: Source, order: seq<Path>)
    requires WellFormed(source) && Scans(order, source) && forall path <- order :: Creatable(source, path)
    requires AllPlain(source, FilesOf(source, order)) && Portable(source, FilesOf(source, order))
    ensures var back := Unpack(MembersFor(source, FilesOf(source, order)));
      && back.Some?
      && (forall p :: p in back.value && back.value[p].File? <==> p in source && source[p].Plain?)
      && (forall p :: p in source && source[p].Plain? && p in back.value ==>
            back.value[p] == File(source[p].contents, source[p].mode))
  {
    var files := FilesOf(source, order);
    FilesOfArePlain(source, order);
    FilesAreDistinct(source, order);
    MembersAreSeparate(source, files);
    UnpackIffSeparate(MembersFor(source, files));
    var back := Unpack(MembersFor(source, files)).value;
    forall p | p in source && source[p].Plain?
      ensures p in back && back[p] == File(source[p].contents, source[p].mode)
    {
      FileComesBack(source, files, back, p);
    }
    forall p | p in back && back[p].File?
      ensures p in source && source[p].Plain?
    {
      NothingElseComesBack(source, files, back, p);
    }
  }
}
