/** Rebuilding an uploaded tree: breadth first over single directory blobs, or depth first
    over one flattened tree. */
module Download {
  import opened Names
  import opened Messages
  import opened Merkle
  import opened FlatTree
  import opened Client
  import opened FileSystem
  import opened PathText
  import opened Disk
  import opened Layout

  /** A file still to be written. */
  datatype Target = Target(path: Route, digest: Digest, exec: bool)

  /** A directory still to be fetched. */
  datatype Fetch = Fetch(digest: Digest, target: Route)

  /** The entry that is made for a node of the tree. */
  ghost function Rendered(blobs: map<string, Bytes>, s: Skel): Entry {
    match s
    case SFile(d, exec) =>
      EFile(if d.Some? && d.value.hash in blobs then blobs[d.value.hash] else [], if exec then 0x1ED else 0x1A4)
    case SLink(target) => ELink(target)
    case SMount(_) => EDir
    case SDir(_) => EDir
  }

  // ---------------------------------------------------------------- the file system so far

  /** What is at `q` once the paths in `shown` of the tree have been made under `out`. */
  ghost function Seen(before: map<Path, Entry>, out: Path, blobs: map<string, Bytes>, t: Skel,
      shown: set<Path>, q: Path): Option<Entry>
  {
    if out <= q && q[|out|..] in shown && Sub(t, q[|out|..]).Some?
    then Some(Rendered(blobs, Sub(t, q[|out|..]).value))
    else if q <= out && [] in shown then Some(EDir)
    else Get(before, q)
  }

  ghost predicate Shows(before: map<Path, Entry>, after: map<Path, Entry>, out: Path,
      blobs: map<string, Bytes>, t: Skel, shown: set<Path>)
  {
    forall q :: Get(after, q) == Seen(before, out, blobs, t, shown, q)
  }

  /** What is shown is in the tree, below directories that are shown. */
  ghost predicate Closed(t: Skel, shown: set<Path>) {
    forall r :: r in shown ==> Sub(t, r).Some? && (r != [] ==> Parent(r) in shown && IsDir(t, Parent(r)))
  }

  lemma RelativeTo(out: Path, r: Path)
    ensures out <= out + r && (out + r)[|out|..] == r
    ensures r != [] ==> Parent(out + r) == out + Parent(r)
  {
  }

  lemma {:induction false} ClosedPrefixes(t: Skel, shown: set<Path>, p: Path, q: Path)
    requires Closed(t, shown) && q <= p && q != p
    requires p in shown || (p != [] && Parent(p) in shown && IsDir(t, Parent(p)))
    ensures q in shown && IsDir(t, q)
    decreases |p|
  {
    PrefixIsSlice(q, p);
    PrefixIsSlice(q, Parent(p));
    if q != Parent(p) { ClosedPrefixes(t, shown, Parent(p), q); }
  }

  /** A directory may be made next when its parent is shown, and at the start the root. */
  ghost predicate NextDir(t: Skel, shown: set<Path>, p: Path) {
    IsDir(t, p) && (p == [] || (Parent(p) in shown && IsDir(t, Parent(p))))
  }

  lemma PrefixOfExtension(out: Path, p: Path, q: Path)
    requires q <= out + p
    ensures q <= out || (out <= q && q[|out|..] <= p && q == out + q[|out|..])
  {
    PrefixIsSlice(q, out + p);
    if |q| > |out| {
      assert q[..|out|] == out;
      assert q[|out|..] == p[..|q| - |out|];
    }
  }

  lemma MayMakeDir(before: map<Path, Entry>, after: map<Path, Entry>, out: Path,
      blobs: map<string, Bytes>, t: Skel, shown: set<Path>, p: Path, q: Path)
    requires Fresh(before, out) && Shows(before, after, out, blobs, t, shown) && Closed(t, shown)
    requires NextDir(t, shown, p) && q <= out + p && q in after
    ensures after[q] == EDir
  {
    assert Get(after, q) == Seen(before, out, blobs, t, shown, q);
    PrefixOfExtension(out, p, q);
    if q <= out {
      if out <= q { assert q == out && q[|out|..] == []; }
    } else if q[|out|..] != p {
      ClosedPrefixes(t, shown, p, q[|out|..]);
    }
  }

  lemma MadeDirShows(before: map<Path, Entry>, after: map<Path, Entry>, after': map<Path, Entry>, out: Path,
      blobs: map<string, Bytes>, t: Skel, shown: set<Path>, p: Path)
    requires Shows(before, after, out, blobs, t, shown) && Closed(t, shown) && NextDir(t, shown, p)
    requires forall q :: Get(after', q) == if q <= out + p then Some(EDir) else Get(after, q)
    ensures Shows(before, after', out, blobs, t, shown + {p}) && Closed(t, shown + {p})
  {
    forall q ensures Get(after', q) == Seen(before, out, blobs, t, shown + {p}, q) {
      assert Get(after, q) == Seen(before, out, blobs, t, shown, q);
      RelativeTo(out, p);
      if p != [] { ClosedPrefixes(t, shown, p, []); }
      if q <= out + p {
        PrefixOfExtension(out, p, q);
        if !(q <= out) && q[|out|..] != p {
          ClosedPrefixes(t, shown, p, q[|out|..]);
        }
      } else if out <= q {
        SuffixOf(out, q);
      }
    }
  }

  /** A leaf may be made next when its directory is shown. */
  ghost predicate NextLeaf(t: Skel, shown: set<Path>, r: Path) {
    Sub(t, r).Some? && r != [] && r !in shown && Parent(r) in shown && IsDir(t, Parent(r))
  }

  lemma MayMakeLeaf(before: map<Path, Entry>, after: map<Path, Entry>, out: Path,
      blobs: map<string, Bytes>, t: Skel, shown: set<Path>, r: Path)
    requires Fresh(before, out) && Shows(before, after, out, blobs, t, shown) && Closed(t, shown)
    requires NextLeaf(t, shown, r)
    ensures out + r !in after && out + r != [] && Get(after, Parent(out + r)) == Some(EDir)
  {
    RelativeTo(out, r);
    RelativeTo(out, Parent(r));
    assert Get(after, out + r) == Seen(before, out, blobs, t, shown, out + r);
    assert Get(after, out + Parent(r)) == Seen(before, out, blobs, t, shown, out + Parent(r));
  }

  lemma MadeLeafShows(before: map<Path, Entry>, after: map<Path, Entry>, out: Path,
      blobs: map<string, Bytes>, t: Skel, shown: set<Path>, r: Path)
    requires Shows(before, after, out, blobs, t, shown) && Closed(t, shown) && NextLeaf(t, shown, r)
    ensures Shows(before, after[out + r := Rendered(blobs, Sub(t, r).value)], out, blobs, t, shown + {r})
    ensures Closed(t, shown + {r})
  {
    var after' := after[out + r := Rendered(blobs, Sub(t, r).value)];
    forall q ensures Get(after', q) == Seen(before, out, blobs, t, shown + {r}, q) {
      assert Get(after, q) == Seen(before, out, blobs, t, shown, q);
      RelativeTo(out, r);
      if out <= q && q[|out|..] == r { assert q == out + r; }
    }
  }

  lemma NothingShown(before: map<Path, Entry>, out: Path, blobs: map<string, Bytes>, t: Skel)
    ensures Shows(before, before, out, blobs, t, {}) && Closed(t, {})
  {
  }

  /** Names in the tree are proper, and links lead somewhere. */
  ghost predicate Tidy(t: Skel) { forall p :: p in Paths(t) ==> TidyAt(t, p) }

  ghost predicate TidyAt(t: Skel, p: Path) {
    && (p != [] ==> Proper(Last(p)))
    && (Sub(t, p).Some? && Sub(t, p).value.SLink? ==> Sub(t, p).value.target != "")
  }

  lemma {:induction false} TidyPath(t: Skel, p: Path)
    requires Tidy(t) && Sub(t, p).Some?
    ensures Plain(p)
    ensures Sub(t, p).value.SLink? ==> Sub(t, p).value.target != ""
    decreases |p|
  {
    hide Proper, Sub, Paths;
    PathsAreInhabited(t, p);
    assert TidyAt(t, p);
    if p != [] {
      HasDirectory(t, p);
      TidyPath(t, Parent(p));
      assert p == Parent(p) + [Last(p)];
    }
  }

  lemma TidyName(t: Skel, p: Path, name: string)
    requires Tidy(t) && Sub(t, Child(p, name)).Some?
    ensures Proper(name) && Plain(p)
  {
    TidyPath(t, Child(p, name));
    assert name in Child(p, name);
    forall s | s in p ensures s in Child(p, name) {}
  }

  // ---------------------------------------------------------------- what is left to do

  ghost predicate IsDirectory(t: Skel, p: Path) { Sub(t, p).Some? && Sub(t, p).value.Directory?() }

  ghost predicate IsFile(t: Skel, p: Path) { Sub(t, p).Some? && Sub(t, p).value.SFile? }

  ghost predicate IsLink(t: Skel, p: Path) { Sub(t, p).Some? && Sub(t, p).value.SLink? }

  /** Directories and mounts met but not yet processed. */
  ghost function Pending(t: Skel, done: set<Path>): set<Path> {
    set p | p in Paths(t) && IsDirectory(t, p) && p !in done && (p == [] || Parent(p) in done)
  }

  ghost function FilesMet(t: Skel, done: set<Path>): set<Path> {
    set p | p in Paths(t) && IsFile(t, p) && p != [] && Parent(p) in done
  }

  ghost function LinksMet(t: Skel, done: set<Path>): set<Path> {
    set p | p in Paths(t) && IsLink(t, p) && p != [] && Parent(p) in done
  }

  /** Processed directories form a tree of their own. */
  ghost predicate Processed(t: Skel, done: set<Path>) {
    forall p :: p in done ==> IsDir(t, p) && (p != [] ==> Parent(p) in done)
  }

  ghost function KidPaths(p: Path, names: set<string>): (r: set<Path>)
    ensures forall q :: q in r <==> q != [] && Parent(q) == p && Last(q) in names
  {
    var r := set n | n in names :: Child(p, n);
    forall q ensures q in r <==> q != [] && Parent(q) == p && Last(q) in names {
      if q in r {
        var n :| n in names && q == Child(p, n);
        ChildParts(p, n);
      }
      if q != [] && Parent(q) == p && Last(q) in names { ChildOfParent(q); }
    }
    r
  }

  lemma KidAt(t: Skel, p: Path, q: Path)
    requires IsDir(t, p) && q != [] && Parent(q) == p
    ensures Sub(t, q) ==
      if Last(q) in Sub(t, p).value.kids then Some(Sub(t, p).value.kids[Last(q)]) else None
    ensures q in Paths(t) <==> Sub(t, q).Some?
  {
    SubStep(t, p, Last(q));
    ChildOfParent(q);
    PathsAreInhabited(t, q);
  }

  /** An entry of a directory, by kind. */
  lemma KidKinds(c: Codec, t: Skel, p: Path, q: Path)
    requires IsDir(t, p) && q != [] && Parent(q) == p
    ensures q in Paths(t) && IsDirectory(t, q) <==> Last(q) in DirMap(c, Sub(t, p).value)
    ensures q in Paths(t) && IsFile(t, q) <==> Last(q) in FileMap(Sub(t, p).value)
    ensures q in Paths(t) && IsLink(t, q) <==> Last(q) in LinkMap(Sub(t, p).value)
  {
    hide DirMap, FileMap, LinkMap, Paths;
    KidAt(t, p, q);
  }

  /** Processing a directory adds its entries to what has been met. */
  lemma ProcessedMore(c: Codec, t: Skel, done: set<Path>, p: Path)
    requires Processed(t, done) && p in Pending(t, done) && IsDir(t, p)
    ensures Processed(t, done + {p})
    ensures Pending(t, done + {p}) == Pending(t, done) - {p} + KidPaths(p, DirMap(c, Sub(t, p).value).Keys)
    ensures FilesMet(t, done + {p}) == FilesMet(t, done) + KidPaths(p, FileMap(Sub(t, p).value).Keys)
    ensures LinksMet(t, done + {p}) == LinksMet(t, done) + KidPaths(p, LinkMap(Sub(t, p).value).Keys)
    ensures Pending(t, done) !! KidPaths(p, DirMap(c, Sub(t, p).value).Keys)
    ensures FilesMet(t, done) !! KidPaths(p, FileMap(Sub(t, p).value).Keys)
    ensures LinksMet(t, done) !! KidPaths(p, LinkMap(Sub(t, p).value).Keys)
  {
    hide DirMap, FileMap, LinkMap, Paths, FilesMet, LinksMet, KidPaths;
    assert p !in done;
    FilesMetMore(c, t, done, p);
    LinksMetMore(c, t, done, p);
    PendingMore(c, t, done, p);
    hide Pending, Sub;
  }

  lemma PendingMore(c: Codec, t: Skel, done: set<Path>, p: Path)
    requires Processed(t, done) && p in Pending(t, done) && IsDir(t, p)
    ensures Pending(t, done + {p}) == Pending(t, done) - {p} + KidPaths(p, DirMap(c, Sub(t, p).value).Keys)
    ensures Pending(t, done) !! KidPaths(p, DirMap(c, Sub(t, p).value).Keys)
  {
    hide DirMap, Paths, Sub;
    forall q | q != [] && Parent(q) == p
      ensures q !in done
      ensures q in Paths(t) && IsDirectory(t, q) <==> Last(q) in DirMap(c, Sub(t, p).value)
    {
      KidKinds(c, t, p, q);
    }
  }

  lemma FilesMetMore(c: Codec, t: Skel, done: set<Path>, p: Path)
    requires p !in done && IsDir(t, p)
    ensures FilesMet(t, done + {p}) == FilesMet(t, done) + KidPaths(p, FileMap(Sub(t, p).value).Keys)
    ensures FilesMet(t, done) !! KidPaths(p, FileMap(Sub(t, p).value).Keys)
  {
    hide DirMap, FileMap, LinkMap, Paths;
    forall q | q != [] && Parent(q) == p
      ensures q in Paths(t) && IsFile(t, q) <==> Last(q) in FileMap(Sub(t, p).value)
    {
      KidKinds(c, t, p, q);
    }
  }

  lemma LinksMetMore(c: Codec, t: Skel, done: set<Path>, p: Path)
    requires p !in done && IsDir(t, p)
    ensures LinksMet(t, done + {p}) == LinksMet(t, done) + KidPaths(p, LinkMap(Sub(t, p).value).Keys)
    ensures LinksMet(t, done) !! KidPaths(p, LinkMap(Sub(t, p).value).Keys)
  {
    hide DirMap, FileMap, LinkMap, Paths;
    forall q | q != [] && Parent(q) == p
      ensures q in Paths(t) && IsLink(t, q) <==> Last(q) in LinkMap(Sub(t, p).value)
    {
      KidKinds(c, t, p, q);
    }
  }

  // ---------------------------------------------------------------- one directory

  ghost function KidSeq(p: Path, names: seq<string>): (r: seq<Path>)
    ensures |r| == |names| && forall i :: 0 <= i < |r| ==> r[i] == Child(p, names[i])
  {
    seq(|names|, i requires 0 <= i < |names| => Child(p, names[i]))
  }

  lemma KidSeqEnumerates(p: Path, names: set<string>)
    ensures Enumerates(KidSeq(p, InOrder(names)), KidPaths(p, names))
  {
    var ns, ps := InOrder(names), KidSeq(p, InOrder(names));
    forall i, j | 0 <= i < j < |ps| ensures ps[i] != ps[j] {
      LtIrreflexive(ns[i]);
      OtherChild(p, ns[i], ns[j]);
    }
    forall q ensures q in ps <==> q in KidPaths(p, names) {
      if q in ps {
        var i :| 0 <= i < |ps| && ps[i] == q;
        ChildParts(p, ns[i]);
      }
      if q in KidPaths(p, names) {
        assert Last(q) in ns;
        var i :| 0 <= i < |ns| && ns[i] == Last(q);
        ChildOfParent(q);
        assert ps[i] == q;
      }
    }
  }

  ghost predicate FetchesFor(c: Codec, t: Skel, out: Path, fetches: seq<Fetch>, ps: seq<Path>) {
    |fetches| == |ps| && forall i :: 0 <= i < |ps| ==> FetchFor(c, t, out, fetches[i], ps[i])
  }

  ghost predicate FetchFor(c: Codec, t: Skel, out: Path, fetch: Fetch, p: Path) {
    IsDirectory(t, p) && Dig(c, Sub(t, p).value) == Some(fetch.digest) && fetch.target == out + p
  }

  ghost predicate TargetsFor(t: Skel, out: Path, targets: seq<Target>, ps: seq<Path>) {
    |targets| == |ps| && forall i :: 0 <= i < |ps| ==> TargetFor(t, out, targets[i], ps[i])
  }

  ghost predicate TargetFor(t: Skel, out: Path, target: Target, p: Path) {
    IsFile(t, p) && Sub(t, p).value == SFile(Some(target.digest), target.exec) && target.path == out + p
  }

  /** Every sub-directory at these paths has a digest. */
  ghost predicate DirsDigested(c: Codec, t: Skel, ps: set<Path>) {
    forall q :: q in ps && IsDirectory(t, q) ==> Dig(c, Sub(t, q).value).Some?
  }

  ghost predicate FilesDigested(t: Skel, ps: set<Path>) {
    forall q :: q in ps && IsFile(t, q) ==> Sub(t, q).value.digest.Some?
  }

  ghost function KidDirs(c: Codec, t: Skel, p: Path): seq<Path>
    requires IsDir(t, p)
  {
    KidSeq(p, InOrder(DirMap(c, Sub(t, p).value).Keys))
  }

  ghost function KidFiles(t: Skel, p: Path): seq<Path>
    requires IsDir(t, p)
  {
    KidSeq(p, InOrder(FileMap(Sub(t, p).value).Keys))
  }

  lemma DirNodeAt(c: Codec, t: Skel, p: Path, i: nat)
    requires IsDir(t, p)
    requires i < |Msg(c, Sub(t, p).value).directories|
    ensures |Msg(c, Sub(t, p).value).directories| == |InOrder(DirMap(c, Sub(t, p).value).Keys)|
    ensures var n := InOrder(DirMap(c, Sub(t, p).value).Keys)[i];
      && IsDirectory(t, Child(p, n))
      && Msg(c, Sub(t, p).value).directories[i] == DirectoryNode(n, Dig(c, Sub(t, Child(p, n)).value))
  {
    var n := InOrder(DirMap(c, Sub(t, p).value).Keys)[i];
    assert n in DirMap(c, Sub(t, p).value);
    hide DirMap, Dig;
    ChildParts(p, n);
    KidAt(t, p, Child(p, n));
  }

  lemma KidFetch(c: Codec, t: Skel, out: Path, p: Path, i: nat)
    requires IsDir(t, p) && i < |Msg(c, Sub(t, p).value).directories|
    ensures i < |KidDirs(c, t, p)|
    ensures var node := Msg(c, Sub(t, p).value).directories[i];
      && (node.digest.None? ==> !DirsDigested(c, t, KidPaths(p, DirMap(c, Sub(t, p).value).Keys)))
      && (node.digest.Some? ==>
           FetchFor(c, t, out, Fetch(node.digest.value, out + p + [node.name]), KidDirs(c, t, p)[i]))
  {
    hide Msg, DirMap, Dig, InOrder, KidPaths, Sub;
    var ps, node := KidDirs(c, t, p), Msg(c, Sub(t, p).value).directories[i];
    DirNodeAt(c, t, p, i);
    assert out + ps[i] == out + p + [node.name];
    if node.digest.None? {
      KidSeqEnumerates(p, DirMap(c, Sub(t, p).value).Keys);
      assert ps[i] in ps;
    }
  }

  /** Every sub-directory node of the message has a digest. */
  predicate DirsNamed(dir: Directory) {
    forall i :: 0 <= i < |dir.directories| ==> dir.directories[i].digest.Some?
  }

  /** The sub-directories that a message lists, in its order. */
  ghost predicate FetchesOf(dir: Directory, target: Route, fetches: seq<Fetch>) {
    |fetches| == |dir.directories| && forall i :: 0 <= i < |fetches| ==>
      && dir.directories[i].digest == Some(fetches[i].digest)
      && fetches[i].target == JoinedTo(target, dir.directories[i].name)
  }

  /** The sub-directories to fetch next. */
  method ChildrenOf(dir: Directory, target: Route) returns (r: Result<seq<Fetch>, Error>)
    ensures r.Ok? <==> DirsNamed(dir)
    ensures r.Ok? ==> FetchesOf(dir, target, r.value)
  {
    var fetches: seq<Fetch> := [];
    for i := 0 to |dir.directories|
      invariant |fetches| == i && forall j :: 0 <= j < i ==>
        && dir.directories[j].digest == Some(fetches[j].digest)
        && fetches[j].target == JoinedTo(target, dir.directories[j].name)
    {
      var node := dir.directories[i];
      if node.digest.None? { return Err(MalformedTree); }
      fetches := fetches + [Fetch(node.digest.value, JoinedTo(target, node.name))];
    }
    r := Ok(fetches);
  }

  /** In the canonical message of a directory they are its sub-directories, in name order. */
  lemma CanonicalFetches(c: Codec, t: Skel, out: Path, p: Path, fetches: seq<Fetch>)
    requires IsDir(t, p) && FetchesOf(Msg(c, Sub(t, p).value), out + p, fetches) && Tidy(t)
    ensures FetchesFor(c, t, out, fetches, KidDirs(c, t, p))
  {
    hide Msg, Sub, KidDirs, FetchFor, JoinedTo, Tidy;
    KidCounts(c, t, p);
    forall i | 0 <= i < |fetches| ensures FetchFor(c, t, out, fetches[i], KidDirs(c, t, p)[i]) {
      KidFetch(c, t, out, p, i);
      KidDirName(c, t, p, i);
      JoinedName(out + p, Msg(c, Sub(t, p).value).directories[i].name);
    }
  }

  lemma JoinedName(target: Route, name: string)
    requires Proper(name)
    ensures JoinedTo(target, name) == target + [name]
  {
    RouteOfName(name);
  }

  lemma KidDirName(c: Codec, t: Skel, p: Path, i: nat)
    requires IsDir(t, p) && Tidy(t) && i < |Msg(c, Sub(t, p).value).directories|
    ensures Proper(Msg(c, Sub(t, p).value).directories[i].name)
  {
    hide Msg, DirMap, InOrder, Tidy, Proper;
    DirNodeAt(c, t, p, i);
    TidyName(t, p, InOrder(DirMap(c, Sub(t, p).value).Keys)[i]);
  }

  lemma KidFileName(c: Codec, t: Skel, p: Path, i: nat)
    requires IsDir(t, p) && Tidy(t) && i < |Msg(c, Sub(t, p).value).files|
    ensures Proper(Msg(c, Sub(t, p).value).files[i].name)
  {
    hide Msg, FileMap, InOrder, Tidy, Proper;
    FileNodeAt(c, t, p, i);
    TidyName(t, p, InOrder(FileMap(Sub(t, p).value).Keys)[i]);
  }

  lemma CanonicalDirsNamed(c: Codec, t: Skel, p: Path)
    requires IsDir(t, p)
    ensures DirsNamed(Msg(c, Sub(t, p).value)) <==> DirsDigested(c, t, KidPaths(p, DirMap(c, Sub(t, p).value).Keys))
  {
    hide Msg, Sub, KidDirs, FetchFor, DirsDigested, KidPaths, DirMap;
    KidCounts(c, t, p);
    var nodes := Msg(c, Sub(t, p).value).directories;
    if DirsNamed(Msg(c, Sub(t, p).value)) {
      var fetches := seq(|nodes|,
                         i requires 0 <= i < |nodes| => Fetch(nodes[i].digest.value, [] + p + [nodes[i].name]));
      forall i | 0 <= i < |fetches| ensures FetchFor(c, t, [], fetches[i], KidDirs(c, t, p)[i]) {
        KidFetch(c, t, [], p, i);
      }
      AllDirsDigested(c, t, p, [], fetches);
    } else {
      var i :| 0 <= i < |nodes| && nodes[i].digest.None?;
      KidFetch(c, t, [], p, i);
    }
  }

  lemma KidCounts(c: Codec, t: Skel, p: Path)
    requires IsDir(t, p)
    ensures |Msg(c, Sub(t, p).value).directories| == |KidDirs(c, t, p)|
    ensures |Msg(c, Sub(t, p).value).files| == |KidFiles(t, p)|
  {
    hide DirMap, FileMap, InOrder;
    MsgLengths(c, Sub(t, p).value);
  }

  lemma MsgLengths(c: Codec, s: Skel)
    requires s.SDir?
    ensures |Msg(c, s).directories| == |InOrder(DirMap(c, s).Keys)|
    ensures |Msg(c, s).files| == |InOrder(FileMap(s).Keys)|
    ensures |Msg(c, s).symlinks| == |InOrder(LinkMap(s).Keys)|
  {
  }

  lemma AllDirsDigested(c: Codec, t: Skel, p: Path, out: Path, fetches: seq<Fetch>)
    requires IsDir(t, p) && FetchesFor(c, t, out, fetches, KidDirs(c, t, p))
    ensures DirsDigested(c, t, KidPaths(p, DirMap(c, Sub(t, p).value).Keys))
  {
    hide DirMap, Dig, InOrder, KidPaths, Sub;
    KidSeqEnumerates(p, DirMap(c, Sub(t, p).value).Keys);
    var ps := KidDirs(c, t, p);
    forall q | q in KidPaths(p, DirMap(c, Sub(t, p).value).Keys) && IsDirectory(t, q)
      ensures Dig(c, Sub(t, q).value).Some?
    {
      assert q in ps;
      var j :| 0 <= j < |ps| && ps[j] == q;
      assert FetchFor(c, t, out, fetches[j], ps[j]);
    }
  }

  lemma FileNodeAt(c: Codec, t: Skel, p: Path, i: nat)
    requires IsDir(t, p)
    requires i < |Msg(c, Sub(t, p).value).files|
    ensures |Msg(c, Sub(t, p).value).files| == |InOrder(FileMap(Sub(t, p).value).Keys)|
    ensures var n := InOrder(FileMap(Sub(t, p).value).Keys)[i];
      && IsFile(t, Child(p, n))
      && Msg(c, Sub(t, p).value).files[i] ==
           FileNode(n, Sub(t, Child(p, n)).value.digest, Sub(t, Child(p, n)).value.exec)
  {
    var n := InOrder(FileMap(Sub(t, p).value).Keys)[i];
    assert n in FileMap(Sub(t, p).value);
    hide FileMap;
    ChildParts(p, n);
    KidAt(t, p, Child(p, n));
  }

  lemma KidTarget(c: Codec, t: Skel, out: Path, p: Path, i: nat)
    requires IsDir(t, p) && i < |Msg(c, Sub(t, p).value).files|
    ensures i < |KidFiles(t, p)|
    ensures var node := Msg(c, Sub(t, p).value).files[i];
      && (node.digest.None? ==> !FilesDigested(t, KidPaths(p, FileMap(Sub(t, p).value).Keys)))
      && (node.digest.Some? ==>
           TargetFor(t, out, Target(out + p + [node.name], node.digest.value, node.exec), KidFiles(t, p)[i]))
  {
    hide Msg, FileMap, InOrder, KidPaths, Sub;
    var ps, node := KidFiles(t, p), Msg(c, Sub(t, p).value).files[i];
    FileNodeAt(c, t, p, i);
    assert out + ps[i] == out + p + [node.name];
    if node.digest.None? {
      KidSeqEnumerates(p, FileMap(Sub(t, p).value).Keys);
      assert ps[i] in ps;
    }
  }

  predicate FilesNamed(dir: Directory) {
    forall i :: 0 <= i < |dir.files| ==> dir.files[i].digest.Some?
  }

  /** The files that a message lists, in its order. */
  ghost predicate TargetsOf(dir: Directory, target: Route, targets: seq<Target>) {
    |targets| == |dir.files| && forall i :: 0 <= i < |targets| ==>
      && dir.files[i].digest == Some(targets[i].digest)
      && targets[i].exec == dir.files[i].exec
      && targets[i].path == JoinedTo(target, dir.files[i].name)
  }

  /** The files to write later. */
  method FilesOf(dir: Directory, target: Route) returns (r: Result<seq<Target>, Error>)
    ensures r.Ok? <==> FilesNamed(dir)
    ensures r.Ok? ==> TargetsOf(dir, target, r.value)
  {
    var targets: seq<Target> := [];
    for i := 0 to |dir.files|
      invariant |targets| == i && forall j :: 0 <= j < i ==>
        && dir.files[j].digest == Some(targets[j].digest)
        && targets[j].exec == dir.files[j].exec
        && targets[j].path == JoinedTo(target, dir.files[j].name)
    {
      var node := dir.files[i];
      if node.digest.None? { return Err(MalformedTree); }
      targets := targets + [Target(JoinedTo(target, node.name), node.digest.value, node.exec)];
    }
    r := Ok(targets);
  }

  lemma CanonicalTargets(c: Codec, t: Skel, out: Path, p: Path, targets: seq<Target>)
    requires IsDir(t, p) && TargetsOf(Msg(c, Sub(t, p).value), out + p, targets) && Tidy(t)
    ensures TargetsFor(t, out, targets, KidFiles(t, p))
  {
    hide Msg, Sub, KidFiles, TargetFor, JoinedTo, Tidy;
    KidCounts(c, t, p);
    forall i | 0 <= i < |targets| ensures TargetFor(t, out, targets[i], KidFiles(t, p)[i]) {
      KidTarget(c, t, out, p, i);
      KidFileName(c, t, p, i);
      JoinedName(out + p, Msg(c, Sub(t, p).value).files[i].name);
    }
  }

  lemma CanonicalFilesNamed(c: Codec, t: Skel, p: Path)
    requires IsDir(t, p)
    ensures FilesNamed(Msg(c, Sub(t, p).value)) <==> FilesDigested(t, KidPaths(p, FileMap(Sub(t, p).value).Keys))
  {
    hide Msg, Sub, KidFiles, TargetFor, FilesDigested, KidPaths, FileMap;
    KidCounts(c, t, p);
    var nodes := Msg(c, Sub(t, p).value).files;
    if FilesNamed(Msg(c, Sub(t, p).value)) {
      var targets := seq(|nodes|, i requires 0 <= i < |nodes| =>
        Target([] + p + [nodes[i].name], nodes[i].digest.value, nodes[i].exec));
      forall i | 0 <= i < |targets| ensures TargetFor(t, [], targets[i], KidFiles(t, p)[i]) {
        KidTarget(c, t, [], p, i);
      }
      AllFilesDigested(t, p, [], targets);
    } else {
      var i :| 0 <= i < |nodes| && nodes[i].digest.None?;
      KidTarget(c, t, [], p, i);
    }
  }

  lemma AllFilesDigested(t: Skel, p: Path, out: Path, targets: seq<Target>)
    requires IsDir(t, p) && TargetsFor(t, out, targets, KidFiles(t, p))
    ensures FilesDigested(t, KidPaths(p, FileMap(Sub(t, p).value).Keys))
  {
    hide FileMap, InOrder, KidPaths, Sub;
    KidSeqEnumerates(p, FileMap(Sub(t, p).value).Keys);
    var ps := KidFiles(t, p);
    forall q | q in KidPaths(p, FileMap(Sub(t, p).value).Keys) && IsFile(t, q)
      ensures Sub(t, q).value.digest.Some?
    {
      assert q in ps;
      var j :| 0 <= j < |ps| && ps[j] == q;
      assert TargetFor(t, out, targets[j], ps[j]);
    }
  }

  lemma LinkNodeAt(c: Codec, t: Skel, p: Path, i: nat)
    requires IsDir(t, p)
    requires i < |Msg(c, Sub(t, p).value).symlinks|
    ensures |Msg(c, Sub(t, p).value).symlinks| == |InOrder(LinkMap(Sub(t, p).value).Keys)|
    ensures var n := InOrder(LinkMap(Sub(t, p).value).Keys)[i];
      && IsLink(t, Child(p, n))
      && Msg(c, Sub(t, p).value).symlinks[i] == SymlinkNode(n, Sub(t, Child(p, n)).value.target)
  {
    var n := InOrder(LinkMap(Sub(t, p).value).Keys)[i];
    assert n in LinkMap(Sub(t, p).value);
    hide LinkMap;
    ChildParts(p, n);
    KidAt(t, p, Child(p, n));
  }

  /** Everything known about the file system while a tree is being rebuilt into a fresh place. */
  ghost predicate Rebuilding(before: map<Path, Entry>, now: map<Path, Entry>, out: Path,
      blobs: map<string, Bytes>, t: Skel, shown: set<Path>)
  {
    Tidy(t) && Fresh(before, out) && Shows(before, now, out, blobs, t, shown) && Closed(t, shown)
  }

  ghost function KidLinks(t: Skel, p: Path): seq<Path>
    requires IsDir(t, p)
  {
    KidSeq(p, InOrder(LinkMap(Sub(t, p).value).Keys))
  }

  lemma LinkAt(c: Codec, t: Skel, out: Path, p: Path, i: nat)
    requires IsDir(t, p) && i < |Msg(c, Sub(t, p).value).symlinks| && Tidy(t)
    ensures i < |KidLinks(t, p)| && IsLink(t, KidLinks(t, p)[i])
    ensures var node := Msg(c, Sub(t, p).value).symlinks[i];
      && JoinedTo(out + p, node.name) == out + KidLinks(t, p)[i]
      && Sub(t, KidLinks(t, p)[i]).value == SLink(node.target)
  {
    hide LinkMap, InOrder, JoinedTo, Tidy, Sub, Msg;
    LinkNodeAt(c, t, p, i);
    var name := InOrder(LinkMap(Sub(t, p).value).Keys)[i];
    TidyName(t, p, name);
    JoinedName(out + p, name);
    assert out + Child(p, name) == out + p + [name];
  }

  lemma LinkStep(c: Codec, before: map<Path, Entry>, now: map<Path, Entry>, out: Path,
      blobs: map<string, Bytes>, t: Skel, shown: set<Path>, p: Path, i: nat)
    requires IsDir(t, p) && p in shown && i < |KidLinks(t, p)|
    requires shown !! KidPaths(p, LinkMap(Sub(t, p).value).Keys)
    requires IsLink(t, KidLinks(t, p)[i])
    requires Rooted(now) && Rebuilding(before, now, out, blobs, t, shown + ToSet(KidLinks(t, p)[..i]))
    ensures var q := KidLinks(t, p)[i];
      && LinkPlace(now, out + q) == Some(out + q) && Sub(t, q).value.target != ""
      && Rebuilding(before, now[out + q := ELink(Sub(t, q).value.target)], out, blobs, t,
                    shown + ToSet(KidLinks(t, p)[..i + 1]))
  {
    hide LinkMap, Shows, Closed, Fresh, InOrder, Rooted, LinkPlace, Tidy, Straight;
    KidSeqEnumerates(p, LinkMap(Sub(t, p).value).Keys);
    var ps := KidLinks(t, p);
    var sofar := shown + ToSet(ps[..i]);
    assert ps[i] in ps;
    assert ps[..i + 1] == ps[..i] + [ps[i]];
    assert sofar + {ps[i]} == shown + ToSet(ps[..i + 1]);
    MayMakeLeaf(before, now, out, blobs, t, sofar, ps[i]);
    MadeLeafShows(before, now, out, blobs, t, sofar, ps[i]);
    PlainUnder(before, out, t, ps[i]);
    StraightInDirectory(now, out + ps[i]);
    LinkPlaceStraight(now, out + ps[i]);
  }

  lemma PlainUnder(before: map<Path, Entry>, out: Path, t: Skel, p: Path)
    requires Fresh(before, out) && Tidy(t) && Sub(t, p).Some?
    ensures Plain(out + p)
    ensures Sub(t, p).value.SLink? ==> Sub(t, p).value.target != ""
  {
    hide Tidy, Proper;
    TidyPath(t, p);
    forall s | s in out + p ensures Proper(s) {}
  }

  /** `dir` is the canonical message of the directory at `p`, which is to stand at `target`. */
  ghost predicate AtDir(c: Codec, t: Skel, out: Path, p: Path, dir: Directory, target: Path) {
    IsDir(t, p) && dir == Msg(c, Sub(t, p).value) && target == out + p
  }

  ghost predicate LinksReady(t: Skel, p: Path, shown: set<Path>)
    requires IsDir(t, p)
  {
    p in shown && shown !! KidPaths(p, LinkMap(Sub(t, p).value).Keys)
  }

  /** The plan has this message at `target`. */
  ghost predicate OnPlan(plan: Plan, dir: Directory, target: Route) {
    Orderly(plan) && Planned(plan, target) && PlanAt(plan, target) == FoundDir(Some(dir))
  }

  lemma LinkOnPlan(plan: Plan, was: map<Path, Entry>, now: map<Path, Entry>, dir: Directory, target: Route, i: nat)
    requires OnPlan(plan, dir, target) && i < |dir.symlinks| && Rooted(now) && WithinPlan(plan, was, now)
    ensures var place := LinkPlace(now, JoinedTo(target, dir.symlinks[i].name));
      place.Some? ==> WithinPlan(plan, was, now[place.value := ELink(dir.symlinks[i].target)])
  {
    hide Rooted, LinkPlace, Clear, Planned, PlanAt, WithinPlan;
    WithinPlanIsClear(plan, was, now);
    PlannedKid(plan, target, dir, i);
    JoinedName(target, dir.symlinks[i].name);
    if LinkPlace(now, target + [dir.symlinks[i].name]).Some? {
      PlannedLink(plan, now, target + [dir.symlinks[i].name], dir.symlinks[i].target);
      WithinPlanOn(plan, was, now, now[target + [dir.symlinks[i].name] := ELink(dir.symlinks[i].target)]);
    }
  }

  ghost function LinkMade(entries: map<Path, Entry>, route: Route, target: string): Option<map<Path, Entry>> {
    var place := LinkPlace(entries, route);
    if target == "" || place.None? then None else Some(entries[place.value := ELink(target)])
  }

  /** What the links of a message make of the file system, one after the other. */
  ghost function LinksMade(entries: map<Path, Entry>, target: Route, links: seq<SymlinkNode>): Option<map<Path, Entry>>
  {
    if links == [] then Some(entries)
    else
      var last := links[|links| - 1];
      match LinksMade(entries, target, links[..|links| - 1])
      case None => None
      case Some(now) => LinkMade(now, JoinedTo(target, last.name), last.target)
  }

  lemma {:induction false} LinksMadeFirst(entries: map<Path, Entry>, target: Route, links: seq<SymlinkNode>, i: nat)
    requires i <= |links| && LinksMade(entries, target, links).Some?
    ensures LinksMade(entries, target, links[..i]).Some?
  {
    if i < |links| {
      var front := links[..|links| - 1];
      assert front[..i] == links[..i];
      LinksMadeFirst(entries, target, front, i);
    } else {
      assert links[..i] == links;
    }
  }

  lemma LinksMadeNext(entries: map<Path, Entry>, target: Route, links: seq<SymlinkNode>, i: nat)
    requires i < |links| && LinksMade(entries, target, links[..i]).Some?
    ensures LinksMade(entries, target, links[..i + 1]) ==
      LinkMade(LinksMade(entries, target, links[..i]).value, JoinedTo(target, links[i].name), links[i].target)
  {
    assert links[..i + 1][..i] == links[..i];
  }

  lemma {:induction false} LinksMadeIsRooted(entries: map<Path, Entry>, target: Route, links: seq<SymlinkNode>)
    requires Rooted(entries)
    ensures LinksMade(entries, target, links).Some? ==> Rooted(LinksMade(entries, target, links).value)
  {
    hide Rooted, Spot;
    if links != [] && LinksMade(entries, target, links[..|links| - 1]).Some? {
      var now, last := LinksMade(entries, target, links[..|links| - 1]).value, links[|links| - 1];
      LinksMadeIsRooted(entries, target, links[..|links| - 1]);
      SpotReaches(now, JoinedTo(target, last.name));
      if LinkMade(now, JoinedTo(target, last.name), last.target).Some? {
        PutIsRooted(now, LinkPlace(now, JoinedTo(target, last.name)).value, ELink(last.target));
      }
    }
  }

  /** Makes the links that a message lists, whatever their names.  In a fresh place, links of a
      canonical message cannot fail. */
  method MakeLinks(ghost c: Codec, files: Files, dir: Directory, target: Route, ghost plan: Plan,
      ghost before: map<Path, Entry>, ghost out: Path, ghost blobs: map<string, Bytes>, ghost t: Skel, ghost p: Path,
      ghost shown: set<Path>)
    returns (ok: bool)
    requires Rooted(files.entries)
    modifies files
    ensures Rooted(files.entries)
    ensures ok <==> LinksMade(old(files.entries), target, dir.symlinks).Some?
    ensures ok ==> LinksMade(old(files.entries), target, dir.symlinks) == Some(files.entries)
    ensures OnPlan(plan, dir, target) && old(Clear(plan, files.entries)) ==>
      WithinPlan(plan, old(files.entries), files.entries)
    ensures AtDir(c, t, out, p, dir, target) && LinksReady(t, p, shown) ==>
      old(Rebuilding(before, files.entries, out, blobs, t, shown)) ==>
      ok && Rebuilding(before, files.entries, out, blobs, t, shown + KidPaths(p, LinkMap(Sub(t, p).value).Keys))
  {
    hide Msg, LinkMap, KidLinks, Rebuilding, Rooted, KidPaths, ToSet, IsDir, Sub, WithinPlan, OnPlan, Clear,
      LinkPlace, JoinedTo, LinksReady, Tidy, LinksMade;
    NoLinksMade(files.entries, target, dir.symlinks);
    ghost var was := files.entries;
    ghost var heeds := OnPlan(plan, dir, target) && Clear(plan, was);
    ghost var clean := AtDir(c, t, out, p, dir, target) && LinksReady(t, p, shown)
      && Rebuilding(before, files.entries, out, blobs, t, shown);
    ghost var ps := if clean then KidLinks(t, p) else [];
    if clean { LinksMayStart(c, before, was, out, blobs, t, p, shown); }
    NoneDone(shown, ps);
    if heeds { WithinPlanAlready(plan, was); }
    for i := 0 to |dir.symlinks|
      invariant Rooted(files.entries)
      invariant LinksMade(was, target, dir.symlinks[..i]) == Some(files.entries)
      invariant heeds ==> WithinPlan(plan, was, files.entries)
      invariant clean ==> Rebuilding(before, files.entries, out, blobs, t, shown + ToSet(ps[..i]))
    {
      LinksMadeNext(was, target, dir.symlinks, i);
      if LinksMade(was, target, dir.symlinks).Some? { LinksMadeFirst(was, target, dir.symlinks, i + 1); }
      var node := dir.symlinks[i];
      if clean {
        LinkAt(c, t, out, p, i);
        LinkStep(c, before, files.entries, out, blobs, t, shown, p, i);
      }
      if heeds { LinkOnPlan(plan, was, files.entries, dir, target, i); }
      ok := files.Symlink(node.target, JoinedTo(target, node.name));
      if !ok { return; }
    }
    assert dir.symlinks[..|dir.symlinks|] == dir.symlinks;
    if clean { AllLinks(t, p); }
    ok := true;
  }

  lemma NoLinksMade(entries: map<Path, Entry>, target: Route, links: seq<SymlinkNode>)
    ensures LinksMade(entries, target, links[..0]) == Some(entries)
  {
  }

  lemma LinksMayStart(c: Codec, before: map<Path, Entry>, now: map<Path, Entry>, out: Path, blobs: map<string, Bytes>,
      t: Skel, p: Path, shown: set<Path>)
    requires IsDir(t, p) && LinksReady(t, p, shown) && Rebuilding(before, now, out, blobs, t, shown)
    ensures |Msg(c, Sub(t, p).value).symlinks| == |KidLinks(t, p)| && Tidy(t)
    ensures p in shown && shown !! KidPaths(p, LinkMap(Sub(t, p).value).Keys)
  {
    hide Msg, KidLinks, Shows, Closed, Fresh, LinkMap, KidPaths;
    LinkCount(c, t, p);
  }

  lemma WithinPlanIsClear(plan: Plan, before: map<Path, Entry>, after: map<Path, Entry>)
    requires WithinPlan(plan, before, after)
    ensures Clear(plan, after)
  {
  }

  lemma LinkCount(c: Codec, t: Skel, p: Path)
    requires IsDir(t, p)
    ensures |Msg(c, Sub(t, p).value).symlinks| == |KidLinks(t, p)|
  {
    hide LinkMap, InOrder;
    MsgLengths(c, Sub(t, p).value);
  }

  lemma AllLinks(t: Skel, p: Path)
    requires IsDir(t, p)
    ensures KidLinks(t, p)[..|KidLinks(t, p)|] == KidLinks(t, p)
    ensures ToSet(KidLinks(t, p)) == KidPaths(p, LinkMap(Sub(t, p).value).Keys)
  {
    hide LinkMap, InOrder;
    KidSeqEnumerates(p, LinkMap(Sub(t, p).value).Keys);
    EnumeratesSet(KidLinks(t, p), KidPaths(p, LinkMap(Sub(t, p).value).Keys));
  }

  lemma EnumeratesSet(s: seq<Path>, all: set<Path>)
    requires Enumerates(s, all)
    ensures s[..|s|] == s && ToSet(s) == all
  {
  }

  // ---------------------------------------------------------------- writing the files

  /** Every target's content is in storage. */
  ghost predicate TargetsThere(blobs: map<string, Bytes>, targets: seq<Target>) {
    forall i :: 0 <= i < |targets| ==> targets[i].digest.hash in blobs
  }

  ghost predicate Covers(wanted: map<string, Digest>, targets: seq<Target>) {
    && (forall i :: 0 <= i < |targets| ==> targets[i].digest.hash in wanted)
    && (forall h :: h in wanted ==> exists i :: 0 <= i < |targets| && targets[i].digest.hash == h == wanted[h].hash)
  }

  lemma NothingCovered()
    ensures Covers(map[], [])
  {
  }

  lemma CoversMore(wanted: map<string, Digest>, targets: seq<Target>, i: nat)
    requires i < |targets| && Covers(wanted, targets[..i])
    ensures Covers(wanted[targets[i].digest.hash := targets[i].digest], targets[..i + 1])
  {
    var s, t := targets[..i], targets[..i + 1];
    var more := wanted[targets[i].digest.hash := targets[i].digest];
    assert t[i] == targets[i];
    forall h | h in more ensures exists j :: 0 <= j < |t| && t[j].digest.hash == h == more[h].hash {
      if h != targets[i].digest.hash {
        var j :| 0 <= j < |s| && s[j].digest.hash == h == wanted[h].hash;
        assert t[j] == s[j];
      }
    }
  }

  /** `HashMap::into_values`: the values in some order. */
  method DigestValues(m: map<string, Digest>) returns (values: seq<Digest>)
    ensures forall d :: d in values <==> d in m.Values
  {
    values := [];
    var rest := m.Keys;
    while rest != {}
      invariant rest <= m.Keys
      invariant forall h :: h in m && h !in rest ==> m[h] in values
      invariant forall d :: d in values ==> d in m.Values
    {
      var h :| h in rest;
      values := values + [m[h]];
      rest := rest - {h};
    }
  }

  ghost predicate Asked(digests: seq<Digest>, hash: string) { exists d :: d in digests && d.hash == hash }

  lemma CoveredThere(blobs: map<string, Bytes>, wanted: map<string, Digest>, values: seq<Digest>, targets: seq<Target>)
    requires Covers(wanted, targets)
    requires forall d :: d in values <==> d in wanted.Values
    ensures AllThere(blobs, values) <==> TargetsThere(blobs, targets)
    ensures forall i :: 0 <= i < |targets| ==> Asked(values, targets[i].digest.hash)
  {
    forall i | 0 <= i < |targets| ensures Asked(values, targets[i].digest.hash) {
      var h := targets[i].digest.hash;
      assert h in wanted && wanted[h].hash == h;
      var d := wanted[h];
      assert d in wanted.Values;
      assert d in values && d.hash == h;
    }
    forall d | d in values ensures exists i :: 0 <= i < |targets| && targets[i].digest.hash == d.hash {
      var h :| h in wanted && wanted[h] == d;
    }
  }

  /** The files are not shown yet, but their directories are. */
  ghost predicate FilesReady(t: Skel, shown: set<Path>, ps: set<Path>) {
    && shown !! ps
    && forall q :: q in ps ==> q != [] && Parent(q) in shown && IsDir(t, Parent(q))
  }

  lemma FileStep(before: map<Path, Entry>, now: map<Path, Entry>, out: Path, blobs: map<string, Bytes>,
      t: Skel, shown: set<Path>, all: set<Path>, ps: seq<Path>, targets: seq<Target>, i: nat)
    requires FilesFor(t, out, targets, shown, ps, all) && i < |targets| && i <= |ps|
    requires Rooted(now) && Rebuilding(before, now, out, blobs, t, shown + ToSet(ps[..i]))
    ensures i < |ps|
    ensures var target := targets[i];
      && FilePlace(now, target.path) == Some(target.path)
      && (target.digest.hash in blobs ==>
           var file := EFile(blobs[target.digest.hash], if target.exec then 0x1ED else 0x1A4);
           Rebuilding(before, now[target.path := file], out, blobs, t, shown + ToSet(ps[..i + 1])))
  {
    hide Shows, Closed, Fresh, Rooted, FilePlace, Tidy, Straight;
    var sofar := shown + ToSet(ps[..i]);
    assert TargetFor(t, out, targets[i], ps[i]);
    assert ps[i] in ps;
    assert ps[..i + 1] == ps[..i] + [ps[i]];
    assert sofar + {ps[i]} == shown + ToSet(ps[..i + 1]);
    MayMakeLeaf(before, now, out, blobs, t, sofar, ps[i]);
    MadeLeafShows(before, now, out, blobs, t, sofar, ps[i]);
    PlainUnder(before, out, t, ps[i]);
    StraightInDirectory(now, out + ps[i]);
    FilePlaceStraight(now, out + ps[i]);
  }

  lemma ContentsAre(all: bool, blobs: map<string, Bytes>, values: seq<Digest>, targets: seq<Target>,
      contents: map<string, Bytes>)
    requires Fetched(blobs, values, contents) && (all ==> FetchedAll(values, contents))
    requires forall i :: 0 <= i < |targets| ==> Asked(values, targets[i].digest.hash)
    ensures forall h :: h in contents ==> h in blobs && contents[h] == blobs[h]
    ensures all ==> forall i :: 0 <= i < |targets| ==> targets[i].digest.hash in contents
  {
    forall i | all && 0 <= i < |targets| ensures targets[i].digest.hash in contents {
      assert Asked(values, targets[i].digest.hash);
    }
  }

  lemma WrittenTwice(entries: map<Path, Entry>, p: Path, a: Entry, b: Entry)
    ensures entries[p := a][p := b] == entries[p := b]
  {
  }

  /** Every target is a file that the plan has there. */
  ghost predicate TargetsPlanned(plan: Plan, targets: seq<Target>) {
    forall i :: 0 <= i < |targets| ==> TargetPlanned(plan, targets[i])
  }

  ghost predicate TargetPlanned(plan: Plan, target: Target) {
    Planned(plan, target.path) && PlanAt(plan, target.path) != FoundLink
  }

  lemma FileOnPlan(plan: Plan, was: map<Path, Entry>, now: map<Path, Entry>, targets: seq<Target>, i: nat,
      content: Bytes, mode: nat)
    requires Orderly(plan) && TargetsPlanned(plan, targets) && i < |targets|
    requires Rooted(now) && WithinPlan(plan, was, now)
    ensures var place := FilePlace(now, targets[i].path);
      place.Some? ==> WithinPlan(plan, was, now[place.value := EFile(content, mode)])
  {
    hide Rooted, FilePlace, Clear, Planned, PlanAt, WithinPlan, Orderly;
    WithinPlanIsClear(plan, was, now);
    assert TargetPlanned(plan, targets[i]);
    var place := FilePlace(now, targets[i].path);
    if place.Some? {
      PlannedFile(plan, now, targets[i].path, content, mode);
      WithinPlanOn(plan, was, now, now[place.value := EFile(content, mode)]);
    }
  }

  /** The targets are those of the files at `ps`, which are not shown yet. */
  ghost predicate FilesFor(t: Skel, out: Path, targets: seq<Target>, shown: set<Path>, ps: seq<Path>, all: set<Path>) {
    TargetsFor(t, out, targets, ps) && Enumerates(ps, all) && FilesReady(t, shown, all)
  }

  ghost function TargetMade(entries: map<Path, Entry>, blobs: map<string, Bytes>, target: Target):
    Option<map<Path, Entry>>
  {
    var place := FilePlace(entries, target.path);
    if target.digest.hash !in blobs || place.None? then None
    else Some(entries[place.value := Rendered(blobs, SFile(Some(target.digest), target.exec))])
  }

  /** What writing files makes of the file system, one after the other. */
  ghost function TargetsMade(entries: map<Path, Entry>, blobs: map<string, Bytes>, targets: seq<Target>):
    Option<map<Path, Entry>>
  {
    if targets == [] then Some(entries)
    else
      match TargetsMade(entries, blobs, targets[..|targets| - 1])
      case None => None
      case Some(now) => TargetMade(now, blobs, targets[|targets| - 1])
  }

  lemma {:induction false} TargetsMadeFirst(entries: map<Path, Entry>, blobs: map<string, Bytes>, targets: seq<Target>,
      i: nat)
    requires i <= |targets| && TargetsMade(entries, blobs, targets).Some?
    ensures TargetsMade(entries, blobs, targets[..i]).Some?
  {
    hide TargetMade;
    if i < |targets| {
      var front := targets[..|targets| - 1];
      assert front[..i] == targets[..i];
      TargetsMadeFirst(entries, blobs, front, i);
    } else {
      assert targets[..i] == targets;
    }
  }

  lemma {:induction false} TargetsMadeThere(entries: map<Path, Entry>, blobs: map<string, Bytes>, targets: seq<Target>)
    requires TargetsMade(entries, blobs, targets).Some?
    ensures TargetsThere(blobs, targets)
  {
    hide FilePlace, Rendered;
    if targets != [] {
      var front := targets[..|targets| - 1];
      TargetsMadeThere(entries, blobs, front);
      forall k | 0 <= k < |targets| ensures targets[k].digest.hash in blobs {
        if k < |front| { assert front[k] == targets[k]; }
      }
    }
  }

  lemma {:induction false} TargetsMadeIsRooted(entries: map<Path, Entry>, blobs: map<string, Bytes>,
      targets: seq<Target>)
    requires Rooted(entries)
    ensures TargetsMade(entries, blobs, targets).Some? ==> Rooted(TargetsMade(entries, blobs, targets).value)
  {
    hide Rooted, Follow, Rendered;
    if targets != [] && TargetsMade(entries, blobs, targets[..|targets| - 1]).Some? {
      var now, last := TargetsMade(entries, blobs, targets[..|targets| - 1]).value, targets[|targets| - 1];
      TargetsMadeIsRooted(entries, blobs, targets[..|targets| - 1]);
      RootIsThere(now);
      FollowReaches(now, [], last.path, MAX_LINKS);
      if TargetMade(now, blobs, last).Some? { TargetPut(now, FilePlace(now, last.path).value, blobs, last); }
    }
  }

  lemma TargetPut(entries: map<Path, Entry>, p: Path, blobs: map<string, Bytes>, target: Target)
    requires Rooted(entries) && Reachable(entries, p) && (p in entries ==> entries[p].EFile?)
    ensures Rooted(entries[p := Rendered(blobs, SFile(Some(target.digest), target.exec))])
  {
    hide Rooted, Reachable;
    PutIsRooted(entries, p, Rendered(blobs, SFile(Some(target.digest), target.exec)));
  }

  lemma TargetsMadeNext(entries: map<Path, Entry>, blobs: map<string, Bytes>, targets: seq<Target>, i: nat)
    requires i < |targets| && TargetsMade(entries, blobs, targets[..i]).Some?
    ensures TargetsMade(entries, blobs, targets[..i + 1]) ==
      TargetMade(TargetsMade(entries, blobs, targets[..i]).value, blobs, targets[i])
  {
    assert targets[..i + 1][..i] == targets[..i];
  }

  lemma NoTargetsMade(entries: map<Path, Entry>, blobs: map<string, Bytes>, targets: seq<Target>)
    ensures TargetsMade(entries, blobs, targets[..0]) == Some(entries)
    ensures TargetsMade(entries, blobs, targets).Some? ==> TargetsThere(blobs, targets)
  {
    if TargetsMade(entries, blobs, targets).Some? { TargetsMadeThere(entries, blobs, targets); }
  }

  /** In a fresh place that shows their directories, the files of a tree can be written one by one. */
  lemma {:induction false} TargetsMadeFor(before: map<Path, Entry>, was: map<Path, Entry>, out: Path,
      blobs: map<string, Bytes>, t: Skel, shown: set<Path>, all: set<Path>, ps: seq<Path>, targets: seq<Target>, i: nat)
    requires FilesFor(t, out, targets, shown, ps, all) && i <= |targets|
    requires Rooted(was) && Rebuilding(before, was, out, blobs, t, shown)
    ensures TargetsThere(blobs, targets) ==> TargetsMade(was, blobs, targets[..i]).Some?
    ensures TargetsMade(was, blobs, targets[..i]).Some? ==>
      && i <= |ps|
      && Rebuilding(before, TargetsMade(was, blobs, targets[..i]).value, out, blobs, t, shown + ToSet(ps[..i]))
  {
    hide Rooted, FilesFor, Rebuilding, FilePlace, ToSet, TargetsMade;
    if i == 0 {
      NoTargetsMade(was, blobs, targets);
      NoneDone(shown, ps);
    } else {
      TargetsMadeFor(before, was, out, blobs, t, shown, all, ps, targets, i - 1);
      if TargetsMade(was, blobs, targets[..i]).Some? {
        TargetsMadeFirst(was, blobs, targets[..i], i - 1);
        assert targets[..i][..i - 1] == targets[..i - 1];
      }
      if TargetsMade(was, blobs, targets[..i - 1]).Some? {
        var now := TargetsMade(was, blobs, targets[..i - 1]).value;
        TargetsMadeIsRooted(was, blobs, targets[..i - 1]);
        TargetsMadeNext(was, blobs, targets, i - 1);
        FileStep(before, now, out, blobs, t, shown, all, ps, targets, i - 1);
      }
    }
  }

  lemma AllTargetsMade(before: map<Path, Entry>, was: map<Path, Entry>, out: Path, blobs: map<string, Bytes>,
      t: Skel, shown: set<Path>, all: set<Path>, ps: seq<Path>, targets: seq<Target>)
    requires FilesFor(t, out, targets, shown, ps, all)
    requires Rooted(was) && Rebuilding(before, was, out, blobs, t, shown)
    ensures TargetsMade(was, blobs, targets).Some? <==> TargetsThere(blobs, targets)
    ensures TargetsMade(was, blobs, targets).Some? ==>
      Rebuilding(before, TargetsMade(was, blobs, targets).value, out, blobs, t, shown + all)
  {
    hide Rooted, FilesFor, Rebuilding, ToSet, TargetsMade, TargetsThere;
    NoTargetsMade(was, blobs, targets);
    TargetsMadeFor(before, was, out, blobs, t, shown, all, ps, targets, |targets|);
    FilesForAll(t, out, targets, shown, ps, all);
    assert targets[..|targets|] == targets;
  }

  lemma OneMoreTarget(entries: map<Path, Entry>, blobs: map<string, Bytes>, targets: seq<Target>, i: nat,
      now: map<Path, Entry>)
    requires i < |targets| && TargetsMade(entries, blobs, targets[..i]) == Some(now)
    ensures targets[i].digest.hash !in blobs || FilePlace(now, targets[i].path).None? ==>
      TargetsMade(entries, blobs, targets).None?
    ensures targets[i].digest.hash in blobs && FilePlace(now, targets[i].path).Some? ==>
      TargetsMade(entries, blobs, targets[..i + 1]) == Some(now[FilePlace(now, targets[i].path).value :=
        EFile(blobs[targets[i].digest.hash], if targets[i].exec then 0x1ED else 0x1A4)])
  {
    hide TargetsMade, FilePlace;
    TargetsMadeNext(entries, blobs, targets, i);
    if TargetsMade(entries, blobs, targets).Some? { TargetsMadeFirst(entries, blobs, targets, i + 1); }
  }

  /** Whatever differs has the content of one of the files, and the mode that says whether it may be executed. */
  ghost predicate OnlyTargets(before: map<Path, Entry>, after: map<Path, Entry>, blobs: map<string, Bytes>,
      targets: seq<Target>)
  {
    forall q :: Get(after, q) == Get(before, q) || IsTarget(blobs, targets, Get(after, q))
  }

  ghost predicate IsTarget(blobs: map<string, Bytes>, targets: seq<Target>, e: Option<Entry>) {
    exists i :: 0 <= i < |targets| && targets[i].digest.hash in blobs &&
      e == Some(EFile(blobs[targets[i].digest.hash], if targets[i].exec then 0x1ED else 0x1A4))
  }

  lemma {:induction false} MadeOnlyTargets(entries: map<Path, Entry>, blobs: map<string, Bytes>, targets: seq<Target>,
      i: nat)
    requires i <= |targets| && TargetsMade(entries, blobs, targets[..i]).Some?
    ensures OnlyTargets(entries, TargetsMade(entries, blobs, targets[..i]).value, blobs, targets)
  {
    hide TargetsMade, FilePlace;
    NoTargetsMade(entries, blobs, targets);
    if i > 0 {
      TargetsMadeFirst(entries, blobs, targets[..i], i - 1);
      assert targets[..i][..i - 1] == targets[..i - 1];
      TargetsMadeNext(entries, blobs, targets, i - 1);
      MadeOnlyTargets(entries, blobs, targets, i - 1);
    }
  }

  /** Fetches the contents of all files at once and writes them, wherever their paths lead.  In a fresh
      place that shows the files' directories it can only fail on content that storage does not have. */
  method WriteFiles(client: RemoteClient, files: Files, targets: seq<Target>, ghost plan: Plan,
      ghost before: map<Path, Entry>, ghost out: Path, ghost t: Skel, ghost shown: set<Path>, ghost ps: seq<Path>,
      ghost all: set<Path>)
    returns (r: Result<(), Error>)
    requires Rooted(files.entries)
    modifies files, client.server`log
    ensures Rooted(files.entries)
    ensures Orderly(plan) && TargetsPlanned(plan, targets) && old(Clear(plan, files.entries)) ==>
      WithinPlan(plan, old(files.entries), files.entries)
    ensures OnlyTargets(old(files.entries), files.entries, client.server.blobs, targets)
    ensures r.Ok? ==> TargetsThere(client.server.blobs, targets)
    ensures r.Ok? ==> TargetsMade(old(files.entries), client.server.blobs, targets) == Some(files.entries)
    ensures client.server.reliable ==>
      (r.Ok? <==> TargetsMade(old(files.entries), client.server.blobs, targets).Some?)
    ensures FilesFor(t, out, targets, shown, ps, all) ==>
      old(Rebuilding(before, files.entries, out, client.server.blobs, t, shown)) ==>
      && (r.Ok? ==> Rebuilding(before, files.entries, out, client.server.blobs, t, shown + all))
      && (client.server.reliable ==> (r.Ok? <==> TargetsThere(client.server.blobs, targets)))
  {
    hide *;
    ghost var was, blobs := files.entries, client.server.blobs;
    NoTargetsMade(was, blobs, targets);
    MadeOnlyTargets(was, blobs, targets, 0);
    if FilesFor(t, out, targets, shown, ps, all) && Rebuilding(before, was, out, blobs, t, shown) {
      AllTargetsMade(before, was, out, blobs, t, shown, all, ps, targets);
    }
    ghost var heeds := Orderly(plan) && TargetsPlanned(plan, targets) && Clear(plan, was);
    if heeds { WithinPlanAlready(plan, was); }
    var values := WantedDigests(targets);
    var fetched := client.DownloadBlobs(values);
    if fetched.Err? { return Err(fetched.error); }
    var contents := fetched.value;
    ContentsAre(client.server.reliable, blobs, values, targets, contents);
    for i := 0 to |targets|
      invariant Rooted(files.entries)
      invariant heeds ==> WithinPlan(plan, was, files.entries)
      invariant TargetsMade(was, blobs, targets[..i]) == Some(files.entries)
    {
      var target := targets[i];
      OneMoreTarget(was, blobs, targets, i, files.entries);
      MadeOnlyTargets(was, blobs, targets, i);
      if target.digest.hash !in contents { return Err(BlobStatus(target.digest.hash)); }
      var data := contents[target.digest.hash];
      if heeds { FileOnPlan(plan, was, files.entries, targets, i, data, if target.exec then 0x1ED else 0x1A4); }
      var ok := WriteFile(files, target.path, data, target.exec);
      if !ok { return Err(Io); }
    }
    assert targets[..|targets|] == targets;
    MadeOnlyTargets(was, blobs, targets, |targets|);
    r := Ok(());
  }

  /** Writes one file and sets its permissions. */
  method WriteFile(files: Files, route: Route, data: Bytes, exec: bool) returns (ok: bool)
    requires Rooted(files.entries)
    modifies files
    ensures Rooted(files.entries)
    ensures ok <==> FilePlace(old(files.entries), route).Some?
    ensures files.entries == if ok
      then old(files.entries)[FilePlace(old(files.entries), route).value := EFile(data, if exec then 0x1ED else 0x1A4)]
      else old(files.entries)
  {
    hide Follow, Rooted;
    ghost var was := files.entries;
    ok := files.Write(route, data);
    if !ok { return; }
    ghost var p := FilePlace(was, route).value;
    ghost var first := EFile(data, if p in was then was[p].mode else 0x1A4);
    FollowAgain(was, [], route, MAX_LINKS, p, first);
    var mode := if exec then 0x1ED else 0x1A4;
    ok := files.SetPermissions(route, mode);
    WrittenTwice(was, p, first, EFile(data, mode));
  }

  /** The digests of the targets, each hash once. */
  method WantedDigests(targets: seq<Target>) returns (values: seq<Digest>)
    ensures forall blobs :: AllThere(blobs, values) <==> TargetsThere(blobs, targets)
    ensures forall i :: 0 <= i < |targets| ==> Asked(values, targets[i].digest.hash)
  {
    hide Covers, AllThere, TargetsThere;
    var wanted: map<string, Digest> := map[];
    NothingCovered();
    assert targets[..0] == [];
    for i := 0 to |targets|
      invariant Covers(wanted, targets[..i])
    {
      CoversMore(wanted, targets, i);
      wanted := wanted[targets[i].digest.hash := targets[i].digest];
    }
    assert targets[..|targets|] == targets;
    values := DigestValues(wanted);
    forall blobs { CoveredThere(blobs, wanted, values, targets); }
    CoveredThere(map[], wanted, values, targets);
  }

  lemma FilesForAll(t: Skel, out: Path, targets: seq<Target>, shown: set<Path>, ps: seq<Path>, all: set<Path>)
    requires FilesFor(t, out, targets, shown, ps, all)
    ensures |targets| == |ps| && ps[..|targets|] == ps && ToSet(ps) == all
  {
    EnumeratesSet(ps, all);
  }

  // ---------------------------------------------------------------- breadth first

  /** Storage holds the message of every directory of the tree under its hash.  A mount stands
      for a digest under which storage holds no directory. */
  ghost predicate Denotes(c: Codec, blobs: map<string, Bytes>, t: Skel) {
    forall p :: p in Paths(t) ==> DenotesAt(c, blobs, t, p)
  }

  ghost predicate DenotesAt(c: Codec, blobs: map<string, Bytes>, t: Skel, p: Path) {
    && (IsDir(t, p) ==>
         var h := c.hash(DirBlob(c, Sub(t, p).value));
         h in blobs && c.decodeDirectory(blobs[h]) == Some(Msg(c, Sub(t, p).value)))
    && (IsDirectory(t, p) && !IsDir(t, p) ==>
         match Sub(t, p).value.digest
         case None => true
         case Some(d) => d.hash in blobs ==> c.decodeDirectory(blobs[d.hash]) == None)
  }

  /** Every directory can be fetched, and every file has a digest. */
  ghost predicate Resolvable(t: Skel) {
    forall p :: p in Paths(t) ==> (IsDirectory(t, p) ==> IsDir(t, p)) && (IsFile(t, p) ==> Sub(t, p).value.digest.Some?)
  }

  /** What has been made once these directories are processed: they and their links. */
  ghost function Made(t: Skel, done: set<Path>): set<Path> { done + LinksMet(t, done) }

  /** The worklist of a traversal: directories still to visit, and the files met so far. */
  ghost predicate Walking(c: Codec, t: Skel, out: Path, done: set<Path>,
      todo: seq<Path>, fetches: seq<Fetch>, met: seq<Path>, targets: seq<Target>)
  {
    && Processed(t, done)
    && Enumerates(todo, Pending(t, done)) && FetchesFor(c, t, out, fetches, todo)
    && Enumerates(met, FilesMet(t, done)) && TargetsFor(t, out, targets, met)
  }

  lemma FetchesJoin(c: Codec, t: Skel, out: Path, a: seq<Fetch>, ps: seq<Path>, b: seq<Fetch>, qs: seq<Path>)
    requires FetchesFor(c, t, out, a, ps) && FetchesFor(c, t, out, b, qs) && ps != []
    ensures FetchesFor(c, t, out, a[1..] + b, ps[1..] + qs)
  {
    hide FetchFor;
  }

  lemma TargetsJoin(t: Skel, out: Path, a: seq<Target>, ps: seq<Path>, b: seq<Target>, qs: seq<Path>)
    requires TargetsFor(t, out, a, ps) && TargetsFor(t, out, b, qs)
    ensures TargetsFor(t, out, a + b, ps + qs)
  {
    hide TargetFor;
  }

  lemma WalkStep(c: Codec, t: Skel, out: Path, done: set<Path>, todo: seq<Path>, fetches: seq<Fetch>,
      met: seq<Path>, targets: seq<Target>, moreFetches: seq<Fetch>, moreTargets: seq<Target>)
    requires Walking(c, t, out, done, todo, fetches, met, targets) && todo != [] && IsDir(t, todo[0])
    requires FetchesFor(c, t, out, moreFetches, KidDirs(c, t, todo[0]))
    requires TargetsFor(t, out, moreTargets, KidFiles(t, todo[0]))
    ensures Walking(c, t, out, done + {todo[0]}, todo[1..] + KidDirs(c, t, todo[0]), fetches[1..] + moreFetches,
      met + KidFiles(t, todo[0]), targets + moreTargets)
  {
    var p := todo[0];
    var s := Sub(t, p).value;
    hide DirMap, FileMap, LinkMap, KidPaths, Pending, FilesMet, Processed, FetchesFor, TargetsFor, Enumerates, InOrder;
    assert todo[0] in todo;
    FetchesJoin(c, t, out, fetches, todo, moreFetches, KidDirs(c, t, p));
    TargetsJoin(t, out, targets, met, moreTargets, KidFiles(t, p));
    EnumeratesRest(todo, Pending(t, done));
    ProcessedMore(c, t, done, p);
    KidSeqEnumerates(p, DirMap(c, s).Keys);
    KidSeqEnumerates(p, FileMap(s).Keys);
    EnumeratesJoin(todo[1..], Pending(t, done) - {p}, KidDirs(c, t, p), KidPaths(p, DirMap(c, s).Keys));
    EnumeratesJoin(met, FilesMet(t, done), KidFiles(t, p), KidPaths(p, FileMap(s).Keys));
  }

  lemma MakingNext(before: map<Path, Entry>, now: map<Path, Entry>, out: Path, blobs: map<string, Bytes>,
      t: Skel, shown: set<Path>, p: Path)
    requires Rooted(now) && Rebuilding(before, now, out, blobs, t, shown) && NextDir(t, shown, p)
    ensures DirsMade(now, out + p).Some?
    ensures Rebuilding(before, DirsMade(now, out + p).value, out, blobs, t, shown + {p})
  {
    hide Shows, Closed, Fresh, Rooted, DirsMade, Tidy;
    PlainUnder(before, out, t, p);
    forall q | q in now && q <= out + p ensures now[q] == EDir {
      MayMakeDir(before, now, out, blobs, t, shown, p, q);
    }
    DirsMadeStraight(now, out + p);
    MadeDirShows(before, now, DirsMade(now, out + p).value, out, blobs, t, shown, p);
  }

  lemma PendingIsNext(t: Skel, done: set<Path>, p: Path)
    requires Processed(t, done) && p in Pending(t, done) && IsDir(t, p)
    ensures NextDir(t, Made(t, done), p)
  {
  }

  lemma MadeMore(c: Codec, t: Skel, done: set<Path>, p: Path)
    requires Processed(t, done) && p in Pending(t, done) && IsDir(t, p)
    ensures Made(t, done + {p}) == Made(t, done) + {p} + KidPaths(p, LinkMap(Sub(t, p).value).Keys)
    ensures Made(t, done) + {p} !! KidPaths(p, LinkMap(Sub(t, p).value).Keys)
  {
    hide LinkMap, DirMap, FileMap, KidPaths;
    ProcessedMore(c, t, done, p);
    forall q | q in KidPaths(p, LinkMap(Sub(t, p).value).Keys) ensures q !in done && q != p {
    }
  }

  lemma KidsDigested(c: Codec, t: Skel, p: Path)
    requires Resolvable(t) && IsDir(t, p)
    ensures DirsDigested(c, t, KidPaths(p, DirMap(c, Sub(t, p).value).Keys))
    ensures FilesDigested(t, KidPaths(p, FileMap(Sub(t, p).value).Keys))
  {
    forall q | q in KidPaths(p, DirMap(c, Sub(t, p).value).Keys) || q in KidPaths(p, FileMap(Sub(t, p).value).Keys)
      ensures q in Paths(t)
    {
      KidAt(t, p, q);
    }
  }

  /** A fetch of the directory at `p`, which comes next, and of which storage has the message. */
  ghost predicate Expected(c: Codec, blobs: map<string, Bytes>, t: Skel, out: Path, done: set<Path>, p: Path,
      fetch: Fetch)
  {
    && Tidy(t) && FetchFor(c, t, out, fetch, p) && Processed(t, done) && p in Pending(t, done)
    && DenotesAt(c, blobs, t, p)
  }

  /** The directories that storage has. */
  ghost function StoredIn(c: Codec, blobs: map<string, Bytes>): string -> Option<Directory> {
    (h: string) => if h in blobs then c.decodeDirectory(blobs[h]) else None
  }

  ghost predicate FetchPlanned(plan: Plan, fetch: Fetch) {
    Planned(plan, fetch.target) && PlanAt(plan, fetch.target) == FoundDir(plan.below(fetch.digest.hash))
  }

  ghost predicate FetchesPlanned(plan: Plan, fetches: seq<Fetch>) {
    forall i :: 0 <= i < |fetches| ==> FetchPlanned(plan, fetches[i])
  }

  /** What a planned directory reports is planned. */
  lemma BelowOnPlan(plan: Plan, dir: Directory, target: Route, fetches: seq<Fetch>, targets: seq<Target>)
    requires OnPlan(plan, dir, target) && FetchesOf(dir, target, fetches) && TargetsOf(dir, target, targets)
    ensures FetchesPlanned(plan, fetches) && TargetsPlanned(plan, targets)
  {
    hide Planned, PlanAt, JoinedTo;
    forall i | 0 <= i < |fetches| ensures FetchPlanned(plan, fetches[i]) {
      PlannedKid(plan, target, dir, i);
      JoinedName(target, dir.directories[i].name);
    }
    forall i | 0 <= i < |targets| ensures TargetPlanned(plan, targets[i]) {
      PlannedKid(plan, target, dir, i);
      JoinedName(target, dir.files[i].name);
    }
  }

  /** The plan has the fetched directory, and reads storage. */
  ghost predicate Heeds(plan: Plan, c: Codec, blobs: map<string, Bytes>, fetch: Fetch) {
    Orderly(plan) && FetchPlanned(plan, fetch) && plan.below == StoredIn(c, blobs)
  }

  lemma HeedsMeans(plan: Plan, c: Codec, blobs: map<string, Bytes>, fetch: Fetch)
    requires Heeds(plan, c, blobs, fetch) && fetch.digest.hash in blobs
    ensures Orderly(plan) && Planned(plan, fetch.target) && PlanAt(plan, fetch.target) != FoundLink
    ensures c.decodeDirectory(blobs[fetch.digest.hash]).Some? ==>
      OnPlan(plan, c.decodeDirectory(blobs[fetch.digest.hash]).value, fetch.target)
  {
  }

  /** What placing a directory makes of the file system: the directories that lead there, and the
      links.  Nothing if an entry has no digest. */
  ghost function DirectoryPlaced(entries: map<Path, Entry>, target: Route, dir: Directory): Option<map<Path, Entry>> {
    match DirsMade(entries, target)
    case None => None
    case Some(made) => if DirsNamed(dir) && FilesNamed(dir) then LinksMade(made, target, dir.symlinks) else None
  }

  /** Turns one fetched blob into a directory with its links, and reports what is below, whatever the
      names.  If the fetch is planned, then nothing happens that is not planned. */
  method PlaceDirectory(c: Codec, files: Files, data: Bytes, fetch: Fetch, ghost plan: Plan,
      ghost before: map<Path, Entry>, ghost out: Path, ghost blobs: map<string, Bytes>, ghost t: Skel,
      ghost done: set<Path>, ghost p: Path)
    returns (r: Result<(seq<Fetch>, seq<Target>), Error>)
    requires fetch.digest.hash in blobs && blobs[fetch.digest.hash] == data
    requires Rooted(files.entries)
    modifies files
    ensures Rooted(files.entries)
    ensures Heeds(plan, c, blobs, fetch) && old(Clear(plan, files.entries)) ==>
      && WithinPlan(plan, old(files.entries), files.entries)
      && (r.Ok? ==> FetchesPlanned(plan, r.value.0) && TargetsPlanned(plan, r.value.1))
    ensures r.Ok? ==> c.decodeDirectory(data).Some?
    ensures r.Ok? ==>
      DirectoryPlaced(old(files.entries), fetch.target, c.decodeDirectory(data).value) == Some(files.entries)
    ensures r.Err? ==> c.decodeDirectory(data).Some? ==>
      DirectoryPlaced(old(files.entries), fetch.target, c.decodeDirectory(data).value).None?
    ensures r.Ok? ==> FetchesOf(c.decodeDirectory(data).value, fetch.target, r.value.0)
    ensures r.Ok? ==> TargetsOf(c.decodeDirectory(data).value, fetch.target, r.value.1)
    ensures Expected(c, blobs, t, out, done, p, fetch) ==>
      && (r.Ok? ==>
           && IsDir(t, p)
           && FetchesFor(c, t, out, r.value.0, KidDirs(c, t, p)) && TargetsFor(t, out, r.value.1, KidFiles(t, p)))
      && (old(Rebuilding(before, files.entries, out, blobs, t, Made(t, done))) ==>
           && (r.Ok? ==> Rebuilding(before, files.entries, out, blobs, t, Made(t, done + {p})))
           && (Resolvable(t) ==> r.Ok?))
  {
    hide Rebuilding, Rooted, Processed, Pending, DirMap, FileMap, LinkMap, InOrder, KidPaths, Msg, DirBlob,
      WithinPlan, Clear, Expected, FetchesOf, TargetsOf, FetchesFor, TargetsFor, KidDirs, KidFiles, DirsNamed,
      FilesNamed, AtDir, LinksReady, OnPlan, Orderly, Planned, PlanAt, FetchesPlanned, TargetsPlanned, Heeds, Tidy,
      DirsMade, LinksMade;
    ghost var was := files.entries;
    ghost var heeds := Heeds(plan, c, blobs, fetch) && Clear(plan, was);
    ghost var known := Expected(c, blobs, t, out, done, p, fetch);
    ghost var clean := known && Rebuilding(before, files.entries, out, blobs, t, Made(t, done));
    if heeds {
      WithinPlanAlready(plan, was);
      HeedsMeans(plan, c, blobs, fetch);
    }
    var decoded := c.decodeDirectory(data);
    if known { ExpectedResolves(c, blobs, t, out, done, p, fetch); }
    if decoded.None? { return Err(Decode); }
    var dir := decoded.value;
    if clean {
      PendingIsNext(t, done, p);
      MakingNext(before, files.entries, out, blobs, t, Made(t, done), p);
    }
    var ok := files.CreateDirAll(fetch.target);
    ghost var made := files.entries;
    if heeds { DirsOnPlan(plan, was, made, fetch.target); }
    if !ok { return Err(Io); }
    if known {
      ExpectedLinks(c, blobs, t, out, done, p, fetch, dir);
      CanonicalDirsNamed(c, t, p);
      CanonicalFilesNamed(c, t, p);
    }
    if known && Resolvable(t) { KidsDigested(c, t, p); }
    var fetches := ChildrenOf(dir, fetch.target);
    if fetches.Err? { return Err(fetches.error); }
    var targets := FilesOf(dir, fetch.target);
    if targets.Err? { return Err(targets.error); }
    if heeds { BelowOnPlan(plan, dir, fetch.target, fetches.value, targets.value); }
    if known {
      CanonicalFetches(c, t, out, p, fetches.value);
      CanonicalTargets(c, t, out, p, targets.value);
    }
    if heeds { WithinPlanIsClear(plan, was, made); }
    ok := MakeLinks(c, files, dir, fetch.target, plan, before, out, blobs, t, p, Made(t, done) + {p});
    if heeds { WithinPlanOn(plan, was, made, files.entries); }
    if !ok { return Err(Io); }
    r := Ok((fetches.value, targets.value));
  }

  lemma DirsOnPlan(plan: Plan, before: map<Path, Entry>, after: map<Path, Entry>, target: Route)
    requires Rooted(before) && Orderly(plan) && Clear(plan, before)
    requires Planned(plan, target) && PlanAt(plan, target) != FoundLink
    requires exists k :: 0 <= k <= |target| && DirsMade(before, target[..k]) == Some(after)
    ensures WithinPlan(plan, before, after)
  {
    hide Rooted, Orderly, Clear, Planned, PlanAt, DirsMade, WithinPlan;
    var k :| 0 <= k <= |target| && DirsMade(before, target[..k]) == Some(after);
    PlannedDir(plan, before, after, target, k);
  }

  /** An expected fetch finds the canonical message of its directory, unless it is of a mount. */
  lemma ExpectedResolves(c: Codec, blobs: map<string, Bytes>, t: Skel, out: Path, done: set<Path>, p: Path,
      fetch: Fetch)
    requires Expected(c, blobs, t, out, done, p, fetch) && fetch.digest.hash in blobs
    ensures fetch.target == out + p && Processed(t, done) && p in Pending(t, done) && Tidy(t)
    ensures Resolvable(t) ==> IsDir(t, p)
    ensures var decoded := c.decodeDirectory(blobs[fetch.digest.hash]);
      if IsDir(t, p) then decoded == Some(Msg(c, Sub(t, p).value)) else decoded == None
  {
    hide Msg;
    PendingResolves(c, t, done, p);
  }

  lemma ExpectedLinks(c: Codec, blobs: map<string, Bytes>, t: Skel, out: Path, done: set<Path>, p: Path, fetch: Fetch,
      dir: Directory)
    requires Expected(c, blobs, t, out, done, p, fetch) && IsDir(t, p) && dir == Msg(c, Sub(t, p).value)
    ensures AtDir(c, t, out, p, dir, fetch.target) && LinksReady(t, p, Made(t, done) + {p})
    ensures Made(t, done + {p}) == Made(t, done) + {p} + KidPaths(p, LinkMap(Sub(t, p).value).Keys)
  {
    hide Msg, LinkMap, KidPaths, Made;
    MadeMore(c, t, done, p);
  }

  lemma PendingResolves(c: Codec, t: Skel, done: set<Path>, p: Path)
    requires p in Pending(t, done)
    ensures IsDirectory(t, p) && p !in done && p in Paths(t)
    ensures Resolvable(t) ==> IsDir(t, p)
    ensures IsDir(t, p) ==> Dig(c, Sub(t, p).value) == Some(c.DigestOf(DirBlob(c, Sub(t, p).value)))
    ensures !IsDir(t, p) ==> Dig(c, Sub(t, p).value) == Sub(t, p).value.digest
  {
  }

  /** The directories at depth `k`, and those above. */
  ghost function Level(t: Skel, k: nat): set<Path> { set p | p in Paths(t) && IsDirectory(t, p) && |p| == k }

  ghost function Above(t: Skel, k: nat): set<Path> { set p | p in Paths(t) && IsDirectory(t, p) && |p| < k }

  lemma HasDirectory(t: Skel, p: Path)
    requires p != [] && Sub(t, p).Some?
    ensures IsDir(t, Parent(p)) && Parent(p) in Paths(t)
  {
    SubStep(t, Parent(p), Last(p));
    ChildOfParent(p);
    PathsAreInhabited(t, Parent(p));
  }

  /** Once all directories above depth `k` are processed, those at depth `k` are pending. */
  lemma PendingIsLevel(t: Skel, k: nat)
    ensures Pending(t, Above(t, k)) == Level(t, k)
    ensures Above(t, k + 1) == Above(t, k) + Level(t, k)
    ensures Above(t, 0) == {}
  {
    forall p | p in Paths(t) && IsDirectory(t, p) && p != []
      ensures Parent(p) in Above(t, k) <==> |p| - 1 < k
    {
      HasDirectory(t, p);
    }
  }

  /** With nothing pending, everything has been met. */
  lemma {:induction false} AllAbove(t: Skel, k: nat, p: Path)
    requires Level(t, k) == {} && p in Paths(t) && IsDirectory(t, p)
    ensures |p| < k
    decreases |p|
  {
    assert p in Level(t, k) <==> |p| == k;
    if |p| > k {
      PathsAreInhabited(t, p);
      HasDirectory(t, p);
      AllAbove(t, k, Parent(p));
    }
  }

  ghost function AllFiles(t: Skel): set<Path> { set p | p in Paths(t) && IsFile(t, p) }

  /** The file targets of the whole tree, each once. */
  ghost predicate AllTargets(t: Skel, out: Path, targets: seq<Target>, met: seq<Path>) {
    Enumerates(met, AllFiles(t)) && TargetsFor(t, out, targets, met)
  }

  lemma WalkStarts(c: Codec, t: Skel, out: Path, root: Digest)
    requires t.Directory?() && Dig(c, t) == Some(root)
    ensures Walking(c, t, out, {}, [[]], [Fetch(root, out)], [], [])
  {
    assert [] in Paths(t);
    assert out + [] == out;
    assert Pending(t, {}) == {[]};
    assert FilesMet(t, {}) == {};
  }

  lemma WalkEnds(c: Codec, t: Skel, out: Path, k: nat, met: seq<Path>, targets: seq<Target>)
    requires t.Directory?()
    requires Walking(c, t, out, Above(t, k), [], [], met, targets)
    ensures Resolvable(t) && AllTargets(t, out, targets, met) && Level(t, k) == {}
    ensures Made(t, Above(t, k)) + AllFiles(t) == Paths(t) && FilesReady(t, Made(t, Above(t, k)), AllFiles(t))
  {
    hide Walking, Level, Above, Paths, Enumerates, TargetsFor, FilesMet, Made, FilesReady, AllFiles, IsDirectory,
      IsFile;
    WalkEndsDirectories(c, t, out, k, met, targets);
    WalkEndsFiles(t, out, Above(t, k), met, targets);
    EverythingMet(t, Above(t, k));
    AllResolved(t, Above(t, k));
  }

  lemma AllResolved(t: Skel, done: set<Path>)
    requires forall p :: p in Paths(t) && IsDirectory(t, p) ==> p in done && IsDir(t, p)
    requires forall p :: p in AllFiles(t) ==> Sub(t, p).value.digest.Some?
    ensures Resolvable(t)
  {
    hide Paths, Sub;
    forall p | p in Paths(t) && IsFile(t, p) ensures p in AllFiles(t) {}
  }

  /** Once all directories are processed, there is nothing but them, their links and the files met. */
  lemma EverythingMet(t: Skel, done: set<Path>)
    requires forall p :: p in Paths(t) && IsDirectory(t, p) ==> p in done && IsDir(t, p)
    requires forall p :: p in Paths(t) && p != [] ==> Parent(p) in done && IsDir(t, Parent(p))
    requires forall p :: p in done ==> p in Paths(t) && IsDir(t, p)
    requires !IsFile(t, []) && !IsLink(t, [])
    ensures Made(t, done) + AllFiles(t) == Paths(t) && FilesReady(t, Made(t, done), AllFiles(t))
  {
    hide Paths;
    forall p ensures p in Paths(t) ==> IsDirectory(t, p) || IsFile(t, p) || IsLink(t, p) {
      PathsAreInhabited(t, p);
    }
  }

  lemma WalkEndsDirectories(c: Codec, t: Skel, out: Path, k: nat, met: seq<Path>, targets: seq<Target>)
    requires t.Directory?() && Walking(c, t, out, Above(t, k), [], [], met, targets)
    ensures Level(t, k) == {}
    ensures forall p :: p in Paths(t) && IsDirectory(t, p) ==> p in Above(t, k) && IsDir(t, p)
    ensures forall p :: p in Paths(t) && p != [] ==> Parent(p) in Above(t, k) && IsDir(t, Parent(p))
    ensures forall p :: p in Above(t, k) ==> p in Paths(t) && IsDir(t, p)
    ensures !IsFile(t, []) && !IsLink(t, [])
    ensures FilesMet(t, Above(t, k)) == AllFiles(t)
    ensures Enumerates(met, FilesMet(t, Above(t, k))) && TargetsFor(t, out, targets, met)
  {
    hide TargetsFor, FetchFor;
    PendingIsLevel(t, k);
    forall p | p in Paths(t)
      ensures IsDirectory(t, p) ==> p in Above(t, k) && IsDir(t, p)
      ensures p != [] ==> Parent(p) in Above(t, k) && IsDir(t, Parent(p))
    {
      PathsAreInhabited(t, p);
      if IsDirectory(t, p) { AllAbove(t, k, p); }
      if p != [] {
        HasDirectory(t, p);
        AllAbove(t, k, Parent(p));
      }
    }
  }

  lemma WalkEndsFiles(t: Skel, out: Path, done: set<Path>, met: seq<Path>, targets: seq<Target>)
    requires Enumerates(met, AllFiles(t)) && TargetsFor(t, out, targets, met)
    ensures forall p :: p in AllFiles(t) ==> Sub(t, p).value.digest.Some?
  {
    hide Sub, Paths;
    forall p | p in AllFiles(t) ensures Sub(t, p).value.digest.Some? {
      assert p in met;
      var i :| 0 <= i < |met| && met[i] == p;
      assert TargetFor(t, out, targets[i], met[i]);
    }
  }

  lemma Unfetchable(c: Codec, blobs: map<string, Bytes>, t: Skel, out: Path, fetches: seq<Fetch>, ps: seq<Path>,
      digests: seq<Digest>)
    requires Denotes(c, blobs, t) && FetchesFor(c, t, out, fetches, ps)
    requires |digests| == |fetches| && forall i :: 0 <= i < |fetches| ==> digests[i] == fetches[i].digest
    requires forall p :: p in ps ==> p in Paths(t)
    ensures Resolvable(t) ==> AllThere(blobs, digests)
  {
    if Resolvable(t) {
      forall i | 0 <= i < |digests| ensures digests[i].hash in blobs {
        assert ps[i] in ps && FetchFor(c, t, out, fetches[i], ps[i]);
        assert DenotesAt(c, blobs, t, ps[i]);
      }
    }
  }

  lemma WalkHead(c: Codec, t: Skel, out: Path, done: set<Path>, todo: seq<Path>, fetches: seq<Fetch>,
      met: seq<Path>, targets: seq<Target>)
    requires Walking(c, t, out, done, todo, fetches, met, targets)
    ensures |todo| == |fetches| && (forall p :: p in todo ==> p in Pending(t, done) && p in Paths(t))
    ensures todo != [] ==> FetchFor(c, t, out, fetches[0], todo[0]) && todo[0] in Pending(t, done)
    ensures Processed(t, done) && FetchesFor(c, t, out, fetches, todo) && Enumerates(todo, Pending(t, done))
  {
    if todo != [] { assert todo[0] in todo; }
  }

  lemma Shift<T>(s: seq<T>, i: nat, next: seq<T>, more: seq<T>)
    requires i < |s|
    ensures (s[i..] + next)[0] == s[i] && (s[i..] + next)[1..] + more == s[i + 1..] + (next + more)
  {
  }

  lemma ShiftEnds<T>(s: seq<T>, next: seq<T>)
    ensures s[0..] + [] == s && s[|s|..] + next == next
  {
  }

  /** No chain of stored directories that starts at `hash` is longer than `n`. */
  ghost predicate Shallow(c: Codec, blobs: map<string, Bytes>, hash: string, n: nat)
    decreases n
  {
    hash in blobs && c.decodeDirectory(blobs[hash]).Some? ==>
      var nodes := c.decodeDirectory(blobs[hash]).value.directories;
      n > 0 && forall i :: 0 <= i < |nodes| && nodes[i].digest.Some? ==>
        Shallow(c, blobs, nodes[i].digest.value.hash, n - 1)
  }

  ghost predicate AllShallow(c: Codec, blobs: map<string, Bytes>, fetches: seq<Fetch>, n: nat) {
    forall i :: 0 <= i < |fetches| ==> Shallow(c, blobs, fetches[i].digest.hash, n)
  }

  /** What is below a fetched directory is less deep. */
  lemma BelowFetched(c: Codec, blobs: map<string, Bytes>, fetch: Fetch, n: nat, fetches: seq<Fetch>)
    requires Shallow(c, blobs, fetch.digest.hash, n) && fetch.digest.hash in blobs
    requires c.decodeDirectory(blobs[fetch.digest.hash]).Some?
    requires FetchesOf(c.decodeDirectory(blobs[fetch.digest.hash]).value, fetch.target, fetches)
    ensures n > 0 && AllShallow(c, blobs, fetches, n - 1)
  {
    hide JoinedTo;
  }

  lemma ShallowJoin(c: Codec, blobs: map<string, Bytes>, a: seq<Fetch>, b: seq<Fetch>, n: nat)
    requires AllShallow(c, blobs, a, n) && AllShallow(c, blobs, b, n)
    ensures AllShallow(c, blobs, a + b, n)
  {
    hide Shallow;
  }

  lemma PlannedJoin(plan: Plan, a: seq<Fetch>, b: seq<Fetch>, x: seq<Target>, y: seq<Target>)
    requires FetchesPlanned(plan, a) && FetchesPlanned(plan, b) && TargetsPlanned(plan, x) && TargetsPlanned(plan, y)
    ensures FetchesPlanned(plan, a + b) && TargetsPlanned(plan, x + y)
  {
    hide FetchPlanned, TargetPlanned;
  }

  /** The next of the frontier is expected. */
  lemma NextExpected(c: Codec, blobs: map<string, Bytes>, t: Skel, out: Path, done: set<Path>, ps: seq<Path>,
      nextPs: seq<Path>, frontier: seq<Fetch>, next: seq<Fetch>, met: seq<Path>, targets: seq<Target>, i: nat)
    requires i < |frontier| == |ps| && Denotes(c, blobs, t) && Tidy(t)
    requires Walking(c, t, out, done, ps[i..] + nextPs, frontier[i..] + next, met, targets)
    ensures Expected(c, blobs, t, out, done, ps[i], frontier[i])
  {
    hide FetchFor, Pending, Denotes, DenotesAt, Processed, Walking, Enumerates, FetchesFor, Tidy;
    Shift(frontier, i, next, []);
    Shift(ps, i, nextPs, []);
    WalkHead(c, t, out, done, ps[i..] + nextPs, frontier[i..] + next, met, targets);
    assert ps[i] in ps[i..] + nextPs;
    PathDenotes(c, blobs, t, ps[i]);
  }

  lemma WalkOn(c: Codec, t: Skel, out: Path, done: set<Path>, ps: seq<Path>, nextPs: seq<Path>, frontier: seq<Fetch>,
      next: seq<Fetch>, met: seq<Path>, targets: seq<Target>, i: nat, fetches: seq<Fetch>, files: seq<Target>)
    requires i < |frontier| == |ps| && IsDir(t, ps[i])
    requires Walking(c, t, out, done, ps[i..] + nextPs, frontier[i..] + next, met, targets)
    requires FetchesFor(c, t, out, fetches, KidDirs(c, t, ps[i])) && TargetsFor(t, out, files, KidFiles(t, ps[i]))
    ensures Walking(c, t, out, done + {ps[i]}, ps[i + 1..] + (nextPs + KidDirs(c, t, ps[i])),
      frontier[i + 1..] + (next + fetches), met + KidFiles(t, ps[i]), targets + files)
  {
    hide Walking, FetchesFor, TargetsFor, KidDirs, KidFiles;
    Shift(frontier, i, next, fetches);
    Shift(ps, i, nextPs, KidDirs(c, t, ps[i]));
    WalkStep(c, t, out, done, ps[i..] + nextPs, frontier[i..] + next, met, targets, fetches, files);
  }

  /** The frontier is what comes next of a tree that storage holds. */
  ghost predicate Frontier(c: Codec, blobs: map<string, Bytes>, t: Skel, out: Path, above: set<Path>, ps: seq<Path>,
      frontier: seq<Fetch>, met: seq<Path>, targets: seq<Target>)
  {
    Tidy(t) && Denotes(c, blobs, t) && Walking(c, t, out, above, ps, frontier, met, targets)
  }

  lemma FrontierCounts(c: Codec, blobs: map<string, Bytes>, t: Skel, out: Path, above: set<Path>, ps: seq<Path>,
      frontier: seq<Fetch>, met: seq<Path>, targets: seq<Target>)
    requires Frontier(c, blobs, t, out, above, ps, frontier, met, targets)
    ensures |ps| == |frontier| && Denotes(c, blobs, t) && Tidy(t)
    ensures Walking(c, t, out, above, ps[0..] + [], frontier[0..] + [], met, targets)
  {
    ShiftEnds(frontier, []);
    ShiftEnds(ps, []);
  }

  /** Fetches and targets are planned, and the plan reads storage. */
  ghost predicate AllPlanned(plan: Plan, c: Codec, blobs: map<string, Bytes>, fetches: seq<Fetch>,
      targets: seq<Target>)
  {
    && Orderly(plan) && plan.below == StoredIn(c, blobs)
    && FetchesPlanned(plan, fetches) && TargetsPlanned(plan, targets)
  }

  lemma NextHeeds(plan: Plan, c: Codec, blobs: map<string, Bytes>, frontier: seq<Fetch>, targets: seq<Target>, i: nat)
    requires AllPlanned(plan, c, blobs, frontier, targets) && i < |frontier|
    ensures Heeds(plan, c, blobs, frontier[i])
  {
    hide FetchPlanned, TargetsPlanned, Orderly;
  }

  lemma PlannedMore(plan: Plan, c: Codec, blobs: map<string, Bytes>, next: seq<Fetch>, targets: seq<Target>,
      fetches: seq<Fetch>, files: seq<Target>)
    requires AllPlanned(plan, c, blobs, next, targets)
    requires FetchesPlanned(plan, fetches) && TargetsPlanned(plan, files)
    ensures AllPlanned(plan, c, blobs, next + fetches, targets + files)
  {
    hide FetchesPlanned, TargetsPlanned, Orderly;
    PlannedJoin(plan, next, fetches, targets, files);
  }

  /** One round: places every directory of the frontier, and reports what is below them. */
  method PlaceLevel(c: Codec, files: Files, contents: map<string, Bytes>, frontier: seq<Fetch>, earlier: seq<Target>,
      ghost plan: Plan, ghost before: map<Path, Entry>, ghost out: Path, ghost blobs: map<string, Bytes>, ghost t: Skel,
      ghost above: set<Path>, ghost ps: seq<Path>, ghost metBefore: seq<Path>, ghost digests: seq<Digest>, ghost n: nat)
    returns (r: Result<(seq<Fetch>, seq<Target>), Error>, ghost nextPs: seq<Path>, ghost met: seq<Path>)
    requires Rooted(files.entries) && Fetched(blobs, digests, contents) && AllShallow(c, blobs, frontier, n)
    requires |digests| == |frontier| && forall i :: 0 <= i < |frontier| ==> digests[i] == frontier[i].digest
    modifies files
    ensures Rooted(files.entries)
    ensures AllPlanned(plan, c, blobs, frontier, earlier) && old(Clear(plan, files.entries)) ==>
      && WithinPlan(plan, old(files.entries), files.entries)
      && (r.Ok? ==> AllPlanned(plan, c, blobs, r.value.0, r.value.1))
    ensures r.Ok? && frontier != [] ==> n > 0 && AllShallow(c, blobs, r.value.0, n - 1)
    ensures Frontier(c, blobs, t, out, above, ps, frontier, metBefore, earlier) ==>
      && (r.Ok? ==> Frontier(c, blobs, t, out, above + ToSet(ps), nextPs, r.value.0, met, r.value.1))
      && (old(Rebuilding(before, files.entries, out, blobs, t, Made(t, above))) ==>
           && (r.Ok? ==> Rebuilding(before, files.entries, out, blobs, t, Made(t, above + ToSet(ps))))
           && (FetchedAll(digests, contents) && Resolvable(t) ==> r.Ok?))
  {
    hide Rebuilding, Rooted, Walking, Denotes, FetchesFor, TargetsFor, Made, Resolvable, IsDir, Fetched, FetchedAll,
      ToSet, WithinPlan, Expected, FetchesOf, TargetsOf, AllShallow, Shallow, AllPlanned, FetchesPlanned,
      TargetsPlanned, Clear, Heeds, KidDirs, KidFiles, Tidy, DirectoryPlaced;
    ghost var was := files.entries;
    ghost var heeds := AllPlanned(plan, c, blobs, frontier, earlier) && Clear(plan, was);
    ghost var known := Frontier(c, blobs, t, out, above, ps, frontier, metBefore, earlier);
    ghost var clean := known && Rebuilding(before, files.entries, out, blobs, t, Made(t, above));
    ghost var done := above;
    var next: seq<Fetch> := [];
    var targets := earlier;
    nextPs, met := [], metBefore;
    if known { FrontierCounts(c, blobs, t, out, above, ps, frontier, met, targets); }
    NoneDone(above, ps);
    if heeds {
      WithinPlanAlready(plan, was);
      PlannedStart(plan, c, blobs, frontier, earlier);
    }
    for i := 0 to |frontier|
      invariant Rooted(files.entries)
      invariant heeds ==> WithinPlan(plan, was, files.entries) && AllPlanned(plan, c, blobs, next, targets)
      invariant if i == 0 then next == [] else n > 0 && AllShallow(c, blobs, next, n - 1)
      invariant known ==> |ps| == |frontier| && done == above + ToSet(ps[..i])
      invariant known ==> Walking(c, t, out, done, ps[i..] + nextPs, frontier[i..] + next, met, targets)
      invariant clean ==> Rebuilding(before, files.entries, out, blobs, t, Made(t, done))
    {
      var fetch := frontier[i];
      ghost var p := if known then ps[i] else [];
      if known { NextExpected(c, blobs, t, out, done, ps, nextPs, frontier, next, met, targets, i); }
      if fetch.digest.hash !in contents {
        FetchedAllHas(digests, contents, i);
        return Err(BlobStatus(fetch.digest.hash)), nextPs, met;
      }
      FetchedHas(blobs, digests, contents, fetch.digest.hash);
      FrontierAt(c, blobs, frontier, n, i);
      ghost var now := files.entries;
      if heeds {
        WithinPlanIsClear(plan, was, now);
        NextHeeds(plan, c, blobs, frontier, earlier, i);
      }
      var placed := PlaceDirectory(c, files, contents[fetch.digest.hash], fetch, plan, before, out, blobs, t, done, p);
      if heeds { WithinPlanOn(plan, was, now, files.entries); }
      if placed.Err? { return Err(placed.error), nextPs, met; }
      BelowFetched(c, blobs, fetch, n, placed.value.0);
      NothingDeep(c, blobs, n - 1);
      ShallowJoin(c, blobs, next, placed.value.0, n - 1);
      if heeds { PlannedMore(plan, c, blobs, next, targets, placed.value.0, placed.value.1); }
      if known {
        WalkOn(c, t, out, done, ps, nextPs, frontier, next, met, targets, i, placed.value.0, placed.value.1);
        met := met + KidFiles(t, p);
        nextPs := nextPs + KidDirs(c, t, p);
        OneMoreDone(above, ps, i);
        done := done + {p};
      }
      next := next + placed.value.0;
      targets := targets + placed.value.1;
    }
    if known {
      ShiftEnds(frontier, next);
      ShiftEnds(ps, nextPs);
      EverythingDone(ps);
    }
    r := Ok((next, targets));
  }

  lemma PlannedStart(plan: Plan, c: Codec, blobs: map<string, Bytes>, frontier: seq<Fetch>, targets: seq<Target>)
    requires AllPlanned(plan, c, blobs, frontier, targets)
    ensures AllPlanned(plan, c, blobs, [], targets)
  {
    hide TargetsPlanned, Orderly;
  }

  lemma NothingDeep(c: Codec, blobs: map<string, Bytes>, n: nat)
    ensures AllShallow(c, blobs, [], n)
  {
  }

  lemma FrontierAt(c: Codec, blobs: map<string, Bytes>, frontier: seq<Fetch>, n: nat, i: nat)
    requires AllShallow(c, blobs, frontier, n) && i < |frontier|
    ensures Shallow(c, blobs, frontier[i].digest.hash, n)
  {
  }

  lemma NoneDone(above: set<Path>, ps: seq<Path>)
    ensures above + ToSet(ps[..0]) == above
  {
  }

  lemma OneMoreDone(above: set<Path>, ps: seq<Path>, i: nat)
    requires i < |ps|
    ensures above + ToSet(ps[..i + 1]) == above + ToSet(ps[..i]) + {ps[i]}
  {
    assert ps[..i + 1] == ps[..i] + [ps[i]];
  }

  lemma EverythingDone(ps: seq<Path>)
    ensures ToSet(ps[..|ps|]) == ToSet(ps)
  {
    assert ps[..|ps|] == ps;
  }

  /** The digest is that of a tree which storage holds. */
  ghost predicate RootOf(c: Codec, blobs: map<string, Bytes>, t: Skel, root: Digest) {
    t.Directory?() && Tidy(t) && Dig(c, t) == Some(root) && Denotes(c, blobs, t)
  }

  /** The rounds of a walk so far, and of one that came to its end. */
  ghost predicate Rounds(t: Skel, levels: seq<seq<Path>>) {
    forall k :: 0 <= k < |levels| ==> levels[k] != [] && Enumerates(levels[k], Level(t, k))
  }

  ghost predicate Levels(t: Skel, levels: seq<seq<Path>>) { Rounds(t, levels) && Level(t, |levels|) == {} }

  lemma RoundsMore(t: Skel, levels: seq<seq<Path>>, ps: seq<Path>)
    requires Rounds(t, levels) && Enumerates(ps, Pending(t, Above(t, |levels|))) && ps != []
    ensures Rounds(t, levels + [ps]) && Above(t, |levels|) + ToSet(ps) == Above(t, |levels + [ps]|)
    ensures Above(t, |levels|) + ToSet(ps) == Above(t, |levels| + 1)
  {
    hide Level, Above, Enumerates, Pending;
    LevelDone(t, |levels|, ps);
  }

  lemma StartsFrontier(c: Codec, blobs: map<string, Bytes>, t: Skel, out: Path, root: Digest)
    requires RootOf(c, blobs, t, root)
    ensures Frontier(c, blobs, t, out, Above(t, 0), [[]], [Fetch(root, out)], [], []) && Rounds(t, [])
  {
    hide Walking, Denotes, Tidy;
    PendingIsLevel(t, 0);
    WalkStarts(c, t, out, root);
  }

  /** The plan of a download by root digest. */
  ghost function RootPlan(c: Codec, blobs: map<string, Bytes>, root: Digest, out: Path): Plan {
    Plan(StoredIn(c, blobs), StoredIn(c, blobs)(root.hash), out)
  }

  lemma StartsPlanned(c: Codec, blobs: map<string, Bytes>, out: Path, root: Digest, n: nat)
    requires Shallow(c, blobs, root.hash, n)
    ensures AllShallow(c, blobs, [Fetch(root, out)], n)
    ensures var plan := RootPlan(c, blobs, root, out);
      Orderly(plan) ==> AllPlanned(plan, c, blobs, [Fetch(root, out)], [])
  {
    hide Shallow, Orderly;
    PlannedRoot(RootPlan(c, blobs, root, out));
  }

  lemma FrontierUnfetchable(c: Codec, blobs: map<string, Bytes>, t: Skel, out: Path, above: set<Path>, ps: seq<Path>,
      frontier: seq<Fetch>, met: seq<Path>, targets: seq<Target>, digests: seq<Digest>)
    requires Frontier(c, blobs, t, out, above, ps, frontier, met, targets)
    requires |digests| == |frontier| && forall i :: 0 <= i < |frontier| ==> digests[i] == frontier[i].digest
    ensures Resolvable(t) ==> AllThere(blobs, digests)
    ensures |ps| == |frontier| && Enumerates(ps, Pending(t, above))
  {
    hide Walking, Denotes, Resolvable, Enumerates, FetchesFor, FetchFor, Pending;
    WalkHead(c, t, out, above, ps, frontier, met, targets);
    Unfetchable(c, blobs, t, out, frontier, ps, digests);
  }

  lemma FrontierEnds(c: Codec, blobs: map<string, Bytes>, t: Skel, out: Path, k: nat, ps: seq<Path>,
      met: seq<Path>, targets: seq<Target>)
    requires t.Directory?() && Frontier(c, blobs, t, out, Above(t, k), ps, [], met, targets)
    ensures Resolvable(t) && AllTargets(t, out, targets, met) && Level(t, k) == {}
    ensures Made(t, Above(t, k)) + AllFiles(t) == Paths(t) && FilesReady(t, Made(t, Above(t, k)), AllFiles(t))
  {
    hide Walking, Denotes;
    WalkHead(c, t, out, Above(t, k), ps, [], met, targets);
    assert ps == [];
    WalkEnds(c, t, out, k, met, targets);
  }

  /** One round: fetches the frontier and places it. */
  method FetchLevel(client: RemoteClient, files: Files, frontier: seq<Fetch>, earlier: seq<Target>,
      ghost plan: Plan, ghost before: map<Path, Entry>, ghost out: Path, ghost t: Skel, ghost levels: seq<seq<Path>>,
      ghost ps: seq<Path>, ghost metBefore: seq<Path>, ghost n: nat)
    returns (r: Result<(seq<Fetch>, seq<Target>), Error>, ghost nextPs: seq<Path>, ghost met: seq<Path>)
    requires Rooted(files.entries) && AllShallow(client.server.c, client.server.blobs, frontier, n) && frontier != []
    modifies files, client.server`log
    ensures Rooted(files.entries)
    ensures AllPlanned(plan, client.server.c, client.server.blobs, frontier, earlier) ==>
      old(WithinPlan(plan, before, files.entries)) ==>
      && WithinPlan(plan, before, files.entries)
      && (r.Ok? ==> AllPlanned(plan, client.server.c, client.server.blobs, r.value.0, r.value.1))
    ensures r.Ok? ==> n > 0 && AllShallow(client.server.c, client.server.blobs, r.value.0, n - 1)
    ensures Rounds(t, levels) ==>
      Frontier(client.server.c, client.server.blobs, t, out, Above(t, |levels|), ps, frontier, metBefore, earlier) ==>
      && (r.Ok? ==>
           && Rounds(t, levels + [ps])
           && Frontier(client.server.c, client.server.blobs, t, out, Above(t, |levels| + 1), nextPs, r.value.0, met,
                       r.value.1))
      && (old(Rebuilding(before, files.entries, out, client.server.blobs, t, Made(t, Above(t, |levels|)))) ==>
           && (r.Ok? ==>
                Rebuilding(before, files.entries, out, client.server.blobs, t, Made(t, Above(t, |levels| + 1))))
           && (client.server.reliable && Resolvable(t) ==> r.Ok?))
  {
    hide Rebuilding, Rooted, Level, Above, Made, Enumerates, Resolvable, AllThere, Fetched, FetchedAll, Frontier,
      WithinPlan, Clear, AllPlanned, AllShallow, Pending, Rounds, ToSet;
    var c := client.server.c;
    ghost var blobs, now := client.server.blobs, files.entries;
    ghost var heeds := AllPlanned(plan, c, blobs, frontier, earlier) && WithinPlan(plan, before, now);
    ghost var known := Rounds(t, levels)
      && Frontier(c, blobs, t, out, Above(t, |levels|), ps, frontier, metBefore, earlier);
    var digests := seq(|frontier|, i requires 0 <= i < |frontier| => frontier[i].digest);
    nextPs, met := [], metBefore;
    if known {
      FrontierUnfetchable(c, blobs, t, out, Above(t, |levels|), ps, frontier, metBefore, earlier, digests);
      RoundsMore(t, levels, ps);
    }
    var fetched := client.DownloadBlobs(digests);
    if fetched.Err? { return Err(fetched.error), nextPs, met; }
    if heeds { WithinPlanIsClear(plan, before, now); }
    r, nextPs, met := PlaceLevel(c, files, fetched.value, frontier, earlier, plan, before, out, blobs, t,
      Above(t, |levels|), ps, metBefore, digests, n);
    if heeds { WithinPlanOn(plan, before, now, files.entries); }
  }

  /** Makes all directories and links, one level of the tree a round, and collects the files
      to write.  Of a tree that storage holds, round `k` handles exactly the directories at depth
      `k`.  Where messages are neat and no link is in the way, nothing happens outside `out`. */
  method WalkLevels(client: RemoteClient, files: Files, root: Digest, out: Path, ghost depth: nat, ghost t: Skel)
    returns (r: Result<seq<Target>, Error>, ghost met: seq<Path>, ghost levels: seq<seq<Path>>)
    requires Rooted(files.entries) && Shallow(client.server.c, client.server.blobs, root.hash, depth)
    modifies files, client.server`log
    ensures Rooted(files.entries)
    ensures var plan := RootPlan(client.server.c, client.server.blobs, root, out);
      Orderly(plan) && old(Clear(plan, files.entries)) ==>
        && WithinPlan(plan, old(files.entries), files.entries)
        && (r.Ok? ==> TargetsPlanned(plan, r.value))
    ensures RootOf(client.server.c, client.server.blobs, t, root) && r.Ok? ==>
      && Resolvable(t) && AllTargets(t, out, r.value, met) && Levels(t, levels)
      && Made(t, Above(t, |levels|)) + AllFiles(t) == Paths(t)
      && FilesReady(t, Made(t, Above(t, |levels|)), AllFiles(t))
      && (old(Fresh(files.entries, out)) ==>
           Rebuilding(old(files.entries), files.entries, out, client.server.blobs, t, Made(t, Above(t, |levels|))))
    ensures RootOf(client.server.c, client.server.blobs, t, root) && client.server.reliable ==>
      old(Fresh(files.entries, out)) ==> (r.Ok? <==> Resolvable(t))
  {
    hide *;
    var c := client.server.c;
    ghost var blobs, before := client.server.blobs, files.entries;
    ghost var plan := RootPlan(c, blobs, root, out);
    ghost var heeds := Orderly(plan) && Clear(plan, before);
    ghost var known := RootOf(c, blobs, t, root);
    ghost var clean := known && Fresh(files.entries, out);
    var frontier := [Fetch(root, out)];
    var targets: seq<Target> := [];
    ghost var ps: seq<Path>, n := [[]], depth;
    met, levels := [], [];
    StartsPlanned(c, blobs, out, root, n);
    if heeds { WithinPlanAlready(plan, before); }
    if known {
      StartsFrontier(c, blobs, t, out, root);
      PendingIsLevel(t, 0);
    }
    if clean { NothingMade(before, out, blobs, t, c, root); }
    while frontier != []
      invariant Rooted(files.entries) && AllShallow(c, blobs, frontier, n)
      invariant heeds ==> WithinPlan(plan, before, files.entries) && AllPlanned(plan, c, blobs, frontier, targets)
      invariant known ==> Frontier(c, blobs, t, out, Above(t, |levels|), ps, frontier, met, targets)
      invariant known ==> Rounds(t, levels)
      invariant clean ==> Rebuilding(before, files.entries, out, blobs, t, Made(t, Above(t, |levels|)))
      decreases n
    {
      ghost var nextPs, nowMet;
      var placed: Result<(seq<Fetch>, seq<Target>), Error>;
      placed, nextPs, nowMet := FetchLevel(client, files, frontier, targets, plan, before, out, t, levels, ps, met, n);
      if placed.Err? { return Err(placed.error), met, levels; }
      if known { levels := levels + [ps]; }
      met, ps, n := nowMet, nextPs, n - 1;
      frontier, targets := placed.value.0, placed.value.1;
    }
    if heeds { AllTargetsPlanned(plan, c, blobs, frontier, targets); }
    if known {
      RootIsDirectory(c, blobs, t, root);
      FrontierEnds(c, blobs, t, out, |levels|, ps, met, targets);
      LevelsEnd(t, levels);
    }
    r := Ok(targets);
  }

  lemma LevelsEnd(t: Skel, levels: seq<seq<Path>>)
    requires Rounds(t, levels) && Level(t, |levels|) == {}
    ensures Levels(t, levels)
  {
  }

  lemma AllTargetsPlanned(plan: Plan, c: Codec, blobs: map<string, Bytes>, frontier: seq<Fetch>, targets: seq<Target>)
    requires AllPlanned(plan, c, blobs, frontier, targets)
    ensures TargetsPlanned(plan, targets)
  {
  }

  lemma RootIsDirectory(c: Codec, blobs: map<string, Bytes>, t: Skel, root: Digest)
    requires RootOf(c, blobs, t, root)
    ensures t.Directory?()
  {
  }

  lemma NothingMade(before: map<Path, Entry>, out: Path, blobs: map<string, Bytes>, t: Skel, c: Codec, root: Digest)
    requires Fresh(before, out) && RootOf(c, blobs, t, root)
    ensures Rebuilding(before, before, out, blobs, t, Made(t, {}))
  {
    NothingShown(before, out, blobs, t);
    assert Made(t, {}) == {};
  }

  lemma PathDenotes(c: Codec, blobs: map<string, Bytes>, t: Skel, p: Path)
    requires Denotes(c, blobs, t) && p in Paths(t)
    ensures DenotesAt(c, blobs, t, p)
  {
  }

  lemma FetchedHas(blobs: map<string, Bytes>, digests: seq<Digest>, contents: map<string, Bytes>, h: string)
    requires Fetched(blobs, digests, contents) && h in contents
    ensures h in blobs && contents[h] == blobs[h]
  {
  }

  lemma FetchedAllHas(digests: seq<Digest>, contents: map<string, Bytes>, i: nat)
    requires i < |digests|
    ensures FetchedAll(digests, contents) ==> digests[i].hash in contents
  {
  }

  lemma LevelDone(t: Skel, k: nat, ps: seq<Path>)
    requires Enumerates(ps, Pending(t, Above(t, k))) && ps != []
    ensures Enumerates(ps, Level(t, k)) && ps[..|ps|] == ps
    ensures Above(t, k) + ToSet(ps) == Above(t, k + 1)
  {
    PendingIsLevel(t, k);
  }

  /** All of the tree can be fetched: every directory and the content of every file. */
  ghost predicate Complete(blobs: map<string, Bytes>, t: Skel) {
    && Resolvable(t)
    && forall p :: p in AllFiles(t) ==> Sub(t, p).value.digest.value.hash in blobs
  }

  lemma ContentThere(blobs: map<string, Bytes>, t: Skel, out: Path, targets: seq<Target>, met: seq<Path>)
    requires Resolvable(t) && AllTargets(t, out, targets, met)
    ensures TargetsThere(blobs, targets) <==> Complete(blobs, t)
  {
    if TargetsThere(blobs, targets) {
      forall p | p in AllFiles(t) ensures Sub(t, p).value.digest.value.hash in blobs {
        assert p in met;
        var i :| 0 <= i < |met| && met[i] == p;
        assert TargetFor(t, out, targets[i], met[i]);
      }
    }
    if Complete(blobs, t) {
      forall i | 0 <= i < |targets| ensures targets[i].digest.hash in blobs {
        assert TargetFor(t, out, targets[i], met[i]);
        assert met[i] in met;
      }
    }
  }

  /** The tree stands at `out`, and nothing else has changed but that `out` can be reached. */
  ghost predicate Rebuilt(before: map<Path, Entry>, after: map<Path, Entry>, out: Path,
      blobs: map<string, Bytes>, t: Skel)
  {
    Shows(before, after, out, blobs, t, Paths(t))
  }

  /** What stands for an entry of the tree: a file has its content from storage, and the mode that says
      whether it may be executed. */
  ghost predicate StandsAt(blobs: map<string, Bytes>, t: Skel, entries: map<Path, Entry>, out: Path, p: Path) {
    match (Sub(t, p), Get(entries, out + p))
    case (None, None) => true
    case (Some(SFile(Some(digest), exec)), Some(EFile(content, mode))) =>
      && digest.hash in blobs && content == blobs[digest.hash]
      && mode == if exec then 0x1ED else 0x1A4
    case (Some(SLink(target)), Some(ELink(made))) => made == target
    case (Some(SDir(_)), Some(EDir)) => true
    case _ => false
  }

  /** At and below `out` there is the tree and nothing else. */
  ghost predicate Stands(blobs: map<string, Bytes>, t: Skel, entries: map<Path, Entry>, out: Path) {
    forall p :: StandsAt(blobs, t, entries, out, p)
  }

  lemma RebuiltStands(before: map<Path, Entry>, after: map<Path, Entry>, out: Path, blobs: map<string, Bytes>, t: Skel)
    requires Rebuilt(before, after, out, blobs, t) && Fresh(before, out) && Complete(blobs, t)
    ensures Stands(blobs, t, after, out)
  {
    forall p ensures StandsAt(blobs, t, after, out, p) {
      RebuiltStandsAt(before, after, out, blobs, t, p);
    }
  }

  /** Once all of the tree is shown, it stands. */
  lemma RebuildingEnds(before: map<Path, Entry>, after: map<Path, Entry>, out: Path, blobs: map<string, Bytes>,
      t: Skel, shown: set<Path>)
    requires Rebuilding(before, after, out, blobs, t, shown) && shown == Paths(t) && Complete(blobs, t)
    ensures Rebuilt(before, after, out, blobs, t) && Stands(blobs, t, after, out)
  {
    hide Stands, Complete, Fresh, Shows, Closed;
    RebuiltStands(before, after, out, blobs, t);
  }

  lemma RebuiltStandsAt(before: map<Path, Entry>, after: map<Path, Entry>, out: Path, blobs: map<string, Bytes>,
      t: Skel, p: Path)
    requires Rebuilt(before, after, out, blobs, t) && Fresh(before, out) && Complete(blobs, t)
    ensures StandsAt(blobs, t, after, out, p)
  {
    hide Sub, Paths;
    RelativeTo(out, p);
    PathsAreInhabited(t, p);
    RootIsAPath(t);
    assert Get(after, out + p) == Seen(before, out, blobs, t, Paths(t), out + p);
    if Sub(t, p).Some? && Sub(t, p).value.SFile? { assert p in AllFiles(t); }
    if out + p <= out { assert p == []; }
  }

  lemma RootIsAPath(t: Skel)
    ensures [] in Paths(t) && Sub(t, []) == Some(t)
  {
  }

  /** The files of the tree, each once, in some order. */
  ghost predicate FilesCollected(t: Skel, out: Path, targets: seq<Target>) {
    exists met :: AllTargets(t, out, targets, met)
  }

  /** Rebuilds what a root digest stands for at `out`.  Where messages are neat and no link is at,
      above or below `out`, it changes nothing elsewhere.  If storage holds a tree, then in a fresh
      place, and with a server that answers, it succeeds exactly when storage holds everything in
      the tree, which then stands there. */
  method DownloadFromRoot(client: RemoteClient, files: Files, root: Digest, out: Path, ghost depth: nat, ghost t: Skel)
    returns (r: Result<(), Error>, ghost targets: seq<Target>)
    requires Rooted(files.entries) && Shallow(client.server.c, client.server.blobs, root.hash, depth)
    modifies files, client.server`log
    ensures Rooted(files.entries)
    ensures Orderly(RootPlan(client.server.c, client.server.blobs, root, out)) && old(Unlinked(files.entries, out)) ==>
      Confined(old(files.entries), files.entries, out)
    ensures RootOf(client.server.c, client.server.blobs, t, root) ==>
      && (r.Ok? ==> Complete(client.server.blobs, t) && FilesCollected(t, out, targets))
      && (r.Ok? && old(Fresh(files.entries, out)) ==>
           Rebuilt(old(files.entries), files.entries, out, client.server.blobs, t))
      && (r.Ok? && old(Fresh(files.entries, out)) ==> Stands(client.server.blobs, t, files.entries, out))
      && (client.server.reliable && old(Fresh(files.entries, out)) ==>
           (r.Ok? <==> Complete(client.server.blobs, t)))
  {
    hide Stands, Rebuilt, Rebuilding, Rooted, AllTargets, Fresh, Shows, TargetsThere, Closed, Clear, Orderly, RootPlan,
      TargetsPlanned, RootOf, FilesFor, Complete, Resolvable, Shallow, Levels, Unlinked, WithinPlan, Tidy;
    ghost var before := files.entries;
    ghost var plan := RootPlan(client.server.c, client.server.blobs, root, out);
    ghost var heeds := Orderly(plan) && Unlinked(before, out);
    ghost var met, levels;
    if heeds { PlanStarts(client.server.c, client.server.blobs, root, out, before); }
    targets := [];
    var walked: Result<seq<Target>, Error>;
    walked, met, levels := WalkLevels(client, files, root, out, depth, t);
    ghost var now := files.entries;
    if heeds { WithinPlanMeans(client.server.c, client.server.blobs, root, out, before, now); }
    NotResolvable(client.server.blobs, t);
    if walked.Err? { return Err(walked.error), targets; }
    targets := walked.value;
    if RootOf(client.server.c, client.server.blobs, t, root) {
      ContentThere(client.server.blobs, t, out, targets, met);
      AllTargetsReady(t, out, targets, Made(t, Above(t, |levels|)), met);
    }
    r := WriteFiles(client, files, walked.value, plan, before, out, t, Made(t, Above(t, |levels|)), met, AllFiles(t));
    if RootOf(client.server.c, client.server.blobs, t, root) && r.Ok? && Fresh(before, out) {
      RebuildingEnds(before, files.entries, out, client.server.blobs, t, Made(t, Above(t, |levels|)) + AllFiles(t));
    }
    if heeds {
      WithinPlanOn(plan, before, now, files.entries);
      WithinPlanMeans(client.server.c, client.server.blobs, root, out, before, files.entries);
    }
  }

  lemma PlanStarts(c: Codec, blobs: map<string, Bytes>, root: Digest, out: Path, before: map<Path, Entry>)
    requires Unlinked(before, out)
    ensures Clear(RootPlan(c, blobs, root, out), before)
  {
    hide Clear;
    UnlinkedIsClear(RootPlan(c, blobs, root, out), before);
  }

  lemma WithinPlanMeans(c: Codec, blobs: map<string, Bytes>, root: Digest, out: Path, before: map<Path, Entry>,
      after: map<Path, Entry>)
    requires WithinPlan(RootPlan(c, blobs, root, out), before, after)
    ensures Confined(before, after, out) && Clear(RootPlan(c, blobs, root, out), after)
  {
    hide Confined, Clear;
  }

  lemma NotResolvable(blobs: map<string, Bytes>, t: Skel)
    ensures Complete(blobs, t) ==> Resolvable(t)
  {
  }

  lemma AllTargetsReady(t: Skel, out: Path, targets: seq<Target>, shown: set<Path>, met: seq<Path>)
    requires AllTargets(t, out, targets, met) && FilesReady(t, shown, AllFiles(t))
    ensures FilesFor(t, out, targets, shown, met, AllFiles(t)) && FilesCollected(t, out, targets)
  {
  }

  // ---------------------------------------------------------------- how deep a tree is

  ghost function Most(ns: set<nat>): (m: nat)
    ensures forall n :: n in ns ==> n <= m
  {
    if ns == {} then 0
    else
      var n :| n in ns;
      var m := Most(ns - {n});
      assert forall x :: x in ns ==> x == n || x in ns - {n};
      if n <= m then m else n
  }

  /** How many directories lie on the longest path into a tree. */
  ghost function Height(t: Skel): (h: nat)
    ensures t.SDir? ==> forall k :: k in t.kids ==> Height(t.kids[k]) < h
  {
    if !t.SDir? then 0
    else
      var hs := set k | k in t.kids :: Height(t.kids[k]);
      assert forall k :: k in t.kids ==> Height(t.kids[k]) in hs;
      1 + Most(hs)
  }

  /** Chains of stored directories are no longer than the tree they belong to is high. */
  lemma {:induction false} TreeIsShallow(c: Codec, blobs: map<string, Bytes>, t: Skel, p: Path, digest: Digest, n: nat)
    requires Denotes(c, blobs, t) && IsDirectory(t, p) && Dig(c, Sub(t, p).value) == Some(digest)
    requires Height(Sub(t, p).value) <= n
    ensures Shallow(c, blobs, digest.hash, n)
    decreases n
  {
    hide Denotes, DirMap, Msg, InOrder, Sub, Paths;
    PathsAreInhabited(t, p);
    PathDenotes(c, blobs, t, p);
    if IsDir(t, p) {
      DirDigest(c, Sub(t, p).value);
      var nodes := Msg(c, Sub(t, p).value).directories;
      forall i | 0 <= i < |nodes| && nodes[i].digest.Some?
        ensures n > 0 && Shallow(c, blobs, nodes[i].digest.value.hash, n - 1)
      {
        DirNodeAt(c, t, p, i);
        var q := Child(p, InOrder(DirMap(c, Sub(t, p).value).Keys)[i]);
        ChildParts(p, InOrder(DirMap(c, Sub(t, p).value).Keys)[i]);
        KidAt(t, p, q);
        TreeIsShallow(c, blobs, t, q, nodes[i].digest.value, n - 1);
      }
    } else {
      assert Dig(c, Sub(t, p).value) == Sub(t, p).value.digest;
    }
  }

  lemma DirDigest(c: Codec, s: Skel)
    requires s.SDir?
    ensures Dig(c, s) == Some(c.DigestOf(DirBlob(c, s))) && Height(s) > 0
  {
  }

  /** So a tree that storage holds meets the demand of a download. */
  lemma RootIsShallow(c: Codec, blobs: map<string, Bytes>, t: Skel, root: Digest)
    requires RootOf(c, blobs, t, root)
    ensures Shallow(c, blobs, root.hash, Height(t))
  {
    assert Sub(t, []).value == t;
    TreeIsShallow(c, blobs, t, [], root, Height(t));
  }
}
