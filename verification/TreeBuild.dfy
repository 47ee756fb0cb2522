/** `build_directory`: from a listing to its `Directory` messages and digests. */
module TreeBuild {
  import opened Names
  import opened Messages
  import opened Merkle
  import opened Canon
  import opened Disk

  datatype Built = Built(
    directory: Directory, digest: Digest, descendants: seq<Directory>, fileBlobs: seq<Blob>)

  /** The skeleton re-memoize digests for a directory with these entries. */
  ghost function Skeleton(c: Codec, es: seq<Named>): (t: Skel)
    ensures t.SDir?
  {
    Digested(c, Memoize(), Dir(ViewEntries(es)))
  }

  /** Messages of all proper sub-directories, each followed by its own. */
  ghost function Descendants(c: Codec, es: seq<Named>): seq<Directory>
    decreases es, 1
  {
    if es == [] then [] else Descendants(c, es[..|es| - 1]) + DescendantsOf(c, es[|es| - 1].item)
  }

  ghost function DescendantsOf(c: Codec, item: Listing): seq<Directory>
    decreases item, 0
  {
    if item.OnDir? then [Msg(c, Skeleton(c, item.entries))] + Descendants(c, item.entries) else []
  }

  function FileBlobs(c: Codec, es: seq<Named>): seq<Blob>
    decreases es, 1
  {
    if es == [] then [] else FileBlobs(c, es[..|es| - 1]) + FileBlobsOf(c, es[|es| - 1].item)
  }

  function FileBlobsOf(c: Codec, item: Listing): seq<Blob>
    decreases item, 0
  {
    match item
    case OnFile(content, _) => [c.BlobOf(content)]
    case OnLink(_) => []
    case OnDir(es) => FileBlobs(c, es)
  }

  ghost function BuiltOf(c: Codec, es: seq<Named>): Built {
    var d := Msg(c, Skeleton(c, es));
    Built(d, c.DigestOf(c.encodeDirectory(d)), Descendants(c, es), FileBlobs(c, es))
  }

  lemma SkeletonStep(c: Codec, es: seq<Named>, i: nat)
    requires i < |es| && DistinctNames(es)
    ensures es[i].name !in Skeleton(c, es[..i]).kids
    ensures Skeleton(c, es[..i + 1]).kids ==
      Skeleton(c, es[..i]).kids[es[i].name := Digested(c, Memoize(), View(es[i].item))]
  {
    ViewEntriesKeys(es[..i], es[i].name);
    assert es[..i + 1][..i] == es[..i];
  }

  /** The three node lists, in the order of the listing, of the entries seen so far. */
  ghost predicate Collected(c: Codec, t: Skel,
      files: seq<FileNode>, directories: seq<DirectoryNode>, symlinks: seq<SymlinkNode>)
    requires t.SDir?
  {
    && Lists(files, FileName, FileMap(t))
    && Lists(directories, DirectoryName, DirMap(c, t))
    && Lists(symlinks, SymlinkName, LinkMap(t))
  }

  lemma FileMapStep(t: Skel, t': Skel, name: string, kid: Skel)
    requires t.SDir? && t'.SDir? && name !in t.kids && t'.kids == t.kids[name := kid]
    ensures name !in FileMap(t)
    ensures FileMap(t') ==
      if kid.SFile? then FileMap(t)[name := FileNode(name, kid.digest, kid.exec)] else FileMap(t)
  {
    hide FileMap;
  }

  lemma DirMapStep(c: Codec, t: Skel, t': Skel, name: string, kid: Skel)
    requires t.SDir? && t'.SDir? && name !in t.kids && t'.kids == t.kids[name := kid]
    ensures name !in DirMap(c, t)
    ensures DirMap(c, t') ==
      if kid.Directory?() then DirMap(c, t)[name := DirectoryNode(name, Dig(c, kid))] else DirMap(c, t)
  {
    hide DirMap, Dig;
  }

  lemma LinkMapStep(t: Skel, t': Skel, name: string, kid: Skel)
    requires t.SDir? && t'.SDir? && name !in t.kids && t'.kids == t.kids[name := kid]
    ensures name !in LinkMap(t)
    ensures LinkMap(t') ==
      if kid.SLink? then LinkMap(t)[name := SymlinkNode(name, kid.target)] else LinkMap(t)
  {
    hide LinkMap;
  }

  /** Appending an entry's node to the list of its kind. */
  lemma CollectedStep(c: Codec, t: Skel, t': Skel, name: string, kid: Skel,
      files: seq<FileNode>, directories: seq<DirectoryNode>, symlinks: seq<SymlinkNode>)
    requires t.SDir? && t'.SDir? && name !in t.kids && t'.kids == t.kids[name := kid]
    requires Collected(c, t, files, directories, symlinks)
    ensures Collected(c, t',
      if kid.SFile? then files + [FileNode(name, kid.digest, kid.exec)] else files,
      if kid.Directory?() then directories + [DirectoryNode(name, Dig(c, kid))] else directories,
      if kid.SLink? then symlinks + [SymlinkNode(name, kid.target)] else symlinks)
  {
    hide FileMap, DirMap, LinkMap, Dig, Lists;
    FileMapStep(t, t', name, kid);
    DirMapStep(c, t, t', name, kid);
    LinkMapStep(t, t', name, kid);
    match kid
    case SFile(_, _) => ListsMore(files, FileName, FileMap(t), FileNode(name, kid.digest, kid.exec));
    case SLink(_) => ListsMore(symlinks, SymlinkName, LinkMap(t), SymlinkNode(name, kid.target));
    case _ => ListsMore(directories, DirectoryName, DirMap(c, t), DirectoryNode(name, Dig(c, kid)));
  }

  lemma CollectedSorts(c: Codec, t: Skel,
      files: seq<FileNode>, directories: seq<DirectoryNode>, symlinks: seq<SymlinkNode>)
    requires t.SDir? && Collected(c, t, files, directories, symlinks)
    ensures Directory(SortBy(files, FileName), SortBy(directories, DirectoryName),
                      SortBy(symlinks, SymlinkName)) == Msg(c, t)
  {
    SortByForgetsOrder(files, FileName, FileMap(t));
    SortByForgetsOrder(directories, DirectoryName, DirMap(c, t));
    SortByForgetsOrder(symlinks, SymlinkName, LinkMap(t));
  }

  lemma NothingBuilt(c: Codec)
    ensures Collected(c, Skeleton(c, []), [], [], [])
    ensures Descendants(c, []) == [] && FileBlobs(c, []) == []
  {
  }

  /** What one entry of a listing adds to the skeleton, the flattened list and the blobs. */
  lemma BuiltStep(c: Codec, es: seq<Named>, i: nat)
    requires i < |es| && DistinctNames(es)
    ensures es[i].name !in Skeleton(c, es[..i]).kids
    ensures Skeleton(c, es[..i + 1]).kids ==
      Skeleton(c, es[..i]).kids[es[i].name := Digested(c, Memoize(), View(es[i].item))]
    ensures Descendants(c, es[..i + 1]) == Descendants(c, es[..i]) + DescendantsOf(c, es[i].item)
    ensures FileBlobs(c, es[..i + 1]) == FileBlobs(c, es[..i]) + FileBlobsOf(c, es[i].item)
  {
    SkeletonStep(c, es, i);
    assert es[..i + 1][..i] == es[..i];
  }

  /** The node an entry contributes to its directory's message. */
  lemma EntryNode(c: Codec, item: Listing)
    ensures match Digested(c, Memoize(), View(item))
      case SFile(d, x) => item.OnFile? && d == Some(c.DigestOf(item.content)) && x == OwnerExec(item.mode)
      case SLink(target) => item.OnLink? && target == item.target
      case SMount(_) => false
      case SDir(_) =>
        && item.OnDir?
        && Dig(c, Digested(c, Memoize(), View(item))) == Some(BuiltOf(c, item.entries).digest)
  {
  }

  /** The message tells of the tree as re-memoize sees it, and the digest is that of the message. */
  ghost predicate BuiltFrom(c: Codec, n: Node, built: Built) {
    && InNameOrder(built.directory)
    && (exists t: Skel :: t.SDir? && Sees(c, t, n) && Tells(c, built.directory, t))
    && built.digest ==
         Digest(c.hash(c.encodeDirectory(built.directory)), |c.encodeDirectory(built.directory)|)
  }

  lemma BuiltTells(c: Codec, l: Listing, n: Node)
    requires l.OnDir? && Digested(c, Memoize(), n) == Digested(c, Memoize(), View(l))
    ensures BuiltFrom(c, n, BuiltOf(c, l.entries))
  {
    var t := Skeleton(c, l.entries);
    assert t == Digested(c, Memoize(), View(l));
    hide Sees, Tells, Msg, Skeleton, Digested, InNameOrder;
    SeesExactly(c, t, n);
    TellsExactly(c, Msg(c, t), t);
    MsgLists(c, t);
  }

  method BuildDirectory(c: Codec, l: Listing) returns (built: Built)
    requires l.OnDir? && WellFormed(l)
    ensures built == BuiltOf(c, l.entries)
    ensures BuiltFrom(c, View(l), built)
    decreases l
  {
    hide Collected, Msg, Skeleton, Dig, Descendants, FileBlobs, View, Digested, BuiltFrom;
    var es := l.entries;
    var files, directories, symlinks := [], [], [];
    var descendants, fileBlobs := [], [];
    NothingBuilt(c);
    assert es[..0] == [];
    for i := 0 to |es|
      invariant Collected(c, Skeleton(c, es[..i]), files, directories, symlinks)
      invariant descendants == Descendants(c, es[..i])
      invariant fileBlobs == FileBlobs(c, es[..i])
    {
      var name := es[i].name;
      ghost var kid := Digested(c, Memoize(), View(es[i].item));
      BuiltStep(c, es, i);
      EntryNode(c, es[i].item);
      CollectedStep(c, Skeleton(c, es[..i]), Skeleton(c, es[..i + 1]), name, kid,
                    files, directories, symlinks);
      match es[i].item {
        case OnLink(target) =>
          symlinks := symlinks + [SymlinkNode(name, target)];
        case OnDir(sub) =>
          assert es[i] in l.entries;
          var below := BuildDirectory(c, es[i].item);
          directories := directories + [DirectoryNode(name, Some(below.digest))];
          descendants := descendants + [below.directory];
          descendants := descendants + below.descendants;
          fileBlobs := fileBlobs + below.fileBlobs;
        case OnFile(content, mode) =>
          var blob := c.BlobOf(content);
          fileBlobs := fileBlobs + [blob];
          files := files + [FileNode(name, Some(blob.digest), OwnerExec(mode))];
      }
    }
    assert es[..|es|] == es;
    CollectedSorts(c, Skeleton(c, es), files, directories, symlinks);
    files := SortBy(files, FileName);
    directories := SortBy(directories, DirectoryName);
    symlinks := SortBy(symlinks, SymlinkName);
    var directory := Directory(files, directories, symlinks);
    built := Built(directory, c.DigestOf(c.encodeDirectory(directory)), descendants, fileBlobs);
    BuiltTells(c, l, View(l));
  }

  lemma WellFormedParts(es: seq<Named>)
    requires es != [] && WellFormed(OnDir(es))
    ensures WellFormed(OnDir(es[..|es| - 1])) && WellFormed(es[|es| - 1].item)
    ensures forall i :: 0 <= i < |es| - 1 ==> es[i].name != es[|es| - 1].name
  {
    assert es[|es| - 1] in es;
  }

  /** The file blobs are exactly the contents of the tree's files, each under its own digest. */
  lemma {:induction false} FileBlobsAreContents(c: Codec, es: seq<Named>)
    requires WellFormed(OnDir(es))
    ensures forall b :: b in FileBlobs(c, es) ==> b == c.BlobOf(b.data)
    ensures forall x :: c.BlobOf(x) in FileBlobs(c, es) <==> x in Contents(Dir(ViewEntries(es)))
  {
    if es != [] {
      var front, e := es[..|es| - 1], es[|es| - 1];
      WellFormedParts(es);
      FileBlobsAreContents(c, front);
      if e.item.OnDir? { FileBlobsAreContents(c, e.item.entries); }
      ViewEntriesKeys(front, e.name);
      forall x ensures c.BlobOf(x) in FileBlobs(c, es) <==> x in Contents(Dir(ViewEntries(es))) {
        ContentsStep(ViewEntries(front), e.name, View(e.item), x);
      }
    }
  }

  lemma ContentsStep(kids: map<string, Node>, name: string, n: Node, x: Bytes)
    requires name !in kids
    ensures x in Contents(Dir(kids[name := n])) <==> x in Contents(Dir(kids)) || x in Contents(n)
  {
    if x in Contents(n) { assert name in kids[name := n]; }
    if x in Contents(Dir(kids)) {
      var k :| k in kids && x in Contents(kids[k]);
      assert k in kids[name := n];
    }
  }

  // ---------------------------------------------------------------- order of listings

  /** `m` lists the same tree as `l`, with every directory's entries in any other order. */
  ghost predicate Shuffled(l: Listing, m: Listing)
    decreases l, 1
  {
    match l
    case OnDir(es) =>
      && m.OnDir?
      && (forall i :: 0 <= i < |es| ==> Among(es[i], m.entries))
      && (forall j :: 0 <= j < |m.entries| ==> exists i :: 0 <= i < |es| && es[i].name == m.entries[j].name)
    case _ => l == m
  }

  ghost predicate Among(e: Named, fs: seq<Named>)
    decreases e, 0
  {
    exists j :: 0 <= j < |fs| && fs[j].name == e.name && Shuffled(e.item, fs[j].item)
  }

  ghost predicate Matched(e: Named, fs: seq<Named>) {
    exists j :: 0 <= j < |fs| && fs[j].name == e.name && View(fs[j].item) == View(e.item)
  }

  lemma MatchedAt(es: seq<Named>, fs: seq<Named>, k: string)
    requires DistinctNames(es) && DistinctNames(fs)
    requires forall i :: 0 <= i < |es| ==> Matched(es[i], fs)
    ensures k in ViewEntries(es) ==> k in ViewEntries(fs) && ViewEntries(es)[k] == ViewEntries(fs)[k]
  {
    hide View, ViewEntries;
    ViewEntriesKeys(es, k);
    ViewEntriesKeys(fs, k);
    if i :| 0 <= i < |es| && es[i].name == k {
      assert Matched(es[i], fs);
      var j :| 0 <= j < |fs| && fs[j].name == es[i].name && View(fs[j].item) == View(es[i].item);
      ViewEntriesAt(es, i);
      ViewEntriesAt(fs, j);
    }
  }

  lemma MatchedEntriesSameView(es: seq<Named>, fs: seq<Named>)
    requires DistinctNames(es) && DistinctNames(fs)
    requires forall i :: 0 <= i < |es| ==> Matched(es[i], fs)
    requires forall j :: 0 <= j < |fs| ==> HasName(es, fs[j].name)
    ensures ViewEntries(es) == ViewEntries(fs)
  {
    hide View, ViewEntries, DistinctNames, Matched;
    forall k
      ensures k in ViewEntries(es) <==> k in ViewEntries(fs)
      ensures k in ViewEntries(es) ==> ViewEntries(es)[k] == ViewEntries(fs)[k]
    {
      MatchedAt(es, fs, k);
      ViewEntriesKeys(es, k);
      ViewEntriesKeys(fs, k);
    }
  }

  lemma EntriesWellFormed(es: seq<Named>)
    requires WellFormed(OnDir(es))
    ensures DistinctNames(es) && forall i :: 0 <= i < |es| ==> WellFormed(es[i].item)
  {
    forall i | 0 <= i < |es| ensures WellFormed(es[i].item) { assert es[i] in es; }
  }

  lemma ShuffledParts(l: Listing, m: Listing)
    requires Shuffled(l, m) && l.OnDir?
    ensures m.OnDir?
    ensures forall i :: 0 <= i < |l.entries| ==> Among(l.entries[i], m.entries)
    ensures forall j :: 0 <= j < |m.entries| ==> HasName(l.entries, m.entries[j].name)
  {
    hide Among;
  }

  lemma WhereAmong(e: Named, fs: seq<Named>) returns (j: nat)
    requires Among(e, fs)
    ensures j < |fs| && fs[j].name == e.name && Shuffled(e.item, fs[j].item)
  {
    hide Shuffled;
    j :| 0 <= j < |fs| && fs[j].name == e.name && Shuffled(e.item, fs[j].item);
  }

  /** Shuffling the entries of directories leaves the name-indexed tree as it was. */
  lemma {:induction false} ShuffledSameView(l: Listing, m: Listing)
    requires WellFormed(l) && WellFormed(m)
    requires Shuffled(l, m)
    ensures View(l) == View(m)
  {
    if l.OnDir? {
      hide WellFormed, DistinctNames, ViewEntries, Shuffled, Among, HasName;
      var es, fs := l.entries, m.entries;
      EntriesWellFormed(es);
      EntriesWellFormed(fs);
      ShuffledParts(l, m);
      forall i | 0 <= i < |es| ensures Matched(es[i], fs) {
        var j := WhereAmong(es[i], fs);
        ShuffledSameView(es[i].item, fs[j].item);
      }
      MatchedEntriesSameView(es, fs);
    }
  }

  /** The root digest does not depend on the order in which directories list their entries. */
  lemma RootDigestIgnoresListingOrder(c: Codec, l: Listing, m: Listing)
    requires l.OnDir? && WellFormed(l) && WellFormed(m) && Shuffled(l, m)
    ensures m.OnDir?
    ensures BuiltOf(c, l.entries).digest == BuiltOf(c, m.entries).digest
    ensures BuiltOf(c, l.entries).directory == BuiltOf(c, m.entries).directory
  {
    ShuffledSameView(l, m);
  }

  /** Without a collision, two listings have the same root digest exactly when they list
      trees that re-memoize cannot tell apart. */
  lemma BuiltDigestCharacterisesTree(c: Codec, l: Listing, m: Listing)
    requires c.Lawful() && l.OnDir? && m.OnDir?
    requires c.NoCollision(TreeBlobs(c, Memoize(), View(l)) + TreeBlobs(c, Memoize(), View(m)))
    ensures BuiltOf(c, l.entries).digest == BuiltOf(c, m.entries).digest
      <==> Alike(Memoize(), View(l), View(m))
  {
    RootDigestCharacterisesTree(c, Memoize(), View(l), View(m));
    assert RootDigest(c, Memoize(), View(l)) == Some(BuiltOf(c, l.entries).digest);
    assert RootDigest(c, Memoize(), View(m)) == Some(BuiltOf(c, m.entries).digest);
  }

  // ---------------------------------------------------------------- the Tree message

  ghost function TreeOf(c: Codec, es: seq<Named>): TreeMessage {
    TreeMessage(Some(Msg(c, Skeleton(c, es))), Descendants(c, es))
  }

  /** The digest is that of a message made of the root's and those of all its sub-directories. */
  ghost predicate IsTreeDigest(c: Codec, l: Listing, built: Built, d: Digest)
    requires l.OnDir?
  {
    var data := c.encodeTree(TreeMessage(root := Some(built.directory), children := built.descendants));
    built.descendants == Descendants(c, l.entries) && d == Digest(c.hash(data), |data|)
  }

  /** `tree_digest`: the digest of the flattened tree. */
  method TreeDigest(c: Codec, l: Listing) returns (d: Digest)
    requires l.OnDir? && WellFormed(l)
    ensures d == c.DigestOf(c.encodeTree(TreeOf(c, l.entries)))
    ensures exists built: Built :: BuiltFrom(c, View(l), built) && IsTreeDigest(c, l, built, d)
  {
    var built := BuildDirectory(c, l);
    d := c.DigestOf(c.encodeTree(TreeMessage(Some(built.directory), built.descendants)));
    assert IsTreeDigest(c, l, built, d);
  }

  function DirPathsUnder(name: string, ps: seq<Path>): seq<Path> {
    seq(|ps|, i requires 0 <= i < |ps| => [name] + ps[i])
  }

  /** Paths of all proper sub-directories in preorder. */
  function DirPaths(es: seq<Named>): seq<Path> {
    if es == [] then []
    else
      var e := es[|es| - 1];
      DirPaths(es[..|es| - 1]) +
      if e.item.OnDir? then [[e.name]] + DirPathsUnder(e.name, DirPaths(e.item.entries)) else []
  }

  lemma {:induction false} DirPathsStart(es: seq<Named>, p: Path)
    requires p in DirPaths(es)
    ensures p != [] && exists i :: 0 <= i < |es| && es[i].name == p[0]
  {
    var front, e := es[..|es| - 1], es[|es| - 1];
    if p in DirPaths(front) {
      DirPathsStart(front, p);
      var i :| 0 <= i < |front| && front[i].name == p[0];
      assert es[i].name == p[0];
    } else {
      assert e.name == p[0];
    }
  }

  lemma {:induction false} DirPathsDistinct(es: seq<Named>, i: nat, j: nat)
    requires WellFormed(OnDir(es)) && i < j < |DirPaths(es)|
    ensures DirPaths(es)[i] != DirPaths(es)[j]
  {
    var front, e := es[..|es| - 1], es[|es| - 1];
    var ps := DirPaths(front);
    if j < |ps| {
      DirPathsDistinct(front, i, j);
    } else if i < |ps| {
      DirPathsStart(front, ps[i]);
      assert DirPaths(es)[j][0] == e.name;
    } else {
      assert e in es;
      var below := DirPaths(e.item.entries);
      assert DirPaths(es)[j] == [e.name] + below[j - |ps| - 1];
      if i > |ps| {
        DirPathsDistinct(e.item.entries, i - |ps| - 1, j - |ps| - 1);
        assert DirPaths(es)[i] == [e.name] + below[i - |ps| - 1];
        assert DirPaths(es)[i][1..] != DirPaths(es)[j][1..];
      } else {
        DirPathsStart(e.item.entries, below[j - |ps| - 1]);
      }
    }
  }

  lemma SubOfLast(c: Codec, es: seq<Named>, p: Path)
    requires es != [] && WellFormed(OnDir(es)) && p != []
    ensures Sub(Skeleton(c, es), p) ==
      var e := es[|es| - 1];
      if p[0] == e.name then Sub(Digested(c, Memoize(), View(e.item)), p[1..])
      else Sub(Skeleton(c, es[..|es| - 1]), p)
  {
    SkeletonStep(c, es, |es| - 1);
    assert es[..|es|] == es;
  }

  lemma {:induction false} DescendantsAsMany(c: Codec, es: seq<Named>)
    ensures |Descendants(c, es)| == |DirPaths(es)|
  {
    if es != [] {
      DescendantsAsMany(c, es[..|es| - 1]);
      if es[|es| - 1].item.OnDir? { DescendantsAsMany(c, es[|es| - 1].item.entries); }
    }
  }

  ghost predicate DescribesDir(c: Codec, t: Skel, p: Path, d: Directory) {
    IsDir(t, p) && d == Msg(c, Sub(t, p).value)
  }

  lemma DescribedInFront(c: Codec, es: seq<Named>, p: Path, d: Directory)
    requires es != [] && WellFormed(OnDir(es)) && p != [] && p[0] != es[|es| - 1].name
    requires DescribesDir(c, Skeleton(c, es[..|es| - 1]), p, d)
    ensures DescribesDir(c, Skeleton(c, es), p, d)
  {
    SubOfLast(c, es, p);
  }

  lemma DescribedBelow(c: Codec, es: seq<Named>, q: Path, d: Directory)
    requires es != [] && WellFormed(OnDir(es)) && es[|es| - 1].item.OnDir?
    requires DescribesDir(c, Skeleton(c, es[|es| - 1].item.entries), q, d)
    ensures DescribesDir(c, Skeleton(c, es), [es[|es| - 1].name] + q, d)
  {
    var p := [es[|es| - 1].name] + q;
    assert p[1..] == q;
    SubOfLast(c, es, p);
  }

  /** Every entry of the flattened list is the message of the directory at its preorder path. */
  lemma {:induction false} DescendantAt(c: Codec, es: seq<Named>, i: nat)
    requires WellFormed(OnDir(es)) && i < |DirPaths(es)| && |Descendants(c, es)| == |DirPaths(es)|
    ensures DescribesDir(c, Skeleton(c, es), DirPaths(es)[i], Descendants(c, es)[i])
  {
    hide DescribesDir, Skeleton, Msg, WellFormed;
    var front, e := es[..|es| - 1], es[|es| - 1];
    var n := |DirPaths(front)|;
    WellFormedParts(es);
    DescendantsAsMany(c, front);
    if i < n {
      DirPathsStart(front, DirPaths(front)[i]);
      DescendantAt(c, front, i);
      DescribedInFront(c, es, DirPaths(front)[i], Descendants(c, front)[i]);
    } else {
      var sub := e.item.entries;
      DescendantsAsMany(c, sub);
      if i == n {
        RootDescribed(c, sub);
        assert [e.name] + [] == [e.name];
        DescribedBelow(c, es, [], Msg(c, Skeleton(c, sub)));
      } else {
        DescendantAt(c, sub, i - n - 1);
        DescribedBelow(c, es, DirPaths(sub)[i - n - 1], Descendants(c, sub)[i - n - 1]);
      }
    }
  }

  lemma RootDescribed(c: Codec, es: seq<Named>)
    ensures DescribesDir(c, Skeleton(c, es), [], Msg(c, Skeleton(c, es)))
  {
  }

  lemma SubEntry(c: Codec, es: seq<Named>, p: Path)
    requires WellFormed(OnDir(es)) && p != [] && IsDir(Skeleton(c, es), p)
    ensures es != []
    ensures p[0] == es[|es| - 1].name ==>
      es[|es| - 1].item.OnDir? && IsDir(Skeleton(c, es[|es| - 1].item.entries), p[1..])
    ensures p[0] != es[|es| - 1].name ==> IsDir(Skeleton(c, es[..|es| - 1]), p)
  {
    ViewEntriesKeys(es, p[0]);
    SubOfLast(c, es, p);
  }

  lemma PathsOfLast(es: seq<Named>, q: Path)
    requires es != [] && es[|es| - 1].item.OnDir?
    requires q == [] || q in DirPaths(es[|es| - 1].item.entries)
    ensures [es[|es| - 1].name] + q in DirPaths(es)
  {
    var front, e := es[..|es| - 1], es[|es| - 1];
    var sub := DirPaths(e.item.entries);
    assert DirPaths(es) == DirPaths(front) + ([[e.name]] + DirPathsUnder(e.name, sub));
    if q == [] {
      assert DirPaths(es)[|DirPaths(front)|] == [e.name] + q;
    } else {
      var j :| 0 <= j < |sub| && sub[j] == q;
      assert DirPaths(es)[|DirPaths(front)| + 1 + j] == [e.name] + q;
    }
  }

  lemma {:induction false} DirPathsComplete(c: Codec, es: seq<Named>, p: Path)
    requires WellFormed(OnDir(es)) && p != [] && IsDir(Skeleton(c, es), p)
    ensures p in DirPaths(es)
  {
    hide Skeleton, IsDir;
    SubEntry(c, es, p);
    WellFormedParts(es);
    var front, e := es[..|es| - 1], es[|es| - 1];
    if p[0] == e.name {
      assert p == [e.name] + p[1..];
      if p[1..] != [] { DirPathsComplete(c, e.item.entries, p[1..]); }
      PathsOfLast(es, p[1..]);
    } else {
      DirPathsComplete(c, front, p);
    }
  }

  /** The flattened list holds the message of every proper sub-directory, once for each path
      that leads to one, and nothing else. */
  lemma DescendantsAreAllSubdirectories(c: Codec, es: seq<Named>)
    requires WellFormed(OnDir(es))
    ensures |Descendants(c, es)| == |DirPaths(es)|
    ensures forall i, j :: 0 <= i < j < |DirPaths(es)| ==> DirPaths(es)[i] != DirPaths(es)[j]
    ensures forall p :: p in DirPaths(es) <==> p != [] && IsDir(Skeleton(c, es), p)
    ensures forall i, j :: 0 <= i < j < |DirPaths(es)| ==> MetBefore(es, DirPaths(es)[i], DirPaths(es)[j])
    ensures forall i :: 0 <= i < |DirPaths(es)| ==>
      DescribesDir(c, Skeleton(c, es), DirPaths(es)[i], Descendants(c, es)[i])
  {
    DescendantsAsMany(c, es);
    hide MetBefore, DirPaths, Skeleton, Msg, WellFormed;
    forall i, j | 0 <= i < j < |DirPaths(es)|
      ensures DirPaths(es)[i] != DirPaths(es)[j]
      ensures MetBefore(es, DirPaths(es)[i], DirPaths(es)[j])
    {
      DirPathsDistinct(es, i, j);
      DirPathsInWalkOrder(es, i, j);
    }
    forall i | 0 <= i < |DirPaths(es)|
      ensures DirPaths(es)[i] != []
      ensures DescribesDir(c, Skeleton(c, es), DirPaths(es)[i], Descendants(c, es)[i])
    {
      DirPathsStart(es, DirPaths(es)[i]);
      DescendantAt(c, es, i);
    }
    forall p | p != [] && IsDir(Skeleton(c, es), p) ensures p in DirPaths(es) {
      DirPathsComplete(c, es, p);
    }
  }

  /** A walk of the listing meets `p` before `q`: by way of an earlier entry, or on the way to `q`. */
  ghost predicate MetBefore(es: seq<Named>, p: Path, q: Path)
    decreases es, 0
  {
    && p != [] && q != []
    && exists i, j :: 0 <= i <= j < |es| && es[i].name == p[0] && es[j].name == q[0] &&
         (i < j || (es[i].item.OnDir? && MetOnTheWay(es[i].item.entries, p[1..], q[1..])))
  }

  ghost predicate MetOnTheWay(es: seq<Named>, p: Path, q: Path)
    decreases es, 1
  {
    if p == [] then q != [] else MetBefore(es, p, q)
  }

  lemma MetInFront(es: seq<Named>, p: Path, q: Path)
    requires es != [] && MetBefore(es[..|es| - 1], p, q)
    ensures MetBefore(es, p, q)
  {
    hide MetOnTheWay;
    var front := es[..|es| - 1];
    var i, j :| 0 <= i <= j < |front| && front[i].name == p[0] && front[j].name == q[0] &&
      (i < j || (front[i].item.OnDir? && MetOnTheWay(front[i].item.entries, p[1..], q[1..])));
    assert es[i] == front[i] && es[j] == front[j];
  }

  /** The paths of the flattened list are in the order in which a walk of the listing meets them:
      entry by entry, each directory before what is below it. */
  lemma {:induction false} DirPathsInWalkOrder(es: seq<Named>, a: nat, b: nat)
    requires a < b < |DirPaths(es)|
    ensures MetBefore(es, DirPaths(es)[a], DirPaths(es)[b])
  {
    hide MetBefore, MetOnTheWay;
    var n := |es| - 1;
    var front, e := es[..n], es[n];
    var ps := DirPaths(front);
    if b < |ps| {
      DirPathsInWalkOrder(front, a, b);
      MetInFront(es, ps[a], ps[b]);
    } else if a < |ps| {
      DirPathsStart(front, ps[a]);
      var i :| 0 <= i < |front| && front[i].name == ps[a][0];
      MetAt(es, ps[a], DirPaths(es)[b], i, n);
    } else {
      var below := DirPaths(e.item.entries);
      var k := b - |ps| - 1;
      assert DirPaths(es)[b] == [e.name] + below[k];
      DirPathsStart(e.item.entries, below[k]);
      if a == |ps| {
        MetFirst(e.item.entries, below[k]);
        assert [e.name][1..] == [] && ([e.name] + below[k])[1..] == below[k];
        MetAt(es, [e.name], [e.name] + below[k], n, n);
      } else {
        DirPathsInWalkOrder(e.item.entries, a - |ps| - 1, k);
        DirPathsStart(e.item.entries, below[a - |ps| - 1]);
        MetLater(e.item.entries, below[a - |ps| - 1], below[k]);
        assert ([e.name] + below[a - |ps| - 1])[1..] == below[a - |ps| - 1] && ([e.name] + below[k])[1..] == below[k];
        MetAt(es, [e.name] + below[a - |ps| - 1], [e.name] + below[k], n, n);
      }
    }
  }

  lemma MetFirst(es: seq<Named>, q: Path)
    requires q != []
    ensures MetOnTheWay(es, [], q)
  {
  }

  lemma MetLater(es: seq<Named>, p: Path, q: Path)
    requires p != [] && MetBefore(es, p, q)
    ensures MetOnTheWay(es, p, q)
  {
  }

  lemma MetAt(es: seq<Named>, p: Path, q: Path, i: nat, j: nat)
    requires i <= j < |es| && p != [] && q != [] && es[i].name == p[0] && es[j].name == q[0]
    requires i < j || (es[i].item.OnDir? && MetOnTheWay(es[i].item.entries, p[1..], q[1..]))
    ensures MetBefore(es, p, q)
  {
    hide MetOnTheWay;
  }

  lemma ViewOfTwo(a: Named, b: Named)
    ensures View(OnDir([a, b])) == Dir(map[a.name := View(a.item)][b.name := View(b.item)])
  {
    assert [a, b][..1] == [a] && [a][..0] == [];
    assert ViewEntries([a]) == map[a.name := View(a.item)];
  }

  lemma FirstDescendant(c: Codec, a: Named, b: Named)
    requires a.item.OnDir? && b.item.OnDir?
    ensures |Descendants(c, [a, b])| > 0
    ensures Descendants(c, [a, b])[0] == Msg(c, Skeleton(c, a.item.entries))
  {
    assert [a, b][..1] == [a] && [a][..0] == [];
    assert Descendants(c, [a]) == [] + ([Msg(c, Skeleton(c, a.item.entries))] + Descendants(c, a.item.entries));
  }

  lemma LinkMakesAnotherMsg(c: Codec, t: Skel, u: Skel, k: string)
    requires t.SDir? && u.SDir? && k !in t.kids && k in u.kids && u.kids[k].SLink?
    ensures Msg(c, t) != Msg(c, u)
  {
    assert k in LinkMap(u) && k !in LinkMap(t);
    if Msg(c, t) == Msg(c, u) {
      MsgDeterminesMaps(c, t, u);
    }
  }

  lemma TreeMessagesDiffer(c: Codec, es: seq<Named>, fs: seq<Named>)
    requires c.Lawful() && Descendants(c, es) != Descendants(c, fs)
    ensures c.encodeTree(TreeOf(c, es)) != c.encodeTree(TreeOf(c, fs))
  {
    hide Descendants, Skeleton, Msg;
    assert c.decodeTree(c.encodeTree(TreeOf(c, es))) == Some(TreeOf(c, es));
    assert c.decodeTree(c.encodeTree(TreeOf(c, fs))) == Some(TreeOf(c, fs));
  }

  /** Unlike the root digest, the flattened list does depend on listing order: two listings
      of a directory that holds `a/` and `b/x` have different `Tree` messages. */
  lemma TreeMessageDependsOnListingOrder(c: Codec, a: Named, b: Named)
    requires c.Lawful()
    requires a == Named("a", OnDir([])) && b == Named("b", OnDir([Named("x", OnLink("t"))]))
    ensures View(OnDir([a, b])) == View(OnDir([b, a]))
    ensures c.encodeTree(TreeOf(c, [a, b])) != c.encodeTree(TreeOf(c, [b, a]))
  {
    hide Msg, Descendants, Skeleton;
    ViewOfTwo(a, b);
    ViewOfTwo(b, a);
    FirstDescendant(c, a, b);
    FirstDescendant(c, b, a);
    LinkInSkeleton(c, "x", "t");
    LinkMakesAnotherMsg(c, Skeleton(c, []), Skeleton(c, b.item.entries), "x");
    TreeMessagesDiffer(c, [a, b], [b, a]);
  }

  lemma LinkInSkeleton(c: Codec, name: string, target: string)
    ensures Skeleton(c, []).kids == map[]
    ensures Skeleton(c, [Named(name, OnLink(target))]).kids == map[name := SLink(target)]
  {
    var e := Named(name, OnLink(target));
    assert [e][..0] == [];
    SkeletonStep(c, [e], 0);
    assert [e][..1] == [e];
  }

  // ---------------------------------------------------------------- when the Tree digests agree

  ghost function TreeBlob(c: Codec, es: seq<Named>): Bytes { c.encodeTree(TreeOf(c, es)) }

  ghost function DirBlobsOf(c: Codec, es: seq<Named>): set<Bytes> { DirBlobs(c, Skeleton(c, es)) }

  /** Position by position, the two lists of paths lead to equal sub-trees. */
  ghost predicate EqualInOrder(t: Skel, ps: seq<Path>, u: Skel, qs: seq<Path>) {
    |ps| == |qs| && forall i :: 0 <= i < |ps| ==> Sub(t, ps[i]) == Sub(u, qs[i])
  }

  lemma EqualMessagesEqualSubs(c: Codec, t: Skel, p: Path, u: Skel, q: Path)
    requires c.Lawful() && t.SDir? && u.SDir? && MountFree(t) && MountFree(u)
    requires c.NoCollision(DirBlobs(c, t) + DirBlobs(c, u))
    requires IsDir(t, p) && IsDir(u, q) && Msg(c, Sub(t, p).value) == Msg(c, Sub(u, q).value)
    ensures Sub(t, p) == Sub(u, q)
  {
    hide MountFree, Msg, DirBlobs, Sub;
    MountFreeAt(t, p);
    MountFreeAt(u, q);
    DirBlobsBelow(c, t, p);
    DirBlobsBelow(c, u, q);
    DigestCharacterisesTree(c, Sub(t, p).value, Sub(u, q).value);
  }

  lemma EqualListsEqualOrder(c: Codec, es: seq<Named>, fs: seq<Named>, i: nat)
    requires c.Lawful() && WellFormed(OnDir(es)) && WellFormed(OnDir(fs))
    requires c.NoCollision(DirBlobsOf(c, es) + DirBlobsOf(c, fs))
    requires Descendants(c, es) == Descendants(c, fs) && i < |DirPaths(es)|
    ensures |DirPaths(es)| == |DirPaths(fs)|
    ensures Sub(Skeleton(c, es), DirPaths(es)[i]) == Sub(Skeleton(c, fs), DirPaths(fs)[i])
  {
    var t, u := Skeleton(c, es), Skeleton(c, fs);
    DigestedIsMountFree(c, Memoize(), Dir(ViewEntries(es)));
    DigestedIsMountFree(c, Memoize(), Dir(ViewEntries(fs)));
    assert MountFree(t) && MountFree(u);
    hide Descendants, Skeleton, MountFree, DirPaths, WellFormed, Sub, Msg;
    DescendantsAreAllSubdirectories(c, es);
    DescendantsAreAllSubdirectories(c, fs);
    assert DescribesDir(c, t, DirPaths(es)[i], Descendants(c, es)[i]);
    assert DescribesDir(c, u, DirPaths(fs)[i], Descendants(c, fs)[i]);
    EqualMessagesEqualSubs(c, t, DirPaths(es)[i], u, DirPaths(fs)[i]);
  }

  lemma EqualOrderEqualLists(c: Codec, es: seq<Named>, fs: seq<Named>)
    requires WellFormed(OnDir(es)) && WellFormed(OnDir(fs))
    requires EqualInOrder(Skeleton(c, es), DirPaths(es), Skeleton(c, fs), DirPaths(fs))
    ensures Descendants(c, es) == Descendants(c, fs)
  {
    hide Descendants, Skeleton, DirPaths, WellFormed, Sub, Msg;
    DescendantsAreAllSubdirectories(c, es);
    DescendantsAreAllSubdirectories(c, fs);
    forall i | 0 <= i < |DirPaths(es)| ensures Descendants(c, es)[i] == Descendants(c, fs)[i] {
      assert DescribesDir(c, Skeleton(c, es), DirPaths(es)[i], Descendants(c, es)[i]);
      assert DescribesDir(c, Skeleton(c, fs), DirPaths(fs)[i], Descendants(c, fs)[i]);
    }
  }

  lemma TreeBlobsAgree(c: Codec, es: seq<Named>, fs: seq<Named>)
    requires c.Lawful() && c.NoCollision(DirBlobsOf(c, es) + DirBlobsOf(c, fs))
    ensures TreeBlob(c, es) == TreeBlob(c, fs) <==>
      Skeleton(c, es) == Skeleton(c, fs) && Descendants(c, es) == Descendants(c, fs)
  {
    var t, u := Skeleton(c, es), Skeleton(c, fs);
    DigestedIsMountFree(c, Memoize(), Dir(ViewEntries(es)));
    DigestedIsMountFree(c, Memoize(), Dir(ViewEntries(fs)));
    assert MountFree(t) && MountFree(u);
    hide Descendants, Skeleton, MountFree, Msg, DirBlobs;
    assert c.decodeTree(TreeBlob(c, es)) == Some(TreeOf(c, es));
    assert c.decodeTree(TreeBlob(c, fs)) == Some(TreeOf(c, fs));
    DigestCharacterisesTree(c, t, u);
  }

  /** Exactly when the digests of two flattened trees agree: when the trees are equal, and the two
      listings meet equal sub-directories in the same order, preorder position by position. */
  lemma TreeDigestsAgreeOnSkeletons(c: Codec, es: seq<Named>, fs: seq<Named>)
    requires c.Lawful() && WellFormed(OnDir(es)) && WellFormed(OnDir(fs))
    requires c.NoCollision(DirBlobsOf(c, es) + DirBlobsOf(c, fs) + {TreeBlob(c, es), TreeBlob(c, fs)})
    ensures c.DigestOf(TreeBlob(c, es)) == c.DigestOf(TreeBlob(c, fs)) <==>
      && Skeleton(c, es) == Skeleton(c, fs)
      && EqualInOrder(Skeleton(c, es), DirPaths(es), Skeleton(c, fs), DirPaths(fs))
  {
    hide Descendants, Skeleton, DirPaths, WellFormed, Sub, TreeBlob, DirBlobsOf;
    assert c.NoCollision(DirBlobsOf(c, es) + DirBlobsOf(c, fs));
    TreeBlobsAgree(c, es, fs);
    if Descendants(c, es) == Descendants(c, fs) {
      DescendantsAsMany(c, es);
      DescendantsAsMany(c, fs);
      forall i | 0 <= i < |DirPaths(es)|
        ensures Sub(Skeleton(c, es), DirPaths(es)[i]) == Sub(Skeleton(c, fs), DirPaths(fs)[i])
      {
        EqualListsEqualOrder(c, es, fs, i);
      }
    }
    if EqualInOrder(Skeleton(c, es), DirPaths(es), Skeleton(c, fs), DirPaths(fs)) {
      EqualOrderEqualLists(c, es, fs);
    }
  }

  /** Sub-trees that re-memoize cannot tell apart. */
  ghost predicate AlikeBelow(a: Node, p: Path, b: Node, q: Path) {
    NodeAt(a, p).Some? && NodeAt(b, q).Some? && Alike(Memoize(), NodeAt(a, p).value, NodeAt(b, q).value)
  }

  /** Position by position, the two lists of paths lead to sub-trees that look alike. */
  ghost predicate AlikeInOrder(a: Node, ps: seq<Path>, b: Node, qs: seq<Path>) {
    |ps| == |qs| && forall i :: 0 <= i < |ps| ==> AlikeBelow(a, ps[i], b, qs[i])
  }

  lemma {:induction false} ContentsBelow(n: Node, p: Path)
    requires NodeAt(n, p).Some?
    ensures Contents(NodeAt(n, p).value) <= Contents(n)
  {
    if p != [] { ContentsBelow(n.kids[p[0]], p[1..]); }
  }

  lemma EqualSubsAreAlike(c: Codec, a: Node, p: Path, b: Node, q: Path)
    requires c.NoCollision(Contents(a) + Contents(b)) && NodeAt(a, p).Some? && NodeAt(b, q).Some?
    ensures Sub(Digested(c, Memoize(), a), p) == Sub(Digested(c, Memoize(), b), q) <==> AlikeBelow(a, p, b, q)
  {
    hide Digested, Contents, Alike, NodeAt, Sub;
    DigestedAt(c, Memoize(), a, p);
    DigestedAt(c, Memoize(), b, q);
    ContentsBelow(a, p);
    ContentsBelow(b, q);
    var m, n := NodeAt(a, p).value, NodeAt(b, q).value;
    if Digested(c, Memoize(), m) == Digested(c, Memoize(), n) { DigestedEqualIsAlike(c, Memoize(), m, n); }
    if Alike(Memoize(), m, n) { AlikeIsDigestedEqual(c, Memoize(), m, n); }
  }

  lemma PreorderInTree(c: Codec, es: seq<Named>, i: nat)
    requires WellFormed(OnDir(es)) && i < |DirPaths(es)|
    ensures NodeAt(Dir(ViewEntries(es)), DirPaths(es)[i]).Some?
  {
    DescendantsAreAllSubdirectories(c, es);
    DigestedAt(c, Memoize(), Dir(ViewEntries(es)), DirPaths(es)[i]);
    hide Descendants, DirPaths, NodeAt, WellFormed, Digested;
    assert DescribesDir(c, Skeleton(c, es), DirPaths(es)[i], Descendants(c, es)[i]);
  }

  lemma OrdersAgree(c: Codec, es: seq<Named>, fs: seq<Named>)
    requires WellFormed(OnDir(es)) && WellFormed(OnDir(fs))
    requires c.NoCollision(Contents(Dir(ViewEntries(es))) + Contents(Dir(ViewEntries(fs))))
    ensures EqualInOrder(Skeleton(c, es), DirPaths(es), Skeleton(c, fs), DirPaths(fs)) <==>
      AlikeInOrder(Dir(ViewEntries(es)), DirPaths(es), Dir(ViewEntries(fs)), DirPaths(fs))
  {
    hide DirPaths, WellFormed, Contents, AlikeBelow, ViewEntries, Sub, NodeAt, Digested;
    var a, b, ps, qs := Dir(ViewEntries(es)), Dir(ViewEntries(fs)), DirPaths(es), DirPaths(fs);
    forall i | 0 <= i < |ps| && |ps| == |qs|
      ensures Sub(Skeleton(c, es), ps[i]) == Sub(Skeleton(c, fs), qs[i]) <==> AlikeBelow(a, ps[i], b, qs[i])
    {
      PreorderInTree(c, es, i);
      PreorderInTree(c, fs, i);
      EqualSubsAreAlike(c, a, ps[i], b, qs[i]);
    }
  }

  /** Exactly when the flattened trees of two listings have the same digest, told from the
      listings: the trees look alike at every path, and so do, position by position, the
      sub-directories that the two listings meet in preorder. */
  lemma TreeDigestsAgreeExactly(c: Codec, l: Listing, m: Listing)
    requires c.Lawful() && l.OnDir? && m.OnDir? && WellFormed(l) && WellFormed(m)
    requires c.NoCollision(TreeBlobs(c, Memoize(), View(l)) + TreeBlobs(c, Memoize(), View(m))
      + {TreeBlob(c, l.entries), TreeBlob(c, m.entries)})
    ensures c.DigestOf(TreeBlob(c, l.entries)) == c.DigestOf(TreeBlob(c, m.entries)) <==>
      Alike(Memoize(), View(l), View(m)) && AlikeInOrder(View(l), DirPaths(l.entries), View(m), DirPaths(m.entries))
  {
    hide DirPaths, WellFormed, Contents, AlikeInOrder, EqualInOrder, Alike, ViewEntries, TreeBlob, DirBlobs, Digested;
    var es, fs := l.entries, m.entries;
    assert l == OnDir(es) && View(l) == Dir(ViewEntries(es));
    assert m == OnDir(fs) && View(m) == Dir(ViewEntries(fs));
    hide View;
    BlobsOfTrees(c, es, fs);
    TreeDigestsAgreeOnSkeletons(c, es, fs);
    OrdersAgree(c, es, fs);
    SkeletonsAgree(c, es, fs);
  }

  lemma BlobsOfTrees(c: Codec, es: seq<Named>, fs: seq<Named>)
    requires c.NoCollision(TreeBlobs(c, Memoize(), Dir(ViewEntries(es))) + TreeBlobs(c, Memoize(), Dir(ViewEntries(fs)))
      + {TreeBlob(c, es), TreeBlob(c, fs)})
    ensures c.NoCollision(DirBlobsOf(c, es) + DirBlobsOf(c, fs) + {TreeBlob(c, es), TreeBlob(c, fs)})
    ensures c.NoCollision(Contents(Dir(ViewEntries(es))) + Contents(Dir(ViewEntries(fs))))
  {
    hide Contents, DirBlobs, TreeBlob, ViewEntries, Digested;
  }

  lemma SkeletonsAgree(c: Codec, es: seq<Named>, fs: seq<Named>)
    requires c.NoCollision(Contents(Dir(ViewEntries(es))) + Contents(Dir(ViewEntries(fs))))
    ensures Skeleton(c, es) == Skeleton(c, fs) <==> Alike(Memoize(), Dir(ViewEntries(es)), Dir(ViewEntries(fs)))
  {
    hide Contents, ViewEntries, Alike, Digested;
    var a, b := Dir(ViewEntries(es)), Dir(ViewEntries(fs));
    if Skeleton(c, es) == Skeleton(c, fs) { DigestedEqualIsAlike(c, Memoize(), a, b); }
    if Alike(Memoize(), a, b) { AlikeIsDigestedEqual(c, Memoize(), a, b); }
  }

  lemma AlikeItself(n: Node)
    ensures Alike(Memoize(), n, n)
  {
  }

  /** In particular, a reordering of directory listings leaves the digest as it was exactly when
      it leaves an equal sub-directory at every preorder position. */
  lemma ReorderingKeepsTreeDigestExactly(c: Codec, l: Listing, m: Listing)
    requires c.Lawful() && l.OnDir? && m.OnDir? && WellFormed(l) && WellFormed(m) && Shuffled(l, m)
    requires c.NoCollision(TreeBlobs(c, Memoize(), View(l)) + {TreeBlob(c, l.entries), TreeBlob(c, m.entries)})
    ensures c.DigestOf(TreeBlob(c, l.entries)) == c.DigestOf(TreeBlob(c, m.entries)) <==>
      AlikeInOrder(View(l), DirPaths(l.entries), View(l), DirPaths(m.entries))
  {
    ShuffledSameView(l, m);
    AlikeItself(View(l));
    hide View, AlikeInOrder, Alike, TreeBlob, TreeBlobs;
    TreeDigestsAgreeExactly(c, l, m);
  }
}
