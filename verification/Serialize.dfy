/** `DirectoryBuilder`: re-dispatch's own route from a directory walk to a root digest. */
module Serialize {
  import opened Names
  import opened Messages
  import opened Merkle
  import opened Canon
  import opened FlatTree
  import opened PathText
  import D = Disk

  datatype BuildError = NoComponents | Duplicate | BadLink

  ghost predicate AgreesOnLinks(at: Path, symlinks: map<string, SymlinkNode>, leaves: map<Path, Skel>) {
    && (forall n :: n in symlinks <==> Child(at, n) in leaves && leaves[Child(at, n)].SLink?)
    && (forall n :: n in symlinks ==> symlinks[n] == SymlinkNode(n, leaves[Child(at, n)].target))
  }

  lemma LinksMore(at: Path, symlinks: map<string, SymlinkNode>, leaves: map<Path, Skel>, name: string, leaf: Skel)
    requires AgreesOnLinks(at, symlinks, leaves) && Child(at, name) !in leaves
    ensures AgreesOnLinks(at,
      if leaf.SLink? then symlinks[name := SymlinkNode(name, leaf.target)] else symlinks,
      leaves[Child(at, name) := leaf])
  {
    forall n ensures Child(at, n) == Child(at, name) <==> n == name { OtherChild(at, n, name); }
  }

  ghost predicate Agrees(at: Path, files: map<string, FileNode>,
      directories: map<string, DirectoryBuilder>, symlinks: map<string, SymlinkNode>,
      nodes: map<Path, DirectoryBuilder>, leaves: map<Path, Skel>)
  {
    && AgreesOnDirectories(at, directories, nodes)
    && AgreesOnFiles(at, files, leaves)
    && AgreesOnLinks(at, symlinks, leaves)
  }

  ghost predicate FilesAndLinks(leaves: map<Path, Skel>) {
    forall q :: q in leaves ==> leaves[q].SFile? || leaves[q].SLink?
  }

  lemma AgreesElsewhere(at: Path, files: map<string, FileNode>,
      directories: map<string, DirectoryBuilder>, symlinks: map<string, SymlinkNode>,
      nodes: map<Path, DirectoryBuilder>, leaves: map<Path, Skel>, q: Path, d: DirectoryBuilder)
    requires Agrees(at, files, directories, symlinks, nodes, leaves)
    requires q != [] && Parent(q) != at
    ensures Agrees(at, files, directories, symlinks, nodes[q := d], leaves)
  {
    forall n ensures Child(at, n) != q { ChildParts(at, n); }
  }

  lemma AgreesHere(at: Path, files: map<string, FileNode>,
      directories: map<string, DirectoryBuilder>, symlinks: map<string, SymlinkNode>,
      nodes: map<Path, DirectoryBuilder>, leaves: map<Path, Skel>, name: string, d: DirectoryBuilder)
    requires Agrees(at, files, directories, symlinks, nodes, leaves)
    ensures Agrees(at, files, directories[name := d], symlinks, nodes[Child(at, name) := d], leaves)
  {
    forall n ensures Child(at, n) == Child(at, name) <==> n == name { OtherChild(at, n, name); }
  }

  lemma AgreesEmpty(at: Path, nodes: map<Path, DirectoryBuilder>, leaves: map<Path, Skel>)
    requires WellFormed(Flat(leaves, nodes.Keys - {at})) && at !in nodes.Keys - {at}
    ensures Agrees(at, map[], map[], map[], nodes, leaves)
  {
    forall n ensures Child(at, n) !in nodes && Child(at, n) !in leaves { ChildParts(at, n); }
  }

  lemma AgreesLeafElsewhere(at: Path, files: map<string, FileNode>,
      directories: map<string, DirectoryBuilder>, symlinks: map<string, SymlinkNode>,
      nodes: map<Path, DirectoryBuilder>, leaves: map<Path, Skel>, p: Path, leaf: Skel)
    requires Agrees(at, files, directories, symlinks, nodes, leaves)
    requires p != [] && Parent(p) != at
    ensures Agrees(at, files, directories, symlinks, nodes, leaves[p := leaf])
  {
    forall n ensures Child(at, n) != p { ChildParts(at, n); }
  }

  lemma AgreesLeaf(at: Path, files: map<string, FileNode>,
      directories: map<string, DirectoryBuilder>, symlinks: map<string, SymlinkNode>,
      nodes: map<Path, DirectoryBuilder>, leaves: map<Path, Skel>, name: string, leaf: Skel)
    requires Agrees(at, files, directories, symlinks, nodes, leaves)
    requires Child(at, name) !in leaves
    ensures Agrees(at,
      if leaf.SFile? then files[name := FileNode(name, leaf.digest, leaf.exec)] else files,
      directories,
      if leaf.SLink? then symlinks[name := SymlinkNode(name, leaf.target)] else symlinks,
      nodes, leaves[Child(at, name) := leaf])
  {
    FilesMore(at, files, leaves, name, leaf);
    LinksMore(at, symlinks, leaves, name, leaf);
  }

  class DirectoryBuilder {
    var files: map<string, FileNode>
    var directories: map<string, DirectoryBuilder>
    var symlinks: map<string, SymlinkNode>

    /** Where this directory sits below the root builder. */
    ghost const at: Path

    /** At the root builder: every directory below it, and every leaf, by path. */
    ghost var nodes: map<Path, DirectoryBuilder>
    ghost var leaves: map<Path, Skel>

    constructor (ghost p: Path)
      ensures files == map[] && directories == map[] && symlinks == map[]
      ensures at == p && nodes == map[p := this] && leaves == map[]
    {
      files, directories, symlinks := map[], map[], map[];
      at := p;
      leaves := map[];
      new;
      nodes := map[p := this];
    }

    ghost predicate Linked(nodes: map<Path, DirectoryBuilder>, leaves: map<Path, Skel>)
      reads `files, `directories, `symlinks
    {
      Agrees(at, files, directories, symlinks, nodes, leaves)
    }

    ghost function State(): Flat
      reads this
    {
      Flat(leaves, nodes.Keys)
    }

    /** Unlike the composer, the builder does not keep names disjoint: a directory may be made
        where there is a file or a link. */
    ghost predicate Valid()
      reads this, nodes.Values
    {
      && at == [] && [] in nodes && nodes[[]] == this
      && (forall p :: p in nodes ==> nodes[p].at == p && nodes[p].Linked(nodes, leaves))
      && WellFormed(State())
      && FilesAndLinks(leaves)
    }

    lemma AtRoot()
      requires Valid()
      ensures [] in nodes && nodes[[]] == this && at == [] && WellFormed(State())
      ensures Prefixes([]) <= State().dirs
    {
      PrefixesMade(State(), []);
    }

    lemma StartsEmpty()
      requires at == [] && nodes == map[[] := this] && leaves == map[]
      requires files == map[] && directories == map[] && symlinks == map[]
      ensures Valid() && State() == Empty()
    {
      assert forall n :: Child([], n) != [];
    }

    /** What the three maps of a directory say about the paths just below it. */
    lemma LooksUp(directory: DirectoryBuilder, p: Path, n: string)
      requires Valid() && p in nodes && nodes[p] == directory
      ensures directory.at == p
      ensures n in directory.files || n in directory.symlinks <==> Child(p, n) in leaves
      ensures n in directory.directories <==> Child(p, n) in nodes
      ensures n in directory.directories ==> directory.directories[n] == nodes[Child(p, n)]
    {
    }

    /** `directories.entry(name).or_default()`. */
    method Entry(ghost root: DirectoryBuilder, name: string) returns (child: DirectoryBuilder)
      requires root.Valid() && at in root.nodes && root.nodes[at] == this
      modifies root`nodes, this`directories
      ensures root.Valid() && root.leaves == old(root.leaves)
      ensures Child(at, name) in root.nodes && child == root.nodes[Child(at, name)]
      ensures child.at == Child(at, name)
      ensures root.nodes.Keys == old(root.nodes.Keys) + {Child(at, name)}
      ensures fresh(root.nodes.Values - old(root.nodes.Values))
    {
      hide Valid;
      root.LooksUp(this, at, name);
      if name !in directories {
        MakeChild(root, name);
      }
      root.LooksUp(this, at, name);
      child := directories[name];
      root.LooksUp(child, Child(at, name), name);
    }

    method MakeChild(ghost root: DirectoryBuilder, name: string)
      requires root.Valid() && at in root.nodes && root.nodes[at] == this
      requires name !in directories && Child(at, name) !in root.nodes
      modifies this`directories, root`nodes
      ensures root.Valid() && root.leaves == old(root.leaves)
      ensures root.nodes.Keys == old(root.nodes.Keys) + {Child(at, name)}
      ensures at in root.nodes && root.nodes[at] == this && name in directories
      ensures fresh(root.nodes.Values - old(root.nodes.Values))
    {
      hide Agrees, WellFormed;
      ghost var q := Child(at, name);
      ghost var was := root.nodes;
      MakingADirectory(root.State(), at, name);
      ChildParts(at, name);
      var child := new DirectoryBuilder(q);
      assert was[q := child].Keys - {q} == was.Keys;
      AgreesEmpty(q, was[q := child], root.leaves);
      AgreesHere(at, files, directories, symlinks, was, root.leaves, name, child);
      forall p | p in was && p != at
        ensures Agrees(p, was[p].files, was[p].directories, was[p].symlinks, was[q := child], root.leaves)
      {
        AgreesElsewhere(p, was[p].files, was[p].directories, was[p].symlinks, was, root.leaves, q, child);
      }
      directories := directories[name := child];
      root.nodes := root.nodes[q := child];
      assert root.State() == Flat(old(root.leaves), old(root.nodes).Keys + {q});
      forall p | p in root.nodes ensures root.nodes[p].at == p && root.nodes[p].Linked(root.nodes, root.leaves) {
        if p != q && p != at { assert root.nodes[p] == was[p] && was[p] != this; }
      }
    }

    /** Makes the directory at `components` below this one, and those that lead to it. */
    method EnsureDir(ghost root: DirectoryBuilder, components: Path)
      requires root.Valid() && at in root.nodes && root.nodes[at] == this
      modifies root, root.nodes.Values
      ensures root.Valid() && root.leaves == old(root.leaves)
      ensures root.State().dirs == old(root.State().dirs) + Prefixes(at + components)
      ensures fresh(root.nodes.Values - old(root.nodes.Values))
      decreases |components|
    {
      hide Valid, WellFormed, Prefixes;
      root.AtRoot();
      if components == [] {
        assert at + components == at;
        PrefixesMade(root.State(), at);
        return;
      }
      var head, tail := components[0], components[1..];
      OnTheWay(at, components);
      var child := Entry(root, head);
      child.EnsureDir(root, tail);
    }

    /** The walk of `add_file` and `add_symlink`, making directories as it goes. */
    method Descend(parents: Path) returns (directory: DirectoryBuilder)
      requires Valid()
      modifies this, nodes.Values
      ensures Valid() && leaves == old(leaves)
      ensures parents in nodes && nodes[parents] == directory
      ensures State().dirs == old(State().dirs) + Prefixes(parents)
      ensures fresh(nodes.Values - old(nodes.Values))
    {
      hide Valid, WellFormed, Prefixes;
      AtRoot();
      assert parents[..0] == [];
      directory := this;
      for i := 0 to |parents|
        invariant Valid() && leaves == old(leaves)
        invariant parents[..i] in nodes && directory == nodes[parents[..i]] && directory.at == parents[..i]
        invariant State().dirs == old(State().dirs) + Prefixes(parents[..i])
        invariant fresh(nodes.Values - old(nodes.Values))
      {
        PrefixesMore(parents, i);
        assert Child(parents[..i], parents[i]) == parents[..i + 1];
        directory := directory.Entry(this, parents[i]);
      }
      assert parents[..|parents|] == parents;
    }

    predicate NameTaken(name: string)
      reads this
    {
      name in files || name in directories || name in symlinks
    }

    /** What holds of every directory once `leaf` is entered at `p`. */
    lemma BeforePlacing(directory: DirectoryBuilder, p: Path, leaf: Skel)
      requires Valid() && p != [] && p !in leaves
      requires Parent(p) in nodes && nodes[Parent(p)] == directory
      requires leaf.SFile? || leaf.SLink?
      ensures at == [] && [] in nodes && nodes[[]] == this
      ensures directory.at == Parent(p)
      ensures Agrees(Parent(p),
        if leaf.SFile? then directory.files[Last(p) := FileNode(Last(p), leaf.digest, leaf.exec)] else directory.files,
        directory.directories,
        if leaf.SLink? then directory.symlinks[Last(p) := SymlinkNode(Last(p), leaf.target)] else directory.symlinks,
        nodes, leaves[p := leaf])
      ensures forall q :: q in nodes && q != Parent(p) ==>
        nodes[q].at == q && nodes[q].Linked(nodes, leaves[p := leaf]) && nodes[q] != directory
      ensures WellFormed(Flat(leaves[p := leaf], nodes.Keys))
      ensures FilesAndLinks(leaves[p := leaf])
    {
      hide Agrees;
      ChildOfParent(p);
      AgreesLeaf(Parent(p), directory.files, directory.directories, directory.symlinks, nodes, leaves, Last(p), leaf);
      forall q | q in nodes && q != Parent(p)
        ensures nodes[q].at == q && nodes[q].Linked(nodes, leaves[p := leaf])
      {
        AgreesLeafElsewhere(q, nodes[q].files, nodes[q].directories, nodes[q].symlinks, nodes, leaves, p, leaf);
      }
    }

    lemma ValidAgain(directory: DirectoryBuilder, p: Path)
      requires at == [] && [] in nodes && nodes[[]] == this && p in nodes && nodes[p] == directory
      requires directory.at == p && directory.Linked(nodes, leaves)
      requires forall q :: q in nodes && q != p ==> nodes[q].at == q && nodes[q].Linked(nodes, leaves)
      requires WellFormed(State()) && FilesAndLinks(leaves)
      ensures Valid()
    {
      hide Agrees, WellFormed;
    }

    /** Adds a file.  The only thing refused is a name that is already taken; the directories
        that lead to it are made in any case. */
    method AddFile(components: Path, digest: Digest, exec: bool) returns (r: Result<(), BuildError>)
      requires Valid()
      modifies this, nodes.Values
      ensures Valid() && fresh(nodes.Values - old(nodes.Values))
      ensures r.Ok? <==> components != [] && components !in old(leaves) && components !in old(nodes)
      ensures r.Err? ==> r.error == if components == [] then NoComponents else Duplicate
      ensures components != [] ==>
        State().dirs == old(State().dirs) + Prefixes(Parent(components))
      ensures leaves == if r.Ok? then old(leaves)[components := SFile(Some(digest), exec)] else old(leaves)
    {
      hide Valid, WellFormed, Prefixes, Agrees, FilesAndLinks;
      if components == [] { return Err(NoComponents); }
      var name, parents := components[|components| - 1], components[..|components| - 1];
      assert Child(parents, name) == components && Parent(components) == parents;
      NotAboveItself(components);
      var directory := Descend(parents);
      LooksUp(directory, parents, name);
      if directory.NameTaken(name) { return Err(Duplicate); }
      PlaceFile(directory, components, FileNode(name, Some(digest), exec));
      r := Ok(());
    }

    /** `directory.files.insert`, and the root's account of it. */
    method PlaceFile(directory: DirectoryBuilder, ghost p: Path, node: FileNode)
      requires Valid() && p != [] && p !in leaves && node.name == Last(p)
      requires Parent(p) in nodes && nodes[Parent(p)] == directory
      modifies this`leaves, directory`files
      ensures Valid() && leaves == old(leaves)[p := SFile(node.digest, node.exec)]
    {
      hide Valid, WellFormed, Agrees, FilesAndLinks;
      BeforePlacing(directory, p, SFile(node.digest, node.exec));
      directory.files := directory.files[node.name := node];
      leaves := leaves[p := SFile(node.digest, node.exec)];
      ValidAgain(directory, Parent(p));
    }

    /** `directory.symlinks.insert`, and the root's account of it. */
    method PlaceSymlink(directory: DirectoryBuilder, ghost p: Path, node: SymlinkNode)
      requires Valid() && p != [] && p !in leaves && node.name == Last(p)
      requires Parent(p) in nodes && nodes[Parent(p)] == directory
      modifies this`leaves, directory`symlinks
      ensures Valid() && leaves == old(leaves)[p := SLink(node.target)]
    {
      hide Valid, WellFormed, Agrees, FilesAndLinks;
      BeforePlacing(directory, p, SLink(node.target));
      directory.symlinks := directory.symlinks[node.name := node];
      leaves := leaves[p := SLink(node.target)];
      ValidAgain(directory, Parent(p));
    }

    /** Adds a link, under the same condition. */
    method AddSymlink(components: Path, target: string) returns (r: Result<(), BuildError>)
      requires Valid()
      modifies this, nodes.Values
      ensures Valid() && fresh(nodes.Values - old(nodes.Values))
      ensures r.Ok? <==> components != [] && components !in old(leaves) && components !in old(nodes)
      ensures r.Err? ==> r.error == if components == [] then NoComponents else Duplicate
      ensures components != [] ==>
        State().dirs == old(State().dirs) + Prefixes(Parent(components))
      ensures leaves == if r.Ok? then old(leaves)[components := SLink(target)] else old(leaves)
    {
      hide Valid, WellFormed, Prefixes, Agrees, FilesAndLinks;
      if components == [] { return Err(NoComponents); }
      var name, parents := components[|components| - 1], components[..|components| - 1];
      assert Child(parents, name) == components && Parent(components) == parents;
      NotAboveItself(components);
      var directory := Descend(parents);
      LooksUp(directory, parents, name);
      if directory.NameTaken(name) { return Err(Duplicate); }
      PlaceSymlink(directory, components, SymlinkNode(name, target));
      r := Ok(());
    }

    /** The message and digest of this directory. */
    method IntoDirectory(c: Codec, ghost root: DirectoryBuilder) returns (directory: Directory, digest: Digest)
      requires root.Valid() && at in root.nodes && root.nodes[at] == this
      ensures directory == MsgAt(c, root.State(), at)
      ensures digest == c.DigestOf(BlobAt(c, root.State(), at))
      ensures InNameOrder(directory)
      ensures digest == Digest(c.hash(c.encodeDirectory(directory)), |c.encodeDirectory(directory)|)
      decreases Below(root.State().dirs, at)
    {
      hide Valid, WellFormed, Below, MsgAt, BlobAt, DirMapAt, InOrder, ListsSome, DigestAt, DirectoryAt, InNameOrder;
      ghost var f := root.State();
      MsgAtInOrder(c, f, at);
      MapsAre(c, root);
      var nodes: seq<DirectoryNode> := [];
      var names := InOrder(directories.Keys);
      assert names[..0] == [];
      NothingListed(c, f, at);
      for i := 0 to |names|
        invariant ListsSome(c, f, at, nodes, names[..i])
      {
        var name := names[i];
        var child := directories[name];
        BelowShrinks(f.dirs, at, name);
        ChildIsNode(root, name);
        NamesDistinct(directories.Keys, i);
        var childDirectory, childDigest := child.IntoDirectory(c, root);
        DigestOfMade(c, f, Child(at, name));
        ListsSomeMore(c, f, at, nodes, names, i, Some(childDigest));
        nodes := nodes + [DirectoryNode(name, Some(childDigest))];
      }
      assert names[..|names|] == names;
      ListsInOrder(c, f, at, nodes, directories.Keys);
      AssembledMsg(c, f, at);
      directory := Directory(ValuesInOrder(files), nodes, ValuesInOrder(symlinks));
      digest := c.DigestOf(c.encodeDirectory(directory));
    }

    lemma MapsAre(c: Codec, root: DirectoryBuilder)
      requires root.Valid() && at in root.nodes && root.nodes[at] == this
      ensures files == FileMapAt(root.State(), at) && symlinks == LinkMapAt(root.State(), at)
      ensures forall n :: n in directories <==> Child(at, n) in root.State().dirs
      ensures forall n :: n in directories <==> DirectoryAt(root.State(), Child(at, n))
    {
      hide FileMapAt, LinkMapAt;
    }

    lemma ChildIsNode(root: DirectoryBuilder, name: string)
      requires root.Valid() && at in root.nodes && root.nodes[at] == this && name in directories
      ensures directories[name].at == Child(at, name)
      ensures Child(at, name) in root.nodes && root.nodes[Child(at, name)] == directories[name]
    {
    }
  }

  lemma OnTheWay(p: Path, components: Path)
    requires components != []
    ensures Child(p, components[0]) + components[1..] == p + components
    ensures Child(p, components[0]) in Prefixes(p + components)
  {
    assert Child(p, components[0]) + components[1..] == p + components;
  }

  lemma NotAboveItself(p: Path)
    requires p != []
    ensures p !in Prefixes(Parent(p))
  {
  }

  lemma NothingListed(c: Codec, f: Flat, p: Path)
    ensures ListsSome(c, f, p, [], [])
  {
  }

  lemma DigestOfMade(c: Codec, f: Flat, q: Path)
    requires q in f.dirs
    ensures DirectoryAt(f, q) && DigestAt(c, f, q) == Some(c.DigestOf(BlobAt(c, f, q)))
  {
  }

  lemma ListsInOrder(c: Codec, f: Flat, p: Path, nodes: seq<DirectoryNode>, names: set<string>)
    requires ListsSome(c, f, p, nodes, InOrder(names))
    requires forall n :: DirectoryAt(f, Child(p, n)) ==> n in names
    ensures nodes == ValuesInOrder(DirMapAt(c, f, p))
  {
    DirMapAtEntries(c, f, p);
    assert DirMapAt(c, f, p).Keys == names;
    hide DirMapAt, DigestAt, DirectoryAt;
  }

  lemma AssembledMsg(c: Codec, f: Flat, p: Path)
    ensures MsgAt(c, f, p) ==
      Directory(ValuesInOrder(FileMapAt(f, p)), ValuesInOrder(DirMapAt(c, f, p)), ValuesInOrder(LinkMapAt(f, p)))
    ensures BlobAt(c, f, p) == c.encodeDirectory(MsgAt(c, f, p))
  {
  }

  // ---------------------------------------------------------------- from a walk to a digest

  /** One entry of a directory walk, at its path below the root. */
  datatype WalkEntry = WalkEntry(path: Path, entry: D.Entry)

  datatype PendingFile = PendingFile(components: Path, content: Bytes, exec: bool)

  /** A walk of a tree: every path below the root once, with what is there.  The order does
      not matter. */
  ghost predicate WalkOf(walk: seq<WalkEntry>, n: D.Node) {
    && (forall i :: 0 <= i < |walk| ==>
         walk[i].path != [] && D.EntryAt(n, walk[i].path) == Some(walk[i].entry))
    && (forall i, j :: 0 <= i < j < |walk| ==> walk[i].path != walk[j].path)
    && (forall p :: p != [] && D.EntryAt(n, p).Some? ==> Visited(walk, p))
  }

  ghost predicate Visited(walk: seq<WalkEntry>, p: Path) {
    exists i :: 0 <= i < |walk| && walk[i].path == p
  }

  function Normal(target: string): string {
    if Normalised(target).Some? then Normalised(target).value else target
  }

  /** The reading of re-dispatch: any executable bit, link targets normalised. */
  function Dispatch(): D.Reading { D.Reading(D.AnyExec, Normal) }

  /** What re-dispatch sees of the entry at a path: a file by the digest of its content and by whether anyone
      may execute it, a link by the components its target leads through. */
  ghost predicate DispatchSeesAt(c: Codec, t: Skel, n: D.Node, p: Path) {
    match (D.EntryAt(n, p), Sub(t, p))
    case (None, None) => true
    case (Some(EFile(content, mode)), Some(SFile(digest, exec))) =>
      && digest == Some(Digest(c.hash(content), |content|))
      && (exec <==> mode / 0x40 % 2 == 1 || mode / 8 % 2 == 1 || mode % 2 == 1)
    case (Some(ELink(target)), Some(SLink(seen))) =>
      StepsOf(target) != [] && !Absolute(target) ==> seen == Join(StepsOf(target), '/')
    case (Some(EDir), Some(SDir(_))) => true
    case _ => false
  }

  ghost predicate DispatchSees(c: Codec, t: Skel, n: D.Node) { forall p :: DispatchSeesAt(c, t, n, p) }

  lemma DispatchDigestsWhatItSees(c: Codec, n: D.Node)
    ensures DispatchSees(c, D.Digested(c, Dispatch(), n), n)
  {
    hide D.Digested, D.NodeAt, Sub, Normalised, StepsOf;
    forall p ensures DispatchSeesAt(c, D.Digested(c, Dispatch(), n), n, p) {
      D.DigestedAt(c, Dispatch(), n, p);
      if D.NodeAt(n, p).Some? {
        D.DigestedEntry(c, Dispatch(), D.NodeAt(n, p).value);
        if D.NodeAt(n, p).value.Link? { NormalisedSteps(D.NodeAt(n, p).value.target); }
      }
    }
  }

  /** The digest is that of a message that tells of the tree as re-dispatch sees it. */
  ghost predicate SerializedFrom(c: Codec, n: D.Node, digest: Digest) {
    exists t: Skel, d: Directory ::
      && t.SDir? && DispatchSees(c, t, n) && Tells(c, d, t)
      && digest == Digest(c.hash(c.encodeDirectory(d)), |c.encodeDirectory(d)|)
  }

  lemma RootDigestTells(c: Codec, n: D.Node)
    requires n.Dir?
    ensures D.RootDigest(c, Dispatch(), n).Some? && SerializedFrom(c, n, D.RootDigest(c, Dispatch(), n).value)
  {
    var t := D.Digested(c, Dispatch(), n);
    assert t.SDir?;
    hide D.Digested, Msg, Tells, DispatchSees;
    DispatchDigestsWhatItSees(c, n);
    MsgTells(c, t);
    DirDigestSpelled(c, t);
  }

  /** What only the file system can say: whether the target of the link at a path resolves to
      something inside the root. */
  type Resolver = (Path, string) -> bool

  /** A link target is acceptable when it is relative, resolves inside the root, and is not empty. */
  predicate Acceptable(inside: Resolver, p: Path, target: string) {
    Normalised(target).Some? && inside(p, target)
  }

  /** `validate_symlink_target`: an acceptable target, normalised. */
  function LinkTarget(inside: Resolver, p: Path, target: string): (r: Option<string>)
    ensures r.Some? <==> Acceptable(inside, p, target)
    ensures r.Some? ==> r == Normalised(target)
  {
    if target != "" && target[0] == '/' then None
    else if !inside(p, target) then None
    else Normalised(target)
  }

  /** Every link of the tree has an acceptable target. */
  ghost predicate LinksAcceptable(inside: Resolver, n: D.Node) {
    forall p :: (D.EntryAt(n, p).Some? && D.EntryAt(n, p).value.ELink?) ==>
      Acceptable(inside, p, D.EntryAt(n, p).value.target)
  }

  ghost function LeafOf(c: Codec, e: D.Entry): Skel {
    match e
    case EFile(content, mode) => SFile(Some(c.DigestOf(content)), D.AnyExec(mode))
    case ELink(target) => SLink(Normal(target))
    case EDir => SDir(map[])
  }

  /** The builder holds what the walk has delivered at the paths in `done`, and no directory
      that the tree does not have. */
  ghost predicate Delivered(c: Codec, f: Flat, n: D.Node, done: set<Path>) {
    && (forall q :: q in f.dirs ==> D.EntryAt(n, q) == Some(D.EDir))
    && (forall q :: q in f.leaves ==>
         q in done && D.EntryAt(n, q).Some? && !D.EntryAt(n, q).value.EDir? &&
         f.leaves[q] == LeafOf(c, D.EntryAt(n, q).value))
    && (forall q :: q in done ==> D.EntryAt(n, q).Some?)
    && (forall q :: q in done ==> if D.EntryAt(n, q).value.EDir? then q in f.dirs else q in f.leaves)
  }

  lemma DeliveredDir(c: Codec, f: Flat, n: D.Node, done: set<Path>, p: Path)
    requires Delivered(c, f, n, done) && D.EntryAt(n, p) == Some(D.EDir)
    ensures Delivered(c, Flat(f.leaves, f.dirs + Prefixes(p)), n, done + {p})
  {
    forall q | q in Prefixes(p) ensures D.EntryAt(n, q) == Some(D.EDir) {
      if q != p { D.AboveIsDir(n, p, q); }
    }
  }

  lemma DeliveredLeaf(c: Codec, f: Flat, n: D.Node, done: set<Path>, p: Path, e: D.Entry)
    requires Delivered(c, f, n, done) && p != [] && D.EntryAt(n, p) == Some(e) && !e.EDir?
    ensures p !in f.dirs && (p in f.leaves ==> p in done)
    ensures Delivered(c, Flat(f.leaves[p := LeafOf(c, e)], f.dirs + Prefixes(Parent(p))), n, done + {p})
  {
    forall q | q in Prefixes(Parent(p)) ensures D.EntryAt(n, q) == Some(D.EDir) {
      PrefixIsSlice(q, p);
      PrefixIsSlice(q, Parent(p));
      D.AboveIsDir(n, p, q);
    }
  }

  /** Once everything is delivered, the builder's tree is the tree that was walked. */
  lemma {:induction false} DeliveredTree(c: Codec, f: Flat, n: D.Node, done: set<Path>, p: Path, m: D.Node)
    requires Delivered(c, f, n, done) && [] in f.dirs
    requires forall q :: q in done <==> q != [] && D.EntryAt(n, q).Some?
    requires D.NodeAt(n, p) == Some(m) && m.Dir?
    ensures TreeAt(f, p) == D.Digested(c, Dispatch(), m)
    decreases m
  {
    hide TreeAt, Delivered;
    TreeAtKids(f, p);
    forall k
      ensures k in TreeAt(f, p).kids <==> k in m.kids
      ensures k in m.kids ==> TreeAt(f, p).kids[k] == D.Digested(c, Dispatch(), m.kids[k])
    {
      D.NodeAtStep(n, p, k);
      assert Child(p, k) == p + [k];
      DeliveredAt(c, f, n, done, Child(p, k));
      if k in m.kids && m.kids[k].Dir? {
        DeliveredTree(c, f, n, done, Child(p, k), m.kids[k]);
      }
    }
    assert TreeAt(f, p).kids == D.Digested(c, Dispatch(), m).kids;
  }

  lemma DeliveredAt(c: Codec, f: Flat, n: D.Node, done: set<Path>, q: Path)
    requires Delivered(c, f, n, done) && q != []
    requires forall r :: r in done <==> r != [] && D.EntryAt(n, r).Some?
    ensures q in f.dirs <==> D.EntryAt(n, q) == Some(D.EDir)
    ensures q in f.leaves <==> D.EntryAt(n, q).Some? && !D.EntryAt(n, q).value.EDir?
    ensures q in f.leaves ==> f.leaves[q] == LeafOf(c, D.EntryAt(n, q).value)
  {
  }

  lemma DeliveredIsDisjoint(c: Codec, f: Flat, n: D.Node, done: set<Path>)
    requires Delivered(c, f, n, done)
    ensures Disjoint(f)
  {
  }

  /** The files seen so far wait to be read: each path once, apart from what is done. */
  ghost predicate Waiting(pending: seq<PendingFile>, n: D.Node, done: set<Path>) {
    && (forall i :: 0 <= i < |pending| ==> Waits(pending[i], n, done))
    && (forall i, j :: 0 <= i < j < |pending| ==> pending[i].components != pending[j].components)
  }

  ghost predicate Waits(file: PendingFile, n: D.Node, done: set<Path>) {
    && file.components != [] && file.components !in done
    && D.EntryAt(n, file.components).Some?
    && D.EntryAt(n, file.components).value.EFile?
    && D.EntryAt(n, file.components).value.content == file.content
    && D.AnyExec(D.EntryAt(n, file.components).value.mode) == file.exec
  }

  ghost function Components(pending: seq<PendingFile>): set<Path> {
    set i | 0 <= i < |pending| :: pending[i].components
  }

  /** Makes the directories and links of a walk, and puts the files aside.  It fails only for a
      link whose target is not acceptable: the builder never meets a duplicate. */
  method TakeWalk(builder: DirectoryBuilder, ghost c: Codec, inside: Resolver, walk: seq<WalkEntry>, ghost n: D.Node)
    returns (r: Result<seq<PendingFile>, BuildError>, ghost done: set<Path>)
    requires builder.Valid() && builder.State() == Empty() && n.Dir? && WalkOf(walk, n)
    modifies builder, builder.nodes.Values
    ensures builder.Valid() && fresh(builder.nodes.Values - old(builder.nodes.Values))
    ensures r.Ok? <==> LinksAcceptable(inside, n)
    ensures r.Err? ==> r.error == BadLink
    ensures r.Ok? ==> Delivered(c, builder.State(), n, done) && Waiting(r.value, n, done)
    ensures r.Ok? ==> done + Components(r.value) == WalkedPaths(walk)
  {
    hide Delivered, Waiting, DirectoryBuilder.Valid, Prefixes, WellFormed, Normalised, Waits, WalkOf, LinksAcceptable,
      Acceptable, LinksFine, WalkedPaths, Components, D.AnyExec;
    var pending: seq<PendingFile> := [];
    done := {};
    NothingDelivered(c, n);
    NothingWalked(inside, walk);
    for i := 0 to |walk|
      invariant builder.Valid() && fresh(builder.nodes.Values - old(builder.nodes.Values))
      invariant Delivered(c, builder.State(), n, done)
      invariant Waiting(pending, n, done)
      invariant done + Components(pending) == WalkedPaths(walk[..i])
      invariant LinksFine(inside, walk[..i])
    {
      var p := walk[i].path;
      NotWalkedBefore(walk, n, i);
      match walk[i].entry {
        case EDir =>
          DeliveredDir(c, builder.State(), n, done, p);
          assert [] + p == p;
          builder.AtRoot();
          builder.EnsureDir(builder, p);
          WaitingStill(pending, n, done, p);
          done := done + {p};
        case EFile(content, mode) =>
          var file := PendingFile(p, content, D.AnyExec(mode));
          WaitingMore(pending, n, done, file, mode);
          pending := pending + [file];
        case ELink(target) =>
          var normalised := LinkTarget(inside, p, target);
          if normalised.None? {
            BadLinkFound(inside, n, p, target);
            return Err(BadLink), done;
          }
          DeliveredLeaf(c, builder.State(), n, done, p, walk[i].entry);
          var added := builder.AddSymlink(p, normalised.value);
          assert added.Ok?;  // never a duplicate
          WaitingStill(pending, n, done, p);
          done := done + {p};
      }
      FineSoFar(inside, walk, i);
    }
    assert walk[..|walk|] == walk;
    LinksWalked(inside, walk, n);
    r := Ok(pending);
  }

  /** The links of a walk have acceptable targets. */
  ghost predicate LinksFine(inside: Resolver, walk: seq<WalkEntry>) {
    forall j :: 0 <= j < |walk| && walk[j].entry.ELink? ==> Acceptable(inside, walk[j].path, walk[j].entry.target)
  }

  lemma FineSoFar(inside: Resolver, walk: seq<WalkEntry>, i: nat)
    requires i < |walk| && LinksFine(inside, walk[..i])
    requires walk[i].entry.ELink? ==> Acceptable(inside, walk[i].path, walk[i].entry.target)
    ensures LinksFine(inside, walk[..i + 1])
  {
    assert walk[..i + 1] == walk[..i] + [walk[i]];
  }

  lemma BadLinkFound(inside: Resolver, n: D.Node, p: Path, target: string)
    requires D.EntryAt(n, p) == Some(D.ELink(target)) && !Acceptable(inside, p, target)
    ensures !LinksAcceptable(inside, n)
  {
  }

  lemma NothingWalked(inside: Resolver, walk: seq<WalkEntry>)
    ensures {} + Components([]) == WalkedPaths(walk[..0]) && LinksFine(inside, walk[..0])
  {
  }

  /** Adds the files that were put aside.  Again the builder meets no duplicate. */
  method TakeFiles(builder: DirectoryBuilder, c: Codec, pending: seq<PendingFile>, ghost n: D.Node,
      ghost before: set<Path>, ghost all: set<Path>)
    requires builder.Valid() && Delivered(c, builder.State(), n, before) && Waiting(pending, n, before)
    requires before + Components(pending) == all
    modifies builder, builder.nodes.Values
    ensures builder.Valid() && fresh(builder.nodes.Values - old(builder.nodes.Values))
    ensures Delivered(c, builder.State(), n, all)
  {
    hide Delivered, Waiting, DirectoryBuilder.Valid, Prefixes, WellFormed, Waits;
    ghost var done := before;
    assert pending[0..] == pending;
    for i := 0 to |pending|
      invariant builder.Valid() && fresh(builder.nodes.Values - old(builder.nodes.Values))
      invariant Delivered(c, builder.State(), n, done)
      invariant Waiting(pending[i..], n, done)
      invariant done + Components(pending[i..]) == all
    {
      var file := pending[i];
      ghost var e := D.EntryAt(n, file.components);
      WaitingFirst(pending, n, done, i);
      DeliveredLeaf(c, builder.State(), n, done, file.components, e.value);
      var added := builder.AddFile(file.components, c.DigestOf(file.content), file.exec);
      assert added.Ok?;  // never a duplicate
      done := done + {file.components};
    }
    assert Components(pending[|pending|..]) == {};
    assert done == all;
  }

  /** The root digest of a walked tree, made by way of the builder.  It fails only for a link
      whose target is not acceptable. */
  method Run(c: Codec, inside: Resolver, walk: seq<WalkEntry>, ghost n: D.Node) returns (r: Result<Digest, BuildError>)
    requires n.Dir? && WalkOf(walk, n)
    ensures r.Ok? <==> LinksAcceptable(inside, n)
    ensures r.Err? ==> r.error == BadLink
    ensures r.Ok? ==> Some(r.value) == D.RootDigest(c, Dispatch(), n) && SerializedFrom(c, n, r.value)
  {
    hide *;
    RootDigestTells(c, n);
    var builder := new DirectoryBuilder([]);
    builder.StartsEmpty();
    var taken: Result<seq<PendingFile>, BuildError>;
    ghost var done;
    taken, done := TakeWalk(builder, c, inside, walk, n);
    if taken.Err? { return Err(taken.error); }
    TakeFiles(builder, c, taken.value, n, done, WalkedPaths(walk));
    AllWalked(walk, n);
    var digest := DigestOfWalked(builder, c, n, WalkedPaths(walk));
    r := Ok(digest);
  }

  method DigestOfWalked(builder: DirectoryBuilder, c: Codec, ghost n: D.Node, ghost done: set<Path>)
    returns (digest: Digest)
    requires builder.Valid() && n.Dir? && Delivered(c, builder.State(), n, done)
    requires forall q :: q in done <==> q != [] && D.EntryAt(n, q).Some?
    ensures Some(digest) == D.RootDigest(c, Dispatch(), n)
  {
    hide *;
    builder.AtRoot();
    WalkedTree(c, builder.State(), n, done);
    var directory;
    directory, digest := builder.IntoDirectory(c, builder);
  }

  ghost function WalkedPaths(walk: seq<WalkEntry>): set<Path> {
    set i | 0 <= i < |walk| :: walk[i].path
  }

  lemma NothingDelivered(c: Codec, n: D.Node)
    requires n.Dir?
    ensures Delivered(c, Empty(), n, {}) && Waiting([], n, {})
  {
  }

  lemma NotWalkedBefore(walk: seq<WalkEntry>, n: D.Node, i: nat)
    requires WalkOf(walk, n) && i < |walk|
    ensures walk[i].path !in WalkedPaths(walk[..i])
    ensures WalkedPaths(walk[..i + 1]) == WalkedPaths(walk[..i]) + {walk[i].path}
    ensures walk[i].path != [] && D.EntryAt(n, walk[i].path) == Some(walk[i].entry)
  {
    assert forall j :: 0 <= j < i ==> walk[..i][j] == walk[..i + 1][j] == walk[j];
    assert walk[..i + 1][i] == walk[i];
  }

  lemma WaitingStill(pending: seq<PendingFile>, n: D.Node, done: set<Path>, p: Path)
    requires Waiting(pending, n, done) && p !in Components(pending)
    ensures Waiting(pending, n, done + {p})
  {
    forall i | 0 <= i < |pending| ensures pending[i].components != p {
      assert pending[i].components in Components(pending);
    }
  }

  lemma WaitingMore(pending: seq<PendingFile>, n: D.Node, done: set<Path>, file: PendingFile, mode: nat)
    requires Waiting(pending, n, done) && file.components !in Components(pending) && file.components !in done
    requires file.components != [] && D.EntryAt(n, file.components) == Some(D.EFile(file.content, mode))
    requires file.exec == D.AnyExec(mode)
    ensures Waiting(pending + [file], n, done)
    ensures Components(pending + [file]) == Components(pending) + {file.components}
  {
    var more := pending + [file];
    assert forall i :: 0 <= i < |pending| ==> more[i] == pending[i];
    assert more[|pending|] == file;
    forall i | 0 <= i < |pending| ensures pending[i].components != file.components {
      assert pending[i].components in Components(pending);
    }
  }

  lemma WaitingFirst(pending: seq<PendingFile>, n: D.Node, done: set<Path>, i: nat)
    requires i < |pending| && Waiting(pending[i..], n, done)
    ensures pending[i].components != [] && D.EntryAt(n, pending[i].components).Some?
    ensures LeafOfFile(pending[i], D.EntryAt(n, pending[i].components).value)
    ensures pending[i].components !in done
    ensures Waiting(pending[i + 1..], n, done + {pending[i].components})
    ensures Components(pending[i..]) == {pending[i].components} + Components(pending[i + 1..])
  {
    var rest, next := pending[i..], pending[i + 1..];
    assert rest == [pending[i]] + next;
    assert rest[0] == pending[i] && Waits(rest[0], n, done);
    forall j | 0 <= j < |next|
      ensures next[j] == rest[j + 1] && Waits(next[j], n, done + {pending[i].components})
    {
      assert Waits(rest[j + 1], n, done);
    }
  }

  ghost predicate LeafOfFile(file: PendingFile, e: D.Entry) {
    e.EFile? && e.content == file.content && D.AnyExec(e.mode) == file.exec
  }

  lemma AllWalked(walk: seq<WalkEntry>, n: D.Node)
    requires WalkOf(walk, n)
    ensures forall q :: q in WalkedPaths(walk) <==> q != [] && D.EntryAt(n, q).Some?
  {
    forall q | q != [] && D.EntryAt(n, q).Some? ensures q in WalkedPaths(walk) {
      assert Visited(walk, q);
    }
  }

  lemma LinksWalked(inside: Resolver, walk: seq<WalkEntry>, n: D.Node)
    requires WalkOf(walk, n) && n.Dir? && LinksFine(inside, walk)
    ensures LinksAcceptable(inside, n)
  {
    forall p | D.EntryAt(n, p).Some? && D.EntryAt(n, p).value.ELink?
      ensures Acceptable(inside, p, D.EntryAt(n, p).value.target)
    {
      if p != [] {
        assert Visited(walk, p);
        var j :| 0 <= j < |walk| && walk[j].path == p;
        assert walk[j].entry.ELink?;
      }
    }
  }

  lemma WalkedTree(c: Codec, f: Flat, n: D.Node, done: set<Path>)
    requires Delivered(c, f, n, done) && WellFormed(f) && n.Dir?
    requires forall q :: q in done <==> q != [] && D.EntryAt(n, q).Some?
    ensures Some(c.DigestOf(BlobAt(c, f, []))) == D.RootDigest(c, Dispatch(), n)
  {
    DeliveredIsDisjoint(c, f, n, done);
    assert [] in f.dirs;
    hide Delivered, WellFormed, Disjoint, TreeAt, MsgAt, D.Digested, Msg;
    DeliveredTree(c, f, n, done, [], n);
    MsgAtIsMsg(c, f, []);
    assert BlobAt(c, f, []) == DirBlob(c, TreeAt(f, []));
  }

  // ---------------------------------------------------------------- the sorted preorder walk

  /** The walk of the named entries of a directory, each followed by what is below it. */
  function SortedWalk(n: D.Node, names: seq<string>): seq<WalkEntry>
    requires n.Dir? && forall k :: k in names ==> k in n.kids
    decreases n, 1, |names|
  {
    if names == [] then []
    else
      var k := names[|names| - 1];
      SortedWalk(n, names[..|names| - 1]) + Shifted(k, WalkFrom(n.kids[k]))
  }

  function WalkFrom(n: D.Node): seq<WalkEntry>
    decreases n, 2
  {
    [WalkEntry([], D.EntryOf(n))] + if n.Dir? then SortedWalk(n, InOrder(n.kids.Keys)) else []
  }

  function Shifted(k: string, walk: seq<WalkEntry>): (r: seq<WalkEntry>)
    ensures |r| == |walk|
    ensures forall i :: 0 <= i < |r| ==> r[i] == WalkEntry([k] + walk[i].path, walk[i].entry)
  {
    seq(|walk|, i requires 0 <= i < |walk| => WalkEntry([k] + walk[i].path, walk[i].entry))
  }

  /** A walk of what is below the named entries. */
  ghost predicate WalkOfSome(walk: seq<WalkEntry>, n: D.Node, names: seq<string>) {
    && (forall i :: 0 <= i < |walk| ==> EntryOfSome(walk[i], n, names))
    && (forall i, j :: 0 <= i < j < |walk| ==> walk[i].path != walk[j].path)
    && (forall p: Path :: p != [] && p[0] in names && D.EntryAt(n, p).Some? ==> Visited(walk, p))
  }

  ghost predicate EntryOfSome(e: WalkEntry, n: D.Node, names: seq<string>) {
    e.path != [] && e.path[0] in names && D.EntryAt(n, e.path) == Some(e.entry)
  }

  ghost predicate WalkOfAll(walk: seq<WalkEntry>, n: D.Node) {
    && (forall i :: 0 <= i < |walk| ==> D.EntryAt(n, walk[i].path) == Some(walk[i].entry))
    && (forall i, j :: 0 <= i < j < |walk| ==> walk[i].path != walk[j].path)
    && (forall p :: D.EntryAt(n, p).Some? ==> Visited(walk, p))
  }

  lemma {:induction false} WalkFromIsWalk(n: D.Node)
    ensures WalkOfAll(WalkFrom(n), n)
    decreases n, 2
  {
    if n.Dir? {
      NamesAreDistinct(n.kids.Keys);
      SortedWalkIsWalk(n, InOrder(n.kids.Keys));
      DirectoryWalk(n);
    } else {
      var walk := WalkFrom(n);
      forall p | D.EntryAt(n, p).Some? ensures Visited(walk, p) {
        assert p == [] && walk[0].path == p;
      }
    }
  }

  lemma DirectoryWalk(n: D.Node)
    requires n.Dir? && WalkOfSome(SortedWalk(n, InOrder(n.kids.Keys)), n, InOrder(n.kids.Keys))
    ensures WalkOfAll(WalkFrom(n), n)
  {
    var walk, names := WalkFrom(n), InOrder(n.kids.Keys);
    var rest := SortedWalk(n, names);
    assert walk == [WalkEntry([], D.EDir)] + rest;
    assert D.EntryAt(n, []) == Some(D.EDir);
    RootFirst(n, names);
    WithRoot(rest, n, names);
  }

  lemma WithRoot(rest: seq<WalkEntry>, n: D.Node, names: seq<string>)
    requires WalkOfSome(rest, n, names) && D.EntryAt(n, []) == Some(D.EDir)
    requires forall p: Path :: p != [] && D.EntryAt(n, p).Some? ==> p[0] in names
    ensures WalkOfAll([WalkEntry([], D.EDir)] + rest, n)
  {
    hide D.EntryAt;
    var walk := [WalkEntry([], D.EDir)] + rest;
    forall i | 0 < i < |walk| ensures walk[i] == rest[i - 1] && EntryOfSome(walk[i], n, names) {
      assert EntryOfSome(rest[i - 1], n, names);
    }
    forall p | D.EntryAt(n, p).Some? ensures Visited(walk, p) {
      if p == [] {
        assert walk[0].path == p;
      } else {
        assert Visited(rest, p);
        var i :| 0 <= i < |rest| && rest[i].path == p;
        assert walk[i + 1].path == p;
      }
    }
  }

  lemma RootFirst(n: D.Node, names: seq<string>)
    requires n.Dir? && names == InOrder(n.kids.Keys)
    ensures forall p: Path :: p != [] && D.EntryAt(n, p).Some? ==> p[0] in names
  {
  }

  lemma NamesAreDistinct(ks: set<string>)
    ensures forall i, j :: 0 <= i < j < |InOrder(ks)| ==> InOrder(ks)[i] != InOrder(ks)[j]
  {
    forall i, j | 0 <= i < j < |InOrder(ks)| ensures InOrder(ks)[i] != InOrder(ks)[j] {
      LtIrreflexive(InOrder(ks)[i]);
    }
  }

  lemma {:induction false} SortedWalkIsWalk(n: D.Node, names: seq<string>)
    requires n.Dir? && forall k :: k in names ==> k in n.kids
    requires forall i, j :: 0 <= i < j < |names| ==> names[i] != names[j]
    ensures WalkOfSome(SortedWalk(n, names), n, names)
    decreases n, 1, |names|
  {
    if names != [] {
      var front, k := names[..|names| - 1], names[|names| - 1];
      SortedWalkIsWalk(n, front);
      WalkFromIsWalk(n.kids[k]);
      WalksJoin(SortedWalk(n, front), WalkFrom(n.kids[k]), n, front, k);
      assert names == front + [k];
    }
  }

  lemma WalksJoin(walk: seq<WalkEntry>, below: seq<WalkEntry>, n: D.Node, names: seq<string>, k: string)
    requires n.Dir? && k in n.kids && k !in names
    requires WalkOfSome(walk, n, names) && WalkOfAll(below, n.kids[k])
    ensures WalkOfSome(walk + Shifted(k, below), n, names + [k])
  {
    var all := walk + Shifted(k, below);
    forall i | 0 <= i < |all| ensures EntryOfSome(all[i], n, names + [k]) {
      JoinedEntry(walk, below, n, names, k, i);
    }
    forall i, j | 0 <= i < j < |all| ensures all[i].path != all[j].path {
      JoinedDiffer(walk, below, n, names, k, i, j);
    }
    forall p: Path | p != [] && p[0] in names + [k] && D.EntryAt(n, p).Some? ensures Visited(all, p) {
      JoinedVisits(walk, below, n, names, k, p);
    }
  }

  lemma JoinedEntry(walk: seq<WalkEntry>, below: seq<WalkEntry>, n: D.Node, names: seq<string>, k: string, i: nat)
    requires n.Dir? && k in n.kids && i < |walk| + |below|
    requires WalkOfSome(walk, n, names) && WalkOfAll(below, n.kids[k])
    ensures EntryOfSome((walk + Shifted(k, below))[i], n, names + [k])
  {
    var all, m := walk + Shifted(k, below), |walk|;
    if i < m {
      assert EntryOfSome(walk[i], n, names);
    } else {
      assert all[i] == Shifted(k, below)[i - m] && ([k] + below[i - m].path)[1..] == below[i - m].path;
    }
  }

  lemma JoinedDiffer(walk: seq<WalkEntry>, below: seq<WalkEntry>, n: D.Node, names: seq<string>, k: string,
      i: nat, j: nat)
    requires n.Dir? && k in n.kids && k !in names && i < j < |walk| + |below|
    requires WalkOfSome(walk, n, names) && WalkOfAll(below, n.kids[k])
    ensures (walk + Shifted(k, below))[i].path != (walk + Shifted(k, below))[j].path
  {
    hide D.NodeAt;
    var all, shifted, m := walk + Shifted(k, below), Shifted(k, below), |walk|;
    if j >= m {
      assert all[j] == shifted[j - m];
      if i < m {
        assert EntryOfSome(walk[i], n, names);
      } else {
        assert all[i] == shifted[i - m];
        assert all[i].path[1..] == below[i - m].path && all[j].path[1..] == below[j - m].path;
      }
    }
  }

  lemma JoinedVisits(walk: seq<WalkEntry>, below: seq<WalkEntry>, n: D.Node, names: seq<string>, k: string, p: Path)
    requires n.Dir? && k in n.kids && p != [] && p[0] in names + [k] && D.EntryAt(n, p).Some?
    requires WalkOfSome(walk, n, names) && WalkOfAll(below, n.kids[k])
    ensures Visited(walk + Shifted(k, below), p)
  {
    var all := walk + Shifted(k, below);
    if p[0] in names {
      assert Visited(walk, p);
      var i :| 0 <= i < |walk| && walk[i].path == p;
      assert all[i].path == p;
    } else {
      assert p == [k] + p[1..];
      assert Visited(below, p[1..]);
      var i :| 0 <= i < |below| && below[i].path == p[1..];
      assert all[|walk| + i].path == p;
    }
  }

  /** A sorted preorder has `p` before `q`: on the way to it, or by a smaller name where they part. */
  ghost predicate WalkedBefore(p: Path, q: Path) {
    || (p <= q && p != q)
    || (exists k :: 0 <= k < |p| && k < |q| && p[..k] == q[..k] && Before(p[k], q[k]))
  }

  lemma WalkedBelow(k: string, p: Path, q: Path)
    requires WalkedBefore(p, q)
    ensures WalkedBefore([k] + p, [k] + q)
  {
    hide Before;
    var a, b := [k] + p, [k] + q;
    if i :| 0 <= i < |p| && i < |q| && p[..i] == q[..i] && Before(p[i], q[i]) {
      assert a[..i + 1] == [k] + p[..i] && b[..i + 1] == [k] + q[..i];
      assert a[i + 1] == p[i] && b[i + 1] == q[i];
    }
  }

  lemma {:induction false} WalkFromInOrder(n: D.Node, i: nat, j: nat)
    requires i < j < |WalkFrom(n)|
    ensures WalkedBefore(WalkFrom(n)[i].path, WalkFrom(n)[j].path)
    decreases n, 2
  {
    var names := InOrder(n.kids.Keys);
    var rest := SortedWalk(n, names);
    assert WalkFrom(n)[j] == rest[j - 1];
    if i == 0 {
      NamesAreDistinct(n.kids.Keys);
      SortedWalkIsWalk(n, names);
      assert EntryOfSome(rest[j - 1], n, names);
    } else {
      assert WalkFrom(n)[i] == rest[i - 1];
      SortedWalkInOrder(n, names, i - 1, j - 1);
    }
  }

  lemma {:induction false} SortedWalkInOrder(n: D.Node, names: seq<string>, i: nat, j: nat)
    requires n.Dir? && (forall k :: k in names ==> k in n.kids) && StrictlySorted(names)
    requires i < j < |SortedWalk(n, names)|
    ensures WalkedBefore(SortedWalk(n, names)[i].path, SortedWalk(n, names)[j].path)
    decreases n, 1, |names|
  {
    hide WalkedBefore, Before;
    var front, k := names[..|names| - 1], names[|names| - 1];
    var walk, below := SortedWalk(n, front), WalkFrom(n.kids[k]);
    var m := |walk|;
    assert SortedWalk(n, names) == walk + Shifted(k, below);
    hide SortedWalk, WalkFrom;
    if j < m {
      SortedWalkInOrder(n, front, i, j);
    } else if i < m {
      StartsBefore(n, names, i);
      PartAtOnce(walk[i].path, [k] + below[j - m].path);
    } else {
      WalkFromInOrder(n.kids[k], i - m, j - m);
      WalkedBelow(k, below[i - m].path, below[j - m].path);
    }
  }

  lemma StartsBefore(n: D.Node, names: seq<string>, i: nat)
    requires n.Dir? && (forall k :: k in names ==> k in n.kids) && StrictlySorted(names) && names != []
    requires i < |SortedWalk(n, names[..|names| - 1])|
    ensures var p := SortedWalk(n, names[..|names| - 1])[i].path;
      p != [] && Before(p[0], names[|names| - 1])
  {
    hide Before, SortedWalk;
    var front := names[..|names| - 1];
    SortedIsDistinct(front, (s: string) => s);
    SortedWalkIsWalk(n, front);
    assert EntryOfSome(SortedWalk(n, front)[i], n, front);
    LtIsBefore(SortedWalk(n, front)[i].path[0], names[|names| - 1]);
  }

  lemma PartAtOnce(p: Path, q: Path)
    requires p != [] && q != [] && Before(p[0], q[0])
    ensures WalkedBefore(p, q)
  {
    hide Before;
    assert p[..0] == q[..0];
  }

  /** The sorted preorder walk is a walk of the tree, in order. */
  lemma SortedPreorderIsWalk(n: D.Node)
    requires n.Dir?
    ensures WalkOf(SortedWalk(n, InOrder(n.kids.Keys)), n)
    ensures forall i, j :: 0 <= i < j < |SortedWalk(n, InOrder(n.kids.Keys))| ==>
      WalkedBefore(SortedWalk(n, InOrder(n.kids.Keys))[i].path, SortedWalk(n, InOrder(n.kids.Keys))[j].path)
  {
    hide WalkedBefore, WalkOf, SortedWalk, InOrder;
    SortedWalkWalks(n);
    forall i, j | 0 <= i < j < |SortedWalk(n, InOrder(n.kids.Keys))|
      ensures WalkedBefore(SortedWalk(n, InOrder(n.kids.Keys))[i].path, SortedWalk(n, InOrder(n.kids.Keys))[j].path)
    {
      SortedWalkInOrder(n, InOrder(n.kids.Keys), i, j);
    }
  }

  lemma SortedWalkWalks(n: D.Node)
    requires n.Dir?
    ensures WalkOf(SortedWalk(n, InOrder(n.kids.Keys)), n)
  {
    hide SortedWalk, InOrder;
    var walk := SortedWalk(n, InOrder(n.kids.Keys));
    NamesAreDistinct(n.kids.Keys);
    SortedWalkIsWalk(n, InOrder(n.kids.Keys));
    forall i | 0 <= i < |walk| ensures walk[i].path != [] && D.EntryAt(n, walk[i].path) == Some(walk[i].entry) {
      assert EntryOfSome(walk[i], n, InOrder(n.kids.Keys));
    }
  }

  // ---------------------------------------------------------------- two tools, one digest

  /** The two tools read every file's mode and every link's target alike. */
  ghost predicate ReadAlike(n: D.Node) {
    forall p :: D.EntryAt(n, p).Some? ==> EntryReadAlike(D.EntryAt(n, p).value)
  }

  predicate EntryReadAlike(e: D.Entry) {
    match e
    case EFile(_, mode) => D.OwnerExec(mode) == D.AnyExec(mode)
    case ELink(target) => Normal(target) == target
    case EDir => true
  }

  /** re-dispatch and re-memoize compute the same root digest for every tree they read alike,
      and, barring a collision, for no other. */
  lemma TwoToolsOneDigest(c: Codec, n: D.Node)
    requires c.Lawful() && n.Dir?
    requires c.NoCollision(DirBlobs(c, D.Digested(c, Dispatch(), n)) + DirBlobs(c, D.Digested(c, D.Memoize(), n)))
    ensures D.RootDigest(c, Dispatch(), n) == D.RootDigest(c, D.Memoize(), n) <==> ReadAlike(n)
  {
    hide D.Digested, MountFree, Dig, DirBlobs;
    var t, u := D.Digested(c, Dispatch(), n), D.Digested(c, D.Memoize(), n);
    D.DigestedIsMountFree(c, Dispatch(), n);
    D.DigestedIsMountFree(c, D.Memoize(), n);
    D.DigestedEntry(c, Dispatch(), n);
    D.DigestedEntry(c, D.Memoize(), n);
    DigestCharacterisesTree(c, t, u);
    if t == u { SameDigestedReadAlike(c, n); }
    if ReadAlike(n) { ReadAlikeSameDigested(c, n); }
  }

  lemma SameDigestedReadAlike(c: Codec, n: D.Node)
    requires D.Digested(c, Dispatch(), n) == D.Digested(c, D.Memoize(), n)
    ensures ReadAlike(n)
  {
    hide D.Digested, D.NodeAt, Sub, Normal, D.OwnerExec, D.AnyExec;
    forall p | D.EntryAt(n, p).Some? ensures EntryReadAlike(D.EntryAt(n, p).value) {
      D.DigestedAt(c, Dispatch(), n, p);
      D.DigestedAt(c, D.Memoize(), n, p);
      D.DigestedEntry(c, Dispatch(), D.NodeAt(n, p).value);
      D.DigestedEntry(c, D.Memoize(), D.NodeAt(n, p).value);
    }
  }

  lemma ReadAlikeSameDigested(c: Codec, n: D.Node)
    requires ReadAlike(n)
    ensures D.Digested(c, Dispatch(), n) == D.Digested(c, D.Memoize(), n)
  {
    hide D.Digested, D.NodeAt, Sub, Normal, D.OwnerExec, D.AnyExec;
    var t, u := D.Digested(c, Dispatch(), n), D.Digested(c, D.Memoize(), n);
    forall p ensures SameAt(t, u, p) {
      D.DigestedAt(c, Dispatch(), n, p);
      D.DigestedAt(c, D.Memoize(), n, p);
      if D.NodeAt(n, p).Some? {
        assert EntryReadAlike(D.EntryAt(n, p).value);
        D.DigestedEntry(c, Dispatch(), D.NodeAt(n, p).value);
        D.DigestedEntry(c, D.Memoize(), D.NodeAt(n, p).value);
      }
    }
    Extensional(t, u);
  }
}
