/** `DirectoryComposer`: an input root assembled from files and mounted directories. */
module Compose {
  import opened Names
  import opened Messages
  import opened Merkle
  import opened Canon
  import opened FlatTree
  import opened PathText

  datatype InputSpec = InputSpec(path: string, digest: Digest, exec: bool)

  datatype InputTreeSpec = InputTreeSpec(path: string, rootDigest: Digest)

  datatype Spec = Spec(inputTrees: seq<InputTreeSpec>, inputs: seq<InputSpec>)

  datatype ComposeError = BadPath | Conflict | Duplicate | RootMounted

  ghost predicate AgreesOnMounts(at: Path, mounted: map<string, Digest>, leaves: map<Path, Skel>) {
    && (forall n :: n in mounted <==> Child(at, n) in leaves && leaves[Child(at, n)].SMount?)
    && (forall n :: n in mounted ==> leaves[Child(at, n)] == SMount(Some(mounted[n])))
  }

  ghost predicate Agrees(at: Path, files: map<string, FileNode>,
      directories: map<string, DirectoryComposer>, mounted: map<string, Digest>,
      nodes: map<Path, DirectoryComposer>, leaves: map<Path, Skel>)
  {
    && AgreesOnDirectories(at, directories, nodes)
    && AgreesOnFiles(at, files, leaves)
    && AgreesOnMounts(at, mounted, leaves)
  }

  ghost predicate FilesAndMounts(leaves: map<Path, Skel>) {
    forall q :: q in leaves ==> leaves[q].SFile? || leaves[q].SMount?
  }

  lemma MountsMore(at: Path, mounted: map<string, Digest>, leaves: map<Path, Skel>, name: string, leaf: Skel)
    requires AgreesOnMounts(at, mounted, leaves) && Child(at, name) !in leaves
    requires leaf.SMount? ==> leaf.digest.Some?
    ensures AgreesOnMounts(at, if leaf.SMount? then mounted[name := leaf.digest.value] else mounted,
      leaves[Child(at, name) := leaf])
  {
    forall n ensures Child(at, n) == Child(at, name) <==> n == name { OtherChild(at, n, name); }
  }

  lemma AgreesElsewhere(at: Path, files: map<string, FileNode>,
      directories: map<string, DirectoryComposer>, mounted: map<string, Digest>,
      nodes: map<Path, DirectoryComposer>, leaves: map<Path, Skel>, q: Path, d: DirectoryComposer)
    requires Agrees(at, files, directories, mounted, nodes, leaves)
    requires q != [] && Parent(q) != at
    ensures Agrees(at, files, directories, mounted, nodes[q := d], leaves)
  {
    forall n ensures Child(at, n) != q { ChildParts(at, n); }
  }

  lemma AgreesHere(at: Path, files: map<string, FileNode>,
      directories: map<string, DirectoryComposer>, mounted: map<string, Digest>,
      nodes: map<Path, DirectoryComposer>, leaves: map<Path, Skel>, name: string, d: DirectoryComposer)
    requires Agrees(at, files, directories, mounted, nodes, leaves)
    ensures Agrees(at, files, directories[name := d], mounted, nodes[Child(at, name) := d], leaves)
  {
    forall n | n != name ensures Child(at, n) != Child(at, name) {
      ChildParts(at, n);
      ChildParts(at, name);
    }
  }

  lemma AgreesEmpty(at: Path, nodes: map<Path, DirectoryComposer>, leaves: map<Path, Skel>)
    requires WellFormed(Flat(leaves, nodes.Keys - {at})) && at !in nodes.Keys - {at}
    ensures Agrees(at, map[], map[], map[], nodes, leaves)
  {
    forall n ensures Child(at, n) !in nodes && Child(at, n) !in leaves {
      ChildParts(at, n);
    }
  }

  lemma AgreesLeafElsewhere(at: Path, files: map<string, FileNode>,
      directories: map<string, DirectoryComposer>, mounted: map<string, Digest>,
      nodes: map<Path, DirectoryComposer>, leaves: map<Path, Skel>, p: Path, leaf: Skel)
    requires Agrees(at, files, directories, mounted, nodes, leaves)
    requires p != [] && Parent(p) != at
    ensures Agrees(at, files, directories, mounted, nodes, leaves[p := leaf])
  {
    forall n ensures Child(at, n) != p { ChildParts(at, n); }
  }

  /** A leaf placed directly below a directory is entered in the map of its kind. */
  lemma AgreesLeaf(at: Path, files: map<string, FileNode>,
      directories: map<string, DirectoryComposer>, mounted: map<string, Digest>,
      nodes: map<Path, DirectoryComposer>, leaves: map<Path, Skel>, name: string, leaf: Skel)
    requires Agrees(at, files, directories, mounted, nodes, leaves)
    requires Child(at, name) !in leaves && (leaf.SMount? ==> leaf.digest.Some?)
    ensures Agrees(at,
      if leaf.SFile? then files[name := FileNode(name, leaf.digest, leaf.exec)] else files,
      directories,
      if leaf.SMount? then mounted[name := leaf.digest.value] else mounted,
      nodes, leaves[Child(at, name) := leaf])
  {
    FilesMore(at, files, leaves, name, leaf);
    MountsMore(at, mounted, leaves, name, leaf);
  }

  lemma PlacingALeaf(f: Flat, p: Path, leaf: Skel)
    requires WellFormed(f) && Disjoint(f) && p != [] && p !in f.dirs && Parent(p) in f.dirs && !leaf.SDir?
    ensures WellFormed(Flat(f.leaves[p := leaf], f.dirs)) && Disjoint(Flat(f.leaves[p := leaf], f.dirs))
  {
  }

  /** No leaf is at `p` or above it. */
  ghost predicate Clear(leaves: map<Path, Skel>, p: Path) {
    forall q :: q in leaves ==> !(q <= p)
  }

  lemma ClearMore(leaves: map<Path, Skel>, p: Path, i: nat)
    requires i < |p|
    ensures Clear(leaves, p[..i + 1]) <==> Clear(leaves, p[..i]) && p[..i + 1] !in leaves
    ensures Clear(leaves, p) ==> Clear(leaves, p[..i + 1])
  {
    forall q | q in leaves ensures q <= p[..i + 1] <==> q <= p[..i] || q == p[..i + 1] {
      PrefixIsSlice(q, p[..i + 1]);
      PrefixIsSlice(q, p[..i]);
    }
  }

  lemma CanInsertByWalk(f: Flat, p: Path)
    requires p != []
    ensures CanInsert(f, p) <==> p !in f.leaves && p !in f.dirs && Clear(f.leaves, Parent(p))
  {
    ClearMore(f.leaves, p, |p| - 1);
    assert p[..|p|] == p;
  }

  lemma CanInsertMeansVacant(f: Flat, p: Path)
    ensures CanInsert(f, p) ==> p !in f.leaves && p !in f.dirs
  {
  }

  /** One more step down: which directories there are, and what it takes to get there. */
  lemma DirectoryNext(f: Flat, p: Path, i: nat)
    requires i < |p| && WellFormed(f)
    ensures Child(p[..i], p[i]) == p[..i + 1]
    ensures Prefixes(p[..i + 1]) == Prefixes(p[..i]) + {p[..i + 1]}
    ensures Clear(f.leaves, p[..i + 1]) <==> Clear(f.leaves, p[..i]) && p[..i + 1] !in f.leaves
    ensures Clear(f.leaves, p) ==> Clear(f.leaves, p[..i + 1])
    ensures p[..i + 1] in f.leaves ==> f.dirs + Prefixes(p[..i]) == f.dirs
  {
    hide Prefixes, Clear, WellFormed;
    PrefixesMore(p, i);
    ClearMore(f.leaves, p, i);
    if p[..i + 1] in f.leaves {
      LeafMeansMade(f, p[..i + 1]);
      assert Parent(p[..i + 1]) == p[..i];
    }
  }

  class DirectoryComposer {
    var files: map<string, FileNode>
    var directories: map<string, DirectoryComposer>
    var mounted: map<string, Digest>

    /** Where this directory sits below the root composer. */
    ghost const at: Path

    /** At the root composer: every directory below it, and every leaf, by path. */
    ghost var nodes: map<Path, DirectoryComposer>
    ghost var leaves: map<Path, Skel>

    constructor (ghost p: Path)
      ensures files == map[] && directories == map[] && mounted == map[]
      ensures at == p && nodes == map[p := this] && leaves == map[]
    {
      files, directories, mounted := map[], map[], map[];
      at := p;
      leaves := map[];
      new;
      nodes := map[p := this];
    }

    /** The fields of this directory agree with what the root knows about it. */
    ghost predicate Linked(nodes: map<Path, DirectoryComposer>, leaves: map<Path, Skel>)
      reads `files, `directories, `mounted
    {
      Agrees(at, files, directories, mounted, nodes, leaves)
    }

    ghost function State(): Flat
      reads this
    {
      Flat(leaves, nodes.Keys)
    }

    /** Files, directories and mounts have different names at every level. */
    ghost predicate Valid()
      reads this, nodes.Values
    {
      && at == [] && [] in nodes && nodes[[]] == this
      && (forall p :: p in nodes ==> nodes[p].at == p && nodes[p].Linked(nodes, leaves))
      && WellFormed(State()) && Disjoint(State())
      && FilesAndMounts(leaves)
    }

    predicate NameAvailable(name: string)
      reads this
    {
      name !in files && name !in directories && name !in mounted
    }

    /** Walks to a directory, making what is missing on the way.  Fails exactly when a leaf is
        in the way, and then nothing has been made. */
    method DirectoryMut(components: Path) returns (directory: DirectoryComposer, ok: bool)
      requires Valid()
      modifies this, nodes.Values
      ensures Valid() && leaves == old(leaves)
      ensures ok <==> Clear(leaves, components)
      ensures ok ==> components in nodes && directory == nodes[components]
      ensures State().dirs == old(State().dirs) + if ok then Prefixes(components) else {}
      ensures fresh(nodes.Values - old(nodes.Values))
    {
      hide Agrees, WellFormed, Disjoint, Prefixes, Valid, Clear;
      ok, directory := true, this;
      ghost var made := State();
      AtRoot();
      assert components[..0] == [];
      for i := 0 to |components|
        invariant Valid() && leaves == made.leaves
        invariant components[..i] in nodes && directory == nodes[components[..i]]
        invariant Clear(leaves, components[..i])
        invariant State().dirs == made.dirs + Prefixes(components[..i])
        invariant fresh(nodes.Values - old(nodes.Values))
      {
        DirectoryNext(made, components, i);
        directory, ok := Enter(directory, components[..i], components[i]);
        if !ok { return; }
      }
      assert components[..|components|] == components;
    }

    /** One step of the walk, below the directory at `p`. */
    method Enter(directory: DirectoryComposer, ghost p: Path, component: string)
      returns (child: DirectoryComposer, ok: bool)
      requires Valid() && p in nodes && nodes[p] == directory
      modifies this`nodes, directory`directories
      ensures Valid() && leaves == old(leaves)
      ensures ok <==> Child(p, component) !in leaves
      ensures ok ==> Child(p, component) in nodes && child == nodes[Child(p, component)]
      ensures State().dirs == old(State().dirs) + if ok then {Child(p, component)} else {}
      ensures fresh(nodes.Values - old(nodes.Values))
    {
      hide Agrees, WellFormed, Disjoint, Valid;
      LooksUp(directory, p, component);
      if component in directory.files || component in directory.mounted {
        return directory, false;
      }
      if component !in directory.directories {
        directory.MakeChild(this, component);
      }
      LooksUp(directory, p, component);
      child, ok := directory.directories[component], true;
    }

    lemma AtRoot()
      requires Valid()
      ensures [] in nodes && nodes[[]] == this && at == [] && WellFormed(State()) && Disjoint(State())
      ensures Prefixes([]) <= State().dirs && Clear(leaves, [])
    {
      PrefixesMade(State(), []);
    }

    /** What the three maps of a directory say about the paths just below it. */
    lemma LooksUp(directory: DirectoryComposer, p: Path, n: string)
      requires Valid() && p in nodes && nodes[p] == directory
      ensures directory.at == p
      ensures n in directory.files || n in directory.mounted <==> Child(p, n) in leaves
      ensures n in directory.directories <==> Child(p, n) in nodes
      ensures n in directory.directories ==> directory.directories[n] == nodes[Child(p, n)]
    {
    }

    /** Finds the directory a leaf goes into.  Fails exactly when the leaf cannot be inserted,
        and then nothing has been made. */
    method Slot(p: Path) returns (directory: DirectoryComposer, r: Result<(), ComposeError>)
      requires Valid() && p != []
      modifies this, nodes.Values
      ensures Valid() && leaves == old(leaves)
      ensures r.Ok? <==> CanInsert(old(State()), p)
      ensures r == Err(Conflict) <==> !Clear(old(leaves), Parent(p))
      ensures r.Err? ==> r.error == Conflict || r.error == Duplicate
      ensures State().dirs == old(State().dirs) + if r.Ok? then Prefixes(Parent(p)) else {}
      ensures r.Ok? ==> Parent(p) in nodes && nodes[Parent(p)] == directory
      ensures fresh(nodes.Values - old(nodes.Values))
    {
      hide Valid, CanInsert, Agrees, WellFormed, Disjoint, Prefixes, Clear;
      var name, parents := p[|p| - 1], p[..|p| - 1];
      assert Child(parents, name) == p && Parent(p) == parents;
      ghost var made := State();
      AtRoot();
      CanInsertByWalk(made, p);
      OccupiedMeansMade(made, p);
      var ok;
      directory, ok := DirectoryMut(parents);
      if !ok { return directory, Err(Conflict); }
      LooksUp(directory, parents, name);
      if !directory.NameAvailable(name) { return directory, Err(Duplicate); }
      r := Ok(());
    }

    /** Adds a file.  It is accepted exactly when its path is well formed, nothing is at the
        path, and no leaf is above it; otherwise nothing changes. */
    method AddFile(input: InputSpec) returns (r: Result<(), ComposeError>)
      requires Valid()
      modifies this, nodes.Values
      ensures Valid() && fresh(nodes.Values - old(nodes.Values))
      ensures ComponentsOf(input.path).Some? ==> ComponentsOf(input.path).value != []
      ensures r.Ok? <==>
        ComponentsOf(input.path).Some? && CanInsert(old(State()), ComponentsOf(input.path).value)
      ensures r == Err(BadPath) <==> ComponentsOf(input.path).None?
      ensures r == Err(Conflict) <==>
        ComponentsOf(input.path).Some? && !Clear(old(leaves), Parent(ComponentsOf(input.path).value))
      ensures r != Err(RootMounted)
      ensures State() == if r.Ok?
        then Insert(old(State()), ComponentsOf(input.path).value, SFile(Some(input.digest), input.exec))
        else old(State())
    {
      hide Valid, CanInsert, Agrees, WellFormed, Disjoint, Prefixes, ComponentsOf, Split, FilesAndMounts, Clear;
      ComponentsNonEmpty(input.path);
      var components := SpecPathComponents(input.path);
      if components.None? { return Err(BadPath); }
      var p := components.value;
      var directory;
      OccupiedMeansMade(State(), p) by { AtRoot(); }
      CanInsertMeansVacant(State(), p);
      directory, r := Slot(p);
      if r.Err? { return; }
      var name := p[|p| - 1];
      PlaceFile(directory, p, FileNode(name, Some(input.digest), input.exec));
    }

    /** `directory.files.insert`, and the root's account of it. */
    method PlaceFile(directory: DirectoryComposer, ghost p: Path, node: FileNode)
      requires Valid() && p != [] && p !in leaves && p !in nodes && node.name == Last(p)
      requires Parent(p) in nodes && nodes[Parent(p)] == directory
      modifies this`leaves, directory`files
      ensures Valid() && leaves == old(leaves)[p := SFile(node.digest, node.exec)]
    {
      hide Valid, Agrees, WellFormed, Disjoint, FilesAndMounts;
      ghost var leaf := SFile(node.digest, node.exec);
      BeforePlacing(directory, p, leaf);
      directory.files := directory.files[node.name := node];
      leaves := leaves[p := leaf];
      ValidAgain(directory, Parent(p));
    }

    /** Mounts a directory by its digest, under the same conditions. */
    method AddInputTree(tree: InputTreeSpec) returns (r: Result<(), ComposeError>)
      requires Valid()
      modifies this, nodes.Values
      ensures Valid() && fresh(nodes.Values - old(nodes.Values))
      ensures ComponentsOf(tree.path).Some? ==> ComponentsOf(tree.path).value != []
      ensures r.Ok? <==>
        && tree.path != "."
        && ComponentsOf(tree.path).Some?
        && CanInsert(old(State()), ComponentsOf(tree.path).value)
      ensures r == Err(RootMounted) <==> tree.path == "."
      ensures r == Err(BadPath) <==> tree.path != "." && ComponentsOf(tree.path).None?
      ensures r == Err(Conflict) <==>
        && tree.path != "."
        && ComponentsOf(tree.path).Some?
        && !Clear(old(leaves), Parent(ComponentsOf(tree.path).value))
      ensures State() == if r.Ok?
        then Insert(old(State()), ComponentsOf(tree.path).value, SMount(Some(tree.rootDigest)))
        else old(State())
    {
      hide Valid, CanInsert, Agrees, WellFormed, Disjoint, Prefixes, ComponentsOf, Split, FilesAndMounts, Clear;
      ComponentsNonEmpty(tree.path);
      if tree.path == "." { return Err(RootMounted); }
      var components := SpecPathComponents(tree.path);
      if components.None? { return Err(BadPath); }
      var p := components.value;
      var directory;
      OccupiedMeansMade(State(), p) by { AtRoot(); }
      CanInsertMeansVacant(State(), p);
      directory, r := Slot(p);
      if r.Err? { return; }
      PlaceMount(directory, p, p[|p| - 1], tree.rootDigest);
    }

    /** `directory.mounted.insert`, and the root's account of it. */
    method PlaceMount(directory: DirectoryComposer, ghost p: Path, name: string, digest: Digest)
      requires Valid() && p != [] && p !in leaves && p !in nodes && name == Last(p)
      requires Parent(p) in nodes && nodes[Parent(p)] == directory
      modifies this`leaves, directory`mounted
      ensures Valid() && leaves == old(leaves)[p := SMount(Some(digest))]
    {
      hide Valid, Agrees, WellFormed, Disjoint, FilesAndMounts;
      ghost var leaf := SMount(Some(digest));
      BeforePlacing(directory, p, leaf);
      directory.mounted := directory.mounted[name := digest];
      leaves := leaves[p := leaf];
      ValidAgain(directory, Parent(p));
    }

    /** What holds of every directory once `leaf` is entered at `p`. */
    lemma BeforePlacing(directory: DirectoryComposer, p: Path, leaf: Skel)
      requires Valid() && p != [] && p !in leaves && p !in nodes
      requires Parent(p) in nodes && nodes[Parent(p)] == directory
      requires leaf.SFile? || (leaf.SMount? && leaf.digest.Some?)
      ensures at == [] && [] in nodes && nodes[[]] == this
      ensures directory.at == Parent(p)
      ensures Agrees(Parent(p),
        if leaf.SFile? then directory.files[Last(p) := FileNode(Last(p), leaf.digest, leaf.exec)] else directory.files,
        directory.directories,
        if leaf.SMount? then directory.mounted[Last(p) := leaf.digest.value] else directory.mounted,
        nodes, leaves[p := leaf])
      ensures forall q :: q in nodes && q != Parent(p) ==>
        nodes[q].at == q && nodes[q].Linked(nodes, leaves[p := leaf]) && nodes[q] != directory
      ensures WellFormed(Flat(leaves[p := leaf], nodes.Keys)) && Disjoint(Flat(leaves[p := leaf], nodes.Keys))
      ensures FilesAndMounts(leaves[p := leaf])
    {
      hide Agrees;
      ChildOfParent(p);
      Apart(directory, Parent(p));
      AgreesLeaf(Parent(p), directory.files, directory.directories, directory.mounted, nodes, leaves, Last(p), leaf);
      LeafElsewhere(p, leaf);
      PlacingALeaf(State(), p, leaf);
    }

    lemma Apart(directory: DirectoryComposer, p: Path)
      requires Valid() && p in nodes && nodes[p] == directory
      ensures Agrees(p, directory.files, directory.directories, directory.mounted, nodes, leaves)
    {
      hide Agrees;
    }

    /** A new leaf does not concern the directories it is not directly below. */
    lemma LeafElsewhere(p: Path, leaf: Skel)
      requires Valid() && p != [] && p !in leaves
      ensures forall q :: q in nodes && q != Parent(p) ==>
        nodes[q].at == q && nodes[q].Linked(nodes, leaves[p := leaf])
    {
      forall q | q in nodes && q != Parent(p)
        ensures nodes[q].at == q && nodes[q].Linked(nodes, leaves[p := leaf])
      {
        AgreesLeafElsewhere(q, nodes[q].files, nodes[q].directories, nodes[q].mounted, nodes, leaves, p, leaf);
      }
    }

    lemma ValidAgain(directory: DirectoryComposer, p: Path)
      requires at == [] && [] in nodes && nodes[[]] == this && p in nodes && nodes[p] == directory
      requires directory.at == p && directory.Linked(nodes, leaves)
      requires forall q :: q in nodes && q != p ==> nodes[q].at == q && nodes[q].Linked(nodes, leaves)
      requires WellFormed(State()) && Disjoint(State())
      requires FilesAndMounts(leaves)
      ensures Valid()
    {
      hide Agrees, WellFormed, Disjoint;
    }

    /** `entry(component).or_default()` where there was no such directory. */
    method MakeChild(root: DirectoryComposer, component: string)
      requires root.Valid() && at in root.nodes && root.nodes[at] == this
      requires component !in directories && Child(at, component) !in root.leaves
      modifies this`directories, root`nodes
      ensures root.Valid()
      ensures root.leaves == old(root.leaves)
      ensures root.nodes.Keys == old(root.nodes.Keys) + {Child(at, component)}
      ensures at in root.nodes && root.nodes[at] == this && component in directories
      ensures fresh(root.nodes.Values - old(root.nodes.Values))
    {
      hide Agrees, WellFormed, Disjoint;
      ghost var q := Child(at, component);
      ghost var was := root.nodes;
      assert q !in was by { NoDirectoryYet(root, component); }
      MakingAChild(root.State(), at, component);
      ChildParts(at, component);
      var child := new DirectoryComposer(Child(at, component));
      assert was[q := child].Keys - {q} == was.Keys;
      AgreesEmpty(q, was[q := child], root.leaves);
      AgreesHere(at, files, directories, mounted, was, root.leaves, component, child);
      forall p | p in was && p != at
        ensures Agrees(p, was[p].files, was[p].directories, was[p].mounted, was[q := child], root.leaves)
      {
        AgreesElsewhere(p, was[p].files, was[p].directories, was[p].mounted, was, root.leaves, q, child);
      }
      directories := directories[component := child];
      root.nodes := root.nodes[Child(at, component) := child];
      assert root.State() == Flat(old(root.leaves), old(root.nodes).Keys + {q});
      forall p | p in root.nodes ensures root.nodes[p].at == p && root.nodes[p].Linked(root.nodes, root.leaves) {
        if p != q && p != at { assert root.nodes[p] == was[p] && was[p] != this; }
      }
    }

    /** The message of this directory; the blobs of the directories below it are pushed, one
        for each, after those already there. */
    method IntoDirectory(c: Codec, ghost root: DirectoryComposer, blobs: seq<Blob>)
      returns (directory: Directory, blobs': seq<Blob>, ghost pushed: seq<Path>)
      requires root.Valid() && at in root.nodes && root.nodes[at] == this
      ensures directory == MsgAt(c, root.State(), at)
      ensures InNameOrder(directory) && Tells(c, directory, TreeAt(root.State(), at))
      ensures Emitted(c, root.State(), blobs, blobs', pushed)
      ensures Enumerates(pushed, Below(root.State().dirs, at))
      decreases Below(root.State().dirs, at)
    {
      hide Agrees, WellFormed, Disjoint, FilesAndMounts, Below, BelowSome, MsgAt, BlobAt, DirMapAt, InOrder, Emitting;
      hide Enumerates, Emitted, ListsSome, Valid, DigestAt, DirectoryAt, InNameOrder, Tells, TreeAt;
      ghost var f := root.State();
      RootTells(c, root);
      MapsAre(root);
      blobs', pushed := blobs, [];
      var nodes: seq<DirectoryNode> := [];
      var names := InOrder(directories.Keys);
      NothingListed(c, f, at, blobs, names);
      for i := 0 to |names|
        invariant Emitting(c, f, at, names, i, nodes, blobs, blobs', pushed)
      {
        var name := names[i];
        var child := directories[name];
        BelowShrinks(f.dirs, at, name);
        ChildIsNode(root, name);
        NamesDistinct(directories.Keys, i);
        var childDirectory; ghost var more; ghost var before := blobs';
        childDirectory, blobs', more := child.IntoDirectory(c, root, blobs');
        var blob := c.BlobOf(c.encodeDirectory(childDirectory));
        EmittingMore(c, f, at, names, i, nodes, blobs, before, blobs', pushed, more, childDirectory);
        blobs' := blobs' + [blob];
        nodes := nodes + [DirectoryNode(name, Some(blob.digest))];
        pushed := pushed + more + [Child(at, name)];
      }
      root.AtRoot();
      BelowAll(f, at, directories.Keys);
      EmittingEnds(c, f, at, names, nodes, blobs, blobs', pushed);
      nodes := AddMounts(c, root, nodes, names);
      nodes := SortBy(nodes, DirectoryName);
      AssembledMsg(c, f, at);
      directory := Directory(ValuesInOrder(files), nodes, []);
    }

    /** The nodes of the mounted directories, after those of the directories made here. */
    method AddMounts(c: Codec, ghost root: DirectoryComposer, made: seq<DirectoryNode>, ghost names: seq<string>)
      returns (nodes: seq<DirectoryNode>)
      requires root.Valid() && at in root.nodes && root.nodes[at] == this
      requires names == InOrder(directories.Keys) && ListsSome(c, root.State(), at, made, names)
      ensures SortBy(nodes, DirectoryName) == ValuesInOrder(DirMapAt(c, root.State(), at))
    {
      hide Agrees, WellFormed, Disjoint, FilesAndMounts, DirMapAt, FileMapAt, LinkMapAt, InOrder, ListsSome, Valid,
        DigestAt, DirectoryAt;
      ghost var f := root.State();
      nodes := made;
      var mounts := InOrder(mounted.Keys);
      ghost var all := names + mounts;
      assert all[..|names|] == names;
      for i := 0 to |mounts|
        invariant ListsSome(c, f, at, nodes, all[..|names| + i])
      {
        var name := mounts[i];
        assert all[|names| + i] == name;
        NamesDistinct(mounted.Keys, i);
        MountedIsDirectory(c, root, name);
        NewName(names, mounts, i);
        ListsSomeMore(c, f, at, nodes, all, |names| + i, Some(mounted[name]));
        nodes := nodes + [DirectoryNode(name, Some(mounted[name]))];
      }
      assert all[..|names| + |mounts|] == all;
      assert forall n :: DirectoryAt(f, Child(at, n)) ==> n in all by { MapsAre(root); }
      ListsAll(c, f, at, nodes, all);
    }

    lemma MountedIsDirectory(c: Codec, root: DirectoryComposer, name: string)
      requires root.Valid() && at in root.nodes && root.nodes[at] == this && name in mounted
      ensures DirectoryAt(root.State(), Child(at, name)) && name !in directories
      ensures DigestAt(c, root.State(), Child(at, name)) == Some(mounted[name])
    {
      hide Valid, DirectoryAt, DigestAt, FileMapAt, LinkMapAt;
      MapsAre(root);
    }

    lemma MapsAre(root: DirectoryComposer)
      requires root.Valid() && at in root.nodes && root.nodes[at] == this
      ensures files == FileMapAt(root.State(), at) && LinkMapAt(root.State(), at) == map[]
      ensures forall n :: n in directories <==> Child(at, n) in root.State().dirs
      ensures forall n :: n in directories ==> DirectoryAt(root.State(), Child(at, n)) && n !in mounted
      ensures forall n :: n in mounted ==> DirectoryAt(root.State(), Child(at, n))
      ensures forall n :: n in mounted ==>
        forall c :: DigestAt(c, root.State(), Child(at, n)) == Some(mounted[n])
      ensures forall n :: DirectoryAt(root.State(), Child(at, n)) ==> n in directories || n in mounted
    {
      hide Valid, WellFormed;
      root.Apart(this, at);
      root.AtRoot();
      LeafMaps(root);
      assert forall q :: q in root.leaves ==> q !in root.nodes by { LeavesApart(root.State()); }
      hide FileMapAt, LinkMapAt, AgreesOnFiles, Disjoint, BlobAt;
    }

    lemma LeafMaps(root: DirectoryComposer)
      requires root.Valid() && at in root.nodes && root.nodes[at] == this
      ensures files == FileMapAt(root.State(), at) && LinkMapAt(root.State(), at) == map[]
    {
      hide FileMapAt, LinkMapAt, WellFormed, Disjoint, AgreesOnDirectories, AgreesOnMounts;
      root.Apart(this, at);
    }

    lemma RootTells(c: Codec, root: DirectoryComposer)
      requires root.Valid()
      ensures forall p :: InNameOrder(MsgAt(c, root.State(), p))
      ensures forall p :: Tells(c, MsgAt(c, root.State(), p), TreeAt(root.State(), p))
    {
      hide InNameOrder, Tells, TreeAt, MsgAt, Linked;
      forall p
        ensures InNameOrder(MsgAt(c, root.State(), p)) && Tells(c, MsgAt(c, root.State(), p), TreeAt(root.State(), p))
      {
        MsgAtTells(c, root.State(), p);
      }
    }

    lemma ChildIsNode(root: DirectoryComposer, name: string)
      requires root.Valid() && at in root.nodes && root.nodes[at] == this && name in directories
      ensures directories[name].at == Child(at, name)
      ensures Child(at, name) in root.nodes && root.nodes[Child(at, name)] == directories[name]
    {
    }

    lemma StartsEmpty()
      requires at == [] && nodes == map[[] := this] && leaves == map[]
      requires files == map[] && directories == map[] && mounted == map[]
      ensures Valid() && State() == Empty()
    {
      assert forall n :: Child([], n) != [];
    }

    lemma NoDirectoryYet(root: DirectoryComposer, component: string)
      requires root.Valid() && at in root.nodes && root.nodes[at] == this
      requires component !in directories
      ensures Child(at, component) !in root.nodes
    {
    }
  }

  // ---------------------------------------------------------------- emitting the tree

  ghost function BlobsAt(c: Codec, f: Flat, ps: seq<Path>): (r: seq<Blob>)
    ensures |r| == |ps|
    ensures forall i :: 0 <= i < |r| ==> r[i] == c.BlobOf(BlobAt(c, f, ps[i]))
  {
    seq(|ps|, i requires 0 <= i < |ps| => c.BlobOf(BlobAt(c, f, ps[i])))
  }

  lemma BlobsAtMore(c: Codec, f: Flat, ps: seq<Path>, qs: seq<Path>)
    ensures BlobsAt(c, f, ps + qs) == BlobsAt(c, f, ps) + BlobsAt(c, f, qs)
  {
    hide BlobsAt, BlobAt;
  }

  /** `after` is `before` followed by the blobs of the pushed directories. */
  ghost predicate Emitted(c: Codec, f: Flat, before: seq<Blob>, after: seq<Blob>, pushed: seq<Path>) {
    after == before + BlobsAt(c, f, pushed)
  }

  lemma LeavesApart(f: Flat)
    requires Disjoint(f)
    ensures forall q :: q in f.leaves ==> q !in f.dirs
  {
  }

  lemma NewName(names: seq<string>, mounts: seq<string>, i: nat)
    requires i < |mounts| && mounts[i] !in mounts[..i] && mounts[i] !in names
    ensures mounts[i] !in (names + mounts)[..|names| + i]
    ensures |names + mounts| == |names| + |mounts|
  {
    assert (names + mounts)[..|names| + i] == names + mounts[..i];
  }

  /** The directories of the first `i` names have been turned into nodes and blobs. */
  ghost predicate Emitting(c: Codec, f: Flat, at: Path, names: seq<string>, i: nat, nodes: seq<DirectoryNode>,
      before: seq<Blob>, after: seq<Blob>, pushed: seq<Path>)
  {
    && i <= |names|
    && ListsSome(c, f, at, nodes, names[..i])
    && Emitted(c, f, before, after, pushed)
    && Enumerates(pushed, BelowSome(f.dirs, at, names[..i]))
  }

  lemma EmittingMore(c: Codec, f: Flat, at: Path, names: seq<string>, i: nat, nodes: seq<DirectoryNode>,
      before: seq<Blob>, middle: seq<Blob>, after: seq<Blob>, pushed: seq<Path>, more: seq<Path>, d: Directory)
    requires i < |names| && Emitting(c, f, at, names, i, nodes, before, middle, pushed)
    requires names[i] !in names[..i] && Child(at, names[i]) in f.dirs && DirectoryAt(f, Child(at, names[i]))
    requires Emitted(c, f, middle, after, more) && Enumerates(more, Below(f.dirs, Child(at, names[i])))
    requires d == MsgAt(c, f, Child(at, names[i]))
    ensures var blob := c.BlobOf(c.encodeDirectory(d));
      Emitting(c, f, at, names, i + 1, nodes + [DirectoryNode(names[i], Some(blob.digest))],
               before, after + [blob], pushed + more + [Child(at, names[i])])
  {
    hide Below, BelowSome, MsgAt, BlobAt, Enumerates, Emitted, ListsSome, DigestAt, DirectoryAt;
    var q, blob := Child(at, names[i]), c.BlobOf(c.encodeDirectory(d));
    EmittedMore(c, f, before, middle, after, pushed, more, q, d);
    ListsSomeMore(c, f, at, nodes, names, i, Some(blob.digest));
    BelowMore(f.dirs, at, names, i);
    EnumeratesMore(pushed, BelowSome(f.dirs, at, names[..i]), more, Below(f.dirs, q), q);
  }

  lemma EmittingEnds(c: Codec, f: Flat, at: Path, names: seq<string>, nodes: seq<DirectoryNode>,
      before: seq<Blob>, after: seq<Blob>, pushed: seq<Path>)
    requires Emitting(c, f, at, names, |names|, nodes, before, after, pushed)
    ensures ListsSome(c, f, at, nodes, names) && Emitted(c, f, before, after, pushed)
    ensures Enumerates(pushed, BelowSome(f.dirs, at, names))
  {
    assert names[..|names|] == names;
  }

  lemma NothingListed(c: Codec, f: Flat, p: Path, blobs: seq<Blob>, names: seq<string>)
    ensures Emitting(c, f, p, names, 0, [], blobs, blobs, [])
  {
  }

  lemma ListsAll(c: Codec, f: Flat, p: Path, nodes: seq<DirectoryNode>, names: seq<string>)
    requires ListsSome(c, f, p, nodes, names)
    requires forall n :: DirectoryAt(f, Child(p, n)) ==> n in names
    ensures SortBy(nodes, DirectoryName) == ValuesInOrder(DirMapAt(c, f, p))
  {
    DirMapAtEntries(c, f, p);
    hide DirMapAt, DigestAt, DirectoryAt;
    var m := DirMapAt(c, f, p);
    forall n | n in m ensures m[n] in nodes {
      var i :| 0 <= i < |names| && names[i] == n;
      assert nodes[i] == m[n];
    }
    SortByForgetsOrder(nodes, DirectoryName, m);
  }

  lemma Regroup<T>(s: seq<T>, t: seq<T>, u: seq<T>, v: seq<T>)
    ensures s + t + u + v == s + (t + u + v)
  {
  }

  lemma EmittedMore(c: Codec, f: Flat, before: seq<Blob>, middle: seq<Blob>, after: seq<Blob>,
      pushed: seq<Path>, more: seq<Path>, q: Path, d: Directory)
    requires Emitted(c, f, before, middle, pushed) && Emitted(c, f, middle, after, more)
    requires q in f.dirs && d == MsgAt(c, f, q)
    ensures Emitted(c, f, before, after + [c.BlobOf(c.encodeDirectory(d))], pushed + more + [q])
    ensures DigestAt(c, f, q) == Some(c.BlobOf(c.encodeDirectory(d)).digest)
  {
    assert BlobsAt(c, f, [q]) == [c.BlobOf(c.encodeDirectory(d))];
    hide BlobsAt, BlobAt, MsgAt, DigestAt;
    BlobsAtMore(c, f, pushed, more);
    BlobsAtMore(c, f, pushed + more, [q]);
    Regroup(before, BlobsAt(c, f, pushed), BlobsAt(c, f, more), BlobsAt(c, f, [q]));
  }

  lemma EnumeratesMore(s: seq<Path>, all: set<Path>, t: seq<Path>, more: set<Path>, q: Path)
    requires Enumerates(s, all) && Enumerates(t, more) && q !in more && all !! more + {q}
    ensures Enumerates(s + t + [q], all + more + {q})
  {
    var u := s + t + [q];
    forall i, j | 0 <= i < j < |u| ensures u[i] != u[j] {
      if i < |s| && j >= |s| {
        assert u[i] in all && u[j] in more + {q};
      } else if i >= |s| && j < |s| + |t| {
        assert u[i] == t[i - |s|] && u[j] == t[j - |s|];
      }
    }
  }

  lemma AssembledMsg(c: Codec, f: Flat, p: Path)
    requires LinkMapAt(f, p) == map[]
    ensures MsgAt(c, f, p) ==
      Directory(ValuesInOrder(FileMapAt(f, p)), ValuesInOrder(DirMapAt(c, f, p)), [])
  {
    var none: map<string, SymlinkNode> := map[];
    assert InOrder(none.Keys) == [];
    assert ValuesInOrder(none) == [];
  }

  // ---------------------------------------------------------------- the input root of a spec

  /** The root's digest and blob, and the blobs of the directories below it. */
  datatype InputRoot = InputRoot(digest: Digest, blob: Bytes, blobs: seq<Blob>)

  /** A single tree mounted at `.` with nothing else is used as it is. */
  predicate WholeRoot(spec: Spec) {
    |spec.inputTrees| == 1 && spec.inputTrees[0].path == "." && spec.inputs == []
  }

  ghost predicate WellSpelled(spec: Spec) {
    && (forall i :: 0 <= i < |spec.inputs| ==> ComponentsOf(spec.inputs[i].path).Some?)
    && (forall i :: 0 <= i < |spec.inputTrees| ==>
         spec.inputTrees[i].path != "." && ComponentsOf(spec.inputTrees[i].path).Some?)
  }

  ghost function FileItem(input: InputSpec): Item
    requires ComponentsOf(input.path).Some?
  {
    Item(ComponentsOf(input.path).value, SFile(Some(input.digest), input.exec))
  }

  ghost function TreeItem(tree: InputTreeSpec): Item
    requires ComponentsOf(tree.path).Some?
  {
    Item(ComponentsOf(tree.path).value, SMount(Some(tree.rootDigest)))
  }

  /** Files first, then mounts. */
  ghost function ItemsOf(spec: Spec): (items: seq<Item>)
    requires WellSpelled(spec)
    ensures |items| == |spec.inputs| + |spec.inputTrees|
    ensures forall i :: 0 <= i < |items| ==> items[i].path != [] && !items[i].leaf.SDir?
  {
    var n := |spec.inputs|;
    forall i | 0 <= i < n { ComponentsNonEmpty(spec.inputs[i].path); }
    forall i | 0 <= i < |spec.inputTrees| { ComponentsNonEmpty(spec.inputTrees[i].path); }
    seq(n, i requires 0 <= i < n => FileItem(spec.inputs[i])) +
    seq(|spec.inputTrees|, i requires 0 <= i < |spec.inputTrees| => TreeItem(spec.inputTrees[i]))
  }

  /** The flat tree a well-spelled, conflict-free spec composes to. */
  ghost predicate ComposesTo(spec: Spec, f: Flat) {
    WellSpelled(spec) && InsertAll(ItemsOf(spec)) == Some(f)
  }

  /** What a spec asks for step by step: nothing where a path is not acceptable. */
  ghost function Steps(spec: Spec): (steps: seq<Option<Item>>)
    ensures |steps| == |spec.inputs| + |spec.inputTrees|
    ensures Proper(steps)
  {
    var n := |spec.inputs|;
    forall i | 0 <= i < n { ComponentsNonEmpty(spec.inputs[i].path); }
    forall i | 0 <= i < |spec.inputTrees| { ComponentsNonEmpty(spec.inputTrees[i].path); }
    seq(n, i requires 0 <= i < n => FileStep(spec.inputs[i])) +
    seq(|spec.inputTrees|, i requires 0 <= i < |spec.inputTrees| => TreeStep(spec.inputTrees[i]))
  }

  ghost function FileStep(input: InputSpec): Option<Item> {
    if ComponentsOf(input.path).Some? then Some(FileItem(input)) else None
  }

  ghost function TreeStep(tree: InputTreeSpec): Option<Item> {
    if tree.path != "." && ComponentsOf(tree.path).Some? then Some(TreeItem(tree)) else None
  }

  ghost predicate Proper(steps: seq<Option<Item>>) {
    forall i :: 0 <= i < |steps| && steps[i].Some? ==> steps[i].value.path != []
  }

  ghost function Taken(steps: seq<Option<Item>>): Option<Flat>
    requires Proper(steps)
  {
    if steps == [] then Some(Empty())
    else
      var last := steps[|steps| - 1];
      match Taken(steps[..|steps| - 1])
      case None => None
      case Some(f) =>
        if last.Some? && CanInsert(f, last.value.path) then Some(Insert(f, last.value.path, last.value.leaf))
        else None
  }

  lemma TakenNext(steps: seq<Option<Item>>, i: nat)
    requires i < |steps| && Proper(steps) && Taken(steps[..i]).Some?
    ensures Taken(steps[..i + 1]) ==
      if steps[i].Some? && CanInsert(Taken(steps[..i]).value, steps[i].value.path)
      then Some(Insert(Taken(steps[..i]).value, steps[i].value.path, steps[i].value.leaf)) else None
    ensures Taken(steps[..i + 1]).None? ==> Taken(steps).None?
  {
    assert steps[..i + 1][..i] == steps[..i];
    if Taken(steps[..i + 1]).None? { StaysRejected(steps, i + 1); }
  }

  lemma {:induction false} StaysRejected(steps: seq<Option<Item>>, i: nat)
    requires i <= |steps| && Proper(steps) && Taken(steps[..i]).None?
    ensures Taken(steps).None?
  {
    if i == |steps| {
      assert steps[..i] == steps;
    } else {
      assert steps[..|steps| - 1][..i] == steps[..i];
      StaysRejected(steps[..|steps| - 1], i);
    }
  }

  lemma {:induction false} TakenIsInserted(steps: seq<Option<Item>>, items: seq<Item>)
    requires Proper(steps) && |items| == |steps|
    requires forall i :: 0 <= i < |steps| ==> steps[i] == Some(items[i])
    ensures Taken(steps) == InsertAll(items)
  {
    if steps != [] {
      TakenIsInserted(steps[..|steps| - 1], items[..|items| - 1]);
    }
  }

  /** Taking the steps of a spec is inserting its items, if the spec has well-spelled paths. */
  lemma StepsCompose(spec: Spec)
    ensures Taken(Steps(spec)).Some? <==> WellSpelled(spec) && Incomparable(PathsOf(ItemsOf(spec)))
    ensures Taken(Steps(spec)).Some? ==> ComposesTo(spec, Taken(Steps(spec)).value)
  {
    var steps := Steps(spec);
    if WellSpelled(spec) {
      TakenIsInserted(steps, ItemsOf(spec));
      AcceptedExactlyIncomparable(ItemsOf(spec));
    } else if i :| 0 <= i < |spec.inputs| && ComponentsOf(spec.inputs[i].path).None? {
      NoStepTaken(steps, i);
    } else {
      var i :| 0 <= i < |spec.inputTrees| && TreeStep(spec.inputTrees[i]).None?;
      NoStepTaken(steps, |spec.inputs| + i);
    }
  }

  lemma NoStepTaken(steps: seq<Option<Item>>, i: nat)
    requires Proper(steps) && i < |steps| && steps[i].None?
    ensures Taken(steps).None?
  {
    assert steps[..i + 1][..i] == steps[..i];
    StaysRejected(steps, i + 1);
  }

  // ---------------------------------------------------------------- what a spec describes

  /** The path is these names, joined. */
  ghost predicate Spells(path: string, p: Path) {
    p != [] && path == Join(p, '/') && forall n :: n in p ==> n != "" && n != "." && n != ".." && '/' !in n
  }

  ghost predicate InputAt(input: InputSpec, t: Skel) {
    exists p :: Spells(input.path, p) && Sub(t, p) == Some(SFile(Some(input.digest), input.exec))
  }

  ghost predicate TreeMounted(tree: InputTreeSpec, t: Skel) {
    exists p :: Spells(tree.path, p) && Sub(t, p) == Some(SMount(Some(tree.rootDigest)))
  }

  /** Something the spec names is at the path or below it. */
  ghost predicate OnTheWay(spec: Spec, q: Path) {
    || (exists i, p :: 0 <= i < |spec.inputs| && Spells(spec.inputs[i].path, p) && q <= p)
    || (exists i, p :: 0 <= i < |spec.inputTrees| && Spells(spec.inputTrees[i].path, p) && q <= p)
  }

  /** The tree has every file and mount of the spec at its path, and nothing but what leads to them. */
  ghost predicate SpecTree(spec: Spec, t: Skel) {
    && t.SDir?
    && (forall i :: 0 <= i < |spec.inputs| ==> InputAt(spec.inputs[i], t))
    && (forall i :: 0 <= i < |spec.inputTrees| ==> TreeMounted(spec.inputTrees[i], t))
    && (forall q :: q != [] && Sub(t, q).Some? ==> OnTheWay(spec, q))
  }

  ghost predicate BlobTells(c: Codec, blob: Blob, t: Skel) {
    && t.SDir? && blob.digest == Digest(c.hash(blob.data), |blob.data|)
    && exists m :: Tells(c, m, t) && blob.data == c.encodeDirectory(m)
  }

  /** The root's message tells of the tree the spec describes, and there is one blob for each directory
      below the root, whose message tells of that. */
  ghost predicate ComposedFor(c: Codec, spec: Spec, root: InputRoot) {
    exists t, pushed: seq<Path> ::
      && SpecTree(spec, t)
      && BlobTells(c, Blob(root.digest, root.blob), t)
      && Enumerates(pushed, (set p | p in Paths(t) && p != [] && IsDir(t, p)))
      && BlobsTell(c, root.blobs, t, pushed)
  }

  ghost predicate BlobsTell(c: Codec, blobs: seq<Blob>, t: Skel, pushed: seq<Path>) {
    |blobs| == |pushed| && forall i :: 0 <= i < |blobs| ==>
      Sub(t, pushed[i]).Some? && BlobTells(c, blobs[i], Sub(t, pushed[i]).value)
  }

  lemma SpelledOnlySo(path: string, p: Path)
    ensures Spells(path, p) <==> ComponentsOf(path) == Some(p)
  {
    hide ComponentsOf, Join;
    ComponentsCharacterisePaths(path, p);
    if ComponentsOf(path) == Some(p) {
      forall n | n in p ensures n != "" && n != "." && n != ".." && '/' !in n {
        var i :| 0 <= i < |p| && p[i] == n;
      }
    }
    assert forall i :: 0 <= i < |p| ==> p[i] in p;
  }

  lemma ItemSpelled(spec: Spec, i: nat)
    requires WellSpelled(spec) && i < |spec.inputs| + |spec.inputTrees|
    ensures var item := ItemsOf(spec)[i];
      if i < |spec.inputs| then
        Spells(spec.inputs[i].path, item.path) && item.leaf == SFile(Some(spec.inputs[i].digest), spec.inputs[i].exec)
      else
        var tree := spec.inputTrees[i - |spec.inputs|];
        Spells(tree.path, item.path) && item.leaf == SMount(Some(tree.rootDigest))
  {
    hide ComponentsOf;
    if i < |spec.inputs| {
      SpelledOnlySo(spec.inputs[i].path, ItemsOf(spec)[i].path);
    } else {
      SpelledOnlySo(spec.inputTrees[i - |spec.inputs|].path, ItemsOf(spec)[i].path);
    }
  }

  lemma ItemOnTheWay(spec: Spec, i: nat, q: Path)
    requires WellSpelled(spec) && i < |spec.inputs| + |spec.inputTrees| && q <= ItemsOf(spec)[i].path
    ensures OnTheWay(spec, q)
  {
    hide ItemsOf, Spells, WellSpelled;
    ItemSpelled(spec, i);
    if i >= |spec.inputs| {
      var k := i - |spec.inputs|;
      assert Spells(spec.inputTrees[k].path, ItemsOf(spec)[i].path);
    }
  }

  lemma ComposedIsFlat(spec: Spec, f: Flat)
    requires ComposesTo(spec, f)
    ensures Describes(f, ItemsOf(spec)) && WellFormed(f) && Disjoint(f)
  {
    hide ItemsOf, WellSpelled, Incomparable, PathsOf, Describes, WellFormed, Disjoint, InsertAll;
    AcceptedExactlyIncomparable(ItemsOf(spec));
    DescribedIsWellFormed(f, ItemsOf(spec));
  }

  /** What a spec composes to is the tree it describes. */
  lemma ComposedIsSpecTree(spec: Spec, f: Flat)
    requires ComposesTo(spec, f)
    ensures [] in f.dirs && SpecTree(spec, TreeAt(f, []))
  {
    hide ItemsOf, WellSpelled, TreeAt, Spells, InsertAll, WellFormed, Disjoint, Holding;
    ComposedIsFlat(spec, f);
    RootIsDir(f);
    var t, items, n := TreeAt(f, []), ItemsOf(spec), |spec.inputs|;
    forall i | 0 <= i < |items| ensures Sub(t, items[i].path) == Some(items[i].leaf) {
      ItemIsThere(f, items, i);
    }
    forall i | 0 <= i < n ensures InputAt(spec.inputs[i], t) {
      ItemSpelled(spec, i);
      assert Sub(t, items[i].path) == Some(items[i].leaf);
    }
    forall i | 0 <= i < |spec.inputTrees| ensures TreeMounted(spec.inputTrees[i], t) {
      ItemSpelled(spec, n + i);
      assert Sub(t, items[n + i].path) == Some(items[n + i].leaf);
    }
    forall q | q != [] && Sub(t, q).Some? ensures OnTheWay(spec, q) {
      var i := ItemBelow(f, items, q);
      ItemOnTheWay(spec, i, q);
    }
  }

  lemma RootIsDir(f: Flat)
    requires WellFormed(f)
    ensures [] in f.dirs
  {
  }

  lemma ItemIsThere(f: Flat, items: seq<Item>, i: nat)
    requires Describes(f, items) && WellFormed(f) && Disjoint(f) && i < |items|
    ensures Sub(TreeAt(f, []), items[i].path) == Some(items[i].leaf)
  {
    hide TreeAt;
    SubOfTree(f, [], items[i].path);
    assert [] + items[i].path == items[i].path;
  }

  lemma ItemBelow(f: Flat, items: seq<Item>, q: Path) returns (i: nat)
    requires Describes(f, items) && WellFormed(f) && Disjoint(f)
    requires q != [] && Sub(TreeAt(f, []), q).Some?
    ensures i < |items| && q <= items[i].path
  {
    hide TreeAt;
    SubOfTree(f, [], q);
    assert [] + q == q;
    if q in f.dirs {
      assert SomeLeadsFrom(items, q);
      i :| 0 <= i < |items| && q <= items[i].path;
    } else {
      i :| 0 <= i < |items| && items[i].path == q;
    }
  }

  lemma BlobTellsAt(c: Codec, f: Flat, p: Path)
    requires WellFormed(f) && Disjoint(f)
    ensures BlobTells(c, c.BlobOf(BlobAt(c, f, p)), TreeAt(f, p))
  {
    MsgAtIsMsg(c, f, p);
    MsgTells(c, TreeAt(f, p));
    hide TreeAt, Msg, WellFormed, Tells;
  }

  lemma DirsOfTree(f: Flat, p: Path)
    requires WellFormed(f) && Disjoint(f)
    ensures p in Below(f.dirs, []) <==> p in Paths(TreeAt(f, [])) && p != [] && IsDir(TreeAt(f, []), p)
    ensures p in f.dirs ==> Sub(TreeAt(f, []), p) == Some(TreeAt(f, p))
  {
    hide TreeAt, Paths;
    SubOfTree(f, [], p);
    PathsAreInhabited(TreeAt(f, []), p);
    assert [] + p == p;
  }

  lemma RootIsComposed(c: Codec, spec: Spec, f: Flat, pushed: seq<Path>, root: InputRoot)
    requires IsRootOf(c, spec, f, pushed, root)
    ensures ComposedFor(c, spec, root)
  {
    hide ComposesTo, SpecTree, TreeAt, BlobAt, BlobTells, WellFormed, Disjoint, Below, Paths, IsDir, Describes;
    ComposedIsFlat(spec, f);
    ComposedIsSpecTree(spec, f);
    var t := TreeAt(f, []);
    BlobTellsAt(c, f, []);
    forall p ensures p in Below(f.dirs, []) <==> p in Paths(t) && p != [] && IsDir(t, p) { DirsOfTree(f, p); }
    assert Below(f.dirs, []) == set p | p in Paths(t) && p != [] && IsDir(t, p);
    forall i | 0 <= i < |root.blobs|
      ensures Sub(t, pushed[i]).Some? && BlobTells(c, root.blobs[i], Sub(t, pushed[i]).value)
    {
      DirsBelow(f, pushed[i]);
      DirsOfTree(f, pushed[i]);
      BlobTellsAt(c, f, pushed[i]);
    }
    assert BlobsTell(c, root.blobs, t, pushed);
  }

  lemma DirsBelow(f: Flat, p: Path)
    requires p in Below(f.dirs, [])
    ensures p in f.dirs
  {
  }

  /** Every path of the spec is spelled by names, and none equals or leads to another. */
  ghost predicate SpelledApart(spec: Spec) {
    exists ps: seq<Path> ::
      && SpelledAs(spec, ps)
      && forall i, j :: 0 <= i < |ps| && 0 <= j < |ps| && i != j ==> !(ps[i] <= ps[j])
  }

  ghost predicate SpelledAs(spec: Spec, ps: seq<Path>) {
    && |ps| == |spec.inputs| + |spec.inputTrees|
    && (forall i :: 0 <= i < |spec.inputs| ==> Spells(spec.inputs[i].path, ps[i]))
    && (forall i :: 0 <= i < |spec.inputTrees| ==> Spells(spec.inputTrees[i].path, ps[|spec.inputs| + i]))
  }

  lemma SpelledAsItems(spec: Spec, ps: seq<Path>)
    ensures SpelledAs(spec, ps) <==> WellSpelled(spec) && ps == PathsOf(ItemsOf(spec))
  {
    hide SpelledAs, WellSpelled;
    if SpelledAs(spec, ps) { SpelledIsItems(spec, ps); }
    if WellSpelled(spec) && ps == PathsOf(ItemsOf(spec)) { ItemsAreSpelled(spec, ps); }
  }

  lemma SpelledIsItems(spec: Spec, ps: seq<Path>)
    requires SpelledAs(spec, ps)
    ensures WellSpelled(spec) && ps == PathsOf(ItemsOf(spec))
  {
    hide Spells, ComponentsOf;
    var n := |spec.inputs|;
    DotIsNotSpelled();
    forall i | 0 <= i < n ensures ComponentsOf(spec.inputs[i].path) == Some(ps[i]) {
      SpelledOnlySo(spec.inputs[i].path, ps[i]);
    }
    forall i | 0 <= i < |spec.inputTrees| ensures ComponentsOf(spec.inputTrees[i].path) == Some(ps[n + i]) {
      SpelledOnlySo(spec.inputTrees[i].path, ps[n + i]);
    }
    forall i | 0 <= i < |ps| ensures ps[i] == PathsOf(ItemsOf(spec))[i] {
      if i >= n { assert ComponentsOf(spec.inputTrees[i - n].path) == Some(ps[n + (i - n)]); }
    }
  }

  lemma ItemsAreSpelled(spec: Spec, ps: seq<Path>)
    requires WellSpelled(spec) && ps == PathsOf(ItemsOf(spec))
    ensures SpelledAs(spec, ps)
  {
    hide Spells, ComponentsOf;
    var n := |spec.inputs|;
    forall i | 0 <= i < |ps| ensures ps[i] == ItemsOf(spec)[i].path {}
    forall i | 0 <= i < n ensures Spells(spec.inputs[i].path, ps[i]) { ItemSpelled(spec, i); }
    forall i | 0 <= i < |spec.inputTrees| ensures Spells(spec.inputTrees[i].path, ps[n + i]) {
      ItemSpelled(spec, n + i);
    }
  }

  lemma DotIsNotSpelled()
    ensures forall p :: !Spells(".", p)
  {
    forall p ensures !Spells(".", p) {
      SpelledOnlySo(".", p);
      assert Split(".", '/') == ["."];
      assert !IsName(Split(".", '/')[0]);
    }
  }

  lemma AcceptedExactlyApart(spec: Spec)
    ensures SpelledApart(spec) <==> WellSpelled(spec) && Incomparable(PathsOf(ItemsOf(spec)))
  {
    hide SpelledAs, WellSpelled, ItemsOf, PathsOf;
    if WellSpelled(spec) { SpelledAsItems(spec, PathsOf(ItemsOf(spec))); }
    if SpelledApart(spec) {
      var ps: seq<Path> :| SpelledAs(spec, ps) &&
        forall i, j :: 0 <= i < |ps| && 0 <= j < |ps| && i != j ==> !(ps[i] <= ps[j]);
      SpelledAsItems(spec, ps);
    }
  }

  /** The input root of a spec: a single tree mounted at `.` with nothing else is used as it is.
      Otherwise it is accepted exactly when every path is well formed and none equals or leads to
      another. */
  method InputRootFromSpec(c: Codec, spec: Spec) returns (r: Result<InputRoot, ComposeError>)
    ensures |spec.inputTrees| == 1 && spec.inputTrees[0].path == "." && spec.inputs == [] ==>
      r == Ok(InputRoot(spec.inputTrees[0].rootDigest, [], []))
    ensures !(|spec.inputTrees| == 1 && spec.inputTrees[0].path == "." && spec.inputs == []) ==>
      && (r.Ok? <==> SpelledApart(spec))
      && (r.Ok? ==> ComposedFor(c, spec, r.value))
    ensures !WholeRoot(spec) ==> (r.Ok? <==> WellSpelled(spec) && Incomparable(PathsOf(ItemsOf(spec))))
    ensures !WholeRoot(spec) && r.Ok? ==> exists f, pushed :: IsRootOf(c, spec, f, pushed, r.value)
  {
    AcceptedExactlyApart(spec);
    hide WellSpelled, ItemsOf, Steps, Taken, CanInsert, Insert, Incomparable, MsgAt, Enumerates, BlobsAt, ComposesTo;
    hide ComponentsOf, Split, DirectoryComposer.Valid, PathsOf, Below, ComposedFor, SpelledApart, IsRootOf;
    if WholeRoot(spec) {
      return Ok(InputRoot(spec.inputTrees[0].rootDigest, [], []));
    }
    ghost var steps := Steps(spec);
    StepsCompose(spec);
    var composer := new DirectoryComposer([]);
    composer.StartsEmpty();
    assert steps[..0] == [];
    TakenNone();
    var n := |spec.inputs|;
    for i := 0 to n
      invariant composer.Valid() && fresh(composer) && fresh(composer.nodes.Values)
      invariant Taken(steps[..i]) == Some(composer.State())
    {
      StepAt(spec, i);
      TakenNext(steps, i);
      var result := composer.AddFile(spec.inputs[i]);
      if result.Err? { return Err(result.error); }
    }
    for i := 0 to |spec.inputTrees|
      invariant composer.Valid() && fresh(composer) && fresh(composer.nodes.Values)
      invariant Taken(steps[..n + i]) == Some(composer.State())
    {
      StepAt(spec, n + i);
      TakenNext(steps, n + i);
      var result := composer.AddInputTree(spec.inputTrees[i]);
      if result.Err? { return Err(result.error); }
    }
    assert steps[..|steps|] == steps;
    var root; ghost var pushed;
    root, pushed := RootOfComposed(composer, c, spec);
    r := Ok(root);
  }

  method RootOfComposed(composer: DirectoryComposer, c: Codec, ghost spec: Spec)
    returns (root: InputRoot, ghost pushed: seq<Path>)
    requires composer.Valid() && ComposesTo(spec, composer.State())
    ensures IsRootOf(c, spec, composer.State(), pushed, root) && ComposedFor(c, spec, root)
  {
    hide ComposesTo, MsgAt, BlobsAt, Enumerates, DirectoryComposer.Valid, Below, ComposedFor, WellFormed, Disjoint,
      TreeAt, Tells, InNameOrder, DirectoryComposer.Linked;
    composer.AtRoot();
    var directory, blobs;
    directory, blobs, pushed := composer.IntoDirectory(c, composer, []);
    var blob := c.encodeDirectory(directory);
    root := InputRoot(c.DigestOf(blob), blob, blobs);
    RootIsComposed(c, spec, composer.State(), pushed, root);
  }

  /** The digest and blob of the composed root, and the blob of every directory below it,
      each pushed once. */
  ghost predicate IsRootOf(c: Codec, spec: Spec, f: Flat, pushed: seq<Path>, root: InputRoot) {
    && ComposesTo(spec, f)
    && root.blob == BlobAt(c, f, [])
    && root.digest == c.DigestOf(root.blob)
    && root.blobs == BlobsAt(c, f, pushed)
    && Enumerates(pushed, Below(f.dirs, []))
  }

  lemma TakenNone()
    ensures Taken([]) == Some(Empty())
  {
  }

  lemma StepAt(spec: Spec, i: nat)
    requires i < |spec.inputs| + |spec.inputTrees|
    ensures Steps(spec)[i] ==
      if i < |spec.inputs| then FileStep(spec.inputs[i]) else TreeStep(spec.inputTrees[i - |spec.inputs|])
  {
  }

  // ---------------------------------------------------------------- a spec with a tree spelled out

  function InputsUnder(path: string, inputs: seq<InputSpec>): (r: seq<InputSpec>)
    ensures |r| == |inputs|
    ensures forall i :: 0 <= i < |r| ==> r[i] == inputs[i].(path := path + "/" + inputs[i].path)
  {
    seq(|inputs|, i requires 0 <= i < |inputs| => inputs[i].(path := path + "/" + inputs[i].path))
  }

  function TreesUnder(path: string, trees: seq<InputTreeSpec>): (r: seq<InputTreeSpec>)
    ensures |r| == |trees|
    ensures forall i :: 0 <= i < |r| ==> r[i] == trees[i].(path := path + "/" + trees[i].path)
  {
    seq(|trees|, i requires 0 <= i < |trees| => trees[i].(path := path + "/" + trees[i].path))
  }

  /** The spec in which everything `sub` names takes the place of the `k`-th mounted tree. */
  function SpelledOut(spec: Spec, k: nat, sub: Spec): Spec
    requires k < |spec.inputTrees|
  {
    var path := spec.inputTrees[k].path;
    Spec(spec.inputTrees[..k] + spec.inputTrees[k + 1..] + TreesUnder(path, sub.inputTrees),
         spec.inputs + InputsUnder(path, sub.inputs))
  }

  /** `qs` is `ps` in another order. */
  ghost predicate Reordered(ps: seq<Path>, qs: seq<Path>, f: int -> int) {
    && |ps| == |qs|
    && (forall i :: 0 <= i < |qs| ==> 0 <= f(i) < |ps| && qs[i] == ps[f(i)])
    && (forall i, j :: 0 <= i < |qs| && 0 <= j < |qs| && f(i) == f(j) ==> i == j)
  }

  lemma ReorderedIncomparable(ps: seq<Path>, qs: seq<Path>, f: int -> int)
    requires Incomparable(ps) && Reordered(ps, qs, f)
    ensures Incomparable(qs)
  {
  }

  ghost function ItemsUnder(spec: Spec, k: nat, sub: Spec): seq<Item>
    requires WellSpelled(spec) && WellSpelled(sub) && k < |spec.inputTrees|
  {
    var n := |spec.inputs|;
    var items := ItemsOf(spec);
    items[..n + k] + items[n + k + 1..] + Under(items[n + k].path, ItemsOf(sub))
  }

  lemma SpelledIsWellSpelled(spec: Spec, k: nat, sub: Spec)
    requires WellSpelled(spec) && WellSpelled(sub) && k < |spec.inputTrees|
    ensures WellSpelled(SpelledOut(spec, k, sub))
  {
    hide ComponentsOf;
    var spelled, path := SpelledOut(spec, k, sub), spec.inputTrees[k].path;
    forall i | 0 <= i < |spelled.inputs| ensures ComponentsOf(spelled.inputs[i].path).Some? {
      if i >= |spec.inputs| { ComponentsBelow(path, sub.inputs[i - |spec.inputs|].path); }
    }
    var m := |spec.inputTrees| - 1;
    forall i | 0 <= i < |spelled.inputTrees|
      ensures spelled.inputTrees[i].path != "." && ComponentsOf(spelled.inputTrees[i].path).Some?
    {
      if i >= m {
        ComponentsBelow(path, sub.inputTrees[i - m].path);
        assert |spelled.inputTrees[i].path| >= 1 + |sub.inputTrees[i - m].path|;
        DotHasNoComponents();
      } else {
        assert spelled.inputTrees[i] == spec.inputTrees[if i < k then i else i + 1];
      }
    }
  }

  lemma DotHasNoComponents()
    ensures ComponentsOf(".").None?
  {
    SplitPlain(".", '/');
    assert !IsName(Split(".", '/')[0]);
  }

  /** Where the `i`-th item of the spelled-out spec is among the items of the graft. */
  function Origin(i: int, n: nat, others: nat, below: nat): int {
    if i < n then i
    else if i < n + below then i + others
    else if i < n + below + others then i - below
    else i
  }

  lemma ItemAt(spec: Spec, i: nat)
    requires WellSpelled(spec) && i < |spec.inputs| + |spec.inputTrees|
    ensures ItemsOf(spec)[i] ==
      if i < |spec.inputs| then FileItem(spec.inputs[i]) else TreeItem(spec.inputTrees[i - |spec.inputs|])
  {
  }

  lemma SpelledCounts(spec: Spec, k: nat, sub: Spec)
    requires WellSpelled(spec) && WellSpelled(sub) && k < |spec.inputTrees|
    ensures |SpelledOut(spec, k, sub).inputs| == |spec.inputs| + |sub.inputs|
    ensures |SpelledOut(spec, k, sub).inputTrees| == |spec.inputTrees| - 1 + |sub.inputTrees|
    ensures |ItemsUnder(spec, k, sub)| ==
      |spec.inputs| + |sub.inputs| + |spec.inputTrees| - 1 + |sub.inputTrees|
  {
    hide ItemsOf, Under;
  }

  /** An item that `sub` contributes, at its path below the mounting point. */
  lemma SubItem(spec: Spec, k: nat, sub: Spec, t: nat)
    requires WellSpelled(spec) && WellSpelled(sub) && k < |spec.inputTrees|
    requires t < |sub.inputs| + |sub.inputTrees|
    ensures ItemsUnder(spec, k, sub)[|spec.inputs| + |spec.inputTrees| - 1 + t] ==
      Item(ComponentsOf(spec.inputTrees[k].path).value + ItemsOf(sub)[t].path, ItemsOf(sub)[t].leaf)
  {
    ItemAt(spec, |spec.inputs| + k);
    hide ItemsOf, ComponentsOf;
  }

  /** An item of the spec itself, those after the mounted tree moved up by one. */
  lemma OwnItem(spec: Spec, k: nat, sub: Spec, i: nat)
    requires WellSpelled(spec) && WellSpelled(sub) && k < |spec.inputTrees|
    requires i < |spec.inputs| + |spec.inputTrees| - 1
    ensures ItemsUnder(spec, k, sub)[i] == ItemsOf(spec)[if i < |spec.inputs| + k then i else i + 1]
  {
    hide ItemsOf, ComponentsOf, Under;
  }

  lemma SpelledItem(spec: Spec, k: nat, sub: Spec, i: nat)
    requires WellSpelled(spec) && WellSpelled(sub) && k < |spec.inputTrees|
    requires WellSpelled(SpelledOut(spec, k, sub))
    requires i < |ItemsOf(SpelledOut(spec, k, sub))|
    ensures |ItemsOf(SpelledOut(spec, k, sub))| == |ItemsUnder(spec, k, sub)|
    ensures var j := Origin(i, |spec.inputs|, |spec.inputTrees| - 1, |sub.inputs|);
      0 <= j < |ItemsUnder(spec, k, sub)| && ItemsOf(SpelledOut(spec, k, sub))[i] == ItemsUnder(spec, k, sub)[j]
  {
    hide ComponentsOf, ItemsOf, ItemsUnder;
    var n, m, w := |spec.inputs|, |spec.inputTrees| - 1, |sub.inputs|;
    var spelled, path := SpelledOut(spec, k, sub), spec.inputTrees[k].path;
    SpelledCounts(spec, k, sub);
    ItemAt(spelled, i);
    if i < n {
      OwnItem(spec, k, sub, i);
      ItemAt(spec, i);
    } else if i < n + w {
      ComponentsBelow(path, sub.inputs[i - n].path);
      SubItem(spec, k, sub, i - n);
      ItemAt(sub, i - n);
    } else if i < n + w + m {
      var t := i - n - w;
      assert spelled.inputTrees[t] == spec.inputTrees[if t < k then t else t + 1];
      OwnItem(spec, k, sub, n + t);
      ItemAt(spec, if t < k then n + t else n + t + 1);
    } else {
      var t := i - n - w - m;
      ComponentsBelow(path, sub.inputTrees[t].path);
      SubItem(spec, k, sub, w + t);
      ItemAt(sub, w + t);
    }
  }

  /** A sequence whose items come, one for one, from those of another. */
  lemma SameItems(a: seq<Item>, b: seq<Item>, n: nat, m: nat, w: nat)
    requires |a| == |b| && n + w + m <= |a|
    requires forall i :: 0 <= i < |b| ==> 0 <= Origin(i, n, m, w) < |a| && b[i] == a[Origin(i, n, m, w)]
    ensures forall x :: x in b <==> x in a
    ensures Incomparable(PathsOf(a)) ==> Incomparable(PathsOf(b))
  {
    hide Incomparable;
    forall x | x in a ensures x in b {
      var j :| 0 <= j < |a| && a[j] == x;
      var i := Origin(j, n, w, m);
      assert Origin(i, n, m, w) == j && b[i] == x;
    }
    assert Reordered(PathsOf(a), PathsOf(b), i => Origin(i, n, m, w));
    if Incomparable(PathsOf(a)) { ReorderedIncomparable(PathsOf(a), PathsOf(b), i => Origin(i, n, m, w)); }
  }

  lemma SpelledItems(spec: Spec, k: nat, sub: Spec)
    requires WellSpelled(spec) && WellSpelled(sub) && k < |spec.inputTrees|
    requires WellSpelled(SpelledOut(spec, k, sub))
    ensures forall x :: x in ItemsOf(SpelledOut(spec, k, sub)) <==> x in ItemsUnder(spec, k, sub)
    ensures Incomparable(PathsOf(ItemsUnder(spec, k, sub))) ==> Incomparable(PathsOf(ItemsOf(SpelledOut(spec, k, sub))))
  {
    hide ItemsOf, ItemsUnder, SpelledOut, Incomparable, WellSpelled, Origin, PathsOf;
    var n, m, w := |spec.inputs|, |spec.inputTrees| - 1, |sub.inputs|;
    var a, b := ItemsUnder(spec, k, sub), ItemsOf(SpelledOut(spec, k, sub));
    SpelledCounts(spec, k, sub);
    forall i | 0 <= i < |b| ensures 0 <= Origin(i, n, m, w) < |a| && b[i] == a[Origin(i, n, m, w)] {
      SpelledItem(spec, k, sub, i);
    }
    SameItems(a, b, n, m, w);
  }

  lemma MovedItems(items: seq<Item>, m: nat, f: int -> int)
    requires m < |items|
    requires forall i :: f(i) == if i < m then i else if i < |items| - 1 then i + 1 else m
    ensures var moved := items[..m] + items[m + 1..] + [items[m]];
      (forall x :: x in items <==> x in moved) && Reordered(PathsOf(items), PathsOf(moved), f)
  {
    var moved, n := items[..m] + items[m + 1..] + [items[m]], |items| - 1;
    forall i ensures 0 <= i < |moved| ==> moved[i] == items[f(i)] {}
    forall x ensures x in items <==> x in moved {
      if i :| 0 <= i < |items| && items[i] == x {
        assert moved[if i < m then i else if i == m then n else i - 1] == x;
      }
    }
  }

  /** Moving an item to the end changes nothing. */
  lemma MountLast(items: seq<Item>, m: nat)
    requires m < |items| && forall i :: 0 <= i < |items| ==> items[i].path != []
    requires InsertAll(items).Some?
    ensures InsertAll(items[..m] + items[m + 1..] + [items[m]]) == InsertAll(items)
  {
    hide InsertAll, Incomparable, Describes, Reordered;
    var moved, n := items[..m] + items[m + 1..] + [items[m]], |items| - 1;
    var f := i => if i < m then i else if i < n then i + 1 else m;
    MovedItems(items, m, f);
    AcceptedExactlyIncomparable(items);
    AcceptedExactlyIncomparable(moved);
    ReorderedIncomparable(PathsOf(items), PathsOf(moved), f);
    InsertionOrderIsForgotten(items, moved);
  }

  /** Mounting a tree by its digest and spelling it out compose to the same root: if `sub`
      composes to the digest that `spec` mounts, then the spec in which everything in `sub` is
      named under the mounting point is accepted too, and has the same root blob and digest. */
  lemma MountedSpecHasSpelledDigest(c: Codec, spec: Spec, k: nat, sub: Spec, f: Flat, s: Flat) returns (g: Flat)
    requires ComposesTo(spec, f) && ComposesTo(sub, s) && k < |spec.inputTrees|
    requires sub.inputs != [] || sub.inputTrees != []
    requires spec.inputTrees[k].rootDigest == c.DigestOf(BlobAt(c, s, []))
    ensures ComposesTo(SpelledOut(spec, k, sub), g)
    ensures BlobAt(c, g, []) == BlobAt(c, f, [])
  {
    hide InsertAll, Incomparable, BlobAt, Describes, ComponentsOf;
    var n, items, subItems := |spec.inputs|, ItemsOf(spec), ItemsOf(sub);
    var others, mount := items[..n + k] + items[n + k + 1..], items[n + k];
    assert mount == TreeItem(spec.inputTrees[k]);
    RootDigestAt(c, s, sub);
    MountLast(items, n + k);
    MountingRefinesExpanding(c, others, mount, subItems);
    SpelledIsWellSpelled(spec, k, sub);
    SpelledItems(spec, k, sub);
    var spelled := ItemsOf(SpelledOut(spec, k, sub));
    forall i | 0 <= i < |ItemsUnder(spec, k, sub)| ensures ItemsUnder(spec, k, sub)[i].path != [] {
      assert ItemsUnder(spec, k, sub)[i] in spelled;
    }
    AcceptedExactlyIncomparable(others + Under(mount.path, subItems));
    AcceptedExactlyIncomparable(spelled);
    InsertionOrderIsForgotten(others + Under(mount.path, subItems), spelled);
    g := InsertAll(spelled).value;
  }

  lemma RootDigestAt(c: Codec, s: Flat, sub: Spec)
    requires ComposesTo(sub, s)
    ensures DirectoryAt(s, []) && DigestAt(c, s, []) == Some(c.DigestOf(BlobAt(c, s, [])))
  {
    AcceptedExactlyIncomparable(ItemsOf(sub));
  }
}
