/** The Merkle digest of a directory, stated once.  Every route by which the tools arrive
    at a digest is proved to compute `Msg` and `Dig` of some skeleton. */
module Merkle {
  import opened Names
  import opened Messages

  /** A directory tree as its messages see it: files and mounted directories are known
      only by their digests. */
  datatype Skel =
    | SFile(digest: Option<Digest>, exec: bool)
    | SLink(target: string)
    | SMount(digest: Option<Digest>)
    | SDir(kids: map<string, Skel>)
  {
    predicate Directory?() { SDir? || SMount? }
  }

  ghost function FileMap(t: Skel): (m: map<string, FileNode>)
    requires t.SDir?
    ensures forall k :: k in m <==> k in t.kids && t.kids[k].SFile?
    ensures forall k :: k in m ==> m[k] == FileNode(k, t.kids[k].digest, t.kids[k].exec)
  {
    MapOf((set k | k in t.kids && t.kids[k].SFile?),
          k requires k in t.kids && t.kids[k].SFile? => FileNode(k, t.kids[k].digest, t.kids[k].exec))
  }

  ghost function LinkMap(t: Skel): (m: map<string, SymlinkNode>)
    requires t.SDir?
    ensures forall k :: k in m <==> k in t.kids && t.kids[k].SLink?
    ensures forall k :: k in m ==> m[k] == SymlinkNode(k, t.kids[k].target)
  {
    MapOf((set k | k in t.kids && t.kids[k].SLink?),
          k requires k in t.kids && t.kids[k].SLink? => SymlinkNode(k, t.kids[k].target))
  }

  ghost function DirMap(c: Codec, t: Skel): (m: map<string, DirectoryNode>)
    requires t.SDir?
    ensures forall k :: k in m <==> k in t.kids && t.kids[k].Directory?()
    ensures forall k :: k in m ==> m[k] == DirectoryNode(k, Dig(c, t.kids[k]))
    decreases t, 0
  {
    MapOf((set k | k in t.kids && t.kids[k].Directory?()),
          k requires k in t.kids && t.kids[k].Directory?() => DirectoryNode(k, Dig(c, t.kids[k])))
  }

  /** The canonical `Directory` message of a directory: three lists, each sorted by name. */
  ghost function Msg(c: Codec, t: Skel): Directory
    requires t.SDir?
    decreases t, 1
  {
    Directory(ValuesInOrder(FileMap(t)), ValuesInOrder(DirMap(c, t)), ValuesInOrder(LinkMap(t)))
  }

  ghost function DirBlob(c: Codec, t: Skel): Bytes
    requires t.SDir?
    decreases t, 2
  {
    c.encodeDirectory(Msg(c, t))
  }

  ghost function Dig(c: Codec, t: Skel): Option<Digest>
    requires t.Directory?()
    decreases t, 3
  {
    if t.SMount? then t.digest else Some(c.DigestOf(DirBlob(c, t)))
  }

  /** Every directory blob of the tree, its own included. */
  ghost function DirBlobs(c: Codec, t: Skel): set<Bytes>
    requires t.SDir?
  {
    {DirBlob(c, t)} + set k, b | k in t.kids && t.kids[k].SDir? && b in DirBlobs(c, t.kids[k]) :: b
  }

  ghost predicate MountFree(t: Skel) {
    !t.SMount? && (t.SDir? ==> forall k :: k in t.kids ==> MountFree(t.kids[k]))
  }

  /** `u` is `t` with some mounts spelled out: each mount is kept, or replaced by a directory
      that has the mounted digest. */
  ghost predicate Expands(c: Codec, t: Skel, u: Skel) {
    match t
    case SFile(_, _) => u == t
    case SLink(_) => u == t
    case SMount(d) => u == t || (u.SDir? && Dig(c, u) == d)
    case SDir(kids) =>
      && u.SDir?
      && u.kids.Keys == kids.Keys
      && forall k :: k in kids ==> Expands(c, kids[k], u.kids[k])
  }

  /** Mounting a directory by digest and spelling it out give the same digest. */
  lemma {:induction false} ExpandingKeepsDigest(c: Codec, t: Skel, u: Skel)
    requires Expands(c, t, u) && t.Directory?()
    ensures u.Directory?() && Dig(c, u) == Dig(c, t)
    ensures t.SDir? ==> Msg(c, u) == Msg(c, t)
  {
    if t.SDir? {
      hide Expands, Dig, DirMap, FileMap, LinkMap;
      LeavesExpandToThemselves(c, t, u);
      forall k | k in t.kids && t.kids[k].Directory?()
        ensures u.kids[k].Directory?() && Dig(c, u.kids[k]) == Dig(c, t.kids[k])
      {
        ExpandingKeepsDigest(c, t.kids[k], u.kids[k]);
      }
      assert FileMap(t) == FileMap(u);
      assert LinkMap(t) == LinkMap(u);
      assert DirMap(c, t) == DirMap(c, u);
    }
    SameMsgSameDigest(c, t, u);
  }

  lemma LeavesExpandToThemselves(c: Codec, t: Skel, u: Skel)
    requires t.SDir? && Expands(c, t, u)
    ensures u.SDir? && u.kids.Keys == t.kids.Keys
    ensures forall k :: k in t.kids && !t.kids[k].Directory?() ==> u.kids[k] == t.kids[k]
    ensures forall k :: k in t.kids && t.kids[k].Directory?() ==> u.kids[k].Directory?()
    ensures forall k :: k in t.kids ==> Expands(c, t.kids[k], u.kids[k])
  {
  }

  lemma SameMsgSameDigest(c: Codec, t: Skel, u: Skel)
    requires t.Directory?() && Expands(c, t, u)
    requires t.SDir? ==> u.SDir? && Msg(c, u) == Msg(c, t)
    ensures u.Directory?() && Dig(c, u) == Dig(c, t)
  {
    hide Msg;
  }

  lemma MsgDeterminesMaps(c: Codec, t: Skel, u: Skel)
    requires t.SDir? && u.SDir? && Msg(c, t) == Msg(c, u)
    ensures FileMap(t) == FileMap(u) && LinkMap(t) == LinkMap(u) && DirMap(c, t) == DirMap(c, u)
  {
    ValuesInOrderInjective(FileName, FileMap(t), FileMap(u));
    ValuesInOrderInjective(SymlinkName, LinkMap(t), LinkMap(u));
    ValuesInOrderInjective(DirectoryName, DirMap(c, t), DirMap(c, u));
  }

  lemma EqualDigestsEqualMaps(c: Codec, t: Skel, u: Skel)
    requires c.Lawful() && t.SDir? && u.SDir? && Dig(c, t) == Dig(c, u)
    requires c.NoCollision({DirBlob(c, t), DirBlob(c, u)})
    ensures FileMap(t) == FileMap(u) && LinkMap(t) == LinkMap(u) && DirMap(c, t) == DirMap(c, u)
  {
    hide Msg, FileMap, LinkMap, DirMap;
    assert c.decodeDirectory(DirBlob(c, t)) == Some(Msg(c, t));
    assert c.decodeDirectory(DirBlob(c, u)) == Some(Msg(c, u));
    MsgDeterminesMaps(c, t, u);
  }

  /** What the maps of two directories tell about an entry. */
  lemma EqualMapsEqualKid(c: Codec, t: Skel, u: Skel, k: string)
    requires t.SDir? && u.SDir? && k in t.kids
    requires FileMap(t) == FileMap(u) && LinkMap(t) == LinkMap(u) && DirMap(c, t) == DirMap(c, u)
    ensures k in u.kids
    ensures t.kids[k].SFile? || t.kids[k].SLink? ==> u.kids[k] == t.kids[k]
    ensures t.kids[k].Directory?() ==> u.kids[k].Directory?() && Dig(c, u.kids[k]) == Dig(c, t.kids[k])
  {
    hide FileMap, LinkMap, DirMap, Dig;
    if t.kids[k].SFile? { assert k in FileMap(t) && FileMap(t)[k] == FileMap(u)[k]; }
    if t.kids[k].SLink? { assert k in LinkMap(t) && LinkMap(t)[k] == LinkMap(u)[k]; }
    if t.kids[k].Directory?() { assert k in DirMap(c, t) && DirMap(c, t)[k] == DirMap(c, u)[k]; }
  }

  /** The converse of `ExpandingKeepsDigest`: without a hash collision, a tree that is fully
      spelled out has the digest of `t` only if it is `t` with its mounts spelled out. */
  lemma {:induction false} EqualDigestsExpand(c: Codec, t: Skel, u: Skel)
    requires c.Lawful() && t.SDir? && u.SDir? && MountFree(u)
    requires c.NoCollision(DirBlobs(c, t) + DirBlobs(c, u))
    requires Dig(c, t) == Dig(c, u)
    ensures Expands(c, t, u)
  {
    hide Dig, DirBlobs, FileMap, LinkMap, DirMap, MountFree, Expands;
    RootBlobs(c, t, u);
    EqualDigestsEqualMaps(c, t, u);
    forall k | k in u.kids ensures k in t.kids {
      EqualMapsEqualKid(c, u, t, k);
    }
    forall k | k in t.kids ensures k in u.kids && Expands(c, t.kids[k], u.kids[k]) {
      EqualMapsEqualKid(c, t, u, k);
      MountFreeKid(u, k);
      if t.kids[k].SDir? {
        KidBlobs(c, t, u, k);
        EqualDigestsExpand(c, t.kids[k], u.kids[k]);
      } else {
        LeafExpands(c, t.kids[k], u.kids[k]);
      }
    }
    KidsExpand(c, t, u);
  }

  lemma KidsExpand(c: Codec, t: Skel, u: Skel)
    requires t.SDir? && u.SDir? && (forall k :: k in u.kids ==> k in t.kids)
    requires forall k :: k in t.kids ==> k in u.kids && Expands(c, t.kids[k], u.kids[k])
    ensures Expands(c, t, u)
  {
  }

  lemma RootBlobs(c: Codec, t: Skel, u: Skel)
    requires t.SDir? && u.SDir? && c.NoCollision(DirBlobs(c, t) + DirBlobs(c, u))
    ensures c.NoCollision({DirBlob(c, t), DirBlob(c, u)})
  {
  }

  lemma KidBlobs(c: Codec, t: Skel, u: Skel, k: string)
    requires t.SDir? && u.SDir? && k in t.kids && k in u.kids && t.kids[k].SDir? && u.kids[k].SDir?
    requires c.NoCollision(DirBlobs(c, t) + DirBlobs(c, u))
    ensures c.NoCollision(DirBlobs(c, t.kids[k]) + DirBlobs(c, u.kids[k]))
  {
    DirBlobsOfKid(c, t, k);
    DirBlobsOfKid(c, u, k);
    hide DirBlobs;
  }

  lemma MountFreeKid(t: Skel, k: string)
    requires t.SDir? && MountFree(t) && k in t.kids
    ensures MountFree(t.kids[k]) && !t.kids[k].SMount?
  {
  }

  lemma DirBlobsOfKid(c: Codec, t: Skel, k: string)
    requires t.SDir? && k in t.kids && t.kids[k].SDir?
    ensures DirBlobs(c, t.kids[k]) <= DirBlobs(c, t)
  {
    hide DirBlob;
  }

  lemma LeafExpands(c: Codec, t: Skel, u: Skel)
    requires !t.SDir? && !u.SMount?
    requires if t.SMount? then u.SDir? && Dig(c, u) == Dig(c, t) else u == t
    ensures Expands(c, t, u)
  {
  }

  lemma {:induction false} OnlySelfExpandsMountFree(c: Codec, t: Skel, u: Skel)
    requires MountFree(t)
    ensures Expands(c, t, u) <==> t == u
  {
    if t.SDir? && u.SDir? && u.kids.Keys == t.kids.Keys {
      forall k | k in t.kids ensures Expands(c, t.kids[k], u.kids[k]) <==> t.kids[k] == u.kids[k] {
        OnlySelfExpandsMountFree(c, t.kids[k], u.kids[k]);
      }
      if Expands(c, t, u) {
        assert t.kids == u.kids;
      }
    }
  }

  /** Canonicity: fully spelled-out trees have the same root digest exactly when they are equal. */
  lemma DigestCharacterisesTree(c: Codec, t: Skel, u: Skel)
    requires c.Lawful() && t.SDir? && u.SDir? && MountFree(t) && MountFree(u)
    requires c.NoCollision(DirBlobs(c, t) + DirBlobs(c, u))
    ensures Dig(c, t) == Dig(c, u) <==> t == u
  {
    if Dig(c, t) == Dig(c, u) {
      EqualDigestsExpand(c, t, u);
      OnlySelfExpandsMountFree(c, t, u);
    }
  }

  // ---------------------------------------------------------------- paths into a skeleton

  /** What the skeleton holds at a path. */
  function Sub(t: Skel, p: Path): Option<Skel>
    decreases p
  {
    if p == [] then Some(t)
    else if t.SDir? && p[0] in t.kids then Sub(t.kids[p[0]], p[1..])
    else None
  }

  ghost predicate IsDir(t: Skel, p: Path) { Sub(t, p).Some? && Sub(t, p).value.SDir? }

  lemma {:induction false} SubStep(t: Skel, p: Path, n: string)
    ensures Sub(t, p + [n]) ==
      match Sub(t, p) {
        case None => None
        case Some(d) => if d.SDir? && n in d.kids then Some(d.kids[n]) else None
      }
  {
    if p == [] {
      assert (p + [n])[1..] == [];
    } else {
      assert (p + [n])[0] == p[0] && (p + [n])[1..] == p[1..] + [n];
      if t.SDir? && p[0] in t.kids {
        SubStep(t.kids[p[0]], p[1..], n);
      }
    }
  }

  lemma {:induction false} SubAppend(t: Skel, p: Path, q: Path)
    requires Sub(t, p).Some?
    ensures Sub(t, p + q) == Sub(Sub(t, p).value, q)
  {
    if p == [] {
      assert p + q == q;
    } else {
      assert (p + q)[0] == p[0] && (p + q)[1..] == p[1..] + q;
      SubAppend(t.kids[p[0]], p[1..], q);
    }
  }

  lemma {:induction false} MountFreeAt(t: Skel, p: Path)
    requires MountFree(t) && Sub(t, p).Some?
    ensures MountFree(Sub(t, p).value)
  {
    if p != [] { MountFreeAt(t.kids[p[0]], p[1..]); }
  }

  lemma {:induction false} DirBlobsBelow(c: Codec, t: Skel, p: Path)
    requires IsDir(t, p) && t.SDir?
    ensures DirBlobs(c, Sub(t, p).value) <= DirBlobs(c, t)
  {
    hide DirBlob, DirBlobs;
    if p != [] {
      assert IsDir(t.kids[p[0]], p[1..]);
      SubIsDir(t.kids[p[0]], p[1..]);
      DirBlobsBelow(c, t.kids[p[0]], p[1..]);
      DirBlobsOfKid(c, t, p[0]);
    }
  }

  lemma SubIsDir(t: Skel, p: Path)
    requires IsDir(t, p)
    ensures t.SDir?
  {
  }

  /** Anything but a directory is a leaf, and the two skeletons agree at a path. */
  ghost predicate SameAt(t: Skel, u: Skel, p: Path) {
    match (Sub(t, p), Sub(u, p))
    case (None, None) => true
    case (Some(a), Some(b)) => if a.SDir? then b.SDir? else a == b
    case _ => false
  }

  /** Skeletons that look alike along every path are equal. */
  lemma {:induction false} Extensional(t: Skel, u: Skel)
    requires forall p :: SameAt(t, u, p)
    ensures t == u
  {
    assert SameAt(t, u, []);
    if t.SDir? {
      forall k ensures (k in t.kids <==> k in u.kids) {
        assert SameAt(t, u, [k]);
        SubStep(t, [], k);
        SubStep(u, [], k);
        assert [] + [k] == [k];
      }
      forall k | k in t.kids ensures t.kids[k] == u.kids[k] {
        forall p ensures SameAt(t.kids[k], u.kids[k], p) {
          assert SameAt(t, u, [k] + p);
          assert ([k] + p)[1..] == p;
        }
        Extensional(t.kids[k], u.kids[k]);
      }
      assert t.kids == u.kids;
    }
  }

  /** The finite set of paths at which a skeleton holds something. */
  ghost function Paths(t: Skel): set<Path> {
    {[]} + if t.SDir? then set k, p | k in t.kids && p in Paths(t.kids[k]) :: [k] + p else {}
  }

  lemma {:induction false} PathsAreInhabited(t: Skel, p: Path)
    ensures p in Paths(t) <==> Sub(t, p).Some?
  {
    if p != [] {
      assert p == [p[0]] + p[1..];
      if t.SDir? && p[0] in t.kids {
        PathsAreInhabited(t.kids[p[0]], p[1..]);
      }
      if t.SDir? && p in Paths(t) {
        var k, q :| k in t.kids && q in Paths(t.kids[k]) && p == [k] + q;
        assert p[0] == k && p[1..] == q;
      }
    }
  }
}
