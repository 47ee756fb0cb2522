/** What goes up comes down: an uploaded directory is rebuilt exactly, by either route. */
module RoundTrip {
  import opened Names
  import opened Messages
  import opened Merkle
  import opened PathText
  import opened FlatTree
  import opened Disk
  import opened TreeBuild
  import opened Remote
  import opened Client
  import opened Upload
  import opened FileSystem
  import opened Download
  import opened Materialize

  // ---------------------------------------------------------------- storage after an upload

  lemma DigestedStep(c: Codec, l: Listing, p: Path)
    requires Sub(Digested(c, Memoize(), View(l)), p).Some?
    ensures var s := Sub(Digested(c, Memoize(), View(l)), p).value;
      p == [] && s.SLink? ==> l.OnLink? && s.target == l.target
    ensures p != [] ==>
      && l.OnDir? && p[0] in ViewEntries(l.entries)
      && Sub(Digested(c, Memoize(), View(l)), p) == Sub(Digested(c, Memoize(), ViewEntries(l.entries)[p[0]]), p[1..])
  {
    hide DistinctNames;
  }

  lemma {:induction false} TidyBelow(c: Codec, l: Listing, p: Path)
    requires Genuine(l) && Sub(Digested(c, Memoize(), View(l)), p).Some?
    ensures p != [] ==> Proper(Last(p))
    ensures var s := Sub(Digested(c, Memoize(), View(l)), p).value;
      s.SLink? ==> s.target != ""
    decreases |p|
  {
    hide Proper, Digested, Sub, ViewEntries;
    DigestedStep(c, l, p);
    if p != [] {
      ViewEntriesKeys(l.entries, p[0]);
      var i :| 0 <= i < |l.entries| && l.entries[i].name == p[0];
      ViewEntriesAt(l.entries, i);
      assert l.entries[i] in l.entries;
      TidyBelow(c, l.entries[i].item, p[1..]);
    }
  }

  /** What a file system can list makes a tidy tree. */
  lemma SkeletonIsTidy(c: Codec, es: seq<Named>)
    requires Genuine(OnDir(es))
    ensures Tidy(Skeleton(c, es))
  {
    hide Proper, Genuine;
    forall p | p in Paths(Skeleton(c, es)) ensures TidyAt(Skeleton(c, es), p) {
      PathsAreInhabited(Skeleton(c, es), p);
      TidyBelow(c, OnDir(es), p);
    }
  }

  lemma SkeletonIsMountFree(c: Codec, es: seq<Named>, p: Path)
    requires Sub(Skeleton(c, es), p).Some?
    ensures !Sub(Skeleton(c, es), p).value.SMount?
  {
    DigestedIsMountFree(c, Memoize(), Dir(ViewEntries(es)));
    MountFreeAt(Skeleton(c, es), p);
  }

  lemma StoredHasNoCollision(c: Codec, blobs: map<string, Bytes>, bs: set<Bytes>)
    requires Stored(c, blobs, bs)
    ensures c.NoCollision(bs)
  {
  }

  lemma DirBlobIsNeeded(c: Codec, es: seq<Named>, p: Path)
    requires IsDir(Skeleton(c, es), p)
    ensures DirBlob(c, Sub(Skeleton(c, es), p).value) in Needed(c, es)
  {
    var b := DirBlob(c, Sub(Skeleton(c, es), p).value);
    DirBlobsAreDirs(c, Skeleton(c, es), b);
  }

  lemma StoredDenotes(c: Codec, blobs: map<string, Bytes>, es: seq<Named>)
    requires c.Lawful() && Stored(c, blobs, Needed(c, es))
    ensures Denotes(c, blobs, Skeleton(c, es))
  {
    var t := Skeleton(c, es);
    hide Needed, Skeleton, MountFree, Msg;
    forall p | p in Paths(t) ensures DenotesAt(c, blobs, t, p) {
      PathsAreInhabited(t, p);
      SkeletonIsMountFree(c, es, p);
      if IsDir(t, p) {
        DirBlobIsNeeded(c, es, p);
        assert c.decodeDirectory(c.encodeDirectory(Msg(c, Sub(t, p).value))) == Some(Msg(c, Sub(t, p).value));
      }
    }
  }

  lemma StoredIsComplete(c: Codec, blobs: map<string, Bytes>, es: seq<Named>)
    requires Stored(c, blobs, Needed(c, es))
    ensures Complete(blobs, Skeleton(c, es))
  {
    hide Needed, Digested, NodeAt, Sub, Contents;
    var n, t := Dir(ViewEntries(es)), Skeleton(c, es);
    forall p | p in Paths(t)
      ensures IsDirectory(t, p) ==> IsDir(t, p)
      ensures IsFile(t, p) ==> Sub(t, p).value.digest.Some? && Sub(t, p).value.digest.value.hash in blobs
    {
      PathsAreInhabited(t, p);
      SkeletonIsMountFree(c, es, p);
      DigestedAt(c, Memoize(), n, p);
      if IsFile(t, p) {
        DigestedEntry(c, Memoize(), NodeAt(n, p).value);
        ContentIsNeeded(c, es, p);
      }
    }
  }

  /** The lookup made from the flattened list resolves every `DirectoryNode` of the tree. */
  lemma FlattenedListLooks(c: Codec, es: seq<Named>)
    requires c.Lawful() && Disk.WellFormed(OnDir(es))
    requires c.NoCollision(DirBlobs(c, Skeleton(c, es)))
    ensures Looks(c, LookupOf(c, Descendants(c, es)), Skeleton(c, es))
  {
    var t, ds, ps := Skeleton(c, es), Descendants(c, es), DirPaths(es);
    var lookup := LookupOf(c, ds);
    DescendantsAreAllSubdirectories(c, es);
    hide Skeleton, Descendants, DirPaths, MountFree, Msg, DirBlobs, LookupOf;
    forall p | p in Paths(t) && p != [] ensures LooksAt(c, lookup, t, p) {
      PathsAreInhabited(t, p);
      SkeletonIsMountFree(c, es, p);
      if IsDir(t, p) {
        assert p in ps;
        var i :| 0 <= i < |ps| && ps[i] == p;
        assert DescribesDir(c, t, ps[i], ds[i]);
        assert ds[i] in ds;
        LookupHolds(c, ds, c.hash(DirBlob(c, Sub(t, p).value)));
        SameDirectory(c, es, lookup[c.hash(c.encodeDirectory(ds[i]))], ds[i]);
      }
    }
  }

  lemma SameDirectory(c: Codec, es: seq<Named>, d: Directory, e: Directory)
    requires c.Lawful() && Disk.WellFormed(OnDir(es)) && c.NoCollision(DirBlobs(c, Skeleton(c, es)))
    requires d in Descendants(c, es) && e in Descendants(c, es)
    requires c.hash(c.encodeDirectory(d)) == c.hash(c.encodeDirectory(e))
    ensures d == e
  {
    hide Descendants, Skeleton, DirBlobs, Disk.WellFormed;
    FlattenedListIsComplete(c, es);
    assert c.encodeDirectory(d) in EncodingsOf(c, Descendants(c, es));
    assert c.encodeDirectory(e) in EncodingsOf(c, Descendants(c, es));
    assert c.decodeDirectory(c.encodeDirectory(d)) == Some(d);
    assert c.decodeDirectory(c.encodeDirectory(e)) == Some(e);
  }

  lemma StoredTreeDenotes(c: Codec, blobs: map<string, Bytes>, es: seq<Named>)
    requires c.Lawful() && Disk.WellFormed(OnDir(es)) && Stored(c, blobs, Needed(c, es))
    ensures TreeDenotes(c, blobs, Uploaded(c, es).treeDigest, Skeleton(c, es))
    ensures TreeMessageThere(c, blobs, Uploaded(c, es).treeDigest)
  {
    StoredHasNoCollision(c, blobs, Needed(c, es));
    FlattenedListLooks(c, es);
    assert TreeBlob(c, es) in Needed(c, es);
    assert c.decodeTree(TreeBlob(c, es)) == Some(TreeOf(c, es));
  }

  // ---------------------------------------------------------------- the restored file system

  /** At and below `out` there is the tree `n`, as far as re-memoize can tell. */
  ghost predicate Restored(entries: map<Path, Entry>, out: Path, n: Node) {
    forall p :: RestoredAt(entries, out, n, p)
  }

  ghost predicate RestoredAt(entries: map<Path, Entry>, out: Path, n: Node, p: Path) {
    match (EntryAt(n, p), Get(entries, out + p))
    case (None, None) => true
    case (Some(x), Some(y)) => Remade(x, y)
    case _ => false
  }

  /** Nothing has changed but what is at `out`, and that `out` can be reached. */
  ghost predicate OnlyAt(before: map<Path, Entry>, after: map<Path, Entry>, out: Path) {
    forall q :: !(out <= q) ==> Get(after, q) == if q <= out then Some(EDir) else Get(before, q)
  }

  lemma RebuiltEntry(c: Codec, blobs: map<string, Bytes>, es: seq<Named>, p: Path)
    requires Stored(c, blobs, Needed(c, es)) && Sub(Skeleton(c, es), p).Some?
    ensures EntryAt(Dir(ViewEntries(es)), p).Some?
    ensures Remade(EntryAt(Dir(ViewEntries(es)), p).value, Rendered(blobs, Sub(Skeleton(c, es), p).value))
  {
    hide Digested, NodeAt, Sub, Contents, Needed;
    var n := Dir(ViewEntries(es));
    DigestedAt(c, Memoize(), n, p);
    DigestedEntry(c, Memoize(), NodeAt(n, p).value);
    if NodeAt(n, p).value.File? {
      ContentIsNeeded(c, es, p);
    }
  }

  lemma ContentIsNeeded(c: Codec, es: seq<Named>, p: Path)
    requires NodeAt(Dir(ViewEntries(es)), p).Some? && NodeAt(Dir(ViewEntries(es)), p).value.File?
    ensures NodeAt(Dir(ViewEntries(es)), p).value.content in Needed(c, es)
  {
    hide DirBlobs, TreeBlob, NodeAt;
    ContentsAt(Dir(ViewEntries(es)), p);
  }

  lemma SkeletonPaths(c: Codec, es: seq<Named>, p: Path)
    ensures Sub(Skeleton(c, es), p).Some? <==> EntryAt(Dir(ViewEntries(es)), p).Some?
  {
    hide NodeAt, Sub;
    DigestedAt(c, Memoize(), Dir(ViewEntries(es)), p);
  }

  /** A rebuilt upload has every path, content, executable bit and link target of the original,
      and nothing else. */
  lemma RebuiltIsRestored(c: Codec, blobs: map<string, Bytes>, before: map<Path, Entry>, after: map<Path, Entry>,
      out: Path, es: seq<Named>)
    requires Stored(c, blobs, Needed(c, es)) && Fresh(before, out)
    requires Rebuilt(before, after, out, blobs, Skeleton(c, es))
    ensures Restored(after, out, Dir(ViewEntries(es))) && OnlyAt(before, after, out)
  {
    hide Stored, Needed, NodeAt, Sub, Digested, Rendered;
    var t, n := Skeleton(c, es), Dir(ViewEntries(es));
    forall p ensures RestoredAt(after, out, n, p) {
      hide Rebuilt, Fresh, Skeleton;
      SeenAt(before, after, out, blobs, t, p);
      SkeletonPaths(c, es, p);
      if Sub(t, p).Some? { RebuiltEntry(c, blobs, es, p); }
    }
    forall q | !(out <= q) ensures Get(after, q) == if q <= out then Some(EDir) else Get(before, q) {
      assert Get(after, q) == Seen(before, out, blobs, t, Paths(t), q);
      assert [] in Paths(t);
    }
  }

  lemma SeenAt(before: map<Path, Entry>, after: map<Path, Entry>, out: Path, blobs: map<string, Bytes>, t: Skel,
      p: Path)
    requires Rebuilt(before, after, out, blobs, t) && Fresh(before, out)
    ensures Get(after, out + p) == if Sub(t, p).Some? then Some(Rendered(blobs, Sub(t, p).value)) else None
  {
    RelativeTo(out, p);
    PathsAreInhabited(t, p);
    assert Get(after, out + p) == Seen(before, out, blobs, t, Paths(t), out + p);
    if out + p <= out { assert p == []; }
  }

  /** Whoever reads the restored directory, in whatever order, computes the digest of the original. */
  lemma RestoredHasSameDigest(c: Codec, entries: map<Path, Entry>, out: Path, es: seq<Named>, m: Listing)
    requires Restored(entries, out, Dir(ViewEntries(es))) && Listed(entries, out, m)
    ensures m.OnDir?
    ensures BuiltOf(c, m.entries).digest == BuiltOf(c, es).digest
    ensures BuiltOf(c, m.entries).directory == BuiltOf(c, es).directory
  {
    var n := Dir(ViewEntries(es));
    forall p ensures AlikeAt(Memoize(), n, View(m), p) {
      assert RestoredAt(entries, out, n, p);
      assert ListedAt(entries, out, m, p);
      if EntryAt(n, p).Some? { RemadeIsSame(EntryAt(n, p).value, Get(entries, out + p).value); }
    }
    assert AlikeAt(Memoize(), n, View(m), []);
    AlikeIsDigestedEqual(c, Memoize(), n, View(m));
  }

  // ---------------------------------------------------------------- the round trip

  lemma UploadedIsStored(c: Codec, before: map<string, Bytes>, after: map<string, Bytes>, es: seq<Named>)
    requires Addressed(c, before) && Grown(c, before, after, Needed(c, es)) && HashesThere(c, after, Needed(c, es))
    requires c.NoCollision(before.Values + Needed(c, es))
    requires c.Lawful() && Genuine(OnDir(es))
    ensures Stored(c, after, Needed(c, es))
    ensures Denotes(c, after, Skeleton(c, es)) && Complete(after, Skeleton(c, es))
    ensures TreeDenotes(c, after, Uploaded(c, es).treeDigest, Skeleton(c, es))
    ensures TreeMessageThere(c, after, Uploaded(c, es).treeDigest)
    ensures RootOf(c, after, Skeleton(c, es), Uploaded(c, es).rootDigest)
    ensures FlatRootOf(c, after, Skeleton(c, es), Uploaded(c, es).treeDigest)
  {
    hide Needed, HashesThere, Skeleton, DirBlob, Denotes, Complete, TreeDenotes, TreeMessageThere, Tidy;
    SkeletonIsTidy(c, es);
    StoredWithoutCollision(c, before, after, Needed(c, es));
    StoredDenotes(c, after, es);
    StoredIsComplete(c, after, es);
    StoredTreeDenotes(c, after, es);
  }

  lemma SameTargetsCollected(t: Skel, out: Path, a: seq<Target>, b: seq<Target>)
    requires FilesCollected(t, out, a) && FilesCollected(t, out, b)
    ensures multiset(a) == multiset(b)
  {
    hide AllFiles;
    var ps :| AllTargets(t, out, a, ps);
    var qs :| AllTargets(t, out, b, qs);
    SameTargets(t, out, a, ps, b, qs, AllFiles(t));
  }

  lemma TreeBlobIsShallow(c: Codec, blobs: map<string, Bytes>, t: Skel, digest: Digest)
    requires FlatRootOf(c, blobs, t, digest)
    ensures digest.hash in blobs ==> ShallowTree(c, blobs[digest.hash], Height(t))
  {
    hide FlatRootOf, ShallowTree, Height;
    if digest.hash in blobs { FlatRootIsShallow(c, blobs, t, digest); }
  }

  lemma UploadedRoot(c: Codec, es: seq<Named>)
    ensures BuiltOf(c, es).digest == Uploaded(c, es).rootDigest
  {
  }

  /** Uploads a directory and rebuilds it twice in the same fresh place of two equal file
      systems, once by its root digest and once by its tree digest.  Both succeed, write the same
      files, agree, and restore exactly what was uploaded, which has the uploaded digest whoever
      lists it. */
  method UploadThenDownload(client: RemoteClient, l: Listing, breadth: Files, depth: Files, out: Path)
    returns (ghost some: seq<Target>, ghost others: seq<Target>)
    requires client.server.Valid() && client.server.reliable && client.server.c.Lawful()
    requires l.OnDir? && Genuine(l)
    requires client.server.c.NoCollision(client.server.blobs.Values + Needed(client.server.c, l.entries))
    requires breadth != depth && breadth.entries == depth.entries
    requires Rooted(breadth.entries) && Fresh(breadth.entries, out)
    modifies client.server`blobs, client.server`received, client.server`log, breadth, depth
    ensures breadth.entries == depth.entries && Rooted(breadth.entries)
    ensures FilesCollected(Skeleton(client.server.c, l.entries), out, some) && multiset(some) == multiset(others)
    ensures Restored(breadth.entries, out, View(l)) && OnlyAt(old(breadth.entries), breadth.entries, out)
    ensures forall m :: Listed(breadth.entries, out, m) ==>
      m.OnDir? && BuiltOf(client.server.c, m.entries).digest == Uploaded(client.server.c, l.entries).rootDigest
  {
    hide Needed, HashesThere, Skeleton, DirBlob, Denotes, Complete, TreeDenotes, TreeMessageThere, Stored, Fresh,
      RootOf, FlatRootOf, Shallow, ShallowTree, Height, FilesCollected, Confined, Rooted, Rebuilt, Restored, OnlyAt,
      Grown, Addressed, Listed, SentOnlyNew, Disk.WellFormed, Spelled;
    var es := l.entries;
    ghost var c, before, t := client.server.c, breadth.entries, Skeleton(client.server.c, es);
    ghost var was := client.server.blobs;
    var uploaded: Result<UploadedTree, Error>;
    ghost var asked;
    uploaded, asked := UploadDirectory(client, l);
    UploadedIsStored(c, was, client.server.blobs, es);
    var first: Result<(), Error>, second: Result<(), Error>;
    RootIsShallow(c, client.server.blobs, t, uploaded.value.rootDigest);
    first, some := DownloadFromRoot(client, breadth, uploaded.value.rootDigest, out, Height(t), t);
    TreeBlobIsShallow(c, client.server.blobs, t, uploaded.value.treeDigest);
    second, others := DownloadTree(client, depth, uploaded.value.treeDigest, out, Height(t), t);
    SameTargetsCollected(t, out, some, others);
    RebuiltIsDetermined(before, breadth.entries, depth.entries, out, client.server.blobs, t);
    RebuiltIsRestored(c, client.server.blobs, before, breadth.entries, out, es);
    forall m | Listed(breadth.entries, out, m)
      ensures m.OnDir? && BuiltOf(c, m.entries).digest == Uploaded(c, es).rootDigest
    {
      RestoredHasSameDigest(c, breadth.entries, out, es, m);
      UploadedRoot(c, es);
    }
  }
}
