/** `upload_directory`: gathering and sending every blob a tree needs. */
module Upload {
  import opened Names
  import opened Messages
  import opened Merkle
  import opened Disk
  import opened TreeBuild
  import opened Remote
  import opened Client
  import opened Batching

  datatype UploadedTree = UploadedTree(rootDigest: Digest, treeDigest: Digest)

  /** File contents, directory messages and the flattened tree. */
  ghost function Needed(c: Codec, es: seq<Named>): set<Bytes> {
    TreeBlobs(c, Memoize(), Dir(ViewEntries(es))) + {TreeBlob(c, es)}
  }

  /** The digests under which an uploaded directory is known. */
  ghost function Uploaded(c: Codec, es: seq<Named>): UploadedTree {
    UploadedTree(c.DigestOf(DirBlob(c, Skeleton(c, es))), c.DigestOf(TreeBlob(c, es)))
  }

  // ---------------------------------------------------------------- which blobs a tree needs

  lemma {:induction false} DirBlobsAreDirs(c: Codec, t: Skel, b: Bytes)
    requires t.SDir?
    ensures b in DirBlobs(c, t) <==> exists p :: IsDir(t, p) && b == DirBlob(c, Sub(t, p).value)
  {
    hide DirBlob;
    if b in DirBlobs(c, t) {
      if b == DirBlob(c, t) {
        assert IsDir(t, []) && Sub(t, []).value == t;
      } else {
        var k :| k in t.kids && t.kids[k].SDir? && b in DirBlobs(c, t.kids[k]);
        DirBlobsAreDirs(c, t.kids[k], b);
        var p :| IsDir(t.kids[k], p) && b == DirBlob(c, Sub(t.kids[k], p).value);
        assert ([k] + p)[1..] == p;
        assert Sub(t, [k] + p) == Sub(t.kids[k], p);
        assert IsDir(t, [k] + p);
      }
    }
    if p :| IsDir(t, p) && b == DirBlob(c, Sub(t, p).value) {
      if p != [] {
        assert IsDir(t.kids[p[0]], p[1..]);
        DirBlobsAreDirs(c, t.kids[p[0]], b);
        assert t.kids[p[0]].SDir?;
      }
    }
  }

  ghost function EncodingsOf(c: Codec, ds: seq<Directory>): set<Bytes> {
    set i | 0 <= i < |ds| :: c.encodeDirectory(ds[i])
  }

  lemma DescribedBlob(c: Codec, t: Skel, p: Path, d: Directory)
    requires DescribesDir(c, t, p, d)
    ensures IsDir(t, p) && DirBlob(c, Sub(t, p).value) == c.encodeDirectory(d)
  {
  }

  /** The messages of the root and of the flattened list are all the directory blobs. */
  lemma FlattenedListIsComplete(c: Codec, es: seq<Named>)
    requires WellFormed(OnDir(es))
    ensures DirBlobs(c, Skeleton(c, es)) == {DirBlob(c, Skeleton(c, es))} + EncodingsOf(c, Descendants(c, es))
  {
    hide Skeleton, Descendants, DirBlob, DirBlobs, EncodingsOf, WellFormed;
    forall b
      ensures b in DirBlobs(c, Skeleton(c, es)) <==>
        b == DirBlob(c, Skeleton(c, es)) || b in EncodingsOf(c, Descendants(c, es))
    {
      FlattenedBlob(c, es, b);
    }
  }

  lemma FlattenedBlob(c: Codec, es: seq<Named>, b: Bytes)
    requires WellFormed(OnDir(es))
    ensures b in DirBlobs(c, Skeleton(c, es)) <==>
      b == DirBlob(c, Skeleton(c, es)) || b in EncodingsOf(c, Descendants(c, es))
  {
    hide Skeleton, Descendants, DirPaths, DirBlob, DirBlobs, DescribesDir, WellFormed;
    var t, ds, ps := Skeleton(c, es), Descendants(c, es), DirPaths(es);
    DescendantsAreAllSubdirectories(c, es);
    DirBlobsAreDirs(c, t, b);
    assert IsDir(t, []) && Sub(t, []).value == t;
    hide Sub;
    if p :| IsDir(t, p) && b == DirBlob(c, Sub(t, p).value) {
      if p != [] {
        assert p in ps;
        var i :| 0 <= i < |ps| && ps[i] == p;
        DescribedBlob(c, t, ps[i], ds[i]);
      }
    }
    if i :| 0 <= i < |ds| && b == c.encodeDirectory(ds[i]) {
      DescribedBlob(c, t, ps[i], ds[i]);
    }
  }

  // ---------------------------------------------------------------- gathering blobs by hash

  /** The map holds honest blobs of `bs` under their hashes, and covers every hash of `bs`. */
  ghost predicate Gathered(c: Codec, blobs: map<string, Blob>, bs: set<Bytes>) {
    && (forall h :: h in blobs ==>
         blobs[h] == c.BlobOf(blobs[h].data) && blobs[h].digest.hash == h && blobs[h].data in bs)
    && (forall b :: b in bs ==> c.hash(b) in blobs)
  }

  lemma GatheredMore(c: Codec, blobs: map<string, Blob>, bs: set<Bytes>, b: Bytes)
    requires Gathered(c, blobs, bs)
    ensures Gathered(c, blobs[c.hash(b) := c.BlobOf(b)], bs + {b})
  {
  }

  /** `HashMap::into_values`: the values in some order. */
  method IntoValues(m: map<string, Blob>) returns (values: seq<Blob>)
    requires forall h :: h in m ==> m[h].digest.hash == h
    ensures forall h :: h in m ==> m[h] in values
    ensures forall i :: 0 <= i < |values| ==> values[i].digest.hash in m && m[values[i].digest.hash] == values[i]
    ensures forall i, j :: 0 <= i < j < |values| ==> values[i].digest.hash != values[j].digest.hash
  {
    values := [];
    var rest := m.Keys;
    while rest != {}
      invariant rest <= m.Keys
      invariant forall h :: h in m ==> h in rest || m[h] in values
      invariant forall i :: 0 <= i < |values| ==>
        values[i].digest.hash in m && m[values[i].digest.hash] == values[i] && values[i].digest.hash !in rest
      invariant forall i, j :: 0 <= i < j < |values| ==> values[i].digest.hash != values[j].digest.hash
    {
      var h :| h in rest;
      values := values + [m[h]];
      rest := rest - {h};
    }
  }

  /** Honest blobs of `bs`, one for each hash. */
  ghost predicate OneForEach(c: Codec, blobs: seq<Blob>, bs: set<Bytes>) {
    && Honest(c, blobs) && DataOf(blobs) <= bs
    && (forall b :: b in bs ==> exists i :: 0 <= i < |blobs| && blobs[i].digest.hash == c.hash(b))
    && (forall i, j :: 0 <= i < j < |blobs| ==> blobs[i].digest.hash != blobs[j].digest.hash)
  }

  lemma GatheredValues(c: Codec, blobs: map<string, Blob>, bs: set<Bytes>, values: seq<Blob>)
    requires Gathered(c, blobs, bs)
    requires forall h :: h in blobs ==> blobs[h] in values
    requires forall i :: 0 <= i < |values| ==>
      values[i].digest.hash in blobs && blobs[values[i].digest.hash] == values[i]
    requires forall i, j :: 0 <= i < j < |values| ==> values[i].digest.hash != values[j].digest.hash
    ensures OneForEach(c, values, bs) && Honest(c, values) && DataOf(values) <= bs
  {
    forall b | b in bs ensures exists i :: 0 <= i < |values| && values[i].digest.hash == c.hash(b) {
      assert blobs[c.hash(b)] in values;
    }
  }

  // ---------------------------------------------------------------- uploading

  /** What arrived was new to storage, and each hash arrived once. */
  ghost predicate SentOnlyNew(before: map<string, Bytes>, heard: seq<string>, received: seq<string>) {
    && heard <= received
    && (forall h :: h in received[|heard|..] ==> h !in before)
    && (forall i, j :: |heard| <= i < j < |received| ==> received[i] != received[j])
  }

  ghost predicate HashesThere(c: Codec, blobs: map<string, Bytes>, bs: set<Bytes>) {
    forall b :: b in bs ==> c.hash(b) in blobs
  }

  lemma EncodingsMore(c: Codec, ds: seq<Directory>, i: nat)
    requires i < |ds|
    ensures EncodingsOf(c, ds[..i + 1]) == EncodingsOf(c, ds[..i]) + {c.encodeDirectory(ds[i])}
  {
    var s, t := ds[..i], ds[..i + 1];
    assert forall k :: 0 <= k < i ==> s[k] == t[k];
    assert t[i] == ds[i];
  }

  /** Collects the file blobs by hash. */
  method GatherFiles(c: Codec, fileBlobs: seq<Blob>) returns (blobs: map<string, Blob>)
    requires Honest(c, fileBlobs)
    ensures Gathered(c, blobs, DataOf(fileBlobs))
  {
    hide Gathered, DataOf;
    blobs := map[];
    NothingGathered(c);
    assert fileBlobs[..0] == [];
    for i := 0 to |fileBlobs|
      invariant Gathered(c, blobs, DataOf(fileBlobs[..i]))
    {
      var blob := fileBlobs[i];
      GatheredMore(c, blobs, DataOf(fileBlobs[..i]), blob.data);
      DataMore(fileBlobs, i);
      blobs := blobs[blob.digest.hash := blob];
    }
    assert fileBlobs[..|fileBlobs|] == fileBlobs;
  }

  /** Adds the directory blobs. */
  method GatherDirectories(c: Codec, dirs: seq<Directory>, files: map<string, Blob>, ghost contents: set<Bytes>)
    returns (blobs: map<string, Blob>)
    requires Gathered(c, files, contents)
    ensures Gathered(c, blobs, contents + EncodingsOf(c, dirs))
  {
    hide Gathered, EncodingsOf;
    blobs := files;
    NothingGathered(c);
    assert dirs[..0] == [] && contents + {} == contents;
    for i := 0 to |dirs|
      invariant Gathered(c, blobs, contents + EncodingsOf(c, dirs[..i]))
    {
      var blob := c.BlobOf(c.encodeDirectory(dirs[i]));
      GatheredMore(c, blobs, contents + EncodingsOf(c, dirs[..i]), blob.data);
      EncodingsMore(c, dirs, i);
      assert contents + EncodingsOf(c, dirs[..i]) + {blob.data} == contents + EncodingsOf(c, dirs[..i + 1]);
      blobs := blobs[blob.digest.hash := blob];
    }
    assert dirs[..|dirs|] == dirs;
  }

  lemma FileBlobsAreHonest(c: Codec, es: seq<Named>)
    requires WellFormed(OnDir(es))
    ensures Honest(c, FileBlobs(c, es))
  {
    FileBlobsAreContents(c, es);
    hide FileBlobs, WellFormed, Contents;
    forall i | 0 <= i < |FileBlobs(c, es)| ensures FileBlobs(c, es)[i] == c.BlobOf(FileBlobs(c, es)[i].data) {
      assert FileBlobs(c, es)[i] in FileBlobs(c, es);
    }
  }

  /** One digest is that of the root's message, the other that of the flattened tree. */
  ghost predicate DigestsOfTree(c: Codec, l: Listing, uploaded: UploadedTree)
    requires l.OnDir?
  {
    exists built: Built ::
      && BuiltFrom(c, View(l), built)
      && uploaded.rootDigest == built.digest && IsTreeDigest(c, l, built, uploaded.treeDigest)
  }

  lemma UploadedDigests(c: Codec, l: Listing)
    requires l.OnDir?
    ensures DigestsOfTree(c, l, Uploaded(c, l.entries))
  {
    var built := BuiltOf(c, l.entries);
    BuiltTells(c, l, View(l));
    hide BuiltFrom, Msg, Descendants, Skeleton;
    assert IsTreeDigest(c, l, built, Uploaded(c, l.entries).treeDigest);
  }

  /** Uploads a directory, asking storage for `asked`.  On success every blob it needs is in storage,
      exactly if those are that were lacking and that none of the server's answers is for; whatever
      happens, storage grows by such blobs only. */
  method UploadDirectory(client: RemoteClient, l: Listing)
    returns (r: Result<UploadedTree, Error>, ghost asked: seq<Blob>)
    requires l.OnDir? && WellFormed(l) && client.server.Valid()
    modifies client.server`blobs, client.server`received, client.server`log
    ensures client.server.Valid()
    ensures Grown(client.server.c, old(client.server.blobs), client.server.blobs, Needed(client.server.c, l.entries))
    ensures client.server.reliable ==> r.Ok?
    ensures r.Err? ==> TransferError(r.error)
    ensures r.Ok? ==> r.value == Uploaded(client.server.c, l.entries)
    ensures r.Ok? ==> DigestsOfTree(client.server.c, l, r.value)
    ensures OneForEach(client.server.c, asked, Needed(client.server.c, l.entries))
    ensures old(client.server.log.updates) <= client.server.log.updates
    ensures UpdatesFit(client.budget, client.server.log.updates[|old(client.server.log.updates)|..])
    ensures r.Ok? ==>
      Flatten(client.server.log.updates[|old(client.server.log.updates)|..]) == Lacking(asked, old(client.server.blobs))
    ensures r.Ok? ==> old(client.server.log.answers) <= client.server.log.answers
    ensures r.Ok? ==>
      (HashesThere(client.server.c, client.server.blobs, Needed(client.server.c, l.entries)) <==>
        BlobsThere(Unanswered(Lacking(asked, old(client.server.blobs)),
                              client.server.log.answers[|old(client.server.log.answers)|..]), client.server.blobs))
    ensures r.Ok? && client.server.thorough ==>
      HashesThere(client.server.c, client.server.blobs, Needed(client.server.c, l.entries))
    ensures r.Ok? && client.server.thorough ==>
      SentOnlyNew(old(client.server.blobs), old(client.server.received), client.server.received)
  {
    hide Gathered, Needed, Descendants, Skeleton, Msg, FileBlobs, Grown, WellFormed, EncodingsOf, Honest, DataOf,
      Unanswered, Hashes, ReceivedFrom, HashesThere, BlobsThere, SentOnlyNew, OneForEach, UpdatesFit, Flatten,
      DigestsOfTree;
    var server, c := client.server, client.server.c;
    var es := l.entries;
    var built := BuildDirectory(c, l);
    var tree := TreeMessage(Some(built.directory), built.descendants);
    var treeBlob := c.BlobOf(c.encodeTree(tree));
    FileBlobsAreHonest(c, es);
    ghost var contents := DataOf(built.fileBlobs);
    var blobs := GatherFiles(c, built.fileBlobs);
    blobs := GatherDirectories(c, [built.directory] + built.descendants, blobs, contents);
    ghost var all := contents + EncodingsOf(c, [built.directory] + built.descendants);
    GatheredMore(c, blobs, all, treeBlob.data);
    blobs := blobs[treeBlob.digest.hash := treeBlob];
    all := all + {treeBlob.data};
    NeededIsAll(c, es, built);
    GatheredKeys(c, blobs, all);
    var values := IntoValues(blobs);
    GatheredValues(c, blobs, all, values);
    asked := values;
    ghost var was := server.blobs;
    var sent: Result<(), Error>;
    ghost var answers;
    sent, answers := client.UploadIfMissing(values);
    GrownWiden(c, was, client.server.blobs, DataOf(values), all);
    if sent.Err? { return Err(sent.error), asked; }
    GatheredThere(c, client.server.blobs, all, values);
    LackingIsNew(values, was);
    if server.thorough { SentNew(values, was, old(server.received), server.received); }
    UploadedDigests(c, l);
    r := Ok(UploadedTree(built.digest, treeBlob.digest));
  }

  lemma GatheredThere(c: Codec, blobs: map<string, Bytes>, bs: set<Bytes>, values: seq<Blob>)
    requires OneForEach(c, values, bs)
    ensures HashesThere(c, blobs, bs) <==> BlobsThere(values, blobs)
  {
    if HashesThere(c, blobs, bs) {
      forall i | 0 <= i < |values| ensures values[i].digest.hash in blobs {
        assert values[i].data in DataOf(values) && values[i] == c.BlobOf(values[i].data);
      }
    }
  }

  lemma SentNew(values: seq<Blob>, was: map<string, Bytes>, heard: seq<string>, received: seq<string>)
    requires received == heard + Hashes(Lacking(values, was))
    requires forall i :: 0 <= i < |Lacking(values, was)| ==> Lacking(values, was)[i].digest.hash !in was
    requires forall i, j :: 0 <= i < j < |Lacking(values, was)| ==>
      Lacking(values, was)[i].digest.hash != Lacking(values, was)[j].digest.hash
    ensures SentOnlyNew(was, heard, received)
  {
    hide Lacking;
    var sent := Hashes(Lacking(values, was));
    assert forall i :: 0 <= i < |sent| ==> received[|heard| + i] == sent[i];
    assert received[|heard|..] == sent;
  }

  lemma NothingGathered(c: Codec)
    ensures Gathered(c, map[], {})
    ensures DataOf([]) == {} && EncodingsOf(c, []) == {}
  {
  }

  lemma GatheredKeys(c: Codec, blobs: map<string, Blob>, bs: set<Bytes>)
    requires Gathered(c, blobs, bs)
    ensures forall h :: h in blobs ==> blobs[h].digest.hash == h
  {
  }

  lemma GrownWiden(c: Codec, before: map<string, Bytes>, after: map<string, Bytes>, some: set<Bytes>, all: set<Bytes>)
    requires Grown(c, before, after, some) && some <= all
    ensures Grown(c, before, after, all)
  {
  }

  lemma GatheredContents(c: Codec, es: seq<Named>)
    requires WellFormed(OnDir(es))
    ensures DataOf(FileBlobs(c, es)) == Contents(Dir(ViewEntries(es)))
  {
    FileBlobsAreContents(c, es);
    hide FileBlobs, Contents, WellFormed, ViewEntries;
    var blobs := FileBlobs(c, es);
    forall b ensures b in DataOf(blobs) <==> b in Contents(Dir(ViewEntries(es))) {
      if b in DataOf(blobs) {
        var k :| 0 <= k < |blobs| && blobs[k].data == b;
        assert blobs[k] in blobs;
      }
      if b in Contents(Dir(ViewEntries(es))) {
        assert c.BlobOf(b) in blobs;
      }
    }
  }

  lemma EncodingsOfFirst(c: Codec, d: Directory, ds: seq<Directory>)
    ensures EncodingsOf(c, [d] + ds) == {c.encodeDirectory(d)} + EncodingsOf(c, ds)
  {
    var all := [d] + ds;
    assert all[0] == d && forall i :: 0 <= i < |ds| ==> all[i + 1] == ds[i];
    assert forall i :: 0 < i < |all| ==> all[i] == ds[i - 1];
  }

  lemma NeededIsAll(c: Codec, es: seq<Named>, built: Built)
    requires WellFormed(OnDir(es)) && built == BuiltOf(c, es)
    ensures DataOf(built.fileBlobs) + EncodingsOf(c, [built.directory] + built.descendants) + {TreeBlob(c, es)} ==
      Needed(c, es)
  {
    hide FileBlobs, Descendants, DirBlobs, Skeleton, Msg, Contents, WellFormed, EncodingsOf, TreeBlob, DataOf;
    GatheredContents(c, es);
    EncodingsOfFirst(c, built.directory, built.descendants);
    FlattenedListIsComplete(c, es);
    NeededParts(c, es);
  }

  lemma NeededParts(c: Codec, es: seq<Named>)
    ensures Needed(c, es) == Contents(Dir(ViewEntries(es))) + DirBlobs(c, Skeleton(c, es)) + {TreeBlob(c, es)}
  {
  }

  lemma {:induction false} LackingIsNew(blobs: seq<Blob>, there: map<string, Bytes>)
    requires forall i, j :: 0 <= i < j < |blobs| ==> blobs[i].digest.hash != blobs[j].digest.hash
    ensures forall i :: 0 <= i < |Lacking(blobs, there)| ==>
      Lacking(blobs, there)[i].digest.hash !in there && Lacking(blobs, there)[i] in blobs
    ensures forall i, j :: 0 <= i < j < |Lacking(blobs, there)| ==>
      Lacking(blobs, there)[i].digest.hash != Lacking(blobs, there)[j].digest.hash
  {
    if blobs != [] {
      LackingIsNew(blobs[1..], there);
    }
  }

  // ---------------------------------------------------------------- against storing everything

  /** Every blob of `bs` can be fetched by its hash. */
  ghost predicate Stored(c: Codec, blobs: map<string, Bytes>, bs: set<Bytes>) {
    forall b :: b in bs ==> c.hash(b) in blobs && blobs[c.hash(b)] == b
  }

  lemma StoredWithoutCollision(c: Codec, before: map<string, Bytes>, after: map<string, Bytes>, bs: set<Bytes>)
    requires Addressed(c, before) && Grown(c, before, after, bs) && HashesThere(c, after, bs)
    requires c.NoCollision(before.Values + bs)
    ensures Stored(c, after, bs)
  {
    forall b | b in bs ensures after[c.hash(b)] == b {
      var x := after[c.hash(b)];
      assert c.hash(b) in before ==> x in before.Values;
      assert x in before.Values + bs;
    }
  }

  /** Storing every blob without asking. */
  ghost function StoreAll(c: Codec, blobs: map<string, Bytes>, all: seq<Bytes>): map<string, Bytes> {
    if all == [] then blobs
    else StoreAll(c, blobs, all[..|all| - 1])[c.hash(all[|all| - 1]) := all[|all| - 1]]
  }

  lemma {:induction false} StoreAllHolds(c: Codec, blobs: map<string, Bytes>, all: seq<Bytes>, h: string)
    requires Addressed(c, blobs)
    ensures h in StoreAll(c, blobs, all) <==> h in blobs || exists b :: b in all && c.hash(b) == h
    ensures h in StoreAll(c, blobs, all) ==>
      c.hash(StoreAll(c, blobs, all)[h]) == h && StoreAll(c, blobs, all)[h] in blobs.Values + ToSet(all)
  {
    if all != [] {
      var front, last := all[..|all| - 1], all[|all| - 1];
      assert all == front + [last];
      StoreAllHolds(c, blobs, front, h);
    } else {
      assert h in blobs ==> blobs[h] in blobs.Values;
    }
  }

  /** Deduplicated upload refines storing everything: barring a collision, storage ends up the
      same as if every blob had been stored unconditionally. */
  lemma UploadRefinesStoringAll(c: Codec, before: map<string, Bytes>, after: map<string, Bytes>, all: seq<Bytes>)
    requires Addressed(c, before)
    requires Grown(c, before, after, ToSet(all)) && HashesThere(c, after, ToSet(all))
    requires c.NoCollision(before.Values + ToSet(all))
    ensures after == StoreAll(c, before, all)
  {
    var other := StoreAll(c, before, all);
    forall h ensures h in after <==> h in other {
      StoreAllHolds(c, before, all, h);
      if h in after && h !in before { assert after[h] in all; }
      if b :| b in all && c.hash(b) == h { assert b in ToSet(all); }
    }
    forall h | h in after ensures after[h] == other[h] {
      StoreAllHolds(c, before, all, h);
      assert h in before ==> after[h] in before.Values;
    }
  }
}
