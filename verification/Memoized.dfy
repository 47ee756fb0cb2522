/** A second run with the same options replays the first. */
module Memoized {
  import opened Names
  import opened Messages
  import opened Merkle
  import opened Disk
  import opened TreeBuild
  import opened FlatTree
  import opened PathText
  import opened Remote
  import opened Client
  import opened Upload
  import opened FileSystem
  import opened Download
  import opened Materialize
  import opened RoundTrip
  import opened Machine
  import opened Run
  import opened Capture
  import opened Restore
  import opened Traces
  import opened Caching

  ghost function TreesOf(c: Codec, ess: seq<seq<Named>>): (ts: seq<Skel>)
    ensures |ts| == |ess| && forall j :: 0 <= j < |ess| ==> ts[j] == Skeleton(c, ess[j])
  {
    seq(|ess|, j requires 0 <= j < |ess| => Skeleton(c, ess[j]))
  }

  // ---------------------------------------------------------------- what was recorded can be had

  lemma StoredPart(c: Codec, blobs: map<string, Bytes>, all: set<Bytes>, some: set<Bytes>)
    requires Stored(c, blobs, all) && some <= all
    ensures Stored(c, blobs, some)
  {
  }

  lemma RecordedDirectory(c: Codec, blobs: map<string, Bytes>, opts: RunOptions, effect: Effect,
      ess: seq<seq<Named>>, result: ActionResult, j: nat)
    requires c.Lawful() && Records(c, opts, effect, ess, result) && j < |ess|
    requires Stored(c, blobs, RunBlobs(c, opts, effect, ess))
    ensures Stored(c, blobs, Needed(c, ess[j]))
    ensures |result.outputDirectories| == |ess|
    ensures result.outputDirectories[j].treeDigest == Some(Uploaded(c, ess[j]).treeDigest)
    ensures TreeDenotes(c, blobs, Uploaded(c, ess[j]).treeDigest, Skeleton(c, ess[j]))
    ensures TreeMessageThere(c, blobs, Uploaded(c, ess[j]).treeDigest) && Complete(blobs, Skeleton(c, ess[j]))
    ensures Tidy(Skeleton(c, ess[j]))
  {
    hide Needed, Skeleton, Listed, TreeDenotes, Complete, TreeMessageThere, FileContents, CommandBytes, ActionBytes,
      Stored, Tidy, Disk.WellFormed, Spelled;
    var dirs := result.outputDirectories;
    assert DirRecorded(c, effect.after, opts.outputDirs[j], ess[j], dirs[j]);
    ListedIsGenuine(effect.after, OutputPlace(effect.after, opts.outputDirs[j]), OnDir(ess[j]));
    SkeletonIsTidy(c, ess[j]);
    NeededThere(c, ess, j);
    StoredPart(c, blobs, RunBlobs(c, opts, effect, ess), Needed(c, ess[j]));
    StoredTreeDenotes(c, blobs, ess[j]);
    StoredIsComplete(c, blobs, ess[j]);
  }

  lemma RecordedStreams(c: Codec, blobs: map<string, Bytes>, opts: RunOptions, effect: Effect,
      ess: seq<seq<Named>>, result: ActionResult)
    requires Records(c, opts, effect, ess, result) && Stored(c, blobs, RunBlobs(c, opts, effect, ess))
    ensures result.stdoutRaw == [] && result.stderrRaw == [] && Exited(effect, result.exitCode)
    ensures StreamContent(blobs, [], result.stdoutDigest) == Joined(effect.stdout)
    ensures StreamContent(blobs, [], result.stderrDigest) == Joined(effect.stderr)
    ensures StreamThere(blobs, [], result.stdoutDigest) && StreamThere(blobs, [], result.stderrDigest)
    ensures |result.outputFiles| == |opts.outputFiles|
    ensures |result.outputDirectories| == |opts.outputDirs| == |ess|
  {
    assert Joined(effect.stdout) in RunBlobs(c, opts, effect, ess);
    assert Joined(effect.stderr) in RunBlobs(c, opts, effect, ess);
  }

  lemma RecordedIsKnown(c: Codec, blobs: map<string, Bytes>, opts: RunOptions, effect: Effect,
      ess: seq<seq<Named>>, result: ActionResult)
    requires c.Lawful() && Records(c, opts, effect, ess, result)
    requires Stored(c, blobs, RunBlobs(c, opts, effect, ess))
    ensures |result.outputDirectories| == |ess|
    ensures Known(c, blobs, result.outputDirectories, TreesOf(c, ess))
    ensures forall j :: 0 <= j < |ess| ==> DirThere(c, blobs, result.outputDirectories[j], TreesOf(c, ess)[j])
  {
    hide TreeDenotes, Skeleton, Records, Stored, RunBlobs, DirThere, TreesOf, Tidy;
    RecordedStreams(c, blobs, opts, effect, ess, result);
    var dirs, ts := result.outputDirectories, TreesOf(c, ess);
    forall j | 0 <= j < |dirs|
      ensures dirs[j].treeDigest.Some? && dirs[j].treeDigest.value.hash in blobs
      ensures ts[j].SDir? && Tidy(ts[j])
      ensures TreeDenotes(c, blobs, dirs[j].treeDigest.value, ts[j]) && DirThere(c, blobs, dirs[j], ts[j])
    {
      RecordedDirectoryThere(c, blobs, opts, effect, ess, result, j);
    }
  }

  lemma RecordedFilesThere(c: Codec, blobs: map<string, Bytes>, opts: RunOptions, effect: Effect,
      ess: seq<seq<Named>>, result: ActionResult)
    requires Records(c, opts, effect, ess, result) && Stored(c, blobs, RunBlobs(c, opts, effect, ess))
    ensures AllDigested(result.outputFiles) && AllStored(blobs, result.outputFiles)
  {
    hide Records, Stored, RunBlobs, FileRecorded, Lstat;
    forall i | 0 <= i < |result.outputFiles|
      ensures result.outputFiles[i].digest.Some? && result.outputFiles[i].digest.value.hash in blobs
    {
      RecordedFile(c, blobs, opts, effect, ess, result, i);
    }
  }

  lemma RecordedReplays(c: Codec, blobs: map<string, Bytes>, opts: RunOptions, effect: Effect,
      ess: seq<seq<Named>>, result: ActionResult)
    requires c.Lawful() && Records(c, opts, effect, ess, result)
    requires Stored(c, blobs, RunBlobs(c, opts, effect, ess))
    ensures |result.outputDirectories| == |ess|
    ensures Known(c, blobs, result.outputDirectories, TreesOf(c, ess))
    ensures Replayable(c, blobs, result, TreesOf(c, ess))
  {
    RecordedStreams(c, blobs, opts, effect, ess, result);
    RecordedFilesThere(c, blobs, opts, effect, ess, result);
    RecordedIsKnown(c, blobs, opts, effect, ess, result);
    hide Known, Skeleton, Records, Stored, RunBlobs, DirThere, AllDigested, AllStored, StreamThere;
  }

  lemma RecordedDirectoryThere(c: Codec, blobs: map<string, Bytes>, opts: RunOptions, effect: Effect,
      ess: seq<seq<Named>>, result: ActionResult, j: nat)
    requires c.Lawful() && Records(c, opts, effect, ess, result) && j < |ess|
    requires Stored(c, blobs, RunBlobs(c, opts, effect, ess))
    ensures |result.outputDirectories| == |ess|
    ensures var dir := result.outputDirectories[j];
      && dir.treeDigest.Some? && dir.treeDigest.value.hash in blobs
      && TreesOf(c, ess)[j].SDir? && Tidy(TreesOf(c, ess)[j])
      && TreeDenotes(c, blobs, dir.treeDigest.value, TreesOf(c, ess)[j])
      && DirThere(c, blobs, dir, TreesOf(c, ess)[j])
  {
    RecordedDirectory(c, blobs, opts, effect, ess, result, j);
    hide TreeDenotes, Complete, Skeleton, Records, Stored, RunBlobs, Tidy;
  }

  lemma RecordedFile(c: Codec, blobs: map<string, Bytes>, opts: RunOptions, effect: Effect,
      ess: seq<seq<Named>>, result: ActionResult, i: nat)
    requires Records(c, opts, effect, ess, result) && i < |result.outputFiles|
    requires Stored(c, blobs, RunBlobs(c, opts, effect, ess))
    ensures i < |opts.outputFiles| && FileRecorded(c, effect.after, opts.outputFiles[i], result.outputFiles[i])
    ensures var content := Output(effect.after, opts.outputFiles[i]).value.content;
      && result.outputFiles[i].digest == Some(c.DigestOf(content))
      && c.hash(content) in blobs && blobs[c.hash(content)] == content
  {
    hide DirNeeds, Joined, CommandBytes, ActionBytes, DirsRecorded;
    assert FileRecorded(c, effect.after, opts.outputFiles[i], result.outputFiles[i]);
    var content := Output(effect.after, opts.outputFiles[i]).value.content;
    assert content in FileContents(effect.after, opts.outputFiles);
    assert content in RunBlobs(c, opts, effect, ess);
  }

  // ---------------------------------------------------------------- what was replayed is what ran

  /** What is there is what comes of restoring the other, or there is neither. */
  ghost predicate SameThere(a: Option<Entry>, b: Option<Entry>) {
    match (a, b)
    case (None, None) => true
    case (Some(x), Some(y)) => Remade(x, y)
    case _ => false
  }

  ghost predicate SameFile(ran: map<Path, Entry>, replayed: map<Path, Entry>, path: string) {
    SameThere(Output(ran, path), Output(replayed, path))
  }

  ghost predicate SameBelow(ran: map<Path, Entry>, replayed: map<Path, Entry>, path: string, p: Path) {
    SameThere(Get(ran, OutputPlace(ran, path) + p), Get(replayed, OutputPlace(replayed, path) + p))
  }

  /** Every declared output of the one machine is on the other, directories in full. */
  ghost predicate Reproduced(opts: RunOptions, ran: map<Path, Entry>, replayed: map<Path, Entry>) {
    && (forall i :: 0 <= i < |opts.outputFiles| ==> SameFile(ran, replayed, opts.outputFiles[i]))
    && (forall j, p :: 0 <= j < |opts.outputDirs| ==> SameBelow(ran, replayed, opts.outputDirs[j], p))
  }

  /** What stands at the end of a plain path is what the path names. */
  lemma NamedByPath(entries: map<Path, Entry>, path: string)
    requires Rooted(entries) && path != "" && Plain(RouteOf(path)) && RouteOf(path) in entries
    ensures Output(entries, path) == Some(entries[RouteOf(path)]) && OutputPlace(entries, path) == RouteOf(path)
  {
    hide Rooted, RouteOf, Spot, Straight;
    SpotOfEntry(entries, RouteOf(path));
  }

  lemma {:induction false} DirectoryStays(before: map<Path, Entry>, blobs: map<string, Bytes>, files: seq<OutputFile>,
      dirs: seq<OutputDirectory>, ts: seq<Skel>, j: nat, q: Path)
    requires |dirs| == |ts| && j < |dirs| && OutOf(dirs[j]) <= q
    requires forall a, b :: 0 <= a < b < |dirs| ==> Apart(OutOf(dirs[a]), OutOf(dirs[b]))
    requires forall i :: 0 <= i < |files| ==> Apart(PathOf(files[i]), OutOf(dirs[j]))
    ensures PutAll(before, blobs, files, dirs, ts, q) ==
      if Sub(ts[j], q[|OutOf(dirs[j])|..]).Some? then Some(Rendered(blobs, Sub(ts[j], q[|OutOf(dirs[j])|..]).value))
      else if q == OutOf(dirs[j]) then Some(EDir)
      else Get(before, q)
  {
    hide RouteOf, Rendered;
    var n := |dirs| - 1;
    var out, other := OutOf(dirs[j]), OutOf(dirs[n]);
    if j < n {
      ApartBeyond(other, out, q);
      DirectoryStays(before, blobs, files, dirs[..n], ts[..n], j, q);
    } else {
      forall k | 0 <= k < n ensures Apart(OutOf(dirs[..n][k]), out) {
        assert Apart(OutOf(dirs[k]), OutOf(dirs[j]));
      }
      ApartFromAll(before, blobs, files, dirs[..n], ts[..n], out, q);
    }
  }

  lemma ApartBeyond(p: Path, out: Path, q: Path)
    requires Apart(out, p) && out <= q
    ensures Apart(p, q)
  {
    if p <= q { PrefixesCompare(p, out, q); }
    if q <= p { PrefixTransitive(out, q, p); }
  }

  lemma DirectoryReproduced(c: Codec, blobs: map<string, Bytes>, before: map<Path, Entry>, after: map<Path, Entry>,
      opts: RunOptions, effect: Effect, ess: seq<seq<Named>>, result: ActionResult, j: nat, p: Path)
    requires c.Lawful() && Records(c, opts, effect, ess, result) && Stored(c, blobs, RunBlobs(c, opts, effect, ess))
    requires FreshTargets(before, result.outputFiles, result.outputDirectories) && j < |opts.outputDirs|
    requires |result.outputDirectories| == |ess| && DirAt(effect.after, opts.outputDirs[j]) && Rooted(after)
    requires EverythingPut(before, after, blobs, result.outputFiles, result.outputDirectories, TreesOf(c, ess))
    ensures SameBelow(effect.after, after, opts.outputDirs[j], p)
  {
    DirectoryAsListed(c, blobs, before, after, opts, effect, ess, result, j, p);
    DirectoryAsListed(c, blobs, before, after, opts, effect, ess, result, j, []);
    hide Records, Stored, RunBlobs, FreshTargets, EverythingPut, TreesOf, Lstat, RouteOf, Rooted;
    assert RouteOf(opts.outputDirs[j]) + [] == RouteOf(opts.outputDirs[j]);
    NamedByPath(after, opts.outputDirs[j]);
  }

  /** At every path below it, a replayed directory has what was listed. */
  lemma DirectoryAsListed(c: Codec, blobs: map<string, Bytes>, before: map<Path, Entry>, after: map<Path, Entry>,
      opts: RunOptions, effect: Effect, ess: seq<seq<Named>>, result: ActionResult, j: nat, p: Path)
    requires c.Lawful() && Records(c, opts, effect, ess, result) && Stored(c, blobs, RunBlobs(c, opts, effect, ess))
    requires FreshTargets(before, result.outputFiles, result.outputDirectories) && j < |opts.outputDirs|
    requires |result.outputDirectories| == |ess| && DirAt(effect.after, opts.outputDirs[j])
    requires EverythingPut(before, after, blobs, result.outputFiles, result.outputDirectories, TreesOf(c, ess))
    ensures Plain(RouteOf(opts.outputDirs[j])) && opts.outputDirs[j] != ""
    ensures SameThere(Get(effect.after, OutputPlace(effect.after, opts.outputDirs[j]) + p),
                      Get(after, RouteOf(opts.outputDirs[j]) + p))
    ensures p == [] ==> RouteOf(opts.outputDirs[j]) in after
  {
    hide Needed, Skeleton, TreesOf, TreeDenotes, Complete, TreeMessageThere, RunBlobs, Placeable, FilesRecorded,
      RouteOf;
    var dirs, out := result.outputDirectories, RouteOf(opts.outputDirs[j]);
    assert DirRecorded(c, effect.after, opts.outputDirs[j], ess[j], dirs[j]);
    RecordedDirectory(c, blobs, opts, effect, ess, result, j);
    assert ListedAt(effect.after, OutputPlace(effect.after, opts.outputDirs[j]), OnDir(ess[j]), p);
    RelativeTo(out, p);
    assert Get(after, out + p) == PutAll(before, blobs, result.outputFiles, dirs, TreesOf(c, ess), out + p);
    DirectoryStays(before, blobs, result.outputFiles, dirs, TreesOf(c, ess), j, out + p);
    SkeletonShape(c, ess[j], p);
    if Sub(Skeleton(c, ess[j]), p).Some? {
      RebuiltEntry(c, blobs, ess[j], p);
    }
    assert Fresh(before, OutOf(dirs[j]));
    assert p == [] ==> out + p == out && Get(after, out).Some?;
  }

  lemma SkeletonShape(c: Codec, es: seq<Named>, p: Path)
    ensures Sub(Skeleton(c, es), p).Some? <==> EntryAt(View(OnDir(es)), p).Some?
    ensures p == [] ==> Sub(Skeleton(c, es), p).Some?
  {
    DigestedAt(c, Memoize(), Dir(ViewEntries(es)), p);
  }

  lemma FileReproduced(c: Codec, blobs: map<string, Bytes>, before: map<Path, Entry>, after: map<Path, Entry>,
      opts: RunOptions, effect: Effect, ess: seq<seq<Named>>, result: ActionResult, i: nat)
    requires Records(c, opts, effect, ess, result) && Stored(c, blobs, RunBlobs(c, opts, effect, ess))
    requires FreshTargets(before, result.outputFiles, result.outputDirectories) && i < |opts.outputFiles|
    requires |result.outputDirectories| == |ess| && Rooted(after)
    requires EverythingPut(before, after, blobs, result.outputFiles, result.outputDirectories, TreesOf(c, ess))
    ensures SameFile(effect.after, after, opts.outputFiles[i])
  {
    hide Needed, TreesOf, RunBlobs, Placeable, RouteOf, Put, PutAll, DirsRecorded, Fresh, Rooted, Lstat;
    var files, p := result.outputFiles, RouteOf(opts.outputFiles[i]);
    RecordedFile(c, blobs, opts, effect, ess, result, i);
    assert p == PathOf(files[i]);
    assert Get(after, p) == PutAll(before, blobs, files, result.outputDirectories, TreesOf(c, ess), p);
    FilesStay(before, blobs, files, result.outputDirectories, TreesOf(c, ess), p);
    RecordedAreConsistent(c, before, effect.after, opts.outputFiles, files);
    FileStays(before, blobs, files, i);
    PlacesArePlain(before, files, i);
    NothingIsNowhere(effect.after);
    NamedByPath(after, opts.outputFiles[i]);
  }

  lemma PlacesArePlain(before: map<Path, Entry>, files: seq<OutputFile>, i: nat)
    requires Placeable(before, files) && i < |files|
    ensures Plain(PathOf(files[i]))
  {
    assert Writable(before, PathOf(files[i]));
  }

  lemma NothingIsNowhere(entries: map<Path, Entry>)
    ensures Output(entries, "") == None
  {
  }

  /** No file is in the way of another, and two files at one path are the same. */
  ghost predicate Consistent(files: seq<OutputFile>) {
    forall a, b :: 0 <= a < |files| && 0 <= b < |files| ==>
      && !Leads(PathOf(files[a]), PathOf(files[b]))
      && (PathOf(files[a]) == PathOf(files[b]) ==>
           files[a].digest == files[b].digest && files[a].exec == files[b].exec)
  }

  /** Files that are written later do not hide one written earlier. */
  lemma {:induction false} FileStays(before: map<Path, Entry>, blobs: map<string, Bytes>, files: seq<OutputFile>,
      i: nat)
    requires Consistent(files) && i < |files|
    ensures Put(before, blobs, files, PathOf(files[i])) == Some(Restored1(blobs, files[i]))
  {
    hide RouteOf;
    var n := |files| - 1;
    assert !Leads(PathOf(files[i]), PathOf(files[n]));
    if PathOf(files[i]) != PathOf(files[n]) {
      FileStays(before, blobs, files[..n], i);
    }
  }

  lemma RecordedAreConsistent(c: Codec, before: map<Path, Entry>, ran: map<Path, Entry>, paths: seq<string>,
      files: seq<OutputFile>)
    requires FilesRecorded(c, ran, paths, files) && Placeable(before, files)
    ensures Consistent(files)
  {
    hide RouteOf, Writable, Leads, Lstat;
    forall a, b | 0 <= a < |files| && 0 <= b < |files| && PathOf(files[a]) == PathOf(files[b])
      ensures files[a].digest == files[b].digest && files[a].exec == files[b].exec
    {
      assert FileRecorded(c, ran, paths[a], files[a]) && FileRecorded(c, ran, paths[b], files[b]);
      SameRecord(c, ran, paths[a], files[a], paths[b], files[b]);
    }
  }

  lemma SameRecord(c: Codec, ran: map<Path, Entry>, p: string, f: OutputFile, q: string, g: OutputFile)
    requires FileRecorded(c, ran, p, f) && FileRecorded(c, ran, q, g) && PathOf(f) == PathOf(g)
    ensures f.digest == g.digest && f.exec == g.exec
  {
  }

  lemma ReplayReproduces(c: Codec, blobs: map<string, Bytes>, before: map<Path, Entry>, after: map<Path, Entry>,
      opts: RunOptions, effect: Effect, ess: seq<seq<Named>>, result: ActionResult)
    requires c.Lawful() && Records(c, opts, effect, ess, result) && Stored(c, blobs, RunBlobs(c, opts, effect, ess))
    requires FreshTargets(before, result.outputFiles, result.outputDirectories)
    requires |result.outputDirectories| == |ess| && Capturable(effect, opts) && Rooted(after)
    requires EverythingPut(before, after, blobs, result.outputFiles, result.outputDirectories, TreesOf(c, ess))
    ensures Reproduced(opts, effect.after, after)
  {
    hide Records, Stored, RunBlobs, FreshTargets, EverythingPut, SameFile, SameBelow, TreesOf, RouteOf, Lstat, Rooted;
    forall i | 0 <= i < |opts.outputFiles| ensures SameFile(effect.after, after, opts.outputFiles[i]) {
      FileReproduced(c, blobs, before, after, opts, effect, ess, result, i);
    }
    forall j, p | 0 <= j < |opts.outputDirs| ensures SameBelow(effect.after, after, opts.outputDirs[j], p) {
      DirectoryReproduced(c, blobs, before, after, opts, effect, ess, result, j, p);
    }
  }

  // ---------------------------------------------------------------- conditions, in terms of the options

  /** Nothing is in the way of any declared output, and no output is in the way of another. */
  ghost predicate FreshFor(before: map<Path, Entry>, opts: RunOptions) {
    && (forall i :: 0 <= i < |opts.outputFiles| ==> Writable(before, RouteOf(opts.outputFiles[i])))
    && (forall i, j :: 0 <= i < |opts.outputFiles| && 0 <= j < |opts.outputFiles| ==>
         !Leads(RouteOf(opts.outputFiles[i]), RouteOf(opts.outputFiles[j])))
    && (forall j :: 0 <= j < |opts.outputDirs| ==> Fresh(before, RouteOf(opts.outputDirs[j])))
    && (forall i, j :: 0 <= i < |opts.outputFiles| && 0 <= j < |opts.outputDirs| ==>
         Apart(RouteOf(opts.outputFiles[i]), RouteOf(opts.outputDirs[j])))
    && (forall i, j :: 0 <= i < j < |opts.outputDirs| ==>
         Apart(RouteOf(opts.outputDirs[i]), RouteOf(opts.outputDirs[j])))
  }

  /** No two declared output files were left with content of the same hash. */
  ghost predicate DistinctContents(c: Codec, opts: RunOptions, ran: map<Path, Entry>) {
    forall i, j ::
      0 <= i < j < |opts.outputFiles| && FileAt(ran, opts.outputFiles[i]) && FileAt(ran, opts.outputFiles[j]) ==>
        c.hash(Output(ran, opts.outputFiles[i]).value.content) != c.hash(Output(ran, opts.outputFiles[j]).value.content)
  }

  ghost predicate PathsRecorded(opts: RunOptions, result: ActionResult) {
    && |result.outputFiles| == |opts.outputFiles| && |result.outputDirectories| == |opts.outputDirs|
    && (forall i :: 0 <= i < |opts.outputFiles| ==> result.outputFiles[i].path == opts.outputFiles[i])
    && (forall j :: 0 <= j < |opts.outputDirs| ==> result.outputDirectories[j].path == opts.outputDirs[j])
  }

  lemma RecordedPaths(c: Codec, opts: RunOptions, effect: Effect, ess: seq<seq<Named>>, result: ActionResult)
    requires Records(c, opts, effect, ess, result)
    ensures PathsRecorded(opts, result)
    ensures DistinctHashes(result.outputFiles) <==> DistinctContents(c, opts, effect.after)
  {
    hide RouteOf, Listed, Uploaded, Lstat;
    forall i | 0 <= i < |opts.outputFiles|
      ensures result.outputFiles[i].path == opts.outputFiles[i] && FileAt(effect.after, opts.outputFiles[i])
      ensures result.outputFiles[i].digest == Some(c.DigestOf(Output(effect.after, opts.outputFiles[i]).value.content))
    {
      assert FileRecorded(c, effect.after, opts.outputFiles[i], result.outputFiles[i]);
    }
    forall j | 0 <= j < |opts.outputDirs| ensures result.outputDirectories[j].path == opts.outputDirs[j] {
      assert DirRecorded(c, effect.after, opts.outputDirs[j], ess[j], result.outputDirectories[j]);
    }
  }

  lemma FreshForRecorded(before: map<Path, Entry>, opts: RunOptions, result: ActionResult)
    requires PathsRecorded(opts, result) && FreshFor(before, opts)
    ensures FreshTargets(before, result.outputFiles, result.outputDirectories)
  {
    hide RouteOf, Writable, Fresh, Apart, Leads;
    var files, dirs := result.outputFiles, result.outputDirectories;
    forall i | 0 <= i < |files| ensures PathOf(files[i]) == RouteOf(opts.outputFiles[i]) {}
    forall j | 0 <= j < |dirs| ensures OutOf(dirs[j]) == RouteOf(opts.outputDirs[j]) {}
  }

  /** The listings of the output directories. */
  ghost predicate ListsOutputs(opts: RunOptions, ran: map<Path, Entry>, ess: seq<seq<Named>>) {
    && |ess| == |opts.outputDirs|
    && forall j :: 0 <= j < |ess| ==> Listed(ran, OutputPlace(ran, opts.outputDirs[j]), OnDir(ess[j]))
  }

  /** No blob the run sends collides with another or with one in storage. */
  ghost predicate CollisionFree(c: Codec, blobs: map<string, Bytes>, opts: RunOptions, effect: Effect) {
    forall ess :: ListsOutputs(opts, effect.after, ess) ==>
      c.NoCollision(blobs.Values + RunBlobs(c, opts, effect, ess))
  }

  lemma RecordedListings(c: Codec, opts: RunOptions, effect: Effect, ess: seq<seq<Named>>, result: ActionResult)
    requires Records(c, opts, effect, ess, result)
    ensures ListsOutputs(opts, effect.after, ess)
  {
    hide RouteOf, Listed, Uploaded, Lstat;
    forall j | 0 <= j < |ess|
      ensures Listed(effect.after, OutputPlace(effect.after, opts.outputDirs[j]), OnDir(ess[j]))
    {
      assert DirRecorded(c, effect.after, opts.outputDirs[j], ess[j], result.outputDirectories[j]);
    }
  }

  // ---------------------------------------------------------------- twice

  lemma RecordedIsFinite(c: Codec, blobs: map<string, Bytes>, opts: RunOptions, effect: Effect,
      ess: seq<seq<Named>>, result: ActionResult)
    requires c.Lawful() && Addressed(c, blobs) && Records(c, opts, effect, ess, result)
    requires Stored(c, blobs, RunBlobs(c, opts, effect, ess))
    ensures FiniteAmong(c, blobs.Values + {CommandBytes(c, opts), ActionBytes(c, opts)}, result.outputDirectories)
  {
    hide Records, Stored, RunBlobs, ShallowTree, Needed, Addressed, CommandBytes, ActionBytes, Height, Skeleton, KeyOf;
    var dirs, bs := result.outputDirectories, blobs.Values + {CommandBytes(c, opts), ActionBytes(c, opts)};
    RecordedStreams(c, blobs, opts, effect, ess, result);
    forall j, b | 0 <= j < |dirs| && dirs[j].treeDigest.Some? && b in bs && c.hash(b) == dirs[j].treeDigest.value.hash
      ensures exists n: nat :: ShallowTree(c, b, n)
    {
      StoredOrSent(c, blobs, opts, effect, ess, b);
      RecordedTreeIsFinite(c, blobs, opts, effect, ess, result, j);
    }
  }

  lemma StoredOrSent(c: Codec, blobs: map<string, Bytes>, opts: RunOptions, effect: Effect, ess: seq<seq<Named>>,
      b: Bytes)
    requires Addressed(c, blobs) && Stored(c, blobs, RunBlobs(c, opts, effect, ess))
    requires b in blobs.Values + {CommandBytes(c, opts), ActionBytes(c, opts)}
    ensures c.hash(b) in blobs && blobs[c.hash(b)] == b
  {
    if b in blobs.Values { var h :| h in blobs && blobs[h] == b; }
    assert b in {CommandBytes(c, opts), ActionBytes(c, opts)} ==> b in RunBlobs(c, opts, effect, ess);
  }

  lemma RecordedTreeIsFinite(c: Codec, blobs: map<string, Bytes>, opts: RunOptions, effect: Effect,
      ess: seq<seq<Named>>, result: ActionResult, j: nat)
    requires c.Lawful() && Records(c, opts, effect, ess, result) && j < |ess|
    requires Stored(c, blobs, RunBlobs(c, opts, effect, ess))
    ensures |result.outputDirectories| == |ess| && result.outputDirectories[j].treeDigest.Some?
    ensures var h := result.outputDirectories[j].treeDigest.value.hash;
      h in blobs && ShallowTree(c, blobs[h], Height(Skeleton(c, ess[j])))
  {
    hide Needed, Skeleton, TreeDenotes, Complete, TreeMessageThere, ShallowTree, Height, Stored, RunBlobs;
    RecordedDirectory(c, blobs, opts, effect, ess, result, j);
    assert DirRecorded(c, effect.after, opts.outputDirs[j], ess[j], result.outputDirectories[j]);
    ListedIsGenuine(effect.after, OutputPlace(effect.after, opts.outputDirs[j]), OnDir(ess[j]));
    StoredHasNoCollision(c, blobs, Needed(c, ess[j]));
    UploadedTreeIsFinite(c, ess[j]);
    TreeBlobIsNeeded(c, ess[j]);
    StoredBlob(c, blobs, Needed(c, ess[j]), TreeBlob(c, ess[j]));
  }

  lemma StoredBlob(c: Codec, blobs: map<string, Bytes>, bs: set<Bytes>, b: Bytes)
    requires Stored(c, blobs, bs) && b in bs
    ensures c.hash(b) in blobs && blobs[c.hash(b)] == b
  {
  }

  /** Runs on one machine, and then with the same options on another.  The second run starts no
      process; it succeeds exactly when the output files differ pairwise, and then returns the
      same exit code, writes the same streams and leaves the same outputs. */
  method RunTwice(client: RemoteClient, first: Host, second: Host, opts: RunOptions, effect: Effect, other: Effect)
    returns (r: Result<int, Error>, s: Result<int, Error>)
    requires client.server.Valid() && first.Valid() && second.Valid()
    requires {first as object, first.files, first.stdout, first.stderr} !!
             {second as object, second.files, second.stdout, second.stderr}
    requires client.server.reliable && client.server.c.Lawful()
    requires Rooted(effect.after) && Rooted(other.after)
    requires !opts.noCache && AllRelative(opts) && !Hit(client.server.c, opts, client.server.actions)
    requires effect.starts && Capturable(effect, opts)
    requires CollisionFree(client.server.c, client.server.blobs, opts, effect)
    requires FreshFor(second.files.entries, opts)
    modifies client.server, first, first.files, first.stdout, first.stderr, second.files, second.stdout, second.stderr,
      second
    ensures r.Ok? && (forall n :: effect.code == Some(n) ==> r.value == n) && (effect.code.None? ==> r.value == -1)
    ensures second.spawned == old(second.spawned)
    ensures s.Ok? <==> DistinctContents(client.server.c, opts, effect.after)
    ensures s.Ok? ==>
      && s == r
      && second.stdout.written == old(second.stdout.written) + Joined(effect.stdout)
      && second.stderr.written == old(second.stderr.written) + Joined(effect.stderr)
      && Reproduced(opts, effect.after, second.files.entries)
  {
    hide Grown, HashesThere, RunBlobs, Records, Capturable, CacheBacked, Known, Rooted, AllRelative, FreshFor,
      CollisionFree, Stored, Reproduced, Joined, DistinctContents, Replayable, FreshTargets, EverythingPut, TreesOf,
      FiniteAmong, ReplayedFrom, Addressed, OnlyRecorded, CommandBytes, ActionBytes, Simulated;
    ghost var c, was := client.server.c, client.server.blobs;
    ghost var key := KeyOf(c, opts);
    ghost var before := second.Now();
    ghost var ess, none;
    r, ess := RunCached(client, first, opts, effect, {}, []);
    ghost var blobs, result := client.server.blobs, client.server.actions[key];
    Recorded(c, was, blobs, opts, effect, ess, result);
    RecordedReplays(c, blobs, opts, effect, ess, result);
    RecordedStreams(c, blobs, opts, effect, ess, result);
    RecordedPaths(c, opts, effect, ess, result);
    RecordedIsFinite(c, blobs, opts, effect, ess, result);
    FreshForRecorded(before.files, opts, result);
    s, none := RunCached(client, second, opts, other, {}, TreesOf(c, ess));
    Replayed(c, was, blobs, client.server.blobs, opts, effect, other, ess, none, result);
    if s.Ok? {
      ReplayReproduces(c, client.server.blobs, before.files, second.files.entries, opts, effect, ess, result);
    }
  }

  // ---------------------------------------------------------------- every entry

  /** A run whose key is in a backed cache, whoever recorded the entry and when.  If nothing known
      collides, it starts no process, and with nothing in the way of its outputs it succeeds
      exactly when no two recorded output files share their content. */
  method RunHit(client: RemoteClient, host: Host, opts: RunOptions, effect: Effect, ghost known: set<Bytes>)
    returns (r: Result<int, Error>)
    requires client.server.Valid() && host.Valid() && Rooted(effect.after)
    requires client.server.reliable && client.server.c.Lawful()
    requires AllRelative(opts) && Hit(client.server.c, opts, client.server.actions)
    requires CacheBacked(client.server.c, known, client.server.blobs, client.server.actions)
    requires client.server.blobs.Values <= known
    requires client.server.c.NoCollision(
      known + {CommandBytes(client.server.c, opts), ActionBytes(client.server.c, opts)})
    modifies client.server, host, host.files, host.stdout, host.stderr
    ensures host.spawned == old(host.spawned) && client.server.actions == old(client.server.actions)
    ensures var found := old(client.server.actions)[KeyOf(client.server.c, opts)];
      && (r.Ok? ==>
           ReplayedFrom(true, client.server.blobs, found, old(host.Now()), host.Now(), r.value))
      && (FreshTargets(old(host.files.entries), found.outputFiles, found.outputDirectories) ==>
           (r.Ok? <==> DistinctHashes(found.outputFiles)))
  {
    hide Grown, HashesThere, RunBlobs, CacheBacked, Known, Rooted, AllRelative, Replayable, FreshTargets, EverythingPut,
      FiniteAmong, ReplayedFrom, OnlyRecorded, CommandBytes, ActionBytes, ResultBacked, Addressed, DistinctHashes,
      Simulated;
    ghost var c, start := client.server.c, client.server.blobs;
    ghost var found, sent := client.server.actions[KeyOf(c, opts)], {CommandBytes(c, opts), ActionBytes(c, opts)};
    EntryBacked(c, known, start, client.server.actions, KeyOf(c, opts));
    BackedIsFinite(c, known, start, found, start.Values + sent) by { LessCollides(c, known, start.Values, sent); }
    LessCollides(c, known, start.Values, {});
    ghost var ts := BackedIsKnown(c, known, start, found);
    ghost var ess;
    r, ess := RunCached(client, host, opts, effect, known, ts);
    LaterReplayable(c, start, client.server.blobs, found, ts) by {
      GrownKeeps(c, start, client.server.blobs, RunBlobs(c, opts, effect, ess));
    }
  }

  lemma EntryBacked(c: Codec, known: set<Bytes>, blobs: map<string, Bytes>, actions: map<Digest, ActionResult>,
      key: Digest)
    requires CacheBacked(c, known, blobs, actions) && key in actions
    ensures ResultBacked(c, known, blobs, actions[key])
  {
  }

  lemma LessCollides(c: Codec, known: set<Bytes>, stored: set<Bytes>, sent: set<Bytes>)
    requires stored <= known
    ensures known + (stored + sent) == known + sent && known + {} == known
    ensures c.NoCollision(known + sent) ==> c.NoCollision(known)
  {
  }

  /** What can be had stays to be had. */
  lemma LaterReplayable(c: Codec, before: map<string, Bytes>, after: map<string, Bytes>,
      result: ActionResult, ts: seq<Skel>)
    requires |ts| == |result.outputDirectories| && Replayable(c, before, result, ts) && Kept(before, after)
    ensures Replayable(c, after, result, ts)
  {
    hide Resolvable;
  }

  lemma Recorded(c: Codec, before: map<string, Bytes>, after: map<string, Bytes>, opts: RunOptions, effect: Effect,
      ess: seq<seq<Named>>, result: ActionResult)
    requires Addressed(c, before) && Grown(c, before, after, RunBlobs(c, opts, effect, ess))
    requires HashesThere(c, after, RunBlobs(c, opts, effect, ess))
    requires CollisionFree(c, before, opts, effect) && Records(c, opts, effect, ess, result)
    ensures Stored(c, after, RunBlobs(c, opts, effect, ess))
  {
    hide Grown, HashesThere, RunBlobs, Records;
    RecordedListings(c, opts, effect, ess, result);
    StoredWithoutCollision(c, before, after, RunBlobs(c, opts, effect, ess));
  }

  /** Storage keeps what was recorded, whatever it takes in later. */
  lemma Replayed(c: Codec, was: map<string, Bytes>, blobs: map<string, Bytes>, later: map<string, Bytes>,
      opts: RunOptions, effect: Effect, other: Effect, ess: seq<seq<Named>>, none: seq<seq<Named>>,
      result: ActionResult)
    requires c.Lawful() && Records(c, opts, effect, ess, result)
    requires Stored(c, blobs, RunBlobs(c, opts, effect, ess))
    requires Grown(c, blobs, later, RunBlobs(c, opts, other, none))
    ensures Stored(c, later, RunBlobs(c, opts, effect, ess))
    ensures Replayable(c, later, result, TreesOf(c, ess))
    ensures StreamContent(later, [], result.stdoutDigest) == Joined(effect.stdout)
    ensures StreamContent(later, [], result.stderrDigest) == Joined(effect.stderr)
    ensures |ess| == |result.outputDirectories|
  {
    hide Records, RunBlobs, Replayable, StreamContent;
    RecordedReplays(c, later, opts, effect, ess, result);
    RecordedStreams(c, later, opts, effect, ess, result);
  }
}
