/** `run_cached`: look a run up, and replay it or run and record it. */
module Caching {
  import opened Names
  import opened Messages
  import opened Merkle
  import opened PathText
  import opened Disk
  import opened TreeBuild
  import opened Remote
  import opened Client
  import opened Upload
  import opened FileSystem
  import opened Download
  import opened Materialize
  import opened RoundTrip
  import opened Machine
  import opened Run
  import opened Steps
  import opened Traces
  import opened Capture
  import opened Restore

  // ---------------------------------------------------------------- what a record refers to

  /** The record is that of the listing `es`, whose blobs are all of `known`, and in storage. */
  ghost predicate DirBackedBy(c: Codec, known: set<Bytes>, blobs: map<string, Bytes>, dir: OutputDirectory,
      es: seq<Named>)
  {
    && Genuine(OnDir(es))
    && dir.treeDigest == Some(Uploaded(c, es).treeDigest)
    && Needed(c, es) <= known && HashesThere(c, blobs, Needed(c, es))
  }

  ghost predicate DirBacked(c: Codec, known: set<Bytes>, blobs: map<string, Bytes>, dir: OutputDirectory) {
    exists es :: DirBackedBy(c, known, blobs, dir, es)
  }

  ghost predicate DigestThere(blobs: map<string, Bytes>, digest: Option<Digest>) {
    digest.Some? && digest.value.hash in blobs
  }

  /** Everything the result refers to is in storage, output trees down to their files. */
  ghost predicate ResultBacked(c: Codec, known: set<Bytes>, blobs: map<string, Bytes>, result: ActionResult) {
    && DigestThere(blobs, result.stdoutDigest) && DigestThere(blobs, result.stderrDigest)
    && (forall i :: 0 <= i < |result.outputFiles| ==> DigestThere(blobs, result.outputFiles[i].digest))
    && (forall j :: 0 <= j < |result.outputDirectories| ==> DirBacked(c, known, blobs, result.outputDirectories[j]))
  }

  /** The key is that of an action that may be cached, and which is in storage with its command. */
  ghost predicate KeyBacked(c: Codec, known: set<Bytes>, blobs: map<string, Bytes>, key: Digest) {
    exists command, action :: KeyBackedBy(c, known, blobs, key, command, action)
  }

  ghost predicate KeyBackedBy(c: Codec, known: set<Bytes>, blobs: map<string, Bytes>, key: Digest, command: Command,
      action: Action)
  {
    var first, second := c.encodeCommand(command), c.encodeAction(action);
    && key == Digest(c.hash(second), |second|) && !action.doNotCache
    && action.commandDigest == Digest(c.hash(first), |first|)
    && {first, second} <= known && HashesThere(c, blobs, {first, second})
  }

  /** What storage has under the key reads as an action that may be cached, and what it has under the digest
      of that action's command as a command. */
  ghost predicate ActionStored(c: Codec, blobs: map<string, Bytes>, key: Digest) {
    && key.hash in blobs && c.decodeAction(blobs[key.hash]).Some?
    && var action := c.decodeAction(blobs[key.hash]).value;
       && !action.doNotCache
       && action.commandDigest.hash in blobs
       && c.decodeCommand(blobs[action.commandDigest.hash]).Some?
  }

  /** A backed key leads to the action and its command, if nothing known collides. */
  lemma BackedKeyReads(c: Codec, known: set<Bytes>, blobs: map<string, Bytes>, key: Digest)
    requires c.Lawful() && Addressed(c, blobs) && blobs.Values <= known && c.NoCollision(known)
    requires KeyBacked(c, known, blobs, key)
    ensures ActionStored(c, blobs, key)
  {
    var command, action :| KeyBackedBy(c, known, blobs, key, command, action);
    var first, second := c.encodeCommand(command), c.encodeAction(action);
    KnownIsStored(c, known, blobs, {first, second});
    assert c.decodeCommand(first) == Some(command) && c.decodeAction(second) == Some(action);
  }

  lemma OwnKeyBacked(c: Codec, known: set<Bytes>, blobs: map<string, Bytes>, opts: RunOptions)
    requires {CommandBytes(c, opts), ActionBytes(c, opts)} <= known && !opts.noCache
    requires HashesThere(c, blobs, {CommandBytes(c, opts), ActionBytes(c, opts)})
    ensures KeyBacked(c, known, blobs, KeyOf(c, opts))
  {
    hide HashesThere;
    assert KeyBackedBy(c, known, blobs, KeyOf(c, opts), CommandOf(opts), ActionOf(c, opts));
  }

  /** Every entry of the action cache is backed by storage. */
  ghost predicate CacheBacked(c: Codec, known: set<Bytes>, blobs: map<string, Bytes>,
      actions: map<Digest, ActionResult>)
  {
    forall key :: key in actions ==> KeyBacked(c, known, blobs, key) && ResultBacked(c, known, blobs, actions[key])
  }

  /** Storage keeps what it has. */
  ghost predicate Kept(before: map<string, Bytes>, after: map<string, Bytes>) {
    forall h :: h in before ==> h in after && after[h] == before[h]
  }

  lemma GrownKeeps(c: Codec, before: map<string, Bytes>, after: map<string, Bytes>, added: set<Bytes>)
    requires Grown(c, before, after, added)
    ensures Kept(before, after) && before.Keys <= after.Keys
  {
  }

  lemma HashesStay(c: Codec, before: map<string, Bytes>, after: map<string, Bytes>, bs: set<Bytes>)
    requires HashesThere(c, before, bs) && before.Keys <= after.Keys
    ensures HashesThere(c, after, bs)
  {
    forall b | b in bs ensures c.hash(b) in after {
      assert c.hash(b) in before.Keys;
    }
  }

  lemma StaysBacked(c: Codec, known: set<Bytes>, more: set<Bytes>, before: map<string, Bytes>,
      after: map<string, Bytes>, actions: map<Digest, ActionResult>)
    requires CacheBacked(c, known, before, actions) && before.Keys <= after.Keys && known <= more
    ensures CacheBacked(c, more, after, actions)
  {
    forall key | key in actions ensures KeyBacked(c, more, after, key) && ResultBacked(c, more, after, actions[key]) {
      KeyStaysBacked(c, known, more, before, after, key);
      ResultStaysBacked(c, known, more, before, after, actions[key]);
    }
  }

  lemma KeyStaysBacked(c: Codec, known: set<Bytes>, more: set<Bytes>, before: map<string, Bytes>,
      after: map<string, Bytes>, key: Digest)
    requires KeyBacked(c, known, before, key) && before.Keys <= after.Keys && known <= more
    ensures KeyBacked(c, more, after, key)
  {
    var command, action :| KeyBackedBy(c, known, before, key, command, action);
    HashesStay(c, before, after, {c.encodeCommand(command), c.encodeAction(action)});
    assert KeyBackedBy(c, more, after, key, command, action);
  }

  lemma ResultStaysBacked(c: Codec, known: set<Bytes>, more: set<Bytes>, before: map<string, Bytes>,
      after: map<string, Bytes>, result: ActionResult)
    requires ResultBacked(c, known, before, result) && before.Keys <= after.Keys && known <= more
    ensures ResultBacked(c, more, after, result)
  {
    forall j | 0 <= j < |result.outputDirectories| ensures DirBacked(c, more, after, result.outputDirectories[j]) {
      var dir := result.outputDirectories[j];
      assert DirBacked(c, known, before, dir);
      var es :| DirBackedBy(c, known, before, dir, es);
      HashesStay(c, before, after, Needed(c, es));
      assert DirBackedBy(c, more, after, dir, es);
    }
  }

  // ---------------------------------------------------------------- what is backed can be replayed

  /** Blobs whose hashes are there are there themselves, if nothing known collides. */
  lemma KnownIsStored(c: Codec, known: set<Bytes>, blobs: map<string, Bytes>, bs: set<Bytes>)
    requires Addressed(c, blobs) && blobs.Values <= known && c.NoCollision(known)
    requires bs <= known && HashesThere(c, blobs, bs)
    ensures Stored(c, blobs, bs)
  {
    forall b | b in bs ensures c.hash(b) in blobs && blobs[c.hash(b)] == b {
      assert blobs[c.hash(b)] in blobs.Values;
    }
  }

  /** What a recorded directory stands for, and that all of it can be had. */
  ghost predicate DirKnown(c: Codec, blobs: map<string, Bytes>, dir: OutputDirectory, t: Skel) {
    && t.SDir? && Tidy(t) && dir.treeDigest.Some? && dir.treeDigest.value.hash in blobs
    && TreeDenotes(c, blobs, dir.treeDigest.value, t)
    && DirThere(c, blobs, dir, t)
  }

  lemma BackedDirIsKnown(c: Codec, known: set<Bytes>, blobs: map<string, Bytes>, dir: OutputDirectory) returns (t: Skel)
    requires c.Lawful() && Addressed(c, blobs) && blobs.Values <= known && c.NoCollision(known)
    requires DirBacked(c, known, blobs, dir)
    ensures DirKnown(c, blobs, dir, t)
  {
    var es :| DirBackedBy(c, known, blobs, dir, es);
    t := Skeleton(c, es);
    hide Needed, Skeleton, TreeDenotes, Complete, TreeMessageThere, Disk.WellFormed, Spelled, Tidy;
    SkeletonIsTidy(c, es);
    KnownIsStored(c, known, blobs, Needed(c, es));
    StoredTreeDenotes(c, blobs, es);
    StoredIsComplete(c, blobs, es);
    TreeMessageHash(c, blobs, dir.treeDigest.value);
  }

  lemma TreeMessageHash(c: Codec, blobs: map<string, Bytes>, digest: Digest)
    requires TreeMessageThere(c, blobs, digest)
    ensures digest.hash in blobs
  {
  }

  /** Backing is enough: if nothing known collides, then everything a backed result refers to can
      be had, and its directories are trees that storage denotes. */
  lemma BackedIsKnown(c: Codec, known: set<Bytes>, blobs: map<string, Bytes>, result: ActionResult)
      returns (ts: seq<Skel>)
    requires c.Lawful() && Addressed(c, blobs) && blobs.Values <= known && c.NoCollision(known)
    requires ResultBacked(c, known, blobs, result)
    ensures Known(c, blobs, result.outputDirectories, ts) && Replayable(c, blobs, result, ts)
  {
    hide DirKnown, DirBacked, Known, Replayable;
    var dirs := result.outputDirectories;
    ts := [];
    for j := 0 to |dirs|
      invariant |ts| == j && forall k :: 0 <= k < j ==> DirKnown(c, blobs, dirs[k], ts[k])
    {
      assert DirBacked(c, known, blobs, dirs[j]);
      var t := BackedDirIsKnown(c, known, blobs, dirs[j]);
      ts := ts + [t];
    }
    AllDirsKnown(c, known, blobs, result, ts);
  }

  lemma AllDirsKnown(c: Codec, known: set<Bytes>, blobs: map<string, Bytes>, result: ActionResult, ts: seq<Skel>)
    requires ResultBacked(c, known, blobs, result) && |ts| == |result.outputDirectories|
    requires forall k :: 0 <= k < |ts| ==> DirKnown(c, blobs, result.outputDirectories[k], ts[k])
    ensures Known(c, blobs, result.outputDirectories, ts) && Replayable(c, blobs, result, ts)
  {
    hide TreeDenotes, DirThere, DirBacked;
    forall i | 0 <= i < |result.outputFiles| ensures DigestThere(blobs, result.outputFiles[i].digest) {}
  }

  ghost predicate NamesBlob(c: Codec, dir: OutputDirectory, b: Bytes) {
    dir.treeDigest.Some? && c.hash(b) == dir.treeDigest.value.hash
  }

  /** If any of these blobs is what a recorded tree digest names, it is of finite depth. */
  ghost predicate FiniteAmong(c: Codec, bs: set<Bytes>, dirs: seq<OutputDirectory>) {
    forall j, b :: 0 <= j < |dirs| && b in bs && NamesBlob(c, dirs[j], b) ==>
      exists n: nat :: ShallowTree(c, b, n)
  }

  lemma UploadedTreeIsFinite(c: Codec, es: seq<Named>)
    requires c.Lawful() && Disk.WellFormed(OnDir(es)) && c.NoCollision(Needed(c, es))
    ensures ShallowTree(c, TreeBlob(c, es), Height(Skeleton(c, es)))
  {
    hide Height, Looks, ShallowIn, DirBlobs, Descendants, LookupOf;
    assert c.decodeTree(TreeBlob(c, es)) == Some(TreeOf(c, es));
    FlattenedListLooks(c, es);
    var t := Skeleton(c, es);
    assert IsDir(t, []) && Sub(t, []).value == t;
    LookedUpIsShallow(c, LookupOf(c, Descendants(c, es)), t, [], Height(t));
  }

  lemma BackedIsFinite(c: Codec, known: set<Bytes>, blobs: map<string, Bytes>, result: ActionResult, bs: set<Bytes>)
    requires c.Lawful() && ResultBacked(c, known, blobs, result) && c.NoCollision(known + bs)
    ensures FiniteAmong(c, bs, result.outputDirectories)
  {
    var dirs := result.outputDirectories;
    hide Needed, ShallowTree, Skeleton, Height;
    forall j, b | 0 <= j < |dirs| && dirs[j].treeDigest.Some? && b in bs && c.hash(b) == dirs[j].treeDigest.value.hash
      ensures exists n: nat :: ShallowTree(c, b, n)
    {
      assert DirBacked(c, known, blobs, dirs[j]);
      var es :| DirBackedBy(c, known, blobs, dirs[j], es);
      TreeBlobIsNeeded(c, es);
      assert b == TreeBlob(c, es);
      UploadedTreeIsFinite(c, es);
    }
  }

  lemma TreeBlobIsNeeded(c: Codec, es: seq<Named>)
    ensures TreeBlob(c, es) in Needed(c, es)
  {
  }

  /** What was finite among all there may be is finite in storage. */
  lemma FiniteThen(c: Codec, start: map<string, Bytes>, sent: map<string, Bytes>, added: set<Bytes>,
      dirs: seq<OutputDirectory>)
    requires Addressed(c, start) && Grown(c, start, sent, added) && FiniteAmong(c, start.Values + added, dirs)
    ensures AllFinite(c, sent, dirs)
  {
    hide ShallowTree;
    forall j | 0 <= j < |dirs| && dirs[j].treeDigest.Some? && dirs[j].treeDigest.value.hash in sent
      ensures exists n: nat :: ShallowTree(c, sent[dirs[j].treeDigest.value.hash], n)
    {
      var h := dirs[j].treeDigest.value.hash;
      assert h in start ==> start[h] in start.Values;
      assert sent[h] in start.Values + added && c.hash(sent[h]) == h;
    }
  }

  // ---------------------------------------------------------------- what a run records

  /** Every blob a run sends. */
  ghost function RunBlobs(c: Codec, opts: RunOptions, effect: Effect, ess: seq<seq<Named>>): set<Bytes> {
    {CommandBytes(c, opts), ActionBytes(c, opts)} + {Joined(effect.stdout), Joined(effect.stderr)}
      + FileContents(effect.after, opts.outputFiles) + DirNeeds(c, ess)
  }

  /** The result says what the run did: its exit code, its streams, and each declared output. */
  ghost predicate Records(c: Codec, opts: RunOptions, effect: Effect, ess: seq<seq<Named>>, result: ActionResult) {
    && Exited(effect, result.exitCode)
    && result.stdoutRaw == [] && result.stdoutDigest == Some(c.DigestOf(Joined(effect.stdout)))
    && result.stderrRaw == [] && result.stderrDigest == Some(c.DigestOf(Joined(effect.stderr)))
    && FilesRecorded(c, effect.after, opts.outputFiles, result.outputFiles)
    && DirsRecorded(c, effect.after, opts.outputDirs, ess, result.outputDirectories)
  }

  /** The command left every declared output behind, each of its kind. */
  ghost predicate Capturable(effect: Effect, opts: RunOptions) {
    && (forall i :: 0 <= i < |opts.outputFiles| ==> FileAt(effect.after, opts.outputFiles[i]))
    && (forall i :: 0 <= i < |opts.outputDirs| ==> DirAt(effect.after, opts.outputDirs[i]))
  }

  lemma {:induction false} NeededThere(c: Codec, ess: seq<seq<Named>>, j: nat)
    requires j < |ess|
    ensures Needed(c, ess[j]) <= DirNeeds(c, ess)
  {
    hide Needed;
    var n := |ess| - 1;
    if j < n {
      NeededThere(c, ess[..n], j);
      assert ess[..n][j] == ess[j];
    }
  }

  lemma RecordedIsBacked(c: Codec, blobs: map<string, Bytes>, opts: RunOptions, effect: Effect,
      ess: seq<seq<Named>>, result: ActionResult)
    requires Records(c, opts, effect, ess, result) && HashesThere(c, blobs, RunBlobs(c, opts, effect, ess))
    ensures ResultBacked(c, RunBlobs(c, opts, effect, ess), blobs, result)
    ensures !opts.noCache ==> KeyBacked(c, RunBlobs(c, opts, effect, ess), blobs, KeyOf(c, opts))
  {
    var all := RunBlobs(c, opts, effect, ess);
    hide Needed, Genuine, KeyBacked, KeyOf, CommandBytes, ActionBytes;
    assert {CommandBytes(c, opts), ActionBytes(c, opts)} <= all;
    if !opts.noCache { OwnKeyBacked(c, all, blobs, opts); }
    assert Joined(effect.stdout) in all && Joined(effect.stderr) in all;
    forall i | 0 <= i < |result.outputFiles| ensures DigestThere(blobs, result.outputFiles[i].digest) {
      assert FileRecorded(c, effect.after, opts.outputFiles[i], result.outputFiles[i]);
      assert Output(effect.after, opts.outputFiles[i]).value.content in FileContents(effect.after, opts.outputFiles);
    }
    forall j | 0 <= j < |result.outputDirectories| ensures DirBacked(c, all, blobs, result.outputDirectories[j]) {
      assert DirRecorded(c, effect.after, opts.outputDirs[j], ess[j], result.outputDirectories[j]);
      ListedIsGenuine(effect.after, OutputPlace(effect.after, opts.outputDirs[j]), OnDir(ess[j]));
      NeededThere(c, ess, j);
      assert HashesThere(c, blobs, Needed(c, ess[j]));
      assert DirBackedBy(c, all, blobs, result.outputDirectories[j], ess[j]);
    }
    assert HashesThere(c, blobs, {CommandBytes(c, opts), ActionBytes(c, opts)});
  }

  // ---------------------------------------------------------------- run_cached

  /** The flattened trees of the recorded directories are in storage and denote `ts`. */
  ghost predicate Known(c: Codec, blobs: map<string, Bytes>, dirs: seq<OutputDirectory>, ts: seq<Skel>) {
    && |ts| == |dirs|
    && forall j :: 0 <= j < |dirs| ==>
         && ts[j].SDir? && Tidy(ts[j])
         && (dirs[j].treeDigest.Some? ==>
              dirs[j].treeDigest.value.hash in blobs && TreeDenotes(c, blobs, dirs[j].treeDigest.value, ts[j]))
  }

  lemma KnownDenotes(c: Codec, before: map<string, Bytes>, after: map<string, Bytes>, dirs: seq<OutputDirectory>,
      ts: seq<Skel>)
    requires Known(c, before, dirs, ts) && Kept(before, after)
    ensures AllDenote(c, after, dirs, ts) && Known(c, after, dirs, ts)
  {
    hide Looks;
  }

  lemma BothSent(c: Codec, blobs: map<string, Bytes>, x: Bytes, y: Bytes)
    ensures Honest(c, [c.BlobOf(x), c.BlobOf(y)]) && DataOf([c.BlobOf(x), c.BlobOf(y)]) == {x, y}
    ensures (forall i :: 0 <= i < 2 ==> [c.BlobOf(x), c.BlobOf(y)][i].digest.hash in blobs) ==>
      HashesThere(c, blobs, {x, y})
  {
    var both := [c.BlobOf(x), c.BlobOf(y)];
    assert both[0].data == x && both[1].data == y;
  }

  /** Sends two blobs unless they are there. */
  method SendBoth(client: RemoteClient, x: Bytes, y: Bytes) returns (r: Result<(), Error>)
    requires client.server.Valid()
    modifies client.server`blobs, client.server`received, client.server`log
    ensures client.server.Valid()
    ensures Grown(client.server.c, old(client.server.blobs), client.server.blobs, {x, y})
    ensures client.server.reliable ==> r.Ok?
    ensures r.Ok? && client.server.thorough ==> HashesThere(client.server.c, client.server.blobs, {x, y})
  {
    hide Grown, Unanswered;
    var c := client.server.c;
    ghost var answers;
    BothSent(c, client.server.blobs, x, y);
    r, answers := client.UploadIfMissing([c.BlobOf(x), c.BlobOf(y)]);
    BothSent(c, client.server.blobs, x, y);
  }

  lemma SoFar(c: Codec, blobs: map<string, Bytes>, effect: Effect, opts: RunOptions)
    ensures Grown(c, blobs, blobs, {Joined(effect.stdout), Joined(effect.stderr)})
    ensures Grown(c, blobs, blobs, FileContents(effect.after, opts.outputFiles))
    ensures Grown(c, blobs, blobs, DirNeeds(c, []))
  {
  }

  lemma RunGrows(c: Codec, start: map<string, Bytes>, first: map<string, Bytes>, second: map<string, Bytes>,
      third: map<string, Bytes>, opts: RunOptions, effect: Effect, ess: seq<seq<Named>>)
    requires Grown(c, start, first, {Joined(effect.stdout), Joined(effect.stderr)})
    requires Grown(c, first, second, FileContents(effect.after, opts.outputFiles))
    requires Grown(c, second, third, DirNeeds(c, ess))
    ensures Grown(c, start, third, RunBlobs(c, opts, effect, ess))
  {
    hide FileContents, DirNeeds, Joined;
  }

  lemma AllThereNow(c: Codec, first: map<string, Bytes>, second: map<string, Bytes>, third: map<string, Bytes>,
      opts: RunOptions, effect: Effect, ess: seq<seq<Named>>)
    requires HashesThere(c, first, {Joined(effect.stdout), Joined(effect.stderr)})
    requires Grown(c, first, second, FileContents(effect.after, opts.outputFiles))
    requires HashesThere(c, second, FileContents(effect.after, opts.outputFiles))
    requires Grown(c, second, third, DirNeeds(c, ess))
    requires HashesThere(c, third, DirNeeds(c, ess))
    ensures HashesThere(c, third,
      {Joined(effect.stdout), Joined(effect.stderr)} + FileContents(effect.after, opts.outputFiles) + DirNeeds(c, ess))
  {
    hide FileContents, DirNeeds, Joined;
  }

  lemma DeclaredAreRelative(opts: RunOptions)
    requires AllRelative(opts)
    ensures forall i :: 0 <= i < |opts.outputFiles| ==> !Absolute(opts.outputFiles[i])
    ensures forall i :: 0 <= i < |opts.outputDirs| ==> !Absolute(opts.outputDirs[i])
  {
    forall i | 0 <= i < |opts.outputFiles| ensures !Absolute(opts.outputFiles[i]) {
      assert opts.outputFiles[i] in DeclaredPaths(opts);
    }
    forall i | 0 <= i < |opts.outputDirs| ensures !Absolute(opts.outputDirs[i]) {
      assert opts.outputDirs[i] in DeclaredPaths(opts);
    }
  }

  lemma RecordsAll(c: Codec, opts: RunOptions, effect: Effect, ess: seq<seq<Named>>, result: ActionResult)
    requires FilesRecorded(c, effect.after, opts.outputFiles, result.outputFiles)
    requires DirsRecorded(c, effect.after, opts.outputDirs, ess, result.outputDirectories)
    requires Exited(effect, result.exitCode)
    requires result == ActionResult(result.exitCode, [], Some(c.DigestOf(Joined(effect.stdout))),
      [], Some(c.DigestOf(Joined(effect.stderr))), result.outputFiles, result.outputDirectories)
    ensures Records(c, opts, effect, ess, result)
  {
  }

  /** Runs the command and sends all it produced. */
  method Execute(client: RemoteClient, host: Host, opts: RunOptions, effect: Effect)
    returns (r: Result<ActionResult, Error>, ghost ess: seq<seq<Named>>)
    requires client.server.Valid() && host.Valid() && Rooted(effect.after) && AllRelative(opts)
    modifies client.server`blobs, client.server`received, client.server`log
    modifies host, host.files, host.stdout, host.stderr
    ensures client.server.Valid() && host.Valid()
    ensures Grown(client.server.c, old(client.server.blobs), client.server.blobs,
                  RunBlobs(client.server.c, opts, effect, ess))
    ensures host.spawned == if effect.starts then old(host.spawned) + [opts.argv] else old(host.spawned)
    ensures host.files.entries == if effect.starts then effect.after else old(host.files.entries)
    ensures host.stdout.written == old(host.stdout.written) + if effect.starts then Joined(effect.stdout) else []
    ensures host.stderr.written == old(host.stderr.written) + if effect.starts then Joined(effect.stderr) else []
    ensures r.Ok? ==> effect.starts && Records(client.server.c, opts, effect, ess, r.value)
    ensures r.Ok? && client.server.thorough ==> HashesThere(client.server.c, client.server.blobs,
      {Joined(effect.stdout), Joined(effect.stderr)} + FileContents(effect.after, opts.outputFiles)
        + DirNeeds(client.server.c, ess))
    ensures client.server.reliable ==> (r.Ok? <==> effect.starts && Capturable(effect, opts))
    ensures Goes(client.server.c, client.server.thorough, opts, client.server.actions, old(client.server.blobs),
      At(Spawning), client.server.blobs, if r.Ok? then At(Collecting(r.value)) else Failed)
  {
    hide Grown, HashesThere, FileContents, DirNeeds, Records, FileRecorded, DirsRecorded, Rooted, RunBlobs, FileAt,
      DirAt, Goes;
    ghost var c, before, actions := client.server.c, client.server.blobs, client.server.actions;
    ghost var sure := client.server.thorough;
    Stays(c, sure, opts, actions, before, At(Spawning));
    GivesUp(c, sure, opts, actions, before, At(Spawning), before, At(Spawning));
    ess := [];
    var ran := SpawnAndTee(host, opts.argv, effect);
    SoFar(c, before, effect, opts);
    RunGrows(c, before, before, before, before, opts, effect, ess);
    if ran.Err? { return Err(ran.error), ess; }
    var (code, stdout, stderr) := ran.value;
    var sent := SendBoth(client, stdout, stderr);
    ghost var first := client.server.blobs;
    SoFar(c, first, effect, opts);
    RunGrows(c, before, first, first, first, opts, effect, ess);
    Spawns(c, sure, opts, actions, before, code, stdout, stderr, first, sent.Ok?);
    if sent.Err? { return Err(sent.error), ess; }
    DeclaredAreRelative(opts);
    ghost var base := StartResult(c, code, stdout, stderr);
    var files := CaptureFiles(client, host.files, opts, base);
    ghost var second := client.server.blobs;
    ghost var done := if files.Ok? then At(Collecting(base.(outputFiles := files.value))) else Failed;
    GoesOn(c, sure, opts, actions, before, At(Spawning), first, At(Collecting(base)), second, done);
    SoFar(c, second, effect, opts);
    RunGrows(c, before, first, second, second, opts, effect, ess);
    if files.Err? { return Err(files.error), ess; }
    var dirs: Result<seq<OutputDirectory>, Error>;
    base := base.(outputFiles := files.value);
    dirs, ess := CaptureDirectories(client, host.files, opts, base);
    ghost var third := client.server.blobs;
    done := if dirs.Ok? then At(Collecting(base.(outputDirectories := dirs.value))) else Failed;
    GoesOn(c, sure, opts, actions, before, At(Spawning), second, At(Collecting(base)), third, done);
    RunGrows(c, before, first, second, third, opts, effect, ess);
    if dirs.Err? { return Err(dirs.error), ess; }
    if sure { AllThereNow(c, first, second, third, opts, effect, ess); }
    r := Ok(ActionResult(code, [], Some(client.server.c.DigestOf(stdout)), [], Some(client.server.c.DigestOf(stderr)),
                         files.value, dirs.value));
    RecordsAll(c, opts, effect, ess, r.value);
  }

  lemma AllSent(c: Codec, sent: map<string, Bytes>, done: map<string, Bytes>, opts: RunOptions, effect: Effect,
      ess: seq<seq<Named>>)
    requires Grown(c, sent, done, RunBlobs(c, opts, effect, ess))
    requires HashesThere(c, sent, {CommandBytes(c, opts), ActionBytes(c, opts)})
    ensures Kept(sent, done) && sent.Keys <= done.Keys
    ensures
      HashesThere(c, done, {Joined(effect.stdout), Joined(effect.stderr)} +
        FileContents(effect.after, opts.outputFiles) + DirNeeds(c, ess)) ==>
        HashesThere(c, done, RunBlobs(c, opts, effect, ess))
  {
    hide FileContents, DirNeeds, Joined, CommandBytes, ActionBytes;
  }

  lemma SentOnly(c: Codec, start: map<string, Bytes>, sent: map<string, Bytes>, opts: RunOptions, effect: Effect)
    requires Grown(c, start, sent, {CommandBytes(c, opts), ActionBytes(c, opts)})
    ensures Grown(c, start, sent, RunBlobs(c, opts, effect, [])) && Kept(start, sent) && start.Keys <= sent.Keys
  {
  }

  /** A record that came with its streams filled in is as good as the stored one. */
  lemma InlinedReplays(c: Codec, blobs: map<string, Bytes>, stored: ActionResult, shown: ActionResult, ts: seq<Skel>)
    requires Inlined(blobs, stored, shown) && |ts| == |stored.outputDirectories|
    ensures Replayable(c, blobs, shown, ts) <==> Replayable(c, blobs, stored, ts)
    ensures stored.stdoutRaw == [] ==>
      StreamContent(blobs, shown.stdoutRaw, shown.stdoutDigest) == StreamContent(blobs, [], stored.stdoutDigest)
    ensures stored.stderrRaw == [] ==>
      StreamContent(blobs, shown.stderrRaw, shown.stderrDigest) == StreamContent(blobs, [], stored.stderrDigest)
  {
  }

  lemma WrittenBack(c: Codec, known: set<Bytes>, blobs: map<string, Bytes>, before: map<Digest, ActionResult>,
      after: map<Digest, ActionResult>, opts: RunOptions, effect: Effect, ess: seq<seq<Named>>, result: ActionResult)
    requires CacheBacked(c, known, blobs, before) && !opts.noCache
    requires Records(c, opts, effect, ess, result) && HashesThere(c, blobs, RunBlobs(c, opts, effect, ess))
    requires after == before || after == before[KeyOf(c, opts) := result]
    ensures CacheBacked(c, known + RunBlobs(c, opts, effect, ess), blobs, after)
  {
    hide KeyBacked, ResultBacked, Records, HashesThere, RunBlobs;
    RecordedIsBacked(c, blobs, opts, effect, ess, result);
    ResultStaysBacked(c, RunBlobs(c, opts, effect, ess), known + RunBlobs(c, opts, effect, ess), blobs, blobs, result);
    KeyStaysBacked(c, RunBlobs(c, opts, effect, ess), known + RunBlobs(c, opts, effect, ess), blobs, blobs,
                   KeyOf(c, opts));
    StaysBacked(c, known, known + RunBlobs(c, opts, effect, ess), blobs, blobs, before);
  }

  /** Whether a result recorded earlier is used. */
  ghost predicate Hit(c: Codec, opts: RunOptions, actions: map<Digest, ActionResult>) {
    !opts.noCache && KeyOf(c, opts) in actions
  }

  /** A change of the action cache can only be this run's own record. */
  ghost predicate OnlyRecorded(c: Codec, opts: RunOptions, effect: Effect, ess: seq<seq<Named>>,
      before: map<Digest, ActionResult>, after: map<Digest, ActionResult>)
  {
    after == before ||
    (!opts.noCache && KeyOf(c, opts) in after
      && after == before[KeyOf(c, opts) := after[KeyOf(c, opts)]]
      && Records(c, opts, effect, ess, after[KeyOf(c, opts)]))
  }

  /** What a hit comes to: no process is started, and the recorded result is replayed. */
  ghost predicate HitOutcome(c: Codec, blobs: map<string, Bytes>, stored: ActionResult, ts: seq<Skel>,
      before: Moment, after: Moment, r: Result<int, Error>)
    requires |ts| == |stored.outputDirectories|
  {
    && after.spawned == before.spawned
    && (r.Ok? ==> r.value == stored.exitCode)
    && (r.Ok? && stored.stdoutRaw == [] ==>
         after.stdout == before.stdout + StreamContent(blobs, [], stored.stdoutDigest))
    && (r.Ok? && stored.stderrRaw == [] ==>
         after.stderr == before.stderr + StreamContent(blobs, [], stored.stderrDigest))
    && (FreshTargets(before.files, stored.outputFiles, stored.outputDirectories) ==>
         && (r.Ok? ==>
              EverythingPut(before.files, after.files, blobs, stored.outputFiles, stored.outputDirectories, ts))
         && (r.Ok? <==> Replayable(c, blobs, stored, ts) && DistinctHashes(stored.outputFiles)))
  }

  /** What a hit comes to with any server: the stored exit code, output files that can be restored,
      and streams that are exactly what comes of the server's answers. */
  ghost predicate ReplayedFrom(reliable: bool, blobs: map<string, Bytes>, stored: ActionResult,
      before: Moment, after: Moment, code: int)
  {
    && code == stored.exitCode && after.spawned == before.spawned
    && Restorable(before.files, blobs, stored.outputFiles)
    && StreamsFrom(reliable, blobs, stored, before, after)
  }

  ghost predicate StreamsFrom(reliable: bool, blobs: map<string, Bytes>, stored: ActionResult,
      before: Moment, after: Moment)
  {
    exists cached, answers ::
      && Inlined(blobs, stored, cached)
      && StreamsAnswered(reliable, blobs, cached, answers)
      && StreamsWritten(cached, answers, before, after)
  }

  /** Replays what the server answered for a stored result. */
  method ReplayHit(client: RemoteClient, host: Host, cached: ActionResult, ghost stored: ActionResult,
      ghost ts: seq<Skel>)
    returns (r: Result<int, Error>)
    requires host.Valid() && Inlined(client.server.blobs, stored, cached)
    requires AllFinite(client.server.c, client.server.blobs, stored.outputDirectories)
    modifies host.files, host.stdout, host.stderr, client.server`log
    ensures host.Valid() && host.spawned == old(host.spawned)
    ensures r.Ok? ==>
      && r.value == stored.exitCode
      && ReplayedFrom(client.server.reliable, client.server.blobs, stored, old(host.Now()), host.Now(), r.value)
    ensures Known(client.server.c, client.server.blobs, stored.outputDirectories, ts) ==>
      && |ts| == |stored.outputDirectories|
      && (client.server.reliable ==>
           HitOutcome(client.server.c, client.server.blobs, stored, ts, old(host.Now()), host.Now(), r))
  {
    hide Known, Inlined, Replayable, DistinctHashes, FreshTargets, EverythingPut, StreamContent, AllDenote, Rooted,
      AllFinite, Restorable, StreamsAnswered, StreamsWritten;
    ghost var c, blobs := client.server.c, client.server.blobs;
    InlinedDirs(blobs, stored, cached);
    if Known(c, blobs, stored.outputDirectories, ts) {
      KnownDenotes(c, blobs, blobs, cached.outputDirectories, ts);
      DenotesMeans(c, blobs, cached.outputDirectories, ts);
      InlinedReplays(c, blobs, stored, cached, ts);
    }
    ghost var answers;
    var replayed: Result<(), Error>;
    replayed, answers := Replay(client, host, cached, ts);
    r := if replayed.Ok? then Ok(cached.exitCode) else Err(replayed.error);
  }

  /** The record of a run says how the command exited and has the digests of what it wrote. */
  ghost predicate RecordedRun(c: Codec, effect: Effect, result: ActionResult) {
    var stdout, stderr := Joined(effect.stdout), Joined(effect.stderr);
    && (forall n :: effect.code == Some(n) ==> result.exitCode == n)
    && (effect.code.None? ==> result.exitCode == -1)
    && result.stdoutRaw == [] && result.stdoutDigest == Some(Digest(c.hash(stdout), |stdout|))
    && result.stderrRaw == [] && result.stderrDigest == Some(Digest(c.hash(stderr), |stderr|))
  }

  /** A call that succeeds and has run a command has run this one, once, reports how it exited, and unless
      told not to has recorded it. */
  ghost predicate ReportsRun(c: Codec, opts: RunOptions, effect: Effect, actions: map<Digest, ActionResult>,
      before: seq<seq<string>>, after: seq<seq<string>>, r: Result<int, Error>)
  {
    r.Ok? && after != before ==>
      && effect.starts && after == before + [opts.argv]
      && (forall n :: effect.code == Some(n) ==> r.value == n) && (effect.code.None? ==> r.value == -1)
      && (!opts.noCache ==> KeyOf(c, opts) in actions && RecordedRun(c, effect, actions[KeyOf(c, opts)]))
  }

  /** What a miss comes to: the command runs, and succeeds exactly when it starts and leaves
      every declared output behind.  Then all it produced is in storage, and recorded. */
  ghost predicate MissOutcome(c: Codec, blobs: map<string, Bytes>, actions: map<Digest, ActionResult>,
      opts: RunOptions, effect: Effect, ess: seq<seq<Named>>, before: Moment, after: Moment, r: Result<int, Error>)
  {
    && (r.Ok? <==> effect.starts && Capturable(effect, opts))
    && (r.Ok? ==> Exited(effect, r.value) && HashesThere(c, blobs, RunBlobs(c, opts, effect, ess)))
    && (r.Ok? && !opts.noCache ==>
         KeyOf(c, opts) in actions && Records(c, opts, effect, ess, actions[KeyOf(c, opts)]))
    && after ==
         if effect.starts then
           Moment(effect.after, before.stdout + Joined(effect.stdout), before.stderr + Joined(effect.stderr),
                  before.spawned + [opts.argv])
         else before
  }

  /** Runs the command, and records the outcome unless told not to. */
  method RunAndRecord(client: RemoteClient, host: Host, opts: RunOptions, key: Digest, effect: Effect,
      ghost known: set<Bytes>, ghost start: map<string, Bytes>)
    returns (r: Result<int, Error>, ghost ess: seq<seq<Named>>)
    requires client.server.Valid() && host.Valid() && Rooted(effect.after) && AllRelative(opts)
    requires key == KeyOf(client.server.c, opts)
    requires client.server.thorough ==> HashesThere(client.server.c, client.server.blobs,
      {CommandBytes(client.server.c, opts), ActionBytes(client.server.c, opts)})
    requires Goes(client.server.c, client.server.thorough, opts, client.server.actions, start, Begin,
                  client.server.blobs, At(Spawning))
    modifies client.server, host, host.files, host.stdout, host.stderr
    ensures client.server.Valid() && host.Valid()
    ensures Simulated(client.server.c, client.server.thorough, opts, start, old(client.server.actions),
                      client.server.blobs, client.server.actions, r, host.spawned != old(host.spawned))
    ensures Grown(client.server.c, old(client.server.blobs), client.server.blobs,
                  RunBlobs(client.server.c, opts, effect, ess))
    ensures client.server.thorough ==>
      old(CacheBacked(client.server.c, known, client.server.blobs, client.server.actions)) ==>
      CacheBacked(client.server.c, known + RunBlobs(client.server.c, opts, effect, ess), client.server.blobs,
                  client.server.actions)
    ensures OnlyRecorded(client.server.c, opts, effect, ess, old(client.server.actions), client.server.actions)
    ensures r.Err? && client.server.reliable ==> client.server.actions == old(client.server.actions)
    ensures r.Ok? ==> host.spawned == old(host.spawned) + [opts.argv]
    ensures r.Ok? && !opts.noCache ==> KeyOf(client.server.c, opts) in client.server.actions
    ensures ReportsRun(client.server.c, opts, effect, client.server.actions, old(host.spawned), host.spawned, r)
    ensures client.server.reliable ==>
      MissOutcome(client.server.c, client.server.blobs, client.server.actions, opts, effect, ess,
                  old(host.Now()), host.Now(), r)
  {
    hide Grown, HashesThere, RunBlobs, Records, Capturable, CacheBacked, Rooted, AllRelative, CommandBytes, ActionBytes,
      Kept, FileContents, DirNeeds, Joined, Goes, Simulated, RecordedRun;
    ghost var c, sent, cache := client.server.c, client.server.blobs, client.server.actions;
    ghost var sure := client.server.thorough;
    ghost var backed := sure && CacheBacked(c, known, sent, cache);
    var result: Result<ActionResult, Error>;
    result, ess := Execute(client, host, opts, effect);
    ghost var done, more := client.server.blobs, known + RunBlobs(c, opts, effect, ess);
    GrownKeeps(c, sent, done, RunBlobs(c, opts, effect, ess));
    if sure { AllSent(c, sent, done, opts, effect, ess); }
    if backed {
      StaysBacked(c, known, known, sent, done, cache);
      StaysBacked(c, known, more, sent, done, cache);
    }
    GoesOn(c, sure, opts, cache, start, Begin, sent, At(Spawning), done,
           if result.Ok? then At(Collecting(result.value)) else Failed);
    if result.Err? {
      r := Err(result.error);
      EndsThere(c, sure, opts, start, cache, done, Failed, r, host.spawned != old(host.spawned));
      return;
    }
    AllCaptured(c, opts, effect, ess, result.value);
    ExitCodeRecorded(c, opts, effect, ess, result.value);
    if !opts.noCache {
      var updated := client.UpdateResult(key, result.value);
      if backed { WrittenBack(c, known, done, cache, client.server.actions, opts, effect, ess, result.value); }
      if updated.Err? {
        r := Err(updated.error);
        Concludes(c, sure, opts, start, cache, done, client.server.actions, result.value, r);
        return;
      }
    }
    r := Ok(result.value.exitCode);
    Concludes(c, sure, opts, start, cache, done, client.server.actions, result.value, r);
  }

  lemma AllCaptured(c: Codec, opts: RunOptions, effect: Effect, ess: seq<seq<Named>>, result: ActionResult)
    requires Records(c, opts, effect, ess, result)
    ensures Captured(opts, result)
  {
  }

  /** Replays a recorded result, or runs the command and records the outcome. */
  method RunCached(client: RemoteClient, host: Host, opts: RunOptions, effect: Effect, ghost known: set<Bytes>,
      ghost ts: seq<Skel>)
    returns (r: Result<int, Error>, ghost ess: seq<seq<Named>>)
    requires client.server.Valid() && host.Valid() && Rooted(effect.after)
    requires Hit(client.server.c, opts, client.server.actions) ==>
      FiniteAmong(client.server.c,
        client.server.blobs.Values + {CommandBytes(client.server.c, opts), ActionBytes(client.server.c, opts)},
        client.server.actions[KeyOf(client.server.c, opts)].outputDirectories)
    modifies client.server, host, host.files, host.stdout, host.stderr
    ensures client.server.Valid() && host.Valid()
    ensures Simulated(client.server.c, client.server.thorough, opts, old(client.server.blobs),
                      old(client.server.actions), client.server.blobs, client.server.actions, r,
                      host.spawned != old(host.spawned))
    ensures Grown(client.server.c, old(client.server.blobs), client.server.blobs,
                  RunBlobs(client.server.c, opts, effect, ess))
    ensures client.server.thorough ==>
      old(CacheBacked(client.server.c, known, client.server.blobs, client.server.actions)) ==>
      CacheBacked(client.server.c, known + RunBlobs(client.server.c, opts, effect, ess), client.server.blobs,
                  client.server.actions)
    ensures OnlyRecorded(client.server.c, opts, effect, ess, old(client.server.actions), client.server.actions)
    ensures r.Err? && client.server.reliable ==> client.server.actions == old(client.server.actions)
    ensures r.Ok? && !opts.noCache ==> KeyOf(client.server.c, opts) in client.server.actions
    ensures ReportsRun(client.server.c, opts, effect, client.server.actions, old(host.spawned), host.spawned, r)
    ensures r.Ok? && client.server.thorough ==> HashesThere(client.server.c, client.server.blobs,
      {CommandBytes(client.server.c, opts), ActionBytes(client.server.c, opts)})
    ensures !AllRelative(opts) ==>
      r.Err? && host.Now() == old(host.Now()) && client.server.actions == old(client.server.actions)
    ensures r.Ok? && host.spawned == old(host.spawned) ==>
      && old(Hit(client.server.c, opts, client.server.actions))
      && ReplayedFrom(client.server.reliable, client.server.blobs,
                      old(client.server.actions)[KeyOf(client.server.c, opts)], old(host.Now()), host.Now(), r.value)
    ensures client.server.reliable && AllRelative(opts) && old(Hit(client.server.c, opts, client.server.actions)) ==>
      && client.server.actions == old(client.server.actions) && host.spawned == old(host.spawned)
      && (old(Known(client.server.c, client.server.blobs,
                    client.server.actions[KeyOf(client.server.c, opts)].outputDirectories, ts)) ==>
           && |ts| == |old(client.server.actions)[KeyOf(client.server.c, opts)].outputDirectories|
           && HitOutcome(client.server.c, client.server.blobs,
                         old(client.server.actions)[KeyOf(client.server.c, opts)], ts, old(host.Now()), host.Now(), r))
    ensures client.server.reliable && AllRelative(opts) && !old(Hit(client.server.c, opts, client.server.actions)) ==>
      MissOutcome(client.server.c, client.server.blobs, client.server.actions, opts, effect, ess,
                  old(host.Now()), host.Now(), r)
  {
    hide Grown, HashesThere, RunBlobs, Records, CacheBacked, Known, Inlined, Rooted, AllRelative, CommandBytes,
      ActionBytes, Kept, HitOutcome, MissOutcome, OnlyRecorded, FiniteAmong, AllFinite, ReplayedFrom, Addressed,
      Goes, Simulated, ReportsRun;
    var c := client.server.c;
    ghost var key, start, cache := KeyOf(c, opts), client.server.blobs, client.server.actions;
    ghost var sure := client.server.thorough;
    ghost var backed := sure && CacheBacked(c, known, start, cache);
    ess := [];
    ghost var more := known + RunBlobs(c, opts, effect, ess);
    NothingGrown(c, start, RunBlobs(c, opts, effect, []));
    NothingRecorded(c, opts, effect, cache);
    NothingReported(c, opts, effect, cache, host.spawned);
    if backed { StaysBacked(c, known, more, start, start, cache); }
    var built := BuildAction(c, opts);
    if built.Err? {
      r := Err(built.error);
      StartsInVain(c, sure, opts, cache, start);
      EndsThere(c, sure, opts, start, cache, start, Failed, r, false);
      return;
    }
    var actionDigest := built.value.1.digest;
    var sent := SendBoth(client, built.value.0.data, built.value.1.data);
    ghost var blobs := client.server.blobs;
    SentOnly(c, start, blobs, opts, effect);
    if backed {
      StaysBacked(c, known, known, start, blobs, cache);
      StaysBacked(c, known, more, start, blobs, cache);
    }
    Starts(c, sure, opts, cache, start, blobs, sent.Ok?);
    if sent.Err? {
      r := Err(sent.error);
      EndsThere(c, sure, opts, start, cache, blobs, Failed, r, false);
      return;
    }
    if !opts.noCache {
      var looked := client.CachedResult(actionDigest);
      if looked.Err? {
        r := Err(looked.error);
        GivesUp(c, sure, opts, cache, start, Begin, blobs, At(Lookup));
        EndsThere(c, sure, opts, start, cache, blobs, Failed, r, false);
        return;
      }
      if looked.value.Some? {
        FiniteThen(c, start, blobs, {CommandBytes(c, opts), ActionBytes(c, opts)}, cache[key].outputDirectories);
        if Known(c, start, cache[key].outputDirectories, ts) {
          KnownDenotes(c, start, blobs, cache[key].outputDirectories, ts);
        }
        r := ReplayHit(client, host, looked.value.value, cache[key], ts);
        ReplayEnds(c, sure, opts, start, cache, blobs, r);
        return;
      }
    }
    LooksUp(c, sure, opts, cache, blobs);
    GoesOn(c, sure, opts, cache, start, Begin, blobs, At(Lookup), blobs, At(Spawning));
    r, ess := RunAndRecord(client, host, opts, actionDigest, effect, known, start);
    GrownKeeps(c, blobs, client.server.blobs, RunBlobs(c, opts, effect, ess));
    if sure { HashesStay(c, blobs, client.server.blobs, {CommandBytes(c, opts), ActionBytes(c, opts)}); }
    AllGrown(c, start, blobs, client.server.blobs, opts, effect, ess);
  }

  lemma ReplayEnds(c: Codec, sure: bool, opts: RunOptions, start: map<string, Bytes>,
      actions: map<Digest, ActionResult>, blobs: map<string, Bytes>, r: Result<int, Error>)
    requires Goes(c, sure, opts, actions, start, Begin, blobs, At(Lookup)) && Hit(c, opts, actions)
    requires r.Ok? ==> r.value == actions[KeyOf(c, opts)].exitCode
    ensures Simulated(c, sure, opts, start, actions, blobs, actions, r, false)
  {
    hide Goes, KeyOf, Simulated;
    var pc := if r.Ok? then Done(actions[KeyOf(c, opts)], true) else Failed;
    LooksUp(c, sure, opts, actions, blobs);
    GoesOn(c, sure, opts, actions, start, Begin, blobs, At(Lookup), blobs, pc);
    EndsThere(c, sure, opts, start, actions, blobs, pc, r, false);
  }

  lemma NothingReported(c: Codec, opts: RunOptions, effect: Effect, actions: map<Digest, ActionResult>,
      spawned: seq<seq<string>>)
    ensures forall r :: ReportsRun(c, opts, effect, actions, spawned, spawned, r)
  {
  }

  lemma NothingRecorded(c: Codec, opts: RunOptions, effect: Effect, actions: map<Digest, ActionResult>)
    ensures OnlyRecorded(c, opts, effect, [], actions, actions)
  {
  }

  lemma AllGrown(c: Codec, start: map<string, Bytes>, sent: map<string, Bytes>, done: map<string, Bytes>,
      opts: RunOptions, effect: Effect, ess: seq<seq<Named>>)
    requires Grown(c, start, sent, {CommandBytes(c, opts), ActionBytes(c, opts)})
    requires Grown(c, sent, done, RunBlobs(c, opts, effect, ess))
    ensures Grown(c, start, done, RunBlobs(c, opts, effect, ess))
  {
    hide FileContents, DirNeeds, Joined, CommandBytes, ActionBytes;
  }

  lemma InlinedDirs(blobs: map<string, Bytes>, stored: ActionResult, shown: ActionResult)
    requires Inlined(blobs, stored, shown)
    ensures shown.outputDirectories == stored.outputDirectories && shown.outputFiles == stored.outputFiles
    ensures shown.exitCode == stored.exitCode
  {
  }

  lemma ExitCodeRecorded(c: Codec, opts: RunOptions, effect: Effect, ess: seq<seq<Named>>, result: ActionResult)
    requires Records(c, opts, effect, ess, result)
    ensures RecordedRun(c, effect, result)
  {
  }
}
