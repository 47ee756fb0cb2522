/** Running a command and recording what it leaves behind. */
module Capture {
  import opened Names
  import opened Messages
  import opened Disk
  import opened Remote
  import opened Client
  import opened Upload
  import opened PathText
  import opened FileSystem
  import opened Machine
  import opened Run
  import opened Steps
  import opened Traces

  // ---------------------------------------------------------------- spawn_and_tee

  /** What running the command does: nothing is known about it beforehand.  A stream arrives in
      pieces; no exit code means that the process was killed. */
  datatype Effect = Effect(
    starts: bool, code: Option<int>, stdout: seq<Bytes>, stderr: seq<Bytes>, after: map<Path, Entry>)

  /** The exit code that is reported: the command's own, or -1 if it has none. */
  ghost predicate Exited(effect: Effect, code: int) {
    (forall n :: effect.code == Some(n) ==> code == n) && (effect.code.None? ==> code == -1)
  }

  /** Passes a stream on as it arrives, and keeps a copy. */
  method Pump(pieces: seq<Bytes>, out: Stream) returns (captured: Bytes)
    modifies out
    ensures captured == Joined(pieces)
    ensures out.written == old(out.written) + captured
  {
    captured := [];
    assert pieces[..0] == [];
    for i := 0 to |pieces|
      invariant captured == Joined(pieces[..i])
      invariant out.written == old(out.written) + captured
    {
      assert pieces[..i + 1][..i] == pieces[..i];
      out.WriteAll(pieces[i]);
      captured := captured + pieces[i];
    }
    assert pieces[..|pieces|] == pieces;
  }

  method SpawnAndTee(host: Host, argv: seq<string>, effect: Effect) returns (r: Result<(int, Bytes, Bytes), Error>)
    requires host.Valid() && Rooted(effect.after)
    modifies host, host.files, host.stdout, host.stderr
    ensures host.Valid()
    ensures r.Ok? <==> effect.starts
    ensures r.Err? ==> r.error == Io
    ensures r.Ok? ==> (forall n :: effect.code == Some(n) ==> r.value.0 == n) && (effect.code.None? ==> r.value.0 == -1)
    ensures r.Ok? ==> r.value.1 == Joined(effect.stdout) && r.value.2 == Joined(effect.stderr)
    ensures host.spawned == if effect.starts then old(host.spawned) + [argv] else old(host.spawned)
    ensures host.files.entries == if effect.starts then effect.after else old(host.files.entries)
    ensures host.stdout.written == old(host.stdout.written) + if effect.starts then Joined(effect.stdout) else []
    ensures host.stderr.written == old(host.stderr.written) + if effect.starts then Joined(effect.stderr) else []
  {
    if !effect.starts { return Err(Io); }
    host.spawned := host.spawned + [argv];
    host.files.entries := effect.after;
    var stdout := Pump(effect.stdout, host.stdout);
    var stderr := Pump(effect.stderr, host.stderr);
    var code := if effect.code.Some? then effect.code.value else -1;
    r := Ok((code, stdout, stderr));
  }

  // ---------------------------------------------------------------- capture_output_file

  /** What a declared path names: links on the way are followed, one at its end is not. */
  ghost function Output(entries: map<Path, Entry>, path: string): Option<Entry> {
    match Lstat(entries, path)
    case Found(_, entry) => Some(entry)
    case _ => None
  }

  /** Where that is. */
  ghost function OutputPlace(entries: map<Path, Entry>, path: string): Path {
    match Lstat(entries, path)
    case Found(place, _) => place
    case _ => []
  }

  ghost predicate FileAt(entries: map<Path, Entry>, path: string) {
    Output(entries, path).Some? && Output(entries, path).value.EFile?
  }

  ghost predicate DirAt(entries: map<Path, Entry>, path: string) { Output(entries, path) == Some(EDir) }

  ghost function FileContents(entries: map<Path, Entry>, paths: seq<string>): set<Bytes> {
    set i | 0 <= i < |paths| && FileAt(entries, paths[i]) :: Output(entries, paths[i]).value.content
  }

  /** The record says what the file is. */
  ghost predicate FileRecorded(c: Codec, entries: map<Path, Entry>, path: string, file: OutputFile) {
    && FileAt(entries, path)
    && file.path == path
    && file.digest == Some(c.DigestOf(Output(entries, path).value.content))
    && file.exec == OwnerExec(Output(entries, path).value.mode)
  }

  /** An output that is not there, and one that is a link, are told from all other failures. */
  ghost predicate CaptureErrors(entries: map<Path, Entry>, path: string, failed: bool, error: Error) {
    var found := Lstat(entries, path);
    && (found.NotFound? ==> failed && error == MissingOutput)
    && (found.Unreachable? ==> failed && error == Io)
    && (found.Found? && found.entry.ELink? ==> failed && error == UnsupportedOutput)
    && (failed && error == MissingOutput ==> found.NotFound?)
    && (failed && error == UnsupportedOutput ==> found.Found? && found.entry.ELink?)
  }

  method CaptureOutputFile(client: RemoteClient, files: Files, path: string) returns (r: Result<OutputFile, Error>)
    requires client.server.Valid() && Rooted(files.entries)
    modifies client.server`blobs, client.server`received, client.server`log
    ensures client.server.Valid()
    ensures Grown(client.server.c, old(client.server.blobs), client.server.blobs, FileContents(files.entries, [path]))
    ensures client.server.reliable ==> (r.Ok? <==> FileAt(files.entries, path) && !Absolute(path))
    ensures CaptureErrors(files.entries, path, r.Err?, if r.Err? then r.error else Io)
    ensures DirAt(files.entries, path) ==> r == Err(Io)
    ensures client.server.reliable && FileAt(files.entries, path) && r.Err? ==> r.error == InvalidPath
    ensures r.Ok? ==> FileRecorded(client.server.c, files.entries, path, r.value)
    ensures r.Ok? && client.server.thorough ==>
      HashesThere(client.server.c, client.server.blobs, FileContents(files.entries, [path]))
  {
    hide Grown, Spot, Unanswered;
    NothingGrown(client.server.c, client.server.blobs, FileContents(files.entries, [path]));
    var found := files.Inspect(path);
    if !found.Found? { return Err(if found.NotFound? then MissingOutput else Io); }
    match found.entry {
      case ELink(_) => return Err(UnsupportedOutput);
      case EDir => return Err(Io);
      case EFile(content, mode) =>
        var blob := client.server.c.BlobOf(content);
        OneFile(files.entries, path, blob);
        var sent: Result<(), Error>;
        ghost var answers;
        sent, answers := client.UploadIfMissing([blob]);
        if sent.Err? { return Err(sent.error); }
        if client.server.thorough { assert [blob][0].digest.hash in client.server.blobs; }
        var spelled := ReapiPath(path);
        if spelled.Err? { return Err(spelled.error); }
        r := Ok(OutputFile(spelled.value, Some(blob.digest), OwnerExec(mode)));
    }
  }

  lemma OneFile(entries: map<Path, Entry>, path: string, blob: Blob)
    requires FileAt(entries, path) && Output(entries, path).value.content == blob.data
    ensures FileContents(entries, [path]) == {blob.data} == DataOf([blob])
  {
    assert [path][0] == path && [blob][0] == blob;
  }

  ghost predicate FilesRecorded(c: Codec, entries: map<Path, Entry>, paths: seq<string>, files: seq<OutputFile>) {
    |files| == |paths| && forall i :: 0 <= i < |paths| ==> FileRecorded(c, entries, paths[i], files[i])
  }

  lemma FileContentsMore(entries: map<Path, Entry>, paths: seq<string>, i: nat)
    requires i < |paths|
    ensures FileContents(entries, paths[..i + 1]) ==
      FileContents(entries, paths[..i]) + FileContents(entries, [paths[i]])
    ensures FileContents(entries, paths[..i + 1]) <= FileContents(entries, paths)
  {
    hide Output, FileAt;
    var s, t := paths[..i], paths[..i + 1];
    assert forall k :: 0 <= k < i ==> s[k] == t[k] == paths[k];
    assert t[i] == paths[i] == [paths[i]][0];
  }

  lemma HashesMore(c: Codec, before: map<string, Bytes>, after: map<string, Bytes>, added: set<Bytes>,
      s: set<Bytes>, t: set<Bytes>)
    requires HashesThere(c, before, s) && Grown(c, before, after, added)
    ensures HashesThere(c, after, t) ==> HashesThere(c, after, s + t)
    ensures HashesThere(c, after, s)
  {
  }

  /** Captures the declared files one after the other, after what `base` says. */
  method CaptureFiles(client: RemoteClient, files: Files, opts: RunOptions, ghost base: ActionResult)
    returns (r: Result<seq<OutputFile>, Error>)
    requires client.server.Valid() && Rooted(files.entries) && base.outputFiles == []
    modifies client.server`blobs, client.server`received, client.server`log
    ensures client.server.Valid()
    ensures Grown(client.server.c, old(client.server.blobs), client.server.blobs,
                  FileContents(files.entries, opts.outputFiles))
    ensures client.server.reliable ==>
      (r.Ok? <==> forall path :: path in opts.outputFiles ==> FileAt(files.entries, path) && !Absolute(path))
    ensures r.Ok? ==> FilesRecorded(client.server.c, files.entries, opts.outputFiles, r.value)
    ensures r.Ok? && client.server.thorough ==>
      HashesThere(client.server.c, client.server.blobs, FileContents(files.entries, opts.outputFiles))
    ensures Goes(client.server.c, client.server.thorough, opts, client.server.actions, old(client.server.blobs),
      At(Collecting(base)), client.server.blobs,
      if r.Ok? then At(Collecting(base.(outputFiles := r.value))) else Failed)
  {
    hide Grown, HashesThere, FileContents, FileRecorded, Absolute, FileAt, Rooted, Goes;
    var c := client.server.c;
    var paths := opts.outputFiles;
    ghost var before, entries, actions := client.server.blobs, files.entries, client.server.actions;
    ghost var sure := client.server.thorough;
    var captured: seq<OutputFile> := [];
    assert paths[..0] == [];
    NoFiles(c, before, entries);
    assert base.(outputFiles := captured) == base;
    Stays(c, sure, opts, actions, before, At(Collecting(base)));
    for i := 0 to |paths|
      invariant client.server.Valid()
      invariant Goes(c, sure, opts, actions, before, At(Collecting(base)), client.server.blobs,
                     At(Collecting(base.(outputFiles := captured))))
      invariant Grown(c, before, client.server.blobs, FileContents(entries, paths[..i]))
      invariant client.server.thorough ==> HashesThere(c, client.server.blobs, FileContents(entries, paths[..i]))
      invariant FilesRecorded(c, entries, paths[..i], captured)
      invariant client.server.reliable ==> forall k :: 0 <= k < i ==> FileAt(entries, paths[k]) && !Absolute(paths[k])
    {
      ghost var was := client.server.blobs;
      var file := CaptureOutputFile(client, files, paths[i]);
      FileGoes(c, sure, opts, actions, entries, was, base, captured, client.server.blobs, file);
      GoesOn(c, sure, opts, actions, before, At(Collecting(base)), was, At(Collecting(base.(outputFiles := captured))),
             client.server.blobs,
             if file.Ok? then At(Collecting(base.(outputFiles := captured + [file.value]))) else Failed);
      FileContentsMore(entries, paths, i);
      GrownTransitive(c, before, was, client.server.blobs, FileContents(entries, paths[..i]),
                      FileContents(entries, [paths[i]]));
      if client.server.thorough {
        HashesMore(c, was, client.server.blobs, FileContents(entries, [paths[i]]), FileContents(entries, paths[..i]),
                   FileContents(entries, [paths[i]]));
      }
      if file.Err? {
        GrownWiden(c, before, client.server.blobs, FileContents(entries, paths[..i + 1]), FileContents(entries, paths));
        return Err(file.error);
      }
      captured := captured + [file.value];
    }
    assert paths[..|paths|] == paths;
    r := Ok(captured);
  }

  /** Capturing one more file is one move and the sending of its content. */
  lemma FileGoes(c: Codec, sure: bool, opts: RunOptions, actions: map<Digest, ActionResult>, entries: map<Path, Entry>,
      before: map<string, Bytes>, base: ActionResult, captured: seq<OutputFile>, after: map<string, Bytes>,
      r: Result<OutputFile, Error>)
    requires |captured| < |opts.outputFiles|
    requires var path := opts.outputFiles[|captured|];
      && Grown(c, before, after, FileContents(entries, [path]))
      && (r.Ok? ==> FileRecorded(c, entries, path, r.value))
      && (r.Ok? && sure ==> HashesThere(c, after, FileContents(entries, [path])))
    ensures Goes(c, sure, opts, actions, before, At(Collecting(base.(outputFiles := captured))), after,
      if r.Ok? then At(Collecting(base.(outputFiles := captured + [r.value]))) else Failed)
  {
    hide HashesThere, Goes, Lstat;
    var path, now := opts.outputFiles[|captured|], base.(outputFiles := captured);
    if FileAt(entries, path) {
      var entry := Output(entries, path).value;
      OneFile(entries, path, c.BlobOf(entry.content));
      CapturesFile(c, sure, opts, actions, before, now, entry.content, OwnerExec(entry.mode), after, r.Ok?);
    } else {
      assert before == after;
      Stays(c, sure, opts, actions, before, At(Collecting(now)));
      GivesUp(c, sure, opts, actions, before, At(Collecting(now)), before, At(Collecting(now)));
    }
  }

  lemma NoFiles(c: Codec, blobs: map<string, Bytes>, entries: map<Path, Entry>)
    ensures Grown(c, blobs, blobs, FileContents(entries, []))
    ensures HashesThere(c, blobs, FileContents(entries, []))
  {
  }

  // ---------------------------------------------------------------- capture_output_directory

  /** The record says what the directory is, as listed in `es`. */
  ghost predicate DirRecorded(c: Codec, entries: map<Path, Entry>, path: string, es: seq<Named>, dir: OutputDirectory) {
    && Listed(entries, OutputPlace(entries, path), OnDir(es))
    && dir == OutputDirectory(path, Some(Uploaded(c, es).treeDigest), Some(Uploaded(c, es).rootDigest))
  }

  method CaptureOutputDirectory(client: RemoteClient, files: Files, path: string)
    returns (r: Result<OutputDirectory, Error>, ghost es: seq<Named>)
    requires client.server.Valid() && Rooted(files.entries)
    modifies client.server`blobs, client.server`received, client.server`log
    ensures client.server.Valid()
    ensures Grown(client.server.c, old(client.server.blobs), client.server.blobs, Needed(client.server.c, es))
    ensures client.server.reliable ==> (r.Ok? <==> DirAt(files.entries, path) && !Absolute(path))
    ensures CaptureErrors(files.entries, path, r.Err?, if r.Err? then r.error else Io)
    ensures FileAt(files.entries, path) ==> r == Err(Io)
    ensures client.server.reliable && DirAt(files.entries, path) && r.Err? ==> r.error == InvalidPath
    ensures DirAt(files.entries, path) ==> Listed(files.entries, OutputPlace(files.entries, path), OnDir(es))
    ensures Genuine(OnDir(es))
    ensures r.Ok? ==> DirRecorded(client.server.c, files.entries, path, es, r.value)
    ensures r.Ok? && client.server.thorough ==>
      HashesThere(client.server.c, client.server.blobs, Needed(client.server.c, es))
  {
    hide Grown, Needed, Listed, Rooted, SentOnlyNew, HashesThere, Uploaded, Spot, Disk.WellFormed, Spelled, BlobsThere;
    NothingListed();
    es := [];
    NothingGrown(client.server.c, client.server.blobs, Needed(client.server.c, []));
    var found := files.Inspect(path);
    if !found.Found? { return Err(if found.NotFound? then MissingOutput else Io), es; }
    if found.entry.ELink? { return Err(UnsupportedOutput), es; }
    if found.entry.EFile? { return Err(Io), es; }
    PlaceIsThere(files.entries, path);
    var listing := files.Read(found.place);
    es := listing.entries;
    ListedIsGenuine(files.entries, found.place, listing);
    var uploaded: Result<UploadedTree, Error>;
    ghost var asked;
    uploaded, asked := UploadDirectory(client, listing);
    if uploaded.Err? { return Err(uploaded.error), es; }
    var spelled := ReapiPath(path);
    if spelled.Err? { return Err(spelled.error), es; }
    r := Ok(OutputDirectory(spelled.value, Some(uploaded.value.treeDigest), Some(uploaded.value.rootDigest)));
  }

  lemma NothingListed()
    ensures Genuine(OnDir([]))
  {
  }

  lemma PlaceIsThere(entries: map<Path, Entry>, path: string)
    ensures Lstat(entries, path).Found? ==>
      Lstat(entries, path).place in entries && entries[Lstat(entries, path).place] == Lstat(entries, path).entry
  {
  }

  lemma ListedIsGenuine(entries: map<Path, Entry>, p: Path, l: Listing)
    requires Listed(entries, p, l)
    ensures Genuine(l) && Disk.WellFormed(l)
  {
  }

  ghost function DirNeeds(c: Codec, ess: seq<seq<Named>>): set<Bytes> {
    if ess == [] then {} else DirNeeds(c, ess[..|ess| - 1]) + Needed(c, ess[|ess| - 1])
  }

  ghost predicate DirsRecorded(c: Codec, entries: map<Path, Entry>, paths: seq<string>, ess: seq<seq<Named>>,
      dirs: seq<OutputDirectory>)
  {
    |dirs| == |ess| == |paths| && forall i :: 0 <= i < |paths| ==> DirRecorded(c, entries, paths[i], ess[i], dirs[i])
  }

  /** Captures the declared directories one after the other, after what `base` says. */
  method CaptureDirectories(client: RemoteClient, files: Files, opts: RunOptions, ghost base: ActionResult)
    returns (r: Result<seq<OutputDirectory>, Error>, ghost ess: seq<seq<Named>>)
    requires client.server.Valid() && Rooted(files.entries)
    requires |base.outputFiles| == |opts.outputFiles| && base.outputDirectories == []
    modifies client.server`blobs, client.server`received, client.server`log
    ensures client.server.Valid()
    ensures Grown(client.server.c, old(client.server.blobs), client.server.blobs, DirNeeds(client.server.c, ess))
    ensures client.server.reliable ==>
      (r.Ok? <==> forall path :: path in opts.outputDirs ==> DirAt(files.entries, path) && !Absolute(path))
    ensures r.Ok? ==> DirsRecorded(client.server.c, files.entries, opts.outputDirs, ess, r.value)
    ensures r.Ok? && client.server.thorough ==>
      HashesThere(client.server.c, client.server.blobs, DirNeeds(client.server.c, ess))
    ensures Goes(client.server.c, client.server.thorough, opts, client.server.actions, old(client.server.blobs),
      At(Collecting(base)), client.server.blobs,
      if r.Ok? then At(Collecting(base.(outputDirectories := r.value))) else Failed)
  {
    hide Grown, HashesThere, Needed, DirRecorded, Absolute, DirAt, Rooted, Listed, DirNeeds, CaptureErrors, OutputPlace,
      Goes, Genuine;
    var c := client.server.c;
    var paths := opts.outputDirs;
    ghost var before, entries, actions := client.server.blobs, files.entries, client.server.actions;
    ghost var sure := client.server.thorough;
    var captured: seq<OutputDirectory> := [];
    ess := [];
    NoDirectories(c, before);
    assert base.(outputDirectories := captured) == base;
    Stays(c, sure, opts, actions, before, At(Collecting(base)));
    for i := 0 to |paths|
      invariant client.server.Valid()
      invariant Goes(c, sure, opts, actions, before, At(Collecting(base)), client.server.blobs,
                     At(Collecting(base.(outputDirectories := captured))))
      invariant Grown(c, before, client.server.blobs, DirNeeds(c, ess))
      invariant client.server.thorough ==> HashesThere(c, client.server.blobs, DirNeeds(c, ess))
      invariant DirsRecorded(c, entries, paths[..i], ess, captured)
      invariant client.server.reliable ==> forall k :: 0 <= k < i ==> DirAt(entries, paths[k]) && !Absolute(paths[k])
    {
      ghost var was, es := client.server.blobs, [];
      var dir: Result<OutputDirectory, Error>;
      dir, es := CaptureOutputDirectory(client, files, paths[i]);
      DirGoes(c, sure, opts, actions, entries, was, base, captured, client.server.blobs, es, dir);
      GoesOn(c, sure, opts, actions, before, At(Collecting(base)), was,
             At(Collecting(base.(outputDirectories := captured))), client.server.blobs,
             if dir.Ok? then At(Collecting(base.(outputDirectories := captured + [dir.value]))) else Failed);
      DirectoryMore(c, before, was, client.server.blobs, ess, es);
      ess := ess + [es];
      if dir.Err? { return Err(dir.error), ess; }
      captured := captured + [dir.value];
    }
    assert paths[..|paths|] == paths;
    r := Ok(captured);
  }

  /** Capturing one more directory is one move and the sending of its blobs. */
  lemma DirGoes(c: Codec, sure: bool, opts: RunOptions, actions: map<Digest, ActionResult>, entries: map<Path, Entry>,
      before: map<string, Bytes>, base: ActionResult, captured: seq<OutputDirectory>, after: map<string, Bytes>,
      es: seq<Named>, r: Result<OutputDirectory, Error>)
    requires |base.outputFiles| == |opts.outputFiles| && |captured| < |opts.outputDirs|
    requires Genuine(OnDir(es)) && Grown(c, before, after, Needed(c, es))
    requires r.Ok? ==> DirRecorded(c, entries, opts.outputDirs[|captured|], es, r.value)
    requires r.Ok? && sure ==> HashesThere(c, after, Needed(c, es))
    ensures Goes(c, sure, opts, actions, before, At(Collecting(base.(outputDirectories := captured))), after,
      if r.Ok? then At(Collecting(base.(outputDirectories := captured + [r.value]))) else Failed)
  {
    hide HashesThere, Grown, Goes, Lstat, Needed, Listed, Genuine, Uploaded;
    CapturesDirectory(c, sure, opts, actions, before, base.(outputDirectories := captured), es, after, r.Ok?);
  }

  lemma DirectoryMore(c: Codec, before: map<string, Bytes>, was: map<string, Bytes>, now: map<string, Bytes>,
      ess: seq<seq<Named>>, es: seq<Named>)
    requires Grown(c, before, was, DirNeeds(c, ess)) && Grown(c, was, now, Needed(c, es))
    ensures Grown(c, before, now, DirNeeds(c, ess + [es]))
    ensures HashesThere(c, was, DirNeeds(c, ess)) && HashesThere(c, now, Needed(c, es)) ==>
      HashesThere(c, now, DirNeeds(c, ess + [es]))
  {
    hide Grown, HashesThere, Needed;
    assert (ess + [es])[..|ess|] == ess;
    assert DirNeeds(c, ess + [es]) == DirNeeds(c, ess) + Needed(c, es);
    GrownTransitive(c, before, was, now, DirNeeds(c, ess), Needed(c, es));
    if HashesThere(c, was, DirNeeds(c, ess)) {
      HashesMore(c, was, now, Needed(c, es), DirNeeds(c, ess), Needed(c, es));
    }
  }

  lemma NoDirectories(c: Codec, blobs: map<string, Bytes>)
    ensures Grown(c, blobs, blobs, DirNeeds(c, [])) && HashesThere(c, blobs, DirNeeds(c, []))
  {
  }
}
