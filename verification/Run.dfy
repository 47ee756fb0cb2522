/** What is run: the `Command` and `Action` messages of a cached run, and its cache key. */
module Run {
  import opened Names
  import opened Messages
  import opened PathText

  datatype RunOptions = RunOptions(
    inputRoot: Digest, argv: seq<string>, outputFiles: seq<string>, outputDirs: seq<string>, noCache: bool)

  /** A path as messages spell it; absolute paths are refused. */
  function ReapiPath(path: string): (r: Result<string, Error>)
    ensures r.Ok? <==> !Absolute(path)
    ensures r.Ok? ==> r.value == path
  {
    if Absolute(path) then Err(InvalidPath) else Ok(path)
  }

  // ---------------------------------------------------------------- sort and dedup

  function Itself(s: string): string { s }

  predicate Ascending(s: seq<string>) {
    forall i, j :: 0 <= i < j < |s| ==> !Lt(s[j], s[i])
  }

  lemma NotBefore(a: string, b: string, d: string)
    requires !Lt(b, a) && !Lt(d, b)
    ensures !Lt(d, a)
  {
    LtTotal(a, b);
    LtTotal(b, d);
    if Lt(d, a) {
      if Lt(a, b) { LtTransitive(d, a, b); }
    }
  }

  lemma {:induction false} InsertAscending(x: string, s: seq<string>)
    requires Ascending(s)
    ensures Ascending(InsertBy(x, s, Itself))
  {
    if s != [] {
      var r := InsertBy(x, s, Itself);
      if Lt(x, s[0]) {
        LtAsymmetric(x, s[0]);
        forall j | 0 <= j < |s| ensures !Lt(s[j], x) {
          if j > 0 { NotBefore(x, s[0], s[j]); }
        }
      } else {
        InsertAscending(x, s[1..]);
        InsertByElements(x, s[1..], Itself);
        var t := InsertBy(x, s[1..], Itself);
        forall j | 0 <= j < |t| ensures !Lt(t[j], s[0]) {
          assert t[j] in multiset(t);
          assert t[j] == x || t[j] in s[1..];
        }
      }
    }
  }

  lemma {:induction false} SortAscends(s: seq<string>)
    ensures Ascending(SortBy(s, Itself))
  {
    if s != [] {
      SortAscends(s[..|s| - 1]);
      InsertAscending(s[|s| - 1], SortBy(s[..|s| - 1], Itself));
    }
  }

  /** `Vec::dedup`: drops each element equal to the one kept before it. */
  method Dedup(s: seq<string>) returns (r: seq<string>)
    requires Ascending(s)
    ensures StrictlySorted(r) && forall x :: x in r <==> x in s
  {
    r := [];
    for i := 0 to |s|
      invariant StrictlySorted(r) && forall x :: x in r <==> x in s[..i]
      invariant if i == 0 then r == [] else r != [] && r[|r| - 1] == s[i - 1]
    {
      assert s[..i + 1] == s[..i] + [s[i]];
      if i == 0 || s[i] != r[|r| - 1] {
        forall k | 0 <= k < |r| ensures Lt(r[k], s[i]) {
          assert !Lt(s[i], s[i - 1]);
          LtTotal(r[|r| - 1], s[i]);
          if k < |r| - 1 { LtTransitive(r[k], r[|r| - 1], s[i]); }
        }
        r := r + [s[i]];
      }
    }
    assert s[..|s|] == s;
  }

  // ---------------------------------------------------------------- build_action

  function DeclaredPaths(opts: RunOptions): set<string> {
    (set p | p in opts.outputFiles) + set p | p in opts.outputDirs
  }

  predicate AllRelative(opts: RunOptions) {
    forall p :: p in DeclaredPaths(opts) ==> !Absolute(p)
  }

  function CommandOf(opts: RunOptions): Command { Command(opts.argv, InOrder(DeclaredPaths(opts))) }

  function CommandBytes(c: Codec, opts: RunOptions): Bytes { c.encodeCommand(CommandOf(opts)) }

  function ActionOf(c: Codec, opts: RunOptions): Action {
    Action(c.DigestOf(CommandBytes(c, opts)), opts.inputRoot, opts.noCache)
  }

  function ActionBytes(c: Codec, opts: RunOptions): Bytes { c.encodeAction(ActionOf(c, opts)) }

  /** The key under which a run's result is recorded. */
  function KeyOf(c: Codec, opts: RunOptions): Digest { c.DigestOf(ActionBytes(c, opts)) }

  /** The two blobs of a run.  The first is a command: its arguments, and each declared output once, in the
      order of names.  The second is an action: that command by its digest, the input root, and whether
      the result may be cached. */
  ghost predicate TellsRun(c: Codec, opts: RunOptions, first: Blob, second: Blob) {
    && first.digest == Digest(c.hash(first.data), |first.data|)
    && second.digest == Digest(c.hash(second.data), |second.data|)
    && exists command: Command, action: Action ::
         && first.data == c.encodeCommand(command) && second.data == c.encodeAction(action)
         && command.arguments == opts.argv
         && (forall i, j :: 0 <= i < j < |command.outputPaths| ==>
              Before(command.outputPaths[i], command.outputPaths[j]))
         && (forall p :: p in command.outputPaths <==> p in opts.outputFiles || p in opts.outputDirs)
         && action.commandDigest == first.digest
         && action.inputRoot == opts.inputRoot
         && action.doNotCache == opts.noCache
  }

  lemma AscendsByName(s: seq<string>)
    ensures StrictlySorted(s) <==> forall i, j :: 0 <= i < j < |s| ==> Before(s[i], s[j])
  {
    hide Lt, Before;
    forall i, j | 0 <= i < j < |s| ensures Lt(s[i], s[j]) <==> Before(s[i], s[j]) { LtIsBefore(s[i], s[j]); }
  }

  /** There are no other two blobs that tell of a run than its own. */
  lemma TellsRunExactly(c: Codec, opts: RunOptions, first: Blob, second: Blob)
    ensures TellsRun(c, opts, first, second) <==>
      first == c.BlobOf(CommandBytes(c, opts)) && second == c.BlobOf(ActionBytes(c, opts))
  {
    hide Before, StrictlySorted;
    var own, paths := CommandOf(opts), InOrder(DeclaredPaths(opts));
    AscendsByName(paths);
    assert forall p :: p in paths <==> p in opts.outputFiles || p in opts.outputDirs;
    if TellsRun(c, opts, first, second) {
      var command: Command, action: Action :|
        && first.data == c.encodeCommand(command) && second.data == c.encodeAction(action)
        && command.arguments == opts.argv
        && (forall i, j :: 0 <= i < j < |command.outputPaths| ==>
             Before(command.outputPaths[i], command.outputPaths[j]))
        && (forall p :: p in command.outputPaths <==> p in opts.outputFiles || p in opts.outputDirs)
        && action.commandDigest == first.digest
        && action.inputRoot == opts.inputRoot
        && action.doNotCache == opts.noCache;
      AscendsByName(command.outputPaths);
      SortedUnique(command.outputPaths, paths);
      assert command == own && action == ActionOf(c, opts);
    }
    if first == c.BlobOf(CommandBytes(c, opts)) && second == c.BlobOf(ActionBytes(c, opts)) {
      assert first.data == c.encodeCommand(own) && second.data == c.encodeAction(ActionOf(c, opts));
    }
  }

  /** What can be read back from the two blobs. */
  lemma RunReadBack(c: Codec, opts: RunOptions, first: Blob, second: Blob)
    requires c.Lawful() && TellsRun(c, opts, first, second)
    ensures c.decodeCommand(first.data).Some? && c.decodeAction(second.data).Some?
    ensures var command, action := c.decodeCommand(first.data).value, c.decodeAction(second.data).value;
      && command.arguments == opts.argv
      && (forall i, j :: 0 <= i < j < |command.outputPaths| ==>
           Before(command.outputPaths[i], command.outputPaths[j]))
      && (forall p :: p in command.outputPaths <==> p in opts.outputFiles || p in opts.outputDirs)
      && action.commandDigest == first.digest
      && action.inputRoot == opts.inputRoot
      && action.doNotCache == opts.noCache
  {
    hide Before;
  }

  lemma RelativeMeans(opts: RunOptions)
    ensures AllRelative(opts) <==>
      forall p :: p in opts.outputFiles || p in opts.outputDirs ==> p == "" || p[0] != '/'
  {
    if AllRelative(opts) {
      forall p | p in opts.outputFiles || p in opts.outputDirs ensures p == "" || p[0] != '/' {
        assert p in DeclaredPaths(opts);
      }
    }
  }

  /** Builds the two messages of a run.  It fails exactly for an absolute path among the outputs. */
  method BuildAction(c: Codec, opts: RunOptions) returns (r: Result<(Blob, Blob), Error>)
    ensures r.Ok? <==>
      forall p :: p in opts.outputFiles || p in opts.outputDirs ==> p == "" || p[0] != '/'
    ensures r.Ok? <==> AllRelative(opts)
    ensures r.Err? ==> r.error == InvalidPath
    ensures r.Ok? ==> r.value == (c.BlobOf(CommandBytes(c, opts)), c.BlobOf(ActionBytes(c, opts)))
    ensures r.Ok? ==> TellsRun(c, opts, r.value.0, r.value.1)
    ensures r.Ok? && c.Lawful() ==>
      && c.decodeCommand(r.value.0.data).Some? && c.decodeAction(r.value.1.data).Some?
      && c.decodeCommand(r.value.0.data).value.arguments == opts.argv
      && c.decodeAction(r.value.1.data).value == Action(
           commandDigest := r.value.0.digest, inputRoot := opts.inputRoot, doNotCache := opts.noCache)
  {
    hide TellsRun;
    RelativeMeans(opts);
    var chained := opts.outputFiles + opts.outputDirs;
    var outputPaths: seq<string> := [];
    for i := 0 to |chained|
      invariant outputPaths == chained[..i]
      invariant forall k :: 0 <= k < i ==> !Absolute(chained[k])
    {
      var path := ReapiPath(chained[i]);
      if path.Err? {
        assert chained[i] in DeclaredPaths(opts);
        return Err(path.error);
      }
      outputPaths := outputPaths + [path.value];
    }
    SortAscends(outputPaths);
    var sorted := SortBy(outputPaths, Itself);
    var deduped := Dedup(sorted);
    forall p ensures p in deduped <==> p in InOrder(DeclaredPaths(opts)) {
      SortByMembers(outputPaths, Itself, p);
      assert p in chained <==> p in opts.outputFiles || p in opts.outputDirs;
    }
    SortedUnique(deduped, InOrder(DeclaredPaths(opts)));
    forall p | p in DeclaredPaths(opts) ensures !Absolute(p) {
      assert p in chained;
    }
    var command := Command(opts.argv, deduped);
    var commandBlob := c.BlobOf(c.encodeCommand(command));
    var action := Action(commandBlob.digest, opts.inputRoot, opts.noCache);
    r := Ok((commandBlob, c.BlobOf(c.encodeAction(action))));
    TellsRunExactly(c, opts, r.value.0, r.value.1);
    if c.Lawful() { RunReadBack(c, opts, r.value.0, r.value.1); }
  }

  /** The key of a run: the digest of the second blob. */
  method ActionDigest(c: Codec, opts: RunOptions) returns (r: Result<Digest, Error>)
    ensures r.Ok? <==>
      forall p :: p in opts.outputFiles || p in opts.outputDirs ==> p == "" || p[0] != '/'
    ensures r.Ok? ==> r.value == KeyOf(c, opts)
    ensures r.Ok? ==> exists first, second :: TellsRun(c, opts, first, second) && r.value == second.digest
  {
    hide TellsRun;
    var built := BuildAction(c, opts);
    r := if built.Ok? then Ok(built.value.1.digest) else Err(built.error);
  }

  /** Without a collision among the four messages, two runs share a cache key exactly when they
      agree on the command line, the input root, the no-cache flag and the set of declared
      outputs, files and directories taken together. */
  lemma KeyCharacterisesRun(c: Codec, a: RunOptions, b: RunOptions)
    requires c.Lawful()
    requires c.NoCollision({CommandBytes(c, a), CommandBytes(c, b), ActionBytes(c, a), ActionBytes(c, b)})
    ensures KeyOf(c, a) == KeyOf(c, b) <==>
      && a.argv == b.argv
      && a.inputRoot == b.inputRoot
      && a.noCache == b.noCache
      && DeclaredPaths(a) == DeclaredPaths(b)
  {
    assert c.decodeAction(ActionBytes(c, a)) == Some(ActionOf(c, a));
    assert c.decodeAction(ActionBytes(c, b)) == Some(ActionOf(c, b));
    assert c.decodeCommand(CommandBytes(c, a)) == Some(CommandOf(a));
    assert c.decodeCommand(CommandBytes(c, b)) == Some(CommandOf(b));
    if CommandOf(a) == CommandOf(b) {
      forall p ensures p in DeclaredPaths(a) <==> p in DeclaredPaths(b) {
        assert p in DeclaredPaths(a) <==> p in InOrder(DeclaredPaths(a));
        assert p in DeclaredPaths(b) <==> p in InOrder(DeclaredPaths(b));
      }
    }
  }
}
