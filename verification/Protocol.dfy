/** Any number of `run_cached` clients, interleaved step by step over one storage and one
    action cache.  A client may fail, and the server may fail it, at any point. */
module Protocol {
  import opened Names
  import opened Messages
  import opened Merkle
  import opened Disk
  import opened Remote
  import opened Client
  import opened Upload
  import opened FileSystem
  import opened Machine
  import opened Run
  import opened Restore
  import opened Caching
  import opened Steps

  // ---------------------------------------------------------------- the invariant

  /** Storage as it will be once the blobs of `left` have arrived. */
  ghost function Promised(c: Codec, blobs: map<string, Bytes>, left: set<Bytes>): (r: map<string, Bytes>)
    ensures r.Keys == blobs.Keys + set b | b in left :: c.hash(b)
  {
    MapOf(blobs.Keys + (set b | b in left :: c.hash(b)), (h: string) => [])
  }

  /** The outputs captured so far are the declared ones, in order. */
  ghost predicate Declares(opts: RunOptions, r: ActionResult) {
    && |r.outputFiles| <= |opts.outputFiles| && |r.outputDirectories| <= |opts.outputDirs|
    && (forall k :: 0 <= k < |r.outputFiles| ==> r.outputFiles[k].path == opts.outputFiles[k])
    && (forall k :: 0 <= k < |r.outputDirectories| ==> r.outputDirectories[k].path == opts.outputDirs[k])
  }

  /** What storage holds by the time a client reaches a stage. */
  ghost predicate StageBacked(c: Codec, sure: bool, all: set<Bytes>, blobs: map<string, Bytes>, opts: RunOptions,
      stage: Stage)
  {
    && (sure ==>
         && {CommandBytes(c, opts), ActionBytes(c, opts)} <= all
         && HashesThere(c, blobs, {CommandBytes(c, opts), ActionBytes(c, opts)}))
    && (stage.Collecting? ==> Declares(opts, stage.result) && (sure ==> ResultBacked(c, all, blobs, stage.result)))
  }

  /** A result for a key: there from the start, or recorded by a client with that key. */
  ghost predicate Sourced(c: Codec, first: State, s: State, key: Digest, r: ActionResult) {
    (key in first.actions && r == first.actions[key]) ||
    exists k :: 0 <= k < |s.records| && RecordedAs(c, s, s.records[k], key) && s.records[k].result == r
  }

  ghost predicate RecordedAs(c: Codec, s: State, rec: Record, key: Digest) {
    rec.author < |s.clients| && KeyOf(c, s.clients[rec.author].opts) == key
  }

  ghost predicate ClientBacked(c: Codec, sure: bool, all: set<Bytes>, blobs: map<string, Bytes>, client: Runner) {
    match client.pc
    case Sending(left, next) => left <= all && StageBacked(c, sure, all, Promised(c, blobs, left), client.opts, next)
    case At(stage) => StageBacked(c, sure, all, blobs, client.opts, stage)
    case Replaying(r) => !client.opts.noCache && (sure ==> ResultBacked(c, all, blobs, r))
    case Done(r, replayed) => (replayed ==> !client.opts.noCache) && (sure ==> ResultBacked(c, all, blobs, r))
    case _ => true
  }

  ghost predicate Replays(client: Runner, r: ActionResult) {
    client.pc == Replaying(r) || client.pc == Done(r, true)
  }

  /** A record was made by a client that may, of everything it captured, and the client is
      past its write-back. */
  ghost predicate RecordSound(c: Codec, s: State, rec: Record) {
    && rec.author < |s.clients|
    && var client := s.clients[rec.author];
       && !client.opts.noCache
       && (client.pc == Lost || client.pc == Done(rec.result, false))
       && Declares(client.opts, rec.result) && Captured(client.opts, rec.result)
  }

  /** What every step keeps.  That clients and cache are backed is only claimed if `sure`: if no
      blob that storage lacks has been overlooked. */
  ghost predicate Inv(c: Codec, sure: bool, all: set<Bytes>, first: State, s: State) {
    && Addressed(c, s.blobs) && s.blobs.Values <= all
    && Kept(first.blobs, s.blobs)
    && (sure ==> CacheBacked(c, all, s.blobs, s.actions))
    && SameOptions(first, s)
    && (forall i :: 0 <= i < |s.clients| ==> ClientBacked(c, sure, all, s.blobs, s.clients[i]))
    && (forall i, r :: 0 <= i < |s.clients| && Replays(s.clients[i], r) ==>
         Sourced(c, first, s, KeyOf(c, s.clients[i].opts), r))
    && (forall k :: 0 <= k < |s.records| ==> RecordSound(c, s, s.records[k]))
    && (forall j, k :: 0 <= j < k < |s.records| ==> s.records[j].author != s.records[k].author)
    && first.actions.Keys <= s.actions.Keys
    && (forall key :: key in s.actions ==> Sourced(c, first, s, key, s.actions[key]))
  }

  ghost predicate SameOptions(first: State, s: State) {
    |s.clients| == |first.clients| && forall i :: 0 <= i < |s.clients| ==> s.clients[i].opts == first.clients[i].opts
  }

  /** Any storage, any cache backed by it, and clients that have not started. */
  ghost predicate Init(c: Codec, all: set<Bytes>, s: State) {
    && Addressed(c, s.blobs) && s.blobs.Values <= all && CacheBacked(c, all, s.blobs, s.actions) && s.records == []
    && forall i :: 0 <= i < |s.clients| ==> s.clients[i].pc == Begin
  }

  lemma InitInv(c: Codec, sure: bool, all: set<Bytes>, s: State)
    requires Init(c, all, s)
    ensures Inv(c, sure, all, s, s)
  {
  }

  // ---------------------------------------------------------------- every step keeps the invariant

  lemma StageStays(c: Codec, sure: bool, all: set<Bytes>, before: map<string, Bytes>, after: map<string, Bytes>,
      opts: RunOptions, stage: Stage)
    requires StageBacked(c, sure, all, before, opts, stage) && before.Keys <= after.Keys
    ensures StageBacked(c, sure, all, after, opts, stage)
  {
    if sure { HashesStay(c, before, after, {CommandBytes(c, opts), ActionBytes(c, opts)}); }
    if sure && stage.Collecting? { ResultStaysBacked(c, all, all, before, after, stage.result); }
  }

  lemma ClientStays(c: Codec, sure: bool, all: set<Bytes>, before: map<string, Bytes>, after: map<string, Bytes>,
      client: Runner)
    requires ClientBacked(c, sure, all, before, client) && before.Keys <= after.Keys
    ensures ClientBacked(c, sure, all, after, client)
  {
    match client.pc
    case Sending(left, next) =>
      StageStays(c, sure, all, Promised(c, before, left), Promised(c, after, left), client.opts, next);
    case At(stage) => StageStays(c, sure, all, before, after, client.opts, stage);
    case Replaying(r) => if sure { ResultStaysBacked(c, all, all, before, after, r); }
    case Done(r, _) => if sure { ResultStaysBacked(c, all, all, before, after, r); }
    case _ =>
  }

  lemma SourcedStays(c: Codec, first: State, s: State, u: State, key: Digest, r: ActionResult)
    requires Sourced(c, first, s, key, r)
    requires s.records <= u.records && SameOptions(s, u)
    ensures Sourced(c, first, u, key, r)
  {
    if k :| 0 <= k < |s.records| && RecordedAs(c, s, s.records[k], key) && s.records[k].result == r {
      assert u.records[k] == s.records[k];
      assert RecordedAs(c, u, u.records[k], key);
    }
  }

  /** A client that is under way moves on by itself. */
  lemma MovedInv(c: Codec, sure: bool, all: set<Bytes>, first: State, s: State, i: nat, pc: Pc)
    requires Inv(c, sure, all, first, s) && i < |s.clients| && Active(s.clients[i].pc)
    requires ClientBacked(c, sure, all, s.blobs, Runner(s.clients[i].opts, pc))
    requires forall r :: Replays(Runner(s.clients[i].opts, pc), r) ==>
      Sourced(c, first, s, KeyOf(c, s.clients[i].opts), r)
    ensures Inv(c, sure, all, first, Moved(s, i, pc))
  {
    hide ClientBacked, CacheBacked, Sourced, Addressed, Kept;
    var u := Moved(s, i, pc);
    forall j, r | 0 <= j < |u.clients| && Replays(u.clients[j], r)
      ensures Sourced(c, first, u, KeyOf(c, u.clients[j].opts), r)
    {
      assert j != i ==> u.clients[j] == s.clients[j];
      SourcedStays(c, first, s, u, KeyOf(c, s.clients[j].opts), r);
    }
    forall key | key in u.actions ensures Sourced(c, first, u, key, u.actions[key]) {
      SourcedStays(c, first, s, u, key, s.actions[key]);
    }
    forall k | 0 <= k < |u.records| ensures RecordSound(c, u, u.records[k]) {
      assert RecordSound(c, s, s.records[k]);
    }
  }

  lemma GrownInv(c: Codec, sure: bool, all: set<Bytes>, first: State, s: State, blobs: map<string, Bytes>)
    requires Inv(c, sure, all, first, s) && Addressed(c, blobs) && blobs.Values <= all
    requires Kept(s.blobs, blobs) && s.blobs.Keys <= blobs.Keys
    ensures Inv(c, sure, all, first, s.(blobs := blobs))
  {
    hide ClientBacked, CacheBacked, Sourced, RecordSound;
    var u := s.(blobs := blobs);
    if sure { StaysBacked(c, all, all, s.blobs, blobs, s.actions); }
    forall i | 0 <= i < |u.clients| ensures ClientBacked(c, sure, all, blobs, u.clients[i]) {
      ClientStays(c, sure, all, s.blobs, blobs, s.clients[i]);
    }
    forall i, r | 0 <= i < |u.clients| && Replays(u.clients[i], r)
      ensures Sourced(c, first, u, KeyOf(c, u.clients[i].opts), r)
    {
      SourcedStays(c, first, s, u, KeyOf(c, s.clients[i].opts), r);
    }
    forall key | key in u.actions ensures Sourced(c, first, u, key, u.actions[key]) {
      SourcedStays(c, first, s, u, key, s.actions[key]);
    }
    forall k | 0 <= k < |u.records| ensures RecordSound(c, u, u.records[k]) {
      assert RecordSound(c, s, s.records[k]);
      SoundStays(c, s, u, s.records[k]);
    }
  }

  lemma SoundStays(c: Codec, s: State, u: State, rec: Record)
    requires RecordSound(c, s, rec) && u.clients == s.clients
    ensures RecordSound(c, u, rec)
  {
  }

  lemma StoreStep(c: Codec, s: State, i: nat, b: Bytes)
    requires i < |s.clients| && s.clients[i].pc.Sending? && b in s.clients[i].pc.left
    ensures Step(c, s, i, Store(b)) == Some(Moved(s.(blobs := Stored1(c, s.blobs, b)), i,
      Sending(s.clients[i].pc.left - {b}, s.clients[i].pc.next)))
  {
  }

  lemma StoreBacks(c: Codec, sure: bool, all: set<Bytes>, blobs: map<string, Bytes>, opts: RunOptions, left: set<Bytes>,
      next: Stage, b: Bytes)
    requires ClientBacked(c, sure, all, blobs, Runner(opts, Sending(left, next)))
    ensures ClientBacked(c, sure, all, Stored1(c, blobs, b), Runner(opts, Sending(left - {b}, next)))
  {
    hide StageBacked;
    StageStays(c, sure, all, Promised(c, blobs, left), Promised(c, Stored1(c, blobs, b), left - {b}), opts, next);
  }

  lemma StoreInv(c: Codec, sure: bool, all: set<Bytes>, first: State, s: State, i: nat, b: Bytes)
    requires Inv(c, sure, all, first, s) && i < |s.clients| && s.clients[i].pc.Sending? && b in s.clients[i].pc.left
    ensures Step(c, s, i, Store(b)).Some? && Inv(c, sure, all, first, Step(c, s, i, Store(b)).value)
  {
    hide Step, Inv, ClientBacked, Addressed, Kept, Stored1, Sourced;
    var left, next, opts := s.clients[i].pc.left, s.clients[i].pc.next, s.clients[i].opts;
    StoreStep(c, s, i, b);
    InvAt(c, sure, all, first, s, i);
    StoredIsAddressed(c, s.blobs, b);
    StoreBacks(c, sure, all, s.blobs, opts, left, next, b);
    GrownInv(c, sure, all, first, s, Stored1(c, s.blobs, b));
    MovedInv(c, sure, all, first, s.(blobs := Stored1(c, s.blobs, b)), i, Sending(left - {b}, next));
  }

  lemma InvAt(c: Codec, sure: bool, all: set<Bytes>, first: State, s: State, i: nat)
    requires Inv(c, sure, all, first, s) && i < |s.clients|
    ensures ClientBacked(c, sure, all, s.blobs, s.clients[i]) && Addressed(c, s.blobs) && s.blobs.Values <= all
    ensures s.clients[i].pc.Sending? ==> s.clients[i].pc.left <= all
  {
  }

  lemma StoredIsAddressed(c: Codec, blobs: map<string, Bytes>, b: Bytes)
    requires Addressed(c, blobs)
    ensures Addressed(c, Stored1(c, blobs, b)) && Kept(blobs, Stored1(c, blobs, b))
    ensures blobs.Keys <= Stored1(c, blobs, b).Keys && c.hash(b) in Stored1(c, blobs, b)
    ensures Stored1(c, blobs, b).Values <= blobs.Values + {b}
  {
  }

  /** Once what is missing has been sent, everything needed is there. */
  lemma SentBacks(c: Codec, blobs: map<string, Bytes>, need: set<Bytes>)
    ensures var p := Promised(c, blobs, Lack(c, blobs, need));
      HashesThere(c, p, need) && blobs.Keys <= p.Keys
  {
    var left := Lack(c, blobs, need);
    forall b | b in need ensures c.hash(b) in Promised(c, blobs, left) {
      if c.hash(b) !in blobs { assert b in left; }
    }
  }

  lemma StartInv(c: Codec, sure: bool, all: set<Bytes>, first: State, s: State, i: nat)
    requires Inv(c, sure, all, first, s) && Step(c, s, i, Start).Some? && NeedOf(c, s.clients[i].opts, Start) <= all
    ensures Inv(c, sure, all, first, Step(c, s, i, Start).value)
  {
    var opts := s.clients[i].opts;
    if AllRelative(opts) {
      var need := {CommandBytes(c, opts), ActionBytes(c, opts)};
      SentBacks(c, s.blobs, need);
      MovedInv(c, sure, all, first, s, i, Sending(Lack(c, s.blobs, need), Lookup));
    } else {
      MovedInv(c, sure, all, first, s, i, Failed);
    }
  }

  lemma SpawnBacks(c: Codec, sure: bool, all: set<Bytes>, blobs: map<string, Bytes>, opts: RunOptions, code: int,
      stdout: Bytes, stderr: Bytes)
    requires ClientBacked(c, sure, all, blobs, Runner(opts, At(Spawning))) && {stdout, stderr} <= all
    ensures ClientBacked(c, sure, all, blobs, Runner(opts,
      Sending(Lack(c, blobs, {stdout, stderr}), Collecting(StartResult(c, code, stdout, stderr)))))
  {
    hide CommandBytes, ActionBytes;
    var need := {stdout, stderr};
    var p := Promised(c, blobs, Lack(c, blobs, need));
    SentBacks(c, blobs, need);
    if sure { HashesStay(c, blobs, p, {CommandBytes(c, opts), ActionBytes(c, opts)}); }
    assert stdout in need && stderr in need;
  }

  lemma SpawnInv(c: Codec, sure: bool, all: set<Bytes>, first: State, s: State, i: nat, code: int, stdout: Bytes,
      stderr: Bytes)
    requires Inv(c, sure, all, first, s) && Step(c, s, i, Spawn(code, stdout, stderr)).Some? && {stdout, stderr} <= all
    ensures Inv(c, sure, all, first, Step(c, s, i, Spawn(code, stdout, stderr)).value)
  {
    hide Inv, Sourced, ClientBacked, StartResult;
    InvAt(c, sure, all, first, s, i);
    SpawnBacks(c, sure, all, s.blobs, s.clients[i].opts, code, stdout, stderr);
    MovedInv(c, sure, all, first, s, i,
      Sending(Lack(c, s.blobs, {stdout, stderr}), Collecting(StartResult(c, code, stdout, stderr))));
  }

  lemma CaptureFileBacks(c: Codec, sure: bool, all: set<Bytes>, blobs: map<string, Bytes>, opts: RunOptions,
      r: ActionResult, content: Bytes, exec: bool)
    requires ClientBacked(c, sure, all, blobs, Runner(opts, At(Collecting(r)))) && |r.outputFiles| < |opts.outputFiles|
    requires content in all
    ensures ClientBacked(c, sure, all, blobs, Runner(opts,
      Sending(Lack(c, blobs, {content}), Collecting(WithFile(c, opts, r, content, exec)))))
  {
    hide HashesThere, DirBacked;
    var p := Promised(c, blobs, Lack(c, blobs, {content}));
    SentBacks(c, blobs, {content});
    StageStays(c, sure, all, blobs, p, opts, Collecting(r));
    ThereAt(c, p, {content}, content);
  }

  lemma ThereAt(c: Codec, blobs: map<string, Bytes>, bs: set<Bytes>, b: Bytes)
    requires HashesThere(c, blobs, bs) && b in bs
    ensures c.hash(b) in blobs
  {
  }

  lemma CaptureFileInv(c: Codec, sure: bool, all: set<Bytes>, first: State, s: State, i: nat, content: Bytes,
      exec: bool)
    requires Inv(c, sure, all, first, s) && Step(c, s, i, CaptureFile(content, exec)).Some? && content in all
    ensures Inv(c, sure, all, first, Step(c, s, i, CaptureFile(content, exec)).value)
  {
    hide Inv, Sourced, ClientBacked, WithFile;
    InvAt(c, sure, all, first, s, i);
    CaptureFileBacks(c, sure, all, s.blobs, s.clients[i].opts, s.clients[i].pc.stage.result, content, exec);
    MovedInv(c, sure, all, first, s, i, Sending(Lack(c, s.blobs, {content}),
      Collecting(WithFile(c, s.clients[i].opts, s.clients[i].pc.stage.result, content, exec))));
  }

  lemma CaptureDirectoryBacks(c: Codec, sure: bool, all: set<Bytes>, blobs: map<string, Bytes>, opts: RunOptions,
      r: ActionResult, es: seq<Named>)
    requires ClientBacked(c, sure, all, blobs, Runner(opts, At(Collecting(r))))
    requires |r.outputDirectories| < |opts.outputDirs|
    requires Genuine(OnDir(es)) && Needed(c, es) <= all
    ensures ClientBacked(c, sure, all, blobs, Runner(opts,
      Sending(Lack(c, blobs, Needed(c, es)), Collecting(WithDirectory(c, opts, r, es)))))
  {
    hide HashesThere, Needed, Uploaded;
    var p := Promised(c, blobs, Lack(c, blobs, Needed(c, es)));
    SentBacks(c, blobs, Needed(c, es));
    StageStays(c, sure, all, blobs, p, opts, Collecting(r));
    var dirs := WithDirectory(c, opts, r, es).outputDirectories;
    assert DirBackedBy(c, all, p, dirs[|r.outputDirectories|], es);
    hide DirBackedBy;
  }

  lemma CaptureDirectoryInv(c: Codec, sure: bool, all: set<Bytes>, first: State, s: State, i: nat, es: seq<Named>)
    requires Inv(c, sure, all, first, s) && Step(c, s, i, CaptureDirectory(es)).Some? && Needed(c, es) <= all
    ensures Inv(c, sure, all, first, Step(c, s, i, CaptureDirectory(es)).value)
  {
    hide Inv, Sourced, ClientBacked, WithDirectory, Needed;
    InvAt(c, sure, all, first, s, i);
    CaptureDirectoryBacks(c, sure, all, s.blobs, s.clients[i].opts, s.clients[i].pc.stage.result, es);
    MovedInv(c, sure, all, first, s, i, Sending(Lack(c, s.blobs, Needed(c, es)),
      Collecting(WithDirectory(c, s.clients[i].opts, s.clients[i].pc.stage.result, es))));
  }

  lemma LookUpStep(c: Codec, s: State, i: nat)
    requires Step(c, s, i, LookUp).Some?
    ensures i < |s.clients| && s.clients[i].pc == At(Lookup)
    ensures var key := KeyOf(c, s.clients[i].opts);
      Step(c, s, i, LookUp) == Some(Moved(s, i,
        if !s.clients[i].opts.noCache && key in s.actions then Replaying(s.actions[key]) else At(Spawning)))
  {
    hide KeyOf;
  }

  lemma LookUpInv(c: Codec, sure: bool, all: set<Bytes>, first: State, s: State, i: nat)
    requires Inv(c, sure, all, first, s) && Step(c, s, i, LookUp).Some?
    ensures Inv(c, sure, all, first, Step(c, s, i, LookUp).value)
  {
    hide Step, Inv, Sourced, ResultBacked, ClientBacked, KeyOf;
    LookUpStep(c, s, i);
    InvAt(c, sure, all, first, s, i);
    var opts, key := s.clients[i].opts, KeyOf(c, s.clients[i].opts);
    if !opts.noCache && key in s.actions {
      EntryAt(c, sure, all, first, s, key);
      FoundBacks(c, sure, all, s.blobs, opts, s.actions[key]);
      MovedInv(c, sure, all, first, s, i, Replaying(s.actions[key]));
    } else {
      FoundBacks(c, sure, all, s.blobs, opts, StartResult(c, 0, [], []));
      MovedInv(c, sure, all, first, s, i, At(Spawning));
    }
  }

  lemma FoundBacks(c: Codec, sure: bool, all: set<Bytes>, blobs: map<string, Bytes>, opts: RunOptions, r: ActionResult)
    ensures ClientBacked(c, sure, all, blobs, Runner(opts, At(Lookup))) ==>
      ClientBacked(c, sure, all, blobs, Runner(opts, At(Spawning)))
    ensures !opts.noCache && (sure ==> ResultBacked(c, all, blobs, r)) ==>
      ClientBacked(c, sure, all, blobs, Runner(opts, Replaying(r)))
  {
  }

  lemma EntryAt(c: Codec, sure: bool, all: set<Bytes>, first: State, s: State, key: Digest)
    requires Inv(c, sure, all, first, s) && key in s.actions
    ensures (sure ==> ResultBacked(c, all, s.blobs, s.actions[key])) && Sourced(c, first, s, key, s.actions[key])
  {
  }

  lemma PlainInv(c: Codec, sure: bool, all: set<Bytes>, first: State, s: State, i: nat, m: Move)
    requires Inv(c, sure, all, first, s) && Step(c, s, i, m).Some?
    requires m.Proceed? || m.MissAnyway? || m.Finish? || m.Restore? || m.Fail?
    ensures Inv(c, sure, all, first, Step(c, s, i, m).value)
  {
    hide CacheBacked, Sourced, RecordSound, CommandBytes, ActionBytes, ResultBacked;
    var u := Step(c, s, i, m).value;
    assert ClientBacked(c, sure, all, s.blobs, s.clients[i]);
    if m.Proceed? {
      StageStays(c, sure, all, Promised(c, s.blobs, {}), s.blobs, s.clients[i].opts, s.clients[i].pc.next);
    }
    MovedInv(c, sure, all, first, s, i, u.clients[i].pc);
  }

  /** The cache with one more record. */
  ghost predicate Noted(c: Codec, s: State, u: State, i: nat, r: ActionResult)
    requires i < |s.clients|
  {
    && u.blobs == s.blobs && |u.clients| == |s.clients|
    && (forall j :: 0 <= j < |s.clients| && j != i ==> u.clients[j] == s.clients[j])
    && u.clients[i].opts == s.clients[i].opts
    && (u.clients[i].pc == Lost || u.clients[i].pc == Done(r, false))
    && u.actions == s.actions[KeyOf(c, s.clients[i].opts) := r]
    && u.records == s.records + [Record(i, r)]
  }

  lemma NotedMeans(c: Codec, s: State, u: State, i: nat, r: ActionResult)
    requires i < |s.clients| && Noted(c, s, u, i, r)
    ensures u.actions == s.actions[KeyOf(c, s.clients[i].opts) := r] && |u.clients| == |s.clients|
    ensures u.clients[i] in {Runner(s.clients[i].opts, Lost), Runner(s.clients[i].opts, Done(r, false))}
  {
  }

  lemma NotedIsSourced(c: Codec, sure: bool, all: set<Bytes>, first: State, s: State, u: State, i: nat, r: ActionResult)
    requires Inv(c, sure, all, first, s) && i < |s.clients| && Noted(c, s, u, i, r)
    ensures forall key :: key in u.actions ==> Sourced(c, first, u, key, u.actions[key])
    ensures forall j, x :: 0 <= j < |u.clients| && Replays(u.clients[j], x) ==>
      Sourced(c, first, u, KeyOf(c, u.clients[j].opts), x)
  {
    hide CacheBacked, ClientBacked, KeyOf, Addressed, Kept, Sourced, RecordSound;
    var key := KeyOf(c, s.clients[i].opts);
    assert u.records[|s.records|] == Record(i, r);
    assert RecordedAs(c, u, u.records[|s.records|], key);
    SourcedNow(c, first, u, key, r, |s.records|);
    forall j, x | 0 <= j < |u.clients| && Replays(u.clients[j], x)
      ensures Sourced(c, first, u, KeyOf(c, u.clients[j].opts), x)
    {
      SourcedStays(c, first, s, u, KeyOf(c, s.clients[j].opts), x);
    }
    forall k | k in u.actions ensures Sourced(c, first, u, k, u.actions[k]) {
      if k != key { SourcedStays(c, first, s, u, k, s.actions[k]); }
    }
  }

  lemma NotedIsSound(c: Codec, sure: bool, all: set<Bytes>, first: State, s: State, u: State, i: nat, r: ActionResult)
    requires Inv(c, sure, all, first, s) && i < |s.clients| && Noted(c, s, u, i, r) && Active(s.clients[i].pc)
    requires !s.clients[i].opts.noCache && Declares(s.clients[i].opts, r) && Captured(s.clients[i].opts, r)
    ensures forall k :: 0 <= k < |u.records| ==> RecordSound(c, u, u.records[k])
    ensures forall j, k :: 0 <= j < k < |u.records| ==> u.records[j].author != u.records[k].author
  {
    hide CacheBacked, ClientBacked, KeyOf, Addressed, Kept, Sourced, Declares;
    forall k | 0 <= k < |s.records| ensures s.records[k].author != i && RecordSound(c, u, u.records[k]) {
      assert RecordSound(c, s, s.records[k]);
    }
  }

  lemma WriteBackStep(c: Codec, s: State, i: nat, lost: bool)
    requires Step(c, s, i, WriteBack(lost)).Some?
    ensures i < |s.clients| && s.clients[i].pc.At? && s.clients[i].pc.stage.Collecting?
    ensures !s.clients[i].opts.noCache && Captured(s.clients[i].opts, s.clients[i].pc.stage.result)
    ensures Noted(c, s, Step(c, s, i, WriteBack(lost)).value, i, s.clients[i].pc.stage.result)
  {
    hide KeyOf;
  }

  lemma NotedInv(c: Codec, sure: bool, all: set<Bytes>, first: State, s: State, u: State, i: nat, r: ActionResult)
    requires Inv(c, sure, all, first, s) && i < |s.clients| && Noted(c, s, u, i, r)
    requires (sure ==> CacheBacked(c, all, s.blobs, u.actions)) && ClientBacked(c, sure, all, s.blobs, u.clients[i])
    requires forall key :: key in u.actions ==> Sourced(c, first, u, key, u.actions[key])
    requires forall j, x :: 0 <= j < |u.clients| && Replays(u.clients[j], x) ==>
      Sourced(c, first, u, KeyOf(c, u.clients[j].opts), x)
    requires forall k :: 0 <= k < |u.records| ==> RecordSound(c, u, u.records[k])
    requires forall j, k :: 0 <= j < k < |u.records| ==> u.records[j].author != u.records[k].author
    ensures Inv(c, sure, all, first, u)
  {
    hide CacheBacked, ClientBacked, KeyOf, Addressed, Kept, Sourced, RecordSound;
  }

  lemma WriteBackInv(c: Codec, sure: bool, all: set<Bytes>, first: State, s: State, i: nat, lost: bool)
    requires Inv(c, sure, all, first, s) && Step(c, s, i, WriteBack(lost)).Some?
    ensures Inv(c, sure, all, first, Step(c, s, i, WriteBack(lost)).value)
  {
    var u := Step(c, s, i, WriteBack(lost)).value;
    var opts, r := s.clients[i].opts, s.clients[i].pc.stage.result;
    hide CacheBacked, ClientBacked, ResultBacked, KeyBacked, KeyOf, Addressed, Kept, Sourced, Declares, RecordSound,
      Step;
    WriteBackStep(c, s, i, lost);
    hide Inv, Noted;
    InvAt(c, sure, all, first, s, i);
    BackedDone(c, sure, all, s.blobs, opts, r);
    if sure { CacheMore(c, all, s.blobs, s.actions, KeyOf(c, opts), r); }
    NotedMeans(c, s, u, i, r);
    NotedIsSourced(c, sure, all, first, s, u, i, r);
    NotedIsSound(c, sure, all, first, s, u, i, r);
    NotedInv(c, sure, all, first, s, u, i, r);
  }

  lemma BackedDone(c: Codec, sure: bool, all: set<Bytes>, blobs: map<string, Bytes>, opts: RunOptions, r: ActionResult)
    requires ClientBacked(c, sure, all, blobs, Runner(opts, At(Collecting(r))))
    ensures ClientBacked(c, sure, all, blobs, Runner(opts, Lost))
    ensures ClientBacked(c, sure, all, blobs, Runner(opts, Done(r, false)))
    ensures Declares(opts, r) && (sure ==> ResultBacked(c, all, blobs, r))
    ensures sure && !opts.noCache ==> KeyBacked(c, all, blobs, KeyOf(c, opts))
  {
    hide KeyBacked, KeyOf, CommandBytes, ActionBytes;
    if sure && !opts.noCache { OwnKeyBacked(c, all, blobs, opts); }
  }

  lemma CacheMore(c: Codec, all: set<Bytes>, blobs: map<string, Bytes>, actions: map<Digest, ActionResult>,
      key: Digest, r: ActionResult)
    requires CacheBacked(c, all, blobs, actions) && KeyBacked(c, all, blobs, key) && ResultBacked(c, all, blobs, r)
    ensures CacheBacked(c, all, blobs, actions[key := r])
  {
    hide KeyBacked, ResultBacked;
  }

  lemma SourcedNow(c: Codec, first: State, s: State, key: Digest, r: ActionResult, k: nat)
    requires k < |s.records| && RecordedAs(c, s, s.records[k], key) && s.records[k].result == r
    ensures Sourced(c, first, s, key, r)
  {
  }

  /** Nothing that storage lacks is overlooked in this step. */
  ghost predicate Harmless(c: Codec, s: State, i: nat, m: Move) {
    m.Overlook? && i < |s.clients| && s.clients[i].pc.Sending? ==> HashesThere(c, s.blobs, s.clients[i].pc.left)
  }

  lemma OverlookInv(c: Codec, sure: bool, all: set<Bytes>, first: State, s: State, i: nat)
    requires Inv(c, sure, all, first, s) && Step(c, s, i, Overlook).Some? && (sure ==> Harmless(c, s, i, Overlook))
    ensures Inv(c, sure, all, first, Step(c, s, i, Overlook).value)
  {
    hide Inv, Sourced, ClientBacked;
    InvAt(c, sure, all, first, s, i);
    OverlookBacks(c, sure, all, s.blobs, s.clients[i].opts, s.clients[i].pc.left, s.clients[i].pc.next);
    MovedInv(c, sure, all, first, s, i, At(s.clients[i].pc.next));
  }

  lemma OverlookBacks(c: Codec, sure: bool, all: set<Bytes>, blobs: map<string, Bytes>, opts: RunOptions,
      left: set<Bytes>, next: Stage)
    requires ClientBacked(c, sure, all, blobs, Runner(opts, Sending(left, next)))
    requires sure ==> HashesThere(c, blobs, left)
    ensures ClientBacked(c, sure, all, blobs, Runner(opts, At(next)))
  {
    hide StageBacked;
    if sure {
      StageStays(c, sure, all, Promised(c, blobs, left), blobs, opts, next);
    } else {
      StageAnyway(c, all, Promised(c, blobs, left), blobs, opts, next);
    }
  }

  lemma StageAnyway(c: Codec, all: set<Bytes>, before: map<string, Bytes>, after: map<string, Bytes>, opts: RunOptions,
      stage: Stage)
    requires StageBacked(c, false, all, before, opts, stage)
    ensures StageBacked(c, false, all, after, opts, stage)
  {
  }

  lemma StepKeepsInv(c: Codec, sure: bool, all: set<Bytes>, first: State, s: State, i: nat, m: Move)
    requires Inv(c, sure, all, first, s) && Step(c, s, i, m).Some? && NeedOf(c, s.clients[i].opts, m) <= all
    requires sure ==> Harmless(c, s, i, m)
    ensures Inv(c, sure, all, first, Step(c, s, i, m).value)
  {
    hide Inv;
    match m
    case Start => StartInv(c, sure, all, first, s, i);
    case Store(b) => StoreInv(c, sure, all, first, s, i, b);
    case LookUp => LookUpInv(c, sure, all, first, s, i);
    case Spawn(code, stdout, stderr) => SpawnInv(c, sure, all, first, s, i, code, stdout, stderr);
    case CaptureFile(content, exec) => CaptureFileInv(c, sure, all, first, s, i, content, exec);
    case CaptureDirectory(es) => CaptureDirectoryInv(c, sure, all, first, s, i, es);
    case WriteBack(lost) => WriteBackInv(c, sure, all, first, s, i, lost);
    case Overlook => OverlookInv(c, sure, all, first, s, i);
    case _ => PlainInv(c, sure, all, first, s, i, m);
  }

  /** Nothing is overlooked in any step. */
  ghost predicate NothingLost(c: Codec, first: State, moves: seq<(nat, Move)>) {
    moves == [] ||
    var n := |moves| - 1;
    && NothingLost(c, first, moves[..n])
    && (After(c, first, moves[..n]).Some? ==> Harmless(c, After(c, first, moves[..n]).value, moves[n].0, moves[n].1))
  }

  /** Where every update is answered in full, nothing is. */
  lemma {:induction false} AllAnsweredLosesNothing(c: Codec, first: State, moves: seq<(nat, Move)>)
    requires forall k :: 0 <= k < |moves| ==> !moves[k].1.Overlook?
    ensures NothingLost(c, first, moves)
  {
    hide After;
    if moves != [] { AllAnsweredLosesNothing(c, first, moves[..|moves| - 1]); }
  }

  /** Safety of every run whose blobs are all in `all`. */
  lemma {:induction false} KeepsInvWithin(c: Codec, sure: bool, all: set<Bytes>, first: State, moves: seq<(nat, Move)>)
    requires Init(c, all, first) && After(c, first, moves).Some? && Within(c, first.clients, moves, all)
    requires sure ==> NothingLost(c, first, moves)
    ensures Inv(c, sure, all, first, After(c, first, moves).value)
  {
    hide Init, Inv, Step, NeedOf;
    if moves == [] {
      InitInv(c, sure, all, first);
    } else {
      var n := |moves| - 1;
      assert forall k :: 0 <= k < n ==> moves[..n][k] == moves[k];
      KeepsInvWithin(c, sure, all, first, moves[..n]);
      var s := After(c, first, moves[..n]).value;
      OptionsStay(c, sure, all, first, s);
      MovesInRange(c, s, moves[n].0, moves[n].1);
      StepKeepsInv(c, sure, all, first, s, moves[n].0, moves[n].1);
    }
  }

  lemma OptionsStay(c: Codec, sure: bool, all: set<Bytes>, first: State, s: State)
    requires Inv(c, sure, all, first, s)
    ensures |s.clients| == |first.clients|
    ensures forall i :: 0 <= i < |s.clients| ==> s.clients[i].opts == first.clients[i].opts
  {
  }

  lemma MovesInRange(c: Codec, s: State, i: nat, m: Move)
    requires Step(c, s, i, m).Some?
    ensures i < |s.clients|
  {
  }

  lemma InitWider(c: Codec, known: set<Bytes>, all: set<Bytes>, s: State)
    requires Init(c, known, s) && known <= all
    ensures Init(c, all, s)
  {
    hide CacheBacked, Addressed;
    StaysBacked(c, known, all, s.blobs, s.blobs, s.actions);
  }

  /** What was known at the start, and all that the moves sent. */
  ghost function KnownAfter(c: Codec, known: set<Bytes>, first: State, moves: seq<(nat, Move)>): set<Bytes> {
    known + SentBy(c, first.clients, moves)
  }

  /** Safety of every run: whatever the clients do, in whatever order, and wherever they fail,
      the invariant holds. */
  lemma EveryRunKeepsInv(c: Codec, sure: bool, known: set<Bytes>, first: State, moves: seq<(nat, Move)>)
    requires Init(c, known, first) && After(c, first, moves).Some? && (sure ==> NothingLost(c, first, moves))
    ensures Inv(c, sure, KnownAfter(c, known, first, moves), first, After(c, first, moves).value)
  {
    hide Init, Inv, After, NeedOf, SentBy, NothingLost;
    InitWider(c, known, KnownAfter(c, known, first, moves), first);
    KeepsInvWithin(c, sure, KnownAfter(c, known, first, moves), first, moves);
  }

  // ---------------------------------------------------------------- what follows

  /** Every entry of the cache is always backed: its action, which may be cached, its command,
      its streams, its output files and its whole output trees are in storage. */
  lemma EntriesAreBacked(c: Codec, known: set<Bytes>, first: State, moves: seq<(nat, Move)>, key: Digest)
    requires Init(c, known, first) && After(c, first, moves).Some? && NothingLost(c, first, moves)
    requires key in After(c, first, moves).value.actions
    ensures var s, all := After(c, first, moves).value, KnownAfter(c, known, first, moves);
      && KeyBacked(c, all, s.blobs, key) && ResultBacked(c, all, s.blobs, s.actions[key])
      && (c.Lawful() && c.NoCollision(all) ==> ActionStored(c, s.blobs, key))
  {
    hide Init, After, SentBy, KnownAfter, NothingLost, KeyBacked, ActionStored;
    var s, all := After(c, first, moves).value, KnownAfter(c, known, first, moves);
    EveryRunKeepsInv(c, true, known, first, moves);
    if c.Lawful() && c.NoCollision(all) { BackedKeyReads(c, all, s.blobs, key); }
  }

  /** A client that failed has recorded nothing, nor has one that was told not to cache. */
  lemma FailedRecordedNothing(c: Codec, known: set<Bytes>, first: State, moves: seq<(nat, Move)>, i: nat, k: nat)
    requires Init(c, known, first) && After(c, first, moves).Some?
    requires var s := After(c, first, moves).value;
      i < |s.clients| && k < |s.records| && (s.clients[i].pc.Failed? || s.clients[i].opts.noCache)
    ensures After(c, first, moves).value.records[k].author != i
  {
    hide Init, After, SentBy, KnownAfter;
    EveryRunKeepsInv(c, false, known, first, moves);
    var s := After(c, first, moves).value;
    assert RecordSound(c, s, s.records[k]);
  }

  /** A client that has gone all the way to the write-back and was not told to leave it out. */
  ghost predicate WroteBack(client: Runner) {
    client.pc.Lost? || (client.pc.Done? && !client.pc.replayed && !client.opts.noCache)
  }

  ghost predicate HasRecorded(s: State, i: nat) { exists k :: 0 <= k < |s.records| && s.records[k].author == i }

  ghost predicate AllRecorded(c: Codec, s: State) {
    forall i :: 0 <= i < |s.clients| && WroteBack(s.clients[i]) ==>
      HasRecorded(s, i) && KeyOf(c, s.clients[i].opts) in s.actions
  }

  lemma StepRecords(c: Codec, s: State, i: nat, m: Move)
    requires AllRecorded(c, s) && Step(c, s, i, m).Some?
    ensures AllRecorded(c, Step(c, s, i, m).value)
  {
    hide KeyOf, CommandBytes, ActionBytes, StartResult, WithFile, WithDirectory, Needed, AllRelative, Lack, Captured;
    var u := Step(c, s, i, m).value;
    assert s.records <= u.records && s.actions.Keys <= u.actions.Keys;
    forall j | 0 <= j < |u.clients| && WroteBack(u.clients[j])
      ensures HasRecorded(u, j) && KeyOf(c, u.clients[j].opts) in u.actions
    {
      if j == i {
        assert m.WriteBack? && u.records[|s.records|].author == i;
      } else {
        assert u.clients[j] == s.clients[j];
        var k :| 0 <= k < |s.records| && s.records[k].author == j;
        assert u.records[k].author == j;
      }
    }
  }

  lemma {:induction false} EveryRunRecords(c: Codec, first: State, moves: seq<(nat, Move)>)
    requires AllRecorded(c, first) && After(c, first, moves).Some?
    ensures AllRecorded(c, After(c, first, moves).value)
  {
    hide AllRecorded, Step;
    if moves != [] {
      EveryRunRecords(c, first, moves[..|moves| - 1]);
      StepRecords(c, After(c, first, moves[..|moves| - 1]).value, moves[|moves| - 1].0, moves[|moves| - 1].1);
    }
  }

  /** A client has recorded a result exactly when it has run its command to the end and may cache, whether
      or not it ever learned that the record was made; the cache then has an entry for its key. */
  lemma RecordedExactly(c: Codec, known: set<Bytes>, first: State, moves: seq<(nat, Move)>, i: nat)
    requires Init(c, known, first) && After(c, first, moves).Some?
    requires i < |After(c, first, moves).value.clients|
    ensures
      var s := After(c, first, moves).value;
      HasRecorded(s, i) <==>
        s.clients[i].pc.Lost? || (s.clients[i].pc.Done? && !s.clients[i].pc.replayed && !s.clients[i].opts.noCache)
    ensures
      var s := After(c, first, moves).value;
      HasRecorded(s, i) ==> KeyOf(c, s.clients[i].opts) in s.actions
  {
    EveryRunRecords(c, first, moves);
    var s := After(c, first, moves).value;
    if HasRecorded(s, i) {
      var k :| 0 <= k < |s.records| && s.records[k].author == i;
      hide Init, After, SentBy, KnownAfter;
      EveryRunKeepsInv(c, false, known, first, moves);
      assert RecordSound(c, s, s.records[k]);
    }
  }

  /** A hit that was not in the cache at the start comes from another client that ran the same
      command line on the same input root with the same declared outputs, and captured them all. */
  lemma HitsComeFromEqualRuns(c: Codec, known: set<Bytes>, first: State, moves: seq<(nat, Move)>, i: nat)
      returns (j: nat)
    requires c.Lawful() && Init(c, known, first) && After(c, first, moves).Some?
    requires var s := After(c, first, moves).value;
      i < |s.clients| == |first.clients| && s.clients[i].pc.Done? && s.clients[i].pc.replayed
    requires KeyOf(c, first.clients[i].opts) !in first.actions
    requires forall a, b :: 0 <= a < |first.clients| && 0 <= b < |first.clients| ==>
      var x, y := first.clients[a].opts, first.clients[b].opts;
      c.NoCollision({CommandBytes(c, x), CommandBytes(c, y), ActionBytes(c, x), ActionBytes(c, y)})
    ensures j < |first.clients| && j != i
    ensures
      var s := After(c, first, moves).value;
      var mine, theirs := first.clients[i].opts, first.clients[j].opts;
      && s.clients[j].pc in {Lost, Done(s.clients[i].pc.result, false)}
      && theirs.argv == mine.argv && theirs.inputRoot == mine.inputRoot
      && DeclaredPaths(theirs) == DeclaredPaths(mine)
      && Captured(theirs, s.clients[i].pc.result) && Declares(theirs, s.clients[i].pc.result)
  {
    hide Init, Inv, CommandBytes, ActionBytes, KeyOf, Step, After, Captured, Declares, DeclaredPaths, SentBy,
      KnownAfter;
    EveryRunKeepsInv(c, false, known, first, moves);
    var s := After(c, first, moves).value;
    j := WhoRecorded(c, KnownAfter(c, known, first, moves), first, s, i);
    KeyCharacterisesRun(c, first.clients[j].opts, first.clients[i].opts);
  }

  lemma WhoRecorded(c: Codec, all: set<Bytes>, first: State, s: State, i: nat) returns (j: nat)
    requires Inv(c, false, all, first, s) && i < |s.clients| && s.clients[i].pc.Done? && s.clients[i].pc.replayed
    requires |s.clients| == |first.clients| && KeyOf(c, first.clients[i].opts) !in first.actions
    ensures j < |s.clients| && j != i
    ensures KeyOf(c, first.clients[j].opts) == KeyOf(c, first.clients[i].opts)
    ensures s.clients[j].pc in {Lost, Done(s.clients[i].pc.result, false)}
    ensures Captured(first.clients[j].opts, s.clients[i].pc.result)
    ensures Declares(first.clients[j].opts, s.clients[i].pc.result)
  {
    hide CacheBacked, ClientBacked, KeyOf, Declares, Addressed, Kept;
    var key, r := KeyOf(c, s.clients[i].opts), s.clients[i].pc.result;
    assert Replays(s.clients[i], r);
    assert Sourced(c, first, s, key, r);
    var k :| 0 <= k < |s.records| && RecordedAs(c, s, s.records[k], key) && s.records[k].result == r;
    j := s.records[k].author;
    assert RecordSound(c, s, s.records[k]);
  }

  /** A result that some client is about to replay, or that the cache holds. */
  ghost predicate InUse(s: State, r: ActionResult) {
    (exists i :: 0 <= i < |s.clients| && s.clients[i].pc == Replaying(r)) || r in s.actions.Values
  }

  lemma InUseIsBacked(c: Codec, all: set<Bytes>, first: State, s: State, r: ActionResult)
    requires Inv(c, true, all, first, s) && InUse(s, r)
    ensures ResultBacked(c, all, s.blobs, r) && Addressed(c, s.blobs) && s.blobs.Values <= all
  {
    hide ResultBacked, KeyBacked;
    if i :| 0 <= i < |s.clients| && s.clients[i].pc == Replaying(r) {
      assert ClientBacked(c, true, all, s.blobs, s.clients[i]);
    } else {
      var key :| key in s.actions && s.actions[key] == r;
    }
  }

  /** Whoever is about to replay a result, even if its entry has been overwritten since, and whoever
      looks one up, will find everything it refers to: streams, output files, and output trees that
      storage denotes down to the last file.  All it takes is that no blob that was known at the
      start or sent since collides with another. */
  lemma ReplaysHaveEverything(c: Codec, known: set<Bytes>, first: State, moves: seq<(nat, Move)>, r: ActionResult)
      returns (ts: seq<Skel>)
    requires c.Lawful() && Init(c, known, first) && After(c, first, moves).Some?
    requires InUse(After(c, first, moves).value, r) && c.NoCollision(KnownAfter(c, known, first, moves))
    requires NothingLost(c, first, moves)
    ensures var s := After(c, first, moves).value;
      && Caching.Known(c, s.blobs, r.outputDirectories, ts) && Replayable(c, s.blobs, r, ts)
      && FiniteAmong(c, s.blobs.Values, r.outputDirectories)
  {
    hide Init, Inv, After, SentBy, KnownAfter, ResultBacked, Caching.Known, Replayable, FiniteAmong, Addressed, InUse,
      NothingLost;
    var s, all := After(c, first, moves).value, KnownAfter(c, known, first, moves);
    EveryRunKeepsInv(c, true, known, first, moves);
    InUseIsBacked(c, all, first, s, r);
    ts := BackedIsKnown(c, all, s.blobs, r);
    assert all + s.blobs.Values == all;
    BackedIsFinite(c, all, s.blobs, r, s.blobs.Values);
  }

  /** So in every reachable state a server with that storage that answers in full lets any such
      result be replayed, with nothing in the way of its outputs, exactly when no two of its output
      files share their content. */
  method ReplayReachable(client: RemoteClient, host: Host, ghost known: set<Bytes>, ghost first: State,
      ghost moves: seq<(nat, Move)>, result: ActionResult)
    returns (r: Result<(), Error>)
    requires host.Valid() && client.server.reliable && client.server.c.Lawful()
    requires Init(client.server.c, known, first) && After(client.server.c, first, moves).Some?
    requires client.server.blobs == After(client.server.c, first, moves).value.blobs
    requires InUse(After(client.server.c, first, moves).value, result)
    requires NothingLost(client.server.c, first, moves)
    requires client.server.c.NoCollision(KnownAfter(client.server.c, known, first, moves))
    modifies host.files, host.stdout, host.stderr, client.server`log
    ensures r.Ok? ==> Restorable(old(host.files.entries), client.server.blobs, result.outputFiles)
    ensures FreshTargets(old(host.files.entries), result.outputFiles, result.outputDirectories) ==>
      (r.Ok? <==> DistinctHashes(result.outputFiles))
  {
    hide Init, After, SentBy, KnownAfter, Caching.Known, Replayable, FiniteAmong, FreshTargets, AllDenote, AllFinite,
      Restorable, DistinctHashes, EverythingPut, Rooted, NothingLost;
    ghost var ts := ReplaysHaveEverything(client.server.c, known, first, moves, result);
    KnownDenotes(client.server.c, client.server.blobs, client.server.blobs, result.outputDirectories, ts);
    ReachableIsFinite(client.server.c, known, first, moves, result);
    ghost var answers;
    r, answers := Replay(client, host, result, ts);
  }

  lemma ReachableIsFinite(c: Codec, known: set<Bytes>, first: State, moves: seq<(nat, Move)>, r: ActionResult)
    requires Init(c, known, first) && After(c, first, moves).Some?
    requires FiniteAmong(c, After(c, first, moves).value.blobs.Values, r.outputDirectories)
    ensures AllFinite(c, After(c, first, moves).value.blobs, r.outputDirectories)
  {
    hide Init, After, SentBy, KnownAfter, FiniteAmong, AllFinite, Addressed;
    var blobs := After(c, first, moves).value.blobs;
    StorageAndCacheOnlyGrow(c, known, first, moves);
    NothingGrown(c, blobs, {});
    assert blobs.Values + {} == blobs.Values;
    FiniteThen(c, blobs, blobs, {}, r.outputDirectories);
  }

  /** Storage loses and changes no blob, and the cache loses no key. */
  lemma StorageAndCacheOnlyGrow(c: Codec, known: set<Bytes>, first: State, moves: seq<(nat, Move)>)
    requires Init(c, known, first) && After(c, first, moves).Some?
    ensures var s := After(c, first, moves).value;
      Kept(first.blobs, s.blobs) && Addressed(c, s.blobs) && first.actions.Keys <= s.actions.Keys
  {
    hide Init, After, SentBy, KnownAfter;
    EveryRunKeepsInv(c, false, known, first, moves);
  }

  // ---------------------------------------------------------------- a hit can happen

  /** A client that declares no outputs, and whose blobs are all in storage. */
  ghost predicate Simple(c: Codec, s: State, i: nat) {
    && i < |s.clients| && s.clients[i].pc == Begin
    && var opts := s.clients[i].opts;
      && AllRelative(opts) && !opts.noCache && opts.outputFiles == [] && opts.outputDirs == []
      && HashesThere(c, s.blobs, {CommandBytes(c, opts), ActionBytes(c, opts)}) && c.hash([]) in s.blobs
  }

  lemma NothingLacks(c: Codec, s: State, i: nat)
    requires Simple(c, s, i)
    ensures Lack(c, s.blobs, {CommandBytes(c, s.clients[i].opts), ActionBytes(c, s.clients[i].opts)}) == {}
    ensures Lack(c, s.blobs, {[], []}) == {}
  {
    hide CommandBytes, ActionBytes;
  }

  /** Such a client that does not find its key runs, and records its result. */
  lemma RunsAndRecords(c: Codec, s: State, i: nat, code: int) returns (u: State)
    requires Simple(c, s, i) && KeyOf(c, s.clients[i].opts) !in s.actions
    ensures After(c, s, MovesOf(i, [Start, Proceed, LookUp, Spawn(code, [], []), Proceed, WriteBack(false)])) == Some(u)
    ensures u == Moved(s.(actions := s.actions[KeyOf(c, s.clients[i].opts) := StartResult(c, code, [], [])],
                          records := s.records + [Record(i, StartResult(c, code, [], []))]),
                       i, Done(StartResult(c, code, [], []), false))
  {
    hide CommandBytes, ActionBytes, AllRelative, KeyOf, HashesThere, StartResult, Lack;
    NothingLacks(c, s, i);
    var r := StartResult(c, code, [], []);
    var a := Moved(s, i, Sending({}, Lookup));
    var b := Moved(s, i, At(Lookup));
    var d := Moved(s, i, At(Spawning));
    var e := Moved(s, i, Sending({}, Collecting(r)));
    var f := Moved(s, i, At(Collecting(r)));
    u := Moved(s.(actions := s.actions[KeyOf(c, s.clients[i].opts) := r], records := s.records + [Record(i, r)]),
               i, Done(r, false));
    StartsCapturing(c, code);
    MovedTwice(s, i, Sending({}, Lookup));
    MovedTwice(s, i, At(Lookup));
    MovedTwice(s, i, At(Spawning));
    MovedTwice(s, i, Sending({}, Collecting(r)));
    MovedTwice(s, i, At(Collecting(r)));
    var t := s.(actions := s.actions[KeyOf(c, s.clients[i].opts) := r], records := s.records + [Record(i, r)]);
    MovedOther(s, t, i, At(Collecting(r)), Done(r, false));
    var states := [s, a, b, d, e, f, u];
    var moves := [Start, Proceed, LookUp, Spawn(code, [], []), Proceed, WriteBack(false)];
    assert Step(c, s, i, Start) == Some(a);
    assert Step(c, a, i, Proceed) == Some(b);
    assert Step(c, b, i, LookUp) == Some(d);
    assert Step(c, d, i, Spawn(code, [], [])) == Some(e);
    assert Step(c, e, i, Proceed) == Some(f);
    assert Step(c, f, i, WriteBack(false)) == Some(u);
    hide Step, Moved;
    Chained(c, i, states, moves);
  }

  lemma StartsCapturing(c: Codec, code: int)
    ensures StartResult(c, code, [], []).outputFiles == [] && StartResult(c, code, [], []).outputDirectories == []
  {
  }

  /** Such a client that finds its key replays what is recorded. */
  lemma FindsAndReplays(c: Codec, s: State, i: nat) returns (u: State)
    requires Simple(c, s, i) && KeyOf(c, s.clients[i].opts) in s.actions
    ensures After(c, s, MovesOf(i, [Start, Proceed, LookUp, Restore])) == Some(u)
    ensures u == Moved(s, i, Done(s.actions[KeyOf(c, s.clients[i].opts)], true))
  {
    hide CommandBytes, ActionBytes, AllRelative, KeyOf, HashesThere, Lack;
    NothingLacks(c, s, i);
    var r := s.actions[KeyOf(c, s.clients[i].opts)];
    var a := Moved(s, i, Sending({}, Lookup));
    var b := Moved(s, i, At(Lookup));
    var d := Moved(s, i, Replaying(r));
    u := Moved(s, i, Done(r, true));
    MovedTwice(s, i, Sending({}, Lookup));
    MovedTwice(s, i, At(Lookup));
    MovedTwice(s, i, Replaying(r));
    assert Step(c, s, i, Start) == Some(a);
    assert Step(c, a, i, Proceed) == Some(b);
    assert Step(c, b, i, LookUp) == Some(d);
    assert Step(c, d, i, Restore) == Some(u);
    hide Step, Moved;
    Chained(c, i, [s, a, b, d, u], [Start, Proceed, LookUp, Restore]);
  }

  /** From any start with two such clients of equal options, whose key is not in the cache, there
      is a run in which one records its result and the other replays it. */
  lemma AHitCanHappen(c: Codec, known: set<Bytes>, first: State, code: int) returns (moves: seq<(nat, Move)>)
    requires Init(c, known, first) && |first.clients| == 2 && Simple(c, first, 0) && Simple(c, first, 1)
    requires first.clients[0].opts == first.clients[1].opts && KeyOf(c, first.clients[0].opts) !in first.actions
    ensures After(c, first, moves).Some?
    ensures After(c, first, moves).value.clients[..] ==
      [Runner(first.clients[0].opts, Done(StartResult(c, code, [], []), false)),
       Runner(first.clients[1].opts, Done(StartResult(c, code, [], []), true))]
  {
    hide Step, After, KeyOf, StartResult, CommandBytes, ActionBytes;
    var s := RunsAndRecords(c, first, 0, code);
    var u := FindsAndReplays(c, s, 1);
    var a := MovesOf(0, [Start, Proceed, LookUp, Spawn(code, [], []), Proceed, WriteBack(false)]);
    var b := MovesOf(1, [Start, Proceed, LookUp, Restore]);
    AfterJoin(c, first, a, b);
    moves := a + b;
  }

  /** An answer that leaves a blob out is taken for success, so a run can record what nothing backs:
      from any start with such a client, there is a run after which the cache has an entry whose
      stream storage has not. */
  lemma OverlookedIsUnbacked(c: Codec, first: State, code: int, out: Bytes) returns (moves: seq<(nat, Move)>)
    requires Simple(c, first, 0) && KeyOf(c, first.clients[0].opts) !in first.actions && c.hash(out) !in first.blobs
    ensures After(c, first, moves).Some?
    ensures var s := After(c, first, moves).value;
      && s.clients[0].pc == Done(StartResult(c, code, out, []), false)
      && KeyOf(c, s.clients[0].opts) in s.actions
      && forall all :: !ResultBacked(c, all, s.blobs, s.actions[KeyOf(c, s.clients[0].opts)])
  {
    hide CommandBytes, ActionBytes, AllRelative, KeyOf, HashesThere, StartResult, Lack;
    var opts, r := first.clients[0].opts, StartResult(c, code, out, []);
    NothingLacks(c, first, 0);
    var left := Lack(c, first.blobs, {out, []});
    var t := first.(actions := first.actions[KeyOf(c, opts) := r], records := first.records + [Record(0, r)]);
    var u := Moved(t, 0, Done(r, false));
    StreamIsRecorded(c, code, out);
    MovedTwice(first, 0, Sending({}, Lookup));
    MovedTwice(first, 0, At(Lookup));
    MovedTwice(first, 0, At(Spawning));
    MovedTwice(first, 0, Sending(left, Collecting(r)));
    MovedOther(first, t, 0, At(Collecting(r)), Done(r, false));
    var states := [first, Moved(first, 0, Sending({}, Lookup)), Moved(first, 0, At(Lookup)),
      Moved(first, 0, At(Spawning)), Moved(first, 0, Sending(left, Collecting(r))),
      Moved(first, 0, At(Collecting(r))), u];
    var steps := [Start, Proceed, LookUp, Spawn(code, out, []), Overlook, WriteBack(false)];
    forall k | 0 <= k < |steps| ensures Step(c, states[k], 0, steps[k]) == Some(states[k + 1]) {
      OneOfSix(k);
    }
    hide Step, Moved;
    Chained(c, 0, states, steps);
    moves := MovesOf(0, steps);
  }

  lemma OneOfSix(k: nat)
    requires k < 6
    ensures k in {0, 1, 2, 3, 4, 5}
  {
  }

  lemma StreamIsRecorded(c: Codec, code: int, out: Bytes)
    ensures var r := StartResult(c, code, out, []);
      && r.stdoutDigest == Some(c.DigestOf(out)) && r.outputFiles == [] && r.outputDirectories == []
  {
  }
}
