/** What one client does by itself, as a sequence of the moves that clients can interleave. */
module Traces {
  import opened Names
  import opened Messages
  import opened Disk
  import opened Remote
  import opened Upload
  import opened Run
  import opened Steps

  /** A single client. */
  ghost function Alone(opts: RunOptions, blobs: map<string, Bytes>, actions: map<Digest, ActionResult>, pc: Pc): State {
    State(blobs, actions, [Runner(opts, pc)], [])
  }

  predicate NothingOverlooked(moves: seq<Move>) { forall k :: 0 <= k < |moves| ==> !moves[k].Overlook? }

  /** The client's moves lead from one state to the other; if `sure`, they overlook nothing. */
  ghost predicate Reaches(c: Codec, sure: bool, s: State, t: State) {
    exists moves: seq<Move> :: After(c, s, MovesOf(0, moves)) == Some(t) && (sure ==> NothingOverlooked(moves))
  }

  /** A client gets from one point to another while storage goes from `before` to `after`. */
  ghost predicate Goes(c: Codec, sure: bool, opts: RunOptions, actions: map<Digest, ActionResult>,
      before: map<string, Bytes>, here: Pc, after: map<string, Bytes>, there: Pc)
  {
    Reaches(c, sure, Alone(opts, before, actions, here), Alone(opts, after, actions, there))
  }

  lemma Stays(c: Codec, sure: bool, opts: RunOptions, actions: map<Digest, ActionResult>, blobs: map<string, Bytes>,
      pc: Pc)
    ensures Goes(c, sure, opts, actions, blobs, pc, blobs, pc)
  {
    assert MovesOf(0, []) == [];
    assert After(c, Alone(opts, blobs, actions, pc), MovesOf(0, [])) == Some(Alone(opts, blobs, actions, pc));
  }

  lemma Takes(c: Codec, sure: bool, s: State, m: Move, t: State)
    requires Step(c, s, 0, m) == Some(t) && (sure ==> !m.Overlook?)
    ensures Reaches(c, sure, s, t)
  {
    hide Step;
    Chained(c, 0, [s, t], [m]);
  }

  lemma ReachesOn(c: Codec, sure: bool, s: State, t: State, u: State)
    requires Reaches(c, sure, s, t) && Reaches(c, sure, t, u)
    ensures Reaches(c, sure, s, u)
  {
    hide Step, After;
    var m: seq<Move> :| After(c, s, MovesOf(0, m)) == Some(t) && (sure ==> NothingOverlooked(m));
    var n: seq<Move> :| After(c, t, MovesOf(0, n)) == Some(u) && (sure ==> NothingOverlooked(n));
    AfterJoin(c, s, MovesOf(0, m), MovesOf(0, n));
    assert MovesOf(0, m) + MovesOf(0, n) == MovesOf(0, m + n);
  }

  lemma GoesOn(c: Codec, sure: bool, opts: RunOptions, actions: map<Digest, ActionResult>, first: map<string, Bytes>,
      p: Pc, second: map<string, Bytes>, q: Pc, third: map<string, Bytes>, r: Pc)
    requires Goes(c, sure, opts, actions, first, p, second, q) && Goes(c, sure, opts, actions, second, q, third, r)
    ensures Goes(c, sure, opts, actions, first, p, third, r)
  {
    hide Reaches;
    ReachesOn(c, sure, Alone(opts, first, actions, p), Alone(opts, second, actions, q), Alone(opts, third, actions, r));
  }

  lemma MovedAlone(opts: RunOptions, blobs: map<string, Bytes>, actions: map<Digest, ActionResult>, p: Pc, q: Pc)
    ensures Moved(Alone(opts, blobs, actions, p), 0, q) == Alone(opts, blobs, actions, q)
  {
    assert Moved(Alone(opts, blobs, actions, p), 0, q).clients == [Runner(opts, q)];
  }

  /** One move that only storage and the client notice. */
  lemma GoesBy(c: Codec, sure: bool, opts: RunOptions, actions: map<Digest, ActionResult>, before: map<string, Bytes>,
      here: Pc, m: Move, after: map<string, Bytes>, there: Pc)
    requires Step(c, Alone(opts, before, actions, here), 0, m) ==
      Some(Moved(Alone(opts, after, actions, here), 0, there))
    requires sure ==> !m.Overlook?
    ensures Goes(c, sure, opts, actions, before, here, after, there)
  {
    hide Step, Reaches;
    MovedAlone(opts, after, actions, here, there);
    Takes(c, sure, Alone(opts, before, actions, here), m, Alone(opts, after, actions, there));
  }

  /** A client may give up wherever it is. */
  lemma GivesUp(c: Codec, sure: bool, opts: RunOptions, actions: map<Digest, ActionResult>,
      before: map<string, Bytes>, here: Pc, after: map<string, Bytes>, there: Pc)
    requires Goes(c, sure, opts, actions, before, here, after, there) && Active(there)
    ensures Goes(c, sure, opts, actions, before, here, after, Failed)
  {
    hide Goes;
    GoesBy(c, sure, opts, actions, after, there, Fail, after, Failed);
    GoesOn(c, sure, opts, actions, before, here, after, there, after, Failed);
  }

  // ---------------------------------------------------------------- sending

  lemma StoresOne(c: Codec, sure: bool, opts: RunOptions, actions: map<Digest, ActionResult>, blobs: map<string, Bytes>,
      left: set<Bytes>, next: Stage, b: Bytes)
    requires b in left
    ensures Goes(c, sure, opts, actions, blobs, Sending(left, next), Stored1(c, blobs, b), Sending(left - {b}, next))
  {
    hide Goes, Stored1;
    GoesBy(c, sure, opts, actions, blobs, Sending(left, next), Store(b), Stored1(c, blobs, b),
           Sending(left - {b}, next));
  }

  /** Storage grows by some of the blobs to be sent: these are sent, in some order. */
  lemma {:induction false} StoresNew(c: Codec, sure: bool, opts: RunOptions, actions: map<Digest, ActionResult>,
      before: map<string, Bytes>, after: map<string, Bytes>, left: set<Bytes>, next: Stage) returns (rest: set<Bytes>)
    requires Grown(c, before, after, left)
    ensures rest <= left
    ensures Goes(c, sure, opts, actions, before, Sending(left, next), after, Sending(rest, next))
    decreases |left|
  {
    hide Goes;
    if h :| h in after && h !in before {
      var b := after[h];
      var now := before[h := b];
      assert now == Stored1(c, before, b);
      StoresOne(c, sure, opts, actions, before, left, next, b);
      assert |left - {b}| < |left| by { assert left == (left - {b}) + {b}; }
      rest := StoresNew(c, sure, opts, actions, now, after, left - {b}, next);
      GoesOn(c, sure, opts, actions, before, Sending(left, next), now, Sending(left - {b}, next), after,
             Sending(rest, next));
    } else {
      assert before == after;
      rest := left;
      Stays(c, sure, opts, actions, before, Sending(left, next));
    }
  }

  /** Once their hashes are there, the rest make no difference. */
  lemma {:induction false} StoresRest(c: Codec, sure: bool, opts: RunOptions, actions: map<Digest, ActionResult>,
      blobs: map<string, Bytes>, left: set<Bytes>, next: Stage)
    requires HashesThere(c, blobs, left)
    ensures Goes(c, sure, opts, actions, blobs, Sending(left, next), blobs, At(next))
    decreases |left|
  {
    hide Goes;
    if b :| b in left {
      StoresOne(c, sure, opts, actions, blobs, left, next, b);
      assert |left - {b}| < |left| by { assert left == (left - {b}) + {b}; }
      StoresRest(c, sure, opts, actions, blobs, left - {b}, next);
      GoesOn(c, sure, opts, actions, blobs, Sending(left, next), blobs, Sending(left - {b}, next), blobs, At(next));
    } else {
      assert left == {};
      GoesBy(c, sure, opts, actions, blobs, Sending({}, next), Proceed, blobs, At(next));
    }
  }

  /** An incomplete answer is taken for success. */
  lemma Overlooks(c: Codec, opts: RunOptions, actions: map<Digest, ActionResult>, blobs: map<string, Bytes>,
      left: set<Bytes>, next: Stage)
    ensures Goes(c, false, opts, actions, blobs, Sending(left, next), blobs, At(next))
  {
    hide Goes;
    GoesBy(c, false, opts, actions, blobs, Sending(left, next), Overlook, blobs, At(next));
  }

  /** A move that starts to send what is missing, and what came of the sending. */
  lemma Sends(c: Codec, sure: bool, opts: RunOptions, actions: map<Digest, ActionResult>, before: map<string, Bytes>,
      here: Pc, m: Move, need: set<Bytes>, next: Stage, after: map<string, Bytes>, sent: bool)
    requires Step(c, Alone(opts, before, actions, here), 0, m) ==
      Some(Send(c, Alone(opts, before, actions, here), 0, need, next))
    requires Grown(c, before, after, need) && (sent && sure ==> HashesThere(c, after, need)) && !m.Overlook?
    ensures Goes(c, sure, opts, actions, before, here, after, if sent then At(next) else Failed)
  {
    hide Step, Goes;
    var left := Lack(c, before, need);
    assert Grown(c, before, after, left);
    GoesBy(c, sure, opts, actions, before, here, m, before, Sending(left, next));
    var rest := StoresNew(c, sure, opts, actions, before, after, left, next);
    GoesOn(c, sure, opts, actions, before, here, before, Sending(left, next), after, Sending(rest, next));
    if sent && !sure {
      Overlooks(c, opts, actions, after, rest, next);
      GoesOn(c, sure, opts, actions, before, here, after, Sending(rest, next), after, At(next));
    } else if sent {
      StoresRest(c, sure, opts, actions, after, rest, next);
      GoesOn(c, sure, opts, actions, before, here, after, Sending(rest, next), after, At(next));
    } else {
      GivesUp(c, sure, opts, actions, before, here, after, Sending(rest, next));
    }
  }

  // ---------------------------------------------------------------- the stages of a run

  lemma Starts(c: Codec, sure: bool, opts: RunOptions, actions: map<Digest, ActionResult>, before: map<string, Bytes>,
      after: map<string, Bytes>, sent: bool)
    requires AllRelative(opts) && Grown(c, before, after, {CommandBytes(c, opts), ActionBytes(c, opts)})
    requires sent && sure ==> HashesThere(c, after, {CommandBytes(c, opts), ActionBytes(c, opts)})
    ensures Goes(c, sure, opts, actions, before, Begin, after, if sent then At(Lookup) else Failed)
  {
    hide CommandBytes, ActionBytes, Grown, HashesThere, Goes, AllRelative;
    Sends(c, sure, opts, actions, before, Begin, Start, {CommandBytes(c, opts), ActionBytes(c, opts)}, Lookup, after,
          sent);
  }

  lemma StartsInVain(c: Codec, sure: bool, opts: RunOptions, actions: map<Digest, ActionResult>,
      blobs: map<string, Bytes>)
    requires !AllRelative(opts)
    ensures Goes(c, sure, opts, actions, blobs, Begin, blobs, Failed)
  {
    hide Goes, AllRelative;
    GoesBy(c, sure, opts, actions, blobs, Begin, Start, blobs, Failed);
  }

  /** A lookup may miss even if there is an entry, and it may find the entry. */
  lemma LooksUp(c: Codec, sure: bool, opts: RunOptions, actions: map<Digest, ActionResult>, blobs: map<string, Bytes>)
    ensures Goes(c, sure, opts, actions, blobs, At(Lookup), blobs, At(Spawning))
    ensures !opts.noCache && KeyOf(c, opts) in actions ==>
      var r := actions[KeyOf(c, opts)];
      && Goes(c, sure, opts, actions, blobs, At(Lookup), blobs, Done(r, true))
      && Goes(c, sure, opts, actions, blobs, At(Lookup), blobs, Failed)
  {
    hide Goes, KeyOf;
    GoesBy(c, sure, opts, actions, blobs, At(Lookup), MissAnyway, blobs, At(Spawning));
    if !opts.noCache && KeyOf(c, opts) in actions {
      var r := actions[KeyOf(c, opts)];
      GoesBy(c, sure, opts, actions, blobs, At(Lookup), LookUp, blobs, Replaying(r));
      GoesBy(c, sure, opts, actions, blobs, Replaying(r), Restore, blobs, Done(r, true));
      GoesOn(c, sure, opts, actions, blobs, At(Lookup), blobs, Replaying(r), blobs, Done(r, true));
      GivesUp(c, sure, opts, actions, blobs, At(Lookup), blobs, Replaying(r));
    }
  }

  lemma Spawns(c: Codec, sure: bool, opts: RunOptions, actions: map<Digest, ActionResult>, before: map<string, Bytes>,
      code: int, stdout: Bytes, stderr: Bytes, after: map<string, Bytes>, sent: bool)
    requires Grown(c, before, after, {stdout, stderr}) && (sent && sure ==> HashesThere(c, after, {stdout, stderr}))
    ensures Goes(c, sure, opts, actions, before, At(Spawning), after,
      if sent then At(Collecting(StartResult(c, code, stdout, stderr))) else Failed)
  {
    hide Grown, HashesThere, Goes, StartResult;
    Sends(c, sure, opts, actions, before, At(Spawning), Spawn(code, stdout, stderr), {stdout, stderr},
          Collecting(StartResult(c, code, stdout, stderr)), after, sent);
  }

  lemma CapturesFile(c: Codec, sure: bool, opts: RunOptions, actions: map<Digest, ActionResult>,
      before: map<string, Bytes>, r: ActionResult, content: Bytes, exec: bool, after: map<string, Bytes>, sent: bool)
    requires |r.outputFiles| < |opts.outputFiles|
    requires Grown(c, before, after, {content}) && (sent && sure ==> HashesThere(c, after, {content}))
    ensures Goes(c, sure, opts, actions, before, At(Collecting(r)), after,
      if sent then At(Collecting(WithFile(c, opts, r, content, exec))) else Failed)
  {
    hide Grown, HashesThere, Goes, WithFile;
    Sends(c, sure, opts, actions, before, At(Collecting(r)), CaptureFile(content, exec), {content},
          Collecting(WithFile(c, opts, r, content, exec)), after, sent);
  }

  lemma CapturesDirectory(c: Codec, sure: bool, opts: RunOptions, actions: map<Digest, ActionResult>,
      before: map<string, Bytes>, r: ActionResult, es: seq<Named>, after: map<string, Bytes>, sent: bool)
    requires |r.outputFiles| == |opts.outputFiles| && |r.outputDirectories| < |opts.outputDirs|
    requires Genuine(OnDir(es))
    requires Grown(c, before, after, Needed(c, es)) && (sent && sure ==> HashesThere(c, after, Needed(c, es)))
    ensures Goes(c, sure, opts, actions, before, At(Collecting(r)), after,
      if sent then At(Collecting(WithDirectory(c, opts, r, es))) else Failed)
  {
    hide Grown, HashesThere, Goes, WithDirectory, Needed, Genuine;
    Sends(c, sure, opts, actions, before, At(Collecting(r)), CaptureDirectory(es), Needed(c, es),
          Collecting(WithDirectory(c, opts, r, es)), after, sent);
  }

  // ---------------------------------------------------------------- a whole run

  /** The point that a client has reached agrees with what its run returned. */
  predicate Ends(pc: Pc, r: Result<int, Error>, spawned: bool) {
    if r.Ok? then pc.Done? && pc.result.exitCode == r.value && (pc.replayed <==> !spawned)
    else pc == Failed || pc == Lost
  }

  /** A run of one client is a sequence of its moves. */
  ghost predicate Simulated(c: Codec, sure: bool, opts: RunOptions, before: map<string, Bytes>,
      was: map<Digest, ActionResult>, after: map<string, Bytes>, now: map<Digest, ActionResult>,
      r: Result<int, Error>, spawned: bool)
  {
    exists pc, records ::
      && Reaches(c, sure, Alone(opts, before, was, Begin), State(after, now, [Runner(opts, pc)], records))
      && Ends(pc, r, spawned)
  }

  lemma EndsThere(c: Codec, sure: bool, opts: RunOptions, before: map<string, Bytes>,
      actions: map<Digest, ActionResult>, after: map<string, Bytes>, pc: Pc, r: Result<int, Error>, spawned: bool)
    requires Goes(c, sure, opts, actions, before, Begin, after, pc) && Ends(pc, r, spawned)
    ensures Simulated(c, sure, opts, before, actions, after, actions, r, spawned)
  {
  }

  /** What becomes of a client that has captured everything: it is told not to record, records, or
      fails to, and may not learn that it has recorded. */
  lemma Concludes(c: Codec, sure: bool, opts: RunOptions, before: map<string, Bytes>, was: map<Digest, ActionResult>,
      after: map<string, Bytes>, now: map<Digest, ActionResult>, result: ActionResult, r: Result<int, Error>)
    requires Goes(c, sure, opts, was, before, Begin, after, At(Collecting(result))) && Captured(opts, result)
    requires r.Ok? ==> r.value == result.exitCode
    requires if opts.noCache then r.Ok? && now == was
      else now == was[KeyOf(c, opts) := result] || (now == was && r.Err?)
    ensures Simulated(c, sure, opts, before, was, after, now, r, true)
  {
    hide Reaches, KeyOf, Captured;
    var here := Alone(opts, after, was, At(Collecting(result)));
    if r.Err? && now == was {
      GivesUp(c, sure, opts, was, before, Begin, after, At(Collecting(result)));
      EndsThere(c, sure, opts, before, was, after, Failed, r, true);
    } else if opts.noCache {
      GoesBy(c, sure, opts, was, after, At(Collecting(result)), Finish, after, Done(result, false));
      GoesOn(c, sure, opts, was, before, Begin, after, At(Collecting(result)), after, Done(result, false));
      EndsThere(c, sure, opts, before, was, after, Done(result, false), r, true);
    } else {
      var pc := if r.Ok? then Done(result, false) else Lost;
      var there := State(after, now, [Runner(opts, pc)], [Record(0, result)]);
      assert Moved(here.(actions := now, records := there.records), 0, pc).clients == there.clients;
      assert here.records + [Record(0, result)] == there.records;
      Takes(c, sure, here, WriteBack(r.Err?), there);
      ReachesOn(c, sure, Alone(opts, before, was, Begin), here, there);
      assert Reaches(c, sure, Alone(opts, before, was, Begin),
                     State(after, now, [Runner(opts, pc)], [Record(0, result)]));
    }
  }
}
