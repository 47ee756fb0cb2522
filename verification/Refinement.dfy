/** A call of `run_cached` is a sequence of moves of one client among all clients. */
module Refinement {
  import opened Names
  import opened Messages
  import opened Disk
  import opened Remote
  import opened Client
  import opened Upload
  import opened FileSystem
  import opened Machine
  import opened Run
  import opened Capture
  import opened Caching
  import opened Steps
  import opened Traces
  import opened Protocol

  // ---------------------------------------------------------------- alone and in company

  ghost function By(i: nat, records: seq<Record>): seq<Record> {
    seq(|records|, k requires 0 <= k < |records| => Record(i, records[k].result))
  }

  /** A state in which client `i` of `s` has done what the single client of `t` did. */
  ghost function Amid(s: State, i: nat, t: State): State
    requires i < |s.clients| && |t.clients| == 1
  {
    State(t.blobs, t.actions, s.clients[i := t.clients[0]], s.records + By(i, t.records))
  }

  lemma MovedAmid(s: State, i: nat, t: State, pc: Pc)
    requires i < |s.clients| && |t.clients| == 1
    ensures Moved(Amid(s, i, t), i, pc) == Amid(s, i, Moved(t, 0, pc))
  {
    assert Moved(Amid(s, i, t), i, pc).clients == Amid(s, i, Moved(t, 0, pc)).clients;
  }

  lemma RecordedAmid(s: State, i: nat, t: State, actions: map<Digest, ActionResult>, r: ActionResult)
    requires i < |s.clients| && |t.clients| == 1
    ensures Amid(s, i, t.(actions := actions, records := t.records + [Record(0, r)])) ==
      Amid(s, i, t).(actions := actions, records := Amid(s, i, t).records + [Record(i, r)])
  {
    assert By(i, t.records + [Record(0, r)]) == By(i, t.records) + [Record(i, r)];
  }

  /** The other clients do not matter to a move. */
  lemma StepAmid(c: Codec, s: State, i: nat, t: State, m: Move, u: State)
    requires i < |s.clients| && |t.clients| == 1 && Step(c, t, 0, m) == Some(u)
    ensures |u.clients| == 1 && Step(c, Amid(s, i, t), i, m) == Some(Amid(s, i, u))
  {
    hide CommandBytes, ActionBytes, KeyOf, AllRelative, Needed, StartResult, WithFile, WithDirectory, Stored1, Lack,
      Genuine, Captured;
    var pc := u.clients[0].pc;
    MovedAmid(s, i, t, pc);
    match m
    case Store(b) => MovedAmid(s, i, t.(blobs := Stored1(c, t.blobs, b)), pc);
    case WriteBack(_) =>
      var r := t.clients[0].pc.stage.result;
      var actions := t.actions[KeyOf(c, t.clients[0].opts) := r];
      RecordedAmid(s, i, t, actions, r);
      MovedAmid(s, i, t.(actions := actions, records := t.records + [Record(0, r)]), pc);
    case _ =>
  }

  lemma {:induction false} AfterAmid(c: Codec, s: State, i: nat, t: State, moves: seq<Move>, u: State)
    requires i < |s.clients| && |t.clients| == 1 && After(c, t, MovesOf(0, moves)) == Some(u)
    ensures |u.clients| == 1 && After(c, Amid(s, i, t), MovesOf(i, moves)) == Some(Amid(s, i, u))
  {
    hide Step, Amid;
    if moves == [] {
      assert MovesOf(0, moves) == [] == MovesOf(i, moves);
    } else {
      var n := |moves| - 1;
      assert MovesOf(0, moves)[..n] == MovesOf(0, moves[..n]) && MovesOf(i, moves)[..n] == MovesOf(i, moves[..n]);
      var v := After(c, t, MovesOf(0, moves[..n])).value;
      AfterAmid(c, s, i, t, moves[..n], v);
      StepAmid(c, s, i, v, moves[n], u);
    }
  }

  /** What a run of a single client amounts to in company. */
  lemma SimulatedAmid(c: Codec, sure: bool, s: State, i: nat, opts: RunOptions, blobs: map<string, Bytes>,
      actions: map<Digest, ActionResult>, r: Result<int, Error>, spawned: bool)
      returns (moves: seq<Move>, t: State)
    requires i < |s.clients| && s.clients[i] == Runner(opts, Begin)
    requires Simulated(c, sure, opts, s.blobs, s.actions, blobs, actions, r, spawned)
    ensures After(c, s, MovesOf(i, moves)) == Some(t) && (sure ==> NothingOverlooked(moves))
    ensures t.blobs == blobs && t.actions == actions
    ensures |t.clients| == |s.clients| && forall j :: 0 <= j < |s.clients| && j != i ==> t.clients[j] == s.clients[j]
    ensures t.clients[i].opts == opts && Ends(t.clients[i].pc, r, spawned)
  {
    hide Step, After, Ends;
    var start := Alone(opts, s.blobs, s.actions, Begin);
    var pc, records :|
      Reaches(c, sure, start, State(blobs, actions, [Runner(opts, pc)], records)) && Ends(pc, r, spawned);
    var end := State(blobs, actions, [Runner(opts, pc)], records);
    moves :| After(c, start, MovesOf(0, moves)) == Some(end) && (sure ==> NothingOverlooked(moves));
    AfterAmid(c, s, i, start, moves, end);
    t := Amid(s, i, end);
    assert Amid(s, i, start) == s by { assert s.clients[i := start.clients[0]] == s.clients; }
  }

  // ---------------------------------------------------------------- run_cached among others

  lemma {:induction false} NothingLostJoin(c: Codec, first: State, moves: seq<(nat, Move)>, more: seq<(nat, Move)>)
    requires NothingLost(c, first, moves) && forall k :: 0 <= k < |more| ==> !more[k].1.Overlook?
    ensures NothingLost(c, first, moves + more)
  {
    hide After;
    if more == [] {
      assert moves + more == moves;
    } else {
      var n := |more| - 1;
      NothingLostJoin(c, first, moves, more[..n]);
      assert (moves + more)[..|moves + more| - 1] == moves + more[..n];
      assert (moves + more)[|moves + more| - 1] == more[n];
    }
  }

  /** In any reachable state, a client that has not started may call `run_cached` on the server.
      The state that this leaves is reachable by moves of that client, whose last point agrees with
      what the call returned.  So whatever holds of all reachable states holds of it, too.  Only a
      server that leaves blobs out of its answers makes the client overlook any. */
  method RunAmongOthers(client: RemoteClient, host: Host, opts: RunOptions, effect: Effect, ghost first: State,
      ghost moves: seq<(nat, Move)>, ghost i: nat)
    returns (r: Result<int, Error>, ghost more: seq<Move>, ghost t: State)
    requires client.server.Valid() && host.Valid() && Rooted(effect.after)
    requires After(client.server.c, first, moves).Some?
    requires var s := After(client.server.c, first, moves).value;
      && client.server.blobs == s.blobs && client.server.actions == s.actions
      && i < |s.clients| && s.clients[i] == Runner(opts, Begin)
    requires Hit(client.server.c, opts, client.server.actions) ==>
      FiniteAmong(client.server.c,
        client.server.blobs.Values + {CommandBytes(client.server.c, opts), ActionBytes(client.server.c, opts)},
        client.server.actions[KeyOf(client.server.c, opts)].outputDirectories)
    modifies client.server, host, host.files, host.stdout, host.stderr
    ensures client.server.Valid() && host.Valid()
    ensures After(client.server.c, first, moves + MovesOf(i, more)) == Some(t)
    ensures client.server.thorough && NothingLost(client.server.c, first, moves) ==>
      NothingLost(client.server.c, first, moves + MovesOf(i, more))
    ensures client.server.blobs == t.blobs && client.server.actions == t.actions
    ensures var s := After(client.server.c, first, moves).value;
      && |t.clients| == |s.clients| && t.clients[i].opts == opts
      && forall j :: 0 <= j < |s.clients| && j != i ==> t.clients[j] == s.clients[j]
    ensures Ends(t.clients[i].pc, r, host.spawned != old(host.spawned))
  {
    hide After, CommandBytes, ActionBytes, KeyOf, Simulated, FiniteAmong, CacheBacked, Grown, OnlyRecorded, HashesThere,
      Rooted, AllRelative, Addressed, Ends, NothingLost;
    ghost var c, s := client.server.c, After(client.server.c, first, moves).value;
    ghost var ess;
    r, ess := RunCached(client, host, opts, effect, {}, []);
    more, t := SimulatedAmid(c, client.server.thorough, s, i, opts, client.server.blobs, client.server.actions, r,
                             host.spawned != old(host.spawned));
    AfterJoin(c, first, moves, MovesOf(i, more));
    if client.server.thorough && NothingLost(c, first, moves) { NothingLostJoin(c, first, moves, MovesOf(i, more)); }
  }

  /** What such a call asks for is met wherever nothing has been overlooked: recorded trees are of
      finite depth, whatever blob comes under their digests next. */
  lemma EntryIsFinite(c: Codec, known: set<Bytes>, first: State, moves: seq<(nat, Move)>, opts: RunOptions)
    requires c.Lawful() && Init(c, known, first) && After(c, first, moves).Some? && NothingLost(c, first, moves)
    requires KeyOf(c, opts) in After(c, first, moves).value.actions
    requires c.NoCollision(KnownAfter(c, known, first, moves) + {CommandBytes(c, opts), ActionBytes(c, opts)})
    ensures var s := After(c, first, moves).value;
      FiniteAmong(c, s.blobs.Values + {CommandBytes(c, opts), ActionBytes(c, opts)},
                  s.actions[KeyOf(c, opts)].outputDirectories)
  {
    hide Init, After, SentBy, KnownAfter, CommandBytes, ActionBytes, KeyOf, FiniteAmong, ResultBacked, KeyBacked,
      ClientBacked, Sourced, RecordSound, Addressed, Kept, NothingLost;
    var s, all := After(c, first, moves).value, KnownAfter(c, known, first, moves);
    var sent := {CommandBytes(c, opts), ActionBytes(c, opts)};
    EveryRunKeepsInv(c, true, known, first, moves);
    assert ResultBacked(c, all, s.blobs, s.actions[KeyOf(c, opts)]);
    assert all + (s.blobs.Values + sent) == all + sent;
    BackedIsFinite(c, all, s.blobs, s.actions[KeyOf(c, opts)], s.blobs.Values + sent);
  }
}
