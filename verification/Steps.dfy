/** The steps of `run_cached`, one at a time, for any number of clients over one storage and one
    action cache. */
module Steps {
  import opened Names
  import opened Messages
  import opened Disk
  import opened Upload
  import opened Run

  // ---------------------------------------------------------------- states and moves

  /** What a client does next once its uploads are through. */
  datatype Stage = Lookup | Spawning | Collecting(result: ActionResult)

  datatype Pc =
    | Begin
    | Sending(left: set<Bytes>, next: Stage)
    | At(stage: Stage)
    | Replaying(result: ActionResult)
    | Done(result: ActionResult, replayed: bool)
    | Failed
    | Lost   // the record was made, but the answer to it was lost

  datatype Runner = Runner(opts: RunOptions, pc: Pc)

  datatype Record = Record(author: nat, result: ActionResult)

  /** `records` lists the writes to the action cache in order. */
  datatype State = State(
    blobs: map<string, Bytes>, actions: map<Digest, ActionResult>, clients: seq<Runner>, records: seq<Record>)

  datatype Move =
    | Start
    | Store(blob: Bytes)
    | Proceed
    | Overlook     // an answer that leaves blobs out is taken for success
    | LookUp
    | MissAnyway   // a server may forget
    | Spawn(code: int, stdout: Bytes, stderr: Bytes)
    | CaptureFile(content: Bytes, exec: bool)
    | CaptureDirectory(entries: seq<Named>)
    | Finish
    | WriteBack(lost: bool)
    | Restore
    | Fail

  ghost function Moved(s: State, i: nat, pc: Pc): State
    requires i < |s.clients|
  {
    s.(clients := s.clients[i := Runner(s.clients[i].opts, pc)])
  }

  /** The blobs of `need` that are still missing. */
  ghost function Lack(c: Codec, blobs: map<string, Bytes>, need: set<Bytes>): set<Bytes> {
    set b | b in need && c.hash(b) !in blobs
  }

  /** Asks which blobs are missing, and sends those. */
  ghost function Send(c: Codec, s: State, i: nat, need: set<Bytes>, next: Stage): State
    requires i < |s.clients|
  {
    Moved(s, i, Sending(Lack(c, s.blobs, need), next))
  }

  ghost function Stored1(c: Codec, blobs: map<string, Bytes>, b: Bytes): map<string, Bytes> {
    if c.hash(b) in blobs then blobs else blobs[c.hash(b) := b]
  }

  /** All declared outputs have been captured. */
  predicate Captured(opts: RunOptions, r: ActionResult) {
    |r.outputFiles| == |opts.outputFiles| && |r.outputDirectories| == |opts.outputDirs|
  }

  ghost function StartResult(c: Codec, code: int, stdout: Bytes, stderr: Bytes): ActionResult {
    ActionResult(code, [], Some(c.DigestOf(stdout)), [], Some(c.DigestOf(stderr)), [], [])
  }

  ghost function WithFile(c: Codec, opts: RunOptions, r: ActionResult, content: Bytes, exec: bool): ActionResult
    requires |r.outputFiles| < |opts.outputFiles|
  {
    r.(outputFiles := r.outputFiles +
      [OutputFile(opts.outputFiles[|r.outputFiles|], Some(c.DigestOf(content)), exec)])
  }

  ghost function WithDirectory(c: Codec, opts: RunOptions, r: ActionResult, es: seq<Named>): ActionResult
    requires |r.outputDirectories| < |opts.outputDirs|
  {
    r.(outputDirectories := r.outputDirectories +
      [OutputDirectory(opts.outputDirs[|r.outputDirectories|], Some(Uploaded(c, es).treeDigest),
                       Some(Uploaded(c, es).rootDigest))])
  }

  predicate Active(pc: Pc) { !pc.Done? && !pc.Failed? && !pc.Lost? }

  /** The state after client `i` makes a move, if it can make it. */
  ghost function Step(c: Codec, s: State, i: nat, m: Move): Option<State> {
    if i >= |s.clients| then None
    else
      var opts, pc := s.clients[i].opts, s.clients[i].pc;
      match m
      case Start =>
        if !pc.Begin? then None
        else if !AllRelative(opts) then Some(Moved(s, i, Failed))
        else Some(Send(c, s, i, {CommandBytes(c, opts), ActionBytes(c, opts)}, Lookup))
      case Store(b) =>
        if !pc.Sending? || b !in pc.left then None
        else Some(Moved(s.(blobs := Stored1(c, s.blobs, b)), i, Sending(pc.left - {b}, pc.next)))
      case Proceed =>
        if !pc.Sending? || pc.left != {} then None else Some(Moved(s, i, At(pc.next)))
      case Overlook =>
        if !pc.Sending? then None else Some(Moved(s, i, At(pc.next)))
      case LookUp =>
        if pc != At(Lookup) then None
        else if !opts.noCache && KeyOf(c, opts) in s.actions then
          Some(Moved(s, i, Replaying(s.actions[KeyOf(c, opts)])))
        else Some(Moved(s, i, At(Spawning)))
      case MissAnyway =>
        if pc != At(Lookup) then None else Some(Moved(s, i, At(Spawning)))
      case Spawn(code, stdout, stderr) =>
        if pc != At(Spawning) then None
        else Some(Send(c, s, i, {stdout, stderr}, Collecting(StartResult(c, code, stdout, stderr))))
      case CaptureFile(content, exec) =>
        if !pc.At? || !pc.stage.Collecting? || |pc.stage.result.outputFiles| >= |opts.outputFiles| then None
        else Some(Send(c, s, i, {content}, Collecting(WithFile(c, opts, pc.stage.result, content, exec))))
      case CaptureDirectory(es) =>
        if !pc.At? || !pc.stage.Collecting? || |pc.stage.result.outputFiles| != |opts.outputFiles|
          || |pc.stage.result.outputDirectories| >= |opts.outputDirs| || !Genuine(OnDir(es)) then None
        else Some(Send(c, s, i, Needed(c, es), Collecting(WithDirectory(c, opts, pc.stage.result, es))))
      case Finish =>
        if !pc.At? || !pc.stage.Collecting? || !Captured(opts, pc.stage.result) || !opts.noCache then None
        else Some(Moved(s, i, Done(pc.stage.result, false)))
      case WriteBack(lost) =>
        if !pc.At? || !pc.stage.Collecting? || !Captured(opts, pc.stage.result) || opts.noCache then None
        else
          Some(Moved(s.(actions := s.actions[KeyOf(c, opts) := pc.stage.result],
                        records := s.records + [Record(i, pc.stage.result)]),
                     i, if lost then Lost else Done(pc.stage.result, false)))
      case Restore =>
        if !pc.Replaying? then None else Some(Moved(s, i, Done(pc.result, true)))
      case Fail =>
        if !Active(pc) then None else Some(Moved(s, i, Failed))
  }

  /** The state after a sequence of moves of any clients, in any order. */
  ghost function After(c: Codec, s: State, moves: seq<(nat, Move)>): Option<State> {
    if moves == [] then Some(s)
    else
      match After(c, s, moves[..|moves| - 1])
      case None => None
      case Some(u) => Step(c, u, moves[|moves| - 1].0, moves[|moves| - 1].1)
  }

  // ---------------------------------------------------------------- sequences of moves

  /** The blobs that a move is about to send. */
  ghost function NeedOf(c: Codec, opts: RunOptions, m: Move): set<Bytes> {
    match m
    case Start => {CommandBytes(c, opts), ActionBytes(c, opts)}
    case Spawn(_, stdout, stderr) => {stdout, stderr}
    case CaptureFile(content, _) => {content}
    case CaptureDirectory(es) => Needed(c, es)
    case _ => {}
  }

  /** All blobs that the moves of these clients send are in `all`. */
  ghost predicate Within(c: Codec, clients: seq<Runner>, moves: seq<(nat, Move)>, all: set<Bytes>) {
    forall k :: 0 <= k < |moves| && moves[k].0 < |clients| ==> NeedOf(c, clients[moves[k].0].opts, moves[k].1) <= all
  }

  /** The finite set of all of them. */
  ghost function SentBy(c: Codec, clients: seq<Runner>, moves: seq<(nat, Move)>): (all: set<Bytes>)
    ensures Within(c, clients, moves, all)
  {
    if moves == [] then {}
    else
      var n := |moves| - 1;
      var rest := SentBy(c, clients, moves[..n]);
      assert forall k :: 0 <= k < n ==> moves[..n][k] == moves[k];
      rest + if moves[n].0 < |clients| then NeedOf(c, clients[moves[n].0].opts, moves[n].1) else {}
  }

  ghost function MovesOf(i: nat, moves: seq<Move>): (r: seq<(nat, Move)>)
    ensures |r| == |moves| && forall k :: 0 <= k < |r| ==> r[k] == (i, moves[k])
  {
    seq(|moves|, k requires 0 <= k < |moves| => (i, moves[k]))
  }

  lemma {:induction false} Chained(c: Codec, i: nat, states: seq<State>, moves: seq<Move>)
    requires |states| == |moves| + 1
    requires forall k :: 0 <= k < |moves| ==> Step(c, states[k], i, moves[k]) == Some(states[k + 1])
    ensures After(c, states[0], MovesOf(i, moves)) == Some(states[|moves|])
  {
    hide Step;
    if moves != [] {
      var n := |moves| - 1;
      Chained(c, i, states[..n + 1], moves[..n]);
      assert MovesOf(i, moves)[..n] == MovesOf(i, moves[..n]);
    }
  }

  lemma {:induction false} AfterJoin(c: Codec, s: State, moves: seq<(nat, Move)>, more: seq<(nat, Move)>)
    requires After(c, s, moves).Some?
    ensures After(c, s, moves + more) == After(c, After(c, s, moves).value, more)
  {
    hide Step;
    if more == [] {
      assert moves + more == moves;
    } else {
      AfterJoin(c, s, moves, more[..|more| - 1]);
      assert (moves + more)[..|moves + more| - 1] == moves + more[..|more| - 1];
    }
  }

  lemma MovedTwice(s: State, i: nat, pc: Pc)
    requires i < |s.clients|
    ensures Moved(s, i, pc).clients[i] == Runner(s.clients[i].opts, pc)
    ensures forall x :: Moved(Moved(s, i, pc), i, x) == Moved(s, i, x)
  {
    forall x ensures Moved(Moved(s, i, pc), i, x) == Moved(s, i, x) {
      assert Moved(Moved(s, i, pc), i, x).clients == Moved(s, i, x).clients;
    }
  }

  lemma MovedOther(s: State, t: State, i: nat, pc: Pc, x: Pc)
    requires i < |s.clients| && t.clients == s.clients
    ensures Moved(t.(clients := Moved(s, i, pc).clients), i, x) == Moved(t, i, x)
  {
    assert Moved(t.(clients := Moved(s, i, pc).clients), i, x).clients == Moved(t, i, x).clients;
  }
}
