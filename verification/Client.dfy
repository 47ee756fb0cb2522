/** `RemoteClient`: batched, deduplicated access to a service. */
module Client {
  import opened Names
  import opened Messages
  import opened Batching
  import opened Remote

  /** The digest of a response item, unless the item is malformed or reports a failure. */
  function CheckBlobStatus(digest: Option<Digest>, status: Option<Status>): (r: Result<Digest, Error>)
    ensures r.Ok? <==> digest.Some? && (status.None? || status.value.code == 0)
    ensures r.Ok? ==> digest == Some(r.value)
    ensures r.Err? ==> r.error == if digest.None? then MalformedResponse else BlobStatus(digest.value.hash)
  {
    if digest.None? then Err(MalformedResponse)
    else if status.Some? && status.value.code != 0 then Err(BlobStatus(digest.value.hash))
    else Ok(digest.value)
  }

  /** The ways in which a transfer fails. */
  predicate TransferError(e: Error) { e.Rpc? || e.MalformedResponse? || e.BlobStatus? }

  function FindSize(d: Digest): nat { |d.hash| + 8 }

  function UpdateSize(b: Blob): nat { |b.data| + |b.digest.hash| }

  function ReadSize(d: Digest): nat { |d.hash| + if d.size < 0 then 0 else d.size }

  function DigestsOf(blobs: seq<Blob>): (r: seq<Digest>)
    ensures |r| == |blobs| && forall i :: 0 <= i < |r| ==> r[i] == blobs[i].digest
  {
    seq(|blobs|, i requires 0 <= i < |blobs| => blobs[i].digest)
  }

  /** The blobs that storage does not have yet. */
  function Lacking(blobs: seq<Blob>, there: map<string, Bytes>): seq<Blob> {
    if blobs == [] then []
    else
      (if blobs[0].digest.hash in there then [] else [blobs[0]]) + Lacking(blobs[1..], there)
  }

  /** Storage holds a blob under every one of these hashes. */
  ghost predicate AllThere(blobs: map<string, Bytes>, digests: seq<Digest>) {
    forall d :: d in digests ==> d.hash in blobs
  }

  /** What a download returns: blobs of storage, all of them ones that were asked for. */
  ghost predicate Fetched(blobs: map<string, Bytes>, digests: seq<Digest>, contents: map<string, Bytes>) {
    forall h :: h in contents ==>
      && (exists d :: d in digests && d.hash == h)
      && h in blobs && contents[h] == blobs[h]
  }

  ghost predicate FetchedAll(digests: seq<Digest>, contents: map<string, Bytes>) {
    forall d :: d in digests ==> d.hash in contents
  }

  /** `blobs` restricted to the hashes reported missing. */
  function Missing(blobs: seq<Blob>, missing: set<string>): seq<Blob> {
    if blobs == [] then []
    else (if blobs[0].digest.hash in missing then [blobs[0]] else []) + Missing(blobs[1..], missing)
  }

  lemma NextBatch<T>(batches: seq<seq<T>>, i: nat)
    requires i < |batches|
    ensures Flatten(batches[i..]) == batches[i] + Flatten(batches[i + 1..])
  {
    assert batches[i..][1..] == batches[i + 1..];
  }

  lemma LastBatch<T>(batches: seq<seq<T>>)
    ensures Flatten(batches[|batches|..]) == []
  {
  }

  lemma MissingJoins(there: map<string, Bytes>, s: seq<Digest>, t: seq<Digest>)
    ensures MissingHashes(there, s + t) == MissingHashes(there, s) + MissingHashes(there, t)
  {
    var all := s + t;
    assert forall i :: 0 <= i < |s| ==> all[i] == s[i];
    assert forall i :: 0 <= i < |t| ==> all[|s| + i] == t[i];
  }

  lemma DataJoins(s: seq<Blob>, t: seq<Blob>)
    ensures DataOf(s + t) == DataOf(s) + DataOf(t)
  {
    var all := s + t;
    assert forall i :: 0 <= i < |s| ==> all[i] == s[i];
    assert forall i :: 0 <= i < |t| ==> all[|s| + i] == t[i];
  }

  lemma SentJoins(c: Codec, a: map<string, Bytes>, b: map<string, Bytes>, d: map<string, Bytes>,
      sent: seq<Blob>, batch: seq<Blob>, rest: seq<Blob>)
    requires Grown(c, a, b, DataOf(sent)) && Grown(c, b, d, DataOf(batch))
    ensures Grown(c, a, d, DataOf(sent + batch)) && Grown(c, a, d, DataOf(sent + batch + rest))
    ensures forall h :: h in b ==> h in d
  {
    DataJoins(sent, batch);
    DataJoins(sent + batch, rest);
    GrownTransitive(c, a, b, d, DataOf(sent), DataOf(batch));
  }

  lemma ReceivedJoins(before: seq<string>, middle: seq<string>, after: seq<string>,
      sent: seq<Blob>, batch: seq<Blob>, rest: seq<Blob>)
    requires ReceivedFrom(before, middle, sent + batch + rest) && ReceivedFrom(middle, after, batch)
    ensures ReceivedFrom(before, after, sent + batch + rest)
    ensures Hashes(sent + batch) == Hashes(sent) + Hashes(batch)
  {
    var all := sent + batch + rest;
    assert after[|before|..] == middle[|before|..] + after[|middle|..];
    forall h | h in after[|middle|..] ensures h in Hashes(all) {
      assert h in Hashes(batch);
      var i :| 0 <= i < |batch| && Hashes(batch)[i] == h;
      assert Hashes(all)[|sent| + i] == h;
    }
  }

  lemma NothingGrown(c: Codec, blobs: map<string, Bytes>, added: set<Bytes>)
    ensures Grown(c, blobs, blobs, added)
  {
  }

  lemma {:induction false} MissingIsLacking(blobs: seq<Blob>, there: map<string, Bytes>, missing: set<string>)
    requires forall i :: 0 <= i < |blobs| ==> (blobs[i].digest.hash in missing <==> blobs[i].digest.hash !in there)
    ensures Missing(blobs, missing) == Lacking(blobs, there)
  {
    if blobs != [] {
      MissingIsLacking(blobs[1..], there, missing);
    }
  }

  lemma ReportedMissing(there: map<string, Bytes>, blobs: seq<Blob>)
    ensures forall i :: 0 <= i < |blobs| ==>
      (blobs[i].digest.hash in MissingHashes(there, DigestsOf(blobs)) <==> blobs[i].digest.hash !in there)
  {
    forall i | 0 <= i < |blobs|
      ensures blobs[i].digest.hash in MissingHashes(there, DigestsOf(blobs)) <==> blobs[i].digest.hash !in there
    {
      assert DigestsOf(blobs)[i] == blobs[i].digest;
    }
  }

  lemma {:induction false} LackingParts(c: Codec, blobs: seq<Blob>, there: map<string, Bytes>)
    requires Honest(c, blobs)
    ensures Honest(c, Lacking(blobs, there)) && DataOf(Lacking(blobs, there)) <= DataOf(blobs)
    ensures forall i :: 0 <= i < |blobs| && blobs[i].digest.hash !in there ==> blobs[i] in Lacking(blobs, there)
  {
    if blobs != [] {
      LackingParts(c, blobs[1..], there);
      assert blobs == [blobs[0]] + blobs[1..];
      DataJoins([blobs[0]], blobs[1..]);
      DataJoins(if blobs[0].digest.hash in there then [] else [blobs[0]], Lacking(blobs[1..], there));
      forall i | 0 < i < |blobs| && blobs[i].digest.hash !in there ensures blobs[i] in Lacking(blobs, there) {
        assert blobs[1..][i - 1] == blobs[i];
      }
    }
  }

  /** A batch is through when every one of its answers is. */
  method CheckResponses(responses: seq<UpdateResponse>) returns (r: Result<(), Error>)
    ensures r.Ok? <==>
      forall i :: 0 <= i < |responses| ==> responses[i].digest.Some? && Succeeded(responses[i].status)
    ensures r.Err? ==> TransferError(r.error)
  {
    for i := 0 to |responses|
      invariant forall k :: 0 <= k < i ==> responses[k].digest.Some? && Succeeded(responses[k].status)
    {
      var checked := CheckBlobStatus(responses[i].digest, responses[i].status);
      if checked.Err? { return Err(checked.error); }
    }
    r := Ok(());
  }

  /** Every answer is one for a blob that is there now. */
  ghost predicate Accepted(answers: seq<UpdateResponse>, blobs: map<string, Bytes>) {
    forall k :: 0 <= k < |answers| ==>
      && answers[k].digest.Some? && Succeeded(answers[k].status)
      && answers[k].digest.value.hash in blobs
  }

  /** An answer that names a digest and reports no failure. */
  ghost predicate Good(answer: UpdateResponse) {
    answer.digest.Some? && (answer.status.None? || answer.status.value.code == 0)
  }

  lemma BadStays(before: seq<UpdateResponse>, more: seq<UpdateResponse>)
    ensures forall k :: 0 <= k < |more| ==> (before + more)[|before| + k] == more[k]
  {
  }

  lemma AcceptedAreGood(answers: seq<UpdateResponse>, blobs: map<string, Bytes>)
    requires Accepted(answers, blobs)
    ensures forall k :: 0 <= k < |answers| ==> Good(answers[k])
  {
  }

  predicate Named(answers: seq<UpdateResponse>, digest: Digest) {
    exists k :: 0 <= k < |answers| && answers[k].digest == Some(digest)
  }

  /** The blobs that no answer is for. */
  ghost function Unanswered(blobs: seq<Blob>, answers: seq<UpdateResponse>): seq<Blob> {
    if blobs == [] then []
    else (if Named(answers, blobs[0].digest) then [] else [blobs[0]]) + Unanswered(blobs[1..], answers)
  }

  ghost predicate BlobsThere(blobs: seq<Blob>, there: map<string, Bytes>) {
    forall k :: 0 <= k < |blobs| ==> blobs[k].digest.hash in there
  }

  /** If all answers are good, then all blobs are there exactly when those are that none is for. */
  lemma {:induction false} UnansweredDecide(blobs: seq<Blob>, answers: seq<UpdateResponse>, there: map<string, Bytes>)
    requires Accepted(answers, there)
    ensures BlobsThere(blobs, there) <==> BlobsThere(Unanswered(blobs, answers), there)
  {
    hide Accepted;
    if blobs != [] {
      UnansweredDecide(blobs[1..], answers, there);
      var first, rest := blobs[0], Unanswered(blobs[1..], answers);
      assert blobs == [first] + blobs[1..];
      ThereJoins([first], blobs[1..], there);
      ThereJoins([first], rest, there);
      if Named(answers, first.digest) {
        NamedIsThere(answers, there, first.digest);
        assert [] + rest == rest;
      }
    }
  }

  lemma NamedIsThere(answers: seq<UpdateResponse>, there: map<string, Bytes>, digest: Digest)
    requires Accepted(answers, there) && Named(answers, digest)
    ensures digest.hash in there
  {
  }

  lemma ThereJoins(s: seq<Blob>, t: seq<Blob>, there: map<string, Bytes>)
    ensures BlobsThere(s + t, there) <==> BlobsThere(s, there) && BlobsThere(t, there)
  {
    var all := s + t;
    assert forall k :: 0 <= k < |s| ==> all[k] == s[k];
    assert forall k :: 0 <= k < |t| ==> all[|s| + k] == t[k];
  }

  /** An empty answer lets a batch through of which nothing has been stored. */
  lemma UnansweredIsLost(c: Codec, batch: seq<Blob>, there: map<string, Bytes>)
    requires batch != [] && !BlobsThere(batch, there)
    ensures MayAcknowledge(c, false, false, batch, there, Some([]))
    ensures Accepted([], there) && Unanswered(batch, []) == batch
  {
    NoneAnswered(batch);
  }

  lemma {:induction false} NoneAnswered(blobs: seq<Blob>)
    ensures Unanswered(blobs, []) == blobs
  {
    if blobs != [] { NoneAnswered(blobs[1..]); }
  }

  lemma AnswersAllow(c: Codec, reliable: bool, thorough: bool, responses: seq<UpdateResponse>, batch: seq<Blob>,
      blobs: map<string, Bytes>, ok: bool)
    requires Honest(c, batch) && (reliable ==> thorough)
    requires MayAcknowledge(c, reliable, thorough, batch, blobs, Some(responses))
    requires ok <==> forall i :: 0 <= i < |responses| ==> responses[i].digest.Some? && Succeeded(responses[i].status)
    ensures reliable ==> ok
    ensures ok ==> Accepted(responses, blobs)
    ensures ok && thorough ==> |responses| == |batch| && BlobsThere(batch, blobs)
    ensures ok && thorough ==> forall i :: 0 <= i < |batch| ==> Succeeded(responses[i].status)
  {
    forall k | 0 <= k < |responses|
      ensures responses[k].digest.Some? && (reliable ==> Succeeded(responses[k].status))
      ensures Succeeded(responses[k].status) ==> responses[k].digest.value.hash in blobs
    {
      var i :| 0 <= i < |batch| && Answers(c, reliable, responses[k], batch[i], blobs);
    }
    if ok && thorough {
      forall i | 0 <= i < |batch| ensures batch[i].digest.hash in blobs {
        assert Answers(c, reliable, responses[i], batch[i], blobs);
      }
    }
  }

  /** `sent` has been sent of `blobs`, all answers so far were good, and if the server answers for
      every blob, all of it is there. */
  ghost predicate SentSoFar(c: Codec, thorough: bool, before: map<string, Bytes>, now: map<string, Bytes>,
      heard: seq<string>, received: seq<string>, blobs: seq<Blob>, sent: seq<Blob>, answers: seq<UpdateResponse>)
  {
    && Grown(c, before, now, DataOf(sent))
    && Accepted(answers, now)
    && (thorough ==> BlobsThere(sent, now) && received == heard + Hashes(sent))
    && ReceivedFrom(heard, received, blobs)
  }

  lemma NothingSent(c: Codec, thorough: bool, blobs: map<string, Bytes>, heard: seq<string>, all: seq<Blob>)
    ensures SentSoFar(c, thorough, blobs, blobs, heard, heard, all, [], [])
  {
    NothingReceived(c, blobs, heard, all);
  }

  lemma SentMeans(c: Codec, thorough: bool, before: map<string, Bytes>, now: map<string, Bytes>, heard: seq<string>,
      received: seq<string>, blobs: seq<Blob>, sent: seq<Blob>, answers: seq<UpdateResponse>)
    requires SentSoFar(c, thorough, before, now, heard, received, blobs, sent, answers)
    ensures Grown(c, before, now, DataOf(sent)) && ReceivedFrom(heard, received, blobs) && Accepted(answers, now)
    ensures thorough ==> received == heard + Hashes(sent) && BlobsThere(sent, now)
  {
  }

  lemma HonestPart(c: Codec, sent: seq<Blob>, batch: seq<Blob>, rest: seq<Blob>)
    requires Honest(c, sent + batch + rest)
    ensures Honest(c, batch)
  {
    assert forall k :: 0 <= k < |batch| ==> batch[k] == (sent + batch + rest)[|sent| + k];
  }

  /** Whatever becomes of a batch, storage grew and heard no more than was sent. */
  lemma SentParts(c: Codec, thorough: bool, before: map<string, Bytes>, was: map<string, Bytes>,
      now: map<string, Bytes>, heard: seq<string>, hearing: seq<string>, received: seq<string>, sent: seq<Blob>,
      batch: seq<Blob>, rest: seq<Blob>, answers: seq<UpdateResponse>)
    requires SentSoFar(c, thorough, before, was, heard, hearing, sent + batch + rest, sent, answers)
    requires Grown(c, was, now, DataOf(batch)) && ReceivedFrom(hearing, received, batch)
    ensures Grown(c, before, now, DataOf(sent + batch + rest))
    ensures ReceivedFrom(heard, received, sent + batch + rest)
  {
    hide Grown, DataOf, Hashes, ReceivedFrom, Accepted, BlobsThere;
    SentMeans(c, thorough, before, was, heard, hearing, sent + batch + rest, sent, answers);
    SentJoins(c, before, was, now, sent, batch, rest);
    ReceivedJoins(heard, hearing, received, sent, batch, rest);
  }

  lemma SentMore(c: Codec, thorough: bool, before: map<string, Bytes>, was: map<string, Bytes>,
      now: map<string, Bytes>, heard: seq<string>, hearing: seq<string>, received: seq<string>, sent: seq<Blob>,
      batch: seq<Blob>, rest: seq<Blob>, answers: seq<UpdateResponse>, more: seq<UpdateResponse>)
    requires SentSoFar(c, thorough, before, was, heard, hearing, sent + batch + rest, sent, answers)
    requires Grown(c, was, now, DataOf(batch)) && ReceivedFrom(hearing, received, batch)
    requires Accepted(more, now)
    requires thorough ==> received == hearing + Hashes(batch) && BlobsThere(batch, now)
    ensures SentSoFar(c, thorough, before, now, heard, received, sent + batch + rest, sent + batch, answers + more)
  {
    hide Grown, DataOf, Hashes, ReceivedFrom, Accepted, BlobsThere;
    SentJoins(c, before, was, now, sent, batch, rest);
    ReceivedJoins(heard, hearing, received, sent, batch, rest);
    AcceptedStays(was, now, answers, more);
    ThereJoins(sent, batch, now);
    if thorough { BlobsStay(was, now, sent); }
  }

  lemma BlobsStay(was: map<string, Bytes>, now: map<string, Bytes>, sent: seq<Blob>)
    requires BlobsThere(sent, was) && forall h :: h in was ==> h in now
    ensures BlobsThere(sent, now)
  {
  }

  lemma AcceptedStays(was: map<string, Bytes>, now: map<string, Bytes>, answers: seq<UpdateResponse>,
      more: seq<UpdateResponse>)
    requires Accepted(answers, was) && Accepted(more, now) && forall h :: h in was ==> h in now
    ensures Accepted(answers + more, now)
  {
  }

  // ---------------------------------------------------------------- how large requests are

  ghost function FindBytes(request: seq<Digest>): nat {
    if request == [] then 0
    else
      var last := request[|request| - 1];
      FindBytes(request[..|request| - 1]) + |last.hash| + 8
  }

  /** No request is empty, none is over budget but for a single digest, and none has room for the next. */
  ghost predicate FindsFit(budget: nat, requests: seq<seq<Digest>>) {
    && (forall i :: 0 <= i < |requests| ==>
         requests[i] != [] && (|requests[i]| == 1 || FindBytes(requests[i]) <= budget))
    && (forall i :: 0 < i < |requests| && requests[i] != [] ==>
         FindBytes(requests[i - 1]) + |requests[i][0].hash| + 8 > budget)
  }

  lemma {:induction false} FindBytesAreSize(request: seq<Digest>)
    ensures Size(request, FindSize) == FindBytes(request)
  {
    if request != [] { FindBytesAreSize(request[..|request| - 1]); }
  }

  lemma FindsChunked(budget: nat, batches: seq<seq<Digest>>)
    requires AllSendable(batches, budget, FindSize) && Packed(batches, budget, FindSize)
    ensures forall k :: 0 <= k <= |batches| ==> FindsFit(budget, batches[..k])
  {
    hide Size, FindBytes;
    forall i | 0 <= i < |batches|
      ensures batches[i] != [] && (|batches[i]| == 1 || FindBytes(batches[i]) <= budget)
      ensures i > 0 ==> FindBytes(batches[i - 1]) + |batches[i][0].hash| + 8 > budget
    {
      assert Sendable(batches[i], budget, FindSize);
      FindBytesAreSize(batches[i]);
      if i > 0 { FindBytesAreSize(batches[i - 1]); }
    }
  }

  ghost function UpdateBytes(request: seq<Blob>): nat {
    if request == [] then 0
    else
      var last := request[|request| - 1];
      UpdateBytes(request[..|request| - 1]) + |last.data| + |last.digest.hash|
  }

  /** The same of updates. */
  ghost predicate UpdatesFit(budget: nat, requests: seq<seq<Blob>>) {
    && (forall i :: 0 <= i < |requests| ==>
         requests[i] != [] && (|requests[i]| == 1 || UpdateBytes(requests[i]) <= budget))
    && (forall i :: 0 < i < |requests| && requests[i] != [] ==>
         UpdateBytes(requests[i - 1]) + |requests[i][0].data| + |requests[i][0].digest.hash| > budget)
  }

  lemma {:induction false} UpdateBytesAreSize(request: seq<Blob>)
    ensures Size(request, UpdateSize) == UpdateBytes(request)
  {
    if request != [] { UpdateBytesAreSize(request[..|request| - 1]); }
  }

  lemma UpdatesChunked(budget: nat, batches: seq<seq<Blob>>)
    requires AllSendable(batches, budget, UpdateSize) && Packed(batches, budget, UpdateSize)
    ensures forall k :: 0 <= k <= |batches| ==> UpdatesFit(budget, batches[..k])
  {
    hide Size, UpdateBytes;
    forall i | 0 <= i < |batches|
      ensures batches[i] != [] && (|batches[i]| == 1 || UpdateBytes(batches[i]) <= budget)
      ensures i > 0 ==> UpdateBytes(batches[i - 1]) + |batches[i][0].data| + |batches[i][0].digest.hash| > budget
    {
      assert Sendable(batches[i], budget, UpdateSize);
      UpdateBytesAreSize(batches[i]);
      if i > 0 { UpdateBytesAreSize(batches[i - 1]); }
    }
  }

  ghost function FetchBytes(request: seq<Digest>): nat {
    if request == [] then 0
    else
      var last := request[|request| - 1];
      FetchBytes(request[..|request| - 1]) + |last.hash| + if last.size < 0 then 0 else last.size
  }

  /** The same of reads, by the size that a digest claims. */
  ghost predicate FetchesFit(budget: nat, requests: seq<seq<Digest>>) {
    && (forall i :: 0 <= i < |requests| ==>
         requests[i] != [] && (|requests[i]| == 1 || FetchBytes(requests[i]) <= budget))
    && (forall i :: 0 < i < |requests| && requests[i] != [] ==>
         var next := requests[i][0];
         FetchBytes(requests[i - 1]) + |next.hash| + (if next.size < 0 then 0 else next.size) > budget)
  }

  lemma {:induction false} FetchBytesAreSize(request: seq<Digest>)
    ensures Size(request, ReadSize) == FetchBytes(request)
  {
    if request != [] { FetchBytesAreSize(request[..|request| - 1]); }
  }

  lemma FetchesChunked(budget: nat, batches: seq<seq<Digest>>)
    requires AllSendable(batches, budget, ReadSize) && Packed(batches, budget, ReadSize)
    ensures forall k :: 0 <= k <= |batches| ==> FetchesFit(budget, batches[..k])
  {
    hide Size, FetchBytes;
    forall i | 0 <= i < |batches|
      ensures batches[i] != [] && (|batches[i]| == 1 || FetchBytes(batches[i]) <= budget)
      ensures i > 0 ==>
        var next := batches[i][0];
        FetchBytes(batches[i - 1]) + |next.hash| + (if next.size < 0 then 0 else next.size) > budget
    {
      assert Sendable(batches[i], budget, ReadSize);
      FetchBytesAreSize(batches[i]);
      if i > 0 { FetchBytesAreSize(batches[i - 1]); }
    }
  }

  class RemoteClient {
    const server: Server
    const budget: nat

    constructor (server: Server, budget: nat)
      ensures this.server == server && this.budget == budget
    {
      this.server := server;
      this.budget := budget;
    }

    /** The hashes of `digests` that storage does not have. */
    method FindMissingBlobs(digests: seq<Digest>) returns (r: Result<set<string>, Error>)
      modifies server`log
      ensures server.log == old(server.log).(finds := server.log.finds, failed := server.log.failed)
      ensures old(server.log.finds) <= server.log.finds
      ensures r.Ok? <==> server.log.failed == old(server.log.failed)
      ensures FindsFit(budget, server.log.finds[|old(server.log.finds)|..])
      ensures r.Ok? ==> Flatten(server.log.finds[|old(server.log.finds)|..]) == digests
      ensures server.reliable ==> r.Ok?
      ensures r.Err? ==> TransferError(r.error)
      ensures r.Ok? ==> r.value == MissingHashes(server.blobs, digests)
    {
      hide FindsFit, Flatten, AllSendable, Packed;
      var missing: set<string> := {};
      var batches := ChunkBySize(digests, budget, FindSize);
      FindsChunked(budget, batches);
      ghost var was := server.log.finds;
      assert was + batches[..0] == was;
      ghost var sent: seq<Digest> := [];
      for i := 0 to |batches|
        invariant digests == sent + Flatten(batches[i..])
        invariant missing == MissingHashes(server.blobs, sent)
        invariant server.log == old(server.log).(finds := was + batches[..i])
      {
        assert (was + batches[..i]) + [batches[i]] == was + batches[..i + 1];
        assert (was + batches[..i + 1])[|was|..] == batches[..i + 1];
        var response := server.FindMissingBlobs(batches[i]);
        if response.None? { return Err(Rpc); }
        missing := missing + set k | 0 <= k < |response.value| :: response.value[k].hash;
        MissingJoins(server.blobs, sent, batches[i]);
        sent := sent + batches[i];
        NextBatch(batches, i);
      }
      LastBatch(batches);
      assert sent == digests;
      assert batches[..|batches|] == batches && (was + batches)[|was|..] == batches;
      r := Ok(missing);
    }

    /** Sends `blobs`, and fails if any answer says that one was not accepted.  Blobs that no answer
        is for go unnoticed: all are there exactly when those are. */
    method UploadBlobs(blobs: seq<Blob>) returns (r: Result<(), Error>, ghost answers: seq<UpdateResponse>)
      requires server.Valid() && Honest(server.c, blobs)
      modifies server`blobs, server`received, server`log
      ensures server.Valid() && Grown(server.c, old(server.blobs), server.blobs, DataOf(blobs))
      ensures server.reliable ==> r.Ok?
      ensures r.Err? ==> TransferError(r.error)
      ensures old(server.log.updates) <= server.log.updates
      ensures UpdatesFit(budget, server.log.updates[|old(server.log.updates)|..])
      ensures r.Ok? ==> Flatten(server.log.updates[|old(server.log.updates)|..]) == blobs
      ensures r.Ok? ==> server.log.answers == old(server.log.answers) + answers && Accepted(answers, server.blobs)
      ensures server.log == old(server.log).(
        updates := server.log.updates, answers := server.log.answers, failed := server.log.failed)
      ensures old(server.log.answers) <= server.log.answers
      ensures r.Ok? <==>
        && server.log.failed == old(server.log.failed)
        && forall k :: |old(server.log.answers)| <= k < |server.log.answers| ==> Good(server.log.answers[k])
      ensures r.Ok? ==> (BlobsThere(blobs, server.blobs) <==> BlobsThere(Unanswered(blobs, answers), server.blobs))
      ensures r.Ok? && server.thorough ==>
        BlobsThere(blobs, server.blobs) && server.received == old(server.received) + Hashes(blobs)
      ensures ReceivedFrom(old(server.received), server.received, blobs)
    {
      hide Flatten, Grown, DataOf, Hashes, ReceivedFrom, Addressed, Answers, SentSoFar, Honest, MayAcknowledge,
        Accepted, BlobsThere, Unanswered, UpdatesFit, AllSendable, Packed;
      var batches := ChunkBySize(blobs, budget, UpdateSize);
      UpdatesChunked(budget, batches);
      ghost var asked := server.log.updates;
      assert asked + batches[..0] == asked;
      ghost var sent: seq<Blob> := [];
      ghost var before, heard := server.blobs, server.received;
      answers := [];
      NothingSent(server.c, server.thorough, before, heard, blobs);
      for i := 0 to |batches|
        invariant blobs == sent + Flatten(batches[i..])
        invariant server.Valid()
        invariant SentSoFar(server.c, server.thorough, before, server.blobs, heard, server.received, blobs, sent,
                            answers)
        invariant server.log ==
          old(server.log).(updates := asked + batches[..i], answers := old(server.log.answers) + answers)
      {
        var batch := batches[i];
        assert (asked + batches[..i]) + [batch] == asked + batches[..i + 1];
        assert (asked + batches[..i + 1])[|asked|..] == batches[..i + 1];
        NextBatch(batches, i);
        ghost var was, hearing, rest := server.blobs, server.received, Flatten(batches[i + 1..]);
        assert blobs == sent + batch + rest;
        HonestPart(server.c, sent, batch, rest);
        var response := server.BatchUpdateBlobs(batch);
        SentParts(server.c, server.thorough, before, was, server.blobs, heard, hearing, server.received, sent, batch,
                  rest, answers);
        AcknowledgedBy(server.c, server.reliable, server.thorough, batch, server.blobs, response);
        if response.None? { return Err(Rpc), answers; }
        var checked := CheckResponses(response.value);
        AnswersAllow(server.c, server.reliable, server.thorough, response.value, batch, server.blobs, checked.Ok?);
        BadStays(old(server.log.answers) + answers, response.value);
        if checked.Err? { return checked, answers; }
        SentMore(server.c, server.thorough, before, was, server.blobs, heard, hearing, server.received, sent, batch,
                 rest, answers, response.value);
        answers := answers + response.value;
        sent := sent + batch;
      }
      LastBatch(batches);
      assert sent == blobs;
      assert batches[..|batches|] == batches && (asked + batches)[|asked|..] == batches;
      SentMeans(server.c, server.thorough, before, server.blobs, heard, server.received, blobs, sent, answers);
      AcceptedAreGood(answers, server.blobs);
      UnansweredDecide(blobs, answers, server.blobs);
      r := Ok(());
    }

    /** Sends only what storage does not have yet. */
    method UploadIfMissing(blobs: seq<Blob>) returns (r: Result<(), Error>, ghost answers: seq<UpdateResponse>)
      requires server.Valid() && Honest(server.c, blobs)
      modifies server`blobs, server`received, server`log
      ensures server.Valid() && Grown(server.c, old(server.blobs), server.blobs, DataOf(blobs))
      ensures server.reliable ==> r.Ok?
      ensures r.Err? ==> TransferError(r.error)
      ensures old(server.log.finds) <= server.log.finds && old(server.log.updates) <= server.log.updates
      ensures FindsFit(budget, server.log.finds[|old(server.log.finds)|..])
      ensures UpdatesFit(budget, server.log.updates[|old(server.log.updates)|..])
      ensures r.Ok? ==>
        Flatten(server.log.updates[|old(server.log.updates)|..]) == Lacking(blobs, old(server.blobs))
      ensures server.log.fetches == old(server.log.fetches)
      ensures r.Ok? ==> server.log.answers == old(server.log.answers) + answers
      ensures old(server.log.answers) <= server.log.answers
      ensures r.Ok? <==>
        && server.log.failed == old(server.log.failed)
        && forall k :: |old(server.log.answers)| <= k < |server.log.answers| ==> Good(server.log.answers[k])
      ensures r.Ok? ==>
        (BlobsThere(blobs, server.blobs) <==>
          BlobsThere(Unanswered(Lacking(blobs, old(server.blobs)), answers), server.blobs))
      ensures r.Ok? && server.thorough ==> BlobsThere(blobs, server.blobs)
      ensures r.Ok? && server.thorough ==>
        server.received == old(server.received) + Hashes(Lacking(blobs, old(server.blobs)))
      ensures ReceivedFrom(old(server.received), server.received, Lacking(blobs, old(server.blobs)))
    {
      hide Grown, DataOf, Hashes, ReceivedFrom, Addressed, BlobsThere, Unanswered, Accepted, Flatten, FindsFit,
        UpdatesFit;
      NothingAsked(budget);
      assert server.log.updates[|server.log.updates|..] == [];
      answers := [];
      var digests := DigestsOf(blobs);
      var missing := FindMissingBlobs(digests);
      NothingReceived(server.c, server.blobs, server.received, Lacking(blobs, server.blobs));
      NothingGrown(server.c, server.blobs, DataOf(blobs));
      if missing.Err? { return Err(missing.error), answers; }
      ReportedMissing(server.blobs, blobs);
      MissingIsLacking(blobs, server.blobs, missing.value);
      var toUpload := Missing(blobs, missing.value);
      LackingParts(server.c, blobs, server.blobs);
      ghost var was := server.blobs;
      r, answers := UploadBlobs(toUpload);
      SentIsThere(server.c, was, server.blobs, blobs);
    }

    /** `Ok(None)` is a cache miss. */
    method CachedResult(key: Digest) returns (r: Result<Option<ActionResult>, Error>)
      ensures server.reliable ==> r.Ok? && (r.value.Some? <==> key in server.actions)
      ensures r.Ok? && r.value.Some? ==>
        key in server.actions && Inlined(server.blobs, server.actions[key], r.value.value)
    {
      r := server.GetActionResult(key);
    }

    method UpdateResult(key: Digest, result: ActionResult) returns (r: Result<(), Error>)
      modifies server`actions
      ensures server.reliable ==> r.Ok?
      ensures r.Ok? ==> server.actions == old(server.actions)[key := result]
      ensures server.actions == old(server.actions) || server.actions == old(server.actions)[key := result]
    {
      var ok := server.UpdateActionResult(key, result);
      r := if ok then Ok(()) else Err(Rpc);
    }

    /** Fetches blobs by digest, a batch at a time.  What comes of it is `Outcome` of the answers. */
    method DownloadAnswered(digests: seq<Digest>)
      returns (r: Result<map<string, Bytes>, Error>, ghost batches: seq<seq<Digest>>, ghost answers: seq<Answer>)
      modifies server`log
      ensures |answers| <= |batches|
      ensures server.log == old(server.log).(fetches := old(server.log.fetches) + batches[..|answers|])
      ensures FetchesFit(budget, batches[..|answers|])
      ensures Flatten(batches) == digests && AllSendable(batches, budget, ReadSize)
      ensures r == Outcome(answers) && (r.Ok? ==> |answers| == |batches|)
      ensures forall i :: 0 <= i < |answers| ==> MayAnswer(server.reliable, server.blobs, batches[i], answers[i])
      ensures server.reliable ==> (r.Ok? <==> AllThere(server.blobs, digests))
      ensures r.Ok? ==> Fetched(server.blobs, digests, r.value)
      ensures r.Ok? && server.reliable ==> FetchedAll(digests, r.value)
    {
      hide Flatten, Fetched, FetchedAll, AllThere, AllSendable, Packed, Outcome, MayAnswer, Taken, FetchesFit;
      var contents: map<string, Bytes> := map[];
      var split := ChunkBySize(digests, budget, ReadSize);
      batches, answers := split, [];
      FetchesChunked(budget, split);
      ghost var was := server.log.fetches;
      assert was + split[..0] == was;
      ghost var sent: seq<Digest> := [];
      NothingFetched(server.blobs, digests);
      NoAnswers();
      for i := 0 to |split|
        invariant digests == sent + Flatten(split[i..])
        invariant |answers| == i && Outcome(answers) == Ok(contents)
        invariant server.log == old(server.log).(fetches := was + split[..i])
        invariant forall k :: 0 <= k < i ==> MayAnswer(server.reliable, server.blobs, split[k], answers[k])
        invariant Fetched(server.blobs, digests, contents)
        invariant server.reliable ==> AllThere(server.blobs, sent) && FetchedAll(sent, contents)
      {
        var batch := split[i];
        assert (was + split[..i]) + [batch] == was + split[..i + 1];
        NextBatch(split, i);
        assert digests == sent + batch + Flatten(split[i + 1..]);
        var response := server.BatchReadBlobs(batch);
        OneMoreAnswer(answers, response);
        answers := answers + [response];
        if response.None? { return Err(Rpc), batches, answers; }
        var taken := TakeAnswers(response.value, contents);
        TakenParts(server.reliable, server.blobs, digests, sent, batch, Flatten(split[i + 1..]), response, contents);
        if taken.Err? { return taken, batches, answers; }
        contents := taken.value;
        sent := sent + batch;
      }
      LastBatch(split);
      assert sent == digests;
      r := Ok(contents);
    }

    /** Fetches blobs by digest. */
    method DownloadBlobs(digests: seq<Digest>) returns (r: Result<map<string, Bytes>, Error>)
      modifies server`log
      ensures server.log == old(server.log).(fetches := server.log.fetches)
      ensures old(server.log.fetches) <= server.log.fetches
      ensures FetchesFit(budget, server.log.fetches[|old(server.log.fetches)|..])
      ensures r.Ok? ==> Flatten(server.log.fetches[|old(server.log.fetches)|..]) == digests
      ensures server.reliable ==> (r.Ok? <==> AllThere(server.blobs, digests))
      ensures r.Ok? ==> Fetched(server.blobs, digests, r.value)
      ensures r.Ok? && server.reliable ==> FetchedAll(digests, r.value)
    {
      hide Flatten, FetchesFit, Outcome, AllSendable;
      ghost var batches, answers;
      ghost var was := server.log.fetches;
      r, batches, answers := DownloadAnswered(digests);
      assert (was + batches[..|answers|])[|was|..] == batches[..|answers|];
      assert batches[..|batches|] == batches;
    }
  }

  lemma NothingAsked(budget: nat)
    ensures FindsFit(budget, []) && UpdatesFit(budget, [])
  {
  }

  lemma AcknowledgedBy(c: Codec, reliable: bool, thorough: bool, requests: seq<Blob>, blobs: map<string, Bytes>,
      r: Option<seq<UpdateResponse>>)
    requires MayAcknowledge(c, reliable, thorough, requests, blobs, r)
    ensures reliable ==> r.Some?
    ensures r.Some? ==> MayAcknowledge(c, reliable, thorough, requests, blobs, Some(r.value))
    ensures r.Some? && thorough ==> |r.value| == |requests|
  {
  }

  // ---------------------------------------------------------------- what comes of the answers

  type Answer = Option<seq<ReadResponse>>

  /** The contents so far, and those of the first `i` answers; the first bad answer ends it. */
  function Taken(responses: seq<ReadResponse>, i: nat, contents: map<string, Bytes>): Result<map<string, Bytes>, Error>
    requires i <= |responses|
  {
    if i == 0 then Ok(contents)
    else
      var front := Taken(responses, i - 1, contents);
      if front.Err? then front
      else
        var checked := CheckBlobStatus(responses[i - 1].digest, responses[i - 1].status);
        if checked.Err? then Err(checked.error)
        else Ok(front.value[checked.value.hash := responses[i - 1].data])
  }

  /** The contents that a sequence of answers amounts to. */
  function Outcome(answers: seq<Answer>): Result<map<string, Bytes>, Error> {
    if answers == [] then Ok(map[])
    else
      var last := answers[|answers| - 1];
      var front := Outcome(answers[..|answers| - 1]);
      if front.Err? then front
      else if last.None? then Err(Rpc)
      else Taken(last.value, |last.value|, front.value)
  }

  /** An answer to a read that arrived, and in which every entry names a digest and reports no failure. */
  ghost predicate GoodAnswer(answer: Answer) {
    answer.Some? && forall i :: 0 <= i < |answer.value| ==>
      answer.value[i].digest.Some? && (answer.value[i].status.None? || answer.value[i].status.value.code == 0)
  }

  /** One of the first `i` entries has this data under this hash. */
  ghost predicate Gives(responses: seq<ReadResponse>, i: nat, hash: string, data: Bytes) {
    exists k :: 0 <= k < i && k < |responses| && responses[k].digest.Some? &&
      responses[k].digest.value.hash == hash && responses[k].data == data
  }

  ghost predicate AnyGives(answers: seq<Answer>, hash: string, data: Bytes) {
    exists k :: 0 <= k < |answers| && answers[k].Some? &&
      Gives(answers[k].value, |answers[k].value|, hash, data)
  }

  lemma {:induction false} TakenExactly(responses: seq<ReadResponse>, i: nat, contents: map<string, Bytes>)
    requires i <= |responses|
    ensures Taken(responses, i, contents).Ok? <==>
      forall k :: 0 <= k < i ==>
        responses[k].digest.Some? && (responses[k].status.None? || responses[k].status.value.code == 0)
    ensures Taken(responses, i, contents).Ok? ==>
      && (forall h :: h in Taken(responses, i, contents).value ==>
           (h in contents && Taken(responses, i, contents).value[h] == contents[h]) ||
           Gives(responses, i, h, Taken(responses, i, contents).value[h]))
      && (forall h :: h in contents ==> h in Taken(responses, i, contents).value)
      && (forall k :: 0 <= k < i ==> responses[k].digest.value.hash in Taken(responses, i, contents).value)
  {
    if i > 0 {
      TakenExactly(responses, i - 1, contents);
      if Taken(responses, i, contents).Ok? {
        var was, now := Taken(responses, i - 1, contents).value, Taken(responses, i, contents).value;
        forall h | h in now && !(h in contents && now[h] == contents[h]) ensures Gives(responses, i, h, now[h]) {
          if h != responses[i - 1].digest.value.hash {
            assert Gives(responses, i - 1, h, was[h]);
          }
        }
      }
    }
  }

  /** What answers to reads amount to: the data they give, unless a call failed, or an entry names no digest or
      reports a failure. */
  lemma {:induction false} OutcomeExactly(answers: seq<Answer>)
    ensures Outcome(answers).Ok? <==> forall k :: 0 <= k < |answers| ==> GoodAnswer(answers[k])
    ensures Outcome(answers).Ok? ==>
      && (forall h :: h in Outcome(answers).value ==> AnyGives(answers, h, Outcome(answers).value[h]))
      && (forall h, data :: AnyGives(answers, h, data) ==> h in Outcome(answers).value)
  {
    hide Taken, GoodAnswer, Gives;
    if answers != [] {
      var n := |answers| - 1;
      var front, last := answers[..n], answers[n];
      OutcomeExactly(front);
      assert forall k :: 0 <= k < n ==> front[k] == answers[k];
      if last.Some? && Outcome(front).Ok? { LastTaken(last, Outcome(front).value); }
      if last.None? { assert !GoodAnswer(last) by { NoneIsBad(); } }
      if Outcome(answers).Ok? {
        var now := Outcome(answers).value;
        forall h | h in now ensures AnyGives(answers, h, now[h]) {
          if !Gives(last.value, |last.value|, h, now[h]) { assert AnyGives(front, h, now[h]); }
        }
        forall h, data | AnyGives(answers, h, data) ensures h in now {
          if !Gives(last.value, |last.value|, h, data) { assert AnyGives(front, h, data); }
        }
      }
    }
  }

  lemma NoneIsBad()
    ensures !GoodAnswer(None)
  {
  }

  lemma LastTaken(answer: Answer, contents: map<string, Bytes>)
    requires answer.Some?
    ensures Taken(answer.value, |answer.value|, contents).Ok? <==> GoodAnswer(answer)
    ensures Taken(answer.value, |answer.value|, contents).Ok? ==>
      var now := Taken(answer.value, |answer.value|, contents).value;
      && (forall h :: h in now ==>
           (h in contents && now[h] == contents[h]) || Gives(answer.value, |answer.value|, h, now[h]))
      && (forall h :: h in contents ==> h in now)
      && (forall h, data :: Gives(answer.value, |answer.value|, h, data) ==> h in now)
  {
    hide Taken;
    TakenExactly(answer.value, |answer.value|, contents);
  }

  lemma NoAnswers()
    ensures Outcome([]) == Ok(map[])
  {
  }

  lemma OneMoreAnswer(answers: seq<Answer>, answer: Answer)
    requires Outcome(answers).Ok?
    ensures Outcome(answers + [answer]) ==
      if answer.None? then Err(Rpc) else Taken(answer.value, |answer.value|, Outcome(answers).value)
  {
    assert (answers + [answer])[..|answers|] == answers;
  }

  /** Adds the answers of one batch. */
  method TakeAnswers(responses: seq<ReadResponse>, contents: map<string, Bytes>)
    returns (r: Result<map<string, Bytes>, Error>)
    ensures r == Taken(responses, |responses|, contents)
  {
    var taken := contents;
    for i := 0 to |responses|
      invariant Taken(responses, i, contents) == Ok(taken)
    {
      var checked := CheckBlobStatus(responses[i].digest, responses[i].status);
      if checked.Err? {
        StaysBad(responses, i + 1, |responses|, contents);
        return Err(checked.error);
      }
      taken := taken[checked.value.hash := responses[i].data];
    }
    r := Ok(taken);
  }

  lemma {:induction false} StaysBad(responses: seq<ReadResponse>, i: nat, j: nat, contents: map<string, Bytes>)
    requires i <= j <= |responses| && Taken(responses, i, contents).Err?
    ensures Taken(responses, j, contents) == Taken(responses, i, contents)
  {
    if i < j { StaysBad(responses, i, j - 1, contents); }
  }

  /** What the answers of a batch add is storage's, and if the server is reliable, all that was asked. */
  lemma TakenParts(reliable: bool, blobs: map<string, Bytes>, digests: seq<Digest>, sent: seq<Digest>,
      batch: seq<Digest>, rest: seq<Digest>, answer: Answer, contents: map<string, Bytes>)
    requires digests == sent + batch + rest && answer.Some? && MayAnswer(reliable, blobs, batch, answer)
    requires Fetched(blobs, digests, contents)
    requires reliable ==> AllThere(blobs, sent) && FetchedAll(sent, contents)
    ensures var taken := Taken(answer.value, |answer.value|, contents);
      && (taken.Ok? ==> Fetched(blobs, digests, taken.value))
      && (reliable && taken.Ok? ==> AllThere(blobs, sent + batch) && FetchedAll(sent + batch, taken.value))
      && (reliable && taken.Err? ==> !AllThere(blobs, digests))
  {
    hide Fetched, FetchedAll, AllThere, MayAnswer;
    AllThereParts(blobs, sent, batch, rest);
    TakenUpTo(reliable, blobs, digests, sent, batch, answer, contents, |answer.value|);
    AnsweredInFull(reliable, blobs, batch, answer);
    assert batch[..|batch|] == batch;
  }

  lemma AnsweredInFull(reliable: bool, blobs: map<string, Bytes>, batch: seq<Digest>, answer: Answer)
    requires answer.Some? && MayAnswer(reliable, blobs, batch, answer)
    ensures reliable ==> |answer.value| == |batch|
  {
  }

  lemma AnswerAt(reliable: bool, blobs: map<string, Bytes>, batch: seq<Digest>, answer: Answer, i: nat)
    requires answer.Some? && MayAnswer(reliable, blobs, batch, answer) && i < |answer.value|
    ensures var a := answer.value[i];
      && (a.digest.Some? && Succeeded(a.status) ==>
           a.digest.value in batch && a.digest.value.hash in blobs && a.data == blobs[a.digest.value.hash])
      && (reliable ==> i < |batch| && a.digest == Some(batch[i]) && (Succeeded(a.status) <==> batch[i].hash in blobs))
  {
  }

  lemma {:induction false} TakenUpTo(reliable: bool, blobs: map<string, Bytes>, digests: seq<Digest>, sent: seq<Digest>,
      batch: seq<Digest>, answer: Answer, contents: map<string, Bytes>, i: nat)
    requires answer.Some? && i <= |answer.value| && MayAnswer(reliable, blobs, batch, answer)
    requires Fetched(blobs, digests, contents) && forall d :: d in batch ==> d in digests
    requires reliable ==> AllThere(blobs, sent) && FetchedAll(sent, contents)
    ensures var taken := Taken(answer.value, i, contents);
      && (taken.Ok? ==> Fetched(blobs, digests, taken.value))
      && (reliable ==> i <= |batch|)
      && (reliable && taken.Ok? ==> AllThere(blobs, sent + batch[..i]) && FetchedAll(sent + batch[..i], taken.value))
      && (reliable && taken.Err? ==> !AllThere(blobs, digests))
  {
    hide Fetched, FetchedAll, AllThere, MayAnswer;
    AnsweredInFull(reliable, blobs, batch, answer);
    if i == 0 {
      if reliable { assert sent + batch[..0] == sent; }
    } else {
      TakenUpTo(reliable, blobs, digests, sent, batch, answer, contents, i - 1);
      var front, a := Taken(answer.value, i - 1, contents), answer.value[i - 1];
      AnswerAt(reliable, blobs, batch, answer, i - 1);
      if front.Ok? {
        if a.digest.Some? && Succeeded(a.status) {
          FetchedMore(blobs, digests, front.value, a.digest.value);
          if reliable { FetchedNext(blobs, sent, batch, i - 1, front.value, a.data); }
        } else if reliable {
          NotThere(blobs, digests, batch[i - 1]);
        }
      }
    }
  }

  /** A single digest makes a single batch, so its download is what comes of one answer. */
  lemma SingleBatch(batches: seq<seq<Digest>>, d: Digest, budget: nat)
    requires Flatten(batches) == [d] && AllSendable(batches, budget, ReadSize)
    ensures batches == [[d]]
  {
    hide Size;
    assert batches != [];
    assert Sendable(batches[0], budget, ReadSize);
    assert batches[0] != [];
    var rest := Flatten(batches[1..]);
    assert [d] == batches[0] + rest;
    RestNotEmpty(batches, budget);
    assert |batches[0]| == 1 && rest == [];
    assert batches[0][0] == (batches[0] + rest)[0] == d;
    assert batches[0] == [d];
  }

  lemma RestNotEmpty(batches: seq<seq<Digest>>, budget: nat)
    requires batches != [] && AllSendable(batches, budget, ReadSize)
    ensures |batches| > 1 ==> Flatten(batches[1..]) != []
  {
    if |batches| > 1 {
      assert batches[1..][0] == batches[1] && Sendable(batches[1], budget, ReadSize);
    }
  }

  lemma NothingFetched(blobs: map<string, Bytes>, digests: seq<Digest>)
    ensures Fetched(blobs, digests, map[]) && AllThere(blobs, []) && FetchedAll([], map[])
  {
  }

  lemma AllThereParts(blobs: map<string, Bytes>, s: seq<Digest>, t: seq<Digest>, u: seq<Digest>)
    ensures forall d :: d in t ==> d in s + t + u
    ensures s + t[..0] == s
  {
  }

  lemma NotThere(blobs: map<string, Bytes>, digests: seq<Digest>, d: Digest)
    requires d in digests && d.hash !in blobs
    ensures !AllThere(blobs, digests)
  {
  }

  lemma FetchedMore(blobs: map<string, Bytes>, digests: seq<Digest>, contents: map<string, Bytes>, d: Digest)
    requires Fetched(blobs, digests, contents) && d in digests && d.hash in blobs
    ensures Fetched(blobs, digests, contents[d.hash := blobs[d.hash]])
  {
  }

  lemma FetchedNext(blobs: map<string, Bytes>, sent: seq<Digest>, batch: seq<Digest>, k: nat,
      contents: map<string, Bytes>, data: Bytes)
    requires k < |batch| && batch[k].hash in blobs
    requires AllThere(blobs, sent + batch[..k]) && FetchedAll(sent + batch[..k], contents)
    ensures AllThere(blobs, sent + batch[..k + 1])
    ensures FetchedAll(sent + batch[..k + 1], contents[batch[k].hash := data])
  {
    assert sent + batch[..k + 1] == sent + batch[..k] + [batch[k]];
  }

  lemma SentIsThere(c: Codec, before: map<string, Bytes>, after: map<string, Bytes>, blobs: seq<Blob>)
    requires Honest(c, blobs) && Grown(c, before, after, DataOf(Lacking(blobs, before)))
    ensures Grown(c, before, after, DataOf(blobs))
    ensures BlobsThere(blobs, after) <==> BlobsThere(Lacking(blobs, before), after)
  {
    LackingParts(c, blobs, before);
    LackingAre(blobs, before);
    if BlobsThere(blobs, after) {
      forall k | 0 <= k < |Lacking(blobs, before)| ensures Lacking(blobs, before)[k].digest.hash in after {
        assert Lacking(blobs, before)[k] in Lacking(blobs, before);
        var i :| 0 <= i < |blobs| && blobs[i] == Lacking(blobs, before)[k];
      }
    }
    if BlobsThere(Lacking(blobs, before), after) {
      forall i | 0 <= i < |blobs| ensures blobs[i].digest.hash in after {
        if blobs[i].digest.hash !in before {
          assert blobs[i] in Lacking(blobs, before);
        }
      }
    }
  }

  lemma {:induction false} LackingAre(blobs: seq<Blob>, there: map<string, Bytes>)
    ensures forall b :: b in Lacking(blobs, there) ==> b in blobs
  {
    if blobs != [] { LackingAre(blobs[1..], there); }
  }
}
