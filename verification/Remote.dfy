/** A content-addressable storage and action cache service, as its clients may rely on it. */
module Remote {
  import opened Names
  import opened Messages

  datatype UpdateResponse = UpdateResponse(digest: Option<Digest>, status: Option<Status>)

  datatype ReadResponse = ReadResponse(digest: Option<Digest>, status: Option<Status>, data: Bytes)

  /** What a server has been asked and has answered so far: the requests of each kind, the answers to
      updates, and how many calls have failed that asked what is missing or sent an update. */
  datatype Log = Log(
    finds: seq<seq<Digest>>, updates: seq<seq<Blob>>, answers: seq<UpdateResponse>, fetches: seq<seq<Digest>>,
    failed: nat)

  /** An absent status means success. */
  predicate Succeeded(status: Option<Status>) { status.None? || status.value.code == 0 }

  /** Every blob is stored under its own hash. */
  ghost predicate Addressed(c: Codec, blobs: map<string, Bytes>) {
    forall h :: h in blobs ==> c.hash(blobs[h]) == h
  }

  /** Storage only grows, and only by blobs of `added`. */
  ghost predicate Grown(c: Codec, before: map<string, Bytes>, after: map<string, Bytes>, added: set<Bytes>) {
    && (forall h :: h in before ==> h in after && after[h] == before[h])
    && (forall h :: h in after && h !in before ==> after[h] in added && c.hash(after[h]) == h)
  }

  ghost function DataOf(blobs: seq<Blob>): set<Bytes> { set i | 0 <= i < |blobs| :: blobs[i].data }

  /** Every blob carries the digest of its data. */
  ghost predicate Honest(c: Codec, blobs: seq<Blob>) {
    forall i :: 0 <= i < |blobs| ==> blobs[i] == c.BlobOf(blobs[i].data)
  }

  function Hashes(blobs: seq<Blob>): (r: seq<string>)
    ensures |r| == |blobs| && forall i :: 0 <= i < |r| ==> r[i] == blobs[i].digest.hash
  {
    seq(|blobs|, i requires 0 <= i < |blobs| => blobs[i].digest.hash)
  }

  ghost function MissingHashes(blobs: map<string, Bytes>, digests: seq<Digest>): set<string> {
    set i | 0 <= i < |digests| && digests[i].hash !in blobs :: digests[i].hash
  }

  /** The answer to an update: success means that the blob is there now. */
  ghost predicate Answers(c: Codec, reliable: bool, response: UpdateResponse, request: Blob,
      blobs: map<string, Bytes>)
  {
    && response.digest == Some(request.digest)
    && (reliable && request == c.BlobOf(request.data) ==> Succeeded(response.status))
    && (Succeeded(response.status) ==> request.digest.hash in blobs)
  }

  /** An answer for one of the blobs sent. */
  ghost predicate AnswersOne(c: Codec, reliable: bool, response: UpdateResponse, requests: seq<Blob>,
      blobs: map<string, Bytes>)
  {
    exists i :: 0 <= i < |requests| && Answers(c, reliable, response, requests[i], blobs)
  }

  /** How a server may answer an update: blob by blob, and if it is thorough, for every blob.
      `None` is a failed call. */
  ghost predicate MayAcknowledge(c: Codec, reliable: bool, thorough: bool, requests: seq<Blob>,
      blobs: map<string, Bytes>, r: Option<seq<UpdateResponse>>)
  {
    && (reliable ==> r.Some?)
    && (r.Some? ==> forall k :: 0 <= k < |r.value| ==> AnswersOne(c, reliable, r.value[k], requests, blobs))
    && (r.Some? && thorough ==>
         && |r.value| == |requests|
         && forall i :: 0 <= i < |requests| ==> Answers(c, reliable, r.value[i], requests[i], blobs))
  }

  /** How a server may answer a read: with what it has of what was asked, and if it is reliable,
      for every digest.  `None` is a failed call. */
  ghost predicate MayAnswer(reliable: bool, blobs: map<string, Bytes>, digests: seq<Digest>,
      r: Option<seq<ReadResponse>>)
  {
    && (reliable ==> r.Some?)
    && (r.Some? ==> forall i :: 0 <= i < |r.value| ==>
         r.value[i].digest.Some? && Succeeded(r.value[i].status) ==>
           && r.value[i].digest.value in digests
           && r.value[i].digest.value.hash in blobs
           && r.value[i].data == blobs[r.value[i].digest.value.hash])
    && (r.Some? && reliable ==>
         && |r.value| == |digests|
         && forall i :: 0 <= i < |digests| ==>
              && r.value[i].digest == Some(digests[i])
              && (Succeeded(r.value[i].status) <==> digests[i].hash in blobs))
  }

  class Server {
    const c: Codec

    /** A reliable server answers every request in full; an unreliable one may fail any. */
    const reliable: bool

    /** A thorough server that answers an update answers for every blob; any other may leave some out. */
    const thorough: bool

    var blobs: map<string, Bytes>
    var actions: map<Digest, ActionResult>

    /** The hashes of the blobs accepted so far, in order of arrival. */
    var received: seq<string>

    ghost var log: Log

    constructor (c: Codec, reliable: bool, thorough: bool)
      requires reliable ==> thorough
      ensures this.c == c && this.reliable == reliable && this.thorough == thorough
      ensures blobs == map[] && actions == map[] && received == [] && log == Log([], [], [], [], 0) && Valid()
    {
      this.c := c;
      this.reliable := reliable;
      this.thorough := thorough;
      blobs, actions, received := map[], map[], [];
      log := Log([], [], [], [], 0);
    }

    ghost predicate Valid()
      reads `blobs
    {
      Addressed(c, blobs) && (reliable ==> thorough)
    }

    method FindMissingBlobs(digests: seq<Digest>) returns (r: Option<seq<Digest>>)
      modifies `log
      ensures log == old(log).(
        finds := old(log.finds) + [digests], failed := old(log.failed) + if r.Some? then 0 else 1)
      ensures reliable ==> r.Some?
      ensures r.Some? ==> (set i | 0 <= i < |r.value| :: r.value[i].hash) == MissingHashes(blobs, digests)
    {
      log := log.(finds := log.finds + [digests]);
      var fails: bool := *;
      if !reliable && fails {
        log := log.(failed := log.failed + 1);
        return None;
      }
      var missing: seq<Digest> := [];
      for i := 0 to |digests|
        invariant (set k | 0 <= k < |missing| :: missing[k].hash) == MissingHashes(blobs, digests[..i])
        modifies {}
      {
        MissingMore(blobs, digests, i);
        if digests[i].hash !in blobs {
          ghost var was := missing;
          missing := missing + [digests[i]];
          assert forall k :: 0 <= k < |was| ==> missing[k] == was[k];
          assert missing[|was|] == digests[i];
        }
      }
      assert digests[..|digests|] == digests;
      r := Some(missing);
    }

    /** Stores the blobs whose digest is right; each is answered for separately.  What a server that
        is not thorough leaves out of its answer, it may have stored or not. */
    method BatchUpdateBlobs(requests: seq<Blob>) returns (r: Option<seq<UpdateResponse>>)
      requires Valid()
      modifies `blobs, `received, `log
      ensures Valid() && Grown(c, old(blobs), blobs, DataOf(requests))
      ensures MayAcknowledge(c, reliable, thorough, requests, blobs, r)
      ensures log == old(log).(
        updates := old(log.updates) + [requests], answers := old(log.answers) + (if r.Some? then r.value else []),
        failed := old(log.failed) + if r.Some? then 0 else 1)
      ensures r.Some? && thorough && (forall i :: 0 <= i < |requests| ==> Succeeded(r.value[i].status)) ==>
        received == old(received) + Hashes(requests)
      ensures ReceivedFrom(old(received), received, requests)
    {
      hide Grown, DataOf, Hashes, ReceivedFrom, Addressed, Answers;
      NothingReceived(c, blobs, received, requests);
      log := log.(updates := log.updates + [requests]);
      var responses: seq<UpdateResponse> := [];
      assert requests[..0] == [];
      for i := 0 to |requests|
        invariant Valid() && Grown(c, old(blobs), blobs, DataOf(requests[..i]))
        invariant thorough ==> |responses| == i
        invariant thorough ==> forall k :: 0 <= k < i ==> Answers(c, reliable, responses[k], requests[k], blobs)
        invariant forall k :: 0 <= k < |responses| ==> AnswersOne(c, reliable, responses[k], requests, blobs)
        invariant thorough && (forall k :: 0 <= k < i ==> Succeeded(responses[k].status)) ==>
          received == old(received) + Hashes(requests[..i])
        invariant ReceivedFrom(old(received), received, requests)
        invariant log == old(log).(updates := old(log.updates) + [requests])
      {
        var fails: bool, skips: bool, omits: bool := *, *, *;
        GrownMore(c, old(blobs), blobs, requests, i);
        if !reliable && fails {
          log := log.(failed := log.failed + 1);
          return None;
        }
        DataMore(requests, i);
        if thorough || !skips {
          ghost var was, heard := blobs, received;
          var response := Update(requests[i]);
          GrownTransitive(c, old(blobs), was, blobs, DataOf(requests[..i]), {requests[i].data});
          ReceivedMore(old(received), heard, received, requests, i);
          AnswersStay(c, reliable, was, blobs, {requests[i].data}, requests, responses);
          if thorough || !omits { responses := responses + [response]; }
        } else {
          NothingAdded(c, old(blobs), blobs, DataOf(requests[..i]), {requests[i].data});
        }
      }
      assert requests[..|requests|] == requests;
      log := log.(answers := log.answers + responses);
      r := Some(responses);
    }

    method Update(blob: Blob) returns (response: UpdateResponse)
      requires Valid()
      modifies `blobs, `received
      ensures Valid() && Grown(c, old(blobs), blobs, {blob.data})
      ensures Answers(c, reliable, response, blob, blobs)
      ensures received == old(received) + if Succeeded(response.status) then [blob.digest.hash] else []
    {
      var rejects: bool := *;
      if blob.digest != c.DigestOf(blob.data) || (!reliable && rejects) {
        return UpdateResponse(Some(blob.digest), Some(Status(3, "rejected")));
      }
      if blob.digest.hash !in blobs {
        blobs := blobs[blob.digest.hash := blob.data];
      }
      received := received + [blob.digest.hash];
      response := UpdateResponse(Some(blob.digest), None);
    }

    /** Returns the blobs that are there, and a status for those that are not.  An unreliable
        server may leave answers out. */
    method BatchReadBlobs(digests: seq<Digest>) returns (r: Option<seq<ReadResponse>>)
      modifies `log
      ensures log == old(log).(fetches := old(log.fetches) + [digests])
      ensures MayAnswer(reliable, blobs, digests, r)
    {
      log := log.(fetches := log.fetches + [digests]);
      var fails: bool := *;
      if !reliable && fails { return None; }
      var responses: seq<ReadResponse> := [];
      for i := 0 to |digests|
        invariant forall k :: 0 <= k < |responses| ==>
          responses[k].digest.Some? && Succeeded(responses[k].status) ==>
            && responses[k].digest.value in digests
            && responses[k].digest.value.hash in blobs
            && responses[k].data == blobs[responses[k].digest.value.hash]
        invariant reliable ==> |responses| == i && forall k :: 0 <= k < i ==>
          && responses[k].digest == Some(digests[k])
          && (Succeeded(responses[k].status) <==> digests[k].hash in blobs)
      {
        var d := digests[i];
        var omits: bool, nameless: bool := *, *;
        if !reliable && omits {
        } else if !reliable && nameless {
          responses := responses + [ReadResponse(None, None, [])];
        } else if d.hash in blobs {
          responses := responses + [ReadResponse(Some(d), None, blobs[d.hash])];
        } else {
          responses := responses + [ReadResponse(Some(d), Some(Status(5, "not found")), [])];
        }
      }
      r := Some(responses);
    }

    /** What is recorded for an action.  Only the server may put a stream into the answer
        itself, and then it is the stream that storage has. */
    method GetActionResult(key: Digest) returns (r: Result<Option<ActionResult>, Error>)
      ensures reliable ==> r.Ok? && (r.value.Some? <==> key in actions)
      ensures r.Ok? && r.value.Some? ==> key in actions && Inlined(blobs, actions[key], r.value.value)
    {
      var fails: bool := *;
      if !reliable && fails { return Err(Rpc); }
      var forgets: bool := *;
      if key !in actions || (!reliable && forgets) { return Ok(None); }
      var found := actions[key];
      var inlines: bool := *;
      if inlines && found.stdoutDigest.Some? && found.stdoutDigest.value.hash in blobs {
        found := found.(stdoutRaw := blobs[found.stdoutDigest.value.hash]);
      }
      inlines := *;
      if inlines && found.stderrDigest.Some? && found.stderrDigest.value.hash in blobs {
        found := found.(stderrRaw := blobs[found.stderrDigest.value.hash]);
      }
      r := Ok(Some(found));
    }

    /** Records a result.  When the answer is lost the record may have been made all the same. */
    method UpdateActionResult(key: Digest, result: ActionResult) returns (ok: bool)
      modifies `actions
      ensures reliable ==> ok
      ensures ok ==> actions == old(actions)[key := result]
      ensures actions == old(actions) || actions == old(actions)[key := result]
    {
      var fails: bool := *;
      if !reliable && fails { return false; }
      actions := actions[key := result];
      var lost: bool := *;
      ok := reliable || !lost;
    }

    lemma MissingMore(blobs: map<string, Bytes>, digests: seq<Digest>, i: nat)
      requires i < |digests|
      ensures MissingHashes(blobs, digests[..i + 1]) ==
        MissingHashes(blobs, digests[..i]) + if digests[i].hash in blobs then {} else {digests[i].hash}
    {
      var s, t := digests[..i], digests[..i + 1];
      assert forall k :: 0 <= k < i ==> s[k] == t[k];
      assert t[i] == digests[i];
    }
  }

  /** `shown` is `stored`, with its streams possibly filled in from storage. */
  ghost predicate Inlined(blobs: map<string, Bytes>, stored: ActionResult, shown: ActionResult) {
    && shown == stored.(stdoutRaw := shown.stdoutRaw, stderrRaw := shown.stderrRaw)
    && InlinedStream(blobs, stored.stdoutRaw, stored.stdoutDigest, shown.stdoutRaw)
    && InlinedStream(blobs, stored.stderrRaw, stored.stderrDigest, shown.stderrRaw)
  }

  ghost predicate InlinedStream(blobs: map<string, Bytes>, raw: Bytes, digest: Option<Digest>, shown: Bytes) {
    shown == raw || (digest.Some? && digest.value.hash in blobs && shown == blobs[digest.value.hash])
  }

  /** What arrived was asked for. */
  ghost predicate ReceivedFrom(before: seq<string>, after: seq<string>, requests: seq<Blob>) {
    before <= after && forall h :: h in after[|before|..] ==> h in Hashes(requests)
  }

  lemma DataMore(requests: seq<Blob>, i: nat)
    requires i < |requests|
    ensures DataOf(requests[..i + 1]) == DataOf(requests[..i]) + {requests[i].data}
    ensures DataOf(requests[..i + 1]) <= DataOf(requests)
    ensures Hashes(requests[..i + 1]) == Hashes(requests[..i]) + [requests[i].digest.hash]
    ensures requests[i].digest.hash in Hashes(requests)
  {
    var s, t := requests[..i], requests[..i + 1];
    assert forall k :: 0 <= k < i ==> s[k] == t[k] == requests[k];
    assert t[i] == requests[i] == requests[..|requests|][i];
    assert Hashes(requests)[i] == requests[i].digest.hash;
  }

  lemma GrownMore(c: Codec, before: map<string, Bytes>, after: map<string, Bytes>, requests: seq<Blob>, i: nat)
    requires i <= |requests| && Grown(c, before, after, DataOf(requests[..i]))
    ensures Grown(c, before, after, DataOf(requests))
  {
    assert forall k :: 0 <= k < i ==> requests[..i][k] == requests[k];
  }

  lemma GrownTransitive(c: Codec, a: map<string, Bytes>, b: map<string, Bytes>, d: map<string, Bytes>,
      s: set<Bytes>, t: set<Bytes>)
    requires Grown(c, a, b, s) && Grown(c, b, d, t)
    ensures Grown(c, a, d, s + t)
  {
  }

  lemma NothingAdded(c: Codec, before: map<string, Bytes>, after: map<string, Bytes>, s: set<Bytes>, t: set<Bytes>)
    requires Grown(c, before, after, s)
    ensures Grown(c, before, after, s + t)
  {
  }

  /** Answers that held of storage hold of it when it has grown. */
  lemma AnswersStay(c: Codec, reliable: bool, before: map<string, Bytes>, after: map<string, Bytes>, added: set<Bytes>,
      requests: seq<Blob>, responses: seq<UpdateResponse>)
    requires Grown(c, before, after, added)
    ensures forall k, i :: 0 <= k < |responses| && 0 <= i < |requests| ==>
      Answers(c, reliable, responses[k], requests[i], before) ==> Answers(c, reliable, responses[k], requests[i], after)
    ensures forall k :: 0 <= k < |responses| ==>
      AnswersOne(c, reliable, responses[k], requests, before) ==> AnswersOne(c, reliable, responses[k], requests, after)
  {
    forall k, i | 0 <= k < |responses| && 0 <= i < |requests| && Answers(c, reliable, responses[k], requests[i], before)
      ensures Answers(c, reliable, responses[k], requests[i], after)
    {
      StillThere(c, before, after, added, requests[i].digest.hash);
    }
  }

  lemma StillThere(c: Codec, before: map<string, Bytes>, after: map<string, Bytes>, added: set<Bytes>, h: string)
    requires Grown(c, before, after, added)
    ensures h in before ==> h in after && after[h] == before[h]
  {
  }

  lemma NothingReceived(c: Codec, blobs: map<string, Bytes>, received: seq<string>, requests: seq<Blob>)
    ensures Grown(c, blobs, blobs, DataOf([])) && ReceivedFrom(received, received, requests)
    ensures Hashes([]) == [] && received + [] == received
  {
  }

  lemma ReceivedMore(before: seq<string>, middle: seq<string>, after: seq<string>, requests: seq<Blob>, i: nat)
    requires ReceivedFrom(before, middle, requests) && i < |requests|
    requires after == middle || after == middle + [requests[i].digest.hash]
    ensures ReceivedFrom(before, after, requests)
  {
    DataMore(requests, i);
    assert after == middle + [requests[i].digest.hash] ==>
      after[|before|..] == middle[|before|..] + [requests[i].digest.hash];
  }
}
