/** Large blobs in pieces: the writes that send one, and the loop that receives one. */
module ByteStream {
  import opened Names
  import opened Messages

  const WriteChunkSize: nat := 0x10_0000

  datatype WriteRequest = WriteRequest(resourceName: string, writeOffset: nat, finishWrite: bool, data: Bytes)

  // ---------------------------------------------------------------- the receiving end of Write

  /** What a server has received of a blob. */
  datatype Assembly = Assembly(resourceName: string, data: Bytes, finished: bool)

  /** How a `google.bytestream.ByteStream` server takes a sequence of writes: the first names
      the resource and later ones leave the name out or repeat it, each starts where the one
      before it ended, and nothing follows the one that finishes. */
  function Receive(writes: seq<WriteRequest>): Option<Assembly> {
    if writes == [] then Some(Assembly("", [], false))
    else
      var last, first := writes[|writes| - 1], |writes| == 1;
      match Receive(writes[..|writes| - 1])
      case None => None
      case Some(a) =>
        if a.finished || last.writeOffset != |a.data| then None
        else if (if first then last.resourceName == "" else last.resourceName !in {"", a.resourceName}) then None
        else Some(Assembly(if first then last.resourceName else a.resourceName, a.data + last.data, last.finishWrite))
  }

  lemma ReceiveNext(writes: seq<WriteRequest>, w: WriteRequest)
    requires Receive(writes).Some? && !Receive(writes).value.finished
    requires w.writeOffset == |Receive(writes).value.data|
    requires if writes == [] then w.resourceName != "" else w.resourceName == ""
    ensures Receive(writes + [w]) == Some(Assembly(
      if writes == [] then w.resourceName else Receive(writes).value.resourceName,
      Receive(writes).value.data + w.data, w.finishWrite))
  {
    assert (writes + [w])[..|writes|] == writes;
  }

  // ---------------------------------------------------------------- the sending end

  function AtLeastOne(n: nat): nat { if n == 0 then 1 else n }

  /** How many writes a blob of `n` bytes takes. */
  function WriteCount(n: nat): nat { AtLeastOne((n + WriteChunkSize - 1) / WriteChunkSize) }

  /** The `i`-th write is in its place: it starts where the full ones before it end, and only
      the first carries the name. */
  predicate InPlace(w: WriteRequest, i: nat, resourceName: string) {
    && w.writeOffset == i * WriteChunkSize
    && w.resourceName == (if i == 0 then resourceName else "")
    && |w.data| <= WriteChunkSize
  }

  /** Full and not the last. */
  predicate Inner(w: WriteRequest) { |w.data| == WriteChunkSize && !w.finishWrite }

  /** The writes that send a blob.  A server puts the blob together from them; all but the
      last are full, only the first carries the name, and only the last finishes. */
  method Writes(resourceName: string, data: Bytes) returns (writes: seq<WriteRequest>)
    requires resourceName != ""
    ensures Receive(writes) == Some(Assembly(resourceName, data, true))
    ensures |writes| == WriteCount(|data|)
    ensures forall i :: 0 <= i < |writes| ==> InPlace(writes[i], i, resourceName)
    ensures forall i :: 0 <= i < |writes| - 1 ==> Inner(writes[i])
    ensures writes[|writes| - 1].finishWrite
    ensures |writes| > 0 && (|writes| - 1) * 0x10_0000 <= |data| <= |writes| * 0x10_0000
    ensures |writes| > 1 ==> (|writes| - 1) * 0x10_0000 < |data|
    ensures forall i :: 0 <= i < |writes| ==>
      && writes[i].writeOffset == i * 0x10_0000
      && writes[i].resourceName == (if i == 0 then resourceName else "")
      && |writes[i].data| <= 0x10_0000
      && (i < |writes| - 1 ==> |writes[i].data| == 0x10_0000 && !writes[i].finishWrite)
  {
    hide Receive;
    var offset := if WriteChunkSize < |data| then WriteChunkSize else |data|;
    var first := WriteRequest(resourceName, 0, offset == |data|, data[..offset]);
    writes := [first];
    ReceiveFirst(first);
    while offset != |data|
      invariant offset <= |data| && |writes| > 0
      invariant if offset == |data|
        then (|writes| - 1) * WriteChunkSize <= offset <= |writes| * WriteChunkSize
        else offset == |writes| * WriteChunkSize
      invariant |writes| > 1 ==> (|writes| - 1) * WriteChunkSize < offset
      invariant Receive(writes) == Some(Assembly(resourceName, data[..offset], offset == |data|))
      invariant forall i :: 0 <= i < |writes| ==> InPlace(writes[i], i, resourceName)
      invariant forall i :: 0 <= i < |writes| - 1 ==> Inner(writes[i])
      invariant if offset == |data| then writes[|writes| - 1].finishWrite else Inner(writes[|writes| - 1])
      decreases |data| - offset
    {
      var end := if offset + WriteChunkSize < |data| then offset + WriteChunkSize else |data|;
      var write := WriteRequest("", offset, end == |data|, data[offset..end]);
      ReceiveNext(writes, write);
      assert data[..offset] + data[offset..end] == data[..end];
      writes := writes + [write];
      offset := end;
    }
    assert data[..offset] == data;
  }

  lemma ReceiveFirst(w: WriteRequest)
    requires w.writeOffset == 0 && w.resourceName != ""
    ensures Receive([w]) == Some(Assembly(w.resourceName, w.data, w.finishWrite))
  {
    assert [w][..0] == [];
    assert [] + w.data == w.data;
  }

  lemma {:induction false} ReceivedAtMost(writes: seq<WriteRequest>)
    requires Receive(writes).Some?
    requires forall i :: 0 <= i < |writes| ==> |writes[i].data| <= WriteChunkSize
    ensures |Receive(writes).value.data| <= |writes| * WriteChunkSize
    ensures Receive(writes).value.finished ==> |writes| > 0
  {
    if writes != [] { ReceivedAtMost(writes[..|writes| - 1]); }
  }

  /** No sequence of writes within the limit that a server accepts as a whole is shorter. */
  lemma FewestWrites(writes: seq<WriteRequest>, a: Assembly)
    requires Receive(writes) == Some(a) && a.finished
    requires forall i :: 0 <= i < |writes| ==> |writes[i].data| <= 0x10_0000
    ensures |writes| >= WriteCount(|a.data|)
    ensures |writes| >= 1 && |writes| * 0x10_0000 >= |a.data|
  {
    ReceivedAtMost(writes);
  }

  /** The writes of a blob, if its digest has the right size and the server commits all of it. */
  method UploadBlob(blob: Blob, resourceName: string, committed: int)
    returns (r: Result<(), Error>, writes: seq<WriteRequest>)
    requires resourceName != ""
    ensures r.Ok? <==> |blob.data| == blob.digest.size == committed
    ensures |blob.data| == blob.digest.size ==>
      Receive(writes) == Some(Assembly(resourceName, blob.data, true)) && |writes| == WriteCount(|blob.data|)
    ensures |blob.data| != blob.digest.size ==> writes == []
    ensures forall i :: 0 <= i < |writes| ==>
      |writes[i].data| <= 0x10_0000 && (i < |writes| - 1 ==> |writes[i].data| == 0x10_0000)
    ensures r.Err? ==> r.error == WrongSize
  {
    if |blob.data| != blob.digest.size { return Err(WrongSize), []; }
    writes := Writes(resourceName, blob.data);
    r := if committed != blob.digest.size then Err(WrongSize) else Ok(());
  }

  // ---------------------------------------------------------------- read_blob

  lemma {:induction false} JoinedGrows(pieces: seq<Bytes>, i: nat)
    requires i <= |pieces|
    ensures |Joined(pieces[..i])| <= |Joined(pieces)|
  {
    if i < |pieces| {
      assert pieces[..|pieces| - 1][..i] == pieces[..i];
      JoinedGrows(pieces[..|pieces| - 1], i);
    } else {
      assert pieces[..i] == pieces;
    }
  }

  /** Receives a blob in whatever pieces it comes.  It is accepted exactly when it has the
      expected size and hash.  `taken` pieces were buffered, never more than the expected size;
      a piece that would exceed it is not. */
  method ReadBlob(c: Codec, expected: Digest, pieces: seq<Bytes>) returns (r: Result<Bytes, Error>, taken: nat)
    ensures r.Ok? <==> |Joined(pieces)| == expected.size && c.hash(Joined(pieces)) == expected.hash
    ensures r.Ok? ==> r.value == Joined(pieces)
    ensures r.Err? ==> r.error == if |Joined(pieces)| == expected.size then WrongHash else WrongSize
    ensures taken <= |pieces|
    ensures forall k :: 0 < k <= taken ==> |Joined(pieces[..k])| <= expected.size
    ensures 0 <= expected.size && taken < |pieces| ==> |Joined(pieces[..taken + 1])| > expected.size
  {
    taken := 0;
    JoinedGrows(pieces, 0);
    if expected.size < 0 { return Err(WrongSize), 0; }
    var data: Bytes := [];
    while taken < |pieces|
      invariant taken <= |pieces| && data == Joined(pieces[..taken]) && |data| <= expected.size
      invariant forall k :: 0 < k <= taken ==> |Joined(pieces[..k])| <= expected.size
    {
      assert pieces[..taken + 1][..taken] == pieces[..taken];
      JoinedGrows(pieces, taken + 1);
      var receivedSize := |data| + |pieces[taken]|;
      if receivedSize > expected.size { return Err(WrongSize), taken; }
      data := data + pieces[taken];
      taken := taken + 1;
    }
    assert pieces[..taken] == pieces;
    if |data| != expected.size { return Err(WrongSize), taken; }
    if c.hash(data) != expected.hash { return Err(WrongHash), taken; }
    r := Ok(data);
  }

  /** The pieces of an accepted upload, whatever their sizes, are read back as the blob. */
  lemma {:induction false} SentPiecesJoin(writes: seq<WriteRequest>)
    requires Receive(writes).Some?
    ensures Joined(DataOfWrites(writes)) == Receive(writes).value.data
  {
    if writes != [] {
      SentPiecesJoin(writes[..|writes| - 1]);
      assert DataOfWrites(writes)[..|writes| - 1] == DataOfWrites(writes[..|writes| - 1]);
    }
  }

  function DataOfWrites(writes: seq<WriteRequest>): (r: seq<Bytes>)
    ensures |r| == |writes| && forall i :: 0 <= i < |r| ==> r[i] == writes[i].data
  {
    seq(|writes|, i requires 0 <= i < |writes| => writes[i].data)
  }
}
