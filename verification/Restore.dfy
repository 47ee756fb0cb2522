/** Replaying a recorded result: its streams, its files and its directories. */
module Restore {
  import opened Names
  import opened Messages
  import opened Merkle
  import opened Disk
  import opened FlatTree
  import opened PathText
  import opened Batching
  import opened Remote
  import opened Client
  import opened FileSystem
  import opened Download
  import opened Materialize
  import opened Machine

  // ---------------------------------------------------------------- files at their places

  function PathOf(file: OutputFile): Route { RouteOf(file.path) }

  ghost function Restored1(blobs: map<string, Bytes>, file: OutputFile): Entry {
    EFile(if file.digest.Some? && file.digest.value.hash in blobs then blobs[file.digest.value.hash] else [],
          if file.exec then 0x1ED else 0x1A4)
  }

  /** What is at `q` once the files are written one after the other. */
  ghost function Put(before: map<Path, Entry>, blobs: map<string, Bytes>, files: seq<OutputFile>, q: Path):
    Option<Entry>
  {
    if files == [] then Get(before, q)
    else
      var last := files[|files| - 1];
      if q == PathOf(last) then Some(Restored1(blobs, last))
      else if q <= PathOf(last) then Some(EDir)
      else Put(before, blobs, files[..|files| - 1], q)
  }

  ghost predicate AllPut(before: map<Path, Entry>, now: map<Path, Entry>, blobs: map<string, Bytes>,
      files: seq<OutputFile>)
  {
    forall q :: Get(now, q) == Put(before, blobs, files, q)
  }

  /** A file can be written at `p`: nothing but directories above, and nothing but a file there. */
  ghost predicate Writable(entries: map<Path, Entry>, p: Path) {
    && p != [] && Plain(p)
    && (forall q :: q in entries && Leads(q, p) ==> entries[q] == EDir)
    && (p in entries ==> entries[p].EFile?)
  }

  /** The files can all be written, and none is in the way of another. */
  ghost predicate Placeable(before: map<Path, Entry>, files: seq<OutputFile>) {
    && (forall i :: 0 <= i < |files| ==> Writable(before, PathOf(files[i])))
    && (forall i, j :: 0 <= i < |files| && 0 <= j < |files| ==> !Leads(PathOf(files[i]), PathOf(files[j])))
  }

  /** Some file is placed at `q`, or below it. */
  ghost predicate PlacedAt(files: seq<OutputFile>, q: Path) { exists i :: 0 <= i < |files| && PathOf(files[i]) == q }

  ghost predicate PlacedBelow(files: seq<OutputFile>, q: Path) {
    exists i :: 0 <= i < |files| && Leads(q, PathOf(files[i]))
  }

  lemma PlacedFront(files: seq<OutputFile>, q: Path)
    requires files != []
    ensures var front, last := files[..|files| - 1], files[|files| - 1];
      && (PlacedAt(files, q) <==> PathOf(last) == q || PlacedAt(front, q))
      && (PlacedBelow(files, q) <==> Leads(q, PathOf(last)) || PlacedBelow(front, q))
  {
    hide RouteOf, Leads;
    var front, last := files[..|files| - 1], files[|files| - 1];
    if i :| 0 <= i < |front| && PathOf(front[i]) == q { assert PathOf(files[i]) == q; }
    if i :| 0 <= i < |front| && Leads(q, PathOf(front[i])) { assert Leads(q, PathOf(files[i])); }
    if i :| 0 <= i < |files| && PathOf(files[i]) == q && i < |front| { assert PathOf(front[i]) == q; }
    if i :| 0 <= i < |files| && Leads(q, PathOf(files[i])) && i < |front| { assert Leads(q, PathOf(front[i])); }
  }

  /** Where nothing is placed, nothing changes; at a placed file there is a file, and above it
      a directory. */
  lemma {:induction false} PutShape(before: map<Path, Entry>, blobs: map<string, Bytes>, files: seq<OutputFile>,
      q: Path)
    requires !(PlacedAt(files, q) && PlacedBelow(files, q))
    ensures PlacedAt(files, q) ==>
      Put(before, blobs, files, q).Some? && Put(before, blobs, files, q).value.EFile?
    ensures PlacedBelow(files, q) ==> Put(before, blobs, files, q) == Some(EDir)
    ensures !PlacedAt(files, q) && !PlacedBelow(files, q) ==> Put(before, blobs, files, q) == Get(before, q)
  {
    hide PlacedAt, PlacedBelow, RouteOf;
    if files != [] {
      PlacedFront(files, q);
      PutShape(before, blobs, files[..|files| - 1], q);
    } else {
      NonePlaced(q);
    }
  }

  lemma NonePlaced(q: Path)
    ensures !PlacedAt([], q) && !PlacedBelow([], q)
  {
  }

  /** Files that can be placed are nowhere above one another. */
  lemma NotBoth(before: map<Path, Entry>, files: seq<OutputFile>, q: Path)
    requires Placeable(before, files)
    ensures !(PlacedAt(files, q) && PlacedBelow(files, q))
  {
    hide RouteOf, Leads, Writable;
  }

  /** What a path held before and holds now. */
  lemma PutNow(before: map<Path, Entry>, now: map<Path, Entry>, blobs: map<string, Bytes>, files: seq<OutputFile>,
      q: Path)
    requires Placeable(before, files) && AllPut(before, now, blobs, files)
    ensures PlacedAt(files, q) ==> Get(now, q).Some? && Get(now, q).value.EFile?
    ensures PlacedBelow(files, q) ==> Get(now, q) == Some(EDir)
    ensures !PlacedAt(files, q) && !PlacedBelow(files, q) ==> Get(now, q) == Get(before, q)
    ensures PlacedAt(files, q) ==> q in before ==> before[q].EFile?
    ensures PlacedBelow(files, q) ==> q in before ==> before[q] == EDir
  {
    hide RouteOf, Put, Leads;
    NotBoth(before, files, q);
    PutShape(before, blobs, files, q);
    assert Get(now, q) == Put(before, blobs, files, q);
  }

  lemma PlacedPlaceable(before: map<Path, Entry>, files: seq<OutputFile>, i: nat)
    requires i < |files|
    ensures Placeable(before, files[..i + 1]) <==>
      && Placeable(before, files[..i])
      && Writable(before, PathOf(files[i]))
      && !PlacedBelow(files[..i], PathOf(files[i]))
      && forall k :: 0 <= k < i ==> !Leads(PathOf(files[k]), PathOf(files[i]))
  {
    hide RouteOf, Writable;
    var s, t := files[..i], files[..i + 1];
    assert forall k :: 0 <= k < i ==> t[k] == s[k] == files[k];
    assert t[i] == files[i];
  }

  /** The next file can be written exactly when all files up to it can be placed. */
  lemma WritableNext(before: map<Path, Entry>, now: map<Path, Entry>, blobs: map<string, Bytes>,
      files: seq<OutputFile>, i: nat)
    requires i < |files| && Placeable(before, files[..i]) && AllPut(before, now, blobs, files[..i])
    ensures Writable(now, PathOf(files[i])) <==> Placeable(before, files[..i + 1])
  {
    hide Placeable, AllPut, RouteOf, PlacedAt, PlacedBelow;
    var p, s := PathOf(files[i]), files[..i];
    PlacedPlaceable(before, files, i);
    if Writable(now, p) {
      WritableBefore(before, now, blobs, s, p);
      PutNow(before, now, blobs, s, p);
      forall k | 0 <= k < i ensures !Leads(PathOf(files[k]), p) {
        PlacedHere(s, k);
        PutNow(before, now, blobs, s, PathOf(s[k]));
      }
    }
    if Placeable(before, files[..i + 1]) {
      WritableStill(before, now, blobs, s, p);
    }
  }

  lemma PlacedHere(files: seq<OutputFile>, k: nat)
    requires k < |files|
    ensures PlacedAt(files, PathOf(files[k]))
  {
  }

  lemma WritableBefore(before: map<Path, Entry>, now: map<Path, Entry>, blobs: map<string, Bytes>,
      s: seq<OutputFile>, p: Path)
    requires Placeable(before, s) && AllPut(before, now, blobs, s) && Writable(now, p)
    ensures Writable(before, p)
  {
    hide Placeable, AllPut, PlacedAt, PlacedBelow;
    forall q | q in before ensures q in now && (before[q] == now[q] || (before[q].EFile? && now[q].EFile?)) {
      PutNow(before, now, blobs, s, q);
    }
  }

  lemma WritableStill(before: map<Path, Entry>, now: map<Path, Entry>, blobs: map<string, Bytes>,
      s: seq<OutputFile>, p: Path)
    requires Placeable(before, s) && AllPut(before, now, blobs, s)
    requires Writable(before, p) && !PlacedBelow(s, p) && forall k :: 0 <= k < |s| ==> !Leads(PathOf(s[k]), p)
    ensures Writable(now, p)
  {
    hide Placeable, AllPut, RouteOf, PlacedBelow;
    forall q | q in now && q <= p ensures if q == p then now[q].EFile? else now[q] == EDir {
      PutNow(before, now, blobs, s, q);
    }
  }

  // ---------------------------------------------------------------- files along any path

  /** `Path::parent`. */
  function DirPart(route: Route): Option<Route> {
    var steps := if route != [] && route[|route| - 1] == "." then route[..|route| - 1] else route;
    if steps == [] then None else Some(steps[..|steps| - 1])
  }

  function DirPartMade(entries: map<Path, Entry>, route: Route): Option<map<Path, Entry>> {
    match DirPart(route)
    case None => Some(entries)
    case Some(dir) => DirsMade(entries, dir)
  }

  /** A file written at the end of a route, and the directories that this takes. */
  function FileMade(entries: map<Path, Entry>, route: Route, file: Entry): Option<map<Path, Entry>> {
    match DirPartMade(entries, route)
    case None => None
    case Some(made) =>
      match FilePlace(made, route)
      case None => None
      case Some(p) => Some(made[p := file])
  }

  /** The file system once the files are written, one after the other, if that can be done. */
  ghost function Placed(before: map<Path, Entry>, blobs: map<string, Bytes>, files: seq<OutputFile>):
    Option<map<Path, Entry>>
  {
    if files == [] then Some(before)
    else
      var last := files[|files| - 1];
      match Placed(before, blobs, files[..|files| - 1])
      case None => None
      case Some(now) => FileMade(now, PathOf(last), Restored1(blobs, last))
  }

  lemma FileMadeIsRooted(entries: map<Path, Entry>, route: Route, file: Entry)
    requires Rooted(entries) && file.EFile?
    ensures FileMade(entries, route, file).Some? ==> Rooted(FileMade(entries, route, file).value)
  {
    hide Rooted, Follow, DirsMade;
    if DirPart(route).Some? { DirsMadeIsRooted(entries, DirPart(route).value); }
    if DirPartMade(entries, route).Some? {
      var made := DirPartMade(entries, route).value;
      RootIsThere(made);
      FollowReaches(made, [], route, MAX_LINKS);
      if FilePlace(made, route).Some? { PutIsRooted(made, FilePlace(made, route).value, file); }
    }
  }

  lemma {:induction false} PlacedIsRooted(before: map<Path, Entry>, blobs: map<string, Bytes>, files: seq<OutputFile>)
    requires Rooted(before)
    ensures Placed(before, blobs, files).Some? ==> Rooted(Placed(before, blobs, files).value)
  {
    hide Rooted, FileMade, RouteOf;
    if files != [] {
      var front, last := files[..|files| - 1], files[|files| - 1];
      PlacedIsRooted(before, blobs, front);
      if Placed(before, blobs, front).Some? {
        FileMadeIsRooted(Placed(before, blobs, front).value, PathOf(last), Restored1(blobs, last));
      }
    }
  }

  lemma {:induction false} PlacedParts(before: map<Path, Entry>, blobs: map<string, Bytes>, files: seq<OutputFile>,
      i: nat)
    requires i <= |files| && Placed(before, blobs, files).Some?
    ensures Placed(before, blobs, files[..i]).Some?
  {
    hide FileMade, RouteOf;
    if i < |files| {
      var front := files[..|files| - 1];
      assert front[..i] == files[..i];
      PlacedParts(before, blobs, front, i);
    } else {
      assert files[..i] == files;
    }
  }

  lemma PlacedNext(before: map<Path, Entry>, blobs: map<string, Bytes>, files: seq<OutputFile>, i: nat)
    requires i < |files| && Placed(before, blobs, files[..i]).Some?
    ensures Placed(before, blobs, files[..i + 1]) ==
      FileMade(Placed(before, blobs, files[..i]).value, PathOf(files[i]), Restored1(blobs, files[i]))
  {
    hide FileMade, RouteOf, Restored1;
    assert files[..i + 1][..i] == files[..i] && files[..i + 1][i] == files[i];
  }

  // ---------------------------------------------------------------- files along plain paths

  /** No path of an output leads through a link, to one, or up. */
  ghost predicate Unbent(entries: map<Path, Entry>, files: seq<OutputFile>) {
    forall i :: 0 <= i < |files| ==> Direct(entries, PathOf(files[i]))
  }

  ghost predicate Direct(entries: map<Path, Entry>, p: Route) {
    Plain(p) && forall q :: q in entries && q <= p ==> !entries[q].ELink?
  }

  lemma DirectIsStraight(entries: map<Path, Entry>, p: Path)
    requires Direct(entries, p)
    ensures Straight(entries, p) && (p in entries ==> !entries[p].ELink?)
    ensures p != [] ==> Straight(entries, Parent(p)) && (Parent(p) in entries ==> !entries[Parent(p)].ELink?)
    ensures p != [] ==> DirPart(p) == Some(Parent(p))
  {
    assert Straight(entries, p);
    StraightIsPlain(entries, p);
    if p != [] { assert p[|p| - 1] in p; }
  }

  /** Along such a path, a file can be written exactly when nothing but directories is above, and
      nothing but a file is there. */
  lemma FileMadeDirectly(entries: map<Path, Entry>, p: Path, file: Entry)
    requires Rooted(entries) && Direct(entries, p)
    ensures FileMade(entries, p, file).Some? <==> Writable(entries, p)
    ensures FileMade(entries, p, file).Some? ==> WrittenAt(entries, FileMade(entries, p, file).value, p, file)
  {
    hide Rooted, Follow, Straight, DirsMade, WrittenAt, FilePlace;
    DirectIsStraight(entries, p);
    if p == [] {
      RootIsThere(entries);
      FilePlaceStraight(entries, p);
    } else {
      MakeableAbove(entries, p);
      DirsMadeStraight(entries, Parent(p));
      if DirsMade(entries, Parent(p)).Some? {
        var made := DirsMade(entries, Parent(p)).value;
        DirsMadeIsRooted(entries, Parent(p));
        MadeIsStraight(entries, made, p);
        FilePlaceStraight(made, p);
        MadeAndWritten(entries, made, p, file);
      }
    }
  }

  lemma DirectStill(before: map<Path, Entry>, now: map<Path, Entry>, blobs: map<string, Bytes>, files: seq<OutputFile>,
      p: Path)
    requires Placeable(before, files) && AllPut(before, now, blobs, files) && Direct(before, p)
    ensures Direct(now, p)
  {
    hide Placeable, AllPut, RouteOf, PlacedAt, PlacedBelow, Proper;
    forall q | q in now && q <= p ensures !now[q].ELink? {
      PutNow(before, now, blobs, files, q);
    }
  }

  /** Where no link is in the way, files can be written one after the other exactly when each can be
      written and none is in the way of another; then each is in its place. */
  lemma {:induction false} PlacedDirectly(before: map<Path, Entry>, blobs: map<string, Bytes>, files: seq<OutputFile>)
    requires Rooted(before) && Unbent(before, files)
    ensures Placed(before, blobs, files).Some? <==> Placeable(before, files)
    ensures Placed(before, blobs, files).Some? ==> AllPut(before, Placed(before, blobs, files).value, blobs, files)
  {
    hide Rooted, FileMade, RouteOf, Placeable, AllPut, Writable, WrittenAt, Direct;
    if files == [] {
      PlaceableParts(before, files, 0);
      StartsPut(before, blobs);
    } else {
      var n := |files| - 1;
      assert files[..n + 1] == files;
      forall i | 0 <= i < n ensures Direct(before, PathOf(files[..n][i])) {
        assert Direct(before, PathOf(files[i]));
      }
      PlacedDirectly(before, blobs, files[..n]);
      PlaceableParts(before, files, n);
      if Placed(before, blobs, files[..n]).Some? {
        var now := Placed(before, blobs, files[..n]).value;
        PlacedIsRooted(before, blobs, files[..n]);
        DirectStill(before, now, blobs, files[..n], PathOf(files[n]));
        FileMadeDirectly(now, PathOf(files[n]), Restored1(blobs, files[n]));
        WritableNext(before, now, blobs, files, n);
        if Writable(now, PathOf(files[n])) {
          OnePut(before, now, FileMade(now, PathOf(files[n]), Restored1(blobs, files[n])).value, blobs, files, n);
        }
      }
    }
  }

  ghost predicate LastOfItsPath(files: seq<OutputFile>, i: nat) {
    i < |files| && forall j :: i < j < |files| ==> PathOf(files[j]) != PathOf(files[i])
  }

  lemma {:induction false} PutLast(before: map<Path, Entry>, blobs: map<string, Bytes>, files: seq<OutputFile>, i: nat)
    requires LastOfItsPath(files, i)
    requires forall j, k :: 0 <= j < |files| && 0 <= k < |files| ==> !Leads(PathOf(files[j]), PathOf(files[k]))
    ensures Put(before, blobs, files, PathOf(files[i])) == Some(Restored1(blobs, files[i]))
  {
    hide RouteOf, Restored1;
    var n := |files| - 1;
    if i < n {
      assert !Leads(PathOf(files[i]), PathOf(files[n]));
      PutLast(before, blobs, files[..n], i);
    }
  }

  /** What is written last at a path is there, with its content and the mode that says whether it may be
      executed. */
  lemma PlacedAsRecorded(before: map<Path, Entry>, blobs: map<string, Bytes>, files: seq<OutputFile>, i: nat)
    requires Rooted(before) && Unbent(before, files) && Restorable(before, blobs, files) && LastOfItsPath(files, i)
    ensures files[i].digest.Some? && files[i].digest.value.hash in blobs
    ensures Get(Placed(before, blobs, files).value, PathOf(files[i])) ==
      Some(EFile(blobs[files[i].digest.value.hash], if files[i].exec then 0x1ED else 0x1A4))
  {
    hide Rooted, RouteOf, Placed, Unbent;
    PlacedDirectly(before, blobs, files);
    PutLast(before, blobs, files, i);
    assert Get(Placed(before, blobs, files).value, PathOf(files[i])) == Put(before, blobs, files, PathOf(files[i]));
  }

  /** Whatever differs is a directory, or has the content of a recorded file and the mode that says whether
      that may be executed. */
  ghost predicate OnlyOutputs(before: map<Path, Entry>, after: map<Path, Entry>, blobs: map<string, Bytes>,
      files: seq<OutputFile>)
  {
    forall q ::
      Get(after, q) == Get(before, q) || Get(after, q) == Some(EDir) || IsOutput(blobs, files, Get(after, q))
  }

  ghost predicate IsOutput(blobs: map<string, Bytes>, files: seq<OutputFile>, e: Option<Entry>) {
    exists i :: 0 <= i < |files| && files[i].digest.Some? && files[i].digest.value.hash in blobs &&
      e == Some(EFile(blobs[files[i].digest.value.hash], if files[i].exec then 0x1ED else 0x1A4))
  }

  lemma {:induction false} DirsMadeOnly(entries: map<Path, Entry>, route: Route)
    ensures DirsMade(entries, route).Some? ==>
      forall q :: Get(DirsMade(entries, route).value, q) in {Get(entries, q), Some(EDir)}
  {
    hide Follow, Spot;
    if route != [] { DirsMadeOnly(entries, route[..|route| - 1]); }
  }

  lemma FileMadeOnly(entries: map<Path, Entry>, route: Route, file: Entry)
    ensures FileMade(entries, route, file).Some? ==>
      forall q :: Get(FileMade(entries, route, file).value, q) in {Get(entries, q), Some(EDir), Some(file)}
  {
    hide DirsMade, FilePlace;
    if DirPart(route).Some? { DirsMadeOnly(entries, DirPart(route).value); }
  }

  lemma {:induction false} PlacedOnly(before: map<Path, Entry>, blobs: map<string, Bytes>, files: seq<OutputFile>)
    requires AllDigested(files) && AllStored(blobs, files) && Placed(before, blobs, files).Some?
    ensures OnlyOutputs(before, Placed(before, blobs, files).value, blobs, files)
  {
    hide FileMade, RouteOf;
    if files != [] {
      var n := |files| - 1;
      var now, later := Placed(before, blobs, files[..n]).value, Placed(before, blobs, files).value;
      PlacedOnly(before, blobs, files[..n]);
      FileMadeOnly(now, PathOf(files[n]), Restored1(blobs, files[n]));
      forall q
        ensures Get(later, q) == Get(before, q) || Get(later, q) == Some(EDir) || IsOutput(blobs, files, Get(later, q))
      {
        if Get(later, q) == Some(Restored1(blobs, files[n])) {
          assert files[n].digest.Some?;
        } else if IsOutput(blobs, files[..n], Get(later, q)) {
          IsOutputStill(blobs, files, n, Get(later, q));
        }
      }
    }
  }

  lemma IsOutputStill(blobs: map<string, Bytes>, files: seq<OutputFile>, n: nat, e: Option<Entry>)
    requires n <= |files| && IsOutput(blobs, files[..n], e)
    ensures IsOutput(blobs, files, e)
  {
    var i :| 0 <= i < n && files[..n][i].digest.Some? && files[..n][i].digest.value.hash in blobs &&
      e == Some(EFile(blobs[files[..n][i].digest.value.hash], if files[..n][i].exec then 0x1ED else 0x1A4));
    assert files[i] == files[..n][i];
  }

  lemma PlaceableIsUnbent(before: map<Path, Entry>, files: seq<OutputFile>)
    requires Placeable(before, files)
    ensures Unbent(before, files)
  {
    hide RouteOf, Proper;
    forall i | 0 <= i < |files| ensures Direct(before, PathOf(files[i])) {
      assert Writable(before, PathOf(files[i]));
    }
  }

  // ---------------------------------------------------------------- restore_output_files

  ghost predicate AllDigested(files: seq<OutputFile>) {
    forall i :: 0 <= i < |files| ==> files[i].digest.Some?
  }

  ghost predicate AllStored(blobs: map<string, Bytes>, files: seq<OutputFile>) {
    forall i :: 0 <= i < |files| && files[i].digest.Some? ==> files[i].digest.value.hash in blobs
  }

  /** No two files have content of the same hash. */
  ghost predicate DistinctHashes(files: seq<OutputFile>) {
    forall i, j :: 0 <= i < j < |files| && files[i].digest.Some? && files[j].digest.Some? ==>
      files[i].digest.value.hash != files[j].digest.value.hash
  }

  /** What it takes to restore output files. */
  ghost predicate Restorable(before: map<Path, Entry>, blobs: map<string, Bytes>, files: seq<OutputFile>) {
    AllDigested(files) && AllStored(blobs, files) && DistinctHashes(files) && Placed(before, blobs, files).Some?
  }

  ghost predicate DigestsOfFiles(files: seq<OutputFile>, digests: seq<Digest>) {
    |digests| == |files| && forall i :: 0 <= i < |files| ==> files[i].digest == Some(digests[i])
  }

  /** What is left of the fetched contents after the first `i` files took theirs. */
  ghost predicate LeftOver(fetched: map<string, Bytes>, left: map<string, Bytes>, digests: seq<Digest>, i: nat)
    requires i <= |digests|
  {
    && (forall h :: h in left <==> h in fetched && forall k :: 0 <= k < i ==> digests[k].hash != h)
    && (forall h :: h in left ==> left[h] == fetched[h])
  }

  lemma TakenFrom(fetched: map<string, Bytes>, left: map<string, Bytes>, digests: seq<Digest>, i: nat)
    requires i < |digests| && LeftOver(fetched, left, digests, i)
    ensures LeftOver(fetched, left - {digests[i].hash}, digests, i + 1)
  {
  }

  lemma PlaceableParts(before: map<Path, Entry>, files: seq<OutputFile>, i: nat)
    requires i <= |files|
    ensures Placeable(before, files) ==> Placeable(before, files[..i])
    ensures Placeable(before, []) && files[..|files|] == files
  {
    assert forall k :: 0 <= k < i ==> files[..i][k] == files[k];
  }

  /** A file has been written at `path`, and the directories above it made. */
  ghost predicate WrittenAt(before: map<Path, Entry>, after: map<Path, Entry>, path: Path, file: Entry) {
    forall q :: Get(after, q) == if q == path then Some(file) else if q <= path then Some(EDir) else Get(before, q)
  }

  lemma OnePut(before: map<Path, Entry>, now: map<Path, Entry>, later: map<Path, Entry>, blobs: map<string, Bytes>,
      files: seq<OutputFile>, i: nat)
    requires i < |files| && AllPut(before, now, blobs, files[..i])
    requires WrittenAt(now, later, PathOf(files[i]), Restored1(blobs, files[i]))
    ensures AllPut(before, later, blobs, files[..i + 1])
  {
    assert files[..i + 1][..i] == files[..i];
    assert files[..i + 1][i] == files[i];
    forall q ensures Get(later, q) == Put(before, blobs, files[..i + 1], q) {
      assert Get(now, q) == Put(before, blobs, files[..i], q);
    }
  }

  lemma MadeAndWritten(before: map<Path, Entry>, made: map<Path, Entry>, path: Path, file: Entry)
    requires path != []
    requires forall q :: Get(made, q) == if q <= Parent(path) then Some(EDir) else Get(before, q)
    ensures WrittenAt(before, made[path := file], path, file)
    ensures Get(made, path) == Get(before, path)
  {
    forall q ensures q <= Parent(path) <==> Leads(q, path) {
      PrefixIsSlice(q, path);
      PrefixIsSlice(q, Parent(path));
    }
    var after := made[path := file];
    forall q ensures Get(after, q) ==
      (if q == path then Some(file) else if q <= path then Some(EDir) else Get(before, q))
    {
      assert Get(made, q) == if q <= Parent(path) then Some(EDir) else Get(before, q);
    }
  }

  lemma MakeableAbove(entries: map<Path, Entry>, path: Path)
    requires path != [] && Plain(path)
    ensures Writable(entries, path) <==>
      && (forall q :: q in entries && q <= Parent(path) ==> entries[q] == EDir)
      && (path in entries ==> entries[path].EFile?)
  {
    forall q ensures q <= Parent(path) <==> Leads(q, path) {
      PrefixIsSlice(q, path);
      PrefixIsSlice(q, Parent(path));
    }
  }

  /** Restores one file from the contents that are left. */
  method RestoreOne(files: Files, route: Route, left: map<string, Bytes>, hash: string, exec: bool)
    returns (r: Result<(), Error>)
    requires Rooted(files.entries)
    modifies files
    ensures Rooted(files.entries)
    ensures var file := EFile(if hash in left then left[hash] else [], if exec then 0x1ED else 0x1A4);
      && (r.Ok? <==> hash in left && FileMade(old(files.entries), route, file).Some?)
      && (r.Ok? ==> FileMade(old(files.entries), route, file) == Some(files.entries))
  {
    hide Rooted, FilePlace, DirsMade;
    if DirPart(route).Some? {
      var ok := files.CreateDirAll(DirPart(route).value);
      if !ok { return Err(Io); }
    }
    if hash !in left { return Err(BlobStatus(hash)); }
    var ok := WriteFile(files, route, left[hash], exec);
    if !ok { return Err(Io); }
    r := Ok(());
  }

  method DigestsOfOutputs(outputs: seq<OutputFile>) returns (r: Result<seq<Digest>, Error>)
    ensures r.Ok? <==> AllDigested(outputs)
    ensures r.Ok? ==> DigestsOfFiles(outputs, r.value)
  {
    var digests: seq<Digest> := [];
    for i := 0 to |outputs|
      invariant |digests| == i && forall k :: 0 <= k < i ==> outputs[k].digest == Some(digests[k])
    {
      if outputs[i].digest.None? { return Err(MalformedActionResult); }
      digests := digests + [outputs[i].digest.value];
    }
    r := Ok(digests);
  }

  /** The first `i` files are restored. */
  ghost predicate Restoring(before: map<Path, Entry>, now: map<Path, Entry>, blobs: map<string, Bytes>,
      fetched: map<string, Bytes>, left: map<string, Bytes>, files: seq<OutputFile>, digests: seq<Digest>, i: nat)
    requires i <= |files| == |digests|
  {
    && LeftOver(fetched, left, digests, i)
    && Placed(before, blobs, files[..i]) == Some(now)
    && (forall k :: 0 <= k < i ==> digests[k].hash in blobs)
    && (forall j, k :: 0 <= j < k < i ==> digests[j].hash != digests[k].hash)
  }

  /** The next file can be restored exactly when the files up to it can be. */
  lemma RestoringStep(before: map<Path, Entry>, now: map<Path, Entry>, blobs: map<string, Bytes>,
      fetched: map<string, Bytes>, left: map<string, Bytes>, files: seq<OutputFile>, digests: seq<Digest>, i: nat)
    requires i < |files| && DigestsOfFiles(files, digests) && Fetched(blobs, digests, fetched)
    requires Restoring(before, now, blobs, fetched, left, files, digests, i)
    ensures FetchedAll(digests, fetched) && Restorable(before, blobs, files) ==>
      digests[i].hash in left && FileMade(now, PathOf(files[i]), Restored1(blobs, files[i])).Some?
    ensures digests[i].hash in left ==>
      Restored1(blobs, files[i]) == EFile(left[digests[i].hash], if files[i].exec then 0x1ED else 0x1A4)
  {
    hide LeftOver, Fetched, FetchedAll, FileMade, RouteOf, Placed;
    assert files[i].digest == Some(digests[i]);
    NextLeft(blobs, fetched, left, digests, i);
    PlacedNext(before, blobs, files, i);
    if Placed(before, blobs, files).Some? { PlacedParts(before, blobs, files, i + 1); }
    StoredIsThere(blobs, files, digests);
  }

  lemma RestoredNext(before: map<Path, Entry>, now: map<Path, Entry>, later: map<Path, Entry>,
      blobs: map<string, Bytes>, fetched: map<string, Bytes>, left: map<string, Bytes>, files: seq<OutputFile>,
      digests: seq<Digest>, i: nat)
    requires i < |files| && DigestsOfFiles(files, digests) && Fetched(blobs, digests, fetched)
    requires Restoring(before, now, blobs, fetched, left, files, digests, i)
    requires digests[i].hash in left && FileMade(now, PathOf(files[i]), Restored1(blobs, files[i])) == Some(later)
    ensures Restoring(before, later, blobs, fetched, left - {digests[i].hash}, files, digests, i + 1)
  {
    hide LeftOver, Fetched, FetchedAll, FileMade, RouteOf, Placed;
    NextLeft(blobs, fetched, left, digests, i);
    PlacedNext(before, blobs, files, i);
    TakenFrom(fetched, left, digests, i);
  }

  lemma RestoringStarts(before: map<Path, Entry>, blobs: map<string, Bytes>, fetched: map<string, Bytes>,
      files: seq<OutputFile>, digests: seq<Digest>)
    requires |files| == |digests|
    ensures Restoring(before, before, blobs, fetched, fetched, files, digests, 0)
  {
    StartsLeft(fetched, digests);
    assert files[..0] == [];
  }

  lemma RestoringEnds(before: map<Path, Entry>, now: map<Path, Entry>, blobs: map<string, Bytes>,
      fetched: map<string, Bytes>, left: map<string, Bytes>, files: seq<OutputFile>, digests: seq<Digest>)
    requires DigestsOfFiles(files, digests)
    requires Restoring(before, now, blobs, fetched, left, files, digests, |files|)
    ensures Restorable(before, blobs, files) && Placed(before, blobs, files) == Some(now)
  {
    hide Placed, RouteOf;
    assert files[..|files|] == files;
    StoredIsThere(blobs, files, digests);
    forall d | d in digests ensures d.hash in blobs {}
  }

  /** Restores output files.  With a server that answers, this succeeds exactly when storage has
      every content, no two files share one, and the files can be written one after the other. */
  method RestoreOutputFiles(client: RemoteClient, files: Files, outputs: seq<OutputFile>)
    returns (r: Result<(), Error>)
    requires Rooted(files.entries)
    modifies files, client.server`log
    ensures Rooted(files.entries)
    ensures r.Ok? ==> Restorable(old(files.entries), client.server.blobs, outputs)
    ensures r.Ok? ==> Placed(old(files.entries), client.server.blobs, outputs) == Some(files.entries)
    ensures r.Ok? ==> OnlyOutputs(old(files.entries), files.entries, client.server.blobs, outputs)
    ensures client.server.reliable ==> (r.Ok? <==> Restorable(old(files.entries), client.server.blobs, outputs))
  {
    hide OnlyOutputs, Restoring, Restorable, Placed, FileMade, Rooted, AllThere, Fetched, FetchedAll, Restored1,
      RouteOf, FetchesFit, Flatten;
    ghost var before, blobs := files.entries, client.server.blobs;
    var collected := DigestsOfOutputs(outputs);
    NotRestorable(before, blobs, outputs);
    if collected.Err? { return Err(collected.error); }
    var digests := collected.value;
    StoredIsThere(blobs, outputs, digests);
    var fetched := client.DownloadBlobs(digests);
    if fetched.Err? { return Err(fetched.error); }
    var left := fetched.value;
    RestoringStarts(before, blobs, fetched.value, outputs, digests);
    for i := 0 to |outputs|
      invariant Rooted(files.entries)
      invariant Restoring(before, files.entries, blobs, fetched.value, left, outputs, digests, i)
    {
      ghost var now := files.entries;
      RestoringStep(before, files.entries, blobs, fetched.value, left, outputs, digests, i);
      var restored := RestoreOne(files, RouteOf(outputs[i].path), left, digests[i].hash, outputs[i].exec);
      if restored.Err? { return restored; }
      RestoredNext(before, now, files.entries, blobs, fetched.value, left, outputs, digests, i);
      left := left - {digests[i].hash};
    }
    RestoringEnds(before, files.entries, blobs, fetched.value, left, outputs, digests);
    NotRestorable(before, blobs, outputs);
    PlacedOnly(before, blobs, outputs);
    r := Ok(());
  }

  lemma NotRestorable(before: map<Path, Entry>, blobs: map<string, Bytes>, files: seq<OutputFile>)
    ensures Restorable(before, blobs, files) ==> AllDigested(files) && AllStored(blobs, files)
  {
  }

  lemma StoredIsThere(blobs: map<string, Bytes>, files: seq<OutputFile>, digests: seq<Digest>)
    requires DigestsOfFiles(files, digests)
    ensures AllDigested(files) && (AllThere(blobs, digests) <==> AllStored(blobs, files))
    ensures DistinctHashes(files) <==> forall i, j :: 0 <= i < j < |digests| ==> digests[i].hash != digests[j].hash
  {
    if AllThere(blobs, digests) {
      forall i | 0 <= i < |files| ensures files[i].digest.value.hash in blobs {
        assert digests[i] in digests;
      }
    }
    if AllStored(blobs, files) {
      forall d | d in digests ensures d.hash in blobs {
        var i :| 0 <= i < |digests| && digests[i] == d;
        assert files[i].digest == Some(d);
      }
    }
    if DistinctHashes(files) {
      forall i, j | 0 <= i < j < |digests| ensures digests[i].hash != digests[j].hash {
        assert files[i].digest == Some(digests[i]) && files[j].digest == Some(digests[j]);
      }
    }
  }

  lemma StartsLeft(fetched: map<string, Bytes>, digests: seq<Digest>)
    ensures LeftOver(fetched, fetched, digests, 0)
  {
  }

  lemma StartsPut(before: map<Path, Entry>, blobs: map<string, Bytes>)
    ensures AllPut(before, before, blobs, [])
  {
  }

  lemma NextLeft(blobs: map<string, Bytes>, fetched: map<string, Bytes>, left: map<string, Bytes>, digests: seq<Digest>,
      i: nat)
    requires i < |digests| && LeftOver(fetched, left, digests, i) && Fetched(blobs, digests, fetched)
    ensures digests[i].hash in left ==> digests[i].hash in blobs && left[digests[i].hash] == blobs[digests[i].hash]
    ensures digests[i].hash in left ==> forall k :: 0 <= k < i ==> digests[k].hash != digests[i].hash
    ensures digests[i].hash !in left && FetchedAll(digests, fetched) ==>
      exists k :: 0 <= k < i && digests[k].hash == digests[i].hash
  {
    assert digests[i] in digests;
  }

  ghost function Twice(c: Codec, content: Bytes): seq<OutputFile> {
    [OutputFile("a", Some(c.DigestOf(content)), false), OutputFile("b", Some(c.DigestOf(content)), false)]
  }

  /** The limit is real: two files of equal content, both stored, that can both be written in an
      empty directory, cannot be restored. */
  lemma EqualOutputsDoNotReplay(c: Codec, content: Bytes)
    ensures var files, before, blobs := Twice(c, content), map[[] := EDir], map[c.hash(content) := content];
      && Rooted(before) && AllDigested(files) && AllStored(blobs, files) && Placed(before, blobs, files).Some?
      && !Restorable(before, blobs, files)
  {
    hide Placed, Placeable, Unbent;
    var files, before, blobs := Twice(c, content), map[[] := EDir], map[c.hash(content) := content];
    TwicePlaceable(c, content);
    PlaceableIsUnbent(before, files);
    PlacedDirectly(before, blobs, files);
    assert files[0].digest == files[1].digest;
  }

  lemma TwicePlaceable(c: Codec, content: Bytes)
    ensures Placeable(map[[] := EDir], Twice(c, content))
  {
    RouteOfName("a");
    RouteOfName("b");
    var files := Twice(c, content);
    assert PathOf(files[0]) == ["a"] && PathOf(files[1]) == ["b"];
    hide RouteOf;
    assert ["a"] != ["b"] && !(["a"] <= ["b"]) && !(["b"] <= ["a"]);
  }

  // ---------------------------------------------------------------- write_stream

  ghost function StreamContent(blobs: map<string, Bytes>, raw: Bytes, digest: Option<Digest>): Bytes {
    if raw != [] then raw
    else if digest.Some? && digest.value.hash in blobs then blobs[digest.value.hash]
    else []
  }

  /** The recorded stream can be had: it is in the answer, or in storage, or was not recorded. */
  ghost predicate StreamThere(blobs: map<string, Bytes>, raw: Bytes, digest: Option<Digest>) {
    raw != [] || (digest.Some? ==> digest.value.hash in blobs)
  }

  /** What is written, given the server's answer: the code takes an answer that leaves the blob
      out for an empty stream. */
  function Written(raw: Bytes, digest: Option<Digest>, answer: Answer): Result<Bytes, Error> {
    if raw != [] then Ok(raw)
    else if digest.None? then Ok([])
    else
      match Outcome([answer])
      case Err(e) => Err(e)
      case Ok(contents) => Ok(if digest.value.hash in contents then contents[digest.value.hash] else [])
  }

  /** The answer, if one was needed, is one that a server with this storage may give. */
  ghost predicate Answered(reliable: bool, blobs: map<string, Bytes>, raw: Bytes, digest: Option<Digest>,
      answer: Answer)
  {
    raw == [] && digest.Some? ==> MayAnswer(reliable, blobs, [digest.value], answer)
  }

  /** The answer holds the blob. */
  predicate Holds(digest: Digest, answer: Answer) {
    Outcome([answer]).Ok? && digest.hash in Outcome([answer]).value
  }

  /** Writes a recorded stream: exactly what comes of the server's answer. */
  method WriteStream(client: RemoteClient, raw: Bytes, digest: Option<Digest>, out: Stream)
    returns (r: Result<(), Error>, ghost answer: Answer)
    modifies out, client.server`log
    ensures raw != [] ==> r.Ok? && out.written == old(out.written) + raw
    ensures raw == [] && digest.None? ==> r.Ok? && out.written == old(out.written)
    ensures raw == [] && digest.Some? && client.server.reliable ==>
      && (r.Ok? <==> digest.value.hash in client.server.blobs)
      && (r.Ok? ==> out.written == old(out.written) + client.server.blobs[digest.value.hash])
    ensures Answered(client.server.reliable, client.server.blobs, raw, digest, answer)
    ensures var written := Written(raw, digest, answer);
      if written.Ok? then r.Ok? && out.written == old(out.written) + written.value
      else r == Err(written.error) && out.written == old(out.written)
  {
    hide Outcome, MayAnswer, AllSendable, Flatten;
    answer := None;
    if raw != [] {
      out.WriteAll(raw);
    } else if digest.Some? {
      ghost var batches, answers;
      var fetched: Result<map<string, Bytes>, Error>;
      fetched, batches, answers := client.DownloadAnswered([digest.value]);
      SingleBatch(batches, digest.value, client.budget);
      OneAnswer(answers, fetched);
      answer := answers[0];
      if fetched.Err? { return Err(fetched.error), answer; }
      if digest.value.hash in fetched.value {
        out.WriteAll(fetched.value[digest.value.hash]);
      }
    }
    if client.server.reliable { ReliableStream(client.server.blobs, raw, digest, answer); }
    r := Ok(());
  }

  lemma OneAnswer(answers: seq<Answer>, fetched: Result<map<string, Bytes>, Error>)
    requires fetched == Outcome(answers) && |answers| <= 1 && (fetched.Ok? ==> |answers| == 1)
    ensures |answers| == 1 && answers == [answers[0]]
  {
  }

  /** Exactly when a write that succeeds has written the recorded stream: when none was needed from
      storage, or the answer holds it, or it is empty anyway. */
  lemma StreamWrittenExactly(reliable: bool, blobs: map<string, Bytes>, raw: Bytes, digest: Option<Digest>,
      answer: Answer)
    requires Answered(reliable, blobs, raw, digest, answer) && Written(raw, digest, answer).Ok?
    ensures Written(raw, digest, answer).value == StreamContent(blobs, raw, digest) <==>
      raw != [] || digest.None? || Holds(digest.value, answer) || StreamContent(blobs, raw, digest) == []
    ensures raw == [] && digest.Some? && Holds(digest.value, answer) ==> StreamThere(blobs, raw, digest)
  {
    if raw == [] && digest.Some? { AnswerFetches(reliable, blobs, digest.value, answer); }
  }

  lemma AnswerFetches(reliable: bool, blobs: map<string, Bytes>, digest: Digest, answer: Answer)
    requires MayAnswer(reliable, blobs, [digest], answer)
    ensures Outcome([answer]).Ok? ==> Fetched(blobs, [digest], Outcome([answer]).value)
    ensures reliable ==> (Outcome([answer]).Ok? <==> digest.hash in blobs)
    ensures reliable && Outcome([answer]).Ok? ==> digest.hash in Outcome([answer]).value
  {
    NoAnswers();
    OneMoreAnswer([], answer);
    assert [] + [answer] == [answer];
    NothingFetched(blobs, [digest]);
    if answer.Some? {
      assert [digest] == [] + [digest] + [];
      TakenParts(reliable, blobs, [digest], [], [digest], [], answer, map[]);
    }
    assert digest in [digest];
  }

  /** A server that answers in full loses nothing: the write fails exactly when the stream is in
      neither the record nor storage, and otherwise writes it. */
  lemma ReliableStream(blobs: map<string, Bytes>, raw: Bytes, digest: Option<Digest>, answer: Answer)
    requires Answered(true, blobs, raw, digest, answer)
    ensures Written(raw, digest, answer).Ok? <==> StreamThere(blobs, raw, digest)
    ensures Written(raw, digest, answer).Ok? ==> Written(raw, digest, answer).value == StreamContent(blobs, raw, digest)
  {
    if raw == [] && digest.Some? { AnswerFetches(true, blobs, digest.value, answer); }
  }

  /** A server that is not held to answer in full may leave the only blob out.  Then the write
      succeeds and a stream that storage has is lost. */
  lemma OmittedStreamIsLost(blobs: map<string, Bytes>, digest: Digest)
    requires digest.hash in blobs && blobs[digest.hash] != []
    ensures MayAnswer(false, blobs, [digest], Some([])) && !Holds(digest, Some([]))
    ensures Written([], Some(digest), Some([])) == Ok([]) && StreamContent(blobs, [], Some(digest)) != []
  {
    var silent: Answer := Some([]);
    NoAnswers();
    OneMoreAnswer([], silent);
    assert [] + [silent] == [silent];
  }

  // ---------------------------------------------------------------- directories

  function OutOf(dir: OutputDirectory): Route { RouteOf(dir.path) }

  /** What is at `q` once the files are written and then the trees rebuilt, one after the other. */
  ghost function PutAll(before: map<Path, Entry>, blobs: map<string, Bytes>, files: seq<OutputFile>,
      dirs: seq<OutputDirectory>, ts: seq<Skel>, q: Path): Option<Entry>
    requires |dirs| == |ts|
  {
    if dirs == [] then Put(before, blobs, files, q)
    else
      var n := |dirs| - 1;
      var out := OutOf(dirs[n]);
      if out <= q && Sub(ts[n], q[|out|..]).Some? then Some(Rendered(blobs, Sub(ts[n], q[|out|..]).value))
      else if q <= out then Some(EDir)
      else PutAll(before, blobs, files, dirs[..n], ts[..n], q)
  }

  ghost predicate EverythingPut(before: map<Path, Entry>, now: map<Path, Entry>, blobs: map<string, Bytes>,
      files: seq<OutputFile>, dirs: seq<OutputDirectory>, ts: seq<Skel>)
    requires |dirs| == |ts|
  {
    forall q :: Get(now, q) == PutAll(before, blobs, files, dirs, ts, q)
  }

  predicate Apart(p: Path, q: Path) { !(p <= q) && !(q <= p) }

  /** Nothing is in the way of any output, and no output is in the way of another. */
  ghost predicate FreshTargets(before: map<Path, Entry>, files: seq<OutputFile>, dirs: seq<OutputDirectory>) {
    && Placeable(before, files)
    && (forall j :: 0 <= j < |dirs| ==> Fresh(before, OutOf(dirs[j])))
    && (forall i, j :: 0 <= i < |files| && 0 <= j < |dirs| ==> Apart(PathOf(files[i]), OutOf(dirs[j])))
    && (forall i, j :: 0 <= i < j < |dirs| ==> Apart(OutOf(dirs[i]), OutOf(dirs[j])))
  }

  /** A place apart from all that was made is as it was, but for directories leading past it. */
  lemma {:induction false} ApartFromFiles(before: map<Path, Entry>, blobs: map<string, Bytes>, files: seq<OutputFile>,
      out: Path, q: Path)
    requires forall i :: 0 <= i < |files| ==> Apart(PathOf(files[i]), out)
    ensures out <= q ==> Put(before, blobs, files, q) == Get(before, q)
    ensures q <= out ==> Put(before, blobs, files, q) == Get(before, q) || Put(before, blobs, files, q) == Some(EDir)
  {
    if files != [] {
      var p := PathOf(files[|files| - 1]);
      ApartFromFiles(before, blobs, files[..|files| - 1], out, q);
      if out <= q && q <= p { PrefixTransitive(out, q, p); }
    }
  }

  lemma {:induction false} ApartFromAll(before: map<Path, Entry>, blobs: map<string, Bytes>, files: seq<OutputFile>,
      dirs: seq<OutputDirectory>, ts: seq<Skel>, out: Path, q: Path)
    requires |dirs| == |ts|
    requires forall i :: 0 <= i < |files| ==> Apart(PathOf(files[i]), out)
    requires forall j :: 0 <= j < |dirs| ==> Apart(OutOf(dirs[j]), out)
    ensures out <= q ==> PutAll(before, blobs, files, dirs, ts, q) == Get(before, q)
    ensures q <= out ==>
      PutAll(before, blobs, files, dirs, ts, q) == Get(before, q) ||
      PutAll(before, blobs, files, dirs, ts, q) == Some(EDir)
  {
    if dirs == [] {
      ApartFromFiles(before, blobs, files, out, q);
    } else {
      var n := |dirs| - 1;
      var other := OutOf(dirs[n]);
      ApartFromAll(before, blobs, files, dirs[..n], ts[..n], out, q);
      if out <= q {
        if other <= q { PrefixesCompare(other, out, q); }
        if q <= other { PrefixTransitive(out, q, other); }
      }
      if q <= out && other <= q { PrefixTransitive(other, q, out); }
    }
  }

  /** What was put somewhere apart from the directories is still there. */
  lemma {:induction false} FilesStay(before: map<Path, Entry>, blobs: map<string, Bytes>, files: seq<OutputFile>,
      dirs: seq<OutputDirectory>, ts: seq<Skel>, p: Path)
    requires |dirs| == |ts|
    requires forall j :: 0 <= j < |dirs| ==> Apart(p, OutOf(dirs[j]))
    ensures PutAll(before, blobs, files, dirs, ts, p) == Put(before, blobs, files, p)
  {
    if dirs != [] {
      FilesStay(before, blobs, files, dirs[..|dirs| - 1], ts[..|dirs| - 1], p);
    }
  }

  lemma StillFresh(before: map<Path, Entry>, now: map<Path, Entry>, blobs: map<string, Bytes>, files: seq<OutputFile>,
      dirs: seq<OutputDirectory>, ts: seq<Skel>, i: nat)
    requires FreshTargets(before, files, dirs) && |dirs| == |ts| && i < |dirs|
    requires EverythingPut(before, now, blobs, files, dirs[..i], ts[..i])
    ensures Fresh(now, OutOf(dirs[i]))
  {
    var out := OutOf(dirs[i]);
    forall q | q in now && (q <= out || out <= q) ensures q <= out ==> now[q] == EDir ensures !(out <= q && q != out) {
      assert Get(now, q) == PutAll(before, blobs, files, dirs[..i], ts[..i], q);
      ApartFromAll(before, blobs, files, dirs[..i], ts[..i], out, q);
      assert Fresh(before, OutOf(dirs[i]));
    }
  }

  lemma OneMorePut(before: map<Path, Entry>, now: map<Path, Entry>, later: map<Path, Entry>, blobs: map<string, Bytes>,
      files: seq<OutputFile>, dirs: seq<OutputDirectory>, ts: seq<Skel>, i: nat)
    requires |dirs| == |ts| && i < |dirs|
    requires EverythingPut(before, now, blobs, files, dirs[..i], ts[..i])
    requires Rebuilt(now, later, OutOf(dirs[i]), blobs, ts[i])
    ensures EverythingPut(before, later, blobs, files, dirs[..i + 1], ts[..i + 1])
  {
    assert dirs[..i + 1][..i] == dirs[..i] && ts[..i + 1][..i] == ts[..i];
    var out := OutOf(dirs[i]);
    forall q ensures Get(later, q) == PutAll(before, blobs, files, dirs[..i + 1], ts[..i + 1], q) {
      assert Get(later, q) == Seen(now, out, blobs, ts[i], Paths(ts[i]), q);
      assert Get(now, q) == PutAll(before, blobs, files, dirs[..i], ts[..i], q);
      if out <= q { PathsAreInhabited(ts[i], q[|out|..]); }
      PathsAreInhabited(ts[i], []);
    }
  }

  /** `t` is what the recorded directory denotes. */
  ghost predicate DirDenotes(c: Codec, blobs: map<string, Bytes>, dir: OutputDirectory, t: Skel) {
    t.SDir? && Tidy(t) && (dir.treeDigest.Some? ==> TreeDenotes(c, blobs, dir.treeDigest.value, t))
  }

  ghost predicate DirThere(c: Codec, blobs: map<string, Bytes>, dir: OutputDirectory, t: Skel) {
    dir.treeDigest.Some? && TreeMessageThere(c, blobs, dir.treeDigest.value) && Complete(blobs, t)
  }

  ghost predicate AllDenote(c: Codec, blobs: map<string, Bytes>, dirs: seq<OutputDirectory>, ts: seq<Skel>) {
    |dirs| == |ts| && forall j :: 0 <= j < |dirs| ==> DirDenotes(c, blobs, dirs[j], ts[j])
  }

  /** The recorded directory is of finite depth. */
  ghost predicate Finite(c: Codec, blobs: map<string, Bytes>, dir: OutputDirectory) {
    dir.treeDigest.Some? && dir.treeDigest.value.hash in blobs ==>
      exists n: nat :: ShallowTree(c, blobs[dir.treeDigest.value.hash], n)
  }

  ghost predicate AllFinite(c: Codec, blobs: map<string, Bytes>, dirs: seq<OutputDirectory>) {
    forall j :: 0 <= j < |dirs| ==> Finite(c, blobs, dirs[j])
  }

  ghost function DepthOf(c: Codec, blobs: map<string, Bytes>, dir: OutputDirectory): (n: nat)
    requires Finite(c, blobs, dir)
    ensures dir.treeDigest.Some? && dir.treeDigest.value.hash in blobs ==>
      ShallowTree(c, blobs[dir.treeDigest.value.hash], n)
  {
    if dir.treeDigest.Some? && dir.treeDigest.value.hash in blobs then
      var n: nat :| ShallowTree(c, blobs[dir.treeDigest.value.hash], n);
      n
    else 0
  }

  /** The directories to restore are known, and everything before them is restored. */
  ghost predicate DirsReady(c: Codec, blobs: map<string, Bytes>, before: map<Path, Entry>, now: map<Path, Entry>,
      outputs: seq<OutputFile>, dirs: seq<OutputDirectory>, ts: seq<Skel>)
  {
    AllDenote(c, blobs, dirs, ts) && AllPut(before, now, blobs, outputs) && FreshTargets(before, outputs, dirs)
  }

  lemma NextDirectory(c: Codec, blobs: map<string, Bytes>, before: map<Path, Entry>, start: map<Path, Entry>,
      now: map<Path, Entry>, outputs: seq<OutputFile>, dirs: seq<OutputDirectory>, ts: seq<Skel>, i: nat)
    requires DirsReady(c, blobs, before, start, outputs, dirs, ts) && i < |dirs|
    requires |dirs| == |ts| && EverythingPut(before, now, blobs, outputs, dirs[..i], ts[..i])
    ensures ts[i].SDir? && (dirs[i].treeDigest.Some? ==> FlatRootOf(c, blobs, ts[i], dirs[i].treeDigest.value))
    ensures Fresh(now, OutOf(dirs[i]))
  {
    hide FreshTargets, EverythingPut, AllPut, Fresh, TreeDenotes;
    assert DirDenotes(c, blobs, dirs[i], ts[i]);
    StillFresh(before, now, blobs, outputs, dirs, ts, i);
  }

  method RestoreDirectories(client: RemoteClient, files: Files, dirs: seq<OutputDirectory>,
      ghost before: map<Path, Entry>, ghost outputs: seq<OutputFile>, ghost ts: seq<Skel>)
    returns (r: Result<(), Error>)
    requires Rooted(files.entries) && AllFinite(client.server.c, client.server.blobs, dirs)
    modifies files, client.server`log
    ensures Rooted(files.entries)
    ensures old(DirsReady(client.server.c, client.server.blobs, before, files.entries, outputs, dirs, ts)) ==>
      && |ts| == |dirs|
      && (r.Ok? ==> EverythingPut(before, files.entries, client.server.blobs, outputs, dirs, ts))
      && (client.server.reliable ==>
           (r.Ok? <==> forall j :: 0 <= j < |dirs| ==> DirThere(client.server.c, client.server.blobs, dirs[j], ts[j])))
  {
    hide EverythingPut, FreshTargets, AllPut, Rooted, DirThere, TreeDenotes, TreeMessageThere, Complete, Rebuilt, Fresh,
      DirsReady, FlatRootOf, Finite, ShallowTree, RouteOf, Tidy, AllDenote, DirDenotes;
    ghost var c, blobs, start := client.server.c, client.server.blobs, files.entries;
    ghost var clean := DirsReady(c, blobs, before, start, outputs, dirs, ts);
    if clean { ReadyStarts(c, blobs, before, start, outputs, dirs, ts); }
    for i := 0 to |dirs|
      invariant Rooted(files.entries)
      invariant clean ==> |ts| == |dirs| && EverythingPut(before, files.entries, blobs, outputs, dirs[..i], ts[..i])
      invariant clean && client.server.reliable ==> forall j :: 0 <= j < i ==> DirThere(c, blobs, dirs[j], ts[j])
    {
      ghost var now, t := files.entries, SLink("");
      if clean {
        t := ts[i];
        NextDirectory(c, blobs, before, start, now, outputs, dirs, ts, i);
        DirThereMeans(c, blobs, dirs[i], t);
      }
      if dirs[i].treeDigest.None? { return Err(MalformedActionResult); }
      assert Finite(c, blobs, dirs[i]);
      ghost var targets;
      r, targets := DownloadTree(client, files, dirs[i].treeDigest.value, RouteOf(dirs[i].path),
                                 DepthOf(c, blobs, dirs[i]), t);
      if r.Err? { return; }
      if clean { OneMorePut(before, now, files.entries, blobs, outputs, dirs, ts, i); }
    }
    if clean { AllOf(dirs, ts); }
    r := Ok(());
  }

  lemma ReadyStarts(c: Codec, blobs: map<string, Bytes>, before: map<Path, Entry>, start: map<Path, Entry>,
      outputs: seq<OutputFile>, dirs: seq<OutputDirectory>, ts: seq<Skel>)
    requires DirsReady(c, blobs, before, start, outputs, dirs, ts)
    ensures |ts| == |dirs| && EverythingPut(before, start, blobs, outputs, dirs[..0], ts[..0])
  {
    NoDirsPut(before, start, blobs, outputs, dirs, ts);
  }

  lemma NoDirsPut(before: map<Path, Entry>, now: map<Path, Entry>, blobs: map<string, Bytes>, files: seq<OutputFile>,
      dirs: seq<OutputDirectory>, ts: seq<Skel>)
    requires |dirs| == |ts| && AllPut(before, now, blobs, files)
    ensures EverythingPut(before, now, blobs, files, dirs[..0], ts[..0])
  {
  }

  lemma AllOf(dirs: seq<OutputDirectory>, ts: seq<Skel>)
    ensures dirs[..|dirs|] == dirs && ts[..|ts|] == ts
  {
  }

  lemma DirThereMeans(c: Codec, blobs: map<string, Bytes>, dir: OutputDirectory, t: Skel)
    ensures DirThere(c, blobs, dir, t) <==>
      dir.treeDigest.Some? && TreeMessageThere(c, blobs, dir.treeDigest.value) && Complete(blobs, t)
  {
  }

  // ---------------------------------------------------------------- replay

  /** Everything a recorded result refers to can be had. */
  ghost predicate Replayable(c: Codec, blobs: map<string, Bytes>, cached: ActionResult, ts: seq<Skel>)
    requires |ts| == |cached.outputDirectories|
  {
    && StreamThere(blobs, cached.stdoutRaw, cached.stdoutDigest)
    && StreamThere(blobs, cached.stderrRaw, cached.stderrDigest)
    && AllDigested(cached.outputFiles) && AllStored(blobs, cached.outputFiles)
    && forall j :: 0 <= j < |ts| ==> DirThere(c, blobs, cached.outputDirectories[j], ts[j])
  }

  /** The server's answers for the two streams. */
  datatype Answers = Answers(stdout: Answer, stderr: Answer)

  ghost predicate StreamsAnswered(reliable: bool, blobs: map<string, Bytes>, cached: ActionResult, answers: Answers) {
    && Answered(reliable, blobs, cached.stdoutRaw, cached.stdoutDigest, answers.stdout)
    && Answered(reliable, blobs, cached.stderrRaw, cached.stderrDigest, answers.stderr)
  }

  /** Both streams are exactly what comes of the server's answers. */
  ghost predicate StreamsWritten(cached: ActionResult, answers: Answers, before: Moment, after: Moment) {
    var stdout := Written(cached.stdoutRaw, cached.stdoutDigest, answers.stdout);
    var stderr := Written(cached.stderrRaw, cached.stderrDigest, answers.stderr);
    && stdout.Ok? && after.stdout == before.stdout + stdout.value
    && stderr.Ok? && after.stderr == before.stderr + stderr.value
  }

  /** Writes the streams of a recorded result and restores its outputs.  The streams are what comes
      of the server's answers.  With a server that answers in full, outputs that storage denotes and
      nothing in the way, this succeeds exactly when everything recorded can be had and no two
      output files share their content. */
  method Replay(client: RemoteClient, host: Host, cached: ActionResult, ghost ts: seq<Skel>)
    returns (r: Result<(), Error>, ghost answers: Answers)
    requires host.Valid()
    requires AllFinite(client.server.c, client.server.blobs, cached.outputDirectories)
    modifies host.files, host.stdout, host.stderr, client.server`log
    ensures host.Valid() && host.spawned == old(host.spawned)
    ensures r.Ok? ==> StreamsAnswered(client.server.reliable, client.server.blobs, cached, answers)
    ensures r.Ok? ==> StreamsWritten(cached, answers, old(host.Now()), host.Now())
    ensures client.server.reliable && r.Ok? ==>
      && host.stdout.written ==
           old(host.stdout.written) + StreamContent(client.server.blobs, cached.stdoutRaw, cached.stdoutDigest)
      && host.stderr.written ==
           old(host.stderr.written) + StreamContent(client.server.blobs, cached.stderrRaw, cached.stderrDigest)
    ensures r.Ok? && cached.stdoutRaw != [] ==> host.stdout.written == old(host.stdout.written) + cached.stdoutRaw
    ensures r.Ok? && cached.stderrRaw != [] ==> host.stderr.written == old(host.stderr.written) + cached.stderrRaw
    ensures client.server.reliable && r.Ok? && cached.stdoutRaw == [] && cached.stdoutDigest.Some? ==>
      && cached.stdoutDigest.value.hash in client.server.blobs
      && host.stdout.written == old(host.stdout.written) + client.server.blobs[cached.stdoutDigest.value.hash]
    ensures client.server.reliable && r.Ok? && cached.stderrRaw == [] && cached.stderrDigest.Some? ==>
      && cached.stderrDigest.value.hash in client.server.blobs
      && host.stderr.written == old(host.stderr.written) + client.server.blobs[cached.stderrDigest.value.hash]
    ensures r.Ok? ==> Restorable(old(host.files.entries), client.server.blobs, cached.outputFiles)
    ensures AllDenote(client.server.c, client.server.blobs, cached.outputDirectories, ts) ==>
      FreshTargets(old(host.files.entries), cached.outputFiles, cached.outputDirectories) ==>
      && |ts| == |cached.outputDirectories|
      && (r.Ok? ==> EverythingPut(old(host.files.entries), host.files.entries, client.server.blobs,
                                  cached.outputFiles, cached.outputDirectories, ts))
      && (client.server.reliable ==>
           (r.Ok? <==>
             Replayable(client.server.c, client.server.blobs, cached, ts) && DistinctHashes(cached.outputFiles)))
  {
    hide StreamThere, StreamContent, AllDigested, AllStored, DirThere, DistinctHashes, EverythingPut, FreshTargets,
      AllPut, AllDenote, Placed, Rooted, Written, Answered, AllFinite;
    ghost var before, c, blobs := host.files.entries, client.server.c, client.server.blobs;
    if FreshTargets(before, cached.outputFiles, cached.outputDirectories) {
      FreshIsPlaceable(before, blobs, cached.outputFiles, cached.outputDirectories);
    }
    if AllDenote(c, blobs, cached.outputDirectories, ts) { DenotesMeans(c, blobs, cached.outputDirectories, ts); }
    ghost var stdout: Answer, stderr: Answer := None, None;
    answers := Answers(stdout, stderr);
    r, stdout := WriteStream(client, cached.stdoutRaw, cached.stdoutDigest, host.stdout);
    if client.server.reliable { ReliableStream(blobs, cached.stdoutRaw, cached.stdoutDigest, stdout); }
    if r.Err? { return; }
    r, stderr := WriteStream(client, cached.stderrRaw, cached.stderrDigest, host.stderr);
    answers := Answers(stdout, stderr);
    if client.server.reliable { ReliableStream(blobs, cached.stderrRaw, cached.stderrDigest, stderr); }
    if r.Err? { return; }
    r := RestoreOutputFiles(client, host.files, cached.outputFiles);
    if r.Err? { return; }
    r := RestoreDirectories(client, host.files, cached.outputDirectories, before, cached.outputFiles, ts);
  }

  lemma FreshIsPlaceable(before: map<Path, Entry>, blobs: map<string, Bytes>, files: seq<OutputFile>,
      dirs: seq<OutputDirectory>)
    requires Rooted(before) && FreshTargets(before, files, dirs)
    ensures Placed(before, blobs, files).Some? && AllPut(before, Placed(before, blobs, files).value, blobs, files)
  {
    hide Placed, AllPut, Placeable, Rooted, Unbent;
    PlaceableIsUnbent(before, files);
    PlacedDirectly(before, blobs, files);
  }

  lemma DenotesMeans(c: Codec, blobs: map<string, Bytes>, dirs: seq<OutputDirectory>, ts: seq<Skel>)
    requires AllDenote(c, blobs, dirs, ts)
    ensures |ts| == |dirs|
  {
  }
}
