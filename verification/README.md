# Verified model of the content-addressed tree engine

`re-memoize` and `re-dispatch` turn directory trees into Remote Execution API v2 messages, store
them by hash, rebuild them, and use them as cache keys for commands. This project models that
engine in Dafny and proves that it keeps its promises.

What everything else is measured against is small:

- `Merkle`: a *skeleton* is a tree whose files are known by digest; `Msg` and `Dig` give its
  canonical `Directory` message and digest. A *mount* is a directory known only by its digest.
- `Canon`: the same message said without computing it: `Tells` says of each list which names it has,
  in which order, and what stands beside each name; `Names.Before` is the order, byte by byte.
- `Disk`: a `Listing` is a tree as a directory read reports it, with an order; a `Node` is the
  same tree with children by name; `EntryAt` is what a path leads to.
- `FileSystem`: entries by path, and `Follow`, which leads a path through `.`, `..` and links as
  the system does, through at most 40 links.
- `Messages.Codec`: hash function and message encoding are parameters. `Lawful` says that
  decoding undoes encoding. Freedom from collisions (`NoCollision`) is only ever assumed of the
  finite set of blobs a statement talks about, and only where a statement needs it.

On top of these stand the programs, in the form the programs have. Classes whose methods update
maps in place are classes here (`DirectoryComposer`, `DirectoryBuilder`, `FilterTrie`, and the
surroundings `Server`, `RemoteClient`, `Files`, `Stream`, `Host`); loops are loops with
invariants. Two kinds of reference stand beside them: `FlatTree` indexes a tree under
construction by path, and is what both heap-based builders are proved to hold; and `Steps`
cuts `run_cached` into moves that any number of clients may interleave. `Protocol` proves what
every interleaving keeps, and `Refinement` that a call of the method `RunCached`, with a server
that may fail it anywhere or leave blobs out of its answers, is a sequence of such moves.

## What is proved

1. **Four routes to one digest.** `build_directory`, the filter trie, `DirectoryBuilder` and
   `DirectoryComposer` all compute `Dig` of the skeleton they stand for. The digest characterises
   the tree (`Disk.RootDigestCharacterisesTree`), ignores listing order, and does not change when
   a mounted tree is spelled out (`Compose.MountedSpecHasSpelledDigest`).
2. **What goes up comes down.** After `upload_directory` into any storage, both downloads succeed
   into a fresh place, agree on the whole file system, restore the tree path by path, and the
   result has the uploaded digest whoever lists it (`RoundTrip.UploadThenDownload`). Nothing
   outside that place changes (`Download.DownloadFromRoot`, `Confinement.RootStaysInPlace`).
3. **Memoization.** Unless an answer leaves blobs out, a recorded result is always backed by
   storage, in one client's runs and in every interleaving (`Caching.RunCached`,
   `Protocol.EveryRunKeepsInv`), and what is backed can
   be replayed, whoever recorded it (`Memoized.RunHit`, `Protocol.ReplayReachable`); a second run
   replays the first (`Memoized.RunTwice`).
4. **Transfer and text.** Greedy batching is optimal, the ByteStream writes are as few as any
   server would accept, and digests as text round-trip.

## What turned out otherwise than documented or expected

- The digest of the flattened `Tree` message depends on the order in which the file system lists
  entries, although the root digest does not. `TreeBuild.TreeDigestsAgreeExactly` says for which
  listings it agrees; `TreeBuild.TreeMessageDependsOnListingOrder` is a tree for which it does not.
- A cached result with two output files of equal content can never be replayed, because the
  contents are taken out of the fetched map one by one: `Restore.EqualOutputsDoNotReplay`;
  `Restore.RestoreOutputFiles` gives the exact condition.
- `format_digest` is documented as the inverse of `parse_digest`. It is a left inverse only;
  `DigestText.FormatUndoesParseExactly` says for which texts it is a right inverse too.
- `re-memoize` and `re-dispatch` give the same tree the same digest exactly when they read its
  modes and link targets alike: `Serialize.TwoToolsOneDigest`.
- When a server leaves a blob out of its answer, `write_stream` succeeds and writes nothing
  (`Restore.OmittedStreamIsLost`). `Restore.StreamWrittenExactly` says when a stream is written.
- Likewise, `upload_blobs` does not miss an answer that is not there: an empty one is taken for
  success (`Client.UnansweredIsLost`), and `run_cached` may then record a result that nothing backs
  (`Protocol.OverlookedIsUnbacked`). `Client.RemoteClient.UploadBlobs` says, from the answers that
  the server gave, exactly when a successful upload has stored everything.
- A download takes names as they come. One that is not a single component
  (`Confinement.ImproperNameLeaves`), or that a link shares with a file
  (`Confinement.SharedNameLeaves`), makes it write outside the target.
  `Confinement.NameStaysExactly` says which names stay, and `Confinement.EntriesStayExactly` which
  messages do, if they have no sub-directories; trees that were uploaded have no others.

## Model

| member | source | states |
|---|---|---|
| Names.SortByForgetsOrder | cmd/re_memoize/src/tree.rs:175-177 | sorting any listing of a map's values by name yields the map's values in key order, whatever order they were collected in |
| Names.LtIsByteOrder | cmd/re_memoize/src/tree.rs:175-177 | the order in which names are sorted: a name before another if it is a proper prefix, or has the smaller character where they first differ, which is the byte order of UTF-8 |
| Merkle.ExpandingKeepsDigest | cmd/re_dispatch/src/execute.rs:353-378 | replacing mounts by directories of the mounted digest, anywhere in a tree, leaves every digest above them as it was |
| Merkle.EqualDigestsExpand | cmd/re_memoize/src/tree.rs:121-193 | the converse: without a collision, a spelled-out tree has a tree's digest only if it is that tree with its mounts spelled out |
| Merkle.DigestCharacterisesTree | cmd/re_memoize/src/tree.rs:121-193 | without a collision among their directory blobs, two mount-free trees have equal digests exactly when they are equal |
| Canon.TellsExactly | cmd/re_memoize/src/tree.rs:175-193 | a message is the canonical one exactly when its three lists ascend byte by byte and name each child of their kind once, with its own digest, target or executable bit, a sub-directory's being the hash and length of its message |
| Disk.RootDigestCharacterisesTree | cmd/re_memoize/src/tree.rs:121-193 | without a collision among their blobs, two trees have equal root digests exactly when every path leads to entries the tool cannot tell apart |
| Disk.SeesExactly | cmd/re_memoize/src/tree.rs:155-165 | what re-memoize sees of a tree is, path by path, the hash and length of contents, the owner's executable bit, and targets as they are, and nothing else fits |
| Disk.ModeDigits | cmd/re_dispatch/src/serialize.rs:277-288 | of a mode in octal, re-memoize reads the lowest bit of the owner's digit, and re-dispatch those of all three |
| TreeBuild.BuildDirectory | cmd/re_memoize/src/tree.rs:121-193 | message, digest, flattened list and file blobs are those of the name-indexed tree that was listed; spelled out, the message lists every entry of each kind once, names ascending byte by byte, files with the hash and length of their content and whether the owner may execute them, links with their targets, sub-directories with the hash and length of their own messages; the digest is the hash and length of the message |
| TreeBuild.RootDigestIgnoresListingOrder | cmd/re_memoize/src/tree.rs:128-185 | reordering any directory listing at any depth changes neither the root message nor its digest |
| TreeBuild.BuiltDigestCharacterisesTree | cmd/re_memoize/src/tree.rs:121-193 | two listings have the same digest exactly when the trees they list look alike at every path, barring a collision |
| TreeBuild.FileBlobsAreContents | cmd/re_memoize/src/tree.rs:155-165 | the file blobs are exactly the contents of the tree's files, each under its own digest |
| TreeBuild.DescendantsAreAllSubdirectories | cmd/re_memoize/src/tree.rs:145-153 | the flattened list has one entry for each path to a proper sub-directory, and no other, each being the message of what is there; a path comes before those below it, and all below one name before those below the name listed after it |
| TreeBuild.TreeDigest | cmd/re_memoize/src/tree.rs:481-488 | the hash and length of the message made of the root message and the flattened list |
| TreeBuild.TreeDigestsAgreeExactly | cmd/re_memoize/src/tree.rs:481-488 | the flattened digests of any two listings are equal exactly when the trees look alike at every path and so do, position by position, the sub-directories that the listings meet in preorder, barring a collision |
| TreeBuild.ReorderingKeepsTreeDigestExactly | cmd/re_memoize/src/tree.rs:145-153 | reordering the listings of one tree keeps the flattened digest exactly when it leaves like sub-directories at every preorder position |
| TreeBuild.TreeMessageDependsOnListingOrder | cmd/re_memoize/src/tree.rs:145-153 | a witness: two listings of one and the same tree whose flattened messages differ |
| Filters.FilterTrie.Insert | cmd/re_memoize/src/tree.rs:332-360 | accepted exactly when nothing was placed at, above or below the path; then every path holds what it should, otherwise nothing changes |
| Filters.BuildGroup | cmd/re_memoize/src/tree.rs:368-437 | a trie is built like the directory whose entries are the trie's, without any sorting; names ascend nevertheless |
| Filters.BuildFilteredDirectory | cmd/re_memoize/src/tree.rs:247-277 | accepted exactly when every filter names an entry below the root and none equals or leads to another, and otherwise refused for the first filter that is at fault; message and digest are those of the tree cut down to the filters |
| Filters.HoldsRestricts | cmd/re_memoize/src/tree.rs:368-437 | a trie of the entries at the filters stands for the tree cut down to what is at, below or above a filter |
| Filters.FilterOrderIsForgotten | cmd/re_memoize/src/tree.rs:255-276 | tries filled with the same filters in any order are equal |
| Filters.SelectingAllGivesWholeDigest | cmd/re_memoize/src/tree.rs:247-277 | filters that list every entry of a non-empty root give the unfiltered digest |
| PathText.SpecPathComponents | cmd/re_dispatch/src/execute.rs:381-393 | the components of a path, or an error, as the next row characterises them |
| PathText.ComponentsCharacterisePaths | cmd/re_dispatch/src/execute.rs:381-393 | the accepted paths are exactly the joined non-empty sequences of proper names, each from one path only |
| PathText.NormalFormsCharacteriseTargets | cmd/re_dispatch/src/serialize.rs:238-257 | a link target has a normal form exactly when it is relative and has a component; the form is those components joined by single slashes; two targets share it exactly when they lead through the same components |
| PathText.JoinedPlainly | cmd/re_memoize/src/download.rs:49-71 | joining a name to a plain path adds it as one more plain step exactly when it is neither empty, `.` nor `..` and has no slash |
| FlatTree.MsgAtIsMsg | cmd/re_dispatch/src/execute.rs:353-378 | as long as no path is both leaf and directory, the message built from the maps at a path is the canonical message of the tree below it |
| FlatTree.AcceptedExactlyIncomparable | cmd/re_dispatch/src/execute.rs:288-351 | a sequence of insertions is accepted exactly when no path equals or leads to another, and then holds exactly the inserted items |
| FlatTree.InsertionOrderIsForgotten | cmd/re_dispatch/src/execute.rs:288-351 | accepted insertions of the same items in any order give the same result |
| FlatTree.MountingRefinesExpanding | cmd/re_dispatch/src/execute.rs:310-378 | inserting everything a directory is made of instead of mounting it by digest is accepted too, and gives the same root blob |
| Compose.DirectoryComposer.DirectoryMut | cmd/re_dispatch/src/execute.rs:330-341 | reaches the directory and makes exactly the missing ones; fails exactly for a leaf on the way, having made nothing |
| Compose.DirectoryComposer.AddFile | cmd/re_dispatch/src/execute.rs:288-308 | accepted exactly when the path is well formed and free at, above and below; a refusal changes nothing, and tells a path that is not well formed from one that leads through a leaf and from one that is taken; names stay disjoint at every level |
| Compose.DirectoryComposer.AddInputTree | cmd/re_dispatch/src/execute.rs:310-328 | the same for mounts, and never at the root |
| Compose.DirectoryComposer.IntoDirectory | cmd/re_dispatch/src/execute.rs:353-378 | the canonical message, names ascending byte by byte, and the blobs of exactly the directories below, each emitted once |
| Compose.InputRootFromSpec | cmd/re_dispatch/src/execute.rs:261-285 | a lone tree at the root is used as it is; otherwise accepted exactly when all paths are spelled by proper names and none equals or leads to another; then the blobs are those of the one tree that has exactly the given files, mounts, and directories that lead to them, one for each such directory, and the root blob comes with its hash and length |
| Compose.MountedSpecHasSpelledDigest | cmd/re_dispatch/src/execute.rs:261-285 | a spec that mounts what another spec composes to, and the spec that names everything in it, compose to the same root blob |
| Serialize.DirectoryBuilder.EnsureDir | cmd/re_dispatch/src/serialize.rs:123-132 | makes exactly the directories on the path and keeps all else |
| Serialize.DirectoryBuilder.AddFile | cmd/re_dispatch/src/serialize.rs:134-163 | refused exactly for a taken name or no name; enters one leaf and the directories above it |
| Serialize.DirectoryBuilder.AddSymlink | cmd/re_dispatch/src/serialize.rs:165-188 | the same for links |
| Serialize.DirectoryBuilder.IntoDirectory | cmd/re_dispatch/src/serialize.rs:190-216 | message and digest of the directory the builder holds; names ascend byte by byte, and the digest is the hash and length of the message |
| Serialize.TakeWalk | cmd/re_dispatch/src/serialize.rs:65-89 | over any walk of a tree, and wherever its links lead, fails exactly for a link target that is not accepted and never for a duplicate |
| Serialize.Run | cmd/re_dispatch/src/serialize.rs:52-106 | the digest of a walked tree is the root digest of the tree as re-dispatch reads it: a file is executable if anyone may execute it, a link leads through the components of its target; it fails exactly when a link is absolute, has no component, or does not lead inside the root, wherever links may lead |
| Serialize.SortedPreorderIsWalk | cmd/re_dispatch/src/serialize.rs:65-66 | the sorted preorder visits every path below the root exactly once, a path before those below it and a smaller name, byte by byte, before a greater one |
| Manifest.LinksJudged | cmd/re_dispatch/src/serialize.rs:219-258 | with links followed as the file system does, the links of a tree are all accepted exactly when, in the file system, none at or below the root is absolute, has no component, dangles, or leads out of the root |
| Manifest.SerializeDirectory | cmd/re_dispatch/src/serialize.rs:52-106 | fails exactly for a root that leads nowhere or to no directory, and for a link below it as in the row above; otherwise gives the root digest of the directory that is there, with modes and targets read as in `Serialize.Run` |
| Serialize.TwoToolsOneDigest | cmd/re_dispatch/src/serialize.rs:277-288 | both tools give a tree the same digest exactly when they read every mode and link target alike, barring a collision |
| Batching.ChunkBySize | cmd/re_memoize/src/client.rs:253-275 | the batches concatenate to the items, none is empty or over budget unless it is a single item, and none could take the first item of the next |
| Batching.GreedyIsOptimal | cmd/re_memoize/src/client.rs:253-275 | no other such split into batches, keeping the order, is shorter |
| Client.CheckBlobStatus | cmd/re_memoize/src/client.rs:306-324 | an answer counts exactly when it names a digest and carries no status or the code 0; an answer without a digest is malformed whatever its status |
| Client.RemoteClient.FindMissingBlobs | cmd/re_memoize/src/client.rs:66-92 | the union over all batches is exactly the set of hashes storage lacks; each request is non-empty and asks for one digest or for at most the budget, with 8 bytes and the hash for each digest, and none could take the first digest of the next; on success the requests are the digests in order; it succeeds exactly when no request fails |
| Client.RemoteClient.UploadBlobs | cmd/re_memoize/src/client.rs:95-128 | whatever the server answers, each request it is sent is non-empty and one blob or at most the budget, with data and hash for each blob, and none could take the first blob of the next; on success the requests are the blobs in order; it succeeds exactly when no request fails and every answer names a digest and has no or a zero status; then it has stored all blobs exactly when those are stored that no answer names, and so if every blob is answered for; in any case storage only grew by blobs that were sent |
| Client.UnansweredIsLost | cmd/re_memoize/src/client.rs:123-125 | a witness: an empty answer lets any batch through of which something is not stored |
| Client.RemoteClient.UploadIfMissing | cmd/re_memoize/src/client.rs:171-179 | only what storage lacked is sent, in requests that fit as above; on success all blobs are there exactly when those are that were sent and that none of the server's answers names, and so if every blob is answered for |
| Client.RemoteClient.DownloadBlobs | cmd/re_memoize/src/client.rs:132-162 | returns storage's content for what was asked, in requests that fit: each is non-empty and one digest or at most the budget, with the hash and the size, if positive, for each; with a server that answers, succeeds exactly when all of it is there |
| Client.RemoteClient.DownloadAnswered | cmd/re_memoize/src/client.rs:132-162 | whatever a server answers to such requests, the result is exactly what its answers amount to |
| Client.OutcomeExactly | cmd/re_memoize/src/client.rs:132-162 | what answers amount to: it is a result exactly when there is every answer, and each part of it names a digest and has no or a zero status; then it maps just the hashes that are named, each to data that came with it |
| Upload.FlattenedListIsComplete | cmd/re_memoize/src/upload.rs:49-52 | the root and the flattened list encode to exactly the directory blobs of the tree |
| Upload.UploadDirectory | cmd/re_memoize/src/upload.rs:27-63 | one blob is asked for each hash the tree needs, in requests that fit as for `Client`; on success every blob of the tree is in storage exactly if those are that storage lacked and that none of the server's answers names; with a server that answers for every blob, each is sent at most once and only if it was missing; the digests are those of the root message and of the flattened tree, spelled out as for `TreeBuild.BuildDirectory` and `TreeBuild.TreeDigest` |
| Upload.UploadRefinesStoringAll | cmd/re_memoize/src/upload.rs:45-57 | barring a collision, storage ends up as if every blob had been stored unconditionally |
| Download.PlaceDirectory | cmd/re_memoize/src/download.rs:36-71 | what is below is reported in order, its names joined as they are; in a fresh place exactly one directory of a tidy tree with its links appears, and it fails only for a missing digest; whatever the names, it fails exactly for a message that cannot be read, an entry without a digest, or a directory or link that cannot be made in turn; if its message is neat and no link is in the way, nothing outside the target of the download changes |
| Download.WalkLevels | cmd/re_memoize/src/download.rs:29-74 | round k handles exactly the directories at depth k, each once; there are as many rounds as levels; the files to write are all files of the tree, each once; where messages are neat and no link is in the way, nothing outside changes |
| Download.WriteFiles | cmd/re_memoize/src/download.rs:134-160 | in a fresh place, all files appear with their content and with mode 0o755 or 0o644, as the tree says, and it fails only for content that storage lacks, however many files share it; wherever the paths lead, whatever has changed, even by a download that failed, has the content of one of the files and its mode, 0o755 or 0o644; on success the file system is what writing the files one after the other, links followed, makes of it, and with a server that answers it fails exactly if that cannot be done |
| Download.DownloadFromRoot | cmd/re_memoize/src/download.rs:24-77 | of a tree that storage denotes, with proper names and links that are not empty, in a fresh place and with a server that answers, succeeds exactly when storage holds everything in the tree, and then exactly the tree has appeared: directories, links with their targets, and files with storage's content and mode 0o755 if executable and 0o644 if not; of any messages that are neat, where no link is at, above or below the target, nothing outside it changes, whether it succeeds or not |
| Materialize.Materialize | cmd/re_memoize/src/download.rs:213-266 | of a lookup that resolves to the messages of a tidy tree, fails exactly for a sub-directory it does not resolve or a missing digest, makes exactly the directories and links and lists exactly the files; of any neat messages, with no link in the way, changes nothing outside the target |
| Materialize.DownloadTree | cmd/re_memoize/src/download.rs:94-127 | the same of a flattened tree as `DownloadFromRoot` of single blobs |
| Confinement.RootStaysInPlace | cmd/re_memoize/src/download.rs:24-77 | the messages of every tidy tree that storage denotes are neat, so its download stays in its place |
| Confinement.FlatRootStaysInPlace | cmd/re_memoize/src/download.rs:94-127 | the same of flattened trees |
| Confinement.NameStaysExactly | cmd/re_memoize/src/download.rs:57-71 | in an empty directory, the file or link for a name is made under that name exactly when the name is a single proper component |
| Confinement.EntriesStayExactly | cmd/re_memoize/src/download.rs:36-71 | in a fresh place, a message without sub-directories is placed with every entry under its own name and nothing else changed exactly when its names are proper, no link shares one, links lead somewhere, contents are stored and files of one name are alike |
| Confinement.ImproperNameLeaves | cmd/re_memoize/src/download.rs:57-64 | a witness: names that start with `..` or a slash put a file outside the target |
| Confinement.SharedNameLeaves | cmd/re_memoize/src/download.rs:57-71 | a witness: a file of the same name as a link is written where the link leads |
| RoundTrip.FlattenedListLooks | cmd/re_memoize/src/download.rs:112-115 | the lookup made from an uploaded flattened list resolves every sub-directory to its own message, shared blobs included |
| RoundTrip.StoredDenotes | cmd/re_memoize/src/upload.rs:45-57 | after an upload every directory reachable from the root digest is stored as its own message |
| RoundTrip.StoredIsComplete | cmd/re_memoize/src/upload.rs:45-57 | after an upload every file reachable from the root digest has its content in storage |
| RoundTrip.RebuiltIsRestored | cmd/re_memoize/src/download.rs:24-77 | a rebuilt upload has every path, content and link target of the original and nothing else, files with mode 0o755 if their owner could execute them and 0o644 if not, and nothing outside has changed |
| RoundTrip.RestoredHasSameDigest | cmd/re_memoize/src/tree.rs:121-193 | building the digest of a restored directory again, in whatever order it is listed, gives the original digest |
| RoundTrip.UploadThenDownload | cmd/re_memoize/src/download.rs:24-127 | from any storage: upload, then both downloads succeed, collect the same multiset of files to write, agree, restore the tree, with modes 0o755 and 0o644, and its digest |
| Run.Dedup | cmd/re_memoize/src/run.rs:103-104 | from an ascending sequence, the strictly ascending one of the same elements |
| Run.BuildAction | cmd/re_memoize/src/run.rs:84-122 | fails exactly for an absolute path; the first blob is the encoding of the command line and of the declared outputs, files and directories together, strictly ascending byte by byte; the second is that of an action which has the first one's digest as its command, the given input root, and the given no-cache flag; each blob carries its own hash and length |
| Run.TellsRunExactly | cmd/re_memoize/src/run.rs:84-122 | there are no two blobs but its own that tell of a run in these terms |
| Run.ActionDigest | cmd/re_memoize/src/run.rs:128-131 | the hash and length of the action blob so described, without a server; fails exactly for an absolute path |
| Run.KeyCharacterisesRun | cmd/re_memoize/src/run.rs:84-131 | two runs have the same cache key exactly when command line, input root, no-cache flag and set of declared outputs agree, barring a collision |
| Restore.RestoreOutputFiles | cmd/re_memoize/src/run.rs:314-354 | with a server that answers, succeeds exactly when all contents are stored, no two files share a hash, and the files can be written one after the other, links followed; then the file system is what these writes make of it; with any server, whatever has changed is a directory or has a recorded file's content, with mode 0o755 if recorded as executable and 0o644 if not |
| Restore.PlacedDirectly | cmd/re_memoize/src/run.rs:332-352 | where no path leads up, or through or to a link, files can be written one after the other exactly when nothing is in the way of any and none in the way of another; then each is in its place and nothing else has changed |
| Restore.PlacedAsRecorded | cmd/re_memoize/src/run.rs:332-352 | and the file written last at a path is there with its stored content and mode 0o755 or 0o644, as recorded |
| Restore.EqualOutputsDoNotReplay | cmd/re_memoize/src/run.rs:338-344 | two equal files that are stored and can be written in an empty directory cannot be restored |
| Restore.WriteStream | cmd/re_memoize/src/run.rs:359-379 | with any server, writes the inlined stream, or else exactly what comes of the server's answer for the digest, and fails exactly when that does; with a server that answers, that is storage's content |
| Restore.StreamWrittenExactly | cmd/re_memoize/src/run.rs:359-379 | a write that succeeds has written the recorded stream exactly when it was inlined or there is none, or the answer holds the blob, or the stream is empty |
| Restore.OmittedStreamIsLost | cmd/re_memoize/src/run.rs:359-379 | a witness: for any stored non-empty stream, an answer without the blob makes the write succeed and write nothing |
| Restore.RestoreDirectories | cmd/re_memoize/src/run.rs:222-231 | of trees that storage denotes, fresh directories whose plain paths do not overlap are rebuilt one after the other without disturbing what was restored before |
| Restore.Replay | cmd/re_memoize/src/run.rs:200-233 | with any server, the streams are what comes of its answers, an inlined one as it is; with a server that answers, they are storage's contents otherwise; with plain paths that are fresh and apart, trees that storage denotes and a server that answers, succeeds exactly when everything recorded can be had and output files differ, and then streams, files and trees are as recorded |
| Capture.Pump | cmd/re_memoize/src/run.rs:424-444 | what is kept and what is passed on are both everything that arrived |
| Capture.SpawnAndTee | cmd/re_memoize/src/run.rs:387-420 | with the number the process exits with, or -1 if it was killed, and both streams, passed on as they are captured; fails exactly if it does not start |
| Capture.CaptureOutputFile | cmd/re_memoize/src/run.rs:239-263 | succeeds exactly for a relative path that names a regular file, links on the way followed; then the record says what the file is, and if every blob is answered for, its content is in storage; a missing output and a link at the end are told from all other failures |
| Capture.CaptureOutputDirectory | cmd/re_memoize/src/run.rs:270-288 | the same for a directory, whose whole tree is then in storage under the recorded digests |
| Caching.RecordedIsBacked | cmd/re_memoize/src/run.rs:165-192 | a result made of captured outputs refers only to what has been sent |
| Caching.BackedIsKnown | cmd/re_memoize/src/run.rs:147-156 | everything that a backed result refers to can be had, and its directories are trees that storage denotes to the last file, barring a collision |
| Caching.RunAndRecord | cmd/re_memoize/src/run.rs:159-194 | with a server that answers, succeeds exactly when the command starts and leaves every declared output; all it produced is then stored and recorded; with any server, what is returned and recorded is the number the process exits with, or -1 if it was killed |
| Caching.RunCached | cmd/re_memoize/src/run.rs:137-195 | the call is a sequence of the moves of one client; if every blob is answered for, a cache backed by storage stays so and command and action are in storage; the cache changes only by the complete record of this run; a hit starts no process and replays, with any server; a miss runs, and with any server returns, and if it caches records, the number the process exits with, or -1, and the digests of both streams |
| Memoized.RecordedReplays | cmd/re_memoize/src/run.rs:147-156 | everything a record refers to can be had from the storage it was made with |
| Memoized.RunHit | cmd/re_memoize/src/run.rs:147-156 | whatever entry of a backed cache is found, it is replayed without starting a process, and with plain, fresh targets exactly when its output files differ pairwise, barring a collision |
| Memoized.ReplayReproduces | cmd/re_memoize/src/run.rs:200-233 | a replay into plain, fresh targets leaves each declared path naming the file that the run left there, with mode 0o755 if its owner could execute it and 0o644 if not, or the directory with the same at every path below it |
| Memoized.RunTwice | cmd/re_memoize/src/run.rs:137-195 | a second run, into plain and fresh targets, starts no process; it succeeds exactly when the output files differ pairwise, and then gives the number the first process exited with, or -1, and the same streams and outputs |
| Protocol.StepKeepsInv | cmd/re_memoize/src/run.rs:137-195 | every step of any client, failures included, keeps the invariant, and keeps everything backed unless it overlooks a blob that storage lacks |
| Protocol.EveryRunKeepsInv | cmd/re_memoize/src/run.rs:137-195 | so does every interleaving of any number of clients from any backed cache |
| Protocol.EntriesAreBacked | cmd/re_memoize/src/run.rs:163-192 | as long as no blob that storage lacks is overlooked, every cache entry has its action, command, streams, files and whole output trees in storage; barring a collision, what is stored under its key decodes to an action that may be cached, whose command, stored too, can be decoded |
| Protocol.OverlookedIsUnbacked | cmd/re_memoize/src/client.rs:123-125 | a witness: from any suitable start, a client whose update answer leaves a blob out records an entry whose stream storage lacks |
| Protocol.FailedRecordedNothing | cmd/re_memoize/src/run.rs:188-192 | no client that failed, or was told not to cache, has recorded anything |
| Protocol.RecordedExactly | cmd/re_memoize/src/run.rs:188-195 | a client has recorded something exactly when it ran its command to the end and may cache, whether or not it learned of the record; then the cache has an entry for its key |
| Protocol.HitsComeFromEqualRuns | cmd/re_memoize/src/run.rs:147-156 | a replayed result was recorded by another client with the same command line, input root and declared outputs, all of them captured, barring a collision |
| Protocol.ReplaysHaveEverything | cmd/re_memoize/src/run.rs:147-156 | as long as nothing is overlooked, what a client is about to replay, even if overwritten since, and what the cache holds has its streams, files and whole trees in storage, barring a collision |
| Protocol.ReplayReachable | cmd/re_memoize/src/run.rs:200-233 | and so can be replayed by any client with plain, fresh targets, exactly when its output files differ pairwise |
| Protocol.StorageAndCacheOnlyGrow | cmd/re_memoize/src/run.rs:137-195 | over any run, storage loses and changes no blob and the cache loses no key |
| Protocol.AHitCanHappen | cmd/re_memoize/src/run.rs:137-195 | the statements above are not empty: from any suitable start there is an interleaving in which one client records and another replays |
| Refinement.RunAmongOthers | cmd/re_memoize/src/run.rs:137-195 | a call of `RunCached` in any reachable state, with any server, is a sequence of moves of one client, leaves a reachable state and the other clients where they were, and returns what the client's last point says; it overlooks nothing if every blob is answered for |
| Refinement.SimulatedAmid | cmd/re_memoize/src/run.rs:137-195 | the moves of a client alone are its moves among any others |
| Refinement.EntryIsFinite | cmd/re_memoize/src/run.rs:147-156 | the finite nesting such a call asks for is given wherever nothing has been overlooked, barring a collision |
| ByteStream.Writes | cmd/re_dispatch/src/execute.rs:535-568 | a ByteStream server accepts the writes and assembles the blob; each starts where the full ones of 1 MiB before it end, all but the last are full, only the first names the resource, only the last finishes |
| ByteStream.FewestWrites | cmd/re_dispatch/src/execute.rs:535-568 | no accepted sequence of writes of at most 1 MiB is shorter |
| ByteStream.UploadBlob | cmd/re_dispatch/src/execute.rs:524-583 | nothing is sent for a digest of the wrong size; writes are of at most 1 MiB; success means that all of it was committed |
| ByteStream.ReadBlob | cmd/re_dispatch/src/execute.rs:430-460 | in whatever pieces a blob comes, it is accepted exactly when size and hash are as expected, a wrong size told from a wrong hash; no more than the expected size is ever buffered |
| ByteStream.SentPiecesJoin | cmd/re_dispatch/src/execute.rs:535-568 | the pieces of accepted writes join to what the server assembled |
| DigestText.ParsesExactly | cmd/re_memoize/src/tree.rs:65-78 | which texts are accepted, and as what: 64 hexadecimal digits of either case, a slash, and a sign or none with decimal digits, the value from -2^63 to 2^63 - 1 |
| DigestText.FormatsExactly | cmd/re_memoize/src/tree.rs:80-92 | how a digest is printed: its hash, a slash, and the decimal digits that mean its size, without plus sign or leading zeros |
| DigestText.ParseUndoesFormat | cmd/re_memoize/src/tree.rs:65-92 | parsing a printed digest gives it back, for every 64-bit size |
| DigestText.ParseIsStable | cmd/re_memoize/src/tree.rs:65-92 | parsing, printing and parsing again gives what the first parse gave |
| DigestText.FormatUndoesParseExactly | cmd/re_memoize/src/tree.rs:80-92 | printing a parsed text gives it back exactly when its size has no plus sign, leading zero or negative zero |
| DigestText.LeadingZerosAreLost | cmd/re_memoize/src/tree.rs:80-92 | texts that are accepted and printed differently |

## Left out

- Download.DownloadFromRoot: of stored directories that are not canonical messages of a tree, it is only said when nothing outside the place changes. That messages are neat and no link is in the way is enough for this; that it is needed is shown of single names and of messages without sub-directories, not of whole downloads. Nesting must be finite; digests that lead back to themselves take a collision.
- Materialize.DownloadTree: the same.
- Restore.RestoreDirectories: of targets that are not fresh, overlap, or lead up or through links, it says no more than that the file system stays one.
- Caching.RunCached: what the command does to the file system is a parameter.
- Protocol.EveryRunKeepsInv: client file systems are not part of the state; what is captured, replayed to disk or printed is arbitrary there. Batches are sent blob by blob, which is finer than the code; what is missing is asked for in one step, where the code asks batch by batch.
- Filters.FilterTrie.Insert: the levels of the trie are values, so that inserting rebuilds the path instead of updating nested maps in place.
- Serialize.Run: the parallel map over files is sequential, and the manifest is not written. Where a link resolves to is a parameter; `Manifest.SerializeDirectory` gives it the file system.
- Upload.UploadDirectory: reading the directory cannot fail and sees one state of it.
- ByteStream.ReadBlob: an error of the stream itself is not modelled.
- Batching.ChunkBySize: sizes are unbounded numbers, without overflow.
- Messages.Codec: SHA-256 and Protocol Buffers are parameters; sizes are unbounded, so the conversion of a length to 64 bits is exact.
- FileSystem.Files: operations succeed or fail by what is there; other I/O errors (permissions, too long names, NUL bytes) and partial writes are left out. The root is the working directory. A path that ends in `/.` is taken for one that ends in `/`.
- Client.RemoteClient.FindMissingBlobs: a server may fail, but does not report a blob as present that it lacks; nor does any answer say that a blob was stored when it was not.
- Names that are not valid UTF-8, special files, and file systems that change while they are read.
- How the position of a filter relative to the root is resolved; filters start as component sequences.
- Connections, TLS, credentials, endpoint names, command lines, resource names, platform properties and message formatting.
- The execution half of re-dispatch beyond its input root and blob transfer, the Go code, build files and tools.
