/** Which messages stay in their place: those of every tree that is tidy, and how others leave it. */
module Confinement {
  import opened Names
  import opened Messages
  import opened Merkle
  import opened FlatTree
  import opened PathText
  import opened Disk
  import opened FileSystem
  import opened Layout
  import opened Download
  import opened Materialize

  // ---------------------------------------------------------------- trees stay in their place

  /** What is below a directory of the tree are its messages; a mount has none. */
  ghost predicate Answers(c: Codec, below: string -> Option<Directory>, t: Skel) {
    forall p :: p in Paths(t) && p != [] && IsDirectory(t, p) && Dig(c, Sub(t, p).value).Some? ==>
      AnswersAt(c, below, t, p)
  }

  ghost predicate AnswersAt(c: Codec, below: string -> Option<Directory>, t: Skel, p: Path)
    requires IsDirectory(t, p) && Dig(c, Sub(t, p).value).Some?
  {
    below(Dig(c, Sub(t, p).value).value.hash) == if IsDir(t, p) then Some(Msg(c, Sub(t, p).value)) else None
  }

  lemma DirNames(c: Codec, s: Skel, i: nat)
    requires s.SDir?
    ensures i < |Msg(c, s).directories| ==> Msg(c, s).directories[i].name in DirMap(c, s)
    ensures i < |Msg(c, s).files| ==> Msg(c, s).files[i].name in FileMap(s)
    ensures i < |Msg(c, s).symlinks| ==> Msg(c, s).symlinks[i].name in LinkMap(s)
  {
    MsgLengths(c, s);
    if i < |Msg(c, s).directories| { assert InOrder(DirMap(c, s).Keys)[i] in DirMap(c, s); }
    if i < |Msg(c, s).files| { assert InOrder(FileMap(s).Keys)[i] in FileMap(s); }
    if i < |Msg(c, s).symlinks| { assert InOrder(LinkMap(s).Keys)[i] in LinkMap(s); }
  }

  lemma DirsDistinct(c: Codec, s: Skel, i: nat, j: nat)
    requires s.SDir? && i < j < |Msg(c, s).directories|
    ensures Msg(c, s).directories[i].name != Msg(c, s).directories[j].name
  {
    MsgLengths(c, s);
    var names := InOrder(DirMap(c, s).Keys);
    assert names[i] in DirMap(c, s) && names[j] in DirMap(c, s);
    LtIrreflexive(names[i]);
  }

  /** The canonical message of a directory of a tidy tree is neat. */
  lemma MsgIsNeat(c: Codec, t: Skel, p: Path)
    requires Tidy(t) && IsDir(t, p)
    ensures Neat(Msg(c, Sub(t, p).value))
  {
    hide Msg, DirMap, FileMap, LinkMap, Tidy, Proper, Sub, Paths;
    var s := Sub(t, p).value;
    var dir := Msg(c, s);
    forall i | 0 <= i < |dir.directories| ensures Proper(dir.directories[i].name) {
      DirNames(c, s, i);
      KidIsProper(t, p, dir.directories[i].name);
    }
    forall i | 0 <= i < |dir.files| ensures Proper(dir.files[i].name) {
      DirNames(c, s, i);
      KidIsProper(t, p, dir.files[i].name);
    }
    forall i | 0 <= i < |dir.symlinks| ensures Proper(dir.symlinks[i].name) {
      DirNames(c, s, i);
      KidIsProper(t, p, dir.symlinks[i].name);
    }
    forall i, j | 0 <= i < j < |dir.directories| ensures dir.directories[i].name != dir.directories[j].name {
      DirsDistinct(c, s, i, j);
    }
    forall i, j | 0 <= i < |dir.symlinks| && 0 <= j < |dir.directories|
      ensures dir.symlinks[i].name != dir.directories[j].name
    {
      DirNames(c, s, i);
      DirNames(c, s, j);
    }
    forall i, j | 0 <= i < |dir.symlinks| && 0 <= j < |dir.files| ensures dir.symlinks[i].name != dir.files[j].name {
      DirNames(c, s, i);
      DirNames(c, s, j);
    }
  }

  lemma KidIsProper(t: Skel, p: Path, name: string)
    requires Tidy(t) && IsDir(t, p) && name in Sub(t, p).value.kids
    ensures Proper(name)
  {
    hide Tidy, Proper;
    SubStep(t, p, name);
    TidyName(t, p, name);
  }

  /** What is found in one canonical message. */
  lemma FoundBelow(c: Codec, below: string -> Option<Directory>, t: Skel, p: Path, name: string)
    requires IsDir(t, p) && Answers(c, below, t)
    ensures var found := Find(below, Some(Msg(c, Sub(t, p).value)), [name]);
      found.Some? && found.value.FoundDir? && found.value.message.Some? ==>
        IsDir(t, Child(p, name)) && found.value.message == Some(Msg(c, Sub(t, Child(p, name)).value))
  {
    hide Msg, DirMap, Sub, Paths, Dig;
    var d, r := Msg(c, Sub(t, p).value), [name];
    if HasDir(d, name) {
      var i := DirIndex(d, name);
      DirNodeAt(c, t, p, i);
      MsgLengths(c, Sub(t, p).value);
      assert d.directories[i].name == InOrder(DirMap(c, Sub(t, p).value).Keys)[i] == name;
      ChildParts(p, name);
      PathsAreInhabited(t, Child(p, name));
      assert r[1..] == [];
      if Dig(c, Sub(t, Child(p, name)).value).Some? { assert AnswersAt(c, below, t, Child(p, name)); }
    }
  }

  lemma {:induction false} FoundIsMsg(c: Codec, below: string -> Option<Directory>, t: Skel, r: Path)
    requires t.SDir? && Answers(c, below, t)
    ensures var found := Find(below, Some(Msg(c, t)), r);
      found.Some? && found.value.FoundDir? && found.value.message.Some? ==>
        IsDir(t, r) && found.value.message == Some(Msg(c, Sub(t, r).value))
  {
    hide Msg, Answers, Find;
    if r == [] {
      FindNothing(below, Some(Msg(c, t)));
    } else {
      var n := |r| - 1;
      assert r == r[..n] + [r[n]] == Child(r[..n], r[n]);
      FindOn(below, Some(Msg(c, t)), r[..n], [r[n]]);
      FoundIsMsg(c, below, t, r[..n]);
      var found := Find(below, Some(Msg(c, t)), r[..n]);
      if found.Some? && found.value.FoundDir? {
        if found.value.message.Some? {
          FoundBelow(c, below, t, r[..n], r[n]);
        } else {
          FindNowhere(below, r[n]);
        }
      }
    }
  }

  lemma FindNothing(below: string -> Option<Directory>, dir: Option<Directory>)
    ensures Find(below, dir, []) == Some(FoundDir(dir))
  {
  }

  lemma FindNowhere(below: string -> Option<Directory>, name: string)
    ensures Find(below, None, [name]) == None
  {
  }

  lemma TreeIsOrderly(c: Codec, below: string -> Option<Directory>, t: Skel, out: Path)
    requires t.SDir? && Tidy(t) && Answers(c, below, t) && Plain(out)
    ensures Orderly(Plan(below, Some(Msg(c, t)), out))
  {
    hide Msg, Answers, Find, Neat, Tidy;
    var plan := Plan(below, Some(Msg(c, t)), out);
    forall r | FindIn(plan, r).Some? && FindIn(plan, r).value.FoundDir? && FindIn(plan, r).value.message.Some?
      ensures Neat(FindIn(plan, r).value.message.value)
    {
      FoundIsMsg(c, below, t, r);
      MsgIsNeat(c, t, r);
    }
  }

  /** So a download of a tree that storage holds changes nothing elsewhere, if it starts without links. */
  lemma RootStaysInPlace(c: Codec, blobs: map<string, Bytes>, t: Skel, root: Digest, out: Path)
    requires RootOf(c, blobs, t, root) && t.SDir? && Plain(out)
    ensures Orderly(RootPlan(c, blobs, root, out))
  {
    hide Msg, Tidy, Orderly, Paths, Sub;
    forall p | p in Paths(t) && p != [] && IsDirectory(t, p) && Dig(c, Sub(t, p).value).Some?
      ensures AnswersAt(c, StoredIn(c, blobs), t, p)
    {
      StoredAnswers(c, blobs, t, p);
    }
    PathsAreInhabited(t, []);
    TopDigest(c, blobs, t, root);
    TreeIsOrderly(c, StoredIn(c, blobs), t, out);
  }

  lemma StoredAnswers(c: Codec, blobs: map<string, Bytes>, t: Skel, p: Path)
    requires Denotes(c, blobs, t) && p in Paths(t) && IsDirectory(t, p) && Dig(c, Sub(t, p).value).Some?
    ensures AnswersAt(c, StoredIn(c, blobs), t, p)
  {
    hide Denotes, Paths, Sub, Msg;
    PathDenotes(c, blobs, t, p);
    if IsDir(t, p) { DirDigest(c, Sub(t, p).value); }
  }

  lemma TopDigest(c: Codec, blobs: map<string, Bytes>, t: Skel, root: Digest)
    requires RootOf(c, blobs, t, root) && t.SDir?
    ensures StoredIn(c, blobs)(root.hash) == Some(Msg(c, t))
  {
    hide Denotes, Paths, Msg, Tidy;
    PathsAreInhabited(t, []);
    assert Sub(t, []).value == t && IsDir(t, []);
    PathDenotes(c, blobs, t, []);
    DirDigest(c, t);
  }

  lemma FlatRootStaysInPlace(c: Codec, blobs: map<string, Bytes>, t: Skel, digest: Digest, out: Path)
    requires FlatRootOf(c, blobs, t, digest) && TreeMessageThere(c, blobs, digest) && Plain(out)
    ensures Orderly(TreePlan(c, blobs, digest, out))
  {
    hide Msg, Tidy, Orderly, Paths, Sub, LookupOf;
    var m := c.decodeTree(blobs[digest.hash]).value;
    var lookup := LookupOf(c, m.children);
    forall p | p in Paths(t) && p != [] && IsDirectory(t, p) && Dig(c, Sub(t, p).value).Some?
      ensures AnswersAt(c, LookedUpIn(lookup), t, p)
    {
      LookupAnswers(c, lookup, t, p);
    }
    TreeIsOrderly(c, LookedUpIn(lookup), t, out);
  }

  lemma LookupAnswers(c: Codec, lookup: map<string, Directory>, t: Skel, p: Path)
    requires Looks(c, lookup, t) && p in Paths(t) && p != [] && IsDirectory(t, p) && Dig(c, Sub(t, p).value).Some?
    ensures AnswersAt(c, LookedUpIn(lookup), t, p)
  {
    hide Paths, Sub, Msg;
    assert LooksAt(c, lookup, t, p);
    if IsDir(t, p) { DirDigest(c, Sub(t, p).value); }
  }

  // ---------------------------------------------------------------- one message without sub-directories

  ghost predicate NamesAny(links: seq<SymlinkNode>, files: seq<FileNode>, name: string) {
    || (exists i :: 0 <= i < |links| && links[i].name == name)
    || (exists i :: 0 <= i < |files| && files[i].name == name)
  }

  ghost function FileEntry(blobs: map<string, Bytes>, target: Target): Entry {
    Rendered(blobs, SFile(Some(target.digest), target.exec))
  }

  /** Every link and every file is in `out` under its own name; nothing else has changed but that
      directories lead there. */
  ghost predicate EachAsNamed(before: map<Path, Entry>, after: map<Path, Entry>, out: Path, blobs: map<string, Bytes>,
      links: seq<SymlinkNode>, files: seq<FileNode>, targets: seq<Target>)
    requires |targets| == |files|
  {
    && (forall i :: 0 <= i < |links| ==> Get(after, out + [links[i].name]) == Some(ELink(links[i].target)))
    && (forall i :: 0 <= i < |files| ==> Get(after, out + [files[i].name]) == Some(FileEntry(blobs, targets[i])))
    && (forall q :: Get(after, q) == (if q <= out then Some(EDir) else Get(before, q)) || NamedIn(out, links, files, q))
  }

  ghost predicate NamedIn(out: Path, links: seq<SymlinkNode>, files: seq<FileNode>, q: Path) {
    q != [] && Parent(q) == out && NamesAny(links, files, Last(q))
  }

  /** No two links share a name, and none is empty. */
  ghost predicate Makable(links: seq<SymlinkNode>) {
    && (forall i, j :: 0 <= i < j < |links| ==> links[i].name != links[j].name)
    && (forall i :: 0 <= i < |links| ==> links[i].target != "")
  }

  /** Files of one name are the same. */
  ghost predicate Consistent(blobs: map<string, Bytes>, files: seq<FileNode>, targets: seq<Target>)
    requires |targets| == |files|
  {
    forall i, j :: 0 <= i < j < |files| && files[i].name == files[j].name ==>
      FileEntry(blobs, targets[i]) == FileEntry(blobs, targets[j])
  }

  /** What placing a message and writing its files makes of the file system. */
  ghost function MessagePlaced(entries: map<Path, Entry>, blobs: map<string, Bytes>, out: Path, dir: Directory,
      targets: seq<Target>): Option<map<Path, Entry>>
  {
    match DirectoryPlaced(entries, out, dir)
    case None => None
    case Some(now) => TargetsMade(now, blobs, targets)
  }

  lemma NothingMadeYet(entries: map<Path, Entry>, blobs: map<string, Bytes>, out: Path)
    requires Rooted(entries) && Fresh(entries, out)
    ensures DirsMade(entries, out).Some?
    ensures var made := DirsMade(entries, out).value;
      Rooted(made) && EachAsNamed(entries, made, out, blobs, [], [], [])
  {
    hide Rooted, DirsMade;
    forall q | q in entries && Leads(q, out) ensures !entries[q].ELink? {}
    DirsMadeStraight(entries, out);
    DirsMadeIsRooted(entries, out);
  }

  lemma OutIsMade(before: map<Path, Entry>, now: map<Path, Entry>, out: Path, blobs: map<string, Bytes>,
      links: seq<SymlinkNode>, files: seq<FileNode>, targets: seq<Target>, name: string)
    requires |targets| == |files| && Fresh(before, out) && EachAsNamed(before, now, out, blobs, links, files, targets)
    ensures Get(now, out) == Some(EDir)
    ensures out + [name] in now <==> NamesAny(links, files, name)
  {
    hide NamesAny, Rendered;
    ChildParts(out, name);
    assert out <= out + [name] && !(out + [name] <= out) && out + [name] == Child(out, name);
    if NamesAny(links, files, name) {
      NamedIsThere(before, now, out, blobs, links, files, targets, name);
    } else {
      assert !NamedIn(out, links, files, out + [name]);
      assert out + [name] !in before;
    }
  }

  lemma NamedIsThere(before: map<Path, Entry>, now: map<Path, Entry>, out: Path, blobs: map<string, Bytes>,
      links: seq<SymlinkNode>, files: seq<FileNode>, targets: seq<Target>, name: string)
    requires |targets| == |files| && EachAsNamed(before, now, out, blobs, links, files, targets)
    requires NamesAny(links, files, name)
    ensures out + [name] in now
  {
    hide Rendered;
    if i :| 0 <= i < |links| && links[i].name == name {
      assert Get(now, out + [links[i].name]) == Some(ELink(links[i].target));
    }
    if i :| 0 <= i < |files| && files[i].name == name {
      assert Get(now, out + [files[i].name]) == Some(FileEntry(blobs, targets[i]));
    }
  }

  /** Where the next link goes: under its name, unless the name is taken. */
  lemma NextLink(before: map<Path, Entry>, now: map<Path, Entry>, out: Path, blobs: map<string, Bytes>,
      links: seq<SymlinkNode>, link: SymlinkNode)
    requires Rooted(now) && Fresh(before, out) && EachAsNamed(before, now, out, blobs, links, [], [])
    requires Proper(link.name)
    ensures LinkMade(now, JoinedTo(out, link.name), link.target) ==
      if link.target == "" || NamesAny(links, [], link.name) then None
      else Some(now[out + [link.name] := ELink(link.target)])
  {
    hide Rooted, Fresh, EachAsNamed, NamesAny, LinkPlace, JoinedTo, Proper;
    OutIsMade(before, now, out, blobs, links, [], [], link.name);
    ChildParts(out, link.name);
    JoinedName(out, link.name);
    FreshIsPlain(before, out);
    PlainChild(out, link.name);
    StraightInDirectory(now, out + [link.name]);
    LinkPlaceStraight(now, out + [link.name]);
  }

  lemma FreshIsPlain(entries: map<Path, Entry>, out: Path)
    requires Fresh(entries, out)
    ensures Plain(out)
  {
  }

  lemma OneMoreLink(links: seq<SymlinkNode>, link: SymlinkNode, files: seq<FileNode>, name: string)
    ensures NamesAny(links + [link], files, name) <==> name == link.name || NamesAny(links, files, name)
  {
    var more := links + [link];
    assert more[|links|] == link && forall i :: 0 <= i < |links| ==> more[i] == links[i];
    if i :| 0 <= i < |links| && links[i].name == name { assert more[i].name == name; }
  }

  lemma OneMoreFile(links: seq<SymlinkNode>, files: seq<FileNode>, file: FileNode, name: string)
    ensures NamesAny(links, files + [file], name) <==> name == file.name || NamesAny(links, files, name)
  {
    var more := files + [file];
    assert more[|files|] == file && forall i :: 0 <= i < |files| ==> more[i] == files[i];
    if i :| 0 <= i < |files| && files[i].name == name { assert more[i].name == name; }
  }

  lemma LinkNamed(before: map<Path, Entry>, now: map<Path, Entry>, out: Path, blobs: map<string, Bytes>,
      links: seq<SymlinkNode>, link: SymlinkNode)
    requires EachAsNamed(before, now, out, blobs, links, [], []) && !NamesAny(links, [], link.name)
    ensures EachAsNamed(before, now[out + [link.name] := ELink(link.target)], out, blobs, links + [link], [], [])
  {
    var after, more := now[out + [link.name] := ELink(link.target)], links + [link];
    assert more[|links|] == link && forall i :: 0 <= i < |links| ==> more[i] == links[i];
    forall i | 0 <= i < |more| ensures Get(after, out + [more[i].name]) == Some(ELink(more[i].target)) {
      ChildParts(out, more[i].name);
      ChildParts(out, link.name);
      if i < |links| { assert links[i].name != link.name; }
    }
    forall q | !NamedIn(out, more, [], q)
      ensures Get(after, q) == if q <= out then Some(EDir) else Get(before, q)
    {
      ChildParts(out, link.name);
      if q != [] { OneMoreLink(links, link, [], Last(q)); }
      OneMoreLink(links, link, [], link.name);
      assert q != Child(out, link.name) && Get(after, q) == Get(now, q);
    }
  }

  /** Links with proper names can be made in turn exactly if they share no name and lead somewhere, and then
      each is under its name. */
  lemma {:induction false} LinksInTurn(before: map<Path, Entry>, made: map<Path, Entry>, out: Path,
      blobs: map<string, Bytes>, links: seq<SymlinkNode>)
    requires Rooted(made) && Fresh(before, out) && EachAsNamed(before, made, out, blobs, [], [], [])
    requires forall i :: 0 <= i < |links| ==> Proper(links[i].name)
    ensures LinksMade(made, out, links).Some? <==> Makable(links)
    ensures LinksMade(made, out, links).Some? ==>
      EachAsNamed(before, LinksMade(made, out, links).value, out, blobs, links, [], [])
  {
    hide Rooted, Fresh, EachAsNamed, LinkMade, Proper, NamesAny, Makable, JoinedTo;
    NothingToMake();
    if links != [] {
      var n := |links| - 1;
      var front, last := links[..n], links[n];
      LinksInTurn(before, made, out, blobs, front);
      MakableMore(links);
      if LinksMade(made, out, front).Some? {
        var now := LinksMade(made, out, front).value;
        LinksMadeIsRooted(made, out, front);
        NextLink(before, now, out, blobs, front, last);
        if LinkMade(now, JoinedTo(out, last.name), last.target).Some? {
          LinkNamed(before, now, out, blobs, front, last);
          assert front + [last] == links;
        }
      }
    }
  }

  lemma NothingToMake()
    ensures Makable([])
  {
  }

  lemma MakableMore(links: seq<SymlinkNode>)
    requires links != []
    ensures var n := |links| - 1;
      Makable(links) <==> Makable(links[..n]) && links[n].target != "" && !NamesAny(links[..n], [], links[n].name)
  {
    var n := |links| - 1;
    var front := links[..n];
    assert forall i :: 0 <= i < n ==> front[i] == links[i];
    if Makable(links) && NamesAny(front, [], links[n].name) {
      var i :| 0 <= i < n && front[i].name == links[n].name;
    }
    if Makable(front) && links[n].target != "" && !NamesAny(front, [], links[n].name) {
      forall i, j | 0 <= i < j < |links| ensures links[i].name != links[j].name {
        assert front[i].name == links[i].name;
      }
    }
  }

  /** Where the next file goes: under its name, unless a link has it. */
  lemma NextFile(before: map<Path, Entry>, now: map<Path, Entry>, out: Path, blobs: map<string, Bytes>,
      links: seq<SymlinkNode>, files: seq<FileNode>, targets: seq<Target>, name: string)
    requires Rooted(now) && Fresh(before, out)
    requires |targets| == |files| && EachAsNamed(before, now, out, blobs, links, files, targets)
    requires Proper(name) && !NamesAny(links, [], name)
    ensures FilePlace(now, JoinedTo(out, name)) == Some(out + [name])
  {
    hide Rooted, Fresh, FilePlace, JoinedTo, Proper, FileEntry;
    OutIsMade(before, now, out, blobs, links, files, targets, name);
    ChildParts(out, name);
    JoinedName(out, name);
    FreshIsPlain(before, out);
    PlainChild(out, name);
    StraightInDirectory(now, out + [name]);
    if out + [name] in now {
      var i :| 0 <= i < |files| && files[i].name == name;
      assert Get(now, out + [files[i].name]) == Some(FileEntry(blobs, targets[i]));
      IsAFile(blobs, targets[i]);
    }
    FilePlaceStraight(now, out + [name]);
  }

  lemma IsAFile(blobs: map<string, Bytes>, target: Target)
    ensures FileEntry(blobs, target).EFile?
  {
  }

  lemma FileNamed(before: map<Path, Entry>, now: map<Path, Entry>, out: Path, blobs: map<string, Bytes>,
      links: seq<SymlinkNode>, files: seq<FileNode>, targets: seq<Target>, file: FileNode, target: Target)
    requires |targets| == |files| && EachAsNamed(before, now, out, blobs, links, files, targets)
    requires !NamesAny(links, [], file.name) && Consistent(blobs, files + [file], targets + [target])
    ensures EachAsNamed(before, now[out + [file.name] := FileEntry(blobs, target)], out, blobs, links, files + [file],
                        targets + [target])
  {
    hide FileEntry;
    var after, more, all := now[out + [file.name] := FileEntry(blobs, target)], files + [file], targets + [target];
    assert more[|files|] == file && all[|files|] == target;
    assert forall i :: 0 <= i < |files| ==> more[i] == files[i] && all[i] == targets[i];
    ChildParts(out, file.name);
    forall i | 0 <= i < |links| ensures Get(after, out + [links[i].name]) == Some(ELink(links[i].target)) {
      ChildParts(out, links[i].name);
      assert links[i].name != file.name;
    }
    forall i | 0 <= i < |more| ensures Get(after, out + [more[i].name]) == Some(FileEntry(blobs, all[i])) {
      ChildParts(out, more[i].name);
      if i < |files| && more[i].name == file.name { assert more[|files|].name == file.name; }
    }
    forall q | !NamedIn(out, links, more, q)
      ensures Get(after, q) == if q <= out then Some(EDir) else Get(before, q)
    {
      if q != [] { OneMoreFile(links, files, file, Last(q)); }
      OneMoreFile(links, files, file, file.name);
      assert q != Child(out, file.name) && Get(after, q) == Get(now, q);
    }
  }

  lemma NoLinkNamed(links: seq<SymlinkNode>, files: seq<FileNode>, i: nat)
    requires forall j, k :: 0 <= j < |links| && 0 <= k < |files| ==> links[j].name != files[k].name
    requires i < |files|
    ensures !NamesAny(links, [], files[i].name)
  {
  }

  /** Files with proper names that no link has can be written in turn if storage has their contents, and
      then each is under its name. */
  lemma {:induction false} FilesInTurn(before: map<Path, Entry>, now: map<Path, Entry>, out: Path,
      blobs: map<string, Bytes>, dir: Directory, targets: seq<Target>, i: nat)
    requires Rooted(now) && Fresh(before, out) && EachAsNamed(before, now, out, blobs, dir.symlinks, [], [])
    requires TargetsOf(dir, out, targets) && TargetsThere(blobs, targets) && i <= |targets|
    requires Neat(dir) && Consistent(blobs, dir.files, targets)
    ensures TargetsMade(now, blobs, targets[..i]).Some?
    ensures EachAsNamed(before, TargetsMade(now, blobs, targets[..i]).value, out, blobs, dir.symlinks, dir.files[..i],
                        targets[..i])
  {
    hide Rooted, Fresh, EachAsNamed, TargetsMade, FilePlace, Proper, JoinedTo, NamesAny;
    if i == 0 {
      NoTargetsMade(now, blobs, targets);
      assert targets[..0] == [] && dir.files[..0] == [];
    } else {
      var n := i - 1;
      FilesInTurn(before, now, out, blobs, dir, targets, n);
      var soFar, file, target := TargetsMade(now, blobs, targets[..n]).value, dir.files[n], targets[n];
      TargetsMadeIsRooted(now, blobs, targets[..n]);
      TargetsMadeNext(now, blobs, targets, n);
      NoLinkNamed(dir.symlinks, dir.files, n);
      NextFile(before, soFar, out, blobs, dir.symlinks, dir.files[..n], targets[..n], file.name);
      assert dir.files[..n] + [file] == dir.files[..i] && targets[..n] + [target] == targets[..i];
      FileNamed(before, soFar, out, blobs, dir.symlinks, dir.files[..n], targets[..n], file, target);
    }
  }

  /** A message without sub-directories is placed with each entry under its own name, and nothing
      else, exactly if it is neat, its links share no name and lead somewhere, storage has its files' contents,
      and no two of its files differ under one name. */
  lemma EntriesStayExactly(entries: map<Path, Entry>, blobs: map<string, Bytes>, out: Path, dir: Directory,
      targets: seq<Target>)
    requires Rooted(entries) && Fresh(entries, out) && dir.directories == [] && TargetsOf(dir, out, targets)
    ensures var placed := MessagePlaced(entries, blobs, out, dir, targets);
      placed.Some? && EachAsNamed(entries, placed.value, out, blobs, dir.symlinks, dir.files, targets) <==>
        Neat(dir) && Makable(dir.symlinks) && TargetsThere(blobs, targets) && Consistent(blobs, dir.files, targets)
    ensures var placed := MessagePlaced(entries, blobs, out, dir, targets);
      placed.Some? && EachAsNamed(entries, placed.value, out, blobs, dir.symlinks, dir.files, targets) ==>
        Confined(entries, placed.value, out)
  {
    hide Rooted, Fresh, EachAsNamed, Confined, TargetsMade, LinksMade, DirsMade, Proper, Neat, Makable, TargetsThere,
      Consistent, TargetsOf;
    NothingMadeYet(entries, blobs, out);
    var made := DirsMade(entries, out).value;
    AllDigested(dir, out, targets);
    var placed := MessagePlaced(entries, blobs, out, dir, targets);
    if placed.Some? && EachAsNamed(entries, placed.value, out, blobs, dir.symlinks, dir.files, targets) {
      var linked := LinksMade(made, out, dir.symlinks).value;
      LinksMadeIsRooted(made, out, dir.symlinks);
      TargetsMadeIsRooted(linked, blobs, targets);
      TargetsMadeThere(linked, blobs, targets);
      AsNamedIsNeat(entries, placed.value, out, blobs, dir, targets);
      AsNamedIsConfined(entries, placed.value, out, blobs, dir.symlinks, dir.files, targets);
      NeatLinks(dir);
      LinksInTurn(entries, made, out, blobs, dir.symlinks);
    }
    if Neat(dir) && Makable(dir.symlinks) && TargetsThere(blobs, targets) && Consistent(blobs, dir.files, targets) {
      NeatLinks(dir);
      LinksInTurn(entries, made, out, blobs, dir.symlinks);
      var linked := LinksMade(made, out, dir.symlinks).value;
      LinksMadeIsRooted(made, out, dir.symlinks);
      FilesInTurn(entries, linked, out, blobs, dir, targets, |targets|);
      assert targets[..|targets|] == targets && dir.files[..|targets|] == dir.files;
    }
  }

  lemma AllDigested(dir: Directory, out: Path, targets: seq<Target>)
    requires dir.directories == [] && TargetsOf(dir, out, targets)
    ensures DirsNamed(dir) && FilesNamed(dir) && |targets| == |dir.files|
  {
  }

  lemma NeatLinks(dir: Directory)
    requires Neat(dir)
    ensures forall i :: 0 <= i < |dir.symlinks| ==> Proper(dir.symlinks[i].name)
  {
  }

  lemma AsNamedIsConfined(before: map<Path, Entry>, after: map<Path, Entry>, out: Path, blobs: map<string, Bytes>,
      links: seq<SymlinkNode>, files: seq<FileNode>, targets: seq<Target>)
    requires |targets| == |files| && EachAsNamed(before, after, out, blobs, links, files, targets)
    ensures Confined(before, after, out)
  {
    forall q | !(out <= q) ensures Get(after, q) == Get(before, q) || (q <= out && Get(after, q) == Some(EDir)) {
      assert !NamedIn(out, links, files, q);
    }
  }

  lemma AsNamedIsNeat(before: map<Path, Entry>, after: map<Path, Entry>, out: Path, blobs: map<string, Bytes>,
      dir: Directory, targets: seq<Target>)
    requires Rooted(after) && dir.directories == [] && |targets| == |dir.files|
    requires EachAsNamed(before, after, out, blobs, dir.symlinks, dir.files, targets)
    ensures Neat(dir) && Consistent(blobs, dir.files, targets)
  {
    hide Rooted, Proper, FileEntry;
    forall i | 0 <= i < |dir.files| ensures Proper(dir.files[i].name) {
      assert Get(after, out + [dir.files[i].name]) == Some(FileEntry(blobs, targets[i]));
      ChildParts(out, dir.files[i].name);
      NameIsProper(after, out + [dir.files[i].name]);
    }
    forall i | 0 <= i < |dir.symlinks| ensures Proper(dir.symlinks[i].name) {
      ChildParts(out, dir.symlinks[i].name);
      NameIsProper(after, out + [dir.symlinks[i].name]);
    }
    forall i, j | 0 <= i < |dir.symlinks| && 0 <= j < |dir.files| ensures dir.symlinks[i].name != dir.files[j].name {
      IsAFile(blobs, targets[j]);
      assert Get(after, out + [dir.files[j].name]) == Some(FileEntry(blobs, targets[j]));
    }
  }

  // ---------------------------------------------------------------- others may not

  lemma OutIsThere(entries: map<Path, Entry>, out: Path)
    requires Rooted(entries) && Fresh(entries, out) && out in entries
    ensures Get(entries, out) == Some(EDir) && Plain(out) && forall n :: Child(out, n) !in entries
  {
    assert entries[out] == EDir;
    forall n ensures Child(out, n) !in entries {
      assert out <= Child(out, n) && Child(out, n) != out;
    }
  }

  /** In an empty directory a new entry is made under its name exactly when the name is proper. */
  lemma NameStaysExactly(entries: map<Path, Entry>, out: Path, name: string)
    requires Rooted(entries) && Fresh(entries, out) && out in entries
    ensures FilePlace(entries, JoinedTo(out, name)) == Some(out + [name]) <==> Proper(name)
    ensures LinkPlace(entries, JoinedTo(out, name)) == Some(out + [name]) <==> Proper(name)
  {
    hide Rooted, Fresh, Follow, Proper, JoinedTo, Straight, Spot;
    OutIsThere(entries, out);
    ChildParts(out, name);
    var route := JoinedTo(out, name);
    if Proper(name) {
      JoinedName(out, name);
      PlainChild(out, name);
      StraightInDirectory(entries, route);
      FilePlaceStraight(entries, route);
      LinkPlaceStraight(entries, route);
    } else {
      RootIsThere(entries);
      FollowReaches(entries, [], route, MAX_LINKS);
      SpotReaches(entries, route);
      assert !Reachable(entries, out + [name]);
    }
  }

  lemma PlainChild(out: Path, name: string)
    requires Plain(out) && Proper(name)
    ensures Plain(out + [name])
  {
    hide Proper;
    forall s | s in out + [name] ensures Proper(s) {}
  }

  lemma RouteUp(name: string)
    requires Proper(name)
    ensures RouteOf("../" + name) == ["..", name] && !Absolute("../" + name)
    ensures RouteOf("/" + name) == [name] && Absolute("/" + name)
  {
    SplitPlain(name, '/');
    SplitAtSeparator("..", name, '/');
    SplitAtSeparator("", name, '/');
    assert "../" + name == ".." + ['/'] + name && "/" + name == "" + ['/'] + name;
    KeptPartsAll(["..", name]);
    KeptPartsAll([name]);
    assert ["", name][1..] == [name];
    assert [".."] + [name] == ["..", name] && [""] + [name] == ["", name];
  }

  /** A name that starts with `..` leads out of the directory, and an absolute one anywhere. */
  lemma ImproperNameLeaves(entries: map<Path, Entry>, out: Path, name: string, content: Bytes)
    requires Rooted(entries) && Fresh(entries, out) && out in entries && out != []
    requires Proper(name) && Child(Parent(out), name) !in entries && [name] !in entries && out[0] != name
    ensures FilePlace(entries, JoinedTo(out, "../" + name)) == Some(Child(Parent(out), name))
    ensures !Confined(entries, entries[Child(Parent(out), name) := EFile(content, 0x1A4)], out)
    ensures FilePlace(entries, JoinedTo(out, "/" + name)) == Some([name])
    ensures !Confined(entries, entries[[name] := EFile(content, 0x1A4)], out)
  {
    hide Rooted, Fresh, Follow, Proper, RouteOf;
    OutIsThere(entries, out);
    RouteUp(name);
    FollowFrom(entries, out, ["..", name]);
    RootIsThere(entries);
    ParentIsThere(entries, out);
    FollowUp(entries, out, name);
    assert Child([], name) == [name];
    FollowNew(entries, [], name);
    Beside(out, name);
    NotInside(entries, out, Child(Parent(out), name), content);
    NotInside(entries, out, [name], content);
  }

  lemma Beside(out: Path, name: string)
    requires out != [] && Child(Parent(out), name) != out
    ensures !(out <= Child(Parent(out), name))
  {
    PrefixIsSlice(out, Child(Parent(out), name));
  }

  lemma FollowNew(entries: map<Path, Entry>, here: Path, name: string)
    requires Get(entries, here) == Some(EDir) && Proper(name) && Child(here, name) !in entries
    ensures Follow(entries, here, [name], MAX_LINKS) == Reached(Child(here, name))
  {
    assert [name][1..] == [];
  }

  lemma FollowUp(entries: map<Path, Entry>, out: Path, name: string)
    requires Get(entries, out) == Some(EDir) && out != [] && Get(entries, Parent(out)) == Some(EDir)
    requires Proper(name) && Child(Parent(out), name) !in entries
    ensures Follow(entries, out, ["..", name], MAX_LINKS) == Reached(Child(Parent(out), name))
  {
    FollowNew(entries, Parent(out), name);
    assert ["..", name][1..] == [name];
  }

  lemma NotInside(entries: map<Path, Entry>, out: Path, p: Path, content: Bytes)
    requires p !in entries && !(out <= p)
    ensures !Confined(entries, entries[p := EFile(content, 0x1A4)], out)
  {
    var after := entries[p := EFile(content, 0x1A4)];
    assert Get(after, p) != Get(entries, p) && Get(after, p) != Some(EDir);
  }

  /** A file of the same name as a link is written where the link leads. */
  lemma SharedNameLeaves(entries: map<Path, Entry>, out: Path, name: string, other: string, content: Bytes)
    requires Rooted(entries) && Fresh(entries, out) && out in entries && out != []
    requires Proper(name) && Proper(other) && [other] !in entries && out[0] != other
    ensures LinkPlace(entries, JoinedTo(out, name)) == Some(out + [name])
    ensures var linked := entries[out + [name] := ELink("/" + other)];
      && FilePlace(linked, JoinedTo(out, name)) == Some([other])
      && !Confined(linked, linked[[other] := EFile(content, 0x1A4)], out)
  {
    hide Rooted, Fresh, Follow, Proper, RouteOf, LinkPlace;
    OutIsThere(entries, out);
    ChildParts(out, name);
    JoinedName(out, name);
    NameStaysExactly(entries, out, name);
    PlainChild(out, name);
    RouteUp(other);
    var linked := entries[out + [name] := ELink("/" + other)];
    PutIsRooted(entries, out + [name], ELink("/" + other));
    RootIsThere(linked);
    LinkIsFollowed(linked, out + [name], "/" + other);
    FollowOne(linked, other);
    NotInside(linked, out, [other], content);
  }

  lemma FollowOne(entries: map<Path, Entry>, name: string)
    requires Get(entries, []) == Some(EDir) && Proper(name) && [name] !in entries
    ensures Follow(entries, [], [name], MAX_LINKS - 1) == Reached([name])
  {
    assert Child([], name) == [name] && [name][1..] == [];
  }
}
