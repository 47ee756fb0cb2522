/** What a canonical message says, told without building it: the reference for every route to one. */
module Canon {
  import opened Names
  import opened Messages
  import opened Merkle

  /** Each of the three lists is in the order of names. */
  ghost predicate InNameOrder(d: Directory) {
    && (forall i, j :: 0 <= i < j < |d.files| ==> Before(d.files[i].name, d.files[j].name))
    && (forall i, j :: 0 <= i < j < |d.directories| ==> Before(d.directories[i].name, d.directories[j].name))
    && (forall i, j :: 0 <= i < j < |d.symlinks| ==> Before(d.symlinks[i].name, d.symlinks[j].name))
  }

  ghost predicate HasNode(d: Directory, name: string) {
    || (exists i :: 0 <= i < |d.files| && d.files[i].name == name)
    || (exists i :: 0 <= i < |d.directories| && d.directories[i].name == name)
    || (exists i :: 0 <= i < |d.symlinks| && d.symlinks[i].name == name)
  }

  /** The message lists the entries of a directory: every entry has a node of its kind and nothing else
      has one, and the node of a sub-directory has the digest of a message that tells of that. */
  ghost predicate Tells(c: Codec, d: Directory, t: Skel)
    requires t.SDir?
    decreases t, 0
  {
    && InNameOrder(d)
    && (forall i :: 0 <= i < |d.files| ==>
         d.files[i].name in t.kids && t.kids[d.files[i].name] == SFile(d.files[i].digest, d.files[i].exec))
    && (forall i :: 0 <= i < |d.symlinks| ==>
         d.symlinks[i].name in t.kids && t.kids[d.symlinks[i].name] == SLink(d.symlinks[i].target))
    && (forall i :: 0 <= i < |d.directories| ==>
         d.directories[i].name in t.kids && Addresses(c, d.directories[i].digest, t.kids[d.directories[i].name]))
    && (forall k :: k in t.kids ==> HasNode(d, k))
  }

  ghost predicate Addresses(c: Codec, digest: Option<Digest>, kid: Skel)
    decreases kid, 1
  {
    match kid
    case SMount(mounted) => digest == mounted
    case SDir(_) =>
      exists m :: Tells(c, m, kid) && digest == Some(Digest(c.hash(c.encodeDirectory(m)), |c.encodeDirectory(m)|))
    case _ => false
  }

  // ---------------------------------------------------------------- the canonical message is the one that tells

  lemma SortedAscends<T>(s: seq<T>, name: T -> string)
    ensures SortedBy(s, name) <==> forall i, j :: 0 <= i < j < |s| ==> Before(name(s[i]), name(s[j]))
  {
    hide Before, Lt;
    forall i, j | 0 <= i < j < |s| ensures Lt(name(s[i]), name(s[j])) <==> Before(name(s[i]), name(s[j])) {
      LtIsBefore(name(s[i]), name(s[j]));
    }
  }

  /** Sorting by name is what puts a message in order. */
  lemma OrderIsSorting(d: Directory)
    ensures InNameOrder(d) <==>
      SortedBy(d.files, FileName) && SortedBy(d.directories, DirectoryName) && SortedBy(d.symlinks, SymlinkName)
  {
    hide Before, SortedBy;
    SortedAscends(d.files, FileName);
    SortedAscends(d.directories, DirectoryName);
    SortedAscends(d.symlinks, SymlinkName);
  }

  lemma MsgLists(c: Codec, t: Skel)
    requires t.SDir?
    ensures Lists(Msg(c, t).files, FileName, FileMap(t))
    ensures Lists(Msg(c, t).directories, DirectoryName, DirMap(c, t))
    ensures Lists(Msg(c, t).symlinks, SymlinkName, LinkMap(t))
    ensures InNameOrder(Msg(c, t))
  {
    hide InNameOrder, Before;
    ValuesInOrderLists(FileName, FileMap(t));
    ValuesInOrderLists(DirectoryName, DirMap(c, t));
    ValuesInOrderLists(SymlinkName, LinkMap(t));
    OrderIsSorting(Msg(c, t));
  }

  lemma {:induction false} MsgTells(c: Codec, t: Skel)
    requires t.SDir?
    ensures Tells(c, Msg(c, t), t)
    decreases t
  {
    hide Msg, InNameOrder, Tells;
    MsgLists(c, t);
    var d := Msg(c, t);
    forall k | k in t.kids && t.kids[k].Directory?() ensures Addresses(c, Dig(c, t.kids[k]), t.kids[k]) {
      if t.kids[k].SDir? {
        MsgTells(c, t.kids[k]);
        DirDigestSpelled(c, t.kids[k]);
      }
    }
    MsgTellsHere(c, t, d);
  }

  lemma DirDigestSpelled(c: Codec, t: Skel)
    requires t.SDir?
    ensures Dig(c, t) == Some(Digest(c.hash(c.encodeDirectory(Msg(c, t))), |c.encodeDirectory(Msg(c, t))|))
  {
  }

  lemma MsgTellsHere(c: Codec, t: Skel, d: Directory)
    requires t.SDir? && InNameOrder(d)
    requires Lists(d.files, FileName, FileMap(t)) && Lists(d.directories, DirectoryName, DirMap(c, t))
    requires Lists(d.symlinks, SymlinkName, LinkMap(t))
    requires forall k :: k in t.kids && t.kids[k].Directory?() ==> Addresses(c, Dig(c, t.kids[k]), t.kids[k])
    ensures Tells(c, d, t)
  {
    hide InNameOrder, Dig, Addresses;
    forall k | k in t.kids ensures HasNode(d, k) {
      if t.kids[k].SFile? {
        assert FileMap(t)[k] in d.files;
      } else if t.kids[k].SLink? {
        assert LinkMap(t)[k] in d.symlinks;
      } else {
        assert DirMap(c, t)[k] in d.directories;
      }
    }
    forall i | 0 <= i < |d.directories|
      ensures d.directories[i].name in t.kids && Addresses(c, d.directories[i].digest, t.kids[d.directories[i].name])
    {
      assert DirectoryName(d.directories[i]) in DirMap(c, t);
    }
    forall i | 0 <= i < |d.files|
      ensures d.files[i].name in t.kids && t.kids[d.files[i].name] == SFile(d.files[i].digest, d.files[i].exec)
    {
      assert FileName(d.files[i]) in FileMap(t);
    }
    forall i | 0 <= i < |d.symlinks|
      ensures d.symlinks[i].name in t.kids && t.kids[d.symlinks[i].name] == SLink(d.symlinks[i].target)
    {
      assert SymlinkName(d.symlinks[i]) in LinkMap(t);
    }
  }

  lemma {:induction false} TellingIsMsg(c: Codec, d: Directory, t: Skel)
    requires t.SDir? && Tells(c, d, t)
    ensures d == Msg(c, t)
    decreases t
  {
    hide Msg, InNameOrder;
    forall i | 0 <= i < |d.directories|
      ensures t.kids[d.directories[i].name].Directory?()
      ensures d.directories[i].digest == Dig(c, t.kids[d.directories[i].name])
    {
      var kid := t.kids[d.directories[i].name];
      assert Addresses(c, d.directories[i].digest, kid);
      if kid.SDir? {
        var m :| Tells(c, m, kid) &&
          d.directories[i].digest == Some(Digest(c.hash(c.encodeDirectory(m)), |c.encodeDirectory(m)|));
        TellingIsMsg(c, m, kid);
        DirDigestSpelled(c, kid);
      }
    }
    TellingFiles(c, d, t);
    TellingDirectories(c, d, t);
    TellingLinks(c, d, t);
    OrderIsSorting(d);
    SortedListing(d.files, FileName, FileMap(t));
    SortedListing(d.directories, DirectoryName, DirMap(c, t));
    SortedListing(d.symlinks, SymlinkName, LinkMap(t));
    MsgOf(c, t);
  }

  lemma MsgOf(c: Codec, t: Skel)
    requires t.SDir?
    ensures Msg(c, t) == Directory(ValuesInOrder(FileMap(t)), ValuesInOrder(DirMap(c, t)), ValuesInOrder(LinkMap(t)))
  {
  }

  lemma BeforeIsOther(a: string, b: string)
    requires Before(a, b)
    ensures a != b
  {
  }

  lemma OrderIsDistinct(d: Directory)
    requires InNameOrder(d)
    ensures forall i, j :: 0 <= i < j < |d.files| ==> d.files[i].name != d.files[j].name
    ensures forall i, j :: 0 <= i < j < |d.directories| ==> d.directories[i].name != d.directories[j].name
    ensures forall i, j :: 0 <= i < j < |d.symlinks| ==> d.symlinks[i].name != d.symlinks[j].name
  {
    hide Before;
    forall i, j | 0 <= i < j < |d.files| ensures d.files[i].name != d.files[j].name {
      BeforeIsOther(d.files[i].name, d.files[j].name);
    }
    forall i, j | 0 <= i < j < |d.directories| ensures d.directories[i].name != d.directories[j].name {
      BeforeIsOther(d.directories[i].name, d.directories[j].name);
    }
    forall i, j | 0 <= i < j < |d.symlinks| ensures d.symlinks[i].name != d.symlinks[j].name {
      BeforeIsOther(d.symlinks[i].name, d.symlinks[j].name);
    }
  }

  lemma TellingFiles(c: Codec, d: Directory, t: Skel)
    requires t.SDir? && Tells(c, d, t)
    ensures Lists(d.files, FileName, FileMap(t))
  {
    hide InNameOrder, Addresses;
    OrderIsDistinct(d);
    forall k | k in FileMap(t) ensures FileMap(t)[k] in d.files {
      HasNodeOfKind(c, d, t, k);
      var i :| 0 <= i < |d.files| && d.files[i].name == k;
      assert d.files[i] == FileMap(t)[k];
    }
  }

  lemma TellingLinks(c: Codec, d: Directory, t: Skel)
    requires t.SDir? && Tells(c, d, t)
    ensures Lists(d.symlinks, SymlinkName, LinkMap(t))
  {
    hide InNameOrder, Addresses;
    OrderIsDistinct(d);
    forall k | k in LinkMap(t) ensures LinkMap(t)[k] in d.symlinks {
      HasNodeOfKind(c, d, t, k);
      var i :| 0 <= i < |d.symlinks| && d.symlinks[i].name == k;
      assert d.symlinks[i] == LinkMap(t)[k];
    }
  }

  lemma TellingDirectories(c: Codec, d: Directory, t: Skel)
    requires t.SDir? && Tells(c, d, t)
    requires forall i :: 0 <= i < |d.directories| ==>
      && t.kids[d.directories[i].name].Directory?()
      && d.directories[i].digest == Dig(c, t.kids[d.directories[i].name])
    ensures Lists(d.directories, DirectoryName, DirMap(c, t))
  {
    hide InNameOrder, Dig, Addresses;
    OrderIsDistinct(d);
    forall k | k in DirMap(c, t) ensures DirMap(c, t)[k] in d.directories {
      HasNodeOfKind(c, d, t, k);
      var i :| 0 <= i < |d.directories| && d.directories[i].name == k;
      assert d.directories[i] == DirMap(c, t)[k];
    }
  }

  lemma HasNodeOfKind(c: Codec, d: Directory, t: Skel, k: string)
    requires t.SDir? && Tells(c, d, t) && k in t.kids
    ensures t.kids[k].SFile? ==> exists i :: 0 <= i < |d.files| && d.files[i].name == k
    ensures t.kids[k].SLink? ==> exists i :: 0 <= i < |d.symlinks| && d.symlinks[i].name == k
    ensures t.kids[k].Directory?() ==> exists i :: 0 <= i < |d.directories| && d.directories[i].name == k
  {
    hide InNameOrder;
    assert HasNode(d, k);
  }

  /** A message tells of a directory exactly when it is the canonical one. */
  lemma TellsExactly(c: Codec, d: Directory, t: Skel)
    requires t.SDir?
    ensures Tells(c, d, t) <==> d == Msg(c, t)
  {
    hide Tells, Msg;
    MsgTells(c, t);
    if Tells(c, d, t) { TellingIsMsg(c, d, t); }
  }
}
