/** File trees: as a directory listing reports them, and as the name-indexed trees they denote. */
module Disk {
  import opened Names
  import opened Messages
  import opened Merkle
  import opened PathText

  /** A tree as read from disk: every directory lists its entries in an order of the file
      system's choosing. */
  datatype Listing =
    | OnFile(content: Bytes, mode: nat)
    | OnLink(target: string)
    | OnDir(entries: seq<Named>)

  datatype Named = Named(name: string, item: Listing)

  /** A tree as users know it: a directory is a finite map from names. */
  datatype Node =
    | File(content: Bytes, mode: nat)
    | Link(target: string)
    | Dir(kids: map<string, Node>)

  /** What a path leads to, ignoring what lies below it. */
  datatype Entry = EFile(content: Bytes, mode: nat) | ELink(target: string) | EDir

  ghost predicate DistinctNames(es: seq<Named>) {
    forall i, j :: 0 <= i < j < |es| ==> es[i].name != es[j].name
  }

  ghost predicate HasName(es: seq<Named>, name: string) { exists i :: 0 <= i < |es| && es[i].name == name }

  /** No directory has two entries of the same name. */
  ghost predicate WellFormed(l: Listing) {
    l.OnDir? ==> DistinctNames(l.entries) && forall e :: e in l.entries ==> WellFormed(e.item)
  }

  /** Names are proper, and links lead somewhere. */
  ghost predicate Spelled(l: Listing) {
    && (l.OnLink? ==> l.target != "")
    && (l.OnDir? ==> forall e :: e in l.entries ==> Proper(e.name) && Spelled(e.item))
  }

  /** What a file system may list. */
  ghost predicate Genuine(l: Listing) { WellFormed(l) && Spelled(l) }

  /** Forget the order of every listing. */
  function View(l: Listing): Node
    decreases l, 0
  {
    match l
    case OnFile(content, mode) => File(content, mode)
    case OnLink(target) => Link(target)
    case OnDir(es) => Dir(ViewEntries(es))
  }

  function ViewEntries(es: seq<Named>): map<string, Node>
    decreases es, 1
  {
    if es == [] then map[]
    else
      var e := es[|es| - 1];
      ViewEntries(es[..|es| - 1])[e.name := View(e.item)]
  }

  lemma {:induction false} ViewEntriesKeys(es: seq<Named>, k: string)
    ensures k in ViewEntries(es) <==> exists i :: 0 <= i < |es| && es[i].name == k
  {
    if es != [] {
      var front := es[..|es| - 1];
      ViewEntriesKeys(front, k);
      if k in ViewEntries(front) {
        var i :| 0 <= i < |front| && front[i].name == k;
        assert es[i].name == k;
      }
      if i :| 0 <= i < |es| && es[i].name == k {
        if i < |front| { assert front[i].name == k; }
      }
    }
  }

  lemma {:induction false} ViewEntriesAt(es: seq<Named>, i: nat)
    requires DistinctNames(es) && i < |es|
    ensures es[i].name in ViewEntries(es) && ViewEntries(es)[es[i].name] == View(es[i].item)
  {
    if i < |es| - 1 {
      ViewEntriesAt(es[..|es| - 1], i);
    }
  }

  // ---------------------------------------------------------------- modes and readings

  predicate OwnerExec(mode: nat) { mode / 0x40 % 2 == 1 }

  predicate AnyExec(mode: nat) { mode / 0x40 % 2 == 1 || mode / 8 % 2 == 1 || mode % 2 == 1 }

  /** The last three octal digits of a mode are what owner, group and others may do; the lowest bit of
      each is to execute. */
  lemma ModeDigits(high: nat, owner: nat, group: nat, others: nat)
    requires owner < 8 && group < 8 && others < 8
    ensures var mode := ((high * 8 + owner) * 8 + group) * 8 + others;
      && (OwnerExec(mode) <==> owner in {1, 3, 5, 7})
      && (AnyExec(mode) <==> owner in {1, 3, 5, 7} || group in {1, 3, 5, 7} || others in {1, 3, 5, 7})
  {
    var upper := high * 8 + owner;
    var middle := upper * 8 + group;
    var mode := middle * 8 + others;
    LastDigit(high, owner);
    LastDigit(upper, group);
    LastDigit(middle, others);
    assert mode / 0x40 == mode / 8 / 8;
  }

  lemma LastDigit(rest: nat, digit: nat)
    requires digit < 8
    ensures (rest * 8 + digit) / 8 == rest
    ensures (rest * 8 + digit) % 2 == 1 <==> digit in {1, 3, 5, 7}
  {
    var low := digit in {1, 3, 5, 7};
    var half := if digit < 2 then 0 else if digit < 4 then 1 else if digit < 6 then 2 else 3;
    assert rest * 8 + digit == 2 * (rest * 4 + half) + if low then 1 else 0;
    Parity(rest * 4 + half, low);
  }

  lemma Parity(k: nat, odd: bool)
    ensures (2 * k + if odd then 1 else 0) % 2 == if odd then 1 else 0
  {
  }

  function Verbatim(target: string): string { target }

  /** How a tool reads a file's mode and a link's target. */
  datatype Reading = Reading(exec: nat -> bool, link: string -> string)

  /** The reading of re-memoize: the owner's executable bit, link targets untouched. */
  function Memoize(): Reading { Reading(OwnerExec, Verbatim) }

  /** The skeleton a tool digests: contents replaced by their digests. */
  ghost function Digested(c: Codec, r: Reading, n: Node): Skel {
    match n
    case File(content, mode) => SFile(Some(c.DigestOf(content)), r.exec(mode))
    case Link(target) => SLink(r.link(target))
    case Dir(kids) => SDir(MapOf(kids.Keys, k requires k in kids => Digested(c, r, kids[k])))
  }

  lemma {:induction false} DigestedIsMountFree(c: Codec, r: Reading, n: Node)
    ensures MountFree(Digested(c, r, n))
  {
    if n.Dir? {
      forall k | k in n.kids ensures MountFree(Digested(c, r, n.kids[k])) {
        DigestedIsMountFree(c, r, n.kids[k]);
      }
    }
  }

  ghost function Contents(n: Node): set<Bytes> {
    match n
    case File(content, _) => {content}
    case Link(_) => {}
    case Dir(kids) => set k, b | k in kids && b in Contents(kids[k]) :: b
  }

  // ---------------------------------------------------------------- paths into a tree

  function NodeAt(n: Node, p: Path): Option<Node>
    decreases p
  {
    if p == [] then Some(n)
    else if n.Dir? && p[0] in n.kids then NodeAt(n.kids[p[0]], p[1..])
    else None
  }

  function EntryOf(n: Node): Entry {
    match n
    case File(content, mode) => EFile(content, mode)
    case Link(target) => ELink(target)
    case Dir(_) => EDir
  }

  function EntryAt(n: Node, p: Path): Option<Entry> {
    match NodeAt(n, p)
    case None => None
    case Some(m) => Some(EntryOf(m))
  }

  lemma {:induction false} NodeAtAppend(n: Node, p: Path, q: Path)
    requires NodeAt(n, p).Some?
    ensures NodeAt(n, p + q) == NodeAt(NodeAt(n, p).value, q)
  {
    if p == [] {
      assert p + q == q;
    } else {
      assert (p + q)[0] == p[0] && (p + q)[1..] == p[1..] + q;
      NodeAtAppend(n.kids[p[0]], p[1..], q);
    }
  }

  lemma {:induction false} NodeAtStep(n: Node, p: Path, k: string)
    ensures NodeAt(n, p + [k]) ==
      match NodeAt(n, p) {
        case None => None
        case Some(d) => if d.Dir? && k in d.kids then Some(d.kids[k]) else None
      }
  {
    if p == [] {
      assert (p + [k])[1..] == [];
    } else {
      assert (p + [k])[0] == p[0] && (p + [k])[1..] == p[1..] + [k];
      if n.Dir? && p[0] in n.kids {
        NodeAtStep(n.kids[p[0]], p[1..], k);
      }
    }
  }

  /** Whatever has something below it is a directory. */
  lemma AboveIsDir(n: Node, p: Path, q: Path)
    requires EntryAt(n, p).Some? && q <= p && q != p
    ensures EntryAt(n, q) == Some(EDir)
    decreases |p|
  {
    var k := p[|p| - 1];
    assert p == p[..|p| - 1] + [k];
    NodeAtStep(n, p[..|p| - 1], k);
    PrefixIsSlice(q, p);
    if q != p[..|p| - 1] {
      PrefixIsSlice(q, p[..|p| - 1]);
      AboveIsDir(n, p[..|p| - 1], q);
    }
  }

  lemma {:induction false} DigestedAt(c: Codec, r: Reading, n: Node, p: Path)
    ensures Sub(Digested(c, r, n), p) ==
      match NodeAt(n, p) { case None => None case Some(m) => Some(Digested(c, r, m)) }
  {
    if p != [] && n.Dir? && p[0] in n.kids {
      DigestedAt(c, r, n.kids[p[0]], p[1..]);
    }
  }

  lemma {:induction false} ContentsAt(n: Node, p: Path)
    requires NodeAt(n, p).Some? && NodeAt(n, p).value.File?
    ensures NodeAt(n, p).value.content in Contents(n)
  {
    if p != [] {
      ContentsAt(n.kids[p[0]], p[1..]);
    }
  }

  /** What comes of an entry that is uploaded and downloaded again: content and target are kept, and a mode
      becomes one of two, by whether the owner could execute the file. */
  ghost predicate Remade(x: Entry, y: Entry) {
    match (x, y)
    case (EFile(content, mode), EFile(made, bits)) =>
      made == content && bits == if mode / 0x40 % 2 == 1 then 0x1ED else 0x1A4
    case (ELink(target), ELink(made)) => made == target
    case (EDir, EDir) => true
    case _ => false
  }

  lemma RemadeIsSame(x: Entry, y: Entry)
    requires Remade(x, y)
    ensures SameEntry(Memoize(), x, y)
  {
  }

  /** What re-memoize sees of the entry at a path: a file by the digest of its content and by whether its
      owner may execute it, a link by its target. */
  ghost predicate SeesAt(c: Codec, t: Skel, n: Node, p: Path) {
    match (EntryAt(n, p), Sub(t, p))
    case (None, None) => true
    case (Some(EFile(content, mode)), Some(SFile(digest, exec))) =>
      digest == Some(Digest(c.hash(content), |content|)) && (exec <==> mode / 0x40 % 2 == 1)
    case (Some(ELink(target)), Some(SLink(seen))) => seen == target
    case (Some(EDir), Some(SDir(_))) => true
    case _ => false
  }

  ghost predicate Sees(c: Codec, t: Skel, n: Node) { forall p :: SeesAt(c, t, n, p) }

  lemma DigestedSeesAt(c: Codec, n: Node, p: Path)
    ensures SeesAt(c, Digested(c, Memoize(), n), n, p)
  {
    hide Digested, NodeAt, Sub;
    DigestedAt(c, Memoize(), n, p);
    if NodeAt(n, p).Some? { DigestedEntry(c, Memoize(), NodeAt(n, p).value); }
  }

  /** What re-memoize sees of a tree is the skeleton it digests, and no other. */
  lemma SeesExactly(c: Codec, t: Skel, n: Node)
    ensures Sees(c, t, n) <==> t == Digested(c, Memoize(), n)
  {
    hide Digested, Sub, EntryAt;
    var seen := Digested(c, Memoize(), n);
    forall p ensures SeesAt(c, seen, n, p) { DigestedSeesAt(c, n, p); }
    if Sees(c, t, n) {
      forall p ensures SameAt(t, seen, p) {
        assert SeesAt(c, t, n, p) && SeesAt(c, seen, n, p);
      }
      Extensional(t, seen);
    }
  }

  // ---------------------------------------------------------------- equality of trees

  /** Two entries that a tool cannot tell apart. */
  predicate SameEntry(r: Reading, a: Entry, b: Entry) {
    match (a, b)
    case (EFile(x, m), EFile(y, n)) => x == y && r.exec(m) == r.exec(n)
    case (ELink(s), ELink(t)) => r.link(s) == r.link(t)
    case (EDir, EDir) => true
    case _ => false
  }

  ghost predicate AlikeAt(r: Reading, a: Node, b: Node, p: Path) {
    match (EntryAt(a, p), EntryAt(b, p))
    case (None, None) => true
    case (Some(x), Some(y)) => SameEntry(r, x, y)
    case _ => false
  }

  /** The same paths lead to entries a tool cannot tell apart, all the way down. */
  ghost predicate Alike(r: Reading, a: Node, b: Node) {
    forall p :: AlikeAt(r, a, b, p)
  }

  lemma DigestedEntry(c: Codec, r: Reading, n: Node)
    ensures n.File? ==> Digested(c, r, n) == SFile(Some(c.DigestOf(n.content)), r.exec(n.mode))
    ensures n.Link? ==> Digested(c, r, n) == SLink(r.link(n.target))
    ensures n.Dir? ==> Digested(c, r, n).SDir?
  {
  }

  lemma AlikeAtIsSameAt(c: Codec, r: Reading, a: Node, b: Node, p: Path)
    requires AlikeAt(r, a, b, p)
    ensures SameAt(Digested(c, r, a), Digested(c, r, b), p)
  {
    hide Digested, NodeAt, Sub;
    DigestedAt(c, r, a, p);
    DigestedAt(c, r, b, p);
    if NodeAt(a, p).Some? && NodeAt(b, p).Some? {
      DigestedEntry(c, r, NodeAt(a, p).value);
      DigestedEntry(c, r, NodeAt(b, p).value);
    }
  }

  lemma SameAtIsAlikeAt(c: Codec, r: Reading, a: Node, b: Node, p: Path)
    requires c.NoCollision(Contents(a) + Contents(b))
    requires Digested(c, r, a) == Digested(c, r, b)
    ensures AlikeAt(r, a, b, p)
  {
    hide Digested, NodeAt, Sub, Contents;
    DigestedAt(c, r, a, p);
    DigestedAt(c, r, b, p);
    if NodeAt(a, p).Some? && NodeAt(b, p).Some? {
      DigestedEntry(c, r, NodeAt(a, p).value);
      DigestedEntry(c, r, NodeAt(b, p).value);
      if NodeAt(a, p).value.File? && NodeAt(b, p).value.File? {
        ContentsAt(a, p);
        ContentsAt(b, p);
      }
    }
  }

  lemma AlikeIsDigestedEqual(c: Codec, r: Reading, a: Node, b: Node)
    requires Alike(r, a, b)
    ensures Digested(c, r, a) == Digested(c, r, b)
  {
    forall p ensures SameAt(Digested(c, r, a), Digested(c, r, b), p) {
      AlikeAtIsSameAt(c, r, a, b, p);
    }
    Extensional(Digested(c, r, a), Digested(c, r, b));
  }

  lemma DigestedEqualIsAlike(c: Codec, r: Reading, a: Node, b: Node)
    requires c.NoCollision(Contents(a) + Contents(b))
    requires Digested(c, r, a) == Digested(c, r, b)
    ensures Alike(r, a, b)
  {
    forall p ensures AlikeAt(r, a, b, p) {
      SameAtIsAlikeAt(c, r, a, b, p);
    }
  }

  /** The root digest a tool computes for a tree. */
  ghost function RootDigest(c: Codec, r: Reading, n: Node): Option<Digest>
    requires n.Dir?
  {
    Dig(c, Digested(c, r, n))
  }

  ghost function TreeBlobs(c: Codec, r: Reading, n: Node): set<Bytes>
    requires n.Dir?
  {
    Contents(n) + DirBlobs(c, Digested(c, r, n))
  }

  /** Without a collision on their blobs, two trees have the same root digest exactly when
      the tool cannot tell them apart at any path. */
  lemma RootDigestCharacterisesTree(c: Codec, r: Reading, a: Node, b: Node)
    requires c.Lawful() && a.Dir? && b.Dir?
    requires c.NoCollision(TreeBlobs(c, r, a) + TreeBlobs(c, r, b))
    ensures RootDigest(c, r, a) == RootDigest(c, r, b) <==> Alike(r, a, b)
  {
    var t, u := Digested(c, r, a), Digested(c, r, b);
    DigestedIsMountFree(c, r, a);
    DigestedIsMountFree(c, r, b);
    assert c.NoCollision(DirBlobs(c, t) + DirBlobs(c, u));
    assert c.NoCollision(Contents(a) + Contents(b));
    DigestCharacterisesTree(c, t, u);
    if t == u { DigestedEqualIsAlike(c, r, a, b); }
    if Alike(r, a, b) { AlikeIsDigestedEqual(c, r, a, b); }
  }
}
