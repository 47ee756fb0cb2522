/** A directory tree under construction, indexed by path: what the two path-driven builders
    of re-dispatch hold, and the digest of what they hold. */
module FlatTree {
  import opened Names
  import opened Messages
  import opened Merkle
  import opened Canon

  function Child(p: Path, n: string): Path { p + [n] }

  function Parent(p: Path): Path
    requires p != []
  {
    p[..|p| - 1]
  }

  function Last(p: Path): string
    requires p != []
  {
    p[|p| - 1]
  }

  lemma ChildOfParent(p: Path)
    requires p != []
    ensures Child(Parent(p), Last(p)) == p
  {
  }

  lemma ChildParts(p: Path, n: string)
    ensures Parent(Child(p, n)) == p && Last(Child(p, n)) == n
  {
  }

  /** Leaves by path, and the paths of the directories made so far. */
  datatype Flat = Flat(leaves: map<Path, Skel>, dirs: set<Path>)

  ghost predicate WellFormed(f: Flat) {
    && [] in f.dirs
    && (forall p :: p in f.dirs && p != [] ==> Parent(p) in f.dirs)
    && (forall q :: q in f.leaves ==> q != [] && Parent(q) in f.dirs && !f.leaves[q].SDir?)
  }

  /** No path is both a leaf and a directory. */
  ghost predicate Disjoint(f: Flat) {
    forall q :: q in f.leaves ==> q !in f.dirs
  }

  ghost function Empty(): Flat { Flat(map[], {[]}) }

  // ---------------------------------------------------------------- messages of a flat tree

  ghost function Below(dirs: set<Path>, p: Path): set<Path> {
    set q | q in dirs && p <= q && q != p
  }

  lemma BelowShrinks(dirs: set<Path>, p: Path, n: string)
    requires Child(p, n) in dirs
    ensures Below(dirs, Child(p, n)) < Below(dirs, p)
  {
    var q := Child(p, n);
    assert q in Below(dirs, p) && q !in Below(dirs, q);
    forall r | r in Below(dirs, q) ensures r in Below(dirs, p) {
    }
  }

  ghost function LeafNames(f: Flat, p: Path): (ns: set<string>)
    ensures forall n :: n in ns <==> Child(p, n) in f.leaves
  {
    var ns := set q | q in f.leaves && q != [] && Parent(q) == p :: Last(q);
    forall n ensures n in ns <==> Child(p, n) in f.leaves {
      ChildParts(p, n);
      if n in ns {
        var q :| q in f.leaves && q != [] && Parent(q) == p && Last(q) == n;
        ChildOfParent(q);
      }
    }
    ns
  }

  ghost function DirNames(f: Flat, p: Path): (ns: set<string>)
    ensures forall n :: n in ns <==> Child(p, n) in f.dirs
  {
    var ns := set q | q in f.dirs && q != [] && Parent(q) == p :: Last(q);
    forall n ensures n in ns <==> Child(p, n) in f.dirs {
      ChildParts(p, n);
      if n in ns {
        var q :| q in f.dirs && q != [] && Parent(q) == p && Last(q) == n;
        ChildOfParent(q);
      }
    }
    ns
  }

  ghost function FileMapAt(f: Flat, p: Path): (m: map<string, FileNode>)
    ensures forall n :: n in m <==> Child(p, n) in f.leaves && f.leaves[Child(p, n)].SFile?
    ensures forall n :: n in m ==>
      m[n] == FileNode(n, f.leaves[Child(p, n)].digest, f.leaves[Child(p, n)].exec)
  {
    MapOf((set n | n in LeafNames(f, p) && f.leaves[Child(p, n)].SFile?),
          n requires Child(p, n) in f.leaves && f.leaves[Child(p, n)].SFile? =>
            FileNode(n, f.leaves[Child(p, n)].digest, f.leaves[Child(p, n)].exec))
  }

  ghost function LinkMapAt(f: Flat, p: Path): (m: map<string, SymlinkNode>)
    ensures forall n :: n in m <==> Child(p, n) in f.leaves && f.leaves[Child(p, n)].SLink?
    ensures forall n :: n in m ==> m[n] == SymlinkNode(n, f.leaves[Child(p, n)].target)
  {
    MapOf((set n | n in LeafNames(f, p) && f.leaves[Child(p, n)].SLink?),
          n requires Child(p, n) in f.leaves && f.leaves[Child(p, n)].SLink? =>
            SymlinkNode(n, f.leaves[Child(p, n)].target))
  }

  ghost predicate DirectoryAt(f: Flat, q: Path) {
    q in f.dirs || (q in f.leaves && f.leaves[q].SMount?)
  }

  ghost function DirMapAt(c: Codec, f: Flat, p: Path): map<string, DirectoryNode>
    decreases Below(f.dirs, p), 0
  {
    forall n | Child(p, n) in f.dirs ensures Below(f.dirs, Child(p, n)) < Below(f.dirs, p) {
      BelowShrinks(f.dirs, p, n);
    }
    MapOf((set n | n in DirNames(f, p) + LeafNames(f, p) && DirectoryAt(f, Child(p, n))),
          n requires DirectoryAt(f, Child(p, n)) =>
            DirectoryNode(n, if Child(p, n) in f.dirs then Some(c.DigestOf(BlobAt(c, f, Child(p, n))))
                             else f.leaves[Child(p, n)].digest))
  }

  /** The message a builder makes of the directory at `p`: three lists, each in name order. */
  ghost function MsgAt(c: Codec, f: Flat, p: Path): Directory
    decreases Below(f.dirs, p), 1
  {
    Directory(ValuesInOrder(FileMapAt(f, p)), ValuesInOrder(DirMapAt(c, f, p)),
              ValuesInOrder(LinkMapAt(f, p)))
  }

  ghost function BlobAt(c: Codec, f: Flat, p: Path): Bytes
    decreases Below(f.dirs, p), 2
  {
    c.encodeDirectory(MsgAt(c, f, p))
  }

  ghost function DigestAt(c: Codec, f: Flat, q: Path): Option<Digest>
    requires DirectoryAt(f, q)
  {
    if q in f.dirs then Some(c.DigestOf(BlobAt(c, f, q))) else f.leaves[q].digest
  }

  lemma DirMapAtEntries(c: Codec, f: Flat, p: Path)
    ensures forall n :: n in DirMapAt(c, f, p) <==> DirectoryAt(f, Child(p, n))
    ensures forall n :: n in DirMapAt(c, f, p) ==>
      DirMapAt(c, f, p)[n] == DirectoryNode(n, DigestAt(c, f, Child(p, n)))
  {
  }

  // ---------------------------------------------------------------- the tree of a flat tree

  ghost function TreeAt(f: Flat, p: Path): (t: Skel)
    ensures t.SDir?
    decreases Below(f.dirs, p)
  {
    forall n | Child(p, n) in f.dirs ensures Below(f.dirs, Child(p, n)) < Below(f.dirs, p) {
      BelowShrinks(f.dirs, p, n);
    }
    SDir(MapOf(DirNames(f, p) + LeafNames(f, p),
      n requires Child(p, n) in f.dirs || Child(p, n) in f.leaves =>
        if Child(p, n) in f.dirs then TreeAt(f, Child(p, n)) else f.leaves[Child(p, n)]))
  }

  /** What a flat tree holds at a path that is a leaf or a directory. */
  ghost function Holding(f: Flat, q: Path): Skel
    requires q in f.dirs || q in f.leaves
  {
    if q in f.dirs then TreeAt(f, q) else f.leaves[q]
  }

  lemma TreeAtKids(f: Flat, p: Path)
    ensures forall n :: n in TreeAt(f, p).kids <==> Child(p, n) in f.dirs || Child(p, n) in f.leaves
    ensures forall n :: n in TreeAt(f, p).kids ==> TreeAt(f, p).kids[n] == Holding(f, Child(p, n))
  {
  }

  lemma FileMapsAgree(f: Flat, p: Path)
    requires Disjoint(f)
    ensures FileMapAt(f, p) == FileMap(TreeAt(f, p))
  {
    TreeAtKids(f, p);
    hide TreeAt, FileMapAt, FileMap;
  }

  lemma LinkMapsAgree(f: Flat, p: Path)
    requires Disjoint(f)
    ensures LinkMapAt(f, p) == LinkMap(TreeAt(f, p))
  {
    TreeAtKids(f, p);
    hide TreeAt, LinkMapAt, LinkMap;
  }

  lemma KidDigestsAgree(c: Codec, f: Flat, q: Path)
    requires WellFormed(f) && Disjoint(f) && (q in f.dirs || q in f.leaves)
    requires q in f.dirs ==> Dig(c, TreeAt(f, q)) == DigestAt(c, f, q)
    ensures DirectoryAt(f, q) <==> Holding(f, q).Directory?()
    ensures DirectoryAt(f, q) ==> Dig(c, Holding(f, q)) == DigestAt(c, f, q)
  {
    hide TreeAt;
  }

  lemma DirMapsAgree(c: Codec, f: Flat, p: Path)
    requires WellFormed(f) && Disjoint(f)
    requires forall n :: Child(p, n) in f.dirs ==> Dig(c, TreeAt(f, Child(p, n))) == DigestAt(c, f, Child(p, n))
    ensures DirMapAt(c, f, p) == DirMap(c, TreeAt(f, p))
  {
    hide TreeAt, DirMapAt, DirMap, Dig, DigestAt, Holding, Disjoint, WellFormed;
    TreeAtKids(f, p);
    DirMapAtEntries(c, f, p);
    forall n
      ensures n in DirMapAt(c, f, p) <==> n in DirMap(c, TreeAt(f, p))
      ensures n in DirMapAt(c, f, p) ==> DirMapAt(c, f, p)[n] == DirMap(c, TreeAt(f, p))[n]
    {
      if n in TreeAt(f, p).kids {
        KidDigestsAgree(c, f, Child(p, n));
      }
    }
  }

  lemma DigestsAgree(c: Codec, f: Flat, p: Path)
    requires p in f.dirs && MsgAt(c, f, p) == Msg(c, TreeAt(f, p))
    ensures DigestAt(c, f, p) == Dig(c, TreeAt(f, p))
  {
  }

  /** As long as no path is both leaf and directory, the builders' message is the canonical one. */
  lemma {:induction false} MsgAtIsMsg(c: Codec, f: Flat, p: Path)
    requires WellFormed(f) && Disjoint(f)
    ensures MsgAt(c, f, p) == Msg(c, TreeAt(f, p))
    decreases Below(f.dirs, p)
  {
    hide TreeAt, WellFormed, Disjoint, FileMapAt, LinkMapAt, DirMapAt, FileMap, LinkMap, DirMap, Dig, DigestAt;
    forall n | Child(p, n) in f.dirs ensures Dig(c, TreeAt(f, Child(p, n))) == DigestAt(c, f, Child(p, n)) {
      BelowShrinks(f.dirs, p, n);
      MsgAtIsMsg(c, f, Child(p, n));
      DigestsAgree(c, f, Child(p, n));
    }
    FileMapsAgree(f, p);
    LinkMapsAgree(f, p);
    DirMapsAgree(c, f, p);
  }

  lemma MsgAtInOrder(c: Codec, f: Flat, p: Path)
    ensures InNameOrder(MsgAt(c, f, p))
  {
    ValuesInOrderLists(FileName, FileMapAt(f, p));
    ValuesInOrderLists(DirectoryName, DirMapAt(c, f, p));
    ValuesInOrderLists(SymlinkName, LinkMapAt(f, p));
    OrderIsSorting(MsgAt(c, f, p));
    hide InNameOrder, FileMapAt, DirMapAt, LinkMapAt, SortedBy;
  }

  lemma MsgAtTells(c: Codec, f: Flat, p: Path)
    requires WellFormed(f) && Disjoint(f)
    ensures InNameOrder(MsgAt(c, f, p)) && Tells(c, MsgAt(c, f, p), TreeAt(f, p))
  {
    hide InNameOrder, MsgAt, Tells, TreeAt, Msg;
    MsgAtInOrder(c, f, p);
    MsgAtIsMsg(c, f, p);
    MsgTells(c, TreeAt(f, p));
  }

  /** What the tree holds at a path. */
  ghost function AtPath(f: Flat, q: Path): Option<Skel> {
    if q in f.dirs || q in f.leaves then Some(Holding(f, q)) else None
  }

  lemma ChildInRoute(p: Path, q: Path)
    requires q != []
    ensures p + q == Child(p, q[0]) + q[1..]
  {
  }

  lemma NothingAtLeaf(f: Flat, p: Path, q: Path)
    requires WellFormed(f) && Disjoint(f) && p !in f.dirs && q != []
    ensures p + q !in f.dirs && p + q !in f.leaves
    decreases |q|
  {
    var r := q[..|q| - 1];
    assert Parent(p + q) == p + r;
    if r == [] { assert p + r == p; } else { NothingAtLeaf(f, p, r); }
  }

  lemma {:induction false} SubOfTree(f: Flat, p: Path, q: Path)
    requires WellFormed(f) && Disjoint(f) && p in f.dirs
    ensures Sub(TreeAt(f, p), q) == AtPath(f, p + q)
    decreases |q|
  {
    hide TreeAt, WellFormed;
    if q == [] {
      assert p + q == p;
    } else {
      TreeAtKids(f, p);
      ChildInRoute(p, q);
      var kid := Child(p, q[0]);
      if kid in f.dirs {
        SubOfTree(f, kid, q[1..]);
      } else {
        if q[1..] != [] {
          NothingAtLeaf(f, kid, q[1..]);
          if kid in f.leaves { LeafHasNothing(f, kid, q[1..]); }
        } else {
          assert kid + q[1..] == kid;
        }
      }
    }
  }

  lemma LeafHasNothing(f: Flat, q: Path, r: Path)
    requires WellFormed(f) && q in f.leaves && r != []
    ensures Sub(f.leaves[q], r) == None
  {
  }

  // ---------------------------------------------------------------- insertion

  datatype Item = Item(path: Path, leaf: Skel)

  /** `p` and everything above it. */
  ghost function Prefixes(p: Path): (s: set<Path>)
    ensures forall q :: q in s <==> q <= p
  {
    var s := set k | 0 <= k <= |p| :: p[..k];
    forall q ensures q in s <==> q <= p {
      PrefixIsSlice(q, p);
    }
    s
  }

  /** Nothing is at `p`, and no leaf is above it. */
  ghost predicate CanInsert(f: Flat, p: Path) {
    p !in f.leaves && p !in f.dirs && forall q :: q in f.leaves ==> !(q <= p)
  }

  /** A leaf is placed at `p`, and the directories that lead to it are made. */
  ghost function Insert(f: Flat, p: Path, leaf: Skel): Flat
    requires p != []
  {
    Flat(f.leaves[p := leaf], f.dirs + Prefixes(Parent(p)))
  }

  ghost function InsertAll(items: seq<Item>): Option<Flat>
    requires forall i :: 0 <= i < |items| ==> items[i].path != []
  {
    if items == [] then Some(Empty())
    else
      var last := items[|items| - 1];
      match InsertAll(items[..|items| - 1])
      case None => None
      case Some(f) => if CanInsert(f, last.path) then Some(Insert(f, last.path, last.leaf)) else None
  }

  ghost function PathsOf(items: seq<Item>): seq<Path> {
    seq(|items|, i requires 0 <= i < |items| => items[i].path)
  }

  ghost predicate SomeLeadsFrom(items: seq<Item>, q: Path) {
    exists i :: 0 <= i < |items| && q <= items[i].path && q != items[i].path
  }

  /** The flat tree holds exactly the items, and exactly the directories that lead to them. */
  ghost predicate Describes(f: Flat, items: seq<Item>) {
    && (forall i :: 0 <= i < |items| ==> items[i].path in f.leaves && f.leaves[items[i].path] == items[i].leaf)
    && (forall q :: q in f.leaves ==> exists i :: 0 <= i < |items| && items[i].path == q)
    && (forall q :: q in f.dirs <==> q == [] || SomeLeadsFrom(items, q))
  }

  lemma CanInsertDescribed(f: Flat, items: seq<Item>, p: Path)
    requires Describes(f, items) && p != []
    ensures CanInsert(f, p) <==>
      forall i :: 0 <= i < |items| ==> !(items[i].path <= p) && !(p <= items[i].path)
  {
    if CanInsert(f, p) {
      forall i | 0 <= i < |items| ensures !(items[i].path <= p) && !(p <= items[i].path) {
        assert items[i].path in f.leaves;
        assert !SomeLeadsFrom(items, p);
      }
    }
  }

  lemma InsertDescribed(f: Flat, items: seq<Item>, item: Item)
    requires Describes(f, items) && item.path != [] && CanInsert(f, item.path)
    ensures Describes(Insert(f, item.path, item.leaf), items + [item])
  {
    var more, g := items + [item], Insert(f, item.path, item.leaf);
    assert more[|items|] == item;
    forall q ensures SomeLeadsFrom(more, q) <==> SomeLeadsFrom(items, q) || (q <= item.path && q != item.path) {
      if SomeLeadsFrom(items, q) {
        var i :| 0 <= i < |items| && q <= items[i].path && q != items[i].path;
        assert more[i] == items[i];
      }
      if q <= item.path && q != item.path { assert more[|items|] == item; }
    }
    forall q ensures q in Prefixes(Parent(item.path)) <==> q <= item.path && q != item.path {
      PrefixIsSlice(q, item.path);
      PrefixIsSlice(q, Parent(item.path));
    }
    forall q | q in g.leaves ensures exists i :: 0 <= i < |more| && more[i].path == q {
      if q in f.leaves {
        var i :| 0 <= i < |items| && items[i].path == q;
        assert more[i].path == q;
      }
    }
  }

  /** A sequence of insertions is accepted exactly when no path equals or leads to another;
      then the result holds exactly the items. */
  lemma {:induction false} AcceptedExactlyIncomparable(items: seq<Item>)
    requires forall i :: 0 <= i < |items| ==> items[i].path != []
    ensures InsertAll(items).Some? <==> Incomparable(PathsOf(items))
    ensures InsertAll(items).Some? ==> Describes(InsertAll(items).value, items)
  {
    if items != [] {
      var front, last := items[..|items| - 1], items[|items| - 1];
      assert items == front + [last];
      AcceptedExactlyIncomparable(front);
      IncomparableMore(front, last);
      if InsertAll(front).Some? {
        CanInsertDescribed(InsertAll(front).value, front, last.path);
        if CanInsert(InsertAll(front).value, last.path) {
          InsertDescribed(InsertAll(front).value, front, last);
        }
      }
    }
  }

  lemma IncomparableMore(items: seq<Item>, item: Item)
    ensures Incomparable(PathsOf(items + [item])) <==>
      && Incomparable(PathsOf(items))
      && forall i :: 0 <= i < |items| ==> !(items[i].path <= item.path) && !(item.path <= items[i].path)
  {
    var ps, qs := PathsOf(items), PathsOf(items + [item]);
    assert forall i :: 0 <= i < |items| ==> qs[i] == ps[i] == items[i].path;
    assert qs[|items|] == item.path;
  }

  lemma DescribedIsDetermined(f: Flat, g: Flat, items: seq<Item>, others: seq<Item>)
    requires Describes(f, items) && Describes(g, others)
    requires forall x :: x in items <==> x in others
    ensures f == g
  {
    forall q ensures SomeLeadsFrom(items, q) <==> SomeLeadsFrom(others, q) {
      SameLeads(items, others, q);
      SameLeads(others, items, q);
    }
    assert f.dirs == g.dirs;
    SameLeaves(f, g, items, others);
    SameLeaves(g, f, others, items);
    assert f.leaves == g.leaves;
  }

  lemma SameLeads(items: seq<Item>, others: seq<Item>, q: Path)
    requires forall x :: x in items ==> x in others
    ensures SomeLeadsFrom(items, q) ==> SomeLeadsFrom(others, q)
  {
    if SomeLeadsFrom(items, q) {
      var i :| 0 <= i < |items| && q <= items[i].path && q != items[i].path;
      assert items[i] in others;
    }
  }

  lemma SameLeaves(f: Flat, g: Flat, items: seq<Item>, others: seq<Item>)
    requires Describes(f, items) && Describes(g, others)
    requires forall x :: x in items ==> x in others
    ensures forall q :: q in f.leaves ==> q in g.leaves && g.leaves[q] == f.leaves[q]
  {
    forall q | q in f.leaves ensures q in g.leaves && g.leaves[q] == f.leaves[q] {
      var i :| 0 <= i < |items| && items[i].path == q;
      assert items[i] in others;
    }
  }

  /** Insertion order is forgotten: the same items in any order give the same result. */
  lemma InsertionOrderIsForgotten(items: seq<Item>, others: seq<Item>)
    requires forall i :: 0 <= i < |items| ==> items[i].path != []
    requires forall i :: 0 <= i < |others| ==> others[i].path != []
    requires forall x :: x in items <==> x in others
    requires InsertAll(items).Some? && InsertAll(others).Some?
    ensures InsertAll(items) == InsertAll(others)
  {
    AcceptedExactlyIncomparable(items);
    AcceptedExactlyIncomparable(others);
    DescribedIsDetermined(InsertAll(items).value, InsertAll(others).value, items, others);
  }

  lemma DescribedIsWellFormed(f: Flat, items: seq<Item>)
    requires Describes(f, items) && Incomparable(PathsOf(items))
    requires forall i :: 0 <= i < |items| ==> items[i].path != [] && !items[i].leaf.SDir?
    ensures WellFormed(f) && Disjoint(f)
  {
    forall q | q in f.dirs && q != [] ensures Parent(q) in f.dirs {
      var i :| 0 <= i < |items| && q <= items[i].path && q != items[i].path;
      assert Parent(q) <= q && Parent(q) != q;
      assert SomeLeadsFrom(items, Parent(q));
    }
    forall q | q in f.leaves ensures q != [] && Parent(q) in f.dirs && !f.leaves[q].SDir? && q !in f.dirs {
      var i :| 0 <= i < |items| && items[i].path == q;
      assert Parent(q) <= q && Parent(q) != q;
      assert SomeLeadsFrom(items, Parent(q));
      assert PathsOf(items)[i] == q;
      forall j | 0 <= j < |items| ensures q <= items[j].path ==> q == items[j].path {
        assert PathsOf(items)[j] == items[j].path;
      }
    }
  }

  // ---------------------------------------------------------------- mounting against spelling out

  /** `g` is `f` with the leaf at `p` replaced by the whole of `sub`. */
  ghost predicate Grafted(f: Flat, p: Path, sub: Flat, g: Flat) {
    && (forall q :: q in g.leaves <==> if p <= q then q[|p|..] in sub.leaves else q in f.leaves)
    && (forall q :: q in g.leaves ==> g.leaves[q] == if p <= q then sub.leaves[q[|p|..]] else f.leaves[q])
    && (forall q :: q in g.dirs <==> if p <= q then q[|p|..] in sub.dirs else q in f.dirs)
  }

  lemma GraftedBelow(f: Flat, p: Path, sub: Flat, g: Flat, r: Path)
    requires Grafted(f, p, sub, g)
    ensures p + r in g.dirs <==> r in sub.dirs
    ensures p + r in g.leaves <==> r in sub.leaves
    ensures r in sub.leaves ==> g.leaves[p + r] == sub.leaves[r]
  {
    assert p <= p + r && (p + r)[|p|..] == r;
  }

  /** Below the graft stands the grafted tree. */
  lemma {:induction false} GraftedTree(f: Flat, p: Path, sub: Flat, g: Flat, r: Path)
    requires Grafted(f, p, sub, g)
    ensures TreeAt(g, p + r) == TreeAt(sub, r)
    decreases Below(sub.dirs, r)
  {
    hide TreeAt, Grafted;
    TreeAtKids(g, p + r);
    TreeAtKids(sub, r);
    forall n
      ensures n in TreeAt(g, p + r).kids <==> n in TreeAt(sub, r).kids
      ensures n in TreeAt(sub, r).kids ==> TreeAt(g, p + r).kids[n] == TreeAt(sub, r).kids[n]
    {
      assert Child(p + r, n) == p + Child(r, n);
      GraftedBelow(f, p, sub, g, Child(r, n));
      if Child(r, n) in sub.dirs {
        BelowShrinks(sub.dirs, r, n);
        GraftedTree(f, p, sub, g, Child(r, n));
      }
    }
    assert TreeAt(g, p + r).kids == TreeAt(sub, r).kids;
  }

  lemma GraftedBeside(f: Flat, p: Path, sub: Flat, g: Flat, q: Path)
    requires Grafted(f, p, sub, g) && !(p <= q)
    ensures q in g.dirs <==> q in f.dirs
    ensures q in g.leaves <==> q in f.leaves
    ensures q in f.leaves ==> g.leaves[q] == f.leaves[q]
  {
  }

  lemma ChildBeyond(p: Path, q: Path, n: string)
    requires !(p <= q)
    ensures p <= Child(q, n) <==> p == Child(q, n)
  {
    PrefixIsSlice(p, q);
    PrefixIsSlice(p, Child(q, n));
  }

  /** Grafting a tree of the mounted digest spells the mount out. */
  lemma {:induction false} GraftExpands(c: Codec, f: Flat, p: Path, sub: Flat, g: Flat, q: Path)
    requires Disjoint(f) && [] in sub.dirs && Grafted(f, p, sub, g) && q in f.dirs && !(p <= q)
    requires p in f.leaves && f.leaves[p] == SMount(Dig(c, TreeAt(sub, [])))
    ensures Expands(c, TreeAt(f, q), TreeAt(g, q))
    decreases Below(f.dirs, q)
  {
    hide TreeAt, Grafted, Dig, Disjoint;
    TreeAtKids(f, q);
    TreeAtKids(g, q);
    assert p !in f.dirs by { LeafIsNoDirectory(f, p); }
    forall n
      ensures n in TreeAt(f, q).kids <==> n in TreeAt(g, q).kids
      ensures n in TreeAt(f, q).kids ==> Expands(c, TreeAt(f, q).kids[n], TreeAt(g, q).kids[n])
    {
      var r := Child(q, n);
      ChildBeyond(p, q, n);
      if p == r {
        GraftedBelow(f, p, sub, g, []);
        GraftedTree(f, p, sub, g, []);
        assert p + [] == p;
      } else {
        GraftedBeside(f, p, sub, g, r);
        if r in f.dirs {
          BelowShrinks(f.dirs, q, n);
          GraftExpands(c, f, p, sub, g, r);
        } else if r in f.leaves {
          if f.leaves[r].SDir? { ExpandsItself(c, f.leaves[r]); }
        }
      }
    }
    assert TreeAt(f, q).kids.Keys == TreeAt(g, q).kids.Keys;
  }

  lemma LeafIsNoDirectory(f: Flat, p: Path)
    requires Disjoint(f) && p in f.leaves
    ensures p !in f.dirs
  {
  }

  lemma {:induction false} ExpandsItself(c: Codec, t: Skel)
    ensures Expands(c, t, t)
  {
    if t.SDir? {
      forall k | k in t.kids ensures Expands(c, t.kids[k], t.kids[k]) { ExpandsItself(c, t.kids[k]); }
    }
  }

  ghost function Under(p: Path, items: seq<Item>): (r: seq<Item>)
    ensures |r| == |items|
    ensures forall i :: 0 <= i < |r| ==> r[i] == Item(p + items[i].path, items[i].leaf)
  {
    seq(|items|, i requires 0 <= i < |items| => Item(p + items[i].path, items[i].leaf))
  }

  lemma PrefixUnder(p: Path, a: Path, b: Path)
    ensures p + a <= p + b <==> a <= b
  {
    PrefixIsSlice(p + a, p + b);
    PrefixIsSlice(a, b);
    if a <= b {
      assert (p + b)[..|p + a|] == p + a;
    }
    if p + a <= p + b {
      assert a == (p + a)[|p|..] && b[..|a|] == (p + b)[|p|..][..|a|];
    }
  }

  lemma BesideStaysBeside(p: Path, a: Path, b: Path)
    requires !(a <= p) && !(p <= a)
    ensures !(a <= p + b) && !(p + b <= a)
  {
    PrefixIsSlice(a, p + b);
    PrefixIsSlice(a, p);
    PrefixIsSlice(p, a);
    PrefixIsSlice(p + b, a);
    assert (p + b)[..|p|] == p;
    assert |a| <= |p| ==> (p + b)[..|a|] == p[..|a|];
    assert |p| <= |a| && |a| <= |p + b| ==> (p + b)[..|a|][..|p|] == p;
    assert |p + b| <= |a| ==> a[..|p + b|][..|p|] == a[..|p|];
  }

  /** Spelling out an accepted mount is accepted too. */
  lemma SpelledOutAccepted(others: seq<Item>, mount: Item, sub: seq<Item>)
    requires Incomparable(PathsOf(others + [mount])) && Incomparable(PathsOf(sub))
    ensures Incomparable(PathsOf(others + Under(mount.path, sub)))
  {
    IncomparableMore(others, mount);
    var p, n := mount.path, |others|;
    var ps, qs, all := PathsOf(others), PathsOf(sub), PathsOf(others + Under(mount.path, sub));
    assert forall i :: 0 <= i < n ==> all[i] == ps[i] == others[i].path;
    assert forall i :: n <= i < |all| ==> all[i] == p + qs[i - n];
    hide PathsOf, Under;
    forall i, j | 0 <= i < |all| && 0 <= j < |all| && i != j ensures !(all[i] <= all[j]) {
      if i < n && j >= n {
        BesideStaysBeside(p, all[i], qs[j - n]);
      } else if i >= n && j < n {
        BesideStaysBeside(p, all[j], qs[i - n]);
      } else if i >= n && j >= n {
        PrefixUnder(p, qs[i - n], qs[j - n]);
      }
    }
  }

  lemma SuffixOf(p: Path, q: Path)
    requires p <= q
    ensures q == p + q[|p|..]
  {
  }

  /** Where a sequence of items leads, seen through the items of a graft. */
  lemma GraftLeads(others: seq<Item>, mount: Item, sub: seq<Item>, q: Path)
    requires sub != []
    requires forall i :: 0 <= i < |others| ==> !(others[i].path <= mount.path) && !(mount.path <= others[i].path)
    requires forall i :: 0 <= i < |sub| ==> sub[i].path != []
    ensures SomeLeadsFrom(others + Under(mount.path, sub), q) <==>
      if mount.path <= q then q == mount.path || SomeLeadsFrom(sub, q[|mount.path|..])
      else SomeLeadsFrom(others + [mount], q)
  {
    hide SomeLeadsFrom, Under;
    if SomeLeadsFrom(others + Under(mount.path, sub), q) {
      LeadsThrough(others, mount, sub, q);
    } else if (if mount.path <= q then q == mount.path || SomeLeadsFrom(sub, q[|mount.path|..])
               else SomeLeadsFrom(others + [mount], q)) {
      LeadsBack(others, mount, sub, q);
    }
  }

  lemma LeadsThrough(others: seq<Item>, mount: Item, sub: seq<Item>, q: Path)
    requires forall i :: 0 <= i < |others| ==> !(others[i].path <= mount.path) && !(mount.path <= others[i].path)
    requires SomeLeadsFrom(others + Under(mount.path, sub), q)
    ensures if mount.path <= q then q == mount.path || SomeLeadsFrom(sub, q[|mount.path|..])
      else SomeLeadsFrom(others + [mount], q)
  {
    var p, n, all, old' := mount.path, |others|, others + Under(mount.path, sub), others + [mount];
    hide Under;
    var i :| 0 <= i < |all| && q <= all[i].path && q != all[i].path;
    if i < n {
      assert old'[i] == all[i];
      if p <= q { PrefixTransitive(p, q, all[i].path); }
    } else if p <= q {
      SuffixOf(p, q);
      PrefixUnder(p, q[|p|..], sub[i - n].path);
    } else {
      PrefixesCompare(q, p, all[i].path);
      assert old'[n] == mount;
    }
  }

  lemma LeadsBack(others: seq<Item>, mount: Item, sub: seq<Item>, q: Path)
    requires sub != [] && forall i :: 0 <= i < |sub| ==> sub[i].path != []
    requires if mount.path <= q then q == mount.path || SomeLeadsFrom(sub, q[|mount.path|..])
      else SomeLeadsFrom(others + [mount], q)
    ensures SomeLeadsFrom(others + Under(mount.path, sub), q)
  {
    var p, n, all, old' := mount.path, |others|, others + Under(mount.path, sub), others + [mount];
    hide Under;
    assert all[n].path == p + sub[0].path;
    if q == p {
    } else if p <= q {
      SuffixOf(p, q);
      var i :| 0 <= i < |sub| && q[|p|..] <= sub[i].path && q[|p|..] != sub[i].path;
      PrefixUnder(p, q[|p|..], sub[i].path);
      assert all[n + i].path == p + sub[i].path;
    } else {
      var i :| 0 <= i < |old'| && q <= old'[i].path && q != old'[i].path;
      if i < n {
        assert all[i] == old'[i];
      } else {
        PrefixTransitive(q, p, all[n].path);
      }
    }
  }

  lemma PrefixTransitive(a: Path, b: Path, d: Path)
    requires a <= b && b <= d
    ensures a <= d
  {
  }

  lemma PrefixesCompare(a: Path, b: Path, d: Path)
    requires a <= d && b <= d
    ensures a <= b || b <= a
  {
    assert |a| <= |b| ==> b[..|a|] == a;
    assert |b| <= |a| ==> a[..|b|] == b;
  }

  /** Inserting the items of a directory instead of mounting it grafts that directory. */
  lemma InsertingGrafts(others: seq<Item>, mount: Item, sub: seq<Item>, f: Flat, s: Flat, g: Flat)
    requires Describes(f, others + [mount]) && Describes(s, sub) && sub != []
    requires Describes(g, others + Under(mount.path, sub))
    requires Incomparable(PathsOf(others + [mount])) && mount.path != []
    requires forall i :: 0 <= i < |sub| ==> sub[i].path != []
    ensures Grafted(f, mount.path, s, g)
  {
    IncomparableMore(others, mount);
    forall q ensures q in g.dirs <==> if mount.path <= q then q[|mount.path|..] in s.dirs else q in f.dirs {
      GraftLeads(others, mount, sub, q);
      if mount.path <= q { SuffixOf(mount.path, q); }
    }
    forall q
      ensures q in g.leaves <==> if mount.path <= q then q[|mount.path|..] in s.leaves else q in f.leaves
      ensures q in g.leaves ==>
        g.leaves[q] == if mount.path <= q then s.leaves[q[|mount.path|..]] else f.leaves[q]
    {
      GraftLeaves(others, mount, sub, f, s, g, q);
    }
  }

  lemma LeafHasItem(f: Flat, items: seq<Item>, q: Path) returns (i: nat)
    requires Describes(f, items) && q in f.leaves
    ensures i < |items| && items[i] == Item(q, f.leaves[q])
  {
    i :| 0 <= i < |items| && items[i].path == q;
  }

  lemma ItemIsLeaf(f: Flat, items: seq<Item>, i: nat)
    requires Describes(f, items) && i < |items|
    ensures items[i].path in f.leaves && f.leaves[items[i].path] == items[i].leaf
  {
  }

  lemma GraftLeaves(others: seq<Item>, mount: Item, sub: seq<Item>, f: Flat, s: Flat, g: Flat, q: Path)
    requires Describes(f, others + [mount]) && Describes(s, sub)
    requires Describes(g, others + Under(mount.path, sub))
    requires forall i :: 0 <= i < |others| ==> !(others[i].path <= mount.path) && !(mount.path <= others[i].path)
    ensures q in g.leaves <==> if mount.path <= q then q[|mount.path|..] in s.leaves else q in f.leaves
    ensures q in g.leaves ==>
      g.leaves[q] == if mount.path <= q then s.leaves[q[|mount.path|..]] else f.leaves[q]
  {
    hide Describes;
    var p, n, all, old' := mount.path, |others|, others + Under(mount.path, sub), others + [mount];
    if q in g.leaves {
      var i := LeafHasItem(g, all, q);
      if i < n {
        assert old'[i] == all[i];
        ItemIsLeaf(f, old', i);
      } else {
        assert q == p + sub[i - n].path && q[|p|..] == sub[i - n].path;
        ItemIsLeaf(s, sub, i - n);
      }
    }
    if p <= q {
      SuffixOf(p, q);
      if q[|p|..] in s.leaves {
        var i := LeafHasItem(s, sub, q[|p|..]);
        assert all[n + i].path == q;
        ItemIsLeaf(g, all, n + i);
      }
    } else if q in f.leaves {
      var i := LeafHasItem(f, old', q);
      assert all[i] == old'[i];
      ItemIsLeaf(g, all, i);
    }
  }

  /** Mounting refines expanding: if a directory is mounted by the digest of what `sub`
      composes to, then inserting `sub` in its place is accepted and gives the same digest. */
  lemma MountingRefinesExpanding(c: Codec, others: seq<Item>, mount: Item, sub: seq<Item>)
    requires forall i :: 0 <= i < |others| ==> others[i].path != [] && !others[i].leaf.SDir?
    requires forall i :: 0 <= i < |sub| ==> sub[i].path != [] && !sub[i].leaf.SDir?
    requires sub != [] && mount.path != []
    requires InsertAll(others + [mount]).Some? && InsertAll(sub).Some?
    requires mount.leaf == SMount(DigestAt(c, InsertAll(sub).value, []))
    ensures InsertAll(others + Under(mount.path, sub)).Some?
    ensures BlobAt(c, InsertAll(others + Under(mount.path, sub)).value, []) ==
            BlobAt(c, InsertAll(others + [mount]).value, [])
  {
    hide InsertAll, Incomparable, BlobAt, DigestAt, Describes, WellFormed, Disjoint, Grafted, PathsOf;
    var mounted, spelled := others + [mount], others + Under(mount.path, sub);
    assert mounted[|others|] == mount;
    SpelledOutItems(others, mount, sub);
    AcceptedExactlyIncomparable(mounted);
    AcceptedExactlyIncomparable(sub);
    SpelledOutAccepted(others, mount, sub);
    AcceptedExactlyIncomparable(spelled);
    var f, s, g := InsertAll(mounted).value, InsertAll(sub).value, InsertAll(spelled).value;
    InsertingGrafts(others, mount, sub, f, s, g);
    DescribedIsWellFormed(f, mounted);
    DescribedIsWellFormed(s, sub);
    DescribedIsWellFormed(g, spelled);
    ItemIsLeaf(f, mounted, |others|);
    GraftKeepsBlob(c, f, mount.path, s, g);
  }

  lemma SpelledOutItems(others: seq<Item>, mount: Item, sub: seq<Item>)
    requires forall i :: 0 <= i < |others| ==> others[i].path != [] && !others[i].leaf.SDir?
    requires forall i :: 0 <= i < |sub| ==> sub[i].path != [] && !sub[i].leaf.SDir?
    ensures var spelled := others + Under(mount.path, sub);
      forall i :: 0 <= i < |spelled| ==> spelled[i].path != [] && !spelled[i].leaf.SDir?
  {
    var spelled := others + Under(mount.path, sub);
    forall i | 0 <= i < |spelled| ensures spelled[i].path != [] && !spelled[i].leaf.SDir? {
      if i >= |others| { assert spelled[i].path == mount.path + sub[i - |others|].path; }
    }
  }

  lemma GraftKeepsBlob(c: Codec, f: Flat, p: Path, s: Flat, g: Flat)
    requires WellFormed(f) && Disjoint(f) && WellFormed(s) && Disjoint(s) && WellFormed(g) && Disjoint(g)
    requires Grafted(f, p, s, g) && p != []
    requires p in f.leaves && f.leaves[p] == SMount(DigestAt(c, s, []))
    ensures BlobAt(c, g, []) == BlobAt(c, f, [])
  {
    MsgAtIsMsg(c, s, []);
    MsgAtIsMsg(c, f, []);
    MsgAtIsMsg(c, g, []);
    DigestsAgree(c, s, []);
    GraftExpands(c, f, p, s, g, []);
    ExpandingKeepsDigest(c, TreeAt(f, []), TreeAt(g, []));
  }

  // ---------------------------------------------------------------- keeping the builders' maps in step

  ghost predicate AgreesOnDirectories<D>(at: Path, directories: map<string, D>, nodes: map<Path, D>)
  {
    && (forall n :: n in directories <==> Child(at, n) in nodes)
    && (forall n :: n in directories ==> directories[n] == nodes[Child(at, n)])
  }

  ghost predicate AgreesOnFiles(at: Path, files: map<string, FileNode>, leaves: map<Path, Skel>) {
    && (forall n :: n in files <==> Child(at, n) in leaves && leaves[Child(at, n)].SFile?)
    && (forall n :: n in files ==>
         files[n] == FileNode(n, leaves[Child(at, n)].digest, leaves[Child(at, n)].exec))
  }

  lemma OtherChild(at: Path, n: string, m: string)
    ensures Child(at, n) == Child(at, m) <==> n == m
  {
    ChildParts(at, n);
    ChildParts(at, m);
  }

  lemma FilesMore(at: Path, files: map<string, FileNode>, leaves: map<Path, Skel>, name: string, leaf: Skel)
    requires AgreesOnFiles(at, files, leaves) && Child(at, name) !in leaves
    ensures AgreesOnFiles(at,
      if leaf.SFile? then files[name := FileNode(name, leaf.digest, leaf.exec)] else files,
      leaves[Child(at, name) := leaf])
  {
    forall n ensures Child(at, n) == Child(at, name) <==> n == name { OtherChild(at, n, name); }
  }

  lemma LeafMeansMade(f: Flat, p: Path)
    requires WellFormed(f) && p in f.leaves
    ensures p != [] && Prefixes(Parent(p)) <= f.dirs
  {
    PrefixesMade(f, Parent(p));
  }

  lemma {:induction false} PrefixesMade(f: Flat, p: Path)
    requires WellFormed(f) && p in f.dirs
    ensures Prefixes(p) <= f.dirs
  {
    if p != [] {
      PrefixesMade(f, Parent(p));
      forall q | q in Prefixes(p) ensures q in f.dirs {
        if q != p {
          PrefixIsSlice(q, p);
          PrefixIsSlice(q, Parent(p));
        }
      }
    }
  }

  lemma PrefixesMore(p: Path, i: nat)
    requires i < |p|
    ensures Prefixes(p[..i + 1]) == Prefixes(p[..i]) + {p[..i + 1]}
  {
    forall q ensures q in Prefixes(p[..i + 1]) <==> q in Prefixes(p[..i]) || q == p[..i + 1] {
      PrefixIsSlice(q, p[..i + 1]);
      PrefixIsSlice(q, p[..i]);
    }
  }

  /** If there is something at `p`, then all directories above it have been made. */
  lemma OccupiedMeansMade(f: Flat, p: Path)
    requires WellFormed(f) && p != []
    ensures p in f.leaves || p in f.dirs ==> Prefixes(Parent(p)) <= f.dirs
    ensures p in f.dirs + Prefixes(Parent(p)) <==> p in f.dirs
  {
    if p in f.leaves || p in f.dirs {
      PrefixesMade(f, Parent(p));
    }
  }

  lemma MakingADirectory(f: Flat, p: Path, n: string)
    requires WellFormed(f) && p in f.dirs
    ensures WellFormed(Flat(f.leaves, f.dirs + {Child(p, n)}))
  {
    ChildParts(p, n);
  }

  lemma MakingAChild(f: Flat, p: Path, n: string)
    requires WellFormed(f) && Disjoint(f) && p in f.dirs && Child(p, n) !in f.leaves
    ensures WellFormed(Flat(f.leaves, f.dirs + {Child(p, n)}))
    ensures Disjoint(Flat(f.leaves, f.dirs + {Child(p, n)}))
  {
    ChildParts(p, n);
  }

  // ---------------------------------------------------------------- listing sub-directories

  lemma EnumeratesJoin(s: seq<Path>, a: set<Path>, t: seq<Path>, b: set<Path>)
    requires Enumerates(s, a) && Enumerates(t, b) && a !! b
    ensures Enumerates(s + t, a + b)
  {
    var u := s + t;
    forall i, j | 0 <= i < j < |u| ensures u[i] != u[j] {
      if i < |s| && j >= |s| {
        assert u[i] in a && u[j] in b;
      }
    }
  }

  lemma EnumeratesRest(s: seq<Path>, a: set<Path>)
    requires Enumerates(s, a) && s != []
    ensures Enumerates(s[1..], a - {s[0]}) && s[0] in a
  {
    forall q ensures q in s[1..] <==> q in a - {s[0]} {
      assert q in s <==> q == s[0] || q in s[1..];
      assert q in s[1..] ==> exists i :: 0 < i < |s| && s[i] == q;
    }
  }

  /** Every member exactly once. */
  ghost predicate Enumerates(s: seq<Path>, all: set<Path>) {
    && (forall q :: q in s <==> q in all)
    && (forall i, j :: 0 <= i < j < |s| ==> s[i] != s[j])
  }

  /** `nodes` lists the sub-directories and mounts of these names. */
  ghost predicate ListsSome(c: Codec, f: Flat, p: Path, nodes: seq<DirectoryNode>, names: seq<string>) {
    && (forall n :: n in names ==> DirectoryAt(f, Child(p, n)))
    && |nodes| == |names|
    && (forall i :: 0 <= i < |nodes| ==>
         nodes[i] == DirectoryNode(names[i], DigestAt(c, f, Child(p, names[i]))))
    && (forall i, j :: 0 <= i < j < |names| ==> names[i] != names[j])
  }

  lemma ListsSomeMore(c: Codec, f: Flat, p: Path, nodes: seq<DirectoryNode>, names: seq<string>, i: nat,
      digest: Option<Digest>)
    requires i < |names| && ListsSome(c, f, p, nodes, names[..i]) && names[i] !in names[..i]
    requires DirectoryAt(f, Child(p, names[i])) && digest == DigestAt(c, f, Child(p, names[i]))
    ensures ListsSome(c, f, p, nodes + [DirectoryNode(names[i], digest)], names[..i + 1])
  {
    assert names[..i + 1] == names[..i] + [names[i]];
  }

  /** The directories under some of the children. */
  ghost function BelowSome(dirs: set<Path>, p: Path, names: seq<string>): set<Path> {
    set q | q in dirs && |q| > |p| && q[..|p|] == p && q[|p|] in names
  }

  lemma BelowMore(dirs: set<Path>, p: Path, names: seq<string>, i: nat)
    requires i < |names| && names[i] !in names[..i] && Child(p, names[i]) in dirs
    ensures BelowSome(dirs, p, names[..i + 1]) ==
      BelowSome(dirs, p, names[..i]) + Below(dirs, Child(p, names[i])) + {Child(p, names[i])}
    ensures BelowSome(dirs, p, names[..i]) !! Below(dirs, Child(p, names[i])) + {Child(p, names[i])}
    ensures Child(p, names[i]) !in Below(dirs, Child(p, names[i]))
  {
    var r := Child(p, names[i]);
    assert names[..i + 1] == names[..i] + [names[i]];
    forall q ensures r <= q <==> |q| > |p| && q[..|p|] == p && q[|p|] == names[i] {
      PrefixIsSlice(r, q);
      if |q| > |p| { assert q[..|r|] == q[..|p|] + [q[|p|]]; }
      if r <= q { assert q[..|p|] == r[..|p|] && q[|p|] == r[|p|]; }
    }
  }

  lemma BelowAll(f: Flat, p: Path, names: set<string>)
    requires WellFormed(f)
    requires forall n :: n in names <==> Child(p, n) in f.dirs
    ensures BelowSome(f.dirs, p, InOrder(names)) == Below(f.dirs, p)
  {
    forall q | q in Below(f.dirs, p) ensures q in BelowSome(f.dirs, p, InOrder(names)) {
      PrefixesMade(f, q);
      PrefixIsSlice(p, q);
      var r := q[..|p| + 1];
      assert r == Child(p, q[|p|]);
      assert r in Prefixes(q);
    }
    forall q | q in BelowSome(f.dirs, p, InOrder(names)) ensures q in Below(f.dirs, p) {
      PrefixIsSlice(p, q);
    }
  }

  lemma NamesDistinct(ks: set<string>, i: nat)
    requires i < |InOrder(ks)|
    ensures InOrder(ks)[i] !in InOrder(ks)[..i]
  {
    var names := InOrder(ks);
    forall j | 0 <= j < i ensures names[j] != names[i] { LtIrreflexive(names[i]); }
  }
}
