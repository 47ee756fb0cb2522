/** `build_filtered_directory`: the digest of a tree cut down to selected paths, built from
    a trie of those paths. */
module Filters {
  import opened Names
  import opened Messages
  import opened Merkle
  import opened Disk
  import opened TreeBuild

  /** A selected entry as read from disk, or a level synthesised from shared path prefixes. */
  datatype FilterNode = Leaf(item: Listing) | Group(kids: map<string, FilterNode>)

  datatype FilterError = NoSuchPath | NotInsideRoot | Overlap

  /** What a trie holds at a path. */
  datatype Spot = Vacant | Grouped | Taken(item: Listing)

  function Look(node: FilterNode, q: Path): Spot {
    match node
    case Leaf(item) => if q == [] then Taken(item) else Vacant
    case Group(kids) =>
      if q == [] then Grouped
      else if q[0] in kids then Look(kids[q[0]], q[1..])
      else Vacant
  }

  // ---------------------------------------------------------------- insertion

  /** Nothing was selected at `p`, above it, or below it. */
  ghost predicate Open(node: FilterNode, p: Path) {
    Look(node, p).Vacant? && forall k :: 0 <= k < |p| ==> !Look(node, p[..k]).Taken?
  }

  /** What the trie holds at `q` once `leaf` has been placed at `p`. */
  ghost function After(node: FilterNode, p: Path, leaf: Listing, q: Path): Spot {
    if q == p then Taken(leaf)
    else if q <= p then Grouped
    else Look(node, q)
  }

  /** An insertion: accepted exactly when the path is open, and otherwise without effect. */
  ghost predicate Inserts(before: FilterNode, after: FilterNode, p: Path, leaf: Listing, ok: bool) {
    && (ok <==> Open(before, p))
    && (!ok ==> after == before)
    && (ok ==> forall q :: Look(after, q) == After(before, p, leaf, q))
  }

  lemma OpenStep(kids: map<string, FilterNode>, p: Path)
    requires |p| > 1
    ensures Open(Group(kids), p) <==>
      p[0] !in kids || (kids[p[0]].Group? && Open(kids[p[0]], p[1..]))
  {
    if p[0] in kids {
      forall k | 0 < k <= |p| ensures Look(Group(kids), p[..k]) == Look(kids[p[0]], p[1..][..k - 1]) {
        assert p[..k][1..] == p[1..][..k - 1];
      }
      assert p[..|p|] == p && p[1..][..|p| - 1] == p[1..];
      if kids[p[0]].Leaf? {
        assert Look(Group(kids), p[..1]).Taken?;
      }
      if Open(Group(kids), p) {
        forall k | 0 <= k < |p[1..]| ensures !Look(kids[p[0]], p[1..][..k]).Taken? {
          assert !Look(Group(kids), p[..k + 1]).Taken?;
        }
      }
    }
  }

  lemma AfterStep(kids: map<string, FilterNode>, p: Path, leaf: Listing, old': FilterNode, new': FilterNode, q: Path)
    requires |p| > 1 && old' == (if p[0] in kids then kids[p[0]] else Group(map[]))
    requires forall r :: Look(new', r) == After(old', p[1..], leaf, r)
    ensures Look(Group(kids[p[0] := new']), q) == After(Group(kids), p, leaf, q)
  {
    if q != [] && q[0] == p[0] {
      assert q == [q[0]] + q[1..] && p == [p[0]] + p[1..];
      assert q == p <==> q[1..] == p[1..];
      assert q <= p <==> q[1..] <= p[1..];
      if p[0] !in kids && q[1..] == [] {
        assert q <= p;
      }
    }
  }

  /** The recursion of an insertion, down nested levels. */
  method InsertFilter(trie: map<string, FilterNode>, components: Path, leaf: Listing)
    returns (ok: bool, trie': map<string, FilterNode>)
    requires components != []
    ensures Inserts(Group(trie), Group(trie'), components, leaf, ok)
    decreases components
  {
    var name, rest := components[0], components[1..];
    trie' := trie;
    if rest == [] {
      assert components == [name] && components[..0] == [];
      assert Look(Group(trie), components) == if name in trie then Look(trie[name], []) else Vacant;
      if name in trie {
        ok := false;
      } else {
        trie' := trie[name := Leaf(leaf)];
        ok := true;
      }
    } else {
      OpenStep(trie, components);
      if name !in trie' {
        trie' := trie'[name := Group(map[])];
        EmptyIsOpen(rest);
      }
      match trie'[name] {
        case Group(children) =>
          var children';
          ok, children' := InsertFilter(children, rest, leaf);
          if ok {
            forall q ensures Look(Group(trie[name := Group(children')]), q) == After(Group(trie), components, leaf, q) {
              AfterStep(trie, components, leaf, Group(children), Group(children'), q);
            }
            assert trie'[name := Group(children')] == trie[name := Group(children')];
          } else {
            assert trie'[name := Group(children')] == trie;
          }
          trie' := trie'[name := Group(children')];
        case Leaf(_) =>
          ok := false;
      }
    }
  }

  /** The trie that `build_filtered_directory` fills.  Its levels are values inside it. */
  class FilterTrie {
    var kids: map<string, FilterNode>

    constructor ()
      ensures kids == map[]
    {
      kids := map[];
    }

    ghost function Root(): FilterNode
      reads this
    {
      Group(kids)
    }

    /** Places `leaf` at `components`.  It is refused, and nothing changes, exactly when
        something has been placed there, above it or below it. */
    method Insert(components: Path, leaf: Listing) returns (ok: bool)
      requires components != []
      modifies this
      ensures Inserts(old(Root()), Root(), components, leaf, ok)
    {
      ok, kids := InsertFilter(kids, components, leaf);
    }
  }

  lemma EmptyIsOpen(p: Path)
    requires p != []
    ensures Open(Group(map[]), p)
  {
  }

  // ---------------------------------------------------------------- from the trie to messages

  /** Every selected entry is a well-formed listing. */
  ghost predicate WellFormedNode(node: FilterNode) {
    match node
    case Leaf(item) => WellFormed(item)
    case Group(kids) => forall k :: k in kids ==> WellFormedNode(kids[k])
  }

  /** The listing a trie stands for: its levels list their names in order. */
  ghost function AsItem(node: FilterNode): Listing
    decreases node, 1
  {
    match node
    case Leaf(item) => item
    case Group(kids) => OnDir(AsEntries(node))
  }

  ghost function AsEntries(node: FilterNode): (es: seq<Named>)
    requires node.Group?
    ensures |es| == |InOrder(node.kids.Keys)|
    ensures forall i :: 0 <= i < |es| ==>
      var k := InOrder(node.kids.Keys)[i];
      k in node.kids && es[i] == Named(k, AsItem(node.kids[k]))
    decreases node, 0
  {
    var ks := InOrder(node.kids.Keys);
    assert forall i :: 0 <= i < |ks| ==> ks[i] in node.kids;
    seq(|ks|, i requires 0 <= i < |ks| && ks[i] in node.kids => Named(ks[i], AsItem(node.kids[ks[i]])))
  }

  lemma {:induction false} AsItemWellFormed(node: FilterNode)
    requires WellFormedNode(node)
    ensures WellFormed(AsItem(node))
  {
    if node.Group? {
      var es, ks := AsEntries(node), InOrder(node.kids.Keys);
      forall i, j | 0 <= i < j < |es| ensures es[i].name != es[j].name {
        LtIrreflexive(ks[i]);
      }
      forall e | e in es ensures WellFormed(e.item) {
        var i :| 0 <= i < |es| && es[i] == e;
        AsItemWellFormed(node.kids[ks[i]]);
      }
    }
  }

  /** Each of the three lists is sorted by name. */
  ghost predicate AllSorted(files: seq<FileNode>, directories: seq<DirectoryNode>,
      symlinks: seq<SymlinkNode>)
  {
    SortedBy(files, FileName) && SortedBy(directories, DirectoryName) && SortedBy(symlinks, SymlinkName)
  }

  lemma SortedMore<T>(s: seq<T>, name: T -> string, m: map<string, T>, x: T)
    requires SortedBy(s, name) && Lists(s, name, m)
    requires forall k :: k in m ==> Lt(k, name(x))
    ensures SortedBy(s + [x], name)
  {
  }

  lemma KidsNamed(c: Codec, es: seq<Named>, k: string)
    ensures k in Skeleton(c, es).kids <==> exists i :: 0 <= i < |es| && es[i].name == k
  {
    ViewEntriesKeys(es, k);
  }

  lemma InOrderMore(c: Codec, es: seq<Named>, e: Named, kid: Skel,
      files: seq<FileNode>, directories: seq<DirectoryNode>, symlinks: seq<SymlinkNode>)
    requires Collected(c, Skeleton(c, es), files, directories, symlinks)
    requires AllSorted(files, directories, symlinks)
    requires forall i :: 0 <= i < |es| ==> Lt(es[i].name, e.name)
    ensures kid.SFile? ==>
      AllSorted(files + [FileNode(e.name, kid.digest, kid.exec)], directories, symlinks)
    ensures kid.Directory?() ==>
      AllSorted(files, directories + [DirectoryNode(e.name, Dig(c, kid))], symlinks)
    ensures kid.SLink? ==>
      AllSorted(files, directories, symlinks + [SymlinkNode(e.name, kid.target)])
  {
    hide Skeleton, Dig, SortedBy, Lists, FileMap, DirMap, LinkMap;
    var t := Skeleton(c, es);
    forall k | k in t.kids ensures Lt(k, e.name) {
      KidsNamed(c, es, k);
    }
    match kid
    case SFile(_, _) => SortedMore(files, FileName, FileMap(t), FileNode(e.name, kid.digest, kid.exec));
    case SLink(_) => SortedMore(symlinks, SymlinkName, LinkMap(t), SymlinkNode(e.name, kid.target));
    case _ => SortedMore(directories, DirectoryName, DirMap(c, t), DirectoryNode(e.name, Dig(c, kid)));
  }

  lemma CollectedInOrder(c: Codec, t: Skel,
      files: seq<FileNode>, directories: seq<DirectoryNode>, symlinks: seq<SymlinkNode>)
    requires t.SDir? && Collected(c, t, files, directories, symlinks)
    requires AllSorted(files, directories, symlinks)
    ensures Directory(files, directories, symlinks) == Msg(c, t)
  {
    SortedListing(files, FileName, FileMap(t));
    SortedListing(directories, DirectoryName, DirMap(c, t));
    SortedListing(symlinks, SymlinkName, LinkMap(t));
  }

  lemma GroupEntry(node: FilterNode, i: nat)
    requires node.Group? && WellFormedNode(node) && i < |InOrder(node.kids.Keys)|
    ensures var k := InOrder(node.kids.Keys)[i];
      && k in node.kids
      && WellFormedNode(node.kids[k])
      && AsEntries(node)[i] == Named(k, AsItem(node.kids[k]))
    ensures forall j :: 0 <= j < i ==> Lt(AsEntries(node)[..i][j].name, AsEntries(node)[i].name)
    ensures DistinctNames(AsEntries(node))
  {
    AsItemWellFormed(node);
  }

  /** Building from a trie is building the directory it stands for, without any sorting. */
  method BuildGroup(c: Codec, trie: map<string, FilterNode>) returns (built: Built)
    requires WellFormedNode(Group(trie))
    ensures built == BuiltOf(c, AsEntries(Group(trie)))
    ensures BuiltFrom(c, View(OnDir(AsEntries(Group(trie)))), built)
    decreases Group(trie)
  {
    hide Collected, AllSorted, Msg, Skeleton, Dig, Descendants, FileBlobs, View, Digested, AsEntries, BuiltFrom;
    hide InOrder, StrictlySorted, WellFormedNode, DistinctNames;
    ghost var es := AsEntries(Group(trie));
    var names := InOrder(trie.Keys);
    var files, directories, symlinks := [], [], [];
    var descendants, fileBlobs := [], [];
    NothingBuilt(c);
    NothingIsInOrder();
    assert es[..0] == [];
    for i := 0 to |names|
      invariant Collected(c, Skeleton(c, es[..i]), files, directories, symlinks)
      invariant AllSorted(files, directories, symlinks)
      invariant descendants == Descendants(c, es[..i])
      invariant fileBlobs == FileBlobs(c, es[..i])
    {
      GroupEntry(Group(trie), i);
      var name, node := names[i], trie[names[i]];
      ghost var kid := Digested(c, Memoize(), View(es[i].item));
      BuiltStep(c, es, i);
      EntryNode(c, es[i].item);
      CollectedStep(c, Skeleton(c, es[..i]), Skeleton(c, es[..i + 1]), name, kid,
                    files, directories, symlinks);
      InOrderMore(c, es[..i], es[i], kid, files, directories, symlinks);
      match node {
        case Leaf(item) =>
          match item {
            case OnFile(content, mode) =>
              var blob := c.BlobOf(content);
              fileBlobs := fileBlobs + [blob];
              files := files + [FileNode(name, Some(blob.digest), OwnerExec(mode))];
            case OnLink(target) =>
              symlinks := symlinks + [SymlinkNode(name, target)];
            case OnDir(_) =>
              LeafIsWellFormed(item);
              var below := BuildDirectory(c, item);
              directories := directories + [DirectoryNode(name, Some(below.digest))];
              descendants := descendants + [below.directory];
              descendants := descendants + below.descendants;
              fileBlobs := fileBlobs + below.fileBlobs;
          }
        case Group(children) =>
          var below := BuildGroup(c, children);
          directories := directories + [DirectoryNode(name, Some(below.digest))];
          descendants := descendants + [below.directory];
          descendants := descendants + below.descendants;
          fileBlobs := fileBlobs + below.fileBlobs;
      }
    }
    assert es[..|names|] == es;
    CollectedInOrder(c, Skeleton(c, es), files, directories, symlinks);
    var directory := Directory(files, directories, symlinks);
    built := Built(directory, c.DigestOf(c.encodeDirectory(directory)), descendants, fileBlobs);
    BuiltTells(c, OnDir(es), View(OnDir(es)));
  }

  lemma LeafIsWellFormed(item: Listing)
    requires WellFormedNode(Leaf(item))
    ensures WellFormed(item)
  {
  }

  lemma NothingIsInOrder()
    ensures AllSorted([], [], [])
  {
  }

  // ---------------------------------------------------------------- what a trie's tree holds

  /** What the tree of a trie holds at `q`, walking the trie and then the selected entry. */
  ghost function TrieEntryAt(node: FilterNode, q: Path): Option<Entry>
    decreases q
  {
    match node
    case Leaf(item) => EntryAt(View(item), q)
    case Group(kids) =>
      if q == [] then Some(EDir)
      else if q[0] in kids then TrieEntryAt(kids[q[0]], q[1..])
      else None
  }

  lemma {:induction false} TrieEntryIsTreeEntry(node: FilterNode, q: Path)
    requires WellFormedNode(node)
    ensures EntryAt(View(AsItem(node)), q) == TrieEntryAt(node, q)
    decreases q
  {
    if node.Group? && q != [] {
      AsItemWellFormed(node);
      var es, ks := AsEntries(node), InOrder(node.kids.Keys);
      ViewEntriesKeys(es, q[0]);
      if q[0] in node.kids {
        assert q[0] in ks;
        var i :| 0 <= i < |ks| && ks[i] == q[0];
        ViewEntriesAt(es, i);
        TrieEntryIsTreeEntry(node.kids[q[0]], q[1..]);
      }
    }
  }

  lemma {:induction false} BelowTaken(node: FilterNode, r: Path, q: Path)
    requires Look(node, r).Taken?
    ensures TrieEntryAt(node, r + q) == EntryAt(View(Look(node, r).item), q)
    decreases r
  {
    if r == [] {
      assert r + q == q;
    } else {
      assert (r + q)[0] == r[0] && (r + q)[1..] == r[1..] + q;
      BelowTaken(node.kids[r[0]], r[1..], q);
    }
  }

  lemma {:induction false} AboveTaken(node: FilterNode, q: Path)
    requires forall k :: 0 <= k <= |q| ==> !Look(node, q[..k]).Taken?
    ensures TrieEntryAt(node, q) == if Look(node, q).Grouped? then Some(EDir) else None
    decreases q
  {
    assert q[..|q|] == q && q[..0] == [];
    assert !Look(node, q[..0]).Taken?;
    if q != [] && q[0] in node.kids {
      forall k | 0 <= k <= |q[1..]| ensures !Look(node.kids[q[0]], q[1..][..k]).Taken? {
        assert q[..k + 1][1..] == q[1..][..k];
        assert !Look(node, q[..k + 1]).Taken?;
      }
      AboveTaken(node.kids[q[0]], q[1..]);
    }
  }

  // ---------------------------------------------------------------- restriction to selected paths

  function Find(es: seq<Named>, name: string): Option<Listing> {
    if es == [] then None
    else if es[0].name == name then Some(es[0].item)
    else Find(es[1..], name)
  }

  /** The entry of a listing at a path. */
  function ListingAt(l: Listing, p: Path): Option<Listing>
    decreases p
  {
    if p == [] then Some(l)
    else if l.OnDir? then
      match Find(l.entries, p[0])
      case None => None
      case Some(item) => ListingAt(item, p[1..])
    else None
  }

  lemma {:induction false} FindsFirst(es: seq<Named>, name: string)
    ensures match Find(es, name)
      case None => forall i :: 0 <= i < |es| ==> es[i].name != name
      case Some(item) => exists i :: 0 <= i < |es| && es[i] == Named(name, item)
  {
    if es != [] && es[0].name != name {
      FindsFirst(es[1..], name);
      if Find(es, name).Some? {
        var i :| 0 <= i < |es[1..]| && es[1..][i] == Named(name, Find(es, name).value);
        assert es[i + 1] == Named(name, Find(es, name).value);
      } else {
        forall i | 0 <= i < |es| ensures es[i].name != name {
          if i > 0 { assert es[i] == es[1..][i - 1]; }
        }
      }
    }
  }

  lemma {:induction false} ListingAtView(l: Listing, p: Path)
    requires WellFormed(l)
    ensures ListingAt(l, p).None? <==> NodeAt(View(l), p).None?
    ensures ListingAt(l, p).Some? ==>
      WellFormed(ListingAt(l, p).value) && NodeAt(View(l), p).value == View(ListingAt(l, p).value)
    decreases p
  {
    if p != [] && l.OnDir? {
      ViewEntriesKeys(l.entries, p[0]);
      FindsFirst(l.entries, p[0]);
      if Find(l.entries, p[0]).Some? {
        var i :| 0 <= i < |l.entries| && l.entries[i] == Named(p[0], Find(l.entries, p[0]).value);
        ViewEntriesAt(l.entries, i);
        assert l.entries[i] in l.entries;
        ListingAtView(l.entries[i].item, p[1..]);
      }
    }
  }

  /** One of the selected paths leads to `q` or to something above it. */
  ghost predicate Selected(filters: set<Path>, q: Path) {
    exists f :: f in filters && f <= q
  }

  /** `q` leads to something above a selected path. */
  ghost predicate Leads(filters: set<Path>, q: Path) {
    q == [] || exists f :: f in filters && q <= f
  }

  /** `m` is `n` cut down to what is at or below some selected path. */
  ghost predicate IsRestriction(n: Node, filters: set<Path>, m: Node) {
    forall q :: EntryAt(m, q) ==
      if Selected(filters, q) then EntryAt(n, q)
      else if Leads(filters, q) then Some(EDir)
      else None
  }

  /** All restrictions to the same set of paths have the same digest, whatever the order in
      which the paths were given. */
  lemma RestrictionDeterminesDigest(c: Codec, n: Node, filters: set<Path>, a: Node, b: Node)
    requires IsRestriction(n, filters, a) && IsRestriction(n, filters, b)
    ensures Digested(c, Memoize(), a) == Digested(c, Memoize(), b)
  {
    forall p ensures AlikeAt(Memoize(), a, b, p) {
      assert EntryAt(a, p) == EntryAt(b, p);
    }
    AlikeIsDigestedEqual(c, Memoize(), a, b);
  }

  /** A trie is determined by what it holds at every path. */
  lemma {:induction false} LookDeterminesTrie(a: FilterNode, b: FilterNode)
    requires forall q :: Look(a, q) == Look(b, q)
    ensures a == b
  {
    assert Look(a, []) == Look(b, []);
    if a.Group? {
      forall k ensures k in a.kids <==> k in b.kids {
        assert Look(a, [k]) == Look(b, [k]);
        assert [k][1..] == [];
        if k in a.kids { assert !Look(a.kids[k], []).Vacant?; }
        if k in b.kids { assert !Look(b.kids[k], []).Vacant?; }
      }
      forall k | k in a.kids ensures a.kids[k] == b.kids[k] {
        forall q ensures Look(a.kids[k], q) == Look(b.kids[k], q) {
          assert ([k] + q)[1..] == q;
          assert Look(a, [k] + q) == Look(b, [k] + q);
        }
        LookDeterminesTrie(a.kids[k], b.kids[k]);
      }
      assert a.kids == b.kids;
    }
  }

  /** The order in which the filters were given is forgotten altogether: not only the digest
      but everything built depends only on their set. */
  lemma FilterOrderIsForgotten(l: Listing, filters: set<Path>, a: FilterNode, b: FilterNode)
    requires Holds(a, l, filters) && Holds(b, l, filters)
    ensures a == b
  {
    forall q ensures Look(a, q) == Look(b, q) {
      assert Look(a, q).Taken? <==> Look(b, q).Taken?;
      assert Look(a, q).Grouped? <==> Look(b, q).Grouped?;
    }
    LookDeterminesTrie(a, b);
  }

  /** Selecting every entry of a non-empty directory selects everything. */
  lemma SelectingAllRestrictsNothing(n: Node, filters: set<Path>)
    requires n.Dir? && n.kids != map[]
    requires forall f :: f in filters <==> |f| == 1 && f[0] in n.kids
    ensures IsRestriction(n, filters, n)
  {
    forall q ensures EntryAt(n, q) ==
      if Selected(filters, q) then EntryAt(n, q) else if Leads(filters, q) then Some(EDir) else None
    {
      if q != [] {
        if q[0] in n.kids {
          assert [q[0]] in filters && [q[0]] <= q;
        } else {
          forall f | f in filters ensures !(q <= f) {
            PrefixHead(q, f);
          }
        }
      }
    }
  }

  /** Filters that list every entry of a non-empty root give the digest of the whole tree. */
  lemma SelectingAllGivesWholeDigest(c: Codec, n: Node, filters: set<Path>, m: Node)
    requires n.Dir? && n.kids != map[]
    requires forall f :: f in filters <==> |f| == 1 && f[0] in n.kids
    requires IsRestriction(n, filters, m)
    ensures m.Dir? && RootDigest(c, Memoize(), m) == RootDigest(c, Memoize(), n)
  {
    SelectingAllRestrictsNothing(n, filters);
    RestrictionDeterminesDigest(c, n, filters, m, n);
  }

  /** The trie holds exactly the entries found at the selected paths. */
  ghost predicate Holds(node: FilterNode, l: Listing, filters: set<Path>) {
    forall q ::
      && (Look(node, q).Taken? <==> q in filters)
      && (q in filters ==> ListingAt(l, q) == Some(Look(node, q).item))
      && (Look(node, q).Grouped? <==> q !in filters && Leads(filters, q))
  }

  lemma HoldsOpen(node: FilterNode, l: Listing, ps: seq<Path>, p: Path)
    requires Holds(node, l, ToSet(ps)) && p != []
    ensures Open(node, p) <==> forall i :: 0 <= i < |ps| ==> !(ps[i] <= p) && !(p <= ps[i])
  {
    assert p[..|p|] == p;
    if Open(node, p) {
      forall i | 0 <= i < |ps| ensures !(ps[i] <= p) && !(p <= ps[i]) {
        assert ps[i] in ToSet(ps);
        PrefixIsSlice(ps[i], p);
      }
    }
    if forall i :: 0 <= i < |ps| ==> !(ps[i] <= p) && !(p <= ps[i]) {
      forall k | 0 <= k < |p| ensures !Look(node, p[..k]).Taken? {
        assert p[..k] <= p;
      }
    }
  }

  lemma HoldsMore(node: FilterNode, node': FilterNode, l: Listing, filters: set<Path>, p: Path, item: Listing)
    requires Holds(node, l, filters) && Open(node, p) && p != [] && ListingAt(l, p) == Some(item)
    requires forall q :: Look(node', q) == After(node, p, item, q)
    ensures Holds(node', l, filters + {p})
  {
    forall q ensures
      && (Look(node', q).Taken? <==> q in filters + {p})
      && (q in filters + {p} ==> ListingAt(l, q) == Some(Look(node', q).item))
      && (Look(node', q).Grouped? <==> q !in filters + {p} && Leads(filters + {p}, q))
    {
      assert Look(node', q) == After(node, p, item, q);
      if q != p && q <= p {
        assert q == p[..|q|];
        assert p in filters + {p};
      }
      if Leads(filters, q) && q != [] {
        var f :| f in filters && q <= f;
        assert f in filters + {p};
      }
    }
  }

  /** The tree of a trie is the restriction of the tree its entries were read from. */
  lemma HoldsRestricts(node: FilterNode, l: Listing, filters: set<Path>)
    requires WellFormed(l) && WellFormedNode(node) && Holds(node, l, filters)
    ensures IsRestriction(View(l), filters, View(AsItem(node)))
  {
    forall q ensures EntryAt(View(AsItem(node)), q) ==
      if Selected(filters, q) then EntryAt(View(l), q)
      else if Leads(filters, q) then Some(EDir) else None
    {
      HeldEntry(node, l, filters, q);
    }
  }

  lemma HeldEntry(node: FilterNode, l: Listing, filters: set<Path>, q: Path)
    requires WellFormed(l) && WellFormedNode(node) && Holds(node, l, filters)
    ensures EntryAt(View(AsItem(node)), q) ==
      if Selected(filters, q) then EntryAt(View(l), q)
      else if Leads(filters, q) then Some(EDir) else None
  {
    hide View, AsItem, WellFormed, WellFormedNode;
    TrieEntryIsTreeEntry(node, q);
    if f :| f in filters && f <= q {
      var r := q[|f|..];
      assert q == f + r;
      BelowTaken(node, f, r);
      ListingAtView(l, f);
      NodeAtAppend(View(l), f, r);
    } else {
      forall k | 0 <= k <= |q| ensures !Look(node, q[..k]).Taken? {
        assert q[..k] <= q;
      }
      AboveTaken(node, q);
    }
  }

  /** Every filter names an existing entry below the root. */
  ghost predicate AllFound(l: Listing, filters: seq<Path>) {
    forall i :: 0 <= i < |filters| ==> filters[i] != [] && ListingAt(l, filters[i]).Some?
  }

  /** All filters up to the `i`-th are accepted, and that one is not. */
  ghost predicate FirstRefused(l: Listing, filters: seq<Path>, i: nat, error: FilterError)
    requires i < |filters|
  {
    && AllFound(l, filters[..i]) && Incomparable(filters[..i])
    && match error
       case NoSuchPath => ListingAt(l, filters[i]).None?
       case NotInsideRoot => filters[i] == []
       case Overlap => exists j :: 0 <= j < i && (filters[j] <= filters[i] || filters[i] <= filters[j])
  }

  /** Builds the digest of the tree at `l` cut down to `filters`.  The filters are accepted
      exactly when each names an entry below the root and none equals or leads to another. */
  method BuildFilteredDirectory(c: Codec, l: Listing, filters: seq<Path>)
    returns (r: Result<Built, FilterError>)
    requires l.OnDir? && WellFormed(l)
    ensures filters == [] ==> r == Ok(BuiltOf(c, l.entries))
    ensures filters == [] ==> r.Ok? && BuiltFrom(c, View(l), r.value)
    ensures r.Ok? <==> AllFound(l, filters) && Incomparable(filters)
    ensures r.Err? ==> exists i :: 0 <= i < |filters| && FirstRefused(l, filters, i, r.error)
    ensures r.Ok? && filters != [] ==>
      exists node: FilterNode ::
        && node.Group?
        && Holds(node, l, ToSet(filters))
        && IsRestriction(View(l), ToSet(filters), View(AsItem(node)))
        && r.value == BuiltOf(c, AsEntries(node))
    ensures r.Ok? && filters != [] ==>
      forall m :: IsRestriction(View(l), ToSet(filters), m) ==>
        m.Dir? && Some(r.value.digest) == RootDigest(c, Memoize(), m) && BuiltFrom(c, m, r.value)
  {
    hide BuiltFrom, BuiltOf, Holds, WellFormedNode, IsRestriction;
    if filters == [] {
      var built := BuildDirectory(c, l);
      return Ok(built);
    }
    var trie := new FilterTrie();
    NothingHeld(l);
    for i := 0 to |filters|
      invariant fresh(trie)
      invariant WellFormedNode(trie.Root())
      invariant Holds(trie.Root(), l, ToSet(filters[..i]))
      invariant AllFound(l, filters[..i]) && Incomparable(filters[..i])
    {
      var p := filters[i];
      assert filters[..i + 1] == filters[..i] + [p];
      assert filters[i] == filters[..i + 1][i];
      var leaf := ListingAt(l, p);
      if leaf.None? {
        assert FirstRefused(l, filters, i, NoSuchPath);
        return Err(NoSuchPath);
      }
      if p == [] {
        assert FirstRefused(l, filters, i, NotInsideRoot);
        return Err(NotInsideRoot);
      }
      ghost var before := trie.Root();
      HoldsOpen(before, l, filters[..i], p);
      var ok := trie.Insert(p, leaf.value);
      if !ok {
        assert exists j :: 0 <= j < i && (filters[j] <= p || p <= filters[j]);
        assert FirstRefused(l, filters, i, Overlap);
        return Err(Overlap);
      }
      ListingAtView(l, p);
      InsertedWellFormed(before, trie.Root(), p, leaf.value);
      HoldsMore(before, trie.Root(), l, ToSet(filters[..i]), p, leaf.value);
      assert ToSet(filters[..i + 1]) == ToSet(filters[..i]) + {p};
    }
    assert filters[..|filters|] == filters;
    var built := BuildGroup(c, trie.kids);
    HoldsRestricts(trie.Root(), l, ToSet(filters));
    forall m | IsRestriction(View(l), ToSet(filters), m)
      ensures m.Dir? && Some(built.digest) == RootDigest(c, Memoize(), m) && BuiltFrom(c, m, built)
    {
      RestrictionBuilt(c, l, ToSet(filters), trie.Root(), m);
    }
    r := Ok(built);
  }

  lemma RestrictionBuilt(c: Codec, l: Listing, filters: set<Path>, node: FilterNode, m: Node)
    requires node.Group? && IsRestriction(View(l), filters, View(AsItem(node))) && IsRestriction(View(l), filters, m)
    ensures m.Dir? && Some(BuiltOf(c, AsEntries(node)).digest) == RootDigest(c, Memoize(), m)
    ensures BuiltFrom(c, m, BuiltOf(c, AsEntries(node)))
  {
    hide IsRestriction, Digested, BuiltFrom, BuiltOf;
    assert AsItem(node) == OnDir(AsEntries(node));
    GroupDigest(c, node);
    RestrictionDeterminesDigest(c, View(l), filters, View(AsItem(node)), m);
    DigestedEntry(c, Memoize(), m);
    DigestedEntry(c, Memoize(), View(AsItem(node)));
    BuiltTells(c, OnDir(AsEntries(node)), m);
  }

  lemma GroupDigest(c: Codec, node: FilterNode)
    requires node.Group?
    ensures View(AsItem(node)).Dir?
    ensures Some(BuiltOf(c, AsEntries(node)).digest) == RootDigest(c, Memoize(), View(AsItem(node)))
  {
    var l := AsItem(node);
    assert l == OnDir(AsEntries(node));
    BuiltRootDigest(c, l);
  }

  lemma BuiltRootDigest(c: Codec, l: Listing)
    requires l.OnDir?
    ensures RootDigest(c, Memoize(), View(l)) == Some(BuiltOf(c, l.entries).digest)
  {
    assert View(l) == Dir(ViewEntries(l.entries));
    var t := Skeleton(c, l.entries);
    assert t == Digested(c, Memoize(), View(l));
    hide Digested, Msg, View, ViewEntries;
    assert Dig(c, t) == Some(c.DigestOf(DirBlob(c, t)));
    assert DirBlob(c, t) == c.encodeDirectory(Msg(c, t));
  }

  lemma NothingHeld(l: Listing)
    ensures WellFormedNode(Group(map[]))
    ensures Holds(Group(map[]), l, ToSet([]))
  {
  }

  lemma {:induction false} WellFormedEverywhere(node: FilterNode)
    requires forall q :: Look(node, q).Taken? ==> WellFormed(Look(node, q).item)
    ensures WellFormedNode(node)
  {
    match node
    case Leaf(item) => assert Look(node, []) == Taken(item);
    case Group(kids) =>
      forall k | k in kids ensures WellFormedNode(kids[k]) {
        forall q | Look(kids[k], q).Taken? ensures WellFormed(Look(kids[k], q).item) {
          assert ([k] + q)[1..] == q;
          assert Look(node, [k] + q) == Look(kids[k], q);
        }
        WellFormedEverywhere(kids[k]);
      }
  }

  lemma {:induction false} WellFormedAt(node: FilterNode, q: Path)
    requires WellFormedNode(node) && Look(node, q).Taken?
    ensures WellFormed(Look(node, q).item)
    decreases q
  {
    if q != [] { WellFormedAt(node.kids[q[0]], q[1..]); }
  }

  lemma InsertedWellFormed(node: FilterNode, node': FilterNode, p: Path, item: Listing)
    requires WellFormedNode(node) && WellFormed(item)
    requires forall q :: Look(node', q) == After(node, p, item, q)
    ensures WellFormedNode(node')
  {
    forall q | Look(node', q).Taken? ensures WellFormed(Look(node', q).item) {
      assert Look(node', q) == After(node, p, item, q);
      if q != p { WellFormedAt(node, q); }
    }
    WellFormedEverywhere(node');
  }
}
