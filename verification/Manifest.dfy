/** `serialize` from the file system: resolving the root, walking it, and judging its links. */
module Manifest {
  import opened Names
  import opened Messages
  import opened FlatTree
  import opened PathText
  import opened Disk
  import opened FileSystem
  import opened Serialize

  datatype RunError = Unresolved | NotDirectory | Unsupported

  /** `canonicalize` of a path joined to a directory: what it leads to, if that is there. */
  function Canonical(entries: map<Path, Entry>, dir: Path, path: string): Option<Path> {
    match Follow(entries, [], JoinedTo(dir, path), MAX_LINKS)
    case Reached(p) => if p in entries then Some(p) else None
    case _ => None
  }

  function Resolved(entries: map<Path, Entry>, path: string): Option<Path> {
    if path == "" then None else Canonical(entries, [], path)
  }

  ghost predicate NamesDirectory(entries: map<Path, Entry>, path: string) {
    Resolved(entries, path).Some? && Get(entries, Resolved(entries, path).value) == Some(EDir)
  }

  /** Whether the link at a path below the root leads to something inside the root. */
  function InsideRoot(entries: map<Path, Entry>, root: Path): Resolver {
    (p: Path, target: string) =>
      var place := if p == [] then None else Canonical(entries, root + Parent(p), target);
      place.Some? && root <= place.value
  }

  /** Followed from where the link is, its target leads to nothing that is there. */
  ghost predicate Dangles(entries: map<Path, Entry>, q: Path)
    requires q in entries && entries[q].ELink? && q != []
  {
    var place := Follow(entries, Parent(q), RouteOf(entries[q].target), MAX_LINKS);
    !place.Reached? || place.path !in entries
  }

  ghost predicate LeadsOut(entries: map<Path, Entry>, root: Path, q: Path)
    requires q in entries && entries[q].ELink? && q != []
  {
    var place := Follow(entries, Parent(q), RouteOf(entries[q].target), MAX_LINKS);
    place.Reached? && !(root <= place.path)
  }

  /** No link below the root is absolute, without a component, dangling, or leads out. */
  ghost predicate LinksSupported(entries: map<Path, Entry>, root: Path) {
    forall q :: q in entries && root <= q && q != [] && entries[q].ELink? ==>
      && !Absolute(entries[q].target) && StepsOf(entries[q].target) != []
      && !Dangles(entries, q) && !LeadsOut(entries, root, q)
  }

  /** Seen from the root or from the file system, a link is judged alike. */
  lemma LinkJudged(entries: map<Path, Entry>, root: Path, p: Path)
    requires Rooted(entries) && Plain(root) && p != []
    requires root + p in entries && entries[root + p].ELink?
    ensures var q, target := root + p, entries[root + p].target;
      Acceptable(InsideRoot(entries, root), p, target) <==>
        && !Absolute(target) && StepsOf(target) != []
        && !Dangles(entries, q) && !LeadsOut(entries, root, q)
  {
    hide Rooted, Follow, RouteOf, Plain;
    var q, target := root + p, entries[root + p].target;
    NormalisedSteps(target);
    ParentIsThere(entries, q);
    assert Parent(q) == root + Parent(p);
    PlainInRooted(entries, Parent(q));
    FollowFrom(entries, Parent(q), RouteOf(target));
  }

  lemma {:induction false} PlainInRooted(entries: map<Path, Entry>, p: Path)
    requires Rooted(entries) && p in entries
    ensures Plain(p)
    decreases |p|
  {
    hide Rooted, Proper;
    if p != [] {
      ParentIsThere(entries, p);
      NameIsProper(entries, p);
      PlainInRooted(entries, Parent(p));
      ChildOfParent(p);
    }
  }

  lemma LinksJudged(entries: map<Path, Entry>, root: Path, l: Listing)
    requires Rooted(entries) && Listed(entries, root, l) && Get(entries, root) == Some(EDir)
    ensures LinksAcceptable(InsideRoot(entries, root), View(l)) <==> LinksSupported(entries, root)
  {
    hide Rooted, EntryAt, View, Acceptable, InsideRoot, Genuine, Dangles, LeadsOut, StepsOf;
    var n, inside := View(l), InsideRoot(entries, root);
    PlainInRooted(entries, root);
    forall p | EntryAt(n, p).Some? && EntryAt(n, p).value.ELink?
      ensures p != [] && root + p in entries && entries[root + p] == EntryAt(n, p).value
    {
      assert ListedAt(entries, root, l, p);
      assert root + [] == root;
    }
    if LinksSupported(entries, root) {
      forall p | EntryAt(n, p).Some? && EntryAt(n, p).value.ELink?
        ensures Acceptable(inside, p, EntryAt(n, p).value.target)
      {
        LinkJudged(entries, root, p);
        assert root <= root + p;
      }
    }
    if LinksAcceptable(inside, n) {
      forall q | q in entries && root <= q && q != [] && entries[q].ELink?
        ensures !Absolute(entries[q].target) && StepsOf(entries[q].target) != []
        ensures !Dangles(entries, q) && !LeadsOut(entries, root, q)
      {
        var p := q[|root|..];
        assert q == root + p && ListedAt(entries, root, l, p);
        assert root + [] == root;
        LinkJudged(entries, root, p);
      }
    }
  }

  /** The root digest of a directory on disk, as `run` makes it: resolves the root, walks it in order
      and builds its digest.  Fails exactly for a root that is no directory and for a link that is
      absolute, without a component, dangling, or leads out of the root. */
  method SerializeDirectory(c: Codec, files: Files, root: string)
    returns (r: Result<Digest, RunError>, ghost l: Listing)
    requires Rooted(files.entries)
    ensures r == Err(Unresolved) <==> Resolved(files.entries, root).None?
    ensures r == Err(NotDirectory) <==> Resolved(files.entries, root).Some? && !NamesDirectory(files.entries, root)
    ensures r.Ok? <==>
      NamesDirectory(files.entries, root) && LinksSupported(files.entries, Resolved(files.entries, root).value)
    ensures r.Ok? ==> Listed(files.entries, Resolved(files.entries, root).value, l) && l.OnDir?
    ensures r.Ok? ==> Some(r.value) == RootDigest(c, Dispatch(), View(l)) && SerializedFrom(c, View(l), r.value)
  {
    hide Rooted, Canonical, LinksSupported, LinksAcceptable, WalkOf, View, Genuine, SerializedFrom;
    l := OnDir([]);
    var place := Resolved(files.entries, root);
    if place.None? { return Err(Unresolved), l; }
    CanonicalIsThere(files.entries, [], root);
    if files.entries[place.value] != EDir { return Err(NotDirectory), l; }
    var listing := files.Read(place.value);
    l := listing;
    ListedDirectory(files.entries, place.value, listing);
    LinksJudged(files.entries, place.value, listing);
    var n := View(listing);
    SortedPreorderIsWalk(n);
    var digest := Run(c, InsideRoot(files.entries, place.value), SortedWalk(n, InOrder(n.kids.Keys)), n);
    r := if digest.Ok? then Ok(digest.value) else Err(Unsupported);
  }

  lemma CanonicalIsThere(entries: map<Path, Entry>, dir: Path, path: string)
    ensures Canonical(entries, dir, path).Some? ==> Canonical(entries, dir, path).value in entries
  {
  }

  lemma ListedDirectory(entries: map<Path, Entry>, p: Path, l: Listing)
    requires Listed(entries, p, l) && l.OnDir?
    ensures View(l).Dir?
  {
  }
}
