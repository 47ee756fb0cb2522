/** Rebuilding a tree depth first from one flattened `Tree` message. */
module Materialize {
  import opened Names
  import opened Messages
  import opened Merkle
  import opened PathText
  import opened Layout
  import opened Disk
  import opened FlatTree
  import opened Client
  import opened FileSystem
  import opened Download

  // ---------------------------------------------------------------- parts of a tree

  ghost function Under(t: Skel, p: Path): set<Path> { set q | q in Paths(t) && p <= q }

  /** What lies below `p` in entries of these names. */
  ghost function BelowNames(t: Skel, p: Path, names: seq<string>): set<Path> {
    set q | q in Paths(t) && |q| > |p| && p <= q && q[|p|] in names
  }

  ghost function FilesIn(t: Skel, ps: set<Path>): set<Path> { set q | q in ps && IsFile(t, q) }

  ghost function OthersIn(t: Skel, ps: set<Path>): set<Path> { set q | q in ps && !IsFile(t, q) }

  lemma BelowNamesMore(t: Skel, p: Path, names: seq<string>, i: nat)
    requires i < |names| && names[i] !in names[..i]
    ensures BelowNames(t, p, names[..i + 1]) == BelowNames(t, p, names[..i]) + Under(t, Child(p, names[i]))
    ensures BelowNames(t, p, names[..i]) !! Under(t, Child(p, names[i]))
    ensures Under(t, Child(p, names[i])) <= Under(t, p) - {p}
  {
    var r := Child(p, names[i]);
    assert names[..i + 1] == names[..i] + [names[i]];
    forall q ensures r <= q <==> |q| > |p| && p <= q && q[|p|] == names[i] {
      PrefixIsSlice(r, q);
      PrefixIsSlice(p, q);
      if |q| > |p| { assert q[..|r|] == q[..|p|] + [q[|p|]]; }
      if r <= q { assert q[..|p|] == r[..|p|] && q[|p|] == r[|p|]; }
    }
  }

  lemma {:induction false} AboveIsDirectory(t: Skel, a: Path, b: Path)
    requires a <= b && a != b && Sub(t, b).Some?
    ensures IsDir(t, a)
    decreases |b|
  {
    HasDirectory(t, b);
    PrefixIsSlice(a, b);
    PrefixIsSlice(a, Parent(b));
    if a != Parent(b) { AboveIsDirectory(t, a, Parent(b)); }
  }

  /** Everything below a directory is in one of its entries, and below a leaf there is nothing. */
  lemma BelowHasName(t: Skel, p: Path, q: Path)
    requires q in Paths(t) && p <= q && q != p
    ensures |q| > |p| && Child(p, q[|p|]) <= q && IsDir(t, p) && q[|p|] in Sub(t, p).value.kids
    ensures q == Child(p, q[|p|]) || IsDir(t, Child(p, q[|p|]))
  {
    PrefixIsSlice(p, q);
    var r := Child(p, q[|p|]);
    assert r == q[..|r|];
    PrefixIsSlice(r, q);
    PathsAreInhabited(t, q);
    AboveIsDirectory(t, p, q);
    if r != q { AboveIsDirectory(t, r, q); }
    SubStep(t, p, q[|p|]);
  }

  /** A directory's parts: itself, what is in its sub-directories, its files and its links. */
  lemma UnderSplit(c: Codec, t: Skel, p: Path)
    requires IsDir(t, p)
    ensures var names, s := InOrder(DirMap(c, Sub(t, p).value).Keys), Sub(t, p).value;
      && OthersIn(t, Under(t, p)) ==
           {p} + OthersIn(t, BelowNames(t, p, names)) + KidPaths(p, LinkMap(s).Keys)
      && FilesIn(t, Under(t, p)) == FilesIn(t, BelowNames(t, p, names)) + KidPaths(p, FileMap(s).Keys)
      && FilesIn(t, BelowNames(t, p, names)) !! KidPaths(p, FileMap(s).Keys)
      && OthersIn(t, BelowNames(t, p, names)) !! KidPaths(p, LinkMap(s).Keys)
  {
    var s := Sub(t, p).value;
    var u, b := Under(t, p), BelowNames(t, p, InOrder(DirMap(c, s).Keys));
    var f, l := KidPaths(p, FileMap(s).Keys), KidPaths(p, LinkMap(s).Keys);
    forall q ensures SplitAt(t, p, u, b, f, l, q) { UnderSplitAt(c, t, p, q); }
    hide Under, BelowNames, KidPaths, DirMap, FileMap, LinkMap, InOrder, Paths;
    SplitSets(t, p, u, b, f, l);
  }

  /** `q` is in one part of `u` at most, and in `u` exactly when it is in some part. */
  ghost predicate SplitAt(t: Skel, p: Path, u: set<Path>, b: set<Path>, f: set<Path>, l: set<Path>, q: Path) {
    && (q in u <==> (q == p || q in b || q in f || q in l))
    && (q in f ==> IsFile(t, q) && q !in b)
    && (q in l ==> IsLink(t, q) && q !in b)
  }

  lemma SplitSets(t: Skel, p: Path, u: set<Path>, b: set<Path>, f: set<Path>, l: set<Path>)
    requires IsDir(t, p) && forall q :: SplitAt(t, p, u, b, f, l, q)
    ensures OthersIn(t, u) == {p} + OthersIn(t, b) + l
    ensures FilesIn(t, u) == FilesIn(t, b) + f
    ensures FilesIn(t, b) !! f && OthersIn(t, b) !! l
  {
    forall q
      ensures q in u <==> (q == p || q in b || q in f || q in l)
      ensures q in f ==> IsFile(t, q) && q !in b
      ensures q in l ==> IsLink(t, q) && q !in b
    {
      assert SplitAt(t, p, u, b, f, l, q);
    }
  }

  lemma UnderSplitAt(c: Codec, t: Skel, p: Path, q: Path)
    requires IsDir(t, p)
    ensures var s := Sub(t, p).value;
      SplitAt(t, p, Under(t, p), BelowNames(t, p, InOrder(DirMap(c, s).Keys)),
              KidPaths(p, FileMap(s).Keys), KidPaths(p, LinkMap(s).Keys), q)
  {
    hide DirMap, FileMap, LinkMap, InOrder, KidPaths, Paths, Sub;
    PathsAreInhabited(t, p);
    if q != [] && Parent(q) == p {
      KidKinds(c, t, p, q);
      assert q[|p|] == Last(q);
      PrefixIsSlice(p, q);
    }
    if q in Under(t, p) && q != p {
      var n := q[|p|];
      BelowHasName(t, p, q);
      ChildParts(p, n);
      KidKinds(c, t, p, Child(p, n));
      KidAt(t, p, Child(p, n));
    }
  }

  // ---------------------------------------------------------------- the lookup

  /** The lookup resolves every proper sub-directory, and no mount. */
  ghost predicate Looks(c: Codec, lookup: map<string, Directory>, t: Skel) {
    forall p :: p in Paths(t) && p != [] ==> LooksAt(c, lookup, t, p)
  }

  ghost predicate LooksAt(c: Codec, lookup: map<string, Directory>, t: Skel, p: Path) {
    && (IsDir(t, p) ==>
         var h := c.hash(DirBlob(c, Sub(t, p).value));
         h in lookup && lookup[h] == Msg(c, Sub(t, p).value))
    && (IsDirectory(t, p) && !IsDir(t, p) ==>
         Sub(t, p).value.digest.Some? ==> Sub(t, p).value.digest.value.hash !in lookup)
  }

  ghost predicate ResolvableUnder(t: Skel, p: Path) {
    forall q :: q in Paths(t) && p <= q ==>
      (IsDirectory(t, q) ==> IsDir(t, q)) && (IsFile(t, q) ==> Sub(t, q).value.digest.Some?)
  }

  lemma ResolvableKids(c: Codec, t: Skel, p: Path, names: seq<string>)
    requires IsDir(t, p) && names == InOrder(DirMap(c, Sub(t, p).value).Keys)
    requires forall j :: 0 <= j < |names| ==> ResolvableUnder(t, Child(p, names[j]))
    requires FilesDigested(t, KidPaths(p, FileMap(Sub(t, p).value).Keys))
    ensures ResolvableUnder(t, p)
  {
    hide DirMap, FileMap, InOrder, KidPaths, Paths, Sub;
    var s := Sub(t, p).value;
    forall q | q in Paths(t) && p <= q
      ensures (IsDirectory(t, q) ==> IsDir(t, q)) && (IsFile(t, q) ==> Sub(t, q).value.digest.Some?)
    {
      if q != p {
        BelowHasName(t, p, q);
        var n := q[|p|];
        ChildParts(p, n);
        KidAt(t, p, Child(p, n));
        if s.kids[n].Directory?() {
          assert n in names;
          var j :| 0 <= j < |names| && names[j] == n;
          assert ResolvableUnder(t, Child(p, names[j]));
        } else {
          assert s.kids[n].SFile? ==> q in KidPaths(p, FileMap(s).Keys);
        }
      }
    }
  }

  lemma ResolvableKid(t: Skel, p: Path, n: string)
    requires ResolvableUnder(t, p)
    ensures ResolvableUnder(t, Child(p, n))
  {
    forall q | q in Paths(t) && Child(p, n) <= q ensures p <= q {
      PrefixIsSlice(Child(p, n), q);
      PrefixIsSlice(p, q);
      assert q[..|p|] == q[..|p| + 1][..|p|];
    }
  }

  lemma ResolvableHere(c: Codec, t: Skel, p: Path)
    requires ResolvableUnder(t, p) && IsDir(t, p)
    ensures FilesDigested(t, KidPaths(p, FileMap(Sub(t, p).value).Keys))
    ensures forall n :: n in DirMap(c, Sub(t, p).value) ==> IsDir(t, Child(p, n))
  {
    forall q | q != [] && Parent(q) == p && Last(q) in Sub(t, p).value.kids ensures q in Paths(t) && p <= q {
      KidAt(t, p, q);
      PrefixIsSlice(p, q);
    }
    forall n | n in DirMap(c, Sub(t, p).value) ensures IsDir(t, Child(p, n)) {
      ChildParts(p, n);
      KidAt(t, p, Child(p, n));
    }
  }

  lemma DirKid(c: Codec, lookup: map<string, Directory>, t: Skel, p: Path, i: nat)
    requires IsDir(t, p) && Looks(c, lookup, t) && i < |DirNames(c, t, p)|
    ensures i < |Msg(c, Sub(t, p).value).directories|
    ensures var n, node := DirNames(c, t, p)[i], Msg(c, Sub(t, p).value).directories[i];
      && node.name == n
      && IsDirectory(t, Child(p, n))
      && (IsDir(t, Child(p, n)) ==>
           && Child(p, n) != [] && Parent(Child(p, n)) == p
           && Sub(t, Child(p, n)).value < Sub(t, p).value
           && node.digest.Some? && node.digest.value.hash in lookup
           && lookup[node.digest.value.hash] == Msg(c, Sub(t, Child(p, n)).value))
      && (!IsDir(t, Child(p, n)) ==> node.digest.None? || node.digest.value.hash !in lookup)
      && (ResolvableUnder(t, p) ==> IsDir(t, Child(p, n)) && ResolvableUnder(t, Child(p, n)))
  {
    var n := DirNames(c, t, p)[i];
    assert n in DirMap(c, Sub(t, p).value);
    MsgLengths(c, Sub(t, p).value);
    DirNodeAt(c, t, p, i);
    ChildParts(p, n);
    KidAt(t, p, Child(p, n));
    if ResolvableUnder(t, p) {
      ResolvableHere(c, t, p);
      ResolvableKid(t, p, n);
    }
    assert LooksAt(c, lookup, t, Child(p, n));
  }

  // ---------------------------------------------------------------- depth first

  /** Descending into the next sub-directory meets the conditions for a call. */
  lemma Descending(t: Skel, shown: set<Path>, p: Path, names: seq<string>, i: nat)
    requires i < |names| && names[i] !in names[..i] && IsDir(t, p) && IsDir(t, Child(p, names[i]))
    requires shown !! Under(t, p)
    ensures var now := shown + {p} + OthersIn(t, BelowNames(t, p, names[..i]));
      && NextDir(t, now, Child(p, names[i]))
      && now !! Under(t, Child(p, names[i]))
      && now + OthersIn(t, Under(t, Child(p, names[i]))) ==
           shown + {p} + OthersIn(t, BelowNames(t, p, names[..i + 1]))
    ensures FilesIn(t, BelowNames(t, p, names[..i + 1])) ==
      FilesIn(t, BelowNames(t, p, names[..i])) + FilesIn(t, Under(t, Child(p, names[i])))
    ensures FilesIn(t, BelowNames(t, p, names[..i])) !! FilesIn(t, Under(t, Child(p, names[i])))
  {
    BelowNamesMore(t, p, names, i);
    ChildParts(p, names[i]);
    hide BelowNames, Under;
  }

  ghost function DirNames(c: Codec, t: Skel, p: Path): seq<string>
    requires IsDir(t, p)
  {
    InOrder(DirMap(c, Sub(t, p).value).Keys)
  }

  /** What is shown once the sub-directories of these names are materialized. */
  ghost function ShownBelow(t: Skel, shown: set<Path>, p: Path, names: seq<string>): set<Path> {
    shown + {p} + OthersIn(t, BelowNames(t, p, names))
  }

  /** The first `i` sub-directories are materialized. */
  ghost predicate Placed(c: Codec, t: Skel, out: Path, p: Path, i: nat, targets: seq<Target>, met: seq<Path>)
    requires IsDir(t, p)
  {
    && i <= |DirNames(c, t, p)|
    && TargetsFor(t, out, targets, met)
    && Enumerates(met, FilesIn(t, BelowNames(t, p, DirNames(c, t, p)[..i])))
    && forall j :: 0 <= j < i ==> ResolvableUnder(t, Child(p, DirNames(c, t, p)[j]))
  }

  lemma NothingBelow(c: Codec, t: Skel, shown: set<Path>, p: Path, out: Path)
    requires IsDir(t, p)
    ensures |Msg(c, Sub(t, p).value).directories| == |DirNames(c, t, p)|
    ensures ShownBelow(t, shown, p, DirNames(c, t, p)[..0]) == shown + {p}
    ensures ShownBelow(t, shown, p, DirNames(c, t, p)[..|DirNames(c, t, p)|]) ==
      ShownBelow(t, shown, p, DirNames(c, t, p))
    ensures Placed(c, t, out, p, 0, [], [])
  {
    hide InOrder, DirMap, Msg, Sub, Paths;
    MsgLengths(c, Sub(t, p).value);
    var names := DirNames(c, t, p);
    assert names[..|names|] == names;
    assert BelowNames(t, p, names[..0]) == {};
  }

  lemma DescendingTo(c: Codec, t: Skel, shown: set<Path>, p: Path, i: nat)
    requires IsDir(t, p) && i < |DirNames(c, t, p)| && IsDir(t, Child(p, DirNames(c, t, p)[i]))
    requires shown !! Under(t, p)
    ensures var names := DirNames(c, t, p);
      var now := ShownBelow(t, shown, p, names[..i]);
      && NextDir(t, now, Child(p, names[i]))
      && now !! Under(t, Child(p, names[i]))
      && now + OthersIn(t, Under(t, Child(p, names[i]))) == ShownBelow(t, shown, p, names[..i + 1])
  {
    hide InOrder, DirMap;
    NamesDistinct(DirMap(c, Sub(t, p).value).Keys, i);
    Descending(t, shown, p, DirNames(c, t, p), i);
  }

  lemma PlacedMore(c: Codec, t: Skel, out: Path, p: Path, i: nat, targets: seq<Target>, met: seq<Path>,
      below: seq<Target>, more: seq<Path>)
    requires IsDir(t, p) && i < |DirNames(c, t, p)| && Placed(c, t, out, p, i, targets, met)
    requires IsDir(t, Child(p, DirNames(c, t, p)[i])) && ResolvableUnder(t, Child(p, DirNames(c, t, p)[i]))
    requires TargetsFor(t, out, below, more)
    requires Enumerates(more, FilesIn(t, Under(t, Child(p, DirNames(c, t, p)[i]))))
    ensures Placed(c, t, out, p, i + 1, targets + below, met + more)
  {
    hide InOrder, DirMap, TargetsFor, Enumerates, ResolvableUnder, OthersIn, FilesIn, Under, BelowNames, Sub;
    var names := DirNames(c, t, p);
    NamesDistinct(DirMap(c, Sub(t, p).value).Keys, i);
    Descending(t, {}, p, names, i);
    EnumeratesJoin(met, FilesIn(t, BelowNames(t, p, names[..i])), more, FilesIn(t, Under(t, Child(p, names[i]))));
    TargetsJoin(t, out, targets, met, below, more);
  }

  lemma PlacedAll(c: Codec, t: Skel, out: Path, p: Path, targets: seq<Target>, met: seq<Path>, here: seq<Target>)
    requires IsDir(t, p) && Placed(c, t, out, p, |DirNames(c, t, p)|, targets, met)
    requires TargetsFor(t, out, here, KidFiles(t, p))
    requires FilesDigested(t, KidPaths(p, FileMap(Sub(t, p).value).Keys))
    ensures TargetsFor(t, out, targets + here, met + KidFiles(t, p))
    ensures Enumerates(met + KidFiles(t, p), FilesIn(t, Under(t, p)))
    ensures ResolvableUnder(t, p)
  {
    hide InOrder, DirMap, FileMap, LinkMap, TargetsFor, Enumerates, ResolvableUnder, OthersIn, FilesIn, Under,
      BelowNames, KidPaths, FilesDigested, Sub;
    var names := DirNames(c, t, p);
    assert names[..|names|] == names;
    UnderSplit(c, t, p);
    ResolvableKids(c, t, p, names);
    KidSeqEnumerates(p, FileMap(Sub(t, p).value).Keys);
    EnumeratesJoin(met, FilesIn(t, BelowNames(t, p, names)), KidFiles(t, p),
                   KidPaths(p, FileMap(Sub(t, p).value).Keys));
    TargetsJoin(t, out, targets, met, here, KidFiles(t, p));
  }

  lemma AllParts(c: Codec, t: Skel, shown: set<Path>, p: Path)
    requires IsDir(t, p) && shown !! Under(t, p)
    ensures var kids := KidPaths(p, LinkMap(Sub(t, p).value).Keys);
      var now := ShownBelow(t, shown, p, DirNames(c, t, p));
      && now + kids == shown + OthersIn(t, Under(t, p))
      && now !! kids && p in now
  {
    hide DirMap, LinkMap, BelowNames, KidPaths, InOrder;
    UnderSplit(c, t, p);
    var s := Sub(t, p).value;
    forall q | q in KidPaths(p, LinkMap(s).Keys) ensures q in Under(t, p) && q != p {
      KidAt(t, p, q);
      PrefixIsSlice(p, q);
    }
    hide Under;
  }

  /** No chain of directories that the lookup resolves, from `dir` on, is longer than `n`. */
  ghost predicate ShallowIn(lookup: map<string, Directory>, dir: Directory, n: nat)
    decreases n
  {
    forall i :: 0 <= i < |dir.directories| && Resolves(lookup, dir.directories[i]) ==>
      n > 0 && ShallowIn(lookup, lookup[dir.directories[i].digest.value.hash], n - 1)
  }

  predicate Resolves(lookup: map<string, Directory>, node: DirectoryNode) {
    node.digest.Some? && node.digest.value.hash in lookup
  }

  lemma ShallowNext(lookup: map<string, Directory>, dir: Directory, n: nat, i: nat)
    requires ShallowIn(lookup, dir, n) && i < |dir.directories| && Resolves(lookup, dir.directories[i])
    ensures n > 0 && ShallowIn(lookup, lookup[dir.directories[i].digest.value.hash], n - 1)
  {
  }

  /** The call is for the directory at `p` of a tree that the lookup resolves, and comes next. */
  ghost predicate Matches(c: Codec, lookup: map<string, Directory>, t: Skel, out: Path, p: Path, dir: Directory,
      target: Path, shown: set<Path>)
  {
    && AtDir(c, t, out, p, dir, target) && Tidy(t) && Looks(c, lookup, t)
    && NextDir(t, shown, p) && shown !! Under(t, p)
  }

  lemma MatchesMeans(c: Codec, lookup: map<string, Directory>, t: Skel, out: Path, p: Path, dir: Directory,
      target: Path, shown: set<Path>)
    requires Matches(c, lookup, t, out, p, dir, target, shown)
    ensures IsDir(t, p) && NextDir(t, shown, p) && target == out + p
    ensures |dir.directories| == |DirNames(c, t, p)|
    ensures ShownBelow(t, shown, p, DirNames(c, t, p)[..0]) == shown + {p}
    ensures Placed(c, t, out, p, 0, [], [])
  {
    hide Looks, Under, InOrder, DirMap;
    NothingBelow(c, t, shown, p, out);
  }

  lemma MatchesName(c: Codec, lookup: map<string, Directory>, t: Skel, out: Path, p: Path, dir: Directory,
      target: Path, shown: set<Path>, i: nat)
    requires Matches(c, lookup, t, out, p, dir, target, shown) && i < |dir.directories|
    ensures JoinedTo(target, dir.directories[i].name) == target + [dir.directories[i].name] && Tidy(t)
  {
    hide Looks, Under, Msg, NextDir, Tidy, JoinedTo;
    KidDirName(c, t, p, i);
    JoinedName(target, dir.directories[i].name);
  }

  /** What the next sub-directory node leads to. */
  lemma MatchesKid(c: Codec, lookup: map<string, Directory>, t: Skel, out: Path, p: Path, dir: Directory,
      target: Path, shown: set<Path>, i: nat)
    requires Matches(c, lookup, t, out, p, dir, target, shown) && i < |dir.directories|
    ensures i < |DirNames(c, t, p)|
    ensures var node, names := dir.directories[i], DirNames(c, t, p);
      var q, now := Child(p, names[i]), ShownBelow(t, shown, p, names[..i]);
      && (Resolves(lookup, node) <==> IsDir(t, q))
      && (ResolvableUnder(t, p) ==> IsDir(t, q) && ResolvableUnder(t, q))
      && (IsDir(t, q) ==>
           && Matches(c, lookup, t, out, q, lookup[node.digest.value.hash], JoinedTo(target, node.name), now)
           && now + OthersIn(t, Under(t, q)) == ShownBelow(t, shown, p, names[..i + 1]))
  {
    hide Looks, Under, InOrder, DirMap, ResolvableUnder, OthersIn, Sub, Msg, ShownBelow, NextDir, DirNames;
    MatchesMeans(c, lookup, t, out, p, dir, target, shown);
    DirKid(c, lookup, t, p, i);
    var names := DirNames(c, t, p);
    MatchesName(c, lookup, t, out, p, dir, target, shown, i);
    assert target + [dir.directories[i].name] == out + Child(p, names[i]);
    if IsDir(t, Child(p, names[i])) { DescendingTo(c, t, shown, p, i); }
  }

  /** The files and links of the directory itself, once everything below is placed. */
  lemma MatchesHere(c: Codec, lookup: map<string, Directory>, t: Skel, out: Path, p: Path, dir: Directory,
      target: Path, shown: set<Path>)
    requires Matches(c, lookup, t, out, p, dir, target, shown)
    ensures var now := ShownBelow(t, shown, p, DirNames(c, t, p));
      && IsDir(t, p)
      && LinksReady(t, p, now)
      && now + KidPaths(p, LinkMap(Sub(t, p).value).Keys) == shown + OthersIn(t, Under(t, p))
    ensures DirNames(c, t, p)[..|DirNames(c, t, p)|] == DirNames(c, t, p)
    ensures FilesNamed(dir) <==> FilesDigested(t, KidPaths(p, FileMap(Sub(t, p).value).Keys))
    ensures ResolvableUnder(t, p) ==> FilesNamed(dir)
  {
    hide Looks, Under, InOrder, DirMap, OthersIn, Sub, Msg, NextDir, DirNames, FileMap, LinkMap, KidPaths,
      ResolvableUnder, FilesNamed, FilesDigested, BelowNames;
    AllParts(c, t, shown, p);
    CanonicalFilesNamed(c, t, p);
    if ResolvableUnder(t, p) { ResolvableHere(c, t, p); }
  }

  lemma MatchesFiles(c: Codec, lookup: map<string, Directory>, t: Skel, out: Path, p: Path, dir: Directory,
      target: Path, shown: set<Path>, targets: seq<Target>, met: seq<Path>, here: seq<Target>)
    requires Matches(c, lookup, t, out, p, dir, target, shown) && FilesNamed(dir) && TargetsOf(dir, target, here)
    requires IsDir(t, p) && Placed(c, t, out, p, |DirNames(c, t, p)|, targets, met)
    ensures TargetsFor(t, out, targets + here, met + KidFiles(t, p))
    ensures Enumerates(met + KidFiles(t, p), FilesIn(t, Under(t, p))) && ResolvableUnder(t, p)
  {
    hide Looks, Under, Sub, Msg, NextDir, DirNames, FileMap, KidPaths, KidFiles, Placed, TargetsFor, Enumerates,
      FilesIn, ResolvableUnder, FilesNamed, FilesDigested, TargetsOf;
    CanonicalFilesNamed(c, t, p);
    assert Tidy(t);
    CanonicalTargets(c, t, out, p, here);
    PlacedAll(c, t, out, p, targets, met, here);
  }

  /** The directories that a lookup has. */
  ghost function LookedUpIn(lookup: map<string, Directory>): string -> Option<Directory> {
    (h: string) => if h in lookup then Some(lookup[h]) else None
  }

  lemma OnPlanMeans(plan: Plan, dir: Directory, target: Route)
    requires OnPlan(plan, dir, target)
    ensures Orderly(plan) && Planned(plan, target) && PlanAt(plan, target) != FoundLink && TargetsPlanned(plan, [])
  {
  }

  lemma ChildOnPlan(plan: Plan, lookup: map<string, Directory>, dir: Directory, target: Route, i: nat)
    requires OnPlan(plan, dir, target) && plan.below == LookedUpIn(lookup)
    requires i < |dir.directories| && Resolves(lookup, dir.directories[i])
    ensures OnPlan(plan, lookup[dir.directories[i].digest.value.hash], JoinedTo(target, dir.directories[i].name))
  {
    hide Planned, PlanAt, JoinedTo;
    PlannedKid(plan, target, dir, i);
    JoinedName(target, dir.directories[i].name);
  }

  lemma FilesOnPlan(plan: Plan, dir: Directory, target: Route, targets: seq<Target>, more: seq<Target>)
    requires OnPlan(plan, dir, target) && TargetsOf(dir, target, more) && TargetsPlanned(plan, targets)
    ensures TargetsPlanned(plan, targets + more)
  {
    hide Planned, PlanAt, JoinedTo;
    forall i | 0 <= i < |more| ensures TargetPlanned(plan, more[i]) {
      PlannedKid(plan, target, dir, i);
      JoinedName(target, dir.files[i].name);
    }
  }

  lemma TargetsPlannedJoin(plan: Plan, targets: seq<Target>, more: seq<Target>)
    requires TargetsPlanned(plan, targets) && TargetsPlanned(plan, more)
    ensures TargetsPlanned(plan, targets + more)
  {
    hide TargetPlanned;
  }

  /** Makes the directories and links at and below `target`, and collects the files to write.
      If the message is planned, then nothing happens that is not planned. */
  method Materialize(ghost c: Codec, files: Files, dir: Directory, target: Route, lookup: map<string, Directory>,
      ghost plan: Plan, ghost n: nat, ghost before: map<Path, Entry>, ghost out: Path, ghost blobs: map<string, Bytes>,
      ghost t: Skel, ghost p: Path, ghost shown: set<Path>)
    returns (r: Result<seq<Target>, Error>, ghost met: seq<Path>)
    requires Rooted(files.entries) && ShallowIn(lookup, dir, n)
    modifies files
    ensures Rooted(files.entries)
    ensures OnPlan(plan, dir, target) && plan.below == LookedUpIn(lookup) && old(Clear(plan, files.entries)) ==>
      && WithinPlan(plan, old(files.entries), files.entries)
      && (r.Ok? ==> TargetsPlanned(plan, r.value))
    ensures Matches(c, lookup, t, out, p, dir, target, shown) ==>
      && (r.Ok? ==> ResolvableUnder(t, p))
      && (r.Ok? ==> TargetsFor(t, out, r.value, met) && Enumerates(met, FilesIn(t, Under(t, p))))
      && (old(Rebuilding(before, files.entries, out, blobs, t, shown)) ==>
           && (r.Ok? <==> ResolvableUnder(t, p))
           && (r.Ok? ==> Rebuilding(before, files.entries, out, blobs, t, shown + OthersIn(t, Under(t, p)))))
    decreases n
  {
    hide Rebuilding, Rooted, KidPaths, Under, OthersIn, FileMap, LinkMap, KidFiles, FilesIn, ResolvableUnder, NextDir,
      Enumerates, TargetsFor, FilesDigested, Placed, DirNames, IsDir, Sub, Matches, WithinPlan, TargetsPlanned,
      ShallowIn, AtDir, LinksReady, FilesNamed, TargetsOf, ShownBelow, OnPlan, Orderly, Clear, Planned, PlanAt,
      JoinedTo, DirsMade, LinksMade;
    ghost var was := files.entries;
    ghost var heeds := OnPlan(plan, dir, target) && plan.below == LookedUpIn(lookup) && Clear(plan, was);
    ghost var known := Matches(c, lookup, t, out, p, dir, target, shown);
    ghost var clean := known && Rebuilding(before, files.entries, out, blobs, t, shown);
    ghost var names := [];
    met := [];
    if heeds {
      WithinPlanAlready(plan, was);
      OnPlanMeans(plan, dir, target);
    }
    if known {
      MatchesMeans(c, lookup, t, out, p, dir, target, shown);
      names := DirNames(c, t, p);
    }
    if clean { MakingNext(before, files.entries, out, blobs, t, shown, p); }
    var ok := files.CreateDirAll(target);
    if heeds { DirsOnPlan(plan, was, files.entries, target); }
    if !ok { return Err(Io), met; }
    var targets: seq<Target> := [];
    for i := 0 to |dir.directories|
      invariant Rooted(files.entries)
      invariant heeds ==> WithinPlan(plan, was, files.entries) && TargetsPlanned(plan, targets)
      invariant known ==> i <= |names| && Placed(c, t, out, p, i, targets, met)
      invariant clean ==> Rebuilding(before, files.entries, out, blobs, t, ShownBelow(t, shown, p, names[..i]))
    {
      var node := dir.directories[i];
      ghost var q, now := [], {};
      if known {
        MatchesKid(c, lookup, t, out, p, dir, target, shown, i);
        q, now := Child(p, names[i]), ShownBelow(t, shown, p, names[..i]);
      }
      if node.digest.None? || node.digest.value.hash !in lookup { return Err(MalformedTree), met; }
      ShallowNext(lookup, dir, n, i);
      ghost var more, made := [], files.entries;
      if heeds {
        WithinPlanIsClear(plan, was, made);
        ChildOnPlan(plan, lookup, dir, target, i);
      }
      var below: Result<seq<Target>, Error>;
      below, more := Materialize(c, files, lookup[node.digest.value.hash], JoinedTo(target, node.name), lookup, plan,
        n - 1, before, out, blobs, t, q, now);
      if heeds { WithinPlanOn(plan, was, made, files.entries); }
      if below.Err? { return below, met; }
      if heeds { TargetsPlannedJoin(plan, targets, below.value); }
      if known { PlacedMore(c, t, out, p, i, targets, met, below.value, more); }
      targets := targets + below.value;
      met := met + more;
    }
    if known { MatchesHere(c, lookup, t, out, p, dir, target, shown); }
    var here := FilesOf(dir, target);
    if here.Err? { return here, met; }
    if heeds { FilesOnPlan(plan, dir, target, targets, here.value); }
    if known {
      MatchesFiles(c, lookup, t, out, p, dir, target, shown, targets, met, here.value);
      MatchesAt(c, lookup, t, out, p, dir, target, shown);
      met := met + KidFiles(t, p);
    }
    targets := targets + here.value;
    ghost var made := files.entries;
    if heeds { WithinPlanIsClear(plan, was, made); }
    ok := MakeLinks(c, files, dir, target, plan, before, out, blobs, t, p, ShownBelow(t, shown, p, names));
    if heeds { WithinPlanOn(plan, was, made, files.entries); }
    if !ok { return Err(Io), met; }
    r := Ok(targets);
  }

  lemma MatchesAt(c: Codec, lookup: map<string, Directory>, t: Skel, out: Path, p: Path, dir: Directory,
      target: Path, shown: set<Path>)
    requires Matches(c, lookup, t, out, p, dir, target, shown)
    ensures AtDir(c, t, out, p, dir, target)
  {
  }

  // ---------------------------------------------------------------- download_tree

  /** Children by the hash of their encoding; of equal hashes the last one stays. */
  function LookupOf(c: Codec, children: seq<Directory>): map<string, Directory> {
    if children == [] then map[]
    else
      var last := children[|children| - 1];
      LookupOf(c, children[..|children| - 1])[c.hash(c.encodeDirectory(last)) := last]
  }

  lemma {:induction false} LookupHolds(c: Codec, children: seq<Directory>, h: string)
    ensures h in LookupOf(c, children) <==> exists d :: d in children && c.hash(c.encodeDirectory(d)) == h
    ensures h in LookupOf(c, children) ==>
      LookupOf(c, children)[h] in children && c.hash(c.encodeDirectory(LookupOf(c, children)[h])) == h
  {
    if children != [] {
      var front, last := children[..|children| - 1], children[|children| - 1];
      assert children == front + [last];
      LookupHolds(c, front, h);
    }
  }

  /** What the blob under a tree digest must hold for it to be the flattened form of `t`. */
  ghost predicate TreeDenotes(c: Codec, blobs: map<string, Bytes>, digest: Digest, t: Skel)
    requires t.SDir?
  {
    TreeMessageThere(c, blobs, digest) ==>
      var m := c.decodeTree(blobs[digest.hash]).value;
      m.root.value == Msg(c, t) && Looks(c, LookupOf(c, m.children), t)
  }

  /** Storage holds a `Tree` message with a root under the digest. */
  ghost predicate TreeMessageThere(c: Codec, blobs: map<string, Bytes>, digest: Digest) {
    digest.hash in blobs && HasRoot(c, blobs[digest.hash])
  }

  ghost predicate HasRoot(c: Codec, data: Bytes) {
    c.decodeTree(data).Some? && c.decodeTree(data).value.root.Some?
  }

  /** If the blob is a `Tree` message, then its directories lead nowhere deeper than `n`. */
  ghost predicate ShallowTree(c: Codec, data: Bytes, n: nat) {
    HasRoot(c, data) ==>
      ShallowIn(LookupOf(c, c.decodeTree(data).value.children), c.decodeTree(data).value.root.value, n)
  }

  lemma WholeTree(c: Codec, t: Skel, before: map<Path, Entry>, out: Path, blobs: map<string, Bytes>,
      lookup: map<string, Directory>)
    requires t.SDir? && Tidy(t)
    ensures Looks(c, lookup, t) ==> Matches(c, lookup, t, out, [], Msg(c, t), out, {})
    ensures FilesIn(t, Under(t, [])) == AllFiles(t)
    ensures {} + OthersIn(t, Under(t, [])) + AllFiles(t) == Paths(t)
    ensures FilesReady(t, {} + OthersIn(t, Under(t, [])), AllFiles(t))
    ensures ResolvableUnder(t, []) <==> Resolvable(t)
    ensures Fresh(before, out) ==> Rebuilding(before, before, out, blobs, t, {})
  {
    hide Looks, Msg, Tidy;
    NothingShown(before, out, blobs, t);
    assert out + [] == out;
    forall q | q in AllFiles(t) ensures q != [] && Parent(q) in OthersIn(t, Under(t, [])) && IsDir(t, Parent(q)) {
      PathsAreInhabited(t, q);
      if q != [] { HasDirectory(t, q); }
    }
  }

  method BuildLookup(c: Codec, children: seq<Directory>) returns (lookup: map<string, Directory>)
    ensures lookup == LookupOf(c, children)
  {
    lookup := map[];
    assert children[..0] == [];
    for i := 0 to |children|
      invariant lookup == LookupOf(c, children[..i])
    {
      assert children[..i + 1][..i] == children[..i];
      lookup := lookup[c.hash(c.encodeDirectory(children[i])) := children[i]];
    }
    assert children[..|children|] == children;
  }

  /** The digest is that of the flattened form of a tree. */
  ghost predicate FlatRootOf(c: Codec, blobs: map<string, Bytes>, t: Skel, digest: Digest) {
    t.SDir? && Tidy(t) && TreeDenotes(c, blobs, digest, t)
  }

  /** The plan of a download by tree digest. */
  ghost function TreePlan(c: Codec, blobs: map<string, Bytes>, digest: Digest, out: Path): Plan {
    var m := if digest.hash in blobs then c.decodeTree(blobs[digest.hash]) else None;
    if m.None? then Plan(LookedUpIn(map[]), None, out) else MessagePlan(c, m.value, out)
  }

  ghost function MessagePlan(c: Codec, m: TreeMessage, out: Path): Plan {
    Plan(LookedUpIn(LookupOf(c, m.children)), m.root, out)
  }

  lemma TreeOnPlan(c: Codec, m: TreeMessage, out: Path)
    requires Orderly(MessagePlan(c, m, out)) && m.root.Some?
    ensures OnPlan(MessagePlan(c, m, out), m.root.value, out)
  {
    hide Orderly;
    PlannedRoot(MessagePlan(c, m, out));
  }

  /** A flattened tree up to its file contents: directories, links and the files to write. */
  method PlaceTree(client: RemoteClient, files: Files, digest: Digest, out: Path, ghost n: nat, ghost t: Skel)
    returns (r: Result<seq<Target>, Error>, ghost met: seq<Path>)
    requires Rooted(files.entries)
    requires digest.hash in client.server.blobs ==> ShallowTree(client.server.c, client.server.blobs[digest.hash], n)
    modifies files, client.server`log
    ensures Rooted(files.entries)
    ensures var plan := TreePlan(client.server.c, client.server.blobs, digest, out);
      Orderly(plan) && old(Clear(plan, files.entries)) ==>
        && WithinPlan(plan, old(files.entries), files.entries)
        && (r.Ok? ==> TargetsPlanned(plan, r.value))
    ensures r.Ok? ==> TreeMessageThere(client.server.c, client.server.blobs, digest)
    ensures FlatRootOf(client.server.c, client.server.blobs, t, digest) ==>
      && (r.Ok? ==> Resolvable(t) && AllTargets(t, out, r.value, met))
      && (old(Fresh(files.entries, out)) ==>
           && (r.Ok? ==> Rebuilding(old(files.entries), files.entries, out, client.server.blobs, t,
                                    {} + OthersIn(t, Under(t, []))))
           && (client.server.reliable ==>
                (r.Ok? <==> TreeMessageThere(client.server.c, client.server.blobs, digest) && Resolvable(t))))
  {
    hide Rooted, Fresh, Rebuilding, Looks, Resolvable, ResolvableUnder, Under, OthersIn, FilesIn, Enumerates,
      TargetsFor, WithinPlan, Clear, Orderly, OnPlan, TargetsPlanned, Matches, ShallowIn, LookupOf, Msg, Tidy,
      LookedUpIn;
    var c := client.server.c;
    ghost var before, blobs := files.entries, client.server.blobs;
    ghost var plan := TreePlan(c, blobs, digest, out);
    ghost var heeds := Orderly(plan) && Clear(plan, before);
    met := [];
    if heeds { WithinPlanAlready(plan, before); }
    var fetched := client.DownloadBlobs([digest]);
    assert digest in [digest];
    if fetched.Err? { return Err(fetched.error), met; }
    if digest.hash !in fetched.value { return Err(BlobStatus(digest.hash)), met; }
    var decoded := c.decodeTree(fetched.value[digest.hash]);
    if decoded.None? { return Err(Decode), met; }
    var lookup := BuildLookup(c, decoded.value.children);
    if decoded.value.root.None? { return Err(MalformedTree), met; }
    if t.SDir? && Tidy(t) { WholeTree(c, t, before, out, blobs, lookup); }
    if heeds { TreeOnPlan(c, decoded.value, out); }
    r, met := Materialize(c, files, decoded.value.root.value, out, lookup, plan, n, before, out, blobs, t, [], {});
  }

  /** Rebuilds what a tree digest stands for at `out`, under the same conditions. */
  method DownloadTree(client: RemoteClient, files: Files, digest: Digest, out: Path, ghost n: nat, ghost t: Skel)
    returns (r: Result<(), Error>, ghost targets: seq<Target>)
    requires Rooted(files.entries)
    requires digest.hash in client.server.blobs ==> ShallowTree(client.server.c, client.server.blobs[digest.hash], n)
    modifies files, client.server`log
    ensures Rooted(files.entries)
    ensures Orderly(TreePlan(client.server.c, client.server.blobs, digest, out)) ==>
      old(Unlinked(files.entries, out)) ==> Confined(old(files.entries), files.entries, out)
    ensures r.Ok? ==> TreeMessageThere(client.server.c, client.server.blobs, digest)
    ensures FlatRootOf(client.server.c, client.server.blobs, t, digest) ==>
      && (r.Ok? ==> Complete(client.server.blobs, t) && FilesCollected(t, out, targets))
      && (r.Ok? && old(Fresh(files.entries, out)) ==>
           Rebuilt(old(files.entries), files.entries, out, client.server.blobs, t))
      && (r.Ok? && old(Fresh(files.entries, out)) ==> Stands(client.server.blobs, t, files.entries, out))
      && (client.server.reliable && old(Fresh(files.entries, out)) ==>
           (r.Ok? <==>
             TreeMessageThere(client.server.c, client.server.blobs, digest) && Complete(client.server.blobs, t)))
  {
    hide Rooted, AllTargets, Fresh, Shows, TargetsThere, Closed, Under, OthersIn, FilesIn, ResolvableUnder, Tidy,
      TreeMessageThere, WithinPlan, Clear, Orderly, Unlinked, TargetsPlanned, FilesFor, Complete, Resolvable,
      TreeDenotes, TreePlan, Confined, Stands;
    ghost var before := files.entries;
    ghost var plan := TreePlan(client.server.c, client.server.blobs, digest, out);
    ghost var heeds := Orderly(plan) && Unlinked(before, out);
    ghost var met;
    TreePlanOut(client.server.c, client.server.blobs, digest, out, before);
    targets := [];
    var placed: Result<seq<Target>, Error>;
    placed, met := PlaceTree(client, files, digest, out, n, t);
    ghost var now := files.entries;
    if heeds { WithinMeans(plan, before, now); }
    NotResolvable(client.server.blobs, t);
    if placed.Err? { return Err(placed.error), targets; }
    targets := placed.value;
    if FlatRootOf(client.server.c, client.server.blobs, t, digest) {
      WholeTree(client.server.c, t, before, out, client.server.blobs, map[]);
      ContentThere(client.server.blobs, t, out, targets, met);
      AllTargetsReady(t, out, targets, {} + OthersIn(t, Under(t, [])), met);
    }
    r := WriteFiles(client, files, placed.value, plan, before, out, t, {} + OthersIn(t, Under(t, [])), met,
                    AllFiles(t));
    if FlatRootOf(client.server.c, client.server.blobs, t, digest) && r.Ok? && Fresh(before, out) {
      RebuiltStands(before, files.entries, out, client.server.blobs, t);
    }
    if heeds {
      WithinPlanOn(plan, before, now, files.entries);
      WithinMeans(plan, before, files.entries);
    }
  }

  lemma TreePlanOut(c: Codec, blobs: map<string, Bytes>, digest: Digest, out: Path, before: map<Path, Entry>)
    ensures TreePlan(c, blobs, digest, out).out == out
    ensures Unlinked(before, out) ==> Clear(TreePlan(c, blobs, digest, out), before)
  {
    hide Clear;
    if Unlinked(before, out) { UnlinkedIsClear(TreePlan(c, blobs, digest, out), before); }
  }

  lemma WithinMeans(plan: Plan, before: map<Path, Entry>, after: map<Path, Entry>)
    requires WithinPlan(plan, before, after)
    ensures Confined(before, after, plan.out) && Clear(plan, after)
  {
  }

  /** A lookup that resolves a tree leads nowhere deeper than the tree is high. */
  lemma {:induction false} LookedUpIsShallow(c: Codec, lookup: map<string, Directory>, t: Skel, p: Path, n: nat)
    requires Looks(c, lookup, t) && IsDir(t, p) && Height(Sub(t, p).value) <= n
    ensures ShallowIn(lookup, Msg(c, Sub(t, p).value), n)
    decreases n
  {
    hide Looks, Msg, Sub, DirNames, Height;
    var dir := Msg(c, Sub(t, p).value);
    forall i | 0 <= i < |dir.directories| && Resolves(lookup, dir.directories[i])
      ensures n > 0 && ShallowIn(lookup, lookup[dir.directories[i].digest.value.hash], n - 1)
    {
      LookedUpKid(c, lookup, t, p, i);
      LookedUpIsShallow(c, lookup, t, Child(p, DirNames(c, t, p)[i]), n - 1);
    }
  }

  lemma LookedUpKid(c: Codec, lookup: map<string, Directory>, t: Skel, p: Path, i: nat)
    requires Looks(c, lookup, t) && IsDir(t, p) && i < |Msg(c, Sub(t, p).value).directories|
    requires Resolves(lookup, Msg(c, Sub(t, p).value).directories[i])
    ensures i < |DirNames(c, t, p)|
    ensures var q := Child(p, DirNames(c, t, p)[i]);
      && IsDir(t, q) && Height(Sub(t, q).value) < Height(Sub(t, p).value)
      && lookup[Msg(c, Sub(t, p).value).directories[i].digest.value.hash] == Msg(c, Sub(t, q).value)
  {
    hide Looks, Msg, DirMap, InOrder;
    KidCounts(c, t, p);
    DirKid(c, lookup, t, p, i);
    var q := Child(p, DirNames(c, t, p)[i]);
    KidAt(t, p, q);
  }

  /** So the flattened form of a tree meets the demand of a download. */
  lemma FlatRootIsShallow(c: Codec, blobs: map<string, Bytes>, t: Skel, digest: Digest)
    requires FlatRootOf(c, blobs, t, digest) && digest.hash in blobs
    ensures ShallowTree(c, blobs[digest.hash], Height(t))
  {
    hide Msg, Looks, ShallowIn;
    assert IsDir(t, []) && Sub(t, []).value == t;
    if HasRoot(c, blobs[digest.hash]) {
      LookedUpIsShallow(c, LookupOf(c, c.decodeTree(blobs[digest.hash]).value.children), t, [], Height(t));
    }
  }

  // ---------------------------------------------------------------- breadth first against depth first

  /** However it was rebuilt, the file system is the same. */
  lemma RebuiltIsDetermined(before: map<Path, Entry>, a: map<Path, Entry>, b: map<Path, Entry>, out: Path,
      blobs: map<string, Bytes>, t: Skel)
    requires Rebuilt(before, a, out, blobs, t) && Rebuilt(before, b, out, blobs, t)
    ensures a == b
  {
    forall q ensures Get(a, q) == Get(b, q) {
      assert Get(a, q) == Seen(before, out, blobs, t, Paths(t), q);
    }
    forall q ensures q in a <==> q in b {
      assert Get(a, q) == Get(b, q);
    }
    forall q | q in a ensures a[q] == b[q] {
      assert Get(a, q) == Get(b, q);
    }
  }

  /** Two traversals collect the same targets, up to order. */
  lemma {:induction false} SameTargets(t: Skel, out: Path, a: seq<Target>, ps: seq<Path>, b: seq<Target>, qs: seq<Path>,
      all: set<Path>)
    requires Enumerates(ps, all) && TargetsFor(t, out, a, ps)
    requires Enumerates(qs, all) && TargetsFor(t, out, b, qs)
    ensures multiset(a) == multiset(b)
  {
    hide TargetsFor, Enumerates, Sub;
    SameEmptiness(ps, qs, all);
    TargetCounts(t, out, a, ps);
    TargetCounts(t, out, b, qs);
    if ps != [] {
      var j := WhereListed(ps, qs, all);
      EnumeratesWithout(ps, all, 0);
      EnumeratesWithout(qs, all, j);
      TargetsWithout(t, out, a, ps, 0);
      TargetsWithout(t, out, b, qs, j);
      SameTargets(t, out, Without(a, 0), Without(ps, 0), Without(b, j), Without(qs, j), all - {ps[0]});
      TakeOut(a, 0);
      TakeOut(b, j);
    }
  }

  function Without<T>(s: seq<T>, j: nat): seq<T>
    requires j < |s|
  {
    s[..j] + s[j + 1..]
  }

  lemma TargetCounts(t: Skel, out: Path, a: seq<Target>, ps: seq<Path>)
    requires TargetsFor(t, out, a, ps)
    ensures |a| == |ps|
  {
  }

  lemma SameEmptiness(ps: seq<Path>, qs: seq<Path>, all: set<Path>)
    requires Enumerates(ps, all) && Enumerates(qs, all)
    ensures ps == [] <==> qs == []
  {
    assert ps != [] ==> ps[0] in qs;
    assert qs != [] ==> qs[0] in ps;
  }

  lemma WhereListed(ps: seq<Path>, qs: seq<Path>, all: set<Path>) returns (j: nat)
    requires Enumerates(ps, all) && Enumerates(qs, all) && ps != []
    ensures j < |qs| && qs[j] == ps[0]
  {
    assert ps[0] in qs;
    j :| 0 <= j < |qs| && qs[j] == ps[0];
  }

  lemma TakeOut<T>(s: seq<T>, j: nat)
    requires j < |s|
    ensures multiset(s) == multiset(Without(s, j)) + multiset{s[j]}
  {
    assert s == s[..j] + [s[j]] + s[j + 1..];
  }

  lemma TargetsWithout(t: Skel, out: Path, a: seq<Target>, ps: seq<Path>, j: nat)
    requires TargetsFor(t, out, a, ps) && j < |ps|
    ensures |a| == |ps|
    ensures TargetsFor(t, out, Without(a, j), Without(ps, j))
    ensures a[j] == Target(out + ps[j], Sub(t, ps[j]).value.digest.value, Sub(t, ps[j]).value.exec)
  {
    assert TargetFor(t, out, a[j], ps[j]);
    hide TargetFor;
  }

  lemma EnumeratesWithout(s: seq<Path>, all: set<Path>, j: nat)
    requires Enumerates(s, all) && j < |s|
    ensures Enumerates(Without(s, j), all - {s[j]})
  {
    var u := s[..j] + s[j + 1..];
    forall i ensures 0 <= i < |u| ==> u[i] == s[if i < j then i else i + 1] {}
    forall q ensures q in u <==> q in all - {s[j]} {
      if q in all && q != s[j] {
        assert q in s;
        var i :| 0 <= i < |s| && s[i] == q;
        assert u[if i < j then i else i - 1] == q;
      }
    }
  }
}
