/** The file system as the tools write to it. */
module FileSystem {
  import opened Names
  import opened Messages
  import opened FlatTree
  import opened PathText
  import opened Disk

  ghost function Get(entries: map<Path, Entry>, q: Path): Option<Entry> {
    if q in entries then Some(entries[q]) else None
  }

  /** The root exists, everything is in a directory under a proper name, and links lead somewhere.
      The root is also the working directory. */
  ghost predicate Rooted(entries: map<Path, Entry>) {
    && Get(entries, []) == Some(EDir)
    && (forall q :: q in entries && q != [] ==> Get(entries, Parent(q)) == Some(EDir) && Proper(Last(q)))
    && (forall q :: q in entries && entries[q].ELink? ==> entries[q].target != "")
  }

  // ---------------------------------------------------------------- following a path

  /** Where a path leads: a place, at which there may be nothing yet, or nowhere, since something on
      the way is missing or no directory. */
  datatype Place = Reached(path: Path) | Missing | Blocked

  /** How many links the system follows before it gives up. */
  const MAX_LINKS: nat := 40

  /** Follows a route from a directory, through links, the last one included. */
  function Follow(entries: map<Path, Entry>, here: Path, route: Route, links: nat): Place
    decreases links, |route|
  {
    if route == [] then Reached(here)
    else if here !in entries then Missing
    else if entries[here] != EDir || !IsStep(route[0]) then Blocked
    else
      var step, rest := route[0], route[1..];
      if step == "." then Follow(entries, here, rest, links)
      else if step == ".." then Follow(entries, if here == [] then [] else Parent(here), rest, links)
      else if Child(here, step) in entries && entries[Child(here, step)].ELink? then
        if links == 0 then Blocked
        else
          var target := entries[Child(here, step)].target;
          Follow(entries, if Absolute(target) then [] else here, RouteOf(target) + rest, links - 1)
      else Follow(entries, Child(here, step), rest, links)
  }

  /** The place itself that a route names, even if there is a link. */
  function Spot(entries: map<Path, Entry>, route: Route): Place {
    if route == [] then Reached([])
    else
      var last := route[|route| - 1];
      if last == "." || last == ".." then Follow(entries, [], route, MAX_LINKS)
      else
        match Follow(entries, [], route[..|route| - 1], MAX_LINKS)
        case Reached(dir) =>
          if dir !in entries then Missing
          else if entries[dir] != EDir || !IsStep(last) then Blocked
          else Reached(Child(dir, last))
        case other => other
  }

  /** A place that can be reached: something is there, or could be. */
  ghost predicate Reachable(entries: map<Path, Entry>, p: Path) {
    p in entries || (p != [] && Get(entries, Parent(p)) == Some(EDir) && Proper(Last(p)))
  }

  lemma {:induction false} FollowReaches(entries: map<Path, Entry>, here: Path, route: Route, links: nat)
    requires Rooted(entries) && Reachable(entries, here)
    ensures Follow(entries, here, route, links).Reached? ==>
      Reachable(entries, Follow(entries, here, route, links).path)
    decreases links, |route|
  {
    hide Rooted;
    RootIsThere(entries);
    if route != [] && here in entries && entries[here] == EDir && IsStep(route[0]) {
      var step, rest := route[0], route[1..];
      ParentIsThere(entries, here);
      ChildParts(here, step);
      if step == "." {
        FollowReaches(entries, here, rest, links);
      } else if step == ".." {
        FollowReaches(entries, if here == [] then [] else Parent(here), rest, links);
      } else if Child(here, step) in entries && entries[Child(here, step)].ELink? {
        if links > 0 {
          var target := entries[Child(here, step)].target;
          FollowReaches(entries, if Absolute(target) then [] else here, RouteOf(target) + rest, links - 1);
        }
      } else {
        FollowReaches(entries, Child(here, step), rest, links);
      }
    }
  }

  lemma SpotReaches(entries: map<Path, Entry>, route: Route)
    requires Rooted(entries)
    ensures Spot(entries, route).Reached? ==> Reachable(entries, Spot(entries, route).path)
  {
    RootIsThere(entries);
    hide Rooted, Follow;
    FollowReaches(entries, [], route, MAX_LINKS);
    if route != [] {
      var front := Follow(entries, [], route[..|route| - 1], MAX_LINKS);
      if front.Reached? { ChildParts(front.path, route[|route| - 1]); }
    }
  }

  lemma RootIsThere(entries: map<Path, Entry>)
    requires Rooted(entries)
    ensures Get(entries, []) == Some(EDir) && Reachable(entries, [])
  {
  }

  lemma ParentIsThere(entries: map<Path, Entry>, p: Path)
    requires Rooted(entries) && p in entries
    ensures p != [] ==> Get(entries, Parent(p)) == Some(EDir) && Reachable(entries, Parent(p))
  {
  }

  lemma NameIsProper(entries: map<Path, Entry>, p: Path)
    requires Rooted(entries) && p in entries
    ensures p != [] ==> Proper(Last(p))
    ensures entries[p].ELink? ==> entries[p].target != ""
  {
  }

  /** Whatever is put at a place that can be reached, the file system stays one. */
  lemma PutIsRooted(entries: map<Path, Entry>, p: Path, e: Entry)
    requires Rooted(entries) && Reachable(entries, p)
    requires p in entries ==> entries[p] == e || !entries[p].EDir?
    requires e.ELink? ==> e.target != ""
    ensures Rooted(entries[p := e])
  {
    var after := entries[p := e];
    forall q | q in after && q != [] ensures Get(after, Parent(q)) == Some(EDir) && Proper(Last(q)) {
      if q == p && p in entries { assert Get(entries, Parent(p)) == Some(EDir); }
      if q != p { assert Get(entries, Parent(q)) == Some(EDir); }
    }
  }

  // ---------------------------------------------------------------- plain paths

  /** `q` leads to `p`, and is not `p`. */
  predicate Leads(q: Path, p: Path) { q <= p && q != p }

  /** No link is above `p`. */
  ghost predicate Straight(entries: map<Path, Entry>, p: Path) {
    Plain(p) && forall q :: q in entries && Leads(q, p) ==> !entries[q].ELink?
  }

  /** The directories on the way. */
  ghost predicate Passable(entries: map<Path, Entry>, here: Path, route: Route) {
    forall k :: 0 <= k < |route| ==> Get(entries, here + route[..k]) == Some(EDir)
  }

  ghost predicate NoLinks(entries: map<Path, Entry>, here: Path, route: Route) {
    forall k :: 0 < k <= |route| && here + route[..k] in entries ==> !entries[here + route[..k]].ELink?
  }

  lemma {:induction false} FollowPlain(entries: map<Path, Entry>, here: Path, route: Route, links: nat)
    requires Plain(route) && NoLinks(entries, here, route)
    ensures Follow(entries, here, route, links).Reached? <==> Passable(entries, here, route)
    ensures Follow(entries, here, route, links).Reached? ==>
      Follow(entries, here, route, links) == Reached(here + route)
    decreases |route|
  {
    if route == [] {
      assert here + route == here;
    } else {
      var step, rest := route[0], route[1..];
      assert step in route;
      assert here + route[..0] == here && here + route[..1] == Child(here, step);
      forall k | 0 <= k <= |rest| ensures Child(here, step) + rest[..k] == here + route[..k + 1] {
      }
      if Get(entries, here) == Some(EDir) {
        FollowPlain(entries, Child(here, step), rest, links);
        assert Child(here, step) + rest == here + route;
        if Passable(entries, Child(here, step), rest) {
          forall k | 0 <= k < |route| ensures Get(entries, here + route[..k]) == Some(EDir) {
            if k > 0 { assert Child(here, step) + rest[..k - 1] == here + route[..k]; }
          }
        }
        if Passable(entries, here, route) {
          forall k | 0 <= k < |rest| ensures Get(entries, Child(here, step) + rest[..k]) == Some(EDir) {
            assert Child(here, step) + rest[..k] == here + route[..k + 1];
          }
        }
      }
    }
  }

  lemma PassableMeans(entries: map<Path, Entry>, p: Path)
    requires Rooted(entries)
    ensures Passable(entries, [], p) <==> p == [] || Get(entries, Parent(p)) == Some(EDir)
  {
    hide Rooted;
    if p != [] {
      var n := |p| - 1;
      assert [] + p[..n] == Parent(p);
      if Get(entries, Parent(p)) == Some(EDir) {
        forall k | 0 <= k < |p| ensures Get(entries, [] + p[..k]) == Some(EDir) {
          assert [] + p[..k] == p[..k];
          if k < n {
            PrefixIsSlice(p[..k], Parent(p));
            PrefixInRooted(entries, p[..k], Parent(p));
          }
        }
      }
    }
  }

  lemma NoLinksTo(entries: map<Path, Entry>, p: Path)
    requires Straight(entries, p) && (p in entries ==> !entries[p].ELink?)
    ensures NoLinks(entries, [], p)
  {
    forall k | 0 < k <= |p| && [] + p[..k] in entries ensures !entries[[] + p[..k]].ELink? {
      assert [] + p[..k] == p[..k] && p[..k] <= p;
      assert p[..k] == p || Leads(p[..k], p);
    }
  }

  /** A plain path leads where it says, unless a link is on the way. */
  lemma FollowStraight(entries: map<Path, Entry>, p: Path)
    requires Rooted(entries) && Straight(entries, p) && (p in entries ==> !entries[p].ELink?)
    ensures Follow(entries, [], p, MAX_LINKS).Reached? <==> p == [] || Get(entries, Parent(p)) == Some(EDir)
    ensures Follow(entries, [], p, MAX_LINKS).Reached? ==> Follow(entries, [], p, MAX_LINKS) == Reached(p)
  {
    hide Rooted, Follow, Straight, NoLinks, Passable;
    NoLinksTo(entries, p);
    StraightIsPlain(entries, p);
    FollowPlain(entries, [], p, MAX_LINKS);
    PassableMeans(entries, p);
    assert [] + p == p;
  }

  lemma StraightIsPlain(entries: map<Path, Entry>, p: Path)
    requires Straight(entries, p)
    ensures Plain(p)
    ensures p != [] ==>
      && Straight(entries, Parent(p)) && (Parent(p) in entries ==> !entries[Parent(p)].ELink?)
      && Proper(Last(p))
  {
    if p != [] {
      assert Leads(Parent(p), p);
      assert Last(p) in p;
      forall s | s in Parent(p) ensures s in p {}
      forall q | Leads(q, Parent(p)) ensures Leads(q, p) {
        PrefixIsSlice(q, Parent(p));
        PrefixIsSlice(q, p);
      }
    }
  }

  /** The same of the place it names, even if there is a link. */
  lemma SpotStraight(entries: map<Path, Entry>, p: Path)
    requires Rooted(entries) && Straight(entries, p)
    ensures Spot(entries, p).Reached? <==> p == [] || Get(entries, Parent(p)) == Some(EDir)
    ensures Spot(entries, p).Reached? ==> Spot(entries, p) == Reached(p)
  {
    hide Rooted, Follow, Straight;
    StraightIsPlain(entries, p);
    RootIsThere(entries);
    if p != [] {
      FollowStraight(entries, Parent(p));
      ChildOfParent(p);
      if Get(entries, Parent(p)).Some? && Parent(p) != [] { ParentIsThere(entries, Parent(p)); }
    }
  }

  /** What is there is reached by its own path. */
  lemma SpotOfEntry(entries: map<Path, Entry>, p: Path)
    requires Rooted(entries) && Plain(p) && p in entries
    ensures Straight(entries, p) && Spot(entries, p) == Reached(p)
  {
    hide Rooted, Spot;
    forall q | q in entries && Leads(q, p) ensures !entries[q].ELink? {
      PrefixInRooted(entries, q, p);
    }
    SpotStraight(entries, p);
    ParentIsThere(entries, p);
  }

  /** Nothing that stands in a directory is beyond a link. */
  lemma StraightInDirectory(entries: map<Path, Entry>, p: Path)
    requires Rooted(entries) && Plain(p) && p != [] && Get(entries, Parent(p)) == Some(EDir)
    ensures Straight(entries, p)
  {
    hide Rooted;
    forall q | q in entries && Leads(q, p) ensures !entries[q].ELink? {
      PrefixIsSlice(q, p);
      PrefixIsSlice(q, Parent(p));
      if q != Parent(p) { PrefixInRooted(entries, q, Parent(p)); }
    }
  }

  // ---------------------------------------------------------------- what the operations do

  /** `create_dir`, unless there is a directory: a link to one will do. */
  function DirMade(entries: map<Path, Entry>, route: Route): Option<map<Path, Entry>> {
    match Follow(entries, [], route, MAX_LINKS)
    case Reached(p) => if p in entries && entries[p] == EDir then Some(entries) else NewDir(entries, route)
    case _ => NewDir(entries, route)
  }

  function NewDir(entries: map<Path, Entry>, route: Route): Option<map<Path, Entry>> {
    match Spot(entries, route)
    case Reached(p) => if p in entries then None else Some(entries[p := EDir])
    case _ => None
  }

  /** `create_dir_all`: one directory after the other along the route. */
  function DirsMade(entries: map<Path, Entry>, route: Route): Option<map<Path, Entry>> {
    if route == [] then Some(entries)
    else
      match DirsMade(entries, route[..|route| - 1])
      case None => None
      case Some(made) => DirMade(made, route)
  }

  /** Where `fs::write` puts a file. */
  function FilePlace(entries: map<Path, Entry>, route: Route): Option<Path> {
    match Follow(entries, [], route, MAX_LINKS)
    case Reached(p) => if p in entries && !entries[p].EFile? then None else Some(p)
    case _ => None
  }

  /** Where `symlink` puts a link. */
  function LinkPlace(entries: map<Path, Entry>, route: Route): Option<Path> {
    match Spot(entries, route)
    case Reached(p) => if p in entries then None else Some(p)
    case _ => None
  }

  lemma DirMadeIsRooted(entries: map<Path, Entry>, route: Route)
    requires Rooted(entries)
    ensures DirMade(entries, route).Some? ==> Rooted(DirMade(entries, route).value)
  {
    hide Rooted, Follow, Spot;
    SpotReaches(entries, route);
    if NewDir(entries, route).Some? { PutIsRooted(entries, Spot(entries, route).path, EDir); }
  }

  lemma {:induction false} DirsMadeIsRooted(entries: map<Path, Entry>, route: Route)
    requires Rooted(entries)
    ensures DirsMade(entries, route).Some? ==> Rooted(DirsMade(entries, route).value)
  {
    hide Rooted, DirMade;
    if route != [] && DirsMade(entries, route[..|route| - 1]).Some? {
      DirsMadeIsRooted(entries, route[..|route| - 1]);
      DirMadeIsRooted(DirsMade(entries, route[..|route| - 1]).value, route);
    }
  }

  /** All directories that lead to `p`, and `p` itself. */
  ghost predicate MadeTo(before: map<Path, Entry>, after: map<Path, Entry>, p: Path) {
    forall q :: Get(after, q) == if q <= p then Some(EDir) else Get(before, q)
  }

  /** One directory, made along a plain path without links. */
  lemma DirMadeStraight(entries: map<Path, Entry>, p: Path)
    requires Rooted(entries) && Straight(entries, p) && (p in entries ==> !entries[p].ELink?)
    requires p == [] || Get(entries, Parent(p)) == Some(EDir)
    ensures DirMade(entries, p).Some? <==> (p in entries ==> entries[p] == EDir)
    ensures DirMade(entries, p).Some? ==> DirMade(entries, p).value == entries[p := EDir]
  {
    hide Rooted, Follow, Spot, Straight;
    FollowStraight(entries, p);
    SpotStraight(entries, p);
    if p in entries && entries[p] == EDir { assert entries[p := EDir] == entries; }
  }

  lemma UpToParent(q: Path, p: Path)
    requires p != []
    ensures q <= p <==> q <= Parent(p) || q == p
  {
    PrefixIsSlice(q, p);
    PrefixIsSlice(q, Parent(p));
  }

  /** `create_dir_all` along a plain path without links. */
  lemma {:induction false} DirsMadeStraight(entries: map<Path, Entry>, p: Path)
    requires Rooted(entries) && Straight(entries, p) && (p in entries ==> !entries[p].ELink?)
    ensures DirsMade(entries, p).Some? <==> forall q :: q in entries && q <= p ==> entries[q] == EDir
    ensures DirsMade(entries, p).Some? ==> MadeTo(entries, DirsMade(entries, p).value, p)
  {
    hide Rooted, DirMade, Straight;
    RootIsThere(entries);
    if p != [] {
      var front := Parent(p);
      StraightIsPlain(entries, p);
      assert p[..|p| - 1] == front;
      DirsMadeStraight(entries, front);
      forall q | q in entries && q <= p ensures q <= front || q == p { UpToParent(q, p); }
      UpToParent(front, p);
      forall q | q in entries && q <= front ensures q <= p { UpToParent(q, p); }
      if DirsMade(entries, front).Some? {
        var made := DirsMade(entries, front).value;
        DirsMadeIsRooted(entries, front);
        MadeIsStraight(entries, made, p);
        DirMadeStraight(made, p);
        if DirMade(made, p).Some? { MadeOneMore(entries, made, p); }
      }
    }
  }

  lemma MadeOneMore(entries: map<Path, Entry>, made: map<Path, Entry>, p: Path)
    requires p != [] && MadeTo(entries, made, Parent(p))
    ensures MadeTo(entries, made[p := EDir], p)
  {
    var after := made[p := EDir];
    forall q ensures Get(after, q) == if q <= p then Some(EDir) else Get(entries, q) {
      UpToParent(q, p);
      assert Get(made, q) == if q <= Parent(p) then Some(EDir) else Get(entries, q);
    }
  }

  lemma MadeIsStraight(entries: map<Path, Entry>, made: map<Path, Entry>, p: Path)
    requires Straight(entries, p) && p != [] && MadeTo(entries, made, Parent(p))
    ensures Straight(made, p) && Get(made, Parent(p)) == Some(EDir) && Get(made, p) == Get(entries, p)
  {
    forall q | q in made && Leads(q, p) ensures !made[q].ELink? {
      assert Get(made, q) == if q <= Parent(p) then Some(EDir) else Get(entries, q);
    }
    assert Get(made, Parent(p)) == Some(EDir);
    assert !(p <= Parent(p));
  }

  /** However far `create_dir_all` came along such a path, it made directories and nothing else. */
  lemma MadeSomeStraight(entries: map<Path, Entry>, p: Path, k: nat, after: map<Path, Entry>)
    requires Rooted(entries) && Straight(entries, p) && (p in entries ==> !entries[p].ELink?)
    requires k <= |p| && DirsMade(entries, p[..k]) == Some(after)
    ensures forall q :: Get(after, q) == Get(entries, q) || (q <= p && Get(after, q) == Some(EDir))
  {
    hide DirsMade, Rooted;
    var front := p[..k];
    assert front <= p;
    forall s | s in front ensures s in p {}
    forall q | q <= front ensures q <= p && (q != p ==> Leads(q, p)) {
      PrefixIsSlice(q, front);
      PrefixIsSlice(q, p);
    }
    DirsMadeStraight(entries, front);
    forall q ensures Get(after, q) == Get(entries, q) || (q <= p && Get(after, q) == Some(EDir)) {
      assert Get(after, q) == if q <= front then Some(EDir) else Get(entries, q);
    }
  }

  /** Where a file goes along a plain path without links. */
  lemma FilePlaceStraight(entries: map<Path, Entry>, p: Path)
    requires Rooted(entries) && Straight(entries, p) && (p in entries ==> !entries[p].ELink?)
    ensures FilePlace(entries, p).Some? <==>
      && p != []
      && Get(entries, Parent(p)) == Some(EDir)
      && (p in entries ==> entries[p].EFile?)
    ensures FilePlace(entries, p).Some? ==> FilePlace(entries, p) == Some(p)
  {
    hide Follow, Straight;
    FollowStraight(entries, p);
  }

  lemma LinkPlaceStraight(entries: map<Path, Entry>, p: Path)
    requires Rooted(entries) && Straight(entries, p)
    ensures LinkPlace(entries, p).Some? <==> p != [] && p !in entries && Get(entries, Parent(p)) == Some(EDir)
    ensures LinkPlace(entries, p).Some? ==> LinkPlace(entries, p) == Some(p)
  {
    hide Spot, Straight;
    SpotStraight(entries, p);
  }

  /** A link is followed: the file goes where it leads. */
  lemma LinkIsFollowed(entries: map<Path, Entry>, p: Path, target: string)
    requires Rooted(entries) && Plain(p) && Get(entries, p) == Some(ELink(target))
    ensures p != [] && Follow(entries, [], p, MAX_LINKS) ==
      Follow(entries, if Absolute(target) then [] else Parent(p), RouteOf(target), MAX_LINKS - 1)
  {
    hide Rooted, Follow, Spot, Straight, RouteOf;
    RootIsThere(entries);
    ParentIsThere(entries, p);
    SpotOfEntry(entries, p);
    StraightIsPlain(entries, p);
    ChildOfParent(p);
    FollowFrom(entries, Parent(p), [Last(p)]);
    FollowLink(entries, Parent(p), Last(p), MAX_LINKS);
  }

  lemma FollowLink(entries: map<Path, Entry>, here: Path, name: string, links: nat)
    requires Get(entries, here) == Some(EDir) && Proper(name) && links > 0
    requires Child(here, name) in entries && entries[Child(here, name)].ELink?
    ensures var target := entries[Child(here, name)].target;
      Follow(entries, here, [name], links) ==
        Follow(entries, if Absolute(target) then [] else here, RouteOf(target), links - 1)
  {
    hide RouteOf;
    var target := entries[Child(here, name)].target;
    assert RouteOf(target) + [name][1..] == RouteOf(target);
  }

  /** Names in the root, each a link to the next, the last one a file. */
  ghost predicate Chain(entries: map<Path, Entry>, names: seq<string>) {
    && names != [] && Get(entries, []) == Some(EDir)
    && (forall i :: 0 <= i < |names| ==> Proper(names[i]))
    && (forall i :: 0 <= i < |names| - 1 ==> Get(entries, [names[i]]) == Some(ELink(names[i + 1])))
    && [names[|names| - 1]] in entries && entries[[names[|names| - 1]]].EFile?
  }

  lemma {:induction false} FollowChain(entries: map<Path, Entry>, names: seq<string>, links: nat)
    requires Chain(entries, names)
    ensures Follow(entries, [], [names[0]], links) ==
      if |names| - 1 <= links then Reached([names[|names| - 1]]) else Blocked
    decreases |names|
  {
    hide RouteOf;
    assert Child([], names[0]) == [names[0]];
    if |names| == 1 {
      FollowStep(entries, [], [names[0]], links);
    } else if links > 0 {
      RouteOfName(names[1]);
      FollowLink(entries, [], names[0], links);
      FollowChain(entries, names[1..], links - 1);
    }
  }

  /** A file is written through a chain of at most 40 links, and through no longer one. */
  lemma ChainIsFollowedExactly(entries: map<Path, Entry>, names: seq<string>)
    requires Chain(entries, names)
    ensures FilePlace(entries, [names[0]]) == if |names| <= 41 then Some([names[|names| - 1]]) else None
  {
    FollowChain(entries, names, MAX_LINKS);
  }

  lemma FollowStep(entries: map<Path, Entry>, here: Path, route: Route, links: nat)
    requires route != [] && Proper(route[0]) && Get(entries, here) == Some(EDir)
    requires Child(here, route[0]) in entries ==> !entries[Child(here, route[0])].ELink?
    ensures Follow(entries, here, route, links) == Follow(entries, Child(here, route[0]), route[1..], links)
  {
  }

  /** A plain path that can be passed is passed. */
  lemma {:induction false} FollowThrough(entries: map<Path, Entry>, here: Path, route: Route, rest: Route, links: nat)
    requires Plain(route) && NoLinks(entries, here, route) && Passable(entries, here, route)
    ensures Follow(entries, here, route + rest, links) == Follow(entries, here + route, rest, links)
    decreases |route|
  {
    hide Follow, Proper;
    if route == [] {
      assert route + rest == rest && here + route == here;
    } else {
      var step, more := route[0], route[1..];
      assert step in route;
      assert here + route[..0] == here && here + route[..1] == Child(here, step);
      assert (route + rest)[0] == step && (route + rest)[1..] == more + rest;
      forall k | 0 <= k <= |more| ensures Child(here, step) + more[..k] == here + route[..k + 1] {
      }
      FollowStep(entries, here, route + rest, links);
      FollowThrough(entries, Child(here, step), more, rest, links);
      assert Child(here, step) + more == here + route;
    }
  }

  /** The same of a plain path to what is there, and no link. */
  lemma FollowFrom(entries: map<Path, Entry>, p: Path, rest: Route)
    requires Rooted(entries) && Plain(p) && p in entries && !entries[p].ELink?
    ensures Follow(entries, [], p + rest, MAX_LINKS) == Follow(entries, p, rest, MAX_LINKS)
  {
    hide Rooted, Follow, Spot, NoLinks, Passable, Straight;
    SpotOfEntry(entries, p);
    NoLinksTo(entries, p);
    PassableMeans(entries, p);
    ParentIsThere(entries, p);
    FollowThrough(entries, [], p, rest, MAX_LINKS);
    assert [] + p == p;
  }

  /** A file that has been put in its place is found there. */
  lemma {:induction false} FollowAgain(entries: map<Path, Entry>, here: Path, route: Route, links: nat, p: Path,
      file: Entry)
    requires (p in entries ==> entries[p].EFile?) && file.EFile?
    requires Follow(entries, here, route, links).Reached?
    ensures Follow(entries[p := file], here, route, links) == Follow(entries, here, route, links)
    decreases links, |route|
  {
    if route != [] && here in entries && entries[here] == EDir && IsStep(route[0]) {
      var step, rest := route[0], route[1..];
      if step == "." {
        FollowAgain(entries, here, rest, links, p, file);
      } else if step == ".." {
        FollowAgain(entries, if here == [] then [] else Parent(here), rest, links, p, file);
      } else if Child(here, step) in entries && entries[Child(here, step)].ELink? {
        if links > 0 {
          var target := entries[Child(here, step)].target;
          FollowAgain(entries, if Absolute(target) then [] else here, RouteOf(target) + rest, links - 1, p, file);
        }
      } else {
        FollowAgain(entries, Child(here, step), rest, links, p, file);
      }
    }
  }

  // ---------------------------------------------------------------- fresh places

  /** Nothing is in the way of making `out` a new directory: it is absent or empty, and no link
      leads there. */
  ghost predicate Fresh(entries: map<Path, Entry>, out: Path) {
    && Plain(out)
    && (forall q :: q in entries && q <= out ==> entries[q] == EDir)
    && (forall q :: q in entries ==> !(out <= q && q != out))
  }

  /** Nothing has changed but what is at or below `out`, and that directories lead to it. */
  ghost predicate Confined(before: map<Path, Entry>, after: map<Path, Entry>, out: Path) {
    forall q :: !(out <= q) ==> Get(after, q) == Get(before, q) || (q <= out && Get(after, q) == Some(EDir))
  }

  lemma ConfinedStep(a: map<Path, Entry>, b: map<Path, Entry>, d: map<Path, Entry>, out: Path, target: Path)
    requires Confined(a, b, out) && Confined(b, d, target) && out <= target
    ensures Confined(a, d, out)
  {
    forall q | !(out <= q) ensures Get(d, q) == Get(a, q) || (q <= out && Get(d, q) == Some(EDir)) {
      assert !(target <= q);
      PrefixIsSlice(q, target);
      PrefixIsSlice(out, target);
      PrefixIsSlice(q, out);
      PrefixIsSlice(out, q);
      assert Get(b, q) == Get(a, q) || (q <= out && Get(b, q) == Some(EDir));
      assert Get(d, q) == Get(b, q) || (q <= target && Get(d, q) == Some(EDir));
    }
  }

  lemma NothingChanged(a: map<Path, Entry>, out: Path)
    ensures Confined(a, a, out)
  {
  }

  lemma PutConfined(a: map<Path, Entry>, b: map<Path, Entry>, p: Path, e: Entry)
    requires b == a || b == a[p := e]
    ensures Confined(a, b, p)
  {
  }

  lemma {:induction false} PrefixInRooted(entries: map<Path, Entry>, q: Path, p: Path)
    requires Rooted(entries) && p in entries && q <= p && q != p
    ensures Get(entries, q) == Some(EDir)
    decreases |p|
  {
    PrefixIsSlice(q, p);
    PrefixIsSlice(q, Parent(p));
    assert Get(entries, Parent(p)) == Some(EDir);
    if q != Parent(p) { PrefixInRooted(entries, q, Parent(p)); }
  }

  // ---------------------------------------------------------------- reading a tree

  ghost predicate ListedAt(entries: map<Path, Entry>, p: Path, l: Listing, r: Path) {
    EntryAt(View(l), r) == Get(entries, p + r)
  }

  /** `l` lists what is at `p`. */
  ghost predicate Listed(entries: map<Path, Entry>, p: Path, l: Listing) {
    Genuine(l) && forall r :: ListedAt(entries, p, l, r)
  }

  lemma LeafListed(entries: map<Path, Entry>, p: Path, l: Listing)
    requires Rooted(entries) && p in entries && !l.OnDir? && EntryOf(View(l)) == entries[p]
    ensures Listed(entries, p, l)
  {
    forall r ensures ListedAt(entries, p, l, r) {
      if r == [] {
        assert p + r == p;
      } else if p + r in entries {
        PrefixInRooted(entries, p, p + r);
      }
    }
  }

  ghost predicate ItemsListed(entries: map<Path, Entry>, p: Path, es: seq<Named>) {
    DistinctNames(es) && forall i :: 0 <= i < |es| ==>
      Proper(es[i].name) && Listed(entries, Child(p, es[i].name), es[i].item)
  }

  lemma DirListed(entries: map<Path, Entry>, p: Path, es: seq<Named>, names: set<string>)
    requires Rooted(entries) && Get(entries, p) == Some(EDir)
    requires forall n :: n in names <==> Child(p, n) in entries
    requires ItemsListed(entries, p, es) && forall n :: n in names <==> HasName(es, n)
    ensures Listed(entries, p, OnDir(es))
  {
    hide View, ViewEntries, NodeAt, Rooted, Genuine;
    forall r ensures ListedAt(entries, p, OnDir(es), r) {
      if r == [] {
        assert p + r == p;
        RootEntry(es);
      } else {
        BelowListed(entries, p, es, names, r);
      }
    }
    ItemsGenuine(entries, p, es);
  }

  lemma RootEntry(es: seq<Named>)
    ensures EntryAt(View(OnDir(es)), []) == Some(EDir)
  {
  }

  lemma ItemsGenuine(entries: map<Path, Entry>, p: Path, es: seq<Named>)
    requires ItemsListed(entries, p, es)
    ensures Genuine(OnDir(es))
  {
    forall e | e in es ensures Proper(e.name) && Genuine(e.item) {
      var i :| 0 <= i < |es| && es[i] == e;
      assert Listed(entries, Child(p, es[i].name), es[i].item);
    }
  }

  lemma EntryBelow(es: seq<Named>, r: Path)
    requires r != []
    ensures EntryAt(View(OnDir(es)), r) ==
      if r[0] in ViewEntries(es) then EntryAt(ViewEntries(es)[r[0]], r[1..]) else None
  {
  }

  lemma BelowListed(entries: map<Path, Entry>, p: Path, es: seq<Named>, names: set<string>, r: Path)
    requires Rooted(entries) && r != []
    requires forall n :: n in names <==> Child(p, n) in entries
    requires ItemsListed(entries, p, es) && forall n :: n in names <==> HasName(es, n)
    ensures ListedAt(entries, p, OnDir(es), r)
  {
    hide View, ViewEntries, NodeAt, Rooted, Genuine, DistinctNames;
    var n := r[0];
    assert p + r == Child(p, n) + r[1..];
    EntryBelow(es, r);
    ViewEntriesKeys(es, n);
    if n in names {
      var i :| 0 <= i < |es| && es[i].name == n;
      ViewEntriesAt(es, i);
      assert Listed(entries, Child(p, es[i].name), es[i].item);
      assert ListedAt(entries, Child(p, n), es[i].item, r[1..]);
    } else if p + r in entries && r != [n] {
      PrefixInRooted(entries, Child(p, n), p + r);
    }
  }

  function NamesIn(entries: map<Path, Entry>, p: Path): (names: set<string>)
    ensures forall n :: n in names <==> Child(p, n) in entries
  {
    var names := set q | q in entries && q != [] && Parent(q) == p :: Last(q);
    assert forall n :: n in names <==> Child(p, n) in entries by {
      forall n ensures n in names <==> Child(p, n) in entries {
        ChildParts(p, n);
        if n in names {
          var q :| q in entries && q != [] && Parent(q) == p && Last(q) == n;
          ChildOfParent(q);
        }
      }
    }
    names
  }

  ghost function EntriesUnder(entries: map<Path, Entry>, p: Path): set<Path> { set q | q in entries && p <= q }

  lemma FewerUnder(entries: map<Path, Entry>, p: Path, n: string)
    requires p in entries
    ensures EntriesUnder(entries, Child(p, n)) < EntriesUnder(entries, p)
  {
    assert p in EntriesUnder(entries, p) && p !in EntriesUnder(entries, Child(p, n));
    forall q | q in EntriesUnder(entries, Child(p, n)) ensures p <= q {
      PrefixIsSlice(Child(p, n), q);
      PrefixIsSlice(p, q);
      assert q[..|p|] == q[..|p| + 1][..|p|];
    }
  }

  lemma ItemsListedMore(entries: map<Path, Entry>, p: Path, es: seq<Named>, e: Named)
    requires ItemsListed(entries, p, es) && Listed(entries, Child(p, e.name), e.item) && Proper(e.name)
    requires forall i :: 0 <= i < |es| ==> es[i].name != e.name
    ensures ItemsListed(entries, p, es + [e])
  {
    hide Listed;
  }

  /** What `symlink_metadata` reports: an entry, that there is none, or that something on the
      way is no directory. */
  datatype Metadata = Found(place: Path, entry: Entry) | NotFound | Unreachable

  function Lstat(entries: map<Path, Entry>, path: string): Metadata {
    if path == "" then NotFound
    else
      match Spot(entries, RouteOf(path))
      case Reached(p) => if p in entries then Found(p, entries[p]) else NotFound
      case Missing => NotFound
      case Blocked => Unreachable
  }

  class Files {
    var entries: map<Path, Entry>

    method Inspect(path: string) returns (m: Metadata)
      ensures m == Lstat(entries, path)
    {
      m := Lstat(entries, path);
    }

    /** Reads the file, link or directory at `p`, with directories in an order of its own. */
    method Read(p: Path) returns (l: Listing)
      requires Rooted(entries) && p in entries
      ensures Listed(entries, p, l)
      ensures l.OnDir? <==> entries[p] == EDir
      decreases EntriesUnder(entries, p)
    {
      hide Rooted, Listed, ItemsListed, EntriesUnder;
      match entries[p] {
        case EFile(content, mode) =>
          l := OnFile(content, mode);
          LeafListed(entries, p, l);
        case ELink(target) =>
          l := OnLink(target);
          LeafListed(entries, p, l);
        case EDir =>
          var names := NamesIn(entries, p);
          var rest := names;
          var es: seq<Named> := [];
          NoItems(entries, p);
          while rest != {}
            invariant rest <= names && ItemsListed(entries, p, es)
            invariant forall n :: HasName(es, n) <==> n in names && n !in rest
            decreases |rest|
          {
            var n :| n in rest;
            FewerUnder(entries, p, n);
            ParentIsThere(entries, Child(p, n));
            ChildParts(p, n);
            NameIsProper(entries, Child(p, n));
            assert forall i :: 0 <= i < |es| ==> HasName(es, es[i].name);
            var item := Read(Child(p, n));
            ItemsListedMore(entries, p, es, Named(n, item));
            NamesMore(es, Named(n, item));
            es := es + [Named(n, item)];
            rest := rest - {n};
          }
          DirListed(entries, p, es, names);
          l := OnDir(es);
      }
    }

    /** `create_dir_all`.  When it fails, the directories made on the way stay. */
    method CreateDirAll(route: Route) returns (ok: bool)
      requires Rooted(entries)
      modifies this
      ensures Rooted(entries)
      ensures ok <==> DirsMade(old(entries), route).Some?
      ensures ok ==> DirsMade(old(entries), route) == Some(entries)
      ensures exists k :: 0 <= k <= |route| && DirsMade(old(entries), route[..k]) == Some(entries)
    {
      hide DirMade, Rooted;
      ghost var before := entries;
      for k := 0 to |route|
        invariant Rooted(entries)
        invariant DirsMade(before, route[..k]) == Some(entries)
      {
        assert route[..k + 1][..k] == route[..k];
        var made := DirMade(entries, route[..k + 1]);
        if made.None? {
          StaysUnmade(before, route, k + 1);
          return false;
        }
        DirMadeIsRooted(entries, route[..k + 1]);
        entries := made.value;
      }
      assert route[..|route|] == route;
      ok := true;
    }

    /** `fs::write`: a new file gets the usual permissions. */
    method Write(route: Route, content: Bytes) returns (ok: bool)
      requires Rooted(entries)
      modifies this
      ensures Rooted(entries)
      ensures ok <==> FilePlace(old(entries), route).Some?
      ensures entries == if ok
        then FilePut(old(entries), FilePlace(old(entries), route).value, content)
        else old(entries)
    {
      hide Rooted, Follow;
      RootIsThere(entries);
      FollowReaches(entries, [], route, MAX_LINKS);
      var place := FilePlace(entries, route);
      if place.None? { return false; }
      var mode := if place.value in entries then entries[place.value].mode else 0x1A4;
      PutIsRooted(entries, place.value, EFile(content, mode));
      entries := entries[place.value := EFile(content, mode)];
      ok := true;
    }

    /** `fs::set_permissions` on a file. */
    method SetPermissions(route: Route, mode: nat) returns (ok: bool)
      requires Rooted(entries)
      modifies this
      ensures Rooted(entries)
      ensures var place := Follow(old(entries), [], route, MAX_LINKS);
        && (ok <==> place.Reached? && place.path in old(entries) && old(entries)[place.path].EFile?)
        && entries == if ok
             then old(entries)[place.path := EFile(old(entries)[place.path].content, mode)]
             else old(entries)
    {
      hide Rooted, Follow;
      match Follow(entries, [], route, MAX_LINKS) {
        case Reached(p) =>
          if p !in entries || !entries[p].EFile? { return false; }
          PutIsRooted(entries, p, EFile(entries[p].content, mode));
          entries := entries[p := EFile(entries[p].content, mode)];
          ok := true;
        case _ => ok := false;
      }
    }

    /** `symlink`: fails if anything is there already, and for an empty target. */
    method Symlink(target: string, route: Route) returns (ok: bool)
      requires Rooted(entries)
      modifies this
      ensures Rooted(entries)
      ensures ok <==> target != "" && LinkPlace(old(entries), route).Some?
      ensures entries == if ok
        then old(entries)[LinkPlace(old(entries), route).value := ELink(target)]
        else old(entries)
    {
      hide Rooted, Spot;
      SpotReaches(entries, route);
      var place := LinkPlace(entries, route);
      if target == "" || place.None? { return false; }
      PutIsRooted(entries, place.value, ELink(target));
      entries := entries[place.value := ELink(target)];
      ok := true;
    }
  }

  ghost function FilePut(entries: map<Path, Entry>, p: Path, content: Bytes): map<Path, Entry>
    requires p in entries ==> entries[p].EFile?
  {
    entries[p := EFile(content, if p in entries then entries[p].mode else 0x1A4)]
  }

  lemma {:induction false} StaysUnmade(entries: map<Path, Entry>, route: Route, k: nat)
    requires k <= |route| && DirsMade(entries, route[..k]).None?
    ensures DirsMade(entries, route).None?
  {
    if k < |route| {
      var front := route[..|route| - 1];
      assert front[..k] == route[..k];
      StaysUnmade(entries, front, k);
    } else {
      assert route[..k] == route;
    }
  }

  lemma NoItems(entries: map<Path, Entry>, p: Path)
    ensures ItemsListed(entries, p, [])
  {
  }

  lemma NamesMore(es: seq<Named>, e: Named)
    ensures forall n :: HasName(es + [e], n) <==> n == e.name || HasName(es, n)
  {
    var more := es + [e];
    assert more[|es|] == e;
    forall n | HasName(es, n) ensures HasName(more, n) {
      var i :| 0 <= i < |es| && es[i].name == n;
      assert more[i].name == n;
    }
  }
}
