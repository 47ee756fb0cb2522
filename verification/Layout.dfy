/** Where the entries of a tree of messages go, and that they go nowhere else. */
module Layout {
  import opened Names
  import opened Messages
  import opened FlatTree
  import opened PathText
  import opened Disk
  import opened FileSystem

  /** Names are proper, no two sub-directories share one, and no link shares one with anything else. */
  ghost predicate Neat(dir: Directory) {
    && (forall i :: 0 <= i < |dir.directories| ==> Proper(dir.directories[i].name))
    && (forall i :: 0 <= i < |dir.files| ==> Proper(dir.files[i].name))
    && (forall i :: 0 <= i < |dir.symlinks| ==> Proper(dir.symlinks[i].name))
    && (forall i, j :: 0 <= i < j < |dir.directories| ==> dir.directories[i].name != dir.directories[j].name)
    && (forall i, j :: 0 <= i < |dir.symlinks| && 0 <= j < |dir.directories| ==>
         dir.symlinks[i].name != dir.directories[j].name)
    && (forall i, j :: 0 <= i < |dir.symlinks| && 0 <= j < |dir.files| ==>
         dir.symlinks[i].name != dir.files[j].name)
  }

  // ---------------------------------------------------------------- what a path is in the messages

  /** What the messages say there is: a directory, whose message may not be there, a file or a link. */
  datatype Found = FoundDir(message: Option<Directory>) | FoundFile | FoundLink

  ghost predicate DirNamed(dir: Directory, name: string, i: int) {
    0 <= i < |dir.directories| && dir.directories[i].name == name
  }

  ghost predicate HasDir(dir: Directory, name: string) { exists i :: DirNamed(dir, name, i) }

  ghost function DirIndex(dir: Directory, name: string): (i: nat)
    requires HasDir(dir, name)
    ensures DirNamed(dir, name, i)
  {
    var i :| DirNamed(dir, name, i);
    i
  }

  ghost predicate FileNamed(dir: Directory, name: string) {
    exists i :: 0 <= i < |dir.files| && dir.files[i].name == name
  }

  ghost predicate LinkNamed(dir: Directory, name: string) {
    exists i :: 0 <= i < |dir.symlinks| && dir.symlinks[i].name == name
  }

  ghost function MessageOf(below: string -> Option<Directory>, node: DirectoryNode): Option<Directory> {
    if node.digest.None? then None else below(node.digest.value.hash)
  }

  /** What `r` is, from the message of a directory and the messages of those below it. */
  ghost function Find(below: string -> Option<Directory>, dir: Option<Directory>, r: Path): Option<Found>
    decreases |r|
  {
    if r == [] then Some(FoundDir(dir))
    else if dir.None? then None
    else if HasDir(dir.value, r[0]) then
      Find(below, MessageOf(below, dir.value.directories[DirIndex(dir.value, r[0])]), r[1..])
    else if |r| > 1 then None
    else if LinkNamed(dir.value, r[0]) then Some(FoundLink)
    else if FileNamed(dir.value, r[0]) then Some(FoundFile)
    else None
  }

  lemma {:induction false} FindOn(below: string -> Option<Directory>, dir: Option<Directory>, r: Path, s: Path)
    ensures Find(below, dir, r + s) ==
      match Find(below, dir, r)
      case Some(FoundDir(m)) => Find(below, m, s)
      case other => if s == [] then other else None
    decreases |r|
  {
    if r == [] {
      assert r + s == s;
    } else {
      assert (r + s)[0] == r[0] && (r + s)[1..] == r[1..] + s;
      if dir.Some? {
        if HasDir(dir.value, r[0]) {
          FindOn(below, MessageOf(below, dir.value.directories[DirIndex(dir.value, r[0])]), r[1..], s);
        } else if s == [] {
          assert r + s == r;
        }
      }
    }
  }

  lemma FindInDirectory(below: string -> Option<Directory>, d: Directory, i: nat)
    requires Neat(d)
    ensures i < |d.directories| ==>
      Find(below, Some(d), [d.directories[i].name]) == Some(FoundDir(MessageOf(below, d.directories[i])))
    ensures i < |d.files| ==>
      Find(below, Some(d), [d.files[i].name]).Some? && Find(below, Some(d), [d.files[i].name]) != Some(FoundLink)
    ensures i < |d.symlinks| ==> Find(below, Some(d), [d.symlinks[i].name]) == Some(FoundLink)
  {
    if i < |d.directories| {
      var r := [d.directories[i].name];
      assert DirNamed(d, r[0], i);
      assert r[1..] == [];
    }
    if i < |d.files| {
      var r := [d.files[i].name];
      assert r[1..] == [];
      if !HasDir(d, r[0]) { assert !LinkNamed(d, r[0]) && FileNamed(d, r[0]); }
    }
    if i < |d.symlinks| {
      var r := [d.symlinks[i].name];
      forall j ensures !DirNamed(d, r[0], j) {}
      assert LinkNamed(d, r[0]);
    }
  }

  lemma FoundNames(below: string -> Option<Directory>, d: Directory, name: string)
    requires Neat(d) && Find(below, Some(d), [name]).Some?
    ensures Proper(name)
  {
  }

  // ---------------------------------------------------------------- a plan

  /** Messages, and where the first of them is to go. */
  datatype Plan = Plan(below: string -> Option<Directory>, root: Option<Directory>, out: Path)

  ghost function FindIn(plan: Plan, r: Path): Option<Found> { Find(plan.below, plan.root, r) }

  /** Every message that can be reached is neat. */
  ghost predicate Orderly(plan: Plan) {
    && Plain(plan.out)
    && forall r :: FindIn(plan, r).Some? && FindIn(plan, r).value.FoundDir? && FindIn(plan, r).value.message.Some? ==>
         Neat(FindIn(plan, r).value.message.value)
  }

  /** The path is one of the plan, and this is what it is to be. */
  ghost predicate Planned(plan: Plan, p: Path) { plan.out <= p && FindIn(plan, p[|plan.out|..]).Some? }

  ghost function PlanAt(plan: Plan, p: Path): Found
    requires Planned(plan, p)
  {
    FindIn(plan, p[|plan.out|..]).value
  }

  /** Where the plan goes there are no links but those of the plan. */
  ghost predicate Clear(plan: Plan, entries: map<Path, Entry>) {
    forall q :: q in entries && entries[q].ELink? && (q <= plan.out || plan.out <= q) ==>
      Planned(plan, q) && PlanAt(plan, q) == FoundLink
  }

  /** No link is at, above or below `out`. */
  ghost predicate Unlinked(entries: map<Path, Entry>, out: Path) {
    forall q :: q in entries && (q <= out || out <= q) ==> !entries[q].ELink?
  }

  lemma UnlinkedIsClear(plan: Plan, entries: map<Path, Entry>)
    requires Unlinked(entries, plan.out)
    ensures Clear(plan, entries)
  {
  }

  lemma PlannedRoot(plan: Plan)
    ensures Planned(plan, plan.out) && PlanAt(plan, plan.out) == FoundDir(plan.root)
  {
  }

  lemma RelativePath(plan: Plan, p: Path, name: string)
    requires plan.out <= p
    ensures plan.out <= p + [name] && (p + [name])[|plan.out|..] == p[|plan.out|..] + [name]
  {
  }

  /** The entries of a planned directory are planned. */
  lemma PlannedKid(plan: Plan, p: Path, d: Directory, i: nat)
    requires Orderly(plan) && Planned(plan, p) && PlanAt(plan, p) == FoundDir(Some(d))
    ensures Neat(d)
    ensures i < |d.directories| ==>
      && Planned(plan, p + [d.directories[i].name])
      && PlanAt(plan, p + [d.directories[i].name]) == FoundDir(MessageOf(plan.below, d.directories[i]))
    ensures i < |d.files| ==>
      Planned(plan, p + [d.files[i].name]) && PlanAt(plan, p + [d.files[i].name]) != FoundLink
    ensures i < |d.symlinks| ==>
      Planned(plan, p + [d.symlinks[i].name]) && PlanAt(plan, p + [d.symlinks[i].name]) == FoundLink
  {
    hide Neat, Find, Plain;
    var r := p[|plan.out|..];
    assert FindIn(plan, r) == Some(FoundDir(Some(d)));
    FindInDirectory(plan.below, d, i);
    if i < |d.directories| {
      RelativePath(plan, p, d.directories[i].name);
      FindOn(plan.below, plan.root, r, [d.directories[i].name]);
    }
    if i < |d.files| {
      RelativePath(plan, p, d.files[i].name);
      FindOn(plan.below, plan.root, r, [d.files[i].name]);
    }
    if i < |d.symlinks| {
      RelativePath(plan, p, d.symlinks[i].name);
      FindOn(plan.below, plan.root, r, [d.symlinks[i].name]);
    }
  }

  lemma FoundAbove(plan: Plan, r: Path, k: nat)
    requires k < |r| && FindIn(plan, r).Some?
    ensures FindIn(plan, r[..k]).Some? && FindIn(plan, r[..k]).value.FoundDir?
    ensures FindIn(plan, r[..k]).value.message.Some?
  {
    assert r == r[..k] + r[k..];
    FindOn(plan.below, plan.root, r[..k], r[k..]);
  }

  lemma {:induction false} FoundIsPlain(plan: Plan, r: Path)
    requires Orderly(plan) && FindIn(plan, r).Some?
    ensures Plain(r)
  {
    hide Neat, Find, Proper;
    if r != [] {
      var n := |r| - 1;
      FoundAbove(plan, r, n);
      FoundIsPlain(plan, r[..n]);
      assert r == r[..n] + [r[n]];
      FindOn(plan.below, plan.root, r[..n], [r[n]]);
      FoundNames(plan.below, FindIn(plan, r[..n]).value.message.value, r[n]);
    }
  }

  /** No link lies on the way to what is planned. */
  lemma PlannedIsStraight(plan: Plan, entries: map<Path, Entry>, p: Path)
    requires Orderly(plan) && Clear(plan, entries) && Planned(plan, p)
    ensures Straight(entries, p)
    ensures PlanAt(plan, p) != FoundLink && p in entries ==> !entries[p].ELink?
  {
    hide Neat, Find, FindIn, Proper;
    var r := p[|plan.out|..];
    FoundIsPlain(plan, r);
    assert p == plan.out + r;
    forall s | s in p ensures Proper(s) {}
    forall q | q in entries && Leads(q, p) ensures !entries[q].ELink? {
      PrefixesCompare(q, plan.out, p);
      if plan.out <= q {
        var k := |q| - |plan.out|;
        PrefixIsSlice(q, p);
        assert q[|plan.out|..] == r[..k];
        FoundAbove(plan, r, k);
      }
    }
  }

  // ---------------------------------------------------------------- steps of a plan

  /** Nothing outside has changed, and there are still no links but those of the plan. */
  ghost predicate WithinPlan(plan: Plan, before: map<Path, Entry>, after: map<Path, Entry>) {
    Confined(before, after, plan.out) && Clear(plan, after)
  }

  lemma WithinPlanOn(plan: Plan, a: map<Path, Entry>, b: map<Path, Entry>, d: map<Path, Entry>)
    requires WithinPlan(plan, a, b) && WithinPlan(plan, b, d)
    ensures WithinPlan(plan, a, d)
  {
    hide Clear, Confined;
    ConfinedStep(a, b, d, plan.out, plan.out);
  }

  lemma WithinPlanAlready(plan: Plan, entries: map<Path, Entry>)
    requires Clear(plan, entries)
    ensures WithinPlan(plan, entries, entries)
  {
  }

  /** Making a planned directory, and those that lead to it. */
  lemma PlannedDir(plan: Plan, before: map<Path, Entry>, after: map<Path, Entry>, p: Path, k: nat)
    requires Rooted(before) && Orderly(plan) && Clear(plan, before)
    requires Planned(plan, p) && PlanAt(plan, p) != FoundLink
    requires k <= |p| && DirsMade(before, p[..k]) == Some(after)
    ensures WithinPlan(plan, before, after)
  {
    hide Rooted, Straight, DirsMade, Orderly, PlanAt;
    PlannedIsStraight(plan, before, p);
    MadeSomeStraight(before, p, k, after);
    forall q | !(plan.out <= q)
      ensures Get(after, q) == Get(before, q) || (q <= plan.out && Get(after, q) == Some(EDir))
    {
      if q <= p { PrefixesCompare(q, plan.out, p); }
    }
    forall q | q in after && after[q].ELink? ensures Get(before, q) == Get(after, q) {
      assert Get(after, q) == Get(before, q) || (q <= p && Get(after, q) == Some(EDir));
    }
  }

  /** Making a planned link. */
  lemma PlannedLink(plan: Plan, before: map<Path, Entry>, p: Path, target: string)
    requires Rooted(before) && Orderly(plan) && Clear(plan, before)
    requires Planned(plan, p) && PlanAt(plan, p) == FoundLink && LinkPlace(before, p).Some?
    ensures LinkPlace(before, p) == Some(p) && WithinPlan(plan, before, before[p := ELink(target)])
  {
    hide Rooted, Straight, LinkPlace, Orderly, FindIn;
    PlannedIsStraight(plan, before, p);
    LinkPlaceStraight(before, p);
    PutConfined(before, before[p := ELink(target)], p, ELink(target));
    NothingChanged(before, plan.out);
    ConfinedStep(before, before, before[p := ELink(target)], plan.out, p);
  }

  /** Writing a planned file. */
  lemma PlannedFile(plan: Plan, before: map<Path, Entry>, p: Path, content: Bytes, mode: nat)
    requires Rooted(before) && Orderly(plan) && Clear(plan, before)
    requires Planned(plan, p) && PlanAt(plan, p) != FoundLink && FilePlace(before, p).Some?
    ensures FilePlace(before, p) == Some(p) && WithinPlan(plan, before, before[p := EFile(content, mode)])
  {
    hide Rooted, Straight, FilePlace, Orderly, FindIn;
    PlannedIsStraight(plan, before, p);
    FilePlaceStraight(before, p);
    PutConfined(before, before[p := EFile(content, mode)], p, EFile(content, mode));
    NothingChanged(before, plan.out);
    ConfinedStep(before, before, before[p := EFile(content, mode)], plan.out, p);
  }
}
