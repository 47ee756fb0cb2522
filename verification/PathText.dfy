/** Path strings: splitting, joining, and the two validations of re-dispatch. */
module PathText {
  import opened Names

  function Split(s: string, sep: char): (parts: seq<string>)
    ensures |parts| > 0
  {
    if s == [] then [[]]
    else
      var rest := Split(s[1..], sep);
      if s[0] == sep then [[]] + rest else [[s[0]] + rest[0]] + rest[1..]
  }

  function Join(parts: seq<string>, sep: char): string
    requires |parts| > 0
  {
    if |parts| == 1 then parts[0] else parts[0] + [sep] + Join(parts[1..], sep)
  }

  lemma {:induction false} SplitPartsArePlain(s: string, sep: char, i: nat)
    requires i < |Split(s, sep)|
    ensures sep !in Split(s, sep)[i]
  {
    if s != [] {
      if s[0] != sep {
        SplitPartsArePlain(s[1..], sep, i);
      } else if i > 0 {
        SplitPartsArePlain(s[1..], sep, i - 1);
      }
    }
  }

  lemma {:induction false} JoinUndoesSplit(s: string, sep: char)
    ensures Join(Split(s, sep), sep) == s
  {
    if s != [] {
      var rest := Split(s[1..], sep);
      JoinUndoesSplit(s[1..], sep);
      var parts := Split(s, sep);
      if s[0] == sep {
        assert parts[1..] == rest;
      } else if |rest| > 1 {
        assert parts[1..] == rest[1..];
      }
      assert s == [s[0]] + s[1..];
    }
  }

  lemma {:induction false} SplitPlain(s: string, sep: char)
    requires sep !in s
    ensures Split(s, sep) == [s]
  {
    if s != [] {
      SplitPlain(s[1..], sep);
      assert s == [s[0]] + s[1..];
    }
  }

  lemma {:induction false} SplitAtSeparator(a: string, b: string, sep: char)
    requires sep !in a
    ensures Split(a + [sep] + b, sep) == [a] + Split(b, sep)
  {
    var s := a + [sep] + b;
    if a == [] {
      assert s[1..] == b;
    } else {
      SplitAtSeparator(a[1..], b, sep);
      assert s[1..] == a[1..] + [sep] + b;
      assert [a[0]] + a[1..] == a;
    }
  }

  lemma SplitStep(s: string, sep: char)
    requires s != ""
    ensures Split(s, sep) ==
      if s[0] == sep then [[]] + Split(s[1..], sep)
      else [[s[0]] + Split(s[1..], sep)[0]] + Split(s[1..], sep)[1..]
  {
  }

  lemma {:induction false} SplitOfJoined(a: string, b: string, sep: char)
    ensures Split(a + [sep] + b, sep) == Split(a, sep) + Split(b, sep)
  {
    var s := a + [sep] + b;
    SplitStep(s, sep);
    if a == [] {
      assert s[1..] == b;
    } else {
      SplitStep(a, sep);
      SplitOfJoined(a[1..], b, sep);
      assert s[1..] == a[1..] + [sep] + b;
      hide Split;
      var p, q := Split(a[1..], sep), Split(b, sep);
      assert (p + q)[0] == p[0] && (p + q)[1..] == p[1..] + q;
    }
  }

  lemma {:induction false} SplitUndoesJoin(parts: seq<string>, sep: char)
    requires |parts| > 0 && forall i :: 0 <= i < |parts| ==> sep !in parts[i]
    ensures Split(Join(parts, sep), sep) == parts
  {
    if |parts| == 1 {
      SplitPlain(parts[0], sep);
    } else {
      SplitUndoesJoin(parts[1..], sep);
      SplitAtSeparator(parts[0], Join(parts[1..], sep), sep);
    }
  }

  predicate Absolute(path: string) { path != "" && path[0] == '/' }

  // ---------------------------------------------------------------- paths of an input spec

  predicate IsName(component: string) {
    component != "" && component != "." && component != ".."
  }

  /** A name that an entry of a directory can have. */
  predicate Proper(name: string) { IsName(name) && '/' !in name }

  /** The components of an input path, or nothing if the path is not acceptable. */
  function ComponentsOf(path: string): Option<Path> {
    var parts := Split(path, '/');
    if path == "" || path[0] == '/' || exists i :: 0 <= i < |parts| && !IsName(parts[i]) then None
    else Some(parts)
  }

  /** A path below another has the components of both. */
  lemma ComponentsBelow(a: string, b: string)
    requires ComponentsOf(a).Some? && ComponentsOf(b).Some?
    ensures ComponentsOf(a + "/" + b) == Some(ComponentsOf(a).value + ComponentsOf(b).value)
  {
    SplitOfJoined(a, b, '/');
    var s, p, q := a + "/" + b, Split(a, '/'), Split(b, '/');
    assert s == a + ['/'] + b && s[0] == a[0];
    hide Split, IsName;
    forall i | 0 <= i < |p + q| ensures IsName((p + q)[i]) {
      assert if i < |p| then IsName(p[i]) else IsName(q[i - |p|]);
    }
  }

  lemma ComponentsNonEmpty(path: string)
    ensures ComponentsOf(path).Some? ==> ComponentsOf(path).value != []
  {
  }

  lemma OnlyNames(path: string)
    ensures path == "" || path[0] == '/' ==> ComponentsOf(path) == None
    ensures (exists i :: 0 <= i < |Split(path, '/')| && !IsName(Split(path, '/')[i])) ==> ComponentsOf(path) == None
    ensures path != "" && path[0] != '/' ==>
      (forall i :: 0 <= i < |Split(path, '/')| ==> IsName(Split(path, '/')[i])) ==>
      ComponentsOf(path) == Some(Split(path, '/'))
  {
    hide Split, IsName;
  }

  method SpecPathComponents(path: string) returns (r: Option<Path>)
    ensures r == ComponentsOf(path)
  {
    hide Split, IsName, ComponentsOf;
    OnlyNames(path);
    if path == "" || path[0] == '/' {
      return None;
    }
    var components := [];
    var parts := Split(path, '/');
    for i := 0 to |parts|
      invariant components == parts[..i]
      invariant forall j :: 0 <= j < i ==> IsName(parts[j])
    {
      if !IsName(parts[i]) {
        return None;
      }
      components := components + [parts[i]];
    }
    assert parts[..|parts|] == parts;
    r := Some(components);
  }

  /** The accepted paths are exactly the joined non-empty sequences of names, each sequence
      from exactly one path. */
  lemma ComponentsCharacterisePaths(path: string, p: Path)
    ensures ComponentsOf(path) == Some(p) <==>
      && p != []
      && (forall i :: 0 <= i < |p| ==> IsName(p[i]) && '/' !in p[i])
      && path == Join(p, '/')
  {
    JoinUndoesSplit(path, '/');
    forall i | 0 <= i < |Split(path, '/')| ensures '/' !in Split(path, '/')[i] {
      SplitPartsArePlain(path, '/', i);
    }
    if p != [] && (forall i :: 0 <= i < |p| ==> IsName(p[i]) && '/' !in p[i]) && path == Join(p, '/') {
      SplitUndoesJoin(p, '/');
      assert p[0] != "" && path[0] == p[0][0];
    }
  }

  // ---------------------------------------------------------------- symlink targets

  function KeptParts(parts: seq<string>): (r: seq<string>)
    ensures forall x :: x in r ==> x in parts && x != "" && x != "."
  {
    if parts == [] then []
    else (if parts[0] == "" || parts[0] == "." then [] else [parts[0]]) + KeptParts(parts[1..])
  }

  lemma {:induction false} KeptPartsAll(parts: seq<string>)
    requires forall x :: x in parts ==> x != "" && x != "."
    ensures KeptParts(parts) == parts
  {
    if parts != [] {
      assert parts[0] in parts;
      assert parts == [parts[0]] + parts[1..];
      assert forall x :: x in parts[1..] ==> x in parts;
      KeptPartsAll(parts[1..]);
    }
  }

  /** A relative link target without empty and `.` components; nothing for an absolute or
      empty one.  Whether it resolves inside the input root is for the file system to say. */
  function Normalised(target: string): Option<string> {
    if target != "" && target[0] == '/' then None
    else
      var parts := KeptParts(Split(target, '/'));
      if parts == [] then None else Some(Join(parts, '/'))
  }

  lemma {:induction false} JoinedHead(parts: seq<string>, sep: char)
    requires |parts| > 0 && parts[0] != ""
    ensures Join(parts, sep) != "" && Join(parts, sep)[0] == parts[0][0]
  {
  }

  /** Normalising a target again changes nothing. */
  lemma NormalisingIsIdempotent(target: string)
    requires Normalised(target).Some?
    ensures Normalised(Normalised(target).value) == Normalised(target)
  {
    var parts := KeptParts(Split(target, '/'));
    forall i | 0 <= i < |parts| ensures '/' !in parts[i] && parts[i] != "" {
      assert parts[i] in parts;
      var j :| 0 <= j < |Split(target, '/')| && Split(target, '/')[j] == parts[i];
      SplitPartsArePlain(target, '/', j);
    }
    SplitUndoesJoin(parts, '/');
    KeptPartsAll(parts);
    JoinedHead(parts, '/');
    assert parts[0][0] in parts[0];
  }

  /** The components a relative path leads through: `.` and empty ones lead nowhere. */
  function StepsOf(path: string): Path { KeptParts(Split(path, '/')) }

  lemma NormalisedSteps(target: string)
    ensures Normalised(target).Some? <==> (target == "" || target[0] != '/') && StepsOf(target) != []
    ensures Normalised(target).Some? ==> Normalised(target).value == Join(StepsOf(target), '/')
    ensures Normalised(target).Some? ==> StepsOf(Normalised(target).value) == StepsOf(target)
  {
    if Normalised(target).Some? {
      NormalisingIsIdempotent(target);
      var parts := StepsOf(target);
      forall i | 0 <= i < |parts| ensures '/' !in parts[i] {
        assert parts[i] in parts;
        var j :| 0 <= j < |Split(target, '/')| && Split(target, '/')[j] == parts[i];
        SplitPartsArePlain(target, '/', j);
      }
      SplitUndoesJoin(parts, '/');
      KeptPartsAll(parts);
    }
  }

  /** Normalising keeps what a target means and nothing else: it is refused exactly when absolute or
      without a component, leads through the same components as before and consists of them, and two
      targets have the same normal form exactly when they lead through the same components. */
  lemma NormalFormsCharacteriseTargets(a: string, b: string)
    ensures Normalised(a).Some? <==> (a == "" || a[0] != '/') && StepsOf(a) != []
    ensures Normalised(a).Some? ==> StepsOf(Normalised(a).value) == StepsOf(a)
    ensures Normalised(a).Some? ==> Split(Normalised(a).value, '/') == StepsOf(a)
    ensures Normalised(a).Some? && Normalised(b).Some? ==>
      (Normalised(a) == Normalised(b) <==> StepsOf(a) == StepsOf(b))
  {
    NormalisedSteps(a);
    NormalisedSteps(b);
    if Normalised(a).Some? {
      forall i | 0 <= i < |StepsOf(a)| ensures '/' !in StepsOf(a)[i] {
        assert StepsOf(a)[i] in StepsOf(a);
        var j :| 0 <= j < |Split(a, '/')| && Split(a, '/')[j] == StepsOf(a)[i];
        SplitPartsArePlain(a, '/', j);
      }
      SplitUndoesJoin(StepsOf(a), '/');
    }
  }

  // ---------------------------------------------------------------- routes

  /** A path step by step, `.` and `..` included. */
  type Route = seq<string>

  /** A path without `.` and `..`, which leads where it says unless a link is on the way. */
  predicate Plain(route: Route) { forall step :: step in route ==> Proper(step) }

  predicate IsStep(step: string) { step != "" && '/' !in step }

  /** The steps of a path.  A trailing slash is a last `.`, since it asks for a directory. */
  function RouteOf(path: string): (r: Route)
    ensures forall step :: step in r ==> IsStep(step)
  {
    var parts := Split(path, '/');
    assert forall step :: step in KeptParts(parts) ==> IsStep(step) by {
      forall step | step in KeptParts(parts) ensures IsStep(step) {
        var i :| 0 <= i < |parts| && parts[i] == step;
        SplitPartsArePlain(path, '/', i);
      }
    }
    StepsOf(path) + if parts[|parts| - 1] == "" || parts[|parts| - 1] == "." then ["."] else []
  }

  lemma RouteOfName(name: string)
    requires Proper(name)
    ensures RouteOf(name) == [name] && !Absolute(name)
  {
    SplitPlain(name, '/');
    KeptPartsAll([name]);
    assert name[0] in name;
  }

  /** `PathBuf::join`: an absolute path replaces what it is joined to. */
  function JoinedTo(target: Route, path: string): Route {
    if Absolute(path) then RouteOf(path) else target + RouteOf(path)
  }

  /** Joining adds the name as one more plain step exactly when it is a proper name. */
  lemma JoinedPlainly(target: Route, name: string)
    requires Plain(target)
    ensures Proper(name) <==> JoinedTo(target, name) == target + [name] && Plain(JoinedTo(target, name))
  {
    if Proper(name) {
      RouteOfName(name);
    } else {
      assert name in target + [name];
    }
  }
}
