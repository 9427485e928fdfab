/** Go's path.Join on two elements, following the rules its documentation gives for path.Clean. */
module GoPath {
  /** Splits at every slash; "a//b" has an empty component in the middle. */
  function Components(s: string, current: string): seq<string>
    decreases |s|
  {
    if s == [] then [current]
    else if s[0] == '/' then [current] + Components(s[1..], [])
    else Components(s[1..], current + [s[0]])
  }

  /** Drops "" and ".", lets ".." cancel the component before it, and drops ".." at a root. */
  function Resolve(rooted: bool, parts: seq<string>, done: seq<string>): seq<string>
    decreases |parts|
  {
    if parts == [] then done
    else if parts[0] == "" || parts[0] == "." then Resolve(rooted, parts[1..], done)
    else if parts[0] != ".." then Resolve(rooted, parts[1..], done + [parts[0]])
    else if done != [] && done[|done| - 1] != ".." then Resolve(rooted, parts[1..], done[..|done| - 1])
    else if rooted then Resolve(rooted, parts[1..], done)
    else Resolve(rooted, parts[1..], done + [".."])
  }

  function Unsplit(parts: seq<string>): string
  {
    if parts == [] then ""
    else if |parts| == 1 then parts[0]
    else parts[0] + "/" + Unsplit(parts[1..])
  }

  function Clean(p: string): string
  {
    if p == "" then "."
    else
      var rooted := p[0] == '/';
      var parts := Resolve(rooted, Components(p, []), []);
      if rooted then "/" + Unsplit(parts) else if parts == [] then "." else Unsplit(parts)
  }

  function Join(a: string, b: string): string
  {
    if a == "" && b == "" then ""
    else if a == "" then Clean(b)
    else if b == "" then Clean(a)
    else Clean(a + "/" + b)
  }

  /* ---- joining a name to an absolute directory ---- */

  /** A component that cleaning leaves alone. */
  predicate Plain(s: string)
  {
    s != "" && '/' !in s && s != "." && s != ".."
  }

  predicate AllPlain(parts: seq<string>)
  {
    forall i :: 0 <= i < |parts| ==> Plain(parts[i])
  }

  /** The absolute path of these components. */
  function Absolute(parts: seq<string>): string
  {
    if parts == [] then "" else "/" + parts[0] + Absolute(parts[1..])
  }

  /** An absolute path that is clean already. */
  ghost predicate CleanDirectory(root: string)
  {
    exists parts :: parts != [] && AllPlain(parts) && root == Absolute(parts)
  }

  lemma {:induction false} ComponentsOfRest(s: string, rest: string, current: string)
    requires '/' !in s
    ensures Components(s + rest, current) == Components(rest, current + s)
    decreases |s|
  {
    if s == [] {
      assert s + rest == rest && current + s == current;
    } else {
      assert (s + rest)[0] == s[0] && (s + rest)[1..] == s[1..] + rest;
      assert s[0] in s && forall c :: c in s[1..] ==> c in s;
      ComponentsOfRest(s[1..], rest, current + [s[0]]);
      assert current + [s[0]] + s[1..] == current + s;
    }
  }

  lemma {:induction false} ComponentsOfAbsolute(parts: seq<string>, current: string)
    requires AllPlain(parts)
    ensures Components(Absolute(parts), current) == [current] + parts
    decreases |parts|
  {
    if parts != [] {
      var first, rest := parts[0], Absolute(parts[1..]);
      var p := Absolute(parts);
      assert Plain(first);
      assert p == ['/'] + (first + rest);
      assert p[0] == '/' && p[1..] == first + rest;
      ComponentsOfRest(first, rest, []);
      assert [] + first == first;
      ComponentsOfAbsolute(parts[1..], first);
      assert [first] + parts[1..] == parts;
    }
  }

  lemma {:induction false} ResolvePlain(parts: seq<string>, done: seq<string>)
    requires AllPlain(parts)
    ensures Resolve(true, parts, done) == done + parts
    decreases |parts|
  {
    if parts == [] {
      assert done + parts == done;
    } else {
      assert Plain(parts[0]);
      ResolvePlain(parts[1..], done + [parts[0]]);
      assert done + [parts[0]] + parts[1..] == done + parts;
    }
  }

  lemma {:induction false} UnsplitPlain(parts: seq<string>)
    requires parts != []
    ensures "/" + Unsplit(parts) == Absolute(parts)
    decreases |parts|
  {
    if |parts| == 1 {
      assert Absolute(parts[1..]) == "";
      assert Absolute(parts) == "/" + parts[0];
    } else {
      UnsplitPlain(parts[1..]);
    }
  }

  /** A clean absolute path is its own cleaning. */
  lemma CleanOfClean(root: string)
    requires CleanDirectory(root)
    ensures Clean(root) == root
  {
    var parts :| parts != [] && AllPlain(parts) && root == Absolute(parts);
    assert root == ['/'] + (parts[0] + Absolute(parts[1..]));
    ComponentsOfAbsolute(parts, []);
    var listed := [""] + parts;
    assert listed[0] == "" && listed[1..] == parts;
    ResolvePlain(parts, []);
    assert [] + parts == parts;
    UnsplitPlain(parts);
  }

  lemma {:induction false} ComponentsHaveNoSlash(s: string, current: string)
    requires '/' !in current
    ensures forall i :: 0 <= i < |Components(s, current)| ==> '/' !in Components(s, current)[i]
    decreases |s|
  {
    if s != [] {
      if s[0] == '/' {
        ComponentsHaveNoSlash(s[1..], []);
      } else {
        ComponentsHaveNoSlash(s[1..], current + [s[0]]);
      }
    }
  }

  lemma {:induction false} ResolveIsPlain(parts: seq<string>, done: seq<string>)
    requires AllPlain(done) && forall i :: 0 <= i < |parts| ==> '/' !in parts[i]
    ensures AllPlain(Resolve(true, parts, done))
    decreases |parts|
  {
    if parts != [] {
      var first := parts[0];
      if first == "" || first == "." {
        ResolveIsPlain(parts[1..], done);
      } else if first != ".." {
        ResolveIsPlain(parts[1..], done + [first]);
      } else if done != [] {
        assert Plain(done[|done| - 1]);
        ResolveIsPlain(parts[1..], done[..|done| - 1]);
      } else {
        ResolveIsPlain(parts[1..], done);
      }
    }
  }

  /** Cleaning an absolute path yields a clean one, which cannot lead above the root. */
  lemma CleanIsClean(p: string)
    requires p != "" && p[0] == '/'
    ensures Clean(p) == "/" || CleanDirectory(Clean(p))
  {
    var parts := Resolve(true, Components(p, []), []);
    ComponentsHaveNoSlash(p, []);
    ResolveIsPlain(Components(p, []), []);
    if parts != [] {
      UnsplitPlain(parts);
    }
  }

  lemma {:induction false} AbsoluteOfMore(parts: seq<string>, name: string)
    ensures Absolute(parts + [name]) == Absolute(parts) + "/" + name
    decreases |parts|
  {
    var all := parts + [name];
    if parts == [] {
      assert all[1..] == [] && all[0] == name;
    } else {
      assert all[0] == parts[0] && all[1..] == parts[1..] + [name];
      AbsoluteOfMore(parts[1..], name);
    }
  }

  /** A name joined to a clean absolute path is a name in that directory. */
  lemma JoinIsBelow(root: string, name: string)
    requires CleanDirectory(root) && Plain(name)
    ensures Join(root, name) == root + "/" + name
  {
    var parts :| parts != [] && AllPlain(parts) && root == Absolute(parts);
    var all := parts + [name];
    AbsoluteOfMore(parts, name);
    assert AllPlain(all);
    assert CleanDirectory(root + "/" + name);
    CleanOfClean(root + "/" + name);
    assert root != "";
  }
}
