/** The mapping is a lens on the workload: what is written is read back, a second write replaces the first, and
    everything outside the mapped locations stays. */
module WorkloadLens {
  import opened Bindings
  import opened Json
  import opened Patterns
  import opened Workload

  /* ---- a write of the view, as a list of writes to locations ---- */

  function NodeWrites(c: Codec, m: ContainerMapping, node: Path, k: Container): seq<Update>
  {
    (if m.name.Some? && k.name.Some? then [Update(node + Keys(m.name.value), c.name.enc(k.name.value))] else [])
    + [Update(node + Keys(m.env), c.env.enc(k.env)),
       Update(node + Keys(m.volumeMounts), c.volumeMounts.enc(k.volumeMounts))]
  }

  function NodesWrites(c: Codec, m: ContainerMapping, nodes: seq<Path>, ks: seq<Container>): seq<Update>
    requires |nodes| <= |ks|
    decreases |nodes|
  {
    if nodes == [] then []
    else NodeWrites(c, m, nodes[0], ks[0]) + NodesWrites(c, m, nodes[1..], ks[1..])
  }

  ghost predicate NamedLike(m: ContainerMapping, ks: seq<Container>)
  {
    forall i :: 0 <= i < |ks| ==> (ks[i].name.Some? <==> m.name.Some?)
  }

  /** One container for every node found, named where the mapping names them. */
  ghost predicate Fits(ms: seq<ContainerMapping>, j: Json, ks: seq<Container>)
    decreases |ms|
  {
    if ms == [] then ks == []
    else
      var n := |Located(ms[0].path, j)|;
      n <= |ks| && NamedLike(ms[0], ks[..n]) && Fits(ms[1..], j, ks[n..])
  }

  ghost function EntriesWrites(c: Codec, ms: seq<ContainerMapping>, j: Json, ks: seq<Container>): seq<Update>
    requires Fits(ms, j, ks)
    decreases |ms|
  {
    if ms == [] then []
    else
      var nodes := Located(ms[0].path, j);
      NodesWrites(c, ms[0], nodes, ks) + EntriesWrites(c, ms[1..], j, ks[|nodes|..])
  }

  ghost function Writes(c: Codec, m: Mapping, j: Json, v: PodTemplate): seq<Update>
    requires Fits(m.containers, j, v.containers)
  {
    [Update(Keys(m.annotations), c.annotations.enc(v.annotations))]
    + EntriesWrites(c, m.containers, j, v.containers)
    + [Update(Keys(m.volumes), c.volumes.enc(v.volumes))]
  }

  /* ---- where those writes go ---- */

  lemma FieldsMatchKeys(keys: seq<string>)
    ensures Matches(Patterns.FieldSteps(keys), Keys(keys))
  {
  }

  lemma BelowMatches(s: Pattern, node: Path, keys: seq<string>)
    requires Matches(s, node)
    ensures Matches(s + Patterns.FieldSteps(keys), node + Keys(keys))
  {
    forall i | 0 <= i < |s| + |keys|
      ensures StepMatches((s + Patterns.FieldSteps(keys))[i], (node + Keys(keys))[i])
    {
      if i < |s| {
        assert StepMatches(s[i], node[i]);
      }
    }
  }

  lemma TargetMatches(ms: seq<ContainerMapping>, i: nat, a: nat, j: Json, node: Path)
    requires Target(ms, i, a) && node in Located(ms[i].path, j)
    ensures Matches(TargetPattern(ms, i, a), node + Keys(KeysOf(ms[i])[a]))
    ensures Matches(ms[i].path, node)
  {
    NodeFound(ms[i].path, j, node);
    BelowMatches(ms[i].path, node, KeysOf(ms[i])[a]);
  }

  /** The location written by the `a`-th write into a node of entry `i`. */
  ghost predicate WrittenAt(ms: seq<ContainerMapping>, j: Json, p: Path, i: nat, a: nat, node: Path)
  {
    Target(ms, i, a) && node in Located(ms[i].path, j) && p == node + Keys(KeysOf(ms[i])[a])
  }

  lemma NodeWritesAt(c: Codec, m: ContainerMapping, node: Path, k: Container, a: nat)
    requires m.name.Some? <==> k.name.Some?
    ensures |NodeWrites(c, m, node, k)| == |KeysOf(m)|
    ensures a < |KeysOf(m)| ==> NodeWrites(c, m, node, k)[a].path == node + Keys(KeysOf(m)[a])
  {
  }

  lemma {:induction false} NodesWritesAt(c: Codec, ms: seq<ContainerMapping>, i: nat, j: Json, nodes: seq<Path>,
                                         ks: seq<Container>, w: Update)
    requires i < |ms| && |nodes| <= |ks| && NamedLike(ms[i], ks[..|nodes|])
    requires forall p :: p in nodes ==> p in Located(ms[i].path, j)
    requires w in NodesWrites(c, ms[i], nodes, ks)
    ensures exists a: nat, node :: node in nodes && WrittenAt(ms, j, w.path, i, a, node)
    decreases |nodes|
  {
    var first := NodeWrites(c, ms[i], nodes[0], ks[0]);
    assert ks[..|nodes|][0] == ks[0];
    if w in first {
      var a: nat :| a < |first| && first[a] == w;
      NodeWritesAt(c, ms[i], nodes[0], ks[0], a);
      assert nodes[0] in nodes && WrittenAt(ms, j, w.path, i, a, nodes[0]);
    } else {
      assert ks[1..][..|nodes| - 1] == ks[..|nodes|][1..];
      NodesWritesAt(c, ms, i, j, nodes[1..], ks[1..], w);
    }
  }

  lemma {:induction false} EntriesWritesAt(c: Codec, ms: seq<ContainerMapping>, i: nat, j: Json, ks: seq<Container>,
                                           w: Update)
    requires i <= |ms| && Fits(ms[i..], j, ks)
    requires w in EntriesWrites(c, ms[i..], j, ks)
    ensures exists l: nat, a: nat, node :: i <= l && WrittenAt(ms, j, w.path, l, a, node)
    decreases |ms| - i
  {
    if i < |ms| {
      assert ms[i..][0] == ms[i] && ms[i..][1..] == ms[i + 1..];
      var nodes := Located(ms[i].path, j);
      if w in NodesWrites(c, ms[i], nodes, ks) {
        NodesWritesAt(c, ms, i, j, nodes, ks, w);
      } else {
        EntriesWritesAt(c, ms, i + 1, j, ks[|nodes|..], w);
      }
    }
  }

  /* ---- the writes go to locations beside each other ---- */

  lemma TargetsDiverge(m: Mapping, j: Json, p: Path, i: nat, a: nat, node: Path, q: Path, l: nat, b: nat, other: Path)
    requires Disjoint(m) && WrittenAt(m.containers, j, p, i, a, node) && WrittenAt(m.containers, j, q, l, b, other)
    requires i < l || (i == l && (a < b || Diverge(node, other)))
    ensures Diverge(p, q)
  {
    if i == l && Diverge(node, other) {
      DivergeExtends(node, other, Keys(KeysOf(m.containers[i])[a]), Keys(KeysOf(m.containers[l])[b]));
    } else {
      TargetMatches(m.containers, i, a, j, node);
      TargetMatches(m.containers, l, b, j, other);
      ApartDiverges(TargetPattern(m.containers, i, a), TargetPattern(m.containers, l, b), p, q);
    }
  }

  lemma ConcatDiverge(a: seq<Update>, b: seq<Update>)
    requires PairwiseDiverge(a) && PairwiseDiverge(b)
    requires forall x, y :: x in a && y in b ==> Diverge(x.path, y.path)
    ensures PairwiseDiverge(a + b)
  {
    forall i, k | 0 <= i < k < |a + b|
      ensures Diverge((a + b)[i].path, (a + b)[k].path)
    {
      if i < |a| <= k {
        assert a[i] in a && b[k - |a|] in b;
      }
    }
  }

  lemma NodeWritesDiverge(c: Codec, m: Mapping, i: nat, j: Json, node: Path, k: Container)
    requires Disjoint(m) && i < |m.containers| && node in Located(m.containers[i].path, j)
    requires m.containers[i].name.Some? <==> k.name.Some?
    ensures PairwiseDiverge(NodeWrites(c, m.containers[i], node, k))
  {
    var ws := NodeWrites(c, m.containers[i], node, k);
    forall a: nat, b: nat | a < b < |ws|
      ensures Diverge(ws[a].path, ws[b].path)
    {
      NodeWritesAt(c, m.containers[i], node, k, a);
      NodeWritesAt(c, m.containers[i], node, k, b);
      TargetsDiverge(m, j, ws[a].path, i, a, node, ws[b].path, i, b, node);
    }
  }

  /** The writes into one node and into the nodes after it. */
  lemma NodeApartFromRest(c: Codec, m: Mapping, i: nat, j: Json, node: Path, k: Container, nodes: seq<Path>,
                          ks: seq<Container>, x: Update, y: Update)
    requires Disjoint(m) && i < |m.containers| && node in Located(m.containers[i].path, j)
    requires |nodes| <= |ks| && NamedLike(m.containers[i], ks[..|nodes|])
    requires (m.containers[i].name.Some? <==> k.name.Some?)
    requires forall p :: p in nodes ==> p in Located(m.containers[i].path, j) && Diverge(node, p)
    requires x in NodeWrites(c, m.containers[i], node, k) && y in NodesWrites(c, m.containers[i], nodes, ks)
    ensures Diverge(x.path, y.path)
  {
    var e := m.containers[i];
    var a: nat :| a < |NodeWrites(c, e, node, k)| && NodeWrites(c, e, node, k)[a] == x;
    NodeWritesAt(c, e, node, k, a);
    NodesWritesAt(c, m.containers, i, j, nodes, ks, y);
    var b: nat, other :| other in nodes && WrittenAt(m.containers, j, y.path, i, b, other);
    TargetsDiverge(m, j, x.path, i, a, node, y.path, i, b, other);
  }

  lemma FirstOf(ks: seq<Container>, n: nat)
    requires 0 < n <= |ks|
    ensures ks[..n][0] == ks[0] && ks[1..][..n - 1] == ks[..n][1..]
  {
  }

  lemma {:induction false} NodesWritesDiverge(c: Codec, m: Mapping, i: nat, j: Json, nodes: seq<Path>,
                                              ks: seq<Container>)
    requires Disjoint(m) && i < |m.containers| && |nodes| <= |ks| && NamedLike(m.containers[i], ks[..|nodes|])
    requires forall p :: p in nodes ==> p in Located(m.containers[i].path, j)
    requires forall x, y :: 0 <= x < y < |nodes| ==> Diverge(nodes[x], nodes[y])
    ensures PairwiseDiverge(NodesWrites(c, m.containers[i], nodes, ks))
    decreases |nodes|
  {
    if nodes != [] {
      var e := m.containers[i];
      FirstOf(ks, |nodes|);
      assert nodes[0] in nodes;
      NodeWritesDiverge(c, m, i, j, nodes[0], ks[0]);
      NodesWritesDiverge(c, m, i, j, nodes[1..], ks[1..]);
      forall x, y | x in NodeWrites(c, e, nodes[0], ks[0]) && y in NodesWrites(c, e, nodes[1..], ks[1..])
        ensures Diverge(x.path, y.path)
      {
        NodeApartFromRest(c, m, i, j, nodes[0], ks[0], nodes[1..], ks[1..], x, y);
      }
      ConcatDiverge(NodeWrites(c, e, nodes[0], ks[0]), NodesWrites(c, e, nodes[1..], ks[1..]));
    }
  }

  lemma {:induction false} EntriesWritesDiverge(c: Codec, m: Mapping, i: nat, j: Json, ks: seq<Container>)
    requires Disjoint(m) && i <= |m.containers| && Fits(m.containers[i..], j, ks)
    ensures PairwiseDiverge(EntriesWrites(c, m.containers[i..], j, ks))
    decreases |m.containers| - i
  {
    var ms := m.containers;
    if i < |ms| {
      assert ms[i..][0] == ms[i] && ms[i..][1..] == ms[i + 1..];
      var nodes := Located(ms[i].path, j);
      var first, rest := NodesWrites(c, ms[i], nodes, ks), EntriesWrites(c, ms[i + 1..], j, ks[|nodes|..]);
      forall x: nat, y: nat | x < y < |nodes|
        ensures Diverge(nodes[x], nodes[y])
      {
        NodesDiverge(ms[i].path, j, x, y);
      }
      NodesWritesDiverge(c, m, i, j, nodes, ks);
      EntriesWritesDiverge(c, m, i + 1, j, ks[|nodes|..]);
      forall x, y | x in first && y in rest
        ensures Diverge(x.path, y.path)
      {
        NodesWritesAt(c, ms, i, j, nodes, ks, x);
        var a: nat, node :| node in nodes && WrittenAt(ms, j, x.path, i, a, node);
        EntriesWritesAt(c, ms, i + 1, j, ks[|nodes|..], y);
        var l: nat, b: nat, other :| i + 1 <= l && WrittenAt(ms, j, y.path, l, b, other);
        TargetsDiverge(m, j, x.path, i, a, node, y.path, l, b, other);
      }
      ConcatDiverge(first, rest);
    }
  }

  lemma WritesDiverge(c: Codec, m: Mapping, j: Json, v: PodTemplate)
    requires Disjoint(m) && Fits(m.containers, j, v.containers)
    ensures PairwiseDiverge(Writes(c, m, j, v))
  {
    var ms := m.containers;
    var first := [Update(Keys(m.annotations), c.annotations.enc(v.annotations))];
    var middle := EntriesWrites(c, ms, j, v.containers);
    var last := [Update(Keys(m.volumes), c.volumes.enc(v.volumes))];
    assert ms[0..] == ms;
    EntriesWritesDiverge(c, m, 0, j, v.containers);
    FieldsMatchKeys(m.annotations);
    FieldsMatchKeys(m.volumes);
    forall w | w in middle
      ensures Diverge(first[0].path, w.path) && Diverge(w.path, last[0].path)
    {
      EntriesWritesAt(c, ms, 0, j, v.containers, w);
      var l: nat, a: nat, node :| WrittenAt(ms, j, w.path, l, a, node);
      TargetMatches(ms, l, a, j, node);
      ApartDiverges(Patterns.FieldSteps(m.annotations), TargetPattern(ms, l, a), first[0].path, w.path);
      ApartDiverges(Patterns.FieldSteps(m.volumes), TargetPattern(ms, l, a), last[0].path, w.path);
      DivergeSymmetric(last[0].path, w.path);
    }
    ApartDiverges(Patterns.FieldSteps(m.annotations), Patterns.FieldSteps(m.volumes), first[0].path, last[0].path);
    ConcatDiverge(first, middle);
    ConcatDiverge(first + middle, last);
  }

  /* ---- the writes leave the container nodes where they are ---- */

  /** The expressions find the nodes they found in `j`, and none is null. */
  ghost predicate Frame(ms: seq<ContainerMapping>, j: Json, r: Json)
  {
    forall i :: 0 <= i < |ms| ==>
      Nodes(ms[i].path, r) == Nodes(ms[i].path, j) && forall p :: p in Located(ms[i].path, j) ==> Solid(r, p)
  }

  ghost predicate Beside(p: Path, q: Path)
  {
    Diverge(p, q) || (|q| < |p| && p[..|q|] == q)
  }

  /** Writing at `p` is calm for every expression and beside or below every node, wherever the frame holds. */
  ghost predicate Safe(ms: seq<ContainerMapping>, j: Json, p: Path)
  {
    forall r, i :: Frame(ms, j, r) && 0 <= i < |ms| ==>
      Calm(ms[i].path, r, p) && forall q :: q in Located(ms[i].path, j) ==> Beside(p, q)
  }

  lemma FramePut(ms: seq<ContainerMapping>, j: Json, r: Json, p: Path, x: Json)
    requires Frame(ms, j, r) && Safe(ms, j, p) && Put(r, p, x).Ok?
    ensures Frame(ms, j, Put(r, p, x).value)
  {
    forall i | 0 <= i < |ms|
      ensures Nodes(ms[i].path, Put(r, p, x).value) == Nodes(ms[i].path, j)
      ensures forall q :: q in Located(ms[i].path, j) ==> Solid(Put(r, p, x).value, q)
    {
      NodesStable(ms[i].path, r, p, x);
      forall q | q in Located(ms[i].path, j)
        ensures Solid(Put(r, p, x).value, q)
      {
        SolidAfterPut(r, p, x, q);
      }
    }
  }

  lemma {:induction false} FramePutAll(ms: seq<ContainerMapping>, j: Json, r: Json, ws: seq<Update>)
    requires Frame(ms, j, r) && PutAll(r, ws).Ok?
    requires forall w :: w in ws ==> Safe(ms, j, w.path)
    ensures Frame(ms, j, PutAll(r, ws).value)
    decreases |ws|
  {
    if ws != [] {
      assert ws[0] in ws;
      FramePut(ms, j, r, ws[0].path, ws[0].value);
      FramePutAll(ms, j, Put(r, ws[0].path, ws[0].value).value, ws[1..]);
    }
  }

  lemma MissesIsBeside(s: Pattern, p: Path, q: Path)
    requires Misses(s, p) && Matches(s, q)
    ensures Beside(p, q)
  {
    MissesDiverges(s, q, p);
    DivergeSymmetric(p, q);
  }

  /** A node of one entry as seen by the expression of another that stops at or above it. */
  lemma AboveNode(s: Pattern, t: Pattern, node: Path, below: Path)
    requires s <= t && Matches(t, node) && below != []
    ensures Matches(s, (node + below)[..|s|])
  {
    forall x | 0 <= x < |s|
      ensures StepMatches(s[x], (node + below)[x])
    {
      assert StepMatches(t[x], node[x]);
    }
  }

  lemma BesideAbove(s: Pattern, p: Path, q: Path)
    requires |s| < |p| && Matches(s, p[..|s|]) && Matches(s, q)
    ensures Beside(p, q)
  {
    SamePatternDiverges(s, p[..|s|], q);
    if p[..|s|] != q {
      DivergeExtends(p[..|s|], q, p[|s|..], []);
      assert p[..|s|] + p[|s|..] == p && q + [] == q;
    }
  }

  lemma PrefixNode(s: Patterns.Pattern, keys: seq<string>, j: Json)
    requires s <= Patterns.FieldSteps(keys)
    ensures Matches(s, Keys(keys)[..|s|])
    ensures Located(s, j) == if Present(j, Keys(keys)[..|s|]) then [Keys(keys)[..|s|]] else []
  {
    var ks := keys[..|s|];
    assert s == Patterns.FieldSteps(ks) && Keys(keys)[..|s|] == Keys(ks);
    FieldsMatchKeys(ks);
    FieldNode(ks, j);
  }

  /** A container is apart from the location at `keys`, or has been found on the way to it. */
  lemma ContainerOnTheWay(m: Mapping, j: Json, keys: seq<string>, i: nat)
    requires Disjoint(m) && (keys == m.annotations || keys == m.volumes) && i < |m.containers|
    requires Anchored(m.containers, j, keys)
    ensures var s := m.containers[i].path;
      Apart(s, Patterns.FieldSteps(keys)) ||
      (|s| < |keys| && Matches(s, Keys(keys)[..|s|]) && Keys(keys)[..|s|] in Located(s, j))
  {
    var s := m.containers[i].path;
    assert ThereBefore(m.containers[i], j, keys);
    assert Target(m.containers, i, 0);
    ApartOrPrefix(s, Patterns.FieldSteps(KeysOf(m.containers[i])[0]), Patterns.FieldSteps(keys));
    if !Apart(s, Patterns.FieldSteps(keys)) {
      PrefixNode(s, keys, j);
    }
  }

  /** The annotations and the volumes are written at safe locations. */
  lemma RootSafe(m: Mapping, j: Json, keys: seq<string>)
    requires Disjoint(m) && (keys == m.annotations || keys == m.volumes) && Anchored(m.containers, j, keys)
    ensures Safe(m.containers, j, Keys(keys))
  {
    var ms := m.containers;
    FieldsMatchKeys(keys);
    forall i | 0 <= i < |ms|
      ensures forall r :: Frame(ms, j, r) ==> Calm(ms[i].path, r, Keys(keys))
      ensures forall q :: q in Located(ms[i].path, j) ==> Beside(Keys(keys), q)
    {
      ContainerOnTheWay(m, j, keys, i);
      if Apart(ms[i].path, Patterns.FieldSteps(keys)) {
        ApartMisses(ms[i].path, Patterns.FieldSteps(keys), Keys(keys));
      }
      forall q | q in Located(ms[i].path, j)
        ensures Beside(Keys(keys), q)
      {
        NodeFound(ms[i].path, j, q);
        if Apart(ms[i].path, Patterns.FieldSteps(keys)) {
          MissesIsBeside(ms[i].path, Keys(keys), q);
        } else {
          BesideAbove(ms[i].path, Keys(keys), q);
        }
      }
    }
  }

  /** A location in a container node is calm for the expression of every entry. */
  lemma NodeCalm(m: Mapping, j: Json, r: Json, p: Path, l: nat, a: nat, node: Path, i: nat)
    requires Disjoint(m) && WrittenAt(m.containers, j, p, l, a, node) && Solid(r, node) && i < |m.containers|
    ensures Calm(m.containers[i].path, r, p)
  {
    var ms, s, t := m.containers, m.containers[i].path, m.containers[l].path;
    TargetMatches(ms, l, a, j, node);
    if s <= t {
      AboveNode(s, t, node, Keys(KeysOf(ms[l])[a]));
      SolidPrefix(r, node, |s|);
      assert p[..|s|] == node[..|s|];
    } else {
      ApartMisses(s, TargetPattern(ms, l, a), p);
    }
  }

  /** It lies beside every node, or in a node in which the written one lies too. */
  lemma NodeBeside(m: Mapping, j: Json, p: Path, l: nat, a: nat, node: Path, i: nat, q: Path)
    requires Disjoint(m) && WrittenAt(m.containers, j, p, l, a, node) && i < |m.containers|
    requires q in Located(m.containers[i].path, j)
    ensures Diverge(p, q) || (|q| < |p| && p[..|q|] == q && |q| <= |node| && q == node[..|q|])
  {
    var ms, s, t := m.containers, m.containers[i].path, m.containers[l].path;
    TargetMatches(ms, l, a, j, node);
    NodeFound(s, j, q);
    if s <= t {
      AboveNode(s, t, node, Keys(KeysOf(ms[l])[a]));
      assert p[..|s|] == node[..|s|];
      BesideAbove(s, p, q);
    } else {
      ApartMisses(s, TargetPattern(ms, l, a), p);
      MissesDiverges(s, q, p);
      DivergeSymmetric(p, q);
    }
  }

  /** So are the locations in the container nodes. */
  lemma NodeSafe(m: Mapping, j: Json, p: Path, l: nat, a: nat, node: Path)
    requires Disjoint(m) && WrittenAt(m.containers, j, p, l, a, node)
    ensures Safe(m.containers, j, p)
  {
    var ms := m.containers;
    forall r, i | Frame(ms, j, r) && 0 <= i < |ms|
      ensures Calm(ms[i].path, r, p) && forall q :: q in Located(ms[i].path, j) ==> Beside(p, q)
    {
      assert Solid(r, node);
      NodeCalm(m, j, r, p, l, a, node, i);
      forall q | q in Located(ms[i].path, j)
        ensures Beside(p, q)
      {
        NodeBeside(m, j, p, l, a, node, i, q);
      }
    }
  }
}
