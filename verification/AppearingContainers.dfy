/** Exactly when a view that has been read can be written back: writing the annotations must not make a container
    appear, and no container that they do not lie in may be null. */
module AppearingContainers {
  import opened Wrappers
  import opened Bindings
  import opened Json
  import opened Patterns
  import opened Workload
  import opened WorkloadLens
  import opened LensLaws

  /* ---- more nodes than containers ---- */

  /** Every mapped location in the nodes found in `j` can be read in `r`. */
  ghost predicate Readable(ms: seq<ContainerMapping>, j: Json, r: Json)
  {
    forall p, i, a, node :: WrittenAt(ms, j, p, i, a, node) ==> Get(r, p).Ok?
  }

  /** The container nodes of the entries from the `i`-th on. */
  function CountNodes(ms: seq<ContainerMapping>, j: Json): nat
    decreases |ms|
  {
    if ms == [] then 0 else |Located(ms[0].path, j)| + CountNodes(ms[1..], j)
  }

  /** The expressions find the nodes they found in `j`, and the null ones among them are the same. */
  ghost predicate Still(ms: seq<ContainerMapping>, j: Json, r: Json)
  {
    forall i :: 0 <= i < |ms| ==>
      && Nodes(ms[i].path, r) == Nodes(ms[i].path, j)
      && forall p :: p in Located(ms[i].path, j) ==> (Solid(r, p) <==> Solid(j, p))
  }

  /** Nothing has moved, and everything can still be read. */
  ghost predicate Ready(ms: seq<ContainerMapping>, j: Json, r: Json)
  {
    Still(ms, j, r) && Readable(ms, j, r)
  }

  /** A write into a node that is not null neither moves a node nor fills a null one. */
  lemma StillPut(m: Mapping, j: Json, r: Json, p: Path, l: nat, a: nat, node: Path, x: Json)
    requires Disjoint(m) && Still(m.containers, j, r) && WrittenAt(m.containers, j, p, l, a, node)
    requires Solid(r, node) && Put(r, p, x).Ok?
    ensures Still(m.containers, j, Put(r, p, x).value)
  {
    var ms := m.containers;
    forall i | 0 <= i < |ms|
      ensures Nodes(ms[i].path, Put(r, p, x).value) == Nodes(ms[i].path, j)
      ensures forall q :: q in Located(ms[i].path, j) ==> (Solid(Put(r, p, x).value, q) <==> Solid(j, q))
    {
      NodeCalm(m, j, r, p, l, a, node, i);
      NodesStable(ms[i].path, r, p, x);
      forall q | q in Located(ms[i].path, j)
        ensures Solid(Put(r, p, x).value, q) <==> Solid(r, q)
      {
        NodeBeside(m, j, p, l, a, node, i, q);
        if Diverge(p, q) {
          GetOther(r, p, x, q);
        } else {
          SolidPrefix(r, node, |q|);
          SolidAfterPut(r, p, x, q);
        }
      }
    }
  }

  lemma WrittenApart(m: Mapping, j: Json, p: Path, i: nat, a: nat, node: Path, q: Path, l: nat, b: nat, other: Path)
    requires Disjoint(m) && WrittenAt(m.containers, j, p, i, a, node) && WrittenAt(m.containers, j, q, l, b, other)
    ensures p == q || Diverge(p, q)
  {
    if i < l || (i == l && a < b) {
      TargetsDiverge(m, j, p, i, a, node, q, l, b, other);
    } else if l < i || b < a {
      TargetsDiverge(m, j, q, l, b, other, p, i, a, node);
      DivergeSymmetric(p, q);
    } else if node != other {
      NodeFound(m.containers[i].path, j, node);
      NodeFound(m.containers[i].path, j, other);
      SamePatternDiverges(m.containers[i].path, node, other);
      TargetsDiverge(m, j, p, i, a, node, q, l, b, other);
    }
  }

  /** One write into a node found. */
  lemma WriteKeepsReady(m: Mapping, j: Json, r: Json, i: nat, a: nat, node: Path, x: Json)
    requires Disjoint(m) && Ready(m.containers, j, r)
    requires Target(m.containers, i, a) && node in Located(m.containers[i].path, j) && Solid(j, node)
    ensures SetAt(r, node, KeysOf(m.containers[i])[a], x).Ok?
    ensures Ready(m.containers, j, SetAt(r, node, KeysOf(m.containers[i])[a], x).value)
  {
    var ms := m.containers;
    var p := node + Keys(KeysOf(ms[i])[a]);
    assert WrittenAt(ms, j, p, i, a, node);
    assert Solid(r, node);
    PutOkIffGetOk(r, p, x);
    StillPut(m, j, r, p, i, a, node, x);
    forall q, l, b, other | WrittenAt(ms, j, q, l, b, other)
      ensures Get(Put(r, p, x).value, q).Ok?
    {
      WrittenApart(m, j, p, i, a, node, q, l, b, other);
      if p == q {
        PutGet(r, p, x);
      } else {
        GetOther(r, p, x, q);
      }
    }
  }

  /** The writes into one node. */
  lemma NodeKeepsReady(c: Codec, m: Mapping, j: Json, r: Json, i: nat, node: Path, k: Container)
    requires Disjoint(m) && Ready(m.containers, j, r)
    requires i < |m.containers| && node in Located(m.containers[i].path, j) && Solid(j, node)
    ensures WriteNode(c, m.containers[i], r, node, k).Ok?
    ensures Ready(m.containers, j, WriteNode(c, m.containers[i], r, node, k).value)
  {
    var e := m.containers[i];
    var n := |KeysOf(e)| - 2;
    assert KeysOf(e)[n] == e.env && KeysOf(e)[n + 1] == e.volumeMounts;
    var r1 := r;
    if e.name.Some? && k.name.Some? {
      WriteKeepsReady(m, j, r, i, 0, node, c.name.enc(k.name.value));
      r1 := SetAt(r, node, e.name.value, c.name.enc(k.name.value)).value;
    }
    WriteKeepsReady(m, j, r1, i, n, node, c.env.enc(k.env));
    var r2 := SetAt(r1, node, e.env, c.env.enc(k.env)).value;
    WriteKeepsReady(m, j, r2, i, n + 1, node, c.volumeMounts.enc(k.volumeMounts));
  }

  /** No value can be written into a null node. */
  lemma NullNodePanics(c: Codec, m: Mapping, j: Json, r: Json, i: nat, node: Path, k: Container)
    requires Still(m.containers, j, r) && i < |m.containers| && node in Located(m.containers[i].path, j)
    requires !Solid(j, node)
    ensures WriteNode(c, m.containers[i], r, node, k).Panic?
  {
    var s := m.containers[i].path;
    assert Nodes(s, r) == Nodes(s, j);
    NodeFound(s, r, node);
  }

  ghost predicate AllSolid(j: Json, nodes: seq<Path>)
  {
    forall p :: p in nodes ==> Solid(j, p)
  }

  lemma AllSolidSplit(j: Json, nodes: seq<Path>)
    requires nodes != []
    ensures AllSolid(j, nodes) <==> Solid(j, nodes[0]) && AllSolid(j, nodes[1..])
  {
    assert nodes == [nodes[0]] + nodes[1..];
  }

  /** The loop over the nodes of one entry ends with a panic exactly when there are too few containers, or a node is
      null. */
  lemma {:induction false} NodesRunOut(c: Codec, m: Mapping, j: Json, r: Json, i: nat, nodes: seq<Path>,
                                       ks: seq<Container>)
    requires Disjoint(m) && Ready(m.containers, j, r) && i < |m.containers|
    requires forall p :: p in nodes ==> p in Located(m.containers[i].path, j)
    ensures var o := WriteNodes(c, m.containers[i], r, nodes, ks);
      if |nodes| <= |ks| && AllSolid(j, nodes)
      then o.Ok? && o.value.1 == ks[|nodes|..] && Ready(m.containers, j, o.value.0) else o.Panic?
    decreases |nodes|
  {
    if nodes != [] && ks != [] {
      assert nodes[0] in nodes;
      AllSolidSplit(j, nodes);
      if Solid(j, nodes[0]) {
        NodeKeepsReady(c, m, j, r, i, nodes[0], ks[0]);
        NodesRunOut(c, m, j, WriteNode(c, m.containers[i], r, nodes[0], ks[0]).value, i, nodes[1..], ks[1..]);
      } else {
        NullNodePanics(c, m, j, r, i, nodes[0], ks[0]);
      }
    }
  }

  lemma EntryRunsOut(c: Codec, m: Mapping, j: Json, r: Json, i: nat, ks: seq<Container>)
    requires Disjoint(m) && Ready(m.containers, j, r) && i < |m.containers|
    ensures var nodes := Located(m.containers[i].path, j);
      var o := WriteNodes(c, m.containers[i], r, nodes, ks);
      && Located(m.containers[i].path, r) == nodes
      && if |nodes| <= |ks| && AllSolid(j, nodes)
         then o.Ok? && o.value.1 == ks[|nodes|..] && Ready(m.containers, j, o.value.0) else o.Panic?
  {
    assert Nodes(m.containers[i].path, r) == Nodes(m.containers[i].path, j);
    NodesRunOut(c, m, j, r, i, Located(m.containers[i].path, j), ks);
  }

  /** No node of the entries is null. */
  ghost predicate EntriesSolid(ms: seq<ContainerMapping>, j: Json)
  {
    forall i :: 0 <= i < |ms| ==> AllSolid(j, Located(ms[i].path, j))
  }

  lemma EntriesSolidSplit(ms: seq<ContainerMapping>, j: Json)
    requires ms != []
    ensures EntriesSolid(ms, j) <==> AllSolid(j, Located(ms[0].path, j)) && EntriesSolid(ms[1..], j)
  {
    forall i | 0 < i < |ms|
      ensures ms[i] == ms[1..][i - 1]
    {
    }
  }

  /** The loop over all entries panics exactly when there are fewer containers than nodes, or a node is null. */
  lemma {:induction false} EntriesRunOut(c: Codec, m: Mapping, j: Json, r: Json, i: nat, ks: seq<Container>)
    requires Disjoint(m) && Ready(m.containers, j, r) && i <= |m.containers|
    ensures var o := WriteEntries(c, m.containers[i..], r, ks);
      if CountNodes(m.containers[i..], j) <= |ks| && EntriesSolid(m.containers[i..], j)
      then o.Ok? && Ready(m.containers, j, o.value.0) else o.Panic?
    decreases |m.containers| - i
  {
    if i < |m.containers| {
      var ms := m.containers[i..];
      assert ms[0] == m.containers[i] && ms[1..] == m.containers[i + 1..];
      var nodes := Located(ms[0].path, j);
      EntryRunsOut(c, m, j, r, i, ks);
      EntriesSolidSplit(ms, j);
      if |nodes| <= |ks| && AllSolid(j, nodes) {
        EntriesRunOut(c, m, j, WriteNodes(c, ms[0], r, nodes, ks).value.0, i + 1, ks[|nodes|..]);
      }
    }
  }

  lemma {:induction false} FitsCount(ms: seq<ContainerMapping>, j: Json, ks: seq<Container>)
    requires Fits(ms, j, ks)
    ensures |ks| == CountNodes(ms, j)
    decreases |ms|
  {
    if ms != [] {
      FitsCount(ms[1..], j, ks[|Located(ms[0].path, j)|..]);
    }
  }

  /* ---- after the annotations have been written ---- */

  /** The way to a location that has been written is there. */
  lemma {:induction false} WayIsSolid(j: Json, keys: seq<string>, x: Json, n: nat)
    requires Put(j, Keys(keys), x).Ok? && n < |keys|
    ensures Solid(Put(j, Keys(keys), x).value, Keys(keys)[..n])
    decreases n
  {
    FieldStepsTail(keys);
    if n > 0 {
      WayIsSolid(Child(j, keys[0]), keys[1..], x, n - 1);
      assert Keys(keys)[..n][0] == Key(keys[0]) && Keys(keys)[..n][1..] == Keys(keys[1..])[..n - 1];
    }
  }

  /** Below a place that is not there, everything reads as null. */
  lemma {:induction false} ReadBelowAbsent(j: Json, keys: seq<string>, n: nat, below: seq<string>)
    requires Get(j, Keys(keys)).Ok? && n <= |keys| && !Present(j, Keys(keys)[..n])
    ensures Get(j, Keys(keys)[..n] + Keys(below)) == Ok(Null)
    decreases n
  {
    assert n > 0;
    FieldStepsTail(keys);
    var p := Keys(keys)[..n] + Keys(below);
    assert p[0] == Key(keys[0]) && p[1..] == Keys(keys[1..])[..n - 1] + Keys(below);
    assert Keys(keys)[..n][0] == Key(keys[0]) && Keys(keys)[..n][1..] == Keys(keys[1..])[..n - 1];
    if j.Object? && keys[0] in j.fields {
      ReadBelowAbsent(j.fields[keys[0]], keys[1..], n - 1, below);
    } else {
      var rest := keys[1..n] + below;
      assert p[1..] == Keys(rest);
      NullThroughout(rest);
    }
  }

  lemma {:induction false} PrefixNotApart(s: Pattern, t: Pattern)
    requires s <= t
    ensures !Apart(s, t)
    decreases |s|
  {
    if s != [] {
      assert s[0] == t[0] && s[1..] <= t[1..];
      PrefixNotApart(s[1..], t[1..]);
    }
  }

  /** The nodes of one entry: those of before, or the one that writing the annotations has made appear. */
  lemma NodeKept(m: Mapping, j: Json, x: Json, i: nat)
    requires Disjoint(m) && i < |m.containers| && Put(j, Keys(m.annotations), x).Ok?
    ensures var s := m.containers[i].path; var r := Put(j, Keys(m.annotations), x).value;
      if s <= FieldSteps(m.annotations) then |s| < |m.annotations| && Present(r, Keys(m.annotations)[..|s|])
      else Apart(s, FieldSteps(m.annotations)) && Nodes(s, r) == Nodes(s, j)
  {
    var s, keys := m.containers[i].path, m.annotations;
    assert Target(m.containers, i, 0);
    ApartOrPrefix(s, FieldSteps(KeysOf(m.containers[i])[0]), FieldSteps(keys));
    if s <= FieldSteps(keys) {
      PrefixNotApart(s, FieldSteps(keys));
      WayIsSolid(j, keys, x, |s|);
      SolidIsPresent(Put(j, Keys(keys), x).value, Keys(keys)[..|s|]);
    } else {
      FieldsMatchKeys(keys);
      ApartMisses(s, FieldSteps(keys), Keys(keys));
      NodesStable(s, j, Keys(keys), x);
    }
  }

  /** The mapped locations in a node of the annotated workload, whether it was there before or not. */
  lemma TargetStaysReadable(c: Codec, m: Mapping, j: Json, x: Json, p: Path, i: nat, a: nat, node: Path)
    requires Disjoint(m) && Read(c, m, j).Ok? && Put(j, Keys(m.annotations), x).Ok?
    requires WrittenAt(m.containers, Put(j, Keys(m.annotations), x).value, p, i, a, node)
    ensures Get(Put(j, Keys(m.annotations), x).value, p).Ok?
  {
    var ms, s, keys := m.containers, m.containers[i].path, m.annotations;
    var r := Put(j, Keys(keys), x).value;
    TargetMatches(ms, i, a, r, node);
    FieldsMatchKeys(keys);
    ApartDiverges(FieldSteps(keys), TargetPattern(ms, i, a), Keys(keys), p);
    GetOther(j, Keys(keys), x, p);
    NodeKept(m, j, x, i);
    if node in Located(s, j) {
      assert WrittenAt(ms, j, p, i, a, node);
      TargetReadable(c, ms, j, p, i, a, node);
    } else {
      PrefixNode(s, keys, j);
      PrefixNode(s, keys, r);
      PutOkIffGetOk(j, Keys(keys), x);
      ReadBelowAbsent(j, keys, |s|, KeysOf(ms[i])[a]);
    }
  }

  /** The annotated workload is ready for the containers. */
  lemma AnnotatedIsReady(c: Codec, m: Mapping, j: Json, x: Json)
    requires Disjoint(m) && Read(c, m, j).Ok? && Put(j, Keys(m.annotations), x).Ok?
    ensures Ready(m.containers, Put(j, Keys(m.annotations), x).value, Put(j, Keys(m.annotations), x).value)
  {
    var ms, r := m.containers, Put(j, Keys(m.annotations), x).value;
    forall p, i, a, node | WrittenAt(ms, r, p, i, a, node)
      ensures Get(r, p).Ok?
    {
      TargetStaysReadable(c, m, j, x, p, i, a, node);
    }
  }

  /** Writing the annotations turns a null node into an object exactly where they lie in it. */
  lemma NodesOfEntrySolid(m: Mapping, j: Json, x: Json, i: nat)
    requires Disjoint(m) && i < |m.containers| && Put(j, Keys(m.annotations), x).Ok?
    ensures var s := m.containers[i].path; var r := Put(j, Keys(m.annotations), x).value;
      AllSolid(r, Located(s, r)) <==> s <= FieldSteps(m.annotations) || AllSolid(j, Located(s, j))
  {
    var s, keys := m.containers[i].path, m.annotations;
    var r := Put(j, Keys(keys), x).value;
    NodeKept(m, j, x, i);
    if s <= FieldSteps(keys) {
      PrefixNode(s, keys, r);
      WayIsSolid(j, keys, x, |s|);
    } else {
      FieldsMatchKeys(keys);
      ApartMisses(s, FieldSteps(keys), Keys(keys));
      forall p | p in Located(s, j)
        ensures Solid(r, p) <==> Solid(j, p)
      {
        NodeFound(s, j, p);
        MissesDiverges(s, p, Keys(keys));
        DivergeSymmetric(p, Keys(keys));
        GetOther(j, Keys(keys), x, p);
      }
    }
  }

  lemma AnchoredSplit(ms: seq<ContainerMapping>, j: Json, keys: seq<string>)
    requires ms != []
    ensures Anchored(ms, j, keys) <==> ThereBefore(ms[0], j, keys) && Anchored(ms[1..], j, keys)
  {
    if Anchored(ms, j, keys) {
      assert ThereBefore(ms[0], j, keys);
      forall i | 0 <= i < |ms[1..]|
        ensures ThereBefore(ms[1..][i], j, keys)
      {
        assert ThereBefore(ms[i + 1], j, keys);
      }
    }
    if ThereBefore(ms[0], j, keys) && Anchored(ms[1..], j, keys) {
      forall i | 0 <= i < |ms|
        ensures ThereBefore(ms[i], j, keys)
      {
        if i > 0 {
          assert ThereBefore(ms[1..][i - 1], j, keys);
        }
      }
    }
  }

  /** Annotating makes nodes appear exactly when there are containers on the way that were not there. */
  lemma {:induction false} NodesAppear(m: Mapping, j: Json, x: Json, i: nat)
    requires Disjoint(m) && i <= |m.containers| && Put(j, Keys(m.annotations), x).Ok?
    ensures var before, after := CountNodes(m.containers[i..], j),
                                 CountNodes(m.containers[i..], Put(j, Keys(m.annotations), x).value);
      if Anchored(m.containers[i..], j, m.annotations) then before == after else before < after
    decreases |m.containers| - i
  {
    if i < |m.containers| {
      var ms, s := m.containers[i..], m.containers[i].path;
      assert ms[0] == m.containers[i] && ms[1..] == m.containers[i + 1..];
      NodeKept(m, j, x, i);
      NodesAppear(m, j, x, i + 1);
      if s <= FieldSteps(m.annotations) {
        PrefixNode(s, m.annotations, j);
        PrefixNode(s, m.annotations, Put(j, Keys(m.annotations), x).value);
      }
      AnchoredSplit(ms, j, m.annotations);
    }
  }

  /* ---- writing back what has been read ---- */

  /** The annotations and the volumes are not in any container. */
  lemma RootsUnseen(c: Codec, m: Mapping, j: Json, ks: seq<Container>, keys: seq<string>)
    requires Disjoint(m) && WriteEntries(c, m.containers, j, ks).Ok? && (keys == m.annotations || keys == m.volumes)
    ensures Get(WriteEntries(c, m.containers, j, ks).value.0, Keys(keys)) == Get(j, Keys(keys))
  {
    FieldsMatchKeys(keys);
    forall i: nat, a: nat | Target(m.containers, i, a)
      ensures Misses(TargetPattern(m.containers, i, a), Keys(keys))
    {
      ApartSymmetric(FieldSteps(keys), TargetPattern(m.containers, i, a));
      ApartMisses(TargetPattern(m.containers, i, a), FieldSteps(keys), Keys(keys));
    }
    TargetsOutside(m, Keys(keys));
    WriteEntriesFrame(c, m.containers, j, ks, Keys(keys));
  }

  /** The last write, after the annotations `x` and the containers. */
  lemma VolumesWritten(c: Codec, m: Mapping, j: Json, x: Json, ks: seq<Container>, z: Json)
    requires Disjoint(m) && Get(j, Keys(m.volumes)).Ok? && Put(j, Keys(m.annotations), x).Ok? && x != Null
    requires WriteEntries(c, m.containers, Put(j, Keys(m.annotations), x).value, ks).Ok?
    ensures SetAt(WriteEntries(c, m.containers, Put(j, Keys(m.annotations), x).value, ks).value.0, [], m.volumes, z).Ok?
  {
    var r := Put(j, Keys(m.annotations), x).value;
    var u := WriteEntries(c, m.containers, r, ks).value.0;
    FieldsMatchKeys(m.annotations);
    FieldsMatchKeys(m.volumes);
    ApartDiverges(FieldSteps(m.annotations), FieldSteps(m.volumes), Keys(m.annotations), Keys(m.volumes));
    GetOther(j, Keys(m.annotations), x, Keys(m.volumes));
    RootsUnseen(c, m, r, ks, m.volumes);
    PutOkIffGetOk(u, Keys(m.volumes), z);
    assert [] + Keys(m.volumes) == Keys(m.volumes);
    PutGet(j, Keys(m.annotations), x);
    RootsUnseen(c, m, r, ks, m.annotations);
    NullThroughout(m.annotations);
  }

  /** Every node found is not null, or the annotations are written into it before the containers are. */
  ghost predicate SolidOrAnnotated(m: Mapping, j: Json)
  {
    forall i, p :: 0 <= i < |m.containers| && p in Located(m.containers[i].path, j) ==>
      Solid(j, p) || m.containers[i].path <= FieldSteps(m.annotations)
  }

  lemma SolidAfterAnnotating(m: Mapping, j: Json, x: Json)
    requires Disjoint(m) && Put(j, Keys(m.annotations), x).Ok?
    ensures EntriesSolid(m.containers, Put(j, Keys(m.annotations), x).value) <==> SolidOrAnnotated(m, j)
  {
    var ms, r := m.containers, Put(j, Keys(m.annotations), x).value;
    forall i | 0 <= i < |ms|
      ensures AllSolid(r, Located(ms[i].path, r))
         <==> ms[i].path <= FieldSteps(m.annotations) || AllSolid(j, Located(ms[i].path, j))
    {
      NodesOfEntrySolid(m, j, x, i);
    }
  }

  /** A view that has been read can be written back exactly when every container on the way to the annotations is
      there already and no other one is null. Otherwise the write panics: it runs out of containers, or has no map to
      write to. */
  lemma WriteAfterReadExactly(c: Codec, m: Mapping, j: Json)
    requires LosslessCodec(c) && Disjoint(m) && j != Null && Read(c, m, j).Ok?
    ensures var o := Write(c, m, j, Read(c, m, j).value);
      if Anchored(m.containers, j, m.annotations) && SolidOrAnnotated(m, j) then o.Ok? else o.Panic?
  {
    var v := Read(c, m, j).value;
    var x := c.annotations.enc(v.annotations);
    PutOkIffGetOk(j, Keys(m.annotations), x);
    assert [] + Keys(m.annotations) == Keys(m.annotations);
    var r := Put(j, Keys(m.annotations), x).value;
    ReadFits(c, m.containers, j);
    FitsCount(m.containers, j, v.containers);
    AnnotatedIsReady(c, m, j, x);
    assert m.containers[0..] == m.containers;
    NodesAppear(m, j, x, 0);
    SolidAfterAnnotating(m, j, x);
    EntriesRunOut(c, m, r, r, 0, v.containers);
    if Anchored(m.containers, j, m.annotations) && SolidOrAnnotated(m, j) {
      VolumesWritten(c, m, j, x, v.containers, c.volumes.enc(v.volumes));
    }
  }

  /** A mapping whose annotations lie below its container. */
  function NestedMapping(): Mapping
  {
    Mapping(["a", "n"], [ContainerMapping([Field("a")], None, ["e"], ["v"])], ["w"])
  }

  lemma NestedReadsNothing(c: Codec)
    ensures Read(c, NestedMapping(), Object(map[])) == Ok(PodTemplate(map[], [], []))
  {
    var m, j := NestedMapping(), Object(map[]);
    var keys := Keys(m.annotations);
    var none: seq<Container> := [];
    assert keys == [Key("a"), Key("n")] && keys[1..] == [Key("n")] && keys[1..][1..] == [];
    assert Keys(m.volumes) == [Key("w")] && [Key("w")][1..] == [];
    assert Get(Null, [Key("n")]) == Ok(Null) && Get(j, keys) == Ok(Null) && Get(j, [Key("w")]) == Ok(Null);
    assert m.containers[1..] == [] && Located(m.containers[0].path, j) == [];
    assert ReadEntries(c, m.containers[1..], j) == Ok(none);
    ReadEntriesStep(c, m.containers, j, none, none);
    assert none + none == none;
    assert ReadEntries(c, m.containers, j) == Ok(none);
    assert ReadAt(c.annotations, j, keys, map[]) == Ok(map[]);
    assert ReadAt(c.volumes, j, Keys(m.volumes), []) == Ok([]);
  }

  lemma NestedAppears(j1: Json, x: Json)
    requires j1 == Object(map["a" := x])
    ensures |Located(NestedMapping().containers[0].path, j1)| == 1
  {
    var p := NestedMapping().containers[0].path;
    assert p[1..] == [];
    assert Nodes(p[1..], x) == Some([[]]);
    assert Located(p, j1) == Prefix(Key("a"), [[]]);
  }

  lemma SecondFieldApart(x: string, n: string, e: string)
    requires n != e
    ensures Apart([Field(x), Field(n)], [Field(x), Field(e)])
  {
    assert [Field(x), Field(n)][1..] == [Field(n)] && [Field(x), Field(e)][1..] == [Field(e)];
  }

  lemma NestedTarget(i: nat, a: nat)
    requires Target(NestedMapping().containers, i, a)
    ensures i == 0 && a < 2 && KeysOf(NestedMapping().containers[0])[a] != []
    ensures TargetPattern(NestedMapping().containers, i, a) == [Field("a"), Field(if a == 0 then "e" else "v")]
  {
    assert KeysOf(NestedMapping().containers[0]) == [["e"], ["v"]];
  }

  lemma NestedIsDisjoint()
    ensures Disjoint(NestedMapping())
  {
    var m := NestedMapping();
    var ms := m.containers;
    assert FieldSteps(m.annotations) == [Field("a"), Field("n")] && FieldSteps(m.volumes) == [Field("w")];
    forall i: nat, a: nat | Target(ms, i, a)
      ensures KeysOf(ms[i])[a] != []
      ensures Apart(FieldSteps(m.annotations), TargetPattern(ms, i, a))
      ensures Apart(FieldSteps(m.volumes), TargetPattern(ms, i, a))
    {
      NestedTarget(i, a);
      SecondFieldApart("a", "n", if a == 0 then "e" else "v");
    }
    forall i: nat, a: nat, l: nat, b: nat | Target(ms, i, a) && Target(ms, l, b) && (i < l || (i == l && a < b))
      ensures Apart(TargetPattern(ms, i, a), TargetPattern(ms, l, b))
    {
      NestedTarget(i, a);
      NestedTarget(l, b);
      SecondFieldApart("a", "e", "v");
    }
  }

  lemma NestedWritePanics(c: Codec)
    ensures Write(c, NestedMapping(), Object(map[]), PodTemplate(map[], [], [])).Panic?
  {
    var m, j := NestedMapping(), Object(map[]);
    var x := c.annotations.enc(map[]);
    var keys := Keys(m.annotations);
    assert [] + keys == keys == [Key("a"), Key("n")] && keys[1..] == [Key("n")] && keys[1..][1..] == [];
    assert Put(Null, [Key("n")], x) == Ok(Object(map["n" := x]));
    var j1 := Object(map["a" := Object(map["n" := x])]);
    assert SetAt(j, [], m.annotations, x) == Ok(j1);
    NestedAppears(j1, Object(map["n" := x]));
    assert WriteNodes(c, m.containers[0], j1, Located(m.containers[0].path, j1), []).Panic?;
    assert WriteEntries(c, m.containers, j1, []).Panic?;
  }

  lemma NestedIsNotThere()
    ensures !Anchored(NestedMapping().containers, Object(map[]), NestedMapping().annotations)
  {
    var m := NestedMapping();
    assert Keys(m.annotations)[..1] == [Key("a")];
    assert m.containers[0].path <= FieldSteps(m.annotations);
    assert !ThereBefore(m.containers[0], Object(map[]), m.annotations);
  }

  /** A write can fail after a read succeeded: writing annotations that lie below the container makes a container
      appear which was not there to be read. */
  lemma AppearingContainerPanics(c: Codec)
    ensures Read(c, NestedMapping(), Object(map[])).Ok?
    ensures Write(c, NestedMapping(), Object(map[]), Read(c, NestedMapping(), Object(map[])).value).Panic?
    ensures Disjoint(NestedMapping())
    ensures !Anchored(NestedMapping().containers, Object(map[]), NestedMapping().annotations)
  {
    NestedReadsNothing(c);
    NestedWritePanics(c);
    NestedIsDisjoint();
    NestedIsNotThere();
  }

  /** A mapping that puts nothing inside the container but its own values. */
  function FlatMapping(): Mapping
  {
    Mapping(["a"], [ContainerMapping([Field("c")], None, ["e"], ["v"])], ["w"])
  }

  /** A workload whose container is null. */
  function NullContainer(): Json
  {
    Object(map["c" := Null])
  }

  lemma FlatTarget(i: nat, a: nat)
    requires Target(FlatMapping().containers, i, a)
    ensures i == 0 && a < 2 && KeysOf(FlatMapping().containers[0])[a] != []
    ensures TargetPattern(FlatMapping().containers, i, a) == [Field("c"), Field(if a == 0 then "e" else "v")]
  {
    assert KeysOf(FlatMapping().containers[0]) == [["e"], ["v"]];
  }

  lemma FlatIsSeparated()
    ensures Separated(FlatMapping())
  {
    var m := FlatMapping();
    var ms := m.containers;
    assert FieldSteps(m.annotations) == [Field("a")] && FieldSteps(m.volumes) == [Field("w")];
    forall i: nat, a: nat | Target(ms, i, a)
      ensures KeysOf(ms[i])[a] != []
      ensures Apart(FieldSteps(m.annotations), TargetPattern(ms, i, a))
      ensures Apart(FieldSteps(m.volumes), TargetPattern(ms, i, a))
    {
      FlatTarget(i, a);
    }
    forall i: nat, a: nat, l: nat, b: nat | Target(ms, i, a) && Target(ms, l, b) && (i < l || (i == l && a < b))
      ensures Apart(TargetPattern(ms, i, a), TargetPattern(ms, l, b))
    {
      FlatTarget(i, a);
      FlatTarget(l, b);
      SecondFieldApart("c", "e", "v");
    }
  }

  lemma NullIsLocated()
    ensures Located(FlatMapping().containers[0].path, NullContainer()) == [[Key("c")]]
  {
    var p := FlatMapping().containers[0].path;
    var here: seq<Path> := [[]];
    assert p[1..] == [] && Nodes(p[1..], Null) == Some(here);
    assert [Key("c")] + here[0] == [Key("c")];
    assert Prefix(Key("c"), here) == [[Key("c")]];
  }

  lemma NullIsNotSolid()
    ensures !SolidOrAnnotated(FlatMapping(), NullContainer())
  {
    var m := FlatMapping();
    NullIsLocated();
    assert [Key("c")] in Located(m.containers[0].path, NullContainer());
    assert [Key("c")][1..] == [] && Get(Null, []) == Ok(Null) && !Solid(NullContainer(), [Key("c")]);
    assert m.containers[0].path[0] == Field("c") && FieldSteps(m.annotations)[0] == Field("a");
    assert !(m.containers[0].path <= FieldSteps(m.annotations));
  }

  lemma NothingInNullContainer(k: string)
    ensures Get(NullContainer(), [Key("c")] + [Key(k)]) == Ok(Null)
  {
    var p := [Key("c")] + [Key(k)];
    assert p[0] == Key("c") && p[1..] == [Key(k)] && [Key(k)][1..] == [];
    assert Get(Null, [Key(k)]) == Ok(Null);
  }

  lemma NullReadsUnset(c: Codec)
    ensures Read(c, FlatMapping(), NullContainer()) == Ok(PodTemplate(map[], [Container(None, [], [])], []))
  {
    var m, j, node := FlatMapping(), NullContainer(), [Key("c")];
    var none: seq<Container> := [];
    var unset := Container(None, [], []);
    NothingInNullContainer("e");
    NothingInNullContainer("v");
    assert Keys(["e"]) == [Key("e")] && Keys(["v"]) == [Key("v")];
    assert Keys(["a"]) == [Key("a")] && Keys(["w"]) == [Key("w")];
    assert ReadNode(c, m.containers[0], j, node) == Ok(unset);
    assert [node][1..] == [] && [unset] + none == [unset];
    ReadNodesStep(c, m.containers[0], j, [node], unset, none);
    NullIsLocated();
    assert m.containers[1..] == [];
    ReadEntriesStep(c, m.containers, j, [unset], none);
    assert [Key("a")][1..] == [] && [Key("w")][1..] == [];
  }

  /** A write can fail after a read succeeded also with the locations all apart: a container that is null is read as
      one in which nothing is set, and cannot be written into. */
  lemma NullContainerPanics(c: Codec)
    requires LosslessCodec(c)
    ensures Separated(FlatMapping()) && Read(c, FlatMapping(), NullContainer()).Ok?
    ensures Write(c, FlatMapping(), NullContainer(), Read(c, FlatMapping(), NullContainer()).value).Panic?
  {
    FlatIsSeparated();
    NullReadsUnset(c);
    NullIsNotSolid();
    WriteAfterReadExactly(c, FlatMapping(), NullContainer());
  }
}
