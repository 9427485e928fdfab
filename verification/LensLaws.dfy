/** Writing a view and reading it back, writing twice, and what a write leaves alone. */
module LensLaws {
  import opened Wrappers
  import opened Bindings
  import opened Json
  import opened Patterns
  import opened Workload
  import opened WorkloadLens

  /* ---- the loops write exactly the listed locations ---- */

  lemma {:induction false} PutAllAppend(j: Json, a: seq<Update>, b: seq<Update>)
    ensures PutAll(j, a + b) == if PutAll(j, a).Ok? then PutAll(PutAll(j, a).value, b) else PutAll(j, a)
    decreases |a|
  {
    if a == [] {
      assert a + b == b;
    } else {
      assert (a + b)[0] == a[0] && (a + b)[1..] == a[1..] + b;
      if Put(j, a[0].path, a[0].value).Ok? {
        PutAllAppend(Put(j, a[0].path, a[0].value).value, a[1..], b);
      }
    }
  }

  lemma SetAtSolid(j: Json, node: Path, keys: seq<string>, x: Json)
    requires Solid(j, node) && keys != []
    ensures SetAt(j, node, keys, x) == Put(j, node + Keys(keys), x)
    ensures SetAt(j, node, keys, x).Ok? ==> Solid(SetAt(j, node, keys, x).value, node)
  {
    var p := node + Keys(keys);
    if Put(j, p, x).Ok? {
      assert p[..|node|] == node;
      SolidAfterPut(j, p, x, node);
    }
  }

  lemma OneWrite(j: Json, w: Update)
    ensures PutAll(j, [w]) == Put(j, w.path, w.value)
  {
    assert [w][1..] == [];
  }

  lemma TwoWrites(j: Json, w: Update, x: Update)
    ensures PutAll(j, [w, x]) == if Put(j, w.path, w.value).Ok? then Put(Put(j, w.path, w.value).value, x.path, x.value)
                                 else Put(j, w.path, w.value)
  {
    assert [w, x][1..] == [x];
    if Put(j, w.path, w.value).Ok? {
      OneWrite(Put(j, w.path, w.value).value, x);
    }
  }

  lemma WriteNodeIsPutAll(c: Codec, m: ContainerMapping, j: Json, node: Path, k: Container)
    requires m.name.Some? <==> k.name.Some?
    requires (m.name.Some? ==> m.name.value != []) && m.env != [] && m.volumeMounts != []
    requires Solid(j, node) && PutAll(j, NodeWrites(c, m, node, k)).Ok?
    ensures WriteNode(c, m, j, node, k) == PutAll(j, NodeWrites(c, m, node, k))
  {
    var env := Update(node + Keys(m.env), c.env.enc(k.env));
    var mounts := Update(node + Keys(m.volumeMounts), c.volumeMounts.enc(k.volumeMounts));
    var j1 := j;
    if m.name.Some? {
      var name := Update(node + Keys(m.name.value), c.name.enc(k.name.value));
      assert NodeWrites(c, m, node, k) == [name] + [env, mounts];
      PutAllAppend(j, [name], [env, mounts]);
      OneWrite(j, name);
      SetAtSolid(j, node, m.name.value, name.value);
      j1 := Put(j, name.path, name.value).value;
    } else {
      assert NodeWrites(c, m, node, k) == [env, mounts];
    }
    TwoWrites(j1, env, mounts);
    SetAtSolid(j1, node, m.env, env.value);
    SetAtSolid(Put(j1, env.path, env.value).value, node, m.volumeMounts, mounts.value);
  }

  lemma TargetKeys(m: Mapping, i: nat)
    requires Disjoint(m) && i < |m.containers|
    ensures var e := m.containers[i]; (e.name.Some? ==> e.name.value != []) && e.env != [] && e.volumeMounts != []
  {
    var e := m.containers[i];
    var n := |KeysOf(e)| - 2;
    assert Target(m.containers, i, 0) && Target(m.containers, i, n) && Target(m.containers, i, n + 1);
  }

  lemma NodesWritesSafe(c: Codec, m: Mapping, i: nat, j: Json, nodes: seq<Path>, ks: seq<Container>)
    requires Disjoint(m) && i < |m.containers| && |nodes| <= |ks| && NamedLike(m.containers[i], ks[..|nodes|])
    requires forall p :: p in nodes ==> p in Located(m.containers[i].path, j)
    ensures forall w :: w in NodesWrites(c, m.containers[i], nodes, ks) ==> Safe(m.containers, j, w.path)
  {
    forall w | w in NodesWrites(c, m.containers[i], nodes, ks)
      ensures Safe(m.containers, j, w.path)
    {
      NodesWritesAt(c, m.containers, i, j, nodes, ks, w);
      var a: nat, node :| node in nodes && WrittenAt(m.containers, j, w.path, i, a, node);
      NodeSafe(m, j, w.path, i, a, node);
    }
  }

  lemma FirstNodeSafe(c: Codec, m: Mapping, i: nat, j: Json, node: Path, k: Container)
    requires Disjoint(m) && i < |m.containers| && node in Located(m.containers[i].path, j)
    requires m.containers[i].name.Some? <==> k.name.Some?
    ensures forall w :: w in NodeWrites(c, m.containers[i], node, k) ==> Safe(m.containers, j, w.path)
  {
    NodesWritesSafe(c, m, i, j, [node], [k]);
    assert NodesWrites(c, m.containers[i], [node], [k]) == NodeWrites(c, m.containers[i], node, k) + [] by {
      assert [node][1..] == [];
    }
  }

  /** The writes into one node. */
  lemma OneNodeIsPutAll(c: Codec, m: Mapping, i: nat, j: Json, r: Json, node: Path, k: Container)
    requires Disjoint(m) && i < |m.containers| && node in Located(m.containers[i].path, j)
    requires m.containers[i].name.Some? <==> k.name.Some?
    requires Frame(m.containers, j, r) && PutAll(r, NodeWrites(c, m.containers[i], node, k)).Ok?
    ensures WriteNode(c, m.containers[i], r, node, k) == PutAll(r, NodeWrites(c, m.containers[i], node, k))
    ensures Frame(m.containers, j, PutAll(r, NodeWrites(c, m.containers[i], node, k)).value)
  {
    TargetKeys(m, i);
    assert Solid(r, node);
    WriteNodeIsPutAll(c, m.containers[i], r, node, k);
    FirstNodeSafe(c, m, i, j, node, k);
    FramePutAll(m.containers, j, r, NodeWrites(c, m.containers[i], node, k));
  }

  /** The listed writes, those of the first node first. */
  lemma PutFirstNode(c: Codec, m: ContainerMapping, r: Json, nodes: seq<Path>, ks: seq<Container>)
    requires nodes != [] && |nodes| <= |ks| && PutAll(r, NodesWrites(c, m, nodes, ks)).Ok?
    ensures PutAll(r, NodeWrites(c, m, nodes[0], ks[0])).Ok?
    ensures PutAll(r, NodesWrites(c, m, nodes, ks))
         == PutAll(PutAll(r, NodeWrites(c, m, nodes[0], ks[0])).value, NodesWrites(c, m, nodes[1..], ks[1..]))
  {
    PutAllAppend(r, NodeWrites(c, m, nodes[0], ks[0]), NodesWrites(c, m, nodes[1..], ks[1..]));
  }

  lemma WriteNodesStep(c: Codec, m: ContainerMapping, r: Json, nodes: seq<Path>, ks: seq<Container>, next: Json,
                       o: (Json, seq<Container>))
    requires nodes != [] && ks != [] && WriteNode(c, m, r, nodes[0], ks[0]) == Ok(next)
    requires WriteNodes(c, m, next, nodes[1..], ks[1..]) == Ok(o)
    ensures WriteNodes(c, m, r, nodes, ks) == Ok(o)
  {
  }

  lemma RestOfNodes(m: ContainerMapping, j: Json, nodes: seq<Path>, ks: seq<Container>)
    requires nodes != [] && |nodes| <= |ks| && NamedLike(m, ks[..|nodes|])
    requires forall p :: p in nodes ==> p in Located(m.path, j)
    ensures (m.name.Some? <==> ks[0].name.Some?) && NamedLike(m, ks[1..][..|nodes[1..]|])
    ensures nodes[0] in Located(m.path, j) && forall p :: p in nodes[1..] ==> p in Located(m.path, j)
    ensures ks[1..][|nodes[1..]|..] == ks[|nodes|..]
  {
    FirstOf(ks, |nodes|);
    assert nodes[0] in nodes;
  }

  lemma {:induction false} WriteNodesIsPutAll(c: Codec, m: Mapping, i: nat, j: Json, r: Json, nodes: seq<Path>,
                                              ks: seq<Container>)
    requires Disjoint(m) && i < |m.containers| && |nodes| <= |ks| && NamedLike(m.containers[i], ks[..|nodes|])
    requires forall p :: p in nodes ==> p in Located(m.containers[i].path, j)
    requires Frame(m.containers, j, r) && PutAll(r, NodesWrites(c, m.containers[i], nodes, ks)).Ok?
    ensures WriteNodes(c, m.containers[i], r, nodes, ks)
         == Ok((PutAll(r, NodesWrites(c, m.containers[i], nodes, ks)).value, ks[|nodes|..]))
    decreases |nodes|
  {
    if nodes != [] {
      var e := m.containers[i];
      RestOfNodes(e, j, nodes, ks);
      PutFirstNode(c, e, r, nodes, ks);
      OneNodeIsPutAll(c, m, i, j, r, nodes[0], ks[0]);
      var next := PutAll(r, NodeWrites(c, e, nodes[0], ks[0])).value;
      var all := PutAll(r, NodesWrites(c, e, nodes, ks)).value;
      WriteNodesIsPutAll(c, m, i, j, next, nodes[1..], ks[1..]);
      WriteNodesStep(c, e, r, nodes, ks, next, (all, ks[|nodes|..]));
    }
  }

  /** One entry of the mapping. */
  lemma WriteEntryIsPutAll(c: Codec, m: Mapping, i: nat, j: Json, r: Json, ks: seq<Container>)
    requires Disjoint(m) && i < |m.containers| && Frame(m.containers, j, r)
    requires |Located(m.containers[i].path, j)| <= |ks|
    requires NamedLike(m.containers[i], ks[..|Located(m.containers[i].path, j)|])
    requires PutAll(r, NodesWrites(c, m.containers[i], Located(m.containers[i].path, j), ks)).Ok?
    ensures var e := m.containers[i]; var nodes := Located(e.path, j);
      && Located(e.path, r) == nodes
      && WriteNodes(c, e, r, nodes, ks) == Ok((PutAll(r, NodesWrites(c, e, nodes, ks)).value, ks[|nodes|..]))
      && Frame(m.containers, j, PutAll(r, NodesWrites(c, e, nodes, ks)).value)
  {
    var e := m.containers[i];
    var nodes := Located(e.path, j);
    assert Nodes(e.path, r) == Nodes(e.path, j);
    WriteNodesIsPutAll(c, m, i, j, r, nodes, ks);
    NodesWritesSafe(c, m, i, j, nodes, ks);
    FramePutAll(m.containers, j, r, NodesWrites(c, e, nodes, ks));
  }

  lemma {:induction false} WriteEntriesIsPutAll(c: Codec, m: Mapping, i: nat, j: Json, r: Json, ks: seq<Container>)
    requires Disjoint(m) && i <= |m.containers| && Fits(m.containers[i..], j, ks)
    requires Frame(m.containers, j, r) && PutAll(r, EntriesWrites(c, m.containers[i..], j, ks)).Ok?
    ensures WriteEntries(c, m.containers[i..], r, ks)
         == Ok((PutAll(r, EntriesWrites(c, m.containers[i..], j, ks)).value, []))
    decreases |m.containers| - i
  {
    if i < |m.containers| {
      var ms, e := m.containers[i..], m.containers[i];
      assert ms[0] == e && ms[1..] == m.containers[i + 1..];
      var n := |Located(e.path, j)|;
      var first := NodesWrites(c, e, Located(e.path, j), ks);
      PutAllAppend(r, first, EntriesWrites(c, ms[1..], j, ks[n..]));
      WriteEntryIsPutAll(c, m, i, j, r, ks);
      WriteEntriesIsPutAll(c, m, i + 1, j, PutAll(r, first).value, ks[n..]);
    }
  }

  /* ---- the locations can be written because they have been read ---- */

  lemma {:induction false} NodesReadable(c: Codec, m: ContainerMapping, j: Json, nodes: seq<Path>, node: Path)
    requires ReadNodes(c, m, j, nodes).Ok? && node in nodes
    ensures ReadNode(c, m, j, node).Ok?
    decreases |nodes|
  {
    if node != nodes[0] {
      NodesReadable(c, m, j, nodes[1..], node);
    }
  }

  lemma {:induction false} EntriesReadable(c: Codec, ms: seq<ContainerMapping>, j: Json, i: nat)
    requires ReadEntries(c, ms, j).Ok? && i < |ms|
    ensures ReadNodes(c, ms[i], j, Located(ms[i].path, j)).Ok?
    decreases |ms|
  {
    if i > 0 {
      EntriesReadable(c, ms[1..], j, i - 1);
    }
  }

  lemma NodeReadable(c: Codec, m: ContainerMapping, j: Json, node: Path, a: nat)
    requires ReadNode(c, m, j, node).Ok? && a < |KeysOf(m)|
    ensures Get(j, node + Keys(KeysOf(m)[a])).Ok?
  {
  }

  lemma TargetReadable(c: Codec, ms: seq<ContainerMapping>, j: Json, p: Path, i: nat, a: nat, node: Path)
    requires ReadEntries(c, ms, j).Ok? && WrittenAt(ms, j, p, i, a, node)
    ensures Get(j, p).Ok?
  {
    EntriesReadable(c, ms, j, i);
    NodesReadable(c, ms[i], j, Located(ms[i].path, j), node);
    NodeReadable(c, ms[i], j, node, a);
  }

  lemma {:induction false} PutAllNotNull(j: Json, ws: seq<Update>)
    requires j != Null && PutAll(j, ws).Ok? && forall w :: w in ws ==> w.path != []
    ensures PutAll(j, ws).value != Null
    decreases |ws|
  {
    if ws != [] {
      assert ws[0] in ws;
      PutAllNotNull(Put(j, ws[0].path, ws[0].value).value, ws[1..]);
    }
  }

  lemma WritesSafe(c: Codec, m: Mapping, j: Json, v: PodTemplate)
    requires Disjoint(m) && Fits(m.containers, j, v.containers)
    requires Anchored(m.containers, j, m.annotations) && Anchored(m.containers, j, m.volumes)
    ensures forall w :: w in Writes(c, m, j, v) ==> Safe(m.containers, j, w.path) && w.path != []
  {
    var ms := m.containers;
    RootSafe(m, j, m.annotations);
    RootSafe(m, j, m.volumes);
    assert ms[0..] == ms;
    forall w | w in EntriesWrites(c, ms, j, v.containers)
      ensures Safe(ms, j, w.path) && w.path != []
    {
      EntriesWritesAt(c, ms, 0, j, v.containers, w);
      var l: nat, a: nat, node :| WrittenAt(ms, j, w.path, l, a, node);
      NodeSafe(m, j, w.path, l, a, node);
    }
  }

  lemma EntriesWritable(c: Codec, m: Mapping, j: Json, v: PodTemplate)
    requires Mappable(c, m, j) && Fits(m.containers, j, v.containers)
    ensures Writable(j, EntriesWrites(c, m.containers, j, v.containers))
  {
    var ws := EntriesWrites(c, m.containers, j, v.containers);
    assert m.containers[0..] == m.containers;
    forall i | 0 <= i < |ws|
      ensures Get(j, ws[i].path).Ok?
    {
      EntriesWritesAt(c, m.containers, 0, j, v.containers, ws[i]);
      var l: nat, a: nat, node :| WrittenAt(m.containers, j, ws[i].path, l, a, node);
      TargetReadable(c, m.containers, j, ws[i].path, l, a, node);
    }
  }

  lemma AroundWritable(j: Json, a: Update, b: seq<Update>, z: Update)
    requires Get(j, a.path).Ok? && Writable(j, b) && Get(j, z.path).Ok?
    ensures Writable(j, [a] + b + [z])
  {
  }

  lemma AllWritable(c: Codec, m: Mapping, j: Json, v: PodTemplate)
    requires Mappable(c, m, j) && Fits(m.containers, j, v.containers)
    ensures Writable(j, Writes(c, m, j, v))
  {
    EntriesWritable(c, m, j, v);
    AroundWritable(j, Update(Keys(m.annotations), c.annotations.enc(v.annotations)),
                   EntriesWrites(c, m.containers, j, v.containers),
                   Update(Keys(m.volumes), c.volumes.enc(v.volumes)));
  }

  lemma WritesWritable(c: Codec, m: Mapping, j: Json, v: PodTemplate)
    requires Mappable(c, m, j) && Fits(m.containers, j, v.containers)
    ensures Writable(j, Writes(c, m, j, v)) && PairwiseDiverge(Writes(c, m, j, v)) && PutAll(j, Writes(c, m, j, v)).Ok?
  {
    AllWritable(c, m, j, v);
    WritesDiverge(c, m, j, v);
    PutAllOk(j, Writes(c, m, j, v));
  }

  lemma FrameOfSelf(m: Mapping, j: Json)
    requires SolidNodes(m, j)
    ensures Frame(m.containers, j, j)
  {
  }

  lemma RootWrite(j: Json, keys: seq<string>, x: Json)
    requires j != Null && keys != []
    ensures SetAt(j, [], keys, x) == PutAll(j, [Update(Keys(keys), x)])
  {
    OneWrite(j, Update(Keys(keys), x));
    assert [] + Keys(keys) == Keys(keys);
  }

  /** The three parts of a write, one after the other. */
  lemma WriteInOrder(c: Codec, m: Mapping, j: Json, v: PodTemplate, a: Update, b: seq<Update>, z: Update)
    requires Disjoint(m) && j != Null && Fits(m.containers, j, v.containers) && Frame(m.containers, j, j)
    requires Anchored(m.containers, j, m.annotations)
    requires a == Update(Keys(m.annotations), c.annotations.enc(v.annotations))
    requires b == EntriesWrites(c, m.containers, j, v.containers)
    requires z == Update(Keys(m.volumes), c.volumes.enc(v.volumes))
    requires PutAll(j, [a] + b + [z]).Ok?
    requires forall w :: w in b ==> w.path != []
    ensures Write(c, m, j, v) == PutAll(j, [a] + b + [z])
  {
    PutAllAppend(j, [a] + b, [z]);
    PutAllAppend(j, [a], b);
    RootWrite(j, m.annotations, a.value);
    var j1 := PutAll(j, [a]).value;
    RootSafe(m, j, m.annotations);
    FramePutAll(m.containers, j, j, [a]);
    PutAllNotNull(j, [a]);
    assert m.containers[0..] == m.containers;
    WriteEntriesIsPutAll(c, m, 0, j, j1, v.containers);
    PutAllNotNull(j1, b);
    RootWrite(PutAll(j1, b).value, m.volumes, z.value);
  }

  /** Writing a view that fits the workload succeeds, writes the listed locations and nothing else, and keeps
      every container node where it was found. */
  lemma WriteIsPutAll(c: Codec, m: Mapping, j: Json, v: PodTemplate)
    requires Mappable(c, m, j) && Fits(m.containers, j, v.containers)
    ensures Write(c, m, j, v).Ok?
    ensures Write(c, m, j, v) == PutAll(j, Writes(c, m, j, v))
    ensures Frame(m.containers, j, Write(c, m, j, v).value)
    ensures Write(c, m, j, v).value != Null
  {
    var ws := Writes(c, m, j, v);
    var b := EntriesWrites(c, m.containers, j, v.containers);
    WritesWritable(c, m, j, v);
    WritesSafe(c, m, j, v);
    FrameOfSelf(m, j);
    forall w | w in b
      ensures w.path != []
    {
      assert w in ws;
    }
    WriteInOrder(c, m, j, v, ws[0], b, ws[|ws| - 1]);
    FramePutAll(m.containers, j, j, ws);
    PutAllNotNull(j, ws);
  }

  /** The running container index never leaves the list of containers and ends at its length. */
  lemma ContainersUsedUp(c: Codec, m: Mapping, j: Json, v: PodTemplate)
    requires Mappable(c, m, j) && Fits(m.containers, j, v.containers)
    ensures var j1 := SetAt(j, [], m.annotations, c.annotations.enc(v.annotations));
      && j1.Ok?
      && WriteEntries(c, m.containers, j1.value, v.containers).Ok?
      && WriteEntries(c, m.containers, j1.value, v.containers).value.1 == []
  {
    var ws := Writes(c, m, j, v);
    var b := EntriesWrites(c, m.containers, j, v.containers);
    WritesWritable(c, m, j, v);
    FrameOfSelf(m, j);
    PutAllAppend(j, [ws[0]] + b, [ws[|ws| - 1]]);
    PutAllAppend(j, [ws[0]], b);
    RootWrite(j, m.annotations, ws[0].value);
    RootSafe(m, j, m.annotations);
    FramePutAll(m.containers, j, j, [ws[0]]);
    assert m.containers[0..] == m.containers;
    WriteEntriesIsPutAll(c, m, 0, j, PutAll(j, [ws[0]]).value, v.containers);
  }

  /* ---- reading back ---- */

  ghost predicate Stored(r: Json, ws: seq<Update>)
  {
    forall w :: w in ws ==> Get(r, w.path) == Ok(w.value)
  }

  lemma ReadNodeBack(c: Codec, m: ContainerMapping, r: Json, node: Path, k: Container)
    requires LosslessCodec(c) && (m.name.Some? <==> k.name.Some?) && Stored(r, NodeWrites(c, m, node, k))
    ensures ReadNode(c, m, r, node) == Ok(k)
  {
    var ws := NodeWrites(c, m, node, k);
    var n := |ws| - 2;
    assert ws[n] in ws && ws[n + 1] in ws;
    if m.name.Some? {
      assert ws[0] in ws;
    }
  }

  lemma StoredSplit(r: Json, a: seq<Update>, b: seq<Update>)
    requires Stored(r, a + b)
    ensures Stored(r, a) && Stored(r, b)
  {
    forall w | w in a
      ensures Get(r, w.path) == Ok(w.value)
    {
      assert w in a + b;
    }
    forall w | w in b
      ensures Get(r, w.path) == Ok(w.value)
    {
      assert w in a + b;
    }
  }

  lemma TakeMore(ks: seq<Container>, n: nat)
    requires n < |ks|
    ensures ks[..n + 1][0] == ks[0] && ks[1..][..n] == ks[..n + 1][1..]
    ensures [ks[0]] + ks[1..][..n] == ks[..n + 1]
  {
  }

  lemma ReadNodesStep(c: Codec, m: ContainerMapping, r: Json, nodes: seq<Path>, first: Container, rest: seq<Container>)
    requires nodes != [] && ReadNode(c, m, r, nodes[0]) == Ok(first) && ReadNodes(c, m, r, nodes[1..]) == Ok(rest)
    ensures ReadNodes(c, m, r, nodes) == Ok([first] + rest)
  {
  }

  lemma {:induction false} ReadNodesBack(c: Codec, m: ContainerMapping, r: Json, nodes: seq<Path>, ks: seq<Container>)
    requires LosslessCodec(c) && |nodes| <= |ks| && NamedLike(m, ks[..|nodes|])
    requires Stored(r, NodesWrites(c, m, nodes, ks))
    ensures ReadNodes(c, m, r, nodes) == Ok(ks[..|nodes|])
    decreases |nodes|
  {
    if nodes != [] {
      var first, rest := ks[0], ks[1..];
      var n := |nodes| - 1;
      TakeMore(ks, n);
      StoredSplit(r, NodeWrites(c, m, nodes[0], first), NodesWrites(c, m, nodes[1..], rest));
      ReadNodeBack(c, m, r, nodes[0], first);
      ReadNodesBack(c, m, r, nodes[1..], rest);
      ReadNodesStep(c, m, r, nodes, first, rest[..n]);
    }
  }

  lemma ReadEntriesStep(c: Codec, ms: seq<ContainerMapping>, r: Json, first: seq<Container>, rest: seq<Container>)
    requires ms != [] && ReadNodes(c, ms[0], r, Located(ms[0].path, r)) == Ok(first)
    requires ReadEntries(c, ms[1..], r) == Ok(rest)
    ensures ReadEntries(c, ms, r) == Ok(first + rest)
  {
  }

  /** The first entry, read back. */
  lemma ReadEntryBack(c: Codec, ms: seq<ContainerMapping>, j: Json, r: Json, ks: seq<Container>)
    requires LosslessCodec(c) && ms != [] && Fits(ms, j, ks) && Stored(r, EntriesWrites(c, ms, j, ks))
    ensures var nodes := Located(ms[0].path, j);
      && ReadNodes(c, ms[0], r, nodes) == Ok(ks[..|nodes|])
      && Stored(r, EntriesWrites(c, ms[1..], j, ks[|nodes|..]))
  {
    var nodes := Located(ms[0].path, j);
    StoredSplit(r, NodesWrites(c, ms[0], nodes, ks), EntriesWrites(c, ms[1..], j, ks[|nodes|..]));
    ReadNodesBack(c, ms[0], r, nodes, ks);
  }

  /** Every expression finds in `r` the nodes it found in `j`. */
  ghost predicate LocatedAlike(ms: seq<ContainerMapping>, j: Json, r: Json)
    decreases |ms|
  {
    ms == [] || (Located(ms[0].path, r) == Located(ms[0].path, j) && LocatedAlike(ms[1..], j, r))
  }

  lemma {:induction false} FrameLocates(ms: seq<ContainerMapping>, i: nat, j: Json, r: Json)
    requires Frame(ms, j, r) && i <= |ms|
    ensures LocatedAlike(ms[i..], j, r)
    decreases |ms| - i
  {
    if i < |ms| {
      assert ms[i..][0] == ms[i] && ms[i..][1..] == ms[i + 1..];
      assert Nodes(ms[i].path, r) == Nodes(ms[i].path, j);
      FrameLocates(ms, i + 1, j, r);
    }
  }

  lemma Rejoin(ks: seq<Container>, n: nat)
    requires n <= |ks|
    ensures ks[..n] + ks[n..] == ks
  {
  }

  lemma {:induction false} ReadEntriesBack(c: Codec, ms: seq<ContainerMapping>, j: Json, r: Json, ks: seq<Container>)
    requires LosslessCodec(c) && Fits(ms, j, ks) && Stored(r, EntriesWrites(c, ms, j, ks)) && LocatedAlike(ms, j, r)
    ensures ReadEntries(c, ms, r) == Ok(ks)
    decreases |ms|
  {
    if ms == [] {
      return;
    }
    var nodes := Located(ms[0].path, j);
    var first, rest := ks[..|nodes|], ks[|nodes|..];
    ReadEntryBack(c, ms, j, r, ks);
    ReadEntriesBack(c, ms[1..], j, r, rest);
    Rejoin(ks, |nodes|);
    assert Located(ms[0].path, r) == nodes;
    ReadEntriesStep(c, ms, r, first, rest);
  }

  lemma WritesStored(c: Codec, m: Mapping, j: Json, v: PodTemplate)
    requires Mappable(c, m, j) && Fits(m.containers, j, v.containers)
    ensures PutAll(j, Writes(c, m, j, v)).Ok? && Stored(PutAll(j, Writes(c, m, j, v)).value, Writes(c, m, j, v))
  {
    var ws := Writes(c, m, j, v);
    WritesWritable(c, m, j, v);
    forall w | w in ws
      ensures Get(PutAll(j, ws).value, w.path) == Ok(w.value)
    {
      var i :| 0 <= i < |ws| && ws[i] == w;
      PutAllGet(j, ws, i);
    }
  }

  /** Wherever all locations hold what would be written and the nodes have not moved, the view is read. */
  lemma ReadBack(c: Codec, m: Mapping, j: Json, r: Json, v: PodTemplate)
    requires LosslessCodec(c) && Fits(m.containers, j, v.containers) && Frame(m.containers, j, r)
    requires Stored(r, Writes(c, m, j, v))
    ensures Read(c, m, r) == Ok(v)
  {
    var ws := Writes(c, m, j, v);
    assert ws[0] in ws && ws[|ws| - 1] in ws;
    assert Stored(r, EntriesWrites(c, m.containers, j, v.containers));
    assert m.containers[0..] == m.containers;
    FrameLocates(m.containers, 0, j, r);
    ReadEntriesBack(c, m.containers, j, r, v.containers);
  }

  lemma AnchoredStays(ms: seq<ContainerMapping>, j: Json, r: Json, keys: seq<string>)
    requires Anchored(ms, j, keys) && Frame(ms, j, r)
    ensures Anchored(ms, r, keys)
  {
    forall i | 0 <= i < |ms|
      ensures ThereBefore(ms[i], r, keys)
    {
      assert ThereBefore(ms[i], j, keys);
      if ms[i].path <= Patterns.FieldSteps(keys) {
        PrefixNode(ms[i].path, keys, j);
        SolidIsPresent(r, Keys(keys)[..|ms[i].path|]);
      }
    }
  }

  lemma StillMappable(c: Codec, m: Mapping, j: Json, r: Json)
    requires Mappable(c, m, j) && Frame(m.containers, j, r) && r != Null && Read(c, m, r).Ok?
    ensures Mappable(c, m, r)
  {
    AnchoredStays(m.containers, j, r, m.annotations);
    AnchoredStays(m.containers, j, r, m.volumes);
  }

  /** The view just written is the view read next, and the workload can be mapped again. */
  lemma WriteThenRead(c: Codec, m: Mapping, j: Json, v: PodTemplate)
    requires Mappable(c, m, j) && Fits(m.containers, j, v.containers)
    ensures Write(c, m, j, v).Ok?
    ensures Read(c, m, Write(c, m, j, v).value) == Ok(v)
    ensures Mappable(c, m, Write(c, m, j, v).value)
    ensures Frame(m.containers, j, Write(c, m, j, v).value)
  {
    WriteIsPutAll(c, m, j, v);
    WritesStored(c, m, j, v);
    ReadBack(c, m, j, Write(c, m, j, v).value, v);
    StillMappable(c, m, j, Write(c, m, j, v).value);
  }

  /* ---- writing twice ---- */

  lemma {:induction false} FitsStable(ms: seq<ContainerMapping>, j: Json, r: Json, ks: seq<Container>)
    requires forall i :: 0 <= i < |ms| ==> Nodes(ms[i].path, r) == Nodes(ms[i].path, j)
    ensures Fits(ms, r, ks) <==> Fits(ms, j, ks)
    decreases |ms|
  {
    if ms != [] {
      assert Nodes(ms[0].path, r) == Nodes(ms[0].path, j);
      var n := |Located(ms[0].path, j)|;
      if n <= |ks| {
        FitsStable(ms[1..], j, r, ks[n..]);
      }
    }
  }

  lemma {:induction false} EntriesWritesStable(c: Codec, ms: seq<ContainerMapping>, j: Json, r: Json,
                                               ks: seq<Container>)
    requires forall i :: 0 <= i < |ms| ==> Nodes(ms[i].path, r) == Nodes(ms[i].path, j)
    requires Fits(ms, j, ks) && Fits(ms, r, ks)
    ensures EntriesWrites(c, ms, r, ks) == EntriesWrites(c, ms, j, ks)
    decreases |ms|
  {
    if ms != [] {
      assert Nodes(ms[0].path, r) == Nodes(ms[0].path, j);
      EntriesWritesStable(c, ms[1..], j, r, ks[|Located(ms[0].path, j)|..]);
    }
  }

  lemma SamePathsConcat(a: seq<Update>, b: seq<Update>, x: seq<Update>, y: seq<Update>)
    requires SamePaths(a, b) && SamePaths(x, y)
    ensures SamePaths(a + x, b + y)
  {
  }

  lemma {:induction false} NodesSamePaths(c: Codec, m: ContainerMapping, nodes: seq<Path>, ks: seq<Container>,
                                          ls: seq<Container>)
    requires |nodes| <= |ks| && |nodes| <= |ls| && NamedLike(m, ks[..|nodes|]) && NamedLike(m, ls[..|nodes|])
    ensures SamePaths(NodesWrites(c, m, nodes, ks), NodesWrites(c, m, nodes, ls))
    decreases |nodes|
  {
    if nodes != [] {
      assert ks[..|nodes|][0] == ks[0] && ks[1..][..|nodes| - 1] == ks[..|nodes|][1..];
      assert ls[..|nodes|][0] == ls[0] && ls[1..][..|nodes| - 1] == ls[..|nodes|][1..];
      NodesSamePaths(c, m, nodes[1..], ks[1..], ls[1..]);
      SamePathsConcat(NodeWrites(c, m, nodes[0], ks[0]), NodeWrites(c, m, nodes[0], ls[0]),
                      NodesWrites(c, m, nodes[1..], ks[1..]), NodesWrites(c, m, nodes[1..], ls[1..]));
    }
  }

  lemma {:induction false} EntriesSamePaths(c: Codec, ms: seq<ContainerMapping>, j: Json, ks: seq<Container>,
                                            ls: seq<Container>)
    requires Fits(ms, j, ks) && Fits(ms, j, ls)
    ensures SamePaths(EntriesWrites(c, ms, j, ks), EntriesWrites(c, ms, j, ls))
    decreases |ms|
  {
    if ms != [] {
      var nodes := Located(ms[0].path, j);
      NodesSamePaths(c, ms[0], nodes, ks, ls);
      EntriesSamePaths(c, ms[1..], j, ks[|nodes|..], ls[|nodes|..]);
      SamePathsConcat(NodesWrites(c, ms[0], nodes, ks), NodesWrites(c, ms[0], nodes, ls),
                      EntriesWrites(c, ms[1..], j, ks[|nodes|..]), EntriesWrites(c, ms[1..], j, ls[|nodes|..]));
    }
  }

  lemma WritesSamePaths(c: Codec, m: Mapping, j: Json, v: PodTemplate, w: PodTemplate)
    requires Fits(m.containers, j, v.containers) && Fits(m.containers, j, w.containers)
    ensures SamePaths(Writes(c, m, j, v), Writes(c, m, j, w))
  {
    EntriesSamePaths(c, m.containers, j, v.containers, w.containers);
  }

  /** The locations written are the same before and after a write. */
  lemma WritesStable(c: Codec, m: Mapping, j: Json, r: Json, w: PodTemplate)
    requires Fits(m.containers, j, w.containers) && Frame(m.containers, j, r)
    ensures Fits(m.containers, r, w.containers) && Writes(c, m, r, w) == Writes(c, m, j, w)
  {
    FitsStable(m.containers, j, r, w.containers);
    EntriesWritesStable(c, m.containers, j, r, w.containers);
  }

  /** Writing a second view over the first gives what writing the second one alone gives. */
  lemma WriteThenWrite(c: Codec, m: Mapping, j: Json, v: PodTemplate, w: PodTemplate)
    requires Mappable(c, m, j) && Fits(m.containers, j, v.containers) && Fits(m.containers, j, w.containers)
    ensures Write(c, m, j, v).Ok?
    ensures Fits(m.containers, Write(c, m, j, v).value, w.containers)
    ensures Write(c, m, Write(c, m, j, v).value, w) == Write(c, m, j, w)
  {
    WriteThenRead(c, m, j, v);
    var r := Write(c, m, j, v).value;
    WritesStable(c, m, j, r, w);
    WriteIsPutAll(c, m, j, v);
    WriteIsPutAll(c, m, j, w);
    WriteIsPutAll(c, m, r, w);
    WritesWritable(c, m, j, v);
    WritesSamePaths(c, m, j, v, w);
    PutAllPutAll(j, Writes(c, m, j, v), Writes(c, m, j, w));
  }

  /** Every mapped location is there and holds what writing back its content would put there. */
  ghost predicate AsEncoded(c: Codec, m: Mapping, j: Json)
    requires Read(c, m, j).Ok?
  {
    var v := Read(c, m, j).value;
    Fits(m.containers, j, v.containers) &&
    forall w :: w in Writes(c, m, j, v) ==> Present(j, w.path) && Get(j, w.path) == Ok(w.value)
  }

  lemma {:induction false} ReadNodesNamed(c: Codec, m: ContainerMapping, j: Json, nodes: seq<Path>)
    requires ReadNodes(c, m, j, nodes).Ok?
    ensures |ReadNodes(c, m, j, nodes).value| == |nodes| && NamedLike(m, ReadNodes(c, m, j, nodes).value)
    decreases |nodes|
  {
    if nodes != [] {
      ReadNodesNamed(c, m, j, nodes[1..]);
    }
  }

  lemma {:induction false} ReadFits(c: Codec, ms: seq<ContainerMapping>, j: Json)
    requires ReadEntries(c, ms, j).Ok?
    ensures Fits(ms, j, ReadEntries(c, ms, j).value)
    decreases |ms|
  {
    if ms != [] {
      var first := ReadNodes(c, ms[0], j, Located(ms[0].path, j)).value;
      var rest := ReadEntries(c, ms[1..], j).value;
      ReadNodesNamed(c, ms[0], j, Located(ms[0].path, j));
      ReadFits(c, ms[1..], j);
      assert (first + rest)[..|first|] == first && (first + rest)[|first|..] == rest;
    }
  }

  /** Writing back the view that was read changes nothing exactly then. */
  lemma RewriteExactly(c: Codec, m: Mapping, j: Json)
    requires Mappable(c, m, j)
    ensures Write(c, m, j, Read(c, m, j).value) == Ok(j) <==> AsEncoded(c, m, j)
  {
    var v := Read(c, m, j).value;
    ReadFits(c, m.containers, j);
    WriteIsPutAll(c, m, j, v);
    WritesWritable(c, m, j, v);
    PutAllRestores(j, Writes(c, m, j, v));
  }

  /* ---- frame ---- */

  ghost predicate ContainersOutside(ms: seq<ContainerMapping>, q: Path)
  {
    forall i: nat, a: nat :: Target(ms, i, a) ==> Misses(TargetPattern(ms, i, a), q)
  }

  /** A location that no mapped location is, contains or lies in. */
  ghost predicate Outside(m: Mapping, q: Path)
  {
    && Misses(Patterns.FieldSteps(m.annotations), q)
    && Misses(Patterns.FieldSteps(m.volumes), q)
    && ContainersOutside(m.containers, q)
  }

  lemma SetAtFrame(j: Json, node: Path, keys: seq<string>, x: Json, t: Pattern, q: Path)
    requires SetAt(j, node, keys, x).Ok? && Matches(t, node + Keys(keys)) && Misses(t, q)
    ensures SameAt(SetAt(j, node, keys, x).value, j, q)
  {
    MissesDiverges(t, node + Keys(keys), q);
    GetOther(j, node + Keys(keys), x, q);
    PresentOther(j, node + Keys(keys), x, q);
  }

  /** No location written in the nodes of one entry is seen from `q`. */
  ghost predicate EntryOutside(m: ContainerMapping, q: Path)
  {
    && (m.name.Some? ==> Misses(m.path + Patterns.FieldSteps(m.name.value), q))
    && Misses(m.path + Patterns.FieldSteps(m.env), q)
    && Misses(m.path + Patterns.FieldSteps(m.volumeMounts), q)
  }

  lemma WriteNodeFrame(c: Codec, m: ContainerMapping, j: Json, node: Path, k: Container, q: Path)
    requires WriteNode(c, m, j, node, k).Ok? && Matches(m.path, node) && EntryOutside(m, q)
    ensures SameAt(WriteNode(c, m, j, node, k).value, j, q)
  {
    var j1 := j;
    if m.name.Some? && k.name.Some? {
      BelowMatches(m.path, node, m.name.value);
      SetAtFrame(j, node, m.name.value, c.name.enc(k.name.value), m.path + Patterns.FieldSteps(m.name.value), q);
      j1 := SetAt(j, node, m.name.value, c.name.enc(k.name.value)).value;
    }
    BelowMatches(m.path, node, m.env);
    BelowMatches(m.path, node, m.volumeMounts);
    SetAtFrame(j1, node, m.env, c.env.enc(k.env), m.path + Patterns.FieldSteps(m.env), q);
    var j2 := SetAt(j1, node, m.env, c.env.enc(k.env)).value;
    SetAtFrame(j2, node, m.volumeMounts, c.volumeMounts.enc(k.volumeMounts),
               m.path + Patterns.FieldSteps(m.volumeMounts), q);
  }

  lemma {:induction false} WriteNodesFrame(c: Codec, m: ContainerMapping, j: Json, nodes: seq<Path>, ks: seq<Container>,
                                           q: Path)
    requires WriteNodes(c, m, j, nodes, ks).Ok? && EntryOutside(m, q)
    requires forall p :: p in nodes ==> Matches(m.path, p)
    ensures SameAt(WriteNodes(c, m, j, nodes, ks).value.0, j, q)
    decreases |nodes|
  {
    if nodes != [] {
      assert nodes[0] in nodes;
      WriteNodeFrame(c, m, j, nodes[0], ks[0], q);
      WriteNodesFrame(c, m, WriteNode(c, m, j, nodes[0], ks[0]).value, nodes[1..], ks[1..], q);
    }
  }

  lemma {:induction false} WriteEntriesFrame(c: Codec, ms: seq<ContainerMapping>, j: Json, ks: seq<Container>, q: Path)
    requires WriteEntries(c, ms, j, ks).Ok?
    requires forall i :: 0 <= i < |ms| ==> EntryOutside(ms[i], q)
    ensures SameAt(WriteEntries(c, ms, j, ks).value.0, j, q)
    decreases |ms|
  {
    if ms != [] {
      forall p | p in Located(ms[0].path, j)
        ensures Matches(ms[0].path, p)
      {
        NodeFound(ms[0].path, j, p);
      }
      WriteNodesFrame(c, ms[0], j, Located(ms[0].path, j), ks, q);
      var next := WriteNodes(c, ms[0], j, Located(ms[0].path, j), ks).value;
      WriteEntriesFrame(c, ms[1..], next.0, next.1, q);
    }
  }

  lemma TargetsOutside(m: Mapping, q: Path)
    requires ContainersOutside(m.containers, q)
    ensures forall i :: 0 <= i < |m.containers| ==> EntryOutside(m.containers[i], q)
  {
    forall i | 0 <= i < |m.containers|
      ensures EntryOutside(m.containers[i], q)
    {
      var e := m.containers[i];
      var n := |KeysOf(e)| - 2;
      assert Target(m.containers, i, n) && Target(m.containers, i, n + 1);
      assert e.name.Some? ==> Target(m.containers, i, 0);
    }
  }

  /** A write that succeeds changes nothing outside the mapped locations, whatever the workload and the mapping. */
  lemma WriteFrame(c: Codec, m: Mapping, j: Json, v: PodTemplate, q: Path)
    requires Write(c, m, j, v).Ok? && Outside(m, q)
    ensures SameAt(Write(c, m, j, v).value, j, q)
  {
    var a, z := c.annotations.enc(v.annotations), c.volumes.enc(v.volumes);
    FieldsMatchKeys(m.annotations);
    FieldsMatchKeys(m.volumes);
    TargetsOutside(m, q);
    assert [] + Keys(m.annotations) == Keys(m.annotations) && [] + Keys(m.volumes) == Keys(m.volumes);
    SetAtFrame(j, [], m.annotations, a, Patterns.FieldSteps(m.annotations), q);
    var j1 := SetAt(j, [], m.annotations, a).value;
    WriteEntriesFrame(c, m.containers, j1, v.containers, q);
    SetAtFrame(WriteEntries(c, m.containers, j1, v.containers).value.0, [], m.volumes, z,
               Patterns.FieldSteps(m.volumes), q);
  }

  /* ---- the view that was read fits, and so does every view of its shape ---- */

  lemma {:induction false} FitsByShape(ms: seq<ContainerMapping>, j: Json, ks: seq<Container>, ls: seq<Container>)
    requires Fits(ms, j, ks) && |ks| == |ls|
    requires forall i :: 0 <= i < |ks| ==> (ks[i].name.Some? <==> ls[i].name.Some?)
    ensures Fits(ms, j, ls)
    decreases |ms|
  {
    if ms != [] {
      var n := |Located(ms[0].path, j)|;
      forall i | 0 <= i < n
        ensures ls[..n][i].name.Some? <==> ms[0].name.Some?
      {
        assert ks[..n][i] == ks[i];
      }
      FitsByShape(ms[1..], j, ks[n..], ls[n..]);
    }
  }

  lemma ShapeFits(c: Codec, m: Mapping, j: Json, w: PodTemplate)
    requires Read(c, m, j).Ok? && SameShape(Read(c, m, j).value, w)
    ensures Fits(m.containers, j, w.containers)
  {
    ReadFits(c, m.containers, j);
    FitsByShape(m.containers, j, Read(c, m, j).value.containers, w.containers);
  }
}
