/** Project and Unproject as they run on an unstructured workload: the view is read out of its tree of maps, the
    containers being collected in one loop and matched again, by a running index only, in another that writes into the
    tree in place. */
module WorkloadProjector {
  import opened Wrappers
  import opened Bindings
  import opened Json
  import opened JsonHeap
  import HeapTrees
  import Patterns
  import opened Workload
  import opened Projector
  import Runs
  import WorkloadLaws

  lemma ValuesAppend(cs: seq<MetaContainer>, k: MetaContainer)
    ensures Values(cs + [k]) == Values(cs) + [k.Value()]
  {
  }

  lemma {:induction false} ValuesConcat(a: seq<MetaContainer>, b: seq<MetaContainer>)
    ensures Values(a + b) == Values(a) + Values(b)
  {
  }

  /** What a loop has read so far, followed by what it has still to read. */
  function Prepend(a: seq<Container>, o: Outcome<seq<Container>>): Outcome<seq<Container>>
  {
    if o.Ok? then Ok(a + o.value) else o
  }

  lemma PrependTwice(a: seq<Container>, b: seq<Container>, o: Outcome<seq<Container>>)
    ensures Prepend(a, Prepend(b, o)) == Prepend(a + b, o)
    ensures Prepend([], o) == o
  {
    if o.Ok? {
      assert a + (b + o.value) == a + b + o.value;
      assert [] + o.value == o.value;
    }
  }

  ghost predicate Distinct(cs: seq<MetaContainer>)
  {
    forall i, k :: 0 <= i < k < |cs| ==> cs[i] != cs[k]
  }

  lemma DistinctConcat(a: seq<MetaContainer>, b: seq<MetaContainer>)
    requires Distinct(a) && Distinct(b) && forall mc :: mc in b ==> mc !in a
    ensures Distinct(a + b)
    ensures forall mc :: mc in a + b ==> mc in a || mc in b
  {
    assert forall k :: 0 <= k < |b| ==> b[k] in b;
  }

  lemma NothingLeft(a: seq<Container>)
    ensures Prepend(a, Ok([])) == Ok(a)
  {
    assert a + [] == a;
  }

  /** What reading one more node leaves to read. */
  lemma NodeRead(c: Codec, m: ContainerMapping, nodes: seq<Path>, n: nat, j: Json, before: seq<Container>)
    requires n < |nodes|
    ensures var k := ReadNode(c, m, j, nodes[n]);
      && (k.Error? ==> ReadNodes(c, m, j, nodes[n..]).Error?)
      && (k.Panic? ==> ReadNodes(c, m, j, nodes[n..]).Panic?)
      && (k.Ok? ==> (Prepend(before, ReadNodes(c, m, j, nodes[n..]))
                     == Prepend(before + [k.value], ReadNodes(c, m, j, nodes[n + 1..]))))
  {
    assert nodes[n..][0] == nodes[n] && nodes[n..][1..] == nodes[n + 1..];
    var k := ReadNode(c, m, j, nodes[n]);
    if k.Ok? {
      PrependTwice(before, [k.value], ReadNodes(c, m, j, nodes[n + 1..]));
    }
  }

  /** What reading one more entry leaves to read. */
  lemma EntryRead(c: Codec, ms: seq<ContainerMapping>, i: nat, j: Json, before: seq<Container>, entry: seq<Container>)
    requires i < |ms| && ReadNodes(c, ms[i], j, Patterns.Located(ms[i].path, j)) == Ok(entry)
    ensures Prepend(before, ReadEntries(c, ms[i..], j)) == Prepend(before + entry, ReadEntries(c, ms[i + 1..], j))
  {
    assert ms[i..][0] == ms[i] && ms[i..][1..] == ms[i + 1..];
    PrependTwice(before, entry, ReadEntries(c, ms[i + 1..], j));
  }

  lemma EntryFails(c: Codec, ms: seq<ContainerMapping>, i: nat, j: Json)
    requires i < |ms| && !ReadNodes(c, ms[i], j, Patterns.Located(ms[i].path, j)).Ok?
    ensures ReadEntries(c, ms[i..], j) == ReadNodes(c, ms[i], j, Patterns.Located(ms[i].path, j))
  {
  }

  /* ---- reading ---- */

  /** getAt, starting at the value found at `node`. */
  method ReadValue<T>(k: Coder<T>, root: Node, start: Value, keys: seq<string>, initial: T, ghost j: Json,
                      ghost node: Path, ghost S: set<Node>)
    returns (r: Outcome<T>)
    requires HeapTrees.Holds(root, j, S) && !start.Invalid? && (start.Bare? ==> start.v.VMap?)
    requires At(VMap(root), node, start.v, Snapshot(S))
    ensures r == ReadAt(k, j, node + Patterns.Keys(keys), initial)
  {
    AtRepresents(VMap(root), j, [], node, start.v, Snapshot(S));
    ghost var w := Get(j, node).value;
    Patterns.GetSplit(j, node, Patterns.Keys(keys));
    var found := GetAt(start, keys, w, [] + node, S);
    if found.Error? { return Error; }
    if found.Panic? { return Panic; }
    if found.value.None? { return Ok(initial); }
    var raw := HeapTrees.Decode(found.value.value, Get(w, Patterns.Keys(keys)).value, S);
    if k.dec(raw).None? { return Error; }
    r := Ok(k.dec(raw).value);
  }

  method ReadRoot<T>(k: Coder<T>, root: Node, keys: seq<string>, initial: T, ghost j: Json, ghost S: set<Node>)
    returns (r: Outcome<T>)
    requires HeapTrees.Holds(root, j, S)
    ensures r == ReadAt(k, j, Patterns.Keys(keys), initial)
  {
    assert [] + Patterns.Keys(keys) == Patterns.Keys(keys);
    r := ReadValue(k, root, Bare(VMap(root)), keys, initial, j, [], S);
  }

  /** One container, out of the node found. */
  method ReadContainer(c: Codec, m: ContainerMapping, root: Node, cv: Val, ghost j: Json, ghost node: Path,
                       ghost S: set<Node>)
    returns (r: Outcome<Container>)
    requires HeapTrees.Holds(root, j, S) && At(VMap(root), node, cv, Snapshot(S))
    ensures r == ReadNode(c, m, j, node)
  {
    var name: Option<string> := None;
    if m.name.Some? {
      var n := ReadValue(c.name, root, Wrapped(cv), m.name.value, "", j, node, S);
      if n.Error? { return Error; }
      if n.Panic? { return Panic; }
      name := Some(n.value);
    }
    var env := ReadValue(c.env, root, Wrapped(cv), m.env, [], j, node, S);
    if env.Error? { return Error; }
    if env.Panic? { return Panic; }
    var mounts := ReadValue(c.volumeMounts, root, Wrapped(cv), m.volumeMounts, [], j, node, S);
    if mounts.Error? { return Error; }
    if mounts.Panic? { return Panic; }
    r := Ok(Container(name, env.value, mounts.value));
  }

  method Append(before: seq<MetaContainer>, k: Container) returns (r: seq<MetaContainer>)
    requires Distinct(before)
    ensures Distinct(r) && |r| == |before| + 1 && r == before + [r[|before|]] && fresh(r[|before|])
    ensures Values(r) == Values(before) + [k]
  {
    var mc := new MetaContainer(k.name, k.env, k.volumeMounts);
    ValuesAppend(before, mc);
    DistinctConcat(before, [mc]);
    r := before + [mc];
  }

  lemma NodesRead(c: Codec, m: ContainerMapping, j: Json, nodes: seq<Path>, before: seq<Container>)
    ensures Prepend(before, ReadNodes(c, m, j, nodes[|nodes|..])) == Ok(before)
  {
    NothingLeft(before);
  }

  lemma NodesAhead(c: Codec, m: ContainerMapping, j: Json, nodes: seq<Path>)
    ensures ReadNodes(c, m, j, nodes) == Prepend([], ReadNodes(c, m, j, nodes[0..]))
  {
    assert nodes[0..] == nodes;
    PrependTwice([], [], ReadNodes(c, m, j, nodes));
  }

  /** One round of the inner loop: the container of node `n` is read and appended, and what is then left to read. */
  method ReadNext(c: Codec, m: ContainerMapping, root: Node, cvs: seq<Val>, n: nat, containers: seq<MetaContainer>,
                  ghost ks: seq<Container>, ghost j: Json, ghost nodes: seq<Path>, ghost S: set<Node>)
    returns (r: Outcome<seq<MetaContainer>>, ghost next: seq<Container>)
    requires HeapTrees.Holds(root, j, S) && HeapTrees.AllAt(VMap(root), nodes, cvs, Snapshot(S)) && n < |nodes|
    requires Distinct(containers) && Values(containers) == ks
    ensures r.Ok? ==> forall mc :: mc in r.value ==> mc in containers || fresh(mc)
    ensures r.Ok? ==> Distinct(r.value) && Values(r.value) == next
    ensures r.Ok? ==> Prepend(ks, ReadNodes(c, m, j, nodes[n..])) == Prepend(next, ReadNodes(c, m, j, nodes[n + 1..]))
    ensures r.Error? ==> ReadNodes(c, m, j, nodes[n..]).Error?
    ensures r.Panic? ==> ReadNodes(c, m, j, nodes[n..]).Panic?
  {
    next := ks;
    NodeRead(c, m, nodes, n, j, ks);
    var read := ReadContainer(c, m, root, cvs[n], j, nodes[n], S);
    if read.Error? { return Error, next; }
    if read.Panic? { return Panic, next; }
    var all := Append(containers, read.value);
    next := ks + [read.value];
    r := Ok(all);
  }

  /** The inner loop of NewMetaPodTemplate: the nodes of one entry. */
  method ReadEntry(c: Codec, m: ContainerMapping, root: Node, cvs: seq<Val>, ghost j: Json, ghost nodes: seq<Path>,
                   ghost S: set<Node>)
    returns (r: Outcome<seq<MetaContainer>>)
    requires HeapTrees.Holds(root, j, S) && HeapTrees.AllAt(VMap(root), nodes, cvs, Snapshot(S))
    ensures r.Ok? ==> Distinct(r.value) && forall mc :: mc in r.value ==> fresh(mc)
    ensures var o := ReadNodes(c, m, j, nodes);
      (r.Ok? ==> o == Ok(Values(r.value))) && (r.Error? ==> o.Error?) && (r.Panic? ==> o.Panic?)
  {
    var containers: seq<MetaContainer> := [];
    ghost var o, ks: seq<Container> := ReadNodes(c, m, j, nodes), [];
    NodesAhead(c, m, j, nodes);
    for n := 0 to |cvs|
      invariant (forall mc :: mc in containers ==> fresh(mc)) && Distinct(containers) && Values(containers) == ks
      invariant o == Prepend(ks, ReadNodes(c, m, j, nodes[n..]))
    {
      r, ks := ReadNext(c, m, root, cvs, n, containers, ks, j, nodes, S);
      if !r.Ok? { return; }
      containers := r.value;
    }
    NodesRead(c, m, j, nodes, ks);
    r := Ok(containers);
  }

  /** The nodes of an expression, none when the search fails. */
  method Find(path: Patterns.Pattern, root: Node, ghost j: Json, ghost S: set<Node>) returns (cvs: seq<Val>)
    requires HeapTrees.Holds(root, j, S)
    ensures HeapTrees.AllAt(VMap(root), Patterns.Located(path, j), cvs, Snapshot(S))
  {
    var found := HeapTrees.FindResults(path, VMap(root), j, S);
    cvs := if found.Some? then found.value else [];
  }

  /** The containers of entry `i`, and what is left to read after `before` and them. */
  method ReadFound(c: Codec, ms: seq<ContainerMapping>, i: nat, root: Node, ghost before: seq<Container>, ghost j: Json,
                   ghost S: set<Node>)
    returns (r: Outcome<seq<MetaContainer>>)
    requires HeapTrees.Holds(root, j, S) && i < |ms|
    ensures r.Ok? ==> Distinct(r.value) && forall mc :: mc in r.value ==> fresh(mc)
    ensures r.Ok? ==>
      Prepend(before, ReadEntries(c, ms[i..], j)) == Prepend(before + Values(r.value), ReadEntries(c, ms[i + 1..], j))
    ensures r.Error? ==> ReadEntries(c, ms[i..], j).Error?
    ensures r.Panic? ==> ReadEntries(c, ms[i..], j).Panic?
  {
    var cvs := Find(ms[i].path, root, j, S);
    r := ReadEntry(c, ms[i], root, cvs, j, Patterns.Located(ms[i].path, j), S);
    if r.Ok? {
      EntryRead(c, ms, i, j, before, Values(r.value));
    } else {
      EntryFails(c, ms, i, j);
    }
  }

  lemma Joined(a: seq<MetaContainer>, b: seq<MetaContainer>)
    requires Distinct(a) && Distinct(b) && forall mc :: mc in b ==> mc !in a
    ensures Distinct(a + b) && Values(a + b) == Values(a) + Values(b)
    ensures forall mc :: mc in a + b ==> mc in a || mc in b
  {
    DistinctConcat(a, b);
    ValuesConcat(a, b);
  }

  /** One round of the container loop: the containers of entry `i` are appended. */
  method ReadMore(c: Codec, ms: seq<ContainerMapping>, i: nat, root: Node, containers: seq<MetaContainer>,
                  ghost j: Json, ghost S: set<Node>)
    returns (r: Outcome<seq<MetaContainer>>)
    requires HeapTrees.Holds(root, j, S) && i < |ms| && Distinct(containers)
    ensures r.Ok? ==> Distinct(r.value) && forall mc :: mc in r.value ==> mc in containers || fresh(mc)
    ensures r.Ok? ==>
      Prepend(Values(containers), ReadEntries(c, ms[i..], j))
      == Prepend(Values(r.value), ReadEntries(c, ms[i + 1..], j))
    ensures r.Error? ==> ReadEntries(c, ms[i..], j).Error?
    ensures r.Panic? ==> ReadEntries(c, ms[i..], j).Panic?
  {
    var entry := ReadFound(c, ms, i, root, Values(containers), j, S);
    if !entry.Ok? { return entry; }
    Joined(containers, entry.value);
    r := Ok(containers + entry.value);
  }

  lemma EntriesAhead(c: Codec, ms: seq<ContainerMapping>, j: Json)
    ensures ReadEntries(c, ms, j) == Prepend([], ReadEntries(c, ms[0..], j))
  {
    assert ms[0..] == ms;
    PrependTwice([], [], ReadEntries(c, ms, j));
  }

  lemma EntriesDone(c: Codec, ms: seq<ContainerMapping>, j: Json, before: seq<Container>)
    ensures Prepend(before, ReadEntries(c, ms[|ms|..], j)) == Ok(before)
  {
    NothingLeft(before);
  }

  /** The container loop of NewMetaPodTemplate. */
  method ReadContainers(c: Codec, ms: seq<ContainerMapping>, root: Node, ghost j: Json, ghost S: set<Node>)
    returns (r: Outcome<seq<MetaContainer>>)
    requires HeapTrees.Holds(root, j, S)
    ensures r.Ok? ==> fresh(r.value) && Distinct(r.value)
    ensures var o := ReadEntries(c, ms, j);
      (r.Ok? ==> o == Ok(Values(r.value))) && (r.Error? ==> o.Error?) && (r.Panic? ==> o.Panic?)
  {
    var containers: seq<MetaContainer> := [];
    ghost var o := ReadEntries(c, ms, j);
    EntriesAhead(c, ms, j);
    for i := 0 to |ms|
      invariant (forall mc :: mc in containers ==> fresh(mc)) && Distinct(containers)
      invariant o == Prepend(Values(containers), ReadEntries(c, ms[i..], j))
    {
      r := ReadMore(c, ms, i, root, containers, j, S);
      if !r.Ok? { return; }
      containers := r.value;
    }
    EntriesDone(c, ms, j, Values(containers));
    assert forall n :: 0 <= n < |containers| ==> containers[n] in containers;
    r := Ok(containers);
  }

  lemma ReadParts(c: Codec, m: Mapping, j: Json)
    ensures var a := ReadAt(c.annotations, j, Patterns.Keys(m.annotations), map[]);
      var ks := ReadEntries(c, m.containers, j);
      var x := ReadAt(c.volumes, j, Patterns.Keys(m.volumes), []);
      && (a.Error? ==> Read(c, m, j).Error?) && (a.Panic? ==> Read(c, m, j).Panic?)
      && (a.Ok? && ks.Error? ==> Read(c, m, j).Error?) && (a.Ok? && ks.Panic? ==> Read(c, m, j).Panic?)
      && (a.Ok? && ks.Ok? && x.Error? ==> Read(c, m, j).Error?)
      && (a.Ok? && ks.Ok? && x.Panic? ==> Read(c, m, j).Panic?)
      && (a.Ok? && ks.Ok? && x.Ok? ==> Read(c, m, j) == Ok(PodTemplate(a.value, ks.value, x.value)))
  {
  }

  method Assemble(annotations: map<string, string>, containers: seq<MetaContainer>, volumes: seq<Volume>)
    returns (mpt: MetaPodTemplate)
    requires Distinct(containers)
    ensures fresh(mpt) && mpt.Valid() && mpt.containers == containers
    ensures mpt.Value() == PodTemplate(annotations, Values(containers), volumes)
  {
    mpt := new MetaPodTemplate();
    mpt.annotations, mpt.containers, mpt.volumes := annotations, containers, volumes;
  }

  method NewMetaPodTemplate(c: Codec, m: Mapping, root: Node, ghost j: Json, ghost S: set<Node>)
    returns (r: Outcome<MetaPodTemplate>)
    requires HeapTrees.Holds(root, j, S)
    ensures r.Ok? ==> fresh(r.value) && fresh(r.value.containers) && r.value.Valid()
    ensures var o := Read(c, m, j);
      (r.Ok? ==> o == Ok(r.value.Value())) && (r.Error? ==> o.Error?) && (r.Panic? ==> o.Panic?)
  {
    ReadParts(c, m, j);
    var annotations := ReadRoot(c.annotations, root, m.annotations, map[], j, S);
    if annotations.Error? { return Error; }
    if annotations.Panic? { return Panic; }
    var containers := ReadContainers(c, m.containers, root, j, S);
    if containers.Error? { return Error; }
    if containers.Panic? { return Panic; }
    var volumes := ReadRoot(c.volumes, root, m.volumes, [], j, S);
    if volumes.Error? { return Error; }
    if volumes.Panic? { return Panic; }
    var mpt := Assemble(annotations.value, containers.value, volumes.value);
    r := Ok(mpt);
  }

  /* ---- writing ---- */

  /** What a write into a tree achieves, when the same write on values ends in `o`. */
  ghost predicate Wrote(r: Outcome<()>, o: Outcome<Json>, root: Node, node: Path, H: Heap, T: set<Node>)
    reads T
  {
    && (r.Ok? <==> o.Ok?) && (r.Error? <==> o.Error?)
    && (r.Ok? ==> HeapTrees.Holds(root, o.value, T) && OnlyBelow(node, H, Snapshot(T)))
  }

  /** setAt. */
  method WriteValue(root: Node, start: Value, keys: seq<string>, x: Json, ghost j: Json, ghost node: Path,
                    ghost S: set<Node>)
    returns (r: Outcome<()>, ghost T: set<Node>)
    requires HeapTrees.Holds(root, j, S) && !start.Invalid? && (start.Bare? ==> start.v.VMap?)
    requires At(VMap(root), node, start.v, Snapshot(S))
    modifies S
    ensures Wrote(r, Workload.SetAt(j, node, keys, x), root, node, old(Snapshot(S)), T)
    ensures r.Ok? ==> S <= T && fresh(T - S) && At(VMap(root), node, start.v, Snapshot(T))
  {
    var out;
    ghost var F;
    out, F := HeapTrees.Copy(x, node + Patterns.Keys(keys));
    ghost var H := Snapshot(S);
    r, T := JsonHeap.SetAt(root, start, keys, out, x, F, j, node, S);
    if r.Ok? {
      HeapTrees.AtKept(VMap(root), [], node, start.v, node, H, Snapshot(T));
    }
  }

  /** What writing the name makes of the workload. */
  function WithName(c: Codec, m: ContainerMapping, j: Json, node: Path, k: Container): Outcome<Json>
  {
    if m.name.Some? && k.name.Some? then Workload.SetAt(j, node, m.name.value, c.name.enc(k.name.value)) else Ok(j)
  }

  method WriteName(c: Codec, m: ContainerMapping, root: Node, cv: Val, k: Container, ghost j: Json, ghost node: Path,
                   ghost S: set<Node>)
    returns (r: Outcome<()>, ghost T: set<Node>)
    requires HeapTrees.Holds(root, j, S) && At(VMap(root), node, cv, Snapshot(S))
    modifies S
    ensures Wrote(r, WithName(c, m, j, node, k), root, node, old(Snapshot(S)), T)
    ensures r.Ok? ==> S <= T && fresh(T - S) && At(VMap(root), node, cv, Snapshot(T))
  {
    if m.name.Some? && k.name.Some? {
      r, T := WriteValue(root, Wrapped(cv), m.name.value, c.name.enc(k.name.value), j, node, S);
    } else {
      r, T := Ok(()), S;
    }
  }

  /** What writing the variables and the mounts makes of the workload. */
  function WithLists(c: Codec, m: ContainerMapping, j: Json, node: Path, k: Container): Outcome<Json>
  {
    var j2 :- Workload.SetAt(j, node, m.env, c.env.enc(k.env));
    Workload.SetAt(j2, node, m.volumeMounts, c.volumeMounts.enc(k.volumeMounts))
  }

  method WriteLists(c: Codec, m: ContainerMapping, root: Node, cv: Val, k: Container, ghost j: Json, ghost node: Path,
                    ghost S: set<Node>)
    returns (r: Outcome<()>, ghost T: set<Node>)
    requires HeapTrees.Holds(root, j, S) && At(VMap(root), node, cv, Snapshot(S))
    modifies S
    ensures Wrote(r, WithLists(c, m, j, node, k), root, node, old(Snapshot(S)), T)
    ensures r.Ok? ==> S <= T && fresh(T - S)
  {
    r, T := WriteValue(root, Wrapped(cv), m.env, c.env.enc(k.env), j, node, S);
    if !r.Ok? { return; }
    ghost var j2 := Workload.SetAt(j, node, m.env, c.env.enc(k.env)).value;
    r, T := WriteValue(root, Wrapped(cv), m.volumeMounts, c.volumeMounts.enc(k.volumeMounts), j2, node, T);
  }

  lemma NodeParts(c: Codec, m: ContainerMapping, j: Json, node: Path, k: Container)
    ensures WriteNode(c, m, j, node, k) ==
      var j1 :- WithName(c, m, j, node, k);
      WithLists(c, m, j1, node, k)
  {
  }

  /** The values of one container, into the node found. */
  method WriteContainer(c: Codec, m: ContainerMapping, root: Node, cv: Val, k: Container, ghost j: Json,
                        ghost node: Path, ghost S: set<Node>)
    returns (r: Outcome<()>, ghost T: set<Node>)
    requires HeapTrees.Holds(root, j, S) && At(VMap(root), node, cv, Snapshot(S))
    modifies S
    ensures Wrote(r, WriteNode(c, m, j, node, k), root, node, old(Snapshot(S)), T)
    ensures r.Ok? ==> S <= T && fresh(T - S)
  {
    NodeParts(c, m, j, node, k);
    r, T := WriteName(c, m, root, cv, k, j, node, S);
    if !r.Ok? { return; }
    r, T := WriteLists(c, m, root, cv, k, WithName(c, m, j, node, k).value, node, T);
  }

  lemma AllAtKept(root: Node, nodes: seq<Path>, cvs: seq<Val>, below: Path, H: Heap, K: Heap)
    requires Tree(H) && Placed(VMap(root), [], H) && HeapTrees.AllAt(VMap(root), nodes, cvs, H)
    requires OnlyBelow(below, H, K)
    requires forall p :: p in nodes ==> |p| == |below|
    ensures HeapTrees.AllAt(VMap(root), nodes, cvs, K)
  {
    forall i | 0 <= i < |nodes|
      ensures At(VMap(root), nodes[i], cvs[i], K)
    {
      assert nodes[i] in nodes;
      HeapTrees.AtKept(VMap(root), [], nodes[i], cvs[i], below, H, K);
    }
  }

  lemma NextWrite(c: Codec, m: ContainerMapping, j: Json, nodes: seq<Path>, n: nat, ks: seq<Container>, ci: nat)
    requires n < |nodes| && ci <= |ks|
    ensures WriteNodes(c, m, j, nodes[n..], ks[ci..]) ==
      if ci == |ks| then Panic
      else
        var next :- WriteNode(c, m, j, nodes[n], ks[ci]);
        WriteNodes(c, m, next, nodes[n + 1..], ks[ci + 1..])
  {
    assert nodes[n..][0] == nodes[n] && nodes[n..][1..] == nodes[n + 1..];
    if ci < |ks| {
      assert ks[ci..][0] == ks[ci] && ks[ci..][1..] == ks[ci + 1..];
    }
  }

  /** An operation that ends in `r` ends as `o` does, or leaves `rest` to be done. */
  predicate Continues<X(==)>(r: Outcome<()>, rest: Outcome<X>, o: Outcome<X>)
  {
    match r
    case Ok(_) => o == rest
    case Error => o.Error?
    case Panic => o.Panic?
  }

  /** One round of the inner loop of WriteToWorkload. The nodes still to be visited stay where they were found. */
  method WriteNext(c: Codec, m: ContainerMapping, root: Node, cvs: seq<Val>, n: nat, ks: seq<Container>, ci: nat,
                   ghost j: Json, ghost nodes: seq<Path>, ghost S: set<Node>)
    returns (r: Outcome<()>, ghost u: Json, ghost T: set<Node>)
    requires HeapTrees.Holds(root, j, S) && HeapTrees.AllAt(VMap(root), nodes, cvs, Snapshot(S)) && n < |nodes|
    requires ci <= |ks| && forall p :: p in nodes ==> |p| == |m.path|
    modifies S
    ensures r.Ok? ==> S <= T && fresh(T - S) && HeapTrees.Holds(root, u, T)
    ensures r.Ok? ==> HeapTrees.AllAt(VMap(root), nodes, cvs, Snapshot(T))
    ensures r.Ok? ==> ci < |ks|
    ensures Continues(r, if r.Ok? then WriteNodes(c, m, u, nodes[n + 1..], ks[ci + 1..]) else Error,
                      WriteNodes(c, m, j, nodes[n..], ks[ci..]))
  {
    u, T := j, S;
    NextWrite(c, m, j, nodes, n, ks, ci);
    if ci >= |ks| {
      return Panic, u, T;
    }
    ghost var H := Snapshot(S);
    r, T := WriteContainer(c, m, root, cvs[n], ks[ci], j, nodes[n], S);
    if r.Ok? {
      u := WriteNode(c, m, j, nodes[n], ks[ci]).value;
      AllAtKept(root, nodes, cvs, nodes[n], H, Snapshot(T));
    }
  }

  /** The loop that ends in `r` ends as WriteNodes does, with workload `u` and containers `left`. */
  predicate Ended(r: Outcome<()>, u: Json, left: seq<Container>, o: Outcome<(Json, seq<Container>)>)
  {
    match r
    case Ok(_) => o.Ok? && o.value.0 == u && o.value.1 == left
    case Error => o.Error?
    case Panic => o.Panic?
  }

  lemma NodesDone(c: Codec, m: ContainerMapping, u: Json, nodes: seq<Path>, ks: seq<Container>)
    ensures WriteNodes(c, m, u, nodes[|nodes|..], ks) == Ok((u, ks))
  {
  }

  /** The inner loop of WriteToWorkload: takes the next container for each node of one entry. */
  method WriteEntry(c: Codec, m: ContainerMapping, root: Node, cvs: seq<Val>, ks: seq<Container>, start: nat,
                    ghost j: Json, ghost nodes: seq<Path>, ghost S: set<Node>)
    returns (r: Outcome<()>, ci: nat, ghost u: Json, ghost T: set<Node>)
    requires HeapTrees.Holds(root, j, S) && HeapTrees.AllAt(VMap(root), nodes, cvs, Snapshot(S))
    requires start <= |ks| && forall p :: p in nodes ==> |p| == |m.path|
    modifies S
    ensures ci <= |ks|
    ensures r.Ok? ==> S <= T && fresh(T - S) && HeapTrees.Holds(root, u, T)
    ensures Ended(r, u, ks[ci..], WriteNodes(c, m, j, nodes, ks[start..]))
  {
    u, T := j, S;
    ci := start;
    ghost var w := WriteNodes(c, m, j, nodes, ks[start..]);
    assert nodes[0..] == nodes;
    for n := 0 to |cvs|
      invariant S <= T && fresh(T - S) && HeapTrees.Holds(root, u, T)
      invariant HeapTrees.AllAt(VMap(root), nodes, cvs, Snapshot(T))
      invariant ci <= |ks| && w == WriteNodes(c, m, u, nodes[n..], ks[ci..])
    {
      r, u, T := WriteNext(c, m, root, cvs, n, ks, ci, u, nodes, T);
      if !r.Ok? { return; }
      ci := ci + 1;
    }
    NodesDone(c, m, u, nodes, ks[ci..]);
    r := Ok(());
  }

  lemma LocatedLength(path: Patterns.Pattern, j: Json)
    ensures forall p :: p in Patterns.Located(path, j) ==> |p| == |path|
  {
    forall p | p in Patterns.Located(path, j)
      ensures |p| == |path|
    {
      Patterns.NodeFound(path, j, p);
    }
  }

  lemma NextEntry(c: Codec, ms: seq<ContainerMapping>, i: nat, j: Json, ks: seq<Container>)
    requires i < |ms|
    ensures WriteEntries(c, ms[i..], j, ks) ==
      var next :- WriteNodes(c, ms[i], j, Patterns.Located(ms[i].path, j), ks);
      WriteEntries(c, ms[i + 1..], next.0, next.1)
  {
    assert ms[i..][0] == ms[i] && ms[i..][1..] == ms[i + 1..];
  }

  /** One round of the container loop: the expression is evaluated on the tree as the writes before it left it. */
  method WriteFound(c: Codec, ms: seq<ContainerMapping>, i: nat, root: Node, ks: seq<Container>, start: nat,
                    ghost j: Json, ghost S: set<Node>)
    returns (r: Outcome<()>, ci: nat, ghost u: Json, ghost T: set<Node>)
    requires HeapTrees.Holds(root, j, S) && i < |ms| && start <= |ks|
    modifies S
    ensures ci <= |ks|
    ensures r.Ok? ==> S <= T && fresh(T - S) && HeapTrees.Holds(root, u, T)
    ensures Continues(r, WriteEntries(c, ms[i + 1..], u, ks[ci..]), WriteEntries(c, ms[i..], j, ks[start..]))
  {
    NextEntry(c, ms, i, j, ks[start..]);
    LocatedLength(ms[i].path, j);
    var cvs := Find(ms[i].path, root, j, S);
    r, ci, u, T := WriteEntry(c, ms[i], root, cvs, ks, start, j, Patterns.Located(ms[i].path, j), S);
  }

  /** The container loop of WriteToWorkload. The index `ci` runs on from entry to entry. */
  method WriteContainers(c: Codec, ms: seq<ContainerMapping>, root: Node, ks: seq<Container>, ghost j: Json,
                         ghost S: set<Node>)
    returns (r: Outcome<()>, ci: nat, ghost u: Json, ghost T: set<Node>)
    requires HeapTrees.Holds(root, j, S)
    modifies S
    ensures ci <= |ks|
    ensures r.Ok? ==> S <= T && fresh(T - S) && HeapTrees.Holds(root, u, T)
    ensures Ended(r, u, ks[ci..], WriteEntries(c, ms, j, ks))
  {
    u, T := j, S;
    ci := 0;
    ghost var w := WriteEntries(c, ms, j, ks);
    assert ms[0..] == ms && ks[0..] == ks;
    for i := 0 to |ms|
      invariant S <= T && fresh(T - S) && HeapTrees.Holds(root, u, T)
      invariant ci <= |ks| && w == WriteEntries(c, ms[i..], u, ks[ci..])
    {
      r, ci, u, T := WriteFound(c, ms, i, root, ks, ci, u, T);
      if !r.Ok? { return; }
    }
    assert ms[|ms|..] == [];
    r := Ok(());
  }

  /** What an operation on the tree achieves, when the same operation on values ends in `o`. */
  ghost predicate Written(r: Outcome<()>, o: Outcome<Json>, root: Node, T: set<Node>)
    reads T
  {
    && (r.Ok? <==> o.Ok?) && (r.Error? <==> o.Error?)
    && (r.Ok? ==> HeapTrees.Holds(root, o.value, T))
  }

  method WriteRoot(root: Node, keys: seq<string>, x: Json, ghost j: Json, ghost S: set<Node>)
    returns (r: Outcome<()>, ghost T: set<Node>)
    requires HeapTrees.Holds(root, j, S)
    modifies S
    ensures Written(r, Workload.SetAt(j, [], keys, x), root, T)
    ensures r.Ok? ==> S <= T && fresh(T - S)
  {
    r, T := WriteValue(root, Bare(VMap(root)), keys, x, j, [], S);
  }

  /** What writing the annotations and the containers makes of the workload. */
  function WithContainers(c: Codec, m: Mapping, j: Json, v: PodTemplate): Outcome<Json>
  {
    var j1 :- Workload.SetAt(j, [], m.annotations, c.annotations.enc(v.annotations));
    var j2 :- WriteEntries(c, m.containers, j1, v.containers);
    Ok(j2.0)
  }

  lemma WriteParts(c: Codec, m: Mapping, j: Json, v: PodTemplate)
    ensures Write(c, m, j, v) ==
      var j2 :- WithContainers(c, m, j, v);
      Workload.SetAt(j2, [], m.volumes, c.volumes.enc(v.volumes))
  {
  }

  method WriteBeforeVolumes(c: Codec, m: Mapping, root: Node, mpt: MetaPodTemplate, ghost j: Json, ghost S: set<Node>)
    returns (r: Outcome<()>, ghost T: set<Node>)
    requires HeapTrees.Holds(root, j, S)
    modifies S
    ensures Written(r, WithContainers(c, m, j, mpt.Value()), root, T)
    ensures r.Ok? ==> S <= T && fresh(T - S)
  {
    ghost var u;
    r, T := WriteRoot(root, m.annotations, c.annotations.enc(mpt.annotations), j, S);
    if !r.Ok? { return; }
    ghost var j1 := Workload.SetAt(j, [], m.annotations, c.annotations.enc(mpt.annotations)).value;
    var ci;
    r, ci, u, T := WriteContainers(c, m.containers, root, Values(mpt.containers), j1, T);
  }

  method WriteToWorkload(c: Codec, m: Mapping, root: Node, mpt: MetaPodTemplate, ghost j: Json, ghost S: set<Node>)
    returns (r: Outcome<()>, ghost T: set<Node>)
    requires HeapTrees.Holds(root, j, S)
    modifies S
    ensures Written(r, Write(c, m, j, mpt.Value()), root, T)
    ensures r.Ok? ==> S <= T && fresh(T - S)
  {
    WriteParts(c, m, j, mpt.Value());
    r, T := WriteBeforeVolumes(c, m, root, mpt, j, S);
    if !r.Ok? { return; }
    r, T := WriteRoot(root, m.volumes, c.volumes.enc(mpt.volumes), WithContainers(c, m, j, mpt.Value()).value, T);
  }

  /* ---- the projector ---- */

  lemma TakeParts(c: Codec, m: Mapping, s: Runs.Step, j: Json)
    ensures var v := Read(c, m, j);
      && (v.Error? ==> WorkloadLaws.TakeOn(c, m, s, j).Error?) && (v.Panic? ==> WorkloadLaws.TakeOn(c, m, s, j).Panic?)
      && (v.Ok? ==> WorkloadLaws.TakeOn(c, m, s, j) == Write(c, m, j, Runs.Take(s, v.value)))
  {
  }

  /** The view of the workload, as the projector changes it. The workload itself is left alone so far. */
  method ProjectedView(c: Codec, m: Mapping, b: ServiceBinding, root: Node, ghost j: Json, ghost S: set<Node>)
    returns (r: Outcome<MetaPodTemplate>)
    requires HeapTrees.Holds(root, j, S)
    ensures var o := Read(c, m, j);
      (r.Ok? ==> o.Ok? && r.value.Value() == Runs.Take(Runs.ProjectStep(b), o.value))
      && (r.Error? ==> o.Error?) && (r.Panic? ==> o.Panic?)
  {
    r := NewMetaPodTemplate(c, m, root, j, S);
    if r.Ok? {
      ServiceBindingProjector.Project(b, r.value);
    }
  }

  method UnprojectedView(c: Codec, m: Mapping, b: ServiceBinding, root: Node, ghost j: Json, ghost S: set<Node>)
    returns (r: Outcome<MetaPodTemplate>)
    requires HeapTrees.Holds(root, j, S)
    ensures var o := Read(c, m, j);
      (r.Ok? ==> o.Ok? && r.value.Value() == Runs.Take(Runs.UnprojectStep(b), o.value))
      && (r.Error? ==> o.Error?) && (r.Panic? ==> o.Panic?)
  {
    r := NewMetaPodTemplate(c, m, root, j, S);
    if r.Ok? {
      ServiceBindingProjector.Unproject(b, r.value);
    }
  }

  method Project(c: Codec, m: Mapping, b: ServiceBinding, root: Node, ghost j: Json, ghost S: set<Node>)
    returns (r: Outcome<()>, ghost T: set<Node>)
    requires HeapTrees.Holds(root, j, S)
    modifies S
    ensures Written(r, WorkloadLaws.TakeOn(c, m, Runs.ProjectStep(b), j), root, T)
    ensures r.Ok? ==> S <= T && fresh(T - S)
  {
    TakeParts(c, m, Runs.ProjectStep(b), j);
    T := S;
    var mpt := ProjectedView(c, m, b, root, j, S);
    if mpt.Error? { return Error, T; }
    if mpt.Panic? { return Panic, T; }
    r, T := WriteToWorkload(c, m, root, mpt.value, j, S);
  }

  method Unproject(c: Codec, m: Mapping, b: ServiceBinding, root: Node, ghost j: Json, ghost S: set<Node>)
    returns (r: Outcome<()>, ghost T: set<Node>)
    requires HeapTrees.Holds(root, j, S)
    modifies S
    ensures Written(r, WorkloadLaws.TakeOn(c, m, Runs.UnprojectStep(b), j), root, T)
    ensures r.Ok? ==> S <= T && fresh(T - S)
  {
    TakeParts(c, m, Runs.UnprojectStep(b), j);
    T := S;
    var mpt := UnprojectedView(c, m, b, root, j, S);
    if mpt.Error? { return Error, T; }
    if mpt.Panic? { return Panic, T; }
    r, T := WriteToWorkload(c, m, root, mpt.value, j, S);
  }

  method ProjectNext(c: Codec, m: Mapping, active: seq<ServiceBinding>, i: nat, root: Node, ghost j: Json,
                     ghost u: Json, ghost S: set<Node>)
    returns (r: Outcome<()>, ghost next: Json, ghost T: set<Node>)
    requires HeapTrees.Holds(root, u, S) && i < |active|
    requires WorkloadLaws.RunOn(c, m, Runs.AsSteps(active)[..i], j) == Ok(u)
    modifies S
    ensures r.Ok? ==> S <= T && fresh(T - S) && HeapTrees.Holds(root, next, T)
    ensures r.Ok? ==> WorkloadLaws.RunOn(c, m, Runs.AsSteps(active)[..i + 1], j) == Ok(next)
    ensures r.Error? ==> WorkloadLaws.RunOn(c, m, Runs.AsSteps(active), j).Error?
    ensures r.Panic? ==> WorkloadLaws.RunOn(c, m, Runs.AsSteps(active), j).Panic?
  {
    WorkloadLaws.RunNext(c, m, Runs.AsSteps(active), i, j, u);
    next := u;
    r, T := Project(c, m, active[i], root, u, S);
    if r.Ok? {
      next := WorkloadLaws.TakeOn(c, m, Runs.ProjectStep(active[i]), u).value;
    }
  }

  /** The loop of the admission webhook, which projects the active bindings into one workload. */
  method ProjectActive(c: Codec, m: Mapping, active: seq<ServiceBinding>, root: Node, ghost j: Json, ghost S: set<Node>)
    returns (r: Outcome<()>, ghost T: set<Node>)
    requires HeapTrees.Holds(root, j, S)
    modifies S
    ensures Written(r, WorkloadLaws.RunOn(c, m, Runs.AsSteps(active), j), root, T)
    ensures r.Ok? ==> S <= T && fresh(T - S)
  {
    T := S;
    ghost var u := j;
    for i := 0 to |active|
      invariant S <= T && fresh(T - S) && HeapTrees.Holds(root, u, T)
      invariant WorkloadLaws.RunOn(c, m, Runs.AsSteps(active)[..i], j) == Ok(u)
    {
      r, u, T := ProjectNext(c, m, active, i, root, j, u, T);
      if !r.Ok? { return; }
    }
    assert Runs.AsSteps(active)[..|active|] == Runs.AsSteps(active);
    r := Ok(());
  }
}
