/** Where each part of a view is in the workload: what reading takes from where, and what writing leaves there. */
module ViewLocations {
  import opened Wrappers
  import opened Bindings
  import opened Json
  import opened Patterns
  import opened Workload
  import opened WorkloadLens
  import opened LensLaws

  /** What is at the location decodes to `x`; a missing or null value stands for the initial one. */
  ghost predicate HoldsAt<T>(k: Coder<T>, j: Json, p: Path, initial: T, x: T)
  {
    Get(j, p).Ok? && if Get(j, p).value == Null then x == initial else k.dec(Get(j, p).value) == Some(x)
  }

  /** The parts of one container, each at its keys below the node. */
  ghost predicate ContainerAt(c: Codec, m: ContainerMapping, j: Json, node: Path, k: Container)
  {
    && (m.name.Some? <==> k.name.Some?)
    && (m.name.Some? ==> HoldsAt(c.name, j, node + Keys(m.name.value), "", k.name.value))
    && HoldsAt(c.env, j, node + Keys(m.env), [], k.env)
    && HoldsAt(c.volumeMounts, j, node + Keys(m.volumeMounts), [], k.volumeMounts)
  }

  /** How many nodes the first `i` entries find. */
  function Offset(ms: seq<ContainerMapping>, j: Json, i: nat): nat
    requires i <= |ms|
    decreases i
  {
    if i == 0 then 0 else |Located(ms[0].path, j)| + Offset(ms[1..], j, i - 1)
  }

  /** The `n`-th node of an entry belongs to the container that comes `n` places after those of the entries before. */
  ghost predicate NodeHolds(c: Codec, ms: seq<ContainerMapping>, j: Json, ks: seq<Container>, i: nat, n: nat)
    requires i < |ms| && n < |Located(ms[i].path, j)|
  {
    && Offset(ms, j, i) + n < |ks|
    && ContainerAt(c, ms[i], j, Located(ms[i].path, j)[n], ks[Offset(ms, j, i) + n])
  }

  ghost predicate ContainersAt(c: Codec, ms: seq<ContainerMapping>, j: Json, ks: seq<Container>)
  {
    && |ks| == Offset(ms, j, |ms|)
    && forall i: nat, n: nat :: i < |ms| && n < |Located(ms[i].path, j)| ==> NodeHolds(c, ms, j, ks, i, n)
  }

  /** The view's annotations and volumes at their keys, and its containers in the nodes, in order. */
  ghost predicate ViewAt(c: Codec, m: Mapping, j: Json, v: PodTemplate)
  {
    && HoldsAt(c.annotations, j, Keys(m.annotations), map[], v.annotations)
    && ContainersAt(c, m.containers, j, v.containers)
    && HoldsAt(c.volumes, j, Keys(m.volumes), [], v.volumes)
  }

  lemma ReadAtExactly<T>(k: Coder<T>, j: Json, p: Path, initial: T, x: T)
    ensures ReadAt(k, j, p, initial) == Ok(x) <==> HoldsAt(k, j, p, initial, x)
  {
  }

  lemma ReadNodeExactly(c: Codec, m: ContainerMapping, j: Json, node: Path, k: Container)
    ensures ReadNode(c, m, j, node) == Ok(k) <==> ContainerAt(c, m, j, node, k)
  {
  }

  ghost predicate NodesAt(c: Codec, m: ContainerMapping, j: Json, nodes: seq<Path>, ks: seq<Container>)
  {
    |ks| == |nodes| && forall n :: 0 <= n < |nodes| ==> ContainerAt(c, m, j, nodes[n], ks[n])
  }

  lemma NodesAtSplit(c: Codec, m: ContainerMapping, j: Json, nodes: seq<Path>, ks: seq<Container>)
    requires nodes != [] && ks != []
    ensures NodesAt(c, m, j, nodes, ks)
       <==> ContainerAt(c, m, j, nodes[0], ks[0]) && NodesAt(c, m, j, nodes[1..], ks[1..])
  {
    if ContainerAt(c, m, j, nodes[0], ks[0]) && NodesAt(c, m, j, nodes[1..], ks[1..]) {
      forall n | 0 <= n < |nodes|
        ensures ContainerAt(c, m, j, nodes[n], ks[n])
      {
        if n > 0 {
          assert ContainerAt(c, m, j, nodes[1..][n - 1], ks[1..][n - 1]);
        }
      }
    }
  }

  lemma {:induction false} ReadNodesExactly(c: Codec, m: ContainerMapping, j: Json, nodes: seq<Path>,
                                            ks: seq<Container>)
    ensures ReadNodes(c, m, j, nodes) == Ok(ks) <==> NodesAt(c, m, j, nodes, ks)
    decreases |nodes|
  {
    if nodes != [] && ks != [] {
      ReadNodeExactly(c, m, j, nodes[0], ks[0]);
      ReadNodesExactly(c, m, j, nodes[1..], ks[1..]);
      NodesAtSplit(c, m, j, nodes, ks);
      assert [ks[0]] + ks[1..] == ks;
    }
  }

  /** The containers of the first entry. */
  ghost predicate FirstAt(c: Codec, m: ContainerMapping, j: Json, ks: seq<Container>)
  {
    && |Located(m.path, j)| <= |ks|
    && forall n :: 0 <= n < |Located(m.path, j)| ==> ContainerAt(c, m, j, Located(m.path, j)[n], ks[n])
  }

  lemma RestAt(c: Codec, ms: seq<ContainerMapping>, j: Json, ks: seq<Container>, i: nat, n: nat)
    requires 0 < i < |ms| && n < |Located(ms[i].path, j)| && |Located(ms[0].path, j)| <= |ks|
    ensures NodeHolds(c, ms, j, ks, i, n) <==> NodeHolds(c, ms[1..], j, ks[|Located(ms[0].path, j)|..], i - 1, n)
  {
    assert ms[1..][i - 1] == ms[i];
  }

  lemma FirstAlone(c: Codec, ms: seq<ContainerMapping>, j: Json, ks: seq<Container>, n: nat)
    requires ms != [] && n < |Located(ms[0].path, j)| <= |ks|
    ensures NodeHolds(c, ms, j, ks, 0, n) <==> ContainerAt(c, ms[0], j, Located(ms[0].path, j)[n], ks[n])
  {
  }

  lemma FirstOfAll(c: Codec, ms: seq<ContainerMapping>, j: Json, ks: seq<Container>)
    requires ms != [] && ContainersAt(c, ms, j, ks)
    ensures FirstAt(c, ms[0], j, ks)
  {
    assert Offset(ms, j, |ms|) >= |Located(ms[0].path, j)|;
    forall n: nat | n < |Located(ms[0].path, j)|
      ensures ContainerAt(c, ms[0], j, Located(ms[0].path, j)[n], ks[n])
    {
      assert NodeHolds(c, ms, j, ks, 0, n);
      FirstAlone(c, ms, j, ks, n);
    }
  }

  lemma OneOfAll(c: Codec, ms: seq<ContainerMapping>, j: Json, ks: seq<Container>, i: nat, n: nat)
    requires i < |ms| && n < |Located(ms[i].path, j)| && ContainersAt(c, ms, j, ks)
    ensures NodeHolds(c, ms, j, ks, i, n)
  {
  }

  lemma RestOfAll(c: Codec, ms: seq<ContainerMapping>, j: Json, ks: seq<Container>)
    requires ms != [] && ContainersAt(c, ms, j, ks) && |Located(ms[0].path, j)| <= |ks|
    ensures ContainersAt(c, ms[1..], j, ks[|Located(ms[0].path, j)|..])
  {
    forall i: nat, n: nat | i < |ms[1..]| && n < |Located(ms[1..][i].path, j)|
      ensures NodeHolds(c, ms[1..], j, ks[|Located(ms[0].path, j)|..], i, n)
    {
      assert ms[1..][i] == ms[i + 1];
      OneOfAll(c, ms, j, ks, i + 1, n);
      RestAt(c, ms, j, ks, i + 1, n);
    }
  }

  lemma JoinedAt(c: Codec, ms: seq<ContainerMapping>, j: Json, ks: seq<Container>)
    requires ms != [] && FirstAt(c, ms[0], j, ks)
    requires ContainersAt(c, ms[1..], j, ks[|Located(ms[0].path, j)|..])
    ensures ContainersAt(c, ms, j, ks)
  {
    forall i: nat, n: nat | i < |ms| && n < |Located(ms[i].path, j)|
      ensures NodeHolds(c, ms, j, ks, i, n)
    {
      if i == 0 {
        FirstAlone(c, ms, j, ks, n);
      } else {
        assert ms[1..][i - 1] == ms[i];
        assert NodeHolds(c, ms[1..], j, ks[|Located(ms[0].path, j)|..], i - 1, n);
        RestAt(c, ms, j, ks, i, n);
      }
    }
  }

  lemma ContainersAtSplit(c: Codec, ms: seq<ContainerMapping>, j: Json, ks: seq<Container>)
    requires ms != []
    ensures ContainersAt(c, ms, j, ks)
       <==> FirstAt(c, ms[0], j, ks) && ContainersAt(c, ms[1..], j, ks[|Located(ms[0].path, j)|..])
  {
    if ContainersAt(c, ms, j, ks) {
      FirstOfAll(c, ms, j, ks);
      RestOfAll(c, ms, j, ks);
    } else if FirstAt(c, ms[0], j, ks) && ContainersAt(c, ms[1..], j, ks[|Located(ms[0].path, j)|..]) {
      JoinedAt(c, ms, j, ks);
    }
  }

  lemma FirstExactly(c: Codec, m: ContainerMapping, j: Json, ks: seq<Container>)
    requires |Located(m.path, j)| <= |ks|
    ensures ReadNodes(c, m, j, Located(m.path, j)) == Ok(ks[..|Located(m.path, j)|]) <==> FirstAt(c, m, j, ks)
  {
    var found := |Located(m.path, j)|;
    ReadNodesExactly(c, m, j, Located(m.path, j), ks[..found]);
    assert NodesAt(c, m, j, Located(m.path, j), ks[..found]) <==> FirstAt(c, m, j, ks) by {
      assert forall n :: 0 <= n < found ==> ks[..found][n] == ks[n];
    }
  }

  lemma {:induction false} ReadEntriesExactly(c: Codec, ms: seq<ContainerMapping>, j: Json, ks: seq<Container>)
    ensures ReadEntries(c, ms, j) == Ok(ks) <==> ContainersAt(c, ms, j, ks)
    decreases |ms|
  {
    if ms != [] {
      var nodes := Located(ms[0].path, j);
      ContainersAtSplit(c, ms, j, ks);
      if ReadEntries(c, ms, j) == Ok(ks) {
        var first, rest := ReadNodes(c, ms[0], j, nodes).value, ReadEntries(c, ms[1..], j).value;
        ReadNodesNamed(c, ms[0], j, nodes);
        assert ks[..|nodes|] == first && ks[|nodes|..] == rest;
      }
      if |nodes| <= |ks| {
        FirstExactly(c, ms[0], j, ks);
        ReadEntriesExactly(c, ms[1..], j, ks[|nodes|..]);
        Rejoin(ks, |nodes|);
      }
    }
  }

  /** The view that is read is the one whose parts are at their mapped locations; reading fails when there is none. */
  lemma ReadExactly(c: Codec, m: Mapping, j: Json, v: PodTemplate)
    ensures Read(c, m, j) == Ok(v) <==> ViewAt(c, m, j, v)
  {
    ReadAtExactly(c.annotations, j, Keys(m.annotations), map[], v.annotations);
    ReadEntriesExactly(c, m.containers, j, v.containers);
    ReadAtExactly(c.volumes, j, Keys(m.volumes), [], v.volumes);
  }

  /** Writing leaves every part of the view at its own location. */
  lemma ViewIsStored(c: Codec, m: Mapping, j: Json, v: PodTemplate)
    requires Mappable(c, m, j) && Fits(m.containers, j, v.containers)
    ensures Write(c, m, j, v).Ok? && ViewAt(c, m, Write(c, m, j, v).value, v)
  {
    WriteThenRead(c, m, j, v);
    ReadExactly(c, m, Write(c, m, j, v).value, v);
  }
}
