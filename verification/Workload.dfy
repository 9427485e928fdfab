/** Reading a pod template out of an unstructured workload, and writing it back, as a mapping says. */
module Workload {
  import opened Wrappers
  import opened Bindings
  import opened Json
  import opened Patterns

  /** JSON marshalling of one kind of value. */
  datatype Coder<!T> = Coder(enc: T -> Json, dec: Json -> Option<T>)

  /** Marshalling loses nothing and never yields null. */
  ghost predicate Lossless<T(!new)>(k: Coder<T>)
  {
    forall x :: k.dec(k.enc(x)) == Some(x) && k.enc(x) != Null
  }

  datatype Codec = Codec(
    annotations: Coder<map<string, string>>,
    name: Coder<string>,
    env: Coder<seq<EnvVar>>,
    volumeMounts: Coder<seq<VolumeMount>>,
    volumes: Coder<seq<Volume>>
  )

  ghost predicate LosslessCodec(c: Codec)
  {
    && Lossless(c.annotations) && Lossless(c.name) && Lossless(c.env)
    && Lossless(c.volumeMounts) && Lossless(c.volumes)
  }

  /** The keys of a parsed expression; only containers are found by a pattern. The name is optional. */
  datatype ContainerMapping = ContainerMapping(
    path: Pattern,
    name: Option<seq<string>>,
    env: seq<string>,
    volumeMounts: seq<string>
  )

  datatype Mapping = Mapping(annotations: seq<string>, containers: seq<ContainerMapping>, volumes: seq<string>)

  /* ---- reading ---- */

  /** getAt: a missing or null value leaves the target as it was. */
  function ReadAt<T>(k: Coder<T>, j: Json, p: Path, initial: T): Outcome<T>
  {
    var v :- Get(j, p);
    if v == Null then Ok(initial)
    else if k.dec(v).None? then Error
    else Ok(k.dec(v).value)
  }

  function ReadNode(c: Codec, m: ContainerMapping, j: Json, node: Path): Outcome<Container>
  {
    var name :-
      if m.name.None? then Ok(None)
      else var n :- ReadAt(c.name, j, node + Keys(m.name.value), ""); Ok(Some(n));
    var env :- ReadAt(c.env, j, node + Keys(m.env), []);
    var mounts :- ReadAt(c.volumeMounts, j, node + Keys(m.volumeMounts), []);
    Ok(Container(name, env, mounts))
  }

  function ReadNodes(c: Codec, m: ContainerMapping, j: Json, nodes: seq<Path>): Outcome<seq<Container>>
    decreases |nodes|
  {
    if nodes == [] then Ok([])
    else
      var first :- ReadNode(c, m, j, nodes[0]);
      var rest :- ReadNodes(c, m, j, nodes[1..]);
      Ok([first] + rest)
  }

  function ReadEntries(c: Codec, ms: seq<ContainerMapping>, j: Json): Outcome<seq<Container>>
    decreases |ms|
  {
    if ms == [] then Ok([])
    else
      var first :- ReadNodes(c, ms[0], j, Located(ms[0].path, j));
      var rest :- ReadEntries(c, ms[1..], j);
      Ok(first + rest)
  }

  /** NewMetaPodTemplate. */
  function Read(c: Codec, m: Mapping, j: Json): Outcome<PodTemplate>
  {
    var annotations :- ReadAt(c.annotations, j, Keys(m.annotations), map[]);
    var containers :- ReadEntries(c, m.containers, j);
    var volumes :- ReadAt(c.volumes, j, Keys(m.volumes), []);
    Ok(PodTemplate(annotations, containers, volumes))
  }

  /* ---- writing ---- */

  /** setAt, starting from the node at `node`: without keys, or from a null node, there is no parent to write to. */
  function SetAt(j: Json, node: Path, keys: seq<string>, x: Json): Outcome<Json>
  {
    if keys == [] then Panic
    else
      var v :- Get(j, node);
      if v == Null then Panic else Put(j, node + Keys(keys), x)
  }

  function WriteNode(c: Codec, m: ContainerMapping, j: Json, node: Path, k: Container): Outcome<Json>
  {
    var j1 :-
      if m.name.Some? && k.name.Some? then SetAt(j, node, m.name.value, c.name.enc(k.name.value)) else Ok(j);
    var j2 :- SetAt(j1, node, m.env, c.env.enc(k.env));
    SetAt(j2, node, m.volumeMounts, c.volumeMounts.enc(k.volumeMounts))
  }

  /** Takes one container for each node, and returns those that are left. Running out of them is an index out of
      range. */
  function WriteNodes(c: Codec, m: ContainerMapping, j: Json, nodes: seq<Path>, ks: seq<Container>)
    : Outcome<(Json, seq<Container>)>
    decreases |nodes|
  {
    if nodes == [] then Ok((j, ks))
    else if ks == [] then Panic
    else
      var next :- WriteNode(c, m, j, nodes[0], ks[0]);
      WriteNodes(c, m, next, nodes[1..], ks[1..])
  }

  /** Each expression is evaluated on the workload as the writes before it left it. */
  function WriteEntries(c: Codec, ms: seq<ContainerMapping>, j: Json, ks: seq<Container>)
    : Outcome<(Json, seq<Container>)>
    decreases |ms|
  {
    if ms == [] then Ok((j, ks))
    else
      var next :- WriteNodes(c, ms[0], j, Located(ms[0].path, j), ks);
      WriteEntries(c, ms[1..], next.0, next.1)
  }

  /** WriteToWorkload. */
  function Write(c: Codec, m: Mapping, j: Json, v: PodTemplate): Outcome<Json>
  {
    var j1 :- SetAt(j, [], m.annotations, c.annotations.enc(v.annotations));
    var j2 :- WriteEntries(c, m.containers, j1, v.containers);
    SetAt(j2.0, [], m.volumes, c.volumes.enc(v.volumes))
  }

  /* ---- what a mapping must satisfy ---- */

  /** The locations written in one container node, in the order of writing. */
  function KeysOf(m: ContainerMapping): seq<seq<string>>
  {
    (if m.name.Some? then [m.name.value] else []) + [m.env, m.volumeMounts]
  }

  predicate Target(ms: seq<ContainerMapping>, i: nat, a: nat)
  {
    i < |ms| && a < |KeysOf(ms[i])|
  }

  /** The expression for one written location of one entry. */
  function TargetPattern(ms: seq<ContainerMapping>, i: nat, a: nat): Pattern
    requires Target(ms, i, a)
  {
    ms[i].path + Patterns.FieldSteps(KeysOf(ms[i])[a])
  }

  /** The mapped locations do not overlap, and writing into one container node cannot make another appear. */
  ghost predicate Disjoint(m: Mapping)
  {
    var ms := m.containers;
    && m.annotations != [] && m.volumes != []
    && Apart(Patterns.FieldSteps(m.annotations), Patterns.FieldSteps(m.volumes))
    && (forall i: nat, a: nat :: Target(ms, i, a) ==>
          && KeysOf(ms[i])[a] != []
          && Apart(Patterns.FieldSteps(m.annotations), TargetPattern(ms, i, a))
          && Apart(Patterns.FieldSteps(m.volumes), TargetPattern(ms, i, a)))
    && (forall i: nat, a: nat, l: nat, b: nat ::
          Target(ms, i, a) && Target(ms, l, b) && (i < l || (i == l && a < b)) ==>
          Apart(TargetPattern(ms, i, a), TargetPattern(ms, l, b)))
    && (forall i: nat, l: nat, b: nat :: 0 <= i < |ms| && Target(ms, l, b) ==>
          ms[i].path <= ms[l].path || Apart(ms[i].path, TargetPattern(ms, l, b)))
  }

  /** If `keys` lead through the container, it is there. */
  predicate ThereBefore(m: ContainerMapping, j: Json, keys: seq<string>)
  {
    m.path <= Patterns.FieldSteps(keys) ==> Present(j, Keys(keys)[..|m.path|])
  }

  /** The containers on the way to the location at `keys` are there before it is written. */
  ghost predicate Anchored(ms: seq<ContainerMapping>, j: Json, keys: seq<string>)
  {
    forall i {:trigger ThereBefore(ms[i], j, keys)} :: 0 <= i < |ms| ==> ThereBefore(ms[i], j, keys)
  }

  /** No container lies on the way to the annotations or the volumes, so that all are anchored in any workload. */
  ghost predicate Separated(m: Mapping)
  {
    && Disjoint(m)
    && forall i :: 0 <= i < |m.containers| ==>
         && !(m.containers[i].path <= Patterns.FieldSteps(m.annotations))
         && !(m.containers[i].path <= Patterns.FieldSteps(m.volumes))
  }

  /** No matched container node is null. */
  ghost predicate SolidNodes(m: Mapping, j: Json)
  {
    forall i, p :: 0 <= i < |m.containers| && p in Located(m.containers[i].path, j) ==> Solid(j, p)
  }

  /** The workload can be read, and can be written after it has been read. */
  ghost predicate Mappable(c: Codec, m: Mapping, j: Json)
  {
    && LosslessCodec(c) && Disjoint(m) && j != Null && Read(c, m, j).Ok? && SolidNodes(m, j)
    && Anchored(m.containers, j, m.annotations) && Anchored(m.containers, j, m.volumes)
  }

  /** As many containers as the workload has, named where the mapping names them. */
  ghost predicate SameShape(v: PodTemplate, w: PodTemplate)
  {
    && |v.containers| == |w.containers|
    && forall i :: 0 <= i < |v.containers| ==> (v.containers[i].name.Some? <==> w.containers[i].name.Some?)
  }
}
