/** The hypotheses of the theorems can be met, together: a codec, two bindings and a workload that meet them. */
module Witnesses {
  import opened Wrappers
  import opened Bindings
  import opened Names
  import opened Projection
  import opened TemplateLaws
  import opened Runs
  import opened Orders
  import opened Filtering
  import opened Integrity
  import opened Json
  import opened Patterns
  import opened Workload
  import opened LensLaws
  import WorkloadLaws

  /* ---- a codec ---- */

  function Text(): Coder<string>
  {
    Coder((s: string) => Scalar(s), (j: Json) => if j.Scalar? then Some(j.raw) else None)
  }

  /** All results, or none if one is missing. */
  function Collected<T>(os: seq<Option<T>>): Option<seq<T>>
  {
    if forall i :: 0 <= i < |os| ==> os[i].Some? then
      Some(seq(|os|, i requires 0 <= i < |os| && os[i].Some? => os[i].value))
    else None
  }

  function ListOf<T>(k: Coder<T>): Coder<seq<T>>
  {
    Coder((xs: seq<T>) => Array(seq(|xs|, i requires 0 <= i < |xs| => k.enc(xs[i]))),
          (j: Json) =>
            if j.Array? then Collected(seq(|j.items|, i requires 0 <= i < |j.items| => k.dec(j.items[i]))) else None)
  }

  lemma ListOfLossless<T(!new)>(k: Coder<T>)
    requires Lossless(k)
    ensures Lossless(ListOf(k))
  {
    forall xs
      ensures ListOf(k).dec(ListOf(k).enc(xs)) == Some(xs)
    {
      var items := ListOf(k).enc(xs).items;
      var os := seq(|items|, i requires 0 <= i < |items| => k.dec(items[i]));
      assert forall i :: 0 <= i < |os| ==> os[i] == Some(xs[i]);
      assert Collected(os).value == xs;
    }
  }

  /** A value that may be missing. */
  function Maybe<T>(k: Coder<T>): Coder<Option<T>>
  {
    Coder((o: Option<T>) => if o.None? then Array([]) else Array([k.enc(o.value)]),
          (j: Json) =>
            if !j.Array? || |j.items| > 1 then None
            else if j.items == [] then Some(None)
            else if k.dec(j.items[0]).None? then None
            else Some(k.dec(j.items[0])))
  }

  lemma MaybeLossless<T(!new)>(k: Coder<T>)
    requires Lossless(k)
    ensures Lossless(Maybe(k))
  {
    forall o
      ensures Maybe(k).dec(Maybe(k).enc(o)) == Some(o)
    {
      if o.Some? {
        assert Maybe(k).enc(o) == Array([k.enc(o.value)]);
        assert k.dec(k.enc(o.value)) == Some(o.value);
      }
    }
  }

  /** Two values side by side. */
  function Pair<S, T>(k: Coder<S>, l: Coder<T>): Coder<(S, T)>
  {
    Coder((p: (S, T)) => Array([k.enc(p.0), l.enc(p.1)]),
          (j: Json) =>
            if !j.Array? || |j.items| != 2 || k.dec(j.items[0]).None? || l.dec(j.items[1]).None? then None
            else Some((k.dec(j.items[0]).value, l.dec(j.items[1]).value)))
  }

  lemma PairLossless<S(!new), T(!new)>(k: Coder<S>, l: Coder<T>)
    requires Lossless(k) && Lossless(l)
    ensures Lossless(Pair(k, l))
  {
    forall p: (S, T)
      ensures Pair(k, l).dec(Pair(k, l).enc(p)) == Some(p)
    {
      assert Pair(k, l).enc(p) == Array([k.enc(p.0), l.enc(p.1)]);
      assert k.dec(k.enc(p.0)) == Some(p.0) && l.dec(l.enc(p.1)) == Some(p.1);
    }
  }

  /** A coder for what can be taken apart and put together again. */
  function Via<S, T>(k: Coder<S>, apart: T -> S, together: S -> Option<T>): Coder<T>
  {
    Coder((x: T) => k.enc(apart(x)), (j: Json) => if k.dec(j).None? then None else together(k.dec(j).value))
  }

  lemma ViaLossless<S(!new), T(!new)>(k: Coder<S>, apart: T -> S, together: S -> Option<T>)
    requires Lossless(k) && forall x :: together(apart(x)) == Some(x)
    ensures Lossless(Via(k, apart, together))
  {
  }

  function Annotations(): Coder<map<string, string>>
  {
    Coder((a: map<string, string>) => Object(map k | k in a :: Scalar(a[k])),
          (j: Json) =>
            if j.Object? && forall k :: k in j.fields ==> j.fields[k].Scalar? then
              Some(map k | k in j.fields && j.fields[k].Scalar? :: j.fields[k].raw)
            else None)
  }

  lemma AnnotationsLossless()
    ensures Lossless(Annotations())
  {
    forall a
      ensures Annotations().dec(Annotations().enc(a)) == Some(a)
    {
      assert Annotations().dec(Annotations().enc(a)).value == a;
    }
  }

  function Texts(): Coder<(string, string)>
  {
    Pair(Text(), Text())
  }

  lemma TextsLossless()
    ensures Lossless(Text()) && Lossless(Texts())
  {
    PairLossless(Text(), Text());
  }

  type SourceParts = ((Option<string>, Option<(string, string)>), string)

  function SourceApart(s: EnvVarSource): SourceParts
  {
    var key := if s.secretKeyRef.None? then None else Some((s.secretKeyRef.value.name, s.secretKeyRef.value.key));
    ((s.fieldPath, key), s.other)
  }

  function SourceTogether(p: SourceParts): Option<EnvVarSource>
  {
    Some(EnvVarSource(p.0.0, if p.0.1.None? then None else Some(SecretKeySelector(p.0.1.value.0, p.0.1.value.1)), p.1))
  }

  function Source(): Coder<EnvVarSource>
  {
    Via(Pair(Pair(Maybe(Text()), Maybe(Texts())), Text()), SourceApart, SourceTogether)
  }

  lemma SourceLossless()
    ensures Lossless(Source())
  {
    TextsLossless();
    MaybeLossless(Text());
    MaybeLossless(Texts());
    PairLossless(Maybe(Text()), Maybe(Texts()));
    PairLossless(Pair(Maybe(Text()), Maybe(Texts())), Text());
    ViaLossless(Pair(Pair(Maybe(Text()), Maybe(Texts())), Text()), SourceApart, SourceTogether);
  }

  type VariableParts = ((string, string), Option<EnvVarSource>)

  function VariableApart(e: EnvVar): VariableParts
  {
    ((e.name, e.value), e.valueFrom)
  }

  function VariableTogether(p: VariableParts): Option<EnvVar>
  {
    Some(EnvVar(p.0.0, p.0.1, p.1))
  }

  function Variable(): Coder<EnvVar>
  {
    Via(Pair(Texts(), Maybe(Source())), VariableApart, VariableTogether)
  }

  lemma VariableLossless()
    ensures Lossless(Variable())
  {
    TextsLossless();
    SourceLossless();
    MaybeLossless(Source());
    PairLossless(Texts(), Maybe(Source()));
    ViaLossless(Pair(Texts(), Maybe(Source())), VariableApart, VariableTogether);
  }

  type MountParts = ((string, string), (string, string))

  function MountApart(m: VolumeMount): MountParts
  {
    ((m.name, if m.readOnly then "true" else "false"), (m.mountPath, m.other))
  }

  function MountTogether(p: MountParts): Option<VolumeMount>
  {
    Some(VolumeMount(p.0.0, p.0.1 == "true", p.1.0, p.1.1))
  }

  function Mount(): Coder<VolumeMount>
  {
    Via(Pair(Texts(), Texts()), MountApart, MountTogether)
  }

  lemma MountLossless()
    ensures Lossless(Mount())
  {
    TextsLossless();
    PairLossless(Texts(), Texts());
    ViaLossless(Pair(Texts(), Texts()), MountApart, MountTogether);
  }

  type SourceItemParts = (string, (string, string))

  function ItemApart(s: VolumeProjection): SourceItemParts
  {
    match s
    case SecretProjection(secret) => ("secret", (secret, ""))
    case DownwardFile(path, fieldPath) => ("downwardAPI", (path, fieldPath))
    case OtherProjection(raw) => ("other", (raw, ""))
  }

  function ItemTogether(p: SourceItemParts): Option<VolumeProjection>
  {
    Some(if p.0 == "secret" then SecretProjection(p.1.0)
         else if p.0 == "downwardAPI" then DownwardFile(p.1.0, p.1.1)
         else OtherProjection(p.1.0))
  }

  function Item(): Coder<VolumeProjection>
  {
    Via(Pair(Text(), Texts()), ItemApart, ItemTogether)
  }

  lemma ItemsLossless()
    ensures Lossless(Maybe(ListOf(Item())))
  {
    TextsLossless();
    PairLossless(Text(), Texts());
    ViaLossless(Pair(Text(), Texts()), ItemApart, ItemTogether);
    ListOfLossless(Item());
    MaybeLossless(ListOf(Item()));
  }

  type VolumeParts = ((string, string), Option<seq<VolumeProjection>>)

  function VolumeApart(v: Volume): VolumeParts
  {
    match v.source
    case Projected(sources) => ((v.name, ""), Some(sources))
    case OtherSource(raw) => ((v.name, raw), None)
  }

  function VolumeTogether(p: VolumeParts): Option<Volume>
  {
    Some(Volume(p.0.0, if p.1.Some? then Projected(p.1.value) else OtherSource(p.0.1)))
  }

  function AVolume(): Coder<Volume>
  {
    Via(Pair(Texts(), Maybe(ListOf(Item()))), VolumeApart, VolumeTogether)
  }

  lemma VolumeIsItsParts()
    ensures forall v :: VolumeTogether(VolumeApart(v)) == Some(v)
  {
  }

  lemma VolumeLossless()
    ensures Lossless(AVolume())
  {
    TextsLossless();
    ItemsLossless();
    PairLossless(Texts(), Maybe(ListOf(Item())));
    VolumeIsItsParts();
    ViaLossless(Pair(Texts(), Maybe(ListOf(Item()))), VolumeApart, VolumeTogether);
  }

  function Marshalling(): Codec
  {
    Codec(Annotations(), Text(), ListOf(Variable()), ListOf(Mount()), ListOf(AVolume()))
  }

  lemma MarshallingLossless() returns (c: Codec)
    ensures LosslessCodec(c)
  {
    c := Marshalling();
    AnnotationsLossless();
    TextsLossless();
    VariableLossless();
    ListOfLossless(Variable());
    MountLossless();
    ListOfLossless(Mount());
    VolumeLossless();
    ListOfLossless(AVolume());
  }

  /* ---- two bindings and a pod template ---- */

  function First(): ServiceBinding
  {
    ServiceBinding("1", "db", "postgres", "", [EnvMapping("DB", "uri")], [], Some("s1"))
  }

  function Second(): ServiceBinding
  {
    ServiceBinding("2", "mq", "", "provider", [EnvMapping("MQ", "uri")], [], Some("s2"))
  }

  /** Takes the place of the first binding: another secret for the same variable. */
  function Replacement(): ServiceBinding
  {
    ServiceBinding("3", "db", "postgres", "", [EnvMapping("DB", "uri")], [], Some("s3"))
  }

  function Owners(): Tenancy
  {
    map["s1" := "1", "s2" := "2", "s3" := "3"]
  }

  function Root(): EnvVar
  {
    EnvVar(SERVICE_BINDING_ROOT, "/run/bindings", None)
  }

  function Before(): PodTemplate
  {
    PodTemplate(map[], [Container(Some("app"), [Root()], [])], [])
  }

  lemma BindingsIndependent()
    ensures AllIndependent(AsSteps([First(), Second()]), Before())
  {
    assert OrderFree(First(), Second(), Before());
  }

  lemma BindingsTogether()
    ensures Together(Owners(), [First(), Second()]) && AllIndependent(AsSteps([First(), Second()]), Before())
    ensures SecretName(First()) != "" && SecretName(Second()) != "" && SecretName(First()) != SecretName(Second())
  {
    BindingsIndependent();
  }

  /** A binding is replaced by another one that sets the same variable. */
  function Handover(): seq<Step>
  {
    [ProjectStep(First()), UnprojectStep(First()), ProjectStep(Replacement())]
  }

  lemma ReplayHandover()
    ensures Replay(Handover()) == [UnprojectStep(First()), ProjectStep(Replacement())]
  {
    var p, u, q := ProjectStep(First()), UnprojectStep(First()), ProjectStep(Replacement());
    assert Handover()[..2] == [p, u];
    FilterAll(OtherThan("3"), [p, u]);
    assert [p, u][..1] == [p];
    FilterNone(OtherThan("1"), [p]);
    assert Replay([p, u]) == [] + [u];
  }

  lemma HandoverIsIndependent()
    ensures AllRespect(Owners(), Handover()) && AllIndependent(Replay(Handover()), Before())
  {
    ReplayHandover();
  }

  /** Side by side, the binding and its replacement meet. */
  lemma ReplacementMeets()
    ensures !Independent(ProjectStep(First()), ProjectStep(Replacement()), Before())
  {
    var m := EnvMapping("DB", "uri");
    assert m in First().env && m in Replacement().env;
    assert Before().containers[0] in Before().containers;
  }

  lemma BeforeIsSettled()
    ensures Settled(Owners(), Before()) && RootsLiteral(Before()) && Pristine(Before())
  {
    var v := Before();
    assert forall c :: c in v.containers ==> c == v.containers[0];
    assert forall c, e :: c in v.containers && e in c.env ==> e == Root();
    assert FindRoot(v.containers[0].env) == Some("/run/bindings");
  }

  lemma BeforeHasNoTrace(uid: string)
    ensures NoTrace(uid, Before())
  {
    var v := Before();
    assert forall c :: c in v.containers ==> c == v.containers[0];
    assert forall c, e :: c in v.containers && e in c.env ==> e == Root();
  }

  /* ---- a workload ---- */

  function Nest(keys: seq<string>, j: Json): Json
  {
    if keys == [] then j else Object(map[keys[0] := Nest(keys[1..], j)])
  }

  lemma {:induction false} GetNested(keys: seq<string>, x: Json)
    ensures Get(Nest(keys, x), Keys(keys)) == Ok(x)
    decreases |keys|
  {
    if keys == [] {
      assert Keys(keys) == [];
    } else {
      FieldStepsTail(keys);
      GetNested(keys[1..], x);
    }
  }

  /** Where another key is taken there is nothing. */
  lemma {:induction false} GetElsewhere(keys: seq<string>, x: Json, other: seq<string>, n: nat)
    requires n < |keys| && n < |other| && keys[..n] == other[..n] && keys[n] != other[n]
    ensures Get(Nest(keys, x), Keys(other)) == Ok(Null)
    decreases n
  {
    FieldStepsTail(other);
    if n == 0 {
      NullThroughout(other[1..]);
    } else {
      assert keys[0] == keys[..n][0] == other[0];
      assert keys[1..][..n - 1] == keys[..n][1..] == other[1..][..n - 1];
      GetElsewhere(keys[1..], x, other[1..], n - 1);
    }
  }

  lemma OneItem(item: Json)
    ensures Nodes([PatternStep.All], Array([item])) == Some([[Index(0)]])
  {
    var here: seq<Path> := [[]];
    var rs := ItemNodes([], [item]);
    assert [PatternStep.All][1..] == [];
    assert rs == [Some(here)] && rs[..0] == [];
    var found := Prefix(Index(0), here);
    assert found[0] == [Index(0)] + here[0] == [Index(0)];
    assert found == [[Index(0)]];
    assert Gather(rs[..0]).value + found == found;
  }

  lemma {:induction false} NodesNested(keys: seq<string>, item: Json)
    ensures Nodes(FieldSteps(keys) + [PatternStep.All], Nest(keys, Array([item]))) == Some([Keys(keys) + [Index(0)]])
    decreases |keys|
  {
    var s := FieldSteps(keys) + [PatternStep.All];
    if keys == [] {
      assert s == [PatternStep.All] && Keys(keys) + [Index(0)] == [Index(0)];
      OneItem(item);
    } else {
      FieldStepsTail(keys);
      assert s[1..] == FieldSteps(keys[1..]) + [PatternStep.All];
      NodesNested(keys[1..], item);
      assert Keys(keys) + [Index(0)] == [Key(keys[0])] + (Keys(keys[1..]) + [Index(0)]);
      assert Prefix(Key(keys[0]), [Keys(keys[1..]) + [Index(0)]]) == [Keys(keys) + [Index(0)]];
    }
  }

  lemma {:induction false} NodesElsewhere(keys: seq<string>, x: Json, other: seq<string>, n: nat)
    requires n < |keys| && n < |other| && keys[..n] == other[..n] && keys[n] != other[n]
    ensures Nodes(FieldSteps(other) + [PatternStep.All], Nest(keys, x)) == Some([])
    decreases n
  {
    FieldStepsTail(other);
    var s := FieldSteps(other) + [PatternStep.All];
    assert s[0] == Field(other[0]) && s[1..] == FieldSteps(other[1..]) + [PatternStep.All];
    if n > 0 {
      assert keys[0] == keys[..n][0] == other[0];
      assert keys[1..][..n - 1] == keys[..n][1..] == other[1..][..n - 1];
      NodesElsewhere(keys[1..], x, other[1..], n - 1);
      assert Prefix(Key(other[0]), []) == [];
    }
  }

  function Way(): seq<string>
  {
    ["spec", "template", "spec", "containers"]
  }

  /** A workload with one container, in which nothing is set yet. */
  function Empty(): Json
  {
    Nest(Way(), Array([Object(map[])]))
  }

  lemma EmptyContainer()
    ensures Get(Empty(), Keys(Way()) + [Index(0)]) == Ok(Object(map[]))
  {
    GetNested(Way(), Array([Object(map[])]));
    GetSplit(Empty(), Keys(Way()), [Index(0)]);
    assert [Index(0)][1..] == [];
  }

  lemma EmptyNodes()
    ensures var ms := WorkloadLaws.DefaultMapping().containers;
      && Located(ms[0].path, Empty()) == []
      && Located(ms[1].path, Empty()) == [Keys(Way()) + [Index(0)]]
  {
    var ms := WorkloadLaws.DefaultMapping().containers;
    var other := ["spec", "template", "spec", "initContainers"];
    assert ms[0].path == FieldSteps(other) + [PatternStep.All] && ms[1].path == FieldSteps(Way()) + [PatternStep.All];
    assert Way()[..3] == other[..3];
    NodesElsewhere(Way(), Array([Object(map[])]), other, 3);
    NodesNested(Way(), Object(map[]));
  }

  lemma NothingInContainer(keys: seq<string>)
    requires |keys| == 1
    ensures Get(Empty(), Keys(Way()) + [Index(0)] + Keys(keys)) == Ok(Null)
  {
    EmptyContainer();
    GetSplit(Empty(), Keys(Way()) + [Index(0)], Keys(keys));
    FieldStepsTail(keys);
    assert Keys(keys[1..]) == [];
  }

  function Unset(): Container
  {
    Container(Some(""), [], [])
  }

  lemma ReadEmptyNode(c: Codec)
    ensures var m := WorkloadLaws.DefaultMapping().containers[1]; var node := Keys(Way()) + [Index(0)];
      ReadNode(c, m, Empty(), node) == Ok(Unset()) && ReadNodes(c, m, Empty(), [node]) == Ok([Unset()])
  {
    var m, node := WorkloadLaws.DefaultMapping().containers[1], Keys(Way()) + [Index(0)];
    var none: seq<Container> := [];
    NothingInContainer(["name"]);
    NothingInContainer(["env"]);
    NothingInContainer(["volumeMounts"]);
    assert [node][1..] == [];
    assert [Unset()] + none == [Unset()];
    ReadNodesStep(c, m, Empty(), [node], Unset(), none);
  }

  lemma ReadEmptyEntries(c: Codec)
    ensures ReadEntries(c, WorkloadLaws.DefaultMapping().containers, Empty()) == Ok([Unset()])
  {
    var ms := WorkloadLaws.DefaultMapping().containers;
    var none: seq<Container> := [];
    EmptyNodes();
    ReadEmptyNode(c);
    assert ms[1..][0] == ms[1] && ms[1..][1..] == [];
    assert [Unset()] + none == [Unset()] == none + [Unset()];
    ReadEntriesStep(c, ms[1..], Empty(), [Unset()], none);
    ReadEntriesStep(c, ms, Empty(), none, [Unset()]);
  }

  lemma ReadEmpty(c: Codec)
    ensures Read(c, WorkloadLaws.DefaultMapping(), Empty()) == Ok(PodTemplate(map[], [Unset()], []))
  {
    var m := WorkloadLaws.DefaultMapping();
    GetElsewhere(Way(), Array([Object(map[])]), m.annotations, 2);
    assert Way()[..3] == m.volumes[..3];
    GetElsewhere(Way(), Array([Object(map[])]), m.volumes, 3);
    ReadEmptyEntries(c);
  }

  lemma EmptyNodesSolid()
    ensures SolidNodes(WorkloadLaws.DefaultMapping(), Empty())
  {
    EmptyNodes();
    EmptyContainer();
  }

  lemma EmptyIsMappable(c: Codec)
    requires LosslessCodec(c)
    ensures Mappable(c, WorkloadLaws.DefaultMapping(), Empty())
  {
    WorkloadLaws.DefaultMappingSeparated();
    ReadEmpty(c);
    EmptyNodesSolid();
  }

  /** A workload of the default mapping that holds the pod template. */
  lemma BeforeWritten(c: Codec) returns (j: Json)
    requires LosslessCodec(c)
    ensures Mappable(c, WorkloadLaws.DefaultMapping(), j) && Read(c, WorkloadLaws.DefaultMapping(), j) == Ok(Before())
  {
    var m := WorkloadLaws.DefaultMapping();
    EmptyIsMappable(c);
    ReadEmpty(c);
    ShapeFits(c, m, Empty(), Before());
    WriteThenRead(c, m, Empty(), Before());
    j := Write(c, m, Empty(), Before()).value;
  }

  /** The binding has a secret, and the pod template meets what the round trip asks for. */
  ghost predicate Unprojected(b: ServiceBinding)
  {
    SecretName(b) != "" && Withdrawable(b, Before())
  }

  lemma NoTraceBefore(b: ServiceBinding)
    requires b == First() || b == Second()
    ensures Unprojected(b)
  {
    BindingsTogether();
    BeforeIsSettled();
    BeforeHasNoTrace(b.uid);
    assert [First(), Second()][0] == First() && [First(), Second()][1] == Second();
    AdmissibleIsClean(Owners(), b, Before());
  }

  /** All at once: a codec, the default mapping, a workload that holds a settled template without a trace of either
      binding, and the two bindings. */
  lemma HypothesesMet() returns (c: Codec, j: Json)
    ensures LosslessCodec(c) && Separated(WorkloadLaws.DefaultMapping())
    ensures Mappable(c, WorkloadLaws.DefaultMapping(), j) && Read(c, WorkloadLaws.DefaultMapping(), j) == Ok(Before())
    ensures Settled(Owners(), Before()) && RootsLiteral(Before()) && Pristine(Before())
    ensures Together(Owners(), [First(), Second()]) && Unprojected(First()) && Unprojected(Second())
    ensures AllIndependent(AsSteps([First(), Second()]), Before())
    ensures AllRespect(Owners(), Handover()) && AllIndependent(Replay(Handover()), Before())
    ensures !Independent(ProjectStep(First()), ProjectStep(Replacement()), Before())
  {
    c := MarshallingLossless();
    j := BeforeWritten(c);
    WorkloadLaws.DefaultMappingSeparated();
    BindingsTogether();
    HandoverIsIndependent();
    ReplacementMeets();
    BeforeIsSettled();
    NoTraceBefore(First());
    NoTraceBefore(Second());
  }
}
