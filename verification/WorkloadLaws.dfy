/** The laws of projections, on whole workloads. */
module WorkloadLaws {
  import opened Wrappers
  import opened Bindings
  import opened Projection
  import opened TemplateLaws
  import opened Runs
  import opened Orders
  import opened Json
  import Patterns
  import opened Workload
  import opened WorkloadLens
  import opened LensLaws

  /** Project or Unproject on a workload: read the view, change it, write it back. */
  function TakeOn(c: Codec, m: Mapping, s: Step, j: Json): Outcome<Json>
  {
    var v :- Read(c, m, j);
    Write(c, m, j, Take(s, v))
  }

  function RunOn(c: Codec, m: Mapping, steps: seq<Step>, j: Json): Outcome<Json>
    decreases |steps|
  {
    if steps == [] then Ok(j)
    else
      var before :- RunOn(c, m, steps[..|steps| - 1], j);
      TakeOn(c, m, steps[|steps| - 1], before)
  }

  lemma RunOnStep(c: Codec, m: Mapping, steps: seq<Step>, j: Json)
    requires steps != []
    ensures RunOn(c, m, steps, j) ==
      var before :- RunOn(c, m, steps[..|steps| - 1], j);
      TakeOn(c, m, steps[|steps| - 1], before)
  {
  }

  /** A run that has failed stays failed. */
  lemma {:induction false} FailsEarly(c: Codec, m: Mapping, steps: seq<Step>, n: nat, j: Json)
    requires n <= |steps| && !RunOn(c, m, steps[..n], j).Ok?
    ensures RunOn(c, m, steps, j) == RunOn(c, m, steps[..n], j)
    decreases |steps|
  {
    if n == |steps| {
      assert steps[..n] == steps;
    } else {
      var before := steps[..|steps| - 1];
      assert before[..n] == steps[..n];
      FailsEarly(c, m, before, n, j);
      RunOnStep(c, m, steps, j);
    }
  }

  /** A run that has taken the first steps takes the next one, which may be its last. */
  lemma RunNext(c: Codec, m: Mapping, steps: seq<Step>, i: nat, j: Json, u: Json)
    requires i < |steps| && RunOn(c, m, steps[..i], j) == Ok(u)
    ensures RunOn(c, m, steps[..i + 1], j) == TakeOn(c, m, steps[i], u)
    ensures !TakeOn(c, m, steps[i], u).Ok? ==> RunOn(c, m, steps, j) == TakeOn(c, m, steps[i], u)
  {
    assert steps[..i + 1][..i] == steps[..i];
    RunOnStep(c, m, steps[..i + 1], j);
    if !TakeOn(c, m, steps[i], u).Ok? {
      FailsEarly(c, m, steps, i + 1, j);
    }
  }

  /* ---- a run keeps the shape of the view ---- */

  lemma RunShape(steps: seq<Step>, v: PodTemplate)
    ensures SameShape(v, Run(steps, v))
  {
    RunKeepsNames(steps, v);
  }

  /* ---- lifting ---- */

  lemma RunFits(c: Codec, m: Mapping, steps: seq<Step>, j: Json)
    requires Mappable(c, m, j)
    ensures Fits(m.containers, j, Run(steps, Read(c, m, j).value).containers)
  {
    RunShape(steps, Read(c, m, j).value);
    ShapeFits(c, m, j, Run(steps, Read(c, m, j).value));
  }

  /** Running steps on the workload, each of which reads and writes it, is running them on the view once read and
      writing the result once. */
  lemma {:induction false} RunLifts(c: Codec, m: Mapping, steps: seq<Step>, j: Json)
    requires Mappable(c, m, j) && steps != []
    ensures RunOn(c, m, steps, j).Ok?
    ensures RunOn(c, m, steps, j) == Write(c, m, j, Run(steps, Read(c, m, j).value))
    ensures Mappable(c, m, RunOn(c, m, steps, j).value)
    ensures Read(c, m, RunOn(c, m, steps, j).value) == Ok(Run(steps, Read(c, m, j).value))
    decreases |steps|
  {
    var v := Read(c, m, j).value;
    var before, s := steps[..|steps| - 1], steps[|steps| - 1];
    RunFits(c, m, steps, j);
    if before != [] {
      RunLifts(c, m, before, j);
      RunFits(c, m, before, j);
      WriteThenWrite(c, m, j, Run(before, v), Run(steps, v));
    } else {
      assert Run(before, v) == v;
    }
    WriteThenRead(c, m, j, Run(steps, v));
  }

  /** Different views are written as different workloads. */
  lemma WriteInjective(c: Codec, m: Mapping, j: Json, v: PodTemplate, w: PodTemplate)
    requires Mappable(c, m, j) && Fits(m.containers, j, v.containers) && Fits(m.containers, j, w.containers)
    ensures Write(c, m, j, v) == Write(c, m, j, w) <==> v == w
  {
    WriteThenRead(c, m, j, v);
    WriteThenRead(c, m, j, w);
  }

  /* ---- the laws, lifted ---- */

  /** Two runs end in the same workload exactly when they end in the same view. */
  lemma RunsAgreeOn(c: Codec, m: Mapping, a: seq<Step>, b: seq<Step>, j: Json)
    requires Mappable(c, m, j) && a != [] && b != []
    ensures RunOn(c, m, a, j) == RunOn(c, m, b, j) <==> Run(a, Read(c, m, j).value) == Run(b, Read(c, m, j).value)
  {
    RunLifts(c, m, a, j);
    RunLifts(c, m, b, j);
    RunFits(c, m, a, j);
    RunFits(c, m, b, j);
    WriteInjective(c, m, j, Run(a, Read(c, m, j).value), Run(b, Read(c, m, j).value));
  }

  /** Projecting into a workload twice is projecting once exactly when no foreign variable names the secret. */
  lemma WorkloadIdempotentExactly(c: Codec, m: Mapping, b: ServiceBinding, j: Json)
    requires Mappable(c, m, j) && RootsLiteral(Read(c, m, j).value)
    ensures RunOn(c, m, [ProjectStep(b), ProjectStep(b)], j) == RunOn(c, m, [ProjectStep(b)], j)
       <==> Clean(b, Read(c, m, j).value)
  {
    var v := Read(c, m, j).value;
    var s := ProjectStep(b);
    RunsAgreeOn(c, m, [s, s], [s], j);
    RunSnoc([], s, v);
    RunSnoc([s], s, v);
    assert [] + [s] == [s] && [s] + [s] == [s, s];
    IdempotentExactly(b, v);
  }

  lemma LastStepsPresent(steps: seq<Step>, r: seq<Step>)
    requires LastSteps(steps, r)
    ensures steps == [] <==> r == []
  {
    if r != [] {
      assert r[0] in r;
    }
    if steps != [] {
      assert LastOf(steps, steps[|steps| - 1].Uid()).Some?;
    }
  }

  lemma LastStepsAgreeOn(c: Codec, m: Mapping, steps: seq<Step>, r: seq<Step>, j: Json)
    requires Mappable(c, m, j) && LastSteps(steps, r)
    ensures RunOn(c, m, steps, j) == RunOn(c, m, r, j)
       <==> Run(steps, Read(c, m, j).value) == Run(r, Read(c, m, j).value)
  {
    LastStepsPresent(steps, r);
    if steps != [] {
      RunsAgreeOn(c, m, steps, r, j);
    }
  }

  /** Confluence of whole runs on a workload. */
  lemma WorkloadConfluence(c: Codec, m: Mapping, t: Tenancy, steps: seq<Step>, j: Json)
    requires Mappable(c, m, j) && Settled(t, Read(c, m, j).value) && AllRespect(t, steps)
    ensures (forall r :: LastSteps(steps, r) ==> RunOn(c, m, r, j) == RunOn(c, m, steps, j))
       <==> AllIndependent(Replay(steps), Read(c, m, j).value)
  {
    Confluence(t, steps, Read(c, m, j).value);
    forall r | LastSteps(steps, r)
      ensures RunOn(c, m, steps, j) == RunOn(c, m, r, j)
         <==> Run(steps, Read(c, m, j).value) == Run(r, Read(c, m, j).value)
    {
      LastStepsAgreeOn(c, m, steps, r, j);
    }
  }

  /** Which orders of the last steps end in the workload that the run ends in. */
  lemma WorkloadConfluenceExactly(c: Codec, m: Mapping, t: Tenancy, steps: seq<Step>, r: seq<Step>, j: Json)
    requires Mappable(c, m, j) && Settled(t, Read(c, m, j).value) && AllRespect(t, steps) && LastSteps(steps, r)
    ensures RunOn(c, m, steps, j) == RunOn(c, m, r, j) <==> SameOrder(Replay(steps), r, Read(c, m, j).value)
  {
    ConfluenceExactly(t, steps, r, Read(c, m, j).value);
    LastStepsAgreeOn(c, m, steps, r, j);
  }

  /** The admission webhook yields the same workload for every order of the bindings exactly when no two of them
      meet. */
  lemma WebhookIsStable(c: Codec, m: Mapping, t: Tenancy, bs: seq<ServiceBinding>, j: Json)
    requires Mappable(c, m, j) && Admissible(t, Read(c, m, j).value) && Together(t, bs)
    ensures (forall cs :: multiset(cs) == multiset(bs) ==> RunOn(c, m, AsSteps(cs), j) == RunOn(c, m, AsSteps(bs), j))
       <==> AllIndependent(AsSteps(bs), Read(c, m, j).value)
  {
    var v := Read(c, m, j).value;
    AnyOrderExactly(t, bs, v);
    forall cs | multiset(cs) == multiset(bs)
      ensures RunOn(c, m, AsSteps(cs), j) == RunOn(c, m, AsSteps(bs), j) <==> Run(AsSteps(cs), v) == Run(AsSteps(bs), v)
    {
      SameLength(bs, cs);
      if bs != [] {
        RunsAgreeOn(c, m, AsSteps(cs), AsSteps(bs), j);
      }
    }
  }

  /** Projecting once more after a run. */
  lemma AgainOn(c: Codec, m: Mapping, steps: seq<Step>, s: Step, j: Json)
    requires Mappable(c, m, j) && steps != []
    ensures RunOn(c, m, steps, j).Ok?
    ensures TakeOn(c, m, s, RunOn(c, m, steps, j).value) == RunOn(c, m, steps, j)
       <==> Take(s, Run(steps, Read(c, m, j).value)) == Run(steps, Read(c, m, j).value)
  {
    RunLifts(c, m, steps, j);
    RunSnoc(steps, s, Read(c, m, j).value);
    RunsAgreeOn(c, m, steps + [s], steps, j);
    assert (steps + [s])[..|steps|] == steps;
    RunOnStep(c, m, steps + [s], j);
  }

  /** The controller leaves what the webhook has made of a workload as it is, whichever of the bindings it projects
      once more, exactly when no two of them meet. */
  lemma ControllerIsIdle(c: Codec, m: Mapping, t: Tenancy, bs: seq<ServiceBinding>, j: Json)
    requires Mappable(c, m, j) && Admissible(t, Read(c, m, j).value) && Together(t, bs)
    ensures RunOn(c, m, AsSteps(bs), j).Ok?
    ensures (forall i :: 0 <= i < |bs| ==>
               TakeOn(c, m, AsSteps(bs)[i], RunOn(c, m, AsSteps(bs), j).value) == RunOn(c, m, AsSteps(bs), j))
       <==> AllIndependent(AsSteps(bs), Read(c, m, j).value)
  {
    var r, v := AsSteps(bs), Read(c, m, j).value;
    TogetherAsSteps(t, bs);
    if r != [] {
      RunLifts(c, m, r, j);
    }
    forall i | 0 <= i < |r|
      ensures TakeOn(c, m, r[i], RunOn(c, m, r, j).value) == RunOn(c, m, r, j)
         <==> forall k :: i < k < |r| ==> Independent(r[i], r[k], v)
    {
      AgainOn(c, m, r, r[i], j);
      AgainExactly(t, r, i, v);
    }
  }

  /** Webhook and controller never fight over a workload when no two of its bindings meet. */
  lemma NoFight(c: Codec, m: Mapping, t: Tenancy, bs: seq<ServiceBinding>, cs: seq<ServiceBinding>, b: ServiceBinding,
                j: Json)
    requires Mappable(c, m, j) && Admissible(t, Read(c, m, j).value) && Together(t, bs)
    requires AllIndependent(AsSteps(bs), Read(c, m, j).value) && multiset(bs) == multiset(cs) && b in bs
    ensures RunOn(c, m, AsSteps(bs), j).Ok?
    ensures RunOn(c, m, AsSteps(cs), j) == RunOn(c, m, AsSteps(bs), j)
    ensures TakeOn(c, m, ProjectStep(b), RunOn(c, m, AsSteps(bs), j).value) == RunOn(c, m, AsSteps(bs), j)
  {
    WebhookIsStable(c, m, t, bs, j);
    ControllerIsIdle(c, m, t, bs, j);
    var i :| 0 <= i < |bs| && bs[i] == b;
    assert AsSteps(bs)[i] == ProjectStep(b);
  }

  /** No run touches anything outside the mapped locations. */
  lemma {:induction false} RunFrame(c: Codec, m: Mapping, steps: seq<Step>, j: Json, q: Path)
    requires RunOn(c, m, steps, j).Ok? && Outside(m, q)
    ensures SameAt(RunOn(c, m, steps, j).value, j, q)
    decreases |steps|
  {
    if steps != [] {
      var n := |steps| - 1;
      RunFrame(c, m, steps[..n], j, q);
      var before := RunOn(c, m, steps[..n], j).value;
      WriteFrame(c, m, before, Take(steps[n], Read(c, m, before).value), q);
    }
  }

  /** A run that ends in the view it started from. */
  lemma RunRestores(c: Codec, m: Mapping, steps: seq<Step>, j: Json)
    requires Mappable(c, m, j) && steps != [] && Run(steps, Read(c, m, j).value) == Read(c, m, j).value
    ensures RunOn(c, m, steps, j).Ok? && RunOn(c, m, steps, j) == Write(c, m, j, Read(c, m, j).value)
    ensures Read(c, m, RunOn(c, m, steps, j).value) == Read(c, m, j)
  {
    RunLifts(c, m, steps, j);
  }

  lemma ThereAndBack(b: ServiceBinding, v: PodTemplate)
    requires Withdrawable(b, v)
    ensures Run([ProjectStep(b), UnprojectStep(b)], v) == v
  {
    var p, u := ProjectStep(b), UnprojectStep(b);
    RunSnoc([], p, v);
    RunSnoc([p], u, v);
    assert [] + [p] == [p] && [p] + [u] == [p, u];
    RoundTrip(b, v);
  }

  /** Withdrawing a binding from a workload restores the view it had before the binding was projected. */
  lemma WorkloadRoundTrip(c: Codec, m: Mapping, b: ServiceBinding, j: Json)
    requires Mappable(c, m, j) && Withdrawable(b, Read(c, m, j).value)
    ensures RunOn(c, m, [ProjectStep(b), UnprojectStep(b)], j).Ok?
    ensures RunOn(c, m, [ProjectStep(b), UnprojectStep(b)], j) == Write(c, m, j, Read(c, m, j).value)
    ensures Read(c, m, RunOn(c, m, [ProjectStep(b), UnprojectStep(b)], j).value) == Read(c, m, j)
  {
    ThereAndBack(b, Read(c, m, j).value);
    RunRestores(c, m, [ProjectStep(b), UnprojectStep(b)], j);
  }

  /** The workload itself, and not only its view, is restored exactly when its mapped locations were there and held
      what the codec makes of them. */
  lemma WorkloadRestoredExactly(c: Codec, m: Mapping, b: ServiceBinding, j: Json)
    requires Mappable(c, m, j) && Withdrawable(b, Read(c, m, j).value)
    ensures RunOn(c, m, [ProjectStep(b), UnprojectStep(b)], j) == Ok(j) <==> AsEncoded(c, m, j)
  {
    WorkloadRoundTrip(c, m, b, j);
    RewriteExactly(c, m, j);
  }

  /* ---- mappings ---- */

  /** What ClusterWorkloadResourceMappingTemplate.Default fills in for a workload with a pod template. */
  function DefaultMapping(): Mapping
  {
    var template := ["spec", "template", "spec"];
    Mapping(
      ["spec", "template", "metadata", "annotations"],
      [ContainerMapping(Patterns.FieldSteps(template + ["initContainers"]) + [Patterns.All],
                        Some(["name"]), ["env"], ["volumeMounts"]),
       ContainerMapping(Patterns.FieldSteps(template + ["containers"]) + [Patterns.All],
                        Some(["name"]), ["env"], ["volumeMounts"])],
      template + ["volumes"])
  }

  lemma {:induction false} FieldsApart(a: seq<string>, b: seq<string>, i: nat, r: Patterns.Pattern, s: Patterns.Pattern)
    requires i < |a| && i < |b| && a[..i] == b[..i] && a[i] != b[i]
    ensures Patterns.Apart(Patterns.FieldSteps(a) + r, Patterns.FieldSteps(b) + s)
    decreases i
  {
    var x, y := Patterns.FieldSteps(a) + r, Patterns.FieldSteps(b) + s;
    assert x[0] == Patterns.Field(a[0]) && y[0] == Patterns.Field(b[0]);
    if i > 0 {
      assert a[0] == a[..i][0] == b[..i][0] == b[0];
      assert a[1..][..i - 1] == a[..i][1..] == b[..i][1..] == b[1..][..i - 1];
      FieldsApart(a[1..], b[1..], i - 1, r, s);
      assert x[1..] == Patterns.FieldSteps(a[1..]) + r && y[1..] == Patterns.FieldSteps(b[1..]) + s;
    }
  }

  lemma {:induction false} ApartBelow(s: Patterns.Pattern, r: Patterns.Pattern, t: Patterns.Pattern)
    requires Patterns.Apart(r, t)
    ensures Patterns.Apart(s + r, s + t)
    decreases |s|
  {
    if s == [] {
      assert s + r == r && s + t == t;
    } else {
      assert (s + r)[0] == s[0] == (s + t)[0];
      assert (s + r)[1..] == s[1..] + r && (s + t)[1..] == s[1..] + t;
      ApartBelow(s[1..], r, t);
    }
  }

  /** How the locations of the default mapping are spelled out. */
  function DefaultContainerKeys(i: nat): seq<string>
  {
    ["spec", "template", "spec", if i == 0 then "initContainers" else "containers"]
  }

  lemma DefaultTarget(i: nat, a: nat)
    requires Target(DefaultMapping().containers, i, a)
    ensures var ms := DefaultMapping().containers;
      && KeysOf(ms[i]) == [["name"], ["env"], ["volumeMounts"]]
      && ms[i].path == Patterns.FieldSteps(DefaultContainerKeys(i)) + [Patterns.All]
      && TargetPattern(ms, i, a)
         == Patterns.FieldSteps(DefaultContainerKeys(i)) + ([Patterns.All] + Patterns.FieldSteps(KeysOf(ms[i])[a]))
  {
  }

  lemma DefaultTargetApart(i: nat, a: nat)
    requires Target(DefaultMapping().containers, i, a)
    ensures var m := DefaultMapping(); var t := TargetPattern(m.containers, i, a);
      && KeysOf(m.containers[i])[a] != []
      && Patterns.Apart(Patterns.FieldSteps(m.annotations), t)
      && Patterns.Apart(Patterns.FieldSteps(m.volumes), t)
  {
    var m := DefaultMapping();
    var keys := DefaultContainerKeys(i);
    var none: Patterns.Pattern := [];
    DefaultTarget(i, a);
    var below := [Patterns.All] + Patterns.FieldSteps(KeysOf(m.containers[i])[a]);
    assert Patterns.FieldSteps(m.annotations) + none == Patterns.FieldSteps(m.annotations);
    assert Patterns.FieldSteps(m.volumes) + none == Patterns.FieldSteps(m.volumes);
    FieldsApart(m.annotations, keys, 2, none, below);
    assert keys[..3] == m.volumes[..3];
    FieldsApart(m.volumes, keys, 3, none, below);
  }

  lemma DefaultPathApart(i: nat, l: nat, b: nat)
    requires i < |DefaultMapping().containers| && Target(DefaultMapping().containers, l, b)
    ensures var ms := DefaultMapping().containers;
      ms[i].path <= ms[l].path || Patterns.Apart(ms[i].path, TargetPattern(ms, l, b))
  {
    if i != l {
      var ms := DefaultMapping().containers;
      DefaultTarget(i, 0);
      DefaultTarget(l, b);
      assert DefaultContainerKeys(i)[..3] == DefaultContainerKeys(l)[..3];
      FieldsApart(DefaultContainerKeys(i), DefaultContainerKeys(l), 3, [Patterns.All],
                  [Patterns.All] + Patterns.FieldSteps(KeysOf(ms[l])[b]));
    }
  }

  lemma DefaultTargetsApart(i: nat, a: nat, l: nat, b: nat)
    requires var ms := DefaultMapping().containers;
      Target(ms, i, a) && Target(ms, l, b) && (i < l || (i == l && a < b))
    ensures var ms := DefaultMapping().containers; Patterns.Apart(TargetPattern(ms, i, a), TargetPattern(ms, l, b))
  {
    var ms := DefaultMapping().containers;
    var none: Patterns.Pattern := [];
    var all := [Patterns.All];
    var x, y := KeysOf(ms[i])[a], KeysOf(ms[l])[b];
    DefaultTarget(i, a);
    DefaultTarget(l, b);
    if i < l {
      assert DefaultContainerKeys(i)[..3] == DefaultContainerKeys(l)[..3];
      FieldsApart(DefaultContainerKeys(i), DefaultContainerKeys(l), 3,
                  all + Patterns.FieldSteps(x), all + Patterns.FieldSteps(y));
    } else {
      FieldsApart(x, y, 0, none, none);
      assert Patterns.FieldSteps(x) + none == Patterns.FieldSteps(x);
      assert Patterns.FieldSteps(y) + none == Patterns.FieldSteps(y);
      ApartBelow(ms[i].path, Patterns.FieldSteps(x), Patterns.FieldSteps(y));
    }
  }

  /** The default mapping meets the requirement in every workload, so the laws apply to every resource with a pod
      template. */
  lemma DefaultMappingSeparated()
    ensures Separated(DefaultMapping())
  {
    var m := DefaultMapping();
    var ms := m.containers;
    var none: Patterns.Pattern := [];
    assert Patterns.FieldSteps(m.annotations) + none == Patterns.FieldSteps(m.annotations);
    assert Patterns.FieldSteps(m.volumes) + none == Patterns.FieldSteps(m.volumes);
    FieldsApart(m.annotations, m.volumes, 2, none, none);
    forall i: nat, a: nat | Target(ms, i, a)
      ensures KeysOf(ms[i])[a] != []
      ensures Patterns.Apart(Patterns.FieldSteps(m.annotations), TargetPattern(ms, i, a))
      ensures Patterns.Apart(Patterns.FieldSteps(m.volumes), TargetPattern(ms, i, a))
    {
      DefaultTargetApart(i, a);
    }
    forall i: nat, a: nat, l: nat, b: nat | Target(ms, i, a) && Target(ms, l, b) && (i < l || (i == l && a < b))
      ensures Patterns.Apart(TargetPattern(ms, i, a), TargetPattern(ms, l, b))
    {
      DefaultTargetsApart(i, a, l, b);
    }
    forall i | 0 <= i < |ms|
      ensures !(ms[i].path <= Patterns.FieldSteps(m.annotations)) && !(ms[i].path <= Patterns.FieldSteps(m.volumes))
    {
      DefaultTarget(i, 0);
    }
    forall i: nat, l: nat, b: nat | i < |ms| && Target(ms, l, b)
      ensures ms[i].path <= ms[l].path || Patterns.Apart(ms[i].path, TargetPattern(ms, l, b))
    {
      DefaultPathApart(i, l, b);
    }
  }
}
