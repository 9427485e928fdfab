/** Whole runs: many bindings projected into, updated in and withdrawn from one shared pod template. */
module Runs {
  import opened Wrappers
  import opened Bindings
  import opened Names
  import opened Filtering
  import opened Ordering
  import opened StableSort
  import opened Projection
  import opened EnvLaws
  import opened ContainerLaws
  import opened TemplateLaws

  /** Which binding each secret, old or new, belongs to. */
  type Tenancy = map<string, string>

  /** A binding that projects anything does so from a secret of its own, and sets no SERVICE_BINDING_ROOT. */
  ghost predicate Respects(t: Tenancy, b: ServiceBinding)
  {
    SecretName(b) != "" ==> SecretName(b) in t && t[SecretName(b)] == b.uid && RootUnclaimed(b)
  }

  /** An annotation records a secret of its own binding. */
  ghost predicate AnnotationsAdmissible(t: Tenancy, a: map<string, string>)
  {
    forall u :: LookupSecret(a, u) != "" ==>
      LookupSecret(a, u) in t && t[LookupSecret(a, u)] == u
  }

  /** A root variable is a literal, a reference names some secret, and if the secret belongs to a binding it is
      the one recorded for it. */
  ghost predicate EnvAdmissible(t: Tenancy, a: map<string, string>, e: EnvVar)
  {
    && (e.name == SERVICE_BINDING_ROOT ==> e.valueFrom.None?)
    && forall s :: RefersTo(e, s) ==> s != "" && (s in t ==> LookupSecret(a, t[s]) == s)
  }

  /** Secrets are not shared between bindings, nor named by variables that do not stem from their binding. */
  ghost predicate Admissible(t: Tenancy, v: PodTemplate)
  {
    && "" !in t
    && AnnotationsAdmissible(t, v.annotations)
    && forall c, e :: c in v.containers && e in c.env ==> EnvAdmissible(t, v.annotations, e)
  }

  lemma AdmissibleRoots(t: Tenancy, v: PodTemplate)
    requires Admissible(t, v)
    ensures RootsLiteral(v)
  {
    forall c, e | c in v.containers && e in c.env && e.name == SERVICE_BINDING_ROOT
      ensures e.valueFrom.None?
    {
      assert EnvAdmissible(t, v.annotations, e);
    }
  }

  lemma AdmissibleIsClean(t: Tenancy, b: ServiceBinding, v: PodTemplate)
    requires Admissible(t, v) && Respects(t, b)
    ensures Clean(b, v)
  {
    forall c, e | c in v.containers && e in c.env && RefersTo(e, SecretName(b))
      ensures EnvOwned(b.uid, LookupSecret(v.annotations, b.uid), e)
    {
      assert EnvAdmissible(t, v.annotations, e);
    }
  }

  lemma SecretsApart(t: Tenancy, b: ServiceBinding, u: string, v: PodTemplate)
    requires Admissible(t, v) && Respects(t, b) && u != b.uid && SecretName(b) != ""
    ensures LookupSecret(v.annotations, u) != SecretName(b)
  {
  }

  /* ---- admissibility is kept ---- */

  lemma EnvStaysAdmissible(t: Tenancy, a: map<string, string>, r: map<string, string>, uid: string, e: EnvVar)
    requires EnvAdmissible(t, a, e)
    requires forall u :: u != uid ==> LookupSecret(r, u) == LookupSecret(a, u)
    requires LookupSecret(a, uid) == "" || !RefersTo(e, LookupSecret(a, uid))
    ensures EnvAdmissible(t, r, e)
  {
  }

  lemma UnprojectAdmissible(t: Tenancy, uid: string, v: PodTemplate)
    requires Admissible(t, v)
    ensures Admissible(t, Unproject(uid, v))
  {
    var w := Unproject(uid, v);
    var recorded := LookupSecret(v.annotations, uid);
    forall u
      ensures LookupSecret(w.annotations, u) == if u == uid then "" else LookupSecret(v.annotations, u)
    {
      ClearThenLookup(uid, v.annotations, u);
    }
    forall c, e | c in w.containers && e in c.env
      ensures EnvAdmissible(t, w.annotations, e)
    {
      var i :| 0 <= i < |w.containers| && w.containers[i] == c;
      assert v.containers[i] in v.containers;
      UnprojectedMember(uid, recorded, v.containers[i].env, e);
      EnvStaysAdmissible(t, v.annotations, w.annotations, uid, e);
    }
  }

  /** Where the variables of a projected container come from. */
  lemma ProjectedEnvMember(b: ServiceBinding, known: set<string>, c: Container, e: EnvVar)
    requires e in ProjectContainer(b, known, c).env
    ensures e in c.env || e == DefaultRoot() || e in EnvAdditions(b)
  {
    if Bindable(b, c.name) {
      SortMember(EnvRank(known), WithRoot(c.env) + EnvAdditions(b), e);
    }
  }

  lemma AddedEnvAdmissible(t: Tenancy, b: ServiceBinding, a: map<string, string>, e: EnvVar)
    requires Respects(t, b) && SecretName(b) != "" && LookupSecret(a, b.uid) == SecretName(b)
    requires e in EnvAdditions(b)
    ensures EnvAdmissible(t, a, e)
  {
    AdditionsShape(b, e);
  }

  lemma AddAdmissible(t: Tenancy, b: ServiceBinding, v: PodTemplate)
    requires Admissible(t, v) && Respects(t, b) && SecretName(b) != "" && LookupSecret(v.annotations, b.uid) == ""
    ensures Admissible(t, Add(b, v))
  {
    var w := Add(b, v);
    forall u
      ensures LookupSecret(w.annotations, u) == if u == b.uid then SecretName(b) else LookupSecret(v.annotations, u)
    {
      RecordThenLookup(b, v.annotations, u);
    }
    forall c, e | c in w.containers && e in c.env
      ensures EnvAdmissible(t, w.annotations, e)
    {
      var i :| 0 <= i < |w.containers| && w.containers[i] == c;
      var o := v.containers[i];
      assert o in v.containers;
      ProjectedEnvMember(b, KnownSecrets(w.annotations), o, e);
      if e in o.env {
        EnvStaysAdmissible(t, v.annotations, w.annotations, b.uid, e);
      } else if e in EnvAdditions(b) {
        AddedEnvAdmissible(t, b, w.annotations, e);
      }
    }
  }

  lemma ProjectAdmissible(t: Tenancy, b: ServiceBinding, v: PodTemplate)
    requires Admissible(t, v) && Respects(t, b)
    ensures Admissible(t, Project(b, v))
  {
    UnprojectAdmissible(t, b.uid, v);
    UnprojectForgets(b.uid, v);
    if SecretName(b) != "" {
      AddAdmissible(t, b, Unproject(b.uid, v));
    }
  }

  /** Projecting two bindings is adding both to what is left without them. */
  lemma BothAdded(t: Tenancy, b: ServiceBinding, d: ServiceBinding, v: PodTemplate)
    requires Admissible(t, v) && Respects(t, b) && Respects(t, d) && b.uid != d.uid
    requires SecretName(b) != "" && SecretName(d) != ""
    ensures Project(d, Project(b, v)) == Add(d, Add(b, Unproject(b.uid, Unproject(d.uid, v))))
  {
    AdmissibleRoots(t, v);
    SecretsApart(t, b, d.uid, v);
    UnprojectProjectCommute(b, d.uid, v);
  }

  /** Once a binding is unprojected, no variable names its secret. */
  lemma FreeAfterUnproject(t: Tenancy, b: ServiceBinding, v: PodTemplate)
    requires Admissible(t, v) && Respects(t, b)
    ensures forall c :: c in Unproject(b.uid, v).containers ==> FreeOf(SecretName(b), c.env)
  {
    AdmissibleIsClean(t, b, v);
    var w := Unproject(b.uid, v);
    forall c | c in w.containers
      ensures FreeOf(SecretName(b), c.env)
    {
      var i :| 0 <= i < |w.containers| && w.containers[i] == c;
      CleanContainer(b, v, v.containers[i]);
    }
  }

  lemma BothCleared(t: Tenancy, b: ServiceBinding, d: ServiceBinding, v: PodTemplate)
    requires Admissible(t, v) && Respects(t, b) && Respects(t, d)
    ensures var w := Unproject(b.uid, Unproject(d.uid, v));
      && Admissible(t, w) && RootsLiteral(w)
      && ClearAnnotations(b.uid, w.annotations) == w.annotations == ClearAnnotations(d.uid, w.annotations)
      && forall c :: c in w.containers ==> FreeOf(SecretName(b), c.env) && FreeOf(SecretName(d), c.env)
  {
    var u := Unproject(d.uid, v);
    var w := Unproject(b.uid, u);
    UnprojectAdmissible(t, d.uid, v);
    UnprojectAdmissible(t, b.uid, u);
    UnprojectAdmissible(t, b.uid, v);
    UnprojectsCommuteView(b.uid, d.uid, v);
    UnprojectForgets(b.uid, u);
    UnprojectForgets(d.uid, Unproject(b.uid, v));
    AdmissibleRoots(t, w);
    FreeAfterUnproject(t, b, u);
    FreeAfterUnproject(t, d, Unproject(b.uid, v));
  }

  lemma CommuteOnCleared(t: Tenancy, b: ServiceBinding, d: ServiceBinding, v: PodTemplate)
    requires Admissible(t, v) && Respects(t, b) && Respects(t, d) && b.uid != d.uid
    requires SecretName(b) != "" && SecretName(d) != "" && OrderFree(b, d, v)
    ensures var w := Unproject(b.uid, Unproject(d.uid, v)); Add(d, Add(b, w)) == Add(b, Add(d, w))
  {
    var w := Unproject(b.uid, Unproject(d.uid, v));
    BothCleared(t, b, d, v);
    forall c | c in w.containers
      ensures exists o :: o in v.containers && o.name == c.name
    {
      var i :| 0 <= i < |w.containers| && w.containers[i] == c;
      assert v.containers[i] in v.containers;
    }
    assert OrderFree(b, d, w);
    AddsCommute(b, d, w);
  }

  /** Different bindings can be projected in either order. */
  lemma ProjectsCommute(t: Tenancy, b: ServiceBinding, d: ServiceBinding, v: PodTemplate)
    requires Admissible(t, v) && Respects(t, b) && Respects(t, d) && b.uid != d.uid
    requires SecretName(b) != "" && SecretName(d) != "" ==> OrderFree(b, d, v)
    ensures Project(d, Project(b, v)) == Project(b, Project(d, v))
  {
    AdmissibleRoots(t, v);
    if SecretName(b) == "" {
      if SecretName(d) != "" { SecretsApart(t, d, b.uid, v); }
      UnprojectProjectCommute(d, b.uid, v);
    } else {
      SecretsApart(t, b, d.uid, v);
      UnprojectProjectCommute(b, d.uid, v);
      if SecretName(d) != "" {
        BothAdded(t, b, d, v);
        BothAdded(t, d, b, v);
        UnprojectsCommuteView(b.uid, d.uid, v);
        CommuteOnCleared(t, b, d, v);
      }
    }
  }

  /* ---- runs ---- */

  datatype Step = ProjectStep(binding: ServiceBinding) | UnprojectStep(binding: ServiceBinding) {
    function Uid(): string
    {
      binding.uid
    }
  }

  function Take(s: Step, v: PodTemplate): PodTemplate
  {
    match s
    case ProjectStep(b) => Project(b, v)
    case UnprojectStep(b) => Unproject(b.uid, v)
  }

  /** Withdrawing a binding is projecting it with no secret to bind. */
  function Effect(s: Step): ServiceBinding
  {
    match s
    case ProjectStep(b) => b
    case UnprojectStep(b) => b.(secretRef := None)
  }

  ghost predicate StepRespects(t: Tenancy, s: Step)
  {
    Respects(t, Effect(s))
  }

  function Run(steps: seq<Step>, v: PodTemplate): PodTemplate
  {
    if steps == [] then v
    else Take(steps[|steps| - 1], Run(steps[..|steps| - 1], v))
  }

  /** The run that projects all of the bindings. */
  function AsSteps(bs: seq<ServiceBinding>): seq<Step>
  {
    seq(|bs|, i requires 0 <= i < |bs| => ProjectStep(bs[i]))
  }

  ghost predicate AllRespect(t: Tenancy, steps: seq<Step>)
  {
    forall i :: 0 <= i < |steps| ==> StepRespects(t, steps[i])
  }

  /** Canonical order and roots everywhere: what the confluence of whole runs starts from. */
  ghost predicate Settled(t: Tenancy, v: PodTemplate)
  {
    Admissible(t, v) && Normal(v) && Rooted(v)
  }

  lemma {:induction false} RunAdmissible(t: Tenancy, steps: seq<Step>, v: PodTemplate)
    requires Admissible(t, v) && AllRespect(t, steps)
    ensures Admissible(t, Run(steps, v))
  {
    if steps != [] {
      var n := |steps| - 1;
      RunAdmissible(t, steps[..n], v);
      ProjectAdmissible(t, Effect(steps[n]), Run(steps[..n], v));
    }
  }

  /** A projection keeps canonical order, also in the containers it does not bind. */
  lemma ProjectNormal(b: ServiceBinding, v: PodTemplate)
    requires Normal(v) && Clean(b, v)
    ensures Normal(Project(b, v))
  {
    UnprojectNormal(b.uid, v);
    if SecretName(b) != "" {
      var u := Unproject(b.uid, v);
      var w := Project(b, v);
      SortIsSorted(VolumeRank(), u.volumes + [BindingVolume(b)]);
      KnownAfterRecord(b, u.annotations);
      UnprojectForgets(b.uid, v);
      forall c | c in w.containers
        ensures NormalContainer(KnownSecrets(w.annotations), c)
      {
        var i :| 0 <= i < |w.containers| && w.containers[i] == c;
        ProjectedContainerAt(b, v, i);
        assert u.containers[i] in u.containers;
        if Bindable(b, u.containers[i].name) {
          SortIsSorted(EnvRank(KnownSecrets(w.annotations)), WithRoot(u.containers[i].env) + EnvAdditions(b));
          SortIsSorted(MountRank(), u.containers[i].volumeMounts + [BindingMount(b, RootOf(u.containers[i].env))]);
        } else {
          CleanContainer(b, v, v.containers[i]);
          RanksAgree(KnownSecrets(u.annotations), KnownSecrets(w.annotations), c.env);
        }
      }
    }
  }

  lemma ProjectRooted(b: ServiceBinding, v: PodTemplate)
    requires RootsLiteral(v) && Rooted(v) && (SecretName(b) != "" ==> RootUnclaimed(b))
    ensures Rooted(Project(b, v))
  {
    UnprojectKeepsRoots(b.uid, v);
    if SecretName(b) != "" {
      var u := Unproject(b.uid, v);
      var w := Project(b, v);
      forall c | c in w.containers
        ensures FindRoot(c.env).Some?
      {
        var i :| 0 <= i < |w.containers| && w.containers[i] == c;
        assert u.containers[i] in u.containers;
        ProjectEnvKeepsRoot(b, KnownSecrets(w.annotations), u.containers[i].env);
      }
    }
  }

  lemma ProjectSettledInvariant(t: Tenancy, b: ServiceBinding, v: PodTemplate)
    requires Settled(t, v) && Respects(t, b)
    ensures Settled(t, Project(b, v))
  {
    AdmissibleRoots(t, v);
    AdmissibleIsClean(t, b, v);
    ProjectAdmissible(t, b, v);
    ProjectNormal(b, v);
    ProjectRooted(b, v);
  }

  /** Every state of a run is in canonical order when the first one is. */
  lemma {:induction false} RunSettled(t: Tenancy, steps: seq<Step>, v: PodTemplate)
    requires Settled(t, v) && AllRespect(t, steps)
    ensures Settled(t, Run(steps, v))
  {
    if steps != [] {
      var n := |steps| - 1;
      RunSettled(t, steps[..n], v);
      ProjectSettledInvariant(t, Effect(steps[n]), Run(steps[..n], v));
    }
  }

  lemma RunSnoc(steps: seq<Step>, s: Step, v: PodTemplate)
    ensures Run(steps + [s], v) == Take(s, Run(steps, v))
  {
    assert (steps + [s])[..|steps|] == steps;
  }

  /** No run renames, adds or removes a container. */
  lemma {:induction false} RunKeepsNames(steps: seq<Step>, v: PodTemplate)
    ensures |Run(steps, v).containers| == |v.containers|
    ensures forall i :: 0 <= i < |v.containers| ==> Run(steps, v).containers[i].name == v.containers[i].name
  {
    if steps != [] {
      var n := |steps| - 1;
      var w := Run(steps[..n], v);
      RunKeepsNames(steps[..n], v);
      forall i | 0 <= i < |v.containers|
        ensures |Take(steps[n], w).containers| == |v.containers|
        ensures Take(steps[n], w).containers[i].name == v.containers[i].name
      {
        ProjectKeepsNames(Effect(steps[n]), w, i);
      }
      if v.containers == [] {
        assert Take(steps[n], w).containers == [];
      }
    }
  }

  /** Two steps that do not meet: one of them adds nothing, or they share no container or no variable name. */
  ghost predicate Independent(x: Step, y: Step, v: PodTemplate)
  {
    SecretName(Effect(x)) != "" && SecretName(Effect(y)) != "" ==> OrderFree(Effect(x), Effect(y), v)
  }

  lemma StillIndependent(x: Step, y: Step, steps: seq<Step>, v: PodTemplate)
    requires Independent(x, y, v)
    ensures Independent(x, y, Run(steps, v))
  {
    var w := Run(steps, v);
    RunKeepsNames(steps, v);
    forall c | c in w.containers
      ensures exists o :: o in v.containers && o.name == c.name
    {
      var i :| 0 <= i < |w.containers| && w.containers[i] == c;
      assert v.containers[i] in v.containers;
    }
  }

  /** A step may be postponed past steps of other bindings that it does not meet. */
  lemma {:induction false} Postpone(t: Tenancy, a: seq<Step>, x: Step, b: seq<Step>, v: PodTemplate)
    requires Admissible(t, v) && AllRespect(t, a) && StepRespects(t, x) && AllRespect(t, b)
    requires forall i :: 0 <= i < |b| ==> b[i].Uid() != x.Uid() && Independent(x, b[i], v)
    ensures Run(a + [x] + b, v) == Take(x, Run(a + b, v))
  {
    if b == [] {
      assert a + [x] + b == a + [x] && a + b == a;
      RunSnoc(a, x, v);
    } else {
      var n := |b| - 1;
      var y := b[n];
      assert a + [x] + b == (a + [x] + b[..n]) + [y];
      assert a + b == (a + b[..n]) + [y];
      RunSnoc(a + [x] + b[..n], y, v);
      RunSnoc(a + b[..n], y, v);
      Postpone(t, a, x, b[..n], v);
      RunAdmissible(t, a + b[..n], v);
      StillIndependent(x, y, a + b[..n], v);
      ProjectsCommute(t, Effect(x), Effect(y), Run(a + b[..n], v));
    }
  }

  /* ---- confluence ---- */

  /** The last step a run takes for a binding. */
  function LastOf(steps: seq<Step>, uid: string): Option<Step>
  {
    if steps == [] then None
    else if steps[|steps| - 1].Uid() == uid then Some(steps[|steps| - 1])
    else LastOf(steps[..|steps| - 1], uid)
  }

  ghost predicate DistinctUids(steps: seq<Step>)
  {
    forall i, j :: 0 <= i < j < |steps| ==> steps[i].Uid() != steps[j].Uid()
  }

  /** `r` lists, in some order, exactly each binding's last step. */
  ghost predicate LastSteps(steps: seq<Step>, r: seq<Step>)
  {
    && DistinctUids(r)
    && (forall s :: s in r ==> LastOf(steps, s.Uid()) == Some(s))
    && (forall u :: LastOf(steps, u).Some? ==> LastOf(steps, u).value in r)
  }

  function OtherThan(uid: string): Step -> bool
  {
    (s: Step) => s.Uid() != uid
  }

  lemma {:induction false} LastOfOthers(steps: seq<Step>, uid: string, w: string)
    ensures LastOf(Filter(OtherThan(uid), steps), w) == if w == uid then None else LastOf(steps, w)
  {
    if steps != [] {
      var n := |steps| - 1;
      var f := Filter(OtherThan(uid), steps[..n]);
      assert steps == steps[..n] + [steps[n]];
      FilterAppend(OtherThan(uid), steps[..n], [steps[n]]);
      LastOfOthers(steps[..n], uid, w);
      if steps[n].Uid() != uid {
        assert Filter(OtherThan(uid), [steps[n]]) == [steps[n]] by { FilterAll(OtherThan(uid), [steps[n]]); }
        assert (f + [steps[n]])[..|f|] == f;
      } else {
        FilterNone(OtherThan(uid), [steps[n]]);
        assert f + [] == f;
      }
    }
  }

  /** Unprojecting a binding at the end of a run erases every step the run took for it. */
  lemma {:induction false} UnprojectErasesSteps(t: Tenancy, uid: string, steps: seq<Step>, v: PodTemplate)
    requires Settled(t, v) && AllRespect(t, steps)
    ensures Unproject(uid, Run(steps, v)) == Run(Filter(OtherThan(uid), steps), Unproject(uid, v))
  {
    if steps != [] {
      var n := |steps| - 1;
      var y := steps[n];
      var w := Run(steps[..n], v);
      var f := Filter(OtherThan(uid), steps[..n]);
      assert steps == steps[..n] + [y];
      FilterAppend(OtherThan(uid), steps[..n], [y]);
      UnprojectErasesSteps(t, uid, steps[..n], v);
      RunSettled(t, steps[..n], v);
      if y.Uid() == uid {
        FilterNone(OtherThan(uid), [y]);
        assert f + [] == f;
        AdmissibleIsClean(t, Effect(y), w);
        AdmissibleRoots(t, w);
        UnprojectErases(Effect(y), w);
      } else {
        FilterAll(OtherThan(uid), [y]);
        RunSnoc(f, y, Unproject(uid, v));
        if SecretName(Effect(y)) != "" {
          SecretsApart(t, Effect(y), uid, w);
        }
        AdmissibleRoots(t, w);
        UnprojectProjectCommute(Effect(y), uid, w);
      }
    }
  }

  /** What a step makes of a template depends only on what is left when its binding is unprojected. */
  lemma TakeAfterErase(s: Step, v: PodTemplate, w: PodTemplate)
    requires Unproject(s.Uid(), v) == Unproject(s.Uid(), w)
    ensures Take(s, v) == Take(s, w)
  {
  }

  lemma {:induction false} FilterShortens<T>(p: T -> bool, s: seq<T>)
    ensures |Filter(p, s)| <= |s|
  {
    if s != [] {
      FilterShortens(p, s[1..]);
    }
  }

  lemma OthersRespect(t: Tenancy, steps: seq<Step>, uid: string)
    requires AllRespect(t, steps)
    ensures AllRespect(t, Filter(OtherThan(uid), steps)) && |Filter(OtherThan(uid), steps)| <= |steps|
  {
    var f := Filter(OtherThan(uid), steps);
    FilterShortens(OtherThan(uid), steps);
    forall i | 0 <= i < |f|
      ensures StepRespects(t, f[i])
    {
      FilterMember(OtherThan(uid), steps, f[i]);
    }
  }

  lemma SkipEarlierSteps(t: Tenancy, steps: seq<Step>, x: Step, v: PodTemplate)
    requires Settled(t, v) && AllRespect(t, steps)
    ensures Take(x, Run(steps, v)) == Take(x, Run(Filter(OtherThan(x.Uid()), steps), v))
  {
    var u := x.Uid();
    var f := Filter(OtherThan(u), steps);
    OthersRespect(t, steps, u);
    FilterTwice(OtherThan(u), steps);
    UnprojectErasesSteps(t, u, steps, v);
    UnprojectErasesSteps(t, u, f, v);
    TakeAfterErase(x, Run(steps, v), Run(f, v));
  }

  lemma {:induction false} LastOfHasUid(steps: seq<Step>, u: string)
    ensures LastOf(steps, u).Some? ==> LastOf(steps, u).value in steps && LastOf(steps, u).value.Uid() == u
  {
    if steps != [] && steps[|steps| - 1].Uid() != u {
      LastOfHasUid(steps[..|steps| - 1], u);
    }
  }

  /** Each binding's last step, in the order in which a run takes them. */
  function Replay(steps: seq<Step>): seq<Step>
    decreases |steps|
  {
    if steps == [] then []
    else
      var x, before := steps[|steps| - 1], steps[..|steps| - 1];
      FilterShortens(OtherThan(x.Uid()), before);
      Replay(Filter(OtherThan(x.Uid()), before)) + [x]
  }

  lemma {:induction false} ReplayIsLast(steps: seq<Step>)
    ensures LastSteps(steps, Replay(steps))
    decreases |steps|
  {
    if steps != [] {
      var x, before := steps[|steps| - 1], steps[..|steps| - 1];
      var f := Filter(OtherThan(x.Uid()), before);
      var q := Replay(f);
      FilterShortens(OtherThan(x.Uid()), before);
      ReplayIsLast(f);
      forall s | s in q
        ensures s.Uid() != x.Uid() && LastOf(before, s.Uid()) == Some(s)
      {
        LastOfOthers(before, x.Uid(), s.Uid());
      }
      forall u | LastOf(steps, u).Some?
        ensures LastOf(steps, u).value in q + [x]
      {
        LastOfOthers(before, x.Uid(), u);
      }
      assert forall k :: 0 <= k < |q| ==> q[k] in q;
    }
  }

  /** A run of any length ends where taking each binding's last step alone ends. */
  lemma {:induction false} RunIsReplay(t: Tenancy, steps: seq<Step>, v: PodTemplate)
    requires Settled(t, v) && AllRespect(t, steps)
    ensures Run(steps, v) == Run(Replay(steps), v)
    decreases |steps|
  {
    if steps != [] {
      var x, before := steps[|steps| - 1], steps[..|steps| - 1];
      var f := Filter(OtherThan(x.Uid()), before);
      assert AllRespect(t, before);
      OthersRespect(t, before, x.Uid());
      SkipEarlierSteps(t, before, x, v);
      RunIsReplay(t, f, v);
      RunSnoc(Replay(f), x, v);
    }
  }
}
