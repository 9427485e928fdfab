/** What no run of projections and removals touches: the entries that are not the projector's stay, in their order. */
module Untouched {
  import opened Wrappers
  import opened Bindings
  import opened Names
  import opened Filtering
  import opened Ordering
  import opened StableSort
  import opened Projection
  import opened EnvLaws
  import opened TemplateLaws
  import opened Runs

  /* ---- what is not the projector's ---- */

  /** The variable names none of these secrets, and reads no annotation of the projector's. */
  predicate Foreign(secrets: set<string>, e: EnvVar)
  {
    e.valueFrom.Some? ==>
      && (e.valueFrom.value.secretKeyRef.Some? ==> e.valueFrom.value.secretKeyRef.value.name !in secrets)
      && (e.valueFrom.value.fieldPath.Some? ==>
            !("metadata.annotations['projector.servicebinding.io" <= e.valueFrom.value.fieldPath.value))
  }

  function ForeignEnv(secrets: set<string>): EnvVar -> bool
  {
    (e: EnvVar) => Foreign(secrets, e)
  }

  function ForeignMount(): VolumeMount -> bool
  {
    (m: VolumeMount) => !("servicebinding-" <= m.name)
  }

  function ForeignVolume(): Volume -> bool
  {
    (x: Volume) => !("servicebinding-" <= x.name)
  }

  /** Secrets that the annotations record are among these; so is "", the name a missing record reads as. */
  ghost predicate Covers(secrets: set<string>, annotations: map<string, string>)
  {
    && "" in secrets
    && forall k :: k in annotations && "projector.servicebinding.io/secret-" <= k ==> annotations[k] in secrets
  }

  /** The foreign variables are the same, but for a root variable appended where there was none. */
  ghost predicate SameButRoot(before: seq<EnvVar>, after: seq<EnvVar>)
  {
    || after == before
    || ((forall e :: e in before ==> e.name != "SERVICE_BINDING_ROOT")
        && after == before + [EnvVar("SERVICE_BINDING_ROOT", "/bindings", None)])
  }

  ghost predicate SameContainer(secrets: set<string>, c: Container, d: Container)
  {
    && d.name == c.name
    && Filter(ForeignMount(), d.volumeMounts) == Filter(ForeignMount(), c.volumeMounts)
    && SameButRoot(Filter(ForeignEnv(secrets), c.env), Filter(ForeignEnv(secrets), d.env))
  }

  ghost predicate SameAnnotations(a: map<string, string>, b: map<string, string>)
  {
    forall k :: !("projector.servicebinding.io/" <= k) ==> (k in a <==> k in b) && (k in a ==> a[k] == b[k])
  }

  /** Everything that is not the projector's is the same in both templates, and in the same order. */
  ghost predicate Same(secrets: set<string>, v: PodTemplate, w: PodTemplate)
  {
    && SameAnnotations(v.annotations, w.annotations)
    && Filter(ForeignVolume(), w.volumes) == Filter(ForeignVolume(), v.volumes)
    && |w.containers| == |v.containers|
    && forall i :: 0 <= i < |v.containers| ==> SameContainer(secrets, v.containers[i], w.containers[i])
  }

  lemma SameTwice(secrets: set<string>, v: PodTemplate, w: PodTemplate, x: PodTemplate)
    requires Same(secrets, v, w) && Same(secrets, w, x)
    ensures Same(secrets, v, x)
  {
    forall i | 0 <= i < |v.containers|
      ensures SameContainer(secrets, v.containers[i], x.containers[i])
    {
      var c, d := v.containers[i], w.containers[i];
      var before, after := Filter(ForeignEnv(secrets), c.env), Filter(ForeignEnv(secrets), d.env);
      assert SameContainer(secrets, c, d) && SameContainer(secrets, d, x.containers[i]);
      if after != before {
        assert after[|before|] in after;
      }
    }
  }

  /* ---- removing ---- */

  lemma ForeignIsKept(uid: string, annotations: map<string, string>, secrets: set<string>, e: EnvVar)
    requires Covers(secrets, annotations) && Foreign(secrets, e)
    ensures Kept(uid, LookupSecret(annotations, uid))(e)
  {
    PrefixesRecognise(uid);
    PrefixesSpelled();
    FieldPathPrefixSpelled();
  }

  lemma ForeignThrough<T>(p: T -> bool, kept: T -> bool, s: seq<T>)
    requires forall x :: x in s && p(x) ==> kept(x)
    ensures Filter(p, Filter(kept, s)) == Filter(p, s)
  {
    FilterCommutes(p, kept, s);
    forall x | x in Filter(p, s)
      ensures kept(x)
    {
      FilterMember(p, s, x);
    }
    FilterAll(kept, Filter(p, s));
  }

  lemma UnprojectedEnvSame(uid: string, annotations: map<string, string>, secrets: set<string>, env: seq<EnvVar>)
    requires Covers(secrets, annotations)
    ensures Filter(ForeignEnv(secrets), UnprojectEnv(uid, LookupSecret(annotations, uid), env))
         == Filter(ForeignEnv(secrets), env)
  {
    forall e | e in env && ForeignEnv(secrets)(e)
      ensures Kept(uid, LookupSecret(annotations, uid))(e)
    {
      ForeignIsKept(uid, annotations, secrets, e);
    }
    ForeignThrough(ForeignEnv(secrets), Kept(uid, LookupSecret(annotations, uid)), env);
  }

  lemma OwnAnnotations(uid: string)
    ensures "projector.servicebinding.io/" <= SecretAnnotation(uid)
    ensures "projector.servicebinding.io/" <= TypeAnnotation(uid)
    ensures "projector.servicebinding.io/" <= ProviderAnnotation(uid)
  {
    assert SecretAnnotation(uid) == "projector.servicebinding.io/" + ("secret-" + uid);
    assert TypeAnnotation(uid) == "projector.servicebinding.io/" + ("type-" + uid);
    assert ProviderAnnotation(uid) == "projector.servicebinding.io/" + ("provider-" + uid);
  }

  lemma ClearedAnnotationsSame(uid: string, a: map<string, string>)
    ensures SameAnnotations(a, ClearAnnotations(uid, a))
  {
    OwnAnnotations(uid);
  }

  lemma UnprojectTouchesNothing(uid: string, secrets: set<string>, v: PodTemplate)
    requires Covers(secrets, v.annotations)
    ensures Same(secrets, v, Unproject(uid, v)) && Covers(secrets, Unproject(uid, v).annotations)
  {
    PrefixesRecognise(uid);
    ClearedAnnotationsSame(uid, v.annotations);
    ForeignThrough(ForeignVolume(), OtherVolume(uid), v.volumes);
    forall i | 0 <= i < |v.containers|
      ensures SameContainer(secrets, v.containers[i], Unproject(uid, v).containers[i])
    {
      ForeignThrough(ForeignMount(), OtherMount(uid), v.containers[i].volumeMounts);
      UnprojectedEnvSame(uid, v.annotations, secrets, v.containers[i].env);
    }
  }

  /* ---- adding ---- */

  lemma AdditionsAreOwn(b: ServiceBinding, secrets: set<string>)
    requires SecretName(b) in secrets
    ensures Filter(ForeignEnv(secrets), EnvAdditions(b)) == []
  {
    PrefixesRecognise(b.uid);
    FieldPathPrefixSpelled();
    forall e | e in EnvAdditions(b)
      ensures !Foreign(secrets, e)
    {
      var i :| 0 <= i < |b.env| && e == EnvFor(b, b.env[i]);
    }
    FilterNone(ForeignEnv(secrets), EnvAdditions(b));
  }

  lemma ForeignIsPlain(known: set<string>, secrets: set<string>, e: EnvVar)
    requires known <= secrets && Foreign(secrets, e)
    ensures EnvRank(known)(e) == Plain
  {
    FieldPathPrefixSpelled();
  }

  lemma WithRootSame(secrets: set<string>, env: seq<EnvVar>)
    ensures SameButRoot(Filter(ForeignEnv(secrets), env), Filter(ForeignEnv(secrets), WithRoot(env)))
  {
    var before := Filter(ForeignEnv(secrets), env);
    if FindRoot(env).None? {
      FilterAppend(ForeignEnv(secrets), env, [DefaultRoot()]);
      FilterAll(ForeignEnv(secrets), [DefaultRoot()]);
      FindRootFilters(env);
      forall e | e in before
        ensures e.name != "SERVICE_BINDING_ROOT"
      {
        FilterMember(ForeignEnv(secrets), env, e);
        FilterMember(NamedRoot(), env, e);
      }
    }
  }

  lemma ProjectedEnvSame(b: ServiceBinding, known: set<string>, secrets: set<string>, env: seq<EnvVar>)
    requires known <= secrets && SecretName(b) in secrets
    ensures SameButRoot(Filter(ForeignEnv(secrets), env),
                        Filter(ForeignEnv(secrets), ProjectEnv(b, known, WithRoot(env))))
  {
    var p, all := ForeignEnv(secrets), WithRoot(env) + EnvAdditions(b);
    forall e | e in all && p(e)
      ensures EnvRank(known)(e) == Plain
    {
      ForeignIsPlain(known, secrets, e);
    }
    OneRankSorted(EnvRank(known), p, all, Plain);
    FilterAppend(p, WithRoot(env), EnvAdditions(b));
    AdditionsAreOwn(b, secrets);
    assert Filter(p, WithRoot(env)) + [] == Filter(p, WithRoot(env));
    WithRootSame(secrets, env);
  }

  /** Appending one of the projector's own entries and sorting leaves the foreign ones where they are. */
  lemma OwnEntrySame<T(!new)>(k: T -> Rank, p: T -> bool, s: seq<T>, x: T)
    requires !p(x) && forall y :: p(y) ==> k(y) == Plain
    ensures Filter(p, Sort(k, s + [x])) == Filter(p, s)
  {
    OneRankSorted(k, p, s + [x], Plain);
    FilterAppend(p, s, [x]);
    FilterNone(p, [x]);
    assert Filter(p, s) + [] == Filter(p, s);
  }

  lemma AddedContainerSame(b: ServiceBinding, known: set<string>, secrets: set<string>, c: Container)
    requires known <= secrets && SecretName(b) in secrets
    ensures SameContainer(secrets, c, ProjectContainer(b, known, c))
  {
    if Bindable(b, c.name) {
      PrefixesRecognise(b.uid);
      ProjectedEnvSame(b, known, secrets, c.env);
      OwnEntrySame(MountRank(), ForeignMount(), c.volumeMounts, BindingMount(b, RootOf(c.env)));
    }
  }

  lemma RecordedIsCovered(b: ServiceBinding, secrets: set<string>, a: map<string, string>)
    requires Covers(secrets, a) && SecretName(b) in secrets
    ensures Covers(secrets, RecordAnnotations(b, a)) && KnownSecrets(RecordAnnotations(b, a)) <= secrets
    ensures SameAnnotations(a, RecordAnnotations(b, a))
  {
    PrefixesRecognise(b.uid);
    OwnAnnotations(b.uid);
    PrefixesSpelled();
  }

  lemma AddTouchesNothing(b: ServiceBinding, secrets: set<string>, v: PodTemplate)
    requires Covers(secrets, v.annotations) && SecretName(b) in secrets
    ensures Same(secrets, v, Add(b, v)) && Covers(secrets, Add(b, v).annotations)
  {
    PrefixesRecognise(b.uid);
    RecordedIsCovered(b, secrets, v.annotations);
    OwnEntrySame(VolumeRank(), ForeignVolume(), v.volumes, BindingVolume(b));
    forall i | 0 <= i < |v.containers|
      ensures SameContainer(secrets, v.containers[i], Add(b, v).containers[i])
    {
      AddedContainerSame(b, KnownSecrets(RecordAnnotations(b, v.annotations)), secrets, v.containers[i]);
    }
  }

  /* ---- runs ---- */

  /** One step, whatever binding it is for and whatever the template holds. */
  lemma StepTouchesNothing(s: Step, secrets: set<string>, v: PodTemplate)
    requires Covers(secrets, v.annotations) && SecretName(Effect(s)) in secrets
    ensures Same(secrets, v, Take(s, v)) && Covers(secrets, Take(s, v).annotations)
  {
    var u := Unproject(s.Uid(), v);
    UnprojectTouchesNothing(s.Uid(), secrets, v);
    if SecretName(Effect(s)) != "" {
      AddTouchesNothing(s.binding, secrets, u);
      SameTwice(secrets, v, u, Take(s, v));
    }
  }

  /** No run removes, changes or reorders what is not the projector's. All it adds is a root variable. */
  lemma {:induction false} RunTouchesNothing(steps: seq<Step>, secrets: set<string>, v: PodTemplate)
    requires Covers(secrets, v.annotations)
    requires forall s :: s in steps ==> SecretName(Effect(s)) in secrets
    ensures Same(secrets, v, Run(steps, v)) && Covers(secrets, Run(steps, v).annotations)
  {
    if steps != [] {
      var n := |steps| - 1;
      assert forall s :: s in steps[..n] ==> s in steps;
      assert steps[n] in steps;
      RunTouchesNothing(steps[..n], secrets, v);
      StepTouchesNothing(steps[n], secrets, Run(steps[..n], v));
      SameTwice(secrets, v, Run(steps[..n], v), Run(steps, v));
    }
  }
}
