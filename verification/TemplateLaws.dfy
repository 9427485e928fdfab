/** Round trip, absorption, idempotence and commutation of projections on whole pod templates. */
module TemplateLaws {
  import opened Bindings
  import opened Names
  import opened Filtering
  import opened StableSort
  import opened Projection
  import opened EnvLaws
  import opened ContainerLaws

  /* ---- hypotheses a caller can check on the template before the call ---- */

  /** Every variable that names the binding's secret is one that unprojecting the binding removes. */
  ghost predicate Clean(b: ServiceBinding, v: PodTemplate)
  {
    forall c, e :: c in v.containers && e in c.env && RefersTo(e, SecretName(b)) ==>
      EnvOwned(b.uid, LookupSecret(v.annotations, b.uid), e)
  }

  ghost predicate RootsLiteral(v: PodTemplate)
  {
    forall c :: c in v.containers ==> RootLiteral(c.env)
  }

  /** Every container defines the root variable. */
  ghost predicate Rooted(v: PodTemplate)
  {
    forall c :: c in v.containers ==> FindRoot(c.env).Some?
  }

  ghost predicate NormalContainer(known: set<string>, c: Container)
  {
    Sorted(MountRank(), c.volumeMounts) && Sorted(EnvRank(known), c.env)
  }

  /** Every list is in canonical order. */
  ghost predicate Normal(v: PodTemplate)
  {
    && Sorted(VolumeRank(), v.volumes)
    && forall c :: c in v.containers ==> NormalContainer(KnownSecrets(v.annotations), c)
  }

  /** No container is bound by both, or no environment variable name is used by both. */
  ghost predicate OrderFree(b: ServiceBinding, d: ServiceBinding, v: PodTemplate)
  {
    NamesApart(b, d) || forall c :: c in v.containers ==> !(Bindable(b, c.name) && Bindable(d, c.name))
  }

  /** Nothing in the template stems from the binding, and nothing refers to a secret without a name. */
  ghost predicate NoTrace(uid: string, v: PodTemplate)
  {
    && SecretAnnotation(uid) !in v.annotations
    && TypeAnnotation(uid) !in v.annotations
    && ProviderAnnotation(uid) !in v.annotations
    && (forall x :: x in v.volumes ==> x.name != VolumeName(uid))
    && (forall c, m :: c in v.containers && m in c.volumeMounts ==> m.name != VolumeName(uid))
    && (forall c, e :: c in v.containers && e in c.env ==> !EnvOwned(uid, "", e))
  }

  /** What a withdrawn projection leaves: canonical order and root variables, in the containers it bound. */
  function Settle(b: ServiceBinding, v: PodTemplate): PodTemplate
  {
    PodTemplate(
      v.annotations,
      seq(|v.containers|, i requires 0 <= i < |v.containers| =>
        SettleContainer(b, KnownSecrets(v.annotations), v.containers[i])),
      Sort(VolumeRank(), v.volumes))
  }

  /** Once the binding is removed, each container that the earlier version reaches and the later one does not is in
      canonical order with a root variable. */
  ghost predicate SettledOutside(b: ServiceBinding, d: ServiceBinding, v: PodTemplate)
  {
    SecretName(b) != "" ==>
      forall c :: c in v.containers && Bindable(b, c.name) && !Bindable(d, c.name) ==>
        SettleContainer(b, KnownSecrets(v.annotations), c) == c
  }

  /* ---- facts about one step ---- */

  lemma CleanContainer(b: ServiceBinding, v: PodTemplate, c: Container)
    requires Clean(b, v) && c in v.containers
    ensures FreeOf(SecretName(b), UnprojectEnv(b.uid, LookupSecret(v.annotations, b.uid), c.env))
  {
    forall e | e in UnprojectEnv(b.uid, LookupSecret(v.annotations, b.uid), c.env)
      ensures !RefersTo(e, SecretName(b))
    {
      UnprojectedMember(b.uid, LookupSecret(v.annotations, b.uid), c.env, e);
    }
  }

  lemma UnprojectForgets(uid: string, v: PodTemplate)
    ensures LookupSecret(Unproject(uid, v).annotations, uid) == ""
    ensures ClearAnnotations(uid, Unproject(uid, v).annotations) == Unproject(uid, v).annotations
  {
    ClearThenLookup(uid, v.annotations, uid);
  }

  lemma UnprojectKeepsRoots(uid: string, v: PodTemplate)
    requires RootsLiteral(v)
    ensures RootsLiteral(Unproject(uid, v))
    ensures Rooted(v) ==> Rooted(Unproject(uid, v))
  {
    var w := Unproject(uid, v);
    forall c | c in w.containers
      ensures RootLiteral(c.env) && (Rooted(v) ==> FindRoot(c.env).Some?)
    {
      var i :| 0 <= i < |w.containers| && w.containers[i] == c;
      assert v.containers[i] in v.containers;
      FindRootUnprojected(uid, LookupSecret(v.annotations, uid), v.containers[i].env);
    }
  }

  /** The container a projection makes of the one at the same place. */
  lemma ProjectedContainerAt(b: ServiceBinding, v: PodTemplate, i: nat)
    requires SecretName(b) != "" && i < |v.containers|
    ensures |Project(b, v).containers| == |v.containers|
    ensures Project(b, v).containers[i]
         == ProjectContainer(b, KnownSecrets(ClearAnnotations(b.uid, v.annotations)) + {SecretName(b)},
                             UnprojectContainer(b.uid, LookupSecret(v.annotations, b.uid), v.containers[i]))
  {
    var a := ClearAnnotations(b.uid, v.annotations);
    KnownAfterRecord(b, a);
    ClearTwice(b.uid, v.annotations);
  }

  /* ---- round trip ---- */

  lemma FilterTwice<T>(p: T -> bool, s: seq<T>)
    ensures Filter(p, Filter(p, s)) == Filter(p, s)
  {
    forall x | x in Filter(p, s)
      ensures p(x)
    {
      FilterMember(p, s, x);
    }
    FilterAll(p, Filter(p, s));
  }

  /** Withdrawing a projection gives what unprojecting alone gives, settled. */
  lemma ProjectThenUnproject(b: ServiceBinding, v: PodTemplate)
    requires Clean(b, v)
    ensures Unproject(b.uid, Project(b, v))
         == if SecretName(b) == "" then Unproject(b.uid, v) else Settle(b, Unproject(b.uid, v))
  {
    var recorded := LookupSecret(v.annotations, b.uid);
    var p := Project(b, v);
    var u := Unproject(b.uid, v);
    var r := Unproject(b.uid, p);
    UnprojectForgets(b.uid, v);
    FilterTwice(OtherVolume(b.uid), v.volumes);
    if SecretName(b) == "" {
      forall i | 0 <= i < |v.containers|
        ensures r.containers[i] == u.containers[i]
      {
        CleanContainer(b, v, v.containers[i]);
        UnprojectUnderNewSecret(b.uid, recorded, "", v.containers[i].env);
        FilterTwice(OtherMount(b.uid), v.containers[i].volumeMounts);
      }
      assert r.containers == u.containers;
    } else {
      RecordThenLookup(b, u.annotations, b.uid);
      ClearAfterRecord(b, u.annotations);
      VolumesUnprojectOwn(b, u.volumes);
      var s := Settle(b, u);
      forall i | 0 <= i < |v.containers|
        ensures r.containers[i] == s.containers[i]
      {
        ProjectedContainerAt(b, v, i);
        CleanContainer(b, v, v.containers[i]);
        ContainerUnprojectOwn(b, recorded, KnownSecrets(u.annotations), v.containers[i]);
      }
      assert r.containers == s.containers;
    }
  }

  /** A settled template that was in canonical order is unchanged. */
  lemma SettleNormal(b: ServiceBinding, v: PodTemplate)
    requires Normal(v) && Rooted(v)
    ensures Settle(b, v) == v
  {
    SortOfSorted(VolumeRank(), v.volumes);
    forall i | 0 <= i < |v.containers|
      ensures Settle(b, v).containers[i] == v.containers[i]
    {
      var c := v.containers[i];
      assert c in v.containers;
      SortOfSorted(MountRank(), c.volumeMounts);
      SortOfSorted(EnvRank(KnownSecrets(v.annotations)), c.env);
    }
    assert Settle(b, v).containers == v.containers;
  }

  /** Unprojecting keeps canonical order. */
  lemma UnprojectNormal(uid: string, v: PodTemplate)
    requires Normal(v)
    ensures Normal(Unproject(uid, v))
  {
    var w := Unproject(uid, v);
    var secret := LookupSecret(v.annotations, uid);
    SortedFilter(VolumeRank(), OtherVolume(uid), v.volumes);
    forall c | c in w.containers
      ensures NormalContainer(KnownSecrets(w.annotations), c)
    {
      var i :| 0 <= i < |w.containers| && w.containers[i] == c;
      var o := v.containers[i];
      assert o in v.containers;
      SortedFilter(MountRank(), OtherMount(uid), o.volumeMounts);
      SortedFilter(EnvRank(KnownSecrets(v.annotations)), Kept(uid, secret), o.env);
      forall e, s | e in c.env && RefersTo(e, s)
        ensures s in KnownSecrets(v.annotations) <==> s in KnownSecrets(w.annotations)
      {
        UnprojectedMember(uid, secret, o.env, e);
        KnownAfterClear(uid, v.annotations, s);
      }
      RanksAgree(KnownSecrets(v.annotations), KnownSecrets(w.annotations), c.env);
    }
  }

  /** In canonical order and with roots in place, whatever a binding did is undone by unprojecting it. */
  lemma UnprojectErases(b: ServiceBinding, v: PodTemplate)
    requires Clean(b, v) && RootsLiteral(v) && Rooted(v) && Normal(v)
    ensures Unproject(b.uid, Project(b, v)) == Unproject(b.uid, v)
  {
    ProjectThenUnproject(b, v);
    UnprojectNormal(b.uid, v);
    UnprojectKeepsRoots(b.uid, v);
    SettleNormal(b, Unproject(b.uid, v));
  }

  lemma UnprojectNothing(uid: string, v: PodTemplate)
    requires NoTrace(uid, v)
    ensures Unproject(uid, v) == v
  {
    FilterAll(OtherVolume(uid), v.volumes);
    forall i | 0 <= i < |v.containers|
      ensures Unproject(uid, v).containers[i] == v.containers[i]
    {
      var c := v.containers[i];
      assert c in v.containers;
      FilterAll(Kept(uid, ""), c.env);
      FilterAll(OtherMount(uid), c.volumeMounts);
    }
    assert Unproject(uid, v).containers == v.containers;
    assert Unproject(uid, v).annotations == v.annotations;
  }

  /** The template is in canonical order with roots in place, and knows nothing of the binding. */
  ghost predicate Withdrawable(b: ServiceBinding, v: PodTemplate)
  {
    NoTrace(b.uid, v) && Clean(b, v) && Normal(v) && RootsLiteral(v) && Rooted(v)
  }

  /** Round trip: on a template in canonical order that knows nothing of the binding, unproject undoes project. */
  lemma RoundTrip(b: ServiceBinding, v: PodTemplate)
    requires Withdrawable(b, v)
    ensures Unproject(b.uid, Project(b, v)) == v
  {
    UnprojectErases(b, v);
    UnprojectNothing(b.uid, v);
  }

  /* ---- absorption and idempotence ---- */

  /** What adding the later version makes of a container that the earlier one has settled. */
  lemma AddOverSettled(b: ServiceBinding, d: ServiceBinding, v: PodTemplate, i: nat)
    requires b.uid == d.uid && SecretName(d) != ""
    requires Clean(d, v) && RootsLiteral(v) && i < |v.containers|
    ensures var u := Unproject(d.uid, v);
      Add(d, Settle(b, u)).containers[i] == Add(d, u).containers[i]
      <==> (Bindable(b, u.containers[i].name) && !Bindable(d, u.containers[i].name)
            ==> SettleContainer(b, KnownSecrets(u.annotations), u.containers[i]) == u.containers[i])
  {
    var u := Unproject(d.uid, v);
    UnprojectForgets(d.uid, v);
    KnownAfterRecord(d, u.annotations);
    UnprojectKeepsRoots(d.uid, v);
    assert u.containers[i] in u.containers && v.containers[i] in v.containers;
    CleanContainer(d, v, v.containers[i]);
    if Bindable(b, u.containers[i].name) ==> Bindable(d, u.containers[i].name) {
      ContainerProjectSettled(b, d, KnownSecrets(u.annotations), u.containers[i]);
    }
  }

  lemma SettledMakesNoDifference(b: ServiceBinding, d: ServiceBinding, v: PodTemplate)
    requires b.uid == d.uid && SecretName(b) != "" && SecretName(d) != "" && Clean(d, v) && RootsLiteral(v)
    ensures Add(d, Settle(b, Unproject(d.uid, v))) == Add(d, Unproject(d.uid, v))
       <==> SettledOutside(b, d, Unproject(d.uid, v))
  {
    var u := Unproject(d.uid, v);
    var x, y := Add(d, Settle(b, u)), Add(d, u);
    if SettledOutside(b, d, u) {
      SortAbsorbs(VolumeRank(), u.volumes, [BindingVolume(d)]);
      forall i | 0 <= i < |u.containers|
        ensures x.containers[i] == y.containers[i]
      {
        assert u.containers[i] in u.containers;
        AddOverSettled(b, d, v, i);
      }
      assert x.containers == y.containers;
    } else {
      var c :| c in u.containers && Bindable(b, c.name) && !Bindable(d, c.name)
               && SettleContainer(b, KnownSecrets(u.annotations), c) != c;
      var i :| 0 <= i < |u.containers| && u.containers[i] == c;
      AddOverSettled(b, d, v, i);
    }
  }

  function Mentions(secret: string): EnvVar -> bool
  {
    (e: EnvVar) => RefersTo(e, secret)
  }

  /** How many variables of a container name a secret, after a projection. */
  lemma MentionsAfterProject(b: ServiceBinding, v: PodTemplate, i: nat, secret: string)
    requires i < |v.containers|
    ensures |Project(b, v).containers| == |v.containers|
    ensures |Filter(Mentions(secret), Project(b, v).containers[i].env)|
         == |Filter(Mentions(secret), UnprojectEnv(b.uid, LookupSecret(v.annotations, b.uid), v.containers[i].env))|
            + if SecretName(b) != "" && Bindable(b, v.containers[i].name)
              then |Filter(Mentions(secret), EnvAdditions(b))| else 0
  {
    var c := UnprojectContainer(b.uid, LookupSecret(v.annotations, b.uid), v.containers[i]);
    if SecretName(b) != "" {
      var known := KnownSecrets(ClearAnnotations(b.uid, v.annotations)) + {SecretName(b)};
      ProjectedContainerAt(b, v, i);
      if Bindable(b, c.name) {
        var all := WithRoot(c.env) + EnvAdditions(b);
        FilterSort(EnvRank(known), Mentions(secret), all);
        SortPermutes(EnvRank(known), Filter(Mentions(secret), all));
        FilterAppend(Mentions(secret), WithRoot(c.env), EnvAdditions(b));
        FilterAppend(Mentions(secret), c.env, [DefaultRoot()]);
        FilterNone(Mentions(secret), [DefaultRoot()]);
      }
    }
  }

  lemma SecretAfterProject(b: ServiceBinding, v: PodTemplate)
    ensures LookupSecret(Project(b, v).annotations, b.uid) == SecretName(b)
  {
    UnprojectForgets(b.uid, v);
    RecordThenLookup(b, Unproject(b.uid, v).annotations, b.uid);
  }

  lemma ProjectKeepsNames(b: ServiceBinding, v: PodTemplate, i: nat)
    requires i < |v.containers|
    ensures |Project(b, v).containers| == |v.containers|
    ensures Project(b, v).containers[i].name == v.containers[i].name
  {
    if SecretName(b) != "" {
      ProjectedContainerAt(b, v, i);
    }
  }

  /** A variable that survives the first removal but names the first version's secret is lost on the second. */
  lemma ForeignReferenceIsLost(b: ServiceBinding, d: ServiceBinding, v: PodTemplate)
    requires b.uid == d.uid && !Clean(b, v)
    requires b == d || SecretName(b) != SecretName(d)
    ensures Project(d, Project(b, v)) != Project(d, v)
  {
    var s, recorded := SecretName(b), LookupSecret(v.annotations, b.uid);
    var c, e :| c in v.containers && e in c.env && RefersTo(e, s) && !EnvOwned(b.uid, recorded, e);
    var i :| 0 <= i < |v.containers| && v.containers[i] == c;
    var p := Project(b, v);
    UnprojectedMember(b.uid, recorded, c.env, e);
    FilterMember(Mentions(s), UnprojectEnv(b.uid, recorded, c.env), e);
    MentionsAfterProject(d, v, i, s);
    MentionsAfterProject(b, v, i, s);
    MentionsAfterProject(d, p, i, s);
    SecretAfterProject(b, v);
    var gone := UnprojectEnv(b.uid, s, p.containers[i].env);
    forall x | x in gone
      ensures !Mentions(s)(x)
    {
      UnprojectedMember(b.uid, s, p.containers[i].env, x);
    }
    FilterNone(Mentions(s), gone);
    ProjectKeepsNames(b, v, i);
  }

  /** Absorption: after a change of the same binding, projecting again gives what projecting the new version alone
      gives, exactly when no foreign variable names the secret of the version being replaced and that version has
      settled nothing that the new one does not reach. */
  lemma AbsorptionExactly(b: ServiceBinding, d: ServiceBinding, v: PodTemplate)
    requires b.uid == d.uid && SecretName(d) != "" && Clean(d, v) && RootsLiteral(v)
    ensures Project(d, Project(b, v)) == Project(d, v) <==> Clean(b, v) && SettledOutside(b, d, Unproject(d.uid, v))
  {
    if Clean(b, v) {
      ProjectThenUnproject(b, v);
      if SecretName(b) != "" {
        SettledMakesNoDifference(b, d, v);
      }
    } else {
      assert SecretName(b) != SecretName(d);
      ForeignReferenceIsLost(b, d, v);
    }
  }

  /** Projecting twice is projecting once exactly when no foreign variable names the binding's secret. */
  lemma IdempotentExactly(b: ServiceBinding, v: PodTemplate)
    requires RootsLiteral(v)
    ensures Project(b, Project(b, v)) == Project(b, v) <==> Clean(b, v)
  {
    if Clean(b, v) {
      if SecretName(b) == "" {
        ProjectThenUnproject(b, v);
      } else {
        AbsorptionExactly(b, b, v);
      }
    } else {
      ForeignReferenceIsLost(b, b, v);
    }
  }

  /* ---- commutation ---- */

  lemma UnprojectsCommuteView(u: string, w: string, v: PodTemplate)
    ensures Unproject(u, Unproject(w, v)) == Unproject(w, Unproject(u, v))
  {
    if u != w {
      ClearThenLookup(w, v.annotations, u);
      ClearThenLookup(u, v.annotations, w);
      ClearsCommute(u, w, v.annotations);
      FilterCommutes(OtherVolume(u), OtherVolume(w), v.volumes);
      var x, y := Unproject(u, Unproject(w, v)), Unproject(w, Unproject(u, v));
      forall i | 0 <= i < |v.containers|
        ensures x.containers[i] == y.containers[i]
      {
        ContainerUnprojectsCommute(u, LookupSecret(v.annotations, u), w, LookupSecret(v.annotations, w),
                                   v.containers[i]);
      }
      assert x.containers == y.containers;
    }
  }

  lemma UnprojectAddCommute(b: ServiceBinding, u: string, v: PodTemplate)
    requires u != b.uid && RootsLiteral(v)
    requires SecretName(b) != "" && LookupSecret(v.annotations, u) != SecretName(b)
    ensures Unproject(u, Add(b, v)) == Add(b, Unproject(u, v))
  {
    var secret := LookupSecret(v.annotations, u);
    var x, y := Unproject(u, Add(b, v)), Add(b, Unproject(u, v));
    var a := v.annotations;
    RecordThenLookup(b, a, u);
    RecordClearCommute(b, u, a);
    VolumesUnprojectOther(b, u, v.volumes);
    var known := KnownSecrets(RecordAnnotations(b, a));
    var fewer := KnownSecrets(RecordAnnotations(b, ClearAnnotations(u, a)));
    forall s | s != secret
      ensures s in known <==> s in fewer
    {
      KnownAfterClear(u, RecordAnnotations(b, a), s);
    }
    forall i | 0 <= i < |v.containers|
      ensures x.containers[i] == y.containers[i]
    {
      assert v.containers[i] in v.containers;
      ContainerUnprojectOther(b, u, secret, known, fewer, v.containers[i]);
    }
    assert x.containers == y.containers;
  }

  /** Withdrawing one binding and projecting another can be done in either order. */
  lemma UnprojectProjectCommute(b: ServiceBinding, u: string, v: PodTemplate)
    requires u != b.uid && RootsLiteral(v)
    requires SecretName(b) != "" ==> LookupSecret(v.annotations, u) != SecretName(b)
    ensures Unproject(u, Project(b, v)) == Project(b, Unproject(u, v))
  {
    UnprojectsCommuteView(u, b.uid, v);
    if SecretName(b) != "" {
      UnprojectKeepsRoots(b.uid, v);
      ClearThenLookup(b.uid, v.annotations, u);
      UnprojectAddCommute(b, u, Unproject(b.uid, v));
    }
  }

  lemma AddsCommute(b: ServiceBinding, d: ServiceBinding, v: PodTemplate)
    requires b.uid != d.uid && SecretName(b) != SecretName(d) && OrderFree(b, d, v)
    requires RootUnclaimed(b) && RootUnclaimed(d) && RootsLiteral(v)
    requires ClearAnnotations(b.uid, v.annotations) == v.annotations == ClearAnnotations(d.uid, v.annotations)
    requires forall c :: c in v.containers ==> FreeOf(SecretName(b), c.env) && FreeOf(SecretName(d), c.env)
    ensures Add(d, Add(b, v)) == Add(b, Add(d, v))
  {
    var x, y := Add(d, Add(b, v)), Add(b, Add(d, v));
    var a := v.annotations;
    RecordsCommute(b, d, a);
    VolumesCommute(d, b, v.volumes);
    KnownAfterRecord(b, a);
    KnownAfterRecord(d, a);
    RecordClearCommute(b, d.uid, a);
    RecordClearCommute(d, b.uid, a);
    KnownAfterRecord(d, RecordAnnotations(b, a));
    KnownAfterRecord(b, RecordAnnotations(d, a));
    var rest := KnownSecrets(a);
    assert rest + {SecretName(b)} + {SecretName(d)} == rest + {SecretName(b), SecretName(d)};
    assert rest + {SecretName(d)} + {SecretName(b)} == rest + {SecretName(b), SecretName(d)};
    forall i | 0 <= i < |v.containers|
      ensures x.containers[i] == y.containers[i]
    {
      assert v.containers[i] in v.containers;
      ContainerProjectsCommute(b, d, rest, v.containers[i]);
    }
    assert x.containers == y.containers;
  }
}
