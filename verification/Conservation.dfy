/** What a projection keeps, what it adds and in which order it leaves the lists. */
module Conservation {
  import opened Bindings
  import opened Names
  import opened Filtering
  import opened StableSort
  import opened Projection

  /** The annotations are the old ones except for the binding's three, which say what it binds now. */
  ghost predicate AnnotationsConserved(b: ServiceBinding, before: map<string, string>, after: map<string, string>)
  {
    forall k ::
      if k == SecretAnnotation(b.uid) then k in after && after[k] == SecretName(b)
      else if k == TypeAnnotation(b.uid) then (k in after <==> b.kind != "") && (k in after ==> after[k] == b.kind)
      else if k == ProviderAnnotation(b.uid) then
        (k in after <==> b.provider != "") && (k in after ==> after[k] == b.provider)
      else (k in after <==> k in before) && (k in after ==> after[k] == before[k])
  }

  /** A container the binding does not reach only loses the binding's old entries; one it reaches gains the
      prescribed mount and variables, and the root variable if it had none. */
  ghost predicate ContainerConserved(b: ServiceBinding, recorded: string, known: set<string>, before: Container,
                                     after: Container)
  {
    var env := Filter(Kept(b.uid, recorded), before.env);
    var mounts := Filter(OtherMount(b.uid), before.volumeMounts);
    && after.name == before.name
    && if !Bindable(b, before.name) then after.env == env && after.volumeMounts == mounts
       else
         && Arranged(MountRank(), mounts, [BindingMount(b, RootOf(env))], after.volumeMounts)
         && Arranged(EnvRank(known), if FindRoot(env).Some? then env else env + [DefaultRoot()], EnvAdditions(b),
                     after.env)
  }

  ghost predicate Conserved(b: ServiceBinding, before: PodTemplate, after: PodTemplate)
  {
    && AnnotationsConserved(b, before.annotations, after.annotations)
    && Arranged(VolumeRank(), Filter(OtherVolume(b.uid), before.volumes), [BindingVolume(b)], after.volumes)
    && |after.containers| == |before.containers|
    && forall i :: 0 <= i < |before.containers| ==>
         ContainerConserved(b, LookupSecret(before.annotations, b.uid), KnownSecrets(after.annotations),
                            before.containers[i], after.containers[i])
  }

  lemma AnnotationsAfterProject(b: ServiceBinding, a: map<string, string>)
    ensures AnnotationsConserved(b, a, RecordAnnotations(b, ClearAnnotations(b.uid, a)))
  {
    NamesAreDistinct(b.uid, b.uid);
  }

  lemma SameAnnotations(b: ServiceBinding, before: map<string, string>, x: map<string, string>, y: map<string, string>)
    requires AnnotationsConserved(b, before, x) && AnnotationsConserved(b, before, y)
    ensures x == y
  {
    forall k
      ensures (k in x <==> k in y) && (k in x ==> x[k] == y[k])
    {
    }
    assert x.Keys == y.Keys;
  }

  lemma ContainerExactly(b: ServiceBinding, recorded: string, known: set<string>, c: Container, r: Container)
    ensures ContainerConserved(b, recorded, known, c, r)
       <==> r == ProjectContainer(b, known, UnprojectContainer(b.uid, recorded, c))
  {
    var u := UnprojectContainer(b.uid, recorded, c);
    ArrangedExactly(MountRank(), u.volumeMounts, [BindingMount(b, RootOf(u.env))], r.volumeMounts);
    ArrangedExactly(EnvRank(known), WithRoot(u.env), EnvAdditions(b), r.env);
  }

  /** Conservation and canonical order: projecting a binding that has a secret yields the one template that
      keeps every foreign entry, holds exactly the prescribed new ones and is in canonical order. */
  lemma ProjectConserves(b: ServiceBinding, v: PodTemplate, w: PodTemplate)
    requires SecretName(b) != ""
    ensures Conserved(b, v, w) <==> w == Project(b, v)
  {
    var p := Project(b, v);
    AnnotationsAfterProject(b, v.annotations);
    ArrangedExactly(VolumeRank(), Filter(OtherVolume(b.uid), v.volumes), [BindingVolume(b)], w.volumes);
    if AnnotationsConserved(b, v.annotations, w.annotations) {
      SameAnnotations(b, v.annotations, w.annotations, p.annotations);
      if |w.containers| == |v.containers| {
        forall i | 0 <= i < |v.containers|
          ensures ContainerConserved(b, LookupSecret(v.annotations, b.uid), KnownSecrets(w.annotations),
                                     v.containers[i], w.containers[i])
             <==> w.containers[i] == p.containers[i]
        {
          ContainerExactly(b, LookupSecret(v.annotations, b.uid), KnownSecrets(w.annotations), v.containers[i],
                           w.containers[i]);
        }
        assert w.containers == p.containers
          <==> forall i :: 0 <= i < |v.containers| ==> w.containers[i] == p.containers[i];
      }
    }
  }
}
