/** Referential integrity of every state a run can reach. No assumption is made about the bindings: they may share
    secrets and environment variable names. */
module Integrity {
  import opened Bindings
  import opened Names
  import opened Filtering
  import opened Ordering
  import opened StableSort
  import opened Projection
  import opened EnvLaws
  import opened Runs

  /** The field path reads a type or provider annotation of `u` that exists. */
  predicate ReadsRecorded(a: map<string, string>, u: string, path: string)
  {
    || (path == FieldPath(TypeAnnotation(u)) && TypeAnnotation(u) in a)
    || (path == FieldPath(ProviderAnnotation(u)) && ProviderAnnotation(u) in a)
  }

  ghost predicate EnvBacked(a: map<string, string>, e: EnvVar)
  {
    e.valueFrom.Some? && e.valueFrom.value.fieldPath.Some? && FIELD_PATH_PREFIX <= e.valueFrom.value.fieldPath.value ==>
      exists u :: ReadsRecorded(a, u, e.valueFrom.value.fieldPath.value)
  }

  ghost predicate SourceBacked(a: map<string, string>, u: string, s: VolumeProjection)
  {
    match s
    case SecretProjection(secret) => SecretAnnotation(u) in a && a[SecretAnnotation(u)] == secret
    case DownwardFile(_, path) => ReadsRecorded(a, u, path)
    case OtherProjection(_) => false
  }

  ghost predicate VolumeBacked(a: map<string, string>, x: Volume)
  {
    if VOLUME_PREFIX <= x.name then
      && x.source.Projected?
      && x.source.sources != []
      && x.source.sources[0].SecretProjection?
      && forall s :: s in x.source.sources ==> SourceBacked(a, x.name[|VOLUME_PREFIX|..], s)
    else
      x.source.Projected? ==>
        forall s :: s in x.source.sources && s.DownwardFile? ==> !(FIELD_PATH_PREFIX <= s.fieldPath)
  }

  ghost predicate HasVolume(volumes: seq<Volume>, name: string)
  {
    exists x :: x in volumes && x.name == name
  }

  ghost predicate MountBacked(volumes: seq<Volume>, m: VolumeMount)
  {
    VOLUME_PREFIX <= m.name ==> HasVolume(volumes, m.name)
  }

  /** Every projected name occurs once. */
  ghost predicate ProjectedOnce(volumes: seq<Volume>)
  {
    forall i, j :: 0 <= i < j < |volumes| && VOLUME_PREFIX <= volumes[i].name ==> volumes[i].name != volumes[j].name
  }

  /** A secret annotation has its one volume, which projects that very secret; a projected mount has a volume;
      a type or provider reference in a volume or variable has its annotation. */
  ghost predicate Intact(v: PodTemplate)
  {
    && (forall u :: SecretAnnotation(u) in v.annotations ==> HasVolume(v.volumes, VolumeName(u)))
    && ProjectedOnce(v.volumes)
    && (forall x :: x in v.volumes ==> VolumeBacked(v.annotations, x))
    && (forall c, m :: c in v.containers && m in c.volumeMounts ==> MountBacked(v.volumes, m))
    && (forall c, e :: c in v.containers && e in c.env ==> EnvBacked(v.annotations, e))
  }

  /** No binding has ever been projected. */
  ghost predicate Pristine(v: PodTemplate)
  {
    && (forall k :: k in v.annotations ==> !(SECRET_ANNOTATION_PREFIX <= k))
    && (forall x :: x in v.volumes ==> !(VOLUME_PREFIX <= x.name) && VolumeBacked(map[], x))
    && (forall c, m :: c in v.containers && m in c.volumeMounts ==> !(VOLUME_PREFIX <= m.name))
    && (forall c, e :: c in v.containers && e in c.env ==> EnvBacked(map[], e))
  }

  lemma PristineIsIntact(v: PodTemplate)
    requires Pristine(v)
    ensures Intact(v)
  {
    forall u
      ensures SecretAnnotation(u) !in v.annotations
    {
      PrefixesRecognise(u);
    }
    forall i | 0 <= i < |v.volumes|
      ensures !(VOLUME_PREFIX <= v.volumes[i].name)
    {
      assert v.volumes[i] in v.volumes;
    }
    forall c, e | c in v.containers && e in c.env
      ensures EnvBacked(v.annotations, e)
    {
      assert EnvBacked(map[], e);
    }
  }

  /* ---- unproject ---- */

  lemma OwnNameSuffix(u: string)
    ensures VOLUME_PREFIX <= VolumeName(u) && VolumeName(u)[|VOLUME_PREFIX|..] == u
  {
    PrefixesRecognise(u);
  }

  lemma ReadsStayRecorded(a: map<string, string>, uid: string, u: string, path: string)
    requires ReadsRecorded(a, u, path)
    requires path != FieldPath(TypeAnnotation(uid)) && path != FieldPath(ProviderAnnotation(uid))
    ensures ReadsRecorded(ClearAnnotations(uid, a), u, path)
  {
    NamesAreDistinct(u, uid);
    NamesAreDistinct(uid, u);
  }

  lemma VolumeStaysBacked(a: map<string, string>, uid: string, x: Volume)
    requires VolumeBacked(a, x) && x.name != VolumeName(uid)
    ensures VolumeBacked(ClearAnnotations(uid, a), x)
  {
    if VOLUME_PREFIX <= x.name {
      var u := x.name[|VOLUME_PREFIX|..];
      assert x.name == VolumeName(u);
      NamesAreDistinct(u, uid);
      NamesAreDistinct(uid, u);
      FieldPathsAreDistinct(u, uid);
      FieldPathsAreDistinct(uid, u);
      forall s | s in x.source.sources
        ensures SourceBacked(ClearAnnotations(uid, a), u, s)
      {
        assert SourceBacked(a, u, s);
      }
    }
  }

  lemma EnvStaysBacked(a: map<string, string>, uid: string, secret: string, e: EnvVar)
    requires EnvBacked(a, e) && !EnvOwned(uid, secret, e)
    ensures EnvBacked(ClearAnnotations(uid, a), e)
  {
    if e.valueFrom.Some? && e.valueFrom.value.fieldPath.Some?
       && FIELD_PATH_PREFIX <= e.valueFrom.value.fieldPath.value {
      var path := e.valueFrom.value.fieldPath.value;
      var u :| ReadsRecorded(a, u, path);
      ReadsStayRecorded(a, uid, u, path);
    }
  }

  lemma VolumesAfterUnproject(uid: string, volumes: seq<Volume>, name: string)
    requires HasVolume(volumes, name) && name != VolumeName(uid)
    ensures HasVolume(Filter(OtherVolume(uid), volumes), name)
  {
    var x :| x in volumes && x.name == name;
    FilterMember(OtherVolume(uid), volumes, x);
  }

  lemma {:induction false} ProjectedOnceFiltered(uid: string, volumes: seq<Volume>)
    requires ProjectedOnce(volumes)
    ensures ProjectedOnce(Filter(OtherVolume(uid), volumes))
  {
    if volumes != [] {
      var rest := Filter(OtherVolume(uid), volumes[1..]);
      assert ProjectedOnce(volumes[1..]);
      ProjectedOnceFiltered(uid, volumes[1..]);
      forall j | 0 <= j < |rest| && VOLUME_PREFIX <= volumes[0].name
        ensures rest[j].name != volumes[0].name
      {
        FilterMember(OtherVolume(uid), volumes[1..], rest[j]);
        var m :| 0 <= m < |volumes[1..]| && volumes[1..][m] == rest[j];
        assert volumes[m + 1] == rest[j];
      }
    }
  }

  lemma UnprojectIntact(uid: string, v: PodTemplate)
    requires Intact(v)
    ensures Intact(Unproject(uid, v))
    ensures !HasVolume(Unproject(uid, v).volumes, VolumeName(uid))
  {
    var w := Unproject(uid, v);
    forall u | SecretAnnotation(u) in w.annotations
      ensures HasVolume(w.volumes, VolumeName(u))
    {
      NamesAreDistinct(u, uid);
      VolumesAfterUnproject(uid, v.volumes, VolumeName(u));
    }
    ProjectedOnceFiltered(uid, v.volumes);
    forall x | x in w.volumes
      ensures x.name != VolumeName(uid) && VolumeBacked(w.annotations, x)
    {
      FilterMember(OtherVolume(uid), v.volumes, x);
      VolumeStaysBacked(v.annotations, uid, x);
    }
    forall c, m | c in w.containers && m in c.volumeMounts
      ensures MountBacked(w.volumes, m)
    {
      var i :| 0 <= i < |w.containers| && w.containers[i] == c;
      FilterMember(OtherMount(uid), v.containers[i].volumeMounts, m);
      assert v.containers[i] in v.containers && MountBacked(v.volumes, m);
      if VOLUME_PREFIX <= m.name {
        VolumesAfterUnproject(uid, v.volumes, m.name);
      }
    }
    forall c, e | c in w.containers && e in c.env
      ensures EnvBacked(w.annotations, e)
    {
      var i :| 0 <= i < |w.containers| && w.containers[i] == c;
      UnprojectedMember(uid, LookupSecret(v.annotations, uid), v.containers[i].env, e);
      assert v.containers[i] in v.containers && EnvBacked(v.annotations, e);
      EnvStaysBacked(v.annotations, uid, LookupSecret(v.annotations, uid), e);
    }
  }

  /* ---- project ---- */

  lemma ReadsAfterRecord(b: ServiceBinding, a: map<string, string>, u: string, path: string)
    requires ReadsRecorded(a, u, path)
    ensures ReadsRecorded(RecordAnnotations(b, a), u, path)
  {
    RecordedAt(b, a, TypeAnnotation(u));
    RecordedAt(b, a, ProviderAnnotation(u));
  }

  lemma VolumeBackedAfterRecord(b: ServiceBinding, a: map<string, string>, x: Volume)
    requires VolumeBacked(a, x) && x.name != VolumeName(b.uid)
    ensures VolumeBacked(RecordAnnotations(b, a), x)
  {
    if VOLUME_PREFIX <= x.name {
      var u := x.name[|VOLUME_PREFIX|..];
      assert x.name == VolumeName(u);
      NamesAreDistinct(u, b.uid);
      forall s | s in x.source.sources
        ensures SourceBacked(RecordAnnotations(b, a), u, s)
      {
        assert SourceBacked(a, u, s);
        RecordedAt(b, a, SecretAnnotation(u));
        if s.DownwardFile? {
          ReadsAfterRecord(b, a, u, s.fieldPath);
        }
      }
    }
  }

  lemma BindingVolumeBacked(b: ServiceBinding, a: map<string, string>)
    ensures VolumeBacked(RecordAnnotations(b, a), BindingVolume(b))
  {
    OwnNameSuffix(b.uid);
    NamesAreDistinct(b.uid, b.uid);
  }

  lemma AdditionBacked(b: ServiceBinding, a: map<string, string>, e: EnvVar)
    requires e in EnvAdditions(b)
    ensures EnvBacked(RecordAnnotations(b, a), e)
  {
    NamesAreDistinct(b.uid, b.uid);
    var i :| 0 <= i < |b.env| && e == EnvFor(b, b.env[i]);
    if e.valueFrom.value.fieldPath.Some? {
      assert ReadsRecorded(RecordAnnotations(b, a), b.uid, e.valueFrom.value.fieldPath.value);
    }
  }

  lemma {:induction false} OneInClass(s: seq<Volume>, c: Rank)
    requires ProjectedOnce(s) && c.Named?
    ensures |Class(VolumeRank(), c, s)| <= 1
  {
    if s != [] {
      var p := InClass(VolumeRank(), c);
      assert ProjectedOnce(s[1..]);
      OneInClass(s[1..], c);
      if p(s[0]) {
        forall x | x in s[1..]
          ensures !p(x)
        {
          var m :| 0 <= m < |s[1..]| && s[1..][m] == x;
          assert s[m + 1] == x;
        }
        FilterNone(p, s[1..]);
      }
    }
  }

  lemma TwoInClass(s: seq<Volume>, c: Rank, i: nat, j: nat)
    requires i < j < |s| && VolumeRank()(s[i]) == c == VolumeRank()(s[j])
    ensures |Class(VolumeRank(), c, s)| >= 2
  {
    var p := InClass(VolumeRank(), c);
    assert s == s[..j] + s[j..];
    FilterAppend(p, s[..j], s[j..]);
    FilterMember(p, s[..j], s[i]);
    FilterMember(p, s[j..], s[j]);
    assert s[..j][i] == s[i] && s[j..][0] == s[j];
  }

  /** Sorting keeps names distinct, because a class holds the entries of one name. */
  lemma ProjectedOnceSorted(volumes: seq<Volume>)
    requires ProjectedOnce(volumes)
    ensures ProjectedOnce(Sort(VolumeRank(), volumes))
  {
    var r := Sort(VolumeRank(), volumes);
    SortIsStable(VolumeRank(), volumes);
    forall i, j | 0 <= i < j < |r| && VOLUME_PREFIX <= r[i].name
      ensures r[i].name != r[j].name
    {
      if r[i].name == r[j].name {
        var c := Named(r[i].name);
        TwoInClass(r, c, i, j);
        assert Class(VolumeRank(), c, r) == Class(VolumeRank(), c, volumes);
        OneInClass(volumes, c);
      }
    }
  }

  lemma VolumesAfterAdd(b: ServiceBinding, volumes: seq<Volume>, name: string)
    ensures HasVolume(Sort(VolumeRank(), volumes + [BindingVolume(b)]), name)
       <==> HasVolume(volumes, name) || name == VolumeName(b.uid)
  {
    var all := volumes + [BindingVolume(b)];
    if HasVolume(volumes, name) {
      var x :| x in volumes && x.name == name;
      SortMember(VolumeRank(), all, x);
    }
    SortMember(VolumeRank(), all, BindingVolume(b));
    if HasVolume(Sort(VolumeRank(), all), name) {
      var x :| x in Sort(VolumeRank(), all) && x.name == name;
      SortMember(VolumeRank(), all, x);
    }
  }

  lemma AddVolumesIntact(b: ServiceBinding, v: PodTemplate)
    requires Intact(v) && !HasVolume(v.volumes, VolumeName(b.uid))
    ensures ProjectedOnce(Add(b, v).volumes)
    ensures forall x :: x in Add(b, v).volumes ==> VolumeBacked(Add(b, v).annotations, x)
    ensures forall u :: SecretAnnotation(u) in Add(b, v).annotations ==> HasVolume(Add(b, v).volumes, VolumeName(u))
  {
    var w := Add(b, v);
    var all := v.volumes + [BindingVolume(b)];
    forall i | 0 <= i < |v.volumes|
      ensures v.volumes[i].name != VolumeName(b.uid)
    {
      assert v.volumes[i] in v.volumes;
    }
    assert ProjectedOnce(all);
    ProjectedOnceSorted(all);
    forall x | x in w.volumes
      ensures VolumeBacked(w.annotations, x)
    {
      SortMember(VolumeRank(), all, x);
      if x in v.volumes {
        VolumeBackedAfterRecord(b, v.annotations, x);
      } else {
        BindingVolumeBacked(b, v.annotations);
      }
    }
    forall u | SecretAnnotation(u) in w.annotations
      ensures HasVolume(w.volumes, VolumeName(u))
    {
      VolumesAfterAdd(b, v.volumes, VolumeName(u));
      NamesAreDistinct(u, b.uid);
      RecordedAt(b, v.annotations, SecretAnnotation(u));
    }
  }

  lemma AddContainersIntact(b: ServiceBinding, v: PodTemplate, c: Container)
    requires Intact(v) && c in Add(b, v).containers
    ensures forall m :: m in c.volumeMounts ==> MountBacked(Add(b, v).volumes, m)
    ensures forall e :: e in c.env ==> EnvBacked(Add(b, v).annotations, e)
  {
    var w := Add(b, v);
    var i :| 0 <= i < |w.containers| && w.containers[i] == c;
    var o := v.containers[i];
    assert o in v.containers;
    forall m | m in c.volumeMounts
      ensures MountBacked(w.volumes, m)
    {
      VolumesAfterAdd(b, v.volumes, m.name);
      if Bindable(b, o.name) {
        SortMember(MountRank(), o.volumeMounts + [BindingMount(b, RootOf(o.env))], m);
      }
      if m in o.volumeMounts {
        assert MountBacked(v.volumes, m);
      }
    }
    forall e | e in c.env
      ensures EnvBacked(w.annotations, e)
    {
      ProjectedEnvMember(b, KnownSecrets(w.annotations), o, e);
      if e in EnvAdditions(b) {
        AdditionBacked(b, v.annotations, e);
      } else if e in o.env {
        assert EnvBacked(v.annotations, e);
        if e.valueFrom.Some? && e.valueFrom.value.fieldPath.Some?
           && FIELD_PATH_PREFIX <= e.valueFrom.value.fieldPath.value {
          var u :| ReadsRecorded(v.annotations, u, e.valueFrom.value.fieldPath.value);
          ReadsAfterRecord(b, v.annotations, u, e.valueFrom.value.fieldPath.value);
        }
      }
    }
  }

  /** One step keeps the template intact. */
  lemma StepIntact(s: Step, v: PodTemplate)
    requires Intact(v)
    ensures Intact(Take(s, v))
  {
    UnprojectIntact(s.Uid(), v);
    if s.ProjectStep? && SecretName(s.binding) != "" {
      var u := Unproject(s.Uid(), v);
      AddVolumesIntact(s.binding, u);
      forall c | c in Add(s.binding, u).containers
        ensures forall m :: m in c.volumeMounts ==> MountBacked(Add(s.binding, u).volumes, m)
        ensures forall e :: e in c.env ==> EnvBacked(Add(s.binding, u).annotations, e)
      {
        AddContainersIntact(s.binding, u, c);
      }
    }
  }

  /** Every state reachable from a template no binding has touched is intact. */
  lemma {:induction false} RunsAreIntact(steps: seq<Step>, v: PodTemplate)
    requires Pristine(v)
    ensures Intact(Run(steps, v))
  {
    if steps == [] {
      PristineIsIntact(v);
    } else {
      var n := |steps| - 1;
      RunsAreIntact(steps[..n], v);
      StepIntact(steps[n], Run(steps[..n], v));
    }
  }

  /** In particular a binding's secret annotation exists exactly when its volume does, and both name one secret. */
  lemma SecretMatchesVolume(steps: seq<Step>, v: PodTemplate, u: string)
    requires Pristine(v)
    ensures var w := Run(steps, v);
      && (SecretAnnotation(u) in w.annotations <==> HasVolume(w.volumes, VolumeName(u)))
      && forall x :: x in w.volumes && x.name == VolumeName(u) ==>
           && x.source.Projected? && x.source.sources != []
           && SecretAnnotation(u) in w.annotations
           && x.source.sources[0] == SecretProjection(w.annotations[SecretAnnotation(u)])
  {
    var w := Run(steps, v);
    RunsAreIntact(steps, v);
    OwnNameSuffix(u);
    forall x | x in w.volumes && x.name == VolumeName(u)
      ensures x.source.Projected? && x.source.sources != []
      ensures SecretAnnotation(u) in w.annotations
      ensures x.source.sources[0] == SecretProjection(w.annotations[SecretAnnotation(u)])
    {
      assert VolumeBacked(w.annotations, x);
      assert x.source.sources[0] in x.source.sources;
    }
  }
}
