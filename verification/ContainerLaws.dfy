/** Laws of projecting into, and unprojecting from, one container and one volume list. */
module ContainerLaws {
  import opened Wrappers
  import opened Bindings
  import opened Names
  import opened Filtering
  import opened Ordering
  import opened StableSort
  import opened Projection
  import opened EnvLaws

  /** What a projection leaves behind once it is withdrawn: lists in canonical order and a root variable. */
  function SettleContainer(b: ServiceBinding, known: set<string>, c: Container): Container
  {
    if !Bindable(b, c.name) then c
    else Container(c.name, Sort(EnvRank(known), WithRoot(c.env)), Sort(MountRank(), c.volumeMounts))
  }

  /** The binding's own names do not clash with the root variable's. */
  ghost predicate RootUnclaimed(b: ServiceBinding)
  {
    forall m :: m in b.env ==> m.name != SERVICE_BINDING_ROOT
  }

  /** No environment variable name is used by both bindings. */
  ghost predicate NamesApart(b: ServiceBinding, d: ServiceBinding)
  {
    forall m, n :: m in b.env && n in d.env ==> m.name != n.name
  }

  /* ---- mounts and volumes ---- */

  lemma OwnRank(uid: string)
    ensures NameRank(VolumeName(uid)) == Named(VolumeName(uid))
  {
    PrefixesRecognise(uid);
  }

  lemma MountsUnprojectOwn(b: ServiceBinding, root: string, mounts: seq<VolumeMount>)
    ensures Filter(OtherMount(b.uid), ProjectMounts(b, root, mounts))
         == Sort(MountRank(), Filter(OtherMount(b.uid), mounts))
  {
    FilterSortDrops(MountRank(), OtherMount(b.uid), mounts, [BindingMount(b, root)]);
  }

  lemma MountsUnprojectOther(b: ServiceBinding, u: string, root: string, mounts: seq<VolumeMount>)
    requires u != b.uid
    ensures Filter(OtherMount(u), ProjectMounts(b, root, mounts))
         == ProjectMounts(b, root, Filter(OtherMount(u), mounts))
  {
    NamesAreDistinct(u, b.uid);
    FilterSortKeeps(MountRank(), OtherMount(u), mounts, [BindingMount(b, root)]);
  }

  lemma MountsCommute(b: ServiceBinding, r: string, d: ServiceBinding, t: string, mounts: seq<VolumeMount>)
    requires b.uid != d.uid
    ensures ProjectMounts(b, r, ProjectMounts(d, t, mounts)) == ProjectMounts(d, t, ProjectMounts(b, r, mounts))
  {
    NamesAreDistinct(b.uid, d.uid);
    OwnRank(b.uid);
    OwnRank(d.uid);
    AppendSortsCommute(MountRank(), mounts, [BindingMount(d, t)], [BindingMount(b, r)]);
  }

  lemma VolumesUnprojectOwn(b: ServiceBinding, volumes: seq<Volume>)
    ensures Filter(OtherVolume(b.uid), Sort(VolumeRank(), volumes + [BindingVolume(b)]))
         == Sort(VolumeRank(), Filter(OtherVolume(b.uid), volumes))
  {
    FilterSortDrops(VolumeRank(), OtherVolume(b.uid), volumes, [BindingVolume(b)]);
  }

  lemma VolumesUnprojectOther(b: ServiceBinding, u: string, volumes: seq<Volume>)
    requires u != b.uid
    ensures Filter(OtherVolume(u), Sort(VolumeRank(), volumes + [BindingVolume(b)]))
         == Sort(VolumeRank(), Filter(OtherVolume(u), volumes) + [BindingVolume(b)])
  {
    NamesAreDistinct(u, b.uid);
    FilterSortKeeps(VolumeRank(), OtherVolume(u), volumes, [BindingVolume(b)]);
  }

  lemma VolumesCommute(b: ServiceBinding, d: ServiceBinding, volumes: seq<Volume>)
    requires b.uid != d.uid
    ensures Sort(VolumeRank(), Sort(VolumeRank(), volumes + [BindingVolume(d)]) + [BindingVolume(b)])
         == Sort(VolumeRank(), Sort(VolumeRank(), volumes + [BindingVolume(b)]) + [BindingVolume(d)])
  {
    NamesAreDistinct(b.uid, d.uid);
    OwnRank(b.uid);
    OwnRank(d.uid);
    AppendSortsCommute(VolumeRank(), volumes, [BindingVolume(d)], [BindingVolume(b)]);
  }

  /* ---- one container ---- */

  /** Withdrawing what was just projected. `rest` are the secrets known without the binding. */
  lemma ContainerUnprojectOwn(b: ServiceBinding, recorded: string, rest: set<string>, c: Container)
    requires FreeOf(SecretName(b), UnprojectEnv(b.uid, recorded, c.env))
    ensures UnprojectContainer(b.uid, SecretName(b),
                               ProjectContainer(b, rest + {SecretName(b)}, UnprojectContainer(b.uid, recorded, c)))
         == SettleContainer(b, rest, UnprojectContainer(b.uid, recorded, c))
  {
    var w := UnprojectContainer(b.uid, recorded, c);
    var known := rest + {SecretName(b)};
    UnprojectUnderNewSecret(b.uid, recorded, SecretName(b), c.env);
    FilterCommutes(OtherMount(b.uid), OtherMount(b.uid), c.volumeMounts);
    forall m | m in w.volumeMounts
      ensures OtherMount(b.uid)(m)
    {
      FilterMember(OtherMount(b.uid), c.volumeMounts, m);
    }
    FilterAll(OtherMount(b.uid), w.volumeMounts);
    if Bindable(b, c.name) {
      UnprojectAfterProject(b, known, w.env);
      KeepsDefaultRoot(b.uid, SecretName(b), w.env);
      RanksAgree(known, rest, WithRoot(w.env));
      MountsUnprojectOwn(b, RootOf(w.env), w.volumeMounts);
    }
  }

  /** Another binding's removal passes through a projection, also though it makes one secret fewer known. */
  lemma ContainerUnprojectOther(b: ServiceBinding, u: string, secret: string, known: set<string>, fewer: set<string>,
                                c: Container)
    requires u != b.uid && secret != SecretName(b) && RootLiteral(c.env)
    requires forall s :: s != secret ==> (s in known <==> s in fewer)
    ensures UnprojectContainer(u, secret, ProjectContainer(b, known, c))
         == ProjectContainer(b, fewer, UnprojectContainer(u, secret, c))
  {
    if Bindable(b, c.name) {
      UnprojectPassesProject(b, u, secret, known, c.env);
      FindRootUnprojected(u, secret, c.env);
      MountsUnprojectOther(b, u, RootOf(c.env), c.volumeMounts);
      var env := WithRoot(UnprojectEnv(u, secret, c.env)) + EnvAdditions(b);
      forall e, s | e in env && RefersTo(e, s)
        ensures s in known <==> s in fewer
      {
        UnprojectedMember(u, secret, c.env, e);
        if e in EnvAdditions(b) {
          AdditionsShape(b, e);
        }
      }
      RanksAgree(known, fewer, env);
    }
  }

  lemma ContainerUnprojectsCommute(u: string, s: string, w: string, t: string, c: Container)
    ensures UnprojectContainer(u, s, UnprojectContainer(w, t, c))
         == UnprojectContainer(w, t, UnprojectContainer(u, s, c))
  {
    UnprojectsCommute(u, s, w, t, c.env);
    FilterCommutes(OtherMount(u), OtherMount(w), c.volumeMounts);
  }

  /** The root a container has been given is the root every later binding finds. */
  lemma ProjectEnvKeepsRoot(b: ServiceBinding, known: set<string>, env: seq<EnvVar>)
    requires RootLiteral(env) && RootUnclaimed(b)
    ensures FindRoot(ProjectEnv(b, known, WithRoot(env))) == Some(RootOf(env))
    ensures RootLiteral(ProjectEnv(b, known, WithRoot(env)))
  {
    var all := WithRoot(env) + EnvAdditions(b);
    WithRootHasRoot(env);
    forall e | e in all && e.name == SERVICE_BINDING_ROOT
      ensures e.valueFrom.None?
    {
      if e in EnvAdditions(b) {
        AdditionsShape(b, e);
      }
    }
    FindRootSorted(known, all);
    FindRootAppend(WithRoot(env), EnvAdditions(b));
    forall e | e in Sort(EnvRank(known), all)
      ensures e in all
    {
      SortMember(EnvRank(known), all, e);
    }
  }

  /** The first projection's order does not matter once the second has sorted. */
  lemma ProjectEnvTwice(b: ServiceBinding, d: ServiceBinding, known: set<string>, all: set<string>, env: seq<EnvVar>)
    requires RootLiteral(env) && RootUnclaimed(b)
    requires forall e, s :: e in env && RefersTo(e, s) ==> (s in known <==> s in all)
    requires SecretName(b) in known && SecretName(b) in all
    ensures ProjectEnv(d, all, WithRoot(ProjectEnv(b, known, WithRoot(env))))
         == Sort(EnvRank(all), Sort(EnvRank(all), WithRoot(env) + EnvAdditions(b)) + EnvAdditions(d))
  {
    ProjectEnvKeepsRoot(b, known, env);
    var both := WithRoot(env) + EnvAdditions(b);
    forall e, s | e in both && RefersTo(e, s)
      ensures s in known <==> s in all
    {
      if e in EnvAdditions(b) {
        AdditionsShape(b, e);
      }
    }
    RanksAgree(known, all, both);
  }

  lemma AdditionsApart(b: ServiceBinding, d: ServiceBinding, all: set<string>)
    requires NamesApart(b, d) && SecretName(b) in all && SecretName(d) in all
    ensures forall x, y :: x in EnvAdditions(b) && y in EnvAdditions(d) ==> EnvRank(all)(x) != EnvRank(all)(y)
  {
    forall x, y | x in EnvAdditions(b) && y in EnvAdditions(d)
      ensures EnvRank(all)(x) != EnvRank(all)(y)
    {
      AdditionsAreProjected(b, all, x);
      AdditionsAreProjected(d, all, y);
      AdditionsShape(b, x);
      AdditionsShape(d, y);
    }
  }

  /** A projection only depends on how the secrets it meets are known. */
  lemma ProjectContainerAgrees(b: ServiceBinding, known: set<string>, all: set<string>, c: Container)
    requires forall e, s :: e in c.env && RefersTo(e, s) ==> (s in known <==> s in all)
    requires SecretName(b) in known && SecretName(b) in all
    ensures ProjectContainer(b, known, c) == ProjectContainer(b, all, c)
  {
    var env := WithRoot(c.env) + EnvAdditions(b);
    forall e, s | e in env && RefersTo(e, s)
      ensures s in known <==> s in all
    {
      if e in EnvAdditions(b) {
        AdditionsShape(b, e);
      }
    }
    RanksAgree(known, all, env);
  }

  /** Two bindings can be projected into a container in either order. */
  lemma ContainerProjectsCommute(b: ServiceBinding, d: ServiceBinding, rest: set<string>, c: Container)
    requires b.uid != d.uid && SecretName(b) != SecretName(d)
    requires Bindable(b, c.name) && Bindable(d, c.name) ==> NamesApart(b, d)
    requires RootUnclaimed(b) && RootUnclaimed(d) && RootLiteral(c.env)
    requires FreeOf(SecretName(b), c.env) && FreeOf(SecretName(d), c.env)
    ensures ProjectContainer(d, rest + {SecretName(b), SecretName(d)}, ProjectContainer(b, rest + {SecretName(b)}, c))
         == ProjectContainer(b, rest + {SecretName(b), SecretName(d)}, ProjectContainer(d, rest + {SecretName(d)}, c))
  {
    var all := rest + {SecretName(b), SecretName(d)};
    if Bindable(b, c.name) && Bindable(d, c.name) {
      ProjectEnvTwice(b, d, rest + {SecretName(b)}, all, c.env);
      ProjectEnvTwice(d, b, rest + {SecretName(d)}, all, c.env);
      AdditionsApart(b, d, all);
      AppendSortsCommute(EnvRank(all), WithRoot(c.env), EnvAdditions(b), EnvAdditions(d));
      ProjectEnvKeepsRoot(b, rest + {SecretName(b)}, c.env);
      ProjectEnvKeepsRoot(d, rest + {SecretName(d)}, c.env);
      MountsCommute(b, RootOf(c.env), d, RootOf(c.env), c.volumeMounts);
    } else if Bindable(b, c.name) {
      ProjectContainerAgrees(b, rest + {SecretName(b)}, all, c);
    } else if Bindable(d, c.name) {
      ProjectContainerAgrees(d, rest + {SecretName(d)}, all, c);
    }
  }

  /** Projecting over what an earlier version settled is projecting over the original. */
  lemma ContainerProjectSettled(b: ServiceBinding, d: ServiceBinding, rest: set<string>, c: Container)
    requires RootLiteral(c.env) && FreeOf(SecretName(d), c.env)
    requires Bindable(b, c.name) ==> Bindable(d, c.name)
    ensures ProjectContainer(d, rest + {SecretName(d)}, SettleContainer(b, rest, c))
         == ProjectContainer(d, rest + {SecretName(d)}, c)
  {
    if Bindable(b, c.name) {
      var known := rest + {SecretName(d)};
      WithRootHasRoot(c.env);
      FindRootSorted(rest, WithRoot(c.env));
      RanksAgree(rest, known, WithRoot(c.env));
      SortAbsorbs(EnvRank(known), WithRoot(c.env), EnvAdditions(d));
      SortAbsorbs(MountRank(), c.volumeMounts, [BindingMount(d, RootOf(c.env))]);
    }
  }
}
