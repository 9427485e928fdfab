/** The projector as it runs: loops that rebuild lists, sorts, and writes to an annotation map shared by all steps.
    Each method is proved against the function of the same name in Projection. */
module Projector {
  import opened Wrappers
  import opened Bindings
  import opened Names
  import opened Filtering
  import opened StableSort
  import Spec = Projection
  import EnvLaws

  class MetaContainer {
    var name: Option<string>
    var env: seq<EnvVar>
    var volumeMounts: seq<VolumeMount>

    constructor (name: Option<string>, env: seq<EnvVar>, volumeMounts: seq<VolumeMount>)
      ensures Value() == Container(name, env, volumeMounts)
    {
      this.name, this.env, this.volumeMounts := name, env, volumeMounts;
    }

    function Value(): Container
      reads this
    {
      Container(name, env, volumeMounts)
    }
  }

  /** The values of a list of containers. */
  function Values(cs: seq<MetaContainer>): (r: seq<Container>)
    reads cs
    ensures |r| == |cs|
    ensures forall i :: 0 <= i < |cs| ==> r[i] == cs[i].Value()
  {
    if cs == [] then [] else [cs[0].Value()] + Values(cs[1..])
  }

  class MetaPodTemplate {
    var annotations: map<string, string>
    var containers: seq<MetaContainer>
    var volumes: seq<Volume>

    constructor ()
      ensures annotations == map[] && containers == [] && volumes == []
    {
      annotations, containers, volumes := map[], [], [];
    }

    /** No two entries are the same container. */
    ghost predicate Valid()
      reads this
    {
      forall i, j :: 0 <= i < j < |containers| ==> containers[i] != containers[j]
    }

    function Value(): PodTemplate
      reads this, containers
    {
      PodTemplate(annotations, Values(containers), volumes)
    }
  }

  class ServiceBindingProjector {

    /* ---- annotations ---- */

    static method SecretAnnotation(b: ServiceBinding, mpt: MetaPodTemplate) returns (secret: string)
      modifies mpt`annotations
      ensures secret == Spec.SecretName(b)
      ensures mpt.annotations == if secret == "" then old(mpt.annotations)
                                 else old(mpt.annotations)[Names.SecretAnnotation(b.uid) := secret]
    {
      secret := Spec.SecretName(b);
      if secret != "" {
        mpt.annotations := mpt.annotations[Names.SecretAnnotation(b.uid) := secret];
      }
    }

    static method TypeAnnotation(b: ServiceBinding, mpt: MetaPodTemplate) returns (key: string)
      modifies mpt`annotations
      ensures key == Names.TypeAnnotation(b.uid)
      ensures mpt.annotations == old(mpt.annotations)[key := b.kind]
    {
      key := Names.TypeAnnotation(b.uid);
      mpt.annotations := mpt.annotations[key := b.kind];
    }

    static method ProviderAnnotation(b: ServiceBinding, mpt: MetaPodTemplate) returns (key: string)
      modifies mpt`annotations
      ensures key == Names.ProviderAnnotation(b.uid)
      ensures mpt.annotations == old(mpt.annotations)[key := b.provider]
    {
      key := Names.ProviderAnnotation(b.uid);
      mpt.annotations := mpt.annotations[key := b.provider];
    }

    /** Visits the annotations in whatever order the map yields them. */
    static method KnownProjectedSecrets(mpt: MetaPodTemplate) returns (secrets: set<string>)
      ensures secrets == Spec.KnownSecrets(mpt.annotations)
    {
      secrets := {};
      var todo := mpt.annotations.Keys;
      while todo != {}
        invariant todo <= mpt.annotations.Keys
        invariant secrets ==
          set k | k in mpt.annotations.Keys - todo && SECRET_ANNOTATION_PREFIX <= k :: mpt.annotations[k]
        decreases todo
      {
        var key :| key in todo;
        ghost var done := mpt.annotations.Keys - todo;
        todo := todo - {key};
        assert mpt.annotations.Keys - todo == done + {key};
        if SECRET_ANNOTATION_PREFIX <= key {
          secrets := secrets + {mpt.annotations[key]};
        }
      }
    }

    /* ---- volumes ---- */

    static lemma RecordTwice(b: ServiceBinding, a: map<string, string>)
      ensures Spec.RecordAnnotations(b, Spec.RecordAnnotations(b, a)) == Spec.RecordAnnotations(b, a)
    {
      NamesAreDistinct(b.uid, b.uid);
    }

    static method ProjectVolume(b: ServiceBinding, mpt: MetaPodTemplate)
      requires Spec.SecretName(b) != ""
      modifies mpt`annotations, mpt`volumes
      ensures mpt.annotations == Spec.RecordAnnotations(b, old(mpt.annotations))
      ensures mpt.volumes == Sort(Spec.VolumeRank(), old(mpt.volumes) + [Spec.BindingVolume(b)])
      ensures Spec.RecordAnnotations(b, mpt.annotations) == mpt.annotations
    {
      RecordTwice(b, mpt.annotations);
      var secret := SecretAnnotation(b, mpt);
      var sources := [SecretProjection(secret)];
      if b.kind != "" {
        var key := TypeAnnotation(b, mpt);
        sources := sources + [DownwardFile("type", FieldPath(key))];
      }
      if b.provider != "" {
        var key := ProviderAnnotation(b, mpt);
        sources := sources + [DownwardFile("provider", FieldPath(key))];
      }
      assert sources == Spec.BindingVolume(b).source.sources;
      mpt.volumes := mpt.volumes + [Volume(VolumeName(b.uid), Projected(sources))];
      mpt.volumes := SliceStable(Spec.VolumeRank(), mpt.volumes);
    }

    static method UnprojectVolume(b: ServiceBinding, mpt: MetaPodTemplate)
      modifies mpt`volumes
      ensures mpt.volumes == Filter(Spec.OtherVolume(b.uid), old(mpt.volumes))
    {
      var volumes := [];
      var projected := VolumeName(b.uid);
      var listed := mpt.volumes;
      for i := 0 to |listed|
        invariant volumes == Filter(Spec.OtherVolume(b.uid), listed[..i])
      {
        FilterNext(Spec.OtherVolume(b.uid), listed, i);
        if listed[i].name != projected {
          volumes := volumes + [listed[i]];
        }
      }
      assert listed[..|listed|] == listed;
      mpt.volumes := volumes;
    }

    /* ---- volume mounts ---- */

    static method ServiceBindingRoot(mc: MetaContainer) returns (root: string)
      modifies mc`env
      ensures root == Spec.RootOf(old(mc.env))
      ensures mc.env == Spec.WithRoot(old(mc.env))
    {
      var listed := mc.env;
      for i := 0 to |listed|
        invariant mc.env == listed && Spec.FindRoot(listed[..i]).None?
      {
        EnvLaws.FindRootAppend(listed[..i], listed[i..]);
        assert listed == listed[..i] + listed[i..];
        if listed[i].name == SERVICE_BINDING_ROOT {
          return listed[i].value;
        }
        EnvLaws.FindRootAppend(listed[..i], [listed[i]]);
        assert listed[..i + 1] == listed[..i] + [listed[i]];
      }
      assert listed[..|listed|] == listed;
      var defaultRoot := Spec.DefaultRoot();
      mc.env := mc.env + [defaultRoot];
      root := defaultRoot.value;
    }

    static method ProjectVolumeMount(b: ServiceBinding, mc: MetaContainer)
      modifies mc`env, mc`volumeMounts
      ensures mc.env == Spec.WithRoot(old(mc.env))
      ensures mc.volumeMounts == Spec.ProjectMounts(b, Spec.RootOf(old(mc.env)), old(mc.volumeMounts))
    {
      var root := ServiceBindingRoot(mc);
      mc.volumeMounts := mc.volumeMounts + [VolumeMount(VolumeName(b.uid), true, Spec.GoPath.Join(root, b.name), "")];
      mc.volumeMounts := SliceStable(Spec.MountRank(), mc.volumeMounts);
    }

    static method UnprojectVolumeMount(b: ServiceBinding, mc: MetaContainer)
      modifies mc`volumeMounts
      ensures mc.volumeMounts == Filter(Spec.OtherMount(b.uid), old(mc.volumeMounts))
    {
      var mounts := [];
      var projected := VolumeName(b.uid);
      var listed := mc.volumeMounts;
      for i := 0 to |listed|
        invariant mounts == Filter(Spec.OtherMount(b.uid), listed[..i])
      {
        FilterNext(Spec.OtherMount(b.uid), listed, i);
        if listed[i].name != projected {
          mounts := mounts + [listed[i]];
        }
      }
      assert listed[..|listed|] == listed;
      mc.volumeMounts := mounts;
    }

    /* ---- environment variables ---- */

    static lemma RecordedAlready(b: ServiceBinding, a: map<string, string>)
      requires Spec.RecordAnnotations(b, a) == a
      ensures a[Names.SecretAnnotation(b.uid) := Spec.SecretName(b)] == a
      ensures b.kind != "" ==> a[Names.TypeAnnotation(b.uid) := b.kind] == a
      ensures b.provider != "" ==> a[Names.ProviderAnnotation(b.uid) := b.provider] == a
    {
      NamesAreDistinct(b.uid, b.uid);
    }

    /** Runs after ProjectVolume, which has already recorded the annotations it writes again. */
    static method ProjectEnv(b: ServiceBinding, mpt: MetaPodTemplate, mc: MetaContainer)
      requires Spec.SecretName(b) != ""
      requires Spec.RecordAnnotations(b, mpt.annotations) == mpt.annotations
      modifies mpt`annotations, mc`env
      ensures mpt.annotations == old(mpt.annotations)
      ensures mc.env == Spec.ProjectEnv(b, Spec.KnownSecrets(mpt.annotations), old(mc.env))
    {
      RecordedAlready(b, mpt.annotations);
      for i := 0 to |b.env|
        invariant mpt.annotations == old(mpt.annotations)
        invariant mc.env == old(mc.env) + Spec.EnvAdditions(b)[..i]
      {
        var e := b.env[i];
        if e.key == "type" && b.kind != "" {
          var key := TypeAnnotation(b, mpt);
          mc.env := mc.env + [Spec.FieldEnv(e.name, FieldPath(key))];
          continue;
        }
        if e.key == "provider" && b.provider != "" {
          var key := ProviderAnnotation(b, mpt);
          mc.env := mc.env + [Spec.FieldEnv(e.name, FieldPath(key))];
          continue;
        }
        var secret := SecretAnnotation(b, mpt);
        mc.env := mc.env + [Spec.SecretEnv(e.name, secret, e.key)];
      }
      assert Spec.EnvAdditions(b)[..|b.env|] == Spec.EnvAdditions(b);
      var secrets := KnownProjectedSecrets(mpt);
      mc.env := SliceStable(Spec.EnvRank(secrets), mc.env);
    }

    static method UnprojectEnv(b: ServiceBinding, mpt: MetaPodTemplate, mc: MetaContainer)
      modifies mc`env
      ensures mc.env == Spec.UnprojectEnv(b.uid, Spec.LookupSecret(mpt.annotations, b.uid), old(mc.env))
    {
      var env := [];
      var secret := Spec.LookupSecret(mpt.annotations, b.uid);
      var typeFieldPath := FieldPath(Names.TypeAnnotation(b.uid));
      var providerFieldPath := FieldPath(Names.ProviderAnnotation(b.uid));
      var listed := mc.env;
      for i := 0 to |listed|
        invariant env == Filter(Spec.Kept(b.uid, secret), listed[..i])
      {
        FilterNext(Spec.Kept(b.uid, secret), listed, i);
        var e := listed[i];
        var remove := false;
        if e.valueFrom.Some? && e.valueFrom.value.secretKeyRef.Some?
           && e.valueFrom.value.secretKeyRef.value.name == secret {
          remove := true;
        }
        if e.valueFrom.Some? && e.valueFrom.value.fieldPath.Some? {
          if e.valueFrom.value.fieldPath.value == typeFieldPath {
            remove := true;
          }
          if e.valueFrom.value.fieldPath.value == providerFieldPath {
            remove := true;
          }
        }
        if !remove {
          env := env + [e];
        }
      }
      assert listed[..|listed|] == listed;
      mc.env := env;
    }

    /* ---- containers ---- */

    static method IsContainerBindable(b: ServiceBinding, mc: MetaContainer) returns (bindable: bool)
      ensures bindable <==> Spec.Bindable(b, mc.name)
      ensures bindable <==> b.containers == [] || mc.name.None? ||
                            exists k :: 0 <= k < |b.containers| && b.containers[k] == mc.name.value
    {
      if |b.containers| == 0 || mc.name.None? {
        return true;
      }
      for i := 0 to |b.containers|
        invariant mc.name.value !in b.containers[..i]
      {
        if b.containers[i] == mc.name.value {
          return true;
        }
      }
      assert b.containers[..|b.containers|] == b.containers;
      return false;
    }

    static method ProjectContainer(b: ServiceBinding, mpt: MetaPodTemplate, mc: MetaContainer)
      requires Spec.SecretName(b) != ""
      requires Spec.RecordAnnotations(b, mpt.annotations) == mpt.annotations
      modifies mpt`annotations, mc
      ensures mpt.annotations == old(mpt.annotations)
      ensures mc.Value() == Spec.ProjectContainer(b, Spec.KnownSecrets(mpt.annotations), old(mc.Value()))
    {
      var bindable := IsContainerBindable(b, mc);
      if !bindable {
        return;
      }
      ProjectVolumeMount(b, mc);
      ProjectEnv(b, mpt, mc);
    }

    static method UnprojectContainer(b: ServiceBinding, mpt: MetaPodTemplate, mc: MetaContainer)
      modifies mc
      ensures mc.Value()
           == Spec.UnprojectContainer(b.uid, Spec.LookupSecret(mpt.annotations, b.uid), old(mc.Value()))
    {
      UnprojectVolumeMount(b, mc);
      UnprojectEnv(b, mpt, mc);
    }

    /* ---- pod templates ---- */

    /** The loop over the containers in Unproject. */
    static method UnprojectContainers(b: ServiceBinding, mpt: MetaPodTemplate)
      requires mpt.Valid()
      modifies mpt.containers
      ensures mpt.Valid()
      ensures Values(mpt.containers)
           == Spec.UnprojectContainers(b.uid, Spec.LookupSecret(mpt.annotations, b.uid), old(Values(mpt.containers)))
    {
      ghost var secret := Spec.LookupSecret(mpt.annotations, b.uid);
      for i := 0 to |mpt.containers|
        invariant forall k :: 0 <= k < i ==>
                    mpt.containers[k].Value() == Spec.UnprojectContainer(b.uid, secret, old(mpt.containers[k].Value()))
        invariant forall k :: i <= k < |mpt.containers| ==> mpt.containers[k].Value() == old(mpt.containers[k].Value())
      {
        UnprojectContainer(b, mpt, mpt.containers[i]);
      }
    }

    static method ClearAnnotations(b: ServiceBinding, mpt: MetaPodTemplate)
      modifies mpt`annotations
      ensures mpt.annotations == Spec.ClearAnnotations(b.uid, old(mpt.annotations))
    {
      mpt.annotations := mpt.annotations - {Names.SecretAnnotation(b.uid)};
      mpt.annotations := mpt.annotations - {Names.TypeAnnotation(b.uid)};
      mpt.annotations := mpt.annotations - {Names.ProviderAnnotation(b.uid)};
    }

    static method Unproject(b: ServiceBinding, mpt: MetaPodTemplate)
      requires mpt.Valid()
      modifies mpt`volumes, mpt`annotations, mpt.containers
      ensures mpt.Valid() && mpt.containers == old(mpt.containers)
      ensures mpt.Value() == Spec.Unproject(b.uid, old(mpt.Value()))
    {
      ghost var before := Values(mpt.containers);
      UnprojectVolume(b, mpt);
      assert Values(mpt.containers) == before;
      UnprojectContainers(b, mpt);
      ghost var after := Values(mpt.containers);
      ClearAnnotations(b, mpt);
      assert Values(mpt.containers) == after;
    }

    /** The loop over the containers in Project. */
    static method ProjectContainers(b: ServiceBinding, mpt: MetaPodTemplate)
      requires mpt.Valid() && Spec.SecretName(b) != ""
      requires Spec.RecordAnnotations(b, mpt.annotations) == mpt.annotations
      modifies mpt`annotations, mpt.containers
      ensures mpt.Valid() && mpt.annotations == old(mpt.annotations)
      ensures Values(mpt.containers)
           == Spec.ProjectContainers(b, Spec.KnownSecrets(mpt.annotations), old(Values(mpt.containers)))
    {
      ghost var known := Spec.KnownSecrets(mpt.annotations);
      for i := 0 to |mpt.containers|
        invariant mpt.annotations == old(mpt.annotations)
        invariant forall k :: 0 <= k < i ==>
                    mpt.containers[k].Value() == Spec.ProjectContainer(b, known, old(mpt.containers[k].Value()))
        invariant forall k :: i <= k < |mpt.containers| ==> mpt.containers[k].Value() == old(mpt.containers[k].Value())
      {
        ProjectContainer(b, mpt, mpt.containers[i]);
      }
    }

    /** The part of Project that runs when there is a secret to bind. */
    static method AddBinding(b: ServiceBinding, mpt: MetaPodTemplate)
      requires mpt.Valid() && Spec.SecretName(b) != ""
      modifies mpt`volumes, mpt`annotations, mpt.containers
      ensures mpt.Valid() && mpt.containers == old(mpt.containers)
      ensures mpt.Value() == Spec.Add(b, old(mpt.Value()))
    {
      ghost var before := Values(mpt.containers);
      ProjectVolume(b, mpt);
      assert Values(mpt.containers) == before;
      ProjectContainers(b, mpt);
    }

    static method Project(b: ServiceBinding, mpt: MetaPodTemplate)
      requires mpt.Valid()
      modifies mpt`volumes, mpt`annotations, mpt.containers
      ensures mpt.Valid() && mpt.containers == old(mpt.containers)
      ensures mpt.Value() == Spec.Project(b, old(mpt.Value()))
    {
      Unproject(b, mpt);
      if Spec.SecretName(b) == "" {
        return;
      }
      AddBinding(b, mpt);
    }
  }
}
