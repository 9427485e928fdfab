/** What a pod template gives to the processes that run in it, and what projecting a binding promises them. */
module Promises {
  import opened Wrappers
  import opened Bindings
  import opened Names
  import opened Filtering
  import opened Ordering
  import opened StableSort
  import opened Projection
  import opened EnvLaws
  import opened ContainerLaws
  import opened TemplateLaws
  import opened Runs
  import opened Orders
  import GoPath

  /* ---- how Kubernetes resolves variables and files ---- */

  /** The secrets of a namespace, and their entries. */
  type Secrets = map<string, map<string, string>>

  function Entry(s: Secrets, secret: string, key: string): Option<string>
  {
    if secret in s && key in s[secret] then Some(s[secret][key]) else None
  }

  /** The downward API reads the annotation between the quotes; a missing one reads as "". */
  function ReadAnnotation(path: string, annotations: map<string, string>): Option<string>
  {
    var front, back := "metadata.annotations['", "']";
    if front <= path && |front| + |back| <= |path| && path[|path| - |back|..] == back then
      var key := path[|front|..|path| - |back|];
      Some(if key in annotations then annotations[key] else "")
    else None
  }

  /** What a variable reads; None for what is not there, and for sources the projector never looks into. */
  function ValueOf(e: EnvVar, s: Secrets, annotations: map<string, string>): Option<string>
  {
    if e.valueFrom.None? then Some(e.value)
    else if e.valueFrom.value.fieldPath.Some? then ReadAnnotation(e.valueFrom.value.fieldPath.value, annotations)
    else if e.valueFrom.value.secretKeyRef.Some? then
      Entry(s, e.valueFrom.value.secretKeyRef.value.name, e.valueFrom.value.secretKeyRef.value.key)
    else None
  }

  /** Of several variables of one name the last one counts. */
  function Seen(env: seq<EnvVar>, name: string): Option<EnvVar>
  {
    if env == [] then None
    else if env[|env| - 1].name == name then Some(env[|env| - 1])
    else Seen(env[..|env| - 1], name)
  }

  /** What one more source of a projected volume makes of a file. */
  function Overlaid(source: VolumeProjection, before: Option<string>, file: string, s: Secrets,
                    annotations: map<string, string>): Option<string>
  {
    match source
    case SecretProjection(secret) => if Entry(s, secret, file).Some? then Entry(s, secret, file) else before
    case DownwardFile(path, fieldPath) => if path == file then ReadAnnotation(fieldPath, annotations) else before
    case OtherProjection(_) => before
  }

  /** What a file of a projected volume holds: of several sources that offer it, the last one counts. */
  function FileIn(sources: seq<VolumeProjection>, file: string, s: Secrets, annotations: map<string, string>)
    : Option<string>
  {
    if sources == [] then None
    else
      var n := |sources| - 1;
      Overlaid(sources[n], FileIn(sources[..n], file, s, annotations), file, s, annotations)
  }

  /* ---- what a binding promises ---- */

  /** The binding has resolved to a secret. */
  predicate HasSecret(b: ServiceBinding)
  {
    b.secretRef.Some? && b.secretRef.value != ""
  }

  /** What the binding gives under a key: its own type and provider where it sets them, else the secret's entry. */
  function Promised(b: ServiceBinding, key: string, s: Secrets): Option<string>
    requires HasSecret(b)
  {
    if key == "type" && b.kind != "" then Some(b.kind)
    else if key == "provider" && b.provider != "" then Some(b.provider)
    else Entry(s, b.secretRef.value, key)
  }

  /** The containers the binding is meant for: all of them, those without a name, and those it lists. */
  ghost predicate Reached(b: ServiceBinding, name: Option<string>)
  {
    b.containers == [] || name.None? || exists k :: 0 <= k < |b.containers| && b.containers[k] == name.value
  }

  /** The variable reads, whatever the secrets hold, what the binding promises under the key. */
  ghost predicate Reads(b: ServiceBinding, e: EnvVar, key: string, annotations: map<string, string>)
    requires HasSecret(b)
  {
    forall s :: ValueOf(e, s, annotations) == Promised(b, key, s)
  }

  /** The last mapping of the binding for its name. */
  ghost predicate LastMapping(b: ServiceBinding, k: nat)
  {
    k < |b.env| && forall l :: k < l < |b.env| ==> b.env[l].name != b.env[k].name
  }

  /** Each variable that the binding maps is seen, and reads what the binding promises. */
  ghost predicate VariablesProvided(b: ServiceBinding, annotations: map<string, string>, env: seq<EnvVar>)
    requires HasSecret(b)
  {
    forall k: nat :: LastMapping(b, k) ==>
      Seen(env, b.env[k].name).Some? && Reads(b, Seen(env, b.env[k].name).value, b.env[k].key, annotations)
  }

  function IsVariable(name: string): EnvVar -> bool
  {
    (e: EnvVar) => e.name == name
  }

  function NamedMounts(name: string, mounts: seq<VolumeMount>): seq<VolumeMount>
  {
    Filter((m: VolumeMount) => m.name == name, mounts)
  }

  function NamedVolumes(name: string, volumes: seq<Volume>): seq<Volume>
  {
    Filter((x: Volume) => x.name == name, volumes)
  }

  /** A container that is reached has one mount for the binding and its variables; any other one has no mount. */
  ghost predicate ContainerProvided(b: ServiceBinding, annotations: map<string, string>, c: Container)
    requires HasSecret(b)
  {
    && |NamedMounts("servicebinding-" + b.uid, c.volumeMounts)| == (if Reached(b, c.name) then 1 else 0)
    && (Reached(b, c.name) ==> VariablesProvided(b, annotations, c.env))
  }

  /** There is one volume for the binding, and every file in it holds what the binding promises. */
  ghost predicate VolumeProvided(b: ServiceBinding, w: PodTemplate)
    requires HasSecret(b)
  {
    exists sources ::
      && NamedVolumes("servicebinding-" + b.uid, w.volumes) == [Volume("servicebinding-" + b.uid, Projected(sources))]
      && forall s, file :: FileIn(sources, file, s, w.annotations) == Promised(b, file, s)
  }

  /** The template gives the binding's containers all that it promises. */
  ghost predicate Provided(b: ServiceBinding, w: PodTemplate)
    requires HasSecret(b)
  {
    && SecretAnnotation(b.uid) in w.annotations && w.annotations[SecretAnnotation(b.uid)] == b.secretRef.value
    && VolumeProvided(b, w)
    && forall c :: c in w.containers ==> ContainerProvided(b, w.annotations, c)
  }

  /* ---- variables ---- */

  lemma {:induction false} SeenIsLast(env: seq<EnvVar>, name: string)
    ensures var f := Filter(IsVariable(name), env); Seen(env, name) == if f == [] then None else Some(f[|f| - 1])
  {
    if env != [] {
      var n := |env| - 1;
      assert env[..n + 1] == env;
      FilterNext(IsVariable(name), env, n);
      SeenIsLast(env[..n], name);
    }
  }

  /** After sorting, the last variable of a name is the one that arrived last, when it is a projected one. */
  lemma SeenAfterSort(known: set<string>, front: seq<EnvVar>, x: EnvVar, back: seq<EnvVar>)
    requires EnvRank(known)(x) == Named(x.name) && forall e :: e in back ==> e.name != x.name
    ensures Seen(Sort(EnvRank(known), front + [x] + back), x.name) == Some(x)
  {
    var p, k, all := IsVariable(x.name), EnvRank(known), front + [x] + back;
    var before := Filter(p, front);
    FilterThree(p, front, [x], back);
    FilterAll(p, [x]);
    FilterNone(p, back);
    assert Filter(p, all) == before + [x];
    FilterSort(k, p, all);
    forall e | e in before
      ensures !RankLess(k(x), k(e))
    {
      FilterMember(p, front, e);
      RankLessCompare(k(x), k(x));
    }
    LastStaysLast(k, before, x);
    SeenIsLast(Sort(k, all), x.name);
  }

  lemma FieldReadsAnnotation(annotation: string, annotations: map<string, string>)
    requires annotation in annotations
    ensures ReadAnnotation(FieldPath(annotation), annotations) == Some(annotations[annotation])
  {
    var front, path := "metadata.annotations['", FieldPath(annotation);
    assert path == front + annotation + "']";
    assert path[|front|..|path| - 2] == annotation && path[|path| - 2..] == "']";
  }

  lemma RecordedAnnotations(b: ServiceBinding, v: PodTemplate)
    requires HasSecret(b)
    ensures var a := Project(b, v).annotations;
      && SecretAnnotation(b.uid) in a && a[SecretAnnotation(b.uid)] == b.secretRef.value
      && (b.kind != "" ==> TypeAnnotation(b.uid) in a && a[TypeAnnotation(b.uid)] == b.kind)
      && (b.provider != "" ==> ProviderAnnotation(b.uid) in a && a[ProviderAnnotation(b.uid)] == b.provider)
  {
    NamesAreDistinct(b.uid, b.uid);
  }

  /** The variable added for a mapping reads what the binding promises under the mapping's key. */
  lemma AddedReads(b: ServiceBinding, v: PodTemplate, m: EnvMapping)
    requires HasSecret(b)
    ensures EnvFor(b, m).name == m.name && Reads(b, EnvFor(b, m), m.key, Project(b, v).annotations)
  {
    var a := Project(b, v).annotations;
    RecordedAnnotations(b, v);
    if m.key == "type" && b.kind != "" {
      FieldReadsAnnotation(TypeAnnotation(b.uid), a);
    } else if m.key == "provider" && b.provider != "" {
      FieldReadsAnnotation(ProviderAnnotation(b.uid), a);
    }
  }

  lemma ReachedIsBindable(b: ServiceBinding, name: Option<string>)
    ensures Reached(b, name) <==> Bindable(b, name)
  {
  }

  /** Which list a container's variables are sorted from. */
  lemma ProjectedEnv(b: ServiceBinding, v: PodTemplate, i: nat)
    requires HasSecret(b) && i < |v.containers| && Reached(b, v.containers[i].name)
    ensures |Project(b, v).containers| == |v.containers|
    ensures var u := UnprojectEnv(b.uid, LookupSecret(v.annotations, b.uid), v.containers[i].env);
      Project(b, v).containers[i].env
      == Sort(EnvRank(KnownSecrets(Project(b, v).annotations)), WithRoot(u) + EnvAdditions(b))
  {
    ReachedIsBindable(b, v.containers[i].name);
  }

  lemma KnowsItsSecret(b: ServiceBinding, v: PodTemplate)
    requires HasSecret(b)
    ensures b.secretRef.value in KnownSecrets(Project(b, v).annotations)
  {
    RecordedAnnotations(b, v);
    PrefixesRecognise(b.uid);
  }

  lemma AddedIsSeen(b: ServiceBinding, known: set<string>, env: seq<EnvVar>, k: nat)
    requires SecretName(b) in known && LastMapping(b, k)
    ensures Seen(Sort(EnvRank(known), env + EnvAdditions(b)), b.env[k].name) == Some(EnvFor(b, b.env[k]))
  {
    var adds, x := EnvAdditions(b), EnvFor(b, b.env[k]);
    assert adds[k] == x && x.name == b.env[k].name;
    AdditionsAreProjected(b, known, x);
    forall e | e in adds[k + 1..]
      ensures e.name != x.name
    {
      var l :| k < l < |adds| && adds[l] == e;
      assert e.name == b.env[l].name;
    }
    assert env + adds == (env + adds[..k]) + [x] + adds[k + 1..];
    SeenAfterSort(known, env + adds[..k], x, adds[k + 1..]);
  }

  /** What a process in a container sees under a name that the binding maps. */
  lemma VariableIsSeen(b: ServiceBinding, v: PodTemplate, i: nat, k: nat)
    requires HasSecret(b) && i < |v.containers| && Reached(b, v.containers[i].name) && LastMapping(b, k)
    ensures |Project(b, v).containers| == |v.containers|
    ensures Seen(Project(b, v).containers[i].env, b.env[k].name).Some?
    ensures Reads(b, Seen(Project(b, v).containers[i].env, b.env[k].name).value, b.env[k].key,
                  Project(b, v).annotations)
  {
    var u := UnprojectEnv(b.uid, LookupSecret(v.annotations, b.uid), v.containers[i].env);
    ProjectedEnv(b, v, i);
    AddedReads(b, v, b.env[k]);
    KnowsItsSecret(b, v);
    AddedIsSeen(b, KnownSecrets(Project(b, v).annotations), WithRoot(u), k);
  }

  /** Every variable that a container has after a projection was there before, is the default root, or reads what the
      binding promises under a key that it maps to the variable's name. */
  lemma NothingElseAdded(b: ServiceBinding, v: PodTemplate, i: nat, e: EnvVar)
    requires HasSecret(b) && i < |v.containers|
    ensures |Project(b, v).containers| == |v.containers|
    ensures e in Project(b, v).containers[i].env ==>
      || e in v.containers[i].env
      || e == EnvVar("SERVICE_BINDING_ROOT", "/bindings", None)
      || (Reached(b, v.containers[i].name)
          && exists m :: m in b.env && e.name == m.name && Reads(b, e, m.key, Project(b, v).annotations))
  {
    var u := UnprojectContainer(b.uid, LookupSecret(v.annotations, b.uid), v.containers[i]);
    ReachedIsBindable(b, v.containers[i].name);
    if e in Project(b, v).containers[i].env {
      UnprojectedMember(b.uid, LookupSecret(v.annotations, b.uid), v.containers[i].env, e);
      ProjectedEnvMember(b, KnownSecrets(Project(b, v).annotations), u, e);
      if e in EnvAdditions(b) {
        var k :| 0 <= k < |b.env| && e == EnvFor(b, b.env[k]);
        AddedReads(b, v, b.env[k]);
        assert b.env[k] in b.env;
      }
    }
  }

  /* ---- mounts ---- */

  lemma NoMountLeft(uid: string, mounts: seq<VolumeMount>)
    ensures NamedMounts("servicebinding-" + uid, Filter(OtherMount(uid), mounts)) == []
  {
    var rest := Filter(OtherMount(uid), mounts);
    forall m | m in rest
      ensures m.name != VolumeName(uid)
    {
      FilterMember(OtherMount(uid), mounts, m);
    }
    FilterNone((m: VolumeMount) => m.name == "servicebinding-" + uid, rest);
  }

  lemma OneMount(b: ServiceBinding, root: string, mounts: seq<VolumeMount>)
    ensures NamedMounts("servicebinding-" + b.uid, ProjectMounts(b, root, Filter(OtherMount(b.uid), mounts)))
         == [VolumeMount("servicebinding-" + b.uid, true, GoPath.Join(root, b.name), "")]
  {
    var named := (m: VolumeMount) => m.name == "servicebinding-" + b.uid;
    var rest, own := Filter(OtherMount(b.uid), mounts), [BindingMount(b, root)];
    NoMountLeft(b.uid, mounts);
    FilterSort(MountRank(), named, rest + own);
    FilterAppend(named, rest, own);
    FilterAll(named, own);
    assert NamedMounts("servicebinding-" + b.uid, rest) + own == own;
    assert Sort(MountRank(), own) == own;
  }

  /** A container is given a mount of the binding, and only one, exactly when the binding is meant for it. */
  lemma MountIsProvided(b: ServiceBinding, v: PodTemplate, i: nat)
    requires HasSecret(b) && i < |v.containers|
    ensures |Project(b, v).containers| == |v.containers|
    ensures |NamedMounts("servicebinding-" + b.uid, Project(b, v).containers[i].volumeMounts)|
         == if Reached(b, v.containers[i].name) then 1 else 0
  {
    var c := v.containers[i];
    ReachedIsBindable(b, c.name);
    NoMountLeft(b.uid, c.volumeMounts);
    OneMount(b, RootOf(UnprojectEnv(b.uid, LookupSecret(v.annotations, b.uid), c.env)), c.volumeMounts);
  }

  ghost predicate FirstRoot(env: seq<EnvVar>, k: nat)
  {
    && k < |env| && env[k].name == "SERVICE_BINDING_ROOT"
    && forall l :: 0 <= l < k ==> env[l].name != "SERVICE_BINDING_ROOT"
  }

  /** The value of the first root variable, or the default when there is none. */
  ghost predicate RootIs(env: seq<EnvVar>, root: string)
  {
    || (exists k: nat :: FirstRoot(env, k) && root == env[k].value)
    || ((forall e :: e in env ==> e.name != "SERVICE_BINDING_ROOT") && root == "/bindings")
  }

  lemma {:induction false} RootIsFound(env: seq<EnvVar>, root: string)
    ensures RootIs(env, root) <==> root == RootOf(env)
  {
    if env != [] && env[0].name != SERVICE_BINDING_ROOT {
      RootIsFound(env[1..], root);
      assert forall k: nat :: FirstRoot(env[1..], k) ==> FirstRoot(env, k + 1);
      assert forall k: nat :: FirstRoot(env, k) ==> k > 0 && FirstRoot(env[1..], k - 1);
      assert forall e :: e in env <==> e == env[0] || e in env[1..];
    } else if env != [] {
      assert FirstRoot(env, 0) && forall k: nat :: FirstRoot(env, k) ==> k == 0;
      assert env[0] in env;
    }
  }

  /** The mount is at the binding's name below the root of the container, which the container then defines. */
  lemma MountIsBelowRoot(b: ServiceBinding, v: PodTemplate, i: nat, root: string)
    requires HasSecret(b) && i < |v.containers| && Reached(b, v.containers[i].name)
    requires RootLiteral(v.containers[i].env) && RootUnclaimed(b) && RootIs(v.containers[i].env, root)
    ensures |Project(b, v).containers| == |v.containers|
    ensures var mounts := NamedMounts("servicebinding-" + b.uid, Project(b, v).containers[i].volumeMounts);
      && |mounts| == 1 && mounts[0].readOnly && mounts[0].mountPath == GoPath.Join(root, b.name)
      && (GoPath.CleanDirectory(root) && GoPath.Plain(b.name) ==> mounts[0].mountPath == root + "/" + b.name)
    ensures RootIs(Project(b, v).containers[i].env, root)
  {
    var c := v.containers[i];
    var env := UnprojectEnv(b.uid, LookupSecret(v.annotations, b.uid), c.env);
    ReachedIsBindable(b, c.name);
    RootIsFound(c.env, root);
    FindRootUnprojected(b.uid, LookupSecret(v.annotations, b.uid), c.env);
    OneMount(b, root, c.volumeMounts);
    if GoPath.CleanDirectory(root) && GoPath.Plain(b.name) {
      GoPath.JoinIsBelow(root, b.name);
    }
    ProjectEnvKeepsRoot(b, KnownSecrets(Project(b, v).annotations), env);
    RootIsFound(Project(b, v).containers[i].env, root);
  }

  /* ---- the volume ---- */

  lemma NoVolumeLeft(uid: string, volumes: seq<Volume>)
    ensures NamedVolumes("servicebinding-" + uid, Filter(OtherVolume(uid), volumes)) == []
  {
    var rest := Filter(OtherVolume(uid), volumes);
    forall x | x in rest
      ensures x.name != VolumeName(uid)
    {
      FilterMember(OtherVolume(uid), volumes, x);
    }
    FilterNone((x: Volume) => x.name == "servicebinding-" + uid, rest);
  }

  lemma OneVolume(b: ServiceBinding, volumes: seq<Volume>)
    ensures NamedVolumes("servicebinding-" + b.uid,
                         Sort(VolumeRank(), Filter(OtherVolume(b.uid), volumes) + [BindingVolume(b)]))
         == [BindingVolume(b)]
  {
    var named := (x: Volume) => x.name == "servicebinding-" + b.uid;
    var rest, own := Filter(OtherVolume(b.uid), volumes), [BindingVolume(b)];
    NoVolumeLeft(b.uid, volumes);
    FilterSort(VolumeRank(), named, rest + own);
    FilterAppend(named, rest, own);
    FilterAll(named, own);
    assert NamedVolumes("servicebinding-" + b.uid, rest) + own == own;
    assert Sort(VolumeRank(), own) == own;
  }

  lemma FileInSnoc(front: seq<VolumeProjection>, last: VolumeProjection, file: string, s: Secrets,
                   annotations: map<string, string>)
    ensures FileIn(front + [last], file, s, annotations)
         == Overlaid(last, FileIn(front, file, s, annotations), file, s, annotations)
  {
    assert (front + [last])[..|front|] == front;
  }

  lemma FileIsProvided(b: ServiceBinding, v: PodTemplate, file: string, s: Secrets)
    requires HasSecret(b)
    ensures FileIn(BindingVolume(b).source.sources, file, s, Project(b, v).annotations) == Promised(b, file, s)
  {
    var a := Project(b, v).annotations;
    var none: seq<VolumeProjection> := [];
    var secret := [SecretProjection(b.secretRef.value)];
    RecordedAnnotations(b, v);
    FileInSnoc(none, secret[0], file, s, a);
    assert none + secret == secret;
    var typed := secret;
    if b.kind != "" {
      var own := DownwardFile("type", FieldPath(TypeAnnotation(b.uid)));
      FieldReadsAnnotation(TypeAnnotation(b.uid), a);
      FileInSnoc(secret, own, file, s, a);
      typed := secret + [own];
    }
    assert typed == secret + (if b.kind != "" then [DownwardFile("type", FieldPath(TypeAnnotation(b.uid)))] else []);
    if b.provider != "" {
      var own := DownwardFile("provider", FieldPath(ProviderAnnotation(b.uid)));
      FieldReadsAnnotation(ProviderAnnotation(b.uid), a);
      FileInSnoc(typed, own, file, s, a);
    }
  }

  /** The volume holds what the binding promises, file by file, so a file and a variable of one key agree. */
  lemma VolumeIsProvided(b: ServiceBinding, v: PodTemplate)
    requires HasSecret(b)
    ensures VolumeProvided(b, Project(b, v))
  {
    OneVolume(b, v.volumes);
    forall s, file
      ensures FileIn(BindingVolume(b).source.sources, file, s, Project(b, v).annotations) == Promised(b, file, s)
    {
      FileIsProvided(b, v, file, s);
    }
  }

  /* ---- the whole template ---- */

  lemma ContainerIsProvided(b: ServiceBinding, v: PodTemplate, i: nat)
    requires HasSecret(b) && i < |v.containers|
    ensures |Project(b, v).containers| == |v.containers|
    ensures ContainerProvided(b, Project(b, v).annotations, Project(b, v).containers[i])
  {
    ProjectKeepsNames(b, v, i);
    MountIsProvided(b, v, i);
    if Reached(b, v.containers[i].name) {
      forall k: nat | LastMapping(b, k)
        ensures Seen(Project(b, v).containers[i].env, b.env[k].name).Some?
        ensures Reads(b, Seen(Project(b, v).containers[i].env, b.env[k].name).value, b.env[k].key,
                      Project(b, v).annotations)
      {
        VariableIsSeen(b, v, i, k);
      }
    }
  }

  /** A projected template provides what its binding promises. */
  lemma ProjectProvides(b: ServiceBinding, v: PodTemplate)
    requires HasSecret(b)
    ensures Provided(b, Project(b, v))
  {
    var w := Project(b, v);
    RecordedAnnotations(b, v);
    VolumeIsProvided(b, v);
    forall c | c in w.containers
      ensures ContainerProvided(b, w.annotations, c)
    {
      var i :| 0 <= i < |w.containers| && w.containers[i] == c;
      ContainerIsProvided(b, v, i);
    }
  }

  /** The variable reads an entry of the secret, or the binding's type or provider annotation. */
  predicate StemsFrom(uid: string, secret: string, e: EnvVar)
  {
    e.valueFrom.Some?
    && (|| (e.valueFrom.value.secretKeyRef.Some? && e.valueFrom.value.secretKeyRef.value.name == secret)
        || ReadsField(e, "metadata.annotations['" + ("projector.servicebinding.io/type-" + uid) + "']")
        || ReadsField(e, "metadata.annotations['" + ("projector.servicebinding.io/provider-" + uid) + "']"))
  }

  lemma StemsIsOwned(uid: string, secret: string, e: EnvVar)
    ensures StemsFrom(uid, secret, e) <==> EnvOwned(uid, secret, e)
  {
    PrefixesSpelled();
  }

  /** A container has variables of the binding exactly when the binding is meant for it. */
  lemma VariablesExactly(b: ServiceBinding, v: PodTemplate, i: nat)
    requires HasSecret(b) && b.env != [] && Clean(b, v) && i < |v.containers|
    ensures |Project(b, v).containers| == |v.containers|
    ensures (exists e :: e in Project(b, v).containers[i].env && StemsFrom(b.uid, b.secretRef.value, e))
       <==> Reached(b, v.containers[i].name)
  {
    var c, w := v.containers[i], Project(b, v).containers[i];
    var recorded := LookupSecret(v.annotations, b.uid);
    ReachedIsBindable(b, c.name);
    if Reached(b, c.name) {
      var x := EnvFor(b, b.env[0]);
      ProjectedEnv(b, v, i);
      assert EnvAdditions(b)[0] == x;
      AdditionsShape(b, x);
      StemsIsOwned(b.uid, b.secretRef.value, x);
      SortMember(EnvRank(KnownSecrets(Project(b, v).annotations)), WithRoot(UnprojectEnv(b.uid, recorded, c.env))
                                                                   + EnvAdditions(b), x);
    } else {
      CleanContainer(b, v, c);
      forall e | e in w.env
        ensures !StemsFrom(b.uid, b.secretRef.value, e)
      {
        UnprojectedMember(b.uid, recorded, c.env, e);
        StemsIsOwned(b.uid, b.secretRef.value, e);
      }
    }
  }

  /* ---- withdrawal ---- */

  /** The template has nothing of the binding, nor of the secret recorded for it before. */
  ghost predicate Withdrawn(uid: string, before: PodTemplate, w: PodTemplate)
  {
    && SecretAnnotation(uid) !in w.annotations
    && TypeAnnotation(uid) !in w.annotations
    && ProviderAnnotation(uid) !in w.annotations
    && NamedVolumes("servicebinding-" + uid, w.volumes) == []
    && (forall c :: c in w.containers ==> NamedMounts("servicebinding-" + uid, c.volumeMounts) == [])
    && (forall c, e :: c in w.containers && e in c.env ==>
          !StemsFrom(uid, if SecretAnnotation(uid) in before.annotations then before.annotations[SecretAnnotation(uid)]
                          else "", e))
  }

  /** A withdrawn binding leaves nothing behind, and neither does one that has lost its secret. */
  lemma UnprojectWithdraws(uid: string, v: PodTemplate)
    ensures Withdrawn(uid, v, Unproject(uid, v))
  {
    var w, recorded := Unproject(uid, v), LookupSecret(v.annotations, uid);
    NoVolumeLeft(uid, v.volumes);
    forall c | c in w.containers
      ensures NamedMounts("servicebinding-" + uid, c.volumeMounts) == []
      ensures forall e :: e in c.env ==> !StemsFrom(uid, recorded, e)
    {
      var i :| 0 <= i < |w.containers| && w.containers[i] == c;
      NoMountLeft(uid, v.containers[i].volumeMounts);
      forall e | e in c.env
        ensures !StemsFrom(uid, recorded, e)
      {
        UnprojectedMember(uid, recorded, v.containers[i].env, e);
        StemsIsOwned(uid, recorded, e);
      }
    }
  }

  /** What one step achieves: the binding's promises are kept, or nothing of it is left. */
  ghost predicate Achieved(s: Step, v: PodTemplate, w: PodTemplate)
  {
    if s.ProjectStep? && HasSecret(s.binding) then Provided(s.binding, w) else Withdrawn(s.binding.uid, v, w)
  }

  lemma StepAchieves(s: Step, v: PodTemplate)
    ensures Achieved(s, v, Take(s, v))
  {
    if s.ProjectStep? && HasSecret(s.binding) {
      ProjectProvides(s.binding, v);
    } else {
      UnprojectWithdraws(s.binding.uid, v);
    }
  }

  /** After a run of any length, each binding's last step has achieved what it is for, also when later steps of other
      bindings followed, as long as it meets none of them. */
  lemma RunAchieves(t: Tenancy, steps: seq<Step>, i: nat, v: PodTemplate)
    requires Settled(t, v) && AllRespect(t, steps) && i < |Replay(steps)|
    requires forall k :: i < k < |Replay(steps)| ==> Independent(Replay(steps)[i], Replay(steps)[k], v)
    ensures Achieved(Replay(steps)[i], Run(Replay(steps)[..i] + Replay(steps)[i + 1..], v), Run(steps, v))
  {
    var r := Replay(steps);
    RunIsReplay(t, steps, v);
    ReplayIsLast(steps);
    LastStepsRespect(t, steps, r);
    PostponeWithin(t, r, i, v);
    StepAchieves(r[i], Run(r[..i] + r[i + 1..], v));
  }
}
