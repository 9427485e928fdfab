/** What projecting and unprojecting a binding do to a pod template, as functions on values. */
module Projection {
  import opened Wrappers
  import opened Bindings
  import opened Names
  import opened Filtering
  import opened Ordering
  import opened StableSort
  import GoPath

  /** The secret the binding has resolved to, "" when there is none yet. */
  function SecretName(b: ServiceBinding): string
  {
    if b.secretRef.None? then "" else b.secretRef.value
  }

  /** A Go map lookup: an absent annotation reads as "". */
  function LookupSecret(annotations: map<string, string>, uid: string): string
  {
    if SecretAnnotation(uid) in annotations then annotations[SecretAnnotation(uid)] else ""
  }

  /* ---- recognising what is projected ---- */

  predicate RefersTo(e: EnvVar, secret: string)
  {
    e.valueFrom.Some? && e.valueFrom.value.secretKeyRef.Some? && e.valueFrom.value.secretKeyRef.value.name == secret
  }

  predicate ReadsField(e: EnvVar, path: string)
  {
    e.valueFrom.Some? && e.valueFrom.value.fieldPath == Some(path)
  }

  /** What unproject removes for a binding whose recorded secret is `secret`. */
  predicate EnvOwned(uid: string, secret: string, e: EnvVar)
  {
    || RefersTo(e, secret)
    || ReadsField(e, FieldPath(TypeAnnotation(uid)))
    || ReadsField(e, FieldPath(ProviderAnnotation(uid)))
  }

  function KnownSecrets(annotations: map<string, string>): set<string>
  {
    set k | k in annotations && SECRET_ANNOTATION_PREFIX <= k :: annotations[k]
  }

  predicate IsProjectedEnv(e: EnvVar, secrets: set<string>)
  {
    && e.valueFrom.Some?
    && (|| (e.valueFrom.value.secretKeyRef.Some? && e.valueFrom.value.secretKeyRef.value.name in secrets)
        || (e.valueFrom.value.fieldPath.Some? && FIELD_PATH_PREFIX <= e.valueFrom.value.fieldPath.value))
  }

  function Kept(uid: string, secret: string): EnvVar -> bool
  {
    (e: EnvVar) => !EnvOwned(uid, secret, e)
  }

  function OtherVolume(uid: string): Volume -> bool
  {
    (v: Volume) => v.name != VolumeName(uid)
  }

  function OtherMount(uid: string): VolumeMount -> bool
  {
    (m: VolumeMount) => m.name != VolumeName(uid)
  }

  /* ---- the three sort orders ---- */

  function NameRank(name: string): Rank
  {
    if VOLUME_PREFIX <= name then Named(name) else Plain
  }

  function VolumeRank(): Volume -> Rank
  {
    (v: Volume) => NameRank(v.name)
  }

  function MountRank(): VolumeMount -> Rank
  {
    (m: VolumeMount) => NameRank(m.name)
  }

  function EnvRank(secrets: set<string>): EnvVar -> Rank
  {
    (e: EnvVar) => if IsProjectedEnv(e, secrets) then Named(e.name) else Plain
  }

  /* ---- what a binding adds ---- */

  function SecretEnv(name: string, secret: string, key: string): EnvVar
  {
    EnvVar(name, "", Some(EnvVarSource(None, Some(SecretKeySelector(secret, key)), "")))
  }

  function FieldEnv(name: string, path: string): EnvVar
  {
    EnvVar(name, "", Some(EnvVarSource(Some(path), None, "")))
  }

  function EnvFor(b: ServiceBinding, e: EnvMapping): EnvVar
  {
    if e.key == "type" && b.kind != "" then FieldEnv(e.name, FieldPath(TypeAnnotation(b.uid)))
    else if e.key == "provider" && b.provider != "" then FieldEnv(e.name, FieldPath(ProviderAnnotation(b.uid)))
    else SecretEnv(e.name, SecretName(b), e.key)
  }

  function EnvAdditions(b: ServiceBinding): seq<EnvVar>
  {
    seq(|b.env|, i requires 0 <= i < |b.env| => EnvFor(b, b.env[i]))
  }

  function BindingVolume(b: ServiceBinding): Volume
  {
    Volume(VolumeName(b.uid), Projected(
      [SecretProjection(SecretName(b))]
      + (if b.kind != "" then [DownwardFile("type", FieldPath(TypeAnnotation(b.uid)))] else [])
      + (if b.provider != "" then [DownwardFile("provider", FieldPath(ProviderAnnotation(b.uid)))] else [])))
  }

  function BindingMount(b: ServiceBinding, root: string): VolumeMount
  {
    VolumeMount(VolumeName(b.uid), true, GoPath.Join(root, b.name), "")
  }

  function RecordAnnotations(b: ServiceBinding, a: map<string, string>): map<string, string>
  {
    var a1 := a[SecretAnnotation(b.uid) := SecretName(b)];
    var a2 := if b.kind != "" then a1[TypeAnnotation(b.uid) := b.kind] else a1;
    if b.provider != "" then a2[ProviderAnnotation(b.uid) := b.provider] else a2
  }

  function ClearAnnotations(uid: string, a: map<string, string>): map<string, string>
  {
    a - {SecretAnnotation(uid), TypeAnnotation(uid), ProviderAnnotation(uid)}
  }

  /* ---- SERVICE_BINDING_ROOT ---- */

  /** The value of the first variable of that name. */
  function FindRoot(env: seq<EnvVar>): Option<string>
  {
    if env == [] then None
    else if env[0].name == SERVICE_BINDING_ROOT then Some(env[0].value)
    else FindRoot(env[1..])
  }

  function DefaultRoot(): EnvVar
  {
    EnvVar(SERVICE_BINDING_ROOT, DEFAULT_ROOT, None)
  }

  function WithRoot(env: seq<EnvVar>): seq<EnvVar>
  {
    if FindRoot(env).Some? then env else env + [DefaultRoot()]
  }

  function RootOf(env: seq<EnvVar>): string
  {
    if FindRoot(env).Some? then FindRoot(env).value else DEFAULT_ROOT
  }

  /* ---- containers ---- */

  predicate Bindable(b: ServiceBinding, name: Option<string>)
  {
    b.containers == [] || name.None? || name.value in b.containers
  }

  function UnprojectEnv(uid: string, secret: string, env: seq<EnvVar>): seq<EnvVar>
  {
    Filter(Kept(uid, secret), env)
  }

  function ProjectEnv(b: ServiceBinding, known: set<string>, env: seq<EnvVar>): seq<EnvVar>
  {
    Sort(EnvRank(known), env + EnvAdditions(b))
  }

  function ProjectMounts(b: ServiceBinding, root: string, mounts: seq<VolumeMount>): seq<VolumeMount>
  {
    Sort(MountRank(), mounts + [BindingMount(b, root)])
  }

  function UnprojectContainer(uid: string, secret: string, c: Container): Container
  {
    Container(c.name, UnprojectEnv(uid, secret, c.env), Filter(OtherMount(uid), c.volumeMounts))
  }

  function ProjectContainer(b: ServiceBinding, known: set<string>, c: Container): Container
  {
    if !Bindable(b, c.name) then c
    else Container(c.name, ProjectEnv(b, known, WithRoot(c.env)), ProjectMounts(b, RootOf(c.env), c.volumeMounts))
  }

  /* ---- pod templates ---- */

  function UnprojectContainers(uid: string, secret: string, cs: seq<Container>): seq<Container>
  {
    seq(|cs|, i requires 0 <= i < |cs| => UnprojectContainer(uid, secret, cs[i]))
  }

  function ProjectContainers(b: ServiceBinding, known: set<string>, cs: seq<Container>): seq<Container>
  {
    seq(|cs|, i requires 0 <= i < |cs| => ProjectContainer(b, known, cs[i]))
  }

  function Unproject(uid: string, v: PodTemplate): PodTemplate
  {
    PodTemplate(
      ClearAnnotations(uid, v.annotations),
      UnprojectContainers(uid, LookupSecret(v.annotations, uid), v.containers),
      Filter(OtherVolume(uid), v.volumes))
  }

  /** What projecting adds once every trace of the binding is gone. */
  function Add(b: ServiceBinding, v: PodTemplate): PodTemplate
  {
    var annotations := RecordAnnotations(b, v.annotations);
    PodTemplate(
      annotations,
      ProjectContainers(b, KnownSecrets(annotations), v.containers),
      Sort(VolumeRank(), v.volumes + [BindingVolume(b)]))
  }

  function Project(b: ServiceBinding, v: PodTemplate): PodTemplate
  {
    if SecretName(b) == "" then Unproject(b.uid, v) else Add(b, Unproject(b.uid, v))
  }
}
