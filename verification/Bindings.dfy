/** The entities a projection works on. Parts the projector never looks into are kept as opaque strings. */
module Bindings {
  import opened Wrappers

  datatype EnvMapping = EnvMapping(name: string, key: string)

  /** A ServiceBinding, reduced to what a projection reads. `secretRef` is its status.binding, `containers` the
      workload container names it is limited to (none means all). */
  datatype ServiceBinding = ServiceBinding(
    uid: string,
    name: string,
    kind: string,
    provider: string,
    env: seq<EnvMapping>,
    containers: seq<string>,
    secretRef: Option<string>
  )

  datatype SecretKeySelector = SecretKeySelector(name: string, key: string)

  /** The alternatives are pointers, so more than one may be set; `other` stands for those not looked at. */
  datatype EnvVarSource = EnvVarSource(
    fieldPath: Option<string>,
    secretKeyRef: Option<SecretKeySelector>,
    other: string
  )

  datatype EnvVar = EnvVar(name: string, value: string, valueFrom: Option<EnvVarSource>)

  datatype VolumeProjection =
    | SecretProjection(secret: string)
    | DownwardFile(path: string, fieldPath: string)
    | OtherProjection(raw: string)

  datatype VolumeSource = Projected(sources: seq<VolumeProjection>) | OtherSource(raw: string)

  datatype Volume = Volume(name: string, source: VolumeSource)

  datatype VolumeMount = VolumeMount(name: string, readOnly: bool, mountPath: string, other: string)

  datatype Container = Container(name: Option<string>, env: seq<EnvVar>, volumeMounts: seq<VolumeMount>)

  /** The part of a workload that bindings are projected into. */
  datatype PodTemplate = PodTemplate(
    annotations: map<string, string>,
    containers: seq<Container>,
    volumes: seq<Volume>
  )
}
