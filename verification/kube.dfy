/** The subset of the Kubernetes `apps/v1` and `core/v1` object schema, and of
    k3k's own `Cluster` resource, that the server Deployment builder reads or
    sets. Pointer fields that the builder always sets are modelled as plain
    values. Of the two pointers it dereferences, the cluster record itself is
    a plain `Cluster` value here, and `Spec.Servers` stays an `Option`. */
module Kube {
  import opened GoRuntime

  datatype TypeMeta = TypeMeta(kind: string, apiVersion: string)

  /** Object metadata; a Go nil map is the empty map here. */
  datatype ObjectMeta = ObjectMeta(name: string, namespace: string, labels: map<string, string>)

  datatype LabelSelector = LabelSelector(matchLabels: map<string, string>)

  /** One file projected out of a secret: secret key `key` appears as `path`. */
  datatype KeyToPath = KeyToPath(key: string, path: string)

  /** The two kinds of volume the builder uses: a projected secret, or
      node-local scratch space that lives as long as the pod. */
  datatype VolumeSource =
    | SecretVolume(secretName: string, items: seq<KeyToPath>)
    | EmptyDirVolume

  datatype Volume = Volume(name: string, source: VolumeSource)

  datatype VolumeMount = VolumeMount(name: string, mountPath: string, readOnly: bool)

  datatype SecurityContext = SecurityContext(privileged: bool)

  datatype Container = Container(
    name: string,
    image: string,
    securityContext: SecurityContext,
    command: seq<string>,
    args: seq<string>,
    volumeMounts: seq<VolumeMount>)

  datatype PodSpec = PodSpec(volumes: seq<Volume>, containers: seq<Container>)

  datatype PodTemplateSpec = PodTemplateSpec(metadata: ObjectMeta, spec: PodSpec)

  datatype DeploymentSpec = DeploymentSpec(replicas: Int32, selector: LabelSelector, template: PodTemplateSpec)

  datatype Deployment = Deployment(typeMeta: TypeMeta, metadata: ObjectMeta, spec: DeploymentSpec)

  /** k3k's `Cluster` spec: the desired number of server replicas (a pointer
      that may be nil) and extra arguments for every server process. */
  datatype ClusterSpec = ClusterSpec(servers: Option<Int32>, serverArgs: seq<string>)

  datatype Cluster = Cluster(metadata: ObjectMeta, spec: ClusterSpec)

  /** Equality-based `matchLabels` selection: every label the selector names
      is present on the object with the same value. */
  predicate Selects(matchLabels: map<string, string>, labels: map<string, string>)
  {
    forall k :: k in matchLabels ==> k in labels && labels[k] == matchLabels[k]
  }
}
