/** The control-plane (k3s server) Deployment builder: `Server` chooses the
    Deployment's identity, replica count and labels from a cluster record and
    the bootstrap flag; `ServerPodSpec` assembles the pod that runs k3s. Both
    are pure functions of their inputs. */
module ClusterServer {
  import opened GoRuntime
  import opened Kube

  const K3S_BINARY := "/bin/k3s"
  const CONFIG_KEY := "config.yaml"
  const CONFIG_DIR := "/opt/rancher/k3s/"
  const CONFIG_FILE := "/opt/rancher/k3s/config.yaml"

  /** The fixed argument prefix: run k3s as a server reading its rendered
      configuration file. */
  const BASE_ARGS: seq<string> := ["server", "--config", CONFIG_FILE]

  /** The storage every server pod gets, as (volume name, container path), in
      the order in which volumes and mounts are listed. */
  const MOUNT_TABLE: seq<(string, string)> := [
    ("config", "/opt/rancher/k3s/"),
    ("run", "/run"),
    ("varrun", "/var/run"),
    ("varlibcni", "/var/lib/cni"),
    ("varlibkubelet", "/var/lib/kubelet"),
    ("varlibrancherk3s", "/var/lib/rancher/k3s"),
    ("varlog", "/var/log")
  ]

  /** The short, cluster-independent instance name of either mode. */
  function InstanceName(init: bool): (name: string)
    ensures name == "k3k-init-server" || name == "k3k-server"
    ensures name == "k3k-init-server" <==> init
  {
    if init then "k3k-init-server" else "k3k-server"
  }

  /** The Deployment's name: the cluster's name, a dash, the instance name. */
  function DeploymentName(clusterName: string, init: bool): (name: string)
    ensures init ==> |name| == |clusterName| + 16 && name[|clusterName|..] == "-k3k-init-server"
    ensures !init ==> |name| == |clusterName| + 11 && name[|clusterName|..] == "-k3k-server"
    ensures name[..|clusterName|] == clusterName
  {
    clusterName + "-" + InstanceName(init)
  }

  /** Replica count: one bootstrap instance, or `Servers - 1` peers computed
      with `int32` arithmetic and no clamping. */
  function Replicas(servers: Int32, init: bool): (r: Int32)
    ensures init ==> r == 1
    ensures !init && servers > MIN_INT32 ==> r == servers - 1
    ensures !init && servers == MIN_INT32 ==> r == MAX_INT32
  {
    var peers := Sub32(servers, 1);
    if init then 1 else peers
  }

  /** The labels of the pods of either mode, also used as the selector. */
  function PodLabels(clusterName: string, init: bool): (labels: map<string, string>)
    ensures labels.Keys == {"cluster", "role", "init"}
    ensures labels["cluster"] == clusterName
    ensures labels["role"] == "server"
    ensures labels["init"] == (if init then "true" else "false")
  {
    map["cluster" := clusterName, "role" := "server", "init" := FormatBool(init)]
  }

  /** The server's command-line arguments: the fixed prefix, then the
      caller's arguments unchanged and in order. */
  function ServerArgs(extra: seq<string>): (args: seq<string>)
    ensures |args| == |BASE_ARGS| + |extra|
    ensures args[..|BASE_ARGS|] == BASE_ARGS
    ensures args[|BASE_ARGS|..] == extra
    ensures multiset(args) == multiset(BASE_ARGS) + multiset(extra)
  {
    ["server", "--config", "/opt/rancher/k3s/config.yaml"] + extra
  }

  /** The seven volumes: the configuration secret of instance `name`, then six
      scratch directories. */
  function Volumes(name: string): (vs: seq<Volume>)
    ensures |vs| == |MOUNT_TABLE|
    ensures forall i :: 0 <= i < |vs| ==> vs[i].name == MOUNT_TABLE[i].0
    ensures vs[0].source == SecretVolume(name + "-config", [KeyToPath(CONFIG_KEY, CONFIG_KEY)])
    ensures forall i :: 1 <= i < |vs| ==> vs[i].source == EmptyDirVolume
  {
    [
      Volume("config", SecretVolume(name + "-config", [KeyToPath("config.yaml", "config.yaml")])),
      Volume("run", EmptyDirVolume),
      Volume("varrun", EmptyDirVolume),
      Volume("varlibcni", EmptyDirVolume),
      Volume("varlibkubelet", EmptyDirVolume),
      Volume("varlibrancherk3s", EmptyDirVolume),
      Volume("varlog", EmptyDirVolume)
    ]
  }

  /** The seven mounts, one per volume, all writable. */
  function VolumeMounts(): (ms: seq<VolumeMount>)
    ensures |ms| == |MOUNT_TABLE|
    ensures forall i :: 0 <= i < |ms| ==> ms[i].name == MOUNT_TABLE[i].0 && ms[i].mountPath == MOUNT_TABLE[i].1
    ensures forall i :: 0 <= i < |ms| ==> !ms[i].readOnly
  {
    [
      VolumeMount("config", "/opt/rancher/k3s/", false),
      VolumeMount("run", "/run", false),
      VolumeMount("varrun", "/var/run", false),
      VolumeMount("varlibcni", "/var/lib/cni", false),
      VolumeMount("varlibkubelet", "/var/lib/kubelet", false),
      VolumeMount("varlibrancherk3s", "/var/lib/rancher/k3s", false),
      VolumeMount("varlog", "/var/log", false)
    ]
  }

  /** The pod of a server instance: one privileged container running k3s from
      `image`, named after the instance, with the composed arguments and every
      volume mounted. */
  function ServerPodSpec(image: string, name: string, args: seq<string>): (pod: PodSpec)
    ensures pod.volumes == Volumes(name)
    ensures |pod.containers| == 1
    ensures pod.containers[0].name == name
    ensures pod.containers[0].image == image
    ensures pod.containers[0].securityContext.privileged
    ensures pod.containers[0].command == [K3S_BINARY]
    ensures pod.containers[0].args == BASE_ARGS + args
    ensures pod.containers[0].volumeMounts == VolumeMounts()
  {
    var allArgs := ServerArgs(args);
    PodSpec(
      Volumes(name),
      [Container(name, image, SecurityContext(true), ["/bin/k3s"], allArgs, VolumeMounts())])
  }

  /** The Deployment of the bootstrap (`init`) or the peer server instances of
      `cluster`. `k3sImage` and `clusterNamespace` stand for the image and
      namespace helpers of k3k's util package, whose bodies are not part of
      this model. Go dereferences `Spec.Servers` before it tests `init`. */
  function Server(cluster: Cluster, init: bool, k3sImage: Cluster -> string, clusterNamespace: Cluster -> string): (d: Deployment)
    requires cluster.spec.servers.Some?
    ensures d.typeMeta == TypeMeta("Deployment", "apps/v1")
    ensures d.metadata.name == DeploymentName(cluster.metadata.name, init)
    ensures d.metadata.namespace == clusterNamespace(cluster)
    ensures d.spec.replicas == Replicas(cluster.spec.servers.value, init)
    ensures d.spec.selector.matchLabels == d.spec.template.metadata.labels
    ensures d.spec.template.metadata.labels == PodLabels(cluster.metadata.name, init)
    ensures d.spec.template.spec == ServerPodSpec(k3sImage(cluster), InstanceName(init), cluster.spec.serverArgs)
  {
    var image := k3sImage(cluster);
    var name := InstanceName(init);
    var replicas := Replicas(cluster.spec.servers.value, init);
    Deployment(
      TypeMeta("Deployment", "apps/v1"),
      ObjectMeta(cluster.metadata.name + "-" + name, clusterNamespace(cluster), map[]),
      DeploymentSpec(
        replicas,
        LabelSelector(map["cluster" := cluster.metadata.name, "role" := "server", "init" := FormatBool(init)]),
        PodTemplateSpec(
          ObjectMeta("", "", map["cluster" := cluster.metadata.name, "role" := "server", "init" := FormatBool(init)]),
          ServerPodSpec(image, name, cluster.spec.serverArgs))))
  }
}
