# k3k control-plane Deployment builder

A Dafny model of the k3k server Deployment builder
(`pkg/controller/cluster/server/server.go`). Given a k3k `Cluster` record and
the bootstrap flag `init`, `Server` builds the `apps/v1` Deployment that runs
the embedded k3s server. It either builds the single bootstrap ("init")
instance, which initialises the cluster datastore, or the remaining peer
instances that join it. `serverPodSpec` assembles the pod that runs: one
privileged `/bin/k3s` container, its command line, seven volumes and seven
mounts. Both are pure functions in Go, and they are pure functions here.

Files:

- `go_runtime.dfy` (module `GoRuntime`): a nil-able Go pointer (`Option`),
  the `int32` type with Go's wrap-around subtraction, and `strconv.FormatBool`.
- `kube.dfy` (module `Kube`): the fields of the Kubernetes Deployment, PodSpec,
  Volume, VolumeMount and Container types that the builder sets, the k3k
  `Cluster` fields it reads, and `matchLabels` selection (`Selects`).
- `server.dfy` (module `ClusterServer`): `Server`, `ServerPodSpec` and the
  pieces they are made of (name, replica count, labels, arguments, volumes,
  mounts).
- `server_properties.dfy` (module `ServerProperties`): lemmas about the
  builder. The two modes never share a name or a selector. The replica counts
  add up to the requested server count. The storage wiring is consistent. The
  output depends only on the declared inputs.

The util helpers `util.K3SImage` and `util.ClusterNamespace` belong to a
package that is not part of this model. `Server` therefore takes them as
function parameters `k3sImage` and `clusterNamespace`.

Three facts about the code shape the model:

- Every mount, `config` included, is writable: the code sets
  `ReadOnly: false` on all seven (server.go:126-161), and `VolumeMounts`
  states that none is read-only.
- The code puts no lower bound on `*Spec.Servers` and computes
  `*Servers - 1` in `int32` (server.go:23). `Replicas` models that
  subtraction with Go's wrap-around: `Servers = 1` gives 0 peers,
  `MinInt32 < Servers <= 0` gives a negative count, and `Servers = MinInt32`
  wraps to `MaxInt32`. The lemma `ReplicasFillOutServers` states the split
  into one bootstrap replica and its peers for `Servers >= 1`.
- Go dereferences `Spec.Servers` before it tests `init` (server.go:23-26).
  Building even the bootstrap Deployment with a nil `Servers` therefore
  panics. `Server` requires `Servers` to be present in both modes.

## Model

| member | source | states |
|---|---|---|
| GoRuntime.Wrap32 | pkg/controller/cluster/server/server.go:23 | the result is the `int32` congruent to the mathematical value modulo 2^32, and equals it when it is in range |
| GoRuntime.Sub32 | pkg/controller/cluster/server/server.go:23 | `int32` subtraction is exact in range, wraps up by 2^32 on underflow and down by 2^32 on overflow |
| GoRuntime.FormatBool | pkg/controller/cluster/server/server.go:43 | the `init` label value is `"true"` exactly when the flag holds, else `"false"` |
| ClusterServer.InstanceName | pkg/controller/cluster/server/server.go:18-21 | the short instance name, used for the container and the config secret, is `k3k-init-server` exactly in bootstrap mode and `k3k-server` otherwise |
| ClusterServer.DeploymentName | pkg/controller/cluster/server/server.go:18-34 | the name is the cluster name followed by `-k3k-init-server` in bootstrap mode and by `-k3k-server` otherwise |
| ClusterServer.Replicas | pkg/controller/cluster/server/server.go:23-26 | bootstrap mode runs exactly 1 replica; peer mode runs `Servers - 1` with no clamping, wrapping to MaxInt32 at MinInt32 |
| ClusterServer.PodLabels | pkg/controller/cluster/server/server.go:46-52 | the labels are exactly `cluster` = cluster name, `role` = `server`, `init` = `"true"` or `"false"` |
| ClusterServer.ServerArgs | pkg/controller/cluster/server/server.go:61 | the arguments are `server --config /opt/rancher/k3s/config.yaml` followed by the caller's arguments in order; length is 3 plus theirs, and the multiset is the union, so nothing is dropped or deduplicated |
| ClusterServer.Volumes | pkg/controller/cluster/server/server.go:63-113 | seven volumes named config, run, varrun, varlibcni, varlibkubelet, varlibrancherk3s, varlog in that order; the first projects secret `name-config` with the single item `config.yaml -> config.yaml`, the rest are emptyDir |
| ClusterServer.VolumeMounts | pkg/controller/cluster/server/server.go:126-161 | seven mounts with the volume names in order at the fixed paths `/opt/rancher/k3s/`, `/run`, `/var/run`, `/var/lib/cni`, `/var/lib/kubelet`, `/var/lib/rancher/k3s`, `/var/log`, none read-only |
| ClusterServer.ServerPodSpec | pkg/controller/cluster/server/server.go:60-166 | the pod has the seven volumes and exactly one container, named after the instance, running the given image, privileged, with command `/bin/k3s`, the composed arguments and the seven mounts |
| ClusterServer.Server | pkg/controller/cluster/server/server.go:14-58 | the Deployment is kind `Deployment`, `apps/v1`, with the mode's name, the util namespace and the mode's replica count; its selector equals its pod labels; its pod spec is built from the util image, the short instance name and the cluster's `ServerArgs` |
| ServerProperties.InitAndPeerNamesNeverCollide | pkg/controller/cluster/server/server.go:18-34 | a bootstrap Deployment name never equals a peer Deployment name, for any two cluster names |
| ServerProperties.DeploymentNameIdentifies | pkg/controller/cluster/server/server.go:18-34 | two Deployment names are equal if and only if cluster name and mode are both equal |
| ServerProperties.ReplicasFillOutServers | pkg/controller/cluster/server/server.go:23-26 | for `Servers >= 1` the bootstrap replica plus the peer replicas equal `Servers`; `Servers = 1` gives 0 peers |
| ServerProperties.SelectorsSeparateClustersAndModes | pkg/controller/cluster/server/server.go:39-52 | one server label set selects another if and only if both have the same cluster and the same mode |
| ServerProperties.DeploymentSelectsOnlyItsOwnPods | pkg/controller/cluster/server/server.go:37-53 | a server Deployment's selector matches a server pod template if and only if both belong to the same cluster and the same mode |
| ServerProperties.ArgsStartWithServerConfig | pkg/controller/cluster/server/server.go:61 | for any caller arguments, even none, the command line opens with `server`, `--config`, `/opt/rancher/k3s/config.yaml` |
| ServerProperties.CallerArgsFollowPrefix | pkg/controller/cluster/server/server.go:61 | caller argument i sits at position 3 + i, after the fixed three-element prefix |
| ServerProperties.VolumeNamesDistinct | pkg/controller/cluster/server/server.go:63-161 | volume names are pairwise distinct, and so are mount names |
| ServerProperties.MountPathsDisjoint | pkg/controller/cluster/server/server.go:126-161 | no two mount paths are equal or nested one inside the other |
| ServerProperties.MountsMatchVolumes | pkg/controller/cluster/server/server.go:63-161 | there are seven mounts and seven volumes, and mount i names volume i |
| ServerProperties.ExactlyOneSecretVolume | pkg/controller/cluster/server/server.go:63-113 | a volume is secret-backed if and only if it is the first one |
| ServerProperties.ConfigArgumentReadsProjectedSecret | pkg/controller/cluster/server/server.go:61-130 | the `--config` file is the config mount path joined with the single item path that the `name-config` secret volume projects |
| ServerProperties.SecretNameIndependentOfCluster | pkg/controller/cluster/server/server.go:54-68 | the config secret volume is the same for every cluster in a mode, named `k3k-init-server-config` or `k3k-server-config` |
| ServerProperties.ServerDependsOnlyOnItsInputs | pkg/controller/cluster/server/server.go:14-58 | equal cluster names, `Servers`, `ServerArgs`, util image and namespace, and mode give equal Deployments, whatever the rest of the cluster record holds |
| ServerProperties.ExampleFooBootstrap | pkg/controller/cluster/server/server.go:14-61 | cluster `foo` with 3 servers and `--tls-san=1.2.3.4`, bootstrap mode: name `foo-k3k-init-server`, 1 replica, the four expected arguments |
| ServerProperties.ExampleFooPeers | pkg/controller/cluster/server/server.go:14-58 | the same cluster in peer mode: name `foo-k3k-server` and 2 replicas; a single-server cluster gets 0 peers |

## Left out

- The bodies of `util.K3SImage` and `util.ClusterNamespace` (server.go:16,35) are not part of this model. They are function parameters of `Server`, and the model assumes nothing about their results.
- The fields of the k3k `Cluster` record other than its metadata, `Servers` and `ServerArgs` are not part of this model; `Server` itself reads only the name, `Servers` and `ServerArgs`.
- `k3sImage` and `clusterNamespace` see only the modelled fields of the `Cluster` record, while the real util helpers receive the whole record (for instance fields that choose the k3s version); the model cannot express a helper result that depends on an unmodelled field.
- Go pointers that the builder always sets (`Replicas`, `Selector`, `SecurityContext`, `Privileged` through `pointer.BoolPtr`) are plain values.
- The builder dereferences two pointers: `cluster` itself (server.go:23,34,41,49,54) and `Spec.Servers` (server.go:23). `cluster` is a plain `Cluster` value here, so the model has no nil-cluster panic. `Spec.Servers` is an `Option`, and its nil case is a precondition because Go panics on it.
- A Go nil map and an empty map are not distinguished: metadata the builder leaves unset has the empty map and empty strings.
- The rest of the Kubernetes object schema, applying the Deployment to a cluster, and the reconciler that calls `Server` are not part of this model; they are API I/O outside this file.
