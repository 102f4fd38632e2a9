/** What the server Deployment builder guarantees: distinct identities and
    selectors for the two modes, the replica split, argument composition, and
    the shape of the storage wiring. */
module ServerProperties {
  import opened GoRuntime
  import opened Kube
  import opened ClusterServer

  /** No element occurs twice. */
  predicate Distinct<T(==)>(s: seq<T>)
  {
    forall i, j :: 0 <= i < j < |s| ==> s[i] != s[j]
  }

  /** A container path read as a directory, with exactly one trailing slash
      added when it has none. */
  function AsDir(path: string): string
  {
    if |path| > 0 && path[|path| - 1] == '/' then path else path + "/"
  }

  /** Two container paths overlap when one is the other or lies beneath it. */
  predicate Overlap(p: string, q: string)
  {
    AsDir(p) <= AsDir(q) || AsDir(q) <= AsDir(p)
  }

  /** An init Deployment and a peer Deployment never share a name, whichever
      clusters they belong to. */
  lemma InitAndPeerNamesNeverCollide(a: string, b: string)
    ensures DeploymentName(a, true) != DeploymentName(b, false)
  {
    var s, t := DeploymentName(a, true), DeploymentName(b, false);
    // Eleven characters from the end, s has the 'i' of "init-server" while
    // t has the dash of "-k3k-server".
    assert s[|s| - 11] == s[|a|..][5] == 'i';
    assert t[|t| - 11] == t[|b|..][0] == '-';
  }

  /** A Deployment name determines both the cluster and the mode. */
  lemma DeploymentNameIdentifies(a: string, b: string, initA: bool, initB: bool)
    ensures DeploymentName(a, initA) == DeploymentName(b, initB) <==> a == b && initA == initB
  {
    if DeploymentName(a, initA) == DeploymentName(b, initB) {
      if initA != initB {
        if initA {
          InitAndPeerNamesNeverCollide(a, b);
        } else {
          InitAndPeerNamesNeverCollide(b, a);
        }
      }
      assert |a| == |b|;
      assert a == DeploymentName(a, initA)[..|a|] == DeploymentName(b, initB)[..|b|] == b;
    }
  }

  /** With at least one server requested, the bootstrap instance and its peers
      add up to exactly the requested number; one server means zero peers. */
  lemma ReplicasFillOutServers(servers: Int32)
    requires servers >= 1
    ensures Replicas(servers, true) + Replicas(servers, false) == servers
    ensures servers == 1 ==> Replicas(servers, false) == 0
  {
  }

  /** The label sets of two server pod templates select each other exactly
      when they belong to the same cluster and the same mode. */
  lemma SelectorsSeparateClustersAndModes(a: string, b: string, initA: bool, initB: bool)
    ensures Selects(PodLabels(a, initA), PodLabels(b, initB)) <==> a == b && initA == initB
  {
    var la, lb := PodLabels(a, initA), PodLabels(b, initB);
    if Selects(la, lb) {
      assert "cluster" in la && "init" in la;
      assert la["cluster"] == lb["cluster"] && la["init"] == lb["init"];
    }
  }

  /** A server Deployment's selector matches its own pods and no pod of the
      other mode or of another cluster. */
  lemma DeploymentSelectsOnlyItsOwnPods(
    c1: Cluster, c2: Cluster, init1: bool, init2: bool,
    k3sImage: Cluster -> string, clusterNamespace: Cluster -> string)
    requires c1.spec.servers.Some? && c2.spec.servers.Some?
    ensures var d1, d2 := Server(c1, init1, k3sImage, clusterNamespace), Server(c2, init2, k3sImage, clusterNamespace);
      Selects(d1.spec.selector.matchLabels, d2.spec.template.metadata.labels)
      <==> c1.metadata.name == c2.metadata.name && init1 == init2
  {
    SelectorsSeparateClustersAndModes(c1.metadata.name, c2.metadata.name, init1, init2);
  }

  /** The command line always opens with `server --config` and the rendered
      configuration file, whatever the caller passes. */
  lemma ArgsStartWithServerConfig(extra: seq<string>)
    ensures |ServerArgs(extra)| >= 3
    ensures ServerArgs(extra)[0] == "server" && ServerArgs(extra)[1] == "--config"
    ensures ServerArgs(extra)[2] == CONFIG_FILE
  {
  }

  /** The caller's arguments follow the fixed prefix, each at its original
      position shifted by three. */
  lemma CallerArgsFollowPrefix(extra: seq<string>, i: nat)
    requires i < |extra|
    ensures ServerArgs(extra)[|BASE_ARGS| + i] == extra[i]
  {
  }

  /** The volumes have pairwise distinct names, and so do the mounts. */
  lemma VolumeNamesDistinct(name: string)
    ensures Distinct(seq(|Volumes(name)|, i requires 0 <= i < |Volumes(name)| => Volumes(name)[i].name))
    ensures Distinct(seq(|VolumeMounts()|, i requires 0 <= i < |VolumeMounts()| => VolumeMounts()[i].name))
  {
  }

  /** Two paths that differ at a position both have do not overlap. */
  lemma DivergeAt(p: string, q: string, k: nat)
    requires k < |p| && k < |q| && p[k] != q[k]
    ensures !Overlap(p, q)
  {
    assert AsDir(p)[k] == p[k] && AsDir(q)[k] == q[k];
  }

  /** No two mount paths coincide or nest inside one another, so no volume
      shadows another in the container. */
  lemma MountPathsDisjoint()
    ensures forall i, j :: 0 <= i < j < |VolumeMounts()| ==> !Overlap(VolumeMounts()[i].mountPath, VolumeMounts()[j].mountPath)
  {
    var ms := VolumeMounts();
    forall i, j | 0 <= i < j < |ms| ensures !Overlap(ms[i].mountPath, ms[j].mountPath) {
      // "/opt/..." and "/run" part from the rest at their second character,
      // "/var/run" at its sixth, "/var/log" at its seventh, and the three
      // paths under "/var/lib/" at their tenth.
      var k := if i <= 1 then 1 else if i == 2 then 5 else if j == 6 then 6 else 9;
      DivergeAt(ms[i].mountPath, ms[j].mountPath, k);
    }
  }

  /** Mount i of the container mounts volume i of the pod: the mounts and the
      volumes correspond one to one, in the same order. */
  lemma MountsMatchVolumes(image: string, name: string, args: seq<string>)
    ensures var pod := ServerPodSpec(image, name, args);
      |pod.containers[0].volumeMounts| == |pod.volumes| == 7
      && forall i :: 0 <= i < |pod.volumes| ==> pod.containers[0].volumeMounts[i].name == pod.volumes[i].name
  {
  }

  /** Only the first volume is backed by a secret; all others are scratch. */
  lemma ExactlyOneSecretVolume(name: string)
    ensures forall i :: 0 <= i < |Volumes(name)| ==> (Volumes(name)[i].source.SecretVolume? <==> i == 0)
  {
  }

  /** The file named by `--config` is the single item that the secret volume
      projects into the directory where that volume is mounted. */
  lemma ConfigArgumentReadsProjectedSecret(image: string, name: string, args: seq<string>)
    ensures var pod := ServerPodSpec(image, name, args);
      var c := pod.containers[0];
      && c.args[1] == "--config"
      && c.volumeMounts[0].name == pod.volumes[0].name
      && pod.volumes[0].source.SecretVolume?
      && pod.volumes[0].source.secretName == name + "-config"
      && |pod.volumes[0].source.items| == 1
      && c.args[2] == c.volumeMounts[0].mountPath + pod.volumes[0].source.items[0].path
  {
  }

  /** The configuration secret is named after the instance alone: it is the
      same for every cluster in the same mode. */
  lemma SecretNameIndependentOfCluster(
    c1: Cluster, c2: Cluster, init: bool,
    k3sImage: Cluster -> string, clusterNamespace: Cluster -> string)
    requires c1.spec.servers.Some? && c2.spec.servers.Some?
    ensures var v1, v2 := Server(c1, init, k3sImage, clusterNamespace).spec.template.spec.volumes,
                          Server(c2, init, k3sImage, clusterNamespace).spec.template.spec.volumes;
      v1[0] == v2[0] && v1[0].source.secretName == (if init then "k3k-init-server-config" else "k3k-server-config")
  {
  }

  /** The Deployment depends only on the cluster's name, `Servers` and
      `ServerArgs`, the image and namespace the util helpers give for it, and
      the mode; the rest of the cluster record is irrelevant. */
  lemma ServerDependsOnlyOnItsInputs(
    c1: Cluster, c2: Cluster, init: bool,
    k3sImage1: Cluster -> string, clusterNamespace1: Cluster -> string,
    k3sImage2: Cluster -> string, clusterNamespace2: Cluster -> string)
    requires c1.spec.servers.Some? && c1.spec == c2.spec
    requires c1.metadata.name == c2.metadata.name
    requires k3sImage1(c1) == k3sImage2(c2) && clusterNamespace1(c1) == clusterNamespace2(c2)
    ensures Server(c1, init, k3sImage1, clusterNamespace1) == Server(c2, init, k3sImage2, clusterNamespace2)
  {
  }

  /** Worked example: the bootstrap Deployment of cluster "foo", which asks
      for three servers and one extra argument. */
  lemma ExampleFooBootstrap(k3sImage: Cluster -> string, clusterNamespace: Cluster -> string)
    ensures var foo := Cluster(ObjectMeta("foo", "", map[]), ClusterSpec(Some(3), ["--tls-san=1.2.3.4"]));
      var d := Server(foo, true, k3sImage, clusterNamespace);
      && d.metadata.name == "foo-k3k-init-server"
      && d.spec.replicas == 1
      && d.spec.template.spec.containers[0].args == ["server", "--config", "/opt/rancher/k3s/config.yaml", "--tls-san=1.2.3.4"]
  {
  }

  /** Worked example: the peer Deployment of the same cluster runs two
      replicas, and with a single server it runs none. */
  lemma ExampleFooPeers(k3sImage: Cluster -> string, clusterNamespace: Cluster -> string)
    ensures var foo := Cluster(ObjectMeta("foo", "", map[]), ClusterSpec(Some(3), ["--tls-san=1.2.3.4"]));
      var d := Server(foo, false, k3sImage, clusterNamespace);
      d.metadata.name == "foo-k3k-server" && d.spec.replicas == 2
    ensures var single := Cluster(ObjectMeta("foo", "", map[]), ClusterSpec(Some(1), []));
      Server(single, false, k3sImage, clusterNamespace).spec.replicas == 0
  {
  }
}
