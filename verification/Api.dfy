/** The objects in the management cluster's store that the two controllers read and write. */
module Api {
  datatype Option<+T> = None | Some(value: T)

  datatype Key = Key(namespace: string, name: string)

  /** ctrl.Result; `after` is RequeueAfter in seconds. */
  datatype Result = Result(requeue: bool, after: int) {
    predicate IsZero() {
      this == Result(false, 0)
    }
  }

  const ZERO := Result(false, 0)
  const REQUEUE := Result(true, 0)

  const FINALIZER := "clustermanager.cluster.sseung.com/finalizer"
  const LABEL_CLUSTER_TYPE := "clustermanager.cluster.sseung.com/cluster-type"
  const LABEL_CLAIM := "clustermanager.cluster.sseung.com/clc-name"
  const TYPE_CREATED := "created"
  const TYPE_REGISTERED := "registered"
  const ANNOTATION_APISERVER := "clustermanager.cluster.sseung.com/apiserver"
  const ANNOTATION_SUFFIX := "clustermanager.cluster.sseung.com/suffix"
  const ANNOTATION_DOMAIN := "clustermanager.cluster.sseung.com/domain"

  const CLAIM_AWAITING := "Awaiting"
  const CLAIM_APPROVED := "Approved"
  const CLAIM_CLUSTER_DELETED := "ClusterDeleted"

  const PHASE_REGISTERING := "Registering"
  const PHASE_REGISTERED := "Registered"
  const PHASE_PROVISIONED := "Provisioned"
  const PHASE_DELETING := "Deleting"

  /** A lookup in a Go map: a missing key reads as the empty string. */
  function Lookup(m: map<string, string>, k: string): string {
    if k in m then m[k] else ""
  }

  /** Go's conversion of an int to int32. */
  function Int32(n: int): (r: int)
    ensures -0x8000_0000 <= r < 0x8000_0000
    ensures (r - n) % 0x1_0000_0000 == 0
    ensures -0x8000_0000 <= n < 0x8000_0000 ==> r == n
  {
    (n + 0x8000_0000) % 0x1_0000_0000 - 0x8000_0000
  }

  datatype Spec = Spec(provider: string, version: string, masterNum: int, workerNum: int)

  datatype AwsSpec = AwsSpec(region: string, sshKey: string, masterType: string, workerType: string)

  datatype Status = Status(
    provider: string,
    ready: bool,
    controlPlaneReady: bool,
    masterRun: int,
    workerRun: int,
    phase: string,
    endpoint: string)

  const NEW_STATUS := Status("", false, false, 0, 0, "", "")

  /** A stored ClusterManager; its key is the key it is stored under. A nil annotation map
      and an empty one are the same stored object, and are read back as nil. */
  datatype Manager = Manager(
    labels: map<string, string>,
    annotations: map<string, string>,
    finalizers: set<string>,
    deleting: bool,
    spec: Spec,
    aws: AwsSpec,
    status: Status)
  {
    function Type(): string {
      Lookup(labels, LABEL_CLUSTER_TYPE)
    }
  }

  datatype Claim = Claim(
    phase: string,
    reason: string,
    clusterName: string,
    annotations: map<string, string>,
    spec: Spec,
    aws: AwsSpec,
    revision: nat)

  datatype Kind =
    | ClusterKind
    | AwsClusterKind
    | ControlPlaneKind
    | MachineTemplateKind
    | MachineDeploymentKind
    | ConfigTemplateKind

  datatype ChildKey = ChildKey(kind: Kind, key: Key)

  /** An object reference, resolved in the namespace of the object that holds it. */
  datatype Ref = Ref(kind: Kind, name: string)

  datatype Child =
    | Cluster(controlPlaneRef: Ref, infrastructureRef: Ref, host: string, initialized: bool, deleting: bool)
    | AwsCluster(owner: Ref, region: string, sshKey: string)
    | ControlPlane(owner: Ref, machines: Ref, replicas: Option<int>, version: string, running: int)
    | MachineTemplate(owner: Ref, instanceType: string, sshKey: string)
    | MachineDeployment(clusterName: string, bootstrap: Ref, machines: Ref,
                        workers: Option<int>, templateVersion: Option<string>, running: int)
    | ConfigTemplate(owner: Ref)
  {
    function Kind(): Kind {
      match this
      case Cluster(_, _, _, _, _) => ClusterKind
      case AwsCluster(_, _, _) => AwsClusterKind
      case ControlPlane(_, _, _, _, _) => ControlPlaneKind
      case MachineTemplate(_, _, _) => MachineTemplateKind
      case MachineDeployment(_, _, _, _, _, _) => MachineDeploymentKind
      case ConfigTemplate(_) => ConfigTemplateKind
    }
  }

  ghost predicate WellKinded(m: map<ChildKey, Child>) {
    forall ck | ck in m :: m[ck].Kind() == ck.kind
  }

  /** Objects are stored under their own kind. */
  type ChildMap = m: map<ChildKey, Child> | WellKinded(m) witness map[]

  /** What the API server holds. `ours` is a history variable: the children whose stored
      incarnation was created by the ClusterManager controller. `gone` lists the removed
      managers whose delete notification has not been delivered yet; `revisions` is the last
      resourceVersion handed to a claim. */
  datatype World = World(
    managers: map<Key, Manager>,
    claims: map<Key, Claim>,
    children: ChildMap,
    ours: set<ChildKey>,
    gone: seq<(Key, Manager)>,
    revisions: nat)

  /** How one run of a reconciler ended: it returned, with or without an error, or it panicked. */
  datatype Answer = Returned(result: Result, failed: bool) | Panicked {
    /** controller-runtime puts the key back on the queue. */
    predicate AsksAgain() {
      Returned? && (failed || result.requeue || result.after > 0)
    }
  }
}
