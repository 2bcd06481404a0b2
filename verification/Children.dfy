/** The seven children a manager's cluster is made of, and the two chains that create them. */
module Children {
  import opened Api
  import opened Naming

  function ClusterForCAPI(k: Key): Child {
    Cluster(Ref(ControlPlaneKind, k.name + CONTROL_PLANE), Ref(AwsClusterKind, k.name), "", false, false)
  }

  function AwsClusterForCluster(k: Key, m: Manager): Child {
    AwsCluster(Ref(ClusterKind, k.name), m.aws.region, m.aws.sshKey)
  }

  function ControlPlaneForCluster(k: Key, m: Manager): Child {
    ControlPlane(Ref(ClusterKind, k.name), Ref(MachineTemplateKind, k.name + CONTROL_PLANE),
                 Some(Int32(m.spec.masterNum)), m.spec.version, 0)
  }

  function MachineTemplateForCluster(k: Key, m: Manager): Child {
    MachineTemplate(Ref(ClusterKind, k.name), m.aws.masterType, m.aws.sshKey)
  }

  function MachineDeploymentForCAPI(k: Key, m: Manager): Child {
    MachineDeployment(k.name, Ref(ConfigTemplateKind, k.name + WORKERS), Ref(MachineTemplateKind, k.name + WORKERS),
                      Some(Int32(m.spec.workerNum)), Some(m.spec.version), 0)
  }

  function MachineTemplateForDeployment(k: Key, m: Manager): Child {
    MachineTemplate(Ref(MachineDeploymentKind, k.name + WORKERS), m.aws.workerType, m.aws.sshKey)
  }

  function ConfigTemplateForDeployment(k: Key): Child {
    ConfigTemplate(Ref(MachineDeploymentKind, k.name + WORKERS))
  }

  /** One object of a chain: what it is, whether a failed read ends the phase, and what the
      phase answers after trying to create it. */
  datatype Link = Link(key: Key, child: Child, stopOnError: bool, created: Result, refused: Result) {
    function Ck(): ChildKey {
      ChildKey(child.Kind(), key)
    }
  }

  /** CreateCluster. A failed read of the control plane or its template does not end the phase. */
  function ControlPlaneLinks(k: Key, m: Manager): seq<Link> {
    [ Link(k, ClusterForCAPI(k), true, REQUEUE, REQUEUE),
      Link(k, AwsClusterForCluster(k, m), true, REQUEUE, REQUEUE),
      Link(Suffix(k, CONTROL_PLANE), ControlPlaneForCluster(k, m), false, REQUEUE, REQUEUE),
      Link(Suffix(k, CONTROL_PLANE), MachineTemplateForCluster(k, m), false, ZERO, ZERO) ]
  }

  /** CreateMachineDeployment. */
  function WorkerLinks(k: Key, m: Manager): seq<Link> {
    [ Link(Suffix(k, WORKERS), MachineDeploymentForCAPI(k, m), true, REQUEUE, ZERO),
      Link(Suffix(k, WORKERS), MachineTemplateForDeployment(k, m), true, REQUEUE, ZERO),
      Link(Suffix(k, WORKERS), ConfigTemplateForDeployment(k), true, ZERO, ZERO) ]
  }

  function Keys(links: seq<Link>): (keys: seq<ChildKey>)
    ensures |keys| == |links|
    ensures forall i | 0 <= i < |links| :: keys[i] == links[i].Ck()
  {
    seq(|links|, i requires 0 <= i < |links| => links[i].Ck())
  }

  /** The links are the seven children. */
  lemma LinksAreChildren(k: Key, m: Manager)
    ensures Keys(ControlPlaneLinks(k, m)) == ControlPlaneChain(k)
    ensures Keys(WorkerLinks(k, m)) == WorkerChain(k)
  {
  }

  /** The object a child was created as. */
  function Template(ck: ChildKey, k: Key, m: Manager): (c: Child)
    requires IsChildOf(ck, k)
    ensures c.Kind() == ck.kind
  {
    match ck.kind
    case ClusterKind => ClusterForCAPI(k)
    case AwsClusterKind => AwsClusterForCluster(k, m)
    case ControlPlaneKind => ControlPlaneForCluster(k, m)
    case MachineTemplateKind =>
      if ck == MasterTemplateKey(k) then MachineTemplateForCluster(k, m) else MachineTemplateForDeployment(k, m)
    case MachineDeploymentKind => MachineDeploymentForCAPI(k, m)
    case ConfigTemplateKind => ConfigTemplateForDeployment(k)
  }

  lemma LinkIsTemplate(k: Key, m: Manager, l: Link)
    requires l in ControlPlaneLinks(k, m) || l in WorkerLinks(k, m)
    ensures IsChildOf(l.Ck(), k) && l.child == Template(l.Ck(), k, m)
  {
    LinksAreChildren(k, m);
    NamesDiffer(k.name, k.name);
    assert MasterTemplateKey(k) != WorkerTemplateKey(k);
  }
}
