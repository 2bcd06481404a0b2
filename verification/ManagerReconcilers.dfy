/** The ClusterManager reconciler's methods, each proved against its function on the store. */
module ManagerReconcilers {
  import opened Api
  import opened Naming
  import opened Store
  import opened Children
  import opened Observation
  import opened Reconciling
  import opened ApiServers
  import opened Watching

  /** The working copy of a manager that the phases edit in place. */
  class ClusterManager {
    const key: Key
    const labels: map<string, string>
    const deleting: bool
    const aws: AwsSpec
    var annotations: map<string, string>
    var finalizers: set<string>
    var spec: Spec
    var status: Status

    function Value(): Manager
      reads this
    {
      Manager(labels, annotations, finalizers, deleting, spec, aws, status)
    }

    constructor (key: Key, m: Manager)
      ensures this.key == key && Value() == m
    {
      this.key, labels, deleting, aws := key, m.labels, m.deleting, m.aws;
      annotations, finalizers, spec, status := m.annotations, m.finalizers, m.spec, m.status;
    }

    method SetTypedPhase(phase: string)
      modifies this`status
      ensures Value() == SetPhase(old(Value()), phase)
    {
      status := status.(phase := phase);
    }
  }

  class ClusterManagerReconciler {
    const api: ApiServer

    constructor (api: ApiServer)
      ensures this.api == api
    {
      this.api := api;
    }

    method Reconcile(key: Key, remote: Remote) returns (answer: Answer)
      requires api.Valid()
      modifies api
      ensures api.Valid() && (api.State(), answer) == Reconciling.Reconcile(old(api.State()), key, remote)
    {
      var r := api.GetManager(key);
      if r.NotFound? {
        return Returned(ZERO, false);
      } else if r.Failed? {
        return Returned(ZERO, true);
      }
      var snapshot := r.value;
      var clm := new ClusterManager(key, snapshot);
      answer := ReconcileBody(clm, remote);
      ReconcilePhase(clm);
      var ok := api.Patch(key, snapshot, clm.Value());
      if !ok && answer.Returned? {
        answer := answer.(failed := true);
      }
    }

    method ReconcileBody(clm: ClusterManager, remote: Remote) returns (answer: Answer)
      requires api.Valid()
      modifies api, clm
      ensures api.Valid()
      ensures Out(api.State(), clm.Value(), answer) == Body(old(api.State()), clm.key, old(clm.Value()), remote)
    {
      if FINALIZER !in clm.finalizers {
        clm.finalizers := clm.finalizers + {FINALIZER};
        return Returned(ZERO, false);
      }
      if Lookup(clm.labels, LABEL_CLUSTER_TYPE) != TYPE_REGISTERED {
        if clm.deleting {
          clm.status := clm.status.(ready := false);
          answer := ReconcileDelete(clm);
          return;
        }
      }
      answer := ReconcilePhases(clm, remote);
    }

    /** The hand-written fold over the list of phases. */
    method ReconcilePhases(clm: ClusterManager, remote: Remote) returns (answer: Answer)
      requires api.Valid()
      modifies api, clm
      ensures api.Valid()
      ensures Out(api.State(), clm.Value(), answer)
           == RunPhases(PhasesOf(old(clm.Value())), old(api.State()), clm.key, old(clm.Value()), remote, ZERO, false)
    {
      hide RunPhase;
      var phases := [];
      if Lookup(clm.labels, LABEL_CLUSTER_TYPE) == TYPE_CREATED {
        phases := phases + [CreateCluster, CreateMachineDeployment, SetEndpoint,
                            ControlPlaneUpdate, MachineDeploymentUpdate];
      } else {
        phases := phases + [NoPhase];
      }
      phases := phases + [UpdateStatus];
      assert phases == PhasesOf(clm.Value());

      var res, failed := ZERO, false;
      ghost var all := RunPhases(phases, api.State(), clm.key, clm.Value(), remote, res, failed);
      for i := 0 to |phases|
        invariant api.Valid()
        invariant RunPhases(phases[i..], api.State(), clm.key, clm.Value(), remote, res, failed) == all
      {
        assert phases[i..][0] == phases[i] && phases[i..][1..] == phases[i + 1..];
        answer := Dispatch(phases[i], clm, remote);
        if answer.Panicked? {
          assert all == Out(api.State(), clm.Value(), answer);
          return;
        }
        if answer.failed {
          failed := true;
        }
        if failed {
          continue;
        }
        res := answer.result;
      }
      answer := Returned(res, failed);
    }

    method Dispatch(p: Phase, clm: ClusterManager, remote: Remote) returns (answer: Answer)
      requires api.Valid()
      modifies api, clm
      ensures api.Valid()
      ensures Out(api.State(), clm.Value(), answer)
           == RunPhase(p, old(api.State()), clm.key, old(clm.Value()), remote)
    {
      match p {
        case CreateCluster =>
          var r := CreateClusterPhase(clm);
          answer := Returned(r, false);
        case CreateMachineDeployment =>
          var r := CreateMachineDeploymentPhase(clm);
          answer := Returned(r, false);
        case SetEndpoint => answer := SetEndpointPhase(clm);
        case ControlPlaneUpdate => answer := KubeadmControlPlaneUpdate(clm);
        case MachineDeploymentUpdate => answer := MachineDeploymentUpdatePhase(clm);
        case NoPhase => answer := Returned(ZERO, false);
        case UpdateStatus => answer := UpdateClusterManagerStatus(clm, remote);
      }
    }

    method CreateClusterPhase(clm: ClusterManager) returns (res: Result)
      requires api.Valid()
      modifies api
      ensures api.Valid()
      ensures (api.State(), res) == Walk(old(api.State()), ControlPlaneLinks(clm.key, clm.Value()))
    {
      hide GetChild, Create, Walk;
      var key := clm.key;
      ghost var links := ControlPlaneLinks(key, clm.Value());

      WalkProceeds(api.State(), links, 0);
      var cluster := api.GetChild(ClusterKey(key));
      if cluster.NotFound? {
        var _ := api.Create(ClusterKey(key), ClusterForCAPI(key));
        return REQUEUE;
      } else if cluster.Failed? {
        return ZERO;
      }

      WalkProceeds(api.State(), links, 1);
      var aws := api.GetChild(AwsClusterKey(key));
      if aws.NotFound? {
        var _ := api.Create(AwsClusterKey(key), AwsClusterForCluster(key, clm.Value()));
        return REQUEUE;
      } else if aws.Failed? {
        return ZERO;
      }

      WalkProceeds(api.State(), links, 2);
      var kcp := api.GetChild(ControlPlaneKey(key));
      if kcp.NotFound? {
        var _ := api.Create(ControlPlaneKey(key), ControlPlaneForCluster(key, clm.Value()));
        return REQUEUE;
      }

      WalkProceeds(api.State(), links, 3);
      var template := api.GetChild(MasterTemplateKey(key));
      if template.NotFound? {
        var ok := api.Create(MasterTemplateKey(key), MachineTemplateForCluster(key, clm.Value()));
        if !ok {
          return ZERO;
        }
      }
      return ZERO;
    }

    method CreateMachineDeploymentPhase(clm: ClusterManager) returns (res: Result)
      requires api.Valid()
      modifies api
      ensures api.Valid()
      ensures (api.State(), res) == Walk(old(api.State()), WorkerLinks(clm.key, clm.Value()))
    {
      hide GetChild, Create, Walk;
      var key := clm.key;
      ghost var links := WorkerLinks(key, clm.Value());

      WalkProceeds(api.State(), links, 0);
      var md := api.GetChild(DeploymentKey(key));
      if md.NotFound? {
        var ok := api.Create(DeploymentKey(key), MachineDeploymentForCAPI(key, clm.Value()));
        if !ok {
          return ZERO;
        }
        return REQUEUE;
      } else if md.Failed? {
        return ZERO;
      }

      WalkProceeds(api.State(), links, 1);
      var template := api.GetChild(WorkerTemplateKey(key));
      if template.NotFound? {
        var ok := api.Create(WorkerTemplateKey(key), MachineTemplateForDeployment(key, clm.Value()));
        if !ok {
          return ZERO;
        }
        return REQUEUE;
      } else if template.Failed? {
        return ZERO;
      }

      WalkProceeds(api.State(), links, 2);
      var kct := api.GetChild(ConfigTemplateKey(key));
      if kct.NotFound? {
        var ok := api.Create(ConfigTemplateKey(key), ConfigTemplateForDeployment(key));
        if !ok {
          return ZERO;
        }
      } else if kct.Failed? {
        return ZERO;
      }
      return ZERO;
    }

    method SetEndpointPhase(clm: ClusterManager) returns (answer: Answer)
      requires api.Valid()
      modifies api, clm
      ensures api.Valid()
      ensures Out(api.State(), clm.Value(), answer) == FindEndpoint(old(api.State()), clm.key, old(clm.Value()))
    {
      if Lookup(clm.annotations, ANNOTATION_APISERVER) != "" {
        return Returned(ZERO, false);
      }
      var cluster := api.GetChild(ClusterKey(clm.key));
      if cluster.NotFound? {
        return Returned(WAIT_FOR_ENDPOINT, true);
      } else if cluster.Failed? {
        return Returned(ZERO, true);
      }
      if cluster.value.host == "" {
        return Returned(WAIT_FOR_ENDPOINT, false);
      }
      if clm.annotations == map[] {
        return Panicked;
      }
      clm.annotations := clm.annotations[ANNOTATION_APISERVER := cluster.value.host];
      return Returned(ZERO, false);
    }

    method KubeadmControlPlaneUpdate(clm: ClusterManager) returns (answer: Answer)
      requires api.Valid()
      modifies api, clm
      ensures api.Valid()
      ensures Out(api.State(), clm.Value(), answer) == PushControlPlane(old(api.State()), clm.key, old(clm.Value()))
    {
      var r := api.GetChild(ControlPlaneKey(clm.key));
      if r.NotFound? {
        return Returned(ZERO, false);
      } else if r.Failed? {
        return Returned(ZERO, true);
      }
      var before, kcp := r.value, r.value;
      if kcp.replicas.None? {
        return Panicked;
      }
      if kcp.replicas.value != Int32(clm.spec.masterNum) {
        kcp := kcp.(replicas := Some(Int32(clm.spec.masterNum)));
      }
      if kcp.version != clm.spec.version {
        kcp := kcp.(version := clm.spec.version);
      }
      clm.status := clm.status.(ready := true);
      var _ := api.PatchChildFrom(ControlPlaneKey(clm.key), before, kcp);
      return Returned(ZERO, false);
    }

    method MachineDeploymentUpdatePhase(clm: ClusterManager) returns (answer: Answer)
      requires api.Valid()
      modifies api, clm
      ensures api.Valid()
      ensures Out(api.State(), clm.Value(), answer) == PushDeployment(old(api.State()), clm.key, old(clm.Value()))
    {
      var r := api.GetChild(DeploymentKey(clm.key));
      if r.NotFound? {
        return Returned(ZERO, false);
      } else if r.Failed? {
        return Returned(ZERO, true);
      }
      var before, md := r.value, r.value;
      if md.workers.None? {
        return Panicked;
      }
      if md.workers.value != Int32(clm.spec.workerNum) {
        md := md.(workers := Some(Int32(clm.spec.workerNum)));
      }
      if md.templateVersion.None? {
        answer := Panicked;
      } else {
        if md.templateVersion.value != clm.spec.version {
          md := md.(templateVersion := Some(clm.spec.version));
        }
        answer := Returned(ZERO, false);
      }
      var _ := api.PatchChildFrom(DeploymentKey(clm.key), before, md);
    }

    method UpdateClusterManagerStatus(clm: ClusterManager, remote: Remote) returns (answer: Answer)
      modifies clm
      ensures (clm.Value(), answer) == Observe(old(clm.Value()), remote)
    {
      if clm.status.controlPlaneReady {
        return Returned(ZERO, false);
      }
      if !remote.secret {
        return Returned(WAIT_FOR_KUBECONFIG, false);
      }
      if !remote.client {
        return Returned(WAIT_FOR_KUBECONFIG, false);
      }
      if remote.config.None? {
        return Returned(ZERO, true);
      }
      var config := remote.config.value;
      if !config.decodes {
        return Returned(ZERO, true);
      }
      clm.spec := clm.spec.(version := config.version);
      if remote.nodes.None? {
        return Returned(ZERO, false);
      }
      var panicked := CountNodes(clm, remote.nodes.value);
      if panicked {
        return Panicked;
      }
      if clm.spec.provider == PROVIDER_UNKNOWN {
        if config.cloudProvider.Some? {
          var provider := ProviderName(config.cloudProvider.value);
          clm.status := clm.status.(provider := provider);
          clm.spec := clm.spec.(provider := provider);
        }
      }
      if remote.readyz.None? {
        return Returned(ZERO, true);
      }
      if remote.readyz.value == "ok" {
        clm.status := clm.status.(controlPlaneReady := true, ready := true);
      } else {
        clm.status := clm.status.(controlPlaneReady := false, ready := false);
        return Returned(WAIT_FOR_READY, false);
      }
      if clm.annotations == map[] {
        return Panicked;
      }
      clm.annotations := clm.annotations[ANNOTATION_SUFFIX := remote.suffix];
      return Returned(ZERO, false);
    }

    /** The loop over the remote cluster's nodes. */
    method CountNodes(clm: ClusterManager, nodes: seq<Node>) returns (panicked: bool)
      modifies clm
      ensures clm.Value() == Tally(old(clm.Value()), nodes)
      ensures panicked <==> FirstBare(nodes) < |nodes|
    {
      hide Tally, ProviderName, Text.Split;
      clm.spec := clm.spec.(masterNum := 0, workerNum := 0, provider := PROVIDER_UNKNOWN);
      clm.status := clm.status.(masterRun := 0, workerRun := 0, provider := PROVIDER_UNKNOWN);
      ghost var m := old(clm.Value());
      TallyEmpty(m);
      for i := 0 to |nodes|
        invariant forall j | 0 <= j < i :: nodes[j].conditions != []
        invariant clm.Value() == Tally(m, nodes[..i])
        invariant clm.status.provider == clm.spec.provider
      {
        var node := nodes[i];
        if IsMaster(node) {
          clm.spec := clm.spec.(masterNum := clm.spec.masterNum + 1);
        } else {
          clm.spec := clm.spec.(workerNum := clm.spec.workerNum + 1);
        }
        if node.conditions == [] {
          TallyPanics(m, nodes, i);
          return true;
        }
        if node.conditions[|node.conditions| - 1] == "Ready" {
          if IsMaster(node) {
            clm.status := clm.status.(masterRun := clm.status.masterRun + 1);
          } else {
            clm.status := clm.status.(workerRun := clm.status.workerRun + 1);
          }
        }
        TallyGrows(m, nodes, i);
        if clm.spec.provider == PROVIDER_UNKNOWN && node.providerID != "" {
          var provider := ProviderName(Text.Split(node.providerID, "://")[0]);
          clm.status := clm.status.(provider := provider);
          clm.spec := clm.spec.(provider := provider);
        }
      }
      assert nodes[..|nodes|] == nodes;
      return false;
    }

    method ReconcileDelete(clm: ClusterManager) returns (answer: Answer)
      requires api.Valid()
      modifies api, clm
      ensures api.Valid()
      ensures Out(api.State(), clm.Value(), answer) == TearDown(old(api.State()), clm.key, old(clm.Value()))
    {
      var cluster := api.GetChild(ClusterKey(clm.key));
      if cluster.NotFound? {
        clm.finalizers := clm.finalizers - {FINALIZER};
        return Returned(ZERO, false);
      } else if cluster.Failed? {
        return Returned(ZERO, false);
      }
      var ok := api.Delete(ClusterKey(clm.key));
      if !ok {
        return Returned(WAIT_FOR_TEARDOWN, false);
      }
      return Returned(WAIT_FOR_TEARDOWN, false);
    }

    method ReconcilePhase(clm: ClusterManager)
      modifies clm
      ensures clm.Value() == WithPhase(old(clm.Value()))
    {
      var registered := Lookup(clm.labels, LABEL_CLUSTER_TYPE) == TYPE_REGISTERED;
      if clm.status.phase == "" {
        if registered {
          clm.SetTypedPhase(PHASE_REGISTERING);
        } else {
          clm.SetTypedPhase(PHASE_REGISTERED);
        }
      }
      if clm.status.ready {
        if registered {
          clm.SetTypedPhase(PHASE_REGISTERED);
        } else {
          clm.SetTypedPhase(PHASE_PROVISIONED);
        }
      }
      if clm.deleting {
        clm.SetTypedPhase(PHASE_DELETING);
      }
    }

    /** Watch on Clusters. */
    method RequeueForCluster(cluster: Key, initialized: bool)
      requires api.Valid()
      modifies api
      ensures api.Valid() && api.State() == OnCluster(old(api.State()), cluster, initialized)
    {
      var r := api.GetManager(cluster);
      if r.Found? {
        var clm := new ClusterManager(cluster, r.value);
        clm.status := clm.status.(controlPlaneReady := initialized);
        var _ := api.Patch(cluster, r.value, clm.Value());
      }
    }

    /** Watch on KubeadmControlPlanes. */
    method RequeueForKubeadmControlPlane(kcp: Key, deleting: bool, replicas: int)
      requires api.Valid()
      modifies api
      ensures api.Valid() && api.State() == OnControlPlane(old(api.State()), kcp, deleting, replicas)
    {
      if deleting {
        return;
      }
      var key := Key(kcp.namespace, Text.Split(kcp.name, CONTROL_PLANE)[0]);
      var r := api.GetManager(key);
      if r.Found? {
        var clm := new ClusterManager(key, r.value);
        clm.status := clm.status.(masterRun := replicas);
        var _ := api.Patch(key, r.value, clm.Value());
      }
    }

    /** Watch on MachineDeployments. */
    method RequeueForMachineDeployment(md: Key, deleting: bool, replicas: int)
      requires api.Valid()
      modifies api
      ensures api.Valid() && api.State() == OnMachineDeployment(old(api.State()), md, deleting, replicas)
    {
      if deleting {
        return;
      }
      var key := Key(md.namespace, Text.Split(md.name, WORKERS)[0]);
      var r := api.GetManager(key);
      if r.Found? {
        var clm := new ClusterManager(key, r.value);
        clm.status := clm.status.(workerRun := replicas);
        var _ := api.Patch(key, r.value, clm.Value());
      }
    }
  }
}
