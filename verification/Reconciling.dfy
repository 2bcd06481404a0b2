/** The ClusterManager controller as functions on the store: the specification of the
    reconciler's methods. */
module Reconciling {
  import opened Api
  import opened Naming
  import opened Store
  import opened Children
  import opened Observation

  /** The store, the working copy of the manager, and how the code ended. */
  datatype Out = Out(sys: Sys, clm: Manager, answer: Answer)

  const WAIT_FOR_ENDPOINT := Result(false, 20)
  const WAIT_FOR_TEARDOWN := Result(false, 60)

  /** One pass over a chain: skip what exists, create the first object that does not, stop. */
  function Walk(s: Sys, links: seq<Link>): (Sys, Result)
    decreases |links|
  {
    if links == [] then (s, ZERO)
    else
      var (t, r) := GetChild(s, links[0].Ck());
      match r
      case NotFound =>
        var (u, ok) := Create(t, links[0].Ck(), links[0].child);
        (u, if ok then links[0].created else links[0].refused)
      case Failed => if links[0].stopOnError then (t, ZERO) else Walk(t, links[1..])
      case Found(_) => Walk(t, links[1..])
  }

  /** What a walk does with its first link, once that link has been read. */
  function Proceed(t: Sys, r: Reply<Child>, links: seq<Link>): (Sys, Result)
    requires links != []
  {
    match r
    case NotFound =>
      var (u, ok) := Create(t, links[0].Ck(), links[0].child);
      (u, if ok then links[0].created else links[0].refused)
    case Failed => if links[0].stopOnError then (t, ZERO) else Walk(t, links[1..])
    case Found(_) => Walk(t, links[1..])
  }

  lemma WalkProceeds(s: Sys, links: seq<Link>, i: nat)
    requires i < |links|
    ensures links[i..][1..] == links[i + 1..]
    ensures var (t, r) := GetChild(s, links[i].Ck());
            Walk(s, links[i..]) == Proceed(t, r, links[i..])
    ensures i == |links| - 1 ==> forall t :: Walk(t, links[i + 1..]) == (t, ZERO)
  {
  }

  function Annotate(m: Manager, k: string, v: string): Manager {
    m.(annotations := m.annotations[k := v])
  }

  function FindEndpoint(s: Sys, k: Key, m: Manager): Out {
    if Lookup(m.annotations, ANNOTATION_APISERVER) != "" then Out(s, m, Returned(ZERO, false))
    else
      var (t, r) := GetChild(s, ClusterKey(k));
      match r
      case NotFound => Out(t, m, Returned(WAIT_FOR_ENDPOINT, true))
      case Failed => Out(t, m, Returned(ZERO, true))
      case Found(c) =>
        if c.host == "" then Out(t, m, Returned(WAIT_FOR_ENDPOINT, false))
        else if m.annotations == map[] then Out(t, m, Panicked)
        else Out(t, Annotate(m, ANNOTATION_APISERVER, c.host), Returned(ZERO, false))
  }

  function Ready(m: Manager, ready: bool): Manager {
    m.(status := m.status.(ready := ready))
  }

  /** Size and version go down to the control plane; its existence makes the manager ready. */
  function PushControlPlane(s: Sys, k: Key, m: Manager): Out {
    var (t, r) := GetChild(s, ControlPlaneKey(k));
    match r
    case NotFound => Out(t, m, Returned(ZERO, false))
    case Failed => Out(t, m, Returned(ZERO, true))
    case Found(c) =>
      if c.replicas.None? then Out(t, m, Panicked)
      else
        var c' := c.(replicas := Some(Int32(m.spec.masterNum)), version := m.spec.version);
        var (u, _) := PatchChildObject(t, ControlPlaneKey(k), c, c');
        Out(u, Ready(m, true), Returned(ZERO, false))
  }

  function PushDeployment(s: Sys, k: Key, m: Manager): Out {
    var (t, r) := GetChild(s, DeploymentKey(k));
    match r
    case NotFound => Out(t, m, Returned(ZERO, false))
    case Failed => Out(t, m, Returned(ZERO, true))
    case Found(c) =>
      if c.workers.None? then Out(t, m, Panicked)
      else
        var c1 := c.(workers := Some(Int32(m.spec.workerNum)));
        var c2 := if c.templateVersion.None? then c1 else c1.(templateVersion := Some(m.spec.version));
        var (u, _) := PatchChildObject(t, DeploymentKey(k), c, c2);
        Out(u, m, if c.templateVersion.None? then Panicked else Returned(ZERO, false))
  }

  datatype Phase =
    | CreateCluster
    | CreateMachineDeployment
    | SetEndpoint
    | ControlPlaneUpdate
    | MachineDeploymentUpdate
    | NoPhase
    | UpdateStatus

  function PhasesOf(m: Manager): seq<Phase> {
    (if m.Type() == TYPE_CREATED then
       [CreateCluster, CreateMachineDeployment, SetEndpoint, ControlPlaneUpdate, MachineDeploymentUpdate]
     else [NoPhase]) + [UpdateStatus]
  }

  function RunPhase(p: Phase, s: Sys, k: Key, m: Manager, remote: Remote): Out {
    match p
    case CreateCluster =>
      var (t, r) := Walk(s, ControlPlaneLinks(k, m));
      Out(t, m, Returned(r, false))
    case CreateMachineDeployment =>
      var (t, r) := Walk(s, WorkerLinks(k, m));
      Out(t, m, Returned(r, false))
    case SetEndpoint => FindEndpoint(s, k, m)
    case ControlPlaneUpdate => PushControlPlane(s, k, m)
    case MachineDeploymentUpdate => PushDeployment(s, k, m)
    case NoPhase => Out(s, m, Returned(ZERO, false))
    case UpdateStatus =>
      var (m', a) := Observe(m, remote);
      Out(s, m', a)
  }

  /** The fold over the phases: a result is kept until the first error, every phase runs, and
      a panic ends it. */
  function RunPhases(phases: seq<Phase>, s: Sys, k: Key, m: Manager, remote: Remote, res: Result, failed: bool): Out {
    if phases == [] then Out(s, m, Returned(res, failed))
    else
      var o := RunPhase(phases[0], s, k, m, remote);
      if o.answer.Panicked? then o
      else
        var failed' := failed || o.answer.failed;
        RunPhases(phases[1..], o.sys, k, o.clm, remote, if failed' then res else o.answer.result, failed')
  }

  function TearDown(s: Sys, k: Key, m: Manager): Out {
    var (t, r) := GetChild(s, ClusterKey(k));
    match r
    case NotFound => Out(t, m.(finalizers := m.finalizers - {FINALIZER}), Returned(ZERO, false))
    case Failed => Out(t, m, Returned(ZERO, false))
    case Found(_) =>
      var (u, _) := Delete(t, ClusterKey(k));
      Out(u, m, Returned(WAIT_FOR_TEARDOWN, false))
  }

  predicate TearsDown(m: Manager) {
    m.Type() != TYPE_REGISTERED && m.deleting
  }

  function Body(s: Sys, k: Key, m: Manager, remote: Remote): Out {
    if FINALIZER !in m.finalizers then
      Out(s, m.(finalizers := m.finalizers + {FINALIZER}), Returned(ZERO, false))
    else if TearsDown(m) then TearDown(s, k, Ready(m, false))
    else RunPhases(PhasesOf(m), s, k, m, remote, ZERO, false)
  }

  function SetPhase(m: Manager, phase: string): Manager {
    m.(status := m.status.(phase := phase))
  }

  /** reconcilePhase. */
  function WithPhase(m: Manager): Manager {
    var registered := m.Type() == TYPE_REGISTERED;
    var m1 := if m.status.phase != "" then m
              else SetPhase(m, if registered then PHASE_REGISTERING else PHASE_REGISTERED);
    var m2 := if !m.status.ready then m1
              else SetPhase(m1, if registered then PHASE_REGISTERED else PHASE_PROVISIONED);
    if m.deleting then SetPhase(m2, PHASE_DELETING) else m2
  }

  /** The deferred part: compute the phase and patch what differs from the snapshot. */
  function Finish(o: Out, k: Key, snapshot: Manager): (Sys, Answer) {
    var (t, ok) := PatchObject(o.sys, k, snapshot, WithPhase(o.clm));
    (t, if o.answer.Panicked? then Panicked else Returned(o.answer.result, o.answer.failed || !ok))
  }

  function Reconcile(s: Sys, k: Key, remote: Remote): (Sys, Answer) {
    var (t, r) := GetManager(s, k);
    match r
    case NotFound => (t, Returned(ZERO, false))
    case Failed => (t, Returned(ZERO, true))
    case Found(m) => Finish(Body(t, k, m, remote), k, m)
  }
}
