/** The work queue of one manager: when a reconcile asks to run again, and why the queue does
    not drain before everything is provisioned. */
module Queue {
  import opened Api
  import opened Naming
  import opened Store
  import opened Children
  import opened Observation
  import opened Reconciling
  import opened Traces
  import opened Safety
  import opened Provisioning
  import opened Convergence

  // ---------------------------------------------------------------------------------------
  // Asking to run again

  const CREATED_PHASES := [CreateCluster, CreateMachineDeployment, SetEndpoint,
                           ControlPlaneUpdate, MachineDeploymentUpdate]

  /** The phases before the status phase. */
  function Early(s: Sys, k: Key, m: Manager, remote: Remote): Out {
    RunPhases(CREATED_PHASES, s, k, m, remote, ZERO, false)
  }

  lemma {:induction false} PhasesSplit(a: seq<Phase>, p: Phase, s: Sys, k: Key, m: Manager, remote: Remote,
                                       res: Result, failed: bool)
    ensures var o := RunPhases(a, s, k, m, remote, res, failed);
            RunPhases(a + [p], s, k, m, remote, res, failed)
            == if o.answer.Panicked? then o
               else RunPhases([p], o.sys, k, o.clm, remote, o.answer.result, o.answer.failed)
    decreases |a|
  {
    hide RunPhase;
    if a == [] {
      assert a + [p] == [p];
    } else {
      var o := RunPhase(a[0], s, k, m, remote);
      assert (a + [p])[1..] == a[1..] + [p];
      if o.answer.Returned? {
        var failed' := failed || o.answer.failed;
        PhasesSplit(a[1..], p, o.sys, k, o.clm, remote, if failed' then res else o.answer.result, failed');
      }
    }
  }

  lemma {:induction false} EarlyKeepsReady(phases: seq<Phase>, s: Sys, k: Key, m: Manager, remote: Remote,
                                           res: Result, failed: bool)
    requires UpdateStatus !in phases
    ensures RunPhases(phases, s, k, m, remote, res, failed).clm.status.controlPlaneReady
         == m.status.controlPlaneReady
    decreases |phases|
  {
    hide GetChild, PatchChildObject, Walk, Observe;
    if phases != [] {
      var o := RunPhase(phases[0], s, k, m, remote);
      assert o.clm.status.controlPlaneReady == m.status.controlPlaneReady;
      if o.answer.Returned? {
        var failed' := failed || o.answer.failed;
        EarlyKeepsReady(phases[1..], o.sys, k, o.clm, remote, if failed' then res else o.answer.result, failed');
      }
    }
  }

  /** The body is the early phases and then the look at the remote cluster. */
  lemma BodyObserves(s: Sys, k: Key, m: Manager, remote: Remote)
    requires Provisionable(m)
    ensures var e := Early(s, k, m, remote);
            && e.clm.status.controlPlaneReady == m.status.controlPlaneReady
            && Body(s, k, m, remote)
               == if e.answer.Panicked? then e
                  else
                    var (c, a) := Observe(e.clm, remote);
                    Out(e.sys, c, if a.Panicked? then a
                                  else Returned(if e.answer.failed || a.failed then e.answer.result else a.result,
                                                e.answer.failed || a.failed))
  {
    hide RunPhase;
    var e := Early(s, k, m, remote);
    assert PhasesOf(m) == CREATED_PHASES + [UpdateStatus];
    PhasesSplit(CREATED_PHASES, UpdateStatus, s, k, m, remote, ZERO, false);
    EarlyKeepsReady(CREATED_PHASES, s, k, m, remote, ZERO, false);
    if e.answer.Returned? {
      OnePhase(e.sys, k, e.clm, remote, e.answer.result, e.answer.failed);
    }
  }

  lemma OnePhase(s: Sys, k: Key, m: Manager, remote: Remote, res: Result, failed: bool)
    ensures var (c, a) := Observe(m, remote);
            RunPhases([UpdateStatus], s, k, m, remote, res, failed)
            == Out(s, c, if a.Panicked? then a
                         else Returned(if failed || a.failed then res else a.result, failed || a.failed))
  {
    hide Observe;
    assert [UpdateStatus][1..] == [];
  }

  /** The kubeadm-config was read and decoded, but the node list was not. */
  predicate NodesUnread(remote: Remote) {
    remote.secret && remote.client && remote.config.Some? && remote.config.value.decodes && remote.nodes.None?
  }

  lemma ObserveAsks(m: Manager, remote: Remote)
    ensures var (c, a) := Observe(m, remote);
            && (m.status.controlPlaneReady ==> c == m && a == Returned(ZERO, false))
            && (!m.status.controlPlaneReady ==>
                  && (a.Returned? && !a.AsksAgain() && !c.status.controlPlaneReady <==> NodesUnread(remote))
                  && (c.status.controlPlaneReady ==> remote.readyz == Some("ok")))
  {
    hide Count, Provider, ProviderName, FirstBare;
  }

  /** The store when the endpoint, the control plane and the deployment are read. */
  function Walked(s: Sys, k: Key, m: Manager): Sys {
    Walk(Walk(s, ControlPlaneLinks(k, m)).0, WorkerLinks(k, m)).0
  }

  function Located(s: Sys, k: Key, m: Manager): Sys {
    FindEndpoint(Walked(s, k, m), k, m).sys
  }

  function Pushed(s: Sys, k: Key, m: Manager): Sys {
    PushControlPlane(Located(s, k, m), k, FindEndpoint(Walked(s, k, m), k, m).clm).sys
  }

  predicate NeedsEndpoint(m: Manager) {
    Lookup(m.annotations, ANNOTATION_APISERVER) == ""
  }

  /** One of the three reads that report errors does: of the Cluster, unless the endpoint is known,
      of the control plane, or of the deployment. */
  ghost predicate ReadFails(s: Sys, k: Key, m: Manager) {
    || (NeedsEndpoint(m) && !GetChild(Walked(s, k, m), ClusterKey(k)).1.Found?)
    || GetChild(Located(s, k, m), ControlPlaneKey(k)).1.Failed?
    || GetChild(Pushed(s, k, m), DeploymentKey(k)).1.Failed?
  }

  /** One of them finds what the code does not expect: an endpoint but no annotations to put it in,
      no replicas, or no version. */
  ghost predicate ReadPanics(s: Sys, k: Key, m: Manager) {
    || (NeedsEndpoint(m) && m.annotations == map[]
        && var r := GetChild(Walked(s, k, m), ClusterKey(k)).1; r.Found? && r.value.Cluster? && r.value.host != "")
    || (var r := GetChild(Located(s, k, m), ControlPlaneKey(k)).1;
        r.Found? && r.value.ControlPlane? && r.value.replicas.None?)
    || (var r := GetChild(Pushed(s, k, m), DeploymentKey(k)).1;
        r.Found? && r.value.MachineDeployment? && (r.value.workers.None? || r.value.templateVersion.None?))
  }

  lemma EarlyUnfolds(s: Sys, k: Key, m: Manager, remote: Remote)
    ensures var (t, r) := Walk(Walk(s, ControlPlaneLinks(k, m)).0, WorkerLinks(k, m));
            Early(s, k, m, remote)
            == RunPhases([SetEndpoint, ControlPlaneUpdate, MachineDeploymentUpdate], t, k, m, remote, r, false)
  {
    hide Walk, FindEndpoint, PushControlPlane, PushDeployment, Observe;
    var rest := [SetEndpoint, ControlPlaneUpdate, MachineDeploymentUpdate];
    assert CREATED_PHASES[1..] == [CreateMachineDeployment] + rest && CREATED_PHASES[1..][1..] == rest;
    var (t1, r1) := Walk(s, ControlPlaneLinks(k, m));
    assert RunPhases(CREATED_PHASES, s, k, m, remote, ZERO, false)
        == RunPhases(CREATED_PHASES[1..], t1, k, m, remote, r1, false);
    assert CREATED_PHASES[1..][0] == CreateMachineDeployment;
  }

  lemma FoldStep(p: Phase, rest: seq<Phase>, s: Sys, k: Key, m: Manager, remote: Remote, res: Result, failed: bool)
    ensures var o := RunPhase(p, s, k, m, remote);
            RunPhases([p] + rest, s, k, m, remote, res, failed)
            == if o.answer.Panicked? then o
               else
                 var failed' := failed || o.answer.failed;
                 RunPhases(rest, o.sys, k, o.clm, remote, if failed' then res else o.answer.result, failed')
  {
    hide RunPhase;
    assert ([p] + rest)[1..] == rest;
  }

  /** The fold over three phases: the first panic ends it, and any error is remembered. */
  lemma ThreePhases(p: Phase, q: Phase, h: Phase, s: Sys, k: Key, m: Manager, remote: Remote, res: Result)
    ensures var o1 := RunPhase(p, s, k, m, remote);
            var o2 := RunPhase(q, o1.sys, k, o1.clm, remote);
            var o3 := RunPhase(h, o2.sys, k, o2.clm, remote);
            var o := RunPhases([p, q, h], s, k, m, remote, res, false);
            if o1.answer.Panicked? then o == o1
            else if o2.answer.Panicked? then o == o2
            else if o3.answer.Panicked? then o == o3
            else o.sys == o3.sys && o.clm == o3.clm && o.answer.Returned?
                 && o.answer.failed == (o1.answer.failed || o2.answer.failed || o3.answer.failed)
  {
    hide RunPhase, RunPhases;
    var o1 := RunPhase(p, s, k, m, remote);
    var o2 := RunPhase(q, o1.sys, k, o1.clm, remote);
    var o3 := RunPhase(h, o2.sys, k, o2.clm, remote);
    FoldStep(p, [q, h], s, k, m, remote, res, false);
    assert [p, q, h] == [p] + [q, h] && [q, h] == [q] + [h] && [h] == [h] + [];
    if o1.answer.Returned? {
      var f1 := o1.answer.failed;
      var r1 := if f1 then res else o1.answer.result;
      FoldStep(q, [h], o1.sys, k, o1.clm, remote, r1, f1);
      if o2.answer.Returned? {
        var f2 := f1 || o2.answer.failed;
        var r2 := if f2 then r1 else o2.answer.result;
        FoldStep(h, [], o2.sys, k, o2.clm, remote, r2, f2);
        if o3.answer.Returned? {
          var f3 := f2 || o3.answer.failed;
          FoldEnds(o3.sys, k, o3.clm, remote, if f3 then r2 else o3.answer.result, f3);
        }
      }
    }
  }

  lemma FoldEnds(s: Sys, k: Key, m: Manager, remote: Remote, res: Result, failed: bool)
    ensures RunPhases([], s, k, m, remote, res, failed) == Out(s, m, Returned(res, failed))
  {
  }

  lemma ReadKind(s: Sys, ck: ChildKey)
    ensures var r := GetChild(s, ck).1; r.Found? ==> r.value.Kind() == ck.kind
  {
    hide Turn;
  }

  /** What the phases before the status phase answer, in terms of what they read. */
  lemma EarlyAnswers(s: Sys, k: Key, m: Manager, remote: Remote)
    ensures var e := Early(s, k, m, remote);
            && (e.answer.Panicked? <==> ReadPanics(s, k, m))
            && (e.answer.Returned? ==>
                  && (e.answer.failed <==> ReadFails(s, k, m))
                  && (e.clm.annotations == map[] <==> m.annotations == map[]))
  {
    hide Walk, GetChild, Early, FindEndpoint, PushControlPlane, PushDeployment, NeedsEndpoint;
    EarlyUnfolds(s, k, m, remote);
    var (t, r) := Walk(Walk(s, ControlPlaneLinks(k, m)).0, WorkerLinks(k, m));
    ThreePhases(SetEndpoint, ControlPlaneUpdate, MachineDeploymentUpdate, t, k, m, remote, r);
    var o1 := FindEndpoint(t, k, m);
    var o2 := PushControlPlane(o1.sys, k, o1.clm);
    var o3 := PushDeployment(o2.sys, k, o2.clm);
    EndpointAnswers(t, k, m);
    ControlPlaneAnswers(o1.sys, k, o1.clm);
    DeploymentAnswers(o2.sys, k, o2.clm);
  }

  lemma EndpointAnswers(s: Sys, k: Key, m: Manager)
    ensures var o, r := FindEndpoint(s, k, m), GetChild(s, ClusterKey(k)).1;
            && (o.answer.Panicked? <==>
                  NeedsEndpoint(m) && m.annotations == map[]
                  && r.Found? && r.value.Cluster? && r.value.host != "")
            && (o.answer.Returned? ==>
                  && (o.answer.failed <==> NeedsEndpoint(m) && !r.Found?)
                  && (o.clm.annotations == map[] <==> m.annotations == map[]))
  {
    hide GetChild;
    ReadKind(s, ClusterKey(k));
    var o := FindEndpoint(s, k, m);
    assert ANNOTATION_APISERVER in o.clm.annotations || o.clm.annotations == m.annotations;
  }

  lemma ControlPlaneAnswers(s: Sys, k: Key, m: Manager)
    ensures var o, r := PushControlPlane(s, k, m), GetChild(s, ControlPlaneKey(k)).1;
            && (o.answer.Panicked? <==> r.Found? && r.value.ControlPlane? && r.value.replicas.None?)
            && (o.answer.Returned? ==> (o.answer.failed <==> r.Failed?) && o.clm.annotations == m.annotations)
  {
    hide GetChild, PatchChildObject;
    ReadKind(s, ControlPlaneKey(k));
  }

  lemma DeploymentAnswers(s: Sys, k: Key, m: Manager)
    ensures var o, r := PushDeployment(s, k, m), GetChild(s, DeploymentKey(k)).1;
            && (o.answer.Panicked? <==>
                  r.Found? && r.value.MachineDeployment?
                  && (r.value.workers.None? || r.value.templateVersion.None?))
            && (o.answer.Returned? ==> (o.answer.failed <==> r.Failed?) && o.clm.annotations == m.annotations)
  {
    hide GetChild, PatchChildObject;
    ReadKind(s, DeploymentKey(k));
  }

  /** Never parks an unready control plane, exactly: for every outcome of all calls, the body of
      a provisionable, unready manager ends unready without asking to run again if and only if
      the node list failed, none of the reads before it did, and none of them panicked. */
  lemma ParksExactly(s: Sys, k: Key, m: Manager, remote: Remote)
    requires Provisionable(m) && !m.status.controlPlaneReady
    ensures var o := Body(s, k, m, remote);
            o.answer.Returned? && !o.answer.AsksAgain() && !o.clm.status.controlPlaneReady
            <==> NodesUnread(remote) && !ReadPanics(s, k, m) && !ReadFails(s, k, m)
  {
    hide Early, Observe, Body, ReadFails, ReadPanics;
    BodyObserves(s, k, m, remote);
    EarlyAnswers(s, k, m, remote);
    var e := Early(s, k, m, remote);
    var (c, a) := Observe(e.clm, remote);
    ObserveAsks(e.clm, remote);
  }

  /** A ready control plane, on the other hand, is looked at again only if one of the three reads
      failed: a child whose creation is refused is forgotten until something else wakes the
      controller. */
  lemma ReadyAsksOnlyOnError(s: Sys, k: Key, m: Manager, remote: Remote)
    requires Provisionable(m) && m.status.controlPlaneReady
    ensures Body(s, k, m, remote).answer.AsksAgain() <==> ReadFails(s, k, m) && !ReadPanics(s, k, m)
  {
    hide Early, Observe, Body, ReadFails, ReadPanics;
    BodyObserves(s, k, m, remote);
    EarlyAnswers(s, k, m, remote);
    var e := Early(s, k, m, remote);
    var (c, a) := Observe(e.clm, remote);
    ObserveAsks(e.clm, remote);
  }

  /** The status phase has nothing more to wait for: the manager is ready, or the node list could
      not be read, or the remote cluster is up. */
  ghost predicate ObserveRests(m: Manager, remote: Remote) {
    || m.status.controlPlaneReady
    || NodesUnread(remote)
    || (Readable(remote) && remote.readyz == Some("ok") && m.annotations != map[])
  }

  lemma ObserveRestsExactly(m: Manager, remote: Remote)
    ensures var a := Observe(m, remote).1; a.Returned? && !a.AsksAgain() <==> ObserveRests(m, remote)
  {
    hide Count, Provider, ProviderName;
    if remote.nodes.Some? {
      var nodes := remote.nodes.value;
      assert FirstBare(nodes) == |nodes| <==> forall n | n in nodes :: n.conditions != [] by {
        if FirstBare(nodes) < |nodes| {
          assert nodes[FirstBare(nodes)] in nodes;
        }
      }
    }
  }

  /** A whole reconcile, exactly: having read a provisionable manager it ends without an error, a
      delay or a panic if and only if no early read failed or panicked, the status phase rests,
      and the deferred patch went through. */
  ghost predicate Rests(s: Sys, k: Key, remote: Remote) {
    var (t, r) := GetManager(s, k);
    && r.Found? && Provisionable(r.value)
    && !ReadFails(t, k, r.value) && !ReadPanics(t, k, r.value) && ObserveRests(r.value, remote)
    && var o := Body(t, k, r.value, remote);
       PatchObject(o.sys, k, r.value, WithPhase(o.clm)).1
  }

  lemma RestsExactly(s: Sys, k: Key, remote: Remote)
    requires var r := GetManager(s, k).1; r.Found? && Provisionable(r.value)
    ensures var a := Reconcile(s, k, remote).1;
            a.Returned? && !a.AsksAgain() <==> Rests(s, k, remote)
  {
    hide GetManager, Early, Observe, Body, ReadFails, ReadPanics, PatchObject, WithPhase, ObserveRests;
    var (t, r) := GetManager(s, k);
    var m := r.value;
    BodyObserves(t, k, m, remote);
    EarlyAnswers(t, k, m, remote);
    var e := Early(t, k, m, remote);
    if e.answer.Returned? {
      ObserveRestsExactly(e.clm, remote);
      SameRests(e.clm, m, remote);
    }
  }

  lemma SameRests(c: Manager, m: Manager, remote: Remote)
    requires c.status.controlPlaneReady == m.status.controlPlaneReady
    requires c.annotations == map[] <==> m.annotations == map[]
    ensures ObserveRests(c, remote) <==> ObserveRests(m, remote)
  {
  }

  /** The same for a reconcile that leaves the control plane unready: it parks if and only if the
      node list failed, no early read did, and the deferred patch went through. */
  lemma ReconcileParksExactly(s: Sys, k: Key, remote: Remote)
    requires var r := GetManager(s, k).1;
             r.Found? && Provisionable(r.value) && !r.value.status.controlPlaneReady
    ensures var (t, r) := GetManager(s, k);
            var m, o, a := r.value, Body(t, k, r.value, remote), Reconcile(s, k, remote).1;
            a.Returned? && !a.AsksAgain() && !o.clm.status.controlPlaneReady
            <==> NodesUnread(remote) && !ReadPanics(t, k, m) && !ReadFails(t, k, m)
                 && PatchObject(o.sys, k, m, WithPhase(o.clm)).1
  {
    hide GetManager, Body, ReadFails, ReadPanics, PatchObject, WithPhase;
    var (t, r) := GetManager(s, k);
    ParksExactly(t, k, r.value, remote);
  }

  // ---------------------------------------------------------------------------------------
  // The queue of a fresh manager

  /** The update predicate of the watch on managers. */
  predicate WakesOnUpdate(old_: Manager, new_: Manager) {
    || (!old_.deleting && new_.deleting)
    || (old_.status.endpoint == "" && new_.status.endpoint != "")
    || (FINALIZER !in old_.finalizers && FINALIZER in new_.finalizers)
  }

  /** Some change logged between s and t passed the update predicate. */
  ghost predicate Woken(s: Sys, t: Sys, k: Key) {
    exists i | |s.past| <= i < |t.past| ::
      && k in t.At(i).managers && k in t.At(i + 1).managers
      && WakesOnUpdate(t.At(i).managers[k], t.At(i + 1).managers[k])
  }

  /** The store and whether k is on the queue (now or after a delay). */
  datatype Loop = Loop(sys: Sys, pending: bool)

  datatype Input = Input(remote: Remote, plan: seq<Tick>)

  /** One round takes k off the queue and reconciles it. A panic restarts the operator, and its
      informers deliver every manager anew. */
  ghost function Round(l: Loop, k: Key, input: Input): Loop {
    if !l.pending then l
    else
      var s := l.sys.(plan := input.plan);
      var (t, a) := Reconcile(s, k, input.remote);
      Loop(t, a.AsksAgain() || a.Panicked? || Woken(s, t, k))
  }

  ghost function Rounds(l: Loop, k: Key, inputs: seq<Input>): Loop {
    if inputs == [] then l else Round(Rounds(l, k, inputs[..|inputs| - 1]), k, inputs[|inputs| - 1])
  }

  function CpMissing(w: World, k: Key): nat {
    Missing(w, ControlPlaneChain(k))
  }

  /** Nobody reports the control plane as initialized before its chain exists. */
  ghost function HonestReports(k: Key): Rule {
    (w: World, m: Moment) =>
      m == Happened(StatusWritten(k, ControlPlaneReady(true)), m.world) ==> CpMissing(w, k) == 0
  }

  /** A round without faults and outside edits of k's life, in which readiness, reported by CAPI
      or by the remote API server, appears only after the control-plane chain exists. */
  ghost predicate GoodRound(l: Loop, k: Key, input: Input) {
    var s := l.sys.(plan := input.plan);
    var t := Reconcile(s, k, input.remote).0;
    && Calm(s, Settled(k)) && PlanOf(s.plan, Steady(k))
    && !NodesUnread(input.remote)
    && Steps(s, t, HonestReports(k))
    && (input.remote.readyz == Some("ok") ==> CpMissing(t.Now(), k) == 0)
  }

  ghost predicate GoodRun(l: Loop, k: Key, inputs: seq<Input>) {
    forall i | 0 <= i < |inputs| ::
      Rounds(l, k, inputs[..i]).pending ==> GoodRound(Rounds(l, k, inputs[..i]), k, inputs[i])
  }

  /** A manager that nothing has happened to yet. */
  ghost predicate Fresh(w: World, k: Key) {
    && Alive(k)(w) && FINALIZER !in w.managers[k].finalizers && !w.managers[k].status.controlPlaneReady
    && forall ck | IsChildOf(ck, k) :: ck !in w.children
  }

  /** Readiness in the store is backed by the chain. */
  ghost predicate Truthful(k: Key, w: World) {
    k in w.managers && w.managers[k].status.controlPlaneReady ==> CpMissing(w, k) == 0
  }

  ghost function Both(r1: Rule, r2: Rule): Rule {
    (w: World, m: Moment) => r1(w, m) && r2(w, m)
  }

  lemma PrefixSteps(s: Sys, t: Sys, u: Sys, rule: Rule)
    requires Steps(s, u, rule) && Grows(s, t) && Grows(t, u)
    ensures Steps(s, t, rule) && Steps(t, u, rule)
  {
    forall i | |s.past| <= i < |t.past| ensures rule(t.At(i), t.past[i]) {
      assert t.past[i] == u.past[i] && t.At(i) == u.At(i);
    }
  }

  lemma OthersTruthful(k: Key, w: World, m: Moment)
    requires Truthful(k, w) && Others(Settled(k))(w, m) && HonestReports(k)(w, m)
    ensures Truthful(k, m.world) && SameKids(k, w, m.world)
  {
    hide Apply, Missing, IsChildOf;
    var w' := m.world;
    OthersKeepKids(k, w, m.event);
    ChainsAreChildren(k);
    GapCongruent(k, w, w', ControlPlaneChain(k));
    EventTouches(k, w, m.event);
  }

  lemma BuildTruthful(k: Key, m0: Manager, w: World, m: Moment)
    requires Truthful(k, w) && BuildStep(k, m0, w, m)
    ensures Truthful(k, m.world)
  {
    hide IsChildOf, Template, Missing;
    assert w.children.Keys <= m.world.children.Keys;
    ChainsAreChildren(k);
    StayingShrinks(k, w, m.world, ControlPlaneChain(k));
  }

  lemma StepsTruthful(s: Sys, t: Sys, k: Key, m: Manager, rule: Rule)
    requires Steps(s, t, rule) && Steps(s, t, HonestReports(k)) && Truthful(k, s.Now())
    requires forall w, e :: rule(w, e) ==> Others(Settled(k))(w, e) || BuildStep(k, m, w, e)
    ensures Truthful(k, t.Now())
  {
    var inv := (w: World) => Truthful(k, w);
    var both := Both(rule, HonestReports(k));
    forall w, e | inv(w) && both(w, e) ensures inv(e.world) {
      if Others(Settled(k))(w, e) {
        OthersTruthful(k, w, e);
      } else {
        BuildTruthful(k, m, w, e);
      }
    }
    Throughout(s, t, both, inv, |t.past|);
  }

  /** The deferred patch writes readiness only if the body found it, which is when the chain exists. */
  lemma PatchTruthful(s: Sys, t: Sys, k: Key, m: Manager, a: Manager)
    requires Steps(s, t, Patches(k, m, a, Settled(k))) && Steps(s, t, HonestReports(k)) && Truthful(k, s.Now())
    requires a.status.controlPlaneReady && !m.status.controlPlaneReady ==> CpMissing(t.Now(), k) == 0
    ensures Truthful(k, t.Now()) && SameKids(k, s.Now(), t.Now())
  {
    var rule := Patches(k, m, a, Settled(k));
    forall w, e | rule(w, e) ensures Childless(Settled(k))(w, e) {
      if !Others(Settled(k))(w, e) {
        PatchLeavesChildren(k, m, a, w, e);
      }
    }
    StepsWeaken(s, t, rule, Childless(Settled(k)));
    ChildlessKeepsKids(s, t, k);
    var w0 := s.Now();
    ChainsAreChildren(k);
    GapCongruent(k, w0, t.Now(), ControlPlaneChain(k));
    var inv := (w: World) => Truthful(k, w) && SameKids(k, w0, w);
    var both := Both(rule, HonestReports(k));
    forall w, e | inv(w) && both(w, e) ensures inv(e.world) {
      GapCongruent(k, w0, w, ControlPlaneChain(k));
      if Others(Settled(k))(w, e) {
        OthersTruthful(k, w, e);
      } else {
        PatchLeavesChildren(k, m, a, w, e);
        PatchReadiness(k, m, a, w, e);
        GapCongruent(k, w, e.world, ControlPlaneChain(k));
      }
    }
    Throughout(s, t, both, inv, |t.past|);
  }

  lemma PatchReadiness(k: Key, m: Manager, a: Manager, w: World, e: Moment)
    requires PatchStep(k, m, a, w, e)
    ensures k in e.world.managers && e.world.managers[k].status.controlPlaneReady ==>
              && k in w.managers
              && (w.managers[k].status.controlPlaneReady
                  || (a.status.controlPlaneReady && !m.status.controlPlaneReady))
  {
    hide MergeMap, MergeSpec;
  }

  /** The control-plane chain is never ahead of the worker chain by the time it is complete. */
  predicate InStep(w: World, k: Key) {
    var cp, wk := CpMissing(w, k), Missing(w, WorkerChain(k));
    cp > wk || (cp == 0 && wk == 0)
  }

  /** What holds between rounds. */
  ghost predicate Stable(l: Loop, k: Key) {
    var w := l.sys.Now();
    Alive(k)(w) && InStep(w, k) && Truthful(k, w) && (l.pending || AllExist(w, k))
  }

  /** The first part of a round: the read and the body. */
  lemma BodyTruthful(s: Sys, k: Key, remote: Remote)
    requires Calm(s, Settled(k)) && PlanOf(s.plan, Steady(k)) && Alive(k)(s.Now()) && Truthful(k, s.Now())
    requires Steps(s, Reconcile(s, k, remote).0, HonestReports(k))
    ensures var (t, r) := GetManager(s, k);
            && r.Found? && k in t.Now().managers && t.Now().managers[k] == r.value
            && Alive(k)(t.Now()) && SameKids(k, s.Now(), t.Now()) && Truthful(k, t.Now())
            && PlanOf(t.plan, Settled(k)) && PlanOf(t.plan, Steady(k))
            && (FINALIZER in r.value.finalizers <==> FINALIZER in s.Now().managers[k].finalizers)
            && var o := Body(t, k, r.value, remote);
               && Truthful(k, o.sys.Now()) && Alive(k)(o.sys.Now())
               && PlanOf(o.sys.plan, Settled(k)) && PlanOf(o.sys.plan, Steady(k))
               && Grows(s, t) && Grows(t, o.sys)
  {
    hide GetManager, Body, PatchObject, WithPhase, Truthful, SameKids;
    var (t, r) := GetManager(s, k);
    ReadFinds(s, k);
    var m := r.value;
    var o := Body(t, k, m, remote);
    BodyBuilds(t, k, m, remote, Settled(k));
    BodyBuilds(t, k, m, remote, Steady(k));
    GentleSteps(t, o.sys, k, Builds(k, m, Steady(k)));
    var after := WithPhase(o.clm);
    var u := PatchObject(o.sys, k, m, after).0;
    PatchSteps(o.sys, k, m, after, Settled(k));
    GetManagerSteps(s, k, Settled(k), Reads(Settled(k)));
    GrowsJoin(t, o.sys, u);
    PrefixSteps(s, t, u, HonestReports(k));
    PrefixSteps(t, o.sys, u, HonestReports(k));
    StepsTruthful(s, t, k, m, Reads(Settled(k)));
    StepsTruthful(t, o.sys, k, m, Builds(k, m, Settled(k)));
  }

  lemma GrowsJoin(s: Sys, t: Sys, u: Sys)
    requires Grows(s, t) && Grows(t, u)
    ensures Grows(s, u)
  {
  }

  lemma ReadFinds(s: Sys, k: Key)
    requires Calm(s, Settled(k)) && PlanOf(s.plan, Steady(k)) && Alive(k)(s.Now())
    ensures var (t, r) := GetManager(s, k);
            && r.Found? && k in t.Now().managers && t.Now().managers[k] == r.value
            && Alive(k)(t.Now()) && SameKids(k, s.Now(), t.Now())
            && PlanOf(t.plan, Settled(k)) && PlanOf(t.plan, Steady(k))
            && (FINALIZER in r.value.finalizers <==> FINALIZER in s.Now().managers[k].finalizers)
  {
    hide Turn;
    CalmRead(s, k);
    GetManagerSteps(s, k, Steady(k), Reads(Steady(k)));
    GetManagerSteps(s, k, Settled(k), Reads(Settled(k)));
    TurnSteps(s, Steady(k));
    GentleSteps(s, Turn(s), k, Others(Steady(k)));
    FinalizerStays(s, Turn(s), k);
    assert s.Next().outcome == Served;
  }

  lemma FinalizerStays(s: Sys, t: Sys, k: Key)
    requires Steps(s, t, Others(Steady(k))) && Alive(k)(s.Now())
    ensures Alive(k)(t.Now())
    ensures FINALIZER in t.Now().managers[k].finalizers <==> FINALIZER in s.Now().managers[k].finalizers
  {
    var f := FINALIZER in s.Now().managers[k].finalizers;
    var inv := (w: World) => Alive(k)(w) && (FINALIZER in w.managers[k].finalizers <==> f);
    forall w, m | inv(w) && Others(Steady(k))(w, m) ensures inv(m.world) {
      OthersLeaveAlive(k, w, m.event);
    }
    Throughout(s, t, Others(Steady(k)), inv, |t.past|);
  }

  /** The first round puts the finalizer on, and that change wakes the queue. */
  lemma FinalizerWakes(s: Sys, t: Sys, k: Key, m: Manager, a: Manager)
    requires Grows(s, t) && Calm(t, Settled(k)) && PlanOf(t.plan, Steady(k)) && Alive(k)(t.Now())
    requires FINALIZER !in t.Now().managers[k].finalizers && FINALIZER !in m.finalizers
    requires a.finalizers == m.finalizers + {FINALIZER}
    ensures var (u, ok) := SendMain(t, k, m, a);
            && ok && Armed(k)(u.Now()) && Woken(s, u, k) && Grows(t, u) && Grows(s, u)
            && PlanOf(u.plan, Steady(k)) && PlanOf(u.plan, Settled(k))
  {
    hide Turn, MergeMap, MergeSpec;
    TurnSteps(t, Steady(k));
    FinalizerStays(t, Turn(t), k);
    SendMainSteps(t, k, m, a, Steady(k));
    SendMainSteps(t, k, m, a, Settled(k));
    var v := Turn(t);
    var u := SendMain(t, k, m, a).0;
    assert t.Next().outcome == Served;
    var x := v.Now().managers[k];
    assert u == v.Log(Called(PatchManager(k), true, PutManager(v.Now(), k, MergeMain(m, a, x))));
    assert u.At(|v.past|) == v.Now() && u.At(|v.past| + 1) == u.Now();
    assert WakesOnUpdate(u.At(|v.past|).managers[k], u.At(|v.past| + 1).managers[k]);
  }

  lemma WokenGrows(s: Sys, t: Sys, u: Sys, k: Key)
    requires Woken(s, t, k) && Grows(s, t) && Grows(t, u)
    ensures Woken(s, u, k)
  {
    var i :| |s.past| <= i < |t.past| && k in t.At(i).managers && k in t.At(i + 1).managers
             && WakesOnUpdate(t.At(i).managers[k], t.At(i + 1).managers[k]);
    assert u.At(i) == t.At(i) && u.At(i + 1) == t.At(i + 1);
  }

  lemma KidsInStep(k: Key, w: World, w': World)
    requires SameKids(k, w, w')
    ensures CpMissing(w', k) == CpMissing(w, k) && Missing(w', WorkerChain(k)) == Missing(w, WorkerChain(k))
  {
    ChainsAreChildren(k);
    GapCongruent(k, w, w', ControlPlaneChain(k));
    GapCongruent(k, w, w', WorkerChain(k));
  }

  lemma FirstRound(l: Loop, k: Key, input: Input)
    requires Stable(l, k) && l.pending && GoodRound(l, k, input)
    requires FINALIZER !in l.sys.Now().managers[k].finalizers
    ensures var l' := Round(l, k, input);
            Stable(l', k) && l'.pending && Armed(k)(l'.sys.Now()) && SameKids(k, l.sys.Now(), l'.sys.Now())
  {
    hide GetManager, Body, WithPhase, Truthful, SameKids, Woken, InStep, SendMain, SendStatus, CpMissing, Missing;
    var s := l.sys.(plan := input.plan);
    assert s.Now() == l.sys.Now();
    BodyTruthful(s, k, input.remote);
    CalmRead(s, k);
    var (t, r) := GetManager(s, k);
    var m := r.value;
    BodyAdds(t, k, m, input.remote);
    var o := Body(t, k, m, input.remote);
    var after := WithPhase(o.clm);
    PhaseIsStatus(o.clm);
    FinalizerWakes(s, t, k, m, after);
    var u := SendMain(t, k, m, after).0;
    var v := SendStatus(u, k, m, after).0;
    SendStatusSteps(u, k, m, after, Steady(k));
    StatusIsGentle(u, v, k, m, after);
    WokenGrows(s, u, v, k);
    PatchSteps(t, k, m, after, Settled(k));
    PrefixSteps(s, t, v, HonestReports(k));
    PatchTruthful(t, v, k, m, after);
    SameKidsJoin(k, s.Now(), t.Now(), v.Now());
    KidsInStep(k, s.Now(), v.Now());
    InStepCongruent(k, s.Now(), v.Now());
    assert Reconcile(s, k, input.remote).0 == v;
  }

  lemma InStepCongruent(k: Key, w: World, w': World)
    requires CpMissing(w', k) == CpMissing(w, k) && Missing(w', WorkerChain(k)) == Missing(w, WorkerChain(k))
    ensures InStep(w', k) <==> InStep(w, k)
  {
  }

  lemma SameKidsJoin(k: Key, w: World, w1: World, w2: World)
    requires SameKids(k, w, w1) && SameKids(k, w1, w2)
    ensures SameKids(k, w, w2)
  {
  }

  lemma StatusIsGentle(u: Sys, v: Sys, k: Key, m: Manager, a: Manager)
    requires Steps(u, v, Patches(k, m, a, Steady(k))) && Armed(k)(u.Now())
    requires FINALIZER in a.finalizers
    ensures Armed(k)(v.Now()) && Alive(k)(v.Now())
  {
    forall w, e | Alive(k)(w) && Patches(k, m, a, Steady(k))(w, e) ensures Gentle(k, w, e) {
      if !Others(Steady(k))(w, e) {
        PatchIsGentle(k, m, a, w, e);
      }
    }
    GentleSteps(u, v, k, Patches(k, m, a, Steady(k)));
  }

  lemma LaterRound(l: Loop, k: Key, input: Input)
    requires Stable(l, k) && l.pending && GoodRound(l, k, input)
    requires FINALIZER in l.sys.Now().managers[k].finalizers
    ensures var l' := Round(l, k, input); var w, w' := l.sys.Now(), l'.sys.Now();
            && Stable(l', k) && Armed(k)(w')
            && CpMissing(w', k) == Less(CpMissing(w, k))
            && Missing(w', WorkerChain(k)) == Less(Missing(w, WorkerChain(k)))
  {
    hide GetManager, Body, WithPhase, Truthful, SameKids, Woken, Missing, PatchObject, Observe, Early;
    var s := l.sys.(plan := input.plan);
    assert s.Now() == l.sys.Now();
    var w := s.Now();
    BodyTruthful(s, k, input.remote);
    var (t, r) := GetManager(s, k);
    var m := r.value;
    assert Provisionable(m);
    var o := Body(t, k, m, input.remote);
    var after := WithPhase(o.clm);
    PhaseIsStatus(o.clm);
    var u := PatchObject(o.sys, k, m, after).0;
    PatchSteps(o.sys, k, m, after, Settled(k));
    ReconcileShrinks(s, k, input.remote);
    ReconcileKeepsAlive(s, k, input.remote);
    AlwaysAtEnd(s, u, k);
    KidsInStep(k, w, t.Now());
    BodyReadiness(t, k, m, input.remote);
    GrowsJoin(s, t, o.sys);
    PrefixSteps(s, o.sys, u, HonestReports(k));
    PatchTruthful(o.sys, u, k, m, after);
    if !m.status.controlPlaneReady {
      ParksExactly(t, k, m, input.remote);
    } else {
      assert CpMissing(t.Now(), k) == 0 by { TruthfulMeans(k, t.Now()); }
    }
  }

  lemma TruthfulMeans(k: Key, w: World)
    requires Truthful(k, w)
    ensures k in w.managers && w.managers[k].status.controlPlaneReady ==> CpMissing(w, k) == 0
  {
  }

  lemma AlwaysAtEnd(s: Sys, t: Sys, k: Key)
    requires Always(s, t, Armed(k))
    ensures Armed(k)(t.Now())
  {
    assert Armed(k)(t.At(|t.past|));
  }

  lemma BodyReadiness(t: Sys, k: Key, m: Manager, remote: Remote)
    requires Provisionable(m)
    ensures var o := Body(t, k, m, remote);
            o.clm.status.controlPlaneReady && !m.status.controlPlaneReady ==> remote.readyz == Some("ok")
  {
    hide Early, Observe, Body;
    BodyObserves(t, k, m, remote);
    ObserveAsks(Early(t, k, m, remote).clm, remote);
  }

  // ---------------------------------------------------------------------------------------
  // The provisioning queue under faults

  /** The round-th round of the run has the property. */
  ghost predicate InRound(l: Loop, k: Key, inputs: seq<Input>, p: (Loop, Input) -> bool, round: nat)
    requires round < |inputs|
  {
    p(Rounds(l, k, inputs[..round]), inputs[round])
  }

  ghost predicate Somewhere(l: Loop, k: Key, inputs: seq<Input>, p: (Loop, Input) -> bool) {
    exists round: nat | round < |inputs| :: InRound(l, k, inputs, p, round)
  }

  lemma OneMoreRound(l: Loop, k: Key, inputs: seq<Input>, p: (Loop, Input) -> bool)
    requires inputs != []
    ensures var n := |inputs| - 1;
            Somewhere(l, k, inputs, p)
            <==> Somewhere(l, k, inputs[..n], p) || p(Rounds(l, k, inputs[..n]), inputs[n])
  {
    hide Rounds;
    var n := |inputs| - 1;
    var init := inputs[..n];
    forall i: nat | i < n ensures InRound(l, k, inputs, p, i) == InRound(l, k, init, p, i) {
      assert init[..i] == inputs[..i];
    }
    if Somewhere(l, k, init, p) {
      var i: nat :| i < n && InRound(l, k, init, p, i);
      assert InRound(l, k, inputs, p, i);
    }
    if p(Rounds(l, k, init), inputs[n]) {
      assert InRound(l, k, inputs, p, n);
    }
  }

  lemma NoRounds(l: Loop, k: Key, p: (Loop, Input) -> bool)
    ensures !Somewhere(l, k, [], p)
  {
  }

  /** A patch that adds the finalizer and is answered without an error wakes the queue. */
  lemma ServedFinalizerWakes(s: Sys, t: Sys, k: Key, m: Manager, a: Manager)
    requires Grows(s, t) && PlanOf(t.plan, Steady(k)) && Alive(k)(t.Now())
    requires FINALIZER !in t.Now().managers[k].finalizers && FINALIZER !in m.finalizers
    requires a.finalizers == m.finalizers + {FINALIZER} && PatchObject(t, k, m, a).1
    ensures Woken(s, PatchObject(t, k, m, a).0, k)
  {
    hide Turn, MergeMap, MergeSpec, SendStatus, Apply, Woken;
    var v := Turn(t);
    TurnSteps(t, Steady(k));
    FinalizerStays(t, v, k);
    var u, w := SendMain(t, k, m, a).0, PatchObject(t, k, m, a).0;
    assert !SameMain(m, a) && SendMain(t, k, m, a).1;
    assert Woken(s, u, k) by { AddingWakes(s, t, k, m, a); }
    assert PlanOf(t.plan, AnyEvent);
    SendMainSteps(t, k, m, a, AnyEvent);
    SendStatusSteps(u, k, m, a, AnyEvent);
    GrowsJoin(s, t, u);
    WokenGrows(s, u, w, k);
  }

  lemma AddingWakes(s: Sys, t: Sys, k: Key, m: Manager, a: Manager)
    requires Grows(s, Turn(t)) && k in Turn(t).Now().managers && !Turn(t).Now().managers[k].deleting
    requires FINALIZER !in Turn(t).Now().managers[k].finalizers && FINALIZER !in m.finalizers
    requires a.finalizers == m.finalizers + {FINALIZER} && SendMain(t, k, m, a).1
    ensures Woken(s, SendMain(t, k, m, a).0, k)
  {
    hide Turn, MergeMap, MergeSpec;
    var v, u := Turn(t), SendMain(t, k, m, a).0;
    var x := v.Now().managers[k];
    var y := MergeMain(m, a, x);
    assert u == v.Log(Called(PatchManager(k), true, PutManager(v.Now(), k, y)));
    assert u.At(|v.past|) == v.Now() && u.At(|v.past| + 1) == u.Now();
    assert WakesOnUpdate(u.At(|v.past|).managers[k], u.At(|v.past| + 1).managers[k]);
  }

  /** The round ends with k off the queue. */
  ghost predicate Drains(l: Loop, k: Key, input: Input) {
    var s := l.sys.(plan := input.plan);
    l.pending && Rests(s, k, input.remote) && !Woken(s, Reconcile(s, k, input.remote).0, k)
  }

  /** The read of a manager that is alive. */
  lemma AliveRead(s: Sys, k: Key)
    requires PlanOf(s.plan, Steady(k)) && Alive(k)(s.Now())
    ensures var (t, r) := GetManager(s, k);
            && Grows(s, t) && PlanOf(t.plan, Steady(k)) && Alive(k)(t.Now()) && !r.NotFound?
            && (r.Found? ==> k in t.Now().managers && t.Now().managers[k] == r.value)
  {
    hide Apply;
    GetManagerSteps(s, k, Steady(k), Reads(Steady(k)));
    var t := GetManager(s, k).0;
    forall w, e | Alive(k)(w) && Reads(Steady(k))(w, e) ensures Gentle(k, w, e) {
      IdleIsGentle(k, w, e);
    }
    GentleSteps(s, t, k, Reads(Steady(k)));
  }

  lemma RoundDrains(l: Loop, k: Key, input: Input)
    requires l.pending && PlanOf(input.plan, Steady(k)) && Alive(k)(l.sys.Now())
    ensures var l' := Round(l, k, input); Alive(k)(l'.sys.Now()) && (!l'.pending <==> Drains(l, k, input))
  {
    hide GetManager, Body, PatchObject, WithPhase, Woken, ReadFails, ReadPanics, ObserveRests;
    var s := l.sys.(plan := input.plan);
    assert s.Now() == l.sys.Now();
    ReconcileKeepsAlive(s, k, input.remote);
    AliveRead(s, k);
    var (t, r) := GetManager(s, k);
    if r.Found? {
      if Provisionable(r.value) {
        RestsExactly(s, k, input.remote);
      } else {
        var m := r.value;
        BodyAdds(t, k, m, input.remote);
        var c := m.(finalizers := m.finalizers + {FINALIZER});
        PhaseIsStatus(c);
        if PatchObject(t, k, m, WithPhase(c)).1 {
          ServedFinalizerWakes(s, t, k, m, WithPhase(c));
        }
      }
    }
  }

  /** The round drains the queue and leaves a child missing. */
  ghost function Strands(k: Key): (Loop, Input) -> bool {
    (l: Loop, input: Input) => Drains(l, k, input) && !AllExist(Round(l, k, input).sys.Now(), k)
  }

  /** The provisioning queue, exactly: in every run of rounds of a manager that nobody deletes, with
      any faults, the queue is empty while a child is missing if and only if one round drained it so:
      no early read failed or panicked, the status phase rested, the patch went through, and
      nothing woke it. */
  lemma {:induction false} ProvisioningDrives(l: Loop, k: Key, inputs: seq<Input>)
    requires l.pending && Alive(k)(l.sys.Now())
    requires forall input | input in inputs :: PlanOf(input.plan, Steady(k))
    ensures var l' := Rounds(l, k, inputs);
            && Alive(k)(l'.sys.Now())
            && (!l'.pending && !AllExist(l'.sys.Now(), k) <==> Somewhere(l, k, inputs, Strands(k)))
  {
    hide Round, Drains, AllExist, Somewhere, Steady;
    if inputs != [] {
      var n := |inputs| - 1;
      var init, l1 := inputs[..n], Rounds(l, k, inputs[..n]);
      assert inputs[n] in inputs && forall x | x in init :: x in inputs;
      ProvisioningDrives(l, k, init);
      OneMoreRound(l, k, inputs, Strands(k));
      if l1.pending {
        RoundDrains(l1, k, inputs[n]);
      } else {
        RoundIdle(l1, k, inputs[n]);
        assert !Drains(l1, k, inputs[n]) by { IdleDrainsNot(l1, k, inputs[n]); }
      }
    } else {
      NoRounds(l, k, Strands(k));
    }
  }

  lemma IdleDrainsNot(l: Loop, k: Key, input: Input)
    requires !l.pending
    ensures !Drains(l, k, input)
  {
  }

  // ---------------------------------------------------------------------------------------
  // Convergence without faults

  /** Self-driven convergence: starting from a fresh manager on the queue, in every run of rounds
      without faults and outside edits, the queue never drains before all seven children exist,
      and five rounds are enough. */
  lemma {:induction false} SelfDriven(l: Loop, k: Key, inputs: seq<Input>)
    requires Fresh(l.sys.Now(), k) && l.pending && GoodRun(l, k, inputs)
    ensures var l' := Rounds(l, k, inputs);
            && Stable(l', k)
            && (l'.pending || AllExist(l'.sys.Now(), k))
            && (|inputs| >= 1 ==> Armed(k)(l'.sys.Now()))
            && CpMissing(l'.sys.Now(), k) <= Minus(5, |inputs|)
            && (|inputs| >= 5 ==> AllExist(l'.sys.Now(), k))
  {
    hide Round, GoodRound, Truthful, Missing;
    if inputs == [] {
      FreshStable(l, k);
    } else {
      var n := |inputs| - 1;
      var init := inputs[..n];
      forall i | 0 <= i < n && Rounds(l, k, init[..i]).pending
        ensures GoodRound(Rounds(l, k, init[..i]), k, init[i])
      {
        assert init[..i] == inputs[..i];
      }
      SelfDriven(l, k, init);
      var l1 := Rounds(l, k, init);
      if l1.pending {
        assert GoodRound(l1, k, inputs[n]);
        if n == 0 {
          FirstRound(l1, k, inputs[n]);
          KidsInStep(k, l.sys.Now(), Round(l1, k, inputs[n]).sys.Now());
          FreshStable(l, k);
        } else {
          LaterRound(l1, k, inputs[n]);
        }
      } else {
        RoundIdle(l1, k, inputs[n]);
      }
    }
  }

  lemma RoundIdle(l: Loop, k: Key, input: Input)
    requires !l.pending
    ensures Round(l, k, input) == l
  {
  }

  lemma FreshStable(l: Loop, k: Key)
    requires Fresh(l.sys.Now(), k) && l.pending
    ensures Stable(l, k) && CpMissing(l.sys.Now(), k) == 4
  {
    var w := l.sys.Now();
    ChainsAreChildren(k);
    AllMissing(w, ControlPlaneChain(k));
    AllMissing(w, WorkerChain(k));
  }

  lemma {:induction false} AllMissing(w: World, keys: seq<ChildKey>)
    requires forall ck | ck in keys :: ck !in w.children
    ensures Missing(w, keys) == |keys|
  {
    if keys != [] { AllMissing(w, keys[1..]); }
  }
}
