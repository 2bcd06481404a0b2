/** The steady state: with everything in place and nobody else acting, one reconcile brings size
    and version down to the children, and no later one changes anything. */
module SteadyState {
  import opened Api
  import opened Naming
  import opened Store
  import opened Children
  import opened Observation
  import opened Reconciling
  import opened Provisioning

  lemma QuietGetChild(s: Sys, ck: ChildKey)
    requires s.plan == []
    ensures var (t, r) := GetChild(s, ck);
            && t.plan == [] && t.Now() == s.Now()
            && r == if ck in s.Now().children then Found(s.Now().children[ck]) else NotFound
  {
    QuietTurn(s);
  }

  lemma {:induction false} QuietWalk(s: Sys, links: seq<Link>)
    requires s.plan == [] && forall l | l in links :: l.Ck() in s.Now().children
    ensures var (t, r) := Walk(s, links); t.plan == [] && t.Now() == s.Now() && r == ZERO
    decreases |links|
  {
    hide GetChild, Create;
    if links != [] {
      WalkProceeds(s, links, 0);
      assert links[0..] == links;
      QuietGetChild(s, links[0].Ck());
      QuietWalk(GetChild(s, links[0].Ck()).0, links[1..]);
    }
  }

  lemma QuietPatchChild(s: Sys, ck: ChildKey, before: Child, after: Child)
    requires s.plan == [] && ck in s.Now().children && s.Now().children[ck] == before
    requires after == MergeChild(before, after, before) && after.Kind() == ck.kind
    ensures var (t, ok) := PatchChildObject(s, ck, before, after);
            && t.plan == [] && ok && t.Now() == AddChild(s.Now(), ck, after)
  {
    QuietTurn(s);
    if before == after {
      assert s.Now().children == s.Now().children[ck := after];
    }
  }

  /** Everything is there and can be resized, and if the endpoint is about to be annotated there
      are annotations to add it to. */
  ghost predicate Complete(k: Key, w: World) {
    && AllExist(w, k)
    && k in w.managers && Provisionable(w.managers[k])
    && w.managers[k].status.controlPlaneReady
    && ControlPlaneKey(k) in w.children && w.children[ControlPlaneKey(k)].ControlPlane?
    && w.children[ControlPlaneKey(k)].replicas.Some?
    && DeploymentKey(k) in w.children && w.children[DeploymentKey(k)].MachineDeployment?
    && w.children[DeploymentKey(k)].workers.Some? && w.children[DeploymentKey(k)].templateVersion.Some?
    && ClusterKey(k) in w.children && w.children[ClusterKey(k)].Cluster?
    && (Lookup(w.managers[k].annotations, ANNOTATION_APISERVER) == "" && w.children[ClusterKey(k)].host != "" ==>
          w.managers[k].annotations != map[])
  }

  function SizedControlPlane(c: Child, m: Manager): Child
    requires c.ControlPlane?
  {
    c.(replicas := Some(Int32(m.spec.masterNum)), version := m.spec.version)
  }

  function SizedDeployment(c: Child, m: Manager): Child
    requires c.MachineDeployment?
  {
    c.(workers := Some(Int32(m.spec.workerNum)), templateVersion := Some(m.spec.version))
  }

  /** The children with the manager's size and version. */
  ghost function Sized(k: Key, w: World): World
    requires Complete(k, w)
  {
    var m := w.managers[k];
    var w1 := AddChild(w, ControlPlaneKey(k), SizedControlPlane(w.children[ControlPlaneKey(k)], m));
    AddChild(w1, DeploymentKey(k), SizedDeployment(w.children[DeploymentKey(k)], m))
  }

  /** The manager as one quiet reconcile leaves it. */
  ghost function Settle(k: Key, w: World): Manager
    requires Complete(k, w)
  {
    var m := w.managers[k];
    var host := w.children[ClusterKey(k)].host;
    var m1 := if Lookup(m.annotations, ANNOTATION_APISERVER) != "" || host == "" then m
              else Annotate(m, ANNOTATION_APISERVER, host);
    SetPhase(Ready(m1, true), PHASE_PROVISIONED)
  }

  lemma QuietEndpoint(s: Sys, k: Key)
    requires s.plan == [] && Complete(k, s.Now())
    ensures var m := s.Now().managers[k]; var o := FindEndpoint(s, k, m);
            && o.sys.plan == [] && o.sys.Now() == s.Now() && o.answer.Returned? && !o.answer.failed
            && SetPhase(Ready(o.clm, true), PHASE_PROVISIONED) == Settle(k, s.Now())
            && o.clm.spec == m.spec && o.clm.status == m.status
  {
    hide GetChild, AllExist;
    QuietGetChild(s, ClusterKey(k));
  }

  lemma QuietPushControlPlane(s: Sys, k: Key, m: Manager)
    requires s.plan == [] && Complete(k, s.Now())
    ensures var w := s.Now(); var o := PushControlPlane(s, k, m);
            && o.sys.plan == []
            && o.sys.Now() == AddChild(w, ControlPlaneKey(k), SizedControlPlane(w.children[ControlPlaneKey(k)], m))
            && o.clm == Ready(m, true) && o.answer == Returned(ZERO, false)
  {
    hide GetChild, PatchChildObject, AllExist;
    QuietGetChild(s, ControlPlaneKey(k));
    var c := s.Now().children[ControlPlaneKey(k)];
    QuietPatchChild(GetChild(s, ControlPlaneKey(k)).0, ControlPlaneKey(k), c, SizedControlPlane(c, m));
  }

  lemma QuietPushDeployment(s: Sys, k: Key, m: Manager, c: Child)
    requires s.plan == [] && DeploymentKey(k) in s.Now().children && s.Now().children[DeploymentKey(k)] == c
    requires c.MachineDeployment? && c.workers.Some? && c.templateVersion.Some?
    ensures var o := PushDeployment(s, k, m);
            && o.sys.plan == [] && o.sys.Now() == AddChild(s.Now(), DeploymentKey(k), SizedDeployment(c, m))
            && o.clm == m && o.answer == Returned(ZERO, false)
  {
    hide GetChild, PatchChildObject;
    QuietGetChild(s, DeploymentKey(k));
    QuietPatchChild(GetChild(s, DeploymentKey(k)).0, DeploymentKey(k), c, SizedDeployment(c, m));
  }

  lemma ChainsPresent(k: Key, m: Manager, w: World)
    requires AllExist(w, k)
    ensures forall l | l in ControlPlaneLinks(k, m) || l in WorkerLinks(k, m) :: l.Ck() in w.children
  {
    LinksAreChildren(k, m);
    MissingNone(w, ControlPlaneChain(k));
    MissingNone(w, WorkerChain(k));
    forall l | l in ControlPlaneLinks(k, m) || l in WorkerLinks(k, m) ensures l.Ck() in w.children {
      LinkIsTemplate(k, m, l);
    }
  }

  lemma PushesUnfold(s: Sys, k: Key, m: Manager, remote: Remote, res: Result)
    requires m.status.controlPlaneReady
    requires var e := FindEndpoint(s, k, m);
             && e.answer.Returned? && !e.answer.failed && e.clm.status == m.status
             && var p := PushControlPlane(e.sys, k, e.clm);
                && p.answer == Returned(ZERO, false) && p.clm == Ready(e.clm, true)
                && var d := PushDeployment(p.sys, k, p.clm);
                   d.answer == Returned(ZERO, false) && d.clm == p.clm
    ensures var e := FindEndpoint(s, k, m);
            var p := PushControlPlane(e.sys, k, e.clm);
            var d := PushDeployment(p.sys, k, p.clm);
            RunPhases(PUSHES, s, k, m, remote, res, false) == Out(d.sys, d.clm, Returned(ZERO, false))
  {
    hide FindEndpoint, PushControlPlane, PushDeployment;
    var e := FindEndpoint(s, k, m);
    var p := PushControlPlane(e.sys, k, e.clm);
    var d := PushDeployment(p.sys, k, p.clm);
    assert PUSHES[1..] == [ControlPlaneUpdate, MachineDeploymentUpdate, UpdateStatus];
    assert PUSHES[1..][1..] == [MachineDeploymentUpdate, UpdateStatus];
    assert PUSHES[1..][1..][1..] == [UpdateStatus] && [UpdateStatus][1..] == [];
    assert RunPhases(PUSHES, s, k, m, remote, res, false)
        == RunPhases(PUSHES[1..], e.sys, k, e.clm, remote, e.answer.result, false);
    assert RunPhases(PUSHES[1..], e.sys, k, e.clm, remote, e.answer.result, false)
        == RunPhases(PUSHES[1..][1..], p.sys, k, p.clm, remote, ZERO, false);
    assert RunPhases(PUSHES[1..][1..], p.sys, k, p.clm, remote, ZERO, false)
        == RunPhases([UpdateStatus], d.sys, k, d.clm, remote, ZERO, false);
    assert d.clm.status.controlPlaneReady;
  }

  lemma QuietBody(s: Sys, k: Key, remote: Remote)
    requires s.plan == [] && Complete(k, s.Now())
    ensures var w := s.Now(); var o := Body(s, k, w.managers[k], remote);
            && o.sys.plan == [] && o.sys.Now() == Sized(k, w) && o.answer == Returned(ZERO, false)
            && WithPhase(o.clm) == Settle(k, w)
  {
    hide Walk, FindEndpoint, PushControlPlane, PushDeployment, RunPhases, Body, AllExist, Missing;
    var w := s.Now();
    var m := w.managers[k];
    BodyUnfolds(s, k, m, remote);
    ChainsPresent(k, m, w);
    QuietWalk(s, ControlPlaneLinks(k, m));
    var (t1, r1) := Walk(s, ControlPlaneLinks(k, m));
    QuietWalk(t1, WorkerLinks(k, m));
    var (t2, r2) := Walk(t1, WorkerLinks(k, m));
    QuietEndpoint(t2, k);
    var e := FindEndpoint(t2, k, m);
    QuietPushControlPlane(e.sys, k, e.clm);
    var p := PushControlPlane(e.sys, k, e.clm);
    QuietPushDeployment(p.sys, k, p.clm, w.children[DeploymentKey(k)]);
    PushesUnfold(t2, k, m, remote, r2);
  }

  lemma QuietPatch(s: Sys, k: Key, before: Manager, after: Manager)
    requires s.plan == [] && k in s.Now().managers && s.Now().managers[k] == before
    requires !before.deleting && after == MergeMain(before, after, before).(status := after.status)
    ensures var (t, ok) := PatchObject(s, k, before, after);
            && t.plan == [] && ok && t.Now() == s.Now().(managers := s.Now().managers[k := after])
  {
    hide MergeMap;
    var t := SendMain(s, k, before, after).0;
    QuietTurn(s);
    assert MergeStatus(before.status, after.status, before.status) == after.status;
    var m1 := MergeMain(before, after, before);
    if SameMain(before, after) {
      assert m1.finalizers == before.finalizers && m1.spec == before.spec;
      assert s.Now().managers == s.Now().managers[k := before];
    }
    assert t.plan == [] && t.Now() == s.Now().(managers := s.Now().managers[k := m1.(status := before.status)]);
    QuietTurn(t);
    if before.status == after.status {
      assert m1.(status := before.status) == after;
    }
  }

  lemma MergeBack(before: map<string, string>, after: map<string, string>)
    ensures MergeMap(before, after, before) == after
  {
  }

  /** One quiet reconcile: the children get the manager's size and version, nothing else in the
      store changes but the manager, and the manager does not want to be looked at again. */
  lemma QuietReconcile(s: Sys, k: Key, remote: Remote)
    requires s.plan == [] && Complete(k, s.Now())
    ensures var w := s.Now(); var (t, a) := Reconcile(s, k, remote);
            && t.plan == [] && a == Returned(ZERO, false)
            && t.Now() == Sized(k, w).(managers := w.managers[k := Settle(k, w)])
  {
    hide Body, PatchObject, WithPhase, Complete, Sized, Settle;
    var w := s.Now();
    QuietTurn(s);
    assert k in w.managers by { CompleteMeans(k, w); }
    var m := w.managers[k];
    var (t, r) := GetManager(s, k);
    assert t.plan == [] && t.Now() == w && r == Found(m);
    QuietBody(t, k, remote);
    var o := Body(t, k, m, remote);
    SettleKeeps(k, w);
    QuietPatch(o.sys, k, m, Settle(k, w));
  }

  lemma CompleteMeans(k: Key, w: World)
    requires Complete(k, w)
    ensures k in w.managers && !w.managers[k].deleting
  {
  }

  lemma SettleKeeps(k: Key, w: World)
    requires Complete(k, w)
    ensures var m, a := w.managers[k], Settle(k, w);
            && !m.deleting && a == MergeMain(m, a, m).(status := a.status)
            && Sized(k, w).managers == w.managers
  {
    hide AllExist;
    MergeBack(w.managers[k].annotations, Settle(k, w).annotations);
  }

  /** Steady state: the world after one quiet reconcile is complete again, its children carry the
      manager's size (as int32) and version, and it is a fixpoint: every further quiet reconcile
      leaves the whole store as it is. */
  lemma SteadyStateFixpoint(s: Sys, k: Key, remote: Remote, next: Sys, later: Remote)
    requires s.plan == [] && Complete(k, s.Now())
    requires next.plan == [] && next.Now() == Reconcile(s, k, remote).0.Now()
    ensures var w := next.Now();
            && Complete(k, w)
            && w.children[ControlPlaneKey(k)].replicas == Some(Int32(w.managers[k].spec.masterNum))
            && w.children[ControlPlaneKey(k)].version == w.managers[k].spec.version
            && w.children[DeploymentKey(k)].workers == Some(Int32(w.managers[k].spec.workerNum))
            && w.children[DeploymentKey(k)].templateVersion == Some(w.managers[k].spec.version)
            && w.managers[k].spec == s.Now().managers[k].spec
            && w.managers[k].status.phase == PHASE_PROVISIONED
    ensures Reconcile(next, k, later).0.Now() == next.Now()
  {
    hide Reconcile;
    QuietReconcile(s, k, remote);
    SizedIsComplete(k, s.Now());
    QuietReconcile(next, k, later);
    SizedIsFixed(k, s.Now());
  }

  ghost function Rested(k: Key, w: World): World
    requires Complete(k, w)
  {
    Sized(k, w).(managers := w.managers[k := Settle(k, w)])
  }

  lemma SizedIsComplete(k: Key, w: World)
    requires Complete(k, w)
    ensures Complete(k, Rested(k, w))
  {
    var w' := Rested(k, w);
    assert w'.children.Keys == w.children.Keys;
    GapSkips(w, w', ControlPlaneChain(k));
    GapSkips(w, w', WorkerChain(k));
  }

  lemma SettleTwice(k: Key, w: World)
    requires Complete(k, w) && Complete(k, Rested(k, w))
    ensures Settle(k, Rested(k, w)) == Settle(k, w)
  {
    hide AllExist;
    assert ClusterKey(k) != ControlPlaneKey(k) && ClusterKey(k) != DeploymentKey(k);
  }

  lemma Overwrite(m: ChildMap, a: ChildKey, x: Child, b: ChildKey, y: Child)
    requires a != b
    ensures m[a := x][b := y][a := x][b := y] == m[a := x][b := y]
  {
  }

  lemma SizeTwice(k: Key, w: World)
    requires Complete(k, w) && Complete(k, Rested(k, w))
    ensures Sized(k, Rested(k, w)).children == Rested(k, w).children
  {
    hide AllExist, Settle;
    var w1 := Rested(k, w);
    var m, m1 := w.managers[k], w1.managers[k];
    assert m1.spec == m.spec by { SettleSpec(k, w); }
    var a, b := ControlPlaneKey(k), DeploymentKey(k);
    var x, y := SizedControlPlane(w.children[a], m), SizedDeployment(w.children[b], m);
    assert w1.children == w.children[a := x][b := y];
    assert SizedControlPlane(x, m1) == x && SizedDeployment(y, m1) == y;
    assert w1.children[a] == x && w1.children[b] == y;
    Overwrite(w.children, a, x, b, y);
  }

  lemma SettleSpec(k: Key, w: World)
    requires Complete(k, w)
    ensures Settle(k, w).spec == w.managers[k].spec
  {
  }

  lemma SizedIsFixed(k: Key, w: World)
    requires Complete(k, w) && Complete(k, Rested(k, w))
    ensures Rested(k, Rested(k, w)) == Rested(k, w)
  {
    hide Complete, Settle, Sized;
    SettleTwice(k, w);
    SizeTwice(k, w);
    SizedFrame(k, Rested(k, w));
  }

  lemma SizedFrame(k: Key, w: World)
    requires Complete(k, w)
    ensures Sized(k, w) == w.(children := Sized(k, w).children)
  {
  }

  /** Any number of further quiet reconciles. */
  lemma {:induction false} RestsForEver(s: Sys, k: Key, remotes: seq<Remote>)
    requires s.plan == [] && Complete(k, s.Now()) && s.Now() == Rested(k, s.Now())
    ensures ReconcileAll(s, k, remotes).Now() == s.Now()
    decreases |remotes|
  {
    hide Reconcile, Rested, Complete;
    if remotes != [] {
      QuietOnce(s, k, remotes[0]);
      RestsForEver(Reconcile(s, k, remotes[0]).0, k, remotes[1..]);
    }
  }

  lemma QuietOnce(s: Sys, k: Key, remote: Remote)
    requires s.plan == [] && Complete(k, s.Now())
    ensures Reconcile(s, k, remote).0.plan == [] && Reconcile(s, k, remote).0.Now() == Rested(k, s.Now())
  {
    hide Reconcile;
    QuietReconcile(s, k, remote);
  }

  function ReconcileAll(s: Sys, k: Key, remotes: seq<Remote>): Sys
    decreases |remotes|
  {
    if remotes == [] then s else ReconcileAll(Reconcile(s, k, remotes[0]).0, k, remotes[1..])
  }
}
