/** Provisioning: the missing children never become more, every fault-free reconcile closes one
    gap in each incomplete chain, and four of them are always enough. */
module Provisioning {
  import opened Api
  import opened Naming
  import opened Store
  import opened Children
  import opened Observation
  import opened Reconciling
  import opened Traces
  import opened Safety
  import opened Lifecycle

  function Missing(w: World, keys: seq<ChildKey>): nat {
    if keys == [] then 0 else (if keys[0] in w.children then 0 else 1) + Missing(w, keys[1..])
  }

  /** The first key that has no object. */
  function Gap(w: World, keys: seq<ChildKey>): set<ChildKey> {
    if keys == [] then {} else if keys[0] !in w.children then {keys[0]} else Gap(w, keys[1..])
  }

  predicate AllExist(w: World, k: Key) {
    Missing(w, ControlPlaneChain(k)) == 0 && Missing(w, WorkerChain(k)) == 0
  }

  lemma {:induction false} MissingNone(w: World, keys: seq<ChildKey>)
    ensures Missing(w, keys) == 0 <==> forall ck | ck in keys :: ck in w.children
    ensures Missing(w, keys) == 0 <==> Gap(w, keys) == {}
    ensures forall ck | ck in Gap(w, keys) :: ck in keys && ck !in w.children
    ensures Missing(w, keys) <= |keys|
  {
    if keys != [] {
      MissingNone(w, keys[1..]);
      assert keys == [keys[0]] + keys[1..];
    }
  }

  /** No child of k is removed by others. */
  ghost function NoRemoval(k: Key): Env {
    (e: Event) => e.ChildRemoved? ==> !IsChildOf(e.ck, k)
  }

  /** No child of k is added or removed by others, and nobody else writes k as the controller. */
  ghost function Settled(k: Key): Env {
    (e: Event) => (e.ChildRemoved? || e.ChildAdded? ==> !IsChildOf(e.ck, k)) && !Patched(k, e)
  }

  ghost predicate SameKids(k: Key, w: World, w': World) {
    forall ck | IsChildOf(ck, k) :: ck in w'.children <==> ck in w.children
  }

  ghost predicate KidsStay(k: Key, w: World, w': World) {
    forall ck | IsChildOf(ck, k) && ck in w.children :: ck in w'.children
  }

  ghost function Stays(k: Key): Rule {
    (w: World, m: Moment) => KidsStay(k, w, m.world)
  }

  lemma {:induction false} StayingShrinks(k: Key, w: World, w': World, keys: seq<ChildKey>)
    requires KidsStay(k, w, w') && forall ck | ck in keys :: IsChildOf(ck, k)
    ensures Missing(w', keys) <= Missing(w, keys)
  {
    if keys != [] { StayingShrinks(k, w, w', keys[1..]); }
  }

  lemma OthersStay(k: Key, w: World, e: Event)
    requires NoRemoval(k)(e)
    ensures KidsStay(k, w, Apply(w, e))
  {
    hide Apply, IsChildOf;
    EventChildren(w, e);
  }

  lemma StaysFrom(s: Sys, t: Sys, k: Key, rule: Rule)
    requires Steps(s, t, rule)
    requires forall w, m :: rule(w, m) ==>
               Others(NoRemoval(k))(w, m) || w.children.Keys <= m.world.children.Keys
    ensures Steps(s, t, Stays(k))
  {
    forall w, m | rule(w, m) ensures Stays(k)(w, m) {
      if Others(NoRemoval(k))(w, m) {
        OthersStay(k, w, m.event);
      }
    }
    StepsWeaken(s, t, rule, Stays(k));
  }

  lemma ReconcileStays(s: Sys, k: Key, remote: Remote, key: Key)
    requires PlanOf(s.plan, NoRemoval(k))
    ensures Steps(s, Reconcile(s, key, remote).0, Stays(k))
  {
    hide GetManager, Body, PatchObject, WithPhase;
    var env, rule := NoRemoval(k), Stays(k);
    var (t, r) := GetManager(s, key);
    GetManagerSteps(s, key, env, Reads(env));
    StaysFrom(s, t, k, Reads(env));
    if r.Found? {
      var m := r.value;
      var o := Body(t, key, m, remote);
      var after := WithPhase(o.clm);
      BodyStays(t, k, key, m, remote);
      PatchSteps(o.sys, key, m, after, env);
      var u := PatchObject(o.sys, key, m, after).0;
      StaysFrom(o.sys, u, k, Patches(key, m, after, env));
      StepsJoin(s, t, o.sys, rule);
      StepsJoin(s, o.sys, u, rule);
    }
  }

  lemma BodyStays(t: Sys, k: Key, key: Key, m: Manager, remote: Remote)
    requires PlanOf(t.plan, NoRemoval(k))
    ensures var o := Body(t, key, m, remote);
            Steps(t, o.sys, Stays(k)) && PlanOf(o.sys.plan, NoRemoval(k))
  {
    hide RunPhases, TearDown;
    var env := NoRemoval(k);
    var o := Body(t, key, m, remote);
    if FINALIZER in m.finalizers && TearsDown(m) {
      TearDownSteps(t, key, Ready(m, false), env);
      StaysFrom(t, o.sys, k, Tears(key, env));
    } else {
      BodyBuilds(t, key, m, remote, env);
      StaysFrom(t, o.sys, k, Builds(key, m, env));
    }
  }

  /** No step of any run, faults and teardowns included, takes a child of k out of the store,
      if no one else does: the number of missing children never increases. */
  lemma MissingNeverGrows(s: Sys, jobs: seq<Job>, k: Key)
    requires forall job | job in jobs :: JobOf(job, NoRemoval(k))
    ensures Steps(s, Run(s, jobs), Stays(k))
  {
    var all: World -> bool := (w: World) => true;
    forall t: Sys, job | job in jobs && all(t.Now())
      ensures Steps(t, Do(t, job), Stays(k)) && Always(t, Do(t, job), all)
    {
      match job
      case Outside(events) =>
        HappenSteps(t, events, NoRemoval(k));
        StaysFrom(t, Happen(t, events), k, Others(NoRemoval(k)));
      case Manage(key, remote, plan) =>
        assert t.(plan := plan).Now() == t.Now();
        ReconcileStays(t.(plan := plan), k, remote, key);
    }
    RunSteps(s, jobs, Stays(k), all);
  }

  // ---------------------------------------------------------------------------------------
  // One fault-free reconcile

  /** Requests that leave the set of objects alone. */
  ghost function Childless(env: Env): Rule {
    (w: World, m: Moment) =>
      || Others(env)(w, m)
      || (m.Called? && !m.call.CreateChild? && m.world.children.Keys == w.children.Keys)
  }

  lemma ChildlessKeepsKids(s: Sys, t: Sys, k: Key)
    requires Steps(s, t, Childless(Settled(k)))
    ensures SameKids(k, s.Now(), t.Now())
  {
    var w0 := s.Now();
    var inv := (w: World) => SameKids(k, w0, w);
    forall w, m | inv(w) && Childless(Settled(k))(w, m) ensures inv(m.world) {
      if Others(Settled(k))(w, m) {
        OthersKeepKids(k, w, m.event);
      }
    }
    Throughout(s, t, Childless(Settled(k)), inv, |t.past|);
  }

  lemma OthersKeepKids(k: Key, w: World, e: Event)
    requires Settled(k)(e)
    ensures SameKids(k, w, Apply(w, e))
  {
    hide Apply, IsChildOf;
    EventChildren(w, e);
  }

  lemma PatchChildChildless(s: Sys, ck: ChildKey, before: Child, after: Child, env: Env)
    requires PlanOf(s.plan, env)
    ensures var (t, _) := PatchChildObject(s, ck, before, after);
            Steps(s, t, Childless(env)) && PlanOf(t.plan, env)
  {
    if before != after {
      var (t, ok) := PatchChildObject(s, ck, before, after);
      var m := t.past[|t.past| - 1];
      assert t == Turn(s).Log(m);
      assert m.world.children.Keys == Turn(s).Now().children.Keys;
      RequestSteps(s, m, env, Childless(env));
    }
  }

  predicate Creates(p: Phase) {
    p == CreateCluster || p == CreateMachineDeployment
  }

  lemma PhaseChildless(p: Phase, s: Sys, k: Key, m: Manager, remote: Remote, env: Env)
    requires PlanOf(s.plan, env) && !Creates(p)
    ensures var o := RunPhase(p, s, k, m, remote);
            Steps(s, o.sys, Childless(env)) && PlanOf(o.sys.plan, env)
  {
    hide GetChild, PatchChildObject, Observe;
    var rule := Childless(env);
    match p {
      case SetEndpoint =>
        GetChildSteps(s, ClusterKey(k), env, rule);
      case ControlPlaneUpdate =>
        GetChildSteps(s, ControlPlaneKey(k), env, rule);
        var (t, r) := GetChild(s, ControlPlaneKey(k));
        if r.Found? && r.value.replicas.Some? {
          var c := r.value;
          var c' := c.(replicas := Some(Int32(m.spec.masterNum)), version := m.spec.version);
          PatchChildChildless(t, ControlPlaneKey(k), c, c', env);
          StepsJoin(s, t, PatchChildObject(t, ControlPlaneKey(k), c, c').0, rule);
        }
      case MachineDeploymentUpdate =>
        GetChildSteps(s, DeploymentKey(k), env, rule);
        var (t, r) := GetChild(s, DeploymentKey(k));
        if r.Found? && r.value.workers.Some? {
          var c := r.value;
          var c1 := c.(workers := Some(Int32(m.spec.workerNum)));
          var c2 := if c.templateVersion.None? then c1 else c1.(templateVersion := Some(m.spec.version));
          PatchChildChildless(t, DeploymentKey(k), c, c2, env);
          StepsJoin(s, t, PatchChildObject(t, DeploymentKey(k), c, c2).0, rule);
        }
      case NoPhase =>
      case UpdateStatus =>
    }
  }

  lemma {:induction false} PhasesChildless(phases: seq<Phase>, s: Sys, k: Key, m: Manager, remote: Remote,
                                           res: Result, failed: bool, env: Env)
    requires PlanOf(s.plan, env) && forall p | p in phases :: !Creates(p)
    ensures var o := RunPhases(phases, s, k, m, remote, res, failed);
            Steps(s, o.sys, Childless(env)) && PlanOf(o.sys.plan, env)
    decreases |phases|
  {
    hide RunPhase, Childless;
    if phases != [] {
      var o := RunPhase(phases[0], s, k, m, remote);
      PhaseChildless(phases[0], s, k, m, remote, env);
      if o.answer.Returned? {
        var failed' := failed || o.answer.failed;
        var res' := if failed' then res else o.answer.result;
        PhasesChildless(phases[1..], o.sys, k, o.clm, remote, res', failed', env);
        StepsJoin(s, o.sys, RunPhases(phases[1..], o.sys, k, o.clm, remote, res', failed').sys, Childless(env));
      }
    }
  }

  lemma ServedRead(s: Sys, k: Key, ck: ChildKey)
    requires Calm(s, Settled(k))
    requires IsChildOf(ck, k)
    ensures var (t, r) := GetChild(s, ck);
            && Calm(t, Settled(k)) && SameKids(k, s.Now(), t.Now())
            && (if ck in s.Now().children then r.Found? else r.NotFound?)
  {
    var m := Called(ReadChild(ck), GetChild(s, ck).1.Found?, Turn(s).Now());
    CalmTurn(s, Settled(k), m);
    TurnSteps(s, Settled(k));
    StepsWeaken(s, Turn(s), Others(Settled(k)), Childless(Settled(k)));
    ChildlessKeepsKids(s, Turn(s), k);
  }

  lemma ServedCreate(s: Sys, k: Key, ck: ChildKey, child: Child)
    requires Calm(s, Settled(k))
    requires IsChildOf(ck, k) && child.Kind() == ck.kind && ck !in s.Now().children
    ensures var (t, ok) := Create(s, ck, child);
            && Calm(t, Settled(k)) && ok
            && forall x | IsChildOf(x, k) :: x in t.Now().children <==> x in s.Now().children || x == ck
  {
    TurnSteps(s, Settled(k));
    StepsWeaken(s, Turn(s), Others(Settled(k)), Childless(Settled(k)));
    ChildlessKeepsKids(s, Turn(s), k);
    var t := Create(s, ck, child).0;
    CalmTurn(s, Settled(k), t.past[|t.past| - 1]);
  }

  lemma {:induction false} GapCongruent(k: Key, w: World, w': World, keys: seq<ChildKey>)
    requires SameKids(k, w, w') && forall ck | ck in keys :: IsChildOf(ck, k)
    ensures Gap(w, keys) == Gap(w', keys) && Missing(w, keys) == Missing(w', keys)
  {
    if keys != [] { GapCongruent(k, w, w', keys[1..]); }
  }

  /** A calm walk over a chain fills its first gap and nothing else. */
  lemma {:induction false} WalkFillsGap(s: Sys, k: Key, links: seq<Link>)
    requires Calm(s, Settled(k))
    requires forall l | l in links :: IsChildOf(l.Ck(), k)
    ensures var (t, _) := Walk(s, links);
            && Calm(t, Settled(k))
            && forall x | IsChildOf(x, k) ::
                 x in t.Now().children <==> x in s.Now().children || x in Gap(s.Now(), Keys(links))
    decreases |links|
  {
    hide GetChild, Create, Calm;
    if links != [] {
      var ck := links[0].Ck();
      WalkProceeds(s, links, 0);
      assert links[0..] == links && Keys(links)[1..] == Keys(links[1..]);
      ServedRead(s, k, ck);
      var (t, r) := GetChild(s, ck);
      GapCongruent(k, s.Now(), t.Now(), Keys(links));
      if r.NotFound? {
        ServedCreate(t, k, ck, links[0].child);
      } else {
        WalkFillsGap(t, k, links[1..]);
      }
    }
  }

  predicate Provisionable(m: Manager) {
    FINALIZER in m.finalizers && m.Type() == TYPE_CREATED && !m.deleting
  }

  ghost predicate Fills(k: Key, w: World, w': World, gaps: set<ChildKey>) {
    forall x | IsChildOf(x, k) :: x in w'.children <==> x in w.children || x in gaps
  }

  lemma ChainsAreChildren(k: Key)
    ensures forall ck | ck in ControlPlaneChain(k) || ck in WorkerChain(k) :: IsChildOf(ck, k)
    ensures forall ck | ck in ControlPlaneChain(k) :: ck !in WorkerChain(k)
  {
    ChildKeysDistinct(k);
  }

  lemma WalkFills(s: Sys, k: Key, m: Manager)
    requires Calm(s, Settled(k))
    ensures var t := Walk(s, ControlPlaneLinks(k, m)).0;
            Calm(t, Settled(k)) && Fills(k, s.Now(), t.Now(), Gap(s.Now(), ControlPlaneChain(k)))
    ensures var t := Walk(s, WorkerLinks(k, m)).0;
            Calm(t, Settled(k)) && Fills(k, s.Now(), t.Now(), Gap(s.Now(), WorkerChain(k)))
  {
    hide Walk, Gap, Calm;
    LinksAreChildren(k, m);
    forall l | l in ControlPlaneLinks(k, m) || l in WorkerLinks(k, m) ensures IsChildOf(l.Ck(), k) {
      LinkIsTemplate(k, m, l);
    }
    WalkFillsGap(s, k, ControlPlaneLinks(k, m));
    WalkFillsGap(s, k, WorkerLinks(k, m));
  }

  const PUSHES := [SetEndpoint, ControlPlaneUpdate, MachineDeploymentUpdate, UpdateStatus]

  /** The two creating phases come first and cannot fail. */
  lemma BodyUnfolds(s: Sys, k: Key, m: Manager, remote: Remote)
    requires Provisionable(m)
    ensures var (t1, r1) := Walk(s, ControlPlaneLinks(k, m));
            var (t2, r2) := Walk(t1, WorkerLinks(k, m));
            Body(s, k, m, remote) == RunPhases(PUSHES, t2, k, m, remote, r2, false)
  {
    hide Walk, FindEndpoint, PushControlPlane, PushDeployment, Observe;
    var all := [CreateCluster, CreateMachineDeployment] + PUSHES;
    assert PhasesOf(m) == all;
    assert all[1..] == [CreateMachineDeployment] + PUSHES && all[1..][1..] == PUSHES;
    var (t1, r1) := Walk(s, ControlPlaneLinks(k, m));
    assert RunPhases(all, s, k, m, remote, ZERO, false) == RunPhases(all[1..], t1, k, m, remote, r1, false);
    assert all[1..][0] == CreateMachineDeployment;
  }

  /** One fault-free reconcile of a provisionable manager creates exactly the first missing child
      of each incomplete chain. */
  lemma ReconcileFillsGaps(s: Sys, k: Key, remote: Remote)
    requires Calm(s, Settled(k))
    requires var r := GetManager(s, k).1; r.Found? && Provisionable(r.value)
    ensures var w := s.Now();
            Fills(k, w, Reconcile(s, k, remote).0.Now(), Gap(w, ControlPlaneChain(k)) + Gap(w, WorkerChain(k)))
  {
    hide GetManager, Walk, RunPhases, PatchObject, WithPhase, Body, Calm, Gap;
    var w := s.Now();
    var (t, r) := GetManager(s, k);
    var m := r.value;
    CalmRead(s, k);
    ChainsAreChildren(k);
    BodyUnfolds(t, k, m, remote);
    WalkFills(t, k, m);
    var (t1, r1) := Walk(t, ControlPlaneLinks(k, m));
    WalkFills(t1, k, m);
    var (t2, r2) := Walk(t1, WorkerLinks(k, m));
    GapCongruent(k, w, t.Now(), ControlPlaneChain(k));
    GapCongruent(k, w, t.Now(), WorkerChain(k));
    GapElsewhere(k, t.Now(), t1.Now());
    CalmIsPlan(t2, k);
    PhasesChildless(PUSHES, t2, k, m, remote, r2, false, Settled(k));
    var o := RunPhases(PUSHES, t2, k, m, remote, r2, false);
    PatchChildlessKids(t2, o, k, m);
  }

  lemma CalmIsPlan(s: Sys, k: Key)
    requires Calm(s, Settled(k))
    ensures PlanOf(s.plan, Settled(k))
  {
  }

  lemma CalmRead(s: Sys, k: Key)
    requires Calm(s, Settled(k))
    ensures var (t, r) := GetManager(s, k); Calm(t, Settled(k)) && SameKids(k, s.Now(), t.Now())
  {
    var (t, r) := GetManager(s, k);
    CalmTurn(s, Settled(k), Called(ReadManager(k), r.Found?, Turn(s).Now()));
    TurnSteps(s, Settled(k));
    StepsWeaken(s, Turn(s), Others(Settled(k)), Childless(Settled(k)));
    ChildlessKeepsKids(s, Turn(s), k);
  }

  lemma {:induction false} GapSkips(w: World, w': World, keys: seq<ChildKey>)
    requires forall ck | ck in keys :: ck in w'.children <==> ck in w.children
    ensures Gap(w', keys) == Gap(w, keys) && Missing(w', keys) == Missing(w, keys)
  {
    if keys != [] { GapSkips(w, w', keys[1..]); }
  }

  /** Filling the control-plane chain leaves the worker chain's gap where it is. */
  lemma GapElsewhere(k: Key, w: World, w': World)
    requires Fills(k, w, w', Gap(w, ControlPlaneChain(k)))
    ensures Gap(w', WorkerChain(k)) == Gap(w, WorkerChain(k))
  {
    hide Gap;
    ChainsAreChildren(k);
    MissingNone(w, ControlPlaneChain(k));
    GapSkips(w, w', WorkerChain(k));
  }

  lemma PatchLeavesChildren(k: Key, before: Manager, after: Manager, w: World, e: Moment)
    requires PatchStep(k, before, after, w, e)
    ensures !e.call.CreateChild? && e.world.children == w.children
  {
  }

  lemma PatchChildlessKids(s: Sys, o: Out, k: Key, m: Manager)
    requires Steps(s, o.sys, Childless(Settled(k))) && PlanOf(o.sys.plan, Settled(k))
    ensures SameKids(k, s.Now(), Finish(o, k, m).0.Now())
  {
    hide PatchObject, WithPhase;
    var after := WithPhase(o.clm);
    var u := PatchObject(o.sys, k, m, after).0;
    PatchSteps(o.sys, k, m, after, Settled(k));
    forall w, e | Patches(k, m, after, Settled(k))(w, e) ensures Childless(Settled(k))(w, e) {
      if !Others(Settled(k))(w, e) {
        PatchLeavesChildren(k, m, after, w, e);
      }
    }
    StepsWeaken(o.sys, u, Patches(k, m, after, Settled(k)), Childless(Settled(k)));
    StepsJoin(s, o.sys, u, Childless(Settled(k)));
    ChildlessKeepsKids(s, u, k);
  }

  /** Filling the first gap of a chain shrinks it by exactly one. */
  lemma {:induction false} FillingShrinks(w: World, w': World, keys: seq<ChildKey>, gaps: set<ChildKey>)
    requires forall i, j | 0 <= i < j < |keys| :: keys[i] != keys[j]
    requires forall ck | ck in keys :: ck in w'.children <==> ck in w.children || ck in gaps
    requires forall ck | ck in keys :: ck in gaps <==> ck in Gap(w, keys)
    ensures Missing(w', keys) == if Missing(w, keys) == 0 then 0 else Missing(w, keys) - 1
  {
    if keys != [] {
      var rest := keys[1..];
      assert keys == [keys[0]] + rest;
      MissingNone(w, rest);
      if keys[0] in w.children {
        FillingShrinks(w, w', rest, gaps);
      } else {
        assert forall ck | ck in rest :: ck != keys[0];
        GapSkips(w, w', rest);
      }
    }
  }

  function Less(n: nat): nat {
    if n == 0 then 0 else n - 1
  }

  lemma FillsShrinks(k: Key, w: World, w': World)
    requires Fills(k, w, w', Gap(w, ControlPlaneChain(k)) + Gap(w, WorkerChain(k)))
    ensures Missing(w', ControlPlaneChain(k)) == Less(Missing(w, ControlPlaneChain(k)))
    ensures Missing(w', WorkerChain(k)) == Less(Missing(w, WorkerChain(k)))
  {
    hide Gap, Missing;
    ChildKeysDistinct(k);
    ChainsAreChildren(k);
    MissingNone(w, ControlPlaneChain(k));
    MissingNone(w, WorkerChain(k));
    var all := ControlPlaneChain(k) + WorkerChain(k);
    assert forall i | 0 <= i < 4 :: ControlPlaneChain(k)[i] == all[i];
    assert forall i | 0 <= i < 3 :: WorkerChain(k)[i] == all[i + 4];
    var gaps := Gap(w, ControlPlaneChain(k)) + Gap(w, WorkerChain(k));
    FillingShrinks(w, w', ControlPlaneChain(k), gaps);
    FillingShrinks(w, w', WorkerChain(k), gaps);
  }

  /** Each fault-free reconcile shrinks every incomplete chain by exactly one. */
  lemma ReconcileShrinks(s: Sys, k: Key, remote: Remote)
    requires Calm(s, Settled(k))
    requires var r := GetManager(s, k).1; r.Found? && Provisionable(r.value)
    ensures var w, w' := s.Now(), Reconcile(s, k, remote).0.Now();
            && Missing(w', ControlPlaneChain(k)) == Less(Missing(w, ControlPlaneChain(k)))
            && Missing(w', WorkerChain(k)) == Less(Missing(w, WorkerChain(k)))
  {
    hide GetManager, Reconcile, Fills, Gap, Missing, Calm;
    ReconcileFillsGaps(s, k, remote);
    FillsShrinks(k, s.Now(), Reconcile(s, k, remote).0.Now());
  }

  // ---------------------------------------------------------------------------------------
  // One fault-free reconcile, with others adding children too

  /** No child of k is removed by others, and nobody else writes k as the controller. */
  ghost function Tended(k: Key): Env {
    (e: Event) => NoRemoval(k)(e) && !Patched(k, e)
  }

  lemma StepsStay(s: Sys, t: Sys, k: Key)
    requires Steps(s, t, Stays(k))
    ensures KidsStay(k, s.Now(), t.Now())
  {
    var w0 := s.Now();
    var inv := (w: World) => KidsStay(k, w0, w);
    Throughout(s, t, Stays(k), inv, |t.past|);
  }

  lemma TendedStays(s: Sys, t: Sys, k: Key, rule: Rule)
    requires Steps(s, t, rule)
    requires forall w, m :: rule(w, m) ==> Others(Tended(k))(w, m) || w.children.Keys <= m.world.children.Keys
    ensures KidsStay(k, s.Now(), t.Now())
  {
    hide Apply, NoRemoval;
    forall w, m | rule(w, m) ensures Others(NoRemoval(k))(w, m) || w.children.Keys <= m.world.children.Keys {
      if Others(Tended(k))(w, m) {
        assert Tended(k)(m.event);
      }
    }
    StaysFrom(s, t, k, rule);
    StepsStay(s, t, k);
  }

  lemma TendedTurn(s: Sys, k: Key)
    requires Calm(s, Tended(k))
    ensures KidsStay(k, s.Now(), Turn(s).Now()) && s.Next().outcome == Served
    ensures forall m :: Calm(Turn(s).Log(m), Tended(k))
  {
    TurnSteps(s, Tended(k));
    TendedStays(s, Turn(s), k, Others(Tended(k)));
    forall m ensures Calm(Turn(s).Log(m), Tended(k)) && s.Next().outcome == Served {
      CalmTurn(s, Tended(k), m);
    }
    CalmTurn(s, Tended(k), Called(ReadManager(k), true, s.Now()));
  }

  lemma TendedRead(s: Sys, k: Key, ck: ChildKey)
    requires Calm(s, Tended(k))
    ensures var (t, r) := GetChild(s, ck);
            && Calm(t, Tended(k)) && KidsStay(k, s.Now(), t.Now())
            && (if ck in t.Now().children then r.Found? else r.NotFound?)
  {
    hide Turn;
    TendedTurn(s, k);
  }

  lemma TendedCreate(s: Sys, k: Key, ck: ChildKey, child: Child)
    requires Calm(s, Tended(k)) && child.Kind() == ck.kind
    ensures var t := Create(s, ck, child).0;
            Calm(t, Tended(k)) && KidsStay(k, s.Now(), t.Now()) && ck in t.Now().children
  {
    hide Turn;
    TendedTurn(s, k);
    var v, t := Turn(s), Create(s, ck, child).0;
    assert t == v.Log(t.past[|v.past|]);
    assert v.Now().children.Keys <= t.Now().children.Keys;
  }

  lemma StayJoin(k: Key, w: World, w1: World, w2: World)
    requires KidsStay(k, w, w1) && KidsStay(k, w1, w2)
    ensures KidsStay(k, w, w2)
  {
  }

  /** A calm walk leaves a chain at least one object shorter, even if others add to it. */
  lemma {:induction false} WalkShrinks(s: Sys, k: Key, links: seq<Link>)
    requires Calm(s, Tended(k)) && forall l | l in links :: IsChildOf(l.Ck(), k)
    ensures var t := Walk(s, links).0;
            && Calm(t, Tended(k)) && KidsStay(k, s.Now(), t.Now())
            && Missing(t.Now(), Keys(links)) <= Less(Missing(s.Now(), Keys(links)))
    decreases |links|
  {
    hide GetChild, Create, Calm, IsChildOf;
    if links != [] {
      var ck, rest := links[0].Ck(), links[1..];
      WalkProceeds(s, links, 0);
      assert links[0..] == links && Keys(links)[1..] == Keys(rest) && Keys(links)[0] == ck;
      TendedRead(s, k, ck);
      var (t, r) := GetChild(s, ck);
      var u := Walk(s, links).0;
      forall x | x in Keys(rest) ensures IsChildOf(x, k) {
        var i :| 0 <= i < |rest| && Keys(rest)[i] == x;
        assert rest[i] in links;
      }
      StayingShrinks(k, s.Now(), t.Now(), Keys(rest));
      if r.NotFound? {
        TendedCreate(t, k, ck, links[0].child);
        StayingShrinks(k, t.Now(), u.Now(), Keys(rest));
      } else {
        WalkShrinks(t, k, rest);
      }
      StayJoin(k, s.Now(), t.Now(), u.Now());
    }
  }

  lemma ChainShrinks(s: Sys, k: Key, m: Manager)
    requires Calm(s, Tended(k))
    ensures var t := Walk(s, ControlPlaneLinks(k, m)).0;
            && Calm(t, Tended(k)) && KidsStay(k, s.Now(), t.Now())
            && Missing(t.Now(), ControlPlaneChain(k)) <= Less(Missing(s.Now(), ControlPlaneChain(k)))
    ensures var t := Walk(s, WorkerLinks(k, m)).0;
            && Calm(t, Tended(k)) && KidsStay(k, s.Now(), t.Now())
            && Missing(t.Now(), WorkerChain(k)) <= Less(Missing(s.Now(), WorkerChain(k)))
  {
    hide Walk, Missing, Calm;
    LinksAreChildren(k, m);
    forall l | l in ControlPlaneLinks(k, m) || l in WorkerLinks(k, m) ensures IsChildOf(l.Ck(), k) {
      LinkIsTemplate(k, m, l);
    }
    WalkShrinks(s, k, ControlPlaneLinks(k, m));
    WalkShrinks(s, k, WorkerLinks(k, m));
  }

  /** The rest of a reconcile after the two walks. */
  lemma RestStays(v: Sys, k: Key, m: Manager, remote: Remote, res: Result)
    requires Calm(v, Tended(k))
    ensures KidsStay(k, v.Now(), Finish(RunPhases(PUSHES, v, k, m, remote, res, false), k, m).0.Now())
  {
    hide PatchObject, WithPhase, RunPhases, Apply;
    var env := Tended(k);
    PhasesChildless(PUSHES, v, k, m, remote, res, false, env);
    var o := RunPhases(PUSHES, v, k, m, remote, res, false);
    TendedStays(v, o.sys, k, Childless(env));
    var after := WithPhase(o.clm);
    var u := PatchObject(o.sys, k, m, after).0;
    PatchSteps(o.sys, k, m, after, env);
    forall w, e | Patches(k, m, after, env)(w, e)
      ensures Others(env)(w, e) || w.children.Keys <= e.world.children.Keys
    {
      if !Others(env)(w, e) {
        PatchLeavesChildren(k, m, after, w, e);
      }
    }
    TendedStays(o.sys, u, k, Patches(k, m, after, env));
    StayJoin(k, v.Now(), o.sys.Now(), u.Now());
  }

  /** Each fault-free reconcile shrinks every incomplete chain by at least one, whoever else adds
      children in the meantime. */
  lemma TendedShrinks(s: Sys, k: Key, remote: Remote)
    requires Calm(s, Tended(k))
    requires var r := GetManager(s, k).1; r.Found? && Provisionable(r.value)
    ensures var w, w' := s.Now(), Reconcile(s, k, remote).0.Now();
            && Missing(w', ControlPlaneChain(k)) <= Less(Missing(w, ControlPlaneChain(k)))
            && Missing(w', WorkerChain(k)) <= Less(Missing(w, WorkerChain(k)))
  {
    hide Walk, RunPhases, PatchObject, WithPhase, Body, Calm, Missing, KidsStay, Turn;
    var w := s.Now();
    var (t, r) := GetManager(s, k);
    var m := r.value;
    TendedTurn(s, k);
    assert Calm(t, Tended(k)) && t.Now() == Turn(s).Now();
    BodyUnfolds(t, k, m, remote);
    var t1 := Walk(t, ControlPlaneLinks(k, m)).0;
    ChainShrinks(t, k, m);
    var (t2, r2) := Walk(t1, WorkerLinks(k, m));
    ChainShrinks(t1, k, m);
    RestStays(t2, k, m, remote, r2);
    var u := Reconcile(s, k, remote).0;
    ChainsAreChildren(k);
    StayingShrinks(k, w, t.Now(), ControlPlaneChain(k));
    StayingShrinks(k, w, t.Now(), WorkerChain(k));
    StayingShrinks(k, t.Now(), t1.Now(), WorkerChain(k));
    StayingShrinks(k, t1.Now(), t2.Now(), ControlPlaneChain(k));
    StayingShrinks(k, t2.Now(), u.Now(), ControlPlaneChain(k));
    StayingShrinks(k, t2.Now(), u.Now(), WorkerChain(k));
  }
}
