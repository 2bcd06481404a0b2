/** Rounds after which the controller rests although its work is not done. */
module ParkedRounds {
  import opened Api
  import opened Naming
  import opened Store
  import opened Children
  import opened Observation
  import opened Reconciling
  import opened Traces
  import opened Safety
  import opened Lifecycle
  import opened Provisioning
  import opened Queue
  import opened Draining

  const K := Key("ns", "c")
  const SPEC := Spec("AWS", "v1.20.2", 3, 3)
  const AWS := AwsSpec("", "", "", "")
  const CREATED := map[LABEL_CLUSTER_TYPE := TYPE_CREATED]
  const SILENT := Remote(false, false, None, None, None, "")

  /** A store that holds the manager alone. */
  function Only(m: Manager): World {
    World(map[K := m], map[], map[], {}, [], 0)
  }

  lemma NoEvents(s: Sys)
    requires s.Next().events == []
    ensures Turn(s) == s.(plan := if s.plan == [] then [] else s.plan[1..])
  {
  }

  const DYING := Manager(CREATED, map[], {FINALIZER}, true, SPEC, AWS, NEW_STATUS.(phase := PHASE_DELETING))
  const BLINK := [QUIET, Tick([], Refused)]

  /** One failed read of the Cluster, and a manager whose deletion was requested is forgotten: it
      keeps the finalizer, and the queue is empty. */
  lemma OneFailedReadParksADeletion()
    ensures var l := Loop(Sys(Only(DYING), [], []), true);
            Stuck(Round(l, K, Input(SILENT, BLINK)), K)
  {
    hide GetChild, Woken, Delete;
    var s := Sys(Only(DYING), [], BLINK);
    NoEvents(s);
    var (t, r) := GetManager(s, K);
    var t1 := Sys(Only(DYING), [Called(ReadManager(K), true, Only(DYING))], BLINK[1..]);
    assert t == t1 && r == Found(DYING);
    NoEvents(t);
    var (u, c) := GetChild(t, ClusterKey(K));
    ReadRefused(t);
    assert c == Failed && u.Now() == Only(DYING) && u.start == s.start;
    assert Body(t, K, DYING, SILENT) == Out(u, DYING, Returned(ZERO, false));
    assert WithPhase(DYING) == DYING;
    assert Reconcile(s, K, SILENT) == (u, Returned(ZERO, false));
    NeverWoken(s, u, Only(DYING));
  }

  lemma ReadRefused(t: Sys)
    requires t.plan == [Tick([], Refused)]
    ensures var (u, c) := GetChild(t, ClusterKey(K));
            c == Failed && u == t.(plan := []).Log(Called(ReadChild(ClusterKey(K)), false, t.Now()))
  {
    NoEvents(t);
  }

  lemma NeverWoken(s: Sys, u: Sys, w: World)
    requires s.past <= u.past && s.start == u.start && s.Now() == w
    requires forall i | |s.past| <= i < |u.past| :: u.past[i].world == w
    ensures !Woken(s, u, K)
  {
    forall i: nat | |s.past| <= i < |u.past| ensures u.At(i) == w == u.past[i].world {
      if i == |s.past| {
        assert u.At(i) == s.Now();
      }
    }
  }

  // ---------------------------------------------------------------------------------------
  // Provisioning that is forgotten

  /** A provisionable manager whose endpoint is annotated. */
  function Placed(ready: bool): Manager {
    Manager(CREATED, map[ANNOTATION_APISERVER := "host"], {FINALIZER}, false, SPEC, AWS,
            NEW_STATUS.(controlPlaneReady := ready))
  }

  /** Alive, finalized, and without an endpoint in its status. */
  ghost function Calmed(): World -> bool {
    (w: World) =>
      && K in w.managers
      && var m := w.managers[K];
         FINALIZER in m.finalizers && !m.deleting && m.status.endpoint == ""
  }

  /** With nobody else around, a reconcile of such a manager wakes nothing. */
  lemma NothingWakes(s: Sys, ready: bool, remote: Remote)
    requires PlanOf(s.plan, NoEvent) && s.Now() == Only(Placed(ready))
    ensures !Woken(s, Reconcile(s, K, remote).0, K)
    ensures var (t, r) := GetManager(s, K);
            r.Found? ==> r.value == Placed(ready) && t.Now() == s.Now()
                         && K in Body(t, K, r.value, remote).sys.Now().managers
                         && !Body(t, K, r.value, remote).sys.Now().managers[K].deleting
  {
    hide GetManager, Body, PatchObject, WithPhase, BuildStep, PatchStep, Apply;
    var inv := Calmed();
    var (t, r) := GetManager(s, K);
    GetManagerSteps(s, K, NoEvent, Reads(NoEvent));
    var w0 := s.Now();
    var same := (w: World) => w == w0;
    forall w, e | same(w) && Reads(NoEvent)(w, e) ensures same(e.world) {
      assert !Others(NoEvent)(w, e);
    }
    AlwaysFrom(s, t, Reads(NoEvent), same);
    assert same(t.At(|t.past|));
    assert Always(s, t, inv) by {
      forall i | |s.past| <= i <= |t.past| ensures inv(t.At(i)) {
        assert same(t.At(i));
      }
    }
    if r.Found? {
      var m := r.value;
      var o := Body(t, K, m, remote);
      BodyBuilds(t, K, m, remote, NoEvent);
      BodyKeeps(t, K, m, remote);
      forall w, e | inv(w) && Builds(K, m, NoEvent)(w, e) ensures inv(e.world) {
        assert !Others(NoEvent)(w, e);
        StepKeepsManagers(K, m, w, e);
      }
      AlwaysFrom(t, o.sys, Builds(K, m, NoEvent), inv);
      assert inv(o.sys.At(|o.sys.past|));
      var after := WithPhase(o.clm);
      PhaseIsStatus(o.clm);
      var u := PatchObject(o.sys, K, m, after).0;
      PatchSteps(o.sys, K, m, after, NoEvent);
      forall w, e | inv(w) && Patches(K, m, after, NoEvent)(w, e) ensures inv(e.world) {
        assert !Others(NoEvent)(w, e);
        PatchCalms(m, after, w, e);
      }
      AlwaysFrom(o.sys, u, Patches(K, m, after, NoEvent), inv);
      AlwaysJoin(s, t, o.sys, inv);
      AlwaysJoin(s, o.sys, u, inv);
    }
    CalmedIsNotWoken(s, Reconcile(s, K, remote).0);
  }

  lemma PatchCalms(m: Manager, a: Manager, w: World, e: Moment)
    requires Calmed()(w) && PatchStep(K, m, a, w, e)
    requires a.finalizers == m.finalizers && a.status.endpoint == m.status.endpoint
    ensures Calmed()(e.world)
  {
    hide MergeMap, MergeSpec;
  }

  lemma CalmedIsNotWoken(s: Sys, u: Sys)
    requires Always(s, u, Calmed())
    ensures !Woken(s, u, K)
  {
    forall i: nat | |s.past| <= i <= |u.past| ensures Calmed()(u.At(i)) {
    }
  }

  /** With the plan used up, a patch of a manager that is not being deleted goes through. */
  lemma QuietPatchServed(s: Sys, before: Manager, after: Manager)
    requires s.plan == [] && K in s.Now().managers && !s.Now().managers[K].deleting
    ensures PatchObject(s, K, before, after).1
  {
    hide MergeMap, MergeSpec, MergeStatus;
    QuietTurn(s);
    var t := SendMain(s, K, before, after).0;
    assert t.plan == [] && K in t.Now().managers && SendMain(s, K, before, after).1;
    QuietTurn(t);
  }

  /** Neither the control plane nor any surprise is there to be read. */
  lemma QuietReads(s: Sys, m: Manager)
    requires !NeedsEndpoint(m) && Walked(s, K, m).plan == []
    requires var c := Walked(s, K, m).Now().children;
             && ControlPlaneKey(K) !in c
             && (DeploymentKey(K) in c ==> c[DeploymentKey(K)] == MachineDeploymentForCAPI(K, m))
    ensures !ReadFails(s, K, m) && !ReadPanics(s, K, m)
  {
    hide Walked, Turn;
    var t := Walked(s, K, m);
    assert FindEndpoint(t, K, m) == Out(t, m, Returned(ZERO, false));
    QuietTurn(t);
    var (u, r) := GetChild(t, ControlPlaneKey(K));
    assert r.NotFound? && u.plan == [] && u.Now() == t.Now();
    assert PushControlPlane(t, K, m) == Out(u, m, Returned(ZERO, false));
    QuietTurn(u);
  }

  /** A walk over a chain whose first object is missing creates it. */
  lemma QuietFirst(s: Sys, links: seq<Link>)
    requires s.plan == [] && links != [] && links[0].Ck() !in s.Now().children
    ensures var t := Walk(s, links).0; var ck, child := links[0].Ck(), links[0].child;
            && t.plan == [] && t.Now() == AddChild(s.Now(), ck, child).(ours := s.Now().ours + {ck})
  {
    hide Turn;
    QuietTurn(s);
    var t := GetChild(s, links[0].Ck()).0;
    QuietTurn(t);
  }

  /** A plan without events that is used up by the end of the body leaves the body quiet. */
  lemma {:induction false} QuietPhases(phases: seq<Phase>, s: Sys, m: Manager, remote: Remote,
                                       res: Result, failed: bool)
    requires s.plan == [] && forall p | p in phases :: !Creates(p)
    ensures RunPhases(phases, s, K, m, remote, res, failed).sys.plan == []
    decreases |phases|
  {
    hide RunPhase;
    if phases != [] {
      var o := RunPhase(phases[0], s, K, m, remote);
      QuietPhase(phases[0], s, m, remote);
      if o.answer.Returned? {
        var failed' := failed || o.answer.failed;
        QuietPhases(phases[1..], o.sys, o.clm, remote, if failed' then res else o.answer.result, failed');
      }
    }
  }

  lemma QuietPhase(p: Phase, s: Sys, m: Manager, remote: Remote)
    requires s.plan == [] && !Creates(p)
    ensures RunPhase(p, s, K, m, remote).sys.plan == []
  {
    hide Turn, Observe;
    QuietTurn(s);
    forall t: Sys | t.plan == [] ensures Turn(t) == t {
      QuietTurn(t);
    }
  }

  /** What a round of a placed manager comes to, once both walks are over and the plan is used up. */
  lemma PlacedRests(s: Sys, ready: bool, remote: Remote)
    requires PlanOf(s.plan, NoEvent) && s.Now() == Only(Placed(ready))
    requires ready || NodesUnread(remote)
    requires var (t, r) := GetManager(s, K); var v := Walked(t, K, Placed(ready));
             && r == Found(Placed(ready)) && v.plan == [] && ControlPlaneKey(K) !in v.Now().children
             && DeploymentKey(K) in v.Now().children
             && v.Now().children[DeploymentKey(K)] == MachineDeploymentForCAPI(K, Placed(ready))
    ensures Drains(Loop(s, true), K, Input(remote, s.plan))
    ensures var (t, r) := GetManager(s, K);
            SameKids(K, Walked(t, K, Placed(ready)).Now(), Reconcile(s, K, remote).0.Now())
  {
    hide GetManager, Walk, Body, PatchObject, WithPhase, ReadFails, ReadPanics, Woken, RunPhases;
    var m := Placed(ready);
    assert Provisionable(m);
    assert s.(plan := s.plan) == s;
    var (t, r) := GetManager(s, K);
    QuietReads(t, m);
    NothingWakes(s, ready, remote);
    BodyUnfolds(t, K, m, remote);
    var (v, res) := Walk(Walk(t, ControlPlaneLinks(K, m)).0, WorkerLinks(K, m));
    assert v == Walked(t, K, m);
    QuietPhases(PUSHES, v, m, remote, res, false);
    var o := Body(t, K, m, remote);
    QuietPatchServed(o.sys, m, WithPhase(o.clm));
    PhasesChildless(PUSHES, v, K, m, remote, res, false, Settled(K));
    PatchChildlessKids(v, o, K, m);
  }

  const FORGETFUL := [QUIET, QUIET, Tick([], Refused)]

  /** The creation of the Cluster is refused once while the manager is ready: the round drains the
      queue, and the Cluster is missing. */
  lemma RefusedCreationIsForgotten()
    ensures var l := Loop(Sys(Only(Placed(true)), [], []), true);
            && Strands(K)(l, Input(SILENT, FORGETFUL))
            && ClusterKey(K) !in Round(l, K, Input(SILENT, FORGETFUL)).sys.Now().children
  {
    hide Rests, Woken, PatchObject, RunPhases, Reconcile, Walk, GetManager, AllExist;
    var s := Sys(Only(Placed(true)), [], FORGETFUL);
    RefusedThenServed(s);
    PlacedRests(s, true, SILENT);
    ChildrenListed();
    assert Loop(Sys(Only(Placed(true)), [], []), true).sys.(plan := FORGETFUL) == s;
    NotAllExist(Reconcile(s, K, SILENT).0.Now(), ClusterKey(K));
  }

  lemma RefusedThenServed(s: Sys)
    requires s == Sys(Only(Placed(true)), [], FORGETFUL)
    ensures var (t, r) := GetManager(s, K); var v := Walked(t, K, Placed(true));
            && PlanOf(s.plan, NoEvent) && r == Found(Placed(true)) && v.plan == []
            && v.Now().children == map[][DeploymentKey(K) := MachineDeploymentForCAPI(K, Placed(true))]
  {
    hide Walk, Turn;
    var m, w := Placed(true), Only(Placed(true));
    NoEvents(s);
    var (t, r) := GetManager(s, K);
    assert r == Found(m) && t.Now() == w && t.plan == [QUIET, Tick([], Refused)];
    RefusedWalk(t, m);
    var t1 := Walk(t, ControlPlaneLinks(K, m)).0;
    QuietFirst(t1, WorkerLinks(K, m));
  }

  lemma RefusedWalk(t: Sys, m: Manager)
    requires t.plan == [QUIET, Tick([], Refused)] && t.Now() == Only(m)
    ensures var t1 := Walk(t, ControlPlaneLinks(K, m)).0; t1.plan == [] && t1.Now() == Only(m)
  {
    hide Turn;
    NoEvents(t);
    var (u, c) := GetChild(t, ClusterKey(K));
    assert c == NotFound && u.plan == [Tick([], Refused)] && u.Now() == Only(m);
    NoEvents(u);
    var x := Create(u, ClusterKey(K), ClusterForCAPI(K)).0;
    assert x.plan == [] && x.Now() == Only(m);
  }

  lemma ChildrenListed()
    ensures IsChildOf(ClusterKey(K), K) && IsChildOf(ControlPlaneKey(K), K)
    ensures ClusterKey(K) in ControlPlaneChain(K) && ControlPlaneKey(K) in ControlPlaneChain(K)
  {
    assert ControlPlaneChain(K)[0] == ClusterKey(K) && ControlPlaneChain(K)[2] == ControlPlaneKey(K);
  }

  lemma NotAllExist(w: World, ck: ChildKey)
    requires ck in ControlPlaneChain(K) && ck !in w.children
    ensures !AllExist(w, K)
  {
    MissingNone(w, ControlPlaneChain(K));
  }

  const NODELESS := Remote(true, true, Some(Config(true, "v1.20.2", None)), None, None, "")

  /** Every request is served, but the node list cannot be read: the round drains the queue of an
      unready manager with the control plane missing. */
  lemma OneFailedNodeListParks()
    ensures var l := Loop(Sys(Only(Placed(false)), [], []), true);
            && Strands(K)(l, Input(NODELESS, []))
            && ControlPlaneKey(K) !in Round(l, K, Input(NODELESS, [])).sys.Now().children
  {
    hide Rests, Woken, PatchObject, RunPhases, Reconcile, Walk, GetManager, AllExist;
    var s := Sys(Only(Placed(false)), [], []);
    BothServed(s);
    PlacedRests(s, false, NODELESS);
    ChildrenListed();
    assert Loop(s, true).sys.(plan := []) == s;
    NotAllExist(Reconcile(s, K, NODELESS).0.Now(), ControlPlaneKey(K));
  }

  lemma BothServed(s: Sys)
    requires s == Sys(Only(Placed(false)), [], [])
    ensures var (t, r) := GetManager(s, K); var v := Walked(t, K, Placed(false));
            && PlanOf(s.plan, NoEvent) && r == Found(Placed(false)) && v.plan == []
            && v.Now().children == map[][ClusterKey(K) := ClusterForCAPI(K)]
                                      [DeploymentKey(K) := MachineDeploymentForCAPI(K, Placed(false))]
  {
    hide Walk, Turn;
    var m, w := Placed(false), Only(Placed(false));
    QuietTurn(s);
    var (t, r) := GetManager(s, K);
    assert r == Found(m) && t.Now() == w && t.plan == [];
    QuietFirst(t, ControlPlaneLinks(K, m));
    var t1 := Walk(t, ControlPlaneLinks(K, m)).0;
    QuietFirst(t1, WorkerLinks(K, m));
  }
}
