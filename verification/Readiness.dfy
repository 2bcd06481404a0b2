/** What makes a manager ready and what its phase then says, exactly: readiness comes from the
    control plane or from the remote health check, and the phase is the further of the old one and
    the one that type, readiness and deletion call for. */
module Readiness {
  import opened Api
  import opened Naming
  import opened Store
  import opened Children
  import opened Observation
  import opened Reconciling
  import opened Traces
  import opened Safety
  import opened Lifecycle
  import opened Provisioning
  import opened Queue
  import opened Wiring

  // ---------------------------------------------------------------------------------------
  // Readiness has a witness

  /** Between positions a and i of the log a read found the control plane of k, with replicas. */
  ghost predicate ControlPlaneSeen(s: Sys, a: nat, i: nat, k: Key)
    requires i <= |s.past|
  {
    exists j | a <= j < i ::
      && s.past[j].Called? && s.past[j].call == ReadChild(ControlPlaneKey(k)) && s.past[j].ok
      && ControlPlaneKey(k) in s.past[j].world.children
      && var c := s.past[j].world.children[ControlPlaneKey(k)]; c.ControlPlane? && c.replicas.Some?
  }

  lemma ControlPlaneStaysSeen(s: Sys, t: Sys, a: nat, i: nat, b: nat, k: Key)
    requires Grows(s, t) && i <= |s.past| && i <= b <= |t.past| && ControlPlaneSeen(s, a, i, k)
    ensures ControlPlaneSeen(t, a, b, k)
  {
    var j :| a <= j < i && s.past[j].Called? && s.past[j].call == ReadChild(ControlPlaneKey(k)) && s.past[j].ok
             && ControlPlaneKey(k) in s.past[j].world.children
             && var c := s.past[j].world.children[ControlPlaneKey(k)]; c.ControlPlane? && c.replicas.Some?;
    assert t.past[j] == s.past[j];
  }

  /** A ready working copy was ready before, or there is a reason. */
  ghost predicate Backed(s: Sys, a: nat, k: Key, was: bool, remote: Remote, m: Manager) {
    m.status.ready ==> was || remote.readyz == Some("ok") || ControlPlaneSeen(s, a, |s.past|, k)
  }

  lemma ObserveReady(m: Manager, remote: Remote)
    ensures Observe(m, remote).0.status.ready ==> m.status.ready || remote.readyz == Some("ok")
  {
    hide Count, Provider, ProviderName, FirstBare;
  }

  lemma PushReady(s: Sys, k: Key, m: Manager, a: nat)
    requires a <= |s.past|
    ensures var o := PushControlPlane(s, k, m);
            Grows(s, o.sys) && (o.clm.status.ready ==> m.status.ready || ControlPlaneSeen(o.sys, a, |o.sys.past|, k))
  {
    hide PatchChildObject;
    AnyPlan(s);
    PhaseSteps(ControlPlaneUpdate, s, k, m, m, Remote(false, false, None, None, None, ""), AnyEvent);
    ReadKind(s, ControlPlaneKey(k));
    var o := PushControlPlane(s, k, m);
    var (t, r) := GetChild(s, ControlPlaneKey(k));
    TurnSteps(s, AnyEvent);
    if r.Found? && r.value.replicas.Some? {
      var j := |t.past| - 1;
      assert t.past[j] == Called(ReadChild(ControlPlaneKey(k)), true, Turn(s).Now()) && a <= j;
      assert ControlPlaneSeen(t, a, |t.past|, k);
      PushGrows(t, k, r.value, r.value.(replicas := Some(Int32(m.spec.masterNum)), version := m.spec.version));
      ControlPlaneStaysSeen(t, o.sys, a, |t.past|, |o.sys.past|, k);
    }
  }

  lemma PushGrows(t: Sys, k: Key, c: Child, c': Child)
    ensures Grows(t, PatchChildObject(t, ControlPlaneKey(k), c, c').0)
  {
    AnyPlan(t);
    PatchChildChildless(t, ControlPlaneKey(k), c, c', AnyEvent);
  }

  lemma PhaseBacked(p: Phase, s: Sys, k: Key, m: Manager, remote: Remote, a: nat, was: bool)
    requires a <= |s.past| && Backed(s, a, k, was, remote, m)
    ensures var o := RunPhase(p, s, k, m, remote);
            Grows(s, o.sys) && Backed(o.sys, a, k, was, remote, o.clm)
  {
    hide GetChild, PushControlPlane, PushDeployment, Walk, Observe, ControlPlaneSeen;
    AnyPlan(s);
    PhaseSteps(p, s, k, m, m, remote, AnyEvent);
    var o := RunPhase(p, s, k, m, remote);
    if ControlPlaneSeen(s, a, |s.past|, k) {
      ControlPlaneStaysSeen(s, o.sys, a, |s.past|, |o.sys.past|, k);
    }
    match p {
      case ControlPlaneUpdate => PushReady(s, k, m, a);
      case UpdateStatus => ObserveReady(m, remote);
      case MachineDeploymentUpdate => PushKeepsCopy(s, k, m);
      case _ =>
    }
  }

  lemma PushKeepsCopy(s: Sys, k: Key, m: Manager)
    ensures PushDeployment(s, k, m).clm == m
  {
  }

  lemma {:induction false} PhasesBacked(phases: seq<Phase>, s: Sys, k: Key, m: Manager, remote: Remote,
                                        res: Result, failed: bool, a: nat, was: bool)
    requires a <= |s.past| && Backed(s, a, k, was, remote, m)
    ensures var o := RunPhases(phases, s, k, m, remote, res, failed);
            Grows(s, o.sys) && Backed(o.sys, a, k, was, remote, o.clm)
    decreases |phases|
  {
    hide RunPhase, Backed;
    if phases != [] {
      var o := RunPhase(phases[0], s, k, m, remote);
      PhaseBacked(phases[0], s, k, m, remote, a, was);
      if o.answer.Returned? {
        var failed' := failed || o.answer.failed;
        PhasesBacked(phases[1..], o.sys, k, o.clm, remote, if failed' then res else o.answer.result, failed', a, was);
      }
    }
  }

  /** The body makes an unready manager ready only if its own read of the control plane found one
      with replicas, or the remote API server said ok; whatever else happens and fails. A teardown
      makes it unready, and adding the finalizer leaves it alone. */
  lemma BodyReady(s: Sys, k: Key, m: Manager, remote: Remote)
    ensures var o := Body(s, k, m, remote);
            && Grows(s, o.sys) && Backed(o.sys, |s.past|, k, m.status.ready, remote, o.clm)
            && (FINALIZER !in m.finalizers ==> o.clm.status.ready == m.status.ready)
            && (FINALIZER in m.finalizers && TearsDown(m) ==> !o.clm.status.ready)
  {
    hide RunPhases, GetChild, Delete, ControlPlaneSeen;
    if FINALIZER in m.finalizers {
      if TearsDown(m) {
        AnyPlan(s);
        TearDownSteps(s, k, Ready(m, false), AnyEvent);
      } else {
        PhasesBacked(PhasesOf(m), s, k, m, remote, ZERO, false, |s.past|, m.status.ready);
      }
    }
  }

  /** The entry is a request that makes the stored manager ready. */
  ghost predicate MakesReady(k: Key, w: World, e: Moment) {
    && e.Called? && k in e.world.managers && e.world.managers[k].status.ready
    && (k in w.managers ==> !w.managers[k].status.ready)
  }

  lemma PatchMakesReady(k: Key, m: Manager, a: Manager, w: World, e: Moment)
    requires PatchStep(k, m, a, w, e) && MakesReady(k, w, e)
    ensures a.status.ready && !m.status.ready
  {
    hide MergeMap, MergeSpec;
  }

  /** From position b of the log on, each request that makes k ready has its reason in the same
      reconcile, which began at position a. */
  ghost predicate ReadyHasReason(t: Sys, a: nat, b: nat, k: Key, remote: Remote) {
    forall i | a <= b <= i < |t.past| && MakesReady(k, t.At(i), t.past[i]) ::
      remote.readyz == Some("ok") || ControlPlaneSeen(t, a, i, k)
  }

  lemma NothingMakesReady(s: Sys, t: Sys, k: Key, rule: Rule)
    requires Steps(s, t, rule)
    requires forall w, e :: rule(w, e) && e.Called? ==> e.world.managers == w.managers
    ensures forall i | |s.past| <= i < |t.past| :: !MakesReady(k, t.At(i), t.past[i])
  {
    forall i | |s.past| <= i < |t.past| ensures !MakesReady(k, t.At(i), t.past[i]) {
      assert rule(t.At(i), t.past[i]);
    }
  }

  lemma BodyMakesNothingReady(t: Sys, k: Key, m: Manager, remote: Remote)
    ensures var u := Body(t, k, m, remote).sys;
            Grows(t, u) && forall i | |t.past| <= i < |u.past| :: !MakesReady(k, u.At(i), u.past[i])
  {
    hide RunPhases, TearDown;
    AnyPlan(t);
    var o := Body(t, k, m, remote);
    if FINALIZER in m.finalizers && TearsDown(m) {
      TearDownSteps(t, k, Ready(m, false), AnyEvent);
      forall w, e | Tears(k, AnyEvent)(w, e) && e.Called? ensures e.world.managers == w.managers {
        assert !Others(AnyEvent)(w, e);
        StepKeepsManagers(k, m, w, e);
      }
      NothingMakesReady(t, o.sys, k, Tears(k, AnyEvent));
    } else {
      BodyBuilds(t, k, m, remote, AnyEvent);
      forall w, e | Builds(k, m, AnyEvent)(w, e) && e.Called? ensures e.world.managers == w.managers {
        assert !Others(AnyEvent)(w, e);
        StepKeepsManagers(k, m, w, e);
      }
      NothingMakesReady(t, o.sys, k, Builds(k, m, AnyEvent));
    }
  }

  /** Readiness has a reason: under any plan, a request of a reconcile makes k ready only after the
      same reconcile found the control plane, with replicas, or if the remote API server said ok. */
  lemma ReconcileReady(s: Sys, k: Key, remote: Remote)
    ensures var u := Reconcile(s, k, remote).0; Grows(s, u) && ReadyHasReason(u, |s.past|, |s.past|, k, remote)
  {
    hide GetManager, Body, PatchObject, WithPhase, MakesReady, ControlPlaneSeen;
    AnyPlan(s);
    var a := |s.past|;
    var (t, r) := GetManager(s, k);
    GetManagerSteps(s, k, AnyEvent, Reads(AnyEvent));
    NothingMakesReady(s, t, k, Reads(AnyEvent));
    if r.Found? {
      var m := r.value;
      var o := Body(t, k, m, remote);
      var c := WithPhase(o.clm);
      BodyMakesNothingReady(t, k, m, remote);
      BodyReady(t, k, m, remote);
      PhaseIsStatus(o.clm);
      AnyPlan(o.sys);
      PatchSteps(o.sys, k, m, c, AnyEvent);
      var u := PatchObject(o.sys, k, m, c).0;
      forall i | a <= i < |u.past| && MakesReady(k, u.At(i), u.past[i])
        ensures remote.readyz == Some("ok") || ControlPlaneSeen(u, a, i, k)
      {
        PatchedAt(s, t, o.sys, u, k, m, c, i);
        if remote.readyz != Some("ok") {
          SeenEarlier(o.sys, |t.past|, a, k);
          ControlPlaneStaysSeen(o.sys, u, a, |o.sys.past|, i, k);
        }
      }
    }
  }

  lemma SeenEarlier(s: Sys, a: nat, b: nat, k: Key)
    requires b <= a && ControlPlaneSeen(s, a, |s.past|, k)
    ensures ControlPlaneSeen(s, b, |s.past|, k)
  {
  }

  lemma RequestMakesReady(k: Key, w: World, e: Moment)
    requires MakesReady(k, w, e)
    ensures e.Called?
  {
  }

  lemma PatchedAt(s: Sys, t: Sys, v: Sys, u: Sys, k: Key, m: Manager, c: Manager, i: nat)
    requires Grows(s, t) && Grows(t, v) && Steps(v, u, Patches(k, m, c, AnyEvent))
    requires forall j | |s.past| <= j < |t.past| :: !MakesReady(k, t.At(j), t.past[j])
    requires forall j | |t.past| <= j < |v.past| :: !MakesReady(k, v.At(j), v.past[j])
    requires |s.past| <= i < |u.past| && MakesReady(k, u.At(i), u.past[i])
    ensures |v.past| <= i && c.status.ready && !m.status.ready
  {
    hide PatchStep, MakesReady;
    forall j | |s.past| <= j < |v.past| ensures !MakesReady(k, u.At(j), u.past[j]) {
      assert u.past[j] == v.past[j] && u.At(j) == v.At(j);
      if j < |t.past| {
        assert v.past[j] == t.past[j] && v.At(j) == t.At(j);
      }
    }
    assert Patches(k, m, c, AnyEvent)(u.At(i), u.past[i]);
    assert !Others(AnyEvent)(u.At(i), u.past[i]) by { RequestMakesReady(k, u.At(i), u.past[i]); }
    PatchMakesReady(k, m, c, u.At(i), u.past[i]);
  }

  /** Some job of the run is a reconcile of k that gives the reason for the entry at position i. */
  ghost predicate ReasonInRun(s: Sys, jobs: seq<Job>, k: Key, i: nat) {
    var u := Run(s, jobs);
    exists n | 0 <= n < |jobs| && jobs[n].Manage? && jobs[n].key == k ::
      ReasonInJob(u, |Run(s, jobs[..n]).past|, i, k, jobs[n])
  }

  ghost predicate ReasonInJob(u: Sys, a: nat, i: nat, k: Key, job: Job) {
    job.Manage? && i <= |u.past| && a <= i && (job.remote.readyz == Some("ok") || ControlPlaneSeen(u, a, i, k))
  }

  /** In every run, with everything else that goes on and fails: whenever a request makes k ready,
      the reconcile of k that sent it had found the control plane or a healthy remote cluster. */
  lemma {:induction false} ReadyHasReasonInRuns(s: Sys, jobs: seq<Job>, k: Key)
    ensures var u := Run(s, jobs);
            && Grows(s, u)
            && forall i | |s.past| <= i < |u.past| && MakesReady(k, u.At(i), u.past[i]) :: ReasonInRun(s, jobs, k, i)
  {
    hide Do, MakesReady, ReasonInJob;
    RunGrows(s, jobs);
    if jobs != [] {
      var init, job := jobs[..|jobs| - 1], jobs[|jobs| - 1];
      ReadyHasReasonInRuns(s, init, k);
      var t, u := Run(s, init), Run(s, jobs);
      RunGrows(s, init);
      DoGrows(t, job);
      forall i | |s.past| <= i < |u.past| && MakesReady(k, u.At(i), u.past[i])
        ensures ReasonInRun(s, jobs, k, i)
      {
        if i < |t.past| {
          assert u.past[i] == t.past[i] && u.At(i) == t.At(i);
          ReasonExtends(s, init, job, k, i);
          assert init + [job] == jobs;
        } else {
          ReasonInLast(t, job, k, i);
          assert ReasonInJob(u, |Run(s, jobs[..|jobs| - 1]).past|, i, k, jobs[|jobs| - 1]);
        }
      }
    }
  }

  lemma ReasonExtends(s: Sys, init: seq<Job>, job: Job, k: Key, i: nat)
    requires ReasonInRun(s, init, k, i) && Grows(Run(s, init), Run(s, init + [job]))
    ensures ReasonInRun(s, init + [job], k, i)
  {
    hide Run, ControlPlaneSeen;
    var jobs := init + [job];
    var t, u := Run(s, init), Run(s, jobs);
    var n :| 0 <= n < |init| && init[n].Manage? && init[n].key == k
             && ReasonInJob(t, |Run(s, init[..n]).past|, i, k, init[n]);
    assert jobs[..n] == init[..n] && jobs[n] == init[n];
    var a := |Run(s, init[..n]).past|;
    if ControlPlaneSeen(t, a, i, k) {
      ControlPlaneStaysSeen(t, u, a, i, i, k);
    }
    assert ReasonInJob(u, a, i, k, jobs[n]);
  }

  lemma ReasonInLast(t: Sys, job: Job, k: Key, i: nat)
    requires var u := Do(t, job); |t.past| <= i < |u.past| && MakesReady(k, u.At(i), u.past[i])
    ensures job.Manage? && job.key == k && ReasonInJob(Do(t, job), |t.past|, i, k, job)
  {
    hide Reconcile, ControlPlaneSeen;
    var u := Do(t, job);
    match job
    case Outside(events) =>
      HappenSteps(t, events, AnyEvent);
      NothingMakesReady(t, u, k, Others(AnyEvent));
    case Manage(key, remote, plan) =>
      var s := t.(plan := plan);
      AnyPlan(s);
      if key == k {
        ReconcileReady(s, k, remote);
      } else {
        ReconcileMinds(s, key, remote, AnyEvent);
        forall j | |t.past| <= j < |u.past| ensures !MakesReady(k, u.At(j), u.past[j]) {
          assert Minds(key, AnyEvent)(u.At(j), u.past[j]);
          if !Others(AnyEvent)(u.At(j), u.past[j]) {
            assert SameManager(k, u.At(j), u.past[j].world);
          }
        }
      }
  }

  // ---------------------------------------------------------------------------------------
  // Readiness, exactly

  lemma EarlyReady(s: Sys, k: Key, m: Manager, remote: Remote)
    ensures var e := Early(s, k, m, remote);
            e.answer.Returned? ==>
              (e.clm.status.ready <==> m.status.ready || GetChild(Located(s, k, m), ControlPlaneKey(k)).1.Found?)
  {
    hide Walk, GetChild, Early, FindEndpoint, PushControlPlane, PushDeployment;
    EarlyUnfolds(s, k, m, remote);
    var (t, r) := Walk(Walk(s, ControlPlaneLinks(k, m)).0, WorkerLinks(k, m));
    ThreePhases(SetEndpoint, ControlPlaneUpdate, MachineDeploymentUpdate, t, k, m, remote, r);
    var o1 := FindEndpoint(t, k, m);
    var o2 := PushControlPlane(o1.sys, k, o1.clm);
    EndpointKeepsStatus(t, k, m);
    PushReadyExactly(o1.sys, k, o1.clm);
    PushKeepsCopy(o2.sys, k, o2.clm);
  }

  lemma EndpointKeepsStatus(s: Sys, k: Key, m: Manager)
    ensures FindEndpoint(s, k, m).clm.status == m.status
  {
  }

  lemma PushReadyExactly(s: Sys, k: Key, m: Manager)
    ensures var o := PushControlPlane(s, k, m);
            o.answer.Returned? ==>
              (o.clm.status.ready <==> m.status.ready || GetChild(s, ControlPlaneKey(k)).1.Found?)
  {
    hide GetChild, PatchChildObject;
  }

  /** Exactly when a body that builds ends ready: the health check decides if it is made, and
      otherwise the manager is ready if it was or if the control plane was found. */
  lemma ReadyExactly(s: Sys, k: Key, m: Manager, remote: Remote)
    requires Provisionable(m) && Body(s, k, m, remote).answer.Returned?
    ensures Body(s, k, m, remote).clm.status.ready
            <==> if !m.status.controlPlaneReady && Readable(remote) then remote.readyz == Some("ok")
                 else m.status.ready || GetChild(Located(s, k, m), ControlPlaneKey(k)).1.Found?
  {
    hide Early, Observe, Body;
    BodyObserves(s, k, m, remote);
    EarlyReady(s, k, m, remote);
    ObserveReadyExactly(Early(s, k, m, remote).clm, remote);
  }

  lemma ObserveReadyExactly(m: Manager, remote: Remote)
    requires Observe(m, remote).1.Returned?
    ensures Observe(m, remote).0.status.ready
            <==> if !m.status.controlPlaneReady && Readable(remote) then remote.readyz == Some("ok")
                 else m.status.ready
  {
    hide Count, Provider, ProviderName;
    if remote.nodes.Some? {
      var nodes := remote.nodes.value;
      assert FirstBare(nodes) == |nodes| <==> forall n | n in nodes :: n.conditions != [] by {
        if FirstBare(nodes) < |nodes| {
          assert nodes[FirstBare(nodes)] in nodes;
        }
      }
    }
  }

  // ---------------------------------------------------------------------------------------
  // The phase, exactly

  /** How far type, readiness and deletion call for. */
  function Calls(m: Manager): int {
    if m.deleting then 3 else if m.status.ready then 2 else 1
  }

  function Further(a: int, b: int): int {
    if a < b then b else a
  }

  /** Within a type the rank of a legal phase is the phase. */
  lemma RankIsPhase(ty: string, p: string, q: string)
    requires ValidPhase(ty, p) && ValidPhase(ty, q) && Rank(ty, p) == Rank(ty, q)
    ensures p == q
  {
  }

  /** The phase of a sane manager becomes the further of the one it has and the one called for. */
  lemma PhaseExactly(ty: string, m: Manager)
    requires m.Type() == ty && ValidPhase(ty, m.status.phase)
    requires m.status.phase == PHASE_DELETING ==> m.deleting
    ensures var p := WithPhase(m).status.phase;
            && p != "" && ValidPhase(ty, p)
            && Rank(ty, p) == Further(Rank(ty, m.status.phase), Calls(m))
  {
  }

  /** In words: a new manager says Registering or Registered, a ready one Registered or
      Provisioned, and one that is being deleted Deleting; nothing else changes it. */
  lemma PhaseInWords(m: Manager)
    ensures var p, registered := WithPhase(m).status.phase, m.Type() == "registered";
            && (m.deleting ==> p == "Deleting")
            && (!m.deleting && m.status.ready ==> p == if registered then "Registered" else "Provisioned")
            && (!m.deleting && !m.status.ready && m.status.phase == "" ==>
                  p == if registered then "Registering" else "Registered")
            && (!m.deleting && !m.status.ready && m.status.phase != "" ==> p == m.status.phase)
  {
  }

  /** The stored phase and readiness of k are those that the reconcile read. */
  ghost function Unwritten(k: Key, ty: string, m: Manager): World -> bool {
    (w: World) =>
      k in w.managers ==>
        && w.managers[k].status.phase == m.status.phase && w.managers[k].status.ready == m.status.ready
        && w.managers[k].Type() == ty
  }

  lemma StepsUnwritten(s: Sys, t: Sys, k: Key, ty: string, m: Manager, rule: Rule)
    requires Steps(s, t, rule) && Unwritten(k, ty, m)(s.Now())
    requires forall w, e :: rule(w, e) ==>
               || Others(TypedInFlight(k, ty))(w, e)
               || (k in e.world.managers ==>
                     && k in w.managers && e.world.managers[k].labels == w.managers[k].labels
                     && e.world.managers[k].status == w.managers[k].status)
    ensures Unwritten(k, ty, m)(t.Now())
  {
    hide Apply;
    var inv := Unwritten(k, ty, m);
    forall w, e | inv(w) && rule(w, e) ensures inv(e.world) {
      if Others(TypedInFlight(k, ty))(w, e) {
        assert KeepsType(k, ty, e.event) && !Adds(k, e.event);
        EventTouches(k, w, e.event);
      }
    }
    Throughout(s, t, rule, inv, |t.past|);
  }

  lemma BodyUnwritten(t: Sys, k: Key, ty: string, m: Manager, remote: Remote)
    requires PlanOf(t.plan, TypedInFlight(k, ty)) && Unwritten(k, ty, m)(t.Now())
    ensures Unwritten(k, ty, m)(Body(t, k, m, remote).sys.Now())
  {
    hide RunPhases, TearDown;
    var env := TypedInFlight(k, ty);
    var o := Body(t, k, m, remote);
    if FINALIZER in m.finalizers && TearsDown(m) {
      TearDownSteps(t, k, Ready(m, false), env);
      forall w, e | Tears(k, env)(w, e) && !Others(env)(w, e) ensures e.world.managers == w.managers {
        StepKeepsManagers(k, m, w, e);
      }
      StepsUnwritten(t, o.sys, k, ty, m, Tears(k, env));
    } else {
      BodyBuilds(t, k, m, remote, env);
      forall w, e | Builds(k, m, env)(w, e) && !Others(env)(w, e) ensures e.world.managers == w.managers {
        StepKeepsManagers(k, m, w, e);
      }
      StepsUnwritten(t, o.sys, k, ty, m, Builds(k, m, env));
    }
  }

  // ---------------------------------------------------------------------------------------
  // A calm reconcile stays calm

  lemma CalmRequests(s: Sys, env: Env)
    requires Calm(s, env)
    ensures s.Next().outcome == Served && forall m :: Calm(Turn(s).Log(m), env)
  {
    CalmTurn(s, env, Called(ReadClaim(Key("", "")), true, s.Now()));
    forall m ensures Calm(Turn(s).Log(m), env) {
      CalmTurn(s, env, m);
    }
  }

  lemma CalmGetChild(s: Sys, ck: ChildKey, env: Env)
    requires Calm(s, env)
    ensures Calm(GetChild(s, ck).0, env)
  {
    hide Turn, Calm;
    CalmRequests(s, env);
  }

  lemma CalmCreate(s: Sys, ck: ChildKey, child: Child, env: Env)
    requires Calm(s, env) && child.Kind() == ck.kind
    ensures Calm(Create(s, ck, child).0, env)
  {
    hide Turn, Calm;
    CalmRequests(s, env);
  }

  lemma CalmPatchChild(s: Sys, ck: ChildKey, before: Child, after: Child, env: Env)
    requires Calm(s, env)
    ensures Calm(PatchChildObject(s, ck, before, after).0, env)
  {
    hide Turn, Calm;
    CalmRequests(s, env);
  }

  lemma CalmTearDown(s: Sys, k: Key, m: Manager, env: Env)
    requires Calm(s, env)
    ensures Calm(TearDown(s, k, m).sys, env)
  {
    hide Turn, Calm;
    CalmRequests(s, env);
    CalmRequests(GetChild(s, ClusterKey(k)).0, env);
  }

  lemma {:induction false} CalmWalk(s: Sys, links: seq<Link>, env: Env)
    requires Calm(s, env)
    ensures Calm(Walk(s, links).0, env)
    decreases |links|
  {
    hide GetChild, Create, Calm;
    if links != [] {
      WalkProceeds(s, links, 0);
      assert links[0..] == links;
      CalmGetChild(s, links[0].Ck(), env);
      var (t, r) := GetChild(s, links[0].Ck());
      if r.NotFound? {
        CalmCreate(t, links[0].Ck(), links[0].child, env);
      } else {
        CalmWalk(t, links[1..], env);
      }
    }
  }

  lemma CalmPhase(p: Phase, s: Sys, k: Key, m: Manager, remote: Remote, env: Env)
    requires Calm(s, env)
    ensures Calm(RunPhase(p, s, k, m, remote).sys, env)
  {
    hide GetChild, PatchChildObject, Walk, Observe, Calm;
    match p
    case CreateCluster => CalmWalk(s, ControlPlaneLinks(k, m), env);
    case CreateMachineDeployment => CalmWalk(s, WorkerLinks(k, m), env);
    case SetEndpoint => CalmGetChild(s, ClusterKey(k), env);
    case ControlPlaneUpdate =>
      CalmGetChild(s, ControlPlaneKey(k), env);
      ReadKind(s, ControlPlaneKey(k));
      var (t, r) := GetChild(s, ControlPlaneKey(k));
      if r.Found? && r.value.replicas.Some? {
        var c := r.value;
        var c' := c.(replicas := Some(Int32(m.spec.masterNum)), version := m.spec.version);
        CalmPatchChild(t, ControlPlaneKey(k), c, c', env);
      }
    case MachineDeploymentUpdate =>
      CalmGetChild(s, DeploymentKey(k), env);
      ReadKind(s, DeploymentKey(k));
      var (t, r) := GetChild(s, DeploymentKey(k));
      if r.Found? && r.value.workers.Some? {
        var c := r.value;
        var c1 := c.(workers := Some(Int32(m.spec.workerNum)));
        var c2 := if c.templateVersion.None? then c1 else c1.(templateVersion := Some(m.spec.version));
        CalmPatchChild(t, DeploymentKey(k), c, c2, env);
      }
    case _ =>
  }

  lemma {:induction false} CalmPhases(phases: seq<Phase>, s: Sys, k: Key, m: Manager, remote: Remote,
                                      res: Result, failed: bool, env: Env)
    requires Calm(s, env)
    ensures Calm(RunPhases(phases, s, k, m, remote, res, failed).sys, env)
    decreases |phases|
  {
    hide RunPhase, Calm;
    if phases != [] {
      var o := RunPhase(phases[0], s, k, m, remote);
      CalmPhase(phases[0], s, k, m, remote, env);
      if o.answer.Returned? {
        var failed' := failed || o.answer.failed;
        CalmPhases(phases[1..], o.sys, k, o.clm, remote, if failed' then res else o.answer.result, failed', env);
      }
    }
  }

  lemma CalmBody(s: Sys, k: Key, m: Manager, remote: Remote, env: Env)
    requires Calm(s, env)
    ensures Calm(Body(s, k, m, remote).sys, env)
  {
    hide RunPhases, TearDown, Calm;
    if FINALIZER in m.finalizers {
      if TearsDown(m) {
        CalmTearDown(s, k, Ready(m, false), env);
      } else {
        CalmPhases(PhasesOf(m), s, k, m, remote, ZERO, false, env);
      }
    }
  }

  lemma CalmSendMain(s: Sys, k: Key, m: Manager, c: Manager, env: Env)
    requires Calm(s, env)
    ensures Calm(SendMain(s, k, m, c).0, env)
  {
    hide Turn, Calm, MergeMain;
    CalmRequests(s, env);
  }

  // ---------------------------------------------------------------------------------------
  // The stored phase after a calm reconcile

  /** Steps that leave labels and status of k alone. */
  ghost function MainOnly(k: Key, env: Env): Rule {
    (w: World, e: Moment) =>
      || Others(env)(w, e)
      || (k in e.world.managers ==>
            && k in w.managers && e.world.managers[k].labels == w.managers[k].labels
            && e.world.managers[k].status == w.managers[k].status)
  }

  lemma MainKeepsStatus(s: Sys, k: Key, m: Manager, c: Manager, env: Env)
    requires PlanOf(s.plan, env)
    ensures Steps(s, SendMain(s, k, m, c).0, MainOnly(k, env))
  {
    hide Turn, MergeMap, MergeSpec;
    if !SameMain(m, c) {
      var (t, ok) := SendMain(s, k, m, c);
      var e := t.past[|t.past| - 1];
      assert t == Turn(s).Log(e);
      assert MainOnly(k, env)(Turn(s).Now(), e);
      RequestSteps(s, e, env, MainOnly(k, env));
    }
  }

  lemma LateStatus(s: Sys, k: Key, ty: string, m: Manager, c: Manager)
    requires Calm(s, TypedInFlight(k, ty)) && Unwritten(k, ty, m)(s.Now())
    ensures var w := SendStatus(s, k, m, c).0.Now();
            k in w.managers ==>
              w.managers[k].status.phase == c.status.phase && w.managers[k].status.ready == c.status.ready
  {
    hide Turn, Apply;
    if m.status != c.status {
      var env := TypedInFlight(k, ty);
      CalmIsTyped(s, k, ty);
      CalmRequests(s, env);
      TurnSteps(s, env);
      StepsUnwritten(s, Turn(s), k, ty, m, Others(env));
    }
  }

  /** The first request leaves the status alone, and the second one writes it. */
  lemma CalmStatus(s: Sys, k: Key, ty: string, m: Manager, c: Manager)
    requires Calm(s, TypedInFlight(k, ty)) && Unwritten(k, ty, m)(s.Now())
    ensures var w := PatchObject(s, k, m, c).0.Now();
            k in w.managers ==>
              w.managers[k].status.phase == c.status.phase && w.managers[k].status.ready == c.status.ready
  {
    hide SendMain, SendStatus, Calm, Apply;
    var env := TypedInFlight(k, ty);
    CalmIsTyped(s, k, ty);
    SendMainSteps(s, k, m, c, env);
    CalmSendMain(s, k, m, c, env);
    var t := SendMain(s, k, m, c).0;
    MainKeepsStatus(s, k, m, c, env);
    StepsUnwritten(s, t, k, ty, m, MainOnly(k, env));
    LateStatus(t, k, ty, m, c);
  }

  lemma CalmIsTyped(s: Sys, k: Key, ty: string)
    requires Calm(s, TypedInFlight(k, ty))
    ensures PlanOf(s.plan, TypedInFlight(k, ty)) && PlanOf(s.plan, Typed(k, ty))
  {
    forall i, j | 0 <= i < |s.plan| && 0 <= j < |s.plan[i].events| ensures Typed(k, ty)(s.plan[i].events[j]) {
      assert TypedInFlight(k, ty)(s.plan[i].events[j]);
    }
  }

  /** The stored phase, exactly: after every fault-free reconcile that finds k, with others editing,
      reporting and deleting in the meantime, k is as ready as the body found it, and its phase is
      the further of the one that was read and the one called for; in particular it is never
      empty, and a manager that is not ready yet says Registering or Registered. */
  lemma StoredPhase(s: Sys, k: Key, ty: string, remote: Remote)
    requires Calm(s, TypedInFlight(k, ty)) && Sane(k, ty, s.Now()) && GetManager(s, k).1.Found?
    ensures var (t, r) := GetManager(s, k);
            var m, c, w := r.value, Body(t, k, r.value, remote).clm, Reconcile(s, k, remote).0.Now();
            k in w.managers ==>
              var y := w.managers[k].status;
              && (y.ready <==> c.status.ready)
              && y.phase != "" && ValidPhase(ty, y.phase)
              && Rank(ty, y.phase)
                 == Further(Rank(ty, m.status.phase), if m.deleting then 3 else if y.ready then 2 else 1)
              && (m.deleting ==> y.phase == "Deleting")
              && (!m.deleting && y.ready ==> y.phase == if ty == "registered" then "Registered" else "Provisioned")
              && (!m.deleting && !y.ready && Rank(ty, m.status.phase) <= 1 ==>
                    y.phase == if ty == "registered" then "Registering" else "Registered")
  {
    hide GetManager, Body, PatchObject, WithPhase, Calm, Sane;
    var env := TypedInFlight(k, ty);
    CalmIsTyped(s, k, ty);
    var (t, r) := GetManager(s, k);
    var m := r.value;
    GetManagerSteps(s, k, env, Reads(env));
    GetManagerSteps(s, k, Typed(k, ty), Reads(Typed(k, ty)));
    ReadsForward(s, t, k, ty);
    CalmGet(s, k, env);
    CalmIsTyped(t, k, ty);
    SaneMeans(k, ty, t.Now());
    var o := Body(t, k, m, remote);
    CalmBody(t, k, m, remote, env);
    BodyUnwritten(t, k, ty, m, remote);
    BodyKeeps(t, k, m, remote);
    PhaseIsStatus(o.clm);
    PhaseExactly(ty, o.clm);
    PhaseInWords(o.clm);
    CalmStatus(o.sys, k, ty, m, WithPhase(o.clm));
  }

  lemma SaneMeans(k: Key, ty: string, w: World)
    requires Sane(k, ty, w) && k in w.managers
    ensures var m := w.managers[k];
            m.Type() == ty && ValidPhase(ty, m.status.phase) && (m.status.phase == PHASE_DELETING ==> m.deleting)
  {
  }

  lemma CalmGet(s: Sys, k: Key, env: Env)
    requires Calm(s, env)
    ensures Calm(GetManager(s, k).0, env)
  {
    hide Turn, Calm;
    CalmRequests(s, env);
  }

  /** And so is its readiness, in terms of what the reconcile read. */
  lemma StoredReadiness(s: Sys, k: Key, remote: Remote)
    requires Calm(s, TypedInFlight(k, TYPE_CREATED)) && Sane(k, TYPE_CREATED, s.Now())
    requires var r := GetManager(s, k).1; r.Found? && Provisionable(r.value)
    requires Reconcile(s, k, remote).1.Returned?
    ensures var (t, r) := GetManager(s, k); var m, w := r.value, Reconcile(s, k, remote).0.Now();
            k in w.managers ==>
              (w.managers[k].status.ready
               <==> if !m.status.controlPlaneReady && Readable(remote) then remote.readyz == Some("ok")
                    else m.status.ready || GetChild(Located(t, k, m), ControlPlaneKey(k)).1.Found?)
  {
    hide GetManager, GetChild, Located, Body, PatchObject, WithPhase, Calm, Sane, Rank, ValidPhase, Readable;
    var (t, r) := GetManager(s, k);
    StoredPhase(s, k, TYPE_CREATED, remote);
    ReadyExactly(t, k, r.value, remote);
  }
}
