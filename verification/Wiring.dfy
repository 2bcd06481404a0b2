/** What the children say: their references resolve, their owners were there first, and their
    values are the manager's. */
module Wiring {
  import opened Api
  import opened Naming
  import opened Store
  import opened Children
  import opened Observation
  import opened Reconciling
  import opened Traces
  import opened Safety
  import opened Lifecycle
  import opened Provisioning

  // ---------------------------------------------------------------------------------------
  // Invariants about one manager's desire and its stored children

  /** A property of a child under its key. */
  type Quality = (ChildKey, Child) -> bool

  /** A property of what a manager wants. */
  type Desire = (Spec, AwsSpec) -> bool

  ghost predicate Fits(k: Key, good: Quality, want: Desire, w: World) {
    && (forall ck | IsChildOf(ck, k) && ck in w.children :: good(ck, w.children[ck]))
    && (k in w.managers ==> want(w.managers[k].spec, w.managers[k].aws))
  }

  ghost function Fitting(k: Key, good: Quality, want: Desire): World -> bool {
    (w: World) => Fits(k, good, want, w)
  }

  /** Others put only good children in place and edit the manager only as wanted. */
  ghost function FittingEvents(k: Key, good: Quality, want: Desire): Env {
    (e: Event) =>
      && ((e.ChildAdded? || e.ChildChanged?) && IsChildOf(e.ck, k) ==> good(e.ck, e.child))
      && ((e.ManagerAdded? || e.ManagerEdited?) && e.key == k ==> want(e.spec, e.aws))
  }

  /** The controller's own ways of making and changing a child keep it good. */
  ghost predicate Robust(k: Key, good: Quality, want: Desire) {
    && (forall m: Manager, ck | want(m.spec, m.aws) && IsChildOf(ck, k) :: good(ck, Template(ck, k, m)))
    && (forall m: Manager, ck, c, c' | want(m.spec, m.aws) && good(ck, c) && Resized(m, c, c') :: good(ck, c'))
    && (forall ck, c | good(ck, c) && c.Cluster? :: good(ck, c.(deleting := true)))
  }

  /** The children alone. */
  ghost function KidsFitting(k: Key, good: Quality): World -> bool {
    (w: World) => forall ck | IsChildOf(ck, k) && ck in w.children :: good(ck, w.children[ck])
  }

  lemma EventFitsKids(k: Key, good: Quality, want: Desire, w: World, e: Event)
    requires KidsFitting(k, good)(w) && FittingEvents(k, good, want)(e)
    ensures KidsFitting(k, good)(Apply(w, e))
  {
    hide IsChildOf;
    EventChildren(w, e);
    if !e.ChildAdded? && !e.ChildChanged? && !e.ChildRemoved? {
      hide Apply;
    }
  }

  /** k's values after an event are the old ones or the event's. */
  ghost predicate Revalued(k: Key, e: Event, w: World, w': World) {
    k in w'.managers ==>
      var y := w'.managers[k];
      || (k in w.managers && y.spec == w.managers[k].spec && y.aws == w.managers[k].aws)
      || ((e.ManagerAdded? || e.ManagerEdited?) && e.key == k && y.spec == e.spec && y.aws == e.aws)
  }

  lemma PutRevalues(k: Key, e: Event, w: World, key: Key, m: Manager)
    requires key in w.managers
    requires key == k ==>
               || (m.spec == w.managers[k].spec && m.aws == w.managers[k].aws)
               || (e.ManagerEdited? && e.key == k && m.spec == e.spec && m.aws == e.aws)
    ensures Revalued(k, e, w, PutManager(w, key, m))
  {
  }

  lemma EventRevalues(k: Key, w: World, e: Event)
    ensures Revalued(k, e, w, Apply(w, e))
  {
    hide PutManager;
    if (e.ManagerDeleted? || e.ManagerEdited? || e.ManagerRelabelled? || e.ForeignFinalizer? || e.StatusWritten?
        || e.ManagerReleased? || e.ManagerPatched?) && e.key in w.managers {
      var x := w.managers[e.key];
      forall m: Manager | m.spec == x.spec && m.aws == x.aws ensures Revalued(k, e, w, PutManager(w, e.key, m)) {
        PutRevalues(k, e, w, e.key, m);
      }
      if e.ManagerEdited? {
        PutRevalues(k, e, w, e.key, x.(spec := e.spec, aws := e.aws));
      }
    }
  }

  lemma OthersFit(k: Key, good: Quality, want: Desire, w: World, e: Event)
    requires Fits(k, good, want, w) && FittingEvents(k, good, want)(e)
    ensures Fits(k, good, want, Apply(w, e))
  {
    hide Apply, IsChildOf;
    EventFitsKids(k, good, want, w, e);
    EventRevalues(k, w, e);
  }

  lemma BuildFits(k: Key, m: Manager, good: Quality, want: Desire, w: World, e: Moment)
    requires Fits(k, good, want, w) && Robust(k, good, want) && want(m.spec, m.aws)
    requires BuildStep(k, m, w, e) || TearStep(k, w, e)
    ensures Fits(k, good, want, e.world)
  {
    hide IsChildOf, Template, Resized;
    assert ClusterKey(k) in w.children ==> w.children[ClusterKey(k)].Kind() == ClusterKind;
  }

  lemma PatchFits(k: Key, before: Manager, after: Manager, good: Quality, want: Desire, w: World, e: Moment)
    requires Fits(k, good, want, w) && PatchStep(k, before, after, w, e)
    requires before.spec == after.spec || forall sp, aw :: want(sp, aw)
    ensures Fits(k, good, want, e.world)
  {
    hide IsChildOf, MergeMap, MergeStatus;
  }

  lemma StepsFit(s: Sys, t: Sys, k: Key, good: Quality, want: Desire, rule: Rule)
    requires Steps(s, t, rule) && Fits(k, good, want, s.Now())
    requires forall w, e :: Fits(k, good, want, w) && rule(w, e) ==>
               Others(FittingEvents(k, good, want))(w, e) || Fits(k, good, want, e.world)
    ensures Always(s, t, Fitting(k, good, want)) && Fits(k, good, want, t.Now())
  {
    var inv := Fitting(k, good, want);
    forall w, e | inv(w) && rule(w, e) ensures inv(e.world) {
      if Others(FittingEvents(k, good, want))(w, e) {
        OthersFit(k, good, want, w, e.event);
      }
    }
    AlwaysFrom(s, t, rule, inv);
    assert inv(t.At(|t.past|));
  }

  /** The remote cluster's version is not read, so the status phase does not get to write it. */
  predicate Blind(remote: Remote) {
    !remote.secret || !remote.client || remote.config.None? || !remote.config.value.decodes
  }

  /** The status phase does not get to read it: it cannot, or the manager is ready, or the body
      only adds the finalizer or tears down. */
  ghost predicate LooksAway(m: Manager, remote: Remote) {
    Blind(remote) || m.status.controlPlaneReady || FINALIZER !in m.finalizers || TearsDown(m)
  }

  /** A reconcile that starts here does not read it. */
  ghost predicate Unread(s: Sys, k: Key, remote: Remote) {
    var r := GetManager(s, k).1;
    r.Found? ==> LooksAway(r.value, remote)
  }

  lemma {:induction false} PhasesKeepSpec(phases: seq<Phase>, s: Sys, k: Key, m: Manager, remote: Remote,
                                          res: Result, failed: bool)
    requires Blind(remote) || m.status.controlPlaneReady
    ensures RunPhases(phases, s, k, m, remote, res, failed).clm.spec == m.spec
    decreases |phases|
  {
    hide GetChild, PatchChildObject, Walk;
    if phases != [] {
      var o := RunPhase(phases[0], s, k, m, remote);
      assert o.clm.spec == m.spec && o.clm.status.controlPlaneReady == m.status.controlPlaneReady;
      if o.answer.Returned? {
        var failed' := failed || o.answer.failed;
        PhasesKeepSpec(phases[1..], o.sys, k, o.clm, remote, if failed' then res else o.answer.result, failed');
      }
    }
  }

  lemma BodyKeepsSpec(s: Sys, k: Key, m: Manager, remote: Remote)
    requires LooksAway(m, remote)
    ensures WithPhase(Body(s, k, m, remote).clm).spec == m.spec
  {
    hide RunPhases, GetChild, Delete;
    if FINALIZER in m.finalizers && !TearsDown(m) {
      PhasesKeepSpec(PhasesOf(m), s, k, m, remote, ZERO, false);
    }
  }

  lemma BodyFits(t: Sys, k: Key, m: Manager, remote: Remote, good: Quality, want: Desire)
    requires PlanOf(t.plan, FittingEvents(k, good, want)) && Robust(k, good, want)
    requires Fits(k, good, want, t.Now()) && want(m.spec, m.aws)
    ensures var o := Body(t, k, m, remote);
            && Always(t, o.sys, Fitting(k, good, want)) && Fits(k, good, want, o.sys.Now())
            && PlanOf(o.sys.plan, FittingEvents(k, good, want))
  {
    hide RunPhases, TearDown, Fits, Robust;
    var env := FittingEvents(k, good, want);
    var o := Body(t, k, m, remote);
    if FINALIZER in m.finalizers && TearsDown(m) {
      TearDownSteps(t, k, Ready(m, false), env);
      forall w, e | Fits(k, good, want, w) && Tears(k, env)(w, e)
        ensures Others(env)(w, e) || Fits(k, good, want, e.world)
      {
        if !Others(env)(w, e) {
          BuildFits(k, m, good, want, w, e);
        }
      }
      StepsFit(t, o.sys, k, good, want, Tears(k, env));
    } else {
      BodyBuilds(t, k, m, remote, env);
      forall w, e | Fits(k, good, want, w) && Builds(k, m, env)(w, e)
        ensures Others(env)(w, e) || Fits(k, good, want, e.world)
      {
        if !Others(env)(w, e) {
          BuildFits(k, m, good, want, w, e);
        }
      }
      StepsFit(t, o.sys, k, good, want, Builds(k, m, env));
    }
  }

  lemma ReconcileFits(s: Sys, k: Key, remote: Remote, good: Quality, want: Desire)
    requires PlanOf(s.plan, FittingEvents(k, good, want)) && Robust(k, good, want)
    requires Fits(k, good, want, s.Now())
    requires Unread(s, k, remote) || forall sp, aw :: want(sp, aw)
    ensures Always(s, Reconcile(s, k, remote).0, Fitting(k, good, want))
  {
    hide GetManager, Body, PatchObject, WithPhase, Robust;
    var env := FittingEvents(k, good, want);
    var (t, r) := GetManager(s, k);
    GetManagerSteps(s, k, env, Reads(env));
    StepsFit(s, t, k, good, want, Reads(env));
    if r.Found? {
      var m := r.value;
      var o := Body(t, k, m, remote);
      BodyFits(t, k, m, remote, good, want);
      var after := WithPhase(o.clm);
      if Unread(s, k, remote) {
        BodyKeepsSpec(t, k, m, remote);
      }
      var u := PatchObject(o.sys, k, m, after).0;
      PatchSteps(o.sys, k, m, after, env);
      forall w, e | Fits(k, good, want, w) && Patches(k, m, after, env)(w, e)
        ensures Others(env)(w, e) || Fits(k, good, want, e.world)
      {
        if !Others(env)(w, e) {
          PatchFits(k, m, after, good, want, w, e);
        }
      }
      StepsFit(o.sys, u, k, good, want, Patches(k, m, after, env));
      AlwaysJoin(s, t, o.sys, Fitting(k, good, want));
      AlwaysJoin(s, o.sys, u, Fitting(k, good, want));
    }
  }

  lemma ElsewhereFits(k: Key, key: Key, good: Quality, want: Desire, w: World, w': World)
    requires key != k && SameElsewhere(key, w, w') && Fits(k, good, want, w)
    ensures Fits(k, good, want, w')
  {
    assert SameManager(k, w, w');
    forall ck | IsChildOf(ck, k) && ck in w'.children ensures good(ck, w'.children[ck]) {
      if IsChildOf(ck, key) {
        ChildKeysIsolated(key, k, ck);
      }
      assert SameChild(ck, w, w');
    }
  }

  lemma OtherReconcileFits(s: Sys, key: Key, remote: Remote, k: Key, good: Quality, want: Desire)
    requires PlanOf(s.plan, FittingEvents(k, good, want)) && Fits(k, good, want, s.Now()) && key != k
    ensures Always(s, Reconcile(s, key, remote).0, Fitting(k, good, want))
  {
    hide Reconcile, SameElsewhere, Fits;
    var env := FittingEvents(k, good, want);
    ReconcileMinds(s, key, remote, env);
    forall w, e | Fits(k, good, want, w) && Minds(key, env)(w, e)
      ensures Others(env)(w, e) || Fits(k, good, want, e.world)
    {
      if !Others(env)(w, e) {
        ElsewhereFits(k, key, good, want, w, e.world);
      }
    }
    StepsFit(s, Reconcile(s, key, remote).0, k, good, want, Minds(key, env));
  }

  /** The others behave, and no reconcile of k has read the remote version, if that matters. */
  ghost predicate FittingJob(t: Sys, job: Job, k: Key, good: Quality, want: Desire) {
    && JobOf(job, FittingEvents(k, good, want))
    && (job.Manage? && job.key == k ==>
          Unread(t.(plan := job.plan), k, job.remote) || forall sp, aw :: want(sp, aw))
  }

  ghost predicate FittingRun(s: Sys, jobs: seq<Job>, k: Key, good: Quality, want: Desire) {
    jobs == []
    || var init, job := jobs[..|jobs| - 1], jobs[|jobs| - 1];
       FittingRun(s, init, k, good, want) && FittingJob(Run(s, init), job, k, good, want)
  }

  lemma {:induction false} RunFits(s: Sys, jobs: seq<Job>, k: Key, good: Quality, want: Desire)
    requires Fits(k, good, want, s.Now()) && Robust(k, good, want) && FittingRun(s, jobs, k, good, want)
    ensures Always(s, Run(s, jobs), Fitting(k, good, want)) && Fits(k, good, want, Run(s, jobs).Now())
  {
    hide Robust, Fits, FittingJob, Do;
    if jobs != [] {
      var init, job := jobs[..|jobs| - 1], jobs[|jobs| - 1];
      RunFits(s, init, k, good, want);
      var t := Run(s, init);
      DoFits(t, job, k, good, want);
      AlwaysJoin(s, t, Do(t, job), Fitting(k, good, want));
      assert Fitting(k, good, want)(Do(t, job).At(|Do(t, job).past|));
    } else {
      assert Fitting(k, good, want)(s.At(|s.past|));
    }
  }

  lemma DoFits(t: Sys, job: Job, k: Key, good: Quality, want: Desire)
    requires Fits(k, good, want, t.Now()) && Robust(k, good, want) && FittingJob(t, job, k, good, want)
    ensures Always(t, Do(t, job), Fitting(k, good, want))
  {
    hide Robust, Fits, Reconcile, Unread;
    match job
    case Outside(events) =>
      HappenSteps(t, events, FittingEvents(k, good, want));
      StepsFit(t, Happen(t, events), k, good, want, Others(FittingEvents(k, good, want)));
    case Manage(key, remote, plan) =>
      var s := t.(plan := plan);
      assert s.Now() == t.Now();
      if key == k {
        ReconcileFits(s, k, remote, good, want);
      } else {
        OtherReconcileFits(s, key, remote, k, good, want);
      }
  }

  lemma FitsKids(k: Key, good: Quality, want: Desire, w: World)
    requires Fits(k, good, want, w)
    ensures KidsFitting(k, good)(w)
  {
  }

  lemma AlwaysKids(s: Sys, t: Sys, k: Key, good: Quality, want: Desire)
    requires Always(s, t, Fitting(k, good, want))
    ensures Always(s, t, KidsFitting(k, good))
  {
    hide Fits;
    forall i | |s.past| <= i <= |t.past| ensures KidsFitting(k, good)(t.At(i)) {
      assert Fitting(k, good, want)(t.At(i));
      FitsKids(k, good, want, t.At(i));
    }
  }

  lemma PatchFitsKids(s: Sys, u: Sys, k: Key, m: Manager, a: Manager, good: Quality, want: Desire)
    requires Steps(s, u, Patches(k, m, a, FittingEvents(k, good, want))) && Fits(k, good, want, s.Now())
    ensures Always(s, u, KidsFitting(k, good))
  {
    hide Apply, IsChildOf, PatchStep;
    var env := FittingEvents(k, good, want);
    FitsKids(k, good, want, s.Now());
    forall w, e | KidsFitting(k, good)(w) && Patches(k, m, a, env)(w, e) ensures KidsFitting(k, good)(e.world) {
      if Others(env)(w, e) {
        EventFitsKids(k, good, want, w, e.event);
      } else {
        PatchLeavesChildren(k, m, a, w, e);
      }
    }
    AlwaysFrom(s, u, Patches(k, m, a, env), KidsFitting(k, good));
  }

  /** The reconcile that does read the remote version: the manager and its children fit until its
      deferred patch, and the children fit to its end. */
  lemma ReadingReconcileFits(s: Sys, k: Key, remote: Remote, good: Quality, want: Desire)
    requires PlanOf(s.plan, FittingEvents(k, good, want)) && Robust(k, good, want)
    requires Fits(k, good, want, s.Now())
    ensures var (t, r) := GetManager(s, k);
            && Always(s, if r.Found? then Body(t, k, r.value, remote).sys else t, Fitting(k, good, want))
            && Always(s, Reconcile(s, k, remote).0, KidsFitting(k, good))
  {
    hide GetManager, Body, PatchObject, WithPhase, Robust, Fits, KidsFitting;
    var env := FittingEvents(k, good, want);
    var (t, r) := GetManager(s, k);
    GetManagerSteps(s, k, env, Reads(env));
    forall w, e | Reads(env)(w, e) && Fits(k, good, want, w) ensures Others(env)(w, e) || Fits(k, good, want, e.world) {
      if !Others(env)(w, e) {
        assert e.world == w;
      }
    }
    StepsFit(s, t, k, good, want, Reads(env));
    AlwaysKids(s, t, k, good, want);
    if r.Found? {
      var m := r.value;
      assert want(m.spec, m.aws) by { FitsMeans(k, good, want, t.Now()); }
      var o := Body(t, k, m, remote);
      BodyFits(t, k, m, remote, good, want);
      AlwaysJoin(s, t, o.sys, Fitting(k, good, want));
      AlwaysKids(s, o.sys, k, good, want);
      var after := WithPhase(o.clm);
      PatchSteps(o.sys, k, m, after, env);
      PatchFitsKids(o.sys, PatchObject(o.sys, k, m, after).0, k, m, after, good, want);
      AlwaysJoin(s, o.sys, PatchObject(o.sys, k, m, after).0, KidsFitting(k, good));
    }
  }

  lemma FitsMeans(k: Key, good: Quality, want: Desire, w: World)
    requires Fits(k, good, want, w) && k in w.managers
    ensures want(w.managers[k].spec, w.managers[k].aws)
  {
  }

  // ---------------------------------------------------------------------------------------
  // Referential closure

  function Refs(c: Child): seq<Ref> {
    match c
    case Cluster(r1, r2, _, _, _) => [r1, r2]
    case AwsCluster(owner, _, _) => [owner]
    case ControlPlane(owner, machines, _, _, _) => [owner, machines]
    case MachineTemplate(owner, _, _) => [owner]
    case MachineDeployment(_, bootstrap, machines, _, _, _) => [bootstrap, machines]
    case ConfigTemplate(owner) => [owner]
  }

  const NOBODY := Manager(map[], map[], {}, false, Spec("", "", 0, 0), AwsSpec("", "", "", ""), NEW_STATUS)

  /** Where a reference held by an object of k's namespace leads. */
  function Target(k: Key, r: Ref): ChildKey {
    ChildKey(r.kind, Key(k.namespace, r.name))
  }

  /** Who refers to whom. */
  predicate Wired(k: Key, ck: ChildKey, c: Child) {
    match c
    case Cluster(controlPlane, infrastructure, _, _, _) =>
      Target(k, controlPlane) == ControlPlaneKey(k) && Target(k, infrastructure) == AwsClusterKey(k)
    case AwsCluster(owner, _, _) => Target(k, owner) == ClusterKey(k)
    case ControlPlane(owner, machines, _, _, _) =>
      Target(k, owner) == ClusterKey(k) && Target(k, machines) == MasterTemplateKey(k)
    case MachineTemplate(owner, _, _) =>
      Target(k, owner) == if ck == MasterTemplateKey(k) then ClusterKey(k) else DeploymentKey(k)
    case MachineDeployment(clusterName, bootstrap, machines, _, _, _) =>
      && clusterName == k.name
      && Target(k, bootstrap) == ConfigTemplateKey(k) && Target(k, machines) == WorkerTemplateKey(k)
    case ConfigTemplate(owner) => Target(k, owner) == DeploymentKey(k)
  }

  ghost function WiredFor(k: Key): Quality {
    (ck: ChildKey, c: Child) => Wired(k, ck, c)
  }

  ghost function Whatever(): Desire {
    (sp: Spec, aw: AwsSpec) => true
  }

  /** If any desire will do, reading the remote version does not matter. */
  lemma {:induction false} AnythingFits(s: Sys, jobs: seq<Job>, k: Key, good: Quality)
    requires forall job | job in jobs :: JobOf(job, FittingEvents(k, good, Whatever()))
    ensures FittingRun(s, jobs, k, good, Whatever())
  {
    hide Unread, Run, JobOf;
    if jobs != [] {
      var init, job := jobs[..|jobs| - 1], jobs[|jobs| - 1];
      assert job in jobs && forall j | j in init :: j in jobs;
      AnythingFits(s, init, k, good);
      assert forall sp, aw :: Whatever()(sp, aw);
    }
  }

  lemma WiringRobust(k: Key)
    ensures Robust(k, WiredFor(k), Whatever())
  {
    hide IsChildOf;
  }

  /** All references and owners inside k's children resolve to stored objects of that kind and name. */
  ghost predicate Closed(k: Key, w: World) {
    forall ck, r | IsChildOf(ck, k) && ck in w.children && r in Refs(w.children[ck]) :: Target(k, r) in w.children
  }

  /** Every reference names another of the seven children. */
  lemma WiredRefers(ck: ChildKey, k: Key, c: Child, r: Ref)
    requires Wired(k, ck, c) && r in Refs(c)
    ensures IsChildOf(Target(k, r), k)
  {
    var cp, wk := ControlPlaneChain(k), WorkerChain(k);
    assert cp[0] in cp && cp[1] in cp && cp[2] in cp && cp[3] in cp && wk[0] in wk && wk[1] in wk && wk[2] in wk;
  }

  lemma WiredCloses(k: Key, w: World)
    requires Fits(k, WiredFor(k), Whatever(), w) && AllExist(w, k)
    ensures Closed(k, w)
  {
    hide IsChildOf, Missing, Wired;
    MissingNone(w, ControlPlaneChain(k));
    MissingNone(w, WorkerChain(k));
    forall ck, r | IsChildOf(ck, k) && ck in w.children && r in Refs(w.children[ck])
      ensures Target(k, r) in w.children
    {
      assert WiredFor(k)(ck, w.children[ck]);
      WiredRefers(ck, k, w.children[ck], r);
      ChildIsListed(Target(k, r), k);
    }
  }

  lemma ChildIsListed(ck: ChildKey, k: Key)
    requires IsChildOf(ck, k)
    ensures ck in ControlPlaneChain(k) || ck in WorkerChain(k)
  {
  }

  /** Every existing child of k refers to the children it should refer to. */
  ghost predicate AllWired(k: Key, w: World) {
    forall ck | IsChildOf(ck, k) && ck in w.children :: Wired(k, ck, w.children[ck])
  }

  /** Referential closure: in every run, with every fault, at every moment, every child refers to
      the children it should refer to, and when all seven exist every reference resolves,
      provided nobody rewires them. */
  lemma ReferencesResolve(s: Sys, jobs: seq<Job>, k: Key)
    requires Fits(k, WiredFor(k), Whatever(), s.Now())
    requires forall job | job in jobs :: JobOf(job, FittingEvents(k, WiredFor(k), Whatever()))
    ensures var t := Run(s, jobs);
            && (forall i | |s.past| <= i <= |t.past| :: AllWired(k, t.At(i)))
            && (forall i | |s.past| <= i <= |t.past| && AllExist(t.At(i), k) :: Closed(k, t.At(i)))
  {
    hide Fits, AllExist, Closed, AllWired;
    WiringRobust(k);
    AnythingFits(s, jobs, k, WiredFor(k));
    RunFits(s, jobs, k, WiredFor(k), Whatever());
    var t := Run(s, jobs);
    forall i | |s.past| <= i <= |t.past|
      ensures AllWired(k, t.At(i)) && (AllExist(t.At(i), k) ==> Closed(k, t.At(i)))
    {
      assert Fitting(k, WiredFor(k), Whatever())(t.At(i));
      FittingIsWired(k, t.At(i));
      if AllExist(t.At(i), k) {
        WiredCloses(k, t.At(i));
      }
    }
  }

  lemma FittingIsWired(k: Key, w: World)
    requires Fits(k, WiredFor(k), Whatever(), w)
    ensures AllWired(k, w)
  {
    hide IsChildOf, Wired;
    forall ck | IsChildOf(ck, k) && ck in w.children ensures Wired(k, ck, w.children[ck]) {
      assert WiredFor(k)(ck, w.children[ck]);
    }
  }

  // ---------------------------------------------------------------------------------------
  // Propagation

  /** The child carries the values of the desired state. */
  predicate Carries(k: Key, spec: Spec, aws: AwsSpec, ck: ChildKey, c: Child) {
    match c
    case Cluster(_, _, _, _, _) => true
    case AwsCluster(_, region, sshKey) => region == aws.region && sshKey == aws.sshKey
    case ControlPlane(_, _, replicas, version, _) =>
      replicas == Some(Int32(spec.masterNum)) && version == spec.version
    case MachineTemplate(_, instanceType, sshKey) =>
      && sshKey == aws.sshKey
      && instanceType == (if ck == MasterTemplateKey(k) then aws.masterType else aws.workerType)
    case MachineDeployment(_, _, _, workers, version, _) =>
      workers == Some(Int32(spec.workerNum)) && version == Some(spec.version)
    case ConfigTemplate(_) => true
  }

  ghost function Carrying(k: Key, spec: Spec, aws: AwsSpec): Quality {
    (ck: ChildKey, c: Child) => Carries(k, spec, aws, ck, c)
  }

  ghost function Exactly(spec: Spec, aws: AwsSpec): Desire {
    (sp: Spec, aw: AwsSpec) => sp == spec && aw == aws
  }

  lemma CarryingRobust(k: Key, spec: Spec, aws: AwsSpec)
    ensures Robust(k, Carrying(k, spec, aws), Exactly(spec, aws))
  {
    hide IsChildOf;
  }

  /** Propagation: as long as nobody edits the manager or the children's values and no reconcile
      has read the remote version, then at every moment of every run every existing child carries
      the manager's replicas (as int32), version, region, key and instance types, and the manager
      still carries the values it started with. */
  lemma ValuesPropagate(s: Sys, jobs: seq<Job>, k: Key, spec: Spec, aws: AwsSpec)
    requires Fits(k, Carrying(k, spec, aws), Exactly(spec, aws), s.Now())
    requires FittingRun(s, jobs, k, Carrying(k, spec, aws), Exactly(spec, aws))
    ensures Always(s, Run(s, jobs), Fitting(k, Carrying(k, spec, aws), Exactly(spec, aws)))
  {
    hide Fits;
    CarryingRobust(k, spec, aws);
    RunFits(s, jobs, k, Carrying(k, spec, aws), Exactly(spec, aws));
  }

  /** And on into the reconcile that reads it: the manager keeps the values until that reconcile's
      deferred patch, the children to its end. */
  lemma ValuesOutlastTheRead(s: Sys, jobs: seq<Job>, k: Key, remote: Remote, plan: seq<Tick>,
                             spec: Spec, aws: AwsSpec)
    requires Fits(k, Carrying(k, spec, aws), Exactly(spec, aws), s.Now())
    requires FittingRun(s, jobs, k, Carrying(k, spec, aws), Exactly(spec, aws))
    requires PlanOf(plan, FittingEvents(k, Carrying(k, spec, aws), Exactly(spec, aws)))
    ensures var v := Run(s, jobs).(plan := plan);
            var (t, r) := GetManager(v, k);
            && Always(s, if r.Found? then Body(t, k, r.value, remote).sys else t,
                      Fitting(k, Carrying(k, spec, aws), Exactly(spec, aws)))
            && Always(s, Reconcile(v, k, remote).0, KidsFitting(k, Carrying(k, spec, aws)))
  {
    hide Fits, GetManager, Body, Reconcile, KidsFitting, Robust;
    var good, want := Carrying(k, spec, aws), Exactly(spec, aws);
    CarryingRobust(k, spec, aws);
    RunFits(s, jobs, k, good, want);
    var u := Run(s, jobs);
    var v := u.(plan := plan);
    assert v.Now() == u.Now();
    ReadingReconcileFits(v, k, remote, good, want);
    var (t, r) := GetManager(v, k);
    var o := if r.Found? then Body(t, k, r.value, remote).sys else t;
    assert Always(s, v, Fitting(k, good, want)) by { AlwaysReplanned(s, u, plan, Fitting(k, good, want)); }
    AlwaysJoin(s, v, o, Fitting(k, good, want));
    AlwaysKids(s, v, k, good, want);
    AlwaysJoin(s, v, Reconcile(v, k, remote).0, KidsFitting(k, good));
  }

  lemma AlwaysReplanned(s: Sys, u: Sys, plan: seq<Tick>, inv: World -> bool)
    requires Always(s, u, inv)
    ensures Always(s, u.(plan := plan), inv)
  {
    var v := u.(plan := plan);
    forall i | |s.past| <= i <= |v.past| ensures inv(v.At(i)) {
      assert v.At(i) == u.At(i);
    }
  }

  // ---------------------------------------------------------------------------------------
  // Owners first

  /** The root of the chain that a child belongs to. */
  function RootKey(ck: ChildKey, k: Key): ChildKey {
    if ck in ControlPlaneChain(k) then ClusterKey(k) else DeploymentKey(k)
  }

  /** Each creation of an owned child between positions a and b of the log comes after a
      successful read, no earlier than a, of the object that it names as its owner. */
  ghost predicate OwnersFirst(s: Sys, a: nat, b: nat, k: Key) {
    forall i | a <= i < b <= |s.past| && s.past[i].Called? && s.past[i].call.CreateChild? ::
      OwnerSeen(s, a, i, s.past[i].call.ck, k)
  }

  ghost predicate OwnerSeen(s: Sys, a: nat, i: nat, ck: ChildKey, k: Key)
    requires i <= |s.past|
  {
    || ck == RootKey(ck, k)
    || Seen(s, a, i, RootKey(ck, k))
  }

  ghost predicate Seen(s: Sys, a: nat, i: nat, root: ChildKey)
    requires i <= |s.past|
  {
    exists j | a <= j < i ::
      s.past[j].Called? && s.past[j].call == ReadChild(root) && s.past[j].ok && root in s.past[j].world.children
  }

  lemma SeenGrows(s: Sys, t: Sys, a: nat, i: nat, b: nat, root: ChildKey)
    requires Grows(s, t) && i <= |s.past| && i <= b <= |t.past| && Seen(s, a, i, root)
    ensures Seen(t, a, b, root)
  {
    var j :| a <= j < i && s.past[j].Called? && s.past[j].call == ReadChild(root) && s.past[j].ok
             && root in s.past[j].world.children;
    assert t.past[j] == s.past[j];
  }

  lemma OwnersJoin(s: Sys, t: Sys, a: nat, k: Key)
    requires Grows(s, t) && a <= |s.past| && OwnersFirst(s, a, |s.past|, k)
    requires forall i | |s.past| <= i < |t.past| && t.past[i].Called? && t.past[i].call.CreateChild? ::
               OwnerSeen(t, a, i, t.past[i].call.ck, k)
    ensures OwnersFirst(t, a, |t.past|, k)
  {
    forall i | a <= i < |t.past| && t.past[i].Called? && t.past[i].call.CreateChild?
      ensures OwnerSeen(t, a, i, t.past[i].call.ck, k)
    {
      if i < |s.past| {
        assert t.past[i] == s.past[i];
        var ck := t.past[i].call.ck;
        assert OwnerSeen(s, a, i, ck, k);
        if ck != RootKey(ck, k) {
          SeenGrows(s, t, a, i, i, RootKey(ck, k));
        }
        assert OwnerSeen(t, a, i, ck, k);
      } else {
        assert OwnerSeen(t, a, i, t.past[i].call.ck, k);
      }
    }
  }

  ghost predicate CreatesNothing(rule: Rule) {
    forall w, m :: rule(w, m) && m.Called? ==> !m.call.CreateChild?
  }

  lemma OtherRulesCreateNothing(k: Key, before: Manager, after: Manager)
    ensures CreatesNothing(Others(AnyEvent)) && CreatesNothing(Reads(AnyEvent))
    ensures CreatesNothing(Childless(AnyEvent)) && CreatesNothing(Tears(k, AnyEvent))
    ensures CreatesNothing(Patches(k, before, after, AnyEvent))
  {
  }

  lemma BarrenOwners(s: Sys, t: Sys, a: nat, k: Key, rule: Rule)
    requires Steps(s, t, rule) && CreatesNothing(rule)
    requires a <= |s.past| && OwnersFirst(s, a, |s.past|, k)
    ensures OwnersFirst(t, a, |t.past|, k)
  {
    forall i | |s.past| <= i < |t.past| ensures t.past[i].Called? ==> !t.past[i].call.CreateChild? {
      assert rule(t.At(i), t.past[i]);
    }
    OwnersJoin(s, t, a, k);
  }

  lemma AnyPlan(s: Sys)
    ensures PlanOf(s.plan, AnyEvent)
  {
  }

  lemma ReadOwners(s: Sys, ck: ChildKey, a: nat, k: Key)
    requires a <= |s.past| && OwnersFirst(s, a, |s.past|, k)
    ensures var (t, r) := GetChild(s, ck);
            && Grows(s, t) && OwnersFirst(t, a, |t.past|, k)
            && (r.Found? ==> Seen(t, a, |t.past|, ck))
  {
    AnyPlan(s);
    OtherRulesCreateNothing(k, NOBODY, NOBODY);
    GetChildSteps(s, ck, AnyEvent, Childless(AnyEvent));
    var (t, r) := GetChild(s, ck);
    BarrenOwners(s, t, a, k, Childless(AnyEvent));
    TurnSteps(s, AnyEvent);
    if r.Found? {
      var j := |t.past| - 1;
      assert t.past[j] == Called(ReadChild(ck), true, Turn(s).Now()) && j >= |s.past|;
    }
  }

  lemma CreateOwners(s: Sys, ck: ChildKey, child: Child, a: nat, k: Key)
    requires a <= |s.past| && OwnersFirst(s, a, |s.past|, k) && child.Kind() == ck.kind
    requires ck == RootKey(ck, k) || Seen(s, a, |s.past|, RootKey(ck, k))
    ensures var t := Create(s, ck, child).0; Grows(s, t) && OwnersFirst(t, a, |t.past|, k)
  {
    AnyPlan(s);
    TurnSteps(s, AnyEvent);
    var v := Turn(s);
    OtherRulesCreateNothing(k, NOBODY, NOBODY);
    BarrenOwners(s, v, a, k, Others(AnyEvent));
    var t := Create(s, ck, child).0;
    assert t == v.Log(t.past[|v.past|]) && t.past[|v.past|].call == CreateChild(ck, child);
    if ck != RootKey(ck, k) {
      SeenGrows(s, t, a, |s.past|, |v.past|, RootKey(ck, k));
    }
    OwnersJoin(v, t, a, k);
  }

  /** Walking a chain from its root, or on from it once it has been seen. */
  lemma {:induction false} WalkOwners(s: Sys, links: seq<Link>, root: ChildKey, a: nat, k: Key)
    requires a <= |s.past| && OwnersFirst(s, a, |s.past|, k)
    requires forall l | l in links :: RootKey(l.Ck(), k) == root
    requires Seen(s, a, |s.past|, root) || links == [] || (links[0].Ck() == root && links[0].stopOnError)
    ensures var t := Walk(s, links).0; Grows(s, t) && OwnersFirst(t, a, |t.past|, k)
    decreases |links|
  {
    hide GetChild, Create, OwnersFirst, RootKey, Seen;
    if links != [] {
      var ck := links[0].Ck();
      WalkProceeds(s, links, 0);
      assert links[0..] == links;
      ReadOwners(s, ck, a, k);
      var (t, r) := GetChild(s, ck);
      if Seen(s, a, |s.past|, root) {
        SeenGrows(s, t, a, |s.past|, |t.past|, root);
      }
      if r.NotFound? {
        CreateOwners(t, ck, links[0].child, a, k);
      } else if r.Found? || !links[0].stopOnError {
        WalkOwners(t, links[1..], root, a, k);
      }
    }
  }

  lemma ChainRoots(k: Key, m: Manager)
    ensures forall l | l in ControlPlaneLinks(k, m) :: RootKey(l.Ck(), k) == ClusterKey(k)
    ensures forall l | l in WorkerLinks(k, m) :: RootKey(l.Ck(), k) == DeploymentKey(k)
  {
    LinksAreChildren(k, m);
    ChainsAreChildren(k);
    forall l | l in ControlPlaneLinks(k, m) ensures l.Ck() in ControlPlaneChain(k) {
      assert l.Ck() in Keys(ControlPlaneLinks(k, m));
    }
    forall l | l in WorkerLinks(k, m) ensures l.Ck() in WorkerChain(k) {
      assert l.Ck() in Keys(WorkerLinks(k, m));
    }
  }

  lemma BuildingOwners(s: Sys, k: Key, m: Manager, remote: Remote, a: nat)
    requires Provisionable(m) && a <= |s.past| && OwnersFirst(s, a, |s.past|, k)
    ensures var o := Body(s, k, m, remote); Grows(s, o.sys) && OwnersFirst(o.sys, a, |o.sys.past|, k)
  {
    hide Walk, RunPhases, Body, OwnersFirst, Seen;
    ChainRoots(k, m);
    BodyUnfolds(s, k, m, remote);
    var (t1, r1) := Walk(s, ControlPlaneLinks(k, m));
    WalkOwners(s, ControlPlaneLinks(k, m), ClusterKey(k), a, k);
    var (t2, r2) := Walk(t1, WorkerLinks(k, m));
    WalkOwners(t1, WorkerLinks(k, m), DeploymentKey(k), a, k);
    AnyPlan(t2);
    OtherRulesCreateNothing(k, m, m);
    PhasesChildless(PUSHES, t2, k, m, remote, r2, false, AnyEvent);
    BarrenOwners(t2, RunPhases(PUSHES, t2, k, m, remote, r2, false).sys, a, k, Childless(AnyEvent));
  }

  lemma BodyOwners(s: Sys, k: Key, m: Manager, remote: Remote, a: nat)
    requires a <= |s.past| && OwnersFirst(s, a, |s.past|, k)
    ensures var o := Body(s, k, m, remote); Grows(s, o.sys) && OwnersFirst(o.sys, a, |o.sys.past|, k)
  {
    hide RunPhases, TearDown, OwnersFirst;
    AnyPlan(s);
    OtherRulesCreateNothing(k, m, m);
    if FINALIZER in m.finalizers {
      if TearsDown(m) {
        TearDownSteps(s, k, Ready(m, false), AnyEvent);
        BarrenOwners(s, TearDown(s, k, Ready(m, false)).sys, a, k, Tears(k, AnyEvent));
      } else if m.Type() == TYPE_CREATED {
        BuildingOwners(s, k, m, remote, a);
      } else {
        PhasesChildless(PhasesOf(m), s, k, m, remote, ZERO, false, AnyEvent);
        BarrenOwners(s, Body(s, k, m, remote).sys, a, k, Childless(AnyEvent));
      }
    }
  }

  /** Owners first: in every reconcile, under every interleaving and every fault, a child that
      names an owner is created only after that owner was found in the store by the same
      reconcile. */
  lemma OwnersAreFound(s: Sys, k: Key, remote: Remote)
    ensures var t := Reconcile(s, k, remote).0; OwnersFirst(t, |s.past|, |t.past|, k)
  {
    hide GetManager, Body, PatchObject, WithPhase, OwnersFirst;
    var a := |s.past|;
    NothingYet(s, k);
    AnyPlan(s);
    OtherRulesCreateNothing(k, NOBODY, NOBODY);
    var (t, r) := GetManager(s, k);
    GetManagerSteps(s, k, AnyEvent, Reads(AnyEvent));
    BarrenOwners(s, t, a, k, Reads(AnyEvent));
    if r.Found? {
      var o := Body(t, k, r.value, remote);
      BodyOwners(t, k, r.value, remote, a);
      AnyPlan(o.sys);
      var after := WithPhase(o.clm);
      PatchSteps(o.sys, k, r.value, after, AnyEvent);
      OtherRulesCreateNothing(k, r.value, after);
      BarrenOwners(o.sys, PatchObject(o.sys, k, r.value, after).0, a, k, Patches(k, r.value, after, AnyEvent));
    }
  }

  lemma NothingYet(s: Sys, k: Key)
    ensures OwnersFirst(s, |s.past|, |s.past|, k)
  {
  }

  /** The owner that a template names is the root of its chain. */
  lemma OwnerIsRoot(ck: ChildKey, k: Key, m: Manager)
    requires IsChildOf(ck, k)
    ensures var c := Template(ck, k, m);
            c.AwsCluster? || c.ControlPlane? || c.MachineTemplate? || c.ConfigTemplate? ==>
              ChildKey(c.owner.kind, Key(k.namespace, c.owner.name)) == RootKey(ck, k)
  {
    ChainsAreChildren(k);
    NamesDiffer(k.name, k.name);
  }
}
