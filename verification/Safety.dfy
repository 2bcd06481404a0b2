/** Runs of the ClusterManager controller, and finalizer safety at every moment of them. */
module Safety {
  import opened Api
  import opened Naming
  import opened Store
  import opened Children
  import opened Observation
  import opened Reconciling
  import opened Traces

  /** A run alternates what others do with reconciles of arbitrary keys by the single worker;
      each reconcile brings its own plan of interleavings and faults. */
  datatype Job =
    | Outside(events: seq<Event>)
    | Manage(key: Key, remote: Remote, plan: seq<Tick>)

  function Do(s: Sys, job: Job): Sys {
    match job
    case Outside(events) => Happen(s, events)
    case Manage(k, remote, plan) => Reconcile(s.(plan := plan), k, remote).0
  }

  function Run(s: Sys, jobs: seq<Job>): Sys {
    if jobs == [] then s else Do(Run(s, jobs[..|jobs| - 1]), jobs[|jobs| - 1])
  }

  lemma RunNone(s: Sys)
    ensures Run(s, []) == s
  {
  }

  lemma RunExtends(s: Sys, jobs: seq<Job>, job: Job)
    ensures Run(s, jobs + [job]) == Do(Run(s, jobs), job)
  {
    assert (jobs + [job])[..|jobs|] == jobs;
  }

  ghost predicate JobOf(job: Job, env: Env) {
    match job
    case Outside(events) => forall i | 0 <= i < |events| :: env(events[i])
    case Manage(_, _, plan) => PlanOf(plan, env)
  }

  ghost predicate Always(s: Sys, t: Sys, inv: World -> bool) {
    Grows(s, t) && forall i | |s.past| <= i <= |t.past| :: inv(t.At(i))
  }

  lemma AlwaysFrom(s: Sys, t: Sys, rule: Rule, inv: World -> bool)
    requires Steps(s, t, rule) && inv(s.Now())
    requires forall w, m :: inv(w) && rule(w, m) ==> inv(m.world)
    ensures Always(s, t, inv)
  {
    forall i | |s.past| <= i <= |t.past| ensures inv(t.At(i)) {
      Throughout(s, t, rule, inv, i);
    }
  }

  lemma AlwaysJoin(s: Sys, t: Sys, u: Sys, inv: World -> bool)
    requires Always(s, t, inv) && Always(t, u, inv)
    ensures Always(s, u, inv)
  {
    forall i | |s.past| <= i <= |u.past| ensures inv(u.At(i)) {
      if i < |t.past| {
        assert u.At(i) == t.At(i);
      }
    }
  }

  /** What the body of a reconcile leaves alone in its working copy. */
  ghost predicate Kept(m: Manager, m': Manager) {
    && m'.labels == m.labels && m'.deleting == m.deleting && m'.aws == m.aws
    && m'.status.phase == m.status.phase && m'.status.endpoint == m.status.endpoint
  }

  lemma ObserveKeeps(m: Manager, remote: Remote)
    ensures var m' := Observe(m, remote).0; Kept(m, m') && m'.finalizers == m.finalizers
  {
    hide Provider, Count, ProviderName;
  }

  lemma PhaseKeeps(p: Phase, s: Sys, k: Key, m: Manager, remote: Remote)
    ensures var o := RunPhase(p, s, k, m, remote); Kept(m, o.clm) && o.clm.finalizers == m.finalizers
  {
    hide GetChild, PatchChildObject, Walk, Observe;
    ObserveKeeps(m, remote);
  }

  lemma {:induction false} PhasesKeep(phases: seq<Phase>, s: Sys, k: Key, m: Manager, remote: Remote,
                                      res: Result, failed: bool)
    ensures var o := RunPhases(phases, s, k, m, remote, res, failed);
            Kept(m, o.clm) && o.clm.finalizers == m.finalizers
    decreases |phases|
  {
    hide RunPhase;
    if phases != [] {
      var o := RunPhase(phases[0], s, k, m, remote);
      PhaseKeeps(phases[0], s, k, m, remote);
      if o.answer.Returned? {
        var failed' := failed || o.answer.failed;
        PhasesKeep(phases[1..], o.sys, k, o.clm, remote, if failed' then res else o.answer.result, failed');
      }
    }
  }

  /** The finalizer leaves the working copy only after the Cluster was found to be missing. */
  ghost predicate Drops(m: Manager, m': Manager) {
    m'.finalizers != m.finalizers && FINALIZER !in m'.finalizers
  }

  lemma BodyKeeps(s: Sys, k: Key, m: Manager, remote: Remote)
    ensures var o := Body(s, k, m, remote);
            && Kept(m, o.clm)
            && (Drops(m, o.clm) ==> FINALIZER in m.finalizers && TearsDown(m))
            && (FINALIZER in m.finalizers && !TearsDown(m) ==> o.clm.finalizers == m.finalizers)
  {
    hide RunPhases, GetChild, Delete;
    PhasesKeep(PhasesOf(m), s, k, m, remote, ZERO, false);
  }

  // ---------------------------------------------------------------------------------------
  // Finalizer safety

  /** Every CAPI Cluster this controller created is guarded by a manager with our finalizer. */
  ghost predicate Guarded(w: World) {
    && w.ours <= w.children.Keys
    && forall ck | ck in w.ours && ck.kind == ClusterKind :: Holds(w, ck.key)
  }

  ghost predicate Holds(w: World, k: Key) {
    k in w.managers && FINALIZER in w.managers[k].finalizers
  }

  /** Nobody else takes our finalizer away, and nobody else is the ClusterManager controller. */
  predicate NotReleased(e: Event) {
    !e.ManagerReleased? && !e.ManagerPatched?
  }

  lemma OthersHold(w: World, e: Event, k: Key)
    requires NotReleased(e) && Holds(w, k)
    ensures Holds(Apply(w, e), k)
  {
    hide Apply;
    EventTouches(k, w, e);
  }

  lemma OthersGuard(w: World, e: Event)
    requires NotReleased(e) && Guarded(w)
    ensures Guarded(Apply(w, e)) && Apply(w, e).ours <= w.ours
  {
    hide Apply;
    EventChildren(w, e);
    forall ck | ck in Apply(w, e).ours && ck.kind == ClusterKind ensures Holds(Apply(w, e), ck.key) {
      OthersHold(w, e, ck.key);
    }
  }

  lemma BuildStepGuards(k: Key, m: Manager, w: World, o: Moment)
    requires BuildStep(k, m, w, o) && Guarded(w) && Holds(w, k)
    ensures Guarded(o.world) && Holds(o.world, k)
  {
    hide Template, Resized;
  }

  lemma BuildGuards(s: Sys, t: Sys, k: Key, m: Manager)
    requires Steps(s, t, Builds(k, m, NotReleased)) && Guarded(s.Now()) && Holds(s.Now(), k)
    ensures Always(s, t, Guarded) && Guarded(t.Now()) && Holds(t.Now(), k)
  {
    hide Guarded, Holds;
    var inv := (w: World) => Guarded(w) && Holds(w, k);
    forall w, o | inv(w) && Builds(k, m, NotReleased)(w, o) ensures inv(o.world) {
      if Others(NotReleased)(w, o) {
        OthersHold(w, o.event, k);
        OthersGuard(w, o.event);
      } else {
        BuildStepGuards(k, m, w, o);
      }
    }
    AlwaysFrom(s, t, Builds(k, m, NotReleased), inv);
    assert inv(t.At(|t.past|));
  }

  lemma TearGuards(s: Sys, t: Sys, k: Key)
    requires Steps(s, t, Tears(k, NotReleased)) && Guarded(s.Now())
    ensures Always(s, t, Guarded) && Guarded(t.Now())
  {
    forall w, o | Guarded(w) && Tears(k, NotReleased)(w, o) ensures Guarded(o.world) {
      if Others(NotReleased)(w, o) {
        OthersGuard(w, o.event);
      }
    }
    AlwaysFrom(s, t, Tears(k, NotReleased), Guarded);
    assert Guarded(t.At(|t.past|));
  }

  lemma PatchGuards(s: Sys, t: Sys, k: Key, before: Manager, after: Manager)
    requires Steps(s, t, Patches(k, before, after, NotReleased)) && Guarded(s.Now())
    requires Drops(before, after) ==> ClusterKey(k) !in s.Now().ours
    ensures Always(s, t, Guarded)
  {
    var inv := (w: World) => Guarded(w) && (Drops(before, after) ==> ClusterKey(k) !in w.ours);
    forall w, o | inv(w) && Patches(k, before, after, NotReleased)(w, o) ensures inv(o.world) {
      if Others(NotReleased)(w, o) {
        OthersGuard(w, o.event);
      } else {
        assert o.world.ours == w.ours && o.world.children == w.children;
        forall ck | ck in w.ours && ck.kind == ClusterKind ensures Holds(o.world, ck.key) {
          assert Holds(w, ck.key) && (ck.key == k ==> ck == ClusterKey(k));
        }
      }
    }
    AlwaysFrom(s, t, Patches(k, before, after, NotReleased), inv);
  }

  ghost function Reads(env: Env): Rule {
    (w: World, m: Moment) => Others(env)(w, m) || IsRead(w, m)
  }

  /** A teardown drops the finalizer only when its read of the Cluster found nothing. */
  lemma TearDownDrops(s: Sys, k: Key, m: Manager)
    requires PlanOf(s.plan, NotReleased) && Guarded(s.Now())
    ensures var o := TearDown(s, k, m);
            o.clm.finalizers != m.finalizers ==> ClusterKey(k) !in o.sys.Now().ours
  {
    GetChildSteps(s, ClusterKey(k), NotReleased, Tears(k, NotReleased));
    var t := GetChild(s, ClusterKey(k)).0;
    TearGuards(s, t, k);
  }

  lemma ReconcileGuards(s: Sys, k: Key, remote: Remote)
    requires PlanOf(s.plan, NotReleased) && Guarded(s.Now())
    ensures Always(s, Reconcile(s, k, remote).0, Guarded)
  {
    hide GetManager, Body, TearDown, PatchObject, Guarded, WithPhase;
    var (t, r) := GetManager(s, k);
    GetManagerSteps(s, k, NotReleased, Reads(NotReleased));
    forall w, o | Guarded(w) && Reads(NotReleased)(w, o) ensures Guarded(o.world) {
      if Others(NotReleased)(w, o) {
        OthersGuard(w, o.event);
      }
    }
    AlwaysFrom(s, t, Reads(NotReleased), Guarded);
    assert Guarded(t.At(|t.past|));
    if r.Found? {
      var m := r.value;
      var o := Body(t, k, m, remote);
      BodyGuards(t, k, m, remote);
      var after := WithPhase(o.clm);
      BodyKeeps(t, k, m, remote);
      PhaseIsStatus(o.clm);
      var u := PatchObject(o.sys, k, m, after).0;
      PatchSteps(o.sys, k, m, after, NotReleased);
      PatchGuards(o.sys, u, k, m, after);
      AlwaysJoin(s, t, o.sys, Guarded);
      AlwaysJoin(s, o.sys, u, Guarded);
    }
  }

  lemma PhaseIsStatus(m: Manager)
    ensures var m' := WithPhase(m);
            m' == m.(status := m'.status) && m'.status == m.status.(phase := m'.status.phase)
  {
  }

  lemma BodyGuards(t: Sys, k: Key, m: Manager, remote: Remote)
    requires PlanOf(t.plan, NotReleased) && Guarded(t.Now())
    requires k in t.Now().managers && t.Now().managers[k] == m
    ensures var o := Body(t, k, m, remote);
            && Always(t, o.sys, Guarded) && Guarded(o.sys.Now()) && PlanOf(o.sys.plan, NotReleased)
            && (Drops(m, o.clm) ==> ClusterKey(k) !in o.sys.Now().ours)
  {
    hide RunPhases, TearDown, Guarded;
    var o := Body(t, k, m, remote);
    BodyKeeps(t, k, m, remote);
    if FINALIZER !in m.finalizers {
      BodyBuilds(t, k, m, remote, NotReleased);
    } else if TearsDown(m) {
      TearDownSteps(t, k, Ready(m, false), NotReleased);
      TearGuards(t, o.sys, k);
      TearDownDrops(t, k, Ready(m, false));
    } else {
      BodyBuilds(t, k, m, remote, NotReleased);
      BuildGuards(t, o.sys, k, m);
    }
  }

  /** Finalizer safety: at every moment of every run, under every interleaving and every fault,
      a Cluster that this controller created has its manager, with the finalizer on it. */
  lemma {:induction false} FinalizerSafety(s: Sys, jobs: seq<Job>)
    requires Guarded(s.Now()) && forall job | job in jobs :: JobOf(job, NotReleased)
    ensures Always(s, Run(s, jobs), Guarded)
  {
    if jobs == [] {
      assert Run(s, jobs) == s;
    } else {
      var job := jobs[|jobs| - 1];
      var t := Run(s, jobs[..|jobs| - 1]);
      FinalizerSafety(s, jobs[..|jobs| - 1]);
      assert Guarded(t.At(|t.past|));
      DoGuards(t, job);
      AlwaysJoin(s, t, Do(t, job), Guarded);
    }
  }

  lemma DoGuards(t: Sys, job: Job)
    requires JobOf(job, NotReleased) && Guarded(t.Now())
    ensures Always(t, Do(t, job), Guarded)
  {
    match job
    case Outside(events) =>
      HappenSteps(t, events, NotReleased);
      forall w, o | Guarded(w) && Others(NotReleased)(w, o) ensures Guarded(o.world) {
        OthersGuard(w, o.event);
      }
      AlwaysFrom(t, Happen(t, events), Others(NotReleased), Guarded);
    case Manage(k, remote, plan) =>
      ReconcileGuards(t.(plan := plan), k, remote);
      var u := Do(t, job);
      assert t.(plan := plan).Now() == t.Now();
  }
}
