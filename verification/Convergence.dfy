/** Convergence: over whole runs, four fault-free reconciles provision everything, and the
    controller's own queue does not drain before that. */
module Convergence {
  import opened Api
  import opened Naming
  import opened Store
  import opened Observation
  import opened Reconciling
  import opened Traces
  import opened Safety
  import opened Lifecycle
  import opened Provisioning

  // ---------------------------------------------------------------------------------------
  // Bounded provisioning

  /** k is neither deleted nor taken over: its type stays, nobody requests its deletion and
      nobody else removes our finalizer. */
  ghost function Steady(k: Key): Env {
    (e: Event) => KeepsType(k, TYPE_CREATED, e) && NotReleased(e) && !(e.ManagerDeleted? && e.key == k)
  }

  ghost function Alive(k: Key): World -> bool {
    (w: World) => k in w.managers && w.managers[k].Type() == TYPE_CREATED && !w.managers[k].deleting
  }

  ghost function Armed(k: Key): World -> bool {
    (w: World) => Alive(k)(w) && FINALIZER in w.managers[k].finalizers
  }

  lemma OthersLeaveAlive(k: Key, w: World, e: Event)
    requires Steady(k)(e) && Alive(k)(w)
    ensures var w' := Apply(w, e);
            && Alive(k)(w')
            && (FINALIZER in w'.managers[k].finalizers <==> FINALIZER in w.managers[k].finalizers)
  {
    hide Apply;
    EventTouches(k, w, e);
  }

  /** Steps that keep k alive, and armed if it is. */
  ghost predicate Gentle(k: Key, w: World, m: Moment) {
    || Others(Steady(k))(w, m)
    || (&& k in w.managers && k in m.world.managers
        && var x, y := w.managers[k], m.world.managers[k];
           && y.labels == x.labels && y.deleting == x.deleting
           && (FINALIZER in x.finalizers ==> FINALIZER in y.finalizers))
  }

  lemma GentleSteps(s: Sys, t: Sys, k: Key, rule: Rule)
    requires Steps(s, t, rule) && Alive(k)(s.Now())
    requires forall w, m :: Alive(k)(w) && rule(w, m) ==> Gentle(k, w, m)
    ensures Always(s, t, Alive(k)) && Alive(k)(t.Now())
    ensures Armed(k)(s.Now()) ==> Always(s, t, Armed(k)) && Armed(k)(t.Now())
  {
    forall w, m | Alive(k)(w) && rule(w, m)
      ensures Alive(k)(m.world) && (Armed(k)(w) ==> Armed(k)(m.world))
    {
      if Others(Steady(k))(w, m) {
        OthersLeaveAlive(k, w, m.event);
      }
    }
    AlwaysFrom(s, t, rule, Alive(k));
    assert Alive(k)(t.At(|t.past|));
    if Armed(k)(s.Now()) {
      AlwaysFrom(s, t, rule, Armed(k));
      assert Armed(k)(t.At(|t.past|));
    }
  }

  lemma PatchIsGentle(k: Key, m: Manager, a: Manager, w: World, e: Moment)
    requires Alive(k)(w) && PatchStep(k, m, a, w, e)
    requires a.finalizers == m.finalizers || FINALIZER in a.finalizers
    ensures Gentle(k, w, e)
  {
    hide MergeMap, MergeSpec, MergeStatus;
  }

  lemma IdleIsGentle(k: Key, w: World, m: Moment)
    requires Alive(k)(w) && (Others(Steady(k))(w, m) || m.world.managers == w.managers)
    ensures Gentle(k, w, m)
  {
  }

  lemma ReconcileKeepsAlive(s: Sys, k: Key, remote: Remote)
    requires PlanOf(s.plan, Steady(k)) && Alive(k)(s.Now())
    ensures var t := Reconcile(s, k, remote).0;
            && Always(s, t, Alive(k)) && Alive(k)(t.Now())
            && (Armed(k)(s.Now()) ==> Always(s, t, Armed(k)))
  {
    hide GetManager, Body, PatchObject, WithPhase, Gentle, BuildStep, PatchStep, Apply;
    var env := Steady(k);
    var (t, r) := GetManager(s, k);
    GetManagerSteps(s, k, env, Reads(env));
    forall w, e | Alive(k)(w) && Reads(env)(w, e) ensures Gentle(k, w, e) {
      IdleIsGentle(k, w, e);
    }
    GentleSteps(s, t, k, Reads(env));
    if r.Found? {
      var m := r.value;
      var o := Body(t, k, m, remote);
      BodyBuilds(t, k, m, remote, env);
      BodyKeeps(t, k, m, remote);
      PhaseIsStatus(o.clm);
      BodyAdds(t, k, m, remote);
      forall w, e | Alive(k)(w) && Builds(k, m, env)(w, e) ensures Gentle(k, w, e) {
        if !Others(env)(w, e) {
          StepKeepsManagers(k, m, w, e);
        }
        IdleIsGentle(k, w, e);
      }
      GentleSteps(t, o.sys, k, Builds(k, m, env));
      var after := WithPhase(o.clm);
      var u := PatchObject(o.sys, k, m, after).0;
      PatchSteps(o.sys, k, m, after, env);
      forall w, e | Alive(k)(w) && Patches(k, m, after, env)(w, e) ensures Gentle(k, w, e) {
        if Others(env)(w, e) {
          IdleIsGentle(k, w, e);
        } else {
          PatchIsGentle(k, m, after, w, e);
        }
      }
      GentleSteps(o.sys, u, k, Patches(k, m, after, env));
      AlwaysJoin(s, t, o.sys, Alive(k));
      AlwaysJoin(s, o.sys, u, Alive(k));
      if Armed(k)(s.Now()) {
        AlwaysJoin(s, t, o.sys, Armed(k));
        AlwaysJoin(s, o.sys, u, Armed(k));
      }
    }
  }

  lemma BodyAdds(t: Sys, k: Key, m: Manager, remote: Remote)
    ensures FINALIZER !in m.finalizers ==>
              Body(t, k, m, remote)
              == Out(t, m.(finalizers := m.finalizers + {FINALIZER}), Returned(ZERO, false))
  {
  }

  lemma JobKeepsArmed(t: Sys, job: Job, k: Key)
    requires JobOf(job, Steady(k)) && Armed(k)(t.Now())
    ensures Always(t, Do(t, job), Armed(k))
  {
    hide Reconcile;
    match job
    case Outside(events) =>
      HappenSteps(t, events, Steady(k));
      GentleSteps(t, Happen(t, events), k, Others(Steady(k)));
    case Manage(key, remote, plan) =>
      var s := t.(plan := plan);
      assert s.Now() == t.Now();
      if key == k {
        ReconcileKeepsAlive(s, k, remote);
      } else {
        ReconcileMinds(s, key, remote, Steady(k));
        forall w, m | Alive(k)(w) && Minds(key, Steady(k))(w, m) ensures Gentle(k, w, m) {
          assert Others(Steady(k))(w, m) || SameManager(k, w, m.world);
        }
        GentleSteps(s, Reconcile(s, key, remote).0, k, Minds(key, Steady(k)));
      }
  }

  /** A reconcile of k without faults, during which nobody removes a child of k. */
  ghost predicate FaultFree(job: Job, k: Key) {
    job.Manage? && job.key == k && PlanOf(job.plan, Tended(k))
    && forall i | 0 <= i < |job.plan| :: job.plan[i].outcome == Served
  }

  ghost function FaultFreeCount(jobs: seq<Job>, k: Key): nat {
    if jobs == [] then 0
    else FaultFreeCount(jobs[..|jobs| - 1], k) + if FaultFree(jobs[|jobs| - 1], k) then 1 else 0
  }

  lemma FaultFreeShrinks(t: Sys, job: Job, k: Key)
    requires FaultFree(job, k) && JobOf(job, Steady(k)) && Armed(k)(t.Now())
    ensures var w, w' := t.Now(), Do(t, job).Now();
            && Missing(w', ControlPlaneChain(k)) <= Less(Missing(w, ControlPlaneChain(k)))
            && Missing(w', WorkerChain(k)) <= Less(Missing(w, WorkerChain(k)))
  {
    hide Reconcile;
    var s := t.(plan := job.plan);
    assert s.Now() == t.Now() && Calm(s, Tended(k));
    TurnSteps(s, Steady(k));
    GentleSteps(s, Turn(s), k, Others(Steady(k)));
    assert s.Next().outcome == Served;
    TendedShrinks(s, k, job.remote);
  }

  lemma JobNeverGrows(t: Sys, job: Job, k: Key)
    requires JobOf(job, NoRemoval(k))
    ensures var w, w' := t.Now(), Do(t, job).Now();
            && Missing(w', ControlPlaneChain(k)) <= Missing(w, ControlPlaneChain(k))
            && Missing(w', WorkerChain(k)) <= Missing(w, WorkerChain(k))
  {
    hide Do;
    RunExtends(t, [], job);
    assert [] + [job] == [job];
    MissingNeverGrows(t, [job], k);
    StepsStay(t, Do(t, job), k);
    ChainsAreChildren(k);
    StayingShrinks(k, t.Now(), Do(t, job).Now(), ControlPlaneChain(k));
    StayingShrinks(k, t.Now(), Do(t, job).Now(), WorkerChain(k));
  }

  function Minus(n: nat, d: nat): nat {
    if n <= d then 0 else n - d
  }

  /** Bounded provisioning: a finalized, created manager that nobody deletes has all seven
      children after any run that contains four fault-free reconciles of it, whatever other
      reconciles fail in between and whatever subset of the children existed before. */
  lemma {:induction false} BoundedProvisioning(s: Sys, jobs: seq<Job>, k: Key)
    requires Armed(k)(s.Now())
    requires forall job | job in jobs :: JobOf(job, Steady(k)) && JobOf(job, NoRemoval(k))
    ensures var w, w', n := s.Now(), Run(s, jobs).Now(), FaultFreeCount(jobs, k);
            && Armed(k)(w')
            && Missing(w', ControlPlaneChain(k)) <= Minus(Missing(w, ControlPlaneChain(k)), n)
            && Missing(w', WorkerChain(k)) <= Minus(Missing(w, WorkerChain(k)), n)
            && (n >= 4 ==> AllExist(w', k))
  {
    hide Do, Missing;
    if jobs != [] {
      var init, job := jobs[..|jobs| - 1], jobs[|jobs| - 1];
      assert jobs == init + [job];
      BoundedProvisioning(s, init, k);
      var t := Run(s, init);
      JobKeepsArmed(t, job, k);
      assert Armed(k)(Do(t, job).At(|Do(t, job).past|));
      JobNeverGrows(t, job, k);
      if FaultFree(job, k) {
        FaultFreeShrinks(t, job, k);
      }
    }
    MissingNone(s.Now(), ControlPlaneChain(k));
    MissingNone(s.Now(), WorkerChain(k));
  }
}
