/** Deletion of managers: what it never does, when it ends, and when it does not. */
module Deletion {
  import opened Api
  import opened Naming
  import opened Store
  import opened Observation
  import opened Reconciling
  import opened Traces
  import opened Safety
  import opened Lifecycle

  // ---------------------------------------------------------------------------------------
  // Nothing is created for a manager that is being deleted

  ghost function Doomed(k: Key, ty: string): World -> bool {
    (w: World) => k in w.managers ==> w.managers[k].deleting && w.managers[k].Type() == ty
  }

  /** The controller creates no child of k, resizes none, deletes none but k's own Cluster, and
      does not put the finalizer back. */
  ghost predicate Barren(k: Key, w: World, m: Moment) {
    m.Called? ==>
      && (m.call.CreateChild? || m.call.PatchChild? ==> !IsChildOf(m.call.ck, k))
      && (m.call.DeleteChild? && IsChildOf(m.call.ck, k) ==> m.call.ck == ClusterKey(k))
      && Fading(k, w, m.world)
  }

  /** Neither the Cluster nor the finalizer comes back. */
  ghost predicate Fading(k: Key, w: World, w': World) {
    (ClusterKey(k) in w'.children ==> ClusterKey(k) in w.children) && (Holds(w', k) ==> Holds(w, k))
  }

  ghost function BarrenFor(k: Key): Rule {
    (w: World, m: Moment) => Barren(k, w, m)
  }

  lemma OthersDoom(k: Key, ty: string, w: World, e: Event)
    requires Doomed(k, ty)(w) && TypedInFlight(k, ty)(e)
    ensures Doomed(k, ty)(Apply(w, e))
  {
    hide Apply;
    EventTouches(k, w, e);
    assert KeepsType(k, ty, e) && !Adds(k, e);
  }

  lemma StepsDoom(s: Sys, t: Sys, k: Key, ty: string, rule: Rule)
    requires Steps(s, t, rule) && Doomed(k, ty)(s.Now())
    requires forall w, m :: Doomed(k, ty)(w) && rule(w, m) ==>
               || Others(TypedInFlight(k, ty))(w, m)
               || (Barren(k, w, m) && m.Called?
                   && (k in m.world.managers ==>
                         && k in w.managers && m.world.managers[k].labels == w.managers[k].labels
                         && (w.managers[k].deleting ==> m.world.managers[k].deleting)))
    ensures Steps(s, t, BarrenFor(k)) && Always(s, t, Doomed(k, ty)) && Doomed(k, ty)(t.Now())
  {
    var inv := Doomed(k, ty);
    forall w, m | inv(w) && rule(w, m) ensures inv(m.world) && BarrenFor(k)(w, m) {
      if Others(TypedInFlight(k, ty))(w, m) {
        OthersDoom(k, ty, w, m.event);
      }
    }
    AlwaysFrom(s, t, rule, inv);
    StepsUnder(s, t, rule, inv, BarrenFor(k));
    assert inv(t.At(|t.past|));
  }

  lemma BodyDooms(t: Sys, k: Key, m: Manager, remote: Remote, ty: string)
    requires PlanOf(t.plan, TypedInFlight(k, ty)) && Doomed(k, ty)(t.Now()) && ty != TYPE_REGISTERED
    requires k in t.Now().managers && t.Now().managers[k] == m
    ensures var o := Body(t, k, m, remote);
            && Steps(t, o.sys, BarrenFor(k)) && Always(t, o.sys, Doomed(k, ty)) && Doomed(k, ty)(o.sys.Now())
            && PlanOf(o.sys.plan, TypedInFlight(k, ty))
  {
    hide RunPhases, TearDown;
    var o := Body(t, k, m, remote);
    if FINALIZER in m.finalizers {
      TearDownSteps(t, k, Ready(m, false), TypedInFlight(k, ty));
    }
    StepsDoom(t, o.sys, k, ty, Tears(k, TypedInFlight(k, ty)));
  }

  lemma PatchDooms(s: Sys, t: Sys, k: Key, ty: string, m: Manager, a: Manager)
    requires Steps(s, t, Patches(k, m, a, TypedInFlight(k, ty))) && Doomed(k, ty)(s.Now())
    ensures Steps(s, t, BarrenFor(k)) && Always(s, t, Doomed(k, ty))
  {
    var env := TypedInFlight(k, ty);
    forall w, e | Doomed(k, ty)(w) && Patches(k, m, a, env)(w, e) && !Others(env)(w, e)
      ensures Barren(k, w, e) && e.Called?
      ensures k in e.world.managers ==>
                && k in w.managers && e.world.managers[k].labels == w.managers[k].labels
                && (w.managers[k].deleting ==> e.world.managers[k].deleting)
    {
      PatchIsBarren(k, ty, m, a, w, e);
    }
    StepsDoom(s, t, k, ty, Patches(k, m, a, env));
  }

  /** The server does not let a deleted manager get its finalizer back. */
  lemma PatchIsBarren(k: Key, ty: string, m: Manager, a: Manager, w: World, e: Moment)
    requires Doomed(k, ty)(w) && PatchStep(k, m, a, w, e)
    ensures Barren(k, w, e) && e.Called?
    ensures k in e.world.managers ==>
              && k in w.managers && e.world.managers[k].labels == w.managers[k].labels
              && (w.managers[k].deleting ==> e.world.managers[k].deleting)
  {
    hide MergeMap, MergeSpec, MergeStatus, IsChildOf;
  }

  lemma ReconcileDooms(s: Sys, k: Key, remote: Remote, ty: string)
    requires PlanOf(s.plan, TypedInFlight(k, ty)) && Doomed(k, ty)(s.Now()) && ty != TYPE_REGISTERED
    ensures var t := Reconcile(s, k, remote).0;
            Steps(s, t, BarrenFor(k)) && Always(s, t, Doomed(k, ty))
  {
    hide GetManager, Body, PatchObject, WithPhase;
    var env := TypedInFlight(k, ty);
    var (t, r) := GetManager(s, k);
    GetManagerSteps(s, k, env, Reads(env));
    StepsDoom(s, t, k, ty, Reads(env));
    if r.Found? {
      var m := r.value;
      var o := Body(t, k, m, remote);
      BodyDooms(t, k, m, remote, ty);
      var after := WithPhase(o.clm);
      var u := PatchObject(o.sys, k, m, after).0;
      PatchSteps(o.sys, k, m, after, env);
      PatchDooms(o.sys, u, k, ty, m, after);
      StepsJoin(s, t, o.sys, BarrenFor(k));
      AlwaysJoin(s, t, o.sys, Doomed(k, ty));
      StepsJoin(s, o.sys, u, BarrenFor(k));
      AlwaysJoin(s, o.sys, u, Doomed(k, ty));
    }
  }

  lemma OtherReconcileDooms(s: Sys, key: Key, remote: Remote, k: Key, ty: string)
    requires PlanOf(s.plan, TypedInFlight(k, ty)) && Doomed(k, ty)(s.Now()) && key != k
    ensures var t := Reconcile(s, key, remote).0;
            Steps(s, t, BarrenFor(k)) && Always(s, t, Doomed(k, ty))
  {
    hide Reconcile, IsChildOf;
    var env := TypedInFlight(k, ty);
    ReconcileMinds(s, key, remote, env);
    forall w, m | Minds(key, env)(w, m) && !Others(env)(w, m)
      ensures Barren(k, w, m) && SameManager(k, w, m.world)
    {
      ClusterElsewhere(k, key, w, m.world);
      if m.call.CreateChild? || m.call.PatchChild? || m.call.DeleteChild? {
        OtherKeysBarren(k, key, m.call);
      }
    }
    StepsDoom(s, Reconcile(s, key, remote).0, k, ty, Minds(key, env));
  }

  lemma DoDooms(t: Sys, job: Job, k: Key, ty: string)
    requires JobOf(job, TypedInFlight(k, ty)) && Doomed(k, ty)(t.Now()) && ty != TYPE_REGISTERED
    ensures Steps(t, Do(t, job), BarrenFor(k)) && Always(t, Do(t, job), Doomed(k, ty))
  {
    hide Reconcile;
    match job
    case Outside(events) =>
      HappenSteps(t, events, TypedInFlight(k, ty));
      StepsDoom(t, Happen(t, events), k, ty, Others(TypedInFlight(k, ty)));
    case Manage(key, remote, plan) =>
      var s := t.(plan := plan);
      assert s.Now() == t.Now();
      if key == k {
        ReconcileDooms(s, k, remote, ty);
      } else {
        OtherReconcileDooms(s, key, remote, k, ty);
      }
  }

  /** Once a non-registered manager is being deleted, no reconcile of any run creates or resizes
      a child of it, its own Cluster is the only child that is ever deleted, and nothing the
      controller does brings back the Cluster or the finalizer. */
  lemma DeletionCreatesNothing(s: Sys, jobs: seq<Job>, k: Key, ty: string)
    requires Doomed(k, ty)(s.Now()) && ty != TYPE_REGISTERED
    requires forall job | job in jobs :: JobOf(job, TypedInFlight(k, ty))
    ensures Steps(s, Run(s, jobs), BarrenFor(k)) && Always(s, Run(s, jobs), Doomed(k, ty))
  {
    forall t: Sys, job | job in jobs && Doomed(k, ty)(t.Now())
      ensures Steps(t, Do(t, job), BarrenFor(k)) && Always(t, Do(t, job), Doomed(k, ty))
    {
      DoDooms(t, job, k, ty);
    }
    RunSteps(s, jobs, BarrenFor(k), Doomed(k, ty));
  }

  lemma ClusterElsewhere(k: Key, key: Key, w: World, w': World)
    requires key != k && SameElsewhere(key, w, w')
    ensures SameManager(k, w, w') && SameChild(ClusterKey(k), w, w') && Fading(k, w, w')
  {
    ClusterIsChild(k);
    if IsChildOf(ClusterKey(k), key) {
      ChildKeysIsolated(k, key, ClusterKey(k));
    }
    assert SameManager(k, w, w') && SameChild(ClusterKey(k), w, w');
  }

  lemma OtherKeysBarren(k: Key, key: Key, call: Call)
    requires key != k && OwnCall(key, call) && (call.CreateChild? || call.PatchChild? || call.DeleteChild?)
    ensures !IsChildOf(call.ck, k)
  {
    if IsChildOf(call.ck, k) {
      ChildKeysIsolated(key, k, call.ck);
    }
  }

  // ---------------------------------------------------------------------------------------
  // Registered managers are never torn down

  ghost function Pinned(k: Key): World -> bool {
    (w: World) => Holds(w, k) && w.managers[k].Type() == TYPE_REGISTERED
  }

  ghost function TypedHold(k: Key): Env {
    e => KeepsType(k, TYPE_REGISTERED, e) && NotReleased(e)
  }

  lemma StepsPin(s: Sys, t: Sys, k: Key, rule: Rule)
    requires Steps(s, t, rule) && Pinned(k)(s.Now())
    requires forall w, m :: Pinned(k)(w) && rule(w, m) ==>
               Others(TypedHold(k))(w, m) || Pinned(k)(m.world)
    ensures Always(s, t, Pinned(k)) && Pinned(k)(t.Now())
  {
    hide Apply;
    forall w, m | Pinned(k)(w) && rule(w, m) ensures Pinned(k)(m.world) {
      if Others(TypedHold(k))(w, m) {
        EventTouches(k, w, m.event);
        OthersHold(w, m.event, k);
      }
    }
    AlwaysFrom(s, t, rule, Pinned(k));
    assert Pinned(k)(t.At(|t.past|));
  }

  lemma ReconcilePins(s: Sys, k: Key, remote: Remote)
    requires PlanOf(s.plan, TypedHold(k)) && Pinned(k)(s.Now())
    ensures Always(s, Reconcile(s, k, remote).0, Pinned(k))
  {
    hide GetManager, Body, PatchObject, WithPhase;
    var env := TypedHold(k);
    var (t, r) := GetManager(s, k);
    GetManagerSteps(s, k, env, Reads(env));
    StepsPin(s, t, k, Reads(env));
    if r.Found? {
      var m := r.value;
      var o := Body(t, k, m, remote);
      BodyBuilds(t, k, m, remote, env);
      BodyKeeps(t, k, m, remote);
      StepsPin(t, o.sys, k, Builds(k, m, env));
      var after := WithPhase(o.clm);
      PhaseIsStatus(o.clm);
      var u := PatchObject(o.sys, k, m, after).0;
      PatchSteps(o.sys, k, m, after, env);
      StepsPin(o.sys, u, k, Patches(k, m, after, env));
      AlwaysJoin(s, t, o.sys, Pinned(k));
      AlwaysJoin(s, o.sys, u, Pinned(k));
    }
  }

  /** A registered manager with our finalizer stays in the store for ever, in every run: its
      deletion is requested in vain. */
  lemma RegisteredNeverRemoved(s: Sys, jobs: seq<Job>, k: Key)
    requires Pinned(k)(s.Now())
    requires forall job | job in jobs :: JobOf(job, TypedHold(k))
    ensures Always(s, Run(s, jobs), Pinned(k))
  {
    var anything: Rule := (w: World, m: Moment) => true;
    forall t: Sys, job | job in jobs && Pinned(k)(t.Now())
      ensures Steps(t, Do(t, job), anything) && Always(t, Do(t, job), Pinned(k))
    {
      match job
      case Outside(events) =>
        HappenSteps(t, events, TypedHold(k));
        StepsPin(t, Happen(t, events), k, Others(TypedHold(k)));
      case Manage(key, remote, plan) =>
        var s' := t.(plan := plan);
        assert s'.Now() == t.Now();
        if key == k {
          ReconcilePins(s', k, remote);
        } else {
          ReconcileMinds(s', key, remote, TypedHold(k));
          forall w, m | Minds(key, TypedHold(k))(w, m) && !Others(TypedHold(k))(w, m)
            ensures SameManager(k, w, m.world)
          {
          }
          StepsPin(s', Reconcile(s', key, remote).0, k, Minds(key, TypedHold(k)));
        }
    }
    RunSteps(s, jobs, anything, Pinned(k));
  }

  // ---------------------------------------------------------------------------------------
  // Teardown ends

  /** The manager may be edited, reported on, relabelled within its type and deleted again, and its
      Cluster may change and go; but nobody adds either, and nobody else touches k's finalizers. */
  ghost function Undisturbed(k: Key, ty: string): Env {
    (e: Event) =>
      KeepsType(k, ty, e) && !Adds(k, e) && !(e.ChildAdded? && e.ck == ClusterKey(k)) && !Finalizes(k, e)
  }

  /** k is still there and being deleted, with the finalizers, phase and readiness of x. */
  ghost predicate Lasts(k: Key, x: Manager, w: World) {
    && k in w.managers
    && var y := w.managers[k];
       && y.finalizers == x.finalizers && y.deleting && y.Type() == x.Type()
       && y.status.phase == x.status.phase && y.status.ready == x.status.ready
  }

  /** The Cluster is in the store and its deletion has been requested. */
  ghost predicate Marked(w: World, k: Key) {
    && ClusterKey(k) in w.children
    && var c := w.children[ClusterKey(k)];
       c.Cluster? && c.deleting
  }

  ghost predicate MarkedOrGone(w: World, k: Key) {
    ClusterKey(k) in w.children ==> Marked(w, k)
  }

  lemma ClusterNotAdded(k: Key, w: World, e: Event)
    requires !(e.ChildAdded? && e.ck == ClusterKey(k))
    ensures ClusterKey(k) in Apply(w, e).children ==> ClusterKey(k) in w.children
    ensures MarkedOrGone(w, k) ==> MarkedOrGone(Apply(w, e), k)
  {
    EventChildren(w, e);
    if !e.ChildChanged? {
      hide Apply;
    }
  }

  lemma EventLasts(k: Key, x: Manager, w: World, e: Event)
    requires Lasts(k, x, w) && x.finalizers != {} && Undisturbed(k, x.Type())(e)
    ensures Lasts(k, x, Apply(w, e))
  {
    hide Apply;
    EventTouches(k, w, e);
  }

  lemma TurnLasts(s: Sys, k: Key, x: Manager)
    requires Calm(s, Undisturbed(k, x.Type())) && Lasts(k, x, s.Now()) && x.finalizers != {}
    ensures var w, w' := s.Now(), Turn(s).Now();
            && Lasts(k, x, w')
            && (ClusterKey(k) in w'.children ==> ClusterKey(k) in w.children)
            && (MarkedOrGone(w, k) ==> MarkedOrGone(w', k))
    ensures s.Next().outcome == Served && forall m :: Calm(Turn(s).Log(m), Undisturbed(k, x.Type()))
  {
    hide Apply, Lasts, Marked;
    var env, w0 := Undisturbed(k, x.Type()), s.Now();
    var inv := (w: World) =>
      && Lasts(k, x, w) && (ClusterKey(k) in w.children ==> ClusterKey(k) in w0.children)
      && (MarkedOrGone(w0, k) ==> MarkedOrGone(w, k));
    TurnSteps(s, env);
    forall w, m | inv(w) && Others(env)(w, m) ensures inv(m.world) {
      EventLasts(k, x, w, m.event);
      ClusterNotAdded(k, w, m.event);
    }
    Throughout(s, Turn(s), Others(env), inv, |Turn(s).past|);
    forall m ensures s.Next().outcome == Served && Calm(Turn(s).Log(m), env) {
      CalmTurn(s, env, m);
    }
  }

  /** A manager that is gone stays gone. */
  lemma TurnAbsent(s: Sys, k: Key, ty: string)
    requires PlanOf(s.plan, Undisturbed(k, ty)) && k !in s.Now().managers
    ensures k !in Turn(s).Now().managers
    ensures ClusterKey(k) in Turn(s).Now().children ==> ClusterKey(k) in s.Now().children
  {
    hide Apply;
    var env, w0 := Undisturbed(k, ty), s.Now();
    var inv := (w: World) =>
      k !in w.managers && (ClusterKey(k) in w.children ==> ClusterKey(k) in w0.children);
    TurnSteps(s, env);
    forall w, m | inv(w) && Others(env)(w, m) ensures inv(m.world) {
      EventTouches(k, w, m.event);
      ClusterNotAdded(k, w, m.event);
    }
    Throughout(s, Turn(s), Others(env), inv, |Turn(s).past|);
  }

  ghost predicate TearingDown(w: World, k: Key) {
    Holds(w, k) && TearsDown(w.managers[k])
  }

  /** What is left to do: the Cluster, and the finalizer. */
  function Remaining(w: World, k: Key): nat {
    (if ClusterKey(k) in w.children then 1 else 0)
    + (if k in w.managers && FINALIZER in w.managers[k].finalizers then 1 else 0)
  }

  lemma ServedGet(s: Sys, k: Key, x: Manager)
    requires Calm(s, Undisturbed(k, x.Type())) && Lasts(k, x, s.Now()) && x.finalizers != {}
    ensures var (t, r) := GetManager(s, k);
            && Calm(t, Undisturbed(k, x.Type())) && Lasts(k, x, t.Now())
            && r.Found? && k in t.Now().managers && r.value == t.Now().managers[k]
            && (ClusterKey(k) in t.Now().children ==> ClusterKey(k) in s.Now().children)
  {
    hide Turn;
    TurnLasts(s, k, x);
  }

  /** The teardown itself: either it saw the Cluster, asked for its deletion and waits, or the
      Cluster was gone and the finalizer is dropped. */
  lemma ServedTearDown(t: Sys, k: Key, m: Manager, x: Manager)
    requires Calm(t, Undisturbed(k, x.Type())) && Lasts(k, x, t.Now()) && x.finalizers != {}
    ensures var o, seen := TearDown(t, k, m), GetChild(t, ClusterKey(k)).1.Found?;
            && Calm(o.sys, Undisturbed(k, x.Type())) && Lasts(k, x, o.sys.Now())
            && (seen ==> ClusterKey(k) in t.Now().children)
            && if seen then o.clm == m && o.answer == Returned(WAIT_FOR_TEARDOWN, false) && MarkedOrGone(o.sys.Now(), k)
               else o.clm == m.(finalizers := m.finalizers - {FINALIZER}) && ClusterKey(k) !in o.sys.Now().children
  {
    hide Turn, Lasts;
    TurnLasts(t, k, x);
    var (t1, r) := GetChild(t, ClusterKey(k));
    assert Lasts(k, x, t1.Now()) && t1.Now() == Turn(t).Now();
    if r.Found? {
      TurnLasts(t1, k, x);
      var v := Turn(t1);
      assert ClusterKey(k) in v.Now().children ==> v.Now().children[ClusterKey(k)].Kind() == ClusterKind;
      var u := Delete(t1, ClusterKey(k)).0;
      assert u == v.Log(u.past[|v.past|]);
      assert u.Now().managers == v.Now().managers && MarkedOrGone(u.Now(), k);
      LastsSame(k, x, v.Now(), u.Now());
    }
  }

  lemma LastsSame(k: Key, x: Manager, w: World, w': World)
    requires Lasts(k, x, w) && w'.managers == w.managers
    ensures Lasts(k, x, w')
  {
  }

  lemma DeletingPhase(m: Manager)
    requires m.deleting
    ensures WithPhase(m) == SetPhase(m, PHASE_DELETING)
  {
  }

  /** The deferred patch of a teardown that waits. */
  lemma WaitingPatch(s: Sys, k: Key, m: Manager, x: Manager)
    requires Calm(s, Undisturbed(k, x.Type())) && Lasts(k, x, s.Now()) && x.finalizers != {} && MarkedOrGone(s.Now(), k)
    requires m.status.phase == x.status.phase && m.status.ready == x.status.ready
    ensures var after := SetPhase(Ready(m, false), PHASE_DELETING);
            var y := x.(status := x.status.(phase := PHASE_DELETING, ready := false));
            var w := PatchObject(s, k, m, after).0.Now();
            Lasts(k, y, w) && MarkedOrGone(w, k)
  {
    hide Turn;
    var after := SetPhase(Ready(m, false), PHASE_DELETING);
    assert SameMain(m, after);
    if m.status != after.status {
      TurnLasts(s, k, x);
    }
  }

  /** Our finalizer is off; the manager is still there exactly if it has others. */
  ghost predicate Released(k: Key, x: Manager, w: World) {
    && (k in w.managers <==> x.finalizers != {FINALIZER})
    && (k in w.managers ==>
          var y := w.managers[k];
          y.finalizers == x.finalizers - {FINALIZER} && y.deleting && y.Type() == x.Type())
  }

  /** The first request of the deferred patch of a teardown that is done. */
  lemma ReleasingMain(s: Sys, k: Key, m: Manager, after: Manager, x: Manager)
    requires Calm(s, Undisturbed(k, x.Type())) && Lasts(k, x, s.Now()) && ClusterKey(k) !in s.Now().children
    requires FINALIZER in x.finalizers && m.finalizers == x.finalizers
    requires after.finalizers == m.finalizers - {FINALIZER}
    ensures var t := SendMain(s, k, m, after).0; var y := x.(finalizers := x.finalizers - {FINALIZER});
            && Calm(t, Undisturbed(k, x.Type())) && ClusterKey(k) !in t.Now().children
            && if x.finalizers == {FINALIZER} then k !in t.Now().managers else Lasts(k, y, t.Now())
  {
    hide Turn, MergeMap, MergeSpec;
    TurnLasts(s, k, x);
    var v := Turn(s);
    var y := v.Now().managers[k];
    var merged := MergeMain(m, after, y);
    assert merged == y.(finalizers := x.finalizers - {FINALIZER},
                        annotations := merged.annotations, spec := merged.spec);
    var t := SendMain(s, k, m, after).0;
    assert t == v.Log(Called(PatchManager(k), true, PutManager(v.Now(), k, merged)));
    assert x.finalizers - {FINALIZER} == {} <==> x.finalizers == {FINALIZER};
  }

  lemma ReleasingStatus(t: Sys, k: Key, m: Manager, after: Manager, x: Manager)
    requires Calm(t, Undisturbed(k, x.Type())) && ClusterKey(k) !in t.Now().children && FINALIZER in x.finalizers
    requires var y := x.(finalizers := x.finalizers - {FINALIZER});
             if x.finalizers == {FINALIZER} then k !in t.Now().managers else Lasts(k, y, t.Now())
    ensures var w := SendStatus(t, k, m, after).0.Now();
            Released(k, x, w) && ClusterKey(k) !in w.children
  {
    hide Turn, MergeStatus;
    var y := x.(finalizers := x.finalizers - {FINALIZER});
    if m.status != after.status {
      if x.finalizers == {FINALIZER} {
        CalmPlan(t, k, x.Type());
        TurnAbsent(t, k, x.Type());
      } else {
        assert y.finalizers != {};
        TurnLasts(t, k, y);
      }
    }
  }

  /** One fault-free reconcile of a manager that is being torn down, whatever the others do to it
      short of touching its finalizers. If it saw the Cluster, then the Cluster is marked for
      deletion or already gone, the finalizers stay, and the controller asks to run again; if not,
      the finalizer is off. */
  lemma TearDownWaits(s: Sys, k: Key, remote: Remote)
    requires TearingDown(s.Now(), k) && Calm(s, Undisturbed(k, s.Now().managers[k].Type()))
    ensures var x, (t, a) := s.Now().managers[k], Reconcile(s, k, remote);
            if GetChild(GetManager(s, k).0, ClusterKey(k)).1.Found? then
              && ClusterKey(k) in s.Now().children
              && a.AsksAgain() && TearingDown(t.Now(), k) && MarkedOrGone(t.Now(), k)
              && t.Now().managers[k].finalizers == x.finalizers && t.Now().managers[k].Type() == x.Type()
              && t.Now().managers[k].status.phase == PHASE_DELETING && !t.Now().managers[k].status.ready
            else
              Released(k, x, t.Now()) && ClusterKey(k) !in t.Now().children
  {
    hide Turn, GetManager, TearDown, PatchObject, SendMain, SendStatus, RunPhases, WithPhase, GetChild, Calm;
    var x := s.Now().managers[k];
    ServedGet(s, k, x);
    var (t, r) := GetManager(s, k);
    var m := r.value;
    var c := Ready(m, false);
    ServedTearDown(t, k, c, x);
    var o := TearDown(t, k, c);
    assert Body(t, k, m, remote) == o;
    DeletingPhase(o.clm);
    var after := WithPhase(o.clm);
    if GetChild(t, ClusterKey(k)).1.Found? {
      WaitingPatch(o.sys, k, m, x);
    } else {
      ReleasingMain(o.sys, k, m, after, x);
      ReleasingStatus(SendMain(o.sys, k, m, after).0, k, m, after, x);
      assert PatchObject(o.sys, k, m, after).0 == SendStatus(SendMain(o.sys, k, m, after).0, k, m, after).0 by {
        PatchIsTwo(o.sys, k, m, after);
      }
    }
  }

  lemma PatchIsTwo(s: Sys, k: Key, before: Manager, after: Manager)
    ensures PatchObject(s, k, before, after).0 == SendStatus(SendMain(s, k, before, after).0, k, before, after).0
  {
    hide SendMain, SendStatus;
  }

  /** The finalizer goes: with the Cluster gone, one fault-free reconcile takes our finalizer
      off, and the manager disappears exactly if no other finalizer is left. */
  lemma TearDownReleases(s: Sys, k: Key, remote: Remote)
    requires TearingDown(s.Now(), k) && Calm(s, Undisturbed(k, s.Now().managers[k].Type()))
    requires ClusterKey(k) !in s.Now().children
    ensures var w, w' := s.Now(), Reconcile(s, k, remote).0.Now();
            && Remaining(w', k) == 0
            && (k in w'.managers <==> w.managers[k].finalizers != {FINALIZER})
  {
    hide Reconcile;
    TearDownWaits(s, k, remote);
  }

  /** k as it is after its release: gone, or held by other finalizers. */
  ghost function Held(k: Key, x: Manager): World -> bool {
    (w: World) => Released(k, x, w) && ClusterKey(k) !in w.children
  }

  /** Later reconciles, with any faults, leave it so: their attempt to put the finalizer back is
      refused. */
  lemma ReleasedStays(s: Sys, k: Key, x: Manager, remote: Remote)
    requires PlanOf(s.plan, Undisturbed(k, x.Type())) && Held(k, x)(s.Now()) && FINALIZER in x.finalizers
    ensures Held(k, x)(Reconcile(s, k, remote).0.Now())
  {
    hide GetManager, PatchObject, WithPhase, Apply, Released;
    var env, inv := Undisturbed(k, x.Type()), Held(k, x);
    var (t, r) := GetManager(s, k);
    GetManagerSteps(s, k, env, Reads(env));
    forall w, m | inv(w) && Reads(env)(w, m) ensures inv(m.world) {
      if Others(env)(w, m) {
        EventHeld(k, x, w, m.event);
        ClusterNotAdded(k, w, m.event);
      }
    }
    AlwaysFrom(s, t, Reads(env), inv);
    assert inv(t.At(|t.past|));
    if r.Found? {
      var m := r.value;
      assert m.finalizers == x.finalizers - {FINALIZER} by { HeldMeans(k, x, t.Now()); }
      var c := m.(finalizers := m.finalizers + {FINALIZER});
      assert Body(t, k, m, remote) == Out(t, c, Returned(ZERO, false));
      var after := WithPhase(c);
      PhaseIsStatus(c);
      var u := PatchObject(t, k, m, after).0;
      PatchSteps(t, k, m, after, env);
      forall w, e | inv(w) && Patches(k, m, after, env)(w, e) ensures inv(e.world) {
        if Others(env)(w, e) {
          EventHeld(k, x, w, e.event);
          ClusterNotAdded(k, w, e.event);
        } else {
          PatchHeld(k, x, m, after, w, e);
        }
      }
      AlwaysFrom(t, u, Patches(k, m, after, env), inv);
      assert inv(u.At(|u.past|));
    }
  }

  lemma HeldMeans(k: Key, x: Manager, w: World)
    requires Released(k, x, w) && k in w.managers
    ensures w.managers[k].finalizers == x.finalizers - {FINALIZER}
  {
  }

  lemma EventHeld(k: Key, x: Manager, w: World, e: Event)
    requires Released(k, x, w) && Undisturbed(k, x.Type())(e) && FINALIZER in x.finalizers
    ensures Released(k, x, Apply(w, e))
  {
    hide Apply;
    EventTouches(k, w, e);
    assert x.finalizers - {FINALIZER} == {} <==> x.finalizers == {FINALIZER};
  }

  lemma PatchHeld(k: Key, x: Manager, m: Manager, a: Manager, w: World, e: Moment)
    requires Released(k, x, w) && PatchStep(k, m, a, w, e) && FINALIZER in x.finalizers
    requires m.finalizers == x.finalizers - {FINALIZER} && a.finalizers == m.finalizers + {FINALIZER}
    ensures Released(k, x, e.world) && e.world.children == w.children
  {
    hide MergeMap, MergeSpec, MergeStatus;
    assert x.finalizers - {FINALIZER} == {} <==> x.finalizers == {FINALIZER};
    if k in w.managers {
      assert FINALIZER !in w.managers[k].finalizers && FINALIZER in a.finalizers;
    }
  }

  /** Deletion ends: reconcile, CAPI removes the Cluster, reconcile - and nothing remains. If no
      other finalizer is on it, the manager is gone. */
  lemma DeletionCompletes(s: Sys, k: Key, r1: Remote, p1: seq<Tick>, r2: Remote, p2: seq<Tick>)
    requires TearingDown(s.Now(), k)
    requires var env := Undisturbed(k, s.Now().managers[k].Type());
             Calm(s.(plan := p1), env) && Calm(s.(plan := p2), env)
    ensures var t := Run(s, [Manage(k, r1, p1), Outside([ChildRemoved(ClusterKey(k))]), Manage(k, r2, p2)]);
            && Remaining(t.Now(), k) == 0
            && (k in t.Now().managers <==> s.Now().managers[k].finalizers != {FINALIZER})
  {
    hide Reconcile, Happen, Run, Released, Calm;
    var x := s.Now().managers[k];
    var a, b, c := Manage(k, r1, p1), Outside([ChildRemoved(ClusterKey(k))]), Manage(k, r2, p2);
    var s1 := Do(s, a);
    var s2 := Do(s1, b);
    assert Run(s, [a, b, c]) == Do(s2, c) by { RunThree(s, a, b, c); }
    assert s.(plan := p1).Now() == s.Now();
    TearDownWaits(s.(plan := p1), k, r1);
    OneEvent(s1, ChildRemoved(ClusterKey(k)));
    assert s2.Now().managers == s1.Now().managers && ClusterKey(k) !in s2.Now().children;
    CalmSame(s.(plan := p2), s2.(plan := p2), Undisturbed(k, x.Type()));
    if Released(k, x, s1.Now()) {
      HeldSame(k, x, s1.Now(), s2.Now());
    }
    LastReconcile(s2, k, x, r2, p2);
  }

  /** The closing reconcile, whether or not the finalizer is off already. */
  lemma LastReconcile(s: Sys, k: Key, x: Manager, remote: Remote, plan: seq<Tick>)
    requires Calm(s.(plan := plan), Undisturbed(k, x.Type())) && ClusterKey(k) !in s.Now().children
    requires FINALIZER in x.finalizers
    requires Released(k, x, s.Now())
             || (TearingDown(s.Now(), k) && s.Now().managers[k].finalizers == x.finalizers
                 && s.Now().managers[k].Type() == x.Type())
    ensures var t := Do(s, Manage(k, remote, plan));
            Remaining(t.Now(), k) == 0 && (k in t.Now().managers <==> x.finalizers != {FINALIZER})
  {
    hide Reconcile, Released, Calm, TearsDown;
    var t := s.(plan := plan);
    assert t.Now() == s.Now();
    if Released(k, x, s.Now()) {
      CalmPlan(t, k, x.Type());
      ReleasedStays(t, k, x, remote);
      ReleasedMeans(k, x, Reconcile(t, k, remote).0.Now());
    } else {
      TearDownReleases(t, k, remote);
    }
  }

  lemma HeldSame(k: Key, x: Manager, w: World, w': World)
    requires Released(k, x, w) && w'.managers == w.managers
    ensures Released(k, x, w')
  {
  }

  lemma ReleasedMeans(k: Key, x: Manager, w: World)
    requires Released(k, x, w)
    ensures Remaining(w, k) <= (if ClusterKey(k) in w.children then 1 else 0)
    ensures (k in w.managers <==> x.finalizers != {FINALIZER})
  {
  }

  lemma CalmSame(s: Sys, t: Sys, env: Env)
    requires Calm(s, env) && t.plan == s.plan
    ensures Calm(t, env)
  {
  }

  lemma RunThree(s: Sys, a: Job, b: Job, c: Job)
    ensures Run(s, [a, b, c]) == Do(Do(Do(s, a), b), c)
  {
    hide Do;
    RunExtends(s, [], a);
    RunExtends(s, [a], b);
    RunExtends(s, [a, b], c);
    assert [] + [a] == [a] && [a] + [b] == [a, b] && [a, b] + [c] == [a, b, c];
  }

  lemma OneEvent(s: Sys, e: Event)
    ensures Happen(s, [e]).Now() == Apply(s.Now(), e)
  {
    assert Happen(s, [e]) == Happen(s.Log(Happened(e, Apply(s.Now(), e))), []);
  }

  ghost function Attributed(env: Env): Rule {
    (w: World, m: Moment) => Others(env)(w, m) || m.Called?
  }

  /** Whatever a run logs is a request or an event of the others. */
  lemma RunAttributed(s: Sys, jobs: seq<Job>, env: Env)
    requires forall job | job in jobs :: JobOf(job, env)
    ensures Steps(s, Run(s, jobs), Attributed(env))
  {
    hide Reconcile;
    var all: World -> bool := (w: World) => true;
    forall t: Sys, job | job in jobs && all(t.Now())
      ensures Steps(t, Do(t, job), Attributed(env)) && Always(t, Do(t, job), all)
    {
      match job
      case Outside(events) =>
        HappenSteps(t, events, env);
        StepsWeaken(t, Happen(t, events), Others(env), Attributed(env));
      case Manage(key, remote, plan) =>
        var u := t.(plan := plan);
        ReconcileMinds(u, key, remote, env);
        StepsWeaken(u, Reconcile(u, key, remote).0, Minds(key, env), Attributed(env));
    }
    RunSteps(s, jobs, Attributed(env), all);
  }

  /** Nobody else creates a Cluster for k; CAPI may remove it at any time. */
  ghost function Demise(k: Key, ty: string): Env {
    (e: Event) => KeepsType(k, ty, e) && !Adds(k, e) && !(e.ChildAdded? && e.ck == ClusterKey(k))
  }

  ghost function Fades(k: Key): Rule {
    (w: World, m: Moment) => Fading(k, w, m.world) && Remaining(m.world, k) <= Remaining(w, k)
  }

  lemma OthersFade(k: Key, ty: string, w: World, e: Event)
    requires Demise(k, ty)(e) && Doomed(k, ty)(w)
    ensures Fading(k, w, Apply(w, e))
  {
    EventTouches(k, w, e);
    ClusterNotAdded(k, w, e);
    hide Apply;
    assert !Adds(k, e);
  }

  lemma FadingCounts(k: Key, w: World, w': World)
    requires Fading(k, w, w')
    ensures Remaining(w', k) <= Remaining(w, k)
  {
  }

  /** Deletion never regresses: in every run, with every fault, no step brings the Cluster or
      the finalizer of a manager that is being deleted back. */
  lemma DeletionFades(s: Sys, jobs: seq<Job>, k: Key, ty: string)
    requires Doomed(k, ty)(s.Now()) && ty != TYPE_REGISTERED
    requires forall job | job in jobs :: JobOf(job, Demise(k, ty))
    ensures var t := Run(s, jobs);
            Steps(s, t, Fades(k)) && Doomed(k, ty)(t.Now()) && Remaining(t.Now(), k) <= Remaining(s.Now(), k)
  {
    hide Remaining, Fading, Holds;
    var t, env := Run(s, jobs), Demise(k, ty);
    forall job | job in jobs ensures JobOf(job, TypedInFlight(k, ty)) {
      assert JobOf(job, env);
    }
    RunAttributed(s, jobs, env);
    DeletionCreatesNothing(s, jobs, k, ty);
    forall i | |s.past| <= i < |t.past| ensures Fades(k)(t.At(i), t.past[i]) {
      assert Doomed(k, ty)(t.At(i)) && BarrenFor(k)(t.At(i), t.past[i]) && Attributed(env)(t.At(i), t.past[i]);
      if Others(env)(t.At(i), t.past[i]) {
        OthersFade(k, ty, t.At(i), t.past[i].event);
      }
      FadingCounts(k, t.At(i), t.past[i].world);
    }
    var n := Remaining(s.Now(), k);
    var inv := (w: World) => Remaining(w, k) <= n;
    Throughout(s, t, Fades(k), inv, |t.past|);
    assert Doomed(k, ty)(t.At(|t.past|));
  }

  /** Deletion ends: whatever happened before and whatever fails afterwards, once the Cluster is
      gone a single fault-free reconcile leaves nothing to do, for good. */
  lemma DeletionEnds(s: Sys, before: seq<Job>, remote: Remote, plan: seq<Tick>, after: seq<Job>, k: Key, ty: string)
    requires Doomed(k, ty)(s.Now()) && ty != TYPE_REGISTERED
    requires forall job | job in before + after :: JobOf(job, Demise(k, ty))
    requires var t := Run(s, before); ClusterKey(k) !in t.Now().children && Calm(t.(plan := plan), Undisturbed(k, ty))
    ensures Remaining(Run(Run(s, before + [Manage(k, remote, plan)]), after).Now(), k) == 0
  {
    hide Run, Reconcile, Remaining, Calm;
    var t := Run(s, before);
    assert forall job | job in before :: job in before + after;
    assert forall job | job in after :: job in before + after;
    DeletionFades(s, before, k, ty);
    RunExtends(s, before, Manage(k, remote, plan));
    var t1 := t.(plan := plan);
    assert t1.Now() == t.Now();
    var u := Reconcile(t1, k, remote).0;
    assert PlanOf(plan, Undisturbed(k, ty)) by { CalmPlan(t1, k, ty); }
    forall i, j | 0 <= i < |plan| && 0 <= j < |plan[i].events| ensures Demise(k, ty)(plan[i].events[j]) {
      assert Undisturbed(k, ty)(plan[i].events[j]);
    }
    assert JobOf(Manage(k, remote, plan), Demise(k, ty));
    DoneOrHolding(t1, k, ty, remote);
    DeletionFades(t, [Manage(k, remote, plan)], k, ty);
    RunExtends(t, [], Manage(k, remote, plan));
    assert [] + [Manage(k, remote, plan)] == [Manage(k, remote, plan)] && Run(t, []) == t by { RunNone(t); }
    assert Remaining(u.Now(), k) == 0;
    DeletionFades(u, after, k, ty);
  }

  lemma CalmPlan(s: Sys, k: Key, ty: string)
    requires Calm(s, Undisturbed(k, ty))
    ensures PlanOf(s.plan, Undisturbed(k, ty))
  {
  }

  lemma DoneOrHolding(s: Sys, k: Key, ty: string, remote: Remote)
    requires Calm(s, Undisturbed(k, ty)) && Doomed(k, ty)(s.Now()) && ty != TYPE_REGISTERED
    requires ClusterKey(k) !in s.Now().children
    ensures Remaining(s.Now(), k) == 0 || Remaining(Reconcile(s, k, remote).0.Now(), k) == 0
  {
    hide Reconcile;
    if Holds(s.Now(), k) {
      TearDownReleases(s, k, remote);
    }
  }

  /** A teardown asks to be run again exactly if it saw the Cluster: after a failed read of it
      the code reports neither an error nor a delay, and the deletion waits for another event. */
  lemma TearDownAsksAgain(s: Sys, k: Key, m: Manager)
    ensures var o := TearDown(s, k, m);
            && (o.answer.AsksAgain() <==> GetChild(s, ClusterKey(k)).1.Found?)
            && (o.clm.finalizers != m.finalizers ==> GetChild(s, ClusterKey(k)).1.NotFound?)
  {
  }
}
