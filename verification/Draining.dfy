/** The work queue of a manager that is being deleted: it does not drain before the finalizer is
    off, except in one way. */
module Draining {
  import opened Api
  import opened Naming
  import opened Store
  import opened Observation
  import opened Reconciling
  import opened Traces
  import opened Safety
  import opened Lifecycle
  import opened Deletion
  import opened Queue

  /** Nobody else takes our finalizer off k, adds k again or adds its Cluster. */
  ghost function Ours(k: Key, ty: string): Env {
    (e: Event) =>
      KeepsType(k, ty, e) && !Adds(k, e) && !(e.ChildAdded? && e.ck == ClusterKey(k)) && e != ManagerReleased(k)
  }

  ghost function Holding(k: Key, ty: string): World -> bool {
    (w: World) => Holds(w, k) && w.managers[k].deleting && w.managers[k].Type() == ty
  }

  lemma EventHolding(k: Key, ty: string, w: World, e: Event)
    requires Holding(k, ty)(w) && Ours(k, ty)(e)
    ensures Holding(k, ty)(Apply(w, e))
  {
    hide Apply;
    EventTouches(k, w, e);
  }

  lemma StepsHolding(s: Sys, t: Sys, k: Key, ty: string, rule: Rule)
    requires Steps(s, t, rule) && Holding(k, ty)(s.Now())
    requires forall w, m :: Holding(k, ty)(w) && rule(w, m) ==>
               Others(Ours(k, ty))(w, m) || Holding(k, ty)(m.world)
    ensures Holding(k, ty)(t.Now())
  {
    hide Apply;
    forall w, m | Holding(k, ty)(w) && rule(w, m) ensures Holding(k, ty)(m.world) {
      if Others(Ours(k, ty))(w, m) {
        EventHolding(k, ty, w, m.event);
      }
    }
    Throughout(s, t, rule, Holding(k, ty), |t.past|);
  }

  /** The deferred patch of a teardown that did not drop the finalizer. */
  lemma PatchHolding(s: Sys, k: Key, m: Manager, a: Manager, ty: string)
    requires PlanOf(s.plan, Ours(k, ty)) && Holding(k, ty)(s.Now()) && a.finalizers == m.finalizers
    ensures Holding(k, ty)(PatchObject(s, k, m, a).0.Now())
  {
    hide PatchObject, Apply, MergeMap, MergeSpec, MergeStatus;
    PatchSteps(s, k, m, a, Ours(k, ty));
    StepsHolding(s, PatchObject(s, k, m, a).0, k, ty, Patches(k, m, a, Ours(k, ty)));
  }

  /** A deferred patch that dropped the finalizer and was answered without an error. */
  lemma PatchReleases(s: Sys, k: Key, m: Manager, a: Manager, ty: string)
    requires PlanOf(s.plan, Ours(k, ty)) && Doomed(k, ty)(s.Now())
    requires FINALIZER in m.finalizers && FINALIZER !in a.finalizers
    requires PatchObject(s, k, m, a).1
    ensures !Holds(PatchObject(s, k, m, a).0.Now(), k)
  {
    hide Turn, SendStatus, MergeMap, MergeSpec, Apply;
    var t := SendMain(s, k, m, a).0;
    assert !SameMain(m, a) && SendMain(s, k, m, a).1;
    assert !Holds(t.Now(), k) && Doomed(k, ty)(t.Now()) by { MainReleases(s, k, m, a, ty); }
    SendMainSteps(s, k, m, a, Ours(k, ty));
    SendStatusSteps(t, k, m, a, Ours(k, ty));
    StaysReleased(t, SendStatus(t, k, m, a).0, k, m, a, ty);
  }

  lemma MainReleases(s: Sys, k: Key, m: Manager, a: Manager, ty: string)
    requires PlanOf(s.plan, Ours(k, ty)) && Doomed(k, ty)(s.Now())
    requires FINALIZER in m.finalizers && FINALIZER !in a.finalizers && SendMain(s, k, m, a).1
    ensures var t := SendMain(s, k, m, a).0; !Holds(t.Now(), k) && Doomed(k, ty)(t.Now())
  {
    hide Turn, MergeMap, MergeSpec, Apply;
    var env := Ours(k, ty);
    TurnSteps(s, env);
    forall w, o | Doomed(k, ty)(w) && Others(env)(w, o) ensures Doomed(k, ty)(o.world) {
      EventTouches(k, w, o.event);
    }
    Throughout(s, Turn(s), Others(env), Doomed(k, ty), |Turn(s).past|);
  }

  ghost function Freed(k: Key, ty: string): World -> bool {
    (w: World) => Doomed(k, ty)(w) && !Holds(w, k)
  }

  lemma EventFrees(k: Key, ty: string, w: World, e: Event)
    requires Freed(k, ty)(w) && Ours(k, ty)(e)
    ensures Freed(k, ty)(Apply(w, e))
  {
    hide Apply;
    assert Doomed(k, ty)(w) && TypedInFlight(k, ty)(e);
    OthersDoom(k, ty, w, e);
    EventTouches(k, w, e);
    assert k in Apply(w, e).managers ==> k in w.managers && !Patched(k, e);
  }

  lemma PatchFrees(k: Key, ty: string, m: Manager, a: Manager, w: World, o: Moment)
    requires Freed(k, ty)(w) && PatchStep(k, m, a, w, o)
    ensures Freed(k, ty)(o.world)
  {
    hide PatchStep;
    assert Doomed(k, ty)(w);
    PatchIsBarren(k, ty, m, a, w, o);
  }

  lemma StaysReleased(s: Sys, t: Sys, k: Key, m: Manager, a: Manager, ty: string)
    requires Steps(s, t, Patches(k, m, a, Ours(k, ty))) && Doomed(k, ty)(s.Now()) && !Holds(s.Now(), k)
    ensures !Holds(t.Now(), k)
  {
    hide Apply, PatchStep, Holds;
    var rule := Patches(k, m, a, Ours(k, ty));
    forall w, o | Freed(k, ty)(w) && rule(w, o) ensures Freed(k, ty)(o.world) {
      if Others(Ours(k, ty))(w, o) {
        EventFrees(k, ty, w, o.event);
      } else {
        PatchFrees(k, ty, m, a, w, o);
      }
    }
    Throughout(s, t, rule, Freed(k, ty), |t.past|);
  }

  /** The manager is read, the read of the Cluster fails, and the patch that says Deleting goes
      through. */
  ghost predicate Forgets(s: Sys, k: Key) {
    var (t, r) := GetManager(s, k);
    && r.Found?
    && var (u, c) := GetChild(t, ClusterKey(k));
       c.Failed? && PatchObject(u, k, r.value, SetPhase(Ready(r.value, false), PHASE_DELETING)).1
  }

  /** One reconcile of a manager that is being torn down, with any faults: it neither asks to run
      again nor gets the finalizer off if and only if it forgets, and it does not panic. */
  lemma TearDownRound(s: Sys, k: Key, remote: Remote, ty: string)
    requires PlanOf(s.plan, Ours(k, ty)) && Holding(k, ty)(s.Now()) && ty != TYPE_REGISTERED
    ensures var (u, a) := Reconcile(s, k, remote);
            && a.Returned?
            && (!a.AsksAgain() && Holds(u.Now(), k) <==> Forgets(s, k))
  {
    hide GetManager, GetChild, Delete, PatchObject, WithPhase, RunPhases, Apply;
    var env := Ours(k, ty);
    var (t, r) := GetManager(s, k);
    GetManagerSteps(s, k, env, Reads(env));
    StepsHolding(s, t, k, ty, Reads(env));
    if r.Found? {
      var m := r.value;
      var c := Ready(m, false);
      var o := TearDown(t, k, c);
      assert Body(t, k, m, remote) == o;
      TearDownSteps(t, k, c, env);
      StepsHolding(t, o.sys, k, ty, Tears(k, env));
      var after := WithPhase(o.clm);
      PhaseIsStatus(o.clm);
      DeletingPhase(o.clm);
      if GetChild(t, ClusterKey(k)).1.NotFound? {
        if PatchObject(o.sys, k, m, after).1 {
          PatchReleases(o.sys, k, m, after, ty);
        }
      } else {
        PatchHolding(o.sys, k, m, after, ty);
      }
    }
  }

  /** Off the queue with the finalizer still on. */
  ghost predicate Stuck(l: Loop, k: Key) {
    !l.pending && Holds(l.sys.Now(), k)
  }

  /** The round forgets, and nothing that happens during it wakes the queue. */
  ghost predicate Parks(l: Loop, k: Key, input: Input) {
    var s := l.sys.(plan := input.plan);
    && l.pending && Holds(l.sys.Now(), k)
    && Forgets(s, k) && !Woken(s, Reconcile(s, k, input.remote).0, k)
  }

  lemma RoundParks(l: Loop, k: Key, input: Input, ty: string)
    requires l.pending && PlanOf(input.plan, Ours(k, ty)) && Doomed(k, ty)(l.sys.Now()) && ty != TYPE_REGISTERED
    ensures var l' := Round(l, k, input);
            && Doomed(k, ty)(l'.sys.Now())
            && (Stuck(l', k) <==> Parks(l, k, input))
            && (!Holds(l.sys.Now(), k) ==> !Holds(l'.sys.Now(), k))
  {
    hide Reconcile, Forgets, Woken;
    var s := l.sys.(plan := input.plan);
    assert s.Now() == l.sys.Now();
    RoundFades(s, k, input.remote, ty);
    if Holds(s.Now(), k) {
      TearDownRound(s, k, input.remote, ty);
    }
  }

  lemma RoundFades(s: Sys, k: Key, remote: Remote, ty: string)
    requires PlanOf(s.plan, Ours(k, ty)) && Doomed(k, ty)(s.Now()) && ty != TYPE_REGISTERED
    ensures var u := Reconcile(s, k, remote).0;
            Doomed(k, ty)(u.Now()) && (!Holds(s.Now(), k) ==> !Holds(u.Now(), k))
  {
    hide Reconcile, Holds;
    var job := Manage(k, remote, s.plan);
    OursIsDemise(s.plan, k, ty);
    DeletionFades(s, [job], k, ty);
    RunExtends(s, [], job);
    RunNone(s);
    assert [] + [job] == [job] && s.(plan := s.plan) == s;
    var u := Reconcile(s, k, remote).0;
    assert Run(s, [job]) == u;
    if !Holds(s.Now(), k) {
      var inv := (w: World) => !Holds(w, k);
      Throughout(s, u, Fades(k), inv, |u.past|);
    }
  }

  lemma OursIsDemise(plan: seq<Tick>, k: Key, ty: string)
    requires PlanOf(plan, Ours(k, ty))
    ensures PlanOf(plan, Demise(k, ty))
  {
  }

  ghost function Parking(k: Key): (Loop, Input) -> bool {
    (l: Loop, input: Input) => Parks(l, k, input)
  }

  /** A deleting manager's own queue, exactly: in every run of rounds, with any faults, it drains
      before the finalizer is off if and only if one round's read of the Cluster failed, its
      patch went through and nothing woke it. */
  lemma {:induction false} DeletionDrives(l: Loop, k: Key, inputs: seq<Input>, ty: string)
    requires l.pending && Doomed(k, ty)(l.sys.Now()) && ty != TYPE_REGISTERED
    requires forall input | input in inputs :: PlanOf(input.plan, Ours(k, ty))
    ensures var l' := Rounds(l, k, inputs);
            Doomed(k, ty)(l'.sys.Now()) && (Stuck(l', k) <==> Somewhere(l, k, inputs, Parking(k)))
  {
    hide Round, Parks, Stuck, Doomed, Somewhere, Ours;
    if inputs != [] {
      var n := |inputs| - 1;
      var init, l1 := inputs[..n], Rounds(l, k, inputs[..n]);
      assert inputs[n] in inputs && forall x | x in init :: x in inputs;
      DeletionDrives(l, k, init, ty);
      OneMoreRound(l, k, inputs, Parking(k));
      if l1.pending {
        RoundParks(l1, k, inputs[n], ty);
        PendingIsNotStuck(l1, k);
      } else {
        RoundIdle(l1, k, inputs[n]);
        IdleParksNot(l1, k, inputs[n]);
      }
    } else {
      PendingIsNotStuck(l, k);
      NoRounds(l, k, Parking(k));
    }
  }

  lemma PendingIsNotStuck(l: Loop, k: Key)
    requires l.pending
    ensures !Stuck(l, k)
  {
  }

  lemma IdleParksNot(l: Loop, k: Key, input: Input)
    requires !l.pending
    ensures !Parks(l, k, input)
  {
  }
}
