/** What a run can and cannot do to one manager: isolation from the others, and the order of
    its phases. */
module Lifecycle {
  import opened Api
  import opened Naming
  import opened Store
  import opened Children
  import opened Observation
  import opened Reconciling
  import opened Traces
  import opened Safety

  // ---------------------------------------------------------------------------------------
  // Isolation

  /** The claims, the managers other than k and all objects that are not children of k are the same. */
  ghost predicate SameElsewhere(k: Key, w: World, w': World) {
    && w'.claims == w.claims
    && (forall other | other != k :: SameManager(other, w, w'))
    && (forall ck | !IsChildOf(ck, k) :: SameChild(ck, w, w'))
  }

  ghost predicate SameManager(k: Key, w: World, w': World) {
    && (k in w'.managers <==> k in w.managers)
    && (k in w.managers ==> w'.managers[k] == w.managers[k])
  }

  ghost predicate SameChild(ck: ChildKey, w: World, w': World) {
    && (ck in w'.children <==> ck in w.children)
    && (ck in w.children ==> w'.children[ck] == w.children[ck])
  }

  ghost function Minds(k: Key, env: Env): Rule {
    (w: World, m: Moment) =>
      Others(env)(w, m) || (m.Called? && OwnCall(k, m.call) && SameElsewhere(k, w, m.world))
  }

  /** Requests that write name k or one of its children. */
  ghost predicate OwnCall(k: Key, call: Call) {
    match call
    case CreateManager(key) => false
    case UpdateClaim(key) => false
    case PatchManager(key) => key == k
    case PatchStatus(key) => key == k
    case CreateChild(ck, _) => IsChildOf(ck, k)
    case PatchChild(ck, _) => IsChildOf(ck, k)
    case DeleteChild(ck) => IsChildOf(ck, k)
    case _ => true
  }

  lemma ChildWriteMinds(k: Key, ck: ChildKey, w: World, w': World)
    requires IsChildOf(ck, k) && w'.managers == w.managers && w'.claims == w.claims
    requires forall x | x != ck :: SameChild(x, w, w')
    ensures SameElsewhere(k, w, w')
  {
    hide IsChildOf;
    forall x | !IsChildOf(x, k) ensures SameChild(x, w, w') {
      assert x != ck;
    }
  }

  lemma StepMinds(k: Key, m0: Manager, w: World, m: Moment)
    requires BuildStep(k, m0, w, m) || TearStep(k, w, m)
    ensures m.Called? && OwnCall(k, m.call) && SameElsewhere(k, w, m.world)
  {
    hide IsChildOf, Template;
    ClusterIsChild(k);
    if m.world != w {
      ChildWriteMinds(k, m.call.ck, w, m.world);
    }
  }

  lemma ClusterIsChild(k: Key)
    ensures IsChildOf(ClusterKey(k), k)
  {
    assert ControlPlaneChain(k)[0] == ClusterKey(k);
  }

  lemma ReadMinds(k: Key, w: World, m: Moment)
    requires IsRead(w, m)
    ensures m.Called? && OwnCall(k, m.call) && SameElsewhere(k, w, m.world)
  {
  }

  lemma PatchMinds(k: Key, before: Manager, after: Manager, w: World, m: Moment)
    requires PatchStep(k, before, after, w, m)
    ensures m.Called? && OwnCall(k, m.call) && SameElsewhere(k, w, m.world)
  {
    hide MergeMain, MergeStatus, IsChildOf;
  }

  /** Every step of its own that a reconcile of k takes, under any plan, stays within k. */
  lemma ReconcileMinds(s: Sys, k: Key, remote: Remote, env: Env)
    requires PlanOf(s.plan, env)
    ensures Steps(s, Reconcile(s, k, remote).0, Minds(k, env))
  {
    hide GetManager, Body, PatchObject, WithPhase, SameElsewhere, PatchStep, IsChildOf;
    var rule := Minds(k, env);
    forall w, m | IsRead(w, m) ensures rule(w, m) {
      ReadMinds(k, w, m);
    }
    var (t, r) := GetManager(s, k);
    GetManagerSteps(s, k, env, rule);
    if r.Found? {
      var m := r.value;
      var o := Body(t, k, m, remote);
      var after := WithPhase(o.clm);
      BodyMinds(t, k, m, remote, env);
      PatchSteps(o.sys, k, m, after, env);
      var u := PatchObject(o.sys, k, m, after).0;
      forall w, e | Patches(k, m, after, env)(w, e) ensures rule(w, e) {
        if !Others(env)(w, e) {
          PatchMinds(k, m, after, w, e);
        }
      }
      StepsWeaken(o.sys, u, Patches(k, m, after, env), rule);
      StepsJoin(s, t, o.sys, rule);
      StepsJoin(s, o.sys, u, rule);
    }
  }

  lemma BodyMinds(t: Sys, k: Key, m: Manager, remote: Remote, env: Env)
    requires PlanOf(t.plan, env)
    ensures var o := Body(t, k, m, remote);
            Steps(t, o.sys, Minds(k, env)) && PlanOf(o.sys.plan, env)
  {
    hide RunPhases, TearDown;
    var o := Body(t, k, m, remote);
    if FINALIZER in m.finalizers && TearsDown(m) {
      TearDownSteps(t, k, Ready(m, false), env);
      forall w, e | Tears(k, env)(w, e) ensures Minds(k, env)(w, e) {
        if !Others(env)(w, e) {
          StepMinds(k, m, w, e);
        }
      }
      StepsWeaken(t, o.sys, Tears(k, env), Minds(k, env));
    } else {
      BodyBuilds(t, k, m, remote, env);
      forall w, e | Builds(k, m, env)(w, e) ensures Minds(k, env)(w, e) {
        if !Others(env)(w, e) {
          StepMinds(k, m, w, e);
        }
      }
      StepsWeaken(t, o.sys, Builds(k, m, env), Minds(k, env));
    }
  }

  predicate NoEvent(e: Event) {
    false
  }

  /** Reconciling one manager, even with faults, leaves every other manager and all of its
      children as they are, whatever the two managers are called. */
  lemma NeighboursUntouched(s: Sys, k: Key, remote: Remote, other: Key)
    requires PlanOf(s.plan, NoEvent) && other != k
    ensures var w, w' := s.Now(), Reconcile(s, k, remote).0.Now();
            && SameManager(other, w, w')
            && forall ck | IsChildOf(ck, other) :: SameChild(ck, w, w')
  {
    var t := Reconcile(s, k, remote).0;
    ReconcileMinds(s, k, remote, NoEvent);
    var w0 := s.Now();
    var inv := (w: World) => SameElsewhere(k, w0, w);
    forall w, m | inv(w) && Minds(k, NoEvent)(w, m) ensures inv(m.world) {
      assert !Others(NoEvent)(w, m);
      forall x | x != k ensures SameManager(x, w0, m.world) {
        assert SameManager(x, w0, w) && SameManager(x, w, m.world);
      }
      forall ck | !IsChildOf(ck, k) ensures SameChild(ck, w0, m.world) {
        assert SameChild(ck, w0, w) && SameChild(ck, w, m.world);
      }
    }
    Throughout(s, t, Minds(k, NoEvent), inv, |t.past|);
    forall ck | IsChildOf(ck, other) ensures SameChild(ck, w0, t.Now()) {
      if IsChildOf(ck, k) {
        ChildKeysIsolated(k, other, ck);
      }
    }
  }

  // ---------------------------------------------------------------------------------------
  // Runs

  /** Induction over the jobs of a run. */
  lemma {:induction false} RunSteps(s: Sys, jobs: seq<Job>, rule: Rule, inv: World -> bool)
    requires inv(s.Now())
    requires forall t: Sys, job | job in jobs && inv(t.Now()) ::
               Steps(t, Do(t, job), rule) && Always(t, Do(t, job), inv)
    ensures Steps(s, Run(s, jobs), rule) && Always(s, Run(s, jobs), inv)
  {
    if jobs != [] {
      var init, job := jobs[..|jobs| - 1], jobs[|jobs| - 1];
      assert forall j | j in init :: j in jobs;
      RunSteps(s, init, rule, inv);
      var t := Run(s, init);
      assert inv(t.At(|t.past|));
      StepsJoin(s, t, Do(t, job), rule);
      AlwaysJoin(s, t, Do(t, job), inv);
    }
  }

  lemma StepsUnder(s: Sys, t: Sys, rule: Rule, inv: World -> bool, wider: Rule)
    requires Steps(s, t, rule) && Always(s, t, inv)
    requires forall w, m :: inv(w) && rule(w, m) ==> wider(w, m)
    ensures Steps(s, t, wider)
  {
  }

  // ---------------------------------------------------------------------------------------
  // The order of phases

  function Rank(ty: string, phase: string): int {
    if phase == "" then 0
    else if phase == PHASE_REGISTERING then 1
    else if phase == PHASE_REGISTERED then (if ty == TYPE_REGISTERED then 2 else 1)
    else if phase == PHASE_PROVISIONED then 2
    else 3
  }

  predicate ValidPhase(ty: string, phase: string) {
    || phase == "" || phase == PHASE_REGISTERED || phase == PHASE_DELETING
    || (if ty == TYPE_REGISTERED then phase == PHASE_REGISTERING else phase == PHASE_PROVISIONED)
  }

  ghost predicate Sane(k: Key, ty: string, w: World) {
    k in w.managers ==>
      var m := w.managers[k];
      m.Type() == ty && ValidPhase(ty, m.status.phase) && (m.status.phase == PHASE_DELETING ==> m.deleting)
  }

  /** The cluster type of k is not edited, and nobody else writes k as the ClusterManager controller. */
  predicate KeepsType(k: Key, ty: string, e: Event) {
    match e
    case ManagerAdded(key, labels, _, _, _, _) => key == k ==> Lookup(labels, LABEL_CLUSTER_TYPE) == ty
    case ManagerRelabelled(key, labels, _) => key == k ==> Lookup(labels, LABEL_CLUSTER_TYPE) == ty
    case ManagerPatched(key, _, _, _) => key != k
    case _ => true
  }

  predicate Adds(k: Key, e: Event) {
    e.ManagerAdded? && e.key == k
  }

  ghost function Typed(k: Key, ty: string): Env {
    e => KeepsType(k, ty, e)
  }

  ghost function TypedInFlight(k: Key, ty: string): Env {
    e => KeepsType(k, ty, e) && !Adds(k, e)
  }

  /** The phase of k does not move backward. */
  ghost predicate Forward(k: Key, ty: string, w: World, w': World) {
    k in w.managers && k in w'.managers ==>
      Rank(ty, w.managers[k].status.phase) <= Rank(ty, w'.managers[k].status.phase)
  }

  ghost function Forwards(k: Key, ty: string): Rule {
    (w: World, m: Moment) => Forward(k, ty, w, m.world)
  }

  ghost function IsSane(k: Key, ty: string): World -> bool {
    (w: World) => Sane(k, ty, w)
  }

  lemma OthersForward(k: Key, ty: string, w: World, e: Event)
    requires Sane(k, ty, w) && KeepsType(k, ty, e)
    ensures Sane(k, ty, Apply(w, e)) && Forward(k, ty, w, Apply(w, e))
    ensures !Adds(k, e) && k in Apply(w, e).managers ==>
              && k in w.managers
              && Apply(w, e).managers[k].status.phase == w.managers[k].status.phase
              && (w.managers[k].deleting ==> Apply(w, e).managers[k].deleting)
  {
    hide Apply;
    EventTouches(k, w, e);
  }

  lemma PhaseAdvances(ty: string, m: Manager, c: Manager)
    requires Kept(m, c) && m.Type() == ty && ValidPhase(ty, m.status.phase)
    requires m.status.phase == PHASE_DELETING ==> m.deleting
    ensures var p := WithPhase(c).status.phase;
            && Rank(ty, m.status.phase) <= Rank(ty, p) && ValidPhase(ty, p)
            && (m.deleting <==> p == PHASE_DELETING)
  {
  }

  /** While a reconcile that read m and computed the phase p is in flight, k carries one of the
      two phases or, if it was replaced, none. */
  ghost function Between(k: Key, ty: string, m: Manager, p: string): World -> bool {
    (w: World) =>
      && Sane(k, ty, w)
      && (k in w.managers ==>
            w.managers[k].status.phase == m.status.phase
            || w.managers[k].status.phase == p || w.managers[k].status.phase == "")
  }

  /** A status patch computed from m, which was being deleted but did not say so yet, is accepted
      on a manager that is not being deleted. */
  ghost predicate Landing(k: Key, m: Manager, w: World, o: Moment) {
    && m.deleting && m.status.phase != PHASE_DELETING
    && o.Called? && o.call == PatchStatus(k) && o.world != w
    && k in w.managers && !w.managers[k].deleting
  }

  ghost predicate Lands(s: Sys, k: Key, remote: Remote) {
    var (t, r) := GetManager(s, k);
    var u := Reconcile(s, k, remote).0;
    r.Found? && exists i | |t.past| <= i < |u.past| :: Landing(k, r.value, u.At(i), u.past[i])
  }

  lemma QuietForward(s: Sys, t: Sys, k: Key, ty: string, m: Manager, rule: Rule)
    requires Steps(s, t, rule) && Between(k, ty, m, m.status.phase)(s.Now())
    requires forall w, o :: rule(w, o) ==>
               || Others(Typed(k, ty))(w, o)
               || (o.Called? && o.call != PatchStatus(k) && o.world.managers == w.managers)
    ensures Steps(s, t, Forwards(k, ty)) && Always(s, t, IsSane(k, ty))
    ensures Between(k, ty, m, m.status.phase)(t.Now())
    ensures forall i | |s.past| <= i < |t.past| :: !Landing(k, m, t.At(i), t.past[i])
  {
    hide Apply, Sane, Forward;
    var inv := Between(k, ty, m, m.status.phase);
    forall w, o | inv(w) && rule(w, o) ensures inv(o.world) && Forwards(k, ty)(w, o) {
      if Others(Typed(k, ty))(w, o) {
        EventBetween(k, ty, m, w, o.event);
      } else {
        SameManagersForward(k, ty, w, o.world);
      }
    }
    AlwaysFrom(s, t, rule, inv);
    StepsUnder(s, t, rule, inv, Forwards(k, ty));
    assert inv(t.At(|t.past|));
    forall i | |s.past| <= i < |t.past| ensures !Landing(k, m, t.At(i), t.past[i]) {
      assert rule(t.At(i), t.past[i]);
    }
  }

  lemma EventBetween(k: Key, ty: string, m: Manager, w: World, e: Event)
    requires Between(k, ty, m, m.status.phase)(w) && KeepsType(k, ty, e)
    ensures Between(k, ty, m, m.status.phase)(Apply(w, e)) && Forward(k, ty, w, Apply(w, e))
  {
    OthersForward(k, ty, w, e);
    hide Apply;
    EventTouches(k, w, e);
  }

  lemma SameManagersForward(k: Key, ty: string, w: World, w': World)
    requires w'.managers == w.managers && Sane(k, ty, w)
    ensures Sane(k, ty, w') && Forward(k, ty, w, w')
  {
  }

  /** A patch never moves the phase of what it lands on backward; it leaves a sane manager exactly
      if it does not land on a live one. */
  lemma PatchStepForward(k: Key, ty: string, m: Manager, a: Manager, w: World, o: Moment)
    requires Between(k, ty, m, a.status.phase)(w) && PatchStep(k, m, a, w, o)
    requires Rank(ty, m.status.phase) <= Rank(ty, a.status.phase) && ValidPhase(ty, a.status.phase)
    requires m.deleting <==> a.status.phase == PHASE_DELETING
    ensures Forward(k, ty, w, o.world)
    ensures if Landing(k, m, w, o) then !Sane(k, ty, o.world) else Between(k, ty, m, a.status.phase)(o.world)
  {
    hide Rank, ValidPhase, PatchStep;
    EmptyIsFirst(ty, a.status.phase);
    PatchShape(k, m, a, w, o);
    if Landing(k, m, w, o) {
      LandingBreaks(k, ty, m, a, w, o);
    }
  }

  /** The phase is the one it was or, if a status patch that changed it was accepted, the new one. */
  lemma PatchShape(k: Key, m: Manager, a: Manager, w: World, o: Moment)
    requires PatchStep(k, m, a, w, o)
    ensures k in o.world.managers ==>
              && k in w.managers
              && var x, y := w.managers[k], o.world.managers[k];
                 && y.labels == x.labels && y.deleting == x.deleting
                 && (y.status.phase == x.status.phase
                     || (o.Called? && o.call == PatchStatus(k) && o.world != w
                         && a.status.phase != m.status.phase && y.status.phase == a.status.phase))
  {
    hide MergeMap, MergeSpec;
  }

  lemma EmptyIsFirst(ty: string, phase: string)
    ensures Rank(ty, "") <= Rank(ty, phase) && ValidPhase(ty, "")
  {
  }

  lemma LandingBreaks(k: Key, ty: string, m: Manager, a: Manager, w: World, o: Moment)
    requires PatchStep(k, m, a, w, o) && Landing(k, m, w, o) && a.status.phase == PHASE_DELETING
    ensures !Sane(k, ty, o.world)
  {
    hide MergeMap, MergeSpec, ValidPhase;
  }

  /** The patches that do not land on a live manager. */
  ghost function Clean(k: Key, ty: string, m: Manager, a: Manager): Rule {
    (w: World, o: Moment) => Patches(k, m, a, Typed(k, ty))(w, o) && !Landing(k, m, w, o)
  }

  lemma PatchForward(s: Sys, t: Sys, k: Key, ty: string, m: Manager, a: Manager)
    requires Steps(s, t, Patches(k, m, a, Typed(k, ty)))
    requires Between(k, ty, m, m.status.phase)(s.Now())
    requires Rank(ty, m.status.phase) <= Rank(ty, a.status.phase) && ValidPhase(ty, a.status.phase)
    requires m.deleting <==> a.status.phase == PHASE_DELETING
    requires forall i | |s.past| <= i < |t.past| :: !Landing(k, m, t.At(i), t.past[i])
    ensures Steps(s, t, Forwards(k, ty)) && Always(s, t, IsSane(k, ty))
  {
    hide Apply, Sane, Forward, Landing, PatchStep;
    var rule := Clean(k, ty, m, a);
    var inv := Between(k, ty, m, a.status.phase);
    forall w, o | inv(w) && rule(w, o) ensures inv(o.world) && Forwards(k, ty)(w, o) {
      if Others(Typed(k, ty))(w, o) {
        EventBetweenPatched(k, ty, m, a.status.phase, w, o.event);
      } else {
        PatchStepForward(k, ty, m, a, w, o);
      }
    }
    AlwaysFrom(s, t, rule, inv);
    StepsUnder(s, t, rule, inv, Forwards(k, ty));
  }

  lemma EventBetweenPatched(k: Key, ty: string, m: Manager, p: string, w: World, e: Event)
    requires Between(k, ty, m, p)(w) && KeepsType(k, ty, e)
    ensures Between(k, ty, m, p)(Apply(w, e)) && Forward(k, ty, w, Apply(w, e))
  {
    OthersForward(k, ty, w, e);
    hide Apply;
    EventTouches(k, w, e);
  }

  /** One reconcile, exactly: with replacements allowed while it is in flight, k stays sane if and
      only if no patch lands; and then no step moves its phase backward. */
  lemma ReconcileForward(s: Sys, k: Key, remote: Remote, ty: string)
    requires PlanOf(s.plan, Typed(k, ty)) && Sane(k, ty, s.Now())
    ensures var t := Reconcile(s, k, remote).0;
            && (Always(s, t, IsSane(k, ty)) <==> !Lands(s, k, remote))
            && (!Lands(s, k, remote) ==> Steps(s, t, Forwards(k, ty)))
  {
    hide GetManager, Body, PatchObject, WithPhase, Sane, Forward, ValidPhase, Rank, Landing, PatchStep, Between;
    var env := Typed(k, ty);
    var (t, r) := GetManager(s, k);
    GetManagerSteps(s, k, env, Reads(env));
    ReadsForward(s, t, k, ty);
    if r.Found? {
      var m := r.value;
      var o := Body(t, k, m, remote);
      var after := WithPhase(o.clm);
      BodyForward(t, k, ty, m, remote);
      PatchSteps(o.sys, k, m, after, env);
      var u := PatchObject(o.sys, k, m, after).0;
      assert Reconcile(s, k, remote).0 == u;
      if !Lands(s, k, remote) {
        PatchForward(o.sys, u, k, ty, m, after);
        StepsJoin(s, t, o.sys, Forwards(k, ty));
        AlwaysJoin(s, t, o.sys, IsSane(k, ty));
        StepsJoin(s, o.sys, u, Forwards(k, ty));
        AlwaysJoin(s, o.sys, u, IsSane(k, ty));
      } else {
        var i :| |t.past| <= i < |u.past| && Landing(k, m, u.At(i), u.past[i]);
        LandedInPatch(t, o.sys, u, k, m, i);
        LandedBreaks(s, o.sys, u, k, ty, m, after, i);
      }
    }
  }

  lemma LandedInPatch(t: Sys, v: Sys, u: Sys, k: Key, m: Manager, i: nat)
    requires Grows(t, v) && Grows(v, u) && |t.past| <= i < |u.past| && Landing(k, m, u.At(i), u.past[i])
    requires forall j | |t.past| <= j < |v.past| :: !Landing(k, m, v.At(j), v.past[j])
    ensures |v.past| <= i
  {
    hide Landing;
    assert forall j | 0 <= j < |v.past| :: u.past[j] == v.past[j] && u.At(j) == v.At(j);
  }

  lemma LandedBreaks(s: Sys, v: Sys, u: Sys, k: Key, ty: string, m: Manager, a: Manager, i: nat)
    requires Steps(v, u, Patches(k, m, a, Typed(k, ty))) && |s.past| <= |v.past| <= i < |u.past|
    requires Landing(k, m, u.At(i), u.past[i]) && (m.deleting <==> a.status.phase == PHASE_DELETING)
    ensures !Always(s, u, IsSane(k, ty))
  {
    hide Apply, Sane;
    assert Patches(k, m, a, Typed(k, ty))(u.At(i), u.past[i]);
    assert !Others(Typed(k, ty))(u.At(i), u.past[i]);
    assert PatchStep(k, m, a, u.At(i), u.past[i]);
    LandingBreaks(k, ty, m, a, u.At(i), u.past[i]);
    assert u.At(i + 1) == u.past[i].world && !IsSane(k, ty)(u.At(i + 1));
  }

  lemma ReadsForward(s: Sys, t: Sys, k: Key, ty: string)
    requires Sane(k, ty, s.Now()) && Steps(s, t, Reads(Typed(k, ty)))
    ensures Steps(s, t, Forwards(k, ty)) && Always(s, t, IsSane(k, ty)) && Sane(k, ty, t.Now())
  {
    hide Apply;
    var rule, inv := Reads(Typed(k, ty)), IsSane(k, ty);
    forall w, o | inv(w) && rule(w, o) ensures inv(o.world) && Forwards(k, ty)(w, o) {
      if Others(Typed(k, ty))(w, o) {
        OthersForward(k, ty, w, o.event);
      }
    }
    AlwaysFrom(s, t, rule, inv);
    StepsUnder(s, t, rule, inv, Forwards(k, ty));
    assert inv(t.At(|t.past|));
  }

  lemma BodyForward(t: Sys, k: Key, ty: string, m: Manager, remote: Remote)
    requires PlanOf(t.plan, Typed(k, ty)) && Sane(k, ty, t.Now())
    requires k in t.Now().managers && t.Now().managers[k] == m
    ensures var o := Body(t, k, m, remote); var p := WithPhase(o.clm).status.phase;
            && Steps(t, o.sys, Forwards(k, ty)) && Always(t, o.sys, IsSane(k, ty))
            && Between(k, ty, m, m.status.phase)(o.sys.Now())
            && (forall i | |t.past| <= i < |o.sys.past| :: !Landing(k, m, o.sys.At(i), o.sys.past[i]))
            && PlanOf(o.sys.plan, Typed(k, ty))
            && Rank(ty, m.status.phase) <= Rank(ty, p) && ValidPhase(ty, p)
            && (m.deleting <==> p == PHASE_DELETING)
  {
    hide RunPhases, TearDown, Landing;
    var env := Typed(k, ty);
    var o := Body(t, k, m, remote);
    BodyKeeps(t, k, m, remote);
    PhaseAdvances(ty, m, o.clm);
    if FINALIZER in m.finalizers && TearsDown(m) {
      TearDownSteps(t, k, Ready(m, false), env);
      QuietForward(t, o.sys, k, ty, m, Tears(k, env));
    } else {
      BodyBuilds(t, k, m, remote, env);
      QuietForward(t, o.sys, k, ty, m, Builds(k, m, env));
    }
  }

  /** Only a replacement can be landed on: if k is not added again in flight, no patch lands. */
  lemma UnreplacedNeverLands(s: Sys, k: Key, remote: Remote, ty: string)
    requires PlanOf(s.plan, TypedInFlight(k, ty))
    ensures !Lands(s, k, remote)
  {
    hide GetManager, Body, PatchObject, WithPhase, Apply, PatchStep, BuildStep, TearStep;
    var env := TypedInFlight(k, ty);
    var (t, r) := GetManager(s, k);
    GetManagerSteps(s, k, env, Reads(env));
    if r.Found? && r.value.deleting {
      var m := r.value;
      var o := Body(t, k, m, remote);
      BodyMinds(t, k, m, remote, env);
      var after := WithPhase(o.clm);
      var u := PatchObject(o.sys, k, m, after).0;
      PatchSteps(o.sys, k, m, after, env);
      BodyKeepsDoom(t, o.sys, k, m, remote, ty);
      PatchKeepsDoom(o.sys, u, k, m, after, ty);
      forall i | |t.past| <= i < |u.past| ensures !Landing(k, m, u.At(i), u.past[i]) {
        if i < |o.sys.past| {
          assert u.At(i) == o.sys.At(i);
          assert Dying(k)(o.sys.At(i));
        } else {
          assert Dying(k)(u.At(i));
        }
      }
    }
  }

  ghost function Dying(k: Key): World -> bool {
    (w: World) => k in w.managers ==> w.managers[k].deleting
  }

  lemma BodyKeepsDoom(t: Sys, u: Sys, k: Key, m: Manager, remote: Remote, ty: string)
    requires PlanOf(t.plan, TypedInFlight(k, ty)) && Dying(k)(t.Now()) && u == Body(t, k, m, remote).sys
    ensures Always(t, u, Dying(k)) && Dying(k)(u.Now())
  {
    hide RunPhases, TearDown;
    var env := TypedInFlight(k, ty);
    if FINALIZER in m.finalizers && TearsDown(m) {
      TearDownSteps(t, k, Ready(m, false), env);
      DyingSteps(t, u, k, ty, Tears(k, env));
    } else {
      BodyBuilds(t, k, m, remote, env);
      DyingSteps(t, u, k, ty, Builds(k, m, env));
    }
  }

  lemma PatchKeepsDoom(s: Sys, t: Sys, k: Key, m: Manager, a: Manager, ty: string)
    requires Steps(s, t, Patches(k, m, a, TypedInFlight(k, ty))) && Dying(k)(s.Now())
    ensures Always(s, t, Dying(k))
  {
    hide MergeMap, MergeSpec, MergeStatus;
    DyingSteps(s, t, k, ty, Patches(k, m, a, TypedInFlight(k, ty)));
  }

  lemma DyingSteps(s: Sys, t: Sys, k: Key, ty: string, rule: Rule)
    requires Steps(s, t, rule) && Dying(k)(s.Now())
    requires forall w, o :: rule(w, o) ==>
               || Others(TypedInFlight(k, ty))(w, o)
               || (k in o.world.managers ==> k in w.managers && o.world.managers[k].deleting == w.managers[k].deleting)
    ensures Always(s, t, Dying(k)) && Dying(k)(t.Now())
  {
    hide Apply;
    forall w, o | Dying(k)(w) && rule(w, o) ensures Dying(k)(o.world) {
      if Others(TypedInFlight(k, ty))(w, o) {
        assert !Adds(k, o.event);
        EventTouches(k, w, o.event);
      }
    }
    AlwaysFrom(s, t, rule, Dying(k));
    assert Dying(k)(t.At(|t.past|));
  }

  /** No patch of any reconcile of k in the run lands. */
  ghost predicate NeverLands(s: Sys, jobs: seq<Job>, k: Key) {
    jobs == []
    || var init, job := jobs[..|jobs| - 1], jobs[|jobs| - 1];
       && NeverLands(s, init, k)
       && (job.Manage? && job.key == k ==> !Lands(Run(s, init).(plan := job.plan), k, job.remote))
  }

  lemma DoForward(t: Sys, job: Job, k: Key, ty: string)
    requires JobOf(job, Typed(k, ty)) && Sane(k, ty, t.Now())
    ensures var lands := job.Manage? && job.key == k && Lands(t.(plan := job.plan), k, job.remote);
            && (Always(t, Do(t, job), IsSane(k, ty)) <==> !lands)
            && (!lands ==> Steps(t, Do(t, job), Forwards(k, ty)))
  {
    hide Reconcile, Lands, Apply;
    var inv, env := IsSane(k, ty), Typed(k, ty);
    match job
    case Outside(events) =>
      HappenSteps(t, events, env);
      forall w, o | inv(w) && Others(env)(w, o) ensures inv(o.world) && Forwards(k, ty)(w, o) {
        OthersForward(k, ty, w, o.event);
      }
      AlwaysFrom(t, Happen(t, events), Others(env), inv);
      StepsUnder(t, Happen(t, events), Others(env), inv, Forwards(k, ty));
    case Manage(key, remote, plan) =>
      var s := t.(plan := plan);
      assert s.Now() == t.Now();
      if key == k {
        ReconcileForward(s, k, remote, ty);
      } else {
        ReconcileMinds(s, key, remote, env);
        var rule := Minds(key, env);
        forall w, o | inv(w) && rule(w, o) ensures inv(o.world) && Forwards(k, ty)(w, o) {
          if Others(env)(w, o) {
            OthersForward(k, ty, w, o.event);
          } else {
            assert SameManager(k, w, o.world);
          }
        }
        var u := Reconcile(s, key, remote).0;
        AlwaysFrom(s, u, rule, inv);
        StepsUnder(s, u, rule, inv, Forwards(k, ty));
      }
  }

  lemma AlwaysPrefix(s: Sys, t: Sys, u: Sys, inv: World -> bool)
    requires Grows(s, t) && Grows(t, u) && Always(s, u, inv)
    ensures Always(s, t, inv) && Always(t, u, inv)
  {
    forall i | |s.past| <= i <= |t.past| ensures inv(t.At(i)) {
      assert u.At(i) == t.At(i);
    }
  }

  lemma DoGrows(t: Sys, job: Job)
    ensures Grows(t, Do(t, job))
  {
    hide Reconcile;
    match job
    case Outside(events) => HappenSteps(t, events, AnyEvent);
    case Manage(key, remote, plan) =>
      assert PlanOf(plan, AnyEvent);
      ReconcileMinds(t.(plan := plan), key, remote, AnyEvent);
  }

  lemma {:induction false} RunGrows(s: Sys, jobs: seq<Job>)
    ensures Grows(s, Run(s, jobs))
  {
    hide Do;
    if jobs != [] {
      RunGrows(s, jobs[..|jobs| - 1]);
      DoGrows(Run(s, jobs[..|jobs| - 1]), jobs[|jobs| - 1]);
    }
  }

  /** Phase order, exactly: in every run, with every interleaving and every fault and with
      managers replaced at any time, k is sane at every moment - in particular no manager that
      is not being deleted says Deleting - if and only if no patch lands; and then no step moves
      its phase backward, readiness flipping back included. */
  lemma {:induction false} PhaseOrder(s: Sys, jobs: seq<Job>, k: Key, ty: string)
    requires Sane(k, ty, s.Now()) && forall job | job in jobs :: JobOf(job, Typed(k, ty))
    ensures Always(s, Run(s, jobs), IsSane(k, ty)) <==> NeverLands(s, jobs, k)
    ensures NeverLands(s, jobs, k) ==> Steps(s, Run(s, jobs), Forwards(k, ty))
  {
    hide Do, Sane, Lands;
    if jobs != [] {
      var init, job := jobs[..|jobs| - 1], jobs[|jobs| - 1];
      assert JobOf(job, Typed(k, ty)) && forall j | j in init :: j in jobs;
      PhaseOrder(s, init, k, ty);
      var t, u := Run(s, init), Run(s, jobs);
      RunGrows(s, init);
      DoGrows(t, job);
      if Always(s, u, IsSane(k, ty)) {
        AlwaysPrefix(s, t, u, IsSane(k, ty));
      }
      if NeverLands(s, init, k) {
        assert IsSane(k, ty)(t.At(|t.past|));
        DoForward(t, job, k, ty);
        if NeverLands(s, jobs, k) {
          StepsJoin(s, t, u, Forwards(k, ty));
          AlwaysJoin(s, t, u, IsSane(k, ty));
        }
      }
    } else {
      assert IsSane(k, ty)(s.At(|s.past|));
    }
  }

  /** If no plan of a reconcile of k adds k, no patch lands; then the phase order holds. */
  lemma UnreplacedRunsAreOrdered(s: Sys, jobs: seq<Job>, k: Key, ty: string)
    requires Sane(k, ty, s.Now()) && forall job | job in jobs :: JobOf(job, Typed(k, ty))
    requires forall job | job in jobs && job.Manage? && job.key == k :: PlanOf(job.plan, TypedInFlight(k, ty))
    ensures NeverLands(s, jobs, k)
    ensures Always(s, Run(s, jobs), IsSane(k, ty)) && Steps(s, Run(s, jobs), Forwards(k, ty))
  {
    hide Run, Lands, Sane, JobOf;
    UnreplacedRunNeverLands(s, jobs, k, ty);
    PhaseOrder(s, jobs, k, ty);
  }

  lemma {:induction false} UnreplacedRunNeverLands(s: Sys, jobs: seq<Job>, k: Key, ty: string)
    requires forall job | job in jobs && job.Manage? && job.key == k :: PlanOf(job.plan, TypedInFlight(k, ty))
    ensures NeverLands(s, jobs, k)
  {
    hide Run, Lands;
    if jobs != [] {
      var init, job := jobs[..|jobs| - 1], jobs[|jobs| - 1];
      assert job in jobs && forall j | j in init :: j in jobs;
      UnreplacedRunNeverLands(s, init, k, ty);
      if job.Manage? && job.key == k {
        UnreplacedNeverLands(Run(s, init).(plan := job.plan), k, job.remote, ty);
      }
    }
  }
}
