/** Which steps a reconcile of one manager can take, whatever the plan: every entry it adds to
    the log is an event of the others or one of a few kinds of steps of its own. */
module Traces {
  import opened Api
  import opened Naming
  import opened Store
  import opened Children
  import opened Observation
  import opened Reconciling

  // ---------------------------------------------------------------------------------------
  // What an event does to one manager

  /** The event is a write of k by the ClusterManager controller. */
  predicate Patched(k: Key, e: Event) {
    e.ManagerPatched? && e.key == k
  }

  /** The event may change the finalizers of k. */
  predicate Finalizes(k: Key, e: Event) {
    (e.ForeignFinalizer? || e.ManagerReleased? || e.ManagerPatched?) && e.key == k
  }

  ghost predicate Touched(k: Key, e: Event, x: Manager, y: Manager) {
    && (x.deleting ==> y.deleting) && (y.deleting ==> x.deleting || e == ManagerDeleted(k))
    && (y.labels == x.labels || (e.ManagerRelabelled? && e.key == k && y.labels == e.labels))
    && (y.finalizers == x.finalizers || Finalizes(k, e))
    && (Patched(k, e)
        || (&& y.status.phase == x.status.phase && y.status.ready == x.status.ready
            && (y.status.controlPlaneReady ==>
                  x.status.controlPlaneReady || e == StatusWritten(k, ControlPlaneReady(true)))
            && (FINALIZER in y.finalizers ==> FINALIZER in x.finalizers)
            && (FINALIZER in x.finalizers && e != ManagerReleased(k) ==> FINALIZER in y.finalizers)))
  }

  /** From w to w', the manager k is edited, is added, disappears, or is left alone. */
  ghost predicate Touches(k: Key, e: Event, w: World, w': World) {
    if k in w.managers then
      if k in w'.managers then Touched(k, e, w.managers[k], w'.managers[k])
      else (w.managers[k].deleting || e == ManagerDeleted(k))
           && (w.managers[k].finalizers == {} || Finalizes(k, e))
           && (FINALIZER in w.managers[k].finalizers ==> e == ManagerReleased(k) || Patched(k, e))
    else
      k in w'.managers ==>
        && e.ManagerAdded? && e.key == k
        && w'.managers[k] == Manager(e.labels, e.annotations, e.finalizers, false, e.spec, e.aws, NEW_STATUS)
  }

  lemma PutTouches(k: Key, e: Event, w: World, key: Key, m: Manager)
    requires key in w.managers && (key == k ==> Touched(k, e, w.managers[k], m))
    ensures Touches(k, e, w, PutManager(w, key, m))
  {
  }

  lemma EventTouches(k: Key, w: World, e: Event)
    ensures Touches(k, e, w, Apply(w, e))
  {
    hide PutManager;
    match e
    case ManagerDeleted(key) =>
      if key in w.managers { PutTouches(k, e, w, key, w.managers[key].(deleting := true)); }
    case ManagerEdited(key, spec, aws) =>
      if key in w.managers { PutTouches(k, e, w, key, w.managers[key].(spec := spec, aws := aws)); }
    case ManagerRelabelled(key, labels, annotations) =>
      if key in w.managers {
        PutTouches(k, e, w, key, w.managers[key].(labels := labels, annotations := annotations));
      }
    case ForeignFinalizer(key, name, present) =>
      if key in w.managers && name != FINALIZER {
        var m := w.managers[key];
        PutTouches(k, e, w, key, m.(finalizers := if present then m.finalizers + {name} else m.finalizers - {name}));
      }
    case StatusWritten(key, write) =>
      if key in w.managers {
        PutTouches(k, e, w, key, w.managers[key].(status := WriteStatus(w.managers[key].status, write)));
      }
    case ManagerReleased(key) =>
      if key in w.managers {
        PutTouches(k, e, w, key, w.managers[key].(finalizers := w.managers[key].finalizers - {FINALIZER}));
      }
    case ManagerPatched(key, finalizers, annotations, status) =>
      if key in w.managers {
        PutTouches(k, e, w, key,
                   w.managers[key].(finalizers := finalizers, annotations := annotations, status := status));
      }
    case _ =>
  }

  /** Only three kinds of events touch the children. */
  lemma EventChildren(w: World, e: Event)
    ensures Apply(w, e).children == w.children || e.ChildAdded? || e.ChildChanged? || e.ChildRemoved?
    ensures Apply(w, e).ours == w.ours || e.ChildRemoved?
    ensures forall ck | ck in Apply(w, e).children && ck !in w.children :: e.ChildAdded? && e.ck == ck
    ensures forall ck | ck in w.children && ck !in Apply(w, e).children :: e == ChildRemoved(ck)
    ensures Apply(w, e).ours <= w.ours && (w.ours <= w.children.Keys ==> Apply(w, e).ours <= Apply(w, e).children.Keys)
  {
    hide PutManager, PutClaim, ClusterGone;
    forall key, m ensures var w' := PutManager(w, key, m); w'.children == w.children && w'.ours == w.ours {
      PutKeepsChildren(w, key, m);
    }
    forall v: World, key, m ensures var w' := ClusterGone(v, key, m); w'.children == v.children && w'.ours == v.ours {
      GoneKeepsChildren(v, key, m);
    }
    forall key, c ensures var w' := PutClaim(w, key, c); w'.children == w.children && w'.ours == w.ours {
      PutClaimKeepsChildren(w, key, c);
    }
  }

  lemma PutKeepsChildren(w: World, key: Key, m: Manager)
    ensures var w' := PutManager(w, key, m); w'.children == w.children && w'.ours == w.ours
  {
  }

  lemma PutClaimKeepsChildren(w: World, key: Key, c: Claim)
    ensures var w' := PutClaim(w, key, c); w'.children == w.children && w'.ours == w.ours
  {
  }

  lemma GoneKeepsChildren(w: World, key: Key, m: Manager)
    ensures var w' := ClusterGone(w, key, m); w'.children == w.children && w'.ours == w.ours
  {
  }

  // ---------------------------------------------------------------------------------------
  // Logs and rules

  /** A rule says which entries may follow a world. */
  type Rule = (World, Moment) -> bool

  type Env = Event -> bool

  predicate AnyEvent(e: Event) {
    true
  }

  ghost predicate Grows(s: Sys, t: Sys) {
    s.start == t.start && s.past <= t.past
  }

  /** Everything logged between s and t follows the rule. */
  ghost predicate Steps(s: Sys, t: Sys, rule: Rule) {
    && Grows(s, t)
    && forall i | |s.past| <= i < |t.past| :: rule(t.At(i), t.past[i])
  }

  ghost predicate PlanOf(plan: seq<Tick>, env: Env) {
    forall i, j | 0 <= i < |plan| && 0 <= j < |plan[i].events| :: env(plan[i].events[j])
  }

  ghost function Others(env: Env): Rule {
    (w: World, m: Moment) => m.Happened? && env(m.event) && m.world == Apply(w, m.event)
  }

  ghost predicate Includes(rule: Rule, env: Env) {
    forall w, m :: Others(env)(w, m) ==> rule(w, m)
  }

  lemma StepsJoin(s: Sys, t: Sys, u: Sys, rule: Rule)
    requires Steps(s, t, rule) && Steps(t, u, rule)
    ensures Steps(s, u, rule)
  {
    forall i | |s.past| <= i < |u.past| ensures rule(u.At(i), u.past[i]) {
      if i < |t.past| {
        assert u.past[i] == t.past[i] && u.At(i) == t.At(i);
      }
    }
  }

  lemma StepsWeaken(s: Sys, t: Sys, rule: Rule, wider: Rule)
    requires Steps(s, t, rule) && forall w, m :: rule(w, m) ==> wider(w, m)
    ensures Steps(s, t, wider)
  {
  }

  lemma OneStep(s: Sys, m: Moment, rule: Rule)
    requires rule(s.Now(), m)
    ensures Steps(s, s.Log(m), rule) && s.Log(m).Now() == m.world
  {
    assert s.Log(m).At(|s.past|) == s.Now();
  }

  /** Induction over the log: what every permitted step keeps holds at every moment. */
  lemma {:induction false} Throughout(s: Sys, t: Sys, rule: Rule, inv: World -> bool, i: nat)
    requires Steps(s, t, rule) && inv(s.Now())
    requires forall w, m :: inv(w) && rule(w, m) ==> inv(m.world)
    requires |s.past| <= i <= |t.past|
    ensures inv(t.At(i))
  {
    if i == |s.past| {
      assert t.At(i) == s.Now();
    } else {
      Throughout(s, t, rule, inv, i - 1);
      assert rule(t.At(i - 1), t.past[i - 1]);
    }
  }

  lemma {:induction false} HappenSteps(s: Sys, events: seq<Event>, env: Env)
    requires forall i | 0 <= i < |events| :: env(events[i])
    ensures Steps(s, Happen(s, events), Others(env)) && Happen(s, events).plan == s.plan
    decreases |events|
  {
    if events != [] {
      var m := Happened(events[0], Apply(s.Now(), events[0]));
      OneStep(s, m, Others(env));
      HappenSteps(s.Log(m), events[1..], env);
      StepsJoin(s, s.Log(m), Happen(s, events), Others(env));
    }
  }

  lemma TurnSteps(s: Sys, env: Env)
    requires PlanOf(s.plan, env)
    ensures Steps(s, Turn(s), Others(env)) && PlanOf(Turn(s).plan, env)
  {
    var s1 := s.(plan := if s.plan == [] then [] else s.plan[1..]);
    HappenSteps(s1, s.Next().events, env);
    assert s1.past == s.past && s1.start == s.start;
    forall i, j | 0 <= i < |s1.plan| && 0 <= j < |s1.plan[i].events| ensures env(s1.plan[i].events[j]) {
      assert s1.plan[i] == s.plan[i + 1];
    }
  }

  /** A request is a turn of the others followed by one entry of its own. */
  lemma RequestSteps(s: Sys, m: Moment, env: Env, rule: Rule)
    requires PlanOf(s.plan, env) && Includes(rule, env) && rule(Turn(s).Now(), m)
    ensures Steps(s, Turn(s).Log(m), rule) && PlanOf(Turn(s).Log(m).plan, env)
    ensures Turn(s).Log(m).Now() == m.world
  {
    TurnSteps(s, env);
    StepsWeaken(s, Turn(s), Others(env), rule);
    OneStep(Turn(s), m, rule);
    StepsJoin(s, Turn(s), Turn(s).Log(m), rule);
  }

  /** Every remaining request will be served, and the others keep to env. */
  ghost predicate Calm(s: Sys, env: Env) {
    PlanOf(s.plan, env) && forall i | 0 <= i < |s.plan| :: s.plan[i].outcome == Served
  }

  lemma CalmTurn(s: Sys, env: Env, m: Moment)
    requires Calm(s, env)
    ensures s.Next().outcome == Served && Calm(Turn(s).Log(m), env)
  {
    TurnSteps(s, env);
    HappenSteps(s.(plan := if s.plan == [] then [] else s.plan[1..]), s.Next().events, AnyEvent);
  }

  ghost predicate IsRead(w: World, m: Moment) {
    m.Called? && (m.call.ReadManager? || m.call.ReadChild? || m.call.ReadClaim?) && m.world == w
  }

  /** A control plane or machine deployment with the manager's size or version pushed into it. */
  ghost predicate Resized(m0: Manager, c: Child, c': Child) {
    match (c, c')
    case (ControlPlane(_, _, r, v, _), ControlPlane(_, _, r', v', _)) =>
      && c' == c.(replicas := r', version := v')
      && (r' == r || r' == Some(Int32(m0.spec.masterNum))) && (v' == v || v' == m0.spec.version)
    case (MachineDeployment(_, _, _, r, v, _), MachineDeployment(_, _, _, r', v', _)) =>
      && c' == c.(workers := r', templateVersion := v')
      && (r' == r || r' == Some(Int32(m0.spec.workerNum))) && (v' == v || v' == Some(m0.spec.version))
    case _ => false
  }

  /** Building: reads, creation of own children from their templates, and resizing. */
  ghost predicate BuildStep(k: Key, m0: Manager, w: World, m: Moment) {
    || IsRead(w, m)
    || (&& m.Called? && m.call.CreateChild?
        && var ck := m.call.ck;
           && IsChildOf(ck, k) && m.call.child == Template(ck, k, m0)
           && (m.world == w
               || (ck !in w.children
                   && m.world == AddChild(w, ck, m.call.child).(ours := w.ours + {ck}))))
    || (&& m.Called? && m.call.PatchChild?
        && var ck := m.call.ck;
           && IsChildOf(ck, k)
           && (m.world == w
               || (ck in w.children && Resized(m0, w.children[ck], m.call.child)
                   && m.world == AddChild(w, ck, m.call.child))))
  }

  ghost function Builds(k: Key, m0: Manager, env: Env): Rule {
    (w: World, m: Moment) => Others(env)(w, m) || BuildStep(k, m0, w, m)
  }

  /** Tearing down: reads and the deletion of the manager's own Cluster. */
  ghost predicate TearStep(k: Key, w: World, m: Moment) {
    || IsRead(w, m)
    || (&& m.Called? && m.call == DeleteChild(ClusterKey(k))
        && (m.world == w || (ClusterKey(k) in w.children && m.world == MarkDeleting(w, ClusterKey(k)))))
  }

  ghost function Tears(k: Key, env: Env): Rule {
    (w: World, m: Moment) => Others(env)(w, m) || TearStep(k, w, m)
  }

  /** The deferred patch writes what the body changed, onto whatever is stored by then. */
  ghost predicate PatchStep(k: Key, before: Manager, after: Manager, w: World, m: Moment) {
    && m.Called? && (m.call == PatchManager(k) || m.call == PatchStatus(k))
    && (m.world == w
        || (&& m.call == PatchManager(k) && k in w.managers
            && var m' := MergeMain(before, after, w.managers[k]);
               && (w.managers[k].deleting ==> m'.finalizers <= w.managers[k].finalizers)
               && m.world == PutManager(w, k, m'))
        || (&& m.call == PatchStatus(k) && k in w.managers
            && var m' := w.managers[k].(status := MergeStatus(before.status, after.status, w.managers[k].status));
               m.world == PutManager(w, k, m')))
  }

  ghost function Patches(k: Key, before: Manager, after: Manager, env: Env): Rule {
    (w: World, m: Moment) => Others(env)(w, m) || PatchStep(k, before, after, w, m)
  }

  lemma StepKeepsManagers(k: Key, m0: Manager, w: World, e: Moment)
    requires BuildStep(k, m0, w, e) || TearStep(k, w, e)
    ensures e.world.managers == w.managers
  {
    hide IsChildOf, Template, Resized;
  }

  lemma GetChildSteps(s: Sys, ck: ChildKey, env: Env, rule: Rule)
    requires PlanOf(s.plan, env) && Includes(rule, env)
    requires forall w, m :: IsRead(w, m) ==> rule(w, m)
    ensures var (t, r) := GetChild(s, ck);
            && Steps(s, t, rule) && PlanOf(t.plan, env)
            && (r.Found? ==> ck in t.Now().children && t.Now().children[ck] == r.value)
            && (r.NotFound? ==> ck !in t.Now().children)
  {
    var t, r := Turn(s), GetChild(s, ck).1;
    var m := Called(ReadChild(ck), r.Found?, t.Now());
    assert IsRead(t.Now(), m);
    RequestSteps(s, m, env, rule);
  }

  lemma CreateSteps(s: Sys, k: Key, m0: Manager, ck: ChildKey, child: Child, env: Env)
    requires PlanOf(s.plan, env) && IsChildOf(ck, k) && child == Template(ck, k, m0)
    ensures var (t, _) := Create(s, ck, child);
            Steps(s, t, Builds(k, m0, env)) && PlanOf(t.plan, env)
  {
    var w := Turn(s).Now();
    var (t, ok) := Create(s, ck, child);
    var m := t.past[|t.past| - 1];
    assert t == Turn(s).Log(m);
    assert BuildStep(k, m0, w, m);
    RequestSteps(s, m, env, Builds(k, m0, env));
  }

  lemma PatchChildSteps(s: Sys, k: Key, m0: Manager, ck: ChildKey, before: Child, after: Child, env: Env)
    requires PlanOf(s.plan, env) && IsChildOf(ck, k) && Resized(m0, before, after) && before.Kind() == ck.kind
    ensures var (t, _) := PatchChildObject(s, ck, before, after);
            Steps(s, t, Builds(k, m0, env)) && PlanOf(t.plan, env)
  {
    if before != after {
      var w := Turn(s).Now();
      var (t, ok) := PatchChildObject(s, ck, before, after);
      var m := t.past[|t.past| - 1];
      assert t == Turn(s).Log(m);
      if ck in w.children {
        assert w.children[ck].Kind() == ck.kind;
        assert Resized(m0, w.children[ck], MergeChild(before, after, w.children[ck]));
      }
      assert BuildStep(k, m0, w, m);
      RequestSteps(s, m, env, Builds(k, m0, env));
    }
  }

  lemma {:induction false} WalkSteps(s: Sys, k: Key, m: Manager, links: seq<Link>, env: Env)
    requires PlanOf(s.plan, env)
    requires forall l | l in links :: IsChildOf(l.Ck(), k) && l.child == Template(l.Ck(), k, m)
    ensures var (t, _) := Walk(s, links);
            Steps(s, t, Builds(k, m, env)) && PlanOf(t.plan, env)
    decreases |links|
  {
    hide GetChild, Create, Builds;
    if links != [] {
      WalkProceeds(s, links, 0);
      assert links[0..] == links;
      var rule := Builds(k, m, env);
      BuildsIncludes(k, m, env);
      GetChildSteps(s, links[0].Ck(), env, rule);
      var (t, r) := GetChild(s, links[0].Ck());
      if r.NotFound? {
        CreateSteps(t, k, m, links[0].Ck(), links[0].child, env);
      } else if r.Found? || !links[0].stopOnError {
        WalkSteps(t, k, m, links[1..], env);
      }
      if r.NotFound? {
        StepsJoin(s, t, Create(t, links[0].Ck(), links[0].child).0, rule);
      } else if r.Found? || !links[0].stopOnError {
        StepsJoin(s, t, Walk(t, links[1..]).0, rule);
      }
    }
  }

  lemma BuildsIncludes(k: Key, m: Manager, env: Env)
    ensures Includes(Builds(k, m, env), env)
    ensures forall w, o :: IsRead(w, o) ==> Builds(k, m, env)(w, o)
  {
  }

  /** Same desired size, version and AWS settings. */
  ghost predicate SameDesire(m: Manager, m0: Manager) {
    m.spec == m0.spec && m.aws == m0.aws
  }

  lemma SameTemplates(k: Key, m: Manager, m0: Manager)
    requires SameDesire(m, m0)
    ensures ControlPlaneLinks(k, m) == ControlPlaneLinks(k, m0) && WorkerLinks(k, m) == WorkerLinks(k, m0)
  {
  }

  lemma PhaseSteps(p: Phase, s: Sys, k: Key, m: Manager, m0: Manager, remote: Remote, env: Env)
    requires PlanOf(s.plan, env) && SameDesire(m, m0)
    ensures var o := RunPhase(p, s, k, m, remote);
            && Steps(s, o.sys, Builds(k, m0, env)) && PlanOf(o.sys.plan, env)
            && (p != UpdateStatus ==> SameDesire(o.clm, m0))
  {
    hide GetChild, PatchChildObject, Walk, Observe, Builds;
    var rule := Builds(k, m0, env);
    BuildsIncludes(k, m0, env);
    SameTemplates(k, m, m0);
    LinksAreChildren(k, m0);
    match p {
      case CreateCluster =>
        forall l | l in ControlPlaneLinks(k, m0) ensures IsChildOf(l.Ck(), k) && l.child == Template(l.Ck(), k, m0) {
          LinkIsTemplate(k, m0, l);
        }
        WalkSteps(s, k, m0, ControlPlaneLinks(k, m0), env);
      case CreateMachineDeployment =>
        forall l | l in WorkerLinks(k, m0) ensures IsChildOf(l.Ck(), k) && l.child == Template(l.Ck(), k, m0) {
          LinkIsTemplate(k, m0, l);
        }
        WalkSteps(s, k, m0, WorkerLinks(k, m0), env);
      case SetEndpoint =>
        GetChildSteps(s, ClusterKey(k), env, rule);
      case ControlPlaneUpdate =>
        GetChildSteps(s, ControlPlaneKey(k), env, rule);
        var (t, r) := GetChild(s, ControlPlaneKey(k));
        if r.Found? && r.value.replicas.Some? {
          var c := r.value;
          var c' := c.(replicas := Some(Int32(m.spec.masterNum)), version := m.spec.version);
          assert Resized(m0, c, c');
          PatchChildSteps(t, k, m0, ControlPlaneKey(k), c, c', env);
          StepsJoin(s, t, PatchChildObject(t, ControlPlaneKey(k), c, c').0, rule);
        }
      case MachineDeploymentUpdate =>
        GetChildSteps(s, DeploymentKey(k), env, rule);
        var (t, r) := GetChild(s, DeploymentKey(k));
        if r.Found? && r.value.workers.Some? {
          var c := r.value;
          var c1 := c.(workers := Some(Int32(m.spec.workerNum)));
          var c2 := if c.templateVersion.None? then c1 else c1.(templateVersion := Some(m.spec.version));
          assert Resized(m0, c, c2);
          PatchChildSteps(t, k, m0, DeploymentKey(k), c, c2, env);
          StepsJoin(s, t, PatchChildObject(t, DeploymentKey(k), c, c2).0, rule);
        }
      case NoPhase =>
      case UpdateStatus =>
    }
  }

  /** The status phase, if it is there, comes last. */
  ghost predicate StatusLast(phases: seq<Phase>) {
    forall i | 0 <= i < |phases| - 1 :: phases[i] != UpdateStatus
  }

  lemma {:induction false} PhasesSteps(phases: seq<Phase>, s: Sys, k: Key, m: Manager, m0: Manager, remote: Remote,
                                       res: Result, failed: bool, env: Env)
    requires PlanOf(s.plan, env) && StatusLast(phases) && (phases != [] ==> SameDesire(m, m0))
    ensures var o := RunPhases(phases, s, k, m, remote, res, failed);
            Steps(s, o.sys, Builds(k, m0, env)) && PlanOf(o.sys.plan, env)
    decreases |phases|
  {
    hide RunPhase, Builds;
    if phases != [] {
      var o := RunPhase(phases[0], s, k, m, remote);
      PhaseSteps(phases[0], s, k, m, m0, remote, env);
      if o.answer.Returned? {
        var failed' := failed || o.answer.failed;
        var res' := if failed' then res else o.answer.result;
        PhasesSteps(phases[1..], o.sys, k, o.clm, m0, remote, res', failed', env);
        StepsJoin(s, o.sys, RunPhases(phases[1..], o.sys, k, o.clm, remote, res', failed').sys, Builds(k, m0, env));
      }
    }
  }

  lemma TearDownSteps(s: Sys, k: Key, m: Manager, env: Env)
    requires PlanOf(s.plan, env)
    ensures var o := TearDown(s, k, m);
            Steps(s, o.sys, Tears(k, env)) && PlanOf(o.sys.plan, env)
  {
    hide GetChild;
    var rule := Tears(k, env);
    GetChildSteps(s, ClusterKey(k), env, rule);
    var (t, r) := GetChild(s, ClusterKey(k));
    if r.Found? {
      var w := Turn(t).Now();
      var (u, ok) := Delete(t, ClusterKey(k));
      var m := u.past[|u.past| - 1];
      assert u == Turn(t).Log(m);
      assert TearStep(k, w, m);
      RequestSteps(t, m, env, rule);
      StepsJoin(s, t, u, rule);
    }
  }

  /** The body of a reconcile that builds, which is every body that does not tear down. */
  lemma BodyBuilds(s: Sys, k: Key, m: Manager, remote: Remote, env: Env)
    requires PlanOf(s.plan, env) && !(FINALIZER in m.finalizers && TearsDown(m))
    ensures var o := Body(s, k, m, remote);
            Steps(s, o.sys, Builds(k, m, env)) && PlanOf(o.sys.plan, env)
  {
    if FINALIZER in m.finalizers {
      PhasesSteps(PhasesOf(m), s, k, m, m, remote, ZERO, false, env);
    }
  }

  lemma SendMainSteps(s: Sys, k: Key, before: Manager, after: Manager, env: Env)
    requires PlanOf(s.plan, env)
    ensures var (t, _) := SendMain(s, k, before, after);
            Steps(s, t, Patches(k, before, after, env)) && PlanOf(t.plan, env)
  {
    if !SameMain(before, after) {
      var (t, ok) := SendMain(s, k, before, after);
      var m := t.past[|t.past| - 1];
      assert t == Turn(s).Log(m);
      assert PatchStep(k, before, after, Turn(s).Now(), m);
      RequestSteps(s, m, env, Patches(k, before, after, env));
    }
  }

  lemma SendStatusSteps(s: Sys, k: Key, before: Manager, after: Manager, env: Env)
    requires PlanOf(s.plan, env)
    ensures var (t, _) := SendStatus(s, k, before, after);
            Steps(s, t, Patches(k, before, after, env)) && PlanOf(t.plan, env)
  {
    if before.status != after.status {
      var (t, ok) := SendStatus(s, k, before, after);
      var m := t.past[|t.past| - 1];
      assert t == Turn(s).Log(m);
      assert PatchStep(k, before, after, Turn(s).Now(), m);
      RequestSteps(s, m, env, Patches(k, before, after, env));
    }
  }

  lemma PatchSteps(s: Sys, k: Key, before: Manager, after: Manager, env: Env)
    requires PlanOf(s.plan, env)
    ensures var (t, _) := PatchObject(s, k, before, after);
            Steps(s, t, Patches(k, before, after, env)) && PlanOf(t.plan, env)
  {
    hide SendMain, SendStatus, Patches;
    var t := SendMain(s, k, before, after).0;
    SendMainSteps(s, k, before, after, env);
    SendStatusSteps(t, k, before, after, env);
    StepsJoin(s, t, SendStatus(t, k, before, after).0, Patches(k, before, after, env));
  }

  lemma GetManagerSteps(s: Sys, k: Key, env: Env, rule: Rule)
    requires PlanOf(s.plan, env) && Includes(rule, env)
    requires forall w, m :: IsRead(w, m) ==> rule(w, m)
    ensures var (t, r) := GetManager(s, k);
            && Steps(s, t, rule) && PlanOf(t.plan, env)
            && (r.Found? ==> k in t.Now().managers && t.Now().managers[k] == r.value)
            && (r.NotFound? ==> k !in t.Now().managers)
  {
    var t, r := Turn(s), GetManager(s, k).1;
    var m := Called(ReadManager(k), r.Found?, t.Now());
    assert IsRead(t.Now(), m);
    RequestSteps(s, m, env, rule);
  }
}
