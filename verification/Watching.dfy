/** The watch handlers: they find the manager by un-mapping a child's name and write one status
    field, while a reconcile may be in flight. */
module Watching {
  import opened Api
  import opened Text
  import opened Naming
  import opened Store
  import opened Observation
  import opened Reconciling
  import opened Traces
  import opened Safety
  import opened Wiring

  /** Read the manager, change one status field, patch the difference. */
  function Relay(s: Sys, key: Key, write: StatusWrite): Sys {
    var (t, r) := GetManager(s, key);
    if r.Found? then PatchObject(t, key, r.value, r.value.(status := WriteStatus(r.value.status, write))).0 else t
  }

  function OnCluster(s: Sys, cluster: Key, initialized: bool): Sys {
    Relay(s, cluster, ControlPlaneReady(initialized))
  }

  function OnControlPlane(s: Sys, kcp: Key, deleting: bool, replicas: int): Sys {
    if deleting then s else Relay(s, Key(kcp.namespace, Unmap(kcp.name, CONTROL_PLANE)), MasterRun(replicas))
  }

  function OnMachineDeployment(s: Sys, md: Key, deleting: bool, replicas: int): Sys {
    if deleting then s else Relay(s, Key(md.namespace, Unmap(md.name, WORKERS)), WorkerRun(replicas))
  }

  /** The handlers reach the manager whose child they were called for exactly if its name does
      not contain the suffix; otherwise they go to the manager, if any, whose name is the part
      of it before the suffix. */
  lemma HandlersReach(k: Key)
    ensures Unmap(Suffix(k, CONTROL_PLANE).name, CONTROL_PLANE) == k.name <==> !Contains(k.name, CONTROL_PLANE)
    ensures Unmap(Suffix(k, WORKERS).name, WORKERS) == k.name <==> !Contains(k.name, WORKERS)
    ensures Contains(k.name, CONTROL_PLANE) ==>
              |Unmap(Suffix(k, CONTROL_PLANE).name, CONTROL_PLANE)| < |k.name|
    ensures Contains(k.name, WORKERS) ==> |Unmap(Suffix(k, WORKERS).name, WORKERS)| < |k.name|
  {
    hide Contains, Unmap;
    ControlPlaneBorderless();
    WorkersBorderless();
    UnmapExact(k.name, CONTROL_PLANE);
    UnmapExact(k.name, WORKERS);
  }

  /** The API server keeps no object that is deleted and has no finalizer. */
  ghost predicate NoGhosts(w: World) {
    forall k | k in w.managers :: !(w.managers[k].deleting && w.managers[k].finalizers == {})
  }

  /** Left alone, a handler does what the event "status written" does. */
  lemma RelayIsWrite(s: Sys, key: Key, write: StatusWrite)
    requires s.plan == [] && NoGhosts(s.Now())
    ensures var t := Relay(s, key, write);
            && t.plan == [] && t.Now() == Apply(s.Now(), StatusWritten(key, write)) && NoGhosts(t.Now())
  {
    hide MergeStatus;
    var (t, r) := GetManager(s, key);
    assert t.plan == [] && t.Now() == s.Now();
    if r.Found? {
      var m := r.value;
      var a := m.(status := WriteStatus(m.status, write));
      assert MergeStatus(m.status, a.status, m.status) == a.status by { MergeOntoSnapshot(m.status, a.status); }
      if m.status == a.status {
        assert s.Now().managers == s.Now().managers[key := a];
      }
    }
  }

  /** Every request between s and t leaves the store alone or writes this one status field. */
  ghost predicate OnlyWrites(s: Sys, t: Sys, key: Key, write: StatusWrite) {
    && Grows(s, t)
    && forall i | |s.past| <= i < |t.past| && t.past[i].Called? ::
         t.past[i].world == t.At(i) || t.past[i].world == Apply(t.At(i), StatusWritten(key, write))
  }

  ghost function Writes(key: Key, write: StatusWrite): Rule {
    (w: World, m: Moment) => m.Called? ==> m.world == w || m.world == Apply(w, StatusWritten(key, write))
  }

  /** Whatever happens while a handler runs, and whatever fails, its own requests write nothing
      or write its field in one step, onto whatever is stored at that moment. */
  lemma RelayIsAtomic(s: Sys, key: Key, write: StatusWrite)
    ensures OnlyWrites(s, Relay(s, key, write), key, write)
  {
    hide GetManager, PatchObject, Apply;
    var rule := Writes(key, write);
    AnyPlan(s);
    var (t, r) := GetManager(s, key);
    GetManagerSteps(s, key, AnyEvent, Reads(AnyEvent));
    forall w, m | Reads(AnyEvent)(w, m) ensures rule(w, m) {
      if !Others(AnyEvent)(w, m) {
        assert IsRead(w, m);
      }
    }
    StepsWeaken(s, t, Reads(AnyEvent), rule);
    var u := Relay(s, key, write);
    if r.Found? {
      var a := r.value.(status := WriteStatus(r.value.status, write));
      AnyPlan(t);
      PatchSteps(t, key, r.value, a, AnyEvent);
      PatchWrites(t, key, r.value, write);
      StepsJoin(s, t, u, rule);
    }
    forall i | |s.past| <= i < |u.past| && u.past[i].Called?
      ensures u.past[i].world == u.At(i) || u.past[i].world == Apply(u.At(i), StatusWritten(key, write))
    {
      assert rule(u.At(i), u.past[i]);
    }
  }

  /** The patch sends the status request or nothing. */
  lemma PatchWrites(t: Sys, key: Key, m: Manager, write: StatusWrite)
    ensures var a := m.(status := WriteStatus(m.status, write));
            Steps(t, PatchObject(t, key, m, a).0, Writes(key, write))
  {
    hide Apply, WriteStatus, SendStatus;
    var a, rule := m.(status := WriteStatus(m.status, write)), Writes(key, write);
    if m.status != a.status {
      var v := Turn(t);
      AnyPlan(t);
      TurnSteps(t, AnyEvent);
      forall w, o | Others(AnyEvent)(w, o) ensures rule(w, o) {
      }
      StepsWeaken(t, v, Others(AnyEvent), rule);
      var u := SendStatus(t, key, m, a).0;
      StatusEntry(t, key, m, write);
      var o := u.past[|u.past| - 1];
      OneStep(v, o, rule);
      StepsJoin(t, v, u, rule);
    } else {
      NothingSent(t, key, m, a);
    }
  }

  lemma NothingSent(t: Sys, key: Key, m: Manager, a: Manager)
    requires SameMain(m, a) && m.status == a.status
    ensures PatchObject(t, key, m, a).0 == t
  {
  }

  lemma StatusEntry(t: Sys, key: Key, m: Manager, write: StatusWrite)
    requires m.status != WriteStatus(m.status, write)
    ensures var v, u := Turn(t), SendStatus(t, key, m, m.(status := WriteStatus(m.status, write))).0;
            && u.past != []
            && var o := u.past[|u.past| - 1];
               && u == v.Log(o) && o.Called?
               && (o.world == v.Now() || o.world == Apply(v.Now(), StatusWritten(key, write)))
  {
    hide Turn, Apply;
    var v := Turn(t);
    if key in v.Now().managers {
      MergedWrite(v.Now(), key, m.status, write);
    }
  }

  /** Merging a one-field change onto a status is writing the field. */
  lemma MergedWrite(w: World, key: Key, before: Status, write: StatusWrite)
    requires key in w.managers && before != WriteStatus(before, write)
    ensures var x := w.managers[key];
            PutManager(w, key, x.(status := MergeStatus(before, WriteStatus(before, write), x.status)))
            == Apply(w, StatusWritten(key, write))
  {
    var x := w.managers[key];
    assert MergeStatus(before, WriteStatus(before, write), x.status) == WriteStatus(x.status, write);
  }

  /** The same for the three handlers, called for k or a child of k: whatever interleaves, they
      write their own field of k in one step or nothing, and deleting children are ignored. */
  lemma HandlersAreAtomic(s: Sys, k: Key, deleting: bool, n: int, initialized: bool)
    ensures OnlyWrites(s, OnCluster(s, k, initialized), k, ControlPlaneReady(initialized))
    ensures !Contains(k.name, CONTROL_PLANE) ==>
              var t := OnControlPlane(s, Suffix(k, CONTROL_PLANE), deleting, n);
              OnlyWrites(s, t, k, MasterRun(n)) && (deleting ==> t == s)
    ensures !Contains(k.name, WORKERS) ==>
              var t := OnMachineDeployment(s, Suffix(k, WORKERS), deleting, n);
              OnlyWrites(s, t, k, WorkerRun(n)) && (deleting ==> t == s)
  {
    hide Unmap, Contains, Relay, Apply;
    HandlersReach(k);
    RelayIsAtomic(s, k, ControlPlaneReady(initialized));
    RelayIsAtomic(s, k, MasterRun(n));
    RelayIsAtomic(s, k, WorkerRun(n));
  }

  /** A report about a child of k reaches exactly the status field it is about, unless the child
      is being deleted; of the names, only those that contain the suffix go astray. */
  lemma HandlersReport(s: Sys, k: Key, deleting: bool, n: int, initialized: bool)
    requires s.plan == [] && NoGhosts(s.Now()) && k in s.Now().managers
    ensures var w := OnCluster(s, k, initialized).Now();
            w == WithStatus(s.Now(), k, s.Now().managers[k].status.(controlPlaneReady := initialized))
    ensures !Contains(k.name, CONTROL_PLANE) ==>
              var w := OnControlPlane(s, Suffix(k, CONTROL_PLANE), deleting, n).Now();
              w == if deleting then s.Now()
                   else WithStatus(s.Now(), k, s.Now().managers[k].status.(masterRun := n))
    ensures !Contains(k.name, WORKERS) ==>
              var w := OnMachineDeployment(s, Suffix(k, WORKERS), deleting, n).Now();
              w == if deleting then s.Now()
                   else WithStatus(s.Now(), k, s.Now().managers[k].status.(workerRun := n))
  {
    hide Unmap, Contains, Relay;
    HandlersReach(k);
    RelayIsWrite(s, k, ControlPlaneReady(initialized));
    RelayIsWrite(s, k, MasterRun(n));
    RelayIsWrite(s, k, WorkerRun(n));
  }

  /** The store with another status of k, and nothing else changed. */
  function WithStatus(w: World, k: Key, status: Status): World
    requires k in w.managers
  {
    w.(managers := w.managers[k := w.managers[k].(status := status)])
  }

  /** The two handlers commute, for any two children and any counts. */
  lemma HandlersCommute(s: Sys, kcp: Key, d1: bool, n1: int, md: Key, d2: bool, n2: int)
    requires s.plan == [] && NoGhosts(s.Now())
    ensures OnMachineDeployment(OnControlPlane(s, kcp, d1, n1), md, d2, n2).Now()
         == OnControlPlane(OnMachineDeployment(s, md, d2, n2), kcp, d1, n1).Now()
  {
    hide Unmap, Relay;
    var a, b := Key(kcp.namespace, Unmap(kcp.name, CONTROL_PLANE)), Key(md.namespace, Unmap(md.name, WORKERS));
    RelayIsWrite(s, a, MasterRun(n1));
    RelayIsWrite(s, b, WorkerRun(n2));
    RelayIsWrite(Relay(s, a, MasterRun(n1)), b, WorkerRun(n2));
    RelayIsWrite(Relay(s, b, WorkerRun(n2)), a, MasterRun(n1));
    WritesCommute(s.Now(), a, n1, b, n2);
  }

  /** Two such writes commute wherever they meet. */
  lemma WritesCommute(w: World, a: Key, n1: int, b: Key, n2: int)
    requires NoGhosts(w)
    ensures Apply(Apply(w, StatusWritten(a, MasterRun(n1))), StatusWritten(b, WorkerRun(n2)))
         == Apply(Apply(w, StatusWritten(b, WorkerRun(n2))), StatusWritten(a, MasterRun(n1)))
  {
    if a in w.managers && b in w.managers && a != b {
      var x := w.managers[a].(status := w.managers[a].status.(masterRun := n1));
      var y := w.managers[b].(status := w.managers[b].status.(workerRun := n2));
      assert w.managers[a := x][b := y] == w.managers[b := y][a := x];
    } else if a in w.managers && a == b {
      var m := w.managers[a];
      var x, y := m.(status := m.status.(masterRun := n1)), m.(status := m.status.(workerRun := n2));
      var z := m.(status := m.status.(masterRun := n1, workerRun := n2));
      assert w.managers[a := x][a := z] == w.managers[a := y][a := z];
    }
  }

  /** One handler's write falling before the other's read, or between its read and its patch,
      makes no difference to the outcome. If the field has its value already, no patch is sent. */
  lemma HandlersInterleave(s: Sys, a: Key, n1: int, b: Key, n2: int, late: bool)
    requires NoGhosts(s.Now())
    requires var tick := Tick([StatusWritten(b, WorkerRun(n2))], Served);
             s.plan == if late then [QUIET, tick] else [tick]
    requires late ==> a in s.Now().managers && s.Now().managers[a].status.masterRun != n1
    ensures Relay(s, a, MasterRun(n1)).Now()
         == Apply(Apply(s.Now(), StatusWritten(a, MasterRun(n1))), StatusWritten(b, WorkerRun(n2)))
  {
    var w, e := s.Now(), StatusWritten(b, WorkerRun(n2));
    WritesCommute(w, a, n1, b, n2);
    if late {
      LateWrite(s, a, n1, e);
    } else {
      EarlyWrite(s, a, n1, e);
    }
  }

  lemma EarlyWrite(s: Sys, a: Key, n: int, e: Event)
    requires s.plan == [Tick([e], Served)] && NoGhosts(s.Now()) && e.StatusWritten?
    ensures Relay(s, a, MasterRun(n)).Now() == Apply(Apply(s.Now(), e), StatusWritten(a, MasterRun(n)))
  {
    hide PatchObject, Apply;
    var s0 := s.(plan := []);
    var s1 := s0.Log(Happened(e, Apply(s.Now(), e)));
    assert s.plan[1..] == [] && [e][1..] == [] && s0.Now() == s.Now();
    assert Turn(s) == Happen(s0, [e]) == Happen(s1, []) == s1;
    QuietTurn(s1);
    assert GetManager(s, a) == GetManager(s1, a);
    assert NoGhosts(s1.Now()) by { WriteKeepsGhostsAway(s.Now(), e); }
    RelayIsWrite(s1, a, MasterRun(n));
    assert Relay(s, a, MasterRun(n)) == Relay(s1, a, MasterRun(n));
  }

  lemma WriteKeepsGhostsAway(w: World, e: Event)
    requires NoGhosts(w) && e.StatusWritten?
    ensures NoGhosts(Apply(w, e))
  {
  }

  lemma LateWrite(s: Sys, a: Key, n: int, e: Event)
    requires s.plan == [QUIET, Tick([e], Served)] && NoGhosts(s.Now()) && e.StatusWritten? && e.write.WorkerRun?
    requires a in s.Now().managers && s.Now().managers[a].status.masterRun != n
    ensures Relay(s, a, MasterRun(n)).Now() == Apply(Apply(s.Now(), e), StatusWritten(a, MasterRun(n)))
  {
    hide Apply;
    var w, m := s.Now(), s.Now().managers[a];
    var s0 := s.(plan := s.plan[1..]);
    assert s.plan[1..] == [Tick([e], Served)] && Turn(s) == s0 && s0.Now() == w;
    var (t, r) := GetManager(s, a);
    assert r == Found(m) && t.Now() == w && t.plan == [Tick([e], Served)];
    var c := m.(status := m.status.(masterRun := n));
    var t0 := t.(plan := []);
    var v := t0.Log(Happened(e, Apply(w, e)));
    assert t.plan[1..] == [] && [e][1..] == [] && t0.Now() == w;
    assert Turn(t) == Happen(t0, [e]) == Happen(v, []) == v;
    assert SameMain(m, c) && m.status != c.status;
    var u := SendStatus(t, a, m, c).0;
    assert a in v.Now().managers by { StaysThere(w, e, a); }
    var y := v.Now().managers[a];
    assert MergeStatus(m.status, c.status, y.status) == y.status.(masterRun := n);
    assert u.Now() == PutManager(v.Now(), a, y.(status := y.status.(masterRun := n)));
    WriteIsPut(v.Now(), a, n);
  }

  lemma StaysThere(w: World, e: Event, a: Key)
    requires NoGhosts(w) && e.StatusWritten? && a in w.managers
    ensures a in Apply(w, e).managers
  {
  }

  lemma WriteIsPut(w: World, a: Key, n: int)
    requires a in w.managers
    ensures Apply(w, StatusWritten(a, MasterRun(n)))
         == PutManager(w, a, w.managers[a].(status := w.managers[a].status.(masterRun := n)))
  {
  }

  // ---------------------------------------------------------------------------------------
  // Writes made while a reconcile is in flight

  /** A field keeps what was written to it unless the reconcile changed that very field, in which
      case it gets the reconcile's value. */
  ghost predicate Spared<T>(snapshot: T, computed: T, before: T, after: T) {
    && (computed == snapshot ==> after == before)
    && (after == before || after == computed)
  }

  /** What the reconcile's own requests do to the fields that the handlers write. */
  ghost predicate SpareStep(k: Key, m: Status, c: Status, w: World, e: Moment) {
    e.Called? && k in w.managers && k in e.world.managers ==>
      SparedStatus(m, c, w.managers[k].status, e.world.managers[k].status)
  }

  ghost predicate SparedStatus(m: Status, c: Status, x: Status, y: Status) {
    && Spared(m.masterRun, c.masterRun, x.masterRun, y.masterRun)
    && Spared(m.workerRun, c.workerRun, x.workerRun, y.workerRun)
    && Spared(m.controlPlaneReady, c.controlPlaneReady, x.controlPlaneReady, y.controlPlaneReady)
  }

  ghost function Spares(k: Key, m: Status, c: Status): Rule {
    (w: World, e: Moment) => SpareStep(k, m, c, w, e)
  }

  lemma PatchSpares(k: Key, before: Manager, after: Manager, w: World, e: Moment)
    requires PatchStep(k, before, after, w, e)
    ensures SpareStep(k, before.status, after.status, w, e)
  {
    hide MergeMap, MergeSpec;
  }

  lemma SameManagersSpare(s: Sys, t: Sys, k: Key, m: Status, c: Status, rule: Rule)
    requires Steps(s, t, rule)
    requires forall w, e :: rule(w, e) && e.Called? ==> e.world.managers == w.managers
    ensures Steps(s, t, Spares(k, m, c))
  {
    forall w, e | rule(w, e) ensures Spares(k, m, c)(w, e) {
      assert SpareStep(k, m, c, w, e);
    }
    StepsWeaken(s, t, rule, Spares(k, m, c));
  }

  /** Interleaved patches merge: under any plan, between its read and the end of its patch a
      reconcile never overwrites a handler's field that it did not change itself. */
  lemma HandlerWritesSurvive(s: Sys, k: Key, remote: Remote)
    requires GetManager(s, k).1.Found?
    ensures var (t, r) := GetManager(s, k);
            var c := WithPhase(Body(t, k, r.value, remote).clm);
            Steps(s, Reconcile(s, k, remote).0, Spares(k, r.value.status, c.status))
  {
    hide GetManager, Body, PatchObject, WithPhase;
    var (t, r) := GetManager(s, k);
    var m := r.value;
    AnyPlan(s);
    GetManagerSteps(s, k, AnyEvent, Reads(AnyEvent));
    var o := Body(t, k, m, remote);
    var c := WithPhase(o.clm);
    var rule := Spares(k, m.status, c.status);
    SameManagersSpare(s, t, k, m.status, c.status, Reads(AnyEvent));
    BodySpares(t, k, m, remote, c.status);
    AnyPlan(o.sys);
    PatchSteps(o.sys, k, m, c, AnyEvent);
    var u := PatchObject(o.sys, k, m, c).0;
    forall w, e | Patches(k, m, c, AnyEvent)(w, e) ensures rule(w, e) {
      if !Others(AnyEvent)(w, e) {
        PatchSpares(k, m, c, w, e);
      }
      assert SpareStep(k, m.status, c.status, w, e);
    }
    StepsWeaken(o.sys, u, Patches(k, m, c, AnyEvent), rule);
    StepsJoin(s, t, o.sys, rule);
    StepsJoin(s, o.sys, u, rule);
  }

  lemma BodySpares(t: Sys, k: Key, m: Manager, remote: Remote, c: Status)
    ensures Steps(t, Body(t, k, m, remote).sys, Spares(k, m.status, c))
  {
    hide RunPhases, TearDown;
    AnyPlan(t);
    var o := Body(t, k, m, remote);
    if FINALIZER in m.finalizers && TearsDown(m) {
      TearDownSteps(t, k, Ready(m, false), AnyEvent);
      forall w, e | Tears(k, AnyEvent)(w, e) && e.Called? ensures e.world.managers == w.managers {
        assert !Others(AnyEvent)(w, e);
        StepKeepsManagers(k, m, w, e);
      }
      SameManagersSpare(t, o.sys, k, m.status, c, Tears(k, AnyEvent));
    } else {
      BodyBuilds(t, k, m, remote, AnyEvent);
      forall w, e | Builds(k, m, AnyEvent)(w, e) && e.Called? ensures e.world.managers == w.managers {
        assert !Others(AnyEvent)(w, e);
        StepKeepsManagers(k, m, w, e);
      }
      SameManagersSpare(t, o.sys, k, m.status, c, Builds(k, m, AnyEvent));
    }
  }

  /** The reconcile changes those fields only if its status phase read the remote version; as
      long as it does not, every handler's write survives every reconcile. */
  lemma BlindReconcilesSpare(s: Sys, k: Key, remote: Remote)
    requires GetManager(s, k).1.Found? && Unread(s, k, remote)
    ensures var st := GetManager(s, k).1.value.status;
            Steps(s, Reconcile(s, k, remote).0, Spares(k, st, st))
  {
    hide GetManager, Body, WithPhase, Reconcile;
    var (t, r) := GetManager(s, k);
    var m := r.value;
    HandlerWritesSurvive(s, k, remote);
    BlindKeepsCounts(t, k, m, remote);
    var c := WithPhase(Body(t, k, m, remote).clm);
    StepsWeaken(s, Reconcile(s, k, remote).0, Spares(k, m.status, c.status), Spares(k, m.status, m.status));
  }

  ghost predicate SameCounts(a: Status, b: Status) {
    a.masterRun == b.masterRun && a.workerRun == b.workerRun && a.controlPlaneReady == b.controlPlaneReady
  }

  lemma {:induction false} BlindPhases(phases: seq<Phase>, s: Sys, k: Key, m: Manager, remote: Remote,
                                       res: Result, failed: bool)
    requires Blind(remote) || m.status.controlPlaneReady
    ensures SameCounts(RunPhases(phases, s, k, m, remote, res, failed).clm.status, m.status)
    decreases |phases|
  {
    hide GetChild, PatchChildObject, Walk;
    if phases != [] {
      var o := RunPhase(phases[0], s, k, m, remote);
      assert SameCounts(o.clm.status, m.status);
      if o.answer.Returned? {
        var failed' := failed || o.answer.failed;
        BlindPhases(phases[1..], o.sys, k, o.clm, remote, if failed' then res else o.answer.result, failed');
      }
    }
  }

  lemma BlindKeepsCounts(t: Sys, k: Key, m: Manager, remote: Remote)
    requires LooksAway(m, remote)
    ensures SameCounts(WithPhase(Body(t, k, m, remote).clm).status, m.status)
  {
    hide RunPhases, GetChild, Delete;
    if FINALIZER in m.finalizers && !TearsDown(m) {
      BlindPhases(PhasesOf(m), t, k, m, remote, ZERO, false);
    }
  }
}
