/** What the patches of a reconcile write and what they leave alone: leaf by leaf and, for
    annotations, key by key, onto whatever is stored by the time they arrive. */
module Merging {
  import opened Api
  import opened Naming
  import opened Store
  import opened Observation
  import opened Reconciling
  import opened Traces
  import opened Safety
  import opened Wiring
  import opened Watching

  /** Both maps have the same value under the key, or none. */
  ghost predicate SameAt(a: map<string, string>, b: map<string, string>, key: string) {
    (key in a <==> key in b) && (key in a ==> a[key] == b[key])
  }

  /** A key that the reconcile changed gets the computed entry, every other key keeps the stored one. */
  lemma MergeMapAt(before: map<string, string>, after: map<string, string>, stored: map<string, string>, key: string)
    ensures SameAt(before, after, key) ==> SameAt(MergeMap(before, after, stored), stored, key)
    ensures !SameAt(before, after, key) ==> SameAt(MergeMap(before, after, stored), after, key)
  {
  }

  // ---------------------------------------------------------------------------------------
  // The deferred patch spares what it did not compute

  /** The entry under the key stays, unless the reconcile changed that very entry, in which case
      it may become the computed one. */
  ghost predicate SparedAt(snapshot: map<string, string>, computed: map<string, string>,
                           before: map<string, string>, after: map<string, string>, key: string) {
    && (SameAt(snapshot, computed, key) ==> SameAt(before, after, key))
    && (SameAt(after, before, key) || SameAt(after, computed, key))
  }

  ghost predicate SparedSpec(m: Spec, c: Spec, x: Spec, y: Spec) {
    && Spared(m.provider, c.provider, x.provider, y.provider)
    && Spared(m.version, c.version, x.version, y.version)
    && Spared(m.masterNum, c.masterNum, x.masterNum, y.masterNum)
    && Spared(m.workerNum, c.workerNum, x.workerNum, y.workerNum)
  }

  ghost predicate SparedRest(m: Status, c: Status, x: Status, y: Status) {
    && Spared(m.provider, c.provider, x.provider, y.provider)
    && Spared(m.ready, c.ready, x.ready, y.ready)
    && Spared(m.phase, c.phase, x.phase, y.phase)
    && Spared(m.endpoint, c.endpoint, x.endpoint, y.endpoint)
  }

  /** What was x and is y now, for a reconcile that read m and computed c. */
  ghost predicate SparedManager(m: Manager, c: Manager, x: Manager, y: Manager) {
    && y.labels == x.labels && y.deleting == x.deleting && y.aws == x.aws
    && Spared(m.finalizers, c.finalizers, x.finalizers, y.finalizers)
    && (forall key :: SparedAt(m.annotations, c.annotations, x.annotations, y.annotations, key))
    && SparedSpec(m.spec, c.spec, x.spec, y.spec)
    && SparedStatus(m.status, c.status, x.status, y.status) && SparedRest(m.status, c.status, x.status, y.status)
  }

  ghost function SparesAll(k: Key, m: Manager, c: Manager): Rule {
    (w: World, e: Moment) =>
      e.Called? && k in w.managers && k in e.world.managers ==>
        SparedManager(m, c, w.managers[k], e.world.managers[k])
  }

  lemma MainSpares(m: Manager, c: Manager, x: Manager)
    ensures SparedManager(m, c, x, MergeMain(m, c, x))
  {
    hide MergeMap;
    forall key ensures SparedAt(m.annotations, c.annotations, x.annotations, MergeMain(m, c, x).annotations, key) {
      MergeMapAt(m.annotations, c.annotations, x.annotations, key);
    }
  }

  lemma NothingSpares(m: Manager, c: Manager, x: Manager)
    ensures SparedManager(m, c, x, x)
  {
  }

  lemma StatusSpares(m: Manager, c: Manager, x: Manager)
    ensures SparedManager(m, c, x, x.(status := MergeStatus(m.status, c.status, x.status)))
  {
  }

  lemma PatchSparesAll(k: Key, m: Manager, c: Manager, w: World, e: Moment)
    requires PatchStep(k, m, c, w, e)
    ensures SparesAll(k, m, c)(w, e)
  {
    hide SparedManager, MergeMain, MergeStatus;
    if k in w.managers {
      var x := w.managers[k];
      MainSpares(m, c, x);
      StatusSpares(m, c, x);
      NothingSpares(m, c, x);
    }
  }

  lemma IdleSpares(s: Sys, t: Sys, k: Key, m: Manager, c: Manager, rule: Rule)
    requires Steps(s, t, rule)
    requires forall w, e :: rule(w, e) && e.Called? ==> e.world.managers == w.managers
    ensures Steps(s, t, SparesAll(k, m, c))
  {
    hide SparedManager;
    forall w, e | rule(w, e) ensures SparesAll(k, m, c)(w, e) {
      if e.Called? && k in w.managers {
        NothingSpares(m, c, w.managers[k]);
      }
    }
    StepsWeaken(s, t, rule, SparesAll(k, m, c));
  }

  lemma BodyIsIdle(t: Sys, k: Key, m: Manager, remote: Remote, c: Manager)
    ensures Steps(t, Body(t, k, m, remote).sys, SparesAll(k, m, c))
  {
    hide RunPhases, TearDown, SparedManager;
    AnyPlan(t);
    var o := Body(t, k, m, remote);
    if FINALIZER in m.finalizers && TearsDown(m) {
      TearDownSteps(t, k, Ready(m, false), AnyEvent);
      forall w, e | Tears(k, AnyEvent)(w, e) && e.Called? ensures e.world.managers == w.managers {
        assert !Others(AnyEvent)(w, e);
        StepKeepsManagers(k, m, w, e);
      }
      IdleSpares(t, o.sys, k, m, c, Tears(k, AnyEvent));
    } else {
      BodyBuilds(t, k, m, remote, AnyEvent);
      forall w, e | Builds(k, m, AnyEvent)(w, e) && e.Called? ensures e.world.managers == w.managers {
        assert !Others(AnyEvent)(w, e);
        StepKeepsManagers(k, m, w, e);
      }
      IdleSpares(t, o.sys, k, m, c, Builds(k, m, AnyEvent));
    }
  }

  /** Concurrent edits survive: under any plan no request of a reconcile changes an annotation, a
      finalizer list, a spec field or a status field that the reconcile did not itself change
      between its snapshot and its working copy, and what it writes is the value it computed.
      Labels, AWS settings and the deletion mark it never writes. */
  lemma EditsSurvive(s: Sys, k: Key, remote: Remote)
    requires GetManager(s, k).1.Found?
    ensures var (t, r) := GetManager(s, k);
            var c := WithPhase(Body(t, k, r.value, remote).clm);
            Steps(s, Reconcile(s, k, remote).0, SparesAll(k, r.value, c))
  {
    hide GetManager, Body, PatchObject, WithPhase, SparedManager;
    var (t, r) := GetManager(s, k);
    var m := r.value;
    AnyPlan(s);
    GetManagerSteps(s, k, AnyEvent, Reads(AnyEvent));
    var o := Body(t, k, m, remote);
    var c := WithPhase(o.clm);
    var rule := SparesAll(k, m, c);
    IdleSpares(s, t, k, m, c, Reads(AnyEvent));
    BodyIsIdle(t, k, m, remote, c);
    AnyPlan(o.sys);
    PatchSteps(o.sys, k, m, c, AnyEvent);
    var u := PatchObject(o.sys, k, m, c).0;
    forall w, e | Patches(k, m, c, AnyEvent)(w, e) ensures rule(w, e) {
      if !Others(AnyEvent)(w, e) {
        PatchSparesAll(k, m, c, w, e);
      }
    }
    StepsWeaken(o.sys, u, Patches(k, m, c, AnyEvent), rule);
    StepsJoin(s, t, o.sys, rule);
    StepsJoin(s, o.sys, u, rule);
  }

  // ---------------------------------------------------------------------------------------
  // What a reconcile computes at all

  /** The annotations that a reconcile may change, and the finalizer. */
  ghost predicate Narrow(m: Manager, c: Manager) {
    && (forall key | key != ANNOTATION_APISERVER && key != ANNOTATION_SUFFIX ::
          SameAt(m.annotations, c.annotations, key))
    && (forall f | f != FINALIZER :: f in c.finalizers <==> f in m.finalizers)
  }

  lemma NarrowJoin(m: Manager, c: Manager, d: Manager)
    requires Narrow(m, c) && Narrow(c, d)
    ensures Narrow(m, d)
  {
    forall key | key != ANNOTATION_APISERVER && key != ANNOTATION_SUFFIX
      ensures SameAt(m.annotations, d.annotations, key)
    {
      assert SameAt(m.annotations, c.annotations, key) && SameAt(c.annotations, d.annotations, key);
    }
  }

  lemma ObserveNarrow(m: Manager, remote: Remote)
    ensures Narrow(m, Observe(m, remote).0)
  {
    hide Count, Provider, ProviderName, FirstBare;
  }

  lemma PhaseNarrow(p: Phase, s: Sys, k: Key, m: Manager, remote: Remote)
    ensures Narrow(m, RunPhase(p, s, k, m, remote).clm)
  {
    hide GetChild, PatchChildObject, Walk, Observe;
    ObserveNarrow(m, remote);
  }

  lemma NoneNarrow(m: Manager)
    ensures Narrow(m, m)
  {
  }

  lemma {:induction false} PhasesNarrow(phases: seq<Phase>, s: Sys, k: Key, m: Manager, remote: Remote,
                                        res: Result, failed: bool)
    ensures Narrow(m, RunPhases(phases, s, k, m, remote, res, failed).clm)
    decreases |phases|
  {
    hide RunPhase, Narrow;
    if phases != [] {
      var o := RunPhase(phases[0], s, k, m, remote);
      PhaseNarrow(phases[0], s, k, m, remote);
      if o.answer.Returned? {
        var failed' := failed || o.answer.failed;
        var res' := if failed' then res else o.answer.result;
        PhasesNarrow(phases[1..], o.sys, k, o.clm, remote, res', failed');
        NarrowJoin(m, o.clm, RunPhases(phases[1..], o.sys, k, o.clm, remote, res', failed').clm);
      }
    } else {
      NoneNarrow(m);
    }
  }

  lemma BodyNarrow(s: Sys, k: Key, m: Manager, remote: Remote)
    ensures Narrow(m, WithPhase(Body(s, k, m, remote).clm))
  {
    hide RunPhases, GetChild, Delete;
    PhasesNarrow(PhasesOf(m), s, k, m, remote, ZERO, false);
  }

  /** A key that the controller has no business with: no step of its own touches it. */
  ghost function KeepsNote(k: Key, key: string): Rule {
    (w: World, e: Moment) =>
      e.Called? && k in w.managers && k in e.world.managers ==>
        SameAt(w.managers[k].annotations, e.world.managers[k].annotations, key)
  }

  /** So an annotation of another component, written before, during or after, is never erased or
      changed by a reconcile: it writes two annotations, the endpoint and the suffix. */
  lemma ForeignNotesSurvive(s: Sys, k: Key, remote: Remote, key: string)
    requires key != ANNOTATION_APISERVER && key != ANNOTATION_SUFFIX
    ensures Steps(s, Reconcile(s, k, remote).0, KeepsNote(k, key))
  {
    hide GetManager, Body, WithPhase, Reconcile, SparedSpec, SparedStatus, SparedRest;
    var (t, r) := GetManager(s, k);
    if r.Found? {
      var m := r.value;
      var c := WithPhase(Body(t, k, m, remote).clm);
      EditsSurvive(s, k, remote);
      BodyNarrow(t, k, m, remote);
      forall w, e | SparesAll(k, m, c)(w, e) ensures KeepsNote(k, key)(w, e) {
        if e.Called? && k in w.managers && k in e.world.managers {
          assert SparedAt(m.annotations, c.annotations, w.managers[k].annotations,
                          e.world.managers[k].annotations, key);
        }
      }
      StepsWeaken(s, Reconcile(s, k, remote).0, SparesAll(k, m, c), KeepsNote(k, key));
    } else {
      UnreadKeepsNotes(s, k, remote, key);
    }
  }

  lemma UnreadKeepsNotes(s: Sys, k: Key, remote: Remote, key: string)
    requires !GetManager(s, k).1.Found?
    ensures Steps(s, Reconcile(s, k, remote).0, KeepsNote(k, key))
  {
    hide GetManager;
    AnyPlan(s);
    GetManagerSteps(s, k, AnyEvent, Reads(AnyEvent));
    StepsWeaken(s, GetManager(s, k).0, Reads(AnyEvent), KeepsNote(k, key));
  }

  // ---------------------------------------------------------------------------------------
  // A patch that was not confirmed is reported

  /** Every request between s and t was confirmed. */
  ghost predicate AllConfirmed(s: Sys, t: Sys) {
    Grows(s, t) && forall i | |s.past| <= i < |t.past| && t.past[i].Called? :: t.past[i].ok
  }

  lemma SendConfirmed(s: Sys, e: Moment)
    requires e.Called?
    ensures var t := Turn(s).Log(e); Grows(s, t) && (AllConfirmed(s, t) <==> e.ok)
  {
    AnyPlan(s);
    TurnSteps(s, AnyEvent);
    var v, t := Turn(s), Turn(s).Log(e);
    assert t.past[|v.past|] == e;
    forall i | |s.past| <= i < |v.past| ensures t.past[i].Happened? {
      assert t.past[i] == v.past[i] && Others(AnyEvent)(v.At(i), v.past[i]);
    }
  }

  lemma ConfirmedJoin(s: Sys, t: Sys, u: Sys)
    requires Grows(s, t) && Grows(t, u)
    ensures AllConfirmed(s, u) <==> AllConfirmed(s, t) && AllConfirmed(t, u)
  {
    if AllConfirmed(s, u) {
      forall i | |s.past| <= i < |t.past| && t.past[i].Called? ensures t.past[i].ok {
        assert t.past[i] == u.past[i];
      }
    }
    if AllConfirmed(s, t) && AllConfirmed(t, u) {
      forall i | |s.past| <= i < |u.past| && u.past[i].Called? ensures u.past[i].ok {
        if i < |t.past| {
          assert t.past[i] == u.past[i];
        }
      }
    }
  }

  lemma MainConfirmed(s: Sys, k: Key, m: Manager, c: Manager)
    ensures var (t, ok) := SendMain(s, k, m, c); Grows(s, t) && (ok <==> AllConfirmed(s, t))
  {
    hide Turn, MergeMain, AllConfirmed;
    if SameMain(m, c) {
      NoneConfirmed(s);
    } else {
      var t := SendMain(s, k, m, c).0;
      assert t == Turn(s).Log(t.past[|t.past| - 1]);
      SendConfirmed(s, t.past[|t.past| - 1]);
    }
  }

  lemma NoneConfirmed(s: Sys)
    ensures AllConfirmed(s, s)
  {
  }

  lemma StatusConfirmed(s: Sys, k: Key, m: Manager, c: Manager)
    ensures var (t, ok) := SendStatus(s, k, m, c); Grows(s, t) && (ok <==> AllConfirmed(s, t))
  {
    hide Turn, MergeStatus, AllConfirmed;
    if m.status == c.status {
      NoneConfirmed(s);
    } else {
      var t := SendStatus(s, k, m, c).0;
      assert t == Turn(s).Log(t.past[|t.past| - 1]);
      SendConfirmed(s, t.past[|t.past| - 1]);
    }
  }

  /** The deferred patch succeeds exactly if each of its requests was confirmed; a refused first one
      does not keep it from the second. So a reconcile that read its manager answers without an
      error exactly if its body did and every request of the patch was confirmed. */
  lemma PatchReports(s: Sys, k: Key, remote: Remote)
    requires GetManager(s, k).1.Found?
    ensures var (t, r) := GetManager(s, k); var o := Body(t, k, r.value, remote);
            var (u, a) := Reconcile(s, k, remote);
            && (a.Panicked? <==> o.answer.Panicked?)
            && (a.Returned? ==>
                  a.result == o.answer.result && (a.failed <==> o.answer.failed || !AllConfirmed(o.sys, u)))
  {
    hide GetManager, Body, WithPhase, SendMain, SendStatus, AllConfirmed;
    var (t, r) := GetManager(s, k);
    var o := Body(t, k, r.value, remote);
    var m, c := r.value, WithPhase(o.clm);
    MainConfirmed(o.sys, k, m, c);
    var v := SendMain(o.sys, k, m, c).0;
    StatusConfirmed(v, k, m, c);
    ConfirmedJoin(o.sys, v, SendStatus(v, k, m, c).0);
  }

  // ---------------------------------------------------------------------------------------
  // The patches of the children

  /** One leaf of a stored child after a push of `wanted`: it was read as `read`. */
  function Pushes<T(==)>(read: T, wanted: T, stored: T): T {
    if read == wanted then stored else wanted
  }

  /** From t to u one patch of ck was sent: it left the store alone, or, exactly if the object was
      there and the request not refused, replaced it with y. */
  ghost predicate OnePatch(t: Sys, u: Sys, ck: ChildKey, y: Child) {
    var v, w := Turn(t), Turn(t).Now();
    && v.past < u.past && |u.past| == |v.past| + 1 && u.plan == v.plan
    && u.past[|v.past|].Called? && u.past[|v.past|].call.PatchChild? && u.past[|v.past|].call.ck == ck
    && u.Now() == if ck in w.children && t.Next().outcome != Refused && y.Kind() == ck.kind
                  then w.(children := w.children[ck := y]) else w
  }

  /** The control plane's push, for every plan: nothing is sent if both fields are as wanted when
      read; otherwise one request, which changes a field only if it differed when it was read. */
  lemma ControlPlanePush(s: Sys, k: Key, m: Manager)
    ensures var ck := ControlPlaneKey(k);
            var (t, r) := GetChild(s, ck); var o := PushControlPlane(s, k, m);
            if !r.Found? || r.value.replicas.None? then o.sys == t
            else
              var n, x := Some(Int32(m.spec.masterNum)), Turn(t).Now().children;
              && r.value.ControlPlane?
              && (r.value.replicas == n && r.value.version == m.spec.version ==> o.sys == t)
              && (r.value.replicas != n || r.value.version != m.spec.version ==>
                    OnePatch(t, o.sys, ck,
                             if ck in x && x[ck].ControlPlane?
                             then x[ck].(replicas := Pushes(r.value.replicas, n, x[ck].replicas),
                                         version := Pushes(r.value.version, m.spec.version, x[ck].version))
                             else r.value))
  {
    hide Turn;
    var ck := ControlPlaneKey(k);
    var (t, r) := GetChild(s, ck);
    if r.Found? {
      assert r.value.Kind() == ck.kind;
      var v := Turn(t);
      if ck in v.Now().children {
        assert v.Now().children[ck].Kind() == ck.kind;
      }
    }
  }

  /** The deployment's push, likewise. Without a version it panics, but the deferred patch has the
      size in it already. */
  lemma DeploymentPush(s: Sys, k: Key, m: Manager)
    ensures var ck := DeploymentKey(k);
            var (t, r) := GetChild(s, ck); var o := PushDeployment(s, k, m);
            && o.clm == m
            && if !r.Found? || r.value.workers.None? then o.sys == t
               else
                 var n, x := Some(Int32(m.spec.workerNum)), Turn(t).Now().children;
                 && r.value.MachineDeployment?
                 && var v := if r.value.templateVersion.None? then None else Some(m.spec.version);
                 && (o.answer.Panicked? <==> r.value.templateVersion.None?)
                 && (r.value.workers == n && r.value.templateVersion == v ==> o.sys == t)
                 && (r.value.workers != n || r.value.templateVersion != v ==>
                       OnePatch(t, o.sys, ck,
                                if ck in x && x[ck].MachineDeployment?
                                then x[ck].(workers := Pushes(r.value.workers, n, x[ck].workers),
                                            templateVersion :=
                                              Pushes(r.value.templateVersion, v, x[ck].templateVersion))
                                else r.value))
  {
    hide Turn;
    var ck := DeploymentKey(k);
    var (t, r) := GetChild(s, ck);
    if r.Found? {
      assert r.value.Kind() == ck.kind;
      var v := Turn(t);
      if ck in v.Now().children {
        assert v.Now().children[ck].Kind() == ck.kind;
      }
    }
  }
}
