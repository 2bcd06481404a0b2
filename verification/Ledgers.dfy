/** The bookkeeping that ties the number of managers created for a claim to the number of times
    the claim was approved. */
module Ledgers {
  import opened Api
  import opened Naming
  import opened Store
  import opened Children
  import opened Observation
  import opened Reconciling
  import opened Traces
  import opened Safety
  import opened Watching
  import opened Claiming

  predicate Approved(c: Key, w: World) {
    c in w.claims && w.claims[c].phase == CLAIM_APPROVED
  }

  /** The manager was created for the claim c. */
  predicate BelongsTo(c: Key, key: Key, m: Manager) {
    m.Type() == TYPE_CREATED && ClaimOf(key, m) == c
  }

  /** These labels say so. */
  predicate SayBelongs(c: Key, key: Key, labels: map<string, string>) {
    Lookup(labels, LABEL_CLUSTER_TYPE) == TYPE_CREATED && Key(key.namespace, Lookup(labels, LABEL_CLAIM)) == c
  }

  /** The claim has its manager, or its manager's removal is still being reported. */
  ghost predicate Fulfilled(c: Key, mk: Key, w: World) {
    || (mk in w.managers && BelongsTo(c, mk, w.managers[mk]))
    || PendingNotice(c, mk, w)
  }

  ghost predicate PendingNotice(c: Key, mk: Key, w: World) {
    exists i | 0 <= i < |w.gone| :: w.gone[i].0 == mk && BelongsTo(c, mk, w.gone[i].1)
  }

  /** The one manager that an approved claim may still ask for. */
  ghost function Credit(c: Key, mk: Key, w: World): nat {
    if Approved(c, w) && !Fulfilled(c, mk, w) then 1 else 0
  }

  /** The step creates a manager for c. */
  ghost predicate IsBirth(c: Key, w: World, m: Moment) {
    && m.Called? && m.call.CreateManager?
    && m.call.key !in w.managers && m.call.key in m.world.managers
    && ClaimOf(m.call.key, m.world.managers[m.call.key]) == c
  }

  /** The step takes c into Approved. */
  ghost predicate IsApproval(c: Key, w: World, m: Moment) {
    !Approved(c, w) && Approved(c, m.world)
  }

  ghost function Births(s: Sys, c: Key, n: nat): nat
    requires n <= |s.past|
  {
    if n == 0 then 0 else Births(s, c, n - 1) + if IsBirth(c, s.At(n - 1), s.past[n - 1]) then 1 else 0
  }

  ghost function Approvals(s: Sys, c: Key, n: nat): nat
    requires n <= |s.past|
  {
    if n == 0 then 0 else Approvals(s, c, n - 1) + if IsApproval(c, s.At(n - 1), s.past[n - 1]) then 1 else 0
  }

  /** Creations plus what may still be created are covered by approvals and the initial credit. */
  ghost predicate Balanced(s: Sys, c: Key, mk: Key, n: nat)
    requires n <= |s.past|
  {
    Births(s, c, n) + Credit(c, mk, s.At(n)) <= Credit(c, mk, s.start) + Approvals(s, c, n)
  }

  /** c asks for the manager mk, and the server keeps no ghosts. */
  ghost predicate Orderly(c: Key, mk: Key, w: World) {
    NoGhosts(w) && (c in w.claims ==> ManagerKey(c, w.claims[c]) == mk)
  }

  /** The books are balanced at every moment of the log. */
  ghost predicate Ledger(s: Sys, c: Key, mk: Key) {
    Orderly(c, mk, s.Now()) && forall n | 0 <= n <= |s.past| :: Balanced(s, c, mk, n)
  }

  /** Notices about the manager are delivered, nobody makes it someone else's, and the claim
      keeps its cluster name. */
  ghost function Fair(c: Key, mk: Key): Env {
    (e: Event) =>
      && !(e.NoticeLost? && e.key == mk)
      && (e.ManagerRelabelled? && e.key == mk ==> SayBelongs(c, mk, e.labels))
      && ((e.ClaimAdded? || e.ClaimEdited?) && e.key == c ==> Key(c.namespace, e.clusterName) == mk)
  }

  /** One step at a time: what it creates and leaves open is covered by what it found open and
      what it approved. */
  ghost predicate Covered(c: Key, mk: Key, w: World, m: Moment) {
    && Orderly(c, mk, m.world)
    && (if IsBirth(c, w, m) then 1 else 0) + Credit(c, mk, m.world)
       <= Credit(c, mk, w) + if IsApproval(c, w, m) then 1 else 0
  }

  lemma OthersCovered(c: Key, mk: Key, w: World, m: Moment)
    requires Orderly(c, mk, w) && Others(Fair(c, mk))(w, m)
    ensures Covered(c, mk, w, m)
  {
    EventOrderly(c, mk, w, m.event);
    if Approved(c, w) && Approved(c, m.world) && Fulfilled(c, mk, w) {
      EventFulfils(c, mk, w, m.event);
    }
  }

  lemma EventOrderly(c: Key, mk: Key, w: World, e: Event)
    requires Orderly(c, mk, w) && Fair(c, mk)(e)
    ensures Orderly(c, mk, Apply(w, e))
  {
  }

  lemma GoneGrows(w: World, e: Event)
    requires !e.NoticeDelivered? && !e.NoticeLost?
    ensures w.gone <= Apply(w, e).gone
  {
  }

  lemma NoticeStays(c: Key, mk: Key, w: World, e: Event)
    requires PendingNotice(c, mk, w) && Approved(c, w) && Approved(c, Apply(w, e))
    requires !(e.NoticeLost? && e.key == mk)
    ensures PendingNotice(c, mk, Apply(w, e))
  {
    var w' := Apply(w, e);
    var i :| 0 <= i < |w.gone| && w.gone[i].0 == mk && BelongsTo(c, mk, w.gone[i].1);
    if e.NoticeDelivered? || (e.NoticeLost? && w.gone[0].0 == e.key) {
      assert w'.gone == w.gone[1..];
      if i == 0 {
        assert false;
      }
      assert w'.gone[i - 1] == w.gone[i];
    } else if e.NoticeLost? {
      assert w'.gone == w.gone;
    } else {
      hide Apply;
      GoneGrows(w, e);
      assert w'.gone[i] == w.gone[i];
    }
  }

  /** The manager still belongs to c, or its removal is the latest on record. */
  ghost predicate OnRecord(c: Key, mk: Key, w': World) {
    if mk in w'.managers then BelongsTo(c, mk, w'.managers[mk])
    else w'.gone != [] && w'.gone[|w'.gone| - 1].0 == mk && BelongsTo(c, mk, w'.gone[|w'.gone| - 1].1)
  }

  lemma PutOnRecord(c: Key, mk: Key, w: World, key: Key, m: Manager)
    requires mk in w.managers && BelongsTo(c, mk, w.managers[mk]) && (key == mk ==> BelongsTo(c, mk, m))
    ensures OnRecord(c, mk, PutManager(w, key, m))
  {
  }

  lemma ManagerStays(c: Key, mk: Key, w: World, e: Event)
    requires mk in w.managers && BelongsTo(c, mk, w.managers[mk])
    requires e.ManagerRelabelled? && e.key == mk ==> SayBelongs(c, mk, e.labels)
    ensures OnRecord(c, mk, Apply(w, e))
  {
    hide PutManager;
    match e
    case ManagerDeleted(key) =>
      if key in w.managers { PutOnRecord(c, mk, w, key, w.managers[key].(deleting := true)); }
    case ManagerEdited(key, spec, aws) =>
      if key in w.managers { PutOnRecord(c, mk, w, key, w.managers[key].(spec := spec, aws := aws)); }
    case ManagerRelabelled(key, labels, annotations) =>
      if key in w.managers {
        PutOnRecord(c, mk, w, key, w.managers[key].(labels := labels, annotations := annotations));
      }
    case ForeignFinalizer(key, name, present) =>
      if key in w.managers {
        var m := w.managers[key];
        PutOnRecord(c, mk, w, key,
                    m.(finalizers := if present then m.finalizers + {name} else m.finalizers - {name}));
      }
    case StatusWritten(key, write) =>
      if key in w.managers {
        PutOnRecord(c, mk, w, key, w.managers[key].(status := WriteStatus(w.managers[key].status, write)));
      }
    case ManagerReleased(key) =>
      if key in w.managers {
        PutOnRecord(c, mk, w, key, w.managers[key].(finalizers := w.managers[key].finalizers - {FINALIZER}));
      }
    case ManagerPatched(key, finalizers, annotations, status) =>
      if key in w.managers {
        PutOnRecord(c, mk, w, key,
                    w.managers[key].(finalizers := finalizers, annotations := annotations, status := status));
      }
    case _ =>
  }

  /** A claim that stays approved stays fulfilled. */
  lemma EventFulfils(c: Key, mk: Key, w: World, e: Event)
    requires Fair(c, mk)(e) && Fulfilled(c, mk, w) && Approved(c, w) && Approved(c, Apply(w, e))
    ensures Fulfilled(c, mk, Apply(w, e))
  {
    if PendingNotice(c, mk, w) {
      NoticeStays(c, mk, w, e);
    } else {
      hide Apply;
      ManagerStays(c, mk, w, e);
    }
  }

  lemma CountsPrefix(s: Sys, t: Sys, c: Key, n: nat)
    requires Grows(s, t) && n <= |s.past|
    ensures Births(t, c, n) == Births(s, c, n) && Approvals(t, c, n) == Approvals(s, c, n)
  {
    if n > 0 {
      CountsPrefix(s, t, c, n - 1);
      assert t.past[n - 1] == s.past[n - 1] && t.At(n - 1) == s.At(n - 1);
    }
  }

  /** Covered steps keep the ledger, at every position. */
  lemma {:induction false} CoveredSteps(s: Sys, t: Sys, c: Key, mk: Key, rule: Rule, n: nat)
    requires Steps(s, t, rule) && Ledger(s, c, mk) && |s.past| <= n <= |t.past|
    requires forall w, m :: Orderly(c, mk, w) && rule(w, m) ==> Covered(c, mk, w, m)
    ensures Orderly(c, mk, t.At(n)) && Balanced(t, c, mk, n)
    ensures Births(t, c, n) - Births(s, c, |s.past|) + Credit(c, mk, t.At(n))
         <= Credit(c, mk, s.Now()) + Approvals(t, c, n) - Approvals(s, c, |s.past|)
  {
    if n == |s.past| {
      assert Balanced(s, c, mk, n);
      CountsPrefix(s, t, c, n);
      assert t.At(n) == s.Now();
    } else {
      CoveredSteps(s, t, c, mk, rule, n - 1);
      assert rule(t.At(n - 1), t.past[n - 1]);
      assert Covered(c, mk, t.At(n - 1), t.past[n - 1]);
    }
  }

  lemma LedgerSteps(s: Sys, t: Sys, c: Key, mk: Key, rule: Rule)
    requires Steps(s, t, rule) && Ledger(s, c, mk)
    requires forall w, m :: Orderly(c, mk, w) && rule(w, m) ==> Covered(c, mk, w, m)
    ensures Ledger(t, c, mk)
  {
    CoveredSteps(s, t, c, mk, rule, |t.past|);
    forall n | 0 <= n <= |t.past| ensures Balanced(t, c, mk, n) {
      if n < |s.past| {
        EarlierBalance(s, t, c, mk, n);
      } else {
        CoveredSteps(s, t, c, mk, rule, n);
      }
    }
  }

  lemma EarlierBalance(s: Sys, t: Sys, c: Key, mk: Key, n: nat)
    requires Grows(s, t) && n <= |s.past| && Balanced(s, c, mk, n)
    ensures Balanced(t, c, mk, n)
  {
    CountsPrefix(s, t, c, n);
    assert t.At(n) == s.At(n);
  }

  // ---------------------------------------------------------------------------------------
  // The ClusterManager controller keeps the books

  /** Managers keep their labels, removals are put on record, claims are left alone. */
  ghost predicate Records(w: World, w': World) {
    && w'.claims == w.claims && w.gone <= w'.gone && (NoGhosts(w) ==> NoGhosts(w'))
    && w'.managers.Keys <= w.managers.Keys
    && forall k | k in w.managers :: Recorded(k, w, w')
  }

  ghost predicate Recorded(k: Key, w: World, w': World)
    requires k in w.managers
  {
    if k in w'.managers then w'.managers[k].labels == w.managers[k].labels
    else exists i | 0 <= i < |w'.gone| :: w'.gone[i].0 == k && w'.gone[i].1.labels == w.managers[k].labels
  }

  ghost function Recording(env: Env): Rule {
    (w: World, m: Moment) =>
      Others(env)(w, m) || (m.Called? && !m.call.CreateManager? && Records(w, m.world))
  }

  lemma PutRecords(w: World, k: Key, m: Manager)
    requires k in w.managers && m.labels == w.managers[k].labels
    ensures Records(w, PutManager(w, k, m))
  {
    var w' := PutManager(w, k, m);
    assert k !in w'.managers ==> w'.gone[|w.gone|] == (k, m);
  }

  lemma PatchRecords(k: Key, before: Manager, after: Manager, w: World, m: Moment)
    requires PatchStep(k, before, after, w, m)
    ensures m.Called? && !m.call.CreateManager? && Records(w, m.world)
  {
    hide MergeMain, MergeStatus, PutManager;
    if m.world != w {
      if m.call.PatchManager? {
        MergeKeepsLabels(before, after, w.managers[k]);
        PutRecords(w, k, MergeMain(before, after, w.managers[k]));
      } else {
        PutRecords(w, k, w.managers[k].(status := MergeStatus(before.status, after.status, w.managers[k].status)));
      }
    }
  }

  lemma MergeKeepsLabels(before: Manager, after: Manager, stored: Manager)
    ensures MergeMain(before, after, stored).labels == stored.labels
  {
  }

  lemma BuildRecords(k: Key, m0: Manager, w: World, m: Moment)
    requires BuildStep(k, m0, w, m) || TearStep(k, w, m)
    ensures m.Called? && !m.call.CreateManager? && Records(w, m.world)
  {
    hide IsChildOf, Template, Resized;
  }

  lemma BodyRecords(t: Sys, k: Key, m: Manager, remote: Remote, env: Env)
    requires PlanOf(t.plan, env)
    ensures var o := Body(t, k, m, remote);
            Steps(t, o.sys, Recording(env)) && PlanOf(o.sys.plan, env)
  {
    hide RunPhases, TearDown, Records;
    var o := Body(t, k, m, remote);
    if FINALIZER in m.finalizers && TearsDown(m) {
      TearDownSteps(t, k, Ready(m, false), env);
      forall w, e | Tears(k, env)(w, e) ensures Recording(env)(w, e) {
        if !Others(env)(w, e) {
          BuildRecords(k, m, w, e);
        }
      }
      StepsWeaken(t, o.sys, Tears(k, env), Recording(env));
    } else {
      BodyBuilds(t, k, m, remote, env);
      forall w, e | Builds(k, m, env)(w, e) ensures Recording(env)(w, e) {
        if !Others(env)(w, e) {
          BuildRecords(k, m, w, e);
        }
      }
      StepsWeaken(t, o.sys, Builds(k, m, env), Recording(env));
    }
  }

  lemma ReconcileRecords(s: Sys, k: Key, remote: Remote, env: Env)
    requires PlanOf(s.plan, env)
    ensures Steps(s, Reconcile(s, k, remote).0, Recording(env))
  {
    hide GetManager, Body, PatchObject, WithPhase, Records;
    var rule := Recording(env);
    var (t, r) := GetManager(s, k);
    forall w, m | IsRead(w, m) ensures rule(w, m) {
      ReadRecords(w);
    }
    GetManagerSteps(s, k, env, rule);
    if r.Found? {
      var m := r.value;
      var o := Body(t, k, m, remote);
      var after := WithPhase(o.clm);
      BodyRecords(t, k, m, remote, env);
      PatchSteps(o.sys, k, m, after, env);
      var u := PatchObject(o.sys, k, m, after).0;
      forall w, e | Patches(k, m, after, env)(w, e) ensures rule(w, e) {
        if !Others(env)(w, e) {
          PatchRecords(k, m, after, w, e);
        }
      }
      StepsWeaken(o.sys, u, Patches(k, m, after, env), rule);
      StepsJoin(s, t, o.sys, rule);
      StepsJoin(s, o.sys, u, rule);
    }
  }

  lemma ReadRecords(w: World)
    ensures Records(w, w)
  {
  }

  lemma RecordsFulfil(c: Key, mk: Key, w: World, w': World)
    requires Records(w, w') && Fulfilled(c, mk, w)
    ensures Fulfilled(c, mk, w')
  {
    if PendingNotice(c, mk, w) {
      var i :| 0 <= i < |w.gone| && w.gone[i].0 == mk && BelongsTo(c, mk, w.gone[i].1);
      assert w'.gone[i] == w.gone[i];
    } else {
      assert Recorded(mk, w, w');
    }
  }

  lemma RecordingCovered(c: Key, mk: Key, w: World, m: Moment)
    requires Orderly(c, mk, w) && Recording(Fair(c, mk))(w, m)
    ensures Covered(c, mk, w, m)
  {
    if Others(Fair(c, mk))(w, m) {
      OthersCovered(c, mk, w, m);
    } else if Fulfilled(c, mk, w) {
      RecordsFulfil(c, mk, w, m.world);
    }
  }

  // ---------------------------------------------------------------------------------------
  // Reconciles of other claims

  lemma ForeignClaimCovered(c: Key, mk: Key, other: Key, cl: Claim, domain: string, w: World, m: Moment)
    requires Orderly(c, mk, w) && ClaimStep(other, cl, domain, w, m) && other != c
    ensures Covered(c, mk, w, m)
  {
    var k := ManagerKey(other, cl);
    assert ClaimOf(k, NewManager(other, cl, domain)) == other;
    if m.world.managers != w.managers {
      assert !BelongsTo(c, k, m.world.managers[k]);
    }
    assert PendingNotice(c, mk, m.world) == PendingNotice(c, mk, w);
  }

  /** Even if the other claim asks for the same cluster. */
  lemma ForeignReconcile(s: Sys, c: Key, mk: Key, other: Key, settings: Settings)
    requires PlanOf(s.plan, Fair(c, mk)) && Ledger(s, c, mk) && other != c
    ensures Ledger(ReconcileClaim(s, other, settings).0, c, mk)
  {
    hide GetClaim, ReconcileClaim, Ledger, Covered, Orderly;
    var env := Fair(c, mk);
    var (t, r) := GetClaim(s, other);
    ReconcileClaimSteps(s, other, settings, env);
    ReadsKeepLedger(s, t, c, mk);
    if r.Found? {
      var rule := Claims(other, r.value, settings.domain, env);
      forall w, m | Orderly(c, mk, w) && rule(w, m) ensures Covered(c, mk, w, m) {
        if Others(env)(w, m) {
          OthersCovered(c, mk, w, m);
        } else {
          ForeignClaimCovered(c, mk, other, r.value, settings.domain, w, m);
        }
      }
      LedgerSteps(t, ReconcileClaim(s, other, settings).0, c, mk, rule);
    }
  }

  lemma ReadsKeepLedger(s: Sys, t: Sys, c: Key, mk: Key)
    requires Steps(s, t, Reads(Fair(c, mk))) && Ledger(s, c, mk)
    ensures Ledger(t, c, mk)
  {
    hide Covered, Orderly, Ledger, Records;
    var env := Fair(c, mk);
    forall w, m | Orderly(c, mk, w) && Reads(env)(w, m) ensures Covered(c, mk, w, m) {
      if !Others(env)(w, m) {
        ReadRecords(w);
        assert m.world == w;
      }
      RecordingCovered(c, mk, w, m);
    }
    LedgerSteps(s, t, c, mk, Reads(env));
  }

  // ---------------------------------------------------------------------------------------
  // Reconciles of the claim itself

  lemma FairOneIsAny(c: Key, mk: Key, w: World, m: Moment)
    requires Reads(Fair(c, mk))(w, m)
    ensures Reads(AnyEvent)(w, m)
  {
    if Others(Fair(c, mk))(w, m) {
      assert AnyEvent(m.event);
      assert Others(AnyEvent)(w, m);
    }
  }

  lemma FairIsAny(c: Key, mk: Key, s: Sys, t: Sys)
    requires Steps(s, t, Reads(Fair(c, mk)))
    ensures Steps(s, t, Reads(AnyEvent))
  {
    hide Steps;
    forall w, m | Reads(Fair(c, mk))(w, m) ensures Reads(AnyEvent)(w, m) {
      FairOneIsAny(c, mk, w, m);
    }
    StepsWeaken(s, t, Reads(Fair(c, mk)), Reads(AnyEvent));
  }

  lemma ReadsBearNothing(c: Key, w: World, m: Moment)
    requires Reads(AnyEvent)(w, m)
    ensures !IsBirth(c, w, m)
  {
    if !Others(AnyEvent)(w, m) {
      assert IsRead(w, m);
    }
  }

  /** Moving the claim to Awaiting. */
  lemma AwaitCovered(c: Key, mk: Key, cl: Claim, domain: string, w: World, m: Moment)
    requires Orderly(c, mk, w) && ClaimStep(c, cl, domain, w, m) && cl.phase == ""
    ensures Covered(c, mk, w, m)
  {
    assert PendingNotice(c, mk, m.world) == PendingNotice(c, mk, w);
  }

  lemma {:induction false} NoBirths(s: Sys, t: Sys, c: Key, rule: Rule, n: nat)
    requires Steps(s, t, rule) && |s.past| <= n <= |t.past|
    requires forall w, m :: rule(w, m) ==> !IsBirth(c, w, m)
    ensures Births(t, c, n) == Births(s, c, |s.past|) && Approvals(t, c, n) >= Approvals(s, c, |s.past|)
  {
    if n == |s.past| {
      CountsPrefix(s, t, c, n);
    } else {
      NoBirths(s, t, c, rule, n - 1);
      assert rule(t.At(n - 1), t.past[n - 1]);
    }
  }

  /** The claim was read at t; nothing was created since; and either its credit was unspent then
      or an approval came since: one creation is covered. */
  lemma SpendsCredit(t: Sys, v: Sys, c: Key, mk: Key, m: Moment)
    requires Steps(t, v, Reads(AnyEvent)) && Ledger(t, c, mk) && Ledger(v, c, mk)
    requires Credit(c, mk, m.world) == 0 && Orderly(c, mk, m.world)
    requires var u := v.Log(m);
             Credit(c, mk, t.Now()) + Approvals(u, c, |u.past|) > Approvals(t, c, |t.past|)
    ensures Ledger(v.Log(m), c, mk)
  {
    hide Orderly, Credit;
    var u := v.Log(m);
    ReadsBearNone(t, v, c);
    CountsPrefix(v, u, c, |v.past|);
    assert Balanced(t, c, mk, |t.past|);
    assert u.At(|v.past|) == v.Now() && u.Now() == m.world && u.start == t.start;
    forall n | 0 <= n <= |u.past| ensures Balanced(u, c, mk, n) {
      if n < |u.past| {
        EarlierBalance(v, u, c, mk, n);
      }
    }
  }

  lemma ReadsBearNone(t: Sys, v: Sys, c: Key)
    requires Steps(t, v, Reads(AnyEvent))
    ensures Births(v, c, |v.past|) == Births(t, c, |t.past|) && Approvals(v, c, |v.past|) >= Approvals(t, c, |t.past|)
  {
    forall w, e | Reads(AnyEvent)(w, e) ensures !IsBirth(c, w, e) {
      ReadsBearNothing(c, w, e);
    }
    NoBirths(t, v, c, Reads(AnyEvent), |v.past|);
  }

  lemma NewManagerFulfils(c: Key, mk: Key, cl: Claim, domain: string, w: World, m: Moment)
    requires Orderly(c, mk, w) && mk == ManagerKey(c, cl) && mk !in w.managers
    requires m.world == w.(managers := w.managers[mk := NewManager(c, cl, domain)])
    ensures Orderly(c, mk, m.world) && Credit(c, mk, m.world) == 0
  {
    assert BelongsTo(c, mk, m.world.managers[mk]);
  }

  /** A create of mk that is sent now will be accepted: the server does not refuse it, and mk is
      missing by the time it is served. */
  ghost predicate Accepts(u: Sys, mk: Key) {
    u.Next().outcome != Refused && mk !in Turn(u).Now().managers
  }

  /** The claim is read at t, though its manager is there or that manager's removal is still being
      reported; then the manager is found missing, a create will be accepted, and nobody approves
      the claim in between. */
  ghost predicate Overspends(t: Sys, c: Key, mk: Key) {
    var (u, r) := GetManager(t, mk);
    && Fulfilled(c, mk, t.Now()) && r.NotFound? && Accepts(u, mk)
    && Approvals(Turn(u), c, |Turn(u).past|) == Approvals(t, c, |t.past|)
  }

  /** The claim reads as approved and its credit is already spent. */
  ghost predicate Overdraws(s: Sys, c: Key, mk: Key) {
    var (t, r) := GetClaim(s, c);
    r.Found? && r.value.phase == CLAIM_APPROVED && Overspends(t, c, mk)
  }

  lemma OwnCreation(t: Sys, c: Key, mk: Key, cl: Claim, domain: string)
    requires PlanOf(t.plan, Fair(c, mk)) && Ledger(t, c, mk)
    requires c in t.Now().claims && t.Now().claims[c] == cl && cl.phase == CLAIM_APPROVED
    requires !Overspends(t, c, mk)
    ensures Ledger(CreateClusterManager(t, c, cl, domain).0, c, mk)
  {
    hide GetManager, Ledger, PendingNotice, NewManager, Accepts, Turn;
    var env := Fair(c, mk);
    assert mk == ManagerKey(c, cl) && Orderly(c, mk, t.Now()) by { LedgerOrders(t, c, mk); }
    var (u, r) := GetManager(t, mk);
    GetManagerSteps(t, mk, env, Reads(env));
    ReadsKeepLedger(t, u, c, mk);
    if r.NotFound? {
      OwnSubmit(t, u, c, mk, cl, domain);
    }
  }

  lemma LedgerOrders(t: Sys, c: Key, mk: Key)
    requires Ledger(t, c, mk)
    ensures Orderly(c, mk, t.Now())
  {
  }

  lemma SubmitEntry(u: Sys, c: Key, mk: Key, cl: Claim, domain: string)
    requires mk == ManagerKey(c, cl)
    ensures var v, w := Turn(u), Submit(u, mk, NewManager(c, cl, domain)).0;
            && w.past != []
            && var m := w.past[|w.past| - 1];
               && w == v.Log(m) && w.At(|v.past|) == v.Now() && w.Now() == m.world
               && (IsBirth(c, v.Now(), m) <==> Accepts(u, mk)) && !IsApproval(c, v.Now(), m)
               && (if Accepts(u, mk) then
                     && mk !in v.Now().managers
                     && w.Now() == v.Now().(managers := v.Now().managers[mk := NewManager(c, cl, domain)])
                   else w.Now() == v.Now())
  {
    hide Turn;
    var v, w := Turn(u), Submit(u, mk, NewManager(c, cl, domain)).0;
    var m := w.past[|w.past| - 1];
    assert w == v.Log(m) && w.At(|v.past|) == v.Now();
    assert ClaimOf(mk, NewManager(c, cl, domain)) == c;
  }

  /** The create request, with what it adds to the counts. */
  lemma SubmitCounts(t: Sys, u: Sys, c: Key, mk: Key, cl: Claim, domain: string)
    requires PlanOf(u.plan, Fair(c, mk)) && Steps(t, u, Reads(Fair(c, mk))) && mk == ManagerKey(c, cl)
    ensures var v, w := Turn(u), Submit(u, mk, NewManager(c, cl, domain)).0;
            && Steps(t, v, Reads(Fair(c, mk))) && Steps(u, v, Reads(Fair(c, mk)))
            && Births(w, c, |w.past|) == Births(t, c, |t.past|) + (if Accepts(u, mk) then 1 else 0)
            && Approvals(w, c, |w.past|) == Approvals(v, c, |v.past|) >= Approvals(t, c, |t.past|)
  {
    hide Turn, Accepts, IsBirth, IsApproval, Submit, NewManager, Apply;
    var env := Fair(c, mk);
    var v := Turn(u);
    TurnSteps(u, env);
    StepsWeaken(u, v, Others(env), Reads(env));
    StepsJoin(t, u, v, Reads(env));
    FairIsAny(c, mk, t, v);
    ReadsBearNone(t, v, c);
    SubmitEntry(u, c, mk, cl, domain);
    LastEntryCounts(v, Submit(u, mk, NewManager(c, cl, domain)).0, c);
  }

  lemma LastEntryCounts(v: Sys, w: Sys, c: Key)
    requires w.past != [] && w == v.Log(w.past[|w.past| - 1])
    ensures var m := w.past[|w.past| - 1];
            && Births(w, c, |w.past|) == Births(v, c, |v.past|) + (if IsBirth(c, v.Now(), m) then 1 else 0)
            && Approvals(w, c, |w.past|) == Approvals(v, c, |v.past|) + (if IsApproval(c, v.Now(), m) then 1 else 0)
  {
    hide IsBirth, IsApproval;
    CountsPrefix(v, w, c, |v.past|);
    assert w.At(|v.past|) == v.Now() && |w.past| == |v.past| + 1;
  }

  lemma OwnSubmit(t: Sys, u: Sys, c: Key, mk: Key, cl: Claim, domain: string)
    requires PlanOf(u.plan, Fair(c, mk)) && Ledger(t, c, mk) && Ledger(u, c, mk)
    requires Steps(t, u, Reads(Fair(c, mk))) && mk == ManagerKey(c, cl) && Approved(c, t.Now())
    requires Fulfilled(c, mk, t.Now()) && Accepts(u, mk) ==>
               Approvals(Turn(u), c, |Turn(u).past|) != Approvals(t, c, |t.past|)
    ensures Ledger(Submit(u, mk, NewManager(c, cl, domain)).0, c, mk)
  {
    hide Ledger, NewManager, Orderly, Covered, Turn, Submit, Accepts, Fulfilled, Approved;
    SubmitCounts(t, u, c, mk, cl, domain);
    SubmitEntry(u, c, mk, cl, domain);
    var v, w := Turn(u), Submit(u, mk, NewManager(c, cl, domain)).0;
    ReadsKeepLedger(u, v, c, mk);
    LedgerOrders(v, c, mk);
    var m := w.past[|w.past| - 1];
    if !Accepts(u, mk) {
      IdleLedger(v, m, c, mk);
    } else {
      NewManagerFulfils(c, mk, cl, domain, v.Now(), m);
      FairIsAny(c, mk, t, v);
      SpendsCredit(t, v, c, mk, m);
    }
  }

  lemma IdleLedger(v: Sys, m: Moment, c: Key, mk: Key)
    requires Ledger(v, c, mk) && m.world == v.Now()
    ensures Ledger(v.Log(m), c, mk)
  {
    hide Ledger, Covered, Orderly;
    var rule: Rule := (x: World, y: Moment) => x == v.Now() && y == m;
    OneStep(v, m, rule);
    forall x, y | Orderly(c, mk, x) && rule(x, y) ensures Covered(c, mk, x, y) {
      IdleCovered(c, mk, x, y);
    }
    LedgerSteps(v, v.Log(m), c, mk, rule);
  }

  lemma IdleCovered(c: Key, mk: Key, w: World, m: Moment)
    requires Orderly(c, mk, w) && m.world == w
    ensures Covered(c, mk, w, m)
  {
  }

  /** A reconcile of the claim keeps the books unless it overdraws. */
  lemma OwnReconcile(s: Sys, c: Key, mk: Key, settings: Settings)
    requires PlanOf(s.plan, Fair(c, mk)) && Ledger(s, c, mk) && !Overdraws(s, c, mk)
    ensures Ledger(ReconcileClaim(s, c, settings).0, c, mk)
  {
    hide GetClaim, SendClaim, CreateClusterManager, Ledger, Covered, Overspends, Orderly;
    var env := Fair(c, mk);
    var (t, r) := GetClaim(s, c);
    GetClaimSteps(s, c, env, Reads(env));
    ReadsKeepLedger(s, t, c, mk);
    if r.Found? {
      var cl := r.value;
      if !settings.autoAdmit && cl.phase == "" {
        SendClaimSteps(t, c, cl, settings.domain, env);
        var rule := Claims(c, cl, settings.domain, env);
        forall w, m | Orderly(c, mk, w) && rule(w, m) ensures Covered(c, mk, w, m) {
          if Others(env)(w, m) {
            OthersCovered(c, mk, w, m);
          } else {
            AwaitCovered(c, mk, cl, settings.domain, w, m);
          }
        }
        LedgerSteps(t, SendClaim(t, c, Await(cl)).0, c, mk, rule);
      } else if cl.phase == CLAIM_APPROVED {
        OwnCreation(t, c, mk, cl, settings.domain);
      }
    }
  }

  /** A reconcile that reads the claim as approved creates more managers than the claim has credit
      for at that read and is approved since, if and only if it overdraws. */
  lemma OverdrawsExactly(s: Sys, c: Key, mk: Key, settings: Settings)
    requires PlanOf(s.plan, Fair(c, mk)) && Orderly(c, mk, s.Now())
    requires GetClaim(s, c).1.Found? && GetClaim(s, c).1.value.phase == CLAIM_APPROVED
    ensures var t, u := GetClaim(s, c).0, ReconcileClaim(s, c, settings).0;
            Births(u, c, |u.past|) - Births(t, c, |t.past|)
            > Credit(c, mk, t.Now()) + Approvals(u, c, |u.past|) - Approvals(t, c, |t.past|)
            <==> Overdraws(s, c, mk)
  {
    hide GetClaim, GetManager, Submit, NewManager, Fulfilled, Turn, Orderly, Accepts;
    var env := Fair(c, mk);
    var (t, r) := GetClaim(s, c);
    GetClaimSteps(s, c, env, Reads(env));
    OrderlyReads(s, t, c, mk);
    var cl := r.value;
    var (u, r2) := GetManager(t, mk);
    GetManagerSteps(t, mk, env, Reads(env));
    FairIsAny(c, mk, t, u);
    ReadsBearNone(t, u, c);
    assert ManagerKey(c, cl) == mk by { OrderlyMeans(c, mk, t.Now()); }
    assert Approved(c, t.Now());
    if r2.NotFound? {
      SubmitCounts(t, u, c, mk, cl, settings.domain);
    }
  }

  lemma OrderlyMeans(c: Key, mk: Key, w: World)
    requires Orderly(c, mk, w) && c in w.claims
    ensures ManagerKey(c, w.claims[c]) == mk
  {
  }

  lemma OrderlyReads(s: Sys, t: Sys, c: Key, mk: Key)
    requires Steps(s, t, Reads(Fair(c, mk))) && Orderly(c, mk, s.Now())
    ensures Orderly(c, mk, t.Now())
  {
    hide Apply;
    var inv := (w: World) => Orderly(c, mk, w);
    forall w, m | inv(w) && Reads(Fair(c, mk))(w, m) ensures inv(m.world) {
      if Others(Fair(c, mk))(w, m) {
        EventOrderly(c, mk, w, m.event);
      }
    }
    Throughout(s, t, Reads(Fair(c, mk)), inv, |t.past|);
  }

  // ---------------------------------------------------------------------------------------
  // Runs

  /** The others are fair, and no reconcile of c overdraws. */
  ghost predicate Handled(s: Sys, acts: seq<Act>, c: Key, mk: Key) {
    acts == []
    || var init, act := acts[..|acts| - 1], acts[|acts| - 1];
       && Handled(s, init, c, mk)
       && ActOf(act, Fair(c, mk))
       && (act.Reclaim? && act.claim == c ==>
             !Overdraws(Play(s, init).(plan := act.plan), c, mk))
  }

  lemma {:induction false} LedgerKept(s: Sys, acts: seq<Act>, c: Key, mk: Key)
    requires Ledger(s, c, mk) && Handled(s, acts, c, mk)
    ensures Ledger(Play(s, acts), c, mk)
  {
    hide Ledger, Overdraws, Fair;
    if acts != [] {
      var t := Play(s, acts[..|acts| - 1]);
      LedgerKept(s, acts[..|acts| - 1], c, mk);
      ActKeepsLedger(t, acts[|acts| - 1], c, mk);
    }
  }

  lemma Replan(t: Sys, plan: seq<Tick>, c: Key, mk: Key)
    requires Ledger(t, c, mk)
    ensures Ledger(t.(plan := plan), c, mk)
  {
    var s := t.(plan := plan);
    assert s.Now() == t.Now();
    forall n | 0 <= n <= |s.past| ensures Balanced(s, c, mk, n) {
      EarlierBalance(t, s, c, mk, n);
    }
  }

  lemma ActKeepsLedger(t: Sys, act: Act, c: Key, mk: Key)
    requires Ledger(t, c, mk) && ActOf(act, Fair(c, mk))
    requires act.Reclaim? && act.claim == c ==> !Overdraws(t.(plan := act.plan), c, mk)
    ensures Ledger(Perform(t, act), c, mk)
  {
    hide Ledger, Overdraws, Fair, ReconcileClaim, Reconcile, Orderly, Covered, Records;
    var env := Fair(c, mk);
    match act
    case Serve(Outside(events)) =>
      HappenSteps(t, events, env);
      StepsWeaken(t, Happen(t, events), Others(env), Reads(env));
      ReadsKeepLedger(t, Happen(t, events), c, mk);
    case Serve(Manage(k, remote, plan)) =>
      Replan(t, plan, c, mk);
      var s := t.(plan := plan);
      ReconcileRecords(s, k, remote, env);
      forall w, m | Orderly(c, mk, w) && Recording(env)(w, m) ensures Covered(c, mk, w, m) {
        RecordingCovered(c, mk, w, m);
      }
      LedgerSteps(s, Reconcile(s, k, remote).0, c, mk, Recording(env));
    case Reclaim(claim, settings, plan) =>
      Replan(t, plan, c, mk);
      var s := t.(plan := plan);
      assert s.Now() == t.Now();
      if claim == c {
        OwnReconcile(s, c, mk, settings);
      } else {
        ForeignReconcile(s, c, mk, claim, settings);
      }
  }

  /** Creation history: at every moment of every run of both controllers, with any faults and
      any interleaving, no more managers have been created for a claim than the claim had
      credit for at the start and has been approved since, even if other claims ask for the
      same cluster. */
  lemma CreationsNeverExceedApprovals(start: World, acts: seq<Act>, c: Key, mk: Key)
    requires Orderly(c, mk, start) && Handled(Sys(start, [], []), acts, c, mk)
    ensures var t := Play(Sys(start, [], []), acts);
            forall n | 0 <= n <= |t.past| :: Births(t, c, n) <= Credit(c, mk, start) + Approvals(t, c, n)
    ensures var t := Play(Sys(start, [], []), acts);
            !Approved(c, start) ==> forall n | 0 <= n <= |t.past| :: Births(t, c, n) <= Approvals(t, c, n)
  {
    hide Orderly, Handled, Play;
    var s := Sys(start, [], []);
    LedgerKept(s, acts, c, mk);
    var t := Play(s, acts);
    PlayGrows(s, acts);
    forall n | 0 <= n <= |t.past| ensures Births(t, c, n) <= Credit(c, mk, start) + Approvals(t, c, n) {
      assert Balanced(t, c, mk, n);
    }
  }

  // ---------------------------------------------------------------------------------------
  // Removals that are handled in time

  /** The event may make the manager disappear. */
  predicate CanRemove(mk: Key, e: Event) {
    || ((e.ManagerDeleted? || e.ManagerReleased? || e.ManagerPatched?) && e.key == mk)
    || (e.ForeignFinalizer? && !e.present && e.key == mk)
  }

  ghost function Firm(mk: Key): Env {
    (e: Event) => !CanRemove(mk, e)
  }

  /** Nobody takes our finalizer off the manager. */
  ghost function Fastened(mk: Key): Env {
    (e: Event) => e != ManagerReleased(mk) && !Patched(mk, e)
  }

  /** As a reconcile of c starts, earlier removals of its manager have been handled and none can
      happen while it is in flight; or the manager carries our finalizer and keeps it, so that a
      deletion requested in flight does not remove it. */
  ghost predicate InTime(s: Sys, c: Key, mk: Key) {
    || (!PendingNotice(c, mk, s.Now()) && PlanOf(s.plan, Firm(mk)))
    || (Holds(s.Now(), mk) && PlanOf(s.plan, Fastened(mk)))
  }

  /** Nothing is removed: no notice about mk appears and mk stays. */
  lemma EventRemovesNothing(c: Key, mk: Key, w: World, e: Event)
    requires NoGhosts(w) && !CanRemove(mk, e)
    ensures NoGhosts(Apply(w, e))
    ensures !PendingNotice(c, mk, w) ==> !PendingNotice(c, mk, Apply(w, e))
    ensures mk in w.managers ==> mk in Apply(w, e).managers
  {
    NoNewNotice(mk, w, e);
    NoNewGhosts(w, e);
    hide Apply, NoGhosts;
    forall i | 0 <= i < |Apply(w, e).gone| && Apply(w, e).gone[i].0 == mk ensures Apply(w, e).gone[i] in w.gone {
      assert Apply(w, e).gone[i] in Apply(w, e).gone;
    }
  }

  lemma NoNewGhosts(w: World, e: Event)
    requires NoGhosts(w)
    ensures NoGhosts(Apply(w, e))
  {
  }

  /** Every notice about mk was there before, and mk stays. */
  lemma NoNewNotice(mk: Key, w: World, e: Event)
    requires NoGhosts(w) && !CanRemove(mk, e)
    ensures forall x | x in Apply(w, e).gone && x.0 == mk :: x in w.gone
    ensures mk in w.managers ==> mk in Apply(w, e).managers
  {
  }

  /** A manager that is missing after a stretch of reads was missing before. */
  lemma MissingBefore(s: Sys, t: Sys, c: Key, mk: Key)
    requires Steps(s, t, Reads(Firm(mk))) && NoGhosts(s.Now())
    ensures NoGhosts(t.Now())
    ensures !PendingNotice(c, mk, s.Now()) ==> !PendingNotice(c, mk, t.Now())
    ensures mk in s.Now().managers ==> mk in t.Now().managers
  {
    hide PendingNotice, NoGhosts, CanRemove, Apply;
    var n, p := !PendingNotice(c, mk, s.Now()), mk in s.Now().managers;
    var inv := (w: World) =>
      NoGhosts(w) && (n ==> !PendingNotice(c, mk, w)) && (p ==> mk in w.managers);
    forall w, m | inv(w) && Reads(Firm(mk))(w, m) ensures inv(m.world) {
      if Others(Firm(mk))(w, m) {
        EventRemovesNothing(c, mk, w, m.event);
      }
    }
    Throughout(s, t, Reads(Firm(mk)), inv, |t.past|);
  }

  lemma HoldsThrough(s: Sys, t: Sys, mk: Key)
    requires Steps(s, t, Reads(Fastened(mk))) && Holds(s.Now(), mk)
    ensures Holds(t.Now(), mk)
  {
    hide Apply;
    var inv := (w: World) => Holds(w, mk);
    forall w, m | inv(w) && Reads(Fastened(mk))(w, m) ensures inv(m.world) {
      if Others(Fastened(mk))(w, m) {
        EventTouches(mk, w, m.event);
      }
    }
    Throughout(s, t, Reads(Fastened(mk)), inv, |t.past|);
  }

  /** A reconcile that starts in time does not overdraw. */
  lemma InTimeNeverOverdraws(s: Sys, c: Key, mk: Key)
    requires InTime(s, c, mk) && NoGhosts(s.Now())
    ensures !Overdraws(s, c, mk)
  {
    hide GetClaim, GetManager, PendingNotice, NoGhosts, Holds, Accepts;
    var t := GetClaim(s, c).0;
    var (u, r) := GetManager(t, mk);
    if Holds(s.Now(), mk) && PlanOf(s.plan, Fastened(mk)) {
      var env := Fastened(mk);
      GetClaimSteps(s, c, env, Reads(env));
      GetManagerSteps(t, mk, env, Reads(env));
      HoldsThrough(s, t, mk);
      HoldsThrough(t, u, mk);
      assert mk in u.Now().managers by { HoldsMeans(u.Now(), mk); }
    } else {
      var env := Firm(mk);
      GetClaimSteps(s, c, env, Reads(env));
      GetManagerSteps(t, mk, env, Reads(env));
      MissingBefore(s, t, c, mk);
      MissingBefore(t, u, c, mk);
    }
  }

  lemma HoldsMeans(w: World, k: Key)
    requires Holds(w, k)
    ensures k in w.managers
  {
  }

  /** The others are fair, and every reconcile of c starts in time. */
  ghost predicate HandledInTime(s: Sys, acts: seq<Act>, c: Key, mk: Key) {
    acts == []
    || var init, act := acts[..|acts| - 1], acts[|acts| - 1];
       && HandledInTime(s, init, c, mk)
       && ActOf(act, Fair(c, mk))
       && (act.Reclaim? && act.claim == c ==> InTime(Play(s, init).(plan := act.plan), c, mk))
  }

  lemma {:induction false} InTimeIsHandled(s: Sys, acts: seq<Act>, c: Key, mk: Key)
    requires Ledger(s, c, mk) && HandledInTime(s, acts, c, mk)
    ensures Handled(s, acts, c, mk)
  {
    hide Ledger, Overdraws, Fair, InTime, Play, NoGhosts;
    if acts != [] {
      var init, act := acts[..|acts| - 1], acts[|acts| - 1];
      InTimeIsHandled(s, init, c, mk);
      LedgerKept(s, init, c, mk);
      LedgerOrders(Play(s, init), c, mk);
      if act.Reclaim? && act.claim == c {
        var t := Play(s, init).(plan := act.plan);
        assert t.Now() == Play(s, init).Now();
        InTimeNeverOverdraws(t, c, mk);
      }
    }
  }

  /** The plain case: if every removal of the claim's manager has been handled before the claim is
      reconciled next and none happens while it is, or the manager keeps our finalizer, then at
      every moment of every run creations never exceed credit and approvals. */
  lemma HandledRemovalsNeverOverdraw(start: World, acts: seq<Act>, c: Key, mk: Key)
    requires Orderly(c, mk, start) && HandledInTime(Sys(start, [], []), acts, c, mk)
    ensures var t := Play(Sys(start, [], []), acts);
            forall n | 0 <= n <= |t.past| :: Births(t, c, n) <= Credit(c, mk, start) + Approvals(t, c, n)
  {
    hide Orderly, Handled, HandledInTime, Play;
    var s := Sys(start, [], []);
    assert Ledger(s, c, mk) by { FreshLedger(start, c, mk); }
    InTimeIsHandled(s, acts, c, mk);
    CreationsNeverExceedApprovals(start, acts, c, mk);
  }

  lemma FreshLedger(start: World, c: Key, mk: Key)
    requires Orderly(c, mk, start)
    ensures Ledger(Sys(start, [], []), c, mk)
  {
  }
}
