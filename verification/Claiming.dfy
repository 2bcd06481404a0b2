/** The ClusterClaim controller as functions on the store, and runs of the two controllers. */
module Claiming {
  import opened Api
  import opened Store
  import opened Reconciling
  import opened Traces
  import opened Safety
  import opened Lifecycle

  /** AutoAdmit, and the HC_DOMAIN environment variable. */
  datatype Settings = Settings(autoAdmit: bool, domain: string)

  function NewManager(claim: Key, c: Claim, domain: string): Manager {
    Manager(map[LABEL_CLUSTER_TYPE := TYPE_CREATED, LABEL_CLAIM := claim.name],
            map["owner" := Lookup(c.annotations, "owner"), "creator" := Lookup(c.annotations, "creator"),
                ANNOTATION_DOMAIN := domain],
            {}, false, c.spec, c.aws, NEW_STATUS)
  }

  function ManagerKey(claim: Key, c: Claim): Key {
    Key(claim.namespace, c.clusterName)
  }

  /** Get or create. */
  function CreateClusterManager(s: Sys, claim: Key, c: Claim, domain: string): (Sys, bool) {
    var (t, r) := GetManager(s, ManagerKey(claim, c));
    match r
    case NotFound => Submit(t, ManagerKey(claim, c), NewManager(claim, c, domain))
    case Failed => (t, false)
    case Found(_) => (t, true)
  }

  function Await(c: Claim): Claim {
    c.(phase := CLAIM_AWAITING, reason := "Waiting for amdin approval")
  }

  function ReconcileClaim(s: Sys, claim: Key, settings: Settings): (Sys, Answer) {
    var (t, r) := GetClaim(s, claim);
    match r
    case NotFound => (t, Returned(ZERO, false))
    case Failed => (t, Returned(ZERO, true))
    case Found(c) =>
      if !settings.autoAdmit && c.phase == "" then
        var (u, ok) := SendClaim(t, claim, Await(c));
        (u, Returned(ZERO, !ok))
      else if c.phase == CLAIM_APPROVED then
        var (u, ok) := CreateClusterManager(t, claim, c, settings.domain);
        (u, Returned(if ok then ZERO else REQUEUE, false))
      else (t, Returned(ZERO, false))
  }

  function ClaimOf(key: Key, m: Manager): Key {
    Key(key.namespace, Lookup(m.labels, LABEL_CLAIM))
  }

  /** The watch on the removal of managers. */
  function OnManagerRemoved(s: Sys, key: Key, m: Manager): Sys {
    if m.Type() != TYPE_CREATED then s
    else
      var (t, r) := GetClaim(s, ClaimOf(key, m));
      if r.Found? && r.value.phase == CLAIM_APPROVED then
        SendClaim(t, ClaimOf(key, m),
                  r.value.(phase := CLAIM_CLUSTER_DELETED, reason := "Cluster가 삭제되었습니다.")).0
      else t
  }

  /** Left alone, the handler does what the event "notice delivered" does to the claims. */
  lemma HandlerIsClusterGone(s: Sys, key: Key, m: Manager)
    requires s.plan == []
    ensures OnManagerRemoved(s, key, m).Now() == ClusterGone(s.Now(), key, m)
  {
    if m.Type() == TYPE_CREATED {
      var (t, r) := GetClaim(s, ClaimOf(key, m));
      assert t.Now() == s.Now() && t.plan == [];
    }
  }

  // ---------------------------------------------------------------------------------------
  // The steps of the claim controller

  /** What a reconcile of a claim does to the store, once it has read the claim as cl. */
  ghost predicate ClaimStep(claim: Key, cl: Claim, domain: string, w: World, m: Moment) {
    || IsRead(w, m)
    || (&& m.Called? && m.call == UpdateClaim(claim) && cl.phase == ""
        && (m.world == w
            || (claim in w.claims
                && m.world == PutClaim(w, claim,
                                       w.claims[claim].(phase := CLAIM_AWAITING, reason := Await(cl).reason)))))
    || (&& m.Called? && m.call == CreateManager(ManagerKey(claim, cl)) && cl.phase == CLAIM_APPROVED
        && (m.world == w
            || (ManagerKey(claim, cl) !in w.managers
                && m.world == w.(managers := w.managers[ManagerKey(claim, cl) := NewManager(claim, cl, domain)]))))
  }

  ghost function Claims(claim: Key, cl: Claim, domain: string, env: Env): Rule {
    (w: World, m: Moment) => Others(env)(w, m) || ClaimStep(claim, cl, domain, w, m)
  }

  lemma GetClaimSteps(s: Sys, k: Key, env: Env, rule: Rule)
    requires PlanOf(s.plan, env) && Includes(rule, env)
    requires forall w, m :: IsRead(w, m) ==> rule(w, m)
    ensures var (t, r) := GetClaim(s, k);
            && Steps(s, t, rule) && PlanOf(t.plan, env)
            && (r.Found? ==> k in t.Now().claims && t.Now().claims[k] == r.value)
  {
    var t, r := Turn(s), GetClaim(s, k).1;
    var m := Called(ReadClaim(k), r.Found?, t.Now());
    assert IsRead(t.Now(), m);
    RequestSteps(s, m, env, rule);
  }

  lemma SendClaimSteps(s: Sys, claim: Key, cl: Claim, domain: string, env: Env)
    requires PlanOf(s.plan, env) && cl.phase == ""
    ensures var t := SendClaim(s, claim, Await(cl)).0;
            Steps(s, t, Claims(claim, cl, domain, env)) && PlanOf(t.plan, env)
  {
    var t := SendClaim(s, claim, Await(cl)).0;
    var m := t.past[|t.past| - 1];
    assert t == Turn(s).Log(m);
    assert ClaimStep(claim, cl, domain, Turn(s).Now(), m);
    RequestSteps(s, m, env, Claims(claim, cl, domain, env));
  }

  lemma SubmitSteps(s: Sys, claim: Key, cl: Claim, domain: string, env: Env)
    requires PlanOf(s.plan, env) && cl.phase == CLAIM_APPROVED
    ensures var t := Submit(s, ManagerKey(claim, cl), NewManager(claim, cl, domain)).0;
            Steps(s, t, Claims(claim, cl, domain, env)) && PlanOf(t.plan, env)
  {
    var t := Submit(s, ManagerKey(claim, cl), NewManager(claim, cl, domain)).0;
    var m := t.past[|t.past| - 1];
    assert t == Turn(s).Log(m);
    assert ClaimStep(claim, cl, domain, Turn(s).Now(), m);
    RequestSteps(s, m, env, Claims(claim, cl, domain, env));
  }

  lemma CreateManagerSteps(s: Sys, claim: Key, cl: Claim, domain: string, env: Env)
    requires PlanOf(s.plan, env) && cl.phase == CLAIM_APPROVED
    ensures var t := CreateClusterManager(s, claim, cl, domain).0;
            Steps(s, t, Claims(claim, cl, domain, env)) && PlanOf(t.plan, env)
  {
    hide GetManager, Submit, NewManager;
    var rule := Claims(claim, cl, domain, env);
    var (t, r) := GetManager(s, ManagerKey(claim, cl));
    GetManagerSteps(s, ManagerKey(claim, cl), env, rule);
    if r.NotFound? {
      SubmitSteps(t, claim, cl, domain, env);
      StepsJoin(s, t, Submit(t, ManagerKey(claim, cl), NewManager(claim, cl, domain)).0, rule);
    }
  }

  /** Whatever the plan: a reconcile reads its claim, and from then on only moves that claim to
      Awaiting or creates the manager that the claim asked for when it was read. */
  lemma ReconcileClaimSteps(s: Sys, claim: Key, settings: Settings, env: Env)
    requires PlanOf(s.plan, env)
    ensures var (t, r) := GetClaim(s, claim);
            var u := ReconcileClaim(s, claim, settings).0;
            && Steps(s, t, Reads(env)) && PlanOf(t.plan, env)
            && (r.Found? ==> Steps(t, u, Claims(claim, r.value, settings.domain, env)))
            && (!r.Found? ==> u == t)
  {
    hide GetClaim, SendClaim, CreateClusterManager;
    var (t, r) := GetClaim(s, claim);
    GetClaimSteps(s, claim, env, Reads(env));
    if r.Found? {
      if !settings.autoAdmit && r.value.phase == "" {
        SendClaimSteps(t, claim, r.value, settings.domain, env);
      } else if r.value.phase == CLAIM_APPROVED {
        CreateManagerSteps(t, claim, r.value, settings.domain, env);
      }
    }
  }

  /** A reconcile of a claim that was approved when it was read does not end quietly without a
      manager: it asks to run again, or the manager asked for existed at some moment of it. */
  lemma ApprovedNeverParks(s: Sys, claim: Key, settings: Settings)
    ensures var (t, r) := GetClaim(s, claim);
            var (u, answer) := ReconcileClaim(s, claim, settings);
            && (r.Failed? ==> answer.AsksAgain())
            && (r.Found? && r.value.phase == CLAIM_APPROVED && !answer.AsksAgain() ==>
                  && Grows(t, u)
                  && exists i | |t.past| <= i <= |u.past| :: ManagerKey(claim, r.value) in u.At(i).managers)
  {
    hide GetClaim, Turn;
    var (t, r) := GetClaim(s, claim);
    var (u, answer) := ReconcileClaim(s, claim, settings);
    if r.Found? && r.value.phase == CLAIM_APPROVED && !answer.AsksAgain() {
      assert PlanOf(s.plan, AnyEvent);
      ReconcileClaimSteps(s, claim, settings, AnyEvent);
      var mk := ManagerKey(claim, r.value);
      assert mk in u.At(|u.past|).managers;
    }
  }

  // ---------------------------------------------------------------------------------------
  // The removal handler is atomic

  /** Every write of a claim gets a new revision. */
  ghost predicate Versioned(w: World) {
    forall c | c in w.claims :: w.claims[c].revision <= w.revisions
  }

  /** At this moment the claim, if it still has the revision of cl, still is cl. */
  ghost predicate Unmoved(claim: Key, cl: Claim, w: World) {
    Versioned(w) && cl.revision <= w.revisions
    && (claim in w.claims && w.claims[claim].revision == cl.revision ==> w.claims[claim] == cl)
  }

  /** All that an event does to the claims is to write one under a new revision, or to remove one. */
  ghost predicate ClaimsMove(w: World, w': World) {
    || (w'.claims == w.claims && w'.revisions == w.revisions)
    || (exists key | key in w'.claims :: w'.claims == w.claims[key := w'.claims[key]]
                                         && w'.claims[key].revision == w'.revisions == w.revisions + 1)
    || (exists key :: w'.claims == w.claims - {key} && w'.revisions == w.revisions)
  }

  lemma PutMoves(w: World, w0: World, key: Key, c: Claim)
    requires w.claims == w0.claims && w.revisions == w0.revisions
    ensures ClaimsMove(w0, PutClaim(w, key, c))
  {
    var c' := c.(revision := w.revisions + 1);
    assert PutClaim(w, key, c).claims == w0.claims[key := c'] && key in w0.claims[key := c'];
  }

  lemma EventMoves(w: World, e: Event)
    ensures ClaimsMove(w, Apply(w, e))
  {
    hide ClaimsMove, PutClaim;
    match e
    case ClaimAdded(key, clusterName, annotations, spec, aws) =>
      PutMoves(w, w, key, Claim("", "", clusterName, annotations, spec, aws, 0));
      NoMove(w, w);
    case ClaimEdited(key, clusterName, spec, aws) =>
      if key in w.claims {
        PutMoves(w, w, key, w.claims[key].(clusterName := clusterName, spec := spec, aws := aws));
      }
      NoMove(w, w);
    case ClaimPhased(key, phase, reason) =>
      if key in w.claims {
        PutMoves(w, w, key, w.claims[key].(phase := phase, reason := reason));
      }
      NoMove(w, w);
    case ClaimRemoved(key) =>
      Removes(w, key);
    case NoticeDelivered =>
      NoMove(w, w);
      if w.gone != [] {
        NoticeMoves(w);
      }
    case _ =>
      OtherEventsIdle(w, e);
      NoMove(w, Apply(w, e));
  }

  lemma OtherEventsIdle(w: World, e: Event)
    requires !e.ClaimAdded? && !e.ClaimEdited? && !e.ClaimPhased? && !e.ClaimRemoved? && !e.NoticeDelivered?
    ensures Apply(w, e).claims == w.claims && Apply(w, e).revisions == w.revisions
  {
  }

  lemma NoticeMoves(w: World)
    requires w.gone != []
    ensures ClaimsMove(w, Apply(w, NoticeDelivered))
  {
    hide ClaimsMove, PutClaim;
    var w1, key, m := w.(gone := w.gone[1..]), w.gone[0].0, w.gone[0].1;
    var claim := Key(key.namespace, Lookup(m.labels, LABEL_CLAIM));
    NoMove(w, w1);
    if claim in w.claims {
      PutMoves(w1, w, claim, w.claims[claim].(phase := CLAIM_CLUSTER_DELETED, reason := "Cluster가 삭제되었습니다."));
    }
  }

  lemma NoMove(w: World, w': World)
    requires w'.claims == w.claims && w'.revisions == w.revisions
    ensures ClaimsMove(w, w')
  {
  }

  lemma Removes(w: World, key: Key)
    ensures ClaimsMove(w, w.(claims := w.claims - {key}))
  {
  }

  lemma MoveVersions(w: World, w': World)
    requires Versioned(w) && ClaimsMove(w, w')
    ensures Versioned(w')
  {
  }

  lemma EventVersions(w: World, e: Event)
    requires Versioned(w)
    ensures Versioned(Apply(w, e))
  {
    hide Apply;
    EventMoves(w, e);
    MoveVersions(w, Apply(w, e));
  }

  lemma EventKeepsUnmoved(claim: Key, cl: Claim, w: World, e: Event)
    requires Unmoved(claim, cl, w)
    ensures Unmoved(claim, cl, Apply(w, e))
  {
    hide Apply;
    EventMoves(w, e);
    MoveVersions(w, Apply(w, e));
  }

  /** Whatever happens while it runs, the handler either writes nothing or does, in one step,
      what the delivery of the notice means for the claims at that very moment. */
  lemma HandlerIsAtomic(s: Sys, key: Key, m: Manager)
    requires Versioned(s.Now())
    ensures var t := OnManagerRemoved(s, key, m);
            && Grows(s, t)
            && forall i | |s.past| <= i < |t.past| && t.past[i].Called? ::
                 t.past[i].world == t.At(i) || t.past[i].world == ClusterGone(t.At(i), key, m)
  {
    hide Turn, ClusterGone;
    if m.Type() == TYPE_CREATED {
      assert PlanOf(s.plan, AnyEvent);
      var claim := ClaimOf(key, m);
      var (t, r) := GetClaim(s, claim);
      GetClaimSteps(s, claim, AnyEvent, Reads(AnyEvent));
      HandlerReads(s, t);
      if r.Found? && r.value.phase == CLAIM_APPROVED {
        HandlerWrites(s, t, key, m, r.value);
      }
    }
  }

  lemma HandlerReads(s: Sys, t: Sys)
    requires Steps(s, t, Reads(AnyEvent)) && Versioned(s.Now())
    ensures Versioned(t.Now())
    ensures forall i | |s.past| <= i < |t.past| && t.past[i].Called? :: t.past[i].world == t.At(i)
  {
    hide Apply;
    forall w, o | Versioned(w) && Reads(AnyEvent)(w, o) ensures Versioned(o.world) {
      if Others(AnyEvent)(w, o) {
        EventVersions(w, o.event);
      } else {
        assert o.world == w;
      }
    }
    Throughout(s, t, Reads(AnyEvent), Versioned, |t.past|);
    forall i | |s.past| <= i < |t.past| && t.past[i].Called? ensures t.past[i].world == t.At(i) {
      assert Reads(AnyEvent)(t.At(i), t.past[i]);
      assert !Others(AnyEvent)(t.At(i), t.past[i]);
      assert IsRead(t.At(i), t.past[i]);
    }
  }

  lemma HandlerWrites(s: Sys, t: Sys, key: Key, m: Manager, cl: Claim)
    requires Grows(s, t) && Versioned(t.Now())
    requires m.Type() == TYPE_CREATED && cl.phase == CLAIM_APPROVED
    requires ClaimOf(key, m) in t.Now().claims && t.Now().claims[ClaimOf(key, m)] == cl
    requires forall i | |s.past| <= i < |t.past| && t.past[i].Called? :: t.past[i].world == t.At(i)
    ensures var gone := cl.(phase := CLAIM_CLUSTER_DELETED, reason := "Cluster가 삭제되었습니다.");
            var u := SendClaim(t, ClaimOf(key, m), gone).0;
            && Grows(s, u)
            && forall i | |s.past| <= i < |u.past| && u.past[i].Called? ::
                 u.past[i].world == u.At(i) || u.past[i].world == ClusterGone(u.At(i), key, m)
  {
    var claim := ClaimOf(key, m);
    var v := Turn(t);
    assert PlanOf(t.plan, AnyEvent);
    TurnSteps(t, AnyEvent);
    var inv := (w: World) => Unmoved(claim, cl, w);
    forall w, o | inv(w) && Others(AnyEvent)(w, o) ensures inv(o.world) {
      EventKeepsUnmoved(claim, cl, w, o.event);
    }
    Throughout(t, v, Others(AnyEvent), inv, |v.past|);
    var u := SendClaim(t, claim, cl.(phase := CLAIM_CLUSTER_DELETED, reason := "Cluster가 삭제되었습니다.")).0;
    assert u == v.Log(u.past[|v.past|]);
    forall i | |t.past| <= i < |v.past| ensures u.past[i].Happened? {
      assert u.past[i] == v.past[i] && Others(AnyEvent)(v.At(i), v.past[i]);
    }
    assert Unmoved(claim, cl, v.Now());
    assert u.past[|v.past|].world == v.Now() || u.past[|v.past|].world == ClusterGone(v.Now(), key, m);
    forall i | |s.past| <= i < |u.past| && u.past[i].Called?
      ensures u.past[i].world == u.At(i) || u.past[i].world == ClusterGone(u.At(i), key, m)
    {
      if i < |t.past| {
        assert u.past[i] == t.past[i] && u.At(i) == t.At(i);
      } else if i == |v.past| {
        assert u.At(i) == v.Now();
      }
    }
  }

  // ---------------------------------------------------------------------------------------
  // Runs of both controllers

  datatype Act =
    | Serve(job: Job)
    | Reclaim(claim: Key, settings: Settings, plan: seq<Tick>)

  function Perform(s: Sys, act: Act): Sys {
    match act
    case Serve(job) => Do(s, job)
    case Reclaim(claim, settings, plan) => ReconcileClaim(s.(plan := plan), claim, settings).0
  }

  function Play(s: Sys, acts: seq<Act>): Sys {
    if acts == [] then s else Perform(Play(s, acts[..|acts| - 1]), acts[|acts| - 1])
  }

  ghost predicate ActOf(act: Act, env: Env) {
    match act
    case Serve(job) => JobOf(job, env)
    case Reclaim(_, _, plan) => PlanOf(plan, env)
  }

  lemma PerformGrows(s: Sys, act: Act)
    ensures Grows(s, Perform(s, act))
  {
    hide Reconcile, ReconcileClaim, GetClaim;
    match act
    case Serve(Outside(events)) => HappenSteps(s, events, AnyEvent);
    case Serve(Manage(k, remote, plan)) =>
      var t := s.(plan := plan);
      assert PlanOf(plan, AnyEvent);
      ReconcileMinds(t, k, remote, AnyEvent);
    case Reclaim(claim, settings, plan) =>
      assert PlanOf(plan, AnyEvent);
      ReconcileClaimSteps(s.(plan := plan), claim, settings, AnyEvent);
  }

  lemma {:induction false} PlayGrows(s: Sys, acts: seq<Act>)
    ensures Grows(s, Play(s, acts))
  {
    hide Perform;
    if acts != [] {
      PlayGrows(s, acts[..|acts| - 1]);
      PerformGrows(Play(s, acts[..|acts| - 1]), acts[|acts| - 1]);
    }
  }
}
