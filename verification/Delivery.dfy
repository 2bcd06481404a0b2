/** From the claim to the machines: what a claim asks for is what the children of its manager
    carry, through both controllers. */
module Delivery {
  import opened Api
  import opened Naming
  import opened Store
  import opened Observation
  import opened Reconciling
  import opened Traces
  import opened Safety
  import opened Lifecycle
  import opened Wiring
  import opened Claiming

  /** Every claim for the manager mk asks for these values. */
  ghost predicate Asked(mk: Key, spec: Spec, aws: AwsSpec, w: World) {
    forall c | c in w.claims && ManagerKey(c, w.claims[c]) == mk ::
      w.claims[c].spec == spec && w.claims[c].aws == aws
  }

  /** The manager, if it exists, has the values asked for, and so does each of its children. */
  ghost predicate Delivered(mk: Key, spec: Spec, aws: AwsSpec, w: World) {
    Asked(mk, spec, aws, w) && Fits(mk, Carrying(mk, spec, aws), Exactly(spec, aws), w)
  }

  ghost function Delivering(mk: Key, spec: Spec, aws: AwsSpec): World -> bool {
    (w: World) => Delivered(mk, spec, aws, w)
  }

  /** Nobody edits the values of the manager or its children, and claims for mk ask for them. */
  ghost function NoEdits(mk: Key, spec: Spec, aws: AwsSpec): Env {
    (e: Event) =>
      && FittingEvents(mk, Carrying(mk, spec, aws), Exactly(spec, aws))(e)
      && ((e.ClaimAdded? || e.ClaimEdited?) && Key(e.key.namespace, e.clusterName) == mk ==>
            e.spec == spec && e.aws == aws)
  }

  lemma OthersDeliver(mk: Key, spec: Spec, aws: AwsSpec, w: World, m: Moment)
    requires Delivered(mk, spec, aws, w) && Others(NoEdits(mk, spec, aws))(w, m)
    ensures Delivered(mk, spec, aws, m.world)
  {
    OthersFit(mk, Carrying(mk, spec, aws), Exactly(spec, aws), w, m.event);
    OthersAsk(mk, spec, aws, w, m.event);
  }

  lemma OthersAsk(mk: Key, spec: Spec, aws: AwsSpec, w: World, e: Event)
    requires Asked(mk, spec, aws, w) && NoEdits(mk, spec, aws)(e)
    ensures Asked(mk, spec, aws, Apply(w, e))
  {
    hide FittingEvents;
    if !e.ClaimAdded? && !e.ClaimEdited? && !e.ClaimPhased? && !e.ClaimRemoved? && !e.NoticeDelivered? {
      OtherEventsIdle(w, e);
      hide Apply;
    }
  }

  lemma ClaimStepDelivers(mk: Key, spec: Spec, aws: AwsSpec, claim: Key, cl: Claim, domain: string, w: World, m: Moment)
    requires Delivered(mk, spec, aws, w) && ClaimStep(claim, cl, domain, w, m)
    requires ManagerKey(claim, cl) == mk ==> cl.spec == spec && cl.aws == aws
    ensures Delivered(mk, spec, aws, m.world)
  {
    hide IsChildOf, Carrying;
  }

  lemma ReclaimDelivers(s: Sys, claim: Key, settings: Settings, mk: Key, spec: Spec, aws: AwsSpec)
    requires PlanOf(s.plan, NoEdits(mk, spec, aws)) && Delivered(mk, spec, aws, s.Now())
    ensures Always(s, ReconcileClaim(s, claim, settings).0, Delivering(mk, spec, aws))
  {
    hide GetClaim, ReconcileClaim, Delivered;
    var env, inv := NoEdits(mk, spec, aws), Delivering(mk, spec, aws);
    var (t, r) := GetClaim(s, claim);
    ReconcileClaimSteps(s, claim, settings, env);
    GetClaimSteps(s, claim, env, Reads(env));
    forall w, m | inv(w) && Reads(env)(w, m) ensures inv(m.world) {
      if Others(env)(w, m) {
        OthersDeliver(mk, spec, aws, w, m);
      }
    }
    AlwaysFrom(s, t, Reads(env), inv);
    if r.Found? {
      var cl, u := r.value, ReconcileClaim(s, claim, settings).0;
      assert inv(t.At(|t.past|));
      if ManagerKey(claim, cl) == mk {
        DeliveredAsks(mk, spec, aws, t.Now(), claim);
      }
      var rule := Claims(claim, cl, settings.domain, env);
      forall w, m | inv(w) && rule(w, m) ensures inv(m.world) {
        if Others(env)(w, m) {
          OthersDeliver(mk, spec, aws, w, m);
        } else {
          ClaimStepDelivers(mk, spec, aws, claim, cl, settings.domain, w, m);
        }
      }
      AlwaysFrom(t, u, rule, inv);
      AlwaysJoin(s, t, u, inv);
    }
  }

  lemma DeliveredAsks(mk: Key, spec: Spec, aws: AwsSpec, w: World, c: Key)
    requires Delivered(mk, spec, aws, w) && c in w.claims && ManagerKey(c, w.claims[c]) == mk
    ensures w.claims[c].spec == spec && w.claims[c].aws == aws
  {
  }

  lemma WeakerPlan(plan: seq<Tick>, mk: Key, spec: Spec, aws: AwsSpec)
    requires PlanOf(plan, NoEdits(mk, spec, aws))
    ensures PlanOf(plan, FittingEvents(mk, Carrying(mk, spec, aws), Exactly(spec, aws)))
  {
  }

  lemma ServeDelivers(t: Sys, job: Job, mk: Key, spec: Spec, aws: AwsSpec)
    requires JobOf(job, NoEdits(mk, spec, aws)) && Delivered(mk, spec, aws, t.Now())
    requires job.Manage? && job.key == mk ==> Unread(t.(plan := job.plan), mk, job.remote)
    ensures Always(t, Do(t, job), Delivering(mk, spec, aws))
  {
    hide Reconcile, Unread, Fits, FittingEvents, Asked, Robust, IsChildOf, SameElsewhere;
    var env, inv := NoEdits(mk, spec, aws), Delivering(mk, spec, aws);
    var asks := (w: World) => Asked(mk, spec, aws, w);
    match job
    case Outside(events) =>
      HappenSteps(t, events, env);
      forall w, m | inv(w) && Others(env)(w, m) ensures inv(m.world) {
        OthersDeliver(mk, spec, aws, w, m);
      }
      AlwaysFrom(t, Happen(t, events), Others(env), inv);
    case Manage(k, remote, plan) =>
      var s, u := t.(plan := plan), Do(t, job);
      assert s.Now() == t.Now();
      WeakerPlan(plan, mk, spec, aws);
      assert FittingJob(t, job, mk, Carrying(mk, spec, aws), Exactly(spec, aws));
      CarryingRobust(mk, spec, aws);
      DoFits(t, job, mk, Carrying(mk, spec, aws), Exactly(spec, aws));
      ReconcileMinds(s, k, remote, env);
      forall w, m | asks(w) && Minds(k, env)(w, m) ensures asks(m.world) {
        if Others(env)(w, m) {
          OthersAsk(mk, spec, aws, w, m.event);
        } else {
          SameClaimsAsk(mk, spec, aws, k, w, m.world);
        }
      }
      AlwaysFrom(s, u, Minds(k, env), asks);
      forall i | |t.past| <= i <= |u.past| ensures inv(u.At(i)) {
        assert asks(u.At(i)) && Fitting(mk, Carrying(mk, spec, aws), Exactly(spec, aws))(u.At(i));
      }
  }

  lemma SameClaimsAsk(mk: Key, spec: Spec, aws: AwsSpec, k: Key, w: World, w': World)
    requires SameElsewhere(k, w, w') && Asked(mk, spec, aws, w)
    ensures Asked(mk, spec, aws, w')
  {
  }

  /** Nobody edits, and no reconcile of mk has read the remote version. */
  ghost predicate Unedited(s: Sys, acts: seq<Act>, mk: Key, spec: Spec, aws: AwsSpec) {
    acts == []
    || var init, act := acts[..|acts| - 1], acts[|acts| - 1];
       && Unedited(s, init, mk, spec, aws)
       && ActOf(act, NoEdits(mk, spec, aws))
       && (act.Serve? && act.job.Manage? && act.job.key == mk ==>
             Unread(Play(s, init).(plan := act.job.plan), mk, act.job.remote))
  }

  /** End to end: in every run of both controllers, with any faults and interleavings, at every
      moment, every existing child of mk carries the claim's replicas (as int32), version,
      region, key and instance types, and mk itself, once created, carries the claim's values,
      as long as nobody edits them and no reconcile has read the remote version. */
  lemma {:induction false} ClaimReachesChildren(s: Sys, acts: seq<Act>, mk: Key, spec: Spec, aws: AwsSpec)
    requires Delivered(mk, spec, aws, s.Now()) && Unedited(s, acts, mk, spec, aws)
    ensures Always(s, Play(s, acts), Delivering(mk, spec, aws)) && Delivered(mk, spec, aws, Play(s, acts).Now())
  {
    hide Delivered, ReconcileClaim, Do, NoEdits, Unread;
    if acts != [] {
      var init, act := acts[..|acts| - 1], acts[|acts| - 1];
      ClaimReachesChildren(s, init, mk, spec, aws);
      var t := Play(s, init);
      match act {
        case Serve(job) => ServeDelivers(t, job, mk, spec, aws);
        case Reclaim(claim, settings, plan) =>
          assert t.(plan := plan).Now() == t.Now();
          ReclaimDelivers(t.(plan := plan), claim, settings, mk, spec, aws);
      }
      AlwaysJoin(s, t, Perform(t, act), Delivering(mk, spec, aws));
      assert Delivering(mk, spec, aws)(Perform(t, act).At(|Perform(t, act).past|));
    } else {
      assert Delivering(mk, spec, aws)(s.At(|s.past|));
    }
  }

  /** And on into the reconcile that reads it: the manager carries the claim's values until that
      reconcile's deferred patch, the children to its end. */
  lemma ClaimOutlastsTheRead(s: Sys, acts: seq<Act>, mk: Key, remote: Remote, plan: seq<Tick>, spec: Spec, aws: AwsSpec)
    requires Delivered(mk, spec, aws, s.Now()) && Unedited(s, acts, mk, spec, aws)
    requires PlanOf(plan, NoEdits(mk, spec, aws))
    ensures var good, want := Carrying(mk, spec, aws), Exactly(spec, aws);
            var v := Play(s, acts).(plan := plan);
            var (t, r) := GetManager(v, mk);
            && Always(v, if r.Found? then Body(t, mk, r.value, remote).sys else t, Fitting(mk, good, want))
            && Always(v, Reconcile(v, mk, remote).0, KidsFitting(mk, good))
  {
    hide GetManager, Body, Reconcile, KidsFitting, Robust, Play, Fits;
    ClaimReachesChildren(s, acts, mk, spec, aws);
    var v := Play(s, acts).(plan := plan);
    assert v.Now() == Play(s, acts).Now();
    WeakerPlan(plan, mk, spec, aws);
    CarryingRobust(mk, spec, aws);
    ReadingReconcileFits(v, mk, remote, Carrying(mk, spec, aws), Exactly(spec, aws));
  }

  /** A store that has neither the manager nor any child of it is a place to start from. */
  lemma NothingThere(mk: Key, spec: Spec, aws: AwsSpec, w: World)
    requires Asked(mk, spec, aws, w) && mk !in w.managers
    requires forall ck | ck in w.children :: !IsChildOf(ck, mk)
    ensures Delivered(mk, spec, aws, w)
  {
    hide IsChildOf;
  }
}
