/** A reconcile of a claim, answer by answer: what a new claim becomes, what a refused update means,
    when nothing is written, and the manager that an approval is turned into. */
module Approving {
  import opened Api
  import opened Store
  import opened Traces
  import opened Claiming

  /** The claim with another phase and reason, under the next revision. */
  function Rephased(w: World, claim: Key, phase: string, reason: string): World
    requires claim in w.claims
  {
    var cl := w.claims[claim].(phase := phase, reason := reason, revision := w.revisions + 1);
    w.(claims := w.claims[claim := cl], revisions := w.revisions + 1)
  }

  /** Every plan, every setting: a claim that is missing, that cannot be read, that waits, or that
      has any phase but the empty one and Approved is left alone, and so is a new one if claims
      are admitted automatically. Only the failed read is reported. */
  lemma ClaimLeftAlone(s: Sys, claim: Key, settings: Settings)
    ensures var (t, r) := GetClaim(s, claim);
            !r.Found? || (r.value.phase != "Approved" && (settings.autoAdmit || r.value.phase != "")) ==>
              ReconcileClaim(s, claim, settings) == (t, Returned(Result(false, 0), r.Failed?))
  {
    hide GetClaim;
    var (t, r) := GetClaim(s, claim);
    match r {
      case NotFound => assert ReconcileClaim(s, claim, settings) == (t, Returned(ZERO, false));
      case Failed => assert ReconcileClaim(s, claim, settings) == (t, Returned(ZERO, true));
      case Found(c) =>
        if c.phase != CLAIM_APPROVED && (settings.autoAdmit || c.phase != "") {
          assert ReconcileClaim(s, claim, settings) == (t, Returned(ZERO, false));
        }
    }
  }

  /** Every plan: the one request about a new claim moves it to Awaiting if the claim is still the
      one that was read and the request is not refused, and otherwise changes nothing; the answer
      is an error unless the server confirmed it. */
  lemma NewClaimAwaits(s: Sys, claim: Key, settings: Settings)
    requires var r := GetClaim(s, claim).1; r.Found? && r.value.phase == "" && !settings.autoAdmit
    ensures var (t, r) := GetClaim(s, claim);
            var (u, a) := ReconcileClaim(s, claim, settings);
            var v := Turn(t); var w := v.Now();
            var current := claim in w.claims && w.claims[claim].revision == r.value.revision;
            && v.past < u.past && |u.past| == |v.past| + 1 && u.plan == v.plan
            && u.Now() == (if current && t.Next().outcome != Refused
                           then Rephased(w, claim, "Awaiting", "Waiting for amdin approval") else w)
            && a == Returned(Result(false, 0), !(current && t.Next().outcome == Served))
  {
    hide Turn, GetClaim;
  }

  /** Nobody else writes the claim. */
  ghost function LeavesClaim(claim: Key): Env {
    (e: Event) => (e.ClaimEdited? || e.ClaimPhased? || e.ClaimRemoved?) ==> e.key != claim
  }

  /** The claim is still cl; a removal changes approved claims only. */
  ghost function StillIs(claim: Key, cl: Claim): World -> bool {
    (w: World) => claim in w.claims && w.claims[claim] == cl
  }

  lemma EventLeavesClaim(claim: Key, cl: Claim, w: World, e: Event)
    requires StillIs(claim, cl)(w) && LeavesClaim(claim)(e) && cl.phase != CLAIM_APPROVED
    ensures StillIs(claim, cl)(Apply(w, e))
  {
    hide PutManager, WriteStatus;
    assert (e.ClaimEdited? || e.ClaimPhased? || e.ClaimRemoved?) ==> e.key != claim;
    forall key, m ensures PutManager(w, key, m).claims == w.claims { PutKeepsClaims(w, key, m); }
  }

  lemma PutKeepsClaims(w: World, key: Key, m: Manager)
    ensures PutManager(w, key, m).claims == w.claims
  {
  }

  lemma CalmTurnLeavesClaim(s: Sys, claim: Key, cl: Claim)
    requires Calm(s, LeavesClaim(claim)) && StillIs(claim, cl)(s.Now()) && cl.phase != CLAIM_APPROVED
    ensures StillIs(claim, cl)(Turn(s).Now()) && s.Next().outcome == Served
    ensures forall m :: Calm(Turn(s).Log(m), LeavesClaim(claim))
  {
    hide Apply;
    var env := LeavesClaim(claim);
    TurnSteps(s, env);
    forall w, m | StillIs(claim, cl)(w) && Others(env)(w, m) ensures StillIs(claim, cl)(m.world) {
      EventLeavesClaim(claim, cl, w, m.event);
    }
    Throughout(s, Turn(s), Others(env), StillIs(claim, cl), |Turn(s).past|);
    CalmTurn(s, env, Called(ReadClaim(claim), true, s.Now()));
    forall m ensures Calm(Turn(s).Log(m), env) {
      CalmTurn(s, env, m);
    }
  }

  /** A new claim is put on hold: without faults, and with nobody else writing it, the reconcile
      of a claim without a phase leaves it Awaiting, for the reason given, with all else in it and
      in the store as the others left it, and does not ask to run again. */
  lemma NewClaimIsHeld(s: Sys, claim: Key, cl: Claim, settings: Settings)
    requires Calm(s, LeavesClaim(claim)) && claim in s.Now().claims && s.Now().claims[claim] == cl
    requires cl.phase == "" && !settings.autoAdmit
    ensures var (u, a) := ReconcileClaim(s, claim, settings);
            var w := Turn(GetClaim(s, claim).0).Now();
            && GetClaim(s, claim).1 == Found(cl)
            && a == Returned(ZERO, false) && !a.AsksAgain()
            && claim in w.claims && w.claims[claim] == cl
            && u.Now() == Rephased(w, claim, "Awaiting", "Waiting for amdin approval")
            && claim in u.Now().claims
            && u.Now().claims[claim] == cl.(phase := "Awaiting", reason := "Waiting for amdin approval",
                                            revision := u.Now().revisions)
            && u.Now().managers == w.managers
  {
    hide Turn, Calm, ReconcileClaim;
    CalmTurnLeavesClaim(s, claim, cl);
    var (t, r) := GetClaim(s, claim);
    assert r == Found(cl) && StillIs(claim, cl)(t.Now()) && Calm(t, LeavesClaim(claim));
    CalmTurnLeavesClaim(t, claim, cl);
    NewClaimAwaits(s, claim, settings);
  }

  // ---------------------------------------------------------------------------------------
  // What an approval is turned into

  /** Every plan: an approved claim's manager is looked up under the claim's namespace and cluster
      name; if it is there nothing is written, if it is missing one creation is sent. The answer
      asks to run again at once, without an error, unless the manager was found or the server
      confirmed the creation. */
  lemma ApprovedIsServed(s: Sys, claim: Key, settings: Settings)
    requires var r := GetClaim(s, claim).1; r.Found? && r.value.phase == "Approved"
    ensures var (t, r) := GetClaim(s, claim);
            var mk := Key(claim.namespace, r.value.clusterName);
            var (t1, r1) := GetManager(t, mk);
            var (u, a) := ReconcileClaim(s, claim, settings);
            var v := Turn(t1); var w := v.Now();
            && (r1.Found? ==> u == t1 && a == Returned(Result(false, 0), false))
            && (r1.Failed? ==> u == t1 && a == Returned(Result(true, 0), false))
            && (r1.NotFound? ==>
                  && v.past < u.past && |u.past| == |v.past| + 1 && u.plan == v.plan
                  && u.Now() == (if mk !in w.managers && t1.Next().outcome != Refused
                                 then w.(managers := w.managers[mk := NewManager(claim, r.value, settings.domain)])
                                 else w)
                  && a == Returned(Result(!(mk !in w.managers && t1.Next().outcome == Served), 0), false))
  {
    hide Turn, GetClaim, GetManager, NewManager;
  }

  /** The new manager: of type created, labelled with its claim, with owner, creator and domain and
      no other annotation, with the claim's values, and with nothing reported yet. */
  lemma NewManagerCarries(claim: Key, cl: Claim, domain: string)
    ensures var m := NewManager(claim, cl, domain);
            && m.Type() == "created" && ClaimOf(ManagerKey(claim, cl), m) == claim
            && m.labels.Keys == {"clustermanager.cluster.sseung.com/cluster-type",
                                 "clustermanager.cluster.sseung.com/clc-name"}
            && m.annotations.Keys == {"owner", "creator", "clustermanager.cluster.sseung.com/domain"}
            && m.annotations["owner"] == (if "owner" in cl.annotations then cl.annotations["owner"] else "")
            && m.annotations["creator"] == (if "creator" in cl.annotations then cl.annotations["creator"] else "")
            && m.annotations["clustermanager.cluster.sseung.com/domain"] == domain
            && m.spec == cl.spec && m.aws == cl.aws && m.finalizers == {} && !m.deleting
            && m.status.phase == m.status.provider == m.status.endpoint == ""
            && !m.status.ready && !m.status.controlPlaneReady && m.status.masterRun == m.status.workerRun == 0
  {
  }

  // ---------------------------------------------------------------------------------------
  // What a removal is turned into

  /** The removal of a created manager moves the approved claim that it is labelled with to
      ClusterDeleted; any other removal, and any claim that is not approved, changes nothing. */
  lemma RemovalCloses(w: World, key: Key, m: Manager)
    ensures var claim := ClaimOf(key, m); var w' := ClusterGone(w, key, m);
            && (m.Type() == "created" && claim in w.claims && w.claims[claim].phase == "Approved" ==>
                  w' == Rephased(w, claim, "ClusterDeleted", "Cluster가 삭제되었습니다."))
            && (m.Type() != "created" || claim !in w.claims || w.claims[claim].phase != "Approved" ==> w' == w)
            && claim.namespace == key.namespace
            && claim.name == Lookup(m.labels, "clustermanager.cluster.sseung.com/clc-name")
  {
  }
}
