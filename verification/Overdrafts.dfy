/** How a claim gets a second manager without a second approval. */
module Overdrafts {
  import opened Api
  import opened Store
  import opened Safety
  import opened Claiming
  import opened Ledgers

  const CLAIM := Key("ns", "claim")
  const CLUSTER := Key("ns", "cluster")
  const WANTED := Claim(CLAIM_APPROVED, "", "cluster", map[], Spec("AWS", "v1.20.2", 3, 3), AwsSpec("", "", "", ""), 1)
  const MANUAL := Settings(false, "")

  /** An approved claim with its manager. */
  function Satisfied(): World {
    World(map[CLUSTER := NewManager(CLAIM, WANTED, "")], map[CLAIM := WANTED], map[], {}, [], 1)
  }

  lemma FulfilledOwesNothing()
    ensures Orderly(CLAIM, CLUSTER, Satisfied()) && Credit(CLAIM, CLUSTER, Satisfied()) == 0
  {
    assert BelongsTo(CLAIM, CLUSTER, Satisfied().managers[CLUSTER]);
  }

  const ORDER := NewManager(CLAIM, WANTED, "")
  const REMOVAL := [QUIET, Tick([ManagerDeleted(CLUSTER), NoticeDelivered], Served)]

  /** The store after the removal of the manager, and after the notice about it. */
  function Removed(): World {
    Satisfied().(managers := map[], gone := [(CLUSTER, ORDER.(deleting := true))])
  }

  function Noticed(): World {
    var cl := WANTED.(phase := CLAIM_CLUSTER_DELETED, reason := "Cluster가 삭제되었습니다.", revision := 2);
    World(map[], map[CLAIM := cl], map[], {}, [], 2)
  }

  lemma RemovalHappens()
    ensures Apply(Satisfied(), ManagerDeleted(CLUSTER)) == Removed()
    ensures Apply(Removed(), NoticeDelivered) == Noticed()
  {
    assert Satisfied().managers - {CLUSTER} == map[];
    assert Satisfied().claims[CLAIM := Noticed().claims[CLAIM]] == Noticed().claims;
    assert Removed().gone[1..] == [];
  }

  /** The manager is removed, and the removal handled, between the reconcile's read of the claim
      and its read of the manager: a second manager is created for a claim that by then is
      ClusterDeleted, without any approval. */
  lemma RemovalInFlightRecreates()
    ensures var t := Play(Sys(Satisfied(), [], []), [Reclaim(CLAIM, MANUAL, REMOVAL)]);
            && CLUSTER in t.Now().managers
            && CLAIM in t.Now().claims && t.Now().claims[CLAIM].phase == CLAIM_CLUSTER_DELETED
            && Births(t, CLAIM, |t.past|) == 1 && Approvals(t, CLAIM, |t.past|) == 0
    ensures Orderly(CLAIM, CLUSTER, Satisfied()) && Credit(CLAIM, CLUSTER, Satisfied()) == 0
  {
    hide Apply, CreateClusterManager;
    FulfilledOwesNothing();
    var s := Sys(Satisfied(), [], REMOVAL);
    assert Play(Sys(Satisfied(), [], []), []) == Sys(Satisfied(), [], []);
    assert Play(Sys(Satisfied(), [], []), [Reclaim(CLAIM, MANUAL, REMOVAL)]) == ReconcileClaim(s, CLAIM, MANUAL).0;
    var read := Called(ReadClaim(CLAIM), true, Satisfied());
    var t1 := Sys(Satisfied(), [read], REMOVAL[1..]);
    assert s.Next() == QUIET && Turn(s) == Sys(Satisfied(), [], REMOVAL[1..]);
    assert Turn(s).Log(read) == t1 && CLAIM in Satisfied().claims && Satisfied().claims[CLAIM] == WANTED;
    assert GetClaim(s, CLAIM) == (t1, Found(WANTED));
    var t := CreateClusterManager(t1, CLAIM, WANTED, "").0;
    RemovalLog(t1, t);
    RemovalCounts(t);
  }

  lemma RemovalLog(t1: Sys, t: Sys)
    requires t1 == Sys(Satisfied(), [Called(ReadClaim(CLAIM), true, Satisfied())], REMOVAL[1..])
    requires t == CreateClusterManager(t1, CLAIM, WANTED, "").0
    ensures var w3 := Noticed().(managers := map[CLUSTER := ORDER]);
            && t.start == Satisfied()
            && t.past == t1.past + [Happened(ManagerDeleted(CLUSTER), Removed()), Happened(NoticeDelivered, Noticed()),
                                    Called(ReadManager(CLUSTER), false, Noticed()),
                                    Called(CreateManager(CLUSTER), true, w3)]
  {
    hide Apply;
    var e1, e2 := ManagerDeleted(CLUSTER), NoticeDelivered;
    var s0 := t1.(plan := []);
    RemovalHappens();
    TwoEvents(s0, e1, e2);
    assert t1.plan[0] == REMOVAL[1] && t1.plan[1..] == [];
    assert Turn(t1) == s0.Log(Happened(e1, Removed())).Log(Happened(e2, Noticed()));
    var (t2, r2) := GetManager(t1, CLUSTER);
    assert r2 == NotFound && t2.plan == [];
    assert Noticed().managers[CLUSTER := ORDER] == map[CLUSTER := ORDER];
  }

  lemma RemovalCounts(t: Sys)
    requires t.start == Satisfied()
    requires t.past == [Called(ReadClaim(CLAIM), true, Satisfied()), Happened(ManagerDeleted(CLUSTER), Removed()),
                        Happened(NoticeDelivered, Noticed()), Called(ReadManager(CLUSTER), false, Noticed()),
                        Called(CreateManager(CLUSTER), true, Noticed().(managers := map[CLUSTER := ORDER]))]
    ensures CLUSTER in t.Now().managers
    ensures CLAIM in t.Now().claims && t.Now().claims[CLAIM].phase == CLAIM_CLUSTER_DELETED
    ensures Births(t, CLAIM, 5) == 1 && Approvals(t, CLAIM, 5) == 0
  {
    assert ClaimOf(CLUSTER, ORDER) == CLAIM;
    OneBirth(t);
  }

  lemma {:induction false} QuietSoFar(t: Sys, n: nat)
    requires n <= |t.past|
    requires forall i | 0 <= i < n :: !IsBirth(CLAIM, t.At(i), t.past[i]) && !IsApproval(CLAIM, t.At(i), t.past[i])
    ensures Births(t, CLAIM, n) == 0 && Approvals(t, CLAIM, n) == 0
  {
    hide IsBirth, IsApproval;
    if n > 0 { QuietSoFar(t, n - 1); }
  }

  lemma OneBirth(t: Sys)
    requires var n := |t.past| - 1;
             && n >= 0 && IsBirth(CLAIM, t.At(n), t.past[n])
             && (forall i | 0 <= i < n :: !IsBirth(CLAIM, t.At(i), t.past[i]))
             && (forall i | 0 <= i <= n :: !IsApproval(CLAIM, t.At(i), t.past[i]))
    ensures Births(t, CLAIM, |t.past|) == 1 && Approvals(t, CLAIM, |t.past|) == 0
  {
    hide IsBirth, IsApproval;
    QuietSoFar(t, |t.past| - 1);
  }

  /** The removal was never reported, because the handler's own update failed: the next
      reconcile of the claim creates a second manager. */
  lemma LostNoticeRecreates()
    ensures var acts := [Serve(Outside([ManagerDeleted(CLUSTER), NoticeLost(CLUSTER)])), Reclaim(CLAIM, MANUAL, [])];
            var t := Play(Sys(Satisfied(), [], []), acts);
            && CLUSTER in t.Now().managers
            && Births(t, CLAIM, |t.past|) == 1 && Approvals(t, CLAIM, |t.past|) == 0
    ensures Orderly(CLAIM, CLUSTER, Satisfied()) && Credit(CLAIM, CLUSTER, Satisfied()) == 0
  {
    hide Apply, CreateClusterManager;
    FulfilledOwesNothing();
    var e1, e2 := ManagerDeleted(CLUSTER), NoticeLost(CLUSTER);
    var a1, a2 := Serve(Outside([e1, e2])), Reclaim(CLAIM, MANUAL, []);
    var s := Sys(Satisfied(), [], []);
    var w2 := Removed().(gone := []);
    LossHappens();
    TwoEvents(s, e1, e2);
    var s2 := s.Log(Happened(e1, Removed())).Log(Happened(e2, w2));
    assert [a1, a2][..1] == [a1] && Play(s, []) == s && Play(s, [a1]) == s2;
    assert Play(s, [a1, a2]) == ReconcileClaim(s2, CLAIM, MANUAL).0;
    var t := CreateClusterManager(s2.Log(Called(ReadClaim(CLAIM), true, w2)), CLAIM, WANTED, "").0;
    assert t == ReconcileClaim(s2, CLAIM, MANUAL).0;
    RecreationLog(s2, t, w2, WANTED);
    LossCounts(t);
  }

  lemma LossHappens()
    ensures Apply(Satisfied(), ManagerDeleted(CLUSTER)) == Removed()
    ensures Apply(Removed(), NoticeLost(CLUSTER)) == Removed().(gone := [])
  {
    assert Satisfied().managers - {CLUSTER} == map[];
  }

  lemma LossCounts(t: Sys)
    requires t.start == Satisfied()
    requires var w2 := Removed().(gone := []);
             t.past == [Happened(ManagerDeleted(CLUSTER), Removed()), Happened(NoticeLost(CLUSTER), w2),
                        Called(ReadClaim(CLAIM), true, w2), Called(ReadManager(CLUSTER), false, w2),
                        Called(CreateManager(CLUSTER), true, w2.(managers := w2.managers[CLUSTER := ORDER]))]
    ensures CLUSTER in t.Now().managers && Births(t, CLAIM, 5) == 1 && Approvals(t, CLAIM, 5) == 0
  {
    assert ClaimOf(CLUSTER, ORDER) == CLAIM;
    OneBirth(t);
  }

  lemma RecreationLog(s2: Sys, t: Sys, w2: World, cl: Claim)
    requires s2.plan == [] && s2.Now() == w2 && ManagerKey(CLAIM, cl) !in w2.managers
    requires t == CreateClusterManager(s2.Log(Called(ReadClaim(CLAIM), true, w2)), CLAIM, cl, "").0
    ensures var mk := ManagerKey(CLAIM, cl);
            var w3 := w2.(managers := w2.managers[mk := NewManager(CLAIM, cl, "")]);
            && t.start == s2.start
            && t.past == s2.past + [Called(ReadClaim(CLAIM), true, w2), Called(ReadManager(mk), false, w2),
                                    Called(CreateManager(mk), true, w3)]
  {
  }

  /** The manager was relabelled before its removal, which is therefore reported to nobody. */
  lemma RelabelledRecreates()
    ensures var events := [ManagerRelabelled(CLUSTER, map[], map[]), ManagerDeleted(CLUSTER), NoticeDelivered];
            var t := Play(Sys(Satisfied(), [], []), [Serve(Outside(events)), Reclaim(CLAIM, MANUAL, [])]);
            CLUSTER in t.Now().managers && Births(t, CLAIM, |t.past|) == 1 && Approvals(t, CLAIM, |t.past|) == 0
    ensures Orderly(CLAIM, CLUSTER, Satisfied()) && Credit(CLAIM, CLUSTER, Satisfied()) == 0
  {
    hide Apply, CreateClusterManager;
    FulfilledOwesNothing();
    var e0, e1, e2 := ManagerRelabelled(CLUSTER, map[], map[]), ManagerDeleted(CLUSTER), NoticeDelivered;
    var a1, a2 := Serve(Outside([e0, e1, e2])), Reclaim(CLAIM, MANUAL, []);
    var s := Sys(Satisfied(), [], []);
    var w2 := Removed().(gone := []);
    RelabellingHappens();
    var s0 := s.Log(Happened(e0, Relabelled()));
    assert [e0, e1, e2][1..] == [e1, e2];
    assert Happen(s, [e0, e1, e2]) == Happen(s0, [e1, e2]);
    TwoEvents(s0, e1, e2);
    var s2 := s0.Log(Happened(e1, Orphaned())).Log(Happened(e2, w2));
    assert [a1, a2][..1] == [a1] && Play(s, []) == s && Play(s, [a1]) == s2;
    assert Play(s, [a1, a2]) == ReconcileClaim(s2, CLAIM, MANUAL).0;
    var t := CreateClusterManager(s2.Log(Called(ReadClaim(CLAIM), true, w2)), CLAIM, WANTED, "").0;
    assert t == ReconcileClaim(s2, CLAIM, MANUAL).0;
    RecreationLog(s2, t, w2, WANTED);
    RelabellingCounts(t);
  }

  function Relabelled(): World {
    Satisfied().(managers := map[CLUSTER := ORDER.(labels := map[], annotations := map[])])
  }

  function Orphaned(): World {
    Satisfied().(managers := map[],
                 gone := [(CLUSTER, ORDER.(labels := map[], annotations := map[], deleting := true))])
  }

  lemma RelabellingHappens()
    ensures Apply(Satisfied(), ManagerRelabelled(CLUSTER, map[], map[])) == Relabelled()
    ensures Apply(Relabelled(), ManagerDeleted(CLUSTER)) == Orphaned()
    ensures Apply(Orphaned(), NoticeDelivered) == Removed().(gone := [])
  {
    assert Satisfied().managers[CLUSTER := Relabelled().managers[CLUSTER]] == Relabelled().managers;
    assert Relabelled().managers - {CLUSTER} == map[];
    assert Orphaned().gone[1..] == [];
  }

  lemma RelabellingCounts(t: Sys)
    requires t.start == Satisfied()
    requires var w2 := Removed().(gone := []);
             t.past == [Happened(ManagerRelabelled(CLUSTER, map[], map[]), Relabelled()),
                        Happened(ManagerDeleted(CLUSTER), Orphaned()), Happened(NoticeDelivered, w2),
                        Called(ReadClaim(CLAIM), true, w2), Called(ReadManager(CLUSTER), false, w2),
                        Called(CreateManager(CLUSTER), true, w2.(managers := w2.managers[CLUSTER := ORDER]))]
    ensures CLUSTER in t.Now().managers && Births(t, CLAIM, 6) == 1 && Approvals(t, CLAIM, 6) == 0
  {
    assert ClaimOf(CLUSTER, ORDER) == CLAIM;
    OneBirth(t);
  }

  /** The approved claim was edited to ask for another cluster: it gets a second manager. */
  lemma RenamedRecreates()
    ensures var edit := ClaimEdited(CLAIM, "other", WANTED.spec, WANTED.aws);
            var t := Play(Sys(Satisfied(), [], []), [Serve(Outside([edit])), Reclaim(CLAIM, MANUAL, [])]);
            && CLUSTER in t.Now().managers && Key("ns", "other") in t.Now().managers
            && Births(t, CLAIM, |t.past|) == 1 && Approvals(t, CLAIM, |t.past|) == 0
    ensures Orderly(CLAIM, CLUSTER, Satisfied()) && Credit(CLAIM, CLUSTER, Satisfied()) == 0
  {
    hide Apply, CreateClusterManager;
    FulfilledOwesNothing();
    var e := ClaimEdited(CLAIM, "other", WANTED.spec, WANTED.aws);
    var a1, a2 := Serve(Outside([e])), Reclaim(CLAIM, MANUAL, []);
    var s := Sys(Satisfied(), [], []);
    RenamingHappens();
    var cl, w2 := Renamed().claims[CLAIM], Renamed();
    var s2 := s.Log(Happened(e, w2));
    assert [e][1..] == [] && Happen(s, [e]) == Happen(s2, []) == s2;
    assert [a1, a2][..1] == [a1] && Play(s, []) == s && Play(s, [a1]) == s2;
    assert Play(s, [a1, a2]) == ReconcileClaim(s2, CLAIM, MANUAL).0;
    var t := CreateClusterManager(s2.Log(Called(ReadClaim(CLAIM), true, w2)), CLAIM, cl, "").0;
    assert t == ReconcileClaim(s2, CLAIM, MANUAL).0;
    RecreationLog(s2, t, w2, cl);
    RenamingCounts(t);
  }

  function Renamed(): World {
    Satisfied().(claims := map[CLAIM := WANTED.(clusterName := "other", revision := 2)], revisions := 2)
  }

  lemma RenamingHappens()
    ensures Apply(Satisfied(), ClaimEdited(CLAIM, "other", WANTED.spec, WANTED.aws)) == Renamed()
  {
    assert Satisfied().claims[CLAIM := Renamed().claims[CLAIM]] == Renamed().claims;
  }

  lemma RenamingCounts(t: Sys)
    requires t.start == Satisfied()
    requires var w2, mk := Renamed(), Key("ns", "other");
             var second := NewManager(CLAIM, w2.claims[CLAIM], "");
             t.past == [Happened(ClaimEdited(CLAIM, "other", WANTED.spec, WANTED.aws), w2),
                        Called(ReadClaim(CLAIM), true, w2), Called(ReadManager(mk), false, w2),
                        Called(CreateManager(mk), true, w2.(managers := w2.managers[mk := second]))]
    ensures CLUSTER in t.Now().managers && Key("ns", "other") in t.Now().managers
    ensures Births(t, CLAIM, 4) == 1 && Approvals(t, CLAIM, 4) == 0
  {
    assert ClaimOf(Key("ns", "other"), NewManager(CLAIM, Renamed().claims[CLAIM], "")) == CLAIM;
    OneBirth(t);
  }
}
