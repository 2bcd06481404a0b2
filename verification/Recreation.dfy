/** Why the phase order needs its condition: the deferred patch carries neither a uid nor a
    resourceVersion, so it also lands on a manager that replaced the one that was read. */
module Recreation {
  import opened Api
  import opened Store
  import opened Observation
  import opened Reconciling
  import opened Traces
  import opened Safety
  import opened Lifecycle

  const K := Key("ns", "c")
  const SPEC := Spec("AWS", "v1", 1, 1)
  const AWS := AwsSpec("", "", "", "")
  const NOTES := map["a" := "b"]

  /** A manager that another controller's finalizer holds back from being deleted. */
  const HELD := Manager(map[], NOTES, {"x"}, true, SPEC, AWS, NEW_STATUS)

  const BEFORE := World(map[K := HELD], map[], map[], {}, [], 0)

  /** Between the read and the patch, the manager goes away and a new one appears. */
  const RACE := [QUIET,
                 Tick([ForeignFinalizer(K, "x", false), ManagerAdded(K, map[], NOTES, {}, SPEC, AWS)], Served)]

  const REMOTE := Remote(true, true, Some(Config(true, "v1", None)), Some([]), Some("ok"), "s")

  /** The new manager, alive, with the phase of the old one. */
  const MIXED := Manager(map[], NOTES, {"x", FINALIZER}, false, SPEC, AWS, NEW_STATUS.(phase := PHASE_DELETING))

  lemma ReadStep(s: Sys)
    requires s.plan == RACE && s.Now() == BEFORE
    ensures var (t, r) := GetManager(s, K);
            t.plan == RACE[1..] && t.Now() == BEFORE && r == Found(HELD)
  {
    assert Happen(s.(plan := s.plan[1..]), []) == s.(plan := s.plan[1..]);
  }

  lemma RaceStep(s: Sys)
    requires s.plan == RACE[1..] && s.Now() == BEFORE
    ensures Turn(s).Now().managers == map[K := HELD.(finalizers := {}, deleting := false)] && Turn(s).plan == []
  {
    var e1, e2 := RACE[1].events[0], RACE[1].events[1];
    var s0 := s.(plan := []);
    var w1 := Apply(BEFORE, e1);
    var s1 := s0.Log(Happened(e1, w1));
    var s2 := s1.Log(Happened(e2, Apply(w1, e2)));
    assert s0.Now() == BEFORE && RACE[1].events[1..] == [e2] && [e2][1..] == [];
    assert Happen(s0, RACE[1].events) == Happen(s1, [e2]) == Happen(s2, []) == s2;
  }

  lemma FirstReconcile(s: Sys, remote: Remote)
    requires s.plan == RACE && s.Now() == BEFORE
    ensures var t := Reconcile(s, K, remote).0;
            K in t.Now().managers && t.Now().managers[K] == MIXED && |t.past| > 0
  {
    hide Turn, GetManager, RunPhases;
    ReadStep(s);
    var t := GetManager(s, K).0;
    var c := HELD.(finalizers := {"x", FINALIZER});
    assert Body(t, K, HELD, remote) == Out(t, c, Returned(ZERO, false)) by {
      assert {"x"} + {FINALIZER} == {"x", FINALIZER} && FINALIZER !in {"x"};
    }
    var after := c.(status := NEW_STATUS.(phase := PHASE_DELETING));
    assert WithPhase(c) == after;
    RaceStep(t);
    var u := SendMain(t, K, HELD, after).0;
    assert MergeMap(NOTES, NOTES, NOTES) == NOTES;
    assert u.Now().managers == map[K := c.(deleting := false)] && u.plan == [];
    QuietTurn(u);
  }

  /** The latest step took K from Deleting to Provisioned. */
  ghost predicate Regressed(s: Sys, t: Sys) {
    && |t.past| > |s.past| && K in t.Now().managers
    && t.Now().managers[K].status.phase == PHASE_PROVISIONED
    && K in t.At(|t.past| - 1).managers
    && t.At(|t.past| - 1).managers[K].status.phase == PHASE_DELETING
  }

  lemma SecondReconcile(s: Sys)
    requires s.plan == [] && K in s.Now().managers && s.Now().managers[K] == MIXED
    ensures Regressed(s, Reconcile(s, K, REMOTE).0)
  {
    hide Turn, RunPhases, Tally, Observe, MergeMap, MergeSpec;
    QuietTurn(s);
    var t := GetManager(s, K).0;
    QuietObserve(t);
    var c := Body(t, K, MIXED, REMOTE).clm;
    var after := WithPhase(c);
    QuietTurn(t);
    var u := SendMain(t, K, MIXED, after).0;
    assert u.plan == [] && K in u.Now().managers && u.Now().managers[K].status == MIXED.status;
    QuietTurn(u);
  }

  lemma QuietObserve(t: Sys)
    ensures var o := Body(t, K, MIXED, REMOTE);
            && o.sys == t && o.clm.status.ready && o.clm.status.phase == PHASE_DELETING
            && o.clm.labels == map[] && o.clm.finalizers == MIXED.finalizers && !o.clm.deleting
  {
    hide Observe;
    ObserveEmpty();
    assert MIXED.Type() == "" && FINALIZER in MIXED.finalizers;
    assert PhasesOf(MIXED) == [NoPhase, UpdateStatus];
    assert [NoPhase, UpdateStatus][1..] == [UpdateStatus] && [UpdateStatus][1..] == [];
    assert RunPhases([NoPhase, UpdateStatus], t, K, MIXED, REMOTE, ZERO, false)
        == RunPhases([UpdateStatus], t, K, MIXED, REMOTE, ZERO, false);
  }

  lemma ObserveEmpty()
    ensures var (c, a) := Observe(MIXED, REMOTE);
            && c.status.ready && c.status.phase == PHASE_DELETING && a == Returned(ZERO, false)
            && c.labels == map[] && c.finalizers == MIXED.finalizers && !c.deleting
  {
    hide Count, Provider;
    assert FirstBare([]) == 0;
    assert "a" in MIXED.annotations;
    ObserveKeeps(MIXED, REMOTE);
  }

  lemma RaceIsTyped(job: Job)
    requires job == Manage(K, REMOTE, RACE) || job == Manage(K, REMOTE, [])
    ensures JobOf(job, Typed(K, ""))
  {
    if job.plan == RACE {
      forall i, j | 0 <= i < |RACE| && 0 <= j < |RACE[i].events| ensures Typed(K, "")(RACE[i].events[j]) {
        assert i == 1;
      }
    }
  }

  lemma BeforeIsSane()
    ensures Sane(K, "", BEFORE)
  {
  }

  /** Two reconciles, every request served, one manager replaced in flight: the first patch lands
      on the replacement, and the second reconcile takes the phase of a live manager from Deleting
      to Provisioned. */
  lemma LandedPhaseMovesBack()
    ensures var s := Sys(BEFORE, [], []);
            var jobs := [Manage(K, REMOTE, RACE), Manage(K, REMOTE, [])];
            && Sane(K, "", s.Now())
            && (forall job | job in jobs :: JobOf(job, Typed(K, "")))
            && !NeverLands(s, jobs, K) && !Steps(s, Run(s, jobs), Forwards(K, ""))
  {
    hide Reconcile, JobOf, Sane, Run, NeverLands;
    var s := Sys(BEFORE, [], []);
    BeforeIsSane();
    var a, b := Manage(K, REMOTE, RACE), Manage(K, REMOTE, []);
    RunExtends(s, [], a);
    RunExtends(s, [a], b);
    assert [] + [a] == [a] && [a] + [b] == [a, b];
    RaceIsTyped(a);
    RaceIsTyped(b);
    assert Run(s, []) == s by { RunNone(s); }
    var s1 := Do(s, a);
    var s2 := Do(s1, b);
    FirstReconcile(s.(plan := RACE), REMOTE);
    assert s1.(plan := []).Now() == s1.Now();
    SecondReconcile(s1.(plan := []));
    var i := |s2.past| - 1;
    assert !Forward(K, "", s2.At(i), s2.past[i].world);
    PhaseOrder(s, [a, b], K, "");
  }
}
