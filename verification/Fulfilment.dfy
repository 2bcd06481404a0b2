/** From approval to machines: both controllers, without faults. */
module Fulfilment {
  import opened Api
  import opened Naming
  import opened Store
  import opened Reconciling
  import opened Traces
  import opened Provisioning
  import opened Queue
  import opened Wiring
  import opened Claiming

  /** Nobody else adds the manager or a child of it. */
  ghost function Vacant(mk: Key): Env {
    (e: Event) => !(e.ManagerAdded? && e.key == mk) && !(e.ChildAdded? && IsChildOf(e.ck, mk))
  }

  /** Neither the manager nor any child of it exists. */
  ghost predicate Absent(mk: Key, w: World) {
    mk !in w.managers && forall ck | IsChildOf(ck, mk) :: ck !in w.children
  }

  lemma EventAbsent(mk: Key, w: World, e: Event)
    requires Absent(mk, w) && Vacant(mk)(e)
    ensures Absent(mk, Apply(w, e))
  {
    hide Apply, IsChildOf;
    EventTouches(mk, w, e);
    EventChildren(w, e);
  }

  lemma TurnKeepsAbsent(s: Sys, mk: Key)
    requires Calm(s, Vacant(mk)) && Absent(mk, s.Now())
    ensures Absent(mk, Turn(s).Now()) && s.Next().outcome == Served
    ensures forall m :: Calm(Turn(s).Log(m), Vacant(mk))
  {
    hide Apply, Absent;
    var env := Vacant(mk);
    var inv := (w: World) => Absent(mk, w);
    TurnSteps(s, env);
    forall w, m | inv(w) && Others(env)(w, m) ensures inv(m.world) {
      EventAbsent(mk, w, m.event);
    }
    Throughout(s, Turn(s), Others(env), inv, |Turn(s).past|);
    CalmTurn(s, env, Called(ReadManager(mk), true, s.Now()));
    forall m ensures Calm(Turn(s).Log(m), env) {
      CalmTurn(s, env, m);
    }
  }

  /** A fault-free reconcile of an approved claim whose manager does not exist yet creates it, fresh
      and with the claim's values, and asks for nothing more. */
  lemma ApprovalCreates(s: Sys, c: Key, cl: Claim, settings: Settings)
    requires GetClaim(s, c).1 == Found(cl) && cl.phase == CLAIM_APPROVED
    requires Calm(s, Vacant(ManagerKey(c, cl))) && Absent(ManagerKey(c, cl), s.Now())
    ensures var mk := ManagerKey(c, cl); var (u, a) := ReconcileClaim(s, c, settings);
            && a == Returned(ZERO, false) && Fresh(u.Now(), mk)
            && u.Now().managers[mk] == NewManager(c, cl, settings.domain)
  {
    hide Turn, Absent;
    var mk := ManagerKey(c, cl);
    TurnKeepsAbsent(s, mk);
    var t := GetClaim(s, c).0;
    assert Absent(mk, t.Now()) && Calm(t, Vacant(mk));
    TurnKeepsAbsent(t, mk);
    var (v, r) := GetManager(t, mk);
    assert mk !in Turn(t).Now().managers by { AbsentMeans(mk, Turn(t).Now()); }
    assert r.NotFound? && Absent(mk, v.Now()) && Calm(v, Vacant(mk));
    TurnKeepsAbsent(v, mk);
    AbsentMeans(mk, Turn(v).Now());
    var m := NewManager(c, cl, settings.domain);
    var u := Submit(v, mk, m).0;
    assert u.Now() == Turn(v).Now().(managers := Turn(v).Now().managers[mk := m]);
    assert Lookup(m.labels, LABEL_CLUSTER_TYPE) == TYPE_CREATED;
  }

  lemma AbsentMeans(mk: Key, w: World)
    requires Absent(mk, w)
    ensures mk !in w.managers && forall ck | IsChildOf(ck, mk) :: ck !in w.children
  {
  }

  /** No round gets to read the remote version, and nobody edits values. */
  ghost predicate Unspoiled(l: Loop, k: Key, inputs: seq<Input>, spec: Spec, aws: AwsSpec) {
    forall i | 0 <= i < |inputs| :: UnspoiledRound(Rounds(l, k, inputs[..i]), k, inputs[i], spec, aws)
  }

  ghost predicate UnspoiledRound(l: Loop, k: Key, input: Input, spec: Spec, aws: AwsSpec) {
    && PlanOf(input.plan, FittingEvents(k, Carrying(k, spec, aws), Exactly(spec, aws)))
    && Unread(l.sys.(plan := input.plan), k, input.remote)
  }

  lemma {:induction false} RoundsFit(l: Loop, k: Key, inputs: seq<Input>, spec: Spec, aws: AwsSpec)
    requires Fits(k, Carrying(k, spec, aws), Exactly(spec, aws), l.sys.Now()) && Unspoiled(l, k, inputs, spec, aws)
    ensures Fits(k, Carrying(k, spec, aws), Exactly(spec, aws), Rounds(l, k, inputs).sys.Now())
  {
    hide Fits, Round, UnspoiledRound;
    if inputs != [] {
      var n := |inputs| - 1;
      var init := inputs[..n];
      forall i | 0 <= i < n ensures UnspoiledRound(Rounds(l, k, init[..i]), k, init[i], spec, aws) {
        assert init[..i] == inputs[..i] && UnspoiledRound(Rounds(l, k, inputs[..i]), k, inputs[i], spec, aws);
      }
      RoundsFit(l, k, init, spec, aws);
      assert UnspoiledRound(Rounds(l, k, inputs[..n]), k, inputs[n], spec, aws);
      RoundFits(Rounds(l, k, init), k, inputs[n], spec, aws);
    }
  }

  lemma RoundFits(l: Loop, k: Key, input: Input, spec: Spec, aws: AwsSpec)
    requires Fits(k, Carrying(k, spec, aws), Exactly(spec, aws), l.sys.Now())
    requires UnspoiledRound(l, k, input, spec, aws)
    ensures Fits(k, Carrying(k, spec, aws), Exactly(spec, aws), Round(l, k, input).sys.Now())
  {
    hide Fits, Unread, Reconcile, Woken;
    if l.pending {
      var s := l.sys.(plan := input.plan);
      assert s.Now() == l.sys.Now();
      CarryingRobust(k, spec, aws);
      ReconcileFits(s, k, input.remote, Carrying(k, spec, aws), Exactly(spec, aws));
      var u := Reconcile(s, k, input.remote).0;
      assert Fitting(k, Carrying(k, spec, aws), Exactly(spec, aws))(u.At(|u.past|));
    }
  }

  lemma FreshFits(k: Key, m: Manager, w: World)
    requires Fresh(w, k) && w.managers[k] == m
    ensures Fits(k, Carrying(k, m.spec, m.aws), Exactly(m.spec, m.aws), w)
  {
    hide IsChildOf;
  }

  /** Fault-free convergence of both controllers: the reconcile of an approved claim puts a fresh
      manager on the other controller's queue; from there, in every run of good rounds, the queue
      does not drain before all seven children exist, and five rounds are enough. As long as no
      round reads the remote version, the children carry what the claim asked for. */
  lemma ApprovedClaimIsProvisioned(s: Sys, c: Key, cl: Claim, settings: Settings, inputs: seq<Input>)
    requires GetClaim(s, c).1 == Found(cl) && cl.phase == CLAIM_APPROVED
    requires Calm(s, Vacant(ManagerKey(c, cl))) && Absent(ManagerKey(c, cl), s.Now())
    requires GoodRun(Loop(ReconcileClaim(s, c, settings).0, true), ManagerKey(c, cl), inputs)
    ensures var mk := ManagerKey(c, cl);
            var l := Loop(ReconcileClaim(s, c, settings).0, true);
            var l' := Rounds(l, mk, inputs);
            && (l'.pending || AllExist(l'.sys.Now(), mk))
            && (|inputs| >= 5 ==> AllExist(l'.sys.Now(), mk))
            && (Unspoiled(l, mk, inputs, cl.spec, cl.aws) ==>
                  Fits(mk, Carrying(mk, cl.spec, cl.aws), Exactly(cl.spec, cl.aws), l'.sys.Now()))
  {
    hide ReconcileClaim, GoodRun, Unspoiled, Rounds, Fits, AllExist, Fresh;
    var mk := ManagerKey(c, cl);
    ApprovalCreates(s, c, cl, settings);
    var l := Loop(ReconcileClaim(s, c, settings).0, true);
    SelfDriven(l, mk, inputs);
    if Unspoiled(l, mk, inputs, cl.spec, cl.aws) {
      FreshFits(mk, NewManager(c, cl, settings.domain), l.sys.Now());
      RoundsFit(l, mk, inputs, cl.spec, cl.aws);
    }
  }
}
