/** Why runs need not interleave the two controllers' reconciles request by request: to the one
    controller, a request of the other is an event. */
module Overlaps {
  import opened Api
  import opened Naming
  import opened Store
  import opened Children
  import opened Traces
  import opened Safety
  import opened Lifecycle
  import opened Deletion
  import opened Watching
  import opened Claiming
  import opened Ledgers

  function ApplyAll(w: World, events: seq<Event>): World
    decreases |events|
  {
    if events == [] then w else ApplyAll(Apply(w, events[0]), events[1..])
  }

  /** The same store; who created a child is history. */
  ghost predicate Alike(w: World, w': World) {
    w' == w.(ours := w'.ours)
  }

  /** Some events that env allows do to w what the request did. */
  ghost predicate Expressible(w: World, w': World, env: Env) {
    exists events: seq<Event> | Expresses(w, w', events) :: forall e | e in events :: env(e)
  }

  ghost predicate Expresses(w: World, w': World, events: seq<Event>) {
    Alike(w', ApplyAll(w, events))
  }

  lemma Nothing(w: World, env: Env)
    ensures Expressible(w, w, env)
  {
    assert Expresses(w, w, []);
  }

  lemma SingleEvent(w: World, w': World, e: Event, env: Env)
    requires Alike(w', Apply(w, e)) && env(e)
    ensures Expressible(w, w', env)
  {
    hide Apply;
    assert [e][1..] == [] && ApplyAll(w, [e]) == ApplyAll(Apply(w, e), []);
    assert Expresses(w, w', [e]);
  }

  lemma TwoInARow(w: World, w': World, e1: Event, e2: Event, env: Env)
    requires Alike(w', Apply(Apply(w, e1), e2)) && env(e1) && env(e2)
    ensures Expressible(w, w', env)
  {
    hide Apply;
    var events := [e1, e2];
    assert events[1..] == [e2] && [e2][1..] == [];
    assert ApplyAll(w, events) == ApplyAll(Apply(w, e1), [e2]) == ApplyAll(Apply(Apply(w, e1), e2), []);
    assert Expresses(w, w', events);
  }

  /** Writing a whole manager except its labels and its deletion. */
  lemma PutExpressible(w: World, k: Key, y: Manager, env: Env)
    requires NoGhosts(w) && k in w.managers
    requires var x := w.managers[k];
             && y.labels == x.labels && y.deleting == x.deleting
             && (x.deleting ==> y.finalizers <= x.finalizers)
    requires env(ManagerEdited(k, y.spec, y.aws)) && env(ManagerPatched(k, y.finalizers, y.annotations, y.status))
    ensures Expressible(w, PutManager(w, k, y), env)
  {
    var x := w.managers[k];
    var e1, e2 := ManagerEdited(k, y.spec, y.aws), ManagerPatched(k, y.finalizers, y.annotations, y.status);
    var x1 := x.(spec := y.spec, aws := y.aws);
    var w1 := Apply(w, e1);
    assert w1 == w.(managers := w.managers[k := x1]);
    assert w.managers[k := x1][k := y] == w.managers[k := y] && w.managers[k := x1] - {k} == w.managers - {k};
    assert Apply(w1, e2) == PutManager(w, k, y);
    TwoInARow(w, PutManager(w, k, y), e1, e2, env);
  }

  /** What the ClusterManager controller's requests are to the claims: allowed at any time. */
  ghost function Unrestricted(k: Key): Env {
    (e: Event) =>
      || e.ChildAdded? || e.ChildChanged? || e.ChildRemoved?
      || ((e.ManagerEdited? || e.ManagerPatched?) && e.key == k)
  }

  lemma PatchesAreEvents(k: Key, before: Manager, after: Manager, w: World, m: Moment)
    requires PatchStep(k, before, after, w, m) && NoGhosts(w)
    ensures Expressible(w, m.world, Unrestricted(k))
  {
    hide MergeMap, MergeSpec, MergeStatus, PutManager, Expressible;
    if m.world == w {
      Nothing(w, Unrestricted(k));
    } else if m.call.PatchManager? {
      PutExpressible(w, k, MergeMain(before, after, w.managers[k]), Unrestricted(k));
    } else {
      var x := w.managers[k];
      PutExpressible(w, k, x.(status := MergeStatus(before.status, after.status, x.status)), Unrestricted(k));
    }
  }

  lemma BuildsAreEvents(k: Key, m0: Manager, w: World, m: Moment)
    requires BuildStep(k, m0, w, m) || TearStep(k, w, m)
    ensures Expressible(w, m.world, Unrestricted(k))
  {
    hide Template, IsChildOf, Expressible;
    if m.world == w {
      Nothing(w, Unrestricted(k));
    } else if m.call.CreateChild? {
      SingleEvent(w, m.world, ChildAdded(m.call.ck, m.call.child), Unrestricted(k));
    } else if m.call.PatchChild? {
      SingleEvent(w, m.world, ChildChanged(m.call.ck, m.call.child), Unrestricted(k));
    } else {
      var ck := ClusterKey(k);
      assert w.children[ck].Kind() == ck.kind;
      SingleEvent(w, m.world, ChildChanged(ck, w.children[ck].(deleting := true)), Unrestricted(k));
    }
  }

  /** Every request of a reconcile of any manager is, to the claim controller, one or two events
      that its theorems allow at any time, in flight too. */
  lemma ManagerRequestsAreEvents(k: Key, m0: Manager, before: Manager, after: Manager, w: World, m: Moment,
                                 c: Key, mk: Key)
    requires NoGhosts(w)
    requires BuildStep(k, m0, w, m) || TearStep(k, w, m) || PatchStep(k, before, after, w, m)
    ensures Expressible(w, m.world, Fair(c, mk))
  {
    hide BuildStep, TearStep, PatchStep, Expresses;
    if PatchStep(k, before, after, w, m) {
      PatchesAreEvents(k, before, after, w, m);
    } else {
      BuildsAreEvents(k, m0, w, m);
    }
    var events :| Expresses(w, m.world, events) && forall e | e in events :: Unrestricted(k)(e);
    assert forall e | e in events :: Fair(c, mk)(e);
  }

  /** Neither releases a finalizer nor changes a cluster type. */
  ghost function Harmless(): Env {
    (e: Event) => NotReleased(e) && forall k :: KeepsType(k, TYPE_CREATED, e)
  }

  /** Every request of a reconcile of any claim is, to the ClusterManager controller, an event
      that its theorems on finalizer safety, phase order, isolation, provisioning and references
      allow for every created manager. */
  lemma ClaimRequestsAreEvents(claim: Key, cl: Claim, domain: string, w: World, m: Moment)
    requires ClaimStep(claim, cl, domain, w, m)
    ensures Expressible(w, m.world, Harmless())
  {
    hide Expressible;
    if m.world == w {
      Nothing(w, Harmless());
    } else if m.call.UpdateClaim? {
      var e := ClaimPhased(claim, CLAIM_AWAITING, Await(cl).reason);
      assert NotReleased(e) && forall k :: KeepsType(k, TYPE_CREATED, e);
      SingleEvent(w, m.world, e, Harmless());
    } else {
      var x := NewManager(claim, cl, domain);
      var e := ManagerAdded(ManagerKey(claim, cl), x.labels, x.annotations, {}, x.spec, x.aws);
      assert Lookup(x.labels, LABEL_CLUSTER_TYPE) == TYPE_CREATED;
      assert NotReleased(e) && forall k :: KeepsType(k, TYPE_CREATED, e);
      SingleEvent(w, m.world, e, Harmless());
    }
  }

  /** Acts on anything but the manager k. */
  ghost function Aloof(k: Key): Env {
    (e: Event) => e.ClaimPhased? || (e.ManagerAdded? && e.key != k)
  }

  /** A claim controller never creates a manager that is stored: to a stored manager k, and so to its
      deletion, every request is an event about something else, which the deletion theorems allow. */
  lemma ClaimRequestsSpareStored(claim: Key, cl: Claim, domain: string, w: World, m: Moment, k: Key, ty: string)
    requires ClaimStep(claim, cl, domain, w, m) && k in w.managers
    ensures SameManager(k, w, m.world)
    ensures Expressible(w, m.world, Demise(k, ty)) && Expressible(w, m.world, Undisturbed(k, ty))
  {
    hide Expressible;
    if m.world == w {
      Nothing(w, Aloof(k));
    } else if m.call.UpdateClaim? {
      SingleEvent(w, m.world, ClaimPhased(claim, CLAIM_AWAITING, Await(cl).reason), Aloof(k));
    } else {
      var x := NewManager(claim, cl, domain);
      var e := ManagerAdded(ManagerKey(claim, cl), x.labels, x.annotations, {}, x.spec, x.aws);
      SingleEvent(w, m.world, e, Aloof(k));
    }
    AloofIsHarmless(w, m.world, k, ty);
  }

  lemma AloofIsHarmless(w: World, w': World, k: Key, ty: string)
    requires Expressible(w, w', Aloof(k))
    ensures Expressible(w, w', Demise(k, ty)) && Expressible(w, w', Undisturbed(k, ty))
  {
    hide Expresses;
    var events :| Expresses(w, w', events) && forall e | e in events :: Aloof(k)(e);
    forall e | e in events ensures Demise(k, ty)(e) && Undisturbed(k, ty)(e) {
      assert Aloof(k)(e);
    }
  }
}
