/** What the pieces of a reconcile answer, each from what it read: which creation a walk attempts,
    what the fold over the phases keeps, what wakes the queue. */
module Answers {
  import opened Api
  import opened Naming
  import opened Store
  import opened Children
  import opened Observation
  import opened Reconciling
  import opened Queue
  import opened Merging

  // ---------------------------------------------------------------------------------------
  // Which creation a walk attempts

  /** The walk ended with an attempt to create the child. */
  ghost predicate Attempts(t: Sys, ck: ChildKey, child: Child, u: Sys) {
    child.Kind() == ck.kind && u == Create(t, ck, child).0
  }

  /** The control-plane chain, for every plan. A failed read of the Cluster or the AwsCluster ends
      the walk with nothing created; a failed read of the control plane does not keep it from the
      machine template. The first object that is read as missing is created, at most one, and the
      walk asks to run again at once if that was one of the first three, created or not. */
  lemma ControlPlaneWalk(s: Sys, k: Key, m: Manager)
    ensures var (u, res) := Walk(s, ControlPlaneLinks(k, m));
            var (t1, r1) := GetChild(s, ClusterKey(k));
            var (t2, r2) := GetChild(t1, AwsClusterKey(k));
            var (t3, r3) := GetChild(t2, ControlPlaneKey(k));
            var (t4, r4) := GetChild(t3, MasterTemplateKey(k));
            && (r1.Failed? ==> u == t1 && res == Result(false, 0))
            && (r1.NotFound? ==>
                  Attempts(t1, ClusterKey(k), Template(ClusterKey(k), k, m), u) && res == Result(true, 0))
            && (r1.Found? && r2.Failed? ==> u == t2 && res == Result(false, 0))
            && (r1.Found? && r2.NotFound? ==>
                  Attempts(t2, AwsClusterKey(k), Template(AwsClusterKey(k), k, m), u) && res == Result(true, 0))
            && (r1.Found? && r2.Found? && r3.NotFound? ==>
                  Attempts(t3, ControlPlaneKey(k), Template(ControlPlaneKey(k), k, m), u) && res == Result(true, 0))
            && (r1.Found? && r2.Found? && !r3.NotFound? && r4.NotFound? ==>
                  Attempts(t4, MasterTemplateKey(k), Template(MasterTemplateKey(k), k, m), u)
                  && res == Result(false, 0))
            && (r1.Found? && r2.Found? && !r3.NotFound? && !r4.NotFound? ==> u == t4 && res == Result(false, 0))
  {
    hide GetChild, Create, Walk;
    var links := ControlPlaneLinks(k, m);
    assert links[0..] == links;
    var (t1, r1) := GetChild(s, ClusterKey(k));
    var (t2, r2) := GetChild(t1, AwsClusterKey(k));
    var (t3, r3) := GetChild(t2, ControlPlaneKey(k));
    WalkProceeds(s, links, 0);
    WalkProceeds(t1, links, 1);
    WalkProceeds(t2, links, 2);
    WalkProceeds(t3, links, 3);
    var t4 := GetChild(t3, MasterTemplateKey(k)).0;
    assert Walk(t4, links[4..]) == (t4, ZERO);
    NamesDiffer(k.name, k.name);
  }

  /** The worker chain: every failed read ends the walk, and it asks to run again at once only if
      the server confirmed the creation of the deployment or its machine template. */
  lemma WorkerWalk(s: Sys, k: Key, m: Manager)
    ensures var (u, res) := Walk(s, WorkerLinks(k, m));
            var (t1, r1) := GetChild(s, DeploymentKey(k));
            var (t2, r2) := GetChild(t1, WorkerTemplateKey(k));
            var (t3, r3) := GetChild(t2, ConfigTemplateKey(k));
            && (r1.Failed? ==> u == t1 && res == Result(false, 0))
            && (r1.NotFound? ==>
                  Attempts(t1, DeploymentKey(k), Template(DeploymentKey(k), k, m), u)
                  && res == Result(DeploymentKey(k) !in Turn(t1).Now().children && t1.Next().outcome == Served, 0))
            && (r1.Found? && r2.Failed? ==> u == t2 && res == Result(false, 0))
            && (r1.Found? && r2.NotFound? ==>
                  Attempts(t2, WorkerTemplateKey(k), Template(WorkerTemplateKey(k), k, m), u)
                  && res == Result(WorkerTemplateKey(k) !in Turn(t2).Now().children && t2.Next().outcome == Served, 0))
            && (r1.Found? && r2.Found? && r3.NotFound? ==>
                  Attempts(t3, ConfigTemplateKey(k), Template(ConfigTemplateKey(k), k, m), u)
                  && res == Result(false, 0))
            && (r1.Found? && r2.Found? && !r3.NotFound? ==> u == t3 && res == Result(false, 0))
  {
    hide GetChild, Create, Walk, Turn;
    var links := WorkerLinks(k, m);
    assert links[0..] == links;
    var (t1, r1) := GetChild(s, DeploymentKey(k));
    var (t2, r2) := GetChild(t1, WorkerTemplateKey(k));
    WalkProceeds(s, links, 0);
    WalkProceeds(t1, links, 1);
    WalkProceeds(t2, links, 2);
    var t3 := GetChild(t2, ConfigTemplateKey(k)).0;
    assert Walk(t3, links[3..]) == (t3, ZERO);
    forall t: Sys, ck: ChildKey, c: Child | c.Kind() == ck.kind
      ensures Create(t, ck, c).1 <==> ck !in Turn(t).Now().children && t.Next().outcome == Served
    {
      CreateConfirmed(t, ck, c);
    }
    NamesDiffer(k.name, k.name);
  }

  /** A creation, for every plan: the object is there afterwards, and on record as ours, if it was
      missing and the request not refused; it is confirmed if besides the answer arrived. */
  lemma CreateConfirmed(s: Sys, ck: ChildKey, child: Child)
    requires child.Kind() == ck.kind
    ensures var (t, ok) := Create(s, ck, child); var v := Turn(s); var w := v.Now();
            && (ok <==> ck !in w.children && s.Next().outcome == Served)
            && v.past < t.past && |t.past| == |v.past| + 1 && t.plan == v.plan
            && t.past[|v.past|] == Called(CreateChild(ck, child), ok, t.Now())
            && t.Now() == if ck !in w.children && s.Next().outcome != Refused
                          then w.(children := w.children[ck := child], ours := w.ours + {ck}) else w
  {
    hide Turn;
  }

  /** New children report nothing: a Cluster has no endpoint, is not initialized and not being
      deleted, and no machine runs. */
  lemma NewChildrenAreBlank(k: Key, m: Manager, ck: ChildKey)
    requires IsChildOf(ck, k)
    ensures match Template(ck, k, m)
            case Cluster(_, _, host, initialized, deleting) => host == "" && !initialized && !deleting
            case ControlPlane(_, _, _, _, running) => running == 0
            case MachineDeployment(_, _, _, _, _, running) => running == 0
            case _ => true
  {
  }

  /** What a reply means: the read was served or not, and what it found is what was stored when the
      request got its turn. */
  ghost predicate Replies<K, V>(s: Sys, t: Sys, m: map<K, V>, k: K, r: Reply<V>, call: Call) {
    && t == Turn(s).Log(Called(call, r.Found?, Turn(s).Now()))
    && (r.Failed? <==> s.Next().outcome != Served)
    && (s.Next().outcome == Served ==> (r.Found? <==> k in m) && (k in m ==> r == Found(m[k])))
  }

  /** The three kinds of reads, for every plan: they report what is there, or fail; a lost answer is
      a failure too, and no read changes the store. */
  lemma ReadsExactly(s: Sys, k: Key, ck: ChildKey)
    ensures var (t, r) := GetManager(s, k); Replies(s, t, Turn(s).Now().managers, k, r, ReadManager(k))
    ensures var (t, r) := GetClaim(s, k); Replies(s, t, Turn(s).Now().claims, k, r, ReadClaim(k))
    ensures var (t, r) := GetChild(s, ck); Replies(s, t, Turn(s).Now().children, ck, r, ReadChild(ck))
  {
    hide Turn;
  }

  // ---------------------------------------------------------------------------------------
  // The endpoint

  /** What the endpoint phase does, for every plan. It reads the Cluster only if no endpoint is
      annotated, waits twenty seconds for it, reports a failed read and a missing Cluster, panics
      without annotations, and otherwise annotates the host and nothing else. */
  lemma EndpointExactly(s: Sys, k: Key, m: Manager)
    ensures var o := FindEndpoint(s, k, m); var (t, r) := GetChild(s, ClusterKey(k));
            var known := "clustermanager.cluster.sseung.com/apiserver" in m.annotations
                         && m.annotations["clustermanager.cluster.sseung.com/apiserver"] != "";
            && (known ==> o == Out(s, m, Returned(Result(false, 0), false)))
            && (!known && r.NotFound? ==> o == Out(t, m, Returned(Result(false, 20), true)))
            && (!known && r.Failed? ==> o == Out(t, m, Returned(Result(false, 0), true)))
            && (!known && r.Found? ==>
                  && r.value.Cluster? && o.sys == t
                  && (r.value.host == "" ==> o.clm == m && o.answer == Returned(Result(false, 20), false))
                  && (r.value.host != "" && m.annotations == map[] ==> o.clm == m && o.answer.Panicked?)
                  && (r.value.host != "" && m.annotations != map[] ==>
                        && o.answer == Returned(Result(false, 0), false)
                        && o.clm == m.(annotations := o.clm.annotations)
                        && Lookup(o.clm.annotations, "clustermanager.cluster.sseung.com/apiserver") == r.value.host
                        && forall key | key != "clustermanager.cluster.sseung.com/apiserver" ::
                             SameAt(o.clm.annotations, m.annotations, key)))
  {
    hide GetChild;
    ReadKind(s, ClusterKey(k));
  }

  // ---------------------------------------------------------------------------------------
  // Teardown, registered managers, missing managers

  /** The teardown, for every plan: the finalizer goes exactly if the Cluster is read as missing; a
      Cluster that is found is deleted, with a minute's wait whether or not that works; a failed
      read ends it quietly. Nothing else of the working copy changes. */
  lemma TearDownExactly(s: Sys, k: Key, m: Manager)
    ensures var o := TearDown(s, k, m); var (t, r) := GetChild(s, ClusterKey(k));
            && o.clm == m.(finalizers := o.clm.finalizers)
            && (forall f | f != "clustermanager.cluster.sseung.com/finalizer" ::
                  f in o.clm.finalizers <==> f in m.finalizers)
            && (r.NotFound? ==> "clustermanager.cluster.sseung.com/finalizer" !in o.clm.finalizers)
            && (!r.NotFound? ==> o.clm == m)
            && (r.Found? ==> o.sys == Delete(t, ClusterKey(k)).0 && o.answer == Returned(Result(false, 60), false))
            && (!r.Found? ==> o.sys == t && o.answer == Returned(Result(false, 0), false))
  {
    hide GetChild, Delete;
  }

  /** A manager that was not created from a claim is only observed: its body sends no request, and
      its copy and answer are those of the refresh. */
  lemma OthersAreObserved(s: Sys, k: Key, m: Manager, remote: Remote)
    requires FINALIZER in m.finalizers && m.Type() != TYPE_CREATED && (m.deleting ==> m.Type() == TYPE_REGISTERED)
    ensures var (c, a) := Observe(m, remote); Body(s, k, m, remote) == Out(s, c, a)
  {
    hide Observe;
    ObserveFailsBlank(m, remote);
    assert PhasesOf(m) == [NoPhase, UpdateStatus];
    assert [NoPhase, UpdateStatus][1..] == [UpdateStatus] && [UpdateStatus][1..] == [];
    FoldStep(NoPhase, [UpdateStatus], s, k, m, remote, ZERO, false);
    assert [NoPhase] + [UpdateStatus] == [NoPhase, UpdateStatus];
    OnePhase(s, k, m, remote, ZERO, false);
  }

  lemma ObserveFailsBlank(m: Manager, remote: Remote)
    ensures var a := Observe(m, remote).1; a.Returned? && a.failed ==> a.result == ZERO
  {
    hide Count, Provider, ProviderName, FirstBare;
  }

  /** A manager that is not there is nothing to do, and one that cannot be read is an error. */
  lemma NothingToDo(s: Sys, k: Key, remote: Remote)
    requires !GetManager(s, k).1.Found?
    ensures Reconcile(s, k, remote)
         == (GetManager(s, k).0, Returned(Result(false, 0), GetManager(s, k).1.Failed?))
  {
    hide GetManager;
  }

  // ---------------------------------------------------------------------------------------
  // The fold over the phases

  /** The answers of the phases, up to the first panic. */
  function Trail(phases: seq<Phase>, s: Sys, k: Key, m: Manager, remote: Remote): (trail: seq<Answer>)
    ensures |trail| <= |phases| && (phases != [] ==> trail != [])
    decreases |phases|
  {
    if phases == [] then []
    else
      var o := RunPhase(phases[0], s, k, m, remote);
      [o.answer] + if o.answer.Panicked? then [] else Trail(phases[1..], o.sys, k, o.clm, remote)
  }

  /** The first answer with an error, or the length. */
  function FirstError(trail: seq<Answer>): (n: nat)
    ensures n <= |trail|
    ensures forall i | 0 <= i < n :: trail[i].Returned? ==> !trail[i].failed
    ensures n < |trail| ==> trail[n].Returned? && trail[n].failed
  {
    if trail == [] || (trail[0].Returned? && trail[0].failed) then 0 else 1 + FirstError(trail[1..])
  }

  lemma FirstErrorStep(a: Answer, rest: seq<Answer>)
    ensures var trail := [a] + rest;
            FirstError(trail) == if a.Returned? && a.failed then 0 else 1 + FirstError(rest)
    ensures Panicked in [a] + rest <==> a.Panicked? || Panicked in rest
  {
    assert ([a] + rest)[1..] == rest;
  }

  /** What the fold over a trail keeps. */
  ghost predicate Folded(trail: seq<Answer>, count: nat, res: Result, failed: bool, a: Answer) {
    && (a.Panicked? <==> Panicked in trail)
    && (a.Panicked? ==> trail[|trail| - 1] == Panicked)
    && (a.Returned? ==>
          && |trail| == count && (a.failed <==> failed || FirstError(trail) < |trail|)
          && a.result == if failed || FirstError(trail) == 0 then res else trail[FirstError(trail) - 1].result)
  }

  lemma FoldedStep(b: Answer, rest: seq<Answer>, count: nat, res: Result, failed: bool, a: Answer)
    requires b.Returned?
    requires var failed' := failed || b.failed; Folded(rest, count, if failed' then res else b.result, failed', a)
    ensures Folded([b] + rest, count + 1, res, failed, a)
  {
    hide FirstError;
    FirstErrorStep(b, rest);
    var trail := [b] + rest;
    assert forall i | 0 < i < |trail| :: trail[i] == rest[i - 1];
  }

  lemma {:induction false} FoldFolds(phases: seq<Phase>, s: Sys, k: Key, m: Manager, remote: Remote,
                                     res: Result, failed: bool)
    ensures Folded(Trail(phases, s, k, m, remote), |phases|, res, failed,
                   RunPhases(phases, s, k, m, remote, res, failed).answer)
    decreases |phases|
  {
    hide RunPhase, Folded;
    if phases == [] {
      FoldedNone(res, failed);
    } else {
      var o := RunPhase(phases[0], s, k, m, remote);
      if o.answer.Returned? {
        var failed' := failed || o.answer.failed;
        FoldFolds(phases[1..], o.sys, k, o.clm, remote, if failed' then res else o.answer.result, failed');
        var a := RunPhases(phases, s, k, m, remote, res, failed).answer;
        FoldedStep(o.answer, Trail(phases[1..], o.sys, k, o.clm, remote), |phases| - 1, res, failed, a);
      } else {
        FoldedPanic(|phases|, res, failed);
        assert Trail(phases, s, k, m, remote) == [Panicked];
      }
    }
  }

  lemma FoldedNone(res: Result, failed: bool)
    ensures Folded([], 0, res, failed, Returned(res, failed))
  {
  }

  lemma FoldedPanic(count: nat, res: Result, failed: bool)
    ensures Folded([Panicked], count, res, failed, Panicked)
  {
  }

  /** The fold, in closed form: without a panic every phase runs, the answer is an error if one
      phase's is, and the result is that of the phase before the first error, or of the last one. */
  lemma FoldExactly(phases: seq<Phase>, s: Sys, k: Key, m: Manager, remote: Remote)
    ensures var trail := Trail(phases, s, k, m, remote); var n := FirstError(trail);
            var a := RunPhases(phases, s, k, m, remote, ZERO, false).answer;
            && (a.Panicked? <==> Panicked in trail)
            && (a.Panicked? ==> trail[|trail| - 1] == Panicked)
            && (a.Returned? ==>
                  && |trail| == |phases| && (a.failed <==> n < |trail|)
                  && a.result == if n == 0 then ZERO else trail[n - 1].result)
  {
    hide RunPhases, Trail, FirstError;
    FoldFolds(phases, s, k, m, remote, ZERO, false);
  }

  // ---------------------------------------------------------------------------------------
  // What wakes the queue

  lemma PutAt(w: World, k: Key, key: Key, m: Manager)
    requires k in w.managers
    ensures k in PutManager(w, key, m).managers ==>
              PutManager(w, key, m).managers[k] == if key == k then m else w.managers[k]
  {
  }

  lemma PutKeepsManagers(w: World, key: Key, c: Claim)
    ensures PutClaim(w, key, c).managers == w.managers
  {
  }

  lemma GoneKeepsManagers(w: World, key: Key, m: Manager)
    ensures ClusterGone(w, key, m).managers == w.managers
  {
  }

  /** Which acts of others wake the queue of k: the first request for its deletion, and a first
      endpoint; a write of the controller itself does if it brings the finalizer or such an
      endpoint. No edit of size, version, labels, annotations, readiness or counts does. */
  lemma WakesExactly(w: World, k: Key, e: Event)
    requires k in w.managers && k in Apply(w, e).managers
    ensures var x, y := w.managers[k], Apply(w, e).managers[k];
            WakesOnUpdate(x, y)
            <==> || (e == ManagerDeleted(k) && !x.deleting)
                 || (e.StatusWritten? && e.key == k && e.write.Endpoint?
                     && x.status.endpoint == "" && e.write.host != "")
                 || (e.ManagerPatched? && e.key == k && y != x
                     && ((x.status.endpoint == "" && e.status.endpoint != "")
                         || ("clustermanager.cluster.sseung.com/finalizer" in e.finalizers
                             && "clustermanager.cluster.sseung.com/finalizer" !in x.finalizers)))
  {
    hide PutManager, PutClaim, ClusterGone;
    forall v: World, key, m ensures ClusterGone(v, key, m).managers == v.managers { GoneKeepsManagers(v, key, m); }
    forall key, c ensures PutClaim(w, key, c).managers == w.managers { PutKeepsManagers(w, key, c); }
    forall key, m: Manager
      ensures k in PutManager(w, key, m).managers ==>
                PutManager(w, key, m).managers[k] == if key == k then m else w.managers[k]
    {
      PutAt(w, k, key, m);
    }
  }
}
