/** The API server as a value: what a request does, what everybody else may do between two
    requests, and the log of it all.

    A plan decides both the interleaving and the faults. Every request uses up one tick: first
    the tick's events happen, then the request is served, refused, or served with the answer
    lost. A theorem about all plans is a theorem about all interleavings and all faults. When
    the plan is used up the world is quiet and every request is served. */
module Store {
  import opened Api

  datatype StatusWrite =
    | MasterRun(n: int)
    | WorkerRun(n: int)
    | ControlPlaneReady(b: bool)
    | Endpoint(host: string)

  /** What users, administrators, CAPI, the watch handlers and the other controller do.
      ManagerPatched is a request of the ClusterManager controller, seen from the other one. */
  datatype Event =
    | ManagerAdded(key: Key, labels: map<string, string>, annotations: map<string, string>,
                   finalizers: set<string>, spec: Spec, aws: AwsSpec)
    | ManagerDeleted(key: Key)
    | ManagerEdited(key: Key, spec: Spec, aws: AwsSpec)
    | ManagerRelabelled(key: Key, labels: map<string, string>, annotations: map<string, string>)
    | ForeignFinalizer(key: Key, name: string, present: bool)
    | StatusWritten(key: Key, write: StatusWrite)
    | ManagerReleased(key: Key)
    | ManagerPatched(key: Key, finalizers: set<string>, annotations: map<string, string>, status: Status)
    | ChildAdded(ck: ChildKey, child: Child)
    | ChildChanged(ck: ChildKey, child: Child)
    | ChildRemoved(ck: ChildKey)
    | ClaimAdded(key: Key, clusterName: string, annotations: map<string, string>, spec: Spec, aws: AwsSpec)
    | ClaimEdited(key: Key, clusterName: string, spec: Spec, aws: AwsSpec)
    | ClaimPhased(key: Key, phase: string, reason: string)
    | ClaimRemoved(key: Key)
    | NoticeDelivered
    | NoticeLost(key: Key)

  /** A manager whose deletion is requested disappears with its last finalizer. */
  function PutManager(w: World, key: Key, m: Manager): World {
    if m.deleting && m.finalizers == {} then
      w.(managers := w.managers - {key}, gone := w.gone + [(key, m)])
    else
      w.(managers := w.managers[key := m])
  }

  function WriteStatus(s: Status, write: StatusWrite): Status {
    match write
    case MasterRun(n) => s.(masterRun := n)
    case WorkerRun(n) => s.(workerRun := n)
    case ControlPlaneReady(b) => s.(controlPlaneReady := b)
    case Endpoint(host) => s.(endpoint := host)
  }

  function PutClaim(w: World, key: Key, c: Claim): World {
    w.(claims := w.claims[key := c.(revision := w.revisions + 1)], revisions := w.revisions + 1)
  }

  /** The claim controller's answer to the removal of a manager. */
  function ClusterGone(w: World, key: Key, m: Manager): World {
    var claim := Key(key.namespace, Lookup(m.labels, LABEL_CLAIM));
    if m.Type() == TYPE_CREATED && claim in w.claims && w.claims[claim].phase == CLAIM_APPROVED then
      PutClaim(w, claim, w.claims[claim].(phase := CLAIM_CLUSTER_DELETED, reason := "Cluster가 삭제되었습니다."))
    else w
  }

  function AddChild(w: World, ck: ChildKey, child: Child): World
    requires child.Kind() == ck.kind
  {
    w.(children := w.children[ck := child])
  }

  /** A deletion, once requested, cannot be taken back. */
  predicate Undeletes(stored: Child, child: Child) {
    stored.Cluster? && stored.deleting && child.Cluster? && !child.deleting
  }

  function Apply(w: World, e: Event): World {
    match e
    case ManagerAdded(key, labels, annotations, finalizers, spec, aws) =>
      if key in w.managers then w
      else w.(managers := w.managers[key := Manager(labels, annotations, finalizers, false, spec, aws, NEW_STATUS)])
    case ManagerDeleted(key) =>
      if key in w.managers then PutManager(w, key, w.managers[key].(deleting := true)) else w
    case ManagerEdited(key, spec, aws) =>
      if key in w.managers then PutManager(w, key, w.managers[key].(spec := spec, aws := aws)) else w
    case ManagerRelabelled(key, labels, annotations) =>
      if key in w.managers then PutManager(w, key, w.managers[key].(labels := labels, annotations := annotations))
      else w
    case ForeignFinalizer(key, name, present) =>
      if key !in w.managers || name == FINALIZER || (present && w.managers[key].deleting) then w
      else
        var m := w.managers[key];
        PutManager(w, key, m.(finalizers := if present then m.finalizers + {name} else m.finalizers - {name}))
    case StatusWritten(key, write) =>
      if key in w.managers then
        PutManager(w, key, w.managers[key].(status := WriteStatus(w.managers[key].status, write)))
      else w
    case ManagerReleased(key) =>
      if key in w.managers then
        PutManager(w, key, w.managers[key].(finalizers := w.managers[key].finalizers - {FINALIZER}))
      else w
    case ManagerPatched(key, finalizers, annotations, status) =>
      if key !in w.managers || (w.managers[key].deleting && !(finalizers <= w.managers[key].finalizers)) then w
      else
        PutManager(w, key, w.managers[key].(finalizers := finalizers, annotations := annotations, status := status))
    case ChildAdded(ck, child) =>
      if ck in w.children || child.Kind() != ck.kind then w else AddChild(w, ck, child)
    case ChildChanged(ck, child) =>
      if ck !in w.children || child.Kind() != ck.kind || Undeletes(w.children[ck], child) then w
      else AddChild(w, ck, child)
    case ChildRemoved(ck) =>
      w.(children := w.children - {ck}, ours := w.ours - {ck})
    case ClaimAdded(key, clusterName, annotations, spec, aws) =>
      if key in w.claims then w else PutClaim(w, key, Claim("", "", clusterName, annotations, spec, aws, 0))
    case ClaimEdited(key, clusterName, spec, aws) =>
      if key in w.claims then PutClaim(w, key, w.claims[key].(clusterName := clusterName, spec := spec, aws := aws))
      else w
    case ClaimPhased(key, phase, reason) =>
      if key in w.claims then PutClaim(w, key, w.claims[key].(phase := phase, reason := reason)) else w
    case ClaimRemoved(key) =>
      w.(claims := w.claims - {key})
    case NoticeDelivered =>
      if w.gone == [] then w
      else ClusterGone(w.(gone := w.gone[1..]), w.gone[0].0, w.gone[0].1)
    case NoticeLost(key) =>
      if w.gone == [] || w.gone[0].0 != key then w else w.(gone := w.gone[1..])
  }

  datatype Call =
    | ReadManager(key: Key)
    | CreateManager(key: Key)
    | PatchManager(key: Key)
    | PatchStatus(key: Key)
    | ReadChild(ck: ChildKey)
    | CreateChild(ck: ChildKey, child: Child)
    | PatchChild(ck: ChildKey, child: Child)
    | DeleteChild(ck: ChildKey)
    | ReadClaim(key: Key)
    | UpdateClaim(key: Key)

  /** One entry of the log, with the world it left behind. */
  datatype Moment =
    | Happened(event: Event, world: World)
    | Called(call: Call, ok: bool, world: World)

  datatype Outcome = Served | Refused | Lost

  datatype Tick = Tick(events: seq<Event>, outcome: Outcome)

  const QUIET := Tick([], Served)

  datatype Sys = Sys(start: World, past: seq<Moment>, plan: seq<Tick>) {
    /** The world after the first i entries of the log. */
    function At(i: nat): World
      requires i <= |past|
    {
      if i == 0 then start else past[i - 1].world
    }

    function Now(): World {
      At(|past|)
    }

    function Next(): Tick {
      if plan == [] then QUIET else plan[0]
    }

    function Log(m: Moment): Sys {
      this.(past := past + [m])
    }
  }

  /** The events happen, one after the other. */
  function Happen(s: Sys, events: seq<Event>): Sys
    decreases |events|
  {
    if events == [] then s
    else Happen(s.Log(Happened(events[0], Apply(s.Now(), events[0]))), events[1..])
  }

  lemma TwoEvents(s: Sys, e1: Event, e2: Event)
    ensures var w1 := Apply(s.Now(), e1);
            Happen(s, [e1, e2]) == s.Log(Happened(e1, w1)).Log(Happened(e2, Apply(w1, e2)))
  {
    var s1 := s.Log(Happened(e1, Apply(s.Now(), e1)));
    assert [e1, e2][1..] == [e2] && [e2][1..] == [];
    assert Happen(s1, [e2]) == Happen(s1.Log(Happened(e2, Apply(s1.Now(), e2))), []);
  }

  /** What goes on before the next request gets its turn. */
  function Turn(s: Sys): Sys {
    Happen(s.(plan := if s.plan == [] then [] else s.plan[1..]), s.Next().events)
  }

  lemma QuietTurn(s: Sys)
    requires s.plan == []
    ensures Turn(s) == s
  {
  }

  datatype Reply<+T> = Found(value: T) | NotFound | Failed

  function ReadFrom<K, V>(s: Sys, m: map<K, V>, k: K, outcome: Outcome, call: Call): (Sys, Reply<V>) {
    var r := if outcome != Served then Failed else if k in m then Found(m[k]) else NotFound;
    (s.Log(Called(call, r.Found?, s.Now())), r)
  }

  /** A write that the server accepts only if `allowed`, and that takes it to `w`. */
  function Write(s: Sys, outcome: Outcome, call: Call, allowed: bool, w: World): (Sys, bool) {
    if allowed && outcome != Refused then (s.Log(Called(call, outcome == Served, w)), outcome == Served)
    else (s.Log(Called(call, false, s.Now())), false)
  }

  function GetManager(s: Sys, key: Key): (Sys, Reply<Manager>) {
    var t := Turn(s);
    ReadFrom(t, t.Now().managers, key, s.Next().outcome, ReadManager(key))
  }

  function GetChild(s: Sys, ck: ChildKey): (Sys, Reply<Child>) {
    var t := Turn(s);
    ReadFrom(t, t.Now().children, ck, s.Next().outcome, ReadChild(ck))
  }

  function GetClaim(s: Sys, key: Key): (Sys, Reply<Claim>) {
    var t := Turn(s);
    ReadFrom(t, t.Now().claims, key, s.Next().outcome, ReadClaim(key))
  }

  function Create(s: Sys, ck: ChildKey, child: Child): (Sys, bool)
    requires child.Kind() == ck.kind
  {
    var t := Turn(s);
    Write(t, s.Next().outcome, CreateChild(ck, child), ck !in t.Now().children,
          AddChild(t.Now(), ck, child).(ours := t.Now().ours + {ck}))
  }

  function MarkDeleting(w: World, ck: ChildKey): World
    requires ck in w.children
  {
    if w.children[ck].Cluster? then AddChild(w, ck, w.children[ck].(deleting := true))
    else w.(children := w.children - {ck}, ours := w.ours - {ck})
  }

  /** A deleted Cluster is kept by CAPI's own finalizer until CAPI has torn it down. */
  function Delete(s: Sys, ck: ChildKey): (Sys, bool) {
    var t := Turn(s);
    var there := ck in t.Now().children;
    Write(t, s.Next().outcome, DeleteChild(ck), there, if there then MarkDeleting(t.Now(), ck) else t.Now())
  }

  /** One leaf of a merge patch: written only if it was changed. */
  function Pick<T(==)>(before: T, after: T, stored: T): T {
    if after != before then after else stored
  }

  function MergeMap(before: map<string, string>, after: map<string, string>, stored: map<string, string>)
    : map<string, string>
  {
    (stored - (before.Keys - after.Keys)) + (map k | k in after && !(k in before && before[k] == after[k]) :: after[k])
  }

  function MergeSpec(before: Spec, after: Spec, stored: Spec): Spec {
    Spec(Pick(before.provider, after.provider, stored.provider),
         Pick(before.version, after.version, stored.version),
         Pick(before.masterNum, after.masterNum, stored.masterNum),
         Pick(before.workerNum, after.workerNum, stored.workerNum))
  }

  function MergeStatus(before: Status, after: Status, stored: Status): Status {
    Status(Pick(before.provider, after.provider, stored.provider),
           Pick(before.ready, after.ready, stored.ready),
           Pick(before.controlPlaneReady, after.controlPlaneReady, stored.controlPlaneReady),
           Pick(before.masterRun, after.masterRun, stored.masterRun),
           Pick(before.workerRun, after.workerRun, stored.workerRun),
           Pick(before.phase, after.phase, stored.phase),
           Pick(before.endpoint, after.endpoint, stored.endpoint))
  }

  lemma MergeOntoSnapshot(before: Status, after: Status)
    ensures MergeStatus(before, after, before) == after
  {
  }

  function MergeMain(before: Manager, after: Manager, stored: Manager): Manager {
    stored.(finalizers := Pick(before.finalizers, after.finalizers, stored.finalizers),
            annotations := MergeMap(before.annotations, after.annotations, stored.annotations),
            spec := MergeSpec(before.spec, after.spec, stored.spec))
  }

  predicate SameMain(before: Manager, after: Manager) {
    before.finalizers == after.finalizers && before.annotations == after.annotations && before.spec == after.spec
  }

  /** The patch helper's first request: metadata and spec. Nothing is sent if nothing differs,
      and the server lets nobody add a finalizer to an object that is being deleted. */
  function SendMain(s: Sys, key: Key, before: Manager, after: Manager): (Sys, bool) {
    if SameMain(before, after) then (s, true)
    else
      var t := Turn(s);
      var w := t.Now();
      if key !in w.managers then Write(t, s.Next().outcome, PatchManager(key), false, w)
      else
        var m := w.managers[key];
        var merged := MergeMain(before, after, m);
        Write(t, s.Next().outcome, PatchManager(key), m.deleting ==> merged.finalizers <= m.finalizers,
              PutManager(w, key, merged))
  }

  /** The patch helper's second request: the status. */
  function SendStatus(s: Sys, key: Key, before: Manager, after: Manager): (Sys, bool) {
    if before.status == after.status then (s, true)
    else
      var t := Turn(s);
      var w := t.Now();
      if key !in w.managers then Write(t, s.Next().outcome, PatchStatus(key), false, w)
      else
        var m := w.managers[key];
        Write(t, s.Next().outcome, PatchStatus(key), true,
              PutManager(w, key, m.(status := MergeStatus(before.status, after.status, m.status))))
  }

  /** patch.Helper.Patch on a manager. */
  function PatchObject(s: Sys, key: Key, before: Manager, after: Manager): (Sys, bool) {
    var (t, ok1) := SendMain(s, key, before, after);
    var (u, ok2) := SendStatus(t, key, before, after);
    (u, ok1 && ok2)
  }

  /** Only replicas and version of a child are ever changed by the controller. */
  function MergeChild(before: Child, after: Child, stored: Child): (merged: Child)
    ensures merged.Kind() == stored.Kind()
  {
    match (before, after, stored)
    case (ControlPlane(_, _, r0, v0, _), ControlPlane(_, _, r1, v1, _), ControlPlane(_, _, r, v, _)) =>
      stored.(replicas := Pick(r0, r1, r), version := Pick(v0, v1, v))
    case (MachineDeployment(_, _, _, r0, v0, _), MachineDeployment(_, _, _, r1, v1, _),
          MachineDeployment(_, _, _, r, v, _)) =>
      stored.(workers := Pick(r0, r1, r), templateVersion := Pick(v0, v1, v))
    case _ => stored
  }

  /** patch.Helper.Patch on a child whose status is left alone. */
  function PatchChildObject(s: Sys, ck: ChildKey, before: Child, after: Child): (Sys, bool) {
    if before == after then (s, true)
    else
      var t := Turn(s);
      var w := t.Now();
      if ck !in w.children then Write(t, s.Next().outcome, PatchChild(ck, after), false, w)
      else
        var merged := MergeChild(before, after, w.children[ck]);
        Write(t, s.Next().outcome, PatchChild(ck, merged), true, AddChild(w, ck, merged))
  }

  function Submit(s: Sys, key: Key, m: Manager): (Sys, bool) {
    var t := Turn(s);
    Write(t, s.Next().outcome, CreateManager(key), key !in t.Now().managers,
          t.Now().(managers := t.Now().managers[key := m]))
  }

  /** Status().Update on a claim fails if the claim was written since it was read. */
  function SendClaim(s: Sys, key: Key, c: Claim): (Sys, bool) {
    var t := Turn(s);
    var w := t.Now();
    var current := key in w.claims && w.claims[key].revision == c.revision;
    Write(t, s.Next().outcome, UpdateClaim(key), current,
          if current then PutClaim(w, key, w.claims[key].(phase := c.phase, reason := c.reason)) else w)
  }
}
