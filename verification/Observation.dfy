/** What the status phase makes of the remote cluster: node counts, provider and readiness. */
module Observation {
  import opened Api
  import opened Text

  const MASTER_LABEL := "node-role.kubernetes.io/master"
  const PROVIDER_UNKNOWN := "Unknown"

  datatype Node = Node(labels: set<string>, conditions: seq<string>, providerID: string)

  /** The kubeadm-config map: whether it decodes, the version it prints, and the text after
      "cloud-provider: " if the pattern matches. */
  datatype Config = Config(decodes: bool, version: string, cloudProvider: Option<string>)

  /** The answers of the remote cluster and of the kubeconfig secret's read; None is a failed read. */
  datatype Remote = Remote(
    secret: bool,
    client: bool,
    config: Option<Config>,
    nodes: Option<seq<Node>>,
    readyz: Option<string>,
    suffix: string)

  /** strings.ToUpper on the letters that can produce a provider name; the long s is one of them. */
  function Upper(s: string): (u: string)
    ensures |u| == |s|
  {
    if s == "" then ""
    else
      var c := s[0];
      [if 'a' <= c <= 'z' then 'A' + (c - 'a') else if c == '\U{017F}' then 'S' else c] + Upper(s[1..])
  }

  function ProviderName(provider: string): string {
    var u := Upper(provider);
    if u == "AWS" then "AWS" else if u == "VSPHERE" then "vSphere" else PROVIDER_UNKNOWN
  }

  predicate IsMaster(n: Node) {
    MASTER_LABEL in n.labels
  }

  predicate IsReady(n: Node) {
    n.conditions != [] && n.conditions[|n.conditions| - 1] == "Ready"
  }

  predicate IsWorker(n: Node) {
    !IsMaster(n)
  }

  predicate RunsMaster(n: Node) {
    IsMaster(n) && IsReady(n)
  }

  predicate RunsWorker(n: Node) {
    IsWorker(n) && IsReady(n)
  }

  function NodeProvider(n: Node): string {
    if n.providerID == "" then PROVIDER_UNKNOWN else ProviderName(Split(n.providerID, "://")[0])
  }

  function Count(nodes: seq<Node>, p: Node -> bool): nat {
    if nodes == [] then 0
    else Count(nodes[..|nodes| - 1], p) + if p(nodes[|nodes| - 1]) then 1 else 0
  }

  /** The provider after a list of nodes: a recognized one sticks. */
  function Provider(nodes: seq<Node>): string {
    if nodes == [] then PROVIDER_UNKNOWN
    else
      var p := Provider(nodes[..|nodes| - 1]);
      if p != PROVIDER_UNKNOWN then p else NodeProvider(nodes[|nodes| - 1])
  }

  /** The first node without conditions; indexing its last condition panics. */
  function FirstBare(nodes: seq<Node>): (i: nat)
    ensures i <= |nodes|
    ensures forall j | 0 <= j < i :: nodes[j].conditions != []
    ensures i < |nodes| ==> nodes[i].conditions == []
  {
    if nodes == [] || nodes[0].conditions == [] then 0 else 1 + FirstBare(nodes[1..])
  }

  /** The counters after the nodes before `bare`, plus the node at which the loop panics. */
  function Tally(m: Manager, nodes: seq<Node>): Manager {
    var i := FirstBare(nodes);
    var seen := nodes[..i];
    var counted := if i < |nodes| then nodes[..i + 1] else nodes;
    m.(spec := m.spec.(masterNum := Count(counted, IsMaster),
                       workerNum := Count(counted, IsWorker),
                       provider := Provider(seen)),
       status := m.status.(masterRun := Count(seen, RunsMaster),
                           workerRun := Count(seen, RunsWorker),
                           provider := Provider(seen)))
  }

  function FromConfig(m: Manager, config: Config): Manager {
    if m.spec.provider == PROVIDER_UNKNOWN && config.cloudProvider.Some? then
      var p := ProviderName(config.cloudProvider.value);
      m.(spec := m.spec.(provider := p), status := m.status.(provider := p))
    else m
  }

  const WAIT_FOR_KUBECONFIG := Result(false, 10)
  const WAIT_FOR_READY := Result(false, 30)

  function Observe(m: Manager, remote: Remote): (Manager, Answer) {
    if m.status.controlPlaneReady then (m, Returned(ZERO, false))
    else if !remote.secret || !remote.client then (m, Returned(WAIT_FOR_KUBECONFIG, false))
    else if remote.config.None? || !remote.config.value.decodes then (m, Returned(ZERO, true))
    else
      var m1 := m.(spec := m.spec.(version := remote.config.value.version));
      if remote.nodes.None? then (m1, Returned(ZERO, false))
      else
        var m2 := Tally(m1, remote.nodes.value);
        if FirstBare(remote.nodes.value) < |remote.nodes.value| then (m2, Panicked)
        else
          var m3 := FromConfig(m2, remote.config.value);
          if remote.readyz.None? then (m3, Returned(ZERO, true))
          else
            var up := remote.readyz.value == "ok";
            var m4 := m3.(status := m3.status.(ready := up, controlPlaneReady := up));
            if !up then (m4, Returned(WAIT_FOR_READY, false))
            else if m4.annotations == map[] then (m4, Panicked)
            else (m4.(annotations := m4.annotations[ANNOTATION_SUFFIX := remote.suffix]), Returned(ZERO, false))
  }

  lemma {:induction false} CountSplits(nodes: seq<Node>)
    ensures Count(nodes, IsMaster) + Count(nodes, IsWorker) == |nodes|
  {
    if nodes != [] { CountSplits(nodes[..|nodes| - 1]); }
  }

  lemma {:induction false} CountMonotone(nodes: seq<Node>, p: Node -> bool, q: Node -> bool)
    requires forall n :: p(n) ==> q(n)
    ensures Count(nodes, p) <= Count(nodes, q)
  {
    if nodes != [] { CountMonotone(nodes[..|nodes| - 1], p, q); }
  }

  /** The counts in closed form: every node is a master or a worker, no more run than exist,
      and both provider fields agree. */
  lemma TallyCounts(m: Manager, nodes: seq<Node>)
    requires FirstBare(nodes) == |nodes|
    ensures var t := Tally(m, nodes);
            && t.spec.masterNum + t.spec.workerNum == |nodes|
            && 0 <= t.status.masterRun <= t.spec.masterNum
            && 0 <= t.status.workerRun <= t.spec.workerNum
            && t.status.provider == t.spec.provider
  {
    assert nodes[..|nodes|] == nodes;
    CountSplits(nodes);
    CountMonotone(nodes, RunsMaster, IsMaster);
    CountMonotone(nodes, RunsWorker, IsWorker);
  }

  lemma TallyEmpty(m: Manager)
    ensures Tally(m, []) == m.(spec := m.spec.(masterNum := 0, workerNum := 0, provider := PROVIDER_UNKNOWN),
                               status := m.status.(masterRun := 0, workerRun := 0, provider := PROVIDER_UNKNOWN))
  {
  }

  function Bump(n: int, b: bool): int {
    if b then n + 1 else n
  }

  /** One more node with conditions. */
  lemma TallyGrows(m: Manager, nodes: seq<Node>, i: nat)
    requires i < |nodes| && forall j | 0 <= j <= i :: nodes[j].conditions != []
    ensures var n, t, u := nodes[i], Tally(m, nodes[..i]), Tally(m, nodes[..i + 1]);
            var p := if t.spec.provider != PROVIDER_UNKNOWN then t.spec.provider else NodeProvider(n);
            u == t.(spec := t.spec.(masterNum := Bump(t.spec.masterNum, IsMaster(n)),
                                    workerNum := Bump(t.spec.workerNum, IsWorker(n)),
                                    provider := p),
                    status := t.status.(masterRun := Bump(t.status.masterRun, RunsMaster(n)),
                                        workerRun := Bump(t.status.workerRun, RunsWorker(n)),
                                        provider := p))
  {
    var xs, ys := nodes[..i], nodes[..i + 1];
    assert ys[..i] == xs && ys[i] == nodes[i];
    assert xs[..i] == xs && ys[..i + 1] == ys;
    assert FirstBare(xs) == i && FirstBare(ys) == i + 1;
  }

  /** A node without conditions is counted and ends the loop. */
  lemma TallyPanics(m: Manager, nodes: seq<Node>, i: nat)
    requires i < |nodes| && nodes[i].conditions == [] && forall j | 0 <= j < i :: nodes[j].conditions != []
    ensures var n, t := nodes[i], Tally(m, nodes[..i]);
            Tally(m, nodes) == t.(spec := t.spec.(masterNum := Bump(t.spec.masterNum, IsMaster(n)),
                                                  workerNum := Bump(t.spec.workerNum, IsWorker(n))))
  {
    var xs, ys := nodes[..i], nodes[..i + 1];
    assert ys[..i] == xs && xs[..i] == xs && ys[i] == nodes[i];
    assert FirstBare(xs) == i && FirstBare(nodes) == i;
  }

  ghost predicate FirstRecognized(nodes: seq<Node>, i: nat) {
    && i < |nodes|
    && NodeProvider(nodes[i]) != PROVIDER_UNKNOWN
    && forall j | 0 <= j < i :: NodeProvider(nodes[j]) == PROVIDER_UNKNOWN
  }

  /** The provider is the one of the first node whose scheme is recognized, and only that. */
  lemma {:induction false} ProviderIsFirst(nodes: seq<Node>)
    ensures forall i: nat | FirstRecognized(nodes, i) :: Provider(nodes) == NodeProvider(nodes[i])
    ensures Provider(nodes) == PROVIDER_UNKNOWN <==> forall n | n in nodes :: NodeProvider(n) == PROVIDER_UNKNOWN
  {
    if nodes != [] {
      var init, last := nodes[..|nodes| - 1], nodes[|nodes| - 1];
      ProviderIsFirst(init);
      assert nodes == init + [last];
      forall i: nat | FirstRecognized(nodes, i) ensures Provider(nodes) == NodeProvider(nodes[i]) {
        if i < |init| {
          assert FirstRecognized(init, i);
        } else {
          assert forall n | n in init :: NodeProvider(n) == PROVIDER_UNKNOWN;
        }
      }
    }
  }

  /** The remote cluster answers every question, and every node has conditions. */
  ghost predicate Readable(remote: Remote) {
    && remote.secret && remote.client && remote.config.Some? && remote.config.value.decodes
    && remote.nodes.Some? && (forall n | n in remote.nodes.value :: n.conditions != [])
    && remote.readyz.Some?
  }

  /** A complete look at the remote cluster: what it leaves in spec and status, in terms of the
      remote cluster alone. The manager's own size and provider are overwritten, and readiness
      is what the remote API server says. */
  lemma ObservedExactly(m: Manager, remote: Remote)
    requires !m.status.controlPlaneReady && Readable(remote) && m.annotations != map[]
    ensures var nodes := remote.nodes.value; var (c, a) := Observe(m, remote);
            && c.spec.version == remote.config.value.version
            && c.spec.masterNum + c.spec.workerNum == |nodes|
            && c.spec.masterNum == Count(nodes, IsMaster)
            && 0 <= c.status.masterRun <= c.spec.masterNum && 0 <= c.status.workerRun <= c.spec.workerNum
            && c.status.provider == c.spec.provider
            && (forall i: nat | FirstRecognized(nodes, i) :: c.spec.provider == NodeProvider(nodes[i]))
            && ((forall n | n in nodes :: NodeProvider(n) == PROVIDER_UNKNOWN) ==>
                  c.spec.provider == match remote.config.value.cloudProvider
                                     case Some(p) => ProviderName(p)
                                     case None => PROVIDER_UNKNOWN)
            && (c.status.controlPlaneReady <==> remote.readyz == Some("ok"))
            && (c.status.ready <==> remote.readyz == Some("ok"))
            && a == Returned(if remote.readyz == Some("ok") then Result(false, 0) else Result(false, 30), false)
  {
    hide Count, Provider, ProviderName, NodeProvider;
    var nodes := remote.nodes.value;
    assert FirstBare(nodes) == |nodes| && nodes[..|nodes|] == nodes;
    TallyCounts(m.(spec := m.spec.(version := remote.config.value.version)), nodes);
    ProviderIsFirst(nodes);
  }

  // ---------------------------------------------------------------------------------------
  // Provider names, letter by letter

  predicate IsLetter(c: char, lower: char, upper: char) {
    c == lower || c == upper
  }

  predicate IsS(c: char) {
    IsLetter(c, 's', 'S') || c == '\U{017F}'
  }

  predicate SpellsAws(p: string) {
    |p| == 3 && IsLetter(p[0], 'a', 'A') && IsLetter(p[1], 'w', 'W') && IsS(p[2])
  }

  predicate SpellsVsphere(p: string) {
    && |p| == 7 && IsLetter(p[0], 'v', 'V') && IsS(p[1]) && IsLetter(p[2], 'p', 'P') && IsLetter(p[3], 'h', 'H')
    && IsLetter(p[4], 'e', 'E') && IsLetter(p[5], 'r', 'R') && IsLetter(p[6], 'e', 'E')
  }

  /** The provider that a spelling stands for. */
  function Spelled(p: string): string {
    if SpellsAws(p) then "AWS" else if SpellsVsphere(p) then "vSphere" else "Unknown"
  }

  lemma {:induction false} UpperAt(s: string, i: nat)
    requires i < |s|
    ensures var u := Upper(s)[i];
            && (u == 'A' <==> IsLetter(s[i], 'a', 'A')) && (u == 'W' <==> IsLetter(s[i], 'w', 'W'))
            && (u == 'S' <==> IsS(s[i])) && (u == 'V' <==> IsLetter(s[i], 'v', 'V'))
            && (u == 'P' <==> IsLetter(s[i], 'p', 'P')) && (u == 'H' <==> IsLetter(s[i], 'h', 'H'))
            && (u == 'E' <==> IsLetter(s[i], 'e', 'E')) && (u == 'R' <==> IsLetter(s[i], 'r', 'R'))
  {
    if i > 0 {
      UpperAt(s[1..], i - 1);
      assert Upper(s)[i] == Upper(s[1..])[i - 1] && s[1..][i - 1] == s[i];
    }
  }

  /** A provider name is recognized by its letters, in either case, and by nothing else. */
  lemma ProviderNameExactly(p: string)
    ensures ProviderName(p) == Spelled(p)
    ensures ProviderName(p) == "AWS" <==> SpellsAws(p)
    ensures ProviderName(p) == "vSphere" <==> SpellsVsphere(p)
    ensures ProviderName(p) == "Unknown" <==> !SpellsAws(p) && !SpellsVsphere(p)
  {
    hide Upper;
    var u := Upper(p);
    forall i: nat | i < |p|
      ensures (u[i] == 'A' <==> IsLetter(p[i], 'a', 'A')) && (u[i] == 'W' <==> IsLetter(p[i], 'w', 'W'))
      ensures (u[i] == 'S' <==> IsS(p[i])) && (u[i] == 'V' <==> IsLetter(p[i], 'v', 'V'))
      ensures (u[i] == 'P' <==> IsLetter(p[i], 'p', 'P')) && (u[i] == 'H' <==> IsLetter(p[i], 'h', 'H'))
      ensures (u[i] == 'E' <==> IsLetter(p[i], 'e', 'E')) && (u[i] == 'R' <==> IsLetter(p[i], 'r', 'R'))
    {
      UpperAt(p, i);
    }
    assert u == "AWS" <==> |u| == 3 && u[0] == 'A' && u[1] == 'W' && u[2] == 'S';
    assert u == "VSPHERE" <==> |u| == 7 && u[0] == 'V' && u[1] == 'S' && u[2] == 'P' && u[3] == 'H'
                               && u[4] == 'E' && u[5] == 'R' && u[6] == 'E';
  }

  /** The text before the first "://", or all of it. */
  function Scheme(id: string): string {
    Split(id, "://")[0]
  }

  /** A scheme without a colon is what stands before "://". */
  lemma SchemeStands(scheme: string, rest: string)
    requires ':' !in scheme
    ensures Scheme(scheme + "://" + rest) == scheme
  {
    var s := scheme + "://" + rest;
    FindIsFirst(s, "://");
    assert s[|scheme|..|scheme| + 3] == "://" && OccursAt(s, "://", |scheme|);
    forall j: nat | j < |scheme| ensures !OccursAt(s, "://", j) {
      assert s[j] == scheme[j] != ':' && s[j..j + 3][0] == s[j];
    }
    assert s[..|scheme|] == scheme;
  }

  lemma NodeProviderExactly(n: Node)
    ensures NodeProvider(n) == Spelled(Scheme(n.providerID))
  {
    hide ProviderName;
    ProviderNameExactly(Scheme(n.providerID));
    if n.providerID == "" {
      assert Find("", "://") == -1;
    }
  }

  /** The provider after a complete look: the spelling of the first node whose scheme spells one,
      else of the cloud provider in the kubeadm-config, else Unknown; in spec and status alike. */
  lemma ObservedProvider(m: Manager, remote: Remote, i: nat)
    requires !m.status.controlPlaneReady && Readable(remote) && m.annotations != map[]
    requires i <= |remote.nodes.value|
    requires forall j | 0 <= j < i :: Spelled(Scheme(remote.nodes.value[j].providerID)) == "Unknown"
    requires i < |remote.nodes.value| ==> Spelled(Scheme(remote.nodes.value[i].providerID)) != "Unknown"
    ensures var nodes := remote.nodes.value; var c := Observe(m, remote).0;
            && c.spec.provider == c.status.provider
            && c.spec.provider == if i < |nodes| then Spelled(Scheme(nodes[i].providerID))
                                  else match remote.config.value.cloudProvider
                                       case Some(p) => Spelled(p)
                                       case None => "Unknown"
  {
    hide Observe, ProviderName, NodeProvider, Scheme, Spelled;
    var nodes := remote.nodes.value;
    ObservedExactly(m, remote);
    forall n ensures NodeProvider(n) == Spelled(Scheme(n.providerID)) {
      NodeProviderExactly(n);
    }
    match remote.config.value.cloudProvider {
      case Some(p) => ProviderNameExactly(p);
      case None =>
    }
    if i < |nodes| {
      assert FirstRecognized(nodes, i);
    }
  }

  /** For instance, a first recognized node "aws://..." makes it AWS, and "vsphere://..." vSphere. */
  lemma ObservedScheme(m: Manager, remote: Remote, i: nat, scheme: string, rest: string)
    requires !m.status.controlPlaneReady && Readable(remote) && m.annotations != map[]
    requires i < |remote.nodes.value| && remote.nodes.value[i].providerID == scheme + "://" + rest
    requires forall j | 0 <= j < i :: Spelled(Scheme(remote.nodes.value[j].providerID)) == "Unknown"
    requires SpellsAws(scheme) || SpellsVsphere(scheme)
    ensures var c := Observe(m, remote).0;
            c.spec.provider == c.status.provider == if SpellsAws(scheme) then "AWS" else "vSphere"
  {
    hide Observe, Scheme;
    SchemeStands(scheme, rest);
    ObservedProvider(m, remote, i);
  }

  // ---------------------------------------------------------------------------------------
  // Counts as sizes, and the early ends of the refresh

  function Indices(nodes: seq<Node>, p: Node -> bool): set<nat> {
    set i: nat | i < |nodes| && p(nodes[i])
  }

  lemma {:induction false} CountIsSize(nodes: seq<Node>, p: Node -> bool)
    ensures Count(nodes, p) == |Indices(nodes, p)|
  {
    if nodes == [] {
      assert Indices(nodes, p) == {};
    } else {
      var n := |nodes| - 1;
      CountIsSize(nodes[..n], p);
      assert Indices(nodes, p) == Indices(nodes[..n], p) + if p(nodes[n]) then {n} else {};
    }
  }

  /** The number of nodes that have the master label or not, or of those of them whose last
      condition is Ready. */
  function Nodes(nodes: seq<Node>, master: bool, running: bool): nat {
    |set i: nat | i < |nodes| && (master <==> "node-role.kubernetes.io/master" in nodes[i].labels)
                  && (running ==> |nodes[i].conditions| > 0
                                  && nodes[i].conditions[|nodes[i].conditions| - 1] == "Ready")|
  }

  lemma NodesAreIndices(nodes: seq<Node>, master: bool, running: bool, p: Node -> bool)
    requires p == if master then (if running then RunsMaster else IsMaster)
                  else if running then RunsWorker else IsWorker
    ensures Count(nodes, p) == Nodes(nodes, master, running)
  {
    CountIsSize(nodes, p);
    assert (set i: nat | i < |nodes| && (master <==> "node-role.kubernetes.io/master" in nodes[i].labels)
                         && (running ==> |nodes[i].conditions| > 0
                                         && nodes[i].conditions[|nodes[i].conditions| - 1] == "Ready"))
        == Indices(nodes, p);
  }

  /** A complete look counts every node once: as a master by its label or as a worker, and as
      running if its last condition is Ready. */
  lemma CountedExactly(m: Manager, remote: Remote)
    requires !m.status.controlPlaneReady && Readable(remote)
    ensures var nodes := remote.nodes.value; var c := Observe(m, remote).0;
            && c.spec.masterNum == Nodes(nodes, true, false) && c.status.masterRun == Nodes(nodes, true, true)
            && c.spec.workerNum == Nodes(nodes, false, false) && c.status.workerRun == Nodes(nodes, false, true)
  {
    hide Count, Provider, ProviderName, Nodes, IsMaster, IsWorker, RunsMaster, RunsWorker;
    var nodes := remote.nodes.value;
    assert FirstBare(nodes) == |nodes| && nodes[..|nodes|] == nodes;
    NodesAreIndices(nodes, true, false, IsMaster);
    NodesAreIndices(nodes, false, false, IsWorker);
    NodesAreIndices(nodes, true, true, RunsMaster);
    NodesAreIndices(nodes, false, true, RunsWorker);
  }

  /** What the refresh answers and has overwritten when it ends early, panics included: they lose
      nothing of what was counted and found by then. */
  lemma ObserveStops(m: Manager, remote: Remote)
    ensures m.status.controlPlaneReady ==> Observe(m, remote) == (m, Returned(Result(false, 0), false))
    ensures !m.status.controlPlaneReady && !(remote.secret && remote.client) ==>
              Observe(m, remote) == (m, Returned(Result(false, 10), false))
    ensures !m.status.controlPlaneReady && remote.secret && remote.client
            && (remote.config.None? || !remote.config.value.decodes) ==>
              Observe(m, remote) == (m, Returned(Result(false, 0), true))
    ensures !m.status.controlPlaneReady && remote.secret && remote.client
            && remote.config.Some? && remote.config.value.decodes && remote.nodes.None? ==>
              Observe(m, remote)
              == (m.(spec := m.spec.(version := remote.config.value.version)), Returned(Result(false, 0), false))
    ensures !m.status.controlPlaneReady && remote.secret && remote.client
            && remote.config.Some? && remote.config.value.decodes && remote.nodes.Some? && remote.readyz.None?
            && (forall n | n in remote.nodes.value :: n.conditions != []) ==>
              var (c, a) := Observe(m, remote);
              && a == Returned(Result(false, 0), true)
              && c.status.ready == m.status.ready && !c.status.controlPlaneReady && c.annotations == m.annotations
              && c.spec.masterNum + c.spec.workerNum == |remote.nodes.value|
    ensures !m.status.controlPlaneReady && remote.secret && remote.client
            && remote.config.Some? && remote.config.value.decodes && remote.nodes.Some?
            && (exists n | n in remote.nodes.value :: n.conditions == []) ==>
              Observe(m, remote)
              == (Tally(m.(spec := m.spec.(version := remote.config.value.version)), remote.nodes.value), Panicked)
    ensures !m.status.controlPlaneReady && Readable(remote) && remote.readyz == Some("ok") && m.annotations == map[] ==>
              var (c, a) := Observe(m, remote);
              && a == Panicked && c.annotations == map[] && c.status.ready && c.status.controlPlaneReady
              && c.spec.version == remote.config.value.version
              && c.spec.masterNum + c.spec.workerNum == |remote.nodes.value|
  {
    hide Count, Provider, ProviderName;
    if remote.nodes.Some? {
      var nodes := remote.nodes.value;
      assert FirstBare(nodes) < |nodes| ==> nodes[FirstBare(nodes)] in nodes;
      if forall n | n in nodes :: n.conditions != [] {
        assert FirstBare(nodes) == |nodes| && nodes[..|nodes|] == nodes;
        CountSplits(nodes);
      }
    }
  }

  /** What a complete look does to the annotations: it sets the suffix if the cluster is up. */
  lemma ObservedAnnotations(m: Manager, remote: Remote)
    requires !m.status.controlPlaneReady && Readable(remote) && m.annotations != map[]
    ensures var c := Observe(m, remote).0;
            && (forall key | key != "clustermanager.cluster.sseung.com/suffix" || remote.readyz != Some("ok") ::
                  (key in c.annotations <==> key in m.annotations)
                  && (key in m.annotations ==> c.annotations[key] == m.annotations[key]))
            && (remote.readyz == Some("ok") ==>
                  && "clustermanager.cluster.sseung.com/suffix" in c.annotations
                  && c.annotations["clustermanager.cluster.sseung.com/suffix"] == remote.suffix)
  {
    hide Count, Provider, ProviderName;
    assert FirstBare(remote.nodes.value) == |remote.nodes.value|;
  }
}
