/** Names of the children and the way back from a child's name to its manager. */
module Naming {
  import opened Api
  import opened Text

  const CONTROL_PLANE := "-control-plane"
  const WORKERS := "-md-0"

  function Suffix(k: Key, suffix: string): Key {
    Key(k.namespace, k.name + suffix)
  }

  function ClusterKey(k: Key): ChildKey { ChildKey(ClusterKind, k) }
  function AwsClusterKey(k: Key): ChildKey { ChildKey(AwsClusterKind, k) }
  function ControlPlaneKey(k: Key): ChildKey { ChildKey(ControlPlaneKind, Suffix(k, CONTROL_PLANE)) }
  function MasterTemplateKey(k: Key): ChildKey { ChildKey(MachineTemplateKind, Suffix(k, CONTROL_PLANE)) }
  function DeploymentKey(k: Key): ChildKey { ChildKey(MachineDeploymentKind, Suffix(k, WORKERS)) }
  function WorkerTemplateKey(k: Key): ChildKey { ChildKey(MachineTemplateKind, Suffix(k, WORKERS)) }
  function ConfigTemplateKey(k: Key): ChildKey { ChildKey(ConfigTemplateKind, Suffix(k, WORKERS)) }

  /** The two chains, in the order in which they are created. */
  function ControlPlaneChain(k: Key): seq<ChildKey> {
    [ClusterKey(k), AwsClusterKey(k), ControlPlaneKey(k), MasterTemplateKey(k)]
  }

  function WorkerChain(k: Key): seq<ChildKey> {
    [DeploymentKey(k), WorkerTemplateKey(k), ConfigTemplateKey(k)]
  }

  ghost predicate IsChildOf(ck: ChildKey, k: Key) {
    ck in ControlPlaneChain(k) || ck in WorkerChain(k)
  }

  lemma NamesDiffer(a: string, b: string)
    ensures a + CONTROL_PLANE != b + WORKERS
  {
    var x, y := a + CONTROL_PLANE, b + WORKERS;
    assert x[|x| - 1] == 'e' && y[|y| - 1] == '0';
  }

  lemma SuffixInjective(a: string, b: string, suffix: string)
    requires a + suffix == b + suffix
    ensures a == b
  {
    assert |a| == |b|;
    assert (a + suffix)[..|a|] == a && (b + suffix)[..|b|] == b;
  }

  /** Within one manager the seven keys are distinct. */
  lemma ChildKeysDistinct(k: Key)
    ensures var all := ControlPlaneChain(k) + WorkerChain(k);
            forall i, j | 0 <= i < j < |all| :: all[i] != all[j]
  {
    NamesDiffer(k.name, k.name);
  }

  /** Children of two managers never share a key, whatever the managers are called. */
  lemma ChildKeysIsolated(k: Key, other: Key, ck: ChildKey)
    requires IsChildOf(ck, k) && IsChildOf(ck, other)
    ensures k == other
  {
    NamesDiffer(k.name, other.name);
    NamesDiffer(other.name, k.name);
    if k.name + CONTROL_PLANE == other.name + CONTROL_PLANE {
      SuffixInjective(k.name, other.name, CONTROL_PLANE);
    }
    if k.name + WORKERS == other.name + WORKERS {
      SuffixInjective(k.name, other.name, WORKERS);
    }
  }

  /** The watch handlers' way back: strings.Split(name, suffix)[0]. */
  function Unmap(name: string, suffix: string): string
    requires suffix != ""
  {
    Split(name, suffix)[0]
  }

  /** No proper end of the suffix is also a beginning of it. */
  ghost predicate Borderless(suffix: string) {
    forall d | 0 < d < |suffix| :: suffix[d..] != suffix[..|suffix| - d]
  }

  lemma ControlPlaneBorderless()
    ensures Borderless(CONTROL_PLANE)
  {
    forall d | 0 < d < |CONTROL_PLANE| ensures CONTROL_PLANE[d..] != CONTROL_PLANE[..|CONTROL_PLANE| - d] {
      var a, b := CONTROL_PLANE[d..], CONTROL_PLANE[..|CONTROL_PLANE| - d];
      if d == 8 {
        assert a[1] == 'p' && b[1] == 'c';
      } else {
        assert a[0] == CONTROL_PLANE[d] && b[0] == '-';
      }
    }
  }

  lemma WorkersBorderless()
    ensures Borderless(WORKERS)
  {
    forall d | 0 < d < |WORKERS| ensures WORKERS[d..] != WORKERS[..|WORKERS| - d] {
      var a, b := WORKERS[d..], WORKERS[..|WORKERS| - d];
      if d == 3 {
        assert a[1] == '0' && b[1] == 'm';
      } else {
        assert a[0] == WORKERS[d] && b[0] == '-';
      }
    }
  }

  /** An occurrence that straddles the end of n makes the suffix overlap itself. */
  lemma StraddlingOverlaps(n: string, suffix: string, i: nat)
    requires OccursAt(n + suffix, suffix, i) && i < |n| < i + |suffix|
    ensures suffix[|n| - i..] == suffix[..|suffix| - (|n| - i)]
  {
    var s, d := n + suffix, |n| - i;
    assert suffix[d..] == s[i..i + |suffix|][d..] == s[|n|..i + |suffix|] == suffix[..|suffix| - d];
  }

  /** An occurrence of a borderless suffix in n + suffix is the appended one or lies inside n. */
  lemma OccurrenceInside(n: string, suffix: string, i: nat)
    requires Borderless(suffix) && OccursAt(n + suffix, suffix, i)
    ensures i == |n| || (i + |suffix| <= |n| && OccursAt(n, suffix, i))
  {
    if i + |suffix| <= |n| {
      assert (n + suffix)[i..i + |suffix|] == n[i..i + |suffix|];
    } else if i < |n| {
      StraddlingOverlaps(n, suffix, i);
    }
  }

  /** The round trip, exactly: it returns n if and only if n does not contain the suffix;
      otherwise the handler is sent to a proper prefix of n, the part before the first occurrence. */
  lemma UnmapExact(n: string, suffix: string)
    requires suffix != "" && Borderless(suffix)
    ensures Unmap(n + suffix, suffix) == n <==> !Contains(n, suffix)
    ensures Contains(n, suffix) ==>
              var u := Unmap(n + suffix, suffix);
              |u| < |n| && n[..|u|] == u && OccursAt(n, suffix, |u|) && !Contains(u, suffix)
  {
    var s := n + suffix;
    FindIsFirst(s, suffix);
    var i := Find(s, suffix);
    assert s[|n|..|n| + |suffix|] == suffix;
    assert OccursAt(s, suffix, |n|);
    assert Unmap(s, suffix) == s[..i];
    OccurrenceInside(n, suffix, i);
    if Contains(n, suffix) {
      var j: nat :| OccursAt(n, suffix, j);
      assert s[j..j + |suffix|] == n[j..j + |suffix|];
      assert OccursAt(s, suffix, j);
      assert i < |n|;
      var u := s[..i];
      assert u == n[..i];
      forall h: nat | OccursAt(u, suffix, h) ensures false {
        assert s[h..h + |suffix|] == u[h..h + |suffix|];
        assert OccursAt(s, suffix, h);
      }
    } else {
      assert i == |n| && s[..|n|] == n;
    }
  }

  /** The border condition is needed: with the suffix "--" the name "-" does not contain the
      suffix and still does not come back. */
  lemma UnmapNeedsBorderless()
    ensures !Contains("-", "--") && Unmap("-" + "--", "--") != "-"
  {
    var s := "-" + "--";
    assert s[0..2] == "--" && OccursAt(s, "--", 0);
    assert Find(s, "--") == 0;
    assert Split(s, "--")[0] == s[..0];
  }
}
