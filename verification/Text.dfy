/** The three string operations of the Go library that the operator relies on:
    first occurrence, strings.Split and a single strings.Replace. */
module Text {

  ghost predicate OccursAt(s: string, p: string, i: nat) {
    i + |p| <= |s| && s[i..i + |p|] == p
  }

  ghost predicate Contains(s: string, p: string) {
    exists i: nat :: OccursAt(s, p, i)
  }

  /** Position of the first occurrence of p in s, or -1. */
  function Find(s: string, p: string): (i: int)
    requires p != ""
    ensures -1 <= i && (i >= 0 ==> i + |p| <= |s|)
  {
    if |s| < |p| then -1
    else if s[..|p|] == p then 0
    else
      var i := Find(s[1..], p);
      if i < 0 then -1 else i + 1
  }

  lemma OccursShifts(a: string, x: string, p: string, i: nat)
    ensures OccursAt(a + x, p, |a| + i) <==> OccursAt(x, p, i)
  {
    if i + |p| <= |x| {
      assert (a + x)[|a| + i..|a| + i + |p|] == x[i..i + |p|];
    }
  }

  /** Find returns the first occurrence, and -1 only if there is none. */
  lemma {:induction false} FindIsFirst(s: string, p: string)
    requires p != ""
    ensures Find(s, p) >= 0 ==> OccursAt(s, p, Find(s, p))
    ensures forall j: nat | OccursAt(s, p, j) :: 0 <= Find(s, p) <= j
  {
    if |s| >= |p| {
      if s[..|p|] == p {
        assert OccursAt(s, p, 0);
      } else {
        var r := s[1..];
        FindIsFirst(r, p);
        assert s == s[..1] + r && !OccursAt(s, p, 0);
        if Find(r, p) >= 0 {
          OccursShifts(s[..1], r, p, Find(r, p));
        }
        forall j: nat | OccursAt(s, p, j) ensures 0 <= Find(s, p) <= j {
          assert j > 0;
          OccursShifts(s[..1], r, p, j - 1);
        }
      }
    }
  }

  /** strings.Split for a nonempty separator. */
  function Split(s: string, sep: string): (pieces: seq<string>)
    requires sep != ""
    ensures pieces != []
    decreases |s|
  {
    var i := Find(s, sep);
    if i < 0 then [s] else [s[..i]] + Split(s[i + |sep|..], sep)
  }

  /** strings.Replace with a count of one. */
  function ReplaceOnce(s: string, p: string, v: string): string
    requires p != ""
  {
    var i := Find(s, p);
    if i < 0 then s else s[..i] + v + s[i + |p|..]
  }

  function Join(pieces: seq<string>, sep: string): string
    requires pieces != []
  {
    if |pieces| == 1 then pieces[0] else pieces[0] + sep + Join(pieces[1..], sep)
  }

  /** Splitting loses nothing: the pieces joined again give the text. */
  lemma {:induction false} JoinSplit(s: string, sep: string)
    requires sep != ""
    ensures Join(Split(s, sep), sep) == s
    decreases |s|
  {
    var i := Find(s, sep);
    if i >= 0 {
      FindIsFirst(s, sep);
      JoinSplit(s[i + |sep|..], sep);
      assert Split(s, sep)[1..] == Split(s[i + |sep|..], sep);
      assert s == s[..i] + s[i..i + |sep|] + s[i + |sep|..];
    }
  }

  /** If p starts nowhere inside a, searching a + x is searching x. */
  lemma FindSkips(a: string, x: string, p: string)
    requires p != ""
    requires forall i: nat | i < |a| :: !OccursAt(a + x, p, i)
    ensures Find(a + x, p) == (if Find(x, p) < 0 then -1 else |a| + Find(x, p))
  {
    hide OccursAt, Find;
    FindIsFirst(a + x, p);
    FindIsFirst(x, p);
    var i, j := Find(a + x, p), Find(x, p);
    if j >= 0 {
      OccursShifts(a, x, p, j);
    }
    if i >= 0 {
      OccursShifts(a, x, p, i - |a|);
    }
  }
}
