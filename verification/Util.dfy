/** The requeue-result minimum and the merge of two printed JSON objects. */
module Util {
  import opened Api
  import opened Text

  function LowestNonZeroResult(i: Result, j: Result): Result {
    if i.IsZero() then j
    else if j.IsZero() then i
    else if i.requeue then i
    else if j.requeue then j
    else if i.after < j.after then i
    else j
  }

  /** Combining a list from the left. */
  function Combined(rs: seq<Result>): Result {
    if rs == [] then ZERO else LowestNonZeroResult(Combined(rs[..|rs| - 1]), rs[|rs| - 1])
  }

  /** r is the first result that requeues at once or, if none does, a nonzero one with the least
      delay; it is zero only if all are. */
  ghost predicate MostUrgent(r: Result, rs: seq<Result>) {
    if exists x :: x in rs && x.requeue then
      exists i | 0 <= i < |rs| :: rs[i] == r && r.requeue && forall j | 0 <= j < i :: !rs[j].requeue
    else if exists x :: x in rs && x != ZERO then
      r in rs && r != ZERO && forall x | x in rs && x != ZERO :: r.after <= x.after
    else r == ZERO
  }

  lemma ResultMonoid(a: Result, b: Result, c: Result)
    ensures LowestNonZeroResult(ZERO, a) == a == LowestNonZeroResult(a, ZERO)
    ensures LowestNonZeroResult(LowestNonZeroResult(a, b), c) == LowestNonZeroResult(a, LowestNonZeroResult(b, c))
  {
  }

  /** The fold over any list yields its most urgent member. */
  lemma {:induction false} CombinedIsMostUrgent(rs: seq<Result>)
    ensures MostUrgent(Combined(rs), rs)
  {
    if rs != [] {
      var init, last := rs[..|rs| - 1], rs[|rs| - 1];
      CombinedIsMostUrgent(init);
      assert rs == init + [last];
      UrgencyGrows(Combined(init), init, last);
    }
  }

  lemma UrgencyGrows(r: Result, rs: seq<Result>, last: Result)
    requires MostUrgent(r, rs)
    ensures MostUrgent(LowestNonZeroResult(r, last), rs + [last])
  {
    var all, l := rs + [last], LowestNonZeroResult(r, last);
    assert all[|rs|] == last && forall i | 0 <= i < |rs| :: all[i] == rs[i];
    if x :| x in rs && x.requeue {
      var i :| 0 <= i < |rs| && rs[i] == r && r.requeue && forall j | 0 <= j < i :: !rs[j].requeue;
      assert x in all && all[i] == l;
    } else if last.requeue {
      assert last in all && l == last;
    } else if y :| y in rs && y != ZERO {
      assert y in all;
    } else {
      assert last in all && l == last;
    }
  }

  /** How a list is grouped does not matter. */
  lemma {:induction false} CombinedAppends(a: seq<Result>, b: seq<Result>)
    ensures Combined(a + b) == LowestNonZeroResult(Combined(a), Combined(b))
  {
    if b == [] {
      assert a + b == a;
    } else {
      var init, last := b[..|b| - 1], b[|b| - 1];
      CombinedAppends(a, init);
      assert (a + b)[..|a + b| - 1] == a + init;
      ResultMonoid(Combined(a), Combined(init), last);
    }
  }

  // ---------------------------------------------------------------------------------------
  // MergeJson

  /** A Go slice: a window of a backing array, with room to grow up to its capacity. */
  datatype Slice = Slice(buf: array<char>, start: nat, len: nat, cap: nat) {
    ghost predicate Valid() {
      len <= cap && start + cap <= buf.Length
    }

    function Contents(): string
      requires Valid()
      reads buf
    {
      buf[start..start + len]
    }
  }

  /** The intended text: the first object without its last byte, a comma, and the second object
      without its first byte. */
  function Merged(dest: string, source: string): string
    requires dest != "" && source != ""
  {
    dest[..|dest| - 1] + "," + source[1..]
  }

  /** The byte that the comma overwrites is one that is still to be read from the source. */
  ghost predicate Clobbers(dest: Slice, source: Slice)
    requires dest.Valid() && dest.len > 0
    reads dest.buf
  {
    var p := dest.start + dest.len - 1;
    dest.buf == source.buf && source.start < p < source.start + source.len && dest.buf[p] != ','
  }

  /** The array with the text x written over it from position p. */
  function Spliced(a: string, p: nat, x: string): string
    requires p + |x| <= |a|
  {
    a[..p] + x + a[p + |x|..]
  }

  /** A comma at p, and nothing else changed before p or from `end` on. */
  ghost predicate CommaLeft(was: string, now: string, p: nat, end: nat) {
    |now| == |was| && p < end <= |was| && now[p] == ',' && now[..p] == was[..p] && now[end..] == was[end..]
  }

  /** append(dest, x...): in place if the capacity allows, else into a new array with some spare
      room. The copy reads all of x before it writes, as Go's does. */
  method Append(dest: Slice, x: string, spare: nat) returns (r: Slice)
    requires dest.Valid()
    modifies dest.buf
    ensures r.Valid() && r.Contents() == old(dest.Contents()) + x
    ensures if dest.len + |x| <= dest.cap
            then r == dest.(len := dest.len + |x|)
                 && dest.buf[..] == Spliced(old(dest.buf[..]), dest.start + dest.len, x)
            else fresh(r.buf) && dest.buf[..] == old(dest.buf[..])
  {
    ghost var was := dest.buf[..];
    var n := dest.len + |x|;
    if n <= dest.cap {
      var base := dest.start + dest.len;
      forall i | 0 <= i < |x| {
        dest.buf[base + i] := x[i];
      }
      r := dest.(len := n);
      assert dest.buf[..] == Spliced(was, base, x);
    } else {
      var text := dest.Contents() + x;
      var buf := new char[n + spare](i requires 0 <= i => if i < |text| then text[i] else '\0');
      r := Slice(buf, 0, n, n + spare);
      assert r.Contents() == text;
    }
  }

  /** MergeJson as written: it panics on an empty slice, leaves a comma in the caller's first
      slice, and yields the intended text exactly if the comma is not written over a byte that
      it still has to read. */
  method MergeJson(dest: Slice, source: Slice, spare: nat) returns (r: Option<Slice>)
    requires dest.Valid() && source.Valid()
    modifies dest.buf
    ensures r.None? <==> dest.len == 0 || source.len == 0
    ensures r.Some? ==> r.value.Valid()
    ensures r.Some? ==>
              (r.value.Contents() == Merged(old(dest.Contents()), old(source.Contents()))
               <==> !old(Clobbers(dest, source)))
    ensures dest.len > 0 ==>
              CommaLeft(old(dest.buf[..]), dest.buf[..], dest.start + dest.len - 1, dest.start + dest.cap)
  {
    hide Merged, Spliced, CommaLeft;
    if dest.len == 0 {
      return None;
    }
    ghost var first, second, was := dest.Contents(), source.Contents(), dest.buf[..];
    ghost var p, clash := dest.start + dest.len - 1, Clobbers(dest, source);
    var cut := ReplaceLast(dest, spare);
    if source.len == 0 {
      FrameHolds(was, dest.buf[..], dest.buf[..], p, [], dest.start + dest.cap);
      return None;
    }
    var rest := TailOf(source, dest, was, second);
    assert rest == second[1..] <==> !clash;
    ghost var head := cut.Contents();
    TailDecides(head, first, rest, second);
    ghost var mid := dest.buf[..];
    var out := Append(cut, rest, spare);
    assert out.Contents() == head + rest;
    r := Some(out);
    FrameHolds(was, mid, dest.buf[..], p, rest, dest.start + dest.cap);
  }

  /** append(dest[0:len(dest)-1], ','), which always happens in place. */
  method ReplaceLast(dest: Slice, spare: nat) returns (cut: Slice)
    requires dest.Valid() && dest.len > 0
    modifies dest.buf
    ensures cut == dest && dest.buf[..] == old(dest.buf[..])[dest.start + dest.len - 1 := ',']
    ensures dest.Contents() == old(dest.Contents())[..dest.len - 1] + ","
  {
    ghost var was := dest.buf[..];
    cut := Append(dest.(len := dest.len - 1), ",", spare);
    assert dest.buf[..] == was[dest.start + dest.len - 1 := ','];
  }

  /** source[1:], read after the comma was written. */
  method TailOf(source: Slice, dest: Slice, ghost was: string, ghost second: string) returns (rest: string)
    requires source.Valid() && dest.Valid() && source.len > 0 && dest.len > 0 && |second| == source.len
    requires |was| == dest.buf.Length && dest.buf[..] == was[dest.start + dest.len - 1 := ',']
    requires second == if source.buf == dest.buf then was[source.start..source.start + source.len]
                       else source.Contents()
    ensures rest == source.Contents()[1..]
    ensures var p := dest.start + dest.len - 1;
            rest == second[1..]
            <==> !(source.buf == dest.buf && source.start < p < source.start + source.len && was[p] != ',')
  {
    ghost var p, lo, hi := dest.start + dest.len - 1, source.start + 1, source.start + source.len;
    rest := source.buf[source.start + 1..source.start + source.len];
    if source.buf == dest.buf {
      WindowChanges(was, p, ',', lo, hi);
      assert rest == was[p := ','][lo..hi] && second[1..] == was[lo..hi];
    }
  }

  lemma WindowChanges(a: string, p: nat, c: char, lo: nat, hi: nat)
    requires p < |a| && lo <= hi <= |a|
    ensures a[p := c][lo..hi] == a[lo..hi] <==> !(lo <= p < hi && a[p] != c)
  {
    var x, y := a[p := c][lo..hi], a[lo..hi];
    if lo <= p < hi {
      assert x[p - lo] == c && y[p - lo] == a[p];
    }
  }

  lemma FrameHolds(was: string, mid: string, now: string, p: nat, rest: string, end: nat)
    requires p < end <= |was| && mid == was[p := ',']
    requires now == mid || (p + 1 + |rest| <= end && now == Spliced(mid, p + 1, rest))
    ensures CommaLeft(was, now, p, end)
  {
  }

  lemma TailDecides(a: string, first: string, rest: string, second: string)
    requires first != "" && second != "" && |rest| == |second| - 1 && a == first[..|first| - 1] + ","
    ensures a + rest == Merged(first, second) <==> rest == second[1..]
  {
    assert (a + rest)[|a|..] == rest && (a + second[1..])[|a|..] == second[1..];
  }

  /** A printed object with these members. */
  function Printed(members: seq<string>): string {
    "{" + (if members == [] then "" else Join(members, ",")) + "}"
  }

  lemma {:induction false} JoinAppends(a: seq<string>, b: seq<string>, sep: string)
    requires a != [] && b != []
    ensures Join(a + b, sep) == Join(a, sep) + sep + Join(b, sep)
  {
    if |a| == 1 {
      assert (a + b)[1..] == b;
    } else {
      JoinAppends(a[1..], b, sep);
      assert (a + b)[1..] == a[1..] + b;
    }
  }

  /** Merging two printed objects prints the concatenation of their members, exactly if neither
      is empty. */
  lemma MergedPrints(a: seq<string>, b: seq<string>)
    ensures Merged(Printed(a), Printed(b)) == Printed(a + b) <==> a != [] && b != []
  {
    var x := if a == [] then "" else Join(a, ",");
    var y := if b == [] then "" else Join(b, ",");
    assert Printed(a)[..|Printed(a)| - 1] == "{" + x && Printed(b)[1..] == y + "}";
    if a != [] && b != [] {
      JoinAppends(a, b, ",");
      assert "{" + x + "," + (y + "}") == "{" + (x + "," + y) + "}";
    } else {
      assert a + b == (if a == [] then b else a);
    }
  }
}
