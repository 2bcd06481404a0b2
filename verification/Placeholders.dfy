/** Substitution of placeholders in a service path, over a map iterated in no particular order. */
module Placeholders {
  import opened Text

  function Mark(key: string): string {
    "@@" + key + "@@"
  }

  /** Replacing the keys one after the other. */
  function Substituted(s: string, order: seq<string>, params: map<string, string>): string
    requires forall k | k in order :: k in params
    decreases |order|
  {
    if order == [] then s
    else Substituted(ReplaceOnce(s, Mark(order[0]), params[order[0]]), order[1..], params)
  }

  /** A pattern: literal text, with a named placeholder before each further literal. */
  datatype Pattern = End(head: string) | Part(head: string, name: string, rest: Pattern)

  function Render(t: Pattern): string {
    match t
    case End(h) => h
    case Part(h, n, rest) => h + Mark(n) + Render(rest)
  }

  function Names(t: Pattern): set<string> {
    if t.End? then {} else {t.name} + Names(t.rest)
  }

  /** Token-level substitution. */
  function Expand(t: Pattern, params: map<string, string>): string {
    match t
    case End(h) => h
    case Part(h, n, rest) => h + (if n in params then params[n] else Mark(n)) + Expand(rest, params)
  }

  predicate GoodName(n: string) {
    n != "" && '@' !in n && '/' !in n
  }

  /** Literals have no '@', a literal between two placeholders has a '/', and no name occurs twice. */
  predicate Good(t: Pattern) {
    && '@' !in t.head
    && (t.Part? ==> && GoodName(t.name) && t.name !in Names(t.rest) && Good(t.rest)
                    && (t.rest.Part? ==> '/' in t.rest.head))
  }

  predicate GoodParams(params: map<string, string>) {
    forall k | k in params :: GoodName(k) && '@' !in params[k]
  }

  function Prefixed(p: string, t: Pattern): Pattern {
    t.(head := p + t.head)
  }

  /** The pattern with one placeholder filled in. */
  function Fill(t: Pattern, k: string, v: string): Pattern {
    match t
    case End(_) => t
    case Part(h, n, rest) => if n == k then Prefixed(h + v, rest) else Part(h, n, Fill(rest, k, v))
  }

  lemma {:induction false} FillStaysGood(t: Pattern, k: string, v: string)
    requires Good(t) && '@' !in v
    ensures Good(Fill(t, k, v)) && Names(Fill(t, k, v)) == Names(t) - {k}
    ensures forall c | c in t.head :: c in Fill(t, k, v).head
  {
    if t.Part? {
      FillStaysGood(t.rest, k, v);
    }
  }

  /** One differing character rules out an occurrence. */
  lemma Mismatch(s: string, k: string, i: nat, j: nat)
    requires j < |Mark(k)| && i + j < |s| && s[i + j] != Mark(k)[j]
    ensures !OccursAt(s, Mark(k), i)
  {
    if i + |Mark(k)| <= |s| {
      assert s[i..i + |Mark(k)|][j] == s[i + j];
    }
  }

  lemma MarkSpells(k: string)
    ensures var m := Mark(k);
            && |m| == |k| + 4 && m[0] == m[1] == m[2 + |k|] == m[3 + |k|] == '@'
            && forall j | 0 <= j < |k| :: m[2 + j] == k[j]
  {
  }

  /** Where the characters of a rendered placeholder are. */
  lemma PartSpells(t: Pattern)
    requires t.Part?
    ensures var s, a := Render(t), |t.head|;
            && |s| == a + |t.name| + 4 + |Render(t.rest)|
            && s[a] == s[a + 1] == s[a + 2 + |t.name|] == s[a + 3 + |t.name|] == '@'
            && (forall j | 0 <= j < a :: s[j] == t.head[j])
            && (forall j | 0 <= j < |t.name| :: s[a + 2 + j] == t.name[j])
            && (forall j | 0 <= j < |Render(t.rest)| :: s[a + 4 + |t.name| + j] == Render(t.rest)[j])
  {
  }

  lemma HeadFirst(t: Pattern)
    ensures |t.head| <= |Render(t)| && forall j | 0 <= j < |t.head| :: Render(t)[j] == t.head[j]
    ensures t.End? ==> Render(t) == t.head
  {
  }

  /** No mark of another key starts at or inside a placeholder, nor in the literal before it. */
  lemma NoStrayMark(t: Pattern, k: string, i: nat)
    requires Good(t) && t.Part? && GoodName(k) && i < |t.head| + 4 + |t.name|
    requires i != |t.head| || k != t.name
    ensures !OccursAt(Render(t), Mark(k), i)
  {
    hide Render, OccursAt, Mark;
    var s, a, n := Render(t), |t.head|, t.name;
    PartSpells(t);
    MarkSpells(k);
    if i < a {
      Mismatch(s, k, i, 0);
    } else if i == a {
      if |k| < |n| {
        assert s[a + 2 + |k|] == n[|k|];
        Mismatch(s, k, i, 2 + |k|);
      } else if |n| < |k| {
        assert Mark(k)[2 + |n|] == k[|n|];
        Mismatch(s, k, i, 2 + |n|);
      } else {
        var j :| 0 <= j < |n| && n[j] != k[j];
        Mismatch(s, k, i, 2 + j);
      }
    } else if i == a + 1 {
      assert s[a + 2 + 0] == n[0];
      Mismatch(s, k, i, 1);
    } else if i < a + 2 + |n| {
      assert s[a + 2 + (i - a - 2)] == n[i - a - 2];
      Mismatch(s, k, i, 0);
    } else {
      NoneAtClosing(t, k, i);
    }
  }

  /** The marks that close one placeholder and open the next have a '/' between them. */
  lemma NoneAtClosing(t: Pattern, k: string, i: nat)
    requires Good(t) && t.Part? && GoodName(k)
    requires |t.head| + 2 + |t.name| <= i < |t.head| + 4 + |t.name|
    ensures !OccursAt(Render(t), Mark(k), i)
  {
    hide Render, Mark;
    var s, b, x, h := Render(t), |t.head| + 4 + |t.name|, Render(t.rest), t.rest.head;
    PartSpells(t);
    HeadFirst(t.rest);
    MarkSpells(k);
    var d := i + 2 - b;
    if i + |Mark(k)| <= |s| {
      if d + |k| < |h| {
        assert s[b + (d + |k|)] == x[d + |k|] == h[d + |k|];
        Mismatch(s, k, i, 2 + |k|);
      } else {
        assert t.rest.Part?;
        var j :| 0 <= j < |h| && h[j] == '/';
        if d == 1 {
          assert s[b + 0] == x[0] == h[0];
          Mismatch(s, k, i, 1);
        } else {
          assert s[b + j] == x[j] == h[j] && Mark(k)[2 + j] == k[j];
          Mismatch(s, k, i, 2 + j);
        }
      }
    }
  }

  /** Replacing a mark in the rendered pattern fills in that placeholder. */
  lemma {:induction false} ReplaceFills(t: Pattern, k: string, v: string)
    requires Good(t) && GoodName(k)
    ensures ReplaceOnce(Render(t), Mark(k), v) == Render(Fill(t, k, v))
  {
    hide OccursAt, ReplaceOnce, Mark;
    var s := Render(t);
    MarkSpells(k);
    match t
    case End(h) =>
      forall i: nat ensures !OccursAt(h, Mark(k), i) {
        NoneInPlainText(h, k, i);
      }
      ReplaceNone(h, k, v);
    case Part(h, n, rest) =>
      MarkSpells(n);
      if n == k {
        forall i: nat | i < |h| ensures !OccursAt(s, Mark(k), i) {
          NoStrayMark(t, k, i);
        }
        MarkIsThere(t);
        ReplaceAt(s, k, v, |h|);
        assert s[..|h|] == h && s[|h| + |k| + 4..] == Render(rest);
      } else {
        ReplaceFills(rest, k, v);
        var a := h + Mark(n);
        assert s == a + Render(rest);
        forall i: nat | i < |a| ensures !OccursAt(a + Render(rest), Mark(k), i) {
          NoStrayMark(t, k, i);
        }
        ReplaceSkips(a, Render(rest), k, v);
      }
  }

  lemma NoneInPlainText(h: string, k: string, i: nat)
    requires '@' !in h
    ensures !OccursAt(h, Mark(k), i)
  {
    if i < |h| {
      Mismatch(h, k, i, 0);
    }
  }

  lemma MarkIsThere(t: Pattern)
    requires t.Part?
    ensures OccursAt(Render(t), Mark(t.name), |t.head|) && |Mark(t.name)| == |t.name| + 4
  {
    var s, a, m := Render(t), |t.head|, Mark(t.name);
    assert s[a..a + |m|] == m;
  }

  lemma ReplaceSkips(a: string, x: string, k: string, v: string)
    requires forall i: nat | i < |a| :: !OccursAt(a + x, Mark(k), i)
    ensures ReplaceOnce(a + x, Mark(k), v) == a + ReplaceOnce(x, Mark(k), v)
  {
    hide OccursAt, Find;
    FindSkips(a, x, Mark(k));
    var j := Find(x, Mark(k));
    if j >= 0 {
      assert (a + x)[..|a| + j] == a + x[..j];
      assert (a + x)[|a| + j + |Mark(k)|..] == x[j + |Mark(k)|..];
    }
  }

  lemma {:induction false} ExpandPrefixed(p: string, t: Pattern, params: map<string, string>)
    ensures Expand(Prefixed(p, t), params) == p + Expand(t, params)
  {
  }

  lemma {:induction false} FillExpands(t: Pattern, k: string, params: map<string, string>)
    requires k in params
    ensures Expand(Fill(t, k, params[k]), params) == Expand(t, params)
  {
    if t.Part? {
      if t.name == k {
        ExpandPrefixed(t.head + params[k], t.rest, params);
      } else {
        FillExpands(t.rest, k, params);
      }
    }
  }

  lemma {:induction false} NothingToFill(t: Pattern, params: map<string, string>)
    requires forall n | n in Names(t) :: n !in params
    ensures Expand(t, params) == Render(t)
  {
    if t.Part? {
      NothingToFill(t.rest, params);
    }
  }

  /** Whatever the order, and even if keys are visited more than once, replacing every key of
      the map in the rendered pattern is token-level substitution. */
  lemma {:induction false} SubstitutionIsTokenLevel(t: Pattern, order: seq<string>, params: map<string, string>)
    requires Good(t) && GoodParams(params)
    requires forall k | k in order :: k in params
    requires forall n | n in Names(t) && n in params :: n in order
    ensures Substituted(Render(t), order, params) == Expand(t, params)
    decreases |order|
  {
    if order == [] {
      NothingToFill(t, params);
    } else {
      var k := order[0];
      var u := Fill(t, k, params[k]);
      ReplaceFills(t, k, params[k]);
      FillStaysGood(t, k, params[k]);
      FillExpands(t, k, params);
      SubstitutionIsTokenLevel(u, order[1..], params);
    }
  }

  /** The loop over the map takes the keys in an arbitrary order. */
  method SetHyperregistryServiceURI(hostpath: string, serviceName: string, urlParameter: map<string, string>)
    returns (uri: string)
    ensures exists order: seq<string> ::
              && (forall k :: k in order <==> k in urlParameter)
              && (forall i, j | 0 <= i < j < |order| :: order[i] != order[j])
              && uri == "https://" + hostpath + Substituted(serviceName, order, urlParameter)
    ensures forall t | Good(t) && Render(t) == serviceName && GoodParams(urlParameter) ::
              uri == "https://" + hostpath + Expand(t, urlParameter)
  {
    var service, todo := serviceName, urlParameter.Keys;
    ghost var order: seq<string> := [];
    while todo != {}
      invariant forall k :: k in order <==> k in urlParameter && k !in todo
      invariant todo <= urlParameter.Keys
      invariant forall i, j | 0 <= i < j < |order| :: order[i] != order[j]
      invariant service == Substituted(serviceName, order, urlParameter)
    {
      var key :| key in todo;
      SubstitutedExtends(serviceName, order, key, urlParameter);
      service := ReplaceOnce(service, Mark(key), urlParameter[key]);
      todo, order := todo - {key}, order + [key];
    }
    uri := "https://" + hostpath + service;
    forall t | Good(t) && Render(t) == serviceName && GoodParams(urlParameter)
      ensures uri == "https://" + hostpath + Expand(t, urlParameter)
    {
      SubstitutionIsTokenLevel(t, order, urlParameter);
    }
  }

  lemma {:induction false} SubstitutedExtends(s: string, order: seq<string>, key: string, params: map<string, string>)
    requires key in params && forall k | k in order :: k in params
    ensures Substituted(s, order + [key], params)
         == ReplaceOnce(Substituted(s, order, params), Mark(key), params[key])
    decreases |order|
  {
    var all := order + [key];
    if order == [] {
      assert all == [key] && all[1..] == [];
    } else {
      assert all[1..] == order[1..] + [key];
      SubstitutedExtends(ReplaceOnce(s, Mark(order[0]), params[order[0]]), order[1..], key, params);
    }
  }

  lemma ReplaceAt(s: string, k: string, v: string, i: nat)
    requires OccursAt(s, Mark(k), i) && forall j: nat | j < i :: !OccursAt(s, Mark(k), j)
    ensures ReplaceOnce(s, Mark(k), v) == s[..i] + v + s[i + |k| + 4..]
  {
    FindIsFirst(s, Mark(k));
  }

  lemma ReplaceNone(s: string, k: string, v: string)
    requires forall j: nat :: !OccursAt(s, Mark(k), j)
    ensures ReplaceOnce(s, Mark(k), v) == s
  {
    FindIsFirst(s, Mark(k));
  }

  /** The '/' is needed: without one between the placeholders a and c, the text between them can
      be taken for a placeholder, and the result depends on the order of the map. */
  lemma OrderMatters()
    ensures var t := Part("", "a", Part("b", "c", End("")));
            var params := map["a" := "x", "b" := "y"];
            && Substituted(Render(t), ["a", "b"], params) == "xb@@c@@"
            && Substituted(Render(t), ["b", "a"], params) == "@@ayc@@"
  {
    hide ReplaceOnce, OccursAt;
    var s := "@@a@@b@@c@@";
    var t := Part("", "a", Part("b", "c", End("")));
    var params := map["a" := "x", "b" := "y"];
    assert Render(t.rest) == "b@@c@@" && Render(t) == s;
    assert ["a", "b"][1..] == ["b"] && ["b", "a"][1..] == ["a"] && ["a"][1..] == [] && ["b"][1..] == [];
    OneOrder();
    OtherOrder();
  }

  lemma OneOrder()
    ensures ReplaceOnce("@@a@@b@@c@@", Mark("a"), "x") == "xb@@c@@"
    ensures ReplaceOnce("xb@@c@@", Mark("b"), "y") == "xb@@c@@"
  {
    var s, u := "@@a@@b@@c@@", "xb@@c@@";
    assert s[0..5] == Mark("a");
    ReplaceAt(s, "a", "x", 0);
    forall j: nat ensures !OccursAt(u, Mark("b"), j) {
      if j < 3 {
        Mismatch(u, "b", j, if j == 2 then 2 else 0);
      }
    }
    ReplaceNone(u, "b", "y");
  }

  lemma OtherOrder()
    ensures ReplaceOnce("@@a@@b@@c@@", Mark("b"), "y") == "@@ayc@@"
    ensures ReplaceOnce("@@ayc@@", Mark("a"), "x") == "@@ayc@@"
  {
    var s, u := "@@a@@b@@c@@", "@@ayc@@";
    assert s[3..8] == Mark("b");
    forall j: nat | j < 3 ensures !OccursAt(s, Mark("b"), j) {
      Mismatch(s, "b", j, 2 - j);
    }
    ReplaceAt(s, "b", "y", 3);
    forall j: nat ensures !OccursAt(u, Mark("a"), j) {
      if j < 3 {
        Mismatch(u, "a", j, if j == 0 then 3 else 2 - j);
      }
    }
    ReplaceNone(u, "a", "x");
  }
}
