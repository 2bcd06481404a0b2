/** The API server as a mutable object. Every request first lets the others act. */
module ApiServers {
  import opened Api
  import opened Store

  class ApiServer {
    const start: World
    var world: World
    var past: seq<Moment>
    var plan: seq<Tick>

    ghost function State(): Sys
      reads this
    {
      Sys(start, past, plan)
    }

    ghost predicate Valid()
      reads this
    {
      world == State().Now()
    }

    constructor (w: World, plan: seq<Tick>)
      ensures Valid() && State() == Sys(w, [], plan)
    {
      start, world, past := w, w, [];
      this.plan := plan;
    }

    method Log(m: Moment)
      requires Valid()
      modifies this
      ensures Valid() && State() == old(State()).Log(m)
    {
      past := past + [m];
      world := m.world;
    }

    method TakeTurn() returns (outcome: Outcome)
      requires Valid()
      modifies this
      ensures Valid() && State() == Turn(old(State()))
      ensures outcome == old(State()).Next().outcome
    {
      var tick := QUIET;
      if plan != [] {
        tick, plan := plan[0], plan[1..];
      }
      for i := 0 to |tick.events|
        invariant Valid() && Happen(State(), tick.events[i..]) == Turn(old(State()))
      {
        Log(Happened(tick.events[i], Apply(world, tick.events[i])));
      }
      outcome := tick.outcome;
    }

    method WriteBack(outcome: Outcome, call: Call, allowed: bool, w: World) returns (ok: bool)
      requires Valid()
      modifies this
      ensures Valid() && (State(), ok) == Write(old(State()), outcome, call, allowed, w)
    {
      ok := allowed && outcome == Served;
      Log(Called(call, ok, if allowed && outcome != Refused then w else world));
    }

    method Get<K, V>(m: map<K, V>, k: K, outcome: Outcome, call: Call) returns (r: Reply<V>)
      requires Valid()
      modifies this
      ensures Valid() && (State(), r) == ReadFrom(old(State()), m, k, outcome, call)
    {
      r := if outcome != Served then Failed else if k in m then Found(m[k]) else NotFound;
      Log(Called(call, r.Found?, world));
    }

    method GetManager(key: Key) returns (r: Reply<Manager>)
      requires Valid()
      modifies this
      ensures Valid() && (State(), r) == Store.GetManager(old(State()), key)
    {
      var outcome := TakeTurn();
      r := Get(world.managers, key, outcome, ReadManager(key));
    }

    method GetChild(ck: ChildKey) returns (r: Reply<Child>)
      requires Valid()
      modifies this
      ensures Valid() && (State(), r) == Store.GetChild(old(State()), ck)
    {
      var outcome := TakeTurn();
      r := Get(world.children, ck, outcome, ReadChild(ck));
    }

    method GetClaim(key: Key) returns (r: Reply<Claim>)
      requires Valid()
      modifies this
      ensures Valid() && (State(), r) == Store.GetClaim(old(State()), key)
    {
      var outcome := TakeTurn();
      r := Get(world.claims, key, outcome, ReadClaim(key));
    }

    method Create(ck: ChildKey, child: Child) returns (ok: bool)
      requires Valid() && child.Kind() == ck.kind
      modifies this
      ensures Valid() && (State(), ok) == Store.Create(old(State()), ck, child)
    {
      var outcome := TakeTurn();
      ok := WriteBack(outcome, CreateChild(ck, child), ck !in world.children,
                      AddChild(world, ck, child).(ours := world.ours + {ck}));
    }

    method Delete(ck: ChildKey) returns (ok: bool)
      requires Valid()
      modifies this
      ensures Valid() && (State(), ok) == Store.Delete(old(State()), ck)
    {
      var outcome := TakeTurn();
      var there := ck in world.children;
      ok := WriteBack(outcome, DeleteChild(ck), there, if there then MarkDeleting(world, ck) else world);
    }

    method Patch(key: Key, before: Manager, after: Manager) returns (ok: bool)
      requires Valid()
      modifies this
      ensures Valid() && (State(), ok) == PatchObject(old(State()), key, before, after)
    {
      var ok1, ok2 := true, true;
      if !SameMain(before, after) {
        var outcome := TakeTurn();
        if key in world.managers {
          var m := world.managers[key];
          var merged := MergeMain(before, after, m);
          ok1 := WriteBack(outcome, PatchManager(key), m.deleting ==> merged.finalizers <= m.finalizers,
                           PutManager(world, key, merged));
        } else {
          ok1 := WriteBack(outcome, PatchManager(key), false, world);
        }
      }
      if before.status != after.status {
        var outcome := TakeTurn();
        if key in world.managers {
          var m := world.managers[key];
          ok2 := WriteBack(outcome, PatchStatus(key), true,
                           PutManager(world, key, m.(status := MergeStatus(before.status, after.status, m.status))));
        } else {
          ok2 := WriteBack(outcome, PatchStatus(key), false, world);
        }
      }
      ok := ok1 && ok2;
    }

    method PatchChildFrom(ck: ChildKey, before: Child, after: Child) returns (ok: bool)
      requires Valid()
      modifies this
      ensures Valid() && (State(), ok) == PatchChildObject(old(State()), ck, before, after)
    {
      ok := true;
      if before != after {
        var outcome := TakeTurn();
        if ck in world.children {
          var merged := MergeChild(before, after, world.children[ck]);
          ok := WriteBack(outcome, PatchChild(ck, merged), true, AddChild(world, ck, merged));
        } else {
          ok := WriteBack(outcome, PatchChild(ck, after), false, world);
        }
      }
    }

    method Submit(key: Key, m: Manager) returns (ok: bool)
      requires Valid()
      modifies this
      ensures Valid() && (State(), ok) == Store.Submit(old(State()), key, m)
    {
      var outcome := TakeTurn();
      ok := WriteBack(outcome, CreateManager(key), key !in world.managers,
                      world.(managers := world.managers[key := m]));
    }

    method UpdateClaimStatus(key: Key, c: Claim) returns (ok: bool)
      requires Valid()
      modifies this
      ensures Valid() && (State(), ok) == SendClaim(old(State()), key, c)
    {
      var outcome := TakeTurn();
      var current := key in world.claims && world.claims[key].revision == c.revision;
      ok := WriteBack(outcome, UpdateClaim(key), current,
                      if current then PutClaim(world, key, world.claims[key].(phase := c.phase, reason := c.reason))
                      else world);
    }
  }
}
