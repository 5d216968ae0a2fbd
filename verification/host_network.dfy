/**
 * The run's use of the host network, in place: placeAddr, undo, configureIPs
 * and removeIPs over an AddrManager whose calls may fail
 * (tester/run/addr.go, tester/run/controller.go).
 */
module HostNetwork {
  import opened Basics
  import opened HostAddresses

  /** A route to dst via gw on an interface. */
  datatype Route = Route(iface: string, dst: Addr, gw: nat)

  /** netcfg.AddrManager: every call may fail, and then changes nothing. */
  class AddrManager {
    var addrs: seq<Addr>
    var routes: set<Route>

    constructor (own: seq<Addr>, ownRoutes: set<Route>)
      ensures addrs == own && routes == ownRoutes
    {
      addrs, routes := own, ownRoutes;
    }

    method FindAddr(ip: nat) returns (found: Option<Addr>, ok: bool)
      ensures ok && found.Some? ==> found.value in addrs && found.value.ip == ip
      ensures ok && found.None? ==> forall a :: a in addrs ==> a.ip != ip
    {
      found, ok := None, false;
      if * {
        return;
      }
      ok := true;
      for i := 0 to |addrs|
        invariant found.None? && forall j :: 0 <= j < i ==> addrs[j].ip != ip
      {
        if addrs[i].ip == ip {
          return Some(addrs[i]), true;
        }
      }
    }

    method Add(a: Addr) returns (ok: bool)
      modifies `addrs
      ensures ok ==> a !in old(addrs) && addrs == old(addrs) + [a]
      ensures !ok ==> addrs == old(addrs)
    {
      ok := false;
      if a !in addrs {
        if * {
          addrs := addrs + [a];
          ok := true;
        }
      }
    }

    method Remove(a: Addr) returns (ok: bool)
      modifies `addrs
      ensures addrs == if ok then Removed(old(addrs), a) else old(addrs)
    {
      ok := false;
      if * {
        addrs := Removed(addrs, a);
        ok := true;
      }
    }

    /** An identical route is left alone, another route to the same destination is an error. */
    method EnsureRoute(r: Route) returns (added: bool, ok: bool)
      modifies `routes
      ensures added ==> ok && r !in old(routes) && routes == old(routes) + {r}
      ensures !added ==> routes == old(routes) && (ok ==> r in routes)
      ensures (exists o :: o in old(routes) && o.dst == r.dst) && r !in old(routes) ==> !ok
    {
      added, ok := false, false;
      if r in routes {
        ok := *;
      } else if forall o :: o in routes ==> o.dst != r.dst {
        if * {
          routes := routes + {r};
          added, ok := true, true;
        }
      }
    }

    /** A route that is not there is removed. */
    method RemoveRoute(r: Route) returns (ok: bool)
      modifies `routes
      ensures routes == if ok then old(routes) - {r} else old(routes)
    {
      ok := false;
      if * {
        routes := routes - {r};
        ok := true;
      }
    }
  }

  method PlaceAddr(m: AddrManager, want: Addr) returns (ch: AddrChange, ok: bool)
    modifies m`addrs
    ensures Places(old(m.addrs), want, m.addrs, ch, ok)
  {
    ch, ok := NoChange, false;
    var have, found := m.FindAddr(want.ip);
    if !found {
      return;
    }
    var replaced: Option<Addr> := None;
    if have.Some? {
      if have.value.bits == want.bits {
        ok := true;
        return;
      }
      if have.value.iface != want.iface {
        return;
      }
      var removed := m.Remove(have.value);
      if !removed {
        return;
      }
      replaced := have;
    }
    var added := m.Add(want);
    if !added {
      if replaced.Some? {
        var _ := m.Add(replaced.value);
      }
      return;
    }
    ch, ok := AddrChange(Some(want), replaced), true;
  }

  /** The second call is made even if the first fails; undo reports an error unless both went well. */
  method Undo(m: AddrManager, ch: AddrChange) returns (removed: bool, back: bool)
    modifies m`addrs
    ensures m.addrs == Undone(old(m.addrs),
            AddrChange(if removed then ch.added else None, if back then ch.replaced else None))
  {
    removed, back := true, true;
    if ch.added.Some? {
      removed := m.Remove(ch.added.value);
    }
    if ch.replaced.Some? {
      back := m.Add(ch.replaced.value);
    }
  }

  /** configureIPs; a stop may come before any gNB's address, and then it ends without an error. */
  method ConfigureIPs(m: AddrManager, sink: Addr, plan: seq<Addr>, pool: Route)
    returns (added: seq<AddrChange>, routes: seq<Route>, ok: bool)
    modifies m
    ensures AllFit(old(m.addrs), added) && SinkFirst(added)
    ensures added != [] || ok ==> m.addrs == Built(old(m.addrs), added)
    ensures added == [] && !ok ==> PlaceFails(old(m.addrs), sink, m.addrs)
    ensures added != [] && added[0].replaced.Some? ==> added[0].added == Some(sink)
    ensures routes == [] || (routes == [pool] && pool !in old(m.routes))
    ensures m.routes == old(m.routes) + (set r | r in routes)
  {
    added, routes := [], [];
    var ch, placed := PlaceAddr(m, sink);
    if !placed {
      return [], [], false;
    }
    if ch.added.Some? {
      added := [ch];
      assert added[..0] == [];
    }
    for i := 0 to |plan|
      invariant AllFit(old(m.addrs), added) && SinkFirst(added) && m.addrs == Built(old(m.addrs), added)
      invariant added != [] && added[0].replaced.Some? ==> added[0].added == Some(sink)
      invariant m.routes == old(m.routes)
    {
      if * {
        return added, [], true;
      }
      var up := m.Add(plan[i]);
      if !up {
        return added, [], false;
      }
      var next := AddrChange(Some(plan[i]), None);
      assert (added + [next])[..|added|] == added;
      added := added + [next];
    }
    var routed;
    routed, ok := m.EnsureRoute(pool);
    if routed {
      routes := [pool];
    }
    if added == [] && !ok {
      NothingPlaced(old(m.addrs), sink);
    }
  }

  lemma NothingPlaced(h: seq<Addr>, sink: Addr)
    ensures PlaceFails(h, sink, h)
  {
  }

  /** What calls that may fail did of a change. */
  predicate PartOf(did: AddrChange, ch: AddrChange) {
    (did.added == ch.added || did.added.None?) && (did.replaced == ch.replaced || did.replaced.None?)
  }

  /**
   * removeIPs: the routes, then all changes from the last back. Every call is made whatever failed before, and the
   * host is undone by what did not fail; when nothing fails, by all of them.
   */
  method RemoveIPs(m: AddrManager, added: seq<AddrChange>, routes: seq<Route>)
    returns (ok: bool, ghost did: seq<AddrChange>, ghost gone: set<Route>)
    modifies m
    ensures |did| == |added| && (forall k :: 0 <= k < |added| ==> PartOf(did[k], added[k])) && (ok ==> did == added)
    ensures m.addrs == UndoneAll(old(m.addrs), did)
    ensures gone <= (set r | r in routes) && (ok ==> gone == set r | r in routes) && m.routes == old(m.routes) - gone
  {
    var routesOk;
    routesOk, gone := RemoveRoutes(m, routes);
    var addrsOk;
    addrsOk, did := UndoAddrs(m, added);
    ok := routesOk && addrsOk;
  }

  /** removeIPs' first loop. */
  method RemoveRoutes(m: AddrManager, routes: seq<Route>) returns (ok: bool, ghost gone: set<Route>)
    modifies m
    ensures gone <= (set r | r in routes) && (ok ==> gone == set r | r in routes)
    ensures m.routes == old(m.routes) - gone && m.addrs == old(m.addrs)
  {
    ok, gone := true, {};
    for k := 0 to |routes|
      invariant gone <= (set r | r in routes[..k]) && (ok ==> gone == set r | r in routes[..k])
      invariant m.routes == old(m.routes) - gone && m.addrs == old(m.addrs)
    {
      assert routes[..k + 1] == routes[..k] + [routes[k]];
      var removed := m.RemoveRoute(routes[k]);
      if removed {
        gone := gone + {routes[k]};
      }
      ok := ok && removed;
    }
    assert routes[..|routes|] == routes;
  }

  /** removeIPs' second loop: last changed, first undone. */
  method UndoAddrs(m: AddrManager, added: seq<AddrChange>) returns (ok: bool, ghost did: seq<AddrChange>)
    modifies m
    ensures |did| == |added| && (forall k :: 0 <= k < |added| ==> PartOf(did[k], added[k])) && (ok ==> did == added)
    ensures m.addrs == UndoneAll(old(m.addrs), did) && m.routes == old(m.routes)
  {
    hide UndoneAll, Undone;
    ok, did := true, [];
    NoneUndone(m.addrs);
    var i := |added|;
    while i > 0
      invariant 0 <= i <= |added| && |did| == |added| - i && m.routes == old(m.routes)
      invariant forall k :: 0 <= k < |did| ==> PartOf(did[k], added[i + k])
      invariant ok ==> did == added[i..]
      invariant m.addrs == UndoneAll(old(m.addrs), did)
    {
      i := i - 1;
      var removed, back := Undo(m, added[i]);
      ghost var part := AddrChange(if removed then added[i].added else None, if back then added[i].replaced else None);
      UndoneFirst(old(m.addrs), part, did);
      assert added[i..] == [added[i]] + added[i + 1..];
      did := [part] + did;
      ok := ok && removed && back;
    }
  }

  lemma NoneUndone(h: seq<Addr>)
    ensures UndoneAll(h, []) == h
  {
  }

  /** The first change is undone last. */
  lemma {:induction false} UndoneFirst(h: seq<Addr>, ch: AddrChange, rest: seq<AddrChange>)
    ensures UndoneAll(h, [ch] + rest) == Undone(UndoneAll(h, rest), ch)
    decreases |rest|
  {
    hide Undone;
    var all := [ch] + rest;
    if rest == [] {
      assert all[..|all| - 1] == [];
    } else {
      var n := |rest| - 1;
      assert all[..|all| - 1] == [ch] + rest[..n];
      UndoneFirst(Undone(h, rest[n]), ch, rest[..n]);
    }
  }

  lemma SinkRestored(h: seq<Addr>, sink: Addr, added: seq<AddrChange>)
    requires NoDup(h) && AllFit(h, added) && SinkFirst(added)
    requires added != [] && added[0].replaced.Some? ==> added[0].added == Some(sink)
    requires forall a :: a in h && a.ip == sink.ip ==> !HasSecondaries(h, a)
    ensures Alike(UndoneAll(Built(h, added), added), h)
  {
    if added != [] {
      FirstFits(h, added);
    }
    RemoveIPsRestores(h, added);
  }

  lemma PlaceFailsAlike(h: seq<Addr>, want: Addr, t: seq<Addr>)
    requires NoDup(h) && PlaceFails(h, want, t)
    requires forall a :: a in h && a.ip == want.ip ==> !HasSecondaries(h, a)
    ensures Alike(t, h) || exists a :: a in h && t == Removed(h, a)
  {
    if t != h {
      var a :| a in h && a.ip == want.ip && (t == Removed(h, a) || t == Removed(h, a) + [a]);
      MovedIsAlike(h, a);
    }
  }

  ghost predicate Restored(h: seq<Addr>, t: seq<Addr>, configured: bool) {
    Alike(t, h) || (!configured && exists a :: a in h && t == Removed(h, a))
  }

  /**
   * A whole run: after removeIPs the host has the routes and the address set it had, unless placeAddr failed half way
   * and its rollback did too.
   */
  method RunOnHost(m: AddrManager, sink: Addr, plan: seq<Addr>, pool: Route) returns (configured: bool, cleaned: bool)
    requires NoDup(m.addrs)
    requires forall a :: a in m.addrs && a.ip == sink.ip ==> !HasSecondaries(m.addrs, a)
    modifies m
    ensures cleaned ==> Restored(old(m.addrs), m.addrs, configured) && m.routes == old(m.routes)
  {
    var added: seq<AddrChange>, routes: seq<Route>;
    added, routes, configured := ConfigureIPs(m, sink, plan, pool);
    ghost var did, gone;
    cleaned, did, gone := RemoveIPs(m, added, routes);
    hide Alike, PlaceFails, AllFit;
    if cleaned && (added != [] || configured) {
      SinkRestored(old(m.addrs), sink, added);
    } else if cleaned {
      PlaceFailsAlike(old(m.addrs), sink, m.addrs);
    }
  }
}
