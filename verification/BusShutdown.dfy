/** The order in which ShutdownAndBlock releases the objects of its tables does not matter, so the in-place shutdown of
    BusClasses computes the shutdown step that the run theorems are about. */
module BusShutdown {
  import opened BusLedger
  import opened BusProtocol
  import C = BusClasses

  predicate InRange(objs: seq<Obj>, order: seq<nat>) { forall i | 0 <= i < |order| :: order[i] < |objs| }

  /** Release the objects of a list, in its order. */
  function ReleaseAll(l: Ledger, objs: seq<Obj>, order: seq<nat>): (r: (Ledger, seq<Obj>))
    requires InRange(objs, order)
    ensures |r.1| == |objs|
  {
    if order == [] then (l, objs)
    else ReleaseOne(ReleaseAll(l, objs, order[..|order| - 1]), order[|order| - 1])
  }

  lemma ReleaseAllThen(l: Ledger, objs: seq<Obj>, order: seq<nat>, a: nat)
    requires a < |objs| && InRange(objs, order)
    ensures InRange(objs, order + [a])
    ensures ReleaseAll(l, objs, order + [a]) == ReleaseOne(ReleaseAll(l, objs, order), a)
  {
    assert (order + [a])[..|order|] == order;
  }

  /** The ids of the objects in the tables among the first n, in creation order. */
  function Ids(s: System, n: nat): (r: seq<nat>)
    requires n <= |s.objs|
    ensures InRange(s.objs, r)
  {
    if n == 0 then [] else if InTable(s, n - 1) then Ids(s, n - 1) + [n - 1] else Ids(s, n - 1)
  }

  lemma {:induction false} IdsListed(s: System, n: nat, a: nat)
    requires n <= |s.objs|
    ensures a in Ids(s, n) <==> a < n && InTable(s, a)
  {
    if n > 0 { IdsListed(s, n - 1, a); }
  }

  lemma {:induction false} ReleaseTableIsReleaseAll(s: System, n: nat)
    requires n <= |s.objs|
    ensures ReleaseTable(s, n) == ReleaseAll(s.led, s.objs, Ids(s, n))
  {
    if n > 0 {
      ReleaseTableIsReleaseAll(s, n - 1);
      if InTable(s, n - 1) { ReleaseAllThen(s.led, s.objs, Ids(s, n - 1), n - 1); }
    }
  }

  // ----- the invariant determines paths and counts -----

  lemma LedgerDetermined(l: Ledger, l': Ledger, objs: seq<Obj>)
    requires CoreInv(l, objs) && CoreInv(l', objs) && l' == l.(paths := l'.paths, matches := l'.matches)
    ensures l == l'
  {
    assert l.paths == l'.paths;
    forall r ensures Count(l.matches, r) == Count(l'.matches, r) {
      assert Count(l.matches, r) == OwnHolds(l, r) + CountRule(objs, r);
      assert Count(l'.matches, r) == OwnHolds(l', r) + CountRule(objs, r);
    }
    SameCounts(l.matches, l'.matches);
  }

  lemma SameCounts(m: map<Rule, int>, m': map<Rule, int>)
    requires forall r | r in m :: m[r] >= 1
    requires forall r | r in m' :: m'[r] >= 1
    requires forall r :: Count(m, r) == Count(m', r)
    ensures m == m'
  {
    forall r ensures r in m <==> r in m' { assert Count(m, r) == Count(m', r); }
    forall r | r in m ensures m[r] == m'[r] { assert Count(m, r) == Count(m', r); }
  }

  // ----- what releasing leaves, whatever the order -----

  function Freed(o: Obj): Obj { if o.key.ExportedKey? then o.(registered := false) else o.(rules := {}) }

  ghost predicate Left(objs: seq<Obj>, order: seq<nat>, objs': seq<Obj>) {
    |objs'| == |objs| && forall a | 0 <= a < |objs| :: objs'[a] == if a in order then Freed(objs[a]) else objs[a]
  }

  ghost predicate FiltersLeft(l: Ledger, objs: seq<Obj>, order: seq<nat>, l': Ledger) {
    forall f :: f in l'.filters <==>
      && f in l.filters
      && !(l.connected && f.ProxyFilter? && f.proxy in order && f.proxy < |objs| && objs[f.proxy].key.ProxyKey?)
  }

  lemma {:induction false} ReleaseAllLeaves(l: Ledger, objs: seq<Obj>, order: seq<nat>)
    requires CoreInv(l, objs) && InRange(objs, order)
    ensures var r := ReleaseAll(l, objs, order);
            && CoreInv(r.0, r.1) && Left(objs, order, r.1) && FiltersLeft(l, objs, order, r.0)
            && r.0 == l.(paths := r.0.paths, matches := r.0.matches, filters := r.0.filters)
    decreases |order|
  {
    if order != [] {
      var n := |order| - 1;
      ReleaseAllLeaves(l, objs, order[..n]);
      var r := ReleaseAll(l, objs, order[..n]);
      ReleaseKeeps(r.0, r.1, order[n]);
      OneMoreLeft(l, objs, order, r.0, r.1);
    }
  }

  lemma OneMoreLeft(l: Ledger, objs: seq<Obj>, order: seq<nat>, l1: Ledger, objs1: seq<Obj>)
    requires order != [] && order[|order| - 1] < |objs| && l1.connected == l.connected
    requires Left(objs, order[..|order| - 1], objs1) && FiltersLeft(l, objs, order[..|order| - 1], l1)
    ensures var q := Release(l1, order[|order| - 1], objs1[order[|order| - 1]]);
            Left(objs, order, objs1[order[|order| - 1] := q.1]) && FiltersLeft(l, objs, order, q.0)
  {
    var n := |order| - 1;
    assert order == order[..n] + [order[n]];
  }

  /** The release of the tables at shutdown: any order, even with repetitions, gives the same ledger and objects. */
  lemma ReleaseOrderIrrelevant(s: System, order: seq<nat>)
    requires CoreInv(s.led, s.objs)
    requires forall a: nat :: a in order <==> InTable(s, a)
    ensures InRange(s.objs, order)
    ensures ReleaseAll(s.led, s.objs, order) == ReleaseTable(s, |s.objs|)
  {
    forall i | 0 <= i < |order| ensures order[i] < |s.objs| { assert order[i] in order; }
    var ids := Ids(s, |s.objs|);
    ReleaseTableIsReleaseAll(s, |s.objs|);
    forall a: nat ensures a in order <==> a in ids { IdsListed(s, |s.objs|, a); }
    SameIds(s.led, s.objs, order, ids);
  }

  lemma SameIds(l: Ledger, objs: seq<Obj>, order: seq<nat>, ids: seq<nat>)
    requires CoreInv(l, objs)
    requires InRange(objs, order) && InRange(objs, ids)
    requires forall a: nat :: a in order <==> a in ids
    ensures ReleaseAll(l, objs, order) == ReleaseAll(l, objs, ids)
  {
    ReleaseAllLeaves(l, objs, order);
    ReleaseAllLeaves(l, objs, ids);
    var r, q := ReleaseAll(l, objs, order), ReleaseAll(l, objs, ids);
    assert r.1 == q.1;
    assert r.0.filters == q.0.filters;
    LedgerDetermined(r.0, q.0, r.1);
  }

  // ----- the in-place shutdown -----

  predicate AllExported(objs: seq<Obj>, order: seq<nat>) {
    forall i | 0 <= i < |order| :: order[i] < |objs| && objs[order[i]].key.ExportedKey?
  }

  predicate AllProxies(objs: seq<Obj>, order: seq<nat>) {
    forall i | 0 <= i < |order| :: order[i] < |objs| && objs[order[i]].key.ProxyKey?
  }

  function PathsOf(objs: seq<Obj>, order: seq<nat>): set<string>
    requires AllExported(objs, order)
  {
    set i | 0 <= i < |order| && objs[order[i]].registered :: objs[order[i]].key.path
  }

  /** Unregistering the exported objects removes exactly the paths of the registered ones. */
  lemma {:induction false} ExportedPhase(l: Ledger, objs: seq<Obj>, order: seq<nat>)
    requires AllExported(objs, order)
    ensures ReleaseAll(l, objs, order).0 == l.(paths := l.paths - PathsOf(objs, order))
    ensures Left(objs, order, ReleaseAll(l, objs, order).1)
    decreases |order|
  {
    if order != [] {
      var n := |order| - 1;
      ExportedPhase(l, objs, order[..n]);
      OnePathMore(objs, order);
      assert order == order[..n] + [order[n]];
      var r := ReleaseAll(l, objs, order[..n]);
      ExportedStep(objs, order[..n], order[n], r);
      OnePathLess(l, r.0, PathsOf(objs, order[..n]), objs[order[n]].key.path);
    }
  }

  lemma OnePathLess(l: Ledger, l': Ledger, paths: set<string>, path: string)
    requires l' == l.(paths := l.paths - paths)
    ensures l'.(paths := l'.paths - {path}) == l.(paths := l.paths - (paths + {path}))
  {
    assert l.paths - paths - {path} == l.paths - (paths + {path});
  }

  lemma ExportedStep(objs: seq<Obj>, before: seq<nat>, a: nat, r: (Ledger, seq<Obj>))
    requires a < |objs| && objs[a].key.ExportedKey? && Left(objs, before, r.1)
    ensures Left(objs, before + [a], ReleaseOne(r, a).1)
    ensures ReleaseOne(r, a).0 == if a !in before && objs[a].registered
                                  then r.0.(paths := r.0.paths - {objs[a].key.path}) else r.0
  {}

  lemma OnePathMore(objs: seq<Obj>, order: seq<nat>)
    requires AllExported(objs, order) && order != []
    ensures var n := |order| - 1;
            && AllExported(objs, order[..n])
            && PathsOf(objs, order) == PathsOf(objs, order[..n])
                                     + (if objs[order[n]].registered then {objs[order[n]].key.path} else {})
            && (order[n] in order[..n] ==> PathsOf(objs, order) == PathsOf(objs, order[..n]))
  {
    var n := |order| - 1;
    forall p | p in PathsOf(objs, order)
      ensures p in PathsOf(objs, order[..n]) || (objs[order[n]].registered && p == objs[order[n]].key.path)
    {
      var i :| 0 <= i < |order| && objs[order[i]].registered && objs[order[i]].key.path == p;
      if i < n { assert order[..n][i] == order[i]; }
    }
    forall p | p in PathsOf(objs, order[..n]) ensures p in PathsOf(objs, order) {
      var i :| 0 <= i < n && objs[order[..n][i]].registered && objs[order[..n][i]].key.path == p;
      assert order[i] == order[..n][i];
    }
  }

  function Paired(objs: seq<Obj>, proxies: seq<nat>): seq<(nat, Obj)>
    requires AllProxies(objs, proxies)
  {
    seq(|proxies|, i requires 0 <= i < |proxies| => (proxies[i], objs[proxies[i]]))
  }

  lemma DetachAllThen(l: Ledger, objs: seq<Obj>, proxies: seq<nat>)
    requires AllProxies(objs, proxies) && proxies != []
    ensures var n := |proxies| - 1;
            C.DetachAll(l, Paired(objs, proxies))
            == Release(C.DetachAll(l, Paired(objs, proxies[..n])), proxies[n], objs[proxies[n]]).0
  {
    assert Paired(objs, proxies)[..|proxies| - 1] == Paired(objs, proxies[..|proxies| - 1]);
  }

  ghost predicate OthersLeft(objs: seq<Obj>, proxies: seq<nat>, objs': seq<Obj>)
    requires |objs'| == |objs|
  {
    forall a | 0 <= a < |objs| && a !in proxies :: objs'[a] == objs[a]
  }

  /** Detaching each proxy once is releasing it. */
  lemma {:induction false} ProxyPhase(l: Ledger, objs: seq<Obj>, proxies: seq<nat>)
    requires AllProxies(objs, proxies) && NoDup(proxies)
    ensures ReleaseAll(l, objs, proxies).0 == C.DetachAll(l, Paired(objs, proxies))
    ensures OthersLeft(objs, proxies, ReleaseAll(l, objs, proxies).1)
    decreases |proxies|
  {
    if proxies != [] {
      var n := |proxies| - 1;
      ProxyPhase(l, objs, proxies[..n]);
      DetachAllThen(l, objs, proxies);
      assert proxies == proxies[..n] + [proxies[n]];
      ProxyStep(objs, proxies[..n], proxies[n], ReleaseAll(l, objs, proxies[..n]));
    }
  }

  lemma ProxyStep(objs: seq<Obj>, before: seq<nat>, p: nat, r: (Ledger, seq<Obj>))
    requires |r.1| == |objs| && OthersLeft(objs, before, r.1) && p < |objs| && p !in before
    ensures ReleaseOne(r, p).0 == Release(r.0, p, objs[p]).0
    ensures OthersLeft(objs, before + [p], ReleaseOne(r, p).1)
  {}

  lemma {:induction false} ReleaseInTwo(l: Ledger, objs: seq<Obj>, first: seq<nat>, second: seq<nat>)
    requires InRange(objs, first) && InRange(objs, second)
    ensures InRange(objs, first + second)
    ensures var r := ReleaseAll(l, objs, first);
            ReleaseAll(l, objs, first + second) == ReleaseAll(r.0, r.1, second)
    decreases |second|
  {
    if second == [] {
      assert first + second == first;
    } else {
      var n := |second| - 1;
      ReleaseInTwo(l, objs, first, second[..n]);
      ReleaseAllThen(l, objs, first + second[..n], second[n]);
      assert first + second[..n] + [second[n]] == first + second;
    }
  }

  /** Both phases: the exported objects, then the proxies. */
  lemma TwoPhases(l: Ledger, objs: seq<Obj>, exported: seq<nat>, proxies: seq<nat>)
    requires AllExported(objs, exported) && AllProxies(objs, proxies) && NoDup(proxies)
    ensures InRange(objs, exported + proxies)
    ensures ReleaseAll(l, objs, exported + proxies).0
         == C.DetachAll(l.(paths := l.paths - PathsOf(objs, exported)), Paired(objs, proxies))
  {
    ExportedPhase(l, objs, exported);
    ReleaseInTwo(l, objs, exported, proxies);
    NotExported(objs, exported);
    var r := ReleaseAll(l, objs, exported);
    assert Paired(r.1, proxies) == Paired(objs, proxies);
    ProxyPhase(r.0, r.1, proxies);
  }

  lemma NotExported(objs: seq<Obj>, exported: seq<nat>)
    requires AllExported(objs, exported)
    ensures forall a | 0 <= a < |objs| && objs[a].key.ProxyKey? :: a !in exported
  {}

  /** BusClasses.ShutdownAndBlock, given the objects of the tables in any order, ends with the ledger of the shutdown
      step: unregister, release names, detach, disconnect. */
  lemma InPlaceShutdownIsShutdown(s: System, exported: seq<nat>, proxies: seq<nat>, env: Env)
    requires CoreInv(s.led, s.objs) && !s.done
    requires AllExported(s.objs, exported) && AllProxies(s.objs, proxies) && NoDup(proxies)
    requires forall a: nat :: a in exported + proxies <==> InTable(s, a)
    ensures var l := s.led;
            var released := l.(paths := l.paths - PathsOf(s.objs, exported), owned := l.owned * env.keeps);
            Disconnect(C.DetachAll(released, Paired(s.objs, proxies))) == ShutdownNow(s, env).led
  {
    var l := s.led.(owned := s.led.owned * env.keeps);
    OwnedIrrelevant(s.led, s.objs, l);
    TwoPhases(l, s.objs, exported, proxies);
    ReleaseOrderIrrelevant(s.(led := l), exported + proxies);
    OwnedApart(s, l, |s.objs|);
  }

  lemma {:induction false} OwnedApart(s: System, l: Ledger, n: nat)
    requires n <= |s.objs| && l == s.led.(owned := l.owned)
    ensures var r, q := ReleaseTable(s, n), ReleaseTable(s.(led := l), n);
            q.0 == r.0.(owned := l.owned) && q.1 == r.1 && r.0.owned == s.led.owned
  {
    if n > 0 { OwnedApart(s, l, n - 1); }
  }

  // ----- the objects in memory -----

  function ExportedIds(exported: set<C.ExportedObject>, ids: map<C.ExportedObject, nat>): set<nat>
    requires exported <= ids.Keys
  {
    set o | o in exported :: ids[o]
  }

  function ProxyIds(proxies: set<C.ObjectProxy>): set<nat> { set p | p in proxies :: p.id }

  /** The bus and the objects of its tables stand for the system: each exported object for the entry `ids` gives it,
      each proxy for the entry of its own number, and together for exactly the objects in the tables. */
  ghost predicate StandsFor(
    bus: C.Bus, exported: set<C.ExportedObject>, proxies: set<C.ObjectProxy>,
    s: System, ids: map<C.ExportedObject, nat>)
    reads bus, exported, proxies
  {
    && bus.View() == s.led && bus.shutdownCompleted == s.done
    && ids.Keys == exported
    && (forall o | o in exported :: o.bus == bus && InTable(s, ids[o]) && s.objs[ids[o]] == o.View())
    && (forall p | p in proxies :: p.bus == bus && InTable(s, p.id) && s.objs[p.id] == p.View())
    && (forall p, q | p in proxies && q in proxies && p != q :: p.id != q.id)
    && (forall a: nat | InTable(s, a) :: a in ExportedIds(exported, ids) || a in ProxyIds(proxies))
  }

  function NumbersOf(order: seq<C.ObjectProxy>): seq<nat> {
    seq(|order|, i requires 0 <= i < |order| => order[i].id)
  }

  lemma NumbersListed(order: seq<C.ObjectProxy>, proxies: set<C.ObjectProxy>)
    requires C.Distinct(order) && forall p :: p in order <==> p in proxies
    requires forall p, q | p in proxies && q in proxies && p != q :: p.id != q.id
    ensures NoDup(NumbersOf(order))
    ensures forall a: nat :: a in NumbersOf(order) <==> a in ProxyIds(proxies)
  {
    var ids := NumbersOf(order);
    forall i, j | 0 <= i < j < |ids| ensures ids[i] != ids[j] { assert order[i] in proxies && order[j] in proxies; }
    forall a: nat | a in ids ensures a in ProxyIds(proxies) {
      var i :| 0 <= i < |ids| && ids[i] == a;
      assert order[i] in proxies;
    }
    forall p | p in proxies ensures p.id in ids {
      var i :| 0 <= i < |order| && order[i] == p;
      assert ids[i] == p.id;
    }
  }

  /** The numbers of the exported objects, and the paths of those that are registered. */
  lemma ExportedListed(
    bus: C.Bus, exported: set<C.ExportedObject>, proxies: set<C.ObjectProxy>,
    s: System, ids: map<C.ExportedObject, nat>)
    returns (order: seq<nat>)
    requires StandsFor(bus, exported, proxies, s, ids)
    ensures AllExported(s.objs, order)
    ensures forall a: nat :: InTable(s, a) <==> a in order || a in ProxyIds(proxies)
    ensures PathsOf(s.objs, order) == set o | o in exported && o.registered :: o.path
  {
    order := Listing(ExportedIds(exported, ids));
    forall i | 0 <= i < |order| ensures order[i] < |s.objs| && s.objs[order[i]].key.ExportedKey? {
      assert order[i] in order;
      var o :| o in exported && ids[o] == order[i];
    }
    forall o | o in exported && o.registered ensures o.path in PathsOf(s.objs, order) {
      assert ids[o] in order;
      var i :| 0 <= i < |order| && order[i] == ids[o];
    }
    forall path | path in PathsOf(s.objs, order) ensures exists o :: o in exported && o.registered && o.path == path {
      var i :| 0 <= i < |order| && s.objs[order[i]].registered && s.objs[order[i]].key.path == path;
      assert order[i] in order;
      var o :| o in exported && ids[o] == order[i];
    }
    forall a | a in ExportedIds(exported, ids) ensures InTable(s, a) {
      var o :| o in exported && ids[o] == a;
    }
    forall a | a in ProxyIds(proxies) ensures InTable(s, a) {
      var p :| p in proxies && p.id == a;
    }
  }

  lemma {:induction false} Listing(a: set<nat>) returns (r: seq<nat>)
    ensures forall x :: x in r <==> x in a
    decreases a
  {
    if a == {} {
      r := [];
    } else {
      var x :| x in a;
      var q := Listing(a - {x});
      r := q + [x];
    }
  }

  /** Whoever holds something on a bus that was not shut down finds it connected. */
  lemma HoldersConnected(l: Ledger, objs: seq<Obj>)
    requires Sound((l, objs)) && (l.connected || l == EMPTY)
    ensures l.owned != {} ==> l.connected
    ensures forall a | 0 <= a < |objs| :: objs[a].registered || objs[a].rules != {} ==> l.connected
  {
    forall a | 0 <= a < |objs| && (objs[a].registered || objs[a].rules != {}) ensures l.connected {
      if rule :| rule in objs[a].rules { HeldRuleIsCounted(l, objs, a, rule); }
    }
  }

  lemma ShutdownObjects(s: System, env: Env, order: seq<nat>)
    requires CoreInv(s.led, s.objs) && !s.done
    requires forall a: nat :: a in order <==> InTable(s, a)
    ensures |ShutdownNow(s, env).objs| == |s.objs|
    ensures forall a: nat | InTable(s, a) :: ShutdownNow(s, env).objs[a] == Freed(s.objs[a])
  {
    ReleaseOrderIrrelevant(s, order);
    ReleaseAllLeaves(s.led, s.objs, order);
  }

  /** What the in-place shutdown has to leave of the ledger. */
  function LedgerLeft(l: Ledger, paths: set<string>, env: Env, detached: seq<(nat, Obj)>): Ledger {
    Disconnect(C.DetachAll(l.(paths := l.paths - paths, owned := l.owned * env.keeps), detached))
  }

  lemma ListsDescribeShutdown(s: System, first: seq<nat>, second: seq<nat>, detached: seq<(nat, Obj)>, env: Env)
    requires Sound((s.led, s.objs)) && !s.done
    requires AllExported(s.objs, first) && NoDup(second) && |detached| == |second|
    requires forall i | 0 <= i < |second| ::
               InTable(s, second[i]) && s.objs[second[i]].key.ProxyKey? && detached[i] == (second[i], s.objs[second[i]])
    requires forall a: nat :: InTable(s, a) <==> a in first || a in second
    ensures LedgerLeft(s.led, PathsOf(s.objs, first), env, detached) == ShutdownNow(s, env).led
    ensures |ShutdownNow(s, env).objs| == |s.objs|
    ensures forall a: nat | InTable(s, a) :: ShutdownNow(s, env).objs[a] == Freed(s.objs[a])
  {
    assert detached == Paired(s.objs, second);
    InPlaceShutdownIsShutdown(s, first, second, env);
    ShutdownObjects(s, env, first + second);
  }

  /** In the middle of any run, shutting down the objects in memory leaves bus and objects as the shutdown step says. */
  method ShutdownInPlace(
    bus: C.Bus, exported: set<C.ExportedObject>, proxies: set<C.ObjectProxy>, env: Env,
    ghost s: System, ghost ids: map<C.ExportedObject, nat>)
    requires StandsFor(bus, exported, proxies, s, ids)
    requires Sound((s.led, s.objs)) && (s.done || s.led.connected || s.led == EMPTY)
    modifies bus, exported`registered, proxies`matchRules
    ensures bus.View() == ShutdownNow(s, env).led && bus.shutdownCompleted && |ShutdownNow(s, env).objs| == |s.objs|
    ensures forall o | o in exported :: o.View() == ShutdownNow(s, env).objs[ids[o]]
    ensures forall p | p in proxies :: p.View() == ShutdownNow(s, env).objs[p.id]
  {
    if bus.shutdownCompleted {
      var _, _ := C.ShutdownAndBlock(bus, exported, proxies, env);
    } else {
      FirstShutdown(bus, exported, proxies, env, s, ids);
    }
  }

  method FirstShutdown(
    bus: C.Bus, exported: set<C.ExportedObject>, proxies: set<C.ObjectProxy>, env: Env,
    ghost s: System, ghost ids: map<C.ExportedObject, nat>)
    requires StandsFor(bus, exported, proxies, s, ids)
    requires Sound((s.led, s.objs)) && !s.done && (s.led.connected || s.led == EMPTY)
    modifies bus, exported`registered, proxies`matchRules
    ensures bus.View() == ShutdownNow(s, env).led && bus.shutdownCompleted && |ShutdownNow(s, env).objs| == |s.objs|
    ensures forall o | o in exported :: o.View() == ShutdownNow(s, env).objs[ids[o]]
    ensures forall p | p in proxies :: p.View() == ShutdownNow(s, env).objs[p.id]
  {
    HoldersConnected(s.led, s.objs);
    ghost var first := ExportedListed(bus, exported, proxies, s, ids);
    ghost var second, detached := ReleaseListed(bus, exported, proxies, env, s, ids, first);
    ListsDescribeShutdown(s, first, second, detached, env);
  }

  /** The numbers and states of the proxies in the order they were detached, and what is left of bus and objects. */
  method ReleaseListed(
    bus: C.Bus, exported: set<C.ExportedObject>, proxies: set<C.ObjectProxy>, env: Env,
    ghost s: System, ghost ids: map<C.ExportedObject, nat>, ghost first: seq<nat>)
    returns (ghost second: seq<nat>, ghost detached: seq<(nat, Obj)>)
    requires StandsFor(bus, exported, proxies, s, ids) && !s.done
    requires !bus.connection ==>
               && bus.ownedServiceNames == {} && (forall o | o in exported :: !o.registered)
               && (forall p | p in proxies :: p.matchRules == {})
    requires AllExported(s.objs, first)
    requires PathsOf(s.objs, first) == set o | o in exported && o.registered :: o.path
    modifies bus, exported`registered, proxies`matchRules
    ensures NoDup(second) && |detached| == |second|
    ensures forall a: nat :: a in second <==> a in ProxyIds(proxies)
    ensures forall i | 0 <= i < |second| ::
              InTable(s, second[i]) && s.objs[second[i]].key.ProxyKey? && detached[i] == (second[i], s.objs[second[i]])
    ensures bus.View() == LedgerLeft(s.led, PathsOf(s.objs, first), env, detached) && bus.shutdownCompleted
    ensures forall o | o in exported :: o.View() == Freed(s.objs[ids[o]])
    ensures forall p | p in proxies :: p.View() == Freed(s.objs[p.id])
  {
    ghost var order;
    order, detached := C.ShutdownAndBlock(bus, exported, proxies, env);
    second := NumbersOf(order);
    NumbersListed(order, proxies);
    assert forall i | 0 <= i < |order| :: order[i] in proxies;
  }
}
