/** Bus, ExportedObject and ObjectProxy as objects updated in place. Each method is proved to compute the
    function of BusLedger that the protocol proofs are about. */
module BusClasses {
  import opened L = BusLedger
  import opened MatchRules
  import P = BusProtocol

  class Bus {
    var connection: bool
    var ownedServiceNames: set<string>
    var matchRulesAdded: map<Rule, int>
    var filterFunctionsAdded: set<Filter>
    var registeredObjectPaths: set<string>
    var listenerMap: map<string, seq<nat>>
    var shutdownCompleted: bool
    var daemonCalls: seq<DaemonCall>      // dbus_bus_add_match and dbus_bus_remove_match
    ghost var refused: multiset<Rule>

    ghost function View(): Ledger reads this {
      Ledger(connection, ownedServiceNames, matchRulesAdded, filterFunctionsAdded, registeredObjectPaths,
             listenerMap, refused)
    }

    ghost function MatchView(): Rules reads this { Rules(matchRulesAdded, daemonCalls) }

    constructor ()
      ensures View() == EMPTY && daemonCalls == [] && !shutdownCompleted
    {
      connection, ownedServiceNames, matchRulesAdded, filterFunctionsAdded := false, {}, map[], {};
      registeredObjectPaths, listenerMap, daemonCalls, refused := {}, map[], [], multiset{};
      shutdownCompleted := false;
    }

    method Connect(env: Env) returns (ok: bool)
      modifies this
      ensures View() == L.Connect(old(View()), env) && ok == ConnectOk(old(View()), env)
      ensures ok <==> old(connection) || env.connect == Opened
      ensures connection <==> old(connection) || env.connect != NotOpened
      ensures !old(connection) && ok ==>
                DisconnectedFilter in filterFunctionsAdded && Disconnected in matchRulesAdded
      ensures shutdownCompleted == old(shutdownCompleted)
    {
      if connection {
        return true;
      }
      if env.connect.NotOpened? {
        return false;
      }
      connection := true;
      if env.connect.HelloFailed? {
        return false;
      }
      AddFilterFunction(DisconnectedFilter);
      var _ := AddMatch(Disconnected, env);
      return true;
    }

    method AddFilterFunction(f: Filter)
      requires connection
      modifies this`filterFunctionsAdded
      ensures filterFunctionsAdded == old(filterFunctionsAdded) + {f}
    {
      if f in filterFunctionsAdded {
        return;
      }
      filterFunctionsAdded := filterFunctionsAdded + {f};
    }

    method RemoveFilterFunction(f: Filter)
      requires connection
      modifies this`filterFunctionsAdded
      ensures filterFunctionsAdded == old(filterFunctionsAdded) - {f}
    {
      if f !in filterFunctionsAdded {
        return;
      }
      filterFunctionsAdded := filterFunctionsAdded - {f};
    }

    /** The rule is recorded even when the daemon reports an error. */
    method AddMatch(rule: Rule, env: Env) returns (error: bool)
      requires connection
      modifies this`matchRulesAdded, this`daemonCalls
      ensures View() == L.AddMatch(old(View()), rule) && error == AddMatchErrs(old(View()), rule, env)
      ensures Count(matchRulesAdded, rule) == Count(old(matchRulesAdded), rule) + 1
      ensures error <==> rule !in old(matchRulesAdded) && rule in env.refuses
      ensures MatchView() == AddStep(old(MatchView()), rule)
    {
      if rule in matchRulesAdded {
        matchRulesAdded := matchRulesAdded[rule := matchRulesAdded[rule] + 1];
        return false;
      }
      daemonCalls := daemonCalls + [Add(rule)];
      error := rule in env.refuses;
      matchRulesAdded := matchRulesAdded[rule := 1];
    }

    method RemoveMatch(rule: Rule) returns (ok: bool)
      requires connection
      modifies this`matchRulesAdded, this`daemonCalls
      ensures View() == L.RemoveMatch(old(View()), rule) && ok == (rule in old(matchRulesAdded))
      ensures MatchView() == RemoveStep(old(MatchView()), rule)
    {
      if rule !in matchRulesAdded {
        return false;
      }
      var count := matchRulesAdded[rule] - 1;
      if count == 0 {
        daemonCalls := daemonCalls + [Remove(rule)];
        matchRulesAdded := matchRulesAdded - {rule};
      } else {
        matchRulesAdded := matchRulesAdded[rule := count];
      }
      return true;
    }

    method TryRegisterObjectPath(path: string, env: Env) returns (ok: bool)
      requires connection
      modifies this`registeredObjectPaths
      ensures ok == (path !in old(registeredObjectPaths) && env.registers)
      ensures registeredObjectPaths == if ok then old(registeredObjectPaths) + {path} else old(registeredObjectPaths)
    {
      if path in registeredObjectPaths {
        return false;
      }
      if env.registers {
        registeredObjectPaths := registeredObjectPaths + {path};
      }
      return env.registers;
    }

    method UnregisterObjectPath(path: string)
      requires connection
      modifies this`registeredObjectPaths
      ensures registeredObjectPaths == old(registeredObjectPaths) - {path}
    {
      if path !in registeredObjectPaths {
        return;
      }
      registeredObjectPaths := registeredObjectPaths - {path};
    }

    /** RequestOwnershipInternal: connect, then request. */
    method RequestOwnership(name: string, env: Env) returns (ok: bool)
      modifies this
      ensures View() == L.RequestOwnership(old(View()), name, env)
      ensures ok <==> (old(connection) || env.connect == Opened) && (name in old(ownedServiceNames) || env.grants)
      ensures ownedServiceNames == if ok then old(ownedServiceNames) + {name} else old(ownedServiceNames)
      ensures shutdownCompleted == old(shutdownCompleted)
    {
      ok := Connect(env);
      if !ok || name in ownedServiceNames {
        return;
      }
      if !env.grants {
        return false;
      }
      ownedServiceNames := ownedServiceNames + {name};
    }

    method ReleaseOwnership(name: string, env: Env) returns (ok: bool)
      requires connection
      modifies this`ownedServiceNames
      ensures View() == L.ReleaseOwnership(old(View()), name, env)
      ensures ok == (name in old(ownedServiceNames) && name !in env.keeps)
      ensures ownedServiceNames == if ok then old(ownedServiceNames) - {name} else old(ownedServiceNames)
    {
      if name !in ownedServiceNames {
        return false;
      }
      if name in env.keeps {
        return false;
      }
      ownedServiceNames := ownedServiceNames - {name};
      return true;
    }

    method Listen(service: string, callback: nat, env: Env)
      modifies this
      ensures View() == L.Listen(old(View()), service, callback, env)
      ensures shutdownCompleted == old(shutdownCompleted)
    {
      var ok := Connect(env);
      if !ok {
        return;
      }
      if listenerMap == map[] {
        AddFilterFunction(OwnerChangedFilter);
      }
      if service !in listenerMap {
        var error := AddMatch(OwnerChanged(service), env);
        if error {
          refused := refused + multiset{OwnerChanged(service)};
          return;
        }
        listenerMap := listenerMap[service := [callback]];
        return;
      }
      var listed := Lists(listenerMap[service], callback);
      if listed {
        return;
      }
      listenerMap := listenerMap[service := listenerMap[service] + [callback]];
    }

    /** The loop that looks for an equal callback. */
    static method Lists(callbacks: seq<nat>, callback: nat) returns (listed: bool)
      ensures listed == (callback in callbacks)
    {
      var i := 0;
      while i < |callbacks|
        invariant 0 <= i <= |callbacks| && callback !in callbacks[..i]
      {
        if callbacks[i] == callback {
          return true;
        }
        i := i + 1;
      }
      return false;
    }

    method Unlisten(service: string, callback: nat)
      requires service in listenerMap ==> connection
      modifies this
      ensures View() == L.Unlisten(old(View()), service, callback)
      ensures shutdownCompleted == old(shutdownCompleted)
    {
      if service !in listenerMap {
        return;
      }
      var callbacks := listenerMap[service];
      var i := 0;
      while i < |callbacks|
        invariant 0 <= i <= |callbacks| && callback !in callbacks[..i]
      {
        if callbacks[i] == callback {
          break;
        }
        i := i + 1;
      }
      EraseFirst(callbacks, callback, i);
      if i < |callbacks| {
        callbacks := callbacks[..i] + callbacks[i + 1..];
      }
      if callbacks != [] {
        listenerMap := listenerMap[service := callbacks];
        return;
      }
      var _ := RemoveMatch(OwnerChanged(service));
      listenerMap := listenerMap - {service};
      if listenerMap == map[] {
        RemoveFilterFunction(OwnerChangedFilter);
      }
    }

    /** Every owned name is released in turn; ReleaseOwnership erases from the set being walked. */
    method ReleaseAllNames(env: Env)
      requires ownedServiceNames != {} ==> connection
      modifies this`ownedServiceNames
      ensures ownedServiceNames == old(ownedServiceNames) * env.keeps
    {
      var todo := ownedServiceNames;
      while todo != {}
        invariant todo <= ownedServiceNames
        invariant ownedServiceNames == todo + (old(ownedServiceNames) - todo) * env.keeps
        invariant todo <= old(ownedServiceNames)
        decreases todo
      {
        var name :| name in todo;
        todo := todo - {name};
        var _ := ReleaseOwnership(name, env);
      }
    }

    /** The end of ShutdownAndBlock, once every object is released. */
    method CloseConnection()
      modifies this
      ensures View() == P.Disconnect(old(View())) && shutdownCompleted
    {
      if connection {
        RemoveFilterFunction(DisconnectedFilter);
        var _ := RemoveMatch(Disconnected);
      }
      connection := false;
      shutdownCompleted := true;
    }
  }

  /** The loop that erases the first equal callback computes RemoveFirst. */
  lemma EraseFirst(s: seq<nat>, x: nat, i: nat)
    requires i <= |s| && x !in s[..i] && (i < |s| ==> s[i] == x)
    ensures RemoveFirst(s, x) == if i < |s| then s[..i] + s[i + 1..] else s
  {
    assert s == s[..i] + s[i..];
    EraseBehind(s[..i], s[i..], x);
  }

  lemma {:induction false} EraseBehind(before: seq<nat>, rest: seq<nat>, x: nat)
    requires x !in before && (rest != [] ==> rest[0] == x)
    ensures RemoveFirst(before + rest, x) == before + (if rest == [] then [] else rest[1..])
  {
    if before == [] {
      assert before + rest == rest;
    } else {
      assert (before + rest)[1..] == before[1..] + rest;
      EraseBehind(before[1..], rest, x);
    }
  }

  class ExportedObject {
    const bus: Bus
    const path: string
    var registered: bool
    var methods: map<string, nat>

    ghost function View(): Obj reads this { Obj(ExportedKey(path), registered, methods, {}) }

    constructor (bus: Bus, path: string)
      ensures this.bus == bus && View() == NewObj(ExportedKey(path))
    {
      this.bus, this.path, registered, methods := bus, path, false, map[];
    }

    method Register(env: Env) returns (ok: bool)
      requires bus.connection
      modifies this`registered, bus`registeredObjectPaths
      ensures ok == (old(registered) || (path !in old(bus.registeredObjectPaths) && env.registers))
      ensures registered == ok
      ensures bus.registeredObjectPaths
           == if ok && !old(registered) then old(bus.registeredObjectPaths) + {path} else old(bus.registeredObjectPaths)
    {
      if registered {
        return true;
      }
      ok := bus.TryRegisterObjectPath(path, env);
      if !ok {
        return;
      }
      registered := true;
    }

    method Unregister()
      requires registered ==> bus.connection
      modifies this`registered, bus`registeredObjectPaths
      ensures (bus.View(), View()) == Release(old(bus.View()), 0, old(View()))
      ensures !registered && bus.registeredObjectPaths
                             == if old(registered) then old(bus.registeredObjectPaths) - {path}
                                else old(bus.registeredObjectPaths)
    {
      if !registered {
        return;
      }
      bus.UnregisterObjectPath(path);
      registered := false;
    }

    method ExportMethodAndBlock(name: string, callback: nat, env: Env) returns (ok: bool)
      modifies this, bus
      ensures (bus.View(), View(), ok) == Export(old(bus.View()), old(View()), name, callback, env)
      ensures ok <==> && name !in old(methods) && (old(bus.connection) || env.connect == Opened)
                      && (old(registered) || (path !in old(bus.registeredObjectPaths) && env.registers))
      ensures methods == if ok then old(methods)[name := callback] else old(methods)
      ensures registered == (old(registered) || ok)
      ensures bus.shutdownCompleted == old(bus.shutdownCompleted)
    {
      if name in methods {
        return false;
      }
      ok := bus.Connect(env);
      if !ok {
        return;
      }
      ok := Register(env);
      if !ok {
        return;
      }
      methods := methods[name := callback];
    }

    method UnexportMethodAndBlock(name: string) returns (ok: bool)
      modifies this`methods
      ensures ok == (name in old(methods)) && methods == old(methods) - {name}
    {
      if name !in methods {
        return false;
      }
      methods := methods - {name};
      return true;
    }
  }

  class ObjectProxy {
    const bus: Bus
    const id: nat
    const service: string
    const path: string
    const options: int
    var matchRules: set<Rule>

    ghost function View(): Obj reads this { Obj(ProxyKey(service, path, options), false, map[], matchRules) }

    constructor (bus: Bus, id: nat, service: string, path: string, options: int)
      ensures this.bus == bus && this.id == id && View() == NewObj(ProxyKey(service, path, options))
    {
      this.bus, this.id, this.service, this.path, this.options, matchRules := bus, id, service, path, options, {};
    }

    method AddMatchRule(rule: Rule, env: Env) returns (ok: bool)
      requires bus.connection
      modifies this`matchRules, bus
      ensures (bus.View(), View()) == AddProxyRule(old(bus.View()), old(View()), rule, env)
      ensures ok <==> rule in old(matchRules) || rule in old(bus.matchRulesAdded) || rule !in env.refuses
      ensures matchRules == if ok then old(matchRules) + {rule} else old(matchRules)
      ensures ok == (rule in matchRules) && bus.connection && bus.shutdownCompleted == old(bus.shutdownCompleted)
    {
      if rule in matchRules {
        return true;
      }
      var error := bus.AddMatch(rule, env);
      if error {
        bus.refused := bus.refused + multiset{rule};
        return false;
      }
      matchRules := matchRules + {rule};
      return true;
    }

    method ConnectToSignalAndBlock(text: string, env: Env) returns (ok: bool)
      modifies this, bus
      ensures (bus.View(), View()) == ConnectSignal(old(bus.View()), id, old(View()), text, env)
      ensures ok == (ConnectOk(old(bus.View()), env) && {OwnerChanged(service), Signal(text)} <= matchRules)
      ensures bus.shutdownCompleted == old(bus.shutdownCompleted)
    {
      ok := ConnectToNameOwnerChangedSignal(env);
      if !ok {
        return;
      }
      ok := AddMatchRule(Signal(text), env);
    }

    method ConnectToNameOwnerChangedSignal(env: Env) returns (ok: bool)
      modifies this, bus
      ensures (bus.View(), View(), ok) == ConnectOwner(old(bus.View()), id, old(View()), env)
      ensures ok ==> bus.connection
      ensures bus.shutdownCompleted == old(bus.shutdownCompleted)
    {
      ok := bus.Connect(env);
      if !ok {
        return;
      }
      bus.AddFilterFunction(ProxyFilter(id));
      ok := AddMatchRule(OwnerChanged(service), env);
    }

    method Detach()
      requires matchRules != {} ==> bus.connection
      modifies this`matchRules, bus
      ensures (bus.View(), View()) == Release(old(bus.View()), id, old(View()))
      ensures matchRules == {} && bus.connection == old(bus.connection)
      ensures bus.filterFunctionsAdded
           == if old(bus.connection) then old(bus.filterFunctionsAdded) - {ProxyFilter(id)}
              else old(bus.filterFunctionsAdded)
      ensures bus.shutdownCompleted == old(bus.shutdownCompleted)
    {
      if bus.connection {
        bus.RemoveFilterFunction(ProxyFilter(id));
      }
      ghost var start := bus.View();
      var todo := matchRules;
      while todo != {}
        invariant todo <= matchRules && (todo != {} ==> bus.connection) && matchRules == old(matchRules)
        invariant bus.View() == RemoveMatches(start, matchRules - todo)
        invariant bus.shutdownCompleted == old(bus.shutdownCompleted)
        decreases todo
      {
        var rule :| rule in todo;
        RemoveOneMore(start, matchRules - todo, rule);
        assert (matchRules - todo) + {rule} == matchRules - (todo - {rule});
        todo := todo - {rule};
        var _ := bus.RemoveMatch(rule);
      }
      assert matchRules - {} == matchRules;
      matchRules := {};
    }
  }

  lemma RemoveOneMore(l: Ledger, rules: set<Rule>, rule: Rule)
    requires rule !in rules
    ensures L.RemoveMatch(RemoveMatches(l, rules), rule) == RemoveMatches(l, rules + {rule})
  {}

  /** Detach of a sequence of proxies, each given by its id and its state. */
  function DetachAll(l: Ledger, proxies: seq<(nat, Obj)>): Ledger {
    if proxies == [] then l
    else
      var last := proxies[|proxies| - 1];
      Release(DetachAll(l, proxies[..|proxies| - 1]), last.0, last.1).0
  }

  ghost predicate Distinct(order: seq<ObjectProxy>) { forall i, j | 0 <= i < j < |order| :: order[i] != order[j] }

  /** ShutdownAndBlock on a bus and the objects of its tables: exported objects first, then names, then each proxy once
      in some order, then the connection; and nothing at all if the bus was shut down before. `order` and `detached`
      are the proxies in the order they were detached, and what each was then. */
  method ShutdownAndBlock(bus: Bus, exported: set<ExportedObject>, proxies: set<ObjectProxy>, env: Env)
    returns (ghost order: seq<ObjectProxy>, ghost detached: seq<(nat, Obj)>)
    requires forall o | o in exported :: o.bus == bus
    requires forall p | p in proxies :: p.bus == bus
    requires !bus.shutdownCompleted && !bus.connection ==>
               && bus.ownedServiceNames == {} && (forall o | o in exported :: !o.registered)
               && (forall p | p in proxies :: p.matchRules == {})
    modifies bus, exported`registered, proxies`matchRules
    ensures bus.shutdownCompleted
    ensures old(bus.shutdownCompleted) ==> unchanged(bus) && unchanged(exported) && unchanged(proxies)
    ensures !old(bus.shutdownCompleted) ==>
              && (forall o | o in exported :: !o.registered)
              && (forall p | p in proxies :: p.matchRules == {})
              && Distinct(order) && (forall p :: p in order <==> p in proxies)
              && |detached| == |order|
              && (forall i | 0 <= i < |order| && order[i] in proxies ::
                    detached[i] == (order[i].id, old(order[i].View())))
              && var l := old(bus.View());
                 var paths := l.paths - set o | o in exported && old(o.registered) :: o.path;
                 bus.View() == P.Disconnect(DetachAll(l.(paths := paths, owned := l.owned * env.keeps), detached))
  {
    if bus.shutdownCompleted {
      return [], [];
    }
    order, detached := ReleaseEverything(bus, exported, proxies, env);
  }

  method ReleaseEverything(bus: Bus, exported: set<ExportedObject>, proxies: set<ObjectProxy>, env: Env)
    returns (ghost order: seq<ObjectProxy>, ghost detached: seq<(nat, Obj)>)
    requires forall o | o in exported :: o.bus == bus && (o.registered ==> bus.connection)
    requires forall p | p in proxies :: p.bus == bus && (p.matchRules != {} ==> bus.connection)
    requires bus.ownedServiceNames != {} ==> bus.connection
    modifies bus, exported`registered, proxies`matchRules
    ensures bus.shutdownCompleted
    ensures forall o | o in exported :: !o.registered
    ensures forall p | p in proxies :: p.matchRules == {}
    ensures Distinct(order) && forall p :: p in order <==> p in proxies
    ensures |detached| == |order|
    ensures forall i | 0 <= i < |order| && order[i] in proxies :: detached[i] == (order[i].id, old(order[i].View()))
    ensures var l := old(bus.View());
            var paths := l.paths - set o | o in exported && old(o.registered) :: o.path;
            bus.View() == P.Disconnect(DetachAll(l.(paths := paths, owned := l.owned * env.keeps), detached))
  {
    ReleasePathsAndNames(bus, exported, env);
    order, detached := DetachProxies(bus, proxies);
    bus.CloseConnection();
  }

  method ReleasePathsAndNames(bus: Bus, exported: set<ExportedObject>, env: Env)
    requires forall o | o in exported :: o.bus == bus && (o.registered ==> bus.connection)
    requires bus.ownedServiceNames != {} ==> bus.connection
    modifies bus`registeredObjectPaths, bus`ownedServiceNames, exported`registered
    ensures forall o | o in exported :: !o.registered
    ensures var l := old(bus.View());
            var paths := l.paths - set o | o in exported && old(o.registered) :: o.path;
            bus.View() == l.(paths := paths, owned := l.owned * env.keeps)
  {
    UnregisterAll(bus, exported);
    bus.ReleaseAllNames(env);
  }

  /** The proxies of a sequence with the states a map gives them. */
  ghost function Pairs(order: seq<ObjectProxy>, was: map<ObjectProxy, Obj>): seq<(nat, Obj)>
    requires forall p | p in order :: p in was
  {
    seq(|order|, i requires 0 <= i < |order| => (order[i].id, was[order[i]]))
  }

  lemma OneMoreDetached(l: Ledger, order: seq<ObjectProxy>, p: ObjectProxy, was: map<ObjectProxy, Obj>)
    requires (forall q | q in order :: q in was) && p in was && Distinct(order) && p !in order
    ensures Distinct(order + [p])
    ensures DetachAll(l, Pairs(order + [p], was)) == Release(DetachAll(l, Pairs(order, was)), p.id, was[p]).0
  {
    assert Pairs(order + [p], was)[..|order|] == Pairs(order, was);
  }

  method DetachProxies(bus: Bus, proxies: set<ObjectProxy>)
    returns (ghost order: seq<ObjectProxy>, ghost detached: seq<(nat, Obj)>)
    requires forall p | p in proxies :: p.bus == bus && (p.matchRules != {} ==> bus.connection)
    modifies bus, proxies`matchRules
    ensures forall p | p in proxies :: p.matchRules == {}
    ensures Distinct(order) && forall p :: p in order <==> p in proxies
    ensures |detached| == |order|
    ensures forall i | 0 <= i < |order| && order[i] in proxies :: detached[i] == (order[i].id, old(order[i].View()))
    ensures bus.View() == DetachAll(old(bus.View()), detached)
  {
    var todo := proxies;
    order := [];
    ghost var was := map p | p in proxies :: p.View();
    while todo != {}
      invariant todo <= proxies && bus.connection == old(bus.connection)
      invariant Distinct(order) && forall p :: p in order <==> p in proxies - todo
      invariant forall p | p in proxies :: if p in todo then p.View() == was[p] else p.matchRules == {}
      invariant bus.View() == DetachAll(old(bus.View()), Pairs(order, was))
      decreases todo
    {
      var p :| p in todo;
      OneMoreDetached(old(bus.View()), order, p, was);
      order := order + [p];
      todo := todo - {p};
      p.Detach();
    }
    detached := Pairs(order, was);
  }

  method UnregisterAll(bus: Bus, exported: set<ExportedObject>)
    requires forall o | o in exported :: o.bus == bus && (o.registered ==> bus.connection)
    modifies bus`registeredObjectPaths, exported`registered
    ensures forall o | o in exported :: !o.registered
    ensures bus.registeredObjectPaths
         == old(bus.registeredObjectPaths) - set o | o in exported && old(o.registered) :: o.path
  {
    var todo := exported;
    ghost var was := set o | o in exported && o.registered;
    while todo != {}
      invariant todo <= exported
      invariant forall o | o in exported :: o.registered == (o in todo && o in was)
      invariant bus.registeredObjectPaths == old(bus.registeredObjectPaths) - set o | o in was && o !in todo :: o.path
      decreases todo
    {
      var o :| o in todo;
      todo := todo - {o};
      o.Unregister();
    }
  }
}
