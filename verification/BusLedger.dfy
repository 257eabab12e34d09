/** The ledgers a Bus keeps on its D-Bus thread (dbus/bus.cc), as values, together with what one
    exported object (dbus/exported_object.cc) or one object proxy (dbus/object_proxy.cc) does to them.

    Every reply of libdbus or of the daemon is a field of `Env`, so a function here is deterministic
    and a statement about all `Env` values is a statement about all replies. */
module BusLedger {

  /** Match rules. The owner-change rule of a service is one and the same text whether the bus or an
      object proxy adds it, so both use `OwnerChanged`. */
  datatype Rule = Disconnected | OwnerChanged(service: string) | Signal(text: string)

  datatype Filter = DisconnectedFilter | OwnerChangedFilter | ProxyFilter(proxy: nat)

  /** Opening a connection: it fails, or it opens but the later Hello call fails (custom address only), or it works. */
  datatype ConnectReply = NotOpened | HelloFailed | Opened

  datatype Env = Env(
    connect: ConnectReply,
    refuses: set<Rule>,      // rules whose addition the daemon reports as an error
    registers: bool,         // dbus_connection_try_register_object_path
    grants: bool,            // dbus_bus_request_name makes us primary owner
    keeps: set<string>,      // names whose dbus_bus_release_name fails
    cancelled: bool)         // MethodCallCallback::IsCancelled

  /** `refused` is history: one occurrence of a rule for each time the daemon refused a rule that AddMatch
      counted all the same and that no one holds. The other fields are the fields of the source. */
  datatype Ledger = Ledger(
    connected: bool,
    owned: set<string>,
    matches: map<Rule, int>,
    filters: set<Filter>,
    paths: set<string>,
    listeners: map<string, seq<nat>>,
    refused: multiset<Rule>)

  const EMPTY := Ledger(false, {}, map[], {}, {}, map[], multiset{})

  datatype Key = ExportedKey(path: string) | ProxyKey(service: string, path: string, options: int)

  /** An exported object uses `registered` and `methods`; a proxy uses `rules`. */
  datatype Obj = Obj(key: Key, registered: bool, methods: map<string, nat>, rules: set<Rule>)

  function NewObj(key: Key): Obj { Obj(key, false, map[], {}) }

  // ----- match rules, filters, connection -----

  function Count(matches: map<Rule, int>, rule: Rule): int {
    if rule in matches then matches[rule] else 0
  }

  function AddMatch(l: Ledger, rule: Rule): Ledger {
    l.(matches := l.matches[rule := Count(l.matches, rule) + 1])
  }

  /** AddMatch reports an error exactly when it asks the daemon and the daemon refuses. */
  predicate AddMatchErrs(l: Ledger, rule: Rule, env: Env) {
    rule !in l.matches && rule in env.refuses
  }

  /** A refused addition is counted like any other; the caller does not keep the rule. */
  function AddRefused(l: Ledger, rule: Rule): Ledger {
    AddMatch(l, rule).(refused := l.refused + multiset{rule})
  }

  function RemoveMatch(l: Ledger, rule: Rule): Ledger {
    if rule !in l.matches then l
    else if l.matches[rule] - 1 == 0 then l.(matches := l.matches - {rule})
    else l.(matches := l.matches[rule := l.matches[rule] - 1])
  }

  /** RemoveMatch of every rule of a set, in any order. */
  function RemoveMatches(l: Ledger, rules: set<Rule>): Ledger {
    l.(matches := map r | r in l.matches && !(r in rules && l.matches[r] - 1 == 0)
                    :: if r in rules then l.matches[r] - 1 else l.matches[r])
  }

  function Connect(l: Ledger, env: Env): Ledger {
    if l.connected || env.connect.NotOpened? then l
    else if env.connect.HelloFailed? then l.(connected := true)
    else AddMatch(l.(connected := true, filters := l.filters + {DisconnectedFilter}), Disconnected)
  }

  predicate ConnectOk(l: Ledger, env: Env) { l.connected || env.connect.Opened? }

  // ----- names -----

  function RequestOwnership(l: Ledger, name: string, env: Env): Ledger {
    if !ConnectOk(l, env) || name in l.owned || !env.grants then Connect(l, env)
    else var c := Connect(l, env); c.(owned := c.owned + {name})
  }

  function ReleaseOwnership(l: Ledger, name: string, env: Env): Ledger {
    if name in l.owned && name !in env.keeps then l.(owned := l.owned - {name}) else l
  }

  // ----- owner-change listeners -----

  function Listen(l: Ledger, service: string, callback: nat, env: Env): Ledger {
    var c := Connect(l, env);
    if !ConnectOk(l, env) then c
    else
      var f := if c.listeners == map[] then c.(filters := c.filters + {OwnerChangedFilter}) else c;
      if service !in f.listeners then
        if AddMatchErrs(f, OwnerChanged(service), env) then AddRefused(f, OwnerChanged(service))
        else
          var m := AddMatch(f, OwnerChanged(service));
          m.(listeners := m.listeners[service := [callback]])
      else if callback in f.listeners[service] then f
      else f.(listeners := f.listeners[service := f.listeners[service] + [callback]])
  }

  function RemoveFirst(s: seq<nat>, x: nat): seq<nat> {
    if s == [] then [] else if s[0] == x then s[1..] else [s[0]] + RemoveFirst(s[1..], x)
  }

  function Unlisten(l: Ledger, service: string, callback: nat): Ledger {
    if service !in l.listeners then l
    else
      var rest := RemoveFirst(l.listeners[service], callback);
      if rest != [] then l.(listeners := l.listeners[service := rest])
      else
        var m := RemoveMatch(l, OwnerChanged(service));
        var e := m.(listeners := m.listeners - {service});
        if e.listeners == map[] then e.(filters := e.filters - {OwnerChangedFilter}) else e
  }

  // ----- exported objects -----

  /** ExportMethodAndBlock: the ledger, the object and the returned flag. */
  function Export(l: Ledger, o: Obj, name: string, callback: nat, env: Env): (Ledger, Obj, bool)
    requires o.key.ExportedKey?
  {
    if name in o.methods then (l, o, false)
    else
      var c := Connect(l, env);
      if !ConnectOk(l, env) then (c, o, false)
      else if o.registered then (c, o.(methods := o.methods[name := callback]), true)
      else if o.key.path in c.paths || !env.registers then (c, o, false)
      else (c.(paths := c.paths + {o.key.path}),
            o.(registered := true, methods := o.methods[name := callback]), true)
  }

  /** ExportedObject::Unregister, or ObjectProxy::Detach. */
  function Release(l: Ledger, id: nat, o: Obj): (Ledger, Obj) {
    if o.key.ExportedKey? then
      (if o.registered then l.(paths := l.paths - {o.key.path}) else l, o.(registered := false))
    else
      var f := if l.connected then l.(filters := l.filters - {ProxyFilter(id)}) else l;
      (RemoveMatches(f, o.rules), o.(rules := {}))
  }

  // ----- object proxies -----

  /** AddMatchRuleWith(out)Callback: the rule is stored only if the bus reports no error. */
  function AddProxyRule(l: Ledger, o: Obj, rule: Rule, env: Env): (Ledger, Obj) {
    if rule in o.rules then (l, o)
    else if AddMatchErrs(l, rule, env) then (AddRefused(l, rule), o)
    else (AddMatch(l, rule), o.(rules := o.rules + {rule}))
  }

  /** ConnectToNameOwnerChangedSignal: the ledger, the object and the returned flag. */
  function ConnectOwner(l: Ledger, id: nat, o: Obj, env: Env): (Ledger, Obj, bool)
    requires o.key.ProxyKey?
  {
    var c := Connect(l, env);
    if !ConnectOk(l, env) then (c, o, false)
    else
      var n := AddProxyRule(c.(filters := c.filters + {ProxyFilter(id)}), o, OwnerChanged(o.key.service), env);
      (n.0, n.1, OwnerChanged(o.key.service) in n.1.rules)
  }

  /** ConnectToSignalAndBlock. */
  function ConnectSignal(l: Ledger, id: nat, o: Obj, text: string, env: Env): (Ledger, Obj)
    requires o.key.ProxyKey?
  {
    var n := ConnectOwner(l, id, o, env);
    if n.2 then AddProxyRule(n.0, n.1, Signal(text), env) else (n.0, n.1)
  }

  // ----- the invariant of ledger and objects, on every run -----

  ghost predicate HoldsPath(o: Obj, path: string) { o.registered && o.key == ExportedKey(path) }

  /** registered_object_paths_ is exactly the set of paths of registered objects, one object a path. */
  ghost predicate PathsExact(paths: set<string>, objs: seq<Obj>) {
    && (forall i | 0 <= i < |objs| && objs[i].registered :: objs[i].key.ExportedKey? && objs[i].key.path in paths)
    && (forall p | p in paths :: exists i :: 0 <= i < |objs| && HoldsPath(objs[i], p))
    && (forall i, j | 0 <= i < j < |objs| && objs[i].registered && objs[j].registered :: objs[i].key != objs[j].key)
  }

  /** How many objects hold a rule. */
  function CountRule(objs: seq<Obj>, rule: Rule): nat {
    if objs == [] then 0
    else CountRule(objs[..|objs| - 1], rule) + Holds(objs[|objs| - 1], rule)
  }

  function Holds(o: Obj, rule: Rule): nat { if rule in o.rules then 1 else 0 }

  /** What the bus itself holds of a rule, and the additions the daemon refused. */
  function OwnHolds(l: Ledger, rule: Rule): nat {
    (if rule.Disconnected? && DisconnectedFilter in l.filters then 1 else 0)
    + (if rule.OwnerChanged? && rule.service in l.listeners then 1 else 0)
    + l.refused[rule]
  }

  /** Each stored count is the number of holders of the rule and is at least one. */
  ghost predicate CountsExact(l: Ledger, objs: seq<Obj>) {
    && (forall r | r in l.matches :: l.matches[r] >= 1)
    && (forall r :: Count(l.matches, r) == OwnHolds(l, r) + CountRule(objs, r))
  }

  ghost predicate NoDup(s: seq<nat>) {
    forall i, j | 0 <= i < j < |s| :: s[i] != s[j]
  }

  ghost predicate ListenersWf(l: Ledger) {
    && (forall s | s in l.listeners :: l.listeners[s] != [] && NoDup(l.listeners[s]))
    && (l.listeners != map[] ==> OwnerChangedFilter in l.filters)
    && (OwnerChangedFilter in l.filters && l.listeners == map[] ==> l.refused != multiset{})
    && (DisconnectedFilter in l.filters ==> l.connected)
    && Disconnected !in l.refused
  }

  ghost predicate ObjectsWf(filters: set<Filter>, objs: seq<Obj>) {
    && (forall i | 0 <= i < |objs| :: objs[i].key.ExportedKey? ==> objs[i].rules == {})
    && (forall i | 0 <= i < |objs| :: Disconnected !in objs[i].rules)
    && (forall f | f in filters && f.ProxyFilter? :: f.proxy < |objs| && objs[f.proxy].key.ProxyKey?)
  }

  ghost predicate CoreInv(l: Ledger, objs: seq<Obj>) {
    PathsExact(l.paths, objs) && CountsExact(l, objs) && ListenersWf(l) && ObjectsWf(l.filters, objs)
  }

  // ----- paths -----

  lemma PathsSame(paths: set<string>, objs: seq<Obj>, id: nat, o: Obj)
    requires PathsExact(paths, objs) && id < |objs|
    requires o.registered == objs[id].registered && o.key == objs[id].key
    ensures PathsExact(paths, objs[id := o])
  {
    var objs' := objs[id := o];
    forall p | p in paths ensures exists i :: 0 <= i < |objs'| && HoldsPath(objs'[i], p) {
      var i :| 0 <= i < |objs| && HoldsPath(objs[i], p);
      assert HoldsPath(objs'[i], p);
    }
  }

  lemma PathsRegister(paths: set<string>, objs: seq<Obj>, id: nat, o: Obj)
    requires PathsExact(paths, objs) && id < |objs|
    requires !objs[id].registered && o.registered && o.key.ExportedKey? && o.key.path !in paths
    ensures PathsExact(paths + {o.key.path}, objs[id := o])
  {
    var objs' := objs[id := o];
    forall p | p in paths + {o.key.path} ensures exists i :: 0 <= i < |objs'| && HoldsPath(objs'[i], p) {
      if p in paths {
        var i :| 0 <= i < |objs| && HoldsPath(objs[i], p);
        assert HoldsPath(objs'[i], p);
      } else {
        assert HoldsPath(objs'[id], p);
      }
    }
  }

  lemma PathsUnregister(paths: set<string>, objs: seq<Obj>, id: nat, o: Obj)
    requires PathsExact(paths, objs) && id < |objs|
    requires objs[id].registered && !o.registered
    ensures PathsExact(paths - {objs[id].key.path}, objs[id := o])
  {
    var objs' := objs[id := o];
    forall p | p in paths - {objs[id].key.path} ensures exists i :: 0 <= i < |objs'| && HoldsPath(objs'[i], p) {
      var i :| 0 <= i < |objs| && HoldsPath(objs[i], p);
      assert HoldsPath(objs'[i], p);
    }
  }

  lemma PathsAppend(paths: set<string>, objs: seq<Obj>, o: Obj)
    requires PathsExact(paths, objs) && !o.registered
    ensures PathsExact(paths, objs + [o])
  {
    var objs' := objs + [o];
    forall p | p in paths ensures exists i :: 0 <= i < |objs'| && HoldsPath(objs'[i], p) {
      var i :| 0 <= i < |objs| && HoldsPath(objs[i], p);
      assert HoldsPath(objs'[i], p);
    }
  }

  // ----- counts -----

  lemma {:induction false} CountRuleUpdate(objs: seq<Obj>, id: nat, o: Obj, rule: Rule)
    requires id < |objs|
    ensures CountRule(objs[id := o], rule) == CountRule(objs, rule) - Holds(objs[id], rule) + Holds(o, rule)
  {
    var n := |objs| - 1;
    if id == n {
      assert objs[id := o][..n] == objs[..n];
    } else {
      CountRuleUpdate(objs[..n], id, o, rule);
      assert objs[id := o][..n] == objs[..n][id := o];
    }
  }

  lemma CountRuleAppend(objs: seq<Obj>, o: Obj, rule: Rule)
    ensures CountRule(objs + [o], rule) == CountRule(objs, rule) + Holds(o, rule)
  {
    assert (objs + [o])[..|objs|] == objs;
  }

  lemma {:induction false} CountRuleZero(objs: seq<Obj>, rule: Rule)
    requires forall i | 0 <= i < |objs| :: rule !in objs[i].rules
    ensures CountRule(objs, rule) == 0
  {
    if objs != [] { CountRuleZero(objs[..|objs| - 1], rule); }
  }

  /** A change of the ledger and of one object keeps the counts exact if it changes the stored count of
      every rule by as much as its holders. */
  lemma CountsUpdate(l: Ledger, objs: seq<Obj>, l': Ledger, id: nat, o: Obj)
    requires id < |objs| && CountsExact(l, objs)
    requires forall r | r in l'.matches :: l'.matches[r] >= 1
    requires forall r :: Count(l'.matches, r) - Count(l.matches, r)
                      == OwnHolds(l', r) - OwnHolds(l, r) + Holds(o, r) - Holds(objs[id], r)
    ensures CountsExact(l', objs[id := o])
  {
    forall r ensures Count(l'.matches, r) == OwnHolds(l', r) + CountRule(objs[id := o], r) {
      CountRuleUpdate(objs, id, o, r);
      assert Count(l.matches, r) == OwnHolds(l, r) + CountRule(objs, r);
    }
  }

  lemma CountsSameObjects(l: Ledger, objs: seq<Obj>, l': Ledger)
    requires CountsExact(l, objs)
    requires forall r | r in l'.matches :: l'.matches[r] >= 1
    requires forall r :: Count(l'.matches, r) - Count(l.matches, r) == OwnHolds(l', r) - OwnHolds(l, r)
    ensures CountsExact(l', objs)
  {
    forall r ensures Count(l'.matches, r) == OwnHolds(l', r) + CountRule(objs, r) {
      assert Count(l.matches, r) == OwnHolds(l, r) + CountRule(objs, r);
    }
  }

  lemma HeldRuleIsCounted(l: Ledger, objs: seq<Obj>, id: nat, rule: Rule)
    requires CountsExact(l, objs) && id < |objs| && rule in objs[id].rules
    ensures rule in l.matches
  {
    CountRuleUpdate(objs, id, objs[id].(rules := {}), rule);
    assert Count(l.matches, rule) == OwnHolds(l, rule) + CountRule(objs, rule);
  }

  // ----- every operation keeps the invariant -----

  lemma ConnectKeeps(l: Ledger, objs: seq<Obj>, env: Env)
    requires CoreInv(l, objs)
    ensures CoreInv(Connect(l, env), objs)
  {
    CountsSameObjects(l, objs, Connect(l, env));
  }

  lemma {:induction false} RemoveFirstProps(s: seq<nat>, x: nat)
    requires NoDup(s)
    ensures NoDup(RemoveFirst(s, x))
    ensures forall y :: y in RemoveFirst(s, x) <==> y in s && y != x
  {
    if s != [] {
      var t := s[1..];
      assert NoDup(t);
      assert s == [s[0]] + t;
      RemoveFirstProps(t, x);
      if s[0] != x {
        assert s[0] !in RemoveFirst(t, x);
      }
    }
  }

  lemma AddRefusedKeeps(l: Ledger, objs: seq<Obj>, rule: Rule)
    requires CoreInv(l, objs) && !rule.Disconnected?
    ensures CoreInv(AddRefused(l, rule), objs)
  {
    var l' := AddRefused(l, rule);
    forall r ensures Count(l'.matches, r) - Count(l.matches, r) == OwnHolds(l', r) - OwnHolds(l, r) {
      assert l'.refused[r] == l.refused[r] + (if r == rule then 1 else 0);
    }
    CountsSameObjects(l, objs, l');
    assert rule in l'.refused;
  }

  lemma ListenKeeps(l: Ledger, objs: seq<Obj>, service: string, callback: nat, env: Env)
    requires CoreInv(l, objs)
    ensures CoreInv(Listen(l, service, callback, env), objs)
  {
    ConnectKeeps(l, objs, env);
    var c := Connect(l, env);
    if ConnectOk(l, env) {
      if service in c.listeners {
        if callback !in c.listeners[service] { NextListenerKeeps(c, objs, service, callback); }
      } else {
        var f := if c.listeners == map[] then c.(filters := c.filters + {OwnerChangedFilter}) else c;
        FirstListenerKeeps(c, f, objs, service, callback, env);
      }
    }
  }

  lemma NextListenerKeeps(c: Ledger, objs: seq<Obj>, service: string, callback: nat)
    requires CoreInv(c, objs) && service in c.listeners && callback !in c.listeners[service]
    ensures CoreInv(c.(listeners := c.listeners[service := c.listeners[service] + [callback]]), objs)
  {
    CountsSameObjects(c, objs, c.(listeners := c.listeners[service := c.listeners[service] + [callback]]));
  }

  lemma FirstListenerKeeps(c: Ledger, f: Ledger, objs: seq<Obj>, service: string, callback: nat, env: Env)
    requires CoreInv(c, objs) && service !in c.listeners
    requires f == if c.listeners == map[] then c.(filters := c.filters + {OwnerChangedFilter}) else c
    ensures CoreInv(AddRefused(f, OwnerChanged(service)), objs)
    ensures var m := AddMatch(f, OwnerChanged(service));
            CoreInv(m.(listeners := m.listeners[service := [callback]]), objs)
  {
    FirstListenerCounts(c, f, objs, service, callback);
    var r := AddRefused(c, OwnerChanged(service));
    AddRefusedKeeps(c, objs, OwnerChanged(service));
    CountsSameObjects(r, objs, AddRefused(f, OwnerChanged(service)));
  }

  lemma FirstListenerCounts(c: Ledger, f: Ledger, objs: seq<Obj>, service: string, callback: nat)
    requires CountsExact(c, objs) && ListenersWf(c) && service !in c.listeners
    requires f == if c.listeners == map[] then c.(filters := c.filters + {OwnerChangedFilter}) else c
    ensures var m := AddMatch(f, OwnerChanged(service));
            var a := m.(listeners := m.listeners[service := [callback]]);
            CountsExact(a, objs) && ListenersWf(a)
  {
    var m := AddMatch(f, OwnerChanged(service));
    var a := m.(listeners := m.listeners[service := [callback]]);
    CountsSameObjects(c, objs, a);
    assert a.listeners[service] == [callback] && a.listeners != map[];
  }

  lemma UnlistenCounts(l: Ledger, objs: seq<Obj>, service: string, callback: nat)
    requires CountsExact(l, objs)
    ensures CountsExact(Unlisten(l, service, callback), objs)
  {
    if service in l.listeners && RemoveFirst(l.listeners[service], callback) == [] {
      var rule := OwnerChanged(service);
      assert Count(l.matches, rule) == OwnHolds(l, rule) + CountRule(objs, rule);
    }
    CountsSameObjects(l, objs, Unlisten(l, service, callback));
  }

  lemma UnlistenListeners(l: Ledger, service: string, callback: nat)
    requires ListenersWf(l)
    ensures ListenersWf(Unlisten(l, service, callback))
  {
    if service in l.listeners {
      RemoveFirstProps(l.listeners[service], callback);
      if RemoveFirst(l.listeners[service], callback) == [] { LastListenerLeaves(l, service); }
    }
  }

  lemma LastListenerLeaves(l: Ledger, service: string)
    requires ListenersWf(l) && service in l.listeners
    ensures var m := RemoveMatch(l, OwnerChanged(service));
            var e := m.(listeners := m.listeners - {service});
            ListenersWf(if e.listeners == map[] then e.(filters := e.filters - {OwnerChangedFilter}) else e)
  {}

  lemma UnlistenKeeps(l: Ledger, objs: seq<Obj>, service: string, callback: nat)
    requires CoreInv(l, objs)
    ensures CoreInv(Unlisten(l, service, callback), objs)
  {
    UnlistenCounts(l, objs, service, callback);
    UnlistenListeners(l, service, callback);
  }

  lemma ExportKeeps(l: Ledger, objs: seq<Obj>, id: nat, name: string, callback: nat, env: Env)
    requires CoreInv(l, objs) && id < |objs| && objs[id].key.ExportedKey?
    ensures var (l', o, _) := Export(l, objs[id], name, callback, env); CoreInv(l', objs[id := o])
  {
    var o := Export(l, objs[id], name, callback, env).1;
    ConnectKeeps(l, objs, env);
    assert objs[id := objs[id]] == objs;
    if o != objs[id] { MethodAddedKeeps(Connect(l, env), objs, id, o); }
  }

  /** A method is added, and the object is registered if it was not. */
  lemma MethodAddedKeeps(c: Ledger, objs: seq<Obj>, id: nat, o: Obj)
    requires CoreInv(c, objs) && id < |objs| && o.key.ExportedKey?
    requires o == objs[id].(registered := true, methods := o.methods)
    requires objs[id].registered || o.key.path !in c.paths
    ensures CoreInv(if objs[id].registered then c else c.(paths := c.paths + {o.key.path}), objs[id := o])
  {
    if objs[id].registered {
      PathsSame(c.paths, objs, id, o);
      CountsUpdate(c, objs, c, id, o);
    } else {
      PathsRegister(c.paths, objs, id, o);
      CountsUpdate(c, objs, c.(paths := c.paths + {o.key.path}), id, o);
    }
  }

  lemma ReleaseKeeps(l: Ledger, objs: seq<Obj>, id: nat)
    requires CoreInv(l, objs) && id < |objs|
    ensures var (l', o) := Release(l, id, objs[id]); CoreInv(l', objs[id := o])
  {
    var (l', o) := Release(l, id, objs[id]);
    if o.registered == objs[id].registered {
      PathsSame(l.paths, objs, id, o);
    } else {
      PathsUnregister(l.paths, objs, id, o);
    }
    forall r | r in objs[id].rules ensures r in l.matches { HeldRuleIsCounted(l, objs, id, r); }
    CountsUpdate(l, objs, l', id, o);
  }

  lemma AddProxyRuleKeeps(l: Ledger, objs: seq<Obj>, id: nat, rule: Rule, env: Env)
    requires !rule.Disconnected? && CoreInv(l, objs) && id < |objs| && objs[id].key.ProxyKey?
    ensures var (l', o) := AddProxyRule(l, objs[id], rule, env); CoreInv(l', objs[id := o])
  {
    assert objs[id := objs[id]] == objs;
    AddRefusedKeeps(l, objs, rule);
    if rule !in objs[id].rules && !AddMatchErrs(l, rule, env) {
      var o := objs[id].(rules := objs[id].rules + {rule});
      CountsUpdate(l, objs, AddMatch(l, rule), id, o);
      PathsSame(l.paths, objs, id, o);
    }
  }

  lemma ConnectSignalKeeps(l: Ledger, objs: seq<Obj>, id: nat, text: string, env: Env)
    requires CoreInv(l, objs) && id < |objs| && objs[id].key.ProxyKey?
    ensures var (l', o) := ConnectSignal(l, id, objs[id], text, env); CoreInv(l', objs[id := o])
  {
    ConnectOwnerKeeps(l, objs, id, env);
    var n := ConnectOwner(l, id, objs[id], env);
    if n.2 {
      var objs1 := objs[id := n.1];
      AddProxyRuleKeeps(n.0, objs1, id, Signal(text), env);
      var m := AddProxyRule(n.0, n.1, Signal(text), env);
      assert objs1[id := m.1] == objs[id := m.1];
    }
  }

  lemma ConnectOwnerKeeps(l: Ledger, objs: seq<Obj>, id: nat, env: Env)
    requires CoreInv(l, objs) && id < |objs| && objs[id].key.ProxyKey?
    ensures var (l', o, _) := ConnectOwner(l, id, objs[id], env);
            CoreInv(l', objs[id := o]) && o.key == objs[id].key
  {
    ConnectKeeps(l, objs, env);
    var c := Connect(l, env);
    assert objs[id := objs[id]] == objs;
    if ConnectOk(l, env) {
      var f := c.(filters := c.filters + {ProxyFilter(id)});
      CountsSameObjects(c, objs, f);
      assert CoreInv(f, objs);
      AddProxyRuleKeeps(f, objs, id, OwnerChanged(objs[id].key.service), env);
    }
  }
}
