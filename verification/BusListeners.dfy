/** Owner-change listeners: the listener map is the list of registrations, in the order they ran. */
module BusListeners {
  import opened Wrappers
  import opened BusLedger
  import opened BusProtocol
  import G = BusGenerations

  type Registration = (string, nat)

  // ----- the simple form: one list of distinct (service, callback) pairs -----

  function Insert(r: seq<Registration>, x: Registration): seq<Registration> { if x in r then r else r + [x] }

  function Delete(r: seq<Registration>, x: Registration): seq<Registration> {
    if r == [] then [] else if r[0] == x then Delete(r[1..], x) else [r[0]] + Delete(r[1..], x)
  }

  function CallbacksOf(r: seq<Registration>, service: string): seq<nat> {
    if r == [] then []
    else (if r[0].0 == service then [r[0].1] else []) + CallbacksOf(r[1..], service)
  }

  function ListOf(l: Ledger, service: string): seq<nat> {
    if service in l.listeners then l.listeners[service] else []
  }

  ghost predicate Refines(l: Ledger, r: seq<Registration>) {
    forall service :: ListOf(l, service) == CallbacksOf(r, service)
  }

  // ----- lemmas about the simple form -----

  lemma {:induction false} CallbacksAppend(r: seq<Registration>, x: Registration, service: string)
    ensures CallbacksOf(r + [x], service) == CallbacksOf(r, service) + (if x.0 == service then [x.1] else [])
  {
    var last := if x.0 == service then [x.1] else [];
    if r == [] {
      assert (r + [x])[1..] == [];
    } else {
      assert (r + [x])[1..] == r[1..] + [x];
      CallbacksAppend(r[1..], x, service);
      Associative(if r[0].0 == service then [r[0].1] else [], CallbacksOf(r[1..], service), last);
    }
  }

  lemma {:induction false} CallbacksMember(r: seq<Registration>, x: Registration)
    ensures x in r <==> x.1 in CallbacksOf(r, x.0)
  {
    if r != [] {
      assert r == [r[0]] + r[1..];
      CallbacksMember(r[1..], x);
    }
  }

  /** The callbacks of a service stand in the order of its registrations. */
  lemma {:induction false} CallbacksInOrder(
    a: seq<Registration>, x: Registration, b: seq<Registration>, service: string)
    ensures CallbacksOf(a + [x] + b, service)
         == CallbacksOf(a, service) + (if x.0 == service then [x.1] else []) + CallbacksOf(b, service)
    decreases |b|
  {
    if b == [] {
      assert a + [x] + b == a + [x];
      CallbacksAppend(a, x, service);
    } else {
      var n := |b| - 1;
      CallbacksInOrder(a, x, b[..n], service);
      CallbacksAppend(a + [x] + b[..n], b[n], service);
      CallbacksAppend(b[..n], b[n], service);
      assert b == b[..n] + [b[n]];
      assert a + [x] + b == a + [x] + b[..n] + [b[n]];
    }
  }

  /** A new registration comes last, and a deletion leaves the others in their order. */
  lemma RegistrationOrder(a: seq<Registration>, x: Registration, b: seq<Registration>)
    requires x !in a && x !in b
    ensures Insert(a, x) == a + [x] && Insert(a + [x] + b, x) == a + [x] + b
    ensures Delete(a + [x] + b, x) == a + b && Delete(a, x) == a
  {
    DeleteAbsent(a, x);
    DeleteAbsent(b, x);
    DeleteConcat(a, [x] + b, x);
    assert a + [x] + b == a + ([x] + b);
    assert ([x] + b)[1..] == b;
  }

  lemma {:induction false} DeleteConcat(a: seq<Registration>, b: seq<Registration>, x: Registration)
    ensures Delete(a + b, x) == Delete(a, x) + Delete(b, x)
  {
    if a == [] {
      assert a + b == b;
    } else {
      assert (a + b)[1..] == a[1..] + b;
      DeleteConcat(a[1..], b, x);
    }
  }

  lemma {:induction false} DeleteAbsent(r: seq<Registration>, x: Registration)
    requires x !in r
    ensures Delete(r, x) == r
  {
    if r != [] { DeleteAbsent(r[1..], x); }
  }

  function Without(s: seq<nat>, x: nat): seq<nat> {
    if s == [] then [] else if s[0] == x then Without(s[1..], x) else [s[0]] + Without(s[1..], x)
  }

  lemma {:induction false} CallbacksDelete(r: seq<Registration>, x: Registration, service: string)
    ensures CallbacksOf(Delete(r, x), service)
         == if service == x.0 then Without(CallbacksOf(r, service), x.1) else CallbacksOf(r, service)
  {
    if r != [] {
      CallbacksDelete(r[1..], x, service);
      var tail := CallbacksOf(r[1..], service);
      if r[0].0 == service {
        assert CallbacksOf(r, service)[1..] == tail;
        if r[0] != x {
          assert ([r[0]] + Delete(r[1..], x))[1..] == Delete(r[1..], x);
        }
      } else {
        assert CallbacksOf(r, service) == tail;
        assert ([r[0]] + Delete(r[1..], x))[1..] == Delete(r[1..], x);
      }
    }
  }

  lemma {:induction false} WithoutAbsent(s: seq<nat>, x: nat)
    requires x !in s
    ensures Without(s, x) == s
  {
    if s != [] { WithoutAbsent(s[1..], x); }
  }

  /** With no duplicates, erasing the first equal callback erases them all. */
  lemma {:induction false} RemoveFirstIsWithout(s: seq<nat>, x: nat)
    requires NoDup(s)
    ensures RemoveFirst(s, x) == Without(s, x)
  {
    if s != [] {
      assert NoDup(s[1..]);
      if s[0] == x {
        assert x !in s[1..];
        WithoutAbsent(s[1..], x);
      } else {
        RemoveFirstIsWithout(s[1..], x);
      }
    }
  }

  // ----- listen and unlisten refine insert and delete -----

  predicate Accepted(l: Ledger, service: string, env: Env) {
    ConnectOk(l, env) && (service in l.listeners || !AddMatchErrs(Connect(l, env), OwnerChanged(service), env))
  }

  /** A listen is accepted if the bus connects and the service is listened to already, or its rule is counted already,
      or the daemon does not refuse it. */
  lemma AcceptedIff(l: Ledger, service: string, env: Env)
    ensures Accepted(l, service, env) <==>
              && (l.connected || env.connect == Opened)
              && (service in l.listeners || OwnerChanged(service) in l.matches || OwnerChanged(service) !in env.refuses)
  {}

  lemma ListenRefines(l: Ledger, r: seq<Registration>, service: string, callback: nat, env: Env)
    requires ListenersWf(l) && Refines(l, r) && Accepted(l, service, env)
    ensures Refines(Listen(l, service, callback, env), Insert(r, (service, callback)))
  {
    CallbacksMember(r, (service, callback));
    assert ListOf(l, service) == CallbacksOf(r, service);
    forall t ensures ListOf(Listen(l, service, callback, env), t) == CallbacksOf(Insert(r, (service, callback)), t) {
      CallbacksAppend(r, (service, callback), t);
      assert ListOf(l, t) == CallbacksOf(r, t);
      ListenList(l, service, callback, env, t);
    }
  }

  lemma ListenList(l: Ledger, service: string, callback: nat, env: Env, t: string)
    requires Accepted(l, service, env)
    ensures ListOf(Listen(l, service, callback, env), t)
         == if t == service && callback !in ListOf(l, t) then ListOf(l, t) + [callback] else ListOf(l, t)
  {
    assert Connect(l, env).listeners == l.listeners;
  }

  /** A listen that is not accepted registers nothing. */
  lemma ListenNotAccepted(l: Ledger, service: string, callback: nat, env: Env)
    requires ListenersWf(l) && !Accepted(l, service, env)
    ensures Listen(l, service, callback, env).listeners == l.listeners
  {}

  lemma UnlistenRefines(l: Ledger, r: seq<Registration>, service: string, callback: nat)
    requires ListenersWf(l) && Refines(l, r)
    ensures Refines(Unlisten(l, service, callback), Delete(r, (service, callback)))
  {
    var l' := Unlisten(l, service, callback);
    assert NoDup(ListOf(l, service));
    forall t ensures ListOf(l', t) == CallbacksOf(Delete(r, (service, callback)), t) {
      CallbacksDelete(r, (service, callback), t);
      assert ListOf(l, t) == CallbacksOf(r, t);
      UnlistenList(l, service, callback, t);
      if t == service { RemoveFirstIsWithout(ListOf(l, service), callback); }
    }
  }

  lemma UnlistenList(l: Ledger, service: string, callback: nat, t: string)
    ensures ListOf(Unlisten(l, service, callback), t)
         == if t == service then RemoveFirst(ListOf(l, t), callback) else ListOf(l, t)
  {}

  // ----- whole runs -----

  /** The part of the ledger that belongs to the listeners is left alone. */
  ghost predicate SameSide(l: Ledger, l': Ledger) {
    l'.listeners == l.listeners && (OwnerChangedFilter in l'.filters <==> OwnerChangedFilter in l.filters)
  }

  lemma ListenersFrame(l: Ledger, objs: seq<Obj>, t: Task, env: Env)
    requires Fits(objs, t) && !t.ListenTask? && !t.UnlistenTask?
    ensures SameSide(l, CoreEffect(l, objs, t, env).0)
  {
    if t.Use? && t.op.SignalOp? { SignalListeners(l, t.obj, objs[t.obj], t.op.text, env); }
  }

  lemma SignalListeners(l: Ledger, id: nat, o: Obj, text: string, env: Env)
    requires o.key.ProxyKey?
    ensures SameSide(l, ConnectSignal(l, id, o, text, env).0)
  {
    var c := Connect(l, env);
    ProxyRuleListeners(c.(filters := c.filters + {ProxyFilter(id)}), o, OwnerChanged(o.key.service), env);
    var n := ConnectOwner(l, id, o, env);
    ProxyRuleListeners(n.0, n.1, Signal(text), env);
  }

  lemma ProxyRuleListeners(l: Ledger, o: Obj, rule: Rule, env: Env)
    ensures SameSide(l, AddProxyRule(l, o, rule, env).0)
  {}

  lemma {:induction false} ReleaseTableListeners(s: System, n: nat)
    requires n <= |s.objs|
    ensures SameSide(s.led, ReleaseTable(s, n).0)
  {
    if n > 0 { ReleaseTableListeners(s, n - 1); }
  }

  /** The registrations after one more action: an accepted listen inserts its pair, an unlisten deletes it, and a
      listen that is not accepted registers nothing. */
  function NextRegistrations(s: System, r: seq<Registration>, a: Action): seq<Registration>
    requires Enabled(s, a)
  {
    if !a.RunDBus? then r
    else
      var t := DQ(s)[0];
      if t.ListenTask? && Accepted(s.led, t.service, a.env) then Insert(r, (t.service, t.callback))
      else if t.UnlistenTask? then Delete(r, (t.service, t.callback))
      else r
  }

  /** The registrations at the end of a run. */
  function Registrations(s: System, r: seq<Registration>, actions: seq<Action>): seq<Registration>
    requires Legal(s, actions)
    decreases |actions|
  {
    if actions == [] then r
    else Registrations(Step(s, actions[0]), NextRegistrations(s, r, actions[0]), actions[1..])
  }

  /** Whether the filter is left installed without a listener: a listen that found no listener, had a connection and was
      refused leaves it so, and any other listen that had a connection does not. */
  function NextStray(s: System, stray: bool, a: Action): bool
    requires Enabled(s, a)
  {
    if a.RunDBus? && DQ(s)[0].ListenTask? && ConnectOk(s.led, a.env)
    then s.led.listeners == map[] && !Accepted(s.led, DQ(s)[0].service, a.env)
    else stray
  }

  function Stray(s: System, stray: bool, actions: seq<Action>): bool
    requires Legal(s, actions)
    decreases |actions|
  {
    if actions == [] then stray else Stray(Step(s, actions[0]), NextStray(s, stray, actions[0]), actions[1..])
  }

  ghost predicate FilterInv(l: Ledger, stray: bool) {
    && (OwnerChangedFilter in l.filters <==> l.listeners != map[] || stray)
    && (stray ==> l.listeners == map[])
  }

  ghost predicate Inv(s: System, r: seq<Registration>, stray: bool) {
    CoreInv(s.led, s.objs) && G.Queues(s) && Refines(s.led, r) && FilterInv(s.led, stray)
  }

  lemma ListenFilter(l: Ledger, stray: bool, service: string, callback: nat, env: Env)
    requires FilterInv(l, stray)
    ensures FilterInv(Listen(l, service, callback, env),
              if ConnectOk(l, env) then l.listeners == map[] && !Accepted(l, service, env) else stray)
  {
    assert SameSide(l, Connect(l, env));
    if ConnectOk(l, env) && Accepted(l, service, env) { assert service in Listen(l, service, callback, env).listeners; }
  }

  lemma UnlistenFilter(l: Ledger, stray: bool, service: string, callback: nat)
    requires FilterInv(l, stray)
    ensures FilterInv(Unlisten(l, service, callback), stray)
  {
    var l' := Unlisten(l, service, callback);
    if service in l.listeners && service in l'.listeners { assert l'.listeners != map[]; }
  }

  lemma EffectFilter(s: System, stray: bool, env: Env)
    requires FilterInv(s.led, stray) && DQ(s) != []
    ensures FilterInv(Effect(Popped(s), DQ(s)[0], env).led, NextStray(s, stray, RunDBus(env)))
  {
    match DQ(s)[0]
    case ListenTask(service, callback) => ListenFilter(s.led, stray, service, callback, env);
    case UnlistenTask(service, callback) => UnlistenFilter(s.led, stray, service, callback);
    case t => EffectListeners(Popped(s), t, env);
  }

  lemma EffectListeners(s: System, t: Task, env: Env)
    requires !t.ListenTask? && !t.UnlistenTask?
    ensures SameSide(s.led, Effect(s, t, env).led)
  {
    if t.Shutdown? {
      ReleaseTableListeners(s, |s.objs|);
    } else if Fits(s.objs, t) {
      ListenersFrame(s.led, s.objs, t, env);
    }
  }

  lemma RunDBusKeeps(s: System, r: seq<Registration>, stray: bool, env: Env)
    requires Inv(s, r, stray) && DQ(s) != []
    ensures Inv(Step(s, RunDBus(env)), NextRegistrations(s, r, RunDBus(env)), NextStray(s, stray, RunDBus(env)))
  {
    StepKeepsCore(s, RunDBus(env));
    G.StepKeepsQueues(s, RunDBus(env));
    EffectRefines(s, r, env);
    EffectFilter(s, stray, env);
  }

  lemma EffectRefines(s: System, r: seq<Registration>, env: Env)
    requires ListenersWf(s.led) && Refines(s.led, r) && DQ(s) != []
    ensures Refines(Effect(Popped(s), DQ(s)[0], env).led, NextRegistrations(s, r, RunDBus(env)))
  {
    match DQ(s)[0]
    case ListenTask(service, callback) => ListenTaskRefines(s.led, r, service, callback, env);
    case UnlistenTask(service, callback) => UnlistenRefines(s.led, r, service, callback);
    case t =>
      EffectListeners(Popped(s), t, env);
      SameListeners(s.led, Effect(Popped(s), t, env).led, r);
  }

  lemma ListenTaskRefines(l: Ledger, r: seq<Registration>, service: string, callback: nat, env: Env)
    requires ListenersWf(l) && Refines(l, r)
    ensures Refines(Listen(l, service, callback, env),
                    if Accepted(l, service, env) then Insert(r, (service, callback)) else r)
  {
    if Accepted(l, service, env) {
      ListenRefines(l, r, service, callback, env);
    } else {
      ListenNotAccepted(l, service, callback, env);
      SameListeners(l, Listen(l, service, callback, env), r);
    }
  }

  lemma SameListeners(l: Ledger, l': Ledger, r: seq<Registration>)
    requires Refines(l, r) && l'.listeners == l.listeners
    ensures Refines(l', r)
  {
    forall t ensures ListOf(l', t) == CallbacksOf(r, t) { assert ListOf(l, t) == CallbacksOf(r, t); }
  }

  lemma OtherStepKeeps(s: System, r: seq<Registration>, stray: bool, a: Action)
    requires Inv(s, r, stray) && Enabled(s, a) && !a.RunDBus?
    ensures Inv(Step(s, a), r, stray)
  {
    StepKeepsCore(s, a);
    G.StepKeepsQueues(s, a);
    OtherListeners(s, a);
    SameListeners(s.led, Step(s, a).led, r);
  }

  lemma OtherListeners(s: System, a: Action)
    requires G.Queues(s) && Enabled(s, a) && !a.RunDBus?
    ensures SameSide(s.led, Step(s, a).led)
  {
    if a.RunOrigin? {
      G.RunOriginIdle(s, a.env);
    } else if a.ConnectNow? {
      SignalListeners(s.led, a.obj, s.objs[a.obj], a.text, a.env);
    } else if a.ShutdownDirectly? {
      EffectListeners(s, Shutdown, a.env);
    } else if G.Other(a) {
      G.OtherFrame(s, a);
    }
  }

  lemma {:induction false} RunKeeps(s: System, r: seq<Registration>, stray: bool, actions: seq<Action>)
    requires Inv(s, r, stray) && Legal(s, actions)
    ensures Inv(Run(s, actions), Registrations(s, r, actions), Stray(s, stray, actions))
    decreases |actions|
  {
    if actions != [] {
      var a := actions[0];
      if a.RunDBus? { RunDBusKeeps(s, r, stray, a.env); } else { OtherStepKeeps(s, r, stray, a); }
      RunKeeps(Step(s, a), NextRegistrations(s, r, a), NextStray(s, stray, a), actions[1..]);
    }
  }

  /** On every run, whatever the daemon accepts or refuses, an owner change posts one notice per registered callback of
      the service, in registration order, and for no other. */
  lemma OwnerChangeNotifiesRegistered(hasThread: bool, actions: seq<Action>, service: string, owner: string)
    requires Legal(Start(hasThread), actions)
    ensures var s := Run(Start(hasThread), actions);
            var callbacks := CallbacksOf(Registrations(Start(hasThread), [], actions), service);
            Notifies(s.oq, Step(s, OwnerChange(service, owner)).oq, callbacks, owner)
  {
    ReachedListeners(hasThread, actions);
    NoticesPosted(Run(Start(hasThread), actions), Registrations(Start(hasThread), [], actions), service, owner);
  }

  lemma ReachedListeners(hasThread: bool, actions: seq<Action>)
    requires Legal(Start(hasThread), actions)
    ensures Inv(Run(Start(hasThread), actions), Registrations(Start(hasThread), [], actions),
                Stray(Start(hasThread), false, actions))
  {
    StartCore(hasThread);
    RunKeeps(Start(hasThread), [], false, actions);
  }

  lemma NoticesPosted(s: System, r: seq<Registration>, service: string, owner: string)
    requires Refines(s.led, r)
    ensures Notifies(s.oq, Step(s, OwnerChange(service, owner)).oq, CallbacksOf(r, service), owner)
  {
    assert ListOf(s.led, service) == CallbacksOf(r, service);
  }

  /** On every run: callback lists are non-empty and duplicate-free, the filter is installed exactly when the map is
      non-empty or a refused first listen left it stray, and each service's rule is counted once for its listeners, once
      for each proxy that holds it and once for each refused addition. So the filter follows the map exactly unless the
      last listen that had a connection found the map empty and was refused. */
  lemma ListenerLedgers(hasThread: bool, actions: seq<Action>, service: string)
    requires Legal(Start(hasThread), actions)
    ensures var s, stray := Run(Start(hasThread), actions), Stray(Start(hasThread), false, actions);
            && (service in s.led.listeners ==> s.led.listeners[service] != [] && NoDup(s.led.listeners[service]))
            && (OwnerChangedFilter in s.led.filters <==> s.led.listeners != map[] || stray)
            && ((OwnerChangedFilter in s.led.filters <==> s.led.listeners != map[]) <==> !stray)
            && (s.led.refused == multiset{} ==> !stray)
            && Count(s.led.matches, OwnerChanged(service))
               == (if service in s.led.listeners then 1 else 0) + CountRule(s.objs, OwnerChanged(service))
                  + s.led.refused[OwnerChanged(service)]
  {
    ReachedListeners(hasThread, actions);
    MatchCountsExact(hasThread, actions, OwnerChanged(service));
  }

  /** A refused listen leaks: the rule is counted and the filter installed, but nothing is registered, and
      listening again and unlistening leaves the rule behind. */
  lemma RefusedListenLeaks(service: string, callback: nat, refusing: Env, accepting: Env)
    requires refusing.connect.Opened? && OwnerChanged(service) in refusing.refuses
    ensures var rule, listen := OwnerChanged(service), ListenTask(service, callback);
            var first := [Post(listen), RunDBus(refusing)];
            var second := [Post(listen), RunDBus(accepting)];
            var third := [Post(UnlistenTask(service, callback)), RunDBus(accepting)];
            && Legal(Start(true), first) && Legal(Start(true), first + second + third)
            && var l := Run(Start(true), first).led;
               && l.listeners == map[] && OwnerChangedFilter in l.filters && Count(l.matches, rule) == 1
               && var m := Run(Start(true), first + second + third).led;
                  m.listeners == map[] && m.filters == {DisconnectedFilter} && Count(m.matches, rule) == 1
  {
    var s0, listen, unlisten := Start(true), ListenTask(service, callback), UnlistenTask(service, callback);
    G.PostAndRun(s0, listen, refusing);
    var first, s1 := [Post(listen), RunDBus(refusing)], Run(s0, [Post(listen), RunDBus(refusing)]);
    G.PostAndRun(s1, listen, accepting);
    var second, s2 := [Post(listen), RunDBus(accepting)], Run(s1, [Post(listen), RunDBus(accepting)]);
    G.PostAndRun(s2, unlisten, accepting);
    var third := [Post(unlisten), RunDBus(accepting)];
    RunThen(s0, first, second);
    RunThen(s0, first + second, third);
    ListenRefused(service, callback, refusing, accepting);
  }

  lemma ListenRefused(service: string, callback: nat, refusing: Env, accepting: Env)
    requires refusing.connect.Opened? && OwnerChanged(service) in refusing.refuses
    ensures var l := Listen(EMPTY, service, callback, refusing);
            && l.listeners == map[] && OwnerChangedFilter in l.filters
            && Count(l.matches, OwnerChanged(service)) == 1
            && var m := Unlisten(Listen(l, service, callback, accepting), service, callback);
               m.listeners == map[] && m.filters == {DisconnectedFilter} && Count(m.matches, OwnerChanged(service)) == 1
  {
    var l := Listen(EMPTY, service, callback, refusing);
    assert l.listeners == map[] && l.connected;
    var k := Listen(l, service, callback, accepting);
    assert k.listeners[service] == [callback] && [callback][1..] == [];
    assert k.listeners - {service} == map[];
  }

  /** A listener and a proxy of one service: their common rule is counted twice. */
  lemma ListenerAndProxyShareRule(service: string, path: string, callback: nat, text: string, env: Env)
    requires env.connect.Opened? && OwnerChanged(service) !in env.refuses
    ensures var first := [Post(ListenTask(service, callback)), RunDBus(env)];
            var second := [GetObject(ProxyKey(service, path, 0))];
            var third := [Post(Use(0, SignalOp(text))), RunDBus(env)];
            && Legal(Start(true), first + second + third)
            && Count(Run(Start(true), first + second + third).led.matches, OwnerChanged(service)) == 2
  {
    var s0, key := Start(true), ProxyKey(service, path, 0);
    var listen, use := ListenTask(service, callback), Use(0, SignalOp(text));
    var first, second, third := [Post(listen), RunDBus(env)], [GetObject(key)], [Post(use), RunDBus(env)];
    G.PostAndRun(s0, listen, env);
    var s1 := Run(s0, first);
    RunOne(s1, GetObject(key));
    var s2 := Run(s1, second);
    assert s2.objs == [NewObj(key)];
    G.PostAndRun(s2, use, env);
    RunThen(s0, first, second);
    RunThen(s0, first + second, third);
    SharedRule(service, path, callback, text, env);
  }

  lemma SharedRule(service: string, path: string, callback: nat, text: string, env: Env)
    requires env.connect.Opened? && OwnerChanged(service) !in env.refuses
    ensures var l := Listen(EMPTY, service, callback, env);
            var r := ConnectSignal(l, 0, NewObj(ProxyKey(service, path, 0)), text, env);
            Count(r.0.matches, OwnerChanged(service)) == 2
  {
    var l, o := Listen(EMPTY, service, callback, env), NewObj(ProxyKey(service, path, 0));
    assert l.connected && Count(l.matches, OwnerChanged(service)) == 1;
    var n := ConnectOwner(l, 0, o, env);
    assert Count(n.0.matches, OwnerChanged(service)) == 2;
  }
}
