/** The promises of Bus and ExportedObject on disciplined runs. */
module BusGuarantees {
  import opened BusLedger
  import opened BusProtocol
  import opened BusGenerations

  lemma StartInv(hasThread: bool)
    ensures Inv(Start(hasThread))
  {
    StartCore(hasThread);
  }

  // ----- shutdown -----

  /** What the destructor of Bus demands. */
  predicate DestructorReady(l: Ledger) {
    !l.connected && l.owned == {} && l.matches == map[] && l.filters == {} && l.paths == {}
  }

  /** A bus without connection meets the demands exactly when no name, listener or refused rule is left and no object
      holds anything. */
  lemma ReadyIff(l: Ledger, objs: seq<Obj>)
    requires CoreInv(l, objs) && !l.connected
    ensures DestructorReady(l) <==>
              && l.owned == {} && l.listeners == map[] && l.refused == multiset{}
              && (forall a | 0 <= a < |objs| :: !Holding(l, objs, a))
  {
    forall a | 0 <= a < |objs| && Holding(l, objs, a) ensures !DestructorReady(l) { HoldingShows(l, objs, a); }
    if forall a | 0 <= a < |objs| :: !Holding(l, objs, a) { NothingHeld(l, objs); }
  }

  lemma HoldingShows(l: Ledger, objs: seq<Obj>, a: nat)
    requires CoreInv(l, objs) && a < |objs| && Holding(l, objs, a)
    ensures l.paths != {} || l.matches != map[] || l.filters != {}
  {
    if rule :| rule in objs[a].rules { HeldRuleIsCounted(l, objs, a, rule); }
  }

  lemma NothingHeld(l: Ledger, objs: seq<Obj>)
    requires CoreInv(l, objs) && !l.connected && forall a | 0 <= a < |objs| :: !Holding(l, objs, a)
    ensures l.paths == {}
    ensures l.matches == map[] <==> l.listeners == map[] && l.refused == multiset{}
    ensures l.listeners == map[] && l.refused == multiset{} ==> l.filters == {}
  {
    forall a | 0 <= a < |objs|
      ensures !objs[a].registered && objs[a].rules == {} && ProxyFilter(a) !in l.filters
    {
      assert !Holding(l, objs, a);
    }
    assert forall i, p | 0 <= i < |objs| :: !HoldsPath(objs[i], p);
    assert forall f: Filter | f.ProxyFilter? :: f == ProxyFilter(f.proxy);
    forall r ensures Count(l.matches, r) == OwnHolds(l, r) {
      CountRuleZero(objs, r);
      assert Count(l.matches, r) == OwnHolds(l, r) + CountRule(objs, r);
    }
    LeftoverRules(l);
  }

  lemma LeftoverRules(l: Ledger)
    requires DisconnectedFilter !in l.filters
    requires forall r | r in l.matches :: l.matches[r] >= 1
    requires forall r :: Count(l.matches, r) == OwnHolds(l, r)
    ensures l.matches == map[] <==> l.listeners == map[] && l.refused == multiset{}
  {
    if l.matches == map[] {
      forall s ensures s !in l.listeners { assert Count(l.matches, OwnerChanged(s)) == OwnHolds(l, OwnerChanged(s)); }
      forall r ensures r !in l.refused { assert Count(l.matches, r) == OwnHolds(l, r); }
    } else if l.listeners == map[] && l.refused == multiset{} {
      forall r ensures r !in l.matches { assert Count(l.matches, r) == OwnHolds(l, r); }
    }
  }

  /** The daemon releases every name, every listener was unlistened before, and no rule was ever refused. */
  ghost predicate NothingLeft(l: Ledger, env: Env) {
    (forall n | n in l.owned :: n !in env.keeps) && l.listeners == map[] && l.refused == multiset{}
  }

  lemma ShutdownReady(s: System, env: Env)
    requires CoreInv(s.led, s.objs) && (s.led.connected || s.led == EMPTY) && !s.done
    ensures DestructorReady(ShutdownNow(s, env).led) <==>
              && NothingLeft(s.led, env)
              && (forall a | 0 <= a < |s.objs| && Holding(s.led, s.objs, a) :: InTable(s, a))
  {
    var s' := ShutdownNow(s, env);
    ShutdownFrees(s, env);
    SameKeys(s.objs, s'.objs);
    EffectKeepsCore(s, Shutdown, env);
    ReadyIff(s'.led, s'.objs);
    EmptyIntersection(s.led.owned, env.keeps);
  }

  lemma EmptyIntersection(a: set<string>, b: set<string>)
    ensures a * b == {} <==> forall n | n in a :: n !in b
  {
    if n :| n in a && n in b { assert n in a * b; }
  }

  /** From the shutdown task on, in every disciplined run, the connection is null and no path is registered, and
      the bus may be destroyed exactly when no name, listener or refused rule was left. */
  lemma ShutdownReadiesDestructor(hasThread: bool, actions: seq<Action>)
    requires Legal(Start(hasThread), actions) && DisciplinedRun(Start(hasThread), actions)
    requires Run(Start(hasThread), actions).done
    ensures var l := Run(Start(hasThread), actions).led;
            && !l.connected && l.paths == {}
            && (DestructorReady(l) <==> l.owned == {} && l.listeners == map[] && l.refused == multiset{})
  {
    StartInv(hasThread);
    RunKeeps(Start(hasThread), actions);
    var s := Run(Start(hasThread), actions);
    assert forall a | 0 <= a < |s.objs| :: !Holding(s.led, s.objs, a);
    NothingHeld(s.led, s.objs);
  }

  /** Running the queued shutdown task: the bus is ready for its destructor exactly when the daemon releases
      every owned name, every listener was unlistened before, and the daemon never refused a rule. */
  lemma QueuedShutdown(hasThread: bool, actions: seq<Action>, env: Env)
    requires Legal(Start(hasThread), actions) && DisciplinedRun(Start(hasThread), actions)
    requires var s := Run(Start(hasThread), actions); DQ(s) != [] && DQ(s)[0] == Shutdown
    ensures var s := Run(Start(hasThread), actions);
            var s' := Step(s, RunDBus(env));
            && s'.done && s'.table == map[]
            && (DestructorReady(s'.led) <==> NothingLeft(s.led, env))
  {
    StartInv(hasThread);
    RunKeeps(Start(hasThread), actions);
    QueuedShutdownAt(Run(Start(hasThread), actions), env);
  }

  lemma QueuedShutdownAt(s: System, env: Env)
    requires Inv(s) && DQ(s) != [] && DQ(s)[0] == Shutdown
    ensures var s' := Step(s, RunDBus(env));
            s'.done && s'.table == map[] && (DestructorReady(s'.led) <==> NothingLeft(s.led, env))
  {
    RunShutdownHeld(s, env);
    UnlistedHoldNothing(s);
    ShutdownReady(Popped(s), env);
  }

  // ----- a shutdown called directly -----

  /** Only a shutdown takes the connection away. */
  ghost predicate Unbroken(s: System) { !s.done ==> s.led.connected || s.led == EMPTY }

  lemma EffectUnbroken(s: System, t: Task, env: Env)
    requires Unbroken(s)
    ensures Unbroken(Effect(s, t, env))
  {
    if !s.done {
      if Work(t) && !t.Shutdown? && Fits(s.objs, t) {
        CoreTaskEffect(s, t, env);
        CoreEffectFrame(s.led, s.objs, t, env);
      } else if !t.Shutdown? {
        IdleEffect(s, t, env);
      }
    }
  }

  lemma StepUnbroken(s: System, a: Action)
    requires Enabled(s, a) && Unbroken(s)
    ensures Unbroken(Step(s, a))
  {
    if a.RunOrigin? {
      EffectUnbroken(s.(oq := s.oq[1..]), s.oq[0], a.env);
    } else if a.RunDBus? {
      EffectUnbroken(Popped(s), DQ(s)[0], a.env);
    } else if a.ConnectNow? && !s.done {
      CoreEffectFrame(s.led, s.objs, Use(a.obj, SignalOp(a.text)), a.env);
    } else if Other(a) {
      OtherFrame(s, a);
    }
  }

  lemma {:induction false} RunUnbroken(s: System, actions: seq<Action>)
    requires Legal(s, actions) && Unbroken(s)
    ensures Unbroken(Run(s, actions))
    decreases |actions|
  {
    if actions != [] {
      StepUnbroken(s, actions[0]);
      RunUnbroken(Step(s, actions[0]), actions[1..]);
    }
  }

  /** ShutdownAndBlock called at any moment of any run, disciplined or not: the bus is ready for its destructor exactly
      when nothing else is left and every object that holds a path, a rule or a filter is still in the table. An
      object dropped while its Unregister or Detach is queued keeps what it holds. */
  lemma DirectShutdown(hasThread: bool, actions: seq<Action>, env: Env)
    requires Legal(Start(hasThread), actions)
    requires !Run(Start(hasThread), actions).done
    ensures var s := Run(Start(hasThread), actions);
            DestructorReady(Step(s, ShutdownDirectly(env)).led) <==>
              && NothingLeft(s.led, env)
              && (forall a | 0 <= a < |s.objs| && Holding(s.led, s.objs, a) :: InTable(s, a))
  {
    StartCore(hasThread);
    RunKeepsCore(Start(hasThread), actions);
    RunUnbroken(Start(hasThread), actions);
    ShutdownReady(Run(Start(hasThread), actions), env);
  }

  // ----- runs at which the conditions fail -----

  /** Get, use, drop: the object is out of the table and its release is queued. */
  function UseAndDrop(key: Key, op: UseOp, env: Env): seq<Action> {
    [GetObject(key)] + [Post(Use(0, op)), RunDBus(env)] + [DropObject(key)]
  }

  lemma UseAndDropRuns(key: Key, op: UseOp, env: Env)
    requires op.ExportOp? <==> key.ExportedKey?
    ensures var actions := UseAndDrop(key, op, env);
            && Legal(Start(true), actions) && DisciplinedRun(Start(true), actions)
            && var s := Run(Start(true), actions);
               var r := CoreEffect(EMPTY, [NewObj(key)], Use(0, op), env);
               s.led == r.0 && s.objs == r.1 && s.table == map[] && !s.done
  {
    var s0, t := Start(true), Use(0, op);
    var s1 := Step(s0, GetObject(key));
    assert s1.objs == [NewObj(key)];
    DisciplinedOne(s0, GetObject(key));
    PostAndRun(s1, t, env);
    var s2 := Run(s1, [Post(t), RunDBus(env)]);
    RunThen(s0, [GetObject(key)], [Post(t), RunDBus(env)]);
    DisciplinedThen(s0, [GetObject(key)], [Post(t), RunDBus(env)]);
    DisciplinedOne(s2, DropObject(key));
    RunThen(s0, [GetObject(key)] + [Post(t), RunDBus(env)], [DropObject(key)]);
    DisciplinedThen(s0, [GetObject(key)] + [Post(t), RunDBus(env)], [DropObject(key)]);
    assert map[key := 0] - {key} == map[];
  }

  /** The object dropped keeps what it holds over a direct shutdown. */
  lemma DroppedKeeps(key: Key, op: UseOp, env: Env)
    requires op.ExportOp? <==> key.ExportedKey?
    requires var r := CoreEffect(EMPTY, [NewObj(key)], Use(0, op), env); |r.1| == 1 && Holding(r.0, r.1, 0)
    ensures var actions := UseAndDrop(key, op, env);
            && Legal(Start(true), actions) && DisciplinedRun(Start(true), actions)
            && var s := ShutdownNow(Run(Start(true), actions), env);
               && !DestructorReady(s.led) && Sound((s.led, s.objs))
               && Keys(s.objs) == [key] && |s.objs| == 1 && Holding(s.led, s.objs, 0)
               && (ProxyFilter(0) in CoreEffect(EMPTY, [NewObj(key)], Use(0, op), env).0.filters ==>
                     ProxyFilter(0) in s.led.filters)
  {
    var actions := UseAndDrop(key, op, env);
    UseAndDropRuns(key, op, env);
    StartCore(true);
    RunKeepsCore(Start(true), actions);
    RunUnbroken(Start(true), actions);
    CoreEffectKeys(EMPTY, [NewObj(key)], Use(0, op), env);
    UnlistedKeeps(Run(Start(true), actions), 0, env);
  }

  lemma UnlistedKeeps(s: System, a: nat, env: Env)
    requires Sound((s.led, s.objs)) && (s.led.connected || s.led == EMPTY) && !s.done
    requires a < |s.objs| && !InTable(s, a) && Holding(s.led, s.objs, a)
    ensures var s' := ShutdownNow(s, env);
            && !DestructorReady(s'.led) && Sound((s'.led, s'.objs))
            && Keys(s'.objs) == Keys(s.objs) && |s'.objs| == |s.objs| && Holding(s'.led, s'.objs, a)
            && (ProxyFilter(a) in s.led.filters ==> ProxyFilter(a) in s'.led.filters)
  {
    ShutdownFrees(s, env);
    SameKeys(s.objs, ShutdownNow(s, env).objs);
    EffectKeepsCore(s, Shutdown, env);
    ShutdownReady(s, env);
    if ProxyFilter(a) in s.led.filters { ShutdownKeepsFilter(s, env, a); }
  }

  /** A path left registered by a direct shutdown. */
  lemma DroppedExportKeepsPath(path: string, name: string, callback: nat, env: Env)
    requires env.connect.Opened? && env.registers
    ensures var actions := UseAndDrop(ExportedKey(path), ExportOp(name, callback), env);
            && Legal(Start(true), actions) && DisciplinedRun(Start(true), actions)
            && var l := Step(Run(Start(true), actions), ShutdownDirectly(env)).led;
               path in l.paths && !DestructorReady(l)
  {
    var key, op := ExportedKey(path), ExportOp(name, callback);
    assert CoreEffect(EMPTY, [NewObj(key)], Use(0, op), env).1[0].registered;
    DroppedKeeps(key, op, env);
    var s := ShutdownNow(Run(Start(true), UseAndDrop(key, op, env)), env);
    SameKeys([NewObj(key)], s.objs);
    ExportedHolds(s.led, s.objs, 0);
  }

  /** All an exported object can hold is its path. */
  lemma ExportedHolds(l: Ledger, objs: seq<Obj>, a: nat)
    requires Sound((l, objs)) && a < |objs| && objs[a].key.ExportedKey? && Holding(l, objs, a)
    ensures objs[a].registered && objs[a].key.path in l.paths
  {}

  /** A filter left by a direct shutdown, though no exported object is outside the table. */
  lemma DroppedProxyKeepsFilter(service: string, path: string, options: int, text: string, env: Env)
    requires env.connect.Opened?
    ensures var actions := UseAndDrop(ProxyKey(service, path, options), SignalOp(text), env);
            && Legal(Start(true), actions) && DisciplinedRun(Start(true), actions)
            && var l := Step(Run(Start(true), actions), ShutdownDirectly(env)).led;
               ProxyFilter(0) in l.filters && !DestructorReady(l)
  {
    var key, op := ProxyKey(service, path, options), SignalOp(text);
    FirstSignal(key, text, env);
    DroppedKeeps(key, op, env);
  }

  lemma FirstSignal(key: Key, text: string, env: Env)
    requires key.ProxyKey? && env.connect.Opened?
    ensures var r := CoreEffect(EMPTY, [NewObj(key)], Use(0, SignalOp(text)), env);
            |r.1| == 1 && Holding(r.0, r.1, 0) && ProxyFilter(0) in r.0.filters
  {
    SignalLeavesFilter(EMPTY, 0, NewObj(key), text, env);
  }

  lemma SignalLeavesFilter(l: Ledger, id: nat, o: Obj, text: string, env: Env)
    requires o.key.ProxyKey? && ConnectOk(l, env)
    ensures ProxyFilter(id) in ConnectSignal(l, id, o, text, env).0.filters
  {
    var c := Connect(l, env);
    var f := c.(filters := c.filters + {ProxyFilter(id)});
    AddProxyRuleFrame(f, o, OwnerChanged(o.key.service), env);
    var n := AddProxyRule(f, o, OwnerChanged(o.key.service), env);
    AddProxyRuleFrame(n.0, n.1, Signal(text), env);
  }

  lemma {:induction false} ReleaseTableKeepsFilter(s: System, n: nat, id: nat)
    requires n <= |s.objs| && !InTable(s, id)
    ensures ProxyFilter(id) in ReleaseTable(s, n).0.filters <==> ProxyFilter(id) in s.led.filters
  {
    if n > 0 { ReleaseTableKeepsFilter(s, n - 1, id); }
  }

  lemma ShutdownKeepsFilter(s: System, env: Env, id: nat)
    requires !InTable(s, id) && ProxyFilter(id) in s.led.filters
    ensures ProxyFilter(id) in ShutdownNow(s, env).led.filters
  {
    ReleaseTableKeepsFilter(s, |s.objs|, id);
  }

  /** A listener left registered keeps a queued shutdown from readying the bus. */
  lemma ListenerOutlivesShutdown(service: string, callback: nat, env: Env)
    requires env.connect.Opened? && OwnerChanged(service) !in env.refuses
    ensures var actions := [Post(ListenTask(service, callback)), RunDBus(env)] + [Post(Shutdown)];
            && Legal(Start(true), actions) && DisciplinedRun(Start(true), actions)
            && DQ(Run(Start(true), actions)) == [Shutdown]
            && var l := Step(Run(Start(true), actions), RunDBus(env)).led;
               service in l.listeners && !DestructorReady(l)
  {
    var s0, t := Start(true), ListenTask(service, callback);
    PostAndRun(s0, t, env);
    var first := [Post(t), RunDBus(env)];
    var s1 := Run(s0, first);
    DisciplinedOne(s1, Post(Shutdown));
    RunThen(s0, first, [Post(Shutdown)]);
    DisciplinedThen(s0, first, [Post(Shutdown)]);
    assert service in Listen(EMPTY, service, callback, env).listeners;
    StartInv(true);
    RunKeeps(s0, first + [Post(Shutdown)]);
    ListenerStays(Step(s1, Post(Shutdown)), service, env);
  }

  lemma ListenerStays(s: System, service: string, env: Env)
    requires Inv(s) && DQ(s) != [] && DQ(s)[0] == Shutdown && service in s.led.listeners
    ensures var l := Step(s, RunDBus(env)).led; service in l.listeners && !DestructorReady(l)
  {
    QueuedShutdownAt(s, env);
    RunShutdownHeld(s, env);
    ShutdownFrees(Popped(s), env);
  }
}
