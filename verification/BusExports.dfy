/** Replacement objects: the comment in Bus::UnregisterExportedObject promises that an exported object dropped from the
    table is unregistered before any later registration of its path. It holds on every run in which clients export on an
    object only while it is in the table and no shutdown was made or queued; proxies, listeners and names may be used in
    any way, and a shutdown may come at any time. */
module BusExports {
  import opened Wrappers
  import opened BusLedger
  import opened BusProtocol
  import opened BusGenerations
  import R = BusResults

  predicate Exports(t: Task) { t.Use? && t.op.ExportOp? }

  /** The discipline asked of clients that export methods. */
  ghost predicate Orderly(s: System, a: Action) {
    a.Post? && Exports(a.task) ==> InTable(s, a.task.obj) && !s.done && Shutdown !in Posted(s)
  }

  ghost predicate OrderlyRun(s: System, actions: seq<Action>)
    requires Legal(s, actions)
    decreases |actions|
  {
    actions == [] || (Orderly(s, actions[0]) && OrderlyRun(Step(s, actions[0]), actions[1..]))
  }

  /** On the tasks ever posted: no export follows the drop of its object, neither export nor drop of an older generation
      follows an export, and each older generation has its drop posted. */
  ghost predicate Generations(keys: seq<Key>, p: seq<Task>)
    requires InRange(keys, p)
  {
    && (forall i, j | 0 <= i < j < |p| && p[i].Drop? && Exports(p[j]) :: p[i].obj != p[j].obj)
    && (forall i, j | 0 <= i < j < |p| && Exports(p[i]) && (Exports(p[j]) || p[j].Drop?)
          && keys[p[i].obj] == keys[p[j].obj] :: p[i].obj <= p[j].obj)
    && (forall j, a | 0 <= j < |p| && Exports(p[j]) && 0 <= a < p[j].obj && keys[a] == keys[p[j].obj]
          :: Drop(a) in p)
  }

  ghost predicate Exported(ran: seq<Task>, a: nat) { exists i :: 0 <= i < |ran| && Exports(ran[i]) && ran[i].obj == a }

  /** Only an object with an export run and no drop run is registered. */
  ghost predicate Registered(objs: seq<Obj>, ran: seq<Task>) {
    forall a | 0 <= a < |objs| && objs[a].registered ::
      objs[a].key.ExportedKey? && Exported(ran, a) && Drop(a) !in ran
  }

  ghost predicate ExportInv(s: System) {
    Tables(s) && Generations(Keys(s.objs), Posted(s)) && Registered(s.objs, s.ran)
  }

  // ----- the queue -----

  lemma GrowsGenerations(keys: seq<Key>, p: seq<Task>, p': seq<Task>)
    requires InRange(keys, p) && Generations(keys, p) && Grows(p, p')
    ensures InRange(keys, p') && Generations(keys, p')
  {
    forall j | 0 <= j < |p'| && (Exports(p'[j]) || p'[j].Drop?) ensures j < |p| && p'[j] == p[j] { }
    forall a: nat ensures Drop(a) in p' <==> Drop(a) in p { GrowsSame(p, p', Drop(a)); }
  }

  lemma NewKeyGenerations(keys: seq<Key>, p: seq<Task>, key: Key)
    requires InRange(keys, p) && Generations(keys, p)
    ensures InRange(keys + [key], p) && Generations(keys + [key], p)
  {
    forall i | 0 <= i < |p| && Touches(p[i]) ensures (keys + [key])[p[i].obj] == keys[p[i].obj] { }
  }

  lemma PostGenerations(keys: seq<Key>, table: map<Key, nat>, p: seq<Task>, t: Task, done: bool)
    requires InRange(keys, p) && Generations(keys, p) && Tabled(keys, table, p, done)
    requires t.Drop? ==> Listed(keys, table, t.obj)
    requires Exports(t) ==> Listed(keys, table, t.obj) && !done
    requires t.Use? ==> t.obj < |keys|
    ensures InRange(keys, p + [t]) && Generations(keys, p + [t])
  {
    if t.Drop? || Exports(t) { ListedIsNewest(keys, table, p, t.obj, done); }
    OneMore(keys, p, t);
  }

  lemma OneMore(keys: seq<Key>, p: seq<Task>, t: Task)
    requires InRange(keys, p) && Generations(keys, p) && (Touches(t) ==> t.obj < |keys|)
    requires t.Drop? || Exports(t) ==>
               forall i | 0 <= i < |p| && Touches(p[i]) && keys[p[i].obj] == keys[t.obj] ::
                 p[i].obj <= t.obj && p[i] != Drop(t.obj)
    requires Exports(t) ==> forall a | 0 <= a < t.obj && keys[a] == keys[t.obj] :: Drop(a) in p
    ensures InRange(keys, p + [t]) && Generations(keys, p + [t])
  {
    forall a: nat | Drop(a) in p ensures Drop(a) in p + [t] { }
  }

  /** Nothing of a newer generation was posted, nothing of this one was dropped, and all older ones were. */
  lemma ListedIsNewest(keys: seq<Key>, table: map<Key, nat>, p: seq<Task>, b: nat, done: bool)
    requires InRange(keys, p) && Tabled(keys, table, p, done) && Listed(keys, table, b)
    ensures forall i | 0 <= i < |p| && Touches(p[i]) && keys[p[i].obj] == keys[b] :: p[i].obj <= b && p[i] != Drop(b)
    ensures !done ==> forall a | 0 <= a < b && keys[a] == keys[b] :: Drop(a) in p
  {}

  // ----- the registered objects -----

  /** Only the object `id`, if any, may become registered. */
  ghost predicate AtMostRegisters(objs: seq<Obj>, objs': seq<Obj>, id: Option<nat>) {
    && Keys(objs') == Keys(objs) && |objs'| == |objs|
    && (forall a | 0 <= a < |objs| && objs'[a].registered :: objs[a].registered || id == Some(a))
  }

  /** A task registers at most the object it exports on. */
  lemma CoreEffectRegisters(l: Ledger, objs: seq<Obj>, t: Task, env: Env)
    requires Fits(objs, t)
    ensures AtMostRegisters(objs, CoreEffect(l, objs, t, env).1, if Exports(t) then Some(t.obj) else None)
  {
    CoreEffectKeys(l, objs, t, env);
    if t.Use? && t.op.SignalOp? { SignalRegisters(l, t.obj, objs[t.obj], t.op.text, env); }
  }

  lemma SignalRegisters(l: Ledger, id: nat, o: Obj, text: string, env: Env)
    requires o.key.ProxyKey?
    ensures ConnectSignal(l, id, o, text, env).1.registered == o.registered
  {}

  lemma {:induction false} ReleaseTableRegisters(s: System, n: nat)
    requires n <= |s.objs|
    ensures AtMostRegisters(s.objs, ReleaseTable(s, n).1, None)
  {
    ReleaseTableKeys(s, n);
    if n > 0 { ReleaseTableRegisters(s, n - 1); }
  }

  lemma ExportedMore(ran: seq<Task>, t: Task, a: nat)
    requires Exported(ran, a) || (Exports(t) && t.obj == a)
    ensures Exported(ran + [t], a)
  {
    assert (ran + [t])[|ran|] == t;
    if Exported(ran, a) {
      var i :| 0 <= i < |ran| && Exports(ran[i]) && ran[i].obj == a;
      assert (ran + [t])[i] == ran[i];
    }
  }

  /** One task more was run. */
  lemma RegisteredMore(objs: seq<Obj>, ran: seq<Task>, objs': seq<Obj>, t: Task, id: Option<nat>)
    requires Registered(objs, ran) && AtMostRegisters(objs, objs', id)
    requires id.Some? && id.value < |objs| ==>
               Exports(t) && t.obj == id.value && objs[t.obj].key.ExportedKey? && Drop(t.obj) !in ran
    requires t.Drop? && t.obj < |objs| ==> !objs'[t.obj].registered
    ensures Registered(objs', ran + [t])
  {
    SameKeys(objs, objs');
    forall a | 0 <= a < |objs'| && objs'[a].registered
      ensures objs'[a].key.ExportedKey? && Exported(ran + [t], a) && Drop(a) !in ran + [t]
    {
      ExportedMore(ran, t, a);
    }
  }

  lemma RegisteredSame(objs: seq<Obj>, ran: seq<Task>, objs': seq<Obj>)
    requires Registered(objs, ran) && AtMostRegisters(objs, objs', None)
    ensures Registered(objs', ran)
  {
    SameKeys(objs, objs');
  }

  // ----- every action keeps the invariant -----

  /** An export at the head of the queue follows no drop of its object. */
  lemma HeadNotDropped(keys: seq<Key>, p: seq<Task>, n: nat)
    requires InRange(keys, p) && Generations(keys, p) && n < |p| && Exports(p[n])
    ensures Drop(p[n].obj) !in p[..n]
  {
    assert forall i | 0 <= i < n :: p[..n][i] == p[i];
  }

  lemma HeadFits(s: System)
    requires ExportInv(s) && DQ(s) != []
    ensures DQ(s)[0].Drop? ==> Fits(s.objs, DQ(s)[0])
    ensures Exports(DQ(s)[0]) ==> Drop(DQ(s)[0].obj) !in s.ran
  {
    PoppedPosted(s);
    if Exports(DQ(s)[0]) { HeadNotDropped(Keys(s.objs), Posted(s), |s.ran|); }
  }

  /** Running one task that is not a shutdown. */
  lemma TaskRegisters(s: System, ran: seq<Task>, t: Task, env: Env)
    requires Registered(s.objs, ran) && !t.Shutdown?
    requires (t.Drop? ==> Fits(s.objs, t)) && (Exports(t) ==> Drop(t.obj) !in ran)
    ensures Registered(Effect(s, t, env).objs, ran + [t])
  {
    if Work(t) && Fits(s.objs, t) {
      CoreTaskEffect(s, t, env);
      CoreEffectRegisters(s.led, s.objs, t, env);
      var objs := CoreEffect(s.led, s.objs, t, env).1;
      if t.Drop? { DroppedNotRegistered(s.led, s.objs, ran, t.obj); }
      RegisteredMore(s.objs, ran, objs, t, if Exports(t) then Some(t.obj) else None);
    } else {
      IdleEffect(s, t, env);
      RegisteredMore(s.objs, ran, s.objs, t, None);
    }
  }

  lemma DroppedNotRegistered(l: Ledger, objs: seq<Obj>, ran: seq<Task>, id: nat)
    requires Registered(objs, ran) && id < |objs|
    ensures !Release(l, id, objs[id]).1.registered
  {}

  lemma RunDBusRegisters(s: System, env: Env)
    requires ExportInv(s) && DQ(s) != []
    ensures Registered(Step(s, RunDBus(env)).objs, Step(s, RunDBus(env)).ran)
  {
    var t, s1 := DQ(s)[0], Popped(s);
    PoppedQueues(s);
    EffectPosts(s1, t, env);
    if t.Shutdown? {
      ReleaseTableRegisters(s1, |s1.objs|);
      RegisteredMore(s.objs, s.ran, ShutdownNow(s1, env).objs, t, None);
    } else {
      HeadFits(s);
      TaskRegisters(s1, s.ran, t, env);
    }
  }

  lemma StepRegisters(s: System, a: Action)
    requires ExportInv(s) && Enabled(s, a)
    ensures Registered(Step(s, a).objs, Step(s, a).ran)
  {
    if a.RunDBus? {
      RunDBusRegisters(s, a.env);
    } else if a.RunOrigin? {
      RunOriginIdle(s, a.env);
    } else if a.ConnectNow? {
      var t := Use(a.obj, SignalOp(a.text));
      CoreEffectRegisters(s.led, s.objs, t, a.env);
      RegisteredSame(s.objs, s.ran, CoreEffect(s.led, s.objs, t, a.env).1);
    } else if a.ShutdownDirectly? {
      ReleaseTableRegisters(s, |s.objs|);
      RegisteredSame(s.objs, s.ran, ShutdownNow(s, a.env).objs);
    } else if Other(a) {
      OtherFrame(s, a);
    }
  }

  lemma StepGenerations(s: System, a: Action)
    requires ExportInv(s) && Enabled(s, a) && Orderly(s, a)
    ensures InRange(Keys(Step(s, a).objs), Posted(Step(s, a)))
    ensures Generations(Keys(Step(s, a).objs), Posted(Step(s, a)))
  {
    var keys, p := Keys(s.objs), Posted(s);
    if a.GetObject? {
      if a.key !in s.table {
        GetObjectStep(s, a.key);
        NewKeyGenerations(keys, p, a.key);
      }
    } else if a.DropObject? {
      if a.key in s.table {
        PostGenerations(keys, s.table, p, Drop(s.table[a.key]), s.done);
        PostedMore(s.(table := s.table - {a.key}), Drop(s.table[a.key]));
      }
    } else if a.Post? {
      PostGenerations(keys, s.table, p, a.task, s.done);
      PostedMore(s, a.task);
    } else if Shuts(s, a) {
      ShutStep(s, a);
    } else {
      QuietStep(s, a);
      GrowsGenerations(keys, p, Posted(Step(s, a)));
    }
  }

  lemma StepKeepsExports(s: System, a: Action)
    requires ExportInv(s) && Enabled(s, a) && Orderly(s, a)
    ensures ExportInv(Step(s, a))
  {
    StepKeepsTables(s, a);
    StepGenerations(s, a);
    StepRegisters(s, a);
  }

  lemma {:induction false} RunKeepsExports(s: System, actions: seq<Action>)
    requires ExportInv(s) && Legal(s, actions) && OrderlyRun(s, actions)
    ensures ExportInv(Run(s, actions))
    decreases |actions|
  {
    if actions != [] {
      StepKeepsExports(s, actions[0]);
      RunKeepsExports(Step(s, actions[0]), actions[1..]);
    }
  }

  // ----- what holds when an export runs -----

  ghost predicate ExportAtHead(s: System) { DQ(s) != [] && Exports(DQ(s)[0]) && DQ(s)[0].obj < |s.objs| }

  /** When an export on object b runs, every older object of its path has run its Unregister, no other object
      holds the path, and so the path is taken only if b itself registered it. Any number of generations. */
  lemma ExportRunsAfterUnregister(hasThread: bool, actions: seq<Action>, a: nat)
    requires Legal(Start(hasThread), actions) && OrderlyRun(Start(hasThread), actions)
    requires var s := Run(Start(hasThread), actions);
             ExportAtHead(s) && a < |s.objs| && a != DQ(s)[0].obj && s.objs[a].key == s.objs[DQ(s)[0].obj].key
    ensures var s := Run(Start(hasThread), actions);
            && !s.objs[a].registered
            && (a < DQ(s)[0].obj ==> Drop(a) in s.ran && Drop(a) !in DQ(s))
  {
    ReachedExports(hasThread, actions);
    OthersNotRegistered(Run(Start(hasThread), actions), a);
  }

  lemma OthersNotRegistered(s: System, a: nat)
    requires ExportInv(s) && ExportAtHead(s)
    requires a < |s.objs| && a != DQ(s)[0].obj && s.objs[a].key == s.objs[DQ(s)[0].obj].key
    ensures !s.objs[a].registered
    ensures a < DQ(s)[0].obj ==> Drop(a) in s.ran && Drop(a) !in DQ(s)
  {
    var b := DQ(s)[0].obj;
    if a < b {
      OlderIsDropped(Keys(s.objs), s.ran, DQ(s), a, b);
    } else {
      NewerNotExported(Keys(s.objs), s.ran, DQ(s), a, b);
    }
  }

  lemma OlderIsDropped(keys: seq<Key>, ran: seq<Task>, q: seq<Task>, a: nat, b: nat)
    requires InRange(keys, ran + q) && Generations(keys, ran + q)
    requires q != [] && Exports(q[0]) && q[0].obj == b && a < b < |keys| && keys[a] == keys[b]
    ensures Drop(a) in ran && Drop(a) !in q
  {
    var p := ran + q;
    assert p[|ran|] == q[0];
    assert forall j | 0 <= j < |q| :: p[|ran| + j] == q[j];
    assert Drop(a) in p;
  }

  lemma NewerNotExported(keys: seq<Key>, ran: seq<Task>, q: seq<Task>, a: nat, b: nat)
    requires InRange(keys, ran + q) && Generations(keys, ran + q)
    requires q != [] && Exports(q[0]) && q[0].obj == b && b < a < |keys| && keys[a] == keys[b]
    ensures !Exported(ran, a)
  {
    assert (ran + q)[|ran|] == q[0];
    assert forall i | 0 <= i < |ran| :: (ran + q)[i] == ran[i];
  }

  /** An export never fails because another object holds the path: its client is told of success, and the object is
      registered with the method, exactly if the method is new, the bus connects, and the object is registered or
      libdbus registers it. */
  lemma ExportSucceeds(hasThread: bool, actions: seq<Action>, env: Env)
    requires Legal(Start(hasThread), actions) && OrderlyRun(Start(hasThread), actions)
    requires var s := Run(Start(hasThread), actions); ExportAtHead(s) && Fits(s.objs, DQ(s)[0])
    ensures var s := Run(Start(hasThread), actions);
            var t, o, s' := DQ(s)[0], s.objs[DQ(s)[0].obj], Step(s, RunDBus(env));
            var ok := && t.op.name !in o.methods && (s.led.connected || env.connect == Opened)
                      && (o.registered || env.registers);
            && s'.oq == (if s.hasThread then s.oq else s.oq[1..]) + [ResultNotice(ok)]
            && s'.objs == (if ok then s.objs[t.obj := o.(registered := true,
                                                         methods := o.methods[t.op.name := t.op.callback])]
                           else s.objs)
  {
    ReachedExports(hasThread, actions);
    var s := Run(Start(hasThread), actions);
    PathFreeForHead(s);
    R.ExportTold(s, DQ(s)[0].obj, DQ(s)[0].op.name, DQ(s)[0].op.callback, env);
  }

  lemma ReachedExports(hasThread: bool, actions: seq<Action>)
    requires Legal(Start(hasThread), actions) && OrderlyRun(Start(hasThread), actions)
    ensures var s := Run(Start(hasThread), actions); CoreInv(s.led, s.objs) && ExportInv(s)
  {
    StartCore(hasThread);
    StartExports(hasThread);
    RunKeepsCore(Start(hasThread), actions);
    RunKeepsExports(Start(hasThread), actions);
  }

  lemma StartExports(hasThread: bool)
    ensures ExportInv(Start(hasThread))
  {}

  lemma PathFreeForHead(s: System)
    requires CoreInv(s.led, s.objs) && ExportInv(s) && ExportAtHead(s) && Fits(s.objs, DQ(s)[0])
    ensures s.objs[DQ(s)[0].obj].key.path in s.led.paths <==> s.objs[DQ(s)[0].obj].registered
  {
    var b := DQ(s)[0].obj;
    if s.objs[b].key.path in s.led.paths {
      var i :| 0 <= i < |s.objs| && HoldsPath(s.objs[i], s.objs[b].key.path);
      if i != b { OthersNotRegistered(s, i); }
    }
  }
}
