/** What the FIFO order of the queue buys. On every run the table lists the newest generation of an object, and the
    release of every other one was posted. On runs where clients stop using an object once they drop it and post no work
    behind a shutdown, a queued shutdown finds every object released. */
module BusGenerations {
  import opened Wrappers
  import opened BusLedger
  import opened BusProtocol

  /** Tasks that may change what an object holds, and tasks that may change any ledger. */
  predicate Touches(t: Task) { t.Use? || t.Drop? }
  predicate Work(t: Task) {
    Touches(t) || t.Unexport? || t.RequestName? || t.ListenTask? || t.UnlistenTask? || t.Shutdown?
  }

  // ----- the table and the queue, on every run -----

  /** Which queue carries which tasks. */
  ghost predicate Queues(s: System) {
    if s.hasThread then forall t | t in s.oq :: !Work(t) else s.dq == []
  }

  ghost predicate InRange(keys: seq<Key>, p: seq<Task>) {
    forall i | 0 <= i < |p| && Touches(p[i]) :: p[i].obj < |keys|
  }

  /** The table lists the newest generation of a key; an object no longer listed has its drop posted. */
  ghost predicate Tabled(keys: seq<Key>, table: map<Key, nat>, p: seq<Task>, done: bool) {
    && (forall k | k in table :: table[k] < |keys| && keys[table[k]] == k)
    && (forall a, b | 0 <= a < b < |keys| && keys[a] == keys[b] :: !Listed(keys, table, a))
    && (forall a | 0 <= a < |keys| && Listed(keys, table, a) :: Drop(a) !in p)
    && (forall a | 0 <= a < |keys| && !Listed(keys, table, a) && !done :: Drop(a) in p)
  }

  ghost predicate Tables(s: System) {
    && Queues(s) && InRange(Keys(s.objs), Posted(s))
    && Tabled(Keys(s.objs), s.table, Posted(s), s.done)
  }

  /** Tasks are only ever posted at the end. */
  ghost predicate Grows(p: seq<Task>, p': seq<Task>) {
    p <= p' && forall i | |p| <= i < |p'| :: !Work(p'[i])
  }

  lemma GrowsSame(p: seq<Task>, p': seq<Task>, t: Task)
    requires Grows(p, p') && Work(t)
    ensures t in p' <==> t in p
  {}

  lemma GrowsTabled(keys: seq<Key>, table: map<Key, nat>, p: seq<Task>, p': seq<Task>, done: bool)
    requires InRange(keys, p) && Tabled(keys, table, p, done) && Grows(p, p')
    ensures InRange(keys, p') && Tabled(keys, table, p', done)
  {
    forall a: nat ensures Drop(a) in p' <==> Drop(a) in p { GrowsSame(p, p', Drop(a)); }
  }

  lemma NewKeyTabled(keys: seq<Key>, table: map<Key, nat>, p: seq<Task>, key: Key, done: bool)
    requires InRange(keys, p) && Tabled(keys, table, p, done) && key !in table
    ensures InRange(keys + [key], p) && Tabled(keys + [key], table[key := |keys|], p, done)
  {
    var keys', table' := keys + [key], table[key := |keys|];
    forall a | 0 <= a < |keys| ensures Listed(keys', table', a) == Listed(keys, table, a) { }
    assert Drop(|keys|) !in p;
  }

  lemma DropTabled(keys: seq<Key>, table: map<Key, nat>, p: seq<Task>, key: Key, done: bool)
    requires InRange(keys, p) && Tabled(keys, table, p, done) && key in table
    ensures var p' := p + [Drop(table[key])]; InRange(keys, p') && Tabled(keys, table - {key}, p', done)
  {
    var a0, table', p' := table[key], table - {key}, p + [Drop(table[key])];
    forall a | 0 <= a < |keys|
      ensures Listed(keys, table', a) == (Listed(keys, table, a) && a != a0)
      ensures Drop(a) in p' <==> Drop(a) in p || a == a0
    { }
  }

  lemma PostTabled(keys: seq<Key>, table: map<Key, nat>, p: seq<Task>, t: Task, done: bool)
    requires InRange(keys, p) && Tabled(keys, table, p, done) && !t.Drop? && (t.Use? ==> t.obj < |keys|)
    ensures InRange(keys, p + [t]) && Tabled(keys, table, p + [t], done)
  {
    forall a: nat ensures Drop(a) in p + [t] <==> Drop(a) in p { }
  }

  lemma EmptyTabled(keys: seq<Key>, p: seq<Task>)
    ensures Tabled(keys, map[], p, true)
  {}

  // ----- what one action does to table and queue -----

  lemma SameKeys(objs: seq<Obj>, objs': seq<Obj>)
    requires Keys(objs') == Keys(objs)
    ensures |objs'| == |objs| && forall a | 0 <= a < |objs| :: objs'[a].key == objs[a].key
  {
    assert |Keys(objs')| == |Keys(objs)|;
    forall a | 0 <= a < |objs| ensures objs'[a].key == objs[a].key { assert Keys(objs')[a] == Keys(objs)[a]; }
  }

  lemma KeysUpdate(objs: seq<Obj>, id: nat, o: Obj)
    requires id < |objs| && o.key == objs[id].key
    ensures Keys(objs[id := o]) == Keys(objs)
  {}

  lemma CoreEffectKeys(l: Ledger, objs: seq<Obj>, t: Task, env: Env)
    requires Fits(objs, t)
    ensures Keys(CoreEffect(l, objs, t, env).1) == Keys(objs)
  {
    var r := CoreEffect(l, objs, t, env);
    if t.Use? || t.Drop? || t.Unexport? { KeysUpdate(objs, t.obj, r.1[t.obj]); }
  }

  lemma {:induction false} ReleaseTableKeys(s: System, n: nat)
    requires n <= |s.objs|
    ensures Keys(ReleaseTable(s, n).1) == Keys(s.objs)
  {
    if n > 0 {
      ReleaseTableKeys(s, n - 1);
      var r := ReleaseTable(s, n - 1);
      KeysUpdate(r.1, n - 1, ReleaseOne(r, n - 1).1[n - 1]);
    }
  }

  /** A task that is not work, or does not fit its object, leaves ledgers, objects and tables alone. */
  lemma IdleEffect(s: System, t: Task, env: Env)
    requires !Work(t) || !Fits(s.objs, t)
    ensures var s' := Effect(s, t, env);
            s'.led == s.led && s'.objs == s.objs && s'.table == s.table && s'.done == s.done
  {}

  lemma CoreTaskEffect(s: System, t: Task, env: Env)
    requires Work(t) && !t.Shutdown? && Fits(s.objs, t)
    ensures var s' := Effect(s, t, env);
            var r := CoreEffect(s.led, s.objs, t, env);
            s'.led == r.0 && s'.objs == r.1 && s'.table == s.table && s'.done == s.done
  {}

  lemma PoppedPosted(s: System)
    requires DQ(s) != []
    ensures Posted(Popped(s)) == Posted(s) && DQ(s)[0] == Posted(s)[|s.ran|]
    ensures Posted(s)[..|s.ran|] == s.ran
  {
    HeadMoves(s.ran, DQ(s));
  }

  lemma HeadMoves(ran: seq<Task>, q: seq<Task>)
    requires q != []
    ensures ran + [q[0]] + q[1..] == ran + q
  {
    Associative(ran, [q[0]], q[1..]);
    assert [q[0]] + q[1..] == q;
  }

  lemma PoppedQueues(s: System)
    requires Queues(s) && DQ(s) != []
    ensures Queues(Popped(s)) && Popped(s).ran == s.ran + [DQ(s)[0]]
  {}

  lemma PostedMore(s: System, t: Task)
    requires Queues(s)
    ensures Posted(PostD(s, t)) == Posted(s) + [t] && Queues(PostD(s, t))
  {}

  /** Running a task posts no work and leaves the list of tasks run alone. */
  lemma EffectQueues(s: System, t: Task, env: Env)
    requires Queues(s)
    ensures var s' := Effect(s, t, env);
            Queues(s') && s'.ran == s.ran && s'.hasThread == s.hasThread && Grows(Posted(s), Posted(s'))
  {
    EffectPosts(s, t, env);
    var answer := if t.RunMethod? then [Complete(t.call, Some(UnknownMethod))] else [];
    var notice := if Fits(s.objs, t) then [Notice(s.led, s.objs, t, env)] else [];
    PostsGrow(s, Effect(s, t, env), notice, answer);
  }

  lemma PostsGrow(s: System, s': System, o: seq<Task>, d: seq<Task>)
    requires Queues(s) && s'.ran == s.ran && s'.hasThread == s.hasThread
    requires (forall u | u in o + d :: !Work(u)) && (s'.oq == s.oq || s'.oq == s.oq + o)
    requires s'.dq == s.dq || (s.hasThread && s'.dq == s.dq + d)
    ensures Queues(s') && Grows(Posted(s), Posted(s'))
  {}

  /** The actions of clients on table and queue, and those that shut down; all others are quiet. */
  predicate Client(a: Action) { a.GetObject? || a.DropObject? || a.Post? }
  predicate Shuts(s: System, a: Action) { a.ShutdownDirectly? || (a.RunDBus? && DQ(s) != [] && DQ(s)[0].Shutdown?) }

  /** No key, no table entry and no work is gained or lost. */
  ghost predicate Quiet(s: System, s': System) {
    && Queues(s') && Keys(s'.objs) == Keys(s.objs) && s'.table == s.table && s'.done == s.done
    && Grows(Posted(s), Posted(s'))
  }

  lemma RunDBusQuiet(s: System, env: Env)
    requires Queues(s) && DQ(s) != [] && !DQ(s)[0].Shutdown?
    ensures Quiet(s, Step(s, RunDBus(env)))
  {
    var t, s1 := DQ(s)[0], Popped(s);
    PoppedPosted(s);
    PoppedQueues(s);
    EffectQueues(s1, t, env);
    if Work(t) && Fits(s.objs, t) {
      CoreTaskEffect(s1, t, env);
      CoreEffectKeys(s.led, s.objs, t, env);
    } else {
      IdleEffect(s1, t, env);
    }
  }

  lemma RunOriginIdle(s: System, env: Env)
    requires Queues(s) && s.hasThread && s.oq != []
    ensures var s' := Step(s, RunOrigin(env));
            Quiet(s, s') && s'.led == s.led && s'.objs == s.objs && s'.ran == s.ran
  {
    var s1 := s.(oq := s.oq[1..]);
    assert s.oq[0] in s.oq;
    EffectQueues(s1, s.oq[0], env);
    IdleEffect(s1, s.oq[0], env);
    assert Posted(s1) == Posted(s);
  }

  /** The remaining quiet actions. */
  predicate Other(a: Action) { a.Respond? || a.Dispatch? || a.OwnerChange? || a.ReleaseName? }

  lemma NoticesGrow(s: System, service: string, owner: string)
    requires Queues(s)
    ensures var s' := Step(s, OwnerChange(service, owner)); Queues(s') && Grows(Posted(s), Posted(s'))
  {}

  lemma OtherFrame(s: System, a: Action)
    requires Enabled(s, a) && Other(a)
    ensures var s' := Step(s, a);
            && s'.objs == s.objs && s'.table == s.table && s'.done == s.done && s'.ran == s.ran
            && s'.led == s.led.(owned := s'.led.owned) && (s'.led == s.led || s.led.connected)
  {
    match a
    case Respond(call, response) => SendFrame(s.(senders := s.senders[call := s.senders[call] - 1]), call, response);
    case Dispatch(_, _, env) => HandOverFrame(s.(handled := s.handled + 1), s.handled, env);
    case _ =>
  }

  lemma SendFrame(s: System, call: nat, response: Option<Answer>)
    ensures var s' := SendResponse(s, call, response);
            s' == s.(dq := s'.dq, oq := s'.oq, replies := s'.replies, dropped := s'.dropped)
  {}

  lemma HandOverFrame(s: System, call: nat, env: Env)
    ensures var s' := HandOver(s, call, env);
            s' == s.(dq := s'.dq, oq := s'.oq, senders := s'.senders, replies := s'.replies, dropped := s'.dropped)
  {
    SendFrame(s, call, Some(UnknownMethod));
  }

  lemma OtherPosts(s: System, a: Action)
    requires Queues(s) && Enabled(s, a) && (a.Respond? || a.Dispatch? || a.ReleaseName?)
    ensures var s' := Step(s, a); Queues(s') && Grows(Posted(s), Posted(s'))
  {
    var s' := Step(s, a);
    assert s'.oq == s.oq || exists u: Task :: !Work(u) && s'.oq == s.oq + [u];
    assert s'.dq == s.dq || exists u: Task :: s.hasThread && !Work(u) && s'.dq == s.dq + [u];
  }

  lemma ConnectNowQuiet(s: System, id: nat, text: string, env: Env)
    requires Queues(s) && Enabled(s, ConnectNow(id, text, env))
    ensures Quiet(s, Step(s, ConnectNow(id, text, env)))
  {
    CoreEffectKeys(s.led, s.objs, Use(id, SignalOp(text)), env);
  }

  lemma QuietStep(s: System, a: Action)
    requires Queues(s) && Enabled(s, a) && !Client(a) && !Shuts(s, a)
    ensures Quiet(s, Step(s, a))
  {
    if a.RunDBus? {
      RunDBusQuiet(s, a.env);
    } else if a.RunOrigin? {
      RunOriginIdle(s, a.env);
    } else if a.ConnectNow? {
      ConnectNowQuiet(s, a.obj, a.text, a.env);
    } else {
      if a.OwnerChange? { NoticesGrow(s, a.service, a.owner); } else { OtherPosts(s, a); }
      OtherFrame(s, a);
    }
  }

  /** A shutdown empties the table and posts nothing; a second one does nothing. */
  lemma ShutStep(s: System, a: Action)
    requires Queues(s) && Enabled(s, a) && Shuts(s, a)
    ensures var s' := Step(s, a);
            && Queues(s') && Keys(s'.objs) == Keys(s.objs) && Posted(s') == Posted(s) && s'.done
            && (if s.done then s'.table == s.table && s'.objs == s.objs else s'.table == map[])
  {
    ReleaseTableKeys(s, |s.objs|);
    if a.RunDBus? {
      PoppedPosted(s);
      PoppedQueues(s);
      ReleaseTableKeys(Popped(s), |s.objs|);
    }
  }

  lemma GetObjectStep(s: System, key: Key)
    requires key !in s.table
    ensures var s' := Step(s, GetObject(key));
            && Keys(s'.objs) == Keys(s.objs) + [key] && s'.table == s.table[key := |Keys(s.objs)|]
            && Posted(s') == Posted(s) && s'.done == s.done
  {}

  lemma StepKeepsTables(s: System, a: Action)
    requires Tables(s) && Enabled(s, a)
    ensures Tables(Step(s, a))
  {
    var keys, p := Keys(s.objs), Posted(s);
    if a.GetObject? {
      if a.key !in s.table {
        GetObjectStep(s, a.key);
        NewKeyTabled(keys, s.table, p, a.key, s.done);
      }
    } else if a.DropObject? {
      if a.key in s.table {
        DropTabled(keys, s.table, p, a.key, s.done);
        PostedMore(s.(table := s.table - {a.key}), Drop(s.table[a.key]));
      }
    } else if a.Post? {
      PostTabled(keys, s.table, p, a.task, s.done);
      PostedMore(s, a.task);
    } else if Shuts(s, a) {
      ShutStep(s, a);
      EmptyTabled(keys, p);
    } else {
      QuietStep(s, a);
      GrowsTabled(keys, s.table, p, Posted(Step(s, a)), s.done);
    }
  }

  lemma StepKeepsQueues(s: System, a: Action)
    requires Queues(s) && Enabled(s, a)
    ensures Queues(Step(s, a))
  {
    if a.DropObject? {
      if a.key in s.table { PostedMore(s.(table := s.table - {a.key}), Drop(s.table[a.key])); }
    } else if a.Post? {
      PostedMore(s, a.task);
    } else if Shuts(s, a) {
      ShutStep(s, a);
    } else if !a.GetObject? {
      QuietStep(s, a);
    }
  }

  // ----- clients that keep to the table -----

  /** The discipline asked of clients for a shutdown from the queue. */
  ghost predicate Disciplined(s: System, a: Action) {
    && !a.ShutdownDirectly?
    && (a.DropObject? || a.Post? || a.ConnectNow? ==> Shutdown !in Posted(s))
    && (a.Post? && a.task.Use? ==> InTable(s, a.task.obj))
    && (a.ConnectNow? ==> InTable(s, a.obj))
  }

  ghost predicate DisciplinedRun(s: System, actions: seq<Action>)
    requires Legal(s, actions)
    decreases |actions|
  {
    actions == [] || (Disciplined(s, actions[0]) && DisciplinedRun(Step(s, actions[0]), actions[1..]))
  }

  lemma {:induction false} DisciplinedThen(s: System, first: seq<Action>, second: seq<Action>)
    requires Legal(s, first) && DisciplinedRun(s, first)
    requires Legal(Run(s, first), second) && DisciplinedRun(Run(s, first), second)
    ensures Legal(s, first + second) && DisciplinedRun(s, first + second)
    decreases |first|
  {
    RunThen(s, first, second);
    if first == [] {
      assert first + second == second;
    } else {
      assert (first + second)[1..] == first[1..] + second;
      DisciplinedThen(Step(s, first[0]), first[1..], second);
    }
  }

  lemma DisciplinedOne(s: System, a: Action)
    requires Enabled(s, a) && Disciplined(s, a)
    ensures Legal(s, [a]) && Run(s, [a]) == Step(s, a) && DisciplinedRun(s, [a])
  {
    RunOne(s, a);
    assert [a][1..] == [];
  }

  /** A request posted to an idle D-Bus thread, and run. */
  lemma PostAndRun(s: System, t: Task, env: Env)
    requires s.hasThread && s.dq == [] && Request(s, t) && !t.Shutdown?
    ensures var actions := [Post(t), RunDBus(env)];
            && Legal(s, actions) && (Disciplined(s, Post(t)) ==> DisciplinedRun(s, actions))
            && var s' := Run(s, actions);
               var r := CoreEffect(s.led, s.objs, t, env);
               && s'.led == r.0 && s'.objs == r.1 && s'.table == s.table && s'.done == s.done
               && s'.hasThread && s'.ran == s.ran + [t] && s'.dq == []
  {
    var s1 := Step(s, Post(t));
    RunTwo(s, Post(t), RunDBus(env));
    if Disciplined(s, Post(t)) {
      DisciplinedOne(s, Post(t));
      DisciplinedOne(s1, RunDBus(env));
      DisciplinedThen(s, [Post(t)], [RunDBus(env)]);
      assert [Post(t)] + [RunDBus(env)] == [Post(t), RunDBus(env)];
    }
    CoreTaskEffect(Popped(s1), t, env);
    EffectPosts(Popped(s1), t, env);
  }

  /** On the tasks ever posted: nothing follows the drop of an object, and no work follows a shutdown. */
  ghost predicate Ordered(p: seq<Task>) {
    && (forall i, j | 0 <= i < j < |p| && p[i].Drop? && Touches(p[j]) :: p[i].obj != p[j].obj)
    && (forall i, j | 0 <= i < j < |p| && p[i].Shutdown? :: !Work(p[j]))
  }

  ghost predicate Holding(l: Ledger, objs: seq<Obj>, a: nat)
    requires a < |objs|
  {
    objs[a].registered || objs[a].rules != {} || ProxyFilter(a) in l.filters
  }

  /** Only an object not yet dropped holds anything, and nothing does behind a shutdown. */
  ghost predicate Held(l: Ledger, objs: seq<Obj>, ran: seq<Task>) {
    forall a | 0 <= a < |objs| && Holding(l, objs, a) :: Drop(a) !in ran && Shutdown !in ran
  }

  ghost predicate Connection(l: Ledger, ran: seq<Task>, done: bool) {
    && (done <==> Shutdown in ran)
    && (if done then !l.connected else l.connected || l == EMPTY)
  }

  ghost predicate Inv(s: System) {
    && CoreInv(s.led, s.objs) && Tables(s) && Ordered(Posted(s))
    && Held(s.led, s.objs, s.ran) && Connection(s.led, s.ran, s.done)
  }

  lemma GrowsOrdered(p: seq<Task>, p': seq<Task>)
    requires Ordered(p) && Grows(p, p')
    ensures Ordered(p')
  {}

  lemma PostOrdered(keys: seq<Key>, table: map<Key, nat>, p: seq<Task>, t: Task, done: bool)
    requires Ordered(p) && Tabled(keys, table, p, done) && Shutdown !in p
    requires Touches(t) ==> Listed(keys, table, t.obj)
    ensures Ordered(p + [t])
  {
    if Touches(t) { assert Drop(t.obj) !in p; }
  }

  // ----- what a task changes -----

  /** A ledger step on behalf of the object `id`, or of none: no other object gains or loses a filter, and a
      connection is not lost. */
  ghost predicate LedgerStep(l: Ledger, l': Ledger, id: Option<nat>) {
    && (forall a: nat | id != Some(a) :: ProxyFilter(a) in l'.filters <==> ProxyFilter(a) in l.filters)
    && (l'.connected || l' == EMPTY)
  }

  lemma AddProxyRuleFrame(l: Ledger, o: Obj, rule: Rule, env: Env)
    ensures var r := AddProxyRule(l, o, rule, env);
            r.0.filters == l.filters && r.0.connected == l.connected && r.1.key == o.key
  {}

  lemma SignalFrame(l: Ledger, id: nat, o: Obj, text: string, env: Env)
    requires o.key.ProxyKey? && (l.connected || l == EMPTY)
    ensures var r := ConnectSignal(l, id, o, text, env); r.1.key == o.key && LedgerStep(l, r.0, Some(id))
  {
    var c := Connect(l, env);
    var f := c.(filters := c.filters + {ProxyFilter(id)});
    AddProxyRuleFrame(f, o, OwnerChanged(o.key.service), env);
    var n := AddProxyRule(f, o, OwnerChanged(o.key.service), env);
    AddProxyRuleFrame(n.0, n.1, Signal(text), env);
    assert LedgerStep(l, c, None);
  }

  lemma ExportFrame(l: Ledger, o: Obj, name: string, callback: nat, env: Env)
    requires o.key.ExportedKey? && (l.connected || l == EMPTY)
    ensures var r := Export(l, o, name, callback, env); r.1.key == o.key && LedgerStep(l, r.0, None)
  {
    assert LedgerStep(l, Connect(l, env), None);
  }

  lemma ListenFrame(l: Ledger, service: string, callback: nat, env: Env)
    requires l.connected || l == EMPTY
    ensures LedgerStep(l, Listen(l, service, callback, env), None)
    ensures LedgerStep(l, Unlisten(l, service, callback), None)
  {
    assert LedgerStep(l, Connect(l, env), None);
  }

  /** A task changes what at most one object holds. */
  lemma CoreEffectFrame(l: Ledger, objs: seq<Obj>, t: Task, env: Env)
    requires Fits(objs, t) && (l.connected || l == EMPTY)
    ensures var r := CoreEffect(l, objs, t, env);
            && Keys(r.1) == Keys(objs)
            && (forall a | 0 <= a < |objs| && (Touches(t) ==> a != t.obj)
                  :: Holding(r.0, r.1, a) == Holding(l, objs, a))
            && (r.0.connected || r.0 == EMPTY)
  {
    match t
    case Use(id, SignalOp(text)) => SignalFrame(l, id, objs[id], text, env);
    case Use(id, ExportOp(name, callback)) => ExportFrame(l, objs[id], name, callback, env);
    case ListenTask(service, callback) => ListenFrame(l, service, callback, env);
    case UnlistenTask(service, callback) => ListenFrame(l, service, callback, env);
    case _ =>
  }

  lemma ReleaseFrees(l: Ledger, objs: seq<Obj>, id: nat)
    requires CoreInv(l, objs) && id < |objs| && (l.connected || l.filters == {})
    ensures var r := Release(l, id, objs[id]);
            && !Holding(r.0, objs[id := r.1], id)
            && (forall a | 0 <= a < |objs| && a != id :: Holding(r.0, objs[id := r.1], a) == Holding(l, objs, a))
            && r.1.key == objs[id].key
            && r.0 == l.(paths := r.0.paths, filters := r.0.filters, matches := r.0.matches)
            && (l.filters == {} ==> r.0.filters == {})
            && (forall f: Filter | !f.ProxyFilter? :: f in r.0.filters <==> f in l.filters)
  {}

  /** Of the first n objects exactly those outside the tables keep what they hold. */
  ghost predicate FreedUpTo(s: System, n: nat, r: (Ledger, seq<Obj>)) {
    match r
    case (l, objs) =>
      && Keys(objs) == Keys(s.objs) && |objs| == |s.objs|
      && (forall a | 0 <= a < |s.objs| ::
            Holding(l, objs, a) == (Holding(s.led, s.objs, a) && !(a < n && InTable(s, a))))
      && l == s.led.(paths := l.paths, filters := l.filters, matches := l.matches)
      && (s.led.filters == {} ==> l.filters == {})
      && (forall f: Filter | !f.ProxyFilter? :: f in l.filters <==> f in s.led.filters)
  }

  lemma FreesOneMore(s: System, n: nat, r: (Ledger, seq<Obj>))
    requires n < |s.objs| && InTable(s, n) && (s.led.connected || s.led.filters == {})
    requires FreedUpTo(s, n, r) && Sound(r)
    ensures FreedUpTo(s, n + 1, ReleaseOne(r, n))
  {
    ReleaseFrees(r.0, r.1, n);
    SameKeys(s.objs, r.1);
  }

  lemma FreesNoMore(s: System, n: nat, r: (Ledger, seq<Obj>))
    requires n < |s.objs| && !InTable(s, n) && FreedUpTo(s, n, r)
    ensures FreedUpTo(s, n + 1, r)
  {}

  lemma FreesNext(s: System, n: nat, r: (Ledger, seq<Obj>))
    requires n < |s.objs| && |r.1| == |s.objs| && (s.led.connected || s.led.filters == {})
    requires FreedUpTo(s, n, r) && Sound(r)
    ensures FreedUpTo(s, n + 1, if InTable(s, n) then ReleaseOne(r, n) else r)
  {
    if InTable(s, n) { FreesOneMore(s, n, r); } else { FreesNoMore(s, n, r); }
  }

  lemma FreesNone(s: System)
    ensures FreedUpTo(s, 0, (s.led, s.objs))
  {}

  lemma {:induction false} ReleaseTableFrees(s: System, n: nat)
    requires Sound((s.led, s.objs)) && n <= |s.objs| && (s.led.connected || s.led.filters == {})
    ensures FreedUpTo(s, n, ReleaseTable(s, n))
  {
    if n == 0 {
      FreesNone(s);
    } else {
      ReleaseTableFrees(s, n - 1);
      ReleaseTableKeeps(s, n - 1);
      FreesNext(s, n - 1, ReleaseTable(s, n - 1));
    }
  }

  /** ShutdownAndBlock, from any state: exactly the objects outside the tables keep what they hold. */
  lemma ShutdownFrees(s: System, env: Env)
    requires Sound((s.led, s.objs)) && (s.led.connected || s.led.filters == {}) && !s.done
    ensures var s' := ShutdownNow(s, env);
            && Keys(s'.objs) == Keys(s.objs)
            && (forall a | 0 <= a < |s.objs| ::
                  Holding(s'.led, s'.objs, a) == (Holding(s.led, s.objs, a) && !InTable(s, a)))
            && !s'.led.connected && s'.led.owned == s.led.owned * env.keeps
            && s'.led.listeners == s.led.listeners && s'.led.refused == s.led.refused
            && (OwnerChangedFilter in s'.led.filters <==> OwnerChangedFilter in s.led.filters)
  {
    ReleaseTableFrees(s, |s.objs|);
  }

  // ----- every step keeps the invariant -----

  /** A task that is neither a drop nor a shutdown, if it lets only its own object hold more. */
  lemma HeldGrows(l: Ledger, objs: seq<Obj>, ran: seq<Task>, l': Ledger, objs': seq<Obj>, t: Task)
    requires Held(l, objs, ran) && |objs'| == |objs| && !t.Drop? && !t.Shutdown?
    requires forall a | 0 <= a < |objs| && !(t.Use? && a == t.obj) :: Holding(l', objs', a) ==> Holding(l, objs, a)
    requires t.Use? ==> Drop(t.obj) !in ran && Shutdown !in ran
    ensures Held(l', objs', ran + [t])
  {}

  lemma DropHeld(l: Ledger, objs: seq<Obj>, ran: seq<Task>, l': Ledger, objs': seq<Obj>, id: nat)
    requires Held(l, objs, ran) && |objs'| == |objs| && id < |objs|
    requires forall a | 0 <= a < |objs| && a != id :: Holding(l', objs', a) ==> Holding(l, objs, a)
    requires !Holding(l', objs', id)
    ensures Held(l', objs', ran + [Drop(id)])
  {}

  /** A work task at the head of the queue follows no drop of its object and no shutdown. */
  lemma HeadIsFresh(p: seq<Task>, n: nat)
    requires Ordered(p) && n < |p| && Work(p[n])
    ensures Shutdown !in p[..n]
    ensures Touches(p[n]) ==> Drop(p[n].obj) !in p[..n]
  {
    assert forall i | 0 <= i < n :: p[..n][i] == p[i];
  }

  lemma TaskHeld(l: Ledger, objs: seq<Obj>, ran: seq<Task>, t: Task, env: Env)
    requires CoreInv(l, objs) && Held(l, objs, ran) && (l.connected || l == EMPTY)
    requires !t.Shutdown? && Fits(objs, t) && (Touches(t) ==> Drop(t.obj) !in ran && Shutdown !in ran)
    ensures var r := CoreEffect(l, objs, t, env); Held(r.0, r.1, ran + [t])
  {
    var r := CoreEffect(l, objs, t, env);
    CoreEffectFrame(l, objs, t, env);
    SameKeys(objs, r.1);
    if t.Drop? {
      ReleaseFrees(l, objs, t.obj);
      DropHeld(l, objs, ran, r.0, r.1, t.obj);
    } else {
      HeldGrows(l, objs, ran, r.0, r.1, t);
    }
  }

  lemma TaskConnection(l: Ledger, objs: seq<Obj>, ran: seq<Task>, done: bool, t: Task, env: Env)
    requires Connection(l, ran, done) && !done && !t.Shutdown? && Fits(objs, t)
    ensures Connection(CoreEffect(l, objs, t, env).0, ran + [t], done)
  {
    CoreEffectFrame(l, objs, t, env);
  }

  lemma RunCoreTaskHeld(s: System, t: Task, env: Env)
    requires Inv(s) && DQ(s) != [] && t == DQ(s)[0] && Work(t) && !t.Shutdown? && Fits(s.objs, t)
    ensures var r := CoreEffect(s.led, s.objs, t, env);
            Held(r.0, r.1, s.ran + [t]) && Connection(r.0, s.ran + [t], s.done)
  {
    PoppedPosted(s);
    HeadIsFresh(Posted(s), |s.ran|);
    TaskConnection(s.led, s.objs, s.ran, s.done, t, env);
    TaskHeld(s.led, s.objs, s.ran, t, env);
  }

  lemma RunShutdownHeld(s: System, env: Env)
    requires Inv(s) && DQ(s) != [] && DQ(s)[0] == Shutdown
    ensures !s.done
    ensures var s' := ShutdownNow(Popped(s), env);
            Held(s'.led, s'.objs, s.ran + [Shutdown]) && Connection(s'.led, s.ran + [Shutdown], s'.done)
  {
    PoppedPosted(s);
    HeadIsFresh(Posted(s), |s.ran|);
    UnlistedHoldNothing(s);
    ShutdownHoldsNothing(Popped(s), env);
  }

  lemma ShutdownHoldsNothing(s: System, env: Env)
    requires Sound((s.led, s.objs)) && (s.led.connected || s.led.filters == {}) && !s.done
    requires forall a | 0 <= a < |s.objs| && !InTable(s, a) :: !Holding(s.led, s.objs, a)
    ensures var s' := ShutdownNow(s, env);
            && s'.done && !s'.led.connected
            && forall a | 0 <= a < |s'.objs| :: !Holding(s'.led, s'.objs, a)
  {
    ShutdownFrees(s, env);
    SameKeys(s.objs, ShutdownNow(s, env).objs);
  }

  lemma UnlistedHoldNothing(s: System)
    requires Inv(s) && DQ(s) != [] && DQ(s)[0] == Shutdown && !s.done
    ensures forall a | 0 <= a < |s.objs| && !InTable(s, a) :: !Holding(s.led, s.objs, a)
  {
    var p := Posted(s);
    forall a | 0 <= a < |s.objs| && !InTable(s, a) ensures !Holding(s.led, s.objs, a) {
      var i :| 0 <= i < |p| && p[i] == Drop(a);
      assert p[|s.ran|] == Shutdown;
      assert s.ran[i] == Drop(a);
    }
  }

  lemma RunDBusKeeps(s: System, env: Env)
    requires Inv(s) && DQ(s) != [] && !DQ(s)[0].Shutdown?
    ensures Inv(Step(s, RunDBus(env)))
  {
    var t, s1, s' := DQ(s)[0], Popped(s), Step(s, RunDBus(env));
    PoppedQueues(s);
    EffectQueues(s1, t, env);
    if Work(t) && Fits(s.objs, t) {
      RunCoreTaskHeld(s, t, env);
      CoreTaskEffect(s1, t, env);
    } else {
      IdleEffect(s1, t, env);
      HeadDoesNotFit(s);
      HeldGrows(s.led, s.objs, s.ran, s.led, s.objs, t);
    }
    QuietKeeps(s, RunDBus(env));
  }

  lemma HeadDoesNotFit(s: System)
    requires Inv(s) && DQ(s) != []
    ensures DQ(s)[0].Drop? ==> Fits(s.objs, DQ(s)[0])
    ensures DQ(s)[0].Use? ==> Drop(DQ(s)[0].obj) !in s.ran && Shutdown !in s.ran
  {
    PoppedPosted(s);
    if Work(DQ(s)[0]) { HeadIsFresh(Posted(s), |s.ran|); }
  }

  lemma RunShutdownKeeps(s: System, env: Env)
    requires Inv(s) && DQ(s) != [] && DQ(s)[0].Shutdown?
    ensures Inv(Step(s, RunDBus(env)))
  {
    StepKeepsCore(s, RunDBus(env));
    StepKeepsTables(s, RunDBus(env));
    ShutStep(s, RunDBus(env));
    PoppedQueues(s);
    RunShutdownHeld(s, env);
  }

  /** A quiet action, if what is held and the connection stay in order. */
  lemma QuietKeeps(s: System, a: Action)
    requires Inv(s) && Enabled(s, a) && !Client(a) && !Shuts(s, a)
    requires var s' := Step(s, a); Held(s'.led, s'.objs, s'.ran) && Connection(s'.led, s'.ran, s'.done)
    ensures Inv(Step(s, a))
  {
    StepKeepsCore(s, a);
    StepKeepsTables(s, a);
    QuietStep(s, a);
    GrowsOrdered(Posted(s), Posted(Step(s, a)));
  }

  lemma NotDone(s: System)
    requires Inv(s) && Shutdown !in Posted(s)
    ensures !s.done && Shutdown !in s.ran
  {
    assert forall t | t in s.ran :: t in Posted(s);
  }

  lemma GetObjectKeeps(s: System, key: Key)
    requires Inv(s)
    ensures Inv(Step(s, GetObject(key)))
  {
    StepKeepsCore(s, GetObject(key));
    StepKeepsTables(s, GetObject(key));
    NewObjectHoldsNothing(s, key);
  }

  lemma DropObjectKeeps(s: System, key: Key)
    requires Inv(s) && Disciplined(s, DropObject(key))
    ensures Inv(Step(s, DropObject(key)))
  {
    StepKeepsTables(s, DropObject(key));
    if key in s.table {
      var t := Drop(s.table[key]);
      PostOrdered(Keys(s.objs), s.table, Posted(s), t, s.done);
      PostedMore(s.(table := s.table - {key}), t);
    }
  }

  lemma PostKeeps(s: System, t: Task)
    requires Inv(s) && Enabled(s, Post(t)) && Disciplined(s, Post(t))
    ensures Inv(Step(s, Post(t)))
  {
    StepKeepsTables(s, Post(t));
    PostOrdered(Keys(s.objs), s.table, Posted(s), t, s.done);
    PostedMore(s, t);
  }

  lemma ConnectNowKeeps(s: System, id: nat, text: string, env: Env)
    requires Inv(s) && Enabled(s, ConnectNow(id, text, env)) && Disciplined(s, ConnectNow(id, text, env))
    ensures Inv(Step(s, ConnectNow(id, text, env)))
  {
    var t := Use(id, SignalOp(text));
    NotDone(s);
    CoreEffectFrame(s.led, s.objs, t, env);
    SameKeys(s.objs, CoreEffect(s.led, s.objs, t, env).1);
    assert forall u | u in s.ran :: u in Posted(s);
    QuietKeeps(s, ConnectNow(id, text, env));
  }

  lemma NewObjectHoldsNothing(s: System, key: Key)
    requires Inv(s)
    ensures Held(s.led, s.objs + [NewObj(key)], s.ran)
  {
    var objs := s.objs + [NewObj(key)];
    assert !Holding(s.led, objs, |s.objs|);
    forall a | 0 <= a < |s.objs| ensures Holding(s.led, objs, a) == Holding(s.led, s.objs, a) { }
  }

  lemma RunOriginKeeps(s: System, env: Env)
    requires Inv(s) && s.hasThread && s.oq != []
    ensures Inv(Step(s, RunOrigin(env)))
  {
    RunOriginIdle(s, env);
    QuietKeeps(s, RunOrigin(env));
  }

  lemma OtherStepKeeps(s: System, a: Action)
    requires Inv(s) && Enabled(s, a) && Other(a)
    ensures Inv(Step(s, a))
  {
    OtherFrame(s, a);
    QuietKeeps(s, a);
  }

  lemma StepKeeps(s: System, a: Action)
    requires Inv(s) && Enabled(s, a) && Disciplined(s, a)
    ensures Inv(Step(s, a))
  {
    if a.GetObject? {
      GetObjectKeeps(s, a.key);
    } else if a.DropObject? {
      DropObjectKeeps(s, a.key);
    } else if a.Post? {
      PostKeeps(s, a.task);
    } else if a.ConnectNow? {
      ConnectNowKeeps(s, a.obj, a.text, a.env);
    } else if a.RunOrigin? {
      RunOriginKeeps(s, a.env);
    } else if a.RunDBus? {
      if DQ(s)[0].Shutdown? { RunShutdownKeeps(s, a.env); } else { RunDBusKeeps(s, a.env); }
    } else {
      OtherStepKeeps(s, a);
    }
  }

  lemma {:induction false} RunKeeps(s: System, actions: seq<Action>)
    requires Inv(s) && Legal(s, actions) && DisciplinedRun(s, actions)
    ensures Inv(Run(s, actions))
    decreases |actions|
  {
    if actions != [] {
      StepKeeps(s, actions[0]);
      RunKeeps(Step(s, actions[0]), actions[1..]);
    }
  }
}
