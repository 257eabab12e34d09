/** What clients and callers get, written out from the replies of libdbus and the state before: the results posted to
    clients, the hand-over of a method call, and the reply that is sent for it. */
module BusResults {
  import opened Wrappers
  import opened BusLedger
  import opened BusProtocol
  import opened BusReplies
  import G = BusGenerations
  import S = BusGuarantees

  // ----- what one operation does to ledger and object -----

  lemma ConnectOutcome(l: Ledger, env: Env)
    ensures var c := Connect(l, env);
            && (ConnectOk(l, env) <==> l.connected || env.connect == Opened)
            && (c.connected <==> l.connected || env.connect != NotOpened)
            && (if !l.connected && env.connect == Opened
                then && c.filters == l.filters + {DisconnectedFilter}
                     && Count(c.matches, Disconnected) == Count(l.matches, Disconnected) + 1
                else c.filters == l.filters && c.matches == l.matches)
            && (forall r: Rule | r != Disconnected :: Count(c.matches, r) == Count(l.matches, r))
            && c == l.(connected := c.connected, filters := c.filters, matches := c.matches)
  {}

  /** The object can be registered, or is already. */
  predicate CanExport(l: Ledger, o: Obj, name: string, env: Env)
    requires o.key.ExportedKey?
  {
    && name !in o.methods && (l.connected || env.connect == Opened)
    && (o.registered || (o.key.path !in l.paths && env.registers))
  }

  lemma ExportOutcome(l: Ledger, o: Obj, name: string, callback: nat, env: Env)
    requires o.key.ExportedKey?
    ensures var r := Export(l, o, name, callback, env);
            && (r.2 <==> CanExport(l, o, name, env))
            && (r.2 ==> r.1 == o.(registered := true, methods := o.methods[name := callback]))
            && (!r.2 ==> r.1 == o)
            && r.0.paths == (if r.2 && !o.registered then l.paths + {o.key.path} else l.paths)
  {}

  /** A rule gets stored if it is stored already, or counted already, or not refused. */
  predicate CanStore(l: Ledger, o: Obj, rule: Rule, env: Env) {
    rule in o.rules || rule in l.matches || rule !in env.refuses
  }

  lemma SignalOutcome(l: Ledger, id: nat, o: Obj, text: string, env: Env)
    requires o.key.ProxyKey?
    ensures var r, owner := ConnectSignal(l, id, o, text, env), OwnerChanged(o.key.service);
            var first := (l.connected || env.connect == Opened) && CanStore(l, o, owner, env);
            var second := first && CanStore(l, o, Signal(text), env);
            && r.1 == o.(rules := o.rules + (if first then {owner} else {}) + (if second then {Signal(text)} else {}))
            && (l.connected || env.connect == Opened ==> ProxyFilter(id) in r.0.filters)
            && (second <==> ConnectOk(l, env) && {owner, Signal(text)} <= r.1.rules)
  {
    var c := Connect(l, env);
    var f := c.(filters := c.filters + {ProxyFilter(id)});
    var owner := OwnerChanged(o.key.service);
    StoreOutcome(f, o, owner, env);
    if ConnectOk(l, env) {
      var n := AddProxyRule(f, o, owner, env);
      StoreOutcome(n.0, n.1, Signal(text), env);
    }
  }

  lemma StoreOutcome(l: Ledger, o: Obj, rule: Rule, env: Env)
    ensures var r := AddProxyRule(l, o, rule, env);
            && r.1 == o.(rules := o.rules + (if CanStore(l, o, rule, env) then {rule} else {}))
            && r.0.filters == l.filters && r.0.connected == l.connected
            && (forall x: Rule | x != rule :: x in r.0.matches <==> x in l.matches)
  {}

  lemma OwnershipOutcome(l: Ledger, name: string, env: Env)
    ensures var r := RequestOwnership(l, name, env);
            && (if (l.connected || env.connect == Opened) && env.grants
                then r.owned == l.owned + {name} else r.owned == l.owned)
            && r == Connect(l, env).(owned := r.owned)
  {}

  /** Unregister gives back the path of a registered object; Detach gives back each stored rule once and, while the bus
      is connected, the filter. */
  lemma ReleaseOutcome(l: Ledger, id: nat, o: Obj, rule: Rule)
    requires forall r | r in l.matches :: l.matches[r] >= 1
    ensures var (l', o') := Release(l, id, o);
            && o' == (if o.key.ExportedKey? then o.(registered := false) else o.(rules := {}))
            && l'.paths == (if o.key.ExportedKey? && o.registered then l.paths - {o.key.path} else l.paths)
            && l'.filters == (if o.key.ProxyKey? && l.connected then l.filters - {ProxyFilter(id)} else l.filters)
            && Count(l'.matches, rule)
               == Count(l.matches, rule) - (if o.key.ProxyKey? && rule in o.rules && rule in l.matches then 1 else 0)
            && l' == l.(paths := l'.paths, filters := l'.filters, matches := l'.matches)
  {}

  // ----- the results told to clients -----

  /** The origin queue behind the task at the head of the queue that carries D-Bus tasks. */
  function OriginQueue(s: System): seq<Task>
    requires DQ(s) != []
  {
    if s.hasThread then s.oq else s.oq[1..]
  }

  /** An export tells its client whether it took place: exactly if the method is new, the bus connects and the object is
      registered or libdbus registers its path, which no other object may hold. */
  lemma ExportTold(s: System, id: nat, name: string, callback: nat, env: Env)
    requires DQ(s) != [] && DQ(s)[0] == Use(id, ExportOp(name, callback)) && Fits(s.objs, DQ(s)[0])
    ensures var s', o := Step(s, RunDBus(env)), s.objs[id];
            var ok := CanExport(s.led, o, name, env);
            && s'.oq == OriginQueue(s) + [ResultNotice(ok)]
            && s'.objs == (if ok then s.objs[id := o.(registered := true, methods := o.methods[name := callback])]
                           else s.objs)
            && s'.led.paths == (if ok && !o.registered then s.led.paths + {o.key.path} else s.led.paths)
  {
    ExportOutcome(s.led, s.objs[id], name, callback, env);
    assert s.objs[id := s.objs[id]] == s.objs;
  }

  /** Unexporting tells whether the method was there. */
  lemma UnexportTold(s: System, id: nat, name: string, env: Env)
    requires DQ(s) != [] && DQ(s)[0] == Unexport(id, name) && id < |s.objs|
    ensures var s', o := Step(s, RunDBus(env)), s.objs[id];
            && s'.oq == OriginQueue(s) + [ResultNotice(name in o.methods)]
            && s'.objs == s.objs[id := o.(methods := o.methods - {name})] && s'.led == s.led
  {}

  /** Connecting to a signal tells whether both rules are stored: the owner-change rule first, then the signal's. */
  lemma SignalTold(s: System, id: nat, text: string, env: Env)
    requires DQ(s) != [] && DQ(s)[0] == Use(id, SignalOp(text)) && Fits(s.objs, DQ(s)[0])
    ensures var s', o := Step(s, RunDBus(env)), s.objs[id];
            var owner, opens := OwnerChanged(o.key.service), s.led.connected || env.connect == Opened;
            var first := opens && CanStore(s.led, o, owner, env);
            var second := first && CanStore(s.led, o, Signal(text), env);
            && s'.oq == OriginQueue(s) + [ResultNotice(second)]
            && s'.objs
               == s.objs[id := o.(rules := o.rules + (if first then {owner} else {})
                                                   + (if second then {Signal(text)} else {}))]
  {
    SignalOutcome(s.led, id, s.objs[id], text, env);
  }

  /** Without a D-Bus thread a proxy is connected at once, to the same effect and with no task posted. */
  lemma SignalConnectedNow(s: System, id: nat, text: string, env: Env)
    requires Enabled(s, ConnectNow(id, text, env))
    ensures var s', o := Step(s, ConnectNow(id, text, env)), s.objs[id];
            var owner, opens := OwnerChanged(o.key.service), s.led.connected || env.connect == Opened;
            var first := opens && CanStore(s.led, o, owner, env);
            var second := first && CanStore(s.led, o, Signal(text), env);
            && s'.objs
               == s.objs[id := o.(rules := o.rules + (if first then {owner} else {})
                                                   + (if second then {Signal(text)} else {}))]
            && (opens ==> ProxyFilter(id) in s'.led.filters)
            && s' == s.(led := s'.led, objs := s'.objs)
  {
    SignalOutcome(s.led, id, s.objs[id], text, env);
  }

  /** A name is released exactly if it was owned and the daemon lets go of it. */
  lemma NameReleased(s: System, name: string, env: Env)
    requires s.led.connected
    ensures var s' := Step(s, ReleaseName(name, env));
            && s'.led.owned == (if name in env.keeps then s.led.owned else s.led.owned - {name})
            && s' == s.(led := s.led.(owned := s'.led.owned))
  {}

  /** Requesting a name tells whether the bus owns it then: it owned it before, or the daemon grants it. */
  lemma NameTold(s: System, name: string, env: Env)
    requires DQ(s) != [] && DQ(s)[0] == RequestName(name)
    ensures var s', opens := Step(s, RunDBus(env)), s.led.connected || env.connect == Opened;
            && s'.oq == OriginQueue(s) + [ResultNotice(opens && (name in s.led.owned || env.grants))]
            && s'.led.owned == (if opens && env.grants then s.led.owned + {name} else s.led.owned)
  {
    OwnershipOutcome(s.led, name, env);
  }

  /** Removing a proxy runs its client's callback; dropping an exported object has none. */
  lemma RemovalTold(s: System, id: nat, env: Env)
    requires DQ(s) != [] && DQ(s)[0] == Drop(id) && id < |s.objs|
    ensures Step(s, RunDBus(env)).oq
         == OriginQueue(s) + (if s.objs[id].key.ProxyKey? then [RemovedNotice] else [])
  {}

  // ----- method calls -----

  /** A call is handed over exactly if it is a method call of an exported method with an interface; the task for the
      origin thread carries its number. Without a D-Bus thread it goes to the callback at once. */
  lemma CallHandedOver(s: System, id: nat, m: Incoming, env: Env)
    requires Enabled(s, Dispatch(id, m, env))
    ensures var s' := Step(s, Dispatch(id, m, env));
            var taken := m.isMethodCall && m.interface != "" && m.interface + "." + m.member in s.objs[id].methods;
            && (!taken ==> s' == s)
            && (taken && s.hasThread ==> s' == s.(handled := s.handled + 1, oq := s.oq + [RunMethod(s.handled)]))
            && (taken && !s.hasThread && !env.cancelled ==>
                  s' == s.(handled := s.handled + 1, senders := s.senders + multiset{s.handled}))
            && (taken && !s.hasThread && env.cancelled ==>
                  s' == s.(handled := s.handled + 1, replies := s.replies + [Reply(s.handled, UnknownMethod)]))
  {
    assert s.senders + multiset{s.handled} == s.senders[s.handled := s.senders[s.handled] + 1];
  }

  /** On the origin thread the callback gets a response sender, or, if it was cancelled, the call is answered with the
      unknown-method error by way of the D-Bus thread. */
  lemma CallbackRun(s: System, call: nat, env: Env)
    requires s.hasThread && s.oq != [] && s.oq[0] == RunMethod(call)
    ensures Step(s, RunOrigin(env))
         == if env.cancelled then s.(oq := s.oq[1..], dq := s.dq + [Complete(call, Some(UnknownMethod))])
            else s.(oq := s.oq[1..], senders := s.senders + multiset{call})
  {
    assert s.senders + multiset{call} == s.senders[call := s.senders[call] + 1];
  }

  /** Running a completion while the bus is connected sends exactly one reply: the Failed error for a null response, the
      response itself otherwise. Only without a connection is the call dropped. */
  lemma CompletionReplies(s: System, call: nat, response: Option<Answer>, env: Env)
    requires DQ(s) != [] && DQ(s)[0] == Complete(call, response)
    ensures var s' := Step(s, RunDBus(env));
            && (s.led.connected ==>
                  && s'.dropped == s.dropped
                  && s'.replies == s.replies + [Reply(call, match response case None => Failed case Some(x) => x)])
            && (!s.led.connected ==> s'.replies == s.replies && s'.dropped == s.dropped + multiset{call})
  {
    assert s.dropped + multiset{call} == s.dropped[call := s.dropped[call] + 1];
  }

  /** A client that answers hands its response to the D-Bus thread; without one the reply is sent at once. */
  lemma ResponseHandedOn(s: System, call: nat, response: Option<Answer>)
    requires call in s.senders
    ensures var s', senders := Step(s, Respond(call, response)), s.senders - multiset{call};
            && (s.hasThread ==> s' == s.(senders := senders, dq := s.dq + [Complete(call, response)]))
            && (!s.hasThread && s.led.connected ==>
                  s' == s.(senders := senders,
                           replies := s.replies + [Reply(call, match response case None => Failed case Some(x) => x)]))
            && (!s.hasThread && !s.led.connected ==>
                  s' == s.(senders := senders, dropped := s.dropped + multiset{call}))
  {
    assert s.senders - multiset{call} == s.senders[call := s.senders[call] - 1];
    assert s.dropped + multiset{call} == s.dropped[call := s.dropped[call] + 1];
  }

  // ----- over whole runs: before a shutdown no reply is dropped -----

  /** Only a connected bus has taken calls, and it has dropped none. */
  ghost predicate Answering(s: System) {
    !s.done ==> s.dropped == multiset{} && (s.led.connected || (s.led == EMPTY && s.handled == 0))
  }

  lemma CoreEffectConnected(l: Ledger, objs: seq<Obj>, t: Task, env: Env)
    requires Fits(objs, t) && l.connected
    ensures CoreEffect(l, objs, t, env).0.connected
  {
    if t.Use? && t.op.SignalOp? { SignalOutcome(l, t.obj, objs[t.obj], t.op.text, env); }
  }

  /** A task that is no shutdown drops nothing while the bus is connected, and leaves it so. */
  lemma TaskStaysConnected(s: System, t: Task, env: Env)
    requires s.led.connected && !t.Shutdown?
    ensures var s' := Effect(s, t, env); s'.led.connected && s'.dropped == s.dropped
  {
    if !t.Complete? && !t.RunMethod? && Fits(s.objs, t) { CoreEffectConnected(s.led, s.objs, t, env); }
  }

  lemma StaysConnected(s: System, a: Action)
    requires Enabled(s, a) && s.led.connected && !G.Shuts(s, a) && G.Queues(s)
    ensures var s' := Step(s, a); s'.led.connected && s'.dropped == s.dropped
  {
    if a.RunOrigin? {
      assert s.oq[0] in s.oq;
      TaskStaysConnected(s.(oq := s.oq[1..]), s.oq[0], a.env);
    } else if a.RunDBus? {
      TaskStaysConnected(Popped(s), DQ(s)[0], a.env);
    } else if a.ConnectNow? {
      CoreEffectConnected(s.led, s.objs, Use(a.obj, SignalOp(a.text)), a.env);
    }
  }

  /** A bus that took no call has none to drop. */
  lemma NothingToDrop(s: System, a: Action)
    requires Enabled(s, a) && !s.led.connected && s.handled == 0 && Accounted(s, None) == 0
    ensures Step(s, a).handled == 0 && Step(s, a).dropped == s.dropped
  {
    if a.RunDBus? {
      assert CallOf(DQ(s)[0], None) == 0;
      NoCallNoDrop(Popped(s), DQ(s)[0], a.env);
    } else if a.RunOrigin? {
      assert CallOf(s.oq[0], None) == 0;
      NoCallNoDrop(s.(oq := s.oq[1..]), s.oq[0], a.env);
    }
  }

  lemma NoCallNoDrop(s: System, t: Task, env: Env)
    requires !t.Complete? && !t.RunMethod?
    ensures Effect(s, t, env).handled == s.handled && Effect(s, t, env).dropped == s.dropped
  {}

  lemma StepAnswering(s: System, a: Action)
    requires Enabled(s, a) && Answering(s) && G.Queues(s) && Accounted(s, None) == s.handled
    ensures Answering(Step(s, a))
  {
    if !s.done && !G.Shuts(s, a) {
      S.StepUnbroken(s, a);
      if s.led.connected { StaysConnected(s, a); } else { NothingToDrop(s, a); }
    }
  }

  lemma {:induction false} RunAnswering(s: System, actions: seq<Action>)
    requires Legal(s, actions) && Answering(s) && G.Queues(s) && Accounted(s, None) == s.handled
    ensures Answering(Run(s, actions))
    decreases |actions|
  {
    if actions != [] {
      StepAnswering(s, actions[0]);
      G.StepKeepsQueues(s, actions[0]);
      StepConserves(s, actions[0], None);
      RunAnswering(Step(s, actions[0]), actions[1..]);
    }
  }

  /** On every run no reply is dropped before a shutdown. */
  lemma NoneDroppedBeforeShutdown(hasThread: bool, actions: seq<Action>)
    requires Legal(Start(hasThread), actions)
    ensures !Run(Start(hasThread), actions).done ==> Run(Start(hasThread), actions).dropped == multiset{}
  {
    StartAccounts(hasThread, None);
    RunAnswering(Start(hasThread), actions);
  }

  lemma {:induction false} SomeReplyTo(replies: seq<Reply>, call: nat)
    requires Replied(replies, Some(call)) > 0
    ensures exists r :: r in replies && r.call == call
  {
    if replies[0].call != call {
      SomeReplyTo(replies[1..], call);
      var r :| r in replies[1..] && r.call == call;
      assert r in replies;
    }
  }

  /** On every run: once a client has answered, its answer is sent, to that call and only once, as soon as nothing about
      the call is queued any more, unless the bus is shut down by then. */
  lemma ResponseSent(hasThread: bool, before: seq<Action>, call: nat, response: Option<Answer>, after: seq<Action>)
    requires Legal(Start(hasThread), before)
    requires var s := Run(Start(hasThread), before);
             Enabled(s, Respond(call, response)) && Legal(Step(s, Respond(call, response)), after)
    ensures var s := Run(Step(Run(Start(hasThread), before), Respond(call, response)), after);
            !s.done && Calls(s.dq, Some(call)) == Calls(s.oq, Some(call)) == 0 ==>
              && Reply(call, match response case None => Failed case Some(x) => x) in s.replies
              && Replied(s.replies, Some(call)) == 1
  {
    var s0, a := Run(Start(hasThread), before), Respond(call, response);
    var s := Run(Step(s0, a), after);
    RespondAnswers(hasThread, before, call, response, after);
    StepThenRun(s0, a, after);
    RunThen(Start(hasThread), before, [a] + after);
    NoneDroppedBeforeShutdown(hasThread, before + ([a] + after));
    if !s.done && Calls(s.dq, Some(call)) == Calls(s.oq, Some(call)) == 0 {
      SomeReplyTo(s.replies, call);
      var r :| r in s.replies && r.call == call;
      assert r == Reply(call, r.answer);
    }
  }
}
