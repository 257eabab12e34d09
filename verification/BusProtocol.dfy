/** The two-thread protocol of Bus and ExportedObject: an origin thread and a D-Bus thread that exchange
    tasks over FIFO queues (dbus/bus.cc:879-889), as a step function over `System`. Which thread moves, what
    clients ask for and every reply of libdbus are in the `Action`, so a sequence of actions is one interleaving. */
module BusProtocol {
  import opened Wrappers
  import opened BusLedger

  datatype UseOp = ExportOp(name: string, callback: nat) | SignalOp(text: string)

  datatype Task =
    // D-Bus thread
    | Use(obj: nat, op: UseOp)                   // ExportMethodInternal, ConnectToSignalInternal
    | Drop(obj: nat)                             // UnregisterExportedObjectInternal, RemoveObjectProxyInternal
    | Unexport(obj: nat, name: string)
    | RequestName(name: string)
    | ListenTask(service: string, callback: nat)
    | UnlistenTask(service: string, callback: nat)
    | Shutdown
    | Complete(call: nat, response: Option<Answer>)   // OnMethodCompleted
    // origin thread
    | RunMethod(call: nat)
    | OwnerNotice(callback: nat, owner: string)
    | ResultNotice(ok: bool)                     // the result callback of a request
    | RemovedNotice                              // the callback of RemoveObjectProxy

  /** A response: the error for a cancelled callback, the error for a null response, or the client's message. */
  datatype Answer = UnknownMethod | Failed | Message(payload: nat)

  datatype Reply = Reply(call: nat, answer: Answer)

  datatype Incoming = Incoming(isMethodCall: bool, interface: string, member: string)

  /** `hasThread` is HasDBusThread(). Without a D-Bus thread both task runners are the origin one, so every
      task goes to `oq`. `ran` lists the tasks taken from the queue that carries D-Bus tasks, `handled` numbers
      the method calls answered HANDLED, `replies` and `dropped` are the calls answered and not answered. */
  datatype System = System(
    hasThread: bool,
    led: Ledger,
    objs: seq<Obj>,
    table: map<Key, nat>,
    ran: seq<Task>, dq: seq<Task>, oq: seq<Task>,
    done: bool,
    handled: nat, senders: multiset<nat>, replies: seq<Reply>, dropped: multiset<nat>)

  function Start(hasThread: bool): System {
    System(hasThread, EMPTY, [], map[], [], [], [], false, 0, multiset{}, [], multiset{})
  }

  /** The queue that carries D-Bus tasks, and all D-Bus tasks ever posted, in posting order. */
  function DQ(s: System): seq<Task> { if s.hasThread then s.dq else s.oq }
  function Posted(s: System): seq<Task> { s.ran + DQ(s) }

  function PostD(s: System, t: Task): System {
    if s.hasThread then s.(dq := s.dq + [t]) else s.(oq := s.oq + [t])
  }
  function PostO(s: System, t: Task): System { s.(oq := s.oq + [t]) }

  function Keys(objs: seq<Obj>): seq<Key> { seq(|objs|, i requires 0 <= i < |objs| => objs[i].key) }

  /** The object is in its table, which is to say that no client dropped it. */
  predicate Listed(keys: seq<Key>, table: map<Key, nat>, a: nat) {
    a < |keys| && keys[a] in table && table[keys[a]] == a
  }
  predicate InTable(s: System, a: nat) { Listed(Keys(s.objs), s.table, a) }

  // ----- method calls -----

  /** What OnMethodCompleted sends for a response. */
  function Wire(response: Option<Answer>): Answer { if response.None? then Failed else response.value }

  function CompleteNow(s: System, call: nat, response: Option<Answer>): System {
    if !s.led.connected then s.(dropped := s.dropped[call := s.dropped[call] + 1])
    else s.(replies := s.replies + [Reply(call, Wire(response))])
  }

  function SendResponse(s: System, call: nat, response: Option<Answer>): System {
    if s.hasThread then PostD(s, Complete(call, response)) else CompleteNow(s, call, response)
  }

  function RunMethodNow(s: System, call: nat, env: Env): System {
    if env.cancelled then SendResponse(s, call, Some(UnknownMethod))
    else s.(senders := s.senders[call := s.senders[call] + 1])
  }

  function HandleMessage(s: System, id: nat, m: Incoming, env: Env): System
    requires id < |s.objs|
  {
    if !m.isMethodCall || m.interface == "" || m.interface + "." + m.member !in s.objs[id].methods then s
    else
      HandOver(s.(handled := s.handled + 1), s.handled, env)
  }

  /** RunMethod is posted to the origin thread, or runs at once if there is no other thread. */
  function HandOver(s: System, call: nat, env: Env): System {
    if s.hasThread then PostO(s, RunMethod(call)) else RunMethodNow(s, call, env)
  }

  // ----- tasks that touch the ledgers -----

  predicate Fits(objs: seq<Obj>, t: Task) {
    && (t.Use? || t.Drop? || t.Unexport? ==> t.obj < |objs|)
    && (t.Use? ==> t.op.ExportOp? == objs[t.obj].key.ExportedKey?)
  }

  function CoreEffect(l: Ledger, objs: seq<Obj>, t: Task, env: Env): (Ledger, seq<Obj>)
    requires Fits(objs, t)
  {
    match t
    case Use(id, ExportOp(name, callback)) =>
      var r := Export(l, objs[id], name, callback, env); (r.0, objs[id := r.1])
    case Use(id, SignalOp(text)) =>
      var r := ConnectSignal(l, id, objs[id], text, env); (r.0, objs[id := r.1])
    case Drop(id) => var r := Release(l, id, objs[id]); (r.0, objs[id := r.1])
    case Unexport(id, name) => (l, objs[id := objs[id].(methods := objs[id].methods - {name})])
    case RequestName(name) => (RequestOwnership(l, name, env), objs)
    case ListenTask(service, callback) => (Listen(l, service, callback, env), objs)
    case UnlistenTask(service, callback) => (Unlisten(l, service, callback), objs)
    case _ => (l, objs)
  }

  /** Unregister or Detach one object. */
  function ReleaseOne(r: (Ledger, seq<Obj>), a: nat): (q: (Ledger, seq<Obj>))
    requires a < |r.1|
    ensures |q.1| == |r.1|
  {
    var q := Release(r.0, a, r.1[a]);
    (q.0, r.1[a := q.1])
  }

  /** Unregister or Detach every object of the tables, the first `n` objects. */
  function ReleaseTable(s: System, n: nat): (r: (Ledger, seq<Obj>))
    requires n <= |s.objs|
    ensures |r.1| == |s.objs|
  {
    if n == 0 then (s.led, s.objs)
    else
      var r := ReleaseTable(s, n - 1);
      if InTable(s, n - 1) then ReleaseOne(r, n - 1) else r
  }

  function Disconnect(l: Ledger): Ledger {
    if !l.connected then l
    else RemoveMatch(l.(filters := l.filters - {DisconnectedFilter}), Disconnected).(connected := false)
  }

  /** ShutdownAndBlock. Names in `env.keeps` are the ones the daemon does not release. */
  function ShutdownNow(s: System, env: Env): System {
    if s.done then s
    else
      var r := ReleaseTable(s, |s.objs|);
      s.(led := Disconnect(r.0.(owned := r.0.owned * env.keeps)), objs := r.1, table := map[], done := true)
  }

  /** The result a request reports to its client. */
  predicate Told(l: Ledger, objs: seq<Obj>, t: Task, env: Env)
    requires Fits(objs, t)
  {
    match t
    case Use(id, ExportOp(name, callback)) => Export(l, objs[id], name, callback, env).2
    case Use(id, SignalOp(text)) =>
      ConnectOk(l, env)
      && {OwnerChanged(objs[id].key.service), Signal(text)} <= ConnectSignal(l, id, objs[id], text, env).1.rules
    case Unexport(id, name) => name in objs[id].methods
    case RequestName(name) => ConnectOk(l, env) && name in RequestOwnership(l, name, env).owned
    case _ => true
  }

  function Notice(l: Ledger, objs: seq<Obj>, t: Task, env: Env): Task
    requires Fits(objs, t)
  {
    if t.Drop? then RemovedNotice else ResultNotice(Told(l, objs, t, env))
  }

  /** The requests whose result, or the removals of a proxy whose callback, is posted to the origin thread. */
  predicate Answers(objs: seq<Obj>, t: Task)
    requires Fits(objs, t)
  {
    t.Use? || t.Unexport? || t.RequestName? || (t.Drop? && objs[t.obj].key.ProxyKey?)
  }

  function Effect(s: System, t: Task, env: Env): System {
    match t
    case Shutdown => ShutdownNow(s, env)
    case Complete(call, response) => CompleteNow(s, call, response)
    case RunMethod(call) => RunMethodNow(s, call, env)
    case _ =>
      if !Fits(s.objs, t) then s
      else
        var r := CoreEffect(s.led, s.objs, t, env);
        var s' := s.(led := r.0, objs := r.1);
        if Answers(s.objs, t) then PostO(s', Notice(s.led, s.objs, t, env)) else s'
  }

  /** Running a task posts at most one task of its own: the result of a request, or the answer to a cancelled call. */
  lemma EffectPosts(s: System, t: Task, env: Env)
    ensures var s' := Effect(s, t, env);
            && s'.ran == s.ran && s'.hasThread == s.hasThread
            && (s'.oq == s.oq || (Fits(s.objs, t) && s'.oq == s.oq + [Notice(s.led, s.objs, t, env)]))
            && (s'.dq == s.dq
                || (s.hasThread && t.RunMethod? && s'.dq == s.dq + [Complete(t.call, Some(UnknownMethod))]))
  {
    match t
    case Complete(call, response) => CompletePosts(s, call, response);
    case RunMethod(call) => CompletePosts(s, call, Some(UnknownMethod));
    case _ =>
  }

  lemma CompletePosts(s: System, call: nat, response: Option<Answer>)
    ensures var s' := CompleteNow(s, call, response); s' == s.(replies := s'.replies, dropped := s'.dropped)
  {}

  // ----- actions -----

  datatype Action =
    // the origin thread and its clients
    | GetObject(key: Key)                        // GetExportedObject, GetObjectProxyWithOptions
    | DropObject(key: Key)                       // UnregisterExportedObject, RemoveObjectProxyWithOptions
    | Post(task: Task)                           // every other request a client makes of the D-Bus thread
    | ConnectNow(obj: nat, text: string, env: Env)    // ConnectToSignal without a D-Bus thread
    | Respond(call: nat, response: Option<Answer>)    // a client runs its ResponseSender
    | RunOrigin(env: Env)
    // the D-Bus thread
    | RunDBus(env: Env)
    | Dispatch(obj: nat, message: Incoming, env: Env)
    | OwnerChange(service: string, owner: string)
    | ReleaseName(name: string, env: Env)
    | ShutdownDirectly(env: Env)                 // ShutdownAndBlock called outside the queue

  /** ExportMethod, ConnectToSignal, UnexportMethod, RequestOwnership, (Un)ListenForServiceOwnerChange,
      and ShutdownOnDBusThreadAndBlock, which demands a D-Bus thread. ConnectToSignal posts a task only if there
      is such a thread; otherwise it connects at once. */
  predicate Request(s: System, t: Task) {
    && (t.Use? || t.Unexport? || t.RequestName? || t.ListenTask? || t.UnlistenTask? || t.Shutdown?)
    && Fits(s.objs, t)
    && (t.Shutdown? || (t.Use? && t.op.SignalOp?) ==> s.hasThread)
  }

  predicate Enabled(s: System, a: Action) {
    match a
    case Post(t) => Request(s, t)
    case ConnectNow(id, text, _) => !s.hasThread && Fits(s.objs, Use(id, SignalOp(text)))
    case Respond(call, _) => call in s.senders
    case RunOrigin(_) => s.hasThread && s.oq != []
    case RunDBus(_) => DQ(s) != []
    case Dispatch(id, _, _) => id < |s.objs| && s.objs[id].registered && s.led.connected
    case ReleaseName(_, _) => s.led.connected
    case _ => true
  }

  function Notices(callbacks: seq<nat>, owner: string): seq<Task> {
    seq(|callbacks|, i requires 0 <= i < |callbacks| => OwnerNotice(callbacks[i], owner))
  }

  /** One task for each callback, from the first to the last, behind what was queued. */
  ghost predicate Notifies(queue: seq<Task>, queue': seq<Task>, callbacks: seq<nat>, owner: string) {
    && |queue'| == |queue| + |callbacks| && queue'[..|queue|] == queue
    && forall i | 0 <= i < |callbacks| :: queue'[|queue| + i] == OwnerNotice(callbacks[i], owner)
  }

  function Step(s: System, a: Action): System
    requires Enabled(s, a)
  {
    match a
    case GetObject(key) =>
      if key in s.table then s else s.(objs := s.objs + [NewObj(key)], table := s.table[key := |s.objs|])
    case DropObject(key) =>
      if key !in s.table then s else PostD(s.(table := s.table - {key}), Drop(s.table[key]))
    case Post(t) => PostD(s, t)
    case ConnectNow(id, text, env) =>
      var r := CoreEffect(s.led, s.objs, Use(id, SignalOp(text)), env); s.(led := r.0, objs := r.1)
    case Respond(call, response) => SendResponse(s.(senders := s.senders[call := s.senders[call] - 1]), call, response)
    case RunOrigin(env) => Effect(s.(oq := s.oq[1..]), s.oq[0], env)
    case RunDBus(env) => Effect(Popped(s), DQ(s)[0], env)
    case Dispatch(id, message, env) => HandleMessage(s, id, message, env)
    case OwnerChange(service, owner) =>
      if service in s.led.listeners then s.(oq := s.oq + Notices(s.led.listeners[service], owner)) else s
    case ReleaseName(name, env) => s.(led := ReleaseOwnership(s.led, name, env))
    case ShutdownDirectly(env) => ShutdownNow(s, env)
  }

  function Popped(s: System): System
    requires DQ(s) != []
  {
    if s.hasThread then s.(ran := s.ran + [s.dq[0]], dq := s.dq[1..])
    else s.(ran := s.ran + [s.oq[0]], oq := s.oq[1..])
  }

  /** One interleaving: every action is possible where it is taken. */
  ghost predicate Legal(s: System, actions: seq<Action>)
    decreases |actions|
  {
    actions == [] || (Enabled(s, actions[0]) && Legal(Step(s, actions[0]), actions[1..]))
  }

  function Run(s: System, actions: seq<Action>): System
    requires Legal(s, actions)
    decreases |actions|
  {
    if actions == [] then s else Run(Step(s, actions[0]), actions[1..])
  }

  lemma StepThenRun(s: System, a: Action, rest: seq<Action>)
    requires Enabled(s, a) && Legal(Step(s, a), rest)
    ensures Legal(s, [a] + rest) && Run(s, [a] + rest) == Run(Step(s, a), rest)
  {
    assert ([a] + rest)[1..] == rest;
  }

  /** A run and another one behind it. */
  lemma {:induction false} RunThen(s: System, first: seq<Action>, second: seq<Action>)
    requires Legal(s, first) && Legal(Run(s, first), second)
    ensures Legal(s, first + second) && Run(s, first + second) == Run(Run(s, first), second)
    decreases |first|
  {
    if first == [] {
      assert first + second == second;
    } else {
      RunThen(Step(s, first[0]), first[1..], second);
      StepThenRun(s, first[0], first[1..] + second);
      Associative([first[0]], first[1..], second);
      assert [first[0]] + first[1..] == first;
    }
  }

  lemma RunOne(s: System, a: Action)
    requires Enabled(s, a)
    ensures Legal(s, [a]) && Run(s, [a]) == Step(s, a)
  {
    StepThenRun(s, a, []);
  }

  lemma RunTwo(s: System, a: Action, b: Action)
    requires Enabled(s, a) && Enabled(Step(s, a), b)
    ensures Legal(s, [a, b]) && Run(s, [a, b]) == Step(Step(s, a), b)
  {
    RunOne(Step(s, a), b);
    StepThenRun(s, a, [b]);
  }

  // ----- registered paths and match-rule counts, on every run -----

  lemma CoreEffectKeeps(l: Ledger, objs: seq<Obj>, t: Task, env: Env)
    requires CoreInv(l, objs) && Fits(objs, t)
    ensures var r := CoreEffect(l, objs, t, env); CoreInv(r.0, r.1)
  {
    match t
    case Use(id, ExportOp(name, callback)) => ExportKeeps(l, objs, id, name, callback, env);
    case Use(id, SignalOp(text)) => ConnectSignalKeeps(l, objs, id, text, env);
    case Drop(id) => ReleaseKeeps(l, objs, id);
    case Unexport(id, name) => UnexportKeeps(l, objs, id, name);
    case RequestName(name) => NamesKeep(l, objs, name, env);
    case ListenTask(service, callback) => ListenKeeps(l, objs, service, callback, env);
    case UnlistenTask(service, callback) => UnlistenKeeps(l, objs, service, callback);
    case _ =>
  }

  lemma UnexportKeeps(l: Ledger, objs: seq<Obj>, id: nat, name: string)
    requires CoreInv(l, objs) && id < |objs|
    ensures CoreInv(l, objs[id := objs[id].(methods := objs[id].methods - {name})])
  {
    var o := objs[id].(methods := objs[id].methods - {name});
    PathsSame(l.paths, objs, id, o);
    CountsUpdate(l, objs, l, id, o);
  }

  lemma NamesKeep(l: Ledger, objs: seq<Obj>, name: string, env: Env)
    requires CoreInv(l, objs)
    ensures CoreInv(RequestOwnership(l, name, env), objs)
    ensures CoreInv(ReleaseOwnership(l, name, env), objs)
  {
    ConnectKeeps(l, objs, env);
    OwnedIrrelevant(Connect(l, env), objs, RequestOwnership(l, name, env));
    OwnedIrrelevant(l, objs, ReleaseOwnership(l, name, env));
  }

  lemma OwnedIrrelevant(l: Ledger, objs: seq<Obj>, l': Ledger)
    requires CoreInv(l, objs) && l' == l.(owned := l'.owned)
    ensures CoreInv(l', objs)
  {
    CountsSameObjects(l, objs, l');
  }

  lemma NewObjectKeeps(l: Ledger, objs: seq<Obj>, key: Key)
    requires CoreInv(l, objs)
    ensures CoreInv(l, objs + [NewObj(key)])
  {
    PathsAppend(l.paths, objs, NewObj(key));
    forall r ensures Count(l.matches, r) == OwnHolds(l, r) + CountRule(objs + [NewObj(key)], r) {
      CountRuleAppend(objs, NewObj(key), r);
      assert Count(l.matches, r) == OwnHolds(l, r) + CountRule(objs, r);
    }
  }

  ghost predicate Sound(r: (Ledger, seq<Obj>)) {
    match r case (l, objs) => CoreInv(l, objs)
  }

  lemma {:induction false} ReleaseTableKeeps(s: System, n: nat)
    requires Sound((s.led, s.objs)) && n <= |s.objs|
    ensures Sound(ReleaseTable(s, n))
  {
    if n > 0 {
      ReleaseTableKeeps(s, n - 1);
      ReleaseNextKeeps(s, ReleaseTable(s, n - 1), n - 1);
    }
  }

  lemma ReleaseNextKeeps(s: System, r: (Ledger, seq<Obj>), a: nat)
    requires Sound(r) && a < |r.1|
    ensures Sound(if InTable(s, a) then ReleaseOne(r, a) else r)
  {
    ReleaseOneKeeps(r, a);
  }

  lemma ReleaseOneKeeps(r: (Ledger, seq<Obj>), a: nat)
    requires Sound(r) && a < |r.1|
    ensures Sound(ReleaseOne(r, a))
  {
    ReleaseKeeps(r.0, r.1, a);
  }

  lemma DisconnectKeeps(l: Ledger, objs: seq<Obj>)
    requires CoreInv(l, objs)
    ensures CoreInv(Disconnect(l), objs)
  {
    CountRuleZero(objs, Disconnected);
    assert Count(l.matches, Disconnected) == OwnHolds(l, Disconnected) + CountRule(objs, Disconnected);
    CountsSameObjects(l, objs, Disconnect(l));
  }

  lemma EffectKeepsCore(s: System, t: Task, env: Env)
    requires CoreInv(s.led, s.objs)
    ensures var s' := Effect(s, t, env); CoreInv(s'.led, s'.objs)
  {
    if t.Shutdown? {
      if !s.done {
        ReleaseTableKeeps(s, |s.objs|);
        var r := ReleaseTable(s, |s.objs|);
        var l := r.0.(owned := r.0.owned * env.keeps);
        OwnedIrrelevant(r.0, r.1, l);
        DisconnectKeeps(l, r.1);
      }
    } else if !t.Complete? && !t.RunMethod? && Fits(s.objs, t) {
      CoreEffectKeeps(s.led, s.objs, t, env);
    }
  }

  lemma StepKeepsCore(s: System, a: Action)
    requires CoreInv(s.led, s.objs) && Enabled(s, a)
    ensures var s' := Step(s, a); CoreInv(s'.led, s'.objs)
  {
    match a
    case GetObject(key) => NewObjectKeeps(s.led, s.objs, key);
    case ConnectNow(id, text, env) => ConnectSignalKeeps(s.led, s.objs, id, text, env);
    case RunOrigin(env) => EffectKeepsCore(s.(oq := s.oq[1..]), s.oq[0], env);
    case RunDBus(env) => EffectKeepsCore(Popped(s), DQ(s)[0], env);
    case ReleaseName(name, env) => NamesKeep(s.led, s.objs, name, env);
    case ShutdownDirectly(env) => EffectKeepsCore(s, Shutdown, env);
    case _ =>
  }

  lemma {:induction false} RunKeepsCore(s: System, actions: seq<Action>)
    requires CoreInv(s.led, s.objs) && Legal(s, actions)
    ensures var s' := Run(s, actions); CoreInv(s'.led, s'.objs)
    decreases |actions|
  {
    if actions != [] {
      StepKeepsCore(s, actions[0]);
      RunKeepsCore(Step(s, actions[0]), actions[1..]);
    }
  }

  lemma StartCore(hasThread: bool)
    ensures CoreInv(Start(hasThread).led, Start(hasThread).objs)
  {
    assert forall r :: Count(EMPTY.matches, r) == OwnHolds(EMPTY, r) + CountRule([], r);
  }

  /** On every run, disciplined or not: registered_object_paths_ is exactly the set of paths of registered
      objects, with one object a path, counting objects no longer in the table. */
  lemma RegisteredPathsExact(hasThread: bool, actions: seq<Action>)
    requires Legal(Start(hasThread), actions)
    ensures var s := Run(Start(hasThread), actions);
            && s.led.paths == (set i | 0 <= i < |s.objs| && s.objs[i].registered :: s.objs[i].key.path)
            && (forall i, j | 0 <= i < j < |s.objs| && s.objs[i].registered && s.objs[j].registered
                  :: s.objs[i].key.path != s.objs[j].key.path)
  {
    StartCore(hasThread);
    RunKeepsCore(Start(hasThread), actions);
    var s := Run(Start(hasThread), actions);
    assert forall i | 0 <= i < |s.objs| && s.objs[i].registered :: s.objs[i].key == ExportedKey(s.objs[i].key.path);
  }

  /** On every run the stored count of every match rule is the number of its holders: the connection, the
      listeners of the service, the proxies, and the refused additions. */
  lemma MatchCountsExact(hasThread: bool, actions: seq<Action>, rule: Rule)
    requires Legal(Start(hasThread), actions)
    ensures var s := Run(Start(hasThread), actions);
            && Count(s.led.matches, rule) == OwnHolds(s.led, rule) + CountRule(s.objs, rule)
            && (rule in s.led.matches <==> OwnHolds(s.led, rule) + CountRule(s.objs, rule) > 0)
  {
    StartCore(hasThread);
    RunKeepsCore(Start(hasThread), actions);
  }
}
