/** Conservation of method calls: on every run, every call an exported object answered HANDLED is replied to,
    dropped because the bus was disconnected, or still in flight, and exactly once. */
module BusReplies {
  import opened Wrappers
  import opened BusLedger
  import opened BusProtocol

  /** Which calls to count: one call, or all of them. */
  type Which = Option<nat>

  function One(call: nat, w: Which): nat { if w == None || w == Some(call) then 1 else 0 }

  function CallOf(t: Task, w: Which): nat { if t.Complete? || t.RunMethod? then One(t.call, w) else 0 }

  /** The calls held by the tasks of a queue. */
  function Calls(q: seq<Task>, w: Which): nat {
    if q == [] then 0 else CallOf(q[0], w) + Calls(q[1..], w)
  }

  function Replied(replies: seq<Reply>, w: Which): nat {
    if replies == [] then 0 else One(replies[0].call, w) + Replied(replies[1..], w)
  }

  function Times(m: multiset<nat>, w: Which): nat { if w.None? then |m| else m[w.value] }

  /** In a response sender not yet used, in a queued RunMethod, or in a queued OnMethodCompleted. */
  function InFlight(s: System, w: Which): nat { Times(s.senders, w) + Calls(s.dq, w) + Calls(s.oq, w) }

  function Accounted(s: System, w: Which): nat { Replied(s.replies, w) + Times(s.dropped, w) + InFlight(s, w) }

  /** The calls answered HANDLED so far are numbered from 0. */
  function Handled(s: System, w: Which): nat {
    if w.None? then s.handled else if w.value < s.handled then 1 else 0
  }

  lemma {:induction false} CallsConcat(p: seq<Task>, q: seq<Task>, w: Which)
    ensures Calls(p + q, w) == Calls(p, w) + Calls(q, w)
  {
    if p == [] {
      assert p + q == q;
    } else {
      assert (p + q)[1..] == p[1..] + q;
      CallsConcat(p[1..], q, w);
    }
  }

  lemma CallsAppend(q: seq<Task>, t: Task, w: Which)
    ensures Calls(q + [t], w) == Calls(q, w) + CallOf(t, w)
  {
    CallsConcat(q, [t], w);
    assert [t][1..] == [];
  }

  lemma {:induction false} RepliedAppend(replies: seq<Reply>, r: Reply, w: Which)
    ensures Replied(replies + [r], w) == Replied(replies, w) + One(r.call, w)
  {
    if replies == [] {
      assert (replies + [r])[1..] == [];
    } else {
      assert (replies + [r])[1..] == replies[1..] + [r];
      RepliedAppend(replies[1..], r, w);
    }
  }

  lemma {:induction false} NoticesHoldNoCall(callbacks: seq<nat>, owner: string, w: Which)
    ensures Calls(Notices(callbacks, owner), w) == 0
  {
    if callbacks != [] {
      assert Notices(callbacks, owner)[1..] == Notices(callbacks[1..], owner);
      NoticesHoldNoCall(callbacks[1..], owner, w);
    }
  }

  lemma CompleteAccounts(s: System, call: nat, response: Option<Answer>, w: Which)
    ensures Accounted(CompleteNow(s, call, response), w) == Accounted(s, w) + One(call, w)
  {
    RepliedAppend(s.replies, Reply(call, Wire(response)), w);
  }

  lemma SendAccounts(s: System, call: nat, response: Option<Answer>, w: Which)
    ensures Accounted(SendResponse(s, call, response), w) == Accounted(s, w) + One(call, w)
  {
    CompleteAccounts(s, call, response, w);
    CallsAppend(s.dq, Complete(call, response), w);
  }

  lemma RunMethodAccounts(s: System, call: nat, env: Env, w: Which)
    ensures Accounted(RunMethodNow(s, call, env), w) == Accounted(s, w) + One(call, w)
  {
    SendAccounts(s, call, Some(UnknownMethod), w);
  }

  /** Running a task hands on exactly the call it holds. */
  lemma EffectAccounts(s: System, t: Task, env: Env, w: Which)
    ensures Accounted(Effect(s, t, env), w) == Accounted(s, w) + CallOf(t, w)
    ensures Effect(s, t, env).handled == s.handled
  {
    match t
    case Complete(call, response) => CompleteAccounts(s, call, response, w);
    case RunMethod(call) => RunMethodAccounts(s, call, env, w);
    case Shutdown =>
    case _ => ResultAccounts(s, t, env, w);
  }

  lemma ResultAccounts(s: System, t: Task, env: Env, w: Which)
    requires !t.Complete? && !t.RunMethod? && !t.Shutdown?
    ensures Accounted(Effect(s, t, env), w) == Accounted(s, w) + CallOf(t, w)
    ensures Effect(s, t, env).handled == s.handled
  {
    EffectPosts(s, t, env);
    NoticeAccounts(s, Effect(s, t, env), if Fits(s.objs, t) then Notice(s.led, s.objs, t, env) else RemovedNotice, w);
  }

  lemma NoticeAccounts(s: System, s': System, n: Task, w: Which)
    requires s' == s.(led := s'.led, objs := s'.objs, oq := s'.oq) && (s'.oq == s.oq || s'.oq == s.oq + [n])
    requires n.ResultNotice? || n.RemovedNotice?
    ensures Accounted(s', w) == Accounted(s, w)
  {
    CallsAppend(s.oq, n, w);
  }

  lemma PostAccounts(s: System, t: Task, w: Which)
    ensures Accounted(PostD(s, t), w) == Accounted(s, w) + CallOf(t, w)
  {
    CallsAppend(s.dq, t, w);
    CallsAppend(s.oq, t, w);
  }

  /** A message is refused, or becomes the next handled call. */
  lemma DispatchAccounts(s: System, s': System, env: Env, w: Which)
    requires s' == s || s' == HandOver(s.(handled := s.handled + 1), s.handled, env)
    ensures Accounted(s', w) - Handled(s', w) == Accounted(s, w) - Handled(s, w)
  {
    var h := s.(handled := s.handled + 1);
    assert Accounted(h, w) == Accounted(s, w) && Handled(h, w) == Handled(s, w) + One(s.handled, w);
    HandOverAccounts(h, s.handled, env, w);
  }

  lemma HandOverAccounts(s: System, call: nat, env: Env, w: Which)
    ensures Accounted(HandOver(s, call, env), w) == Accounted(s, w) + One(call, w)
    ensures HandOver(s, call, env).handled == s.handled
  {
    if s.hasThread { CallsAppend(s.oq, RunMethod(call), w); } else { RunMethodAccounts(s, call, env, w); }
  }

  /** Taking a task off a queue and running it. */
  lemma RunTaskAccounts(s: System, a: Action, w: Which)
    requires Enabled(s, a) && (a.RunOrigin? || a.RunDBus?)
    ensures Accounted(Step(s, a), w) == Accounted(s, w) && Step(s, a).handled == s.handled
  {
    if a.RunOrigin? {
      EffectAccounts(s.(oq := s.oq[1..]), s.oq[0], a.env, w);
    } else {
      assert Accounted(Popped(s), w) + CallOf(DQ(s)[0], w) == Accounted(s, w);
      EffectAccounts(Popped(s), DQ(s)[0], a.env, w);
    }
  }

  lemma RespondAccounts(s: System, call: nat, response: Option<Answer>, w: Which)
    requires call in s.senders
    ensures Accounted(Step(s, Respond(call, response)), w) == Accounted(s, w)
    ensures Step(s, Respond(call, response)).handled == s.handled
  {
    SendAccounts(s.(senders := s.senders[call := s.senders[call] - 1]), call, response, w);
  }

  lemma OwnerChangeAccounts(s: System, service: string, owner: string, w: Which)
    ensures Accounted(Step(s, OwnerChange(service, owner)), w) == Accounted(s, w)
  {
    if service in s.led.listeners {
      NoticesHoldNoCall(s.led.listeners[service], owner, w);
      CallsConcat(s.oq, Notices(s.led.listeners[service], owner), w);
    }
  }

  lemma StepConserves(s: System, a: Action, w: Which)
    requires Enabled(s, a)
    ensures Accounted(Step(s, a), w) - Handled(Step(s, a), w) == Accounted(s, w) - Handled(s, w)
  {
    match a
    case Respond(call, response) => RespondAccounts(s, call, response, w);
    case RunOrigin(_) => RunTaskAccounts(s, a, w);
    case RunDBus(_) => RunTaskAccounts(s, a, w);
    case Dispatch(_, _, env) => DispatchAccounts(s, Step(s, a), env, w);
    case OwnerChange(service, owner) => OwnerChangeAccounts(s, service, owner, w);
    case _ => ClientAccounts(s, a, w);
  }

  lemma ClientAccounts(s: System, a: Action, w: Which)
    requires Enabled(s, a)
    requires a.GetObject? || a.DropObject? || a.Post? || a.ConnectNow? || a.ReleaseName? || a.ShutdownDirectly?
    ensures Accounted(Step(s, a), w) - Handled(Step(s, a), w) == Accounted(s, w) - Handled(s, w)
  {
    if a.DropObject? {
      if a.key in s.table { PostAccounts(s.(table := s.table - {a.key}), Drop(s.table[a.key]), w); }
    } else if a.Post? {
      PostAccounts(s, a.task, w);
    } else {
      QuietAccounts(s, Step(s, a), w);
    }
  }

  lemma QuietAccounts(s: System, s': System, w: Which)
    requires s' == s.(led := s'.led, objs := s'.objs, table := s'.table, done := s'.done)
    ensures Accounted(s', w) - Handled(s', w) == Accounted(s, w) - Handled(s, w)
  {}

  lemma {:induction false} RunConserves(s: System, actions: seq<Action>, w: Which)
    requires Legal(s, actions)
    ensures Accounted(Run(s, actions), w) - Handled(Run(s, actions), w) == Accounted(s, w) - Handled(s, w)
    decreases |actions|
  {
    if actions != [] {
      StepConserves(s, actions[0], w);
      RunConserves(Step(s, actions[0]), actions[1..], w);
    }
  }

  lemma {:induction false} RepliedAt(replies: seq<Reply>, i: nat)
    requires i < |replies|
    ensures Replied(replies, Some(replies[i].call)) >= 1
  {
    if i > 0 { RepliedAt(replies[1..], i - 1); }
  }

  lemma {:induction false} RepliedTwice(replies: seq<Reply>, i: nat, j: nat)
    requires i < j < |replies| && replies[i].call == replies[j].call
    ensures Replied(replies, Some(replies[i].call)) >= 2
  {
    if i > 0 { RepliedTwice(replies[1..], i - 1, j - 1); } else { RepliedAt(replies[1..], j - 1); }
  }

  lemma {:induction false} RepliedAll(replies: seq<Reply>)
    ensures Replied(replies, None) == |replies|
  {
    if replies != [] { RepliedAll(replies[1..]); }
  }

  lemma AllAccounted(hasThread: bool, actions: seq<Action>, w: Which)
    requires Legal(Start(hasThread), actions)
    ensures Accounted(Run(Start(hasThread), actions), w) == Handled(Run(Start(hasThread), actions), w)
  {
    StartAccounts(hasThread, w);
    RunConserves(Start(hasThread), actions, w);
  }

  lemma StartAccounts(hasThread: bool, w: Which)
    ensures Accounted(Start(hasThread), w) == 0 == Handled(Start(hasThread), w)
  {}

  /** On every run, calls answered HANDLED = replies sent + replies dropped + calls in flight. */
  lemma RepliesConserved(hasThread: bool, actions: seq<Action>)
    requires Legal(Start(hasThread), actions)
    ensures var s := Run(Start(hasThread), actions);
            s.handled == |s.replies| + |s.dropped| + |s.senders| + Calls(s.dq, None) + Calls(s.oq, None)
  {
    AllAccounted(hasThread, actions, None);
    RepliedAll(Run(Start(hasThread), actions).replies);
  }

  /** On every run, no call gets two replies, and a call replied to is neither dropped nor in flight. */
  lemma AtMostOneReply(hasThread: bool, actions: seq<Action>, i: nat)
    requires Legal(Start(hasThread), actions) && i < |Run(Start(hasThread), actions).replies|
    ensures var s := Run(Start(hasThread), actions);
            var call := s.replies[i].call;
            && call < s.handled
            && (forall j | 0 <= j < |s.replies| && j != i :: s.replies[j].call != call)
            && call !in s.dropped && call !in s.senders && Calls(s.dq, Some(call)) == Calls(s.oq, Some(call)) == 0
  {
    var s := Run(Start(hasThread), actions);
    var call := s.replies[i].call;
    AllAccounted(hasThread, actions, Some(call));
    RepliedAt(s.replies, i);
    forall j | 0 <= j < |s.replies| && j != i ensures s.replies[j].call != call {
      if s.replies[j].call == call {
        RepliedTwice(s.replies, if i < j then i else j, if i < j then j else i);
      }
    }
  }

  // ----- the answer on the wire is the answer given -----

  predicate About(t: Task, call: nat) { (t.Complete? || t.RunMethod?) && t.call == call }

  /** A queue holds no task about the call but the one that sends x. */
  ghost predicate Carries(q: seq<Task>, call: nat, x: Answer) {
    forall t | t in q && About(t, call) :: t.Complete? && Wire(t.response) == x
  }

  /** Whatever is sent or will be sent for the call is x. */
  ghost predicate Only(s: System, call: nat, x: Answer) {
    && call < s.handled && call !in s.senders
    && (forall r | r in s.replies && r.call == call :: r.answer == x)
    && Carries(s.dq, call, x) && Carries(s.oq, call, x)
  }

  /** The call has been answered with x and with nothing else: that one answer is sent, dropped or queued. */
  ghost predicate AnsweredOnce(s: System, call: nat, x: Answer) {
    Only(s, call, x) && Accounted(s, Some(call)) == 1
  }

  lemma CarriesMore(q: seq<Task>, more: seq<Task>, call: nat, x: Answer)
    requires Carries(q, call, x) && Carries(more, call, x)
    ensures Carries(q + more, call, x)
  {}

  lemma SendOther(s: System, other: nat, response: Option<Answer>, call: nat, x: Answer)
    requires Only(s, call, x) && (other == call ==> Wire(response) == x)
    ensures Only(CompleteNow(s, other, response), call, x)
    ensures Only(SendResponse(s, other, response), call, x)
  {
    CarriesMore(s.dq, [Complete(other, response)], call, x);
  }

  lemma EffectKeepsOnly(s: System, t: Task, env: Env, call: nat, x: Answer)
    requires Only(s, call, x) && Carries([t], call, x)
    ensures Only(Effect(s, t, env), call, x)
  {
    assert t in [t];
    match t
    case Complete(other, response) => SendOther(s, other, response, call, x);
    case RunMethod(other) => SendOther(s, other, Some(UnknownMethod), call, x);
    case Shutdown =>
    case _ => NoticeKeepsOnly(s, t, env, call, x);
  }

  lemma NoticeKeepsOnly(s: System, t: Task, env: Env, call: nat, x: Answer)
    requires Only(s, call, x) && !t.Complete? && !t.RunMethod? && !t.Shutdown?
    ensures Only(Effect(s, t, env), call, x)
  {
    if Fits(s.objs, t) { CarriesMore(s.oq, [Notice(s.led, s.objs, t, env)], call, x); }
  }

  lemma DispatchKeepsOnly(s: System, id: nat, message: Incoming, env: Env, call: nat, x: Answer)
    requires Only(s, call, x) && id < |s.objs|
    ensures Only(HandleMessage(s, id, message, env), call, x)
  {
    var h := s.(handled := s.handled + 1);
    CarriesMore(s.oq, [RunMethod(s.handled)], call, x);
    SendOther(h, s.handled, Some(UnknownMethod), call, x);
  }

  lemma RunTaskKeepsOnly(s: System, a: Action, call: nat, x: Answer)
    requires Enabled(s, a) && Only(s, call, x) && (a.RunOrigin? || a.RunDBus?)
    ensures Only(Step(s, a), call, x)
  {
    if a.RunOrigin? {
      EffectKeepsOnly(s.(oq := s.oq[1..]), s.oq[0], a.env, call, x);
    } else {
      EffectKeepsOnly(Popped(s), DQ(s)[0], a.env, call, x);
    }
  }

  lemma StepKeepsOnly(s: System, a: Action, call: nat, x: Answer)
    requires Enabled(s, a) && Only(s, call, x)
    ensures Only(Step(s, a), call, x)
  {
    match a
    case DropObject(key) =>
      if key in s.table {
        CarriesMore(s.dq, [Drop(s.table[key])], call, x);
        CarriesMore(s.oq, [Drop(s.table[key])], call, x);
      }
    case Post(t) =>
      CarriesMore(s.dq, [t], call, x);
      CarriesMore(s.oq, [t], call, x);
    case Respond(other, response) =>
      SendOther(s.(senders := s.senders[other := s.senders[other] - 1]), other, response, call, x);
    case Dispatch(id, message, env) => DispatchKeepsOnly(s, id, message, env, call, x);
    case OwnerChange(service, owner) =>
      if service in s.led.listeners { CarriesMore(s.oq, Notices(s.led.listeners[service], owner), call, x); }
    case RunOrigin(_) => RunTaskKeepsOnly(s, a, call, x);
    case RunDBus(_) => RunTaskKeepsOnly(s, a, call, x);
    case _ =>
  }

  /** An answer is final: through every continuation it stays the one answer of the call. */
  lemma {:induction false} AnswerIsFinal(s: System, call: nat, x: Answer, actions: seq<Action>)
    requires Legal(s, actions) && AnsweredOnce(s, call, x)
    ensures AnsweredOnce(Run(s, actions), call, x)
    decreases |actions|
  {
    if actions != [] {
      StepKeepsOnly(s, actions[0], call, x);
      StepConserves(s, actions[0], Some(call));
      AnswerIsFinal(Step(s, actions[0]), call, x, actions[1..]);
    }
  }

  lemma {:induction false} NoTaskAbout(q: seq<Task>, call: nat, x: Answer)
    requires Calls(q, Some(call)) == 0
    ensures Carries(q, call, x)
  {
    if q != [] {
      NoTaskAbout(q[1..], call, x);
      assert q == [q[0]] + q[1..];
    }
  }

  lemma {:induction false} NoReplyTo(replies: seq<Reply>, call: nat)
    requires Replied(replies, Some(call)) == 0
    ensures forall r | r in replies :: r.call != call
  {
    if replies != [] {
      NoReplyTo(replies[1..], call);
      assert replies == [replies[0]] + replies[1..];
    }
  }

  /** The first answer to a call that nothing else accounts for. */
  lemma FirstAnswer(s: System, call: nat, response: Option<Answer>)
    requires call < s.handled && Accounted(s, Some(call)) == 0
    ensures AnsweredOnce(SendResponse(s, call, response), call, Wire(response))
  {
    NoTaskAbout(s.dq, call, Wire(response));
    NoTaskAbout(s.oq, call, Wire(response));
    NoReplyTo(s.replies, call);
    SendOther(s, call, response, call, Wire(response));
    SendAccounts(s, call, response, Some(call));
  }

  /** On every run: once a client has run its response sender, that response, or the Failed error for a null one, is
      the one answer of the call for ever, and any reply ever sent for the call carries it. */
  lemma RespondAnswers(
    hasThread: bool, before: seq<Action>, call: nat, response: Option<Answer>, after: seq<Action>)
    requires Legal(Start(hasThread), before)
    requires var s := Run(Start(hasThread), before);
             Enabled(s, Respond(call, response)) && Legal(Step(s, Respond(call, response)), after)
    ensures var s := Run(Step(Run(Start(hasThread), before), Respond(call, response)), after);
            var answer := match response case None => Failed case Some(x) => x;
            AnsweredOnce(s, call, answer) && (forall y :: Reply(call, y) in s.replies ==> y == answer)
  {
    var s := Run(Start(hasThread), before);
    AllAccounted(hasThread, before, Some(call));
    FirstAnswer(s.(senders := s.senders[call := s.senders[call] - 1]), call, response);
    AnswerIsFinal(Step(s, Respond(call, response)), call, Wire(response), after);
  }

  /** The action runs the callback of the call, and finds it cancelled: in its own task, or at once without a D-Bus
      thread. */
  predicate Cancels(s: System, a: Action, call: nat) {
    || (a.RunOrigin? && a.env.cancelled && s.oq != [] && s.oq[0] == RunMethod(call))
    || (a.Dispatch? && a.env.cancelled && !s.hasThread && a.obj < |s.objs| && call == s.handled
        && HandleMessage(s, a.obj, a.message, a.env).handled > call)
  }

  lemma CancelAnswers(s: System, a: Action, call: nat)
    requires Enabled(s, a) && Cancels(s, a, call) && Accounted(s, Some(call)) == Handled(s, Some(call))
    ensures AnsweredOnce(Step(s, a), call, UnknownMethod)
  {
    if a.RunOrigin? {
      FirstAnswer(s.(oq := s.oq[1..]), call, Some(UnknownMethod));
    } else {
      FirstAnswer(s.(handled := s.handled + 1), call, Some(UnknownMethod));
    }
  }

  /** On every run a call whose callback was cancelled has the UnknownMethod error as its one answer for ever. */
  lemma CancelledCallAnswered(hasThread: bool, before: seq<Action>, a: Action, call: nat, after: seq<Action>)
    requires Legal(Start(hasThread), before)
    requires var s := Run(Start(hasThread), before); Enabled(s, a) && Cancels(s, a, call) && Legal(Step(s, a), after)
    ensures var s := Run(Step(Run(Start(hasThread), before), a), after);
            && AnsweredOnce(s, call, UnknownMethod)
            && (forall y :: Reply(call, y) in s.replies ==> y == UnknownMethod)
  {
    var s := Run(Start(hasThread), before);
    AllAccounted(hasThread, before, Some(call));
    CancelAnswers(s, a, call);
    AnswerIsFinal(Step(s, a), call, UnknownMethod, after);
  }

  // ----- a reply that is dropped -----

  /** Without a D-Bus thread: export a method, take a call, shut down, and only then answer. */
  function AnswerBehindShutdown(path: string, m: Incoming, response: Option<Answer>, env: Env): seq<Action> {
    [GetObject(ExportedKey(path)), Post(Use(0, ExportOp(m.interface + "." + m.member, 0))), RunDBus(env)]
    + [Dispatch(0, m, env), ShutdownDirectly(env), Respond(0, response)]
  }

  /** The answer is dropped, and nothing is left in flight. */
  lemma AnswerDropped(path: string, m: Incoming, response: Option<Answer>, env: Env)
    requires m.isMethodCall && m.interface != "" && env.connect.Opened? && env.registers && !env.cancelled
    ensures var actions := AnswerBehindShutdown(path, m, response, env);
            && Legal(Start(false), actions)
            && var s := Run(Start(false), actions);
               s.handled == 1 && s.replies == [] && s.dropped == multiset{0} && InFlight(s, None) == 0
  {
    var name := m.interface + "." + m.member;
    ExportRuns(path, name, env);
    var first := [GetObject(ExportedKey(path)), Post(Use(0, ExportOp(name, 0))), RunDBus(env)];
    var s := Run(Start(false), first);
    AnswerDroppedFrom(s, m, response, env);
    RunThen(Start(false), first, [Dispatch(0, m, env), ShutdownDirectly(env), Respond(0, response)]);
    RepliesConserved(false, AnswerBehindShutdown(path, m, response, env));
  }

  lemma ExportRuns(path: string, name: string, env: Env)
    requires env.connect.Opened? && env.registers
    ensures var actions := [GetObject(ExportedKey(path)), Post(Use(0, ExportOp(name, 0))), RunDBus(env)];
            && Legal(Start(false), actions)
            && var s := Run(Start(false), actions);
               && |s.objs| == 1 && s.objs[0].registered && name in s.objs[0].methods && s.led.connected
               && s == Start(false).(led := s.led, objs := s.objs, table := s.table, ran := s.ran, oq := s.oq)
  {
    var t := Use(0, ExportOp(name, 0));
    var s1 := Step(Start(false), GetObject(ExportedKey(path)));
    assert s1.objs == [NewObj(ExportedKey(path))];
    var s2 := Step(s1, Post(t));
    RunTwo(s1, Post(t), RunDBus(env));
    StepThenRun(Start(false), GetObject(ExportedKey(path)), [Post(t), RunDBus(env)]);
    FirstExport(Popped(s2), path, name, env);
  }

  lemma FirstExport(s: System, path: string, name: string, env: Env)
    requires env.connect.Opened? && env.registers && s.led == EMPTY && s.objs == [NewObj(ExportedKey(path))]
    ensures var s' := Effect(s, Use(0, ExportOp(name, 0)), env);
            && |s'.objs| == 1 && s'.objs[0].registered && name in s'.objs[0].methods && s'.led.connected
            && s' == s.(led := s'.led, objs := s'.objs, oq := s'.oq)
  {}

  lemma AnswerDroppedFrom(s: System, m: Incoming, response: Option<Answer>, env: Env)
    requires !s.hasThread && |s.objs| == 1 && s.objs[0].registered && s.led.connected && !s.done && s.handled == 0
    requires s.senders == s.dropped == multiset{} && s.replies == []
    requires m.isMethodCall && m.interface != "" && m.interface + "." + m.member in s.objs[0].methods && !env.cancelled
    ensures var actions := [Dispatch(0, m, env), ShutdownDirectly(env), Respond(0, response)];
            && Legal(s, actions)
            && var s' := Run(s, actions);
               s'.handled == 1 && s'.replies == [] && s'.dropped == multiset{0}
  {
    var s1 := s.(handled := 1, senders := multiset{0});
    assert Step(s, Dispatch(0, m, env)) == s1;
    var s2 := ShutdownNow(s1, env);
    RunTwo(s1, ShutdownDirectly(env), Respond(0, response));
    StepThenRun(s, Dispatch(0, m, env), [ShutdownDirectly(env), Respond(0, response)]);
    ResponseDropped(s2, response);
  }

  lemma ResponseDropped(s: System, response: Option<Answer>)
    requires !s.hasThread && !s.led.connected && s.senders == multiset{0} && s.dropped == multiset{}
    ensures var s' := Step(s, Respond(0, response));
            s'.handled == s.handled && s'.replies == s.replies && s'.dropped == multiset{0}
  {}
}
