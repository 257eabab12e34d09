/** The message path of ExportedObject and Bus updated in place: task queues, response senders and replies. Each method
    is proved to compute the function of BusProtocol that the run theorems are about. */
module BusMessages {
  import opened Wrappers
  import opened BusLedger
  import opened BusProtocol
  import C = BusClasses

  /** A signal that reached the filter; an argument that is no string is None. */
  datatype OwnerSignal = OwnerSignal(member: string, interface: string, sender: string, args: seq<Option<string>>)

  predicate IsOwnerChange(m: OwnerSignal) {
    && m.member == "NameOwnerChanged" && m.interface == m.sender == "org.freedesktop.DBus"
    && |m.args| >= 3 && m.args[0].Some? && m.args[1].Some? && m.args[2].Some?
  }

  class MethodCalls {
    const hasThread: bool
    const bus: C.Bus
    var dbusQueue: seq<Task>
    var originQueue: seq<Task>
    var handled: nat
    var senders: multiset<nat>        // response senders handed out and not yet used
    var replies: seq<Reply>
    var dropped: multiset<nat>

    /** A system with this object's state, and the rest of `s`. */
    ghost function In(s: System): System reads this, bus {
      s.(hasThread := hasThread, led := bus.View(), dq := dbusQueue, oq := originQueue,
         handled := handled, senders := senders, replies := replies, dropped := dropped)
    }

    constructor (bus: C.Bus, hasThread: bool)
      requires bus.View() == EMPTY
      ensures In(Start(hasThread)) == Start(hasThread)
    {
      this.bus, this.hasThread := bus, hasThread;
      dbusQueue, originQueue, handled, senders, replies, dropped := [], [], 0, multiset{}, [], multiset{};
    }

    method OnMethodCompleted(call: nat, response: Option<Answer>, ghost s: System)
      modifies this`replies, this`dropped
      ensures In(s) == CompleteNow(old(In(s)), call, response)
      ensures if bus.connection
              then && replies == old(replies) + [Reply(call, if response.None? then Failed else response.value)]
                   && dropped == old(dropped)
              else replies == old(replies) && dropped == old(dropped) + multiset{call}
    {
      if !bus.connection {
        dropped := dropped[call := dropped[call] + 1];
        return;
      }
      if response.None? {
        replies := replies + [Reply(call, Failed)];
        return;
      }
      replies := replies + [Reply(call, response.value)];
    }

    method SendReply(call: nat, response: Option<Answer>, ghost s: System)
      modifies this`dbusQueue, this`replies, this`dropped
      ensures In(s) == SendResponse(old(In(s)), call, response)
      ensures dbusQueue == old(dbusQueue) + if hasThread then [Complete(call, response)] else []
    {
      if hasThread {
        dbusQueue := dbusQueue + [Complete(call, response)];
      } else {
        OnMethodCompleted(call, response, s);
      }
    }

    method RunMethodCallback(call: nat, env: Env, ghost s: System)
      modifies this`dbusQueue, this`senders, this`replies, this`dropped
      ensures In(s) == RunMethodNow(old(In(s)), call, env)
      ensures senders == if env.cancelled then old(senders) else old(senders) + multiset{call}
      ensures !env.cancelled ==> unchanged(this`dbusQueue) && unchanged(this`replies) && unchanged(this`dropped)
    {
      if env.cancelled {
        SendReply(call, Some(UnknownMethod), s);
        return;
      }
      senders := senders[call := senders[call] + 1];
    }

    /** A client runs its response sender, which is then spent. */
    method RunSender(call: nat, response: Option<Answer>, ghost s: System)
      requires call in senders
      modifies this`dbusQueue, this`senders, this`replies, this`dropped
      ensures In(s) == Step(old(In(s)), Respond(call, response))
    {
      senders := senders[call := senders[call] - 1];
      assert In(s) == old(In(s)).(senders := senders);
      SendReply(call, response, s);
    }

    /** HandleMessage of an exported object: true stands for HANDLED. */
    method Handle(o: C.ExportedObject, m: Incoming, env: Env, ghost s: System, ghost id: nat) returns (isHandled: bool)
      requires id < |s.objs| && s.objs[id] == o.View()
      modifies this`dbusQueue, this`originQueue, this`handled, this`senders, this`replies, this`dropped
      ensures In(s) == HandleMessage(old(In(s)), id, m, env)
      ensures isHandled <==> m.isMethodCall && m.interface != "" && m.interface + "." + m.member in o.methods
      ensures originQueue == old(originQueue) + if isHandled && hasThread then [RunMethod(old(handled))] else []
      ensures handled == old(handled) + if isHandled then 1 else 0
    {
      assert old(In(s)).objs[id].methods == o.methods;
      if !m.isMethodCall {
        return false;
      }
      if m.interface == "" {
        return false;
      }
      if m.interface + "." + m.member !in o.methods {
        return false;
      }
      HandOver(env, s);
      return true;
    }

    method HandOver(env: Env, ghost s: System)
      modifies this`dbusQueue, this`originQueue, this`handled, this`senders, this`replies, this`dropped
      ensures In(s) == BusProtocol.HandOver(old(In(s)).(handled := old(handled) + 1), old(handled), env)
      ensures originQueue == old(originQueue) + if hasThread then [RunMethod(old(handled))] else []
      ensures handled == old(handled) + 1
    {
      var call := handled;
      handled := handled + 1;
      if hasThread {
        originQueue := originQueue + [RunMethod(call)];
      } else {
        RunMethodCallback(call, env, s);
      }
    }

    /** OnServiceOwnerChanged: one task a callback, in the order of the list. Any other signal is ignored, and so is one
        whose body does not begin with three strings. */
    method OnServiceOwnerChanged(m: OwnerSignal, ghost s: System)
      modifies this`originQueue
      ensures In(s) == if IsOwnerChange(m) then Step(old(In(s)), OwnerChange(m.args[0].value, m.args[2].value))
                       else old(In(s))
      ensures if IsOwnerChange(m) && m.args[0].value in bus.listenerMap
              then Notifies(old(originQueue), originQueue, bus.listenerMap[m.args[0].value], m.args[2].value)
              else originQueue == old(originQueue)
    {
      if m.member != "NameOwnerChanged" || m.interface != "org.freedesktop.DBus" || m.sender != "org.freedesktop.DBus" {
        return;
      }
      if |m.args| < 3 || m.args[0].None? || m.args[1].None? || m.args[2].None? {
        return;
      }
      var service, owner := m.args[0].value, m.args[2].value;
      if service !in bus.listenerMap {
        return;
      }
      var callbacks := bus.listenerMap[service];
      var i := 0;
      while i < |callbacks|
        invariant 0 <= i <= |callbacks|
        invariant originQueue == old(originQueue) + Notices(callbacks[..i], owner)
      {
        assert Notices(callbacks[..i + 1], owner)
            == Notices(callbacks[..i], owner) + [OwnerNotice(callbacks[i], owner)];
        originQueue := originQueue + [OwnerNotice(callbacks[i], owner)];
        i := i + 1;
      }
      assert callbacks[..i] == callbacks;
    }
  }
}
