/** ChromeOSUserData and the per-user part of ChromeOSTokenManager (crypto/nss_util_chromeos.cc): requests for a
    user's private slot are answered at once or wait until the slot is delivered. */
module PrivateSlots {
  import opened Wrappers

  /** How a request with a callback was answered: by the returned slot, or by running the callback. */
  datatype Served = Returned(caller: nat, slot: Option<nat>) | CalledBack(caller: nat, slot: Option<nat>)

  datatype User = User(
    publicSlot: Option<nat>,
    privateSlot: Option<nat>,
    started: bool,             // private_slot_initialization_started_
    waiting: seq<nat>,         // tpm_ready_callback_list_
    served: seq<Served>,
    chosen: bool,              // a TPM or a software slot was asked for
    replyPending: bool)        // the reply of InitializeTPMTokenInThreadPool is on its way

  function NewUser(publicSlot: Option<nat>): User { User(publicSlot, None, false, [], [], false, false) }

  datatype Event =
    | Request(caller: nat, hasCallback: bool)
    | WillInitialize
    | InitializeTpm(chaps: bool)      // nothing is posted without the chaps module
    | Deliver(slot: Option<nat>)
    | UseSoftwareSlot

  /** Clients ask ShouldInitialize before WillInitialize and then initialise once, as the code demands. */
  predicate Possible(u: User, e: Event) {
    match e
    case Request(_, _) => true
    case WillInitialize => !u.started
    case InitializeTpm(_) => u.started && !u.chosen
    case Deliver(_) => u.replyPending
    case UseSoftwareSlot => u.started && !u.chosen
  }

  function CallBacks(waiting: seq<nat>, slot: Option<nat>): seq<Served> {
    seq(|waiting|, i requires 0 <= i < |waiting| => CalledBack(waiting[i], slot))
  }

  function SetSlot(u: User, slot: Option<nat>): User {
    u.(privateSlot := slot, waiting := [], served := u.served + CallBacks(u.waiting, slot))
  }

  function GetSlot(u: User, caller: nat, hasCallback: bool): User {
    if !hasCallback then u
    else if u.privateSlot.Some? then u.(served := u.served + [Returned(caller, u.privateSlot)])
    else u.(waiting := u.waiting + [caller])
  }

  function Step(u: User, e: Event): User
    requires Possible(u, e)
  {
    match e
    case Request(caller, hasCallback) => GetSlot(u, caller, hasCallback)
    case WillInitialize => u.(started := true)
    case InitializeTpm(chaps) => u.(chosen := true, replyPending := chaps)
    case Deliver(slot) => SetSlot(u.(replyPending := false), slot)
    case UseSoftwareSlot => SetSlot(u.(chosen := true), u.publicSlot)
  }

  ghost predicate Legal(u: User, events: seq<Event>)
    decreases |events|
  {
    events == [] || (Possible(u, events[0]) && Legal(Step(u, events[0]), events[1..]))
  }

  function Run(u: User, events: seq<Event>): User
    requires Legal(u, events)
    decreases |events|
  {
    if events == [] then u else Run(Step(u, events[0]), events[1..])
  }

  /** The caller of an event that passes a callback. */
  function Caller(e: Event): seq<nat> { if e.Request? && e.hasCallback then [e.caller] else [] }

  /** The callers that passed a callback, in order. */
  function Requested(events: seq<Event>): seq<nat> {
    if events == [] then [] else Caller(events[0]) + Requested(events[1..])
  }

  /** The slot that setting the private slot would store, if this event sets it. */
  predicate Sets(u: User, e: Event, slot: Option<nat>) {
    (e.Deliver? && e.slot == slot) || (e.UseSoftwareSlot? && u.publicSlot == slot)
  }

  // ----- what every step keeps -----

  /** Answers are for the first requests, one each in order; the rest wait. Only the one setting may leave requests
      behind it waiting: after a non-null slot none waits, and before it none was answered. */
  ghost predicate Inv(u: User, asked: seq<nat>) {
    && |u.served| + |u.waiting| == |asked|
    && (forall i :: 0 <= i < |u.served| ==> u.served[i].caller == asked[i] && u.served[i].slot == u.privateSlot)
    && u.waiting == asked[|u.served|..]
    && (u.privateSlot.Some? ==> u.waiting == [] && u.chosen && !u.replyPending)
    && (!u.chosen || u.replyPending ==> u.privateSlot.None? && u.served == [])
    && (u.replyPending ==> u.chosen)
    && (u.chosen ==> u.started)
  }

  lemma GetKeeps(u: User, caller: nat, asked: seq<nat>)
    requires Inv(u, asked)
    ensures Inv(GetSlot(u, caller, true), asked + [caller])
  {
    assert (asked + [caller])[|u.served|..] == u.waiting + [caller];
    if u.privateSlot.Some? {
      assert (asked + [caller])[|u.served| + 1..] == [];
    }
  }

  lemma SetKeeps(u: User, slot: Option<nat>, asked: seq<nat>)
    requires Inv(u, asked) && u.started && (!u.chosen || u.replyPending)
    ensures Inv(SetSlot(u.(chosen := true, replyPending := false), slot), asked)
  {
    assert u.waiting == asked;
    assert [] + CallBacks(u.waiting, slot) == CallBacks(u.waiting, slot);
  }

  lemma StepKeeps(u: User, e: Event, asked: seq<nat>)
    requires Inv(u, asked) && Possible(u, e)
    ensures Inv(Step(u, e), asked + Caller(e))
  {
    if e.Request? && e.hasCallback {
      GetKeeps(u, e.caller, asked);
    } else {
      assert asked + Caller(e) == asked;
      if e.Deliver? {
        SetKeeps(u, e.slot, asked);
      } else if e.UseSoftwareSlot? {
        SetKeeps(u, u.publicSlot, asked);
      }
    }
  }

  lemma {:induction false} RunKeeps(u: User, events: seq<Event>, asked: seq<nat>, all: seq<nat>)
    requires Inv(u, asked) && Legal(u, events) && all == asked + Requested(events)
    ensures Inv(Run(u, events), all)
    decreases |events|
  {
    if events == [] {
      assert all == asked;
    } else {
      StepKeeps(u, events[0], asked);
      Associative(asked, Caller(events[0]), Requested(events[1..]));
      RunKeeps(Step(u, events[0]), events[1..], asked + Caller(events[0]), all);
    }
  }

  /** In every run, whatever slots are delivered: each answer is for one request, in order and with the slot held now;
      the rest wait. Once a non-null slot is held every request has been answered with it exactly once; before a slot
      is set none has been answered. */
  lemma RequestsAnsweredOnce(publicSlot: Option<nat>, events: seq<Event>)
    requires Legal(NewUser(publicSlot), events)
    ensures var u, asked := Run(NewUser(publicSlot), events), Requested(events);
            && |u.served| + |u.waiting| == |asked| && u.waiting == asked[|u.served|..]
            && (forall i :: 0 <= i < |u.served| ==>
                  u.served[i].caller == asked[i] && u.served[i].slot == u.privateSlot)
            && (u.privateSlot.Some? ==> |u.served| == |asked|)
            && (!u.chosen || u.replyPending ==> u.served == [])
  {
    RunKeeps(NewUser(publicSlot), events, [], Requested(events));
  }

  /** The check in SetPrivateSlot never fires: whenever the slot is about to be set it is still null. */
  lemma SlotUnsetWhenSet(publicSlot: Option<nat>, events: seq<Event>, e: Event)
    requires Legal(NewUser(publicSlot), events) && Possible(Run(NewUser(publicSlot), events), e)
    requires e.Deliver? || e.UseSoftwareSlot?
    ensures Run(NewUser(publicSlot), events).privateSlot.None?
    ensures Run(NewUser(publicSlot), events).served == []
  {
    RunKeeps(NewUser(publicSlot), events, [], Requested(events));
  }

  predicate Settled(u: User) { u.started && u.chosen && !u.replyPending }

  lemma {:induction false} SettledRun(u: User, events: seq<Event>)
    requires Settled(u) && Legal(u, events)
    ensures Settled(Run(u, events)) && Run(u, events).privateSlot == u.privateSlot
    decreases |events|
  {
    if events != [] {
      SettledStep(u, events[0]);
      SettledRun(Step(u, events[0]), events[1..]);
    }
  }

  /** Who waits at the end, given who would if every request did. */
  lemma {:induction false} SettledWaiting(u: User, events: seq<Event>, all: seq<nat>)
    requires Settled(u) && Legal(u, events) && all == u.waiting + Requested(events)
    ensures Run(u, events).waiting == if u.privateSlot.Some? then u.waiting else all
    decreases |events|
  {
    if events == [] {
      assert all == u.waiting;
    } else {
      var e, rest := events[0], events[1..];
      SettledStep(u, e);
      Associative(u.waiting, Caller(e), Requested(rest));
      SettledWaiting(Step(u, e), rest, if u.privateSlot.Some? then u.waiting + Requested(rest) else all);
    }
  }

  lemma SettledStep(u: User, e: Event)
    requires Settled(u) && Possible(u, e)
    ensures Settled(Step(u, e)) && Step(u, e).privateSlot == u.privateSlot
    ensures Step(u, e).waiting == u.waiting + if u.privateSlot.Some? then [] else Caller(e)
  {
    assert u.waiting + [] == u.waiting;
  }

  /** The slot is set at most once: after the event that sets it, it never changes, null or not. Requests made after
      it are all answered exactly if the slot is non-null or there are none: behind a null slot they wait for ever. */
  lemma SlotSetAtMostOnce(publicSlot: Option<nat>, before: seq<Event>, e: Event, slot: Option<nat>, after: seq<Event>)
    requires Legal(NewUser(publicSlot), before)
    requires var u := Run(NewUser(publicSlot), before);
             Possible(u, e) && Sets(u, e, slot) && Legal(Step(u, e), after)
    ensures var u := Run(Step(Run(NewUser(publicSlot), before), e), after);
            && u.privateSlot == slot
            && (forall x :: Possible(u, x) ==> !x.Deliver? && !x.UseSoftwareSlot?)
            && u.waiting == (if slot.Some? then [] else Requested(after))
            && (u.waiting == [] <==> slot.Some? || Requested(after) == [])
  {
    RunKeeps(NewUser(publicSlot), before, [], Requested(before));
    var u := Run(NewUser(publicSlot), before);
    SettledRun(Step(u, e), after);
    SettledWaiting(Step(u, e), after, Requested(after));
  }

  lemma StepThenRun(u: User, e: Event, rest: seq<Event>)
    requires Possible(u, e) && Legal(Step(u, e), rest)
    ensures Legal(u, [e] + rest) && Run(u, [e] + rest) == Run(Step(u, e), rest)
  {
    assert ([e] + rest)[1..] == rest;
  }

  /** A request made behind a delivered null slot is never answered. */
  lemma NullSlotStrands(publicSlot: Option<nat>, caller: nat)
    ensures var events := [WillInitialize, InitializeTpm(true), Deliver(None), Request(caller, true)];
            && Legal(NewUser(publicSlot), events)
            && Run(NewUser(publicSlot), events).waiting == [caller] && Run(NewUser(publicSlot), events).served == []
            && (forall after :: Legal(Run(NewUser(publicSlot), events), after) ==>
                  caller in Run(Run(NewUser(publicSlot), events), after).waiting)
  {
    NullSlotRun(publicSlot, caller);
    forall after | Legal(Stranded(publicSlot, caller), after)
      ensures caller in Run(Stranded(publicSlot, caller), after).waiting
    {
      SettledWaiting(Stranded(publicSlot, caller), after, [caller] + Requested(after));
    }
  }

  function Stranded(publicSlot: Option<nat>, caller: nat): User {
    User(publicSlot, None, true, [caller], [], true, false)
  }

  lemma NullSlotRun(publicSlot: Option<nat>, caller: nat)
    ensures var events := [WillInitialize, InitializeTpm(true), Deliver(None), Request(caller, true)];
            Legal(NewUser(publicSlot), events) && Run(NewUser(publicSlot), events) == Stranded(publicSlot, caller)
  {
    var e1, e2, e3, e4 := WillInitialize, InitializeTpm(true), Deliver(None), Request(caller, true);
    var u0 := NewUser(publicSlot);
    var u1 := Step(u0, e1);
    var u2 := Step(u1, e2);
    var u3 := Step(u2, e3);
    StepThenRun(u3, e4, []);
    StepThenRun(u2, e3, [e4]);
    StepThenRun(u1, e2, [e3, e4]);
    StepThenRun(u0, e1, [e2, e3, e4]);
  }

  // ----- the map of users -----

  /** Chromeos_user_map_, with the callbacks posted for requests that named no user. */
  datatype Directory = Directory(users: map<string, User>, unnamed: seq<nat>)

  datatype Action = AddUser(name: string, publicSlot: Option<nat>) | For(name: string, event: Event)

  predicate Allowed(d: Directory, a: Action) {
    match a
    case AddUser(_, _) => true
    case For(name, e) => (name == "" && e.Request?) || (name in d.users && Possible(d.users[name], e))
  }

  function Act(d: Directory, a: Action): Directory
    requires Allowed(d, a)
  {
    match a
    case AddUser(name, publicSlot) =>
      if name in d.users then d else d.(users := d.users[name := NewUser(publicSlot)])
    case For(name, e) =>
      if name == "" && e.Request? then (if e.hasCallback then d.(unnamed := d.unnamed + [e.caller]) else d)
      else d.(users := d.users[name := Step(d.users[name], e)])
  }

  ghost predicate AllowedRun(d: Directory, actions: seq<Action>)
    decreases |actions|
  {
    actions == [] || (Allowed(d, actions[0]) && AllowedRun(Act(d, actions[0]), actions[1..]))
  }

  function ActAll(d: Directory, actions: seq<Action>): Directory
    requires AllowedRun(d, actions)
    decreases |actions|
  {
    if actions == [] then d else ActAll(Act(d, actions[0]), actions[1..])
  }

  /** The events of one user. */
  function EventsOf(name: string, actions: seq<Action>): seq<Event> {
    if actions == [] then []
    else (if actions[0].For? && actions[0].name == name then [actions[0].event] else [])
         + EventsOf(name, actions[1..])
  }

  lemma {:induction false} KnownUser(d: Directory, name: string, actions: seq<Action>)
    requires name != "" && name in d.users && AllowedRun(d, actions)
    ensures name in ActAll(d, actions).users && Legal(d.users[name], EventsOf(name, actions))
    ensures ActAll(d, actions).users[name] == Run(d.users[name], EventsOf(name, actions))
    decreases |actions|
  {
    if actions != [] {
      var a, rest := actions[0], actions[1..];
      KnownUser(Act(d, a), name, rest);
      if a.For? && a.name == name {
        StepThenRun(d.users[name], a.event, EventsOf(name, rest));
      } else {
        assert EventsOf(name, actions) == EventsOf(name, rest);
        UserKept(d, name, a);
      }
    }
  }

  /** An action for another user, or for none, leaves this one alone. */
  lemma UserKept(d: Directory, name: string, a: Action)
    requires name != "" && name in d.users && Allowed(d, a) && !(a.For? && a.name == name)
    ensures name in Act(d, a).users && Act(d, a).users[name] == d.users[name]
  {}

  /** Users do not disturb each other: over any interleaving of the actions on all users, each user in the map is in
      the state that its own events alone lead to from some first AddUser. */
  lemma {:induction false} UsersIndependent(d: Directory, name: string, actions: seq<Action>)
    requires name != "" && name !in d.users && AllowedRun(d, actions)
    ensures name in ActAll(d, actions).users ==>
              exists p: Option<nat> ::
                && Legal(NewUser(p), EventsOf(name, actions))
                && ActAll(d, actions).users[name] == Run(NewUser(p), EventsOf(name, actions))
    decreases |actions|
  {
    if actions != [] {
      var a, rest := actions[0], actions[1..];
      assert EventsOf(name, actions) == EventsOf(name, rest);
      if a.AddUser? && a.name == name {
        KnownUser(Act(d, a), name, rest);
      } else {
        UsersIndependent(Act(d, a), name, rest);
      }
    }
  }

  /** So in every run of the whole map each user's requests are answered as RequestsAnsweredOnce says. */
  lemma EveryUserAnswered(name: string, actions: seq<Action>)
    requires AllowedRun(Directory(map[], []), actions) && name != ""
    requires name in ActAll(Directory(map[], []), actions).users
    ensures var u, asked := ActAll(Directory(map[], []), actions).users[name], Requested(EventsOf(name, actions));
            && |u.served| + |u.waiting| == |asked| && u.waiting == asked[|u.served|..]
            && (forall i :: 0 <= i < |u.served| ==>
                  u.served[i].caller == asked[i] && u.served[i].slot == u.privateSlot)
            && (u.privateSlot.Some? ==> |u.served| == |asked|)
  {
    UsersIndependent(Directory(map[], []), name, actions);
    var p: Option<nat> :| Legal(NewUser(p), EventsOf(name, actions))
      && ActAll(Directory(map[], []), actions).users[name] == Run(NewUser(p), EventsOf(name, actions));
    RequestsAnsweredOnce(p, EventsOf(name, actions));
  }

  // ----- the objects updated in place -----

  class ChromeOSUserData {
    const publicSlot: Option<nat>
    var privateSlot: Option<nat>
    var started: bool
    var callbackList: seq<nat>
    var served: seq<Served>
    var chosen: bool
    var replyPending: bool

    ghost function View(): User reads this {
      User(publicSlot, privateSlot, started, callbackList, served, chosen, replyPending)
    }

    constructor (publicSlot: Option<nat>) ensures View() == NewUser(publicSlot) {
      this.publicSlot := publicSlot;
      privateSlot, started, callbackList, served, chosen, replyPending := None, false, [], [], false, false;
    }

    method GetPrivateSlot(callback: Option<nat>) returns (slot: Option<nat>)
      modifies this`callbackList, this`served
      ensures slot == privateSlot
      ensures View() == if callback.Some? then Step(old(View()), Request(callback.value, true)) else old(View())
      ensures callback.Some? && slot.None? ==> callbackList == old(callbackList) + [callback.value]
      ensures callback.Some? && slot.Some? ==> served == old(served) + [Returned(callback.value, slot)]
      ensures callback.None? || slot.Some? ==> callbackList == old(callbackList)
      ensures callback.None? || slot.None? ==> served == old(served)
    {
      if privateSlot.Some? {
        if callback.Some? { served := served + [Returned(callback.value, privateSlot)]; }
        return privateSlot;
      }
      if callback.Some? {
        callbackList := callbackList + [callback.value];
      }
      return None;
    }

    method SetPrivateSlot(slot: Option<nat>)
      requires privateSlot.None?
      modifies this`privateSlot, this`callbackList, this`served
      ensures View() == SetSlot(old(View()), slot)
      ensures privateSlot == slot && callbackList == []
      ensures |served| == |old(served)| + |old(callbackList)| && served[..|old(served)|] == old(served)
      ensures forall i | 0 <= i < |old(callbackList)| ::
                served[|old(served)| + i] == CalledBack(old(callbackList)[i], slot)
    {
      privateSlot := slot;
      ghost var all := callbackList;
      while callbackList != []
        invariant privateSlot == slot
        invariant |callbackList| <= |all| && callbackList == all[|all| - |callbackList|..]
        invariant served == old(served) + CallBacks(all[..|all| - |callbackList|], slot)
        decreases |callbackList|
      {
        ghost var k := |all| - |callbackList|;
        assert CallBacks(all[..k + 1], slot) == CallBacks(all[..k], slot) + [CalledBack(all[k], slot)];
        served := served + [CalledBack(callbackList[0], privateSlot)];
        callbackList := callbackList[1..];
      }
      assert all[..|all|] == old(callbackList);
    }
  }

  class UserMap {
    var users: map<string, ChromeOSUserData>
    var unnamed: seq<nat>

    /** Each name has an object of its own. */
    ghost predicate Valid() reads this {
      forall m, n :: m in users && n in users && m != n ==> users[m] != users[n]
    }

    ghost function View(): Directory reads this, users.Values {
      Directory(map n | n in users :: users[n].View(), unnamed)
    }

    constructor () ensures Valid() && View() == Directory(map[], []) {
      users, unnamed := map[], [];
    }

    method InitializeNSSForChromeOSUserWithSlot(name: string, publicSlot: Option<nat>) returns (isNew: bool)
      requires Valid()
      modifies this`users
      ensures Valid() && isNew == (name !in old(users))
      ensures View() == Act(old(View()), AddUser(name, publicSlot))
    {
      if name in users {
        return false;
      }
      var user := new ChromeOSUserData(publicSlot);
      users := users[name := user];
      return true;
    }

    method WillInitializeTPMForChromeOSUser(name: string)
      requires Valid() && name in users && !users[name].started
      modifies users[name]
      ensures View() == Act(old(View()), For(name, WillInitialize))
    {
      users[name].started := true;
    }

    method InitializeTPMForChromeOSUser(name: string, chaps: bool)
      requires Valid() && name in users && users[name].started && !users[name].chosen
      modifies users[name]
      ensures View() == Act(old(View()), For(name, InitializeTpm(chaps)))
      ensures users[name].chosen && users[name].replyPending == chaps
    {
      users[name].chosen := true;
      users[name].replyPending := chaps;
    }

    method OnInitializedTPMForChromeOSUser(name: string, slot: Option<nat>)
      requires Valid() && name in users && users[name].replyPending && users[name].privateSlot.None?
      modifies users[name]
      ensures View() == Act(old(View()), For(name, Deliver(slot)))
    {
      var user := users[name];
      user.replyPending := false;
      user.SetPrivateSlot(slot);
      assert user.View() == Step(old(user.View()), Deliver(slot));
    }

    method InitializePrivateSoftwareSlotForChromeOSUser(name: string)
      requires Valid() && name in users && users[name].started && !users[name].chosen
      requires users[name].privateSlot.None?
      modifies users[name]
      ensures View() == Act(old(View()), For(name, UseSoftwareSlot))
    {
      var user := users[name];
      user.chosen := true;
      user.SetPrivateSlot(user.publicSlot);
      assert user.View() == Step(old(user.View()), UseSoftwareSlot);
    }

    method GetPrivateSlotForChromeOSUser(name: string, callback: Option<nat>) returns (slot: Option<nat>)
      requires Valid() && (name == "" || name in users)
      modifies this`unnamed, if name in users then {users[name]} else {}
      ensures slot == if name == "" then None else users[name].privateSlot
      ensures users == old(users)
      ensures unnamed == old(unnamed) + if name == "" && callback.Some? then [callback.value] else []
      ensures View() == if callback.Some? then Act(old(View()), For(name, Request(callback.value, true)))
                        else old(View())
    {
      if name == "" {
        if callback.Some? {
          unnamed := unnamed + [callback.value];
        }
        return None;
      }
      slot := users[name].GetPrivateSlot(callback);
    }
  }
}
