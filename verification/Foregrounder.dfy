/** HelloDialogForegrounder (crypto/user_verifying_key_win.cc): a chain of polling tasks raced by Stop. */
module Foregrounder {
  import opened Wrappers

  const MAX_ITERATIONS: nat := 40

  datatype Phase = NotStarted | PollingForFirstAppearance | PollingForAuthRetry

  datatype Outcome = Succeeded | ForegroundingFailed | WindowNotFound | AbortedWithoutFindingWindow

  /** What FindWindow and SetForegroundWindow would say at this moment. */
  datatype Look = Look(found: bool, raised: bool)

  datatype Poller = Poller(
    phase: Phase,
    stopping: bool,
    outcomes: seq<Outcome>,      // recorded in the outcome histogram
    reported: seq<nat>,          // recorded in the iteration-count histogram
    next: Option<nat>)           // the delayed task on its way, with its iteration

  const IDLE := Poller(NotStarted, false, [], [], None)

  /** The task chain has begun and is over. */
  predicate ChainEnded(f: Poller) { !f.phase.NotStarted? && f.next.None? }

  function Foregrounded(look: Look): Outcome { if look.raised then Succeeded else ForegroundingFailed }

  /** BringHelloDialogToFront. It reads the stop flag once, first, so a concurrent Stop comes before or after it. */
  function Bring(f: Poller, iteration: nat, look: Look): Poller
    requires !f.phase.NotStarted?
  {
    if f.stopping then
      f.(next := None,
         outcomes := f.outcomes + if f.phase.PollingForFirstAppearance? then [AbortedWithoutFindingWindow] else [])
    else if f.phase.PollingForFirstAppearance? && iteration > MAX_ITERATIONS then
      f.(next := None, outcomes := f.outcomes + [WindowNotFound])
    else if f.phase.PollingForFirstAppearance? && look.found then
      f.(next := Some(iteration + 1), phase := PollingForAuthRetry, reported := f.reported + [iteration],
         outcomes := f.outcomes + [Foregrounded(look)])
    else f.(next := Some(iteration + 1))
  }

  datatype Event = Start(look: Look) | Stop | Poll(look: Look)

  predicate Possible(f: Poller, e: Event) {
    match e
    case Start(_) => f.phase.NotStarted?
    case Stop => true
    case Poll(_) => !f.phase.NotStarted? && f.next.Some?
  }

  function Step(f: Poller, e: Event): Poller
    requires Possible(f, e)
  {
    match e
    case Start(look) => Bring(f.(phase := PollingForFirstAppearance), 0, look)
    case Stop => f.(stopping := true)
    case Poll(look) => Bring(f, f.next.value, look)
  }

  ghost predicate Legal(f: Poller, events: seq<Event>)
    decreases |events|
  {
    events == [] || (Possible(f, events[0]) && Legal(Step(f, events[0]), events[1..]))
  }

  function Run(f: Poller, events: seq<Event>): Poller
    requires Legal(f, events)
    decreases |events|
  {
    if events == [] then f else Run(Step(f, events[0]), events[1..])
  }

  function LookOf(e: Event): seq<Look> { if e.Stop? then [] else [e.look] }

  /** What the window looked like at each task of the chain, the one of Start first. */
  function Looks(events: seq<Event>): seq<Look> {
    if events == [] then [] else LookOf(events[0]) + Looks(events[1..])
  }

  predicate NoneFound(looks: seq<Look>, n: nat) { forall i | 0 <= i < n && i < |looks| :: !looks[i].found }

  // ----- what every step keeps -----

  ghost predicate Searching(f: Poller, looks: seq<Look>) {
    if f.next.Some?
    then && f.next.value == |looks| && 1 <= |looks| <= MAX_ITERATIONS + 1
         && f.outcomes == [] && NoneFound(looks, |looks|)
    else && looks != [] && NoneFound(looks, |looks| - 1)
         && (|| (f.stopping && f.outcomes == [AbortedWithoutFindingWindow] && |looks| <= MAX_ITERATIONS + 2)
             || (f.outcomes == [WindowNotFound] && |looks| == MAX_ITERATIONS + 2))
  }

  ghost predicate Found(f: Poller, looks: seq<Look>) {
    && |f.reported| == 1 && f.reported[0] <= MAX_ITERATIONS && f.reported[0] < |looks|
    && looks[f.reported[0]].found && NoneFound(looks, f.reported[0])
    && f.outcomes == [Foregrounded(looks[f.reported[0]])]
    && (if f.next.Some? then f.next.value == |looks| else f.stopping)
  }

  ghost predicate Inv(f: Poller, looks: seq<Look>) {
    match f.phase
    case NotStarted => looks == [] && f.outcomes == [] && f.reported == [] && f.next.None?
    case PollingForFirstAppearance => f.reported == [] && Searching(f, looks)
    case PollingForAuthRetry => Found(f, looks)
  }

  lemma PollKeeps(f: Poller, look: Look, looks: seq<Look>)
    requires Inv(f, looks) && Possible(f, Poll(look))
    ensures Inv(Step(f, Poll(look)), looks + [look])
  {
    assert (looks + [look])[..|looks|] == looks;
    assert forall i | 0 <= i < |looks| :: (looks + [look])[i] == looks[i];
  }

  lemma StepKeeps(f: Poller, e: Event, looks: seq<Look>)
    requires Inv(f, looks) && Possible(f, e)
    ensures Inv(Step(f, e), looks + LookOf(e))
  {
    assert looks + [] == looks;
    if e.Poll? {
      PollKeeps(f, e.look, looks);
    }
  }

  lemma {:induction false} RunKeeps(f: Poller, events: seq<Event>, looks: seq<Look>, all: seq<Look>)
    requires Inv(f, looks) && Legal(f, events) && all == looks + Looks(events)
    ensures Inv(Run(f, events), all)
    decreases |events|
  {
    if events == [] {
      assert all == looks;
    } else {
      StepKeeps(f, events[0], looks);
      assert all == looks + LookOf(events[0]) + Looks(events[1..]);
      RunKeeps(Step(f, events[0]), events[1..], looks + LookOf(events[0]), all);
    }
  }

  // ----- for every placement of Stop among Start and the polls -----

  /** At most one outcome, and exactly one once the chain has ended; at most one iteration count, at most 40. */
  lemma OutcomeRecordedOnce(events: seq<Event>)
    requires Legal(IDLE, events)
    ensures var f := Run(IDLE, events);
            && |f.outcomes| <= 1 && (ChainEnded(f) ==> |f.outcomes| == 1)
            && |f.reported| <= 1 && (f.reported != [] ==> f.reported[0] <= 40)
            && (f.phase.NotStarted? ==> f.outcomes == [])
  {
    RunKeeps(IDLE, events, [], Looks(events));
  }

  /** The outcome says what was seen: the reported iteration is the first at which the window was there, the outcome
      whether it could be raised then; the search gave up only after looking 41 times in vain, and was aborted only by
      a stop before it had found the window. */
  lemma OutcomeIsFirstSight(events: seq<Event>)
    requires Legal(IDLE, events)
    ensures var f, looks := Run(IDLE, events), Looks(events);
            && (f.reported != [] ==>
                  && f.reported[0] < |looks| && looks[f.reported[0]].found
                  && (forall i | 0 <= i < f.reported[0] :: !looks[i].found)
                  && f.outcomes == [if looks[f.reported[0]].raised then Succeeded else ForegroundingFailed])
            && (f.reported == [] <==> Succeeded !in f.outcomes && ForegroundingFailed !in f.outcomes)
            && (f.outcomes == [] ==> forall i | 0 <= i < |looks| :: !looks[i].found)
            && (f.outcomes == [WindowNotFound] ==> |looks| == 42 && forall i | 0 <= i < 41 :: !looks[i].found)
            && (f.outcomes == [AbortedWithoutFindingWindow] ==>
                  f.stopping && looks != [] && forall i | 0 <= i < |looks| - 1 :: !looks[i].found)
  {
    RunKeeps(IDLE, events, [], Looks(events));
  }

  /** First-appearance polling is left within 41 polls after Start: by then the window was found or the chain ended. */
  lemma SearchBounded(events: seq<Event>)
    requires Legal(IDLE, events)
    ensures var f := Run(IDLE, events);
            |Looks(events)| >= 42 ==> f.phase.PollingForAuthRetry? || ChainEnded(f)
  {
    RunKeeps(IDLE, events, [], Looks(events));
  }

  /** Once stopped, at most one more task runs: the next one ends the chain. */
  lemma StopEndsChain(events: seq<Event>, e: Event)
    requires Legal(IDLE, events) && Possible(Run(IDLE, events), e)
    requires Run(IDLE, events).stopping && !e.Stop?
    ensures ChainEnded(Step(Run(IDLE, events), e)) && |Step(Run(IDLE, events), e).outcomes| == 1
  {
    RunKeeps(IDLE, events, [], Looks(events));
    StepKeeps(Run(IDLE, events), e, Looks(events));
  }

  // ----- the object updated in place -----

  class HelloDialogForegrounder {
    var state: Phase
    var stopping: bool
    var outcomes: seq<Outcome>
    var reported: seq<nat>
    var task: Option<nat>

    ghost function View(): Poller reads this { Poller(state, stopping, outcomes, reported, task) }

    constructor () ensures View() == IDLE {
      state, stopping, outcomes, reported, task := NotStarted, false, [], [], None;
    }

    method BeginPolling(look: Look)
      requires state.NotStarted?
      modifies this
      ensures View() == Step(old(View()), Start(look))
    {
      state := PollingForFirstAppearance;
      BringHelloDialogToFront(0, look);
    }

    method RequestStop()
      modifies this`stopping
      ensures View() == Step(old(View()), Stop)
    {
      stopping := true;
    }

    method RunTask(look: Look)
      requires !state.NotStarted? && task.Some?
      modifies this
      ensures View() == Step(old(View()), Poll(look))
    {
      BringHelloDialogToFront(task.value, look);
    }

    method BringHelloDialogToFront(iteration: nat, look: Look)
      requires !state.NotStarted?
      modifies this
      ensures View() == Bring(old(View()), iteration, look)
      ensures stopping == old(stopping) && (task.None? <==> stopping || WindowNotFound in outcomes[|old(outcomes)|..])
      ensures task.Some? ==> task.value == iteration + 1
    {
      task := None;
      if stopping {
        if state == PollingForFirstAppearance {
          outcomes := outcomes + [AbortedWithoutFindingWindow];
        }
        return;
      }
      if state == PollingForFirstAppearance {
        if iteration > MAX_ITERATIONS {
          outcomes := outcomes + [WindowNotFound];
          return;
        }
        if look.found {
          reported := reported + [iteration];
          if look.raised {
            outcomes := outcomes + [Succeeded];
          } else {
            outcomes := outcomes + [ForegroundingFailed];
          }
          state := PollingForAuthRetry;
        }
      }
      task := Some(iteration + 1);
    }
  }
}
