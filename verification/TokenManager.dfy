/** ChromeOSTokenManager (crypto/nss_util_chromeos.cc): an initialisation state machine whose questions wait for a
    final state. Slots are numbered; None is a null slot. */
module TokenManager {

  import opened Wrappers

  datatype State =
    | InitializationNotStarted | InitializationStarted | TpmTokenInitialized | TpmTokenEnabled | TpmTokenDisabled

  predicate Finished(s: State) { s.TpmTokenEnabled? || s.TpmTokenDisabled? }

  /** A caller of IsTPMTokenEnabled or GetSystemNSSKeySlot, and the task posted to answer it. */
  datatype Question = IsEnabled(caller: nat) | SystemSlot(caller: nat)
  datatype Answer = EnabledAnswer(caller: nat, enabled: bool) | SlotAnswer(caller: nat, slot: Option<nat>)

  datatype Manager = Manager(
    state: State,
    systemSlot: Option<nat>,
    waiting: seq<Question>,      // tpm_ready_callback_list_
    posted: seq<Answer>,
    replyPending: bool)          // the reply of InitializeTPMTokenInThreadPool is on its way

  const FRESH := Manager(InitializationNotStarted, None, [], [], false)

  function AnswerTo(state: State, slot: Option<nat>, q: Question): Answer {
    match q
    case IsEnabled(c) => EnabledAnswer(c, state == TpmTokenEnabled)
    case SystemSlot(c) => SlotAnswer(c, slot)
  }

  function AnswersTo(state: State, slot: Option<nat>, qs: seq<Question>): seq<Answer> {
    seq(|qs|, i requires 0 <= i < |qs| => AnswerTo(state, slot, qs[i]))
  }

  /** What a caller has to be told, given whether the token is enabled and which slot there is. */
  predicate Says(a: Answer, q: Question, enabled: bool, slot: Option<nat>) {
    match q
    case IsEnabled(caller) => a == EnabledAnswer(caller, enabled)
    case SystemSlot(caller) => a == SlotAnswer(caller, slot)
  }

  ghost predicate AllSay(answers: seq<Answer>, qs: seq<Question>, enabled: bool, slot: Option<nat>) {
    |answers| == |qs| && forall i | 0 <= i < |qs| :: Says(answers[i], qs[i], enabled, slot)
  }

  lemma AnswersSay(state: State, slot: Option<nat>, qs: seq<Question>)
    ensures AllSay(AnswersTo(state, slot, qs), qs, state == TpmTokenEnabled, slot)
  {}

  // ----- events -----

  datatype Event = Ask(question: Question) | Initialize | Reply(slot: Option<nat>) | Finish

  /** What the code demands of its callers: one initialisation, one reply for it, and no second finish. */
  predicate Possible(m: Manager, e: Event) {
    match e
    case Ask(_) => true
    case Initialize => m.state == InitializationNotStarted
    case Reply(_) => m.replyPending
    case Finish => !Finished(m.state)
  }

  function Step(m: Manager, e: Event): Manager
    requires Possible(m, e)
  {
    match e
    case Ask(q) =>
      if Finished(m.state) then m.(posted := m.posted + [AnswerTo(m.state, m.systemSlot, q)])
      else m.(waiting := m.waiting + [q])
    case Initialize => m.(state := InitializationStarted, replyPending := true)
    case Reply(slot) =>
      m.(systemSlot := slot, replyPending := false, state := if slot.Some? then TpmTokenInitialized else m.state)
    case Finish =>
      var state := if m.state == TpmTokenInitialized then TpmTokenEnabled else TpmTokenDisabled;
      m.(state := state, waiting := [], posted := m.posted + AnswersTo(state, m.systemSlot, m.waiting))
  }

  /** Finish was called before the reply of a successful initialisation arrived. */
  predicate Overtaken(m: Manager, e: Event) { Finished(m.state) && e.Reply? && e.slot.Some? }

  ghost predicate Legal(m: Manager, events: seq<Event>)
    decreases |events|
  {
    events == [] || (Possible(m, events[0]) && Legal(Step(m, events[0]), events[1..]))
  }

  function Run(m: Manager, events: seq<Event>): Manager
    requires Legal(m, events)
    decreases |events|
  {
    if events == [] then m else Run(Step(m, events[0]), events[1..])
  }

  ghost predicate NeverOvertaken(m: Manager, events: seq<Event>)
    requires Legal(m, events)
    decreases |events|
  {
    events == [] || (!Overtaken(m, events[0]) && NeverOvertaken(Step(m, events[0]), events[1..]))
  }

  /** The question of an event that asks one. */
  function QuestionOf(e: Event): seq<Question> { if e.Ask? then [e.question] else [] }

  function Asked(events: seq<Event>): seq<Question> {
    if events == [] then [] else QuestionOf(events[0]) + Asked(events[1..])
  }

  /** Before a final state every question waits, in order; after it every question has been answered, in order, with
      the same state and slot, and the slot is there exactly if the token is enabled. */
  ghost predicate Inv(m: Manager, asked: seq<Question>) {
    && (if Finished(m.state)
        then m.waiting == [] && m.posted == AnswersTo(m.state, m.systemSlot, asked)
             && (m.systemSlot.Some? <==> m.state == TpmTokenEnabled)
        else m.waiting == asked && m.posted == [] && (m.systemSlot.Some? <==> m.state == TpmTokenInitialized))
    && (m.replyPending ==> m.systemSlot.None?)
    && (m.state == InitializationNotStarted ==> !m.replyPending)
  }

  lemma StepKeeps(m: Manager, e: Event, asked: seq<Question>)
    requires Inv(m, asked) && Possible(m, e) && !Overtaken(m, e)
    ensures Inv(Step(m, e), asked + QuestionOf(e))
    ensures Finished(m.state) ==> Step(m, e).state == m.state && Step(m, e).systemSlot == m.systemSlot
  {
    if e.Ask? {
      assert AnswersTo(m.state, m.systemSlot, asked + [e.question])
          == AnswersTo(m.state, m.systemSlot, asked) + [AnswerTo(m.state, m.systemSlot, e.question)];
    } else {
      assert asked + [] == asked;
    }
  }

  lemma {:induction false} RunKeeps(m: Manager, events: seq<Event>, asked: seq<Question>, all: seq<Question>)
    requires Inv(m, asked) && Legal(m, events) && NeverOvertaken(m, events) && all == asked + Asked(events)
    ensures Inv(Run(m, events), all)
    decreases |events|
  {
    if events == [] {
      assert all == asked;
    } else {
      var now := QuestionOf(events[0]);
      StepKeeps(m, events[0], asked);
      Associative(asked, now, Asked(events[1..]));
      RunKeeps(Step(m, events[0]), events[1..], asked + now, all);
    }
  }

  lemma {:induction false} FinishedRun(m: Manager, events: seq<Event>)
    requires Finished(m.state) && Legal(m, events) && NeverOvertaken(m, events)
    requires m.replyPending ==> m.systemSlot.None?
    ensures Run(m, events).state == m.state && Run(m, events).systemSlot == m.systemSlot
    decreases |events|
  {
    if events != [] {
      FinishedRun(Step(m, events[0]), events[1..]);
    }
  }

  /** In every run that is not overtaken: once a final state is reached, every question asked before or since has been
      posted exactly one answer, in the order asked, all with the same verdict; the slot handed out is non-null exactly
      if the token is reported enabled. Before that nothing is posted and every question waits exactly once. */
  lemma EveryQuestionAnsweredOnce(events: seq<Event>)
    requires Legal(FRESH, events) && NeverOvertaken(FRESH, events)
    ensures var m := Run(FRESH, events);
            if Finished(m.state)
            then m.waiting == [] && AllSay(m.posted, Asked(events), m.state == TpmTokenEnabled, m.systemSlot)
                 && (m.systemSlot.Some? <==> m.state == TpmTokenEnabled)
            else m.waiting == Asked(events) && m.posted == []
    ensures Finished(Run(FRESH, events).state) <==> Finish in events
    ensures SlotOf(Run(FRESH, events).systemSlot, events)
  {
    RunKeeps(FRESH, events, [], Asked(events));
    FinishedByFinish(FRESH, events);
    var m := Run(FRESH, events);
    AnswersSay(m.state, m.systemSlot, Asked(events));
    SlotIsReplied(events);
  }

  lemma {:induction false} FinishedByFinish(m: Manager, events: seq<Event>)
    requires Legal(m, events) && NeverOvertaken(m, events)
    ensures Finished(Run(m, events).state) <==> Finished(m.state) || Finish in events
    decreases |events|
  {
    if events != [] {
      assert events == [events[0]] + events[1..];
      FinishedByFinish(Step(m, events[0]), events[1..]);
    }
  }

  /** The slot is the one of the only reply, or null if there was none. */
  ghost predicate SlotOf(slot: Option<nat>, events: seq<Event>) {
    || (slot.None? && forall e | e in events :: !e.Reply?)
    || (exists i :: 0 <= i < |events| && events[i] == Reply(slot) && OnlyReply(events, i))
  }

  ghost predicate OnlyReply(events: seq<Event>, i: int) {
    forall j | 0 <= j < |events| && j != i :: !events[j].Reply?
  }

  /** A reply comes only after an initialisation, and there is only one of each. */
  ghost predicate RepliedOnce(m: Manager, past: seq<Event>) {
    && SlotOf(m.systemSlot, past)
    && ((exists e :: e in past && e.Reply?) ==> !m.replyPending && !m.state.InitializationNotStarted?)
    && (m.state.InitializationNotStarted? ==> !m.replyPending)
  }

  lemma StepRepliedOnce(m: Manager, e: Event, past: seq<Event>)
    requires RepliedOnce(m, past) && Possible(m, e)
    ensures RepliedOnce(Step(m, e), past + [e])
  {
    if e.Reply? {
      assert (past + [e])[|past|] == Reply(Step(m, e).systemSlot) && OnlyReply(past + [e], |past|);
    } else if exists x :: x in past && x.Reply? {
      var i :| 0 <= i < |past| && past[i] == Reply(m.systemSlot) && OnlyReply(past, i);
      assert (past + [e])[i] == past[i] && OnlyReply(past + [e], i);
    }
  }

  lemma {:induction false} RunRepliedOnce(m: Manager, events: seq<Event>, past: seq<Event>, all: seq<Event>)
    requires RepliedOnce(m, past) && Legal(m, events) && all == past + events
    ensures RepliedOnce(Run(m, events), all)
    decreases |events|
  {
    if events == [] {
      assert all == past;
    } else {
      StepRepliedOnce(m, events[0], past);
      assert all == past + [events[0]] + events[1..];
      RunRepliedOnce(Step(m, events[0]), events[1..], past + [events[0]], all);
    }
  }

  /** In every run, overtaken or not, the slot held is that of the one reply. */
  lemma SlotIsReplied(events: seq<Event>)
    requires Legal(FRESH, events)
    ensures SlotOf(Run(FRESH, events).systemSlot, events)
  {
    RunRepliedOnce(FRESH, events, [], events);
  }

  /** Final states stay final over any later events, and so does the slot, if no reply is overtaken. */
  lemma FinalStatesStayFinal(before: seq<Event>, after: seq<Event>)
    requires Legal(FRESH, before) && NeverOvertaken(FRESH, before) && Finished(Run(FRESH, before).state)
    requires Legal(Run(FRESH, before), after) && NeverOvertaken(Run(FRESH, before), after)
    ensures Run(Run(FRESH, before), after).state == Run(FRESH, before).state
    ensures Run(Run(FRESH, before), after).systemSlot == Run(FRESH, before).systemSlot
  {
    RunKeeps(FRESH, before, [], Asked(before));
    FinishedRun(Run(FRESH, before), after);
  }

  // ----- every run, overtaken or not -----

  /** An answer is for this question, whatever it says. */
  predicate Addresses(a: Answer, q: Question) {
    a.caller == q.caller && (a.EnabledAnswer? <==> q.IsEnabled?)
  }

  /** The posted answers are for the first questions asked, one each in order; the rest are waiting. */
  ghost predicate Accounted(m: Manager, asked: seq<Question>) {
    && |m.posted| + |m.waiting| == |asked|
    && (forall i :: 0 <= i < |m.posted| ==> Addresses(m.posted[i], asked[i]))
    && m.waiting == asked[|m.posted|..]
    && (Finished(m.state) ==> m.waiting == [])
  }

  lemma StepAccounts(m: Manager, e: Event, asked: seq<Question>)
    requires Accounted(m, asked) && Possible(m, e)
    ensures Accounted(Step(m, e), asked + QuestionOf(e))
  {
    match e
    case Ask(q) => AskAccounts(m, q, asked);
    case Finish =>
      assert asked + QuestionOf(e) == asked;
      FinishAccounts(m, asked);
    case _ => assert asked + QuestionOf(e) == asked;
  }

  lemma AskAccounts(m: Manager, q: Question, asked: seq<Question>)
    requires Accounted(m, asked)
    ensures Accounted(Step(m, Ask(q)), asked + [q])
  {
    assert (asked + [q])[|m.posted|..] == m.waiting + [q];
  }

  lemma FinishAccounts(m: Manager, asked: seq<Question>)
    requires Accounted(m, asked) && !Finished(m.state)
    ensures Accounted(Step(m, Finish), asked)
  {
    forall i | |m.posted| <= i < |asked| ensures Addresses(Step(m, Finish).posted[i], asked[i]) {
      assert m.waiting[i - |m.posted|] == asked[i];
    }
  }

  lemma {:induction false} RunAccounts(m: Manager, events: seq<Event>, asked: seq<Question>, all: seq<Question>)
    requires Accounted(m, asked) && Legal(m, events) && all == asked + Asked(events)
    ensures Accounted(Run(m, events), all)
    decreases |events|
  {
    if events == [] {
      assert all == asked;
    } else {
      var now := QuestionOf(events[0]);
      StepAccounts(m, events[0], asked);
      Associative(asked, now, Asked(events[1..]));
      RunAccounts(Step(m, events[0]), events[1..], asked + now, all);
    }
  }

  /** Even if a reply is overtaken no question is lost or answered twice: the answers posted are for the first
      questions asked, one each in order, and the rest still wait. */
  lemma NoQuestionLostOrRepeated(events: seq<Event>)
    requires Legal(FRESH, events)
    ensures Accounted(Run(FRESH, events), Asked(events))
  {
    RunAccounts(FRESH, events, [], Asked(events));
  }

  /** Every state on the way is final. */
  ghost predicate StaysFinal(m: Manager, events: seq<Event>)
    requires Legal(m, events)
    decreases |events|
  {
    Finished(m.state) && (events == [] || StaysFinal(Step(m, events[0]), events[1..]))
  }

  /** Exactly an overtaken reply moves a final state: over any events it is kept throughout if and only if no reply
      was overtaken. */
  lemma {:induction false} StaysFinalIffNeverOvertaken(m: Manager, events: seq<Event>)
    requires Finished(m.state) && Legal(m, events)
    ensures StaysFinal(m, events) <==> NeverOvertaken(m, events)
    decreases |events|
  {
    if events != [] && !Overtaken(m, events[0]) {
      StaysFinalIffNeverOvertaken(Step(m, events[0]), events[1..]);
    }
  }

  // ----- the verdicts of an overtaken run -----

  /** The index of the first overtaken reply, or the number of events if there is none. */
  ghost function OvertakenAt(m: Manager, events: seq<Event>): (k: nat)
    requires Legal(m, events)
    ensures k <= |events|
    decreases |events|
  {
    if events == [] || Overtaken(m, events[0]) then 0 else 1 + OvertakenAt(Step(m, events[0]), events[1..])
  }

  lemma {:induction false} OvertakenAtIsFirst(m: Manager, events: seq<Event>)
    requires Legal(m, events)
    ensures OvertakenAt(m, events) == |events| <==> NeverOvertaken(m, events)
    decreases |events|
  {
    if events != [] && !Overtaken(m, events[0]) { OvertakenAtIsFirst(Step(m, events[0]), events[1..]); }
  }

  /** Behind an overtaken reply: questions wait again until the second finish, which answers them as enabled. */
  ghost predicate Behind(m: Manager, slot: Option<nat>, base: seq<Answer>, since: seq<Question>, finished: bool) {
    && !m.replyPending && m.systemSlot == slot
    && m.state == (if finished then TpmTokenEnabled else TpmTokenInitialized)
    && m.posted == base + (if finished then AnswersTo(TpmTokenEnabled, slot, since) else [])
    && m.waiting == (if finished then [] else since)
  }

  lemma {:induction false} RunBehind(
    m: Manager, events: seq<Event>, slot: Option<nat>, base: seq<Answer>, since: seq<Question>, finished: bool,
    all: seq<Question>)
    requires Legal(m, events) && Behind(m, slot, base, since, finished) && all == since + Asked(events)
    ensures Behind(Run(m, events), slot, base, all, finished || Finish in events)
    decreases |events|
  {
    if events == [] {
      assert all == since;
    } else {
      var e := events[0];
      var now := QuestionOf(e);
      assert events == [e] + events[1..];
      Associative(since, now, Asked(events[1..]));
      StepBehind(m, e, slot, base, since, finished);
      RunBehind(Step(m, e), events[1..], slot, base, since + now, finished || e.Finish?, all);
    }
  }

  lemma StepBehind(
    m: Manager, e: Event, slot: Option<nat>, base: seq<Answer>, since: seq<Question>, finished: bool)
    requires Possible(m, e) && Behind(m, slot, base, since, finished)
    ensures Behind(Step(m, e), slot, base, since + QuestionOf(e), finished || e.Finish?)
  {
    if e.Ask? {
      assert AnswersTo(TpmTokenEnabled, slot, since + [e.question])
          == AnswersTo(TpmTokenEnabled, slot, since) + [AnswerTo(TpmTokenEnabled, slot, e.question)];
    } else {
      assert since + [] == since;
    }
  }

  /** What an overtaken run posts: disabled to the questions before the overtaken reply, enabled to those after it,
      once finish is called again. */
  function OvertakenAnswers(slot: Option<nat>, before: seq<Question>, after: seq<Event>): seq<Answer> {
    AnswersTo(TpmTokenDisabled, None, before)
    + if Finish in after then AnswersTo(TpmTokenEnabled, slot, Asked(after)) else []
  }

  lemma OvertakenNow(m: Manager, e: Event, rest: seq<Event>, asked: seq<Question>)
    requires Inv(m, asked) && Possible(m, e) && Overtaken(m, e) && Legal(Step(m, e), rest)
    ensures Run(Step(m, e), rest).posted == OvertakenAnswers(e.slot, asked, rest)
  {
    assert Asked(rest) == [] + Asked(rest);
    RunBehind(Step(m, e), rest, e.slot, m.posted, [], false, Asked(rest));
  }

  lemma AskedPrefix(events: seq<Event>, k: nat)
    requires 0 < k <= |events|
    ensures Asked(events[..k]) == QuestionOf(events[0]) + Asked(events[1..][..k - 1])
  {
    assert events[..k][1..] == events[1..][..k - 1];
  }

  lemma {:induction false} OvertakenRun(m: Manager, events: seq<Event>, asked: seq<Question>, all: seq<Question>)
    requires Inv(m, asked) && Legal(m, events) && OvertakenAt(m, events) < |events|
    requires all == asked + Asked(events[..OvertakenAt(m, events)])
    ensures var k := OvertakenAt(m, events);
            events[k].Reply? && Run(m, events).posted == OvertakenAnswers(events[k].slot, all, events[k + 1..])
    decreases |events|
  {
    var e, rest := events[0], events[1..];
    var k := OvertakenAt(m, events);
    if Overtaken(m, e) {
      assert all == asked;
      OvertakenNow(m, e, rest, asked);
    } else {
      var now := QuestionOf(e);
      StepKeeps(m, e, asked);
      AskedPrefix(events, k);
      Associative(asked, now, Asked(rest[..k - 1]));
      OvertakenRun(Step(m, e), rest, asked + now, all);
      assert rest[k - 1] == events[k] && rest[k..] == events[k + 1..];
    }
  }

  /** Two answers that report the token the same way. */
  predicate Agree(a: Answer, b: Answer) {
    match (a, b)
    case (EnabledAnswer(_, x), EnabledAnswer(_, y)) => x == y
    case (SlotAnswer(_, x), SlotAnswer(_, y)) => x == y
    case (EnabledAnswer(_, x), SlotAnswer(_, y)) => x == y.Some?
    case (SlotAnswer(_, x), EnabledAnswer(_, y)) => x.Some? == y
  }

  ghost predicate OneVerdict(answers: seq<Answer>) {
    forall i, j | 0 <= i < |answers| && 0 <= j < |answers| :: Agree(answers[i], answers[j])
  }

  lemma TwoPartsDisagree(slot: Option<nat>, before: seq<Question>, after: seq<Question>)
    requires slot.Some?
    ensures var answers := AnswersTo(TpmTokenDisabled, None, before) + AnswersTo(TpmTokenEnabled, slot, after);
            OneVerdict(answers) <==> before == [] || after == []
  {
    var answers := AnswersTo(TpmTokenDisabled, None, before) + AnswersTo(TpmTokenEnabled, slot, after);
    if before != [] && after != [] {
      assert answers[0] == AnswerTo(TpmTokenDisabled, None, before[0]);
      assert answers[|before|] == AnswerTo(TpmTokenEnabled, slot, after[0]);
      assert !Agree(answers[0], answers[|before|]);
    }
  }

  /** All callers get one verdict if and only if finish overtook no successful reply, or nothing was asked before the
      overtaken reply, or nothing was asked after it, or finish was not called again. In an overtaken run the answers
      are exactly: disabled and null to the questions before the reply, enabled and the slot to those after it. */
  lemma VerdictsAgreeIff(events: seq<Event>)
    requires Legal(FRESH, events)
    ensures var k, m := OvertakenAt(FRESH, events), Run(FRESH, events);
            && (k == |events| <==> NeverOvertaken(FRESH, events))
            && (k < |events| ==>
                  && events[k].Reply? && events[k].slot.Some?
                  && ToldApart(m.posted, Asked(events[..k]), Asked(events[k + 1..]),
                               Finish in events[k + 1..], events[k].slot))
            && (OneVerdict(m.posted) <==>
                  || k == |events|
                  || Asked(events[..k]) == [] || Asked(events[k + 1..]) == [] || Finish !in events[k + 1..])
  {
    var k := OvertakenAt(FRESH, events);
    OvertakenAtIsFirst(FRESH, events);
    if k == |events| {
      NotOvertakenVerdict(events);
    } else {
      OvertakenPosted(events, k);
      OvertakenVerdicts(events[k].slot, Asked(events[..k]), events[k + 1..]);
      OvertakenTold(events[k].slot, Asked(events[..k]), events[k + 1..]);
    }
  }

  /** Disabled and null to the first questions; enabled and the slot to the later ones, if they were answered. */
  ghost predicate ToldApart(
    answers: seq<Answer>, before: seq<Question>, after: seq<Question>, finished: bool, slot: Option<nat>)
  {
    && |answers| == |before| + (if finished then |after| else 0)
    && AllSay(answers[..|before|], before, false, None)
    && (finished ==> AllSay(answers[|before|..], after, true, slot))
  }

  lemma OvertakenTold(slot: Option<nat>, before: seq<Question>, after: seq<Event>)
    ensures ToldApart(OvertakenAnswers(slot, before, after), before, Asked(after), Finish in after, slot)
  {
    var first := AnswersTo(TpmTokenDisabled, None, before);
    var second := if Finish in after then AnswersTo(TpmTokenEnabled, slot, Asked(after)) else [];
    assert (first + second)[..|before|] == first && (first + second)[|before|..] == second;
    AnswersSay(TpmTokenDisabled, None, before);
    AnswersSay(TpmTokenEnabled, slot, Asked(after));
  }

  lemma OvertakenPosted(events: seq<Event>, k: nat)
    requires Legal(FRESH, events) && k == OvertakenAt(FRESH, events) < |events|
    ensures events[k].Reply? && events[k].slot.Some?
    ensures Run(FRESH, events).posted == OvertakenAnswers(events[k].slot, Asked(events[..k]), events[k + 1..])
  {
    OvertakenRun(FRESH, events, [], Asked(events[..k]));
    OvertakenReply(FRESH, events);
  }

  lemma NotOvertakenVerdict(events: seq<Event>)
    requires Legal(FRESH, events) && NeverOvertaken(FRESH, events)
    ensures OneVerdict(Run(FRESH, events).posted)
  {
    RunKeeps(FRESH, events, [], Asked(events));
    var m := Run(FRESH, events);
    if Finished(m.state) { SameAnswersAgree(m.state, m.systemSlot, Asked(events)); }
  }

  lemma SameAnswersAgree(state: State, slot: Option<nat>, qs: seq<Question>)
    requires slot.Some? <==> state == TpmTokenEnabled
    ensures OneVerdict(AnswersTo(state, slot, qs))
  {}

  lemma OvertakenVerdicts(slot: Option<nat>, before: seq<Question>, after: seq<Event>)
    requires slot.Some?
    ensures OneVerdict(OvertakenAnswers(slot, before, after))
            <==> before == [] || Asked(after) == [] || Finish !in after
  {
    TwoPartsDisagree(slot, before, if Finish in after then Asked(after) else []);
    assert AnswersTo(TpmTokenEnabled, slot, []) == [];
  }

  lemma {:induction false} OvertakenReply(m: Manager, events: seq<Event>)
    requires Legal(m, events) && OvertakenAt(m, events) < |events|
    ensures var k := OvertakenAt(m, events); events[k].Reply? && events[k].slot.Some?
    decreases |events|
  {
    if !Overtaken(m, events[0]) { OvertakenReply(Step(m, events[0]), events[1..]); }
  }

  /** With a finish that overtakes the reply, two callers get different verdicts. */
  lemma OvertakenVerdictsDiffer(first: nat, second: nat)
    ensures var events := [Ask(IsEnabled(first)), Initialize, Finish, Reply(Some(1)), Finish, Ask(IsEnabled(second))];
            && Legal(FRESH, events)
            && Run(FRESH, events).posted == [EnabledAnswer(first, false), EnabledAnswer(second, true)]
  {
    var e0 := Ask(IsEnabled(first));
    var e5 := Ask(IsEnabled(second));
    var m1 := Step(FRESH, e0);
    var m2 := Step(m1, Initialize);
    var m3 := Step(m2, Finish);
    assert m3.posted == [EnabledAnswer(first, false)];
    var m4 := Step(m3, Reply(Some(1)));
    var m5 := Step(m4, Finish);
    assert m5.posted == [EnabledAnswer(first, false)];
    var m6 := Step(m5, e5);
    var events := [e0, Initialize, Finish, Reply(Some(1)), Finish, e5];
    assert events[1..] == [Initialize, Finish, Reply(Some(1)), Finish, e5];
    assert events[1..][1..] == [Finish, Reply(Some(1)), Finish, e5];
    assert events[1..][1..][1..] == [Reply(Some(1)), Finish, e5];
    assert events[1..][1..][1..][1..] == [Finish, e5];
    assert events[1..][1..][1..][1..][1..] == [e5];
    assert Legal(m6, []) && Run(m6, []) == m6;
    assert Legal(m5, [e5]) && Run(m5, [e5]) == m6;
    assert Legal(m4, [Finish, e5]) && Run(m4, [Finish, e5]) == m6;
    assert Legal(m3, [Reply(Some(1)), Finish, e5]) && Run(m3, [Reply(Some(1)), Finish, e5]) == m6;
    assert Legal(m2, [Finish, Reply(Some(1)), Finish, e5]);
    assert Run(m2, [Finish, Reply(Some(1)), Finish, e5]) == m6;
    assert Legal(m1, events[1..]) && Run(m1, events[1..]) == m6;
  }

  // ----- the manager updated in place -----

  class ChromeOSTokenManager {
    var state: State
    var systemSlot: Option<nat>
    var callbackList: seq<Question>
    var posted: seq<Answer>
    var replyPending: bool

    ghost function View(): Manager reads this { Manager(state, systemSlot, callbackList, posted, replyPending) }

    constructor () ensures View() == FRESH {
      state, systemSlot, callbackList, posted, replyPending := InitializationNotStarted, None, [], [], false;
    }

    /** IsTPMTokenEnabled, GetSystemNSSKeySlot. */
    method AskNow(q: Question)
      modifies this`callbackList, this`posted
      ensures View() == Step(old(View()), Ask(q))
      ensures if Finished(state)
              then |posted| == |old(posted)| + 1 && posted[..|old(posted)|] == old(posted)
                   && Says(posted[|old(posted)|], q, state == TpmTokenEnabled, systemSlot)
              else callbackList == old(callbackList) + [q] && posted == old(posted)
    {
      if !Finished(state) {
        callbackList := callbackList + [q];
        return;
      }
      posted := posted + [AnswerTo(state, systemSlot, q)];
    }

    method InitializeTPMTokenAndSystemSlot()
      requires state == InitializationNotStarted
      modifies this`state, this`replyPending
      ensures View() == Step(old(View()), Initialize)
    {
      state, replyPending := InitializationStarted, true;
    }

    method OnInitializedTPMTokenAndSystemSlot(slot: Option<nat>)
      requires replyPending
      modifies this`state, this`systemSlot, this`replyPending
      ensures View() == Step(old(View()), Reply(slot))
      ensures systemSlot == slot && state == if slot.Some? then TpmTokenInitialized else old(state)
    {
      replyPending := false;
      systemSlot := slot;
      if systemSlot.Some? {
        state := TpmTokenInitialized;
      }
    }

    /** Each waiting closure runs the question again. The loop ends because a final state was set first, so no
        question is queued again while the list is being notified. */
    method FinishInitializingTPMTokenAndSystemSlot()
      requires !Finished(state)
      modifies this`state, this`callbackList, this`posted
      ensures View() == Step(old(View()), Finish)
      ensures state == if old(state) == TpmTokenInitialized then TpmTokenEnabled else TpmTokenDisabled
      ensures |posted| == |old(posted)| + |old(callbackList)| && posted[..|old(posted)|] == old(posted)
      ensures AllSay(posted[|old(posted)|..], old(callbackList), state == TpmTokenEnabled, systemSlot)
    {
      state := if state == TpmTokenInitialized then TpmTokenEnabled else TpmTokenDisabled;
      ghost var all, final := callbackList, state;
      while callbackList != []
        invariant state == final && systemSlot == old(systemSlot) && replyPending == old(replyPending)
        invariant |callbackList| <= |all| && callbackList == all[|all| - |callbackList|..]
        invariant posted == old(posted) + AnswersTo(state, systemSlot, all[..|all| - |callbackList|])
        decreases |callbackList|
      {
        var q := callbackList[0];
        ghost var k := |all| - |callbackList|;
        assert all[..k + 1] == all[..k] + [q];
        assert AnswersTo(state, systemSlot, all[..k + 1])
            == AnswersTo(state, systemSlot, all[..k]) + [AnswerTo(state, systemSlot, q)];
        callbackList := callbackList[1..];
        AskNow(q);
      }
      assert all[..|all|] == all;
      assert posted == old(posted) + AnswersTo(final, systemSlot, old(callbackList));
      AnswersSay(final, systemSlot, old(callbackList));
      assert posted[|old(posted)|..] == AnswersTo(final, systemSlot, old(callbackList));
    }
  }
}
