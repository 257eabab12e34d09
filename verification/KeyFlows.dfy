/** SignInternal, GenerateUserVerifyingSigningKeyInternal and GetUserVerifyingSigningKeyInternal with their completion
    handlers (crypto/user_verifying_key_win.cc). The handlers may fire as soon as they are registered, also before the
    foregrounder is started. The platform is assumed to fire exactly one handler after a successful registration and
    none after a failed one. */
module KeyFlows {
  import opened Wrappers
  import F = Foregrounder

  datatype Kind = Sign | Generate | Get

  /** The result enumerations of signing and key creation; Payload is the signature buffer or the credential. */
  datatype Code =
    | Succeeded | ApiReturnedError | NoActivationFactory | IBufferCreationFailed | RequestFailed
    | PostAsyncHandlersFailed | InvalidStatusReturned | InvalidResultReturned | InvalidPayloadReturned

  datatype Error = PlatformApiError | UserCancellation | DuplicateCredential | NotFound | UnknownError

  datatype Answer = Ok(payload: nat) | Err(error: Error)

  /** The callback itself, or one of the three copies it was split into. */
  datatype Copy = Whole | ForSuccess | ForError | ForFailedPost

  datatype Effect = StopForegrounder | Record(code: Code) | RunCallback(copy: Copy, answer: Answer)

  /** Which calls made before the handlers are registered succeed. */
  datatype Prologue = Prologue(setUp: bool, request: bool, postHandlers: bool)

  datatype Status =
    | Success | UserCanceled | UserPrefersPassword | CredentialAlreadyExists | NotFoundStatus | OtherStatus

  /** What the result object handed to a success handler says. A failed get_Status leaves `status` unset, so it is
      arbitrary. Only signing asks for the result and then for its bytes. */
  datatype Completed = Completed(statusRead: bool, status: Status, resultRead: bool, payload: Option<nat>)

  datatype Stage = Fresh | HandlersPosted | Returned

  datatype Flow = Flow(
    kind: Kind,
    stage: Stage,
    armed: bool,            // a registered handler has yet to fire
    trace: seq<Effect>,
    fg: F.Poller)           // unused by Get

  function NewFlow(kind: Kind): Flow { Flow(kind, Fresh, false, [], F.IDLE) }

  // ----- the bodies -----

  function Recording(kind: Kind, code: Code): seq<Effect> { if kind.Get? then [] else [Record(code)] }

  /** The effects of the prologue; empty if the handlers were registered. */
  function PrologueEffects(kind: Kind, p: Prologue): seq<Effect> {
    if !p.setUp then
      Recording(kind, if kind.Sign? then IBufferCreationFailed else NoActivationFactory)
      + [RunCallback(Whole, Err(PlatformApiError))]
    else if !p.request then Recording(kind, RequestFailed) + [RunCallback(Whole, Err(PlatformApiError))]
    else if !p.postHandlers then
      Recording(kind, PostAsyncHandlersFailed) + [RunCallback(ForFailedPost, Err(PlatformApiError))]
    else []
  }

  predicate Registers(p: Prologue) { p.setUp && p.request && p.postHandlers }

  function SignError(s: Status): Error {
    if s.UserCanceled? || s.UserPrefersPassword? then UserCancellation else UnknownError
  }

  function CreationError(s: Status): Error {
    match s
    case CredentialAlreadyExists => DuplicateCredential
    case NotFoundStatus => NotFound
    case UserCanceled => UserCancellation
    case UserPrefersPassword => UserCancellation
    case _ => UnknownError
  }

  /** OnSigningSuccess and OnKeyCreationCompletionSuccess: what is recorded, and the answer. */
  function Conclude(kind: Kind, c: Completed): (Code, Answer) {
    if kind.Sign? then
      if !c.statusRead || !c.status.Success? then (InvalidStatusReturned, Err(SignError(c.status)))
      else if !c.resultRead then (InvalidResultReturned, Err(PlatformApiError))
      else if c.payload.None? then (InvalidPayloadReturned, Err(PlatformApiError))
      else (Succeeded, Ok(c.payload.value))
    else if !c.statusRead then (InvalidStatusReturned, Err(PlatformApiError))
    else if !c.status.Success? then (InvalidResultReturned, Err(CreationError(c.status)))
    else if c.payload.None? then (InvalidPayloadReturned, Err(PlatformApiError))
    else (Succeeded, Ok(c.payload.value))
  }

  function Stopping(kind: Kind): seq<Effect> { if kind.Get? then [] else [StopForegrounder] }

  function SuccessEffects(kind: Kind, c: Completed): seq<Effect> {
    Stopping(kind) + [Record(Conclude(kind, c).0), RunCallback(ForSuccess, Conclude(kind, c).1)]
  }

  function ErrorEffects(kind: Kind): seq<Effect> {
    Stopping(kind) + [Record(ApiReturnedError), RunCallback(ForError, Err(PlatformApiError))]
  }

  // ----- the steps of one flow, interleaved in any order -----

  datatype Event =
    | Begin(prologue: Prologue)
    | StartForegrounder(look: F.Look)
    | FireSuccess(completed: Completed)
    | FireError
    | PollDialog(look: F.Look)

  /** Start demands a foregrounder not started yet; StartIsFirst shows that it always meets one. */
  predicate Possible(f: Flow, e: Event) {
    match e
    case Begin(_) => f.stage.Fresh?
    case StartForegrounder(_) => f.stage.HandlersPosted? && f.fg.phase.NotStarted?
    case FireSuccess(_) => f.armed
    case FireError => f.armed
    case PollDialog(look) => F.Possible(f.fg, F.Poll(look))
  }

  function StopPoller(f: Flow): F.Poller { if f.kind.Get? then f.fg else F.Step(f.fg, F.Stop) }

  function Step(f: Flow, e: Event): Flow
    requires Possible(f, e)
  {
    match e
    case Begin(p) =>
      f.(trace := f.trace + PrologueEffects(f.kind, p), armed := Registers(p),
         stage := if Registers(p) && !f.kind.Get? then HandlersPosted else Returned)
    case StartForegrounder(look) => f.(stage := Returned, fg := F.Step(f.fg, F.Start(look)))
    case FireSuccess(c) => f.(armed := false, fg := StopPoller(f), trace := f.trace + SuccessEffects(f.kind, c))
    case FireError => f.(armed := false, fg := StopPoller(f), trace := f.trace + ErrorEffects(f.kind))
    case PollDialog(look) => f.(fg := F.Step(f.fg, F.Poll(look)))
  }

  function LookOf(e: Event): seq<F.Look> { if e.StartForegrounder? || e.PollDialog? then [e.look] else [] }

  // ----- what every step keeps -----

  /** The effects so far are nothing, those of one failed prologue, or those of one handler. */
  ghost predicate TraceOf(f: Flow) {
    if f.stage.Fresh? then !f.armed && f.trace == [] && f.fg == F.IDLE
    else if f.armed then f.trace == [] && !f.fg.stopping
    else
      || (f.stage.Returned? && f.fg == F.IDLE
          && exists p :: !Registers(p) && f.trace == PrologueEffects(f.kind, p))
      || ((f.kind.Get? || f.fg.stopping) && Fired(f))
  }

  ghost predicate Fired(f: Flow) {
    f.trace == ErrorEffects(f.kind) || exists c :: f.trace == SuccessEffects(f.kind, c)
  }

  ghost predicate Inv(f: Flow, looks: seq<F.Look>) {
    && F.Inv(f.fg, looks)
    && (!f.stage.Returned? || f.kind.Get? ==> f.fg.phase.NotStarted?)
    && (f.stage.HandlersPosted? ==> !f.kind.Get?)
    && TraceOf(f)
  }

  lemma BeginKeeps(f: Flow, p: Prologue, looks: seq<F.Look>)
    requires Inv(f, looks) && f.stage.Fresh?
    ensures Inv(Step(f, Begin(p)), looks)
  {
    assert f.trace + PrologueEffects(f.kind, p) == PrologueEffects(f.kind, p);
  }

  lemma FireKeeps(f: Flow, e: Event, looks: seq<F.Look>)
    requires Inv(f, looks) && f.armed && (e.FireSuccess? || e.FireError?)
    ensures Inv(Step(f, e), looks)
  {
    F.StepKeeps(f.fg, F.Stop, looks);
    assert looks + F.LookOf(F.Stop) == looks;
    var f' := Step(f, e);
    if e.FireSuccess? {
      assert f'.trace == SuccessEffects(f.kind, e.completed);
    } else {
      assert f'.trace == ErrorEffects(f.kind);
    }
  }

  lemma PollKeeps(f: Flow, e: Event, looks: seq<F.Look>)
    requires Inv(f, looks) && Possible(f, e) && (e.StartForegrounder? || e.PollDialog?)
    ensures Inv(Step(f, e), looks + [e.look])
  {
    F.StepKeeps(f.fg, if e.PollDialog? then F.Poll(e.look) else F.Start(e.look), looks);
    var f' := Step(f, e);
    assert f'.trace == f.trace && f'.armed == f.armed && f'.kind == f.kind && f'.fg.stopping == f.fg.stopping;
    if !f.armed {
      assert Fired(f);
      assert Fired(f');
    }
  }

  lemma StepKeeps(f: Flow, e: Event, looks: seq<F.Look>)
    requires Inv(f, looks) && Possible(f, e)
    ensures Inv(Step(f, e), looks + LookOf(e))
  {
    assert looks + [] == looks;
    match e
    case Begin(p) => BeginKeeps(f, p, looks);
    case FireSuccess(_) => FireKeeps(f, e, looks);
    case FireError => FireKeeps(f, e, looks);
    case _ => PollKeeps(f, e, looks);
  }

  ghost predicate Legal(f: Flow, events: seq<Event>)
    decreases |events|
  {
    events == [] || (Possible(f, events[0]) && Legal(Step(f, events[0]), events[1..]))
  }

  function Run(f: Flow, events: seq<Event>): Flow
    requires Legal(f, events)
    decreases |events|
  {
    if events == [] then f else Run(Step(f, events[0]), events[1..])
  }

  lemma {:induction false} RunKeeps(f: Flow, events: seq<Event>, looks: seq<F.Look>) returns (all: seq<F.Look>)
    requires Inv(f, looks) && Legal(f, events)
    ensures Inv(Run(f, events), all) && Run(f, events).kind == f.kind
    decreases |events|
  {
    if events == [] {
      all := looks;
    } else {
      StepKeeps(f, events[0], looks);
      all := RunKeeps(Step(f, events[0]), events[1..], looks + LookOf(events[0]));
    }
  }

  // ----- what the flows promise -----

  function CallbackRuns(trace: seq<Effect>): nat {
    if trace == [] then 0 else (if trace[0].RunCallback? then 1 else 0) + CallbackRuns(trace[1..])
  }

  function Records(trace: seq<Effect>): nat {
    if trace == [] then 0 else (if trace[0].Record? then 1 else 0) + Records(trace[1..])
  }

  predicate HandlerRan(trace: seq<Effect>) {
    exists i | 0 <= i < |trace| :: trace[i].RunCallback? && (trace[i].copy.ForSuccess? || trace[i].copy.ForError?)
  }

  /** The flow's own task has returned and no handler is on its way. */
  predicate Settled(f: Flow) { !f.stage.Fresh? && !f.armed }

  lemma {:induction false} CountShort(trace: seq<Effect>)
    requires |trace| <= 3
    ensures CallbackRuns(trace) == (if |trace| > 0 && trace[0].RunCallback? then 1 else 0)
                                 + (if |trace| > 1 && trace[1].RunCallback? then 1 else 0)
                                 + (if |trace| > 2 && trace[2].RunCallback? then 1 else 0)
    ensures Records(trace) == (if |trace| > 0 && trace[0].Record? then 1 else 0)
                            + (if |trace| > 1 && trace[1].Record? then 1 else 0)
                            + (if |trace| > 2 && trace[2].Record? then 1 else 0)
  {
    if |trace| > 0 {
      var rest := trace[1..];
      CountShort(rest);
      assert |trace| > 1 ==> rest[0] == trace[1];
      assert |trace| > 2 ==> rest[1] == trace[2];
    }
  }

  /** Over every interleaving: the caller's callback never runs twice across the copies, and has run exactly once when
      the flow has settled. Signing and generating record exactly one result by then; getting records at most one, and
      one exactly if a handler fired. */
  lemma CallbackRunsOnce(kind: Kind, events: seq<Event>)
    requires Legal(NewFlow(kind), events)
    ensures var f := Run(NewFlow(kind), events);
            && CallbackRuns(f.trace) == (if Settled(f) then 1 else 0)
            && (!kind.Get? ==> Records(f.trace) == CallbackRuns(f.trace))
            && (kind.Get? && Settled(f) ==> Records(f.trace) == if HandlerRan(f.trace) then 1 else 0)
  {
    var looks := RunKeeps(NewFlow(kind), events, []);
    var f := Run(NewFlow(kind), events);
    SettledTrace(f);
    CountShort(f.trace);
    if kind.Get? && Settled(f) {
      GetTrace(f);
    }
  }

  lemma GetTrace(f: Flow)
    requires TraceOf(f) && f.kind.Get? && Settled(f)
    ensures if HandlerRan(f.trace) then |f.trace| == 2 && f.trace[0].Record? && f.trace[1].RunCallback?
            else |f.trace| == 1 && f.trace[0].RunCallback?
  {
    if |f.trace| == 2 {
      assert f.trace[1].RunCallback? && (f.trace[1].copy.ForSuccess? || f.trace[1].copy.ForError?);
    }
  }

  lemma SettledTrace(f: Flow)
    requires TraceOf(f)
    ensures |f.trace| <= 3
    ensures if Settled(f) then f.trace != [] && Shaped(f.kind, f.trace) else f.trace == []
  {}

  /** [stop], [record], callback. */
  predicate Shaped(kind: Kind, trace: seq<Effect>)
    requires trace != []
  {
    var n := |trace|;
    && n <= 3 && trace[n - 1].RunCallback?
    && (n > 1 ==> trace[n - 2].Record?)
    && (n > 2 ==> trace[0].StopForegrounder?)
    && (!kind.Get? ==> n > 1)
  }

  /** Whenever the callback has run, the foregrounder was told to stop before that, or it was never started and will
      never be. */
  lemma StoppedBeforeCallback(kind: Kind, events: seq<Event>, i: nat)
    requires Legal(NewFlow(kind), events)
    requires i < |Run(NewFlow(kind), events).trace| && Run(NewFlow(kind), events).trace[i].RunCallback?
    ensures var f := Run(NewFlow(kind), events);
            || (f.fg.stopping && StopForegrounder in f.trace[..i])
            || (f.fg.phase.NotStarted? && !f.stage.HandlersPosted? && !f.stage.Fresh?)
  {
    var looks := RunKeeps(NewFlow(kind), events, []);
    var f := Run(NewFlow(kind), events);
    SettledTrace(f);
    if |f.trace| == 3 {
      assert f.trace[..i][0] == StopForegrounder;
    }
  }

  /** A settled flow whose chain is over has recorded exactly one foregrounding outcome if the foregrounder was
      started, and none otherwise; and from a settled flow any further poll ends the chain. */
  lemma ForegrounderSettles(kind: Kind, events: seq<Event>, look: F.Look)
    requires Legal(NewFlow(kind), events) && Settled(Run(NewFlow(kind), events))
    ensures var f := Run(NewFlow(kind), events);
            && |f.fg.outcomes| <= 1
            && (f.fg.next.None? ==> |f.fg.outcomes| == if f.fg.phase.NotStarted? then 0 else 1)
            && (Possible(f, PollDialog(look)) ==> F.ChainEnded(Step(f, PollDialog(look)).fg))
            && (Possible(f, StartForegrounder(look)) ==> F.ChainEnded(Step(f, StartForegrounder(look)).fg))
  {
    var looks := RunKeeps(NewFlow(kind), events, []);
  }

  /** The start of the foregrounder never meets one already started. */
  lemma StartIsFirst(kind: Kind, events: seq<Event>)
    requires Legal(NewFlow(kind), events) && Run(NewFlow(kind), events).stage.HandlersPosted?
    ensures Run(NewFlow(kind), events).fg.phase.NotStarted?
  {
    var looks := RunKeeps(NewFlow(kind), events, []);
  }

  /** The recorded result and the answer agree: success is recorded, just before, exactly when the caller gets the
      payload. */
  lemma RecordMatchesAnswer(kind: Kind, events: seq<Event>, i: nat)
    requires Legal(NewFlow(kind), events)
    requires 0 < i < |Run(NewFlow(kind), events).trace| && Run(NewFlow(kind), events).trace[i].RunCallback?
    ensures AgreesAt(Run(NewFlow(kind), events).trace, i)
  {
    var looks := RunKeeps(NewFlow(kind), events, []);
    TraceAgrees(Run(NewFlow(kind), events), i);
  }

  predicate AgreesAt(t: seq<Effect>, i: nat)
    requires 0 < i < |t| && t[i].RunCallback?
  {
    && t[i - 1].Record? && (t[i - 1].code == Succeeded <==> t[i].answer.Ok?)
    && (t[i].answer.Ok? ==> t[i].copy == ForSuccess)
  }

  lemma TraceAgrees(f: Flow, i: nat)
    requires TraceOf(f) && 0 < i < |f.trace| && f.trace[i].RunCallback?
    ensures AgreesAt(f.trace, i)
  {
    SettledTrace(f);
    assert i == |f.trace| - 1;
  }

  // ----- the answer is what the platform said -----

  predicate IsFire(e: Event) { e.FireSuccess? || e.FireError? }

  function FireEffects(kind: Kind, e: Event): seq<Effect>
    requires IsFire(e)
  {
    if e.FireError? then ErrorEffects(kind) else SuccessEffects(kind, e.completed)
  }

  ghost predicate NoFire(events: seq<Event>) { forall e | e in events :: !IsFire(e) }

  ghost predicate NoneFailed(events: seq<Event>) { forall e | e in events && e.Begin? :: Registers(e.prologue) }

  /** The trace is that of the one handler that fired, or of the prologue that failed with none, or empty with none. */
  ghost predicate Traced(f: Flow, past: seq<Event>) {
    && (f.stage.Fresh? ==> forall e | e in past :: !e.Begin?)
    && if !Settled(f) then f.trace == [] && NoFire(past) && NoneFailed(past)
       else
         || (NoFire(past) && exists p | Begin(p) in past && !Registers(p) ::
               f.trace == PrologueEffects(f.kind, p) && forall x | x in past && x.Begin? :: x == Begin(p))
         || (NoneFailed(past) && exists e | e in past && IsFire(e) ::
               f.trace == FireEffects(f.kind, e) && forall x | x in past && IsFire(x) :: x == e)
  }

  lemma StepTraced(f: Flow, e: Event, past: seq<Event>)
    requires Traced(f, past) && Possible(f, e) && (f.stage.Fresh? ==> !f.armed)
    ensures Traced(Step(f, e), past + [e])
  {
    var f' := Step(f, e);
    if IsFire(e) {
      assert f'.trace == FireEffects(f.kind, e);
      assert e in past + [e];
    } else if e.Begin? {
      assert f'.trace == PrologueEffects(f.kind, e.prologue);
      assert Begin(e.prologue) in past + [e];
    } else if Settled(f) && !NoFire(past) {
      var x :| x in past && IsFire(x) && f.trace == FireEffects(f.kind, x)
                && forall y | y in past && IsFire(y) :: y == x;
      assert x in past + [e];
    } else if Settled(f) {
      var p :| Begin(p) in past && !Registers(p) && f.trace == PrologueEffects(f.kind, p)
                && forall x | x in past && x.Begin? :: x == Begin(p);
      assert Begin(p) in past + [e];
    }
  }

  lemma {:induction false} RunTraced(
    f: Flow, events: seq<Event>, looks: seq<F.Look>, past: seq<Event>, all: seq<Event>)
    requires Inv(f, looks) && Traced(f, past) && Legal(f, events) && all == past + events
    ensures Traced(Run(f, events), all)
    decreases |events|
  {
    if events == [] {
      assert all == past;
    } else {
      StepTraced(f, events[0], past);
      StepKeeps(f, events[0], looks);
      assert all == past + [events[0]] + events[1..];
      RunTraced(Step(f, events[0]), events[1..], looks + LookOf(events[0]), past + [events[0]], all);
    }
  }

  /** Every platform call on the way succeeded, and this is the payload. */
  predicate Yields(kind: Kind, e: Event, payload: nat) {
    && e.FireSuccess? && e.completed.statusRead && e.completed.status.Success?
    && e.completed.payload == Some(payload) && (kind.Sign? ==> e.completed.resultRead)
  }

  /** The status variable says that the user refused. */
  predicate SaysRefused(e: Event) {
    e.FireSuccess? && (e.completed.status.UserCanceled? || e.completed.status.UserPrefersPassword?)
  }

  /** The platform reported the refusal. */
  predicate Reports(e: Event) { SaysRefused(e) && e.completed.statusRead }

  /** A refusal is taken for one; signing does not look whether the status was read. */
  predicate Refuses(kind: Kind, e: Event) { SaysRefused(e) && (kind.Sign? || e.completed.statusRead) }

  ghost predicate Tells(trace: seq<Effect>, answer: Answer) {
    exists copy :: RunCallback(copy, answer) in trace
  }

  lemma FireTells(kind: Kind, e: Event, answer: Answer)
    requires IsFire(e)
    ensures Tells(FireEffects(kind, e), answer) <==>
              answer == if e.FireError? then Err(PlatformApiError) else Conclude(kind, e.completed).1
  {
    var copy := if e.FireError? then ForError else ForSuccess;
    var told := if e.FireError? then Err(PlatformApiError) else Conclude(kind, e.completed).1;
    var trace := FireEffects(kind, e);
    assert trace[|trace| - 1] == RunCallback(copy, told);
  }

  lemma PrologueTells(kind: Kind, p: Prologue, answer: Answer)
    requires !Registers(p)
    ensures Tells(PrologueEffects(kind, p), answer) <==> answer == Err(PlatformApiError)
  {
    var trace := PrologueEffects(kind, p);
    assert trace[|trace| - 1].RunCallback? && trace[|trace| - 1].answer == Err(PlatformApiError);
    assert trace[|trace| - 1] == RunCallback(trace[|trace| - 1].copy, Err(PlatformApiError));
  }

  /** Over every interleaving: the caller is told a payload exactly if a handler fired with every platform call behind
      it successful, and then that payload; and a user cancellation exactly if the status variable says so, which
      signing believes even if it was never set. */
  lemma CallerToldOutcome(kind: Kind, events: seq<Event>, payload: nat)
    requires Legal(NewFlow(kind), events)
    ensures var trace := Run(NewFlow(kind), events).trace;
            && (Tells(trace, Ok(payload)) <==> exists e :: e in events && Yields(kind, e, payload))
            && (Tells(trace, Err(UserCancellation)) <==> exists e :: e in events && Refuses(kind, e))
  {
    RunTraced(NewFlow(kind), events, [], [], events);
    var looks := RunKeeps(NewFlow(kind), events, []);
    var f := Run(NewFlow(kind), events);
    if Settled(f) {
      if NoFire(events) {
        var p :| !Registers(p) && f.trace == PrologueEffects(f.kind, p);
        PrologueTells(kind, p, Ok(payload));
        PrologueTells(kind, p, Err(UserCancellation));
      } else {
        var e :| e in events && IsFire(e) && f.trace == FireEffects(f.kind, e)
                  && forall x | x in events && IsFire(x) :: x == e;
        FireOutcome(kind, e, payload);
      }
    }
  }

  lemma FireOutcome(kind: Kind, e: Event, payload: nat)
    requires IsFire(e)
    ensures Tells(FireEffects(kind, e), Ok(payload)) <==> Yields(kind, e, payload)
    ensures Tells(FireEffects(kind, e), Err(UserCancellation)) <==> Refuses(kind, e)
  {
    FireTells(kind, e, Ok(payload));
    FireTells(kind, e, Err(UserCancellation));
  }

  // ----- every result recorded and every error told -----

  predicate StatusOk(c: Completed) { c.statusRead && c.status.Success? }

  /** The result that an event has to record. */
  predicate CallsFor(kind: Kind, e: Event, code: Code) {
    match code
    case Succeeded =>
      e.FireSuccess? && StatusOk(e.completed) && (kind.Sign? ==> e.completed.resultRead) && e.completed.payload.Some?
    case ApiReturnedError => e.FireError?
    case InvalidStatusReturned =>
      e.FireSuccess? && if kind.Sign? then !StatusOk(e.completed) else !e.completed.statusRead
    case InvalidResultReturned =>
      e.FireSuccess? && if kind.Sign? then StatusOk(e.completed) && !e.completed.resultRead
                        else e.completed.statusRead && !e.completed.status.Success?
    case InvalidPayloadReturned =>
      e.FireSuccess? && StatusOk(e.completed) && (kind.Sign? ==> e.completed.resultRead) && e.completed.payload.None?
    case IBufferCreationFailed => e.Begin? && kind.Sign? && !e.prologue.setUp
    case NoActivationFactory => e.Begin? && kind.Generate? && !e.prologue.setUp
    case RequestFailed => e.Begin? && !kind.Get? && e.prologue.setUp && !e.prologue.request
    case PostAsyncHandlersFailed =>
      e.Begin? && !kind.Get? && e.prologue.setUp && e.prologue.request && !e.prologue.postHandlers
  }

  /** The error that an event has to report to the caller. */
  predicate Fails(kind: Kind, e: Event, error: Error) {
    match error
    case UserCancellation => SaysRefused(e) && (kind.Sign? || e.completed.statusRead)
    case DuplicateCredential =>
      e.FireSuccess? && !kind.Sign? && e.completed.statusRead && e.completed.status.CredentialAlreadyExists?
    case NotFound => e.FireSuccess? && !kind.Sign? && e.completed.statusRead && e.completed.status.NotFoundStatus?
    case UnknownError =>
      e.FireSuccess? && if kind.Sign? then !StatusOk(e.completed) && !SaysRefused(e)
                        else e.completed.statusRead && e.completed.status.OtherStatus?
    case PlatformApiError =>
      || e.FireError?
      || (e.Begin? && !(e.prologue.setUp && e.prologue.request && e.prologue.postHandlers))
      || (e.FireSuccess? && !kind.Sign? && !e.completed.statusRead)
      || (e.FireSuccess? && StatusOk(e.completed)
          && ((kind.Sign? && !e.completed.resultRead) || e.completed.payload.None?))
  }

  lemma FireRecords(kind: Kind, e: Event, code: Code, error: Error)
    requires IsFire(e)
    ensures Record(code) in FireEffects(kind, e) <==> CallsFor(kind, e, code)
    ensures Tells(FireEffects(kind, e), Err(error)) <==> Fails(kind, e, error)
  {
    var trace, n := FireEffects(kind, e), |FireEffects(kind, e)|;
    assert trace[n - 2].Record? && forall i | 0 <= i < n && i != n - 2 :: !trace[i].Record?;
    FireTells(kind, e, Err(error));
  }

  lemma PrologueRecords(kind: Kind, p: Prologue, code: Code, error: Error)
    requires !Registers(p)
    ensures Record(code) in PrologueEffects(kind, p) <==> CallsFor(kind, Begin(p), code)
    ensures Tells(PrologueEffects(kind, p), Err(error)) <==> Fails(kind, Begin(p), error)
  {
    PrologueTells(kind, p, Err(error));
  }

  /** Over every interleaving each result is recorded, and each error told, exactly if an event calls for it: the first
      platform call that failed, or the status the handler was given, decides. */
  lemma OutcomeTable(kind: Kind, events: seq<Event>, code: Code, error: Error)
    requires Legal(NewFlow(kind), events)
    ensures var trace := Run(NewFlow(kind), events).trace;
            && (Record(code) in trace <==> exists e :: e in events && CallsFor(kind, e, code))
            && (Tells(trace, Err(error)) <==> exists e :: e in events && Fails(kind, e, error))
  {
    RunTraced(NewFlow(kind), events, [], [], events);
    var looks := RunKeeps(NewFlow(kind), events, []);
    var decisive := DecisiveEvent(Run(NewFlow(kind), events), events);
    forall x | x in events && decisive != Some(x) ensures !CallsFor(kind, x, code) && !Fails(kind, x, error) {
      NotDecisive(kind, x, code, error);
    }
    if decisive.Some? { DecisiveRecords(kind, decisive.value, code, error); }
  }

  /** A handler fired, or a prologue failed. */
  predicate Decisive(e: Event) { IsFire(e) || (e.Begin? && !Registers(e.prologue)) }

  function EffectsOf(kind: Kind, e: Event): seq<Effect>
    requires Decisive(e)
  {
    if e.Begin? then PrologueEffects(kind, e.prologue) else FireEffects(kind, e)
  }

  /** At most one event is decisive, and the trace is its effects. */
  lemma DecisiveEvent(f: Flow, events: seq<Event>) returns (d: Option<Event>)
    requires Traced(f, events)
    ensures d.None? ==> f.trace == []
    ensures d.Some? ==> d.value in events && Decisive(d.value) && f.trace == EffectsOf(f.kind, d.value)
    ensures forall x | x in events && d != Some(x) :: !Decisive(x)
  {
    d := None;
    if Settled(f) {
      if NoFire(events) {
        var p :| Begin(p) in events && !Registers(p) && f.trace == PrologueEffects(f.kind, p)
                  && forall x | x in events && x.Begin? :: x == Begin(p);
        d := Some(Begin(p));
      } else {
        var e :| e in events && IsFire(e) && f.trace == FireEffects(f.kind, e)
                  && forall x | x in events && IsFire(x) :: x == e;
        d := Some(e);
      }
    }
  }

  lemma NotDecisive(kind: Kind, e: Event, code: Code, error: Error)
    requires !Decisive(e)
    ensures !CallsFor(kind, e, code) && !Fails(kind, e, error)
  {}

  lemma DecisiveRecords(kind: Kind, e: Event, code: Code, error: Error)
    requires Decisive(e)
    ensures Record(code) in EffectsOf(kind, e) <==> CallsFor(kind, e, code)
    ensures Tells(EffectsOf(kind, e), Err(error)) <==> Fails(kind, e, error)
  {
    if IsFire(e) { FireRecords(kind, e, code, error); } else { PrologueRecords(kind, e.prologue, code, error); }
  }

  lemma OneFires(kind: Kind, events: seq<Event>, e: Event, x: Event)
    requires Legal(NewFlow(kind), events) && e in events && x in events && IsFire(e) && IsFire(x)
    ensures e == x
  {
    RunTraced(NewFlow(kind), events, [], [], events);
    var f := Run(NewFlow(kind), events);
    assert !NoFire(events);
  }

  /** Over every interleaving: a caller is told of a cancellation that the platform did not report exactly when signing
      could not read the status and the unset variable happens to hold one. */
  lemma UnreportedCancellation(kind: Kind, events: seq<Event>)
    requires Legal(NewFlow(kind), events)
    ensures Tells(Run(NewFlow(kind), events).trace, Err(UserCancellation)) && !(exists e :: e in events && Reports(e))
            <==> kind.Sign? && exists e :: e in events && SaysRefused(e) && !e.completed.statusRead
  {
    CallerToldOutcome(kind, events, 0);
    forall e, x | e in events && x in events && Reports(e) && SaysRefused(x) ensures x.completed.statusRead {
      OneFires(kind, events, e, x);
    }
  }

  /** Such a run. */
  lemma UnreadStatusTakenForRefusal(c: Completed)
    requires !c.statusRead && c.status.UserCanceled?
    ensures var events := [Begin(Prologue(true, true, true)), FireSuccess(c)];
            && Legal(NewFlow(Sign), events)
            && Tells(Run(NewFlow(Sign), events).trace, Err(UserCancellation)) && forall e | e in events :: !Reports(e)
  {
    var events := [Begin(Prologue(true, true, true)), FireSuccess(c)];
    var f := Step(NewFlow(Sign), events[0]);
    assert events[1..] == [FireSuccess(c)] && events[1..][1..] == [];
    assert Legal(f, events[1..]);
    assert SaysRefused(events[1]);
    UnreportedCancellation(Sign, events);
  }

  // ----- the flow updated in place -----

  class KeyOperation {
    const kind: Kind
    const foregrounder: F.HelloDialogForegrounder
    var stage: Stage
    var armed: bool
    var trace: seq<Effect>

    ghost function View(): Flow reads this, foregrounder { Flow(kind, stage, armed, trace, foregrounder.View()) }

    constructor (kind: Kind) ensures View() == NewFlow(kind) && fresh(foregrounder) {
      this.kind := kind;
      foregrounder := new F.HelloDialogForegrounder();
      stage, armed, trace := Fresh, false, [];
    }

    /** SignInternal, up to the registration of the handlers. */
    method SignInternal(p: Prologue)
      requires kind.Sign? && stage.Fresh?
      modifies this
      ensures View() == Step(old(View()), Begin(p))
    {
      stage, armed := Returned, false;
      if !p.setUp {
        trace := trace + [Record(IBufferCreationFailed), RunCallback(Whole, Err(PlatformApiError))];
        return;
      }
      if !p.request {
        trace := trace + [Record(RequestFailed), RunCallback(Whole, Err(PlatformApiError))];
        return;
      }
      if !p.postHandlers {
        trace := trace + [Record(PostAsyncHandlersFailed), RunCallback(ForFailedPost, Err(PlatformApiError))];
        return;
      }
      stage, armed := HandlersPosted, true;
    }

    method GenerateInternal(p: Prologue)
      requires kind.Generate? && stage.Fresh?
      modifies this
      ensures View() == Step(old(View()), Begin(p))
    {
      stage, armed := Returned, false;
      if !p.setUp {
        trace := trace + [Record(NoActivationFactory), RunCallback(Whole, Err(PlatformApiError))];
        return;
      }
      if !p.request {
        trace := trace + [Record(RequestFailed), RunCallback(Whole, Err(PlatformApiError))];
        return;
      }
      if !p.postHandlers {
        trace := trace + [Record(PostAsyncHandlersFailed), RunCallback(ForFailedPost, Err(PlatformApiError))];
        return;
      }
      stage, armed := HandlersPosted, true;
    }

    method GetInternal(p: Prologue)
      requires kind.Get? && stage.Fresh?
      modifies this
      ensures View() == Step(old(View()), Begin(p))
    {
      stage, armed := Returned, false;
      if !p.setUp || !p.request {
        trace := trace + [RunCallback(Whole, Err(PlatformApiError))];
        return;
      }
      if !p.postHandlers {
        trace := trace + [RunCallback(ForFailedPost, Err(PlatformApiError))];
        return;
      }
      armed := true;
    }

    /** The last statement of signing and generating. */
    method StartForegrounding(look: F.Look)
      requires stage.HandlersPosted? && foregrounder.state.NotStarted?
      modifies this, foregrounder
      ensures View() == Step(old(View()), StartForegrounder(look))
    {
      stage := Returned;
      foregrounder.BeginPolling(look);
    }

    method StopForegrounding()
      modifies this`trace, foregrounder
      ensures foregrounder.View() == StopPoller(old(View())) && trace == old(trace) + Stopping(kind)
    {
      if !kind.Get? {
        foregrounder.RequestStop();
        trace := trace + [StopForegrounder];
      }
    }

    method Finish(code: Code, copy: Copy, answer: Answer)
      modifies this`trace
      ensures trace == old(trace) + [Record(code), RunCallback(copy, answer)]
    {
      trace := trace + [Record(code)];
      trace := trace + [RunCallback(copy, answer)];
    }

    method OnSuccess(c: Completed)
      requires armed
      modifies this`armed, this`trace, foregrounder
      ensures View() == Step(old(View()), FireSuccess(c))
    {
      armed := false;
      StopForegrounding();
      if kind.Sign? {
        if !c.statusRead || !c.status.Success? {
          Finish(InvalidStatusReturned, ForSuccess, Err(SignError(c.status)));
        } else if !c.resultRead {
          Finish(InvalidResultReturned, ForSuccess, Err(PlatformApiError));
        } else if c.payload.None? {
          Finish(InvalidPayloadReturned, ForSuccess, Err(PlatformApiError));
        } else {
          Finish(Succeeded, ForSuccess, Ok(c.payload.value));
        }
      } else if !c.statusRead {
        Finish(InvalidStatusReturned, ForSuccess, Err(PlatformApiError));
      } else if !c.status.Success? {
        Finish(InvalidResultReturned, ForSuccess, Err(CreationError(c.status)));
      } else if c.payload.None? {
        Finish(InvalidPayloadReturned, ForSuccess, Err(PlatformApiError));
      } else {
        Finish(Succeeded, ForSuccess, Ok(c.payload.value));
      }
    }

    method OnError()
      requires armed
      modifies this`armed, this`trace, foregrounder
      ensures View() == Step(old(View()), FireError)
    {
      armed := false;
      StopForegrounding();
      Finish(ApiReturnedError, ForError, Err(PlatformApiError));
    }
  }
}
