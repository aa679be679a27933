/**
 * The end-to-end probe as functions on values: a four-step plan, and the undoing of what it did. Every
 * handler maps an engine and its input to the next engine and the effects, in order.
 */
module ProbeModel {
  import opened Basics

  datatype Step = Resolve | Register | Invite | Bye

  const PLAN: seq<Step> := [Resolve, Register, Invite, Bye]

  datatype Cause =
    | Timeout
    | Rejected(status: nat)
    | MarkerMismatch
    | Unreachable
    | ResolutionFailed
    | Shed(retryAfter: nat)

  datatype Fault = BadCredentials | Misconfigured | NoLocalResource | ClockSkew | Cancelled | Internal

  datatype Verdict = Pass | Fail(step: Step, cause: Cause) | Inconclusive(fault: Fault)

  datatype StepOutcome = StepOutcome(step: Step, succeeded: bool, elapsed: nat)

  type Marker = string

  /** Where a probe dials, as whom, and how long it waits for each step. */
  datatype ProbeConfig = ProbeConfig(
    probeAor: string, echoAor: string, contact: string, address: string, timeouts: Step -> nat, hasCredentials: bool)

  predicate IsUsable(config: ProbeConfig) {
    config.probeAor != "" && config.echoAor != "" && config.contact != "" && config.address != ""
  }

  datatype Verb = REGISTER | INVITE | ACK | BYE

  /** A request as the engine builds it; `expires` is the contact's, on a REGISTER. */
  datatype ProbeRequest = ProbeRequest(verb: Verb, cseq: nat, to: string, expires: Option<nat>, marker: Marker)

  /** A response as the engine reads it. */
  datatype Answer = Answer(status: nat, cseq: Option<nat>, retryAfter: Option<nat>, marker: Option<Marker>)

  predicate IsProvisionalAnswer(a: Answer) { a.status < 200 }
  predicate IsSuccess(a: Answer) { 200 <= a.status < 300 }
  predicate IsChallenge(a: Answer) { a.status == 401 || a.status == 407 }

  datatype Input =
    | Start
    | Resolved(ok: bool)
    | Response(answer: Answer)
    | TransportError
    | TimerFired(step: Step)
    | CancelRun
    | LocalResourceUnavailable

  datatype Report = Report(marker: Marker, address: string, steps: seq<StepOutcome>, verdict: Verdict, cleanupFailed: bool)

  datatype Effect =
    | Lookup(address: string)
    | Send(request: ProbeRequest)
    | SetTimer(step: Step, after: nat)
    | ClearTimer(step: Step)
    | Finish(report: Report)

  datatype Obligation = EndDialog | Deregister

  datatype Waiting = Nothing | Running(step: Step) | Cleaning(step: Step)

  datatype Engine = Engine(
    config: ProbeConfig, marker: Marker, waiting: Waiting, steps: seq<StepOutcome>, stepStarted: nat, now: nat,
    decided: Option<Verdict>, owes: seq<Obligation>, cleanupFailed: bool, finished: bool,
    answeredChallenge: bool, cseq: nat, outstanding: Option<nat>)

  function Fresh(config: ProbeConfig, marker: Marker): Engine {
    Engine(config, marker, Nothing, [], 0, 0, None, [], false, false, false, 0, None)
  }

  datatype Out = Out(next: Engine, fx: seq<Effect>)

  // ------------------------------------------------------------------ bookkeeping

  function Owe(owes: seq<Obligation>, o: Obligation): seq<Obligation> {
    if o in owes then owes else owes + [o]
  }

  function Forget(owes: seq<Obligation>, o: Obligation): seq<Obligation> {
    if owes == [] then []
    else (if owes[0] == o then [] else [owes[0]]) + Forget(owes[1..], o)
  }

  function Begin(e: Engine, step: Step): Engine { e.(waiting := Running(step), stepStarted := e.now) }

  function Conclude(e: Engine, succeeded: bool): Engine {
    if e.waiting.Running? then
      e.(waiting := Nothing, steps := e.steps + [StepOutcome(e.waiting.step, succeeded, Max(e.now - e.stepStarted, 0))])
    else e.(waiting := Nothing)
  }

  /** The engine once it has numbered one more request, and waits for its answer unless it is an ACK. */
  function Numbered(e: Engine, verb: Verb): Engine {
    e.(cseq := e.cseq + 1, outstanding := if verb.ACK? then e.outstanding else Some(e.cseq + 1))
  }

  function RegisterRequest(e: Engine, expires: nat): ProbeRequest {
    ProbeRequest(REGISTER, e.cseq + 1, e.config.probeAor, Some(expires), e.marker)
  }

  function SimpleRequest(e: Engine, verb: Verb): ProbeRequest {
    ProbeRequest(verb, e.cseq + 1, e.config.echoAor, None, e.marker)
  }

  function Arm(e: Engine, step: Step): Effect { SetTimer(step, e.config.timeouts(step)) }

  // ------------------------------------------------------------------ conclusion

  function Finished(e: Engine): Out {
    var verdict := if e.decided.Some? then e.decided.value else Inconclusive(Internal);
    Out(e.(finished := true, waiting := Nothing, steps := []),
        [Finish(Report(e.marker, e.config.address, e.steps, verdict, e.cleanupFailed))])
  }

  /** Undo what is owed, the dialog before the registration, one obligation at a time. */
  function Cleanup(e: Engine): Out {
    if EndDialog in e.owes then
      Out(Numbered(e.(owes := Forget(e.owes, EndDialog), waiting := Cleaning(Bye)), BYE),
          [Send(SimpleRequest(e, BYE)), Arm(e, Bye)])
    else if Deregister in e.owes then
      Out(Numbered(e.(owes := Forget(e.owes, Deregister), waiting := Cleaning(Register)), REGISTER),
          [Send(RegisterRequest(e, 0)), Arm(e, Register)])
    else Finished(e)
  }

  function AfterCleanup(e: Engine, step: Step): Out {
    var out := Cleanup(e.(waiting := Nothing));
    Out(out.next, [ClearTimer(step)] + out.fx)
  }

  /** Decide the verdict unless one is decided, then clean up. */
  function FailStep(e: Engine, step: Step, cause: Cause): Out {
    var decided := if e.decided.None? then e.(decided := Some(Fail(step, cause))) else e;
    var out := Cleanup(if step.Bye? then decided.(owes := Forget(decided.owes, EndDialog)) else decided);
    Out(out.next, [ClearTimer(step)] + out.fx)
  }

  function Abandon(e: Engine, fault: Fault): Out {
    var decided := if e.decided.None? then e.(decided := Some(Inconclusive(fault))) else e;
    if e.waiting.Running? then
      var out := Cleanup(Conclude(decided, false));
      Out(out.next, [ClearTimer(e.waiting.step)] + out.fx)
    else Cleanup(decided)
  }

  // ------------------------------------------------------------------ the plan

  function OnStart(e: Engine): Out {
    if !IsUsable(e.config) then Abandon(e, Misconfigured)
    else Out(Begin(e, Resolve), [Lookup(e.config.address), Arm(e, Resolve)])
  }

  function SendRegister(e: Engine): Out {
    Out(Numbered(Begin(e, Register), REGISTER), [ClearTimer(Resolve), Send(RegisterRequest(e, 3_600)), Arm(e, Register)])
  }

  function SendInvite(e: Engine): Out {
    Out(Numbered(Begin(e, Invite), INVITE), [ClearTimer(Register), Send(SimpleRequest(e, INVITE)), Arm(e, Invite)])
  }

  /** The ACK precedes the BYE. */
  function SendBye(e: Engine): Out {
    var acked := Numbered(Begin(e, Bye), ACK);
    Out(Numbered(acked, BYE),
        [ClearTimer(Invite), Send(SimpleRequest(e, ACK)), Send(SimpleRequest(acked, BYE)), Arm(e, Bye)])
  }

  function OnResolved(e: Engine, ok: bool): Out {
    if e.waiting != Running(Resolve) then Out(e, [])
    else if !ok then FailStep(Conclude(e, false), Resolve, ResolutionFailed)
    else SendRegister(Conclude(e, true))
  }

  /** A challenge is answered by the same step's request once more; its timer keeps running. */
  function RetryChallenged(e: Engine, step: Step): Out {
    match step
    case Resolve => Out(e, [])
    case Register => Out(Numbered(e, REGISTER), [Send(RegisterRequest(e, 3_600))])
    case Invite => Out(Numbered(e, INVITE), [Send(SimpleRequest(e, INVITE))])
    case Bye => Out(Numbered(e, BYE), [Send(SimpleRequest(e, BYE))])
  }

  /** What follows a step's success. */
  function OnSuccess(e: Engine, step: Step, a: Answer): Out {
    match step
    case Resolve => Out(e, [])
    case Register => SendInvite(e.(owes := Owe(e.owes, Deregister)))
    case Invite =>
      var owing := e.(owes := Owe(e.owes, EndDialog));
      if a.marker != Some(e.marker) then FailStep(owing, Invite, MarkerMismatch) else SendBye(owing)
    case Bye => Cleanup(e.(owes := Forget(e.owes, EndDialog), decided := Some(Pass)))
  }

  function OnStepResponse(e: Engine, step: Step, a: Answer): Out {
    if IsChallenge(a) then
      if !e.config.hasCredentials then Abandon(e, BadCredentials)
      else if e.answeredChallenge then FailStep(Conclude(e, false), step, Rejected(a.status))
      else RetryChallenged(e.(answeredChallenge := true), step)
    else if a.status == 503 && a.retryAfter.Some? then FailStep(Conclude(e, false), step, Shed(a.retryAfter.value))
    else if !IsSuccess(a) then FailStep(Conclude(e, false), step, Rejected(a.status))
    else OnSuccess(Conclude(e, true), step, a)
  }

  /** A response that does not answer the outstanding request belongs to an earlier step. */
  predicate Correlates(e: Engine, a: Answer) { e.outstanding.None? || a.cseq == e.outstanding }

  function OnResponse(e: Engine, a: Answer): Out {
    if IsProvisionalAnswer(a) || !Correlates(e, a) then Out(e, [])
    else match e.waiting
      case Nothing => Out(e, [])
      case Cleaning(step) => AfterCleanup(if IsSuccess(a) then e else e.(cleanupFailed := true), step)
      case Running(step) => OnStepResponse(e, step, a)
  }

  function OnTimeout(e: Engine, step: Step): Out {
    if e.waiting == Running(step) then FailStep(Conclude(e, false), step, Timeout)
    else if e.waiting == Cleaning(step) then AfterCleanup(e.(cleanupFailed := true), step)
    else Out(e, [])
  }

  function OnTransportError(e: Engine): Out {
    match e.waiting
    case Nothing => Out(e, [])
    case Running(step) => FailStep(Conclude(e, false), step, Unreachable)
    case Cleaning(step) => AfterCleanup(e.(cleanupFailed := true), step)
  }

  function Dispatch(e: Engine, input: Input): Out {
    match input
    case Start => OnStart(e)
    case Resolved(ok) => OnResolved(e, ok)
    case Response(a) => OnResponse(e, a)
    case TransportError => OnTransportError(e)
    case TimerFired(step) => OnTimeout(e, step)
    case CancelRun => Abandon(e, Cancelled)
    case LocalResourceUnavailable => Abandon(e, NoLocalResource)
  }

  function OnInput(e: Engine, now: nat, input: Input): Out {
    if e.finished then Out(e, []) else Dispatch(e.(now := now), input)
  }
}
