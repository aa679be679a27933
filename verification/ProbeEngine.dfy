/**
 * The probe engine as the object a run keeps: its fields change with every input. Each method is proved
 * to do exactly what the value-level handler it stands for does.
 */
module ProbeEngines {
  import opened Basics
  import opened ProbeModel

  class ProbeEngine {
    const config: ProbeConfig
    const marker: Marker
    var waiting: Waiting
    var steps: seq<StepOutcome>
    var stepStarted: nat
    var now: nat
    var decided: Option<Verdict>
    var owes: seq<Obligation>
    var cleanupFailed: bool
    var finished: bool
    var answeredChallenge: bool
    var cseq: nat
    var outstanding: Option<nat>

    /** The fields as one value. */
    ghost function View(): Engine
      reads this
    {
      Engine(config, marker, waiting, steps, stepStarted, now, decided, owes, cleanupFailed, finished, answeredChallenge,
             cseq, outstanding)
    }

    constructor (config: ProbeConfig, marker: Marker)
      ensures View() == Fresh(config, marker)
    {
      this.config, this.marker := config, marker;
      waiting, steps, stepStarted, now := Nothing, [], 0, 0;
      decided, owes, outstanding := None, [], None;
      cleanupFailed, finished, answeredChallenge, cseq := false, false, false, 0;
    }

    // ---------------------------------------------------------------- bookkeeping

    method BeginStep(step: Step)
      modifies this`waiting, this`stepStarted
      ensures View() == Begin(old(View()), step)
    {
      waiting := Running(step);
      stepStarted := now;
    }

    method ConcludeStep(succeeded: bool)
      modifies this`waiting, this`steps
      ensures View() == Conclude(old(View()), succeeded)
    {
      if waiting.Running? {
        steps := steps + [StepOutcome(waiting.step, succeeded, Max(now - stepStarted, 0))];
      }
      waiting := Nothing;
    }

    method BuildRegister(expires: nat) returns (request: ProbeRequest)
      modifies this`cseq, this`outstanding
      ensures View() == Numbered(old(View()), REGISTER) && request == RegisterRequest(old(View()), expires)
    {
      cseq := cseq + 1;
      outstanding := Some(cseq);
      request := ProbeRequest(REGISTER, cseq, config.probeAor, Some(expires), marker);
    }

    /** The ACK is not a request anything answers, so the engine does not wait on it. */
    method BuildSimple(verb: Verb) returns (request: ProbeRequest)
      modifies this`cseq, this`outstanding
      ensures View() == Numbered(old(View()), verb) && request == SimpleRequest(old(View()), verb)
    {
      cseq := cseq + 1;
      if !verb.ACK? {
        outstanding := Some(cseq);
      }
      request := ProbeRequest(verb, cseq, config.echoAor, None, marker);
    }

    // ---------------------------------------------------------------- conclusion

    method FinishRun() returns (fx: seq<Effect>)
      modifies this`finished, this`waiting, this`steps
      ensures Out(View(), fx) == Finished(old(View()))
    {
      finished := true;
      waiting := Nothing;
      var verdict := if decided.Some? then decided.value else Inconclusive(Internal);
      fx := [Finish(Report(marker, config.address, steps, verdict, cleanupFailed))];
      steps := [];
    }

    /** Whatever the verdict, undo the dialog first and the registration next; only then finish. */
    method CleanUp() returns (fx: seq<Effect>)
      modifies this
      ensures Out(View(), fx) == Cleanup(old(View()))
    {
      if EndDialog in owes {
        owes := Forget(owes, EndDialog);
        waiting := Cleaning(Bye);
        var bye := BuildSimple(BYE);
        return [Send(bye), SetTimer(Bye, config.timeouts(Bye))];
      }
      if Deregister in owes {
        owes := Forget(owes, Deregister);
        waiting := Cleaning(Register);
        var deregister := BuildRegister(0);
        return [Send(deregister), SetTimer(Register, config.timeouts(Register))];
      }
      fx := FinishRun();
    }

    method CleanUpAfter(step: Step) returns (fx: seq<Effect>)
      modifies this
      ensures Out(View(), fx) == AfterCleanup(old(View()), step)
    {
      waiting := Nothing;
      var more := CleanUp();
      fx := [ClearTimer(step)] + more;
    }

    method FailRun(step: Step, cause: Cause) returns (fx: seq<Effect>)
      modifies this
      ensures Out(View(), fx) == FailStep(old(View()), step, cause)
    {
      if decided.None? {
        decided := Some(Fail(step, cause));
      }
      if step.Bye? {
        owes := Forget(owes, EndDialog);
      }
      var more := CleanUp();
      fx := [ClearTimer(step)] + more;
    }

    method AbandonRun(fault: Fault) returns (fx: seq<Effect>)
      modifies this
      ensures Out(View(), fx) == Abandon(old(View()), fault)
    {
      if decided.None? {
        decided := Some(Inconclusive(fault));
      }
      if waiting.Running? {
        var step := waiting.step;
        ConcludeStep(false);
        var more := CleanUp();
        return [ClearTimer(step)] + more;
      }
      fx := CleanUp();
    }

    // ---------------------------------------------------------------- the plan

    method BeginRun() returns (fx: seq<Effect>)
      modifies this
      ensures Out(View(), fx) == OnStart(old(View()))
    {
      if !IsUsable(config) {
        fx := AbandonRun(Misconfigured);
        return;
      }
      BeginStep(Resolve);
      fx := [Lookup(config.address), SetTimer(Resolve, config.timeouts(Resolve))];
    }

    method LaunchRegister() returns (fx: seq<Effect>)
      modifies this
      ensures Out(View(), fx) == SendRegister(old(View()))
    {
      BeginStep(Register);
      var request := BuildRegister(3_600);
      fx := [ClearTimer(Resolve), Send(request), SetTimer(Register, config.timeouts(Register))];
    }

    method LaunchInvite() returns (fx: seq<Effect>)
      modifies this
      ensures Out(View(), fx) == SendInvite(old(View()))
    {
      BeginStep(Invite);
      var request := BuildSimple(INVITE);
      fx := [ClearTimer(Register), Send(request), SetTimer(Invite, config.timeouts(Invite))];
    }

    method LaunchBye() returns (fx: seq<Effect>)
      modifies this
      ensures Out(View(), fx) == SendBye(old(View()))
    {
      BeginStep(Bye);
      var ack := BuildSimple(ACK);
      var bye := BuildSimple(BYE);
      fx := [ClearTimer(Invite), Send(ack), Send(bye), SetTimer(Bye, config.timeouts(Bye))];
    }

    method TakeResolved(ok: bool) returns (fx: seq<Effect>)
      modifies this
      ensures Out(View(), fx) == OnResolved(old(View()), ok)
    {
      if waiting != Running(Resolve) {
        return [];
      }
      ConcludeStep(ok);
      if ok {
        fx := LaunchRegister();
      } else {
        fx := FailRun(Resolve, ResolutionFailed);
      }
    }

    method Retry(step: Step) returns (fx: seq<Effect>)
      modifies this`cseq, this`outstanding
      ensures Out(View(), fx) == RetryChallenged(old(View()), step)
    {
      var request;
      match step {
        case Resolve => return [];
        case Register => request := BuildRegister(3_600);
        case Invite => request := BuildSimple(INVITE);
        case Bye => request := BuildSimple(BYE);
      }
      fx := [Send(request)];
    }

    method Proceed(step: Step, a: Answer) returns (fx: seq<Effect>)
      modifies this
      ensures Out(View(), fx) == OnSuccess(old(View()), step, a)
    {
      match step {
        case Register =>
          owes := Owe(owes, Deregister);
          fx := LaunchInvite();
        case Invite =>
          owes := Owe(owes, EndDialog);
          if a.marker != Some(marker) {
            fx := FailRun(Invite, MarkerMismatch);
          } else {
            fx := LaunchBye();
          }
        case Bye =>
          owes := Forget(owes, EndDialog);
          decided := Some(Pass);
          fx := CleanUp();
        case Resolve => fx := [];
      }
    }

    method TakeStepResponse(step: Step, a: Answer) returns (fx: seq<Effect>)
      modifies this
      ensures Out(View(), fx) == OnStepResponse(old(View()), step, a)
    {
      if a.status == 401 || a.status == 407 {
        if !config.hasCredentials {
          fx := AbandonRun(BadCredentials);
          return;
        }
        if answeredChallenge {
          ConcludeStep(false);
          fx := FailRun(step, Rejected(a.status));
          return;
        }
        answeredChallenge := true;
        fx := Retry(step);
        return;
      }
      if a.status == 503 && a.retryAfter.Some? {
        ConcludeStep(false);
        fx := FailRun(step, Shed(a.retryAfter.value));
        return;
      }
      if !IsSuccess(a) {
        ConcludeStep(false);
        fx := FailRun(step, Rejected(a.status));
        return;
      }
      ConcludeStep(true);
      fx := Proceed(step, a);
    }

    method TakeResponse(a: Answer) returns (fx: seq<Effect>)
      modifies this
      ensures Out(View(), fx) == OnResponse(old(View()), a)
    {
      if IsProvisionalAnswer(a) {
        return [];
      }
      if outstanding.Some? && a.cseq != outstanding {
        return [];
      }
      match waiting {
        case Nothing => fx := [];
        case Cleaning(step) =>
          if !IsSuccess(a) {
            cleanupFailed := true;
          }
          fx := CleanUpAfter(step);
        case Running(step) => fx := TakeStepResponse(step, a);
      }
    }

    method TakeTimeout(step: Step) returns (fx: seq<Effect>)
      modifies this
      ensures Out(View(), fx) == OnTimeout(old(View()), step)
    {
      if waiting == Running(step) {
        ConcludeStep(false);
        fx := FailRun(step, Timeout);
      } else if waiting == Cleaning(step) {
        cleanupFailed := true;
        fx := CleanUpAfter(step);
      } else {
        fx := [];
      }
    }

    method TakeTransportError() returns (fx: seq<Effect>)
      modifies this
      ensures Out(View(), fx) == OnTransportError(old(View()))
    {
      match waiting {
        case Running(step) =>
          ConcludeStep(false);
          fx := FailRun(step, Unreachable);
        case Cleaning(step) =>
          cleanupFailed := true;
          fx := CleanUpAfter(step);
        case Nothing => fx := [];
      }
    }

    /** The object does what the model does, input by input. */
    method Handle(at: nat, input: Input) returns (fx: seq<Effect>)
      modifies this
      ensures Out(View(), fx) == OnInput(old(View()), at, input)
    {
      if finished {
        return [];
      }
      now := at;
      match input {
        case Start => fx := BeginRun();
        case Resolved(ok) => fx := TakeResolved(ok);
        case Response(a) => fx := TakeResponse(a);
        case TransportError => fx := TakeTransportError();
        case TimerFired(step) => fx := TakeTimeout(step);
        case CancelRun => fx := AbandonRun(Cancelled);
        case LocalResourceUnavailable => fx := AbandonRun(NoLocalResource);
      }
    }
  }
}
