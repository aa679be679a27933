/**
 * Whole probe runs. The driver starts a run at most once and delivers no response before the first
 * request has gone out; everything else arrives in any order, any number of times.
 */
module ProbeRuns {
  import opened Basics
  import opened ProbeModel

  /** What a run learned and did, in order. */
  datatype Act = Registered | Answered | Did(effect: Effect)

  datatype World = World(engine: Engine, started: bool, armed: set<Step>, chronicle: seq<Act>)

  /** An input and the time it arrives. */
  datatype Event = At(now: nat, input: Input)

  function Initial(config: ProbeConfig, marker: Marker): World { World(Fresh(config, marker), false, {}, []) }

  predicate Admissible(w: World, i: Input) {
    match i
    case Start => !w.started
    case Response(_) => w.engine.cseq > 0
    case _ => true
  }

  predicate Succeeds(e: Engine, i: Input, step: Step) {
    !e.finished && e.waiting == Running(step) && i.Response? && Correlates(e, i.answer) && IsSuccess(i.answer)
  }

  function Learned(e: Engine, i: Input): seq<Act> {
    if Succeeds(e, i, Register) then [Registered] else if Succeeds(e, i, Invite) then [Answered] else []
  }

  function Dids(fx: seq<Effect>): seq<Act> {
    seq(|fx|, k requires 0 <= k < |fx| => Did(fx[k]))
  }

  function Timers(armed: set<Step>, fx: seq<Effect>): set<Step>
    decreases |fx|
  {
    if fx == [] then armed
    else Timers(if fx[0].SetTimer? then armed + {fx[0].step} else if fx[0].ClearTimer? then armed - {fx[0].step} else armed, fx[1..])
  }

  function Next(w: World, ev: Event): World {
    var out := OnInput(w.engine, ev.now, ev.input);
    World(out.next, w.started || ev.input.Start?,
          Timers(if ev.input.TimerFired? then w.armed - {ev.input.step} else w.armed, out.fx),
          w.chronicle + Learned(w.engine, ev.input) + Dids(out.fx))
  }

  function Run(w: World, events: seq<Event>): World
    decreases |events|
  {
    if events == [] then w else Next(Run(w, events[..|events| - 1]), events[|events| - 1])
  }

  ghost predicate WellFormed(w: World, events: seq<Event>) {
    forall k :: 0 <= k < |events| ==> Admissible(Run(w, events[..k]), events[k].input)
  }

  // ------------------------------------------------------------------ what an engine keeps

  function Index(s: Step): nat {
    match s case Resolve => 0 case Register => 1 case Invite => 2 case Bye => 3
  }

  /** The steps before this one, all recorded and all succeeded. */
  predicate PlanUpTo(steps: seq<StepOutcome>, n: nat) {
    |steps| == n <= |PLAN| && forall i :: 0 <= i < n ==> steps[i].step == PLAN[i] && steps[i].succeeded
  }

  /** What the recorded steps look like under each verdict. */
  predicate Explains(verdict: Verdict, steps: seq<StepOutcome>) {
    && |steps| <= |PLAN| && (forall i :: 0 <= i < |steps| ==> steps[i].step == PLAN[i])
    && (forall i :: 0 <= i < |steps| - 1 ==> steps[i].succeeded)
    && match verdict
       case Pass => |steps| == |PLAN| && steps[3].succeeded
       case Fail(step, cause) =>
         steps != [] && steps[|steps| - 1].step == step && (steps[|steps| - 1].succeeded <==> cause.MarkerMismatch?)
         && (cause.MarkerMismatch? ==> step.Invite?)
       case Inconclusive(_) => steps != [] ==> !steps[|steps| - 1].succeeded
  }

  function OwedDuring(s: Step): seq<Obligation> {
    match s case Resolve => [] case Register => [] case Invite => [Deregister] case Bye => [Deregister, EndDialog]
  }

  /** How many requests have gone out while a step is running. */
  function SentDuring(s: Step, challenged: bool): nat {
    (match s case Resolve => 0 case Register => 1 case Invite => 2 case Bye => 4) + if challenged then 1 else 0
  }

  ghost predicate RunningInv(e: Engine) {
    e.waiting.Running? ==>
      && !e.finished && e.decided.None? && PlanUpTo(e.steps, Index(e.waiting.step)) && e.owes == OwedDuring(e.waiting.step)
      && e.cseq == SentDuring(e.waiting.step, e.answeredChallenge)
      && e.outstanding == (if e.waiting.step.Resolve? then None else Some(e.cseq))
      && (e.waiting.step.Resolve? ==> !e.answeredChallenge)
  }

  ghost predicate CleaningInv(e: Engine) {
    e.waiting.Cleaning? ==>
      && !e.finished && e.decided.Some? && Explains(e.decided.value, e.steps) && e.outstanding == Some(e.cseq)
      && (if e.waiting.step.Bye? then e.owes == [Deregister] && e.cseq <= 6
          else e.waiting.step.Register? && e.owes == [] && e.cseq <= 7)
  }

  ghost predicate EngineInv(e: Engine, started: bool) {
    && RunningInv(e) && CleaningInv(e)
    && (e.finished ==> e.waiting.Nothing? && e.owes == [] && e.cseq <= 7 && e.decided.Some?)
    && (!e.finished && e.waiting.Nothing? ==> !started)
    && (!started && !e.finished ==> e == Fresh(e.config, e.marker).(now := e.now))
  }

  // ------------------------------------------------------------------ what a step does

  function Sends(fx: seq<Effect>): nat {
    if fx == [] then 0 else (if fx[0].Send? then 1 else 0) + Sends(fx[1..])
  }

  predicate IsHangUp(e: Effect) { e.Send? && e.request.verb.BYE? }

  predicate IsRemoval(e: Effect) { e.Send? && e.request.verb.REGISTER? && e.request.expires == Some(0) }

  /** `Finish` stands last, and exactly in a step that finishes. */
  predicate FinishesLast(fx: seq<Effect>, finishes: bool) {
    (finishes ==> fx != [] && fx[|fx| - 1].Finish?) && forall k :: 0 <= k < |fx| && fx[k].Finish? ==> finishes && k == |fx| - 1
  }

  /** What one handler's result owes the run. */
  ghost predicate Sound(e: Engine, armed: set<Step>, out: Out) {
    && EngineInv(out.next, true) && out.next.config == e.config && out.next.marker == e.marker && out.next.now == e.now
    && out.next.cseq == e.cseq + Sends(out.fx)
    && FinishesLast(out.fx, out.next.finished)
    && (out.next.finished ==>
          Explains(out.next.decided.value, Last(out.fx).report.steps) && Last(out.fx).report.verdict == out.next.decided.value)
    && (e.decided.Some? ==> out.next.decided == e.decided)
    && (Deregister in e.owes && Deregister !in out.next.owes ==> exists x :: x in out.fx && IsRemoval(x))
    && (!out.next.waiting.Nothing? ==> out.next.waiting.step in Timers(armed, out.fx))
  }

  function Last(fx: seq<Effect>): Effect { if fx == [] then Lookup("") else fx[|fx| - 1] }

  /** An engine that has decided, and owes no more than one dialog and one registration. */
  ghost predicate Concluding(e: Engine) {
    && !e.finished && e.decided.Some? && Explains(e.decided.value, e.steps)
    && (e.owes == [] || e.owes == [Deregister] || e.owes == [Deregister, EndDialog])
    && e.cseq + |e.owes| <= 7
  }

  lemma ForgetEnd()
    ensures Forget([Deregister, EndDialog], EndDialog) == [Deregister]
  {
    assert Forget([EndDialog], EndDialog) == Forget([], EndDialog) == [];
    assert [Deregister, EndDialog][1..] == [EndDialog];
  }

  /** Counting and timing, one effect at a time. */
  lemma {:induction false} FirstEffect(armed: set<Step>, e: Effect, rest: seq<Effect>)
    ensures Sends([e] + rest) == (if e.Send? then 1 else 0) + Sends(rest)
    ensures Timers(armed, [e] + rest)
      == Timers(if e.SetTimer? then armed + {e.step} else if e.ClearTimer? then armed - {e.step} else armed, rest)
  {
    assert ([e] + rest)[1..] == rest;
  }

  lemma {:induction false} SendAndArm(armed: set<Step>, fx: seq<Effect>, request: ProbeRequest, step: Step)
    requires |fx| == 2 && fx[0] == Send(request) && fx[1].SetTimer? && fx[1].step == step
    ensures Sends(fx) == 1 && Timers(armed, fx) == armed + {step}
  {
    assert fx == [fx[0]] + ([fx[1]] + []);
    FirstEffect(armed, fx[0], [fx[1]] + []);
    FirstEffect(armed, fx[1], []);
  }

  lemma CleanupSound(e: Engine, armed: set<Step>)
    requires Concluding(e)
    ensures Sound(e, armed, Cleanup(e))
    ensures EndDialog in e.owes ==> exists x :: x in Cleanup(e).fx && IsHangUp(x)
  {
    var out := Cleanup(e);
    if EndDialog in e.owes {
      ForgetEnd();
      assert IsHangUp(out.fx[0]);
      SendAndArm(armed, out.fx, SimpleRequest(e, BYE), Bye);
    } else if Deregister in e.owes {
      assert Forget(e.owes, Deregister) == [];
      assert IsRemoval(out.fx[0]);
      SendAndArm(armed, out.fx, RegisterRequest(e, 0), Register);
    }
  }

  lemma CleanupClears(e: Engine, armed: set<Step>, step: Step)
    requires Concluding(e)
    ensures var out := Cleanup(e); Sound(e, armed, Out(out.next, [ClearTimer(step)] + out.fx))
    ensures EndDialog in e.owes ==> exists x :: x in [ClearTimer(step)] + Cleanup(e).fx && IsHangUp(x)
  {
    CleanupSound(e, armed - {step});
    var fx := Cleanup(e).fx;
    FirstEffect(armed, ClearTimer(step), fx);
    assert forall x :: x in fx ==> x in [ClearTimer(step)] + fx;
    assert ([ClearTimer(step)] + fx)[1..] == fx;
  }

  /** Failing a running step, just concluded or not. */
  lemma FailSound(e: Engine, armed: set<Step>, step: Step, cause: Cause)
    requires !e.finished && e.decided.None? && Explains(Fail(step, cause), e.steps)
    requires e.owes == [] || e.owes == [Deregister] || e.owes == [Deregister, EndDialog]
    requires e.cseq + |e.owes| <= 7
    ensures Sound(e, armed, FailStep(e, step, cause))
    ensures EndDialog in e.owes && !step.Bye? ==> exists x :: x in FailStep(e, step, cause).fx && IsHangUp(x)
  {
    ForgetEnd();
    assert Forget([Deregister], EndDialog) == [Deregister] && Forget([], EndDialog) == [];
    var decided := e.(decided := Some(Fail(step, cause)));
    CleanupClears(if step.Bye? then decided.(owes := Forget(decided.owes, EndDialog)) else decided, armed, step);
  }

  /** Abandoning, whatever the engine is waiting for. */
  lemma AbandonSound(e: Engine, started: bool, armed: set<Step>, fault: Fault)
    requires EngineInv(e, started) && !e.finished
    ensures Sound(e, armed, Abandon(e, fault))
  {
    var decided := if e.decided.None? then e.(decided := Some(Inconclusive(fault))) else e;
    if e.waiting.Running? {
      CleanupClears(Conclude(decided, false), armed, e.waiting.step);
    } else {
      CleanupSound(decided, armed);
    }
  }

  /** A running step concludes: the record is the plan so far, and this step with it. */
  lemma Concluded(e: Engine, succeeded: bool)
    requires RunningInv(e) && e.waiting.Running?
    ensures var c := Conclude(e, succeeded);
      && |c.steps| == Index(e.waiting.step) + 1 <= 4 && PlanUpTo(e.steps, Index(e.waiting.step))
      && c.steps == e.steps + [LastStep(c.steps)] && LastStep(c.steps).step == e.waiting.step && LastStep(c.steps).succeeded == succeeded
      && (succeeded ==> PlanUpTo(c.steps, Index(e.waiting.step) + 1))
  {
  }

  function LastStep(steps: seq<StepOutcome>): StepOutcome { if steps == [] then StepOutcome(Resolve, false, 0) else steps[|steps| - 1] }

  lemma SendSound(e: Engine, armed: set<Step>, step: Step, out: Out)
    requires RunningInv(out.next) && out.next.waiting == Running(step) && EngineInv(out.next, true)
    requires out.next.config == e.config && out.next.marker == e.marker && out.next.now == e.now && e.decided.None?
    requires Deregister in e.owes ==> Deregister in out.next.owes
    requires |out.fx| == 3 && out.fx[0].ClearTimer? && out.fx[1].Send? && out.fx[2].SetTimer? && out.fx[2].step == step
    requires out.next.cseq == e.cseq + 1
    ensures Sound(e, armed, out)
  {
    assert out.fx == [out.fx[0]] + ([out.fx[1]] + ([out.fx[2]] + []));
    FirstEffect(armed, out.fx[0], [out.fx[1]] + ([out.fx[2]] + []));
    FirstEffect(armed - {out.fx[0].step}, out.fx[1], [out.fx[2]] + []);
    FirstEffect(armed - {out.fx[0].step}, out.fx[2], []);
  }

  lemma StartSound(e: Engine, armed: set<Step>)
    requires EngineInv(e, false) && !e.finished
    ensures Sound(e, armed, OnStart(e))
  {
    if IsUsable(e.config) {
      var fx := OnStart(e).fx;
      assert fx == [fx[0]] + ([fx[1]] + []);
      FirstEffect(armed, fx[0], [fx[1]] + []);
      FirstEffect(armed, fx[1], []);
    } else {
      AbandonSound(e, false, armed, Misconfigured);
    }
  }

  lemma ResolvedSound(e: Engine, armed: set<Step>, ok: bool)
    requires EngineInv(e, true) && e.waiting == Running(Resolve)
    ensures Sound(e, armed, OnResolved(e, ok))
  {
    Concluded(e, ok);
    if ok {
      SendSound(e, armed, Register, OnResolved(e, ok));
    } else {
      FailSound(Conclude(e, false), armed, Resolve, ResolutionFailed);
    }
  }

  /** A running step fails for a reason of the platform's. */
  lemma StepFails(e: Engine, armed: set<Step>, cause: Cause)
    requires EngineInv(e, true) && e.waiting.Running? && !cause.MarkerMismatch?
    ensures Sound(e, armed, FailStep(Conclude(e, false), e.waiting.step, cause))
  {
    Concluded(e, false);
    FailSound(Conclude(e, false), armed, e.waiting.step, cause);
  }

  lemma RetrySound(e: Engine, armed: set<Step>)
    requires EngineInv(e, true) && e.waiting.Running? && !e.waiting.step.Resolve? && !e.answeredChallenge && e.waiting.step in armed
    ensures Sound(e, armed, RetryChallenged(e.(answeredChallenge := true), e.waiting.step))
  {
    var fx := RetryChallenged(e.(answeredChallenge := true), e.waiting.step).fx;
    assert fx == [fx[0]] + [];
    FirstEffect(armed, fx[0], []);
  }

  lemma RegisteredSound(e: Engine, armed: set<Step>, a: Answer)
    requires EngineInv(e, true) && e.waiting == Running(Register)
    ensures var out := OnSuccess(Conclude(e, true), Register, a); Sound(e, armed, out) && Deregister in out.next.owes
  {
    Concluded(e, true);
    SendSound(e, armed, Invite, OnSuccess(Conclude(e, true), Register, a));
  }

  lemma AnsweredSound(e: Engine, armed: set<Step>, a: Answer)
    requires EngineInv(e, true) && e.waiting == Running(Invite)
    ensures var out := OnSuccess(Conclude(e, true), Invite, a);
      Sound(e, armed, out) && exists x :: x in out.fx && IsHangUp(x)
  {
    Concluded(e, true);
    var owing := Conclude(e, true).(owes := Owe(e.owes, EndDialog));
    if a.marker != Some(e.marker) {
      FailSound(owing, armed, Invite, MarkerMismatch);
    } else {
      ByeSound(e, owing, armed);
    }
  }

  lemma ByeSound(e: Engine, owing: Engine, armed: set<Step>)
    requires EngineInv(e, true) && e.waiting == Running(Invite)
    requires owing == Conclude(e, true).(owes := [Deregister, EndDialog])
    ensures Sound(e, armed, SendBye(owing)) && exists x :: x in SendBye(owing).fx && IsHangUp(x)
  {
    Concluded(e, true);
    var fx := SendBye(owing).fx;
    assert IsHangUp(fx[2]);
    FourEffects(armed, fx);
  }

  lemma {:induction false} FourEffects(armed: set<Step>, fx: seq<Effect>)
    requires |fx| == 4 && fx[0].ClearTimer? && fx[1].Send? && fx[2].Send? && fx[3].SetTimer?
    ensures Sends(fx) == 2 && Timers(armed, fx) == armed - {fx[0].step} + {fx[3].step}
  {
    assert fx == [fx[0]] + ([fx[1]] + ([fx[2]] + ([fx[3]] + [])));
    FirstEffect(armed, fx[0], [fx[1]] + ([fx[2]] + ([fx[3]] + [])));
    FirstEffect(armed - {fx[0].step}, fx[1], [fx[2]] + ([fx[3]] + []));
    FirstEffect(armed - {fx[0].step}, fx[2], [fx[3]] + []);
    FirstEffect(armed - {fx[0].step}, fx[3], []);
  }

  lemma HungUpSound(e: Engine, armed: set<Step>, a: Answer)
    requires EngineInv(e, true) && e.waiting == Running(Bye)
    ensures Sound(e, armed, OnSuccess(Conclude(e, true), Bye, a))
  {
    Concluded(e, true);
    ForgetEnd();
    CleanupSound(Conclude(e, true).(owes := Forget(e.owes, EndDialog), decided := Some(Pass)), armed);
  }

  lemma StepResponseSound(e: Engine, armed: set<Step>, a: Answer)
    requires EngineInv(e, true) && e.waiting.Running? && !e.waiting.step.Resolve? && e.waiting.step in armed
    ensures var out := OnStepResponse(e, e.waiting.step, a);
      && Sound(e, armed, out)
      && (IsSuccess(a) && e.waiting == Running(Register) ==> Deregister in out.next.owes)
      && (IsSuccess(a) && e.waiting == Running(Invite) ==> exists x :: x in out.fx && IsHangUp(x))
  {
    if IsChallenge(a) {
      if !e.config.hasCredentials {
        AbandonSound(e, true, armed, BadCredentials);
      } else if e.answeredChallenge {
        StepFails(e, armed, Rejected(a.status));
      } else {
        RetrySound(e, armed);
      }
    } else if a.status == 503 && a.retryAfter.Some? {
      StepFails(e, armed, Shed(a.retryAfter.value));
    } else if !IsSuccess(a) {
      StepFails(e, armed, Rejected(a.status));
    } else {
      match e.waiting.step {
        case Register => RegisteredSound(e, armed, a);
        case Invite => AnsweredSound(e, armed, a);
        case Bye => HungUpSound(e, armed, a);
      }
    }
  }

  lemma AfterCleanupSound(e: Engine, armed: set<Step>, ok: bool)
    requires EngineInv(e, true) && e.waiting.Cleaning?
    ensures Sound(e, armed, AfterCleanup(if ok then e else e.(cleanupFailed := true), e.waiting.step))
  {
    CleanupClears((if ok then e else e.(cleanupFailed := true)).(waiting := Nothing), armed, e.waiting.step);
  }

  /** Every input is either passed over or handled soundly; `armed` is what was armed when it arrived. */
  lemma DispatchSound(e: Engine, started: bool, armed: set<Step>, i: Input)
    requires EngineInv(e, started) && !e.finished && Admissible(World(e, started, armed, []), i)
    requires !e.waiting.Nothing? ==> e.waiting.step in armed
    ensures var out := Dispatch(e, i);
      var left := if i.TimerFired? then armed - {i.step} else armed;
      && (out == Out(e, []) || Sound(e, left, out))
      && (!e.waiting.Nothing? && out == Out(e, []) ==> e.waiting.step in left)
      && (Succeeds(e, i, Register) ==> Deregister in out.next.owes)
      && (Succeeds(e, i, Invite) ==> exists x :: x in out.fx && IsHangUp(x))
  {
    var left := if i.TimerFired? then armed - {i.step} else armed;
    match i {
      case Start => StartSound(e, armed);
      case Resolved(ok) => if e.waiting == Running(Resolve) { ResolvedSound(e, armed, ok); }
      case Response(a) => ResponseSound(e, started, armed, a);
      case TransportError =>
        if e.waiting.Running? { StepFails(e, armed, Unreachable); }
        if e.waiting.Cleaning? { AfterCleanupSound(e, armed, false); }
      case TimerFired(step) =>
        if e.waiting == Running(step) { StepFails(e, left, Timeout); }
        if e.waiting == Cleaning(step) { AfterCleanupSound(e, left, false); }
      case CancelRun => AbandonSound(e, started, armed, Cancelled);
      case LocalResourceUnavailable => AbandonSound(e, started, armed, NoLocalResource);
    }
  }

  lemma ResponseSound(e: Engine, started: bool, armed: set<Step>, a: Answer)
    requires EngineInv(e, started) && !e.finished && e.cseq > 0
    requires !e.waiting.Nothing? ==> e.waiting.step in armed
    ensures var out := OnResponse(e, a);
      && (out == Out(e, []) || Sound(e, armed, out))
      && (Succeeds(e, Response(a), Register) ==> Deregister in out.next.owes)
      && (Succeeds(e, Response(a), Invite) ==> exists x :: x in out.fx && IsHangUp(x))
  {
    if !IsProvisionalAnswer(a) && Correlates(e, a) {
      if e.waiting.Cleaning? {
        AfterCleanupSound(e, armed, IsSuccess(a));
      } else if e.waiting.Running? {
        StepResponseSound(e, armed, a);
      }
    }
  }
}
