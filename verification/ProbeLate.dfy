/**
 * Successes that come too late: what a run undoes is exactly what it was told while it waited. A step that was
 * given up may still have taken effect at the other end, and then nothing undoes it.
 */
module ProbeLate {
  import opened Basics
  import opened ProbeModel
  import opened ProbeRuns
  import opened ProbeTheorems

  // ------------------------------------------------------------------ what a step undoes it was owed

  /** Nothing is undone, and nothing becomes owed, but what `owes` lists; and before a verdict nothing is let go. */
  ghost predicate OnlyOwed(owes: seq<Obligation>, out: Out) {
    && (forall x :: x in out.fx && IsHangUp(x) ==> EndDialog in owes)
    && (forall x :: x in out.fx && IsRemoval(x) ==> Deregister in owes)
    && (forall o :: o in out.next.owes ==> o in owes)
    && (out.next.decided.None? ==> forall o :: o in owes ==> o in out.next.owes)
  }

  lemma {:induction false} ForgetIn(owes: seq<Obligation>, o: Obligation)
    ensures forall x :: x in Forget(owes, o) ==> x in owes
  {
    if owes != [] {
      ForgetIn(owes[1..], o);
    }
  }

  lemma CleanupOwed(e: Engine)
    requires e.decided.Some?
    ensures OnlyOwed(e.owes, Cleanup(e))
  {
    ForgetIn(e.owes, EndDialog);
    ForgetIn(e.owes, Deregister);
  }

  lemma ClearedOwed(owes: seq<Obligation>, inner: Out, out: Out, step: Step)
    requires OnlyOwed(owes, inner) && out == Out(inner.next, [ClearTimer(step)] + inner.fx)
    ensures OnlyOwed(owes, out)
  {
    assert forall x :: x in out.fx ==> x == ClearTimer(step) || x in inner.fx;
  }

  lemma FewerOwed(fewer: seq<Obligation>, owes: seq<Obligation>, out: Out)
    requires OnlyOwed(fewer, out) && out.next.decided.Some? && forall o :: o in fewer ==> o in owes
    ensures OnlyOwed(owes, out)
  {
  }

  lemma FailOwed(e: Engine, step: Step, cause: Cause)
    ensures OnlyOwed(e.owes, FailStep(e, step, cause))
  {
    var decided := if e.decided.None? then e.(decided := Some(Fail(step, cause))) else e;
    var left := if step.Bye? then decided.(owes := Forget(decided.owes, EndDialog)) else decided;
    ForgetIn(decided.owes, EndDialog);
    CleanupOwed(left);
    FewerOwed(left.owes, e.owes, Cleanup(left));
    ClearedOwed(e.owes, Cleanup(left), FailStep(e, step, cause), step);
  }

  lemma AbandonOwed(e: Engine, fault: Fault)
    ensures OnlyOwed(e.owes, Abandon(e, fault))
  {
    var decided := if e.decided.None? then e.(decided := Some(Inconclusive(fault))) else e;
    if e.waiting.Running? {
      CleanupOwed(Conclude(decided, false));
      ClearedOwed(e.owes, Cleanup(Conclude(decided, false)), Abandon(e, fault), e.waiting.step);
    } else {
      CleanupOwed(decided);
    }
  }

  lemma AfterCleanupOwed(e: Engine, step: Step)
    requires e.decided.Some?
    ensures OnlyOwed(e.owes, AfterCleanup(e, step))
  {
    CleanupOwed(e.(waiting := Nothing));
    ClearedOwed(e.owes, Cleanup(e.(waiting := Nothing)), AfterCleanup(e, step), step);
  }

  /** What an engine owes, with what this input adds to it. */
  function OwedWith(e: Engine, i: Input): seq<Obligation> {
    e.owes + (if Succeeds(e, i, Register) then [Deregister] else if Succeeds(e, i, Invite) then [EndDialog] else [])
  }

  lemma RegisteredOwed(e: Engine, a: Answer)
    requires RunningInv(e) && e.waiting == Running(Register)
    ensures OnlyOwed([Deregister], OnSuccess(Conclude(e, true), Register, a))
  {
  }

  lemma AnsweredOwed(e: Engine, a: Answer)
    requires RunningInv(e) && e.waiting == Running(Invite)
    ensures OnlyOwed([Deregister, EndDialog], OnSuccess(Conclude(e, true), Invite, a))
  {
    var owing := Conclude(e, true).(owes := [Deregister, EndDialog]);
    if a.marker != Some(e.marker) {
      FailOwed(owing, Invite, MarkerMismatch);
    }
  }

  lemma HungUpOwed(e: Engine, a: Answer)
    requires RunningInv(e) && e.waiting == Running(Bye)
    ensures OnlyOwed([Deregister, EndDialog], OnSuccess(Conclude(e, true), Bye, a))
  {
    var left := Conclude(e, true).(owes := [Deregister], decided := Some(Pass));
    ForgetEnd();
    CleanupOwed(left);
    FewerOwed([Deregister], [Deregister, EndDialog], Cleanup(left));
  }

  lemma SuccessOwed(e: Engine, a: Answer)
    requires RunningInv(e) && e.waiting.Running? && !e.waiting.step.Resolve? && IsSuccess(a) && Correlates(e, a)
    ensures OnlyOwed(OwedWith(e, Response(a)), OnSuccess(Conclude(e, true), e.waiting.step, a))
  {
    if e.waiting.step.Register? {
      RegisteredOwed(e, a);
    } else if e.waiting.step.Invite? {
      AnsweredOwed(e, a);
    } else {
      HungUpOwed(e, a);
      assert e.owes + [] == e.owes;
    }
  }

  lemma ResponseOwed(e: Engine, a: Answer)
    requires RunningInv(e) && CleaningInv(e) && !e.finished && (e.waiting == Running(Resolve) ==> !IsSuccess(a))
    ensures OnlyOwed(OwedWith(e, Response(a)), OnResponse(e, a))
  {
    assert e.owes + [] == e.owes;
    if !IsProvisionalAnswer(a) && Correlates(e, a) {
      if e.waiting.Cleaning? {
        AfterCleanupOwed(if IsSuccess(a) then e else e.(cleanupFailed := true), e.waiting.step);
      } else if e.waiting.Running? {
        StepOwed(e, a);
      }
    }
  }

  lemma StepOwed(e: Engine, a: Answer)
    requires RunningInv(e) && e.waiting.Running? && !IsProvisionalAnswer(a) && Correlates(e, a)
    requires e.waiting == Running(Resolve) ==> !IsSuccess(a)
    ensures OnlyOwed(OwedWith(e, Response(a)), OnStepResponse(e, e.waiting.step, a))
  {
    assert e.owes + [] == e.owes;
    if IsSuccess(a) {
      SuccessOwed(e, a);
    } else {
      AbandonOwed(e, BadCredentials);
      forall cause ensures OnlyOwed(e.owes, FailStep(Conclude(e, false), e.waiting.step, cause)) {
        FailOwed(Conclude(e, false), e.waiting.step, cause);
      }
    }
  }

  lemma DispatchOwed(e: Engine, started: bool, i: Input)
    requires EngineInv(e, started) && !e.finished && Admissible(World(e, started, {}, []), i)
    ensures OnlyOwed(OwedWith(e, i), Dispatch(e, i))
  {
    assert e.owes + [] == e.owes;
    match i {
      case Start => AbandonOwed(e, Misconfigured);
      case Resolved(ok) => ResolvedOwed(e, ok);
      case Response(a) => ResponseOwed(e, a);
      case TransportError => GiveUpOwed(e, Unreachable);
      case TimerFired(step) => GiveUpOwed(e, Timeout);
      case CancelRun => AbandonOwed(e, Cancelled);
      case LocalResourceUnavailable => AbandonOwed(e, NoLocalResource);
    }
  }

  lemma ResolvedOwed(e: Engine, ok: bool)
    ensures OnlyOwed(e.owes, OnResolved(e, ok))
  {
    FailOwed(Conclude(e, false), Resolve, ResolutionFailed);
  }

  lemma GiveUpOwed(e: Engine, cause: Cause)
    requires CleaningInv(e)
    ensures e.waiting.Running? ==> OnlyOwed(e.owes, FailStep(Conclude(e, false), e.waiting.step, cause))
    ensures e.waiting.Cleaning? ==> OnlyOwed(e.owes, AfterCleanup(e.(cleanupFailed := true), e.waiting.step))
  {
    if e.waiting.Running? { FailOwed(Conclude(e, false), e.waiting.step, cause); }
    if e.waiting.Cleaning? { AfterCleanupOwed(e.(cleanupFailed := true), e.waiting.step); }
  }

  // ------------------------------------------------------------------ over a run

  /** What is owed or was undone was learned first; and what was learned is owed for as long as nothing is decided. */
  ghost predicate Traced(acts: seq<Act>, e: Engine) {
    && (EndDialog in e.owes || (exists a :: a in acts && HangsUp(a)) ==> Answered in acts)
    && (Deregister in e.owes || (exists a :: a in acts && Removes(a)) ==> Registered in acts)
    && (e.decided.None? && Answered in acts ==> EndDialog in e.owes)
    && (e.decided.None? && Registered in acts ==> Deregister in e.owes)
  }

  lemma DecidedStays(w: World, ev: Event)
    requires Keeps(w) && Admissible(w, ev.input) && !w.engine.finished
    ensures w.engine.decided.Some? ==> Dispatch(w.engine.(now := ev.now), ev.input).next.decided.Some?
  {
    DispatchSound(w.engine.(now := ev.now), w.started, w.armed, ev.input);
  }

  lemma TracedStep(w: World, ev: Event)
    requires Keeps(w) && Admissible(w, ev.input) && Traced(w.chronicle, w.engine)
    ensures Traced(Next(w, ev).chronicle, Next(w, ev).engine)
  {
    var e := w.engine.(now := ev.now);
    if w.engine.finished {
      assert Next(w, ev).chronicle == w.chronicle;
    } else {
      DispatchOwed(e, w.started, ev.input);
      DecidedStays(w, ev);
      var learned := Learned(w.engine, ev.input);
      assert OwedWith(e, ev.input) == e.owes
        + if learned == [Registered] then [Deregister] else if learned == [Answered] then [EndDialog] else [];
      TracedActs(w.chronicle, learned, w.engine, Dispatch(e, ev.input));
    }
  }

  lemma TracedActs(before: seq<Act>, learned: seq<Act>, e: Engine, out: Out)
    requires Traced(before, e) && (learned == [] || learned == [Registered] || learned == [Answered])
    requires OnlyOwed(e.owes + (if learned == [Registered] then [Deregister] else if learned == [Answered] then [EndDialog] else []), out)
    requires e.decided.Some? ==> out.next.decided.Some?
    ensures Traced(before + learned + Dids(out.fx), out.next)
  {
    var acts := before + learned + Dids(out.fx);
    forall a | a in acts && HangsUp(a) ensures Answered in acts {
      Entry(before, learned, out.fx, a);
    }
    forall a | a in acts && Removes(a) ensures Registered in acts {
      Entry(before, learned, out.fx, a);
    }
    assert forall a :: a in before || a in learned ==> a in acts;
    assert Answered in acts ==> Answered in before || Answered in learned by {
      if Answered in acts { Entry(before, learned, out.fx, Answered); }
    }
    assert Registered in acts ==> Registered in before || Registered in learned by {
      if Registered in acts { Entry(before, learned, out.fx, Registered); }
    }
  }

  lemma Entry(before: seq<Act>, learned: seq<Act>, fx: seq<Effect>, a: Act)
    requires a in before + learned + Dids(fx)
    ensures a in before || a in learned || (a.Did? && a.effect in fx)
  {
    var k :| 0 <= k < |before + learned + Dids(fx)| && (before + learned + Dids(fx))[k] == a;
    if k >= |before + learned| {
      assert a == Dids(fx)[k - |before + learned|];
    }
  }

  lemma {:induction false} RunTraced(w: World, events: seq<Event>, k: nat)
    requires Keeps(w) && Traced(w.chronicle, w.engine) && WellFormed(w, events) && k <= |events|
    ensures Traced(Run(w, events[..k]).chronicle, Run(w, events[..k]).engine)
  {
    if k > 0 {
      var n: nat := k - 1;
      RunTraced(w, events, n);
      RunKeeps(w, events, n);
      PrefixRun(w, events, n);
      TracedStep(Run(w, events[..n]), events[n]);
    } else {
      assert events[..0] == [];
    }
  }

  /** The k-th event of a run is the success of this step, taken while the step is running. */
  predicate TakenAt(w: World, events: seq<Event>, step: Step, k: nat) {
    k < |events| && Succeeds(Run(w, events[..k]).engine, events[k].input, step)
  }

  ghost predicate Taken(w: World, events: seq<Event>, step: Step, n: nat) {
    exists k: nat :: k < n && TakenAt(w, events, step, k)
  }

  /** A run has learned of a success exactly when it took one. */
  lemma {:induction false} LearnedIfTaken(w: World, events: seq<Event>, n: nat)
    requires w.chronicle == [] && WellFormed(w, events) && n <= |events|
    ensures Registered in Run(w, events[..n]).chronicle <==> Taken(w, events, Register, n)
    ensures Answered in Run(w, events[..n]).chronicle <==> Taken(w, events, Invite, n)
  {
    if n == 0 {
      assert events[..0] == [];
    } else {
      var k: nat := n - 1;
      LearnedIfTaken(w, events, k);
      PrefixRun(w, events, k);
      LearnedNow(Run(w, events[..k]), events[k]);
      TakenOneMore(w, events, Register, k);
      TakenOneMore(w, events, Invite, k);
    }
  }

  lemma TakenOneMore(w: World, events: seq<Event>, step: Step, k: nat)
    ensures Taken(w, events, step, k + 1) <==> Taken(w, events, step, k) || TakenAt(w, events, step, k)
  {
  }

  lemma LearnedNow(w: World, ev: Event)
    ensures Registered in Next(w, ev).chronicle <==> Registered in w.chronicle || Succeeds(w.engine, ev.input, Register)
    ensures Answered in Next(w, ev).chronicle <==> Answered in w.chronicle || Succeeds(w.engine, ev.input, Invite)
  {
    var learned := Learned(w.engine, ev.input);
    var fx := OnInput(w.engine, ev.now, ev.input).fx;
    assert forall a :: a in w.chronicle || a in learned ==> a in w.chronicle + learned + Dids(fx);
    forall a | a in Next(w, ev).chronicle ensures a in w.chronicle || a in learned || a.Did? {
      Entry(w.chronicle, learned, fx, a);
    }
  }

  ghost predicate HungUp(w: World) { exists a :: a in w.chronicle && HangsUp(a) }

  ghost predicate Removed(w: World) { exists a :: a in w.chronicle && Removes(a) }

  lemma {:induction false} StartsTraced(config: ProbeConfig, marker: Marker, events: seq<Event>)
    requires WellFormed(Initial(config, marker), events)
    ensures var w := Run(Initial(config, marker), events); Keeps(w) && Traced(w.chronicle, w.engine)
    ensures var w := Run(Initial(config, marker), events);
      && (Registered in w.chronicle <==> Taken(Initial(config, marker), events, Register, |events|))
      && (Answered in w.chronicle <==> Taken(Initial(config, marker), events, Invite, |events|))
  {
    assert events[..|events|] == events;
    ProbeKeeps(config, marker, events);
    RunTraced(Initial(config, marker), events, |events|);
    LearnedIfTaken(Initial(config, marker), events, |events|);
  }

  /**
   * A run hangs up exactly when it took a success of its INVITE; a finished run has removed its registration
   * exactly when it took a success of its REGISTER. Whatever succeeded without being taken stays in place.
   */
  lemma {:induction false} UndoneExactly(config: ProbeConfig, marker: Marker, events: seq<Event>)
    requires WellFormed(Initial(config, marker), events)
    ensures var start := Initial(config, marker);
      var w := Run(start, events);
      && (HungUp(w) <==> Taken(start, events, Invite, |events|))
      && (Removed(w) ==> Taken(start, events, Register, |events|))
      && (w.engine.finished ==> (Removed(w) <==> Taken(start, events, Register, |events|)))
  {
    StartsTraced(config, marker, events);
    LearnedIsUndone(Run(Initial(config, marker), events));
  }

  lemma LearnedIsUndone(w: World)
    requires Keeps(w) && Traced(w.chronicle, w.engine)
    ensures (HungUp(w) <==> Answered in w.chronicle) && (Removed(w) ==> Registered in w.chronicle)
    ensures w.engine.finished ==> (Removed(w) <==> Registered in w.chronicle)
  {
    if Answered in w.chronicle {
      var k :| 0 <= k < |w.chronicle| && w.chronicle[k] == Answered;
      assert HungUpAfter(w.chronicle, k);
    }
    if w.engine.finished && Registered in w.chronicle {
      var k :| 0 <= k < |w.chronicle| && w.chronicle[k] == Registered;
      assert RemovedAfter(w.chronicle, k);
    }
  }

  // ------------------------------------------------------------------ a step given up

  /** The verdict is in, and this step's success was never taken. */
  predicate Missed(w: World, step: Step) {
    w.engine.decided.Some? && (step.Register? ==> Registered !in w.chronicle) && (step.Invite? ==> Answered !in w.chronicle)
  }

  lemma MissedStays(w: World, ev: Event, step: Step)
    requires Keeps(w) && Admissible(w, ev.input) && Missed(w, step)
    ensures Missed(Next(w, ev), step)
  {
    VerdictStep(w, ev);
    LearnedNow(w, ev);
  }

  /** A running step that is given up is missed. */
  lemma GivenUp(w: World, ev: Event, step: Step)
    requires Keeps(w) && Admissible(w, ev.input) && Traced(w.chronicle, w.engine)
    requires w.engine.waiting == Running(step) && (step.Register? || step.Invite?)
    requires ev.input == TimerFired(step) || ev.input == TransportError || ev.input == CancelRun || ev.input == LocalResourceUnavailable
    ensures Missed(Next(w, ev), step)
  {
    LearnedNow(w, ev);
  }

  function MissedBy(w: World, events: seq<Event>, step: Step): nat -> bool {
    (n: nat) => n <= |events| && Missed(Run(w, events[..n]), step)
  }

  lemma MissedAt(w: World, events: seq<Event>, step: Step, n: nat)
    requires Keeps(w) && WellFormed(w, events) && n < |events| && MissedBy(w, events, step)(n)
    ensures MissedBy(w, events, step)(n + 1)
  {
    RunKeeps(w, events, n);
    PrefixRun(w, events, n);
    MissedStays(Run(w, events[..n]), events[n], step);
  }

  lemma MissedOn(w: World, events: seq<Event>, step: Step, j: nat, k: nat)
    requires Keeps(w) && WellFormed(w, events) && j <= k <= |events| && MissedBy(w, events, step)(j)
    ensures MissedBy(w, events, step)(k)
  {
    forall n | j <= n < k && MissedBy(w, events, step)(n) ensures MissedBy(w, events, step)(n + 1) {
      MissedAt(w, events, step, n);
    }
    Onwards(MissedBy(w, events, step), j, k);
  }

  predicate GivesUp(i: Input, step: Step) {
    i == TimerFired(step) || i.TransportError? || i.CancelRun? || i.LocalResourceUnavailable?
  }

  lemma GivenUpAt(config: ProbeConfig, marker: Marker, events: seq<Event>, k: nat, step: Step)
    requires WellFormed(Initial(config, marker), events) && k < |events| && (step.Register? || step.Invite?)
    requires Run(Initial(config, marker), events[..k]).engine.waiting == Running(step) && GivesUp(events[k].input, step)
    ensures MissedBy(Initial(config, marker), events, step)(k + 1)
  {
    var start := Initial(config, marker);
    RunKeeps(start, events, k);
    RunTraced(start, events, k);
    PrefixRun(start, events, k);
    GivenUp(Run(start, events[..k]), events[k], step);
  }

  lemma {:induction false} MissedToTheEnd(config: ProbeConfig, marker: Marker, events: seq<Event>, step: Step, j: nat)
    requires WellFormed(Initial(config, marker), events) && j <= |events| && MissedBy(Initial(config, marker), events, step)(j)
    ensures Missed(Run(Initial(config, marker), events), step)
  {
    MissedOn(Initial(config, marker), events, step, j, |events|);
    assert events[..|events|] == events;
  }

  lemma {:induction false} MissedNotUndone(config: ProbeConfig, marker: Marker, events: seq<Event>, step: Step)
    requires WellFormed(Initial(config, marker), events) && (step.Register? || step.Invite?)
    requires Missed(Run(Initial(config, marker), events), step)
    ensures var w := Run(Initial(config, marker), events); if step.Register? then !Removed(w) else !HungUp(w)
  {
    StartsTraced(config, marker, events);
  }

  /**
   * A step that times out, or is abandoned, is never undone: whatever comes after, a 2xx to its request among it,
   * no removal is sent for a REGISTER and no BYE for an INVITE.
   */
  lemma {:induction false} GivenUpNeverUndone(config: ProbeConfig, marker: Marker, events: seq<Event>, k: nat, step: Step)
    requires WellFormed(Initial(config, marker), events) && k < |events| && (step.Register? || step.Invite?)
    requires Run(Initial(config, marker), events[..k]).engine.waiting == Running(step) && GivesUp(events[k].input, step)
    ensures var w := Run(Initial(config, marker), events); if step.Register? then !Removed(w) else !HungUp(w)
  {
    GivenUpAt(config, marker, events, k, step);
    MissedToTheEnd(config, marker, events, step, k + 1);
    MissedNotUndone(config, marker, events, step);
  }

  // ------------------------------------------------------------------ two such runs

  /** This request went out, and this event is a 2xx to it. */
  predicate SucceedsLate(acts: seq<Act>, request: ProbeRequest, i: Input) {
    Did(Send(request)) in acts && i.Response? && IsSuccess(i.answer) && i.answer.cseq == Some(request.cseq)
  }

  lemma Sent(w: World, ev: Event, request: ProbeRequest)
    requires Send(request) in OnInput(w.engine, ev.now, ev.input).fx
    ensures Did(Send(request)) in Next(w, ev).chronicle
  {
    var fx := OnInput(w.engine, ev.now, ev.input).fx;
    var k :| 0 <= k < |fx| && fx[k] == Send(request);
    assert Dids(fx)[k] == Did(Send(request));
  }

  lemma SentBefore(w: World, ev: Event, a: Act)
    requires a in w.chronicle
    ensures a in Next(w, ev).chronicle
  {
  }

  function OnTheWay(config: ProbeConfig, marker: Marker): seq<Event> { [At(0, Start), At(0, Resolved(true))] }

  /** The first two events bring a usable probe to its REGISTER. */
  lemma Registering(config: ProbeConfig, marker: Marker)
    requires IsUsable(config)
    ensures var events := OnTheWay(config, marker);
      var w := Run(Initial(config, marker), events);
      && WellFormed(Initial(config, marker), events) && w.engine.waiting == Running(Register) && w.engine.outstanding == Some(1)
      && w.engine.config == config && w.engine.marker == marker && !w.engine.finished && w.engine.cseq == 1 && w.engine.owes == []
      && Did(Send(ProbeRequest(REGISTER, 1, config.probeAor, Some(3_600), marker))) in w.chronicle
  {
    var start := Initial(config, marker);
    var one := Next(start, At(0, Start));
    assert WellFormed(start, []) && Run(start, []) == start;
    RunSnoc(start, [], At(0, Start));
    assert [] + [At(0, Start)] == [At(0, Start)];
    RunSnoc(start, [At(0, Start)], At(0, Resolved(true)));
    assert [At(0, Start)] + [At(0, Resolved(true))] == OnTheWay(config, marker);
    assert one.engine.waiting == Running(Resolve) && one.engine.cseq == 0 && one.engine.config == config;
    var request := ProbeRequest(REGISTER, 1, config.probeAor, Some(3_600), marker);
    assert OnInput(one.engine, 0, Resolved(true)).fx[1] == Send(request);
    Sent(one, At(0, Resolved(true)), request);
  }

  /** A REGISTER times out, its 2xx comes afterwards, and the registration it granted is never removed. */
  lemma LateRegistration(config: ProbeConfig, marker: Marker) returns (events: seq<Event>)
    requires IsUsable(config)
    ensures WellFormed(Initial(config, marker), events)
    ensures var w := Run(Initial(config, marker), events);
      && w.engine.finished && !Removed(w)
      && SucceedsLate(w.chronicle, ProbeRequest(REGISTER, 1, config.probeAor, Some(3_600), marker), events[|events| - 1].input)
  {
    var start := Initial(config, marker);
    var request := ProbeRequest(REGISTER, 1, config.probeAor, Some(3_600), marker);
    var before := OnTheWay(config, marker);
    var timeout, late := At(0, TimerFired(Register)), At(0, Response(Answer(200, Some(1), None, None)));
    Registering(config, marker);
    var w := Run(start, before);
    RunSnoc(start, before, timeout);
    SentBefore(w, timeout, Did(Send(request)));
    SentBefore(Next(w, timeout), late, Did(Send(request)));
    RunSnoc(start, before + [timeout], late);
    events := before + [timeout] + [late];
    assert events[..2] == before;
    GivenUpNeverUndone(config, marker, events, 2, Register);
  }

  /** A registered probe's INVITE times out. */
  function Unanswered(config: ProbeConfig, marker: Marker): seq<Event> {
    OnTheWay(config, marker) + [At(0, Response(Answer(200, Some(1), None, None)))] + [At(0, TimerFired(Invite))]
  }

  lemma RegistrationAnswered(e: Engine)
    requires e.waiting == Running(Register) && e.outstanding == Some(1) && e.cseq == 1 && e.owes == [] && !e.finished
    ensures var out := OnInput(e, 0, Response(Answer(200, Some(1), None, None)));
      && out.next.waiting == Running(Invite) && out.next.outstanding == Some(2) && out.next.cseq == 2
      && out.next.owes == [Deregister] && !out.next.finished
      && Send(ProbeRequest(INVITE, 2, e.config.echoAor, None, e.marker)) in out.fx
  {
    var a := Answer(200, Some(1), None, None);
    var c := Conclude(e.(now := 0), true);
    assert OnInput(e, 0, Response(a)) == SendInvite(c.(owes := [Deregister]));
    assert SendInvite(c.(owes := [Deregister])).fx[1] == Send(ProbeRequest(INVITE, 2, e.config.echoAor, None, e.marker));
  }

  lemma InviteTimesOut(e: Engine)
    requires e.waiting == Running(Invite) && e.cseq == 2 && e.owes == [Deregister] && !e.finished
    ensures var next := OnInput(e, 0, TimerFired(Invite)).next;
      next.waiting == Cleaning(Register) && next.outstanding == Some(3) && next.cseq == 3 && next.owes == [] && !next.finished
  {
    assert Forget([Deregister], Deregister) == [];
    var c := Conclude(e.(now := 0), false);
    assert OnInput(e, 0, TimerFired(Invite)) == FailStep(c, Invite, Timeout);
  }

  lemma RemovalAnswered(e: Engine)
    requires e.waiting == Cleaning(Register) && e.outstanding == Some(3) && e.owes == [] && !e.finished
    ensures OnInput(e, 0, Response(Answer(200, Some(3), None, None))).next.finished
  {
  }

  lemma Inviting(config: ProbeConfig, marker: Marker)
    requires IsUsable(config)
    ensures var events := Unanswered(config, marker)[..3];
      var w := Run(Initial(config, marker), events);
      && WellFormed(Initial(config, marker), events) && w.engine.waiting == Running(Invite) && w.engine.outstanding == Some(2)
      && !w.engine.finished && w.engine.cseq == 2 && w.engine.owes == [Deregister]
      && Did(Send(ProbeRequest(INVITE, 2, config.echoAor, None, marker))) in w.chronicle
  {
    var start := Initial(config, marker);
    var before := OnTheWay(config, marker);
    var ok := At(0, Response(Answer(200, Some(1), None, None)));
    Registering(config, marker);
    var w := Run(start, before);
    RunSnoc(start, before, ok);
    assert Unanswered(config, marker)[..3] == before + [ok];
    RegistrationAnswered(w.engine);
    Sent(w, ok, ProbeRequest(INVITE, 2, config.echoAor, None, marker));
  }

  lemma CleaningUp(config: ProbeConfig, marker: Marker)
    requires IsUsable(config)
    ensures var events := Unanswered(config, marker);
      var w := Run(Initial(config, marker), events);
      && WellFormed(Initial(config, marker), events) && w.engine.waiting == Cleaning(Register) && w.engine.outstanding == Some(3)
      && !w.engine.finished && w.engine.cseq == 3 && w.engine.owes == []
      && Did(Send(ProbeRequest(INVITE, 2, config.echoAor, None, marker))) in w.chronicle
  {
    var start := Initial(config, marker);
    var before := Unanswered(config, marker)[..3];
    var timeout := At(0, TimerFired(Invite));
    Inviting(config, marker);
    var w := Run(start, before);
    RunSnoc(start, before, timeout);
    assert Unanswered(config, marker) == before + [timeout];
    InviteTimesOut(w.engine);
    SentBefore(w, timeout, Did(Send(ProbeRequest(INVITE, 2, config.echoAor, None, marker))));
  }

  lemma UnansweredNotHungUp(config: ProbeConfig, marker: Marker, fifth: Event, sixth: Event)
    requires IsUsable(config) && WellFormed(Initial(config, marker), Unanswered(config, marker) + [fifth] + [sixth])
    ensures !HungUp(Run(Initial(config, marker), Unanswered(config, marker) + [fifth] + [sixth]))
  {
    var events := Unanswered(config, marker) + [fifth] + [sixth];
    Inviting(config, marker);
    assert events[..3] == Unanswered(config, marker)[..3];
    GivenUpNeverUndone(config, marker, events, 3, Invite);
  }

  /** An INVITE times out, its 2xx comes while the registration is being removed, and no BYE is ever sent for that dialog. */
  lemma LateAnswer(config: ProbeConfig, marker: Marker) returns (events: seq<Event>)
    requires IsUsable(config)
    ensures WellFormed(Initial(config, marker), events) && |events| == 6
    ensures var w := Run(Initial(config, marker), events);
      && w.engine.finished && !HungUp(w)
      && SucceedsLate(w.chronicle, ProbeRequest(INVITE, 2, config.echoAor, None, marker), events[4].input)
  {
    var start := Initial(config, marker);
    var before := Unanswered(config, marker);
    var late, removed := At(0, Response(Answer(200, Some(2), None, Some(marker)))), At(0, Response(Answer(200, Some(3), None, None)));
    var invite := Did(Send(ProbeRequest(INVITE, 2, config.echoAor, None, marker)));
    CleaningUp(config, marker);
    var w := Run(start, before);
    RunSnoc(start, before, late);
    SentBefore(w, late, invite);
    StaleIsStutter(w.engine, 0, late.input.answer);
    RunSnoc(start, before + [late], removed);
    RemovalAnswered(Next(w, late).engine);
    SentBefore(Next(w, late), removed, invite);
    events := before + [late] + [removed];
    UnansweredNotHungUp(config, marker, late, removed);
  }
}
