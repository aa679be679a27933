/** The probe's guarantees, over every well-formed run. */
module ProbeTheorems {
  import opened Basics
  import opened ProbeModel
  import opened ProbeRuns

  // ------------------------------------------------------------------ what every run keeps

  predicate HangsUp(a: Act) { a.Did? && IsHangUp(a.effect) }
  predicate Removes(a: Act) { a.Did? && IsRemoval(a.effect) }
  predicate Finishes(a: Act) { a.Did? && a.effect.Finish? }

  ghost predicate HungUpAfter(acts: seq<Act>, k: nat) { exists j :: k < j < |acts| && HangsUp(acts[j]) }
  ghost predicate RemovedAfter(acts: seq<Act>, k: nat) { exists j :: k < j < |acts| && Removes(acts[j]) }

  ghost predicate DialogsEnded(acts: seq<Act>) {
    forall k :: 0 <= k < |acts| && acts[k].Answered? ==> HungUpAfter(acts, k)
  }

  ghost predicate BindingsRemoved(acts: seq<Act>, owes: seq<Obligation>) {
    forall k :: 0 <= k < |acts| && acts[k].Registered? ==> Deregister in owes || RemovedAfter(acts, k)
  }

  /** `Finish` is the last act of a finished run and of no other, and it reports the verdict decided. */
  ghost predicate FinishedOnce(acts: seq<Act>, e: Engine) {
    && (e.finished ==> acts != [] && Finishes(acts[|acts| - 1]))
    && forall k :: 0 <= k < |acts| && Finishes(acts[k]) ==>
      && e.finished && k == |acts| - 1 && e.decided == Some(acts[k].effect.report.verdict)
      && Explains(acts[k].effect.report.verdict, acts[k].effect.report.steps)
  }

  function Requests(acts: seq<Act>): nat {
    if acts == [] then 0 else (if acts[0].Did? && acts[0].effect.Send? then 1 else 0) + Requests(acts[1..])
  }

  ghost predicate Keeps(w: World) {
    && EngineInv(w.engine, w.started)
    && (!w.engine.waiting.Nothing? ==> w.engine.waiting.step in w.armed)
    && DialogsEnded(w.chronicle) && BindingsRemoved(w.chronicle, w.engine.owes)
    && FinishedOnce(w.chronicle, w.engine)
    && Requests(w.chronicle) == w.engine.cseq
  }

  lemma {:induction false} RequestsAppend(a: seq<Act>, b: seq<Act>)
    ensures Requests(a + b) == Requests(a) + Requests(b)
  {
    if a == [] {
      assert a + b == b;
    } else {
      RequestsAppend(a[1..], b);
      assert (a + b)[1..] == a[1..] + b;
    }
  }

  lemma {:induction false} RequestsOfEffects(fx: seq<Effect>)
    ensures Requests(Dids(fx)) == Sends(fx)
  {
    if fx != [] {
      RequestsOfEffects(fx[1..]);
      assert Dids(fx)[1..] == Dids(fx[1..]);
    }
  }

  lemma {:induction false} StepRequests(before: seq<Act>, learned: seq<Act>, fx: seq<Effect>)
    requires learned == [] || learned == [Registered] || learned == [Answered]
    ensures Requests(before + learned + Dids(fx)) == Requests(before) + Sends(fx)
  {
    RequestsAppend(before + learned, Dids(fx));
    RequestsAppend(before, learned);
    RequestsOfEffects(fx);
    assert learned != [] ==> learned[1..] == [];
  }

  lemma StepDialogs(before: seq<Act>, learned: seq<Act>, fx: seq<Effect>)
    requires DialogsEnded(before) && |learned| <= 1
    requires learned == [Answered] ==> exists x :: x in fx && IsHangUp(x)
    requires learned == [] || learned == [Registered] || learned == [Answered]
    ensures DialogsEnded(before + learned + Dids(fx))
  {
    var acts := before + learned + Dids(fx);
    forall k | 0 <= k < |acts| && acts[k].Answered? ensures HungUpAfter(acts, k) {
      if k < |before| {
        var j :| k < j < |before| && HangsUp(before[j]);
        assert HangsUp(acts[j]);
      } else {
        var n :| 0 <= n < |fx| && IsHangUp(fx[n]);
        assert HangsUp(acts[|before + learned| + n]);
      }
    }
  }

  lemma StepBindings(before: seq<Act>, learned: seq<Act>, fx: seq<Effect>, owed: seq<Obligation>, owes: seq<Obligation>)
    requires BindingsRemoved(before, owed)
    requires learned == [] || learned == [Registered] || learned == [Answered]
    requires learned == [Registered] ==> Deregister in owes
    requires Deregister in owed && Deregister !in owes ==> exists x :: x in fx && IsRemoval(x)
    ensures BindingsRemoved(before + learned + Dids(fx), owes)
  {
    var acts := before + learned + Dids(fx);
    forall k | 0 <= k < |acts| && acts[k].Registered? ensures Deregister in owes || RemovedAfter(acts, k) {
      if k < |before| && RemovedAfter(before, k) {
        var j :| k < j < |before| && Removes(before[j]);
        assert Removes(acts[j]);
      } else if Deregister !in owes {
        var n :| 0 <= n < |fx| && IsRemoval(fx[n]);
        assert Removes(acts[|before + learned| + n]);
      }
    }
  }

  lemma StepFinish(before: seq<Act>, learned: seq<Act>, e: Engine, armed: set<Step>, out: Out)
    requires FinishedOnce(before, e) && !e.finished && (out == Out(e, []) || Sound(e, armed, out))
    requires learned == [] || learned == [Registered] || learned == [Answered]
    ensures FinishedOnce(before + learned + Dids(out.fx), out.next)
  {
    var acts := before + learned + Dids(out.fx);
    forall k | 0 <= k < |acts| && Finishes(acts[k])
      ensures out.next.finished && k == |acts| - 1 && acts[k] == Did(Last(out.fx))
    {
      assert k >= |before + learned|;
      assert acts[k] == Did(out.fx[k - |before + learned|]);
    }
    if out.next.finished {
      assert acts[|acts| - 1] == Did(out.fx[|out.fx| - 1]);
    }
  }

  /** What the chronicle records of a step. */
  lemma ChronicleStep(w: World, out: Out, learned: seq<Act>, armed: set<Step>)
    requires Keeps(w) && !w.engine.finished
    requires learned == [] || learned == [Registered] || learned == [Answered]
    requires out == Out(w.engine.(now := out.next.now), []) || Sound(w.engine.(now := out.next.now), armed, out)
    requires learned == [Answered] ==> exists x :: x in out.fx && IsHangUp(x)
    requires learned == [Registered] ==> Deregister in out.next.owes
    ensures var acts := w.chronicle + learned + Dids(out.fx);
      && DialogsEnded(acts) && BindingsRemoved(acts, out.next.owes) && FinishedOnce(acts, out.next) && Requests(acts) == out.next.cseq
  {
    StepRequests(w.chronicle, learned, out.fx);
    StepDialogs(w.chronicle, learned, out.fx);
    StepBindings(w.chronicle, learned, out.fx, w.engine.owes, out.next.owes);
    StepFinish(w.chronicle, learned, w.engine.(now := out.next.now), armed, out);
  }

  function LeftArmed(w: World, i: Input): set<Step> { if i.TimerFired? then w.armed - {i.step} else w.armed }

  lemma EngineStep(w: World, ev: Event)
    requires Keeps(w) && Admissible(w, ev.input)
    ensures var next := Next(w, ev);
      EngineInv(next.engine, next.started) && (!next.engine.waiting.Nothing? ==> next.engine.waiting.step in next.armed)
  {
    if !w.engine.finished {
      DispatchSound(w.engine.(now := ev.now), w.started, w.armed, ev.input);
    }
  }

  lemma HistoryStep(w: World, ev: Event)
    requires Keeps(w) && Admissible(w, ev.input)
    ensures var next := Next(w, ev);
      && DialogsEnded(next.chronicle) && BindingsRemoved(next.chronicle, next.engine.owes)
      && FinishedOnce(next.chronicle, next.engine) && Requests(next.chronicle) == next.engine.cseq
  {
    if w.engine.finished {
      assert Next(w, ev).chronicle == w.chronicle;
    } else {
      DispatchSound(w.engine.(now := ev.now), w.started, w.armed, ev.input);
      ChronicleStep(w, OnInput(w.engine, ev.now, ev.input), Learned(w.engine, ev.input), LeftArmed(w, ev.input));
    }
  }

  lemma KeepStep(w: World, ev: Event)
    requires Keeps(w) && Admissible(w, ev.input)
    ensures Keeps(Next(w, ev))
  {
    EngineStep(w, ev);
    HistoryStep(w, ev);
  }

  lemma {:induction false} PrefixRun(w: World, events: seq<Event>, k: nat)
    requires WellFormed(w, events) && k <= |events|
    ensures WellFormed(w, events[..k])
    ensures k < |events| ==> Run(w, events[..k + 1]) == Next(Run(w, events[..k]), events[k])
  {
    forall j | 0 <= j < k ensures Admissible(Run(w, events[..k][..j]), events[..k][j].input) {
      assert events[..k][..j] == events[..j];
    }
    if k < |events| {
      assert events[..k + 1][..k] == events[..k];
    }
  }

  lemma {:induction false} RunKeeps(w: World, events: seq<Event>, k: nat)
    requires Keeps(w) && WellFormed(w, events) && k <= |events|
    ensures Keeps(Run(w, events[..k]))
  {
    if k > 0 {
      var n: nat := k - 1;
      RunKeeps(w, events, n);
      PrefixRun(w, events, n);
      KeepStep(Run(w, events[..n]), events[n]);
    } else {
      assert events[..0] == [];
    }
  }

  /** What the run of one probe has come to after all its events. */
  lemma {:induction false} ProbeKeeps(config: ProbeConfig, marker: Marker, events: seq<Event>)
    requires WellFormed(Initial(config, marker), events)
    ensures Keeps(Run(Initial(config, marker), events))
  {
    RunKeeps(Initial(config, marker), events, |events|);
    assert events[..|events|] == events;
  }

  // ------------------------------------------------------------------ cleanup and verdict

  /**
   * `Finish` is the last thing a run does, and it does it once. Before it, every registration that succeeded
   * was removed and every INVITE that was answered was hung up on: nothing is owed.
   */
  lemma {:induction false} FinishOwesNothing(config: ProbeConfig, marker: Marker, events: seq<Event>, f: nat)
    requires WellFormed(Initial(config, marker), events)
    requires var acts := Run(Initial(config, marker), events).chronicle; f < |acts| && Finishes(acts[f])
    ensures var acts := Run(Initial(config, marker), events).chronicle;
      && f == |acts| - 1
      && (forall k :: 0 <= k < f && acts[k].Registered? ==> exists j :: k < j < f && Removes(acts[j]))
      && (forall k :: 0 <= k < f && acts[k].Answered? ==> exists j :: k < j < f && HangsUp(acts[j]))
  {
    ProbeKeeps(config, marker, events);
    var acts := Run(Initial(config, marker), events).chronicle;
    forall k | 0 <= k < f && acts[k].Registered? ensures exists j :: k < j < f && Removes(acts[j]) {
      assert RemovedAfter(acts, k);
      var j :| k < j < |acts| && Removes(acts[j]);
      assert j != f;
    }
    forall k | 0 <= k < f && acts[k].Answered? ensures exists j :: k < j < f && HangsUp(acts[j]) {
      assert HungUpAfter(acts, k);
      var j :| k < j < |acts| && HangsUp(acts[j]);
      assert j != f;
    }
  }

  /** Even unfinished, a run never leaves an answered INVITE without its BYE, nor forgets a registration it must remove. */
  lemma {:induction false} NothingForgotten(config: ProbeConfig, marker: Marker, events: seq<Event>)
    requires WellFormed(Initial(config, marker), events)
    ensures var w := Run(Initial(config, marker), events);
      DialogsEnded(w.chronicle) && BindingsRemoved(w.chronicle, w.engine.owes)
  {
    ProbeKeeps(config, marker, events);
  }

  lemma VerdictStep(w: World, ev: Event)
    requires Keeps(w) && Admissible(w, ev.input) && w.engine.decided.Some?
    ensures Next(w, ev).engine.decided == w.engine.decided
  {
    if !w.engine.finished {
      DispatchSound(w.engine.(now := ev.now), w.started, w.armed, ev.input);
    }
  }

  /** After how many events this verdict is the one decided. */
  function DecidedBy(w: World, events: seq<Event>, verdict: Verdict): nat -> bool {
    (n: nat) => n <= |events| && Run(w, events[..n]).engine.decided == Some(verdict)
  }

  lemma DecidedAt(w: World, events: seq<Event>, verdict: Verdict, n: nat)
    requires Keeps(w) && WellFormed(w, events) && n < |events| && DecidedBy(w, events, verdict)(n)
    ensures DecidedBy(w, events, verdict)(n + 1)
  {
    RunKeeps(w, events, n);
    PrefixRun(w, events, n);
    VerdictStep(Run(w, events[..n]), events[n]);
  }

  /** Cleanup never changes the first verdict decided. */
  lemma VerdictKept(w: World, events: seq<Event>, verdict: Verdict, k: nat, m: nat)
    requires Keeps(w) && WellFormed(w, events) && k <= m <= |events| && DecidedBy(w, events, verdict)(k)
    ensures DecidedBy(w, events, verdict)(m)
  {
    forall n | k <= n < m && DecidedBy(w, events, verdict)(n) ensures DecidedBy(w, events, verdict)(n + 1) {
      DecidedAt(w, events, verdict, n);
    }
    Onwards(DecidedBy(w, events, verdict), k, m);
  }

  lemma {:induction false} FinishReportsDecided(config: ProbeConfig, marker: Marker, events: seq<Event>, verdict: Verdict, f: nat)
    requires WellFormed(Initial(config, marker), events) && DecidedBy(Initial(config, marker), events, verdict)(|events|)
    requires var acts := Run(Initial(config, marker), events).chronicle; f < |acts| && Finishes(acts[f])
    ensures Run(Initial(config, marker), events).chronicle[f].effect.report.verdict == verdict
  {
    ProbeKeeps(config, marker, events);
    assert events[..|events|] == events;
  }

  /** What is reported is the first verdict decided, whenever that was. */
  lemma {:induction false} ReportedIsFirstDecided(config: ProbeConfig, marker: Marker, events: seq<Event>, verdict: Verdict, k: nat, f: nat)
    requires WellFormed(Initial(config, marker), events) && k <= |events|
    requires DecidedBy(Initial(config, marker), events, verdict)(k)
    requires var acts := Run(Initial(config, marker), events).chronicle; f < |acts| && Finishes(acts[f])
    ensures Run(Initial(config, marker), events).chronicle[f].effect.report.verdict == verdict
  {
    VerdictKept(Initial(config, marker), events, verdict, k, |events|);
    FinishReportsDecided(config, marker, events, verdict, f);
  }

  predicate IsWholePlan(steps: seq<StepOutcome>) { PlanUpTo(steps, |PLAN|) }

  /** A run passes exactly when its recorded steps are the plan, all of them successful; a failure names the last one. */
  lemma {:induction false} PassIsTheWholePlan(config: ProbeConfig, marker: Marker, events: seq<Event>, f: nat)
    requires WellFormed(Initial(config, marker), events)
    requires var acts := Run(Initial(config, marker), events).chronicle; f < |acts| && Finishes(acts[f])
    ensures var report := Run(Initial(config, marker), events).chronicle[f].effect.report;
      && (report.verdict.Pass? <==> IsWholePlan(report.steps))
      && (report.verdict.Fail? ==> report.steps != [] && report.steps[|report.steps| - 1].step == report.verdict.step)
      && |report.steps| <= |PLAN| && (forall i :: 0 <= i < |report.steps| ==> report.steps[i].step == PLAN[i])
  {
    ProbeKeeps(config, marker, events);
  }

  /** The INVITE is acknowledged exactly when it came back with the marker; a mismatch hangs up without an ACK. */
  lemma AckOnlyOnMatch(e: Engine, now: nat, a: Answer)
    requires EngineInv(e, true) && Succeeds(e, Response(a), Invite)
    ensures (exists x :: x in OnInput(e, now, Response(a)).fx && x.Send? && x.request.verb.ACK?) <==> a.marker == Some(e.marker)
  {
    var c := Conclude(e.(now := now), true);
    var owing := c.(owes := Owe(c.owes, EndDialog));
    assert OnInput(e, now, Response(a)) == OnSuccess(c, Invite, a);
    if a.marker == Some(e.marker) {
      assert SendBye(owing).fx[1] == Send(SimpleRequest(owing, ACK));
    } else {
      assert FailStep(owing, Invite, MarkerMismatch).fx[1].request.verb.BYE?;
    }
  }

  // ------------------------------------------------------------------ correlation

  /** A response the engine passes over: provisional, or not the outstanding request's. */
  predicate IsStale(e: Engine, a: Answer) {
    e.finished || IsProvisionalAnswer(a) || (e.outstanding.Some? && a.cseq != e.outstanding)
  }

  lemma StaleIsStutter(e: Engine, now: nat, a: Answer)
    requires IsStale(e, a)
    ensures OnInput(e, now, Response(a)) == Out(if e.finished then e else e.(now := now), [])
  {
  }

  /** Equal in everything a later input could bring to light. */
  ghost predicate SameButNow(a: World, b: World) {
    a == b.(engine := b.engine.(now := a.engine.now))
  }

  lemma SameStep(a: World, b: World, ev: Event)
    requires SameButNow(a, b)
    ensures SameButNow(Next(a, ev), Next(b, ev))
  {
    var x, y := a.engine.(now := ev.now), b.engine.(now := ev.now);
    assert x == y;
    assert Learned(a.engine, ev.input) == Learned(b.engine, ev.input);
  }

  lemma {:induction false} SameRun(a: World, b: World, events: seq<Event>)
    requires SameButNow(a, b)
    ensures SameButNow(Run(a, events), Run(b, events))
    decreases |events|
  {
    if events != [] {
      SameRun(a, b, events[..|events| - 1]);
      SameStep(Run(a, events[..|events| - 1]), Run(b, events[..|events| - 1]), events[|events| - 1]);
    }
  }

  lemma {:induction false} RunConcat(w: World, a: seq<Event>, b: seq<Event>)
    ensures Run(w, a + b) == Run(Run(w, a), b)
    decreases |b|
  {
    if b == [] {
      assert a + b == a;
    } else {
      RunConcat(w, a, b[..|b| - 1]);
      assert (a + b)[..|a + b| - 1] == a + b[..|b| - 1];
    }
  }

  /**
   * A stale response changes nothing: with or without it, a run learns and does the same things in the same
   * order, has the same timers armed, and ends in the same state but for the clock.
   */
  lemma {:induction false} StaleChangesNothing(w: World, before: seq<Event>, now: nat, a: Answer, after: seq<Event>)
    requires IsStale(Run(w, before).engine, a)
    ensures SameButNow(Run(w, before + [At(now, Response(a))] + after), Run(w, before + after))
  {
    var mid := Run(w, before);
    var stale := At(now, Response(a));
    StaleIsStutter(mid.engine, now, a);
    assert Dids([]) == [] && mid.chronicle + [] + [] == mid.chronicle;
    assert !Succeeds(mid.engine, stale.input, Register) && !Succeeds(mid.engine, stale.input, Invite);
    assert [stale][..0] == [];
    assert Run(mid, []) == mid;
    assert Run(mid, [stale]) == Next(mid, stale);
    RunConcat(w, before, [stale]);
    RunConcat(w, before + [stale], after);
    RunConcat(w, before, after);
    SameRun(Next(mid, stale), mid, after);
  }

  /** A final response that answers the outstanding request. */
  predicate Consumes(e: Engine, a: Answer) {
    !e.finished && !e.waiting.Nothing? && !IsProvisionalAnswer(a) && e.outstanding.Some? && a.cseq == e.outstanding
  }

  predicate Advances(e: Engine, out: Out) { out.next.finished || out.next.cseq > e.cseq }

  lemma FailAdvances(e: Engine, step: Step, cause: Cause)
    ensures Advances(e, FailStep(e, step, cause))
  {
  }

  lemma AbandonAdvances(e: Engine, fault: Fault)
    ensures Advances(e, Abandon(e, fault))
  {
  }

  lemma SuccessAdvances(e: Engine, step: Step, a: Answer)
    requires !step.Resolve?
    ensures Advances(e, OnSuccess(e, step, a))
  {
    if step.Invite? {
      FailAdvances(e.(owes := Owe(e.owes, EndDialog)), Invite, MarkerMismatch);
    }
  }

  lemma StepResponseAdvances(e: Engine, step: Step, a: Answer)
    requires !step.Resolve? && e.waiting == Running(step)
    ensures Advances(e, OnStepResponse(e, step, a))
  {
    if IsChallenge(a) {
      AbandonAdvances(e, BadCredentials);
      FailAdvances(Conclude(e, false), step, Rejected(a.status));
    } else if a.status == 503 && a.retryAfter.Some? {
      FailAdvances(Conclude(e, false), step, Shed(a.retryAfter.value));
    } else if !IsSuccess(a) {
      FailAdvances(Conclude(e, false), step, Rejected(a.status));
    } else {
      SuccessAdvances(Conclude(e, true), step, a);
    }
  }

  lemma ConsumedAdvances(w: World, now: nat, a: Answer)
    requires Keeps(w) && Consumes(w.engine, a)
    ensures Beyond(Next(w, At(now, Response(a))), w.engine.cseq)
  {
    var e := w.engine.(now := now);
    if e.waiting.Running? {
      StepResponseAdvances(e, e.waiting.step, a);
      assert OnInput(w.engine, now, Response(a)) == OnStepResponse(e, e.waiting.step, a);
    } else {
      CleanupAdvances(if IsSuccess(a) then e else e.(cleanupFailed := true), e.waiting.step);
    }
  }

  lemma CleanupAdvances(e: Engine, step: Step)
    ensures Advances(e, AfterCleanup(e, step))
  {
  }

  /** The engine has gone past the request of this number. */
  predicate Beyond(w: World, n: nat) { w.engine.finished || w.engine.cseq > n }

  lemma BeyondStays(w: World, ev: Event, n: nat)
    requires Keeps(w) && Admissible(w, ev.input) && Beyond(w, n)
    ensures Beyond(Next(w, ev), n)
  {
    if !w.engine.finished {
      DispatchSound(w.engine.(now := ev.now), w.started, w.armed, ev.input);
    }
  }

  function BeyondBy(w: World, events: seq<Event>, n: nat): nat -> bool {
    (k: nat) => k <= |events| && Beyond(Run(w, events[..k]), n)
  }

  lemma BeyondAt(w: World, events: seq<Event>, k: nat, n: nat)
    requires Keeps(w) && WellFormed(w, events) && k < |events| && BeyondBy(w, events, n)(k)
    ensures BeyondBy(w, events, n)(k + 1)
  {
    RunKeeps(w, events, k);
    PrefixRun(w, events, k);
    BeyondStays(Run(w, events[..k]), events[k], n);
  }

  lemma BeyondRun(w: World, events: seq<Event>, k: nat, m: nat, n: nat)
    requires Keeps(w) && WellFormed(w, events) && k <= m <= |events| && BeyondBy(w, events, n)(k)
    ensures BeyondBy(w, events, n)(m)
  {
    forall j | k <= j < m && BeyondBy(w, events, n)(j) ensures BeyondBy(w, events, n)(j + 1) {
      BeyondAt(w, events, j, n);
    }
    Onwards(BeyondBy(w, events, n), k, m);
  }

  lemma BeyondIsStale(w: World, now: nat, a: Answer, n: nat)
    requires Keeps(w) && Beyond(w, n) && a.cseq == Some(n)
    ensures IsStale(w.engine, a) && OnInput(w.engine, now, Response(a)).fx == []
  {
    StaleIsStutter(w.engine, now, a);
  }

  lemma {:induction false} ConsumedIsBeyond(w: World, events: seq<Event>, k: nat, a: Answer)
    requires Keeps(w) && WellFormed(w, events) && k < |events|
    requires events[k].input == Response(a) && Consumes(Run(w, events[..k]).engine, a)
    ensures a.cseq.Some? && BeyondBy(w, events, a.cseq.value)(k + 1)
  {
    RunKeeps(w, events, k);
    PrefixRun(w, events, k);
    ConsumedAdvances(Run(w, events[..k]), events[k].now, a);
  }

  /** Every response takes effect at most once: once consumed, each later copy of it is a stutter. */
  lemma {:induction false} TakesEffectOnce(w: World, events: seq<Event>, k: nat, m: nat, a: Answer)
    requires Keeps(w) && WellFormed(w, events) && k < m < |events|
    requires events[k].input == Response(a) && Consumes(Run(w, events[..k]).engine, a)
    ensures var e := Run(w, events[..m]).engine;
      IsStale(e, a) && OnInput(e, events[m].now, Response(a)).fx == []
  {
    ConsumedIsBeyond(w, events, k, a);
    BeyondRun(w, events, k + 1, m, a.cseq.value);
    RunKeeps(w, events, m);
    BeyondIsStale(Run(w, events[..m]), events[m].now, a, a.cseq.value);
  }

  // ------------------------------------------------------------------ boundedness

  /** An unfinished run that has started has a timer armed for the step it waits on. */
  lemma {:induction false} AlwaysArmed(config: ProbeConfig, marker: Marker, events: seq<Event>)
    requires WellFormed(Initial(config, marker), events)
    ensures var w := Run(Initial(config, marker), events);
      w.started && !w.engine.finished ==> !w.engine.waiting.Nothing? && w.engine.waiting.step in w.armed
  {
    ProbeKeeps(config, marker, events);
  }

  /** Only the removal of the registration is left. */
  ghost predicate LastCleanup(e: Engine) { e.waiting == Cleaning(Register) && e.owes == [] && !e.finished }

  lemma RunningTimesOut(e: Engine, now: nat)
    requires EngineInv(e, true) && e.waiting.Running?
    ensures var next := OnInput(e, now, TimerFired(e.waiting.step)).next; next.finished || LastCleanup(next)
  {
    var c := Conclude(e.(now := now), false);
    assert Forget([Deregister, EndDialog], EndDialog) == [Deregister] by { ForgetEnd(); }
    assert Forget([Deregister], Deregister) == [] && Forget([], EndDialog) == [];
  }

  lemma CleaningTimesOut(e: Engine, now: nat)
    requires EngineInv(e, true) && e.waiting.Cleaning?
    ensures var next := OnInput(e, now, TimerFired(e.waiting.step)).next;
      if e.waiting.step.Bye? then LastCleanup(next) else next.finished
  {
    assert Forget([Deregister], Deregister) == [];
  }

  /** And two firings of the timer it waits on end any run, whatever state it is in. */
  lemma TwoTimeoutsFinish(w: World, t: nat, u: nat)
    requires Keeps(w) && w.started && !w.engine.finished
    ensures var next := Next(w, At(t, TimerFired(w.engine.waiting.step)));
      next.engine.finished
      || (!next.engine.waiting.Nothing? && Next(next, At(u, TimerFired(next.engine.waiting.step))).engine.finished)
  {
    var ev := At(t, TimerFired(w.engine.waiting.step));
    KeepStep(w, ev);
    if w.engine.waiting.Running? {
      RunningTimesOut(w.engine, t);
    } else {
      CleaningTimesOut(w.engine, t);
    }
    var next := Next(w, ev).engine;
    if !next.finished {
      CleaningTimesOut(next, u);
    }
  }

  lemma {:induction false} AtMostSeven(config: ProbeConfig, marker: Marker, events: seq<Event>)
    requires WellFormed(Initial(config, marker), events)
    ensures Requests(Run(Initial(config, marker), events).chronicle) <= 7
  {
    ProbeKeeps(config, marker, events);
    NumberedToSeven(Run(Initial(config, marker), events).engine, Run(Initial(config, marker), events).started);
  }

  lemma NumberedToSeven(e: Engine, started: bool)
    requires EngineInv(e, started)
    ensures e.cseq <= 7
  {
    if !started && !e.finished {
      assert e.cseq == Fresh(e.config, e.marker).cseq;
    }
  }

  /** One more event of a well-formed run. */
  lemma {:induction false} RunSnoc(w: World, events: seq<Event>, ev: Event)
    requires WellFormed(w, events) && Admissible(Run(w, events), ev.input)
    ensures WellFormed(w, events + [ev]) && Run(w, events + [ev]) == Next(Run(w, events), ev)
  {
    var all := events + [ev];
    assert all[..|events|] == events;
    forall k | 0 <= k < |all| ensures Admissible(Run(w, all[..k]), all[k].input) {
      assert k < |events| ==> all[..k] == events[..k];
    }
  }

  /** How a run that sends seven requests goes, and where it stands after each event. */
  function BusyPlan(marker: Marker): seq<Input> {
    [Start, Resolved(true), Response(Answer(401, Some(1), None, None)), Response(Answer(200, Some(2), None, None)),
     Response(Answer(200, Some(3), None, Some(marker))), CancelRun, TransportError]
  }

  const STAGES: seq<(Waiting, nat, bool)> := [
    (Nothing, 0, false), (Running(Resolve), 0, false), (Running(Register), 1, false), (Running(Register), 2, true),
    (Running(Invite), 3, true), (Running(Bye), 5, true), (Cleaning(Bye), 6, true), (Cleaning(Register), 7, true)]

  ghost predicate AtStage(w: World, config: ProbeConfig, marker: Marker, i: nat)
    requires i < |STAGES|
  {
    var e := w.engine;
    Keeps(w) && e.config == config && e.marker == marker && !e.finished && w.started == (i > 0)
    && (e.waiting, e.cseq, e.answeredChallenge) == STAGES[i]
  }

  /** The engine after each input of that run, from what it was before. */
  lemma StageEngine(e: Engine, i: nat)
    requires EngineInv(e, i > 0) && !e.finished && i < 7 && IsUsable(e.config) && e.config.hasCredentials
    requires (e.waiting, e.cseq, e.answeredChallenge) == STAGES[i]
    ensures var next := Dispatch(e, BusyPlan(e.marker)[i]).next;
      (next.waiting, next.cseq, next.answeredChallenge) == STAGES[i + 1] && !next.finished
  {
    if i < 2 {
    } else if i < 5 {
      AnsweredStage(e, i);
    } else {
      ForgetEnd();
      LateStage(e, i);
    }
  }

  lemma AnsweredStage(e: Engine, i: nat)
    requires RunningInv(e) && !e.finished && 2 <= i < 5 && e.config.hasCredentials
    requires (e.waiting, e.cseq, e.answeredChallenge) == STAGES[i]
    ensures var next := OnResponse(e, BusyPlan(e.marker)[i].answer).next;
      (next.waiting, next.cseq, next.answeredChallenge) == STAGES[i + 1] && !next.finished
  {
    var a := BusyPlan(e.marker)[i].answer;
    if i == 2 {
      assert OnResponse(e, a) == RetryChallenged(e.(answeredChallenge := true), Register);
    } else {
      assert OnResponse(e, a) == OnSuccess(Conclude(e, true), e.waiting.step, a);
    }
  }

  lemma LateStage(e: Engine, i: nat)
    requires EngineInv(e, true) && !e.finished && 5 <= i < 7
    requires (e.waiting, e.cseq, e.answeredChallenge) == STAGES[i]
    ensures var next := Dispatch(e, [CancelRun, TransportError][i - 5]).next;
      (next.waiting, next.cseq, next.answeredChallenge) == STAGES[i + 1] && !next.finished
  {
    if i == 5 {
      var c := Conclude(e.(decided := Some(Inconclusive(Cancelled))), false);
      assert Abandon(e, Cancelled).next == Cleanup(c).next;
    } else {
      assert OnTransportError(e) == AfterCleanup(e.(cleanupFailed := true), Bye);
    }
  }

  lemma StageStep(w: World, config: ProbeConfig, marker: Marker, i: nat)
    requires IsUsable(config) && config.hasCredentials && i < 7 && AtStage(w, config, marker, i)
    ensures Admissible(w, BusyPlan(marker)[i]) && AtStage(Next(w, At(0, BusyPlan(marker)[i])), config, marker, i + 1)
  {
    var ev := At(0, BusyPlan(marker)[i]);
    KeepStep(w, ev);
    StageEngine(w.engine.(now := 0), i);
    SameIdentity(w, ev);
  }

  lemma SameIdentity(w: World, ev: Event)
    requires Keeps(w) && Admissible(w, ev.input)
    ensures Next(w, ev).engine.config == w.engine.config && Next(w, ev).engine.marker == w.engine.marker
  {
    if !w.engine.finished {
      DispatchSound(w.engine.(now := ev.now), w.started, w.armed, ev.input);
    }
  }

  /** The bound is reached: a challenged registration, an answered call, and a cancellation before the BYE is answered. */
  lemma SevenAreSent(config: ProbeConfig, marker: Marker) returns (events: seq<Event>)
    requires IsUsable(config) && config.hasCredentials
    ensures WellFormed(Initial(config, marker), events)
    ensures Requests(Run(Initial(config, marker), events).chronicle) == 7
  {
    var w := Initial(config, marker);
    events := [];
    for i := 0 to 7
      invariant WellFormed(w, events) && AtStage(Run(w, events), config, marker, i)
    {
      StageStep(Run(w, events), config, marker, i);
      RunSnoc(w, events, At(0, BusyPlan(marker)[i]));
      events := events + [At(0, BusyPlan(marker)[i])];
    }
  }

  // ------------------------------------------------------------------ why a response needs a request before it

  /** No input but a restart or an abandonment moves this engine. */
  ghost predicate IsIdle(e: Engine) {
    !e.finished && e.waiting.Nothing?
    && forall now: nat, i: Input :: i.Start? || i.CancelRun? || i.LocalResourceUnavailable? || OnInput(e, now, i).fx == []
  }

  /** A stray response while the target is being resolved idles the engine exactly when it is a 2xx. */
  lemma StrayWhileResolving(e: Engine, now: nat, a: Answer)
    requires EngineInv(e, true) && e.waiting == Running(Resolve)
    ensures IsIdle(OnInput(e, now, Response(a)).next) <==> IsSuccess(a)
  {
    if IsSuccess(a) {
      assert OnInput(e, now, Response(a)).next.waiting.Nothing?;
    }
  }
}
