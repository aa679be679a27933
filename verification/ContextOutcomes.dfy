/** What goes upstream, when and how often. */
module ContextOutcomes {
  import opened Basics
  import opened Messages
  import opened Routing
  import opened ContextModel
  import opened ContextRuns
  import opened ContextFacts
  import opened ContextEvents
  import opened ContextInvariants
  import opened ContextTargets
  import opened ContextBranches
  import opened ContextTheorems
  import opened ContextProgress
  import opened ContextAnswers

  // ------------------------------------------------------------------ answering once

  lemma {:induction false} Only(fx: seq<Effect>, e: Effect)
    requires AnswersFirst(fx) && e in fx && e.Respond?
    ensures fx != [] && fx[0] == e
  {
    assert fx == [fx[0]] + fx[1..];
  }

  /** A step that sends a final leaves the context answered or over. */
  lemma SendMarks(pipe: Pipeline, w: World, i: Input)
    requires Lawful(pipe) && Keeps(pipe, w) && Admissible(w, i) && SendsFinal(OnInput(pipe, w.ctx, i).fx)
    ensures Next(pipe, w, i).ctx.answered || Next(pipe, w, i).ctx.finished
  {
    var fx := OnInput(pipe, w.ctx, i).fx;
    StepAnswersFirst(pipe, w, i);
    var e :| e in fx && e.Respond? && e.response.status >= 200;
    Only(fx, e);
    if IsBranchEvent(i) && w.ctx.request.Some? {
      HandlesEvent(pipe, w.ctx, i);
      ClassifiedFinal(w.ctx, i);
      EventMarks(pipe, w.ctx, Classify(w.ctx, i));
    } else if IsBranchEvent(i) {
    } else {
      DeliveryMarks(pipe, w, i);
    }
  }

  lemma EventMarks(pipe: Pipeline, c: Context, e: Event)
    requires c.request.Some? && c.validated.Some? && (c.answered ==> c.queued == [])
    requires e.Early? ==> IsEarlyMedia(e.response)
    requires var fx := Handle(pipe, c, e).fx; fx != [] && fx[0].Respond? && fx[0].response.status >= 200
    ensures Handle(pipe, c, e).next.answered
  {
    match e {
      case Final(branch, response) =>
        FinalFacts(pipe, c, branch, response);
        ForkMarks(pipe, Recorded(c, branch, response));
      case Accepted(branch, response) => AcceptFacts(pipe, c, branch, response);
      case Rejected(branch, response) => RejectFacts(pipe, c, branch, response);
      case Early(branch, response) => EarlyFacts(pipe, c, branch, response);
      case Withdrawn => WithdrawnFacts(pipe, c);
      case _ =>
    }
  }

  lemma ForkMarks(pipe: Pipeline, c: Context)
    requires c.request.Some? && c.validated.Some?
    ensures var out := ForkNextGroup(pipe, c);
      out.fx != [] && out.fx[0].Respond? ==> out.next.answered && out.fx[0].response.status == 480
  {
    if c.queued != [] {
      var group := c.queued[..GroupSize(c.queued, c.validated.value.maxBreadth)];
      CopiesFirst(pipe, GroupPlan(c, group), group, |c.branches|);
    }
  }

  /** What the proxy itself may answer while it determines targets. */
  lemma DeliveryMarks(pipe: Pipeline, w: World, i: Input)
    requires PhaseInv(w) && Admissible(w, i) && !IsBranchEvent(i)
    requires var fx := OnInput(pipe, w.ctx, i).fx; fx != [] && fx[0].Respond?
    ensures Next(pipe, w, i).ctx.answered || Next(pipe, w, i).ctx.finished
    ensures OnInput(pipe, w.ctx, i).fx[0].response.status == 503 ==> i.TargetsUnavailable?
  {
    var c := w.ctx;
    if i.TargetsResolved? && c.request.Some? {
      ForkMarks(pipe, c.(queued := SortByQ(i.targets)));
    } else if i.Upstream? && pipe.validate(i.arrival).Ok? {
      RouteMarks(pipe, c.(request := Some(pipe.preprocess(i.arrival).0), validated := Some(pipe.validate(i.arrival).value)));
    } else if i.TokenFact? && c.awaitingVerdict {
      RouteMarks(pipe, c.(awaitingVerdict := false));
    }
  }

  lemma RouteMarks(pipe: Pipeline, c: Context)
    requires c.request.Some? && c.validated.Some?
    ensures var out := RouteIt(pipe, c);
      out.fx != [] && out.fx[0].Respond? ==> out.next.answered && out.fx[0].response.status == 480
  {
    SoleSort(PredeterminedTarget(c.request.value));
    ForkMarks(pipe, c.(queued := [PredeterminedTarget(c.request.value)]));
  }

  /** An answered or finished context stays so. */
  lemma MarkStays(pipe: Pipeline, w: World, i: Input)
    requires Lawful(pipe) && Keeps(pipe, w) && Admissible(w, i) && (w.ctx.answered || w.ctx.finished)
    ensures Next(pipe, w, i).ctx.answered || Next(pipe, w, i).ctx.finished
  {
    var c := w.ctx;
    if !c.finished && IsBranchEvent(i) && c.request.Some? {
      HandlesEvent(pipe, c, i);
      var e := Classify(c, i);
      if e.Final? {
        FinalFacts(pipe, c, e.branch, e.response);
      } else if e.Accepted? || e.Rejected? {
        QuietEvent(pipe, c, e);
      } else {
        EarlyNotAnswered(pipe, c, e);
      }
    } else if !c.finished && !IsBranchEvent(i) {
      assert OnInput(pipe, c, i) == Out(c, []);
    }
  }

  /** After how many inputs the context is answered or over. */
  function Marked(pipe: Pipeline, inputs: seq<Input>): nat -> bool {
    (n: nat) => n <= |inputs| && (Run(pipe, inputs[..n]).ctx.answered || Run(pipe, inputs[..n]).ctx.finished)
  }

  lemma MarkAt(pipe: Pipeline, inputs: seq<Input>, k: nat)
    requires Lawful(pipe) && WellFormed(pipe, inputs) && k < |inputs| && SendsFinal(EffectsAt(pipe, inputs, k))
    ensures Marked(pipe, inputs)(k + 1)
  {
    RunKeeps(pipe, inputs, k);
    PrefixRun(pipe, inputs, k);
    SendMarks(pipe, Run(pipe, inputs[..k]), inputs[k]);
  }

  lemma MarkStaysAt(pipe: Pipeline, inputs: seq<Input>, k: nat)
    requires Lawful(pipe) && WellFormed(pipe, inputs) && k < |inputs| && Marked(pipe, inputs)(k)
    ensures Marked(pipe, inputs)(k + 1)
  {
    RunKeeps(pipe, inputs, k);
    PrefixRun(pipe, inputs, k);
    MarkStays(pipe, Run(pipe, inputs[..k]), inputs[k]);
  }

  lemma MarkedStays(pipe: Pipeline, inputs: seq<Input>, j: nat, k: nat)
    requires Lawful(pipe) && WellFormed(pipe, inputs) && j <= k <= |inputs| && Marked(pipe, inputs)(j)
    ensures Marked(pipe, inputs)(k)
  {
    forall n | j <= n < k && Marked(pipe, inputs)(n) ensures Marked(pipe, inputs)(n + 1) {
      MarkStaysAt(pipe, inputs, n);
    }
    Onwards(Marked(pipe, inputs), j, k);
  }

  lemma {:induction false} FinishedStays(pipe: Pipeline, inputs: seq<Input>, k: nat, m: nat)
    requires WellFormed(pipe, inputs) && k <= m <= |inputs| && Run(pipe, inputs[..k]).ctx.finished
    ensures Run(pipe, inputs[..m]).ctx.finished
    decreases m
  {
    if k < m {
      var n: nat := m - 1;
      FinishedStays(pipe, inputs, k, n);
      FinishedAt(pipe, inputs, n);
    }
  }

  lemma {:induction false} FinishedAt(pipe: Pipeline, inputs: seq<Input>, k: nat)
    requires WellFormed(pipe, inputs) && k < |inputs| && Run(pipe, inputs[..k]).ctx.finished
    ensures Run(pipe, inputs[..k + 1]).ctx.finished && EffectsAt(pipe, inputs, k) == []
  {
    PrefixRun(pipe, inputs, k);
  }

  /** A selecting step answers, terminates, and leaves the context finished. */
  lemma SelectionFinishes(pipe: Pipeline, w: World, i: Input)
    requires Lawful(pipe) && Keeps(pipe, w) && IsBranchEvent(i) && w.ctx.request.Some? && Classify(w.ctx, i).Final?
    requires !w.ctx.answered && OnInput(pipe, w.ctx, i).next.answered
    ensures var out := OnInput(pipe, w.ctx, i);
      out.next.finished && |out.fx| == 2 && out.fx[0].Respond? && out.fx[1] == Terminate
  {
    var e := Classify(w.ctx, i);
    HandlesEvent(pipe, w.ctx, i);
    ClassifiedFinal(w.ctx, i);
    EndOfRun(pipe, w.ctx, e);
    EndFinishes(pipe, w.ctx, e);
  }

  lemma EndFinishes(pipe: Pipeline, c: Context, e: Event)
    requires Lawful(pipe) && c.request.Some? && c.validated.Some? && e.Final? && Knows(c.branches, e.branch)
    requires !c.answered && !c.finished && Handle(pipe, c, e).next.answered
    ensures Handle(pipe, c, e).next.finished
  {
    FinalFacts(pipe, c, e.branch, e.response);
    if ForksNext(c, e) {
      ForkShape(pipe, Recorded(c, e.branch, e.response));
    }
  }

  lemma {:induction false} SelectedAt(pipe: Pipeline, inputs: seq<Input>, k: nat)
    requires Lawful(pipe) && WellFormed(pipe, inputs) && k < |inputs| && SelectsAt(pipe, inputs)(k)
    ensures var fx := EffectsAt(pipe, inputs, k); |fx| == 2 && fx[0].Respond? && fx[1] == Terminate
    ensures Run(pipe, inputs[..k + 1]).ctx.finished
  {
    RunKeeps(pipe, inputs, k);
    PrefixRun(pipe, inputs, k);
    SelectionFinishes(pipe, Run(pipe, inputs[..k]), inputs[k]);
  }

  lemma NotMarkedBefore(pipe: Pipeline, inputs: seq<Input>, j: nat, k: nat)
    requires Lawful(pipe) && WellFormed(pipe, inputs) && j <= k < |inputs| && SelectsAt(pipe, inputs)(k)
    ensures !Marked(pipe, inputs)(j)
  {
    if Marked(pipe, inputs)(j) {
      MarkedStays(pipe, inputs, j, k);
    }
  }

  /** The selected final is sent only if no final went upstream before it. */
  lemma SelectedOnce(pipe: Pipeline, inputs: seq<Input>, j: nat, k: nat)
    requires Lawful(pipe) && WellFormed(pipe, inputs) && j < k < |inputs| && SelectsAt(pipe, inputs)(k)
    ensures !SendsFinal(EffectsAt(pipe, inputs, j))
  {
    NotMarkedBefore(pipe, inputs, j + 1, k);
    if SendsFinal(EffectsAt(pipe, inputs, j)) {
      MarkAt(pipe, inputs, j);
    }
  }

  /** `Terminate` follows the selected final, and nothing follows that in the whole run. */
  lemma SelectedLast(pipe: Pipeline, inputs: seq<Input>, k: nat, m: nat)
    requires Lawful(pipe) && WellFormed(pipe, inputs) && k < m < |inputs| && SelectsAt(pipe, inputs)(k)
    ensures var fx := EffectsAt(pipe, inputs, k); |fx| == 2 && fx[0].Respond? && fx[1] == Terminate
    ensures EffectsAt(pipe, inputs, m) == []
  {
    SelectedAt(pipe, inputs, k);
    FinishedStays(pipe, inputs, k + 1, m);
    FinishedAt(pipe, inputs, m);
  }

  // ------------------------------------------------------------------ acceptance, and 503

  /** A finished context has no live branch. */
  lemma {:induction false} FinishedIsSettled(pipe: Pipeline, inputs: seq<Input>, k: nat)
    requires Lawful(pipe) && WellFormed(pipe, inputs) && k <= |inputs| && Run(pipe, inputs[..k]).ctx.finished
    ensures !HasLive(Run(pipe, inputs[..k]).ctx.branches)
  {
    RunKeeps(pipe, inputs, k);
  }

  /** So a 2xx to an INVITE from any live branch goes upstream, however many finals came before it. */
  lemma {:induction false} AcceptanceAlwaysForwarded(pipe: Pipeline, inputs: seq<Input>, k: nat)
    requires Lawful(pipe) && WellFormed(pipe, inputs) && k < |inputs| && inputs[k].BranchResponse?
    requires var c := Run(pipe, inputs[..k]).ctx;
      c.request.Some? && c.request.value.verb.Invite? && IsLiveId(c.branches, inputs[k].branch)
    requires inputs[k].response.status / 100 == 2
    ensures var fx := EffectsAt(pipe, inputs, k); fx != [] && fx[0] == Respond(PopVia(inputs[k].response))
  {
    FinishedStaysOut(pipe, inputs, k);
    var c := Run(pipe, inputs[..k]).ctx;
    HandlesEvent(pipe, c, inputs[k]);
    assert Knows(c.branches, inputs[k].branch);
    AcceptFacts(pipe, c, inputs[k].branch, inputs[k].response);
  }

  lemma {:induction false} FinishedStaysOut(pipe: Pipeline, inputs: seq<Input>, k: nat)
    requires Lawful(pipe) && WellFormed(pipe, inputs) && k <= |inputs| && HasLive(Run(pipe, inputs[..k]).ctx.branches)
    ensures !Run(pipe, inputs[..k]).ctx.finished
  {
    RunKeeps(pipe, inputs, k);
  }

  lemma EventNever503(pipe: Pipeline, c: Context, e: Event)
    requires c.request.Some? && c.validated.Some? && (c.answered ==> c.queued == [])
    requires e.Early? ==> IsEarlyMedia(e.response)
    requires e.Accepted? ==> e.response.status / 100 == 2
    requires e.Rejected? ==> e.response.status / 100 == 6
    requires var fx := Handle(pipe, c, e).fx; fx != [] && fx[0].Respond?
    ensures Handle(pipe, c, e).fx[0].response.status != 503
  {
    match e {
      case Final(branch, response) =>
        FinalFacts(pipe, c, branch, response);
        ForkMarks(pipe, Recorded(c, branch, response));
        SelectedFinal(Recorded(c, branch, response).finals, c.request.value);
      case Accepted(branch, response) => AcceptFacts(pipe, c, branch, response);
      case Rejected(branch, response) => RejectFacts(pipe, c, branch, response);
      case Early(branch, response) => EarlyFacts(pipe, c, branch, response);
      case Withdrawn => WithdrawnFacts(pipe, c);
      case _ =>
    }
  }

  /** Over all runs a 503 goes upstream only as the answer to an unreachable location service. */
  lemma UnavailableOnlyWhenUnavailable(pipe: Pipeline, inputs: seq<Input>, k: nat, e: Effect)
    requires Lawful(pipe) && WellFormed(pipe, inputs) && k < |inputs|
    requires e in EffectsAt(pipe, inputs, k) && e.Respond? && e.response.status == 503
    ensures inputs[k].TargetsUnavailable?
  {
    StepAt(pipe, inputs, k);
    UnavailableStep(pipe, Run(pipe, inputs[..k]), inputs[k], e);
  }

  lemma UnavailableStep(pipe: Pipeline, w: World, i: Input, e: Effect)
    requires Lawful(pipe) && Keeps(pipe, w) && Admissible(w, i)
    requires e in OnInput(pipe, w.ctx, i).fx && e.Respond? && e.response.status == 503
    ensures i.TargetsUnavailable?
  {
    StepAnswersFirst(pipe, w, i);
    Only(OnInput(pipe, w.ctx, i).fx, e);
    if !IsBranchEvent(i) {
      DeliveryMarks(pipe, w, i);
    } else if w.ctx.request.Some? {
      HandlesEvent(pipe, w.ctx, i);
      ClassifiedFinal(w.ctx, i);
      EventNever503(pipe, w.ctx, Classify(w.ctx, i));
    }
  }
}
