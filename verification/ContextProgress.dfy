/** Progress: a context with its targets keeps waiting for some branch until a final has gone upstream. */
module ContextProgress {
  import opened Basics
  import opened Messages
  import opened Routing
  import opened ContextModel
  import opened ContextRuns
  import opened ContextFacts
  import opened ContextEvents
  import opened ContextInvariants
  import opened ContextTargets
  import opened ContextTrying
  import opened ContextBranches
  import opened ContextIds
  import opened ContextTheorems

  function LiveCount(bs: seq<Branch>): nat {
    if bs == [] then 0 else (if IsLive(bs[0].state) then 1 else 0) + LiveCount(bs[1..])
  }

  lemma {:induction false} CountLower(a: seq<Branch>, b: seq<Branch>)
    requires |a| == |b| && forall i :: 0 <= i < |a| && IsLive(b[i].state) ==> IsLive(a[i].state)
    ensures LiveCount(b) <= LiveCount(a)
    ensures (exists i :: 0 <= i < |a| && IsLive(a[i].state) && !IsLive(b[i].state)) ==> LiveCount(b) < LiveCount(a)
  {
    if a != [] {
      CountLower(a[1..], b[1..]);
      if exists i :: 0 <= i < |a| && IsLive(a[i].state) && !IsLive(b[i].state) {
        var i :| 0 <= i < |a| && IsLive(a[i].state) && !IsLive(b[i].state);
        assert i > 0 ==> a[1..][i - 1] == a[i] && b[1..][i - 1] == b[i];
      }
    }
  }

  predicate IsLiveId(bs: seq<Branch>, id: BranchId) {
    exists i :: 0 <= i < |bs| && bs[i].id == id && IsLive(bs[i].state)
  }

  /** The input concludes a branch that is live. */
  predicate Conclusion(c: Context, i: Input) {
    c.request.Some? && IsBranchEvent(i)
    && var e := Classify(c, i); (e.Final? || e.Accepted? || e.Rejected?) && IsLiveId(c.branches, e.branch)
  }

  /** Every conclusion of a live branch lowers (queued targets, live branches). */
  lemma ConclusionLowers(pipe: Pipeline, w: World, i: Input)
    requires Lawful(pipe) && Keeps(pipe, w) && Conclusion(w.ctx, i) && !w.ctx.finished
    requires Distinct(Next(pipe, w, i).ctx.branches)
    ensures var a, b := w.ctx, Next(pipe, w, i).ctx;
      |b.queued| < |a.queued| || (|b.queued| == |a.queued| && LiveCount(b.branches) < LiveCount(a.branches))
  {
    var c := w.ctx;
    var e := Classify(c, i);
    HandlesEvent(pipe, c, i);
    ClassifiedFinal(c, i);
    BranchesGrow(pipe, w, i);
    if e.Final? && ForksNext(c, e) {
      FinalFacts(pipe, c, e.branch, e.response);
      ForkFacts(pipe, Recorded(c, e.branch, e.response));
    } else {
      NoForkCopies(pipe, c, e);
      NoForkQueue(pipe, c, e);
      Pointwise(pipe, c, e);
      ConcludedGone(c.branches, Handle(pipe, c, e).next.branches, e);
    }
  }

  lemma NoForkQueue(pipe: Pipeline, c: Context, e: Event)
    requires c.request.Some? && (c.answered ==> c.queued == []) && !(e.Final? && ForksNext(c, e))
    ensures |Handle(pipe, c, e).next.queued| <= |c.queued|
  {
    if e.Final? {
      FinalFacts(pipe, c, e.branch, e.response);
    } else {
      QuietEvent(pipe, c, e);
    }
  }

  lemma {:induction false} ConcludedGone(a: seq<Branch>, b: seq<Branch>, e: Event)
    requires |a| == |b| && (forall i :: 0 <= i < |a| ==> b[i] == After(e, a[i]))
    requires (e.Final? || e.Accepted? || e.Rejected?) && IsLiveId(a, e.branch)
    ensures LiveCount(b) < LiveCount(a)
  {
    var i :| 0 <= i < |a| && a[i].id == e.branch && IsLive(a[i].state);
    assert !IsLive(b[i].state);
    CountLower(a, b);
  }

  // ------------------------------------------------------------------ concluding everything

  /** A final response among these effects. */
  ghost predicate SendsFinal(fx: seq<Effect>) {
    exists e :: e in fx && e.Respond? && e.response.status >= 200
  }

  /** A context becomes answered only by sending a final upstream. */
  lemma AnsweredBySending(pipe: Pipeline, w: World, i: Input)
    requires Lawful(pipe) && Keeps(pipe, w) && IsBranchEvent(i)
    requires !w.ctx.answered && OnInput(pipe, w.ctx, i).next.answered
    ensures SendsFinal(OnInput(pipe, w.ctx, i).fx)
  {
    var c := w.ctx;
    if c.request.Some? {
      HandlesEvent(pipe, c, i);
      ClassifiedFinal(c, i);
      EventAnswers(pipe, c, Classify(c, i));
      var fx := OnInput(pipe, c, i).fx;
      assert fx[0] in fx;
    }
  }

  lemma EventAnswers(pipe: Pipeline, c: Context, e: Event)
    requires c.request.Some? && c.validated.Some? && !c.answered && Handle(pipe, c, e).next.answered
    requires FinalsInv(c) && (e.Final? ==> e.response.status >= 200)
    requires e.Accepted? || e.Rejected? ==> e.response.status >= 200
    ensures var fx := Handle(pipe, c, e).fx; fx != [] && fx[0].Respond? && fx[0].response.status >= 200
  {
    match e {
      case Final(branch, response) => FinalAnswers(pipe, c, e);
      case Accepted(branch, response) => AcceptFacts(pipe, c, branch, response);
      case Rejected(branch, response) => RejectFacts(pipe, c, branch, response);
      case _ => EarlyNotAnswered(pipe, c, e);
    }
  }

  lemma FinalAnswers(pipe: Pipeline, c: Context, e: Event)
    requires c.request.Some? && c.validated.Some? && !c.answered && e.Final? && Handle(pipe, c, e).next.answered
    requires FinalsInv(c) && e.response.status >= 200
    ensures var fx := Handle(pipe, c, e).fx; fx != [] && fx[0].Respond? && fx[0].response.status >= 200
  {
    FinalFacts(pipe, c, e.branch, e.response);
    var mid := Recorded(c, e.branch, e.response);
    SelectedFinal(mid.finals, c.request.value);
    if ForksNext(c, e) {
      ForkAnswered(pipe, mid);
    }
  }

  lemma ForkAnswered(pipe: Pipeline, c: Context)
    requires c.request.Some? && c.validated.Some? && !c.answered && ForkNextGroup(pipe, c).next.answered
    ensures ForkNextGroup(pipe, c).fx != [] && ForkNextGroup(pipe, c).fx[0] == Respond(BuildResponse(c.request.value, 480))
  {
  }

  lemma EarlyNotAnswered(pipe: Pipeline, c: Context, e: Event)
    requires c.request.Some? && !e.Final? && !e.Accepted? && !e.Rejected?
    ensures Handle(pipe, c, e).next.answered == c.answered
  {
  }

  function RunFrom(pipe: Pipeline, w: World, inputs: seq<Input>): World
    decreases |inputs|
  {
    if inputs == [] then w else RunFrom(pipe, Next(pipe, w, inputs[0]), inputs[1..])
  }

  ghost predicate SendsFinalFrom(pipe: Pipeline, w: World, inputs: seq<Input>)
    decreases |inputs|
  {
    inputs != [] && (SendsFinal(OnInput(pipe, w.ctx, inputs[0]).fx) || SendsFinalFrom(pipe, Next(pipe, w, inputs[0]), inputs[1..]))
  }

  /** A world whose target list never leaves it idle, and whose branches cannot collide. */
  ghost predicate Ready(pipe: Pipeline, w: World) {
    && Keeps(pipe, w) && KeepsTrying(w)
    && NoCollision(StampOf(w.ctx), SortByQ(w.resolved.value), w.ctx.validated.value.maxBreadth)
    && IdealBranches(pipe, w.ctx.validated.value.cookieInput, PlanOf(w))
  }

  lemma ReadyStays(pipe: Pipeline, w: World, i: Input)
    requires Lawful(pipe) && Ready(pipe, w) && IsBranchEvent(i)
    ensures Ready(pipe, Next(pipe, w, i)) && Distinct(Next(pipe, w, i).ctx.branches)
  {
    KeepStep(pipe, w, i);
    BranchEventShape(pipe, w.ctx, i);
    var next := Next(pipe, w, i);
    assert PlanOf(next) == PlanOf(w) && StampOf(next.ctx) == StampOf(w.ctx);
    ReadyDistinct(pipe, next);
  }

  /**
   * Whoever picks the next conclusion, and however: following that choice for as long as some branch is live
   * comes to an end, with no branch live and a final response sent upstream.
   */
  lemma ConcludingAllAnswers(pipe: Pipeline, w: World, choose: World -> Input) returns (steps: seq<Input>)
    requires Lawful(pipe) && Ready(pipe, w)
    requires forall v: World :: v.ctx.request.Some? && !v.ctx.finished && HasLive(v.ctx.branches) ==> Conclusion(v.ctx, choose(v))
    ensures Follows(pipe, w, choose, steps)
    ensures RunFrom(pipe, w, steps).ctx.answered && !HasLive(RunFrom(pipe, w, steps).ctx.branches)
    ensures !w.ctx.answered ==> SendsFinalFrom(pipe, w, steps)
    decreases |w.ctx.queued|, LiveCount(w.ctx.branches)
  {
    if !HasLive(w.ctx.branches) {
      steps := [];
    } else {
      var i := choose(w);
      ReadyStays(pipe, w, i);
      ConclusionLowers(pipe, w, i);
      var later := ConcludingAllAnswers(pipe, Next(pipe, w, i), choose);
      steps := [i] + later;
      assert steps[1..] == later;
      if !w.ctx.answered && Next(pipe, w, i).ctx.answered {
        AnsweredBySending(pipe, w, i);
      }
    }
  }

  /** Every step is the one chosen where it is taken, and is taken while some branch is live. */
  ghost predicate Follows(pipe: Pipeline, w: World, choose: World -> Input, steps: seq<Input>)
    decreases |steps|
  {
    steps != [] ==>
      HasLive(w.ctx.branches) && steps[0] == choose(w) && Conclusion(w.ctx, steps[0]) && Follows(pipe, Next(pipe, w, steps[0]), choose, steps[1..])
  }

  // ------------------------------------------------------------------ every order, strays included

  /** How many conclusions a context can still take: its live branches and its queued targets. */
  function Potential(c: Context): nat { |c.queued| + LiveCount(c.branches) }

  lemma {:induction false} CountAppend(a: seq<Branch>, b: seq<Branch>)
    ensures LiveCount(a + b) == LiveCount(a) + LiveCount(b)
  {
    if a == [] {
      assert a + b == b;
    } else {
      CountAppend(a[1..], b);
      assert (a + b)[1..] == a[1..] + b;
    }
  }

  lemma {:induction false} CountBounds(bs: seq<Branch>)
    ensures LiveCount(bs) <= |bs| && (HasLive(bs) <==> LiveCount(bs) > 0)
  {
    if bs != [] {
      CountBounds(bs[1..]);
      assert forall i :: 0 < i < |bs| ==> bs[i] == bs[1..][i - 1];
      if HasLive(bs[1..]) {
        var i :| 0 <= i < |bs[1..]| && IsLive(bs[1..][i].state);
        assert IsLive(bs[i + 1].state);
      }
    }
  }

  lemma ForkPotential(pipe: Pipeline, c: Context)
    requires Lawful(pipe) && c.request.Some? && c.validated.Some? && c.queued != [] && !HasLive(c.branches)
    ensures Potential(ForkNextGroup(pipe, c).next) <= |c.queued|
  {
    ForkFacts(pipe, c);
    var after := ForkNextGroup(pipe, c).next.branches;
    var bs := after[|c.branches|..];
    var n := GroupSize(c.queued, c.validated.value.maxBreadth);
    KeepFrom(StampOf(c), c.queued[..n]);
    assert after == c.branches + bs && |bs| == |TargetsOf(bs)| <= n;
    CountAppend(c.branches, bs);
    CountBounds(c.branches);
    CountBounds(bs);
  }

  lemma EventLiveness(pipe: Pipeline, c: Context, e: Event, k: nat)
    requires Lawful(pipe) && c.request.Some? && c.validated.Some? && Distinct(c.branches) && (c.answered ==> c.queued == [])
    requires e.Stuck? ==> SawProvisional(c.branches, e.branch) == Some(true)
    requires k < |c.branches| && IsLive(After(e, c.branches[k]).state)
    ensures IsLive(c.branches[k].state)
  {
    if e.Stuck? {
      SawKnown(c.branches, e.branch);
    }
  }

  lemma EventPotential(pipe: Pipeline, c: Context, e: Event)
    requires Lawful(pipe) && c.request.Some? && c.validated.Some? && Distinct(c.branches) && (c.answered ==> c.queued == [])
    requires e.Stuck? ==> SawProvisional(c.branches, e.branch) == Some(true)
    ensures Potential(Handle(pipe, c, e).next) <= Potential(c)
  {
    if e.Final? && ForksNext(c, e) {
      FinalFacts(pipe, c, e.branch, e.response);
      ForkPotential(pipe, Recorded(c, e.branch, e.response));
    } else {
      NoForkCopies(pipe, c, e);
      NoForkQueue(pipe, c, e);
      Pointwise(pipe, c, e);
      var after := Handle(pipe, c, e).next.branches;
      forall k | 0 <= k < |after| && IsLive(after[k].state) ensures IsLive(c.branches[k].state) {
        EventLiveness(pipe, c, e, k);
      }
      CountLower(c.branches, after);
    }
  }

  /** No branch event raises the potential, and every conclusion of a live branch lowers it. */
  lemma PotentialFalls(pipe: Pipeline, w: World, i: Input)
    requires Lawful(pipe) && Ready(pipe, w) && IsBranchEvent(i)
    ensures Potential(Next(pipe, w, i).ctx) + (if Conclusion(w.ctx, i) then 1 else 0) <= Potential(w.ctx)
  {
    var c := w.ctx;
    if c.finished {
    } else {
      var e := Classify(c, i);
      ReadyDistinct(pipe, w);
      HandlesEvent(pipe, c, i);
      EventPotential(pipe, c, e);
      if Conclusion(c, i) {
        ConclusionPotential(pipe, w, i);
      }
    }
  }

  lemma ReadyDistinct(pipe: Pipeline, w: World)
    requires Ready(pipe, w)
    ensures Distinct(w.ctx.branches)
  {
    DistinctIffNoCollision(pipe, w);
  }

  lemma ConclusionPotential(pipe: Pipeline, w: World, i: Input)
    requires Lawful(pipe) && Ready(pipe, w) && !w.ctx.finished && Conclusion(w.ctx, i)
    ensures Potential(Next(pipe, w, i).ctx) < Potential(w.ctx)
  {
    var c := w.ctx;
    var e := Classify(c, i);
    ReadyStays(pipe, w, i);
    HandlesEvent(pipe, c, i);
    CountBounds(c.branches);
    if e.Final? && ForksNext(c, e) {
      FinalFacts(pipe, c, e.branch, e.response);
      ForkPotential(pipe, Recorded(c, e.branch, e.response));
      var k :| 0 <= k < |c.branches| && c.branches[k].id == e.branch && IsLive(c.branches[k].state);
    } else {
      NoForkQueue(pipe, c, e);
      ConclusionLowers(pipe, w, i);
      ReadyDistinct(pipe, w);
      EventPotential(pipe, c, e);
      NoForkCopies(pipe, c, e);
      Pointwise(pipe, c, e);
      ConcludedGone(c.branches, Handle(pipe, c, e).next.branches, e);
    }
  }

  /** How many of these inputs conclude a live branch. */
  function Conclusions(pipe: Pipeline, w: World, inputs: seq<Input>): nat
    decreases |inputs|
  {
    if inputs == [] then 0
    else (if Conclusion(w.ctx, inputs[0]) then 1 else 0) + Conclusions(pipe, Next(pipe, w, inputs[0]), inputs[1..])
  }

  /**
   * Whatever branch events come and in whatever order, strays included, no more conclusions are possible than
   * there are live branches and queued targets; and when none is live a final has been sent.
   */
  lemma {:induction false} ConclusionsBounded(pipe: Pipeline, w: World, inputs: seq<Input>)
    requires Lawful(pipe) && Ready(pipe, w) && forall k :: 0 <= k < |inputs| ==> IsBranchEvent(inputs[k])
    ensures var after := RunFrom(pipe, w, inputs);
      && Conclusions(pipe, w, inputs) + Potential(after.ctx) <= Potential(w.ctx)
      && (!HasLive(after.ctx.branches) ==> after.ctx.answered && (!w.ctx.answered ==> SendsFinalFrom(pipe, w, inputs)))
    decreases |inputs|
  {
    if inputs != [] {
      var i := inputs[0];
      ReadyStays(pipe, w, i);
      PotentialFalls(pipe, w, i);
      ConclusionsBounded(pipe, Next(pipe, w, i), inputs[1..]);
      if !w.ctx.answered && Next(pipe, w, i).ctx.answered {
        AnsweredBySending(pipe, w, i);
      }
    }
  }

  /** A context becomes answered while it determines targets only by answering. */
  lemma DeliveryAnswers(pipe: Pipeline, w: World, i: Input)
    requires PhaseInv(w) && Admissible(w, i) && !IsBranchEvent(i) && !w.ctx.answered && OnInput(pipe, w.ctx, i).next.answered
    ensures SendsFinal(OnInput(pipe, w.ctx, i).fx)
  {
    var c := w.ctx;
    var fx := OnInput(pipe, c, i).fx;
    if i.TargetsResolved? && i.targets != [] {
      ForkAnswered(pipe, c.(queued := SortByQ(i.targets)));
    } else if i.Upstream? {
      RouteAnswers(pipe, c.(request := Some(pipe.preprocess(i.arrival).0), validated := Some(pipe.validate(i.arrival).value)));
    } else if i.TokenFact? && i.verdict.Valid? {
      RouteAnswers(pipe, c.(awaitingVerdict := false));
    }
    assert fx[0] in fx;
  }

  lemma RouteAnswers(pipe: Pipeline, c: Context)
    requires c.request.Some? && c.validated.Some? && !c.answered && RouteIt(pipe, c).next.answered
    ensures var fx := RouteIt(pipe, c).fx; fx != [] && fx[0].Respond? && fx[0].response.status == 480
  {
    ForkAnswered(pipe, c.(queued := SortByQ([PredeterminedTarget(c.request.value)])));
  }

  ghost predicate FinalSentBy(pipe: Pipeline, inputs: seq<Input>, n: nat)
    requires n <= |inputs|
  {
    exists k :: 0 <= k < n && SendsFinal(EffectsAt(pipe, inputs, k))
  }

  ghost predicate AnsweredAsSent(pipe: Pipeline, inputs: seq<Input>, n: nat) {
    n <= |inputs| && (Run(pipe, inputs[..n]).ctx.answered ==> FinalSentBy(pipe, inputs, n))
  }

  lemma AnsweredAt(pipe: Pipeline, inputs: seq<Input>, n: nat)
    requires Lawful(pipe) && WellFormed(pipe, inputs) && n < |inputs| && AnsweredAsSent(pipe, inputs, n)
    ensures AnsweredAsSent(pipe, inputs, n + 1)
  {
    PrefixRun(pipe, inputs, n);
    RunKeeps(pipe, inputs, n);
    if Run(pipe, inputs[..n]).ctx.answered {
      var k :| 0 <= k < n && SendsFinal(EffectsAt(pipe, inputs, k));
      assert FinalSentBy(pipe, inputs, n + 1);
    } else if Run(pipe, inputs[..n + 1]).ctx.answered {
      AnsweringSends(pipe, Run(pipe, inputs[..n]), inputs[n]);
      assert SendsFinal(EffectsAt(pipe, inputs, n));
    }
  }

  /** An answered context is one that has sent a final upstream. */
  lemma {:induction false} AnsweredWasSent(pipe: Pipeline, inputs: seq<Input>)
    requires Lawful(pipe) && WellFormed(pipe, inputs) && Run(pipe, inputs).ctx.answered
    ensures FinalSentBy(pipe, inputs, |inputs|)
  {
    var p := (n: nat) => AnsweredAsSent(pipe, inputs, n);
    assert inputs[..0] == [] && inputs[..|inputs|] == inputs;
    forall n | 0 <= n < |inputs| && p(n) ensures p(n + 1) {
      AnsweredAt(pipe, inputs, n);
    }
    Onwards(p, 0, |inputs|);
  }

  lemma AnsweringSends(pipe: Pipeline, w: World, i: Input)
    requires Lawful(pipe) && Keeps(pipe, w) && Admissible(w, i) && !w.ctx.answered && Next(pipe, w, i).ctx.answered
    ensures SendsFinal(OnInput(pipe, w.ctx, i).fx)
  {
    if IsBranchEvent(i) {
      AnsweredBySending(pipe, w, i);
    } else {
      DeliveryAnswers(pipe, w, i);
    }
  }

  /**
   * In every well-formed run, once targets are delivered whose list never leaves a context idle, a context with
   * no live branch has sent a final response upstream.
   */
  lemma {:induction false} NoneLiveMeansAnswered(pipe: Pipeline, inputs: seq<Input>)
    requires Lawful(pipe) && WellFormed(pipe, inputs)
    requires KeepsTrying(Run(pipe, inputs)) && !HasLive(Run(pipe, inputs).ctx.branches)
    ensures FinalSentBy(pipe, inputs, |inputs|)
  {
    RunKeeps(pipe, inputs, |inputs|);
    assert inputs[..|inputs|] == inputs;
    AnsweredWasSent(pipe, inputs);
  }

  // ------------------------------------------------------------------ a CANCEL too early

  /** A CANCEL that arrives before the targets do is answered and forgotten: every continuation is the same without it. */
  lemma {:induction false} EarlyCancelForgotten(pipe: Pipeline, w: World, later: seq<Input>)
    requires Keeps(pipe, w) && w.started && w.resolved.None? && !w.ctx.finished
    ensures OnInput(pipe, w.ctx, UpstreamCancelled).fx == [AnswerCancel]
    ensures RunFrom(pipe, w, [UpstreamCancelled] + later) == RunFrom(pipe, w, later)
  {
    assert CancelEach([], []) == ([], []) && [AnswerCancel] + [] == [AnswerCancel];
    NoCopies([AnswerCancel]);
    NoCancels([AnswerCancel]);
    assert w.copies + [] == w.copies && w.cancels + [] == w.cancels;
    assert Next(pipe, w, UpstreamCancelled) == w;
    assert ([UpstreamCancelled] + later)[1..] == later;
  }

  /** So it does not stop the fork, whatever list is delivered: copies go out exactly if the first group holds one that builds. */
  lemma {:induction false} CancelBeforeTargetsForksAnyway(pipe: Pipeline, w: World, ts: seq<Target>)
    requires Lawful(pipe) && Keeps(pipe, w) && w.asked && !w.ctx.finished && ts != []
    ensures var cancelled := Next(pipe, w, UpstreamCancelled);
      var sorted := SortByQ(ts);
      && Admissible(cancelled, TargetsResolved(ts)) && w.ctx.validated.Some?
      && (CopiesIn(OnInput(pipe, cancelled.ctx, TargetsResolved(ts)).fx) != [] <==>
            SomeBuilds(StampOf(w.ctx), sorted[..GroupSize(sorted, w.ctx.validated.value.maxBreadth)]))
  {
    EarlyCancelForgotten(pipe, w, []);
    assert RunFrom(pipe, w, [UpstreamCancelled] + []) == Next(pipe, w, UpstreamCancelled);
    SortIsStable(ts);
    assert |multiset(ts)| == |ts| && |multiset(SortByQ(ts))| == |SortByQ(ts)|;
    ForkSends(pipe, w.ctx.(queued := SortByQ(ts)));
  }

  /** A fork sends copies exactly if its group holds a target that builds. */
  lemma ForkSends(pipe: Pipeline, c: Context)
    requires Lawful(pipe) && c.request.Some? && c.validated.Some? && c.queued != []
    ensures CopiesIn(ForkNextGroup(pipe, c).fx) != [] <==>
      SomeBuilds(StampOf(c), c.queued[..GroupSize(c.queued, c.validated.value.maxBreadth)])
  {
    ForkFacts(pipe, c);
    KeepSome(StampOf(c), c.queued[..GroupSize(c.queued, c.validated.value.maxBreadth)]);
    var after := ForkNextGroup(pipe, c).next.branches;
    assert |after[|c.branches|..]| == |TargetsOf(after[|c.branches|..])|;
  }
}
