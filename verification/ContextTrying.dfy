/** When a context keeps trying: exactly which target lists never leave it idle. */
module ContextTrying {
  import opened Basics
  import opened Messages
  import opened Routing
  import opened ContextModel
  import opened ContextRuns
  import opened ContextFacts
  import opened ContextEvents
  import opened ContextInvariants
  import opened ContextTargets

  // ------------------------------------------------------------------ groups

  /** Some target of the list builds. */
  predicate SomeBuilds(stamp: Stamp, ts: seq<Target>) {
    exists t :: t in ts && Builds(stamp, t)
  }

  /** Every group the list is cut into holds a target that builds. */
  predicate GroupsBuild(stamp: Stamp, queue: seq<Target>, maxBreadth: u32)
    decreases |queue|
  {
    queue == []
    || (SomeBuilds(stamp, queue[..GroupSize(queue, maxBreadth)])
        && GroupsBuild(stamp, queue[GroupSize(queue, maxBreadth)..], maxBreadth))
  }

  /** The list is one group, which is answered if it fails, or no group of it fails. */
  predicate NeverIdle(stamp: Stamp, sorted: seq<Target>, maxBreadth: u32) {
    GroupSize(sorted, maxBreadth) == |sorted| || GroupsBuild(stamp, sorted, maxBreadth)
  }

  /** Targets were delivered whose list never leaves a context idle. */
  ghost predicate KeepsTrying(w: World) {
    w.resolved.Some? && w.ctx.validated.Some?
    && NeverIdle(StampOf(w.ctx), SortByQ(w.resolved.value), w.ctx.validated.value.maxBreadth)
  }

  lemma {:induction false} AllBuildGroups(stamp: Stamp, queue: seq<Target>, maxBreadth: u32)
    requires forall t :: t in queue ==> Builds(stamp, t)
    ensures GroupsBuild(stamp, queue, maxBreadth)
    decreases |queue|
  {
    if queue != [] {
      var g := GroupSize(queue, maxBreadth);
      assert queue[..g][0] in queue[..g];
      AllBuildGroups(stamp, queue[g..], maxBreadth);
    }
  }

  /** In particular a list whose copies all build does not. */
  lemma AllBuildKeepsTrying(w: World)
    requires AllBuild(w) && w.ctx.validated.Some?
    ensures KeepsTrying(w)
  {
    AllBuildGroups(StampOf(w.ctx), SortByQ(w.resolved.value), w.ctx.validated.value.maxBreadth);
  }

  // ------------------------------------------------------------------ one fork

  lemma {:induction false} KeepSome(stamp: Stamp, ts: seq<Target>)
    ensures Keep(stamp, ts) != [] <==> SomeBuilds(stamp, ts)
  {
    if ts != [] {
      KeepSome(stamp, ts[1..]);
      assert ts == [ts[0]] + ts[1..];
    }
  }

  /** A fork leaves a branch live exactly when its group holds a target that builds, or one was live before. */
  lemma ForkLives(pipe: Pipeline, c: Context)
    requires Lawful(pipe) && c.request.Some? && c.validated.Some? && c.queued != []
    ensures var group := c.queued[..GroupSize(c.queued, c.validated.value.maxBreadth)];
      HasLive(ForkNextGroup(pipe, c).next.branches) <==> HasLive(c.branches) || SomeBuilds(StampOf(c), group)
  {
    ForkFacts(pipe, c);
    var after := ForkNextGroup(pipe, c).next.branches;
    var bs := after[|c.branches|..];
    KeepSome(StampOf(c), c.queued[..GroupSize(c.queued, c.validated.value.maxBreadth)]);
    assert |bs| == |TargetsOf(bs)|;
    LiveSplit(c.branches, after);
  }

  lemma LiveSplit(a: seq<Branch>, b: seq<Branch>)
    requires a <= b && forall k :: 0 <= k < |b[|a|..]| ==> b[|a|..][k].state == Pending(false, false)
    ensures HasLive(b) <==> HasLive(a) || b[|a|..] != []
  {
    var bs := b[|a|..];
    if HasLive(a) {
      var i :| 0 <= i < |a| && IsLive(a[i].state);
      assert IsLive(b[i].state);
    }
    if bs != [] {
      assert b[|a|] == bs[0] && IsLive(b[|a|].state);
    }
    if HasLive(b) && bs == [] {
      assert a == b;
    }
  }

  // ------------------------------------------------------------------ every step

  /** Some branch is live, and every group still queued will yield one. */
  ghost predicate Tries(c: Context) {
    c.validated.Some? && HasLive(c.branches) && GroupsBuild(StampOf(c), c.queued, c.validated.value.maxBreadth)
  }

  /** Such a context, unless it has answered, is waiting for some branch. */
  ghost predicate TryingInv(w: World) {
    KeepsTrying(w) && !w.ctx.answered && !w.ctx.finished ==> Tries(w.ctx)
  }

  /** No branch that was live stops being live. */
  ghost predicate LiveStay(a: seq<Branch>, b: seq<Branch>) {
    |a| == |b| && forall i :: 0 <= i < |a| && IsLive(a[i].state) ==> IsLive(b[i].state)
  }

  lemma LiveEvent(pipe: Pipeline, c: Context, e: Event)
    requires c.request.Some? && !e.Final? && !e.Accepted? && !e.Rejected?
    ensures LiveStay(c.branches, Handle(pipe, c, e).next.branches)
  {
    match e {
      case Early(branch, response) => EarlyFacts(pipe, c, branch, response);
      case Withdrawn => WithdrawnFacts(pipe, c);
      case _ =>
    }
  }

  lemma LiveStays(a: seq<Branch>, b: seq<Branch>)
    requires LiveStay(a, b) && HasLive(a)
    ensures HasLive(b)
  {
    var i :| 0 <= i < |a| && IsLive(a[i].state);
    assert IsLive(b[i].state);
  }

  /** The next group is forked: unless that answers, the context still tries. */
  lemma ForkTries(pipe: Pipeline, c: Context)
    requires Lawful(pipe) && c.request.Some? && c.validated.Some? && c.queued != []
    requires NeverIdle(StampOf(c), c.queued, c.validated.value.maxBreadth)
    requires c.branches != [] ==> GroupsBuild(StampOf(c), c.queued, c.validated.value.maxBreadth)
    ensures var next := ForkNextGroup(pipe, c).next; next.answered || Tries(next)
  {
    ForkLives(pipe, c);
    ForkFacts(pipe, c);
    ForkShape(pipe, c);
    KeepSome(StampOf(c), c.queued[..GroupSize(c.queued, c.validated.value.maxBreadth)]);
    var after := ForkNextGroup(pipe, c).next.branches;
    assert |after[|c.branches|..]| == |TargetsOf(after[|c.branches|..])|;
  }

  lemma FinalTries(pipe: Pipeline, c: Context, e: Event)
    requires Lawful(pipe) && c.request.Some? && c.validated.Some? && (c.answered ==> c.queued == [])
    requires Tries(c) && e.Final? && Knows(c.branches, e.branch)
    ensures var next := Handle(pipe, c, e).next; next.answered || next.finished || Tries(next)
  {
    var mid := Recorded(c, e.branch, e.response);
    FinalFacts(pipe, c, e.branch, e.response);
    if !HasLive(mid.branches) && MayFork(mid) {
      ForkTries(pipe, mid);
    }
  }

  lemma QuietTries(pipe: Pipeline, c: Context, e: Event)
    requires c.request.Some? && Tries(c) && !e.Final?
    ensures var next := Handle(pipe, c, e).next; next.answered || next.finished || Tries(next)
  {
    QuietEvent(pipe, c, e);
    if !e.Accepted? && !e.Rejected? {
      LiveEvent(pipe, c, e);
      LiveStays(c.branches, Handle(pipe, c, e).next.branches);
    }
  }

  lemma AnsweredStays(pipe: Pipeline, c: Context, e: Event)
    requires c.request.Some? && c.validated.Some? && c.answered && c.queued == []
    ensures Handle(pipe, c, e).next.answered
  {
    if e.Final? {
      FinalFacts(pipe, c, e.branch, e.response);
    } else {
      StillAnswered(pipe, c, e);
    }
  }

  lemma StillAnswered(pipe: Pipeline, c: Context, e: Event)
    requires c.request.Some? && c.answered && !e.Final?
    ensures Handle(pipe, c, e).next.answered
  {
    if e.Accepted? || e.Rejected? {
      QuietEvent(pipe, c, e);
    }
  }

  lemma TryingStep(pipe: Pipeline, w: World, i: Input)
    requires Lawful(pipe) && PhaseInv(w) && EndInv(w) && TryingInv(w) && Admissible(w, i)
    ensures TryingInv(Next(pipe, w, i))
  {
    if w.ctx.finished {
    } else if w.resolved.None? {
      DeliveryTries(pipe, w, i);
    } else if IsBranchEvent(i) {
      EventTries(pipe, w, i);
    } else {
      assert OnInput(pipe, w.ctx, i) == Out(w.ctx, []);
    }
  }

  lemma EventTries(pipe: Pipeline, w: World, i: Input)
    requires Lawful(pipe) && PhaseInv(w) && EndInv(w) && TryingInv(w) && IsBranchEvent(i)
    requires w.resolved.Some? && !w.ctx.finished
    ensures TryingInv(Next(pipe, w, i))
  {
    var c := w.ctx;
    var e := Classify(c, i);
    HandlesEvent(pipe, c, i);
    ClassifiedFinal(c, i);
    BranchEventShape(pipe, c, i);
    if c.answered {
      AnsweredStays(pipe, c, e);
    } else if KeepsTrying(w) && e.Final? {
      FinalTries(pipe, c, e);
    } else if KeepsTrying(w) {
      QuietTries(pipe, c, e);
    }
  }

  // ------------------------------------------------------------------ delivery

  lemma DeliveryTries(pipe: Pipeline, w: World, i: Input)
    requires Lawful(pipe) && PhaseInv(w) && EndInv(w) && Admissible(w, i) && !w.ctx.finished && w.resolved.None?
    ensures TryingInv(Next(pipe, w, i))
  {
    var c := w.ctx;
    if IsBranchEvent(i) {
      NothingDelivered(pipe, w, i);
    } else if i.TargetsResolved? && i.targets != [] {
      SortIsStable(i.targets);
      assert |multiset(i.targets)| == |i.targets| && |multiset(SortByQ(i.targets))| == |SortByQ(i.targets)|;
      ForkedTries(pipe, c, SortByQ(i.targets));
    } else if i.Upstream? && pipe.validate(i.arrival).Ok? && pipe.preprocess(i.arrival).1.None? {
      RoutedTries(pipe, c.(request := Some(pipe.preprocess(i.arrival).0), validated := Some(pipe.validate(i.arrival).value)));
    } else if i.TokenFact? && c.awaitingVerdict && i.verdict.Valid? {
      RoutedTries(pipe, c.(awaitingVerdict := false));
    }
  }

  /** Before delivery no branch event delivers. */
  lemma NothingDelivered(pipe: Pipeline, w: World, i: Input)
    requires PhaseInv(w) && w.resolved.None? && IsBranchEvent(i)
    ensures Next(pipe, w, i).resolved.None?
  {
    if w.ctx.request.Some? {
      NoBranchNoEvent(pipe, w.ctx, i);
    }
  }

  lemma ForkedTries(pipe: Pipeline, c: Context, sorted: seq<Target>)
    requires Lawful(pipe) && c.request.Some? && c.validated.Some? && c.branches == [] && sorted != []
    requires !c.finished && !c.answered
    ensures var next := ForkNextGroup(pipe, c.(queued := sorted)).next;
      && SameRequest(c, next)
      && (NeverIdle(StampOf(c), sorted, c.validated.value.maxBreadth) ==> next.answered || Tries(next))
  {
    ForkShape(pipe, c.(queued := sorted));
    if NeverIdle(StampOf(c), sorted, c.validated.value.maxBreadth) {
      ForkTries(pipe, c.(queued := sorted));
    }
  }

  lemma RoutedTries(pipe: Pipeline, c: Context)
    requires Lawful(pipe) && c.request.Some? && c.validated.Some? && c.branches == [] && !c.finished && !c.answered
    ensures var next := RouteIt(pipe, c).next; next.answered || next.branches == [] || (Tries(next) && SameRequest(c, next))
  {
    var sole := [PredeterminedTarget(c.request.value)];
    SoleSort(sole[0]);
    SoleGroup(sole[0], c.validated.value.maxBreadth);
    ForkedTries(pipe, c, sole);
  }

  lemma SoleGroup(t: Target, maxBreadth: u32)
    ensures GroupSize([t], maxBreadth) == 1
  {
  }
}
