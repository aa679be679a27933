/** Contexts left idle: nothing live, nothing answered, and nobody who will answer. */
module ContextIdle {
  import opened Basics
  import opened Messages
  import opened ContextModel
  import opened ContextRuns
  import opened ContextFacts
  import opened ContextEvents
  import opened ContextTargets
  import opened ContextTrying
  import opened ContextTheorems
  import opened ContextProgress

  /** The targets were delivered, nothing is live, and no final has gone upstream. */
  ghost predicate Idle(w: World) {
    w.resolved.Some? && !HasLive(w.ctx.branches) && !w.ctx.answered && !w.ctx.finished
  }

  /** A fork leaves the context idle exactly when its whole group fails to build and it was not the only one. */
  lemma IdleIffGroupFails(pipe: Pipeline, c: Context)
    requires Lawful(pipe) && c.request.Some? && c.validated.Some? && MayFork(c) && !HasLive(c.branches)
    ensures var group := c.queued[..GroupSize(c.queued, c.validated.value.maxBreadth)];
      var next := ForkNextGroup(pipe, c).next;
      !HasLive(next.branches) && !next.finished <==>
        !SomeBuilds(StampOf(c), group) && (c.branches != [] || |group| < |c.queued|)
  {
    ForkLives(pipe, c);
    ForkFacts(pipe, c);
    KeepSome(StampOf(c), c.queued[..GroupSize(c.queued, c.validated.value.maxBreadth)]);
    var after := ForkNextGroup(pipe, c).next.branches;
    assert |after[|c.branches|..]| == |TargetsOf(after[|c.branches|..])|;
  }

  // ------------------------------------------------------------------ how long it lasts

  /** An idle context that never had a branch stays so: no branch event changes anything but a CANCEL, which drops the queue. */
  lemma IdleForGood(pipe: Pipeline, c: Context, i: Input)
    requires c.request.Some? && c.branches == [] && !c.finished && IsBranchEvent(i)
    ensures OnInput(pipe, c, i) ==
      if i.UpstreamCancelled? then Out(c.(queued := []), [AnswerCancel]) else Out(c, [])
  {
    assert CancelEach([], []) == ([], []) && [AnswerCancel] + [] == [AnswerCancel];
  }

  /** So whatever comes, the caller is never answered and what is queued is never tried. */
  lemma {:induction false} NeverAnswered(pipe: Pipeline, w: World, inputs: seq<Input>)
    requires Lawful(pipe) && Keeps(pipe, w) && Idle(w) && w.ctx.branches == []
    requires forall k :: 0 <= k < |inputs| ==> IsBranchEvent(inputs[k])
    ensures var after := RunFrom(pipe, w, inputs);
      Idle(after) && after.ctx.branches == [] && after.copies == w.copies && !SendsFinalFrom(pipe, w, inputs)
    decreases |inputs|
  {
    if inputs != [] {
      IdleStep(pipe, w, inputs[0]);
      NeverAnswered(pipe, Next(pipe, w, inputs[0]), inputs[1..]);
    }
  }

  lemma IdleStep(pipe: Pipeline, w: World, i: Input)
    requires Lawful(pipe) && Keeps(pipe, w) && Idle(w) && w.ctx.branches == [] && IsBranchEvent(i)
    ensures var next := Next(pipe, w, i);
      && Keeps(pipe, next) && Idle(next) && next.ctx.branches == [] && next.copies == w.copies
      && !SendsFinal(OnInput(pipe, w.ctx, i).fx)
  {
    KeepStep(pipe, w, i);
    IdleForGood(pipe, w.ctx, i);
    NoCopies(OnInput(pipe, w.ctx, i).fx);
    assert w.copies + [] == w.copies;
  }

  /** An idle context that had branches is woken by one more event of any of them: it forks on, or it answers. */
  lemma IdleWakes(pipe: Pipeline, c: Context, id: BranchId)
    requires c.request.Some? && !HasLive(c.branches) && !c.answered && !c.finished && Knows(c.branches, id)
    ensures var mid := Recorded(c, id, BuildResponse(c.request.value, 503));
      OnInput(pipe, c, BranchTransportError(id)) ==
        if MayFork(c) then ForkNextGroup(pipe, mid)
        else Out(mid.(answered := true, finished := true), [Respond(Selected(mid.finals, c.request.value)), Terminate])
  {
    var mid := Recorded(c, id, BuildResponse(c.request.value, 503));
    HandlesEvent(pipe, c, BranchTransportError(id));
    FinalFacts(pipe, c, id, BuildResponse(c.request.value, 503));
    forall k | 0 <= k < |mid.branches| ensures !IsLive(mid.branches[k].state) {
      assert !IsLive(c.branches[k].state);
    }
  }

  // ------------------------------------------------------------------ exactly which lists

  /** The worlds these inputs, if well-formed, lead to: one. */
  ghost function LeadsTo(pipe: Pipeline, inputs: seq<Input>): World -> bool {
    (w: World) => WellFormed(pipe, inputs) && Run(pipe, inputs) == w
  }

  lemma OneOn(pipe: Pipeline, inputs: seq<Input>, w: World, i: Input)
    requires LeadsTo(pipe, inputs)(w) && Admissible(w, i)
    ensures LeadsTo(pipe, inputs + [i])(Next(pipe, w, i))
  {
    RunSnoc(pipe, inputs, i);
  }

  /** Branch events carry a run on. */
  lemma {:induction false} RunOn(pipe: Pipeline, inputs: seq<Input>, w: World, more: seq<Input>)
    requires LeadsTo(pipe, inputs)(w) && forall k :: 0 <= k < |more| ==> IsBranchEvent(more[k])
    ensures LeadsTo(pipe, inputs + more)(RunFrom(pipe, w, more))
    decreases |more|
  {
    if more == [] {
      assert inputs + more == inputs;
    } else {
      OneOn(pipe, inputs, w, more[0]);
      RunOn(pipe, inputs + [more[0]], Next(pipe, w, more[0]), more[1..]);
      FirstThenRest(pipe, w, more);
      Regrouped(inputs, more);
    }
  }

  lemma {:induction false} FirstThenRest(pipe: Pipeline, w: World, more: seq<Input>)
    requires more != []
    ensures RunFrom(pipe, w, more) == RunFrom(pipe, Next(pipe, w, more[0]), more[1..])
  {
  }

  /** A branch that fails leaves fewer live, or has the next group forked. */
  lemma FailOne(pipe: Pipeline, c: Context, k: nat)
    requires Lawful(pipe) && c.request.Some? && c.validated.Some? && !c.answered && !c.finished
    requires k < |c.branches| && IsLive(c.branches[k].state)
    ensures var out := OnInput(pipe, c, BranchTransportError(c.branches[k].id));
      var mid := Recorded(c, c.branches[k].id, BuildResponse(c.request.value, 503));
      && LiveCount(mid.branches) < LiveCount(c.branches) && mid.branches != []
      && (HasLive(mid.branches) ==> out == Out(mid, []))
      && (!HasLive(mid.branches) && c.queued != [] ==> out == ForkNextGroup(pipe, mid))
  {
    var id := c.branches[k].id;
    var e := Final(id, BuildResponse(c.request.value, 503));
    assert Knows(c.branches, id);
    HandlesEvent(pipe, c, BranchTransportError(id));
    FinalFacts(pipe, c, id, e.response);
    ConcludedGone(c.branches, Recorded(c, id, e.response).branches, e);
  }

  /** What failing one branch comes to when some group still queued fails as a whole. */
  lemma FailStep(pipe: Pipeline, w: World, k: nat)
    requires Lawful(pipe) && Keeps(pipe, w) && w.resolved.Some? && w.ctx.validated.Some? && !w.ctx.answered && !w.ctx.finished
    requires k < |w.ctx.branches| && IsLive(w.ctx.branches[k].state)
    requires !GroupsBuild(StampOf(w.ctx), w.ctx.queued, w.ctx.validated.value.maxBreadth)
    ensures var next := Next(pipe, w, BranchTransportError(w.ctx.branches[k].id));
      && Keeps(pipe, next) && next.resolved.Some? && next.ctx.validated.Some? && !next.ctx.answered && !next.ctx.finished
      && (HasLive(next.ctx.branches) ==>
            && !GroupsBuild(StampOf(next.ctx), next.ctx.queued, next.ctx.validated.value.maxBreadth)
            && (|next.ctx.queued| < |w.ctx.queued|
                || (|next.ctx.queued| == |w.ctx.queued| && LiveCount(next.ctx.branches) < LiveCount(w.ctx.branches))))
  {
    var c := w.ctx;
    var i := BranchTransportError(c.branches[k].id);
    var mid := Recorded(c, i.branch, BuildResponse(c.request.value, 503));
    KeepStep(pipe, w, i);
    FailOne(pipe, c, k);
    if !HasLive(mid.branches) {
      ForkFacts(pipe, mid);
      ForkLives(pipe, mid);
    }
  }

  /** Failing one live branch after another reaches the group that fails as a whole. */
  lemma ToIdle(pipe: Pipeline, w: World) returns (steps: seq<Input>)
    requires Lawful(pipe) && Keeps(pipe, w) && w.resolved.Some? && w.ctx.validated.Some? && !w.ctx.answered && !w.ctx.finished
    requires HasLive(w.ctx.branches) ==> !GroupsBuild(StampOf(w.ctx), w.ctx.queued, w.ctx.validated.value.maxBreadth)
    ensures forall k :: 0 <= k < |steps| ==> IsBranchEvent(steps[k])
    ensures Idle(RunFrom(pipe, w, steps))
    decreases |w.ctx.queued|, LiveCount(w.ctx.branches)
  {
    if !HasLive(w.ctx.branches) {
      return [];
    }
    var k :| 0 <= k < |w.ctx.branches| && IsLive(w.ctx.branches[k].state);
    var i := BranchTransportError(w.ctx.branches[k].id);
    FailStep(pipe, w, k);
    if HasLive(Next(pipe, w, i).ctx.branches) {
      var later := ToIdle(pipe, Next(pipe, w, i));
      steps := [i] + later;
      assert steps[1..] == later;
    } else {
      steps := [i];
      assert steps[1..] == [] && RunFrom(pipe, w, steps) == RunFrom(pipe, Next(pipe, w, i), []);
    }
  }

  /** Delivery of a list that can idle: either it idles at once, or some queued group fails as a whole. */
  lemma {:induction false} DeliveredIdle(pipe: Pipeline, w: World, ts: seq<Target>)
    requires Lawful(pipe) && Keeps(pipe, w) && w.asked && !w.ctx.finished && ts != [] && w.ctx.validated.Some?
    requires !NeverIdle(StampOf(w.ctx), SortByQ(ts), w.ctx.validated.value.maxBreadth)
    ensures var next := Next(pipe, w, TargetsResolved(ts));
      && Keeps(pipe, next) && next.resolved == Some(ts) && next.ctx.validated.Some? && !next.ctx.answered && !next.ctx.finished
      && (HasLive(next.ctx.branches) ==> !GroupsBuild(StampOf(next.ctx), next.ctx.queued, next.ctx.validated.value.maxBreadth))
  {
    var c := w.ctx.(queued := SortByQ(ts));
    SortIsStable(ts);
    assert |multiset(ts)| == |ts| && |multiset(SortByQ(ts))| == |SortByQ(ts)|;
    KeepStep(pipe, w, TargetsResolved(ts));
    ForkFacts(pipe, c);
    ForkLives(pipe, c);
    ForkShape(pipe, c);
  }

  /** What stays fixed once the targets are delivered. */
  lemma {:induction false} SameList(pipe: Pipeline, w: World, steps: seq<Input>)
    requires Lawful(pipe) && Keeps(pipe, w) && w.resolved.Some? && forall k :: 0 <= k < |steps| ==> IsBranchEvent(steps[k])
    ensures var after := RunFrom(pipe, w, steps);
      && Keeps(pipe, after) && after.resolved == w.resolved && after.ctx.validated == w.ctx.validated
      && StampOf(after.ctx) == StampOf(w.ctx)
    decreases |steps|
  {
    if steps != [] {
      KeepStep(pipe, w, steps[0]);
      BranchEventShape(pipe, w.ctx, steps[0]);
      SameList(pipe, Next(pipe, w, steps[0]), steps[1..]);
    }
  }

  /** These branch events after delivery of `ts` leave the context idle. */
  ghost predicate Idles(pipe: Pipeline, inputs: seq<Input>, ts: seq<Target>, steps: seq<Input>) {
    && (forall k :: 0 <= k < |steps| ==> IsBranchEvent(steps[k]))
    && WellFormed(pipe, inputs + [TargetsResolved(ts)] + steps)
    && Idle(Run(pipe, inputs + [TargetsResolved(ts)] + steps))
  }

  /**
   * Exactly which target lists can leave a context idle: those of several groups of which one fails as a whole.
   * For every other list, no live branch means that the caller was answered.
   */
  lemma {:induction false} IdleExactly(pipe: Pipeline, inputs: seq<Input>, ts: seq<Target>)
    requires Lawful(pipe) && WellFormed(pipe, inputs) && ts != []
    requires Run(pipe, inputs).asked && !Run(pipe, inputs).ctx.finished && Run(pipe, inputs).ctx.validated.Some?
    ensures var c := Run(pipe, inputs).ctx;
      (exists steps :: Idles(pipe, inputs, ts, steps)) <==> !NeverIdle(StampOf(c), SortByQ(ts), c.validated.value.maxBreadth)
  {
    var w := Run(pipe, inputs);
    RunKeeps(pipe, inputs, |inputs|);
    assert inputs[..|inputs|] == inputs;
    assert LeadsTo(pipe, inputs)(w);
    if NeverIdle(StampOf(w.ctx), SortByQ(ts), w.ctx.validated.value.maxBreadth) {
      forall steps ensures !Idles(pipe, inputs, ts, steps) {
        NeverIdles(pipe, inputs, w, ts, steps);
      }
    } else {
      var steps := SomeIdles(pipe, inputs, w, ts);
    }
  }

  lemma SomeIdles(pipe: Pipeline, inputs: seq<Input>, w: World, ts: seq<Target>) returns (steps: seq<Input>)
    requires Lawful(pipe) && LeadsTo(pipe, inputs)(w) && Keeps(pipe, w) && ts != []
    requires w.asked && !w.ctx.finished && w.ctx.validated.Some?
    requires !NeverIdle(StampOf(w.ctx), SortByQ(ts), w.ctx.validated.value.maxBreadth)
    ensures Idles(pipe, inputs, ts, steps)
  {
    var next := Next(pipe, w, TargetsResolved(ts));
    DeliveredIdle(pipe, w, ts);
    steps := ToIdle(pipe, next);
    OneOn(pipe, inputs, w, TargetsResolved(ts));
    RunOn(pipe, inputs + [TargetsResolved(ts)], next, steps);
  }

  lemma {:induction false} NeverIdles(pipe: Pipeline, inputs: seq<Input>, w: World, ts: seq<Target>, steps: seq<Input>)
    requires Lawful(pipe) && LeadsTo(pipe, inputs)(w) && Keeps(pipe, w) && ts != []
    requires w.asked && !w.ctx.finished && w.ctx.validated.Some?
    requires NeverIdle(StampOf(w.ctx), SortByQ(ts), w.ctx.validated.value.maxBreadth)
    ensures !Idles(pipe, inputs, ts, steps)
  {
    if Idles(pipe, inputs, ts, steps) {
      var next := Next(pipe, w, TargetsResolved(ts));
      OneOn(pipe, inputs, w, TargetsResolved(ts));
      RunOn(pipe, inputs + [TargetsResolved(ts)], next, steps);
      DeliveredList(pipe, w, ts);
      SameList(pipe, next, steps);
    }
  }

  lemma DeliveredList(pipe: Pipeline, w: World, ts: seq<Target>)
    requires Lawful(pipe) && Keeps(pipe, w) && w.asked && !w.ctx.finished && ts != []
    ensures var next := Next(pipe, w, TargetsResolved(ts));
      Keeps(pipe, next) && next.resolved == Some(ts) && next.ctx.validated == w.ctx.validated && StampOf(next.ctx) == StampOf(w.ctx)
  {
    KeepStep(pipe, w, TargetsResolved(ts));
    ForkShape(pipe, w.ctx.(queued := SortByQ(ts)));
  }
}
