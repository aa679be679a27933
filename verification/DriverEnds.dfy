/** How a served request ends: once the stream of every copy that went out has ended, nothing is owed any more. */
module DriverEnds {
  import opened Basics
  import opened Messages
  import opened ContextModel
  import opened ContextRuns
  import opened ContextFacts
  import opened ContextEvents
  import opened ContextTrying
  import opened ContextBranches
  import opened ContextTheorems
  import opened ContextProgress
  import opened ContextInvariants
  import opened Driver

  // ------------------------------------------------------------------ no branch comes back

  /** The branches keep their places, and as long as they are distinct none of them comes back to life. */
  ghost predicate Advances(a: seq<Branch>, b: seq<Branch>) {
    && |a| <= |b| && (forall k :: 0 <= k < |a| ==> a[k].id == b[k].id)
    && (Distinct(b) ==> forall k :: 0 <= k < |a| && IsLive(b[k].state) ==> IsLive(a[k].state))
  }

  lemma AdvancesOn(a: seq<Branch>, b: seq<Branch>, c: seq<Branch>)
    requires Advances(a, b) && Advances(b, c)
    ensures Advances(a, c)
  {
  }

  lemma EventAdvances(pipe: Pipeline, c: Context, e: Event)
    requires Lawful(pipe) && c.request.Some? && c.validated.Some? && (c.answered ==> c.queued == [])
    requires e.Stuck? ==> SawProvisional(c.branches, e.branch) == Some(true)
    ensures Advances(c.branches, Handle(pipe, c, e).next.branches)
  {
    var after := Handle(pipe, c, e).next.branches;
    EventPlaces(pipe, c, e);
    if Distinct(after) {
      DistinctBefore(e, c.branches, after);
      EventExtends(pipe, c, e);
      forall k | 0 <= k < |c.branches| && IsLive(after[k].state) ensures IsLive(c.branches[k].state) {
        EventLiveness(pipe, c, e, k);
      }
    }
  }

  lemma StepAdvances(pipe: Pipeline, w: World, i: Input)
    requires Lawful(pipe) && Keeps(pipe, w) && Admissible(w, i)
    ensures Advances(w.ctx.branches, Next(pipe, w, i).ctx.branches)
  {
    var c := w.ctx;
    if IsBranchEvent(i) && c.request.Some? && !c.finished {
      HandlesEvent(pipe, c, i);
      ClassifiedFinal(c, i);
      EventAdvances(pipe, c, Classify(c, i));
    } else if c.finished || w.resolved.Some? || IsBranchEvent(i) {
      assert OnInput(pipe, c, i).next.branches == c.branches;
    }
  }

  lemma {:induction false} PerformAdvances(pipe: Pipeline, env: Surroundings, w: World, fx: seq<Effect>, sent: seq<BranchId>)
    requires Lawful(pipe) && Keeps(pipe, w) && Fits(w, fx)
    ensures Advances(w.ctx.branches, Perform(pipe, env, w, fx, sent).0.ctx.branches)
    decreases Rank(w), |w.ctx.queued|, Feeding(fx), |fx|
  {
    if fx != [] {
      match Feedback(env, fx[0]) {
        case None =>
          PerformAdvances(pipe, env, w, fx[1..], if fx[0].SendCopy? then sent + [fx[0].branch] else sent);
        case Some(i) =>
          FeedbackStep(pipe, env, w, fx[0]);
          StepAdvances(pipe, w, i);
          var next, more := Next(pipe, w, i), OnInput(pipe, w.ctx, i).fx;
          PerformAdvances(pipe, env, next, more, sent);
          var inner := Perform(pipe, env, next, more, sent);
          PerformAdvances(pipe, env, inner.0, fx[1..], inner.1);
          AdvancesOn(w.ctx.branches, next.ctx.branches, inner.0.ctx.branches);
          AdvancesOn(w.ctx.branches, inner.0.ctx.branches, Perform(pipe, env, inner.0, fx[1..], inner.1).0.ctx.branches);
      }
    }
  }

  lemma {:induction false} ListenAdvances(pipe: Pipeline, env: Surroundings, w: World, sent: seq<BranchId>, events: seq<Input>)
    requires Lawful(pipe) && Keeps(pipe, w) && forall k :: 0 <= k < |events| ==> FromBranch(events[k])
    ensures Advances(w.ctx.branches, Listen(pipe, env, w, sent, events).0.ctx.branches)
    decreases |events|
  {
    if events != [] && !w.ctx.finished {
      var next, fx := Next(pipe, w, events[0]), OnInput(pipe, w.ctx, events[0]).fx;
      EventFits(pipe, w, events[0]);
      StepAdvances(pipe, w, events[0]);
      PerformAdvances(pipe, env, next, fx, sent);
      var r := Perform(pipe, env, next, fx, sent);
      ListenAdvances(pipe, env, r.0, r.1, events[1..]);
      AdvancesOn(w.ctx.branches, next.ctx.branches, r.0.ctx.branches);
      AdvancesOn(w.ctx.branches, r.0.ctx.branches, Listen(pipe, env, r.0, r.1, events[1..]).0.ctx.branches);
    }
  }

  // ------------------------------------------------------------------ the ends of streams

  /** The branches whose stream was reported as broken or ended while the context was listening. */
  function Ended(pipe: Pipeline, env: Surroundings, w: World, sent: seq<BranchId>, events: seq<Input>): set<BranchId>
    requires Lawful(pipe) && Keeps(pipe, w) && forall k :: 0 <= k < |events| ==> FromBranch(events[k])
    decreases |events|
  {
    if events == [] || w.ctx.finished then {}
    else
      EventFits(pipe, w, events[0]);
      var r := Perform(pipe, env, Next(pipe, w, events[0]), OnInput(pipe, w.ctx, events[0]).fx, sent);
      (if events[0].BranchTransportError? && Knows(w.ctx.branches, events[0].branch) then {events[0].branch} else {})
      + Ended(pipe, env, r.0, r.1, events[1..])
  }

  /** The end of a stream concludes its branch. */
  lemma EndConcludes(pipe: Pipeline, w: World, id: BranchId) returns (j: nat)
    requires Lawful(pipe) && Keeps(pipe, w) && !w.ctx.finished && Knows(w.ctx.branches, id)
    ensures var after := Next(pipe, w, BranchTransportError(id)).ctx.branches;
      j < |after| && after[j].id == id && !IsLive(after[j].state)
  {
    var c := w.ctx;
    var i := BranchTransportError(id);
    j :| 0 <= j < |c.branches| && c.branches[j].id == id;
    StepAdvances(pipe, w, i);
    HandlesEvent(pipe, c, i);
    FailureLives(pipe, c, Classify(c, i), j);
  }

  lemma ConcludedStays(next: seq<Branch>, last: seq<Branch>, j: nat, k: nat)
    requires Advances(next, last) && Distinct(last)
    requires j < |next| && !IsLive(next[j].state) && k < |last| && IsLive(last[k].state)
    ensures last[k].id != next[j].id
  {
  }

  /** What has ended stays ended. */
  lemma {:induction false} EndedNotLive(pipe: Pipeline, env: Surroundings, w: World, sent: seq<BranchId>, events: seq<Input>, k: nat)
    requires Lawful(pipe) && Keeps(pipe, w) && forall k :: 0 <= k < |events| ==> FromBranch(events[k])
    requires var bs := Listen(pipe, env, w, sent, events).0.ctx.branches;
      Distinct(bs) && k < |bs| && IsLive(bs[k].state)
    ensures Listen(pipe, env, w, sent, events).0.ctx.branches[k].id !in Ended(pipe, env, w, sent, events)
    decreases |events|
  {
    if events != [] && !w.ctx.finished {
      var i := events[0];
      var next, fx := Next(pipe, w, i), OnInput(pipe, w.ctx, i).fx;
      EventFits(pipe, w, i);
      var r := Perform(pipe, env, next, fx, sent);
      EndedNotLive(pipe, env, r.0, r.1, events[1..], k);
      if i.BranchTransportError? && Knows(w.ctx.branches, i.branch) {
        var j := EndConcludes(pipe, w, i.branch);
        PerformAdvances(pipe, env, next, fx, sent);
        ListenAdvances(pipe, env, r.0, r.1, events[1..]);
        var last := Listen(pipe, env, r.0, r.1, events[1..]).0.ctx.branches;
        AdvancesOn(next.ctx.branches, r.0.ctx.branches, last);
        ConcludedStays(next.ctx.branches, last, j, k);
      }
    }
  }

  /** Nothing is owed: no branch is live, and a context whose list never leaves it idle has sent a final. */
  ghost predicate Settled(pipe: Pipeline, w: World) {
    && !HasLive(w.ctx.branches)
    && (KeepsTrying(w) ==> exists inputs :: WellFormed(pipe, inputs) && Run(pipe, inputs) == w && FinalSentBy(pipe, inputs, |inputs|))
  }

  lemma NoneLiveSettles(pipe: Pipeline, w: World)
    requires Lawful(pipe) && Reachable(pipe, w) && !HasLive(w.ctx.branches)
    ensures Settled(pipe, w)
  {
    if KeepsTrying(w) {
      var inputs :| WellFormed(pipe, inputs) && Run(pipe, inputs) == w;
      NoneLiveMeansAnswered(pipe, inputs);
    }
  }

  /**
   * However the branches' events interleave with the groups they launch: when the context has finished, or the
   * stream of every copy that went out has ended, no branch is live and a final has gone upstream.
   */
  lemma {:induction false} EndedStreamsSettle(pipe: Pipeline, env: Surroundings, w: World, sent: seq<BranchId>, events: seq<Input>)
    requires Lawful(pipe) && Keeps(pipe, w) && forall k :: 0 <= k < |events| ==> FromBranch(events[k])
    requires Reachable(pipe, w) && Covered(w.ctx.branches, [], sent)
    requires var r := Listen(pipe, env, w, sent, events);
      r.0.ctx.finished || (Distinct(r.0.ctx.branches) && forall id :: id in r.1 ==> id in Ended(pipe, env, w, sent, events))
    ensures Settled(pipe, Listen(pipe, env, w, sent, events).0)
  {
    var r := Listen(pipe, env, w, sent, events);
    var bs := r.0.ctx.branches;
    ListenLeavesNoOrphan(pipe, env, w, sent, events);
    if !r.0.ctx.finished {
      forall k | 0 <= k < |bs| ensures !IsLive(bs[k].state) {
        if IsLive(bs[k].state) {
          EndedNotLive(pipe, env, w, sent, events, k);
        }
      }
    }
    NoneLiveSettles(pipe, r.0);
  }

  /** The same from the request's arrival on. */
  lemma {:induction false} ServedRequestSettles(pipe: Pipeline, env: Surroundings, r: Request, events: seq<Input>)
    requires Lawful(pipe) && forall k :: 0 <= k < |events| ==> FromBranch(events[k])
    requires var (w, sent) := Serve(pipe, env, r);
      var (after, all) := Listen(pipe, env, w, sent, events);
      after.ctx.finished || (Distinct(after.ctx.branches) && forall id :: id in all ==> id in Ended(pipe, env, w, sent, events))
    ensures var (w, sent) := Serve(pipe, env, r); Settled(pipe, Listen(pipe, env, w, sent, events).0)
  {
    ServeLeavesNoOrphan(pipe, env, r);
    var (w, sent) := Serve(pipe, env, r);
    EndedStreamsSettle(pipe, env, w, sent, events);
  }
}
