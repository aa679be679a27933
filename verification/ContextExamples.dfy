/**
 * Runs that show where the response context falls short of its rules: each is one INVITE over a target list,
 * for every pipeline, request and responses of the stated kind.
 */
module ContextExamples {
  import opened Basics
  import opened Messages
  import opened Routing
  import opened ContextModel
  import opened ContextRuns
  import opened ContextFacts
  import opened ContextEvents
  import opened ContextInvariants
  import opened ContextTargets
  import opened ContextIds
  import opened ContextTheorems
  import opened ContextProgress
  import opened ContextAnswers
  import opened ContextIdle

  // ------------------------------------------------------------------ the scene

  /** An out-of-dialog INVITE that passes validation and carries neither token nor Route. */
  ghost predicate Scene(pipe: Pipeline, r: Request) {
    && Lawful(pipe) && pipe.validate(r).Ok? && pipe.preprocess(r).1.None?
    && !IsInDialog(pipe.preprocess(r).0) && !RouteSetSurvived(pipe.preprocess(r).0) && pipe.preprocess(r).0.verb.Invite?
  }

  function Kept(pipe: Pipeline, r: Request): Request { pipe.preprocess(r).0 }

  /** The branch of a fork index. */
  function BranchAt(pipe: Pipeline, r: Request, index: nat): BranchId
    requires pipe.validate(r).Ok?
  {
    pipe.branchOf(pipe.validate(r).value.cookieInput, index)
  }

  function Queued(pipe: Pipeline, r: Request, ts: seq<Target>): Context
    requires pipe.validate(r).Ok?
  {
    INITIAL.(request := Some(Kept(pipe, r)), validated := Some(pipe.validate(r).value), queued := ts)
  }

  /** What decides whether a copy of this request builds for a target. */
  function SceneStamp(pipe: Pipeline, r: Request): Stamp { Stamp(IsDialogForming(Kept(pipe, r)), None) }

  /** The request arrives and its targets, already in order, are delivered. */
  lemma {:induction false} Delivery(pipe: Pipeline, r: Request, ts: seq<Target>)
    requires Scene(pipe, r) && ts != [] && SortByQ(ts) == ts
    ensures var run := [Upstream(r), TargetsResolved(ts)];
      WellFormed(pipe, run) && Run(pipe, run).ctx == ForkNextGroup(pipe, Queued(pipe, r, ts)).next
  {
    Arrival(pipe, r);
    RunSnoc(pipe, [Upstream(r)], TargetsResolved(ts));
    assert [Upstream(r)] + [TargetsResolved(ts)] == [Upstream(r), TargetsResolved(ts)];
  }

  lemma {:induction false} Arrival(pipe: Pipeline, r: Request)
    requires Scene(pipe, r)
    ensures var w := Run(pipe, [Upstream(r)]);
      WellFormed(pipe, [Upstream(r)]) && w.ctx == Queued(pipe, r, []) && w.asked && w.resolved.None?
  {
    assert WellFormed(pipe, []) && Run(pipe, []) == START;
    RunSnoc(pipe, [], Upstream(r));
    assert [] + [Upstream(r)] == [Upstream(r)];
  }

  function UsedNow(c: Context): seq<nat>
    requires c.request.Some? && c.validated.Some?
  {
    GroupIndices(StampOf(c), c.queued[..GroupSize(c.queued, c.validated.value.maxBreadth)], |c.branches|)
  }

  /** What a fork adds: one pending branch per index used. */
  lemma Forked(pipe: Pipeline, c: Context)
    requires Lawful(pipe) && c.request.Some? && c.validated.Some? && c.queued != [] && UsedNow(c) != []
    ensures var next := ForkNextGroup(pipe, c).next;
      && next == c.(branches := next.branches, queued := c.queued[GroupSize(c.queued, c.validated.value.maxBreadth)..])
      && |next.branches| == |c.branches| + |UsedNow(c)| && next.branches[..|c.branches|] == c.branches
      && forall p :: |c.branches| <= p < |next.branches| ==>
           next.branches[p]
             == Branch(pipe.branchOf(c.validated.value.cookieInput, UsedNow(c)[p - |c.branches|]), Pending(false, false), next.branches[p].target)
  {
    ForkedIds(pipe, c);
    ForkedFresh(pipe, c);
    FreshBranches(c.branches, ForkNextGroup(pipe, c).next.branches, IdsAt(pipe, c.validated.value.cookieInput, UsedNow(c)));
  }

  lemma ForkedIds(pipe: Pipeline, c: Context)
    requires Lawful(pipe) && c.request.Some? && c.validated.Some? && c.queued != []
    ensures var after := ForkNextGroup(pipe, c).next.branches;
      && IdsOf(after) == IdsOf(c.branches) + IdsAt(pipe, c.validated.value.cookieInput, UsedNow(c))
      && |after| == |c.branches| + |UsedNow(c)|
  {
    ForkIds(pipe, c);
  }

  lemma ForkedFresh(pipe: Pipeline, c: Context)
    requires Lawful(pipe) && c.request.Some? && c.validated.Some? && c.queued != []
    requires |ForkNextGroup(pipe, c).next.branches| > |c.branches|
    ensures var next := ForkNextGroup(pipe, c).next;
      && next == c.(branches := next.branches, queued := c.queued[GroupSize(c.queued, c.validated.value.maxBreadth)..])
      && c.branches <= next.branches
      && forall k :: 0 <= k < |next.branches[|c.branches|..]| ==> next.branches[|c.branches|..][k].state == Pending(false, false)
  {
    ForkFacts(pipe, c);
  }

  lemma FreshBranches(before: seq<Branch>, after: seq<Branch>, ids: seq<BranchId>)
    requires before <= after && IdsOf(after) == IdsOf(before) + ids
    requires forall k :: 0 <= k < |after[|before|..]| ==> after[|before|..][k].state == Pending(false, false)
    ensures |after| == |before| + |ids|
    ensures forall p :: |before| <= p < |after| ==> after[p] == Branch(ids[p - |before|], Pending(false, false), after[p].target)
  {
    assert |IdsOf(after)| == |after| && |IdsOf(before)| == |before|;
    forall p | |before| <= p < |after| ensures after[p].id == ids[p - |before|] && after[p].state == Pending(false, false) {
      assert after[p] == after[|before|..][p - |before|];
      assert IdsOf(after)[p] == ids[p - |before|];
    }
  }

  lemma {:induction false} OneIndex(stamp: Stamp, t: Target, rest: seq<Target>, index: nat)
    ensures GroupIndices(stamp, [t] + rest, index) == (if Builds(stamp, t) then [index] else []) + GroupIndices(stamp, rest, index + 1)
  {
    assert ([t] + rest)[1..] == rest;
  }

  lemma {:induction false} TwoIndices(stamp: Stamp, a: Target, b: Target)
    ensures GroupIndices(stamp, [a, b], 0) == (if Builds(stamp, a) then [0] else []) + (if Builds(stamp, b) then [1] else [])
  {
    OneIndex(stamp, a, [b], 0);
    OneIndex(stamp, b, [], 1);
    assert [a] + [b] == [a, b] && [b] + [] == [b];
  }

  // ------------------------------------------------------------------ order

  /** A target in front of a sorted list it is no less preferred than. */
  lemma {:induction false} SortedStays(t: Target, rest: seq<Target>)
    requires SortByQ(rest) == rest && (rest != [] ==> t.q >= rest[0].q)
    ensures SortByQ([t] + rest) == [t] + rest
  {
    assert ([t] + rest)[1..] == rest;
  }

  lemma TwoTargets(pipe: Pipeline, r: Request, a: Target, b: Target)
    requires Scene(pipe, r) && a.q == b.q && Builds(SceneStamp(pipe, r), a) && Builds(SceneStamp(pipe, r), b)
    requires pipe.validate(r).value.maxBreadth >= 2
    ensures SortByQ([a, b]) == [a, b]
    ensures var next := ForkNextGroup(pipe, Queued(pipe, r, [a, b])).next;
      && next == Queued(pipe, r, []).(branches := next.branches) && |next.branches| == 2
      && next.branches[0].id == BranchAt(pipe, r, 0) && next.branches[1].id == BranchAt(pipe, r, 1)
      && next.branches[0].state == Pending(false, false) && next.branches[1].state == Pending(false, false)
  {
    var both := [a, b];
    assert both[1..] == [b] && [b][1..] == [] && both[..2] == both && both[2..] == [];
    SortedStays(b, []);
    SortedStays(a, [b]);
    assert [b] + [] == [b] && [a] + [b] == both;
    assert LeadingRun([b]) == 1 && LeadingRun(both) == 2;
    var stamp := SceneStamp(pipe, r);
    TwoIndices(stamp, a, b);
    assert StampOf(Queued(pipe, r, both)) == stamp;
    Forked(pipe, Queued(pipe, r, both));
  }

  /** The run up to the first branch's final. */
  function OneAnswered(pipe: Pipeline, r: Request, a: Target, b: Target, final: Response): seq<Input>
    requires pipe.validate(r).Ok?
  {
    [Upstream(r), TargetsResolved([a, b])] + [BranchResponse(final, BranchAt(pipe, r, 0))]
  }

  lemma {:induction false} OneAnsweredWorld(pipe: Pipeline, r: Request, a: Target, b: Target, final: Response)
    requires Scene(pipe, r) && a.q == b.q && Builds(SceneStamp(pipe, r), a) && Builds(SceneStamp(pipe, r), b)
    requires pipe.validate(r).value.maxBreadth >= 2 && BranchAt(pipe, r, 0) != BranchAt(pipe, r, 1) && final.status == 504
    ensures var run := OneAnswered(pipe, r, a, b, final);
      var c := Run(pipe, run).ctx;
      && WellFormed(pipe, run) && c == Queued(pipe, r, []).(branches := c.branches, finals := [final]) && |c.branches| == 2
      && c.branches[0].id == BranchAt(pipe, r, 0) && c.branches[0].state == Concluded(504)
      && c.branches[1].id == BranchAt(pipe, r, 1) && c.branches[1].state == Pending(false, false)
  {
    TwoTargets(pipe, r, a, b);
    Delivery(pipe, r, [a, b]);
    var run := [Upstream(r), TargetsResolved([a, b])];
    var i := BranchResponse(final, BranchAt(pipe, r, 0));
    var c := Run(pipe, run).ctx;
    RunSnoc(pipe, run, i);
    assert c.branches[0].id == i.branch;
    HandlesEvent(pipe, c, i);
    FinalFacts(pipe, c, i.branch, final);
    assert IsLive(Recorded(c, i.branch, final).branches[1].state);
  }

  /**
   * Two forks both answer 504. If the first one's stream breaks only after that the caller gets 504; if it breaks
   * between the two answers the caller gets 500, from the same inputs.
   */
  lemma BrokenStreamChangesAnswer(pipe: Pipeline, r: Request, a: Target, b: Target, x: Response, y: Response)
    requires Scene(pipe, r) && a.q == b.q && Builds(SceneStamp(pipe, r), a) && Builds(SceneStamp(pipe, r), b)
    requires pipe.validate(r).value.maxBreadth >= 2 && BranchAt(pipe, r, 0) != BranchAt(pipe, r, 1)
    requires x.status == 504 && y.status == 504
    ensures var before := OneAnswered(pipe, r, a, b, x);
      var second, broken := BranchResponse(y, BranchAt(pipe, r, 1)), BranchTransportError(BranchAt(pipe, r, 0));
      && WellFormed(pipe, before + [second, broken]) && WellFormed(pipe, before + [broken, second])
      && AnswerStatus(pipe, before + [second, broken], |before|) == 504
      && AnswerStatus(pipe, before + [broken, second], |before| + 1) == 500
  {
    var before := OneAnswered(pipe, r, a, b, x);
    var second, broken := BranchResponse(y, BranchAt(pipe, r, 1)), BranchTransportError(BranchAt(pipe, r, 0));
    OneAnsweredWorld(pipe, r, a, b, x);
    BreakThenAnswer(pipe, Run(pipe, before).ctx, BranchAt(pipe, r, 0), BranchAt(pipe, r, 1), x, y);
    TwoMore(pipe, before, second, broken);
    TwoMore(pipe, before, broken, second);
  }

  lemma BreakThenAnswer(pipe: Pipeline, c: Context, first: BranchId, second: BranchId, x: Response, y: Response)
    requires Lawful(pipe) && c.request.Some? && c.validated.Some? && c.finals == [x] && x.status == 504 && y.status == 504
    requires !c.answered && !c.finished && c.queued == [] && first != second && |c.branches| == 2
    requires c.branches[0].id == first && c.branches[0].state == Concluded(504)
    requires c.branches[1].id == second && c.branches[1].state == Pending(false, false)
    ensures Answer(OnInput(pipe, c, BranchResponse(y, second)).fx) == 504
    ensures Answer(OnInput(pipe, OnInput(pipe, c, BranchTransportError(first)).next, BranchResponse(y, second)).fx) == 500
  {
    var lost := BuildResponse(c.request.value, 503);
    var mid := Recorded(c, first, lost);
    LastAnswers(pipe, c, second, y);
    assert c.branches[0].id == first;
    HandlesEvent(pipe, c, BranchTransportError(first));
    FinalFacts(pipe, c, first, lost);
    assert IsLive(mid.branches[1].state);
    LastAnswers(pipe, mid, second, y);
    assert [x] + [lost] + [y] == [x, lost, y];
    BestOfTwo(x, y);
    BestOfThree(x, lost, y);
    SelectedFinal([x, y], c.request.value);
    SelectedFinal([x, lost, y], c.request.value);
  }

  /** The last branch's final makes the context select. */
  lemma LastAnswers(pipe: Pipeline, c: Context, second: BranchId, y: Response)
    requires Lawful(pipe) && c.request.Some? && c.validated.Some? && y.status == 504
    requires !c.answered && !c.finished && c.queued == [] && |c.branches| == 2
    requires !IsLive(c.branches[0].state) && c.branches[1].id == second
    ensures OnInput(pipe, c, BranchResponse(y, second)).fx == [Respond(Selected(c.finals + [y], c.request.value)), Terminate]
  {
    assert Knows(c.branches, second);
    HandlesEvent(pipe, c, BranchResponse(y, second));
    FinalFacts(pipe, c, second, y);
  }

  lemma BestOfTwo(x: Response, y: Response)
    requires x.status == 504 && y.status == 504
    ensures BestFinal([x, y]) == Some(504) && [x] + [y] == [x, y]
  {
    BestFinalIn([x, y]);
  }

  lemma BestOfThree(x: Response, lost: Response, y: Response)
    requires x.status == 504 && y.status == 504 && lost.status == 503
    ensures BestFinal([x, lost, y]) == Some(503)
  {
    BestFinalIn([x, lost, y]);
    assert lost in [x, lost, y];
  }

  // ------------------------------------------------------------------ one target

  /** The context waiting on its only branch. */
  function Lone(pipe: Pipeline, r: Request, t: Target): Context
    requires pipe.validate(r).Ok?
  {
    Queued(pipe, r, []).(branches := [Branch(BranchAt(pipe, r, 0), Pending(false, false), t)])
  }

  lemma {:induction false} OneTarget(pipe: Pipeline, r: Request, t: Target)
    requires Scene(pipe, r) && Builds(SceneStamp(pipe, r), t)
    ensures WellFormed(pipe, [Upstream(r), TargetsResolved([t])])
    ensures Run(pipe, [Upstream(r), TargetsResolved([t])]).ctx == Lone(pipe, r, t)
  {
    var sole := [t];
    SoleSort(t);
    Delivery(pipe, r, sole);
    assert sole[..1] == sole && sole[1..] == [];
    var stamp := SceneStamp(pipe, r);
    OneIndex(stamp, t, [], 0);
    assert [t] + [] == sole;
    assert StampOf(Queued(pipe, r, sole)) == stamp;
    Forked(pipe, Queued(pipe, r, sole));
    ForkFacts(pipe, Queued(pipe, r, sole));
    var bs := ForkNextGroup(pipe, Queued(pipe, r, sole)).next.branches;
    KeepAll(stamp, sole);
    assert bs[0..] == bs && TargetsOf(bs)[0] == t;
    assert bs == [bs[0]];
  }

  /** A lone branch's final, whatever its origin, is selected at once. */
  lemma LoneFinal(pipe: Pipeline, r: Request, t: Target, i: Input, final: Response)
    requires Scene(pipe, r) && Builds(SceneStamp(pipe, r), t) && IsBranchEvent(i)
    requires Classify(Lone(pipe, r, t), i) == Final(BranchAt(pipe, r, 0), final)
    ensures var run := [Upstream(r), TargetsResolved([t])] + [i];
      WellFormed(pipe, run) && EffectsAt(pipe, run, 2) == [Respond(Selected([final], Kept(pipe, r))), Terminate]
  {
    var before := [Upstream(r), TargetsResolved([t])];
    OneTarget(pipe, r, t);
    RunSnoc(pipe, before, i);
    assert (before + [i])[..2] == before;
    LoneStep(pipe, Lone(pipe, r, t), i, BranchAt(pipe, r, 0), final);
  }

  lemma LoneStep(pipe: Pipeline, c: Context, i: Input, id: BranchId, final: Response)
    requires Lawful(pipe) && c.request.Some? && c.validated.Some? && IsBranchEvent(i) && Classify(c, i) == Final(id, final)
    requires !c.answered && c.queued == [] && c.finals == [] && |c.branches| == 1 && c.branches[0].id == id
    ensures OnInput(pipe, c, i).fx == [Respond(Selected([final], c.request.value)), Terminate]
  {
    HandlesEvent(pipe, c, i);
    FinalFacts(pipe, c, id, final);
    assert [] + [final] == [final];
  }

  /** What one final comes to: popped as it is, or rebuilt and popped. */
  lemma SelectedAlone(final: Response, request: Request)
    requires request.vias != [] && (final.status == 401 || (final.status == 408 && final.vias == request.vias))
    ensures Selected([final], request).status == final.status && Selected([final], request).vias == request.vias[1..]
  {
    assert [final][1..] == [] && BestFinal([]) == None;
    assert BestFinal([final]) == Some(final.status) && FirstWith([final], final.status) == Some(final);
  }

  /** Timer C on a branch never heard from: the 408 built here goes out without the caller's topmost `Via`. */
  lemma TimerCLosesVia(pipe: Pipeline, r: Request, t: Target)
    requires Scene(pipe, r) && Builds(SceneStamp(pipe, r), t) && Kept(pipe, r).vias != []
    ensures var run := [Upstream(r), TargetsResolved([t])] + [TimerFired(Some(BranchAt(pipe, r, 0)))];
      var fx := EffectsAt(pipe, run, 2);
      && WellFormed(pipe, run) && fx != [] && fx[0].Respond?
      && fx[0].response.status == 408 && fx[0].response.vias == Kept(pipe, r).vias[1..]
  {
    var final := BuildResponse(Kept(pipe, r), 408);
    LoneFinal(pipe, r, t, TimerFired(Some(BranchAt(pipe, r, 0))), final);
    SelectedAlone(final, Kept(pipe, r));
  }

  /** The driver's own timeout, a 408 built from the arrival and fed as a response, loses it in the same way. */
  lemma KernelTimeoutLosesVia(pipe: Pipeline, r: Request, t: Target)
    requires Scene(pipe, r) && Builds(SceneStamp(pipe, r), t) && Kept(pipe, r).vias != []
    ensures var run := [Upstream(r), TargetsResolved([t])] + [BranchResponse(BuildResponse(Kept(pipe, r), 408), BranchAt(pipe, r, 0))];
      var fx := EffectsAt(pipe, run, 2);
      && WellFormed(pipe, run) && fx != [] && fx[0].Respond?
      && fx[0].response.status == 408 && fx[0].response.vias == Kept(pipe, r).vias[1..]
  {
    var final := BuildResponse(Kept(pipe, r), 408);
    LoneResponse(pipe, r, t, final);
    LoneFinal(pipe, r, t, BranchResponse(final, BranchAt(pipe, r, 0)), final);
    SelectedAlone(final, Kept(pipe, r));
  }

  lemma LoneResponse(pipe: Pipeline, r: Request, t: Target, final: Response)
    requires Scene(pipe, r) && (final.status == 401 || final.status == 408)
    ensures Classify(Lone(pipe, r, t), BranchResponse(final, BranchAt(pipe, r, 0))) == Final(BranchAt(pipe, r, 0), final)
  {
    assert Lone(pipe, r, t).branches[0].id == BranchAt(pipe, r, 0);
  }

  /** A challenge is rebuilt here, so the caller's `Via` goes even though the branch's own answer carried both. */
  lemma ChallengeLosesVia(pipe: Pipeline, r: Request, t: Target, challenge: Response)
    requires Scene(pipe, r) && Builds(SceneStamp(pipe, r), t) && Kept(pipe, r).vias != [] && challenge.status == 401
    ensures var run := [Upstream(r), TargetsResolved([t])] + [BranchResponse(challenge, BranchAt(pipe, r, 0))];
      var fx := EffectsAt(pipe, run, 2);
      && WellFormed(pipe, run) && fx != [] && fx[0].Respond?
      && fx[0].response.status == 401 && fx[0].response.vias == Kept(pipe, r).vias[1..]
  {
    LoneResponse(pipe, r, t, challenge);
    LoneFinal(pipe, r, t, BranchResponse(challenge, BranchAt(pipe, r, 0)), challenge);
    SelectedAlone(challenge, Kept(pipe, r));
  }

  // ------------------------------------------------------------------ a branch id used twice

  /** The first target's copy fails to build, the second goes out, and the third waits for it. */
  lemma ThreeTargets(pipe: Pipeline, r: Request, broken: Target, first: Target, later: Target)
    requires Scene(pipe, r) && broken.q == first.q > later.q && pipe.validate(r).value.maxBreadth >= 2
    requires var stamp := SceneStamp(pipe, r); !Builds(stamp, broken) && Builds(stamp, first)
    ensures SortByQ([broken, first, later]) == [broken, first, later]
    ensures var next := ForkNextGroup(pipe, Queued(pipe, r, [broken, first, later])).next;
      && next == Queued(pipe, r, [later]).(branches := next.branches) && |next.branches| == 1
      && next.branches[0].id == BranchAt(pipe, r, 1) && next.branches[0].state == Pending(false, false)
  {
    var all := [broken, first, later];
    assert all[1..] == [first, later] && [first, later][1..] == [later] && [later][1..] == [];
    SortedStays(later, []);
    SortedStays(first, [later]);
    SortedStays(broken, [first, later]);
    assert [later] + [] == [later] && [first] + [later] == [first, later] && [broken] + [first, later] == all;
    assert LeadingRun([later]) == 1 && LeadingRun([first, later]) == 1 && LeadingRun(all) == 2;
    assert all[..2] == [broken, first] && all[2..] == [later] && [broken, first][1..] == [first] && [first][1..] == [];
    var stamp := SceneStamp(pipe, r);
    TwoIndices(stamp, broken, first);
    assert StampOf(Queued(pipe, r, all)) == stamp;
    Forked(pipe, Queued(pipe, r, all));
  }

  /** After the first fork's final the next one goes out under the same branch. */
  lemma SecondUnderSameId(pipe: Pipeline, c: Context, id: BranchId, later: Target, final: Response)
    requires Lawful(pipe) && c.request.Some? && c.validated.Some? && !c.answered && !c.finished && c.queued == [later]
    requires |c.branches| == 1 && c.branches[0].id == id && c.branches[0].state == Pending(false, false)
    requires id == pipe.branchOf(c.validated.value.cookieInput, 1) && Builds(StampOf(c), later)
    ensures var next := Handle(pipe, c, Final(id, final)).next;
      && next == c.(branches := next.branches, queued := [], finals := c.finals + [final]) && |next.branches| == 2
      && next.branches[0].id == id && next.branches[0].state == Concluded(final.status)
      && next.branches[1].id == id && next.branches[1].state == Pending(false, false)
  {
    FinalFacts(pipe, c, id, final);
    var mid := Recorded(c, id, final);
    assert [later][..1] == [later] && [later][1..] == [];
    OneIndex(StampOf(mid), later, [], 1);
    assert [later] + [] == [later];
    Forked(pipe, mid);
    assert ForkNextGroup(pipe, mid).next.branches[0] == mid.branches[0];
  }

  /** The run in which the third target is forwarded once the second has refused. */
  function ThirdForwarded(pipe: Pipeline, r: Request, broken: Target, first: Target, later: Target, refusal: Response): seq<Input>
    requires pipe.validate(r).Ok?
  {
    [Upstream(r), TargetsResolved([broken, first, later])] + [BranchResponse(refusal, BranchAt(pipe, r, 1))]
  }

  /** A copy that does not build makes a later group reuse a branch id: this run ends with two branches of one. */
  lemma {:induction false} FailedCopyReusesBranch(pipe: Pipeline, r: Request, broken: Target, first: Target, later: Target, refusal: Response)
    requires Scene(pipe, r) && broken.q == first.q > later.q && pipe.validate(r).value.maxBreadth >= 2
    requires var stamp := SceneStamp(pipe, r); !Builds(stamp, broken) && Builds(stamp, first) && Builds(stamp, later)
    requires refusal.status == 404
    ensures var run := ThirdForwarded(pipe, r, broken, first, later, refusal);
      var c := Run(pipe, run).ctx;
      && WellFormed(pipe, run) && !Distinct(c.branches) && HasLive(c.branches)
      && c == Queued(pipe, r, []).(branches := c.branches, finals := [refusal]) && |c.branches| == 2
      && c.branches[0].id == c.branches[1].id == BranchAt(pipe, r, 1)
  {
    var start := [Upstream(r), TargetsResolved([broken, first, later])];
    var i := BranchResponse(refusal, BranchAt(pipe, r, 1));
    ThreeTargets(pipe, r, broken, first, later);
    Delivery(pipe, r, [broken, first, later]);
    RunSnoc(pipe, start, i);
    RefusedThenForwarded(pipe, r, Run(pipe, start).ctx, later, refusal);
  }

  lemma RefusedThenForwarded(pipe: Pipeline, r: Request, c: Context, later: Target, refusal: Response)
    requires Scene(pipe, r) && Builds(SceneStamp(pipe, r), later) && refusal.status == 404
    requires c == Queued(pipe, r, [later]).(branches := c.branches) && |c.branches| == 1
    requires c.branches[0].id == BranchAt(pipe, r, 1) && c.branches[0].state == Pending(false, false)
    ensures var next := OnInput(pipe, c, BranchResponse(refusal, BranchAt(pipe, r, 1))).next;
      && next == Queued(pipe, r, []).(branches := next.branches, finals := [refusal]) && |next.branches| == 2
      && next.branches[0].id == next.branches[1].id == BranchAt(pipe, r, 1)
      && !Distinct(next.branches) && HasLive(next.branches)
  {
    var id := BranchAt(pipe, r, 1);
    assert Knows(c.branches, id);
    HandlesEvent(pipe, c, BranchResponse(refusal, id));
    SecondUnderSameId(pipe, c, id, later, refusal);
    var next := Handle(pipe, c, Final(id, refusal)).next;
    assert IsLive(next.branches[1].state);
    assert [] + [refusal] == [refusal];
  }

  /**
   * Then the end of the first fork's stream concludes the second fork too: the caller is answered while that
   * one is still ringing, and its 2xx is lost.
   */
  lemma ReusedBranchLosesAcceptance(pipe: Pipeline, r: Request, broken: Target, first: Target, later: Target,
                                    refusal: Response, acceptance: Response)
    requires Scene(pipe, r) && broken.q == first.q > later.q && pipe.validate(r).value.maxBreadth >= 2
    requires var stamp := SceneStamp(pipe, r); !Builds(stamp, broken) && Builds(stamp, first) && Builds(stamp, later)
    requires refusal.status == 404 && acceptance.status == 200
    ensures var run := ThirdForwarded(pipe, r, broken, first, later, refusal);
      var id := BranchAt(pipe, r, 1);
      var after := run + [BranchTransportError(id), BranchResponse(acceptance, id)];
      WellFormed(pipe, after) && AnswerStatus(pipe, after, |run|) == 404 && EffectsAt(pipe, after, |run| + 1) == []
  {
    var run := ThirdForwarded(pipe, r, broken, first, later, refusal);
    var id := BranchAt(pipe, r, 1);
    FailedCopyReusesBranch(pipe, r, broken, first, later, refusal);
    BothConclude(pipe, Run(pipe, run).ctx, id, refusal, acceptance);
    TwoMore(pipe, run, BranchTransportError(id), BranchResponse(acceptance, id));
  }

  lemma BothConclude(pipe: Pipeline, c: Context, id: BranchId, refusal: Response, acceptance: Response)
    requires Lawful(pipe) && c.request.Some? && c.validated.Some? && !c.answered && !c.finished && c.queued == []
    requires |c.branches| == 2 && c.branches[0].id == id && c.branches[1].id == id
    requires c.finals == [refusal] && refusal.status == 404
    ensures var out := OnInput(pipe, c, BranchTransportError(id));
      out.next.finished && Answer(out.fx) == 404 && OnInput(pipe, out.next, BranchResponse(acceptance, id)).fx == []
  {
    var lost := BuildResponse(c.request.value, 503);
    assert c.branches[0].id == id;
    HandlesEvent(pipe, c, BranchTransportError(id));
    FinalFacts(pipe, c, id, lost);
    assert [refusal] + [lost] == [refusal, lost];
    BestFinalIn([refusal, lost]);
    assert refusal in [refusal, lost];
    SelectedFinal([refusal, lost], c.request.value);
  }

  // ------------------------------------------------------------------ a context left idle

  /** The first group's only copy does not build, and the second group, which would, is never tried. */
  lemma {:induction false} FirstGroupFails(pipe: Pipeline, r: Request, broken: Target, later: Target)
    requires Scene(pipe, r) && broken.q > later.q && !Builds(SceneStamp(pipe, r), broken)
    ensures var run := [Upstream(r), TargetsResolved([broken, later])];
      WellFormed(pipe, run) && Run(pipe, run).ctx == Queued(pipe, r, [later]) && Idle(Run(pipe, run))
  {
    var both := [broken, later];
    SortedStays(later, []);
    SortedStays(broken, [later]);
    assert [later] + [] == [later] && [broken] + [later] == both;
    Delivery(pipe, r, both);
    GroupOfOne(pipe, r, broken, later);
    DeliveredRun(pipe, r, both);
  }

  lemma GroupOfOne(pipe: Pipeline, r: Request, broken: Target, later: Target)
    requires Scene(pipe, r) && broken.q > later.q && !Builds(SceneStamp(pipe, r), broken)
    ensures ForkNextGroup(pipe, Queued(pipe, r, [broken, later])).next == Queued(pipe, r, [later])
  {
    var both := [broken, later];
    var c := Queued(pipe, r, both);
    assert both[1..] == [later] && both[..1] == [broken];
    assert LeadingRun(both) == 1 && GroupSize(both, pipe.validate(r).value.maxBreadth) == 1;
    OneIndex(SceneStamp(pipe, r), broken, [], 0);
    assert [broken] + [] == [broken] && StampOf(c) == SceneStamp(pipe, r) && UsedNow(c) == [];
    ForkedIds(pipe, c);
    ForkFacts(pipe, c);
  }

  lemma {:induction false} DeliveredRun(pipe: Pipeline, r: Request, ts: seq<Target>)
    requires Scene(pipe, r)
    ensures Run(pipe, [Upstream(r), TargetsResolved(ts)]).resolved == Some(ts)
  {
    Arrival(pipe, r);
    var run := [Upstream(r), TargetsResolved(ts)];
    assert run[..1] == [Upstream(r)];
    assert Run(pipe, run) == Next(pipe, Run(pipe, run[..1]), TargetsResolved(ts));
  }

  /** And the caller is never answered, whatever comes afterwards. */
  lemma {:induction false} FirstGroupFailsForGood(pipe: Pipeline, r: Request, broken: Target, later: Target, steps: seq<Input>)
    requires Scene(pipe, r) && broken.q > later.q && !Builds(SceneStamp(pipe, r), broken)
    requires forall k :: 0 <= k < |steps| ==> IsBranchEvent(steps[k])
    ensures var w := Run(pipe, [Upstream(r), TargetsResolved([broken, later])]);
      var after := RunFrom(pipe, w, steps);
      Idle(after) && after.copies == w.copies && !SendsFinalFrom(pipe, w, steps)
  {
    var run := [Upstream(r), TargetsResolved([broken, later])];
    FirstGroupFails(pipe, r, broken, later);
    RunKeeps(pipe, run, |run|);
    assert run[..|run|] == run;
    NeverAnswered(pipe, Run(pipe, run), steps);
  }
}
