/**
 * The driver that closes a response context: it performs effects in order and feeds back at once what a
 * question, or a next hop it cannot address, comes to. The recursion ends, and it is a well-formed driver.
 */
module Driver {
  import opened Basics
  import opened Messages
  import opened Routing
  import opened Forwarding
  import opened ContextModel
  import opened ContextRuns
  import opened ContextFacts
  import opened ContextEvents
  import opened ContextTargets
  import opened ContextTrying
  import opened ContextBranches
  import opened ContextTheorems
  import opened ContextProgress
  import opened ResponseContexts

  /**
   * What surrounds a context: which next hops have an address, what the location store holds (nothing
   * if it cannot be read), and what a token verifies to.
   */
  datatype Surroundings = Surroundings(
    addressable: Uri -> bool, lookup: Uri -> Option<seq<Target>>, verify: TokenCarriage -> TokenVerdict)

  /** What performing one effect feeds back into the context. */
  function Feedback(env: Surroundings, e: Effect): Option<Input> {
    match e
    case ResolveTargets(uri) =>
      (match env.lookup(uri) case Some(found) => Some(TargetsResolved(found)) case None => Some(TargetsUnavailable))
    case VerifyToken(carriage) => Some(TokenFact(env.verify(carriage)))
    case SendCopy(branch, _, _, nextHop) => if env.addressable(nextHop) then None else Some(BranchTransportError(branch))
    case _ => None
  }

  predicate Feeds(e: Effect) { e.ResolveTargets? || e.VerifyToken? || e.SendCopy? }

  function Feeding(fx: seq<Effect>): nat {
    if fx == [] then 0 else (if Feeds(fx[0]) then 1 else 0) + Feeding(fx[1..])
  }

  /** How far target determination still has to go. */
  function Rank(w: World): nat {
    if !w.started then 3 else if w.ctx.awaitingVerdict then 2 else if w.asked then 1 else 0
  }

  predicate NoAsks(fx: seq<Effect>) {
    forall e :: e in fx ==> !e.ResolveTargets? && !e.VerifyToken?
  }

  /** A question stands alone among a step's effects, and only while the context waits for its answer. */
  ghost predicate Fits(w: World, fx: seq<Effect>) {
    NoAsks(fx) || (|fx| == 1 && (if fx[0].ResolveTargets? then w.asked else w.ctx.awaitingVerdict))
  }

  predicate NoHigher(after: World, before: World) {
    Rank(after) < Rank(before) || (Rank(after) == Rank(before) && |after.ctx.queued| <= |before.ctx.queued|)
  }

  predicate Lowers(after: World, fx: seq<Effect>, before: World) {
    Rank(after) < Rank(before)
    || (Rank(after) == Rank(before)
        && (|after.ctx.queued| < |before.ctx.queued| || (|after.ctx.queued| == |before.ctx.queued| && Feeding(fx) == 0)))
  }

  // ------------------------------------------------------------------ what a step emits

  lemma {:induction false} CopiesNoAsks(pipe: Pipeline, plan: ForwardPlan, group: seq<Target>, index: nat)
    ensures NoAsks(ForkCopies(pipe, plan, group, index).1)
    decreases |group|
  {
    if group != [] {
      CopiesNoAsks(pipe, plan, group[1..], index + 1);
    }
  }

  lemma ForkNoAsks(pipe: Pipeline, c: Context)
    ensures NoAsks(ForkNextGroup(pipe, c).fx)
  {
    if c.request.Some? && c.validated.Some? && c.queued != [] {
      var group := c.queued[..GroupSize(c.queued, c.validated.value.maxBreadth)];
      CopiesNoAsks(pipe, GroupPlan(c, group), group, |c.branches|);
    }
  }

  lemma EventNoAsks(pipe: Pipeline, c: Context, e: Event)
    requires c.request.Some? && e.Final? && (c.answered ==> c.queued == [])
    ensures NoAsks(Handle(pipe, c, e).fx)
  {
    FinalFacts(pipe, c, e.branch, e.response);
    ForkNoAsks(pipe, Recorded(c, e.branch, e.response));
  }

  lemma RouteAsks(pipe: Pipeline, c: Context)
    requires c.request.Some?
    ensures var fx := RouteIt(pipe, c).fx; NoAsks(fx) || (|fx| == 1 && fx[0].ResolveTargets?)
  {
    var sole := [PredeterminedTarget(c.request.value)];
    ForkNoAsks(pipe, c.(queued := SortByQ(sole)));
  }

  /** A failed branch either leaves nothing to perform that feeds back, or shortens the queue. */
  lemma FailureStep(pipe: Pipeline, w: World, branch: BranchId)
    requires Lawful(pipe) && Keeps(pipe, w)
    ensures var i := BranchTransportError(branch);
      var fx := OnInput(pipe, w.ctx, i).fx;
      NoAsks(fx) && Lowers(Next(pipe, w, i), fx, w)
  {
    var i := BranchTransportError(branch);
    var c := w.ctx;
    if c.request.Some? {
      HandlesEvent(pipe, c, i);
      BranchEventShape(pipe, c, i);
      var e := Classify(c, i);
      if e.Final? {
        EventNoAsks(pipe, c, e);
        FailureQueue(pipe, c, e);
      }
    }
  }

  lemma FailureQueue(pipe: Pipeline, c: Context, e: Event)
    requires Lawful(pipe) && c.request.Some? && c.validated.Some? && e.Final? && (c.answered ==> c.queued == [])
    ensures var out := Handle(pipe, c, e);
      |out.next.queued| < |c.queued| || (|out.next.queued| == |c.queued| && Feeding(out.fx) == 0)
  {
    FinalFacts(pipe, c, e.branch, e.response);
    if ForksNext(c, e) {
      ForkFacts(pipe, Recorded(c, e.branch, e.response));
    } else {
      NoneFeeds(Handle(pipe, c, e).fx);
    }
  }

  lemma {:induction false} NoneFeeds(fx: seq<Effect>)
    requires forall k :: 0 <= k < |fx| ==> !Feeds(fx[k])
    ensures Feeding(fx) == 0
  {
    if fx != [] {
      NoneFeeds(fx[1..]);
    }
  }

  lemma AnswerStep(pipe: Pipeline, w: World, i: Input)
    requires Keeps(pipe, w) && w.asked && (i.TargetsResolved? || i.TargetsUnavailable?)
    ensures var fx := OnInput(pipe, w.ctx, i).fx;
      NoAsks(fx) && Lowers(Next(pipe, w, i), fx, w)
  {
    if i.TargetsResolved? {
      ForkNoAsks(pipe, w.ctx.(queued := SortByQ(i.targets)));
      ForkShape(pipe, w.ctx.(queued := SortByQ(i.targets)));
    }
  }

  lemma VerdictStep(pipe: Pipeline, w: World, verdict: TokenVerdict)
    requires Keeps(pipe, w) && w.ctx.awaitingVerdict
    ensures var i := TokenFact(verdict);
      var fx := OnInput(pipe, w.ctx, i).fx;
      Fits(Next(pipe, w, i), fx) && Lowers(Next(pipe, w, i), fx, w)
  {
    var c := w.ctx.(awaitingVerdict := false);
    if !w.ctx.finished && verdict.Valid? {
      RouteAsks(pipe, c);
      RouteItShape(pipe, c);
    }
  }

  /** The three inputs a driver feeds back keep every promise and come closer to the end. */
  lemma FeedbackStep(pipe: Pipeline, env: Surroundings, w: World, e: Effect)
    requires Lawful(pipe) && Keeps(pipe, w) && Fits(w, [e]) && Feedback(env, e).Some?
    ensures var i := Feedback(env, e).value;
      var fx := OnInput(pipe, w.ctx, i).fx;
      Admissible(w, i) && Keeps(pipe, Next(pipe, w, i)) && Fits(Next(pipe, w, i), fx) && Lowers(Next(pipe, w, i), fx, w)
  {
    var i := Feedback(env, e).value;
    assert e in [e];
    KeepStep(pipe, w, i);
    if e.SendCopy? {
      FailureStep(pipe, w, e.branch);
    } else if e.VerifyToken? {
      VerdictStep(pipe, w, i.verdict);
    } else {
      AnswerStep(pipe, w, i);
    }
  }

  // ------------------------------------------------------------------ performing

  /**
   * Perform effects in order. What one of them feeds back is handled, with all it causes, before the next.
   * The result is the world it ends in and the branches whose copies really went out.
   */
  function Perform(pipe: Pipeline, env: Surroundings, w: World, fx: seq<Effect>, sent: seq<BranchId>): (r: (World, seq<BranchId>))
    requires Lawful(pipe) && Keeps(pipe, w) && Fits(w, fx)
    ensures Keeps(pipe, r.0) && NoHigher(r.0, w)
    decreases Rank(w), |w.ctx.queued|, Feeding(fx), |fx|
  {
    if fx == [] then (w, sent)
    else match Feedback(env, fx[0])
      case None => Perform(pipe, env, w, fx[1..], if fx[0].SendCopy? then sent + [fx[0].branch] else sent)
      case Some(i) =>
        FeedbackStep(pipe, env, w, fx[0]);
        var inner := Perform(pipe, env, Next(pipe, w, i), OnInput(pipe, w.ctx, i).fx, sent);
        Perform(pipe, env, inner.0, fx[1..], inner.1)
  }

  // ------------------------------------------------------------------ a well-formed driver

  /** Some well-formed run ends here. */
  ghost predicate Reachable(pipe: Pipeline, w: World) {
    exists inputs :: WellFormed(pipe, inputs) && Run(pipe, inputs) == w
  }

  lemma ReachableKeeps(pipe: Pipeline, w: World)
    requires Lawful(pipe) && Reachable(pipe, w)
    ensures Keeps(pipe, w)
  {
    var inputs :| WellFormed(pipe, inputs) && Run(pipe, inputs) == w;
    RunKeeps(pipe, inputs, |inputs|);
    assert inputs[..|inputs|] == inputs;
  }

  lemma ReachNext(pipe: Pipeline, w: World, i: Input)
    requires Reachable(pipe, w) && Admissible(w, i)
    ensures Reachable(pipe, Next(pipe, w, i))
  {
    var inputs :| WellFormed(pipe, inputs) && Run(pipe, inputs) == w;
    RunSnoc(pipe, inputs, i);
  }

  lemma ReachStart(pipe: Pipeline, r: Request)
    ensures Reachable(pipe, START) && Reachable(pipe, Next(pipe, START, Upstream(r)))
  {
    assert WellFormed(pipe, []) && Run(pipe, []) == START;
    ReachNext(pipe, START, Upstream(r));
  }

  /** Everything the driver does is a well-formed run, so every theorem about runs holds of it. */
  lemma {:induction false} PerformIsWellFormed(pipe: Pipeline, env: Surroundings, w: World, fx: seq<Effect>, sent: seq<BranchId>)
    requires Lawful(pipe) && Keeps(pipe, w) && Fits(w, fx) && Reachable(pipe, w)
    ensures Reachable(pipe, Perform(pipe, env, w, fx, sent).0)
    decreases Rank(w), |w.ctx.queued|, Feeding(fx), |fx|
  {
    if fx != [] {
      match Feedback(env, fx[0]) {
        case None =>
          PerformIsWellFormed(pipe, env, w, fx[1..], if fx[0].SendCopy? then sent + [fx[0].branch] else sent);
        case Some(i) =>
          FeedbackStep(pipe, env, w, fx[0]);
          ReachNext(pipe, w, i);
          var inner := Perform(pipe, env, Next(pipe, w, i), OnInput(pipe, w.ctx, i).fx, sent);
          PerformIsWellFormed(pipe, env, Next(pipe, w, i), OnInput(pipe, w.ctx, i).fx, sent);
          PerformIsWellFormed(pipe, env, inner.0, fx[1..], inner.1);
      }
    }
  }

  // ------------------------------------------------------------------ no branch waits on nothing

  predicate CopiedIn(fx: seq<Effect>, id: BranchId) {
    exists e :: e in fx && e.SendCopy? && e.branch == id
  }

  /** Every live branch was really sent, or its copy is still to be performed. */
  ghost predicate Covered(bs: seq<Branch>, fx: seq<Effect>, sent: seq<BranchId>) {
    forall k :: 0 <= k < |bs| && IsLive(bs[k].state) ==> bs[k].id in sent || CopiedIn(fx, bs[k].id)
  }

  /** A step's new branches are among its copies. */
  lemma NewAreCopied(pipe: Pipeline, w: World, i: Input, k: nat)
    requires Keeps(pipe, w) && Keeps(pipe, Next(pipe, w, i))
    requires |w.ctx.branches| <= k < |Next(pipe, w, i).ctx.branches|
    ensures CopiedIn(OnInput(pipe, w.ctx, i).fx, Next(pipe, w, i).ctx.branches[k].id)
  {
    LaterCopies(w.ctx.branches, Next(pipe, w, i).ctx.branches, w.copies, OnInput(pipe, w.ctx, i).fx, k);
  }

  lemma {:induction false} LaterCopies(a: seq<Branch>, b: seq<Branch>, before: seq<Effect>, fx: seq<Effect>, k: nat)
    requires SameOrder(a, before) && SameOrder(b, before + CopiesIn(fx)) && |a| <= k < |b|
    ensures CopiedIn(fx, b[k].id)
  {
    var e := (before + CopiesIn(fx))[k];
    assert e == CopiesIn(fx)[k - |before|];
    CopiesAreIn(fx, e);
  }

  lemma {:induction false} CopiesAreIn(fx: seq<Effect>, e: Effect)
    requires e in CopiesIn(fx)
    ensures e in fx && e.SendCopy?
  {
    if fx != [] && !(fx[0].SendCopy? && e == fx[0]) {
      CopiesAreIn(fx[1..], e);
    }
  }

  /** What a feedback leaves live was live before, and is not the branch that failed. */
  lemma FeedbackLives(pipe: Pipeline, env: Surroundings, w: World, e: Effect, k: nat)
    requires Lawful(pipe) && Keeps(pipe, w) && Fits(w, [e]) && Feedback(env, e).Some?
    requires var bs := Next(pipe, w, Feedback(env, e).value).ctx.branches;
      k < |w.ctx.branches| && k < |bs| && IsLive(bs[k].state)
    ensures var bs := Next(pipe, w, Feedback(env, e).value).ctx.branches;
      IsLive(w.ctx.branches[k].state) && bs[k].id == w.ctx.branches[k].id && !(e.SendCopy? && e.branch == bs[k].id)
  {
    var c := w.ctx;
    assert e in [e];
    if e.SendCopy? && c.request.Some? && !c.finished && Knows(c.branches, e.branch) {
      HandlesEvent(pipe, c, BranchTransportError(e.branch));
      FailureLives(pipe, c, Classify(c, BranchTransportError(e.branch)), k);
    }
  }

  lemma FailureLives(pipe: Pipeline, c: Context, e: Event, k: nat)
    requires Lawful(pipe) && c.request.Some? && c.validated.Some? && e.Final? && (c.answered ==> c.queued == [])
    requires k < |c.branches| && k < |Handle(pipe, c, e).next.branches|
    ensures Handle(pipe, c, e).next.branches[k] == Recorded(c, e.branch, e.response).branches[k]
  {
    FinalFacts(pipe, c, e.branch, e.response);
    if ForksNext(c, e) {
      ForkShape(pipe, Recorded(c, e.branch, e.response));
    }
  }

  lemma StepCovers(pipe: Pipeline, env: Surroundings, w: World, e: Effect, rest: seq<Effect>, sent: seq<BranchId>)
    requires Lawful(pipe) && Keeps(pipe, w) && Fits(w, [e]) && Feedback(env, e).Some?
    requires Covered(w.ctx.branches, [e] + rest, sent)
    ensures var i := Feedback(env, e).value;
      Covered(Next(pipe, w, i).ctx.branches, OnInput(pipe, w.ctx, i).fx + rest, sent)
  {
    var i := Feedback(env, e).value;
    var fx := OnInput(pipe, w.ctx, i).fx;
    var bs := Next(pipe, w, i).ctx.branches;
    FeedbackStep(pipe, env, w, e);
    forall k | 0 <= k < |bs| && IsLive(bs[k].state)
      ensures bs[k].id in sent || CopiedIn(fx + rest, bs[k].id)
    {
      if k < |w.ctx.branches| {
        FeedbackLives(pipe, env, w, e, k);
        if bs[k].id !in sent {
          var s :| s in [e] + rest && s.SendCopy? && s.branch == bs[k].id;
          assert s in fx + rest;
        }
      } else {
        NewAreCopied(pipe, w, i, k);
        var s :| s in fx && s.SendCopy? && s.branch == bs[k].id;
        assert s in fx + rest;
      }
    }
  }

  /** An effect that is answered is performed with all the answer causes, and then the rest. */
  lemma {:induction false} PerformFed(pipe: Pipeline, env: Surroundings, w: World, fx: seq<Effect>, sent: seq<BranchId>)
    requires Lawful(pipe) && Keeps(pipe, w) && Fits(w, fx) && fx != [] && Feedback(env, fx[0]).Some?
    ensures var i := Feedback(env, fx[0]).value;
      var next, more := Next(pipe, w, i), OnInput(pipe, w.ctx, i).fx;
      && Keeps(pipe, next) && Fits(next, more) && Fits(Perform(pipe, env, next, more, sent).0, fx[1..])
      && Perform(pipe, env, w, fx, sent)
         == Perform(pipe, env, Perform(pipe, env, next, more, sent).0, fx[1..], Perform(pipe, env, next, more, sent).1)
  {
    FeedbackStep(pipe, env, w, fx[0]);
  }

  /** Performing covers every live branch, but for the copies someone else still has to perform. */
  lemma {:induction false} PerformCovers(
      pipe: Pipeline, env: Surroundings, w: World, fx: seq<Effect>, sent: seq<BranchId>, rest: seq<Effect>)
    requires Lawful(pipe) && Keeps(pipe, w) && Fits(w, fx) && Covered(w.ctx.branches, fx + rest, sent)
    ensures var r := Perform(pipe, env, w, fx, sent); Covered(r.0.ctx.branches, rest, r.1)
    decreases Rank(w), |w.ctx.queued|, Feeding(fx), |fx|
  {
    if fx == [] {
      assert fx + rest == rest;
    } else if Feedback(env, fx[0]).None? {
      assert fx + rest == [fx[0]] + (fx[1..] + rest);
      var more := if fx[0].SendCopy? then sent + [fx[0].branch] else sent;
      PassOver(w.ctx.branches, fx[0], fx[1..] + rest, sent, more);
      PerformCovers(pipe, env, w, fx[1..], more, rest);
    } else {
      var i := Feedback(env, fx[0]).value;
      var next, more := Next(pipe, w, i), OnInput(pipe, w.ctx, i).fx;
      FedCovers(pipe, env, w, fx, sent, rest);
      PerformCovers(pipe, env, next, more, sent, fx[1..] + rest);
      PerformFed(pipe, env, w, fx, sent);
      var inner := Perform(pipe, env, next, more, sent);
      PerformCovers(pipe, env, inner.0, fx[1..], inner.1, rest);
    }
  }

  lemma {:induction false} FedCovers(
      pipe: Pipeline, env: Surroundings, w: World, fx: seq<Effect>, sent: seq<BranchId>, rest: seq<Effect>)
    requires Lawful(pipe) && Keeps(pipe, w) && Fits(w, fx) && Covered(w.ctx.branches, fx + rest, sent)
    requires fx != [] && Feedback(env, fx[0]).Some?
    ensures var i := Feedback(env, fx[0]).value;
      var next, more := Next(pipe, w, i), OnInput(pipe, w.ctx, i).fx;
      && Keeps(pipe, next) && Fits(next, more) && Lowers(next, more, w) && Feeding(fx) == 1 + Feeding(fx[1..])
      && Covered(next.ctx.branches, more + (fx[1..] + rest), sent)
  {
    assert fx + rest == [fx[0]] + (fx[1..] + rest);
    FeedbackStep(pipe, env, w, fx[0]);
    StepCovers(pipe, env, w, fx[0], fx[1..] + rest, sent);
  }

  lemma PassOver(bs: seq<Branch>, e: Effect, rest: seq<Effect>, sent: seq<BranchId>, more: seq<BranchId>)
    requires Covered(bs, [e] + rest, sent) && more == if e.SendCopy? then sent + [e.branch] else sent
    ensures Covered(bs, rest, more)
  {
    forall k | 0 <= k < |bs| && IsLive(bs[k].state)
      ensures bs[k].id in more || CopiedIn(rest, bs[k].id)
    {
      if bs[k].id !in more {
        var s :| s in [e] + rest && s.SendCopy? && s.branch == bs[k].id;
        assert s in rest;
      }
    }
  }

  /** A branch is sent only if its next hop has an address. */
  lemma {:induction false} UnaddressableNeverSent(pipe: Pipeline, env: Surroundings, w: World, fx: seq<Effect>, sent: seq<BranchId>)
    requires Lawful(pipe) && Keeps(pipe, w) && Fits(w, fx) && forall hop :: !env.addressable(hop)
    ensures Perform(pipe, env, w, fx, sent).1 == sent
    decreases Rank(w), |w.ctx.queued|, Feeding(fx), |fx|
  {
    if fx != [] && Feedback(env, fx[0]).Some? {
      var i := Feedback(env, fx[0]).value;
      FeedbackStep(pipe, env, w, fx[0]);
      UnaddressableNeverSent(pipe, env, Next(pipe, w, i), OnInput(pipe, w.ctx, i).fx, sent);
      var inner := Perform(pipe, env, Next(pipe, w, i), OnInput(pipe, w.ctx, i).fx, sent);
      UnaddressableNeverSent(pipe, env, inner.0, fx[1..], inner.1);
    } else if fx != [] {
      UnaddressableNeverSent(pipe, env, w, fx[1..], sent);
    }
  }

  // ------------------------------------------------------------------ serving a request

  lemma ArrivalFits(pipe: Pipeline, r: Request)
    requires Lawful(pipe)
    ensures var w := Next(pipe, START, Upstream(r));
      var fx := OnInput(pipe, START.ctx, Upstream(r)).fx;
      Keeps(pipe, w) && Fits(w, fx) && Covered(w.ctx.branches, fx, [])
  {
    var i := Upstream(r);
    var w := Next(pipe, START, i);
    ReachStart(pipe, r);
    ReachableKeeps(pipe, START);
    ReachableKeeps(pipe, w);
    if pipe.validate(r).Ok? {
      var c := INITIAL.(request := Some(pipe.preprocess(r).0), validated := Some(pipe.validate(r).value));
      RouteAsks(pipe, c);
    }
    forall k | 0 <= k < |w.ctx.branches| && IsLive(w.ctx.branches[k].state)
      ensures CopiedIn(OnInput(pipe, START.ctx, i).fx, w.ctx.branches[k].id)
    {
      NewAreCopied(pipe, START, i, k);
    }
  }

  /** What serving one request comes to before the first branch event. */
  function Serve(pipe: Pipeline, env: Surroundings, r: Request): (served: (World, seq<BranchId>))
    requires Lawful(pipe)
    ensures Keeps(pipe, served.0)
  {
    ArrivalFits(pipe, r);
    Perform(pipe, env, Next(pipe, START, Upstream(r)), OnInput(pipe, START.ctx, Upstream(r)).fx, [])
  }

  /**
   * Serving a request is a well-formed run, no branch waits on a request that was never sent, and once
   * targets that build were delivered some branch is waiting or the context has answered.
   */
  lemma ServeLeavesNoOrphan(pipe: Pipeline, env: Surroundings, r: Request)
    requires Lawful(pipe)
    ensures var (w, sent) := Serve(pipe, env, r);
      && Reachable(pipe, w) && Covered(w.ctx.branches, [], sent)
      && (KeepsTrying(w) ==> w.ctx.answered || HasLive(w.ctx.branches))
  {
    var w := Next(pipe, START, Upstream(r));
    var fx := OnInput(pipe, START.ctx, Upstream(r)).fx;
    ArrivalFits(pipe, r);
    ReachStart(pipe, r);
    PerformIsWellFormed(pipe, env, w, fx, []);
    assert fx + [] == fx;
    PerformCovers(pipe, env, w, fx, [], []);
  }

  /** Even if no next hop has an address, the recursion ends with every branch concluded and the request answered. */
  lemma {:induction false} UnaddressableStillAnswers(pipe: Pipeline, env: Surroundings, r: Request)
    requires Lawful(pipe) && forall hop :: !env.addressable(hop)
    ensures var (w, sent) := Serve(pipe, env, r);
      && sent == [] && !HasLive(w.ctx.branches)
      && (KeepsTrying(w) ==> exists inputs :: WellFormed(pipe, inputs) && Run(pipe, inputs) == w && FinalSentBy(pipe, inputs, |inputs|))
  {
    ServeLeavesNoOrphan(pipe, env, r);
    ArrivalFits(pipe, r);
    UnaddressableNeverSent(pipe, env, Next(pipe, START, Upstream(r)), OnInput(pipe, START.ctx, Upstream(r)).fx, []);
    var (w, _) := Serve(pipe, env, r);
    if KeepsTrying(w) {
      var inputs :| WellFormed(pipe, inputs) && Run(pipe, inputs) == w;
      AnsweredWasSent(pipe, inputs);
    }
  }

  // ------------------------------------------------------------------ listening to the branches

  /** What a branch's stream yields: a response, or its failure when it breaks or ends. */
  predicate FromBranch(i: Input) { i.BranchResponse? || i.BranchTransportError? }

  lemma {:induction false} ReleasesLive(bs: seq<Branch>, id: BranchId)
    requires Releases(bs, id)
    ensures IsLiveId(bs, id)
  {
    var last := bs[|bs| - 1];
    if !(last.id == id && last.state.Pending?) {
      ReleasesLive(bs[..|bs| - 1], id);
      var i :| 0 <= i < |bs| - 1 && bs[..|bs| - 1][i].id == id && IsLive(bs[..|bs| - 1][i].state);
      assert bs[i].id == id;
    }
  }

  lemma SweepLives(bs: seq<Branch>, k: nat)
    requires k < |bs| && IsLive(Swept(bs)[k].state)
    ensures IsLiveId(bs, bs[k].id)
  {
    PendingIdsFacts(bs);
    if bs[k].id in PendingIds(bs) {
      var i :| 0 <= i < |bs| && bs[i].id == bs[k].id && bs[i].state.Pending?;
      assert IsLive(bs[i].state);
    }
  }

  lemma ConcludedLives(bs: seq<Branch>, branch: BranchId, status: Status, id: BranchId)
    requires IsLiveId(ConcludeAll(bs, branch, status), id)
    ensures IsLiveId(bs, id)
  {
    var i :| 0 <= i < |bs| && ConcludeAll(bs, branch, status)[i].id == id && IsLive(ConcludeAll(bs, branch, status)[i].state);
    assert bs[i].id == id && IsLive(bs[i].state);
  }

  lemma EndLives(bs: seq<Branch>, branch: BranchId, status: Status, k: nat)
    requires k < |bs| && IsLive(Swept(ConcludeAll(bs, branch, status))[k].state)
    ensures IsLiveId(bs, bs[k].id)
  {
    SweepLives(ConcludeAll(bs, branch, status), k);
    ConcludedLives(bs, branch, status, bs[k].id);
  }

  lemma {:induction false} EarlyLives(bs: seq<Branch>, branch: BranchId, k: nat)
    requires k < |bs|
    requires IsLive((if Releases(bs, branch) then SetCancelling(MarkProvisional(bs, branch), branch) else MarkProvisional(bs, branch))[k].state)
    ensures IsLiveId(bs, bs[k].id)
  {
    if Releases(bs, branch) { ReleasesLive(bs, branch); }
  }

  /** No response brings a branch back to life. */
  lemma EventLives(pipe: Pipeline, c: Context, e: Event, k: nat)
    requires Lawful(pipe) && c.request.Some? && c.validated.Some? && (c.answered ==> c.queued == [])
    requires e.Ignored? || e.Early? || e.Final? || e.Accepted? || e.Rejected?
    requires k < |c.branches| && k < |Handle(pipe, c, e).next.branches| && IsLive(Handle(pipe, c, e).next.branches[k].state)
    ensures Handle(pipe, c, e).next.branches[k].id == c.branches[k].id && IsLiveId(c.branches, c.branches[k].id)
  {
    EventPlaces(pipe, c, e);
    match e {
      case Final(branch, response) => FailureLives(pipe, c, e, k);
      case Accepted(branch, response) =>
        AcceptFacts(pipe, c, branch, response);
        EndLives(c.branches, branch, response.status, k);
      case Rejected(branch, response) =>
        RejectFacts(pipe, c, branch, response);
        EndLives(c.branches, branch, response.status, k);
      case Early(branch, response) =>
        EarlyFacts(pipe, c, branch, response);
        EarlyLives(c.branches, branch, k);
      case _ =>
    }
  }

  lemma StreamKinds(c: Context, i: Input)
    requires FromBranch(i) && c.request.Some?
    ensures var e := Classify(c, i); e.Ignored? || e.Early? || e.Final? || e.Accepted? || e.Rejected?
  {
  }

  lemma EventFits(pipe: Pipeline, w: World, i: Input)
    requires Lawful(pipe) && Keeps(pipe, w) && FromBranch(i)
    ensures NoAsks(OnInput(pipe, w.ctx, i).fx) && Keeps(pipe, Next(pipe, w, i))
  {
    var c := w.ctx;
    KeepStep(pipe, w, i);
    if c.request.Some? {
      var e := Classify(c, i);
      HandlesEvent(pipe, c, i);
      StreamKinds(c, i);
      if e.Final? {
        EventNoAsks(pipe, c, e);
      } else {
        EndNoAsks(pipe, c, e);
      }
    } else {
      assert c.branches == [];
    }
  }

  lemma RespondNoAsks(response: Response, ids: seq<BranchId>, tail: seq<Effect>)
    requires NoAsks(tail)
    ensures NoAsks([Respond(response)] + CancelFx(ids) + tail)
  {
    assert NoAsks(CancelFx(ids));
  }

  lemma EndNoAsks(pipe: Pipeline, c: Context, e: Event)
    requires c.request.Some? && (e.Ignored? || e.Early? || e.Accepted? || e.Rejected?)
    ensures NoAsks(Handle(pipe, c, e).fx)
  {
    match e {
      case Accepted(branch, response) =>
        AcceptFacts(pipe, c, branch, response);
        RespondNoAsks(PopVia(response), PendingIds(ConcludeAll(c.branches, branch, response.status)), []);
      case Rejected(branch, response) =>
        RejectFacts(pipe, c, branch, response);
        RespondNoAsks(PopVia(response), PendingIds(Recorded(c, branch, response).branches), []);
        RespondNoAsks(PopVia(response), PendingIds(Recorded(c, branch, response).branches), [Terminate]);
      case _ =>
    }
  }

  lemma EventCovers(pipe: Pipeline, w: World, i: Input, sent: seq<BranchId>)
    requires Lawful(pipe) && Keeps(pipe, w) && FromBranch(i) && Covered(w.ctx.branches, [], sent)
    ensures Covered(Next(pipe, w, i).ctx.branches, OnInput(pipe, w.ctx, i).fx, sent)
  {
    var bs := Next(pipe, w, i).ctx.branches;
    EventFits(pipe, w, i);
    forall k | 0 <= k < |bs| && IsLive(bs[k].state)
      ensures bs[k].id in sent || CopiedIn(OnInput(pipe, w.ctx, i).fx, bs[k].id)
    {
      if k >= |w.ctx.branches| {
        NewAreCopied(pipe, w, i, k);
      } else {
        HandlesEvent(pipe, w.ctx, i);
        StreamKinds(w.ctx, i);
        EventLives(pipe, w.ctx, Classify(w.ctx, i), k);
        var j :| 0 <= j < |w.ctx.branches| && w.ctx.branches[j].id == bs[k].id && IsLive(w.ctx.branches[j].state);
        assert !CopiedIn([], bs[k].id);
      }
    }
  }

  /** Feed the branches' events one at a time, performing each one's effects, until the context is finished. */
  function Listen(pipe: Pipeline, env: Surroundings, w: World, sent: seq<BranchId>, events: seq<Input>): (r: (World, seq<BranchId>))
    requires Lawful(pipe) && Keeps(pipe, w) && forall k :: 0 <= k < |events| ==> FromBranch(events[k])
    ensures Keeps(pipe, r.0)
    decreases |events|
  {
    if events == [] || w.ctx.finished then (w, sent)
    else
      EventFits(pipe, w, events[0]);
      var r := Perform(pipe, env, Next(pipe, w, events[0]), OnInput(pipe, w.ctx, events[0]).fx, sent);
      Listen(pipe, env, r.0, r.1, events[1..])
  }

  /** However the branches' events interleave, no branch ever waits on a request that was never sent. */
  lemma {:induction false} ListenLeavesNoOrphan(pipe: Pipeline, env: Surroundings, w: World, sent: seq<BranchId>, events: seq<Input>)
    requires Lawful(pipe) && Keeps(pipe, w) && forall k :: 0 <= k < |events| ==> FromBranch(events[k])
    requires Reachable(pipe, w) && Covered(w.ctx.branches, [], sent)
    ensures var r := Listen(pipe, env, w, sent, events); Reachable(pipe, r.0) && Covered(r.0.ctx.branches, [], r.1)
    decreases |events|
  {
    if events != [] && !w.ctx.finished {
      var i := events[0];
      var next, fx := Next(pipe, w, i), OnInput(pipe, w.ctx, i).fx;
      EventFits(pipe, w, i);
      EventCovers(pipe, w, i, sent);
      ReachNext(pipe, w, i);
      assert fx + [] == fx;
      PerformCovers(pipe, env, next, fx, sent, []);
      PerformIsWellFormed(pipe, env, next, fx, sent);
      var r := Perform(pipe, env, next, fx, sent);
      ListenLeavesNoOrphan(pipe, env, r.0, r.1, events[1..]);
    }
  }

  // ------------------------------------------------------------------ on the object

  /** What one effect of the list comes to. */
  function PerformOne(pipe: Pipeline, env: Surroundings, w: World, e: Effect, sent: seq<BranchId>): (r: (World, seq<BranchId>))
    requires Lawful(pipe) && Keeps(pipe, w) && Fits(w, [e])
    ensures Keeps(pipe, r.0) && NoHigher(r.0, w)
  {
    match Feedback(env, e)
    case None => (w, if e.SendCopy? then sent + [e.branch] else sent)
    case Some(i) =>
      FeedbackStep(pipe, env, w, e);
      Perform(pipe, env, Next(pipe, w, i), OnInput(pipe, w.ctx, i).fx, sent)
  }

  /** One round of the loop over effects. */
  lemma {:induction false} PerformRound(pipe: Pipeline, env: Surroundings, w: World, fx: seq<Effect>, k: nat, sent: seq<BranchId>)
    requires Lawful(pipe) && Keeps(pipe, w) && k < |fx| && Fits(w, fx[k..])
    ensures Fits(w, [fx[k]]) && Feeding([fx[k]]) + Feeding(fx[k + 1..]) == Feeding(fx[k..])
    ensures var one := PerformOne(pipe, env, w, fx[k], sent);
      Fits(one.0, fx[k + 1..]) && Perform(pipe, env, w, fx[k..], sent) == Perform(pipe, env, one.0, fx[k + 1..], one.1)
  {
    assert fx[k..] == [fx[k]] + fx[k + 1..];
    if Feedback(env, fx[k]).Some? {
      FeedbackStep(pipe, env, w, fx[k]);
    }
  }

  /** The loop over effects as the driver runs it on a context object. */
  method PerformAll(context: ResponseContext, env: Surroundings, ghost w: World, fx: seq<Effect>, sent: seq<BranchId>)
      returns (ghost after: World, pending: seq<BranchId>)
    requires Lawful(context.pipe) && Keeps(context.pipe, w) && Fits(w, fx) && context.View() == w.ctx
    modifies context
    ensures (after, pending) == Perform(context.pipe, env, w, fx, sent)
    ensures context.View() == after.ctx
    decreases Rank(w), |w.ctx.queued|, Feeding(fx), 1
  {
    ghost var whole := Perform(context.pipe, env, w, fx, sent);
    after := w;
    pending := sent;
    for k := 0 to |fx|
      invariant Keeps(context.pipe, after) && Fits(after, fx[k..]) && context.View() == after.ctx
      invariant NoHigher(after, w) && Feeding(fx[k..]) <= Feeding(fx)
      invariant Perform(context.pipe, env, after, fx[k..], pending) == whole
    {
      PerformRound(context.pipe, env, after, fx, k, pending);
      after, pending := PerformEffect(context, env, after, fx[k], pending);
    }
  }

  /** One effect: a copy that goes out is remembered, and an answer goes back in with all it causes. */
  method PerformEffect(context: ResponseContext, env: Surroundings, ghost w: World, e: Effect, sent: seq<BranchId>)
      returns (ghost after: World, pending: seq<BranchId>)
    requires Lawful(context.pipe) && Keeps(context.pipe, w) && Fits(w, [e]) && context.View() == w.ctx
    modifies context
    ensures (after, pending) == PerformOne(context.pipe, env, w, e, sent)
    ensures context.View() == after.ctx
    decreases Rank(w), |w.ctx.queued|, Feeding([e]), 0
  {
    var back := Feedback(env, e);
    if back.None? {
      after := w;
      pending := if e.SendCopy? then sent + [e.branch] else sent;
    } else {
      FeedbackStep(context.pipe, env, w, e);
      ghost var next := Next(context.pipe, w, back.value);
      var more := context.Handle(back.value);
      after, pending := PerformAll(context, env, next, more, sent);
    }
  }
}
