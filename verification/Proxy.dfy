/** The pipeline and the response context put together, and the two ways a request can enter. */
module Proxy {
  import opened Basics
  import opened Messages
  import opened ProxyConfig
  import opened Cookie
  import opened Validation
  import opened Routing
  import opened Forwarding
  import opened AckRouting
  import opened ContextModel
  import opened ContextRuns
  import opened ContextFacts
  import opened ContextTargets
  import opened ContextIds
  import opened ContextTheorems

  function PipelineOf(cfg: Config): Pipeline {
    Pipeline((r: Request) => Validate(r, cfg), (r: Request) => Preprocessed(r, cfg),
             (plan: ForwardPlan) => Forward(plan, cfg), (input: CookieInput, index: nat) => BranchFor(cfg, input, index),
             EffectiveTimerC(cfg))
  }

  /** Everything proved of lawful pipelines holds of the real one. */
  lemma PipelineIsLawful(cfg: Config)
    ensures Lawful(PipelineOf(cfg))
  {
    var pipe := PipelineOf(cfg);
    forall plan: ForwardPlan
      ensures pipe.build(plan) == Forward(plan, cfg)
      ensures pipe.build(plan).Ok? <==> Buildable(plan.target, plan.recordRoute, plan.tokens)
      ensures pipe.build(plan).Ok? ==>
        && pipe.build(plan).value.branch == pipe.branchOf(plan.validated.cookieInput, plan.index)
        && pipe.build(plan).value.request.maxBreadth == Some(BreadthShare(plan.validated.maxBreadth, plan.parallelBranches))
    {
      ForwardFacts(plan, cfg);
    }
  }

  /** A MAC that does not collide on one request's forks makes the plan's branches distinct. */
  lemma MacGivesBranches(cfg: Config, input: CookieInput, indices: seq<nat>, forks: nat)
    requires IdealMac(cfg, input, forks) && forall i :: 0 <= i < |indices| ==> indices[i] < forks
    ensures IdealBranches(PipelineOf(cfg), input, indices)
  {
    forall i, j | 0 <= i < |indices| && 0 <= j < |indices| && indices[i] != indices[j]
      ensures PipelineOf(cfg).branchOf(input, indices[i]) != PipelineOf(cfg).branchOf(input, indices[j])
    {
      BranchesDistinct(cfg, input, forks, indices[i], indices[j]);
    }
  }

  // ------------------------------------------------------------------ no copy before a verdict

  /** The request's token is not yet, or will never be, vouched for. */
  predicate Gated(w: World) {
    w.copies == [] && w.ctx.branches == [] && w.ctx.queued == [] && !w.asked && (w.ctx.awaitingVerdict || w.ctx.finished)
  }

  lemma GateHolds(pipe: Pipeline, w: World, i: Input)
    requires Barred(w) && Admissible(w, i)
    requires i.TokenFact? ==> !i.verdict.Valid?
    ensures Barred(Next(pipe, w, i))
  {
    if IsBranchEvent(i) {
      assert CancelEach([], []) == ([], []);
    }
    NoCopies(OnInput(pipe, w.ctx, i).fx);
  }

  lemma GateCloses(pipe: Pipeline, w: World, r: Request)
    requires Keeps(pipe, w) && !w.started && !w.ctx.finished && pipe.validate(r).Ok? && pipe.preprocess(r).1.Some?
    ensures Barred(Next(pipe, w, Upstream(r)))
  {
    NoCopies(OnInput(pipe, w.ctx, Upstream(r)).fx);
  }

  /** After how many inputs the request waits for a verdict, or will never have one. */
  ghost function GatedBy(pipe: Pipeline, inputs: seq<Input>): nat -> bool {
    (n: nat) => n <= |inputs| && Barred(Run(pipe, inputs[..n]))
  }

  predicate Barred(w: World) { Gated(w) && w.started && w.ctx.request.Some? }

  lemma GateAt(pipe: Pipeline, inputs: seq<Input>, n: nat)
    requires Lawful(pipe) && WellFormed(pipe, inputs) && n < |inputs| && GatedBy(pipe, inputs)(n)
    requires inputs[n].TokenFact? ==> !inputs[n].verdict.Valid?
    ensures GatedBy(pipe, inputs)(n + 1)
  {
    StepAt(pipe, inputs, n);
    GateHolds(pipe, Run(pipe, inputs[..n]), inputs[n]);
  }

  lemma GateStays(pipe: Pipeline, inputs: seq<Input>, j: nat, k: nat)
    requires Lawful(pipe) && WellFormed(pipe, inputs) && j <= k <= |inputs| && GatedBy(pipe, inputs)(j)
    requires forall n :: j <= n < k && inputs[n].TokenFact? ==> !inputs[n].verdict.Valid?
    ensures GatedBy(pipe, inputs)(k)
  {
    forall n | j <= n < k && GatedBy(pipe, inputs)(n) ensures GatedBy(pipe, inputs)(n + 1) {
      GateAt(pipe, inputs, n);
    }
    Onwards(GatedBy(pipe, inputs), j, k);
  }

  lemma {:induction false} GateClosesAt(pipe: Pipeline, inputs: seq<Input>, j: nat)
    requires Lawful(pipe) && WellFormed(pipe, inputs) && j < |inputs| && inputs[j].Upstream?
    requires pipe.preprocess(inputs[j].arrival).1.Some? && pipe.validate(inputs[j].arrival).Ok?
    requires !Run(pipe, inputs[..j]).ctx.finished
    ensures GatedBy(pipe, inputs)(j + 1)
  {
    StepAt(pipe, inputs, j);
    GateCloses(pipe, Run(pipe, inputs[..j]), inputs[j].arrival);
  }

  /** In every run of a token-carrying request, no copy is sent before a `Valid` verdict. */
  lemma {:induction false} NoCopyBeforeVerdict(pipe: Pipeline, inputs: seq<Input>, j: nat, k: nat)
    requires Lawful(pipe) && WellFormed(pipe, inputs) && j < k <= |inputs|
    requires inputs[j].Upstream? && pipe.preprocess(inputs[j].arrival).1.Some?
    requires !Run(pipe, inputs[..j]).ctx.finished && pipe.validate(inputs[j].arrival).Ok?
    requires forall n :: j < n < k && inputs[n].TokenFact? ==> !inputs[n].verdict.Valid?
    ensures Run(pipe, inputs[..k]).copies == []
  {
    GateClosesAt(pipe, inputs, j);
    GateStays(pipe, inputs, j + 1, k);
  }

  // ------------------------------------------------------------------ two entry points

  /** A context given one request, the tokens minted for it if any, and the verdict on its token if there is one. */
  function Arrival(tokens: Option<RecordRouteTokens>, r: Request, verdict: Option<TokenVerdict>): seq<Input> {
    (if tokens.Some? then [TokensMinted(tokens.value)] else [])
    + [Upstream(r)]
    + (if verdict.Some? then [TokenFact(verdict.value)] else [])
  }

  /** What a context would forward, seen as the `ACK` path reports it. */
  predicate SameCopies(copies: seq<Effect>, route: AckRoute) {
    match route
    case AckForward(request, nextHop) =>
      |copies| == 1 && copies[0].SendCopy? && copies[0].request == request && copies[0].nextHop == nextHop
    case _ => copies == []
  }

  /** An in-dialog request's only fork is the copy the `ACK` path builds. */
  lemma SoleCopy(cfg: Config, c: Context, request: Request, validated: Validated)
    requires c.request == Some(request) && c.validated == Some(validated) && IsInDialog(request)
    requires c.branches == [] && c.queued == []
    ensures var fx := RouteIt(PipelineOf(cfg), c).fx;
      match Forward(AckPlan(request, validated), cfg)
      case Ok(copy) => CopiesIn(fx) == [SendCopy(copy.branch, copy.request, PredeterminedTarget(request), copy.nextHop)]
      case Err(_) => CopiesIn(fx) == []
  {
    var pipe := PipelineOf(cfg);
    var sole := [PredeterminedTarget(request)];
    SoleSort(sole[0]);
    var plan := GroupPlan(c, sole);
    assert GroupSize(sole, validated.maxBreadth) == 1;
    assert sole[..1] == sole && sole[1..] == [];
    SamePlan(plan, AckPlan(request, validated), cfg);
    SoleFork(cfg, plan);
  }

  /** Tokens matter only to a copy that gets a `Record-Route`. */
  lemma SamePlan(a: ForwardPlan, b: ForwardPlan, cfg: Config)
    requires !a.recordRoute && a == b.(tokens := a.tokens)
    ensures Forward(a, cfg) == Forward(b, cfg)
  {
  }

  lemma {:induction false} SoleFork(cfg: Config, plan: ForwardPlan)
    ensures var (bs, fx) := ForkCopies(PipelineOf(cfg), plan, [plan.target], plan.index);
      match Forward(plan, cfg)
      case Ok(copy) => |bs| == 1 && CopiesIn(fx) == [SendCopy(copy.branch, copy.request, plan.target, copy.nextHop)]
      case Err(_) => bs == [] && CopiesIn(fx) == []
  {
    var pipe := PipelineOf(cfg);
    assert plan.(target := plan.target, index := plan.index) == plan;
    assert [plan.target][1..] == [];
    assert ForkCopies(pipe, plan, [], plan.index + 1) == ([], []);
    if Forward(plan, cfg).Ok? {
      OneCopy(pipe, plan, [plan.target], plan.index);
    }
  }

  /** The context as it is when the request arrives. */
  function Awaiting(tokens: Option<RecordRouteTokens>): World { START.(ctx := INITIAL.(tokens := tokens)) }

  /** The run of an arrival, one input after the other. */
  function Arrived(pipe: Pipeline, tokens: Option<RecordRouteTokens>, r: Request, verdict: Option<TokenVerdict>): World {
    var w := Next(pipe, Awaiting(tokens), Upstream(r));
    if verdict.Some? then Next(pipe, w, TokenFact(verdict.value)) else w
  }

  lemma Started(pipe: Pipeline, tokens: Option<RecordRouteTokens>)
    ensures var first := if tokens.Some? then [TokensMinted(tokens.value)] else [];
      WellFormed(pipe, first) && Run(pipe, first) == Awaiting(tokens)
  {
    assert WellFormed(pipe, []) && Run(pipe, []) == START;
    if tokens.Some? {
      RunSnoc(pipe, [], TokensMinted(tokens.value));
      assert [] + [TokensMinted(tokens.value)] == [TokensMinted(tokens.value)];
    }
  }

  lemma {:induction false} ArrivalRun(pipe: Pipeline, tokens: Option<RecordRouteTokens>, r: Request, verdict: Option<TokenVerdict>)
    ensures WellFormed(pipe, Arrival(tokens, r, verdict))
    ensures Run(pipe, Arrival(tokens, r, verdict)) == Arrived(pipe, tokens, r, verdict)
  {
    var first := if tokens.Some? then [TokensMinted(tokens.value)] else [];
    Started(pipe, tokens);
    RunSnoc(pipe, first, Upstream(r));
    if verdict.Some? {
      RunSnoc(pipe, first + [Upstream(r)], TokenFact(verdict.value));
      assert Arrival(tokens, r, verdict) == first + [Upstream(r)] + [TokenFact(verdict.value)];
    } else {
      assert Arrival(tokens, r, verdict) == first + [Upstream(r)];
    }
  }

  /** The context once it holds a validated, preprocessed request. */
  function Holding(pipe: Pipeline, tokens: Option<RecordRouteTokens>, r: Request): Context
    requires pipe.validate(r).Ok?
  {
    INITIAL.(tokens := tokens, request := Some(pipe.preprocess(r).0), validated := Some(pipe.validate(r).value))
  }

  lemma RefusedCopies(pipe: Pipeline, tokens: Option<RecordRouteTokens>, r: Request)
    requires pipe.validate(r).Err?
    ensures var w := Next(pipe, Awaiting(tokens), Upstream(r)); w.copies == [] && !w.ctx.awaitingVerdict
  {
    NoCopies(OnUpstream(pipe, INITIAL.(tokens := tokens), r).fx);
  }

  lemma CarriedCopies(pipe: Pipeline, tokens: Option<RecordRouteTokens>, r: Request)
    requires pipe.validate(r).Ok? && pipe.preprocess(r).1.Some?
    ensures var w := Next(pipe, Awaiting(tokens), Upstream(r));
      w.copies == [] && w.ctx == Holding(pipe, tokens, r).(awaitingVerdict := true)
  {
    NoCopies(OnUpstream(pipe, INITIAL.(tokens := tokens), r).fx);
  }

  lemma RoutedCopies(pipe: Pipeline, tokens: Option<RecordRouteTokens>, r: Request)
    requires pipe.validate(r).Ok? && pipe.preprocess(r).1.None?
    ensures var w := Next(pipe, Awaiting(tokens), Upstream(r));
      w.copies == CopiesIn(RouteIt(pipe, Holding(pipe, tokens, r)).fx) && !w.ctx.awaitingVerdict
  {
    RouteItShape(pipe, Holding(pipe, tokens, r));
  }

  lemma VerdictCopies(pipe: Pipeline, w: World, tokens: Option<RecordRouteTokens>, r: Request, verdict: TokenVerdict)
    requires pipe.validate(r).Ok? && w.ctx == Holding(pipe, tokens, r).(awaitingVerdict := true) && w.copies == []
    ensures Next(pipe, w, TokenFact(verdict)).copies
      == if verdict.Valid? then CopiesIn(RouteIt(pipe, Holding(pipe, tokens, r)).fx) else []
  {
    assert w.ctx.(awaitingVerdict := false) == Holding(pipe, tokens, r);
    if verdict.Invalid? {
      NoCopies(OnToken(pipe, w.ctx, verdict).fx);
    }
  }

  lemma StrayVerdict(pipe: Pipeline, w: World, verdict: TokenVerdict)
    requires !w.ctx.awaitingVerdict
    ensures Next(pipe, w, TokenFact(verdict)).copies == w.copies
  {
    assert CopiesIn([]) == [] && w.copies + [] == w.copies;
  }

  /** What a run of one arrival forwards: nothing, or what target determination forwards. */
  lemma ArrivalCopies(pipe: Pipeline, tokens: Option<RecordRouteTokens>, r: Request, verdict: Option<TokenVerdict>)
    ensures Arrived(pipe, tokens, r, verdict).copies
      == if pipe.validate(r).Ok? && (pipe.preprocess(r).1.Some? ==> verdict.Some? && verdict.value.Valid?)
         then CopiesIn(RouteIt(pipe, Holding(pipe, tokens, r)).fx) else []
  {
    var w := Next(pipe, Awaiting(tokens), Upstream(r));
    if pipe.validate(r).Err? {
      RefusedCopies(pipe, tokens, r);
    } else if pipe.preprocess(r).1.None? {
      RoutedCopies(pipe, tokens, r);
    } else {
      CarriedCopies(pipe, tokens, r);
    }
    if verdict.Some? && w.ctx.awaitingVerdict {
      VerdictCopies(pipe, w, tokens, r, verdict.value);
    } else if verdict.Some? {
      StrayVerdict(pipe, w, verdict.value);
    }
  }

  /** An in-dialog arrival's copies, in terms of the forwarding pipeline alone. */
  lemma InDialogCopies(cfg: Config, tokens: Option<RecordRouteTokens>, r: Request, verdict: Option<TokenVerdict>)
    requires IsInDialog(r)
    ensures SameCopies(Arrived(PipelineOf(cfg), tokens, r, verdict).copies, RouteAck(r, cfg, verdict))
  {
    var pipe := PipelineOf(cfg);
    ArrivalCopies(pipe, tokens, r, verdict);
    if Validate(r, cfg).Ok? {
      var c := Holding(pipe, tokens, r);
      SoleCopy(cfg, c, Preprocessed(r, cfg).0, Validate(r, cfg).value);
      AckCopies(cfg, r, verdict, Arrived(pipe, tokens, r, verdict).copies, CopiesIn(RouteIt(pipe, c).fx));
    } else {
      assert pipe.validate(r).Err?;
    }
  }

  lemma AckCopies(cfg: Config, r: Request, verdict: Option<TokenVerdict>, copies: seq<Effect>, routed: seq<Effect>)
    requires Validate(r, cfg).Ok?
    requires copies == if Preprocessed(r, cfg).1.Some? ==> verdict.Some? && verdict.value.Valid? then routed else []
    requires SameCopies(routed, Built(Forward(AckPlan(Preprocessed(r, cfg).0, Validate(r, cfg).value), cfg)))
    ensures SameCopies(copies, RouteAck(r, cfg, verdict))
  {
    AckIsBuilt(cfg, r, verdict);
  }

  /**
   * The two entry points agree: for every request with a `To` tag and the same verdict, the `ACK` path
   * and a response context forward the same copy to the same next hop, or neither forwards anything. One that
   * carries a token is forwarded by either only on a `Valid` verdict.
   */
  lemma EntryPointsAgree(cfg: Config, tokens: Option<RecordRouteTokens>, r: Request, verdict: Option<TokenVerdict>)
    requires IsInDialog(r)
    ensures WellFormed(PipelineOf(cfg), Arrival(tokens, r, verdict))
    ensures SameCopies(Run(PipelineOf(cfg), Arrival(tokens, r, verdict)).copies, RouteAck(r, cfg, verdict))
    ensures Preprocessed(r, cfg).1.Some? && !(verdict.Some? && verdict.value.Valid?) ==>
      Run(PipelineOf(cfg), Arrival(tokens, r, verdict)).copies == [] && !RouteAck(r, cfg, verdict).AckForward?
  {
    ArrivalRun(PipelineOf(cfg), tokens, r, verdict);
    InDialogCopies(cfg, tokens, r, verdict);
    if Validate(r, cfg).Ok? {
      AckIsBuilt(cfg, r, verdict);
    }
  }
}
