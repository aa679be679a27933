/**
 * Whole runs of a response context under a well-formed driver: the request arrives once, targets arrive
 * only as the answer to an outstanding question, and everything else arrives in any order.
 */
module ContextRuns {
  import opened Basics
  import opened Messages
  import opened Routing
  import opened Forwarding
  import opened ContextModel

  /**
   * A context with what its driver knows and what the run has shown: the targets delivered, whether the
   * target set was closed early, the copies and cancels emitted, and the branches that sent a 101-199.
   */
  datatype World = World(
    ctx: Context, started: bool, asked: bool, resolved: Option<seq<Target>>, closed: bool,
    heard: set<BranchId>, copies: seq<Effect>, cancels: seq<BranchId>)

  const START := World(INITIAL, false, false, None, false, {}, [], [])

  predicate Admissible(w: World, i: Input) {
    match i
    case Upstream(_) => !w.started
    case TokensMinted(_) => !w.started
    case TargetsResolved(_) => w.asked
    case TargetsUnavailable => w.asked
    case _ => true
  }

  function CopiesIn(fx: seq<Effect>): seq<Effect> {
    if fx == [] then [] else (if fx[0].SendCopy? then [fx[0]] else []) + CopiesIn(fx[1..])
  }

  function CancelsIn(fx: seq<Effect>): seq<BranchId> {
    if fx == [] then [] else (if fx[0].CancelBranch? then [fx[0].branch] else []) + CancelsIn(fx[1..])
  }

  predicate Asks(fx: seq<Effect>) { fx != [] && fx[0].ResolveTargets? }

  /** A response that ends the whole target set: a 2xx to an INVITE, or any 6xx. */
  predicate EndsTargetSet(c: Context, r: Response) {
    r.status / 100 == 6 || (r.status / 100 == 2 && c.request.Some? && c.request.value.verb.Invite?)
  }

  predicate SendsEnd(c: Context, fx: seq<Effect>) {
    fx != [] && fx[0].Respond? && EndsTargetSet(c, fx[0].response)
  }

  function Delivered(w: World, i: Input, out: Out): Option<seq<Target>> {
    if w.resolved.Some? || w.ctx.finished then w.resolved
    else if i.TargetsResolved? then Some(i.targets)
    else if out.next.branches != [] && out.next.request.Some? then Some([PredeterminedTarget(out.next.request.value)])
    else None
  }

  predicate IsEarlyMedia(r: Response) { 100 < r.status < 200 }

  function Next(pipe: Pipeline, w: World, i: Input): World {
    var out := OnInput(pipe, w.ctx, i);
    World(
      out.next,
      w.started || i.Upstream?,
      if i.TargetsResolved? || i.TargetsUnavailable? then false else w.asked || Asks(out.fx),
      Delivered(w, i, out),
      w.closed || (w.resolved.Some? && !w.ctx.finished && i.UpstreamCancelled?) || SendsEnd(w.ctx, out.fx),
      if i.BranchResponse? && IsEarlyMedia(i.response) then w.heard + {i.branch} else w.heard,
      w.copies + CopiesIn(out.fx),
      w.cancels + CancelsIn(out.fx))
  }

  function Run(pipe: Pipeline, inputs: seq<Input>): World {
    if inputs == [] then START else Next(pipe, Run(pipe, inputs[..|inputs| - 1]), inputs[|inputs| - 1])
  }

  predicate AdmissibleAt(pipe: Pipeline, inputs: seq<Input>, k: nat)
    requires k < |inputs|
  {
    Admissible(Run(pipe, inputs[..k]), inputs[k])
  }

  ghost predicate WellFormed(pipe: Pipeline, inputs: seq<Input>) {
    forall k :: 0 <= k < |inputs| ==> AdmissibleAt(pipe, inputs, k)
  }

  /** The effects of the k-th input of a run. */
  function EffectsAt(pipe: Pipeline, inputs: seq<Input>, k: nat): seq<Effect>
    requires k < |inputs|
  {
    OnInput(pipe, Run(pipe, inputs[..k]).ctx, inputs[k]).fx
  }

  // ------------------------------------------------------------------ phases

  /** The order a run goes through: nothing, awaiting a verdict, awaiting targets, targets delivered. */
  ghost predicate PhaseInv(w: World) {
    var c := w.ctx;
    && (!w.started ==> c.request.None? && !w.asked && !c.awaitingVerdict)
    && (c.request.Some? <==> c.validated.Some?)
    && (w.started && !c.finished ==> c.request.Some?)
    && (w.asked ==> w.started && c.request.Some? && !c.awaitingVerdict && w.resolved.None?)
    && (c.awaitingVerdict ==> w.started && c.request.Some? && !w.asked && w.resolved.None?)
    && (w.resolved.Some? ==> w.started && c.request.Some?)
    && (w.resolved.None? ==> c.branches == [] && c.queued == [] && c.finals == [] && (!c.finished ==> !c.answered))
    && (w.started && !c.finished && w.resolved.None? ==> w.asked || c.awaitingVerdict)
  }

  lemma ForkShape(pipe: Pipeline, c: Context)
    requires c.request.Some? && c.validated.Some?
    ensures var out := ForkNextGroup(pipe, c);
      && !Asks(out.fx) && !SendsEnd(c, out.fx)
      && out.next == c.(branches := out.next.branches, queued := out.next.queued,
                        answered := out.next.answered, finished := out.next.finished)
      && c.branches <= out.next.branches
      && (out.next.finished && !c.finished ==> out.next.branches == [])
      && (out.next.answered && !c.answered ==> out.next.finished)
  {
    if c.queued != [] {
      var group := c.queued[..GroupSize(c.queued, c.validated.value.maxBreadth)];
      CopiesFirst(pipe, GroupPlan(c, group), group, |c.branches|);
    }
  }

  lemma {:induction false} CopiesFirst(pipe: Pipeline, plan: ForwardPlan, group: seq<Target>, index: nat)
    ensures var fx := ForkCopies(pipe, plan, group, index).1; fx != [] ==> fx[0].SendCopy?
    decreases |group|
  {
    if group != [] {
      CopiesFirst(pipe, plan, group[1..], index + 1);
    }
  }

  ghost predicate SamePlaces(a: seq<Branch>, b: seq<Branch>) {
    |a| == |b| && forall i :: 0 <= i < |a| ==> a[i].id == b[i].id && a[i].target == b[i].target
  }

  /** A CANCEL sweep keeps every branch in its place and lets none of them stop being live. */
  lemma {:induction false} CancelEachShape(bs: seq<Branch>, pending: seq<(BranchId, bool)>)
    ensures var after := CancelEach(bs, pending).0;
      SamePlaces(bs, after) && (forall i :: 0 <= i < |bs| && IsLive(bs[i].state) ==> IsLive(after[i].state))
    decreases |pending|
  {
    if pending != [] {
      CancelEachShape(if pending[0].1 then SetCancelling(bs, pending[0].0) else QueueCancel(bs, pending[0].0), pending[1..]);
    }
  }

  predicate IsBranchEvent(i: Input) {
    i.BranchResponse? || i.BranchTransportError? || i.TimerFired? || i.UpstreamCancelled?
  }

  /** What no branch event touches. */
  ghost predicate SameRequest(a: Context, b: Context) {
    a.request == b.request && a.validated == b.validated && a.tokens == b.tokens && a.awaitingVerdict == b.awaitingVerdict
  }

  lemma CollectShape(pipe: Pipeline, c: Context, request: Request, branch: BranchId, final: Response)
    requires c.request.Some? && c.validated.Some?
    ensures var out := Collect(pipe, c, request, branch, final); SameRequest(c, out.next) && !Asks(out.fx)
  {
    ForkShape(pipe, c.(branches := ConcludeAll(c.branches, branch, final.status), finals := c.finals + [final]));
  }

  lemma NoBranchNoEvent(pipe: Pipeline, c: Context, i: Input)
    requires c.branches == [] && c.request.Some? && IsBranchEvent(i)
    ensures var out := OnInput(pipe, c, i);
      out.next == c.(queued := out.next.queued) && (c.queued == [] ==> out.next.queued == []) && !Asks(out.fx)
  {
  }

  lemma FailureShape(pipe: Pipeline, c: Context, branch: BranchId)
    requires c.request.Some? && c.validated.Some?
    ensures var out := OnBranchFailure(pipe, c, branch); SameRequest(c, out.next) && !Asks(out.fx)
  {
    CollectShape(pipe, c, c.request.value, branch, BuildResponse(c.request.value, 503));
  }

  lemma ResponseShape(pipe: Pipeline, c: Context, response: Response, branch: BranchId)
    requires c.request.Some? && c.validated.Some?
    ensures var out := OnBranchResponse(pipe, c, response, branch); SameRequest(c, out.next) && !Asks(out.fx)
  {
    if response.status == 503 {
      FailureShape(pipe, c, branch);
    } else {
      CollectShape(pipe, c, c.request.value, branch, response);
    }
  }

  lemma TimerShape(pipe: Pipeline, c: Context, guarded: Option<BranchId>)
    requires c.request.Some? && c.validated.Some?
    ensures var out := OnTimerC(pipe, c, guarded); SameRequest(c, out.next) && !Asks(out.fx)
  {
    if guarded.Some? {
      CollectShape(pipe, c, c.request.value, guarded.value, BuildResponse(c.request.value, 408));
    }
  }

  lemma BranchEventShape(pipe: Pipeline, c: Context, i: Input)
    requires c.request.Some? && c.validated.Some? && IsBranchEvent(i)
    ensures var out := OnInput(pipe, c, i); SameRequest(c, out.next) && !Asks(out.fx)
  {
    match i {
      case BranchResponse(response, branch) => ResponseShape(pipe, c, response, branch);
      case BranchTransportError(branch) => FailureShape(pipe, c, branch);
      case TimerFired(guarded) => TimerShape(pipe, c, guarded);
      case UpstreamCancelled =>
    }
  }

  /** Target determination either asks, or has delivered the predetermined target, or is over. */
  lemma RouteItShape(pipe: Pipeline, c: Context)
    requires c.request.Some? && c.validated.Some? && c.branches == []
    ensures var out := RouteIt(pipe, c);
      && SameRequest(c, out.next) && out.next.finals == c.finals
      && (Asks(out.fx) ==> out.next == c)
      && (!Asks(out.fx) && !out.next.finished ==> out.next.branches != [] && out.next.answered == c.answered)
      && (out.next.finished && !c.finished ==> out.next.branches == [] && out.next.queued == [])
  {
    var sole := [PredeterminedTarget(c.request.value)];
    assert sole[1..] == [] && SortByQ(sole) == sole;
    assert GroupSize(sole, c.validated.value.maxBreadth) == 1;
    ForkShape(pipe, c.(queued := sole));
  }

  lemma PhaseStep(pipe: Pipeline, w: World, i: Input)
    requires PhaseInv(w) && Admissible(w, i)
    ensures PhaseInv(Next(pipe, w, i))
  {
    var c := w.ctx;
    if IsBranchEvent(i) {
      if c.branches == [] && c.request.Some? {
        NoBranchNoEvent(pipe, c, i);
      } else if c.request.Some? {
        BranchEventShape(pipe, c, i);
      }
    } else {
      PhaseStepDelivery(pipe, w, i);
    }
  }

  lemma PhaseStepDelivery(pipe: Pipeline, w: World, i: Input)
    requires PhaseInv(w) && Admissible(w, i) && !IsBranchEvent(i)
    ensures PhaseInv(Next(pipe, w, i))
  {
    var c := w.ctx;
    match i {
      case Upstream(arrival) =>
        var read := pipe.validate(arrival);
        if read.Ok? {
          RouteItShape(pipe, c.(request := Some(pipe.preprocess(arrival).0), validated := Some(read.value)));
        }
      case TokenFact(verdict) =>
        if c.awaitingVerdict {
          RouteItShape(pipe, c.(awaitingVerdict := false));
        }
      case TargetsResolved(targets) =>
        ForkShape(pipe, c.(queued := SortByQ(targets)));
      case _ =>
    }
  }
}
