/**
 * The response context as functions on values: one server transaction, N branches (sections 16.6 to
 * 16.10 of RFC 3261). Every handler maps a context and its input to the next context and the effects.
 */
module ContextModel {
  import opened Basics
  import opened Messages
  import opened Cookie
  import opened Validation
  import opened Routing
  import opened Forwarding

  /**
   * The forwarding pipeline a context drives: validation, route preprocessing, the building of one
   * copy, and Timer C. A context never looks inside them; `Proxy.PipelineOf` supplies the real ones.
   * `branchOf` is the branch `build` gives to a fork index.
   */
  datatype Pipeline = Pipeline(
    validate: Request -> Result<Validated, Refusal>,
    preprocess: Request -> (Request, Option<TokenCarriage>),
    build: ForwardPlan -> Result<Copy, ForwardError>,
    branchOf: (CookieInput, nat) -> BranchId,
    timerC: nat)

  datatype BranchState =
    | Pending(sawProvisional: bool, cancelQueued: bool)
    | Concluded(status: Status)
    | Cancelling

  datatype Branch = Branch(id: BranchId, state: BranchState, target: Target)

  datatype Context = Context(
    request: Option<Request>, validated: Option<Validated>, branches: seq<Branch>, queued: seq<Target>,
    finals: seq<Response>, answered: bool, finished: bool, tokens: Option<RecordRouteTokens>,
    awaitingVerdict: bool)

  const INITIAL := Context(None, None, [], [], [], false, false, None, false)

  datatype Input =
    | Upstream(arrival: Request)
    | BranchResponse(response: Response, branch: BranchId)
    | BranchTransportError(branch: BranchId)
    | TargetsResolved(targets: seq<Target>)
    | TargetsUnavailable
    | TokenFact(verdict: TokenVerdict)
    | TokensMinted(tokens: RecordRouteTokens)
    | TimerFired(guarded: Option<BranchId>)
    | UpstreamCancelled

  datatype Effect =
    | Respond(response: Response)
    | SendCopy(branch: BranchId, request: Request, target: Target, nextHop: Uri)
    | CancelBranch(branch: BranchId)
    | AnswerCancel
    | ResolveTargets(uri: Uri)
    | VerifyToken(carriage: TokenCarriage)
    | SetTimer(guarded: Option<BranchId>, after: nat)
    | Terminate

  datatype Out = Out(next: Context, fx: seq<Effect>)

  // ------------------------------------------------------------------ branches

  predicate IsLive(state: BranchState) { state.Pending? || state.Cancelling? }

  predicate Knows(bs: seq<Branch>, id: BranchId) {
    exists i :: 0 <= i < |bs| && bs[i].id == id
  }

  predicate HasLive(bs: seq<Branch>) {
    exists i :: 0 <= i < |bs| && IsLive(bs[i].state)
  }

  function ConcludeAll(bs: seq<Branch>, id: BranchId, status: Status): seq<Branch> {
    seq(|bs|, i requires 0 <= i < |bs| => if bs[i].id == id then bs[i].(state := Concluded(status)) else bs[i])
  }

  function SetCancelling(bs: seq<Branch>, id: BranchId): seq<Branch> {
    seq(|bs|, i requires 0 <= i < |bs| => if bs[i].id == id then bs[i].(state := Cancelling) else bs[i])
  }

  function QueueCancel(bs: seq<Branch>, id: BranchId): seq<Branch> {
    seq(|bs|, i requires 0 <= i < |bs| =>
      if bs[i].id == id && bs[i].state.Pending? then bs[i].(state := bs[i].state.(cancelQueued := true)) else bs[i])
  }

  function MarkProvisional(bs: seq<Branch>, id: BranchId): seq<Branch> {
    seq(|bs|, i requires 0 <= i < |bs| =>
      if bs[i].id == id && bs[i].state.Pending? then bs[i].(state := Pending(true, false)) else bs[i])
  }

  /** Whether a provisional releases a queued CANCEL: the last pending branch of that id decides. */
  function Releases(bs: seq<Branch>, id: BranchId): bool {
    if bs == [] then false
    else
      var last := bs[|bs| - 1];
      if last.id == id && last.state.Pending? then last.state.cancelQueued else Releases(bs[..|bs| - 1], id)
  }

  function PendingIds(bs: seq<Branch>): seq<BranchId> {
    if bs == [] then []
    else (if bs[0].state.Pending? then [bs[0].id] else []) + PendingIds(bs[1..])
  }

  function CancelIn(bs: seq<Branch>, ids: seq<BranchId>): seq<Branch> {
    seq(|bs|, i requires 0 <= i < |bs| => if bs[i].id in ids then bs[i].(state := Cancelling) else bs[i])
  }

  function CancelFx(ids: seq<BranchId>): seq<Effect> {
    seq(|ids|, i requires 0 <= i < |ids| => CancelBranch(ids[i]))
  }

  /** The pending branches, each with whether it has produced a provisional. */
  function PendingWithSaw(bs: seq<Branch>): seq<(BranchId, bool)> {
    if bs == [] then []
    else (if bs[0].state.Pending? then [(bs[0].id, bs[0].state.sawProvisional)] else []) + PendingWithSaw(bs[1..])
  }

  /** C2: cancel now what has answered, queue the CANCEL for what has not. */
  function CancelEach(bs: seq<Branch>, pending: seq<(BranchId, bool)>): (seq<Branch>, seq<Effect>)
    decreases |pending|
  {
    if pending == [] then (bs, [])
    else if pending[0].1 then
      var r := CancelEach(SetCancelling(bs, pending[0].0), pending[1..]);
      (r.0, [CancelBranch(pending[0].0)] + r.1)
    else CancelEach(QueueCancel(bs, pending[0].0), pending[1..])
  }

  function SawProvisional(bs: seq<Branch>, id: BranchId): Option<bool> {
    if bs == [] then None
    else if bs[0].id == id && bs[0].state.Pending? then Some(bs[0].state.sawProvisional)
    else SawProvisional(bs[1..], id)
  }

  // ------------------------------------------------------------------ targets

  /** A stable sort by descending `q`. */
  function Insert(t: Target, sorted: seq<Target>): seq<Target> {
    if sorted == [] || sorted[0].q <= t.q then [t] + sorted else [sorted[0]] + Insert(t, sorted[1..])
  }

  function SortByQ(ts: seq<Target>): seq<Target> {
    if ts == [] then [] else Insert(ts[0], SortByQ(ts[1..]))
  }

  /** How many leading targets share the first one's `q`. */
  function LeadingRun(ts: seq<Target>): (n: nat)
    ensures n <= |ts| && (ts != [] ==> n >= 1)
    ensures forall i :: 0 <= i < n ==> ts[i].q == ts[0].q
    ensures n < |ts| ==> ts[n].q != ts[0].q
  {
    if ts == [] then 0
    else if |ts| == 1 || ts[1].q != ts[0].q then 1
    else 1 + LeadingRun(ts[1..])
  }

  /** The next group: one `q`, and no wider than `Max-Breadth` allows. */
  function GroupSize(ts: seq<Target>, maxBreadth: u32): (n: nat)
    ensures n <= |ts| && (ts != [] ==> n >= 1) && n <= Max(maxBreadth, 1)
    ensures forall i :: 0 <= i < n ==> ts[i].q == ts[0].q
  {
    Min(LeadingRun(ts), Max(maxBreadth, 1))
  }

  predicate IsDialogForming(r: Request) { r.verb.Invite? && !IsInDialog(r) }

  /** What every copy of one group shares; the target and the index are filled in per copy. */
  function GroupPlan(c: Context, group: seq<Target>): ForwardPlan
    requires c.request.Some? && c.validated.Some? && group != []
  {
    ForwardPlan(c.request.value, c.validated.value, group[0], |c.branches|, Clamp32(|group|),
                IsDialogForming(c.request.value), c.tokens)
  }

  function TimerFx(pipe: Pipeline, verb: Method, branch: BranchId): seq<Effect> {
    if verb.Invite? then [SetTimer(Some(branch), pipe.timerC)] else []
  }

  /** One copy per target that builds; a target that does not build is passed over. */
  function ForkCopies(pipe: Pipeline, plan: ForwardPlan, group: seq<Target>, index: nat): (seq<Branch>, seq<Effect>)
    decreases |group|
  {
    if group == [] then ([], [])
    else
      var rest := ForkCopies(pipe, plan, group[1..], index + 1);
      match pipe.build(plan.(target := group[0], index := index))
      case Err(_) => rest
      case Ok(copy) =>
        ([Branch(copy.branch, Pending(false, false), group[0])] + rest.0,
         [SendCopy(copy.branch, copy.request, group[0], copy.nextHop)]
         + TimerFx(pipe, plan.original.verb, copy.branch) + rest.1)
  }

  // ------------------------------------------------------------------ selection

  function WithinClassRank(status: Status): int {
    if status in {401, 407, 415, 420, 484} then 1
    else if status in {480, 486} then 2
    else 3
  }

  /** R7's order: class, then rank within the class, then code. */
  predicate Preferred(a: Status, b: Status) {
    a / 100 < b / 100
    || (a / 100 == b / 100
        && (WithinClassRank(a) < WithinClassRank(b) || (WithinClassRank(a) == WithinClassRank(b) && a <= b)))
  }

  function BestFinal(finals: seq<Response>): Option<Status> {
    if finals == [] then None
    else match BestFinal(finals[1..])
      case None => Some(finals[0].status)
      case Some(b) => if Preferred(finals[0].status, b) then Some(finals[0].status) else Some(b)
  }

  function FirstWith(finals: seq<Response>, status: Status): Option<Response> {
    if finals == [] then None
    else if finals[0].status == status then Some(finals[0])
    else FirstWith(finals[1..], status)
  }

  function ChallengesOf(r: Response, status: Status): seq<seq<byte>> {
    if status == 401 then r.wwwAuthenticate else r.proxyAuthenticate
  }

  function AllChallenges(finals: seq<Response>, status: Status): seq<seq<byte>> {
    if finals == [] then []
    else (if finals[0].status == status then ChallengesOf(finals[0], status) else []) + AllChallenges(finals[1..], status)
  }

  function Aggregate(request: Request, finals: seq<Response>, status: Status): Response {
    var built := BuildResponse(request, status);
    if status == 401 then built.(wwwAuthenticate := AllChallenges(finals, status))
    else built.(proxyAuthenticate := AllChallenges(finals, status))
  }

  // ------------------------------------------------------------------ shared steps

  function End(c: Context): Out { Out(c.(finished := true), [Terminate]) }

  function RespondAndFinish(c: Context, request: Request, status: Status): Out {
    Out(c.(answered := true, finished := true),
        [Respond(BuildResponse(request, status))] + CancelFx(PendingIds(c.branches)) + [Terminate])
  }

  predicate MayFork(c: Context) { c.queued != [] && !c.answered && !c.finished }

  function FinishIfSettled(c: Context): Out {
    if HasLive(c.branches) || MayFork(c) then Out(c, []) else Out(c.(finished := true), [Terminate])
  }

  function CancelPending(c: Context): Out {
    var ids := PendingIds(c.branches);
    Out(c.(branches := CancelIn(c.branches, ids)), CancelFx(ids))
  }

  function ForkNextGroup(pipe: Pipeline, c: Context): Out {
    if c.request.None? || c.validated.None? then End(c)
    else if c.queued == [] then Out(c, [])
    else
      var n := GroupSize(c.queued, c.validated.value.maxBreadth);
      var group := c.queued[..n];
      var (bs, fx) := ForkCopies(pipe, GroupPlan(c, group), group, |c.branches|);
      var next := c.(branches := c.branches + bs, queued := c.queued[n..]);
      if next.branches == [] && next.queued == [] then RespondAndFinish(next, c.request.value, 480)
      else Out(next, fx)
  }

  function SelectAndAnswer(c: Context, request: Request): Out {
    if c.answered then FinishIfSettled(c)
    else match BestFinal(c.finals)
      case None => RespondAndFinish(c, request, 500)
      case Some(best) =>
        if best == 503 then RespondAndFinish(c, request, 500)
        else
          var chosen := if best == 401 || best == 407 then Some(Aggregate(request, c.finals, best)) else FirstWith(c.finals, best);
          match chosen
          case None => RespondAndFinish(c, request, 500)
          case Some(response) =>
            var cancelled := CancelPending(c.(answered := true));
            var settled := FinishIfSettled(cancelled.next);
            Out(settled.next, [Respond(PopVia(response))] + cancelled.fx + settled.fx)
  }

  /** What follows every final that is not forwarded at once: wait, fork the next group, or answer. */
  function AfterFinal(pipe: Pipeline, c: Context, request: Request): Out {
    if HasLive(c.branches) then Out(c, [])
    else if MayFork(c) then ForkNextGroup(pipe, c)
    else SelectAndAnswer(c, request)
  }

  // ------------------------------------------------------------------ handlers

  function Refuse(c: Context, request: Request, refusal: Refusal): Out {
    match RefusalStatus(refusal)
    case None => End(c)
    case Some(status) =>
      var built := BuildResponse(request, status);
      var response := if refusal.BadExtension? then built.(unsupported := refusal.tags) else built;
      Out(c.(finished := true), [Respond(response), Terminate])
  }

  function OnTargets(pipe: Pipeline, c: Context, targets: seq<Target>): Out {
    if c.request.None? then End(c)
    else if targets == [] then RespondAndFinish(c, c.request.value, 480)
    else ForkNextGroup(pipe, c.(queued := SortByQ(targets)))
  }

  function RouteIt(pipe: Pipeline, c: Context): Out {
    if c.request.None? then End(c)
    else if IsInDialog(c.request.value) || RouteSetSurvived(c.request.value) then
      OnTargets(pipe, c, [PredeterminedTarget(c.request.value)])
    else Out(c, [ResolveTargets(c.request.value.uri)])
  }

  function OnUpstream(pipe: Pipeline, c: Context, arrival: Request): Out {
    match pipe.validate(arrival)
    case Err(refusal) => Refuse(c, arrival, refusal)
    case Ok(validated) =>
      var (request, carriage) := pipe.preprocess(arrival);
      var next := c.(request := Some(request), validated := Some(validated));
      if carriage.Some? then Out(next.(awaitingVerdict := true), [VerifyToken(carriage.value)])
      else RouteIt(pipe, next)
  }

  function OnToken(pipe: Pipeline, c: Context, verdict: TokenVerdict): Out {
    if !c.awaitingVerdict then Out(c, [])
    else
      var next := c.(awaitingVerdict := false);
      if verdict.Valid? then RouteIt(pipe, next)
      else if c.request.None? then End(next)
      else RespondAndFinish(next, c.request.value, 403)
  }

  function OnTargetsUnavailable(c: Context): Out {
    if c.request.None? then End(c) else RespondAndFinish(c, c.request.value, 503)
  }

  /** A branch concludes with a final that goes to selection. */
  function Collect(pipe: Pipeline, c: Context, request: Request, branch: BranchId, final: Response): Out {
    AfterFinal(pipe, c.(branches := ConcludeAll(c.branches, branch, final.status), finals := c.finals + [final]), request)
  }

  function OnBranchFailure(pipe: Pipeline, c: Context, branch: BranchId): Out {
    if c.request.None? then End(c)
    else if !Knows(c.branches, branch) then Out(c, [])
    else Collect(pipe, c, c.request.value, branch, BuildResponse(c.request.value, 503))
  }

  function OnProvisional(pipe: Pipeline, c: Context, verb: Method, response: Response, branch: BranchId): Out {
    var marked := MarkProvisional(c.branches, branch);
    var fx := [Respond(PopVia(response))] + TimerFx(pipe, verb, branch);
    if Releases(c.branches, branch) then
      Out(c.(branches := SetCancelling(marked, branch)), fx + [CancelBranch(branch)])
    else Out(c.(branches := marked), fx)
  }

  /** R5: a 2xx to an INVITE goes upstream at once and ends the target set. */
  function Accept(c: Context, response: Response, branch: BranchId): Out {
    var concluded := c.(branches := ConcludeAll(c.branches, branch, response.status), answered := true, queued := []);
    var cancelled := CancelPending(concluded);
    Out(cancelled.next, [Respond(PopVia(response))] + cancelled.fx)
  }

  /** R6: a 6xx goes upstream at once and ends everything. */
  function Reject(c: Context, response: Response, branch: BranchId): Out {
    var concluded := c.(branches := ConcludeAll(c.branches, branch, response.status),
                        finals := c.finals + [response], answered := true, queued := []);
    var cancelled := CancelPending(concluded);
    var settled := FinishIfSettled(cancelled.next);
    Out(settled.next, [Respond(PopVia(response))] + cancelled.fx + settled.fx)
  }

  function OnBranchResponse(pipe: Pipeline, c: Context, response: Response, branch: BranchId): Out {
    if c.request.None? then End(c)
    else if !Knows(c.branches, branch) then Out(c, [])
    else if response.status == 100 then Out(c, [])
    else if IsProvisional(response.status) then OnProvisional(pipe, c, c.request.value.verb, response, branch)
    else if response.status == 503 then OnBranchFailure(pipe, c, branch)
    else if response.status / 100 == 2 && c.request.value.verb.Invite? then Accept(c, response, branch)
    else if response.status / 100 == 6 then Reject(c, response, branch)
    else Collect(pipe, c, c.request.value, branch, response)
  }

  function OnUpstreamCancelled(c: Context): Out {
    var (bs, fx) := CancelEach(c.branches, PendingWithSaw(c.branches));
    Out(c.(queued := [], branches := bs), [AnswerCancel] + fx)
  }

  function OnTimerC(pipe: Pipeline, c: Context, guarded: Option<BranchId>): Out {
    if guarded.None? then Out(c, [])
    else match SawProvisional(c.branches, guarded.value)
      case None => Out(c, [])
      case Some(true) => Out(c.(branches := SetCancelling(c.branches, guarded.value)), [CancelBranch(guarded.value)])
      case Some(false) =>
        if c.request.None? then End(c)
        else Collect(pipe, c, c.request.value, guarded.value, BuildResponse(c.request.value, 408))
  }

  function OnInput(pipe: Pipeline, c: Context, input: Input): Out {
    if c.finished then Out(c, [])
    else match input
      case Upstream(arrival) => OnUpstream(pipe, c, arrival)
      case TargetsResolved(targets) => OnTargets(pipe, c, targets)
      case TargetsUnavailable => OnTargetsUnavailable(c)
      case BranchResponse(response, branch) => OnBranchResponse(pipe, c, response, branch)
      case BranchTransportError(branch) => OnBranchFailure(pipe, c, branch)
      case TokenFact(verdict) => OnToken(pipe, c, verdict)
      case TokensMinted(tokens) => Out(c.(tokens := Some(tokens)), [])
      case TimerFired(guarded) => OnTimerC(pipe, c, guarded)
      case UpstreamCancelled => OnUpstreamCancelled(c)
  }
}
