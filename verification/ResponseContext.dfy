/**
 * The response context as the object the proxy keeps: fields that every handler rewrites in place.
 * Each method is proved to do exactly what the value-level handler of the same name does.
 */
module ResponseContexts {
  import opened Basics
  import opened Messages
  import opened Validation
  import opened Routing
  import opened Forwarding
  import opened ContextModel

  class ResponseContext {
    const pipe: Pipeline
    var request: Option<Request>
    var validated: Option<Validated>
    var branches: seq<Branch>
    var queued: seq<Target>
    var finals: seq<Response>
    var answered: bool
    var finished: bool
    var tokens: Option<RecordRouteTokens>
    var awaitingVerdict: bool

    /** The fields as one value. */
    function View(): Context
      reads this
    {
      Context(request, validated, branches, queued, finals, answered, finished, tokens, awaitingVerdict)
    }

    constructor (pipe: Pipeline)
      ensures this.pipe == pipe && View() == INITIAL
    {
      this.pipe := pipe;
      request, validated, tokens := None, None, None;
      branches, queued, finals := [], [], [];
      answered, finished, awaitingVerdict := false, false, false;
    }

    // ---------------------------------------------------------------- branch states

    method ConcludeBranch(branch: BranchId, status: Status)
      modifies this`branches
      ensures branches == ConcludeAll(old(branches), branch, status)
    {
      ghost var was := branches;
      for i := 0 to |branches|
        invariant |branches| == |was|
        invariant forall j :: 0 <= j < |was| ==> branches[j] == if j < i then ConcludeAll(was, branch, status)[j] else was[j]
      {
        if branches[i].id == branch {
          branches := branches[i := branches[i].(state := Concluded(status))];
        }
      }
    }

    method MarkCancelling(branch: BranchId)
      modifies this`branches
      ensures branches == SetCancelling(old(branches), branch)
    {
      ghost var was := branches;
      for i := 0 to |branches|
        invariant |branches| == |was|
        invariant forall j :: 0 <= j < |was| ==> branches[j] == if j < i then SetCancelling(was, branch)[j] else was[j]
      {
        if branches[i].id == branch {
          branches := branches[i := branches[i].(state := Cancelling)];
        }
      }
    }

    method OweCancel(branch: BranchId)
      modifies this`branches
      ensures branches == QueueCancel(old(branches), branch)
    {
      ghost var was := branches;
      for i := 0 to |branches|
        invariant |branches| == |was|
        invariant forall j :: 0 <= j < |was| ==> branches[j] == if j < i then QueueCancel(was, branch)[j] else was[j]
      {
        if branches[i].id == branch && branches[i].state.Pending? {
          branches := branches[i := branches[i].(state := branches[i].state.(cancelQueued := true))];
        }
      }
    }

    method NoteProvisional(branch: BranchId) returns (release: bool)
      modifies this`branches
      ensures branches == MarkProvisional(old(branches), branch)
      ensures release == Releases(old(branches), branch)
    {
      ghost var was := branches;
      release := false;
      for i := 0 to |branches|
        invariant |branches| == |was|
        invariant forall j :: 0 <= j < |was| ==> branches[j] == if j < i then MarkProvisional(was, branch)[j] else was[j]
        invariant release == Releases(was[..i], branch)
      {
        assert was[..i + 1] == was[..i] + [was[i]];
        if branches[i].id == branch && branches[i].state.Pending? {
          release := branches[i].state.cancelQueued;
          branches := branches[i := branches[i].(state := Pending(true, false))];
        }
      }
      assert was[..|was|] == was;
    }

    method SweepPending() returns (fx: seq<Effect>)
      modifies this`branches
      ensures Out(View(), fx) == CancelPending(old(View()))
    {
      ghost var was := branches;
      var ids := PendingIds(branches);
      for i := 0 to |branches|
        invariant |branches| == |was|
        invariant forall j :: 0 <= j < |was| ==> branches[j] == if j < i then CancelIn(was, ids)[j] else was[j]
      {
        if branches[i].id in ids {
          branches := branches[i := branches[i].(state := Cancelling)];
        }
      }
      fx := CancelFx(ids);
    }

    // ---------------------------------------------------------------- endings

    method Stop() returns (fx: seq<Effect>)
      modifies this`finished
      ensures Out(View(), fx) == End(old(View()))
    {
      finished := true;
      fx := [Terminate];
    }

    method AnswerAndStop(to: Request, status: Status) returns (fx: seq<Effect>)
      modifies this`answered, this`finished
      ensures Out(View(), fx) == RespondAndFinish(old(View()), to, status)
    {
      answered := true;
      finished := true;
      fx := [Respond(BuildResponse(to, status))];
      fx := fx + CancelFx(PendingIds(branches));
      fx := fx + [Terminate];
    }

    method StopIfSettled() returns (fx: seq<Effect>)
      modifies this`finished
      ensures Out(View(), fx) == FinishIfSettled(old(View()))
    {
      if HasLive(branches) || MayFork(View()) {
        return [];
      }
      finished := true;
      fx := [Terminate];
    }

    // ---------------------------------------------------------------- forking

    /** Forward the next `q` group: a copy and its timer for every target that builds. */
    method ForkGroup() returns (fx: seq<Effect>)
      modifies this`branches, this`queued, this`answered, this`finished
      ensures Out(View(), fx) == ForkNextGroup(pipe, old(View()))
    {
      if request.None? || validated.None? {
        fx := Stop();
        return;
      }
      if queued == [] {
        return [];
      }
      var split := LeadingRun(queued);
      split := Min(split, Max(validated.value.maxBreadth, 1));
      var group := queued[..split];
      var plan := GroupPlan(View(), group);
      queued := queued[split..];
      fx := SendGroup(plan, group);
      if branches == [] && queued == [] {
        fx := AnswerAndStop(request.value, 480);
      }
    }

    static lemma Onto(before: seq<Effect>, sent: Effect, timer: seq<Effect>, after: seq<Effect>, rest: seq<Effect>)
      requires after == before + [sent] + timer
      ensures before + ([sent] + timer + rest) == after + rest
    {
    }

    method SendGroup(plan: ForwardPlan, group: seq<Target>) returns (fx: seq<Effect>)
      modifies this`branches
      ensures var sent := ForkCopies(pipe, plan, group, |old(branches)|);
        branches == old(branches) + sent.0 && fx == sent.1
    {
      fx := [];
      ghost var was := branches;
      ghost var all := ForkCopies(pipe, plan, group, |was|);
      var already := |branches|;
      for offset := 0 to |group|
        invariant branches + ForkCopies(pipe, plan, group[offset..], already + offset).0 == was + all.0
        invariant fx + ForkCopies(pipe, plan, group[offset..], already + offset).1 == all.1
      {
        ghost var rest := ForkCopies(pipe, plan, group[offset + 1..], already + offset + 1);
        assert group[offset..] == [group[offset]] + group[offset + 1..];
        match pipe.build(plan.(target := group[offset], index := already + offset)) {
          case Err(_) =>
          case Ok(copy) =>
            ghost var timer := TimerFx(pipe, plan.original.verb, copy.branch);
            ghost var before := fx;
            fx := fx + [SendCopy(copy.branch, copy.request, group[offset], copy.nextHop)];
            if plan.original.verb.Invite? {
              fx := fx + [SetTimer(Some(copy.branch), pipe.timerC)];
            }
            Onto(before, SendCopy(copy.branch, copy.request, group[offset], copy.nextHop), timer, fx, rest.1);
            Assoc(branches, [Branch(copy.branch, Pending(false, false), group[offset])], rest.0);
            branches := branches + [Branch(copy.branch, Pending(false, false), group[offset])];
        }
      }
      assert group[|group|..] == [] && branches + [] == branches && fx + [] == fx;
    }

    // ---------------------------------------------------------------- selection

    method AggregateChallenges(to: Request, status: Status) returns (response: Response)
      ensures response == Aggregate(to, finals, status)
    {
      var challenges := [];
      for i := 0 to |finals|
        invariant challenges + AllChallenges(finals[i..], status) == AllChallenges(finals, status)
      {
        assert finals[i..] == [finals[i]] + finals[i + 1..];
        if finals[i].status == status {
          challenges := challenges + ChallengesOf(finals[i], status);
        }
      }
      assert finals[|finals|..] == [];
      response := BuildResponse(to, status);
      response := if status == 401 then response.(wwwAuthenticate := challenges) else response.(proxyAuthenticate := challenges);
    }

    method ChooseAndAnswer(to: Request) returns (fx: seq<Effect>)
      modifies this`answered, this`finished, this`branches
      ensures Out(View(), fx) == SelectAndAnswer(old(View()), to)
    {
      if answered {
        fx := StopIfSettled();
        return;
      }
      var best := BestFinal(finals);
      if best.None? || best.value == 503 {
        fx := AnswerAndStop(to, 500);
        return;
      }
      var chosen: Option<Response>;
      if best.value == 401 || best.value == 407 {
        var aggregated := AggregateChallenges(to, best.value);
        chosen := Some(aggregated);
      } else {
        chosen := FirstWith(finals, best.value);
      }
      if chosen.None? {
        fx := AnswerAndStop(to, 500);
        return;
      }
      answered := true;
      var cancels := SweepPending();
      var ending := StopIfSettled();
      fx := [Respond(PopVia(chosen.value))] + cancels + ending;
    }

    method Continue(to: Request) returns (fx: seq<Effect>)
      modifies this`branches, this`queued, this`answered, this`finished
      ensures Out(View(), fx) == AfterFinal(pipe, old(View()), to)
    {
      if HasLive(branches) {
        return [];
      }
      if MayFork(View()) {
        fx := ForkGroup();
        return;
      }
      fx := ChooseAndAnswer(to);
    }

    // ---------------------------------------------------------------- arrival and targets

    method RefuseIt(arrival: Request, refusal: Refusal) returns (fx: seq<Effect>)
      modifies this`finished
      ensures Out(View(), fx) == Refuse(old(View()), arrival, refusal)
    {
      finished := true;
      var status := RefusalStatus(refusal);
      if status.None? {
        return [Terminate];
      }
      var response := BuildResponse(arrival, status.value);
      if refusal.BadExtension? {
        response := response.(unsupported := refusal.tags);
      }
      fx := [Respond(response), Terminate];
    }

    method TakeTargets(targets: seq<Target>) returns (fx: seq<Effect>)
      modifies this`branches, this`queued, this`answered, this`finished
      ensures Out(View(), fx) == OnTargets(pipe, old(View()), targets)
    {
      if request.None? {
        fx := Stop();
        return;
      }
      if targets == [] {
        fx := AnswerAndStop(request.value, 480);
        return;
      }
      queued := SortByQ(targets);
      fx := ForkGroup();
    }

    method DetermineTargets() returns (fx: seq<Effect>)
      modifies this`branches, this`queued, this`answered, this`finished
      ensures Out(View(), fx) == RouteIt(pipe, old(View()))
    {
      if request.None? {
        fx := Stop();
        return;
      }
      if IsInDialog(request.value) {
        fx := TakeTargets([PredeterminedTarget(request.value)]);
        return;
      }
      if RouteSetSurvived(request.value) {
        fx := TakeTargets([PredeterminedTarget(request.value)]);
        return;
      }
      fx := [ResolveTargets(request.value.uri)];
    }

    method TakeUpstream(arrival: Request) returns (fx: seq<Effect>)
      modifies this
      ensures Out(View(), fx) == OnUpstream(pipe, old(View()), arrival)
    {
      var read := pipe.validate(arrival);
      if read.Err? {
        fx := RefuseIt(arrival, read.error);
        return;
      }
      var (kept, carriage) := pipe.preprocess(arrival);
      request := Some(kept);
      validated := Some(read.value);
      if carriage.Some? {
        awaitingVerdict := true;
        return [VerifyToken(carriage.value)];
      }
      fx := DetermineTargets();
    }

    method TakeVerdict(verdict: TokenVerdict) returns (fx: seq<Effect>)
      modifies this
      ensures Out(View(), fx) == OnToken(pipe, old(View()), verdict)
    {
      if !awaitingVerdict {
        return [];
      }
      awaitingVerdict := false;
      if verdict.Valid? {
        fx := DetermineTargets();
      } else if request.None? {
        fx := Stop();
      } else {
        fx := AnswerAndStop(request.value, 403);
      }
    }

    method TakeUnavailable() returns (fx: seq<Effect>)
      modifies this`answered, this`finished
      ensures Out(View(), fx) == OnTargetsUnavailable(old(View()))
    {
      if request.None? {
        fx := Stop();
      } else {
        fx := AnswerAndStop(request.value, 503);
      }
    }

    // ---------------------------------------------------------------- branches

    method Conclude(to: Request, branch: BranchId, final: Response) returns (fx: seq<Effect>)
      modifies this`branches, this`queued, this`answered, this`finished, this`finals
      ensures Out(View(), fx) == Collect(pipe, old(View()), to, branch, final)
    {
      ConcludeBranch(branch, final.status);
      finals := finals + [final];
      fx := Continue(to);
    }

    method TakeFailure(branch: BranchId) returns (fx: seq<Effect>)
      modifies this`branches, this`queued, this`answered, this`finished, this`finals
      ensures Out(View(), fx) == OnBranchFailure(pipe, old(View()), branch)
    {
      if request.None? {
        fx := Stop();
        return;
      }
      if !Knows(branches, branch) {
        return [];
      }
      fx := Conclude(request.value, branch, BuildResponse(request.value, 503));
    }

    method TakeProvisional(verb: Method, response: Response, branch: BranchId) returns (fx: seq<Effect>)
      modifies this`branches
      ensures Out(View(), fx) == OnProvisional(pipe, old(View()), verb, response, branch)
    {
      var sendable := NoteProvisional(branch);
      fx := [Respond(PopVia(response))];
      if verb.Invite? {
        fx := fx + [SetTimer(Some(branch), pipe.timerC)];
      }
      if sendable {
        MarkCancelling(branch);
        fx := fx + [CancelBranch(branch)];
      }
      assert SetCancelling(MarkProvisional(old(branches), branch), branch) == SetCancelling(old(branches), branch);
    }

    method TakeResponse(response: Response, branch: BranchId) returns (fx: seq<Effect>)
      modifies this
      ensures Out(View(), fx) == OnBranchResponse(pipe, old(View()), response, branch)
    {
      if request.None? {
        fx := Stop();
        return;
      }
      if !Knows(branches, branch) || response.status == 100 {
        return [];
      }
      if IsProvisional(response.status) {
        fx := TakeProvisional(request.value.verb, response, branch);
        return;
      }
      if response.status == 503 {
        fx := TakeFailure(branch);
        return;
      }
      if response.status / 100 == 2 && request.value.verb.Invite? {
        fx := TakeAcceptance(response, branch);
        return;
      }
      if response.status / 100 == 6 {
        fx := TakeRejection(response, branch);
        return;
      }
      fx := Conclude(request.value, branch, response);
    }

    method TakeAcceptance(response: Response, branch: BranchId) returns (fx: seq<Effect>)
      modifies this`branches, this`queued, this`answered
      ensures Out(View(), fx) == Accept(old(View()), response, branch)
    {
      ConcludeBranch(branch, response.status);
      answered := true;
      queued := [];
      var cancels := SweepPending();
      fx := [Respond(PopVia(response))] + cancels;
    }

    method TakeRejection(response: Response, branch: BranchId) returns (fx: seq<Effect>)
      modifies this`branches, this`queued, this`answered, this`finished, this`finals
      ensures Out(View(), fx) == Reject(old(View()), response, branch)
    {
      ConcludeBranch(branch, response.status);
      finals := finals + [response];
      answered := true;
      queued := [];
      var cancels := SweepPending();
      var ending := StopIfSettled();
      fx := [Respond(PopVia(response))] + cancels + ending;
    }

    /** C1 to C3, C7: answer the CANCEL, drop the queue, then cancel or owe a cancel branch by branch. */
    method TakeCancel() returns (fx: seq<Effect>)
      modifies this`branches, this`queued
      ensures Out(View(), fx) == OnUpstreamCancelled(old(View()))
    {
      fx := [AnswerCancel];
      queued := [];
      var pending := PendingWithSaw(branches);
      ghost var whole := CancelEach(branches, pending);
      for i := 0 to |pending|
        invariant queued == [] && CancelEach(branches, pending[i..]).0 == whole.0
        invariant fx + CancelEach(branches, pending[i..]).1 == [AnswerCancel] + whole.1
      {
        assert pending[i..][1..] == pending[i + 1..];
        if pending[i].1 {
          MarkCancelling(pending[i].0);
          fx := fx + [CancelBranch(pending[i].0)];
        } else {
          OweCancel(pending[i].0);
        }
      }
      assert pending[|pending|..] == [];
      assert CancelEach(branches, []) == (branches, []);
      assert fx + [] == fx;
    }

    method TakeTimer(guarded: Option<BranchId>) returns (fx: seq<Effect>)
      modifies this
      ensures Out(View(), fx) == OnTimerC(pipe, old(View()), guarded)
    {
      if guarded.None? {
        return [];
      }
      var saw := SawProvisional(branches, guarded.value);
      if saw.None? {
        return [];
      }
      if saw.value {
        MarkCancelling(guarded.value);
        return [CancelBranch(guarded.value)];
      }
      if request.None? {
        fx := Stop();
        return;
      }
      fx := Conclude(request.value, guarded.value, BuildResponse(request.value, 408));
    }

    /** The object does what the model does, input by input. */
    method Handle(input: Input) returns (fx: seq<Effect>)
      modifies this
      ensures Out(View(), fx) == OnInput(pipe, old(View()), input)
    {
      if finished {
        return [];
      }
      match input {
        case Upstream(arrival) => fx := TakeUpstream(arrival);
        case TargetsResolved(targets) => fx := TakeTargets(targets);
        case TargetsUnavailable => fx := TakeUnavailable();
        case BranchResponse(response, branch) => fx := TakeResponse(response, branch);
        case BranchTransportError(branch) => fx := TakeFailure(branch);
        case TokenFact(verdict) => fx := TakeVerdict(verdict);
        case TokensMinted(minted) =>
          tokens := Some(minted);
          fx := [];
        case TimerFired(guarded) => fx := TakeTimer(guarded);
        case UpstreamCancelled => fx := TakeCancel();
      }
    }
  }
}
