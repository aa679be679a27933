/** What every step of a run keeps. */
module ContextInvariants {
  import opened Basics
  import opened Messages
  import opened Routing
  import opened ContextModel
  import opened ContextRuns
  import opened ContextFacts
  import opened ContextEvents

  // ------------------------------------------------------------------ answers and ends

  ghost predicate FinalsInv(c: Context) {
    forall f :: f in c.finals ==>
      f.status >= 200 && (!c.answered ==> f.status / 100 != 6)
      && (c.request.Some? && c.request.value.verb.Invite? ==> f.status / 100 != 2)
  }

  /** A finished context has no live branch, and a concluded target set has nothing queued. */
  ghost predicate EndInv(w: World) {
    && (w.ctx.finished ==> !HasLive(w.ctx.branches))
    && (w.ctx.answered || w.closed || w.ctx.finished ==> w.ctx.queued == [])
    && (w.closed ==> w.resolved.Some?)
    && (w.resolved.Some? && w.ctx.finished ==> w.ctx.answered)
    && FinalsInv(w.ctx)
  }

  lemma ForkEnd(pipe: Pipeline, c: Context)
    requires Lawful(pipe) && c.request.Some? && c.validated.Some? && (c.queued != [] ==> MayFork(c))
    requires !c.finished && !HasLive(c.branches)
    ensures var out := ForkNextGroup(pipe, c);
      && (out.next.finished ==> !HasLive(out.next.branches) && out.next.answered)
      && (out.next.answered || out.next.finished ==> out.next.queued == [])
  {
    if c.queued != [] {
      ForkFacts(pipe, c);
    }
  }

  lemma EventEnd(pipe: Pipeline, w: World, e: Event)
    requires Lawful(pipe) && PhaseInv(w) && EndInv(w) && w.ctx.request.Some? && !w.ctx.finished
    requires e.Accepted? ==> EndsTargetSet(w.ctx, e.response)
    requires e.Final? ==> e.response.status >= 200 && !EndsTargetSet(w.ctx, e.response)
    requires e.Rejected? ==> e.response.status / 100 == 6
    ensures var out := Handle(pipe, w.ctx, e);
      && (out.next.finished ==> !HasLive(out.next.branches) && out.next.answered)
      && (out.next.answered || out.next.finished || e.Withdrawn? ==> out.next.queued == [])
      && (w.ctx.queued == [] ==> out.next.queued == [])
      && FinalsInv(out.next)
  {
    var c := w.ctx;
    match e {
      case Final(branch, response) =>
        FinalFacts(pipe, c, branch, response);
        var mid := Recorded(c, branch, response);
        if !HasLive(mid.branches) && MayFork(mid) {
          ForkEnd(pipe, mid);
          ForkShape(pipe, mid);
        }
      case Accepted(branch, response) => AcceptFacts(pipe, c, branch, response);
      case Rejected(branch, response) => RejectFacts(pipe, c, branch, response);
      case Early(branch, response) => EarlyFacts(pipe, c, branch, response);
      case Withdrawn => WithdrawnFacts(pipe, c);
      case _ =>
    }
  }

  /** The classifier's side conditions. */
  lemma ClassifiedFinal(c: Context, i: Input)
    requires c.request.Some? && IsBranchEvent(i)
    ensures var e := Classify(c, i);
      && (e.Accepted? ==> e.response.status / 100 == 2 && EndsTargetSet(c, e.response) && c.request.value.verb.Invite?)
      && (e.Final? ==> e.response.status >= 200 && !EndsTargetSet(c, e.response) && Knows(c.branches, e.branch))
      && (e.Rejected? ==> e.response.status / 100 == 6 && EndsTargetSet(c, e.response))
      && (e.Accepted? || e.Rejected? ==> i.BranchResponse? && i.response == e.response && i.branch == e.branch && Knows(c.branches, e.branch))
      && (e.Early? ==> i.BranchResponse? && i.response == e.response && i.branch == e.branch && IsEarlyMedia(e.response))
      && (e.Withdrawn? <==> i.UpstreamCancelled? && !c.finished)
      && (e.Stuck? ==> SawProvisional(c.branches, e.branch) == Some(true))
      && (c.branches == [] ==> e.Ignored? || e.Withdrawn?)
  {
    if i.TimerFired? && i.guarded.Some? {
      SawKnown(c.branches, i.guarded.value);
    }
  }

  lemma {:induction false} SawKnown(bs: seq<Branch>, id: BranchId)
    ensures SawProvisional(bs, id).Some? ==>
      exists i :: 0 <= i < |bs| && bs[i].id == id && bs[i].state.Pending? && bs[i].state.sawProvisional == SawProvisional(bs, id).value
  {
    if bs != [] && !(bs[0].id == id && bs[0].state.Pending?) {
      SawKnown(bs[1..], id);
      if SawProvisional(bs[1..], id).Some? {
        var i :| 0 <= i < |bs[1..]| && bs[1..][i].id == id && bs[1..][i].state.Pending?
          && bs[1..][i].state.sawProvisional == SawProvisional(bs[1..], id).value;
        assert bs[i + 1] == bs[1..][i];
      }
    }
  }

  /** A branch event sends an end-of-set response exactly when it is an acceptance or a rejection. */
  lemma EventSends(pipe: Pipeline, c: Context, i: Input)
    requires Lawful(pipe) && c.request.Some? && c.validated.Some? && IsBranchEvent(i)
    requires FinalsInv(c) && (c.answered ==> c.queued == [])
    ensures var e := Classify(c, i); SendsEnd(c, OnInput(pipe, c, i).fx) <==> e.Accepted? || e.Rejected?
  {
    HandlesEvent(pipe, c, i);
    ClassifiedFinal(c, i);
    match Classify(c, i) {
      case Final(branch, response) =>
        FinalSendsNoEnd(pipe, c, branch, response);
      case Accepted(branch, response) => AcceptFacts(pipe, c, branch, response);
      case Rejected(branch, response) => RejectFacts(pipe, c, branch, response);
      case Early(branch, response) => EarlyFacts(pipe, c, branch, response);
      case Withdrawn => WithdrawnFacts(pipe, c);
      case _ =>
    }
  }

  lemma FinalSendsNoEnd(pipe: Pipeline, c: Context, branch: BranchId, final: Response)
    requires c.request.Some? && c.validated.Some? && FinalsInv(c) && (c.answered ==> c.queued == [])
    requires final.status >= 200 && !EndsTargetSet(c, final)
    ensures !SendsEnd(c, Handle(pipe, c, Final(branch, final)).fx)
  {
    FinalFacts(pipe, c, branch, final);
    var mid := Recorded(c, branch, final);
    ForkShape(pipe, mid);
    SelectedFinal(mid.finals, c.request.value);
  }

  lemma {:induction false} BestFinalIn(finals: seq<Response>)
    ensures BestFinal(finals).None? <==> finals == []
    ensures finals != [] ==>
      (exists f :: f in finals && f.status == BestFinal(finals).value)
      && forall f :: f in finals ==> Preferred(BestFinal(finals).value, f.status)
  {
    if finals != [] {
      BestFinalIn(finals[1..]);
      assert finals == [finals[0]] + finals[1..];
    }
  }

  lemma {:induction false} FirstWithIn(finals: seq<Response>, status: Status)
    ensures FirstWith(finals, status).Some? <==> exists f :: f in finals && f.status == status
    ensures FirstWith(finals, status).Some? ==> FirstWith(finals, status).value in finals && FirstWith(finals, status).value.status == status
  {
    if finals != [] {
      FirstWithIn(finals[1..], status);
      assert finals == [finals[0]] + finals[1..];
    }
  }

  /** R7 and R8 in one line: the upstream status is the best final's, except that 503 and nothing become 500. */
  lemma {:induction false} SelectedFinal(finals: seq<Response>, request: Request)
    ensures var s := Selected(finals, request).status;
      s == (if finals == [] || BestFinal(finals) == Some(503) then 500 else BestFinal(finals).value) && s != 503
      && (s == 500 || exists f :: f in finals && f.status == s)
  {
    BestFinalIn(finals);
    if finals != [] {
      FirstWithIn(finals, BestFinal(finals).value);
    }
  }

  lemma EndStep(pipe: Pipeline, w: World, i: Input)
    requires Lawful(pipe) && PhaseInv(w) && EndInv(w) && Admissible(w, i)
    ensures EndInv(Next(pipe, w, i))
  {
    var c := w.ctx;
    PhaseStep(pipe, w, i);
    if c.finished {
    } else if IsBranchEvent(i) {
      if c.request.Some? {
        EventEndStep(pipe, w, i);
      }
    } else {
      DeliveryEnd(pipe, w, i);
    }
  }

  lemma EventEndStep(pipe: Pipeline, w: World, i: Input)
    requires Lawful(pipe) && PhaseInv(w) && EndInv(w) && w.ctx.request.Some? && !w.ctx.finished && IsBranchEvent(i)
    ensures EndInv(Next(pipe, w, i))
  {
    var e := Classify(w.ctx, i);
    HandlesEvent(pipe, w.ctx, i);
    ClassifiedFinal(w.ctx, i);
    EventSends(pipe, w.ctx, i);
    EventEnd(pipe, w, e);
    if e.Accepted? { AcceptFacts(pipe, w.ctx, e.branch, e.response); }
    if e.Rejected? { RejectFacts(pipe, w.ctx, e.branch, e.response); }
  }

  lemma RouteItEnd(pipe: Pipeline, c: Context)
    requires Lawful(pipe) && c.request.Some? && c.validated.Some? && !c.finished && !c.answered
    requires c.branches == [] && c.queued == [] && c.finals == []
    ensures var out := RouteIt(pipe, c);
      && (out.next.finished ==> !HasLive(out.next.branches))
      && (out.next.answered || out.next.finished ==> out.next.queued == [])
      && !SendsEnd(c, out.fx)
  {
    var sole := [PredeterminedTarget(c.request.value)];
    assert sole[1..] == [] && SortByQ(sole) == sole;
    ForkEnd(pipe, c.(queued := sole));
    ForkShape(pipe, c.(queued := sole));
  }

  lemma DeliveryEnd(pipe: Pipeline, w: World, i: Input)
    requires Lawful(pipe) && PhaseInv(w) && EndInv(w) && Admissible(w, i) && !w.ctx.finished && !IsBranchEvent(i)
    ensures EndInv(Next(pipe, w, i))
  {
    var c := w.ctx;
    PhaseStep(pipe, w, i);
    match i {
      case Upstream(arrival) => UpstreamEnd(pipe, w, arrival);
      case TokenFact(verdict) =>
        if c.awaitingVerdict {
          RouteItEnd(pipe, c.(awaitingVerdict := false));
          RouteItShape(pipe, c.(awaitingVerdict := false));
        }
      case TargetsResolved(targets) =>
        ForkEnd(pipe, c.(queued := SortByQ(targets)));
        ForkShape(pipe, c.(queued := SortByQ(targets)));
      case _ =>
    }
  }

  lemma UpstreamEnd(pipe: Pipeline, w: World, arrival: Request)
    requires Lawful(pipe) && PhaseInv(w) && EndInv(w) && !w.started && !w.ctx.finished
    ensures EndInv(Next(pipe, w, Upstream(arrival)))
  {
    var read := pipe.validate(arrival);
    if read.Ok? {
      var c := w.ctx.(request := Some(pipe.preprocess(arrival).0), validated := Some(read.value));
      RouteItEnd(pipe, c);
      RouteItShape(pipe, c);
    }
  }
}
