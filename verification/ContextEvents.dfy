/** Every branch event, classified by what it does to the context. */
module ContextEvents {
  import opened Messages
  import opened ContextModel
  import opened ContextRuns
  import opened ContextFacts

  datatype Event =
    | Ignored
    | Early(branch: BranchId, response: Response)   // a 101-199
    | Final(branch: BranchId, response: Response)   // a final that goes to selection
    | Accepted(branch: BranchId, response: Response) // a 2xx to an INVITE
    | Rejected(branch: BranchId, response: Response) // a 6xx
    | Withdrawn                                      // an upstream CANCEL
    | Stuck(branch: BranchId)                        // Timer C after a provisional

  function ClassifyResponse(c: Context, response: Response, branch: BranchId): Event
    requires c.request.Some?
  {
    if !Knows(c.branches, branch) || response.status == 100 then Ignored
    else if IsProvisional(response.status) then Early(branch, response)
    else if response.status == 503 then Final(branch, BuildResponse(c.request.value, 503))
    else if response.status / 100 == 2 && c.request.value.verb.Invite? then Accepted(branch, response)
    else if response.status / 100 == 6 then Rejected(branch, response)
    else Final(branch, response)
  }

  function Classify(c: Context, i: Input): Event
    requires c.request.Some? && IsBranchEvent(i)
  {
    if c.finished then Ignored
    else match i
      case BranchResponse(response, branch) => ClassifyResponse(c, response, branch)
      case BranchTransportError(branch) =>
        if Knows(c.branches, branch) then Final(branch, BuildResponse(c.request.value, 503)) else Ignored
      case TimerFired(guarded) =>
        if guarded.None? then Ignored
        else (match SawProvisional(c.branches, guarded.value)
              case None => Ignored
              case Some(true) => Stuck(guarded.value)
              case Some(false) => Final(guarded.value, BuildResponse(c.request.value, 408)))
      case _ => Withdrawn
  }

  function Handle(pipe: Pipeline, c: Context, e: Event): Out
    requires c.request.Some?
  {
    match e
    case Ignored => Out(c, [])
    case Early(branch, response) => OnProvisional(pipe, c, c.request.value.verb, response, branch)
    case Final(branch, response) => Collect(pipe, c, c.request.value, branch, response)
    case Accepted(branch, response) => Accept(c, response, branch)
    case Rejected(branch, response) => Reject(c, response, branch)
    case Withdrawn => OnUpstreamCancelled(c)
    case Stuck(branch) => Out(c.(branches := SetCancelling(c.branches, branch)), [CancelBranch(branch)])
  }

  lemma HandlesEvent(pipe: Pipeline, c: Context, i: Input)
    requires c.request.Some? && IsBranchEvent(i)
    ensures OnInput(pipe, c, i) == Handle(pipe, c, Classify(c, i))
  {
  }

  // ------------------------------------------------------------------ closed forms

  /** The context once a branch's final is on record. */
  function Recorded(c: Context, branch: BranchId, final: Response): Context {
    c.(branches := ConcludeAll(c.branches, branch, final.status), finals := c.finals + [final])
  }

  lemma FinalFacts(pipe: Pipeline, c: Context, branch: BranchId, final: Response)
    requires c.request.Some? && (c.answered ==> c.queued == [])
    ensures var out := Handle(pipe, c, Final(branch, final));
      var mid := Recorded(c, branch, final);
      if HasLive(mid.branches) then out == Out(mid, [])
      else if MayFork(mid) then out == ForkNextGroup(pipe, mid)
      else out == Out(mid.(answered := true, finished := true),
                      (if c.answered then [] else [Respond(Selected(mid.finals, c.request.value))]) + [Terminate])
  {
    var mid := Recorded(c, branch, final);
    if !HasLive(mid.branches) && !MayFork(mid) {
      SelectFacts(mid, c.request.value);
    }
  }

  /** Every pending branch cancelled (R11). */
  function Swept(bs: seq<Branch>): seq<Branch> { CancelIn(bs, PendingIds(bs)) }

  lemma SweptFacts(bs: seq<Branch>)
    requires Distinct(bs)
    ensures forall i :: 0 <= i < |bs| ==>
      Swept(bs)[i] == (if bs[i].state.Pending? then bs[i].(state := Cancelling) else bs[i])
  {
    PendingIdsFacts(bs);
    forall i | 0 <= i < |bs|
      ensures bs[i].id in PendingIds(bs) <==> bs[i].state.Pending?
    {
      if IsPendingId(bs, bs[i].id) {
        var j :| 0 <= j < |bs| && bs[j].id == bs[i].id && bs[j].state.Pending?;
        assert i == j;
      }
    }
  }

  lemma AcceptFacts(pipe: Pipeline, c: Context, branch: BranchId, response: Response)
    requires c.request.Some?
    ensures var out := Handle(pipe, c, Accepted(branch, response));
      var concluded := ConcludeAll(c.branches, branch, response.status);
      && out.next == c.(branches := Swept(concluded), answered := true, queued := [])
      && out.fx == [Respond(PopVia(response))] + CancelFx(PendingIds(concluded))
      && CopiesIn(out.fx) == [] && CancelsIn(out.fx) == PendingIds(concluded)
  {
    var ids := PendingIds(ConcludeAll(c.branches, branch, response.status));
    FirstEffect(Respond(PopVia(response)), CancelFx(ids));
    CancelsOfIds(ids, []);
    assert CancelFx(ids) + [] == CancelFx(ids) && ids + [] == ids;
  }

  lemma RejectFacts(pipe: Pipeline, c: Context, branch: BranchId, response: Response)
    requires c.request.Some?
    ensures var out := Handle(pipe, c, Rejected(branch, response));
      var mid := Recorded(c, branch, response);
      var done := !HasLive(Swept(mid.branches));
      && out.next == mid.(branches := Swept(mid.branches), answered := true, queued := [], finished := c.finished || done)
      && out.fx == [Respond(PopVia(response))] + CancelFx(PendingIds(mid.branches)) + (if done then [Terminate] else [])
      && CopiesIn(out.fx) == [] && CancelsIn(out.fx) == PendingIds(mid.branches)
  {
    var mid := Recorded(c, branch, response);
    var ids := PendingIds(mid.branches);
    var tail := if HasLive(Swept(mid.branches)) then [] else [Terminate];
    var out := Handle(pipe, c, Rejected(branch, response));
    assert out.fx == [Respond(PopVia(response))] + (CancelFx(ids) + tail);
    FirstEffect(Respond(PopVia(response)), CancelFx(ids) + tail);
    CancelsOfIds(ids, tail);
    FirstEffect(Terminate, []);
    assert [Terminate] + [] == [Terminate] && ids + [] == ids;
  }

  lemma {:induction false} EarlyFacts(pipe: Pipeline, c: Context, branch: BranchId, response: Response)
    requires c.request.Some?
    ensures var out := Handle(pipe, c, Early(branch, response));
      var release := Releases(c.branches, branch);
      var marked := MarkProvisional(c.branches, branch);
      && out.next == c.(branches := if release then SetCancelling(marked, branch) else marked)
      && out.fx != [] && out.fx[0] == Respond(PopVia(response))
      && CopiesIn(out.fx) == [] && CancelsIn(out.fx) == (if release then [branch] else [])
  {
    var release := Releases(c.branches, branch);
    var timer := TimerFx(pipe, c.request.value.verb, branch);
    var tail := if release then [CancelBranch(branch)] else [];
    assert Handle(pipe, c, Early(branch, response)).fx == [Respond(PopVia(response))] + (timer + tail);
    FirstEffect(Respond(PopVia(response)), timer + tail);
    SkipTimer(timer, tail);
    FirstEffect(CancelBranch(branch), []);
    assert [CancelBranch(branch)] + [] == [CancelBranch(branch)];
  }

  // ------------------------------------------------------------------ the CANCEL sweep

  /** The branches a CANCEL can stop now: pending, with a provisional heard. */
  function HeardIds(pending: seq<(BranchId, bool)>): seq<BranchId> {
    if pending == [] then [] else (if pending[0].1 then [pending[0].0] else []) + HeardIds(pending[1..])
  }

  lemma {:induction false} CancelEachFx(bs: seq<Branch>, pending: seq<(BranchId, bool)>)
    ensures CancelEach(bs, pending).1 == CancelFx(HeardIds(pending))
    decreases |pending|
  {
    if pending != [] {
      CancelEachFx(if pending[0].1 then SetCancelling(bs, pending[0].0) else QueueCancel(bs, pending[0].0), pending[1..]);
      if pending[0].1 {
        assert CancelFx(HeardIds(pending)) == [CancelBranch(pending[0].0)] + CancelFx(HeardIds(pending[1..]));
      }
    }
  }

  /** What a CANCEL makes of one branch. */
  function Withdraw(b: Branch): Branch {
    match b.state
    case Pending(saw, _) => b.(state := if saw then Cancelling else Pending(false, true))
    case _ => b
  }

  /** With distinct branches the sweep of the suffix from `k` withdraws exactly that suffix. */
  lemma {:induction false} SweepSuffix(bs: seq<Branch>, k: nat)
    requires Distinct(bs) && k <= |bs|
    ensures var after := CancelEach(bs, PendingWithSaw(bs[k..])).0;
      |after| == |bs| && forall i :: 0 <= i < |bs| ==> after[i] == (if i < k then bs[i] else Withdraw(bs[i]))
    decreases |bs| - k
  {
    if k < |bs| {
      var b := bs[k];
      assert bs[k..][0] == b && bs[k..][1..] == bs[k + 1..];
      SweepOneFacts(bs, k);
      var next := bs[k := Withdraw(b)];
      assert next[k + 1..] == bs[k + 1..];
      SweepSuffix(next, k + 1);
      SweepStep(bs, bs[k..]);
    }
  }

  lemma {:induction false} SweepStep(bs: seq<Branch>, rest: seq<Branch>)
    requires rest != []
    ensures CancelEach(bs, PendingWithSaw(rest)).0 ==
      CancelEach(SweepOne(bs, rest[0]), PendingWithSaw(rest[1..])).0
  {
    if rest[0].state.Pending? {
      assert PendingWithSaw(rest)[1..] == PendingWithSaw(rest[1..]);
    } else {
      assert PendingWithSaw(rest) == PendingWithSaw(rest[1..]);
    }
  }

  function SweepOne(bs: seq<Branch>, b: Branch): seq<Branch> {
    if !b.state.Pending? then bs
    else if b.state.sawProvisional then SetCancelling(bs, b.id)
    else QueueCancel(bs, b.id)
  }

  lemma SweepOneFacts(bs: seq<Branch>, k: nat)
    requires Distinct(bs) && k < |bs|
    ensures SweepOne(bs, bs[k]) == bs[k := Withdraw(bs[k])]
  {
    forall i | 0 <= i < |bs|
      ensures SweepOne(bs, bs[k])[i] == bs[k := Withdraw(bs[k])][i]
    {
      assert bs[i].id == bs[k].id <==> i == k;
    }
  }

  lemma WithdrawnFacts(pipe: Pipeline, c: Context)
    requires c.request.Some?
    ensures var out := Handle(pipe, c, Withdrawn);
      && out.next == c.(queued := [], branches := out.next.branches)
      && SamePlaces(c.branches, out.next.branches)
      && (forall i :: 0 <= i < |c.branches| && IsLive(c.branches[i].state) ==> IsLive(out.next.branches[i].state))
      && CopiesIn(out.fx) == [] && CancelsIn(out.fx) == HeardIds(PendingWithSaw(c.branches))
      && out.fx == [AnswerCancel] + CancelFx(HeardIds(PendingWithSaw(c.branches)))
      && (Distinct(c.branches) ==>
            forall i :: 0 <= i < |c.branches| ==> out.next.branches[i] == Withdraw(c.branches[i]))
  {
    var pending := PendingWithSaw(c.branches);
    CancelEachShape(c.branches, pending);
    CancelEachFx(c.branches, pending);
    WithdrawnFx(HeardIds(pending));
    if Distinct(c.branches) {
      SweepSuffix(c.branches, 0);
      assert c.branches[0..] == c.branches;
    }
  }

  lemma WithdrawnFx(ids: seq<BranchId>)
    ensures var fx := [AnswerCancel] + CancelFx(ids); CopiesIn(fx) == [] && CancelsIn(fx) == ids
  {
    FirstEffect(AnswerCancel, CancelFx(ids));
    CancelsOfIds(ids, []);
    assert CancelFx(ids) + [] == CancelFx(ids) && ids + [] == ids;
  }
}
