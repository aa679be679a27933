/** Closed forms of the context's shared steps: what forking, selecting and cancelling come to. */
module ContextFacts {
  import opened Basics
  import opened Messages
  import opened Forwarding
  import opened ContextModel
  import opened ContextRuns

  /** What the context relies on about the building of copies. */
  ghost predicate Lawful(pipe: Pipeline) {
    forall plan ::
      && (pipe.build(plan).Ok? <==> Buildable(plan.target, plan.recordRoute, plan.tokens))
      && (pipe.build(plan).Ok? ==>
        && pipe.build(plan).value.branch == pipe.branchOf(plan.validated.cookieInput, plan.index)
        && pipe.build(plan).value.request.maxBreadth == Some(BreadthShare(plan.validated.maxBreadth, plan.parallelBranches)))
  }

  // ------------------------------------------------------------------ forking

  /** What a context stamps on its copies; with the target it decides whether a copy builds. */
  datatype Stamp = Stamp(recordRoute: bool, tokens: Option<RecordRouteTokens>)

  function StampOf(c: Context): Stamp {
    Stamp(c.request.Some? && IsDialogForming(c.request.value), c.tokens)
  }

  predicate Builds(stamp: Stamp, t: Target) { Buildable(t, stamp.recordRoute, stamp.tokens) }

  /** The targets a copy can be built for. */
  function Keep(stamp: Stamp, ts: seq<Target>): seq<Target> {
    if ts == [] then [] else (if Builds(stamp, ts[0]) then [ts[0]] else []) + Keep(stamp, ts[1..])
  }

  /** What the first target contributes. */
  function KeptOne(stamp: Stamp, t: Target): seq<Target> { if Builds(stamp, t) then [t] else [] }

  lemma {:induction false} KeepFirst(stamp: Stamp, first: Target, rest: seq<Target>)
    ensures Keep(stamp, [first] + rest) == KeptOne(stamp, first) + Keep(stamp, rest)
  {
    assert ([first] + rest)[1..] == rest;
  }

  lemma {:induction false} KeepAppend(stamp: Stamp, a: seq<Target>, b: seq<Target>)
    ensures Keep(stamp, a + b) == Keep(stamp, a) + Keep(stamp, b)
  {
    if a == [] {
      assert a + b == b;
    } else {
      KeepAppend(stamp, a[1..], b);
      KeepFirst(stamp, a[0], a[1..]);
      KeepFirst(stamp, a[0], a[1..] + b);
      assert [a[0]] + a[1..] == a && [a[0]] + (a[1..] + b) == a + b;
      Assoc(KeptOne(stamp, a[0]), Keep(stamp, a[1..]), Keep(stamp, b));
    }
  }

  lemma {:induction false} KeepAll(stamp: Stamp, ts: seq<Target>)
    requires forall t :: t in ts ==> Builds(stamp, t)
    ensures Keep(stamp, ts) == ts
  {
    if ts != [] {
      assert forall t :: t in ts[1..] ==> t in ts;
      KeepAll(stamp, ts[1..]);
    }
  }

  function TargetsOf(bs: seq<Branch>): seq<Target> {
    seq(|bs|, i requires 0 <= i < |bs| => bs[i].target)
  }

  /** Branch and copy agree, and every copy carries the given share of `Max-Breadth`. */
  ghost predicate Aligned(b: Branch, copy: Effect, share: nat) {
    copy.SendCopy? && copy.branch == b.id && copy.target == b.target && copy.request.maxBreadth == Some(share)
  }

  ghost predicate FreshGroup(bs: seq<Branch>, copies: seq<Effect>, share: nat) {
    |copies| == |bs| && forall i :: 0 <= i < |bs| ==> bs[i].state == Pending(false, false) && Aligned(bs[i], copies[i], share)
  }

  lemma {:induction false} CopiesFacts(pipe: Pipeline, c: Context, plan: ForwardPlan, group: seq<Target>, index: nat)
    requires Lawful(pipe) && c.request == Some(plan.original) && c.tokens == plan.tokens
    requires plan.recordRoute == IsDialogForming(plan.original)
    ensures var (bs, fx) := ForkCopies(pipe, plan, group, index);
      && TargetsOf(bs) == Keep(StampOf(c), group) && CancelsIn(fx) == []
      && FreshGroup(bs, CopiesIn(fx), BreadthShare(plan.validated.maxBreadth, plan.parallelBranches))
    decreases |group|
  {
    if group != [] {
      CopiesFacts(pipe, c, plan, group[1..], index + 1);
      KeepFirst(StampOf(c), group[0], group[1..]);
      assert group == [group[0]] + group[1..];
      BuildsAsKept(pipe, c, plan, group[0], index);
      if pipe.build(plan.(target := group[0], index := index)).Ok? {
        BuiltFacts(pipe, plan, group, index);
      } else {
        PassedOver(pipe, plan, group, index);
      }
    }
  }

  lemma BuildsAsKept(pipe: Pipeline, c: Context, plan: ForwardPlan, target: Target, index: nat)
    requires Lawful(pipe) && c.request == Some(plan.original) && c.tokens == plan.tokens
    requires plan.recordRoute == IsDialogForming(plan.original)
    ensures KeptOne(StampOf(c), target) == if pipe.build(plan.(target := target, index := index)).Ok? then [target] else []
  {
  }

  lemma PassedOver(pipe: Pipeline, plan: ForwardPlan, group: seq<Target>, index: nat)
    requires group != [] && pipe.build(plan.(target := group[0], index := index)).Err?
    ensures ForkCopies(pipe, plan, group, index) == ForkCopies(pipe, plan, group[1..], index + 1)
  {
  }

  lemma BuiltFacts(pipe: Pipeline, plan: ForwardPlan, group: seq<Target>, index: nat)
    requires Lawful(pipe) && group != [] && pipe.build(plan.(target := group[0], index := index)).Ok?
    requires var (bs, fx) := ForkCopies(pipe, plan, group[1..], index + 1);
      FreshGroup(bs, CopiesIn(fx), BreadthShare(plan.validated.maxBreadth, plan.parallelBranches))
    ensures var (bs, fx) := ForkCopies(pipe, plan, group, index);
      var rest := ForkCopies(pipe, plan, group[1..], index + 1);
      && TargetsOf(bs) == [group[0]] + TargetsOf(rest.0) && CancelsIn(fx) == CancelsIn(rest.1)
      && FreshGroup(bs, CopiesIn(fx), BreadthShare(plan.validated.maxBreadth, plan.parallelBranches))
  {
    var rest := ForkCopies(pipe, plan, group[1..], index + 1);
    var built := pipe.build(plan.(target := group[0], index := index)).value;
    OneCopy(pipe, plan, group, index);
    FreshFirst(Branch(built.branch, Pending(false, false), group[0]),
               SendCopy(built.branch, built.request, group[0], built.nextHop), rest.0, CopiesIn(rest.1),
               BreadthShare(plan.validated.maxBreadth, plan.parallelBranches));
  }

  lemma FreshFirst(b: Branch, copy: Effect, bs: seq<Branch>, copies: seq<Effect>, share: nat)
    requires FreshGroup(bs, copies, share) && b.state == Pending(false, false) && Aligned(b, copy, share)
    ensures FreshGroup([b] + bs, [copy] + copies, share) && TargetsOf([b] + bs) == [b.target] + TargetsOf(bs)
  {
  }

  lemma OneCopy(pipe: Pipeline, plan: ForwardPlan, group: seq<Target>, index: nat)
    requires group != [] && pipe.build(plan.(target := group[0], index := index)).Ok?
    ensures var (bs, fx) := ForkCopies(pipe, plan, group, index);
      var rest := ForkCopies(pipe, plan, group[1..], index + 1);
      var copy := pipe.build(plan.(target := group[0], index := index)).value;
      && bs == [Branch(copy.branch, Pending(false, false), group[0])] + rest.0
      && CopiesIn(fx) == [SendCopy(copy.branch, copy.request, group[0], copy.nextHop)] + CopiesIn(rest.1)
      && CancelsIn(fx) == CancelsIn(rest.1)
  {
    var rest := ForkCopies(pipe, plan, group[1..], index + 1);
    var copy := pipe.build(plan.(target := group[0], index := index)).value;
    var sent := SendCopy(copy.branch, copy.request, group[0], copy.nextHop);
    var timer := TimerFx(pipe, plan.original.verb, copy.branch);
    assert ForkCopies(pipe, plan, group, index).1 == [sent] + (timer + rest.1);
    FirstEffect(sent, timer + rest.1);
    SkipTimer(timer, rest.1);
  }

  lemma {:induction false} FirstEffect(e: Effect, fx: seq<Effect>)
    ensures CopiesIn([e] + fx) == (if e.SendCopy? then [e] else []) + CopiesIn(fx)
    ensures CancelsIn([e] + fx) == (if e.CancelBranch? then [e.branch] else []) + CancelsIn(fx)
  {
    assert ([e] + fx)[1..] == fx;
  }

  lemma {:induction false} SkipTimer(timer: seq<Effect>, fx: seq<Effect>)
    requires timer == [] || (|timer| == 1 && timer[0].SetTimer?)
    ensures CopiesIn(timer + fx) == CopiesIn(fx) && CancelsIn(timer + fx) == CancelsIn(fx)
  {
    if timer == [] {
      assert timer + fx == fx;
    } else {
      FirstEffect(timer[0], fx);
      assert timer == [timer[0]];
    }
  }

  /** A fork appends one fresh group: one `q`, one share, and exactly the targets that build. */
  lemma ForkFacts(pipe: Pipeline, c: Context)
    requires Lawful(pipe) && c.request.Some? && c.validated.Some? && c.queued != []
    ensures var out := ForkNextGroup(pipe, c);
      var n := GroupSize(c.queued, c.validated.value.maxBreadth);
      var bs := out.next.branches[|c.branches|..];
      && c.branches <= out.next.branches && out.next.queued == c.queued[n..]
      && TargetsOf(bs) == Keep(StampOf(c), c.queued[..n])
      && CancelsIn(out.fx) == [] && FreshGroup(bs, CopiesIn(out.fx), BreadthShare(c.validated.value.maxBreadth, n))
      && (if c.branches == [] && bs == [] && n == |c.queued| then
            out == RespondAndFinish(out.next.(answered := c.answered, finished := c.finished), c.request.value, 480)
          else out.next == c.(branches := c.branches + bs, queued := c.queued[n..]))
  {
    var n := GroupSize(c.queued, c.validated.value.maxBreadth);
    var group := c.queued[..n];
    var plan := GroupPlan(c, group);
    CopiesFacts(pipe, c, plan, group, |c.branches|);
    var (bs, fx) := ForkCopies(pipe, plan, group, |c.branches|);
    assert (c.branches + bs)[|c.branches|..] == bs;
    assert plan.parallelBranches == n;
    NothingIn(c.request.value, 480);
    assert PendingIds([]) == [] && CancelFx([]) == [];
  }

  lemma NothingIn(request: Request, status: Status)
    ensures var fx := [Respond(BuildResponse(request, status))] + CancelFx([]) + [Terminate];
      CopiesIn(fx) == [] && CancelsIn(fx) == []
  {
    var fx := [Respond(BuildResponse(request, status))] + CancelFx([]) + [Terminate];
    assert fx == [Respond(BuildResponse(request, status))] + ([Terminate] + []);
    FirstEffect(Respond(BuildResponse(request, status)), [Terminate] + []);
    FirstEffect(Terminate, []);
  }

  // ------------------------------------------------------------------ selecting

  /** R7 with R8: the response sent when every branch has concluded and nothing is left to try. */
  function Selected(finals: seq<Response>, request: Request): Response {
    match BestFinal(finals)
    case None => BuildResponse(request, 500)
    case Some(best) =>
      if best == 503 then BuildResponse(request, 500)
      else if best == 401 || best == 407 then PopVia(Aggregate(request, finals, best))
      else match FirstWith(finals, best)
        case None => BuildResponse(request, 500)
        case Some(response) => PopVia(response)
  }

  lemma {:induction false} NonePending(bs: seq<Branch>)
    requires !HasLive(bs)
    ensures PendingIds(bs) == [] && CancelIn(bs, []) == bs
  {
    if bs != [] {
      assert !HasLive(bs[1..]) by {
        assert forall i :: 0 <= i < |bs[1..]| ==> bs[1..][i] == bs[i + 1];
      }
      NonePending(bs[1..]);
    }
  }

  /** With no branch live, selection ends the context; it answers only if nothing was answered before. */
  lemma SelectFacts(c: Context, request: Request)
    requires !HasLive(c.branches) && !MayFork(c)
    ensures SelectAndAnswer(c, request) ==
      Out(c.(answered := true, finished := true),
          (if c.answered then [] else [Respond(Selected(c.finals, request))]) + [Terminate])
  {
    NonePending(c.branches);
    assert CancelFx([]) == [];
  }

  // ------------------------------------------------------------------ pending branches

  predicate NoDup(ids: seq<BranchId>) {
    forall i, j :: 0 <= i < j < |ids| ==> ids[i] != ids[j]
  }

  ghost predicate Distinct(bs: seq<Branch>) {
    forall i, j :: 0 <= i < j < |bs| ==> bs[i].id != bs[j].id
  }

  predicate IsPendingId(bs: seq<Branch>, id: BranchId) {
    exists i :: 0 <= i < |bs| && bs[i].id == id && bs[i].state.Pending?
  }

  lemma {:induction false} PendingIdsFacts(bs: seq<Branch>)
    ensures forall id :: id in PendingIds(bs) <==> IsPendingId(bs, id)
    ensures Distinct(bs) ==> NoDup(PendingIds(bs))
  {
    if bs != [] {
      var rest := bs[1..];
      PendingIdsFacts(rest);
      assert forall i :: 0 < i < |bs| ==> bs[i] == rest[i - 1];
      forall id ensures IsPendingId(bs, id) <==> (bs[0].id == id && bs[0].state.Pending?) || IsPendingId(rest, id) {
        if IsPendingId(rest, id) {
          var i :| 0 <= i < |rest| && rest[i].id == id && rest[i].state.Pending?;
          assert bs[i + 1].id == id;
        }
      }
      if Distinct(bs) {
        assert Distinct(rest);
        assert !IsPendingId(rest, bs[0].id);
      }
    }
  }

  lemma {:induction false} CancelsOfIds(ids: seq<BranchId>, tail: seq<Effect>)
    ensures CancelsIn(CancelFx(ids) + tail) == ids + CancelsIn(tail) && CopiesIn(CancelFx(ids) + tail) == CopiesIn(tail)
  {
    if ids == [] {
      assert CancelFx(ids) + tail == tail;
    } else {
      CancelsOfIds(ids[1..], tail);
      FirstEffect(CancelBranch(ids[0]), CancelFx(ids[1..]) + tail);
      assert CancelFx(ids) + tail == [CancelBranch(ids[0])] + (CancelFx(ids[1..]) + tail);
    }
  }
}
