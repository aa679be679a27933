/** Where the targets go: conservation over whole runs. */
module ContextTargets {
  import opened Basics
  import opened Messages
  import opened Routing
  import opened ContextModel
  import opened ContextRuns
  import opened ContextFacts
  import opened ContextEvents
  import opened ContextInvariants

  // ------------------------------------------------------------------ the stable sort

  predicate Descending(ts: seq<Target>) {
    forall i, j :: 0 <= i < j < |ts| ==> ts[i].q >= ts[j].q
  }

  /** The targets of one preference, in order. */
  function WithQ(ts: seq<Target>, q: u16): seq<Target> {
    if ts == [] then [] else (if ts[0].q == q then [ts[0]] else []) + WithQ(ts[1..], q)
  }

  lemma {:induction false} InsertSorts(t: Target, ts: seq<Target>)
    requires Descending(ts)
    ensures Descending(Insert(t, ts)) && multiset(Insert(t, ts)) == multiset{t} + multiset(ts)
  {
    if ts != [] && ts[0].q > t.q {
      assert ts == [ts[0]] + ts[1..];
      InsertSorts(t, ts[1..]);
      FirstIsMost(ts[0], t, ts[1..], Insert(t, ts[1..]));
    }
  }

  lemma FirstIsMost(first: Target, t: Target, ts: seq<Target>, rest: seq<Target>)
    requires Descending([first] + ts) && first.q > t.q && Descending(rest) && multiset(rest) == multiset{t} + multiset(ts)
    ensures Descending([first] + rest)
  {
    assert ([first] + ts)[0] == first;
    forall k | 0 <= k < |rest| ensures first.q >= rest[k].q {
      assert rest[k] in multiset(rest);
      if rest[k] != t {
        assert rest[k] in ts;
        var i :| 0 <= i < |ts| && ts[i] == rest[k];
        assert ([first] + ts)[i + 1] == ts[i];
      }
    }
  }

  lemma {:induction false} WithQFirst(t: Target, ts: seq<Target>, q: u16)
    ensures WithQ([t] + ts, q) == (if t.q == q then [t] else []) + WithQ(ts, q)
  {
    assert ([t] + ts)[1..] == ts;
  }

  lemma {:induction false} InsertKeepsOrder(t: Target, ts: seq<Target>, q: u16)
    ensures WithQ(Insert(t, ts), q) == (if t.q == q then [t] else []) + WithQ(ts, q)
  {
    if ts == [] || ts[0].q <= t.q {
      WithQFirst(t, ts, q);
    } else {
      InsertKeepsOrder(t, ts[1..], q);
      WithQFirst(ts[0], Insert(t, ts[1..]), q);
      WithQFirst(ts[0], ts[1..], q);
      assert ts == [ts[0]] + ts[1..];
      assert ts[0].q == q ==> t.q != q;
    }
  }

  /** Most preferred first, nothing lost, and equal preferences keep the order they came in. */
  lemma {:induction false} SortIsStable(ts: seq<Target>)
    ensures Descending(SortByQ(ts)) && multiset(SortByQ(ts)) == multiset(ts)
    ensures forall q :: WithQ(SortByQ(ts), q) == WithQ(ts, q)
  {
    if ts != [] {
      SortIsStable(ts[1..]);
      InsertSorts(ts[0], SortByQ(ts[1..]));
      assert ts == [ts[0]] + ts[1..];
      forall q ensures WithQ(SortByQ(ts), q) == WithQ(ts, q) {
        InsertKeepsOrder(ts[0], SortByQ(ts[1..]), q);
      }
    }
  }

  // ------------------------------------------------------------------ conservation

  ghost predicate SameOrder(bs: seq<Branch>, copies: seq<Effect>) {
    |copies| == |bs| && forall i :: 0 <= i < |bs| ==>
      copies[i].SendCopy? && copies[i].branch == bs[i].id && copies[i].target == bs[i].target
  }

  /**
   * Until the target set is concluded, the targets forwarded and the targets still queued are the sorted
   * resolved list, less those no copy can be built for; afterwards what was forwarded is a prefix of it.
   */
  ghost predicate ConserveInv(w: World) {
    && SameOrder(w.ctx.branches, w.copies)
    && (w.resolved.Some? ==>
      var stamp := StampOf(w.ctx);
      var sorted := SortByQ(w.resolved.value);
      && TargetsOf(w.ctx.branches) <= Keep(stamp, sorted)
      && (!w.closed ==> TargetsOf(w.ctx.branches) + Keep(stamp, w.ctx.queued) == Keep(stamp, sorted))
      && forall t :: t in w.ctx.queued ==> t in sorted)
  }

  ghost predicate AllBuild(w: World) {
    w.resolved.Some? && forall t :: t in SortByQ(w.resolved.value) ==> Builds(StampOf(w.ctx), t)
  }

  lemma SameOrderAppend(a: seq<Branch>, x: seq<Effect>, b: seq<Branch>, y: seq<Effect>)
    requires SameOrder(a, x) && SameOrder(b, y)
    ensures SameOrder(a + b, x + y)
  {
  }

  /** The same facts one fork at a time. */
  lemma ForkConserves(pipe: Pipeline, c: Context)
    requires Lawful(pipe) && c.request.Some? && c.validated.Some? && c.queued != []
    ensures var out := ForkNextGroup(pipe, c);
      && TargetsOf(out.next.branches) + Keep(StampOf(c), out.next.queued) == TargetsOf(c.branches) + Keep(StampOf(c), c.queued)
      && (forall t :: t in out.next.queued ==> t in c.queued)
  {
    ForkFacts(pipe, c);
    var next := ForkNextGroup(pipe, c).next;
    var n := GroupSize(c.queued, c.validated.value.maxBreadth);
    var bs := next.branches[|c.branches|..];
    assert next.branches == c.branches + bs;
    TargetsAppend(c.branches, bs);
    KeepSplit(StampOf(c), c.queued, n);
    Assoc(TargetsOf(c.branches), Keep(StampOf(c), c.queued[..n]), Keep(StampOf(c), c.queued[n..]));
  }

  lemma {:induction false} KeepSplit(stamp: Stamp, ts: seq<Target>, n: nat)
    requires n <= |ts|
    ensures Keep(stamp, ts) == Keep(stamp, ts[..n]) + Keep(stamp, ts[n..])
  {
    KeepAppend(stamp, ts[..n], ts[n..]);
    assert ts[..n] + ts[n..] == ts;
  }

  lemma TargetsAppend(a: seq<Branch>, b: seq<Branch>)
    ensures TargetsOf(a + b) == TargetsOf(a) + TargetsOf(b)
  {
  }

  lemma ForkOrder(pipe: Pipeline, c: Context, copies: seq<Effect>)
    requires Lawful(pipe) && c.request.Some? && c.validated.Some? && c.queued != [] && SameOrder(c.branches, copies)
    ensures var out := ForkNextGroup(pipe, c); SameOrder(out.next.branches, copies + CopiesIn(out.fx))
  {
    ForkFacts(pipe, c);
    var out := ForkNextGroup(pipe, c);
    var bs := out.next.branches[|c.branches|..];
    assert out.next.branches == c.branches + bs;
    SameOrderAppend(c.branches, copies, bs, CopiesIn(out.fx));
  }

  lemma SamePlacesSame(a: seq<Branch>, b: seq<Branch>, copies: seq<Effect>)
    requires SamePlaces(a, b)
    ensures TargetsOf(a) == TargetsOf(b)
    ensures SameOrder(a, copies) ==> SameOrder(b, copies)
  {
  }

  /** What an event that is not a final leaves alone. */
  ghost predicate Quiet(c: Context, e: Event, out: Out) {
    && SamePlaces(c.branches, out.next.branches) && SameRequest(c, out.next) && CopiesIn(out.fx) == []
    && (out.next.queued == c.queued || (out.next.queued == [] && (e.Accepted? || e.Rejected? || e.Withdrawn?)))
    && (e.Accepted? || e.Rejected? ==> out.next.answered)
  }

  lemma QuietEnd(pipe: Pipeline, c: Context, e: Event)
    requires c.request.Some? && (e.Accepted? || e.Rejected?)
    ensures Quiet(c, e, Handle(pipe, c, e))
  {
    SweepKeepsPlaces(ConcludeAll(c.branches, e.branch, e.response.status));
    if e.Accepted? {
      AcceptFacts(pipe, c, e.branch, e.response);
    } else {
      RejectFacts(pipe, c, e.branch, e.response);
    }
  }

  lemma QuietEarly(pipe: Pipeline, c: Context, e: Event)
    requires c.request.Some? && e.Early?
    ensures Quiet(c, e, Handle(pipe, c, e))
  {
    EarlyFacts(pipe, c, e.branch, e.response);
  }

  /** An event that is not a final keeps every branch in its place and forks nothing. */
  lemma QuietEvent(pipe: Pipeline, c: Context, e: Event)
    requires c.request.Some? && !e.Final?
    ensures Quiet(c, e, Handle(pipe, c, e))
  {
    match e {
      case Accepted(_, _) => QuietEnd(pipe, c, e);
      case Rejected(_, _) => QuietEnd(pipe, c, e);
      case Early(_, _) => QuietEarly(pipe, c, e);
      case Withdrawn => WithdrawnFacts(pipe, c);
      case Stuck(branch) => NoCopies([CancelBranch(branch)]);
      case _ =>
    }
  }

  lemma SweepKeepsPlaces(bs: seq<Branch>)
    ensures SamePlaces(bs, Swept(bs))
  {
  }

  lemma TargetsStep(pipe: Pipeline, w: World, i: Input)
    requires Lawful(pipe) && PhaseInv(w) && EndInv(w) && ConserveInv(w) && Admissible(w, i)
    ensures ConserveInv(Next(pipe, w, i))
  {
    if w.ctx.finished {
      assert w.copies + [] == w.copies;
    } else if !IsBranchEvent(i) {
      if w.resolved.None? {
        DeliveryTargets(pipe, w, i);
      } else {
        assert OnInput(pipe, w.ctx, i) == Out(w.ctx, []);
        assert w.copies + [] == w.copies;
      }
    } else if w.ctx.request.None? {
      UnstartedEvent(pipe, w.ctx, i);
      assert w.copies + [] == w.copies;
    } else {
      EventTargets(pipe, w, i);
    }
  }

  /** Nothing can happen to a branch before there is one. */
  lemma UnstartedEvent(pipe: Pipeline, c: Context, i: Input)
    requires c.request.None? && c.branches == [] && c.queued == [] && IsBranchEvent(i)
    ensures var out := OnInput(pipe, c, i); out.next.(finished := c.finished) == c && CopiesIn(out.fx) == []
  {
    assert CancelEach([], []) == ([], []);
    NoCopies(OnInput(pipe, c, i).fx);
  }

  lemma EventTargets(pipe: Pipeline, w: World, i: Input)
    requires Lawful(pipe) && PhaseInv(w) && EndInv(w) && ConserveInv(w)
    requires w.ctx.request.Some? && !w.ctx.finished && IsBranchEvent(i)
    ensures ConserveInv(Next(pipe, w, i))
  {
    var c := w.ctx;
    var e := Classify(c, i);
    HandlesEvent(pipe, c, i);
    ClassifiedFinal(c, i);
    EventSends(pipe, c, i);
    if e.Final? {
      FinalTargets(pipe, w, i);
    } else {
      QuietEvent(pipe, c, e);
      FromNoCopies(w.copies, OnInput(pipe, c, i).fx);
      QuietConserved(w, Next(pipe, w, i));
    }
  }

  /** What moves no branch, sends no copy, and drops the queue only when the target set closes. */
  lemma QuietConserved(w: World, next: World)
    requires ConserveInv(w) && SamePlaces(w.ctx.branches, next.ctx.branches) && SameRequest(w.ctx, next.ctx)
    requires next.copies == w.copies && next.resolved == w.resolved && (w.closed ==> next.closed)
    requires next.ctx.queued == w.ctx.queued || (next.ctx.queued == [] && next.closed)
    ensures ConserveInv(next)
  {
    SamePlacesSame(w.ctx.branches, next.ctx.branches, w.copies);
  }

  /** What a final conserves: the copies follow the branches, and forwarded and queued together stay the same. */
  ghost predicate Conserves(c: Context, copies: seq<Effect>, out: Out) {
    && SameRequest(c, out.next) && SameOrder(out.next.branches, copies + CopiesIn(out.fx))
    && TargetsOf(out.next.branches) + Keep(StampOf(c), out.next.queued) == TargetsOf(c.branches) + Keep(StampOf(c), c.queued)
    && forall t :: t in out.next.queued ==> t in c.queued
  }

  lemma ForkKeepsTargets(pipe: Pipeline, c: Context, copies: seq<Effect>)
    requires Lawful(pipe) && c.request.Some? && c.validated.Some? && c.queued != [] && SameOrder(c.branches, copies)
    ensures Conserves(c, copies, ForkNextGroup(pipe, c))
  {
    ForkShape(pipe, c);
    ForkConserves(pipe, c);
    ForkOrder(pipe, c, copies);
  }

  /** A final either leaves someone live, forks the next group, or ends the context. */
  lemma FinalConserves(pipe: Pipeline, c: Context, copies: seq<Effect>, e: Event)
    requires Lawful(pipe) && c.request.Some? && c.validated.Some? && (c.answered ==> c.queued == []) && e.Final?
    requires SameOrder(c.branches, copies)
    ensures Conserves(c, copies, Handle(pipe, c, e))
  {
    var mid := Recorded(c, e.branch, e.response);
    FinalFacts(pipe, c, e.branch, e.response);
    SamePlacesSame(c.branches, mid.branches, copies);
    if !HasLive(mid.branches) && MayFork(mid) {
      ForkKeepsTargets(pipe, mid, copies);
    } else {
      ClosingFx(c.answered, Selected(mid.finals, c.request.value));
      FromNoCopies(copies, Handle(pipe, c, e).fx);
    }
  }

  lemma {:induction false} FromNoCopies(copies: seq<Effect>, fx: seq<Effect>)
    requires CopiesIn(fx) == []
    ensures copies + CopiesIn(fx) == copies
  {
  }

  lemma FinalTargets(pipe: Pipeline, w: World, i: Input)
    requires Lawful(pipe) && PhaseInv(w) && EndInv(w) && ConserveInv(w)
    requires w.ctx.request.Some? && !w.ctx.finished && IsBranchEvent(i) && Classify(w.ctx, i).Final?
    ensures ConserveInv(Next(pipe, w, i))
  {
    HandlesEvent(pipe, w.ctx, i);
    EventSends(pipe, w.ctx, i);
    FinalConserves(pipe, w.ctx, w.copies, Classify(w.ctx, i));
    StillConserved(w, Next(pipe, w, i), Handle(pipe, w.ctx, Classify(w.ctx, i)));
  }

  lemma StillConserved(w: World, next: World, out: Out)
    requires ConserveInv(w) && Conserves(w.ctx, w.copies, out)
    requires next.ctx == out.next && next.copies == w.copies + CopiesIn(out.fx) && next.resolved == w.resolved && (w.closed ==> next.closed)
    requires w.closed ==> w.ctx.queued == []
    ensures ConserveInv(next)
  {
  }

  lemma ClosingFx(answered: bool, response: Response)
    ensures var fx := (if answered then [] else [Respond(response)]) + [Terminate];
      CopiesIn(fx) == [] && CancelsIn(fx) == []
  {
    FirstEffect(Terminate, []);
    assert [Terminate] + [] == [Terminate] && [] + [Terminate] == [Terminate];
    FirstEffect(Respond(response), [Terminate]);
  }

  /** The first fork, from nothing. */
  lemma {:induction false} FirstFork(pipe: Pipeline, c: Context, sorted: seq<Target>)
    requires Lawful(pipe) && c.request.Some? && c.validated.Some? && c.branches == [] && sorted != [] && !c.finished
    ensures var out := ForkNextGroup(pipe, c.(queued := sorted));
      && SameRequest(c, out.next)
      && TargetsOf(out.next.branches) + Keep(StampOf(c), out.next.queued) == Keep(StampOf(c), sorted)
      && SameOrder(out.next.branches, [] + CopiesIn(out.fx))
      && (forall t :: t in out.next.queued ==> t in sorted)
  {
    var d := c.(queued := sorted);
    ForkShape(pipe, d);
    ForkConserves(pipe, d);
    ForkOrder(pipe, d, []);
    assert TargetsOf([]) + Keep(StampOf(c), sorted) == Keep(StampOf(c), sorted);
  }

  lemma SoleSort(t: Target)
    ensures SortByQ([t]) == [t]
  {
    assert [t][1..] == [];
  }

  lemma DeliveryTargets(pipe: Pipeline, w: World, i: Input)
    requires Lawful(pipe) && PhaseInv(w) && EndInv(w) && ConserveInv(w)
    requires Admissible(w, i) && !w.ctx.finished && !IsBranchEvent(i) && w.resolved.None?
    ensures ConserveInv(Next(pipe, w, i))
  {
    var c := w.ctx;
    if i.TargetsResolved? && i.targets != [] {
      ResolvedTargets(pipe, w, i);
    } else if i.Upstream? && pipe.validate(i.arrival).Ok? && pipe.preprocess(i.arrival).1.None? {
      RoutedTargets(pipe, w, i, c.(request := Some(pipe.preprocess(i.arrival).0), validated := Some(pipe.validate(i.arrival).value)));
    } else if i.TokenFact? && c.awaitingVerdict && i.verdict.Valid? {
      RoutedTargets(pipe, w, i, c.(awaitingVerdict := false));
    } else {
      NoCopies(OnInput(pipe, c, i).fx);
      PhaseStep(pipe, w, i);
      EndStep(pipe, w, i);
    }
  }

  lemma ResolvedTargets(pipe: Pipeline, w: World, i: Input)
    requires Lawful(pipe) && PhaseInv(w) && EndInv(w) && ConserveInv(w)
    requires Admissible(w, i) && !w.ctx.finished && w.resolved.None? && i.TargetsResolved? && i.targets != []
    ensures ConserveInv(Next(pipe, w, i))
  {
    SortIsStable(i.targets);
    assert |multiset(i.targets)| == |i.targets| && |multiset(SortByQ(i.targets))| == |SortByQ(i.targets)|;
    FirstFork(pipe, w.ctx, SortByQ(i.targets));
    ForkShape(pipe, w.ctx.(queued := SortByQ(i.targets)));
  }

  lemma {:induction false} NoCopies(fx: seq<Effect>)
    requires forall k :: 0 <= k < |fx| ==> !fx[k].SendCopy?
    ensures CopiesIn(fx) == []
  {
    if fx != [] {
      NoCopies(fx[1..]);
    }
  }

  lemma RoutedTargets(pipe: Pipeline, w: World, i: Input, c: Context)
    requires Lawful(pipe) && PhaseInv(w) && ConserveInv(w) && w.resolved.None? && !w.ctx.finished
    requires c.request.Some? && c.validated.Some? && c.branches == [] && c.queued == [] && !c.finished && !c.answered
    requires i.Upstream? || i.TokenFact?
    requires OnInput(pipe, w.ctx, i) == RouteIt(pipe, c)
    ensures ConserveInv(Next(pipe, w, i))
  {
    if Asks(RouteIt(pipe, c).fx) {
      AskedTargets(pipe, w, i, c);
    } else {
      SoleTargets(pipe, c);
      FromScratch(w.copies, RouteIt(pipe, c).fx);
      RouteItShape(pipe, c);
      SoleDelivered(Next(pipe, w, i), PredeterminedTarget(c.request.value));
    }
  }

  lemma AskedTargets(pipe: Pipeline, w: World, i: Input, c: Context)
    requires PhaseInv(w) && ConserveInv(w) && w.resolved.None? && !w.ctx.finished && (i.Upstream? || i.TokenFact?)
    requires c.request.Some? && c.validated.Some? && c.branches == [] && c.queued == [] && !c.finished && !c.answered
    requires OnInput(pipe, w.ctx, i) == RouteIt(pipe, c) && Asks(RouteIt(pipe, c).fx)
    ensures ConserveInv(Next(pipe, w, i))
  {
    RouteItShape(pipe, c);
    NoCopies([ResolveTargets(c.request.value.uri)]);
  }

  /** What conservation comes to right after the predetermined target was delivered. */
  lemma SoleDelivered(w: World, sole: Target)
    requires SortByQ([sole]) == [sole] && SameOrder(w.ctx.branches, w.copies)
    requires w.resolved.Some? ==> w.resolved == Some([sole])
    requires TargetsOf(w.ctx.branches) + Keep(StampOf(w.ctx), w.ctx.queued) == Keep(StampOf(w.ctx), [sole])
    requires forall t :: t in w.ctx.queued ==> t in [sole]
    ensures ConserveInv(w)
  {
  }

  lemma {:induction false} FromScratch(before: seq<Effect>, fx: seq<Effect>)
    requires before == []
    ensures before + CopiesIn(fx) == CopiesIn(fx)
  {
  }

  /** The predetermined target, delivered and forked in one step. */
  lemma SoleTargets(pipe: Pipeline, c: Context)
    requires Lawful(pipe) && c.request.Some? && c.validated.Some? && c.branches == [] && c.queued == [] && !c.finished && !c.answered
    requires !Asks(RouteIt(pipe, c).fx)
    ensures var sole := PredeterminedTarget(c.request.value);
      var out := RouteIt(pipe, c);
      && SortByQ([sole]) == [sole] && SameRequest(c, out.next) && SameOrder(out.next.branches, CopiesIn(out.fx))
      && TargetsOf(out.next.branches) + Keep(StampOf(c), out.next.queued) == Keep(StampOf(c), [sole])
      && (forall t :: t in out.next.queued ==> t in [sole])
  {
    var sole := PredeterminedTarget(c.request.value);
    SoleSort(sole);
    FirstFork(pipe, c, [sole]);
    ForkShape(pipe, c.(queued := [sole]));
  }
}
