/** Which fork index each branch gets, and exactly when the branches of a run are distinct. */
module ContextIds {
  import opened Basics
  import opened Messages
  import opened Cookie
  import opened Routing
  import opened Forwarding
  import opened ContextModel
  import opened ContextRuns
  import opened ContextFacts
  import opened ContextEvents
  import opened ContextInvariants
  import opened ContextTargets

  /** The indices one group uses: a target's offset counts even when its copy does not build. */
  function GroupIndices(stamp: Stamp, group: seq<Target>, index: nat): seq<nat> {
    if group == [] then []
    else (if Builds(stamp, group[0]) then [index] else []) + GroupIndices(stamp, group[1..], index + 1)
  }

  /** The indices a whole queue will use, group by group, starting behind `n` branches. */
  function Indices(stamp: Stamp, queue: seq<Target>, maxBreadth: u32, n: nat): seq<nat>
    decreases |queue|
  {
    if queue == [] then []
    else
      var g := GroupSize(queue, maxBreadth);
      var used := GroupIndices(stamp, queue[..g], n);
      used + Indices(stamp, queue[g..], maxBreadth, n + |used|)
  }

  function IdsAt(pipe: Pipeline, input: CookieInput, indices: seq<nat>): seq<BranchId> {
    seq(|indices|, i requires 0 <= i < |indices| => pipe.branchOf(input, indices[i]))
  }

  function IdsOf(bs: seq<Branch>): seq<BranchId> {
    seq(|bs|, i requires 0 <= i < |bs| => bs[i].id)
  }

  lemma IdsAppend(pipe: Pipeline, input: CookieInput, a: seq<nat>, b: seq<nat>, x: seq<Branch>, y: seq<Branch>)
    ensures IdsAt(pipe, input, a + b) == IdsAt(pipe, input, a) + IdsAt(pipe, input, b)
    ensures IdsOf(x + y) == IdsOf(x) + IdsOf(y)
  {
  }

  lemma {:induction false} CopiesIds(pipe: Pipeline, plan: ForwardPlan, group: seq<Target>, index: nat)
    requires Lawful(pipe)
    ensures IdsOf(ForkCopies(pipe, plan, group, index).0) ==
      IdsAt(pipe, plan.validated.cookieInput, GroupIndices(Stamp(plan.recordRoute, plan.tokens), group, index))
    decreases |group|
  {
    if group != [] {
      CopiesIds(pipe, plan, group[1..], index + 1);
      var one := plan.(target := group[0], index := index);
      var rest := ForkCopies(pipe, plan, group[1..], index + 1).0;
      var later := GroupIndices(Stamp(plan.recordRoute, plan.tokens), group[1..], index + 1);
      if pipe.build(one).Ok? {
        var b := Branch(pipe.build(one).value.branch, Pending(false, false), group[0]);
        IdsAppend(pipe, plan.validated.cookieInput, [index], later, [b], rest);
        assert IdsOf([b]) == IdsAt(pipe, plan.validated.cookieInput, [index]);
      }
    }
  }

  lemma ForkIds(pipe: Pipeline, c: Context)
    requires Lawful(pipe) && c.request.Some? && c.validated.Some? && c.queued != []
    ensures var out := ForkNextGroup(pipe, c);
      var v := c.validated.value;
      var used := GroupIndices(StampOf(c), c.queued[..GroupSize(c.queued, v.maxBreadth)], |c.branches|);
      && IdsOf(out.next.branches) == IdsOf(c.branches) + IdsAt(pipe, v.cookieInput, used)
      && |out.next.branches| == |c.branches| + |used|
      && used + Indices(StampOf(c), out.next.queued, v.maxBreadth, |out.next.branches|)
         == Indices(StampOf(c), c.queued, v.maxBreadth, |c.branches|)
  {
    var v := c.validated.value;
    GroupIds(pipe, c);
    var used := GroupIndices(StampOf(c), c.queued[..GroupSize(c.queued, v.maxBreadth)], |c.branches|);
    IdsCount(pipe, v.cookieInput, used, c.branches, ForkNextGroup(pipe, c).next.branches);
    IndicesFrom(StampOf(c), c.queued, v.maxBreadth, |c.branches|, |ForkNextGroup(pipe, c).next.branches|);
  }

  lemma IdsCount(pipe: Pipeline, input: CookieInput, used: seq<nat>, a: seq<Branch>, b: seq<Branch>)
    requires IdsOf(b) == IdsOf(a) + IdsAt(pipe, input, used)
    ensures |b| == |a| + |used|
  {
    assert |IdsOf(b)| == |b|;
  }

  lemma GroupIds(pipe: Pipeline, c: Context)
    requires Lawful(pipe) && c.request.Some? && c.validated.Some? && c.queued != []
    ensures var n := GroupSize(c.queued, c.validated.value.maxBreadth);
      var next := ForkNextGroup(pipe, c).next;
      && IdsOf(next.branches)
         == IdsOf(c.branches) + IdsAt(pipe, c.validated.value.cookieInput, GroupIndices(StampOf(c), c.queued[..n], |c.branches|))
      && next.queued == c.queued[n..]
  {
    var v := c.validated.value;
    var n := GroupSize(c.queued, v.maxBreadth);
    var plan := GroupPlan(c, c.queued[..n]);
    var bs := ForkCopies(pipe, plan, c.queued[..n], |c.branches|).0;
    assert Stamp(plan.recordRoute, plan.tokens) == StampOf(c);
    CopiesIds(pipe, plan, c.queued[..n], |c.branches|);
    ForkPieces(pipe, c);
    IdsAppend(pipe, v.cookieInput, [], [], c.branches, bs);
  }

  lemma IndicesUnfold(stamp: Stamp, queue: seq<Target>, maxBreadth: u32, n: nat)
    requires queue != []
    ensures var g := GroupSize(queue, maxBreadth);
      var used := GroupIndices(stamp, queue[..g], n);
      used + Indices(stamp, queue[g..], maxBreadth, n + |used|) == Indices(stamp, queue, maxBreadth, n)
  {
  }

  lemma {:induction false} ForkPieces(pipe: Pipeline, c: Context)
    requires c.request.Some? && c.validated.Some? && c.queued != []
    ensures var n := GroupSize(c.queued, c.validated.value.maxBreadth);
      var next := ForkNextGroup(pipe, c).next;
      && next.branches == c.branches + ForkCopies(pipe, GroupPlan(c, c.queued[..n]), c.queued[..n], |c.branches|).0
      && next.queued == c.queued[n..]
  {
  }

  /** The branches so far use the first indices of the plan; what is queued will use the rest. */
  ghost predicate IdAt(pipe: Pipeline, c: Context, sorted: seq<Target>, closed: bool) {
    c.validated.Some? ==>
      var v := c.validated.value;
      var all := Indices(StampOf(c), sorted, v.maxBreadth, 0);
      var n := |c.branches|;
      && n <= |all| && IdsOf(c.branches) == IdsAt(pipe, v.cookieInput, all[..n])
      && (!closed ==> all[n..] == Indices(StampOf(c), c.queued, v.maxBreadth, n))
  }

  ghost predicate IdInv(pipe: Pipeline, w: World) {
    w.resolved.Some? ==> IdAt(pipe, w.ctx, SortByQ(w.resolved.value), w.closed)
  }

  lemma PlanAdvances(pipe: Pipeline, input: CookieInput, all: seq<nat>, before: seq<Branch>, after: seq<Branch>,
                     used: seq<nat>, left: seq<nat>)
    requires |before| <= |all| && IdsOf(before) == IdsAt(pipe, input, all[..|before|]) && all[|before|..] == used + left
    requires IdsOf(after) == IdsOf(before) + IdsAt(pipe, input, used) && |after| == |before| + |used|
    ensures |after| <= |all| && IdsOf(after) == IdsAt(pipe, input, all[..|after|]) && all[|after|..] == left
  {
    assert all == all[..|before|] + used + left;
    assert all[..|after|] == all[..|before|] + used;
  }

  lemma IdStep(pipe: Pipeline, w: World, i: Input)
    requires Lawful(pipe) && PhaseInv(w) && EndInv(w) && IdInv(pipe, w) && Admissible(w, i)
    ensures IdInv(pipe, Next(pipe, w, i))
  {
    var c := w.ctx;
    if c.finished {
    } else if IsBranchEvent(i) && w.resolved.Some? {
      HandlesEvent(pipe, c, i);
      EventIds(pipe, w, i, Classify(c, i));
    } else if IsBranchEvent(i) {
      if c.request.Some? {
        NoBranchNoEvent(pipe, c, i);
      }
    } else if w.resolved.None? {
      DeliveryIds(pipe, w, i);
    }
  }

  lemma EventIds(pipe: Pipeline, w: World, i: Input, e: Event)
    requires Lawful(pipe) && PhaseInv(w) && EndInv(w) && IdInv(pipe, w) && w.resolved.Some? && !w.ctx.finished
    requires IsBranchEvent(i) && e == Classify(w.ctx, i) && OnInput(pipe, w.ctx, i) == Handle(pipe, w.ctx, e)
    ensures IdInv(pipe, Next(pipe, w, i))
  {
    ClassifiedFinal(w.ctx, i);
    EventSends(pipe, w.ctx, i);
    if e.Final? {
      FinalIds(pipe, w.ctx, e, SortByQ(w.resolved.value), w.closed);
    } else {
      QuietEvent(pipe, w.ctx, e);
      SameIds(w.ctx.branches, Next(pipe, w, i).ctx.branches);
    }
  }

  lemma SameIds(a: seq<Branch>, b: seq<Branch>)
    requires SamePlaces(a, b)
    ensures IdsOf(a) == IdsOf(b)
  {
  }

  lemma FinalIds(pipe: Pipeline, c: Context, e: Event, sorted: seq<Target>, closed: bool)
    requires Lawful(pipe) && c.request.Some? && c.validated.Some? && (c.answered || closed ==> c.queued == [])
    requires e.Final? && IdAt(pipe, c, sorted, closed)
    ensures IdAt(pipe, Handle(pipe, c, e).next, sorted, closed)
  {
    FinalFacts(pipe, c, e.branch, e.response);
    var mid := Recorded(c, e.branch, e.response);
    assert IdsOf(mid.branches) == IdsOf(c.branches);
    if !HasLive(mid.branches) && MayFork(mid) {
      MidForkIds(pipe, mid, sorted);
    }
  }

  lemma MidForkIds(pipe: Pipeline, c: Context, sorted: seq<Target>)
    requires Lawful(pipe) && c.request.Some? && c.validated.Some? && c.queued != [] && IdAt(pipe, c, sorted, false)
    ensures IdAt(pipe, ForkNextGroup(pipe, c).next, sorted, false)
  {
    ForkShape(pipe, c);
    ForkIds(pipe, c);
    var v := c.validated.value;
    var next := ForkNextGroup(pipe, c).next;
    PlanAdvances(pipe, v.cookieInput, Indices(StampOf(c), sorted, v.maxBreadth, 0), c.branches, next.branches,
                 GroupIndices(StampOf(c), c.queued[..GroupSize(c.queued, v.maxBreadth)], |c.branches|),
                 Indices(StampOf(c), next.queued, v.maxBreadth, |next.branches|));
  }

  lemma FirstIds(pipe: Pipeline, c: Context, sorted: seq<Target>)
    requires Lawful(pipe) && c.request.Some? && c.validated.Some? && c.branches == [] && sorted != []
    ensures IdAt(pipe, ForkNextGroup(pipe, c.(queued := sorted)).next, sorted, false)
  {
    var input := c.validated.value.cookieInput;
    assert IdsOf([]) == [] && IdsAt(pipe, input, Indices(StampOf(c), sorted, c.validated.value.maxBreadth, 0)[..0]) == [];
    MidForkIds(pipe, c.(queued := sorted), sorted);
  }

  lemma DeliveryIds(pipe: Pipeline, w: World, i: Input)
    requires Lawful(pipe) && PhaseInv(w) && EndInv(w) && Admissible(w, i)
    requires !w.ctx.finished && w.resolved.None? && !IsBranchEvent(i)
    ensures IdInv(pipe, Next(pipe, w, i))
  {
    var c := w.ctx;
    if i.TargetsResolved? && i.targets != [] {
      SortIsStable(i.targets);
      assert |multiset(i.targets)| == |i.targets| && |multiset(SortByQ(i.targets))| == |SortByQ(i.targets)|;
      FirstIds(pipe, c, SortByQ(i.targets));
    } else if i.Upstream? && pipe.validate(i.arrival).Ok? && pipe.preprocess(i.arrival).1.None? {
      RoutedIds(pipe, w, i, c.(request := Some(pipe.preprocess(i.arrival).0), validated := Some(pipe.validate(i.arrival).value)));
    } else if i.TokenFact? && c.awaitingVerdict && i.verdict.Valid? {
      RoutedIds(pipe, w, i, c.(awaitingVerdict := false));
    }
  }

  lemma RoutedIds(pipe: Pipeline, w: World, i: Input, c: Context)
    requires Lawful(pipe) && w.resolved.None? && !w.ctx.finished && c.request.Some? && c.validated.Some?
    requires c.branches == [] && c.queued == [] && (i.Upstream? || i.TokenFact?) && OnInput(pipe, w.ctx, i) == RouteIt(pipe, c)
    ensures IdInv(pipe, Next(pipe, w, i))
  {
    var sole := PredeterminedTarget(c.request.value);
    SoleSort(sole);
    FirstIds(pipe, c, [sole]);
  }

  // ------------------------------------------------------------------ distinctness

  predicate NoRepeat(s: seq<nat>) {
    forall i, j :: 0 <= i < j < |s| ==> s[i] != s[j]
  }

  /** `branchOf` does not collide on the indices a plan uses. */
  ghost predicate IdealBranches(pipe: Pipeline, input: CookieInput, indices: seq<nat>) {
    forall i, j :: 0 <= i < |indices| && 0 <= j < |indices| && indices[i] != indices[j] ==>
      pipe.branchOf(input, indices[i]) != pipe.branchOf(input, indices[j])
  }

  /** The indices a target list will use under this request, this stamp and this budget. */
  function PlanOf(w: World): seq<nat>
    requires w.resolved.Some? && w.ctx.validated.Some?
  {
    Indices(StampOf(w.ctx), SortByQ(w.resolved.value), w.ctx.validated.value.maxBreadth, 0)
  }

  /** When every group has been tried, the branches are distinct exactly when the plan repeats no index. */
  lemma DistinctIffNoRepeat(pipe: Pipeline, w: World)
    requires IdInv(pipe, w) && w.resolved.Some? && w.ctx.validated.Some?
    requires IdealBranches(pipe, w.ctx.validated.value.cookieInput, PlanOf(w))
    ensures NoRepeat(PlanOf(w)) ==> Distinct(w.ctx.branches)
    ensures !w.closed && w.ctx.queued == [] ==> (Distinct(w.ctx.branches) <==> NoRepeat(PlanOf(w)))
  {
    var bs, plan := w.ctx.branches, PlanOf(w);
    var input := w.ctx.validated.value.cookieInput;
    assert |IdsAt(pipe, input, plan[..|bs|])| == |bs|;
    forall i | 0 <= i < |bs| ensures bs[i].id == pipe.branchOf(input, plan[i]) {
      assert IdsOf(bs)[i] == IdsAt(pipe, input, plan[..|bs|])[i];
    }
    if !w.closed && w.ctx.queued == [] {
      assert plan[|bs|..] == [];
    }
  }

  function UpFrom(n: nat, count: nat): seq<nat> {
    seq(count, i requires 0 <= i < count => n + i)
  }

  lemma UpFromAppend(n: nat, a: nat, b: nat)
    ensures UpFrom(n, a) + UpFrom(n + a, b) == UpFrom(n, a + b)
  {
  }

  /** Targets that all build use the indices 0, 1, 2, ... in order. */
  lemma {:induction false} AllBuildIndices(stamp: Stamp, queue: seq<Target>, maxBreadth: u32, n: nat)
    requires forall t :: t in queue ==> Builds(stamp, t)
    ensures Indices(stamp, queue, maxBreadth, n) == UpFrom(n, |queue|)
    decreases |queue|
  {
    if queue != [] {
      var g := GroupSize(queue, maxBreadth);
      var taken, left := queue[..g], queue[g..];
      SliceBuilds(stamp, queue, g);
      AllBuildGroup(stamp, taken, n);
      AllBuildIndices(stamp, left, maxBreadth, n + g);
      UpFromAppend(n, g, |left|);
      assert Indices(stamp, queue, maxBreadth, n) == UpFrom(n, g) + Indices(stamp, left, maxBreadth, n + g);
    }
  }

  lemma SliceBuilds(stamp: Stamp, queue: seq<Target>, g: nat)
    requires g <= |queue| && forall t :: t in queue ==> Builds(stamp, t)
    ensures forall t :: t in queue[..g] || t in queue[g..] ==> Builds(stamp, t)
  {
  }

  lemma {:induction false} AllBuildGroup(stamp: Stamp, group: seq<Target>, index: nat)
    requires forall t :: t in group ==> Builds(stamp, t)
    ensures GroupIndices(stamp, group, index) == UpFrom(index, |group|)
  {
    if group != [] {
      assert forall t :: t in group[1..] ==> t in group;
      AllBuildGroup(stamp, group[1..], index + 1);
      UpFromAppend(index, 1, |group| - 1);
      assert UpFrom(index, 1) == [index];
    }
  }

  /** So a list that builds throughout never repeats one. */
  lemma AllBuildNoRepeat(w: World)
    requires AllBuild(w) && w.ctx.validated.Some?
    ensures NoRepeat(PlanOf(w)) && |PlanOf(w)| == |SortByQ(w.resolved.value)|
    ensures forall i :: 0 <= i < |PlanOf(w)| ==> PlanOf(w)[i] == i
  {
    AllBuildIndices(StampOf(w.ctx), SortByQ(w.resolved.value), w.ctx.validated.value.maxBreadth, 0);
  }

  // ------------------------------------------------------------------ distinctness, read off the target list

  /** Where the group of the target at `p` begins. */
  function GroupStart(queue: seq<Target>, maxBreadth: u32, p: nat): (start: nat)
    requires p < |queue|
    ensures start <= p
    decreases |queue|
  {
    var g := GroupSize(queue, maxBreadth);
    if p < g then 0 else g + GroupStart(queue[g..], maxBreadth, p - g)
  }

  /** How many targets no copy can be built for. */
  function Failures(stamp: Stamp, ts: seq<Target>): (n: nat)
    ensures n <= |ts|
  {
    if ts == [] then 0 else (if Builds(stamp, ts[0]) then 0 else 1) + Failures(stamp, ts[1..])
  }

  lemma {:induction false} FailuresAppend(stamp: Stamp, a: seq<Target>, b: seq<Target>)
    ensures Failures(stamp, a + b) == Failures(stamp, a) + Failures(stamp, b)
  {
    if a == [] {
      assert a + b == b;
    } else {
      FailuresAppend(stamp, a[1..], b);
      assert (a + b)[1..] == a[1..] + b;
    }
  }

  /** The fork index the target at `p` gets: the branches before its group, and its offset in the group. */
  function IndexOfTarget(stamp: Stamp, queue: seq<Target>, maxBreadth: u32, n: nat, p: nat): nat
    requires p < |queue|
  {
    var start := GroupStart(queue, maxBreadth, p);
    n + (start - Failures(stamp, queue[..start])) + (p - start)
  }

  /** The positions of the targets that build, counted from `from`. */
  function Places(stamp: Stamp, ts: seq<Target>, from: nat): seq<nat> { GroupIndices(stamp, ts, from) }

  lemma {:induction false} PlacesCount(stamp: Stamp, ts: seq<Target>, from: nat)
    ensures |Places(stamp, ts, from)| == |ts| - Failures(stamp, ts)
  {
    if ts != [] {
      PlacesCount(stamp, ts[1..], from + 1);
    }
  }

  /** Positions of targets that build, in order. */
  predicate InPlace(stamp: Stamp, ts: seq<Target>, from: nat, ps: seq<nat>) {
    && (forall k :: 0 <= k < |ps| ==> from <= ps[k] < from + |ts| && Builds(stamp, ts[ps[k] - from]))
    && (forall j, k :: 0 <= j < k < |ps| ==> ps[j] < ps[k])
  }

  lemma PlacedBehind(stamp: Stamp, ts: seq<Target>, from: nat, rest: seq<nat>)
    requires ts != [] && InPlace(stamp, ts[1..], from + 1, rest)
    ensures InPlace(stamp, ts, from, rest) && forall k :: 0 <= k < |rest| ==> rest[k] > from
  {
    forall k | 0 <= k < |rest| ensures from < rest[k] < from + |ts| && Builds(stamp, ts[rest[k] - from]) {
      assert ts[1..][rest[k] - (from + 1)] == ts[rest[k] - from];
    }
  }

  lemma PlacedFirst(stamp: Stamp, ts: seq<Target>, from: nat, rest: seq<nat>)
    requires ts != [] && Builds(stamp, ts[0]) && InPlace(stamp, ts, from, rest) && forall k :: 0 <= k < |rest| ==> rest[k] > from
    ensures InPlace(stamp, ts, from, [from] + rest)
  {
  }

  lemma PlacesSplit(stamp: Stamp, ts: seq<Target>, from: nat)
    requires ts != []
    ensures Places(stamp, ts, from) == if Builds(stamp, ts[0]) then [from] + Places(stamp, ts[1..], from + 1) else Places(stamp, ts[1..], from + 1)
  {
  }

  lemma {:induction false} PlacesBuild(stamp: Stamp, ts: seq<Target>, from: nat)
    ensures InPlace(stamp, ts, from, Places(stamp, ts, from))
  {
    if ts != [] {
      PlacesBuild(stamp, ts[1..], from + 1);
      PlacedBehind(stamp, ts, from, Places(stamp, ts[1..], from + 1));
      PlacesSplit(stamp, ts, from);
      if Builds(stamp, ts[0]) {
        PlacedFirst(stamp, ts, from, Places(stamp, ts[1..], from + 1));
      }
    }
  }

  /** And all of them. */
  lemma {:induction false} PlacesAll(stamp: Stamp, ts: seq<Target>, from: nat, p: nat)
    requires p < |ts| && Builds(stamp, ts[p])
    ensures from + p in Places(stamp, ts, from)
  {
    if p > 0 {
      PlacesAll(stamp, ts[1..], from + 1, p - 1);
      assert from + 1 + (p - 1) == from + p;
    }
  }

  lemma {:induction false} PlacesShift(stamp: Stamp, ts: seq<Target>, from: nat, shift: nat)
    ensures var a, b := Places(stamp, ts, from), Places(stamp, ts, from + shift);
      |a| == |b| && forall k :: 0 <= k < |a| ==> b[k] == a[k] + shift
  {
    if ts != [] {
      PlacesShift(stamp, ts[1..], from + 1, shift);
    }
  }

  lemma {:induction false} PlacesAppend(stamp: Stamp, a: seq<Target>, b: seq<Target>, from: nat)
    ensures Places(stamp, a + b, from) == Places(stamp, a, from) + Places(stamp, b, from + |a|)
  {
    if a == [] {
      assert a + b == b;
    } else {
      PlacesAppend(stamp, a[1..], b, from + 1);
      assert (a + b)[1..] == a[1..] + b;
    }
  }

  /** The k-th index of the plan is that of the target at the k-th place. */
  ghost predicate ByTarget(stamp: Stamp, queue: seq<Target>, maxBreadth: u32, n: nat, plan: seq<nat>, places: seq<nat>) {
    |plan| == |places|
    && forall k :: 0 <= k < |plan| ==> places[k] < |queue| && plan[k] == IndexOfTarget(stamp, queue, maxBreadth, n, places[k])
  }

  lemma IndicesSplit(stamp: Stamp, queue: seq<Target>, maxBreadth: u32, n: nat)
    requires queue != []
    ensures var g := GroupSize(queue, maxBreadth);
      var base: nat := n + g - Failures(stamp, queue[..g]);
      Indices(stamp, queue, maxBreadth, n) == GroupIndices(stamp, queue[..g], n) + Indices(stamp, queue[g..], maxBreadth, base)
  {
    var g := GroupSize(queue, maxBreadth);
    var base: nat := n + g - Failures(stamp, queue[..g]);
    BaseOf(stamp, queue[..g], n);
    IndicesFrom(stamp, queue, maxBreadth, n, base);
  }

  lemma {:induction false} BaseOf(stamp: Stamp, group: seq<Target>, n: nat)
    ensures n + |GroupIndices(stamp, group, n)| == n + |group| - Failures(stamp, group)
  {
    PlacesCount(stamp, group, n);
  }

  lemma {:induction false} IndicesFrom(stamp: Stamp, queue: seq<Target>, maxBreadth: u32, n: nat, base: nat)
    requires queue != [] && base == n + |GroupIndices(stamp, queue[..GroupSize(queue, maxBreadth)], n)|
    ensures var g := GroupSize(queue, maxBreadth);
      Indices(stamp, queue, maxBreadth, n) == GroupIndices(stamp, queue[..g], n) + Indices(stamp, queue[g..], maxBreadth, base)
  {
    IndicesUnfold(stamp, queue, maxBreadth, n);
  }

  lemma PlacesCut(stamp: Stamp, queue: seq<Target>, g: nat)
    requires g <= |queue|
    ensures Places(stamp, queue, 0) == Places(stamp, queue[..g], 0) + Places(stamp, queue[g..], g)
  {
    PlacesAppend(stamp, queue[..g], queue[g..], 0);
    assert queue == queue[..g] + queue[g..];
  }

  /** The plan, target by target. */
  lemma {:induction false} PlanIsByTarget(stamp: Stamp, queue: seq<Target>, maxBreadth: u32, n: nat)
    ensures ByTarget(stamp, queue, maxBreadth, n, Indices(stamp, queue, maxBreadth, n), Places(stamp, queue, 0))
    decreases |queue|
  {
    if queue != [] {
      var g := GroupSize(queue, maxBreadth);
      var base: nat := n + g - Failures(stamp, queue[..g]);
      PlanIsByTarget(stamp, queue[g..], maxBreadth, base);
      IndicesSplit(stamp, queue, maxBreadth, n);
      PlacesCut(stamp, queue, g);
      PiecesByTarget(stamp, queue, maxBreadth, n, Indices(stamp, queue[g..], maxBreadth, base));
    }
  }

  lemma {:induction false} PiecesByTarget(stamp: Stamp, queue: seq<Target>, maxBreadth: u32, n: nat, later: seq<nat>)
    requires queue != []
    requires var g := GroupSize(queue, maxBreadth);
      ByTarget(stamp, queue[g..], maxBreadth, n + g - Failures(stamp, queue[..g]), later, Places(stamp, queue[g..], 0))
    ensures var g := GroupSize(queue, maxBreadth);
      ByTarget(stamp, queue, maxBreadth, n, GroupIndices(stamp, queue[..g], n) + later,
               Places(stamp, queue[..g], 0) + Places(stamp, queue[g..], g))
  {
    var g := GroupSize(queue, maxBreadth);
    FirstByTarget(stamp, queue, maxBreadth, n);
    RestByTarget(stamp, queue, maxBreadth, n, later);
    JoinByTarget(stamp, queue, maxBreadth, n, GroupIndices(stamp, queue[..g], n), Places(stamp, queue[..g], 0),
                 later, Places(stamp, queue[g..], g));
  }

  lemma JoinByTarget(stamp: Stamp, queue: seq<Target>, maxBreadth: u32, n: nat, a: seq<nat>, x: seq<nat>, b: seq<nat>, y: seq<nat>)
    requires ByTarget(stamp, queue, maxBreadth, n, a, x) && ByTarget(stamp, queue, maxBreadth, n, b, y)
    ensures ByTarget(stamp, queue, maxBreadth, n, a + b, x + y)
  {
  }

  lemma {:induction false} FirstByTarget(stamp: Stamp, queue: seq<Target>, maxBreadth: u32, n: nat)
    requires queue != []
    ensures var taken := queue[..GroupSize(queue, maxBreadth)];
      ByTarget(stamp, queue, maxBreadth, n, GroupIndices(stamp, taken, n), Places(stamp, taken, 0))
  {
    var taken := queue[..GroupSize(queue, maxBreadth)];
    PlacesShift(stamp, taken, 0, n);
    PlacesBuild(stamp, taken, 0);
    assert queue[..0] == [];
  }

  lemma {:induction false} RestByTarget(stamp: Stamp, queue: seq<Target>, maxBreadth: u32, n: nat, plan: seq<nat>)
    requires queue != []
    requires var g := GroupSize(queue, maxBreadth);
      ByTarget(stamp, queue[g..], maxBreadth, n + g - Failures(stamp, queue[..g]), plan, Places(stamp, queue[g..], 0))
    ensures ByTarget(stamp, queue, maxBreadth, n, plan, Places(stamp, queue[GroupSize(queue, maxBreadth)..], GroupSize(queue, maxBreadth)))
  {
    var g := GroupSize(queue, maxBreadth);
    PlacesShift(stamp, queue[g..], 0, g);
    FarByTarget(stamp, queue, maxBreadth, n, plan, Places(stamp, queue[g..], 0), Places(stamp, queue[g..], g));
  }

  lemma {:induction false} FarByTarget(
      stamp: Stamp, queue: seq<Target>, maxBreadth: u32, n: nat, plan: seq<nat>, near: seq<nat>, far: seq<nat>)
    requires queue != []
    requires var g := GroupSize(queue, maxBreadth);
      && ByTarget(stamp, queue[g..], maxBreadth, n + g - Failures(stamp, queue[..g]), plan, near)
      && |far| == |near| && forall k :: 0 <= k < |near| ==> far[k] == near[k] + g
    ensures ByTarget(stamp, queue, maxBreadth, n, plan, far)
  {
    forall k | 0 <= k < |plan| ensures far[k] < |queue| && plan[k] == IndexOfTarget(stamp, queue, maxBreadth, n, far[k]) {
      LaterGroup(stamp, queue, maxBreadth, n, near[k]);
    }
  }

  /** The index of a target behind the first group. */
  lemma {:induction false} LaterGroup(stamp: Stamp, queue: seq<Target>, maxBreadth: u32, n: nat, p: nat)
    requires queue != [] && p < |queue| - GroupSize(queue, maxBreadth)
    ensures var g := GroupSize(queue, maxBreadth);
      IndexOfTarget(stamp, queue, maxBreadth, n, g + p)
        == IndexOfTarget(stamp, queue[g..], maxBreadth, n + g - Failures(stamp, queue[..g]), p)
  {
    var g := GroupSize(queue, maxBreadth);
    var start := GroupStart(queue[g..], maxBreadth, p);
    assert queue[..g + start] == queue[..g] + queue[g..][..start];
    FailuresAppend(stamp, queue[..g], queue[g..][..start]);
  }

  lemma {:induction false} GroupStartGrows(queue: seq<Target>, maxBreadth: u32, p: nat, q: nat)
    requires p <= q < |queue|
    ensures GroupStart(queue, maxBreadth, p) <= GroupStart(queue, maxBreadth, q)
    decreases |queue|
  {
    var g := GroupSize(queue, maxBreadth);
    if p >= g {
      GroupStartGrows(queue[g..], maxBreadth, p - g, q - g);
      GroupStartLater(queue, maxBreadth, p);
      GroupStartLater(queue, maxBreadth, q);
    } else {
      assert GroupStart(queue, maxBreadth, p) == 0;
    }
  }

  lemma {:induction false} GroupStartLater(queue: seq<Target>, maxBreadth: u32, p: nat)
    requires p < |queue| && p >= GroupSize(queue, maxBreadth)
    ensures var g := GroupSize(queue, maxBreadth);
      GroupStart(queue, maxBreadth, p) == g + GroupStart(queue[g..], maxBreadth, p - g)
  {
  }

  /**
   * Two targets that build, `p` before `q`, get one index exactly when as many targets fail from the start of
   * the first one's group up to the start of the second one's as lie between the two.
   */
  predicate Collide(stamp: Stamp, queue: seq<Target>, maxBreadth: u32, p: nat, q: nat)
    requires p < q < |queue|
  {
    var from, to := GroupStart(queue, maxBreadth, p), GroupStart(queue, maxBreadth, q);
    from <= to && Builds(stamp, queue[p]) && Builds(stamp, queue[q]) && Failures(stamp, queue[from..to]) == q - p
  }

  lemma CollideIsSameIndex(stamp: Stamp, queue: seq<Target>, maxBreadth: u32, n: nat, p: nat, q: nat)
    requires p < q < |queue| && Builds(stamp, queue[p]) && Builds(stamp, queue[q])
    ensures IndexOfTarget(stamp, queue, maxBreadth, n, p) == IndexOfTarget(stamp, queue, maxBreadth, n, q)
      <==> Collide(stamp, queue, maxBreadth, p, q)
  {
    var from, to := GroupStart(queue, maxBreadth, p), GroupStart(queue, maxBreadth, q);
    GroupStartGrows(queue, maxBreadth, p, q);
    assert queue[..to] == queue[..from] + queue[from..to];
    FailuresAppend(stamp, queue[..from], queue[from..to]);
  }

  ghost predicate NoCollision(stamp: Stamp, queue: seq<Target>, maxBreadth: u32) {
    forall p, q :: 0 <= p < q < |queue| ==> !Collide(stamp, queue, maxBreadth, p, q)
  }

  lemma {:induction false} CollisionRepeats(stamp: Stamp, queue: seq<Target>, maxBreadth: u32, n: nat, p: nat, q: nat)
    requires p < q < |queue| && Collide(stamp, queue, maxBreadth, p, q)
    ensures !NoRepeat(Indices(stamp, queue, maxBreadth, n))
  {
    var plan, places := Indices(stamp, queue, maxBreadth, n), Places(stamp, queue, 0);
    PlanIsByTarget(stamp, queue, maxBreadth, n);
    PlacesAll(stamp, queue, 0, p);
    PlacesAll(stamp, queue, 0, q);
    var j :| 0 <= j < |places| && places[j] == 0 + p;
    var k :| 0 <= k < |places| && places[k] == 0 + q;
    CollideIsSameIndex(stamp, queue, maxBreadth, n, p, q);
    assert plan[j] == plan[k] && j != k;
  }

  /** The plan repeats no index exactly when no two targets collide: a condition on the target list alone. */
  lemma {:induction false} NoRepeatIffNoCollision(stamp: Stamp, queue: seq<Target>, maxBreadth: u32, n: nat)
    ensures NoRepeat(Indices(stamp, queue, maxBreadth, n)) <==> NoCollision(stamp, queue, maxBreadth)
  {
    if !NoCollision(stamp, queue, maxBreadth) {
      var p, q :| 0 <= p < q < |queue| && Collide(stamp, queue, maxBreadth, p, q);
      CollisionRepeats(stamp, queue, maxBreadth, n, p, q);
    } else {
      var plan, places := Indices(stamp, queue, maxBreadth, n), Places(stamp, queue, 0);
      PlanIsByTarget(stamp, queue, maxBreadth, n);
      PlacesBuild(stamp, queue, 0);
      forall j, k | 0 <= j < k < |plan| ensures plan[j] != plan[k] {
        CollideIsSameIndex(stamp, queue, maxBreadth, n, places[j], places[k]);
      }
    }
  }

  /**
   * The branches of a run are distinct exactly when no two targets of its sorted list collide, once every group
   * has been tried; before that, no collision is enough.
   */
  lemma DistinctIffNoCollision(pipe: Pipeline, w: World)
    requires IdInv(pipe, w) && w.resolved.Some? && w.ctx.validated.Some?
    requires IdealBranches(pipe, w.ctx.validated.value.cookieInput, PlanOf(w))
    ensures var safe := NoCollision(StampOf(w.ctx), SortByQ(w.resolved.value), w.ctx.validated.value.maxBreadth);
      && (safe ==> Distinct(w.ctx.branches))
      && (!w.closed && w.ctx.queued == [] ==> (Distinct(w.ctx.branches) <==> safe))
  {
    NoRepeatIffNoCollision(StampOf(w.ctx), SortByQ(w.resolved.value), w.ctx.validated.value.maxBreadth, 0);
    DistinctIffNoRepeat(pipe, w);
  }
}
