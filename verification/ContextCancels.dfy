/** Cancellation, breadth and conservation, over every well-formed run with distinct branches. */
module ContextCancels {
  import opened Basics
  import opened Messages
  import opened Forwarding
  import opened ContextModel
  import opened ContextRuns
  import opened ContextFacts
  import opened ContextEvents
  import opened ContextInvariants
  import opened ContextTargets
  import opened ContextBranches
  import opened ContextTheorems

  // ------------------------------------------------------------------ effects over a run

  /** All effects of a run, in order. */
  function Log(pipe: Pipeline, inputs: seq<Input>): seq<Effect> {
    if inputs == [] then []
    else
      var before := inputs[..|inputs| - 1];
      Log(pipe, before) + OnInput(pipe, Run(pipe, before).ctx, inputs[|inputs| - 1]).fx
  }

  lemma {:induction false} InAppend(a: seq<Effect>, b: seq<Effect>)
    ensures CopiesIn(a + b) == CopiesIn(a) + CopiesIn(b) && CancelsIn(a + b) == CancelsIn(a) + CancelsIn(b)
  {
    CopiesAppend(a, b);
    CancelsAppend(a, b);
  }

  lemma {:induction false} CopiesAppend(a: seq<Effect>, b: seq<Effect>)
    ensures CopiesIn(a + b) == CopiesIn(a) + CopiesIn(b)
  {
    if a == [] {
      assert a + b == b;
    } else {
      CopiesAppend(a[1..], b);
      Split(a, b);
      FirstEffect(a[0], a[1..] + b);
      FirstEffect(a[0], a[1..]);
      Assoc(if a[0].SendCopy? then [a[0]] else [], CopiesIn(a[1..]), CopiesIn(b));
    }
  }

  lemma {:induction false} CancelsAppend(a: seq<Effect>, b: seq<Effect>)
    ensures CancelsIn(a + b) == CancelsIn(a) + CancelsIn(b)
  {
    if a == [] {
      assert a + b == b;
    } else {
      CancelsAppend(a[1..], b);
      Split(a, b);
      FirstEffect(a[0], a[1..] + b);
      FirstEffect(a[0], a[1..]);
      Assoc(if a[0].CancelBranch? then [a[0].branch] else [], CancelsIn(a[1..]), CancelsIn(b));
    }
  }

  lemma Split<T>(a: seq<T>, b: seq<T>)
    requires a != []
    ensures a == [a[0]] + a[1..] && a + b == [a[0]] + (a[1..] + b)
  {
  }

  lemma {:induction false} LogIsKept(pipe: Pipeline, inputs: seq<Input>)
    ensures CopiesIn(Log(pipe, inputs)) == Run(pipe, inputs).copies
    ensures CancelsIn(Log(pipe, inputs)) == Run(pipe, inputs).cancels
  {
    if inputs != [] {
      var before := inputs[..|inputs| - 1];
      LogIsKept(pipe, before);
      InAppend(Log(pipe, before), OnInput(pipe, Run(pipe, before).ctx, inputs[|inputs| - 1]).fx);
    }
  }

  // ------------------------------------------------------------------ conservation

  /** The targets of the copies emitted, in order. */
  function ForwardedTargets(copies: seq<Effect>): seq<Target> {
    if copies == [] then []
    else (if copies[0].SendCopy? then [copies[0].target] else []) + ForwardedTargets(copies[1..])
  }

  lemma {:induction false} OrderTargets(bs: seq<Branch>, copies: seq<Effect>)
    requires SameOrder(bs, copies)
    ensures ForwardedTargets(copies) == TargetsOf(bs)
  {
    if bs != [] {
      OrderTargets(bs[1..], copies[1..]);
      assert TargetsOf(bs) == [bs[0].target] + TargetsOf(bs[1..]);
    }
  }

  /**
   * No target is lost, added or reordered: what a run has forwarded, followed by what is still queued, is
   * the stable descending-`q` sort of the resolved list without the targets no copy builds for; once the
   * target set was closed early, what was forwarded is a prefix of it.
   */
  lemma {:induction false} TargetsConserved(pipe: Pipeline, inputs: seq<Input>)
    requires Lawful(pipe) && WellFormed(pipe, inputs) && Run(pipe, inputs).resolved.Some?
    ensures var w := Run(pipe, inputs);
      var all := Keep(StampOf(w.ctx), SortByQ(w.resolved.value));
      var sent := ForwardedTargets(CopiesIn(Log(pipe, inputs)));
      && sent <= all
      && (!w.closed ==> sent + Keep(StampOf(w.ctx), w.ctx.queued) == all)
      && (AllBuild(w) && !w.closed ==> sent + w.ctx.queued == SortByQ(w.resolved.value))
  {
    RunKeeps(pipe, inputs, |inputs|);
    assert inputs[..|inputs|] == inputs;
    LogIsKept(pipe, inputs);
    var w := Run(pipe, inputs);
    OrderTargets(w.ctx.branches, w.copies);
    if AllBuild(w) {
      KeepAll(StampOf(w.ctx), SortByQ(w.resolved.value));
      KeepAll(StampOf(w.ctx), w.ctx.queued);
    }
  }

  // ------------------------------------------------------------------ breadth

  /** The `Max-Breadth` handed to the branches live at one time. */
  function LiveBreadth(bs: seq<Branch>, copies: seq<Effect>): nat
    requires |bs| == |copies|
  {
    if bs == [] then 0
    else
      var n := |bs| - 1;
      LiveBreadth(bs[..n], copies[..n])
      + (if IsLive(bs[n].state) && copies[n].SendCopy? && copies[n].request.maxBreadth.Some? then copies[n].request.maxBreadth.value else 0)
  }

  lemma {:induction false} DeadBreadth(bs: seq<Branch>, copies: seq<Effect>)
    requires |bs| == |copies| && forall i :: 0 <= i < |bs| ==> !IsLive(bs[i].state)
    ensures LiveBreadth(bs, copies) == 0
  {
    if bs != [] {
      DeadBreadth(bs[..|bs| - 1], copies[..|bs| - 1]);
    }
  }

  lemma {:induction false} GroupBreadth(bs: seq<Branch>, copies: seq<Effect>, base: nat, share: nat)
    requires |bs| == |copies| && base <= |bs|
    requires forall i :: 0 <= i < base ==> !IsLive(bs[i].state)
    requires forall i :: base <= i < |bs| ==> copies[i].SendCopy? && copies[i].request.maxBreadth == Some(share)
    ensures LiveBreadth(bs, copies) <= (|bs| - base) * share
    decreases |bs|
  {
    if base == |bs| {
      DeadBreadth(bs, copies);
    } else {
      GroupBreadth(bs[..|bs| - 1], copies[..|bs| - 1], base, share);
      assert (|bs| - 1 - base) * share + share == (|bs| - base) * share;
    }
  }

  lemma SharesFit(maxBreadth: u32, width: nat, count: nat)
    requires count <= width && 1 <= width <= Max(maxBreadth, 1)
    ensures count * BreadthShare(maxBreadth, width) <= Max(maxBreadth, 1)
  {
    if width <= maxBreadth {
      var share := maxBreadth / width;
      ShareAtLeastOne(maxBreadth, width);
      TimesLess(count, width, share);
      assert width * share <= maxBreadth;
    }
  }

  lemma ShareAtLeastOne(maxBreadth: u32, width: nat)
    requires 1 <= width <= maxBreadth
    ensures 1 <= maxBreadth / width == BreadthShare(maxBreadth, width)
  {
  }

  lemma TimesLess(a: nat, b: nat, times: nat)
    requires a <= b
    ensures a * times <= b * times
  {
  }

  /**
   * Branches live at one time share one `q`, and their `Max-Breadth` values sum to no more than the
   * incoming value (section 5.3.3 of RFC 5393), or 1 where the configured default is 0.
   */
  lemma {:induction false} BreadthBounded(pipe: Pipeline, inputs: seq<Input>)
    requires Lawful(pipe) && WellFormed(pipe, inputs)
    requires Distinct(Run(pipe, inputs).ctx.branches) && Run(pipe, inputs).ctx.branches != []
    ensures var w := Run(pipe, inputs);
      var bs := w.ctx.branches;
      && (forall i, j :: 0 <= i < |bs| && 0 <= j < |bs| && IsLive(bs[i].state) && IsLive(bs[j].state) ==>
            bs[i].target.q == bs[j].target.q)
      && |w.copies| == |bs| && w.ctx.validated.Some?
      && LiveBreadth(bs, w.copies) <= Max(w.ctx.validated.value.maxBreadth, 1)
  {
    assert inputs[..|inputs|] == inputs;
    RunKeepsBranches(pipe, inputs, |inputs|);
    var w := Run(pipe, inputs);
    var base, width :| GroupAt(w.ctx, w.copies, base, width);
    GroupBounded(w.ctx, w.copies, base, width);
  }

  lemma {:induction false} GroupBounded(c: Context, copies: seq<Effect>, base: nat, width: nat)
    requires GroupAt(c, copies, base, width)
    ensures forall i, j :: 0 <= i < |c.branches| && 0 <= j < |c.branches| && IsLive(c.branches[i].state) && IsLive(c.branches[j].state) ==>
      c.branches[i].target.q == c.branches[j].target.q
    ensures LiveBreadth(c.branches, copies) <= Max(c.validated.value.maxBreadth, 1)
  {
    forall i, j | 0 <= i < |c.branches| && 0 <= j < |c.branches| && IsLive(c.branches[i].state) && IsLive(c.branches[j].state)
      ensures c.branches[i].target.q == c.branches[j].target.q
    {
      assert base <= i && base <= j;
    }
    GroupBreadth(c.branches, copies, base, BreadthShare(c.validated.value.maxBreadth, width));
    SharesFit(c.validated.value.maxBreadth, width, |c.branches| - base);
  }

  // ------------------------------------------------------------------ cancels

  /** Over a whole run no branch is cancelled twice, and only branches that were forwarded are cancelled. */
  lemma {:induction false} CancelledAtMostOnce(pipe: Pipeline, inputs: seq<Input>)
    requires Lawful(pipe) && WellFormed(pipe, inputs) && Distinct(Run(pipe, inputs).ctx.branches)
    ensures var cancels := CancelsIn(Log(pipe, inputs));
      NoDup(cancels) && forall id :: id in cancels ==> Knows(Run(pipe, inputs).ctx.branches, id)
  {
    assert inputs[..|inputs|] == inputs;
    RunKeepsBranches(pipe, inputs, |inputs|);
    LogIsKept(pipe, inputs);
  }

  /** Some earlier input was a 101-199 from this branch. */
  ghost predicate WasHeard(inputs: seq<Input>, k: nat, id: BranchId)
    requires k <= |inputs|
  {
    exists j :: 0 <= j < k && inputs[j].BranchResponse? && inputs[j].branch == id && IsEarlyMedia(inputs[j].response)
  }

  lemma {:induction false} HeardIsTrue(pipe: Pipeline, inputs: seq<Input>, k: nat, id: BranchId)
    requires k <= |inputs|
    ensures id in Run(pipe, inputs[..k]).heard ==> WasHeard(inputs, k, id)
  {
    if k > 0 {
      HeardIsTrue(pipe, inputs, k - 1, id);
      assert inputs[..k][..k - 1] == inputs[..k - 1];
    } else {
      assert inputs[..0] == [];
    }
  }

  lemma {:induction false} CancelInEffects(fx: seq<Effect>, id: BranchId)
    ensures CancelBranch(id) in fx <==> id in CancelsIn(fx)
  {
    if fx != [] {
      CancelInEffects(fx[1..], id);
      assert fx == [fx[0]] + fx[1..];
    }
  }

  /**
   * A cancel caused by an upstream CANCEL or by Timer C goes only to a branch that has produced a 101-199
   * (section 9.1 of RFC 3261); one released by a provisional goes to the branch that sent it.
   */
  lemma {:induction false} CancelOnlyAfterProvisional(pipe: Pipeline, inputs: seq<Input>, k: nat, id: BranchId)
    requires Lawful(pipe) && WellFormed(pipe, inputs) && k < |inputs| && Distinct(Run(pipe, inputs[..k]).ctx.branches)
    requires CancelBranch(id) in EffectsAt(pipe, inputs, k)
    requires inputs[k].UpstreamCancelled? || inputs[k].TimerFired?
      || (inputs[k].BranchResponse? && IsProvisional(inputs[k].response.status))
    ensures WasHeard(inputs, k + 1, id)
  {
    RunKeeps(pipe, inputs, k);
    RunKeepsBranches(pipe, inputs, k);
    CancelInEffects(EffectsAt(pipe, inputs, k), id);
    CancelledWasHeard(pipe, Run(pipe, inputs[..k]), inputs[k], id);
    HeardIsTrue(pipe, inputs, k, id);
  }

  /** Whoever is cancelled then was heard before, or is heard now. */
  lemma CancelledWasHeard(pipe: Pipeline, w: World, i: Input, id: BranchId)
    requires Lawful(pipe) && Keeps(pipe, w) && BranchInv(w) && Distinct(w.ctx.branches)
    requires id in CancelsIn(OnInput(pipe, w.ctx, i).fx)
    requires i.UpstreamCancelled? || i.TimerFired? || (i.BranchResponse? && IsProvisional(i.response.status))
    ensures id in w.heard || (i.BranchResponse? && i.branch == id && IsEarlyMedia(i.response))
  {
    var c := w.ctx;
    if c.request.None? {
      NoRequestNoCancel(pipe, c, i);
    } else {
      var e := Classify(c, i);
      HandlesEvent(pipe, c, i);
      ClassifiedFinal(c, i);
      EventCancels(pipe, c, e);
      MovedWasHeard(w, e, id);
    }
  }

  /** A CANCEL and Timer C move only branches marked as heard; a provisional moves its own. */
  lemma MovedWasHeard(w: World, e: Event, id: BranchId)
    requires HeardInv(w) && CancelledBy(e, w.ctx.branches, id) && !e.Accepted? && !e.Rejected?
    requires e.Stuck? ==> SawProvisional(w.ctx.branches, e.branch) == Some(true)
    requires Distinct(w.ctx.branches)
    ensures id in w.heard || (e.Early? && e.branch == id)
  {
    var i :| 0 <= i < |w.ctx.branches| && w.ctx.branches[i].id == id
      && w.ctx.branches[i].state.Pending? && After(e, w.ctx.branches[i]).state.Cancelling?;
    if e.Stuck? {
      SawKnown(w.ctx.branches, e.branch);
    }
  }

  lemma NoRequestNoCancel(pipe: Pipeline, c: Context, i: Input)
    requires c.request.None? && c.branches == [] && IsBranchEvent(i)
    ensures CancelsIn(OnInput(pipe, c, i).fx) == []
  {
    NoCancels(OnInput(pipe, c, i).fx);
  }

  // ------------------------------------------------------------------ the deferred CANCEL

  ghost predicate PendingAt(w: World, p: nat, id: BranchId) {
    p < |w.ctx.branches| && w.ctx.branches[p].id == id && w.ctx.branches[p].state.Pending?
  }

  lemma {:induction false} OneEvent(pipe: Pipeline, inputs: seq<Input>, k: nat, p: nat, id: BranchId)
    requires Lawful(pipe) && WellFormed(pipe, inputs) && k < |inputs| && Distinct(Run(pipe, inputs[..k]).ctx.branches)
    requires PendingAt(Run(pipe, inputs[..k]), p, id)
    ensures var w := Run(pipe, inputs[..k]);
      && w.ctx.request.Some? && !w.ctx.finished
      && (IsBranchEvent(inputs[k]) ==>
          p < |Run(pipe, inputs[..k + 1]).ctx.branches|
          && Run(pipe, inputs[..k + 1]).ctx.branches[p] == After(Classify(w.ctx, inputs[k]), w.ctx.branches[p])
          && (CancelBranch(id) in EffectsAt(pipe, inputs, k) <==> CancelledBy(Classify(w.ctx, inputs[k]), w.ctx.branches, id)))
      && (!IsBranchEvent(inputs[k]) ==> Run(pipe, inputs[..k + 1]).ctx == w.ctx)
  {
    var w := Run(pipe, inputs[..k]);
    RunKeeps(pipe, inputs, k);
    PrefixRun(pipe, inputs, k);
    assert IsLive(w.ctx.branches[p].state);
    if IsBranchEvent(inputs[k]) {
      HandlesEvent(pipe, w.ctx, inputs[k]);
      ClassifiedFinal(w.ctx, inputs[k]);
      Pointwise(pipe, w.ctx, Classify(w.ctx, inputs[k]));
      EventCancels(pipe, w.ctx, Classify(w.ctx, inputs[k]));
      CancelInEffects(EffectsAt(pipe, inputs, k), id);
    }
  }

  ghost predicate QueuedAt(w: World, p: nat, id: BranchId) {
    PendingAt(w, p, id) && w.ctx.branches[p].state.cancelQueued
  }

  /** One silent step: a CANCEL queues, and nothing but an end or a provisional takes the mark off. */
  lemma {:induction false} QueuedStep(pipe: Pipeline, inputs: seq<Input>, k: nat, p: nat, id: BranchId)
    requires Lawful(pipe) && WellFormed(pipe, inputs) && k < |inputs| && Distinct(Run(pipe, inputs[..k]).ctx.branches)
    requires PendingAt(Run(pipe, inputs[..k]), p, id) && PendingAt(Run(pipe, inputs[..k + 1]), p, id)
    requires inputs[k].UpstreamCancelled? || QueuedAt(Run(pipe, inputs[..k]), p, id)
    requires !WasHeard(inputs, k + 1, id)
    ensures QueuedAt(Run(pipe, inputs[..k + 1]), p, id)
  {
    OneEvent(pipe, inputs, k, p, id);
    if IsBranchEvent(inputs[k]) {
      ClassifiedFinal(Run(pipe, inputs[..k]).ctx, inputs[k]);
    }
  }

  /** A branch that is pending was pending ever since it was forwarded. */
  lemma {:induction false} PendingBefore(pipe: Pipeline, inputs: seq<Input>, k: nat, p: nat, id: BranchId)
    requires Lawful(pipe) && WellFormed(pipe, inputs) && k < |inputs| && Distinct(Run(pipe, inputs[..k + 1]).ctx.branches)
    requires PendingAt(Run(pipe, inputs[..k + 1]), p, id) && p < |Run(pipe, inputs[..k]).ctx.branches|
    ensures PendingAt(Run(pipe, inputs[..k]), p, id) && Distinct(Run(pipe, inputs[..k]).ctx.branches)
  {
    DistinctEarlier(pipe, inputs, k);
    StepAt(pipe, inputs, k);
    PendingOneEarlier(pipe, Run(pipe, inputs[..k]), inputs[k], p, id);
  }

  lemma PendingOneEarlier(pipe: Pipeline, w: World, i: Input, p: nat, id: BranchId)
    requires Lawful(pipe) && Keeps(pipe, w) && Admissible(w, i) && Distinct(w.ctx.branches)
    requires PendingAt(Next(pipe, w, i), p, id) && p < |w.ctx.branches|
    ensures PendingAt(w, p, id)
  {
    if IsBranchEvent(i) && !w.ctx.finished {
      HandlesEvent(pipe, w.ctx, i);
      ClassifiedFinal(w.ctx, i);
      Pointwise(pipe, w.ctx, Classify(w.ctx, i));
    } else {
      assert OnInput(pipe, w.ctx, i) == Out(w.ctx, []);
    }
  }

  lemma {:induction false} Grows(count: nat -> nat, k: nat, m: nat)
    requires k <= m && forall n :: k <= n < m ==> count(n) <= count(n + 1)
    ensures count(k) <= count(m)
    decreases m
  {
    if k < m {
      Grows(count, k, m - 1);
      assert count(m - 1) <= count(m - 1 + 1);
    }
  }

  lemma BranchesOnlyGrow(pipe: Pipeline, inputs: seq<Input>, k: nat, m: nat)
    requires Lawful(pipe) && WellFormed(pipe, inputs) && k <= m <= |inputs|
    ensures BranchesBy(pipe, inputs)(k) <= BranchesBy(pipe, inputs)(m)
  {
    forall n | k <= n < m ensures BranchesBy(pipe, inputs)(n) <= BranchesBy(pipe, inputs)(n + 1) {
      OneGrows(pipe, inputs, n);
    }
    Grows(BranchesBy(pipe, inputs), k, m);
  }

  lemma OneGrows(pipe: Pipeline, inputs: seq<Input>, k: nat)
    requires Lawful(pipe) && WellFormed(pipe, inputs) && k < |inputs|
    ensures BranchesBy(pipe, inputs)(k) <= BranchesBy(pipe, inputs)(k + 1)
  {
    StepAt(pipe, inputs, k);
    BranchesGrow(pipe, Run(pipe, inputs[..k]), inputs[k]);
  }

  /** The queued mark stays on a branch for as long as it is pending and silent. */
  lemma QueuedStays(pipe: Pipeline, inputs: seq<Input>, k: nat, m: nat, p: nat, id: BranchId)
    requires Lawful(pipe) && WellFormed(pipe, inputs) && k < m <= |inputs| && PendingBy(pipe, inputs, p, id)(m)
    requires inputs[k].UpstreamCancelled? && !WasHeard(inputs, m, id) && p < BranchesBy(pipe, inputs)(k)
    ensures QueuedBy(pipe, inputs, p, id)(m)
  {
    PendingAllAlong(pipe, inputs, k, m, p, id);
    QueuedAllAlong(pipe, inputs, k, m, p, id);
    Carried(PendingBy(pipe, inputs, p, id), QueuedBy(pipe, inputs, p, id), k, m);
  }

  lemma PendingAllAlong(pipe: Pipeline, inputs: seq<Input>, k: nat, m: nat, p: nat, id: BranchId)
    requires Lawful(pipe) && WellFormed(pipe, inputs) && k < m <= |inputs| && p < BranchesBy(pipe, inputs)(k)
    ensures Lasts(PendingBy(pipe, inputs, p, id), k, m)
  {
    forall n | k <= n < m && PendingBy(pipe, inputs, p, id)(n + 1) ensures PendingBy(pipe, inputs, p, id)(n) {
      PendingEarlier(pipe, inputs, k, n, p, id);
    }
  }

  lemma QueuedAllAlong(pipe: Pipeline, inputs: seq<Input>, k: nat, m: nat, p: nat, id: BranchId)
    requires Lawful(pipe) && WellFormed(pipe, inputs) && k < m <= |inputs|
    requires inputs[k].UpstreamCancelled? && !WasHeard(inputs, m, id)
    ensures Carries(PendingBy(pipe, inputs, p, id), QueuedBy(pipe, inputs, p, id), k, m)
  {
    var pending, queued := PendingBy(pipe, inputs, p, id), QueuedBy(pipe, inputs, p, id);
    forall n | k <= n < m && pending(n) && pending(n + 1) && (n == k || queued(n)) ensures queued(n + 1) {
      HeardLater(inputs, n + 1, m, id);
      QueuedAfter(pipe, inputs, n, p, id);
    }
  }

  ghost predicate Lasts(pending: nat -> bool, k: nat, m: nat) {
    forall n :: k <= n < m && pending(n + 1) ==> pending(n)
  }

  ghost predicate Carries(pending: nat -> bool, queued: nat -> bool, k: nat, m: nat) {
    forall n :: k <= n < m && pending(n) && pending(n + 1) && (n == k || queued(n)) ==> queued(n + 1)
  }

  /** A mark set at `k` and carried over every step stays for as long as its bearer does. */
  lemma {:induction false} Carried(pending: nat -> bool, queued: nat -> bool, k: nat, m: nat)
    requires k < m && pending(m) && Lasts(pending, k, m) && Carries(pending, queued, k, m)
    ensures queued(m)
    decreases m
  {
    var n: nat := m - 1;
    assert pending(n + 1) && pending(n);
    if k < n {
      Carried(pending, queued, k, n);
    }
    assert queued(n + 1);
  }

  /** When a branch is pending among distinct branches, when its CANCEL is queued, and how many branches there are. */
  ghost function PendingBy(pipe: Pipeline, inputs: seq<Input>, p: nat, id: BranchId): nat -> bool {
    (n: nat) => n <= |inputs| && Distinct(Run(pipe, inputs[..n]).ctx.branches) && PendingAt(Run(pipe, inputs[..n]), p, id)
  }

  ghost function QueuedBy(pipe: Pipeline, inputs: seq<Input>, p: nat, id: BranchId): nat -> bool {
    (n: nat) => n <= |inputs| && QueuedAt(Run(pipe, inputs[..n]), p, id)
  }

  function BranchesBy(pipe: Pipeline, inputs: seq<Input>): nat -> nat {
    (n: nat) => if n <= |inputs| then |Run(pipe, inputs[..n]).ctx.branches| else 0
  }

  lemma HeardLater(inputs: seq<Input>, n: nat, m: nat, id: BranchId)
    requires n <= m <= |inputs| && !WasHeard(inputs, m, id)
    ensures !WasHeard(inputs, n, id)
  {
  }

  lemma PendingEarlier(pipe: Pipeline, inputs: seq<Input>, k: nat, n: nat, p: nat, id: BranchId)
    requires Lawful(pipe) && WellFormed(pipe, inputs) && k <= n < |inputs| && PendingBy(pipe, inputs, p, id)(n + 1)
    requires p < BranchesBy(pipe, inputs)(k)
    ensures PendingBy(pipe, inputs, p, id)(n)
  {
    BranchesOnlyGrow(pipe, inputs, k, n);
    PendingBefore(pipe, inputs, n, p, id);
  }

  lemma QueuedAfter(pipe: Pipeline, inputs: seq<Input>, n: nat, p: nat, id: BranchId)
    requires Lawful(pipe) && WellFormed(pipe, inputs) && n < |inputs|
    requires PendingBy(pipe, inputs, p, id)(n) && PendingBy(pipe, inputs, p, id)(n + 1)
    requires inputs[n].UpstreamCancelled? || QueuedBy(pipe, inputs, p, id)(n)
    requires !WasHeard(inputs, n + 1, id)
    ensures QueuedBy(pipe, inputs, p, id)(n + 1)
  {
    QueuedStep(pipe, inputs, n, p, id);
  }

  /** A CANCEL that could not go out is released by the first provisional of a branch still pending. */
  lemma {:induction false} QueuedCancelReleased(pipe: Pipeline, inputs: seq<Input>, k: nat, m: nat, p: nat, id: BranchId)
    requires Lawful(pipe) && WellFormed(pipe, inputs) && k < m < |inputs| && Distinct(Run(pipe, inputs[..m]).ctx.branches)
    requires inputs[k].UpstreamCancelled? && !WasHeard(inputs, m, id)
    requires p < |Run(pipe, inputs[..k]).ctx.branches| && PendingAt(Run(pipe, inputs[..m]), p, id)
    requires inputs[m].BranchResponse? && inputs[m].branch == id && IsEarlyMedia(inputs[m].response)
    ensures CancelBranch(id) in EffectsAt(pipe, inputs, m)
  {
    QueuedStays(pipe, inputs, k, m, p, id);
    OneEvent(pipe, inputs, m, p, id);
    ReleasedBy(Run(pipe, inputs[..m]), inputs[m], p, id);
  }

  lemma ReleasedBy(w: World, i: Input, p: nat, id: BranchId)
    requires QueuedAt(w, p, id) && w.ctx.request.Some? && !w.ctx.finished
    requires i.BranchResponse? && i.branch == id && IsEarlyMedia(i.response)
    ensures CancelledBy(Classify(w.ctx, i), w.ctx.branches, id)
  {
    assert Knows(w.ctx.branches, id);
    assert Classify(w.ctx, i) == Early(id, i.response);
  }
}
