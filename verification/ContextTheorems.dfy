/** The response context's guarantees, over every well-formed run. */
module ContextTheorems {
  import opened Basics
  import opened Messages
  import opened Routing
  import opened Forwarding
  import opened ContextModel
  import opened ContextRuns
  import opened ContextFacts
  import opened ContextEvents
  import opened ContextInvariants
  import opened ContextTargets
  import opened ContextTrying
  import opened ContextBranches
  import opened ContextIds

  // ------------------------------------------------------------------ what every run keeps

  ghost predicate Keeps(pipe: Pipeline, w: World) {
    PhaseInv(w) && EndInv(w) && ConserveInv(w) && TryingInv(w) && IdInv(pipe, w)
  }

  lemma KeepStep(pipe: Pipeline, w: World, i: Input)
    requires Lawful(pipe) && Keeps(pipe, w) && Admissible(w, i)
    ensures Keeps(pipe, Next(pipe, w, i))
  {
    PhaseStep(pipe, w, i);
    EndStep(pipe, w, i);
    TargetsStep(pipe, w, i);
    TryingStep(pipe, w, i);
    IdStep(pipe, w, i);
  }

  lemma {:induction false} PrefixRun(pipe: Pipeline, inputs: seq<Input>, k: nat)
    requires WellFormed(pipe, inputs) && k <= |inputs|
    ensures WellFormed(pipe, inputs[..k])
    ensures k < |inputs| ==>
      AdmissibleAt(pipe, inputs, k) && Run(pipe, inputs[..k + 1]) == Next(pipe, Run(pipe, inputs[..k]), inputs[k])
  {
    forall j | 0 <= j < k
      ensures AdmissibleAt(pipe, inputs[..k], j)
    {
      assert inputs[..k][..j] == inputs[..j];
      assert AdmissibleAt(pipe, inputs, j);
    }
    if k < |inputs| {
      assert AdmissibleAt(pipe, inputs, k);
      assert inputs[..k + 1][..k] == inputs[..k];
    }
  }

  lemma {:induction false} RunSnoc(pipe: Pipeline, inputs: seq<Input>, i: Input)
    requires WellFormed(pipe, inputs) && Admissible(Run(pipe, inputs), i)
    ensures WellFormed(pipe, inputs + [i]) && Run(pipe, inputs + [i]) == Next(pipe, Run(pipe, inputs), i)
  {
    var all := inputs + [i];
    assert all[..|inputs|] == inputs;
    forall k | 0 <= k < |all| ensures AdmissibleAt(pipe, all, k) {
      assert k < |inputs| ==> all[..k] == inputs[..k] && AdmissibleAt(pipe, inputs, k);
    }
  }

  lemma {:induction false} RunKeeps(pipe: Pipeline, inputs: seq<Input>, k: nat)
    requires Lawful(pipe) && WellFormed(pipe, inputs) && k <= |inputs|
    ensures Keeps(pipe, Run(pipe, inputs[..k]))
  {
    if k > 0 {
      RunKeeps(pipe, inputs, k - 1);
      PrefixRun(pipe, inputs, k - 1);
      KeepStep(pipe, Run(pipe, inputs[..k - 1]), inputs[k - 1]);
    } else {
      assert inputs[..0] == [];
    }
  }

  /** Everything a step of a run may rely on. */
  lemma {:induction false} StepAt(pipe: Pipeline, inputs: seq<Input>, k: nat)
    requires Lawful(pipe) && WellFormed(pipe, inputs) && k < |inputs|
    ensures var w := Run(pipe, inputs[..k]);
      Keeps(pipe, w) && Admissible(w, inputs[k]) && Run(pipe, inputs[..k + 1]) == Next(pipe, w, inputs[k])
  {
    RunKeeps(pipe, inputs, k);
    PrefixRun(pipe, inputs, k);
  }

  /** Branches are only ever added, so distinct branches at the end were distinct all along. */
  lemma BranchesGrow(pipe: Pipeline, w: World, i: Input)
    requires Lawful(pipe) && Keeps(pipe, w) && Admissible(w, i)
    ensures var a, b := w.ctx.branches, Next(pipe, w, i).ctx.branches;
      |a| <= |b| && forall k :: 0 <= k < |a| ==> a[k].id == b[k].id
  {
    var c := w.ctx;
    if IsBranchEvent(i) && c.request.Some? {
      HandlesEvent(pipe, c, i);
      EventPlaces(pipe, c, Classify(c, i));
    } else if IsBranchEvent(i) {
    } else if w.resolved.None? {
    } else {
      assert OnInput(pipe, c, i) == Out(c, []);
    }
  }

  lemma {:induction false} DistinctEarlier(pipe: Pipeline, inputs: seq<Input>, k: nat)
    requires Lawful(pipe) && WellFormed(pipe, inputs) && k < |inputs| && Distinct(Run(pipe, inputs[..k + 1]).ctx.branches)
    ensures Distinct(Run(pipe, inputs[..k]).ctx.branches)
    ensures |Run(pipe, inputs[..k]).ctx.branches| <= |Run(pipe, inputs[..k + 1]).ctx.branches|
  {
    RunKeeps(pipe, inputs, k);
    PrefixRun(pipe, inputs, k);
    BranchesGrow(pipe, Run(pipe, inputs[..k]), inputs[k]);
  }

  lemma {:induction false} RunKeepsBranches(pipe: Pipeline, inputs: seq<Input>, k: nat)
    requires Lawful(pipe) && WellFormed(pipe, inputs) && k <= |inputs| && Distinct(Run(pipe, inputs[..k]).ctx.branches)
    ensures BranchInv(Run(pipe, inputs[..k]))
  {
    if k > 0 {
      RunKeeps(pipe, inputs, k - 1);
      PrefixRun(pipe, inputs, k - 1);
      var w := Run(pipe, inputs[..k - 1]);
      BranchesGrow(pipe, w, inputs[k - 1]);
      RunKeepsBranches(pipe, inputs, k - 1);
      BranchStep(pipe, w, inputs[k - 1]);
    } else {
      assert inputs[..0] == [];
    }
  }

  // ------------------------------------------------------------------ nothing forks after the end

  /** The target set is over: nothing is queued and nothing that could queue is outstanding. */
  ghost predicate Settled(w: World) {
    w.started && !w.asked && !w.ctx.awaitingVerdict && w.ctx.queued == []
  }

  lemma SettledStep(pipe: Pipeline, w: World, i: Input)
    requires Lawful(pipe) && Keeps(pipe, w) && Settled(w) && Admissible(w, i)
    ensures Settled(Next(pipe, w, i)) && CopiesIn(OnInput(pipe, w.ctx, i).fx) == []
  {
    var c := w.ctx;
    PhaseStep(pipe, w, i);
    if c.finished || !IsBranchEvent(i) {
      assert OnInput(pipe, c, i) == Out(c, []);
    } else {
      var e := Classify(c, i);
      HandlesEvent(pipe, c, i);
      BranchEventShape(pipe, c, i);
      NoForkCopies(pipe, c, e);
      if e.Final? {
        FinalFacts(pipe, c, e.branch, e.response);
      } else {
        QuietEvent(pipe, c, e);
      }
    }
  }

  /** After how many inputs the target set is over. */
  ghost function SettledBy(pipe: Pipeline, inputs: seq<Input>): nat -> bool {
    (n: nat) => n <= |inputs| && Settled(Run(pipe, inputs[..n]))
  }

  lemma SettledAt(pipe: Pipeline, inputs: seq<Input>, k: nat)
    requires Lawful(pipe) && WellFormed(pipe, inputs) && k < |inputs| && SettledBy(pipe, inputs)(k)
    ensures SettledBy(pipe, inputs)(k + 1) && CopiesIn(EffectsAt(pipe, inputs, k)) == []
  {
    StepAt(pipe, inputs, k);
    SettledStep(pipe, Run(pipe, inputs[..k]), inputs[k]);
  }

  lemma SettledStays(pipe: Pipeline, inputs: seq<Input>, k: nat, m: nat)
    requires Lawful(pipe) && WellFormed(pipe, inputs) && k <= m <= |inputs| && SettledBy(pipe, inputs)(k)
    ensures SettledBy(pipe, inputs)(m)
  {
    forall n | k <= n < m && SettledBy(pipe, inputs)(n) ensures SettledBy(pipe, inputs)(n + 1) {
      SettledAt(pipe, inputs, n);
    }
    Onwards(SettledBy(pipe, inputs), k, m);
  }

  /** No effect of these answers upstream. */
  ghost predicate Silent(fx: seq<Effect>) {
    forall e :: e in fx ==> !e.Respond?
  }

  /** At most one answer, and that first. */
  ghost predicate AnswersFirst(fx: seq<Effect>) { fx == [] || Silent(fx[1..]) }

  lemma OneThenSilent(first: Effect, ids: seq<BranchId>, tail: seq<Effect>)
    requires Silent(tail)
    ensures AnswersFirst([first] + CancelFx(ids) + tail)
  {
    assert ([first] + CancelFx(ids) + tail)[1..] == CancelFx(ids) + tail;
  }

  lemma EventAnswersFirst(pipe: Pipeline, c: Context, e: Event)
    requires c.request.Some? && c.validated.Some? && (c.answered ==> c.queued == [])
    ensures AnswersFirst(Handle(pipe, c, e).fx)
  {
    match e {
      case Final(branch, response) =>
        FinalFacts(pipe, c, branch, response);
        ForkSilent(pipe, Recorded(c, branch, response));
      case Accepted(_, _) => EndAnswersFirst(pipe, c, e);
      case Rejected(_, _) => EndAnswersFirst(pipe, c, e);
      case Early(_, _) => EarlyAnswersFirst(pipe, c, e);
      case Withdrawn =>
        WithdrawnFacts(pipe, c);
        NoTail(AnswerCancel, HeardIds(PendingWithSaw(c.branches)));
      case _ =>
    }
  }

  lemma NoTail(first: Effect, ids: seq<BranchId>)
    ensures AnswersFirst([first] + CancelFx(ids))
  {
    OneThenSilent(first, ids, []);
    assert [first] + CancelFx(ids) + [] == [first] + CancelFx(ids);
  }

  lemma EndAnswersFirst(pipe: Pipeline, c: Context, e: Event)
    requires c.request.Some? && (e.Accepted? || e.Rejected?)
    ensures AnswersFirst(Handle(pipe, c, e).fx)
  {
    var answer := Respond(PopVia(e.response));
    if e.Accepted? {
      AcceptFacts(pipe, c, e.branch, e.response);
      NoTail(answer, PendingIds(ConcludeAll(c.branches, e.branch, e.response.status)));
    } else {
      RejectFacts(pipe, c, e.branch, e.response);
      var mid := Recorded(c, e.branch, e.response);
      OneThenSilent(answer, PendingIds(mid.branches), if HasLive(Swept(mid.branches)) then [] else [Terminate]);
    }
  }

  lemma EarlyAnswersFirst(pipe: Pipeline, c: Context, e: Event)
    requires c.request.Some? && e.Early?
    ensures AnswersFirst(Handle(pipe, c, e).fx)
  {
    var timer := TimerFx(pipe, c.request.value.verb, e.branch);
    var tail := if Releases(c.branches, e.branch) then [CancelBranch(e.branch)] else [];
    assert Handle(pipe, c, e).fx[1..] == timer + tail;
  }

  lemma ForkSilent(pipe: Pipeline, c: Context)
    requires c.request.Some? && c.validated.Some?
    ensures AnswersFirst(ForkNextGroup(pipe, c).fx)
  {
    if c.queued != [] {
      var group := c.queued[..GroupSize(c.queued, c.validated.value.maxBreadth)];
      CopiesSilent(pipe, GroupPlan(c, group), group, |c.branches|);
      OneThenSilent(Respond(BuildResponse(c.request.value, 480)), PendingIds([]), [Terminate]);
    }
  }

  lemma {:induction false} CopiesSilent(pipe: Pipeline, plan: ForwardPlan, group: seq<Target>, index: nat)
    ensures Silent(ForkCopies(pipe, plan, group, index).1)
    decreases |group|
  {
    if group != [] {
      CopiesSilent(pipe, plan, group[1..], index + 1);
    }
  }

  lemma RouteSilent(pipe: Pipeline, c: Context)
    requires c.request.Some? && c.validated.Some?
    ensures AnswersFirst(RouteIt(pipe, c).fx)
  {
    SoleSort(PredeterminedTarget(c.request.value));
    ForkSilent(pipe, c.(queued := [PredeterminedTarget(c.request.value)]));
  }

  lemma DeliverySilent(pipe: Pipeline, w: World, i: Input)
    requires PhaseInv(w) && Admissible(w, i) && !IsBranchEvent(i)
    ensures AnswersFirst(OnInput(pipe, w.ctx, i).fx)
  {
    var c := w.ctx;
    if i.TargetsResolved? && c.request.Some? {
      ForkSilent(pipe, c.(queued := SortByQ(i.targets)));
    } else if i.Upstream? && pipe.validate(i.arrival).Ok? {
      RouteSilent(pipe, c.(request := Some(pipe.preprocess(i.arrival).0), validated := Some(pipe.validate(i.arrival).value)));
    } else if i.TokenFact? && c.awaitingVerdict {
      RouteSilent(pipe, c.(awaitingVerdict := false));
    }
  }

  lemma StepAnswersFirst(pipe: Pipeline, w: World, i: Input)
    requires Lawful(pipe) && Keeps(pipe, w) && Admissible(w, i)
    ensures AnswersFirst(OnInput(pipe, w.ctx, i).fx)
  {
    if !IsBranchEvent(i) {
      DeliverySilent(pipe, w, i);
    } else if w.ctx.request.Some? {
      HandlesEvent(pipe, w.ctx, i);
      EventAnswersFirst(pipe, w.ctx, Classify(w.ctx, i));
    }
  }

  /** The effects of a step hold a response that ends the target set. */
  ghost predicate SentEnd(pipe: Pipeline, w: World, i: Input) {
    exists e :: e in OnInput(pipe, w.ctx, i).fx && e.Respond? && EndsTargetSet(w.ctx, e.response)
  }

  /** Targets are on the table: every question the request raised has been answered. */
  ghost predicate TargetsDelivered(w: World) {
    w.started && !w.asked && !w.ctx.awaitingVerdict && w.ctx.request.Some?
  }

  lemma EndSettles(pipe: Pipeline, w: World, i: Input)
    requires Lawful(pipe) && Keeps(pipe, w) && Admissible(w, i)
    requires SentEnd(pipe, w, i) || (i.UpstreamCancelled? && TargetsDelivered(w))
    ensures Settled(Next(pipe, w, i)) && CopiesIn(OnInput(pipe, w.ctx, i).fx) == []
  {
    var c := w.ctx;
    PhaseStep(pipe, w, i);
    EndStep(pipe, w, i);
    if SentEnd(pipe, w, i) {
      StepAnswersFirst(pipe, w, i);
      var fx := OnInput(pipe, c, i).fx;
      assert fx == [fx[0]] + fx[1..];
      assert SendsEnd(c, OnInput(pipe, c, i).fx);
    }
    if IsBranchEvent(i) && c.request.Some? && !c.finished {
      EventSettles(pipe, w, i);
    } else {
      DeliverySendsNoEnd(pipe, w, i);
    }
  }

  lemma EventSettles(pipe: Pipeline, w: World, i: Input)
    requires Lawful(pipe) && Keeps(pipe, w) && IsBranchEvent(i) && w.ctx.request.Some? && !w.ctx.finished
    requires SendsEnd(w.ctx, OnInput(pipe, w.ctx, i).fx) || (i.UpstreamCancelled? && TargetsDelivered(w))
    ensures Settled(Next(pipe, w, i)) && CopiesIn(OnInput(pipe, w.ctx, i).fx) == []
  {
    var c := w.ctx;
    KeepStep(pipe, w, i);
    HandlesEvent(pipe, c, i);
    ClassifiedFinal(c, i);
    EventSends(pipe, c, i);
    BranchEventShape(pipe, c, i);
    QuietEvent(pipe, c, Classify(c, i));
  }

  /** The proxy itself originates neither a 2xx nor a 6xx. */
  lemma DeliverySendsNoEnd(pipe: Pipeline, w: World, i: Input)
    requires Lawful(pipe) && Keeps(pipe, w) && Admissible(w, i)
    requires w.ctx.finished || !IsBranchEvent(i) || w.ctx.request.None?
    ensures !SendsEnd(w.ctx, OnInput(pipe, w.ctx, i).fx)
  {
    var c := w.ctx;
    if i.TargetsResolved? && c.request.Some? {
      ForkShape(pipe, c.(queued := SortByQ(i.targets)));
    } else if i.Upstream? && pipe.validate(i.arrival).Ok? {
      RouteSendsNoEnd(pipe, c, c.(request := Some(pipe.preprocess(i.arrival).0), validated := Some(pipe.validate(i.arrival).value)));
    } else if i.TokenFact? && c.awaitingVerdict {
      RouteSendsNoEnd(pipe, c, c.(awaitingVerdict := false));
    }
  }

  lemma RouteSendsNoEnd(pipe: Pipeline, before: Context, c: Context)
    requires c.request.Some? && c.validated.Some? && (before.request.Some? ==> before.request == c.request)
    ensures !SendsEnd(before, RouteIt(pipe, c).fx)
  {
    SoleSort(PredeterminedTarget(c.request.value));
    ForkShape(pipe, c.(queued := [PredeterminedTarget(c.request.value)]));
  }

  /**
   * At which inputs the target set is concluded: a 2xx to an INVITE or any 6xx goes upstream, or an
   * upstream CANCEL arrives after the targets were delivered.
   */
  ghost function ConcludedAt(pipe: Pipeline, inputs: seq<Input>): nat -> bool {
    (k: nat) => k < |inputs| &&
      (SentEnd(pipe, Run(pipe, inputs[..k]), inputs[k])
       || (inputs[k].UpstreamCancelled? && TargetsDelivered(Run(pipe, inputs[..k]))))
  }

  /** Once the target set is concluded, no later input in any order forwards another copy. */
  lemma NothingForwardedAfterEnd(pipe: Pipeline, inputs: seq<Input>, k: nat, m: nat)
    requires Lawful(pipe) && WellFormed(pipe, inputs) && k <= m < |inputs| && ConcludedAt(pipe, inputs)(k)
    ensures forall e :: e in EffectsAt(pipe, inputs, m) ==> !e.SendCopy?
  {
    EndSettlesAt(pipe, inputs, k);
    if k < m {
      SettledStays(pipe, inputs, k + 1, m);
      SettledAt(pipe, inputs, m);
    }
    NoCopiesNone(EffectsAt(pipe, inputs, m));
  }

  lemma EndSettlesAt(pipe: Pipeline, inputs: seq<Input>, k: nat)
    requires Lawful(pipe) && WellFormed(pipe, inputs) && k < |inputs| && ConcludedAt(pipe, inputs)(k)
    ensures SettledBy(pipe, inputs)(k + 1) && CopiesIn(EffectsAt(pipe, inputs, k)) == []
  {
    StepAt(pipe, inputs, k);
    EndSettles(pipe, Run(pipe, inputs[..k]), inputs[k]);
  }

  lemma {:induction false} NoCopiesNone(fx: seq<Effect>)
    requires CopiesIn(fx) == []
    ensures forall e :: e in fx ==> !e.SendCopy?
  {
    if fx != [] {
      NoCopiesNone(fx[1..]);
    }
  }
}
