/**
 * The way back: which responses reach the caller with exactly the caller's `Via` list. Ours is popped from
 * every response that goes upstream, also from those that never carried it.
 */
module ContextReturnPath {
  import opened Basics
  import opened Messages
  import opened ContextModel
  import opened ContextRuns
  import opened ContextFacts
  import opened ContextEvents
  import opened ContextInvariants
  import opened ContextTheorems
  import opened ContextAnswers

  /** The response of a branch carries our `Via` on top of the caller's. */
  predicate FromBranch(r: Response, request: Request) {
    |r.vias| == |request.vias| + 1 && r.vias[1..] == request.vias
  }

  predicate BuiltHere(r: Response, request: Request) { r.vias == request.vias }

  /** What a driver feeds as a branch's response: the branch's own, or its timeout as a 408 built here. */
  predicate Honest(c: Context, i: Input) {
    c.request.Some? && i.BranchResponse? ==>
      FromBranch(i.response, c.request.value) || (BuiltHere(i.response, c.request.value) && i.response.status == 408)
  }

  predicate HonestAt(pipe: Pipeline, inputs: seq<Input>, k: nat)
    requires k < |inputs|
  {
    Honest(Run(pipe, inputs[..k]).ctx, inputs[k])
  }

  ghost predicate HonestRun(pipe: Pipeline, inputs: seq<Input>) {
    forall k :: 0 <= k < |inputs| ==> HonestAt(pipe, inputs, k)
  }

  /** Every final on record has the `Via` list of its origin, and what was built here is a timeout or a failed stream. */
  ghost predicate ViaInv(c: Context, fs: seq<BranchFinal>) {
    && (c.request.None? ==> fs == [])
    && (c.request.Some? ==> forall m :: 0 <= m < |fs| ==>
          if fs[m].local then BuiltHere(fs[m].response, c.request.value) && fs[m].response.status in {408, 503}
          else FromBranch(fs[m].response, c.request.value))
  }

  lemma ViaStep(pipe: Pipeline, w: World, i: Input, fs: seq<BranchFinal>)
    requires Lawful(pipe) && Keeps(pipe, w) && Admissible(w, i) && Honest(w.ctx, i) && ViaInv(w.ctx, fs)
    ensures ViaInv(Next(pipe, w, i).ctx, fs + FinalOf(w.ctx, i))
  {
    var c := w.ctx;
    if IsBranchEvent(i) && c.request.Some? {
      BranchEventShape(pipe, c, i);
      OriginStep(c, Next(pipe, w, i).ctx, i, fs);
    } else {
      assert fs + [] == fs;
      RequestStays(pipe, w, i);
    }
  }

  lemma OriginStep(c: Context, next: Context, i: Input, fs: seq<BranchFinal>)
    requires c.request.Some? && next.request == c.request && IsBranchEvent(i) && Honest(c, i) && ViaInv(c, fs)
    ensures ViaInv(next, fs + FinalOf(c, i))
  {
    if Classify(c, i).Final? {
      OriginOfFinal(c, i);
    }
  }

  /** What is built here is a timeout's 408 or a 503 with the caller's list; what is not has ours on top. */
  lemma OriginOfFinal(c: Context, i: Input)
    requires c.request.Some? && IsBranchEvent(i) && Honest(c, i) && Classify(c, i).Final?
    ensures var r := Classify(c, i).response;
      if BuildsHere(c, i) then BuiltHere(r, c.request.value) && r.status in {408, 503} else FromBranch(r, c.request.value)
  {
  }

  /** The request, once there, is never replaced. */
  lemma RequestStays(pipe: Pipeline, w: World, i: Input)
    requires Lawful(pipe) && Keeps(pipe, w) && Admissible(w, i) && (!IsBranchEvent(i) || w.ctx.request.None?)
    ensures w.ctx.request.Some? ==> Next(pipe, w, i).ctx.request == w.ctx.request
    ensures IsBranchEvent(i) ==> Next(pipe, w, i).ctx.request.None?
  {
    var c := w.ctx;
    if i.TargetsResolved? && c.request.Some? {
      ForkShape(pipe, c.(queued := SortByQ(i.targets)));
    } else if i.TokenFact? && c.awaitingVerdict && !c.finished {
      RouteItShape(pipe, c.(awaitingVerdict := false));
    }
  }

  /** After how many inputs that holds. */
  ghost function ViaBy(pipe: Pipeline, inputs: seq<Input>): nat -> bool {
    (n: nat) => n <= |inputs| && ViaInv(Run(pipe, inputs[..n]).ctx, Finals(pipe, inputs[..n]))
  }

  lemma ViaAt(pipe: Pipeline, inputs: seq<Input>, n: nat)
    requires Lawful(pipe) && WellFormed(pipe, inputs) && HonestRun(pipe, inputs) && n < |inputs| && ViaBy(pipe, inputs)(n)
    ensures ViaBy(pipe, inputs)(n + 1)
  {
    StepAt(pipe, inputs, n);
    FinalsSnoc(pipe, inputs, n);
    assert HonestAt(pipe, inputs, n);
    ViaStep(pipe, Run(pipe, inputs[..n]), inputs[n], Finals(pipe, inputs[..n]));
  }

  lemma RunVias(pipe: Pipeline, inputs: seq<Input>, k: nat)
    requires Lawful(pipe) && WellFormed(pipe, inputs) && HonestRun(pipe, inputs) && k <= |inputs|
    ensures ViaBy(pipe, inputs)(k)
  {
    assert inputs[..0] == [];
    forall n | 0 <= n < k && ViaBy(pipe, inputs)(n) ensures ViaBy(pipe, inputs)(n + 1) {
      ViaAt(pipe, inputs, n);
    }
    Onwards(ViaBy(pipe, inputs), 0, k);
  }

  // ------------------------------------------------------------------ what is forwarded on arrival

  /** A provisional, a 2xx to an INVITE and a 6xx reach the caller with exactly the caller's list. */
  lemma ForwardedKeepsPath(pipe: Pipeline, c: Context, i: Input)
    requires c.request.Some? && IsBranchEvent(i) && Honest(c, i)
    requires var e := Classify(c, i); e.Early? || e.Accepted? || e.Rejected?
    ensures var fx := OnInput(pipe, c, i).fx; fx != [] && fx[0].Respond? && fx[0].response.vias == c.request.value.vias
  {
    HandlesEvent(pipe, c, i);
    ClassifiedFinal(c, i);
    match Classify(c, i) {
      case Early(branch, response) => EarlyFacts(pipe, c, branch, response);
      case Accepted(branch, response) => AcceptFacts(pipe, c, branch, response);
      case Rejected(branch, response) => RejectFacts(pipe, c, branch, response);
    }
  }

  // ------------------------------------------------------------------ what is selected

  /** The first of the finals that none is preferred to. */
  ghost predicate FirstBest(fs: seq<BranchFinal>, m: nat) {
    && m < |fs|
    && (forall n :: 0 <= n < |fs| ==> Preferred(fs[m].response.status, fs[n].response.status))
    && forall n :: 0 <= n < m ==> fs[n].response.status != fs[m].response.status
  }

  /** The selected response never had our `Via`: it is a rebuilt challenge or a 408 built here. */
  ghost predicate LosesPath(fs: seq<BranchFinal>) {
    exists m: nat :: FirstBest(fs, m) && Loses(fs[m])
  }

  predicate Loses(f: BranchFinal) {
    f.response.status == 401 || f.response.status == 407 || (f.local && f.response.status == 408)
  }

  lemma {:induction false} FirstIndex(finals: seq<Response>, status: Status) returns (m: nat)
    requires exists r :: r in finals && r.status == status
    ensures m < |finals| && finals[m].status == status && (forall n :: 0 <= n < m ==> finals[n].status != status)
    ensures FirstWith(finals, status) == Some(finals[m])
  {
    if finals[0].status == status {
      m := 0;
    } else {
      assert finals == [finals[0]] + finals[1..];
      var later := FirstIndex(finals[1..], status);
      m := later + 1;
      assert forall n :: 0 < n < m ==> finals[n] == finals[1..][n - 1];
    }
  }

  /** The best final is the first with its status. */
  lemma BestIsFirst(fs: seq<BranchFinal>) returns (m: nat)
    requires fs != []
    ensures FirstBest(fs, m) && BestFinal(Responses(fs)) == Some(fs[m].response.status)
    ensures FirstWith(Responses(fs), fs[m].response.status) == Some(fs[m].response)
  {
    var finals := Responses(fs);
    BestFinalIn(finals);
    var best := BestFinal(finals).value;
    m := FirstIndex(finals, best);
    forall n | 0 <= n < |fs| ensures Preferred(best, fs[n].response.status) {
      assert finals[n] in finals;
    }
    forall n | 0 <= n < m ensures fs[n].response.status != best {
      assert finals[n].status != best;
    }
  }

  lemma FirstBestUnique(fs: seq<BranchFinal>, m: nat, n: nat)
    requires FirstBest(fs, m) && FirstBest(fs, n)
    ensures m == n
  {
    PreferredIsTotal(fs[m].response.status, fs[n].response.status);
  }

  lemma SelectedPath(c: Context, fs: seq<BranchFinal>)
    requires c.request.Some? && c.request.value.vias != [] && fs != [] && ViaInv(c, fs)
    ensures (Selected(Responses(fs), c.request.value).vias == c.request.value.vias) <==> !LosesPath(fs)
  {
    var m := BestIsFirst(fs);
    PoppedPath(Responses(fs), fs[m], c.request.value);
    if LosesPath(fs) {
      var n: nat :| FirstBest(fs, n) && Loses(fs[n]);
      FirstBestUnique(fs, m, n);
    }
  }

  /** What becomes of the best final's `Via` list. */
  lemma {:induction false} PoppedPath(finals: seq<Response>, f: BranchFinal, request: Request)
    requires BestFinal(finals) == Some(f.response.status) && FirstWith(finals, f.response.status) == Some(f.response)
    requires request.vias != []
    requires if f.local then BuiltHere(f.response, request) && f.response.status in {408, 503} else FromBranch(f.response, request)
    ensures (Selected(finals, request).vias == request.vias) <==> !Loses(f)
  {
    assert |request.vias[1..]| == |request.vias| - 1;
  }

  /**
   * Over every run without a final forwarded on arrival, the selected response reaches the caller with exactly
   * the caller's `Via` list if and only if it is neither a 401 or 407 nor the 408 of Timer C or of the driver's
   * own timeout.
   */
  lemma {:induction false} ReturnPathExactly(pipe: Pipeline, inputs: seq<Input>, k: nat)
    requires Lawful(pipe) && WellFormed(pipe, inputs) && PlainRun(pipe, inputs) && HonestRun(pipe, inputs)
    requires k < |inputs| && SelectsAt(pipe, inputs)(k)
    requires Run(pipe, inputs[..k]).ctx.request.Some? && Run(pipe, inputs[..k]).ctx.request.value.vias != []
    ensures PathKept(EffectsAt(pipe, inputs, k), Run(pipe, inputs[..k]).ctx) <==> !LosesPath(Finals(pipe, inputs[..k + 1]))
  {
    StepAt(pipe, inputs, k);
    RunRecords(pipe, inputs, k + 1);
    RunVias(pipe, inputs, k + 1);
    SelectingPath(pipe, Run(pipe, inputs[..k]), inputs[k], Finals(pipe, inputs[..k + 1]));
  }

  /** The answer these effects start with carries exactly the caller's `Via` list. */
  predicate PathKept(fx: seq<Effect>, c: Context) {
    fx != [] && fx[0].Respond? && c.request.Some? && fx[0].response.vias == c.request.value.vias
  }

  lemma SelectingPath(pipe: Pipeline, w: World, i: Input, fs: seq<BranchFinal>)
    requires Lawful(pipe) && Keeps(pipe, w) && Selects(pipe, w.ctx, i) && w.ctx.request.value.vias != []
    requires OnRecord(Next(pipe, w, i).ctx, fs) && ViaInv(Next(pipe, w, i).ctx, fs)
    ensures PathKept(OnInput(pipe, w.ctx, i).fx, w.ctx) <==> !LosesPath(fs)
  {
    var c := w.ctx;
    var next := Next(pipe, w, i).ctx;
    HandlesEvent(pipe, c, i);
    ClassifiedFinal(c, i);
    EndOfRun(pipe, c, Classify(c, i));
    BranchEventShape(pipe, c, i);
    assert next.finals != [];
    SelectedPath(next, fs);
  }
}
