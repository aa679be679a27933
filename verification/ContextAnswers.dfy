/**
 * Which status a context selects: it is decided by the finals on record when the last branch concludes, and
 * what their order can still change.
 */
module ContextAnswers {
  import opened Basics
  import opened Messages
  import opened ContextModel
  import opened ContextRuns
  import opened ContextFacts
  import opened ContextEvents
  import opened ContextInvariants
  import opened ContextTargets
  import opened ContextBranches
  import opened ContextIds
  import opened ContextTheorems
  import opened ContextProgress

  // ------------------------------------------------------------------ the finals of a run

  /** A final that goes to selection: `again` if its branch had already concluded, `local` if it was built here. */
  datatype BranchFinal = BranchFinal(branch: BranchId, response: Response, again: bool, local: bool)

  /**
   * The inputs whose final is built here and not by the branch: Timer C, a failure, a 503, which counts as one,
   * and the driver's own timeout, which has the caller's `Via` list and not ours on top of it.
   */
  predicate BuildsHere(c: Context, i: Input) {
    i.TimerFired? || i.BranchTransportError?
    || (i.BranchResponse? && (i.response.status == 503 || (c.request.Some? && i.response.vias == c.request.value.vias)))
  }

  /** What one input puts on record. */
  function FinalOf(c: Context, i: Input): seq<BranchFinal> {
    if !IsBranchEvent(i) || c.request.None? then []
    else
      var e := Classify(c, i);
      if e.Final? then [BranchFinal(e.branch, e.response, !IsLiveId(c.branches, e.branch), BuildsHere(c, i))] else []
  }

  /** Every final the inputs of a run put on record, in order. */
  function Finals(pipe: Pipeline, inputs: seq<Input>): seq<BranchFinal> {
    if inputs == [] then []
    else
      var before := inputs[..|inputs| - 1];
      Finals(pipe, before) + FinalOf(Run(pipe, before).ctx, inputs[|inputs| - 1])
  }

  function Responses(fs: seq<BranchFinal>): seq<Response> {
    seq(|fs|, m requires 0 <= m < |fs| => fs[m].response)
  }

  /** No final goes upstream on arrival, and a CANCEL comes only once nothing is left to fork. */
  predicate Plain(c: Context, i: Input) {
    IsBranchEvent(i) && c.request.Some? ==>
      var e := Classify(c, i); !e.Accepted? && !e.Rejected? && (e.Withdrawn? ==> c.queued == [])
  }

  predicate PlainAt(pipe: Pipeline, inputs: seq<Input>, k: nat)
    requires k < |inputs|
  {
    Plain(Run(pipe, inputs[..k]).ctx, inputs[k])
  }

  ghost predicate PlainRun(pipe: Pipeline, inputs: seq<Input>) {
    forall k :: 0 <= k < |inputs| ==> PlainAt(pipe, inputs, k)
  }

  /** The branch answered while it was still live. */
  ghost predicate HasFirst(fs: seq<BranchFinal>, id: BranchId) {
    exists m :: 0 <= m < |fs| && fs[m].branch == id && !fs[m].again
  }

  /** The whole plan has been, or will be, forwarded. */
  predicate WholePlan(w: World) {
    w.closed ==> w.resolved.Some? && w.ctx.validated.Some? && w.ctx.queued == [] && |w.ctx.branches| == |PlanOf(w)|
  }

  ghost predicate OnRecord(c: Context, fs: seq<BranchFinal>) {
    && c.finals == Responses(fs)
    && (forall m :: 0 <= m < |fs| ==> Knows(c.branches, fs[m].branch))
    && forall i :: 0 <= i < |c.branches| && c.branches[i].state.Concluded? ==> HasFirst(fs, c.branches[i].id)
  }

  // ------------------------------------------------------------------ one step

  lemma FirstStays(fs: seq<BranchFinal>, more: seq<BranchFinal>, id: BranchId)
    requires HasFirst(fs, id)
    ensures HasFirst(fs + more, id)
  {
    var m :| 0 <= m < |fs| && fs[m].branch == id && !fs[m].again;
    assert (fs + more)[m] == fs[m];
  }

  lemma ResponsesAppend(fs: seq<BranchFinal>, f: BranchFinal)
    ensures Responses(fs + [f]) == Responses(fs) + [f.response]
  {
  }

  lemma RecordedOnRecord(c: Context, f: BranchFinal, fs: seq<BranchFinal>)
    requires OnRecord(c, fs) && Knows(c.branches, f.branch) && f.again == !IsLiveId(c.branches, f.branch)
    ensures OnRecord(Recorded(c, f.branch, f.response), fs + [f])
  {
    var mid := Recorded(c, f.branch, f.response);
    ResponsesAppend(fs, f);
    SameKnown(c.branches, mid.branches);
    forall i | 0 <= i < |mid.branches| && mid.branches[i].state.Concluded? ensures HasFirst(fs + [f], mid.branches[i].id) {
      if c.branches[i].state.Concluded? {
        FirstStays(fs, [f], c.branches[i].id);
      } else {
        assert (fs + [f])[|fs|] == f;
      }
    }
  }

  lemma SameKnown(a: seq<Branch>, b: seq<Branch>)
    requires |a| <= |b| && forall i :: 0 <= i < |a| ==> a[i].id == b[i].id
    ensures forall id :: Knows(a, id) ==> Knows(b, id)
  {
    forall id | Knows(a, id) ensures Knows(b, id) {
      var i :| 0 <= i < |a| && a[i].id == id;
      assert b[i].id == id;
    }
  }

  /** Steps that record nothing and conclude nothing. */
  lemma StillOnRecord(a: Context, b: Context, fs: seq<BranchFinal>)
    requires OnRecord(a, fs) && b.finals == a.finals
    requires |a.branches| <= |b.branches| && forall i :: 0 <= i < |a.branches| ==> a.branches[i].id == b.branches[i].id
    requires forall i :: 0 <= i < |b.branches| && b.branches[i].state.Concluded? ==> i < |a.branches| && a.branches[i].state.Concluded?
    ensures OnRecord(b, fs)
  {
    SameKnown(a.branches, b.branches);
  }

  lemma FinalOnRecord(pipe: Pipeline, c: Context, e: Event, f: BranchFinal, fs: seq<BranchFinal>)
    requires Lawful(pipe) && c.request.Some? && c.validated.Some? && (c.answered ==> c.queued == [])
    requires e.Final? && Knows(c.branches, e.branch) && OnRecord(c, fs)
    requires f.branch == e.branch && f.response == e.response && f.again == !IsLiveId(c.branches, e.branch)
    ensures OnRecord(Handle(pipe, c, e).next, fs + [f])
  {
    var mid := Recorded(c, e.branch, e.response);
    var more := fs + [f];
    FinalFacts(pipe, c, e.branch, e.response);
    RecordedOnRecord(c, f, fs);
    if ForksNext(c, e) {
      ForkShape(pipe, mid);
      ForkFacts(pipe, mid);
      var after := ForkNextGroup(pipe, mid).next;
      assert forall i :: |mid.branches| <= i < |after.branches| ==> after.branches[i] == after.branches[|mid.branches|..][i - |mid.branches|];
      StillOnRecord(mid, after, more);
    }
  }

  lemma {:induction false} EarlyConcludes(bs: seq<Branch>, id: BranchId, i: nat)
    requires i < |bs|
    requires (if Releases(bs, id) then SetCancelling(MarkProvisional(bs, id), id) else MarkProvisional(bs, id))[i].state.Concluded?
    ensures bs[i].state.Concluded?
  {
  }

  /** An event that is no final concludes no branch. */
  lemma QuietConcludes(pipe: Pipeline, c: Context, e: Event, i: nat)
    requires c.request.Some? && (e.Early? || e.Withdrawn? || e.Stuck? || e.Ignored?)
    requires i < |c.branches| && i < |Handle(pipe, c, e).next.branches| && Handle(pipe, c, e).next.branches[i].state.Concluded?
    ensures c.branches[i].state.Concluded?
  {
    if e.Early? {
      EarlyFacts(pipe, c, e.branch, e.response);
      EarlyConcludes(c.branches, e.branch, i);
    } else if e.Withdrawn? && IsLive(c.branches[i].state) {
      WithdrawnLives(pipe, c, i);
    }
  }

  lemma WithdrawnLives(pipe: Pipeline, c: Context, i: nat)
    requires c.request.Some? && i < |c.branches| && IsLive(c.branches[i].state)
    ensures var after := Handle(pipe, c, Withdrawn).next.branches; i < |after| && IsLive(after[i].state)
  {
    WithdrawnFacts(pipe, c);
  }

  lemma QuietFinals(pipe: Pipeline, c: Context, e: Event)
    requires c.request.Some? && (e.Early? || e.Withdrawn? || e.Stuck? || e.Ignored?)
    ensures Handle(pipe, c, e).next.finals == c.finals
  {
  }

  lemma QuietOnRecord(pipe: Pipeline, c: Context, e: Event, fs: seq<BranchFinal>)
    requires c.request.Some? && (e.Early? || e.Withdrawn? || e.Stuck? || e.Ignored?) && OnRecord(c, fs)
    ensures OnRecord(Handle(pipe, c, e).next, fs)
  {
    var next := Handle(pipe, c, e).next;
    QuietEvent(pipe, c, e);
    QuietFinals(pipe, c, e);
    forall i | 0 <= i < |next.branches| && next.branches[i].state.Concluded? ensures c.branches[i].state.Concluded? {
      QuietConcludes(pipe, c, e, i);
    }
    StillOnRecord(c, next, fs);
  }

  /** What an input records is what the run's finals gain. */
  lemma RecordStep(pipe: Pipeline, w: World, i: Input, fs: seq<BranchFinal>)
    requires Lawful(pipe) && Keeps(pipe, w) && Admissible(w, i) && Plain(w.ctx, i) && OnRecord(w.ctx, fs)
    ensures OnRecord(Next(pipe, w, i).ctx, fs + FinalOf(w.ctx, i))
  {
    var c := w.ctx;
    if IsBranchEvent(i) && c.request.Some? {
      EventOnRecord(pipe, w, i, fs);
    } else {
      assert fs + [] == fs;
      DeliveryFresh(pipe, w, i);
      StillOnRecord(c, Next(pipe, w, i).ctx, fs);
    }
  }

  lemma EventOnRecord(pipe: Pipeline, w: World, i: Input, fs: seq<BranchFinal>)
    requires Lawful(pipe) && Keeps(pipe, w) && IsBranchEvent(i) && w.ctx.request.Some? && Plain(w.ctx, i) && OnRecord(w.ctx, fs)
    ensures OnRecord(Next(pipe, w, i).ctx, fs + FinalOf(w.ctx, i))
  {
    var c := w.ctx;
    var e := Classify(c, i);
    HandlesEvent(pipe, c, i);
    ClassifiedFinal(c, i);
    if e.Final? {
      FinalOnRecord(pipe, c, e, FinalOf(c, i)[0], fs);
    } else {
      assert fs + [] == fs;
      QuietOnRecord(pipe, c, e, fs);
    }
  }

  /** Delivery records nothing and leaves every branch as it is; what it adds is pending. */
  lemma DeliveryFresh(pipe: Pipeline, w: World, i: Input)
    requires Lawful(pipe) && Keeps(pipe, w) && Admissible(w, i) && (!IsBranchEvent(i) || w.ctx.request.None?)
    ensures var next := Next(pipe, w, i).ctx;
      next.finals == w.ctx.finals && w.ctx.branches <= next.branches
      && forall k :: |w.ctx.branches| <= k < |next.branches| ==> next.branches[k].state == Pending(false, false)
  {
    var c := w.ctx;
    if c.finished || IsBranchEvent(i) {
    } else if w.resolved.Some? {
      assert OnInput(pipe, c, i) == Out(c, []);
    } else if i.TargetsResolved? && i.targets != [] {
      SortIsStable(i.targets);
      assert |multiset(i.targets)| == |i.targets| && |multiset(SortByQ(i.targets))| == |SortByQ(i.targets)|;
      FirstGroup(pipe, c.(queued := SortByQ(i.targets)));
      ForkShape(pipe, c.(queued := SortByQ(i.targets)));
    } else if i.Upstream? && pipe.validate(i.arrival).Ok? && pipe.preprocess(i.arrival).1.None? {
      var d := c.(request := Some(pipe.preprocess(i.arrival).0), validated := Some(pipe.validate(i.arrival).value));
      RoutedGroup(pipe, d);
      RouteItShape(pipe, d);
    } else if i.TokenFact? && c.awaitingVerdict && i.verdict.Valid? {
      RoutedGroup(pipe, c.(awaitingVerdict := false));
      RouteItShape(pipe, c.(awaitingVerdict := false));
    }
  }

  // ------------------------------------------------------------------ the plan is not cut short

  lemma PlanStep(pipe: Pipeline, w: World, i: Input)
    requires Lawful(pipe) && Keeps(pipe, w) && Admissible(w, i) && Plain(w.ctx, i) && WholePlan(w)
    ensures WholePlan(Next(pipe, w, i))
  {
    var c := w.ctx;
    if IsBranchEvent(i) && c.request.Some? && !c.finished {
      PlanEvent(pipe, w, i);
    } else if w.closed {
      assert OnInput(pipe, c, i) == Out(c, []);
    } else {
      DeliverySendsNoEnd(pipe, w, i);
    }
  }

  lemma PlanEvent(pipe: Pipeline, w: World, i: Input)
    requires Lawful(pipe) && Keeps(pipe, w) && IsBranchEvent(i) && w.ctx.request.Some? && !w.ctx.finished
    requires Plain(w.ctx, i) && WholePlan(w)
    ensures WholePlan(Next(pipe, w, i))
  {
    var c := w.ctx;
    var e := Classify(c, i);
    HandlesEvent(pipe, c, i);
    ClassifiedFinal(c, i);
    EventSends(pipe, c, i);
    BranchEventShape(pipe, c, i);
    if w.closed || e.Withdrawn? {
      NoForkCopies(pipe, c, e);
      NoForkQueue(pipe, c, e);
      if w.resolved.Some? && !w.closed {
        assert PlanOf(w)[|c.branches|..] == [];
      }
    }
  }

  // ------------------------------------------------------------------ over runs

  lemma {:induction false} PlainPrefix(pipe: Pipeline, inputs: seq<Input>, k: nat)
    requires PlainRun(pipe, inputs) && k < |inputs|
    ensures Plain(Run(pipe, inputs[..k]).ctx, inputs[k])
  {
    assert PlainAt(pipe, inputs, k);
  }

  lemma {:induction false} FinalsSnoc(pipe: Pipeline, inputs: seq<Input>, k: nat)
    requires k < |inputs|
    ensures Finals(pipe, inputs[..k + 1]) == Finals(pipe, inputs[..k]) + FinalOf(Run(pipe, inputs[..k]).ctx, inputs[k])
  {
    assert inputs[..k + 1][..k] == inputs[..k];
  }

  /** After how many inputs the record and the plan are as they should be. */
  ghost function RecordedBy(pipe: Pipeline, inputs: seq<Input>): nat -> bool {
    (n: nat) => n <= |inputs| && OnRecord(Run(pipe, inputs[..n]).ctx, Finals(pipe, inputs[..n])) && WholePlan(Run(pipe, inputs[..n]))
  }

  lemma RecordAt(pipe: Pipeline, inputs: seq<Input>, n: nat)
    requires Lawful(pipe) && WellFormed(pipe, inputs) && PlainRun(pipe, inputs) && n < |inputs| && RecordedBy(pipe, inputs)(n)
    ensures RecordedBy(pipe, inputs)(n + 1)
  {
    StepAt(pipe, inputs, n);
    PlainPrefix(pipe, inputs, n);
    FinalsSnoc(pipe, inputs, n);
    RecordStep(pipe, Run(pipe, inputs[..n]), inputs[n], Finals(pipe, inputs[..n]));
    PlanStep(pipe, Run(pipe, inputs[..n]), inputs[n]);
  }

  lemma RunRecords(pipe: Pipeline, inputs: seq<Input>, k: nat)
    requires Lawful(pipe) && WellFormed(pipe, inputs) && PlainRun(pipe, inputs) && k <= |inputs|
    ensures RecordedBy(pipe, inputs)(k)
  {
    assert inputs[..0] == [];
    forall n | 0 <= n < k && RecordedBy(pipe, inputs)(n) ensures RecordedBy(pipe, inputs)(n + 1) {
      RecordAt(pipe, inputs, n);
    }
    Onwards(RecordedBy(pipe, inputs), 0, k);
  }

  // ------------------------------------------------------------------ the outcome

  /** The preference order is total, so a best status is unique. */
  lemma PreferredIsTotal(a: Status, b: Status)
    ensures Preferred(a, b) || Preferred(b, a)
    ensures Preferred(a, b) && Preferred(b, a) ==> a == b
  {
  }

  lemma PreferredChains(a: Status, b: Status, c: Status)
    requires Preferred(a, b) && Preferred(b, c)
    ensures Preferred(a, c)
  {
  }

  /** R8: a branch's 503 is not the destination's. */
  function Masked(best: Status): Status { if best == 503 then 500 else best }

  ghost predicate IsBest(best: Status, statuses: set<Status>) {
    best in statuses && forall s :: s in statuses ==> Preferred(best, s)
  }

  /** What R7 and R8 make of these statuses. */
  ghost predicate IsOutcome(s: Status, statuses: set<Status>) {
    exists best: Status :: IsBest(best, statuses) && s == Masked(best)
  }

  /** A set of branch answers has one outcome. */
  lemma OutcomeUnique(a: Status, b: Status, statuses: set<Status>)
    requires IsOutcome(a, statuses) && IsOutcome(b, statuses)
    ensures a == b
  {
    var x: Status :| IsBest(x, statuses) && a == Masked(x);
    var y: Status :| IsBest(y, statuses) && b == Masked(y);
    PreferredIsTotal(x, y);
  }

  function Statuses(fs: seq<BranchFinal>): set<Status> {
    set m | 0 <= m < |fs| :: fs[m].response.status
  }

  function FirstStatuses(fs: seq<BranchFinal>): set<Status> {
    set m | 0 <= m < |fs| && !fs[m].again :: fs[m].response.status
  }

  function ExtraStatuses(fs: seq<BranchFinal>): set<Status> {
    set m | 0 <= m < |fs| && fs[m].again :: fs[m].response.status
  }

  lemma SelectedIsOutcome(finals: seq<Response>, fs: seq<BranchFinal>, request: Request)
    requires finals == Responses(fs) && fs != []
    ensures IsOutcome(Selected(finals, request).status, Statuses(fs))
  {
    SelectedFinal(finals, request);
    BestFinalIn(finals);
    var best := BestFinal(finals).value;
    var f :| f in finals && f.status == best;
    var m :| 0 <= m < |finals| && finals[m] == f;
    assert fs[m].response.status == best;
    forall s | s in Statuses(fs) ensures Preferred(best, s) {
      var n :| 0 <= n < |fs| && fs[n].response.status == s;
      assert finals[n] in finals;
    }
    assert IsBest(best, Statuses(fs));
  }

  /** At which inputs a final makes the context select and answer. */
  ghost function SelectsAt(pipe: Pipeline, inputs: seq<Input>): nat -> bool {
    (k: nat) => k < |inputs| && Selects(pipe, Run(pipe, inputs[..k]).ctx, inputs[k])
  }

  ghost predicate Selects(pipe: Pipeline, c: Context, i: Input) {
    IsBranchEvent(i) && c.request.Some? && Classify(c, i).Final? && !c.answered && OnInput(pipe, c, i).next.answered
  }

  lemma EndOfRun(pipe: Pipeline, c: Context, e: Event)
    requires Lawful(pipe) && c.request.Some? && c.validated.Some? && e.Final? && Knows(c.branches, e.branch)
    requires !c.answered && !c.finished && Handle(pipe, c, e).next.answered
    ensures var out := Handle(pipe, c, e);
      && !HasLive(out.next.branches) && out.next.queued == [] && out.next.branches != [] && out.next.validated == c.validated
      && out.next.finals == c.finals + [e.response] && out.next.finished
      && out.fx == [Respond(Selected(out.next.finals, c.request.value)), Terminate]
  {
    FinalFacts(pipe, c, e.branch, e.response);
    if ForksNext(c, e) {
      ForkShape(pipe, Recorded(c, e.branch, e.response));
    }
  }

  /** One selecting step: it answers with the outcome of everything on record, that final included. */
  lemma SelectingStep(pipe: Pipeline, w: World, i: Input, fs: seq<BranchFinal>)
    requires Lawful(pipe) && Keeps(pipe, w) && Selects(pipe, w.ctx, i)
    requires OnRecord(Next(pipe, w, i).ctx, fs) && WholePlan(Next(pipe, w, i)) && Keeps(pipe, Next(pipe, w, i))
    ensures var next := Next(pipe, w, i);
      var fx := OnInput(pipe, w.ctx, i).fx;
      && next.resolved.Some? && next.ctx.validated.Some? && !HasLive(next.ctx.branches)
      && IdsOf(next.ctx.branches) == IdsAt(pipe, next.ctx.validated.value.cookieInput, PlanOf(next))
      && |fx| == 2 && fx[0].Respond? && IsOutcome(fx[0].response.status, Statuses(fs))
  {
    var c := w.ctx;
    var next := Next(pipe, w, i);
    HandlesEvent(pipe, c, i);
    ClassifiedFinal(c, i);
    EndOfRun(pipe, c, Classify(c, i));
    assert next.ctx.finals != [];
    SelectedIsOutcome(next.ctx.finals, fs, c.request.value);
    WholeTake(PlanOf(next), |next.ctx.branches|);
  }

  lemma WholeTake(plan: seq<nat>, n: nat)
    ensures n <= |plan| && plan[n..] == [] ==> plan[..n] == plan
    ensures n == |plan| ==> plan[n..] == []
  {
  }

  /** The status a step answers upstream, 100 if it answers nothing. */
  function AnswerStatus(pipe: Pipeline, inputs: seq<Input>, k: nat): Status
    requires k < |inputs|
  {
    Answer(EffectsAt(pipe, inputs, k))
  }

  function Answer(fx: seq<Effect>): Status { if fx != [] && fx[0].Respond? then fx[0].response.status else 100 }

  /** These branches are the plan, all of them answered, and `s` is what R7 and R8 make of what they answered. */
  ghost predicate Conclusive(bs: seq<Branch>, fs: seq<BranchFinal>, s: Status) {
    && (forall i :: 0 <= i < |bs| ==> HasFirst(fs, bs[i].id))
    && (forall m :: 0 <= m < |fs| ==> Knows(bs, fs[m].branch))
    && IsOutcome(s, Statuses(fs))
  }

  /**
   * The answer is what R7 and R8 make of the finals the inputs put on record; by then every branch of the plan
   * has been forwarded and has answered.
   */
  lemma {:induction false} SelectedOutcome(pipe: Pipeline, inputs: seq<Input>, k: nat)
    requires Lawful(pipe) && WellFormed(pipe, inputs) && PlainRun(pipe, inputs) && k < |inputs| && SelectsAt(pipe, inputs)(k)
    ensures var w := Run(pipe, inputs[..k + 1]);
      && w.resolved.Some? && w.ctx.validated.Some?
      && IdsOf(w.ctx.branches) == IdsAt(pipe, w.ctx.validated.value.cookieInput, PlanOf(w))
      && Conclusive(w.ctx.branches, Finals(pipe, inputs[..k + 1]), AnswerStatus(pipe, inputs, k))
  {
    StepAt(pipe, inputs, k);
    RunKeeps(pipe, inputs, k + 1);
    RunRecords(pipe, inputs, k + 1);
    SelectingStep(pipe, Run(pipe, inputs[..k]), inputs[k], Finals(pipe, inputs[..k + 1]));
    AllAnswered(Run(pipe, inputs[..k + 1]).ctx, Finals(pipe, inputs[..k + 1]), AnswerStatus(pipe, inputs, k));
  }

  lemma AllAnswered(c: Context, fs: seq<BranchFinal>, s: Status)
    requires OnRecord(c, fs) && !HasLive(c.branches) && IsOutcome(s, Statuses(fs))
    ensures Conclusive(c.branches, fs, s)
  {
    forall i | 0 <= i < |c.branches| ensures HasFirst(fs, c.branches[i].id) {
      assert !IsLive(c.branches[i].state);
    }
  }

  // ------------------------------------------------------------------ arrival order

  /** The same finals, in whatever order and however often, give the same answer. */
  lemma {:induction false} SameFinalsSameAnswer(pipe: Pipeline, p: seq<Input>, j: nat, q: seq<Input>, k: nat)
    requires Lawful(pipe) && WellFormed(pipe, p) && PlainRun(pipe, p) && j < |p| && SelectsAt(pipe, p)(j)
    requires WellFormed(pipe, q) && PlainRun(pipe, q) && k < |q| && SelectsAt(pipe, q)(k)
    requires Statuses(Finals(pipe, p[..j + 1])) == Statuses(Finals(pipe, q[..k + 1]))
    ensures AnswerStatus(pipe, p, j) == AnswerStatus(pipe, q, k)
  {
    SelectedOutcome(pipe, p, j);
    SelectedOutcome(pipe, q, k);
    OutcomeUnique(AnswerStatus(pipe, p, j), AnswerStatus(pipe, q, k), Statuses(Finals(pipe, p[..j + 1])));
  }

  /**
   * A final of a branch that had already concluded goes on record too. It is harmless when it is preferred to
   * none of the first finals' best, or when it only turns 503 into 500, which R8 does anyway.
   */
  ghost predicate Harmless(firsts: set<Status>, extras: set<Status>) {
    exists best: Status :: IsBest(best, firsts)
      && ((forall x :: x in extras ==> Preferred(best, x)) || (best == 503 && IsBest(500, extras)))
  }

  /** Exactly harmless extras leave the outcome what the first finals make it. */
  lemma HarmlessExactly(firsts: set<Status>, extras: set<Status>, best: Status)
    requires IsBest(best, firsts)
    ensures IsOutcome(Masked(best), firsts + extras) <==> Harmless(firsts, extras)
  {
    var all := firsts + extras;
    if Harmless(firsts, extras) {
      var b: Status :| IsBest(b, firsts) && ((forall x :: x in extras ==> Preferred(b, x)) || (b == 503 && IsBest(500, extras)));
      PreferredIsTotal(b, best);
      if forall x :: x in extras ==> Preferred(b, x) {
        assert IsBest(best, all);
      } else {
        MaskedPair(firsts, extras);
      }
    }
    if IsOutcome(Masked(best), all) {
      var b: Status :| IsBest(b, all) && Masked(best) == Masked(b);
      if b == best {
        assert IsBest(best, firsts);
      } else {
        PreferredIsTotal(b, best);
        assert best in all;
        assert b == 500 && best == 503;
        assert b in extras && IsBest(500, extras);
      }
    }
  }

  lemma MaskedPair(firsts: set<Status>, extras: set<Status>)
    requires IsBest(503, firsts) && IsBest(500, extras)
    ensures IsBest(500, firsts + extras)
  {
  }

  lemma FirstsAndExtras(fs: seq<BranchFinal>)
    ensures Statuses(fs) == FirstStatuses(fs) + ExtraStatuses(fs)
  {
    forall s | s in Statuses(fs) ensures s in FirstStatuses(fs) + ExtraStatuses(fs) {
      var m :| 0 <= m < |fs| && fs[m].response.status == s;
      assert fs[m].again || !fs[m].again;
    }
  }

  /** A best status there is, in any set but the empty one. */
  lemma {:induction false} BestExists(statuses: set<Status>) returns (best: Status)
    requires statuses != {}
    ensures IsBest(best, statuses)
    decreases |statuses|
  {
    var s :| s in statuses;
    if statuses == {s} {
      best := s;
    } else {
      assert statuses - {s} != {};
      var rest := BestExists(statuses - {s});
      best := if Preferred(s, rest) then s else rest;
      PreferredIsTotal(s, rest);
      forall x | x in statuses ensures Preferred(best, x) {
        if x != s {
          PreferredChains(best, rest, x);
        }
      }
    }
  }

  /**
   * A run answers what its branches' first finals alone would make it answer exactly when the finals that
   * came from branches already concluded are harmless.
   */
  lemma {:induction false} FirstsDecideExactly(pipe: Pipeline, inputs: seq<Input>, k: nat)
    requires Lawful(pipe) && WellFormed(pipe, inputs) && PlainRun(pipe, inputs) && k < |inputs| && SelectsAt(pipe, inputs)(k)
    ensures var fs := Finals(pipe, inputs[..k + 1]);
      IsOutcome(AnswerStatus(pipe, inputs, k), FirstStatuses(fs)) <==> Harmless(FirstStatuses(fs), ExtraStatuses(fs))
  {
    SelectedOutcome(pipe, inputs, k);
    ConclusiveFirsts(Run(pipe, inputs[..k + 1]).ctx.branches, Finals(pipe, inputs[..k + 1]), AnswerStatus(pipe, inputs, k));
  }

  lemma ConclusiveFirsts(bs: seq<Branch>, fs: seq<BranchFinal>, s: Status)
    requires Conclusive(bs, fs, s)
    ensures IsOutcome(s, FirstStatuses(fs)) <==> Harmless(FirstStatuses(fs), ExtraStatuses(fs))
  {
    SomeFirst(bs, fs, s);
    OutcomeOfFirsts(fs, s);
  }

  lemma SomeFirst(bs: seq<Branch>, fs: seq<BranchFinal>, s: Status)
    requires Conclusive(bs, fs, s)
    ensures FirstStatuses(fs) != {}
  {
    var best: Status :| IsBest(best, Statuses(fs));
    var m :| 0 <= m < |fs| && fs[m].response.status == best;
    var i :| 0 <= i < |bs| && bs[i].id == fs[m].branch;
    var n :| 0 <= n < |fs| && fs[n].branch == bs[i].id && !fs[n].again;
    assert fs[n].response.status in FirstStatuses(fs);
  }

  lemma OutcomeOfFirsts(fs: seq<BranchFinal>, s: Status)
    requires IsOutcome(s, Statuses(fs)) && FirstStatuses(fs) != {}
    ensures IsOutcome(s, FirstStatuses(fs)) <==> Harmless(FirstStatuses(fs), ExtraStatuses(fs))
  {
    var best := BestExists(FirstStatuses(fs));
    FirstsAndExtras(fs);
    HarmlessExactly(FirstStatuses(fs), ExtraStatuses(fs), best);
    assert IsOutcome(Masked(best), FirstStatuses(fs));
    if IsOutcome(s, FirstStatuses(fs)) {
      OutcomeUnique(s, Masked(best), FirstStatuses(fs));
    }
    if Harmless(FirstStatuses(fs), ExtraStatuses(fs)) {
      OutcomeUnique(s, Masked(best), Statuses(fs));
    }
  }

  /** Every branch's first final has the status `f` says. */
  ghost predicate FirstsBy(fs: seq<BranchFinal>, f: BranchId -> Status) {
    forall m :: 0 <= m < |fs| && !fs[m].again ==> fs[m].response.status == f(fs[m].branch)
  }

  lemma FirstsByPlan(bs: seq<Branch>, fs: seq<BranchFinal>, s: Status, f: BranchId -> Status)
    requires FirstsBy(fs, f) && Conclusive(bs, fs, s)
    ensures forall s :: s in FirstStatuses(fs) <==> exists i :: 0 <= i < |IdsOf(bs)| && s == f(IdsOf(bs)[i])
  {
    forall s ensures s in FirstStatuses(fs) <==> exists i :: 0 <= i < |IdsOf(bs)| && s == f(IdsOf(bs)[i]) {
      if s in FirstStatuses(fs) {
        var m :| 0 <= m < |fs| && !fs[m].again && fs[m].response.status == s;
        var i :| 0 <= i < |bs| && bs[i].id == fs[m].branch;
        assert IdsOf(bs)[i] == fs[m].branch;
      }
      if exists i :: 0 <= i < |IdsOf(bs)| && s == f(IdsOf(bs)[i]) {
        var i :| 0 <= i < |IdsOf(bs)| && s == f(IdsOf(bs)[i]);
        var m :| 0 <= m < |fs| && fs[m].branch == bs[i].id && !fs[m].again;
      }
    }
  }

  /**
   * Two runs over one request and one target list whose branches' first finals agree send the same status
   * upstream in whatever order they arrive, exactly when the second run's later finals are harmless too; those
   * of the first are.
   */
  lemma {:induction false} ArrivalOrderIrrelevant(pipe: Pipeline, p: seq<Input>, j: nat, q: seq<Input>, k: nat, f: BranchId -> Status)
    requires Lawful(pipe) && WellFormed(pipe, p) && PlainRun(pipe, p) && j < |p| && SelectsAt(pipe, p)(j)
    requires WellFormed(pipe, q) && PlainRun(pipe, q) && k < |q| && SelectsAt(pipe, q)(k)
    requires FirstsBy(Finals(pipe, p[..j + 1]), f) && FirstsBy(Finals(pipe, q[..k + 1]), f)
    requires SameRequest(Run(pipe, p[..j + 1]).ctx, Run(pipe, q[..k + 1]).ctx)
    requires Run(pipe, p[..j + 1]).resolved == Run(pipe, q[..k + 1]).resolved
    requires var fs := Finals(pipe, p[..j + 1]); Harmless(FirstStatuses(fs), ExtraStatuses(fs))
    ensures var fs := Finals(pipe, q[..k + 1]);
      AnswerStatus(pipe, p, j) == AnswerStatus(pipe, q, k) <==> Harmless(FirstStatuses(fs), ExtraStatuses(fs))
  {
    SameFirsts(pipe, p, j, q, k, f);
    FirstsDecideExactly(pipe, p, j);
    FirstsDecideExactly(pipe, q, k);
    var firsts := FirstStatuses(Finals(pipe, p[..j + 1]));
    if IsOutcome(AnswerStatus(pipe, q, k), firsts) {
      OutcomeUnique(AnswerStatus(pipe, p, j), AnswerStatus(pipe, q, k), firsts);
    }
  }

  lemma {:induction false} SameFirsts(pipe: Pipeline, p: seq<Input>, j: nat, q: seq<Input>, k: nat, f: BranchId -> Status)
    requires Lawful(pipe) && WellFormed(pipe, p) && PlainRun(pipe, p) && j < |p| && SelectsAt(pipe, p)(j)
    requires WellFormed(pipe, q) && PlainRun(pipe, q) && k < |q| && SelectsAt(pipe, q)(k)
    requires FirstsBy(Finals(pipe, p[..j + 1]), f) && FirstsBy(Finals(pipe, q[..k + 1]), f)
    requires SameRequest(Run(pipe, p[..j + 1]).ctx, Run(pipe, q[..k + 1]).ctx)
    requires Run(pipe, p[..j + 1]).resolved == Run(pipe, q[..k + 1]).resolved
    ensures FirstStatuses(Finals(pipe, p[..j + 1])) == FirstStatuses(Finals(pipe, q[..k + 1]))
  {
    SelectedOutcome(pipe, p, j);
    SelectedOutcome(pipe, q, k);
    FirstsByPlan(Run(pipe, p[..j + 1]).ctx.branches, Finals(pipe, p[..j + 1]), AnswerStatus(pipe, p, j), f);
    FirstsByPlan(Run(pipe, q[..k + 1]).ctx.branches, Finals(pipe, q[..k + 1]), AnswerStatus(pipe, q, k), f);
  }

  // ------------------------------------------------------------------ one final too many

  lemma NotLiveLater(bs: seq<Branch>, id: BranchId)
    requires bs != [] && !IsLiveId(bs, id)
    ensures !IsLiveId(bs[1..], id) && !(bs[0].id == id && IsLive(bs[0].state))
  {
  }

  lemma {:induction false} SawElsewhere(bs: seq<Branch>, other: BranchId, status: Status, id: BranchId)
    requires !IsLiveId(bs, other)
    ensures SawProvisional(ConcludeAll(bs, other, status), id) == SawProvisional(bs, id)
  {
    if bs != [] {
      NotLiveLater(bs, other);
      SawElsewhere(bs[1..], other, status, id);
      assert ConcludeAll(bs, other, status)[1..] == ConcludeAll(bs[1..], other, status);
    }
  }

  /** A final of a concluded branch, while another is live, only goes on record. */
  lemma ExtraIsRecorded(pipe: Pipeline, c: Context, x: Input, e: Event)
    requires Lawful(pipe) && c.request.Some? && c.validated.Some? && IsBranchEvent(x) && (c.answered ==> c.queued == [])
    requires Classify(c, x) == e && e.Final? && !IsLiveId(c.branches, e.branch) && HasLive(c.branches)
    ensures OnInput(pipe, c, x) == Out(Recorded(c, e.branch, e.response), [])
  {
    var mid := Recorded(c, e.branch, e.response);
    HandlesEvent(pipe, c, x);
    FinalFacts(pipe, c, e.branch, e.response);
    var i :| 0 <= i < |c.branches| && IsLive(c.branches[i].state);
    assert mid.branches[i] == c.branches[i];
  }

  /** It changes nothing about what another input means. */
  lemma ExtraKeepsMeaning(c: Context, e: Event, i: Input)
    requires c.request.Some? && IsBranchEvent(i) && e.Final? && !IsLiveId(c.branches, e.branch)
    ensures Classify(Recorded(c, e.branch, e.response), i) == Classify(c, i)
  {
    var after := ConcludeAll(c.branches, e.branch, e.response.status);
    SameKnown(c.branches, after);
    SameKnown(after, c.branches);
    if i.TimerFired? && i.guarded.Some? {
      SawElsewhere(c.branches, e.branch, e.response.status, i.guarded.value);
    }
  }

  /**
   * The order that matters. A final `x` of a branch already concluded, arriving just before the one that makes
   * the context select instead of just after it: the two orders answer alike exactly when `x` is not preferred
   * to the best on record, or is the 500 that R8 makes of a 503 anyway.
   */
  lemma LateFinalMatters(pipe: Pipeline, w: World, i: Input, x: Input)
    requires Lawful(pipe) && Keeps(pipe, w) && Selects(pipe, w.ctx, i) && HasLive(w.ctx.branches)
    requires IsBranchEvent(x) && Classify(w.ctx, x).Final? && !IsLiveId(w.ctx.branches, Classify(w.ctx, x).branch)
    ensures var best := BestFinal(w.ctx.finals + [Classify(w.ctx, i).response]).value;
      var extra := Classify(w.ctx, x).response.status;
      var late, early := OnInput(pipe, w.ctx, i), OnInput(pipe, Next(pipe, w, x).ctx, i);
      && OnInput(pipe, w.ctx, x).fx == [] && OnInput(pipe, late.next, x).fx == []
      && Selects(pipe, Next(pipe, w, x).ctx, i)
      && (Answer(late.fx) == Answer(early.fx) <==> Preferred(best, extra) || (best == 503 && extra == 500))
  {
    var c := w.ctx;
    var e, late := Classify(c, x), Classify(c, i);
    ClassifiedFinal(c, i);
    ClassifiedFinal(c, x);
    ExtraIsRecorded(pipe, c, x, e);
    ExtraKeepsMeaning(c, e, i);
    HandlesEvent(pipe, c, i);
    EndOfRun(pipe, c, late);
    EarlyEnd(pipe, c, e, late);
    HandlesEvent(pipe, Recorded(c, e.branch, e.response), i);
    SelectedWithExtra(c.finals, e.response, late.response, c.request.value);
  }

  /** The selecting final still selects with the extra one on record before it. */
  lemma EarlyEnd(pipe: Pipeline, c: Context, x: Event, e: Event)
    requires Lawful(pipe) && c.request.Some? && c.validated.Some? && x.Final? && e.Final? && Knows(c.branches, e.branch)
    requires (c.answered ==> c.queued == []) && !IsLiveId(c.branches, x.branch)
    requires !c.answered && !c.finished && Handle(pipe, c, e).next.answered
    ensures var mid := Recorded(c, x.branch, x.response);
      var out := Handle(pipe, mid, e);
      && !mid.answered && !mid.finished && out.next.answered
      && out.fx == [Respond(Selected(c.finals + [x.response] + [e.response], c.request.value)), Terminate]
  {
    var mid := Recorded(c, x.branch, x.response);
    EndOfRun(pipe, c, e);
    FinalFacts(pipe, c, e.branch, e.response);
    FinalFacts(pipe, mid, e.branch, e.response);
    NoneLiveAfter(c.branches, x.branch, x.response.status, e.branch, e.response.status);
    if ForksNext(c, e) {
      ForkShape(pipe, Recorded(c, e.branch, e.response));
    }
  }

  lemma NoneLiveAfter(bs: seq<Branch>, x: BranchId, sx: Status, e: BranchId, se: Status)
    requires !HasLive(ConcludeAll(bs, e, se))
    ensures !HasLive(ConcludeAll(ConcludeAll(bs, x, sx), e, se))
  {
    var a, b := ConcludeAll(bs, e, se), ConcludeAll(ConcludeAll(bs, x, sx), e, se);
    forall i | 0 <= i < |b| ensures !IsLive(b[i].state) {
      assert !IsLive(a[i].state);
    }
  }

  lemma {:induction false} SelectedWithExtra(finals: seq<Response>, extra: Response, last: Response, request: Request)
    ensures var best := BestFinal(finals + [last]).value;
      finals + [last] != [] && BestFinal(finals + [last]).Some?
      && ((Selected(finals + [last], request).status == Selected(finals + [extra] + [last], request).status)
          <==> (Preferred(best, extra.status) || (best == 503 && extra.status == 500)))
  {
    var a, b := finals + [last], finals + [extra] + [last];
    BestFinalIn(a);
    BestFinalIn(b);
    SelectedFinal(a, request);
    SelectedFinal(b, request);
    BestWithExtra(finals, extra, last);
  }

  lemma {:induction false} BestWithExtra(finals: seq<Response>, extra: Response, last: Response)
    ensures var a, b := BestFinal(finals + [last]), BestFinal(finals + [extra] + [last]);
      a.Some? && b.Some? && b.value == if Preferred(a.value, extra.status) then a.value else extra.status
  {
    var a, b := finals + [last], finals + [extra] + [last];
    BestFinalIn(a);
    BestFinalIn(b);
    assert a != [] && b != [];
    forall r ensures r in b <==> r in a || r == extra {
    }
    var f :| f in a && f.status == BestFinal(a).value;
    var g :| g in b && g.status == BestFinal(b).value;
    assert extra in b && f in b;
    PreferredIsTotal(BestFinal(a).value, BestFinal(b).value);
    PreferredIsTotal(BestFinal(b).value, extra.status);
    PreferredIsTotal(BestFinal(a).value, extra.status);
  }

  /** Two inputs in a row, after a run. */
  lemma {:induction false} TwoMore(pipe: Pipeline, before: seq<Input>, i: Input, j: Input)
    requires WellFormed(pipe, before) && IsBranchEvent(i) && IsBranchEvent(j)
    ensures var all := before + [i, j];
      var w := Run(pipe, before);
      && WellFormed(pipe, all) && Run(pipe, all) == Next(pipe, Next(pipe, w, i), j)
      && EffectsAt(pipe, all, |before|) == OnInput(pipe, w.ctx, i).fx
      && EffectsAt(pipe, all, |before| + 1) == OnInput(pipe, Next(pipe, w, i).ctx, j).fx
  {
    var all := before + [i, j];
    RunSnoc(pipe, before, i);
    RunSnoc(pipe, before + [i], j);
    assert all == before + [i] + [j];
    assert all[..|before|] == before && all[..|before| + 1] == before + [i];
  }

  /**
   * The same over whole runs: two well-formed runs of the same inputs, which differ only in the order of the
   * last two, answer alike exactly when the later final is not preferred to the best on record, or is a 500
   * against a 503.
   */
  lemma {:induction false} OrderMattersExactly(pipe: Pipeline, before: seq<Input>, i: Input, x: Input)
    requires Lawful(pipe) && WellFormed(pipe, before)
    requires var c := Run(pipe, before).ctx;
      && Selects(pipe, c, i) && HasLive(c.branches)
      && IsBranchEvent(x) && Classify(c, x).Final? && !IsLiveId(c.branches, Classify(c, x).branch)
    ensures var c := Run(pipe, before).ctx;
      var best := BestFinal(c.finals + [Classify(c, i).response]).value;
      var extra := Classify(c, x).response.status;
      && WellFormed(pipe, before + [i, x]) && WellFormed(pipe, before + [x, i])
      && (AnswerStatus(pipe, before + [i, x], |before|) == AnswerStatus(pipe, before + [x, i], |before| + 1)
          <==> Preferred(best, extra) || (best == 503 && extra == 500))
  {
    RunKeeps(pipe, before, |before|);
    assert before[..|before|] == before;
    LateFinalMatters(pipe, Run(pipe, before), i, x);
    TwoMore(pipe, before, i, x);
    TwoMore(pipe, before, x, i);
  }
}
