/** What happens to each branch: breadth, cancellation and what was heard, when branch ids are distinct. */
module ContextBranches {
  import opened Basics
  import opened Messages
  import opened Routing
  import opened Forwarding
  import opened ContextModel
  import opened ContextRuns
  import opened ContextFacts
  import opened ContextEvents
  import opened ContextInvariants
  import opened ContextTargets

  // ------------------------------------------------------------------ one branch under one event

  function After(e: Event, b: Branch): Branch {
    match e
    case Early(id, _) =>
      if b.id == id && b.state.Pending? then
        b.(state := if b.state.cancelQueued then Cancelling else Pending(true, false))
      else b
    case Final(id, r) => if b.id == id then b.(state := Concluded(r.status)) else b
    case Accepted(id, r) =>
      if b.id == id then b.(state := Concluded(r.status)) else if b.state.Pending? then b.(state := Cancelling) else b
    case Rejected(id, r) =>
      if b.id == id then b.(state := Concluded(r.status)) else if b.state.Pending? then b.(state := Cancelling) else b
    case Withdrawn => Withdraw(b)
    case Stuck(id) => if b.id == id then b.(state := Cancelling) else b
    case Ignored => b
  }

  lemma {:induction false} ReleasesFacts(bs: seq<Branch>, id: BranchId)
    requires Distinct(bs)
    ensures Releases(bs, id) <==> exists i :: 0 <= i < |bs| && bs[i].id == id && bs[i].state.Pending? && bs[i].state.cancelQueued
  {
    if bs != [] {
      var rest := bs[..|bs| - 1];
      ReleasesFacts(rest, id);
      var last := bs[|bs| - 1];
      assert forall i :: 0 <= i < |rest| ==> rest[i] == bs[i];
      if last.id == id && last.state.Pending? {
        assert forall i :: 0 <= i < |rest| ==> bs[i].id != id;
      }
    }
  }

  /** An end of the target set concludes one branch and cancels every other pending one. */
  lemma AfterEnd(bs: seq<Branch>, e: Event)
    requires Distinct(bs) && (e.Accepted? || e.Rejected?)
    ensures var concluded := ConcludeAll(bs, e.branch, e.response.status);
      && (forall i :: 0 <= i < |bs| ==> Swept(concluded)[i] == After(e, bs[i]))
      && (forall k :: k in PendingIds(concluded) <==> k != e.branch && IsPendingId(bs, k))
      && NoDup(PendingIds(concluded))
  {
    var concluded := ConcludeAll(bs, e.branch, e.response.status);
    assert Distinct(concluded);
    SweptFacts(concluded);
    PendingIdsFacts(concluded);
    forall k ensures IsPendingId(concluded, k) <==> k != e.branch && IsPendingId(bs, k) {
      if IsPendingId(bs, k) && k != e.branch {
        var i :| 0 <= i < |bs| && bs[i].id == k && bs[i].state.Pending?;
        assert concluded[i] == bs[i];
      }
      if IsPendingId(concluded, k) {
        var i :| 0 <= i < |concluded| && concluded[i].id == k && concluded[i].state.Pending?;
        assert concluded[i] == bs[i];
      }
    }
  }

  /** The event acts on each branch by itself; a final may add a group behind them. */
  lemma Pointwise(pipe: Pipeline, c: Context, e: Event)
    requires Lawful(pipe) && c.request.Some? && c.validated.Some? && Distinct(c.branches) && (c.answered ==> c.queued == [])
    requires e.Stuck? ==> SawProvisional(c.branches, e.branch) == Some(true)
    ensures var out := Handle(pipe, c, e);
      && |c.branches| <= |out.next.branches| && (!e.Final? ==> |out.next.branches| == |c.branches|)
      && forall i :: 0 <= i < |c.branches| ==> out.next.branches[i] == After(e, c.branches[i])
  {
    match e {
      case Early(id, response) =>
        EarlyFacts(pipe, c, id, response);
        PointwiseEarly(c.branches, e);
      case Final(id, response) =>
        FinalFacts(pipe, c, id, response);
        ForkShape(pipe, Recorded(c, id, response));
      case Accepted(id, response) =>
        AcceptFacts(pipe, c, id, response);
        AfterEnd(c.branches, e);
      case Rejected(id, response) =>
        RejectFacts(pipe, c, id, response);
        AfterEnd(c.branches, e);
      case Withdrawn => WithdrawnFacts(pipe, c);
      case Stuck(id) =>
      case Ignored =>
    }
  }

  lemma {:induction false} PointwiseEarly(bs: seq<Branch>, e: Event)
    requires Distinct(bs) && e.Early?
    ensures var marked := MarkProvisional(bs, e.branch);
      var after := if Releases(bs, e.branch) then SetCancelling(marked, e.branch) else marked;
      forall i :: 0 <= i < |bs| ==> after[i] == After(e, bs[i])
  {
    ReleasesFacts(bs, e.branch);
    var marked := MarkProvisional(bs, e.branch);
    forall i | 0 <= i < |bs|
      ensures (if Releases(bs, e.branch) then SetCancelling(marked, e.branch) else marked)[i] == After(e, bs[i])
    {
      if bs[i].id == e.branch && Releases(bs, e.branch) {
        var j :| 0 <= j < |bs| && bs[j].id == e.branch && bs[j].state.Pending? && bs[j].state.cancelQueued;
        assert i == j;
      }
    }
  }

  /** Which branches an event cancels: those it takes from pending to cancelling. */
  predicate CancelledBy(e: Event, bs: seq<Branch>, id: BranchId) {
    exists i :: 0 <= i < |bs| && bs[i].id == id && bs[i].state.Pending? && After(e, bs[i]).state.Cancelling?
  }

  lemma {:induction false} HeardIdsFacts(bs: seq<Branch>)
    ensures forall id :: id in HeardIds(PendingWithSaw(bs)) <==> CancelledBy(Withdrawn, bs, id)
    ensures Distinct(bs) ==> NoDup(HeardIds(PendingWithSaw(bs)))
  {
    if bs != [] {
      var rest := bs[1..];
      HeardIdsFacts(rest);
      var b := bs[0];
      var ids := HeardIds(PendingWithSaw(rest));
      var hit := b.state.Pending? && b.state.sawProvisional;
      HeardStep(bs);
      forall id ensures CancelledBy(Withdrawn, bs, id) <==> (hit && b.id == id) || CancelledBy(Withdrawn, rest, id) {
        if CancelledBy(Withdrawn, rest, id) {
          var i :| 0 <= i < |rest| && rest[i].id == id && rest[i].state.Pending? && After(Withdrawn, rest[i]).state.Cancelling?;
          assert bs[i + 1] == rest[i];
        }
        if CancelledBy(Withdrawn, bs, id) {
          var i :| 0 <= i < |bs| && bs[i].id == id && bs[i].state.Pending? && After(Withdrawn, bs[i]).state.Cancelling?;
          assert i > 0 ==> rest[i - 1] == bs[i];
        }
      }
      if Distinct(bs) {
        assert Distinct(rest);
        assert !CancelledBy(Withdrawn, rest, b.id);
      }
    }
  }

  lemma {:induction false} HeardStep(bs: seq<Branch>)
    requires bs != []
    ensures HeardIds(PendingWithSaw(bs)) ==
      (if bs[0].state.Pending? && bs[0].state.sawProvisional then [bs[0].id] else []) + HeardIds(PendingWithSaw(bs[1..]))
  {
    if bs[0].state.Pending? {
      assert PendingWithSaw(bs)[1..] == PendingWithSaw(bs[1..]);
    } else {
      assert PendingWithSaw(bs) == PendingWithSaw(bs[1..]);
    }
  }

  /** A CANCEL goes out exactly for the branches the event takes from pending to cancelling, once each. */
  lemma EventCancels(pipe: Pipeline, c: Context, e: Event)
    requires Lawful(pipe) && c.request.Some? && c.validated.Some? && Distinct(c.branches) && (c.answered ==> c.queued == [])
    requires e.Stuck? ==> SawProvisional(c.branches, e.branch) == Some(true)
    ensures var ids := CancelsIn(Handle(pipe, c, e).fx);
      NoDup(ids) && forall id :: id in ids <==> CancelledBy(e, c.branches, id)
  {
    match e {
      case Early(_, _) => EarlyCancels(pipe, c, e);
      case Final(_, _) => FinalCancels(pipe, c, e);
      case Accepted(branch, response) =>
        AcceptFacts(pipe, c, branch, response);
        EndedCancels(c.branches, e);
      case Rejected(branch, response) =>
        RejectFacts(pipe, c, branch, response);
        EndedCancels(c.branches, e);
      case Withdrawn =>
        WithdrawnFacts(pipe, c);
        HeardIdsFacts(c.branches);
      case Stuck(_) => StuckCancels(pipe, c, e);
      case Ignored =>
    }
  }

  lemma EarlyCancels(pipe: Pipeline, c: Context, e: Event)
    requires c.request.Some? && Distinct(c.branches) && e.Early?
    ensures var ids := CancelsIn(Handle(pipe, c, e).fx);
      NoDup(ids) && forall id :: id in ids <==> CancelledBy(e, c.branches, id)
  {
    EarlyFacts(pipe, c, e.branch, e.response);
    ReleasesFacts(c.branches, e.branch);
  }

  lemma FinalCancels(pipe: Pipeline, c: Context, e: Event)
    requires Lawful(pipe) && c.request.Some? && c.validated.Some? && (c.answered ==> c.queued == []) && e.Final?
    ensures CancelsIn(Handle(pipe, c, e).fx) == [] && forall id :: !CancelledBy(e, c.branches, id)
  {
    FinalFacts(pipe, c, e.branch, e.response);
    var mid := Recorded(c, e.branch, e.response);
    if !HasLive(mid.branches) && MayFork(mid) {
      ForkFacts(pipe, mid);
    }
    ClosingFx(c.answered, Selected(mid.finals, c.request.value));
  }

  lemma StuckCancels(pipe: Pipeline, c: Context, e: Event)
    requires c.request.Some? && e.Stuck? && SawProvisional(c.branches, e.branch) == Some(true)
    ensures CancelsIn(Handle(pipe, c, e).fx) == [e.branch] && forall id :: id == e.branch <==> CancelledBy(e, c.branches, id)
  {
    SawKnown(c.branches, e.branch);
    FirstEffect(CancelBranch(e.branch), []);
    assert [CancelBranch(e.branch)] + [] == [CancelBranch(e.branch)];
  }

  lemma EndedCancels(bs: seq<Branch>, e: Event)
    requires Distinct(bs) && (e.Accepted? || e.Rejected?)
    ensures var ids := PendingIds(ConcludeAll(bs, e.branch, e.response.status));
      NoDup(ids) && forall id :: id in ids <==> CancelledBy(e, bs, id)
  {
    AfterEnd(bs, e);
    EndCancels(bs, e);
  }

  lemma EndCancels(bs: seq<Branch>, e: Event)
    requires e.Accepted? || e.Rejected?
    ensures forall id :: CancelledBy(e, bs, id) <==> id != e.branch && IsPendingId(bs, id)
  {
    forall id | id != e.branch && IsPendingId(bs, id) ensures CancelledBy(e, bs, id) {
      var i :| 0 <= i < |bs| && bs[i].id == id && bs[i].state.Pending?;
      assert After(e, bs[i]).state.Cancelling?;
    }
  }

  // ------------------------------------------------------------------ cancels and provisionals

  /** No branch is cancelled twice, and a cancelled branch is pending no more. */
  ghost predicate CancelInv(w: World) {
    NoDup(w.cancels) && forall id :: id in w.cancels ==> Knows(w.ctx.branches, id) && !IsPendingId(w.ctx.branches, id)
  }

  /** A pending branch marked as having produced a provisional did produce one. */
  ghost predicate HeardInv(w: World) {
    forall i :: 0 <= i < |w.ctx.branches| && w.ctx.branches[i].state.Pending? && w.ctx.branches[i].state.sawProvisional ==>
      w.ctx.branches[i].id in w.heard
  }

  /** Where a step leaves the branches: each old one moved by the event, then a fresh group or nothing. */
  ghost predicate Extends(e: Event, a: seq<Branch>, b: seq<Branch>) {
    && |a| <= |b|
    && (forall i :: 0 <= i < |a| ==> b[i] == After(e, a[i]))
    && (forall i :: |a| <= i < |b| ==> b[i].state == Pending(false, false))
  }

  lemma EventExtends(pipe: Pipeline, c: Context, e: Event)
    requires Lawful(pipe) && c.request.Some? && c.validated.Some? && Distinct(c.branches) && (c.answered ==> c.queued == [])
    requires e.Stuck? ==> SawProvisional(c.branches, e.branch) == Some(true)
    ensures Extends(e, c.branches, Handle(pipe, c, e).next.branches)
  {
    Pointwise(pipe, c, e);
    if e.Final? {
      FinalFacts(pipe, c, e.branch, e.response);
      var mid := Recorded(c, e.branch, e.response);
      if !HasLive(mid.branches) && MayFork(mid) {
        ForkFacts(pipe, mid);
        var after := ForkNextGroup(pipe, mid).next.branches;
        assert forall i :: |c.branches| <= i < |after| ==> after[i] == after[|c.branches|..][i - |c.branches|];
      }
    }
  }

  lemma StaysCancelled(e: Event, a: seq<Branch>, b: seq<Branch>, id: BranchId)
    requires Extends(e, a, b) && Distinct(b) && Knows(a, id) && !IsPendingId(a, id)
    ensures Knows(b, id) && !IsPendingId(b, id)
  {
    var i :| 0 <= i < |a| && a[i].id == id;
    assert !a[i].state.Pending?;
    assert b[i].id == id && !b[i].state.Pending?;
  }

  lemma BecomesCancelled(e: Event, a: seq<Branch>, b: seq<Branch>, id: BranchId)
    requires Extends(e, a, b) && Distinct(b) && CancelledBy(e, a, id)
    ensures Knows(b, id) && !IsPendingId(b, id)
  {
    var i :| 0 <= i < |a| && a[i].id == id && a[i].state.Pending? && After(e, a[i]).state.Cancelling?;
    assert b[i].id == id && !b[i].state.Pending?;
  }

  lemma CancelsExtend(e: Event, a: seq<Branch>, b: seq<Branch>, before: seq<BranchId>, ids: seq<BranchId>)
    requires Extends(e, a, b) && Distinct(b)
    requires NoDup(before) && forall id :: id in before ==> Knows(a, id) && !IsPendingId(a, id)
    requires NoDup(ids) && forall id :: id in ids <==> CancelledBy(e, a, id)
    ensures NoDup(before + ids) && forall id :: id in before + ids ==> Knows(b, id) && !IsPendingId(b, id)
  {
    forall id | id in before + ids
      ensures Knows(b, id) && !IsPendingId(b, id)
    {
      if id in before {
        StaysCancelled(e, a, b, id);
      } else {
        BecomesCancelled(e, a, b, id);
      }
    }
    forall i, j | 0 <= i < j < |before + ids|
      ensures (before + ids)[i] != (before + ids)[j]
    {
      if i < |before| <= j {
        assert before[i] in before && ids[j - |before|] in ids;
        assert CancelledBy(e, a, ids[j - |before|]);
      }
    }
  }

  lemma DistinctBefore(e: Event, a: seq<Branch>, b: seq<Branch>)
    requires |a| <= |b| && Distinct(b) && forall i :: 0 <= i < |a| ==> a[i].id == b[i].id
    ensures Distinct(a)
  {
  }

  // ------------------------------------------------------------------ breadth

  /** The branches from `base` on are the last group: one `q`, one share, and only they can be live. */
  ghost predicate GroupAt(c: Context, copies: seq<Effect>, base: nat, width: nat) {
    && c.validated.Some? && |copies| == |c.branches| && base <= |c.branches| <= base + width
    && 1 <= width <= Max(c.validated.value.maxBreadth, 1)
    && (forall i :: 0 <= i < base ==> !IsLive(c.branches[i].state))
    && (forall i, j :: base <= i < j < |c.branches| ==> c.branches[i].target.q == c.branches[j].target.q)
    && (forall i :: base <= i < |c.branches| ==>
          copies[i].SendCopy? && copies[i].request.maxBreadth == Some(BreadthShare(c.validated.value.maxBreadth, width)))
  }

  ghost predicate GroupInv(w: World) {
    w.ctx.branches != [] ==> exists base, width :: GroupAt(w.ctx, w.copies, base, width)
  }

  lemma ForkGroups(pipe: Pipeline, c: Context, copies: seq<Effect>)
    requires Lawful(pipe) && c.request.Some? && c.validated.Some? && c.queued != [] && !HasLive(c.branches) && SameOrder(c.branches, copies)
    ensures var out := ForkNextGroup(pipe, c);
      GroupAt(out.next, copies + CopiesIn(out.fx), |c.branches|, GroupSize(c.queued, c.validated.value.maxBreadth))
  {
    ForkShape(pipe, c);
    ForkFacts(pipe, c);
    var out := ForkNextGroup(pipe, c);
    var n := GroupSize(c.queued, c.validated.value.maxBreadth);
    var bs := out.next.branches[|c.branches|..];
    FreshTargets(StampOf(c), c.queued, n, bs);
    assert forall i :: |c.branches| <= i < |out.next.branches| ==> out.next.branches[i] == bs[i - |c.branches|];
  }

  /** A fresh group is no wider than the targets taken, and has their one `q`. */
  lemma {:induction false} FreshTargets(stamp: Stamp, queued: seq<Target>, n: nat, bs: seq<Branch>)
    requires n <= |queued| && queued != [] && (forall i :: 0 <= i < n ==> queued[i].q == queued[0].q)
    requires TargetsOf(bs) == Keep(stamp, queued[..n])
    ensures |bs| <= n && forall i :: 0 <= i < |bs| ==> bs[i].target.q == queued[0].q
  {
    KeepFrom(stamp, queued[..n]);
    assert |bs| == |TargetsOf(bs)|;
    forall i | 0 <= i < |bs| ensures bs[i].target.q == queued[0].q {
      assert TargetsOf(bs)[i] in queued[..n];
    }
  }

  lemma {:induction false} KeepFrom(stamp: Stamp, ts: seq<Target>)
    ensures |Keep(stamp, ts)| <= |ts| && forall t :: t in Keep(stamp, ts) ==> t in ts && Builds(stamp, t)
  {
    if ts != [] {
      KeepFrom(stamp, ts[1..]);
    }
  }

  lemma GroupStays(a: Context, b: Context, copies: seq<Effect>, e: Event, base: nat, width: nat)
    requires GroupAt(a, copies, base, width) && b.validated == a.validated && |b.branches| == |a.branches|
    requires forall i :: 0 <= i < |a.branches| ==> b.branches[i] == After(e, a.branches[i])
    requires e.Stuck? ==> forall i :: 0 <= i < |a.branches| && a.branches[i].id == e.branch ==> a.branches[i].state.Pending?
    ensures GroupAt(b, copies, base, width)
  {
  }

  // ------------------------------------------------------------------ the step

  ghost predicate BranchInv(w: World) { CancelInv(w) && HeardInv(w) && GroupInv(w) }

  lemma BranchStep(pipe: Pipeline, w: World, i: Input)
    requires Lawful(pipe) && PhaseInv(w) && EndInv(w) && ConserveInv(w) && BranchInv(w) && Admissible(w, i)
    requires Distinct(Next(pipe, w, i).ctx.branches)
    ensures BranchInv(Next(pipe, w, i))
  {
    var c := w.ctx;
    var next := Next(pipe, w, i);
    if c.finished || (IsBranchEvent(i) && c.request.None?) {
      NoCopies(OnInput(pipe, c, i).fx);
      NoCancels(OnInput(pipe, c, i).fx);
      assert next.cancels == w.cancels && next.copies == w.copies;
    } else if IsBranchEvent(i) {
      HandlesEvent(pipe, c, i);
      BranchEventStep(pipe, w, i, Classify(c, i));
    } else if w.resolved.None? {
      DeliveryBranches(pipe, w, i);
    } else {
      assert OnInput(pipe, c, i) == Out(c, []);
      assert next.cancels == w.cancels && next.copies == w.copies;
    }
  }

  lemma {:induction false} NoCancels(fx: seq<Effect>)
    requires forall k :: 0 <= k < |fx| ==> !fx[k].CancelBranch?
    ensures CancelsIn(fx) == []
  {
    if fx != [] {
      NoCancels(fx[1..]);
    }
  }

  /** A provisional is the only way to the mark. */
  lemma HeardExtends(e: Event, a: seq<Branch>, b: seq<Branch>, before: set<BranchId>, heard: set<BranchId>)
    requires Extends(e, a, b) && before <= heard && (e.Early? ==> e.branch in heard)
    requires forall i :: 0 <= i < |a| && a[i].state.Pending? && a[i].state.sawProvisional ==> a[i].id in before
    ensures forall i :: 0 <= i < |b| && b[i].state.Pending? && b[i].state.sawProvisional ==> b[i].id in heard
  {
  }

  lemma BranchEventStep(pipe: Pipeline, w: World, i: Input, e: Event)
    requires Lawful(pipe) && PhaseInv(w) && EndInv(w) && ConserveInv(w) && BranchInv(w)
    requires w.ctx.request.Some? && !w.ctx.finished && IsBranchEvent(i) && e == Classify(w.ctx, i)
    requires OnInput(pipe, w.ctx, i) == Handle(pipe, w.ctx, e) && Distinct(Next(pipe, w, i).ctx.branches)
    ensures BranchInv(Next(pipe, w, i))
  {
    var c := w.ctx;
    var next := Next(pipe, w, i);
    ClassifiedFinal(c, i);
    EventPlaces(pipe, c, e);
    DistinctBefore(e, c.branches, next.ctx.branches);
    EventExtends(pipe, c, e);
    EventCancels(pipe, c, e);
    CancelsExtend(e, c.branches, next.ctx.branches, w.cancels, CancelsIn(OnInput(pipe, c, i).fx));
    HeardExtends(e, c.branches, next.ctx.branches, w.heard, next.heard);
    EventGroup(pipe, w, e);
    assert CancelInv(next);
    assert HeardInv(next);
  }

  lemma EventPlaces(pipe: Pipeline, c: Context, e: Event)
    requires Lawful(pipe) && c.request.Some? && c.validated.Some? && (c.answered ==> c.queued == [])
    ensures var after := Handle(pipe, c, e).next.branches;
      |c.branches| <= |after| && forall i :: 0 <= i < |c.branches| ==> c.branches[i].id == after[i].id
  {
    if e.Final? {
      FinalFacts(pipe, c, e.branch, e.response);
      ForkShape(pipe, Recorded(c, e.branch, e.response));
    } else {
      QuietEvent(pipe, c, e);
    }
  }

  lemma EventGroup(pipe: Pipeline, w: World, e: Event)
    requires Lawful(pipe) && PhaseInv(w) && EndInv(w) && ConserveInv(w) && GroupInv(w)
    requires w.ctx.request.Some? && Distinct(w.ctx.branches)
    requires e.Stuck? ==> SawProvisional(w.ctx.branches, e.branch) == Some(true)
    ensures var out := Handle(pipe, w.ctx, e);
      out.next.branches != [] ==> exists base, width :: GroupAt(out.next, w.copies + CopiesIn(out.fx), base, width)
  {
    var c := w.ctx;
    if e.Final? && ForksNext(c, e) {
      var mid := Recorded(c, e.branch, e.response);
      FinalFacts(pipe, c, e.branch, e.response);
      SamePlacesSame(c.branches, mid.branches, w.copies);
      ForkGroups(pipe, mid, w.copies);
    } else {
      NoForkCopies(pipe, c, e);
      assert w.copies + [] == w.copies;
      SameGroup(pipe, w, e);
    }
  }

  lemma SameGroup(pipe: Pipeline, w: World, e: Event)
    requires Lawful(pipe) && PhaseInv(w) && EndInv(w) && GroupInv(w) && w.ctx.request.Some? && Distinct(w.ctx.branches)
    requires e.Stuck? ==> SawProvisional(w.ctx.branches, e.branch) == Some(true)
    requires !(e.Final? && ForksNext(w.ctx, e))
    ensures var next := Handle(pipe, w.ctx, e).next;
      next.branches != [] ==> exists base, width :: GroupAt(next, w.copies, base, width)
  {
    var c := w.ctx;
    NoForkCopies(pipe, c, e);
    Pointwise(pipe, c, e);
    if c.branches != [] {
      var base, width :| GroupAt(c, w.copies, base, width);
      if e.Stuck? { SawKnown(c.branches, e.branch); }
      GroupStays(c, Handle(pipe, c, e).next, w.copies, e, base, width);
    }
  }

  /** Whether a final launches the next group. */
  predicate ForksNext(c: Context, e: Event)
    requires e.Final?
  {
    var mid := Recorded(c, e.branch, e.response);
    !HasLive(mid.branches) && MayFork(mid)
  }

  lemma NoForkCopies(pipe: Pipeline, c: Context, e: Event)
    requires c.request.Some? && (c.answered ==> c.queued == []) && !(e.Final? && ForksNext(c, e))
    ensures var out := Handle(pipe, c, e);
      CopiesIn(out.fx) == [] && |out.next.branches| == |c.branches| && out.next.validated == c.validated
  {
    if e.Final? {
      FinalFacts(pipe, c, e.branch, e.response);
      ClosingFx(c.answered, Selected(Recorded(c, e.branch, e.response).finals, c.request.value));
    } else {
      QuietEvent(pipe, c, e);
    }
  }

  /** From nothing, a fork cancels nothing and forms the first group. */
  lemma FirstGroup(pipe: Pipeline, c: Context)
    requires Lawful(pipe) && c.request.Some? && c.validated.Some? && c.queued != [] && c.branches == []
    ensures var out := ForkNextGroup(pipe, c);
      && CancelsIn(out.fx) == []
      && (exists base, width :: GroupAt(out.next, [] + CopiesIn(out.fx), base, width))
      && forall i :: 0 <= i < |out.next.branches| ==> out.next.branches[i].state == Pending(false, false)
  {
    ForkFacts(pipe, c);
    ForkGroups(pipe, c, []);
    var after := ForkNextGroup(pipe, c).next.branches;
    assert after[|c.branches|..] == after;
  }

  ghost predicate NothingYet(w: World) { w.cancels == [] && w.copies == [] && w.ctx.branches == [] }

  /** A step that leaves the branches empty, or forks the first group, establishes the invariant. */
  lemma {:induction false} FromNothing(w: World, next: World, fx: seq<Effect>)
    requires NothingYet(w) && next.cancels == w.cancels + CancelsIn(fx) && next.copies == w.copies + CopiesIn(fx)
    requires CancelsIn(fx) == [] && (forall i :: 0 <= i < |next.ctx.branches| ==> next.ctx.branches[i].state == Pending(false, false))
    requires next.ctx.branches != [] ==> exists base, width :: GroupAt(next.ctx, [] + CopiesIn(fx), base, width)
    ensures BranchInv(next)
  {
    assert next.cancels == [];
  }

  lemma DeliveryBranches(pipe: Pipeline, w: World, i: Input)
    requires Lawful(pipe) && PhaseInv(w) && EndInv(w) && ConserveInv(w) && BranchInv(w) && Admissible(w, i)
    requires !w.ctx.finished && !IsBranchEvent(i) && w.resolved.None?
    ensures BranchInv(Next(pipe, w, i))
  {
    var c := w.ctx;
    var next := Next(pipe, w, i);
    var fx := OnInput(pipe, c, i).fx;
    assert w.cancels == [] || Knows(c.branches, w.cancels[0]);
    if i.TargetsResolved? && i.targets != [] {
      SortIsStable(i.targets);
      assert |multiset(i.targets)| == |i.targets| && |multiset(SortByQ(i.targets))| == |SortByQ(i.targets)|;
      FirstGroup(pipe, c.(queued := SortByQ(i.targets)));
    } else if i.Upstream? && pipe.validate(i.arrival).Ok? && pipe.preprocess(i.arrival).1.None? {
      RoutedGroup(pipe, c.(request := Some(pipe.preprocess(i.arrival).0), validated := Some(pipe.validate(i.arrival).value)));
    } else if i.TokenFact? && c.awaitingVerdict && i.verdict.Valid? {
      RoutedGroup(pipe, c.(awaitingVerdict := false));
    } else {
      NoCancels(fx);
    }
    FromNothing(w, next, fx);
  }

  lemma RoutedGroup(pipe: Pipeline, c: Context)
    requires Lawful(pipe) && c.request.Some? && c.validated.Some? && c.branches == []
    ensures var out := RouteIt(pipe, c);
      && CancelsIn(out.fx) == []
      && (forall i :: 0 <= i < |out.next.branches| ==> out.next.branches[i].state == Pending(false, false))
      && (out.next.branches != [] ==> exists base, width :: GroupAt(out.next, [] + CopiesIn(out.fx), base, width))
  {
    var sole := PredeterminedTarget(c.request.value);
    if !IsInDialog(c.request.value) && !RouteSetSurvived(c.request.value) {
      NoCancels([ResolveTargets(c.request.value.uri)]);
    } else {
      SoleSort(sole);
      FirstGroup(pipe, c.(queued := [sole]));
    }
  }
}
