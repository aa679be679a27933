/**
 * When to probe what: targets fall due at an interval smeared by jitter, the earliest goes first, and a
 * sliding window bounds how many runs may start. Times are durations since the start; a call's jitter is its draw.
 */
module Scheduling {
  import opened Basics

  type Target = string

  datatype Slot = Slot(target: Target, due: nat)

  datatype Cadence = Cadence(interval: nat, jitter: nat)

  /** At most `runs` starts within any `per`. */
  datatype RateBound = RateBound(runs: u32, per: nat)

  datatype State = State(slots: seq<Slot>, recent: seq<nat>, deferred: nat)

  /** The first runs are spread across one interval. */
  function Opening(targets: seq<Target>, cadence: Cadence): State {
    var count := if 1 <= |targets| <= U32_MAX then |targets| else 1;
    var stride := cadence.interval / count;
    State(seq(|targets|, i requires 0 <= i < |targets| => Slot(targets[i], FirstDue(stride, i))), [], 0)
  }

  function FirstDue(stride: nat, index: nat): nat { stride * if index <= U32_MAX then index else 0 }

  /** The earliest due slot, the first of equals. */
  function EarliestDue(slots: seq<Slot>, now: nat): (r: Option<nat>)
    ensures r.None? ==> forall k :: 0 <= k < |slots| ==> slots[k].due > now
    ensures r.Some? ==> r.value < |slots| && slots[r.value].due <= now
    ensures r.Some? ==> forall k :: 0 <= k < |slots| && slots[k].due <= now ==>
      slots[r.value].due < slots[k].due || (slots[r.value].due == slots[k].due && r.value <= k)
  {
    if slots == [] then None
    else
      var n := |slots| - 1;
      var best := EarliestDue(slots[..n], now);
      if slots[n].due <= now && (best.None? || slots[n].due < slots[best.value].due) then Some(n) else best
  }

  /** The starts a window ending at `now` still holds. */
  function Within(starts: seq<nat>, per: nat, now: nat): seq<nat> {
    if starts == [] then []
    else
      var rest := Within(starts[..|starts| - 1], per, now);
      if starts[|starts| - 1] + per > now then rest + [starts[|starts| - 1]] else rest
  }

  /** Take the target due at or before `now`, if the rate bound allows one. */
  function TakeDue(s: State, cadence: Cadence, bound: RateBound, now: nat, draw: nat): (State, Option<nat>) {
    var trimmed := s.(recent := Within(s.recent, bound.per, now));
    var chosen := EarliestDue(s.slots, now);
    if chosen.None? then (trimmed, None)
    else if |trimmed.recent| >= bound.runs then (trimmed.(deferred := s.deferred + 1), None)
    else
      (trimmed.(slots := s.slots[chosen.value := s.slots[chosen.value].(due := now + cadence.interval + draw)],
                recent := trimmed.recent + [now]), chosen)
  }

  // ------------------------------------------------------------------ the object

  class Scheduler {
    var slots: seq<Slot>
    const cadence: Cadence
    const bound: RateBound
    var recentStarts: seq<nat>
    var deferred: nat

    function View(): State
      reads this
    {
      State(slots, recentStarts, deferred)
    }

    constructor (targets: seq<Target>, cadence: Cadence, bound: RateBound)
      ensures this.cadence == cadence && this.bound == bound && View() == Opening(targets, cadence)
    {
      this.cadence, this.bound := cadence, bound;
      slots, recentStarts, deferred := Opening(targets, cadence).slots, [], 0;
    }

    method Trim(now: nat)
      modifies this`recentStarts
      ensures recentStarts == Within(old(recentStarts), bound.per, now)
    {
      var kept := [];
      for i := 0 to |recentStarts|
        invariant kept == Within(recentStarts[..i], bound.per, now)
      {
        assert recentStarts[..i + 1][..i] == recentStarts[..i];
        if recentStarts[i] + bound.per > now {
          kept := kept + [recentStarts[i]];
        }
      }
      assert recentStarts[..|recentStarts|] == recentStarts;
      recentStarts := kept;
    }

    method Take(now: nat, draw: nat) returns (target: Option<Target>)
      modifies this
      ensures View() == TakeDue(old(View()), cadence, bound, now, draw).0
      ensures target == match TakeDue(old(View()), cadence, bound, now, draw).1
                        case None => None
                        case Some(index) => if index < |old(slots)| then Some(old(slots)[index].target) else None
    {
      Trim(now);
      var index := EarliestDue(slots, now);
      if index.None? {
        return None;
      }
      if |recentStarts| >= bound.runs {
        deferred := deferred + 1;
        return None;
      }
      target := Some(slots[index.value].target);
      slots := slots[index.value := slots[index.value].(due := now + cadence.interval + draw)];
      recentStarts := recentStarts + [now];
    }
  }

  // ------------------------------------------------------------------ runs

  datatype Call = Call(now: nat, draw: nat)
  datatype Started = Started(at: nat, slot: nat)
  datatype History = History(state: State, starts: seq<Started>)

  function Begun(targets: seq<Target>, cadence: Cadence): History { History(Opening(targets, cadence), []) }

  function Next(h: History, cadence: Cadence, bound: RateBound, call: Call): History {
    var (state, chosen) := TakeDue(h.state, cadence, bound, call.now, call.draw);
    History(state, h.starts + if chosen.Some? then [Started(call.now, chosen.value)] else [])
  }

  function Run(h: History, cadence: Cadence, bound: RateBound, calls: seq<Call>): History
    decreases |calls|
  {
    if calls == [] then h else Next(Run(h, cadence, bound, calls[..|calls| - 1]), cadence, bound, calls[|calls| - 1])
  }

  predicate Nondecreasing(calls: seq<Call>) {
    forall i, j :: 0 <= i < j < |calls| ==> calls[i].now <= calls[j].now
  }

  function Times(starts: seq<Started>): seq<nat> {
    seq(|starts|, i requires 0 <= i < |starts| => starts[i].at)
  }

  /** How many starts fall in the half-open window that begins at `from`. */
  function InWindow(times: seq<nat>, from: nat, per: nat): nat {
    if times == [] then 0
    else InWindow(times[..|times| - 1], from, per) + if from <= times[|times| - 1] < from + per then 1 else 0
  }

  ghost predicate Bounded(times: seq<nat>, bound: RateBound) {
    forall from :: InWindow(times, from, bound.per) <= bound.runs
  }

  /** Starts of one slot are at least an interval apart, and the slot waits as long again. */
  ghost predicate Spaced(starts: seq<Started>, slots: seq<Slot>, interval: nat) {
    && (forall k :: 0 <= k < |starts| ==> starts[k].slot < |slots| && starts[k].at + interval <= slots[starts[k].slot].due)
    && (forall j, k :: 0 <= j < k < |starts| && starts[j].slot == starts[k].slot ==> starts[j].at + interval <= starts[k].at)
  }

  ghost predicate Keeps(h: History, targets: seq<Target>, cadence: Cadence, bound: RateBound, now: nat) {
    && |h.state.slots| == |targets| && (forall i :: 0 <= i < |targets| ==> h.state.slots[i].target == targets[i])
    && (forall t :: t >= now ==> Within(h.state.recent, bound.per, t) == Within(Times(h.starts), bound.per, t))
    && Bounded(Times(h.starts), bound) && Spaced(h.starts, h.state.slots, cadence.interval)
  }

  lemma {:induction false} WithinWithin(starts: seq<nat>, per: nat, earlier: nat, now: nat)
    requires earlier <= now
    ensures Within(Within(starts, per, earlier), per, now) == Within(starts, per, now)
  {
    if starts != [] {
      var rest := starts[..|starts| - 1];
      WithinWithin(rest, per, earlier, now);
      if starts[|starts| - 1] + per > earlier {
        var kept := Within(rest, per, earlier);
        assert (kept + [starts[|starts| - 1]])[..|kept|] == kept;
      }
    }
  }

  lemma {:induction false} WindowIsWithin(starts: seq<nat>, from: nat, per: nat, now: nat)
    requires now < from + per
    ensures InWindow(starts, from, per) <= |Within(starts, per, now)|
  {
    if starts != [] {
      WindowIsWithin(starts[..|starts| - 1], from, per, now);
    }
  }

  lemma {:induction false} BoundKept(times: seq<nat>, bound: RateBound, now: nat)
    requires Bounded(times, bound) && |Within(times, bound.per, now)| < bound.runs
    ensures Bounded(times + [now], bound)
  {
    assert (times + [now])[..|times|] == times;
    forall from: nat ensures InWindow(times + [now], from, bound.per) <= bound.runs {
      assert InWindow(times + [now], from, bound.per)
        == InWindow(times, from, bound.per) + if from <= now < from + bound.per then 1 else 0;
      if now < from + bound.per {
        WindowIsWithin(times, from, bound.per, now);
      }
    }
  }

  /** Trimming forgets only what no later window holds. */
  lemma TrimKept(recent: seq<nat>, times: seq<nat>, per: nat, last: nat, now: nat)
    requires last <= now && forall t :: t >= last ==> Within(recent, per, t) == Within(times, per, t)
    ensures forall t :: t >= now ==> Within(Within(recent, per, now), per, t) == Within(times, per, t)
  {
    forall t | t >= now ensures Within(Within(recent, per, now), per, t) == Within(times, per, t) {
      WithinWithin(recent, per, now, t);
    }
  }

  lemma StartRecorded(recent: seq<nat>, times: seq<nat>, per: nat, now: nat)
    requires forall t :: t >= now ==> Within(recent, per, t) == Within(times, per, t)
    ensures forall t :: t >= now ==> Within(recent + [now], per, t) == Within(times + [now], per, t)
  {
    assert (recent + [now])[..|recent|] == recent && (times + [now])[..|times|] == times;
  }

  lemma KeepStep(h: History, targets: seq<Target>, cadence: Cadence, bound: RateBound, last: nat, call: Call)
    requires Keeps(h, targets, cadence, bound, last) && last <= call.now
    ensures Keeps(Next(h, cadence, bound, call), targets, cadence, bound, call.now)
  {
    var trimmed := Within(h.state.recent, bound.per, call.now);
    TrimKept(h.state.recent, Times(h.starts), bound.per, last, call.now);
    if TakeDue(h.state, cadence, bound, call.now, call.draw).1.Some? {
      StartRecorded(trimmed, Times(h.starts), bound.per, call.now);
      BoundKept(Times(h.starts), bound, call.now);
      assert Times(Next(h, cadence, bound, call).starts) == Times(h.starts) + [call.now];
    } else {
      assert h.starts + [] == h.starts;
    }
  }

  lemma OpeningKeeps(targets: seq<Target>, cadence: Cadence, bound: RateBound)
    ensures Keeps(Begun(targets, cadence), targets, cadence, bound, 0)
  {
  }

  lemma {:induction false} RunKeeps(targets: seq<Target>, cadence: Cadence, bound: RateBound, calls: seq<Call>)
    requires Nondecreasing(calls)
    ensures Keeps(Run(Begun(targets, cadence), cadence, bound, calls), targets, cadence, bound,
                  if calls == [] then 0 else calls[|calls| - 1].now)
    decreases |calls|
  {
    if calls == [] {
      OpeningKeeps(targets, cadence, bound);
    } else {
      var before := calls[..|calls| - 1];
      RunKeeps(targets, cadence, bound, before);
      KeepStep(Run(Begun(targets, cadence), cadence, bound, before), targets, cadence, bound,
               if before == [] then 0 else before[|before| - 1].now, calls[|calls| - 1]);
    }
  }

  // ------------------------------------------------------------------ guarantees

  /** However calls are timed and jitter falls, no half-open window of the bound's length holds more starts than it allows. */
  lemma {:induction false} WindowBound(targets: seq<Target>, cadence: Cadence, bound: RateBound, calls: seq<Call>, from: nat)
    requires Nondecreasing(calls)
    ensures InWindow(Times(Run(Begun(targets, cadence), cadence, bound, calls).starts), from, bound.per) <= bound.runs
  {
    RunKeeps(targets, cadence, bound, calls);
  }

  /** No target is ever dropped, and two starts of one are at least an interval apart. */
  lemma {:induction false} NoneDroppedAllSpaced(targets: seq<Target>, cadence: Cadence, bound: RateBound, calls: seq<Call>)
    requires Nondecreasing(calls)
    ensures var h := Run(Begun(targets, cadence), cadence, bound, calls);
      && |h.state.slots| == |targets| && (forall i :: 0 <= i < |targets| ==> h.state.slots[i].target == targets[i])
      && forall j, k :: 0 <= j < k < |h.starts| && h.starts[j].slot == h.starts[k].slot ==>
           h.starts[j].at + cadence.interval <= h.starts[k].at
  {
    RunKeeps(targets, cadence, bound, calls);
  }

  /** Slot `i` is due before slot `j`. */
  predicate Ahead(slots: seq<Slot>, i: nat, j: nat) { i < |slots| && j < |slots| && slots[i].due < slots[j].due }

  /** While `i` is ahead of `j` and does not start, `j` does not start either and `i` stays ahead. */
  lemma AheadStays(h: History, cadence: Cadence, bound: RateBound, call: Call, i: nat, j: nat)
    requires Ahead(h.state.slots, i, j)
    ensures var chosen := TakeDue(h.state, cadence, bound, call.now, call.draw).1;
      chosen != Some(j) && (chosen != Some(i) ==> Ahead(Next(h, cadence, bound, call).state.slots, i, j))
  {
  }

  predicate StartsIn(starts: seq<Started>, from: nat, slot: nat) {
    exists k :: from <= k < |starts| && starts[k].slot == slot
  }

  /** From here on, every start of `j` comes after a start of `i`. */
  ghost predicate Precedes(starts: seq<Started>, from: nat, i: nat, j: nat) {
    forall m :: from <= m < |starts| && starts[m].slot == j ==> exists k :: from <= k < m && starts[k].slot == i
  }

  lemma {:induction false} FirstGoesFirst(h: History, cadence: Cadence, bound: RateBound, calls: seq<Call>, i: nat, j: nat)
    requires Ahead(h.state.slots, i, j)
    ensures var later := Run(h, cadence, bound, calls);
      && h.starts <= later.starts && Precedes(later.starts, |h.starts|, i, j)
      && (StartsIn(later.starts, |h.starts|, i) || Ahead(later.state.slots, i, j))
    decreases |calls|
  {
    if calls != [] {
      var before := calls[..|calls| - 1];
      FirstGoesFirst(h, cadence, bound, before, i, j);
      OneMore(Run(h, cadence, bound, before), cadence, bound, calls[|calls| - 1], |h.starts|, i, j);
    }
  }

  lemma OneMore(mid: History, cadence: Cadence, bound: RateBound, call: Call, from: nat, i: nat, j: nat)
    requires from <= |mid.starts| && Precedes(mid.starts, from, i, j) && (StartsIn(mid.starts, from, i) || Ahead(mid.state.slots, i, j))
    ensures var later := Next(mid, cadence, bound, call);
      Precedes(later.starts, from, i, j) && (StartsIn(later.starts, from, i) || Ahead(later.state.slots, i, j))
  {
    var later := Next(mid, cadence, bound, call);
    assert forall m :: from <= m < |mid.starts| ==> later.starts[m] == mid.starts[m];
    if StartsIn(mid.starts, from, i) {
      var k :| from <= k < |mid.starts| && mid.starts[k].slot == i;
      assert later.starts[k].slot == i;
    } else {
      AheadStays(mid, cadence, bound, call, i, j);
      if TakeDue(mid.state, cadence, bound, call.now, call.draw).1 == Some(i) {
        assert later.starts[|mid.starts|].slot == i;
      }
    }
  }

  /**
   * Fairness: with a positive interval, a target that is overdue when another starts runs before that other
   * runs again, whatever calls come in between.
   */
  lemma {:induction false} OverdueGoesNext(h: History, cadence: Cadence, bound: RateBound, call: Call, calls: seq<Call>, i: nat, j: nat)
    requires cadence.interval > 0 && i != j && i < |h.state.slots| && h.state.slots[i].due <= call.now
    requires TakeDue(h.state, cadence, bound, call.now, call.draw).1 == Some(j)
    ensures var first := Next(h, cadence, bound, call);
      Precedes(Run(first, cadence, bound, calls).starts, |first.starts|, i, j)
  {
    FirstGoesFirst(Next(h, cadence, bound, call), cadence, bound, calls, i, j);
  }
}
