/**
 * The location store's compare-and-swap over a shared table. A commit is a small program of atomic statements,
 * INSERT, UPDATE and a re-read, and the statements of any number of nodes interleave; any may fail, before or
 * after it took effect.
 */
module LocationStore {
  import opened Basics

  datatype Key = Key(tenant: string, aor: string)
  type Bindings = string

  /** A `bigint` column holds what fits in 64 signed bits; a larger revision is written as the largest. */
  const I64_MAX: int := 0x7FFF_FFFF_FFFF_FFFF

  /** A revision whose successor still fits in 64 unsigned bits. */
  type Revision = r: nat | r < 0xFFFF_FFFF_FFFF_FFFF

  function Clamp64(n: nat): (r: nat)
    ensures r == if n <= I64_MAX then n else I64_MAX
  {
    Min(n, I64_MAX)
  }

  datatype Row = Row(revision: nat, bindings: Bindings)
  type Table = map<Key, Row>

  datatype Outcome = Committed(revision: nat) | Conflict(expected: nat, current: nat)

  /** Where a commit stands. */
  datatype Counter = Inserting | Updating | Rereading | Done(outcome: Outcome)

  datatype Attempt = Attempt(key: Key, expected: Revision, payload: Bindings, at: Counter)

  /** A commit before its first statement: only one that believes the row absent inserts. */
  function Commit(key: Key, expected: Revision, payload: Bindings): Attempt {
    Attempt(key, expected, payload, if expected == 0 then Inserting else Updating)
  }

  datatype Fault = Clean | Lost | Unheard   // a statement that works, never takes effect, or takes effect unreported

  function Current(table: Table, key: Key): nat {
    if key in table then table[key].revision else 0
  }

  predicate Lands(table: Table, a: Attempt) {
    match a.at
    case Inserting => a.key !in table
    case Updating => a.key in table && table[a.key].revision == Clamp64(a.expected)
    case _ => false
  }

  function Written(a: Attempt): Row { Row(Clamp64(a.expected + 1), a.payload) }

  /** A failed write is reported as a conflict against the revision held. */
  function Failed(a: Attempt): Attempt { a.(at := Done(Conflict(a.expected, a.expected))) }

  /** One atomic statement of one commit: the table after it, and the commit after it. */
  function Statement(table: Table, a: Attempt, fault: Fault): (Table, Attempt) {
    if a.at.Done? then (table, a)
    else
      var after := if Lands(table, a) && !fault.Lost? then table[a.key := Written(a)] else table;
      if !fault.Clean? then (after, Failed(a))
      else if Lands(table, a) then (after, a.(at := Done(Committed(a.expected + 1))))
      else match a.at
        case Inserting => (after, a.(at := Updating))
        case Updating => (after, a.(at := Rereading))
        case _ => (after, a.(at := Done(Conflict(a.expected, Current(table, a.key)))))
  }

  // ------------------------------------------------------------------ one node by itself

  /** How many statements a commit can still run. */
  function Left(at: Counter): nat {
    match at case Inserting => 3 case Updating => 2 case Rereading => 1 case Done(_) => 0
  }

  /** What a commit comes to when nobody interferes and nothing fails. */
  function Alone(table: Table, a: Attempt): (Table, Attempt)
    decreases Left(a.at)
  {
    if a.at.Done? then (table, a)
    else
      var (next, later) := Statement(table, a, Clean);
      Alone(next, later)
  }

  /** Its first statement either settles it or leaves the rest to do. */
  lemma {:induction false} AloneNext(table: Table, a: Attempt)
    requires !a.at.Done?
    ensures var (next, later) := Statement(table, a, Clean);
      Alone(table, a) == if later.at.Done? then (next, later) else Alone(next, later)
  {
  }

  class Database {
    var table: Table

    constructor ()
      ensures table == map[]
    {
      table := map[];
    }

    method Query(key: Key) returns (row: Option<Row>)
      ensures row == if key in table then Some(table[key]) else None
    {
      row := if key in table then Some(table[key]) else None;
    }

    /** `INSERT ... ON CONFLICT DO NOTHING`: the insert is itself the compare-and-swap. */
    method Insert(key: Key, revision: nat, bindings: Bindings) returns (affected: nat)
      modifies this
      ensures affected == if key in old(table) then 0 else 1
      ensures table == if key in old(table) then old(table) else old(table)[key := Row(revision, bindings)]
    {
      if key in table {
        return 0;
      }
      table := table[key := Row(revision, bindings)];
      affected := 1;
    }

    method Update(key: Key, revision: nat, bindings: Bindings, expected: nat) returns (affected: nat)
      modifies this
      ensures affected == if key in old(table) && old(table)[key].revision == expected then 1 else 0
      ensures table == if affected == 1 then old(table)[key := Row(revision, bindings)] else old(table)
    {
      if key !in table || table[key].revision != expected {
        return 0;
      }
      table := table[key := Row(revision, bindings)];
      affected := 1;
    }
  }

  /** `commit_inner`, statement by statement; each is where another node may come in between. */
  method CommitAlone(db: Database, key: Key, expected: Revision, payload: Bindings) returns (outcome: Outcome)
    modifies db
    ensures var (table, a) := Alone(old(db.table), Commit(key, expected, payload));
      db.table == table && a.at == Done(outcome)
  {
    var next := expected + 1;
    var affected := 0;
    ghost var a := Commit(key, expected, payload);
    ghost var whole := Alone(db.table, a);
    AloneNext(db.table, a);
    if expected == 0 {
      affected := db.Insert(key, Clamp64(next), payload);
      if affected == 0 {
        a := a.(at := Updating);
        AloneNext(db.table, a);
      }
    }
    if affected == 0 {
      affected := db.Update(key, Clamp64(next), payload, Clamp64(expected));
      if affected == 0 {
        a := a.(at := Rereading);
        AloneNext(db.table, a);
      }
    }
    if affected == 0 {
      var row := db.Query(key);
      outcome := Conflict(expected, if row.Some? then row.value.revision else 0);
    } else {
      outcome := Committed(next);
    }
  }

  // ------------------------------------------------------------------ many nodes

  /** One landed write, and whose it was. */
  datatype Landing = Landing(node: nat, key: Key, expected: Revision, row: Row)

  datatype World = World(table: Table, attempts: seq<Attempt>, landings: seq<Landing>)

  /** Whose statement runs next, and how it fares. */
  datatype Turn = Turn(who: nat, fault: Fault)

  function Next(w: World, turn: Turn): World {
    if turn.who >= |w.attempts| then w
    else
      var a := w.attempts[turn.who];
      var (table, later) := Statement(w.table, a, turn.fault);
      World(table, w.attempts[turn.who := later],
            if Lands(w.table, a) && !turn.fault.Lost? then w.landings + [Landing(turn.who, a.key, a.expected, Written(a))]
            else w.landings)
  }

  function Run(w: World, turns: seq<Turn>): World
    decreases |turns|
  {
    if turns == [] then w else Next(Run(w, turns[..|turns| - 1]), turns[|turns| - 1])
  }

  /** An empty table and any commits at all, none of them started. */
  ghost predicate Fresh(w: World) {
    w.table == map[] && w.landings == []
    && forall i :: 0 <= i < |w.attempts| ==>
      w.attempts[i] == Commit(w.attempts[i].key, w.attempts[i].expected, w.attempts[i].payload)
  }

  /** The landings of one row, in order. */
  function Of(landings: seq<Landing>, key: Key): seq<Landing> {
    if landings == [] then []
    else
      var last := landings[|landings| - 1];
      Of(landings[..|landings| - 1], key) + if last.key == key then [last] else []
  }

  /** Revisions 1, 2, 3, and so on, each issued against its predecessor; past the column's range they stay at its end. */
  ghost predicate IsChain(mine: seq<Landing>) {
    forall k :: 0 <= k < |mine| ==> Clamp64(mine[k].expected) == Clamp64(k) && mine[k].row.revision == Clamp64(k + 1)
  }

  /** A row is what its last landing wrote. */
  ghost predicate HoldsLast(table: Table, mine: seq<Landing>, key: Key) {
    if mine == [] then key !in table else key in table && table[key] == mine[|mine| - 1].row
  }

  ghost predicate ChainInv(w: World) {
    forall key :: IsChain(Of(w.landings, key)) && HoldsLast(w.table, Of(w.landings, key), key)
  }

  /** Every landing is some finished attempt's, and no attempt lands twice. */
  ghost predicate LandingInv(w: World) {
    && (forall k :: 0 <= k < |w.landings| ==>
      var l := w.landings[k];
      l.node < |w.attempts| && w.attempts[l.node].at.Done? && l.key == w.attempts[l.node].key
      && l.expected == w.attempts[l.node].expected && l.row == Written(w.attempts[l.node]))
    && (forall j, k :: 0 <= j < k < |w.landings| ==> w.landings[j].node != w.landings[k].node)
  }

  /** An attempt that reports success has landed. */
  ghost predicate OutcomeInv(w: World) {
    forall i :: 0 <= i < |w.attempts| ==>
      var a := w.attempts[i];
      && (a.at.Inserting? ==> a.expected == 0)
      && (a.at.Updating? && a.expected == 0 ==> a.key in w.table)
      && (a.at.Done? && a.at.outcome.Committed? ==> a.at.outcome.revision == a.expected + 1 && HasLanded(w, i))
  }

  ghost predicate AttemptInv(w: World) { LandingInv(w) && OutcomeInv(w) }

  ghost predicate HasLanded(w: World, i: nat) { exists k :: 0 <= k < |w.landings| && w.landings[k].node == i }

  lemma {:induction false} OneMore(landings: seq<Landing>, l: Landing, key: Key)
    ensures Of(landings + [l], key) == Of(landings, key) + if l.key == key then [l] else []
  {
    assert (landings + [l])[..|landings|] == landings;
  }

  /** A statement that lands on a chain extends it. */
  lemma ChainGrows(table: Table, a: Attempt, mine: seq<Landing>, l: Landing)
    requires IsChain(mine) && HoldsLast(table, mine, a.key) && Lands(table, a) && (a.at.Inserting? ==> a.expected == 0)
    requires l.key == a.key && l.expected == a.expected && l.row == Written(a)
    ensures IsChain(mine + [l]) && HoldsLast(table[a.key := Written(a)], mine + [l], a.key)
  {
    assert Clamp64(a.expected) == Clamp64(|mine|);
  }

  lemma ChainStep(w: World, turn: Turn)
    requires ChainInv(w) && AttemptInv(w)
    ensures ChainInv(Next(w, turn))
  {
    if turn.who < |w.attempts| && Lands(w.table, w.attempts[turn.who]) && !turn.fault.Lost? {
      var a := w.attempts[turn.who];
      var l := Landing(turn.who, a.key, a.expected, Written(a));
      var table, landings := w.table[a.key := Written(a)], w.landings + [l];
      forall key ensures IsChain(Of(landings, key)) && HoldsLast(table, Of(landings, key), key) {
        var mine := Of(w.landings, key);
        assert IsChain(mine) && HoldsLast(w.table, mine, key);
        OneMore(w.landings, l, key);
        if key == a.key {
          ChainGrows(w.table, a, mine, l);
        } else {
          assert Of(landings, key) == mine;
        }
      }
    }
  }

  lemma LandingStep(w: World, turn: Turn)
    requires LandingInv(w)
    ensures LandingInv(Next(w, turn))
  {
  }

  lemma LandedStays(w: World, turn: Turn, i: nat)
    requires HasLanded(w, i)
    ensures HasLanded(Next(w, turn), i)
  {
    var k :| 0 <= k < |w.landings| && w.landings[k].node == i;
    assert Next(w, turn).landings[k].node == i;
  }

  lemma OutcomeStep(w: World, turn: Turn)
    requires OutcomeInv(w)
    ensures OutcomeInv(Next(w, turn))
  {
    var next := Next(w, turn);
    forall i | 0 <= i < |next.attempts|
      ensures var a := next.attempts[i];
        && (a.at.Inserting? ==> a.expected == 0)
        && (a.at.Updating? && a.expected == 0 ==> a.key in next.table)
        && (a.at.Done? && a.at.outcome.Committed? ==> a.at.outcome.revision == a.expected + 1 && HasLanded(next, i))
    {
      if HasLanded(w, i) {
        LandedStays(w, turn, i);
      } else if |next.landings| > |w.landings| && i == turn.who {
        assert next.landings[|w.landings|].node == i;
      }
    }
  }

  lemma {:induction false} RunKeeps(w: World, turns: seq<Turn>)
    requires Fresh(w)
    ensures ChainInv(Run(w, turns)) && AttemptInv(Run(w, turns))
    decreases |turns|
  {
    if turns != [] {
      RunKeeps(w, turns[..|turns| - 1]);
      ChainStep(Run(w, turns[..|turns| - 1]), turns[|turns| - 1]);
      LandingStep(Run(w, turns[..|turns| - 1]), turns[|turns| - 1]);
      OutcomeStep(Run(w, turns[..|turns| - 1]), turns[|turns| - 1]);
    }
  }

  // ------------------------------------------------------------------ guarantees

  /** Under every interleaving, the landed commits of one row form a single chain of revisions 1, 2, 3, and the row holds the last. */
  lemma {:induction false} LandedFormOneChain(w: World, turns: seq<Turn>, key: Key)
    requires Fresh(w)
    ensures var after := Run(w, turns);
      var mine := Of(after.landings, key);
      && (forall k :: 0 <= k < |mine| && k < I64_MAX ==> mine[k].expected == k && mine[k].row.revision == k + 1)
      && HoldsLast(after.table, mine, key)
  {
    RunKeeps(w, turns);
    var mine := Of(Run(w, turns).landings, key);
    assert IsChain(mine);
    forall k | 0 <= k < |mine| && k < I64_MAX ensures mine[k].expected == k && mine[k].row.revision == k + 1 {
      assert Clamp64(mine[k].expected) == Clamp64(k) && mine[k].row.revision == Clamp64(k + 1);
    }
  }

  /** A reported success always landed, exactly as issued. */
  lemma {:induction false} SuccessLanded(w: World, turns: seq<Turn>, i: nat)
    requires Fresh(w) && i < |w.attempts|
    requires var a := Run(w, turns).attempts; i < |a| && a[i].at.Done? && a[i].at.outcome.Committed?
    ensures var after := Run(w, turns);
      exists k :: 0 <= k < |after.landings| && after.landings[k].node == i && after.landings[k].key == after.attempts[i].key
                  && after.landings[k].row == Written(after.attempts[i])
  {
    RunKeeps(w, turns);
    var after := Run(w, turns);
    assert HasLanded(after, i);
    var k :| 0 <= k < |after.landings| && after.landings[k].node == i;
    assert after.landings[k].row == Written(after.attempts[i]);
  }

  lemma {:induction false} IndexOf(landings: seq<Landing>, l: Landing) returns (k: nat)
    requires l in landings
    ensures k < |Of(landings, l.key)| && Of(landings, l.key)[k] == l
  {
    var n := |landings| - 1;
    if landings[n] == l {
      k := |Of(landings[..n], l.key)|;
    } else {
      assert landings == landings[..n] + [landings[n]];
      k := IndexOf(landings[..n], l);
    }
  }

  /** No two commits of one row with the same expected revision both land, so no two both succeed. */
  lemma {:induction false} AtMostOneWins(w: World, turns: seq<Turn>, i: nat, j: nat)
    requires Fresh(w) && HasLanded(Run(w, turns), i) && HasLanded(Run(w, turns), j)
    requires var a := Run(w, turns).attempts;
      i < |a| && j < |a| && a[i].key == a[j].key && a[i].expected == a[j].expected < I64_MAX
    ensures i == j
  {
    RunKeeps(w, turns);
    var after := Run(w, turns);
    var key := after.attempts[i].key;
    var p :| 0 <= p < |after.landings| && after.landings[p].node == i;
    var q :| 0 <= q < |after.landings| && after.landings[q].node == j;
    var m := IndexOf(after.landings, after.landings[p]);
    var n := IndexOf(after.landings, after.landings[q]);
    assert IsChain(Of(after.landings, key));
    assert m == after.attempts[i].expected == n;
  }

  /** Two commits against a row that has reached the end of the column's range. */
  function AtTheEnd(key: Key, held: Bindings, x: Bindings, y: Bindings): World {
    World(map[key := Row(I64_MAX, held)], [Commit(key, I64_MAX, x), Commit(key, I64_MAX, y)], [])
  }

  lemma {:induction false} TwoTurns(w: World, i: Turn, j: Turn)
    ensures Run(w, [i, j]) == Next(Next(w, i), j)
  {
    assert [i, j][..1] == [i] && [i][..0] == [];
    assert Run(w, []) == w && Run(w, [i]) == Next(w, i);
  }

  /** There the swap no longer excludes: both land, one after the other, and both report success. */
  lemma SaturatedSwapRepeats(key: Key, held: Bindings, x: Bindings, y: Bindings)
    ensures var after := Run(AtTheEnd(key, held, x, y), [Turn(0, Clean), Turn(1, Clean)]);
      && |after.attempts| == 2 && HasLanded(after, 0) && HasLanded(after, 1) && after.table == map[key := Row(I64_MAX, y)]
      && after.attempts[0].at == Done(Committed(I64_MAX + 1)) && after.attempts[1].at == Done(Committed(I64_MAX + 1))
  {
    var w := AtTheEnd(key, held, x, y);
    TwoTurns(w, Turn(0, Clean), Turn(1, Clean));
    var mid := Next(w, Turn(0, Clean));
    assert mid.attempts[1] == Commit(key, I64_MAX, y) && mid.table[key].revision == I64_MAX;
    var after := Next(mid, Turn(1, Clean));
    assert after.landings[0].node == 0 && after.landings[1].node == 1;
  }

  lemma RevisionsGrow(w: World, turn: Turn, key: Key)
    requires ChainInv(w) && AttemptInv(w)
    ensures Current(w.table, key) <= Current(Next(w, turn).table, key)
  {
    if turn.who < |w.attempts| {
      var a := w.attempts[turn.who];
      assert HoldsLast(w.table, Of(w.landings, a.key), a.key) && IsChain(Of(w.landings, a.key));
    }
  }

  lemma {:induction false} RevisionsGrowOver(w: World, turns: seq<Turn>, p: nat, key: Key)
    requires Fresh(w) && p <= |turns|
    ensures Current(Run(w, turns[..p]).table, key) <= Current(Run(w, turns).table, key)
    decreases |turns|
  {
    if p < |turns| {
      var before := turns[..|turns| - 1];
      assert before[..p] == turns[..p];
      RevisionsGrowOver(w, before, p, key);
      RunKeeps(w, before);
      RevisionsGrow(Run(w, before), turns[|turns| - 1], key);
    } else {
      assert turns[..p] == turns;
    }
  }

  /**
   * A conflict is news: if the revision a commit was issued against was real when its UPDATE refused it, then the
   * re-read, however much later, reports a newer one, so a retry starts from something it had not seen.
   */
  lemma {:induction false} ConflictIsNews(w: World, turns: seq<Turn>, p: nat, i: nat)
    requires Fresh(w) && p < |turns| && turns[p] == Turn(i, Clean)
    requires var before := Run(w, turns[..p]);
      i < |before.attempts| && before.attempts[i].at.Updating? && !Lands(before.table, before.attempts[i])
      && before.attempts[i].expected <= Current(before.table, before.attempts[i].key) && before.attempts[i].expected <= I64_MAX
    requires i < |Run(w, turns).attempts| && Run(w, turns).attempts[i] == Run(w, turns[..p]).attempts[i].(at := Rereading)
    ensures var a := Next(Run(w, turns), Turn(i, Clean)).attempts[i];
      a.at.Done? && a.at.outcome.Conflict? && a.at.outcome.current > a.expected
  {
    var before := Run(w, turns[..p]);
    var a := before.attempts[i];
    RevisionsGrowOver(w, turns, p, a.key);
    RunKeeps(w, turns[..p]);
    RefusedIsPast(before.table, Of(before.landings, a.key), a);
  }

  lemma RefusedIsPast(table: Table, mine: seq<Landing>, a: Attempt)
    requires IsChain(mine) && HoldsLast(table, mine, a.key) && a.at.Updating? && !Lands(table, a)
    requires a.key in table && a.expected <= Current(table, a.key) && a.expected <= I64_MAX
    ensures a.expected < Current(table, a.key)
  {
  }
}
