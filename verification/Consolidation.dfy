/** Folding a current database into a copy of the historical one: signals and
    decisions get new ids, the rows that refer to them follow, and every other
    table has a merge rule per key. */
module Consolidation {
  import opened Lists

  datatype Row<+T> = Row(id: nat, body: T)

  datatype Trade = Trade(signal: Option<nat>, body: string)

  datatype Decision = Decision(ref: Option<string>, strategy: string, body: string)

  datatype Mark = Mark(decision: nat, horizon: nat, body: string)

  /** A table with an auto-increment id: its rows, and the highest id ever used. */
  datatype Keyed<+T> = Keyed(rows: map<nat, T>, high: nat) {
    ghost predicate Valid() {
      forall id :: id in rows ==> id <= high
    }
  }

  /** The linked tables of the output. */
  datatype Graph = Graph(signals: Keyed<string>, trades: seq<Trade>, decisions: Keyed<Decision>, marks: seq<Mark>)

  /** The same tables of the current database, read in id order. */
  datatype Source = Source(signals: seq<Row<string>>, trades: seq<Trade>, decisions: seq<Row<Decision>>,
                           marks: seq<Mark>)

  datatype Merged = Aborted | Committed(graph: Graph)

  ghost predicate IdsDistinct<T>(rows: seq<Row<T>>) {
    forall i, j :: 0 <= i < j < |rows| ==> rows[i].id != rows[j].id
  }

  // --- Renumbering ------------------------------------------------------------

  function InsertOne<T>(t: Keyed<T>, body: T): Keyed<T> {
    Keyed(t.rows[t.high + 1 := body], t.high + 1)
  }

  function InsertAll<T>(t: Keyed<T>, rows: seq<Row<T>>): Keyed<T> {
    if rows == [] then t else InsertOne(InsertAll(t, rows[..|rows| - 1]), rows[|rows| - 1].body)
  }

  function IdMap<T>(high: nat, rows: seq<Row<T>>): map<nat, nat> {
    if rows == [] then map[] else IdMap(high, rows[..|rows| - 1])[rows[|rows| - 1].id := high + |rows|]
  }

  function AsMap<T>(rows: seq<Row<T>>): map<nat, T> {
    if rows == [] then map[] else AsMap(rows[..|rows| - 1])[rows[|rows| - 1].id := rows[|rows| - 1].body]
  }

  lemma NothingInserted<T>(t: Keyed<T>, rows: seq<Row<T>>)
    ensures InsertAll(t, rows[..0]) == t && IdMap(t.high, rows[..0]) == map[]
  {}

  lemma InsertedOneMore<T>(t: Keyed<T>, rows: seq<Row<T>>, i: nat)
    requires i < |rows|
    ensures InsertAll(t, rows[..i + 1]) == InsertOne(InsertAll(t, rows[..i]), rows[i].body)
    ensures IdMap(t.high, rows[..i + 1]) == IdMap(t.high, rows[..i])[rows[i].id := t.high + i + 1]
  {
    PrefixGrows(rows, i);
  }

  lemma {:induction false} InsertAllExact<T>(t: Keyed<T>, rows: seq<Row<T>>)
    requires t.Valid()
    ensures var r := InsertAll(t, rows);
            && r.Valid() && r.high == t.high + |rows|
            && (forall id :: id in r.rows <==> id in t.rows || t.high < id <= t.high + |rows|)
            && (forall id :: id in t.rows ==> r.rows[id] == t.rows[id])
            && (forall i :: 0 <= i < |rows| ==> r.rows[t.high + 1 + i] == rows[i].body)
  {
    if rows == [] {
    } else {
      InsertAllExact(t, rows[..|rows| - 1]);
    }
  }

  ghost predicate HasId<T>(rows: seq<Row<T>>, id: nat) {
    exists i :: 0 <= i < |rows| && rows[i].id == id
  }

  lemma HasIdStep<T>(rows: seq<Row<T>>, last: Row<T>, id: nat)
    ensures HasId(rows + [last], id) <==> HasId(rows, id) || last.id == id
  {
    var all := rows + [last];
    assert all[|rows|] == last;
    if i :| 0 <= i < |rows| && rows[i].id == id {
      assert all[i].id == id;
    }
    if i :| 0 <= i < |all| && all[i].id == id {
      assert i < |rows| ==> rows[i].id == id;
    }
  }

  lemma {:induction false} MapsDomain<T>(high: nat, rows: seq<Row<T>>, id: nat)
    ensures (id in IdMap(high, rows) <==> HasId(rows, id)) && (id in AsMap(rows) <==> HasId(rows, id))
  {
    if rows == [] {
    } else {
      var init, last := rows[..|rows| - 1], rows[|rows| - 1];
      MapsDomain(high, init, id);
      assert rows == init + [last];
      HasIdStep(init, last, id);
      hide HasId;
    }
  }

  lemma {:induction false} MapsAt<T>(high: nat, rows: seq<Row<T>>, i: nat)
    requires IdsDistinct(rows) && i < |rows|
    ensures rows[i].id in IdMap(high, rows) && IdMap(high, rows)[rows[i].id] == high + 1 + i
    ensures rows[i].id in AsMap(rows) && AsMap(rows)[rows[i].id] == rows[i].body
  {
    var last := |rows| - 1;
    if i == last {
    } else {
      assert rows[..last][i] == rows[i] && rows[i].id != rows[last].id;
      MapsAt(high, rows[..last], i);
      hide IdsDistinct;
    }
  }

  lemma MapsExact<T>(high: nat, rows: seq<Row<T>>)
    requires IdsDistinct(rows)
    ensures forall id :: (id in IdMap(high, rows) <==> HasId(rows, id)) && (id in AsMap(rows) <==> HasId(rows, id))
    ensures forall i :: 0 <= i < |rows| ==>
            rows[i].id in IdMap(high, rows) && IdMap(high, rows)[rows[i].id] == high + 1 + i
    ensures forall i :: 0 <= i < |rows| ==> rows[i].id in AsMap(rows) && AsMap(rows)[rows[i].id] == rows[i].body
  {
    hide IdMap, AsMap, HasId, IdsDistinct;
    forall id: nat ensures (id in IdMap(high, rows) <==> HasId(rows, id)) && (id in AsMap(rows) <==> HasId(rows, id)) {
      MapsDomain(high, rows, id);
    }
    forall i | 0 <= i < |rows|
      ensures rows[i].id in IdMap(high, rows) && IdMap(high, rows)[rows[i].id] == high + 1 + i
      ensures rows[i].id in AsMap(rows) && AsMap(rows)[rows[i].id] == rows[i].body
    {
      MapsAt(high, rows, i);
    }
  }

  /** Renumbering is one to one, and carries each row to the same content. */
  lemma IdMapInjective<T>(t: Keyed<T>, rows: seq<Row<T>>, a: nat, b: nat)
    requires t.Valid() && IdsDistinct(rows)
    requires a in IdMap(t.high, rows)
    ensures a in AsMap(rows)
    ensures var m, out := IdMap(t.high, rows), InsertAll(t, rows);
            && m[a] !in t.rows && m[a] in out.rows && out.rows[m[a]] == AsMap(rows)[a]
            && (b in m && m[a] == m[b] ==> a == b)
  {
    InsertAllExact(t, rows);
    MapsDomain(t.high, rows, a);
    MapsDomain(t.high, rows, b);
    hide IdMap, InsertAll, AsMap, IdsDistinct;
    var i :| 0 <= i < |rows| && rows[i].id == a;
    MapsAt(t.high, rows, i);
    if b in IdMap(t.high, rows) {
      var j :| 0 <= j < |rows| && rows[j].id == b;
      MapsAt(t.high, rows, j);
    }
  }

  // --- Rows that refer to renumbered rows ---------------------------------------

  /** The LEFT JOIN on the id map: a reference to nothing becomes NULL. */
  function MoveTrade(m: map<nat, nat>, t: Trade): Trade {
    if t.signal.Some? && t.signal.value in m then t.(signal := Some(m[t.signal.value])) else t.(signal := None)
  }

  function MoveTrades(m: map<nat, nat>, trades: seq<Trade>): seq<Trade> {
    seq(|trades|, i requires 0 <= i < |trades| => MoveTrade(m, trades[i]))
  }

  /** The inner JOIN on the id map: a mark of nothing is dropped. */
  function MoveMarks(m: map<nat, nat>, marks: seq<Mark>): seq<Mark> {
    if marks == [] then []
    else
      var before := MoveMarks(m, marks[..|marks| - 1]);
      var last := marks[|marks| - 1];
      if last.decision in m then before + [last.(decision := m[last.decision])] else before
  }

  predicate MarkTaken(marks: seq<Mark>, mark: Mark) {
    exists i :: 0 <= i < |marks| && marks[i].decision == mark.decision && marks[i].horizon == mark.horizon
  }

  predicate MarksInsertable(marks: seq<Mark>, more: seq<Mark>) {
    forall i :: 0 <= i < |more| ==> !MarkTaken(marks + more[..i], more[i])
  }

  predicate SameIdentity(a: Decision, b: Decision) {
    a.ref.Some? && a.ref == b.ref && a.strategy == b.strategy
  }

  predicate DecisionTaken(t: Keyed<Decision>, d: Decision) {
    exists id :: id in t.rows && SameIdentity(t.rows[id], d)
  }

  predicate DecisionsInsertable(t: Keyed<Decision>, rows: seq<Row<Decision>>) {
    forall i :: 0 <= i < |rows| ==> !DecisionTaken(InsertAll(t, rows[..i]), rows[i].body)
  }

  function MergeGraph(g: Graph, c: Source): Merged {
    var trades := g.trades + MoveTrades(IdMap(g.signals.high, c.signals), c.trades);
    var moved := MoveMarks(IdMap(g.decisions.high, c.decisions), c.marks);
    if !DecisionsInsertable(g.decisions, c.decisions) || !MarksInsertable(g.marks, moved) then Aborted
    else Committed(Graph(InsertAll(g.signals, c.signals), trades, InsertAll(g.decisions, c.decisions), g.marks + moved))
  }

  class Output {
    var signals: Keyed<string>
    var trades: seq<Trade>
    var decisions: Keyed<Decision>
    var marks: seq<Mark>

    ghost function Tables(): Graph
      reads this
    {
      Graph(signals, trades, decisions, marks)
    }

    constructor (g: Graph)
      ensures Tables() == g
    {
      signals, trades, decisions, marks := g.signals, g.trades, g.decisions, g.marks;
    }

    method InsertSignals(rows: seq<Row<string>>) returns (m: map<nat, nat>)
      modifies this`signals
      ensures signals == InsertAll(old(signals), rows) && m == IdMap(old(signals).high, rows)
    {
      m := map[];
      var i := 0;
      while i < |rows|
        invariant 0 <= i <= |rows|
        invariant signals == InsertAll(old(signals), rows[..i]) && signals.high == old(signals).high + i
        invariant m == IdMap(old(signals).high, rows[..i])
      {
        PrefixGrows(rows, i);
        signals := InsertOne(signals, rows[i].body);
        m := m[rows[i].id := signals.high];
        i := i + 1;
      }
      WholePrefix(rows);
    }

    method InsertTrades(m: map<nat, nat>, rows: seq<Trade>)
      modifies this`trades
      ensures trades == old(trades) + MoveTrades(m, rows)
    {
      trades := trades + MoveTrades(m, rows);
    }

    /** Stops at the first row whose unique key is taken. */
    method InsertDecisions(rows: seq<Row<Decision>>) returns (m: map<nat, nat>, ok: bool)
      modifies this`decisions
      ensures ok <==> DecisionsInsertable(old(decisions), rows)
      ensures ok ==> decisions == InsertAll(old(decisions), rows) && m == IdMap(old(decisions).high, rows)
    {
      hide DecisionTaken, InsertAll, IdMap;
      NothingInserted(decisions, rows);
      m, ok := map[], true;
      var i := 0;
      while i < |rows|
        invariant 0 <= i <= |rows|
        invariant decisions == InsertAll(old(decisions), rows[..i]) && decisions.high == old(decisions).high + i
        invariant m == IdMap(old(decisions).high, rows[..i])
        invariant forall k :: 0 <= k < i ==> !DecisionTaken(InsertAll(old(decisions), rows[..k]), rows[k].body)
      {
        PrefixGrows(rows, i);
        InsertedOneMore(old(decisions), rows, i);
        if DecisionTaken(decisions, rows[i].body) {
          return m, false;
        }
        decisions := InsertOne(decisions, rows[i].body);
        m := m[rows[i].id := decisions.high];
        i := i + 1;
      }
      WholePrefix(rows);
    }

    method InsertMarks(m: map<nat, nat>, rows: seq<Mark>) returns (ok: bool)
      modifies this`marks
      ensures ok <==> MarksInsertable(old(marks), MoveMarks(m, rows))
      ensures ok ==> marks == old(marks) + MoveMarks(m, rows)
    {
      hide MarkTaken;
      var moved := MoveMarks(m, rows);
      var i := 0;
      while i < |moved|
        invariant 0 <= i <= |moved|
        invariant marks == old(marks) + moved[..i]
        invariant forall k :: 0 <= k < i ==> !MarkTaken(old(marks) + moved[..k], moved[k])
      {
        PrefixGrows(moved, i);
        if MarkTaken(marks, moved[i]) {
          return false;
        }
        marks := marks + [moved[i]];
        i := i + 1;
      }
      WholePrefix(moved);
      return true;
    }

    /** One transaction: on a failed insert the tables are as they were. */
    method MergeSignalGraph(c: Source) returns (ok: bool)
      modifies this
      ensures match MergeGraph(old(Tables()), c)
              case Aborted => !ok && Tables() == old(Tables())
              case Committed(graph) => ok && Tables() == graph
    {
      hide DecisionsInsertable, MarksInsertable, InsertAll, MoveMarks, MoveTrades, IdMap;
      var before := (signals, trades, decisions, marks);
      var signalIds := InsertSignals(c.signals);
      InsertTrades(signalIds, c.trades);
      var decisionIds;
      decisionIds, ok := InsertDecisions(c.decisions);
      if ok {
        ok := InsertMarks(decisionIds, c.marks);
      }
      if !ok {
        signals, trades, decisions, marks := before.0, before.1, before.2, before.3;
      }
    }
  }

  // --- Joins keep their meaning ---------------------------------------------------

  function SignalOf(t: Trade, signals: map<nat, string>): Option<string> {
    if t.signal.Some? && t.signal.value in signals then Some(signals[t.signal.value]) else None
  }

  function JoinTrades(trades: seq<Trade>, signals: map<nat, string>): seq<(string, Option<string>)> {
    seq(|trades|, i requires 0 <= i < |trades| => (trades[i].body, SignalOf(trades[i], signals)))
  }

  function JoinMarks(marks: seq<Mark>, decisions: map<nat, Decision>): seq<(nat, string, Decision)> {
    if marks == [] then []
    else
      var before := JoinMarks(marks[..|marks| - 1], decisions);
      var last := marks[|marks| - 1];
      if last.decision in decisions then before + [(last.horizon, last.body, decisions[last.decision])] else before
  }

  /** No historical row points just above the ids in use, where the new ids go. */
  predicate TradesSettled(g: Graph, count: nat) {
    forall i :: 0 <= i < |g.trades| && g.trades[i].signal.Some? ==>
      !(g.signals.high < g.trades[i].signal.value <= g.signals.high + count)
  }

  predicate MarksSettled(g: Graph, count: nat) {
    forall i :: 0 <= i < |g.marks| ==> !(g.decisions.high < g.marks[i].decision <= g.decisions.high + count)
  }

  lemma JoinTradesConcat(a: seq<Trade>, b: seq<Trade>, signals: map<nat, string>)
    ensures JoinTrades(a + b, signals) == JoinTrades(a, signals) + JoinTrades(b, signals)
  {}

  lemma MovedTradesJoin(t: Keyed<string>, rows: seq<Row<string>>, trades: seq<Trade>)
    requires t.Valid() && IdsDistinct(rows)
    ensures JoinTrades(MoveTrades(IdMap(t.high, rows), trades), InsertAll(t, rows).rows)
         == JoinTrades(trades, AsMap(rows))
  {
    hide InsertAll, IdMap, AsMap, IdsDistinct, Keyed.Valid;
    var m := IdMap(t.high, rows);
    forall i | 0 <= i < |trades|
      ensures SignalOf(MoveTrade(m, trades[i]), InsertAll(t, rows).rows) == SignalOf(trades[i], AsMap(rows))
    {
      MapsExact(t.high, rows);
      if trades[i].signal.Some? && trades[i].signal.value in m {
        IdMapInjective(t, rows, trades[i].signal.value, trades[i].signal.value);
      }
    }
  }

  lemma SettledTradesJoin(g: Graph, rows: seq<Row<string>>)
    requires g.signals.Valid()
    ensures JoinTrades(g.trades, InsertAll(g.signals, rows).rows) == JoinTrades(g.trades, g.signals.rows)
            <==> TradesSettled(g, |rows|)
  {
    hide InsertAll;
    InsertAllExact(g.signals, rows);
    var before, after := JoinTrades(g.trades, g.signals.rows), JoinTrades(g.trades, InsertAll(g.signals, rows).rows);
    if before == after {
      forall i | 0 <= i < |g.trades| && g.trades[i].signal.Some?
        ensures !(g.signals.high < g.trades[i].signal.value <= g.signals.high + |rows|)
      {
        assert before[i].1 == after[i].1;
      }
    } else {
      var i :| 0 <= i < |g.trades| && before[i] != after[i];
    }
  }

  /** Joining trades to signals in the output gives the historical join and then
      the current one, dangling references included, exactly when no historical
      trade refers to an id the merge is about to give out. */
  lemma TradesJoinKept(g: Graph, c: Source)
    requires g.signals.Valid() && IdsDistinct(c.signals) && MergeGraph(g, c).Committed?
    ensures var out := MergeGraph(g, c).graph;
            JoinTrades(out.trades, out.signals.rows)
              == JoinTrades(g.trades, g.signals.rows) + JoinTrades(c.trades, AsMap(c.signals))
            <==> TradesSettled(g, |c.signals|)
  {
    hide InsertAll, IdMap, AsMap, IdsDistinct, Keyed.Valid, MoveTrades, JoinTrades, DecisionsInsertable,
         MarksInsertable, MoveMarks, TradesSettled;
    var out := MergeGraph(g, c).graph;
    JoinTradesConcat(g.trades, MoveTrades(IdMap(g.signals.high, c.signals), c.trades), out.signals.rows);
    MovedTradesJoin(g.signals, c.signals, c.trades);
    SettledTradesJoin(g, c.signals);
    SamePrefixes(JoinTrades(g.trades, out.signals.rows), JoinTrades(g.trades, g.signals.rows),
                 JoinTrades(c.trades, AsMap(c.signals)));
  }

  /** A historical trade that points just above the ids in use comes out joined to a
      signal that has nothing to do with it. */
  lemma DanglingTradeCaptured(former: string, current: string, body: string)
    ensures var g := Graph(Keyed(map[1 := former], 1), [Trade(Some(2), body)], Keyed(map[], 0), []);
            var c := Source([Row(7, current)], [], [], []);
            && MergeGraph(g, c).Committed?
            && JoinTrades(g.trades, g.signals.rows) + JoinTrades(c.trades, AsMap(c.signals)) == [(body, None)]
            && JoinTrades(MergeGraph(g, c).graph.trades, MergeGraph(g, c).graph.signals.rows) == [(body, Some(current))]
  {
    var g := Graph(Keyed(map[1 := former], 1), [Trade(Some(2), body)], Keyed(map[], 0), []);
    var c := Source([Row(7, current)], [], [], []);
    assert c.signals[..0] == [];
    assert InsertAll(g.signals, c.signals).rows == map[1 := former, 2 := current];
    assert MergeGraph(g, c).Committed?;
    assert MergeGraph(g, c).graph.trades == g.trades;
  }

  lemma SamePrefixes<T>(a: seq<T>, b: seq<T>, rest: seq<T>)
    ensures a + rest == b + rest <==> a == b
  {
    if a + rest == b + rest {
      assert |a| == |b|;
      assert a == (a + rest)[..|a|] == (b + rest)[..|b|] == b;
    }
  }

  lemma {:induction false} JoinMarksConcat(a: seq<Mark>, b: seq<Mark>, decisions: map<nat, Decision>)
    ensures JoinMarks(a + b, decisions) == JoinMarks(a, decisions) + JoinMarks(b, decisions)
  {
    if b == [] {
      assert a + b == a;
    } else {
      assert (a + b)[..|a + b| - 1] == a + b[..|b| - 1];
      JoinMarksConcat(a, b[..|b| - 1], decisions);
    }
  }

  lemma MarkStep(m: map<nat, nat>, marks: seq<Mark>, decisions: map<nat, Decision>, mark: Mark)
    ensures JoinMarks(marks + [mark], decisions)
         == if mark.decision in decisions
            then JoinMarks(marks, decisions) + [(mark.horizon, mark.body, decisions[mark.decision])]
            else JoinMarks(marks, decisions)
    ensures MoveMarks(m, marks + [mark])
         == if mark.decision in m then MoveMarks(m, marks) + [mark.(decision := m[mark.decision])]
            else MoveMarks(m, marks)
  {
    assert (marks + [mark])[..|marks|] == marks;
  }

  lemma {:induction false} MovedMarksJoin(t: Keyed<Decision>, rows: seq<Row<Decision>>, marks: seq<Mark>)
    requires t.Valid() && IdsDistinct(rows)
    ensures JoinMarks(MoveMarks(IdMap(t.high, rows), marks), InsertAll(t, rows).rows) == JoinMarks(marks, AsMap(rows))
  {
    if marks == [] {
      NoMarks(IdMap(t.high, rows), InsertAll(t, rows).rows, AsMap(rows));
    } else {
      hide InsertAll, IdMap, AsMap, IdsDistinct, Keyed.Valid, JoinMarks, MoveMarks;
      var init := marks[..|marks| - 1];
      var last := marks[|marks| - 1];
      var m, out := IdMap(t.high, rows), InsertAll(t, rows).rows;
      MovedMarksJoin(t, rows, init);
      MapsExact(t.high, rows);
      assert marks == init + [last];
      MarkStep(m, init, AsMap(rows), last);
      if last.decision in m {
        IdMapInjective(t, rows, last.decision, last.decision);
        MarkStep(m, MoveMarks(m, init), out, last.(decision := m[last.decision]));
      }
    }
  }

  lemma NoMarks(m: map<nat, nat>, a: map<nat, Decision>, b: map<nat, Decision>)
    ensures JoinMarks(MoveMarks(m, []), a) == JoinMarks([], b) == []
  {}

  /** More decisions can only add joined marks, and each mark that points at an
      added decision adds one. */
  lemma {:induction false} MarksGained(marks: seq<Mark>, old_: map<nat, Decision>, new_: map<nat, Decision>)
    requires forall id :: id in old_ ==> id in new_ && new_[id] == old_[id]
    ensures |JoinMarks(marks, old_)| <= |JoinMarks(marks, new_)|
    ensures (forall i :: 0 <= i < |marks| && marks[i].decision in new_ ==> marks[i].decision in old_) ==>
              JoinMarks(marks, new_) == JoinMarks(marks, old_)
    ensures (exists i :: 0 <= i < |marks| && marks[i].decision in new_ && marks[i].decision !in old_) ==>
              |JoinMarks(marks, old_)| < |JoinMarks(marks, new_)|
  {
    if marks == [] {
    } else {
      var init := marks[..|marks| - 1];
      MarksGained(init, old_, new_);
      if i :| 0 <= i < |marks| && marks[i].decision in new_ && marks[i].decision !in old_ {
        assert i < |init| ==> init[i].decision in new_ && init[i].decision !in old_;
      }
    }
  }

  /** Joining marks to decisions in the output gives the historical join and then
      the current one, exactly when no historical mark refers to an id the merge
      is about to give out. */
  lemma MarksJoinKept(g: Graph, c: Source)
    requires g.decisions.Valid() && IdsDistinct(c.decisions) && MergeGraph(g, c).Committed?
    ensures var out := MergeGraph(g, c).graph;
            JoinMarks(out.marks, out.decisions.rows)
              == JoinMarks(g.marks, g.decisions.rows) + JoinMarks(c.marks, AsMap(c.decisions))
            <==> MarksSettled(g, |c.decisions|)
  {
    hide InsertAll, IdMap, AsMap, IdsDistinct, MoveTrades, JoinMarks, DecisionsInsertable, MarksInsertable, MoveMarks;
    var out := MergeGraph(g, c).graph;
    JoinMarksConcat(g.marks, MoveMarks(IdMap(g.decisions.high, c.decisions), c.marks), out.decisions.rows);
    MovedMarksJoin(g.decisions, c.decisions, c.marks);
    InsertAllExact(g.decisions, c.decisions);
    MarksGained(g.marks, g.decisions.rows, out.decisions.rows);
    SamePrefixes(JoinMarks(g.marks, out.decisions.rows), JoinMarks(g.marks, g.decisions.rows),
                 JoinMarks(c.marks, AsMap(c.decisions)));
  }

  ghost predicate MarksKeyed(marks: seq<Mark>) {
    forall i, j :: 0 <= i < j < |marks| ==>
        marks[i].decision != marks[j].decision || marks[i].horizon != marks[j].horizon
  }

  ghost predicate MovedFrom(m: map<nat, nat>, marks: seq<Mark>, x: Mark) {
    exists i :: 0 <= i < |marks| && marks[i].decision in m && x == marks[i].(decision := m[marks[i].decision])
  }

  lemma {:induction false} MovedMembers(m: map<nat, nat>, marks: seq<Mark>)
    ensures forall x :: x in MoveMarks(m, marks) ==> MovedFrom(m, marks, x)
  {
    if marks == [] {
    } else {
      var init := marks[..|marks| - 1];
      MovedMembers(m, init);
      forall x | x in MoveMarks(m, marks) ensures MovedFrom(m, marks, x) {
        if x in MoveMarks(m, init) {
          var i :| 0 <= i < |init| && init[i].decision in m && x == init[i].(decision := m[init[i].decision]);
          assert marks[i] == init[i];
        } else {
          assert marks[|marks| - 1].decision in m;
        }
      }
    }
  }

  ghost predicate OneToOne(m: map<nat, nat>) {
    forall a, b :: a in m && b in m && m[a] == m[b] ==> a == b
  }

  lemma {:induction false} MovedMarksKeyed(m: map<nat, nat>, marks: seq<Mark>)
    requires OneToOne(m) && MarksKeyed(marks)
    ensures MarksKeyed(MoveMarks(m, marks))
  {
    if marks == [] {
    } else {
      var init := marks[..|marks| - 1];
      var last := marks[|marks| - 1];
      MovedMarksKeyed(m, init);
      MovedMembers(m, init);
      if last.decision in m {
        forall x | x in MoveMarks(m, init) ensures x.decision != m[last.decision] || x.horizon != last.horizon {
          assert MovedFrom(m, init, x);
          var k :| 0 <= k < |init| && init[k].decision in m && x == init[k].(decision := m[init[k].decision]);
          assert marks[k] == init[k];
        }
      }
    }
  }

  lemma IdMapFresh<T>(t: Keyed<T>, rows: seq<Row<T>>)
    requires t.Valid() && IdsDistinct(rows)
    ensures OneToOne(IdMap(t.high, rows))
    ensures forall a :: a in IdMap(t.high, rows) ==> t.high < IdMap(t.high, rows)[a] <= t.high + |rows|
  {
    hide IdMap, IdsDistinct, AsMap, InsertAll;
    forall a, b | a in IdMap(t.high, rows) && b in IdMap(t.high, rows)
        && IdMap(t.high, rows)[a] == IdMap(t.high, rows)[b]
      ensures a == b
    {
      IdMapInjective(t, rows, a, b);
    }
    MapsExact(t.high, rows);
    forall a | a in IdMap(t.high, rows) ensures t.high < IdMap(t.high, rows)[a] <= t.high + |rows| {
      assert HasId(rows, a);
      var i :| 0 <= i < |rows| && rows[i].id == a;
    }
  }

  /** Some decision of the current database has a reference, and the historical one or an
      earlier of its own rows has the same reference under the same strategy. */
  ghost predicate DecisionRepeated(g: Keyed<Decision>, rows: seq<Row<Decision>>) {
    exists i :: 0 <= i < |rows| && Repeats(g, rows, i)
  }

  ghost predicate Repeats(g: Keyed<Decision>, rows: seq<Row<Decision>>, i: nat)
    requires i < |rows|
  {
    var d := rows[i].body;
    d.ref.Some? &&
    (|| (exists id :: id in g.rows && g.rows[id].ref == d.ref && g.rows[id].strategy == d.strategy)
     || (exists j :: 0 <= j < i && rows[j].body.ref == d.ref && rows[j].body.strategy == d.strategy))
  }

  lemma TakenIsRepeat(g: Keyed<Decision>, rows: seq<Row<Decision>>, i: nat)
    requires g.Valid() && i < |rows|
    ensures DecisionTaken(InsertAll(g, rows[..i]), rows[i].body) <==> Repeats(g, rows, i)
  {
    hide InsertAll;
    InsertAllExact(g, rows[..i]);
    var t, d := InsertAll(g, rows[..i]), rows[i].body;
    if DecisionTaken(t, d) {
      var id :| id in t.rows && SameIdentity(t.rows[id], d);
      if id !in g.rows {
        var j := id - g.high - 1;
        assert t.rows[g.high + 1 + j] == rows[..i][j].body == rows[j].body;
      }
    }
    if id :| id in g.rows && d.ref.Some? && g.rows[id].ref == d.ref && g.rows[id].strategy == d.strategy {
      assert SameIdentity(t.rows[id], d);
    }
    if j :| 0 <= j < i && d.ref.Some? && rows[j].body.ref == d.ref && rows[j].body.strategy == d.strategy {
      assert t.rows[g.high + 1 + j] == rows[..i][j].body;
      assert SameIdentity(t.rows[g.high + 1 + j], d);
    }
  }

  lemma InsertableIff(g: Keyed<Decision>, rows: seq<Row<Decision>>)
    requires g.Valid()
    ensures DecisionsInsertable(g, rows) <==> !DecisionRepeated(g, rows)
  {
    hide InsertAll, DecisionTaken, Repeats;
    forall i | 0 <= i < |rows|
      ensures DecisionTaken(InsertAll(g, rows[..i]), rows[i].body) <==> Repeats(g, rows, i)
    {
      TakenIsRepeat(g, rows, i);
    }
  }

  /** Some mark would stand twice: for one decision at one horizon. */
  lemma MarksInsertableIff(marks: seq<Mark>, more: seq<Mark>)
    ensures MarksInsertable(marks, more) <==>
            && MarksKeyed(more)
            && forall x, y :: x in marks && y in more ==> x.decision != y.decision || x.horizon != y.horizon
  {
    forall i | 0 <= i < |more|
      ensures MarkTaken(marks + more[..i], more[i]) <==>
              || (exists x :: x in marks && x.decision == more[i].decision && x.horizon == more[i].horizon)
              || (exists j :: 0 <= j < i && more[j].decision == more[i].decision && more[j].horizon == more[i].horizon)
    {
      TakenIff(marks, more, i);
    }
    hide MarkTaken;
  }

  lemma TakenIff(marks: seq<Mark>, more: seq<Mark>, i: nat)
    requires i < |more|
    ensures MarkTaken(marks + more[..i], more[i]) <==>
            || (exists x :: x in marks && x.decision == more[i].decision && x.horizon == more[i].horizon)
            || (exists j :: 0 <= j < i && more[j].decision == more[i].decision && more[j].horizon == more[i].horizon)
  {
    var all := marks + more[..i];
    if x :| x in marks && x.decision == more[i].decision && x.horizon == more[i].horizon {
      var k :| 0 <= k < |marks| && marks[k] == x;
      assert all[k] == x;
    }
    if j :| 0 <= j < i && more[j].decision == more[i].decision && more[j].horizon == more[i].horizon {
      assert all[|marks| + j] == more[j];
    }
    if k :| 0 <= k < |all| && all[k].decision == more[i].decision && all[k].horizon == more[i].horizon {
      if k < |marks| {
        assert marks[k] in marks;
      } else {
        assert all[k] == more[k - |marks|];
      }
    }
  }

  /** The merge is committed exactly when no decision is repeated and no mark of the current
      database, once its reference is renumbered, stands twice. */
  lemma CommittedIff(g: Graph, c: Source)
    requires g.decisions.Valid()
    ensures MergeGraph(g, c).Committed? <==>
            var moved := MoveMarks(IdMap(g.decisions.high, c.decisions), c.marks);
            && !DecisionRepeated(g.decisions, c.decisions) && MarksKeyed(moved)
            && forall x, y :: x in g.marks && y in moved ==> x.decision != y.decision || x.horizon != y.horizon
  {
    InsertableIff(g.decisions, c.decisions);
    MarksInsertableIff(g.marks, MoveMarks(IdMap(g.decisions.high, c.decisions), c.marks));
    hide DecisionsInsertable, DecisionRepeated, MarksInsertable, MarksKeyed, MoveMarks, IdMap, InsertAll;
  }

  /** Renumbered marks never collide with historical ones that are settled: then
      only a repeated decision can abort the merge. */
  lemma MarksNeverAbort(g: Graph, c: Source)
    requires g.decisions.Valid() && IdsDistinct(c.decisions)
    requires MarksKeyed(c.marks) && MarksSettled(g, |c.decisions|)
    ensures MergeGraph(g, c).Committed? <==> !DecisionRepeated(g.decisions, c.decisions)
  {
    InsertableIff(g.decisions, c.decisions);
    hide DecisionRepeated;
    hide InsertAll, IdMap, AsMap, IdsDistinct, MoveTrades, DecisionsInsertable, MoveMarks;
    var moved := MoveMarks(IdMap(g.decisions.high, c.decisions), c.marks);
    IdMapFresh(g.decisions, c.decisions);
    MovedMarksKeyed(IdMap(g.decisions.high, c.decisions), c.marks);
    MovedMembers(IdMap(g.decisions.high, c.decisions), c.marks);
    forall i | 0 <= i < |moved| ensures !MarkTaken(g.marks + moved[..i], moved[i]) {
      assert MovedFrom(IdMap(g.decisions.high, c.decisions), c.marks, moved[i]);
    }
  }

  // --- Tables merged key by key -----------------------------------------------------

  datatype Pair<+K, +V> = Pair(key: K, value: V)

  ghost predicate KeysDistinct<K, V>(rows: seq<Pair<K, V>>) {
    forall i, j :: 0 <= i < j < |rows| ==> rows[i].key != rows[j].key
  }

  /** INSERT with an ON CONFLICT clause: `resolve` gets the row that is there and
      the row that comes in. */
  function MergeAll<K, V>(table: map<K, V>, rows: seq<Pair<K, V>>, resolve: (V, V) -> V): map<K, V> {
    if rows == [] then table
    else
      var before := MergeAll(table, rows[..|rows| - 1], resolve);
      var last := rows[|rows| - 1];
      before[last.key := if last.key in before then resolve(before[last.key], last.value) else last.value]
  }

  method MergeTable<K(==), V>(table: map<K, V>, rows: seq<Pair<K, V>>, resolve: (V, V) -> V) returns (merged: map<K, V>)
    ensures merged == MergeAll(table, rows, resolve)
  {
    merged := table;
    var i := 0;
    while i < |rows|
      invariant 0 <= i <= |rows|
      invariant merged == MergeAll(table, rows[..i], resolve)
    {
      PrefixGrows(rows, i);
      if rows[i].key in merged {
        merged := merged[rows[i].key := resolve(merged[rows[i].key], rows[i].value)];
      } else {
        merged := merged[rows[i].key := rows[i].value];
      }
      i := i + 1;
    }
    WholePrefix(rows);
  }

  /** Key by key: rows of one side come through, and a key of both sides is
      resolved once, the historical row first. */
  lemma {:induction false} MergeExact<K, V>(table: map<K, V>, rows: seq<Pair<K, V>>, resolve: (V, V) -> V)
    requires KeysDistinct(rows)
    ensures forall i :: 0 <= i < |rows| ==>
              && rows[i].key in MergeAll(table, rows, resolve)
              && MergeAll(table, rows, resolve)[rows[i].key] ==
                 if rows[i].key in table then resolve(table[rows[i].key], rows[i].value) else rows[i].value
    ensures forall k :: !HasKeyIn(rows, k) ==>
              && (k in MergeAll(table, rows, resolve) <==> k in table)
              && (k in table ==> MergeAll(table, rows, resolve)[k] == table[k])
  {
    if rows == [] {
    } else {
      var init := rows[..|rows| - 1];
      var last := rows[|rows| - 1];
      MergeExact(table, init, resolve);
      forall k | !HasKeyIn(rows, k) ensures !HasKeyIn(init, k) && k != last.key {
        forall i | 0 <= i < |init| ensures init[i].key != k {
          assert rows[i].key != k;
        }
        assert rows[|rows| - 1].key != k;
      }
    }
  }

  ghost predicate HasKeyIn<K, V>(rows: seq<Pair<K, V>>, key: K) {
    exists i :: 0 <= i < |rows| && rows[i].key == key
  }

  function KeepOld<V>(): (V, V) -> V { (there, incoming) => there }

  function TakeNew<V>(): (V, V) -> V { (there, incoming) => incoming }

  /** One day of totals: additive counts, the worst drawdown, and a balance that
      is the current deployment's. */
  datatype Day = Day(pnl: real, trades: int, wins: int, losses: int, calls: int, cost: real, drawdown: real, peak: real)

  function MergeDay(a: Day, b: Day): Day {
    Day(a.pnl + b.pnl, a.trades + b.trades, a.wins + b.wins, a.losses + b.losses, a.calls + b.calls, a.cost + b.cost,
        Max(a.drawdown, b.drawdown), b.peak)
  }

  function MergeDays(): (Day, Day) -> Day { (a, b) => MergeDay(a, b) }

  function Lookup<K(==), V>(rows: seq<Pair<K, V>>, key: K): Option<V> {
    if rows == [] then None
    else if rows[|rows| - 1].key == key then Some(rows[|rows| - 1].value)
    else Lookup(rows[..|rows| - 1], key)
  }

  lemma {:induction false} LookupExact<K, V>(rows: seq<Pair<K, V>>, key: K)
    requires KeysDistinct(rows)
    ensures Lookup(rows, key).None? <==> !HasKeyIn(rows, key)
    ensures forall i :: 0 <= i < |rows| && rows[i].key == key ==> Lookup(rows, key) == Some(rows[i].value)
  {
    if rows == [] {
    } else {
      LookupExact(rows[..|rows| - 1], key);
    }
  }

  lemma MergedAt<K, V>(table: map<K, V>, rows: seq<Pair<K, V>>, resolve: (V, V) -> V, key: K)
    requires KeysDistinct(rows)
    ensures var out, new_ := MergeAll(table, rows, resolve), Lookup(rows, key);
            && (key in out <==> key in table || new_.Some?)
            && (key in table && new_.Some? ==> out[key] == resolve(table[key], new_.value))
            && (key in table && new_.None? ==> out[key] == table[key])
            && (key !in table && new_.Some? ==> out[key] == new_.value)
  {
    hide MergeAll;
    MergeExact(table, rows, resolve);
    LookupExact(rows, key);
    if Lookup(rows, key).Some? {
      var i :| 0 <= i < |rows| && rows[i].key == key;
      assert rows[i].key in MergeAll(table, rows, resolve);
    }
  }

  /** Journals keyed by a unique reference keep every historical row as it was;
      catalogs take the current row; neither loses a key. */
  lemma JournalAndCatalog<K, V>(table: map<K, V>, rows: seq<Pair<K, V>>, key: K)
    requires KeysDistinct(rows)
    ensures var journal, catalog := MergeAll(table, rows, KeepOld()), MergeAll(table, rows, TakeNew());
            && (key in journal <==> key in table || Lookup(rows, key).Some?)
            && (key in catalog <==> key in table || Lookup(rows, key).Some?)
            && (key in table ==> journal[key] == table[key])
            && (Lookup(rows, key).Some? ==> catalog[key] == Lookup(rows, key).value)
            && (key in table && Lookup(rows, key).None? ==> catalog[key] == table[key])
  {
    MergedAt(table, rows, KeepOld(), key);
    MergedAt(table, rows, TakeNew(), key);
  }

  function PnlOn(table: map<string, Day>, day: string): real { if day in table then table[day].pnl else 0.0 }

  function PnlIn(rows: seq<Pair<string, Day>>, day: string): real {
    if Lookup(rows, day).Some? then Lookup(rows, day).value.pnl else 0.0
  }

  /** Daily profit of the output is the profit of both databases on that day; the
      drawdown is the worse of the two, the balance the current one. */
  lemma DaysAdd(table: map<string, Day>, rows: seq<Pair<string, Day>>, day: string)
    requires KeysDistinct(rows)
    ensures var out := MergeAll(table, rows, MergeDays());
            && PnlOn(out, day) == PnlOn(table, day) + PnlIn(rows, day)
            && (day in table ==> day in out && out[day].drawdown >= table[day].drawdown)
            && (Lookup(rows, day).Some? ==>
                  && day in out && out[day].drawdown >= Lookup(rows, day).value.drawdown
                  && out[day].peak == Lookup(rows, day).value.peak)
            && (day in table && Lookup(rows, day).Some? ==>
                  var a, b := table[day], Lookup(rows, day).value;
                  && out[day].trades == a.trades + b.trades && out[day].wins == a.wins + b.wins
                  && out[day].losses == a.losses + b.losses && out[day].calls == a.calls + b.calls
                  && out[day].cost == a.cost + b.cost && out[day].drawdown in {a.drawdown, b.drawdown})
            && (day in table && Lookup(rows, day).None? ==> out[day] == table[day])
            && (day !in table && Lookup(rows, day).Some? ==> out[day] == Lookup(rows, day).value)
  {
    hide MergeAll, Lookup;
    MergedAt(table, rows, MergeDays(), day);
  }

  datatype Counter = Counter(calls: int, usd: real)

  function MergeCounters(): (Counter, Counter) -> Counter {
    (a: Counter, b: Counter) => Counter(a.calls + b.calls, a.usd + b.usd)
  }

  function Count(c: Option<Counter>): Counter { if c.Some? then c.value else Counter(0, 0.0) }

  function Stored<K, V>(table: map<K, V>, key: K): Option<V> { if key in table then Some(table[key]) else None }

  /** A counter of the output is the sum of the two counters under its key. */
  lemma CountersAdd<K>(table: map<K, Counter>, rows: seq<Pair<K, Counter>>, key: K)
    requires KeysDistinct(rows)
    ensures var out := Count(Stored(MergeAll(table, rows, MergeCounters()), key));
            var a, b := Count(Stored(table, key)), Count(Lookup(rows, key));
            out.calls == a.calls + b.calls && out.usd == a.usd + b.usd
  {
    hide MergeAll, Lookup;
    MergedAt(table, rows, MergeCounters(), key);
  }
}
