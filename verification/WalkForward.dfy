/** Walk-forward folds for strategy research, and the running-peak drawdown. */
module WalkForward {
  import opened Lists

  /** One observation: when it was made, the event it is about, and when that
      event was settled. */
  datatype Row = Row(time: real, event: string, end: real)

  datatype Fold = Fold(train: seq<Row>, test: seq<Row>)

  datatype Result<+T> = Ok(value: T) | ValueError(message: string)

  function Time(r: Row): real { r.time }

  function EventsOf(rows: seq<Row>): set<string> {
    set r | r in rows :: r.event
  }

  // --- One observation per event -------------------------------------------

  function FirstPerEvent(rows: seq<Row>): seq<Row> {
    if rows == [] then []
    else
      var kept := FirstPerEvent(rows[..|rows| - 1]);
      var last := rows[|rows| - 1];
      if last.event in EventsOf(kept) then kept else kept + [last]
  }

  method EventUnique(rows: seq<Row>) returns (kept: seq<Row>)
    ensures kept == FirstPerEvent(rows)
  {
    var seen: set<string> := {};
    kept := [];
    var i := 0;
    while i < |rows|
      invariant 0 <= i <= |rows|
      invariant kept == FirstPerEvent(rows[..i])
      invariant seen == EventsOf(kept)
    {
      PrefixGrows(rows, i);
      if rows[i].event !in seen {
        seen := seen + {rows[i].event};
        EventsGrow(kept, rows[i]);
        kept := kept + [rows[i]];
      }
      i := i + 1;
    }
    WholePrefix(rows);
  }

  lemma EventsGrow(rows: seq<Row>, r: Row)
    ensures EventsOf(rows + [r]) == EventsOf(rows) + {r.event}
  {
    assert forall x :: x in rows + [r] <==> x in rows || x == r;
  }

  ghost predicate EventsDistinct(rows: seq<Row>) {
    forall i, j :: 0 <= i < j < |rows| ==> rows[i].event != rows[j].event
  }

  /** Every event keeps exactly one row. */
  lemma {:induction false} OnePerEvent(rows: seq<Row>)
    ensures EventsDistinct(FirstPerEvent(rows))
    ensures EventsOf(FirstPerEvent(rows)) == EventsOf(rows)
  {
    if rows == [] {
    } else {
      var init := rows[..|rows| - 1];
      var last := rows[|rows| - 1];
      OnePerEvent(init);
      EventsGrow(init, last);
      EventsGrow(FirstPerEvent(init), last);
      assert rows == init + [last];
      forall r | r in FirstPerEvent(init) ensures r.event in EventsOf(FirstPerEvent(init)) {}
    }
  }

  /** The kept rows are rows of the input, in its time order. */
  lemma {:induction false} KeptInOrder(rows: seq<Row>)
    requires Ascending(rows, Time)
    ensures Ascending(FirstPerEvent(rows), Time)
    ensures forall r :: r in FirstPerEvent(rows) ==> r in rows
  {
    if rows == [] {
    } else {
      AscendingInit(rows);
      KeptInOrder(rows[..|rows| - 1]);
    }
  }

  /** The row an event keeps is its earliest. */
  lemma {:induction false} KeptIsEarliest(rows: seq<Row>, r: Row, x: Row)
    requires Ascending(rows, Time)
    requires r in rows && x in FirstPerEvent(rows) && x.event == r.event
    ensures x.time <= r.time
  {
    var init := rows[..|rows| - 1];
    var last := rows[|rows| - 1];
    AscendingInit(rows);
    KeptInOrder(init);
    if x in FirstPerEvent(init) {
      if r in init {
        KeptIsEarliest(init, r, x);
      }
    } else {
      OnePerEvent(init);
      assert x == last && r.event !in EventsOf(init);
    }
  }

  lemma AscendingInit(rows: seq<Row>)
    requires rows != [] && Ascending(rows, Time)
    ensures Ascending(rows[..|rows| - 1], Time)
    ensures forall x :: x in rows ==> x.time <= rows[|rows| - 1].time
  {
    forall x | x in rows ensures x.time <= rows[|rows| - 1].time {
      var i :| 0 <= i < |rows| && rows[i] == x;
      assert i < |rows| - 1 ==> Time(rows[i]) <= Time(rows[|rows| - 1]);
    }
  }

  /** The observations the study runs on are the earliest row of each event, in
      time order. */
  lemma OrderedExact(rows: seq<Row>)
    ensures EventsDistinct(Ordered(rows)) && Ascending(Ordered(rows), Time)
    ensures EventsOf(Ordered(rows)) == EventsOf(rows)
    ensures forall r, x :: r in rows && x in Ordered(rows) && x.event == r.event ==> x in rows && x.time <= r.time
  {
    var sorted := SortBy(rows, Time);
    SortIsAscendingPermutation(rows, Time);
    SameMembers(sorted, rows);
    OnePerEvent(sorted);
    KeptInOrder(sorted);
    forall r, x | r in rows && x in Ordered(rows) && x.event == r.event ensures x in rows && x.time <= r.time {
      KeptIsEarliest(sorted, r, x);
    }
  }

  lemma SameMembers(xs: seq<Row>, ys: seq<Row>)
    requires multiset(xs) == multiset(ys)
    ensures forall x :: x in xs <==> x in ys
    ensures EventsOf(xs) == EventsOf(ys)
  {
    assert forall x :: x in xs <==> x in multiset(xs);
    assert forall x :: x in ys <==> x in multiset(ys);
  }

  // --- Folds ---------------------------------------------------------------

  /** The observations the study runs on: chronological, one per event. */
  function Ordered(rows: seq<Row>): seq<Row> {
    FirstPerEvent(SortBy(rows, Time))
  }

  function EndsBefore(cutoff: real): Row -> bool { (r: Row) => r.end < cutoff }

  function NotIn(events: set<string>): Row -> bool { (r: Row) => r.event !in events }

  function Upto(i: int, n: int): int { if i <= n then i else n }

  function TestBlock(ordered: seq<Row>, cursor: nat, testSize: nat): seq<Row>
    requires cursor <= |ordered|
  {
    ordered[cursor..Upto(cursor + testSize, |ordered|)]
  }

  /** What a fold must be, given where its test block starts: the whole block is
      tested, nothing tested was trained on or came before the training, and the
      training is exactly the past that ended before the embargo. */
  ghost predicate Honest(f: Fold, ordered: seq<Row>, cursor: nat, testSize: nat, purge: bool, embargo: real)
    requires cursor < |ordered|
  {
    && f.test == TestBlock(ordered, cursor, testSize) != []
    && EventsOf(f.train) !! EventsOf(f.test)
    && (forall r, t :: r in f.train && t in f.test ==> r.time <= t.time)
    && TrainsOn(f.train, ordered[..cursor], purge, ordered[cursor].time - embargo)
  }

  ghost predicate HonestAt(f: Fold, ordered: seq<Row>, cursor: int, testSize: nat, purge: bool, embargo: real) {
    0 <= cursor < |ordered| && Honest(f, ordered, cursor, testSize, purge, embargo)
  }

  ghost predicate TrainsOn(train: seq<Row>, past: seq<Row>, purge: bool, cutoff: real) {
    forall r :: r in train <==> r in past && (purge ==> r.end < cutoff)
  }

  function Cursor(minTrain: int, testSize: int, fold: nat): int { minTrain + fold * testSize }

  function Tests(folds: seq<Fold>): seq<Row> {
    if folds == [] then [] else Tests(folds[..|folds| - 1]) + folds[|folds| - 1].test
  }

  method ExpandingWalkForward(rows: seq<Row>, minTrain: int, testSize: int, purge: bool, embargo: real)
    returns (r: Result<seq<Fold>>)
    ensures r.ValueError? <==> minTrain < 1 || testSize < 1 || embargo < 0.0
    ensures r.Ok? ==> Tests(r.value) == Ordered(rows)[Upto(minTrain, |Ordered(rows)|)..]
    ensures r.Ok? ==> forall k :: 0 <= k < |r.value| ==>
                        HonestAt(r.value[k], Ordered(rows), Cursor(minTrain, testSize, k), testSize, purge, embargo)
  {
    if minTrain < 1 || testSize < 1 {
      return ValueError("min_train and test_size must be positive");
    }
    if embargo < 0.0 {
      return ValueError("embargo must be non-negative");
    }
    var ordered := EventUnique(SortBy(rows, Time));
    OrderedExact(rows);
    var folds := BuildFolds(ordered, minTrain, testSize, purge, embargo);
    r := Ok(folds);
  }

  method BuildFolds(ordered: seq<Row>, minTrain: nat, testSize: nat, purge: bool, embargo: real)
    returns (folds: seq<Fold>)
    requires EventsDistinct(ordered) && Ascending(ordered, Time)
    requires testSize > 0
    ensures Tests(folds) == ordered[Upto(minTrain, |ordered|)..]
    ensures forall k :: 0 <= k < |folds| ==>
              HonestAt(folds[k], ordered, Cursor(minTrain, testSize, k), testSize, purge, embargo)
  {
    hide HonestAt, Ascending, EventsDistinct, EventsOf, FirstPerEvent, Filter, NotIn, EndsBefore, TrainsOn, Cursor;
    folds := [];
    var cursor := minTrain;
    NextCursor(minTrain, testSize, 0);
    while cursor < |ordered|
      invariant minTrain <= cursor == Cursor(minTrain, testSize, |folds|)
      invariant Tests(folds) == ordered[Upto(minTrain, |ordered|)..Upto(cursor, |ordered|)]
      invariant forall k :: 0 <= k < |folds| ==>
                  HonestAt(folds[k], ordered, Cursor(minTrain, testSize, k), testSize, purge, embargo)
      decreases |ordered| - cursor
    {
      var test := TestBlock(ordered, cursor, testSize);
      var train := ordered[..cursor];
      if purge {
        var cutoff := test[0].time - embargo;
        train := Filter(train, EndsBefore(cutoff));
      }
      var kept := Filter(test, NotIn(EventsOf(train)));
      TrainMembers(ordered[..cursor], purge, test[0].time - embargo);
      FoldIsHonest(ordered, cursor, testSize, purge, embargo, train);
      if kept != [] {
        TestsGrow(folds, Fold(train, kept));
        NextCursor(minTrain, testSize, |folds|);
        folds := folds + [Fold(train, kept)];
      }
      JoinSlices(ordered, minTrain, cursor, testSize);
      cursor := cursor + testSize;
    }
    assert ordered[Upto(minTrain, |ordered|)..|ordered|] == ordered[Upto(minTrain, |ordered|)..];
  }

  lemma NextCursor(minTrain: int, testSize: int, n: nat)
    ensures Cursor(minTrain, testSize, n + 1) == Cursor(minTrain, testSize, n) + testSize
    ensures Cursor(minTrain, testSize, 0) == minTrain
  {}

  lemma JoinSlices(ordered: seq<Row>, minTrain: int, cursor: int, testSize: int)
    requires 0 <= minTrain <= cursor < |ordered| && testSize > 0
    ensures ordered[Upto(minTrain, |ordered|)..Upto(cursor, |ordered|)] +
            TestBlock(ordered, cursor, testSize)
            == ordered[Upto(minTrain, |ordered|)..Upto(cursor + testSize, |ordered|)]
  {}

  lemma TestsGrow(folds: seq<Fold>, f: Fold)
    ensures Tests(folds + [f]) == Tests(folds) + f.test
  {
    assert (folds + [f])[..|folds|] == folds;
  }

  /** Removing train events from the test block removes nothing, because the
      ordered rows name every event once. */
  lemma FoldIsHonest(ordered: seq<Row>, cursor: nat, testSize: nat, purge: bool, embargo: real, train: seq<Row>)
    requires EventsDistinct(ordered) && Ascending(ordered, Time)
    requires cursor < |ordered| && testSize > 0
    requires TrainsOn(train, ordered[..cursor], purge, ordered[cursor].time - embargo)
    ensures var test := TestBlock(ordered, cursor, testSize);
            var kept := Filter(test, NotIn(EventsOf(train)));
            kept == test != [] && HonestAt(Fold(train, kept), ordered, cursor, testSize, purge, embargo)
  {
    var test := TestBlock(ordered, cursor, testSize);
    forall r, t | r in train && t in test ensures r.event != t.event && r.time <= t.time {
      PastAndFuture(ordered, cursor, Upto(cursor + testSize, |ordered|), r, t);
    }
    hide Ascending, EventsDistinct, TrainsOn;
    DisjointEvents(train, test);
    hide EventsOf, NotIn, Filter;
    FilterAll(test, NotIn(EventsOf(train)));
  }

  lemma TrainMembers(past: seq<Row>, purge: bool, cutoff: real)
    ensures TrainsOn(if purge then Filter(past, EndsBefore(cutoff)) else past, past, purge, cutoff)
  {
    FilterMembers(past, EndsBefore(cutoff));
  }

  lemma DisjointEvents(train: seq<Row>, test: seq<Row>)
    requires forall r, t :: r in train && t in test ==> r.event != t.event
    ensures EventsOf(train) !! EventsOf(test)
    ensures forall t :: t in test ==> NotIn(EventsOf(train))(t)
  {}

  lemma PastAndFuture(ordered: seq<Row>, cursor: nat, hi: nat, r: Row, t: Row)
    requires EventsDistinct(ordered) && Ascending(ordered, Time)
    requires cursor <= hi <= |ordered|
    requires r in ordered[..cursor] && t in ordered[cursor..hi]
    ensures r.event != t.event && r.time <= t.time
  {
    var i :| 0 <= i < cursor && ordered[i] == r;
    var j :| 0 <= j < hi - cursor && ordered[cursor..hi][j] == t;
    assert ordered[cursor + j] == t;
    assert Time(ordered[i]) <= Time(ordered[cursor + j]);
  }

  lemma {:induction false} FilterAll(rows: seq<Row>, p: Row -> bool)
    requires forall r :: r in rows ==> p(r)
    ensures Filter(rows, p) == rows
  {
    if rows == [] {
    } else {
      FilterAll(rows[1..], p);
      assert rows == [rows[0]] + rows[1..];
    }
  }

  /** Training sets only grow: a row used in one fold is used in every later one. */
  lemma TrainGrows(ordered: seq<Row>, f: Fold, g: Fold, c: nat, d: nat, testSize: nat, purge: bool, embargo: real)
    requires Ascending(ordered, Time) && c <= d < |ordered|
    requires Honest(f, ordered, c, testSize, purge, embargo)
    requires Honest(g, ordered, d, testSize, purge, embargo)
    ensures forall r :: r in f.train ==> r in g.train
  {
    assert Time(ordered[c]) <= Time(ordered[d]);
    forall r | r in f.train ensures r in g.train {
      assert r in ordered[..c];
      assert ordered[..d][..c] == ordered[..c];
    }
  }

  // --- Drawdown ------------------------------------------------------------

  function Drop(peak: real, e: real): real
    requires peak > 0.0
  {
    (peak - e) / peak
  }

  lemma HigherPeakDropsMore(p: real, q: real, e: real)
    requires 0.0 < p <= q && e > 0.0
    ensures Drop(p, e) <= Drop(q, e)
  {
    DropIsOneLessRatio(p, e);
    DropIsOneLessRatio(q, e);
    RatioFalls(p, q, e);
  }

  lemma DropIsOneLessRatio(p: real, e: real)
    requires p > 0.0
    ensures Drop(p, e) == 1.0 - e / p
  {
    DivideBack(e, p);
    DivideBack(p - e, p);
    CancelFactor((p - e) / p, 1.0 - e / p, p);
  }

  lemma CancelFactor(x: real, y: real, p: real)
    requires x * p == y * p && p != 0.0
    ensures x == y
  {}

  lemma RatioFalls(p: real, q: real, e: real)
    requires 0.0 < p <= q && e > 0.0
    ensures e / q <= e / p
  {
    var y := e / q;
    assert y * q == e && y > 0.0;
    assert y * p <= y * q;
    QuotientAtLeast(e, p, y);
  }

  lemma QuotientAtLeast(e: real, p: real, y: real)
    requires p > 0.0 && y * p <= e
    ensures y <= e / p
  {
    if e / p < y {
      ScalesStrictly(e / p, y, p);
      DivideBack(e, p);
      assert false;
    }
  }

  lemma DivideBack(e: real, p: real)
    requires p != 0.0
    ensures e / p * p == e
  {}

  lemma ScalesStrictly(x: real, y: real, p: real)
    requires x < y && p > 0.0
    ensures x * p < y * p
  {}

  lemma NoDropFromItself(e: real)
    requires e > 0.0
    ensures Drop(e, e) == 0.0
  {}

  /** One pass with a running peak finds the worst fall from any earlier high. */
  method MaxDrawdown(equity: seq<real>) returns (r: Result<real>)
    ensures r.ValueError? <==> exists i :: 0 <= i < |equity| && equity[i] <= 0.0
    ensures r.Ok? ==> forall i, j :: 0 <= i <= j < |equity| ==> Drop(equity[i], equity[j]) <= r.value
    ensures r.Ok? && equity == [] ==> r.value == 0.0
    ensures r.Ok? && equity != [] ==>
              exists i, j :: 0 <= i <= j < |equity| && r.value == Drop(equity[i], equity[j])
  {
    var n := 0;
    while n < |equity|
      invariant 0 <= n <= |equity|
      invariant forall i :: 0 <= i < n ==> equity[i] > 0.0
    {
      if equity[n] <= 0.0 {
        return ValueError("equity must be finite and positive");
      }
      n := n + 1;
    }
    var peak, worst := 0.0, 0.0;
    ghost var at := 0;
    var k := 0;
    while k < |equity|
      invariant 0 <= k <= |equity|
      invariant k > 0 ==> 0 <= at < k && peak == equity[at]
      invariant forall i :: 0 <= i < k ==> equity[i] <= peak
      invariant k == 0 ==> peak == 0.0
      invariant forall i, j :: 0 <= i <= j < k ==> Drop(equity[i], equity[j]) <= worst
      invariant k == 0 ==> worst == 0.0
      invariant k > 0 ==> exists i, j :: 0 <= i <= j < k && worst == Drop(equity[i], equity[j])
    {
      NoDropFromItself(equity[k]);
      hide Drop;
      if equity[k] > peak {
        at := k;
      }
      peak := Max(peak, equity[k]);
      forall i | 0 <= i <= k ensures Drop(equity[i], equity[k]) <= Drop(peak, equity[k]) {
        HigherPeakDropsMore(equity[i], peak, equity[k]);
      }
      worst := Max(worst, Drop(peak, equity[k]));
      k := k + 1;
    }
    r := Ok(worst);
  }
}
