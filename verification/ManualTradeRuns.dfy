/** Every run of manual-trade sweeps, each cut off wherever it may be. */
module ManualTradeRuns {
  import opened Lists
  import opened TradeFeed
  import opened ManualTrades

  // --- Book once, accrue at most once ---------------------------------------

  function Tally(accrued: seq<Accrual>, day: string): DayStats {
    if accrued == [] then NO_TRADES
    else
      var before := Tally(accrued[..|accrued| - 1], day);
      var last := accrued[|accrued| - 1];
      if last.day == day then before.Plus(last.Stats()) else before
  }

  ghost predicate HashesDistinct(accrued: seq<Accrual>) {
    forall i, j :: 0 <= i < j < |accrued| ==> accrued[i].hash != accrued[j].hash
  }

  ghost predicate Backed(s: State) {
    forall a :: a in s.accrued ==> a.hash in s.ledger && s.ledger[a.hash].pnl == a.pnl
  }

  ghost predicate TotalsMatch(base: map<string, DayStats>, s: State) {
    forall day :: StatsOn(s.stats, day) == StatsOn(base, day).Plus(Tally(s.accrued, day))
  }

  /** The daily totals are what they started as plus one accrual for each of some
      ledger rows, no row twice, each with the profit its ledger row carries. */
  ghost predicate Consistent(base: map<string, DayStats>, s: State) {
    HashesDistinct(s.accrued) && Backed(s) && TotalsMatch(base, s)
  }

  lemma HandleConsistent(base: map<string, DayStats>, p: Progress, w: World, t: VenueTrade)
    requires Consistent(base, p.state)
    ensures Consistent(base, Handle(p, w, t).state)
  {
    hide Decide, HashesDistinct, Accrue, TotalsMatch;
    if p.status.Alive? && Decide(w, t).Book? && t.hash !in p.state.ledger && p.budget >= 1 {
      var b := Decide(w, t).booking;
      InsertConsistent(base, p.state, t, b);
      AccrueConsistent(base, p.state, w.today, t, b);
    }
    assert TotalsMatch(base, Handle(p, w, t).state) by {
      SettledKeepsTotals(base, p.state, t);
      if p.status.Alive? && Decide(w, t).Book? && t.hash !in p.state.ledger && p.budget >= 2 {
        SettledKeepsTotals(base, Accrue(InsertRow(p.state, t, Decide(w, t).booking), w.today, t,
                                        Decide(w, t).booking), t);
      }
    }
  }

  lemma SettledKeepsTotals(base: map<string, DayStats>, s: State, t: VenueTrade)
    requires TotalsMatch(base, s)
    ensures TotalsMatch(base, s.(settled := s.settled + {t}))
  {}

  lemma InsertConsistent(base: map<string, DayStats>, s: State, t: VenueTrade, b: Booking)
    requires Consistent(base, s) && t.hash !in s.ledger
    ensures Consistent(base, InsertRow(s, t, b))
  {
    hide HashesDistinct;
  }

  lemma AccrueConsistent(base: map<string, DayStats>, s: State, day: string, t: VenueTrade, b: Booking)
    requires Consistent(base, s) && t.hash !in s.ledger
    ensures Consistent(base, Accrue(InsertRow(s, t, b), day, t, b))
  {
    hide TotalsMatch;
    TotalsGrow(base, s, day, t, b);
    forall i | 0 <= i < |s.accrued| ensures s.accrued[i].hash != t.hash {
      assert s.accrued[i] in s.accrued;
    }
  }

  lemma TotalsGrow(base: map<string, DayStats>, s: State, day: string, t: VenueTrade, b: Booking)
    requires TotalsMatch(base, s)
    ensures TotalsMatch(base, Accrue(InsertRow(s, t, b), day, t, b))
  {
    hide Accrual.Stats, DayStats.Plus, Tally;
    var a := Accrual(t.hash, day, b.pnl);
    var after := Accrue(InsertRow(s, t, b), day, t, b);
    forall d ensures StatsOn(after.stats, d) == StatsOn(base, d).Plus(Tally(after.accrued, d)) {
      TallyGrows(s.accrued, a, d);
      assert StatsOn(s.stats, d) == StatsOn(base, d).Plus(Tally(s.accrued, d));
      PlusAssociates(StatsOn(base, d), Tally(s.accrued, d), a.Stats());
    }
  }

  lemma TallyGrows(accrued: seq<Accrual>, a: Accrual, day: string)
    ensures Tally(accrued + [a], day)
         == if a.day == day then Tally(accrued, day).Plus(a.Stats()) else Tally(accrued, day)
  {
    hide Accrual.Stats, DayStats.Plus;
    assert (accrued + [a])[..|accrued|] == accrued;
  }

  lemma PlusAssociates(a: DayStats, b: DayStats, c: DayStats)
    ensures a.Plus(b).Plus(c) == a.Plus(b.Plus(c))
  {}

  lemma {:induction false} HandleAllConsistent(base: map<string, DayStats>, p: Progress, world: VenueTrade -> World,
                                               trades: seq<VenueTrade>)
    requires Consistent(base, p.state)
    ensures Consistent(base, HandleAll(p, world, trades).state)
    ensures Extends(p.state, HandleAll(p, world, trades).state)
  {
    if trades == [] {
    } else {
      hide Handle, Consistent;
      var last := trades[|trades| - 1];
      var before := HandleAll(p, world, trades[..|trades| - 1]);
      HandleAllConsistent(base, p, world, trades[..|trades| - 1]);
      HandleConsistent(base, before, world(last), last);
      HandleMoves(before, world(last), last);
    }
  }

  /** Booked rows stay as they are and the cursor never moves back. */
  ghost predicate Extends(s: State, r: State) {
    && (forall h :: h in s.ledger ==> h in r.ledger && r.ledger[h] == s.ledger[h])
    && (s.cursor.Some? ==> r.cursor.Some? && r.cursor.value >= s.cursor.value && r.since == s.since)
    && s.settled <= r.settled
  }

  lemma HandleMoves(p: Progress, w: World, t: VenueTrade)
    ensures Extends(p.state, Handle(p, w, t).state)
  {
    hide Decide;
  }

  /** One sweep, over whatever the venue answers, cut off anywhere. */
  lemma SweepSafe(base: map<string, DayStats>, s: State, venue: Venue, world: VenueTrade -> World, now: real,
                  budget: nat)
    requires Consistent(base, s)
    ensures Consistent(base, Sweep(s, venue, world, now, budget))
    ensures Extends(s, Sweep(s, venue, world, now, budget))
  {
    hide Fetch, HandleAll;
    if s.cursor.Some? && Fetch(venue, s.cursor.value).Ok? {
      var trades := Fetch(venue, s.cursor.value).trades;
      HandleAllConsistent(base, Progress(s, budget, Alive), world, trades);
    }
  }

  // --- What a crash can cost ------------------------------------------------

  ghost predicate IsAccrued(s: State, hash: string) {
    exists a :: a in s.accrued && a.hash == hash
  }

  ghost predicate Lost(before: State, after: State, hash: string) {
    hash !in before.ledger && hash in after.ledger && !IsAccrued(after, hash)
  }

  /** A row booked by a sweep misses its statistics exactly when the sweep was
      cut off right after writing that row. */
  lemma {:induction false} OnlyInterruptedRowsLost(s: State, world: VenueTrade -> World, trades: seq<VenueTrade>,
                                                   budget: nat, hash: string)
    requires Backed(s)
    ensures var p := HandleAll(Progress(s, budget, Alive), world, trades);
            && Backed(p.state) && Extends(s, p.state)
            && (p.status.Crashed? ==> p.budget == 0)
            && (Lost(s, p.state, hash) <==>
                  p.status.Crashed? && p.status.at.hash == hash && hash !in s.ledger && hash in p.state.ledger)
  {
    if trades == [] {
    } else {
      hide Backed, Lost, Extends, Handle;
      var init := trades[..|trades| - 1];
      var last := trades[|trades| - 1];
      OnlyInterruptedRowsLost(s, world, init, budget, hash);
      OneTradeLost(s, HandleAll(Progress(s, budget, Alive), world, init), world(last), last, hash);
    }
  }

  lemma OneTradeLost(s: State, p: Progress, w: World, t: VenueTrade, hash: string)
    requires Backed(p.state) && Extends(s, p.state)
    requires p.status.Crashed? ==> p.budget == 0
    requires Lost(s, p.state, hash) <==>
               p.status.Crashed? && p.status.at.hash == hash && hash !in s.ledger && hash in p.state.ledger
    ensures var q := Handle(p, w, t);
            && Backed(q.state) && Extends(s, q.state)
            && (q.status.Crashed? ==> q.budget == 0)
            && (Lost(s, q.state, hash) <==>
                  q.status.Crashed? && q.status.at.hash == hash && hash !in s.ledger && hash in q.state.ledger)
  {
    hide Decide;
    var q := Handle(p, w, t);
    if p.status.Alive? {
      if q.state.accrued != p.state.accrued {
        var a := q.state.accrued[|p.state.accrued|];
        assert a in q.state.accrued && a.hash == t.hash;
        forall x | x in p.state.accrued ensures x in q.state.accrued {}
        forall x | x in q.state.accrued ensures x in p.state.accrued || x == a {}
      }
    }
  }

  lemma AccruedKept(p: Progress, w: World, t: VenueTrade, hash: string)
    requires hash in p.state.ledger
    ensures hash in Handle(p, w, t).state.ledger
    ensures IsAccrued(Handle(p, w, t).state, hash) <==> IsAccrued(p.state, hash)
  {
    hide Decide;
    var q := Handle(p, w, t);
    if q.state.accrued != p.state.accrued {
      var a := q.state.accrued[|p.state.accrued|];
      assert q.state.accrued == p.state.accrued + [a] && a.hash == t.hash != hash;
    }
  }

  /** What is said of a row when it is booked is said for good: later sweeps do not
      accrue it. */
  lemma {:induction false} BookedStays(p: Progress, world: VenueTrade -> World, trades: seq<VenueTrade>, hash: string)
    requires hash in p.state.ledger
    ensures hash in HandleAll(p, world, trades).state.ledger
    ensures IsAccrued(HandleAll(p, world, trades).state, hash) <==> IsAccrued(p.state, hash)
  {
    if trades == [] {
    } else {
      hide Handle, IsAccrued;
      var last := trades[|trades| - 1];
      BookedStays(p, world, trades[..|trades| - 1], hash);
      AccruedKept(HandleAll(p, world, trades[..|trades| - 1]), world(last), last, hash);
    }
  }

  // --- A crash and a rerun ----------------------------------------------------

  function RowsAfter(rows: map<string, Booking>, world: VenueTrade -> World, trades: seq<VenueTrade>)
    : map<string, Booking>
  {
    if trades == [] then rows
    else
      var before := RowsAfter(rows, world, trades[..|trades| - 1]);
      var last := trades[|trades| - 1];
      match Decide(world(last), last)
      case Skip => before
      case Book(b) => if last.hash in before then before else before[last.hash := b]
  }

  /** How many trades a sweep settled before it was cut off. */
  function Done(p: Progress, world: VenueTrade -> World, trades: seq<VenueTrade>): (n: nat)
    ensures n <= |trades|
  {
    if trades == [] || HandleAll(p, world, trades).status.Alive? then |trades|
    else Done(p, world, trades[..|trades| - 1])
  }

  ghost predicate InTimeOrder(trades: seq<VenueTrade>) {
    forall i, j :: 0 <= i < j < |trades| ==> trades[i].timestamp <= trades[j].timestamp
  }

  ghost predicate Distinct(trades: seq<VenueTrade>) {
    forall i, j :: 0 <= i < j < |trades| ==> trades[i].timestamp < trades[j].timestamp
  }

  ghost predicate AllAfter(trades: seq<VenueTrade>, cursor: real) {
    forall i :: 0 <= i < |trades| ==> trades[i].timestamp > cursor
  }

  /** Where the cursor can be after `n` of the trades are settled. */
  ghost predicate CursorWithin(s: State, cursor: real, trades: seq<VenueTrade>, n: nat)
    requires n <= |trades|
  {
    && s.cursor.Some?
    && s.cursor.value >= cursor
    && s.cursor.value <= if n == 0 then cursor else trades[n - 1].timestamp
  }

  lemma HandleSettles(p: Progress, w: World, t: VenueTrade, cursor: real)
    requires p.status.Alive? && p.state.cursor.Some? && cursor <= p.state.cursor.value <= t.timestamp
    ensures var q := Handle(p, w, t);
            && q.state.since == p.state.since
            && q.state.settled == (if q.status.Alive? then p.state.settled + {t} else p.state.settled)
            && (if q.status.Alive? then q.state.cursor.Some? && cursor <= q.state.cursor.value <= t.timestamp
                else q.state.cursor == p.state.cursor)
  {
    hide Decide;
  }

  /** What a sweep that started at `cursor` has settled so far. */
  ghost predicate SettledPrefix(start: State, q: Progress, cursor: real, trades: seq<VenueTrade>, n: nat)
    requires n <= |trades|
  {
    && CursorWithin(q.state, cursor, trades, n)
    && (q.status.Alive? <==> n == |trades|)
    && q.state.since == start.since
    && q.state.settled == start.settled + (set t | t in trades[..n])
  }

  lemma {:induction false} HandleAllSettles(p: Progress, world: VenueTrade -> World, trades: seq<VenueTrade>)
    requires p.status.Alive? && p.state.cursor.Some?
    requires InTimeOrder(trades) && AllAfter(trades, p.state.cursor.value)
    ensures SettledPrefix(p.state, HandleAll(p, world, trades), p.state.cursor.value, trades, Done(p, world, trades))
  {
    if trades == [] {
    } else {
      var init := trades[..|trades| - 1];
      var last := trades[|trades| - 1];
      HandleAllSettles(p, world, init);
      var before := HandleAll(p, world, init);
      hide Handle, SettledPrefix;
      if before.status.Alive? {
        DoneWhenAlive(p, world, init);
        SettlesOneMore(p.state, before, world(last), p.state.cursor.value, trades);
      } else {
        CrashedStays(before, world(last), last);
        SettlesNoMore(p.state, before, p.state.cursor.value, trades, Done(p, world, init));
      }
    }
  }

  lemma SettlesOneMore(start: State, p: Progress, w: World, cursor: real, trades: seq<VenueTrade>)
    requires trades != [] && p.status.Alive? && InTimeOrder(trades) && AllAfter(trades, cursor)
    requires SettledPrefix(start, p, cursor, trades[..|trades| - 1], |trades| - 1)
    ensures var q := Handle(p, w, trades[|trades| - 1]);
            SettledPrefix(start, q, cursor, trades, if q.status.Alive? then |trades| else |trades| - 1)
  {
    hide Handle;
    var init, last := trades[..|trades| - 1], trades[|trades| - 1];
    HandleSettles(p, w, last, cursor);
    assert trades[..|trades|] == init + [last];
    assert init[..|init|] == init == trades[..|trades| - 1];
    assert (set t | t in init + [last]) == (set t | t in init) + {last};
  }

  lemma SettlesNoMore(start: State, p: Progress, cursor: real, trades: seq<VenueTrade>, n: nat)
    requires n < |trades| && p.status.Crashed?
    requires SettledPrefix(start, p, cursor, trades[..|trades| - 1], n)
    ensures SettledPrefix(start, p, cursor, trades, n)
  {
    assert trades[..|trades| - 1][..n] == trades[..n];
  }

  lemma CrashedStays(p: Progress, w: World, t: VenueTrade)
    requires p.status.Crashed?
    ensures Handle(p, w, t) == p
  {}

  /** The rows a cut-off sweep wrote are those of the trades it settled, and
      perhaps the row of the trade it was cut off at. */
  lemma {:induction false} HandleAllRows(p: Progress, world: VenueTrade -> World, trades: seq<VenueTrade>)
    returns (k: nat)
    requires p.status.Alive?
    ensures Done(p, world, trades) <= k <= |trades|
    ensures HandleAll(p, world, trades).state.ledger == RowsAfter(p.state.ledger, world, trades[..k])
  {
    if trades == [] {
      k := 0;
    } else {
      var init := trades[..|trades| - 1];
      var last := trades[|trades| - 1];
      var before := HandleAll(p, world, init);
      var j := HandleAllRows(p, world, init);
      hide Handle, Decide;
      assert trades[..j] == init[..j];
      HandleRow(before, world(last), last);
      var next := Handle(before, world(last), last);
      k := if before.status.Alive? && (next.status.Alive? || next.state.ledger != before.state.ledger)
           then |trades| else j;
      if before.status.Alive? {
        DoneWhenAlive(p, world, init);
        WholePrefix(init);
        OneMoreRow(p.state.ledger, world, init, last);
        assert trades == init + [last] && trades[..|trades|] == trades;
      }
      hide HandleAll, RowsAfter;
    }
  }

  lemma OneMoreRow(rows: map<string, Booking>, world: VenueTrade -> World, trades: seq<VenueTrade>, t: VenueTrade)
    ensures var before := RowsAfter(rows, world, trades);
            RowsAfter(rows, world, trades + [t])
            == match Decide(world(t), t)
               case Skip => before
               case Book(b) => if t.hash in before then before else before[t.hash := b]
  {
    hide Decide;
    assert (trades + [t])[..|trades|] == trades;
  }

  lemma HandleRow(p: Progress, w: World, t: VenueTrade)
    ensures var q := Handle(p, w, t);
            && (p.status.Crashed? ==> q == p)
            && (p.status.Alive? && (q.status.Alive? || q.state.ledger != p.state.ledger) ==>
                  q.state.ledger == match Decide(w, t)
                                    case Skip => p.state.ledger
                                    case Book(b) => if t.hash in p.state.ledger then p.state.ledger
                                                    else p.state.ledger[t.hash := b])
  {
    hide Decide;
  }

  lemma DoneWhenAlive(p: Progress, world: VenueTrade -> World, trades: seq<VenueTrade>)
    requires HandleAll(p, world, trades).status.Alive?
    ensures Done(p, world, trades) == |trades|
  {}

  lemma {:induction false} RowsKept(rows: map<string, Booking>, world: VenueTrade -> World, trades: seq<VenueTrade>)
    ensures forall h :: h in rows ==>
              h in RowsAfter(rows, world, trades) && RowsAfter(rows, world, trades)[h] == rows[h]
    ensures forall i :: 0 <= i < |trades| && Decide(world(trades[i]), trades[i]).Book? ==>
              trades[i].hash in RowsAfter(rows, world, trades)
  {
    if trades == [] {
    } else {
      hide Decide;
      RowsKept(rows, world, trades[..|trades| - 1]);
    }
  }

  lemma {:induction false} NothingToBook(rows: map<string, Booking>, world: VenueTrade -> World,
                                         trades: seq<VenueTrade>)
    requires forall i :: 0 <= i < |trades| && Decide(world(trades[i]), trades[i]).Book? ==> trades[i].hash in rows
    ensures RowsAfter(rows, world, trades) == rows
  {
    if trades == [] {
    } else {
      hide Decide;
      NothingToBook(rows, world, trades[..|trades| - 1]);
    }
  }

  /** Booking from the `m`-th trade on, after the first `k` were booked, books
      what one pass books, as long as no trade is left between. */
  lemma {:induction false} RowsResume(rows: map<string, Booking>, world: VenueTrade -> World, trades: seq<VenueTrade>,
                                      m: nat, k: nat)
    requires m <= k <= |trades|
    ensures RowsAfter(RowsAfter(rows, world, trades[..k]), world, trades[m..]) == RowsAfter(rows, world, trades)
  {
    if k == |trades| {
      hide Decide;
      WholePrefix(trades);
      RowsKept(rows, world, trades);
      NothingToBook(RowsAfter(rows, world, trades), world, trades[m..]);
    } else {
      hide Decide;
      var init := trades[..|trades| - 1];
      assert init[..k] == trades[..k];
      assert trades[m..][..|trades[m..]| - 1] == init[m..];
      RowsResume(rows, world, init, m, k);
    }
  }

  /** With commits enough for every trade no sweep is cut off. */
  lemma {:induction false} AmpleBudget(p: Progress, world: VenueTrade -> World, trades: seq<VenueTrade>)
    requires p.status.Alive? && p.budget >= 2 * |trades|
    ensures HandleAll(p, world, trades).status.Alive?
    ensures HandleAll(p, world, trades).budget >= p.budget - 2 * |trades|
  {
    if trades == [] {
    } else {
      hide Decide;
      AmpleBudget(p, world, trades[..|trades| - 1]);
    }
  }

  lemma FilterSuffix(trades: seq<VenueTrade>, cursor: real) returns (m: nat)
    requires InTimeOrder(trades)
    ensures m <= |trades|
    ensures Filter(trades, Newer(cursor)) == trades[m..]
    ensures forall i :: 0 <= i < m ==> trades[i].timestamp <= cursor
    ensures forall i :: m <= i < |trades| ==> trades[i].timestamp > cursor
    decreases |trades|
  {
    if trades == [] {
      m := 0;
    } else if trades[0].timestamp > cursor {
      m := 0;
      FilterAll(trades, cursor);
    } else {
      var rest := FilterSuffix(trades[1..], cursor);
      m := rest + 1;
      assert trades[1..][rest..] == trades[m..];
      assert forall i :: 1 <= i < |trades| ==> trades[i] == trades[1..][i - 1];
    }
  }

  lemma {:induction false} FilterAll(trades: seq<VenueTrade>, cursor: real)
    requires AllAfter(trades, cursor)
    ensures Filter(trades, Newer(cursor)) == trades
  {
    if trades == [] {
    } else {
      FilterAll(trades[1..], cursor);
      assert trades == [trades[0]] + trades[1..];
    }
  }

  /** A cut-off sweep booked a prefix of the batch, and the trades the next
      fetch returns are a suffix that leaves no gap after it. */
  lemma {:induction false} CutOff(s: State, world: VenueTrade -> World, trades: seq<VenueTrade>,
                                  cut: nat) returns (m: nat, k: nat)
    requires s.cursor.Some? && Distinct(trades) && AllAfter(trades, s.cursor.value)
    ensures m <= k <= |trades|
    ensures var crashed := Process(s, world, trades, cut);
            && crashed.cursor.Some?
            && crashed.ledger == RowsAfter(s.ledger, world, trades[..k])
            && Filter(trades, Newer(crashed.cursor.value)) == trades[m..]
            && AllAfter(trades[m..], crashed.cursor.value)
            && (m == |trades| && trades != [] ==> crashed.cursor == Some(trades[|trades| - 1].timestamp))
  {
    hide HandleAll, RowsAfter, Filter, Done;
    var p := Progress(s, cut, Alive);
    HandleAllSettles(p, world, trades);
    k := HandleAllRows(p, world, trades);
    m := FilterSuffix(trades, Process(s, world, trades, cut).cursor.value);
    if Process(s, world, trades, cut).cursor == HandleAll(p, world, trades).state.cursor {
      NoGap(HandleAll(p, world, trades).state, s.cursor.value, trades, Done(p, world, trades), m);
    }
  }

  lemma NoGap(s: State, cursor: real, trades: seq<VenueTrade>, n: nat, m: nat)
    requires n <= |trades| && m <= |trades|
    requires Distinct(trades) && AllAfter(trades, cursor) && CursorWithin(s, cursor, trades, n)
    requires m > 0 ==> trades[m - 1].timestamp <= s.cursor.value
    ensures m <= n
  {}

  /** What a state reached from `s` by sweeps cut off wherever they were still owes the
      batch: the rows of the first `k` trades are there, and the next fetch starts at the
      `m`-th, which is no later. */
  ghost predicate Reached(s: State, r: State, world: VenueTrade -> World, trades: seq<VenueTrade>, m: nat, k: nat) {
    && m <= k <= |trades| && r.cursor.Some?
    && r.ledger == RowsAfter(s.ledger, world, trades[..k])
    && Filter(trades, Newer(r.cursor.value)) == trades[m..] && AllAfter(trades[m..], r.cursor.value)
    && (m == |trades| ==> r.cursor == if trades == [] then s.cursor else Some(trades[|trades| - 1].timestamp))
  }

  /** An ample sweep from there ends where one uninterrupted sweep of the batch ends. */
  lemma RerunCompletes(s: State, r: State, world: VenueTrade -> World, trades: seq<VenueTrade>, m: nat, k: nat,
                       ample: nat)
    requires s.cursor.Some? && Distinct(trades) && AllAfter(trades, s.cursor.value)
    requires Reached(s, r, world, trades, m, k) && ample > 2 * |trades|
    ensures var rerun, straight := Process(r, world, trades[m..], ample), Process(s, world, trades, ample);
            rerun.ledger == straight.ledger && rerun.cursor == straight.cursor
  {
    hide Process, RowsAfter, Filter;
    RowsResume(s.ledger, world, trades, m, k);
    if trades == [] {
      NothingLeft(s, world, ample);
      NothingLeft(r, world, ample);
    } else {
      Uninterrupted(s, world, trades, ample);
      if m < |trades| {
        Uninterrupted(r, world, trades[m..], ample);
      } else {
        assert trades[m..] == [];
        NothingLeft(r, world, ample);
        WholePrefix(trades);
      }
    }
  }

  /** Cut off at any commit and run again, the sweep leaves the ledger and the
      cursor that an uninterrupted sweep leaves, when no two trades of the batch
      share a timestamp. */
  lemma CrashThenRerun(s: State, world: VenueTrade -> World, trades: seq<VenueTrade>, cut: nat, ample: nat)
    requires s.cursor.Some? && Distinct(trades) && AllAfter(trades, s.cursor.value)
    requires ample > 2 * |trades|
    ensures Process(s, world, trades, cut).cursor.Some?
    ensures var crashed := Process(s, world, trades, cut);
            var rerun := Process(crashed, world, Filter(trades, Newer(crashed.cursor.value)), ample);
            var straight := Process(s, world, trades, ample);
            rerun.ledger == straight.ledger && rerun.cursor == straight.cursor
  {
    hide Process, RowsAfter, Filter, Newer, Distinct, AllAfter;
    CutsThenRerun(s, world, trades, [cut], ample);
    assert [cut][..0] == [];
    assert CutSweeps(s, world, trades, []) == s;
    AllNewer(s, trades);
  }

  /** The trades of the batch that a fetch from a state's cursor returns. */
  function Unseen(s: State, trades: seq<VenueTrade>): seq<VenueTrade> {
    if s.cursor.Some? then Filter(trades, Newer(s.cursor.value)) else []
  }

  /** Sweeps of one batch, each allowed its own number of commits. */
  function CutSweeps(s: State, world: VenueTrade -> World, trades: seq<VenueTrade>, cuts: seq<nat>): State {
    if cuts == [] then s
    else
      var before := CutSweeps(s, world, trades, cuts[..|cuts| - 1]);
      Process(before, world, Unseen(before, trades), cuts[|cuts| - 1])
  }

  lemma AllNewer(s: State, trades: seq<VenueTrade>)
    requires s.cursor.Some? && AllAfter(trades, s.cursor.value)
    ensures Unseen(s, trades) == trades
  {
    FilterAll(trades, s.cursor.value);
  }

  /** However often the sweep of a batch is cut off, and wherever, an ample one after
      that leaves the ledger and the cursor of one uninterrupted sweep. */
  lemma CutsThenRerun(s: State, world: VenueTrade -> World, trades: seq<VenueTrade>, cuts: seq<nat>, ample: nat)
    requires s.cursor.Some? && Distinct(trades) && AllAfter(trades, s.cursor.value)
    requires ample > 2 * |trades|
    ensures CutSweeps(s, world, trades, cuts).cursor.Some?
    ensures var cut := CutSweeps(s, world, trades, cuts);
            var rerun := Process(cut, world, Unseen(cut, trades), ample);
            var straight := Process(s, world, trades, ample);
            rerun.ledger == straight.ledger && rerun.cursor == straight.cursor
  {
    hide Process, RowsAfter, Filter, Newer, Distinct, AllAfter, CutSweeps;
    var m, k := CutsReach(s, world, trades, cuts);
    RerunCompletes(s, CutSweeps(s, world, trades, cuts), world, trades, m, k, ample);
  }

  lemma {:induction false} CutsReach(s: State, world: VenueTrade -> World, trades: seq<VenueTrade>, cuts: seq<nat>)
    returns (m: nat, k: nat)
    requires s.cursor.Some? && Distinct(trades) && AllAfter(trades, s.cursor.value)
    ensures Reached(s, CutSweeps(s, world, trades, cuts), world, trades, m, k)
  {
    hide Process, Distinct;
    if cuts == [] {
      m, k := 0, 0;
      FilterAll(trades, s.cursor.value);
      hide Filter;
    } else {
      var n, j := CutsReach(s, world, trades, cuts[..|cuts| - 1]);
      var before := CutSweeps(s, world, trades, cuts[..|cuts| - 1]);
      assert Unseen(before, trades) == trades[n..];
      m, k := OneMoreCut(s, before, world, trades, cuts[|cuts| - 1], n, j);
      hide *;
    }
  }

  lemma OneMoreCut(s: State, r: State, world: VenueTrade -> World, trades: seq<VenueTrade>, cut: nat, n: nat, j: nat)
    returns (m: nat, k: nat)
    requires Distinct(trades) && Reached(s, r, world, trades, n, j)
    ensures Reached(s, Process(r, world, trades[n..], cut), world, trades, m, k)
  {
    hide Process, RowsAfter, Filter;
    var q := Process(r, world, trades[n..], cut);
    DistinctTail(trades, n);
    var rest, booked := CutOff(r, world, trades[n..], cut);
    k := if n + booked <= j then j else n + booked;
    assert trades[n..][..booked] == trades[n..n + booked];
    RowsOverlap(s.ledger, world, trades, n, n + booked, j);
    DistinctOrdered(trades);
    m := FilterSuffix(trades, q.cursor.value);
    if n + rest < |trades| {
      assert trades[n..][rest..][0] == trades[n + rest];
    }
    if n == |trades| {
      assert trades[n..] == [];
      NothingLeft(r, world, cut);
    }
  }

  lemma DistinctTail(trades: seq<VenueTrade>, n: nat)
    requires Distinct(trades) && n <= |trades|
    ensures Distinct(trades[n..])
  {}

  /** Booking a stretch that starts no later than the booked prefix ends. */
  lemma RowsOverlap(rows: map<string, Booking>, world: VenueTrade -> World, trades: seq<VenueTrade>, m: nat, n: nat,
                    k: nat)
    requires m <= k <= |trades| && m <= n <= |trades|
    ensures RowsAfter(RowsAfter(rows, world, trades[..k]), world, trades[m..n])
         == RowsAfter(rows, world, trades[..if n <= k then k else n])
  {
    hide RowsAfter, Decide;
    if n <= k {
      RowsKept(rows, world, trades[..k]);
      forall i | 0 <= i < n - m && Decide(world(trades[m..n][i]), trades[m..n][i]).Book?
        ensures trades[m..n][i].hash in RowsAfter(rows, world, trades[..k])
      {
        assert trades[m..n][i] == trades[..k][m + i];
      }
      NothingToBook(RowsAfter(rows, world, trades[..k]), world, trades[m..n]);
    } else {
      RowsResume(rows, world, trades[..n], m, k);
      assert trades[..n][..k] == trades[..k] && trades[..n][m..] == trades[m..n];
    }
  }

  lemma NothingLeft(s: State, world: VenueTrade -> World, budget: nat)
    ensures Process(s, world, [], budget) == s
    ensures RowsAfter(s.ledger, world, []) == s.ledger
  {}

  lemma {:induction false} Uninterrupted(s: State, world: VenueTrade -> World, trades: seq<VenueTrade>, budget: nat)
    requires s.cursor.Some? && trades != [] && InTimeOrder(trades) && AllAfter(trades, s.cursor.value)
    requires budget > 2 * |trades|
    ensures Process(s, world, trades, budget).ledger == RowsAfter(s.ledger, world, trades)
    ensures Process(s, world, trades, budget).cursor == Some(trades[|trades| - 1].timestamp)
    ensures Process(s, world, trades, budget).settled == s.settled + (set t | t in trades)
    ensures Process(s, world, trades, budget).since == s.since
  {
    hide HandleAll, RowsAfter, Done;
    var p := Progress(s, budget, Alive);
    AmpleBudget(p, world, trades);
    HandleAllSettles(p, world, trades);
    var k := HandleAllRows(p, world, trades);
    assert k == |trades|;
    WholePrefix(trades);
  }

  // --- Over a whole run of sweeps ---------------------------------------------

  function Reversed(trades: seq<VenueTrade>): seq<VenueTrade> {
    if trades == [] then [] else Reversed(trades[1..]) + [trades[0]]
  }

  /** One sweep against a wallet history of which the venue shows, newest first, the
      `shown(offset)` oldest trades when the page at `offset` is asked for, or fails to
      answer. */
  datatype Event = Event(shown: nat -> nat, up: bool, world: VenueTrade -> World, now: real, budget: nat)

  function VenueOf(history: seq<VenueTrade>, e: Event): Venue {
    if e.up then Growing(Reversed(history), e.shown) else (offset: nat) => None
  }

  /** Histories only grow, also between the pages of one sweep. */
  ghost predicate AllGrow(events: seq<Event>) {
    forall i :: 0 <= i < |events| ==> Grows(events[i].shown)
  }

  const INITIAL := State(None, map[], map[], None, [], {})

  function RunAll(s: State, history: seq<VenueTrade>, events: seq<Event>): State {
    if events == [] then s
    else
      var e := events[|events| - 1];
      Sweep(RunAll(s, history, events[..|events| - 1]), VenueOf(history, e), e.world, e.now, e.budget)
  }

  /** Every trade the cursor has passed since the clock started was settled. */
  ghost predicate NoneSkipped(history: seq<VenueTrade>, s: State) {
    s.cursor.Some? ==>
      && s.since.Some?
      && forall t :: t in history && s.since.value < t.timestamp <= s.cursor.value ==> t in s.settled
  }

  lemma {:induction false} ReversedKeeps(trades: seq<VenueTrade>)
    ensures multiset(Reversed(trades)) == multiset(trades)
  {
    if trades == [] {
    } else {
      ReversedKeeps(trades[1..]);
      assert trades == [trades[0]] + trades[1..];
    }
  }

  lemma {:induction false} ReversedTail(trades: seq<VenueTrade>, n: nat)
    requires n <= |trades|
    ensures |Reversed(trades)| == |trades| && Last(Reversed(trades), n) == Reversed(trades[..n])
  {
    if trades == [] {
    } else {
      ReversedTail(trades[1..], if n == 0 then 0 else n - 1);
      if n > 0 {
        assert trades[..n][1..] == trades[1..][..n - 1] && trades[..n][0] == trades[0];
      }
    }
  }

  lemma {:induction false} ReversedNewestFirst(trades: seq<VenueTrade>)
    requires InTimeOrder(trades)
    ensures NewestFirst(Reversed(trades))
  {
    if trades == [] {
    } else {
      var rest := Reversed(trades[1..]);
      ReversedNewestFirst(trades[1..]);
      ReversedKeeps(trades[1..]);
      forall i | 0 <= i < |rest| ensures rest[i].timestamp >= trades[0].timestamp {
        assert rest[i] in multiset(rest) && rest[i] in multiset(trades[1..]) && rest[i] in trades[1..];
      }
    }
  }

  lemma ReversedMembers(trades: seq<VenueTrade>)
    ensures forall t :: t in Reversed(trades) <==> t in trades
  {
    ReversedKeeps(trades);
    forall t ensures t in Reversed(trades) <==> t in trades {
      assert t in Reversed(trades) <==> t in multiset(Reversed(trades));
      assert t in trades <==> t in multiset(trades);
    }
  }

  /** What a fetch hands to the sweep, over a history that may grow meanwhile: the
      unseen part of the history at some moment between the first page and the last,
      in order, a trade perhaps more than once. */
  lemma FetchSees(history: seq<VenueTrade>, e: Event, cursor: real) returns (n: nat)
    requires InTimeOrder(history) && e.up && Grows(e.shown)
    ensures n <= |history| && Least(e.shown(0), |history|) <= n <= Least(e.shown(MAX_OFFSET), |history|)
    ensures var fetched := Fetch(VenueOf(history, e), cursor);
            && (fetched.Ok? ==> Ascending(fetched.trades, Timestamp)
                                && forall t :: t in fetched.trades <==> t in history[..n] && t.timestamp > cursor)
            && (|history| < REACH && AllIdentified(history) ==> fetched.Ok?)
  {
    hide Fetch, Reversed, Growing, Ascending, Last, OutOfReach;
    ReversedTail(history, 0);
    ReversedNewestFirst(history);
    n := FetchGrowing(Reversed(history), e.shown, cursor);
    ReversedTail(history, n);
    ReversedMembers(history[..n]);
    if |history| < REACH {
      WithinReach(Reversed(history), e.shown(MAX_OFFSET), cursor);
    }
    hide NewestFirst, Grows;
  }

  lemma WithinReach(feed: seq<VenueTrade>, n: nat, cursor: real)
    requires |feed| < REACH
    ensures !OutOfReach(Last(feed, n), cursor)
  {}

  // --- A trade met twice ---------------------------------------------------------

  /** A sorted batch without the repeats in it. */
  function Once(trades: seq<VenueTrade>): seq<VenueTrade> {
    if |trades| <= 1 then trades
    else
      var before := Once(trades[..|trades| - 1]);
      if trades[|trades| - 1] == trades[|trades| - 2] then before else before + [trades[|trades| - 1]]
  }

  /** Handling a trade again changes nothing: its row is there, or the sweep is over. */
  lemma HandleTwice(p: Progress, w: World, t: VenueTrade)
    ensures Handle(Handle(p, w, t), w, t) == Handle(p, w, t)
  {
    hide Decide;
    var q := Handle(p, w, t);
    assert q.status.Alive? ==> q.state.settled + {t} == q.state.settled;
  }

  lemma {:induction false} OnceEndsAlike(trades: seq<VenueTrade>)
    ensures |Once(trades)| == 0 <==> |trades| == 0
    ensures trades != [] ==> Once(trades)[|Once(trades)| - 1] == trades[|trades| - 1]
  {
    if |trades| <= 1 {
    } else {
      OnceEndsAlike(trades[..|trades| - 1]);
    }
  }

  lemma OneMoreHandled(p: Progress, world: VenueTrade -> World, trades: seq<VenueTrade>, t: VenueTrade)
    ensures HandleAll(p, world, trades + [t]) == Handle(HandleAll(p, world, trades), world(t), t)
  {
    hide Handle;
    assert (trades + [t])[..|trades|] == trades;
  }

  lemma HandledAgain(p: Progress, world: VenueTrade -> World, trades: seq<VenueTrade>)
    requires trades != []
    ensures var last := trades[|trades| - 1];
            Handle(HandleAll(p, world, trades), world(last), last) == HandleAll(p, world, trades)
  {
    hide Handle;
    var last := trades[|trades| - 1];
    HandleTwice(HandleAll(p, world, trades[..|trades| - 1]), world(last), last);
  }

  lemma {:induction false} RepeatsHandled(p: Progress, world: VenueTrade -> World, trades: seq<VenueTrade>)
    ensures HandleAll(p, world, Once(trades)) == HandleAll(p, world, trades)
  {
    if |trades| <= 1 {
    } else {
      hide Handle;
      var init, last := trades[..|trades| - 1], trades[|trades| - 1];
      RepeatsHandled(p, world, init);
      OneMoreHandled(p, world, init, last);
      assert trades == init + [last];
      if last == init[|init| - 1] {
        assert Once(trades) == Once(init);
        HandledAgain(p, world, init);
      } else {
        assert Once(trades) == Once(init) + [last];
        OneMoreHandled(p, world, Once(init), last);
      }
      hide HandleAll, Once;
    }
  }

  /** Booking by hash makes repeats harmless: a sweep over a batch that holds a trade
      more than once leaves what it leaves over the batch that holds it once. */
  lemma RepeatsHarmless(s: State, world: VenueTrade -> World, trades: seq<VenueTrade>, budget: nat)
    ensures Process(s, world, trades, budget) == Process(s, world, Once(trades), budget)
  {
    hide HandleAll, Once;
    OnceEndsAlike(trades);
    RepeatsHandled(Progress(s, budget, Alive), world, trades);
  }

  /** A sorted batch in which a timestamp belongs to one trade only. */
  ghost predicate OneEach(trades: seq<VenueTrade>) {
    forall a, b :: a in trades && b in trades && a.timestamp == b.timestamp ==> a == b
  }

  ghost predicate SameMembers(xs: seq<VenueTrade>, ys: seq<VenueTrade>) {
    forall t :: t in xs <==> t in ys
  }

  lemma {:induction false} OnceExact(trades: seq<VenueTrade>)
    requires InTimeOrder(trades) && OneEach(trades)
    ensures Distinct(Once(trades)) && SameMembers(Once(trades), trades)
  {
    if |trades| <= 1 {
    } else {
      var init, last := trades[..|trades| - 1], trades[|trades| - 1];
      BeforeLast(trades);
      OnceExact(init);
      OnceStillExact(init, last);
      hide *;
    }
  }

  lemma OnceStillExact(trades: seq<VenueTrade>, t: VenueTrade)
    requires trades != [] && Distinct(Once(trades)) && SameMembers(Once(trades), trades)
    requires trades[|trades| - 1] == t || trades[|trades| - 1].timestamp < t.timestamp
    ensures Distinct(Once(trades + [t])) && SameMembers(Once(trades + [t]), trades + [t])
  {
    hide *;
    OnceGrows(trades, t);
    if t == trades[|trades| - 1] {
      MembersRepeat(Once(trades), trades, t);
    } else {
      OnceEndsAlike(trades);
      LaterExtends(Once(trades), t);
      MembersGrow(Once(trades), trades, t);
    }
  }

  lemma OnceGrows(trades: seq<VenueTrade>, t: VenueTrade)
    requires trades != []
    ensures Once(trades + [t]) == if t == trades[|trades| - 1] then Once(trades) else Once(trades) + [t]
  {
    assert (trades + [t])[..|trades|] == trades;
  }

  lemma BeforeLast(trades: seq<VenueTrade>)
    requires |trades| > 1 && InTimeOrder(trades) && OneEach(trades)
    ensures InTimeOrder(trades[..|trades| - 1]) && OneEach(trades[..|trades| - 1])
    ensures trades == trades[..|trades| - 1] + [trades[|trades| - 1]]
    ensures trades[|trades| - 2] == trades[|trades| - 1]
            || trades[|trades| - 2].timestamp < trades[|trades| - 1].timestamp
  {
    assert trades[|trades| - 2] in trades && trades[|trades| - 1] in trades;
    assert trades == trades[..|trades| - 1] + [trades[|trades| - 1]];
  }

  lemma MembersRepeat(xs: seq<VenueTrade>, ys: seq<VenueTrade>, last: VenueTrade)
    requires SameMembers(xs, ys) && last in ys
    ensures SameMembers(xs, ys + [last])
  {}

  lemma MembersGrow(xs: seq<VenueTrade>, ys: seq<VenueTrade>, last: VenueTrade)
    requires SameMembers(xs, ys)
    ensures SameMembers(xs + [last], ys + [last])
  {}

  lemma LaterExtends(trades: seq<VenueTrade>, last: VenueTrade)
    requires Distinct(trades) && (trades != [] ==> trades[|trades| - 1].timestamp < last.timestamp)
    ensures Distinct(trades + [last])
  {}

  lemma {:induction false} SameStrictOrder(xs: seq<VenueTrade>, ys: seq<VenueTrade>)
    requires Distinct(xs) && Distinct(ys) && SameMembers(xs, ys)
    ensures xs == ys
  {
    if ys != [] {
      assert ys[0] in ys;
    }
    if xs == [] {
    } else {
      SameLast(xs, ys);
      hide *;
      SameStrictOrder(xs[..|xs| - 1], ys[..|ys| - 1]);
      assert xs == xs[..|xs| - 1] + [xs[|xs| - 1]] && ys == ys[..|ys| - 1] + [ys[|ys| - 1]];
    }
  }

  lemma SameLast(xs: seq<VenueTrade>, ys: seq<VenueTrade>)
    requires xs != [] && Distinct(xs) && Distinct(ys) && SameMembers(xs, ys)
    ensures ys != [] && xs[|xs| - 1] == ys[|ys| - 1]
    ensures Distinct(xs[..|xs| - 1]) && Distinct(ys[..|ys| - 1])
    ensures SameMembers(xs[..|xs| - 1], ys[..|ys| - 1])
  {
    assert xs[|xs| - 1] in xs;
    var x, y := xs[|xs| - 1], ys[|ys| - 1];
    assert y in xs && x in ys;
    LastIsLatest(xs);
    LastIsLatest(ys);
    hide Distinct;
    assert y == x || y.timestamp < x.timestamp;
    assert x == y || x.timestamp < y.timestamp;
    var xsBefore, ysBefore := xs[..|xs| - 1], ys[..|ys| - 1];
    forall t ensures t in xsBefore <==> t in ysBefore {
      assert t in xsBefore <==> t in xs && t != x;
      assert t in ysBefore <==> t in ys && t != y;
    }
  }

  lemma LastIsLatest(trades: seq<VenueTrade>)
    requires trades != [] && Distinct(trades)
    ensures Distinct(trades[..|trades| - 1])
    ensures forall t :: t in trades[..|trades| - 1] <==> t in trades && t != trades[|trades| - 1]
    ensures forall t :: t in trades ==> t == trades[|trades| - 1] || t.timestamp < trades[|trades| - 1].timestamp
  {
    var init, last := trades[..|trades| - 1], trades[|trades| - 1];
    assert trades == init + [last];
    forall t | t in init ensures t.timestamp < last.timestamp {
      var i :| 0 <= i < |init| && init[i] == t;
      assert trades[i] == t;
    }
  }

  lemma DistinctNewer(history: seq<VenueTrade>, n: nat, cursor: real)
    requires n <= |history| && Distinct(history[..n])
    ensures Distinct(Filter(history[..n], Newer(cursor)))
    ensures forall t :: t in Filter(history[..n], Newer(cursor)) <==> t in history[..n] && t.timestamp > cursor
  {
    DistinctOrdered(history[..n]);
    FilterMembers(history[..n], Newer(cursor));
    var m := FilterSuffix(history[..n], cursor);
    hide Filter;
  }

  lemma DistinctOrdered(trades: seq<VenueTrade>)
    requires Distinct(trades)
    ensures InTimeOrder(trades)
  {}

  /** A sweep over a history that grows between its pages is the sweep over the history
      of one moment, between its first page and its last. */
  lemma GrowingIsSnapshot(history: seq<VenueTrade>, s: State, e: Event) returns (n: nat)
    requires InTimeOrder(history) && e.up && Grows(e.shown) && s.cursor.Some?
    ensures n <= |history| && Least(e.shown(0), |history|) <= n <= Least(e.shown(MAX_OFFSET), |history|)
    ensures Distinct(history[..n]) && Fetch(VenueOf(history, e), s.cursor.value).Ok? ==>
              Sweep(s, VenueOf(history, e), e.world, e.now, e.budget)
              == Process(s, e.world, Filter(history[..n], Newer(s.cursor.value)), e.budget)
    ensures |history| < REACH && AllIdentified(history) ==> Fetch(VenueOf(history, e), s.cursor.value).Ok?
  {
    hide Process, Fetch, VenueOf, Filter, Once, Grows, Least, Newer, InTimeOrder;
    var cursor := s.cursor.value;
    n := FetchSees(history, e, cursor);
    if Distinct(history[..n]) && Fetch(VenueOf(history, e), cursor).Ok? {
      var trades := Fetch(VenueOf(history, e), cursor).trades;
      SortedInTime(trades);
      OneAtATime(history[..n], trades);
      OnceExact(trades);
      DistinctNewer(history, n, cursor);
      hide Distinct, Ascending;
      SameStrictOrder(Once(trades), Filter(history[..n], Newer(cursor)));
      RepeatsHarmless(s, e.world, trades, e.budget);
    }
  }

  lemma SortedInTime(trades: seq<VenueTrade>)
    requires Ascending(trades, Timestamp)
    ensures InTimeOrder(trades)
  {
    forall i, j | 0 <= i < j < |trades| ensures trades[i].timestamp <= trades[j].timestamp {
      assert Timestamp(trades[i]) <= Timestamp(trades[j]);
    }
  }

  lemma OneAtATime(history: seq<VenueTrade>, trades: seq<VenueTrade>)
    requires Distinct(history) && forall t :: t in trades ==> t in history
    ensures OneEach(trades)
  {
    forall a, b | a in trades && b in trades && a.timestamp == b.timestamp ensures a == b {
      var i :| 0 <= i < |history| && history[i] == a;
      var j :| 0 <= j < |history| && history[j] == b;
    }
  }

  /** With distinct timestamps one sweep skips nothing, wherever it is cut off. */
  lemma SweepSkipsNone(history: seq<VenueTrade>, s: State, e: Event)
    requires Distinct(history) && NoneSkipped(history, s) && Grows(e.shown)
    ensures NoneSkipped(history, Sweep(s, VenueOf(history, e), e.world, e.now, e.budget))
  {
    hide Distinct, Fetch, Process, VenueOf, Grows;
    if s.cursor.Some? {
      hide NoneSkipped;
      FetchedSkipsNone(history, s, e);
    }
  }

  lemma FetchedSkipsNone(history: seq<VenueTrade>, s: State, e: Event)
    requires Distinct(history) && NoneSkipped(history, s) && Grows(e.shown) && s.cursor.Some?
    ensures NoneSkipped(history, Sweep(s, VenueOf(history, e), e.world, e.now, e.budget))
  {
    hide NoneSkipped, Fetch, Process, Grows, Filter;
    if e.up {
      hide VenueOf;
      DistinctOrdered(history);
      var n := GrowingIsSnapshot(history, s, e);
      PrefixDistinct(history, n);
      hide Distinct;
      var m := FilterSuffix(history[..n], s.cursor.value);
      if Fetch(VenueOf(history, e), s.cursor.value).Ok? {
        ProcessSkipsNone(history, s, e.world, e.budget, n, m);
      }
    } else {
      DownRaises(VenueOf(history, e), s.cursor.value);
    }
  }

  lemma PrefixDistinct(trades: seq<VenueTrade>, n: nat)
    requires Distinct(trades) && n <= |trades|
    ensures Distinct(trades[..n]) && InTimeOrder(trades[..n])
  {}

  lemma DownRaises(venue: Venue, cursor: real)
    requires venue == ((offset: nat) => None)
    ensures Fetch(venue, cursor).Raised?
  {}

  lemma ProcessSkipsNone(history: seq<VenueTrade>, s: State, world: VenueTrade -> World, budget: nat, n: nat, m: nat)
    requires Distinct(history) && NoneSkipped(history, s) && s.cursor.Some?
    requires m <= n <= |history|
    requires forall i :: 0 <= i < m ==> history[i].timestamp <= s.cursor.value
    requires forall i :: m <= i < n ==> history[i].timestamp > s.cursor.value
    ensures NoneSkipped(history, Process(s, world, history[..n][m..], budget))
  {
    hide HandleAll, Done;
    var trades := history[..n][m..];
    var p := Progress(s, budget, Alive);
    HandleAllSettles(p, world, trades);
    var done := Done(p, world, trades);
    var after := Process(s, world, trades, budget);
    assert done > 0 ==> trades[done - 1] == history[m + done - 1];
    forall t | t in history && s.since.value < t.timestamp <= after.cursor.value ensures t in after.settled {
      if t.timestamp > s.cursor.value {
        var i :| 0 <= i < |history| && history[i] == t;
        assert m <= i;
        assert i < m + done;
        assert trades[..done][i - m] == t;
      }
    }
  }

  lemma {:induction false} RunSkipsNone(history: seq<VenueTrade>, events: seq<Event>)
    requires Distinct(history) && AllGrow(events)
    ensures NoneSkipped(history, RunAll(INITIAL, history, events))
  {
    if events == [] {
      assert NoneSkipped(history, INITIAL);
    } else {
      hide Sweep, NoneSkipped, Grows;
      var e := events[|events| - 1];
      var before := RunAll(INITIAL, history, events[..|events| - 1]);
      RunSkipsNone(history, events[..|events| - 1]);
      SweepSkipsNone(history, before, e);
    }
  }

  /** Over every run, with any venue failures and any cut-offs: rows and cursor
      only grow, each transaction is booked at most once and accrued at most once. */
  lemma {:induction false} RunConsistent(history: seq<VenueTrade>, events: seq<Event>, k: nat)
    requires k <= |events|
    ensures Consistent(map[], RunAll(INITIAL, history, events))
    ensures Extends(RunAll(INITIAL, history, events[..k]), RunAll(INITIAL, history, events))
  {
    if events == [] {
      StartsConsistent();
    } else {
      hide Sweep, Consistent, Extends;
      var e := events[|events| - 1];
      var init := events[..|events| - 1];
      var before := RunAll(INITIAL, history, init);
      RunConsistent(history, init, if k < |events| then k else 0);
      SweepSafe(map[], before, VenueOf(history, e), e.world, e.now, e.budget);
      var after := RunAll(INITIAL, history, events);
      if k < |events| {
        assert init[..k] == events[..k];
        ExtendsTransitive(RunAll(INITIAL, history, events[..k]), before, after);
      } else {
        WholePrefix(events);
        ExtendsTransitive(after, after, after);
      }
    }
  }

  lemma StartsConsistent()
    ensures Consistent(map[], INITIAL)
  {
    hide DayStats.Plus;
    forall day ensures StatsOn(INITIAL.stats, day) == StatsOn(map[], day).Plus(Tally(INITIAL.accrued, day)) {
      PlusNothing(NO_TRADES);
    }
  }

  lemma PlusNothing(a: DayStats)
    ensures a.Plus(NO_TRADES) == a
  {}

  lemma ExtendsTransitive(r: State, s: State, t: State)
    ensures Extends(t, t)
    ensures Extends(r, s) && Extends(s, t) ==> Extends(r, t)
  {}

  // --- Which rows are without statistics, over a whole run --------------------

  /** The ledger holds the row and no statistics were accrued for it. */
  ghost predicate Orphan(s: State, hash: string) { hash in s.ledger && !IsAccrued(s, hash) }

  /** The sweep is cut off right after it wrote the row. */
  ghost predicate CutAfterRow(s: State, venue: Venue, world: VenueTrade -> World, budget: nat, hash: string) {
    && s.cursor.Some? && Fetch(venue, s.cursor.value).Ok? && hash !in s.ledger
    && var p := HandleAll(Progress(s, budget, Alive), world, Fetch(venue, s.cursor.value).trades);
       p.status.Crashed? && p.status.at.hash == hash && hash in p.state.ledger
  }

  ghost predicate CutAt(history: seq<VenueTrade>, events: seq<Event>, i: nat, hash: string)
    requires i < |events|
  {
    var e := events[i];
    CutAfterRow(RunAll(INITIAL, history, events[..i]), VenueOf(history, e), e.world, e.budget, hash)
  }

  lemma SweepOrphans(s: State, venue: Venue, world: VenueTrade -> World, now: real, budget: nat, hash: string)
    requires Backed(s)
    ensures Orphan(Sweep(s, venue, world, now, budget), hash)
       <==> Orphan(s, hash) || CutAfterRow(s, venue, world, budget, hash)
  {
    hide Fetch, HandleAll, Backed, IsAccrued;
    if s.cursor.Some? && Fetch(venue, s.cursor.value).Ok? {
      var trades := Fetch(venue, s.cursor.value).trades;
      var p := HandleAll(Progress(s, budget, Alive), world, trades);
      if hash in s.ledger {
        BookedStays(Progress(s, budget, Alive), world, trades, hash);
      } else {
        OnlyInterruptedRowsLost(s, world, trades, budget, hash);
      }
      assert Orphan(p.state, hash) <==> Orphan(s, hash) || CutAfterRow(s, venue, world, budget, hash);
      FinishKeepsRows(p, trades, hash);
    } else {
      SameRows(s, Sweep(s, venue, world, now, budget), hash);
    }
  }

  lemma SameRows(r: State, s: State, hash: string)
    requires r.ledger == s.ledger && r.accrued == s.accrued
    ensures Orphan(r, hash) <==> Orphan(s, hash)
  {}

  lemma FinishKeepsRows(p: Progress, trades: seq<VenueTrade>, hash: string)
    ensures Orphan(Finish(p, trades), hash) <==> Orphan(p.state, hash)
  {}

  ghost predicate SomeCut(history: seq<VenueTrade>, events: seq<Event>, hash: string) {
    exists i :: 0 <= i < |events| && CutAt(history, events, i, hash)
  }

  lemma CutInPrefix(history: seq<VenueTrade>, events: seq<Event>, k: nat, i: nat, hash: string)
    requires i < k <= |events|
    ensures CutAt(history, events[..k], i, hash) <==> CutAt(history, events, i, hash)
  {
    hide RunAll, CutAfterRow, VenueOf;
    assert events[..k][..i] == events[..i];
  }

  lemma OneMoreSweep(history: seq<VenueTrade>, events: seq<Event>, hash: string)
    requires events != []
    ensures SomeCut(history, events, hash)
       <==> SomeCut(history, events[..|events| - 1], hash) || CutAt(history, events, |events| - 1, hash)
  {
    hide CutAt;
    var n := |events| - 1;
    if i :| 0 <= i < |events| && CutAt(history, events, i, hash) {
      if i < n {
        CutInPrefix(history, events, n, i, hash);
      }
    }
    if i :| 0 <= i < n && CutAt(history, events[..n], i, hash) {
      CutInPrefix(history, events, n, i, hash);
    }
  }

  /** Over every run of sweeps, a ledger row is without statistics exactly when some
      sweep of the run was cut off right after writing it. */
  lemma {:induction false} OrphansExact(history: seq<VenueTrade>, events: seq<Event>, hash: string)
    ensures Orphan(RunAll(INITIAL, history, events), hash) <==> SomeCut(history, events, hash)
  {
    hide Sweep, CutAfterRow, VenueOf, IsAccrued;
    if events == [] {
      NothingYet(history, hash);
    } else {
      hide Orphan, SomeCut;
      var e, init := events[|events| - 1], events[..|events| - 1];
      OrphansExact(history, init, hash);
      OneMoreSweep(history, events, hash);
      BackedRun(history, init);
      SweepOrphans(RunAll(INITIAL, history, init), VenueOf(history, e), e.world, e.now, e.budget, hash);
    }
  }

  lemma NothingYet(history: seq<VenueTrade>, hash: string)
    ensures !Orphan(RunAll(INITIAL, history, []), hash) && !SomeCut(history, [], hash)
  {}

  /** No later sweep makes up for it. */
  lemma OrphansStay(history: seq<VenueTrade>, events: seq<Event>, k: nat, hash: string)
    requires k <= |events| && Orphan(RunAll(INITIAL, history, events[..k]), hash)
    ensures Orphan(RunAll(INITIAL, history, events), hash)
  {
    hide Orphan, RunAll, CutAt;
    OrphansExact(history, events[..k], hash);
    OrphansExact(history, events, hash);
    var i :| 0 <= i < k && CutAt(history, events[..k], i, hash);
    CutInPrefix(history, events, k, i, hash);
  }

  lemma BackedRun(history: seq<VenueTrade>, events: seq<Event>)
    ensures Backed(RunAll(INITIAL, history, events))
  {
    hide RunAll;
    RunConsistent(history, events, 0);
  }

  // --- What the daily statistics count ----------------------------------------

  function OnDay(day: string): Accrual -> bool { (a: Accrual) => a.day == day }

  function WonOn(day: string): Accrual -> bool { (a: Accrual) => a.day == day && a.pnl > 0.0 }

  function LostOn(day: string): Accrual -> bool { (a: Accrual) => a.day == day && a.pnl < 0.0 }

  function PnlSum(accrued: seq<Accrual>): real {
    if accrued == [] then 0.0 else accrued[0].pnl + PnlSum(accrued[1..])
  }

  lemma {:induction false} PnlSumGrows(accrued: seq<Accrual>, a: Accrual)
    ensures PnlSum(accrued + [a]) == PnlSum(accrued) + a.pnl
  {
    if accrued == [] {
    } else {
      assert (accrued + [a])[1..] == accrued[1..] + [a];
      PnlSumGrows(accrued[1..], a);
    }
  }

  /** The accruals of one day, as a day's statistics. */
  function Counted(accrued: seq<Accrual>, day: string): DayStats {
    DayStats(PnlSum(Filter(accrued, OnDay(day))), |Filter(accrued, OnDay(day))|, |Filter(accrued, WonOn(day))|,
             |Filter(accrued, LostOn(day))|)
  }

  lemma CountedGrows(accrued: seq<Accrual>, a: Accrual, day: string)
    ensures var before := Counted(accrued, day);
            Counted(accrued + [a], day) ==
            if a.day != day then before
            else DayStats(before.pnl + a.pnl, before.trades + 1, before.wins + (if a.pnl > 0.0 then 1 else 0),
                          before.losses + if a.pnl < 0.0 then 1 else 0)
  {
    FilterGrows(accrued, a, OnDay(day));
    FilterGrows(accrued, a, WonOn(day));
    FilterGrows(accrued, a, LostOn(day));
    if a.day == day {
      PnlSumGrows(Filter(accrued, OnDay(day)), a);
    }
    hide Filter, PnlSum;
  }

  lemma {:induction false} TallyCounts(accrued: seq<Accrual>, day: string)
    ensures Tally(accrued, day) == Counted(accrued, day)
  {
    if accrued == [] {
    } else {
      hide Counted;
      var init, last := accrued[..|accrued| - 1], accrued[|accrued| - 1];
      TallyCounts(init, day);
      CountedGrows(init, last, day);
      assert accrued == init + [last];
    }
  }

  /** Over every run of sweeps the statistics of a day are the sum of the profits accrued
      that day, their number, and the numbers of those that are gains and of those that are
      losses. */
  lemma RunCounts(history: seq<VenueTrade>, events: seq<Event>, day: string)
    ensures var s := RunAll(INITIAL, history, events); StatsOn(s.stats, day) == Counted(s.accrued, day)
  {
    hide RunAll, Counted, Tally;
    RunConsistent(history, events, 0);
    var s := RunAll(INITIAL, history, events);
    TallyCounts(s.accrued, day);
    assert StatsOn(s.stats, day) == StatsOn(map[], day).Plus(Tally(s.accrued, day));
  }

  // --- Exactly when nothing is skipped ----------------------------------------

  const NO_TABLES := World(map[], [], [], map[], "")

  function Start(now: real): Event { Event(_ => 0, false, _ => NO_TABLES, now, 1) }

  function Look(seen: nat): Event { Event(_ => seen, true, _ => NO_TABLES, 0.0, 3) }

  /** A trade that shares its timestamp with the one before it is passed over
      when a sweep runs between the venue's showing the two. */
  lemma TieIsSkipped(history: seq<VenueTrade>, i: nat) returns (events: seq<Event>)
    requires InTimeOrder(history) && AllIdentified(history) && i + 1 < |history| < REACH
    requires Distinct(history[..i + 1])
    requires history[i] != history[i + 1] && history[i].timestamp == history[i + 1].timestamp
    ensures AllGrow(events) && !NoneSkipped(history, RunAll(INITIAL, history, events))
  {
    hide Sweep, RunAll;
    if i > 0 {
      DistinctAt(history, i + 1, i - 1, i);
    }
    var now := if i == 0 then history[i].timestamp - 1.0 else history[i - 1].timestamp;
    events := [Start(now), Look(i + 1)];
    RunOfTwo(history, Start(now), Look(i + 1));
    StartsAt(history, now);
    LookSettlesLast(history, i, now);
    assert history[i + 1] in history;
  }

  lemma StartsAt(history: seq<VenueTrade>, now: real)
    ensures Sweep(INITIAL, VenueOf(history, Start(now)), Start(now).world, Start(now).now, Start(now).budget)
         == INITIAL.(cursor := Some(now), since := Some(now))
  {}

  lemma LookSettlesLast(history: seq<VenueTrade>, i: nat, now: real)
    requires InTimeOrder(history) && AllIdentified(history) && i < |history| < REACH
    requires Distinct(history[..i + 1])
    requires now < history[i].timestamp && (i > 0 ==> now == history[i - 1].timestamp)
    ensures var first := INITIAL.(cursor := Some(now), since := Some(now));
            var after := Sweep(first, VenueOf(history, Look(i + 1)), Look(i + 1).world, Look(i + 1).now,
                               Look(i + 1).budget);
            && after.cursor == Some(history[i].timestamp) && after.since == Some(now)
            && after.settled == {history[i]}
  {
    hide Process, Fetch, Filter, Reversed, Sweep;
    var first := INITIAL.(cursor := Some(now), since := Some(now));
    var n := GrowingIsSnapshot(history, first, Look(i + 1));
    assert n == i + 1;
    var m := FilterSuffix(history[..i + 1], now);
    assert history[..i + 1][m..] == [history[i]];
    Uninterrupted(first, Look(i + 1).world, [history[i]], 3);
  }

  lemma RunOfTwo(history: seq<VenueTrade>, a: Event, b: Event)
    ensures RunAll(INITIAL, history, [a, b])
         == Sweep(Sweep(INITIAL, VenueOf(history, a), a.world, a.now, a.budget), VenueOf(history, b), b.world, b.now,
                  b.budget)
  {
    hide Sweep;
    assert [a, b][..1] == [a];
    assert [a][..0] == [];
    assert RunAll(INITIAL, history, [a][..0]) == INITIAL;
    assert RunAll(INITIAL, history, [a]) == Sweep(INITIAL, VenueOf(history, a), a.world, a.now, a.budget);
  }

  lemma FirstTie(history: seq<VenueTrade>, n: nat) returns (i: nat)
    requires InTimeOrder(history) && n <= |history| && !Distinct(history[..n])
    ensures i + 1 < |history| && history[i].timestamp == history[i + 1].timestamp
    ensures Distinct(history[..i + 1])
  {
    if Distinct(history[..n - 1]) {
      i := n - 2;
      DistinctGrows(history, n);
    } else {
      i := FirstTie(history, n - 1);
    }
  }

  lemma DistinctGrows(history: seq<VenueTrade>, n: nat)
    requires InTimeOrder(history) && 0 < n <= |history| && Distinct(history[..n - 1]) && !Distinct(history[..n])
    ensures n >= 2 && history[n - 2].timestamp == history[n - 1].timestamp
  {
    if n >= 2 && history[n - 2].timestamp < history[n - 1].timestamp {
      DistinctExtends(history, n);
    }
  }

  lemma DistinctExtends(history: seq<VenueTrade>, n: nat)
    requires 2 <= n <= |history| && Distinct(history[..n - 1])
    requires history[n - 2].timestamp < history[n - 1].timestamp
    ensures Distinct(history[..n])
  {
    forall i, j | 0 <= i < j < n ensures history[i].timestamp < history[j].timestamp {
      if j < n - 1 {
        DistinctAt(history, n - 1, i, j);
      } else if i < n - 2 {
        DistinctAt(history, n - 1, i, n - 2);
      }
    }
  }

  lemma DistinctAt(history: seq<VenueTrade>, n: nat, i: nat, j: nat)
    requires i < j < n <= |history| && Distinct(history[..n])
    ensures history[i].timestamp < history[j].timestamp
  {
    assert history[..n][i] == history[i] && history[..n][j] == history[j];
  }

  /** The cursor never passes an unsettled trade, in any run, exactly when no two
      trades of the wallet share a timestamp. */
  lemma NoneSkippedIffDistinct(history: seq<VenueTrade>)
    requires InTimeOrder(history) && AllIdentified(history) && |history| < REACH
    requires forall i, j :: 0 <= i < j < |history| ==> history[i] != history[j]
    ensures Distinct(history)
       <==> forall events :: AllGrow(events) ==> NoneSkipped(history, RunAll(INITIAL, history, events))
  {
    hide AllGrow, NoneSkipped;
    if Distinct(history) {
      forall events | AllGrow(events) ensures NoneSkipped(history, RunAll(INITIAL, history, events)) {
        RunSkipsNone(history, events);
      }
    } else {
      WholePrefix(history);
      var i := FirstTie(history, |history|);
      var events := TieIsSkipped(history, i);
      assert !NoneSkipped(history, RunAll(INITIAL, history, events));
    }
  }
}
