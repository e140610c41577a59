/** Sweeping the venue's trade history for sells the bot did not place, and
    booking each of them once. A sweep may be cut off before any of its commits;
    the cursor and the ledger decide what the next sweep still has to do. */
module ManualTrades {
  import opened Lists
  import opened AverageCost
  import opened TradeFeed

  datatype Token = Yes | No

  datatype LiveFill = LiveFill(market: string, token: Token, fill: Fill, at: Option<real>)

  datatype SellRow = SellRow(market: string, token: Token, qty: real, at: Option<real>)

  /** The tables a sweep reads and other tasks write: tracked markets by
      condition, live fills in time order, ledger sells booked from fills, live
      positive cost-basis rows, and the day. Tokens are stored normalized. */
  datatype World = World(markets: map<string, string>, fills: seq<LiveFill>, sellRows: seq<SellRow>,
                         basis: map<(string, Token), Basis>, today: string)

  const WINDOW := 600.0
  const TOLERANCE := 0.02
  const EPSILON := 0.000000001

  function TokenOf(t: VenueTrade): Token {
    if t.outcomeIndex == 0 then Yes
    else if t.outcomeIndex == 1 then No
    else if t.outcome == "NO" then No else Yes
  }

  // --- Classification ------------------------------------------------------

  predicate Near(at: Option<real>, t: VenueTrade) {
    at.Some? && Abs(at.value - t.timestamp) <= WINDOW
  }

  predicate SameBook(f: LiveFill, market: string, token: Token) { f.market == market && f.token == token }

  predicate Counts(f: LiveFill, market: string, token: Token, side: Side, t: VenueTrade) {
    SameBook(f, market, token) && f.fill.side == side && Near(f.at, t)
  }

  function WindowTotal(fills: seq<LiveFill>, market: string, token: Token, side: Side, t: VenueTrade): real {
    if fills == [] then 0.0
    else
      var last := fills[|fills| - 1];
      WindowTotal(fills[..|fills| - 1], market, token, side, t) +
      if Counts(last, market, token, side, t) then last.fill.size else 0.0
  }

  predicate Explains(total: real, size: real) {
    total > 0.0 && size <= total * (1.0 + TOLERANCE) + EPSILON
  }

  method IsBotTrade(w: World, market: string, token: Token, side: Side, t: VenueTrade) returns (bot: bool)
    ensures bot == Explains(WindowTotal(w.fills, market, token, side, t), t.size)
  {
    var total := 0.0;
    var i := 0;
    while i < |w.fills|
      invariant 0 <= i <= |w.fills|
      invariant total == WindowTotal(w.fills[..i], market, token, side, t)
    {
      PrefixGrows(w.fills, i);
      var f := w.fills[i];
      if SameBook(f, market, token) && f.fill.side == side {
        if f.at.Some? && Abs(f.at.value - t.timestamp) <= WINDOW {
          total := total + f.fill.size;
        }
      }
      i := i + 1;
    }
    WholePrefix(w.fills);
    if total <= 0.0 {
      return false;
    }
    return t.size <= total * (1.0 + TOLERANCE) + EPSILON;
  }

  predicate Matches(r: SellRow, market: string, token: Token, t: VenueTrade) {
    && r.market == market && r.token == token
    && Abs(r.qty - t.size) <= t.size * TOLERANCE + EPSILON
    && (r.at.None? || Near(r.at, t))
  }

  predicate BookedFromFill(rows: seq<SellRow>, market: string, token: Token, t: VenueTrade) {
    exists i :: 0 <= i < |rows| && Matches(rows[i], market, token, t)
  }

  method BookedViaFillRef(w: World, market: string, token: Token, t: VenueTrade) returns (booked: bool)
    ensures booked == BookedFromFill(w.sellRows, market, token, t)
  {
    var i := 0;
    while i < |w.sellRows|
      invariant 0 <= i <= |w.sellRows|
      invariant forall k :: 0 <= k < i ==> !Matches(w.sellRows[k], market, token, t)
    {
      if Matches(w.sellRows[i], market, token, t) {
        return true;
      }
      i := i + 1;
    }
    return false;
  }

  // --- Cost basis of the position being sold --------------------------------

  function FillsFor(fills: seq<LiveFill>, market: string, token: Token): seq<Fill> {
    if fills == [] then []
    else
      var before := FillsFor(fills[..|fills| - 1], market, token);
      var last := fills[|fills| - 1];
      if SameBook(last, market, token) then before + [last.fill] else before
  }

  function WalkedBasis(fills: seq<LiveFill>, market: string, token: Token): Option<Basis> {
    var b := Walk(FillsFor(fills, market, token));
    if b.size <= 0.0 || b.avg <= 0.0 then None else Some(b)
  }

  /** The live row when there is one, else the average-cost walk of the fills. */
  function BasisOf(w: World, market: string, token: Token): Option<Basis> {
    if (market, token) in w.basis then Some(w.basis[(market, token)]) else WalkedBasis(w.fills, market, token)
  }

  ghost predicate FillsExecuted(fills: seq<LiveFill>) {
    forall i :: 0 <= i < |fills| ==> fills[i].fill.size >= 0.0
  }

  /** The third separately written walk: it keeps the old average on a buy that
      leaves nothing held, and clamps a sell at zero. It is the same walk. */
  method BasisFor(w: World, market: string, token: Token) returns (basis: Option<Basis>)
    requires FillsExecuted(w.fills)
    ensures basis == BasisOf(w, market, token)
  {
    hide Walk, Value, Apply;
    if (market, token) in w.basis {
      return Some(w.basis[(market, token)]);
    }
    var size, avg := 0.0, 0.0;
    WalkOfNothing();
    var i := 0;
    while i < |w.fills|
      invariant 0 <= i <= |w.fills|
      invariant Basis(size, avg) == Walk(FillsFor(w.fills[..i], market, token))
      invariant size >= 0.0 && (size == 0.0 ==> avg == 0.0)
    {
      PrefixGrows(w.fills, i);
      var f := w.fills[i];
      if SameBook(f, market, token) {
        ghost var before := FillsFor(w.fills[..i], market, token);
        WalkGrows(before, f.fill);
        ClampedStep(Basis(size, avg), f.fill);
        if f.fill.side == Buy {
          var newSize := size + f.fill.size;
          if newSize > 0.0 {
            avg := PerUnit(Value(size, avg) + Value(f.fill.size, f.fill.price), newSize);
          }
          size := newSize;
        } else {
          size := Max(0.0, size - f.fill.size);
          if size <= 0.0 {
            avg := 0.0;
          }
        }
      }
      i := i + 1;
    }
    WholePrefix(w.fills);
    if size <= 0.0 || avg <= 0.0 {
      return None;
    }
    return Some(Basis(size, avg));
  }

  lemma WalkOfNothing()
    ensures Walk([]) == FLAT
  {}

  lemma ClampedStep(b: Basis, f: Fill)
    requires b.size >= 0.0 && f.size >= 0.0 && (b.size == 0.0 ==> b.avg == 0.0)
    ensures Apply(b, f) ==
            if f.side.Buy? then
              Basis(b.size + f.size,
                    if b.size + f.size > 0.0
                    then PerUnit(Value(b.size, b.avg) + Value(f.size, f.price), b.size + f.size)
                    else b.avg)
            else
              Basis(Max(0.0, b.size - f.size), if Max(0.0, b.size - f.size) <= 0.0 then 0.0 else b.avg)
    ensures Apply(b, f).size >= 0.0 && (Apply(b, f).size == 0.0 ==> Apply(b, f).avg == 0.0)
  {
    hide Value, PerUnit;
  }

  // --- The decision on one trade --------------------------------------------

  datatype Booking = Booking(market: string, token: Token, qty: real, pnl: real, at: real)

  datatype Decision = Skip | Book(booking: Booking)

  function BookingOf(b: Basis, market: string, token: Token, t: VenueTrade): Booking {
    var qty := Min(t.size, b.size);
    Booking(market, token, qty, Value(qty, t.price - b.avg), t.timestamp)
  }

  function Decide(w: World, t: VenueTrade): Decision {
    if t.condition !in w.markets || t.side != "SELL" then Skip
    else
      var market := w.markets[t.condition];
      var token := TokenOf(t);
      if Explains(WindowTotal(w.fills, market, token, Sell, t), t.size) then Skip
      else if BookedFromFill(w.sellRows, market, token, t) then Skip
      else match BasisOf(w, market, token)
           case None => Skip
           case Some(b) => Book(BookingOf(b, market, token, t))
  }

  /** A manual sell books what the ledger's own rule would book for a fee-free
      sell against that basis, and never more than is held. */
  lemma BookingIsRealized(b: Basis, market: string, token: Token, t: VenueTrade)
    ensures var booked := BookingOf(b, market, token, t);
            && booked.pnl == Realized(b, Fill(Sell, t.size, t.price, 0.0))
            && booked.qty <= b.size && booked.qty <= t.size
  {}

  /** A bot sell in the window that covers the trade rules the booking out. */
  lemma BotSellNeverBooked(w: World, t: VenueTrade, i: nat)
    requires FillsExecuted(w.fills) && t.condition in w.markets && t.size > 0.0
    requires i < |w.fills| && Counts(w.fills[i], w.markets[t.condition], TokenOf(t), Sell, t)
    requires w.fills[i].fill.size >= t.size
    ensures Decide(w, t) == Skip
  {
    OneFillBounds(w.fills, w.markets[t.condition], TokenOf(t), Sell, t, i);
  }

  lemma {:induction false} OneFillBounds(fills: seq<LiveFill>, market: string, token: Token, side: Side,
                                         t: VenueTrade, i: nat)
    requires FillsExecuted(fills)
    requires i < |fills| ==> Counts(fills[i], market, token, side, t)
    ensures WindowTotal(fills, market, token, side, t) >= 0.0
    ensures i < |fills| ==> WindowTotal(fills, market, token, side, t) >= fills[i].fill.size
  {
    if fills == [] {
    } else {
      hide Counts;
      OneFillBounds(fills[..|fills| - 1], market, token, side, t, i);
    }
  }

  // --- The decision, written out --------------------------------------------

  /** A live sell of the bot's in this book, within ten minutes of the trade. */
  function BotSell(market: string, token: Token, t: VenueTrade): LiveFill -> bool {
    (f: LiveFill) => f.market == market && f.token == token && f.fill.side.Sell? && f.at.Some?
                     && -600.0 <= f.at.value - t.timestamp <= 600.0
  }

  function SizeSum(fills: seq<LiveFill>): real {
    if fills == [] then 0.0 else fills[0].fill.size + SizeSum(fills[1..])
  }

  lemma {:induction false} SizeSumGrows(fills: seq<LiveFill>, f: LiveFill)
    ensures SizeSum(fills + [f]) == SizeSum(fills) + f.fill.size
  {
    if fills == [] {
    } else {
      assert (fills + [f])[1..] == fills[1..] + [f];
      SizeSumGrows(fills[1..], f);
    }
  }

  lemma {:induction false} WindowIsSum(fills: seq<LiveFill>, market: string, token: Token, t: VenueTrade)
    ensures WindowTotal(fills, market, token, Sell, t) == SizeSum(Filter(fills, BotSell(market, token, t)))
  {
    if fills == [] {
    } else {
      var init, last := fills[..|fills| - 1], fills[|fills| - 1];
      WindowIsSum(init, market, token, t);
      FilterGrows(init, last, BotSell(market, token, t));
      SizeSumGrows(Filter(init, BotSell(market, token, t)), last);
      assert fills == init + [last];
      CountsIsBotSell(last, market, token, t);
      hide Filter, SizeSum, Counts, BotSell;
    }
  }

  lemma CountsIsBotSell(f: LiveFill, market: string, token: Token, t: VenueTrade)
    ensures Counts(f, market, token, Sell, t) <==> BotSell(market, token, t)(f)
  {}

  /** A sell row booked from a fill that is this trade: of its book, its size within two per
      cent, and its time within ten minutes where it has one. */
  predicate BookedAs(r: SellRow, market: string, token: Token, t: VenueTrade) {
    && r.market == market && r.token == token
    && -(t.size * 0.02 + 0.000000001) <= r.qty - t.size <= t.size * 0.02 + 0.000000001
    && (r.at.Some? ==> -600.0 <= r.at.value - t.timestamp <= 600.0)
  }

  /** The side a trade is on: by its outcome's index, and where that is neither, by name. */
  predicate OnSide(t: VenueTrade, token: Token) {
    match t.outcomeIndex
    case 0 => token.Yes?
    case 1 => token.No?
    case _ => token.No? <==> t.outcome == "NO"
  }

  /** A trade is booked exactly when it is a sell in a tracked market that the bot's sells
      within ten minutes do not cover up to two per cent, that no row booked from a fill
      stands for, and whose position has a cost basis. What is booked is then no more than is
      held, at the trade's price less the average cost, at the time of the trade. */
  lemma DecisionExact(w: World, t: VenueTrade, token: Token)
    requires OnSide(t, token)
    ensures Decide(w, t).Book? <==>
            && t.side == "SELL" && t.condition in w.markets
            && var market := w.markets[t.condition];
               var covered := SizeSum(Filter(w.fills, BotSell(market, token, t)));
               && !(covered > 0.0 && t.size <= covered * 1.02 + 0.000000001)
               && (forall i :: 0 <= i < |w.sellRows| ==> !BookedAs(w.sellRows[i], market, token, t))
               && BasisOf(w, market, token).Some?
    ensures Decide(w, t).Book? ==>
              var market, b := w.markets[t.condition], Decide(w, t).booking;
              var held := BasisOf(w, market, token).value;
              && b.market == market && b.token == token && b.at == t.timestamp
              && (t.size <= held.size ==> b.qty == t.size) && (t.size >= held.size ==> b.qty == held.size)
              && b.pnl == Value(b.qty, t.price - held.avg)
  {
    hide BasisOf, Value, WindowTotal, Filter, SizeSum, Matches, BookedAs;
    if t.condition in w.markets {
      var market := w.markets[t.condition];
      WindowIsSum(w.fills, market, token, t);
      forall i | 0 <= i < |w.sellRows|
        ensures Matches(w.sellRows[i], market, token, t) <==> BookedAs(w.sellRows[i], market, token, t)
      {
        MatchIsBooked(w.sellRows[i], market, token, t);
      }
    }
  }

  lemma MatchIsBooked(r: SellRow, market: string, token: Token, t: VenueTrade)
    ensures Matches(r, market, token, t) <==> BookedAs(r, market, token, t)
  {}

  // --- What a sweep does to the tables --------------------------------------

  datatype DayStats = DayStats(pnl: real, trades: int, wins: int, losses: int) {
    function Plus(o: DayStats): DayStats {
      DayStats(pnl + o.pnl, trades + o.trades, wins + o.wins, losses + o.losses)
    }
  }

  const NO_TRADES := DayStats(0.0, 0, 0, 0)

  datatype Accrual = Accrual(hash: string, day: string, pnl: real) {
    function Stats(): DayStats {
      DayStats(pnl, 1, if pnl > 0.0 then 1 else 0, if pnl < 0.0 then 1 else 0)
    }
  }

  /** The cursor row, the ledger rows of venue trades by transaction hash, and
      the daily totals. The last three fields are history and no table: where the
      clock started, which statistics were accrued, which trades were settled. */
  datatype State = State(cursor: Option<real>, ledger: map<string, Booking>, stats: map<string, DayStats>,
                         since: Option<real>, accrued: seq<Accrual>, settled: set<VenueTrade>)

  datatype Status = Alive | Crashed(at: VenueTrade)

  /** A sweep in progress, with the number of commits it still gets to make. */
  datatype Progress = Progress(state: State, budget: nat, status: Status)

  function StatsOn(stats: map<string, DayStats>, day: string): DayStats {
    if day in stats then stats[day] else NO_TRADES
  }

  function Advanced(cursor: Option<real>, to: real): Option<real> {
    if cursor.Some? then Some(Max(cursor.value, to)) else Some(to)
  }

  function InsertRow(s: State, t: VenueTrade, b: Booking): State {
    s.(ledger := s.ledger[t.hash := b])
  }

  /** One transaction: the statistics and the cursor. */
  function Accrue(s: State, day: string, t: VenueTrade, b: Booking): State {
    var a := Accrual(t.hash, day, b.pnl);
    s.(stats := s.stats[day := StatsOn(s.stats, day).Plus(a.Stats())],
       accrued := s.accrued + [a],
       cursor := Advanced(s.cursor, t.timestamp))
  }

  function Settled(p: Progress, t: VenueTrade): Progress {
    p.(state := p.state.(settled := p.state.settled + {t}))
  }

  function BookSell(p: Progress, day: string, t: VenueTrade, b: Booking): Progress {
    if t.hash in p.state.ledger then Settled(p, t)
    else if p.budget == 0 then p.(status := Crashed(t))
    else
      var inserted := InsertRow(p.state, t, b);
      if p.budget == 1 then Progress(inserted, 0, Crashed(t))
      else Settled(Progress(Accrue(inserted, day, t, b), p.budget - 2, Alive), t)
  }

  function Handle(p: Progress, w: World, t: VenueTrade): Progress {
    if p.status.Crashed? then p
    else match Decide(w, t)
         case Skip => Settled(p, t)
         case Book(b) => BookSell(p, w.today, t, b)
  }

  /** `world(t)` is what the other tables hold when `t` is examined. */
  function HandleAll(p: Progress, world: VenueTrade -> World, trades: seq<VenueTrade>): Progress {
    if trades == [] then p
    else
      var last := trades[|trades| - 1];
      Handle(HandleAll(p, world, trades[..|trades| - 1]), world(last), last)
  }

  function Finish(p: Progress, trades: seq<VenueTrade>): State {
    if trades == [] || p.status.Crashed? || p.budget == 0 then p.state
    else p.state.(cursor := Advanced(p.state.cursor, trades[|trades| - 1].timestamp))
  }

  function Process(s: State, world: VenueTrade -> World, trades: seq<VenueTrade>, budget: nat): State {
    Finish(HandleAll(Progress(s, budget, Alive), world, trades), trades)
  }

  function Sweep(s: State, venue: Venue, world: VenueTrade -> World, now: real, budget: nat): State {
    match s.cursor
    case None => if budget == 0 then s else s.(cursor := Some(now), since := Some(now))
    case Some(cursor) =>
      match Fetch(venue, cursor)
      case Raised(_) => s
      case Ok(trades) => Process(s, world, trades, budget)
  }

  class Sweeper {
    var cursor: Option<real>
    var ledger: map<string, Booking>
    var stats: map<string, DayStats>
    ghost var since: Option<real>
    ghost var accrued: seq<Accrual>
    ghost var settled: set<VenueTrade>

    ghost function Tables(): State
      reads this
    {
      State(cursor, ledger, stats, since, accrued, settled)
    }

    constructor ()
      ensures Tables() == State(None, map[], map[], None, [], {})
    {
      cursor, ledger, stats := None, map[], map[];
      since, accrued, settled := None, [], {};
    }

    method AdvanceCursor(to: real)
      modifies this`cursor
      ensures cursor == Advanced(old(cursor), to)
    {
      cursor := if cursor.Some? then Some(Max(cursor.value, to)) else Some(to);
    }

    /** The ledger row is committed first; statistics and cursor follow in one
        transaction of their own. `ok` is false when the sweep was cut off. */
    method BookManualSell(day: string, t: VenueTrade, b: Booking, budget: nat) returns (left: nat, ok: bool)
      modifies this
      ensures Progress(Tables(), left, if ok then Alive else Crashed(t))
              == BookSell(Progress(old(Tables()), budget, Alive), day, t, b)
    {
      left, ok := budget, true;
      if t.hash !in ledger {
        if left == 0 {
          return left, false;
        }
        ledger := ledger[t.hash := b];
        left := left - 1;
        if left == 0 {
          return left, false;
        }
        var a := Accrual(t.hash, day, b.pnl);
        stats := stats[day := StatsOn(stats, day).Plus(a.Stats())];
        accrued := accrued + [a];
        AdvanceCursor(t.timestamp);
        left := left - 1;
      }
      settled := settled + {t};
    }

    method Examine(w: World, t: VenueTrade, budget: nat) returns (left: nat, ok: bool)
      requires FillsExecuted(w.fills)
      modifies this
      ensures Progress(Tables(), left, if ok then Alive else Crashed(t))
              == Handle(Progress(old(Tables()), budget, Alive), w, t)
    {
      hide BookSell, Explains, WindowTotal, BookedFromFill, BasisOf, BookingOf;
      left, ok := budget, true;
      if t.condition in w.markets && t.side == "SELL" {
        var market, token := w.markets[t.condition], TokenOf(t);
        var bot := IsBotTrade(w, market, token, Sell, t);
        if !bot {
          var booked := BookedViaFillRef(w, market, token, t);
          if !booked {
            var basis := BasisFor(w, market, token);
            if basis.Some? {
              left, ok := BookManualSell(w.today, t, BookingOf(basis.value, market, token, t), budget);
              return;
            }
          }
        }
      }
      settled := settled + {t};
    }

    method SweepManualTrades(venue: Venue, world: VenueTrade -> World, now: real, budget: nat)
      requires forall t :: FillsExecuted(world(t).fills)
      modifies this
      ensures Tables() == Sweep(old(Tables()), venue, world, now, budget)
    {
      hide Handle, Fetch, FillsExecuted;
      if cursor.None? {
        if budget > 0 {
          cursor := Some(now);
          since := Some(now);
        }
        return;
      }
      var fetched := FetchTradesSince(venue, cursor.value);
      if fetched.Raised? {
        return;
      }
      var trades := fetched.trades;
      var left := budget;
      var i := 0;
      while i < |trades|
        invariant 0 <= i <= |trades|
        invariant Progress(Tables(), left, Alive)
                  == HandleAll(Progress(old(Tables()), budget, Alive), world, trades[..i])
      {
        PrefixGrows(trades, i);
        var ok;
        left, ok := Examine(world(trades[i]), trades[i], left);
        if !ok {
          ghost var here := Progress(Tables(), left, Crashed(trades[i]));
          assert here == HandleAll(Progress(old(Tables()), budget, Alive), world, trades[..i + 1]);
          CrashStops(Progress(old(Tables()), budget, Alive), world, trades, i + 1);
          return;
        }
        i := i + 1;
      }
      WholePrefix(trades);
      if trades != [] && left > 0 {
        AdvanceCursor(trades[|trades| - 1].timestamp);
      }
    }
  }

  /** Once a sweep is cut off, the trades still ahead change nothing. */
  lemma {:induction false} CrashStops(p: Progress, world: VenueTrade -> World, trades: seq<VenueTrade>, i: nat)
    requires i <= |trades| && HandleAll(p, world, trades[..i]).status.Crashed?
    ensures HandleAll(p, world, trades) == HandleAll(p, world, trades[..i])
  {
    if i == |trades| {
      WholePrefix(trades);
    } else {
      var init := trades[..|trades| - 1];
      assert init[..i] == trades[..i];
      CrashStops(p, world, init, i);
    }
  }
}
