/** Session-by-session replay of the momentum book. Each session is a function
    of the day's tape: the day's closes, and for every instrument the window of
    closes strictly before the day. */
module MomentumReplay {
  import opened Lists

  datatype Series = Series(key: string, bars: seq<(int, real)>)

  datatype Rules = Rules(
    budget: real, maxPositions: nat, maxPositionPct: real, maxDeploymentPct: real,
    riskPerPositionPct: real, maxClassRiskPct: real, stopVolMultiple: real, minStopPct: real,
    slippageBps: real, stopLossPct: real, takeProfitPct: real, minMomentum: real,
    exitMomentum: real, spreadBps: real, window: nat, warmup: nat)
  {
    function Half(): real { spreadBps / 2.0 / 10000.0 }

    function Bid(close: real): real { close * (1.0 - Half()) }

    function Ask(close: real): real { close * (1.0 + Half()) }

    /** A percentage of the budget. */
    function Share(pct: real): real { budget * pct / 100.0 }

    function ClassRiskCap(): real { Share(maxClassRiskPct) }

    function DeploymentCap(): real { Share(maxDeploymentPct) }
  }

  /** The signal functions, left uninterpreted: the replay may not depend on how
      they work, only on what they are shown. `dailySigma` scales an annual
      volatility to one day. */
  datatype Signals = Signals(momentum: seq<real> -> Option<real>, volatility: seq<real> -> Option<real>,
                             dailySigma: real -> real)

  datatype Holding = Holding(key: string, entry: real, quantity: real, stop: real, date: int,
                             assetClass: string, risk: real, entryCommission: real)
  {
    function Cost(): real { entry * quantity }
  }

  datatype Trip = Trip(key: string, assetClass: string, entryDate: int, exitDate: int, entryPrice: real,
                       exitPrice: real, quantity: real, gross: real, commission: real, reason: string)

  datatype Book = Book(open: seq<Holding>, trips: seq<Trip>)

  datatype Quote = Quote(key: string, close: Option<real>, window: seq<real>)

  // --- The tape ------------------------------------------------------------

  /** The close of a day; a later bar for the same day replaces an earlier one. */
  function CloseOn(bars: seq<(int, real)>, day: int): Option<real> {
    if bars == [] then None
    else if bars[|bars| - 1].0 == day then Some(bars[|bars| - 1].1)
    else CloseOn(bars[..|bars| - 1], day)
  }

  /** A zero close counts as no close. */
  function Priced(bars: seq<(int, real)>, day: int): Option<real> {
    match CloseOn(bars, day)
    case Some(c) => if c == 0.0 then None else Some(c)
    case None => None
  }

  /** The closes an instrument showed in the first `n` sessions. */
  function History(bars: seq<(int, real)>, dates: seq<int>, n: nat): seq<real>
    requires n <= |dates|
  {
    if n == 0 then []
    else
      var before := History(bars, dates, n - 1);
      match Priced(bars, dates[n - 1])
      case Some(c) => before + [c]
      case None => before
  }

  /** The last `w` elements; the whole list for a window of zero. */
  function Trailing(h: seq<real>, w: nat): seq<real> {
    if w == 0 || w >= |h| then h else h[|h| - w..]
  }

  function QuoteAt(s: Series, dates: seq<int>, n: nat, window: nat): Quote
    requires n < |dates|
  {
    Quote(s.key, Priced(s.bars, dates[n]), Trailing(History(s.bars, dates, n), window))
  }

  function Tape(market: seq<Series>, dates: seq<int>, n: nat, window: nat): seq<Quote>
    requires n < |dates|
  {
    seq(|market|, i requires 0 <= i < |market| => QuoteAt(market[i], dates, n, window))
  }

  /** The quote of a key; nothing is known of a key the tape does not list. */
  function QuoteOf(tape: seq<Quote>, key: string): Quote {
    if tape == [] then Quote(key, None, [])
    else if tape[0].key == key then tape[0]
    else QuoteOf(tape[1..], key)
  }

  // --- One session ---------------------------------------------------------

  function ClassOf(classes: map<string, string>, key: string): string {
    if key in classes then classes[key] else "unknown"
  }

  function AdverseSell(bid: real, slippageBps: real): real { bid * (1.0 - slippageBps / 10000.0) }

  function AdverseBuy(ask: real, slippageBps: real): real { ask * (1.0 + slippageBps / 10000.0) }

  function Commission(notional: real): real { Max(1.0, Min(notional * 0.001, 10.0)) }

  function GainPct(h: Holding, bid: real): real {
    if h.entry == 0.0 then 0.0 else (bid / h.entry - 1.0) * 100.0
  }

  /** Why a holding is closed at this quote, if it is. */
  function ExitReason(p: Rules, sig: Signals, h: Holding, close: real, window: seq<real>): Option<string> {
    var bid := p.Bid(close);
    if bid <= h.stop then Some("stop")
    else if GainPct(h, bid) <= -p.stopLossPct then Some("stop_loss_pct")
    else if GainPct(h, bid) >= p.takeProfitPct then Some("take_profit")
    else
      match sig.momentum(window)
      case Some(m) => if m <= p.exitMomentum then Some("momentum") else None
      case None => None
  }

  function Close(p: Rules, classes: map<string, string>, h: Holding, day: int, close: real, reason: string): Trip {
    var exitPrice := AdverseSell(p.Bid(close), p.slippageBps);
    Trip(h.key, ClassOf(classes, h.key), h.date, day, h.entry, exitPrice, h.quantity,
         Amount(h.quantity, exitPrice - h.entry), h.entryCommission + Commission(Amount(h.quantity, exitPrice)), reason)
  }

  function Exits(p: Rules, sig: Signals, classes: map<string, string>, day: int, tape: seq<Quote>, open: seq<Holding>)
    : Book
  {
    if open == [] then Book([], [])
    else
      var before := Exits(p, sig, classes, day, tape, open[..|open| - 1]);
      var h := open[|open| - 1];
      var q := QuoteOf(tape, h.key);
      match q.close
      case None => before.(open := before.open + [h])
      case Some(c) =>
        match ExitReason(p, sig, h, c, q.window)
        case None => before.(open := before.open + [h])
        case Some(reason) => before.(trips := before.trips + [Close(p, classes, h, day, c, reason)])
  }

  datatype Candidate = Candidate(momentum: real, key: string, close: real, volatility: real)

  function Strength(c: Candidate): real { -c.momentum }

  predicate Holds(open: seq<Holding>, key: string) {
    exists i :: 0 <= i < |open| && open[i].key == key
  }

  /** The candidate that a quote makes, if it makes one. */
  function CandidateOf(p: Rules, sig: Signals, q: Quote, open: seq<Holding>): Option<Candidate> {
    if Holds(open, q.key) || q.close.None? then None
    else
      match (sig.momentum(q.window), sig.volatility(q.window))
      case (Some(m), Some(v)) => if m < p.minMomentum then None else Some(Candidate(m, q.key, q.close.value, v))
      case _ => None
  }

  function Candidates(p: Rules, sig: Signals, tape: seq<Quote>, open: seq<Holding>): seq<Candidate> {
    if tape == [] then []
    else
      var before := Candidates(p, sig, tape[..|tape| - 1], open);
      var next := CandidateOf(p, sig, tape[|tape| - 1], open);
      if next.Some? then before + [next.value] else before
  }

  function Deployed(open: seq<Holding>): real {
    if open == [] then 0.0
    else Deployed(open[..|open| - 1]) + open[|open| - 1].Cost()
  }

  function ClassRisk(open: seq<Holding>, assetClass: string): real {
    if open == [] then 0.0
    else
      var h := open[|open| - 1];
      ClassRisk(open[..|open| - 1], assetClass) + if h.assetClass == assetClass then h.risk else 0.0
  }

  function FloorTo4(x: real): (r: real)
    ensures r <= x
  {
    (x * 10000.0).Floor as real / 10000.0
  }

  function Amount(quantity: real, unit: real): real { quantity * unit }

  lemma AmountSign(quantity: real, unit: real)
    ensures quantity >= 0.0 && unit >= 0.0 ==> Amount(quantity, unit) >= 0.0
  {}

  /** The largest size, in ten-thousandths, that both budgets can carry. */
  function Quantity(target: real, unitCost: real, riskBudget: real, unitRisk: real): (q: real)
    requires unitCost > 0.0 && unitRisk > 0.0
    ensures Amount(q, unitCost) <= target && Amount(q, unitRisk) <= riskBudget
    ensures q >= 0.0 ==> Amount(q, unitRisk) >= 0.0
  {
    var q := Min(FloorTo4(target / unitCost), FloorTo4(riskBudget / unitRisk));
    ScaledQuotient(q, target, unitCost);
    ScaledQuotient(q, riskBudget, unitRisk);
    AmountSign(q, unitRisk);
    q
  }

  lemma ScaledQuotient(q: real, total: real, d: real)
    requires d > 0.0 && q <= total / d
    ensures Amount(q, d) <= total
  {
    assert total / d * d == total;
    assert (total / d - q) * d >= 0.0;
  }

  function StopDistance(p: Rules, sig: Signals, price: real, volatility: real): real {
    Max(price * p.minStopPct / 100.0, price * sig.dailySigma(volatility) * p.stopVolMultiple)
  }

  datatype Proposal = Proposal(quantity: real, price: real, stop: real, risk: real)

  /** Sizes one entry, failing closed on invalid prices or exhausted budgets. */
  function Propose(p: Rules, sig: Signals, assetClass: string, c: Candidate, deployed: real, classRisk: real)
    : Option<Proposal>
  {
    var ask := p.Ask(c.close);
    var bid := p.Bid(c.close);
    if c.key == "" || assetClass == "" || ask <= 0.0 || bid <= 0.0 || ask < bid || c.volatility <= 0.0
       || deployed < 0.0 || classRisk < 0.0 || c.close <= 0.0 || p.budget <= 0.0 then None
    else
      var target := Min(p.Share(p.maxPositionPct), p.DeploymentCap() - deployed);
      var price := AdverseBuy(ask, p.slippageBps);
      var distance := StopDistance(p, sig, price, c.volatility);
      var riskBudget := Min(p.Share(p.riskPerPositionPct), p.ClassRiskCap() - classRisk);
      if target <= 0.0 || riskBudget <= 0.0 || distance <= 0.0 then None
      else
        var quantity := Quantity(target, c.close, riskBudget, distance);
        if quantity <= 0.0 then None
        else Some(Proposal(quantity, price, price - distance, Amount(quantity, distance)))
  }

  function TryEnter(p: Rules, sig: Signals, classes: map<string, string>, day: int, open: seq<Holding>, c: Candidate)
    : seq<Holding>
  {
    var assetClass := ClassOf(classes, c.key);
    match Propose(p, sig, assetClass, c, Deployed(open), ClassRisk(open, assetClass))
    case None => open
    case Some(o) => open + [Bought(c.key, assetClass, day, o)]
  }

  function Bought(key: string, assetClass: string, day: int, o: Proposal): Holding {
    Holding(key, o.price, o.quantity, o.stop, day, assetClass, o.risk, Commission(Amount(o.quantity, o.price)))
  }

  function Enter(p: Rules, sig: Signals, classes: map<string, string>, day: int, cands: seq<Candidate>,
                 open: seq<Holding>)
    : seq<Holding>
  {
    if cands == [] then open
    else
      var before := Enter(p, sig, classes, day, cands[..|cands| - 1], open);
      if |before| >= p.maxPositions then before
      else TryEnter(p, sig, classes, day, before, cands[|cands| - 1])
  }

  function Session(p: Rules, sig: Signals, classes: map<string, string>, day: int, tape: seq<Quote>, book: Book): Book {
    var e := Exits(p, sig, classes, day, tape, book.open);
    var open := if |e.open| >= p.maxPositions then e.open
                else Enter(p, sig, classes, day, SortBy(Candidates(p, sig, tape, e.open), Strength), e.open);
    Book(open, book.trips + e.trips)
  }

  /** The book after the first `n` sessions. */
  function RunTo(p: Rules, sig: Signals, classes: map<string, string>, market: seq<Series>, dates: seq<int>,
                 n: nat): Book
    requires n <= |dates|
  {
    if n == 0 then Book([], [])
    else
      var before := RunTo(p, sig, classes, market, dates, n - 1);
      if n - 1 < p.warmup then before
      else Session(p, sig, classes, dates[n - 1], Tape(market, dates, n - 1, p.window), before)
  }

  // --- The sessions of a market --------------------------------------------

  function InsertDay(day: int, days: seq<int>): seq<int> {
    if days == [] then [day]
    else if day < days[0] then [day] + days
    else if day == days[0] then days
    else [days[0]] + InsertDay(day, days[1..])
  }

  function DaysOfBars(bars: seq<(int, real)>): seq<int> {
    if bars == [] then [] else InsertDay(bars[|bars| - 1].0, DaysOfBars(bars[..|bars| - 1]))
  }

  function MergeDays(xs: seq<int>, ys: seq<int>): seq<int> {
    if xs == [] then ys else InsertDay(xs[0], MergeDays(xs[1..], ys))
  }

  function Dates(market: seq<Series>): seq<int> {
    if market == [] then []
    else MergeDays(DaysOfBars(market[|market| - 1].bars), Dates(market[..|market| - 1]))
  }

  predicate Rising(days: seq<int>) {
    forall i, j :: 0 <= i < j < |days| ==> days[i] < days[j]
  }

  lemma {:induction false} InsertDayExact(day: int, days: seq<int>)
    requires Rising(days)
    ensures Rising(InsertDay(day, days))
    ensures forall x :: x in InsertDay(day, days) <==> x in days || x == day
  {
    if days == [] || day <= days[0] {
    } else {
      InsertDayExact(day, days[1..]);
      assert days == [days[0]] + days[1..];
      var r := InsertDay(day, days[1..]);
      forall j | 0 <= j < |r| ensures days[0] < r[j] {
        assert r[j] in r;
        assert r[j] == day || r[j] in days[1..];
      }
    }
  }

  lemma {:induction false} DaysOfBarsExact(bars: seq<(int, real)>)
    ensures Rising(DaysOfBars(bars))
    ensures forall x :: x in DaysOfBars(bars) <==> CloseOn(bars, x).Some?
  {
    if bars == [] {
    } else {
      DaysOfBarsExact(bars[..|bars| - 1]);
      InsertDayExact(bars[|bars| - 1].0, DaysOfBars(bars[..|bars| - 1]));
    }
  }

  lemma {:induction false} MergeDaysExact(xs: seq<int>, ys: seq<int>)
    requires Rising(ys)
    ensures Rising(MergeDays(xs, ys))
    ensures forall x :: x in MergeDays(xs, ys) <==> x in xs || x in ys
  {
    if xs == [] {
    } else {
      MergeDaysExact(xs[1..], ys);
      InsertDayExact(xs[0], MergeDays(xs[1..], ys));
      assert xs == [xs[0]] + xs[1..];
    }
  }

  ghost predicate Trades(market: seq<Series>, day: int) {
    exists i :: 0 <= i < |market| && CloseOn(market[i].bars, day).Some?
  }

  /** The sessions are the days on which any instrument has a bar, in order. */
  lemma {:induction false} DatesExact(market: seq<Series>)
    ensures Rising(Dates(market))
    ensures forall x :: x in Dates(market) <==> Trades(market, x)
  {
    if market == [] {
    } else {
      var init := market[..|market| - 1];
      var last := market[|market| - 1];
      DatesExact(init);
      DaysOfBarsExact(last.bars);
      MergeDaysExact(DaysOfBars(last.bars), Dates(init));
      forall x ensures Trades(market, x) <==> Trades(init, x) || CloseOn(last.bars, x).Some? {
        if Trades(init, x) {
          var i :| 0 <= i < |init| && CloseOn(init[i].bars, x).Some?;
          assert CloseOn(market[i].bars, x).Some?;
        }
        if Trades(market, x) {
          var i :| 0 <= i < |market| && CloseOn(market[i].bars, x).Some?;
          assert i < |init| ==> init[i] == market[i];
        }
      }
    }
  }

  // --- No lookahead --------------------------------------------------------

  /** Two markets with the same instruments and the same closes up to a day. */
  ghost predicate AgreeUpto(a: seq<Series>, b: seq<Series>, day: int) {
    && |a| == |b|
    && (forall i :: 0 <= i < |a| ==> a[i].key == b[i].key)
    && (forall i, x :: 0 <= i < |a| && x <= day ==> CloseOn(a[i].bars, x) == CloseOn(b[i].bars, x))
  }

  /** What a session shows the signals depends on earlier closes only: the closes
      of the session itself and of everything after may be anything. */
  lemma {:induction false} WindowIgnoresToday(a: seq<(int, real)>, b: seq<(int, real)>, dates: seq<int>, n: nat)
    requires n <= |dates|
    requires forall k :: 0 <= k < n ==> CloseOn(a, dates[k]) == CloseOn(b, dates[k])
    ensures History(a, dates, n) == History(b, dates, n)
  {
    if n == 0 {
    } else {
      WindowIgnoresToday(a, b, dates, n - 1);
    }
  }

  lemma {:induction false} HistoryReadsPrefix(bars: seq<(int, real)>, da: seq<int>, db: seq<int>, n: nat)
    requires n <= |da| && n <= |db| && da[..n] == db[..n]
    ensures History(bars, da, n) == History(bars, db, n)
  {
    if n == 0 {
    } else {
      assert da[..n - 1] == da[..n][..n - 1] == db[..n][..n - 1] == db[..n - 1];
      assert da[n - 1] == da[..n][n - 1] == db[..n][n - 1] == db[n - 1];
      HistoryReadsPrefix(bars, da, db, n - 1);
    }
  }

  lemma SameTape(a: seq<Series>, b: seq<Series>, da: seq<int>, db: seq<int>, n: nat, window: nat, day: int)
    requires AgreeUpto(a, b, day)
    requires n < |da| && n < |db| && da[..n + 1] == db[..n + 1]
    requires forall k :: 0 <= k <= n ==> da[k] <= day
    ensures Tape(a, da, n, window) == Tape(b, db, n, window)
  {
    assert da[..n] == da[..n + 1][..n] == db[..n + 1][..n] == db[..n];
    assert da[n] == da[..n + 1][n] == db[..n + 1][n] == db[n];
    forall i | 0 <= i < |a| ensures QuoteAt(a[i], da, n, window) == QuoteAt(b[i], db, n, window) {
      WindowIgnoresToday(a[i].bars, b[i].bars, da, n);
      HistoryReadsPrefix(b[i].bars, da, db, n);
    }
  }

  lemma {:induction false} SameRun(p: Rules, sig: Signals, classes: map<string, string>, a: seq<Series>, b: seq<Series>,
                                   da: seq<int>, db: seq<int>, n: nat, day: int)
    requires AgreeUpto(a, b, day)
    requires n <= |da| && n <= |db| && da[..n] == db[..n]
    requires forall k :: 0 <= k < n ==> da[k] <= day
    ensures RunTo(p, sig, classes, a, da, n) == RunTo(p, sig, classes, b, db, n)
  {
    if n == 0 {
    } else {
      assert da[..n - 1] == da[..n][..n - 1] == db[..n][..n - 1] == db[..n - 1];
      assert da[n - 1] == da[..n][n - 1] == db[..n][n - 1] == db[n - 1];
      SameRun(p, sig, classes, a, b, da, db, n - 1, day);
      SameTape(a, b, da, db, n - 1, p.window, day);
    }
  }

  /** How many of the sessions fall on or before a day. */
  function SessionsUpto(dates: seq<int>, day: int): (n: nat)
    ensures n <= |dates|
  {
    if dates == [] || dates[|dates| - 1] <= day then |dates| else SessionsUpto(dates[..|dates| - 1], day)
  }

  lemma {:induction false} SessionsUptoExact(dates: seq<int>, day: int)
    requires Rising(dates)
    ensures var n := SessionsUpto(dates, day);
            && (forall k :: 0 <= k < n ==> dates[k] <= day)
            && (forall k :: n <= k < |dates| ==> dates[k] > day)
  {
    if dates == [] || dates[|dates| - 1] <= day {
    } else {
      SessionsUptoExact(dates[..|dates| - 1], day);
    }
  }

  lemma {:induction false} RisingUnique(xs: seq<int>, ys: seq<int>)
    requires Rising(xs) && Rising(ys)
    requires forall x :: x in xs <==> x in ys
    ensures xs == ys
  {
    if ys != [] {
      assert ys[0] in ys;
    }
    if xs != [] {
      assert xs[0] in xs;
    }
    if xs == [] || ys == [] {
    } else {
      LastsAgree(xs, ys);
      var m := |xs| - 1;
      var n := |ys| - 1;
      forall x ensures x in xs[..m] <==> x in ys[..n] {
        assert x in xs[..m] <==> x in xs && x != xs[m];
        assert x in ys[..n] <==> x in ys && x != ys[n];
      }
      RisingUnique(xs[..m], ys[..n]);
      assert xs == xs[..m] + [xs[m]];
      assert ys == ys[..n] + [ys[n]];
    }
  }

  lemma LastsAgree(xs: seq<int>, ys: seq<int>)
    requires Rising(xs) && Rising(ys) && xs != [] && ys != []
    requires forall x :: x in xs <==> x in ys
    ensures xs[|xs| - 1] == ys[|ys| - 1]
  {
    var u, v := xs[|xs| - 1], ys[|ys| - 1];
    assert u in xs && v in ys;
    assert u in ys && v in xs;
  }

  lemma SameSessions(a: seq<Series>, b: seq<Series>, day: int)
    requires AgreeUpto(a, b, day)
    ensures var da := Dates(a);
            var db := Dates(b);
            da[..SessionsUpto(da, day)] == db[..SessionsUpto(db, day)]
  {
    var da, db := Dates(a), Dates(b);
    DatesExact(a);
    DatesExact(b);
    SessionsUptoExact(da, day);
    SessionsUptoExact(db, day);
    var m, n := SessionsUpto(da, day), SessionsUpto(db, day);
    forall x ensures x in da[..m] <==> x in db[..n] {
      assert x in da[..m] <==> x in da && x <= day;
      assert x in db[..n] <==> x in db && x <= day;
      if x <= day {
        SameTrading(a, b, day, x);
      }
    }
    RisingUnique(da[..m], db[..n]);
  }

  lemma SameTrading(a: seq<Series>, b: seq<Series>, day: int, x: int)
    requires AgreeUpto(a, b, day) && x <= day
    ensures Trades(a, x) <==> Trades(b, x)
  {
    if Trades(a, x) {
      var i :| 0 <= i < |a| && CloseOn(a[i].bars, x).Some?;
      assert CloseOn(b[i].bars, x).Some?;
    }
    if Trades(b, x) {
      var i :| 0 <= i < |b| && CloseOn(b[i].bars, x).Some?;
      assert CloseOn(a[i].bars, x).Some?;
    }
  }

  function ClosedBy(day: int): Trip -> bool { (t: Trip) => t.exitDate <= day }

  lemma {:induction false} ExitsAreToday(p: Rules, sig: Signals, classes: map<string, string>, day: int,
                                         tape: seq<Quote>, open: seq<Holding>)
    ensures forall t :: t in Exits(p, sig, classes, day, tape, open).trips ==> t.exitDate == day
  {
    if open == [] {
    } else {
      ExitsAreToday(p, sig, classes, day, tape, open[..|open| - 1]);
    }
  }

  lemma {:induction false} KeepsAll(xs: seq<Trip>, p: Trip -> bool)
    ensures (forall x :: x in xs ==> p(x)) ==> Filter(xs, p) == xs
    ensures (forall x :: x in xs ==> !p(x)) ==> Filter(xs, p) == []
  {
    if xs == [] {
    } else {
      KeepsAll(xs[1..], p);
      assert xs == [xs[0]] + xs[1..];
    }
  }

  /** The trips closed by a day are those the book had closed after the sessions
      up to that day; later sessions only append later exits. */
  lemma {:induction false} TripsByDay(p: Rules, sig: Signals, classes: map<string, string>, market: seq<Series>,
                                      dates: seq<int>, m: nat, n: nat, day: int)
    requires m <= n <= |dates|
    requires forall k :: 0 <= k < m ==> dates[k] <= day
    requires forall k :: m <= k < n ==> dates[k] > day
    ensures Filter(RunTo(p, sig, classes, market, dates, n).trips, ClosedBy(day))
         == RunTo(p, sig, classes, market, dates, m).trips
    decreases n
  {
    if n == m {
      TripsBounded(p, sig, classes, market, dates, n, day);
      KeepsAll(RunTo(p, sig, classes, market, dates, n).trips, ClosedBy(day));
    } else {
      TripsByDay(p, sig, classes, market, dates, m, n - 1, day);
      var before := RunTo(p, sig, classes, market, dates, n - 1);
      if n - 1 >= p.warmup {
        hide Exits, Enter, Candidates, Tape;
        var tape := Tape(market, dates, n - 1, p.window);
        var exits := Exits(p, sig, classes, dates[n - 1], tape, before.open).trips;
        ExitsAreToday(p, sig, classes, dates[n - 1], tape, before.open);
        KeepsAll(exits, ClosedBy(day));
        FilterConcat(before.trips, exits, ClosedBy(day));
      }
    }
  }

  lemma {:induction false} TripsBounded(p: Rules, sig: Signals, classes: map<string, string>, market: seq<Series>,
                                        dates: seq<int>, n: nat, day: int)
    requires n <= |dates| && forall k :: 0 <= k < n ==> dates[k] <= day
    ensures forall t :: t in RunTo(p, sig, classes, market, dates, n).trips ==> t.exitDate <= day
  {
    if n == 0 {
    } else {
      TripsBounded(p, sig, classes, market, dates, n - 1, day);
      hide Exits, Enter, Candidates, Tape;
      if n - 1 >= p.warmup {
        var before := RunTo(p, sig, classes, market, dates, n - 1);
        ExitsAreToday(p, sig, classes, dates[n - 1], Tape(market, dates, n - 1, p.window), before.open);
      }
    }
  }

  function Replay(p: Rules, sig: Signals, classes: map<string, string>, market: seq<Series>): Book {
    RunTo(p, sig, classes, market, Dates(market), |Dates(market)|)
  }

  /** No lookahead. Whatever happens to prices after a day, in however many more
      sessions, the round trips closed by that day and the positions open at the
      end of it are the same. */
  lemma NoLookahead(p: Rules, sig: Signals, classes: map<string, string>, a: seq<Series>, b: seq<Series>, day: int)
    requires AgreeUpto(a, b, day)
    ensures Filter(Replay(p, sig, classes, a).trips, ClosedBy(day))
         == Filter(Replay(p, sig, classes, b).trips, ClosedBy(day))
    ensures RunTo(p, sig, classes, a, Dates(a), SessionsUpto(Dates(a), day)).open
         == RunTo(p, sig, classes, b, Dates(b), SessionsUpto(Dates(b), day)).open
  {
    var da, db := Dates(a), Dates(b);
    var m, n := SessionsUpto(da, day), SessionsUpto(db, day);
    DatesExact(a);
    DatesExact(b);
    SessionsUptoExact(da, day);
    SessionsUptoExact(db, day);
    SameSessions(a, b, day);
    assert m == |da[..m]| == |db[..n]| == n;
    hide RunTo;
    SameRun(p, sig, classes, a, b, da, db, m, day);
    TripsByDay(p, sig, classes, a, da, m, |da|, day);
    TripsByDay(p, sig, classes, b, db, n, |db|, day);
  }

  // --- What every session keeps --------------------------------------------

  ghost predicate HoldingsDistinct(open: seq<Holding>) {
    forall i, j :: 0 <= i < j < |open| ==> open[i].key != open[j].key
  }

  /** Round trips of one instrument follow one another. */
  ghost predicate NoOverlap(trips: seq<Trip>) {
    forall i, j :: 0 <= i < j < |trips| && trips[i].key == trips[j].key ==> trips[i].exitDate <= trips[j].entryDate
  }

  ghost predicate Sound(p: Rules, book: Book, day: int) {
    && |book.open| <= p.maxPositions
    && HoldingsDistinct(book.open)
    && (forall h :: h in book.open ==> h.date <= day)
    && NoOverlap(book.trips)
    && (forall t :: t in book.trips ==> t.entryDate < t.exitDate <= day)
    && (forall t, h :: t in book.trips && h in book.open && t.key == h.key ==> t.exitDate <= h.date)
  }

  /** Exits split the open positions: each is either kept or closed, once. */
  ghost predicate Splits(open: seq<Holding>, kept: seq<Holding>, trips: seq<Trip>, day: int) {
    && |kept| + |trips| == |open|
    && HoldingsDistinct(kept)
    && (forall h :: h in kept ==> h in open)
    && (forall t :: t in trips ==>
          t.exitDate == day && exists h :: h in open && h.key == t.key && h.date == t.entryDate)
    && (forall i, j :: 0 <= i < j < |trips| ==> trips[i].key != trips[j].key)
    && (forall t, h :: t in trips && h in kept ==> t.key != h.key)
  }

  lemma {:induction false} ExitsSplit(p: Rules, sig: Signals, classes: map<string, string>, day: int,
                                      tape: seq<Quote>, open: seq<Holding>)
    requires HoldingsDistinct(open)
    ensures var e := Exits(p, sig, classes, day, tape, open); Splits(open, e.open, e.trips, day)
  {
    if open == [] {
    } else {
      var init := open[..|open| - 1];
      var h := open[|open| - 1];
      ExitsSplit(p, sig, classes, day, tape, init);
      var e := Exits(p, sig, classes, day, tape, init);
      assert open == init + [h];
      OneMoreSplits(init, h, e.open, e.trips, day);
      hide ExitReason, Splits, HoldingsDistinct;
    }
  }

  lemma OneMoreSplits(open: seq<Holding>, h: Holding, kept: seq<Holding>, trips: seq<Trip>, day: int)
    requires Splits(open, kept, trips, day) && HoldingsDistinct(open + [h])
    ensures Splits(open + [h], kept + [h], trips, day)
    ensures forall t: Trip :: t.key == h.key && t.entryDate == h.date && t.exitDate == day ==>
              Splits(open + [h], kept, trips + [t], day)
  {
    assert forall x :: x in open ==> x.key != h.key by {
      forall x | x in open ensures x.key != h.key {
        var i :| 0 <= i < |open| && open[i] == x;
        assert (open + [h])[i].key != (open + [h])[|open|].key;
      }
    }
    OneMoreKept(open, h, kept, trips, day);
    forall t: Trip | t.key == h.key && t.entryDate == h.date && t.exitDate == day
      ensures Splits(open + [h], kept, trips + [t], day)
    {
      OneMoreClosed(open, h, kept, trips, t, day);
    }
  }

  lemma OneMoreKept(open: seq<Holding>, h: Holding, kept: seq<Holding>, trips: seq<Trip>, day: int)
    requires Splits(open, kept, trips, day) && forall x :: x in open ==> x.key != h.key
    ensures Splits(open + [h], kept + [h], trips, day)
  {}

  lemma OneMoreClosed(open: seq<Holding>, h: Holding, kept: seq<Holding>, trips: seq<Trip>, t: Trip, day: int)
    requires Splits(open, kept, trips, day) && forall x :: x in open ==> x.key != h.key
    requires t.key == h.key && t.entryDate == h.date && t.exitDate == day
    ensures Splits(open + [h], kept, trips + [t], day)
  {}

  /** What is left to know of the entries: they extend the open positions by new
      instruments, dated today, never past the limit. */
  ghost predicate Extends(p: Rules, open: seq<Holding>, r: seq<Holding>, day: int) {
    && |open| <= |r| <= p.maxPositions
    && r[..|open|] == open
    && HoldingsDistinct(r)
    && (forall i :: |open| <= i < |r| ==> r[i].date == day)
  }

  ghost predicate CandidatesDistinct(cands: seq<Candidate>) {
    forall i, j :: 0 <= i < j < |cands| ==> cands[i].key != cands[j].key
  }

  lemma {:induction false} EntrantsAreCandidates(p: Rules, sig: Signals, classes: map<string, string>, day: int,
                                                 cands: seq<Candidate>, open: seq<Holding>)
    ensures forall h :: h in Enter(p, sig, classes, day, cands, open) ==>
              h in open || exists c :: c in cands && c.key == h.key
  {
    if cands == [] {
    } else {
      hide Propose;
      EntrantsAreCandidates(p, sig, classes, day, cands[..|cands| - 1], open);
      assert cands[|cands| - 1] in cands;
    }
  }

  lemma {:induction false} EnterExtends(p: Rules, sig: Signals, classes: map<string, string>, day: int,
                                        cands: seq<Candidate>, open: seq<Holding>)
    requires |open| <= p.maxPositions && HoldingsDistinct(open) && CandidatesDistinct(cands)
    requires forall c :: c in cands ==> !Holds(open, c.key)
    ensures Extends(p, open, Enter(p, sig, classes, day, cands, open), day)
  {
    if cands == [] {
    } else {
      var init := cands[..|cands| - 1];
      var c := cands[|cands| - 1];
      EnterExtends(p, sig, classes, day, init, open);
      EntrantsAreCandidates(p, sig, classes, day, init, open);
      var before := Enter(p, sig, classes, day, init, open);
      forall h | h in before ensures h.key != c.key {
        assert c in cands;
      }
      hide Propose, Extends, Holds, HoldingsDistinct, Deployed, ClassRisk;
      OneMoreExtends(p, open, before, c.key, day);
    }
  }

  lemma OneMoreExtends(p: Rules, open: seq<Holding>, r: seq<Holding>, key: string, day: int)
    requires Extends(p, open, r, day) && forall h :: h in r ==> h.key != key
    ensures |r| < p.maxPositions ==>
              forall h: Holding :: h.key == key && h.date == day ==> Extends(p, open, r + [h], day)
  {}

  lemma {:induction false} CandidatesAreNew(p: Rules, sig: Signals, tape: seq<Quote>, open: seq<Holding>)
    requires forall i, j :: 0 <= i < j < |tape| ==> tape[i].key != tape[j].key
    ensures var cands := Candidates(p, sig, tape, open);
            && CandidatesDistinct(cands)
            && (forall c :: c in cands ==> !Holds(open, c.key))
            && (forall c :: c in cands ==> exists i :: 0 <= i < |tape| && tape[i].key == c.key)
  {
    if tape == [] {
    } else {
      var init := tape[..|tape| - 1];
      CandidatesAreNew(p, sig, init, open);
      forall c | c in Candidates(p, sig, init, open) ensures exists i :: 0 <= i < |tape| && tape[i].key == c.key {
        var i :| 0 <= i < |init| && init[i].key == c.key;
        assert tape[i].key == c.key;
      }
      assert tape[|tape| - 1].key == tape[|tape| - 1].key;
    }
  }

  lemma SortKeepsCandidates(cands: seq<Candidate>)
    requires CandidatesDistinct(cands)
    ensures CandidatesDistinct(SortBy(cands, Strength))
    ensures forall c :: c in SortBy(cands, Strength) <==> c in cands
  {
    SortIsAscendingPermutation(cands, Strength);
    PermutationKeepsDistinct(cands, SortBy(cands, Strength));
  }

  lemma PermutationKeepsDistinct(xs: seq<Candidate>, ys: seq<Candidate>)
    requires multiset(xs) == multiset(ys) && CandidatesDistinct(xs)
    ensures CandidatesDistinct(ys)
    ensures forall c :: c in ys <==> c in xs
  {
    assert forall c :: c in ys <==> c in multiset(ys);
    assert forall c :: c in xs <==> c in multiset(xs);
    forall i, j | 0 <= i < j < |ys| ensures ys[i].key != ys[j].key {
      assert ys[i] in xs && ys[j] in xs;
      if ys[i] == ys[j] {
        assert ys == ys[..j] + [ys[j]] + ys[j + 1..];
        assert ys[..j][i] == ys[j];
        assert multiset(xs)[ys[j]] >= 2;
        CountedOnce(xs, ys[j]);
        assert false;
      }
    }
  }

  lemma {:induction false} CountedOnce(xs: seq<Candidate>, c: Candidate)
    requires CandidatesDistinct(xs)
    ensures multiset(xs)[c] <= 1
  {
    if xs == [] {
    } else {
      var init := xs[..|xs| - 1];
      CountedOnce(init, c);
      assert xs == init + [xs[|xs| - 1]];
      if c == xs[|xs| - 1] {
        assert c !in init;
      }
    }
  }

  // --- The ranking -------------------------------------------------------------------

  function OfMomentum(m: real): Candidate -> bool { (c: Candidate) => c.momentum == m }

  predicate ByMomentum(ranked: seq<Candidate>) {
    forall i, j :: 0 <= i < j < |ranked| ==> ranked[i].momentum >= ranked[j].momentum
  }

  ghost predicate TiesInOrder(cands: seq<Candidate>, ranked: seq<Candidate>) {
    forall m: real :: Filter(ranked, OfMomentum(m)) == Filter(cands, OfMomentum(m))
  }

  /** All the candidates, strongest momentum first, and those of one momentum in the
      order they came in. */
  ghost predicate StrongestFirst(cands: seq<Candidate>, ranked: seq<Candidate>) {
    multiset(ranked) == multiset(cands) && ByMomentum(ranked) && TiesInOrder(cands, ranked)
  }

  lemma RankedByMomentum(cands: seq<Candidate>)
    ensures StrongestFirst(cands, SortBy(cands, Strength))
  {
    hide ByMomentum, TiesInOrder, SortBy, Ascending;
    SortIsAscendingPermutation(cands, Strength);
    AscendingIsByMomentum(SortBy(cands, Strength));
    SortKeepsTies(cands);
  }

  lemma AscendingIsByMomentum(ranked: seq<Candidate>)
    requires Ascending(ranked, Strength)
    ensures ByMomentum(ranked)
  {
    forall i, j | 0 <= i < j < |ranked| ensures ranked[i].momentum >= ranked[j].momentum {
      assert Strength(ranked[i]) <= Strength(ranked[j]);
    }
  }

  lemma SortKeepsTies(cands: seq<Candidate>)
    ensures TiesInOrder(cands, SortBy(cands, Strength))
  {
    hide Filter, SortBy, OfMomentum, HasKey;
    forall m: real ensures Filter(SortBy(cands, Strength), OfMomentum(m)) == Filter(cands, OfMomentum(m)) {
      SortStable(cands, Strength, -m);
      SameFilter(SortBy(cands, Strength), m);
      SameFilter(cands, m);
    }
  }

  lemma {:induction false} SameFilter(cands: seq<Candidate>, m: real)
    ensures Filter(cands, HasKey(Strength, -m)) == Filter(cands, OfMomentum(m))
  {
    if cands == [] {
    } else {
      SameFilter(cands[1..], m);
      assert HasKey(Strength, -m)(cands[0]) <==> Strength(cands[0]) == -m;
    }
  }

  ghost predicate KeysAreDistinct(market: seq<Series>) {
    forall i, j :: 0 <= i < j < |market| ==> market[i].key != market[j].key
  }

  lemma SessionSound(p: Rules, sig: Signals, classes: map<string, string>, day: int, tape: seq<Quote>, book: Book,
                     last: int)
    requires Sound(p, book, last) && last < day
    requires forall i, j :: 0 <= i < j < |tape| ==> tape[i].key != tape[j].key
    ensures Sound(p, Session(p, sig, classes, day, tape, book), day)
  {
    ExitsSplit(p, sig, classes, day, tape, book.open);
    var e := Exits(p, sig, classes, day, tape, book.open);
    ExitsKeepSound(p, book, e.open, e.trips, last, day);
    if |e.open| < p.maxPositions {
      CandidatesAreNew(p, sig, tape, e.open);
      SortKeepsCandidates(Candidates(p, sig, tape, e.open));
      var cands := SortBy(Candidates(p, sig, tape, e.open), Strength);
      EnterExtends(p, sig, classes, day, cands, e.open);
      EntriesKeepSound(p, Book(e.open, book.trips + e.trips), Enter(p, sig, classes, day, cands, e.open), day);
    }
  }

  lemma ExitsKeepSound(p: Rules, book: Book, kept: seq<Holding>, trips: seq<Trip>, last: int, day: int)
    requires Sound(p, book, last) && last < day && Splits(book.open, kept, trips, day)
    ensures Sound(p, Book(kept, book.trips + trips), day)
  {
    forall t | t in trips ensures t.entryDate < t.exitDate <= day {}
    forall t, u | t in book.trips && u in trips && t.key == u.key ensures t.exitDate <= u.entryDate {}
  }

  lemma EntriesKeepSound(p: Rules, book: Book, open: seq<Holding>, day: int)
    requires Sound(p, book, day) && Extends(p, book.open, open, day)
    ensures Sound(p, Book(open, book.trips), day)
  {
    forall h | h in open ensures h in book.open || h.date == day {
      var i :| 0 <= i < |open| && open[i] == h;
      assert i < |book.open| ==> open[..|book.open|][i] == book.open[i];
    }
  }

  /** Over every run: the position limit holds after each session, and the round
      trips of one instrument never overlap. */
  lemma {:induction false} RunSound(p: Rules, sig: Signals, classes: map<string, string>, market: seq<Series>,
                                    dates: seq<int>, n: nat)
    requires KeysAreDistinct(market) && Rising(dates) && 0 < n <= |dates|
    ensures Sound(p, RunTo(p, sig, classes, market, dates, n), dates[n - 1])
  {
    hide Session;
    if n - 1 < p.warmup {
      NothingBeforeWarmup(p, sig, classes, market, dates, n);
    } else {
      var before := RunTo(p, sig, classes, market, dates, n - 1);
      if n > 1 {
        RunSound(p, sig, classes, market, dates, n - 1);
      }
      SessionSound(p, sig, classes, dates[n - 1], Tape(market, dates, n - 1, p.window), before,
                   if n > 1 then dates[n - 2] else dates[0] - 1);
    }
  }

  lemma {:induction false} NothingBeforeWarmup(p: Rules, sig: Signals, classes: map<string, string>,
                                               market: seq<Series>, dates: seq<int>, n: nat)
    requires n <= |dates| && n <= p.warmup
    ensures RunTo(p, sig, classes, market, dates, n) == Book([], [])
  {
    if n == 0 {
    } else {
      NothingBeforeWarmup(p, sig, classes, market, dates, n - 1);
    }
  }

  // --- Budgets over a run --------------------------------------------------

  ghost predicate Costed(p: Rules) {
    p.spreadBps >= 0.0 && p.slippageBps >= 0.0
  }

  /** What a dollar of reference price costs once spread and slippage are paid. */
  function CostFactor(p: Rules): real { (1.0 + p.Half()) * (1.0 + p.slippageBps / 10000.0) }

  function DeploymentLimit(p: Rules): real { Amount(CostFactor(p), p.DeploymentCap()) }

  ghost predicate Positive(open: seq<Holding>) {
    forall i :: 0 <= i < |open| ==> open[i].risk >= 0.0 && open[i].Cost() >= 0.0
  }

  ghost predicate WithinBudgets(p: Rules, open: seq<Holding>, assetClass: string) {
    && Positive(open)
    && (ClassRisk(open, assetClass) <= p.ClassRiskCap() || ClassRisk(open, assetClass) == 0.0)
    && (Deployed(open) <= DeploymentLimit(p) || Deployed(open) == 0.0)
  }

  lemma {:induction false} SumsPositive(open: seq<Holding>, assetClass: string)
    requires Positive(open)
    ensures ClassRisk(open, assetClass) >= 0.0 && Deployed(open) >= 0.0
  {
    if open == [] {
    } else {
      SumsPositive(open[..|open| - 1], assetClass);
    }
  }

  /** A proposal risks no more than its class has left, and spends no more than
      the deployment budget has left, at the reference price. */
  lemma ProposalFits(p: Rules, sig: Signals, assetClass: string, c: Candidate, deployed: real, classRisk: real)
    requires Propose(p, sig, assetClass, c, deployed, classRisk).Some?
    ensures var o := Propose(p, sig, assetClass, c, deployed, classRisk).value;
            && 0.0 < o.quantity
            && 0.0 <= o.risk <= p.ClassRiskCap() - classRisk
            && Amount(o.quantity, c.close) <= p.DeploymentCap() - deployed
            && deployed < p.DeploymentCap()
            && c.close > 0.0
            && o.price == AdverseBuy(p.Ask(c.close), p.slippageBps)
  {
    hide Amount, AdverseBuy, StopDistance, Quantity, Rules.Ask, Rules.Bid, Rules.Share;
  }

  lemma ProductSign(x: real, y: real)
    requires x >= 0.0 && y >= 0.0
    ensures x * y >= 0.0
  {}

  /** Spending what is left, marked up by costs, cannot carry the total past the
      marked-up budget. */
  lemma MarkedUpBudget(cap: real, deployed: real, spend: real, factor: real)
    requires factor >= 1.0 && 0.0 <= deployed && spend <= cap - deployed
    ensures deployed + Amount(factor, spend) <= Amount(factor, cap)
  {
    var slack := cap - deployed - spend;
    AmountOfParts(factor, spend, deployed, slack);
    AmountOfOneLess(factor, deployed);
    AmountSign(factor, slack);
    AmountSign(factor - 1.0, deployed);
    hide Amount;
    assert spend + deployed + slack == cap;
  }

  lemma AmountOfParts(factor: real, a: real, b: real, c: real)
    ensures Amount(factor, a + b + c) == Amount(factor, a) + Amount(factor, b) + Amount(factor, c)
  {}

  lemma AmountOfOneLess(factor: real, x: real)
    ensures Amount(factor - 1.0, x) == Amount(factor, x) - x
  {}

  lemma CostFactorAtLeastOne(p: Rules)
    requires Costed(p)
    ensures CostFactor(p) >= 1.0
  {
    var a := p.Half();
    var b := p.slippageBps / 10000.0;
    assert (1.0 + a) * (1.0 + b) == 1.0 + a + b + a * b;
    ProductSign(a, b);
  }

  lemma EntryCost(p: Rules, c: Candidate, o: Proposal)
    requires o.price == AdverseBuy(p.Ask(c.close), p.slippageBps)
    ensures o.price * o.quantity == Amount(CostFactor(p), Amount(o.quantity, c.close))
  {
    var f := 1.0 + p.Half();
    var g := 1.0 + p.slippageBps / 10000.0;
    assert o.price == c.close * f * g;
    Regroup(c.close, f, g, o.quantity);
  }

  lemma Regroup(x: real, f: real, g: real, q: real)
    ensures x * f * g * q == f * g * (q * x)
  {}

  lemma EntryFits(p: Rules, c: Candidate, o: Proposal, deployed: real)
    requires Costed(p) && 0.0 <= deployed && o.quantity > 0.0 && c.close > 0.0
    requires Amount(o.quantity, c.close) <= p.DeploymentCap() - deployed
    requires o.price == AdverseBuy(p.Ask(c.close), p.slippageBps)
    ensures 0.0 <= o.price * o.quantity && deployed + o.price * o.quantity <= DeploymentLimit(p)
  {
    hide Amount;
    EntryCost(p, c, o);
    CostFactorAtLeastOne(p);
    MarkedUpBudget(p.DeploymentCap(), deployed, Amount(o.quantity, c.close), CostFactor(p));
    AmountSign(o.quantity, c.close);
    AmountSign(CostFactor(p), Amount(o.quantity, c.close));
  }

  lemma OneMoreOpen(open: seq<Holding>, h: Holding, assetClass: string)
    ensures Deployed(open + [h]) == Deployed(open) + h.Cost()
    ensures ClassRisk(open + [h], assetClass) ==
            ClassRisk(open, assetClass) + if h.assetClass == assetClass then h.risk else 0.0
    ensures Positive(open) && h.risk >= 0.0 && h.Cost() >= 0.0 ==> Positive(open + [h])
  {
    assert (open + [h])[..|open|] == open;
  }

  lemma TryEnterWithin(p: Rules, sig: Signals, classes: map<string, string>, day: int, open: seq<Holding>,
                       c: Candidate, assetClass: string)
    requires Costed(p) && WithinBudgets(p, open, assetClass)
    ensures WithinBudgets(p, TryEnter(p, sig, classes, day, open, c), assetClass)
  {
    hide Propose, CostFactor, DeploymentLimit, AdverseBuy, Rules.DeploymentCap, Rules.ClassRiskCap, Rules.Half,
         Bought, Holding.Cost, Deployed, ClassRisk, Positive, Costed;
    var own := ClassOf(classes, c.key);
    var offer := Propose(p, sig, own, c, Deployed(open), ClassRisk(open, own));
    if offer.Some? {
      var o := offer.value;
      ProposalFits(p, sig, own, c, Deployed(open), ClassRisk(open, own));
      SumsPositive(open, assetClass);
      EntryFits(p, c, o, Deployed(open));
      var h := Bought(c.key, own, day, o);
      BoughtCost(c.key, own, day, o);
      OneMoreOpen(open, h, assetClass);
      OneMoreOpen(open, h, own);
    }
  }

  lemma BoughtCost(key: string, assetClass: string, day: int, o: Proposal)
    ensures var h := Bought(key, assetClass, day, o);
            h.Cost() == o.price * o.quantity && h.risk == o.risk && h.assetClass == assetClass
  {}

  lemma {:induction false} EnterWithin(p: Rules, sig: Signals, classes: map<string, string>, day: int,
                                       cands: seq<Candidate>, open: seq<Holding>, assetClass: string)
    requires Costed(p) && WithinBudgets(p, open, assetClass)
    ensures WithinBudgets(p, Enter(p, sig, classes, day, cands, open), assetClass)
  {
    if cands == [] {
    } else {
      hide WithinBudgets, TryEnter;
      var init := cands[..|cands| - 1];
      EnterWithin(p, sig, classes, day, init, open, assetClass);
      TryEnterWithin(p, sig, classes, day, Enter(p, sig, classes, day, init, open), cands[|cands| - 1], assetClass);
    }
  }

  lemma {:induction false} ExitsOnlyReduce(p: Rules, sig: Signals, classes: map<string, string>, day: int,
                                           tape: seq<Quote>, open: seq<Holding>, assetClass: string)
    requires Positive(open)
    ensures var kept := Exits(p, sig, classes, day, tape, open).open;
            && Positive(kept)
            && 0.0 <= ClassRisk(kept, assetClass) <= ClassRisk(open, assetClass)
            && 0.0 <= Deployed(kept) <= Deployed(open)
  {
    if open == [] {
    } else {
      var init := open[..|open| - 1];
      var h := open[|open| - 1];
      ExitsOnlyReduce(p, sig, classes, day, tape, init, assetClass);
      var before := Exits(p, sig, classes, day, tape, init).open;
      OneMoreOpen(before, h, assetClass);
      hide ExitReason, Close, QuoteOf, Holding.Cost;
    }
  }

  /** Over every run, for every asset class: the risk open in the class never
      exceeds its cap, and the money deployed never exceeds the deployment cap
      marked up by spread and slippage. */
  lemma {:induction false} RunWithinBudgets(p: Rules, sig: Signals, classes: map<string, string>, market: seq<Series>,
                                            dates: seq<int>, n: nat, assetClass: string)
    requires Costed(p) && n <= |dates|
    ensures WithinBudgets(p, RunTo(p, sig, classes, market, dates, n).open, assetClass)
  {
    if n == 0 {
    } else {
      RunWithinBudgets(p, sig, classes, market, dates, n - 1, assetClass);
      if n - 1 >= p.warmup {
        var before := RunTo(p, sig, classes, market, dates, n - 1);
        var tape := Tape(market, dates, n - 1, p.window);
        var day := dates[n - 1];
        hide Exits, Enter, Candidates, Deployed, ClassRisk, Tape, DeploymentLimit, Positive, Rules.DeploymentCap,
             Rules.ClassRiskCap;
        ExitsOnlyReduce(p, sig, classes, day, tape, before.open, assetClass);
        var kept := Exits(p, sig, classes, day, tape, before.open).open;
        EnterWithin(p, sig, classes, day, SortBy(Candidates(p, sig, tape, kept), Strength), kept, assetClass);
      }
    }
  }

  // --- Exactly when the deployment cap itself is kept ---------------------------------------

  ghost predicate CapKept(p: Rules, sig: Signals, classes: map<string, string>, market: seq<Series>, dates: seq<int>,
                          n: nat)
    requires n <= |dates|
  {
    Deployed(RunTo(p, sig, classes, market, dates, n).open) <= Max(0.0, p.DeploymentCap())
  }

  /** The costs of a replay. */
  predicate Costs(p: Rules, spreadBps: real, slippageBps: real) {
    p.spreadBps == spreadBps && p.slippageBps == slippageBps
  }

  /** At no cost the price paid is the close the size was computed from. */
  lemma FreeKeepsCap(p: Rules, sig: Signals, classes: map<string, string>, market: seq<Series>, dates: seq<int>, n: nat)
    requires Costs(p, 0.0, 0.0) && n <= |dates|
    ensures CapKept(p, sig, classes, market, dates, n)
  {
    assert CostFactor(p) == 1.0 && DeploymentLimit(p) == p.DeploymentCap();
    hide RunTo, CostFactor, DeploymentLimit, Rules.DeploymentCap, Positive;
    RunWithinBudgets(p, sig, classes, market, dates, n, "");
  }

  /** With a spread of twice the close there is no bid, and nothing is ever bought. */
  lemma NoBidNoProposal(p: Rules, sig: Signals, assetClass: string, c: Candidate, deployed: real, classRisk: real)
    requires p.spreadBps >= 20000.0
    ensures Propose(p, sig, assetClass, c, deployed, classRisk).None?
  {
    if c.close > 0.0 {
      NoBid(c.close, p.Half());
    }
    hide StopDistance, Quantity, Rules.Share, Rules.DeploymentCap, Rules.ClassRiskCap;
  }

  lemma NoBid(close: real, half: real)
    requires close > 0.0 && half >= 1.0
    ensures close * (1.0 - half) <= 0.0
  {}

  lemma {:induction false} NoBidNoEntry(p: Rules, sig: Signals, classes: map<string, string>, day: int,
                                        cands: seq<Candidate>)
    requires p.spreadBps >= 20000.0
    ensures Enter(p, sig, classes, day, cands, []) == []
  {
    if cands == [] {
    } else {
      hide Propose;
      var c := cands[|cands| - 1];
      NoBidNoEntry(p, sig, classes, day, cands[..|cands| - 1]);
      NoBidNoProposal(p, sig, ClassOf(classes, c.key), c, Deployed([]), ClassRisk([], ClassOf(classes, c.key)));
    }
  }

  lemma {:induction false} NoBidKeepsCap(p: Rules, sig: Signals, classes: map<string, string>, market: seq<Series>,
                                         dates: seq<int>, n: nat)
    requires p.spreadBps >= 20000.0 && n <= |dates|
    ensures RunTo(p, sig, classes, market, dates, n).open == []
  {
    if n == 0 {
    } else {
      hide Enter, Candidates, Tape;
      NoBidKeepsCap(p, sig, classes, market, dates, n - 1);
      var tape := Tape(market, dates, n - 1, p.window);
      NoBidNoEntry(p, sig, classes, dates[n - 1], SortBy(Candidates(p, sig, tape, []), Strength));
    }
  }

  /** One instrument at a close of one dollar, and a book that may deploy its whole
      budget of a hundred in one position whose stop is a dollar away. */
  function AllIn(spreadBps: real, slippageBps: real): Rules
    requires spreadBps >= 0.0 && slippageBps >= 0.0
  {
    var price := (1.0 + spreadBps / 2.0 / 10000.0) * (1.0 + slippageBps / 10000.0);
    PriceAtLeastOne(spreadBps / 2.0 / 10000.0, slippageBps / 10000.0);
    Rules(100.0, 1, 100.0, 100.0, 100.0, 100.0, 0.0, 100.0 / price, slippageBps, 0.0, 0.0, 0.0, 0.0, spreadBps, 0, 0)
  }

  lemma PriceAtLeastOne(a: real, b: real)
    requires a >= 0.0 && b >= 0.0
    ensures (1.0 + a) * (1.0 + b) >= 1.0 + a + b
  {
    ProductSign(a, b);
    assert (1.0 + a) * (1.0 + b) == 1.0 + a + b + a * b;
  }

  const STEADY := Signals(_ => Some(1.0), _ => Some(1.0), _ => 0.0)

  lemma AllInProposal(spreadBps: real, slippageBps: real)
    requires 0.0 <= spreadBps < 20000.0 && 0.0 <= slippageBps
    ensures var p := AllIn(spreadBps, slippageBps);
            var offer := Propose(p, STEADY, "unknown", Candidate(1.0, "K", 1.0, 1.0), 0.0, 0.0);
            offer.Some? && offer.value.quantity == 100.0 && offer.value.price == AdverseBuy(p.Ask(1.0), slippageBps)
            && offer.value.price >= 1.0 + spreadBps / 20000.0 + slippageBps / 10000.0
  {
    var p := AllIn(spreadBps, slippageBps);
    var half, slip := spreadBps / 2.0 / 10000.0, slippageBps / 10000.0;
    PriceAtLeastOne(half, slip);
    var price := AdverseBuy(p.Ask(1.0), slippageBps);
    assert price == (1.0 + half) * (1.0 + slip);
    Cancels(price);
    assert StopDistance(p, STEADY, price, 1.0) == 1.0;
    WholeQuantity();
    assert p.DeploymentCap() == 100.0 && p.ClassRiskCap() == 100.0;
    hide AdverseBuy, StopDistance, Quantity, Rules.DeploymentCap, Rules.ClassRiskCap;
  }

  lemma Cancels(price: real)
    requires price > 0.0
    ensures price * (100.0 / price) / 100.0 == 1.0
  {}

  lemma WholeQuantity()
    ensures Quantity(100.0, 1.0, 100.0, 1.0) == 100.0
  {
    assert FloorTo4(100.0) == 100.0;
  }

  lemma OneSession(p: Rules, o: Proposal)
    requires p.maxPositions == 1 && p.warmup == 0 && p.window == 0 && p.minMomentum == 0.0
    requires Propose(p, STEADY, "unknown", Candidate(1.0, "K", 1.0, 1.0), 0.0, 0.0) == Some(o)
    ensures Deployed(RunTo(p, STEADY, map[], [Series("K", [(0, 1.0)])], [0], 1).open) == o.price * o.quantity
  {
    hide Propose;
    var market, dates := [Series("K", [(0, 1.0)])], [0];
    var tape := Tape(market, dates, 0, 0);
    assert CloseOn([(0, 1.0)], 0) == Some(1.0);
    assert tape == [Quote("K", Some(1.0), [])];
    var c := Candidate(1.0, "K", 1.0, 1.0);
    assert tape[..0] == [] && Candidates(p, STEADY, tape[..0], []) == [];
    assert Candidates(p, STEADY, tape, []) == [c];
    assert [c][1..] == [] && SortBy([c], Strength) == [c];
    var h := Bought("K", "unknown", 0, o);
    assert [c][..0] == [] && Enter(p, STEADY, map[], 0, [c][..0], []) == [];
    assert Deployed([]) == 0.0 && ClassRisk([], "unknown") == 0.0;
    assert Enter(p, STEADY, map[], 0, [c], []) == [h];
    assert Session(p, STEADY, map[], 0, tape, Book([], [])).open == [h];
    assert [h][..0] == [] && Deployed([h][..0]) == 0.0;
    BoughtCost("K", "unknown", 0, o);
  }

  /** At any cost at which something can be bought, one session of such a book deploys
      more than its cap. */
  lemma CostsExceedCap(spreadBps: real, slippageBps: real)
    requires 0.0 <= spreadBps < 20000.0 && 0.0 <= slippageBps && spreadBps + slippageBps > 0.0
    ensures Costs(AllIn(spreadBps, slippageBps), spreadBps, slippageBps)
    ensures !CapKept(AllIn(spreadBps, slippageBps), STEADY, map[], [Series("K", [(0, 1.0)])], [0], 1)
  {
    var p := AllIn(spreadBps, slippageBps);
    AllInProposal(spreadBps, slippageBps);
    var offer := Propose(p, STEADY, "unknown", Candidate(1.0, "K", 1.0, 1.0), 0.0, 0.0);
    OneSession(p, offer.value);
    hide RunTo, Propose, AdverseBuy;
    assert p.DeploymentCap() == 100.0;
  }

  /** At given costs, no replay ever deploys more than its deployment cap, exactly when
      there are no costs, or the spread leaves no bid. The size of an entry is computed
      from the close, and paid at the ask plus slippage. */
  lemma DeploymentCapKeptIff(spreadBps: real, slippageBps: real)
    requires spreadBps >= 0.0 && slippageBps >= 0.0
    ensures (forall p, sig, classes, market, dates, n: nat ::
               Costs(p, spreadBps, slippageBps) && n <= |dates| ==> CapKept(p, sig, classes, market, dates, n))
            <==> (spreadBps == 0.0 && slippageBps == 0.0) || spreadBps >= 20000.0
  {
    hide RunTo, AllIn;
    if (spreadBps == 0.0 && slippageBps == 0.0) || spreadBps >= 20000.0 {
      forall p, sig, classes, market, dates, n: nat | Costs(p, spreadBps, slippageBps) && n <= |dates|
        ensures CapKept(p, sig, classes, market, dates, n)
      {
        if spreadBps >= 20000.0 {
          NoBidKeepsCap(p, sig, classes, market, dates, n);
        } else {
          FreeKeepsCap(p, sig, classes, market, dates, n);
        }
      }
    } else {
      CostsExceedCap(spreadBps, slippageBps);
      hide CapKept;
    }
  }

  // --- The replay loop -----------------------------------------------------

  function ByDay(bars: seq<(int, real)>): map<int, real> {
    if bars == [] then map[]
    else ByDay(bars[..|bars| - 1])[bars[|bars| - 1].0 := bars[|bars| - 1].1]
  }

  lemma {:induction false} ByDayIsCloseOn(bars: seq<(int, real)>, day: int)
    ensures CloseOn(bars, day) == if day in ByDay(bars) then Some(ByDay(bars)[day]) else None
  {
    if bars == [] {
    } else {
      ByDayIsCloseOn(bars[..|bars| - 1], day);
    }
  }

  function KeysOf(market: seq<Series>): set<string> { set s | s in market :: s.key }

  /** The dictionaries the loop keeps mirror the market up to a session. */
  ghost predicate Mirrors(market: seq<Series>, dates: seq<int>, n: nat,
                          closes: map<string, map<int, real>>, history: map<string, seq<real>>)
    requires n <= |dates|
  {
    && (forall i :: 0 <= i < |market| ==>
         && market[i].key in closes && closes[market[i].key] == ByDay(market[i].bars)
         && market[i].key in history && history[market[i].key] == History(market[i].bars, dates, n))
    && closes.Keys == history.Keys == KeysOf(market)
  }

  function PriceIn(closes: map<string, map<int, real>>, key: string, day: int): Option<real> {
    if key in closes && day in closes[key] && closes[key][day] != 0.0 then Some(closes[key][day]) else None
  }

  function WindowIn(history: map<string, seq<real>>, key: string, window: nat): seq<real> {
    Trailing(if key in history then history[key] else [], window)
  }

  lemma {:induction false} QuoteOfMember(tape: seq<Quote>, i: nat)
    requires i < |tape| && forall j, k :: 0 <= j < k < |tape| ==> tape[j].key != tape[k].key
    ensures QuoteOf(tape, tape[i].key) == tape[i]
  {
    if i == 0 {
    } else {
      QuoteOfMember(tape[1..], i - 1);
    }
  }

  lemma {:induction false} QuoteOfStranger(tape: seq<Quote>, key: string)
    requires forall j :: 0 <= j < |tape| ==> tape[j].key != key
    ensures QuoteOf(tape, key) == Quote(key, None, [])
  {
    if tape == [] {
    } else {
      QuoteOfStranger(tape[1..], key);
    }
  }

  lemma LookupsReadTheTape(market: seq<Series>, dates: seq<int>, n: nat, window: nat,
                           closes: map<string, map<int, real>>, history: map<string, seq<real>>, key: string)
    requires KeysAreDistinct(market) && n < |dates| && Mirrors(market, dates, n, closes, history)
    ensures QuoteOf(Tape(market, dates, n, window), key)
         == Quote(key, PriceIn(closes, key, dates[n]), WindowIn(history, key, window))
  {
    var tape := Tape(market, dates, n, window);
    if i :| 0 <= i < |market| && market[i].key == key {
      QuoteOfMember(tape, i);
      ByDayIsCloseOn(market[i].bars, dates[n]);
    } else {
      QuoteOfStranger(tape, key);
      assert key !in KeysOf(market);
    }
  }

  method IndexCloses(market: seq<Series>, ghost dates: seq<int>)
    returns (closes: map<string, map<int, real>>, history: map<string, seq<real>>)
    requires KeysAreDistinct(market)
    ensures Mirrors(market, dates, 0, closes, history)
  {
    hide ByDay, KeysOf;
    NoKeys();
    closes, history := map[], map[];
    var i := 0;
    while i < |market|
      invariant 0 <= i <= |market|
      invariant closes.Keys == history.Keys == KeysOf(market[..i])
      invariant forall k :: 0 <= k < i ==> market[k] in market[..i]
      invariant forall k :: 0 <= k < i ==> market[k].key in closes && closes[market[k].key] == ByDay(market[k].bars)
      invariant forall key :: key in history ==> history[key] == []
    {
      PrefixGrows(market, i);
      KeysGrow(market[..i], market[i]);
      closes := closes[market[i].key := ByDay(market[i].bars)];
      history := history[market[i].key := []];
      i := i + 1;
    }
    WholePrefix(market);
  }

  lemma NoKeys()
    ensures KeysOf([]) == {}
  {}

  lemma KeysGrow(market: seq<Series>, s: Series)
    ensures KeysOf(market + [s]) == KeysOf(market) + {s.key}
    ensures forall x :: x in market ==> x in market + [s]
    ensures s in market + [s]
  {
    assert forall x :: x in market + [s] <==> x in market || x == s;
  }

  lemma NextClose(market: seq<Series>, dates: seq<int>, n: nat, closes: map<string, map<int, real>>, i: nat)
    requires n < |dates| && i < |market|
    requires market[i].key in closes && closes[market[i].key] == ByDay(market[i].bars)
    ensures History(market[i].bars, dates, n + 1) ==
            match PriceIn(closes, market[i].key, dates[n])
            case Some(c) => History(market[i].bars, dates, n) + [c]
            case None => History(market[i].bars, dates, n)
  {
    ByDayIsCloseOn(market[i].bars, dates[n]);
  }

  /** Appends the previous session's closes, never the current one's. */
  method AdvanceHistory(market: seq<Series>, ghost dates: seq<int>, ghost n: nat, prior: int,
                        closes: map<string, map<int, real>>, history: map<string, seq<real>>)
    returns (r: map<string, seq<real>>)
    requires KeysAreDistinct(market) && n < |dates| && prior == dates[n]
    requires Mirrors(market, dates, n, closes, history)
    ensures Mirrors(market, dates, n + 1, closes, r)
  {
    hide ByDay, PriceIn, History, KeysOf;
    r := history;
    var i := 0;
    while i < |market|
      invariant 0 <= i <= |market|
      invariant r.Keys == history.Keys
      invariant forall k :: 0 <= k < |market| ==>
                  r[market[k].key] == History(market[k].bars, dates, if k < i then n + 1 else n)
    {
      var key := market[i].key;
      NextClose(market, dates, n, closes, i);
      var close := PriceIn(closes, key, prior);
      if close.Some? {
        r := r[key := r[key] + [close.value]];
      }
      i := i + 1;
    }
  }

  method ProcessExits(p: Rules, sig: Signals, classes: map<string, string>, market: seq<Series>, dates: seq<int>,
                      n: nat, closes: map<string, map<int, real>>, history: map<string, seq<real>>, open: seq<Holding>)
    returns (kept: seq<Holding>, trips: seq<Trip>)
    requires KeysAreDistinct(market) && n < |dates| && Mirrors(market, dates, n, closes, history)
    ensures Book(kept, trips) == Exits(p, sig, classes, dates[n], Tape(market, dates, n, p.window), open)
  {
    hide Mirrors, Tape, QuoteOf, ExitReason, Close, PriceIn, WindowIn;
    var day := dates[n];
    kept, trips := [], [];
    var i := 0;
    while i < |open|
      invariant 0 <= i <= |open|
      invariant Book(kept, trips) == Exits(p, sig, classes, day, Tape(market, dates, n, p.window), open[..i])
    {
      PrefixGrows(open, i);
      var h := open[i];
      LookupsReadTheTape(market, dates, n, p.window, closes, history, h.key);
      var close := PriceIn(closes, h.key, day);
      if close.None? {
        kept := kept + [h];
      } else {
        var reason := ExitReason(p, sig, h, close.value, WindowIn(history, h.key, p.window));
        if reason.None? {
          kept := kept + [h];
        } else {
          trips := trips + [Close(p, classes, h, day, close.value, reason.value)];
        }
      }
      i := i + 1;
    }
    WholePrefix(open);
  }

  method RankCandidates(p: Rules, sig: Signals, market: seq<Series>, dates: seq<int>, n: nat,
                        closes: map<string, map<int, real>>, history: map<string, seq<real>>, open: seq<Holding>)
    returns (ranked: seq<Candidate>)
    requires KeysAreDistinct(market) && n < |dates| && Mirrors(market, dates, n, closes, history)
    ensures ranked == SortBy(Candidates(p, sig, Tape(market, dates, n, p.window), open), Strength)
    ensures StrongestFirst(Candidates(p, sig, Tape(market, dates, n, p.window), open), ranked)
  {
    hide *;
    ghost var tape := Tape(market, dates, n, p.window);
    TapeListsMarket(market, dates, n, p.window);
    NoCandidates(p, sig, tape, open);
    var cands: seq<Candidate> := [];
    var i := 0;
    while i < |market|
      invariant 0 <= i <= |market|
      invariant cands == Candidates(p, sig, tape[..i], open)
    {
      EntryReadsTheTape(market, dates, n, p.window, closes, history, i);
      OneMoreCandidate(p, sig, tape, open, i);
      var key := market[i].key;
      var next := Consider(p, sig, Quote(key, PriceIn(closes, key, dates[n]), WindowIn(history, key, p.window)), open);
      cands := if next.Some? then cands + [next.value] else cands;
      i := i + 1;
    }
    WholePrefix(tape);
    ranked := SortBy(cands, Strength);
    RankedByMomentum(cands);
  }

  method Consider(p: Rules, sig: Signals, q: Quote, open: seq<Holding>) returns (next: Option<Candidate>)
    ensures next == CandidateOf(p, sig, q, open)
  {
    hide Holds;
    next := None;
    if !Holds(open, q.key) && q.close.Some? {
      var momentum := sig.momentum(q.window);
      var volatility := sig.volatility(q.window);
      if momentum.Some? && volatility.Some? && momentum.value >= p.minMomentum {
        next := Some(Candidate(momentum.value, q.key, q.close.value, volatility.value));
      }
    }
  }

  lemma EntryReadsTheTape(market: seq<Series>, dates: seq<int>, n: nat, window: nat,
                          closes: map<string, map<int, real>>, history: map<string, seq<real>>, i: nat)
    requires KeysAreDistinct(market) && n < |dates| && Mirrors(market, dates, n, closes, history) && i < |market|
    ensures var key := market[i].key;
            Tape(market, dates, n, window)[i]
                == Quote(key, PriceIn(closes, key, dates[n]), WindowIn(history, key, window))
  {
    LookupsReadTheTape(market, dates, n, window, closes, history, market[i].key);
    TapeListsMember(market, dates, n, window, i);
    hide QuoteOf, PriceIn, WindowIn, Mirrors, KeysAreDistinct;
  }

  lemma NoCandidates(p: Rules, sig: Signals, tape: seq<Quote>, open: seq<Holding>)
    ensures Candidates(p, sig, tape[..0], open) == []
  {}

  lemma OneMoreCandidate(p: Rules, sig: Signals, tape: seq<Quote>, open: seq<Holding>, i: nat)
    requires i < |tape|
    ensures var before, next := Candidates(p, sig, tape[..i], open), CandidateOf(p, sig, tape[i], open);
            Candidates(p, sig, tape[..i + 1], open) == if next.Some? then before + [next.value] else before
  {
    PrefixGrows(tape, i);
  }

  lemma TapeListsMarket(market: seq<Series>, dates: seq<int>, n: nat, window: nat)
    requires n < |dates|
    ensures |Tape(market, dates, n, window)| == |market|
  {}

  lemma TapeListsMember(market: seq<Series>, dates: seq<int>, n: nat, window: nat, i: nat)
    requires KeysAreDistinct(market) && n < |dates| && i < |market|
    ensures var tape := Tape(market, dates, n, window);
            |tape| == |market| && QuoteOf(tape, market[i].key) == tape[i]
  {
    QuoteOfMember(Tape(market, dates, n, window), i);
  }

  method ProcessEntries(p: Rules, sig: Signals, classes: map<string, string>, day: int, ranked: seq<Candidate>,
                        held: seq<Holding>)
    returns (open: seq<Holding>)
    ensures open == Enter(p, sig, classes, day, ranked, held)
  {
    hide TryEnter;
    open := held;
    var i := 0;
    while i < |ranked|
      invariant 0 <= i <= |ranked|
      invariant open == Enter(p, sig, classes, day, ranked[..i], held)
    {
      if |open| >= p.maxPositions {
        FullStaysFull(p, sig, classes, day, ranked, i, held);
        break;
      }
      PrefixGrows(ranked, i);
      open := TryEnter(p, sig, classes, day, open, ranked[i]);
      i := i + 1;
    }
    WholePrefix(ranked);
  }

  /** Stopping at a full book is the same as offering it the rest. */
  lemma {:induction false} FullStaysFull(p: Rules, sig: Signals, classes: map<string, string>, day: int,
                                         cands: seq<Candidate>, i: nat, open: seq<Holding>)
    requires i <= |cands| && |Enter(p, sig, classes, day, cands[..i], open)| >= p.maxPositions
    ensures Enter(p, sig, classes, day, cands, open) == Enter(p, sig, classes, day, cands[..i], open)
  {
    if i == |cands| {
      WholePrefix(cands);
    } else {
      var init := cands[..|cands| - 1];
      assert init[..i] == cands[..i];
      FullStaysFull(p, sig, classes, day, init, i, open);
    }
  }

  /** One pass of the session loop: exits on today's close, then entries. */
  method TradeSession(p: Rules, sig: Signals, classes: map<string, string>, market: seq<Series>, dates: seq<int>,
                      n: nat, closes: map<string, map<int, real>>, history: map<string, seq<real>>, book: Book)
    returns (r: Book)
    requires KeysAreDistinct(market) && n < |dates| && Mirrors(market, dates, n, closes, history)
    ensures r == Session(p, sig, classes, dates[n], Tape(market, dates, n, p.window), book)
  {
    hide Mirrors, Exits, Enter, Candidates, Tape, KeysAreDistinct;
    var open, closed := ProcessExits(p, sig, classes, market, dates, n, closes, history, book.open);
    if |open| < p.maxPositions {
      var ranked := RankCandidates(p, sig, market, dates, n, closes, history, open);
      open := ProcessEntries(p, sig, classes, dates[n], ranked, open);
    }
    r := Book(open, book.trips + closed);
  }

  /** The session loop. Dictionaries of closes and histories are updated as it
      goes; what comes out is the book the tape specification gives. */
  method RunSessions(p: Rules, sig: Signals, classes: map<string, string>, market: seq<Series>, dates: seq<int>)
    returns (book: Book)
    requires KeysAreDistinct(market)
    ensures book == RunTo(p, sig, classes, market, dates, |dates|)
  {
    hide Mirrors, Session, Tape, KeysAreDistinct;
    book := Book([], []);
    var closes, history := IndexCloses(market, dates);
    var index := 0;
    while index < |dates|
      invariant 0 <= index <= |dates|
      invariant Mirrors(market, dates, if index == 0 then 0 else index - 1, closes, history)
      invariant book == RunTo(p, sig, classes, market, dates, index)
    {
      if index > 0 {
        history := AdvanceHistory(market, dates, index - 1, dates[index - 1], closes, history);
      }
      if index >= p.warmup {
        book := TradeSession(p, sig, classes, market, dates, index, closes, history, book);
      }
      index := index + 1;
    }
  }

  method ReplayMomentumBook(p: Rules, sig: Signals, classes: map<string, string>, market: seq<Series>)
    returns (book: Book, sessions: nat)
    requires KeysAreDistinct(market)
    ensures book == Replay(p, sig, classes, market)
    ensures sessions == |Dates(market)|
    ensures |book.open| <= p.maxPositions && NoOverlap(book.trips)
  {
    var dates := Dates(market);
    sessions := |dates|;
    if |dates| <= p.warmup {
      NothingBeforeWarmup(p, sig, classes, market, dates, |dates|);
      return Book([], []), sessions;
    }
    DatesExact(market);
    RunSound(p, sig, classes, market, dates, |dates|);
    hide Dates, RunTo, Rising;
    book := RunSessions(p, sig, classes, market, dates);
  }
}
