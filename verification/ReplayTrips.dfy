/** What the trades of a replay are: whom a session buys, at what size and price, and
    why, when and for how much each position is closed. */
module ReplayTrips {
  import opened Lists
  import opened MomentumReplay

  // --- A stronger candidate is offered first ---------------------------------------------

  /** Candidate `i` of the ranking is turned down for want of a proposal, given what is
      open when its turn comes. */
  predicate TurnedDown(p: Rules, sig: Signals, classes: map<string, string>, day: int, ranked: seq<Candidate>,
                       open: seq<Holding>, i: nat)
    requires i < |ranked|
  {
    var held := Enter(p, sig, classes, day, ranked[..i], open);
    var assetClass := ClassOf(classes, ranked[i].key);
    Propose(p, sig, assetClass, ranked[i], Deployed(held), ClassRisk(held, assetClass)).None?
  }

  lemma {:induction false} EnteredStays(p: Rules, sig: Signals, classes: map<string, string>, day: int,
                                        cands: seq<Candidate>, open: seq<Holding>, i: nat, key: string)
    requires i <= |cands| && Holds(Enter(p, sig, classes, day, cands[..i], open), key)
    ensures Holds(Enter(p, sig, classes, day, cands, open), key)
    ensures |Enter(p, sig, classes, day, cands[..i], open)| <= |Enter(p, sig, classes, day, cands, open)|
  {
    if i == |cands| {
      WholePrefix(cands);
    } else {
      var init := cands[..|cands| - 1];
      assert init[..i] == cands[..i];
      EnteredStays(p, sig, classes, day, init, open, i, key);
      var before, c := Enter(p, sig, classes, day, init, open), cands[|cands| - 1];
      OneMoreTry(p, sig, classes, day, before, c, key);
      hide Holds, TryEnter;
    }
  }

  lemma {:induction false} EnterGrows(p: Rules, sig: Signals, classes: map<string, string>, day: int,
                                      cands: seq<Candidate>, open: seq<Holding>, i: nat)
    requires i <= |cands|
    ensures |Enter(p, sig, classes, day, cands[..i], open)| <= |Enter(p, sig, classes, day, cands, open)|
  {
    if i == |cands| {
      WholePrefix(cands);
    } else {
      var init := cands[..|cands| - 1];
      assert init[..i] == cands[..i];
      EnterGrows(p, sig, classes, day, init, open, i);
      OneMoreTry(p, sig, classes, day, Enter(p, sig, classes, day, init, open), cands[|cands| - 1], "");
      hide TryEnter;
    }
  }

  lemma OneMoreTry(p: Rules, sig: Signals, classes: map<string, string>, day: int, open: seq<Holding>, c: Candidate,
                   key: string)
    ensures var after := TryEnter(p, sig, classes, day, open, c);
            && |open| <= |after|
            && (Holds(open, key) ==> Holds(after, key))
            && (Holds(after, key) && !Holds(open, key) ==> key == c.key)
  {
    hide Propose, Deployed, ClassRisk;
    var after := TryEnter(p, sig, classes, day, open, c);
    if i :| 0 <= i < |open| && open[i].key == key {
      assert after[i].key == key;
    }
    if i :| 0 <= i < |after| && after[i].key == key {
      assert i < |open| ==> open[i].key == key;
    }
  }

  /** Where a candidate was entered there was a free place at its turn. */
  lemma {:induction false} FreeAtEntry(p: Rules, sig: Signals, classes: map<string, string>, day: int,
                                       cands: seq<Candidate>, open: seq<Holding>, j: nat)
    requires CandidatesDistinct(cands) && j < |cands| && !Holds(open, cands[j].key)
    requires Holds(Enter(p, sig, classes, day, cands, open), cands[j].key)
    ensures |Enter(p, sig, classes, day, cands[..j], open)| < p.maxPositions
  {
    var init, c := cands[..|cands| - 1], cands[|cands| - 1];
    var before := Enter(p, sig, classes, day, init, open);
    OneMoreTry(p, sig, classes, day, before, c, cands[j].key);
    if j == |init| {
      NotEnteredYet(p, sig, classes, day, init, open, c.key);
    } else {
      assert init[..j] == cands[..j] && init[j] == cands[j];
      FreeAtEntry(p, sig, classes, day, init, open, j);
    }
    hide TryEnter, Holds;
  }

  lemma NotEnteredYet(p: Rules, sig: Signals, classes: map<string, string>, day: int, cands: seq<Candidate>,
                      open: seq<Holding>, key: string)
    requires !Holds(open, key) && forall i :: 0 <= i < |cands| ==> cands[i].key != key
    ensures !Holds(Enter(p, sig, classes, day, cands, open), key)
  {
    EntrantsAreCandidates(p, sig, classes, day, cands, open);
    var after := Enter(p, sig, classes, day, cands, open);
    forall k | 0 <= k < |after| ensures after[k].key != key {
      assert after[k] in after;
    }
    hide Enter;
  }

  /** Entered or turned down: there is no third way for a candidate with a free place. */
  lemma TriedAtItsTurn(p: Rules, sig: Signals, classes: map<string, string>, day: int, cands: seq<Candidate>,
                       open: seq<Holding>, i: nat)
    requires i < |cands| && |Enter(p, sig, classes, day, cands[..i], open)| < p.maxPositions
    ensures Holds(Enter(p, sig, classes, day, cands, open), cands[i].key)
            || TurnedDown(p, sig, classes, day, cands, open, i)
  {
    hide Propose, Deployed, ClassRisk;
    PrefixGrows(cands, i);
    var before := Enter(p, sig, classes, day, cands[..i], open);
    var after := Enter(p, sig, classes, day, cands[..i + 1], open);
    if !TurnedDown(p, sig, classes, day, cands, open, i) {
      assert after[|before|].key == cands[i].key;
      EnteredStays(p, sig, classes, day, cands, open, i + 1, cands[i].key);
    }
  }

  /** If a session enters a candidate and leaves out one of stronger momentum, then at its
      earlier turn there was nothing to propose for the stronger one: its class had no risk
      left, the book no capital, or its prices or size came to nothing. */
  lemma StrongerComesFirst(p: Rules, sig: Signals, classes: map<string, string>, day: int, tape: seq<Quote>, book: Book,
                           c: Candidate, d: Candidate)
    requires forall i, j :: 0 <= i < j < |tape| ==> tape[i].key != tape[j].key
    requires var open := Exits(p, sig, classes, day, tape, book.open).open;
             c in Candidates(p, sig, tape, open) && d in Candidates(p, sig, tape, open) && c.momentum > d.momentum
    requires Holds(Session(p, sig, classes, day, tape, book).open, d.key)
    requires !Holds(Session(p, sig, classes, day, tape, book).open, c.key)
    ensures var open := Exits(p, sig, classes, day, tape, book.open).open;
            var ranked := SortBy(Candidates(p, sig, tape, open), Strength);
            exists i: nat :: i < |ranked| && ranked[i] == c && TurnedDown(p, sig, classes, day, ranked, open, i)
  {
    var open := Exits(p, sig, classes, day, tape, book.open).open;
    var cands := Candidates(p, sig, tape, open);
    var ranked := SortBy(cands, Strength);
    CandidatesAreNew(p, sig, tape, open);
    SortKeepsCandidates(cands);
    var i, j := RankedBefore(cands, c, d);
    hide Exits, Candidates, SortBy, Enter, Holds, CandidatesDistinct, TurnedDown;
    StrongerTurnedDown(p, sig, classes, day, ranked, open, i, j);
  }

  lemma RankedBefore(cands: seq<Candidate>, c: Candidate, d: Candidate) returns (i: nat, j: nat)
    requires c in cands && d in cands && c.momentum > d.momentum && CandidatesDistinct(cands)
    ensures var ranked := SortBy(cands, Strength); i < j < |ranked| && ranked[i] == c && ranked[j] == d
  {
    var ranked := SortBy(cands, Strength);
    SortKeepsCandidates(cands);
    RankedByMomentum(cands);
    i :| 0 <= i < |ranked| && ranked[i] == c;
    j :| 0 <= j < |ranked| && ranked[j] == d;
    hide SortBy, TiesInOrder, CandidatesDistinct;
  }

  lemma StrongerTurnedDown(p: Rules, sig: Signals, classes: map<string, string>, day: int, ranked: seq<Candidate>,
                           open: seq<Holding>, i: nat, j: nat)
    requires i < j < |ranked| && CandidatesDistinct(ranked) && !Holds(open, ranked[j].key)
    requires var after := Enter(p, sig, classes, day, ranked, open);
             Holds(after, ranked[j].key) && !Holds(after, ranked[i].key)
    ensures TurnedDown(p, sig, classes, day, ranked, open, i)
  {
    hide Enter, Holds, CandidatesDistinct, TurnedDown;
    FreeAtEntry(p, sig, classes, day, ranked, open, j);
    assert ranked[..j][..i] == ranked[..i];
    EnterGrows(p, sig, classes, day, ranked[..j], open, i);
    TriedAtItsTurn(p, sig, classes, day, ranked, open, i);
  }

  /** The window is the last `w` closes of the history, or all of it when there are fewer or
      no bound is given. */
  lemma WindowIsTail(h: seq<real>, w: nat)
    ensures |Trailing(h, w)| <= |h| && Trailing(h, w) == h[|h| - |Trailing(h, w)|..]
    ensures w > 0 && w <= |h| ==> |Trailing(h, w)| == w
    ensures w == 0 || w > |h| ==> Trailing(h, w) == h
  {}

  // --- How much is bought ---------------------------------------------------------------------

  /** No larger number of ten-thousandths of a unit fits under both budgets. */
  lemma QuantityIsLargest(target: real, unitCost: real, riskBudget: real, unitRisk: real, k: int)
    requires unitCost > 0.0 && unitRisk > 0.0
    requires Amount(k as real / 10000.0, unitCost) <= target && Amount(k as real / 10000.0, unitRisk) <= riskBudget
    ensures k as real / 10000.0 <= Quantity(target, unitCost, riskBudget, unitRisk)
  {
    FitsBelowFloor(k, target, unitCost);
    FitsBelowFloor(k, riskBudget, unitRisk);
    hide Amount, FloorTo4;
  }

  lemma FitsBelowFloor(k: int, total: real, d: real)
    requires d > 0.0 && Amount(k as real / 10000.0, d) <= total
    ensures k as real / 10000.0 <= FloorTo4(total / d)
  {
    QuotientAtLeast(k as real / 10000.0, total, d);
    var scaled := total / d * 10000.0;
    assert k as real <= scaled;
    assert k <= scaled.Floor;
  }

  lemma QuotientAtLeast(q: real, total: real, d: real)
    requires d > 0.0 && Amount(q, d) <= total
    ensures q <= total / d
  {
    assert Amount(total / d, d) == total;
    if q > total / d {
      AmountLess(total / d, q, d);
      assert false;
    }
  }

  lemma AmountLess(x: real, y: real, d: real)
    requires x < y && d > 0.0
    ensures Amount(x, d) < Amount(y, d)
  {
    assert (y - x) * d > 0.0;
  }

  // --- What a position costs, and why and for how much it is closed -----------------------------

  /** The ask, half the spread above the close, and the slippage on top of it. */
  function PaidAt(close: real, p: Rules): real {
    close * (1.0 + p.spreadBps / 20000.0) * (1.0 + p.slippageBps / 10000.0)
  }

  /** Half the spread below the close. */
  function BidOn(close: real, p: Rules): real { close * (1.0 - p.spreadBps / 20000.0) }

  /** What a sale brings: the bid less slippage. */
  function TakenAt(close: real, p: Rules): real {
    close * (1.0 - p.spreadBps / 20000.0) * (1.0 - p.slippageBps / 10000.0)
  }

  /** A tenth of a per cent, at least one dollar and at most ten. */
  predicate IsFee(fee: real, notional: real) {
    && (notional <= 1000.0 ==> fee == 1.0)
    && (1000.0 <= notional <= 10000.0 ==> fee == notional / 1000.0)
    && (notional >= 10000.0 ==> fee == 10.0)
  }

  /** The stop is the larger of two distances below the entry: the least percentage, and a
      multiple of a day's volatility. */
  predicate StopsAt(p: Rules, dailySigma: real, entry: real, stop: real) {
    var least, swing := entry * p.minStopPct / 100.0, entry * dailySigma * p.stopVolMultiple;
    && (least >= swing ==> stop == entry - least)
    && (swing >= least ==> stop == entry - swing)
  }

  /** A position as a session opened it on a quote: paid at the ask plus slippage, with its
      stop below that, and risking the distance on every unit. */
  ghost predicate OpenedOn(p: Rules, sig: Signals, classes: map<string, string>, q: Quote, h: Holding) {
    && q.key == h.key && q.close.Some? && q.close.value > 0.0
    && h.assetClass == (if h.key in classes then classes[h.key] else "unknown")
    && sig.momentum(q.window).Some? && sig.momentum(q.window).value >= p.minMomentum
    && sig.volatility(q.window).Some? && sig.volatility(q.window).value > 0.0
    && h.quantity > 0.0 && h.entry == PaidAt(q.close.value, p) && IsFee(h.entryCommission, Amount(h.quantity, h.entry))
    && StopsAt(p, sig.dailySigma(sig.volatility(q.window).value), h.entry, h.stop)
    && h.risk == Amount(h.quantity, h.entry - h.stop)
  }

  /** Which of the four reasons closes a position at a bid: the stop before the price of the
      loss allowed and the price of the gain aimed at, and weak momentum only if the bid
      crosses none of those. */
  ghost predicate ReasonIs(p: Rules, sig: Signals, h: Holding, bid: real, window: seq<real>, reason: string) {
    var stopped := bid <= h.stop;
    var lost := bid <= Amount(h.entry, 1.0 - p.stopLossPct / 100.0);
    var gained := bid >= Amount(h.entry, 1.0 + p.takeProfitPct / 100.0);
    || (reason == "stop" && stopped)
    || (reason == "stop_loss_pct" && !stopped && lost)
    || (reason == "take_profit" && !stopped && !lost && gained)
    || (reason == "momentum" && !stopped && !lost && !gained
        && sig.momentum(window).Some? && sig.momentum(window).value <= p.exitMomentum)
  }

  /** The round trip that closing a position on a quote makes: sold at the bid less
      slippage, for a gross of what it brings minus what it cost, and for the two fees. */
  ghost predicate ClosedOn(p: Rules, sig: Signals, h: Holding, q: Quote, day: int, t: Trip) {
    && t.key == h.key == q.key && t.entryDate == h.date && t.exitDate == day && t.entryPrice == h.entry
    && t.quantity == h.quantity && q.close.Some?
    && t.exitPrice == TakenAt(q.close.value, p)
    && t.gross == Amount(t.quantity, t.exitPrice) - Amount(t.quantity, t.entryPrice)
    && IsFee(t.commission - h.entryCommission, Amount(t.quantity, t.exitPrice))
    && (h.entry > 0.0 ==> ReasonIs(p, sig, h, BidOn(q.close.value, p), q.window, t.reason))
  }

  /** The bid crosses nothing, so the position stays. */
  ghost predicate Stays(p: Rules, sig: Signals, h: Holding, bid: real, window: seq<real>) {
    forall reason :: !ReasonIs(p, sig, h, bid, window, reason)
  }

  lemma BidIs(p: Rules, close: real)
    ensures p.Bid(close) == BidOn(close, p)
  {}

  lemma PriceIs(p: Rules, close: real)
    ensures AdverseBuy(p.Ask(close), p.slippageBps) == PaidAt(close, p)
  {}

  lemma CommissionIs(notional: real)
    ensures IsFee(Commission(notional), notional)
  {}

  lemma GainThresholds(entry: real, bid: real, pct: real)
    requires entry > 0.0
    ensures (bid / entry - 1.0) * 100.0 <= pct <==> bid <= Amount(entry, 1.0 + pct / 100.0)
    ensures (bid / entry - 1.0) * 100.0 >= pct <==> bid >= Amount(entry, 1.0 + pct / 100.0)
  {
    var x, y := bid / entry, 1.0 + pct / 100.0;
    assert Amount(entry, x) == bid;
    if x < y {
      AmountLess(x, y, entry);
    }
    if y < x {
      AmountLess(y, x, entry);
    }
    AmountTurns(x, entry);
    AmountTurns(y, entry);
    hide Amount;
  }

  lemma AmountTurns(x: real, y: real)
    ensures Amount(x, y) == Amount(y, x)
  {}

  lemma ReasonExact(p: Rules, sig: Signals, h: Holding, close: real, window: seq<real>)
    requires h.entry > 0.0
    ensures match ExitReason(p, sig, h, close, window)
            case Some(reason) => ReasonIs(p, sig, h, BidOn(close, p), window, reason)
            case None => Stays(p, sig, h, BidOn(close, p), window)
  {
    BidIs(p, close);
    GainThresholds(h.entry, BidOn(close, p), -p.stopLossPct);
    GainThresholds(h.entry, BidOn(close, p), p.takeProfitPct);
    hide BidOn, Amount, Rules.Bid;
  }

  lemma CloseIs(p: Rules, classes: map<string, string>, h: Holding, day: int, close: real, reason: string)
    ensures var t := Close(p, classes, h, day, close, reason);
            && t.exitPrice == TakenAt(close, p)
            && t.gross == Amount(t.quantity, t.exitPrice) - Amount(t.quantity, t.entryPrice)
            && IsFee(t.commission - h.entryCommission, Amount(t.quantity, t.exitPrice))
  {
    var exit := AdverseSell(p.Bid(close), p.slippageBps);
    CommissionIs(Amount(h.quantity, exit));
    SaleIs(p, close);
    GrossIs(exit, h.entry, h.quantity);
    hide AdverseSell, Rules.Bid, TakenAt, IsFee, Commission, Amount;
  }

  lemma SaleIs(p: Rules, close: real)
    ensures AdverseSell(p.Bid(close), p.slippageBps) == TakenAt(close, p)
  {}

  lemma GrossIs(exit: real, entry: real, quantity: real)
    ensures Amount(quantity, exit - entry) == Amount(quantity, exit) - Amount(quantity, entry)
  {}

  lemma TripExact(p: Rules, sig: Signals, classes: map<string, string>, h: Holding, day: int, q: Quote, reason: string)
    requires q.key == h.key && q.close.Some? && ExitReason(p, sig, h, q.close.value, q.window) == Some(reason)
    ensures ClosedOn(p, sig, h, q, day, Close(p, classes, h, day, q.close.value, reason))
  {
    CloseIs(p, classes, h, day, q.close.value, reason);
    if h.entry > 0.0 {
      ReasonExact(p, sig, h, q.close.value, q.window);
    }
    hide BidOn, TakenAt, AdverseSell, Commission, IsFee, ReasonIs, ExitReason, Amount;
  }

  lemma {:induction false} QuoteIsListed(tape: seq<Quote>, key: string)
    requires QuoteOf(tape, key).close.Some?
    ensures exists i :: 0 <= i < |tape| && tape[i] == QuoteOf(tape, key)
    ensures QuoteOf(tape, key).key == key
  {
    if tape != [] && tape[0].key != key {
      QuoteIsListed(tape[1..], key);
      var i :| 0 <= i < |tape[1..]| && tape[1..][i] == QuoteOf(tape, key);
      assert tape[i + 1] == QuoteOf(tape, key);
    }
  }

  ghost predicate ClosedSome(p: Rules, sig: Signals, tape: seq<Quote>, day: int, open: seq<Holding>, t: Trip) {
    exists h, i :: h in open && 0 <= i < |tape| && ClosedOn(p, sig, h, tape[i], day, t)
  }

  ghost predicate ClosedAll(p: Rules, sig: Signals, tape: seq<Quote>, day: int, open: seq<Holding>, trips: seq<Trip>) {
    forall i :: 0 <= i < |trips| ==> ClosedSome(p, sig, tape, day, open, trips[i])
  }

  lemma {:induction false} ExitsExact(p: Rules, sig: Signals, classes: map<string, string>, day: int,
                                      tape: seq<Quote>, open: seq<Holding>)
    ensures ClosedAll(p, sig, tape, day, open, Exits(p, sig, classes, day, tape, open).trips)
  {
    if open == [] {
    } else {
      hide ClosedAll, ExitReason, Close;
      var init, h := open[..|open| - 1], open[|open| - 1];
      ExitsExact(p, sig, classes, day, tape, init);
      assert open == init + [h];
      var q, trips := QuoteOf(tape, h.key), Exits(p, sig, classes, day, tape, init).trips;
      MoreOpen(p, sig, tape, day, init, h, trips);
      if q.close.Some? {
        var reason := ExitReason(p, sig, h, q.close.value, q.window);
        if reason.Some? {
          OneMoreTrip(p, sig, classes, tape, day, init, h, trips, reason.value);
        }
      }
      hide QuoteOf;
    }
  }

  lemma OneMoreTrip(p: Rules, sig: Signals, classes: map<string, string>, tape: seq<Quote>, day: int,
                    open: seq<Holding>, h: Holding, trips: seq<Trip>, reason: string)
    requires ClosedAll(p, sig, tape, day, open + [h], trips)
    requires var q := QuoteOf(tape, h.key);
             q.close.Some? && ExitReason(p, sig, h, q.close.value, q.window) == Some(reason)
    ensures var t := Close(p, classes, h, day, QuoteOf(tape, h.key).close.value, reason);
            ClosedAll(p, sig, tape, day, open + [h], trips + [t])
  {
    var q := QuoteOf(tape, h.key);
    var t := Close(p, classes, h, day, q.close.value, reason);
    QuoteIsListed(tape, h.key);
    TripExact(p, sig, classes, h, day, q, reason);
    hide ClosedOn, ExitReason, QuoteOf, Close;
    var i :| 0 <= i < |tape| && tape[i] == q;
    assert h in open + [h] && ClosedOn(p, sig, h, tape[i], day, t);
    assert ClosedSome(p, sig, tape, day, open + [h], t);
    hide ClosedSome;
  }

  lemma MoreOpen(p: Rules, sig: Signals, tape: seq<Quote>, day: int, open: seq<Holding>, h: Holding, trips: seq<Trip>)
    requires ClosedAll(p, sig, tape, day, open, trips)
    ensures ClosedAll(p, sig, tape, day, open + [h], trips)
  {
    hide ClosedOn;
    forall k | 0 <= k < |trips| ensures ClosedSome(p, sig, tape, day, open + [h], trips[k]) {
      assert ClosedSome(p, sig, tape, day, open, trips[k]);
      var x, i :| x in open && 0 <= i < |tape| && ClosedOn(p, sig, x, tape[i], day, trips[k]);
      assert x in open + [h];
    }
  }

  // --- Entries ------------------------------------------------------------------------------------

  lemma ProposalExact(p: Rules, sig: Signals, assetClass: string, c: Candidate, deployed: real, classRisk: real)
    requires Propose(p, sig, assetClass, c, deployed, classRisk).Some?
    ensures var o := Propose(p, sig, assetClass, c, deployed, classRisk).value;
            && o.quantity > 0.0 && c.close > 0.0 && c.volatility > 0.0
            && o.price == PaidAt(c.close, p) && o.risk == Amount(o.quantity, o.price - o.stop)
            && StopsAt(p, sig.dailySigma(c.volatility), o.price, o.stop)
  {
    PriceIs(p, c.close);
    var price := AdverseBuy(p.Ask(c.close), p.slippageBps);
    StopIs(p, sig, price, c.volatility);
    hide Amount, AdverseBuy, Quantity, Rules.Ask, Rules.Bid, Rules.Share, PaidAt, StopsAt, StopDistance;
  }

  lemma StopIs(p: Rules, sig: Signals, price: real, volatility: real)
    ensures StopsAt(p, sig.dailySigma(volatility), price, price - StopDistance(p, sig, price, volatility))
  {}

  lemma QuantityPositiveIff(target: real, unitCost: real, riskBudget: real, unitRisk: real)
    requires unitCost > 0.0 && unitRisk > 0.0
    ensures Quantity(target, unitCost, riskBudget, unitRisk) > 0.0
            <==> Amount(0.0001, unitCost) <= target && Amount(0.0001, unitRisk) <= riskBudget
  {
    var q := Quantity(target, unitCost, riskBudget, unitRisk);
    if q > 0.0 {
      FloorAtLeastOne(target / unitCost);
      FloorAtLeastOne(riskBudget / unitRisk);
      AmountGrows(0.0001, q, unitCost);
      AmountGrows(0.0001, q, unitRisk);
    }
    if Amount(0.0001, unitCost) <= target && Amount(0.0001, unitRisk) <= riskBudget {
      QuantityIsLargest(target, unitCost, riskBudget, unitRisk, 1);
    }
    hide Amount;
  }

  lemma FloorAtLeastOne(x: real)
    ensures FloorTo4(x) > 0.0 ==> FloorTo4(x) >= 0.0001
  {}

  lemma AmountGrows(x: real, y: real, d: real)
    requires x <= y && d > 0.0
    ensures Amount(x, d) <= Amount(y, d)
  {
    if x < y {
      AmountLess(x, y, d);
    }
  }

  lemma QuotesInOrder(p: Rules, close: real)
    requires close > 0.0
    ensures p.Ask(close) > 0.0 && p.Bid(close) > 0.0 && p.Ask(close) >= p.Bid(close)
            <==> BidOn(close, p) > 0.0 && p.spreadBps >= 0.0
  {
    BidIs(p, close);
    assert p.Ask(close) - p.Bid(close) == Amount(close, p.spreadBps / 10000.0);
    if p.spreadBps < 0.0 {
      AmountLess(p.spreadBps / 10000.0, 0.0, close);
      AmountTurns(close, p.spreadBps / 10000.0);
    } else {
      AmountGrows(0.0, p.spreadBps / 10000.0, close);
      AmountTurns(close, p.spreadBps / 10000.0);
    }
  }

  /** There is something to propose exactly for a named instrument of a named class, quoted
      and moving, under a budget, when a ten-thousandth of a unit fits the money left, of the
      position's share and of the deployment cap, and its distance to the stop the risk left,
      of the position's share and of its class. */
  lemma ProposalIff(p: Rules, sig: Signals, assetClass: string, c: Candidate, deployed: real, classRisk: real,
                    stop: real)
    requires StopsAt(p, sig.dailySigma(c.volatility), PaidAt(c.close, p), stop)
    ensures Propose(p, sig, assetClass, c, deployed, classRisk).Some? <==>
            && c.key != "" && assetClass != "" && c.close > 0.0 && c.volatility > 0.0 && p.budget > 0.0
            && deployed >= 0.0 && classRisk >= 0.0 && p.spreadBps >= 0.0 && BidOn(c.close, p) > 0.0
            && stop < PaidAt(c.close, p)
            && Amount(0.0001, c.close) <= p.Share(p.maxPositionPct)
            && Amount(0.0001, c.close) <= p.DeploymentCap() - deployed
            && Amount(0.0001, PaidAt(c.close, p) - stop) <= p.Share(p.riskPerPositionPct)
            && Amount(0.0001, PaidAt(c.close, p) - stop) <= p.ClassRiskCap() - classRisk
  {
    PriceIs(p, c.close);
    var gap := StopDistance(p, sig, PaidAt(c.close, p), c.volatility);
    GapIs(p, sig, PaidAt(c.close, p), c.volatility, stop);
    hide PaidAt, BidOn, Amount, AdverseBuy, StopsAt, StopDistance, Quantity, Rules.Ask, Rules.Bid, Rules.Share;
    if c.close > 0.0 {
      QuotesInOrder(p, c.close);
      AmountLess(0.0, 0.0001, c.close);
      AmountOfNothing(c.close);
      if gap > 0.0 {
        var money := Min(p.Share(p.maxPositionPct), p.DeploymentCap() - deployed);
        var risk := Min(p.Share(p.riskPerPositionPct), p.ClassRiskCap() - classRisk);
        QuantityPositiveIff(money, c.close, risk, gap);
        AmountLess(0.0, 0.0001, gap);
        AmountOfNothing(gap);
      }
    }
  }

  lemma GapIs(p: Rules, sig: Signals, price: real, volatility: real, stop: real)
    requires StopsAt(p, sig.dailySigma(volatility), price, stop)
    ensures price - stop == StopDistance(p, sig, price, volatility)
  {}

  lemma AmountOfNothing(d: real)
    ensures Amount(0.0, d) == 0.0
  {}

  ghost predicate OpenedSome(p: Rules, sig: Signals, classes: map<string, string>, tape: seq<Quote>, h: Holding) {
    exists i :: 0 <= i < |tape| && OpenedOn(p, sig, classes, tape[i], h)
  }

  lemma {:induction false} CandidateIsQuoted(p: Rules, sig: Signals, tape: seq<Quote>, open: seq<Holding>, c: Candidate)
    requires c in Candidates(p, sig, tape, open)
    ensures exists i :: 0 <= i < |tape| && CandidateOf(p, sig, tape[i], open) == Some(c)
  {
    hide CandidateOf;
    var init, last := tape[..|tape| - 1], tape[|tape| - 1];
    if c in Candidates(p, sig, init, open) {
      CandidateIsQuoted(p, sig, init, open, c);
      var i :| 0 <= i < |init| && CandidateOf(p, sig, init[i], open) == Some(c);
      assert tape[i] == init[i];
    } else {
      assert CandidateOf(p, sig, last, open) == Some(c);
    }
  }

  lemma BoughtAsQuoted(p: Rules, sig: Signals, classes: map<string, string>, day: int, open: seq<Holding>, q: Quote,
                       c: Candidate, book: seq<Holding>)
    requires CandidateOf(p, sig, q, open) == Some(c)
    requires var assetClass := ClassOf(classes, c.key);
             Propose(p, sig, assetClass, c, Deployed(book), ClassRisk(book, assetClass)).Some?
    ensures var assetClass := ClassOf(classes, c.key);
            var o := Propose(p, sig, assetClass, c, Deployed(book), ClassRisk(book, assetClass)).value;
            OpenedOn(p, sig, classes, q, Bought(c.key, assetClass, day, o))
  {
    hide Deployed, ClassRisk, PaidAt, Amount, IsFee, Commission, StopsAt;
    var assetClass := ClassOf(classes, c.key);
    ProposalExact(p, sig, assetClass, c, Deployed(book), ClassRisk(book, assetClass));
    var o := Propose(p, sig, assetClass, c, Deployed(book), ClassRisk(book, assetClass)).value;
    CommissionIs(Amount(o.quantity, o.price));
    hide Propose;
  }

  /** Every candidate comes from a quote. */
  ghost predicate AllQuoted(p: Rules, sig: Signals, tape: seq<Quote>, open: seq<Holding>, cands: seq<Candidate>) {
    forall k :: 0 <= k < |cands| ==> exists i :: 0 <= i < |tape| && CandidateOf(p, sig, tape[i], open) == Some(cands[k])
  }

  /** What is open was open before, or was opened today on a quote. */
  ghost predicate OpenedToday(p: Rules, sig: Signals, classes: map<string, string>, tape: seq<Quote>, day: int,
                              open: seq<Holding>, after: seq<Holding>)
  {
    forall k :: 0 <= k < |after| ==>
      after[k] in open || (after[k].date == day && OpenedSome(p, sig, classes, tape, after[k]))
  }

  lemma {:induction false} EntersExact(p: Rules, sig: Signals, classes: map<string, string>, day: int,
                                       tape: seq<Quote>, cands: seq<Candidate>, open: seq<Holding>)
    requires AllQuoted(p, sig, tape, open, cands)
    ensures OpenedToday(p, sig, classes, tape, day, open, Enter(p, sig, classes, day, cands, open))
  {
    if cands == [] {
    } else {
      hide OpenedSome, CandidateOf, TryEnter;
      var init, c := cands[..|cands| - 1], cands[|cands| - 1];
      EntersExact(p, sig, classes, day, tape, init, open);
      var i :| 0 <= i < |tape| && CandidateOf(p, sig, tape[i], open) == Some(c);
      TryExact(p, sig, classes, day, tape, i, c, open, Enter(p, sig, classes, day, init, open));
      hide OpenedToday;
    }
  }

  lemma TryExact(p: Rules, sig: Signals, classes: map<string, string>, day: int, tape: seq<Quote>, i: nat, c: Candidate,
                 open: seq<Holding>, book: seq<Holding>)
    requires i < |tape| && CandidateOf(p, sig, tape[i], open) == Some(c)
    requires OpenedToday(p, sig, classes, tape, day, open, book)
    ensures OpenedToday(p, sig, classes, tape, day, open, TryEnter(p, sig, classes, day, book, c))
  {
    hide OpenedOn, CandidateOf, Propose, Deployed, ClassRisk;
    var assetClass := ClassOf(classes, c.key);
    var offer := Propose(p, sig, assetClass, c, Deployed(book), ClassRisk(book, assetClass));
    if offer.Some? {
      BoughtAsQuoted(p, sig, classes, day, open, tape[i], c, book);
      var h := Bought(c.key, assetClass, day, offer.value);
      assert h.date == day && OpenedSome(p, sig, classes, tape, h);
      hide OpenedSome, Bought;
    }
  }

  lemma RankedQuoted(p: Rules, sig: Signals, tape: seq<Quote>, open: seq<Holding>)
    ensures AllQuoted(p, sig, tape, open, SortBy(Candidates(p, sig, tape, open), Strength))
  {
    hide CandidateOf;
    var cands := Candidates(p, sig, tape, open);
    var ranked := SortBy(cands, Strength);
    SortIsAscendingPermutation(cands, Strength);
    forall k | 0 <= k < |ranked|
      ensures exists i :: 0 <= i < |tape| && CandidateOf(p, sig, tape[i], open) == Some(ranked[k])
    {
      assert ranked[k] in multiset(ranked) && ranked[k] in multiset(cands) && ranked[k] in cands;
      CandidateIsQuoted(p, sig, tape, open, ranked[k]);
    }
  }

  // --- Over a whole replay --------------------------------------------------------------------------

  /** The position was opened on the quote of instrument `i` in session `a`. */
  ghost predicate OpenedIn(p: Rules, sig: Signals, classes: map<string, string>, market: seq<Series>, dates: seq<int>,
                           h: Holding, i: int, a: int)
  {
    && 0 <= i < |market| && 0 <= a < |dates| && h.date == dates[a]
    && OpenedOn(p, sig, classes, QuoteAt(market[i], dates, a, p.window), h)
  }

  ghost predicate Opened(p: Rules, sig: Signals, classes: map<string, string>, market: seq<Series>, dates: seq<int>,
                         h: Holding, n: int)
  {
    exists i, a :: a < n && OpenedIn(p, sig, classes, market, dates, h, i, a)
  }

  /** The round trip closed such a position on the quote of instrument `i` in a later
      session `b`. */
  ghost predicate ClosedIn(p: Rules, sig: Signals, classes: map<string, string>, market: seq<Series>, dates: seq<int>,
                           t: Trip, h: Holding, i: int, b: int)
  {
    && 0 <= i < |market| && 0 <= b < |dates| && Opened(p, sig, classes, market, dates, h, b)
    && ClosedOn(p, sig, h, QuoteAt(market[i], dates, b, p.window), dates[b], t)
  }

  ghost predicate Closed(p: Rules, sig: Signals, classes: map<string, string>, market: seq<Series>, dates: seq<int>,
                         t: Trip, n: int)
  {
    exists h, i, b :: b < n && ClosedIn(p, sig, classes, market, dates, t, h, i, b)
  }

  ghost predicate AllOpened(p: Rules, sig: Signals, classes: map<string, string>, market: seq<Series>, dates: seq<int>,
                            open: seq<Holding>, n: int)
  {
    forall k :: 0 <= k < |open| ==> Opened(p, sig, classes, market, dates, open[k], n)
  }

  ghost predicate AllClosed(p: Rules, sig: Signals, classes: map<string, string>, market: seq<Series>, dates: seq<int>,
                            trips: seq<Trip>, n: int)
  {
    forall k :: 0 <= k < |trips| ==> Closed(p, sig, classes, market, dates, trips[k], n)
  }

  lemma LaterToo(p: Rules, sig: Signals, classes: map<string, string>, market: seq<Series>, dates: seq<int>, book: Book,
                 n: int)
    requires AllOpened(p, sig, classes, market, dates, book.open, n)
    requires AllClosed(p, sig, classes, market, dates, book.trips, n)
    ensures AllOpened(p, sig, classes, market, dates, book.open, n + 1)
    ensures AllClosed(p, sig, classes, market, dates, book.trips, n + 1)
  {
    hide OpenedIn, ClosedIn;
    forall k | 0 <= k < |book.open| ensures Opened(p, sig, classes, market, dates, book.open[k], n + 1) {
      assert Opened(p, sig, classes, market, dates, book.open[k], n);
    }
    forall k | 0 <= k < |book.trips| ensures Closed(p, sig, classes, market, dates, book.trips[k], n + 1) {
      assert Closed(p, sig, classes, market, dates, book.trips[k], n);
    }
  }

  lemma SessionTrips(p: Rules, sig: Signals, classes: map<string, string>, market: seq<Series>, dates: seq<int>,
                     n: nat, open: seq<Holding>, trips: seq<Trip>)
    requires n < |dates| && AllOpened(p, sig, classes, market, dates, open, n)
    requires ClosedAll(p, sig, Tape(market, dates, n, p.window), dates[n], open, trips)
    ensures AllClosed(p, sig, classes, market, dates, trips, n + 1)
  {
    hide ClosedOn, OpenedIn, Opened;
    var tape := Tape(market, dates, n, p.window);
    forall k | 0 <= k < |trips| ensures Closed(p, sig, classes, market, dates, trips[k], n + 1) {
      assert ClosedSome(p, sig, tape, dates[n], open, trips[k]);
      var h, i :| h in open && 0 <= i < |tape| && ClosedOn(p, sig, h, tape[i], dates[n], trips[k]);
      assert tape[i] == QuoteAt(market[i], dates, n, p.window);
      assert ClosedIn(p, sig, classes, market, dates, trips[k], h, i, n);
    }
  }

  lemma SessionOpens(p: Rules, sig: Signals, classes: map<string, string>, market: seq<Series>, dates: seq<int>,
                     n: nat, kept: seq<Holding>, open: seq<Holding>)
    requires n < |dates| && AllOpened(p, sig, classes, market, dates, kept, n + 1)
    requires OpenedToday(p, sig, classes, Tape(market, dates, n, p.window), dates[n], kept, open)
    ensures AllOpened(p, sig, classes, market, dates, open, n + 1)
  {
    hide OpenedOn;
    var tape := Tape(market, dates, n, p.window);
    forall k | 0 <= k < |open| ensures Opened(p, sig, classes, market, dates, open[k], n + 1) {
      if open[k] !in kept {
        var i :| 0 <= i < |tape| && OpenedOn(p, sig, classes, tape[i], open[k]);
        assert tape[i] == QuoteAt(market[i], dates, n, p.window);
        assert OpenedIn(p, sig, classes, market, dates, open[k], i, n);
      }
      hide OpenedIn;
    }
  }

  lemma {:induction false} ExitsKeepSome(p: Rules, sig: Signals, classes: map<string, string>, day: int,
                                         tape: seq<Quote>, open: seq<Holding>)
    ensures forall h :: h in Exits(p, sig, classes, day, tape, open).open ==> h in open
  {
    if open == [] {
    } else {
      ExitsKeepSome(p, sig, classes, day, tape, open[..|open| - 1]);
      assert open == open[..|open| - 1] + [open[|open| - 1]];
      hide ExitReason, QuoteOf;
    }
  }

  /** Over every replay, each open position was opened in some session on the quote of an
      instrument, as `OpenedOn` says, and each round trip closed one in a later session as
      `ClosedOn` says: at what price, for which of the four reasons, for what it brought
      minus what it had cost, and for the fees of both. */
  lemma {:induction false} EveryTripTold(p: Rules, sig: Signals, classes: map<string, string>, market: seq<Series>,
                                         dates: seq<int>, n: nat)
    requires n <= |dates|
    ensures AllOpened(p, sig, classes, market, dates, RunTo(p, sig, classes, market, dates, n).open, n)
    ensures AllClosed(p, sig, classes, market, dates, RunTo(p, sig, classes, market, dates, n).trips, n)
  {
    if n == 0 {
      NothingTold(p, sig, classes, market, dates);
    } else {
      EveryTripTold(p, sig, classes, market, dates, n - 1);
      OneMoreTold(p, sig, classes, market, dates, n);
    }
    hide *;
  }

  lemma NothingTold(p: Rules, sig: Signals, classes: map<string, string>, market: seq<Series>, dates: seq<int>)
    ensures AllOpened(p, sig, classes, market, dates, RunTo(p, sig, classes, market, dates, 0).open, 0)
    ensures AllClosed(p, sig, classes, market, dates, RunTo(p, sig, classes, market, dates, 0).trips, 0)
  {
    hide Opened, Closed;
  }

  lemma OneMoreTold(p: Rules, sig: Signals, classes: map<string, string>, market: seq<Series>, dates: seq<int>, n: nat)
    requires 0 < n <= |dates|
    requires AllOpened(p, sig, classes, market, dates, RunTo(p, sig, classes, market, dates, n - 1).open, n - 1)
    requires AllClosed(p, sig, classes, market, dates, RunTo(p, sig, classes, market, dates, n - 1).trips, n - 1)
    ensures AllOpened(p, sig, classes, market, dates, RunTo(p, sig, classes, market, dates, n).open, n)
    ensures AllClosed(p, sig, classes, market, dates, RunTo(p, sig, classes, market, dates, n).trips, n)
  {
    hide Session, AllOpened, AllClosed, Tape;
    var before := RunTo(p, sig, classes, market, dates, n - 1);
    LaterToo(p, sig, classes, market, dates, before, n - 1);
    if n - 1 >= p.warmup {
      SessionTold(p, sig, classes, market, dates, n - 1, before);
    }
  }

  lemma SessionTold(p: Rules, sig: Signals, classes: map<string, string>, market: seq<Series>, dates: seq<int>, n: nat,
                    book: Book)
    requires n < |dates| && AllOpened(p, sig, classes, market, dates, book.open, n)
    requires AllClosed(p, sig, classes, market, dates, book.trips, n)
    ensures var after := Session(p, sig, classes, dates[n], Tape(market, dates, n, p.window), book);
            && AllOpened(p, sig, classes, market, dates, after.open, n + 1)
            && AllClosed(p, sig, classes, market, dates, after.trips, n + 1)
  {
    var tape, day := Tape(market, dates, n, p.window), dates[n];
    var e := Exits(p, sig, classes, day, tape, book.open);
    ExitsExact(p, sig, classes, day, tape, book.open);
    SessionTrips(p, sig, classes, market, dates, n, book.open, e.trips);
    LaterToo(p, sig, classes, market, dates, book, n);
    ExitsKeepSome(p, sig, classes, day, tape, book.open);
    SomeOpened(p, sig, classes, market, dates, book.open, e.open, n + 1);
    var ranked := SortBy(Candidates(p, sig, tape, e.open), Strength);
    RankedQuoted(p, sig, tape, e.open);
    EntersExact(p, sig, classes, day, tape, ranked, e.open);
    SessionOpens(p, sig, classes, market, dates, n, e.open, Enter(p, sig, classes, day, ranked, e.open));
    hide Exits, Enter, SortBy, Candidates, Tape, AllOpened, ClosedAll, OpenedToday, AllQuoted, Closed;
  }

  lemma SomeOpened(p: Rules, sig: Signals, classes: map<string, string>, market: seq<Series>, dates: seq<int>,
                   open: seq<Holding>, kept: seq<Holding>, n: int)
    requires AllOpened(p, sig, classes, market, dates, open, n) && forall h :: h in kept ==> h in open
    ensures AllOpened(p, sig, classes, market, dates, kept, n)
  {
    hide Opened;
    forall k | 0 <= k < |kept| ensures Opened(p, sig, classes, market, dates, kept[k], n) {
      assert kept[k] in open;
    }
  }
}
