/** The execution gateway's ceiling on what one side of a market may hold. */
module ExposureCap {
  import opened Lists
  import opened AverageCost

  /** An order; `capitalRatio` is the capital committed per unit of notional, and
      `readable` says whether what its side holds could be read when it was checked. */
  datatype Order = Order(key: Key, side: Side, size: real, price: real, venue: string, capitalRatio: real,
                         readable: bool)

  datatype Execution = Execution(size: real, price: real)

  /** The prediction-market ceiling and the broker's paper budget. */
  datatype Limits = Limits(ceiling: real, brokerBudget: real)

  const SLACK := 0.000000001

  function Cap(limits: Limits, venue: string): real { if venue == "ibkr" then limits.brokerBudget else limits.ceiling }

  /** Notional held, by the cost-basis query: positive rows only. */
  function HeldCost(books: Books, key: Key): real {
    if BasisAt(books, key).size > 0.0 then BasisAt(books, key).Cost() else 0.0
  }

  function Proposed(o: Order): real { Value(o.size, o.price) }

  predicate OverCap(limits: Limits, books: Books, o: Order) {
    Value(HeldCost(books, o.key), o.capitalRatio) + Value(Proposed(o), o.capitalRatio) > Cap(limits, o.venue) + SLACK
  }

  /** An unknown aggregate never becomes a permission. */
  predicate ExceedsMarketCap(limits: Limits, books: Books, o: Order) {
    o.side.Buy? && (!o.readable || OverCap(limits, books, o))
  }

  function Booked(books: Books, o: Order, e: Execution): Books {
    books[o.key := Apply(BasisAt(books, o.key), Fill(o.side, e.size, e.price, 0.0))]
  }

  function FillAll(books: Books, legs: seq<Order>, fills: seq<Execution>): Books
    requires |fills| == |legs|
  {
    if legs == [] then books
    else Booked(FillAll(books, legs[..|legs| - 1], fills[..|legs| - 1]), legs[|legs| - 1], fills[|legs| - 1])
  }

  // --- A batch of legs ------------------------------------------------------------

  predicate Adds(o: Order, key: Key) { o.side.Buy? && o.key == key }

  /** What earlier legs of the batch reserved on a key. */
  function Reserved(legs: seq<Order>, key: Key): real {
    if legs == [] then 0.0
    else
      var last := legs[|legs| - 1];
      Reserved(legs[..|legs| - 1], key) + if Adds(last, key) then Proposed(last) else 0.0
  }

  predicate LegBlocked(limits: Limits, books: Books, legs: seq<Order>, i: nat)
    requires i < |legs|
  {
    && legs[i].side.Buy?
    && (ExceedsMarketCap(limits, books, legs[i])
        || Reserved(legs[..i], legs[i].key) + Proposed(legs[i]) > limits.ceiling + SLACK)
  }

  predicate BatchBlocked(limits: Limits, books: Books, legs: seq<Order>) {
    exists i :: 0 <= i < |legs| && LegBlocked(limits, books, legs, i)
  }

  class Gateway {
    const limits: Limits
    var costBasis: Books
    var placed: seq<Order>

    constructor (l: Limits)
      ensures limits == l && costBasis == map[] && placed == []
    {
      limits := l;
      costBasis, placed := map[], [];
    }

    method MarketCapBlocks(o: Order) returns (blocked: bool)
      ensures blocked == ExceedsMarketCap(limits, costBasis, o)
    {
      if o.side != Buy {
        return false;
      }
      if !o.readable {
        return true;
      }
      var held := HeldCost(costBasis, o.key);
      var proposed := Value(o.size, o.price);
      var cap := if o.venue == "ibkr" then limits.brokerBudget else limits.ceiling;
      return Value(held, o.capitalRatio) + Value(proposed, o.capitalRatio) > cap + SLACK;
    }

    /** Checks the aggregate, then places; `e` is what the order fills at once. */
    method Submit(o: Order, e: Execution) returns (skipped: bool)
      modifies this
      ensures skipped == ExceedsMarketCap(limits, old(costBasis), o)
      ensures skipped ==> costBasis == old(costBasis) && placed == old(placed)
      ensures !skipped ==> costBasis == Booked(old(costBasis), o, e) && placed == old(placed) + [o]
    {
      skipped := MarketCapBlocks(o);
      if skipped {
        return;
      }
      placed := placed + [o];
      costBasis := costBasis[o.key := Apply(BasisAt(costBasis, o.key), Fill(o.side, e.size, e.price, 0.0))];
    }

    /** Every leg is checked before any is placed: all of them go out, or none. */
    method PlaceLegs(legs: seq<Order>, fills: seq<Execution>) returns (rejected: bool)
      requires |fills| == |legs|
      modifies this
      ensures rejected == BatchBlocked(limits, old(costBasis), legs)
      ensures rejected ==> costBasis == old(costBasis) && placed == old(placed)
      ensures !rejected ==> costBasis == FillAll(old(costBasis), legs, fills) && placed == old(placed) + legs
    {
      rejected := CheckLegs(legs);
      if rejected {
        return;
      }
      placed := placed + legs;
      hide Apply, Value, Booked;
      var i := 0;
      while i < |legs|
        invariant 0 <= i <= |legs|
        invariant costBasis == FillAll(old(costBasis), legs[..i], fills[..i]) && placed == old(placed) + legs
      {
        PrefixGrows(legs, i);
        PrefixGrows(fills, i);
        costBasis := Booked(costBasis, legs[i], fills[i]);
        i := i + 1;
      }
      WholePrefix(legs);
      WholePrefix(fills);
    }

    method CheckLegs(legs: seq<Order>) returns (blocked: bool)
      ensures blocked == BatchBlocked(limits, costBasis, legs)
    {
      hide ExceedsMarketCap, Value;
      var reservations: map<Key, real> := map[];
      var i := 0;
      while i < |legs|
        invariant 0 <= i <= |legs|
        invariant forall k :: 0 <= k < i ==> !LegBlocked(limits, costBasis, legs, k)
        invariant forall key :: (if key in reservations then reservations[key] else 0.0) == Reserved(legs[..i], key)
      {
        PrefixGrows(legs, i);
        var o := legs[i];
        if o.side == Buy {
          var over := MarketCapBlocks(o);
          var already := if o.key in reservations then reservations[o.key] else 0.0;
          if over || already + Value(o.size, o.price) > limits.ceiling + SLACK {
            assert LegBlocked(limits, costBasis, legs, i);
            return true;
          }
          reservations := reservations[o.key := already + Value(o.size, o.price)];
        }
        i := i + 1;
      }
      return false;
    }
  }

  // --- Single orders: the cap is inductive -------------------------------------------

  /** A fill at once, of at most the order's size and price for a buy. */
  predicate Honours(o: Order, e: Execution) {
    e.size >= 0.0 && e.price >= 0.0 && (o.side.Buy? ==> e.size <= o.size && e.price <= o.price)
  }

  predicate OpenOrFlat(b: Basis) { b.size >= 0.0 && b.avg >= 0.0 }

  lemma ValueMonotone(m: real, n: real, p: real, q: real)
    requires 0.0 <= m <= n && 0.0 <= p <= q
    ensures 0.0 <= Value(m, p) <= Value(n, q)
  {
    ValueOrder(m, p, q);
    ValueOrder(m, 0.0, p);
    ValueAdds(m, n - m, q);
    ValueOrder(n - m, 0.0, q);
    ValueOfNothing(m);
    ValueOfNothing(n - m);
  }

  /** A buy adds at most what it proposed; a sell adds nothing. */
  lemma FillMovesCost(b: Basis, o: Order, e: Execution)
    requires OpenOrFlat(b) && Honours(o, e)
    ensures var after := Apply(b, Fill(o.side, e.size, e.price, 0.0));
            && OpenOrFlat(after) && 0.0 <= after.Cost() <= b.Cost() + (if o.side.Buy? then Proposed(o) else 0.0)
    ensures 0.0 <= b.Cost()
  {
    hide Value, PerUnit;
    var f := Fill(o.side, e.size, e.price, 0.0);
    ValueMonotone(0.0, b.size, 0.0, b.avg);
    ValueOfNothing(0.0);
    ValueOfNothing(b.avg);
    ApplyConserves(b, f);
    if o.side.Buy? {
      ValueMonotone(e.size, o.size, e.price, o.price);
      if b.size + e.size > 0.0 {
        AverageNotNegative(b.size + e.size, Blend(b.size, b.avg, e.size, e.price));
      }
    } else {
      ValueMonotone(b.size - SellSize(b, f), b.size, 0.0, b.avg);
      ValueMonotone(b.size - SellSize(b, f), b.size, b.avg, b.avg);
    }
  }

  lemma AverageNotNegative(size: real, avg: real)
    requires size > 0.0 && Value(size, avg) >= 0.0
    ensures avg >= 0.0
  {
    ValueOfNothing(size);
    ValueOrder(size, 0.0, avg);
  }

  /** One event of a run: an order as it is submitted and what it fills at once. */
  datatype Event = Event(order: Order, execution: Execution)

  function Submitted(limits: Limits, books: Books, e: Event): Books {
    if ExceedsMarketCap(limits, books, e.order) then books else Booked(books, e.order, e.execution)
  }

  function RunAll(limits: Limits, books: Books, events: seq<Event>): Books {
    if events == [] then books
    else Submitted(limits, RunAll(limits, books, events[..|events| - 1]), events[|events| - 1])
  }

  /** Orders on one key are of one venue and commit capital at one ratio. */
  ghost predicate Uniform(events: seq<Event>, venue: Key -> string, ratio: Key -> real) {
    forall i :: 0 <= i < |events| ==>
      && Honours(events[i].order, events[i].execution)
      && events[i].order.venue == venue(events[i].order.key)
      && events[i].order.capitalRatio == ratio(events[i].order.key)
  }

  ghost predicate AllOpenOrFlat(books: Books) {
    forall key :: key in books ==> OpenOrFlat(books[key])
  }

  ghost predicate WithinCap(limits: Limits, books: Books, venue: Key -> string, ratio: Key -> real) {
    forall key :: Value(HeldCost(books, key), ratio(key)) <= Max(0.0, Cap(limits, venue(key)) + 0.000000001)
  }

  lemma HeldIsCost(books: Books, key: Key)
    requires AllOpenOrFlat(books)
    ensures HeldCost(books, key) == BasisAt(books, key).Cost() && OpenOrFlat(BasisAt(books, key))
  {
    hide Value;
    ValueOfNothing(BasisAt(books, key).avg);
  }

  lemma BookedMovesHeld(books: Books, o: Order, e: Execution)
    requires AllOpenOrFlat(books) && Honours(o, e)
    ensures AllOpenOrFlat(Booked(books, o, e))
    ensures 0.0 <= HeldCost(Booked(books, o, e), o.key)
                <= HeldCost(books, o.key) + (if o.side.Buy? then Proposed(o) else 0.0)
    ensures forall key :: key != o.key ==> HeldCost(Booked(books, o, e), key) == HeldCost(books, key)
  {
    hide Value, Apply, Basis.Cost, Proposed, Honours, OpenOrFlat;
    FlatIsOpenOrFlat();
    assert OpenOrFlat(BasisAt(books, o.key));
    FillMovesCost(BasisAt(books, o.key), o, e);
    HeldIsCost(books, o.key);
    HeldIsCost(Booked(books, o, e), o.key);
  }

  lemma FlatIsOpenOrFlat()
    ensures OpenOrFlat(FLAT)
  {}

  lemma SubmitWithinCap(limits: Limits, books: Books, e: Event, venue: Key -> string, ratio: Key -> real)
    requires AllOpenOrFlat(books) && WithinCap(limits, books, venue, ratio)
    requires Honours(e.order, e.execution)
    requires e.order.venue == venue(e.order.key) && e.order.capitalRatio == ratio(e.order.key) >= 0.0
    ensures AllOpenOrFlat(Submitted(limits, books, e)) && WithinCap(limits, Submitted(limits, books, e), venue, ratio)
  {
    hide Value, Booked, HeldCost, Honours, OpenOrFlat, Proposed, AllOpenOrFlat;
    if !ExceedsMarketCap(limits, books, e.order) {
      var o := e.order;
      var after := Booked(books, o, e.execution);
      BookedMovesHeld(books, o, e.execution);
      var more := if o.side.Buy? then Proposed(o) else 0.0;
      ValueMonotoneLeft(HeldCost(after, o.key), HeldCost(books, o.key) + more, o.capitalRatio);
      ValueAdds(HeldCost(books, o.key), more, o.capitalRatio);
      ValueOfNothing(o.capitalRatio);
      assert Value(HeldCost(books, o.key), ratio(o.key)) <= Max(0.0, Cap(limits, venue(o.key)) + SLACK);
      forall key ensures Value(HeldCost(after, key), ratio(key)) <= Max(0.0, Cap(limits, venue(key)) + SLACK) {
        assert Value(HeldCost(books, key), ratio(key)) <= Max(0.0, Cap(limits, venue(key)) + SLACK);
        if key != o.key {
          assert HeldCost(after, key) == HeldCost(books, key);
        }
      }
    }
  }

  lemma ValueMonotoneLeft(m: real, n: real, p: real)
    requires m <= n && p >= 0.0
    ensures Value(m, p) <= Value(n, p)
  {
    ValueAdds(m, n - m, p);
    ValueMonotone(0.0, n - m, p, p);
    ValueOfNothing(p);
  }

  /** Over any run of submitted buys and sells that fill at once, the capital held
      on a side of a market never exceeds its cap (by more than the tolerance). */
  lemma {:induction false} CapIsInductive(limits: Limits, events: seq<Event>, venue: Key -> string, ratio: Key -> real)
    requires Uniform(events, venue, ratio) && forall key :: ratio(key) >= 0.0
    ensures AllOpenOrFlat(RunAll(limits, map[], events))
    ensures WithinCap(limits, RunAll(limits, map[], events), venue, ratio)
  {
    if events == [] {
      NothingHeld(limits, venue, ratio);
    } else {
      hide Submitted, AllOpenOrFlat, WithinCap, Honours;
      var init := events[..|events| - 1];
      assert forall i :: 0 <= i < |init| ==> init[i] == events[i];
      CapIsInductive(limits, init, venue, ratio);
      SubmitWithinCap(limits, RunAll(limits, map[], init), events[|events| - 1], venue, ratio);
    }
  }

  lemma NothingHeld(limits: Limits, venue: Key -> string, ratio: Key -> real)
    ensures AllOpenOrFlat(map[]) && WithinCap(limits, map[], venue, ratio)
  {
    forall key ensures Value(HeldCost(map[], key), ratio(key)) == 0.0 {
      ValueOfNothing(ratio(key));
    }
  }

  // --- Batches: what the separate checks amount to ---------------------------------------

  ghost predicate AllHonour(legs: seq<Order>, fills: seq<Execution>) {
    |fills| == |legs| && forall i :: 0 <= i < |legs| ==> Honours(legs[i], fills[i])
  }

  lemma {:induction false} FillAllBounded(books: Books, legs: seq<Order>, fills: seq<Execution>, key: Key)
    requires AllOpenOrFlat(books) && AllHonour(legs, fills)
    ensures AllOpenOrFlat(FillAll(books, legs, fills))
    ensures HeldCost(FillAll(books, legs, fills), key) <= HeldCost(books, key) + Reserved(legs, key)
    ensures Reserved(legs, key) >= 0.0
  {
    if legs == [] {
    } else {
      hide Booked, HeldCost, AllOpenOrFlat, Honours, Proposed;
      var n := |legs| - 1;
      FillAllBounded(books, legs[..n], fills[..n], key);
      BookedMovesHeld(FillAll(books, legs[..n], fills[..n]), legs[n], fills[n]);
      ProposedNotNegative(legs[n], fills[n]);
    }
  }

  lemma ProposedNotNegative(o: Order, e: Execution)
    requires Honours(o, e)
    ensures o.side.Buy? ==> Proposed(o) >= 0.0
  {
    hide Value;
    if o.side.Buy? {
      ValueMonotone(e.size, o.size, e.price, o.price);
    }
  }

  /** Orders whose notional is their capital, on venues under the market ceiling. */
  ghost predicate Contracts(legs: seq<Order>) {
    forall i :: 0 <= i < |legs| ==> legs[i].venue != "ibkr" && legs[i].capitalRatio == 1.0
  }

  lemma {:induction false} SomeLegAdds(legs: seq<Order>, key: Key)
    ensures (forall i :: 0 <= i < |legs| ==> !Adds(legs[i], key)) ==> Reserved(legs, key) == 0.0
  {
    if legs == [] {
    } else {
      SomeLegAdds(legs[..|legs| - 1], key);
    }
  }

  /** The two checks of a batch, taken apart: each added leg fits on top of what is
      held, and all added legs together fit under the ceiling. */
  lemma AcceptedBatch(limits: Limits, books: Books, legs: seq<Order>, key: Key)
    requires !BatchBlocked(limits, books, legs) && Contracts(legs)
    ensures Reserved(legs, key) <= Max(0.0, limits.ceiling + 0.000000001)
    ensures forall i :: 0 <= i < |legs| && Adds(legs[i], key) ==>
              HeldCost(books, key) + Proposed(legs[i]) <= limits.ceiling + 0.000000001
  {
    forall i | 0 <= i < |legs| && Adds(legs[i], key)
      ensures HeldCost(books, key) + Proposed(legs[i]) <= limits.ceiling + SLACK
      ensures Reserved(legs[..i], key) + Proposed(legs[i]) <= limits.ceiling + SLACK
    {
      assert !LegBlocked(limits, books, legs, i);
    }
    WholePrefix(legs);
    ReservedBound(limits, legs, |legs|, key);
  }

  lemma {:induction false} ReservedBound(limits: Limits, legs: seq<Order>, n: nat, key: Key)
    requires n <= |legs|
    requires forall i :: 0 <= i < |legs| && Adds(legs[i], key) ==>
               Reserved(legs[..i], key) + Proposed(legs[i]) <= limits.ceiling + SLACK
    ensures Reserved(legs[..n], key) <= Max(0.0, limits.ceiling + SLACK)
  {
    if n == 0 {
    } else {
      hide Proposed;
      ReservedBound(limits, legs, n - 1, key);
      PrefixGrows(legs, n - 1);
    }
  }

  /** One batch: what is held afterwards on a side that was within the ceiling, or
      that the batch adds nothing to, is within twice the ceiling. With at most one
      added leg on the side it stays within the ceiling itself. */
  lemma BatchBound(limits: Limits, books: Books, legs: seq<Order>, fills: seq<Execution>, key: Key)
    requires AllOpenOrFlat(books) && AllHonour(legs, fills) && Contracts(legs)
    requires !BatchBlocked(limits, books, legs)
    requires HeldCost(books, key) <= 2.0 * Max(0.0, limits.ceiling + SLACK)
    ensures HeldCost(FillAll(books, legs, fills), key) <= 2.0 * Max(0.0, limits.ceiling + 0.000000001)
    ensures HeldCost(books, key) <= Max(0.0, limits.ceiling + 0.000000001) && OneAdds(legs, key) ==>
              HeldCost(FillAll(books, legs, fills), key) <= Max(0.0, limits.ceiling + 0.000000001)
  {
    hide FillAll, HeldCost, AllOpenOrFlat, Proposed, BatchBlocked;
    FillAllBounded(books, legs, fills, key);
    AcceptedBatch(limits, books, legs, key);
    SomeLegAdds(legs, key);
    if i :| 0 <= i < |legs| && Adds(legs[i], key) {
      ProposedNotNegative(legs[i], fills[i]);
      if OneAdds(legs, key) {
        OneLegReserved(legs, key, i);
      }
    }
  }

  ghost predicate OneAdds(legs: seq<Order>, key: Key) {
    forall i, j :: 0 <= i < j < |legs| ==> !(Adds(legs[i], key) && Adds(legs[j], key))
  }

  lemma {:induction false} OneLegReserved(legs: seq<Order>, key: Key, i: nat)
    requires OneAdds(legs, key) && i < |legs| && Adds(legs[i], key)
    ensures Reserved(legs, key) == Proposed(legs[i])
  {
    var n := |legs| - 1;
    if i < n {
      OneLegReserved(legs[..n], key, i);
    } else {
      SomeLegAdds(legs[..n], key);
    }
  }

  datatype Move = Single(order: Order, execution: Execution) | Batch(legs: seq<Order>, fills: seq<Execution>)

  predicate WellFormed(m: Move) { m.Batch? ==> |m.fills| == |m.legs| }

  function Moved(limits: Limits, books: Books, m: Move): Books
    requires WellFormed(m)
  {
    match m
    case Single(o, e) => Submitted(limits, books, Event(o, e))
    case Batch(legs, fills) => if BatchBlocked(limits, books, legs) then books else FillAll(books, legs, fills)
  }

  ghost predicate Trades(moves: seq<Move>) {
    forall i :: 0 <= i < |moves| ==> FairMove(moves[i])
  }

  ghost predicate FairMove(m: Move) {
    match m
    case Single(o, e) => Honours(o, e) && o.venue != "ibkr" && o.capitalRatio == 1.0
    case Batch(legs, fills) => AllHonour(legs, fills) && Contracts(legs)
  }

  function RunMoves(limits: Limits, moves: seq<Move>): Books
    requires forall i :: 0 <= i < |moves| ==> WellFormed(moves[i])
  {
    if moves == [] then map[] else Moved(limits, RunMoves(limits, moves[..|moves| - 1]), moves[|moves| - 1])
  }

  lemma SingleBound(limits: Limits, books: Books, o: Order, e: Execution, key: Key)
    requires AllOpenOrFlat(books) && FairMove(Single(o, e))
    requires HeldCost(books, key) <= 2.0 * Max(0.0, limits.ceiling + SLACK)
    ensures AllOpenOrFlat(Submitted(limits, books, Event(o, e)))
    ensures HeldCost(Submitted(limits, books, Event(o, e)), key) <= 2.0 * Max(0.0, limits.ceiling + SLACK)
  {
    hide HeldCost, AllOpenOrFlat, Proposed, Booked;
    BookedMovesHeld(books, o, e);
  }

  /** Over any run of single orders and batches of prediction contracts, what is
      held on a side never exceeds twice the ceiling. */
  lemma {:induction false} TwiceTheCap(limits: Limits, moves: seq<Move>, key: Key)
    requires (forall i :: 0 <= i < |moves| ==> WellFormed(moves[i])) && Trades(moves)
    ensures AllOpenOrFlat(RunMoves(limits, moves))
    ensures HeldCost(RunMoves(limits, moves), key) <= 2.0 * Max(0.0, limits.ceiling + 0.000000001)
  {
    if moves == [] {
    } else {
      var init, last := moves[..|moves| - 1], moves[|moves| - 1];
      assert Trades(init);
      TwiceTheCap(limits, init, key);
      var books := RunMoves(limits, init);
      assert FairMove(last);
      hide HeldCost, AllOpenOrFlat, BatchBlocked, FillAll, Submitted;
      match last
      case Single(o, e) => SingleBound(limits, books, o, e, key);
      case Batch(legs, fills) =>
        if !BatchBlocked(limits, books, legs) {
          FillAllBounded(books, legs, fills, key);
          BatchBound(limits, books, legs, fills, key);
        }
    }
  }

  /** Legs that fill exactly as ordered. */
  ghost predicate FilledAsOrdered(legs: seq<Order>, fills: seq<Execution>) {
    |fills| == |legs| && forall i :: 0 <= i < |legs| ==>
      legs[i].side.Buy? && legs[i].size >= 0.0 && legs[i].price >= 0.0
          && fills[i] == Execution(legs[i].size, legs[i].price)
  }

  lemma BoughtAsOrdered(books: Books, o: Order)
    requires AllOpenOrFlat(books) && o.side.Buy? && o.size >= 0.0 && o.price >= 0.0
    ensures HeldCost(Booked(books, o, Execution(o.size, o.price)), o.key) == HeldCost(books, o.key) + Proposed(o)
  {
    hide Value, Apply, Basis.Cost, Realized, AllOpenOrFlat;
    BookedMovesHeld(books, o, Execution(o.size, o.price));
    HeldIsCost(books, o.key);
    HeldIsCost(Booked(books, o, Execution(o.size, o.price)), o.key);
    var f := Fill(Buy, o.size, o.price, 0.0);
    ApplyConserves(BasisAt(books, o.key), f);
    BuysRealizeNothing(BasisAt(books, o.key), f);
  }

  lemma BuysRealizeNothing(b: Basis, f: Fill)
    requires f.side.Buy?
    ensures Realized(b, f) == 0.0
  {}

  /** An accepted batch of buys that fill as ordered keeps a side within the ceiling
      exactly when what is held and all the batch adds fit under it together: the
      one sum the gateway does not form. */
  lemma {:induction false} BatchWithinCapIff(limits: Limits, books: Books, legs: seq<Order>, fills: seq<Execution>,
                                             key: Key)
    requires AllOpenOrFlat(books) && FilledAsOrdered(legs, fills)
    ensures AllOpenOrFlat(FillAll(books, legs, fills))
    ensures HeldCost(FillAll(books, legs, fills), key) <= limits.ceiling + 0.000000001
            <==> HeldCost(books, key) + Reserved(legs, key) <= limits.ceiling + 0.000000001
    ensures HeldCost(FillAll(books, legs, fills), key) == HeldCost(books, key) + Reserved(legs, key)
  {
    if legs == [] {
    } else {
      hide Booked, HeldCost, AllOpenOrFlat, Proposed;
      var n := |legs| - 1;
      var before := FillAll(books, legs[..n], fills[..n]);
      BatchWithinCapIff(limits, books, legs[..n], fills[..n], key);
      BookedMovesHeld(before, legs[n], fills[n]);
      BoughtAsOrdered(before, legs[n]);
    }
  }

  /** Twenty dollars held under a ceiling of twenty-five, and a batch of five legs of
      five dollars each: every check passes, and forty-five dollars are held. */
  lemma BatchEscapesCap(key: Key)
    ensures var limits := Limits(25.0, 5000.0);
            var leg := Order(key, Buy, 10.0, 0.5, "polymarket", 1.0, true);
            var books := map[key := Basis(40.0, 0.5)];
            var legs := [leg, leg, leg, leg, leg];
            var fills := seq(5, _ => Execution(10.0, 0.5));
            && HeldCost(books, key) == 20.0
            && !BatchBlocked(limits, books, legs)
            && HeldCost(FillAll(books, legs, fills), key) == 45.0
  {
    var limits := Limits(25.0, 5000.0);
    var leg := Order(key, Buy, 10.0, 0.5, "polymarket", 1.0, true);
    var books := map[key := Basis(40.0, 0.5)];
    var legs := [leg, leg, leg, leg, leg];
    var fills := seq(5, _ => Execution(10.0, 0.5));
    forall i: nat | i <= 5 ensures Reserved(legs[..i], key) == 5.0 * i as real {
      ReservedOfEqual(leg, legs, i);
      assert Value(i as real, 5.0) == 5.0 * i as real;
    }
    WholePrefix(legs);
    BatchWithinCapIff(limits, books, legs, fills, key);
  }

  lemma {:induction false} ReservedOfEqual(leg: Order, legs: seq<Order>, n: nat)
    requires n <= |legs| && leg.side.Buy? && forall i :: 0 <= i < |legs| ==> legs[i] == leg
    ensures Reserved(legs[..n], leg.key) == Value(n as real, Proposed(leg))
  {
    hide Value;
    if n == 0 {
      ValueOfNothing(Proposed(leg));
    } else {
      hide Proposed;
      ReservedOfEqual(leg, legs, n - 1);
      PrefixGrows(legs, n - 1);
      ValueAdds((n - 1) as real, 1.0, Proposed(leg));
      ValueOfOne(Proposed(leg));
    }
  }

  lemma ValueOfOne(x: real)
    ensures Value(1.0, x) == x
  {}

  // --- Resting orders ------------------------------------------------------------------

  /** Orders that were all let through while none of them had filled. */
  ghost predicate AllAccepted(limits: Limits, books: Books, orders: seq<Order>) {
    forall i :: 0 <= i < |orders| ==> !ExceedsMarketCap(limits, books, orders[i])
  }

  /** Accepted buys that rest and fill as ordered later keep a side within the ceiling
      exactly when what was held and everything resting on it fit together; the check
      looked at each of them alone. */
  lemma RestingWithinCapIff(limits: Limits, books: Books, orders: seq<Order>, fills: seq<Execution>, key: Key)
    requires AllOpenOrFlat(books) && FilledAsOrdered(orders, fills) && Contracts(orders)
    requires AllAccepted(limits, books, orders)
    ensures HeldCost(FillAll(books, orders, fills), key) <= limits.ceiling + 0.000000001
            <==> HeldCost(books, key) + Reserved(orders, key) <= limits.ceiling + 0.000000001
    ensures forall i :: 0 <= i < |orders| && orders[i].key == key ==>
              HeldCost(books, key) + Proposed(orders[i]) <= limits.ceiling + SLACK
  {
    hide FillAll, HeldCost, AllOpenOrFlat, Proposed;
    BatchWithinCapIff(limits, books, orders, fills, key);
    forall i | 0 <= i < |orders| && orders[i].key == key
      ensures HeldCost(books, key) + Proposed(orders[i]) <= limits.ceiling + SLACK
    {
      assert !ExceedsMarketCap(limits, books, orders[i]) && orders[i].side.Buy?;
    }
  }

  /** Whatever the ceiling, resting orders that each pass the check put any amount on
      one side. */
  lemma RestingOrdersUnbounded(limits: Limits, key: Key, amount: real)
    returns (orders: seq<Order>, fills: seq<Execution>)
    requires limits.ceiling > 0.0
    ensures FilledAsOrdered(orders, fills) && Contracts(orders) && AllAccepted(limits, map[], orders)
    ensures HeldCost(FillAll(map[], orders, fills), key) > amount
  {
    var o := Order(key, Buy, 1.0, limits.ceiling, "polymarket", 1.0, true);
    var n := Enough(limits.ceiling, amount);
    orders, fills := seq(n, _ => o), seq(n, _ => Execution(1.0, limits.ceiling));
    assert Proposed(o) == limits.ceiling && HeldCost(map[], key) == 0.0;
    hide Value, FillAll, HeldCost, Proposed;
    AcceptedAlone(limits, o);
    ReservedOfEqual(o, orders, n);
    WholePrefix(orders);
    BatchWithinCapIff(limits, map[], orders, fills, key);
  }

  lemma AcceptedAlone(limits: Limits, o: Order)
    requires o.readable && o.venue == "polymarket" && o.capitalRatio == 1.0 && Proposed(o) == limits.ceiling
    ensures !ExceedsMarketCap(limits, map[], o)
  {
    assert |"polymarket"| == 10 && |"ibkr"| == 4;
  }

  /** The check sees what is held, not what rests: two orders that both pass it and
      fill later put forty dollars on a side capped at twenty-five. */
  lemma {:induction false} RestingOrdersEscapeCap(key: Key)
    ensures var limits := Limits(25.0, 5000.0);
            var o := Order(key, Buy, 40.0, 0.5, "polymarket", 1.0, true);
            var full := Execution(40.0, 0.5);
            && !ExceedsMarketCap(limits, map[], o)
            && HeldCost(Booked(Booked(map[], o, full), o, full), key) == 40.0
  {
    var o := Order(key, Buy, 40.0, 0.5, "polymarket", 1.0, true);
    var full := Execution(40.0, 0.5);
    assert Proposed(o) == 20.0 && HeldCost(map[], key) == 0.0;
    assert !ExceedsMarketCap(Limits(25.0, 5000.0), map[], o);
    hide Booked, HeldCost, Proposed, Value, ExceedsMarketCap;
    BookedMovesHeld(map[], o, full);
    BoughtAsOrdered(map[], o);
    BoughtAsOrdered(Booked(map[], o, full), o);
  }
}
