/** Rebuilding a position from a venue's trade history, in the (size, total
    cost) form of the average-cost walk. */
module KrakenReplay {
  import opened Lists
  import opened AverageCost

  datatype Trade = Trade(time: real, fill: Fill)

  function Time(t: Trade): real { t.time }

  function Fills(trades: seq<Trade>): seq<Fill> {
    seq(|trades|, i requires 0 <= i < |trades| => trades[i].fill)
  }

  function Chronological(trades: seq<Trade>): seq<Fill> {
    Fills(SortBy(trades, Time))
  }

  /** A running position that carries its total cost beside the average. */
  datatype Tally = Tally(size: real, avg: real, totalCost: real, realized: real) {
    function AsBasis(): Basis { Basis(size, avg) }

    ghost predicate Consistent() {
      size >= 0.0 && totalCost == AsBasis().Cost()
    }
  }

  function Book(t: Tally, f: Fill): Tally {
    match f.side
    case Buy =>
      var size := t.size + f.size;
      var totalCost := t.totalCost + Value(f.size, f.price);
      Tally(size, if size > 0.0 then PerUnit(totalCost, size) else 0.0, totalCost, t.realized)
    case Sell =>
      var sell := Min(f.size, t.size);
      var size := t.size - sell;
      var realized := t.realized + (Value(sell, f.price - t.avg) - f.fee);
      if size <= 0.0 then Tally(size, 0.0, 0.0, realized)
      else Tally(size, t.avg, Value(size, t.avg), realized)
  }

  /** The total-cost form makes the same move as the average form. */
  lemma BookAgrees(t: Tally, f: Fill)
    requires t.Consistent() && f.size >= 0.0
    ensures Book(t, f).Consistent()
    ensures Book(t, f).AsBasis() == Apply(t.AsBasis(), f)
    ensures Book(t, f).realized == t.realized + Realized(t.AsBasis(), f)
  {
    hide Value, PerUnit;
    ValueOfNothing(f.price);
    ValueOfNothing(t.avg);
    ValueOfNothing(0.0);
    if f.side.Buy? {
      assert t.totalCost == Value(t.size, t.avg);
    }
  }

  /** The source keeps the total cost and divides; the ledger keeps the average
      and blends. Both land on one position, and on one realized profit. */
  method Replay(trades: seq<Trade>)
    returns (size: real, avg: real, totalCost: real, realized: real)
    requires Executed(Fills(trades))
    ensures Basis(size, avg) == Walk(Chronological(trades))
    ensures realized == BookedPnl(Chronological(trades))
    ensures totalCost == Basis(size, avg).Cost()
    ensures realized == CashFlow(Chronological(trades)) + totalCost
  {
    hide Value, PerUnit, Apply, Realized, CashMove, CashFlow, Held, Chronological;
    ValueOfNothing(0.0);
    size, avg, totalCost, realized := 0.0, 0.0, 0.0, 0.0;
    var fills := Chronological(trades);
    SortedStillExecuted(trades);
    var i := 0;
    while i < |fills|
      invariant 0 <= i <= |fills|
      invariant Tally(size, avg, totalCost, realized).Consistent()
      invariant Basis(size, avg) == Walk(fills[..i])
      invariant realized == BookedPnl(fills[..i])
    {
      var f := fills[i];
      ghost var before := Tally(size, avg, totalCost, realized);
      var cost := Value(f.size, f.price);
      if f.side == Buy {
        size := size + f.size;
        totalCost := totalCost + cost;
        avg := if size > 0.0 then PerUnit(totalCost, size) else 0.0;
      } else {
        var sell := Min(f.size, size);
        realized := realized + (Value(sell, f.price - avg) - f.fee);
        size := size - sell;
        totalCost := Value(size, avg);
        if size <= 0.0 {
          avg, totalCost := 0.0, 0.0;
        }
      }
      assert Tally(size, avg, totalCost, realized) == Book(before, f);
      hide Book, Tally.Consistent;
      BookAgrees(before, f);
      PrefixGrows(fills, i);
      i := i + 1;
    }
    WholePrefix(fills);
    PnlConservation(fills);
  }

  lemma SortedStillExecuted(trades: seq<Trade>)
    requires Executed(Fills(trades))
    ensures Executed(Chronological(trades))
  {
    SortIsAscendingPermutation(trades, Time);
    var s := SortBy(trades, Time);
    forall i | 0 <= i < |s| ensures s[i].fill.size >= 0.0 {
      assert s[i] in multiset(s) && s[i] in multiset(trades) && s[i] in trades;
      var j :| 0 <= j < |trades| && trades[j] == s[i];
      assert Fills(trades)[j].size >= 0.0;
    }
  }

  /** What is replayed is the history in order of time, the oldest trade first. */
  lemma OldestFirst(trades: seq<Trade>, ordered: seq<Trade>)
    requires multiset(ordered) == multiset(trades)
    requires forall i, j :: 0 <= i < j < |ordered| ==> ordered[i].time < ordered[j].time
    ensures Chronological(trades) == Fills(ordered)
  {
    hide SortBy, Fills;
    SortIsAscendingPermutation(trades, Time);
    var sorted := SortBy(trades, Time);
    forall i, j | 0 <= i < j < |ordered| ensures Time(ordered[i]) < Time(ordered[j]) {}
    AscendingUnique(ordered, sorted, Time);
  }

  /** The order in which pages of the history arrive does not matter. */
  lemma ReplayIgnoresPageOrder(trades: seq<Trade>, shuffled: seq<Trade>)
    requires multiset(trades) == multiset(shuffled) && KeysDistinct(trades, Time)
    ensures Walk(Chronological(trades)) == Walk(Chronological(shuffled))
    ensures BookedPnl(Chronological(trades)) == BookedPnl(Chronological(shuffled))
  {
    SortCanonical(trades, shuffled, Time);
  }
}
