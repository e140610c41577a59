/** Weighted-average cost accounting, the library every money component uses.
    A position is a size and an average cost; a buy blends the average, a sell
    realizes profit against it and is capped at what is held. */
module AverageCost {
  import opened Lists

  datatype Side = Buy | Sell

  datatype Fill = Fill(side: Side, size: real, price: real, fee: real)

  datatype Basis = Basis(size: real, avg: real) {
    function Cost(): real { Value(size, avg) }
  }

  const FLAT := Basis(0.0, 0.0)

  /** What a position is kept under: a side of a market, in paper or live mode. */
  datatype Key = Key(market: string, token: string, paper: bool)

  type Books = map<Key, Basis>

  function BasisAt(books: Books, key: Key): Basis { if key in books then books[key] else FLAT }

  // Money is quantity times price. The proofs below hide the product and reason
  // with its laws only, which keeps them linear.

  function Value(qty: real, price: real): real { qty * price }

  lemma ValueAdds(m: real, n: real, price: real)
    ensures Value(m + n, price) == Value(m, price) + Value(n, price)
  {}

  lemma ValueAddsPrices(qty: real, p: real, q: real)
    ensures Value(qty, p + q) == Value(qty, p) + Value(qty, q)
  {}

  lemma ValueOfNothing(x: real)
    ensures Value(0.0, x) == 0.0 && Value(x, 0.0) == 0.0
  {}

  lemma ValueOrder(qty: real, p: real, q: real)
    ensures qty >= 0.0 && p <= q ==> Value(qty, p) <= Value(qty, q)
    ensures qty > 0.0 && Value(qty, p) <= Value(qty, q) ==> p <= q
  {
    assert Value(qty, q) - Value(qty, p) == qty * (q - p);
  }

  /** Enough equal amounts exceed any amount. */
  lemma Enough(step: real, amount: real) returns (n: nat)
    requires step > 0.0
    ensures Value(n as real, step) > amount
  {
    n := if amount < 0.0 then 1 else (amount / step).Floor + 1;
    if amount >= 0.0 {
      assert n as real > amount / step;
      assert Value(n as real - amount / step, step) > 0.0;
    }
  }

  function PerUnit(total: real, qty: real): (r: real)
    requires qty != 0.0
    ensures Value(qty, r) == total
  {
    total / qty
  }

  /** The average of `m` units at cost `a` and `n` units at price `p`. */
  function Blend(m: real, a: real, n: real, p: real): (r: real)
    requires m + n > 0.0
    ensures Value(m + n, r) == Value(m, a) + Value(n, p)
  {
    PerUnit(Value(m, a) + Value(n, p), m + n)
  }

  ghost predicate Executed(fills: seq<Fill>) {
    forall i :: 0 <= i < |fills| ==> fills[i].size >= 0.0
  }

  function SellSize(b: Basis, f: Fill): real { Min(f.size, b.size) }

  function Apply(b: Basis, f: Fill): Basis {
    match f.side
    case Buy =>
      var size := b.size + f.size;
      Basis(size, if size > 0.0 then Blend(b.size, b.avg, f.size, f.price) else 0.0)
    case Sell =>
      var size := b.size - SellSize(b, f);
      Basis(size, if size > 0.0 then b.avg else 0.0)
  }

  function Realized(b: Basis, f: Fill): real {
    match f.side
    case Buy => 0.0
    case Sell => Value(SellSize(b, f), f.price - b.avg) - f.fee
  }

  /** What a sell leaves for the ledger. */
  datatype Sale = Sale(qty: real, pnl: real, fee: real)

  function SaleOf(b: Basis, f: Fill): Option<Sale> {
    if f.side.Buy? then None else Some(Sale(SellSize(b, f), Realized(b, f), f.fee))
  }

  function Walk(fills: seq<Fill>): Basis {
    if fills == [] then FLAT else Apply(Walk(fills[..|fills| - 1]), fills[|fills| - 1])
  }

  /** The profit booked by the sells of a history. */
  function BookedPnl(fills: seq<Fill>): real {
    if fills == [] then 0.0
    else
      var before := fills[..|fills| - 1];
      BookedPnl(before) + Realized(Walk(before), fills[|fills| - 1])
  }

  lemma WalkGrows(fills: seq<Fill>, f: Fill)
    ensures Walk(fills + [f]) == Apply(Walk(fills), f)
    ensures BookedPnl(fills + [f]) == BookedPnl(fills) + Realized(Walk(fills), f)
  {
    assert (fills + [f])[..|fills|] == fills;
  }

  // The cash side of the same history, told without any average cost.

  function Held(fills: seq<Fill>): real {
    if fills == [] then 0.0
    else
      var held := Held(fills[..|fills| - 1]);
      var f := fills[|fills| - 1];
      if f.side.Buy? then held + f.size else held - Min(f.size, held)
  }

  /** Money received minus money paid, fees included, each sell capped at the
      holding: the balance change a bank statement would show. */
  function CashFlow(fills: seq<Fill>): real {
    if fills == [] then 0.0
    else
      var before := fills[..|fills| - 1];
      CashFlow(before) + CashMove(Held(before), fills[|fills| - 1])
  }

  function CashMove(held: real, f: Fill): real {
    if f.side.Buy? then -Value(f.size, f.price) else Value(Min(f.size, held), f.price) - f.fee
  }

  lemma {:induction false} WalkIsFlatOrOpen(fills: seq<Fill>)
    requires Executed(fills)
    ensures Walk(fills).size == Held(fills) >= 0.0
    ensures Walk(fills).size == 0.0 ==> Walk(fills).avg == 0.0
  {
    if fills == [] {
    } else {
      hide Value;
      WalkIsFlatOrOpen(fills[..|fills| - 1]);
    }
  }

  /** One fill moves cost and profit together: the cost after it, minus the
      profit it books, is the cost before it minus the cash it brings in. */
  lemma ApplyConserves(b: Basis, f: Fill)
    requires b.size >= 0.0 && f.size >= 0.0
    ensures Realized(b, f) == CashMove(b.size, f) + Apply(b, f).Cost() - b.Cost()
  {
    hide Value;
    ValueOfNothing(b.avg);
    ValueOfNothing(f.price);
    ValueOfNothing(0.0);
    if f.side.Sell? {
      var sold := SellSize(b, f);
      ValueAddsPrices(sold, f.price - b.avg, b.avg);
      assert f.price - b.avg + b.avg == f.price;
      ValueAdds(b.size - sold, sold, b.avg);
      assert b.size - sold + sold == b.size;
    }
  }

  /** Conservation: profit booked on sells is the cash flow plus the cost still
      tied up in the residual position. */
  lemma {:induction false} PnlConservation(fills: seq<Fill>)
    requires Executed(fills)
    ensures BookedPnl(fills) == CashFlow(fills) + Walk(fills).Cost()
  {
    if fills == [] {
    } else {
      hide Apply, Realized, CashMove, Basis.Cost;
      var before := fills[..|fills| - 1];
      PnlConservation(before);
      WalkIsFlatOrOpen(before);
      ApplyConserves(Walk(before), fills[|fills| - 1]);
    }
  }

  // Several books share one paper wallet. A market that resolves pays its residual
  // and closes the book.

  datatype Account = Account(fills: seq<Fill>, payout: Option<real>)

  /** Profit in the ledger: the sells, and the settlement of what was left. */
  function LedgerPnl(a: Account): real {
    BookedPnl(a.fills) + if a.payout.Some? then Value(Walk(a.fills).size, a.payout.value - Walk(a.fills).avg) else 0.0
  }

  function CostOf(a: Account): real { if a.payout.Some? then 0.0 else Walk(a.fills).Cost() }

  /** Money the account brought in: its trades, and the payout of its residual. */
  function CashOf(a: Account): real {
    CashFlow(a.fills) + if a.payout.Some? then Value(Walk(a.fills).size, a.payout.value) else 0.0
  }

  function TotalPnl(accounts: seq<Account>): real {
    if accounts == [] then 0.0 else LedgerPnl(accounts[0]) + TotalPnl(accounts[1..])
  }

  function OpenCost(accounts: seq<Account>): real {
    if accounts == [] then 0.0 else CostOf(accounts[0]) + OpenCost(accounts[1..])
  }

  function TotalCash(accounts: seq<Account>): real {
    if accounts == [] then 0.0 else CashOf(accounts[0]) + TotalCash(accounts[1..])
  }

  /** A settlement turns the cost that was tied up into the payout. */
  lemma AccountConserves(a: Account)
    requires Executed(a.fills)
    ensures LedgerPnl(a) - CostOf(a) == CashOf(a)
  {
    PnlConservation(a.fills);
    if a.payout.Some? {
      var b := Walk(a.fills);
      ValueAddsPrices(b.size, a.payout.value - b.avg, b.avg);
      assert a.payout.value - b.avg + b.avg == a.payout.value;
    }
    hide Value, Walk, BookedPnl, CashFlow;
  }

  /** The self-healing wallet: booked profit, settlements included, minus the cost of
      what is open is exactly the cash that moved, payouts included. So a resolved
      market returns its stake and its winnings, and no separate balance is kept. */
  lemma {:induction false} SpendableIsCash(initial: real, accounts: seq<Account>)
    requires forall i :: 0 <= i < |accounts| ==> Executed(accounts[i].fills)
    ensures initial + TotalPnl(accounts) - OpenCost(accounts) == initial + TotalCash(accounts)
  {
    hide LedgerPnl, CostOf, CashOf;
    if accounts == [] {
    } else {
      AccountConserves(accounts[0]);
      SpendableIsCash(initial, accounts[1..]);
    }
  }

  /** The average cost never leaves the range of the prices paid. */
  lemma {:induction false} AverageWithinPrices(fills: seq<Fill>, low: real, high: real)
    requires Executed(fills)
    requires forall i :: 0 <= i < |fills| && fills[i].side.Buy? ==> low <= fills[i].price <= high
    ensures Walk(fills).size > 0.0 ==> low <= Walk(fills).avg <= high
  {
    if fills == [] {
    } else {
      hide Apply;
      var before := fills[..|fills| - 1];
      AverageWithinPrices(before, low, high);
      WalkIsFlatOrOpen(before);
      ApplyWithinRange(Walk(before), fills[|fills| - 1], low, high);
    }
  }

  lemma ApplyWithinRange(b: Basis, f: Fill, low: real, high: real)
    requires b.size >= 0.0 && f.size >= 0.0
    requires b.size > 0.0 ==> low <= b.avg <= high
    requires f.side.Buy? ==> low <= f.price <= high
    ensures Apply(b, f).size > 0.0 ==> low <= Apply(b, f).avg <= high
  {
    hide Value;
    if f.side.Buy? && b.size + f.size > 0.0 {
      BlendWithinRange(b.size, b.avg, f.size, f.price, low, high);
    }
  }

  lemma BlendWithinRange(m: real, a: real, n: real, p: real, low: real, high: real)
    requires m >= 0.0 && n >= 0.0 && m + n > 0.0
    requires m > 0.0 ==> low <= a <= high
    requires low <= p <= high
    ensures low <= Blend(m, a, n, p) <= high
  {
    hide Value;
    var r := Blend(m, a, n, p);
    ValueAdds(m, n, low);
    ValueAdds(m, n, high);
    ValueOrder(m, low, a);
    ValueOrder(m, a, high);
    ValueOrder(n, low, p);
    ValueOrder(n, p, high);
    ValueOfNothing(a);
    ValueOfNothing(low);
    ValueOfNothing(high);
    ValueOrder(m + n, low, r);
    ValueOrder(m + n, r, high);
  }
}
