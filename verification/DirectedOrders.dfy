/** Operator-directed orders: a flat chain of gates, an audit row before anything
    is sent, and two separate daily budgets. */
module DirectedOrders {
  import opened Lists
  import opened AverageCost

  datatype Order = Order(symbol: string, secType: string, quantity: real, orderType: string, limitPrice: Option<real>,
                         dryRun: bool)

  /** Notional limits in dollars, per order and per day, for each kind. */
  datatype Caps = Caps(perOrder: real, daily: real, treasuryPerOrder: real, treasuryDaily: real) {
    function PerOrder(treasury: bool): real { if treasury then treasuryPerOrder else perOrder }

    function Daily(treasury: bool): real { if treasury then treasuryDaily else daily }
  }

  /** Switches and identities at the time of a call; the allowlist is normalized. */
  datatype Gates = Gates(killed: bool, enabled: bool, confirmed: bool, live: bool, account: string, connected: string,
                         allowlist: set<string>)

  datatype Reason = KillSwitch | NotEnabled | NotConfirmed | NotLive | NoAccount | WrongAccount | NotAllowed
      | NoLimitPrice
                  | NoQuantity | OverOrderCap | OverDailyCap

  datatype Status = Refused | DryRun | Submitted | Filled | Errored

  datatype Row = Row(secType: string, notional: real, day: int, status: Status)

  const REJECTED := {"ValidationError", "Cancelled", "ApiCancelled", "Inactive"}

  predicate IsTreasury(secType: string) { Upper(secType) == "CASH" }

  predicate UsdBase(o: Order) { IsTreasury(o.secType) && "USD" <= Upper(o.symbol) }

  /** A pair quoted in dollars per dollar is already in dollars. */
  function Notional(o: Order, price: real, fx: real): (n: real)
    ensures n >= 0.0
  {
    if UsdBase(o) then Abs(o.quantity)
    else
      var inCurrency := Value(Abs(o.quantity), Abs(price));
      assert inCurrency >= 0.0;
      assert Value(inCurrency, Abs(fx)) >= 0.0;
      Value(inCurrency, Abs(fx))
  }

  // --- Gates ------------------------------------------------------------------------

  predicate Spends(status: Status) { status.Submitted? || status.Filled? }

  /** The query's own notion of kind: an exact match on the stored word. */
  predicate StoredAs(row: Row, treasury: bool) { (row.secType == "CASH") == treasury }

  function Used(rows: seq<Row>, day: int, treasury: bool): real {
    if rows == [] then 0.0
    else
      var last := rows[|rows| - 1];
      Used(rows[..|rows| - 1], day, treasury) +
      if last.day == day && Spends(last.status) && StoredAs(last, treasury) then last.notional else 0.0
  }

  function GateReason(caps: Caps, g: Gates, rows: seq<Row>, o: Order, notional: real, day: int): Option<Reason> {
    if g.killed then Some(KillSwitch)
    else if !g.enabled then Some(NotEnabled)
    else if !g.confirmed then Some(NotConfirmed)
    else if !g.live then Some(NotLive)
    else if g.account == "" then Some(NoAccount)
    else if g.connected != "" && g.connected != g.account then Some(WrongAccount)
    else if Upper(o.symbol) !in g.allowlist then Some(NotAllowed)
    else if Upper(o.orderType) == "LMT" && (o.limitPrice.None? || o.limitPrice.value == 0.0) then Some(NoLimitPrice)
    else if o.quantity <= 0.0 then Some(NoQuantity)
    else if notional > caps.PerOrder(IsTreasury(o.secType)) then Some(OverOrderCap)
    else if Used(rows, day, IsTreasury(o.secType)) + notional > caps.Daily(IsTreasury(o.secType))
           then Some(OverDailyCap)
    else None
  }

  // --- Placement ----------------------------------------------------------------------

  /** What became of an order that was let through: the process died before it
      could record the outcome, sending raised, or the broker answered. */
  datatype Outcome = Died | Raised | Answered(status: string, filled: real)

  function Settlement(outcome: Outcome): Status {
    match outcome
    case Died => Submitted
    case Raised => Errored
    case Answered(status, filled) => if filled != 0.0 then Filled else if status in REJECTED then Errored else Submitted
  }

  /** One call: the gates read the table on `day`, the row is stamped on `stamped`. */
  datatype Call = Call(order: Order, price: real, fx: real, gates: Gates, day: int, stamped: int, outcome: Outcome)

  /** The audit table, and the ids of the rows whose order went to the broker. */
  datatype State = State(rows: seq<Row>, sent: seq<nat>)

  const START := State([], [])

  function Opening(c: Call, reason: Option<Reason>): Status {
    if reason.Some? then Refused else if c.order.dryRun then DryRun else Submitted
  }

  function Place(caps: Caps, s: State, c: Call): State {
    var notional := Notional(c.order, c.price, c.fx);
    var opening := Opening(c, GateReason(caps, c.gates, s.rows, c.order, notional, c.day));
    var id := |s.rows|;
    var rows := s.rows + [Row(c.order.secType, notional, c.stamped, opening)];
    if opening.Submitted? then
      State(rows[id := rows[id].(status := Settlement(c.outcome))], s.sent + [id])
    else State(rows, s.sent)
  }

  function Run(caps: Caps, calls: seq<Call>): State {
    if calls == [] then START else Place(caps, Run(caps, calls[..|calls| - 1]), calls[|calls| - 1])
  }

  class DirectedOrderExecutor {
    const caps: Caps
    var rows: seq<Row>
    ghost var sent: seq<nat>

    ghost function Table(): State
      reads this
    {
      State(rows, sent)
    }

    constructor (c: Caps)
      ensures caps == c && Table() == START
    {
      caps := c;
      rows, sent := [], [];
    }

    method UsedOn(day: int, treasury: bool) returns (used: real)
      ensures used == Used(rows, day, treasury)
    {
      used := 0.0;
      var i := 0;
      while i < |rows|
        invariant 0 <= i <= |rows|
        invariant used == Used(rows[..i], day, treasury)
      {
        PrefixGrows(rows, i);
        var r := rows[i];
        if r.day == day && (r.status == Submitted || r.status == Filled) && (r.secType == "CASH") == treasury {
          used := used + r.notional;
        }
        i := i + 1;
      }
      WholePrefix(rows);
    }

    method Gate(g: Gates, o: Order, notional: real, day: int) returns (reason: Option<Reason>)
      ensures reason == GateReason(caps, g, rows, o, notional, day)
    {
      if g.killed { return Some(KillSwitch); }
      if !g.enabled { return Some(NotEnabled); }
      if !g.confirmed { return Some(NotConfirmed); }
      if !g.live { return Some(NotLive); }
      if g.account == "" { return Some(NoAccount); }
      if g.connected != "" && g.connected != g.account { return Some(WrongAccount); }
      if Upper(o.symbol) !in g.allowlist { return Some(NotAllowed); }
      if Upper(o.orderType) == "LMT" && (o.limitPrice.None? || o.limitPrice.value == 0.0) { return Some(NoLimitPrice); }
      if o.quantity <= 0.0 { return Some(NoQuantity); }
      var treasury := IsTreasury(o.secType);
      if notional > caps.PerOrder(treasury) { return Some(OverOrderCap); }
      var used := UsedOn(day, treasury);
      if used + notional > caps.Daily(treasury) { return Some(OverDailyCap); }
      return None;
    }

    /** The row goes in before the order goes out. */
    method PlaceOrder(c: Call) returns (id: nat, status: Status)
      modifies this
      ensures Table() == Place(caps, old(Table()), c)
      ensures id == |old(rows)| && rows[id].status == status
    {
      hide GateReason, Notional, Settlement;
      var notional := Notional(c.order, c.price, c.fx);
      var reason := Gate(c.gates, c.order, notional, c.day);
      status := if reason.Some? then Refused else if c.order.dryRun then DryRun else Submitted;
      id := |rows|;
      rows := rows + [Row(c.order.secType, notional, c.stamped, status)];
      if status != Submitted {
        return;
      }
      sent := sent + [id];
      status := Settlement(c.outcome);
      rows := rows[id := rows[id].(status := status)];
    }
  }

  // --- Daily budgets ---------------------------------------------------------------------

  /** The clock never runs back, from the gate to the stamp and from call to call. */
  ghost predicate InOrder(calls: seq<Call>) {
    && (forall i :: 0 <= i < |calls| ==> calls[i].day <= calls[i].stamped)
    && (forall i, j :: 0 <= i < j < |calls| ==> calls[i].stamped <= calls[j].day)
  }

  predicate CanonicalType(secType: string) { IsTreasury(secType) ==> secType == "CASH" }

  /** An order written like this cannot slip past the treasury gate: the query
      recognizes its row, or the caps let no money through. */
  predicate Held(caps: Caps, secType: string) {
    CanonicalType(secType) || caps.treasuryPerOrder <= 0.0 || caps.treasuryDaily <= 0.0
  }

  ghost predicate AllHeld(caps: Caps, calls: seq<Call>) {
    forall i :: 0 <= i < |calls| ==> Held(caps, calls[i].order.secType)
  }

  /** What an order spends of the budget it belongs to. */
  function Spent(rows: seq<Row>, day: int, treasury: bool): real {
    if rows == [] then 0.0
    else
      var last := rows[|rows| - 1];
      Spent(rows[..|rows| - 1], day, treasury) +
      if last.day == day && Spends(last.status) && IsTreasury(last.secType) == treasury then last.notional else 0.0
  }

  ghost predicate BudgetsKept(caps: Caps, rows: seq<Row>) {
    forall day: int, treasury: bool :: Spent(rows, day, treasury) <= Max(0.0, caps.Daily(treasury))
  }

  /** The query sees this row, or there is nothing to see. */
  predicate Counted(row: Row) { CanonicalType(row.secType) || (Spends(row.status) ==> row.notional == 0.0) }

  ghost predicate RowsSound(rows: seq<Row>, today: int) {
    forall i :: 0 <= i < |rows| ==> rows[i].notional >= 0.0 && rows[i].day <= today && Counted(rows[i])
  }

  lemma {:induction false} SpentWithinUsed(rows: seq<Row>, today: int, day: int, treasury: bool)
    requires RowsSound(rows, today)
    ensures Spent(rows, day, treasury) <= Used(rows, day, treasury)
  {
    if rows == [] {
    } else {
      var last := rows[|rows| - 1];
      SpentWithinUsed(rows[..|rows| - 1], today, day, treasury);
      CashIsTreasury();
      assert Counted(last);
      hide IsTreasury;
    }
  }

  lemma CashIsTreasury()
    ensures IsTreasury("CASH")
  {
    assert Upper("CASH") == "CASH";
  }

  lemma {:induction false} NothingSpentAhead(rows: seq<Row>, today: int, day: int, treasury: bool)
    requires RowsSound(rows, today)
    ensures Spent(rows, day, treasury) >= 0.0
    ensures day > today ==> Spent(rows, day, treasury) == 0.0
  {
    hide IsTreasury;
    if rows == [] {
    } else {
      NothingSpentAhead(rows[..|rows| - 1], today, day, treasury);
    }
  }

  /** The row a call leaves behind. */
  function RowOf(caps: Caps, s: State, c: Call): Row {
    var notional := Notional(c.order, c.price, c.fx);
    var opening := Opening(c, GateReason(caps, c.gates, s.rows, c.order, notional, c.day));
    Row(c.order.secType, notional, c.stamped, if opening.Submitted? then Settlement(c.outcome) else opening)
  }

  lemma PlaceAppends(caps: Caps, s: State, c: Call)
    ensures Place(caps, s, c).rows == s.rows + [RowOf(caps, s, c)]
    ensures Spends(RowOf(caps, s, c).status) ==>
              GateReason(caps, c.gates, s.rows, c.order, Notional(c.order, c.price, c.fx), c.day).None?
  {
    hide GateReason, Notional;
  }

  lemma SpentGrows(rows: seq<Row>, row: Row, day: int, treasury: bool)
    ensures Spent(rows + [row], day, treasury) == Spent(rows, day, treasury) +
            if row.day == day && Spends(row.status) && IsTreasury(row.secType) == treasury then row.notional else 0.0
  {
    assert (rows + [row])[..|rows|] == rows;
  }

  lemma GatePassed(caps: Caps, g: Gates, rows: seq<Row>, o: Order, notional: real, day: int)
    requires GateReason(caps, g, rows, o, notional, day).None?
    ensures Used(rows, day, IsTreasury(o.secType)) + notional <= caps.Daily(IsTreasury(o.secType))
    ensures notional <= caps.PerOrder(IsTreasury(o.secType))
    ensures !g.killed && g.enabled && g.confirmed && g.live && o.quantity > 0.0 && Upper(o.symbol) in g.allowlist
    ensures g.account != "" && (g.connected == "" || g.connected == g.account)
  {
    hide Used, IsTreasury, Caps.Daily, Caps.PerOrder;
  }

  /** The row of one call, where the day's gate saw at least what was spent. */
  lemma RowFits(caps: Caps, s: State, c: Call, today: int)
    requires RowsSound(s.rows, today) && today <= c.day <= c.stamped && Held(caps, c.order.secType)
    requires Spends(RowOf(caps, s, c).status)
    ensures var treasury := IsTreasury(c.order.secType);
            Spent(s.rows, c.stamped, treasury) + RowOf(caps, s, c).notional <= caps.Daily(treasury)
    ensures Counted(RowOf(caps, s, c))
  {
    var treasury := IsTreasury(c.order.secType);
    var row := RowOf(caps, s, c);
    PlaceAppends(caps, s, c);
    assert row.notional == Notional(c.order, c.price, c.fx) && row.secType == c.order.secType;
    hide Place, GateReason, Used, Spent, Notional, IsTreasury, RowOf;
    GatePassed(caps, c.gates, s.rows, c.order, row.notional, c.day);
    SpentWithinUsed(s.rows, today, c.day, treasury);
    NothingSpentAhead(s.rows, today, c.stamped, treasury);
    NothingSpentAhead(s.rows, today, c.day, treasury);
  }

  lemma PlaceKeepsBudgets(caps: Caps, s: State, c: Call, today: int)
    requires RowsSound(s.rows, today) && BudgetsKept(caps, s.rows)
    requires today <= c.day <= c.stamped && Held(caps, c.order.secType)
    ensures RowsSound(Place(caps, s, c).rows, c.stamped) && BudgetsKept(caps, Place(caps, s, c).rows)
  {
    var row := RowOf(caps, s, c);
    PlaceAppends(caps, s, c);
    assert row.notional >= 0.0 && row.secType == c.order.secType && row.day == c.stamped;
    hide Place, GateReason, Used, Spent, IsTreasury, Notional, Opening, Settlement, RowOf;
    if Spends(row.status) {
      RowFits(caps, s, c, today);
    }
    forall day: int, treasury: bool
      ensures Spent(s.rows + [row], day, treasury) <= Max(0.0, caps.Daily(treasury))
    {
      SpentGrows(s.rows, row, day, treasury);
      assert Spent(s.rows, day, treasury) <= Max(0.0, caps.Daily(treasury));
    }
  }

  lemma {:induction false} HeldRun(caps: Caps, calls: seq<Call>)
    requires InOrder(calls) && AllHeld(caps, calls)
    ensures BudgetsKept(caps, Run(caps, calls).rows)
    ensures calls != [] ==> RowsSound(Run(caps, calls).rows, calls[|calls| - 1].stamped)
    ensures calls == [] ==> Run(caps, calls).rows == []
  {
    hide Place, BudgetsKept, RowsSound, Held;
    if calls == [] {
      NothingIsSound(caps, 0);
    } else {
      var init, last := calls[..|calls| - 1], calls[|calls| - 1];
      HeldRun(caps, init);
      if init == [] {
        NothingIsSound(caps, last.day);
      }
      PlaceKeepsBudgets(caps, Run(caps, init), last, if init == [] then last.day else init[|init| - 1].stamped);
    }
  }

  lemma NothingIsSound(caps: Caps, today: int)
    ensures BudgetsKept(caps, []) && RowsSound([], today)
  {}

  // --- What reaches the broker ------------------------------------------------------------

  /** Only live rows were sent, each once, in the order of their audit rows; and a
      row counts against a budget only if its order was sent. */
  ghost predicate SentSound(s: State) {
    && (forall i :: 0 <= i < |s.sent| ==> s.sent[i] < |s.rows| && s.rows[s.sent[i]].status !in {Refused, DryRun})
    && (forall i, j :: 0 <= i < j < |s.sent| ==> s.sent[i] < s.sent[j])
    && (forall id :: 0 <= id < |s.rows| && Spends(s.rows[id].status) ==> id in s.sent)
  }

  /** A call adds its row last, and its id to the sent ones exactly when the row
      is live. */
  lemma PlaceSends(caps: Caps, s: State, c: Call)
    ensures var row := RowOf(caps, s, c);
            Place(caps, s, c)
            == State(s.rows + [row], if row.status in {Refused, DryRun} then s.sent else s.sent + [|s.rows|])
  {
    hide GateReason, Notional;
    PlaceAppends(caps, s, c);
  }

  lemma RefusedKeepsSentSound(s: State, row: Row)
    requires SentSound(s) && row.status in {Refused, DryRun}
    ensures SentSound(State(s.rows + [row], s.sent))
  {}

  lemma LiveKeepsSentSound(s: State, row: Row)
    requires SentSound(s) && row.status !in {Refused, DryRun}
    ensures SentSound(State(s.rows + [row], s.sent + [|s.rows|]))
  {
    var after := State(s.rows + [row], s.sent + [|s.rows|]);
    forall id | 0 <= id < |after.rows| && Spends(after.rows[id].status) ensures id in after.sent {
      if id == |s.rows| {
        assert after.sent[|s.sent|] == id;
      } else {
        assert id in s.sent;
      }
    }
  }

  lemma NothingSentYet()
    ensures SentSound(START)
  {}

  lemma {:induction false} RunSentSound(caps: Caps, calls: seq<Call>)
    ensures SentSound(Run(caps, calls))
  {
    hide Place, RowOf, SentSound;
    if calls == [] {
      NothingSentYet();
    } else {
      var s, last := Run(caps, calls[..|calls| - 1]), calls[|calls| - 1];
      var row := RowOf(caps, s, last);
      RunSentSound(caps, calls[..|calls| - 1]);
      PlaceSends(caps, s, last);
      if row.status in {Refused, DryRun} {
        RefusedKeepsSentSound(s, row);
      } else {
        LiveKeepsSentSound(s, row);
      }
    }
  }

  /** An order goes to the broker only from a call that every gate let through, and
      then its audit row is already there. */
  lemma SentMeansGated(caps: Caps, s: State, c: Call)
    ensures var after := Place(caps, s, c);
            && |after.rows| == |s.rows| + 1
            && (after.sent != s.sent <==> GateReason(caps, c.gates, s.rows, c.order, Notional(c.order, c.price, c.fx),
                                                     c.day).None?
                                          && !c.order.dryRun)
            && (after.sent != s.sent ==> after.sent == s.sent + [|s.rows|])
  {
    hide GateReason, Notional;
    assert s.sent + [|s.rows|] != s.sent by {
      assert |s.sent + [|s.rows|]| == |s.sent| + 1;
    }
  }

  lemma {:induction false} RunLength(caps: Caps, calls: seq<Call>)
    ensures |Run(caps, calls).rows| == |calls|
  {
    if calls == [] {
    } else {
      hide Place;
      RunLength(caps, calls[..|calls| - 1]);
      SentMeansGated(caps, Run(caps, calls[..|calls| - 1]), calls[|calls| - 1]);
    }
  }

  // --- Dollars, counted from the calls -----------------------------------------------------

  /** What a call is worth in dollars: an amount of dollars converted is that amount,
      and anything else is its quantity at its price and rate. */
  function Dollars(c: Call): real {
    if Upper(c.order.secType) == "CASH" && "USD" <= Upper(c.order.symbol) then Abs(c.order.quantity)
    else Abs(Value(Value(c.order.quantity, c.price), c.fx))
  }

  lemma ValueOfAbs(x: real, y: real)
    ensures Value(Abs(x), Abs(y)) == Abs(Value(x, y))
  {
    ValueSigns(x, y);
    ValueSigns(Abs(x), Abs(y));
    hide Value;
  }

  lemma ValueSigns(x: real, y: real)
    ensures Value(-x, y) == -Value(x, y) && Value(x, -y) == -Value(x, y) && Value(-x, -y) == Value(x, y)
    ensures x >= 0.0 && y >= 0.0 ==> Value(x, y) >= 0.0
  {}

  lemma NotionalIsDollars(c: Call)
    ensures Notional(c.order, c.price, c.fx) == Dollars(c)
  {
    ValueOfAbs(c.order.quantity, c.price);
    ValueOfAbs(Value(c.order.quantity, c.price), c.fx);
    hide Abs, Upper, Value;
  }

  lemma {:induction false} RowInDollars(caps: Caps, calls: seq<Call>, id: nat)
    requires id < |calls|
    ensures |Run(caps, calls).rows| == |calls|
    ensures var row, c := Run(caps, calls).rows[id], calls[id];
            row.secType == c.order.secType && row.day == c.stamped && row.notional == Dollars(c)
  {
    hide Place, RowOf, Dollars;
    var init, last := calls[..|calls| - 1], calls[|calls| - 1];
    RunLength(caps, init);
    PlaceSends(caps, Run(caps, init), last);
    if id < |init| {
      RowInDollars(caps, init, id);
    } else {
      LastRowMeasures(caps, Run(caps, init), last);
    }
  }

  /** The audit row of every call carries the kind, the day and the dollars of that call:
      the quantity alone for a conversion out of dollars, whatever its price and rate, and
      for every other order its quantity times price times rate. */
  lemma RowMeasures(caps: Caps, calls: seq<Call>, id: nat)
    requires id < |calls|
    ensures |Run(caps, calls).rows| == |calls|
    ensures var row, c := Run(caps, calls).rows[id], calls[id];
            && row.secType == c.order.secType && row.day == c.stamped
            && (Upper(c.order.secType) == "CASH" && "USD" <= Upper(c.order.symbol) ==>
                  row.notional == Abs(c.order.quantity))
            && (!(Upper(c.order.secType) == "CASH" && "USD" <= Upper(c.order.symbol)) ==>
                  row.notional == Abs(Value(Value(c.order.quantity, c.price), c.fx)))
  {
    RowInDollars(caps, calls, id);
    hide Run, Upper, Abs, Value;
  }

  lemma LastRowMeasures(caps: Caps, s: State, c: Call)
    ensures RowOf(caps, s, c).secType == c.order.secType && RowOf(caps, s, c).day == c.stamped
    ensures RowOf(caps, s, c).notional == Dollars(c)
  {
    hide GateReason, Notional, Dollars;
    NotionalIsDollars(c);
  }

  function Scaled(c: Call, k: real, l: real): Call { c.(price := Value(k, c.price), fx := Value(l, c.fx)) }

  /** So it scales with the price and with the rate, but for dollars converted. */
  lemma RowScales(caps: Caps, calls: seq<Call>, id: nat, k: real, l: real)
    requires id < |calls|
    ensures |Run(caps, calls).rows| == |calls| && |Run(caps, calls[id := Scaled(calls[id], k, l)]).rows| == |calls|
    ensures Run(caps, calls[id := Scaled(calls[id], k, l)]).rows[id].notional ==
            if Upper(calls[id].order.secType) == "CASH" && "USD" <= Upper(calls[id].order.symbol)
            then Run(caps, calls).rows[id].notional
            else Value(Abs(Value(k, l)), Run(caps, calls).rows[id].notional)
  {
    var scaled := calls[id := Scaled(calls[id], k, l)];
    RowInDollars(caps, calls, id);
    RowInDollars(caps, scaled, id);
    DollarsScale(calls[id], k, l);
    assert scaled[id] == Scaled(calls[id], k, l);
    hide *;
  }

  lemma DollarsScale(c: Call, k: real, l: real)
    ensures Dollars(Scaled(c, k, l)) == if Upper(c.order.secType) == "CASH" && "USD" <= Upper(c.order.symbol)
                                        then Dollars(c) else Value(Abs(Value(k, l)), Dollars(c))
  {
    var q, p, f := c.order.quantity, c.price, c.fx;
    FactorsMove(q, p, f, k, l);
    ValueOfAbs(Value(k, l), Value(Value(q, p), f));
    hide Upper, Abs, Value;
  }

  lemma FactorsMove(q: real, p: real, f: real, k: real, l: real)
    ensures Value(Value(q, Value(k, p)), Value(l, f)) == Value(Value(k, l), Value(Value(q, p), f))
  {
    assert q * (k * p) * (l * f) == (k * l) * (q * p * f);
  }

  /** Sending failed, or the broker turned the order down before any of it was filled. */
  predicate GivesBack(outcome: Outcome) {
    || outcome.Raised?
    || (outcome.Answered? && outcome.filled == 0.0
        && outcome.status in {"ValidationError", "Cancelled", "ApiCancelled", "Inactive"})
  }

  /** The dollars of the sent calls of one day whose security type is of a kind, except
      of those that came back. */
  function DollarsOn(calls: seq<Call>, sent: seq<nat>, day: int, kind: string -> bool): real {
    if calls == [] then 0.0
    else
      var n := |calls| - 1;
      DollarsOn(calls[..n], sent, day, kind) +
      if n in sent && calls[n].stamped == day && kind(calls[n].order.secType) && !GivesBack(calls[n].outcome)
      then Dollars(calls[n]) else 0.0
  }

  /** The kinds as the query tells them apart, and as the gate does. */
  function StoredKind(treasury: bool): string -> bool { (t: string) => (t == "CASH") == treasury }

  function Kind(treasury: bool): string -> bool { (t: string) => (Upper(t) == "CASH") == treasury }

  lemma {:induction false} LaterCallsApart(calls: seq<Call>, sent: seq<nat>, id: nat, day: int, kind: string -> bool)
    requires id >= |calls|
    ensures DollarsOn(calls, sent + [id], day, kind) == DollarsOn(calls, sent, day, kind)
  {
    if calls == [] {
    } else {
      LaterCallsApart(calls[..|calls| - 1], sent, id, day, kind);
      hide Dollars, GivesBack;
    }
  }

  lemma SentEarlier(caps: Caps, calls: seq<Call>)
    ensures forall i :: 0 <= i < |Run(caps, calls).sent| ==> Run(caps, calls).sent[i] < |calls|
  {
    RunSentSound(caps, calls);
    RunLength(caps, calls);
    hide Run;
  }

  /** A row counts exactly when its order was sent and did not come back. */
  lemma RowCounts(caps: Caps, s: State, c: Call)
    ensures Spends(RowOf(caps, s, c).status)
            <==> RowOf(caps, s, c).status !in {Refused, DryRun} && !GivesBack(c.outcome)
  {
    hide GateReason, Notional, Dollars;
  }

  /** One more call, and the dollars of a day and kind move by that call's or not at all. */
  lemma DollarsGrow(caps: Caps, calls: seq<Call>, day: int, kind: string -> bool)
    requires calls != []
    ensures var init, last := calls[..|calls| - 1], calls[|calls| - 1];
            var row := RowOf(caps, Run(caps, init), last);
            DollarsOn(calls, Run(caps, calls).sent, day, kind)
            == DollarsOn(init, Run(caps, init).sent, day, kind) +
               if row.day == day && Spends(row.status) && kind(row.secType) then row.notional else 0.0
  {
    var init, last := calls[..|calls| - 1], calls[|calls| - 1];
    var s := Run(caps, init);
    RunLength(caps, init);
    SentEarlier(caps, init);
    PlaceSends(caps, s, last);
    RowCounts(caps, s, last);
    LastRowMeasures(caps, s, last);
    LaterCallsApart(init, s.sent, |init|, day, kind);
    hide Place, RowOf, Dollars, GivesBack, Spends;
  }

  /** What the query of the gate sums up is the dollars of those calls. */
  lemma {:induction false} UsedIsDollars(caps: Caps, calls: seq<Call>, day: int, treasury: bool)
    ensures Used(Run(caps, calls).rows, day, treasury)
         == DollarsOn(calls, Run(caps, calls).sent, day, StoredKind(treasury))
  {
    if calls == [] {
    } else {
      var init, last := calls[..|calls| - 1], calls[|calls| - 1];
      UsedIsDollars(caps, init, day, treasury);
      DollarsGrow(caps, calls, day, StoredKind(treasury));
      PlaceAppends(caps, Run(caps, init), last);
      UsedGrows(Run(caps, init).rows, RowOf(caps, Run(caps, init), last), day, treasury);
      hide Place, RowOf, DollarsOn, Used, Spends;
    }
  }

  lemma {:induction false} SpentIsDollars(caps: Caps, calls: seq<Call>, day: int, treasury: bool)
    ensures Spent(Run(caps, calls).rows, day, treasury)
         == DollarsOn(calls, Run(caps, calls).sent, day, Kind(treasury))
  {
    if calls == [] {
    } else {
      var init, last := calls[..|calls| - 1], calls[|calls| - 1];
      SpentIsDollars(caps, init, day, treasury);
      DollarsGrow(caps, calls, day, Kind(treasury));
      PlaceAppends(caps, Run(caps, init), last);
      SpentGrows(Run(caps, init).rows, RowOf(caps, Run(caps, init), last), day, treasury);
      hide Place, RowOf, DollarsOn, Spent, Spends, Upper;
    }
  }

  /** On every day, and for each kind, the dollars of the sent calls stay within that
      kind's daily cap. */
  ghost predicate DollarsKept(caps: Caps, calls: seq<Call>) {
    forall day: int ::
      && DollarsOn(calls, Run(caps, calls).sent, day, Kind(false)) <= Max(0.0, caps.daily)
      && DollarsOn(calls, Run(caps, calls).sent, day, Kind(true)) <= Max(0.0, caps.treasuryDaily)
  }

  lemma KeptInDollars(caps: Caps, calls: seq<Call>)
    ensures BudgetsKept(caps, Run(caps, calls).rows) <==> DollarsKept(caps, calls)
  {
    hide Run, Spent, DollarsOn, Kind;
    var rows := Run(caps, calls).rows;
    forall day: int, treasury: bool
      ensures Spent(rows, day, treasury) == DollarsOn(calls, Run(caps, calls).sent, day, Kind(treasury))
    {
      SpentIsDollars(caps, calls, day, treasury);
    }
    if BudgetsKept(caps, rows) {
      forall day: int
        ensures DollarsOn(calls, Run(caps, calls).sent, day, Kind(false)) <= Max(0.0, caps.daily)
        ensures DollarsOn(calls, Run(caps, calls).sent, day, Kind(true)) <= Max(0.0, caps.treasuryDaily)
      {
        assert Spent(rows, day, false) <= Max(0.0, caps.Daily(false));
        assert Spent(rows, day, true) <= Max(0.0, caps.Daily(true));
      }
    }
  }

  /** With every conversion written CASH, both budgets hold over every run. */
  lemma RunKeepsBudgets(caps: Caps, calls: seq<Call>)
    requires InOrder(calls)
    requires forall i :: 0 <= i < |calls| ==> CanonicalType(calls[i].order.secType)
    ensures BudgetsKept(caps, Run(caps, calls).rows) && DollarsKept(caps, calls)
  {
    hide CanonicalType, DollarsKept;
    HeldRun(caps, calls);
    KeptInDollars(caps, calls);
  }

  // --- Which calls go out --------------------------------------------------------------------

  /** Over every run, call number `id` left row number `id`, and its order went to the
      broker exactly when it was no dry run and nothing stood in its way: no kill
      switch, every switch on, the right account, an allowed symbol, a limit price
      where one is due, and both caps met by its dollars and those of the sent calls of
      the day before it. */
  lemma {:induction false} SentIffGated(caps: Caps, calls: seq<Call>, id: nat)
    requires id < |calls|
    ensures |Run(caps, calls).rows| == |calls|
    ensures id in Run(caps, calls).sent <==> LetThrough(caps, calls[..id], calls[id])
  {
    var init, last := calls[..|calls| - 1], calls[|calls| - 1];
    RunLength(caps, init);
    SentMeansGated(caps, Run(caps, init), last);
    GateIsLetThrough(caps, init, last);
    RunSentSound(caps, init);
    hide Place, LetThrough, GateReason, Notional;
    if id == |init| {
      assert calls[..id] == init;
    } else {
      assert calls[..id] == init[..id];
      SentIffGated(caps, init, id);
    }
  }

  ghost predicate LetThrough(caps: Caps, before: seq<Call>, c: Call) {
    var o, g, treasury := c.order, c.gates, Upper(c.order.secType) == "CASH";
    && !o.dryRun && !g.killed && g.enabled && g.confirmed && g.live && g.account != ""
    && (g.connected == "" || g.connected == g.account) && Upper(o.symbol) in g.allowlist
    && (Upper(o.orderType) == "LMT" ==> o.limitPrice.Some? && o.limitPrice.value != 0.0)
    && o.quantity > 0.0 && Dollars(c) <= (if treasury then caps.treasuryPerOrder else caps.perOrder)
    && DollarsOn(before, Run(caps, before).sent, c.day, StoredKind(treasury)) + Dollars(c)
       <= (if treasury then caps.treasuryDaily else caps.daily)
  }

  lemma GateIsLetThrough(caps: Caps, before: seq<Call>, c: Call)
    ensures LetThrough(caps, before, c)
            <==> && GateReason(caps, c.gates, Run(caps, before).rows, c.order, Notional(c.order, c.price, c.fx),
                               c.day).None?
                 && !c.order.dryRun
  {
    NotionalIsDollars(c);
    UsedIsDollars(caps, before, c.day, IsTreasury(c.order.secType));
    hide Used, Notional, Upper, Dollars, DollarsOn, Run;
  }

  /** What one call adds to the day's sum of a kind: its dollars if it was sent, unless
      it came back. A fill of any size keeps them, whatever was answered beside it. */
  lemma CallMovesBudget(caps: Caps, s: State, c: Call, day: int, treasury: bool)
    ensures var after := Place(caps, s, c);
            Used(after.rows, day, treasury) == Used(s.rows, day, treasury) +
            if after.sent != s.sent && c.stamped == day && (c.order.secType == "CASH") == treasury
               && !GivesBack(c.outcome)
            then Dollars(c) else 0.0
  {
    PlaceAppends(caps, s, c);
    PlaceSends(caps, s, c);
    RowCounts(caps, s, c);
    LastRowMeasures(caps, s, c);
    UsedGrows(s.rows, RowOf(caps, s, c), day, treasury);
    assert |s.sent + [|s.rows|]| == |s.sent| + 1;
    hide Place, RowOf, GivesBack, Dollars, Used, Spends;
  }

  /** A refusal by the broker with nothing filled, like an error while sending,
      gives the budget back. */
  lemma RefusalReleases(caps: Caps, s: State, c: Call, day: int, treasury: bool)
    requires c.outcome.Raised? || (c.outcome.Answered? && c.outcome.status in REJECTED && c.outcome.filled == 0.0)
    ensures Used(Place(caps, s, c).rows, day, treasury) == Used(s.rows, day, treasury)
  {
    hide GateReason, Notional;
    PlaceAppends(caps, s, c);
    UsedGrows(s.rows, RowOf(caps, s, c), day, treasury);
  }

  lemma UsedGrows(rows: seq<Row>, row: Row, day: int, treasury: bool)
    ensures Used(rows + [row], day, treasury) == Used(rows, day, treasury) +
            if row.day == day && Spends(row.status) && StoredAs(row, treasury) then row.notional else 0.0
  {
    assert (rows + [row])[..|rows|] == rows;
  }

  /** A row of one kind never enters the gate of the other. */
  lemma KindsIndependent(caps: Caps, g: Gates, rows: seq<Row>, row: Row, o: Order, notional: real, day: int)
    requires CanonicalType(row.secType) && IsTreasury(row.secType) != IsTreasury(o.secType)
    ensures GateReason(caps, g, rows + [row], o, notional, day) == GateReason(caps, g, rows, o, notional, day)
  {
    CashIsTreasury();
    UsedGrows(rows, row, day, IsTreasury(o.secType));
    hide Used, IsTreasury;
  }

  // --- Exactly when the budgets hold ---------------------------------------------------------

  ghost predicate TypesIn(calls: seq<Call>, types: set<string>) {
    forall i :: 0 <= i < |calls| ==> calls[i].order.secType in types
  }

  /** A conversion of `quantity` dollars that the broker fills at once. */
  function Conversion(symbol: string, secType: string, quantity: real): Call {
    var gates := Gates(false, true, true, true, "U1", "U1", {Upper(symbol)});
    Call(Order(symbol, secType, quantity, "MKT", None, false), 1.0, 1.0, gates, 0, 0, Answered("Filled", quantity))
  }

  function Copies(call: Call, n: nat): seq<Call> { seq(n, i => call) }

  lemma UnitNotional(o: Order, quantity: real)
    requires o.quantity == quantity > 0.0
    ensures Notional(o, 1.0, 1.0) == quantity
  {}

  lemma OpenGatePasses(caps: Caps, g: Gates, rows: seq<Row>, o: Order)
    requires g == Gates(false, true, true, true, "U1", "U1", {Upper(o.symbol)}) && o.orderType == "MKT"
    requires IsTreasury(o.secType) && o.quantity > 0.0
    requires o.quantity <= caps.treasuryPerOrder && Used(rows, 0, true) + o.quantity <= caps.treasuryDaily
    ensures GateReason(caps, g, rows, o, o.quantity, 0).None?
  {
    hide IsTreasury, Used;
    assert |Upper(o.orderType)| == 3 && Upper(o.orderType)[0] == 'M';
    assert |"U1"| == 2;
  }

  /** Written with a word that is not exactly CASH, a conversion passes the gate
      and the next one does not see it. */
  lemma ConversionUnseen(caps: Caps, s: State, symbol: string, secType: string, quantity: real)
    requires 0.0 < quantity <= Min(caps.treasuryPerOrder, caps.treasuryDaily) && !CanonicalType(secType)
    requires Used(s.rows, 0, true) == 0.0
    ensures var after := Place(caps, s, Conversion(symbol, secType, quantity)).rows;
            Used(after, 0, true) == 0.0 && Spent(after, 0, true) == Spent(s.rows, 0, true) + quantity
  {
    var call := Conversion(symbol, secType, quantity);
    var row := Row(secType, quantity, 0, Filled);
    UnitNotional(call.order, quantity);
    hide Notional, IsTreasury, Used, Spent;
    OpenGatePasses(caps, call.gates, s.rows, call.order);
    hide GateReason;
    assert RowOf(caps, s, call) == row;
    PlaceAppends(caps, s, call);
    UsedGrows(s.rows, row, 0, true);
    SpentGrows(s.rows, row, 0, true);
  }

  lemma RunOneMore(caps: Caps, call: Call, n: nat)
    ensures Run(caps, Copies(call, n + 1)) == Place(caps, Run(caps, Copies(call, n)), call)
  {
    hide Place;
    assert Copies(call, n + 1)[..n] == Copies(call, n);
  }

  lemma NoCopies(caps: Caps, call: Call)
    ensures Run(caps, Copies(call, 0)) == START
  {}

  lemma OneMore(n: nat, quantity: real)
    ensures Value(0 as real, quantity) == 0.0
    ensures Value((n + 1) as real, quantity) == Value(n as real, quantity) + quantity
  {
    assert (n + 1) as real == n as real + 1.0;
  }

  lemma {:induction false} CopiesUnseen(caps: Caps, symbol: string, secType: string, quantity: real, n: nat)
    requires 0.0 < quantity <= Min(caps.treasuryPerOrder, caps.treasuryDaily) && !CanonicalType(secType)
    ensures var rows := Run(caps, Copies(Conversion(symbol, secType, quantity), n)).rows;
            Used(rows, 0, true) == 0.0 && Spent(rows, 0, true) == Value(n as real, quantity)
  {
    hide Place, Conversion, CanonicalType, Run, Copies, Value;
    var call := Conversion(symbol, secType, quantity);
    if n == 0 {
      NoCopies(caps, call);
      OneMore(0, quantity);
    } else {
      hide Used, Spent;
      CopiesUnseen(caps, symbol, secType, quantity, n - 1);
      RunOneMore(caps, call, n - 1);
      ConversionUnseen(caps, Run(caps, Copies(call, n - 1)), symbol, secType, quantity);
      OneMore(n - 1, quantity);
    }
  }

  /** Whatever the caps, as long as they let some money through, conversions so
      written spend any amount in one day. */
  lemma LowerCaseEscapes(caps: Caps, symbol: string, secType: string, amount: real) returns (calls: seq<Call>)
    requires caps.treasuryPerOrder > 0.0 && caps.treasuryDaily > 0.0 && !CanonicalType(secType)
    ensures InOrder(calls) && TypesIn(calls, {secType})
    ensures Spent(Run(caps, calls).rows, 0, true) > amount
    ensures amount >= caps.treasuryDaily ==> !BudgetsKept(caps, Run(caps, calls).rows)
  {
    hide CanonicalType, Run, Spent, Used, Conversion, Value;
    var quantity := Min(caps.treasuryPerOrder, caps.treasuryDaily);
    var n := Enough(quantity, amount);
    calls := Copies(Conversion(symbol, secType, quantity), n);
    SameMoment(symbol, secType, quantity, n);
    CopiesUnseen(caps, symbol, secType, quantity, n);
    if amount >= caps.treasuryDaily {
      assert Spent(Run(caps, calls).rows, 0, true) > Max(0.0, caps.Daily(true));
    }
  }

  lemma SameMoment(symbol: string, secType: string, quantity: real, n: nat)
    ensures var calls := Copies(Conversion(symbol, secType, quantity), n); InOrder(calls) && TypesIn(calls, {secType})
  {}

  /** Where one order may spend the whole day, the second call already does. */
  lemma TwoConversionsEscape(caps: Caps, symbol: string, secType: string)
    requires caps.treasuryPerOrder >= caps.treasuryDaily > 0.0 && !CanonicalType(secType)
    ensures Spent(Run(caps, Copies(Conversion(symbol, secType, caps.treasuryDaily), 2)).rows, 0, true)
         == 2.0 * caps.treasuryDaily
  {
    hide CanonicalType, Run, Spent;
    CopiesUnseen(caps, symbol, secType, caps.treasuryDaily, 2);
  }

  /** Over every sequential run the day's notional of each kind stays within that
      kind's daily cap, exactly when every security type the operator writes that
      upper-cases to CASH is written CASH, or a treasury cap lets nothing through. */
  lemma BudgetsKeptIff(caps: Caps, types: set<string>)
    ensures (forall t :: t in types ==> Held(caps, t)) <==>
            (forall calls :: InOrder(calls) && TypesIn(calls, types) ==> DollarsKept(caps, calls))
  {
    hide CanonicalType, InOrder, BudgetsKept, DollarsKept;
    if forall t :: t in types ==> Held(caps, t) {
      forall calls | InOrder(calls) && TypesIn(calls, types) ensures DollarsKept(caps, calls) {
        HeldRun(caps, calls);
        KeptInDollars(caps, calls);
      }
    } else {
      var t :| t in types && !Held(caps, t);
      var calls := LowerCaseEscapes(caps, "EURUSD", t, caps.treasuryDaily);
      KeptInDollars(caps, calls);
      assert TypesIn(calls, types);
    }
  }
}
