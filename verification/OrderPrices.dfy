/** At what size and price fills are booked and mirrored, over every interleaving of the
    order lifecycle: those of an answer a venue gave, or of a paper order that traded. */
module OrderPrices {
  import opened Lists
  import opened AverageCost
  import opened OrderLifecycle
  import opened OrderRuns

  // --- What was ordered, and what was answered --------------------------------------

  /** An order under an id: as it was placed, or as it was found open and adopted. */
  datatype Ordering = Ordering(id: Id, order: Order)

  /** What came back for an order that stood as `order` at that moment. */
  datatype Saying = Saying(id: Id, order: Order, result: Result)

  function OrderedBy(step: Step): set<Ordering> {
    match step
    case PlaceStep(id, o, _, _) => {Ordering(id, o)}
    case AdoptStep(id, o) => {Ordering(id, o)}
    case _ => {}
  }

  /** The market trades at a better price than the limit, not at it. */
  predicate Better(q: Quotes, o: Order) {
    && o.key.market in q.prices
    && (o.side.Buy? ==> q.prices[o.key.market] < o.price)
    && (o.side.Sell? ==> q.prices[o.key.market] > o.price)
  }

  /** What a step learns: the answer to a new placement, the answer to a poll of an order
      that an adapter tracks, and the orders of the paper queue that a check fills, at
      their own size and price. */
  function SaidBy(s: State, step: Step): set<Saying> {
    match step
    case PlaceStep(id, o, r, _) => if id in s.h.ids.known then {} else {Saying(id, o, r)}
    case StartPollStep(id, r) => if s.m.job.Idle? && id in s.m.live then {Saying(id, s.m.live[id], r)} else {}
    case PaperCheckStep(q) =>
      set p | p in s.m.resting && Better(q, p.order) && p.id !in q.refused && p.order.size > 0.0 ::
        Saying(p.id, p.order, Result(Filled, p.order.size, p.order.price))
    case _ => {}
  }

  function Ordered(steps: seq<Step>): set<Ordering> {
    if steps == [] then {} else Ordered(steps[..|steps| - 1]) + OrderedBy(steps[|steps| - 1])
  }

  function Said(steps: seq<Step>): set<Saying> {
    if steps == [] then {}
    else Said(steps[..|steps| - 1]) + SaidBy(Run(START, steps[..|steps| - 1]), steps[|steps| - 1])
  }

  // --- Rows with the terms of an answer ------------------------------------------------

  /** The venue's price when it named one, else the limit. */
  predicate PricedAs(price: real, x: Saying) {
    && (x.result.filledPrice > 0.0 ==> price == x.result.filledPrice)
    && (x.result.filledPrice <= 0.0 ==> price == x.order.price)
  }

  /** The fill is the order's side of its book at the size answered, without a fee. */
  predicate BooksAs(row: FillRow, x: Saying) {
    && row.id == x.id && row.key == x.order.key && row.fill.side == x.order.side && row.fill.fee == 0.0
    && x.result.status in {Filled, PaperFilled, Partial} && row.fill.size == x.result.filledSize > 0.0
    && PricedAs(row.fill.price, x)
  }

  /** The mirror row shows the size answered, or the order's where none was filled. */
  predicate MirrorsAs(t: TradeRow, x: Saying) {
    && t.id == x.id && PricedAs(t.price, x)
    && (x.result.filledSize > 0.0 ==> t.size == x.result.filledSize)
    && (x.result.filledSize <= 0.0 ==> t.size == x.order.size)
  }

  predicate RowFrom(row: FillRow, said: set<Saying>) { exists x :: x in said && BooksAs(row, x) }

  predicate TradeFrom(t: TradeRow, said: set<Saying>) { exists x :: x in said && MirrorsAs(t, x) }

  ghost predicate RowsFrom(rows: seq<FillRow>, said: set<Saying>) {
    forall i :: 0 <= i < |rows| ==> RowFrom(rows[i], said)
  }

  ghost predicate TradesFrom(trades: seq<TradeRow>, said: set<Saying>) {
    forall i :: 0 <= i < |trades| ==> TradeFrom(trades[i], said)
  }

  ghost predicate JobFrom(job: Job, said: set<Saying>) {
    match job
    case Idle => true
    case Checking(id, o, r, _) => Saying(id, o, r) in said
    case Writing(id, o, r, _) => Saying(id, o, r) in said && BookedAsPosition(r)
  }

  /** Everything on its way to a table is an answer that was given, to an order that
      was placed or adopted. */
  ghost predicate QueuesFrom(m: Memory, orders: set<Ordering>, said: set<Saying>) {
    && (forall id :: id in m.live ==> Ordering(id, m.live[id]) in orders)
    && (forall i :: 0 <= i < |m.resting| ==> Ordering(m.resting[i].id, m.resting[i].order) in orders)
    && (forall id :: id in m.inflight ==> Saying(id, m.inflight[id].order, m.inflight[id].result) in said)
    && (forall id :: id in m.writing && id in m.inflight ==> BookedAsPosition(m.inflight[id].result))
    && (forall i :: 0 <= i < |m.deferred| ==>
          Saying(m.deferred[i].id, m.deferred[i].order, m.deferred[i].result) in said)
    && JobFrom(m.job, said)
  }

  ghost predicate AllOrdered(said: set<Saying>, orders: set<Ordering>) {
    forall x :: x in said ==> Ordering(x.id, x.order) in orders
  }

  ghost predicate From(s: State, orders: set<Ordering>, said: set<Saying>) {
    && RowsFrom(s.t.rows, said) && TradesFrom(s.t.trades, said) && QueuesFrom(s.m, orders, said)
    && AllOrdered(said, orders)
  }

  lemma MoreIsSaid(s: State, orders: set<Ordering>, said: set<Saying>, orders': set<Ordering>, said': set<Saying>)
    requires From(s, orders, said) && orders <= orders' && said <= said' && AllOrdered(said', orders')
    ensures From(s, orders', said')
  {
    hide BooksAs, MirrorsAs, BookedAsPosition;
    RowsFromMore(s.t.rows, said, said');
    TradesFromMore(s.t.trades, said, said');
    hide RowsFrom, TradesFrom, AllOrdered;
  }

  lemma RowsFromMore(rows: seq<FillRow>, said: set<Saying>, said': set<Saying>)
    requires RowsFrom(rows, said) && said <= said'
    ensures RowsFrom(rows, said')
  {
    hide BooksAs;
    forall i | 0 <= i < |rows| ensures RowFrom(rows[i], said') {
      assert RowFrom(rows[i], said);
    }
  }

  lemma TradesFromMore(trades: seq<TradeRow>, said: set<Saying>, said': set<Saying>)
    requires TradesFrom(trades, said) && said <= said'
    ensures TradesFrom(trades, said')
  {
    hide MirrorsAs;
    forall i | 0 <= i < |trades| ensures TradeFrom(trades[i], said') {
      assert TradeFrom(trades[i], said);
    }
  }

  // --- The tables, step by step ---------------------------------------------------------

  lemma FillBooksAs(rows: seq<FillRow>, said: set<Saying>, id: Id, o: Order, r: Result)
    requires RowsFrom(rows, said) && Saying(id, o, r) in said && BookedAsPosition(r)
    ensures RowsFrom(rows + [RowOf(id, o, r)], said)
  {
    assert BooksAs(RowOf(id, o, r), Saying(id, o, r));
    assert RowFrom(RowOf(id, o, r), said);
    hide RowFrom, BookedAsPosition, RowOf;
  }

  lemma RowMirrorsAs(trades: seq<TradeRow>, said: set<Saying>, id: Id, o: Order, r: Result, status: Status)
    requires TradesFrom(trades, said) && Saying(id, o, r) in said
    ensures var row := TradeRow(id, status, FillSize(o, r), FillPrice(o, r));
            TradesFrom(trades + [row], said) && TradesFrom(Rewritten(trades, row), said)
  {
    var row := TradeRow(id, status, FillSize(o, r), FillPrice(o, r));
    assert MirrorsAs(row, Saying(id, o, r));
    assert TradeFrom(row, said);
    hide TradeFrom, FillSize, FillPrice;
  }

  lemma StampKeepsTerms(trades: seq<TradeRow>, said: set<Saying>, id: Id, status: Status, pendingOnly: bool)
    requires TradesFrom(trades, said)
    ensures TradesFrom(Stamped(trades, id, status, pendingOnly), said)
  {
    var stamped := Stamped(trades, id, status, pendingOnly);
    forall i | 0 <= i < |stamped| ensures TradeFrom(stamped[i], said) {
      assert TradeFrom(trades[i], said);
      var x :| x in said && MirrorsAs(trades[i], x);
      assert MirrorsAs(stamped[i], x);
    }
  }

  lemma RecordedFrom(s: State, id: Id, orders: set<Ordering>, said: set<Saying>)
    requires From(s, orders, said) && id in s.m.inflight
    ensures From(Recorded(s, id, s.m.inflight[id]), orders, said)
  {
    hide BooksAs, MirrorsAs, FillSize, FillPrice, Accepted, BookedAsPosition, RowsFrom, AllOrdered;
    var k := s.m.inflight[id];
    var status := if k.result.status.PaperFilled? then Filled else k.result.status;
    RowMirrorsAs(s.t.trades, said, id, k.order, k.result, status);
    hide TradesFrom;
  }

  lemma OwedFrom(s: State, orders: set<Ordering>, said: set<Saying>)
    requires From(s, orders, said)
    ensures forall key, venue :: From(s.(m := Owed(s.m, key, venue)), orders, said)
    ensures forall booked, again, venue :: From(s.(m := Replayed(s.m, booked, again, venue)), orders, said)
  {
    hide RowsFrom, TradesFrom, AllOrdered, SameFill;
  }

  lemma GatewayCheckFrom(s: State, id: Id, orders: set<Ordering>, said: set<Saying>)
    requires From(s, orders, said)
    ensures From(GatewayCheck(s, id), orders, said)
  {
    hide RowsFrom, TradesFrom, AllOrdered, FirstFill, HasFill, Recorded, Replayed, BookedAsPosition, RowOf;
    if id in s.m.inflight && id !in s.m.writing {
      var k := s.m.inflight[id];
      OwedFrom(s, orders, said);
      RecordedFrom(s, id, orders, said);
      var booked := FirstFill(s.t.rows, id, k.order.side);
      if booked.Some? {
        OwedKeeps(s.m);
        RecordedFrom(s.(m := Replayed(s.m, booked.value, RowOf(id, k.order, k.result), k.venue)), id, orders, said);
      }
    }
  }

  lemma CommittedFrom(s: State, orders: set<Ordering>, said: set<Saying>, id: Id, o: Order, r: Result, venue: string)
    requires From(s, orders, said) && Saying(id, o, r) in said && BookedAsPosition(r)
    ensures From(State(Committed(s.t, RowOf(id, o, r)), Owed(s.m, o.key, venue), s.h), orders, said)
  {
    FillBooksAs(s.t.rows, said, id, o, r);
    OwedFrom(s, orders, said);
    hide RowsFrom, TradesFrom, AllOrdered, BookedAsPosition, QueuesFrom, RowOf, Owed, Apply, Realized;
  }

  lemma GatewayCommitFrom(s: State, id: Id, ok: bool, orders: set<Ordering>, said: set<Saying>)
    requires From(s, orders, said)
    ensures From(GatewayCommit(s, id, ok), orders, said)
  {
    hide RowsFrom, TradesFrom, AllOrdered, Recorded, BookedAsPosition, RowOf, Committed;
    if id in s.m.inflight && id in s.m.writing {
      var k := s.m.inflight[id];
      if ok {
        CommittedFrom(s, orders, said, id, k.order, k.result, k.venue);
        OwedKeeps(s.m);
        RecordedFrom(State(Committed(s.t, RowOf(id, k.order, k.result)), Owed(s.m, k.order.key, k.venue), s.h), id,
                     orders, said);
      } else {
        RecordedFrom(s, id, orders, said);
      }
    }
  }

  lemma JobDoneFrom(s: State, id: Id, o: Order, r: Result, live: bool, orders: set<Ordering>, said: set<Saying>)
    requires From(s, orders, said) && Saying(id, o, r) in said
    ensures From(JobDone(s, id, o, r, live), orders, said)
  {
    hide RowsFrom, AllOrdered, BookedAsPosition, FillSize, FillPrice, MirrorsAs, Mirrored;
    RowMirrorsAs(s.t.trades, said, id, o, r, r.status);
    hide TradesFrom, Rewritten;
  }

  lemma JobCheckFrom(s: State, orders: set<Ordering>, said: set<Saying>)
    requires From(s, orders, said)
    ensures From(JobCheck(s), orders, said)
  {
    hide RowsFrom, TradesFrom, AllOrdered, FirstFill, HasFill, JobDone, Replayed, BookedAsPosition, RowOf, Terminal;
    if s.m.job.Checking? {
      var j := s.m.job;
      OwedFrom(s, orders, said);
      JobDoneFrom(s, j.id, j.order, j.result, j.live, orders, said);
      var booked := FirstFill(s.t.rows, j.id, j.order.side);
      if booked.Some? {
        var again := RowOf(j.id, j.order, j.result);
        JobDoneFrom(s.(m := Replayed(s.m, booked.value, again, j.order.venue)), j.id, j.order, j.result, j.live,
                    orders, said);
      }
    }
  }

  lemma JobCommitFrom(s: State, ok: bool, orders: set<Ordering>, said: set<Saying>)
    requires From(s, orders, said)
    ensures From(JobCommit(s, ok), orders, said)
  {
    hide RowsFrom, TradesFrom, AllOrdered, JobDone, BookedAsPosition, RowOf, Committed;
    if s.m.job.Writing? {
      var j := s.m.job;
      if ok {
        CommittedFrom(s, orders, said, j.id, j.order, j.result, j.order.venue);
        JobDoneFrom(State(Committed(s.t, RowOf(j.id, j.order, j.result)), Owed(s.m, j.order.key, j.order.venue), s.h),
                    j.id, j.order, j.result, j.live, orders, said);
      } else {
        JobDoneFrom(s, j.id, j.order, j.result, j.live, orders, said);
      }
    }
  }

  lemma BystanderFrom(s: State, n: State, orders: set<Ordering>, said: set<Saying>)
    requires From(s, orders, said) && OnlyForgets(s, n) && TradesFrom(n.t.trades, said)
    ensures From(n, orders, said)
  {
    hide RowsFrom, TradesFrom, AllOrdered, BookedAsPosition;
  }

  lemma BystanderTrades(s: State, step: Step, said: set<Saying>)
    requires TradesFrom(s.t.trades, said) && Bystander(step)
    ensures TradesFrom(Next(s, step).t.trades, said)
  {
    hide TradesFrom, Stamped, PaperId, Materialized, Readable, Terminal;
    match step
    case GatewayCancelStep(id, _, _, _) => StampKeepsTerms(s.t.trades, said, id, Cancelled, true);
    case TtlCancelStep(id, _) => StampKeepsTerms(s.t.trades, said, id, Cancelled, false);
    case SweepStep(id, status) => StampKeepsTerms(s.t.trades, said, id, status, status.Errored?);
    case _ =>
  }

  // --- The queues, step by step ------------------------------------------------------------

  lemma PlaceFrom(s: State, step: Step, orders: set<Ordering>, said: set<Saying>)
    requires From(s, orders, said) && Tokens(s) && step.PlaceStep?
    ensures From(Next(s, step), orders + OrderedBy(step), said + SaidBy(s, step))
  {
    MoreIsSaid(s, orders, said, orders + OrderedBy(step), said + SaidBy(s, step));
    if step.id !in s.h.ids.known && Accepted(step.result.status) {
      TrackedSplits(s.m, step.id, step.order, step.result, step.venue);
      assert step.id !in s.m.writing;
      hide Tokens, Tracked, RowsFrom, TradesFrom, AllOrdered, BookedAsPosition, Accepted;
    }
  }

  lemma {:induction false} ThroughSaid(resting: seq<Resting>, q: Quotes, d: Deferred)
    requires d in Through(resting, q)
    ensures exists p :: p in resting && Better(q, p.order) && p.id !in q.refused && p.order.size > 0.0
                        && d == Deferred(p.id, p.order, Result(Filled, p.order.size, p.order.price))
  {
    var init, last := resting[..|resting| - 1], resting[|resting| - 1];
    if d in Through(init, q) {
      ThroughSaid(init, q, d);
    } else {
      assert last in resting && d == PaperFill(last);
    }
  }

  lemma PaperCheckFrom(s: State, q: Quotes, orders: set<Ordering>, said: set<Saying>)
    requires From(s, orders, said)
    ensures From(PaperCheck(s, q), orders, said + SaidBy(s, PaperCheckStep(q)))
  {
    var more := SaidBy(s, PaperCheckStep(q));
    forall x | x in more ensures Ordering(x.id, x.order) in orders {
      var p :| p in s.m.resting && x == Saying(p.id, p.order, Result(Filled, p.order.size, p.order.price));
    }
    MoreIsSaid(s, orders, said, orders, said + more);
    hide Through, Remaining, RowsFrom, TradesFrom, AllOrdered, BookedAsPosition, From;
    QueueMembers(s.m.resting, q);
    forall d | d in Through(s.m.resting, q) ensures Saying(d.id, d.order, d.result) in more {
      ThroughSaid(s.m.resting, q, d);
    }
    CheckedFrom(s, q, orders, said + more);
  }

  lemma CheckedFrom(s: State, q: Quotes, orders: set<Ordering>, said: set<Saying>)
    requires From(s, orders, said)
    requires forall d :: d in Through(s.m.resting, q) ==> Saying(d.id, d.order, d.result) in said
    requires forall p :: p in Remaining(s.m.resting, q) ==> p in s.m.resting
    ensures From(PaperCheck(s, q), orders, said)
  {
    hide Through, Remaining, RowsFrom, TradesFrom, AllOrdered, BookedAsPosition;
    var filled, left := Through(s.m.resting, q), Remaining(s.m.resting, q);
    forall i | 0 <= i < |filled| ensures Saying(filled[i].id, filled[i].order, filled[i].result) in said {
      assert filled[i] in filled;
    }
    forall i | 0 <= i < |left| ensures Ordering(left[i].id, left[i].order) in orders {
      assert left[i] in left;
      var j :| 0 <= j < |s.m.resting| && s.m.resting[j] == left[i];
    }
  }

  lemma OthersFrom(s: State, step: Step, orders: set<Ordering>, said: set<Saying>)
    requires From(s, orders, said)
    requires step.StartDeferredStep? || step.StartPollStep? || step.AdoptStep? || step.RestartStep?
    ensures From(Next(s, step), orders + OrderedBy(step), said + SaidBy(s, step))
  {
    MoreIsSaid(s, orders, said, orders + OrderedBy(step), said + SaidBy(s, step));
    hide RowsFrom, TradesFrom, AllOrdered, BookedAsPosition;
  }

  lemma {:induction false} StepFrom(s: State, step: Step, orders: set<Ordering>, said: set<Saying>)
    requires Tokens(s) && From(s, orders, said)
    ensures From(Next(s, step), orders + OrderedBy(step), said + SaidBy(s, step))
  {
    hide From, Tokens, GatewayCheck, GatewayCommit, JobCheck, JobCommit, PaperCheck, TradesFrom, OnlyForgets;
    assert orders + {} == orders && said + {} == said;
    match step
    case PlaceStep(_, _, _, _) => PlaceFrom(s, step, orders, said);
    case GatewayCheckStep(id) => GatewayCheckFrom(s, id, orders, said);
    case GatewayCommitStep(id, ok) => GatewayCommitFrom(s, id, ok, orders, said);
    case JobCheckStep => JobCheckFrom(s, orders, said);
    case JobCommitStep(ok) => JobCommitFrom(s, ok, orders, said);
    case PaperCheckStep(q) => PaperCheckFrom(s, q, orders, said);
    case StartDeferredStep => OthersFrom(s, step, orders, said);
    case StartPollStep(_, _) => OthersFrom(s, step, orders, said);
    case AdoptStep(_, _) => OthersFrom(s, step, orders, said);
    case RestartStep => OthersFrom(s, step, orders, said);
    case _ => CancelFrom(s, step, orders, said);
  }

  lemma CancelFrom(s: State, step: Step, orders: set<Ordering>, said: set<Saying>)
    requires From(s, orders, said) && Bystander(step)
    ensures From(Next(s, step), orders, said)
  {
    hide Next, RowsFrom, TradesFrom, AllOrdered, QueuesFrom, OnlyForgets;
    BystanderDoes(s, step);
    BystanderTrades(s, step, said);
    BystanderFrom(s, Next(s, step), orders, said);
  }

  lemma NothingSaid()
    ensures From(START, {}, {})
  {}

  lemma {:induction false} RunFrom(steps: seq<Step>)
    ensures From(Run(START, steps), Ordered(steps), Said(steps))
  {
    if steps == [] {
      NothingSaid();
    } else {
      hide Next, From, OrderedBy, SaidBy, Sound;
      var init, step := steps[..|steps| - 1], steps[|steps| - 1];
      RunFrom(init);
      RunTokens(init);
      StepFrom(Run(START, init), step, Ordered(init), Said(init));
    }
  }

  lemma RunTokens(steps: seq<Step>)
    ensures Tokens(Run(START, steps))
  {
    hide Run, Tokens;
    RunSound(steps);
  }

  // --- The terms of every row ----------------------------------------------------------------

  /** Over every run, each row of the fills table is one answer: its side and book are
      those of an order placed or adopted under its id, its size is the filled size of
      the answer, and its price the price the answer named, or the limit where it named
      none. A paper fill of the queue has its order's own size and price, and its market
      had traded strictly better. */
  lemma FillsAsAnswered(steps: seq<Step>, i: nat) returns (x: Saying)
    requires i < |Run(START, steps).t.rows|
    ensures x in Said(steps) && Ordering(x.id, x.order) in Ordered(steps)
    ensures BooksAs(Run(START, steps).t.rows[i], x)
  {
    hide Run, BooksAs, Said, Ordered, TradesFrom, QueuesFrom;
    RunFrom(steps);
    assert RowFrom(Run(START, steps).t.rows[i], Said(steps));
    x :| x in Said(steps) && BooksAs(Run(START, steps).t.rows[i], x);
  }

  /** So it is with every row of the trades mirror, whatever status it has come to show. */
  lemma TradesAsAnswered(steps: seq<Step>, i: nat) returns (x: Saying)
    requires i < |Run(START, steps).t.trades|
    ensures x in Said(steps) && Ordering(x.id, x.order) in Ordered(steps)
    ensures MirrorsAs(Run(START, steps).t.trades[i], x)
  {
    hide Run, MirrorsAs, Said, Ordered, RowsFrom, QueuesFrom;
    RunFrom(steps);
    assert TradeFrom(Run(START, steps).t.trades[i], Said(steps));
    x :| x in Said(steps) && MirrorsAs(Run(START, steps).t.trades[i], x);
  }

  /** A check fills exactly the orders of the queue whose market trades strictly better
      than their limit, that the wallet pays for and that are for something, and leaves
      every other where it is. */
  lemma {:induction false} CheckExact(resting: seq<Resting>, q: Quotes)
    ensures |Through(resting, q)| + |Remaining(resting, q)| == |resting|
    ensures forall p :: p in resting ==>
              if Better(q, p.order) && p.id !in q.refused && p.order.size > 0.0
              then Deferred(p.id, p.order, Result(Filled, p.order.size, p.order.price)) in Through(resting, q)
              else p in Remaining(resting, q)
  {
    if resting == [] {
    } else {
      var init, last := resting[..|resting| - 1], resting[|resting| - 1];
      CheckExact(init, q);
      assert resting == init + [last];
    }
  }

  // --- What a placement and a replay come to -------------------------------------------------

  /** A placement recorded without interruption is booked exactly when it executed for
      something and its transaction went through, leaves a mirror row exactly when it executed
      or rests, and is tracked exactly when it rests: in the paper queue or by the adapter. */
  lemma PlacementExact(s: State, leg: Leg)
    requires Tokens(s) && leg.id !in s.h.ids.known
    ensures var after, r := PlacedWhole(s, leg), leg.result;
            && (BookedId(after.t.rows, leg.id) <==>
                  leg.ok && r.status in {Filled, PaperFilled, Partial} && r.filledSize > 0.0)
            && (after.t.trades == s.t.trades <==> r.status !in {Filled, PaperFilled, Partial, Pending})
            && (after.t.trades != s.t.trades ==>
                  && |after.t.trades| == |s.t.trades| + 1 && after.t.trades[..|s.t.trades|] == s.t.trades
                  && after.t.trades[|s.t.trades|].id == leg.id
                  && after.t.trades[|s.t.trades|].status == if r.status.PaperFilled? then Filled else r.status)
            && (leg.order.key.paper ==>
                  after.m.resting == if r.status.Pending? then s.m.resting + [Resting(leg.id, leg.order)]
                                     else s.m.resting)
            && (!leg.order.key.paper ==>
                  after.m.live == if r.status.Pending? then s.m.live[leg.id := leg.order] else s.m.live)
  {
    hide Tokens;
    FreshId(s, leg.id);
    if Accepted(leg.result.status) {
      var placed := Place(s, leg.id, leg.order, leg.result, leg.venue);
      TrackedSplits(s.m, leg.id, leg.order, leg.result, leg.venue);
      RecordedAtOnce(placed, leg.id, leg.ok);
      AppendBooked(s.t.rows, RowOf(leg.id, leg.order, leg.result));
      NotFilledYet(s.t.rows, leg.id, leg.order.side);
      assert (s.t.trades + [MirrorRow(leg.id, Ticket(leg.order, leg.result, leg.venue))])[..|s.t.trades|] == s.t.trades;
      hide BookedId, FirstFill, HasFill, Apply, Realized, Materialized, Readable, SameFill, RecordedWhole, RowOf,
           FillSize, FillPrice;
    }
  }

  lemma FreshId(s: State, id: Id)
    requires Tokens(s) && id !in s.h.ids.known
    ensures !BookedId(s.t.rows, id) && id !in s.m.inflight && id !in s.m.writing
  {
    FreshNotBooked(s.t.rows, s.h.ids, id);
    hide BookedId, BookedOnce, BookedAsPosition, Outside;
  }

  lemma NotFilledYet(rows: seq<FillRow>, id: Id, side: Side)
    requires !BookedId(rows, id)
    ensures FirstFill(rows, id, side).None?
  {
    hide FirstFill;
    var first := FirstFill(rows, id, side);
  }

  /** A recording that finds its order booked owes a paper row once more exactly when it says
      the same as the fill booked first: of the same book, and less than a billionth apart
      in size and in price. */
  lemma ReplayOwes(s: State, id: Id, price: real, booked: FillRow)
    requires id in s.m.inflight && id !in s.m.writing && s.m.inflight[id].order.key.paper
    requires BookedAsPosition(s.m.inflight[id].result)
    requires PricedAs(price, Saying(id, s.m.inflight[id].order, s.m.inflight[id].result))
    requires FirstFill(s.t.rows, id, s.m.inflight[id].order.side) == Some(booked)
    ensures var k := s.m.inflight[id];
            GatewayCheck(s, id).m.due ==
            if && booked.key == k.order.key
               && -0.000000001 < booked.fill.size - k.result.filledSize < 0.000000001
               && -0.000000001 < booked.fill.price - price < 0.000000001
            then s.m.due + [Due(k.order.key, k.venue, None)] else s.m.due
  {
    hide FirstFill, HasFill, MirrorRow, BookedAsPosition, Accepted;
  }

  // --- Which mirror rows a cancel or a sweep stamps --------------------------------------------

  /** A gateway cancel stamps the pending rows of its order, once the venue acknowledged it or
      it is a paper order, by its flag or by its id; and no other row. */
  lemma CancelStamps(s: State, id: Id, paper: bool, acknowledged: bool, untracks: bool, i: nat)
    requires i < |s.t.trades|
    ensures var after, t := GatewayCancel(s, id, paper, acknowledged, untracks).t.trades, s.t.trades[i];
            && |after| == |s.t.trades|
            && after[i] == if && id != "" && (paper || PaperId(id) || acknowledged)
                              && t.id == id && t.status.Pending? then t.(status := Cancelled) else t
  {
    hide PaperId;
  }

  /** An id is a paper order's when it begins with the five letters, in either case. */
  lemma PaperIdIff(id: Id)
    ensures PaperId(id) <==>
            && |id| >= 5 && id[0] in {'P', 'p'} && id[1] in {'A', 'a'} && id[2] in {'P', 'p'} && id[3] in {'E', 'e'}
            && id[4] in {'R', 'r'}
  {
    var up := Upper(id);
    assert |up| == |id|;
    if |id| >= 5 {
      assert "PAPER" <= up <==> up[0] == 'P' && up[1] == 'A' && up[2] == 'P' && up[3] == 'E' && up[4] == 'R' by {
        assert up[..5] == [up[0], up[1], up[2], up[3], up[4]];
        assert "PAPER" <= up <==> up[..5] == "PAPER";
      }
    }
  }

  /** The monitor's own cancel stamps every row of its order, whatever it showed. */
  lemma TtlStamps(s: State, id: Id, acknowledged: bool, i: nat)
    requires i < |s.t.trades|
    ensures var after, t := TtlCancel(s, id, acknowledged).t.trades, s.t.trades[i];
            && |after| == |s.t.trades|
            && after[i] == if && acknowledged && id in s.m.live && s.m.job.Idle? && t.id == id
                           then t.(status := Cancelled) else t
  {}

  /** The orphan sweep stamps the rows of an order nobody tracks, and that is no paper order,
      with a status that is final; an error stamps pending rows only. */
  lemma SweepStamps(s: State, id: Id, status: Status, i: nat)
    requires i < |s.t.trades|
    ensures var after, t := Sweep(s, id, status).t.trades, s.t.trades[i];
            && |after| == |s.t.trades|
            && after[i] == if && id !in s.m.live && !("PAPER" <= id) && t.id == id
                              && (|| status in {Filled, Cancelled, Expired, Rejected}
                                  || (status.Errored? && t.status.Pending?))
                           then t.(status := status) else t
  {}
}
