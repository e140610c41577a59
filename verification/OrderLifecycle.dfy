/** Orders from placement to their end: the gateway that places and records them,
    the paper trader's resting queue, the adapters' pending orders, and the monitor
    that polls both. A step is what one task does between two awaits, except that an
    order's row in the trades mirror is written in the step that ends its handling;
    the steps of different tasks interleave in any order. */
module OrderLifecycle {
  import opened Lists
  import opened AverageCost

  type Id = string

  datatype Order = Order(key: Key, side: Side, size: real, price: real, venue: string)

  datatype Status = Filled | PaperFilled | Partial | Pending | Rejected | Cancelled | Expired | Errored

  datatype Result = Result(status: Status, filledSize: real, filledPrice: real)

  datatype FillRow = FillRow(id: Id, key: Key, fill: Fill)

  datatype TradeRow = TradeRow(id: Id, status: Status, size: real, price: real)

  datatype Holding = Holding(venue: string, size: real, avg: real)

  /** A placement that came back and is not recorded yet. */
  datatype Ticket = Ticket(order: Order, result: Result, venue: string)

  datatype Resting = Resting(id: Id, order: Order)

  datatype Deferred = Deferred(id: Id, order: Order, result: Result)

  /** What the monitor is in the middle of: it asked the fills table, or is about to
      commit. `live` tells an adapter's order from the paper trader's. */
  datatype Job = Idle
               | Checking(id: Id, order: Order, result: Result, live: bool)
               | Writing(id: Id, order: Order, result: Result, live: bool)

  /** A paper portfolio row still to be brought in line with its cost basis, and
      the cost basis once it has been read for that. */
  datatype Due = Due(key: Key, venue: string, read: Option<Basis>)

  // --- Predicates and prices ---------------------------------------------------------

  /** The one test for "did this order become a position". */
  predicate BookedAsPosition(r: Result) { r.status in {Filled, PaperFilled, Partial} && r.filledSize > 0.0 }

  predicate Accepted(status: Status) { status in {Filled, PaperFilled, Partial, Pending} }

  predicate Terminal(status: Status) { status in {Filled, Cancelled, Expired, Rejected} }

  function FillPrice(o: Order, r: Result): real { if r.filledPrice > 0.0 then r.filledPrice else o.price }

  function FillSize(o: Order, r: Result): real { if r.filledSize > 0.0 then r.filledSize else o.size }

  /** The size booked is the venue's, never the order's. */
  function RowOf(id: Id, o: Order, r: Result): FillRow {
    FillRow(id, o.key, Fill(o.side, r.filledSize, FillPrice(o, r), 0.0))
  }

  // --- Fills and cost basis ------------------------------------------------------------

  predicate FillOf(row: FillRow, id: Id, side: Side) { row.id == id && row.fill.side == side }

  predicate HasFill(rows: seq<FillRow>, id: Id, side: Side) {
    exists i :: 0 <= i < |rows| && FillOf(rows[i], id, side)
  }

  /** The first fill booked for an order, which every later one is compared with. */
  function FirstFill(rows: seq<FillRow>, id: Id, side: Side): (first: Option<FillRow>)
    ensures first.None? <==> !HasFill(rows, id, side)
  {
    if rows == [] then None
    else if FillOf(rows[0], id, side) then Some(rows[0])
    else
      assert HasFill(rows[1..], id, side) ==> HasFill(rows, id, side) by {
        if i :| 0 <= i < |rows[1..]| && FillOf(rows[1..][i], id, side) {
          assert FillOf(rows[i + 1], id, side);
        }
      }
      assert HasFill(rows, id, side) ==> HasFill(rows[1..], id, side) by {
        if i :| 0 <= i < |rows| && FillOf(rows[i], id, side) {
          assert FillOf(rows[1..][i - 1], id, side);
        }
      }
      FirstFill(rows[1..], id, side)
  }

  const TOLERANCE := 0.000000001

  /** A replay says the same as the fill already booked. */
  predicate SameFill(a: FillRow, b: FillRow) {
    a.key == b.key && Abs(a.fill.size - b.fill.size) < TOLERANCE && Abs(a.fill.price - b.fill.price) < TOLERANCE
  }

  function FillsOf(rows: seq<FillRow>, key: Key): seq<Fill> {
    if rows == [] then []
    else
      var before := FillsOf(rows[..|rows| - 1], key);
      if rows[|rows| - 1].key == key then before + [rows[|rows| - 1].fill] else before
  }

  // --- The paper portfolio ----------------------------------------------------------------

  predicate InScope(venue: string) { venue in {"polymarket", "kalshi"} }

  /** Projects a reading of the paper cost basis into the portfolio. */
  function Materialized(portfolio: map<Key, Holding>, key: Key, venue: string, read: Basis): map<Key, Holding> {
    if read.size <= 0.0 then portfolio - {key}
    else portfolio[key := Holding(if key in portfolio then portfolio[key].venue else venue, read.size, read.avg)]
  }

  /** The rows a projection reads: none for another venue's market. */
  predicate Readable(books: Books, key: Key, venue: string) { InScope(venue) && key in books }

  // --- The trades mirror --------------------------------------------------------------------

  function Restamped(t: TradeRow, id: Id, status: Status, pendingOnly: bool): TradeRow {
    if t.id == id && (!pendingOnly || t.status.Pending?) then t.(status := status) else t
  }

  function Stamped(trades: seq<TradeRow>, id: Id, status: Status, pendingOnly: bool): seq<TradeRow> {
    seq(|trades|, i requires 0 <= i < |trades| => Restamped(trades[i], id, status, pendingOnly))
  }

  predicate Mirrored(trades: seq<TradeRow>, id: Id) {
    exists i :: 0 <= i < |trades| && trades[i].id == id
  }

  function Rewritten(trades: seq<TradeRow>, row: TradeRow): seq<TradeRow> {
    seq(|trades|, i requires 0 <= i < |trades| => if trades[i].id == row.id then row else trades[i])
  }

  /** UPDATE, and INSERT when nothing was there and the order did trade. */
  function Closed(trades: seq<TradeRow>, row: TradeRow): seq<TradeRow> {
    if Mirrored(trades, row.id) || row.status != Filled then Rewritten(trades, row) else trades + [row]
  }

  // --- State ------------------------------------------------------------------------------

  /** The tables; the cost-basis table is `books` beside its `realized` column. */
  datatype Tables = Tables(rows: seq<FillRow>, books: Books, realized: map<Key, real>, portfolio: map<Key, Holding>,
                           trades: seq<TradeRow>)

  /** What lives in memory only: placements not recorded yet, those whose fill is
      about to be committed, the adapters' pending orders, the paper queue, paper
      fills waiting for the monitor, the monitor's job, and projections owed. */
  datatype Memory = Memory(inflight: map<Id, Ticket>, writing: set<Id>, live: map<Id, Order>, resting: seq<Resting>,
                           deferred: seq<Deferred>, job: Job, due: seq<Due>)

  /** History, in no table: the side of every order id met, the ids whose placement
      executed at once, every filled size a venue reported, and for each paper row
      the reading that was written last. */
  datatype Past = Past(ids: Ids, reports: set<(Id, real)>, shown: Books)

  datatype Ids = Ids(known: map<Id, Side>, instant: set<Id>)

  datatype State = State(t: Tables, m: Memory, h: Past)

  const NOTHING := Memory(map[], {}, map[], [], [], Idle, [])

  const EMPTY := Tables([], map[], map[], map[], [])

  const START := State(EMPTY, NOTHING, Past(Ids(map[], {}), {}, map[]))

  // --- Steps of the gateway -------------------------------------------------------------------

  function Owed(m: Memory, key: Key, venue: string): Memory {
    if key.paper then m.(due := m.due + [Due(key, venue, None)]) else m
  }

  /** A replay that agrees with the booked fill passes for a booking, and is
      projected again; one that disagrees raises. */
  function Replayed(m: Memory, booked: FillRow, again: FillRow, venue: string): Memory {
    if SameFill(booked, again) then Owed(m, again.key, venue) else m
  }

  function RealizedAt(realized: map<Key, real>, key: Key): real { if key in realized then realized[key] else 0.0 }

  /** The transaction of `record_fill`: one fills row, its cost basis, and the profit
      realized under its key. */
  function Committed(t: Tables, row: FillRow): Tables {
    var b := BasisAt(t.books, row.key);
    t.(rows := t.rows + [row], books := t.books[row.key := Apply(b, row.fill)],
       realized := t.realized[row.key := RealizedAt(t.realized, row.key) + Realized(b, row.fill)])
  }

  function MirrorRow(id: Id, k: Ticket): TradeRow {
    TradeRow(id, if k.result.status.PaperFilled? then Filled else k.result.status, FillSize(k.order, k.result),
             FillPrice(k.order, k.result))
  }

  /** The end of a placement's recording: its row in the trades mirror. */
  function Recorded(s: State, id: Id, k: Ticket): State {
    s.(t := if Accepted(k.result.status) then s.t.(trades := s.t.trades + [MirrorRow(id, k)]) else s.t,
       m := s.m.(inflight := s.m.inflight - {id}, writing := s.m.writing - {id}))
  }

  /** An adapter, or the paper trader, tracks an order only when its placement came
      back pending. */
  function Tracked(m: Memory, id: Id, o: Order, r: Result): Memory {
    if !r.status.Pending? then m
    else if o.key.paper then m.(resting := m.resting + [Resting(id, o)])
    else m.(live := m.live[id := o])
  }

  /** A venue gives a new order a new id; a rejection leaves nothing to record. */
  function Place(s: State, id: Id, o: Order, r: Result, venue: string): State {
    if id in s.h.ids.known || !Accepted(r.status) then s
    else
      State(s.t,
            Tracked(s.m.(inflight := s.m.inflight[id := Ticket(o, r, venue)]), id, o, r),
            s.h.(ids := Ids(s.h.ids.known[id := o.side],
                            if BookedAsPosition(r) then s.h.ids.instant + {id} else s.h.ids.instant),
                 reports := s.h.reports + {(id, r.filledSize)}))
  }

  /** The gateway task resumes: it asks the fills table before it writes. */
  function GatewayCheck(s: State, id: Id): State {
    if id !in s.m.inflight || id in s.m.writing then s
    else
      var k := s.m.inflight[id];
      if !BookedAsPosition(k.result) then Recorded(s, id, k)
      else
        match FirstFill(s.t.rows, id, k.order.side)
        case None => s.(m := s.m.(writing := s.m.writing + {id}))
        case Some(booked) => Recorded(s.(m := Replayed(s.m, booked, RowOf(id, k.order, k.result), k.venue)), id, k)
  }

  function GatewayCommit(s: State, id: Id, ok: bool): State {
    if id !in s.m.inflight || id !in s.m.writing then s
    else
      var k := s.m.inflight[id];
      if !ok then Recorded(s, id, k)
      else
        Recorded(State(Committed(s.t, RowOf(id, k.order, k.result)), Owed(s.m, k.order.key, k.venue), s.h), id, k)
  }

  /** Either spelling of the prefix keeps an id away from the venues. */
  predicate PaperId(id: Id) { "PAPER" <= Upper(id) }

  /** An acknowledged cancel closes the pending mirror rows. Some adapters forget the
      order along with it; others leave it to the next poll. */
  function GatewayCancel(s: State, id: Id, paper: bool, acknowledged: bool, untracks: bool): State {
    if id == "" then s
    else if paper || PaperId(id) then s.(t := s.t.(trades := Stamped(s.t.trades, id, Cancelled, true)))
    else if !acknowledged then s
    else
      State(s.t.(trades := Stamped(s.t.trades, id, Cancelled, true)),
            if untracks then s.m.(live := s.m.live - {id}) else s.m, s.h)
  }

  // A projection reads the cost basis and writes the portfolio in two statements,
  // with no transaction around them.

  function Dropped(m: Memory, i: nat): Memory
    requires i < |m.due|
  {
    m.(due := m.due[..i] + m.due[i + 1..])
  }

  function ReadBook(s: State, i: nat, ok: bool): State {
    if i >= |s.m.due| || s.m.due[i].read.Some? then s
    else
      var due := s.m.due[i];
      if !ok || !Readable(s.t.books, due.key, due.venue) then s.(m := Dropped(s.m, i))
      else s.(m := s.m.(due := s.m.due[i := due.(read := Some(s.t.books[due.key]))]))
  }

  function WriteRow(s: State, i: nat, ok: bool): State {
    if i >= |s.m.due| || s.m.due[i].read.None? then s
    else
      var due := s.m.due[i];
      if !ok then s.(m := Dropped(s.m, i))
      else
        State(s.t.(portfolio := Materialized(s.t.portfolio, due.key, due.venue, due.read.value)), Dropped(s.m, i),
              s.h.(shown := s.h.shown[due.key := due.read.value]))
  }

  // --- Steps of the monitor ---------------------------------------------------------------------

  function PaperFill(p: Resting): Deferred { Deferred(p.id, p.order, Result(Filled, p.order.size, p.order.price)) }

  /** What the paper queue is checked against: a price for some markets, and the
      orders the wallet refuses to pay for. */
  datatype Quotes = Quotes(prices: map<string, real>, refused: set<Id>)

  /** The market must trade strictly through the limit; touching it is no fill. */
  predicate TradedThrough(q: Quotes, o: Order) {
    o.key.market in q.prices &&
    if o.side.Buy? then q.prices[o.key.market] < o.price else q.prices[o.key.market] > o.price
  }

  predicate Fills(q: Quotes, p: Resting) { TradedThrough(q, p.order) && p.id !in q.refused && p.order.size > 0.0 }

  function Through(resting: seq<Resting>, q: Quotes): seq<Deferred> {
    if resting == [] then []
    else
      var before := Through(resting[..|resting| - 1], q);
      var last := resting[|resting| - 1];
      if Fills(q, last) then before + [PaperFill(last)] else before
  }

  function Remaining(resting: seq<Resting>, q: Quotes): seq<Resting> {
    if resting == [] then []
    else
      var before := Remaining(resting[..|resting| - 1], q);
      var last := resting[|resting| - 1];
      if Fills(q, last) then before else before + [last]
  }

  function ReportsOf(filled: seq<Deferred>): set<(Id, real)> {
    set d | d in filled :: (d.id, d.result.filledSize)
  }

  function PaperCheck(s: State, q: Quotes): State {
    var filled := Through(s.m.resting, q);
    s.(m := s.m.(deferred := s.m.deferred + filled, resting := Remaining(s.m.resting, q)),
       h := s.h.(reports := s.h.reports + ReportsOf(filled)))
  }

  function StartDeferred(s: State): State {
    if !s.m.job.Idle? || s.m.deferred == [] then s
    else
      var d := s.m.deferred[0];
      s.(m := s.m.(job := Checking(d.id, d.order, d.result, false), deferred := s.m.deferred[1..]))
  }

  function StartPoll(s: State, id: Id, r: Result): State {
    if !s.m.job.Idle? || id !in s.m.live then s
    else
      s.(m := s.m.(job := Checking(id, s.m.live[id], r, true)),
         h := s.h.(reports := s.h.reports + {(id, r.filledSize)}))
  }

  /** The order is over: its mirror row is closed and the adapter forgets it. */
  function JobDone(s: State, id: Id, o: Order, r: Result, live: bool): State {
    if !live then s.(m := s.m.(job := Idle))
    else
      State(s.t.(trades := Closed(s.t.trades, TradeRow(id, r.status, FillSize(o, r), FillPrice(o, r)))),
            s.m.(job := Idle, live := s.m.live - {id}), s.h)
  }

  function JobCheck(s: State): State {
    match s.m.job
    case Checking(id, o, r, live) =>
      if live && !Terminal(r.status) then s.(m := s.m.(job := Idle))
      else if !BookedAsPosition(r) then JobDone(s, id, o, r, live)
      else
        (match FirstFill(s.t.rows, id, o.side)
         case None => s.(m := s.m.(job := Writing(id, o, r, live)))
         case Some(booked) => JobDone(s.(m := Replayed(s.m, booked, RowOf(id, o, r), o.venue)), id, o, r, live))
    case _ => s
  }

  function JobCommit(s: State, ok: bool): State {
    match s.m.job
    case Writing(id, o, r, live) =>
      if !ok then JobDone(s, id, o, r, live)
      else
        JobDone(State(Committed(s.t, RowOf(id, o, r)), Owed(s.m, o.key, o.venue), s.h), id, o, r, live)
    case _ => s
  }

  function TtlCancel(s: State, id: Id, acknowledged: bool): State {
    if !s.m.job.Idle? || id !in s.m.live || !acknowledged then s
    else State(s.t.(trades := Stamped(s.t.trades, id, Cancelled, false)), s.m.(live := s.m.live - {id}), s.h)
  }

  /** An open order found at the venue. It is none that executed when it was placed,
      and it has the side it was placed with. */
  function Adopt(s: State, id: Id, o: Order): State {
    var ids := s.h.ids;
    if id in s.m.live || id in ids.instant || o.key.paper || (id in ids.known && ids.known[id] != o.side) then s
    else s.(m := s.m.(live := s.m.live[id := o]), h := s.h.(ids := ids.(known := ids.known[id := o.side])))
  }

  function Sweep(s: State, id: Id, status: Status): State {
    if id in s.m.live || "PAPER" <= id || !(Terminal(status) || status.Errored?) then s
    else s.(t := s.t.(trades := Stamped(s.t.trades, id, status, status.Errored?)))
  }

  datatype Step = PlaceStep(id: Id, order: Order, result: Result, venue: string)
                | GatewayCheckStep(id: Id)
                | GatewayCommitStep(id: Id, ok: bool)
                | GatewayCancelStep(id: Id, paper: bool, acknowledged: bool, untracks: bool)
                | ReadBookStep(i: nat, ok: bool)
                | WriteRowStep(i: nat, ok: bool)
                | PaperCheckStep(quotes: Quotes)
                | PaperExpireStep
                | StartDeferredStep
                | StartPollStep(id: Id, result: Result)
                | JobCheckStep
                | JobCommitStep(ok: bool)
                | TtlCancelStep(id: Id, acknowledged: bool)
                | AdoptStep(id: Id, order: Order)
                | SweepStep(id: Id, status: Status)
                | RestartStep

  function Next(s: State, step: Step): State {
    match step
    case PlaceStep(id, o, r, venue) => Place(s, id, o, r, venue)
    case GatewayCheckStep(id) => GatewayCheck(s, id)
    case GatewayCommitStep(id, ok) => GatewayCommit(s, id, ok)
    case GatewayCancelStep(id, paper, acknowledged, untracks) => GatewayCancel(s, id, paper, acknowledged, untracks)
    case ReadBookStep(i, ok) => ReadBook(s, i, ok)
    case WriteRowStep(i, ok) => WriteRow(s, i, ok)
    case PaperCheckStep(q) => PaperCheck(s, q)
    case PaperExpireStep => s.(m := s.m.(resting := []))
    case StartDeferredStep => StartDeferred(s)
    case StartPollStep(id, r) => StartPoll(s, id, r)
    case JobCheckStep => JobCheck(s)
    case JobCommitStep(ok) => JobCommit(s, ok)
    case TtlCancelStep(id, acknowledged) => TtlCancel(s, id, acknowledged)
    case AdoptStep(id, o) => Adopt(s, id, o)
    case SweepStep(id, status) => Sweep(s, id, status)
    case RestartStep => s.(m := NOTHING)
  }

  function Run(s: State, steps: seq<Step>): State {
    if steps == [] then s else Next(Run(s, steps[..|steps| - 1]), steps[|steps| - 1])
  }

  // --- The bodies, step by step -----------------------------------------------------------------

  function ProjectedWhole(s: State, i: nat): State { WriteRow(ReadBook(s, i, true), i, true) }

  /** A placement recorded without interruption: check, commit, projection, mirror. */
  function RecordedWhole(s: State, id: Id, ok: bool): State {
    var checked := GatewayCheck(s, id);
    var written := if id in checked.m.writing then GatewayCommit(checked, id, ok) else checked;
    if |written.m.due| > |s.m.due| then ProjectedWhole(written, |s.m.due|) else written
  }

  /** A polled order handled without interruption. */
  function PolledWhole(s: State, id: Id, r: Result, ok: bool): State {
    var checked := JobCheck(StartPoll(s, id, r));
    if checked.m.job.Writing? then JobCommit(checked, ok) else checked
  }

  /** One leg of a pair: the order, what its placement comes back with, and whether
      its fill transaction succeeds. */
  datatype Leg = Leg(id: Id, order: Order, result: Result, venue: string, ok: bool)

  function PlacedWhole(s: State, leg: Leg): State {
    var placed := Place(s, leg.id, leg.order, leg.result, leg.venue);
    if leg.id in placed.m.inflight then RecordedWhole(placed, leg.id, leg.ok) else placed
  }

  predicate NakedLive(leg: Leg) { leg.result.status.Pending? && !leg.order.key.paper }

  /** Both legs or neither: the second is placed only when the first went out, and a
      resting first leg is cancelled when the second did not. */
  function Paired(s: State, a: Leg, b: Leg, blocked: bool, acknowledged: bool, untracks: bool): State {
    if blocked || !Accepted(a.result.status) then s
    else if Accepted(b.result.status) then PlacedWhole(PlacedWhole(s, a), b)
    else if NakedLive(a) then GatewayCancel(PlacedWhole(s, a), a.id, false, acknowledged, untracks)
    else PlacedWhole(s, a)
  }

  ghost predicate Solvent(books: Books) {
    forall key :: BasisAt(books, key).size >= 0.0
  }

  class Desk {
    var tables: Tables
    var memory: Memory
    ghost var past: Past

    ghost function Here(): State
      reads this
    {
      State(tables, memory, past)
    }

    constructor ()
      ensures Here() == START
    {
      tables, memory, past := EMPTY, NOTHING, Past(Ids(map[], {}), {}, map[]);
    }

    method FindFill(id: Id, side: Side) returns (first: Option<FillRow>)
      ensures first == FirstFill(tables.rows, id, side)
    {
      var i := 0;
      while i < |tables.rows|
        invariant 0 <= i <= |tables.rows|
        invariant FirstFill(tables.rows, id, side) == FirstFill(tables.rows[i..], id, side)
      {
        SuffixShrinks(tables.rows, i);
        if FillOf(tables.rows[i], id, side) {
          return Some(tables.rows[i]);
        }
        i := i + 1;
      }
      return None;
    }

    /** The fill transaction of the P&L tracker, in its total-cost form. */
    method RecordFillOnce(row: FillRow) returns (sale: Option<Sale>)
      requires BasisAt(tables.books, row.key).size >= 0.0 && row.fill.size >= 0.0
      modifies this`tables
      ensures tables == Committed(old(tables), row)
      ensures sale == SaleOf(BasisAt(old(tables).books, row.key), row.fill)
    {
      hide Value, PerUnit;
      var b := BasisAt(tables.books, row.key);
      var f := row.fill;
      var totalCost := Value(b.size, b.avg);
      var size, avg := b.size, b.avg;
      var realized := RealizedAt(tables.realized, row.key);
      sale := None;
      if f.side == Buy {
        size := b.size + f.size;
        totalCost := totalCost + Value(f.size, f.price);
        avg := if size > 0.0 then PerUnit(totalCost, size) else 0.0;
      } else {
        var sell := if f.size > b.size then b.size else f.size;
        var pnl := Value(sell, f.price - b.avg) - f.fee;
        realized := realized + pnl;
        size := b.size - sell;
        avg := if size > 0.0 then b.avg else 0.0;
        sale := Some(Sale(sell, pnl, f.fee));
      }
      if size < 0.0 {
        size, avg := 0.0, 0.0;
      }
      assert Basis(size, avg) == Apply(b, f);
      tables := tables.(rows := tables.rows + [row], books := tables.books[row.key := Basis(size, avg)],
                        realized := tables.realized[row.key := realized]);
    }

    /** One projection with nothing in between its two statements. */
    method MaterializePaperRow(key: Key, venue: string)
      modifies this`tables, this`past
      ensures tables == old(tables).(portfolio := if Readable(old(tables).books, key, venue)
                                                  then Materialized(old(tables).portfolio, key, venue,
                                                                    old(tables).books[key])
                                                  else old(tables).portfolio)
      ensures past == if Readable(old(tables).books, key, venue)
                      then old(past).(shown := old(past).shown[key := old(tables).books[key]]) else old(past)
    {
      if venue != "polymarket" && venue != "kalshi" {
        return;
      }
      if key !in tables.books {
        return;
      }
      var size, price := tables.books[key].size, tables.books[key].avg;
      past := past.(shown := past.shown[key := tables.books[key]]);
      if size <= 0.0 {
        tables := tables.(portfolio := tables.portfolio - {key});
        return;
      }
      var shelf := if key in tables.portfolio then tables.portfolio[key].venue else venue;
      tables := tables.(portfolio := tables.portfolio[key := Holding(shelf, size, price)]);
    }

    /** `_record_result` for one placement; `ok` says whether the fill transaction
        succeeds, and a failure is contained. */
    method RecordResult(id: Id, ok: bool)
      requires id in memory.inflight && id !in memory.writing
      requires BasisAt(tables.books, memory.inflight[id].order.key).size >= 0.0
      modifies this
      ensures Here() == RecordedWhole(old(Here()), id, ok)
    {
      hide Apply, Materialized, HasFill, FirstFill, MirrorRow, SameFill, Realized;
      RecordedAtOnce(Here(), id, ok);
      var k := memory.inflight[id];
      var row := RowOf(id, k.order, k.result);
      var recorded := false;
      if BookedAsPosition(k.result) {
        var booked := FindFill(id, k.order.side);
        if booked.Some? {
          recorded := SameFill(booked.value, row);
        } else if ok {
          var _ := RecordFillOnce(row);
          recorded := true;
        }
      }
      if recorded && k.order.key.paper {
        MaterializePaperRow(k.order.key, k.venue);
      }
      if Accepted(k.result.status) {
        tables := tables.(trades := tables.trades + [MirrorRow(id, k)]);
      }
      memory := memory.(inflight := memory.inflight - {id});
    }

    /** One pass over the paper queue. */
    method CheckFills(q: Quotes)
      modifies this
      ensures Here() == PaperCheck(old(Here()), q)
    {
      hide Through, Remaining, Fills;
      var resting := memory.resting;
      var filled: seq<Deferred>, remaining: seq<Resting> := [], [];
      NothingThrough(q);
      var i := 0;
      while i < |resting|
        invariant 0 <= i <= |resting|
        invariant filled == Through(resting[..i], q) && remaining == Remaining(resting[..i], q)
        invariant Here() == old(Here())
      {
        ThroughOneMore(resting, i, q);
        if Fills(q, resting[i]) {
          filled := filled + [PaperFill(resting[i])];
        } else {
          remaining := remaining + [resting[i]];
        }
        i := i + 1;
      }
      WholePrefix(resting);
      memory := memory.(deferred := memory.deferred + filled, resting := remaining);
      past := past.(reports := past.reports + ReportsOf(filled));
    }

    /** One live order of the poll loop, with the venue's answer. */
    method PollOrder(id: Id, r: Result, ok: bool)
      requires memory.job.Idle? && id in memory.live
      requires BasisAt(tables.books, memory.live[id].key).size >= 0.0
      modifies this
      ensures Here() == PolledWhole(old(Here()), id, r, ok)
    {
      hide Apply, HasFill, FirstFill, Closed, SameFill, Realized;
      var o := memory.live[id];
      var row := RowOf(id, o, r);
      past := past.(reports := past.reports + {(id, r.filledSize)});
      if !Terminal(r.status) {
        return;
      }
      if BookedAsPosition(r) {
        var booked := FindFill(id, o.side);
        var recorded := booked.Some? && SameFill(booked.value, row);
        if booked.None? && ok {
          var _ := RecordFillOnce(row);
          recorded := true;
        }
        if recorded && o.key.paper {
          memory := memory.(due := memory.due + [Due(o.key, o.venue, None)]);
        }
      }
      CloseTrade(TradeRow(id, r.status, FillSize(o, r), FillPrice(o, r)));
      memory := memory.(live := memory.live - {id});
    }

    /** UPDATE by order id; INSERT when no row was hit and the order traded. */
    method CloseTrade(row: TradeRow)
      modifies this`tables
      ensures tables == old(tables).(trades := Closed(old(tables).trades, row))
    {
      var trades: seq<TradeRow> := [];
      var hit := false;
      var i := 0;
      while i < |tables.trades|
        invariant 0 <= i <= |tables.trades| && |trades| == i
        invariant hit <==> exists k :: 0 <= k < i && tables.trades[k].id == row.id
        invariant forall k :: 0 <= k < i ==>
                  trades[k] == if tables.trades[k].id == row.id then row else tables.trades[k]
      {
        if tables.trades[i].id == row.id {
          hit := true;
          trades := trades + [row];
        } else {
          trades := trades + [tables.trades[i]];
        }
        i := i + 1;
      }
      assert trades == Rewritten(tables.trades, row);
      if !hit && row.status == Filled {
        assert trades == tables.trades;
        trades := trades + [row];
      }
      tables := tables.(trades := trades);
    }

    /** The adapter's part of a placement: it answers, and tracks what rests. */
    method PlaceOrder(leg: Leg)
      requires leg.id !in past.ids.known
      modifies this
      ensures Here() == Place(old(Here()), leg.id, leg.order, leg.result, leg.venue)
      ensures Accepted(leg.result.status) ==>
                leg.id in memory.inflight && memory.inflight[leg.id] == Ticket(leg.order, leg.result, leg.venue)
      ensures memory.writing == old(memory).writing && tables == old(tables)
    {
      if !Accepted(leg.result.status) {
        return;
      }
      memory := memory.(inflight := memory.inflight[leg.id := Ticket(leg.order, leg.result, leg.venue)]);
      if leg.result.status == Pending {
        if leg.order.key.paper {
          memory := memory.(resting := memory.resting + [Resting(leg.id, leg.order)]);
        } else {
          memory := memory.(live := memory.live[leg.id := leg.order]);
        }
      }
      past := past.(ids := Ids(past.ids.known[leg.id := leg.order.side],
                               if BookedAsPosition(leg.result) then past.ids.instant + {leg.id} else past.ids.instant),
                    reports := past.reports + {(leg.id, leg.result.filledSize)});
    }

    method PlaceAndRecord(leg: Leg)
      requires leg.id !in past.ids.known && leg.id !in memory.inflight && leg.id !in memory.writing
      requires Solvent(tables.books)
      modifies this
      ensures Here() == PlacedWhole(old(Here()), leg)
    {
      hide Place, RecordedWhole;
      PlaceOrder(leg);
      NotPlaced(old(Here()), leg);
      if Accepted(leg.result.status) {
        RecordResult(leg.id, leg.ok);
      }
    }

    method SubmitPaired(a: Leg, b: Leg, blocked: bool, acknowledged: bool, untracks: bool)
      requires a.id != b.id && a.id !in past.ids.known && b.id !in past.ids.known
      requires forall id :: id in memory.inflight || id in memory.writing ==> id in past.ids.known
      requires Solvent(tables.books)
      modifies this
      ensures Here() == Paired(old(Here()), a, b, blocked, acknowledged, untracks)
    {
      hide PlacedWhole, Apply, GatewayCancel;
      if blocked {
        return;
      }
      ghost var start := Here();
      if !Accepted(a.result.status) {
        RejectedLeavesNothing(start, a);
      }
      PlaceAndRecord(a);
      if !Accepted(a.result.status) {
        return;
      }
      StillFresh(start, a, b);
      if !Accepted(b.result.status) {
        RejectedLeavesNothing(Here(), b);
      }
      PlaceAndRecord(b);
      if !Accepted(b.result.status) {
        if a.result.status == Pending && !a.order.key.paper {
          CancelResting(a.id, false, acknowledged, untracks);
        }
      }
    }

    method CancelResting(id: Id, paper: bool, acknowledged: bool, untracks: bool)
      modifies this
      ensures Here() == GatewayCancel(old(Here()), id, paper, acknowledged, untracks)
    {
      if id == "" {
        return;
      }
      if paper || PaperId(id) {
        tables := tables.(trades := Stamped(tables.trades, id, Cancelled, true));
        return;
      }
      if !acknowledged {
        return;
      }
      if untracks {
        memory := memory.(live := memory.live - {id});
      }
      tables := tables.(trades := Stamped(tables.trades, id, Cancelled, true));
    }
  }

  lemma SuffixShrinks(rows: seq<FillRow>, i: nat)
    requires i < |rows|
    ensures rows[i..][0] == rows[i] && rows[i..][1..] == rows[i + 1..]
  {}

  /** The recording passed for a booking: a new one, or an agreeing replay. */
  predicate CountsAsBooked(s: State, id: Id, k: Ticket, ok: bool) {
    BookedAsPosition(k.result) &&
    match FirstFill(s.t.rows, id, k.order.side)
    case None => ok
    case Some(booked) => SameFill(booked, RowOf(id, k.order, k.result))
  }

  /** What the uninterrupted recording comes to: the queues of its steps cancel out. */
  function RecordedInOne(s: State, id: Id, k: Ticket, ok: bool): State {
    var row := RowOf(id, k.order, k.result);
    var books := BookedAsPosition(k.result) && FirstFill(s.t.rows, id, k.order.side).None? && ok;
    var t1 := if books then Committed(s.t, row) else s.t;
    var projects := CountsAsBooked(s, id, k, ok) && row.key.paper && Readable(t1.books, row.key, k.venue);
    var t2 := if projects then t1.(portfolio := Materialized(t1.portfolio, row.key, k.venue, t1.books[row.key]))
              else t1;
    var h2 := if projects then s.h.(shown := s.h.shown[row.key := t1.books[row.key]]) else s.h;
    State(if Accepted(k.result.status) then t2.(trades := t2.trades + [MirrorRow(id, k)]) else t2,
          s.m.(inflight := s.m.inflight - {id}), h2)
  }

  lemma ReadableMeans(books: Books, key: Key, venue: string)
    requires Readable(books, key, venue)
    ensures key in books
  {}

  lemma ProjectedLast(s: State, due: seq<Due>, key: Key, venue: string)
    requires s.m.due == due + [Due(key, venue, None)]
    ensures ProjectedWhole(s, |due|) ==
            if Readable(s.t.books, key, venue) then
              State(s.t.(portfolio := Materialized(s.t.portfolio, key, venue, s.t.books[key])), s.m.(due := due),
                    s.h.(shown := s.h.shown[key := s.t.books[key]]))
            else s.(m := s.m.(due := due))
  {
    hide Materialized, Readable;
    assert s.m.due[..|due|] + s.m.due[|due| + 1..] == due;
    if Readable(s.t.books, key, venue) {
      var read := ReadBook(s, |due|, true);
      assert key in s.t.books by { ReadableMeans(s.t.books, key, venue); }
      assert read.m.due == due + [Due(key, venue, Some(s.t.books[key]))];
      assert read.m.due[..|due|] + read.m.due[|due| + 1..] == due;
    }
  }

  lemma RecordedAtOnce(s: State, id: Id, ok: bool)
    requires id in s.m.inflight && id !in s.m.writing
    ensures RecordedWhole(s, id, ok) == RecordedInOne(s, id, s.m.inflight[id], ok)
  {
    var k := s.m.inflight[id];
    var row := RowOf(id, k.order, k.result);
    hide Apply, Realized, Materialized, HasFill, FirstFill, MirrorRow, BookedAsPosition, RowOf, Accepted, SameFill,
         Readable, ProjectedWhole;
    assert s.m.writing + {id} - {id} == s.m.writing && s.m.writing - {id} == s.m.writing;
    if CountsAsBooked(s, id, k, ok) && row.key.paper {
      var written := if FirstFill(s.t.rows, id, k.order.side).None? then GatewayCommit(GatewayCheck(s, id), id, ok)
                     else GatewayCheck(s, id);
      assert written.m.due == s.m.due + [Due(row.key, k.venue, None)];
      ProjectedLast(written, s.m.due, row.key, k.venue);
    }
  }

  lemma NotPlaced(s: State, leg: Leg)
    requires leg.id !in s.m.inflight
    ensures leg.id in Place(s, leg.id, leg.order, leg.result, leg.venue).m.inflight
            <==> leg.id !in s.h.ids.known && Accepted(leg.result.status)
  {}

  lemma RejectedLeavesNothing(s: State, leg: Leg)
    requires leg.id !in s.m.inflight && !Accepted(leg.result.status)
    ensures PlacedWhole(s, leg) == s
  {}

  lemma StillFresh(s: State, a: Leg, b: Leg)
    requires a.id != b.id && b.id !in s.h.ids.known && a.id !in s.m.inflight && a.id !in s.m.writing
    requires b.id !in s.m.inflight && b.id !in s.m.writing && Solvent(s.t.books)
    ensures var after := PlacedWhole(s, a);
            && b.id !in after.h.ids.known && b.id !in after.m.inflight && b.id !in after.m.writing
            && Solvent(after.t.books)
  {
    var placed := Place(s, a.id, a.order, a.result, a.venue);
    PlaceTouches(s, a);
    hide Place, RecordedWhole;
    if a.id in placed.m.inflight {
      RecordedAtOnce(placed, a.id, a.ok);
      RecordedTouches(placed, a.id, placed.m.inflight[a.id], a.ok);
      hide RecordedInOne;
    }
  }

  lemma PlaceTouches(s: State, leg: Leg)
    ensures var placed := Place(s, leg.id, leg.order, leg.result, leg.venue);
            && placed.t == s.t && placed.m.writing == s.m.writing
            && (forall id :: id != leg.id ==> (id in placed.m.inflight <==> id in s.m.inflight))
            && (forall id :: id != leg.id ==> (id in placed.h.ids.known <==> id in s.h.ids.known))
  {
    hide BookedAsPosition;
  }

  lemma RecordedTouches(s: State, id: Id, k: Ticket, ok: bool)
    requires Solvent(s.t.books)
    ensures var after := RecordedInOne(s, id, k, ok);
            && Solvent(after.t.books) && after.h.ids == s.h.ids && after.m.writing == s.m.writing
            && forall x :: x in after.m.inflight ==> x in s.m.inflight
  {
    hide Apply, MirrorRow, Materialized, HasFill, FillPrice;
    if k.result.filledSize >= 0.0 {
      FillKeepsSolvent(s.t.books, id, k.order, k.result);
    }
  }

  lemma FillKeepsSolvent(books: Books, id: Id, o: Order, r: Result)
    requires Solvent(books) && r.filledSize >= 0.0
    ensures var row := RowOf(id, o, r);
            Solvent(books[row.key := Apply(BasisAt(books, row.key), row.fill)])
  {
    hide Value, PerUnit;
    var row := RowOf(id, o, r);
    var after := books[row.key := Apply(BasisAt(books, row.key), row.fill)];
    forall key ensures BasisAt(after, key).size >= 0.0 {
      assert BasisAt(books, key).size >= 0.0;
    }
  }

  lemma NothingThrough(q: Quotes)
    ensures Through([], q) == [] && Remaining([], q) == []
  {}

  lemma ThroughOneMore(resting: seq<Resting>, i: nat, q: Quotes)
    requires i < |resting|
    ensures Through(resting[..i + 1], q)
         == if Fills(q, resting[i]) then Through(resting[..i], q) + [PaperFill(resting[i])]
            else Through(resting[..i], q)
    ensures Remaining(resting[..i + 1], q)
         == if Fills(q, resting[i]) then Remaining(resting[..i], q) else Remaining(resting[..i], q) + [resting[i]]
  {
    PrefixGrows(resting, i);
  }
}
