/** What every interleaving of the order lifecycle keeps. */
module OrderRuns {
  import opened Lists
  import opened AverageCost
  import opened OrderLifecycle

  // --- One booking per order -------------------------------------------------------

  predicate BookedId(rows: seq<FillRow>, id: Id) {
    exists i :: 0 <= i < |rows| && rows[i].id == id
  }

  /** No order id has two fills. */
  predicate BookedOnce(rows: seq<FillRow>) {
    forall i, j :: 0 <= i < j < |rows| ==> rows[i].id != rows[j].id
  }

  predicate KnownAs(h: Ids, id: Id, side: Side) { id in h.known && h.known[id] == side }

  ghost predicate RowsKnown(rows: seq<FillRow>, h: Ids) {
    forall i :: 0 <= i < |rows| ==> KnownAs(h, rows[i].id, rows[i].fill.side)
  }

  ghost predicate InstantKnown(h: Ids) {
    forall id :: id in h.instant ==> id in h.known
  }

  /** A placement that executed waits for its one recording; one that did not is no
      fill of the gateway's. */
  ghost predicate InflightSound(rows: seq<FillRow>, inflight: map<Id, Ticket>, writing: set<Id>, h: Ids) {
    && (forall id :: id in inflight ==> KnownAs(h, id, inflight[id].order.side))
    && (forall id :: id in inflight && BookedAsPosition(inflight[id].result) ==> id in h.instant && !BookedId(rows, id))
    && (forall id :: id in writing ==> id in inflight && BookedAsPosition(inflight[id].result))
  }

  predicate Outside(h: Ids, id: Id, o: Order) { KnownAs(h, id, o.side) && id !in h.instant }

  // Nothing the monitor may book executed at its placement.

  ghost predicate LiveSound(live: map<Id, Order>, h: Ids) {
    forall id :: id in live ==> Outside(h, id, live[id])
  }

  ghost predicate RestingSound(resting: seq<Resting>, h: Ids) {
    forall i :: 0 <= i < |resting| ==> Outside(h, resting[i].id, resting[i].order)
  }

  ghost predicate DeferredSound(deferred: seq<Deferred>, h: Ids) {
    forall i :: 0 <= i < |deferred| ==> Outside(h, deferred[i].id, deferred[i].order)
  }

  ghost predicate JobSound(rows: seq<FillRow>, job: Job, h: Ids) {
    match job
    case Idle => true
    case Checking(id, o, _, _) => Outside(h, id, o)
    case Writing(id, o, r, _) => Outside(h, id, o) && BookedAsPosition(r) && !BookedId(rows, id)
  }

  ghost predicate Tokens(s: State) {
    && BookedOnce(s.t.rows) && RowsKnown(s.t.rows, s.h.ids) && InstantKnown(s.h.ids)
    && InflightSound(s.t.rows, s.m.inflight, s.m.writing, s.h.ids)
    && LiveSound(s.m.live, s.h.ids) && RestingSound(s.m.resting, s.h.ids) && DeferredSound(s.m.deferred, s.h.ids)
    && JobSound(s.t.rows, s.m.job, s.h.ids)
  }

  // What the four writing steps touch.

  predicate MonitorUntouched(s: State, n: State) {
    && n.h == s.h && n.m.live == s.m.live && n.m.resting == s.m.resting && n.m.deferred == s.m.deferred
    && n.m.job == s.m.job
  }

  predicate GatewayUntouched(s: State, n: State) {
    && n.h == s.h && n.m.inflight == s.m.inflight && n.m.writing == s.m.writing && n.m.resting == s.m.resting
    && n.m.deferred == s.m.deferred
  }

  lemma OwedKeeps(m: Memory)
    ensures forall key, venue :: Owed(m, key, venue) == m.(due := Owed(m, key, venue).due)
    ensures forall booked, again, venue ::
              Replayed(m, booked, again, venue) == m.(due := Replayed(m, booked, again, venue).due)
  {
    hide SameFill;
  }

  lemma GatewayCheckDoes(s: State, id: Id)
    ensures var n := GatewayCheck(s, id);
            && MonitorUntouched(s, n) && n.t == s.t.(trades := n.t.trades)
            && (|| (n.m.inflight == s.m.inflight && n.m.writing == s.m.writing)
                || (n.m.inflight == s.m.inflight - {id} && n.m.writing == s.m.writing - {id})
                || (id in s.m.inflight && BookedAsPosition(s.m.inflight[id].result)
                    && n.m.inflight == s.m.inflight && n.m.writing == s.m.writing + {id}))
  {
    hide MirrorRow, BookedAsPosition, FirstFill, HasFill, FillPrice, Owed, Replayed, Accepted;
    OwedKeeps(s.m);
  }

  lemma GatewayCommitDoes(s: State, id: Id, ok: bool)
    requires id in s.m.inflight && id in s.m.writing
    ensures var n, k := GatewayCommit(s, id, ok), s.m.inflight[id];
            && MonitorUntouched(s, n) && n.m.inflight == s.m.inflight - {id} && n.m.writing == s.m.writing - {id}
            && n.t == (if ok then Committed(s.t, RowOf(id, k.order, k.result)) else s.t).(trades := n.t.trades)
            && n.t.rows == if ok then s.t.rows + [RowOf(id, k.order, k.result)] else s.t.rows
  {
    hide MirrorRow, FillPrice, Owed, Replayed, Accepted, Apply, Realized;
    OwedKeeps(s.m);
  }

  lemma JobCheckDoes(s: State)
    requires s.m.job.Checking?
    ensures var n, j := JobCheck(s), s.m.job;
            && GatewayUntouched(s, n) && n.t == s.t.(trades := n.t.trades)
            && (|| (n.m.job.Idle? && (n.m.live == s.m.live || n.m.live == s.m.live - {j.id}))
                || (n.m.live == s.m.live && n.m.job == Writing(j.id, j.order, j.result, j.live)
                    && BookedAsPosition(j.result) && !HasFill(s.t.rows, j.id, j.order.side)
                    && (j.live ==> Terminal(j.result.status))))
  {
    hide Closed, BookedAsPosition, HasFill, FillPrice, FillSize, Owed, Replayed, Terminal;
    OwedKeeps(s.m);
  }

  lemma JobCommitDoes(s: State, ok: bool)
    requires s.m.job.Writing?
    ensures var n, j := JobCommit(s, ok), s.m.job;
            && GatewayUntouched(s, n) && n.m.job.Idle? && (n.m.live == s.m.live || n.m.live == s.m.live - {j.id})
            && n.t == (if ok then Committed(s.t, RowOf(j.id, j.order, j.result)) else s.t).(trades := n.t.trades)
            && n.t.rows == if ok then s.t.rows + [RowOf(j.id, j.order, j.result)] else s.t.rows
  {
    hide Closed, FillPrice, FillSize, Owed, Replayed, Apply, Realized;
    OwedKeeps(s.m);
  }

  /** Cancels, expiry, the sweep and the projections touch none of what leads to a
      booking, except by forgetting orders. */
  predicate Bystander(step: Step) {
    step.PaperExpireStep? || step.TtlCancelStep? || step.SweepStep? || step.GatewayCancelStep? || step.ReadBookStep?
    || step.WriteRowStep?
  }

  ghost predicate OnlyForgets(s: State, n: State) {
    && n.t.rows == s.t.rows && n.t.books == s.t.books && n.t.realized == s.t.realized
    && n.h.ids == s.h.ids && n.h.reports == s.h.reports
    && n.m.inflight == s.m.inflight && n.m.writing == s.m.writing && n.m.deferred == s.m.deferred && n.m.job == s.m.job
    && (forall id :: id in n.m.live ==> id in s.m.live && n.m.live[id] == s.m.live[id])
    && (n.m.resting == s.m.resting || n.m.resting == [])
  }

  lemma CancelForgets(s: State, step: Step)
    requires step.PaperExpireStep? || step.TtlCancelStep? || step.SweepStep? || step.GatewayCancelStep?
    ensures OnlyForgets(s, Next(s, step))
  {
    hide Stamped, PaperId, Terminal;
  }

  lemma ProjectionForgets(s: State, step: Step)
    requires step.ReadBookStep? || step.WriteRowStep?
    ensures OnlyForgets(s, Next(s, step))
  {
    hide Materialized, Readable;
  }

  lemma BystanderDoes(s: State, step: Step)
    requires Bystander(step)
    ensures OnlyForgets(s, Next(s, step))
  {
    hide Next, OnlyForgets;
    if step.ReadBookStep? || step.WriteRowStep? {
      ProjectionForgets(s, step);
    } else {
      CancelForgets(s, step);
    }
  }

  lemma PendingIsNoPosition(r: Result)
    ensures BookedAsPosition(r) ==> !r.status.Pending?
  {}

  function Grown(h: Ids, id: Id, side: Side, executed: bool): Ids {
    Ids(h.known[id := side], if executed then h.instant + {id} else h.instant)
  }

  /** A new id leaves everything known about the others as it was. */
  lemma GrownKeeps(h: Ids, id: Id, o: Order, executed: bool)
    requires id !in h.known && InstantKnown(h)
    ensures InstantKnown(Grown(h, id, o.side, executed))
    ensures forall x, side :: KnownAs(h, x, side) ==> KnownAs(Grown(h, id, o.side, executed), x, side) && x != id
    ensures forall x, p :: Outside(h, x, p) ==> Outside(Grown(h, id, o.side, executed), x, p)
    ensures KnownAs(Grown(h, id, o.side, executed), id, o.side)
    ensures !executed ==> Outside(Grown(h, id, o.side, executed), id, o)
  {}

  lemma FreshNotBooked(rows: seq<FillRow>, h: Ids, id: Id)
    requires RowsKnown(rows, h) && id !in h.known
    ensures !BookedId(rows, id)
  {}

  lemma InflightGrows(s: State, id: Id, o: Order, r: Result, venue: string)
    requires Tokens(s) && id !in s.h.ids.known
    ensures InflightSound(s.t.rows, s.m.inflight[id := Ticket(o, r, venue)], s.m.writing,
                          Grown(s.h.ids, id, o.side, BookedAsPosition(r)))
  {
    FreshNotBooked(s.t.rows, s.h.ids, id);
    GrownKeeps(s.h.ids, id, o, BookedAsPosition(r));
    hide BookedId, BookedOnce, BookedAsPosition, KnownAs, InstantKnown, LiveSound, RestingSound, DeferredSound,
         JobSound;
  }

  lemma QueuesGrow(s: State, id: Id, o: Order, executed: bool)
    requires Tokens(s) && id !in s.h.ids.known
    ensures var h := Grown(s.h.ids, id, o.side, executed);
            && RowsKnown(s.t.rows, h) && InstantKnown(h) && DeferredSound(s.m.deferred, h)
            && JobSound(s.t.rows, s.m.job, h)
            && LiveSound(s.m.live, h) && RestingSound(s.m.resting, h)
            && (!executed ==> LiveSound(s.m.live[id := o], h) && RestingSound(s.m.resting + [Resting(id, o)], h))
  {
    GrownKeeps(s.h.ids, id, o, executed);
    hide Outside, KnownAs, InstantKnown, Grown, BookedId, BookedOnce, BookedAsPosition, InflightSound;
  }

  lemma PlaceKeepsTokens(s: State, id: Id, o: Order, r: Result, venue: string)
    requires Tokens(s)
    ensures Tokens(Place(s, id, o, r, venue))
  {
    if id !in s.h.ids.known && Accepted(r.status) {
      InflightGrows(s, id, o, r, venue);
      QueuesGrow(s, id, o, BookedAsPosition(r));
      PendingIsNoPosition(r);
      TrackedSplits(s.m, id, o, r, venue);
      assert Place(s, id, o, r, venue).h.ids == Grown(s.h.ids, id, o.side, BookedAsPosition(r));
      hide BookedOnce, BookedAsPosition, InstantKnown, RowsKnown, InflightSound, LiveSound, RestingSound, DeferredSound,
           JobSound, Grown, Tracked, Accepted;
    }
  }

  lemma TrackedSplits(m: Memory, id: Id, o: Order, r: Result, venue: string)
    ensures var n := Tracked(m.(inflight := m.inflight[id := Ticket(o, r, venue)]), id, o, r);
            && n.inflight == m.inflight[id := Ticket(o, r, venue)] && n.writing == m.writing
            && n.deferred == m.deferred && n.job == m.job && n.due == m.due
            && (n.live == m.live || (r.status.Pending? && n.live == m.live[id := o]))
            && (n.resting == m.resting || (r.status.Pending? && n.resting == m.resting + [Resting(id, o)]))
  {}

  lemma AppendBooked(rows: seq<FillRow>, row: FillRow)
    ensures forall id :: BookedId(rows + [row], id) <==> BookedId(rows, id) || row.id == id
    ensures BookedOnce(rows) && !BookedId(rows, row.id) ==> BookedOnce(rows + [row])
  {
    var all := rows + [row];
    assert all[|rows|] == row;
    forall id ensures BookedId(all, id) <==> BookedId(rows, id) || row.id == id {
      if i :| 0 <= i < |rows| && rows[i].id == id {
        assert all[i].id == id;
      }
      if i :| 0 <= i < |all| && all[i].id == id {
        assert i < |rows| ==> rows[i].id == id;
      }
    }
  }

  lemma GatewayCheckKeepsTokens(s: State, id: Id)
    requires Tokens(s)
    ensures Tokens(GatewayCheck(s, id))
  {
    GatewayCheckDoes(s, id);
    hide GatewayCheck, BookedOnce, BookedId, RowsKnown, InstantKnown, LiveSound, RestingSound, DeferredSound,
         JobSound, KnownAs, BookedAsPosition;
  }

  // What one more fill does to each part of the invariant.

  lemma RowsStayKnown(rows: seq<FillRow>, h: Ids, row: FillRow)
    requires RowsKnown(rows, h) && KnownAs(h, row.id, row.fill.side)
    ensures RowsKnown(rows + [row], h)
  {}

  lemma InflightStaysSound(rows: seq<FillRow>, inflight: map<Id, Ticket>, writing: set<Id>, h: Ids, row: FillRow)
    requires InflightSound(rows, inflight, writing, h)
    ensures InflightSound(rows + [row], inflight - {row.id}, writing - {row.id}, h)
    ensures row.id !in h.instant ==> InflightSound(rows + [row], inflight, writing, h)
  {
    AppendBooked(rows, row);
    hide BookedId, BookedAsPosition, KnownAs;
  }

  lemma InflightShrinks(rows: seq<FillRow>, inflight: map<Id, Ticket>, writing: set<Id>, h: Ids, id: Id)
    requires InflightSound(rows, inflight, writing, h)
    ensures InflightSound(rows, inflight - {id}, writing - {id}, h)
  {
    hide BookedId, BookedAsPosition, KnownAs;
  }

  lemma JobStaysSound(rows: seq<FillRow>, job: Job, h: Ids, row: FillRow)
    requires JobSound(rows, job, h) && row.id in h.instant
    ensures JobSound(rows + [row], job, h)
  {
    AppendBooked(rows, row);
    hide BookedId, BookedAsPosition, KnownAs;
  }

  /** Committing a placement's fill: its id is booked nowhere else, and no other task
      is about to book it. */
  lemma GatewayCommitKeepsTokens(s: State, id: Id, ok: bool)
    requires Tokens(s)
    ensures Tokens(GatewayCommit(s, id, ok))
  {
    if id in s.m.inflight && id in s.m.writing {
      var row := RowOf(id, s.m.inflight[id].order, s.m.inflight[id].result);
      GatewayCommitDoes(s, id, ok);
      AppendBooked(s.t.rows, row);
      RowsStayKnown(s.t.rows, s.h.ids, row);
      InflightStaysSound(s.t.rows, s.m.inflight, s.m.writing, s.h.ids, row);
      InflightShrinks(s.t.rows, s.m.inflight, s.m.writing, s.h.ids, id);
      JobStaysSound(s.t.rows, s.m.job, s.h.ids, row);
      hide GatewayCommit, Committed, BookedOnce, BookedId, RowsKnown, InflightSound, JobSound, InstantKnown, LiveSound,
           RestingSound, DeferredSound, FillPrice;
    }
  }

  lemma OutsideMeans(h: Ids, id: Id, o: Order)
    requires Outside(h, id, o)
    ensures KnownAs(h, id, o.side) && id !in h.instant
  {}

  lemma NoFillNotBooked(rows: seq<FillRow>, h: Ids, id: Id, side: Side)
    requires RowsKnown(rows, h) && KnownAs(h, id, side) && !HasFill(rows, id, side)
    ensures !BookedId(rows, id)
  {
  }

  lemma JobCheckKeepsTokens(s: State)
    requires Tokens(s)
    ensures Tokens(JobCheck(s))
  {
    if s.m.job.Checking? {
      OutsideMeans(s.h.ids, s.m.job.id, s.m.job.order);
      if !HasFill(s.t.rows, s.m.job.id, s.m.job.order.side) {
        NoFillNotBooked(s.t.rows, s.h.ids, s.m.job.id, s.m.job.order.side);
      }
      JobCheckDoes(s);
      hide JobCheck, BookedOnce, BookedId, BookedAsPosition, HasFill, RowsKnown, InstantKnown, InflightSound,
           RestingSound, DeferredSound, Outside, Terminal;
    }
  }

  /** Committing a polled or deferred fill: it did not execute at placement, so no
      gateway task is about to book it. */
  lemma JobCommitKeepsTokens(s: State, ok: bool)
    requires Tokens(s)
    ensures Tokens(JobCommit(s, ok))
  {
    if s.m.job.Writing? {
      var row := RowOf(s.m.job.id, s.m.job.order, s.m.job.result);
      OutsideMeans(s.h.ids, s.m.job.id, s.m.job.order);
      AppendBooked(s.t.rows, row);
      RowsStayKnown(s.t.rows, s.h.ids, row);
      InflightStaysSound(s.t.rows, s.m.inflight, s.m.writing, s.h.ids, row);
      JobCommitDoes(s, ok);
      hide JobCommit, Committed, BookedOnce, BookedId, BookedAsPosition, RowsKnown, InflightSound, Outside, KnownAs,
           InstantKnown, RestingSound, DeferredSound, FillPrice;
    }
  }

  lemma {:induction false} QueueMembers(resting: seq<Resting>, q: Quotes)
    ensures forall d :: d in Through(resting, q) ==>
              exists i :: 0 <= i < |resting| && d == PaperFill(resting[i]) && resting[i].order.size > 0.0
    ensures forall p :: p in Remaining(resting, q) ==> p in resting
  {
    if resting == [] {
    } else {
      var init := resting[..|resting| - 1];
      QueueMembers(init, q);
      forall d | d in Through(resting, q)
        ensures exists i :: 0 <= i < |resting| && d == PaperFill(resting[i]) && resting[i].order.size > 0.0
      {
        if d in Through(init, q) {
          var i :| 0 <= i < |init| && d == PaperFill(init[i]) && init[i].order.size > 0.0;
          assert resting[i] == init[i];
        } else {
          assert d == PaperFill(resting[|resting| - 1]);
        }
      }
    }
  }

  lemma PaperCheckKeepsTokens(s: State, q: Quotes)
    requires Tokens(s)
    ensures Tokens(PaperCheck(s, q))
  {
    hide BookedOnce, BookedId, Through, Remaining, Outside, BookedAsPosition, RowsKnown, InflightSound, InstantKnown,
         JobSound, LiveSound;
    QueueMembers(s.m.resting, q);
    var more := Through(s.m.resting, q);
    forall i | 0 <= i < |more| ensures Outside(s.h.ids, more[i].id, more[i].order) {
      assert more[i] in more;
    }
    var left := Remaining(s.m.resting, q);
    forall i | 0 <= i < |left| ensures Outside(s.h.ids, left[i].id, left[i].order) {
      assert left[i] in left;
    }
  }

  lemma AdoptionKeepsIds(h: Ids, id: Id, side: Side)
    requires id !in h.known || h.known[id] == side
    ensures var n := h.(known := h.known[id := side]);
            && (forall x, y :: KnownAs(h, x, y) ==> KnownAs(n, x, y))
            && (forall x, o :: Outside(h, x, o) ==> Outside(n, x, o))
            && (InstantKnown(h) ==> InstantKnown(n))
            && (id !in h.instant ==> forall o: Order :: o.side == side ==> Outside(n, id, o))
  {}

  lemma AdoptKeepsTokens(s: State, id: Id, o: Order)
    requires Tokens(s)
    ensures Tokens(Adopt(s, id, o))
  {
    if id !in s.m.live && id !in s.h.ids.instant && (id !in s.h.ids.known || s.h.ids.known[id] == o.side) {
      AdoptionKeepsIds(s.h.ids, id, o.side);
    }
    hide BookedOnce, BookedId, BookedAsPosition, KnownAs, Outside, InstantKnown;
  }

  lemma BystanderKeepsTokens(s: State, n: State)
    requires Tokens(s) && OnlyForgets(s, n)
    ensures Tokens(n)
  {
    hide BookedOnce, BookedId, BookedAsPosition, RowsKnown, InstantKnown, InflightSound, Outside, JobSound;
  }

  lemma MonitorKeepsTokens(s: State, step: Step)
    requires Tokens(s) && (step.StartDeferredStep? || step.StartPollStep? || step.RestartStep?)
    ensures Tokens(Next(s, step))
  {
    hide BookedOnce, BookedId, BookedAsPosition, RowsKnown, InstantKnown, Outside;
  }

  lemma {:induction false} StepKeepsTokens(s: State, step: Step)
    requires Tokens(s)
    ensures Tokens(Next(s, step))
  {
    hide Tokens;
    match step
    case PlaceStep(id, o, r, venue) => PlaceKeepsTokens(s, id, o, r, venue);
    case GatewayCheckStep(id) => GatewayCheckKeepsTokens(s, id);
    case GatewayCommitStep(id, ok) => GatewayCommitKeepsTokens(s, id, ok);
    case AdoptStep(id, o) => AdoptKeepsTokens(s, id, o);
    case PaperCheckStep(q) => PaperCheckKeepsTokens(s, q);
    case JobCheckStep => JobCheckKeepsTokens(s);
    case JobCommitStep(ok) => JobCommitKeepsTokens(s, ok);
    case StartDeferredStep => MonitorKeepsTokens(s, step);
    case StartPollStep(_, _) => MonitorKeepsTokens(s, step);
    case RestartStep => MonitorKeepsTokens(s, step);
    case _ =>
      BystanderDoes(s, step);
      BystanderKeepsTokens(s, Next(s, step));
      hide Next;
  }

  // --- Cost basis is the walk of the fills; sizes are the venue's -------------------------

  ghost predicate BooksSound(t: Tables) {
    && (forall key :: BasisAt(t.books, key) == Walk(FillsOf(t.rows, key)))
    && (forall key :: RealizedAt(t.realized, key) == BookedPnl(FillsOf(t.rows, key)))
  }

  lemma CommittedKeepsBooks(t: Tables, row: FillRow)
    requires BooksSound(t)
    ensures BooksSound(Committed(t, row))
  {
    hide Apply, Realized, Walk, BookedPnl;
    assert (t.rows + [row])[..|t.rows|] == t.rows;
    WalkGrows(FillsOf(t.rows, row.key), row.fill);
    forall key
      ensures BasisAt(Committed(t, row).books, key) == Walk(FillsOf(t.rows + [row], key))
      ensures RealizedAt(Committed(t, row).realized, key) == BookedPnl(FillsOf(t.rows + [row], key))
    {
      assert BasisAt(t.books, key) == Walk(FillsOf(t.rows, key));
      assert RealizedAt(t.realized, key) == BookedPnl(FillsOf(t.rows, key));
    }
  }

  /** What has been reported to whom, and is on its way to the fills table. */
  ghost predicate Reported(s: State) {
    && (forall i :: 0 <= i < |s.t.rows| ==>
          s.t.rows[i].fill.size > 0.0 && (s.t.rows[i].id, s.t.rows[i].fill.size) in s.h.reports)
    && (forall id :: id in s.m.inflight ==> (id, s.m.inflight[id].result.filledSize) in s.h.reports)
    && (forall id :: id in s.m.writing && id in s.m.inflight ==> s.m.inflight[id].result.filledSize > 0.0)
    && (forall i :: 0 <= i < |s.m.deferred| ==> (s.m.deferred[i].id, s.m.deferred[i].result.filledSize) in s.h.reports)
    && (match s.m.job
        case Idle => true
        case Checking(id, _, r, _) => (id, r.filledSize) in s.h.reports
        case Writing(id, _, r, _) => (id, r.filledSize) in s.h.reports && r.filledSize > 0.0)
  }

  lemma PlaceKeepsReported(s: State, id: Id, o: Order, r: Result, venue: string)
    requires Tokens(s) && Reported(s)
    ensures Reported(Place(s, id, o, r, venue))
  {
    if id !in s.h.ids.known && Accepted(r.status) {
      TrackedSplits(s.m, id, o, r, venue);
      assert id !in s.m.writing;
      hide Tokens, Tracked, BookedAsPosition;
    }
  }

  lemma PaperCheckKeepsReported(s: State, q: Quotes)
    requires Reported(s)
    ensures Reported(PaperCheck(s, q))
  {
    hide Through, Remaining;
    var more := Through(s.m.resting, q);
    forall i | 0 <= i < |more| ensures (more[i].id, more[i].result.filledSize) in PaperCheck(s, q).h.reports {
      assert more[i] in more;
    }
  }

  lemma GatewayCheckKeepsReported(s: State, id: Id)
    requires Reported(s)
    ensures Reported(GatewayCheck(s, id))
  {
    GatewayCheckDoes(s, id);
    hide GatewayCheck;
  }

  lemma GatewayCommitKeepsReported(s: State, id: Id, ok: bool)
    requires Reported(s)
    ensures Reported(GatewayCommit(s, id, ok))
  {
    if id in s.m.inflight && id in s.m.writing {
      GatewayCommitDoes(s, id, ok);
      hide GatewayCommit, Committed, FillPrice;
    }
  }

  lemma JobCheckKeepsReported(s: State)
    requires Reported(s)
    ensures Reported(JobCheck(s))
  {
    if s.m.job.Checking? {
      JobCheckDoes(s);
      hide JobCheck, HasFill, Terminal;
    }
  }

  lemma JobCommitKeepsReported(s: State, ok: bool)
    requires Reported(s)
    ensures Reported(JobCommit(s, ok))
  {
    if s.m.job.Writing? {
      JobCommitDoes(s, ok);
      hide JobCommit, Committed, FillPrice;
    }
  }

  lemma BystanderKeepsReported(s: State, n: State)
    requires Reported(s) && OnlyForgets(s, n)
    ensures Reported(n)
  {}

  lemma OthersKeepReported(s: State, step: Step)
    requires Reported(s) && (step.StartDeferredStep? || step.StartPollStep? || step.AdoptStep? || step.RestartStep?)
    ensures Reported(Next(s, step))
  {}

  lemma {:induction false} StepKeepsReported(s: State, step: Step)
    requires Tokens(s) && Reported(s)
    ensures Reported(Next(s, step))
  {
    hide Reported, Tokens;
    match step
    case PlaceStep(id, o, r, venue) => PlaceKeepsReported(s, id, o, r, venue);
    case PaperCheckStep(q) => PaperCheckKeepsReported(s, q);
    case GatewayCheckStep(id) => GatewayCheckKeepsReported(s, id);
    case GatewayCommitStep(id, ok) => GatewayCommitKeepsReported(s, id, ok);
    case JobCheckStep => JobCheckKeepsReported(s);
    case JobCommitStep(ok) => JobCommitKeepsReported(s, ok);
    case StartDeferredStep => OthersKeepReported(s, step);
    case StartPollStep(_, _) => OthersKeepReported(s, step);
    case AdoptStep(_, _) => OthersKeepReported(s, step);
    case RestartStep => OthersKeepReported(s, step);
    case _ =>
      BystanderDoes(s, step);
      BystanderKeepsReported(s, Next(s, step));
      hide Next;
  }

  /** A step adds at most one fill, and the cost basis moves with it. */
  lemma StepKeepsBooks(s: State, step: Step)
    requires BooksSound(s.t)
    ensures BooksSound(Next(s, step).t)
  {
    hide BooksSound, Committed, Stamped, Materialized, Closed, HasFill, FirstFill, SameFill, BookedAsPosition, Through,
         Remaining, Tracked, Owed, MirrorRow, RowOf, Readable;
    BooksOnly(s.t);
    if step.GatewayCommitStep? && step.id in s.m.inflight {
      var row := RowOf(step.id, s.m.inflight[step.id].order, s.m.inflight[step.id].result);
      CommittedKeepsBooks(s.t, row);
      BooksOnly(Committed(s.t, row));
    } else if step.JobCommitStep? && s.m.job.Writing? {
      var row := RowOf(s.m.job.id, s.m.job.order, s.m.job.result);
      CommittedKeepsBooks(s.t, row);
      BooksOnly(Committed(s.t, row));
    }
  }

  lemma BooksOnly(t: Tables)
    requires BooksSound(t)
    ensures forall trades :: BooksSound(t.(trades := trades))
    ensures forall portfolio :: BooksSound(t.(portfolio := portfolio))
  {
    hide Walk, FillsOf, BookedPnl;
  }

  ghost predicate Sound(s: State) { Tokens(s) && Reported(s) && BooksSound(s.t) }

  lemma StartSound()
    ensures Sound(START)
  {}

  lemma {:induction false} RunSound(steps: seq<Step>)
    ensures Sound(Run(START, steps))
  {
    if steps == [] {
      StartSound();
    } else {
      hide Next, Tokens, Reported, BooksSound;
      var init, step := steps[..|steps| - 1], steps[|steps| - 1];
      var before := Run(START, init);
      RunSound(init);
      StepKeepsTokens(before, step);
      StepKeepsReported(before, step);
      StepKeepsBooks(before, step);
    }
  }

  /** Under every interleaving of placements, recordings, deferred paper fills, live
      polls, cancels, adoptions and restarts: an order id is booked at most once, at
      a size the venue reported filled for it, and every cost basis is the
      average-cost walk of the fills booked for it, beside the profit that walk books. */
  lemma FillsBookedOnce(steps: seq<Step>, i: nat, key: Key)
    requires i < |Run(START, steps).t.rows|
    ensures var t := Run(START, steps).t;
            && (forall j :: 0 <= j < |t.rows| && t.rows[j].id == t.rows[i].id ==> j == i)
            && (t.rows[i].id, t.rows[i].fill.size) in Run(START, steps).h.reports && t.rows[i].fill.size > 0.0
            && BasisAt(t.books, key) == Walk(FillsOf(t.rows, key))
            && RealizedAt(t.realized, key) == BookedPnl(FillsOf(t.rows, key))
  {
    hide Run, Walk, FillsOf, BookedPnl;
    RunSound(steps);
    assert BooksSound(Run(START, steps).t);
  }

  // --- An order nobody tracks any more ---------------------------------------------------------

  /** No task will book this id: it is in no queue, and in no write on its way. */
  ghost predicate Untracked(s: State, id: Id) {
    && id in s.h.ids.known && id !in s.m.inflight && id !in s.m.live
    && (forall i :: 0 <= i < |s.m.resting| ==> s.m.resting[i].id != id)
    && (forall i :: 0 <= i < |s.m.deferred| ==> s.m.deferred[i].id != id)
    && (s.m.job.Checking? || s.m.job.Writing? ==> s.m.job.id != id)
  }

  ghost predicate NeverAdopted(steps: seq<Step>, id: Id) {
    forall i :: 0 <= i < |steps| && steps[i].AdoptStep? ==> steps[i].id != id
  }

  lemma GatewayLeavesUntracked(s: State, step: Step, id: Id)
    requires Untracked(s, id) && (step.GatewayCommitStep? || step.GatewayCheckStep?)
    ensures Untracked(Next(s, step), id)
    ensures BookedId(Next(s, step).t.rows, id) <==> BookedId(s.t.rows, id)
  {
    if step.GatewayCheckStep? {
      GatewayCheckDoes(s, step.id);
    } else if step.id in s.m.inflight && step.id in s.m.writing {
      GatewayCommitDoes(s, step.id, step.ok);
      AppendBooked(s.t.rows, RowOf(step.id, s.m.inflight[step.id].order, s.m.inflight[step.id].result));
    }
    hide BookedId, GatewayCheck, BookedAsPosition, Committed, FillPrice, Recorded;
  }

  lemma JobLeavesUntracked(s: State, step: Step, id: Id)
    requires Untracked(s, id) && (step.JobCommitStep? || step.JobCheckStep?)
    ensures Untracked(Next(s, step), id)
    ensures BookedId(Next(s, step).t.rows, id) <==> BookedId(s.t.rows, id)
  {
    if step.JobCheckStep? && s.m.job.Checking? {
      JobCheckDoes(s);
    } else if step.JobCommitStep? && s.m.job.Writing? {
      JobCommitDoes(s, step.ok);
      AppendBooked(s.t.rows, RowOf(s.m.job.id, s.m.job.order, s.m.job.result));
    }
    hide BookedId, BookedAsPosition, Committed, FillPrice, FillSize, FirstFill, HasFill, Terminal, JobDone, Replayed,
         Owed;
  }

  lemma BystanderLeavesUntracked(s: State, n: State, id: Id)
    requires Untracked(s, id) && OnlyForgets(s, n)
    ensures Untracked(n, id)
  {}

  lemma OthersLeaveUntracked(s: State, step: Step, id: Id)
    requires Untracked(s, id) && (step.AdoptStep? ==> step.id != id)
    requires step.StartDeferredStep? || step.StartPollStep? || step.AdoptStep? || step.RestartStep?
    ensures Untracked(Next(s, step), id)
    ensures Next(s, step).t.rows == s.t.rows
  {}

  lemma PlaceLeavesUntracked(s: State, other: Id, o: Order, r: Result, venue: string, id: Id)
    requires Untracked(s, id)
    ensures Untracked(Place(s, other, o, r, venue), id)
    ensures Place(s, other, o, r, venue).t == s.t
  {
    if other !in s.h.ids.known && Accepted(r.status) {
      TrackedSplits(s.m, other, o, r, venue);
      hide Tracked, BookedAsPosition;
    }
  }

  lemma PaperCheckLeavesUntracked(s: State, q: Quotes, id: Id)
    requires Untracked(s, id)
    ensures Untracked(PaperCheck(s, q), id)
    ensures PaperCheck(s, q).t == s.t
  {
    QueuesWithout(s, q, id);
    hide Through, Remaining;
  }

  lemma UntrackedStays(s: State, step: Step, id: Id)
    requires Untracked(s, id) && (step.AdoptStep? ==> step.id != id)
    ensures Untracked(Next(s, step), id)
    ensures BookedId(Next(s, step).t.rows, id) <==> BookedId(s.t.rows, id)
  {
    hide Untracked, BookedId;
    match step
    case PlaceStep(other, o, r, venue) => PlaceLeavesUntracked(s, other, o, r, venue, id);
    case PaperCheckStep(q) => PaperCheckLeavesUntracked(s, q, id);
    case GatewayCheckStep(_) => GatewayLeavesUntracked(s, step, id);
    case GatewayCommitStep(_, _) => GatewayLeavesUntracked(s, step, id);
    case JobCheckStep => JobLeavesUntracked(s, step, id);
    case JobCommitStep(_) => JobLeavesUntracked(s, step, id);
    case StartDeferredStep => OthersLeaveUntracked(s, step, id);
    case StartPollStep(_, _) => OthersLeaveUntracked(s, step, id);
    case AdoptStep(_, _) => OthersLeaveUntracked(s, step, id);
    case RestartStep => OthersLeaveUntracked(s, step, id);
    case _ =>
      BystanderDoes(s, step);
      BystanderLeavesUntracked(s, Next(s, step), id);
  }

  lemma QueuesWithout(s: State, q: Quotes, id: Id)
    requires forall i :: 0 <= i < |s.m.resting| ==> s.m.resting[i].id != id
    requires forall i :: 0 <= i < |s.m.deferred| ==> s.m.deferred[i].id != id
    ensures var n := PaperCheck(s, q);
            && (forall i :: 0 <= i < |n.m.resting| ==> n.m.resting[i].id != id)
            && (forall i :: 0 <= i < |n.m.deferred| ==> n.m.deferred[i].id != id)
  {
    hide Through, Remaining;
    QueueMembers(s.m.resting, q);
    var more, left := Through(s.m.resting, q), Remaining(s.m.resting, q);
    forall i | 0 <= i < |more| ensures more[i].id != id {
      assert more[i] in more;
    }
    forall i | 0 <= i < |left| ensures left[i].id != id {
      assert left[i] in left;
    }
  }

  /** Once an order has left every queue, whatever the venue still fills of it stays
      out of the books, unless the order is found open and adopted again. */
  lemma {:induction false} UntrackedNeverBooked(s: State, steps: seq<Step>, id: Id)
    requires Untracked(s, id) && NeverAdopted(steps, id)
    ensures Untracked(Run(s, steps), id)
    ensures BookedId(Run(s, steps).t.rows, id) <==> BookedId(s.t.rows, id)
  {
    if steps == [] {
    } else {
      hide Next, Untracked, BookedId;
      var init := steps[..|steps| - 1];
      assert NeverAdopted(init, id);
      UntrackedNeverBooked(s, init, id);
      UntrackedStays(Run(s, init), steps[|steps| - 1], id);
    }
  }

  // --- What becomes of an order at a venue ---------------------------------------------------------

  /** The id is in none of the queues the monitor works through. */
  ghost predicate Idling(m: Memory, id: Id) {
    && (forall i :: 0 <= i < |m.resting| ==> m.resting[i].id != id)
    && (forall i :: 0 <= i < |m.deferred| ==> m.deferred[i].id != id)
    && (m.job.Checking? || m.job.Writing? ==> m.job.id != id)
  }

  /** An order that did not execute when it was placed, and is a venue's: only the
      poll loop can book it. */
  ghost predicate Polled(s: State, id: Id) {
    && Tokens(s) && id in s.h.ids.known && id !in s.h.ids.instant
    && (forall i :: 0 <= i < |s.m.resting| ==> s.m.resting[i].id != id)
    && (forall i :: 0 <= i < |s.m.deferred| ==> s.m.deferred[i].id != id)
    && (OnJob(s.m.job, id) ==> s.m.job.live)
    && (OnJob(s.m.job, id) && s.m.job.Writing? ==> Terminal(s.m.job.result.status))
  }

  predicate OnJob(job: Job, id: Id) { !job.Idle? && job.id == id }

  /** The venue is asked about the order and answers. */
  predicate Asks(s: State, step: Step, id: Id) {
    step.StartPollStep? && step.id == id && s.m.job.Idle? && id in s.m.live
  }

  predicate FilledAnswer(s: State, step: Step, id: Id) {
    Asks(s, step, id) && step.result.status.Filled? && step.result.filledSize > 0.0
  }

  /** A fill transaction for this order goes through in the monitor. */
  predicate WriteWins(s: State, step: Step, id: Id) {
    step == JobCommitStep(true) && s.m.job.Writing? && s.m.job.id == id
  }

  lemma PollKeepsOthers(s: State, step: Step, id: Id)
    requires Polled(s, id)
    requires step.GatewayCheckStep? || step.GatewayCommitStep?
    ensures BookedId(Next(s, step).t.rows, id) <==> BookedId(s.t.rows, id)
    ensures Next(s, step).m.job == s.m.job && Next(s, step).m.resting == s.m.resting
         && Next(s, step).m.deferred == s.m.deferred && Next(s, step).h.ids == s.h.ids
  {
    if step.GatewayCheckStep? {
      GatewayCheckDoes(s, step.id);
    } else if step.id in s.m.inflight && step.id in s.m.writing {
      GatewayCommitDoes(s, step.id, step.ok);
      assert step.id in s.h.ids.instant;
      AppendBooked(s.t.rows, RowOf(step.id, s.m.inflight[step.id].order, s.m.inflight[step.id].result));
    }
    hide BookedId, GatewayCheck, BookedAsPosition, Committed, FillPrice, Recorded, Tokens;
  }

  /** What one step does to the job, as far as this order is concerned. */
  ghost predicate JobStep(s: State, step: Step, n: State, id: Id) {
    && (BookedId(n.t.rows, id) <==> BookedId(s.t.rows, id) || WriteWins(s, step, id))
    && (OnJob(n.m.job, id) && n.m.job.Writing? ==> Terminal(n.m.job.result.status))
    && (OnJob(n.m.job, id) ==> n.m.job.live)
    && (OnJob(n.m.job, id) ==>
          || (Asks(s, step, id) && n.m.job.result == step.result)
          || (OnJob(s.m.job, id) && n.m.job.result == s.m.job.result))
  }

  lemma MonitorJobStep(s: State, step: Step, id: Id)
    requires Polled(s, id) && (step.JobCheckStep? || step.JobCommitStep?)
    ensures JobStep(s, step, Next(s, step), id)
    ensures GatewayUntouched(s, Next(s, step))
  {
    hide Tokens;
    if step.JobCheckStep? && s.m.job.Checking? {
      JobCheckDoes(s);
    } else if step.JobCommitStep? && s.m.job.Writing? {
      JobCommitDoes(s, step.ok);
      AppendBooked(s.t.rows, RowOf(s.m.job.id, s.m.job.order, s.m.job.result));
    }
    hide BookedId, BookedAsPosition, Committed, FillPrice, FillSize, FirstFill, HasFill, Terminal, JobDone, Replayed,
         Owed;
  }

  /** Steps that start a job, or none. */
  lemma StartJobStep(s: State, step: Step, id: Id)
    requires Polled(s, id)
    requires step.StartDeferredStep? || step.StartPollStep? || step.AdoptStep? || step.RestartStep?
    ensures JobStep(s, step, Next(s, step), id)
    ensures var n := Next(s, step);
            && (n.m.resting == s.m.resting || n.m.resting == [])
            && (forall i :: 0 <= i < |n.m.deferred| ==> n.m.deferred[i].id != id)
            && id in n.h.ids.known && n.h.ids.instant == s.h.ids.instant
  {
    hide Tokens, BookedId, Terminal;
  }

  lemma StepPolls(s: State, step: Step, id: Id)
    requires Polled(s, id)
    ensures Polled(Next(s, step), id) && JobStep(s, step, Next(s, step), id)
  {
    StepKeepsTokens(s, step);
    match step
    case GatewayCheckStep(_) => PollKeepsOthers(s, step, id); hide Next, Tokens, BookedId, Terminal;
    case GatewayCommitStep(_, _) => PollKeepsOthers(s, step, id); hide Next, Tokens, BookedId, Terminal;
    case JobCheckStep => MonitorJobStep(s, step, id); hide Next, Tokens, BookedId, Terminal;
    case JobCommitStep(_) => MonitorJobStep(s, step, id); hide Next, Tokens, BookedId, Terminal;
    case StartDeferredStep => StartJobStep(s, step, id); hide Next, Tokens, BookedId, Terminal;
    case StartPollStep(_, _) => StartJobStep(s, step, id); hide Next, Tokens, BookedId, Terminal;
    case AdoptStep(_, _) => StartJobStep(s, step, id); hide Next, Tokens, BookedId, Terminal;
    case RestartStep => StartJobStep(s, step, id); hide Next, Tokens, BookedId, Terminal;
    case PlaceStep(other, o, r, venue) => PlacePolls(s, other, o, r, venue, id); hide Next, Tokens, BookedId, Terminal;
    case PaperCheckStep(q) => PaperCheckPolls(s, q, id); hide Next, Tokens, BookedId, Terminal;
    case _ =>
      BystanderDoes(s, step);
      hide Next, Tokens, BookedId, Terminal;
  }

  lemma PlacePolls(s: State, other: Id, o: Order, r: Result, venue: string, id: Id)
    requires Polled(s, id)
    ensures var n := Place(s, other, o, r, venue);
            && n.t == s.t && n.m.job == s.m.job && n.m.deferred == s.m.deferred
            && (forall i :: 0 <= i < |n.m.resting| ==> n.m.resting[i].id != id)
            && id in n.h.ids.known && id !in n.h.ids.instant
  {
    hide Tokens;
    if other !in s.h.ids.known && Accepted(r.status) {
      TrackedSplits(s.m, other, o, r, venue);
      hide Tracked, BookedAsPosition;
    }
  }

  lemma PaperCheckPolls(s: State, q: Quotes, id: Id)
    requires Polled(s, id)
    ensures var n := PaperCheck(s, q);
            && n.t == s.t && n.m.job == s.m.job && n.h.ids == s.h.ids
            && (forall i :: 0 <= i < |n.m.resting| ==> n.m.resting[i].id != id)
            && (forall i :: 0 <= i < |n.m.deferred| ==> n.m.deferred[i].id != id)
  {
    hide Tokens;
    QueuesWithout(s, q, id);
    hide Through, Remaining;
  }

  /** From its answer on, the monitor was busy with nothing but this order. */
  ghost predicate BusySince(s: State, steps: seq<Step>, id: Id, i: nat, k: nat) {
    && i < k <= |steps| && Asks(Run(s, steps[..i]), steps[i], id)
    && forall j :: i < j <= k ==>
         OnJob(Run(s, steps[..j]).m.job, id) && Run(s, steps[..j]).m.job.result == steps[i].result
  }

  lemma {:induction false} RunPolls(s: State, steps: seq<Step>, id: Id)
    requires Polled(s, id)
    ensures Polled(Run(s, steps), id)
  {
    if steps == [] {
    } else {
      hide Next, Polled, JobStep;
      RunPolls(s, steps[..|steps| - 1], id);
      StepPolls(Run(s, steps[..|steps| - 1]), steps[|steps| - 1], id);
    }
  }

  /** A job on the order goes back to the answer that started it. */
  lemma {:induction false} JobHasAnswer(s: State, steps: seq<Step>, id: Id, k: nat) returns (i: nat)
    requires Polled(s, id) && !OnJob(s.m.job, id) && k <= |steps| && OnJob(Run(s, steps[..k]).m.job, id)
    ensures BusySince(s, steps, id, i, k)
  {
    hide Polled, Run, Next, Tokens;
    RunOfNothing(s, steps);
    if k == 0 {
    } else {
      JobSteps(s, steps, id, k - 1);
      var answered := Asks(Run(s, steps[..k - 1]), steps[k - 1], id)
          && Run(s, steps[..k]).m.job.result == steps[k - 1].result;
      if answered {
        i := k - 1;
        JustAsked(s, steps, id, k - 1);
      } else {
        i := JobHasAnswer(s, steps, id, k - 1);
        StillBusy(s, steps, id, i, k - 1);
      }
    }
  }

  lemma JobSteps(s: State, steps: seq<Step>, id: Id, k: nat)
    requires Polled(s, id) && k < |steps| && OnJob(Run(s, steps[..k + 1]).m.job, id)
    ensures var before, job := Run(s, steps[..k]), Run(s, steps[..k + 1]).m.job;
            || (Asks(before, steps[k], id) && job.result == steps[k].result)
            || (OnJob(before.m.job, id) && job.result == before.m.job.result)
  {
    hide Polled, Run, Next, Tokens;
    RunPolls(s, steps[..k], id);
    RunStep(s, steps, k);
    StepPolls(Run(s, steps[..k]), steps[k], id);
  }

  lemma JustAsked(s: State, steps: seq<Step>, id: Id, i: nat)
    requires i < |steps| && Asks(Run(s, steps[..i]), steps[i], id)
    requires OnJob(Run(s, steps[..i + 1]).m.job, id) && Run(s, steps[..i + 1]).m.job.result == steps[i].result
    ensures BusySince(s, steps, id, i, i + 1)
  {
    hide Run;
  }

  lemma StillBusy(s: State, steps: seq<Step>, id: Id, i: nat, k: nat)
    requires BusySince(s, steps, id, i, k) && k < |steps|
    requires OnJob(Run(s, steps[..k + 1]).m.job, id)
    requires OnJob(Run(s, steps[..k]).m.job, id)
             && Run(s, steps[..k + 1]).m.job.result == Run(s, steps[..k]).m.job.result
    ensures BusySince(s, steps, id, i, k + 1)
  {
    hide Run;
  }

  lemma RunOfNothing(s: State, steps: seq<Step>)
    ensures Run(s, steps[..0]) == s
  {}

  lemma RunStep(s: State, steps: seq<Step>, k: nat)
    requires k < |steps|
    ensures Run(s, steps[..k + 1]) == Next(Run(s, steps[..k]), steps[k])
  {
    hide Next;
    assert steps[..k + 1][..k] == steps[..k];
  }

  /** The venue answered that the order is filled, at a positive size, and the write
      that this answer led to went through. */
  ghost predicate AnsweredAndWritten(s: State, steps: seq<Step>, id: Id) {
    exists i, k :: 0 <= i < k < |steps| && FilledAnswer(Run(s, steps[..i]), steps[i], id)
                   && WriteWins(Run(s, steps[..k]), steps[k], id) && BusySince(s, steps, id, i, k)
  }

  /** A booking comes from a write of the monitor's. */
  lemma {:induction false} BookingWrite(s: State, steps: seq<Step>, id: Id, n: nat) returns (k: nat)
    requires Polled(s, id) && !BookedId(s.t.rows, id) && n <= |steps| && BookedId(Run(s, steps[..n]).t.rows, id)
    ensures k < n && WriteWins(Run(s, steps[..k]), steps[k], id) && OnJob(Run(s, steps[..k]).m.job, id)
  {
    hide BookedId, Polled;
    RunOfNothing(s, steps);
    if n == 0 {
    } else {
      var before := Run(s, steps[..n - 1]);
      RunPolls(s, steps[..n - 1], id);
      RunStep(s, steps, n - 1);
      StepPolls(before, steps[n - 1], id);
      hide Next, Run;
      if WriteWins(before, steps[n - 1], id) {
        k := n - 1;
      } else {
        k := BookingWrite(s, steps, id, n - 1);
      }
    }
  }

  lemma WrittenWasFilled(s: State, steps: seq<Step>, id: Id, i: nat, k: nat)
    requires Polled(s, id) && k < |steps| && BusySince(s, steps, id, i, k)
             && WriteWins(Run(s, steps[..k]), steps[k], id)
    ensures FilledAnswer(Run(s, steps[..i]), steps[i], id)
  {
    RunPolls(s, steps[..k], id);
    var busy := Run(s, steps[..k]);
    assert JobSound(busy.t.rows, busy.m.job, busy.h.ids);
    hide Run, Outside, BookedId, Tokens;
  }

  lemma WriteBooks(s: State, steps: seq<Step>, id: Id, k: nat)
    requires Polled(s, id) && k < |steps| && WriteWins(Run(s, steps[..k]), steps[k], id)
    ensures BookedId(Run(s, steps[..k + 1]).t.rows, id)
  {
    RunPolls(s, steps[..k], id);
    RunStep(s, steps, k);
    hide Run, Polled;
    StepPolls(Run(s, steps[..k]), steps[k], id);
    hide Next, BookedId, WriteWins;
  }

  lemma {:induction false} BookedStays(s: State, steps: seq<Step>, id: Id, k: nat)
    requires Polled(s, id) && k <= |steps| && BookedId(Run(s, steps[..k]).t.rows, id)
    ensures BookedId(Run(s, steps).t.rows, id)
    decreases |steps| - k
  {
    hide Polled, BookedId, WriteWins;
    if k == |steps| {
      assert steps[..k] == steps;
    } else {
      RunPolls(s, steps[..k], id);
      RunStep(s, steps, k);
      StepPolls(Run(s, steps[..k]), steps[k], id);
      hide Next, Run;
      BookedStays(s, steps, id, k + 1);
    }
  }

  lemma BookedWasAnswered(s: State, steps: seq<Step>, id: Id)
    requires Polled(s, id) && !OnJob(s.m.job, id) && !BookedId(s.t.rows, id) && BookedId(Run(s, steps).t.rows, id)
    ensures AnsweredAndWritten(s, steps, id)
  {
    hide Polled, BookedId, Run, FilledAnswer, WriteWins, OnJob;
    assert steps[..|steps|] == steps;
    var k := BookingWrite(s, steps, id, |steps|);
    var i := JobHasAnswer(s, steps, id, k);
    WrittenWasFilled(s, steps, id, i, k);
  }

  lemma AnsweredIsBooked(s: State, steps: seq<Step>, id: Id)
    requires Polled(s, id) && AnsweredAndWritten(s, steps, id)
    ensures BookedId(Run(s, steps).t.rows, id)
  {
    hide Polled, BookedId, Run, FilledAnswer, WriteWins, BusySince;
    var i, k :| 0 <= i < k < |steps| && FilledAnswer(Run(s, steps[..i]), steps[i], id)
                && WriteWins(Run(s, steps[..k]), steps[k], id) && BusySince(s, steps, id, i, k);
    WriteBooks(s, steps, id, k);
    BookedStays(s, steps, id, k + 1);
  }

  /** Exactly what of a venue's order gets booked: over every run, an order that did
      not execute at its placement is booked if and only if some poll answered
      Filled with a positive size, and the write after that poll went through. An
      execution reported beside any other answer is lost, and so is one reported to
      nobody because the order was no longer tracked. */
  lemma PolledBookedIff(s: State, steps: seq<Step>, id: Id)
    requires Polled(s, id) && !OnJob(s.m.job, id) && !BookedId(s.t.rows, id)
    ensures BookedId(Run(s, steps).t.rows, id) <==> AnsweredAndWritten(s, steps, id)
  {
    hide Polled, BookedId, Run, AnsweredAndWritten, OnJob;
    if BookedId(Run(s, steps).t.rows, id) {
      BookedWasAnswered(s, steps, id);
    }
    if AnsweredAndWritten(s, steps, id) {
      AnsweredIsBooked(s, steps, id);
    }
  }

  /** How a venue's order may end in one go: a terminal answer, whose write goes
      through or not; the monitor's own cancel; or a cancel through the gateway by
      an adapter that then forgets the order. */
  datatype End = Answer(result: Result, ok: bool) | TtlCancelled | GatewayCancelled

  function Handled(s: State, id: Id, end: End): State {
    match end
    case Answer(r, ok) => PolledWhole(s, id, r, ok)
    case TtlCancelled => TtlCancel(s, id, true)
    case GatewayCancelled => GatewayCancel(s, id, false, true, true)
  }

  predicate Ends(id: Id, end: End) {
    match end
    case Answer(r, _) => Terminal(r.status)
    case TtlCancelled => true
    case GatewayCancelled => id != "" && !PaperId(id)
  }

  predicate BooksAtEnd(end: End) { end.Answer? && end.result.status.Filled? && end.result.filledSize > 0.0 && end.ok }

  lemma AnswerHandled(s: State, id: Id, r: Result, ok: bool)
    requires Tokens(s) && id in s.m.live && s.m.job.Idle? && Terminal(r.status) && !BookedId(s.t.rows, id)
    ensures var n := PolledWhole(s, id, r, ok);
            && n.m.job.Idle? && n.m.live == s.m.live - {id} && n.h.ids == s.h.ids && n.m.inflight == s.m.inflight
            && n.m.resting == s.m.resting && n.m.deferred == s.m.deferred
            && (BookedId(n.t.rows, id) <==> BooksAtEnd(Answer(r, ok)))
  {
    var o := s.m.live[id];
    var asked := StartPoll(s, id, r);
    assert asked.m.job == Checking(id, o, r, true) && asked.t == s.t;
    NotBookedNoFill(s.t.rows, id, o.side);
    JobCheckDoes(asked);
    AppendBooked(s.t.rows, RowOf(id, o, r));
    hide Tokens, StartPoll, BookedId, HasFill, Closed, Apply, Realized, FillPrice, FillSize, Replayed;
    OwedKeeps(asked.m);
    OwedKeeps(JobCheck(asked).m);
    hide Owed;
  }

  lemma NotBookedNoFill(rows: seq<FillRow>, id: Id, side: Side)
    requires !BookedId(rows, id)
    ensures !HasFill(rows, id, side)
  {}

  /** A venue's order handled to its end is booked, then and ever after, exactly when
      its terminal answer was Filled at a positive size and the write succeeded. */
  lemma HandledBookedIff(s: State, id: Id, end: End, steps: seq<Step>)
    requires Tokens(s) && s.m.job.Idle? && id in s.m.live && id !in s.m.inflight && Idling(s.m, id)
    requires !BookedId(s.t.rows, id) && Ends(id, end) && NeverAdopted(steps, id)
    ensures BookedId(Run(Handled(s, id, end), steps).t.rows, id) <==> BooksAtEnd(end)
  {
    var after := Handled(s, id, end);
    LiveIsKnown(s, id);
    if end.Answer? {
      AnswerHandled(s, id, end.result, end.ok);
    }
    hide Tokens, BookedId, Stamped, PolledWhole, Run;
    assert Untracked(after, id);
    UntrackedNeverBooked(after, steps, id);
  }

  lemma LiveIsKnown(s: State, id: Id)
    requires Tokens(s) && id in s.m.live
    ensures id in s.h.ids.known && id !in s.h.ids.instant
  {
    assert Outside(s.h.ids, id, s.m.live[id]);
  }

  lemma LiveIsPolled(s: State, id: Id)
    requires Tokens(s) && id in s.m.live && Idling(s.m, id)
    ensures Polled(s, id) && !OnJob(s.m.job, id)
  {
    LiveIsKnown(s, id);
    hide Tokens, Terminal;
  }

  /** So it is for every order some run has left pending at a venue: in all its later
      runs it is booked if and only if a poll answers Filled and the write succeeds. */
  lemma LiveBookedIff(before: seq<Step>, after: seq<Step>, id: Id)
    requires id in Run(START, before).m.live && Idling(Run(START, before).m, id)
    requires !BookedId(Run(START, before).t.rows, id)
    ensures BookedId(Run(Run(START, before), after).t.rows, id) <==> AnsweredAndWritten(Run(START, before), after, id)
  {
    hide Run, Polled, OnJob, Idling, BookedId, AnsweredAndWritten;
    RunSound(before);
    LiveIsPolled(Run(START, before), id);
    PolledBookedIff(Run(START, before), after, id);
  }

  /** An acknowledged cancel by an adapter that forgets the order drops what the
      venue had filled of it. */
  lemma CancelDropsTheOrder(s: State, id: Id, steps: seq<Step>)
    requires Tokens(s) && s.m.job.Idle? && id in s.m.live && id !in s.m.inflight && Idling(s.m, id)
    requires !BookedId(s.t.rows, id) && id != "" && !PaperId(id) && NeverAdopted(steps, id)
    ensures !BookedId(Run(GatewayCancel(s, id, false, true, true), steps).t.rows, id)
  {
    hide Tokens, BookedId, Run, Idling;
    HandledBookedIff(s, id, GatewayCancelled, steps);
  }

  /** So does a terminal answer that is not Filled: the size reported beside it is in
      no fill, although the order is forgotten. */
  lemma CancelledAnswerDropsTheFill(s: State, id: Id, r: Result, steps: seq<Step>)
    requires Tokens(s) && s.m.job.Idle? && id in s.m.live && id !in s.m.inflight && Idling(s.m, id)
    requires !BookedId(s.t.rows, id) && r.status in {Cancelled, Expired, Rejected} && NeverAdopted(steps, id)
    ensures !BookedId(Run(PolledWhole(s, id, r, true), steps).t.rows, id)
    ensures (id, r.filledSize) in PolledWhole(s, id, r, true).h.reports && id !in PolledWhole(s, id, r, true).m.live
  {
    HandledBookedIff(s, id, Answer(r, true), steps);
    AnswerHandled(s, id, r, true);
    hide Tokens, BookedId, Run, Idling, Closed;
  }

  // --- What a gateway cancel stops ---------------------------------------------------------------

  ghost predicate Queued(resting: seq<Resting>, id: Id) {
    exists i :: 0 <= i < |resting| && resting[i].id == id
  }

  /** The order may still fill: it rests in the paper queue, or an adapter tracks it. */
  ghost predicate MayFill(s: State, id: Id) { id in s.m.live || Queued(s.m.resting, id) }

  /** A cancel that reports success leaves the order unable to fill exactly when it was
      so before, or when it was a venue's and the adapter forgot it. A paper id is marked
      cancelled and stays in the queue. */
  lemma CancelStopsIff(s: State, id: Id, paper: bool, acknowledged: bool, untracks: bool)
    requires id != "" && (paper || PaperId(id) || acknowledged)
    ensures !MayFill(GatewayCancel(s, id, paper, acknowledged, untracks), id)
            <==> !MayFill(s, id) || (!Queued(s.m.resting, id) && !paper && !PaperId(id) && untracks)
  {
    hide PaperId, Stamped, Queued;
  }

  /** Two states that differ in the trades mirror only. */
  predicate SameButTrades(s: State, n: State) { n == State(s.t.(trades := n.t.trades), s.m, s.h) }

  lemma GatewayCheckReadsNoTrades(s: State, n: State, id: Id)
    requires SameButTrades(s, n)
    ensures SameButTrades(GatewayCheck(s, id), GatewayCheck(n, id))
  {
    hide MirrorRow, BookedAsPosition, FirstFill, HasFill, FillPrice, Replayed, Accepted;
  }

  lemma GatewayCommitReadsNoTrades(s: State, n: State, id: Id, ok: bool)
    requires SameButTrades(s, n)
    ensures SameButTrades(GatewayCommit(s, id, ok), GatewayCommit(n, id, ok))
  {
    hide MirrorRow, FillPrice, Owed, Accepted, Apply, Realized;
  }

  lemma JobCheckReadsNoTrades(s: State, n: State)
    requires SameButTrades(s, n)
    ensures SameButTrades(JobCheck(s), JobCheck(n))
  {
    hide Closed, BookedAsPosition, FirstFill, HasFill, FillPrice, FillSize, Replayed, Terminal;
  }

  lemma JobCommitReadsNoTrades(s: State, n: State, ok: bool)
    requires SameButTrades(s, n)
    ensures SameButTrades(JobCommit(s, ok), JobCommit(n, ok))
  {
    hide Closed, FillPrice, FillSize, Owed, Apply, Realized;
  }

  lemma CancelsReadNoTrades(s: State, n: State, step: Step)
    requires SameButTrades(s, n) && Bystander(step)
    ensures SameButTrades(Next(s, step), Next(n, step))
  {
    hide Stamped, Materialized, PaperId, Terminal, Readable, Dropped;
  }

  lemma OthersReadNoTrades(s: State, n: State, step: Step)
    requires SameButTrades(s, n)
    requires step.PlaceStep? || step.PaperCheckStep? || step.StartDeferredStep? || step.StartPollStep?
             || step.AdoptStep?
             || step.RestartStep?
    ensures SameButTrades(Next(s, step), Next(n, step))
  {
    hide Tracked, Through, Remaining, BookedAsPosition, Accepted;
  }

  lemma StepReadsNoTrades(s: State, n: State, step: Step)
    requires SameButTrades(s, n)
    ensures SameButTrades(Next(s, step), Next(n, step))
  {
    hide SameButTrades, GatewayCheck, GatewayCommit, JobCheck, JobCommit;
    match step
    case GatewayCheckStep(id) => GatewayCheckReadsNoTrades(s, n, id);
    case GatewayCommitStep(id, ok) => GatewayCommitReadsNoTrades(s, n, id, ok);
    case JobCheckStep => JobCheckReadsNoTrades(s, n);
    case JobCommitStep(ok) => JobCommitReadsNoTrades(s, n, ok);
    case PlaceStep(_, _, _, _) => OthersReadNoTrades(s, n, step);
    case PaperCheckStep(_) => OthersReadNoTrades(s, n, step);
    case StartDeferredStep => OthersReadNoTrades(s, n, step);
    case StartPollStep(_, _) => OthersReadNoTrades(s, n, step);
    case AdoptStep(_, _) => OthersReadNoTrades(s, n, step);
    case RestartStep => OthersReadNoTrades(s, n, step);
    case _ => CancelsReadNoTrades(s, n, step);
  }

  lemma {:induction false} RunReadsNoTrades(s: State, n: State, steps: seq<Step>)
    requires SameButTrades(s, n)
    ensures SameButTrades(Run(s, steps), Run(n, steps))
  {
    hide SameButTrades, Next;
    if steps == [] {
    } else {
      RunReadsNoTrades(s, n, steps[..|steps| - 1]);
      StepReadsNoTrades(Run(s, steps[..|steps| - 1]), Run(n, steps[..|steps| - 1]), steps[|steps| - 1]);
    }
  }

  /** Cancelling a paper order has no effect on anything but its mirror row, now or in
      any later run: the same orders fill and the same fills are booked. */
  lemma PaperCancelStopsNothing(s: State, id: Id, paper: bool, acknowledged: bool, untracks: bool, steps: seq<Step>)
    requires paper || PaperId(id)
    ensures SameButTrades(Run(s, steps), Run(GatewayCancel(s, id, paper, acknowledged, untracks), steps))
  {
    var n := GatewayCancel(s, id, paper, acknowledged, untracks);
    assert SameButTrades(s, n) by {
      hide Stamped, PaperId;
    }
    hide SameButTrades, Run, GatewayCancel, PaperId;
    RunReadsNoTrades(s, n, steps);
  }

  /** The run of a resting paper order that is cancelled, trades through, and is booked
      while its mirror row says cancelled. */
  lemma CancelledPaperOrderFills(s: State, id: Id, o: Order, q: Quotes, acknowledged: bool, untracks: bool)
    requires s.m.resting == [Resting(id, o)] && s.m.deferred == [] && s.m.job.Idle? && !BookedId(s.t.rows, id)
    requires id != "" && PaperId(id) && Fills(q, Resting(id, o))
    requires s.t.trades == [TradeRow(id, Pending, o.size, o.price)]
    ensures var n := JobCommit(JobCheck(StartDeferred(PaperCheck(GatewayCancel(s, id, true, acknowledged, untracks),
                                                                 q))), true);
            n.t.trades == [TradeRow(id, Cancelled, o.size, o.price)] && BookedId(n.t.rows, id)
  {
    var cancelled := GatewayCancel(s, id, true, acknowledged, untracks);
    assert cancelled.m == s.m && cancelled.t.rows == s.t.rows by {
      hide Stamped, PaperId;
    }
    assert cancelled.t.trades == [TradeRow(id, Cancelled, o.size, o.price)] by {
      hide PaperId;
    }
    OneThrough(Resting(id, o), q);
    var checked := PaperCheck(cancelled, q);
    var d := PaperFill(Resting(id, o));
    assert checked.m.deferred == [d] && checked.m.job.Idle? && checked.t == cancelled.t;
    var started := StartDeferred(checked);
    assert started.m.job == Checking(id, o, d.result, false) && started.t == cancelled.t;
    hide GatewayCancel, PaperCheck, StartDeferred, PaperId, Fills;
    NotBookedNoFill(s.t.rows, id, o.side);
    DeferredBooks(started, id, o, d.result);
  }

  lemma OneThrough(p: Resting, q: Quotes)
    requires Fills(q, p)
    ensures Through([p], q) == [PaperFill(p)] && p.order.size > 0.0
  {
    assert [p][..0] == [] && Through([p][..0], q) == [];
  }

  lemma DeferredBooks(s: State, id: Id, o: Order, r: Result)
    requires s.m.job == Checking(id, o, r, false) && !HasFill(s.t.rows, id, o.side) && BookedAsPosition(r)
    ensures var n := JobCommit(JobCheck(s), true); n.t.trades == s.t.trades && BookedId(n.t.rows, id)
  {
    hide HasFill, FirstFill, Apply, Realized, FillPrice, BookedAsPosition, BookedId;
    AppendBooked(s.t.rows, RowOf(id, o, r));
  }

  // --- Pairs -----------------------------------------------------------------------------------------

  /** A fresh id is nowhere yet. */
  lemma FreshIsNowhere(s: State, id: Id)
    requires Tokens(s) && id !in s.h.ids.known
    ensures id !in s.m.inflight && id !in s.m.writing && id !in s.m.live && Idling(s.m, id) && !BookedId(s.t.rows, id)
  {
    FreshNotBooked(s.t.rows, s.h.ids, id);
    hide BookedOnce, BookedId, BookedAsPosition;
  }

  /** Something of the order is there: a fill, or an order that may still fill. */
  ghost predicate Standing(s: State, id: Id) {
    BookedId(s.t.rows, id) || MayFill(s, id)
  }

  /** What the placement of a leg leaves standing. */
  predicate Takes(leg: Leg) { (BookedAsPosition(leg.result) && leg.ok) || leg.result.status.Pending? }

  /** The unwinding of a refused pair gets rid of its first leg. */
  predicate Unwound(a: Leg, acknowledged: bool, untracks: bool) {
    NakedLive(a) && a.id != "" && !PaperId(a.id) && acknowledged && untracks
  }

  lemma PlacedStands(s: State, leg: Leg)
    requires Tokens(s) && leg.id !in s.h.ids.known && Accepted(leg.result.status)
    ensures var n := PlacedWhole(s, leg);
            && (Standing(n, leg.id) <==> Takes(leg))
            && (BookedId(n.t.rows, leg.id) <==> BookedAsPosition(leg.result) && leg.ok)
            && (forall id :: id != leg.id ==> (Standing(n, id) <==> Standing(s, id)))
            && n.h.ids == Grown(s.h.ids, leg.id, leg.order.side, BookedAsPosition(leg.result))
            && Tokens(n) && leg.id !in n.m.inflight && n.m.job == s.m.job && n.m.deferred == s.m.deferred
            && (NakedLive(leg) ==> n.m.resting == s.m.resting)
  {
    FreshIsNowhere(s, leg.id);
    PlaceKeepsTokens(s, leg.id, leg.order, leg.result, leg.venue);
    var placed := Place(s, leg.id, leg.order, leg.result, leg.venue);
    TrackedStands(s, leg);
    NotBookedNoFill(placed.t.rows, leg.id, leg.order.side);
    WholeKeepsTokens(placed, leg.id, leg.ok);
    RecordedAtOnce(placed, leg.id, leg.ok);
    AppendBooked(s.t.rows, RowOf(leg.id, leg.order, leg.result));
    hide Place, Tokens, RecordedWhole, BookedId, BookedAsPosition, HasFill, MirrorRow, Apply, Realized, Readable,
         Materialized, FillPrice, Accepted, Takes, SameFill;
  }

  lemma TrackedStands(s: State, leg: Leg)
    requires leg.id !in s.h.ids.known && Accepted(leg.result.status) && leg.id !in s.m.live && leg.id !in s.m.writing
    requires Idling(s.m, leg.id) && !BookedId(s.t.rows, leg.id)
    ensures var n := Place(s, leg.id, leg.order, leg.result, leg.venue);
            && n.t == s.t && leg.id in n.m.inflight && n.m.inflight[leg.id] == Ticket(leg.order, leg.result, leg.venue)
            && (Standing(n, leg.id) <==> leg.result.status.Pending?)
            && (forall id :: id != leg.id ==> (Standing(n, id) <==> Standing(s, id)))
            && n.h.ids == Grown(s.h.ids, leg.id, leg.order.side, BookedAsPosition(leg.result))
            && n.m.writing == s.m.writing && n.m.job == s.m.job && n.m.deferred == s.m.deferred
            && (NakedLive(leg) ==> n.m.resting == s.m.resting)
  {
    hide BookedId, BookedAsPosition, Accepted;
    var n := Place(s, leg.id, leg.order, leg.result, leg.venue);
    if leg.result.status.Pending? && leg.order.key.paper {
      assert n.m.resting[|s.m.resting|].id == leg.id;
      forall id | id != leg.id ensures Standing(n, id) <==> Standing(s, id) {
        if i :| 0 <= i < |s.m.resting| && s.m.resting[i].id == id {
          assert n.m.resting[i].id == id;
        }
      }
    }
  }

  lemma WholeKeepsTokens(s: State, id: Id, ok: bool)
    requires Tokens(s)
    ensures Tokens(RecordedWhole(s, id, ok))
  {
    hide Tokens;
    GatewayCheckKeepsTokens(s, id);
    var checked := GatewayCheck(s, id);
    GatewayCommitKeepsTokens(checked, id, ok);
    var written := if id in checked.m.writing then GatewayCommit(checked, id, ok) else checked;
    var n := |s.m.due|;
    StepKeepsTokens(written, ReadBookStep(n, true));
    StepKeepsTokens(ReadBook(written, n, true), WriteRowStep(n, true));
    hide GatewayCheck, GatewayCommit, ReadBook, WriteRow;
  }

  /** Which legs of a pair are left standing, exactly. The second only if both went
      out; the first also when it went out alone and was not unwound: it executed at
      once, rests on paper, or its cancel was declined or left it tracked. */
  lemma PairEnds(s: State, a: Leg, b: Leg, blocked: bool, acknowledged: bool, untracks: bool)
    requires Tokens(s) && a.id != b.id && a.id !in s.h.ids.known && b.id !in s.h.ids.known
    ensures var after := Paired(s, a, b, blocked, acknowledged, untracks);
            var out := !blocked && Accepted(a.result.status);
            && (Standing(after, a.id) <==>
                  out && Takes(a) && (Accepted(b.result.status) || !Unwound(a, acknowledged, untracks)))
            && (Standing(after, b.id) <==> out && Accepted(b.result.status) && Takes(b))
  {
    hide Tokens, BookedId, Standing;
    NowhereStanding(s, a.id);
    NowhereStanding(s, b.id);
    if !blocked && Accepted(a.result.status) {
      PlacedStands(s, a);
      var one := PlacedWhole(s, a);
      if Accepted(b.result.status) {
        assert b.id !in one.h.ids.known;
        PlacedStands(one, b);
      } else if NakedLive(a) {
        FreshIsNowhere(s, a.id);
        PendingIsNoPosition(a.result);
        CancelStands(one, a, b.id, acknowledged, untracks);
      }
      hide PlacedWhole, GatewayCancel, Takes, Accepted, NakedLive, PaperId;
    }
  }

  lemma NowhereStanding(s: State, id: Id)
    requires Tokens(s) && id !in s.h.ids.known
    ensures !Standing(s, id)
  {
    FreshIsNowhere(s, id);
    hide Tokens, BookedId;
  }

  lemma CancelStands(s: State, a: Leg, other: Id, acknowledged: bool, untracks: bool)
    requires NakedLive(a) && other != a.id && !BookedId(s.t.rows, a.id)
    requires forall i :: 0 <= i < |s.m.resting| ==> s.m.resting[i].id != a.id
    ensures var n := GatewayCancel(s, a.id, false, acknowledged, untracks);
            && (Standing(n, a.id) <==> Standing(s, a.id) && !Unwound(a, acknowledged, untracks))
            && (Standing(n, other) <==> Standing(s, other))
  {
    hide BookedId, Stamped, PaperId;
  }

  lemma CancelUntracks(s: State, id: Id)
    requires id in s.h.ids.known && id !in s.m.inflight && Idling(s.m, id) && id != "" && !PaperId(id)
    ensures var n := GatewayCancel(s, id, false, true, true);
            && Untracked(n, id) && n.t.rows == s.t.rows && id !in n.m.live
            && (forall i :: 0 <= i < |n.t.trades| && n.t.trades[i].id == id ==> !n.t.trades[i].status.Pending?)
  {
    hide PaperId;
    assert GatewayCancel(s, id, false, true, true).t.trades == Stamped(s.t.trades, id, Cancelled, true);
  }

  /** Both or nothing: a blocked pair, or one whose first leg is refused, leaves no
      trace. A resting first leg whose second was refused is cancelled, and once the
      venue acknowledges that and the adapter forgets the order, it is pending
      nowhere and will never be booked. */
  lemma PairedBothOrNothing(s: State, a: Leg, b: Leg, blocked: bool, acknowledged: bool, untracks: bool,
                            steps: seq<Step>)
    requires Tokens(s) && a.id !in s.h.ids.known
    ensures blocked || !Accepted(a.result.status) ==> Paired(s, a, b, blocked, acknowledged, untracks) == s
    ensures !blocked && !Accepted(b.result.status) && Unwound(a, acknowledged, untracks)
            && NeverAdopted(steps, a.id) ==>
              var after := Paired(s, a, b, blocked, acknowledged, untracks);
              && a.id !in after.m.live
              && (forall i :: 0 <= i < |after.t.trades| && after.t.trades[i].id == a.id ==>
                  !after.t.trades[i].status.Pending?)
              && !BookedId(Run(after, steps).t.rows, a.id)
  {
    if !blocked && !Accepted(b.result.status) && Unwound(a, acknowledged, untracks) && NeverAdopted(steps, a.id) {
      FreshIsNowhere(s, a.id);
      PendingIsNoPosition(a.result);
      var placed := PlacedWhole(s, a);
      PlacedStands(s, a);
      CancelUntracks(placed, a.id);
      hide Run, BookedId, PlacedWhole, Tokens, PaperId, GatewayCancel, Untracked, Accepted, Standing;
      UntrackedNeverBooked(GatewayCancel(placed, a.id, false, true, true), steps, a.id);
    }
  }
}
