/** The two tables that mirror the fills: the paper portfolio, projected from the
    cost basis, and the trades mirror, one row per order. */
module OrderMirrors {
  import opened Lists
  import opened AverageCost
  import opened OrderLifecycle
  import opened OrderRuns

  // --- The paper portfolio shows what was read last ------------------------------------

  /** Which markets the portfolio represents: the prediction-market venues'. */
  type Scope = string -> bool

  /** The row of a key is the one its last written reading asks for. */
  predicate ShownAs(portfolio: map<Key, Holding>, shown: Books, key: Key) {
    && (key in portfolio <==> BasisAt(shown, key).size > 0.0)
    && (key in portfolio ==>
          portfolio[key].size == BasisAt(shown, key).size && portfolio[key].avg == BasisAt(shown, key).avg)
  }

  ghost predicate Projected(t: Tables, shown: Books, scope: Scope) {
    && (forall key: Key :: ShownAs(t.portfolio, shown, key))
    && (forall key: Key :: key in shown ==> key.paper && key in t.books && scope(key.market))
  }

  /** The venue handed along with an order is that of its market. */
  predicate HonestVenue(scope: Scope, key: Key, venue: string) { key.paper ==> InScope(venue) == scope(key.market) }

  predicate HonestOrder(scope: Scope, o: Order) { HonestVenue(scope, o.key, o.venue) }

  /** A reading comes from an existing book of a market in scope. */
  predicate DueSound(d: Due, books: Books, scope: Scope) {
    && d.key.paper && HonestVenue(scope, d.key, d.venue)
    && (d.read.Some? ==> Readable(books, d.key, d.venue))
  }

  ghost predicate DueHonest(due: seq<Due>, books: Books, scope: Scope) {
    forall i :: 0 <= i < |due| ==> DueSound(due[i], books, scope)
  }

  ghost predicate InflightHonest(inflight: map<Id, Ticket>, scope: Scope) {
    forall id :: id in inflight ==> HonestVenue(scope, inflight[id].order.key, inflight[id].venue)
  }

  ghost predicate LiveHonest(live: map<Id, Order>, scope: Scope) {
    forall id :: id in live ==> HonestOrder(scope, live[id])
  }

  ghost predicate QueuesHonest(resting: seq<Resting>, deferred: seq<Deferred>, scope: Scope) {
    && (forall i :: 0 <= i < |resting| ==> HonestOrder(scope, resting[i].order))
    && (forall i :: 0 <= i < |deferred| ==> HonestOrder(scope, deferred[i].order))
  }

  predicate JobHonest(job: Job, scope: Scope) {
    job.Checking? || job.Writing? ==> HonestOrder(scope, job.order)
  }

  ghost predicate Honest(s: State, scope: Scope) {
    && DueHonest(s.m.due, s.t.books, scope) && InflightHonest(s.m.inflight, scope) && LiveHonest(s.m.live, scope)
    && QueuesHonest(s.m.resting, s.m.deferred, scope) && JobHonest(s.m.job, scope)
  }

  predicate HonestStep(step: Step, scope: Scope) {
    step.PlaceStep? ==> HonestOrder(scope, step.order) && HonestVenue(scope, step.order.key, step.venue)
  }

  // What the steps do to the projections owed, and to the books.

  lemma OwedDue(m: Memory)
    ensures forall key: Key, venue ::
              Owed(m, key, venue).due == if key.paper then m.due + [Due(key, venue, None)] else m.due
    ensures forall booked, again: FillRow, venue ::
              Replayed(m, booked, again, venue).due == m.due
              || (again.key.paper && Replayed(m, booked, again, venue).due == m.due + [Due(again.key, venue, None)])
  {
    hide SameFill;
  }

  predicate BooksUntouched(s: State, n: State) {
    n.t.books == s.t.books && n.t.portfolio == s.t.portfolio && n.h.shown == s.h.shown
  }

  predicate OwesNone(s: State, n: State) { BooksUntouched(s, n) && n.m.due == s.m.due }

  /** One more projection is owed: an agreeing replay. */
  predicate OwesOne(s: State, n: State, key: Key, venue: string) {
    BooksUntouched(s, n) && key.paper && n.m.due == s.m.due + [Due(key, venue, None)]
  }

  /** A fill moves the book of `row`, and its paper row is owed. */
  predicate BookMoves(s: State, n: State, row: FillRow, venue: string) {
    && n.t.books == s.t.books[row.key := Apply(BasisAt(s.t.books, row.key), row.fill)]
    && n.t.portfolio == s.t.portfolio && n.h.shown == s.h.shown
    && n.m.due == if row.key.paper then s.m.due + [Due(row.key, venue, None)] else s.m.due
  }

  lemma GatewayCheckOwes(s: State, id: Id)
    ensures var n := GatewayCheck(s, id);
            OwesNone(s, n) || (id in s.m.inflight && OwesOne(s, n, s.m.inflight[id].order.key, s.m.inflight[id].venue))
  {
    hide MirrorRow, BookedAsPosition, FirstFill, HasFill, FillPrice, Owed, Replayed, Accepted;
    OwedKeeps(s.m);
    OwedDue(s.m);
  }

  lemma GatewayCommitOwes(s: State, id: Id, ok: bool)
    ensures var n := GatewayCommit(s, id, ok);
            || OwesNone(s, n)
            || (id in s.m.inflight && BookMoves(s, n, RowOf(id, s.m.inflight[id].order, s.m.inflight[id].result),
                                                s.m.inflight[id].venue))
  {
    hide MirrorRow, FillPrice, Owed, Accepted, Apply, Realized;
    OwedKeeps(s.m);
    OwedDue(s.m);
  }

  lemma JobCheckOwes(s: State)
    ensures var n := JobCheck(s);
            OwesNone(s, n) || (!s.m.job.Idle? && OwesOne(s, n, s.m.job.order.key, s.m.job.order.venue))
  {
    hide Closed, BookedAsPosition, FirstFill, HasFill, FillPrice, FillSize, Owed, Replayed, Terminal;
    if s.m.job.Checking? {
      OwedKeeps(s.m);
      OwedDue(s.m);
    }
  }

  lemma JobCommitOwes(s: State, ok: bool)
    ensures var n := JobCommit(s, ok);
            || OwesNone(s, n)
            || (!s.m.job.Idle? && BookMoves(s, n, RowOf(s.m.job.id, s.m.job.order, s.m.job.result),
                                            s.m.job.order.venue))
  {
    hide Closed, FillPrice, FillSize, Owed, Apply, Realized;
    if s.m.job.Writing? {
      OwedKeeps(s.m);
      OwedDue(s.m);
    }
  }

  /** All other steps but the two of a projection. */
  predicate Elsewhere(step: Step) {
    step.PlaceStep? || step.PaperCheckStep? || step.StartDeferredStep? || step.StartPollStep? || step.AdoptStep?
    || step.RestartStep? || step.PaperExpireStep? || step.TtlCancelStep? || step.SweepStep? || step.GatewayCancelStep?
  }

  lemma ElsewhereOwes(s: State, step: Step)
    requires Elsewhere(step)
    ensures BooksUntouched(s, Next(s, step))
    ensures Next(s, step).m.due == if step.RestartStep? then [] else s.m.due
  {
    match step
    case PlaceStep(id, o, r, venue) =>
      PlaceOwes(s, id, o, r, venue);
      hide Place, BooksUntouched;
    case _ =>
      hide Place, Stamped, Terminal, PaperId, Through, Remaining;
  }

  lemma PlaceOwes(s: State, id: Id, o: Order, r: Result, venue: string)
    ensures BooksUntouched(s, Place(s, id, o, r, venue))
    ensures Place(s, id, o, r, venue).m.due == s.m.due
  {
    TrackedSplits(s.m, id, o, r, venue);
    hide Tracked, BookedAsPosition, Accepted;
  }

  lemma StepOwes(s: State, step: Step)
    requires !step.ReadBookStep? && !step.WriteRowStep?
    ensures var n := Next(s, step);
            || OwesNone(s, n)
            || (step.RestartStep? && BooksUntouched(s, n) && n.m.due == [])
            || (exists key, venue :: OwesOne(s, n, key, venue))
            || (exists row, venue :: BookMoves(s, n, row, venue))
  {
    hide OwesOne, BookMoves, GatewayCheck, GatewayCommit, JobCheck, JobCommit;
    match step
    case GatewayCheckStep(id) => GatewayCheckOwes(s, id); hide OwesNone;
    case GatewayCommitStep(id, ok) => GatewayCommitOwes(s, id, ok); hide OwesNone;
    case JobCheckStep => JobCheckOwes(s); hide OwesNone;
    case JobCommitStep(ok) => JobCommitOwes(s, ok); hide OwesNone;
    case _ =>
      ElsewhereOwes(s, step);
      hide Next;
  }

  /** One projection makes its row show what was read, and touches no other. */
  lemma WriteShowsReading(t: Tables, shown: Books, scope: Scope, due: Due)
    requires Projected(t, shown, scope) && DueSound(due, t.books, scope) && due.read.Some?
    ensures Projected(t.(portfolio := Materialized(t.portfolio, due.key, due.venue, due.read.value)),
                      shown[due.key := due.read.value], scope)
  {
    var after := Materialized(t.portfolio, due.key, due.venue, due.read.value);
    var now := shown[due.key := due.read.value];
    forall key: Key ensures ShownAs(after, now, key) {
      assert ShownAs(t.portfolio, shown, key);
    }
  }

  lemma StepKeepsProjected(s: State, step: Step, scope: Scope)
    requires Projected(s.t, s.h.shown, scope) && DueHonest(s.m.due, s.t.books, scope)
    ensures Projected(Next(s, step).t, Next(s, step).h.shown, scope)
  {
    if step.WriteRowStep? {
      if step.i < |s.m.due| && s.m.due[step.i].read.Some? {
        WriteShowsReading(s.t, s.h.shown, scope, s.m.due[step.i]);
      }
      hide DueHonest, DueSound, Materialized, ShownAs;
    } else if step.ReadBookStep? {
      hide DueHonest, Readable, ShownAs;
    } else {
      StepOwes(s, step);
      hide Next, DueHonest, ShownAs, Apply;
    }
  }

  lemma OneMoreHonest(due: seq<Due>, books: Books, scope: Scope, key: Key, venue: string, b: Basis)
    requires DueHonest(due, books, scope) && HonestVenue(scope, key, venue)
    ensures key.paper ==> DueHonest(due + [Due(key, venue, None)], books, scope)
    ensures DueHonest(due, books[key := b], scope)
    ensures key.paper ==> DueHonest(due + [Due(key, venue, None)], books[key := b], scope)
  {
    hide HonestVenue, InScope;
  }

  lemma GatewayCheckKeepsHonest(s: State, id: Id, scope: Scope)
    requires Honest(s, scope)
    ensures Honest(GatewayCheck(s, id), scope)
  {
    GatewayCheckDoes(s, id);
    GatewayCheckOwes(s, id);
    if id in s.m.inflight {
      OneMoreHonest(s.m.due, s.t.books, scope, s.m.inflight[id].order.key, s.m.inflight[id].venue, FLAT);
    }
    hide GatewayCheck, DueHonest, LiveHonest, QueuesHonest, JobHonest, HonestVenue, BookedAsPosition;
  }

  lemma GatewayCommitKeepsHonest(s: State, id: Id, ok: bool, scope: Scope)
    requires Honest(s, scope)
    ensures Honest(GatewayCommit(s, id, ok), scope)
  {
    if id in s.m.inflight && id in s.m.writing {
      GatewayCommitDoes(s, id, ok);
      GatewayCommitOwes(s, id, ok);
      var row := RowOf(id, s.m.inflight[id].order, s.m.inflight[id].result);
      OneMoreHonest(s.m.due, s.t.books, scope, row.key, s.m.inflight[id].venue,
                    Apply(BasisAt(s.t.books, row.key), row.fill));
      hide GatewayCommit, Committed, DueHonest, LiveHonest, QueuesHonest, JobHonest, HonestVenue, Apply, FillPrice;
    }
  }

  lemma JobCheckKeepsHonest(s: State, scope: Scope)
    requires Honest(s, scope)
    ensures Honest(JobCheck(s), scope)
  {
    if s.m.job.Checking? {
      JobCheckDoes(s);
      JobCheckOwes(s);
      OneMoreHonest(s.m.due, s.t.books, scope, s.m.job.order.key, s.m.job.order.venue, FLAT);
      hide JobCheck, DueHonest, InflightHonest, QueuesHonest, HonestVenue, HasFill, Terminal;
    }
  }

  lemma JobCommitKeepsHonest(s: State, ok: bool, scope: Scope)
    requires Honest(s, scope)
    ensures Honest(JobCommit(s, ok), scope)
  {
    if s.m.job.Writing? {
      JobCommitDoes(s, ok);
      JobCommitOwes(s, ok);
      var row := RowOf(s.m.job.id, s.m.job.order, s.m.job.result);
      OneMoreHonest(s.m.due, s.t.books, scope, row.key, s.m.job.order.venue,
                    Apply(BasisAt(s.t.books, row.key), row.fill));
      hide JobCommit, Committed, DueHonest, InflightHonest, QueuesHonest, HonestVenue, Apply, FillPrice;
    }
  }

  lemma ProjectionKeepsHonest(s: State, step: Step, scope: Scope)
    requires Honest(s, scope) && (step.ReadBookStep? || step.WriteRowStep?)
    ensures Honest(Next(s, step), scope)
  {
    hide Materialized, Readable, HonestVenue, InflightHonest, LiveHonest, QueuesHonest, JobHonest;
  }

  lemma PlaceKeepsHonest(s: State, id: Id, o: Order, r: Result, venue: string, scope: Scope)
    requires Honest(s, scope) && HonestOrder(scope, o) && HonestVenue(scope, o.key, venue)
    ensures Honest(Place(s, id, o, r, venue), scope)
  {
    TrackedSplits(s.m, id, o, r, venue);
    hide Tracked, InScope, BookedAsPosition, HonestVenue, Accepted, DueHonest;
  }

  lemma PaperCheckKeepsHonest(s: State, q: Quotes, scope: Scope)
    requires Honest(s, scope)
    ensures Honest(PaperCheck(s, q), scope)
  {
    hide InScope, Through, Remaining, QueuesHonest, DueHonest, InflightHonest, LiveHonest, JobHonest;
    QueuesStayHonest(s.m.resting, s.m.deferred, q, scope);
  }

  lemma BystanderKeepsHonest(s: State, step: Step, scope: Scope)
    requires Honest(s, scope) && Bystander(step) && Elsewhere(step)
    ensures Honest(Next(s, step), scope)
  {
    BystanderDoes(s, step);
    ElsewhereOwes(s, step);
    hide Next, DueHonest, HonestVenue, HonestOrder, InflightHonest, JobHonest;
  }

  lemma StartKeepsHonest(s: State, step: Step, scope: Scope)
    requires Honest(s, scope)
    requires step.StartDeferredStep? || step.StartPollStep? || step.AdoptStep? || step.RestartStep?
    ensures Honest(Next(s, step), scope)
  {
    ElsewhereOwes(s, step);
    hide InScope, DueHonest, InflightHonest;
    if !step.AdoptStep? {
      hide HonestVenue;
    }
  }

  lemma StepKeepsHonest(s: State, step: Step, scope: Scope)
    requires Honest(s, scope) && HonestStep(step, scope)
    ensures Honest(Next(s, step), scope)
  {
    hide Honest, HonestVenue;
    match step
    case PlaceStep(id, o, r, venue) => PlaceKeepsHonest(s, id, o, r, venue, scope);
    case PaperCheckStep(q) => PaperCheckKeepsHonest(s, q, scope);
    case GatewayCheckStep(id) => GatewayCheckKeepsHonest(s, id, scope);
    case GatewayCommitStep(id, ok) => GatewayCommitKeepsHonest(s, id, ok, scope);
    case JobCheckStep => JobCheckKeepsHonest(s, scope);
    case JobCommitStep(ok) => JobCommitKeepsHonest(s, ok, scope);
    case ReadBookStep(_, _) => ProjectionKeepsHonest(s, step, scope);
    case WriteRowStep(_, _) => ProjectionKeepsHonest(s, step, scope);
    case StartDeferredStep => StartKeepsHonest(s, step, scope);
    case StartPollStep(_, _) => StartKeepsHonest(s, step, scope);
    case AdoptStep(_, _) => StartKeepsHonest(s, step, scope);
    case RestartStep => StartKeepsHonest(s, step, scope);
    case _ => BystanderKeepsHonest(s, step, scope);
  }

  lemma QueuesStayHonest(resting: seq<Resting>, deferred: seq<Deferred>, q: Quotes, scope: Scope)
    requires QueuesHonest(resting, deferred, scope)
    ensures QueuesHonest(Remaining(resting, q), deferred + Through(resting, q), scope)
  {
    hide Through, Remaining, HonestOrder;
    QueueMembers(resting, q);
    var more, left := Through(resting, q), Remaining(resting, q);
    forall i | 0 <= i < |more| ensures HonestOrder(scope, more[i].order) {
      assert more[i] in more;
    }
    forall i | 0 <= i < |left| ensures HonestOrder(scope, left[i].order) {
      assert left[i] in left;
    }
  }

  ghost predicate HonestRun(steps: seq<Step>, scope: Scope) {
    forall i :: 0 <= i < |steps| ==> HonestStep(steps[i], scope)
  }

  /** Over every run, a paper portfolio row is exactly what the reading written last
      for it asks for: a row of that size and average, or none. */
  lemma {:induction false} RunKeepsProjected(steps: seq<Step>, scope: Scope)
    requires HonestRun(steps, scope)
    ensures Projected(Run(START, steps).t, Run(START, steps).h.shown, scope)
    ensures Honest(Run(START, steps), scope)
  {
    if steps == [] {
      NothingProjected(scope);
    } else {
      hide Next, Projected, HonestStep;
      var init, step := steps[..|steps| - 1], steps[|steps| - 1];
      assert HonestRun(init, scope);
      RunKeepsProjected(init, scope);
      StepKeepsProjected(Run(START, init), step, scope);
      hide Honest;
      StepKeepsHonest(Run(START, init), step, scope);
    }
  }

  lemma NothingProjected(scope: Scope)
    ensures Projected(START.t, START.h.shown, scope) && Honest(START, scope)
  {}

  // --- When the portfolio is a projection of the cost basis -----------------------------------

  /** A row exists exactly for a book in scope of positive size, with its size and
      average. */
  ghost predicate Exact(t: Tables, scope: Scope, key: Key) {
    && (key in t.portfolio <==> scope(key.market) && BasisAt(t.books, key).size > 0.0)
    && (key in t.portfolio ==> t.portfolio[key].size == BasisAt(t.books, key).size
                               && t.portfolio[key].avg == BasisAt(t.books, key).avg)
  }

  /** Two bases show the same row, or both show none. */
  predicate Alike(a: Basis, b: Basis) { a == b || (a.size <= 0.0 && b.size <= 0.0) }

  /** The reading written last shows the same as the book does now. */
  predicate Current(shown: Books, books: Books, key: Key) { Alike(BasisAt(shown, key), BasisAt(books, key)) }

  /** Over every run, whatever failed, was cut off or overtaken: the paper row of a
      key is exact if and only if its market is none of the portfolio's, or the
      reading written last for it is current. */
  lemma PortfolioExactIff(steps: seq<Step>, scope: Scope, key: Key)
    requires HonestRun(steps, scope) && key.paper
    ensures Exact(Run(START, steps).t, scope, key)
            <==> (scope(key.market) ==> Current(Run(START, steps).h.shown, Run(START, steps).t.books, key))
  {
    RunKeepsProjected(steps, scope);
    var s := Run(START, steps);
    assert ShownAs(s.t.portfolio, s.h.shown, key);
    hide Run, Honest;
  }

  ghost predicate HasDue(due: seq<Due>, key: Key) {
    exists i :: 0 <= i < |due| && due[i].key == key
  }

  /** The step ends a projection of this key by writing the row. */
  predicate Writes(s: State, step: Step, key: Key) {
    step.WriteRowStep? && step.ok && step.i < |s.m.due| && s.m.due[step.i].key == key && s.m.due[step.i].read.Some?
  }

  /** What it writes is not the book as it is at that moment. */
  predicate WritesStale(s: State, step: Step) {
    step.WriteRowStep? && step.i < |s.m.due| && s.m.due[step.i].read.Some?
    && !Alike(s.m.due[step.i].read.value, BasisAt(s.t.books, s.m.due[step.i].key))
  }

  /** The step loses a projection of this key: its read or write fails, or the
      process restarts while one is owed. */
  ghost predicate Drops(s: State, step: Step, key: Key) {
    || (step.RestartStep? && HasDue(s.m.due, key))
    || ((step.ReadBookStep? || step.WriteRowStep?) && !step.ok && step.i < |s.m.due| && s.m.due[step.i].key == key
        && (step.WriteRowStep? <==> s.m.due[step.i].read.Some?))
  }

  /** Every recording of this key was completed. */
  ghost predicate Completed(steps: seq<Step>, key: Key) {
    && (forall i :: 0 <= i < |steps| ==> !Drops(Run(START, steps[..i]), steps[i], key))
    && !HasDue(Run(START, steps).m.due, key)
  }

  ghost predicate WrittenAt(steps: seq<Step>, i: nat, key: Key) {
    i < |steps| && Writes(Run(START, steps[..i]), steps[i], key)
  }

  /** Step `i` is the last write of the row, and what it wrote was out of date. */
  ghost predicate LastWriteStale(steps: seq<Step>, i: nat, key: Key) {
    && WrittenAt(steps, i, key) && WritesStale(Run(START, steps[..i]), steps[i])
    && forall j: nat :: j > i ==> !WrittenAt(steps, j, key)
  }

  ghost predicate EndsStale(steps: seq<Step>, key: Key) { exists i: nat :: LastWriteStale(steps, i, key) }

  lemma OneMoreWrite(steps: seq<Step>, key: Key)
    requires steps != []
    ensures var init, step := steps[..|steps| - 1], steps[|steps| - 1];
            var s := Run(START, init);
            EndsStale(steps, key) <==> if Writes(s, step, key) then WritesStale(s, step) else EndsStale(init, key)
  {
    hide Run, Writes, WritesStale;
    var init, last: nat := steps[..|steps| - 1], |steps| - 1;
    forall i: nat | i < last
      ensures steps[..i] == init[..i]
      ensures WrittenAt(steps, i, key) <==> WrittenAt(init, i, key)
    {
      assert steps[..i] == init[..i];
    }
    assert WrittenAt(steps, last, key) <==> Writes(Run(START, init), steps[last], key);
    if WrittenAt(steps, last, key) {
      assert LastWriteStale(steps, last, key) <==> WritesStale(Run(START, init), steps[last]);
    } else {
      forall i: nat ensures LastWriteStale(steps, i, key) <==> LastWriteStale(init, i, key) {
        assert forall j: nat :: WrittenAt(steps, j, key) <==> WrittenAt(init, j, key);
      }
    }
  }

  /** As long as no projection of the key is owed, its row is current exactly when the
      write that made it was. */
  ghost predicate OwedOrDecided(s: State, key: Key, stale: bool) {
    && (HasDue(s.m.due, key) || (Current(s.h.shown, s.t.books, key) <==> !stale))
    && (key !in s.h.shown ==> !stale)
  }

  lemma DroppedKeepsOthers(due: seq<Due>, i: nat, key: Key)
    requires i < |due| && due[i].key != key
    ensures HasDue(due, key) ==> HasDue(due[..i] + due[i + 1..], key)
  {
    if HasDue(due, key) {
      var j :| 0 <= j < |due| && due[j].key == key;
      assert (due[..i] + due[i + 1..])[if j < i then j else j - 1] == due[j];
    }
  }

  lemma WriteDecides(s: State, i: nat, ok: bool, key: Key, stale: bool)
    requires OwedOrDecided(s, key, stale) && !Drops(s, WriteRowStep(i, ok), key)
    ensures var step := WriteRowStep(i, ok);
            OwedOrDecided(WriteRow(s, i, ok), key, if Writes(s, step, key) then WritesStale(s, step) else stale)
  {
    hide Materialized, Alike;
    if i < |s.m.due| && s.m.due[i].read.Some? && s.m.due[i].key != key {
      DroppedKeepsOthers(s.m.due, i, key);
      hide HasDue;
    }
  }

  /** A book that cannot be read does not exist, and shows nothing. */
  lemma ReadDecides(s: State, i: nat, ok: bool, key: Key, stale: bool, scope: Scope)
    requires OwedOrDecided(s, key, stale) && !Drops(s, ReadBookStep(i, ok), key)
    requires DueHonest(s.m.due, s.t.books, scope) && Projected(s.t, s.h.shown, scope) && key.paper && scope(key.market)
    ensures OwedOrDecided(ReadBook(s, i, ok), key, stale)
  {
    if i < |s.m.due| && s.m.due[i].read.None? {
      var n, due := ReadBook(s, i, ok), s.m.due[i];
      assert DueSound(due, s.t.books, scope);
      if ok && Readable(s.t.books, due.key, due.venue) {
        if HasDue(s.m.due, key) {
          var j :| 0 <= j < |s.m.due| && s.m.due[j].key == key;
          assert n.m.due[j].key == key;
        }
      } else if due.key != key {
        DroppedKeepsOthers(s.m.due, i, key);
      } else {
        UnreadableShowsNothing(s, due, scope);
      }
    }
  }

  lemma UnreadableShowsNothing(s: State, due: Due, scope: Scope)
    requires Projected(s.t, s.h.shown, scope) && DueSound(due, s.t.books, scope) && scope(due.key.market)
    requires !Readable(s.t.books, due.key, due.venue)
    ensures due.key !in s.h.shown && Current(s.h.shown, s.t.books, due.key)
  {}

  lemma GrownHasDue(due: seq<Due>, d: Due, key: Key)
    ensures HasDue(due + [d], key) <==> HasDue(due, key) || d.key == key
  {
    assert (due + [d])[|due|] == d;
    if HasDue(due, key) {
      var j :| 0 <= j < |due| && due[j].key == key;
      assert (due + [d])[j] == due[j];
    }
  }

  lemma OthersDecide(s: State, step: Step, key: Key, stale: bool)
    requires OwedOrDecided(s, key, stale) && !Drops(s, step, key) && key.paper
    requires !step.ReadBookStep? && !step.WriteRowStep?
    ensures OwedOrDecided(Next(s, step), key, stale)
  {
    StepOwes(s, step);
    var n := Next(s, step);
    hide Next, HasDue, Apply, Alike;
    if k, venue :| OwesOne(s, n, k, venue) {
      GrownHasDue(s.m.due, Due(k, venue, None), key);
    } else if row, venue :| BookMoves(s, n, row, venue) {
      GrownHasDue(s.m.due, Due(row.key, venue, None), key);
    }
  }

  lemma {:induction false} RunDecides(steps: seq<Step>, scope: Scope, key: Key)
    requires HonestRun(steps, scope) && key.paper && scope(key.market)
    requires forall i :: 0 <= i < |steps| ==> !Drops(Run(START, steps[..i]), steps[i], key)
    ensures OwedOrDecided(Run(START, steps), key, EndsStale(steps, key))
  {
    hide Next, Drops, Projected, Honest, HonestStep, OwedOrDecided, Writes, WritesStale;
    if steps == [] {
      NothingDecided(key);
    } else {
      var init, step := steps[..|steps| - 1], steps[|steps| - 1];
      assert HonestRun(init, scope);
      forall i | 0 <= i < |init| ensures !Drops(Run(START, init[..i]), init[i], key) {
        assert init[..i] == steps[..i] && init[i] == steps[i];
      }
      RunDecides(init, scope, key);
      RunKeepsProjected(init, scope);
      OneMoreWrite(steps, key);
      StepDecides(Run(START, init), step, scope, key, EndsStale(init, key));
      hide EndsStale;
    }
  }

  lemma StepDecides(s: State, step: Step, scope: Scope, key: Key, stale: bool)
    requires OwedOrDecided(s, key, stale) && !Drops(s, step, key) && key.paper && scope(key.market)
    requires Honest(s, scope) && Projected(s.t, s.h.shown, scope)
    ensures OwedOrDecided(Next(s, step), key, if Writes(s, step, key) then WritesStale(s, step) else stale)
  {
    hide OwedOrDecided, Drops, Projected, DueHonest;
    match step
    case WriteRowStep(i, ok) => WriteDecides(s, i, ok, key, stale);
    case ReadBookStep(i, ok) => ReadDecides(s, i, ok, key, stale, scope);
    case _ =>
      OthersDecide(s, step, key, stale);
      hide Next;
  }

  lemma NothingDecided(key: Key)
    ensures OwedOrDecided(START, key, EndsStale([], key))
  {}

  /** After any run in which every recording of a key was completed: its paper portfolio
      row exists exactly when the market is a prediction market and the cost basis holds
      a positive size, with that size and average, if and only if the last step that
      wrote the row wrote the book as it was at that moment. */
  lemma PortfolioIsProjection(steps: seq<Step>, scope: Scope, key: Key)
    requires HonestRun(steps, scope) && key.paper && Completed(steps, key)
    ensures Exact(Run(START, steps).t, scope, key)
       <==> !(scope(key.market) && exists i: nat :: LastWriteStale(steps, i, key))
  {
    hide Run, Exact, Current, HonestRun, Drops, LastWriteStale;
    PortfolioExactIff(steps, scope, key);
    if scope(key.market) {
      RunDecides(steps, scope, key);
    }
  }

  /** So the portfolio is exact after any run in which every projection succeeds and is
      over, and no recording is overtaken between reading a book and writing its row. */
  lemma UndisturbedIsExact(steps: seq<Step>, scope: Scope, key: Key)
    requires HonestRun(steps, scope) && key.paper
    requires forall i :: 0 <= i < |steps| ==>
             !steps[i].RestartStep? && (steps[i].ReadBookStep? || steps[i].WriteRowStep? ==> steps[i].ok)
    requires forall i: nat :: WrittenAt(steps, i, key) ==> !WritesStale(Run(START, steps[..i]), steps[i])
    requires Run(START, steps).m.due == []
    ensures Exact(Run(START, steps).t, scope, key)
  {
    hide Run, Exact, HonestRun, WritesStale;
    forall i | 0 <= i < |steps| ensures !Drops(Run(START, steps[..i]), steps[i], key) {
      assert !steps[i].RestartStep?;
    }
    PortfolioIsProjection(steps, scope, key);
  }

  /** Two recordings of one book, the second reading and writing between the first
      one's read and write: nothing is owed any more, and the row shows the book as
      it was before the second fill. */
  lemma OvertakenReadingStays(s: State, a: Id, b: Id)
    requires a != b && {a, b} <= s.m.writing && a in s.m.inflight && b in s.m.inflight && s.m.due == []
    requires var k, l := s.m.inflight[a], s.m.inflight[b];
             k.order.key == l.order.key && k.order.key.paper && InScope(k.venue) && k.venue == l.venue
    ensures var key := s.m.inflight[a].order.key;
            var one := Apply(BasisAt(s.t.books, key), RowOf(a, s.m.inflight[a].order, s.m.inflight[a].result).fill);
            var two := Apply(one, RowOf(b, s.m.inflight[b].order, s.m.inflight[b].result).fill);
            var n := WriteRow(WriteRow(ReadBook(GatewayCommit(ReadBook(GatewayCommit(s, a, true), 0, true), b, true),
                                                1, true), 1, true), 0, true);
            && n.m.due == [] && BasisAt(n.t.books, key) == two && BasisAt(n.h.shown, key) == one
  {
    hide Apply, Realized, MirrorRow, FillPrice, Materialized, Accepted;
    var k, l := s.m.inflight[a], s.m.inflight[b];
    var key, venue := k.order.key, k.venue;
    var one := Apply(BasisAt(s.t.books, key), RowOf(a, k.order, k.result).fill);
    var s1 := GatewayCommit(s, a, true);
    CommitOwes(s, a);
    var s2 := ReadBook(s1, 0, true);
    assert s2.m.due == [Due(key, venue, Some(one))];
    assert s2.m.inflight == s1.m.inflight && s2.m.writing == s1.m.writing && s2.t == s1.t;
    var s3 := GatewayCommit(s2, b, true);
    CommitOwes(s2, b);
    var two := Apply(one, RowOf(b, l.order, l.result).fill);
    var s4 := ReadBook(s3, 1, true);
    assert s4.m.due == [Due(key, venue, Some(one)), Due(key, venue, Some(two))];
    var s5 := WriteRow(s4, 1, true);
    assert s5.m.due == [Due(key, venue, Some(one))];
    assert WriteRow(s5, 0, true).m.due == [];
  }

  predicate Instant(k: Ticket) { k.result.status.PaperFilled? && k.result.filledSize > 0.0 }

  lemma TwoInFlight(a: Id, b: Id, k: Ticket, l: Ticket)
    requires a != b && Instant(k) && Instant(l)
    ensures var s := GatewayCheck(GatewayCheck(Place(Place(START, a, k.order, k.result, k.venue), b, l.order,
                                                     l.result, l.venue), a), b);
            && s.m.inflight == map[a := k, b := l] && s.m.writing == {a, b} && s.m.due == [] && s.t == EMPTY
  {
    var one := Place(START, a, k.order, k.result, k.venue);
    assert one.m.inflight == map[a := k] && one.m.writing == {} && one.t == EMPTY && b !in one.h.ids.known;
    var two := Place(one, b, l.order, l.result, l.venue);
    assert two.m.inflight == map[a := k, b := l] && two.m.writing == {} && two.t == EMPTY;
    assert GatewayCheck(two, a).m.writing == {a};
  }

  /** Such a run from the start: two paper buys that fill at once. */
  lemma OvertakenRun(a: Id, b: Id, k: Ticket, l: Ticket, scope: Scope)
    requires a != b && Instant(k) && Instant(l) && k.order.key == l.order.key && k.order.key.paper
    requires k.order.side.Buy? && l.order.side.Buy? && InScope(k.venue) && k.venue == l.venue
    ensures var steps := [PlaceStep(a, k.order, k.result, k.venue), PlaceStep(b, l.order, l.result, l.venue),
                          GatewayCheckStep(a), GatewayCheckStep(b),
                          GatewayCommitStep(a, true), ReadBookStep(0, true), GatewayCommitStep(b, true),
                              ReadBookStep(1, true), WriteRowStep(1, true), WriteRowStep(0, true)];
            var s := Run(START, steps);
            && s.m.due == [] && !Current(s.h.shown, s.t.books, k.order.key)
            && (HonestRun(steps, scope) && scope(k.order.key.market) ==> !Exact(s.t, scope, k.order.key))
  {
    var steps := [PlaceStep(a, k.order, k.result, k.venue), PlaceStep(b, l.order, l.result, l.venue),
                  GatewayCheckStep(a), GatewayCheckStep(b),
                  GatewayCommitStep(a, true), ReadBookStep(0, true), GatewayCommitStep(b, true), ReadBookStep(1, true),
                  WriteRowStep(1, true), WriteRowStep(0, true)];
    hide *;
    TwoInFlight(a, b, k, l);
    var s := GatewayCheck(GatewayCheck(Place(Place(START, a, k.order, k.result, k.venue), b, l.order, l.result,
                                             l.venue), a), b);
    NothingBooked(s.t, k.order.key);
    OvertakenReadingStays(s, a, b);
    TenSteps(steps);
    FirstFour(a, b, k, l);
    LastSix(s, a, b);
    BuyRow(a, k);
    BuyRow(b, l);
    BuyGrows(FLAT, RowOf(a, k.order, k.result).fill);
    BuyGrows(Apply(FLAT, RowOf(a, k.order, k.result).fill), RowOf(b, l.order, l.result).fill);
    DifferentSizes(Run(START, steps), k.order.key);
    if HonestRun(steps, scope) {
      PortfolioExactIff(steps, scope, k.order.key);
    }
  }

  lemma NothingBooked(t: Tables, key: Key)
    requires t == EMPTY
    ensures BasisAt(t.books, key) == FLAT
  {}

  lemma BuyRow(id: Id, k: Ticket)
    requires Instant(k)
    ensures RowOf(id, k.order, k.result).fill.side == k.order.side && RowOf(id, k.order, k.result).fill.size > 0.0
  {}

  lemma DifferentSizes(s: State, key: Key)
    requires BasisAt(s.t.books, key).size > BasisAt(s.h.shown, key).size > 0.0
    ensures !Current(s.h.shown, s.t.books, key)
  {}

  lemma FirstFour(a: Id, b: Id, k: Ticket, l: Ticket)
    ensures Next(Next(Next(Next(START, PlaceStep(a, k.order, k.result, k.venue)),
                           PlaceStep(b, l.order, l.result, l.venue)), GatewayCheckStep(a)), GatewayCheckStep(b))
         == GatewayCheck(GatewayCheck(Place(Place(START, a, k.order, k.result, k.venue), b, l.order, l.result,
                                            l.venue), a), b)
  {
    hide Place, GatewayCheck;
  }

  lemma LastSix(s: State, a: Id, b: Id)
    ensures Next(Next(Next(Next(Next(Next(s, GatewayCommitStep(a, true)), ReadBookStep(0, true)),
                                GatewayCommitStep(b, true)),
                           ReadBookStep(1, true)), WriteRowStep(1, true)), WriteRowStep(0, true))
         == WriteRow(WriteRow(ReadBook(GatewayCommit(ReadBook(GatewayCommit(s, a, true), 0, true), b, true), 1, true),
                              1, true), 0, true)
  {
    hide GatewayCommit, ReadBook, WriteRow;
  }

  lemma BuyGrows(b: Basis, f: Fill)
    requires b.size >= 0.0 && f.side.Buy? && f.size > 0.0
    ensures Apply(b, f).size == b.size + f.size
  {
    hide Value, PerUnit;
  }

  lemma TenSteps(steps: seq<Step>)
    requires |steps| == 10
    ensures Run(START, steps)
         == Next(Next(Next(Next(Next(Next(Next(Next(Next(Next(START, steps[0]), steps[1]), steps[2]), steps[3]),
                                          steps[4]), steps[5]), steps[6]), steps[7]), steps[8]), steps[9])
  {
    hide Next;
    RunOfNothing(START, steps);
    assert steps[..10] == steps;
    hide Run;
    RunStep(START, steps, 0); RunStep(START, steps, 1); RunStep(START, steps, 2); RunStep(START, steps, 3);
    RunStep(START, steps, 4); RunStep(START, steps, 5); RunStep(START, steps, 6); RunStep(START, steps, 7);
    RunStep(START, steps, 8); RunStep(START, steps, 9);
  }

  lemma CommitOwes(s: State, id: Id)
    requires id in s.m.inflight && id in s.m.writing && s.m.inflight[id].order.key.paper
    ensures var n, k := GatewayCommit(s, id, true), s.m.inflight[id];
            && n.t.books == s.t.books[k.order.key := Apply(BasisAt(s.t.books, k.order.key),
                                                           RowOf(id, k.order, k.result).fill)]
            && n.m.due == s.m.due + [Due(k.order.key, k.venue, None)] && n.h.shown == s.h.shown
            && n.m.inflight == s.m.inflight - {id} && n.m.writing == s.m.writing - {id}
  {
    hide Apply, Realized, MirrorRow, FillPrice, Accepted;
  }

  // --- One mirror row per order --------------------------------------------------------------

  predicate TradesDistinct(trades: seq<TradeRow>) {
    forall i, j :: 0 <= i < j < |trades| ==> trades[i].id != trades[j].id
  }

  ghost predicate TradesKnown(trades: seq<TradeRow>, h: Ids) {
    forall i :: 0 <= i < |trades| ==> trades[i].id in h.known
  }

  /** Everything in flight was accepted, so that its recording adds a mirror row. */
  ghost predicate AllAccepted(inflight: map<Id, Ticket>) {
    forall id :: id in inflight ==> Accepted(inflight[id].result.status)
  }

  ghost predicate MirrorSound(s: State) { TradesKnown(s.t.trades, s.h.ids) && AllAccepted(s.m.inflight) }

  /** The monitor is about to end an order: it has nothing to book, or commits. */
  predicate EndsOrder(s: State, step: Step) {
    || (step.JobCheckStep? && s.m.job.Checking? && JobCheck(s).m.job.Idle?)
    || (step.JobCommitStep? && s.m.job.Writing?)
  }

  /** The monitor closes a filled order whose placement is still in flight, and
      finds no mirror row to update. */
  predicate InsertsEarly(s: State, step: Step, id: Id) {
    && EndsOrder(s, step) && s.m.job.id == id && s.m.job.live && s.m.job.result.status.Filled?
    && id in s.m.inflight && !Mirrored(s.t.trades, id)
  }

  /** The gateway records the placement of this order. */
  predicate Records(s: State, step: Step, id: Id) {
    && (step.GatewayCheckStep? || step.GatewayCommitStep?) && step.id == id
    && id in s.m.inflight && id !in Next(s, step).m.inflight
  }

  lemma SameIds(a: seq<TradeRow>, b: seq<TradeRow>)
    requires |a| == |b| && forall i :: 0 <= i < |a| ==> a[i].id == b[i].id
    ensures TradesDistinct(a) <==> TradesDistinct(b)
    ensures forall id :: Mirrored(a, id) <==> Mirrored(b, id)
    ensures forall h :: TradesKnown(a, h) ==> TradesKnown(b, h)
  {
    forall id ensures Mirrored(a, id) <==> Mirrored(b, id) {
      if i :| 0 <= i < |a| && a[i].id == id {
        assert b[i].id == id;
      }
    }
  }

  lemma AppendTrade(trades: seq<TradeRow>, row: TradeRow)
    ensures TradesDistinct(trades + [row]) <==> TradesDistinct(trades) && !Mirrored(trades, row.id)
    ensures forall id :: Mirrored(trades + [row], id) <==> Mirrored(trades, id) || row.id == id
  {
    var all := trades + [row];
    assert all[|trades|] == row;
    assert forall i :: 0 <= i < |trades| ==> all[i] == trades[i];
    forall id ensures Mirrored(all, id) <==> Mirrored(trades, id) || row.id == id {
      if i :| 0 <= i < |trades| && trades[i].id == id {
        assert all[i].id == id;
      }
      if i :| 0 <= i < |all| && all[i].id == id {
        assert i < |trades| ==> trades[i].id == id;
      }
    }
  }

  lemma StampsKeepRows(trades: seq<TradeRow>, id: Id, status: Status, pendingOnly: bool)
    ensures TradesDistinct(trades) <==> TradesDistinct(Stamped(trades, id, status, pendingOnly))
    ensures forall x :: Mirrored(trades, x) <==> Mirrored(Stamped(trades, id, status, pendingOnly), x)
    ensures forall h :: TradesKnown(trades, h) ==> TradesKnown(Stamped(trades, id, status, pendingOnly), h)
  {
    SameIds(trades, Stamped(trades, id, status, pendingOnly));
  }

  lemma ClosedKeepsRows(trades: seq<TradeRow>, row: TradeRow)
    ensures TradesDistinct(trades) <==> TradesDistinct(Closed(trades, row))
    ensures forall x :: Mirrored(Closed(trades, row), x) <==> Mirrored(trades, x) || (x == row.id && row.status.Filled?)
    ensures forall h: Ids :: TradesKnown(trades, h) && row.id in h.known ==> TradesKnown(Closed(trades, row), h)
  {
    if Mirrored(trades, row.id) || row.status != Filled {
      SameIds(trades, Rewritten(trades, row));
    } else {
      AppendTrade(trades, row);
    }
  }

  /** What one step does to the mirror: the ids in it, and whether they stay distinct. */
  ghost predicate MirrorStep(s: State, step: Step, n: State) {
    && (TradesDistinct(n.t.trades) <==> TradesDistinct(s.t.trades) && !Doubles(s, step))
    && (forall id :: id in s.h.ids.known ==> id in n.h.ids.known)
    && (forall id :: id in n.m.inflight && id in s.m.inflight ==>
          (Mirrored(n.t.trades, id) <==> Mirrored(s.t.trades, id) || InsertsEarly(s, step, id)))
    && (forall id :: id in n.m.inflight && id !in s.m.inflight ==> id !in s.h.ids.known && !Mirrored(n.t.trades, id))
  }

  predicate Doubles(s: State, step: Step) {
    (step.GatewayCheckStep? || step.GatewayCommitStep?) && Records(s, step, step.id) && Mirrored(s.t.trades, step.id)
  }

  lemma GatewayRecords(s: State, step: Step)
    requires AllAccepted(s.m.inflight) && (step.GatewayCheckStep? || step.GatewayCommitStep?)
    ensures var n := Next(s, step);
            && n.h.ids == s.h.ids
            && (Records(s, step, step.id) ==>
                  n.m.inflight == s.m.inflight - {step.id}
                      && n.t.trades == s.t.trades + [MirrorRow(step.id, s.m.inflight[step.id])])
            && (!Records(s, step, step.id) ==> n.m.inflight == s.m.inflight && n.t.trades == s.t.trades)
  {
    hide MirrorRow, BookedAsPosition, FirstFill, HasFill, FillPrice, Owed, Replayed, Apply, Realized;
    OwedKeeps(s.m);
  }

  lemma RecordMirrors(s: State, step: Step, n: State)
    requires Tokens(s) && MirrorSound(s) && (step.GatewayCheckStep? || step.GatewayCommitStep?)
             && Records(s, step, step.id)
    requires n.h.ids == s.h.ids && n.m.inflight == s.m.inflight - {step.id}
    requires n.t.trades == s.t.trades + [MirrorRow(step.id, s.m.inflight[step.id])]
    ensures MirrorSound(n) && MirrorStep(s, step, n)
  {
    hide Tokens, TradesDistinct, Mirrored, MirrorRow, Accepted;
    InflightKnown(s, step.id);
    AppendTrade(s.t.trades, MirrorRow(step.id, s.m.inflight[step.id]));
    MirrorRowId(step.id, s.m.inflight[step.id]);
    NoEarlyInsert(s, step);
    hide Next, Records, InsertsEarly;
  }

  lemma InflightKnown(s: State, id: Id)
    requires Tokens(s) && id in s.m.inflight
    ensures id in s.h.ids.known
  {
    assert KnownAs(s.h.ids, id, s.m.inflight[id].order.side);
  }

  lemma NoEarlyInsert(s: State, step: Step)
    requires !step.JobCheckStep? && !step.JobCommitStep?
    ensures forall id :: !InsertsEarly(s, step, id)
  {}

  lemma GatewayMirrors(s: State, step: Step)
    requires Tokens(s) && MirrorSound(s) && (step.GatewayCheckStep? || step.GatewayCommitStep?)
    ensures MirrorSound(Next(s, step)) && MirrorStep(s, step, Next(s, step))
  {
    hide Tokens, TradesDistinct, Mirrored, MirrorRow, Accepted;
    GatewayRecords(s, step);
    NoEarlyInsert(s, step);
    if Records(s, step, step.id) {
      RecordMirrors(s, step, Next(s, step));
    }
    hide Next, Records, InsertsEarly;
  }

  lemma MirrorRowId(id: Id, k: Ticket)
    ensures MirrorRow(id, k).id == id
  {}

  lemma JobCloses(s: State, step: Step)
    requires (step.JobCheckStep? && s.m.job.Checking?) || (step.JobCommitStep? && s.m.job.Writing?)
    ensures var n, j := Next(s, step), s.m.job;
            && n.h.ids == s.h.ids && n.m.inflight == s.m.inflight
            && (n.t.trades == s.t.trades
                || (EndsOrder(s, step) && j.live
                    && n.t.trades == Closed(s.t.trades, TradeRow(j.id, j.result.status, FillSize(j.order, j.result),
                                                                 FillPrice(j.order, j.result)))))
            && (EndsOrder(s, step) && j.live && j.result.status.Filled? ==>
                  n.t.trades == Closed(s.t.trades, TradeRow(j.id, j.result.status, FillSize(j.order, j.result),
                                                            FillPrice(j.order, j.result))))
  {
    hide Closed, BookedAsPosition, FirstFill, HasFill, FillPrice, FillSize, Owed, Replayed, Apply, Realized;
    OwedKeeps(s.m);
  }

  lemma CloseMirrors(s: State, step: Step, n: State, row: TradeRow)
    requires MirrorSound(s) && EndsOrder(s, step) && s.m.job.live && s.m.job.id in s.h.ids.known
    requires row.id == s.m.job.id && row.status == s.m.job.result.status
    requires n.h.ids == s.h.ids && n.m.inflight == s.m.inflight && n.t.trades == Closed(s.t.trades, row)
    ensures MirrorSound(n) && MirrorStep(s, step, n)
  {
    hide TradesDistinct, TradesKnown, Mirrored, Closed, AllAccepted;
    ClosedKeepsRows(s.t.trades, row);
    assert !Doubles(s, step);
    hide EndsOrder, Records;
  }

  lemma StayMirrors(s: State, step: Step, n: State)
    requires MirrorSound(s) && (step.JobCheckStep? || step.JobCommitStep?)
    requires !(EndsOrder(s, step) && s.m.job.live && s.m.job.result.status.Filled?)
    requires n.h.ids == s.h.ids && n.m.inflight == s.m.inflight && n.t.trades == s.t.trades
    ensures MirrorSound(n) && MirrorStep(s, step, n)
  {
    hide TradesDistinct, TradesKnown, Mirrored, AllAccepted;
    assert !Doubles(s, step);
    hide EndsOrder, Records;
  }

  lemma JobMirrors(s: State, step: Step)
    requires Tokens(s) && MirrorSound(s) && (step.JobCheckStep? || step.JobCommitStep?)
    ensures MirrorSound(Next(s, step)) && MirrorStep(s, step, Next(s, step))
  {
    hide Tokens, MirrorSound, MirrorStep, Closed, FillSize, FillPrice;
    if (step.JobCheckStep? && s.m.job.Checking?) || (step.JobCommitStep? && s.m.job.Writing?) {
      var j := s.m.job;
      var row := TradeRow(j.id, j.result.status, FillSize(j.order, j.result), FillPrice(j.order, j.result));
      JobCloses(s, step);
      JobKnown(s);
      if EndsOrder(s, step) && j.live && Next(s, step).t.trades == Closed(s.t.trades, row) {
        CloseMirrors(s, step, Next(s, step), row);
      } else {
        StayMirrors(s, step, Next(s, step));
      }
    } else {
      StayMirrors(s, step, s);
    }
    hide EndsOrder;
  }

  lemma JobKnown(s: State)
    requires Tokens(s) && !s.m.job.Idle?
    ensures s.m.job.id in s.h.ids.known
  {
    OutsideMeans(s.h.ids, s.m.job.id, s.m.job.order);
  }

  lemma PlaceMirrors(s: State, id: Id, o: Order, r: Result, venue: string)
    requires Tokens(s) && MirrorSound(s)
    ensures var step := PlaceStep(id, o, r, venue); MirrorSound(Next(s, step)) && MirrorStep(s, step, Next(s, step))
  {
    if id !in s.h.ids.known && Accepted(r.status) {
      TrackedSplits(s.m, id, o, r, venue);
      assert !Mirrored(s.t.trades, id);
      NoEarlyInsert(s, PlaceStep(id, o, r, venue));
      hide Tokens, Tracked, BookedAsPosition, TradesDistinct, Mirrored, Accepted, InsertsEarly;
    }
  }

  lemma BystanderMirrors(s: State, step: Step)
    requires MirrorSound(s) && Bystander(step)
    ensures MirrorSound(Next(s, step)) && MirrorStep(s, step, Next(s, step))
  {
    BystanderDoes(s, step);
    BystanderStamps(s, step);
    NoEarlyInsert(s, step);
    hide Next, TradesDistinct, Mirrored, TradesKnown, Accepted, InsertsEarly;
  }

  lemma BystanderStamps(s: State, step: Step)
    requires Bystander(step)
    ensures var n := Next(s, step).t.trades;
            && (TradesDistinct(n) <==> TradesDistinct(s.t.trades))
            && (forall id :: Mirrored(s.t.trades, id) <==> Mirrored(n, id))
            && (forall h :: TradesKnown(s.t.trades, h) ==> TradesKnown(n, h))
  {
    if step.TtlCancelStep? || step.GatewayCancelStep? {
      StampsKeepRows(s.t.trades, step.id, Cancelled, step.GatewayCancelStep?);
    } else if step.SweepStep? {
      StampsKeepRows(s.t.trades, step.id, step.status, step.status.Errored?);
    }
    hide TradesDistinct, TradesKnown, Mirrored, Stamped, Materialized, Readable, PaperId, Terminal;
  }

  lemma OthersMirror(s: State, step: Step)
    requires MirrorSound(s)
    requires step.StartDeferredStep? || step.StartPollStep? || step.AdoptStep? || step.RestartStep?
             || step.PaperCheckStep?
    ensures MirrorSound(Next(s, step)) && MirrorStep(s, step, Next(s, step))
  {
    NoEarlyInsert(s, step);
    OthersLeaveTrades(s, step);
    hide Next, TradesDistinct, Mirrored, Accepted, InsertsEarly;
  }

  lemma OthersLeaveTrades(s: State, step: Step)
    requires step.StartDeferredStep? || step.StartPollStep? || step.AdoptStep? || step.RestartStep?
             || step.PaperCheckStep?
    ensures var n := Next(s, step);
            && n.t.trades == s.t.trades && (n.m.inflight == s.m.inflight || n.m.inflight == map[])
            && forall id :: id in s.h.ids.known ==> id in n.h.ids.known
  {
    hide Through, Remaining;
  }

  lemma StepMirrors(s: State, step: Step)
    requires Tokens(s) && MirrorSound(s)
    ensures MirrorSound(Next(s, step)) && MirrorStep(s, step, Next(s, step))
  {
    hide Tokens, MirrorSound, MirrorStep;
    match step
    case PlaceStep(id, o, r, venue) => PlaceMirrors(s, id, o, r, venue);
    case GatewayCheckStep(_) => GatewayMirrors(s, step);
    case GatewayCommitStep(_, _) => GatewayMirrors(s, step);
    case JobCheckStep => JobMirrors(s, step);
    case JobCommitStep(_) => JobMirrors(s, step);
    case StartDeferredStep => OthersMirror(s, step);
    case StartPollStep(_, _) => OthersMirror(s, step);
    case AdoptStep(_, _) => OthersMirror(s, step);
    case RestartStep => OthersMirror(s, step);
    case PaperCheckStep(_) => OthersMirror(s, step);
    case _ => BystanderMirrors(s, step);
  }

  // What a run did early, and what it doubled.

  ghost predicate EarlyAt(steps: seq<Step>, i: nat, id: Id) {
    i < |steps| && InsertsEarly(Run(START, steps[..i]), steps[i], id)
  }

  ghost predicate RecordedAt(steps: seq<Step>, j: nat, id: Id) {
    j < |steps| && Records(Run(START, steps[..j]), steps[j], id)
  }

  ghost predicate Early(steps: seq<Step>, id: Id) { exists i :: EarlyAt(steps, i, id) }

  /** The monitor closed the filled order first, the gateway recorded it afterwards. */
  ghost predicate ClosedThenRecorded(steps: seq<Step>, id: Id) {
    exists i, j :: i < j && EarlyAt(steps, i, id) && RecordedAt(steps, j, id)
  }

  lemma OneMoreEarly(steps: seq<Step>, id: Id)
    requires steps != []
    ensures var init := steps[..|steps| - 1];
            Early(steps, id) <==> Early(init, id) || InsertsEarly(Run(START, init), steps[|steps| - 1], id)
  {
    hide Run, InsertsEarly;
    var init := steps[..|steps| - 1];
    forall i: nat | i < |init| ensures EarlyAt(steps, i, id) <==> EarlyAt(init, i, id) {
      assert steps[..i] == init[..i];
    }
    assert EarlyAt(steps, |init|, id) <==> InsertsEarly(Run(START, init), steps[|steps| - 1], id);
  }

  lemma OneMoreClosed(steps: seq<Step>, id: Id)
    requires steps != []
    ensures var init := steps[..|steps| - 1];
            ClosedThenRecorded(steps, id)
            <==> ClosedThenRecorded(init, id) || (Early(init, id) && Records(Run(START, init), steps[|steps| - 1], id))
  {
    hide Run, InsertsEarly, Records;
    var init := steps[..|steps| - 1];
    var last: nat := |init|;
    forall i: nat | i < last
      ensures EarlyAt(steps, i, id) <==> EarlyAt(init, i, id)
      ensures RecordedAt(steps, i, id) <==> RecordedAt(init, i, id)
    {
      assert steps[..i] == init[..i];
    }
    assert RecordedAt(steps, last, id) <==> Records(Run(START, init), steps[last], id);
    if ClosedThenRecorded(steps, id) {
      var i: nat, j: nat :| i < j && EarlyAt(steps, i, id) && RecordedAt(steps, j, id);
      assert EarlyAt(init, i, id);
      assert j < last ==> RecordedAt(init, j, id);
    }
    if ClosedThenRecorded(init, id) {
      var i: nat, j: nat :| i < j && EarlyAt(init, i, id) && RecordedAt(init, j, id);
      assert EarlyAt(steps, i, id) && RecordedAt(steps, j, id);
    }
    if Early(init, id) && Records(Run(START, init), steps[last], id) {
      var i: nat :| EarlyAt(init, i, id);
      assert EarlyAt(steps, i, id) && RecordedAt(steps, last, id);
    }
  }

  /** Of the placements in flight, those closed early are the ones that have a row. */
  ghost predicate MirroredIsEarly(s: State, steps: seq<Step>) {
    && (forall id :: id in s.m.inflight ==> (Mirrored(s.t.trades, id) <==> Early(steps, id)))
    && (forall id :: Early(steps, id) ==> id in s.h.ids.known)
  }

  ghost predicate DistinctUnlessClosed(s: State, steps: seq<Step>) {
    TradesDistinct(s.t.trades) <==> forall id :: !ClosedThenRecorded(steps, id)
  }

  lemma EarlyIsKnown(s: State, step: Step, id: Id)
    requires Tokens(s) && InsertsEarly(s, step, id)
    ensures id in s.h.ids.known
  {
    assert KnownAs(s.h.ids, id, s.m.inflight[id].order.side);
  }

  lemma OneMoreStep(steps: seq<Step>)
    requires steps != []
    requires var s := Run(START, steps[..|steps| - 1]); Tokens(s) && MirroredIsEarly(s, steps[..|steps| - 1])
    requires var s := Run(START, steps[..|steps| - 1]);
             DistinctUnlessClosed(s, steps[..|steps| - 1])
                 && MirrorStep(s, steps[|steps| - 1], Next(s, steps[|steps| - 1]))
    ensures MirroredIsEarly(Next(Run(START, steps[..|steps| - 1]), steps[|steps| - 1]), steps)
    ensures DistinctUnlessClosed(Next(Run(START, steps[..|steps| - 1]), steps[|steps| - 1]), steps)
  {
    hide Run, Tokens, Mirrored, TradesDistinct, Early, ClosedThenRecorded, InsertsEarly;
    var init, step := steps[..|steps| - 1], steps[|steps| - 1];
    var s := Run(START, init);
    forall id
      ensures Early(steps, id) <==> Early(init, id) || InsertsEarly(s, step, id)
      ensures InsertsEarly(s, step, id) ==> id in s.h.ids.known
      ensures ClosedThenRecorded(steps, id)
         <==> ClosedThenRecorded(init, id) || (Early(init, id) && Records(s, step, id))
    {
      OneMoreEarly(steps, id);
      OneMoreClosed(steps, id);
      if InsertsEarly(s, step, id) {
        EarlyIsKnown(s, step, id);
      }
    }
    hide Next;
  }

  lemma {:induction false} RunMirrors(steps: seq<Step>)
    ensures MirrorSound(Run(START, steps))
    ensures MirroredIsEarly(Run(START, steps), steps) && DistinctUnlessClosed(Run(START, steps), steps)
  {
    if steps == [] {
      NothingMirrored();
    } else {
      hide Next, MirrorSound, MirrorStep, MirroredIsEarly, DistinctUnlessClosed, Tokens;
      var init := steps[..|steps| - 1];
      RunMirrors(init);
      RunSound(init);
      StepMirrors(Run(START, init), steps[|steps| - 1]);
      OneMoreStep(steps);
    }
  }

  lemma NothingMirrored()
    ensures MirrorSound(START) && MirroredIsEarly(START, []) && DistinctUnlessClosed(START, [])
  {
    assert TradesDistinct(START.t.trades);
  }

  /** Over every run, the trades mirror has two rows of one order if and only if the
      monitor closed some order as filled while its placement was in flight and not
      mirrored, and the gateway recorded that placement later. */
  lemma OneRowIffNoneClosedEarly(steps: seq<Step>)
    ensures !TradesDistinct(Run(START, steps).t.trades)
            <==> exists id, i, j :: i < j && EarlyAt(steps, i, id) && RecordedAt(steps, j, id)
  {
    hide Run, EarlyAt, RecordedAt, TradesDistinct;
    RunMirrors(steps);
    if !TradesDistinct(Run(START, steps).t.trades) {
      var id :| ClosedThenRecorded(steps, id);
    }
    if id, i: nat, j: nat :| i < j && EarlyAt(steps, i, id) && RecordedAt(steps, j, id) {
      assert ClosedThenRecorded(steps, id);
    }
  }

  ghost predicate NoneClosedEarly(steps: seq<Step>) {
    forall i: nat, id :: !EarlyAt(steps, i, id)
  }

  ghost predicate OneMirrorRow(s: State) {
    && TradesDistinct(s.t.trades) && TradesKnown(s.t.trades, s.h.ids)
    && forall id :: id in s.m.inflight ==> !Mirrored(s.t.trades, id)
  }

  /** If no poll closes a filled order before its placement is recorded, the trades
      mirror has one row per order, and none for a placement in flight. */
  lemma OneRowPerOrder(steps: seq<Step>)
    requires NoneClosedEarly(steps)
    ensures OneMirrorRow(Run(START, steps))
  {
    hide Run, EarlyAt, RecordedAt, TradesDistinct, Mirrored;
    RunMirrors(steps);
    assert forall id :: !Early(steps, id);
    assert forall id :: !ClosedThenRecorded(steps, id);
  }

  /** A poll that answers before the placement is recorded: the monitor inserts a row
      of its own, and the gateway then mirrors the same order as pending. */
  lemma EarlyPollDoublesTheRow(id: Id, o: Order)
    requires !o.key.paper && o.size > 0.0 && o.price > 0.0
    ensures var steps := [PlaceStep(id, o, Result(Pending, 0.0, o.price), o.venue),
                          StartPollStep(id, Result(Filled, o.size, o.price)),
                          JobCheckStep, JobCommitStep(true), GatewayCheckStep(id)];
            Run(START, steps).t.trades == [TradeRow(id, Filled, o.size, o.price),
                                           TradeRow(id, Pending, o.size, o.price)]
  {
    var placed, polled := Result(Pending, 0.0, o.price), Result(Filled, o.size, o.price);
    FirstPlaced(id, o);
    var s1 := Place(START, id, o, placed, o.venue);
    hide Place, StartPoll, JobCheck, JobCommit, GatewayCheck;
    EarlyClose(s1, id, o, polled);
    LateRecord(JobCommit(JobCheck(StartPoll(s1, id, polled)), true), id, o);
    RunOfFive(PlaceStep(id, o, placed, o.venue), StartPollStep(id, polled), JobCheckStep, JobCommitStep(true),
              GatewayCheckStep(id));
    StepsAre(START, s1, id, o, placed, polled);
    hide *;
  }

  lemma StepsAre(s: State, s1: State, id: Id, o: Order, placed: Result, polled: Result)
    ensures Next(s, PlaceStep(id, o, placed, o.venue)) == Place(s, id, o, placed, o.venue)
    ensures Next(Next(Next(Next(s1, StartPollStep(id, polled)), JobCheckStep), JobCommitStep(true)),
                 GatewayCheckStep(id))
         == GatewayCheck(JobCommit(JobCheck(StartPoll(s1, id, polled)), true), id)
  {
    hide Place, StartPoll, JobCheck, JobCommit, GatewayCheck;
  }

  lemma FirstPlaced(id: Id, o: Order)
    requires !o.key.paper
    ensures var placed := Result(Pending, 0.0, o.price);
            var s := Place(START, id, o, placed, o.venue);
            && s.m.inflight == map[id := Ticket(o, placed, o.venue)] && s.m.live == map[id := o]
            && s.m.job.Idle? && s.m.writing == {} && s.t == START.t
  {}

  lemma LateRecord(s: State, id: Id, o: Order)
    requires s.m.inflight == map[id := Ticket(o, Result(Pending, 0.0, o.price), o.venue)] && s.m.writing == {}
    requires o.price > 0.0
    ensures GatewayCheck(s, id).t.trades == s.t.trades + [TradeRow(id, Pending, o.size, o.price)]
  {}

  lemma EarlyClose(s: State, id: Id, o: Order, r: Result)
    requires s.m.job.Idle? && s.m.live == map[id := o] && !o.key.paper && s.t == START.t && s.m.writing == {}
    requires id in s.m.inflight && r == Result(Filled, o.size, o.price) && o.size > 0.0 && o.price > 0.0
    ensures var after := JobCommit(JobCheck(StartPoll(s, id, r)), true);
            && after.t.trades == [TradeRow(id, Filled, o.size, o.price)]
            && after.m.inflight == s.m.inflight && after.m.writing == {}
  {
    hide Apply;
    assert JobCheck(StartPoll(s, id, r)).m.job == Writing(id, o, r, true);
  }

  lemma RunOfFive(a: Step, b: Step, c: Step, d: Step, e: Step)
    ensures Run(START, [a, b, c, d, e]) == Next(Next(Next(Next(Next(START, a), b), c), d), e)
  {
    hide Next;
    assert [a, b, c, d, e][..4] == [a, b, c, d];
    assert [a, b, c, d][..3] == [a, b, c];
    assert [a, b, c][..2] == [a, b];
    assert [a, b][..1] == [a];
    assert [a][..0] == [];
    assert Run(START, [a][..0]) == START;
    assert Run(START, [a]) == Next(START, a);
    assert Run(START, [a, b]) == Next(Next(START, a), b);
    assert Run(START, [a, b, c]) == Next(Next(Next(START, a), b), c);
    assert Run(START, [a, b, c, d]) == Next(Next(Next(Next(START, a), b), c), d);
  }
}
