/** Coalescing telemetry writes into bounded transactions. Any number of callers
    append to one pending list; a flusher task, started on demand, drains it.
    A step is what runs between two awaits. */
module DeliveryBatcher {
  import opened Lists

  datatype Write = Write(id: nat, params: string)

  datatype Future = Waiting | Succeeded | Failed | Cancelled

  /** A flusher task: created but not yet run, at its `sleep(0)`, inside its
      transaction, or returned. */
  datatype Task = Scheduled | Yielded | Writing(batch: seq<Write>) | Returned

  datatype Batch = Batch(writes: seq<Write>, ok: bool)

  /** The last two fields are history: every write asked for, and every
      transaction that ended. The future of a write is found under its id. */
  datatype State = State(pending: seq<Write>, tasks: seq<Task>, futures: seq<Future>, rows: seq<Write>,
                         written: seq<Write>, ended: seq<Batch>)

  const LIMIT: nat := 64

  const IDLE := State([], [], [], [], [], [])

  predicate NeedsFlusher(tasks: seq<Task>) { tasks == [] || tasks[|tasks| - 1].Returned? }

  function Take(pending: seq<Write>): seq<Write> { if |pending| <= LIMIT then pending else pending[..LIMIT] }

  function Rest(pending: seq<Write>): seq<Write> { if |pending| <= LIMIT then [] else pending[LIMIT..] }

  /** Resolves each future of the batch that nothing resolved before. */
  function ResolveAll(futures: seq<Future>, batch: seq<Write>, outcome: Future): (r: seq<Future>)
    ensures |r| == |futures|
  {
    if batch == [] then futures
    else
      var before := ResolveAll(futures, batch[..|batch| - 1], outcome);
      var id := batch[|batch| - 1].id;
      if id < |before| && before[id].Waiting? then before[id := outcome] else before
  }

  function Outcome(ok: bool): Future { if ok then Succeeded else Failed }

  /** A task at the top of its loop. */
  function Looped(pending: seq<Write>): Task { if pending == [] then Returned else Yielded }

  datatype Step = Ask(params: string) | Cancel(id: nat) | Resume(task: nat, ok: bool)

  function Next(s: State, step: Step): State {
    match step
    case Ask(params) =>
      var w := Write(|s.futures|, params);
      s.(pending := s.pending + [w],
         futures := s.futures + [Waiting],
         written := s.written + [w],
         tasks := if NeedsFlusher(s.tasks) then s.tasks + [Scheduled] else s.tasks)
    case Cancel(id) =>
      if id < |s.futures| && s.futures[id].Waiting? then s.(futures := s.futures[id := Cancelled]) else s
    case Resume(t, ok) =>
      if t >= |s.tasks| then s
      else match s.tasks[t]
           case Scheduled => s.(tasks := s.tasks[t := Looped(s.pending)])
           case Yielded => s.(tasks := s.tasks[t := Writing(Take(s.pending))], pending := Rest(s.pending))
           case Writing(batch) =>
             s.(tasks := s.tasks[t := Looped(s.pending)],
                futures := ResolveAll(s.futures, batch, Outcome(ok)),
                rows := if ok then s.rows + batch else s.rows,
                ended := s.ended + [Batch(batch, ok)])
           case Returned => s
  }

  function Run(steps: seq<Step>): State {
    if steps == [] then IDLE else Next(Run(steps[..|steps| - 1]), steps[|steps| - 1])
  }

  class Batcher {
    var pending: seq<Write>
    var tasks: seq<Task>
    var futures: seq<Future>
    var rows: seq<Write>
    ghost var written: seq<Write>
    ghost var ended: seq<Batch>

    ghost function Snapshot(): State
      reads this
    {
      State(pending, tasks, futures, rows, written, ended)
    }

    constructor ()
      ensures Snapshot() == IDLE
    {
      pending, tasks, futures, rows, written, ended := [], [], [], [], [], [];
    }

    method Ask(params: string) returns (id: nat)
      modifies this
      ensures Snapshot() == Next(old(Snapshot()), Step.Ask(params))
      ensures id == |old(futures)|
    {
      id := |futures|;
      futures := futures + [Waiting];
      pending := pending + [Write(id, params)];
      written := written + [Write(id, params)];
      if tasks == [] || tasks[|tasks| - 1].Returned? {
        tasks := tasks + [Scheduled];
      }
    }

    method Resolve(batch: seq<Write>, outcome: Future)
      modifies this`futures
      ensures futures == ResolveAll(old(futures), batch, outcome)
    {
      var i := 0;
      while i < |batch|
        invariant 0 <= i <= |batch|
        invariant futures == ResolveAll(old(futures), batch[..i], outcome)
      {
        PrefixGrows(batch, i);
        var id := batch[i].id;
        if id < |futures| && futures[id].Waiting? {
          futures := futures[id := outcome];
        }
        i := i + 1;
      }
      WholePrefix(batch);
    }

    /** One stretch of the flusher: `ok` says how the transaction it was
        suspended in came out. */
    method ResumeFlush(t: nat, ok: bool)
      requires t < |tasks|
      modifies this
      ensures Snapshot() == Next(old(Snapshot()), Resume(t, ok))
    {
      match tasks[t] {
        case Returned =>
        case Yielded =>
          var batch := if |pending| <= LIMIT then pending else pending[..LIMIT];
          pending := if |pending| <= LIMIT then [] else pending[LIMIT..];
          tasks := tasks[t := Writing(batch)];
        case Scheduled =>
          tasks := tasks[t := if pending == [] then Returned else Yielded];
        case Writing(batch) =>
          if ok {
            rows := rows + batch;
            Resolve(batch, Succeeded);
          } else {
            Resolve(batch, Failed);
          }
          ended := ended + [Batch(batch, ok)];
          tasks := tasks[t := if pending == [] then Returned else Yielded];
      }
    }
  }

  // --- What every step keeps ------------------------------------------------

  function WritesOf(batches: seq<Batch>): seq<Write> {
    if batches == [] then [] else WritesOf(batches[..|batches| - 1]) + batches[|batches| - 1].writes
  }

  function CommittedOf(batches: seq<Batch>): seq<Write> {
    if batches == [] then []
    else
      var before := CommittedOf(batches[..|batches| - 1]);
      var last := batches[|batches| - 1];
      if last.ok then before + last.writes else before
  }

  function InFlight(s: State): seq<Write> {
    if s.tasks != [] && s.tasks[|s.tasks| - 1].Writing? then s.tasks[|s.tasks| - 1].batch else []
  }

  /** There is never a second live flusher, and pending writes have one. */
  ghost predicate OneFlusher(s: State) {
    && (forall t :: 0 <= t < |s.tasks| - 1 ==> s.tasks[t].Returned?)
    && (s.pending != [] ==> s.tasks != [] && !s.tasks[|s.tasks| - 1].Returned?)
    && (s.tasks != [] && s.tasks[|s.tasks| - 1].Yielded? ==> s.pending != [])
    && (s.tasks != [] && s.tasks[|s.tasks| - 1].Scheduled? ==> s.pending != [])
  }

  predicate Bounded(batch: seq<Write>) { 0 < |batch| <= 64 }

  /** Of more than that a full batch is taken, from the front. */
  lemma TakesFullBatch(pending: seq<Write>)
    ensures |pending| >= 64 ==> |Take(pending)| == 64
    ensures |pending| <= 64 ==> Take(pending) == pending
    ensures Take(pending) + Rest(pending) == pending
  {}

  ghost predicate BatchesBounded(s: State) {
    && (forall i :: 0 <= i < |s.ended| ==> Bounded(s.ended[i].writes))
    && (InFlight(s) != [] ==> Bounded(InFlight(s)))
    && (s.tasks != [] && s.tasks[|s.tasks| - 1].Writing? ==> InFlight(s) != [])
  }

  /** Nothing is dropped, duplicated or overtaken on its way to a transaction,
      and the table holds what the successful transactions wrote. */
  ghost predicate Conserved(s: State) {
    && WritesOf(s.ended) + InFlight(s) + s.pending == s.written
    && (forall i :: 0 <= i < |s.written| ==> s.written[i].id == i)
    && |s.futures| == |s.written|
    && s.rows == CommittedOf(s.ended)
  }

  /** Where a write's transaction came out, once it has. */
  function Verdict(batches: seq<Batch>, w: Write): Option<bool> {
    if batches == [] then None
    else if w in batches[|batches| - 1].writes then Some(batches[|batches| - 1].ok)
    else Verdict(batches[..|batches| - 1], w)
  }

  predicate Faithful(future: Future, verdict: Option<bool>) {
    match future
    case Waiting => verdict.None?
    case Succeeded => verdict == Some(true)
    case Failed => verdict == Some(false)
    case Cancelled => true
  }

  ghost predicate FuturesFaithful(s: State) {
    |s.futures| == |s.written| &&
    forall i :: 0 <= i < |s.written| ==> Faithful(s.futures[i], Verdict(s.ended, s.written[i]))
  }

  ghost predicate Invariant(s: State) {
    OneFlusher(s) && BatchesBounded(s) && Conserved(s) && FuturesFaithful(s)
  }

  lemma AskKeeps(s: State, params: string)
    requires Invariant(s)
    ensures Invariant(Next(s, Ask(params)))
  {
    hide ResolveAll, WritesOf, CommittedOf, Take, Rest, Bounded;
    var w := Write(|s.futures|, params);
    ConcatAssociates(WritesOf(s.ended) + InFlight(s), s.pending, [w]);
    assert InFlight(Next(s, Ask(params))) == InFlight(s);
    hide Verdict, Faithful;
    Unsettled(s, w);
    assert Faithful(Waiting, Verdict(s.ended, w)) by {
      NewIsFaithful();
    }
  }

  lemma NewIsFaithful()
    ensures Faithful(Waiting, None)
  {}

  /** A write beyond the transactions that ended has no verdict. */
  lemma Unsettled(s: State, w: Write)
    requires Conserved(s) && w.id >= |WritesOf(s.ended)|
    ensures Verdict(s.ended, w) == None
  {
    hide WritesOf;
    VerdictSome(s.ended, w);
    forall i | 0 <= i < |WritesOf(s.ended)| ensures WritesOf(s.ended)[i].id == i {
      assert s.written[i] == WritesOf(s.ended)[i];
    }
  }

  lemma {:induction false} VerdictSome(batches: seq<Batch>, w: Write)
    ensures Verdict(batches, w).Some? <==> w in WritesOf(batches)
    ensures Verdict(batches, w) == Some(true) ==> w in CommittedOf(batches)
  {
    if batches == [] {
    } else {
      VerdictSome(batches[..|batches| - 1], w);
    }
  }

  lemma CancelKeeps(s: State, id: nat)
    requires Invariant(s)
    ensures Invariant(Next(s, Cancel(id)))
  {
    hide WritesOf, CommittedOf, Verdict, Bounded;
  }

  /** Only the last task is ever live, so only it moves. */
  lemma OnlyLastMoves(s: State, t: nat, ok: bool)
    requires OneFlusher(s) && t < |s.tasks|
    ensures s.tasks[t].Returned? || t == |s.tasks| - 1
    ensures s.tasks[t].Returned? ==> Next(s, Resume(t, ok)) == s
  {}

  lemma StartKeeps(s: State, t: nat, ok: bool)
    requires Invariant(s) && t < |s.tasks| && s.tasks[t].Scheduled?
    ensures Invariant(Next(s, Resume(t, ok)))
  {
    hide WritesOf, CommittedOf, Verdict, Faithful, Bounded, ResolveAll, Take, Rest;
    OnlyLastMoves(s, t, ok);
  }

  lemma TakeSplits(pending: seq<Write>)
    ensures Take(pending) + Rest(pending) == pending
    ensures pending != [] ==> Bounded(Take(pending))
  {}

  lemma TakeKeeps(s: State, t: nat, ok: bool)
    requires Invariant(s) && t < |s.tasks| && s.tasks[t].Yielded?
    ensures Invariant(Next(s, Resume(t, ok)))
  {
    hide WritesOf, CommittedOf, Verdict, Faithful, ResolveAll, Take, Rest;
    OnlyLastMoves(s, t, ok);
    TakeSplits(s.pending);
    var after := Next(s, Resume(t, ok));
    assert InFlight(s) == [] && InFlight(after) == Take(s.pending);
    ConcatAssociates(WritesOf(s.ended), Take(s.pending), Rest(s.pending));
    assert WritesOf(s.ended) + [] == WritesOf(s.ended);
  }

  lemma {:induction false} ResolveExact(futures: seq<Future>, batch: seq<Write>, outcome: Future, id: nat)
    requires id < |futures| && !outcome.Waiting?
    ensures ResolveAll(futures, batch, outcome)[id] ==
            if futures[id].Waiting? && (exists i :: 0 <= i < |batch| && batch[i].id == id) then outcome else futures[id]
  {
    if batch == [] {
    } else {
      var init := batch[..|batch| - 1];
      ResolveExact(futures, init, outcome, id);
      if i :| 0 <= i < |batch| && batch[i].id == id {
        assert i < |init| ==> init[i].id == id;
      }
      if i :| 0 <= i < |init| && init[i].id == id {
        assert batch[i].id == id;
      }
    }
  }

  lemma WritesGrow(batches: seq<Batch>, b: Batch)
    ensures WritesOf(batches + [b]) == WritesOf(batches) + b.writes
    ensures CommittedOf(batches + [b]) == if b.ok then CommittedOf(batches) + b.writes else CommittedOf(batches)
    ensures forall w :: Verdict(batches + [b], w) == if w in b.writes then Some(b.ok) else Verdict(batches, w)
  {
    assert (batches + [b])[..|batches|] == batches;
  }

  lemma SettleConserves(s: State, t: nat, ok: bool)
    requires OneFlusher(s) && Conserved(s) && t < |s.tasks| && s.tasks[t].Writing?
    ensures Conserved(Next(s, Resume(t, ok)))
  {
    hide WritesOf, CommittedOf, ResolveAll, Take, Rest;
    OnlyLastMoves(s, t, ok);
    var batch := s.tasks[t].batch;
    WritesGrow(s.ended, Batch(batch, ok));
    var after := Next(s, Resume(t, ok));
    assert InFlight(s) == batch && InFlight(after) == [];
    assert WritesOf(after.ended) + [] == WritesOf(after.ended);
  }

  /** A transaction resolves the futures of its own batch and no others. */
  lemma SettleFaithful(s: State, t: nat, ok: bool)
    requires OneFlusher(s) && Conserved(s) && FuturesFaithful(s) && t < |s.tasks| && s.tasks[t].Writing?
    ensures FuturesFaithful(Next(s, Resume(t, ok)))
  {
    hide WritesOf, CommittedOf, ResolveAll, Take, Rest, Verdict, Faithful;
    OnlyLastMoves(s, t, ok);
    var batch := s.tasks[t].batch;
    WritesGrow(s.ended, Batch(batch, ok));
    var after := Next(s, Resume(t, ok));
    forall i | 0 <= i < |s.written| ensures Faithful(after.futures[i], Verdict(after.ended, s.written[i])) {
      ResolveExact(s.futures, batch, Outcome(ok), i);
      assert Faithful(s.futures[i], Verdict(s.ended, s.written[i]));
      BatchMembers(s, batch, i);
      if s.written[i] in batch {
        Unsettled(s, s.written[i]);
        assert Faithful(after.futures[i], Some(ok)) by {
          OutcomeFaithful(s.futures[i], ok);
        }
      }
    }
  }

  lemma OutcomeFaithful(future: Future, ok: bool)
    requires Faithful(future, None)
    ensures Faithful(if future.Waiting? then Outcome(ok) else future, Some(ok))
  {}

  lemma BatchMembers(s: State, batch: seq<Write>, i: nat)
    requires Conserved(s) && batch == InFlight(s) && i < |s.written|
    ensures (exists k :: 0 <= k < |batch| && batch[k].id == i) <==> s.written[i] in batch
    ensures s.written[i] in batch ==> i >= |WritesOf(s.ended)|
  {
    hide WritesOf, CommittedOf;
    var d := |WritesOf(s.ended)|;
    forall k | 0 <= k < |batch| ensures batch[k] == s.written[d + k] && batch[k].id == d + k {
      assert (WritesOf(s.ended) + batch)[d + k] == batch[k];
    }
  }

  lemma SettleKeeps(s: State, t: nat, ok: bool)
    requires Invariant(s) && t < |s.tasks| && s.tasks[t].Writing?
    ensures Invariant(Next(s, Resume(t, ok)))
  {
    hide WritesOf, CommittedOf, ResolveAll, Take, Rest, Verdict, Faithful, Conserved, FuturesFaithful, Bounded;
    OnlyLastMoves(s, t, ok);
    SettleConserves(s, t, ok);
    SettleFaithful(s, t, ok);
  }

  lemma StepKeeps(s: State, step: Step)
    requires Invariant(s)
    ensures Invariant(Next(s, step))
  {
    match step
    case Ask(params) => AskKeeps(s, params);
    case Cancel(id) => CancelKeeps(s, id);
    case Resume(t, ok) =>
      hide Invariant;
      if t < |s.tasks| {
        match s.tasks[t] {
          case Scheduled => StartKeeps(s, t, ok);
          case Yielded => TakeKeeps(s, t, ok);
          case Writing(_) => SettleKeeps(s, t, ok);
          case Returned =>
        }
      }
  }

  /** Every interleaving keeps the invariant: one flusher at most, none missing
      while writes wait, batches of at most 64, and nothing lost on the way. */
  lemma {:induction false} RunKeeps(steps: seq<Step>)
    ensures Invariant(Run(steps))
  {
    if steps == [] {
      IdleHolds();
    } else {
      hide Next, Invariant;
      RunKeeps(steps[..|steps| - 1]);
      StepKeeps(Run(steps[..|steps| - 1]), steps[|steps| - 1]);
    }
  }

  lemma IdleHolds()
    ensures Invariant(IDLE)
  {}

  // --- What a caller learns from its future ---------------------------------

  ghost predicate InWriteOrder(rows: seq<Write>) {
    forall i, j :: 0 <= i < j < |rows| ==> rows[i].id < rows[j].id
  }

  lemma {:induction false} CommittedInOrder(batches: seq<Batch>)
    requires forall i :: 0 <= i < |WritesOf(batches)| ==> WritesOf(batches)[i].id == i
    ensures InWriteOrder(CommittedOf(batches))
    ensures forall w :: w in CommittedOf(batches) ==> w.id < |WritesOf(batches)|
    ensures forall w :: w in CommittedOf(batches) ==> Verdict(batches, w) == Some(true)
  {
    if batches == [] {
    } else {
      var init := batches[..|batches| - 1];
      var last := batches[|batches| - 1];
      var d := |WritesOf(init)|;
      assert forall i :: 0 <= i < d ==> WritesOf(batches)[i] == WritesOf(init)[i];
      CommittedInOrder(init);
      forall k | 0 <= k < |last.writes| ensures last.writes[k].id == d + k {
        assert WritesOf(batches)[d + k] == last.writes[k];
      }
    }
  }

  /** A future that succeeded names a row committed exactly once, rows stand in
      the order of the writes, and a write whose future failed or still waits has
      no row. */
  lemma FutureTellsTruth(steps: seq<Step>, i: nat)
    requires i < |Run(steps).futures|
    ensures var s := Run(steps);
            && |s.written| == |s.futures|
            && InWriteOrder(s.rows)
            && (s.futures[i].Succeeded? ==> s.written[i] in s.rows)
            && (s.futures[i].Failed? || s.futures[i].Waiting? ==> s.written[i] !in s.rows)
  {
    hide Run, WritesOf, CommittedOf, Verdict;
    var s := Run(steps);
    RunKeeps(steps);
    forall i | 0 <= i < |WritesOf(s.ended)| ensures WritesOf(s.ended)[i].id == i {
      assert s.written[i] == WritesOf(s.ended)[i];
    }
    CommittedInOrder(s.ended);
    VerdictSome(s.ended, s.written[i]);
    assert Faithful(s.futures[i], Verdict(s.ended, s.written[i]));
  }

  /** A future resolves once: no later step changes how it came out. */
  lemma ResolvedForGood(s: State, step: Step, i: nat)
    requires i < |s.futures| && !s.futures[i].Waiting?
    ensures i < |Next(s, step).futures| && Next(s, step).futures[i] == s.futures[i]
  {
    if step.Resume? && step.task < |s.tasks| && s.tasks[step.task].Writing? {
      ResolveExact(s.futures, s.tasks[step.task].batch, Outcome(step.ok), i);
    }
  }

  // --- No lost wake-up --------------------------------------------------------

  /** How many stretches the flusher still needs. */
  function Work(s: State): nat {
    3 * |s.pending| +
    if s.tasks == [] then 0
    else match s.tasks[|s.tasks| - 1]
         case Scheduled => 2
         case Yielded => 1
         case Writing(_) => 2
         case Returned => 0
  }

  function LastTask(s: State): nat { if s.tasks == [] then 0 else |s.tasks| - 1 }

  /** A write that waits has a live flusher in front of it, and that flusher's
      next stretch brings it closer to being answered. */
  lemma WaitingIsServed(s: State, i: nat, ok: bool)
    requires Invariant(s) && i < |s.futures| && s.futures[i].Waiting?
    ensures s.tasks != [] && !s.tasks[LastTask(s)].Returned?
    ensures Work(Next(s, Resume(LastTask(s), ok))) < Work(s)
  {
    hide WritesOf, CommittedOf, Verdict, ResolveAll, Bounded;
    VerdictSome(s.ended, s.written[i]);
    assert Faithful(s.futures[i], Verdict(s.ended, s.written[i]));
    assert s.written[i] in WritesOf(s.ended) + InFlight(s) + s.pending;
    assert s.written[i] in InFlight(s) || s.written[i] in s.pending;
  }

  function Flushed(s: State, outcomes: seq<bool>): State {
    if outcomes == [] then s
    else
      var before := Flushed(s, outcomes[..|outcomes| - 1]);
      Next(before, Resume(LastTask(before), outcomes[|outcomes| - 1]))
  }

  lemma {:induction false} FlushingProgresses(s: State, outcomes: seq<bool>)
    requires Invariant(s)
    ensures Invariant(Flushed(s, outcomes))
    ensures (forall i :: 0 <= i < |Flushed(s, outcomes).futures| ==> !Flushed(s, outcomes).futures[i].Waiting?)
            || |outcomes| + Work(Flushed(s, outcomes)) <= Work(s)
  {
    if outcomes == [] {
    } else {
      hide Next, Invariant, Work;
      var init := outcomes[..|outcomes| - 1];
      var before := Flushed(s, init);
      var step := Resume(LastTask(before), outcomes[|outcomes| - 1]);
      FlushingProgresses(s, init);
      StepKeeps(before, step);
      if i :| 0 <= i < |before.futures| && before.futures[i].Waiting? {
        WaitingIsServed(before, i, step.ok);
      } else {
        NoneWaitingStays(before, step);
      }
    }
  }

  lemma NoneWaitingStays(s: State, step: Step)
    requires step.Resume?
    requires forall i :: 0 <= i < |s.futures| ==> !s.futures[i].Waiting?
    ensures forall i :: 0 <= i < |Next(s, step).futures| ==> !Next(s, step).futures[i].Waiting?
  {
    forall i | 0 <= i < |Next(s, step).futures| ensures !Next(s, step).futures[i].Waiting? {
      SameCount(s, step);
      ResolvedForGood(s, step, i);
    }
  }

  lemma SameCount(s: State, step: Step)
    requires step.Resume?
    ensures |Next(s, step).futures| == |s.futures|
  {}

  /** From any reachable state, left to run with whatever outcomes its
      transactions have, the flusher answers every write. */
  lemma FlusherAnswersAll(steps: seq<Step>, outcomes: seq<bool>)
    requires |outcomes| > Work(Run(steps))
    ensures var s := Flushed(Run(steps), outcomes);
            forall i :: 0 <= i < |s.futures| ==> !s.futures[i].Waiting?
  {
    hide Work, Flushed, Run;
    RunKeeps(steps);
    FlushingProgresses(Run(steps), outcomes);
  }
}
