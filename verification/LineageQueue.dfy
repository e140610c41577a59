/** The lineage observer's background writer: producers queue events and return
    at once, one worker writes them in batches with retries and a per-event
    fallback, and a sentinel in the queue asks it to stop. A step is what runs
    between two awaits. */
module LineageQueue {
  import opened Lists

  datatype Event = Event(kind: string, payload: string)

  datatype Outcome = Committed | Transient | Hard

  /** Where the worker is suspended: at `get`, in the `n`-th try of its batch, in
      the pause after that try, or in the write of the batch's `i`-th event alone. */
  datatype Phase = Waiting
                 | Trying(batch: seq<Event>, n: nat)
                 | Pausing(batch: seq<Event>, n: nat)
                 | Singly(batch: seq<Event>, i: nat)
                 | Stopped

  /** Where `close` is: not called, in `flush` (`drained` once the count of
      unfinished items touched zero), waiting for the worker, or back. */
  datatype Closer = Open | Flushing(drained: bool) | Draining | Closed

  datatype Settlement = Settlement(event: Event, committed: bool)

  /** A `None` in the queue is the sentinel. The last three fields are history:
      every event in queueing order, how each was settled, and how many had been
      queued when `close` was called. */
  datatype State = State(queue: seq<Option<Event>>, unfinished: int, phase: Phase, closer: Closer, rows: seq<Event>,
                         sent: seq<Event>, settled: seq<Settlement>, asked: nat)

  const LIMIT: nat := 64
  const TRIES: nat := 3

  const EMPTY := State([], 0, Waiting, Open, [], [], [], 0)

  datatype Step = Enqueue(event: Event) | Dequeue | Write(outcome: Outcome) | Wake | Close | FlushReturns | Join

  // --- Building a batch -------------------------------------------------------

  /** How many events stand at the front of the queue, up to a limit. */
  function Leading(queue: seq<Option<Event>>, room: nat): (k: nat)
    ensures k <= room && k <= |queue|
    ensures forall i :: 0 <= i < k ==> queue[i].Some?
    ensures k < room && k < |queue| ==> queue[k].None?
  {
    if room == 0 || queue == [] || queue[0].None? then 0 else 1 + Leading(queue[1..], room - 1)
  }

  function Values(queue: seq<Option<Event>>): seq<Event> {
    if queue == [] then []
    else
      var last := queue[|queue| - 1];
      var before := Values(queue[..|queue| - 1]);
      if last.Some? then before + [last.value] else before
  }

  function BatchOf(queue: seq<Option<Event>>): seq<Event> { Values(queue[..Leading(queue, LIMIT)]) }

  /** The batch loop ran into the sentinel and took it off the queue. */
  predicate SwallowsStop(queue: seq<Option<Event>>) {
    Leading(queue, LIMIT) < LIMIT && Leading(queue, LIMIT) < |queue|
  }

  function AfterBatch(queue: seq<Option<Event>>): seq<Option<Event>> {
    var k := Leading(queue, LIMIT);
    if SwallowsStop(queue) then queue[k + 1..] else queue[k..]
  }

  // --- Steps ------------------------------------------------------------------

  function Verdicts(events: seq<Event>, committed: bool): seq<Settlement> {
    seq(|events|, i requires 0 <= i < |events| => Settlement(events[i], committed))
  }

  function Noted(closer: Closer, unfinished: int): Closer {
    if closer.Flushing? && unfinished == 0 then closer.(drained := true) else closer
  }

  /** The `finally` clause: `task_done` for each item of the batch. */
  function Done(s: State, count: nat): State {
    s.(phase := Waiting, unfinished := s.unfinished - count, closer := Noted(s.closer, s.unfinished - count))
  }

  function Settle(s: State, events: seq<Event>, committed: bool): State {
    s.(rows := if committed then s.rows + events else s.rows, settled := s.settled + Verdicts(events, committed))
  }

  function TryEnds(s: State, batch: seq<Event>, n: nat, outcome: Outcome): State {
    if outcome.Committed? then Done(Settle(s, batch, true), |batch|)
    else if outcome.Transient? && n + 1 < TRIES then s.(phase := Pausing(batch, n))
    else if |batch| == 1 then Done(Settle(s, batch, false), 1)
    else s.(phase := Singly(batch, 0))
  }

  function SingleEnds(s: State, batch: seq<Event>, i: nat, outcome: Outcome): State
    requires i < |batch|
  {
    var next := Settle(s, [batch[i]], outcome.Committed?);
    if i + 1 == |batch| then Done(next, |batch|) else next.(phase := Singly(batch, i + 1))
  }

  function PutStop(s: State): State {
    s.(queue := s.queue + [None], unfinished := s.unfinished + 1, closer := Draining)
  }

  function Call(s: State): State {
    var asked := s.(asked := |s.sent|);
    if s.unfinished == 0 then PutStop(asked) else asked.(closer := Flushing(false))
  }

  function Next(s: State, step: Step): State {
    match step
    case Enqueue(e) => s.(queue := s.queue + [Some(e)], unfinished := s.unfinished + 1, sent := s.sent + [e])
    case Dequeue =>
      if !s.phase.Waiting? || s.queue == [] then s
      else if s.queue[0].None? then
        s.(queue := s.queue[1..], unfinished := s.unfinished - 1, phase := Stopped)
      else
        s.(queue := AfterBatch(s.queue), phase := Trying(BatchOf(s.queue), 0),
           unfinished := if SwallowsStop(s.queue) then s.unfinished - 1 else s.unfinished)
    case Write(outcome) =>
      (match s.phase
       case Trying(batch, n) => TryEnds(s, batch, n, outcome)
       case Singly(batch, i) => if i < |batch| then SingleEnds(s, batch, i, outcome) else s
       case _ => s)
    case Wake => if s.phase.Pausing? then s.(phase := Trying(s.phase.batch, s.phase.n + 1)) else s
    case Close =>
      if s.closer.Open? then Call(s) else s
    case FlushReturns => if s.closer.Flushing? && s.closer.drained then PutStop(s) else s
    case Join => if s.closer.Draining? && s.phase.Stopped? then s.(closer := Closed) else s
  }

  function Run(s: State, steps: seq<Step>): State {
    if steps == [] then s else Next(Run(s, steps[..|steps| - 1]), steps[|steps| - 1])
  }

  predicate OfWorker(step: Step) { step.Dequeue? || step.Write? || step.Wake? }

  predicate OfOthers(steps: seq<Step>) {
    forall i :: 0 <= i < |steps| ==> !OfWorker(steps[i])
  }

  lemma RunOneMore(s: State, steps: seq<Step>, step: Step)
    ensures Run(s, steps + [step]) == Next(Run(s, steps), step)
  {
    assert (steps + [step])[..|steps|] == steps;
  }

  // --- The observer -----------------------------------------------------------

  class LineageObserver {
    var queue: seq<Option<Event>>
    var unfinished: int
    var closer: Closer
    var rows: seq<Event>
    var running: bool
    ghost var phase: Phase
    ghost var sent: seq<Event>
    ghost var settled: seq<Settlement>
    ghost var asked: nat

    ghost function Snapshot(): State
      reads this
    {
      State(queue, unfinished, phase, closer, rows, sent, settled, asked)
    }

    ghost predicate Valid()
      reads this
    {
      running <==> !phase.Stopped?
    }

    constructor ()
      ensures Valid() && Snapshot() == EMPTY
    {
      queue, unfinished, closer, rows, running := [], 0, Open, [], true;
      phase, sent, settled, asked := Waiting, [], [], 0;
    }

    method PutNowait(e: Event)
      requires Valid()
      modifies this
      ensures Valid() && Snapshot() == Next(old(Snapshot()), Enqueue(e))
    {
      queue := queue + [Some(e)];
      unfinished := unfinished + 1;
      sent := sent + [e];
    }

    method PutSentinel()
      requires Valid()
      modifies this
      ensures Valid() && Snapshot() == PutStop(old(Snapshot()))
    {
      queue := queue + [None];
      unfinished := unfinished + 1;
      closer := Draining;
    }

    /** The first stretch of `close`, up to where it has to wait. */
    method CallClose()
      requires Valid()
      modifies this
      ensures Valid() && Snapshot() == Next(old(Snapshot()), Close)
    {
      if closer != Open {
        return;
      }
      asked := |sent|;
      if unfinished == 0 {
        PutSentinel();
      } else {
        closer := Flushing(false);
      }
    }

    /** What the rest of the program does while the worker awaits. */
    method Await(others: seq<Step>, ghost start: State, ghost script: seq<Step>) returns (ghost after: seq<Step>)
      requires Valid() && OfOthers(others) && Snapshot() == Run(start, script)
      modifies this
      ensures Valid() && Snapshot() == Run(start, after) && phase == old(phase)
    {
      hide Run;
      after := script;
      var i := 0;
      while i < |others|
        invariant 0 <= i <= |others|
        invariant Valid() && Snapshot() == Run(start, after) && phase == old(phase)
      {
        RunOneMore(start, after, others[i]);
        after := after + [others[i]];
        match others[i] {
          case Enqueue(e) => PutNowait(e);
          case Close => CallClose();
          case FlushReturns =>
            if closer.Flushing? && closer.drained {
              PutSentinel();
            }
          case Join =>
            if closer.Draining? && !running {
              closer := Closed;
            }
        }
        i := i + 1;
      }
    }

    method TaskDone(count: nat)
      requires Valid() && running
      modifies this`unfinished, this`closer, this`phase
      ensures Valid() && phase == Waiting && Snapshot() == Done(old(Snapshot()), count)
    {
      unfinished := unfinished - count;
      if closer.Flushing? && unfinished == 0 {
        closer := closer.(drained := true);
      }
      phase := Waiting;
    }

    /** Extends a batch of one until it is full, the queue is empty, or the
        sentinel turns up and is taken off. */
    method FillBatch(first: Event, ghost all: seq<Option<Event>>) returns (batch: seq<Event>)
      requires all != [] && all[0] == Some(first) && queue == all[1..]
      modifies this`queue, this`unfinished
      ensures batch == BatchOf(all) && queue == AfterBatch(all)
      ensures unfinished == if SwallowsStop(all) then old(unfinished) - 1 else old(unfinished)
    {
      hide Values, Leading;
      batch := [first];
      FirstTaken(all);
      while |batch| < LIMIT && queue != []
        invariant 1 <= |batch| <= LIMIT && |batch| <= |all|
        invariant queue == all[|batch|..] && unfinished == old(unfinished)
        invariant batch == Values(all[..|batch|])
        invariant Leading(all, LIMIT) == |batch| + Leading(queue, LIMIT - |batch|)
      {
        var queued := queue[0];
        OneMoreTaken(all, |batch|, queue, LIMIT - |batch|);
        queue := queue[1..];
        if queued.None? {
          unfinished := unfinished - 1;
          return;
        }
        batch := batch + [queued.value];
      }
      NoneTaken(queue, LIMIT - |batch|);
    }

    /** From `get` to the start of the first transaction. */
    method TakeBatch() returns (batch: seq<Event>)
      requires Valid() && phase.Waiting? && queue != []
      modifies this
      ensures Valid() && Snapshot() == Next(old(Snapshot()), Dequeue)
      ensures running ==> phase == Trying(batch, 0)
    {
      hide BatchOf, AfterBatch, SwallowsStop;
      var first := queue[0];
      queue := queue[1..];
      batch := [];
      if first.None? {
        unfinished := unfinished - 1;
        running := false;
        phase := Stopped;
        return;
      }
      batch := FillBatch(first.value, old(queue));
      phase := Trying(batch, 0);
    }

    /** All the tries of one batch. `outcome` says how the `j`-th transaction of
        this call comes out, `others` what happens while the worker is in its
        `j`-th await. */
    method WriteBatch(batch: seq<Event>, outcome: nat -> Outcome, others: nat -> seq<Step>)
      returns (ghost script: seq<Step>)
      requires Valid() && batch != [] && phase == Trying(batch, 0)
      requires forall j: nat :: OfOthers(others(j))
      modifies this
      ensures Valid() && Snapshot() == Run(old(Snapshot()), script) && phase.Waiting?
    {
      hide Run, Settle, Done, OfOthers;
      ghost var start := Snapshot();
      script := [];
      RunOfNothing(start);
      var attempt, clock := 0, 0;
      while attempt < TRIES
        invariant attempt < TRIES
        invariant Valid() && phase == Trying(batch, attempt)
        invariant Snapshot() == Run(start, script)
        decreases TRIES - attempt
      {
        script := Await(others(clock), start, script);
        var result := outcome(clock);
        clock := clock + 1;
        RunOneMore(start, script, Write(result));
        script := script + [Write(result)];
        if result == Committed {
          Book(batch, true);
          TaskDone(|batch|);
          return;
        }
        if result != Transient || attempt == TRIES - 1 {
          if |batch| == 1 {
            Book(batch, false);
            TaskDone(1);
            return;
          }
          phase := Singly(batch, 0);
          break;
        }
        phase := Pausing(batch, attempt);
        script := Await(others(clock), start, script);
        clock := clock + 1;
        RunOneMore(start, script, Wake);
        script := script + [Wake];
        attempt := attempt + 1;
        phase := Trying(batch, attempt);
      }
      script := WriteSingly(batch, outcome, others, clock, start, script);
    }

    /** The per-event fallback. */
    method WriteSingly(batch: seq<Event>, outcome: nat -> Outcome, others: nat -> seq<Step>, from: nat,
                       ghost start: State, ghost before: seq<Step>)
      returns (ghost script: seq<Step>)
      requires Valid() && batch != [] && phase == Singly(batch, 0)
      requires forall j: nat :: OfOthers(others(j))
      requires Snapshot() == Run(start, before)
      modifies this
      ensures Valid() && Snapshot() == Run(start, script) && phase.Waiting?
    {
      hide Run, Settle, Done, OfOthers;
      script := before;
      var i := 0;
      while i < |batch|
        invariant 0 <= i <= |batch|
        invariant Valid() && phase == (if i < |batch| then Singly(batch, i) else Waiting)
        invariant Snapshot() == Run(start, script)
      {
        script := Await(others(from + i), start, script);
        var result := outcome(from + i);
        RunOneMore(start, script, Write(result));
        script := script + [Write(result)];
        Book([batch[i]], result == Committed);
        i := i + 1;
        if i == |batch| {
          TaskDone(|batch|);
        } else {
          phase := Singly(batch, i);
        }
      }
    }

    method Book(events: seq<Event>, committed: bool)
      modifies this`rows, this`settled
      ensures Snapshot() == Settle(old(Snapshot()), events, committed)
    {
      if committed {
        rows := rows + events;
      }
      settled := settled + Verdicts(events, committed);
    }
  }

  lemma RunOfNothing(s: State)
    ensures Run(s, []) == s
  {}

  lemma OneMoreTaken(all: seq<Option<Event>>, taken: nat, queue: seq<Option<Event>>, room: nat)
    requires taken < |all| && queue == all[taken..] && room > 0
    ensures all[taken..][1..] == all[taken + 1..]
    ensures queue[0].Some? ==> Values(all[..taken + 1]) == Values(all[..taken]) + [queue[0].value]
    ensures queue[0].Some? ==> Leading(queue, room) == 1 + Leading(queue[1..], room - 1)
    ensures queue[0].None? ==> Leading(queue, room) == 0
  {
    hide Leading;
    PrefixGrows(all, taken);
    LeadingStep(queue, room);
  }

  lemma LeadingStep(queue: seq<Option<Event>>, room: nat)
    requires queue != [] && room > 0
    ensures Leading(queue, room) == if queue[0].None? then 0 else 1 + Leading(queue[1..], room - 1)
  {}

  lemma NoneTaken(queue: seq<Option<Event>>, room: nat)
    requires queue == [] || room == 0
    ensures Leading(queue, room) == 0
  {}

  lemma FirstTaken(queue: seq<Option<Event>>)
    requires queue != [] && queue[0].Some?
    ensures Values(queue[..1]) == [queue[0].value]
    ensures Leading(queue, LIMIT) == 1 + Leading(queue[1..], LIMIT - 1)
  {
    assert queue[..1][..0] == [];
  }

  // --- What every step keeps ----------------------------------------------------

  function InHand(phase: Phase): nat {
    match phase
    case Waiting => 0
    case Stopped => 0
    case Trying(batch, _) => |batch|
    case Pausing(batch, _) => |batch|
    case Singly(batch, _) => |batch|
  }

  /** The events of the batch in hand that are not settled yet. */
  function Remaining(phase: Phase): seq<Event> {
    match phase
    case Waiting => []
    case Stopped => []
    case Trying(batch, _) => batch
    case Pausing(batch, _) => batch
    case Singly(batch, i) => if i <= |batch| then batch[i..] else []
  }

  function Named(settled: seq<Settlement>): seq<Event> {
    seq(|settled|, i requires 0 <= i < |settled| => settled[i].event)
  }

  function CommittedOf(settled: seq<Settlement>): seq<Event> {
    if settled == [] then []
    else
      var before := CommittedOf(settled[..|settled| - 1]);
      var last := settled[|settled| - 1];
      if last.committed then before + [last.event] else before
  }

  predicate NoStop(queue: seq<Option<Event>>) {
    forall i :: 0 <= i < |queue| ==> queue[i].Some?
  }

  predicate StopAt(queue: seq<Option<Event>>, k: nat) {
    k < |queue| && queue[k].None? && forall i :: 0 <= i < |queue| && i != k ==> queue[i].Some?
  }

  /** How many events stand ahead of the first sentinel. */
  function Ahead(queue: seq<Option<Event>>): nat { Leading(queue, |queue|) }

  predicate OneStop(queue: seq<Option<Event>>) { StopAt(queue, Ahead(queue)) }

  predicate Counted(s: State) { s.unfinished == |s.queue| + InHand(s.phase) }

  predicate Conserved(s: State) {
    && Named(s.settled) + Remaining(s.phase) + Values(s.queue) == s.sent
    && s.rows == CommittedOf(s.settled)
  }

  predicate PhaseSound(phase: Phase) {
    match phase
    case Waiting => true
    case Stopped => true
    case Trying(batch, n) => 0 < |batch| <= LIMIT && n < TRIES
    case Pausing(batch, n) => 0 < |batch| <= LIMIT && n + 1 < TRIES
    case Singly(batch, i) => 1 < |batch| <= LIMIT && i < |batch|
  }

  predicate StopSound(s: State) {
    && (s.closer.Open? || s.closer.Flushing? ==> NoStop(s.queue) && !s.phase.Stopped?)
    && (s.phase.Stopped? ==> NoStop(s.queue))
    && (NoStop(s.queue) || OneStop(s.queue))
  }

  predicate FlushSound(s: State) {
    && (!s.closer.Open? ==> s.asked <= |s.sent|)
    && (s.closer.Draining? || s.closer.Closed? || (s.closer.Flushing? && s.closer.drained) ==> s.asked <= |s.settled|)
  }

  ghost predicate Invariant(s: State) {
    Counted(s) && Conserved(s) && PhaseSound(s.phase) && StopSound(s) && FlushSound(s)
  }

  lemma {:induction false} ValuesConcat(a: seq<Option<Event>>, b: seq<Option<Event>>)
    ensures Values(a + b) == Values(a) + Values(b)
  {
    if b == [] {
      assert a + b == a;
    } else {
      assert (a + b)[..|a + b| - 1] == a + b[..|b| - 1];
      ValuesConcat(a, b[..|b| - 1]);
    }
  }

  lemma {:induction false} ValuesCount(queue: seq<Option<Event>>)
    requires NoStop(queue)
    ensures |Values(queue)| == |queue|
  {
    if queue == [] {
    } else {
      ValuesCount(queue[..|queue| - 1]);
    }
  }

  lemma ValuesOfOne(x: Option<Event>)
    ensures Values([x]) == if x.Some? then [x.value] else []
  {
    assert [x][..0] == [];
  }

  lemma CommittedStep(settled: seq<Settlement>, x: Settlement)
    ensures CommittedOf(settled + [x]) == if x.committed then CommittedOf(settled) + [x.event] else CommittedOf(settled)
  {
    assert (settled + [x])[..|settled|] == settled;
  }

  lemma VerdictsStep(events: seq<Event>, event: Event, committed: bool)
    ensures Verdicts(events + [event], committed) == Verdicts(events, committed) + [Settlement(event, committed)]
  {}

  lemma {:induction false} CommittedGrows(settled: seq<Settlement>, events: seq<Event>, committed: bool)
    ensures CommittedOf(settled + Verdicts(events, committed))
         == if committed then CommittedOf(settled) + events else CommittedOf(settled)
  {
    if events == [] {
      assert settled + Verdicts(events, committed) == settled;
    } else {
      hide CommittedOf, Verdicts;
      var init, last := events[..|events| - 1], events[|events| - 1];
      assert events == init + [last];
      CommittedGrows(settled, init, committed);
      VerdictsStep(init, last, committed);
      ConcatAssociates(settled, Verdicts(init, committed), [Settlement(last, committed)]);
      CommittedStep(settled + Verdicts(init, committed), Settlement(last, committed));
      ConcatAssociates(CommittedOf(settled), init, [last]);
    }
  }

  lemma NamedGrows(settled: seq<Settlement>, events: seq<Event>, committed: bool)
    ensures Named(settled + Verdicts(events, committed)) == Named(settled) + events
  {}

  /** A batch takes the events at the front of the queue, in order; what it takes
      beside them is at most one sentinel. */
  lemma BatchSplits(queue: seq<Option<Event>>)
    requires queue != [] && queue[0].Some?
    ensures 0 < |BatchOf(queue)| <= LIMIT
    ensures BatchOf(queue) + Values(AfterBatch(queue)) == Values(queue)
    ensures |queue| == |BatchOf(queue)| + |AfterBatch(queue)| + if SwallowsStop(queue) then 1 else 0
  {
    hide Values, Leading;
    var k := Leading(queue, LIMIT);
    LeadingStep(queue, LIMIT);
    ValuesCount(queue[..k]);
    assert queue == queue[..k] + queue[k..];
    ValuesConcat(queue[..k], queue[k..]);
    if SwallowsStop(queue) {
      assert queue[k..] == [queue[k]] + queue[k + 1..];
      ValuesConcat([queue[k]], queue[k + 1..]);
      ValuesOfOne(queue[k]);
    }
  }

  lemma StopPlace(queue: seq<Option<Event>>, k: nat)
    requires StopAt(queue, k)
    ensures Ahead(queue) == k
    ensures Leading(queue, LIMIT) == if k >= LIMIT then LIMIT else k
  {
    hide Leading;
  }

  lemma AfterBatchStops(queue: seq<Option<Event>>)
    requires queue != [] && queue[0].Some?
    ensures NoStop(queue) ==> NoStop(AfterBatch(queue)) && !SwallowsStop(queue)
    ensures OneStop(queue) && Ahead(queue) < LIMIT ==> SwallowsStop(queue) && NoStop(AfterBatch(queue))
    ensures OneStop(queue) && Ahead(queue) >= LIMIT ==>
              !SwallowsStop(queue) && OneStop(AfterBatch(queue)) && Ahead(AfterBatch(queue)) == Ahead(queue) - LIMIT
  {
    hide Leading;
    if OneStop(queue) {
      StopPlace(queue, Ahead(queue));
      if Ahead(queue) >= LIMIT {
        StopPlace(AfterBatch(queue), Ahead(queue) - LIMIT);
      }
    }
  }

  lemma AppendStops(queue: seq<Option<Event>>, e: Event)
    ensures NoStop(queue) ==> NoStop(queue + [Some(e)])
    ensures OneStop(queue) ==> OneStop(queue + [Some(e)]) && Ahead(queue + [Some(e)]) == Ahead(queue)
  {
    hide Leading;
    if OneStop(queue) {
      StopPlace(queue + [Some(e)], Ahead(queue));
    }
  }

  lemma PutStopStops(queue: seq<Option<Event>>)
    requires NoStop(queue)
    ensures OneStop(queue + [None]) && Ahead(queue + [None]) == |queue|
  {
    hide Leading;
    StopPlace(queue + [None], |queue|);
  }

  lemma EnqueueKeeps(s: State, e: Event)
    requires Invariant(s)
    ensures Invariant(Next(s, Enqueue(e)))
  {
    hide Values, NoStop, OneStop, CommittedOf;
    AppendStops(s.queue, e);
    ValuesConcat(s.queue, [Some(e)]);
    ValuesOfOne(Some(e));
    ConcatAssociates(Named(s.settled) + Remaining(s.phase), Values(s.queue), [e]);
  }

  lemma DequeueKeeps(s: State)
    requires Invariant(s)
    ensures Invariant(Next(s, Dequeue))
  {
    hide Values, CommittedOf, BatchOf, AfterBatch, SwallowsStop, Leading;
    if s.phase.Waiting? && s.queue != [] {
      var queue := s.queue;
      if queue[0].None? {
        assert queue == [queue[0]] + queue[1..];
        ValuesConcat([queue[0]], queue[1..]);
        ValuesOfOne(queue[0]);
        StopPlace(queue, 0);
      } else {
        BatchSplits(queue);
        AfterBatchStops(queue);
        hide NoStop, OneStop;
        ConcatAssociates(Named(s.settled), BatchOf(queue), Values(AfterBatch(queue)));
      }
    }
  }

  lemma SettleConserves(s: State, events: seq<Event>, committed: bool, rest: seq<Event>)
    requires Conserved(s) && Remaining(s.phase) == events + rest
    ensures var t := Settle(s, events, committed);
            && Named(t.settled) + rest + Values(t.queue) == t.sent
            && t.rows == CommittedOf(t.settled)
            && |t.settled| == |s.settled| + |events|
  {
    hide Values, CommittedOf;
    NamedGrows(s.settled, events, committed);
    CommittedGrows(s.settled, events, committed);
    ConcatAssociates(Named(s.settled), events, rest);
  }

  /** When the last unfinished item is done, every event queued is settled. */
  lemma DoneKeeps(s: State, count: nat)
    requires s.unfinished == |s.queue| + count && !s.phase.Stopped? && StopSound(s) && FlushSound(s)
    requires Named(s.settled) + Values(s.queue) == s.sent && s.rows == CommittedOf(s.settled)
    ensures Invariant(Done(s, count))
  {
    hide CommittedOf, OneStop, NoStop;
    assert Named(s.settled) + [] + Values(s.queue) == Named(s.settled) + Values(s.queue);
    if s.unfinished == count {
      assert s.queue == [] && Values(s.queue) == [];
    }
  }

  lemma TryKeeps(s: State, outcome: Outcome)
    requires Invariant(s) && s.phase.Trying?
    ensures Invariant(Next(s, Write(outcome)))
  {
    hide Values, CommittedOf, OneStop, NoStop, Named, Settle;
    var batch := s.phase.batch;
    assert batch + [] == batch;
    var committed := outcome.Committed?;
    SettleConserves(s, batch, committed, []);
    SettleFrames(s, batch, committed);
    var t := Settle(s, batch, committed);
    assert Named(t.settled) + [] == Named(t.settled);
    DoneKeeps(t, |batch|);
    assert batch[0..] == batch;
  }

  lemma SettleFrames(s: State, events: seq<Event>, committed: bool)
    ensures var t := Settle(s, events, committed);
            && t.queue == s.queue && t.unfinished == s.unfinished && t.phase == s.phase
            && t.closer == s.closer && t.sent == s.sent && t.asked == s.asked
  {}

  lemma SinglyKeeps(s: State, outcome: Outcome)
    requires Invariant(s) && s.phase.Singly?
    ensures Invariant(Next(s, Write(outcome)))
  {
    hide Values, CommittedOf, OneStop, NoStop, Named, Settle;
    var batch, i := s.phase.batch, s.phase.i;
    var committed := outcome.Committed?;
    assert batch[i..] == [batch[i]] + batch[i + 1..];
    SettleConserves(s, [batch[i]], committed, batch[i + 1..]);
    SettleFrames(s, [batch[i]], committed);
    var t := Settle(s, [batch[i]], committed);
    if i + 1 == |batch| {
      assert batch[i + 1..] == [];
      assert Named(t.settled) + [] == Named(t.settled);
      DoneKeeps(t, |batch|);
    }
  }

  lemma OthersKeep(s: State, step: Step)
    requires Invariant(s) && (step.Wake? || step.Close? || step.FlushReturns? || step.Join?)
    ensures Invariant(Next(s, step))
  {
    hide Values, CommittedOf, OneStop, NoStop, Named, PutStop;
    if NoStop(s.queue) && !s.phase.Stopped? {
      PutStopKeeps(s, s.asked);
      PutStopKeeps(s, |s.sent|);
    }
  }

  lemma PutStopKeeps(s: State, asked: nat)
    requires Invariant(s) && NoStop(s.queue) && !s.phase.Stopped?
    ensures asked <= |s.settled| ==> Invariant(PutStop(s.(asked := asked)))
    ensures s.unfinished == 0 ==> |s.sent| == |s.settled|
  {
    hide CommittedOf, OneStop, NoStop;
    PutStopStops(s.queue);
    ValuesConcat(s.queue, [None]);
    ValuesOfOne(None);
    assert Values(s.queue) + [] == Values(s.queue);
  }

  lemma StepKeeps(s: State, step: Step)
    requires Invariant(s)
    ensures Invariant(Next(s, step))
  {
    hide Invariant;
    match step
    case Enqueue(e) => EnqueueKeeps(s, e);
    case Dequeue => DequeueKeeps(s);
    case Write(outcome) =>
      if s.phase.Trying? { TryKeeps(s, outcome); }
      if s.phase.Singly? { SinglyKeeps(s, outcome); }
    case _ => OthersKeep(s, step);
  }

  lemma EmptyHolds()
    ensures Invariant(EMPTY)
  {}

  lemma {:induction false} RunKeeps(s: State, steps: seq<Step>)
    requires Invariant(s)
    ensures Invariant(Run(s, steps))
  {
    if steps == [] {
    } else {
      hide Next, Invariant;
      RunKeeps(s, steps[..|steps| - 1]);
      StepKeeps(Run(s, steps[..|steps| - 1]), steps[|steps| - 1]);
    }
  }

  // --- What producers and callers of flush may rely on ---------------------------

  /** Events are settled in queueing order, each once, as committed or as failed,
      and the rows are the committed ones. When no item is unfinished every event
      queued so far is settled; a `flush` inside `close` that returned has settled
      at least what was queued when `close` was called. */
  lemma EachSettledOnce(steps: seq<Step>)
    ensures var s := Run(EMPTY, steps);
            && |s.settled| <= |s.sent|
            && (forall i :: 0 <= i < |s.settled| ==> s.settled[i].event == s.sent[i])
            && s.rows == CommittedOf(s.settled)
            && s.unfinished >= 0
            && (s.unfinished == 0 ==> |s.settled| == |s.sent|)
            && (s.closer.Draining? || s.closer.Closed? ==> s.asked <= |s.settled|)
  {
    hide Run, CommittedOf, Values;
    var s := Run(EMPTY, steps);
    EmptyHolds();
    RunKeeps(EMPTY, steps);
    forall i | 0 <= i < |s.settled| ensures s.settled[i].event == s.sent[i] {
      assert Named(s.settled)[i] == s.sent[i];
    }
    if s.unfinished == 0 {
      assert Values([]) == [] by {
        NoValues();
      }
    }
  }

  lemma NoValues()
    ensures Values([]) == []
  {}

  // --- When the worker stops ------------------------------------------------------

  predicate CanMove(s: State, step: Step) {
    match step
    case Dequeue => s.phase.Waiting? && s.queue != []
    case Write(_) => s.phase.Trying? || s.phase.Singly?
    case Wake => s.phase.Pausing?
    case _ => false
  }

  /** How often the worker really moves in a run. */
  function Moves(s: State, steps: seq<Step>): nat {
    if steps == [] then 0
    else
      var init := steps[..|steps| - 1];
      Moves(s, init) + if CanMove(Run(s, init), steps[|steps| - 1]) then 1 else 0
  }

  /** A bound on the moves the worker still makes on its batch in hand. */
  function Owed(phase: Phase): int {
    match phase
    case Waiting => 0
    case Stopped => 0
    case Trying(batch, n) => 2 * (TRIES - n) - 1 + |batch|
    case Pausing(batch, n) => 2 * (TRIES - n) - 2 + |batch|
    case Singly(batch, i) => |batch| - i
  }

  function Left(s: State): int {
    if s.phase.Stopped? then 0 else Owed(s.phase) + 2 * Ahead(s.queue) + 1
  }

  predicate WholeBatches(k: nat) { k % 64 == 0 }

  lemma WholeBatchesStep(k: nat)
    ensures k >= LIMIT ==> (WholeBatches(k) <==> WholeBatches(k - LIMIT))
    ensures 0 < k < LIMIT ==> !WholeBatches(k)
    ensures WholeBatches(0)
  {}

  /** Whole batches stand ahead of the sentinel, or the worker has met it. */
  ghost predicate WillStop(s: State) {
    Invariant(s) && (s.phase.Stopped? || (OneStop(s.queue) && WholeBatches(Ahead(s.queue))))
  }

  /** The sentinel stands behind a part of a batch, or was swallowed with one. */
  ghost predicate WillHang(s: State) {
    && Invariant(s) && s.closer.Draining? && !s.phase.Stopped?
    && (NoStop(s.queue) || (OneStop(s.queue) && !WholeBatches(Ahead(s.queue))))
  }

  lemma NotBoth(queue: seq<Option<Event>>)
    requires OneStop(queue)
    ensures !NoStop(queue)
  {
    hide Leading;
  }

  lemma DequeueTowardsStop(s: State)
    requires WillStop(s)
    ensures WillStop(Next(s, Dequeue))
    ensures Left(Next(s, Dequeue)) <= Left(s) - if CanMove(s, Dequeue) then 1 else 0
  {
    DequeueKeeps(s);
    hide Invariant, BatchOf, AfterBatch, SwallowsStop, Leading, Values, Owed, OneStop, Ahead, NoStop,
         WholeBatches;
    if s.phase.Waiting? && s.queue != [] {
      OwedForBatch(BatchOf(s.queue));
      if s.queue[0].Some? {
        BatchSplits(s.queue);
        AfterBatchStops(s.queue);
        FirstNotStop(s.queue);
        WholeBatchesStep(Ahead(s.queue));
      }
    }
  }

  lemma OwedForBatch(batch: seq<Event>)
    ensures Owed(Trying(batch, 0)) == 5 + |batch| && Owed(Waiting) == 0
  {}

  lemma FirstNotStop(queue: seq<Option<Event>>)
    requires queue != [] && queue[0].Some?
    ensures Ahead(queue) > 0
  {}

  lemma WriteOwesLess(s: State, outcome: Outcome)
    requires PhaseSound(s.phase)
    ensures Next(s, Write(outcome)).queue == s.queue
    ensures Next(s, Write(outcome)).phase.Stopped? <==> s.phase.Stopped?
    ensures Owed(Next(s, Write(outcome)).phase) <= Owed(s.phase) - if CanMove(s, Write(outcome)) then 1 else 0
  {
    hide Settle;
    if s.phase.Trying? {
      SettleFrames(s, s.phase.batch, outcome.Committed?);
    } else if s.phase.Singly? {
      SettleFrames(s, [s.phase.batch[s.phase.i]], outcome.Committed?);
    }
  }

  lemma WriteTowardsStop(s: State, outcome: Outcome)
    requires WillStop(s)
    ensures WillStop(Next(s, Write(outcome)))
    ensures Left(Next(s, Write(outcome))) <= Left(s) - if CanMove(s, Write(outcome)) then 1 else 0
  {
    assert PhaseSound(s.phase);
    hide Invariant, Ahead, OneStop, WholeBatches, Owed, Next, PhaseSound;
    StepKeeps(s, Write(outcome));
    WriteOwesLess(s, outcome);
  }

  lemma StepTowardsStop(s: State, step: Step)
    requires WillStop(s) && (s.closer.Draining? || s.closer.Closed?)
    ensures WillStop(Next(s, step)) && (Next(s, step).closer.Draining? || Next(s, step).closer.Closed?)
    ensures Left(Next(s, step)) <= Left(s) - if CanMove(s, step) then 1 else 0
  {
    CloserStays(s, step);
    match step
    case Dequeue => DequeueTowardsStop(s);
    case Write(outcome) => WriteTowardsStop(s, outcome);
    case Enqueue(e) =>
      StepKeeps(s, step);
      hide Invariant, Ahead, OneStop, WholeBatches, NoStop;
      AppendStops(s.queue, e);
    case _ =>
      StepKeeps(s, step);
      hide Invariant, Ahead, OneStop, WholeBatches, NoStop;
  }

  lemma CloserStays(s: State, step: Step)
    requires s.closer.Draining? || s.closer.Closed?
    ensures Next(s, step).closer == s.closer || Next(s, step).closer.Closed?
    ensures Next(s, step).closer.Closed? && s.closer.Draining? ==> s.phase.Stopped?
  {
    hide BatchOf, AfterBatch, SwallowsStop, Settle;
    if step.Write? && s.phase.Trying? {
      SettleFrames(s, s.phase.batch, step.outcome.Committed?);
    } else if step.Write? && s.phase.Singly? && s.phase.i < |s.phase.batch| {
      SettleFrames(s, [s.phase.batch[s.phase.i]], step.outcome.Committed?);
    }
  }

  /** With whole batches ahead of the sentinel the worker can always move until
      it stops, and every move brings it closer. */
  lemma WorkerReady(s: State)
    requires WillStop(s) && !s.phase.Stopped?
    ensures exists step :: CanMove(s, step)
    ensures Left(s) > 0
  {
    hide Leading, Values;
    assert PhaseSound(s.phase);
    match s.phase
    case Waiting => assert CanMove(s, Dequeue);
    case Pausing(_, _) => assert CanMove(s, Wake);
    case Trying(_, _) => assert CanMove(s, Write(Committed));
    case Singly(_, _) => assert CanMove(s, Write(Committed));
    case Stopped =>
  }

  lemma {:induction false} RunTowardsStop(s: State, steps: seq<Step>)
    requires WillStop(s) && (s.closer.Draining? || s.closer.Closed?)
    ensures WillStop(Run(s, steps)) && (Run(s, steps).closer.Draining? || Run(s, steps).closer.Closed?)
    ensures Moves(s, steps) + Left(Run(s, steps)) <= Left(s)
  {
    if steps == [] {
    } else {
      hide Next, WillStop, Left, CanMove;
      RunTowardsStop(s, steps[..|steps| - 1]);
      StepTowardsStop(Run(s, steps[..|steps| - 1]), steps[|steps| - 1]);
    }
  }

  lemma DequeueHangs(s: State)
    requires WillHang(s)
    ensures WillHang(Next(s, Dequeue))
  {
    DequeueKeeps(s);
    CloserStays(s, Dequeue);
    hide Invariant, BatchOf, AfterBatch, SwallowsStop, Leading, Values, WholeBatches, OneStop, Ahead, NoStop;
    WholeBatchesStep(Ahead(s.queue));
    if s.phase.Waiting? && s.queue != [] {
      if s.queue[0].Some? {
        AfterBatchStops(s.queue);
      } else {
        StopPlaceFirst(s.queue);
      }
    }
  }

  lemma StopPlaceFirst(queue: seq<Option<Event>>)
    requires queue != [] && queue[0].None?
    ensures Ahead(queue) == 0 && !NoStop(queue)
  {}

  lemma StepHangs(s: State, step: Step)
    requires WillHang(s)
    ensures WillHang(Next(s, step))
  {
    CloserStays(s, step);
    match step
    case Dequeue => DequeueHangs(s);
    case Enqueue(e) =>
      StepKeeps(s, step);
      hide Invariant, Ahead, OneStop, WholeBatches, NoStop;
      AppendStops(s.queue, e);
    case Write(outcome) =>
      StepKeeps(s, step);
      assert PhaseSound(s.phase);
      hide Invariant, Ahead, OneStop, WholeBatches, NoStop, Settle;
      if s.phase.Trying? {
        SettleFrames(s, s.phase.batch, outcome.Committed?);
      } else if s.phase.Singly? {
        SettleFrames(s, [s.phase.batch[s.phase.i]], outcome.Committed?);
      }
    case _ =>
      StepKeeps(s, step);
      hide Invariant, Ahead, OneStop, WholeBatches, NoStop;
  }

  lemma {:induction false} RunHangs(s: State, steps: seq<Step>)
    requires WillHang(s)
    ensures WillHang(Run(s, steps))
  {
    if steps == [] {
    } else {
      hide Next, WillHang;
      RunHangs(s, steps[..|steps| - 1]);
      StepHangs(Run(s, steps[..|steps| - 1]), steps[|steps| - 1]);
    }
  }

  /** Once the sentinel is in the queue, whether the worker ever stops is settled
      by how many events stand ahead of it: it stops, within a bounded number of
      its own moves and whatever else happens, exactly when they fill whole
      batches. Otherwise the last batch swallows the sentinel and `close` waits
      for ever. */
  lemma {:induction false} CloseReturnsIff(before: seq<Step>, after: seq<Step>)
    requires Run(EMPTY, before).closer.Draining? && OneStop(Run(EMPTY, before).queue)
    requires Moves(Run(EMPTY, before), after) >= Left(Run(EMPTY, before))
    ensures Run(Run(EMPTY, before), after).phase.Stopped? <==> WholeBatches(Ahead(Run(EMPTY, before).queue))
  {
    var s := Run(EMPTY, before);
    EmptyHolds();
    RunKeeps(EMPTY, before);
    StoppedMeansNoStop(s);
    hide Run, Invariant, Moves, OneStop;
    if WholeBatches(Ahead(s.queue)) {
      RunTowardsStop(s, after);
      if !Run(s, after).phase.Stopped? {
        WorkerReady(Run(s, after));
      }
    } else {
      RunHangs(s, after);
    }
  }

  lemma StoppedMeansNoStop(s: State)
    requires Invariant(s)
    ensures OneStop(s.queue) ==> !s.phase.Stopped?
  {
    if OneStop(s.queue) {
      NotBoth(s.queue);
    }
  }

  ghost predicate NothingSent(steps: seq<Step>) {
    forall i :: 0 <= i < |steps| ==> !steps[i].Enqueue?
  }

  /** If nothing is queued once `close` has begun, the sentinel finds an idle
      worker and an empty queue, and the worker's next move is to stop. */
  lemma {:induction false} QuietClose(s: State, steps: seq<Step>)
    requires Invariant(s) && s.closer.Open? && NothingSent(steps)
    ensures var t := Run(Next(s, Close), steps);
            t.closer.Draining? || t.closer.Closed? ==>
              t.phase.Stopped? || (t.phase.Waiting? && t.queue == [None] && Next(t, Dequeue).phase.Stopped?)
  {
    QuietRun(s, steps);
  }

  /** Between the call of `close` and the end: the latch is set only with nothing
      queued and nothing in hand. */
  ghost predicate Quiet(t: State) {
    && Invariant(t) && !t.closer.Open?
    && (t.closer.Flushing? && t.closer.drained ==> t.queue == [] && t.phase.Waiting?)
    && (t.closer.Flushing? && !t.closer.drained ==> t.unfinished > 0)
    && (t.closer.Closed? ==> t.phase.Stopped?)
    && (t.phase.Stopped? ==> t.queue == [])
    && (t.closer.Draining? || t.closer.Closed? ==> t.phase.Stopped? || (t.phase.Waiting? && t.queue == [None]))
  }

  lemma {:induction false} QuietRun(s: State, steps: seq<Step>)
    requires Invariant(s) && s.closer.Open? && NothingSent(steps)
    ensures Quiet(Run(Next(s, Close), steps))
  {
    if steps == [] {
      StepKeeps(s, Close);
      IdleWhenNothingUnfinished(s);
    } else {
      var init := steps[..|steps| - 1];
      assert NothingSent(init);
      QuietRun(s, init);
      QuietStep(Run(Next(s, Close), init), steps[|steps| - 1]);
    }
  }

  lemma IdleWhenNothingUnfinished(s: State)
    requires Invariant(s)
    ensures s.unfinished == 0 ==> s.queue == [] && (s.phase.Waiting? || s.phase.Stopped?)
  {
    hide Values, NoStop, OneStop, CommittedOf;
  }

  lemma QuietDequeue(t: State)
    requires Quiet(t)
    ensures Quiet(Next(t, Dequeue))
  {
    DequeueKeeps(t);
    IdleWhenNothingUnfinished(Next(t, Dequeue));
    assert Counted(t);
    hide Invariant, BatchOf, AfterBatch, SwallowsStop;
  }

  lemma QuietWrite(t: State, outcome: Outcome)
    requires Quiet(t)
    ensures Quiet(Next(t, Write(outcome)))
  {
    var n := Next(t, Write(outcome));
    StepKeeps(t, Write(outcome));
    IdleWhenNothingUnfinished(n);
    WriteOwesLess(t, outcome);
    WriteFlushes(t, outcome);
    hide Invariant, Next, Owed;
  }

  /** A write that ends a batch tells the flush, if nothing is left. */
  lemma WriteFlushes(t: State, outcome: Outcome)
    requires Invariant(t)
    ensures var n := Next(t, Write(outcome));
            && (n.closer == t.closer || (n.closer == Flushing(true) && t.closer.Flushing? && n.unfinished == 0))
            && (n.closer == Flushing(false) ==> n.unfinished > 0 || n.unfinished == t.unfinished)
            && (t.phase.Waiting? ==> n == t)
  {
    assert PhaseSound(t.phase) && Counted(t);
    hide Settle, Invariant;
    if t.phase.Trying? {
      SettleFrames(t, t.phase.batch, outcome.Committed?);
    } else if t.phase.Singly? {
      SettleFrames(t, [t.phase.batch[t.phase.i]], outcome.Committed?);
    }
  }

  lemma QuietOthers(t: State, step: Step)
    requires Quiet(t) && !step.Enqueue? && !OfWorker(step)
    ensures Quiet(Next(t, step))
  {
    StepKeeps(t, step);
    IdleWhenNothingUnfinished(t);
    hide Invariant;
  }

  lemma QuietStep(t: State, step: Step)
    requires Quiet(t) && !step.Enqueue?
    ensures Quiet(Next(t, step))
  {
    hide Quiet;
    match step
    case Dequeue => QuietDequeue(t);
    case Write(outcome) => QuietWrite(t, outcome);
    case Wake => QuietWake(t);
    case _ => QuietOthers(t, step);
  }

  lemma QuietWake(t: State)
    requires Quiet(t)
    ensures Quiet(Next(t, Wake))
  {
    OthersKeep(t, Wake);
    hide Invariant;
  }

  /** A step that does something for the shutdown: a move of the worker, the
      return of `flush` once it was satisfied, or the return of `close`. */
  predicate CanGo(s: State, step: Step) {
    || CanMove(s, step)
    || (step.FlushReturns? && s.closer.Flushing? && s.closer.drained)
    || (step.Join? && s.closer.Draining? && s.phase.Stopped?)
  }

  function Strides(s: State, steps: seq<Step>): nat {
    if steps == [] then 0
    else
      var init := steps[..|steps| - 1];
      Strides(s, init) + if CanGo(Run(s, init), steps[|steps| - 1]) then 1 else 0
  }

  /** A bound on the moves left: no batch costs more than seven for each of its
      events, and a flush still has its sentinel to put. */
  function ToGo(s: State): int {
    Owed(s.phase) + 7 * |s.queue| + (if s.closer.Flushing? then 8 else 0) + if s.closer.Closed? then 0 else 1
  }

  lemma OwedAtLeastZero(phase: Phase)
    requires PhaseSound(phase)
    ensures Owed(phase) >= 0
  {}

  lemma DequeueGoes(t: State)
    requires Quiet(t)
    ensures ToGo(Next(t, Dequeue)) <= ToGo(t) - if CanGo(t, Dequeue) then 1 else 0
  {
    hide BatchOf, AfterBatch, SwallowsStop, Leading, Values, Owed, OneStop, Ahead, NoStop, Named, CommittedOf;
    if t.phase.Waiting? && t.queue != [] {
      OwedForBatch(BatchOf(t.queue));
      OwedWhenStopped();
      if t.queue[0].Some? {
        BatchSplits(t.queue);
      }
    }
  }

  lemma OwedWhenStopped()
    ensures Owed(Stopped) == 0
  {}

  lemma WriteGoes(t: State, outcome: Outcome)
    requires Quiet(t)
    ensures ToGo(Next(t, Write(outcome))) <= ToGo(t) - if CanGo(t, Write(outcome)) then 1 else 0
  {
    assert PhaseSound(t.phase);
    WriteOwesLess(t, outcome);
    WriteKeepsCloser(t, outcome);
    hide Invariant, Owed, Next, PhaseSound;
  }

  lemma WriteKeepsCloser(t: State, outcome: Outcome)
    requires PhaseSound(t.phase)
    ensures var after := Next(t, Write(outcome)).closer;
            (after.Flushing? <==> t.closer.Flushing?) && (after.Closed? <==> t.closer.Closed?)
  {
    hide Settle;
    if t.phase.Trying? {
      SettleFrames(t, t.phase.batch, outcome.Committed?);
    } else if t.phase.Singly? {
      SettleFrames(t, [t.phase.batch[t.phase.i]], outcome.Committed?);
    }
  }

  lemma StepGoes(t: State, step: Step)
    requires Quiet(t) && !step.Enqueue?
    ensures ToGo(Next(t, step)) <= ToGo(t) - if CanGo(t, step) then 1 else 0
  {
    match step
    case Dequeue => DequeueGoes(t);
    case Write(outcome) => WriteGoes(t, outcome);
    case _ => hide Invariant, BatchOf, AfterBatch, SwallowsStop, Settle;
  }

  /** Until `close` is back, somebody can move: nobody waits for somebody else. */
  lemma QuietReady(t: State)
    requires Quiet(t) && !t.closer.Closed?
    ensures exists step :: CanGo(t, step) && !step.Enqueue?
    ensures ToGo(t) > 0
  {
    hide Values, NoStop, OneStop, CommittedOf, Named;
    OwedAtLeastZero(t.phase);
    match t.phase
    case Stopped =>
      assert CanGo(t, Join);
    case Waiting =>
      if t.queue == [] {
        assert CanGo(t, FlushReturns);
      } else {
        assert CanGo(t, Dequeue);
      }
    case Pausing(_, _) => assert CanGo(t, Wake);
    case Trying(_, _) => assert CanGo(t, Write(Committed));
    case Singly(_, _) => assert CanGo(t, Write(Committed));
  }

  lemma {:induction false} RunGoes(s: State, steps: seq<Step>)
    requires Invariant(s) && s.closer.Open? && NothingSent(steps)
    ensures Strides(Next(s, Close), steps) + ToGo(Run(Next(s, Close), steps)) <= ToGo(Next(s, Close))
  {
    hide Next, Quiet, ToGo, CanGo, Invariant;
    if steps == [] {
    } else {
      var init := steps[..|steps| - 1];
      RunGoes(s, init);
      QuietRun(s, init);
      StepGoes(Run(Next(s, Close), init), steps[|steps| - 1]);
    }
  }

  lemma IdleIsSettled(t: State)
    requires Invariant(t) && t.phase.Stopped? && t.queue == []
    ensures |t.settled| == |t.sent|
  {
    hide CommittedOf;
    NoValues();
    assert |Named(t.settled)| == |t.settled|;
  }

  /** If nothing is queued after `close` has begun, `close` returns: whatever the
      transactions do and whoever moves first, after as many moves as were left
      when it was called the worker has stopped, and everything ever queued is
      settled. */
  lemma QuietCloseEnds(before: seq<Step>, after: seq<Step>)
    requires Run(EMPTY, before).closer.Open? && NothingSent(after)
    requires Strides(Run(EMPTY, before + [Close]), after) >= ToGo(Run(EMPTY, before + [Close]))
    ensures var t := Run(Run(EMPTY, before + [Close]), after);
            t.closer.Closed? && t.phase.Stopped? && t.queue == [] && |t.settled| == |t.sent|
  {
    var s := Run(EMPTY, before);
    EmptyHolds();
    RunKeeps(EMPTY, before);
    RunOneMore(EMPTY, before, Close);
    hide Run, Next, ToGo, Strides;
    RunGoes(s, after);
    QuietRun(s, after);
    var t := Run(Next(s, Close), after);
    if !t.closer.Closed? {
      QuietReady(t);
    }
    assert Quiet(t) && t.closer.Closed? && t.phase.Stopped?;
    IdleIsSettled(t);
  }

  lemma BatchOfOne(e: Event)
    ensures BatchOf([Some(e)]) == [e] && AfterBatch([Some(e)]) == [] && !SwallowsStop([Some(e)])
  {
    var queue := [Some(e)];
    LeadingStep(queue, LIMIT);
    NoneTaken(queue[1..], LIMIT - 1);
    assert queue[..1] == queue;
    ValuesOfOne(Some(e));
  }

  /** One event queued after `flush` was satisfied and before the sentinel is put,
      and `close` never returns. */
  lemma {:induction false} LateEventHangs(a: Event, late: Event, after: seq<Step>)
    ensures var before := [Enqueue(a), Dequeue, Close, Write(Committed), Enqueue(late), FlushReturns];
            !Run(Run(EMPTY, before), after).phase.Stopped? && !Run(Run(EMPTY, before), after).closer.Closed?
  {
    var before := [Enqueue(a), Dequeue, Close, Write(Committed), Enqueue(late), FlushReturns];
    EmptyHolds();
    RunKeeps(EMPTY, before);
    LateState(a, late);
    var s := Run(EMPTY, before);
    PutStopStops([Some(late)]);
    WholeBatchesStep(1);
    hide Run, Invariant;
    RunHangs(s, after);
  }

  lemma LateState(a: Event, late: Event)
    ensures var s := Run(EMPTY, [Enqueue(a), Dequeue, Close, Write(Committed), Enqueue(late), FlushReturns]);
            s.closer.Draining? && s.phase.Waiting? && s.queue == [Some(late)] + [None]
  {
    hide Run, BatchOf, AfterBatch, SwallowsStop, Verdicts;
    RunOfNothing(EMPTY);
    BatchOfOne(a);
    var s0 := [Enqueue(a)];
    RunOneMore(EMPTY, [], Enqueue(a));
    assert [] + [Enqueue(a)] == s0;
    assert Run(EMPTY, s0).queue == [Some(a)];
    var s1 := s0 + [Dequeue];
    RunOneMore(EMPTY, s0, Dequeue);
    assert Run(EMPTY, s1).phase == Trying([a], 0) && Run(EMPTY, s1).queue == [];
    var s2 := s1 + [Close];
    RunOneMore(EMPTY, s1, Close);
    var s3 := s2 + [Write(Committed)];
    RunOneMore(EMPTY, s2, Write(Committed));
    assert Run(EMPTY, s3).closer == Flushing(true) && Run(EMPTY, s3).phase == Waiting;
    var s4 := s3 + [Enqueue(late)];
    RunOneMore(EMPTY, s3, Enqueue(late));
    assert Run(EMPTY, s4).queue == [Some(late)];
    RunOneMore(EMPTY, s4, FlushReturns);
    assert s4 + [FlushReturns] == [Enqueue(a), Dequeue, Close, Write(Committed), Enqueue(late), FlushReturns];
  }
}
