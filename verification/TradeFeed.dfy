/** Reading a wallet's trade history from the venue: newest first, in pages of
    fixed size, back to a cursor. */
module TradeFeed {
  import opened Lists

  datatype VenueTrade = VenueTrade(condition: string, side: string, outcome: string, outcomeIndex: int,
                                   size: real, price: real, timestamp: real, hash: string)

  datatype Reason = BadResponse | RangeExceeded | MissingIdentity

  datatype Fetched = Ok(trades: seq<VenueTrade>) | Raised(reason: Reason)

  /** What the venue answers to a request at an offset; `None` is a failed
      request or a payload that is not a list of objects. */
  type Venue = nat -> Option<seq<VenueTrade>>

  const PAGE_SIZE: nat := 500
  const MAX_OFFSET: nat := 10_000
  const REACH: nat := MAX_OFFSET + PAGE_SIZE

  function Timestamp(t: VenueTrade): real { t.timestamp }

  function Newer(cursor: real): VenueTrade -> bool { (t: VenueTrade) => t.timestamp > cursor }

  predicate Identified(t: VenueTrade) { t.hash != "" && t.condition != "" }

  predicate AllIdentified(trades: seq<VenueTrade>) {
    forall t :: t in trades ==> Identified(t)
  }

  function Oldest(page: seq<VenueTrade>): real {
    if page == [] then 0.0
    else if |page| == 1 then page[0].timestamp
    else Min(page[0].timestamp, Oldest(page[1..]))
  }

  predicate LastPage(page: seq<VenueTrade>, cursor: real) {
    |page| < PAGE_SIZE || Oldest(page) <= cursor
  }

  function Prepend(items: seq<VenueTrade>, rest: Fetched): Fetched {
    if rest.Ok? then Ok(items + rest.trades) else rest
  }

  /** The pages from `offset` on, up to the first that reaches the cursor. */
  function Collect(venue: Venue, cursor: real, offset: nat): Fetched
    decreases REACH - offset
  {
    match venue(offset)
    case None => Raised(BadResponse)
    case Some(page) =>
      if LastPage(page, cursor) then Ok(page)
      else if offset + PAGE_SIZE > MAX_OFFSET then Raised(RangeExceeded)
      else Prepend(page, Collect(venue, cursor, offset + PAGE_SIZE))
  }

  function Select(items: seq<VenueTrade>, cursor: real): Fetched {
    var newer := Filter(items, Newer(cursor));
    if AllIdentified(newer) then Ok(SortBy(newer, Timestamp)) else Raised(MissingIdentity)
  }

  function Fetch(venue: Venue, cursor: real): Fetched {
    match Collect(venue, cursor, 0)
    case Raised(reason) => Raised(reason)
    case Ok(items) => Select(items, cursor)
  }

  method FetchTradesSince(venue: Venue, cursor: real) returns (fetched: Fetched)
    ensures fetched == Fetch(venue, cursor)
  {
    hide Filter, SortBy;
    var items: seq<VenueTrade> := [];
    var offset: nat := 0;
    while true
      invariant offset <= MAX_OFFSET
      invariant Collect(venue, cursor, 0) == Prepend(items, Collect(venue, cursor, offset))
      decreases MAX_OFFSET - offset
    {
      var response := venue(offset);
      if response.None? {
        return Raised(BadResponse);
      }
      var page := response.value;
      ghost var before := items;
      items := items + page;
      if |page| < PAGE_SIZE {
        break;
      }
      if Oldest(page) <= cursor {
        break;
      }
      offset := offset + PAGE_SIZE;
      if offset > MAX_OFFSET {
        return Raised(RangeExceeded);
      }
      PrependTwice(before, page, Collect(venue, cursor, offset));
    }
    fetched := Select(items, cursor);
  }

  lemma PrependTwice(xs: seq<VenueTrade>, ys: seq<VenueTrade>, rest: Fetched)
    ensures Prepend(xs, Prepend(ys, rest)) == Prepend(xs + ys, rest)
  {
    if rest.Ok? {
      ConcatAssociates(xs, ys, rest.trades);
    }
  }

  // --- What a fetch returns, for a venue that keeps its promise -------------

  ghost predicate NewestFirst(feed: seq<VenueTrade>) {
    forall i, j :: 0 <= i < j < |feed| ==> feed[i].timestamp >= feed[j].timestamp
  }

  function PageAt(feed: seq<VenueTrade>, offset: nat): seq<VenueTrade> {
    if offset >= |feed| then [] else if offset + PAGE_SIZE >= |feed| then feed[offset..]
    else feed[offset..offset + PAGE_SIZE]
  }

  function Pages(feed: seq<VenueTrade>): Venue { (offset: nat) => Some(PageAt(feed, offset)) }

  /** The history is too long to read back to the cursor. */
  predicate OutOfReach(feed: seq<VenueTrade>, cursor: real) {
    |feed| >= REACH && feed[REACH - 1].timestamp > cursor
  }

  /** The fetch returns exactly the trades newer than the cursor, oldest first,
      or raises; and it raises exactly when the cursor lies beyond the reach of
      the pagination or a newer trade lacks its identity. */
  lemma FetchExact(feed: seq<VenueTrade>, cursor: real)
    requires NewestFirst(feed)
    ensures var newer, fetched := Filter(feed, Newer(cursor)), Fetch(Pages(feed), cursor);
            if |feed| >= 10_500 && feed[10_499].timestamp > cursor then fetched == Raised(RangeExceeded)
            else if exists t :: t in newer && (t.hash == "" || t.condition == "")
            then fetched == Raised(MissingIdentity)
            else fetched.Ok? && OldestFirst(newer, fetched.trades)
    ensures forall t :: t in Filter(feed, Newer(cursor)) <==> t in feed && t.timestamp > cursor
  {
    hide Filter, SortBy, OldestFirst;
    CollectExact(feed, cursor, 0);
    assert feed[0..] == feed;
    FilterMembers(feed, Newer(cursor));
    SortedOldestFirst(Filter(feed, Newer(cursor)));
  }

  /** The same trades with their times in order. */
  ghost predicate OldestFirst(trades: seq<VenueTrade>, ordered: seq<VenueTrade>) {
    && multiset(ordered) == multiset(trades)
    && forall i, j :: 0 <= i < j < |ordered| ==> ordered[i].timestamp <= ordered[j].timestamp
  }

  lemma SortedOldestFirst(trades: seq<VenueTrade>)
    ensures OldestFirst(trades, SortBy(trades, Timestamp))
  {
    hide SortBy;
    SortIsAscendingPermutation(trades, Timestamp);
    var ordered := SortBy(trades, Timestamp);
    forall i, j | 0 <= i < j < |ordered| ensures ordered[i].timestamp <= ordered[j].timestamp {
      assert Timestamp(ordered[i]) <= Timestamp(ordered[j]);
    }
  }

  lemma {:induction false} CollectExact(feed: seq<VenueTrade>, cursor: real, offset: nat)
    requires NewestFirst(feed)
    requires offset <= MAX_OFFSET && offset % PAGE_SIZE == 0 && offset <= |feed|
    ensures OutOfReach(feed, cursor) ==> Collect(Pages(feed), cursor, offset) == Raised(RangeExceeded)
    ensures !OutOfReach(feed, cursor) ==>
              && Collect(Pages(feed), cursor, offset).Ok?
              && Filter(Collect(Pages(feed), cursor, offset).trades, Newer(cursor))
                 == Filter(feed[offset..], Newer(cursor))
    decreases REACH - offset
  {
    hide Filter, PageAt, OutOfReach, LastPage;
    var page := PageAt(feed, offset);
    assert Pages(feed)(offset) == Some(page);
    PageSplits(feed, offset);
    if LastPage(page, cursor) {
      LastPageEnough(feed, cursor, offset);
    } else {
      NotLastPage(feed, cursor, offset);
      if offset + PAGE_SIZE <= MAX_OFFSET {
        var next := offset + PAGE_SIZE;
        CollectExact(feed, cursor, next);
        if !OutOfReach(feed, cursor) {
          FilterConcat(page, Collect(Pages(feed), cursor, next).trades, Newer(cursor));
          FilterConcat(page, feed[next..], Newer(cursor));
        }
      }
    }
  }

  lemma PageSplits(feed: seq<VenueTrade>, offset: nat)
    requires offset <= |feed|
    ensures var page := PageAt(feed, offset);
            && offset + |page| <= |feed| && |page| <= PAGE_SIZE
            && feed[offset..] == page + feed[offset + |page|..]
            && (|page| < PAGE_SIZE ==> offset + |page| == |feed|)
  {}

  lemma PageNewestFirst(feed: seq<VenueTrade>, offset: nat)
    requires NewestFirst(feed)
    ensures NewestFirst(PageAt(feed, offset))
  {
    var page := PageAt(feed, offset);
    forall i, j | 0 <= i < j < |page| ensures page[i].timestamp >= page[j].timestamp {
      assert page[i] == feed[offset + i] && page[j] == feed[offset + j];
    }
  }

  lemma NotLastPage(feed: seq<VenueTrade>, cursor: real, offset: nat)
    requires NewestFirst(feed) && offset <= MAX_OFFSET && offset <= |feed|
    requires offset % PAGE_SIZE == 0
    requires !LastPage(PageAt(feed, offset), cursor)
    ensures |PageAt(feed, offset)| == PAGE_SIZE && offset + PAGE_SIZE <= |feed|
    ensures offset + PAGE_SIZE > MAX_OFFSET ==> OutOfReach(feed, cursor)
  {
    var page := PageAt(feed, offset);
    PageNewestFirst(feed, offset);
    OldestIsLast(page);
    assert page[PAGE_SIZE - 1] == feed[offset + PAGE_SIZE - 1];
  }

  lemma {:induction false} OldestIsLast(page: seq<VenueTrade>)
    requires NewestFirst(page)
    ensures page != [] ==> Oldest(page) == page[|page| - 1].timestamp
  {
    if |page| <= 1 {
    } else {
      OldestIsLast(page[1..]);
    }
  }

  lemma LastPageEnough(feed: seq<VenueTrade>, cursor: real, offset: nat)
    requires NewestFirst(feed) && offset <= |feed| && offset <= MAX_OFFSET
    requires LastPage(PageAt(feed, offset), cursor)
    ensures !OutOfReach(feed, cursor)
    ensures Filter(PageAt(feed, offset), Newer(cursor)) == Filter(feed[offset..], Newer(cursor))
  {
    hide Filter, PageAt;
    var page := PageAt(feed, offset);
    PageSplits(feed, offset);
    var rest := feed[offset + |page|..];
    FilterConcat(page, rest, Newer(cursor));
    if |page| == PAGE_SIZE {
      assert forall i :: 0 <= i < |page| ==> page[i] == feed[offset..][i];
      OldestIsLast(page);
      var last := offset + PAGE_SIZE - 1;
      assert feed[last] == page[PAGE_SIZE - 1];
      assert feed[last].timestamp <= cursor;
    }
    FilterNone(rest, cursor);
    assert Filter(page, Newer(cursor)) + [] == Filter(page, Newer(cursor));
  }

  lemma {:induction false} FilterNone(trades: seq<VenueTrade>, cursor: real)
    requires forall t :: t in trades ==> t.timestamp <= cursor
    ensures Filter(trades, Newer(cursor)) == []
  {
    if trades == [] {
    } else {
      FilterNone(trades[1..], cursor);
    }
  }

  // --- A history that grows while it is read -------------------------------------------------

  /** The `n` oldest trades of a feed. */
  function Last(feed: seq<VenueTrade>, n: nat): seq<VenueTrade> {
    if n <= |feed| then feed[|feed| - n..] else feed
  }

  /** The venue shows `shown(offset)` trades when it is asked for the page at `offset`;
      what arrived since the page before shifts the offsets. */
  function Growing(feed: seq<VenueTrade>, shown: nat -> nat): Venue {
    (offset: nat) => Some(PageAt(Last(feed, shown(offset)), offset))
  }

  ghost predicate Grows(shown: nat -> nat) {
    forall a: nat, b: nat :: a <= b ==> shown(a) <= shown(b)
  }

  /** Where the page at an offset starts in the whole feed. */
  function StartOf(feed: seq<VenueTrade>, shown: nat -> nat, offset: nat): nat {
    (if shown(offset) <= |feed| then |feed| - shown(offset) else 0) + offset
  }

  predicate IsPage(feed: seq<VenueTrade>, page: seq<VenueTrade>, start: nat) {
    page == if start >= |feed| then [] else if start + PAGE_SIZE >= |feed| then feed[start..]
            else feed[start..start + PAGE_SIZE]
  }

  lemma PageOf(feed: seq<VenueTrade>, shown: nat -> nat, offset: nat)
    ensures IsPage(feed, PageAt(Last(feed, shown(offset)), offset), StartOf(feed, shown, offset))
  {}

  /** The trades collected from `offset` on are, as far as they are newer than the
      cursor, all of the feed from some place on, and that place is not behind the
      start of the first page: a page never begins behind the end of the one before. */
  ghost predicate Covers(feed: seq<VenueTrade>, items: seq<VenueTrade>, cursor: real, from: nat) {
    forall t: VenueTrade :: t.timestamp > cursor ==>
        (t in items <==> exists i: nat :: from <= i < |feed| && feed[i] == t)
  }

  /** Where the history begins as it was last shown. */
  function MostShown(feed: seq<VenueTrade>, shown: nat -> nat): nat { StartOf(feed, shown, MAX_OFFSET) - MAX_OFFSET }

  /** What is collected from a page on. */
  ghost predicate Collected(feed: seq<VenueTrade>, shown: nat -> nat, cursor: real, offset: nat, from: nat) {
    match Collect(Growing(feed, shown), cursor, offset)
    case Ok(items) => MostShown(feed, shown) <= from <= StartOf(feed, shown, offset)
        && Covers(feed, items, cursor, from)
    case Raised(reason) => reason.RangeExceeded? && OutOfReach(Last(feed, shown(MAX_OFFSET)), cursor)
  }

  lemma {:induction false} CollectGrowing(feed: seq<VenueTrade>, shown: nat -> nat, cursor: real, offset: nat)
    returns (from: nat)
    requires NewestFirst(feed) && Grows(shown) && offset <= MAX_OFFSET && offset % PAGE_SIZE == 0
    ensures Collected(feed, shown, cursor, offset, from)
    decreases REACH - offset
  {
    hide LastPage, Collected, PageAt, Collect;
    if LastPage(PageAt(Last(feed, shown(offset)), offset), cursor) {
      from := StartOf(feed, shown, offset);
      EndsHere(feed, shown, cursor, offset);
    } else if offset + PAGE_SIZE > MAX_OFFSET {
      from := 0;
      EndsOutOfReach(feed, shown, cursor, offset);
    } else {
      var next := CollectGrowing(feed, shown, cursor, offset + PAGE_SIZE);
      from := if next < StartOf(feed, shown, offset) then next else StartOf(feed, shown, offset);
      GoesOn(feed, shown, cursor, offset, next);
    }
  }

  lemma StartsWhereShown(feed: seq<VenueTrade>, shown: nat -> nat, offset: nat)
    requires Grows(shown) && offset <= MAX_OFFSET
    ensures MostShown(feed, shown) <= StartOf(feed, shown, offset)
  {
    assert shown(offset) <= shown(MAX_OFFSET);
  }

  lemma EndsHere(feed: seq<VenueTrade>, shown: nat -> nat, cursor: real, offset: nat)
    requires NewestFirst(feed) && Grows(shown) && offset <= MAX_OFFSET
    requires LastPage(PageAt(Last(feed, shown(offset)), offset), cursor)
    ensures Collected(feed, shown, cursor, offset, StartOf(feed, shown, offset))
  {
    StartsWhereShown(feed, shown, offset);
    PageOf(feed, shown, offset);
    LastPageCovers(feed, PageAt(Last(feed, shown(offset)), offset), cursor, StartOf(feed, shown, offset));
    hide LastPage, PageAt, Covers, StartOf, NewestFirst, IsPage, MostShown, Grows;
  }

  lemma EndsOutOfReach(feed: seq<VenueTrade>, shown: nat -> nat, cursor: real, offset: nat)
    requires NewestFirst(feed) && offset <= MAX_OFFSET < offset + PAGE_SIZE && offset % PAGE_SIZE == 0
    requires !LastPage(PageAt(Last(feed, shown(offset)), offset), cursor)
    ensures Collected(feed, shown, cursor, offset, 0)
  {
    assert offset == MAX_OFFSET;
    LastOffsetOutOfReach(feed, shown, cursor);
    hide LastPage, PageAt, OutOfReach, NewestFirst;
  }

  lemma GoesOn(feed: seq<VenueTrade>, shown: nat -> nat, cursor: real, offset: nat, next: nat)
    requires Grows(shown) && offset + PAGE_SIZE <= MAX_OFFSET
    requires !LastPage(PageAt(Last(feed, shown(offset)), offset), cursor)
    requires Collected(feed, shown, cursor, offset + PAGE_SIZE, next)
    ensures var start := StartOf(feed, shown, offset);
            Collected(feed, shown, cursor, offset, if next < start then next else start)
  {
    var start, page := StartOf(feed, shown, offset), PageAt(Last(feed, shown(offset)), offset);
    StartsWhereShown(feed, shown, offset);
    PageOf(feed, shown, offset);
    FullPage(page, cursor);
    OneMorePage(feed, shown, cursor, offset);
    hide LastPage, PageAt, Covers, StartOf, OutOfReach, Collect, Last, Oldest, IsPage, Growing, Grows, MostShown;
    var rest := Collect(Growing(feed, shown), cursor, offset + PAGE_SIZE);
    if rest.Ok? {
      PageJoins(feed, page, rest.trades, cursor, start, next);
    }
  }

  lemma OneMorePage(feed: seq<VenueTrade>, shown: nat -> nat, cursor: real, offset: nat)
    requires offset + PAGE_SIZE <= MAX_OFFSET && !LastPage(PageAt(Last(feed, shown(offset)), offset), cursor)
    ensures Collect(Growing(feed, shown), cursor, offset)
         == Prepend(PageAt(Last(feed, shown(offset)), offset),
                    Collect(Growing(feed, shown), cursor, offset + PAGE_SIZE))
    ensures Grows(shown) ==> StartOf(feed, shown, offset + PAGE_SIZE) <= StartOf(feed, shown, offset) + PAGE_SIZE
  {
    hide LastPage, PageAt;
    assert Growing(feed, shown)(offset) == Some(PageAt(Last(feed, shown(offset)), offset));
    if Grows(shown) {
      assert shown(offset) <= shown(offset + PAGE_SIZE);
    }
  }

  lemma FullPage(page: seq<VenueTrade>, cursor: real)
    requires !LastPage(page, cursor)
    ensures |page| >= PAGE_SIZE && Oldest(page) > cursor
  {}

  lemma LastPageCovers(feed: seq<VenueTrade>, page: seq<VenueTrade>, cursor: real, start: nat)
    requires NewestFirst(feed) && LastPage(page, cursor) && IsPage(feed, page, start)
    ensures Covers(feed, page, cursor, start)
  {
    if start + PAGE_SIZE < |feed| {
      OldestIsLast(page);
      assert page[PAGE_SIZE - 1] == feed[start + PAGE_SIZE - 1];
    }
    forall t: VenueTrade | t.timestamp > cursor
      ensures t in page <==> exists i: nat :: start <= i < |feed| && feed[i] == t
    {
      if i: nat :| start <= i < |feed| && feed[i] == t {
        assert i < start + PAGE_SIZE;
        assert page[i - start] == t;
      }
      if j :| 0 <= j < |page| && page[j] == t {
        assert feed[start + j] == t;
      }
    }
  }

  lemma PageJoins(feed: seq<VenueTrade>, page: seq<VenueTrade>, rest: seq<VenueTrade>, cursor: real, start: nat,
                  next: nat)
    requires Covers(feed, rest, cursor, next) && IsPage(feed, page, start)
    requires |page| >= PAGE_SIZE && next <= start + PAGE_SIZE
    ensures Covers(feed, page + rest, cursor, if next < start then next else start)
  {
    var from := if next < start then next else start;
    forall t: VenueTrade | t.timestamp > cursor
      ensures t in page + rest <==> exists i: nat :: from <= i < |feed| && feed[i] == t
    {
      if i: nat :| from <= i < |feed| && feed[i] == t {
        if i < next {
          assert page[i - start] == t;
        }
      }
      if j :| 0 <= j < |page| && page[j] == t {
        assert feed[start + j] == t;
      }
    }
  }

  lemma LastOffsetOutOfReach(feed: seq<VenueTrade>, shown: nat -> nat, cursor: real)
    requires NewestFirst(feed) && !LastPage(PageAt(Last(feed, shown(MAX_OFFSET)), MAX_OFFSET), cursor)
    ensures OutOfReach(Last(feed, shown(MAX_OFFSET)), cursor)
  {
    var seen := Last(feed, shown(MAX_OFFSET));
    var page := PageAt(seen, MAX_OFFSET);
    assert page[PAGE_SIZE - 1] == seen[REACH - 1];
    PageNewestFirst(seen, MAX_OFFSET);
    OldestIsLast(page);
  }

  function Least(m: nat, n: nat): nat { if m <= n then m else n }

  /** A fetch over a history that grows between its pages returns, if it returns, all
      trades newer than the cursor of some moment between its first page and its last,
      oldest first, a trade perhaps more than once. It raises only if the history it saw last
      is out of reach, or a newer trade lacks its identity. */
  lemma FetchGrowing(feed: seq<VenueTrade>, shown: nat -> nat, cursor: real) returns (n: nat)
    requires NewestFirst(feed) && Grows(shown)
    ensures Least(shown(0), |feed|) <= n <= Least(shown(MAX_OFFSET), |feed|)
    ensures var fetched := Fetch(Growing(feed, shown), cursor);
            match fetched
            case Ok(trades) => Ascending(trades, Timestamp)
                               && forall t :: t in trades <==> t in Last(feed, n) && t.timestamp > cursor
            case Raised(reason) =>
              || (reason.RangeExceeded? && OutOfReach(Last(feed, shown(MAX_OFFSET)), cursor))
              || (reason.MissingIdentity? && exists t :: t in Last(feed, n) && t.timestamp > cursor && !Identified(t))
  {
    var from := CollectGrowing(feed, shown, cursor, 0);
    var collected := Collect(Growing(feed, shown), cursor, 0);
    var start := StartOf(feed, shown, 0);
    n := |feed| - if collected.Raised? then (if start <= |feed| then start else |feed|) else from;
    StartsWhereShown(feed, shown, 0);
    hide Collect, Growing, OutOfReach, Ascending, Last, Select, Covers;
    if collected.Ok? {
      SelectsAll(feed, collected.trades, cursor, from);
    }
    assert Fetch(Growing(feed, shown), cursor)
        == if collected.Ok? then Select(collected.trades, cursor) else Raised(collected.reason);
  }

  /** Selection keeps what is newer, sorted, or raises for what it cannot identify. */
  lemma SelectsAll(feed: seq<VenueTrade>, items: seq<VenueTrade>, cursor: real, from: nat)
    requires from <= |feed| && Covers(feed, items, cursor, from)
    ensures match Select(items, cursor)
            case Ok(trades) => Ascending(trades, Timestamp)
                               && forall t :: t in trades <==> t in Last(feed, |feed| - from) && t.timestamp > cursor
            case Raised(reason) =>
              reason.MissingIdentity?
              && exists t :: t in Last(feed, |feed| - from) && t.timestamp > cursor && !Identified(t)
  {
    var newer := Filter(items, Newer(cursor));
    FilterMembers(items, Newer(cursor));
    SortIsAscendingPermutation(newer, Timestamp);
    hide Ascending, Last, SortBy, Filter;
    forall t ensures t in SortBy(newer, Timestamp) <==> t in newer {
      assert t in newer <==> t in multiset(newer);
      assert t in SortBy(newer, Timestamp) <==> t in multiset(SortBy(newer, Timestamp));
    }
    forall t: VenueTrade | t.timestamp > cursor ensures t in items <==> t in Last(feed, |feed| - from) {
      InLast(feed, |feed| - from, t);
    }
  }

  lemma InLast(feed: seq<VenueTrade>, n: nat, t: VenueTrade)
    requires n <= |feed|
    ensures t in Last(feed, n) <==> exists i: nat :: |feed| - n <= i < |feed| && feed[i] == t
  {
    if j :| 0 <= j < |Last(feed, n)| && Last(feed, n)[j] == t {
      assert feed[|feed| - n + j] == t;
    }
    if i: nat :| |feed| - n <= i < |feed| && feed[i] == t {
      assert Last(feed, n)[i - (|feed| - n)] == t;
    }
  }
}
