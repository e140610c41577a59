/** Greedy allocation of capital over ranked candidates, in whole cents. */
module Allocator {
  import opened Lists
  import opened AverageCost

  datatype Candidate = Candidate(market: string, category: string, kelly: real, ev: real)

  /** A held position; a market of `None` is one without an id. */
  datatype Position = Position(market: Option<string>, size: real, currentPrice: real, avgCost: real)

  datatype Pick = Pick(candidate: Candidate, size: real)

  const EVENT_SHARE := 0.25
  const HALF_CENT := 0.005

  // --- Rounding -----------------------------------------------------------------

  /** Round half to even. */
  function HalfEven(y: real): int {
    var f := y.Floor;
    var d := y - f as real;
    if d < 0.5 then f else if d > 0.5 then f + 1 else if f % 2 == 0 then f else f + 1
  }

  function Round2(x: real): real { HalfEven(x * 100.0) as real / 100.0 }

  lemma Round2Bounds(x: real)
    ensures x - HALF_CENT <= Round2(x) <= x + HALF_CENT
    ensures x <= 0.0 ==> Round2(x) <= 0.0
  {
    var y := x * 100.0;
    assert y.Floor as real <= y < y.Floor as real + 1.0;
    assert Round2(x) == HalfEven(y) as real / 100.0;
  }

  /** It is the nearest number of cents, and of two equally near ones the even. */
  lemma RoundsHalfToEven(x: real) returns (cents: int)
    ensures Round2(x) == cents as real / 100.0
    ensures cents as real - 0.5 <= x * 100.0 <= cents as real + 0.5
    ensures x * 100.0 == cents as real - 0.5 || x * 100.0 == cents as real + 0.5 ==> cents % 2 == 0
  {
    cents := HalfEven(x * 100.0);
    var f := (x * 100.0).Floor;
    assert f as real <= x * 100.0 < f as real + 1.0;
  }

  // --- Event exposure -------------------------------------------------------------

  function Dashes(s: string): nat {
    if s == "" then 0 else Dashes(s[1..]) + if s[0] == '-' then 1 else 0
  }

  function BeforeLastDash(s: string): string {
    if s == "" then "" else if s[|s| - 1] == '-' then s[..|s| - 1] else BeforeLastDash(s[..|s| - 1])
  }

  /** Kalshi markets of one event share everything before the last dash. */
  function EventKey(market: string): string {
    if |market| >= 2 && market[..2] == "KX" && Dashes(market) >= 2 then BeforeLastDash(market) else market
  }

  function PriceOf(p: Position): real { if p.currentPrice != 0.0 then p.currentPrice else p.avgCost }

  function MarketOf(p: Position): string { if p.market.Some? then p.market.value else "" }

  function ExposureOf(positions: seq<Position>, event: string): real {
    if positions == [] then 0.0
    else
      var last := positions[|positions| - 1];
      ExposureOf(positions[..|positions| - 1], event) +
      if EventKey(MarketOf(last)) == event then Value(last.size, PriceOf(last)) else 0.0
  }

  function TotalExposure(positions: seq<Position>): real {
    if positions == [] then 0.0
    else
      var last := positions[|positions| - 1];
      TotalExposure(positions[..|positions| - 1]) + Value(last.size, PriceOf(last))
  }

  function Held(positions: seq<Position>): set<string> {
    set p | p in positions && p.market.Some? :: p.market.value
  }

  function At(m: map<string, real>, key: string): real { if key in m then m[key] else 0.0 }

  function SumOf(m: map<string, real>, keys: seq<string>): real {
    if keys == [] then 0.0 else SumOf(m, keys[..|keys| - 1]) + At(m, keys[|keys| - 1])
  }

  ghost predicate NoRepeats(keys: seq<string>) {
    forall i, j :: 0 <= i < j < |keys| ==> keys[i] != keys[j]
  }

  lemma {:induction false} SumOfUpdate(m: map<string, real>, keys: seq<string>, key: string, value: real)
    requires NoRepeats(keys)
    ensures SumOf(m[key := value], keys) == SumOf(m, keys) + if key in keys then value - At(m, key) else 0.0
  {
    if keys == [] {
    } else {
      var init, last := keys[..|keys| - 1], keys[|keys| - 1];
      SumOfUpdate(m, init, key, value);
      assert keys == init + [last];
    }
  }

  lemma SumOfNewKey(m: map<string, real>, keys: seq<string>, key: string, value: real)
    requires NoRepeats(keys) && key !in keys
    ensures SumOf(m[key := value], keys + [key]) == SumOf(m, keys) + value
  {
    SumOfUpdate(m, keys, key, value);
    assert (keys + [key])[..|keys|] == keys;
  }

  lemma {:induction false} DashesOf(s: string, t: string)
    ensures Dashes(s + t) == Dashes(s) + Dashes(t)
    ensures '-' in s ==> Dashes(s) >= 1
    ensures '-' !in s ==> Dashes(s) == 0
  {
    if s == "" {
      assert s + t == t;
    } else {
      assert (s + t)[1..] == s[1..] + t;
      DashesOf(s[1..], t);
      assert s == [s[0]] + s[1..];
    }
  }

  lemma {:induction false} CutAtLastDash(prefix: string, rest: string)
    requires '-' !in rest
    ensures BeforeLastDash(prefix + "-" + rest) == prefix
  {
    var s := prefix + "-" + rest;
    if rest == "" {
      assert s == prefix + "-";
      assert s[..|s| - 1] == prefix;
    } else {
      assert s[|s| - 1] == rest[|rest| - 1] && rest[|rest| - 1] in rest;
      assert s[..|s| - 1] == prefix + "-" + rest[..|rest| - 1];
      CutAtLastDash(prefix, rest[..|rest| - 1]);
    }
  }

  /** Kalshi markets that differ only after their last dash belong to one event, named by
      what they share, when that itself has a dash. */
  lemma SameEvent(prefix: string, rest: string)
    requires "KX" <= prefix && '-' in prefix && '-' !in rest
    ensures EventKey(prefix + "-" + rest) == prefix
  {
    CutAtLastDash(prefix, rest);
    DashesOf(prefix, "-" + rest);
    DashesOf("-", rest);
    var market := prefix + "-" + rest;
    assert market == prefix + ("-" + rest);
    assert market[..2] == prefix[..2] == "KX";
  }

  lemma {:induction false} FewDashes(s: string)
    requires forall i, j :: 0 <= i < j < |s| ==> !(s[i] == '-' && s[j] == '-')
    ensures Dashes(s) <= 1
    ensures s != "" && s[0] == '-' ==> Dashes(s[1..]) == 0
  {
    if s == "" {
    } else {
      FewDashes(s[1..]);
      if s[0] == '-' {
        forall i | 0 <= i < |s[1..]| ensures s[1..][i] != '-' {
          assert s[1..][i] == s[i + 1];
        }
        DashesOf(s[1..], "");
      }
    }
  }

  /** Every other market is an event of its own. */
  lemma OwnEvent(market: string)
    requires !("KX" <= market) || forall i, j :: 0 <= i < j < |market| ==> !(market[i] == '-' && market[j] == '-')
    ensures EventKey(market) == market
  {
    if "KX" <= market {
      FewDashes(market);
    }
  }

  /** A position adds its size, at its current price or its cost where it has no price, to
      the exposure of its event and to no other. */
  lemma PositionExposes(positions: seq<Position>, p: Position, event: string)
    ensures ExposureOf(positions + [p], event) == ExposureOf(positions, event) +
            (if EventKey(if p.market.Some? then p.market.value else "") != event then 0.0
             else if p.currentPrice == 0.0 then Value(p.size, p.avgCost) else Value(p.size, p.currentPrice))
  {
    assert (positions + [p])[..|positions|] == positions;
    hide Value, EventKey;
  }

  /** The dictionary of exposures holds each event's own sum, and its values add
      up to the exposure of the whole book. */
  method EventExposure(positions: seq<Position>) returns (exposure: map<string, real>, total: real)
    ensures forall event :: At(exposure, event) == ExposureOf(positions, event)
    ensures total == TotalExposure(positions)
  {
    hide Value, EventKey, PriceOf, SumOf;
    exposure := map[];
    var keys: seq<string> := [];
    NoSum(exposure);
    var i := 0;
    while i < |positions|
      invariant 0 <= i <= |positions|
      invariant NoRepeats(keys) && forall key :: key in exposure <==> key in keys
      invariant forall event :: At(exposure, event) == ExposureOf(positions[..i], event)
      invariant SumOf(exposure, keys) == TotalExposure(positions[..i])
    {
      PrefixGrows(positions, i);
      var p := positions[i];
      var event := EventKey(MarketOf(p));
      var updated := At(exposure, event) + Value(p.size, PriceOf(p));
      if event in exposure {
        SumOfUpdate(exposure, keys, event, updated);
      } else {
        SumOfNewKey(exposure, keys, event, updated);
        keys := keys + [event];
      }
      exposure := exposure[event := updated];
      i := i + 1;
    }
    WholePrefix(positions);
    total := SumOf(exposure, keys);
  }

  lemma NoSum(m: map<string, real>)
    ensures SumOf(m, []) == 0.0
  {}

  // --- One pass over the ranking ----------------------------------------------------

  /** What the pass reads: limits, capital and the book it starts from. */
  datatype Setting = Setting(maxPositions: int, capital: real, categoryBudget: real, eventBudget: real,
                             positions: seq<Position>)

  datatype Book = Book(remaining: real, byCategory: map<string, real>, picks: seq<Pick>, stopped: bool)

  function OpenCount(s: Setting, b: Book): int { |s.positions| + |b.picks| }

  predicate Eligible(s: Setting, c: Candidate) {
    c.ev > 0.0 && c.market !in Held(s.positions) && ExposureOf(s.positions, EventKey(c.market)) < s.eventBudget
  }

  function Offered(s: Setting, b: Book, c: Candidate): real {
    Min(Min(c.kelly, b.remaining), s.categoryBudget - At(b.byCategory, c.category))
  }

  function Take(b: Book, c: Candidate, size: real): Book {
    Book(b.remaining - size, b.byCategory[c.category := At(b.byCategory, c.category) + size],
         b.picks + [Pick(c, size)], b.stopped)
  }

  function Consider(s: Setting, b: Book, c: Candidate): Book {
    if b.stopped || !Eligible(s, c) then b
    else if OpenCount(s, b) >= s.maxPositions then b.(stopped := true)
    else if At(b.byCategory, c.category) >= s.categoryBudget then b
    else if Round2(Offered(s, b, c)) <= 0.0 then b.(stopped := true)
    else Take(b, c, Round2(Offered(s, b, c)))
  }

  function Pass(s: Setting, ranked: seq<Candidate>): Book {
    if ranked == [] then Book(s.capital, map[], [], false)
    else Consider(s, Pass(s, ranked[..|ranked| - 1]), ranked[|ranked| - 1])
  }

  function Rank(c: Candidate): real { -c.ev }

  function SettingOf(maxPositions: int, categoryPct: real, capital: real, positions: seq<Position>): Setting {
    Setting(maxPositions, capital, Value(categoryPct / 100.0, capital),
            (capital + TotalExposure(positions)) * EVENT_SHARE, positions)
  }

  function Allocation(s: Setting, candidates: seq<Candidate>): seq<Pick> {
    Pass(s, SortBy(candidates, Rank)).picks
  }

  method Allocate(candidates: seq<Candidate>, maxPositions: int, categoryPct: real, capital: real,
                  positions: seq<Position>) returns (granted: seq<Pick>)
    ensures granted == Allocation(SettingOf(maxPositions, categoryPct, capital, positions), candidates)
  {
    hide Value, ExposureOf, TotalExposure, SortBy, EventKey, Round2, At;
    ghost var s := SettingOf(maxPositions, categoryPct, capital, positions);
    var held := Held(positions);
    var exposure, exposed := EventExposure(positions);
    var categoryBudget := Value(categoryPct / 100.0, capital);
    var totalCapital := capital + exposed;
    var ranked := SortBy(candidates, Rank);
    var remaining, openCount := capital, |positions|;
    var byCategory: map<string, real> := map[];
    granted := [];
    var i := 0;
    while i < |ranked|
      invariant 0 <= i <= |ranked|
      invariant openCount == |positions| + |granted|
      invariant Book(remaining, byCategory, granted, false) == Pass(s, ranked[..i])
    {
      PrefixGrows(ranked, i);
      var c := ranked[i];
      i := i + 1;
      if c.ev <= 0.0 || c.market in held {
        continue;
      }
      if At(exposure, EventKey(c.market)) >= totalCapital * EVENT_SHARE {
        continue;
      }
      if openCount >= maxPositions {
        StoppedStays(s, ranked, i);
        break;
      }
      var spent := At(byCategory, c.category);
      if spent >= categoryBudget {
        continue;
      }
      var size := Min(Min(c.kelly, remaining), categoryBudget - spent);
      if Round2(size) <= 0.0 {
        StoppedStays(s, ranked, i);
        break;
      }
      var rounded := Round2(size);
      remaining := remaining - rounded;
      byCategory := byCategory[c.category := spent + rounded];
      openCount := openCount + 1;
      granted := granted + [Pick(c, rounded)];
    }
    WholePrefix(ranked);
  }

  lemma {:induction false} StoppedStays(s: Setting, ranked: seq<Candidate>, i: nat)
    requires i <= |ranked| && Pass(s, ranked[..i]).stopped
    ensures Pass(s, ranked).picks == Pass(s, ranked[..i]).picks && Pass(s, ranked).stopped
  {
    if i == |ranked| {
      WholePrefix(ranked);
    } else {
      var init := ranked[..|ranked| - 1];
      assert init[..i] == ranked[..i];
      StoppedStays(s, init, i);
    }
  }

  // --- What the allocation keeps ------------------------------------------------------

  function Spent(picks: seq<Pick>): real {
    if picks == [] then 0.0 else Spent(picks[..|picks| - 1]) + picks[|picks| - 1].size
  }

  function SpentOn(picks: seq<Pick>, category: string): real {
    if picks == [] then 0.0
    else
      var last := picks[|picks| - 1];
      SpentOn(picks[..|picks| - 1], category) + if last.candidate.category == category then last.size else 0.0
  }

  predicate PickSound(s: Setting, p: Pick) {
    && Eligible(s, p.candidate)
    && p.size > 0.0
    && p.size <= p.candidate.kelly + HALF_CENT
  }

  ghost predicate WithinBudgets(s: Setting, b: Book) {
    && b.remaining == s.capital - Spent(b.picks)
    && (b.picks != [] ==> Spent(b.picks) <= s.capital + HALF_CENT)
    && (forall category :: At(b.byCategory, category) == SpentOn(b.picks, category))
    && (forall category :: SpentOn(b.picks, category) > 0.0 ==>
        SpentOn(b.picks, category) <= s.categoryBudget + HALF_CENT)
    && (forall i :: 0 <= i < |b.picks| ==> PickSound(s, b.picks[i]))
    && (b.picks != [] ==> OpenCount(s, b) <= s.maxPositions)
  }

  lemma SpentGrows(picks: seq<Pick>, p: Pick)
    ensures Spent(picks + [p]) == Spent(picks) + p.size
    ensures forall category :: SpentOn(picks + [p], category)
              == SpentOn(picks, category) + if p.candidate.category == category then p.size else 0.0
  {
    assert (picks + [p])[..|picks|] == picks;
  }

  lemma TakeKeeps(s: Setting, b: Book, c: Candidate)
    requires WithinBudgets(s, b) && Eligible(s, c)
    requires OpenCount(s, b) < s.maxPositions && Round2(Offered(s, b, c)) > 0.0
    ensures WithinBudgets(s, Take(b, c, Round2(Offered(s, b, c))))
  {
    hide Eligible, Round2, Spent, SpentOn;
    var size := Round2(Offered(s, b, c));
    Round2Bounds(Offered(s, b, c));
    SpentGrows(b.picks, Pick(c, size));
    var after := Take(b, c, size);
    assert At(b.byCategory, c.category) == SpentOn(b.picks, c.category);
    forall i | 0 <= i < |after.picks| ensures PickSound(s, after.picks[i]) {
      assert i < |b.picks| ==> after.picks[i] == b.picks[i];
    }
  }

  lemma {:induction false} PassKeeps(s: Setting, ranked: seq<Candidate>)
    ensures WithinBudgets(s, Pass(s, ranked))
  {
    if ranked == [] {
    } else {
      var init, last := ranked[..|ranked| - 1], ranked[|ranked| - 1];
      PassKeeps(s, init);
      hide Eligible, Round2, Take, Spent, SpentOn, Offered;
      var b := Pass(s, init);
      if Eligible(s, last) && OpenCount(s, b) < s.maxPositions && Round2(Offered(s, b, last)) > 0.0 {
        TakeKeeps(s, b, last);
      }
    }
  }

  /** Everything spent stays within the capital, and each category within its
      budget, up to the half cent that one rounding can add; the book never grows
      beyond the position limit; every pick is worth having, not already held, and
      of positive size. */
  lemma AllocationBounds(s: Setting, candidates: seq<Candidate>, category: string)
    ensures var picks := Allocation(s, candidates);
            && Spent(picks) <= Max(0.0, s.capital + HALF_CENT)
            && SpentOn(picks, category) <= Max(0.0, s.categoryBudget + HALF_CENT)
            && |s.positions| + |picks| <= (if s.maxPositions >= |s.positions| then s.maxPositions else |s.positions|)
            && forall i :: 0 <= i < |picks| ==> PickSound(s, picks[i])
  {
    hide PickSound, SpentOn, Pass;
    PassKeeps(s, SortBy(candidates, Rank));
  }

  /** What an allocation grants, in terms of the call: a candidate that beats cash, in a market
      nobody holds, whose event has less than a quarter of all the money, cash and positions
      together, and no more than its Kelly size and half a cent. */
  lemma GrantedAsAsked(candidates: seq<Candidate>, maxPositions: int, categoryPct: real, capital: real,
                       positions: seq<Position>, i: nat)
    requires i < |Allocation(SettingOf(maxPositions, categoryPct, capital, positions), candidates)|
    ensures var pick := Allocation(SettingOf(maxPositions, categoryPct, capital, positions), candidates)[i];
            var c := pick.candidate;
            && c.ev > 0.0 && 0.0 < pick.size <= c.kelly + 0.005
            && (forall p :: p in positions ==> p.market != Some(c.market))
            && ExposureOf(positions, EventKey(c.market)) < (capital + TotalExposure(positions)) * 0.25
  {
    var s := SettingOf(maxPositions, categoryPct, capital, positions);
    AllocationBounds(s, candidates, "");
    var picks := Allocation(s, candidates);
    assert PickSound(s, picks[i]);
    hide Allocation, ExposureOf, TotalExposure, EventKey, Value;
    forall p | p in positions ensures p.market != Some(picks[i].candidate.market) {
      assert p.market.Some? ==> p.market.value in Held(positions);
    }
  }

  /** And in all: what is granted of one category stays within the category's share of the
      capital, and everything within the capital, up to half a cent. */
  lemma GrantedInAll(candidates: seq<Candidate>, maxPositions: int, categoryPct: real, capital: real,
                     positions: seq<Position>, category: string)
    ensures var picks := Allocation(SettingOf(maxPositions, categoryPct, capital, positions), candidates);
            && Spent(picks) <= Max(0.0, capital + 0.005)
            && SpentOn(picks, category) <= Max(0.0, Value(categoryPct / 100.0, capital) + 0.005)
            && (picks != [] ==> |positions| + |picks| <= maxPositions)
  {
    var s := SettingOf(maxPositions, categoryPct, capital, positions);
    AllocationBounds(s, candidates, category);
    PassKeeps(s, SortBy(candidates, Rank));
    hide Pass, Spent, SpentOn, Value, PickSound, SortBy;
  }

  // --- Order -----------------------------------------------------------------------------

  /** `picks` takes some of `ranked`, in order. */
  ghost predicate PickedInOrder(picks: seq<Pick>, ranked: seq<Candidate>) {
    if ranked == [] then picks == []
    else
      var init, last := ranked[..|ranked| - 1], ranked[|ranked| - 1];
      || PickedInOrder(picks, init)
      || (picks != [] && picks[|picks| - 1].candidate == last && PickedInOrder(picks[..|picks| - 1], init))
  }

  lemma {:induction false} PassInOrder(s: Setting, ranked: seq<Candidate>)
    ensures PickedInOrder(Pass(s, ranked).picks, ranked)
  {
    if ranked == [] {
    } else {
      hide Eligible, Round2, Offered;
      var init, last := ranked[..|ranked| - 1], ranked[|ranked| - 1];
      PassInOrder(s, init);
      var b := Pass(s, init);
      if Pass(s, ranked).picks != b.picks {
        assert Pass(s, ranked).picks[..|b.picks|] == b.picks;
      }
    }
  }

  ghost predicate BestFirst(picks: seq<Pick>) {
    forall i, j :: 0 <= i < j < |picks| ==> picks[i].candidate.ev >= picks[j].candidate.ev
  }

  lemma LastIsLeast(ranked: seq<Candidate>)
    requires ranked != [] && Ascending(ranked, Rank)
    ensures Ascending(ranked[..|ranked| - 1], Rank)
    ensures forall c :: c in ranked[..|ranked| - 1] ==> c.ev >= ranked[|ranked| - 1].ev
  {
    forall c | c in ranked[..|ranked| - 1] ensures c.ev >= ranked[|ranked| - 1].ev {
      var k :| 0 <= k < |ranked| - 1 && ranked[k] == c;
      assert Rank(ranked[k]) <= Rank(ranked[|ranked| - 1]);
    }
  }

  lemma OneMoreBest(picks: seq<Pick>, last: Pick)
    requires BestFirst(picks)
    requires forall i :: 0 <= i < |picks| ==> picks[i].candidate.ev >= last.candidate.ev
    ensures BestFirst(picks + [last])
  {}

  lemma {:induction false} InOrderBestFirst(picks: seq<Pick>, ranked: seq<Candidate>)
    requires PickedInOrder(picks, ranked) && Ascending(ranked, Rank)
    ensures BestFirst(picks)
    ensures forall i :: 0 <= i < |picks| ==> picks[i].candidate in ranked
  {
    if ranked == [] {
    } else {
      var init, last := ranked[..|ranked| - 1], ranked[|ranked| - 1];
      assert ranked == init + [last];
      LastIsLeast(ranked);
      if PickedInOrder(picks, init) {
        InOrderBestFirst(picks, init);
      } else {
        var before := picks[..|picks| - 1];
        InOrderBestFirst(before, init);
        OneMoreBest(before, picks[|picks| - 1]);
        hide PickedInOrder, BestFirst, Ascending;
        assert picks == before + [picks[|picks| - 1]];
      }
    }
  }

  /** The picks are a sub-sequence of the ranking, best first, each one of the
      candidates. */
  lemma AllocationRanked(s: Setting, candidates: seq<Candidate>)
    ensures PickedInOrder(Allocation(s, candidates), SortBy(candidates, Rank))
    ensures BestFirst(Allocation(s, candidates))
    ensures forall i :: 0 <= i < |Allocation(s, candidates)| ==> Allocation(s, candidates)[i].candidate in candidates
  {
    hide Pass, PickedInOrder, BestFirst;
    var ranked := SortBy(candidates, Rank);
    SortIsAscendingPermutation(candidates, Rank);
    PassInOrder(s, ranked);
    InOrderBestFirst(Allocation(s, candidates), ranked);
    forall c | c in ranked ensures c in candidates {
      assert c in multiset(ranked) && c in multiset(candidates);
    }
  }

  // --- Nothing is refused without a reason ---------------------------------------------

  ghost predicate Picked(picks: seq<Pick>, c: Candidate) {
    exists i :: 0 <= i < |picks| && picks[i].candidate == c
  }

  /** Why the pass ended before its end: no place left, or nothing left to offer
      to the candidate it had come to. */
  ghost predicate StopsAt(s: Setting, b: Book, c: Candidate) {
    Eligible(s, c) && (OpenCount(s, b) >= s.maxPositions || Round2(Offered(s, b, c)) <= 0.0)
  }

  /** A candidate of the part already passed was picked, or its category was full. */
  ghost predicate Answered(s: Setting, b: Book, c: Candidate) {
    Eligible(s, c) ==> Picked(b.picks, c) || At(b.byCategory, c.category) >= s.categoryBudget
  }

  ghost predicate Reasoned(s: Setting, b: Book, ranked: seq<Candidate>) {
    if b.stopped then exists c :: c in ranked && StopsAt(s, b, c)
    else forall c :: c in ranked ==> Answered(s, b, c)
  }

  lemma TakeAnswers(s: Setting, b: Book, c: Candidate, size: real, other: Candidate)
    requires size > 0.0
    ensures Answered(s, b, other) ==> Answered(s, Take(b, c, size), other)
    ensures Answered(s, Take(b, c, size), c)
  {
    hide Eligible;
    var after := Take(b, c, size);
    assert after.picks[|b.picks|].candidate == c;
    if i :| 0 <= i < |b.picks| && b.picks[i].candidate == other {
      assert after.picks[i].candidate == other;
    }
  }

  lemma ConsiderReasoned(s: Setting, b: Book, ranked: seq<Candidate>, c: Candidate)
    requires Reasoned(s, b, ranked)
    ensures Reasoned(s, Consider(s, b, c), ranked + [c])
  {
    hide Eligible, Round2, Offered, At, Picked, Take, Answered;
    var after := Consider(s, b, c);
    if b.stopped {
      var x :| x in ranked && StopsAt(s, b, x);
      assert x in ranked + [c];
    } else if after.stopped {
      StopReason(s, b, c);
      assert c in ranked + [c];
    } else {
      forall x | x in ranked + [c] ensures Answered(s, after, x) {
        if after == b {
          assert Answered(s, b, c) by {
            UnpickedAnswered(s, b, c);
          }
        } else {
          TakeAnswers(s, b, c, Round2(Offered(s, b, c)), x);
        }
      }
    }
  }

  lemma StopReason(s: Setting, b: Book, c: Candidate)
    requires !b.stopped && Consider(s, b, c).stopped
    ensures StopsAt(s, Consider(s, b, c), c)
  {
    hide Eligible, Round2, At;
  }

  lemma UnpickedAnswered(s: Setting, b: Book, c: Candidate)
    requires !b.stopped && Consider(s, b, c) == b
    ensures Answered(s, b, c)
  {
    hide Eligible, Round2, Offered;
    assert |Take(b, c, Round2(Offered(s, b, c))).picks| == |b.picks| + 1;
  }

  lemma {:induction false} PassReasoned(s: Setting, ranked: seq<Candidate>)
    ensures Reasoned(s, Pass(s, ranked), ranked)
  {
    if ranked == [] {
    } else {
      hide Consider, Reasoned;
      var init, last := ranked[..|ranked| - 1], ranked[|ranked| - 1];
      PassReasoned(s, init);
      ConsiderReasoned(s, Pass(s, init), init, last);
      assert ranked == init + [last];
    }
  }

  /** An eligible candidate that got nothing either met a full category, or the
      pass had ended: for want of a place, or because what could be offered to some
      eligible candidate rounds to no money at all. */
  lemma RefusedForAReason(s: Setting, candidates: seq<Candidate>, c: Candidate)
    requires c in candidates && Eligible(s, c) && !Picked(Allocation(s, candidates), c)
    ensures var b := Pass(s, SortBy(candidates, Rank));
            || (!b.stopped && SpentOn(b.picks, c.category) >= s.categoryBudget)
            || (b.stopped && exists x :: x in candidates && StopsAt(s, b, x))
  {
    hide Pass, Eligible, StopsAt, SpentOn, Picked;
    var ranked := SortBy(candidates, Rank);
    SortIsAscendingPermutation(candidates, Rank);
    forall x ensures x in ranked <==> x in candidates {
      assert x in ranked <==> x in multiset(ranked);
      assert x in candidates <==> x in multiset(candidates);
    }
    PassReasoned(s, ranked);
    PassKeeps(s, ranked);
    var b := Pass(s, ranked);
    assert At(b.byCategory, c.category) == SpentOn(b.picks, c.category);
  }

  // --- When a pass ends with money left ---------------------------------------------------

  predicate MoneyLeft(s: Setting, b: Book) { OpenCount(s, b) < s.maxPositions && Round2(b.remaining) > 0.0 }

  function Headroom(s: Setting, b: Book, c: Candidate): real { s.categoryBudget - At(b.byCategory, c.category) }

  /** The pass comes to this candidate and finds its category not full. */
  predicate Meets(s: Setting, b: Book, c: Candidate) {
    !b.stopped && Eligible(s, c) && At(b.byCategory, c.category) < s.categoryBudget
  }

  lemma HalfEvenMonotone(x: real, y: real)
    requires x <= y
    ensures HalfEven(x) <= HalfEven(y)
  {
    assert x.Floor <= y.Floor by {
      assert x.Floor as real <= x && y < (y.Floor + 1) as real;
    }
  }

  lemma Round2Monotone(x: real, y: real)
    requires x <= y
    ensures Round2(x) <= Round2(y)
  {
    hide HalfEven;
    HalfEvenMonotone(x * 100.0, y * 100.0);
  }

  /** The least of three amounts rounds to nothing when one of them does. */
  lemma OfferedRoundsToNothing(s: Setting, b: Book, c: Candidate)
    ensures Round2(Offered(s, b, c)) <= 0.0
            <==> Round2(c.kelly) <= 0.0 || Round2(b.remaining) <= 0.0 || Round2(Headroom(s, b, c)) <= 0.0
  {
    hide Round2;
    Round2Monotone(Offered(s, b, c), c.kelly);
    Round2Monotone(Offered(s, b, c), b.remaining);
    Round2Monotone(Offered(s, b, c), Headroom(s, b, c));
  }

  /** What the pass meets here is too small to buy, although a place and a cent of
      capital are left. */
  predicate StopsForDust(s: Setting, b: Book, c: Candidate) {
    Meets(s, b, c) && MoneyLeft(s, b) && (Round2(c.kelly) <= 0.0 || Round2(Headroom(s, b, c)) <= 0.0)
  }

  ghost predicate DustAt(s: Setting, ranked: seq<Candidate>, n: nat) {
    n < |ranked| && StopsForDust(s, Pass(s, ranked[..n]), ranked[n])
  }

  lemma ConsiderStops(s: Setting, b: Book, c: Candidate)
    ensures Consider(s, b, c).stopped && MoneyLeft(s, Consider(s, b, c))
            <==> (b.stopped && MoneyLeft(s, b)) || StopsForDust(s, b, c)
  {
    OfferedRoundsToNothing(s, b, c);
    hide Eligible, Round2, Offered, At;
  }

  /** A pass ends with a place and a cent of capital left exactly when, at the first
      candidate it cannot serve, the Kelly size or the room left in the category
      rounds to nothing. */
  lemma {:induction false} EndsWithMoneyIff(s: Setting, ranked: seq<Candidate>)
    ensures Pass(s, ranked).stopped && MoneyLeft(s, Pass(s, ranked)) <==> exists n :: DustAt(s, ranked, n)
  {
    hide Consider, MoneyLeft, StopsForDust;
    if ranked == [] {
    } else {
      var init, last := ranked[..|ranked| - 1], ranked[|ranked| - 1];
      EndsWithMoneyIff(s, init);
      ConsiderStops(s, Pass(s, init), last);
      forall n: nat | n < |init| ensures DustAt(s, ranked, n) <==> DustAt(s, init, n) {
        assert ranked[..n] == init[..n];
      }
      assert DustAt(s, ranked, |init|) <==> StopsForDust(s, Pass(s, init), last);
      if n: nat :| DustAt(s, init, n) {
        assert DustAt(s, ranked, n);
      }
      if n: nat :| DustAt(s, ranked, n) {
        assert n < |init| ==> DustAt(s, init, n);
      }
    }
  }

  /** So an eligible first candidate whose Kelly size rounds to nothing leaves all
      the capital unspent. */
  lemma TinyFirstEndsThePass(s: Setting, ranked: seq<Candidate>)
    requires ranked != [] && Eligible(s, ranked[0]) && Round2(ranked[0].kelly) <= 0.0
    requires s.maxPositions > |s.positions| && Round2(s.capital) > 0.0 && s.categoryBudget > 0.0
    ensures Pass(s, ranked).picks == [] && Pass(s, ranked).stopped
  {
    var start := Book(s.capital, map[], [], false);
    assert ranked[..1][..0] == [] && ranked[..1][0] == ranked[0];
    OfferedRoundsToNothing(s, start, ranked[0]);
    hide Eligible, Round2, Offered;
    assert Pass(s, ranked[..1][..0]) == start;
    assert Pass(s, ranked[..1]) == start.(stopped := true);
    StoppedStays(s, ranked, 1);
  }

  // Whether a category's headroom can be such dust depends on its budget alone, since
  // a pass spends whole cents.

  function Cents(k: int): real { k as real / 100.0 }

  ghost predicate InCents(x: real) {
    exists k: nat :: x == Cents(k)
  }

  /** Past its last whole cent the budget holds up to half a cent. */
  predicate DustyBudget(budget: real) {
    var cents := budget * 100.0;
    budget > 0.0 && 0.0 < cents - cents.Floor as real <= 0.5
  }

  lemma CentsAdd(x: real, y: real)
    requires InCents(x) && InCents(y)
    ensures InCents(x + y)
  {
    var i: nat, j: nat :| x == Cents(i) && y == Cents(j);
    assert x + y == Cents(i + j);
  }

  lemma RoundedInCents(x: real)
    requires Round2(x) > 0.0
    ensures InCents(Round2(x))
  {
    hide HalfEven;
    assert Round2(x) == Cents(HalfEven(x * 100.0));
  }

  lemma {:induction false} PassInCents(s: Setting, ranked: seq<Candidate>, category: string)
    ensures InCents(At(Pass(s, ranked).byCategory, category))
  {
    if ranked == [] {
      NothingInCents();
    } else {
      hide Eligible, Offered, Round2, InCents;
      var b, last := Pass(s, ranked[..|ranked| - 1]), ranked[|ranked| - 1];
      PassInCents(s, ranked[..|ranked| - 1], category);
      if Round2(Offered(s, b, last)) > 0.0 {
        RoundedInCents(Offered(s, b, last));
        CentsAdd(At(b.byCategory, category), Round2(Offered(s, b, last)));
      }
    }
  }

  lemma NothingInCents()
    ensures InCents(0.0)
  {
    assert Cents(0) == 0.0;
  }

  /** Of a budget and a smaller amount in whole cents, less than half a cent can
      be left exactly when the amount is the budget's last whole cent. */
  lemma DustIsFraction(budget: real, k: nat)
    requires Cents(k) < budget
    ensures Round2(budget - Cents(k)) <= 0.0 <==> DustyBudget(budget) && k == (budget * 100.0).Floor
  {
    var y := budget * 100.0;
    assert (budget - Cents(k)) * 100.0 == y - k as real;
    assert (y - k as real).Floor == y.Floor - k;
    assert Round2(budget - Cents(k)) <= 0.0 <==> HalfEven(y - k as real) <= 0;
  }

  predicate HeadroomStops(s: Setting, b: Book, c: Candidate) {
    StopsForDust(s, b, c) && Round2(c.kelly) > 0.0
  }

  ghost predicate MarketsDistinct(candidates: seq<Candidate>) {
    forall i, j :: 0 <= i < j < |candidates| ==> candidates[i].market != candidates[j].market
  }

  ghost predicate HeadroomCanEnd(s: Setting) {
    exists candidates, n: nat :: MarketsDistinct(candidates) && HeadroomEndsAt(s, SortBy(candidates, Rank), n)
  }

  ghost predicate HeadroomEndsAt(s: Setting, ranked: seq<Candidate>, n: nat) {
    n < |ranked| && HeadroomStops(s, Pass(s, ranked[..n]), ranked[n])
  }

  lemma RoundsToItself(k: int)
    ensures Round2(Cents(k)) == Cents(k)
  {
    assert Cents(k) * 100.0 == k as real;
  }

  lemma DustAtOnce(s: Setting, c: Candidate)
    requires DustyBudget(s.categoryBudget) && (s.categoryBudget * 100.0).Floor == 0 && Eligible(s, c)
    requires s.maxPositions > |s.positions| && Round2(s.capital) > 0.0
    ensures HeadroomEndsAt(s, SortBy([c.(kelly := Cents(1))], Rank), 0)
  {
    hide Eligible, Round2, SortBy;
    var b := c.(kelly := Cents(1));
    SortedOne(b);
    RoundsToItself(1);
    assert Cents(0) == 0.0 && Cents(1) == 0.01;
    DustIsFraction(s.categoryBudget, 0);
    SameEligible(s, c, Cents(1));
    hide DustyBudget, Cents;
    assert [b][..0] == [] && Pass(s, [b][..0]) == Book(s.capital, map[], [], false);
  }

  /** Two markets of one category, the better of which takes the whole cents. */
  lemma DustAfterWholeCents(s: Setting, c: Candidate, d: Candidate, k: nat)
    requires DustyBudget(s.categoryBudget) && (s.categoryBudget * 100.0).Floor == k > 0
    requires Eligible(s, c) && Eligible(s, d) && c.category == d.category && c.ev >= d.ev
    requires s.maxPositions > |s.positions| + 1 && Round2(s.capital - Cents(k)) > 0.0
    ensures HeadroomEndsAt(s, SortBy([c.(kelly := Cents(k)), d.(kelly := Cents(1))], Rank), 1)
  {
    hide Eligible, Round2, SortBy, HeadroomStops;
    var a, b := c.(kelly := Cents(k)), d.(kelly := Cents(1));
    SortedPair(a, b);
    assert 0.0 < Cents(k) < s.categoryBudget;
    RoundsToItself(k);
    MoneyRounds(s.capital - Cents(k));
    SameEligible(s, c, Cents(k));
    SameEligible(s, d, Cents(1));
    assert [a, b][..1] == [a];
    PassOfOne(s, a, Cents(k));
    SecondFindsDust(s, a, b, k);
  }

  /** What rounds to money is money. */
  lemma MoneyRounds(x: real)
    requires Round2(x) > 0.0
    ensures x > 0.0
  {
    hide Round2;
    Round2Bounds(x);
  }

  lemma SecondFindsDust(s: Setting, a: Candidate, b: Candidate, k: nat)
    requires DustyBudget(s.categoryBudget) && (s.categoryBudget * 100.0).Floor == k && Cents(k) < s.categoryBudget
    requires Eligible(s, b) && b.kelly == Cents(1) && a.category == b.category
    requires s.maxPositions > |s.positions| + 1 && Round2(s.capital - Cents(k)) > 0.0
    ensures HeadroomStops(s, Take(Book(s.capital, map[], [], false), a, Cents(k)), b)
  {
    hide Eligible, Round2;
    RoundsToItself(1);
    assert Cents(1) == 0.01;
    DustIsFraction(s.categoryBudget, k);
    hide DustyBudget, Cents;
  }

  lemma PassOfOne(s: Setting, a: Candidate, size: real)
    requires Eligible(s, a) && s.maxPositions > |s.positions| && s.categoryBudget > 0.0
    requires Round2(Offered(s, Book(s.capital, map[], [], false), a)) == size > 0.0
    ensures Pass(s, [a]) == Take(Book(s.capital, map[], [], false), a, size)
  {
    hide Eligible, Round2, Offered;
    assert [a][..0] == [] && Pass(s, [a][..0]) == Book(s.capital, map[], [], false);
  }

  lemma SortedPair(a: Candidate, b: Candidate)
    requires Rank(a) <= Rank(b)
    ensures SortBy([a, b], Rank) == [a, b]
  {
    assert [a, b][1..] == [b];
    SortedOne(b);
  }

  lemma SortedOne(b: Candidate)
    ensures SortBy([b], Rank) == [b]
  {
    assert [b][1..] == [];
  }

  lemma SameEligible(s: Setting, c: Candidate, kelly: real)
    ensures Eligible(s, c.(kelly := kelly)) == Eligible(s, c)
  {}

  lemma WholeCents(budget: real)
    requires DustyBudget(budget)
    ensures (budget * 100.0).Floor >= 0
  {}

  /** No category takes more than all of them together. */
  lemma {:induction false} CategoryWithinSpent(s: Setting, picks: seq<Pick>, category: string)
    requires forall i :: 0 <= i < |picks| ==> PickSound(s, picks[i])
    ensures SpentOn(picks, category) <= Spent(picks)
  {
    if picks == [] {
    } else {
      hide Eligible;
      assert PickSound(s, picks[|picks| - 1]);
      CategoryWithinSpent(s, picks[..|picks| - 1], category);
    }
  }

  /** The room left in a category can end the pass over some list of candidates, with
      a place and capital left and a Kelly size worth buying, exactly when the budget
      of a category is more than a whole number of cents by at most half a cent, and
      the capital without those cents still rounds to money. A budget of whole cents
      never ends a pass. */
  lemma HeadroomCanEndIff(s: Setting, c: Candidate, d: Candidate)
    requires Eligible(s, c) && Eligible(s, d) && c.category == d.category && c.market != d.market
    requires s.maxPositions > |s.positions| + 1
    ensures HeadroomCanEnd(s)
            <==> DustyBudget(s.categoryBudget) && Round2(s.capital - Cents((s.categoryBudget * 100.0).Floor)) > 0.0
  {
    hide Pass, SortBy, Eligible, DustyBudget, HeadroomEndsAt, Cents, Round2;
    var k := (s.categoryBudget * 100.0).Floor;
    if DustyBudget(s.categoryBudget) && Round2(s.capital - Cents(k)) > 0.0 {
      WholeCents(s.categoryBudget);
      if k == 0 {
        NoCents();
        DustAtOnce(s, c);
        assert MarketsDistinct([c.(kelly := Cents(1))]);
      } else if c.ev >= d.ev {
        DustAfterWholeCents(s, c, d, k);
        assert MarketsDistinct([c.(kelly := Cents(k)), d.(kelly := Cents(1))]);
      } else {
        DustAfterWholeCents(s, d, c, k);
        assert MarketsDistinct([d.(kelly := Cents(k)), c.(kelly := Cents(1))]);
      }
    }
    if HeadroomCanEnd(s) {
      var candidates, n: nat :| MarketsDistinct(candidates) && HeadroomEndsAt(s, SortBy(candidates, Rank), n);
      EndedByDust(s, SortBy(candidates, Rank), n);
    }
  }

  lemma NoCents()
    ensures Cents(0) == 0.0
  {}

  lemma EndedByDust(s: Setting, ranked: seq<Candidate>, n: nat)
    requires HeadroomEndsAt(s, ranked, n)
    ensures DustyBudget(s.categoryBudget) && Round2(s.capital - Cents((s.categoryBudget * 100.0).Floor)) > 0.0
  {
    hide Pass, Eligible, DustyBudget, Round2, PickSound, Spent, SpentOn;
    var b, category := Pass(s, ranked[..n]), ranked[n].category;
    PassInCents(s, ranked[..n], category);
    var k: nat :| At(b.byCategory, category) == Cents(k);
    DustIsFraction(s.categoryBudget, k);
    PassKeeps(s, ranked[..n]);
    assert At(b.byCategory, category) == SpentOn(b.picks, category);
    CategoryWithinSpent(s, b.picks, category);
    Round2Monotone(b.remaining, s.capital - Cents(k));
  }

  /** A fraction of a cent left in one category ends the pass for all of them: the
      third candidate, of another category and with most of the capital unspent, is
      never looked at. */
  lemma CategoryDustEndsThePass(s: Setting, a: Candidate, b: Candidate, other: Candidate)
    requires s.maxPositions > |s.positions| + 2 && s.capital == 100.0 && s.categoryBudget == 10.004
    requires Eligible(s, a) && Eligible(s, b) && Eligible(s, other)
    requires a.category == b.category != other.category
    requires a.kelly == 50.0 && b.kelly == 50.0 && other.kelly == 50.0
    ensures Pass(s, [a, b, other]).picks == [Pick(a, 10.0)] && Pass(s, [a, b, other]).stopped
    ensures Round2(Offered(s, Pass(s, [a, b, other]), other)) == 10.0
  {
    hide Eligible;
    var start := Book(s.capital, map[], [], false);
    assert [a, b, other][..2] == [a, b] && [a, b][..1] == [a] && [a][..0] == [];
    assert Pass(s, [a][..0]) == start;
    assert Offered(s, start, a) == 10.004;
    assert HalfEven(1000.4) == 1000;
    var first := Take(start, a, 10.0);
    assert Pass(s, [a]) == first;
    assert At(first.byCategory, b.category) == 10.0;
    assert Offered(s, first, b) == 0.004;
    assert HalfEven(0.4) == 0;
    assert Pass(s, [a, b]) == first.(stopped := true);
    assert Pass(s, [a, b, other]) == first.(stopped := true);
    assert Offered(s, first.(stopped := true), other) == 10.004;
  }
}
