/** One pass of the position sync: the venue's report of what is held overwrites
    the live rows, and live rows the venue no longer reports are removed. */
module VenueMirror {
  import opened Lists
  import opened AverageCost

  datatype Row = Row(tokenId: Option<string>, size: real, avg: real, total: real)

  datatype Holding = Holding(exchange: string, tokenId: Option<string>)

  /** A leg of the venue's report, its outcome already mapped to a side. */
  datatype Leg = Leg(market: string, token: string, tokenId: string, size: real, avg: real)

  type Table = map<Key, Row>

  function KeyOf(leg: Leg): Key { Key(leg.market, leg.token, false) }

  function Unsettled(settled: set<(string, string)>): Leg -> bool {
    (leg: Leg) => (leg.market, leg.token) !in settled
  }

  // --- Upserts --------------------------------------------------------------------

  /** The bot's own average survives a live row of the same token. */
  predicate KeepsAverage(there: Row, leg: Leg) {
    there.size > 0.0 && there.avg > 0.0 && there.tokenId == Some(leg.tokenId)
  }

  function AverageFor(table: Table, leg: Leg): real {
    if KeyOf(leg) in table && KeepsAverage(table[KeyOf(leg)], leg) then table[KeyOf(leg)].avg else leg.avg
  }

  function Mirrored(table: Table, leg: Leg): Row {
    Row(Some(leg.tokenId), leg.size, AverageFor(table, leg), Value(leg.size, AverageFor(table, leg)))
  }

  function UpsertAll(table: Table, legs: seq<Leg>): Table {
    if legs == [] then table
    else
      var before := UpsertAll(table, legs[..|legs| - 1]);
      var last := legs[|legs| - 1];
      before[KeyOf(last) := Mirrored(before, last)]
  }

  // --- Deletes --------------------------------------------------------------------

  function LiveTokens(legs: seq<Leg>): set<string> { set leg | leg in legs :: leg.tokenId }

  /** `token_id NOT IN (...)`: a NULL is in no list and outside none; with no live
      token there is no such clause at all. */
  predicate NotReported(tokenId: Option<string>, legs: seq<Leg>) {
    legs == [] || (tokenId.Some? && tokenId.value !in LiveTokens(legs))
  }

  predicate Stale(key: Key, row: Row, legs: seq<Leg>, polymarket: set<string>) {
    row.size > 0.0 && !key.paper && NotReported(row.tokenId, legs) && key.market in polymarket
  }

  function Swept(table: Table, legs: seq<Leg>, polymarket: set<string>): Table {
    map key | key in table && !Stale(key, table[key], legs, polymarket) :: table[key]
  }

  function Sync(table: Table, legs: seq<Leg>, polymarket: set<string>): Table {
    Swept(UpsertAll(table, legs), legs, polymarket)
  }

  function SweptHoldings(holdings: map<Key, Holding>, legs: seq<Leg>): map<Key, Holding> {
    map key | key in holdings &&
              !(holdings[key].exchange == "polymarket" && !key.paper && NotReported(holdings[key].tokenId, legs))
            :: holdings[key]
  }

  class Mirror {
    var costBasis: Table
    var portfolio: map<Key, Holding>

    constructor (basis: Table, holdings: map<Key, Holding>)
      ensures costBasis == basis && portfolio == holdings
    {
      costBasis, portfolio := basis, holdings;
    }

    /** One transaction; a failed fetch leaves both tables alone. */
    method SyncPositions(fetched: bool, reconciled: seq<Leg>, settled: set<(string, string)>, polymarket: set<string>)
      modifies this
      ensures !fetched ==> costBasis == old(costBasis) && portfolio == old(portfolio)
      ensures fetched ==> costBasis == Sync(old(costBasis), Filter(reconciled, Unsettled(settled)), polymarket)
      ensures fetched ==> portfolio == SweptHoldings(old(portfolio), Filter(reconciled, Unsettled(settled)))
    {
      if !fetched {
        return;
      }
      hide Value;
      var legs := Filter(reconciled, Unsettled(settled));
      var i := 0;
      while i < |legs|
        invariant 0 <= i <= |legs|
        invariant costBasis == UpsertAll(old(costBasis), legs[..i]) && portfolio == old(portfolio)
      {
        PrefixGrows(legs, i);
        var leg := legs[i];
        var key := KeyOf(leg);
        var avg := leg.avg;
        if key in costBasis {
          var there := costBasis[key];
          if there.size > 0.0 && there.avg > 0.0 && there.tokenId == Some(leg.tokenId) {
            avg := there.avg;
          }
        }
        costBasis := costBasis[key := Row(Some(leg.tokenId), leg.size, avg, Value(leg.size, avg))];
        i := i + 1;
      }
      WholePrefix(legs);
      costBasis := Swept(costBasis, legs, polymarket);
      portfolio := SweptHoldings(portfolio, legs);
    }
  }

  // --- What one pass leaves -----------------------------------------------------------

  ghost predicate LegsUnique(legs: seq<Leg>) {
    forall i, j :: 0 <= i < j < |legs| ==> KeyOf(legs[i]) != KeyOf(legs[j])
  }

  ghost predicate IsLeg(legs: seq<Leg>, key: Key) {
    exists i :: 0 <= i < |legs| && KeyOf(legs[i]) == key
  }

  lemma IsLegStep(legs: seq<Leg>, last: Leg, key: Key)
    ensures IsLeg(legs + [last], key) <==> IsLeg(legs, key) || KeyOf(last) == key
  {
    var all := legs + [last];
    assert all[|legs|] == last;
    if i :| 0 <= i < |legs| && KeyOf(legs[i]) == key {
      assert KeyOf(all[i]) == key;
    }
    if i :| 0 <= i < |all| && KeyOf(all[i]) == key {
      assert i < |legs| ==> KeyOf(legs[i]) == key;
    }
  }

  /** An upsert touches exactly the keys of the report, and with one leg per key
      each is decided by the row that was there before the pass. */
  lemma {:induction false} UpsertExact(table: Table, legs: seq<Leg>)
    requires LegsUnique(legs)
    ensures forall key :: key in UpsertAll(table, legs) <==> key in table || IsLeg(legs, key)
    ensures forall key :: key in table && !IsLeg(legs, key) ==> UpsertAll(table, legs)[key] == table[key]
    ensures forall i :: 0 <= i < |legs| ==>
              KeyOf(legs[i]) in UpsertAll(table, legs)
                  && UpsertAll(table, legs)[KeyOf(legs[i])] == Mirrored(table, legs[i])
  {
    if legs == [] {
    } else {
      hide Value, KeepsAverage, Mirrored;
      var init, last := legs[..|legs| - 1], legs[|legs| - 1];
      UpsertExact(table, init);
      assert legs == init + [last];
      forall key ensures IsLeg(legs, key) <==> IsLeg(init, key) || KeyOf(last) == key {
        IsLegStep(init, last, key);
      }
      LastIsNew(init, last);
      assert Mirrored(UpsertAll(table, init), last) == Mirrored(table, last) by {
        SameThere(UpsertAll(table, init), table, last);
      }
    }
  }

  lemma LastIsNew(init: seq<Leg>, last: Leg)
    requires LegsUnique(init + [last])
    ensures !IsLeg(init, KeyOf(last))
  {
    forall i | 0 <= i < |init| ensures KeyOf(init[i]) != KeyOf(last) {
      assert (init + [last])[i] == init[i] && (init + [last])[|init|] == last;
    }
  }

  lemma SameThere(a: Table, b: Table, leg: Leg)
    requires KeyOf(leg) in a <==> KeyOf(leg) in b
    requires KeyOf(leg) in b ==> a[KeyOf(leg)] == b[KeyOf(leg)]
    ensures Mirrored(a, leg) == Mirrored(b, leg)
  {}

  /** Every reported leg has a live row of the venue's size and token, whose total
      is size times average, the average being the bot's own when the row that was
      there allows it and the venue's otherwise. */
  lemma LegsMirrored(table: Table, legs: seq<Leg>, polymarket: set<string>, i: nat)
    requires LegsUnique(legs) && i < |legs|
    ensures var out, key := Sync(table, legs, polymarket), KeyOf(legs[i]);
            && key in out
            && out[key].size == legs[i].size && out[key].tokenId == Some(legs[i].tokenId)
            && out[key].avg == (if key in table && table[key].size > 0.0 && table[key].avg > 0.0
                                   && table[key].tokenId == Some(legs[i].tokenId)
                                then table[key].avg else legs[i].avg)
            && out[key].total == Value(legs[i].size, out[key].avg)
  {
    hide UpsertAll, Value;
    UpsertExact(table, legs);
    assert legs[i] in legs;
    assert legs[i].tokenId in LiveTokens(legs);
  }

  /** A row that is no leg survives exactly when it is paper, of another venue, not
      positive, or carries a token the venue still reports under some other leg, or
      no token at all while the venue reports anything. What survives is unchanged. */
  lemma OthersSwept(table: Table, legs: seq<Leg>, polymarket: set<string>, key: Key)
    requires LegsUnique(legs) && key in table && !IsLeg(legs, key)
    ensures var out := Sync(table, legs, polymarket);
            && (key in out <==>
                  || key.paper || key.market !in polymarket || table[key].size <= 0.0
                  || (legs != [] && (table[key].tokenId.None? || table[key].tokenId.value in LiveTokens(legs))))
            && (key in out ==> out[key] == table[key])
  {
    hide UpsertAll;
    UpsertExact(table, legs);
  }

  /** No row appears from nowhere. */
  lemma NothingInvented(table: Table, legs: seq<Leg>, polymarket: set<string>, key: Key)
    requires LegsUnique(legs) && key in Sync(table, legs, polymarket)
    ensures key in table || IsLeg(legs, key)
  {
    hide UpsertAll;
    UpsertExact(table, legs);
  }

  ghost predicate Reported(legs: seq<Leg>, polymarket: set<string>, table: Table) {
    forall key :: key in table && !key.paper && key.market in polymarket && table[key].size > 0.0 ==> IsLeg(legs, key)
  }

  /** What lets a row outlive the report it is missing from. */
  ghost predicate Shielded(legs: seq<Leg>, polymarket: set<string>, table: Table, key: Key) {
    && key in table && !key.paper && key.market in polymarket && table[key].size > 0.0 && !IsLeg(legs, key)
    && legs != [] && (table[key].tokenId.None? || table[key].tokenId.value in LiveTokens(legs))
  }

  /** After the pass every positive live Polymarket row is one the venue reports,
      exactly when no row of another key carries a reported token id, or none. */
  lemma MirrorExactIff(table: Table, legs: seq<Leg>, polymarket: set<string>)
    requires LegsUnique(legs)
    ensures Reported(legs, polymarket, Sync(table, legs, polymarket)) <==>
            forall key :: key in table ==> !Shielded(legs, polymarket, table, key)
  {
    hide UpsertAll, IsLeg, Swept, LiveTokens;
    var out := Sync(table, legs, polymarket);
    forall key | key in out && !IsLeg(legs, key) ensures key in table && out[key] == table[key] {
      NothingInvented(table, legs, polymarket, key);
      OthersSwept(table, legs, polymarket, key);
    }
    forall key | key in table && !IsLeg(legs, key)
      ensures key in out && !key.paper && key.market in polymarket && table[key].size > 0.0
              <==> Shielded(legs, polymarket, table, key)
    {
      OthersSwept(table, legs, polymarket, key);
    }
  }

  /** A leg that has settled is left out of the report: what is mirrored is every other. */
  lemma SettledLeftOut(reconciled: seq<Leg>, settled: set<(string, string)>, leg: Leg)
    ensures leg in Filter(reconciled, Unsettled(settled))
            <==> leg in reconciled && (leg.market, leg.token) !in settled
  {
    FilterMembers(reconciled, Unsettled(settled));
  }

  /** A portfolio row survives exactly when it is paper, of another venue, or carries a token
      the venue still reports, or none while the venue reports anything; and it is unchanged. */
  lemma HoldingsSwept(holdings: map<Key, Holding>, legs: seq<Leg>, key: Key)
    requires key in holdings
    ensures var out, row := SweptHoldings(holdings, legs), holdings[key];
            && (key in out <==>
                  || key.paper || row.exchange != "polymarket"
                  || exists leg :: leg in legs && (row.tokenId.None? || row.tokenId.value == leg.tokenId))
            && (key in out ==> out[key] == row)
  {
    if legs != [] {
      assert legs[0] in legs;
    }
  }

  // --- Repeating the pass ----------------------------------------------------------------

  /** A leg without size that replaced a kept average by nothing it would keep. */
  predicate Drifts(table: Table, leg: Leg) {
    leg.size <= 0.0 && AverageFor(table, leg) != leg.avg
  }

  lemma MirroredTwice(table: Table, again: Table, leg: Leg)
    requires KeyOf(leg) in again && again[KeyOf(leg)] == Mirrored(table, leg)
    ensures Mirrored(again, leg) == Mirrored(table, leg) <==> !Drifts(table, leg)
  {
    hide Value;
  }

  /** The same report a second time changes nothing, exactly when no leg of it
      without size took over an average of the bot's. */
  lemma SyncIdempotentIff(table: Table, legs: seq<Leg>, polymarket: set<string>)
    requires LegsUnique(legs)
    ensures var once := Sync(table, legs, polymarket);
            Sync(once, legs, polymarket) == once <==> forall i :: 0 <= i < |legs| ==> !Drifts(table, legs[i])
  {
    var once := Sync(table, legs, polymarket);
    var twice := Sync(once, legs, polymarket);
    hide UpsertAll, Value, Mirrored, Drifts, KeepsAverage, Sync;
    forall i | 0 <= i < |legs|
      ensures KeyOf(legs[i]) in once && KeyOf(legs[i]) in twice
      ensures once[KeyOf(legs[i])] == twice[KeyOf(legs[i])] <==> !Drifts(table, legs[i])
    {
      LegIs(table, legs, polymarket, i);
      LegIs(once, legs, polymarket, i);
      MirroredTwice(table, once, legs[i]);
    }
    forall key | !IsLeg(legs, key)
      ensures key in once <==> key in twice
      ensures key in once ==> once[key] == twice[key]
    {
      OtherIs(table, legs, polymarket, key);
      OtherIs(once, legs, polymarket, key);
    }
    if forall i :: 0 <= i < |legs| ==> !Drifts(table, legs[i]) {
      forall key ensures (key in once <==> key in twice) && (key in once ==> once[key] == twice[key]) {
        if IsLeg(legs, key) {
          var i :| 0 <= i < |legs| && KeyOf(legs[i]) == key;
        }
      }
    }
  }

  lemma LegIs(table: Table, legs: seq<Leg>, polymarket: set<string>, i: nat)
    requires LegsUnique(legs) && i < |legs|
    ensures KeyOf(legs[i]) in Sync(table, legs, polymarket)
    ensures Sync(table, legs, polymarket)[KeyOf(legs[i])] == Mirrored(table, legs[i])
  {
    hide UpsertAll, Value, AverageFor;
    UpsertExact(table, legs);
    assert legs[i] in legs;
    assert legs[i].tokenId in LiveTokens(legs);
  }

  lemma OtherIs(table: Table, legs: seq<Leg>, polymarket: set<string>, key: Key)
    requires LegsUnique(legs) && !IsLeg(legs, key)
    ensures var out := Sync(table, legs, polymarket);
            && (key in out <==> key in table && !Stale(key, table[key], legs, polymarket))
            && (key in out ==> out[key] == table[key])
  {
    hide UpsertAll;
    UpsertExact(table, legs);
  }

  /** Paper rows and rows of other venues are never touched by a report of
      Polymarket legs. */
  lemma OthersUntouched(table: Table, legs: seq<Leg>, polymarket: set<string>, key: Key)
    requires LegsUnique(legs) && forall i :: 0 <= i < |legs| ==> legs[i].market in polymarket
    requires key.paper || key.market !in polymarket
    ensures var out := Sync(table, legs, polymarket);
            (key in out <==> key in table) && (key in out ==> out[key] == table[key])
  {
    forall i | 0 <= i < |legs| ensures KeyOf(legs[i]) != key {}
    OtherIs(table, legs, polymarket, key);
  }

  // --- Reports that fail -------------------------------------------------------------------

  /** A closed position stays in the table because the one reported leg, of another
      market, carries its token id. */
  lemma TokenShieldsRow(closed: string, open: string, tokenId: string)
    requires closed != open
    ensures var table := map[Key(closed, "YES", false) := Row(Some(tokenId), 10.0, 0.4, 4.0)];
            var legs := [Leg(open, "YES", tokenId, 5.0, 0.6)];
            var out := Sync(table, legs, {closed, open});
            && Key(closed, "YES", false) in out && out[Key(closed, "YES", false)].size == 10.0
            && LegsUnique(legs) && !Reported(legs, {closed, open}, out)
  {
    var key := Key(closed, "YES", false);
    var table := map[key := Row(Some(tokenId), 10.0, 0.4, 4.0)];
    var legs := [Leg(open, "YES", tokenId, 5.0, 0.6)];
    assert legs[0] in legs && legs[0].tokenId in LiveTokens(legs);
    assert !IsLeg(legs, key);
    OthersSwept(table, legs, {closed, open}, key);
    hide Sync;
  }

  /** A leg without size first keeps the bot's average and loses it on the repeat. */
  lemma ZeroLegDrifts(market: string, tokenId: string)
    ensures var table := map[Key(market, "YES", false) := Row(Some(tokenId), 10.0, 0.4, 4.0)];
            var legs := [Leg(market, "YES", tokenId, 0.0, 0.5)];
            var once := Sync(table, legs, {market});
            && LegsUnique(legs) && Sync(once, legs, {market}) != once
  {
    var table := map[Key(market, "YES", false) := Row(Some(tokenId), 10.0, 0.4, 4.0)];
    var legs := [Leg(market, "YES", tokenId, 0.0, 0.5)];
    assert Drifts(table, legs[0]);
    SyncIdempotentIff(table, legs, {market});
    hide Sync;
  }
}
