/** The realized-profit ledger: rows keyed by a source reference and never
    rewritten, and the backfill that rebuilds them from the fill history. */
module Ledger {
  import opened Lists
  import opened AverageCost

  datatype FillRow = FillRow(id: nat, market: string, paper: bool, token: string, fill: Fill, at: real)

  datatype Ref = FillRef(id: nat) | SettleRef(key: Key) | VenueTradeRef(hash: string)

  datatype Kind = SellKind | SettlementKind

  datatype Row = Row(kind: Kind, key: Key, qty: real, pnl: real, fees: real,
                     strategy: string, at: Option<real>)

  datatype Entry = Entry(ref: Ref, row: Row)

  datatype Outcome = Outcome(actual: int, resolvedAt: Option<real>)

  /** What the attribution queries would answer: who entered a position, and how
      much buying was actually placed on a market in a mode. */
  datatype Context = Context(entrant: map<Key, string>, bought: map<(string, bool), real>) {
    function Entrant(key: Key): string { if key in entrant then entrant[key] else "" }

    function Bought(key: Key): real {
      if (key.market, key.paper) in bought then bought[(key.market, key.paper)] else 0.0
    }
  }

  const DUST := 0.01
  const PHANTOM := "phantom_unattributed"
  const VENUE := "venue_unattributed"

  function KeyOf(r: FillRow): Key {
    Key(r.market, if r.token == "" then "YES" else r.token, r.paper)
  }

  // --- Attribution ---------------------------------------------------------

  predicate QtyExplained(qty: real, bought: real) { qty <= bought * 2.0 + 5.0 }

  function Strategy(ctx: Context, kind: Kind, key: Key, qty: real): string {
    var named := ctx.Entrant(key);
    if kind.SettlementKind? && named != "" && !QtyExplained(qty, ctx.Bought(key)) then PHANTOM
    else if kind.SettlementKind? && named == "" then VENUE
    else named
  }

  /** A settlement never lands under the empty name, and lands under a real
      strategy only when that strategy's market saw enough buying. */
  lemma SettlementAttribution(ctx: Context, key: Key, qty: real)
    requires ctx.Entrant(key) !in {PHANTOM, VENUE}
    ensures Strategy(ctx, SettlementKind, key, qty) != ""
    ensures Strategy(ctx, SettlementKind, key, qty) == ctx.Entrant(key)
            <==> ctx.Entrant(key) != "" && QtyExplained(qty, ctx.Bought(key))
  {
    assert |PHANTOM| > 0 && |VENUE| > 0;
  }

  // --- Idempotent writes ---------------------------------------------------

  function Record(rows: map<Ref, Row>, e: Entry): map<Ref, Row> {
    if e.ref in rows then rows else rows[e.ref := e.row]
  }

  function RecordAll(rows: map<Ref, Row>, es: seq<Entry>): map<Ref, Row> {
    if es == [] then rows else Record(RecordAll(rows, es[..|es| - 1]), es[|es| - 1])
  }

  lemma {:induction false} RecordAllGrows(rows: map<Ref, Row>, es: seq<Entry>)
    ensures forall ref :: ref in rows ==> ref in RecordAll(rows, es) && RecordAll(rows, es)[ref] == rows[ref]
    ensures forall i :: 0 <= i < |es| ==> es[i].ref in RecordAll(rows, es)
  {
    if es == [] {
    } else {
      RecordAllGrows(rows, es[..|es| - 1]);
    }
  }

  lemma {:induction false} NothingNew(rows: map<Ref, Row>, es: seq<Entry>)
    requires forall i :: 0 <= i < |es| ==> es[i].ref in rows
    ensures RecordAll(rows, es) == rows
  {
    if es == [] {
    } else {
      NothingNew(rows, es[..|es| - 1]);
    }
  }

  /** A run cut off after any `k` writes and started again ends where an
      uninterrupted run ends; with `k` the whole run, rerunning changes nothing. */
  lemma {:induction false} RecordAllResumes(rows: map<Ref, Row>, es: seq<Entry>, k: nat)
    requires k <= |es|
    ensures RecordAll(RecordAll(rows, es[..k]), es) == RecordAll(rows, es)
  {
    if k == |es| {
      WholePrefix(es);
      RecordAllGrows(rows, es);
      NothingNew(RecordAll(rows, es), es);
    } else {
      var init := es[..|es| - 1];
      assert init[..k] == es[..k];
      RecordAllResumes(rows, init, k);
    }
  }

  ghost predicate RefsDistinct(es: seq<Entry>) {
    forall i, j :: 0 <= i < j < |es| ==> es[i].ref != es[j].ref
  }

  /** With distinct references every entry not already booked is booked as is. */
  lemma {:induction false} RecordAllBooks(rows: map<Ref, Row>, es: seq<Entry>, i: nat)
    requires RefsDistinct(es) && i < |es| && es[i].ref !in rows
    ensures es[i].ref in RecordAll(rows, es) && RecordAll(rows, es)[es[i].ref] == es[i].row
  {
    var init := es[..|es| - 1];
    if i < |init| {
      RecordAllBooks(rows, init, i);
    } else {
      OnlyListedRefs(rows, init, es[i].ref);
    }
  }

  lemma {:induction false} OnlyListedRefs(rows: map<Ref, Row>, es: seq<Entry>, ref: Ref)
    requires ref !in rows && forall i :: 0 <= i < |es| ==> es[i].ref != ref
    ensures ref !in RecordAll(rows, es)
  {
    if es == [] {
    } else {
      OnlyListedRefs(rows, es[..|es| - 1], ref);
    }
  }

  // --- The rebuild, key by key ---------------------------------------------

  /** The history of one position, picked out of the interleaved table. */
  function FillsOf(fills: seq<FillRow>, key: Key): seq<Fill> {
    if fills == [] then []
    else
      var before := FillsOf(fills[..|fills| - 1], key);
      var last := fills[|fills| - 1];
      if KeyOf(last) == key then before + [last.fill] else before
  }

  function SellEntry(ctx: Context, before: Basis, r: FillRow): Entry {
    var qty := SellSize(before, r.fill);
    Entry(FillRef(r.id), Row(SellKind, KeyOf(r), qty, Realized(before, r.fill), r.fill.fee,
                             Strategy(ctx, SellKind, KeyOf(r), qty), Some(r.at)))
  }

  function SellEntries(ctx: Context, fills: seq<FillRow>): seq<Entry> {
    if fills == [] then []
    else
      var before := fills[..|fills| - 1];
      var last := fills[|fills| - 1];
      var booked := SellEntries(ctx, before);
      if last.fill.side.Buy? then booked
      else booked + [SellEntry(ctx, Walk(FillsOf(before, KeyOf(last))), last)]
  }

  /** The keys in the order in which they first appear. */
  function KeysSeen(fills: seq<FillRow>): seq<Key> {
    if fills == [] then []
    else
      var seen := KeysSeen(fills[..|fills| - 1]);
      var key := KeyOf(fills[|fills| - 1]);
      if key in seen then seen else seen + [key]
  }

  predicate Settles(outcomes: map<string, Outcome>, key: Key, b: Basis) {
    b.size > DUST && key.market in outcomes
  }

  function Payout(token: string, actual: int): real {
    if (token == "YES" && actual == 1) || (token == "NO" && actual == 0) then 1.0 else 0.0
  }

  function SettleEntry(ctx: Context, outcome: Outcome, key: Key, b: Basis): Entry {
    Entry(SettleRef(key), Row(SettlementKind, key, b.size, Value(b.size, Payout(key.token, outcome.actual) - b.avg),
                              0.0, Strategy(ctx, SettlementKind, key, b.size), outcome.resolvedAt))
  }

  function SettleEntries(ctx: Context, outcomes: map<string, Outcome>, fills: seq<FillRow>, keys: seq<Key>)
    : seq<Entry>
  {
    if keys == [] then []
    else
      var key := keys[|keys| - 1];
      var b := Walk(FillsOf(fills, key));
      var booked := SettleEntries(ctx, outcomes, fills, keys[..|keys| - 1]);
      if Settles(outcomes, key, b) then booked + [SettleEntry(ctx, outcomes[key.market], key, b)] else booked
  }

  function Rebuild(ctx: Context, outcomes: map<string, Outcome>, fills: seq<FillRow>): seq<Entry> {
    SellEntries(ctx, fills) + SettleEntries(ctx, outcomes, fills, KeysSeen(fills))
  }

  lemma {:induction false} SellKinds(ctx: Context, fills: seq<FillRow>)
    ensures forall e :: e in SellEntries(ctx, fills) ==> e.row.kind.SellKind?
  {
    if fills == [] {
    } else {
      hide Strategy, Walk, Realized;
      SellKinds(ctx, fills[..|fills| - 1]);
    }
  }

  lemma {:induction false} SettledUnder(ctx: Context, outcomes: map<string, Outcome>, fills: seq<FillRow>,
                                        keys: seq<Key>)
    ensures forall e :: e in SettleEntries(ctx, outcomes, fills, keys) ==>
              e.row.qty == Walk(FillsOf(fills, e.row.key)).size
              && e.row.strategy == Strategy(ctx, SettlementKind, e.row.key, e.row.qty)
  {
    if keys == [] {
    } else {
      hide Strategy, Walk, FillsOf, Payout, Value;
      SettledUnder(ctx, outcomes, fills, keys[..|keys| - 1]);
    }
  }

  /** Whatever the history, a settlement is booked under the strategy that entered the
      position, when there is one and its market saw buying in that mode of at least half the
      settled size less five; under the phantom when it saw less; and under the venue when
      there is none. */
  lemma SettlementsAttributed(ctx: Context, outcomes: map<string, Outcome>, fills: seq<FillRow>, e: Entry)
    requires e in Rebuild(ctx, outcomes, fills) && e.row.kind.SettlementKind?
    ensures var key := e.row.key;
            var bought := if (key.market, key.paper) in ctx.bought then ctx.bought[(key.market, key.paper)] else 0.0;
            e.row.qty == Walk(FillsOf(fills, key)).size &&
            if key !in ctx.entrant || ctx.entrant[key] == "" then e.row.strategy == "venue_unattributed"
            else if e.row.qty <= 2.0 * bought + 5.0 then e.row.strategy == ctx.entrant[key]
            else e.row.strategy == "phantom_unattributed"
  {
    hide SellEntries, SettleEntries, KeysSeen, Walk, FillsOf;
    SellKinds(ctx, fills);
    SettledUnder(ctx, outcomes, fills, KeysSeen(fills));
  }

  /** A sell row books one sell of the history: under the fill's id, in its market and mode,
      on its side, which is YES where none was stored; at no more than is held, for the
      proceeds minus the average cost and the fee, and under whoever entered the position. */
  lemma {:induction false} SellRowsExact(ctx: Context, fills: seq<FillRow>, e: Entry) returns (i: nat)
    requires e in SellEntries(ctx, fills)
    ensures i < |fills|
    ensures var r, key := fills[i], e.row.key;
            var held := Walk(FillsOf(fills[..i], key));
            && r.fill.side.Sell? && e.ref == FillRef(r.id) && e.row.kind.SellKind?
            && key.market == r.market && key.paper == r.paper
            && (r.token != "" ==> key.token == r.token) && (r.token == "" ==> key.token == "YES")
            && (r.fill.size <= held.size ==> e.row.qty == r.fill.size)
            && (r.fill.size >= held.size ==> e.row.qty == held.size)
            && e.row.fees == r.fill.fee && e.row.pnl == Value(e.row.qty, r.fill.price - held.avg) - r.fill.fee
            && e.row.strategy == (if key in ctx.entrant then ctx.entrant[key] else "") && e.row.at == Some(r.at)
  {
    hide Walk, FillsOf, Value;
    var init := fills[..|fills| - 1];
    if e in SellEntries(ctx, init) {
      i := SellRowsExact(ctx, init, e);
      assert init[..i] == fills[..i];
    } else {
      i := |fills| - 1;
    }
  }

  // --- The ledger table and its backfill -----------------------------------

  class PnlLedger {
    var rows: map<Ref, Row>

    constructor ()
      ensures rows == map[]
    {
      rows := map[];
    }

    /** INSERT OR IGNORE on the source reference. */
    method RecordEvent(e: Entry)
      modifies this
      ensures rows == Record(old(rows), e)
    {
      if e.ref !in rows {
        rows := rows[e.ref := e.row];
      }
    }

    /** One pass over the interleaved fills with a dictionary of running
        positions, then one pass over the dictionary. The rows are those of
        independent walks, one per key. */
    method Backfill(ctx: Context, outcomes: map<string, Outcome>, fills: seq<FillRow>)
      returns (sells: nat, settlements: nat)
      modifies this
      ensures rows == RecordAll(old(rows), Rebuild(ctx, outcomes, fills))
      ensures sells == |SellEntries(ctx, fills)|
      ensures sells + settlements == |Rebuild(ctx, outcomes, fills)|
    {
      var basis, order;
      basis, order, sells := BookSells(ctx, fills);
      settlements := BookSettlements(ctx, outcomes, fills, basis, order, old(rows));
    }

    method BookSells(ctx: Context, fills: seq<FillRow>)
      returns (basis: map<Key, Basis>, order: seq<Key>, sells: nat)
      modifies this
      ensures Tracks(basis, order, fills)
      ensures sells == |SellEntries(ctx, fills)|
      ensures rows == RecordAll(old(rows), SellEntries(ctx, fills))
    {
      hide Apply, Walk, Tracks, Record, SellEntry;
      basis, order, sells := map[], [], 0;
      NothingTracked();
      var i := 0;
      while i < |fills|
        invariant 0 <= i <= |fills|
        invariant Tracks(basis, order, fills[..i])
        invariant sells == |SellEntries(ctx, fills[..i])|
        invariant rows == RecordAll(old(rows), SellEntries(ctx, fills[..i]))
      {
        PrefixGrows(fills, i);
        var r := fills[i];
        var key := KeyOf(r);
        var before := if key in basis then basis[key] else FLAT;
        TracksGrows(basis, order, fills[..i], r);
        if key !in basis {
          order := order + [key];
        }
        basis := basis[key := Apply(before, r.fill)];
        if r.fill.side == Sell {
          RecordEvent(SellEntry(ctx, before, r));
          RecordGrows(old(rows), SellEntries(ctx, fills[..i]), SellEntry(ctx, before, r));
          sells := sells + 1;
        }
        i := i + 1;
      }
      WholePrefix(fills);
    }

    method BookSettlements(ctx: Context, outcomes: map<string, Outcome>, fills: seq<FillRow>,
                           basis: map<Key, Basis>, order: seq<Key>, ghost start: map<Ref, Row>)
      returns (settlements: nat)
      requires Tracks(basis, order, fills)
      requires rows == RecordAll(start, SellEntries(ctx, fills))
      modifies this
      ensures settlements == |SettleEntries(ctx, outcomes, fills, KeysSeen(fills))|
      ensures rows == RecordAll(start, Rebuild(ctx, outcomes, fills))
    {
      hide Walk, Record, SettleEntry, SellEntries;
      settlements := 0;
      ghost var sold := SellEntries(ctx, fills);
      assert sold + [] == sold;
      var i := 0;
      while i < |order|
        invariant 0 <= i <= |order|
        invariant settlements == |SettleEntries(ctx, outcomes, fills, order[..i])|
        invariant rows == RecordAll(start, sold + SettleEntries(ctx, outcomes, fills, order[..i]))
      {
        PrefixGrows(order, i);
        var key := order[i];
        ghost var done := SettleEntries(ctx, outcomes, fills, order[..i]);
        assert key in basis && basis[key] == Walk(FillsOf(fills, key));
        if Settles(outcomes, key, basis[key]) {
          var e := SettleEntry(ctx, outcomes[key.market], key, basis[key]);
          RecordEvent(e);
          RecordGrows(start, sold + done, e);
          ConcatAssociates(sold, done, [e]);
          settlements := settlements + 1;
        }
        i := i + 1;
      }
      WholePrefix(order);
    }
  }

  /** The dictionary holds, for each key met, the walk of that key's own fills. */
  ghost predicate Tracks(basis: map<Key, Basis>, order: seq<Key>, fills: seq<FillRow>) {
    && order == KeysSeen(fills)
    && (forall key :: key in basis <==> key in order)
    && (forall key :: key in basis ==> basis[key] == Walk(FillsOf(fills, key)))
    && (forall key :: key !in basis ==> FillsOf(fills, key) == [])
  }

  lemma NothingTracked()
    ensures Tracks(map[], [], [])
  {}

  lemma TracksGrows(basis: map<Key, Basis>, order: seq<Key>, fills: seq<FillRow>, r: FillRow)
    requires Tracks(basis, order, fills)
    ensures var key := KeyOf(r);
            var before := if key in basis then basis[key] else FLAT;
            && before == Walk(FillsOf(fills, key))
            && Tracks(basis[key := Apply(before, r.fill)], if key in basis then order else order + [key], fills + [r])
  {
    hide Apply;
    var key := KeyOf(r);
    assert (fills + [r])[..|fills|] == fills;
    WalkGrows(FillsOf(fills, key), r.fill);
    forall k | k != key ensures FillsOf(fills + [r], k) == FillsOf(fills, k) {}
  }

  lemma RecordGrows(rows: map<Ref, Row>, es: seq<Entry>, e: Entry)
    ensures RecordAll(rows, es + [e]) == Record(RecordAll(rows, es), e)
  {
    assert (es + [e])[..|es|] == es;
  }

  // --- What the rebuilt ledger adds up to ----------------------------------

  function PnlOf(es: seq<Entry>, key: Key): real {
    if es == [] then 0.0
    else
      var last := es[|es| - 1];
      PnlOf(es[..|es| - 1], key) + if last.row.key == key then last.row.pnl else 0.0
  }

  lemma {:induction false} PnlOfConcat(xs: seq<Entry>, ys: seq<Entry>, key: Key)
    ensures PnlOf(xs + ys, key) == PnlOf(xs, key) + PnlOf(ys, key)
  {
    if ys == [] {
      assert xs + ys == xs;
    } else {
      assert (xs + ys)[..|xs + ys| - 1] == xs + ys[..|ys| - 1];
      PnlOfConcat(xs, ys[..|ys| - 1], key);
    }
  }

  /** The sell rows of one key carry that key's realized profit, whatever other
      fills stand between them. */
  lemma {:induction false} SellRowsCarryPnl(ctx: Context, fills: seq<FillRow>, key: Key)
    ensures PnlOf(SellEntries(ctx, fills), key) == BookedPnl(FillsOf(fills, key))
  {
    if fills == [] {
    } else {
      var before := fills[..|fills| - 1];
      var last := fills[|fills| - 1];
      hide Apply, Value, SellSize;
      SellRowsCarryPnl(ctx, before, key);
      WalkGrows(FillsOf(before, key), last.fill);
      if last.fill.side.Sell? {
        EntryAdds(SellEntries(ctx, before), SellEntry(ctx, Walk(FillsOf(before, KeyOf(last))), last), key);
      }
    }
  }

  predicate NoRepeats(keys: seq<Key>) {
    forall i, j :: 0 <= i < j < |keys| ==> keys[i] != keys[j]
  }

  lemma {:induction false} KeysSeenExact(fills: seq<FillRow>)
    ensures NoRepeats(KeysSeen(fills))
    ensures forall key :: key !in KeysSeen(fills) ==> FillsOf(fills, key) == []
  {
    if fills == [] {
    } else {
      KeysSeenExact(fills[..|fills| - 1]);
    }
  }

  lemma {:induction false} SettleRowsCarryPnl(ctx: Context, outcomes: map<string, Outcome>, fills: seq<FillRow>,
                                              keys: seq<Key>, key: Key)
    requires NoRepeats(keys)
    ensures PnlOf(SettleEntries(ctx, outcomes, fills, keys), key) ==
            var b := Walk(FillsOf(fills, key));
            if key in keys && Settles(outcomes, key, b)
            then SettleEntry(ctx, outcomes[key.market], key, b).row.pnl else 0.0
  {
    if keys == [] {
    } else {
      var last := keys[|keys| - 1];
      var b := Walk(FillsOf(fills, last));
      var init := keys[..|keys| - 1];
      hide Walk, Value;
      SettleRowsCarryPnl(ctx, outcomes, fills, init, key);
      assert keys == init + [last];
      if Settles(outcomes, last, b) {
        EntryAdds(SettleEntries(ctx, outcomes, fills, init), SettleEntry(ctx, outcomes[last.market], last, b), key);
      }
    }
  }

  lemma EntryAdds(es: seq<Entry>, e: Entry, key: Key)
    ensures PnlOf(es + [e], key) == PnlOf(es, key) + if e.row.key == key then e.row.pnl else 0.0
  {
    assert (es + [e])[..|es|] == es;
  }

  lemma {:induction false} LedgerPaysOut(ctx: Context, outcomes: map<string, Outcome>, fills: seq<FillRow>, key: Key)
    requires Executed(FillsOf(fills, key))
    ensures var b := Walk(FillsOf(fills, key));
            PnlOf(Rebuild(ctx, outcomes, fills), key) == CashFlow(FillsOf(fills, key)) +
            if Settles(outcomes, key, b) then Value(b.size, Payout(key.token, outcomes[key.market].actual))
            else b.Cost()
  {
    hide Value, Walk, CashFlow, BookedPnl, SettleEntries, SellEntries, KeysSeen, FillsOf, PnlOf, Strategy, Payout,
         NoRepeats, Executed;
    var b := Walk(FillsOf(fills, key));
    PnlOfConcat(SellEntries(ctx, fills), SettleEntries(ctx, outcomes, fills, KeysSeen(fills)), key);
    SellRowsCarryPnl(ctx, fills, key);
    KeysSeenExact(fills);
    UnseenIsFlat(fills, key);
    SettleRowsCarryPnl(ctx, outcomes, fills, KeysSeen(fills), key);
    PnlConservation(FillsOf(fills, key));
    if Settles(outcomes, key, b) {
      SettleReleasesCost(b, Payout(key.token, outcomes[key.market].actual));
    }
  }

  /** Conservation: everything the ledger books for a key, sells and settlement
      together, is the cash that moved plus, once the market has resolved and more than
      a hundredth of a token is left, one dollar for each token of the side that won and
      nothing for any other. Where nothing settles, what is left unbooked is the cost of
      the residual. */
  lemma LedgerConserves(ctx: Context, outcomes: map<string, Outcome>, fills: seq<FillRow>, key: Key)
    requires Executed(FillsOf(fills, key))
    ensures var left, cash := Walk(FillsOf(fills, key)), CashFlow(FillsOf(fills, key));
            PnlOf(Rebuild(ctx, outcomes, fills), key) ==
            if left.size <= 0.01 || key.market !in outcomes then cash + left.Cost()
            else if key.token == "YES" && outcomes[key.market].actual == 1 then cash + left.size
            else if key.token == "NO" && outcomes[key.market].actual == 0 then cash + left.size
            else cash
  {
    LedgerPaysOut(ctx, outcomes, fills, key);
    ValueOfUnit(Walk(FillsOf(fills, key)).size);
    hide Value, Basis.Cost, Walk, CashFlow, PnlOf, Rebuild, FillsOf, Executed;
  }

  lemma ValueOfUnit(qty: real)
    ensures Value(qty, 1.0) == qty && Value(qty, 0.0) == 0.0
  {}

  // --- What a settlement pays --------------------------------------------------------

  lemma {:induction false} SettledKeys(ctx: Context, outcomes: map<string, Outcome>, fills: seq<FillRow>,
                                       keys: seq<Key>, e: Entry)
    requires e in SettleEntries(ctx, outcomes, fills, keys)
    ensures var b := Walk(FillsOf(fills, e.row.key));
            Settles(outcomes, e.row.key, b) && e == SettleEntry(ctx, outcomes[e.row.key.market], e.row.key, b)
  {
    hide Walk, FillsOf, Payout, Value, Strategy;
    if e in SettleEntries(ctx, outcomes, fills, keys[..|keys| - 1]) {
      SettledKeys(ctx, outcomes, fills, keys[..|keys| - 1], e);
    }
  }

  /** A settlement row of a rebuild books what is left of its position, at the time the
      market resolved: its size minus its cost on the side that won, and minus its cost
      on any other. */
  lemma SettlementsPay(ctx: Context, outcomes: map<string, Outcome>, fills: seq<FillRow>, e: Entry)
    requires e in Rebuild(ctx, outcomes, fills) && e.row.kind.SettlementKind?
    ensures var row, key := e.row, e.row.key;
            var left := Walk(FillsOf(fills, key));
            && key.market in outcomes && row.qty == left.size > 0.01 && row.fees == 0.0 && e.ref == SettleRef(key)
            && row.at == outcomes[key.market].resolvedAt
            && var cost, actual := left.Cost(), outcomes[key.market].actual;
               && (key.token == "YES" && actual == 1 ==> row.pnl == row.qty - cost)
               && (key.token == "NO" && actual == 0 ==> row.pnl == row.qty - cost)
               && (!(key.token == "YES" && actual == 1) && !(key.token == "NO" && actual == 0) ==> row.pnl == -cost)
  {
    hide SellEntries, SettleEntries, KeysSeen, Strategy, Walk, FillsOf;
    SellKinds(ctx, fills);
    SettledKeys(ctx, outcomes, fills, KeysSeen(fills), e);
    var left := Walk(FillsOf(fills, e.row.key));
    SettleReleasesCost(left, Payout(e.row.key.token, outcomes[e.row.key.market].actual));
    ValueOfUnit(left.size);
    hide Value, Basis.Cost;
  }

  /** Equal holdings of both sides of a market that resolved to one of them settle
      together for one dollar a pair, minus what both cost. */
  lemma PairsPayOneDollar(ctx: Context, outcomes: map<string, Outcome>, fills: seq<FillRow>, yes: Entry, no: Entry)
    requires yes in Rebuild(ctx, outcomes, fills) && yes.row.kind.SettlementKind?
    requires no in Rebuild(ctx, outcomes, fills) && no.row.kind.SettlementKind?
    requires yes.row.key.market == no.row.key.market && yes.row.qty == no.row.qty
    requires yes.row.key.token == "YES" && no.row.key.token == "NO"
    ensures var market := yes.row.key.market;
            market in outcomes && (outcomes[market].actual in {0, 1} ==>
              yes.row.pnl + no.row.pnl == yes.row.qty - Walk(FillsOf(fills, yes.row.key)).Cost()
                                          - Walk(FillsOf(fills, no.row.key)).Cost())
  {
    SettlementsPay(ctx, outcomes, fills, yes);
    SettlementsPay(ctx, outcomes, fills, no);
    hide *;
  }

  lemma SettleReleasesCost(b: Basis, payout: real)
    ensures Value(b.size, payout - b.avg) == Value(b.size, payout) - b.Cost()
  {
    ValueAddsPrices(b.size, payout - b.avg, b.avg);
    assert payout - b.avg + b.avg == payout;
  }

  lemma UnseenIsFlat(fills: seq<FillRow>, key: Key)
    ensures key !in KeysSeen(fills) ==> Walk(FillsOf(fills, key)) == FLAT
  {
    KeysSeenExact(fills);
  }

  /** Every row the rebuild makes has its own reference, so a backfill into an
      empty ledger books each of them, exactly. */
  lemma RebuildRefsDistinct(ctx: Context, outcomes: map<string, Outcome>, fills: seq<FillRow>)
    requires forall i, j :: 0 <= i < j < |fills| ==> fills[i].id != fills[j].id
    ensures RefsDistinct(Rebuild(ctx, outcomes, fills))
  {
    SellRefs(ctx, fills);
    KeysSeenExact(fills);
    SettleRefs(ctx, outcomes, fills, KeysSeen(fills));
  }

  lemma {:induction false} SellRefs(ctx: Context, fills: seq<FillRow>)
    requires forall i, j :: 0 <= i < j < |fills| ==> fills[i].id != fills[j].id
    ensures RefsDistinct(SellEntries(ctx, fills))
    ensures forall e :: e in SellEntries(ctx, fills) ==>
              e.ref.FillRef? && exists i :: 0 <= i < |fills| && fills[i].id == e.ref.id
  {
    if fills == [] {
    } else {
      hide Walk, SellSize, Realized;
      var before := fills[..|fills| - 1];
      SellRefs(ctx, before);
      forall e | e in SellEntries(ctx, before)
        ensures exists i :: 0 <= i < |fills| && fills[i].id == e.ref.id
      {
        var i :| 0 <= i < |before| && before[i].id == e.ref.id;
        assert fills[i].id == e.ref.id;
      }
    }
  }

  lemma {:induction false} SettleRefs(ctx: Context, outcomes: map<string, Outcome>, fills: seq<FillRow>, keys: seq<Key>)
    requires NoRepeats(keys)
    ensures RefsDistinct(SettleEntries(ctx, outcomes, fills, keys))
    ensures forall e :: e in SettleEntries(ctx, outcomes, fills, keys) ==> e.ref.SettleRef? && e.ref.key in keys
  {
    if keys == [] {
    } else {
      hide Walk, Value;
      SettleRefs(ctx, outcomes, fills, keys[..|keys| - 1]);
    }
  }

  // --- Forward writes and the backfill --------------------------------------------------

  /** The cost basis and the ledger while fills are recorded one by one. */
  datatype Forwarded = Forwarded(books: Books, rows: map<Ref, Row>)

  /** The ledger row of a fill as it is recorded: a sell's sale, under the fill's id and
      the name known then. */
  function ForwardRow(ctx: Context, r: FillRow, sale: Sale): Entry {
    Entry(FillRef(r.id), Row(SellKind, KeyOf(r), sale.qty, sale.pnl, sale.fee,
                             Strategy(ctx, SellKind, KeyOf(r), sale.qty), Some(r.at)))
  }

  function Forward(names: FillRow -> Context, rows: map<Ref, Row>, fills: seq<FillRow>): Forwarded {
    if fills == [] then Forwarded(map[], rows)
    else
      var before := Forward(names, rows, fills[..|fills| - 1]);
      var r := fills[|fills| - 1];
      var b := BasisAt(before.books, KeyOf(r));
      var sale := SaleOf(b, r.fill);
      Forwarded(before.books[KeyOf(r) := Apply(b, r.fill)],
                if sale.Some? then Record(before.rows, ForwardRow(names(r), r, sale.value)) else before.rows)
  }

  lemma {:induction false} ForwardWalks(names: FillRow -> Context, rows: map<Ref, Row>, fills: seq<FillRow>, key: Key)
    ensures BasisAt(Forward(names, rows, fills).books, key) == Walk(FillsOf(fills, key))
  {
    if fills == [] {
    } else {
      hide Apply, Record, ForwardRow, SaleOf, Strategy;
      var init, r := fills[..|fills| - 1], fills[|fills| - 1];
      ForwardWalks(names, rows, init, key);
      WalkGrows(FillsOf(init, key), r.fill);
      hide Walk;
    }
  }

  /** Recording fills one by one writes the sell rows that a backfill over the same
      fills would write. */
  lemma {:induction false} ForwardIsBackfill(ctx: Context, rows: map<Ref, Row>, fills: seq<FillRow>)
    ensures Forward(_ => ctx, rows, fills).rows == RecordAll(rows, SellEntries(ctx, fills))
  {
    if fills == [] {
    } else {
      var init, r := fills[..|fills| - 1], fills[|fills| - 1];
      ForwardIsBackfill(ctx, rows, init);
      ForwardWalks(_ => ctx, rows, init, KeyOf(r));
      hide Walk, Apply, Strategy, Realized, SellSize, Record;
      RecordGrows(rows, SellEntries(ctx, init), SellEntry(ctx, Walk(FillsOf(init, KeyOf(r))), r));
    }
  }

  lemma {:induction false} ForwardKeeps(names: FillRow -> Context, rows: map<Ref, Row>, fills: seq<FillRow>)
    ensures forall r :: r in fills && r.fill.side.Sell? ==> FillRef(r.id) in Forward(names, rows, fills).rows
  {
    if fills == [] {
    } else {
      hide Apply, Strategy, Realized, SellSize;
      var init, last := fills[..|fills| - 1], fills[|fills| - 1];
      ForwardKeeps(names, rows, init);
      assert fills == init + [last];
    }
  }

  lemma {:induction false} SellsOfFills(ctx: Context, fills: seq<FillRow>, e: Entry)
    requires e in SellEntries(ctx, fills)
    ensures exists r :: r in fills && r.fill.side.Sell? && e.ref == FillRef(r.id)
  {
    hide Walk, Strategy, Realized, SellSize;
    var init, last := fills[..|fills| - 1], fills[|fills| - 1];
    assert last in fills;
    if e in SellEntries(ctx, init) {
      SellsOfFills(ctx, init, e);
      var r :| r in init && r.fill.side.Sell? && e.ref == FillRef(r.id);
      assert r in fills;
    }
  }

  lemma {:induction false} RecordAllConcat(rows: map<Ref, Row>, xs: seq<Entry>, ys: seq<Entry>)
    ensures RecordAll(rows, xs + ys) == RecordAll(RecordAll(rows, xs), ys)
  {
    if ys == [] {
      assert xs + ys == xs;
    } else {
      hide Record;
      assert (xs + ys)[..|xs + ys| - 1] == xs + ys[..|ys| - 1];
      RecordAllConcat(rows, xs, ys[..|ys| - 1]);
    }
  }

  /** A backfill that runs at any moment beside the forward writes, in whatever order it
      reads the fills recorded so far and whatever names it finds, adds no sell: it can
      only settle. */
  lemma BackfillAddsNoSell(names: FillRow -> Context, ctx: Context, outcomes: map<string, Outcome>, rows: map<Ref, Row>,
                           recorded: seq<FillRow>, read: seq<FillRow>)
    requires forall r :: r in read ==> r in recorded
    ensures var forward := Forward(names, rows, recorded).rows;
            && RecordAll(forward, SellEntries(ctx, read)) == forward
            && RecordAll(forward, Rebuild(ctx, outcomes, read))
               == RecordAll(forward, SettleEntries(ctx, outcomes, read, KeysSeen(read)))
  {
    hide Forward, SellEntries, SettleEntries, KeysSeen, RecordAll;
    var forward, sells := Forward(names, rows, recorded).rows, SellEntries(ctx, read);
    ForwardKeeps(names, rows, recorded);
    forall i | 0 <= i < |sells| ensures sells[i].ref in forward {
      SellsOfFills(ctx, read, sells[i]);
    }
    NothingNew(forward, sells);
    RecordAllConcat(forward, sells, SettleEntries(ctx, outcomes, read, KeysSeen(read)));
  }

  /** The rows of one position, in the order they have. */
  function RowsOf(fills: seq<FillRow>, key: Key): seq<FillRow> {
    if fills == [] then []
    else
      var before, last := RowsOf(fills[..|fills| - 1], key), fills[|fills| - 1];
      if KeyOf(last) == key then before + [last] else before
  }

  lemma {:induction false} OwnRowsSuffice(ctx: Context, fills: seq<FillRow>, key: Key)
    ensures FillsOf(RowsOf(fills, key), key) == FillsOf(fills, key)
    ensures forall e: Entry :: e.row.key == key ==>
            (e in SellEntries(ctx, fills) <==> e in SellEntries(ctx, RowsOf(fills, key)))
  {
    if fills == [] {
    } else {
      hide Walk, Strategy, Realized, SellSize;
      var init, last := fills[..|fills| - 1], fills[|fills| - 1];
      OwnRowsSuffice(ctx, init, key);
      var own := RowsOf(init, key);
      assert (own + [last])[..|own|] == own;
    }
  }

  /** Where the fills of each position were recorded in the order the backfill reads
      them, both compute the same rows. */
  lemma SameOrderSameRows(ctx: Context, recorded: seq<FillRow>, read: seq<FillRow>, e: Entry)
    requires RowsOf(recorded, e.row.key) == RowsOf(read, e.row.key)
    ensures e in SellEntries(ctx, recorded) <==> e in SellEntries(ctx, read)
  {
    hide SellEntries, RowsOf;
    OwnRowsSuffice(ctx, recorded, e.row.key);
    OwnRowsSuffice(ctx, read, e.row.key);
  }
}
