/**
 * The portfolio ledger of portfolio.py: cash, one position per symbol,
 * cumulative realized PnL and the history of recorded fills.
 *
 * `Step` is the value-level meaning of `apply_fill`; the class `Portfolio`
 * holds the same state in fields and its methods are proved against `Step`.
 * Quantities are `int`, prices, cash and commissions are `real`.
 */
module Portfolio {
  import opened Common

  const BUY: string := "BUY"
  const SELL: string := "SELL"

  /** An executed trade (portfolio.py `Fill`); `side` is free text, as in the source. */
  datatype Fill = Fill(date: int, symbol: string, side: string, qty: int, price: real, commission: real)

  /** A per-symbol holding (portfolio.py `Position`). */
  datatype Position = Position(symbol: string, qty: int, avgCost: real)
  {
    /** `Position.market_value`: quantity times mark price. */
    function MarketValue(price: real): real { qty as real * price }
  }

  /** The exceptions the ledger raises. */
  datatype LedgerError =
    | NonPositiveInitialCash   // `Portfolio.__init__` with initial_cash <= 0
    | NonPositiveQty           // `apply_fill` with qty <= 0
    | UnknownSide              // `apply_fill` with a side other than BUY / SELL
    | DivisionByZero           // unaffordable BUY at price 0: `(cash - comm) // 0.0`

  /** What one `apply_fill` call did. */
  datatype Outcome = Applied(recorded: Fill) | Dropped | Failed(error: LedgerError)

  /** The whole ledger as a value. `positions` keeps the dictionary's insertion order. */
  datatype LedgerState = LedgerState(
    initialCash: real,
    cash: real,
    positions: seq<Position>,
    realizedPnl: real,
    fills: seq<Fill>)

  datatype StepResult = StepResult(state: LedgerState, outcome: Outcome)

  /** The position table after `get_position`, with the index of the requested symbol. */
  datatype Lookup = Lookup(positions: seq<Position>, index: nat)

  /** A read-only mark-to-market summary (the dictionary `snapshot` returns). */
  datatype SnapshotRow = SnapshotRow(
    date: int,
    cash: real,
    marketValue: real,
    equity: real,
    realizedPnl: real,
    unrealizedPnl: real,
    grossExposure: real,
    netExposure: real)

  /** The state right after `Portfolio(initial_cash)`. */
  function Opened(initialCash: real): LedgerState
  {
    LedgerState(initialCash, initialCash, [], 0.0, [])
  }

  // ---------------------------------------------------------------------------
  // The position table
  // ---------------------------------------------------------------------------

  /** No symbol has two positions (dictionary keys are unique). */
  ghost predicate Distinct(ps: seq<Position>)
  {
    forall i, j :: 0 <= i < j < |ps| ==> ps[i].symbol != ps[j].symbol
  }

  /** Where `symbol` sits in the table, or -1 when it is not a key. */
  function IndexOf(ps: seq<Position>, symbol: string): (k: int)
    ensures -1 <= k < |ps|
    ensures 0 <= k ==> ps[k].symbol == symbol
    ensures 0 <= k ==> forall i :: 0 <= i < k ==> ps[i].symbol != symbol
    ensures k < 0 <==> forall i :: 0 <= i < |ps| ==> ps[i].symbol != symbol
  {
    if ps == [] then -1
    else if ps[0].symbol == symbol then 0
    else
      var k := IndexOf(ps[1..], symbol);
      if k < 0 then -1 else k + 1
  }

  /** The position `get_position(symbol)` would hand out: the stored one, or a fresh zero one. */
  function Held(ps: seq<Position>, symbol: string): Position
  {
    var k := IndexOf(ps, symbol);
    if k >= 0 then ps[k] else Position(symbol, 0, 0.0)
  }

  /** `get_position` on the table: insert a zero position only when the symbol is absent. */
  function WithPosition(ps: seq<Position>, symbol: string): (r: Lookup)
    ensures r.index < |r.positions| && r.positions[r.index].symbol == symbol
  {
    var k := IndexOf(ps, symbol);
    if k >= 0 then Lookup(ps, k) else Lookup(ps + [Position(symbol, 0, 0.0)], |ps|)
  }

  // ---------------------------------------------------------------------------
  // apply_fill as a function on ledger values
  // ---------------------------------------------------------------------------

  /** The fill recorded for an executed SELL of `sellQty` shares (the executed quantity). */
  function RecordedSell(f: Fill, sellQty: int): Fill
  {
    f.(qty := sellQty)
  }

  /**
   * The fill portfolio.py:90 records for a SELL as the code is written: the
   * variable it uses holds the requested quantity, not `sell_qty`. It takes the
   * same arguments as `RecordedSell` so the two records can be compared at the
   * same call; the executed quantity `sellQty` is available but ignored.
   */
  function RecordedSellAsWritten(f: Fill, sellQty: int): (rec: Fill)
    ensures rec.qty == f.qty && rec.symbol == f.symbol && rec.side == f.side
  {
    Fill(f.date, f.symbol, f.side, f.qty, f.price, f.commission)
  }

  /** `apply_fill`: validate, look the position up (creating it), then BUY or SELL. */
  function Step(st: LedgerState, f: Fill): StepResult
  {
    if f.qty <= 0 then StepResult(st, Failed(NonPositiveQty))
    else if f.side != BUY && f.side != SELL then StepResult(st, Failed(UnknownSide))
    else
      var look := WithPosition(st.positions, f.symbol);
      var touched := st.(positions := look.positions);
      if f.side == BUY then BuyStep(touched, look.index, f) else SellStep(touched, look.index, f)
  }

  /** The BUY branch: clamp an unaffordable order to `floor((cash - comm) / px)` or drop it. */
  function BuyStep(st: LedgerState, k: nat, f: Fill): StepResult
    requires k < |st.positions|
  {
    if f.qty as real * f.price + f.commission > st.cash then
      if f.price == 0.0 then StepResult(st, Failed(DivisionByZero))
      else
        var maxQty := ((st.cash - f.commission) / f.price).Floor;
        if maxQty <= 0 then StepResult(st, Dropped) else CommitBuy(st, k, f, maxQty)
    else CommitBuy(st, k, f, f.qty)
  }

  /** Execute a BUY of `qty` shares: weighted-average cost, quantity, cash, fill history. */
  function CommitBuy(st: LedgerState, k: nat, f: Fill, qty: int): StepResult
    requires k < |st.positions|
  {
    var pos := st.positions[k];
    var rec := f.(qty := qty);
    StepResult(
      st.(positions := st.positions[k := Position(pos.symbol, pos.qty + qty, WeightedAvg(pos.avgCost, pos.qty, f.price, qty))],
          cash := st.cash - (qty as real * f.price + f.commission),
          fills := st.fills + [rec]),
      Applied(rec))
  }

  /** The average cost after adding `qty` shares at `px` to `held` shares costing `avg` each. */
  function WeightedAvg(avg: real, held: int, px: real, qty: int): real
  {
    if held + qty == 0 then 0.0 else (avg * held as real + px * qty as real) / (held + qty) as real
  }

  /** The SELL branch: cap at the held quantity (no shorting), drop when nothing is held. */
  function SellStep(st: LedgerState, k: nat, f: Fill): StepResult
    requires k < |st.positions|
  {
    var pos := st.positions[k];
    var sellQty := Min(f.qty, pos.qty);
    if sellQty <= 0 then StepResult(st, Dropped)
    else
      var newQty := pos.qty - sellQty;
      var rec := RecordedSell(f, sellQty);
      StepResult(
        st.(positions := st.positions[k := Position(pos.symbol, newQty, if newQty == 0 then 0.0 else pos.avgCost)],
            realizedPnl := st.realizedPnl + ((f.price - pos.avgCost) * sellQty as real - f.commission),
            cash := st.cash + (sellQty as real * f.price - f.commission),
            fills := st.fills + [rec]),
        Applied(rec))
  }

  // ---------------------------------------------------------------------------
  // The books: every held quantity is what the recorded fills add up to
  // ---------------------------------------------------------------------------

  /** The signed quantity a recorded fill moves in `symbol`. */
  function Signed(f: Fill, symbol: string): int
  {
    if f.symbol != symbol then 0 else if f.side == BUY then f.qty else -f.qty
  }

  /** Net quantity bought minus sold in `symbol` over a fill history. */
  function NetFilled(fills: seq<Fill>, symbol: string): int
  {
    if fills == [] then 0 else NetFilled(fills[..|fills| - 1], symbol) + Signed(fills[|fills| - 1], symbol)
  }

  /** One position is consistent: no shorting, zero cost when flat, equal to its fills. */
  ghost predicate Sound(p: Position, net: int)
  {
    p.qty == net && p.qty >= 0 && (p.qty == 0 ==> p.avgCost == 0.0)
  }

  /** The ledger's invariant: unique symbols and a sound position for every symbol. */
  ghost predicate Books(st: LedgerState)
  {
    && Distinct(st.positions)
    && forall s :: Sound(Held(st.positions, s), NetFilled(st.fills, s))
  }

  lemma {:induction false} IndexOfAppend(ps: seq<Position>, p: Position, s: string)
    ensures IndexOf(ps + [p], s) ==
            if IndexOf(ps, s) >= 0 then IndexOf(ps, s) else if p.symbol == s then |ps| else -1
  {
    if ps != [] {
      assert (ps + [p])[1..] == ps[1..] + [p];
      IndexOfAppend(ps[1..], p, s);
    }
  }

  lemma {:induction false} IndexOfSameSymbols(ps: seq<Position>, qs: seq<Position>, s: string)
    requires |ps| == |qs|
    requires forall i :: 0 <= i < |ps| ==> ps[i].symbol == qs[i].symbol
    ensures IndexOf(ps, s) == IndexOf(qs, s)
  {
    if ps != [] {
      IndexOfSameSymbols(ps[1..], qs[1..], s);
    }
  }

  lemma IndexOfDistinct(ps: seq<Position>, k: nat)
    requires Distinct(ps) && k < |ps|
    ensures IndexOf(ps, ps[k].symbol) == k
  {
  }

  /**
   * `get_position` inserts only on a miss: it leaves the table alone when the
   * symbol is a key and appends one zero position otherwise, so a second lookup
   * of the same symbol changes nothing.
   */
  lemma LookupInsertsOnlyWhenAbsent(ps: seq<Position>, symbol: string)
    ensures IndexOf(ps, symbol) >= 0 <==> WithPosition(ps, symbol).positions == ps
    ensures IndexOf(ps, symbol) < 0 <==> WithPosition(ps, symbol).positions == ps + [Position(symbol, 0, 0.0)]
    ensures var once := WithPosition(ps, symbol);
            WithPosition(once.positions, symbol) == once
  {
  }

  /** `get_position` never changes what any symbol's position is. */
  lemma HeldAfterLookup(ps: seq<Position>, symbol: string, s: string)
    ensures Held(WithPosition(ps, symbol).positions, s) == Held(ps, s)
  {
    if IndexOf(ps, symbol) < 0 {
      IndexOfAppend(ps, Position(symbol, 0, 0.0), s);
    }
  }

  lemma LookupKeepsDistinct(ps: seq<Position>, symbol: string)
    requires Distinct(ps)
    ensures Distinct(WithPosition(ps, symbol).positions)
  {
  }

  /** Rewriting the position at `k` changes only that symbol's position. */
  lemma HeldAfterUpdate(ps: seq<Position>, k: nat, p: Position, s: string)
    requires Distinct(ps) && k < |ps| && p.symbol == ps[k].symbol
    ensures Distinct(ps[k := p])
    ensures Held(ps[k := p], s) == if s == p.symbol then p else Held(ps, s)
  {
    IndexOfSameSymbols(ps, ps[k := p], s);
    IndexOfDistinct(ps, k);
  }

  lemma NetFilledAppend(fills: seq<Fill>, rec: Fill, s: string)
    ensures NetFilled(fills + [rec], s) == NetFilled(fills, s) + Signed(rec, s)
  {
    assert (fills + [rec])[..|fills|] == fills;
  }

  /** A fresh ledger keeps the books trivially. */
  lemma OpenedKeepsBooks(initialCash: real)
    ensures Books(Opened(initialCash))
  {
    forall s ensures Sound(Held([], s), NetFilled([], s)) { }
  }

  /** `get_position` keeps the books. */
  lemma LookupKeepsBooks(st: LedgerState, symbol: string)
    requires Books(st)
    ensures Books(st.(positions := WithPosition(st.positions, symbol).positions))
  {
    LookupKeepsDistinct(st.positions, symbol);
    forall s ensures Held(WithPosition(st.positions, symbol).positions, s) == Held(st.positions, s) {
      HeldAfterLookup(st.positions, symbol, s);
    }
  }

  /** Either branch of `apply_fill` changes nothing, or rewrites position `k` and appends its record. */
  lemma BranchShape(st: LedgerState, k: nat, f: Fill)
    requires k < |st.positions| && st.positions[k].symbol == f.symbol && st.positions[k].qty >= 0
    requires f.qty > 0 && (f.side == BUY || f.side == SELL)
    ensures var r := if f.side == BUY then BuyStep(st, k, f) else SellStep(st, k, f);
            |r.state.positions| == |st.positions|
    ensures var r := if f.side == BUY then BuyStep(st, k, f) else SellStep(st, k, f);
            var new_ := r.state.positions[k];
            && (!r.outcome.Applied? ==> r.state == st)
            && (r.outcome.Applied? ==>
                  && r.state.positions == st.positions[k := new_]
                  && new_.symbol == f.symbol
                  && r.state.fills == st.fills + [r.outcome.recorded]
                  && r.outcome.recorded == f.(qty := r.outcome.recorded.qty)
                  && r.outcome.recorded.qty > 0
                  && new_.qty == st.positions[k].qty + Signed(r.outcome.recorded, f.symbol)
                  && new_.qty >= 0
                  && (new_.qty == 0 ==> new_.avgCost == 0.0))
  {
    if f.side == BUY {
      BuyStepExecutes(st, k, f);
    }
  }

  /**
   * Every call of `apply_fill` keeps the books: the recorded fills account for
   * every held share, quantities never go negative and a flat position has
   * zero average cost. This holds because a SELL records the executed quantity.
   */
  lemma StepKeepsBooks(st: LedgerState, f: Fill)
    requires Books(st)
    ensures Books(Step(st, f).state)
  {
    if f.qty > 0 && (f.side == BUY || f.side == SELL) {
      var look := WithPosition(st.positions, f.symbol);
      var touched := st.(positions := look.positions);
      LookupKeepsBooks(st, f.symbol);
      var k := look.index;
      IndexOfDistinct(touched.positions, k);
      assert Sound(Held(touched.positions, f.symbol), NetFilled(touched.fills, f.symbol));
      var r := if f.side == BUY then BuyStep(touched, k, f) else SellStep(touched, k, f);
      assert Step(st, f) == r;
      BranchShape(touched, k, f);
      if r.outcome.Applied? {
        var rec := r.outcome.recorded;
        var p := r.state.positions[k];
        forall s ensures Sound(Held(r.state.positions, s), NetFilled(r.state.fills, s)) {
          HeldAfterUpdate(touched.positions, k, p, s);
          NetFilledAppend(touched.fills, rec, s);
        }
        HeldAfterUpdate(touched.positions, k, p, f.symbol);
      }
    }
  }

  // ---------------------------------------------------------------------------
  // Properties of apply_fill
  // ---------------------------------------------------------------------------

  /** A fill with a non-positive quantity or an unknown side fails and changes nothing. */
  lemma InvalidFillFails(st: LedgerState, f: Fill)
    ensures Step(st, f).outcome == Failed(NonPositiveQty) <==> f.qty <= 0
    ensures Step(st, f).outcome == Failed(UnknownSide) <==> f.qty > 0 && f.side != BUY && f.side != SELL
    ensures f.qty <= 0 || (f.side != BUY && f.side != SELL) ==> Step(st, f).state == st
  {
  }

  /** The only other failure: an unaffordable BUY at price 0, which has already created the position. */
  lemma ZeroPriceBuyFails(st: LedgerState, f: Fill)
    requires f.qty > 0 && (f.side == BUY || f.side == SELL)
    ensures Step(st, f).outcome == Failed(DivisionByZero) <==>
            f.side == BUY && f.price == 0.0 && f.commission > st.cash
    ensures Step(st, f).outcome.Failed? ==>
            Step(st, f).state == st.(positions := WithPosition(st.positions, f.symbol).positions)
  {
  }

  /** An affordable BUY executes in full: quantity, weighted-average cost and exact cash debit. */
  lemma AffordableBuy(st: LedgerState, f: Fill)
    requires Books(st)
    requires f.qty > 0 && f.side == BUY && f.qty as real * f.price + f.commission <= st.cash
    ensures var r := Step(st, f);
            var old_ := Held(st.positions, f.symbol);
            var new_ := Held(r.state.positions, f.symbol);
            && r.outcome == Applied(f)
            && new_.qty == old_.qty + f.qty
            && new_.avgCost == (old_.avgCost * old_.qty as real + f.price * f.qty as real) / (old_.qty + f.qty) as real
            && r.state.cash == st.cash - (f.qty as real * f.price + f.commission)
            && r.state.realizedPnl == st.realizedPnl
            && r.state.initialCash == st.initialCash
            && r.state.fills == st.fills + [f]
  {
    assert Sound(Held(st.positions, f.symbol), NetFilled(st.fills, f.symbol));
    BuyUpdatesHeld(st, f);
    assert Step(st, f).outcome == Applied(f.(qty := f.qty));
    FullBuyEffect(st, Step(st, f), f);
  }

  /** The effect of a BUY call, as `BuyUpdatesHeld` states it, when the whole order executes. */
  lemma FullBuyEffect(st: LedgerState, r: StepResult, f: Fill)
    requires r.outcome == Applied(f.(qty := f.qty)) && f.qty > 0
    requires Held(st.positions, f.symbol).qty >= 0
    requires Held(r.state.positions, f.symbol).qty == Held(st.positions, f.symbol).qty + r.outcome.recorded.qty
    requires Held(r.state.positions, f.symbol).avgCost ==
               WeightedAvg(Held(st.positions, f.symbol).avgCost, Held(st.positions, f.symbol).qty, f.price, r.outcome.recorded.qty)
    requires r.state.cash == st.cash - (r.outcome.recorded.qty as real * f.price + f.commission)
    requires r.state.fills == st.fills + [r.outcome.recorded]
    ensures var old_ := Held(st.positions, f.symbol);
            var new_ := Held(r.state.positions, f.symbol);
            && r.outcome == Applied(f)
            && new_.qty == old_.qty + f.qty
            && new_.avgCost == (old_.avgCost * old_.qty as real + f.price * f.qty as real) / (old_.qty + f.qty) as real
            && r.state.cash == st.cash - (f.qty as real * f.price + f.commission)
            && r.state.fills == st.fills + [f]
  {
    assert f.(qty := f.qty) == f;
  }

  /** Executing a BUY of `q` shares at index `k` rewrites that position only. */
  lemma CommitBuyEffect(st: LedgerState, k: nat, f: Fill, q: int)
    requires Distinct(st.positions) && k < |st.positions| && st.positions[k].symbol == f.symbol
    requires st.positions[k].qty + q != 0
    ensures var r := CommitBuy(st, k, f, q);
            var old_ := st.positions[k];
            var new_ := Held(r.state.positions, f.symbol);
            && new_.qty == old_.qty + q
            && new_.avgCost == WeightedAvg(old_.avgCost, old_.qty, f.price, q)
            && forall s :: s != f.symbol ==> Held(r.state.positions, s) == Held(st.positions, s)
    ensures Distinct(CommitBuy(st, k, f, q).state.positions)
    ensures var r := CommitBuy(st, k, f, q);
            && r.outcome == Applied(f.(qty := q))
            && r.state.cash == st.cash - (q as real * f.price + f.commission)
            && r.state.fills == st.fills + [f.(qty := q)]
            && r.state.realizedPnl == st.realizedPnl && r.state.initialCash == st.initialCash
  {
    var r := CommitBuy(st, k, f, q);
    var p := r.state.positions[k];
    assert r.state.positions == st.positions[k := p];
    forall s ensures Held(st.positions[k := p], s) == if s == p.symbol then p else Held(st.positions, s) {
      HeldAfterUpdate(st.positions, k, p, s);
    }
  }

  /** The clamped quantity is below the request and leaves the cash non-negative. */
  lemma ClampFits(cash: real, comm: real, px: real, qty: int)
    requires px > 0.0 && qty as real * px + comm > cash
    ensures var m := ((cash - comm) / px).Floor;
            m > 0 ==> m < qty && m as real * px + comm <= cash
  {
    var x := (cash - comm) / px;
    var m := x.Floor;
    assert x * px == cash - comm;
    if m > 0 {
      assert m as real <= x;
      assert m as real * px <= x * px;
      assert qty as real * px > x * px;
      assert qty as real > x;
    }
  }

  /** What any executed BUY does to the position of its symbol and to no other. */
  lemma BuyUpdatesHeld(st: LedgerState, f: Fill)
    requires Distinct(st.positions) && Held(st.positions, f.symbol).qty >= 0
    requires f.qty > 0 && f.side == BUY
    ensures var r := Step(st, f);
            var old_ := Held(st.positions, f.symbol);
            var new_ := Held(r.state.positions, f.symbol);
            r.outcome.Applied? ==>
              && r.outcome.recorded == f.(qty := r.outcome.recorded.qty)
              && r.outcome.recorded.qty > 0
              && new_.qty == old_.qty + r.outcome.recorded.qty
              && new_.avgCost == WeightedAvg(old_.avgCost, old_.qty, f.price, r.outcome.recorded.qty)
              && r.state.cash == st.cash - (r.outcome.recorded.qty as real * f.price + f.commission)
              && r.state.fills == st.fills + [r.outcome.recorded]
              && r.state.realizedPnl == st.realizedPnl
              && r.state.initialCash == st.initialCash
    ensures var r := Step(st, f);
            !r.outcome.Applied? ==>
              Held(r.state.positions, f.symbol) == Held(st.positions, f.symbol) && r.state.fills == st.fills
    ensures Distinct(Step(st, f).state.positions)
    ensures forall s :: s != f.symbol ==> Held(Step(st, f).state.positions, s) == Held(st.positions, s)
  {
    var look := WithPosition(st.positions, f.symbol);
    var touched := st.(positions := look.positions);
    var k := look.index;
    LookupKeepsDistinct(st.positions, f.symbol);
    HeldAfterLookup(st.positions, f.symbol, f.symbol);
    IndexOfDistinct(look.positions, k);
    assert touched.positions[k] == Held(st.positions, f.symbol);
    var r := BuyStep(touched, k, f);
    assert Step(st, f) == r;
    forall s | s != f.symbol ensures Held(look.positions, s) == Held(st.positions, s) {
      HeldAfterLookup(st.positions, f.symbol, s);
    }
    BuyStepExecutes(touched, k, f);
    if r.outcome.Applied? {
      var q := r.outcome.recorded.qty;
      CommitBuyEffect(touched, k, f, q);
      assert r.state.cash == touched.cash - (q as real * f.price + f.commission);
    }
  }

  /** The BUY branch either leaves the ledger alone or executes some positive quantity. */
  lemma BuyStepExecutes(st: LedgerState, k: nat, f: Fill)
    requires k < |st.positions| && f.qty > 0
    ensures var r := BuyStep(st, k, f);
            && (r.outcome.Applied? ==> r.outcome.recorded.qty > 0 && r == CommitBuy(st, k, f, r.outcome.recorded.qty))
            && (!r.outcome.Applied? ==> r.state == st)
  {
  }

  /**
   * An unaffordable BUY at a positive price is clamped to floor((cash - comm) / px):
   * dropped (only the lazily created position remains) when that is not positive,
   * otherwise executed for fewer shares than asked with cash left non-negative.
   */
  lemma UnaffordableBuyIsClamped(st: LedgerState, f: Fill)
    requires f.qty > 0 && f.side == BUY && f.price > 0.0
    requires f.qty as real * f.price + f.commission > st.cash
    ensures var m := ((st.cash - f.commission) / f.price).Floor;
            var r := Step(st, f);
            && (m <= 0 ==> r.outcome == Dropped && r.state == st.(positions := WithPosition(st.positions, f.symbol).positions))
            && (m > 0 ==> && r.outcome == Applied(f.(qty := m))
                          && m < f.qty
                          && r.state.cash == st.cash - (m as real * f.price + f.commission)
                          && r.state.cash >= 0.0
                          && r.state.realizedPnl == st.realizedPnl
                          && r.state.initialCash == st.initialCash)
  {
    ClampFits(st.cash, f.commission, f.price, f.qty);
  }

  /**
   * A SELL executes min(requested, held) shares: dropped when nothing is held,
   * otherwise realized PnL and cash move by the executed quantity and a flat
   * position resets its average cost.
   */
  lemma SellIsCapped(st: LedgerState, f: Fill)
    requires Books(st)
    requires f.qty > 0 && f.side == SELL
    ensures var r := Step(st, f);
            var old_ := Held(st.positions, f.symbol);
            var new_ := Held(r.state.positions, f.symbol);
            var sold := Min(f.qty, old_.qty);
            && (old_.qty == 0 ==> r.outcome == Dropped && r.state == st.(positions := WithPosition(st.positions, f.symbol).positions))
            && (old_.qty > 0 ==>
                  && r.outcome == Applied(f.(qty := sold))
                  && 0 < sold <= old_.qty
                  && r.state.realizedPnl == st.realizedPnl + ((f.price - old_.avgCost) * sold as real - f.commission)
                  && r.state.cash == st.cash + (sold as real * f.price - f.commission)
                  && new_.qty == old_.qty - sold >= 0
                  && (new_.qty == 0 ==> new_.avgCost == 0.0)
                  && (new_.qty > 0 ==> new_.avgCost == old_.avgCost)
                  && r.state.fills == st.fills + [f.(qty := sold)])
    ensures forall s :: s != f.symbol ==> Held(Step(st, f).state.positions, s) == Held(st.positions, s)
  {
    var look := WithPosition(st.positions, f.symbol);
    LookupKeepsDistinct(st.positions, f.symbol);
    HeldAfterLookup(st.positions, f.symbol, f.symbol);
    IndexOfDistinct(look.positions, look.index);
    assert Sound(Held(st.positions, f.symbol), NetFilled(st.fills, f.symbol));
    var r := Step(st, f);
    forall s | s != f.symbol ensures Held(r.state.positions, s) == Held(st.positions, s) {
      HeldAfterLookup(st.positions, f.symbol, s);
      if r.outcome.Applied? {
        HeldAfterUpdate(look.positions, look.index, r.state.positions[look.index], s);
      }
    }
    if r.outcome.Applied? {
      HeldAfterUpdate(look.positions, look.index, r.state.positions[look.index], f.symbol);
    }
  }

  /** At most one fill is appended per call, and it is the executed fill. */
  lemma OneFillPerExecutedCall(st: LedgerState, f: Fill)
    ensures var r := Step(st, f);
            && (r.outcome.Applied? ==> && r.state.fills == st.fills + [r.outcome.recorded]
                                       && r.outcome.recorded == f.(qty := r.outcome.recorded.qty)
                                       && r.outcome.recorded.qty > 0)
            && (!r.outcome.Applied? ==> r.state.fills == st.fills && r.state.cash == st.cash
                                        && r.state.realizedPnl == st.realizedPnl)
  {
  }

  /** Buying `n` at `p1` from flat, commission-free and affordable, holds `n` at cost `p1`. */
  lemma OpeningBuy(st: LedgerState, buy: Fill)
    requires Books(st) && Held(st.positions, buy.symbol).qty == 0
    requires buy.side == BUY && buy.qty > 0 && buy.commission == 0.0
    requires buy.qty as real * buy.price <= st.cash
    ensures var mid := Step(st, buy).state;
            && Books(mid)
            && Held(mid.positions, buy.symbol).qty == buy.qty
            && Held(mid.positions, buy.symbol).avgCost == buy.price
            && mid.cash == st.cash - buy.qty as real * buy.price
            && mid.realizedPnl == st.realizedPnl
            && mid.fills == st.fills + [buy]
  {
    AffordableBuy(st, buy);
    StepKeepsBooks(st, buy);
    var flat := Held(st.positions, buy.symbol);
    SingleLotAverage(flat.avgCost, flat.qty, buy.price, buy.qty);
  }

  /** From flat, the weighted average of one lot is that lot's price. */
  lemma SingleLotAverage(avg: real, held: int, px: real, qty: int)
    requires held == 0 && qty > 0
    ensures (avg * held as real + px * qty as real) / (held + qty) as real == px
  {
  }

  /** Selling all `n` shares held at cost `p1`, commission-free, realizes `n * (p2 - p1)` and goes flat. */
  lemma ClosingSell(mid: LedgerState, sell: Fill, p1: real)
    requires Books(mid) && Held(mid.positions, sell.symbol).qty == sell.qty
    requires Held(mid.positions, sell.symbol).avgCost == p1
    requires sell.side == SELL && sell.qty > 0 && sell.commission == 0.0
    ensures var end := Step(mid, sell).state;
            && end.realizedPnl == mid.realizedPnl + sell.qty as real * (sell.price - p1)
            && end.cash == mid.cash + sell.qty as real * sell.price
            && Held(end.positions, sell.symbol).qty == 0
            && Held(end.positions, sell.symbol).avgCost == 0.0
            && end.fills == mid.fills + [sell]
  {
    SellIsCapped(mid, sell);
    assert Min(sell.qty, sell.qty) == sell.qty;
    assert sell.(qty := sell.qty) == sell;
  }

  /**
   * Round trip: from flat with zero commission, buying n at p1 and selling n at
   * p2 realizes n * (p2 - p1), moves cash by the same amount and ends flat.
   */
  lemma RoundTrip(st: LedgerState, buy: Fill, sell: Fill)
    requires Books(st)
    requires buy.side == BUY && sell.side == SELL && buy.symbol == sell.symbol
    requires buy.qty == sell.qty > 0 && buy.commission == 0.0 && sell.commission == 0.0
    requires Held(st.positions, buy.symbol).qty == 0
    requires buy.qty as real * buy.price <= st.cash
    ensures var end := Step(Step(st, buy).state, sell).state;
            var n := buy.qty as real;
            && end.realizedPnl == st.realizedPnl + n * (sell.price - buy.price)
            && end.cash == st.cash + n * (sell.price - buy.price)
            && Held(end.positions, buy.symbol).qty == 0
            && Held(end.positions, buy.symbol).avgCost == 0.0
            && end.fills == st.fills + [buy, sell]
  {
    OpeningBuy(st, buy);
    var mid := Step(st, buy).state;
    ClosingSell(mid, sell, buy.price);
    var n := buy.qty as real;
    assert n * (sell.price - buy.price) == n * sell.price - n * buy.price;
    assert st.fills + [buy] + [sell] == st.fills + [buy, sell];
  }

  // ---------------------------------------------------------------------------
  // Average cost over a run of BUYs
  // ---------------------------------------------------------------------------

  /** The ledger after a sequence of `apply_fill` calls. */
  function ApplyAll(st: LedgerState, fs: seq<Fill>): (end: LedgerState)
    ensures |st.fills| <= |end.fills| && end.fills[..|st.fills|] == st.fills
  {
    if fs == [] then st else Step(ApplyAll(st, fs[..|fs| - 1]), fs[|fs| - 1]).state
  }

  /** The books are kept over any sequence of `apply_fill` calls. */
  lemma {:induction false} ApplyAllKeepsBooks(st: LedgerState, fs: seq<Fill>)
    requires Books(st)
    ensures Books(ApplyAll(st, fs))
  {
    if fs != [] {
      ApplyAllKeepsBooks(st, fs[..|fs| - 1]);
      StepKeepsBooks(ApplyAll(st, fs[..|fs| - 1]), fs[|fs| - 1]);
    }
  }

  /**
   * The meaning of the weighted average: after adding `qty` shares at `px`, the
   * new cost basis (avg_cost times qty) is the old one plus `px * qty`.
   */
  lemma WeightedAvgBasis(avg: real, held: int, px: real, qty: int)
    requires held + qty != 0
    ensures WeightedAvg(avg, held, px, qty) * (held + qty) as real == avg * held as real + px * qty as real
  {
  }

  /** What the BUY records in `symbol` paid for the shares, commission aside: the sum of price * qty. */
  function BoughtCost(fills: seq<Fill>, symbol: string): real
  {
    if fills == [] then 0.0
    else
      var f := fills[|fills| - 1];
      BoughtCost(fills[..|fills| - 1], symbol) + if f.symbol == symbol && f.side == BUY then f.price * f.qty as real else 0.0
  }

  /** The cost basis of a position: average cost times quantity. */
  function Basis(p: Position): real
  {
    p.avgCost * p.qty as real
  }

  lemma {:induction false} BoughtCostAppend(a: seq<Fill>, b: seq<Fill>, symbol: string)
    ensures BoughtCost(a + b, symbol) == BoughtCost(a, symbol) + BoughtCost(b, symbol)
  {
    if b != [] {
      var n := |b| - 1;
      assert (a + b)[..|a + b| - 1] == a + b[..n];
      BoughtCostAppend(a, b[..n], symbol);
    } else {
      assert a + b == a;
    }
  }

  /** Adding `q` shares at `px` at the weighted average adds `px * q` to the cost basis. */
  lemma BasisGrows(old_: Position, new_: Position, px: real, q: int)
    requires old_.qty + q != 0 && new_.qty == old_.qty + q
    requires new_.avgCost == WeightedAvg(old_.avgCost, old_.qty, px, q)
    ensures Basis(new_) == Basis(old_) + px * q as real
  {
    WeightedAvgBasis(old_.avgCost, old_.qty, px, q);
  }

  /** The cost paid by a single record. */
  lemma BoughtCostOne(rec: Fill, s: string)
    ensures BoughtCost([rec], s) == if rec.symbol == s && rec.side == BUY then rec.price * rec.qty as real else 0.0
  {
    assert [rec][..0] == [];
  }

  /** The effect of a BUY call, as `BuyUpdatesHeld` states it, adds the record's cost to the basis. */
  lemma BasisAfterBuy(st: LedgerState, r: StepResult, f: Fill, s: string)
    requires r.outcome.Applied? ==>
               && r.outcome.recorded.qty > 0
               && r.outcome.recorded == f.(qty := r.outcome.recorded.qty)
               && Held(st.positions, f.symbol).qty >= 0
               && Held(r.state.positions, f.symbol).qty == Held(st.positions, f.symbol).qty + r.outcome.recorded.qty
               && Held(r.state.positions, f.symbol).avgCost ==
                    WeightedAvg(Held(st.positions, f.symbol).avgCost, Held(st.positions, f.symbol).qty, f.price, r.outcome.recorded.qty)
               && r.state.fills == st.fills + [r.outcome.recorded]
    requires !r.outcome.Applied? ==>
               Held(r.state.positions, f.symbol) == Held(st.positions, f.symbol) && r.state.fills == st.fills
    requires s != f.symbol ==> Held(r.state.positions, s) == Held(st.positions, s)
    requires f.side == BUY
    ensures |st.fills| <= |r.state.fills| && r.state.fills[..|st.fills|] == st.fills
    ensures Basis(Held(r.state.positions, s)) == Basis(Held(st.positions, s)) + BoughtCost(r.state.fills[|st.fills|..], s)
  {
    var old_ := Held(st.positions, s);
    var new_ := Held(r.state.positions, s);
    if r.outcome.Applied? {
      var rec := r.outcome.recorded;
      assert r.state.fills[|st.fills|..] == [rec];
      BoughtCostOne(rec, s);
      if s == f.symbol {
        BasisGrows(old_, new_, f.price, rec.qty);
      }
    } else {
      assert r.state.fills[|st.fills|..] == [];
    }
  }

  /** One BUY call adds to the cost basis of a symbol exactly what its record paid in that symbol. */
  lemma BuyAddsBasis(st: LedgerState, f: Fill, s: string)
    requires Books(st) && f.side == BUY
    ensures var r := Step(st, f).state;
            && |st.fills| <= |r.fills| && r.fills[..|st.fills|] == st.fills
            && Basis(Held(r.positions, s)) == Basis(Held(st.positions, s)) + BoughtCost(r.fills[|st.fills|..], s)
  {
    if f.qty <= 0 {
      assert Step(st, f).state == st;
      assert st.fills[|st.fills|..] == [];
    } else {
      assert Sound(Held(st.positions, f.symbol), NetFilled(st.fills, f.symbol));
      BuyUpdatesHeld(st, f);
      BasisAfterBuy(st, Step(st, f), f, s);
    }
  }

  /**
   * Average cost over a run of BUYs: after any sequence of BUY calls the cost
   * basis (`avg_cost * qty`) of a symbol has grown by exactly what the appended
   * records paid in that symbol.
   */
  lemma {:induction false} BuysAccumulateBasis(st: LedgerState, fs: seq<Fill>, s: string)
    requires Books(st)
    requires forall i :: 0 <= i < |fs| ==> fs[i].side == BUY
    ensures var end := ApplyAll(st, fs);
            Basis(Held(end.positions, s)) == Basis(Held(st.positions, s)) + BoughtCost(end.fills[|st.fills|..], s)
  {
    if fs == [] {
      assert ApplyAll(st, fs).fills[|st.fills|..] == [];
    } else {
      var n := |fs| - 1;
      var mid := ApplyAll(st, fs[..n]);
      var end := ApplyAll(st, fs);
      ghost var old_ := mid.fills[|st.fills|..];
      ghost var new_ := end.fills[|mid.fills|..];
      assert Basis(Held(mid.positions, s)) == Basis(Held(st.positions, s)) + BoughtCost(old_, s) by {
        BuysAccumulateBasis(st, fs[..n], s);
      }
      assert Basis(Held(end.positions, s)) == Basis(Held(mid.positions, s)) + BoughtCost(new_, s)
             && end.fills[..|mid.fills|] == mid.fills by {
        ApplyAllKeepsBooks(st, fs[..n]);
        BuyAddsBasis(mid, fs[n], s);
      }
      assert end.fills[|st.fills|..] == old_ + new_;
      BoughtCostAppend(old_, new_, s);
    }
  }

  /** The net quantity of a history adds up over consecutive stretches of it. */
  lemma {:induction false} NetFilledConcat(a: seq<Fill>, b: seq<Fill>, symbol: string)
    ensures NetFilled(a + b, symbol) == NetFilled(a, symbol) + NetFilled(b, symbol)
  {
    if b != [] {
      var n := |b| - 1;
      assert (a + b)[..|a + b| - 1] == a + b[..n];
      NetFilledConcat(a, b[..n], symbol);
    } else {
      assert a + b == a;
    }
  }

  /**
   * From a flat position, after any sequence of BUY calls the held quantity is
   * the total quantity of the records appended in that symbol, and
   * `avg_cost * qty` is the sum of price * qty over them: the average cost is
   * the quantity-weighted mean of the executed prices.
   */
  lemma FlatBuysAverage(st: LedgerState, fs: seq<Fill>, s: string)
    requires Books(st) && Held(st.positions, s).qty == 0
    requires forall i :: 0 <= i < |fs| ==> fs[i].side == BUY
    ensures var end := ApplyAll(st, fs);
            Held(end.positions, s).qty == NetFilled(end.fills[|st.fills|..], s)
    ensures var end := ApplyAll(st, fs);
            Held(end.positions, s).avgCost * Held(end.positions, s).qty as real == BoughtCost(end.fills[|st.fills|..], s)
  {
    var end := ApplyAll(st, fs);
    BuysAccumulateBasis(st, fs, s);
    assert Sound(Held(st.positions, s), NetFilled(st.fills, s));
    ApplyAllKeepsBooks(st, fs);
    assert Sound(Held(end.positions, s), NetFilled(end.fills, s));
    assert end.fills == st.fills + end.fills[|st.fills|..];
    NetFilledConcat(st.fills, end.fills[|st.fills|..], s);
  }

  // ---------------------------------------------------------------------------
  // The recorded-quantity finding (portfolio.py:90)
  // ---------------------------------------------------------------------------

  /**
   * Holding 3 shares and asking to SELL 10 executes 3, but the record the code
   * as written appends carries 10: the fill history then nets to -7 shares
   * while the position holds 0. The record `Step` appends carries 3 and the
   * books balance.
   */
  lemma CappedSellRecordAsWrittenOverstates()
    ensures var st0 := Opened(1000.0);
            var buy := Fill(1, "X", BUY, 3, 10.0, 0.0);
            var sell := Fill(2, "X", SELL, 10, 10.0, 0.0);
            var st1 := Step(st0, buy).state;
            var st2 := Step(st1, sell).state;
            var asWritten := st1.fills + [RecordedSellAsWritten(sell, 3)];
            && Held(st2.positions, "X").qty == 0
            && NetFilled(asWritten, "X") == -7
            && NetFilled(asWritten, "X") != Held(st2.positions, "X").qty
            && NetFilled(st2.fills, "X") == Held(st2.positions, "X").qty
  {
    var st0 := Opened(1000.0);
    var buy := Fill(1, "X", BUY, 3, 10.0, 0.0);
    var sell := Fill(2, "X", SELL, 10, 10.0, 0.0);
    OpenedKeepsBooks(1000.0);
    AffordableBuy(st0, buy);
    StepKeepsBooks(st0, buy);
    var st1 := Step(st0, buy).state;
    SellIsCapped(st1, sell);
    StepKeepsBooks(st1, sell);
    var st2 := Step(st1, sell).state;
    assert Sound(Held(st2.positions, "X"), NetFilled(st2.fills, "X"));
    assert st1.fills == [buy];
    var asWritten := st1.fills + [RecordedSellAsWritten(sell, 3)];
    assert asWritten[..1] == [buy];
    assert NetFilled([buy], "X") == 3 by { assert [buy][..0] == []; }
  }

  // ---------------------------------------------------------------------------
  // snapshot
  // ---------------------------------------------------------------------------

  /** `prices.get(sym, 0.0)`: a symbol without a price is marked at 0. */
  function MarkPrice(prices: map<string, real>, symbol: string): real
  {
    if symbol in prices then prices[symbol] else 0.0
  }

  /** A position's unrealized PnL at mark `px` (0 when flat). */
  function Unrealized(p: Position, px: real): real
  {
    if p.qty != 0 then (px - p.avgCost) * p.qty as real else 0.0
  }

  /** Sum of signed market values. */
  function MarketValueSum(ps: seq<Position>, prices: map<string, real>): real
  {
    if ps == [] then 0.0
    else MarketValueSum(ps[..|ps| - 1], prices) + ps[|ps| - 1].MarketValue(MarkPrice(prices, ps[|ps| - 1].symbol))
  }

  /** Sum of absolute market values. */
  function GrossSum(ps: seq<Position>, prices: map<string, real>): real
  {
    if ps == [] then 0.0
    else GrossSum(ps[..|ps| - 1], prices) + Abs(ps[|ps| - 1].MarketValue(MarkPrice(prices, ps[|ps| - 1].symbol)))
  }

  /** Sum of unrealized PnL. */
  function UnrealizedSum(ps: seq<Position>, prices: map<string, real>): real
  {
    if ps == [] then 0.0
    else UnrealizedSum(ps[..|ps| - 1], prices) + Unrealized(ps[|ps| - 1], MarkPrice(prices, ps[|ps| - 1].symbol))
  }

  /** The snapshot of a ledger at `date` marked at `prices`. */
  function SnapshotOf(st: LedgerState, date: int, prices: map<string, real>): SnapshotRow
  {
    var mv := MarketValueSum(st.positions, prices);
    SnapshotRow(date, st.cash, mv, st.cash + mv, st.realizedPnl,
             UnrealizedSum(st.positions, prices), GrossSum(st.positions, prices), mv)
  }

  /** Gross exposure is non-negative and bounds the magnitude of net exposure. */
  lemma {:induction false} GrossBoundsNet(ps: seq<Position>, prices: map<string, real>)
    ensures GrossSum(ps, prices) >= 0.0
    ensures GrossSum(ps, prices) >= Abs(MarketValueSum(ps, prices))
  {
    if ps != [] {
      GrossBoundsNet(ps[..|ps| - 1], prices);
    }
  }

  /** For a long-only book marked at non-negative prices, gross exposure equals net exposure. */
  lemma {:induction false} LongBookGrossIsNet(ps: seq<Position>, prices: map<string, real>)
    requires forall i :: 0 <= i < |ps| ==> ps[i].qty >= 0 && MarkPrice(prices, ps[i].symbol) >= 0.0
    ensures GrossSum(ps, prices) == MarketValueSum(ps, prices)
  {
    if ps != [] {
      LongBookGrossIsNet(ps[..|ps| - 1], prices);
      var p := ps[|ps| - 1];
      assert p.MarketValue(MarkPrice(prices, p.symbol)) >= 0.0;
    }
  }

  /** A symbol missing from `prices` is marked exactly as if its price were 0. */
  lemma {:induction false} MissingPriceMarksAtZero(st: LedgerState, date: int, prices: map<string, real>, symbol: string)
    requires symbol !in prices
    ensures SnapshotOf(st, date, prices) == SnapshotOf(st, date, prices[symbol := 0.0])
  {
    MissingPriceSums(st.positions, prices, symbol);
  }

  lemma {:induction false} MissingPriceSums(ps: seq<Position>, prices: map<string, real>, symbol: string)
    requires symbol !in prices
    ensures MarketValueSum(ps, prices) == MarketValueSum(ps, prices[symbol := 0.0])
    ensures GrossSum(ps, prices) == GrossSum(ps, prices[symbol := 0.0])
    ensures UnrealizedSum(ps, prices) == UnrealizedSum(ps, prices[symbol := 0.0])
  {
    if ps != [] {
      MissingPriceSums(ps[..|ps| - 1], prices, symbol);
      var p := ps[|ps| - 1];
      assert MarkPrice(prices, p.symbol) == MarkPrice(prices[symbol := 0.0], p.symbol);
    }
  }

  // ---------------------------------------------------------------------------
  // The Portfolio object
  // ---------------------------------------------------------------------------

  class Portfolio {
    var initialCash: real
    var cash: real
    var positions: seq<Position>
    var realizedPnl: real
    var fills: seq<Fill>

    /** The object's fields as a ledger value. */
    function State(): LedgerState
      reads this
    {
      LedgerState(initialCash, cash, positions, realizedPnl, fills)
    }

    ghost predicate Valid()
      reads this
    {
      Books(State())
    }

    /** `Portfolio(initial_cash)` for a positive amount (see `Create` for the check). */
    constructor (initialCash: real)
      requires initialCash > 0.0
      ensures State() == Opened(initialCash) && Valid()
    {
      this.initialCash := initialCash;
      cash := initialCash;
      positions := [];
      realizedPnl := 0.0;
      fills := [];
      new;
      OpenedKeepsBooks(initialCash);
    }

    /** `Portfolio(initial_cash)`: rejects a non-positive amount, otherwise a fresh ledger. */
    static method Create(initialCash: real) returns (r: Result<Portfolio, LedgerError>)
      ensures r.Err? <==> initialCash <= 0.0
      ensures r.Err? ==> r.error == NonPositiveInitialCash
      ensures r.Ok? ==> fresh(r.value) && r.value.State() == Opened(initialCash) && r.value.Valid()
    {
      if initialCash <= 0.0 {
        return Err(NonPositiveInitialCash);
      }
      var p := new Portfolio(initialCash);
      return Ok(p);
    }

    /** `get_position`: the symbol's position, inserting a zero one when absent. */
    method GetPosition(symbol: string) returns (p: Position)
      requires Valid()
      modifies this
      ensures Valid()
      ensures positions == WithPosition(old(positions), symbol).positions
      ensures p == Held(positions, symbol) && p == Held(old(positions), symbol)
      ensures initialCash == old(initialCash) && cash == old(cash)
      ensures realizedPnl == old(realizedPnl) && fills == old(fills)
    {
      LookupKeepsBooks(State(), symbol);
      HeldAfterLookup(positions, symbol, symbol);
      var k := IndexOf(positions, symbol);
      if k < 0 {
        positions := positions + [Position(symbol, 0, 0.0)];
        k := |positions| - 1;
      }
      IndexOfDistinct(positions, k);
      p := positions[k];
    }

    /** `apply_fill`, with the SELL record carrying the executed quantity. */
    method ApplyFill(fill: Fill) returns (outcome: Outcome)
      requires Valid()
      modifies this
      ensures Valid()
      ensures State() == Step(old(State()), fill).state
      ensures outcome == Step(old(State()), fill).outcome
    {
      if fill.qty <= 0 {
        return Failed(NonPositiveQty);
      }
      if fill.side != BUY && fill.side != SELL {
        return Failed(UnknownSide);
      }
      ghost var before := State();
      StepKeepsBooks(before, fill);
      var _ := GetPosition(fill.symbol);
      var k := IndexOf(positions, fill.symbol);
      assert k == WithPosition(before.positions, fill.symbol).index;
      if fill.side == BUY {
        outcome := Buy(k, fill);
      } else {
        outcome := Sell(k, fill);
      }
    }

    /** The BUY branch of `apply_fill` on the position at index `k`. */
    method Buy(k: nat, fill: Fill) returns (outcome: Outcome)
      requires k < |positions|
      modifies this
      ensures StepResult(State(), outcome) == BuyStep(old(State()), k, fill)
    {
      ghost var before := State();
      var pos := positions[k];
      var qty := fill.qty;
      var px := fill.price;
      var comm := fill.commission;
      var totalCost := qty as real * px + comm;
      if totalCost > cash {
        if px == 0.0 {
          return Failed(DivisionByZero);
        }
        var maxQty := ((cash - comm) / px).Floor;
        if maxQty <= 0 {
          return Dropped;
        }
        qty := maxQty;
        totalCost := qty as real * px + comm;
      }
      assert BuyStep(before, k, fill) == CommitBuy(before, k, fill, qty);
      var newQty := pos.qty + qty;
      var avg := WeightedAvg(pos.avgCost, pos.qty, px, qty);
      positions := positions[k := Position(pos.symbol, newQty, avg)];
      cash := cash - totalCost;
      outcome := Applied(fill.(qty := qty));
      fills := fills + [outcome.recorded];
      ghost var want := CommitBuy(before, k, fill, qty);
      assert want.state.positions[k] == positions[k];
      assert want.state.positions == positions;
      assert want.state.cash == cash && want.state.fills == fills;
      assert want.state == State();
    }

    /** The SELL branch of `apply_fill` on the position at index `k`. */
    method Sell(k: nat, fill: Fill) returns (outcome: Outcome)
      requires k < |positions|
      modifies this
      ensures StepResult(State(), outcome) == SellStep(old(State()), k, fill)
    {
      ghost var before := State();
      var pos := positions[k];
      var sellQty := Min(fill.qty, pos.qty);
      if sellQty <= 0 {
        return Dropped;
      }
      var px := fill.price;
      var comm := fill.commission;
      var proceeds := sellQty as real * px - comm;
      realizedPnl := realizedPnl + ((px - pos.avgCost) * sellQty as real - comm);
      var newQty := pos.qty - sellQty;
      positions := positions[k := Position(pos.symbol, newQty, if newQty == 0 then 0.0 else pos.avgCost)];
      cash := cash + proceeds;
      outcome := Applied(RecordedSell(fill, sellQty));
      fills := fills + [outcome.recorded];
      ghost var want := SellStep(before, k, fill);
      assert want.state.positions[k] == positions[k];
      assert want.state.positions == positions;
      assert want.state.cash == cash && want.state.realizedPnl == realizedPnl && want.state.fills == fills;
      assert want.state == State();
    }

    /** `snapshot`: one pass over the positions accumulating the four totals. */
    method Snapshot(date: int, prices: map<string, real>) returns (snap: SnapshotRow)
      ensures snap == SnapshotOf(State(), date, prices)
      ensures snap.equity == cash + snap.marketValue
      ensures snap.netExposure == snap.marketValue
      ensures snap.grossExposure >= 0.0 && snap.grossExposure >= Abs(snap.netExposure)
    {
      var gross, net, mvTotal, unreal := 0.0, 0.0, 0.0, 0.0;
      var i := 0;
      while i < |positions|
        invariant 0 <= i <= |positions|
        invariant mvTotal == MarketValueSum(positions[..i], prices)
        invariant net == MarketValueSum(positions[..i], prices)
        invariant gross == GrossSum(positions[..i], prices)
        invariant unreal == UnrealizedSum(positions[..i], prices)
      {
        var pos := positions[i];
        var px := MarkPrice(prices, pos.symbol);
        var mv := pos.MarketValue(px);
        ghost var done := positions[..i + 1];
        assert done[..i] == positions[..i] && done[i] == pos;
        assert MarketValueSum(done, prices) == mvTotal + mv;
        assert GrossSum(done, prices) == gross + Abs(mv);
        assert UnrealizedSum(done, prices) == unreal + Unrealized(pos, px);
        mvTotal := mvTotal + mv;
        gross := gross + Abs(mv);
        net := net + mv;
        unreal := unreal + if pos.qty != 0 then (px - pos.avgCost) * pos.qty as real else 0.0;
        assert unreal == UnrealizedSum(done, prices);
        i := i + 1;
      }
      assert positions[..i] == positions;
      GrossBoundsNet(positions, prices);
      var equity := cash + mvTotal;
      snap := SnapshotRow(date, cash, mvTotal, equity, realizedPnl, unreal, gross, net);
    }
  }
}
