/**
 The paper-trading service: how a validated signal becomes fills or a rejection, how fills move the
 portfolio, and the books that must balance over every run.
 */
module PaperTrading {
  import opened Prelude
  import Idempotence

  datatype Side = BUY | SELL | HOLD

  /** `Market` also stands for every unknown order type, `Day` for every unknown time in force. */
  datatype Kind = Market | Limit | Stop | StopLimit

  datatype Tif = IOC | FOK | Day

  datatype Order = Order(
    strategy: string, token: int, side: Side, kind: Kind, tif: Tif,
    signalQuantity: int, quantity: int, price: real, limit: Option<real>, stop: Option<real>)

  datatype Settings = Settings(
    slippagePercent: real, commissionPercent: real, startingCash: real,
    minPrice: Option<real>, maxPrice: Option<real>, minQuantity: int, maxQuantity: Option<int>,
    allowed: set<int>, maxNotional: Option<real>)

  datatype Decision = Rejected | Pending | Filled(quantity: int, price: real)

  // Sizing an order.

  /** A limit is met when the market is at least as good for the taker; HOLD counts as a sale. */
  predicate Crossing(side: Side, market: real, limit: Option<real>) {
    limit.None? || if side == BUY then market <= limit.value else market >= limit.value
  }

  predicate Triggered(side: Side, market: real, stop: real) {
    if side == BUY then market >= stop else market <= stop
  }

  predicate WithinGuardrails(c: Settings, o: Order) {
    && (c.minPrice.Some? ==> o.price >= c.minPrice.value)
    && (c.maxPrice.Some? && c.maxPrice.value > 0.0 ==> o.price <= c.maxPrice.value)
    && (c.allowed != {} ==> o.token in c.allowed)
    && o.signalQuantity >= (if c.minQuantity > 1 then c.minQuantity else 1)
    && (c.maxQuantity.Some? ==> o.signalQuantity <= c.maxQuantity.value)
  }

  /** The quantity the order book side allows, before money and holdings are looked at. */
  function Routed(o: Order): Decision {
    if o.kind in {Stop, StopLimit} then
      if o.stop.None? then Rejected
      else if !Triggered(o.side, o.price, o.stop.value) then (if o.tif == Day then Pending else Rejected)
      else if o.kind == StopLimit && !Crossing(o.side, o.price, o.limit) then Rejected
      else Filled(o.quantity, o.price)
    else
      var limit := if o.kind == Limit && o.limit.None? then Some(o.price) else o.limit;
      var fillable := if o.kind == Limit && !Crossing(o.side, o.price, limit) then 0 else o.quantity;
      if o.tif == FOK && fillable < o.quantity then Rejected
      else if o.tif == IOC && fillable <= 0 then Rejected
      else Filled(if o.kind == Limit && fillable == 0 then 0 else o.quantity, o.price)
  }

  function FillPrice(c: Settings, o: Order): real {
    if o.price == 0.0 then 0.0
    else o.price * (if o.side == BUY then 1.0 + c.slippagePercent / 100.0 else 1.0 - c.slippagePercent / 100.0)
  }

  /** Price of one unit including commission. */
  function UnitCost(c: Settings, price: real): real {
    price * (1.0 + c.commissionPercent / 100.0)
  }

  /** Python's `int(a // b)` on decimals. */
  function Quotient(a: real, b: real): int
    requires b > 0.0
  {
    if a >= 0.0 then (a / b).Floor else -((-a / b).Floor)
  }

  /** A cap on the quantity: fill-or-kill and ordinary orders are refused beyond it, an immediate-or-
      cancel order is cut down to it if anything is left. */
  function Capped(n: int, cap: int, tif: Tif): Option<int> {
    if n <= cap then Some(n) else if tif == IOC && cap > 0 then Some(cap) else None
  }

  function Decide(c: Settings, o: Order, cash: real, held: int): Decision {
    if !WithinGuardrails(c, o) then Rejected
    else
      var routed := Routed(o);
      if !routed.Filled? then routed
      else
        var price := FillPrice(c, o);
        var unit := UnitCost(c, price);
        var afforded :=
          if o.side == BUY && unit > 0.0 then Capped(routed.quantity, Quotient(cash, unit), o.tif)
            else Some(routed.quantity);
        if afforded.None? then Rejected
        else
          var bounded :=
            if c.maxNotional.Some? && c.maxNotional.value > 0.0 && unit > 0.0 then
              var cap := Quotient(c.maxNotional.value, unit);
              if cap <= 0 then None else Capped(afforded.value, cap, o.tif)
            else afforded;
          if bounded.None? then Rejected
          else
            var covered := if o.side != BUY then Capped(bounded.value, held, o.tif) else bounded;
            if covered.None? then Rejected else Filled(covered.value, price)
  }

  /** A fill never exceeds the holding that is sold or the cash that pays for it, and it lies between
      nothing and the order exactly when the order is not for a negative quantity. */
  lemma FillIsCovered(c: Settings, o: Order, cash: real, held: int)
    requires Decide(c, o, cash, held).Filled?
    ensures var d := Decide(c, o, cash, held);
      && (0 <= d.quantity <= o.quantity <==> o.quantity >= 0)
      && (o.side != BUY ==> d.quantity <= held)
      && (o.side == BUY && cash >= 0.0 && (o.quantity >= 0 || UnitCost(c, d.price) > 0.0) ==>
            d.quantity as real * UnitCost(c, d.price) <= cash)
  {
    var d := Decide(c, o, cash, held);
    var unit := UnitCost(c, d.price);
    if o.side == BUY && cash >= 0.0 {
      if unit > 0.0 {
        QuotientFits(cash, unit, d.quantity);
      } else if o.quantity >= 0 {
        NonPositiveProduct(d.quantity as real, unit);
      }
    }
  }

  // What an order is filled with, read off the market data.

  /** Purchases pay up, everything else receives less. */
  function Sign(side: Side): real {
    if side == BUY then 1.0 else -1.0
  }

  /** The price of a fill: the slippage against the taker, and the commission on top, both in percent. */
  lemma FillTerms(c: Settings, o: Order, cash: real, held: int, key: Key, n: int)
    requires Decide(c, o, cash, held).Filled?
    ensures var price := Decide(c, o, cash, held).price;
      && (price - o.price) * 100.0 == o.price * c.slippagePercent * Sign(o.side)
      && (UnitCost(c, price) - price) * 100.0 == price * c.commissionPercent
      && FillOf(c, key, o.side, n, price).fees * 100.0 == price * n as real * c.commissionPercent
  {
    PercentOf(o.price, c.slippagePercent, 1.0);
    PercentOf(o.price, c.slippagePercent, -1.0);
    PercentOf(Decide(c, o, cash, held).price, c.commissionPercent, 1.0);
    PercentOf(Decide(c, o, cash, held).price * n as real, c.commissionPercent, 1.0);
  }

  lemma PercentOf(x: real, percent: real, sign: real)
    requires sign == 1.0 || sign == -1.0
    ensures x * (percent / 100.0) * 100.0 == x * percent
    ensures (x * (1.0 + sign * (percent / 100.0)) - x) * 100.0 == x * percent * sign
    ensures x * (1.0 + percent / 100.0) == x * (1.0 + 1.0 * (percent / 100.0))
    ensures x * (1.0 - percent / 100.0) == x * (1.0 + -1.0 * (percent / 100.0))
  {
    var rate := percent / 100.0;
    assert rate * 100.0 == percent;
    assert x * rate * 100.0 == x * (rate * 100.0);
    assert x * (1.0 + sign * rate) == x + x * rate * sign;
    assert x * rate * sign * 100.0 == x * percent * sign;
  }

  /** The market lets the order through: a limit is not worse than the market, a stop was reached. */
  predicate MarketAllows(o: Order) {
    && (o.kind in {Limit, StopLimit} && o.limit.Some? ==> Sign(o.side) * (o.limit.value - o.price) >= 0.0)
    && (o.kind in {Stop, StopLimit} ==> o.stop.Some? && Sign(o.side) * (o.price - o.stop.value) >= 0.0)
  }

  /** `n` units at a unit cost fit the cash, the cap on a position and the holding. */
  predicate Fits(c: Settings, o: Order, n: int, unit: real, cash: real, held: int) {
    && (o.side == BUY && unit > 0.0 ==> n as real * unit <= cash)
    && (c.maxNotional.Some? && c.maxNotional.value > 0.0 && unit > 0.0 ==>
          unit <= c.maxNotional.value && n as real * unit <= c.maxNotional.value)
    && (o.side != BUY ==> n <= held)
  }

  /** What the guardrails ask, setting by setting. */
  lemma GuardrailsAre(c: Settings, o: Order)
    ensures WithinGuardrails(c, o) <==>
      && !(c.minPrice.Some? && o.price < c.minPrice.value)
      && !(c.maxPrice.Some? && c.maxPrice.value > 0.0 && c.maxPrice.value < o.price)
      && (c.allowed == {} || o.token in c.allowed)
      && 1 <= o.signalQuantity && c.minQuantity <= o.signalQuantity
      && !(c.maxQuantity.Some? && c.maxQuantity.value < o.signalQuantity)
  {
  }

  lemma QuotientExact(a: real, b: real, n: int)
    requires a >= 0.0 && b > 0.0
    ensures n <= Quotient(a, b) <==> n as real * b <= a
  {
    assert a / b * b == a;
    CompareByProduct(a / b, n as real, b, a);
    assert n <= (a / b).Floor <==> n as real <= a / b;
  }

  lemma CompareByProduct(q: real, x: real, b: real, a: real)
    requires b > 0.0 && q * b == a
    ensures x <= q <==> x * b <= a
  {
    if x <= q {
      MulMonotone(x, q, b);
    } else {
      MulStrict(q, x, b);
    }
  }

  lemma MulStrict(x: real, y: real, b: real)
    requires x < y && b > 0.0
    ensures x * b < y * b
  {
    assert (y - x) * b > 0.0;
  }

  /** What the market makes of an order for a positive quantity. */
  lemma RoutedExactly(o: Order)
    requires o.quantity > 0
    ensures var r := Routed(o);
      && (r == Filled(o.quantity, o.price) <==> MarketAllows(o))
      && (r == Filled(0, o.price) <==> o.kind == Limit && !MarketAllows(o) && o.tif == Day)
      && (r.Filled? ==> r == Filled(o.quantity, o.price) || r == Filled(0, o.price))
      && (r.Pending? <==> o.kind in {Stop, StopLimit} && o.tif == Day
                          && o.stop.Some? && Sign(o.side) * (o.price - o.stop.value) < 0.0)
  {
  }

  /** The same in units. */
  predicate WithinCaps(c: Settings, o: Order, n: int, unit: real, cash: real, held: int) {
    && (o.side == BUY && unit > 0.0 ==> n <= Quotient(cash, unit))
    && (c.maxNotional.Some? && c.maxNotional.value > 0.0 && unit > 0.0 ==>
          1 <= Quotient(c.maxNotional.value, unit) && n <= Quotient(c.maxNotional.value, unit))
    && (o.side != BUY ==> n <= held)
  }

  lemma {:induction false} FitsIffWithin(c: Settings, o: Order, n: int, unit: real, cash: real, held: int)
    requires cash >= 0.0
    ensures Fits(c, o, n, unit, cash, held) <==> WithinCaps(c, o, n, unit, cash, held)
  {
    if unit > 0.0 {
      QuotientExact(cash, unit, n);
      if c.maxNotional.Some? && c.maxNotional.value > 0.0 {
        QuotientExact(c.maxNotional.value, unit, n);
        QuotientExact(c.maxNotional.value, unit, 1);
      }
    }
  }

  lemma {:induction false} UsualWithinCaps(c: Settings, o: Order, cash: real, held: int)
    requires o.tif != IOC && o.quantity > 0
    ensures var d, unit := Decide(c, o, cash, held), UnitCost(c, FillPrice(c, o));
      && (d == Filled(o.quantity, FillPrice(c, o)) <==>
            WithinGuardrails(c, o) && MarketAllows(o) && WithinCaps(c, o, o.quantity, unit, cash, held))
      && (d == Filled(0, FillPrice(c, o)) <==>
            WithinGuardrails(c, o) && !MarketAllows(o) && o.kind == Limit && o.tif == Day
            && WithinCaps(c, o, 0, unit, cash, held))
      && (d == Pending <==> WithinGuardrails(c, o) && Routed(o).Pending?)
      && (d.Filled? ==> d.price == FillPrice(c, o) && d.quantity in {0, o.quantity})
  {
    RoutedExactly(o);
  }

  /**
   Exactly when an order that is not immediate-or-cancel is filled, with what, and when it waits: within
   the guardrails, when the market allows it and its whole quantity fits. A limit order of the day that the
   market does not allow is filled as well, with nothing.
   */
  lemma {:induction false} FilledExactly(c: Settings, o: Order, cash: real, held: int)
    requires o.tif != IOC && cash >= 0.0 && held >= 0 && o.quantity > 0
    ensures var d, unit := Decide(c, o, cash, held), UnitCost(c, FillPrice(c, o));
      && (d == Filled(o.quantity, FillPrice(c, o)) <==>
            WithinGuardrails(c, o) && MarketAllows(o) && Fits(c, o, o.quantity, unit, cash, held))
      && (d == Filled(0, FillPrice(c, o)) <==>
            WithinGuardrails(c, o) && !MarketAllows(o) && o.kind == Limit && o.tif == Day
            && Fits(c, o, 0, unit, cash, held))
      && (d == Pending <==>
            WithinGuardrails(c, o) && o.kind in {Stop, StopLimit} && o.tif == Day
            && o.stop.Some? && Sign(o.side) * (o.price - o.stop.value) < 0.0)
      && (d.Filled? ==> d.price == FillPrice(c, o) && d.quantity in {0, o.quantity})
  {
    var unit := UnitCost(c, FillPrice(c, o));
    RoutedExactly(o);
    UsualWithinCaps(c, o, cash, held);
    FitsIffWithin(c, o, o.quantity, unit, cash, held);
    FitsIffWithin(c, o, 0, unit, cash, held);
  }

  lemma {:induction false} ImmediateWithinCaps(c: Settings, o: Order, cash: real, held: int)
    requires o.tif == IOC && o.quantity > 0
    ensures var d, unit := Decide(c, o, cash, held), UnitCost(c, FillPrice(c, o));
      && (d.Filled? <==> WithinGuardrails(c, o) && MarketAllows(o) && WithinCaps(c, o, 1, unit, cash, held))
      && (d.Filled? ==>
            && d.price == FillPrice(c, o) && 1 <= d.quantity <= o.quantity
            && WithinCaps(c, o, d.quantity, unit, cash, held)
            && (d.quantity == o.quantity || !WithinCaps(c, o, d.quantity + 1, unit, cash, held)))
  {
    RoutedExactly(o);
  }

  /** An immediate-or-cancel order is filled as soon as one unit fits, with as many as fit. */
  lemma {:induction false} ImmediateFillsMost(c: Settings, o: Order, cash: real, held: int)
    requires o.tif == IOC && cash >= 0.0 && o.quantity > 0
    ensures var d, unit := Decide(c, o, cash, held), UnitCost(c, FillPrice(c, o));
      && (d.Filled? <==> WithinGuardrails(c, o) && MarketAllows(o) && Fits(c, o, 1, unit, cash, held))
      && (d.Filled? ==>
            && d.price == FillPrice(c, o) && 1 <= d.quantity <= o.quantity && Fits(c, o, d.quantity, unit, cash, held)
            && (d.quantity == o.quantity || !Fits(c, o, d.quantity + 1, unit, cash, held)))
  {
    var d, unit := Decide(c, o, cash, held), UnitCost(c, FillPrice(c, o));
    ImmediateWithinCaps(c, o, cash, held);
    FitsIffWithin(c, o, 1, unit, cash, held);
    if d.Filled? {
      FitsIffWithin(c, o, d.quantity, unit, cash, held);
      FitsIffWithin(c, o, d.quantity + 1, unit, cash, held);
    }
  }

  lemma QuotientFits(a: real, b: real, n: int)
    requires a >= 0.0 && b > 0.0 && n <= Quotient(a, b)
    ensures n as real * b <= a
  {
    var q := a / b;
    assert q * b == a;
    assert n as real <= q;
    MulMonotone(n as real, q, b);
  }

  lemma MulMonotone(x: real, y: real, b: real)
    requires x <= y && b >= 0.0
    ensures x * b <= y * b
  {
    assert (y - x) * b >= 0.0;
  }

  lemma NonPositiveProduct(x: real, y: real)
    requires x >= 0.0 && y <= 0.0
    ensures x * y <= 0.0
  {
  }

  // The portfolio.

  type Key = (string, int)

  datatype Position = Position(quantity: int, average: real)

  datatype Fill = Fill(key: Key, side: Side, quantity: int, price: real, fees: real)

  /** A strategy's account opens with the starting cash when it is first used. */
  datatype Book = Book(
    startingCash: real, cash: map<string, real>, positions: map<Key, Position>, realized: map<Key, real>)

  function CashOf(b: Book, strategy: string): real {
    if strategy in b.cash then b.cash[strategy] else b.startingCash
  }

  function PositionOf(b: Book, key: Key): Position {
    if key in b.positions then b.positions[key] else Position(0, 0.0)
  }

  function RealizedOf(b: Book, key: Key): real {
    if key in b.realized then b.realized[key] else 0.0
  }

  function Notional(f: Fill): real {
    f.price * f.quantity as real
  }

  function Bought(p: Position, quantity: int, price: real): Position {
    var n := p.quantity + quantity;
    Position(n, if n > 0 then (p.average * p.quantity as real + price * quantity as real) / n as real else 0.0)
  }

  function Sold(p: Position, quantity: int): Position {
    if p.quantity - quantity <= 0 then Position(0, 0.0) else Position(p.quantity - quantity, p.average)
  }

  function Profit(p: Position, quantity: int, price: real): real {
    (price - p.average) * quantity as real
  }

  function Apply(b: Book, f: Fill): Book {
    var p, cash := PositionOf(b, f.key), CashOf(b, f.key.0);
    if f.side == BUY then
      b.(cash := b.cash[f.key.0 := cash - Notional(f) - f.fees],
         positions := b.positions[f.key := Bought(p, f.quantity, f.price)])
    else
      b.(cash := b.cash[f.key.0 := cash + Notional(f) - f.fees],
         positions := b.positions[f.key := Sold(p, f.quantity)],
         realized := b.realized[f.key := RealizedOf(b, f.key) + Profit(p, f.quantity, f.price)])
  }

  function ApplyAll(b: Book, fills: seq<Fill>): Book {
    if fills == [] then b else Apply(ApplyAll(b, fills[..|fills| - 1]), fills[|fills| - 1])
  }

  class Portfolio {
    const startingCash: real
    var cash: map<string, real>
    var positions: map<Key, Position>
    var realized: map<Key, real>

    ghost function Abs(): Book
      reads this
    {
      Book(startingCash, cash, positions, realized)
    }

    constructor (startingCash: real)
      ensures Abs() == Book(startingCash, map[], map[], map[])
    {
      this.startingCash := startingCash;
      cash, positions, realized := map[], map[], map[];
    }

    method ApplyFill(key: Key, side: Side, quantity: int, price: real, fees: real)
      modifies this
      ensures Abs() == Apply(old(Abs()), Fill(key, side, quantity, price, fees))
    {
      var pos := if key in positions then positions[key] else Position(0, 0.0);
      var balance := if key.0 in cash then cash[key.0] else startingCash;
      var amount := Notional(Fill(key, side, quantity, price, fees));
      if side == BUY {
        positions := positions[key := Bought(pos, quantity, price)];
        cash := cash[key.0 := balance - amount - fees];
      } else {
        var profit := if key in realized then realized[key] else 0.0;
        realized := realized[key := profit + Profit(pos, quantity, price)];
        cash := cash[key.0 := balance + amount - fees];
        positions := positions[key := Sold(pos, quantity)];
      }
    }

    /** The loop that publishes and books a fill part by part; `sent` sends succeed before one raises. */
    method FillOrder(c: Settings, key: Key, side: Side, parts: seq<int>, price: real, sent: nat)
      modifies this
      ensures Abs() == ApplyAll(old(Abs()),
                PartFills(c, key, side, if sent < |parts| then parts[..sent] else parts, price))
    {
      ghost var opening := Abs();
      var i := 0;
      while i < |parts| && i < sent
        invariant 0 <= i <= |parts| && i <= sent
        invariant Abs() == ApplyAll(opening, PartFills(c, key, side, parts[..i], price))
      {
        var f := FillOf(c, key, side, parts[i], price);
        PartAppended(c, opening, key, side, parts, i, price);
        ApplyFill(f.key, f.side, f.quantity, f.price, f.fees);
        i := i + 1;
      }
      assert parts[..i] == if sent < |parts| then parts[..sent] else parts;
    }
  }

  // The reference: money flows summed over the fills alone.

  /** Money a fill costs (negative) or brings in, fees aside. */
  function Proceeds(f: Fill): real {
    if f.side == BUY then -Notional(f) else Notional(f)
  }

  /** The same for all fills of one position. */
  ghost function Flow(fills: seq<Fill>, key: Key): real {
    if fills == [] then 0.0
    else
      var f := fills[|fills| - 1];
      Flow(fills[..|fills| - 1], key) + if f.key == key then Proceeds(f) else 0.0
  }

  /** All money in and out of a strategy's account, fees included. */
  ghost function CashFlow(fills: seq<Fill>, strategy: string): real {
    if fills == [] then 0.0
    else
      var f := fills[|fills| - 1];
      CashFlow(fills[..|fills| - 1], strategy) + if f.key.0 == strategy then Proceeds(f) - f.fees else 0.0
  }

  /** Book value a fill drops without its being paid: units sold beyond the holding, and what a purchase
      leaves of a position that it does not bring above zero. */
  function Forgotten(p: Position, f: Fill): real {
    if f.side == BUY then (if p.quantity + f.quantity <= 0 then -(BookValue(p) + Notional(f)) else 0.0)
    else if p.quantity <= f.quantity then p.average * (f.quantity - p.quantity) as real
    else 0.0
  }

  ghost function ForgottenBy(b: Book, fills: seq<Fill>, key: Key): real {
    if fills == [] then 0.0
    else
      var f, before := fills[|fills| - 1], fills[..|fills| - 1];
      ForgottenBy(b, before, key) + if f.key == key then Forgotten(PositionOf(ApplyAll(b, before), key), f) else 0.0
  }

  /** What a position has cost: its quantity at its average price. */
  function BookValue(p: Position): real {
    p.average * p.quantity as real
  }

  lemma BoughtValue(p: Position, n: int, price: real)
    requires p.quantity >= 0 && n >= 0
    ensures Bought(p, n, price).quantity >= 0
    ensures BookValue(Bought(p, n, price)) == BookValue(p) + price * n as real
  {
    if p.quantity + n > 0 {
      var total := BookValue(p) + price * n as real;
      assert total / (p.quantity + n) as real * (p.quantity + n) as real == total;
    } else {
      assert p.quantity == 0 && n == 0;
    }
  }

  /** Selling moves value from the book to realized profit: what is left, what was realized and what
      was paid add up, short only by units that were not held. */
  lemma SoldValue(p: Position, f: Fill)
    requires f.side != BUY
    ensures Profit(p, f.quantity, f.price) - BookValue(Sold(p, f.quantity)) ==
            Notional(f) - BookValue(p) - Forgotten(p, f)
  {
    var a, q, m := p.average, p.quantity as real, f.quantity as real;
    assert (f.price - a) * m == f.price * m - a * m;
    assert a * (q - m) == a * q - a * m;
    assert (p.quantity - f.quantity) as real == q - m && (f.quantity - p.quantity) as real == m - q;
    assert a * (m - q) == a * m - a * q;
  }

  /** Realized profit minus what the position still costs. */
  ghost function Equity(b: Book, key: Key): real {
    RealizedOf(b, key) - BookValue(PositionOf(b, key))
  }

  /** What a fill does to the position it is for, and that it touches no other. */
  lemma ApplyTouches(b: Book, f: Fill, key: Key)
    ensures var r, p := Apply(b, f), PositionOf(b, key);
      if f.key != key then PositionOf(r, key) == p && RealizedOf(r, key) == RealizedOf(b, key)
      else if f.side == BUY then
        PositionOf(r, key) == Bought(p, f.quantity, f.price) && RealizedOf(r, key) == RealizedOf(b, key)
      else
        && PositionOf(r, key) == Sold(p, f.quantity)
        && RealizedOf(r, key) == RealizedOf(b, key) + Profit(p, f.quantity, f.price)
  {
  }

  /** The change a fill makes to realized profit minus book value. */
  ghost function Gain(p: Position, f: Fill): real {
    if f.side == BUY then BookValue(p) - BookValue(Bought(p, f.quantity, f.price))
    else Profit(p, f.quantity, f.price) + BookValue(p) - BookValue(Sold(p, f.quantity))
  }

  lemma GainIsProceeds(p: Position, f: Fill)
    ensures Gain(p, f) == Proceeds(f) - Forgotten(p, f)
  {
    if f.side != BUY {
      SoldValue(p, f);
    } else if p.quantity + f.quantity > 0 {
      var total, n := BookValue(p) + Notional(f), (p.quantity + f.quantity) as real;
      assert total / n * n == total;
    }
  }

  lemma EquityGains(b: Book, f: Fill, key: Key)
    ensures Equity(Apply(b, f), key) == Equity(b, key) + if f.key == key then Gain(PositionOf(b, key), f) else 0.0
  {
    ApplyTouches(b, f, key);
  }

  lemma ApplyEquity(b: Book, f: Fill, key: Key)
    ensures Equity(Apply(b, f), key) ==
            Equity(b, key) + if f.key == key then Proceeds(f) - Forgotten(PositionOf(b, key), f) else 0.0
  {
    EquityGains(b, f, key);
    GainIsProceeds(PositionOf(b, key), f);
  }

  /** Over any fills at all, from any books, realized profit minus book value grows by the money that
      flowed, except for the book value that was forgotten. */
  lemma {:induction false} BooksBalance(b0: Book, fills: seq<Fill>, key: Key)
    ensures Equity(ApplyAll(b0, fills), key) == Equity(b0, key) + Flow(fills, key) - ForgottenBy(b0, fills, key)
  {
    if fills != [] {
      BooksBalance(b0, fills[..|fills| - 1], key);
      ApplyEquity(ApplyAll(b0, fills[..|fills| - 1]), fills[|fills| - 1], key);
    }
  }

  lemma {:induction false} CashBalances(b0: Book, fills: seq<Fill>, strategy: string)
    ensures CashOf(ApplyAll(b0, fills), strategy) == CashOf(b0, strategy) + CashFlow(fills, strategy)
  {
    if fills != [] {
      CashBalances(b0, fills[..|fills| - 1], strategy);
    }
  }

  // Partial fills.

  /** The fill of `n` units of an order at a price, with commission. */
  function FillOf(c: Settings, key: Key, side: Side, n: int, price: real): Fill {
    Fill(key, side, n, price, price * n as real * (c.commissionPercent / 100.0))
  }

  lemma Distribute(x: real, m: int, n: int)
    ensures x * m as real + x * n as real == x * (m + n) as real
  {
  }

  lemma DistributeRate(x: real, m: int, n: int, rate: real)
    ensures x * m as real * rate + x * n as real * rate == x * (m + n) as real * rate
  {
    Distribute(x, m, n);
    assert (x * m as real + x * n as real) * rate == x * m as real * rate + x * n as real * rate;
  }

  lemma BoughtTwice(p: Position, m: int, n: int, price: real)
    requires p.quantity >= 0 && m >= 0 && n >= 0
    ensures Bought(Bought(p, m, price), n, price) == Bought(p, m + n, price)
  {
    BoughtValue(p, m, price);
    Distribute(price, m, n);
  }

  lemma SoldTwice(p: Position, m: int, n: int)
    requires m >= 0 && n >= 0 && m + n <= p.quantity
    ensures Sold(Sold(p, m), n) == Sold(p, m + n)
  {
  }

  lemma CashTwice(c: Settings, b: Book, key: Key, side: Side, m: int, n: int, price: real)
    ensures Apply(Apply(b, FillOf(c, key, side, m, price)), FillOf(c, key, side, n, price)).cash ==
            Apply(b, FillOf(c, key, side, m + n, price)).cash
  {
    var f, g, h := FillOf(c, key, side, m, price), FillOf(c, key, side, n, price), FillOf(c, key, side, m + n, price);
    assert Notional(f) + Notional(g) == Notional(h) by { Distribute(price, m, n); }
    assert f.fees + g.fees == h.fees by { DistributeRate(price, m, n, c.commissionPercent / 100.0); }
    var mid := Apply(b, f);
    assert CashOf(mid, key.0) == CashOf(b, key.0) + Proceeds(f) - f.fees;
    assert Apply(mid, g).cash[key.0] == Apply(b, h).cash[key.0];
    assert Apply(mid, g).cash == Apply(b, h).cash;
  }

  /** Two fills of one order move the books like a single fill of both quantities. */
  lemma TwoFillsAsOne(c: Settings, b: Book, key: Key, side: Side, m: int, n: int, price: real)
    requires m >= 0 && n >= 0 && PositionOf(b, key).quantity >= 0
    requires side != BUY ==> m + n <= PositionOf(b, key).quantity
    ensures Apply(Apply(b, FillOf(c, key, side, m, price)), FillOf(c, key, side, n, price)) ==
            Apply(b, FillOf(c, key, side, m + n, price))
  {
    var p, mid := PositionOf(b, key), Apply(b, FillOf(c, key, side, m, price));
    var two, one := Apply(mid, FillOf(c, key, side, n, price)), Apply(b, FillOf(c, key, side, m + n, price));
    CashTwice(c, b, key, side, m, n, price);
    if side == BUY {
      BoughtTwice(p, m, n, price);
      assert PositionOf(mid, key) == Bought(p, m, price);
      assert two.positions == one.positions;
    } else {
      SoldTwice(p, m, n);
      assert PositionOf(mid, key) == Sold(p, m);
      assert two.positions == one.positions;
      RealizedTwice(c, b, key, side, m, n, price);
    }
  }

  lemma RealizedTwice(c: Settings, b: Book, key: Key, side: Side, m: int, n: int, price: real)
    requires side != BUY && m >= 0 && n >= 0 && m + n <= PositionOf(b, key).quantity
    ensures Apply(Apply(b, FillOf(c, key, side, m, price)), FillOf(c, key, side, n, price)).realized ==
            Apply(b, FillOf(c, key, side, m + n, price)).realized
  {
    var p, mid := PositionOf(b, key), Apply(b, FillOf(c, key, side, m, price));
    Distribute(price - p.average, m, n);
    if n == 0 {
      assert (price - PositionOf(mid, key).average) * n as real == 0.0;
    } else {
      assert PositionOf(mid, key).average == p.average;
    }
    assert RealizedOf(mid, key) == RealizedOf(b, key) + (price - p.average) * m as real;
    var two, one := Apply(mid, FillOf(c, key, side, n, price)), Apply(b, FillOf(c, key, side, m + n, price));
    assert two.realized[key] == one.realized[key];
    assert two.realized == one.realized;
  }

  function Total(parts: seq<int>): int {
    if parts == [] then 0 else Total(parts[..|parts| - 1]) + parts[|parts| - 1]
  }

  function PartFills(c: Settings, key: Key, side: Side, parts: seq<int>, price: real): seq<Fill> {
    if parts == [] then []
    else PartFills(c, key, side, parts[..|parts| - 1], price) + [FillOf(c, key, side, parts[|parts| - 1], price)]
  }

  /** However an order is split into partial fills, the books end up the same. */
  lemma {:induction false} SplitInvisible(c: Settings, b: Book, key: Key, side: Side, parts: seq<int>, price: real)
    requires parts != [] && PositionOf(b, key).quantity >= 0 && forall i :: 0 <= i < |parts| ==> parts[i] >= 0
    requires side != BUY ==> Total(parts) <= PositionOf(b, key).quantity
    ensures Total(parts) >= 0
    ensures ApplyAll(b, PartFills(c, key, side, parts, price)) == Apply(b, FillOf(c, key, side, Total(parts), price))
  {
    var n := |parts| - 1;
    var before, last := PartFills(c, key, side, parts[..n], price), FillOf(c, key, side, parts[n], price);
    TotalNonNegative(parts);
    ApplyAllAppend(b, before, last);
    if n == 0 {
      assert parts[..0] == [];
      assert ApplyAll(b, before) == b;
      assert Total(parts) == parts[0];
    } else {
      TotalNonNegative(parts[..n]);
      SplitInvisible(c, b, key, side, parts[..n], price);
      TwoFillsAsOne(c, b, key, side, Total(parts[..n]), parts[n], price);
    }
  }

  lemma ApplyAllAppend(b: Book, fills: seq<Fill>, f: Fill)
    ensures ApplyAll(b, fills + [f]) == Apply(ApplyAll(b, fills), f)
  {
    assert (fills + [f])[..|fills|] == fills;
  }

  lemma {:induction false} PartAppended(c: Settings, b: Book, key: Key, side: Side, parts: seq<int>, i: nat,
                                        price: real)
    requires i < |parts|
    ensures ApplyAll(b, PartFills(c, key, side, parts[..i + 1], price)) ==
            Apply(ApplyAll(b, PartFills(c, key, side, parts[..i], price)), FillOf(c, key, side, parts[i], price))
  {
    assert parts[..i + 1][..i] == parts[..i];
    ApplyAllAppend(b, PartFills(c, key, side, parts[..i], price), FillOf(c, key, side, parts[i], price));
  }

  lemma {:induction false} TotalNonNegative(parts: seq<int>)
    requires forall i :: 0 <= i < |parts| ==> parts[i] >= 0
    ensures Total(parts) >= 0
  {
    if parts != [] {
      TotalNonNegative(parts[..|parts| - 1]);
    }
  }

  /** A way to cut a fill into several of at least one unit each. */
  predicate IsSplit(parts: seq<int>, quantity: int) {
    |parts| >= 2 && Total(parts) == quantity && forall i :: 0 <= i < |parts| ==> parts[i] >= 1
  }

  /** The random split of a fill; `draws` are the generator's outputs. */
  method SplitFill(quantity: int, count: nat, draws: seq<nat>) returns (parts: seq<int>)
    requires 2 <= count <= quantity && |draws| == count - 1
    ensures |parts| == count && IsSplit(parts, quantity)
  {
    parts := [];
    var remaining := quantity;
    for i := 0 to count - 1
      invariant |parts| == i && Total(parts) + remaining == quantity && remaining >= count - i
      invariant forall j :: 0 <= j < i ==> parts[j] >= 1
    {
      var most := remaining - (count - i - 1);
      var take := 1 + draws[i] % (if most > 1 then most else 1);
      assert (parts + [take])[..i] == parts;
      parts := parts + [take];
      remaining := remaining - take;
    }
    assert (parts + [remaining])[..count - 1] == parts;
    parts := parts + [remaining];
  }

  // Runs of the service.

  /** The parts a fill is made in: a cut that splits it, or else the whole. */
  function Parts(cut: seq<int>, quantity: int): seq<int> {
    if IsSplit(cut, quantity) then cut else [quantity]
  }

  function KeyOf(o: Order): Key {
    (o.strategy, o.token)
  }

  /** A validated signal on its way through the service: its idempotence key, its order, the cut drawn for
      its fill, and how many parts are published before a send fails, if one does. A part is booked
      after it is published. */
  datatype Turn = Turn(key: string, order: Order, cut: seq<int>, sent: nat)

  function SentParts(t: Turn, quantity: int): seq<int> {
    var parts := Parts(t.cut, quantity);
    if t.sent < |parts| then parts[..t.sent] else parts
  }

  function DecideOn(c: Settings, b: Book, o: Order): Decision {
    Decide(c, o, CashOf(b, o.strategy), PositionOf(b, KeyOf(o)).quantity)
  }

  /** The fills that are booked, given the books. */
  function FillsFor(c: Settings, b: Book, t: Turn): seq<Fill> {
    var d := DecideOn(c, b, t.order);
    if d.Filled? then PartFills(c, KeyOf(t.order), t.order.side, SentParts(t, d.quantity), d.price) else []
  }

  function After(c: Settings, b: Book, t: Turn): Book {
    ApplyAll(b, FillsFor(c, b, t))
  }

  /** The same as a single fill of all that was sent. */
  function MergedFor(c: Settings, b: Book, t: Turn): seq<Fill> {
    var d := DecideOn(c, b, t.order);
    if d.Filled? && SentParts(t, d.quantity) != []
    then [FillOf(c, KeyOf(t.order), t.order.side, Total(SentParts(t, d.quantity)), d.price)]
    else []
  }

  /** No account is overdrawn and no position is short. */
  ghost predicate NonNegative(b: Book) {
    (forall s :: CashOf(b, s) >= 0.0) && (forall k :: PositionOf(b, k).quantity >= 0)
  }

  /** What a seller is left with of the proceeds of `n` units. */
  function NetProceeds(c: Settings, price: real, n: int): real {
    price * n as real * (1.0 - c.commissionPercent / 100.0)
  }

  /** The cap on a position's value lets a quantity through, cut down or not. */
  predicate CapAdmits(c: Settings, o: Order, n: int) {
    var unit := UnitCost(c, FillPrice(c, o));
    c.maxNotional.Some? && c.maxNotional.value > 0.0 && unit > 0.0 ==>
      var cap := Quotient(c.maxNotional.value, unit);
      cap > 0 && (n <= cap || o.tif == IOC)
  }

  /** What a seller keeps of the price of one unit. */
  function Kept(c: Settings, o: Order): real {
    FillPrice(c, o) * (1.0 - c.commissionPercent / 100.0)
  }

  /** The order passes every guard that does not look at the books. */
  predicate Passes(c: Settings, o: Order) {
    WithinGuardrails(c, o) && Routed(o).Filled? && CapAdmits(c, o, Routed(o).quantity)
  }

  /** It does, and it is a purchase of a negative quantity, or a sale whose quantity and price have
      opposite signs. */
  predicate Harmful(c: Settings, o: Order) {
    && Passes(c, o)
    && var n := Routed(o).quantity;
    if o.side == BUY then n < 0 else (n < 0 && Kept(c, o) > 0.0) || (n > 0 && Kept(c, o) < 0.0)
  }

  lemma SignOfProduct(x: real, rate: real, n: int)
    ensures x * n as real * rate < 0.0 <==> (n < 0 && x * rate > 0.0) || (n > 0 && x * rate < 0.0)
  {
    var y := x * rate;
    assert x * n as real * rate == y * n as real;
  }

  /** The decision on an account with nothing in it and a holding that suffices. */
  function Judged(c: Settings, o: Order): Decision {
    Decide(c, o, 0.0, if o.quantity > 0 then o.quantity else 0)
  }

  /** What that decision is, by the guards alone. */
  lemma {:induction false} PurchaseGuards(c: Settings, o: Order)
    requires o.side == BUY
    ensures Judged(c, o).Filled? && Judged(c, o).quantity < 0 <==> Passes(c, o) && Routed(o).quantity < 0
  {
    var unit := UnitCost(c, FillPrice(c, o));
    if unit > 0.0 {
      assert 0.0 / unit == 0.0;
    }
  }

  lemma {:induction false} SaleGuards(c: Settings, o: Order)
    requires o.side != BUY
    ensures Judged(c, o).Filled? <==> Passes(c, o)
    ensures Judged(c, o).Filled? ==>
      && Judged(c, o).price == FillPrice(c, o)
      && (Judged(c, o).quantity > 0 <==> Routed(o).quantity > 0) &&
         (Judged(c, o).quantity < 0 <==> Routed(o).quantity < 0)
  {
  }

  /** Harm shows on the judged account. */
  ghost predicate DoesHarm(c: Settings, o: Order, d: Decision) {
    d.Filled? && if o.side == BUY then d.quantity < 0 else NetProceeds(c, d.price, d.quantity) < 0.0
  }

  lemma {:induction false} HarmfulJudged(c: Settings, o: Order)
    ensures Harmful(c, o) <==> DoesHarm(c, o, Judged(c, o))
  {
    if o.side == BUY {
      PurchaseGuards(c, o);
    } else {
      SaleGuards(c, o);
      SaleHarms(c, o, Judged(c, o));
    }
  }

  lemma {:induction false} SaleHarms(c: Settings, o: Order, d: Decision)
    requires o.side != BUY && (d.Filled? ==> d.price == FillPrice(c, o))
    ensures DoesHarm(c, o, d) <==>
            d.Filled? && ((d.quantity < 0 && Kept(c, o) > 0.0) || (d.quantity > 0 && Kept(c, o) < 0.0))
  {
    if d.Filled? {
      SignOfProduct(d.price, 1.0 - c.commissionPercent / 100.0, d.quantity);
    }
  }

  /** A filled purchase of a negative quantity does not depend on the books. */
  lemma PurchaseJudged(c: Settings, o: Order, cash: real, held: int)
    requires o.side == BUY && cash >= 0.0 && !Harmful(c, o) && Decide(c, o, cash, held).Filled?
    ensures var d := Decide(c, o, cash, held);
      d.quantity >= 0 && d.quantity as real * UnitCost(c, d.price) <= cash
  {
    var unit := UnitCost(c, FillPrice(c, o));
    HarmfulJudged(c, o);
    if unit > 0.0 {
      assert 0.0 / unit == 0.0;
    }
    FillIsCovered(c, o, cash, held);
  }

  /** A sale is of the judged quantity, or of a smaller positive one. */
  lemma SaleShape(c: Settings, o: Order, cash: real, held: int)
    requires o.side != BUY && Decide(c, o, cash, held).Filled?
    ensures var d, judged := Decide(c, o, cash, held), Judged(c, o);
      && d.quantity <= held && judged.Filled? && judged.price == d.price
      && (d.quantity == judged.quantity || 0 < d.quantity < judged.quantity)
  {
  }

  lemma SaleJudged(c: Settings, o: Order, cash: real, held: int)
    requires o.side != BUY && !Harmful(c, o) && Decide(c, o, cash, held).Filled?
    ensures var d := Decide(c, o, cash, held);
      d.quantity <= held && NetProceeds(c, d.price, d.quantity) >= 0.0
  {
    var d, judged := Decide(c, o, cash, held), Judged(c, o);
    HarmfulJudged(c, o);
    SaleShape(c, o, cash, held);
    assert NetProceeds(c, judged.price, judged.quantity) >= 0.0;
    SmallerSale(d.price, 1.0 - c.commissionPercent / 100.0, d.quantity, judged.quantity);
  }

  lemma SmallerSale(price: real, rate: real, m: int, n: int)
    requires price * n as real * rate >= 0.0 && (m == n || 0 < m < n)
    ensures price * m as real * rate >= 0.0
  {
    var x := price * rate;
    assert price * m as real * rate == x * m as real && price * n as real * rate == x * n as real;
    if m != n && x < 0.0 {
      assert x * n as real < 0.0;
    }
  }

  lemma FillNets(c: Settings, key: Key, side: Side, n: int, price: real)
    ensures var f := FillOf(c, key, side, n, price);
      && Notional(f) + f.fees == n as real * UnitCost(c, price)
      && Notional(f) - f.fees == NetProceeds(c, price, n)
  {
    var rate, q := c.commissionPercent / 100.0, n as real;
    assert q * (price * (1.0 + rate)) == price * q + price * q * rate;
    assert price * q * (1.0 - rate) == price * q - price * q * rate;
  }

  /** A fill of the decided quantity or of a smaller positive part of it. */
  predicate IsPartOf(m: int, n: int) {
    m == n || 0 < m < n
  }

  lemma SmallerPurchase(unit: real, m: int, n: int, cash: real)
    requires cash >= 0.0 && n as real * unit <= cash && n >= 0 && IsPartOf(m, n)
    ensures m as real * unit <= cash
  {
    if m != n {
      if unit >= 0.0 {
        MulMonotone(m as real, n as real, unit);
      } else {
        NonPositiveProduct(m as real, unit);
      }
    }
  }

  predicate Covered(c: Settings, side: Side, m: int, price: real, cash: real, held: int) {
    if side == BUY then m >= 0 && m as real * UnitCost(c, price) <= cash
    else m <= held && NetProceeds(c, price, m) >= 0.0
  }

  /** A part of what is decided is paid for or delivered. */
  lemma {:induction false} PartCovered(c: Settings, o: Order, cash: real, held: int, m: int)
    requires cash >= 0.0 && !Harmful(c, o) && Decide(c, o, cash, held).Filled?
    requires IsPartOf(m, Decide(c, o, cash, held).quantity)
    ensures Covered(c, o.side, m, Decide(c, o, cash, held).price, cash, held)
  {
    var d := Decide(c, o, cash, held);
    assert Covered(c, o.side, d.quantity, d.price, cash, held) by {
      if o.side == BUY {
        PurchaseJudged(c, o, cash, held);
      } else {
        SaleJudged(c, o, cash, held);
      }
    }
    SmallerCovered(c, o.side, m, d.quantity, d.price, cash, held);
  }

  lemma SmallerCovered(c: Settings, side: Side, m: int, n: int, price: real, cash: real, held: int)
    requires cash >= 0.0 && Covered(c, side, n, price, cash, held) && IsPartOf(m, n)
    ensures Covered(c, side, m, price, cash, held)
  {
    if side == BUY {
      SmallerPurchase(UnitCost(c, price), m, n, cash);
    } else {
      SmallerSale(price, 1.0 - c.commissionPercent / 100.0, m, n);
    }
  }

  /** The fill of a covered quantity keeps the books non-negative and forgets nothing. */
  lemma {:induction false} CoveredFillKeeps(c: Settings, b: Book, key: Key, side: Side, m: int, price: real)
    requires NonNegative(b) && Covered(c, side, m, price, CashOf(b, key.0), PositionOf(b, key).quantity)
    ensures var f := FillOf(c, key, side, m, price);
      NonNegative(Apply(b, f)) && Forgotten(PositionOf(b, key), f) == 0.0
  {
    FillNets(c, key, side, m, price);
    FillKeeps(b, FillOf(c, key, side, m, price));
  }

  lemma FillKeeps(b: Book, f: Fill)
    requires NonNegative(b)
    requires if f.side == BUY then f.quantity >= 0 && Notional(f) + f.fees <= CashOf(b, f.key.0)
             else f.quantity <= PositionOf(b, f.key).quantity && Notional(f) - f.fees >= 0.0
    ensures NonNegative(Apply(b, f)) && Forgotten(PositionOf(b, f.key), f) == 0.0
  {
    forall k ensures PositionOf(Apply(b, f), k).quantity >= 0 {
      ApplyTouches(b, f, k);
      assert PositionOf(b, k).quantity >= 0;
    }
    forall s ensures CashOf(Apply(b, f), s) >= 0.0 {
      assert CashOf(b, s) >= 0.0;
    }
    assert PositionOf(b, f.key).quantity >= 0;
  }

  lemma {:induction false} ApplyAllConcat(b: Book, x: seq<Fill>, y: seq<Fill>)
    ensures ApplyAll(b, x + y) == ApplyAll(ApplyAll(b, x), y)
  {
    if y == [] {
      assert x + y == x;
    } else {
      var before, last := y[..|y| - 1], y[|y| - 1];
      assert ApplyAll(b, x + y) == Apply(ApplyAll(b, x + before), last) by {
        assert x + y == x + before + [last];
        ApplyAllAppend(b, x + before, last);
      }
      ApplyAllConcat(b, x, before);
    }
  }

  lemma {:induction false} FlowConcat(x: seq<Fill>, y: seq<Fill>, key: Key)
    ensures Flow(x + y, key) == Flow(x, key) + Flow(y, key)
  {
    if y == [] {
      assert x + y == x;
    } else {
      var n := |y| - 1;
      FlowConcat(x, y[..n], key);
      assert (x + y)[..|x + y| - 1] == x + y[..n];
    }
  }

  lemma ProceedsAdd(c: Settings, key: Key, side: Side, m: int, n: int, price: real)
    ensures Proceeds(FillOf(c, key, side, m, price)) + Proceeds(FillOf(c, key, side, n, price)) ==
            Proceeds(FillOf(c, key, side, m + n, price))
    ensures Proceeds(FillOf(c, key, side, 0, price)) == 0.0
  {
    Distribute(price, m, n);
  }

  lemma FlowAppend(fills: seq<Fill>, f: Fill, key: Key)
    ensures Flow(fills + [f], key) == Flow(fills, key) + if f.key == key then Proceeds(f) else 0.0
  {
    assert (fills + [f])[..|fills|] == fills;
  }

  /** The parts of a fill bring in what the whole brings in. */
  lemma {:induction false} FlowOfParts(c: Settings, own: Key, side: Side, parts: seq<int>, price: real, key: Key)
    ensures Flow(PartFills(c, own, side, parts, price), key) ==
            if own == key then Proceeds(FillOf(c, own, side, Total(parts), price)) else 0.0
  {
    if parts == [] {
      ProceedsAdd(c, own, side, 0, 0, price);
    } else {
      var before, last := parts[..|parts| - 1], parts[|parts| - 1];
      FlowOfParts(c, own, side, before, price, key);
      FlowAppend(PartFills(c, own, side, before, price), FillOf(c, own, side, last, price), key);
      ProceedsAdd(c, own, side, Total(before), last, price);
    }
  }

  lemma {:induction false} PrefixTotal(parts: seq<int>, k: nat)
    requires k <= |parts| && forall i :: 0 <= i < |parts| ==> parts[i] >= 1
    ensures k <= Total(parts[..k]) <= Total(parts) && (k < |parts| ==> Total(parts[..k]) < Total(parts))
  {
    if k == |parts| {
      assert parts[..k] == parts;
      if k > 0 {
        PrefixTotal(parts[..k - 1], k - 1);
        assert parts[..k - 1][..k - 1] == parts[..k - 1];
      }
    } else {
      var before := parts[..|parts| - 1];
      PrefixTotal(before, k);
      assert before[..k] == parts[..k];
    }
  }

  lemma TotalOfOne(n: int)
    ensures Total([n]) == n
  {
    assert [n][..0] == [];
  }

  /** What is sent of a fill is a part of it; it is all of it exactly when all parts are sent. */
  lemma {:induction false} SentTotal(t: Turn, n: int)
    ensures var parts := SentParts(t, n);
      && (parts != [] ==> IsPartOf(Total(parts), n))
      && (parts == [] || Total(parts) != n <==> t.sent < |Parts(t.cut, n)|)
  {
    TotalOfOne(n);
    if IsSplit(t.cut, n) && t.sent < |t.cut| {
      PrefixTotal(t.cut, t.sent);
    }
  }

  lemma OnePart(c: Settings, b: Book, key: Key, side: Side, n: int, price: real)
    ensures ApplyAll(b, PartFills(c, key, side, [n], price)) == Apply(b, FillOf(c, key, side, n, price))
  {
    assert [n][..0] == [];
    ApplyAllAppend(b, [], FillOf(c, key, side, n, price));
    assert PartFills(c, key, side, [n], price) == [] + [FillOf(c, key, side, n, price)];
  }

  /** The parts that were sent move the books like one fill of their total. */
  lemma {:induction false} PartsAsOne(c: Settings, b: Book, key: Key, side: Side, t: Turn, n: int, price: real)
    requires NonNegative(b) && (side != BUY ==> n <= PositionOf(b, key).quantity) && SentParts(t, n) != []
    ensures ApplyAll(b, PartFills(c, key, side, SentParts(t, n), price)) ==
            Apply(b, FillOf(c, key, side, Total(SentParts(t, n)), price))
  {
    SentTotal(t, n);
    if IsSplit(t.cut, n) {
      SplitInvisible(c, b, key, side, SentParts(t, n), price);
    } else {
      TotalOfOne(n);
      OnePart(c, b, key, side, n, price);
    }
  }

  lemma {:induction false} SentAsOne(c: Settings, b: Book, t: Turn)
    requires NonNegative(b) && DecideOn(c, b, t.order).Filled?
    requires SentParts(t, DecideOn(c, b, t.order).quantity) != []
    ensures var d := DecideOn(c, b, t.order);
      After(c, b, t) == Apply(b, FillOf(c, KeyOf(t.order), t.order.side, Total(SentParts(t, d.quantity)), d.price))
  {
    var o, d := t.order, DecideOn(c, b, t.order);
    SaleHeld(c, b, o);
    PartsAsOne(c, b, KeyOf(o), o.side, t, d.quantity, d.price);
  }

  /** The sent parts of a covered fill, seen from one position. */
  lemma {:induction false} SentKeeps(c: Settings, b: Book, own: Key, side: Side, t: Turn, n: int, price: real, key: Key)
    requires NonNegative(b) && (side != BUY ==> n <= PositionOf(b, own).quantity) && SentParts(t, n) != []
    requires Covered(c, side, Total(SentParts(t, n)), price, CashOf(b, own.0), PositionOf(b, own).quantity)
    ensures var fills := PartFills(c, own, side, SentParts(t, n), price);
      var r := ApplyAll(b, fills);
      && r == ApplyAll(b, [FillOf(c, own, side, Total(SentParts(t, n)), price)]) && NonNegative(r)
      && Equity(r, key) == Equity(b, key) + Flow(fills, key)
  {
    var parts := SentParts(t, n);
    var f := FillOf(c, own, side, Total(parts), price);
    CoveredFillKeeps(c, b, own, side, Total(parts), price);
    assert Equity(Apply(b, f), key) == Equity(b, key) + if own == key then Proceeds(f) else 0.0 by {
      ApplyEquity(b, f, key);
    }
    assert Flow(PartFills(c, own, side, parts, price), key) == if own == key then Proceeds(f) else 0.0 by {
      FlowOfParts(c, own, side, parts, price, key);
    }
    assert ApplyAll(b, PartFills(c, own, side, parts, price)) == Apply(b, f) by {
      PartsAsOne(c, b, own, side, t, n, price);
    }
    assert ApplyAll(b, [f]) == Apply(b, f) by {
      ApplyAllAppend(b, [], f);
      assert [] + [f] == [f];
    }
  }

  /** One order: however it is cut and wherever its sends stop, the books are those of one fill of what
      was sent, they stay non-negative, and realized profit minus book value moves by exactly the money
      that flowed. */
  lemma {:induction false} OrderKeepsBooks(c: Settings, b: Book, t: Turn, key: Key)
    requires NonNegative(b) && !Harmful(c, t.order)
    ensures var r := After(c, b, t);
      && r == ApplyAll(b, MergedFor(c, b, t)) && NonNegative(r)
      && Equity(r, key) == Equity(b, key) + Flow(FillsFor(c, b, t), key)
  {
    var o, d := t.order, DecideOn(c, b, t.order);
    if d.Filled? && SentParts(t, d.quantity) != [] {
      SentTotal(t, d.quantity);
      SaleHeld(c, b, o);
      PartCovered(c, o, CashOf(b, o.strategy), PositionOf(b, KeyOf(o)).quantity, Total(SentParts(t, d.quantity)));
      SentKeeps(c, b, KeyOf(o), o.side, t, d.quantity, d.price, key);
    }
  }

  /** An order that does not get all its parts out stays partly filled: the position is that of the whole
      fill exactly when every part was sent. */
  lemma {:induction false} WholeIffAllSent(c: Settings, b: Book, t: Turn)
    requires NonNegative(b) && !Harmful(c, t.order) && DecideOn(c, b, t.order).Filled?
    requires DecideOn(c, b, t.order).quantity != 0
    ensures var o, d := t.order, DecideOn(c, b, t.order);
      PositionOf(After(c, b, t), KeyOf(o)) == PositionOf(After(c, b, Turn(t.key, o, [], 1)), KeyOf(o)) <==>
      t.sent >= |Parts(t.cut, d.quantity)|
  {
    var o, d, whole := t.order, DecideOn(c, b, t.order), Turn(t.key, t.order, [], 1);
    var parts, p := SentParts(t, d.quantity), PositionOf(b, KeyOf(o));
    SentTotal(t, d.quantity);
    TotalOfOne(d.quantity);
    SentAsOne(c, b, whole);
    SaleHeld(c, b, o);
    ApplyTouches(b, FillOf(c, KeyOf(o), o.side, d.quantity, d.price), KeyOf(o));
    if parts != [] {
      SentAsOne(c, b, t);
      ApplyTouches(b, FillOf(c, KeyOf(o), o.side, Total(parts), d.price), KeyOf(o));
    }
  }

  lemma SaleHeld(c: Settings, b: Book, o: Order)
    requires DecideOn(c, b, o).Filled?
    ensures o.side != BUY ==> DecideOn(c, b, o).quantity <= PositionOf(b, KeyOf(o)).quantity
  {
    FillIsCovered(c, o, CashOf(b, o.strategy), PositionOf(b, KeyOf(o)).quantity);
  }

  /** Exactly which orders keep all non-negative books non-negative, under whatever settings, prices and
      quantities: those that are not harmful. */
  lemma {:induction false} OrderKeepsBooksIff(c: Settings, o: Order)
    ensures (forall b, t: Turn :: NonNegative(b) && t.order == o ==> NonNegative(After(c, b, t))) <==> !Harmful(c, o)
  {
    if !Harmful(c, o) {
      forall b, t: Turn | NonNegative(b) && t.order == o ensures NonNegative(After(c, b, t)) {
        OrderKeepsBooks(c, b, t, KeyOf(o));
      }
    } else {
      var b, t := Witness(o), Turn("", o, [], 1);
      HarmDone(c, o);
      assert NonNegative(b) && t.order == o && !NonNegative(After(c, b, t));
    }
  }

  /** No money, and what the order could sell. */
  function Witness(o: Order): Book {
    Book(0.0, map[], map[KeyOf(o) := Position(if o.quantity > 0 then o.quantity else 0, 0.0)], map[])
  }

  /** What the fill of `n` units does to its own account and position. */
  ghost predicate Moves(c: Settings, b: Book, key: Key, side: Side, n: int, price: real, r: Book) {
    var p := PositionOf(b, key);
    if side == BUY then
      && PositionOf(r, key) == Bought(p, n, price)
      && CashOf(r, key.0) == CashOf(b, key.0) - n as real * UnitCost(c, price)
    else
      && PositionOf(r, key) == Sold(p, n)
      && CashOf(r, key.0) == CashOf(b, key.0) + NetProceeds(c, price, n)
  }

  lemma {:induction false} WholeMoves(c: Settings, b: Book, key: Key, side: Side, n: int, price: real)
    ensures Moves(c, b, key, side, n, price, ApplyAll(b, PartFills(c, key, side, [n], price)))
  {
    OnePart(c, b, key, side, n, price);
    FillNets(c, key, side, n, price);
  }

  lemma {:induction false} HarmDone(c: Settings, o: Order)
    requires Harmful(c, o)
    ensures NonNegative(Witness(o)) && !NonNegative(After(c, Witness(o), Turn("", o, [], 1)))
  {
    var b, held := Witness(o), if o.quantity > 0 then o.quantity else 0;
    var d, r := Judged(c, o), After(c, b, Turn("", o, [], 1));
    HarmfulJudged(c, o);
    assert CashOf(b, o.strategy) == 0.0 && PositionOf(b, KeyOf(o)) == Position(held, 0.0);
    assert Moves(c, b, KeyOf(o), o.side, d.quantity, d.price, r) by {
      WholeMoves(c, b, KeyOf(o), o.side, d.quantity, d.price);
    }
    FillIsCovered(c, o, 0.0, held);
    assert CashOf(r, o.strategy) < 0.0 || PositionOf(r, KeyOf(o)).quantity < 0;
  }

  /** All fills of a run, each order decided on the books its predecessors left. */
  function Trade(c: Settings, turns: seq<Turn>): seq<Fill> {
    if turns == [] then []
    else
      var fills := Trade(c, turns[..|turns| - 1]);
      fills + FillsFor(c, ApplyAll(Opening(c), fills), turns[|turns| - 1])
  }

  function Opening(c: Settings): Book {
    Book(c.startingCash, map[], map[], map[])
  }

  function BooksAfter(c: Settings, turns: seq<Turn>): Book {
    ApplyAll(Opening(c), Trade(c, turns))
  }

  /** The same run with one fill per order, of all that was sent. */
  function Merged(c: Settings, turns: seq<Turn>): seq<Fill> {
    if turns == [] then []
    else
      var fills := Merged(c, turns[..|turns| - 1]);
      fills + MergedFor(c, ApplyAll(Opening(c), fills), turns[|turns| - 1])
  }

  ghost predicate NoneHarmful(c: Settings, turns: seq<Turn>) {
    forall i :: 0 <= i < |turns| ==> !Harmful(c, turns[i].order)
  }

  /** The books of a run are sound. */
  ghost predicate Sound(c: Settings, turns: seq<Turn>, key: Key) {
    var b := BooksAfter(c, turns);
    && b == ApplyAll(Opening(c), Merged(c, turns)) && NonNegative(b)
    && Equity(b, key) == Flow(Trade(c, turns), key)
  }

  /**
   The service over every run of orders none of which is harmful, cut and interrupted in any way: no
   account is ever overdrawn, no position is short, the books are those of one fill per order of what
   was sent, and realized profit minus the cost of what is still held is the money that flowed.
   */
  lemma {:induction false} TradingIsSound(c: Settings, turns: seq<Turn>, key: Key)
    requires c.startingCash >= 0.0 && NoneHarmful(c, turns)
    ensures Sound(c, turns, key)
  {
    if turns != [] {
      TradingIsSound(c, turns[..|turns| - 1], key);
      TurnKeepsSound(c, turns, key);
    } else {
      OpeningIsSound(c, key);
    }
  }

  lemma OpeningIsSound(c: Settings, key: Key)
    requires c.startingCash >= 0.0
    ensures Sound(c, [], key)
  {
  }

  lemma {:induction false} TurnKeepsSound(c: Settings, turns: seq<Turn>, key: Key)
    requires turns != [] && !Harmful(c, turns[|turns| - 1].order) && Sound(c, turns[..|turns| - 1], key)
    ensures Sound(c, turns, key)
  {
    var before, t := turns[..|turns| - 1], turns[|turns| - 1];
    var b := BooksAfter(c, before);
    assert before + [t] == turns;
    TradeAppended(c, before, t);
    MergedAppended(c, before, t);
    OrderKeepsBooks(c, b, t, key);
    FlowConcat(Trade(c, before), FillsFor(c, b, t), key);
  }

  lemma {:induction false} TradeAppended(c: Settings, turns: seq<Turn>, t: Turn)
    ensures var b := BooksAfter(c, turns);
      && Trade(c, turns + [t]) == Trade(c, turns) + FillsFor(c, b, t)
      && BooksAfter(c, turns + [t]) == After(c, b, t)
  {
    assert (turns + [t])[..|turns|] == turns;
    ApplyAllConcat(Opening(c), Trade(c, turns), FillsFor(c, BooksAfter(c, turns), t));
  }

  lemma {:induction false} MergedAppended(c: Settings, turns: seq<Turn>, t: Turn)
    ensures var b := ApplyAll(Opening(c), Merged(c, turns));
      ApplyAll(Opening(c), Merged(c, turns + [t])) == ApplyAll(b, MergedFor(c, b, t))
  {
    assert (turns + [t])[..|turns|] == turns;
    ApplyAllConcat(Opening(c), Merged(c, turns), MergedFor(c, ApplyAll(Opening(c), Merged(c, turns)), t));
  }

  /** So the books balance: cash is the starting cash plus all money that flowed, and realized profit is
      a position's flow plus the cost of what is still held. */
  lemma {:induction false} TradingBalances(c: Settings, turns: seq<Turn>, key: Key)
    requires c.startingCash >= 0.0 && NoneHarmful(c, turns)
    ensures var fills, b := Trade(c, turns), BooksAfter(c, turns);
      && CashOf(b, key.0) >= 0.0 && PositionOf(b, key).quantity >= 0
      && CashOf(b, key.0) == c.startingCash + CashFlow(fills, key.0)
      && RealizedOf(b, key) == Flow(fills, key) + BookValue(PositionOf(b, key))
  {
    TradingIsSound(c, turns, key);
    CashBalances(Opening(c), Trade(c, turns), key.0);
  }

  // Repeats.

  function KeysOf(turns: seq<Turn>): (r: seq<string>)
    ensures |r| == |turns|
  {
    if turns == [] then [] else KeysOf(turns[..|turns| - 1]) + [turns[|turns| - 1].key]
  }

  /** The turns that the idempotence cache lets through, of all signals that arrive. */
  function Admitted(turns: seq<Turn>): seq<Turn> {
    if turns == [] then []
    else
      var admitted, t := Admitted(turns[..|turns| - 1]), turns[|turns| - 1];
      if t.key in Idempotence.Run(KeysOf(turns[..|turns| - 1])).keys then admitted else admitted + [t]
  }

  /** Their keys are the reference's log of admitted keys. */
  lemma {:induction false} AdmittedKeys(turns: seq<Turn>)
    ensures KeysOf(Admitted(turns)) == Idempotence.Log(KeysOf(turns))
  {
    if turns != [] {
      var before, t := turns[..|turns| - 1], turns[|turns| - 1];
      AdmittedKeys(before);
      Idempotence.StateMatchesLog(KeysOf(before));
      assert KeysOf(turns)[..|before|] == KeysOf(before);
      assert (Admitted(before) + [t])[..|Admitted(before)|] == Admitted(before);
    }
  }

  /** A signal that arrives again while its key is remembered changes nothing, however little of its
      first turn got out; only after 1999 other admitted signals is it handled afresh. */
  lemma {:induction false} RepeatIgnoredIff(turns: seq<Turn>, t: Turn)
    ensures Admitted(turns + [t]) == Admitted(turns) <==>
            Idempotence.Remembered(KeysOf(Admitted(turns)), t.key)
  {
    AdmittedKeys(turns);
    Idempotence.StateMatchesLog(KeysOf(turns));
    assert (turns + [t])[..|turns|] == turns;
  }

  /** Which orders are harmful in practice. With prices that are not negative, commissions up to 100 % and
      slippage up to 100 % either way, no order for a quantity that is not negative is. */
  lemma NonNegativeOrdersHarmless(c: Settings, o: Order)
    requires 0.0 <= c.commissionPercent <= 100.0 && -100.0 <= c.slippagePercent <= 100.0
    requires o.price >= 0.0 && o.quantity >= 0
    ensures !Harmful(c, o)
  {
    FillPriceNonNegative(c, o);
    MulMonotone(0.0, FillPrice(c, o), 1.0 - c.commissionPercent / 100.0);
  }

  lemma FillPriceNonNegative(c: Settings, o: Order)
    requires o.price >= 0.0 && -100.0 <= c.slippagePercent <= 100.0
    ensures FillPrice(c, o) >= 0.0
  {
  }

  /** The guardrails look at the signal's quantity, not the validated one, so a plain order for a negative
      validated quantity passes them, and no cap stops it. */
  lemma NegativeOrderFilled(c: Settings, o: Order, cash: real, held: int)
    requires WithinGuardrails(c, o) && o.kind == Market && o.tif == Day && o.quantity < 0 && c.maxNotional.None?
    requires cash >= 0.0 && held >= 0
    ensures Decide(c, o, cash, held) == Filled(o.quantity, FillPrice(c, o))
  {
    var unit := UnitCost(c, FillPrice(c, o));
    if unit > 0.0 {
      assert cash / unit >= 0.0;
    }
  }

  /** A purchase of this kind leaves a short position. */
  lemma {:induction false} NegativeQuantityGoesShort(c: Settings, o: Order)
    requires WithinGuardrails(c, o) && o.side == BUY && o.kind == Market && o.tif == Day && o.quantity < 0
    requires c.startingCash >= 0.0 && c.maxNotional.None?
    ensures Harmful(c, o)
    ensures PositionOf(After(c, Opening(c), Turn("", o, [], 1)), KeyOf(o)).quantity == o.quantity
  {
    NegativeOrderFilled(c, o, c.startingCash, 0);
    WholeMoves(c, Opening(c), KeyOf(o), o.side, o.quantity, FillPrice(c, o));
  }

  /** And a sale adds to the position and takes its price out of the account, which is overdrawn unless it
      holds as much. */
  lemma {:induction false} NegativeSaleOverdraws(c: Settings, o: Order)
    requires WithinGuardrails(c, o) && o.side != BUY && o.kind == Market && o.tif == Day && o.quantity < 0
    requires c.startingCash >= 0.0 && c.maxNotional.None? && Kept(c, o) > 0.0
    ensures Harmful(c, o)
    ensures var b, net := After(c, Opening(c), Turn("", o, [], 1)), NetProceeds(c, FillPrice(c, o), o.quantity);
      && net < 0.0 && PositionOf(b, KeyOf(o)).quantity == -o.quantity
      && CashOf(b, o.strategy) == c.startingCash + net
  {
    NegativeOrderFilled(c, o, c.startingCash, 0);
    SignOfProduct(FillPrice(c, o), 1.0 - c.commissionPercent / 100.0, o.quantity);
    WholeMoves(c, Opening(c), KeyOf(o), o.side, o.quantity, FillPrice(c, o));
  }
}
