/** FIFO positions and profit and loss, folded from the fill history. */
module Positions {
  import opened Basics

  datatype TradeSide = Buy | Sell

  datatype Trade = Trade(side: TradeSide, price: int, size: int)

  /** One still-open fill, oldest first in a queue. */
  datatype Lot = Lot(price: int, size: int)

  /** Open lots, the side they are on, and realized P&L before scaling. */
  datatype Account = Account(side: TradeSide, lots: seq<Lot>, realized: int)

  datatype Position = Position(netSize: int, avgCost: int, realizedPnl: int)

  const TICK_SCALE: nat := 10_000_000_000

  const EMPTY: Account := Account(Buy, [], 0)

  /** Profit per unit of closing a lot of this side at a price. */
  function Diff(side: TradeSide, open: int, close: int): int {
    if side.Sell? then open - close else close - open
  }

  datatype Matched = Matched(lots: seq<Lot>, remaining: int, pnl: int)

  /** Close lots oldest first until the size or the lots run out. */
  function Match(side: TradeSide, lots: seq<Lot>, price: int, remaining: int): Matched {
    if remaining <= 0 || lots == [] then Matched(lots, remaining, 0)
    else if remaining < lots[0].size then
      Matched([Lot(lots[0].price, lots[0].size - remaining)] + lots[1..], 0, remaining * Diff(side, lots[0].price, price))
    else
      var rest := Match(side, lots[1..], price, remaining - lots[0].size);
      rest.(pnl := lots[0].size * Diff(side, lots[0].price, price) + rest.pnl)
  }

  /** One fill: extends the open lots, or closes them and possibly flips the position. */
  function ApplyTrade(a: Account, t: Trade): Account {
    var side := if a.lots == [] then t.side else a.side;
    if t.side == side then Account(side, a.lots + [Lot(t.price, t.size)], a.realized)
    else
      var m := Match(side, a.lots, t.price, t.size);
      if m.remaining > 0
      then Account(t.side, m.lots + [Lot(t.price, m.remaining)], a.realized + m.pnl)
      else Account(side, m.lots, a.realized + m.pnl)
  }

  function Fold(ts: seq<Trade>): Account {
    if ts == [] then EMPTY else ApplyTrade(Fold(ts[..|ts| - 1]), ts[|ts| - 1])
  }

  function Size(lots: seq<Lot>): int { if lots == [] then 0 else lots[0].size + Size(lots[1..]) }

  function Cost(lots: seq<Lot>): int { if lots == [] then 0 else lots[0].price * lots[0].size + Cost(lots[1..]) }

  function SignedSize(a: Account): int { if a.side.Sell? then -Size(a.lots) else Size(a.lots) }

  function SignedCost(a: Account): int { if a.side.Sell? then -Cost(a.lots) else Cost(a.lots) }

  ghost predicate LotsPositive(lots: seq<Lot>) { forall i :: 0 <= i < |lots| ==> lots[i].size > 0 }

  lemma {:induction false} SizePositive(lots: seq<Lot>)
    requires LotsPositive(lots)
    ensures Size(lots) >= 0 && (lots != [] ==> Size(lots) > 0)
    decreases |lots|
  {
    if lots != [] { SizePositive(lots[1..]); }
  }

  function PositionOf(a: Account): Position
    requires LotsPositive(a.lots)
  {
    SizePositive(a.lots);
    Position(SignedSize(a), if a.lots == [] then 0 else Cost(a.lots) / Size(a.lots), TruncatedDiv(a.realized, TICK_SCALE))
  }

  // ---------------------------------------------------------------- lots stay positive

  ghost predicate PositiveTrades(ts: seq<Trade>) { forall i :: 0 <= i < |ts| ==> ts[i].size > 0 }

  lemma {:induction false} MatchKeepsPositive(side: TradeSide, lots: seq<Lot>, price: int, remaining: int)
    requires LotsPositive(lots) && remaining >= 0
    ensures var m := Match(side, lots, price, remaining);
      LotsPositive(m.lots) && 0 <= m.remaining <= remaining && (m.remaining > 0 ==> m.lots == [])
    decreases |lots|
  {
    if remaining > 0 && lots != [] && remaining >= lots[0].size {
      MatchKeepsPositive(side, lots[1..], price, remaining - lots[0].size);
    }
  }

  lemma ApplyKeepsPositive(a: Account, t: Trade)
    requires LotsPositive(a.lots) && t.size > 0
    ensures LotsPositive(ApplyTrade(a, t).lots)
  {
    MatchKeepsPositive(if a.lots == [] then t.side else a.side, a.lots, t.price, t.size);
  }

  lemma {:induction false} FoldKeepsPositive(ts: seq<Trade>)
    requires PositiveTrades(ts)
    ensures LotsPositive(Fold(ts).lots)
    decreases |ts|
  {
    if ts != [] {
      FoldKeepsPositive(ts[..|ts| - 1]);
      ApplyKeepsPositive(Fold(ts[..|ts| - 1]), ts[|ts| - 1]);
    }
  }

  // ---------------------------------------------------------------- the accounting identity

  /** Money received minus money paid. */
  function Cash(ts: seq<Trade>): int {
    if ts == [] then 0
    else
      var t := ts[|ts| - 1];
      Cash(ts[..|ts| - 1]) + (if t.side.Sell? then t.price * t.size else -(t.price * t.size))
  }

  /** Units bought minus units sold. */
  function Net(ts: seq<Trade>): int {
    if ts == [] then 0
    else
      var t := ts[|ts| - 1];
      Net(ts[..|ts| - 1]) + (if t.side.Sell? then -t.size else t.size)
  }

  lemma {:induction false} CostSnoc(lots: seq<Lot>, l: Lot)
    ensures Cost(lots + [l]) == Cost(lots) + l.price * l.size && Size(lots + [l]) == Size(lots) + l.size
    decreases |lots|
  {
    if lots != [] {
      CostSnoc(lots[1..], l);
      assert (lots + [l])[1..] == lots[1..] + [l];
    }
  }

  lemma DiffTimes(side: TradeSide, open: int, close: int, n: int)
    ensures n * Diff(side, open, close) == if side.Sell? then n * open - n * close else n * close - n * open
    ensures n * open == open * n && n * close == close * n
  {
  }

  lemma Distribute(p: int, a: int, b: int)
    ensures p * (a - b) == p * a - p * b && p * (a + b) == p * a + p * b
  {
  }

  /** What closing lots realizes is what the closed units fetch minus what they cost. */
  lemma {:induction false} MatchIdentity(side: TradeSide, lots: seq<Lot>, price: int, remaining: int)
    requires LotsPositive(lots) && remaining >= 0
    ensures var m := Match(side, lots, price, remaining);
      var closed := remaining - m.remaining;
      && Size(m.lots) == Size(lots) - closed
      && m.pnl == if side.Sell? then (Cost(lots) - Cost(m.lots)) - price * closed
                  else price * closed - (Cost(lots) - Cost(m.lots))
    decreases |lots|
  {
    if remaining > 0 && lots != [] {
      var p, n := lots[0].price, lots[0].size;
      if remaining < n {
        var cut := [Lot(p, n - remaining)] + lots[1..];
        assert cut[1..] == lots[1..];
        DiffTimes(side, p, price, remaining);
        Distribute(p, n, remaining);
      } else {
        MatchIdentity(side, lots[1..], price, remaining - n);
        DiffTimes(side, p, price, n);
        var rest := Match(side, lots[1..], price, remaining - n);
        Distribute(price, n, (remaining - n) - rest.remaining);
      }
    }
  }

  lemma ApplyIdentity(a: Account, t: Trade)
    requires LotsPositive(a.lots) && t.size > 0
    ensures var a' := ApplyTrade(a, t);
      && SignedSize(a') == SignedSize(a) + (if t.side.Sell? then -t.size else t.size)
      && a'.realized - SignedCost(a') ==
         a.realized - SignedCost(a) + (if t.side.Sell? then t.price * t.size else -(t.price * t.size))
  {
    var side := if a.lots == [] then t.side else a.side;
    if t.side == side {
      CostSnoc(a.lots, Lot(t.price, t.size));
    } else {
      var m := Match(side, a.lots, t.price, t.size);
      MatchIdentity(side, a.lots, t.price, t.size);
      MatchKeepsPositive(side, a.lots, t.price, t.size);
      CostSnoc(m.lots, Lot(t.price, m.remaining));
      Distribute(t.price, t.size, m.remaining);
    }
  }

  /** For every fill history: net size is buys minus sells, and raw realized P&L is sells
      minus buys plus the signed cost of what is still open. */
  lemma {:induction false} AccountingIdentity(ts: seq<Trade>)
    requires PositiveTrades(ts)
    ensures var a := Fold(ts);
      LotsPositive(a.lots) && SignedSize(a) == Net(ts) && a.realized == Cash(ts) + SignedCost(a)
    decreases |ts|
  {
    FoldKeepsPositive(ts);
    if ts != [] {
      var pre := ts[..|ts| - 1];
      AccountingIdentity(pre);
      FoldKeepsPositive(pre);
      ApplyIdentity(Fold(pre), ts[|ts| - 1]);
    }
  }

  /** Value of the open lots at a mark price over what they cost. */
  function Unrealized(side: TradeSide, lots: seq<Lot>, mark: int): int {
    if lots == [] then 0 else lots[0].size * Diff(side, lots[0].price, mark) + Unrealized(side, lots[1..], mark)
  }

  lemma {:induction false} UnrealizedIsValueMinusCost(side: TradeSide, lots: seq<Lot>, mark: int)
    ensures Unrealized(side, lots, mark) ==
      if side.Sell? then Cost(lots) - Size(lots) * mark else Size(lots) * mark - Cost(lots)
    decreases |lots|
  {
    if lots != [] {
      UnrealizedIsValueMinusCost(side, lots[1..], mark);
      DiffTimes(side, lots[0].price, mark, lots[0].size);
      Distribute(mark, lots[0].size, Size(lots[1..]));
    }
  }

  /** Realized plus mark-to-market P&L is cash plus the net position at the mark price. */
  lemma TotalPnlIsCashPlusPosition(ts: seq<Trade>, mark: int)
    requires PositiveTrades(ts)
    ensures var a := Fold(ts);
      a.realized + Unrealized(a.side, a.lots, mark) == Cash(ts) + Net(ts) * mark
  {
    AccountingIdentity(ts);
    var a := Fold(ts);
    UnrealizedIsValueMinusCost(a.side, a.lots, mark);
    assert (-Size(a.lots)) * mark == -(Size(a.lots) * mark);
  }

  // ---------------------------------------------------------------- average cost

  ghost predicate PricesWithin(lots: seq<Lot>, lo: int, hi: int) {
    forall i :: 0 <= i < |lots| ==> lo <= lots[i].price <= hi
  }

  lemma Between(lo: int, p: int, hi: int, n: int)
    requires lo <= p <= hi && n >= 0
    ensures lo * n <= p * n <= hi * n
  {
  }

  lemma {:induction false} CostWithin(lots: seq<Lot>, lo: int, hi: int)
    requires LotsPositive(lots) && PricesWithin(lots, lo, hi)
    ensures lo * Size(lots) <= Cost(lots) <= hi * Size(lots)
    decreases |lots|
  {
    if lots != [] {
      CostWithin(lots[1..], lo, hi);
      Between(lo, lots[0].price, hi, lots[0].size);
      Distribute(lo, lots[0].size, Size(lots[1..]));
      Distribute(hi, lots[0].size, Size(lots[1..]));
    }
  }

  lemma DivideWithin(c: int, n: int, lo: int, hi: int)
    requires n > 0 && lo * n <= c <= hi * n
    ensures lo <= c / n <= hi
  {
    var q := c / n;
    assert q * n <= c < q * n + n;
    assert q + 1 <= lo ==> (q + 1) * n <= lo * n;
    assert hi + 1 <= q ==> (hi + 1) * n <= q * n;
  }

  /** The average cost lies between the lowest and the highest open price. */
  lemma AverageCostIsAnAverage(a: Account, lo: int, hi: int)
    requires LotsPositive(a.lots) && a.lots != [] && PricesWithin(a.lots, lo, hi)
    ensures lo <= PositionOf(a).avgCost <= hi
  {
    SizePositive(a.lots);
    CostWithin(a.lots, lo, hi);
    DivideWithin(Cost(a.lots), Size(a.lots), lo, hi);
  }

  // ---------------------------------------------------------------- unit-at-a-time matching

  /** The same account as a queue of single units. An empty queue has no side of its own. */
  datatype UnitAccount = UnitAccount(side: TradeSide, units: seq<int>, realized: int)

  function Normal(u: UnitAccount): UnitAccount { if u.units == [] then u.(side := Buy) else u }

  function UnitTrade(u: UnitAccount, side: TradeSide, price: int): UnitAccount {
    if u.units == [] || u.side == side then UnitAccount(side, u.units + [price], u.realized)
    else Normal(UnitAccount(u.side, u.units[1..], u.realized + Diff(u.side, u.units[0], price)))
  }

  function UnitTrades(u: UnitAccount, side: TradeSide, price: int, n: nat): UnitAccount {
    if n == 0 then u else UnitTrade(UnitTrades(u, side, price, n - 1), side, price)
  }

  function Repeat(price: int, n: int): seq<int> { seq(if n < 0 then 0 else n, _ => price) }

  function Units(lots: seq<Lot>): seq<int> {
    if lots == [] then [] else Repeat(lots[0].price, lots[0].size) + Units(lots[1..])
  }

  function UnitsOf(a: Account): UnitAccount { Normal(UnitAccount(a.side, Units(a.lots), a.realized)) }

  function Profits(side: TradeSide, units: seq<int>, price: int): int {
    if units == [] then 0 else Profits(side, units[..|units| - 1], price) + Diff(side, units[|units| - 1], price)
  }

  lemma {:induction false} ProfitsConcat(side: TradeSide, a: seq<int>, b: seq<int>, price: int)
    ensures Profits(side, a + b, price) == Profits(side, a, price) + Profits(side, b, price)
    decreases |b|
  {
    if b == [] {
      assert a + b == a;
    } else {
      ProfitsConcat(side, a, b[..|b| - 1], price);
      assert (a + b)[..|a + b| - 1] == a + b[..|b| - 1];
    }
  }

  lemma {:induction false} ProfitsRepeat(side: TradeSide, open: int, n: nat, price: int)
    ensures Profits(side, Repeat(open, n), price) == n * Diff(side, open, price)
    decreases n
  {
    if n > 0 {
      ProfitsRepeat(side, open, n - 1, price);
      assert Repeat(open, n)[..n - 1] == Repeat(open, n - 1);
    }
  }

  lemma {:induction false} UnitsSnoc(lots: seq<Lot>, l: Lot)
    ensures Units(lots + [l]) == Units(lots) + Repeat(l.price, l.size)
    decreases |lots|
  {
    if lots == [] {
      assert lots + [l] == [l] && [l][1..] == [];
    } else {
      UnitsSnoc(lots[1..], l);
      assert (lots + [l])[1..] == lots[1..] + [l];
    }
  }

  lemma {:induction false} UnitsLength(lots: seq<Lot>)
    requires LotsPositive(lots)
    ensures |Units(lots)| == Size(lots)
    decreases |lots|
  {
    if lots != [] { UnitsLength(lots[1..]); }
  }

  lemma RepeatSplit(price: int, n: nat, k: nat, tail: seq<int>)
    requires k <= n
    ensures (Repeat(price, n) + tail)[..k] == Repeat(price, k)
    ensures (Repeat(price, n) + tail)[k..] == Repeat(price, n - k) + tail
  {
  }

  lemma PastHead(head: seq<int>, tail: seq<int>, k: nat)
    requires k <= |tail|
    ensures (head + tail)[|head| + k..] == tail[k..]
    ensures (head + tail)[..|head| + k] == head + tail[..k]
  {
  }

  /** Matching took the first k units of the queue and realized each of them. */
  ghost predicate TookPrefix(m: Matched, side: TradeSide, units: seq<int>, price: int, remaining: nat, k: nat) {
    && k == Min(remaining, |units|)
    && m.remaining == remaining - k
    && Units(m.lots) == units[k..]
    && m.pnl == Profits(side, units[..k], price)
  }

  lemma PartialLot(side: TradeSide, lots: seq<Lot>, price: int, remaining: nat)
    requires LotsPositive(lots) && lots != [] && 0 < remaining < lots[0].size
    ensures TookPrefix(Match(side, lots, price, remaining), side, Units(lots), price, remaining, remaining)
  {
    var p, n := lots[0].price, lots[0].size;
    var cut := [Lot(p, n - remaining)] + lots[1..];
    assert cut[1..] == lots[1..];
    RepeatSplit(p, n, remaining, Units(lots[1..]));
    ProfitsRepeat(side, p, remaining, price);
  }

  lemma WholeLot(side: TradeSide, p: int, n: nat, tail: seq<int>, price: int, remaining: nat, rest: Matched, k: nat)
    requires n <= remaining && TookPrefix(rest, side, tail, price, remaining - n, k)
    ensures TookPrefix(rest.(pnl := n * Diff(side, p, price) + rest.pnl), side, Repeat(p, n) + tail, price, remaining, n + k)
  {
    PastHead(Repeat(p, n), tail, k);
    ProfitsConcat(side, Repeat(p, n), tail[..k], price);
    ProfitsRepeat(side, p, n, price);
  }

  /** Lot-wise closing drops a prefix of the units and realizes each of them. */
  lemma {:induction false} MatchIsPrefix(side: TradeSide, lots: seq<Lot>, price: int, remaining: nat)
    requires LotsPositive(lots)
    ensures TookPrefix(Match(side, lots, price, remaining), side, Units(lots), price, remaining,
                       Min(remaining, |Units(lots)|))
    decreases |lots|
  {
    if remaining > 0 && lots != [] {
      var p, n, tail := lots[0].price, lots[0].size, Units(lots[1..]);
      if remaining < n {
        PartialLot(side, lots, price, remaining);
      } else {
        MatchIsPrefix(side, lots[1..], price, remaining - n);
        WholeLot(side, p, n, tail, price, remaining, Match(side, lots[1..], price, remaining - n),
                 Min(remaining - n, |tail|));
      }
    }
  }

  lemma {:induction false} UnitOpen(u: UnitAccount, side: TradeSide, price: int, n: nat)
    requires u == Normal(u) && (u.units == [] || u.side == side)
    ensures UnitTrades(u, side, price, n) ==
      if n == 0 then u else UnitAccount(side, u.units + Repeat(price, n), u.realized)
    decreases n
  {
    if n > 0 {
      UnitOpen(u, side, price, n - 1);
      assert u.units + Repeat(price, n - 1) + [price] == u.units + Repeat(price, n);
      assert n == 1 ==> u.units + [price] == u.units + Repeat(price, 1);
    }
  }

  lemma {:induction false} UnitClose(u: UnitAccount, side: TradeSide, price: int, n: nat)
    requires u == Normal(u) && u.units != [] && u.side != side && n <= |u.units|
    ensures UnitTrades(u, side, price, n) ==
      Normal(UnitAccount(u.side, u.units[n..], u.realized + Profits(u.side, u.units[..n], price)))
    decreases n
  {
    if n > 0 {
      UnitClose(u, side, price, n - 1);
      assert u.units[n - 1..][1..] == u.units[n..];
      assert u.units[..n][..n - 1] == u.units[..n - 1];
    }
  }

  lemma {:induction false} UnitTradesAdd(u: UnitAccount, side: TradeSide, price: int, n: nat, k: nat)
    ensures UnitTrades(u, side, price, n + k) == UnitTrades(UnitTrades(u, side, price, n), side, price, k)
    decreases k
  {
    if k > 0 { UnitTradesAdd(u, side, price, n, k - 1); }
  }

  /** Batch matching with lots is unit-at-a-time matching, flips and exact closes included. */
  lemma BatchIsUnitwise(a: Account, t: Trade)
    requires LotsPositive(a.lots) && t.size > 0
    ensures UnitsOf(ApplyTrade(a, t)) == UnitTrades(UnitsOf(a), t.side, t.price, t.size)
  {
    UnitsLength(a.lots);
    SizePositive(a.lots);
    var u := UnitsOf(a);
    if a.lots == [] || t.side == a.side {
      UnitsSnoc(a.lots, Lot(t.price, t.size));
      UnitOpen(u, t.side, t.price, t.size);
      assert Repeat(t.price, t.size) != [];
    } else {
      CloseIsUnitwise(a, t);
    }
  }

  lemma CloseIsUnitwise(a: Account, t: Trade)
    requires LotsPositive(a.lots) && t.size > 0 && a.lots != [] && t.side != a.side && Units(a.lots) != []
    ensures UnitsOf(ApplyTrade(a, t)) == UnitTrades(UnitsOf(a), t.side, t.price, t.size)
  {
    var u, n := UnitsOf(a), |Units(a.lots)|;
    var k := Min(t.size, n);
    var m := Match(a.side, a.lots, t.price, t.size);
    MatchIsPrefix(a.side, a.lots, t.price, t.size);
    MatchKeepsPositive(a.side, a.lots, t.price, t.size);
    UnitClose(u, t.side, t.price, k);
    if m.remaining > 0 {
      UnitTradesAdd(u, t.side, t.price, k, m.remaining);
      UnitOpen(UnitTrades(u, t.side, t.price, k), t.side, t.price, m.remaining);
      UnitsSnoc(m.lots, Lot(t.price, m.remaining));
      assert Repeat(t.price, m.remaining) != [];
    }
  }

  function UnitFold(ts: seq<Trade>): UnitAccount {
    if ts == [] then UnitAccount(Buy, [], 0)
    else
      var t := ts[|ts| - 1];
      UnitTrades(UnitFold(ts[..|ts| - 1]), t.side, t.price, if t.size < 0 then 0 else t.size)
  }

  lemma {:induction false} FoldIsUnitwise(ts: seq<Trade>)
    requires PositiveTrades(ts)
    ensures UnitsOf(Fold(ts)) == UnitFold(ts)
    decreases |ts|
  {
    if ts != [] {
      FoldIsUnitwise(ts[..|ts| - 1]);
      FoldKeepsPositive(ts[..|ts| - 1]);
      BatchIsUnitwise(Fold(ts[..|ts| - 1]), ts[|ts| - 1]);
    }
  }

  // ---------------------------------------------------------------- splitting a fill

  function Sum(units: seq<int>): int { if units == [] then 0 else units[0] + Sum(units[1..]) }

  function UnitPosition(u: UnitAccount): Position {
    Position(if u.side.Sell? then -|u.units| else |u.units|,
             if u.units == [] then 0 else Sum(u.units) / |u.units|,
             TruncatedDiv(u.realized, TICK_SCALE))
  }

  lemma {:induction false} SumConcat(a: seq<int>, b: seq<int>)
    ensures Sum(a + b) == Sum(a) + Sum(b)
    decreases |a|
  {
    if a == [] {
      assert a + b == b;
    } else {
      SumConcat(a[1..], b);
      assert (a + b)[1..] == a[1..] + b;
    }
  }

  lemma {:induction false} SumRepeat(price: int, n: nat)
    ensures Sum(Repeat(price, n)) == price * n
    decreases n
  {
    if n > 0 {
      SumRepeat(price, n - 1);
      assert Repeat(price, n)[1..] == Repeat(price, n - 1);
    }
  }

  lemma {:induction false} UnitsCost(lots: seq<Lot>)
    requires LotsPositive(lots)
    ensures Sum(Units(lots)) == Cost(lots)
    decreases |lots|
  {
    if lots != [] {
      UnitsCost(lots[1..]);
      SumRepeat(lots[0].price, lots[0].size);
      SumConcat(Repeat(lots[0].price, lots[0].size), Units(lots[1..]));
    }
  }

  lemma PositionIsUnitPosition(a: Account)
    requires LotsPositive(a.lots)
    ensures PositionOf(a) == UnitPosition(UnitsOf(a))
  {
    UnitsCost(a.lots);
    UnitsLength(a.lots);
    SizePositive(a.lots);
  }

  lemma {:induction false} UnitFoldSuffix(p: seq<Trade>, q: seq<Trade>, ts: seq<Trade>)
    requires UnitFold(p) == UnitFold(q)
    ensures UnitFold(p + ts) == UnitFold(q + ts)
    decreases |ts|
  {
    if ts == [] {
      assert p + ts == p && q + ts == q;
    } else {
      UnitFoldSuffix(p, q, ts[..|ts| - 1]);
      assert (p + ts)[..|p + ts| - 1] == p + ts[..|ts| - 1];
      assert (q + ts)[..|q + ts| - 1] == q + ts[..|ts| - 1];
    }
  }

  lemma SplitIsUnitwise(before: seq<Trade>, side: TradeSide, price: int, m: nat, n: nat)
    requires m > 0 && n > 0
    ensures UnitFold(before + [Trade(side, price, m + n)]) ==
      UnitFold(before + [Trade(side, price, m), Trade(side, price, n)])
  {
    var whole := before + [Trade(side, price, m + n)];
    var parts := before + [Trade(side, price, m), Trade(side, price, n)];
    var half := before + [Trade(side, price, m)];
    assert whole[..|whole| - 1] == before && parts[..|parts| - 1] == half && half[..|half| - 1] == before;
    UnitTradesAdd(UnitFold(before), side, price, m, n);
  }

  /** Splitting any fill of any history into two adjacent fills at the same price changes
      neither net size, nor average cost, nor realized P&L. */
  lemma SplittingAFillChangesNothing(before: seq<Trade>, side: TradeSide, price: int, m: nat, n: nat, after: seq<Trade>)
    requires m > 0 && n > 0 && PositiveTrades(before) && PositiveTrades(after)
    ensures var whole := before + [Trade(side, price, m + n)] + after;
      var parts := before + [Trade(side, price, m), Trade(side, price, n)] + after;
      && LotsPositive(Fold(whole).lots) && LotsPositive(Fold(parts).lots)
      && PositionOf(Fold(whole)) == PositionOf(Fold(parts))
      && Fold(whole).realized == Fold(parts).realized
  {
    var whole := before + [Trade(side, price, m + n)] + after;
    var parts := before + [Trade(side, price, m), Trade(side, price, n)] + after;
    assert PositiveTrades(whole) && PositiveTrades(parts);
    FoldKeepsPositive(whole);
    FoldKeepsPositive(parts);
    FoldIsUnitwise(whole);
    FoldIsUnitwise(parts);
    SplitIsUnitwise(before, side, price, m, n);
    UnitFoldSuffix(before + [Trade(side, price, m + n)], before + [Trade(side, price, m), Trade(side, price, n)], after);
    PositionIsUnitPosition(Fold(whole));
    PositionIsUnitPosition(Fold(parts));
    RealizedOfUnits(Fold(whole));
    RealizedOfUnits(Fold(parts));
  }

  lemma RealizedOfUnits(a: Account)
    ensures UnitsOf(a).realized == a.realized
  {
  }

  // ---------------------------------------------------------------- the repository method

  /** A row of the fills joined with their orders, oldest first. */
  datatype FillRow = FillRow(symbol: string, trade: Trade)

  /** The trades of one symbol, in order. */
  function TradesOf(rows: seq<FillRow>, symbol: string): seq<Trade> {
    if rows == [] then []
    else
      TradesOf(rows[..|rows| - 1], symbol)
      + (if rows[|rows| - 1].symbol == symbol then [rows[|rows| - 1].trade] else [])
  }

  ghost predicate PositiveRows(rows: seq<FillRow>) {
    forall i :: 0 <= i < |rows| ==> rows[i].trade.size > 0
  }

  lemma {:induction false} TradesArePositive(rows: seq<FillRow>, symbol: string)
    requires PositiveRows(rows)
    ensures PositiveTrades(TradesOf(rows, symbol))
    decreases |rows|
  {
    if rows != [] { TradesArePositive(rows[..|rows| - 1], symbol); }
  }

  lemma TradesSnoc(rows: seq<FillRow>, row: FillRow, symbol: string)
    ensures TradesOf(rows + [row], symbol) == TradesOf(rows, symbol) + if row.symbol == symbol then [row.trade] else []
  {
    assert (rows + [row])[..|rows + [row]| - 1] == rows;
  }

  lemma FoldSnoc(ts: seq<Trade>, t: Trade)
    ensures Fold(ts + [t]) == ApplyTrade(Fold(ts), t)
  {
    assert (ts + [t])[..|ts + [t]| - 1] == ts;
  }

  lemma MatchUnfold(side: TradeSide, lots: seq<Lot>, price: int, remaining: int)
    requires remaining > 0 && lots != [] && lots[0].size > 0
    ensures var matched := Min(remaining, lots[0].size);
      var lots' := if matched == lots[0].size then lots[1..] else lots[0 := Lot(lots[0].price, lots[0].size - matched)];
      var rest := Match(side, lots', price, remaining - matched);
      Match(side, lots, price, remaining) == rest.(pnl := matched * Diff(side, lots[0].price, price) + rest.pnl)
  {
    if remaining < lots[0].size {
      assert lots[0 := Lot(lots[0].price, lots[0].size - remaining)]
          == [Lot(lots[0].price, lots[0].size - remaining)] + lots[1..];
    }
  }

  /** The closing loop: shrink the oldest lot, drop it when it is used up. */
  method MatchLots(side: TradeSide, open: seq<Lot>, price: int, size: int)
      returns (lots: seq<Lot>, remaining: int, pnl: int)
    requires LotsPositive(open) && size > 0
    ensures Matched(lots, remaining, pnl) == Match(side, open, price, size)
  {
    lots, remaining, pnl := open, size, 0;
    while remaining > 0 && lots != []
      invariant LotsPositive(lots)
      invariant var rest := Match(side, lots, price, remaining);
        rest.(pnl := pnl + rest.pnl) == Match(side, open, price, size)
      decreases |lots|, remaining
    {
      MatchUnfold(side, lots, price, remaining);
      var matched := Min(remaining, lots[0].size);
      pnl := pnl + matched * Diff(side, lots[0].price, price);
      if matched == lots[0].size {
        lots := lots[1..];
      } else {
        lots := lots[0 := Lot(lots[0].price, lots[0].size - matched)];
      }
      remaining := remaining - matched;
    }
  }

  method ApplyRow(a: Account, t: Trade) returns (a': Account)
    requires LotsPositive(a.lots) && t.size > 0
    ensures a' == ApplyTrade(a, t) && LotsPositive(a'.lots)
  {
    ApplyKeepsPositive(a, t);
    var side := if a.lots == [] then t.side else a.side;
    if t.side == side {
      return Account(side, a.lots + [Lot(t.price, t.size)], a.realized);
    }
    var lots, remaining, pnl := MatchLots(side, a.lots, t.price, t.size);
    if remaining > 0 {
      return Account(t.side, lots + [Lot(t.price, remaining)], a.realized + pnl);
    }
    return Account(side, lots, a.realized + pnl);
  }

  ghost predicate Tabulates(accounts: map<string, Account>, rows: seq<FillRow>) {
    && (forall symbol :: symbol in accounts <==> TradesOf(rows, symbol) != [])
    && (forall symbol :: symbol in accounts ==> accounts[symbol] == Fold(TradesOf(rows, symbol)))
  }

  function AccountOf(accounts: map<string, Account>, symbol: string): Account {
    if symbol in accounts then accounts[symbol] else EMPTY
  }

  lemma TabulatesRow(accounts: map<string, Account>, rows: seq<FillRow>, row: FillRow)
    requires Tabulates(accounts, rows)
    ensures AccountOf(accounts, row.symbol) == Fold(TradesOf(rows, row.symbol))
    ensures Tabulates(accounts[row.symbol := ApplyTrade(AccountOf(accounts, row.symbol), row.trade)], rows + [row])
  {
    var ts, rows' := TradesOf(rows, row.symbol), rows + [row];
    var a := Fold(ts);
    var accounts' := accounts[row.symbol := ApplyTrade(AccountOf(accounts, row.symbol), row.trade)];
    assert AccountOf(accounts, row.symbol) == a;
    FoldSnoc(ts, row.trade);
    forall symbol
      ensures symbol in accounts' <==> TradesOf(rows', symbol) != []
      ensures symbol in accounts' ==> accounts'[symbol] == Fold(TradesOf(rows', symbol))
    {
      TradesSnoc(rows, row, symbol);
      if symbol == row.symbol {
        assert TradesOf(rows', symbol) == ts + [row.trade];
      } else {
        assert TradesOf(rows', symbol) == TradesOf(rows, symbol);
      }
    }
  }

  /** The fold over all rows, one account per symbol. */
  method FoldRows(rows: seq<FillRow>) returns (accounts: map<string, Account>)
    requires PositiveRows(rows)
    ensures Tabulates(accounts, rows)
  {
    accounts := map[];
    for i := 0 to |rows|
      invariant Tabulates(accounts, rows[..i])
    {
      var row := rows[i];
      TabulatesRow(accounts, rows[..i], row);
      assert rows[..i + 1] == rows[..i] + [row];
      TradesArePositive(rows[..i], row.symbol);
      FoldKeepsPositive(TradesOf(rows[..i], row.symbol));
      var a := ApplyRow(AccountOf(accounts, row.symbol), row.trade);
      accounts := accounts[row.symbol := a];
    }
    assert rows[..|rows|] == rows;
  }

  method Summarize(a: Account) returns (p: Position)
    requires LotsPositive(a.lots)
    ensures p == PositionOf(a)
  {
    var net, avg := 0, 0;
    if a.lots != [] {
      var total, cost, i := 0, 0, |a.lots|;
      SizePositive(a.lots);
      assert a.lots[|a.lots|..] == [];
      while i > 0
        invariant 0 <= i <= |a.lots| && total == Size(a.lots[i..]) && cost == Cost(a.lots[i..])
      {
        i := i - 1;
        assert a.lots[i..][1..] == a.lots[i + 1..];
        total := total + a.lots[i].size;
        cost := cost + a.lots[i].price * a.lots[i].size;
      }
      assert a.lots[0..] == a.lots;
      avg := cost / total;
      net := if a.side.Sell? then -total else total;
    }
    return Position(net, avg, TruncatedDiv(a.realized, TICK_SCALE));
  }

  /** Symbols with nothing open and nothing realized are left out. */
  predicate Reported(a: Account) { a.lots != [] || a.realized != 0 }

  /** Said of the fills alone: a symbol is left out exactly when it was bought as much as it
      was sold and for as much money; one with nothing open shows what it made; and every
      position is the one that matching unit by unit gives. */
  ghost predicate PositionFits(reported: bool, p: Position, ts: seq<Trade>) {
    && (reported <==> Net(ts) != 0 || Cash(ts) != 0)
    && (reported ==> p.netSize == Net(ts))
    && (reported && Net(ts) == 0 ==> p.avgCost == 0 && p.realizedPnl == TruncatedDiv(Cash(ts), TICK_SCALE))
    && (reported ==> p == UnitPosition(UnitFold(ts)))
  }

  lemma PositionFitsFills(ts: seq<Trade>)
    requires PositiveTrades(ts)
    ensures LotsPositive(Fold(ts).lots) && PositionFits(Reported(Fold(ts)), PositionOf(Fold(ts)), ts)
  {
    AccountingIdentity(ts);
    SizePositive(Fold(ts).lots);
    FoldIsUnitwise(ts);
    PositionIsUnitPosition(Fold(ts));
  }

  method GetPositions(rows: seq<FillRow>) returns (positions: map<string, Position>)
    requires PositiveRows(rows)
    ensures forall symbol :: LotsPositive(Fold(TradesOf(rows, symbol)).lots)
    ensures forall symbol :: symbol in positions <==> Reported(Fold(TradesOf(rows, symbol)))
    ensures forall symbol :: symbol in positions ==> positions[symbol] == PositionOf(Fold(TradesOf(rows, symbol)))
    ensures forall symbol :: symbol !in positions <==>
      Net(TradesOf(rows, symbol)) == 0 && Cash(TradesOf(rows, symbol)) == 0
    ensures forall symbol :: symbol in positions ==> PositionFits(true, positions[symbol], TradesOf(rows, symbol))
  {
    forall symbol
      ensures LotsPositive(Fold(TradesOf(rows, symbol)).lots)
      ensures var a := Fold(TradesOf(rows, symbol)); PositionFits(Reported(a), PositionOf(a), TradesOf(rows, symbol))
    {
      TradesArePositive(rows, symbol);
      PositionFitsFills(TradesOf(rows, symbol));
    }
    var accounts := FoldRows(rows);
    positions := map[];
    var todo := accounts.Keys;
    while todo != {}
      invariant todo <= accounts.Keys
      invariant forall symbol :: symbol in positions <==>
        symbol in accounts && symbol !in todo && Reported(accounts[symbol])
      invariant forall symbol :: symbol in positions ==>
        LotsPositive(accounts[symbol].lots) && positions[symbol] == PositionOf(accounts[symbol])
      decreases |todo|
    {
      var symbol :| symbol in todo;
      todo := todo - {symbol};
      var a := accounts[symbol];
      assert LotsPositive(Fold(TradesOf(rows, symbol)).lots);
      if a.lots != [] || a.realized != 0 {
        var p := Summarize(a);
        positions := positions[symbol := p];
      }
    }
  }
}
