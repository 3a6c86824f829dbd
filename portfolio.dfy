/**
 The combined portfolio table: one line per core holding (the strategic
 equity shared out by the holding weights), an optional tactical line and
 one combined cash line, then ordered by amount, largest first.
 */
module Portfolio {
  import opened Tracks

  datatype Category = StrategicCore | TacticalSwing | CashBuffer

  /** The positions of the fixed holding table. */
  datatype Asset = Tesla | Nvidia | Palantir | Vertiv | Bitcoin | LsElectric | RainbowRobotics | Asts

  /** What a line of the portfolio table stands for. */
  datatype LineName = Stock(asset: Asset) | TacticalTrading | TotalCash

  /** The name column as the application shows it. */
  function DisplayName(n: LineName): (s: string)
    ensures |s| > 0
  {
    match n
    case Stock(Tesla) => "테슬라 (TSLA)"
    case Stock(Nvidia) => "엔비디아 (NVDA)"
    case Stock(Palantir) => "팔란티어 (PLTR)"
    case Stock(Vertiv) => "버티브 (VRT)"
    case Stock(Bitcoin) => "비트코인 (BTC)"
    case Stock(LsElectric) => "LS ELECTRIC"
    case Stock(RainbowRobotics) => "레인보우로보틱스"
    case Stock(Asts) => "ASTS (Space)"
    case TacticalTrading => "단기 트레이딩 (TQQQ 등)"
    case TotalCash => "통합 현금 (Cash)"
  }

  /** Different lines never share a display name, so the name column identifies each line. */
  lemma DisplayNamesDistinct(a: LineName, b: LineName)
    requires a != b
    ensures DisplayName(a) != DisplayName(b)
  {
  }

  /** A row of the fixed holding table (its rationale text is left out). */
  datatype Holding = Holding(asset: Asset, weight: real)

  /** A row of the portfolio table: name, amount, percent of the capital, category. */
  datatype Line = Line(name: LineName, amount: real, percent: real, category: Category)

  /** The fixed holding table; its weights sum to 0.95, not 1. */
  const CoreStocks: seq<Holding> := [
    Holding(Tesla, 0.30),
    Holding(Nvidia, 0.15),
    Holding(Palantir, 0.15),
    Holding(Vertiv, 0.10),
    Holding(Bitcoin, 0.10),
    Holding(LsElectric, 0.05),
    Holding(RainbowRobotics, 0.05),
    Holding(Asts, 0.05)
  ]

  /** The divisor that grosses the core amounts up by the table's weight total. */
  const WeightDivisor: real := 0.95

  function TotalWeight(holdings: seq<Holding>): real {
    if holdings == [] then 0.0 else holdings[0].weight + TotalWeight(holdings[1..])
  }

  function TotalAmount(lines: seq<Line>): real {
    if lines == [] then 0.0 else lines[0].amount + TotalAmount(lines[1..])
  }

  function TotalPercent(lines: seq<Line>): real {
    if lines == [] then 0.0 else lines[0].percent + TotalPercent(lines[1..])
  }

  /** An amount as a percentage of the capital. */
  function Percent(amount: real, totalCapital: real): real
    requires totalCapital != 0.0
  {
    (amount / totalCapital) * 100.0
  }

  /** A line whose percent column is its amount as a percentage of the capital. */
  function LineOf(name: LineName, amount: real, category: Category, totalCapital: real): Line
    requires totalCapital != 0.0
  {
    Line(name, amount, Percent(amount, totalCapital), category)
  }

  /** The line of one holding: its weight's share of the strategic equity, grossed up. */
  function CoreLine(h: Holding, strStock: real, totalCapital: real): (l: Line)
    requires totalCapital != 0.0
    ensures l.name == Stock(h.asset) && l.category == StrategicCore
    ensures l.amount * WeightDivisor == strStock * h.weight
  {
    LineOf(Stock(h.asset), (strStock * h.weight) / WeightDivisor, StrategicCore, totalCapital)
  }

  /**
   The loop over the holding table: one line per holding, in table order,
   carrying its weight's share of the strategic equity grossed up by 0.95.
   */
  method BuildCoreLines(holdings: seq<Holding>, strStock: real, totalCapital: real) returns (core: seq<Line>)
    requires totalCapital != 0.0
    ensures |core| == |holdings|
    ensures forall k :: 0 <= k < |holdings| ==> core[k] == CoreLine(holdings[k], strStock, totalCapital)
    ensures TotalAmount(core) * WeightDivisor == strStock * TotalWeight(holdings)
    ensures SharesOfCapital(core, totalCapital)
  {
    core := [];
    for i := 0 to |holdings|
      invariant |core| == i
      invariant forall k :: 0 <= k < i ==> core[k] == CoreLine(holdings[k], strStock, totalCapital)
      invariant TotalAmount(core) * WeightDivisor == strStock * TotalWeight(holdings[..i])
    {
      var amt := (strStock * holdings[i].weight) / WeightDivisor;
      var line := LineOf(Stock(holdings[i].asset), amt, StrategicCore, totalCapital);
      TotalAmountAppend(core, line);
      TotalWeightAppend(holdings[..i], holdings[i]);
      assert holdings[..i + 1] == holdings[..i] + [holdings[i]];
      Distribute(strStock, TotalWeight(holdings[..i]), holdings[i].weight);
      core := core + [line];
    }
    assert holdings[..|holdings|] == holdings;
  }

  /**
   Builds the portfolio list in the order the application appends to it:
   the core lines, the tactical line when the tactical equity is positive,
   and one cash line holding both tracks' cash.
   */
  method BuildPortfolio(holdings: seq<Holding>, strStock: real, strCash: real, tacStock: real, tacCash: real,
                        totalCapital: real)
    returns (built: seq<Line>)
    requires totalCapital != 0.0
    ensures |built| == |holdings| + (if tacStock > 0.0 then 1 else 0) + 1
    ensures forall k :: 0 <= k < |holdings| ==> built[k] == CoreLine(holdings[k], strStock, totalCapital)
    ensures tacStock > 0.0 ==> built[|holdings|] == LineOf(TacticalTrading, tacStock, TacticalSwing, totalCapital)
    ensures built[|built| - 1] == LineOf(TotalCash, tacCash + strCash, CashBuffer, totalCapital)
    ensures SharesOfCapital(built, totalCapital)
    ensures TotalAmount(built[..|holdings|]) * WeightDivisor == strStock * TotalWeight(holdings)
    ensures TotalAmount(built) == TotalAmount(built[..|holdings|])
                                  + (if tacStock > 0.0 then tacStock else 0.0) + tacCash + strCash
    ensures TotalPercent(built) == Percent(TotalAmount(built), totalCapital)
  {
    var core := BuildCoreLines(holdings, strStock, totalCapital);
    built := core;
    ghost var tail: seq<Line> := [];
    if tacStock > 0.0 {
      var tacticalLine := LineOf(TacticalTrading, tacStock, TacticalSwing, totalCapital);
      built := built + [tacticalLine];
      tail := [tacticalLine];
    }
    var totalCashFinal := tacCash + strCash;
    var cashLine := LineOf(TotalCash, totalCashFinal, CashBuffer, totalCapital);
    built := built + [cashLine];
    TotalAmountAppend(tail, cashLine);
    tail := tail + [cashLine];
    assert built == core + tail;
    ConcatLines(core, tail, totalCapital);
    TotalPercentOfShares(built, totalCapital);
  }

  /**
   The script's allocation from the inputs to the list of lines: both tracks
   are evaluated and the list is built from a holding table whose weights
   sum to the divisor, as the fixed table's do. For inputs in the panel's
   ranges the core lines account for exactly the strategic equity, all
   lines for exactly the whole capital and their percents for exactly 100;
   the tactical line is present exactly when the strength exceeds 20.
   */
  method Allocate(ctx: MarketContext, holdings: seq<Holding>) returns (plan: Plan, built: seq<Line>)
    requires ValidContext(ctx)
    requires TotalWeight(holdings) == WeightDivisor
    ensures plan == Evaluate(ctx)
    ensures |built| == |holdings| + (if 20 < ctx.strength then 1 else 0) + 1
    ensures forall k :: 0 <= k < |holdings| ==>
              built[k] == CoreLine(holdings[k], plan.strategic.stock, ctx.totalCapital)
    ensures 20 < ctx.strength ==>
              built[|holdings|] == LineOf(TacticalTrading, plan.tactical.stock, TacticalSwing, ctx.totalCapital)
    ensures built[|built| - 1] == LineOf(TotalCash, plan.tactical.cash + plan.strategic.cash, CashBuffer, ctx.totalCapital)
    ensures TotalAmount(built[..|holdings|]) == plan.strategic.stock
    ensures TotalAmount(built) == ctx.totalCapital
    ensures TotalPercent(built) == 100.0
  {
    plan := Evaluate(ctx);
    PlanTotals(ctx);
    var tac, str := plan.tactical, plan.strategic;
    built := BuildPortfolio(holdings, str.stock, str.cash, tac.stock, tac.cash, ctx.totalCapital);
    GrossUpRestoresEquity(holdings, TotalAmount(built[..|holdings|]), str.stock);
    assert TotalAmount(built) == ctx.totalCapital;
    PercentOfWhole(ctx.totalCapital);
  }

  /**
   The displayed table: the lines allocated over the fixed holding table,
   ordered by amount, largest first. Reordering keeps every line, so the amounts still add up to the
   capital and the percents to 100.
   */
  method Simulate(ctx: MarketContext) returns (plan: Plan, built: seq<Line>, table: seq<Line>)
    requires ValidContext(ctx)
    ensures plan == Evaluate(ctx)
    ensures |built| == |CoreStocks| + (if 20 < ctx.strength then 1 else 0) + 1
    ensures forall k :: 0 <= k < |CoreStocks| ==>
              built[k] == CoreLine(CoreStocks[k], plan.strategic.stock, ctx.totalCapital)
    ensures 20 < ctx.strength ==>
              built[|CoreStocks|] == LineOf(TacticalTrading, plan.tactical.stock, TacticalSwing, ctx.totalCapital)
    ensures built[|built| - 1] == LineOf(TotalCash, plan.tactical.cash + plan.strategic.cash, CashBuffer, ctx.totalCapital)
    ensures TotalAmount(built[..|CoreStocks|]) == plan.strategic.stock
    ensures TotalAmount(built) == ctx.totalCapital && TotalPercent(built) == 100.0
    ensures multiset(table) == multiset(built) && NonIncreasing(table)
    ensures TotalAmount(table) == ctx.totalCapital && TotalPercent(table) == 100.0
  {
    CoreStocksWeight();
    plan, built := Allocate(ctx, CoreStocks);
    table := SortByAmountDesc(built);
    SortTotals(built);
  }

  // ---------------------------------------------------------------------
  // Sorting by amount, largest first

  predicate NonIncreasing(lines: seq<Line>) {
    forall i, j :: 0 <= i < j < |lines| ==> lines[i].amount >= lines[j].amount
  }

  /** Inserts a line into a table ordered by amount, largest first. */
  function InsertByAmount(x: Line, s: seq<Line>): (r: seq<Line>)
    ensures |r| == |s| + 1
    ensures r[0] == x || (|s| > 0 && r[0] == s[0])
    ensures multiset(r) == multiset(s) + multiset{x}
  {
    if s == [] || x.amount >= s[0].amount then
      [x] + s
    else
      assert s == [s[0]] + s[1..];
      [s[0]] + InsertByAmount(x, s[1..])
  }

  /** Orders the lines by amount, largest first (insertion sort). */
  function SortByAmountDesc(lines: seq<Line>): (r: seq<Line>)
    ensures multiset(r) == multiset(lines)
    ensures NonIncreasing(r)
  {
    if lines == [] then [] else
      assert lines == [lines[0]] + lines[1..];
      var rest := SortByAmountDesc(lines[1..]);
      InsertKeepsOrder(lines[0], rest);
      InsertByAmount(lines[0], rest)
  }

  /** Inserting into an ordered table gives an ordered table. */
  lemma {:induction false} InsertKeepsOrder(x: Line, s: seq<Line>)
    requires NonIncreasing(s)
    ensures NonIncreasing(InsertByAmount(x, s))
  {
    if s != [] && x.amount < s[0].amount {
      var rest := InsertByAmount(x, s[1..]);
      InsertKeepsOrder(x, s[1..]);
      var r := [s[0]] + rest;
      assert r == InsertByAmount(x, s);
      assert s[0].amount >= rest[0].amount;
      forall i, j | 0 <= i < j < |r| ensures r[i].amount >= r[j].amount {
        if i == 0 {
          assert r[j] == rest[j - 1];
          if j > 1 {
            assert rest[0].amount >= rest[j - 1].amount;
          }
        } else {
          assert r[i] == rest[i - 1] && r[j] == rest[j - 1];
        }
      }
    }
  }

  /** Inserting a line adds its amount and its percent to the totals. */
  lemma {:induction false} InsertTotals(x: Line, s: seq<Line>)
    ensures TotalAmount(InsertByAmount(x, s)) == x.amount + TotalAmount(s)
    ensures TotalPercent(InsertByAmount(x, s)) == x.percent + TotalPercent(s)
  {
    var r := InsertByAmount(x, s);
    if s == [] || x.amount >= s[0].amount {
      assert r[1..] == s;
    } else {
      assert r[1..] == InsertByAmount(x, s[1..]);
      InsertTotals(x, s[1..]);
    }
  }

  /** Sorting keeps the amount and percent totals. */
  lemma {:induction false} SortTotals(lines: seq<Line>)
    ensures TotalAmount(SortByAmountDesc(lines)) == TotalAmount(lines)
    ensures TotalPercent(SortByAmountDesc(lines)) == TotalPercent(lines)
  {
    if lines != [] {
      SortTotals(lines[1..]);
      InsertTotals(lines[0], SortByAmountDesc(lines[1..]));
    }
  }

  // ---------------------------------------------------------------------
  // Conservation

  lemma {:induction false} TotalAmountAppend(lines: seq<Line>, l: Line)
    ensures TotalAmount(lines + [l]) == TotalAmount(lines) + l.amount
  {
    if lines != [] {
      assert (lines + [l])[1..] == lines[1..] + [l];
      TotalAmountAppend(lines[1..], l);
    }
  }

  lemma {:induction false} TotalAmountConcat(a: seq<Line>, b: seq<Line>)
    ensures TotalAmount(a + b) == TotalAmount(a) + TotalAmount(b)
  {
    if a == [] {
      assert a + b == b;
    } else {
      assert (a + b)[0] == a[0];
      assert (a + b)[1..] == a[1..] + b;
      TotalAmountConcat(a[1..], b);
    }
  }

  lemma {:induction false} TotalWeightAppend(holdings: seq<Holding>, h: Holding)
    ensures TotalWeight(holdings + [h]) == TotalWeight(holdings) + h.weight
  {
    if holdings != [] {
      assert (holdings + [h])[1..] == holdings[1..] + [h];
      TotalWeightAppend(holdings[1..], h);
    }
  }

  /** The weights of the fixed holding table sum to exactly the divisor 0.95. */
  lemma CoreStocksWeight()
    ensures TotalWeight(CoreStocks) == WeightDivisor
  {
    var s := CoreStocks;
    assert TotalWeight(s[7..]) == 0.05;
    assert TotalWeight(s[6..]) == 0.10;
    assert TotalWeight(s[5..]) == 0.15;
    assert TotalWeight(s[4..]) == 0.25;
    assert TotalWeight(s[3..]) == 0.35;
    assert TotalWeight(s[2..]) == 0.50;
    assert TotalWeight(s[1..]) == 0.65;
  }

  /** Every line's percent column is its amount as a percentage of the capital. */
  predicate SharesOfCapital(lines: seq<Line>, totalCapital: real)
    requires totalCapital != 0.0
  {
    forall k :: 0 <= k < |lines| ==> lines[k].percent == Percent(lines[k].amount, totalCapital)
  }

  /** Joining two lists adds their amounts and keeps the percent column consistent. */
  lemma ConcatLines(a: seq<Line>, b: seq<Line>, totalCapital: real)
    requires totalCapital != 0.0
    requires SharesOfCapital(a, totalCapital) && SharesOfCapital(b, totalCapital)
    ensures SharesOfCapital(a + b, totalCapital)
    ensures TotalAmount(a + b) == TotalAmount(a) + TotalAmount(b)
    ensures (a + b)[..|a|] == a
  {
    TotalAmountConcat(a, b);
    assert (a + b)[..|a|] == a;
    forall k | 0 <= k < |a + b|
      ensures (a + b)[k].percent == Percent((a + b)[k].amount, totalCapital)
    {
      if k >= |a| {
        assert (a + b)[k] == b[k - |a|];
      }
    }
  }

  /**
   Over a holding table weighing exactly the divisor, as the fixed one does,
   the grossed-up core amounts add up to exactly the strategic equity.
   */
  lemma GrossUpRestoresEquity(holdings: seq<Holding>, coreTotal: real, strStock: real)
    requires TotalWeight(holdings) == WeightDivisor
    requires coreTotal * WeightDivisor == strStock * TotalWeight(holdings)
    ensures coreTotal == strStock
  {
    CancelFactor(coreTotal, strStock, WeightDivisor);
  }

  /** When every percent is the line's share of the capital, the percents add up to the amounts' share. */
  lemma {:induction false} TotalPercentOfShares(lines: seq<Line>, totalCapital: real)
    requires totalCapital != 0.0
    requires SharesOfCapital(lines, totalCapital)
    ensures TotalPercent(lines) == Percent(TotalAmount(lines), totalCapital)
  {
    if lines != [] {
      TotalPercentOfShares(lines[1..], totalCapital);
      PercentAdd(lines[0].amount, TotalAmount(lines[1..]), totalCapital);
    }
  }

  /** Grossing up: a single holding of weight 0.95 receives the whole strategic equity, not 95% of it. */
  lemma GrossUpSingleHolding()
    ensures CoreLine(Holding(Tesla, 0.95), 95.0, 100.0).amount == 95.0
  {
  }

  lemma PercentAdd(a: real, b: real, totalCapital: real)
    requires totalCapital != 0.0
    ensures Percent(a, totalCapital) + Percent(b, totalCapital) == Percent(a + b, totalCapital)
  {
  }

  lemma PercentOfWhole(totalCapital: real)
    requires totalCapital != 0.0
    ensures Percent(totalCapital, totalCapital) == 100.0
  {
  }

  lemma CancelFactor(x: real, y: real, c: real)
    requires c != 0.0 && x * c == y * c
    ensures x == y
  {
  }

  lemma Distribute(a: real, x: real, y: real)
    ensures a * (x + y) == a * x + a * y
  {
  }
}
