/** The portfolio report of the cloud runner: a total over the stored
    portfolio, one analysis per position drawn from a fixed insight table,
    and a health verdict from the share of quantum-computing positions. */
module CloudAnalysis {
  import opened Support
  import Ledger

  /** The numeric fields of one stored JSON object. The `last_updated`
      timestamp is a string in the file; it is never read here, so it is
      carried as an entry whose fields do not matter. */
  type Fields = map<string, real>

  /** The loaded portfolio file, in key order. */
  type Snapshot = seq<(string, Fields)>

  /** `data.get(name, 0)`. */
  function Field(data: Fields, name: string): real
  {
    if name in data then data[name] else 0.0
  }

  /** The two keys that are not positions. */
  predicate Reserved(symbol: string)
  {
    symbol == "CASH" || symbol == "last_updated"
  }

  /** `portfolio.get('CASH', {}).get('balance', 0)`. */
  function CashBalance(p: Snapshot): real
  {
    match Lookup(p, "CASH")
    case None => 0.0
    case Some(data) => Field(data, "balance")
  }

  /** The entries that are positions, in key order. */
  function Holdings(p: Snapshot): (h: Snapshot)
    ensures |h| <= |p|
    ensures forall i :: 0 <= i < |h| ==> !Reserved(h[i].0)
  {
    if p == [] then []
    else
      var init, last := p[..|p| - 1], p[|p| - 1];
      if Reserved(last.0) then Holdings(init) else Holdings(init) + [last]
  }

  /** An entry is a holding exactly when it is in the snapshot under a
      key that is not reserved. */
  lemma {:induction false} HoldingsExactly(p: Snapshot, e: (string, Fields))
    ensures e in Holdings(p) <==> e in p && !Reserved(e.0)
  {
    if p != [] {
      var init := p[..|p| - 1];
      HoldingsExactly(init, e);
      assert p == init + [p[|p| - 1]];
    }
  }

  /** The sum of `total_invested` (0 where missing) over the positions. */
  function InvestedTotal(p: Snapshot): real
  {
    if p == [] then 0.0
    else
      var init, last := p[..|p| - 1], p[|p| - 1];
      InvestedTotal(init) + (if Reserved(last.0) then 0.0 else Field(last.1, "total_invested"))
  }

  /** Only the positions contribute to the invested total. */
  lemma {:induction false} InvestedTotalOfHoldings(p: Snapshot)
    ensures InvestedTotal(p) == InvestedTotal(Holdings(p))
  {
    if p != [] {
      var init, last := p[..|p| - 1], p[|p| - 1];
      InvestedTotalOfHoldings(init);
      var h := Holdings(init);
      if !Reserved(last.0) {
        assert (h + [last])[..|h|] == h;
      }
    }
  }

  // ---------------------------------------------------------------------
  // Position analysis: a fixed insight table with a fallback record.

  datatype Insight = Insight(sector: string, riskLevel: string, thesis: string, watchFor: string)

  const QuantumSector := "Quantum Computing"

  const PositionInsights: map<string, Insight> := map[
    "RGTI" := Insight(QuantumSector, "HIGH",
      "Pure-play quantum leader with IBM partnership",
      "Quantum advantage demonstrations, R&D partnerships"),
    "QUBT" := Insight(QuantumSector, "HIGH",
      "Breakthrough photonic quantum technology",
      "Room-temperature quantum developments, commercial partnerships"),
    "IONQ" := Insight(QuantumSector, "MEDIUM-HIGH",
      "Trapped-ion quantum with cloud revenue validation",
      "Cloud quantum service adoption, enterprise partnerships"),
    "BBAI" := Insight("Defense AI", "MEDIUM",
      "Stable defense contractor with government contracts",
      "Defense spending, margin improvement, new contracts")]

  const Fallback := Insight("Unknown", "MEDIUM",
    "Position under analysis", "Market developments, earnings updates")

  /** The symbols the health check counts as quantum positions. */
  const QuantumSymbols: set<string> := {"RGTI", "QUBT", "IONQ"}

  /** `position_insights.get(symbol, fallback)`. */
  function InsightFor(symbol: string): Insight
  {
    if symbol in PositionInsights then PositionInsights[symbol] else Fallback
  }

  /** What the table says, symbol by symbol: the quantum sector is exactly
      the set of symbols the health check counts, the high-risk names are
      RGTI and QUBT, and every symbol outside the table gets the fallback. */
  lemma InsightTable(symbol: string)
    ensures InsightFor(symbol).sector == QuantumSector <==> symbol in QuantumSymbols
    ensures InsightFor(symbol).riskLevel == "HIGH" <==> symbol == "RGTI" || symbol == "QUBT"
    ensures InsightFor(symbol).sector == "Defense AI" <==> symbol == "BBAI"
    ensures InsightFor(symbol) == Fallback <==> symbol !in PositionInsights
    ensures InsightFor(symbol).riskLevel == "MEDIUM" <==> symbol == "BBAI" || symbol !in PositionInsights
  {
    assert PositionInsights.Keys == {"RGTI", "QUBT", "IONQ", "BBAI"};
    assert QuantumSector[0] == 'Q' && "Defense AI"[0] == 'D' && "Unknown"[0] == 'U';
    assert "HIGH"[0] == 'H' && "MEDIUM-HIGH"[6] == '-' && |"MEDIUM"| == 6;
  }

  datatype PositionAnalysis = PositionAnalysis(
    symbol: string, shares: real, avgCost: real, invested: real, insight: Insight)

  /** `get_position_analysis`: the figures are echoed unchanged next to the
      symbol's insight. The result is always a record, never empty. */
  function GetPositionAnalysis(symbol: string, shares: real, avgCost: real, invested: real): (a: PositionAnalysis)
    ensures a.symbol == symbol && a.shares == shares && a.avgCost == avgCost && a.invested == invested
    ensures symbol in PositionInsights ==> a.insight == PositionInsights[symbol]
    ensures symbol !in PositionInsights ==> a.insight == Fallback
  {
    PositionAnalysis(symbol, shares, avgCost, invested, InsightFor(symbol))
  }

  /** The analysis of one stored entry, missing fields read as 0. */
  function AnalysisOf(e: (string, Fields)): PositionAnalysis
  {
    GetPositionAnalysis(e.0, Field(e.1, "shares"), Field(e.1, "avg_cost"), Field(e.1, "total_invested"))
  }

  /** The analyses `analyze_positions` collects, in key order. */
  function Analyses(p: Snapshot): seq<PositionAnalysis>
  {
    if p == [] then []
    else
      var init, last := p[..|p| - 1], p[|p| - 1];
      Analyses(init) + (if Reserved(last.0) then [] else [AnalysisOf(last)])
  }

  /** Exactly one analysis per position, in the positions' order. */
  lemma {:induction false} AnalysesFollowHoldings(p: Snapshot)
    ensures |Analyses(p)| == |Holdings(p)|
    ensures forall i :: 0 <= i < |Holdings(p)| ==> Analyses(p)[i] == AnalysisOf(Holdings(p)[i])
  {
    if p != [] {
      AnalysesFollowHoldings(p[..|p| - 1]);
    }
  }

  // ---------------------------------------------------------------------
  // Portfolio health.

  datatype Status = HighQuantumConcentration | QuantumFocused | Diversified

  /** The verdict with its recommendation; the exposure is kept as the
      number the report prints rounded as a percentage. */
  datatype Health = Health(status: Status, quantumExposure: real, recommendation: string)

  /** The number of positions under a quantum symbol. */
  function QuantumCount(p: Snapshot): (n: nat)
    ensures n <= |Holdings(p)|
  {
    if p == [] then 0
    else
      var init, last := p[..|p| - 1], p[|p| - 1];
      QuantumCount(init) + (if !Reserved(last.0) && last.0 in QuantumSymbols then 1 else 0)
  }

  /** The quantum share of the positions in percent, 0 without positions. */
  function Concentration(quantum: nat, total: nat): (c: real)
    requires quantum <= total
    ensures 0.0 <= c <= 100.0
    ensures total == 0 ==> c == 0.0
    ensures quantum == total && total > 0 ==> c == 100.0
  {
    if total > 0 then quantum as real / total as real * 100.0 else 0.0
  }

  /** The verdict for a concentration; both thresholds are strict. */
  function StatusFor(c: real): (s: Status)
    ensures s == HighQuantumConcentration <==> c > 70.0
    ensures s == QuantumFocused <==> 50.0 < c <= 70.0
    ensures s == Diversified <==> c <= 50.0
  {
    if c > 70.0 then HighQuantumConcentration
    else if c > 50.0 then QuantumFocused
    else Diversified
  }

  function Recommendation(s: Status): string
  {
    match s
    case HighQuantumConcentration => "Monitor quantum sector developments closely"
    case QuantumFocused => "Good sector positioning with diversification opportunity"
    case Diversified => "Balanced portfolio allocation"
  }

  function HealthOf(quantum: nat, total: nat): Health
    requires quantum <= total
  {
    var c := Concentration(quantum, total);
    Health(StatusFor(c), c, Recommendation(StatusFor(c)))
  }

  /** `assess_portfolio_health` of a snapshot. */
  function PortfolioHealth(p: Snapshot): Health
  {
    HealthOf(QuantumCount(p), |Holdings(p)|)
  }

  /** A percentage of `t` exceeds a bound `k` exactly when the scaled
      numerator does. */
  lemma PercentAbove(q: real, t: real, k: real)
    requires t > 0.0
    ensures q / t * 100.0 > k <==> 100.0 * q > k * t
  {
    var c := q / t * 100.0;
    assert c * t == 100.0 * q;
    assert (c - k) * t == 100.0 * q - k * t;
    if c > k {
      assert (c - k) * t > 0.0;
    } else {
      assert (c - k) * t <= 0.0;
    }
  }

  /** The verdict in terms of the two counts, free of division: more than
      seven quantum positions in ten is a high concentration, more than half
      is quantum focused, and exactly half is still diversified. */
  lemma StatusByCounts(quantum: nat, total: nat)
    requires quantum <= total
    ensures HealthOf(quantum, total).status == HighQuantumConcentration <==> 10 * quantum > 7 * total
    ensures HealthOf(quantum, total).status == QuantumFocused <==> 2 * quantum > total && 10 * quantum <= 7 * total
    ensures HealthOf(quantum, total).status == Diversified <==> 2 * quantum <= total
  {
    if total > 0 {
      var q, t := quantum as real, total as real;
      PercentAbove(q, t, 70.0);
      PercentAbove(q, t, 50.0);
    }
  }

  /** `assess_portfolio_health`: counts the positions and the quantum ones
      in one pass, then classifies the concentration. */
  method AssessPortfolioHealth(p: Snapshot) returns (h: Health)
    ensures h == PortfolioHealth(p)
  {
    var quantum: nat, total: nat := 0, 0;
    var i := 0;
    while i < |p|
      invariant 0 <= i <= |p|
      invariant total == |Holdings(p[..i])|
      invariant quantum == QuantumCount(p[..i])
    {
      assert p[..i + 1][..i] == p[..i];
      var symbol := p[i].0;
      if !Reserved(symbol) {
        total := total + 1;
        if symbol in QuantumSymbols {
          quantum := quantum + 1;
        }
      }
      i := i + 1;
    }
    assert p[..i] == p;
    var c := if total > 0 then quantum as real / total as real * 100.0 else 0.0;
    if c > 70.0 {
      h := Health(HighQuantumConcentration, c, "Monitor quantum sector developments closely");
    } else if c > 50.0 {
      h := Health(QuantumFocused, c, "Good sector positioning with diversification opportunity");
    } else {
      h := Health(Diversified, c, "Balanced portfolio allocation");
    }
  }

  // ---------------------------------------------------------------------
  // The report.

  /** The report, or `NoData` for the fixed "No portfolio data available
      for analysis" answer. */
  datatype Analysis =
    | NoData
    | Report(totalValue: real, cashBalance: real, positionAnalyses: seq<PositionAnalysis>, health: Health)

  /** `analyze_positions`: nothing to report for a missing or empty
      portfolio; otherwise the cash balance plus everything invested, one
      analysis per position in key order, and the health verdict. */
  method AnalyzePositions(portfolio: Option<Snapshot>) returns (r: Analysis)
    ensures r.NoData? <==> portfolio.None? || portfolio.value == []
    ensures portfolio.Some? && portfolio.value != [] ==>
      var p := portfolio.value;
      r == Report(CashBalance(p) + InvestedTotal(p), CashBalance(p), Analyses(p), PortfolioHealth(p))
  {
    if portfolio.None? || portfolio.value == [] {
      return NoData;
    }
    var p := portfolio.value;
    var analyses: seq<PositionAnalysis> := [];
    var total := 0.0;
    var cash := CashBalance(p);
    var i := 0;
    while i < |p|
      invariant 0 <= i <= |p|
      invariant total == InvestedTotal(p[..i])
      invariant analyses == Analyses(p[..i])
    {
      assert p[..i + 1][..i] == p[..i];
      var (symbol, data) := p[i];
      if !Reserved(symbol) {
        var invested := Field(data, "total_invested");
        total := total + invested;
        var a := GetPositionAnalysis(symbol, Field(data, "shares"), Field(data, "avg_cost"), invested);
        analyses := analyses + [a];
      }
      i := i + 1;
    }
    assert p[..i] == p;
    total := total + cash;
    var health := AssessPortfolioHealth(p);
    r := Report(total, cash, analyses, health);
  }

  // ---------------------------------------------------------------------
  // The ledger's file, read back by the runner.

  /** The stored object of one ledger position. */
  function Stored(pos: Ledger.Position): Fields
  {
    map["shares" := pos.shares, "avg_cost" := pos.avgCost, "total_invested" := pos.totalInvested]
  }

  function Entries(symbols: seq<string>, positions: map<string, Ledger.Position>): (e: Snapshot)
    requires forall s :: s in symbols ==> s in positions
    ensures |e| == |symbols|
    ensures forall i :: 0 <= i < |e| ==> e[i] == (symbols[i], Stored(positions[symbols[i]]))
  {
    if symbols == [] then []
    else
      var init, last := symbols[..|symbols| - 1], symbols[|symbols| - 1];
      Entries(init, positions) + [(last, Stored(positions[last]))]
  }

  /** The file the ledger writes: its positions in key order, then the
      cash entry and the timestamp. */
  function SnapshotOf(b: Ledger.Book): Snapshot
    requires forall s :: s in b.symbols ==> s in b.positions
  {
    Entries(b.symbols, b.positions) + [("CASH", map["balance" := b.cash]), ("last_updated", map[])]
  }

  lemma {:induction false} EntriesInvested(symbols: seq<string>, positions: map<string, Ledger.Position>)
    requires forall s :: s in symbols ==> s in positions && !Reserved(s)
    ensures InvestedTotal(Entries(symbols, positions)) == Ledger.Invested(symbols, positions)
    ensures |Holdings(Entries(symbols, positions))| == |symbols|
  {
    if symbols != [] {
      var init := symbols[..|symbols| - 1];
      EntriesInvested(init, positions);
      var e := Entries(symbols, positions);
      assert e[..|e| - 1] == Entries(init, positions);
    }
  }

  /** The cash entry and the timestamp after the positions change none of
      the figures computed over positions. */
  lemma TrailerIgnored(e: Snapshot, cash: (string, Fields), stamp: (string, Fields))
    requires Reserved(cash.0) && Reserved(stamp.0)
    ensures InvestedTotal(e + [cash, stamp]) == InvestedTotal(e)
    ensures Holdings(e + [cash, stamp]) == Holdings(e)
    ensures Analyses(e + [cash, stamp]) == Analyses(e)
    ensures QuantumCount(e + [cash, stamp]) == QuantumCount(e)
  {
    var p := e + [cash, stamp];
    assert p[..|p| - 1] == e + [cash];
    assert (e + [cash])[..|e|] == e;
  }

  /** Reading back what the ledger wrote gives the ledger's own total, and
      one analysis per position it holds. */
  lemma LedgerSnapshotAgrees(b: Ledger.Book)
    requires Ledger.Sound(b)
    ensures CashBalance(SnapshotOf(b)) + InvestedTotal(SnapshotOf(b)) == Ledger.Worth(b)
    ensures |Holdings(SnapshotOf(b))| == |b.symbols|
    ensures |Analyses(SnapshotOf(b))| == |b.symbols|
  {
    var e := Entries(b.symbols, b.positions);
    var cash: (string, Fields) := ("CASH", map["balance" := b.cash]);
    var stamp: (string, Fields) := ("last_updated", map[]);
    assert SnapshotOf(b) == e + [cash, stamp];
    assert forall s :: s in b.symbols ==> s in b.positions && !Reserved(s) by {
      assert Ledger.CashKey == "CASH" && Ledger.StampKey == "last_updated";
    }
    EntriesInvested(b.symbols, b.positions);
    assert forall i :: 0 <= i < |e| ==> e[i].0 != "CASH" by {
      forall i | 0 <= i < |e|
        ensures e[i].0 != "CASH"
      {
        assert e[i].0 == b.symbols[i];
      }
    }
    LookupPastEntries(e, cash, stamp);
    TrailerIgnored(e, cash, stamp);
    AnalysesFollowHoldings(e);
  }

  lemma {:induction false} LookupPastEntries(e: Snapshot, cash: (string, Fields), stamp: (string, Fields))
    requires forall i :: 0 <= i < |e| ==> e[i].0 != "CASH"
    requires cash.0 == "CASH"
    ensures Lookup(e + [cash, stamp], "CASH") == Some(cash.1)
  {
    if e != [] {
      LookupPastEntries(e[1..], cash, stamp);
      assert (e + [cash, stamp])[1..] == e[1..] + [cash, stamp];
    }
  }

  /** The bootstrap portfolio reads back as 2400 in total. */
  lemma SeedReportTotal()
    ensures CashBalance(SnapshotOf(Ledger.Seed)) + InvestedTotal(SnapshotOf(Ledger.Seed)) == 2400.0
  {
    Ledger.SeedIsSound();
    Ledger.SeedWorth();
    LedgerSnapshotAgrees(Ledger.Seed);
  }

  /** The number of quantum symbols in a key order. */
  function QuantumIn(symbols: seq<string>): nat
  {
    if symbols == [] then 0
    else QuantumIn(symbols[..|symbols| - 1]) + (if symbols[|symbols| - 1] in QuantumSymbols then 1 else 0)
  }

  lemma {:induction false} EntriesQuantum(symbols: seq<string>, positions: map<string, Ledger.Position>)
    requires forall s :: s in symbols ==> s in positions && !Reserved(s)
    ensures QuantumCount(Entries(symbols, positions)) == QuantumIn(symbols)
  {
    if symbols != [] {
      var init := symbols[..|symbols| - 1];
      EntriesQuantum(init, positions);
      var e := Entries(symbols, positions);
      assert e[..|e| - 1] == Entries(init, positions);
    }
  }

  /** The verdict on the ledger's file depends only on its key order: the
      quantum symbols in it against all of its symbols. */
  lemma LedgerSnapshotHealth(b: Ledger.Book)
    requires Ledger.Sound(b)
    ensures QuantumIn(b.symbols) <= |b.symbols|
    ensures PortfolioHealth(SnapshotOf(b)) == HealthOf(QuantumIn(b.symbols), |b.symbols|)
  {
    var e := Entries(b.symbols, b.positions);
    var cash: (string, Fields) := ("CASH", map["balance" := b.cash]);
    var stamp: (string, Fields) := ("last_updated", map[]);
    assert SnapshotOf(b) == e + [cash, stamp];
    assert forall s :: s in b.symbols ==> s in b.positions && !Reserved(s) by {
      assert Ledger.CashKey == "CASH" && Ledger.StampKey == "last_updated";
    }
    TrailerIgnored(e, cash, stamp);
    EntriesInvested(b.symbols, b.positions);
    EntriesQuantum(b.symbols, b.positions);
  }

  /** Three of the bootstrap portfolio's four symbols are quantum ones. */
  lemma SeedQuantumSymbols()
    ensures QuantumIn(Ledger.Seed.symbols) == 3 && |Ledger.Seed.symbols| == 4
  {
    var symbols := Ledger.Seed.symbols;
    assert symbols[..1][..0] == [] && symbols[..2][..1] == symbols[..1];
    assert symbols[..3][..2] == symbols[..2] && symbols[..4] == symbols;
    assert "BBAI" !in QuantumSymbols by {
      assert "BBAI"[0] == 'B';
    }
    assert QuantumIn(symbols[..1]) == 1;
    assert QuantumIn(symbols[..2]) == 1;
    assert QuantumIn(symbols[..3]) == 2;
  }

  /** The bootstrap portfolio has a high quantum concentration. */
  lemma SeedReportHealth()
    ensures PortfolioHealth(SnapshotOf(Ledger.Seed)).status == HighQuantumConcentration
  {
    Ledger.SeedIsSound();
    LedgerSnapshotHealth(Ledger.Seed);
    SeedQuantumSymbols();
    StatusByCounts(3, 4);
  }
}
