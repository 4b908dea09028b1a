/** The portfolio ledger of simple_portfolio.py: a book of held symbols, each
    with its share count and cost basis, a cash balance, and an append-only
    log of BUY and SELL records. Buys and sells check their precondition
    before changing anything, so a rejected operation leaves the book and
    the log exactly as they were. */
module Ledger {
  import opened Support

  /** One held symbol: `{shares, avg_cost, total_invested}`. */
  datatype Position = Position(shares: real, avgCost: real, totalInvested: real)

  datatype Action = Buy | Sell

  /** The `notes` column of a record: how the quantity was given. */
  datatype Mode = ShareCount | DollarAmount | Percentage

  /** One row of the transaction log; the `date` column is not modelled. */
  datatype Transaction = Transaction(
    symbol: string, action: Action, shares: real, price: real, amount: real, mode: Mode)

  /** The persisted portfolio: held symbols in dictionary order, their
      positions, and the balance under the reserved `CASH` key. The
      `last_updated` timestamp is not modelled. */
  datatype Book = Book(symbols: seq<string>, positions: map<string, Position>, cash: real)

  const CashKey := "CASH"
  const StampKey := "last_updated"

  /** `str.upper` on one character (ASCII letters only). */
  function UpperChar(c: char): (u: char)
    ensures !('a' <= u <= 'z')
    ensures 'a' <= c <= 'z' ==> 'A' <= u <= 'Z' && u as int == c as int - 32
    ensures !('a' <= c <= 'z') ==> u == c
  {
    if 'a' <= c <= 'z' then (c as int - 32) as char else c
  }

  /** The symbol normalisation `symbol.upper()`. */
  function Upper(s: string): (r: string)
    ensures |r| == |s|
    ensures forall i :: 0 <= i < |r| ==> !('a' <= r[i] <= 'z')
    ensures forall i :: 0 <= i < |s| && !('a' <= s[i] <= 'z') ==> r[i] == s[i]
    ensures forall i :: 0 <= i < |s| && 'a' <= s[i] <= 'z' ==> r[i] as int == s[i] as int - 32
  {
    seq(|s|, i requires 0 <= i < |s| => UpperChar(s[i]))
  }

  /** A normalised symbol is never the lower-case timestamp key, so buying
      can never overwrite `last_updated`. */
  lemma UpperIsNotStampKey(s: string)
    ensures Upper(s) != StampKey
  {
    assert StampKey[0] == 'l';
    if |s| > 0 {
      assert !('a' <= Upper(s)[0] <= 'z');
    }
  }

  /** A position as the ledger keeps it: something is held, at a positive cost. */
  predicate Held(p: Position)
  {
    p.shares > 0.0 && p.avgCost > 0.0 && p.totalInvested > 0.0
  }

  /** The cost identity `total_invested == shares * avg_cost`. */
  predicate CostIdentity(p: Position)
  {
    p.totalInvested == p.shares * p.avgCost
  }

  /** The key order lists exactly the held symbols, each once. */
  ghost predicate Indexed(b: Book)
  {
    && Distinct(b.symbols)
    && (forall s :: s in b.symbols <==> s in b.positions)
  }

  /** The invariant of the book: the key order lists each held symbol once,
      the reserved keys are not positions, cash is never negative and every
      position holds something. */
  ghost predicate Sound(b: Book)
  {
    && Indexed(b)
    && CashKey !in b.positions
    && StampKey !in b.positions
    && b.cash >= 0.0
    && (forall s :: s in b.positions ==> Held(b.positions[s]))
  }

  /** The bootstrap portfolio of `init_portfolio`. Its rounded figures do not
      satisfy the cost identity exactly (46.15 * 19.50 is 899.925, not 900). */
  const Seed := Book(
    ["RGTI", "BBAI", "QUBT", "IONQ"],
    map["RGTI" := Position(46.15, 19.50, 900.00),
        "BBAI" := Position(157.89, 3.80, 600.00),
        "QUBT" := Position(46.58, 3.22, 150.00),
        "IONQ" := Position(11.83, 8.45, 100.00)],
    650.00)

  /** The seed is a sound book. */
  lemma SeedIsSound()
    ensures Sound(Seed)
  {
    var symbols, positions := Seed.symbols, Seed.positions;
    assert positions.Keys == {"RGTI", "BBAI", "QUBT", "IONQ"};
    assert Distinct(symbols) by {
      assert symbols[0] != symbols[1] && symbols[0] != symbols[2] && symbols[0] != symbols[3];
      assert symbols[1] != symbols[2] && symbols[1] != symbols[3] && symbols[2] != symbols[3];
    }
    assert CashKey !in positions && StampKey !in positions by {
      assert CashKey[0] == 'C' && StampKey[0] == 'l';
    }
  }

  /** The seed is worth 2400: 650 in cash and 1750 invested. */
  lemma SeedWorth()
    ensures Worth(Seed) == 2400.0
  {
    var symbols, positions := Seed.symbols, Seed.positions;
    assert symbols[..1] == ["RGTI"] && symbols[..2] == symbols[..1] + ["BBAI"];
    assert symbols[..3] == symbols[..2] + ["QUBT"] && symbols == symbols[..3] + ["IONQ"];
    assert Invested(symbols[..1], positions) == 900.00;
    assert Invested(symbols[..2], positions) == 1500.00;
    assert Invested(symbols[..3], positions) == 1650.00;
  }

  /** The seed's RGTI figures are rounded: 46.15 shares at 19.50 cost
      899.925, not the 900 recorded as invested. */
  lemma SeedBreaksCostIdentity()
    ensures !CostIdentity(Seed.positions["RGTI"])
  {
  }

  function Get(m: map<string, Position>, k: string): (r: Option<Position>)
    ensures r.Some? <==> k in m
    ensures r.Some? ==> r.value == m[k]
  {
    if k in m then Some(m[k]) else None
  }

  /** Shares and dollar amount of a purchase, from a share count or from a
      dollar amount. */
  datatype Purchase = Purchase(shares: real, amount: real)

  function PurchaseSize(quantity: real, price: real, isDollarAmount: bool): (p: Purchase)
    requires price > 0.0
    ensures p.amount == p.shares * price
    ensures if isDollarAmount then p.amount == quantity else p.shares == quantity
    ensures quantity > 0.0 ==> p.shares > 0.0 && p.amount > 0.0
  {
    if isDollarAmount then Purchase(quantity / price, quantity)
    else Purchase(quantity, quantity * price)
  }

  /** The position after buying `shares` for `amount` at `price`: a fresh
      position at that price, or the weighted-average merge with the
      position already held. */
  function AfterBuy(held: Option<Position>, shares: real, amount: real, price: real): (p: Position)
    requires held.Some? ==> held.value.shares + shares != 0.0
    ensures held.None? ==> p == Position(shares, price, amount)
    ensures held.Some? ==>
      && p.shares == held.value.shares + shares
      && p.totalInvested == held.value.totalInvested + amount
      && CostIdentity(p)
  {
    match held
    case None => Position(shares, price, amount)
    case Some(h) =>
      var n := h.shares + shares;
      var t := h.totalInvested + amount;
      Position(n, t / n, t)
  }

  /** A purchase of a positive quantity at a positive price keeps a position held. */
  lemma BuyKeepsHeld(held: Option<Position>, shares: real, price: real)
    requires held.Some? ==> Held(held.value)
    requires shares > 0.0 && price > 0.0
    ensures (held.Some? ==> held.value.shares + shares != 0.0)
    ensures Held(AfterBuy(held, shares, shares * price, price))
  {
    var amount := shares * price;
    assert amount > 0.0;
    if held.Some? {
      var n := held.value.shares + shares;
      var t := held.value.totalInvested + amount;
      assert n > 0.0 && t > 0.0;
      assert t / n > 0.0;
    }
  }

  /** Two fills of a symbol not held before average to the true weighted
      average of their prices. */
  lemma WeightedAverageOfTwoFills(s1: real, p1: real, s2: real, p2: real)
    requires s1 > 0.0 && p1 > 0.0 && s2 > 0.0 && p2 > 0.0
    ensures
      var second := AfterBuy(Some(AfterBuy(None, s1, s1 * p1, p1)), s2, s2 * p2, p2);
      && second.shares == s1 + s2
      && second.totalInvested == s1 * p1 + s2 * p2
      && second.avgCost == (s1 * p1 + s2 * p2) / (s1 + s2)
  {
  }

  /** Ten shares at 10 and ten more at 20: twenty shares, average cost 15,
      300 invested. */
  lemma TenAtTenThenTenAtTwenty()
    ensures AfterBuy(Some(AfterBuy(None, 10.0, 100.0, 10.0)), 10.0, 200.0, 20.0)
         == Position(20.0, 15.0, 300.0)
  {
  }

  /** The shares a sell asks for: a share count, or a percentage of the
      shares held. */
  function SaleShares(held: real, quantity: real, isPercentage: bool): (s: real)
    ensures !isPercentage ==> s == quantity
    ensures isPercentage ==> s == held * (quantity / 100.0)
    ensures isPercentage && quantity == 100.0 ==> s == held
    ensures isPercentage && held >= 0.0 && 0.0 <= quantity <= 100.0 ==> 0.0 <= s <= held
    ensures held >= 0.0 && quantity >= 0.0 ==> s >= 0.0
  {
    if isPercentage then
      var fraction := quantity / 100.0;
      assert held >= 0.0 && 0.0 <= fraction <= 1.0 ==> held - held * fraction == held * (1.0 - fraction) >= 0.0;
      held * fraction
    else quantity
  }

  /** The position after selling `shares` of it: gone when nothing remains,
      otherwise the remaining shares at an unchanged average cost. */
  function AfterSell(p: Position, shares: real): (r: Option<Position>)
    ensures r.None? <==> shares == p.shares
    ensures r.Some? ==>
      && r.value.shares == p.shares - shares
      && r.value.avgCost == p.avgCost
      && CostIdentity(r.value)
  {
    var remaining := p.shares - shares;
    if remaining == 0.0 then None
    else Some(Position(remaining, p.avgCost, remaining * p.avgCost))
  }

  /** Cost basis still invested in a position after a sale (none once it is closed). */
  function Retained(r: Option<Position>): real
  {
    if r.Some? then r.value.totalInvested else 0.0
  }

  /** A sale of up to the shares held keeps what remains a held position. */
  lemma SellKeepsHeld(p: Position, shares: real)
    requires Held(p) && 0.0 <= shares <= p.shares
    ensures AfterSell(p, shares).Some? ==> Held(AfterSell(p, shares).value)
  {
    var remaining := p.shares - shares;
    if remaining != 0.0 {
      assert remaining > 0.0;
      assert remaining * p.avgCost > 0.0;
    }
  }

  /** When the cost identity held, a sale releases exactly `shares * avg_cost`
      of cost basis. */
  lemma SaleReleasesCost(p: Position, shares: real)
    requires CostIdentity(p)
    ensures p.totalInvested - Retained(AfterSell(p, shares)) == shares * p.avgCost
  {
    var remaining := p.shares - shares;
    assert p.shares * p.avgCost == shares * p.avgCost + remaining * p.avgCost;
  }

  /** Sum of `total_invested` over the held symbols, in dictionary order. */
  function Invested(symbols: seq<string>, positions: map<string, Position>): (r: real)
    requires forall s :: s in symbols ==> s in positions
  {
    if symbols == [] then 0.0
    else Invested(symbols[..|symbols| - 1], positions) + positions[symbols[|symbols| - 1]].totalInvested
  }

  /** The total `show_portfolio` reports: cash plus everything invested. */
  function Worth(b: Book): (r: real)
    requires forall s :: s in b.symbols ==> s in b.positions
  {
    b.cash + Invested(b.symbols, b.positions)
  }

  lemma {:induction false} InvestedAppend(symbols: seq<string>, positions: map<string, Position>, k: string)
    requires forall s :: s in symbols ==> s in positions
    requires k in positions
    ensures Invested(symbols + [k], positions) == Invested(symbols, positions) + positions[k].totalInvested
  {
    assert (symbols + [k])[..|symbols|] == symbols;
  }

  /** The sum only looks at the listed symbols. */
  lemma {:induction false} InvestedFrame(symbols: seq<string>, m: map<string, Position>, m': map<string, Position>)
    requires forall s :: s in symbols ==> s in m && s in m' && m[s].totalInvested == m'[s].totalInvested
    ensures Invested(symbols, m) == Invested(symbols, m')
  {
    if symbols != [] {
      InvestedFrame(symbols[..|symbols| - 1], m, m');
    }
  }

  /** Replacing the position of one listed symbol changes the sum by the
      difference of the two amounts invested. */
  lemma {:induction false} InvestedReplace(symbols: seq<string>, m: map<string, Position>, k: string, p: Position)
    requires Distinct(symbols)
    requires forall s :: s in symbols ==> s in m
    requires k in symbols
    ensures Invested(symbols, m[k := p]) == Invested(symbols, m) - m[k].totalInvested + p.totalInvested
  {
    var init, last := symbols[..|symbols| - 1], symbols[|symbols| - 1];
    assert symbols == init + [last];
    DistinctInit(symbols);
    if last == k {
      InvestedFrame(init, m, m[k := p]);
    } else {
      InvestedReplace(init, m, k, p);
    }
  }

  /** Deleting a listed symbol removes exactly its amount from the sum. */
  lemma {:induction false} InvestedRemove(symbols: seq<string>, m: map<string, Position>, k: string)
    requires Distinct(symbols)
    requires forall s :: s in symbols ==> s in m
    requires k in symbols
    ensures Invested(RemoveKey(symbols, k), m - {k}) == Invested(symbols, m) - m[k].totalInvested
  {
    var init, last := symbols[..|symbols| - 1], symbols[|symbols| - 1];
    assert symbols == init + [last];
    DistinctInit(symbols);
    if last == k {
      assert RemoveKey(symbols, k) == init;
      InvestedFrame(init, m, m - {k});
    } else {
      var rest := RemoveKey(init, k);
      assert RemoveKey(symbols, k) == rest + [last];
      assert forall s :: s in rest ==> s in m - {k};
      InvestedRemove(init, m, k);
      InvestedAppend(rest, m - {k}, last);
    }
  }

  /** `reversed(s)`. */
  function Reversed<T>(s: seq<T>): (r: seq<T>)
    ensures |r| == |s|
    ensures forall i :: 0 <= i < |s| ==> r[i] == s[|s| - 1 - i]
  {
    if s == [] then [] else [s[|s| - 1]] + Reversed(s[..|s| - 1])
  }

  /** The records `show_recent_transactions` lists: the last ten (or all,
      when there are fewer), newest first. */
  function RecentTransactions(log: seq<Transaction>): (r: seq<Transaction>)
    ensures |r| == Min(10, |log|)
    ensures forall i :: 0 <= i < |r| ==> r[i] == log[|log| - 1 - i]
  {
    Reversed(if |log| > 10 then log[|log| - 10..] else log)
  }

  /** The book after a successful purchase of `buy` shares of `sym`. */
  function BuyBook(b: Book, sym: string, buy: Purchase, price: real): Book
    requires sym in b.positions ==> b.positions[sym].shares + buy.shares != 0.0
  {
    Book(if sym in b.positions then b.symbols else b.symbols + [sym],
         b.positions[sym := AfterBuy(Get(b.positions, sym), buy.shares, buy.amount, price)],
         b.cash - buy.amount)
  }

  /** Putting a held position under a new or listed symbol keeps the book sound. */
  lemma PutKeepsSound(b: Book, sym: string, p: Position, cash: real)
    requires Sound(b)
    requires sym != CashKey && sym != StampKey
    requires Held(p) && cash >= 0.0
    ensures Sound(Book(if sym in b.positions then b.symbols else b.symbols + [sym], b.positions[sym := p], cash))
  {
    var symbols := if sym in b.positions then b.symbols else b.symbols + [sym];
    var positions := b.positions[sym := p];
    assert forall s :: s in symbols <==> s in positions;
    assert forall s :: s in positions ==> Held(positions[s]);
  }

  /** A purchase that cash covers keeps the book sound. */
  lemma BuyKeepsSound(b: Book, sym: string, quantity: real, price: real, isDollarAmount: bool)
    requires Sound(b)
    requires quantity > 0.0 && price > 0.0
    requires sym != CashKey && sym != StampKey
    requires b.cash >= PurchaseSize(quantity, price, isDollarAmount).amount
    ensures var buy := PurchaseSize(quantity, price, isDollarAmount);
      sym in b.positions ==> b.positions[sym].shares + buy.shares != 0.0
    ensures Sound(BuyBook(b, sym, PurchaseSize(quantity, price, isDollarAmount), price))
  {
    var buy := PurchaseSize(quantity, price, isDollarAmount);
    var held := Get(b.positions, sym);
    BuyKeepsHeld(held, buy.shares, price);
    PutKeepsSound(b, sym, AfterBuy(held, buy.shares, buy.amount, price), b.cash - buy.amount);
  }

  /** A purchase moves value from cash into the position: the total of the
      book is unchanged. */
  lemma BuyKeepsWorth(b: Book, sym: string, buy: Purchase, price: real)
    requires Indexed(b)
    requires sym in b.positions ==> b.positions[sym].shares + buy.shares != 0.0
    ensures Worth(BuyBook(b, sym, buy, price)) == Worth(b)
  {
    var b' := BuyBook(b, sym, buy, price);
    var p := b'.positions[sym];
    if sym in b.positions {
      InvestedReplace(b.symbols, b.positions, sym, p);
    } else {
      InvestedFrame(b.symbols, b.positions, b'.positions);
      InvestedAppend(b.symbols, b'.positions, sym);
    }
  }

  /** The book after a successful sale of `shares` of the held `sym`. */
  function SellBook(b: Book, sym: string, shares: real, price: real): Book
    requires sym in b.positions
  {
    var p := b.positions[sym];
    match AfterSell(p, shares)
    case None => Book(RemoveKey(b.symbols, sym), b.positions - {sym}, b.cash + shares * price)
    case Some(q) => Book(b.symbols, b.positions[sym := q], b.cash + shares * price)
  }

  /** Deleting a held symbol keeps the book sound. */
  lemma DeleteKeepsSound(b: Book, sym: string, cash: real)
    requires Sound(b)
    requires cash >= 0.0
    ensures Sound(Book(RemoveKey(b.symbols, sym), b.positions - {sym}, cash))
  {
    var positions := b.positions - {sym};
    assert forall s :: s in positions ==> Held(positions[s]);
  }

  /** A sale of at most the shares held keeps the book sound. */
  lemma SellKeepsSound(b: Book, sym: string, shares: real, price: real)
    requires Sound(b)
    requires sym in b.positions
    requires 0.0 <= shares <= b.positions[sym].shares && price > 0.0
    ensures Sound(SellBook(b, sym, shares, price))
  {
    var p := b.positions[sym];
    SellKeepsHeld(p, shares);
    var proceeds := shares * price;
    assert proceeds >= 0.0;
    if AfterSell(p, shares).None? {
      DeleteKeepsSound(b, sym, b.cash + proceeds);
    } else {
      PutKeepsSound(b, sym, AfterSell(p, shares).value, b.cash + proceeds);
    }
  }

  /** A sale changes the total by the proceeds less the cost basis it
      releases from the position. */
  lemma SellWorth(b: Book, sym: string, shares: real, price: real)
    requires Indexed(b)
    requires sym in b.positions
    ensures Worth(SellBook(b, sym, shares, price)) == Worth(b) + shares * price
      - (b.positions[sym].totalInvested - Retained(AfterSell(b.positions[sym], shares)))
  {
    var p := b.positions[sym];
    if AfterSell(p, shares).None? {
      InvestedRemove(b.symbols, b.positions, sym);
    } else {
      InvestedReplace(b.symbols, b.positions, sym, AfterSell(p, shares).value);
    }
  }

  /** The SELL record `sell_stock` logs: the shares sold, the price and the
      proceeds. */
  function SaleRecord(sym: string, shares: real, price: real, isPercentage: bool): Transaction
  {
    Transaction(sym, Sell, shares, price, shares * price, if isPercentage then Percentage else ShareCount)
  }

  class SimplePortfolio {
    var symbols: seq<string>
    var positions: map<string, Position>
    var cash: real
    var log: seq<Transaction>

    function State(): Book
      reads this
    {
      Book(symbols, positions, cash)
    }

    ghost predicate Valid()
      reads this
    {
      Sound(State())
    }

    /** Cash plus the cost basis of every position. */
    function Total(): real
      reads this
      requires Valid()
    {
      Worth(State())
    }

    /** `load_portfolio`: the stored book when the portfolio file could be
        read, the bootstrap seed when it is missing or corrupt; the log is
        the transaction file as it stands. */
    constructor Open(stored: Option<Book>, history: seq<Transaction>)
      requires stored.Some? ==> Sound(stored.value)
      ensures Valid()
      ensures State() == (if stored.Some? then stored.value else Seed)
      ensures log == history
    {
      SeedIsSound();
      var b := if stored.Some? then stored.value else Seed;
      symbols, positions, cash := b.symbols, b.positions, b.cash;
      log := history;
    }

    /** `save_transaction`: append one record to the log. */
    method SaveTransaction(t: Transaction)
      modifies this`log
      ensures log == old(log) + [t]
    {
      log := log + [t];
    }

    /** `buy_stock`. Fails, changing nothing, when cash does not cover the
        cost; otherwise pays for the shares, opens or merges the position
        (see `BuyBook`) and logs one BUY record. */
    method BuyStock(symbol: string, quantity: real, price: real, isDollarAmount: bool) returns (ok: bool)
      requires Valid()
      requires quantity > 0.0 && price > 0.0
      requires Upper(symbol) != CashKey
      modifies this
      ensures Valid()
      ensures ok <==> old(cash) >= PurchaseSize(quantity, price, isDollarAmount).amount
      ensures !ok ==> unchanged(this)
      ensures ok ==>
        var sym, buy := Upper(symbol), PurchaseSize(quantity, price, isDollarAmount);
        && (sym in old(positions) ==> old(positions)[sym].shares + buy.shares != 0.0)
        && State() == BuyBook(old(State()), sym, buy, price)
        && log == old(log) + [Transaction(sym, Buy, buy.shares, price, buy.amount,
                                          if isDollarAmount then DollarAmount else ShareCount)]
      ensures ok ==> Total() == old(Total())
    {
      var sym := Upper(symbol);
      var buy := PurchaseSize(quantity, price, isDollarAmount);
      if cash < buy.amount {
        return false;
      }
      ghost var before := State();
      UpperIsNotStampKey(symbol);

      cash := cash - buy.amount;
      if sym in positions && sym != CashKey {
        positions := positions[sym := AfterBuy(Some(positions[sym]), buy.shares, buy.amount, price)];
      } else {
        positions := positions[sym := AfterBuy(None, buy.shares, buy.amount, price)];
        symbols := symbols + [sym];
      }
      assert State() == BuyBook(before, sym, buy, price);
      assert Valid() by {
        BuyKeepsSound(before, sym, quantity, price, isDollarAmount);
      }
      assert Total() == Worth(before) by {
        BuyKeepsWorth(before, sym, buy, price);
      }
      SaveTransaction(Transaction(sym, Buy, buy.shares, price, buy.amount,
                                  if isDollarAmount then DollarAmount else ShareCount));
      ok := true;
    }

    /** `sell_stock`. Fails, changing nothing, when the symbol is not held
        (or is `CASH`) or when more shares are asked for than are held;
        otherwise credits the proceeds, closes or shrinks the position (see
        `SellBook`) and logs one SELL record. */
    method SellStock(symbol: string, quantity: real, price: real, isPercentage: bool) returns (ok: bool)
      requires Valid()
      requires quantity >= 0.0 && price > 0.0
      modifies this
      ensures Valid()
      ensures ok <==>
        var sym := Upper(symbol);
        sym in old(positions) && SaleShares(old(positions)[sym].shares, quantity, isPercentage) <= old(positions)[sym].shares
      ensures !ok ==> unchanged(this)
      ensures ok ==>
        var sym := Upper(symbol);
        var shares := SaleShares(old(positions)[sym].shares, quantity, isPercentage);
        && State() == SellBook(old(State()), sym, shares, price)
        && log == old(log) + [SaleRecord(sym, shares, price, isPercentage)]
    {
      var sym := Upper(symbol);
      if sym !in positions || sym == CashKey {
        return false;
      }
      var shares := SaleShares(positions[sym].shares, quantity, isPercentage);
      if positions[sym].shares < shares {
        return false;
      }
      Settle(sym, shares, price);
      ghost var settled := State();
      SaveTransaction(SaleRecord(sym, shares, price, isPercentage));
      assert State() == settled;
      ok := true;
    }

    /** The bookkeeping of a sale that `sell_stock` has accepted: credit the
        proceeds, take the shares off the position and delete it once none
        remain. */
    method Settle(sym: string, shares: real, price: real)
      requires Valid()
      requires sym in positions && 0.0 <= shares <= positions[sym].shares && price > 0.0
      modifies this`symbols, this`positions, this`cash
      ensures Valid()
      ensures State() == SellBook(old(State()), sym, shares, price)
    {
      ghost var before := State();
      assert Sound(SellBook(before, sym, shares, price)) by {
        SellKeepsSound(before, sym, shares, price);
      }
      cash := cash + shares * price;
      var remaining := positions[sym].shares - shares;
      if remaining == 0.0 {
        positions := positions - {sym};
        symbols := RemoveKey(symbols, sym);
      } else {
        positions := positions[sym := AfterSell(positions[sym], shares).value];
      }
      assert State() == SellBook(before, sym, shares, price);
    }

    /** The total of `show_portfolio`: one pass over the held symbols adding
        up what is invested, then the cash. */
    method ShowPortfolio() returns (total: real)
      requires Valid()
      ensures total == Total()
    {
      var invested := 0.0;
      var i := 0;
      while i < |symbols|
        invariant 0 <= i <= |symbols|
        invariant invested == Invested(symbols[..i], positions)
      {
        assert symbols[..i + 1][..i] == symbols[..i];
        invested := invested + positions[symbols[i]].totalInvested;
        i := i + 1;
      }
      assert symbols[..i] == symbols;
      total := invested + cash;
    }
  }
}
