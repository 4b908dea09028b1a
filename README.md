# Portfolio ledger, market-open brief and portfolio analysis — a Dafny model

This project models the decision and bookkeeping logic of a small trading
toolkit. It has three parts.

- **The ledger** (`Ledger.dfy`, module `Ledger`) models `SimplePortfolio`.
  - It keeps a portfolio of positions (shares, average cost, total
    invested) in dictionary key order, a cash balance and an append-only
    transaction log.
  - Buying checks that the cash covers the cost. It then pays and either
    opens a position at the purchase price or merges into the held one at
    the weighted-average cost.
  - Selling checks that the symbol is held and that enough shares are
    held. It then credits the proceeds and either closes the position or
    keeps its average cost and rescales what is invested.
  - Each success appends exactly one record to the log. A failure changes
    nothing.
  - The class `Ledger.SimplePortfolio` keeps the ledger state in fields
    that its methods update. The methods are proved against the functions
    `BuyBook` and `SellBook` on a value `Book`. The invariant `Sound` says:
    every symbol is listed once, the reserved keys are not positions, cash
    is never negative, and every position holds something. The lemmas
    prove that the invariant is preserved and what happens to the total.
- **The market-open brief** (`Brief.dfy`, module `MarketBrief`) models
  these rules:
  - the position-alert classifier, with at most one alert per symbol in
    priority order;
  - the volume indicator;
  - the biggest-mover pick;
  - the high-volume list;
  - the overnight-news selection: two articles per symbol, three lines in
    total, titles cut to 60 characters plus an ellipsis;
  - the row filter of the API-key file.

  Each loop is a method proved equal to a specification function. The
  specification functions are filters that keep the input order by
  construction, and lemmas characterise which elements each list holds.
- **The portfolio analysis** (`Analysis.dfy`, module `CloudAnalysis`)
  models the cloud runner's report:
  - the total value;
  - one position analysis per non-reserved key, drawn from an insight
    table with a fallback record;
  - the health verdict, from the share of quantum-computing positions
    against strict 70 % and 50 % thresholds.

  It also shows that the runner reads back the file the ledger writes
  with the ledger's own total.

`Support.dfy` (module `Support`) holds the shared vocabulary. It has an
option type and an ordered dictionary, modelled as a sequence of key/value
pairs in insertion order, with lookup and key removal. All prices, shares
and amounts are exact `real` numbers.

## Model

| member | source | states |
|---|---|---|
| Support.RemoveKey | simple_portfolio.py:134 | `del portfolio[symbol]` on the key order: exactly the other keys remain, still without duplicates, and removing an absent key changes nothing |
| Support.RemoveKeyOrder | simple_portfolio.py:134 | deleting the key at position k of a duplicate-free key order leaves the keys before it and after it in their order, s[..k] + s[k+1..], so the positions shown and saved afterwards keep their order |
| Ledger.Upper | simple_portfolio.py:56 | upper-casing keeps the length, turns each lower-case letter into its upper-case counterpart (code point − 32) and leaves every other character as it was, so `rgti` and `RGTI` name the same position |
| Ledger.UpperIsNotStampKey | simple_portfolio.py:56-71 | a normalised symbol can never be the `last_updated` key |
| Ledger.SeedIsSound | simple_portfolio.py:31-39 | the bootstrap portfolio satisfies the ledger invariant |
| Ledger.SeedWorth | simple_portfolio.py:31-39 | the bootstrap portfolio totals 2400 (650 in cash and 1750 invested) |
| Ledger.SeedBreaksCostIdentity | simple_portfolio.py:33 | the bootstrap RGTI figures do not satisfy invested = shares × average cost (46.15 × 19.50 = 899.925, not 900) |
| Ledger.PurchaseSize | simple_portfolio.py:58-63 | dollar amount = shares × price in both modes; the given quantity is the amount in dollar mode and the share count in share mode; a positive quantity buys positive shares for a positive amount |
| Ledger.AfterBuy | simple_portfolio.py:71-88 | an unheld symbol opens at the purchase price with the amount invested; a held one adds the shares and the amount and has average cost = invested / shares |
| Ledger.BuyKeepsHeld | simple_portfolio.py:71-88 | buying a positive quantity at a positive price never divides by zero and leaves positive shares, cost and amount invested |
| Ledger.WeightedAverageOfTwoFills | simple_portfolio.py:71-82 | two fills average to (s1·p1 + s2·p2) / (s1 + s2) with s1 + s2 shares and s1·p1 + s2·p2 invested |
| Ledger.TenAtTenThenTenAtTwenty | simple_portfolio.py:71-82 | 10 shares at 10 then 10 at 20 give 20 shares at average cost 15 with 300 invested |
| Ledger.SaleShares | simple_portfolio.py:117-122 | share mode sells the given count; percentage mode sells held × (pct / 100), so 100 % is everything and 0–100 % stays between 0 and the shares held |
| Ledger.AfterSell | simple_portfolio.py:131-144 | the position is removed exactly when no shares remain; otherwise it keeps its average cost and invested = remaining × average cost |
| Ledger.SellKeepsHeld | simple_portfolio.py:124-144 | selling at most the shares held leaves either no position or a position with positive shares, cost and amount invested |
| Ledger.SaleReleasesCost | simple_portfolio.py:137-144 | when invested = shares × average cost held before, a sale releases exactly shares sold × average cost of cost basis |
| Ledger.InvestedReplace | simple_portfolio.py:78 | replacing a listed position changes the invested sum by the difference of the two amounts |
| Ledger.InvestedRemove | simple_portfolio.py:134 | deleting a listed position removes exactly its amount from the invested sum |
| Ledger.Reversed | simple_portfolio.py:279 | the reversal has the same length, with element i taken from position n − 1 − i |
| Ledger.RecentTransactions | simple_portfolio.py:277-281 | exactly min(10, n) records, newest first: record i is the log's (n − 1 − i)-th |
| Ledger.BuyKeepsSound | simple_portfolio.py:65-88 | a purchase of a positive quantity that cash covers keeps the ledger invariant (and never divides by zero) |
| Ledger.BuyKeepsWorth | simple_portfolio.py:69-88 | a purchase moves value from cash into the position: cash plus everything invested is unchanged |
| Ledger.SellKeepsSound | simple_portfolio.py:124-144 | a sale of at most the shares held keeps the ledger invariant |
| Ledger.SellWorth | simple_portfolio.py:128-144 | a sale changes the total by the proceeds minus the cost basis released from the position |
| Ledger.SimplePortfolio.Open | simple_portfolio.py:19-39 | the ledger starts from the stored book, or from the bootstrap portfolio when there is none, and satisfies the invariant |
| Ledger.SimplePortfolio.SaveTransaction | simple_portfolio.py:46-53 | one record is appended and earlier records are untouched |
| Ledger.SimplePortfolio.BuyStock | simple_portfolio.py:55-108 | succeeds exactly when cash ≥ the dollar amount; on failure nothing changes; on success the new book is `BuyBook`, one BUY record with the shares, price and amount is appended, the invariant holds and the total is unchanged |
| Ledger.SimplePortfolio.SellStock | simple_portfolio.py:110-164 | succeeds exactly when the symbol is held and the requested shares do not exceed those held; on failure nothing changes; on success the new book is `SellBook`, one SELL record with the shares, price and proceeds is appended, and the invariant holds |
| Ledger.SimplePortfolio.Settle | simple_portfolio.py:128-144 | credits shares × price, closes or rescales the position as `SellBook` says, and keeps the invariant |
| Ledger.SimplePortfolio.ShowPortfolio | simple_portfolio.py:171-190 | the reported total is cash plus the sum of invested over all positions |
| MarketBrief.ChangeThresholdAsPrice | market_open_brief.py:136 | for a positive entry price, a change from entry ≤ pct % holds exactly when price ≤ entry × (1 + pct/100) |
| MarketBrief.LossLinesAsPrices | market_open_brief.py:136-155 | the −20 % and −15 % lines are 0.80 × entry and 0.85 × entry |
| MarketBrief.ClassifyExactly | market_open_brief.py:141-172 | EMERGENCY iff change ≤ −20; STOP_LOSS iff −20 < change ≤ −15; BIG_MOVE iff change > −15 and the daily move is ≥ 5 in absolute value; PROFIT_HARVEST iff change ≥ 50 and the daily move is < 5; no alert otherwise |
| MarketBrief.CurrentPortfolioWellFormed | market_open_brief.py:30-34 | the brief's own portfolio has non-zero entry prices and distinct symbols, so the alert check and the one-alert-per-symbol lemma apply to it |
| MarketBrief.CheckPositionAlerts | market_open_brief.py:126-174 | the loop produces exactly the alerts of the specification, in portfolio order |
| MarketBrief.AlertsExactly | market_open_brief.py:130-172 | an alert is produced iff some held symbol's classification raises it |
| MarketBrief.AlertsOnlyForQuotedHoldings | market_open_brief.py:130-132 | every alert is for a held symbol that has a quote |
| MarketBrief.AtMostOneAlertPerSymbol | market_open_brief.py:130-172 | no two alerts name the same symbol |
| MarketBrief.VolumeIndicator | market_open_brief.py:201-207 | HIGH VOL iff avg > 0 and volume > 2 × avg; ABOVE AVG iff avg > 0 and 1.5 × avg < volume ≤ 2 × avg; nothing when avg ≤ 0 |
| MarketBrief.HighVolumeAgreesWithIndicator | market_open_brief.py:249 | the high-volume test agrees with the HIGH VOL indicator |
| MarketBrief.HighVolumeStocks | market_open_brief.py:247-253 | the loop collects the high-volume symbols of the specification, and only the first three are shown |
| MarketBrief.HighVolumeExactly | market_open_brief.py:247-250 | a symbol is listed iff its quote has avg > 0 and volume > 2 × avg |
| MarketBrief.FindBigMovers | market_open_brief.py:237-240 | the loop collects the big movers of the specification |
| MarketBrief.BigMoversExactly | market_open_brief.py:237-240 | a pair is a big mover iff it is a quoted symbol with its daily change and that change is ≥ 3 in absolute value |
| MarketBrief.BiggestMoverIndex | market_open_brief.py:242-244 | the pick has maximal absolute change and comes before every other maximal candidate, as a stable descending sort's head does |
| MarketBrief.BiggestMoverIsMaximal | market_open_brief.py:237-244 | nothing is reported iff no change reaches 3 in absolute value; otherwise the pick is a quoted candidate whose absolute change is at least every candidate's |
| MarketBrief.Shorten | market_open_brief.py:229 | at most 63 characters, starting with the title's first 60; titles of at most 60 characters are unchanged, longer ones become 60 characters plus "..." |
| MarketBrief.GetOvernightNews | market_open_brief.py:96-124 | nothing without a NewsAPI key; otherwise the symbols with articles, each with its first two |
| MarketBrief.KeptNewsTopTwo | market_open_brief.py:115-117 | a symbol's entry is kept iff it has articles, and it keeps its first min(2, n) of them |
| MarketBrief.FirstHeadlines | market_open_brief.py:225-231 | exactly min(3, n) lines, line k the shortened headline of story k |
| MarketBrief.NewsLinesBounded | market_open_brief.py:222-231 | at most three news lines, each title at most 63 characters |
| MarketBrief.EmitArticles | market_open_brief.py:227-231 | the inner loop extends the lines with this symbol's stories, and the counter stays equal to the number of lines |
| MarketBrief.OvernightNewsLines | market_open_brief.py:222-231 | the nested loop emits exactly the first three stories' headlines in news order |
| MarketBrief.StripMeaning | market_open_brief.py:54-55 | the stripped text has no leading or trailing white space (the characters `str.isspace` accepts, 0x1C–0x1F included), is empty iff the text is all white space, and is the slice s[i..j] where everything before i and from j on is white space, so exactly the white space at the two ends is removed |
| MarketBrief.StripSeparatorControl | market_open_brief.py:55 | the separator controls 0x1C and 0x1F are stripped like blanks: a key column `\x1cFMP\x1f` names `FMP` |
| MarketBrief.LoadApiKeys | market_open_brief.py:46-59 | an unreadable file gives no keys; otherwise the keys are those the row filter builds |
| MarketBrief.ApiKeysFromRows | market_open_brief.py:53-55 | a name is a key iff some row has at least two columns, a non-blank second column and that name as its stripped first column |
| MarketBrief.LaterRowWins | market_open_brief.py:53-55 | a qualifying row not overridden by a later row for the same name decides that name's stripped value |
| CloudAnalysis.Holdings | cloud_algorithm_runner.py:78-80 | the positions are at most the entries, and none of them is `CASH` or `last_updated` |
| CloudAnalysis.HoldingsExactly | cloud_algorithm_runner.py:78-80 | an entry is a position iff it is in the portfolio under a non-reserved key |
| CloudAnalysis.InvestedTotalOfHoldings | cloud_algorithm_runner.py:78-85 | only the positions contribute to the invested sum |
| CloudAnalysis.InsightTable | cloud_algorithm_runner.py:105-135 | the quantum sector is exactly RGTI, QUBT and IONQ (the symbols the health check counts); HIGH risk is exactly RGTI and QUBT; Defense AI is exactly BBAI; every other symbol gets the fallback with MEDIUM risk |
| CloudAnalysis.GetPositionAnalysis | cloud_algorithm_runner.py:101-148 | symbol, shares, average cost and invested are echoed unchanged; table symbols get their entry and others the fallback record |
| CloudAnalysis.AnalysesFollowHoldings | cloud_algorithm_runner.py:78-90 | exactly one analysis per position, the k-th for the k-th position |
| CloudAnalysis.QuantumCount | cloud_algorithm_runner.py:158-165 | the quantum positions never outnumber the positions |
| CloudAnalysis.Concentration | cloud_algorithm_runner.py:167 | between 0 and 100; 0 without positions; 100 when every position is a quantum one |
| CloudAnalysis.StatusFor | cloud_algorithm_runner.py:169-177 | HIGH QUANTUM CONCENTRATION iff > 70; QUANTUM FOCUSED iff 50 < c ≤ 70; DIVERSIFIED iff ≤ 50 |
| CloudAnalysis.StatusByCounts | cloud_algorithm_runner.py:158-177 | the verdict from the counts: high iff 10q > 7t, focused iff 2q > t and 10q ≤ 7t, diversified iff 2q ≤ t (so exactly half is diversified) |
| CloudAnalysis.AssessPortfolioHealth | cloud_algorithm_runner.py:150-183 | the counting loop and threshold chain give the verdict of the specification |
| CloudAnalysis.AnalyzePositions | cloud_algorithm_runner.py:68-99 | no data iff the portfolio is missing or empty; otherwise the total is cash (0 if absent) plus the invested sum (0 where missing) over the positions, with the analyses in key order and the health verdict |
| CloudAnalysis.LedgerSnapshotAgrees | cloud_algorithm_runner.py:74-92 | reading back the ledger's file gives the ledger's own total and one position (and one analysis) per ledger position |
| CloudAnalysis.LedgerSnapshotHealth | cloud_algorithm_runner.py:158-167 | the verdict on the ledger's file depends only on how many of its symbols are quantum ones |
| CloudAnalysis.SeedQuantumSymbols | simple_portfolio.py:32-36 | three of the four bootstrap symbols are quantum ones |
| CloudAnalysis.SeedReportTotal | cloud_algorithm_runner.py:74-92 | the bootstrap portfolio reads back as 2400 |
| CloudAnalysis.SeedReportHealth | cloud_algorithm_runner.py:169-171 | the bootstrap portfolio (75 % quantum) is a high quantum concentration |

## Left out

- Network access is left out: the quote and news HTTP fetches and all Telegram sending. Quotes, fetched articles and the key file are inputs.
- `send_status_update.py` is not part of this model. It is environment lookup, canned text and a message POST.
- File I/O is left out: the JSON load and save, the CSV append and read, and the existence checks. The portfolio file is a `Book` or a `Snapshot`, and the transaction file is the `log` sequence. A missing or corrupt file is an `Option` input.
- Timestamps (`last_updated`, the record date), sleeps, printing, emoji and HTML text, `:.2f`/`:.0f` formatting, the interactive menu and the command line are left out. The health report keeps the exposure as a number, not the formatted string.
- IEEE floating point is not modelled. All numbers are exact reals, so the `remaining_shares == 0` test is exact here.
- Ledger.SimplePortfolio.BuyStock: requires a positive quantity, a positive price and an upper-cased symbol other than `CASH`. The source checks none of these. A zero quantity can divide by zero, and buying `CASH` would overwrite the cash entry.
- Ledger.SimplePortfolio.SellStock: requires a non-negative quantity and a positive price, which the source does not check.
- Ledger.SimplePortfolio.SellStock: its contract gives the new book as `SellBook`. The change of the total is stated by the lemmas `SellWorth` and `SaleReleasesCost`, not by the method itself.
- MarketBrief.CheckPositionAlerts: requires every entry price to be non-zero, since the change from entry divides by it.
- The bootstrap figures are rounded and do not satisfy invested = shares × average cost. That identity is therefore not part of the ledger invariant. `AfterBuy` and `AfterSell` re-establish it for every position they produce.
- Ledger.Upper: upper-casing is modelled for the ASCII letters only. A non-ASCII letter such as `é` is left as it is, where Python would upper-case it.
- CSV parsing of the key file is left out. The file is given as its rows of columns.
- The biggest mover is modelled as the earliest entry with maximal absolute change. That is the head of the stable descending sort; the sort itself is not modelled.
- `defense_positions` is counted by `assess_portfolio_health` but never used, so it is left out.
- The alert message texts and the static market-insight text are left out. An alert keeps its kind, symbol and the two changes.
- In the ledger the key order holds only positions, and cash is a separate field. In the file written by the ledger, the model places `CASH` and `last_updated` after the positions. None of the totals depends on that order.
