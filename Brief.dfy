/** The decision rules of the market-open brief: the per-position alert
    classifier, the volume indicator, the biggest-mover pick, the
    high-volume list, the capped and shortened overnight-news lines, the
    article cap per symbol and the row filter of the API-key file.
    Quotes and news arrive as ordered dictionaries (sequences of key/value
    pairs, in the order the fetch loop inserted them). */
module MarketBrief {
  import opened Support

  /** One quote as `get_pre_market_data` stores it (missing fields read as 0). */
  datatype Quote = Quote(
    price: real, change: real, changePct: real, volume: real, avgVolume: real,
    dayHigh: real, dayLow: real, previousClose: real)

  /** A position of the brief's fixed portfolio. */
  datatype Holding = Holding(shares: real, entryPrice: real)

  datatype AlertKind = Emergency | StopLoss | BigMove | ProfitHarvest

  /** An alert: its type, the symbol, the change from entry and the daily
      change the message reports. */
  datatype Alert = Alert(kind: AlertKind, symbol: string, fromEntry: real, daily: real)

  /** The portfolio the brief watches. */
  const CurrentPortfolio: seq<(string, Holding)> := [
    ("RGTI", Holding(3.14, 19.09)),
    ("BBAI", Holding(11.86, 5.06)),
    ("LAES", Holding(17.80, 3.37))]


  // ---------------------------------------------------------------------
  // Position alerts

  /** Percentage change of the current price from the entry price. */
  function ChangeFromEntry(current: real, entry: real): real
    requires entry != 0.0
  {
    (current - entry) / entry * 100.0
  }

  /** For a positive entry price, a threshold on the change from entry is a
      threshold on the price itself: at most `pct` percent means at most
      `entry * (1 + pct / 100)`. */
  lemma ChangeThresholdAsPrice(current: real, entry: real, pct: real)
    requires entry > 0.0
    ensures ChangeFromEntry(current, entry) <= pct <==> current <= entry * (1.0 + pct / 100.0)
  {
    var bound := entry * (1.0 + pct / 100.0);
    assert bound == entry + entry * pct / 100.0;
    assert ChangeFromEntry(current, entry) == (current - entry) * 100.0 / entry;
    if ChangeFromEntry(current, entry) <= pct {
      assert (current - entry) * 100.0 <= pct * entry;
    } else {
      assert (current - entry) * 100.0 > pct * entry;
    }
  }

  /** The emergency line is a price 20% under entry, the stop-loss line 15%
      under entry. */
  lemma LossLinesAsPrices(current: real, entry: real)
    requires entry > 0.0
    ensures ChangeFromEntry(current, entry) <= -20.0 <==> current <= 0.8 * entry
    ensures ChangeFromEntry(current, entry) <= -15.0 <==> current <= 0.85 * entry
  {
    ChangeThresholdAsPrice(current, entry, -20.0);
    ChangeThresholdAsPrice(current, entry, -15.0);
  }

  /** The `if`/`elif` chain of `check_position_alerts`. */
  function Classify(fromEntry: real, daily: real): Option<AlertKind>
  {
    if fromEntry <= -20.0 then Some(Emergency)
    else if fromEntry <= -15.0 then Some(StopLoss)
    else if Abs(daily) >= 5.0 then Some(BigMove)
    else if fromEntry >= 50.0 then Some(ProfitHarvest)
    else None
  }

  /** The first rule that applies decides, so each kind is the conjunction of
      its own test and the failure of every earlier one: a fall of exactly
      20% is an emergency and never a stop-loss, a big daily move outranks
      profit harvesting. */
  lemma ClassifyExactly(fromEntry: real, daily: real)
    ensures var k := Classify(fromEntry, daily);
      && (k == Some(Emergency) <==> fromEntry <= -20.0)
      && (k == Some(StopLoss) <==> -20.0 < fromEntry <= -15.0)
      && (k == Some(BigMove) <==> fromEntry > -15.0 && Abs(daily) >= 5.0)
      && (k == Some(ProfitHarvest) <==> fromEntry >= 50.0 && Abs(daily) < 5.0)
      && (k == None <==> -15.0 < fromEntry < 50.0 && Abs(daily) < 5.0)
  {
  }

  /** The alert one quoted position raises, if any. */
  function AlertFor(symbol: string, h: Holding, q: Quote): Option<Alert>
    requires h.entryPrice != 0.0
  {
    var fromEntry := ChangeFromEntry(q.price, h.entryPrice);
    match Classify(fromEntry, q.changePct)
    case None => None
    case Some(kind) => Some(Alert(kind, symbol, fromEntry, q.changePct))
  }

  predicate EntriesNonZero(holdings: seq<(string, Holding)>)
  {
    forall i :: 0 <= i < |holdings| ==> holdings[i].1.entryPrice != 0.0
  }

  /** The brief's own portfolio meets what the alert check needs: every
      entry price is non-zero and every symbol is listed once. */
  lemma CurrentPortfolioWellFormed()
    ensures EntriesNonZero(CurrentPortfolio)
    ensures DistinctKeys(CurrentPortfolio)
  {
    var p := CurrentPortfolio;
    assert p[0].0[0] == 'R' && p[1].0[0] == 'B' && p[2].0[0] == 'L';
  }

  /** The alert a portfolio entry raises: none without a quote, otherwise
      what the classifier says. */
  function Raised(entry: (string, Holding), market: seq<(string, Quote)>): Option<Alert>
    requires entry.1.entryPrice != 0.0
  {
    match Lookup(market, entry.0)
    case None => None
    case Some(q) => AlertFor(entry.0, entry.1, q)
  }

  /** What each portfolio entry raises, in portfolio order. */
  function RaisedEach(holdings: seq<(string, Holding)>, market: seq<(string, Quote)>): (r: seq<Option<Alert>>)
    requires EntriesNonZero(holdings)
    ensures |r| == |holdings|
    ensures forall i :: 0 <= i < |holdings| ==> r[i] == Raised(holdings[i], market)
  {
    seq(|holdings|, i requires 0 <= i < |holdings| => Raised(holdings[i], market))
  }

  /** The alerts of `check_position_alerts`, in portfolio order. */
  function Alerts(holdings: seq<(string, Holding)>, market: seq<(string, Quote)>): seq<Alert>
    requires EntriesNonZero(holdings)
  {
    Somes(RaisedEach(holdings, market))
  }

  /** The portfolio entry after `holdings` adds its alert, if it raises one. */
  lemma AlertsSnoc(holdings: seq<(string, Holding)>, entry: (string, Holding), market: seq<(string, Quote)>)
    requires EntriesNonZero(holdings) && entry.1.entryPrice != 0.0
    ensures EntriesNonZero(holdings + [entry])
    ensures Alerts(holdings + [entry], market) ==
      Alerts(holdings, market) + (if Raised(entry, market).Some? then [Raised(entry, market).value] else [])
  {
    var longer := holdings + [entry];
    assert forall i :: 0 <= i < |holdings| ==> longer[i] == holdings[i];
    assert RaisedEach(longer, market) == RaisedEach(holdings, market) + [Raised(entry, market)];
    SomesSnoc(RaisedEach(holdings, market), Raised(entry, market));
  }

  /** `check_position_alerts`: one pass over the portfolio, skipping the
      symbols without a quote. */
  method CheckPositionAlerts(holdings: seq<(string, Holding)>, market: seq<(string, Quote)>)
    returns (alerts: seq<Alert>)
    requires EntriesNonZero(holdings)
    ensures alerts == Alerts(holdings, market)
  {
    alerts := [];
    var i := 0;
    while i < |holdings|
      invariant 0 <= i <= |holdings|
      invariant EntriesNonZero(holdings[..i])
      invariant alerts == Alerts(holdings[..i], market)
    {
      assert holdings[..i + 1] == holdings[..i] + [holdings[i]];
      AlertsSnoc(holdings[..i], holdings[i], market);
      var (symbol, h) := holdings[i];
      var quote := Lookup(market, symbol);
      if quote.Some? {
        var alert := AlertFor(symbol, h, quote.value);
        if alert.Some? {
          alerts := alerts + [alert.value];
        }
      }
      i := i + 1;
    }
    assert holdings[..i] == holdings;
  }

  /** An alert is raised exactly when some quoted portfolio entry
      classifies. */
  lemma AlertsExactly(holdings: seq<(string, Holding)>, market: seq<(string, Quote)>, a: Alert)
    requires EntriesNonZero(holdings)
    ensures a in Alerts(holdings, market) <==>
      exists i :: 0 <= i < |holdings| && Raised(holdings[i], market) == Some(a)
  {
    SomesExactly(RaisedEach(holdings, market), a);
  }

  /** Every alert names a portfolio symbol that has a quote. */
  lemma AlertsOnlyForQuotedHoldings(holdings: seq<(string, Holding)>, market: seq<(string, Quote)>, k: int)
    requires EntriesNonZero(holdings)
    requires 0 <= k < |Alerts(holdings, market)|
    ensures exists i :: 0 <= i < |holdings| && holdings[i].0 == Alerts(holdings, market)[k].symbol
    ensures Lookup(market, Alerts(holdings, market)[k].symbol).Some?
  {
    var a := Alerts(holdings, market)[k];
    AlertsExactly(holdings, market, a);
    var i :| 0 <= i < |holdings| && Raised(holdings[i], market) == Some(a);
    assert holdings[i].0 == a.symbol;
  }

  /** Because of the `elif` chain, a portfolio without repeated symbols gets
      at most one alert per symbol. */
  lemma {:induction false} AtMostOneAlertPerSymbol(holdings: seq<(string, Holding)>, market: seq<(string, Quote)>)
    requires EntriesNonZero(holdings)
    requires DistinctKeys(holdings)
    ensures var alerts := Alerts(holdings, market);
      forall j, k :: 0 <= j < k < |alerts| ==> alerts[j].symbol != alerts[k].symbol
  {
    if holdings != [] {
      var n := |holdings| - 1;
      var init := holdings[..n];
      assert holdings == init + [holdings[n]];
      AlertsSnoc(init, holdings[n], market);
      AtMostOneAlertPerSymbol(init, market);
      var earlier := Alerts(init, market);
      forall k | 0 <= k < |earlier|
        ensures earlier[k].symbol != holdings[n].0
      {
        AlertsOnlyForQuotedHoldings(init, market, k);
        var i :| 0 <= i < |init| && init[i].0 == earlier[k].symbol;
        assert init[i] == holdings[i];
      }
      match Raised(holdings[n], market)
      case None =>
      case Some(a) =>
        assert a.symbol == holdings[n].0;
    }
  }

  // ---------------------------------------------------------------------
  // Volume indicator and high-volume list

  datatype VolumeTag = Ordinary | AboveAverage | HighVolume

  /** For a positive divisor, `v / a > c` is `v > c * a`. */
  lemma RatioAbove(v: real, a: real, c: real)
    requires a > 0.0
    ensures v / a > c <==> v > c * a
  {
    assert v == (v / a) * a;
    if v / a > c {
      assert (v / a) * a > c * a;
    } else {
      assert (v / a) * a <= c * a;
    }
  }

  /** The indicator after a portfolio quote: volume over average volume
      above 2 is high, above 1.5 is above average; with no positive average
      there is no tag. */
  function VolumeIndicator(volume: real, avgVolume: real): (t: VolumeTag)
    ensures t == HighVolume <==> avgVolume > 0.0 && volume > 2.0 * avgVolume
    ensures t == AboveAverage <==> avgVolume > 0.0 && 1.5 * avgVolume < volume <= 2.0 * avgVolume
    ensures avgVolume <= 0.0 ==> t == Ordinary
  {
    if avgVolume > 0.0 then
      RatioAbove(volume, avgVolume, 2.0);
      RatioAbove(volume, avgVolume, 1.5);
      var ratio := volume / avgVolume;
      if ratio > 2.0 then HighVolume
      else if ratio > 1.5 then AboveAverage
      else Ordinary
    else Ordinary
  }

  /** The test of the high-volume scan in the trading-focus section. */
  predicate IsHighVolume(q: Quote)
  {
    q.avgVolume > 0.0 && q.volume / q.avgVolume > 2.0
  }

  /** The scan and the indicator agree on what high volume is. */
  lemma HighVolumeAgreesWithIndicator(q: Quote)
    ensures IsHighVolume(q) <==> VolumeIndicator(q.volume, q.avgVolume) == HighVolume
  {
    if q.avgVolume > 0.0 {
      RatioAbove(q.volume, q.avgVolume, 2.0);
    }
  }

  /** The symbols of the high-volume scan, in quote order. */
  function HighVolumeSymbols(market: seq<(string, Quote)>): seq<string>
  {
    if market == [] then []
    else
      var n := |market| - 1;
      var earlier := HighVolumeSymbols(market[..n]);
      if IsHighVolume(market[n].1) then earlier + [market[n].0] else earlier
  }

  /** The high-volume scan, and the first three of its symbols, which are
      what the brief shows. */
  method HighVolumeStocks(market: seq<(string, Quote)>) returns (highVol: seq<string>, shown: seq<string>)
    ensures highVol == HighVolumeSymbols(market)
    ensures shown == highVol[..Min(3, |highVol|)]
  {
    highVol := [];
    var i := 0;
    while i < |market|
      invariant 0 <= i <= |market|
      invariant highVol == HighVolumeSymbols(market[..i])
    {
      assert market[..i + 1][..i] == market[..i];
      var (symbol, data) := market[i];
      if data.avgVolume > 0.0 && data.volume / data.avgVolume > 2.0 {
        highVol := highVol + [symbol];
      }
      i := i + 1;
    }
    assert market[..i] == market;
    shown := if |highVol| > 3 then highVol[..3] else highVol;
  }

  /** A symbol is listed exactly when one of its quotes has positive average
      volume and more than twice that volume. */
  lemma {:induction false} HighVolumeExactly(market: seq<(string, Quote)>, s: string)
    ensures s in HighVolumeSymbols(market) <==>
      exists i :: 0 <= i < |market| && market[i].0 == s && market[i].1.avgVolume > 0.0
                  && market[i].1.volume > 2.0 * market[i].1.avgVolume
  {
    if market != [] {
      var n := |market| - 1;
      var init := market[..n];
      HighVolumeExactly(init, s);
      if market[n].1.avgVolume > 0.0 {
        RatioAbove(market[n].1.volume, market[n].1.avgVolume, 2.0);
      }
      if s in HighVolumeSymbols(init) {
        var i :| 0 <= i < |init| && init[i].0 == s && init[i].1.avgVolume > 0.0
                 && init[i].1.volume > 2.0 * init[i].1.avgVolume;
        assert market[i] == init[i];
      }
      if i :| 0 <= i < |market| && market[i].0 == s && market[i].1.avgVolume > 0.0
              && market[i].1.volume > 2.0 * market[i].1.avgVolume {
        if i < n {
          assert init[i] == market[i];
        }
      }
    }
  }

  // ---------------------------------------------------------------------
  // Biggest mover

  /** The (symbol, daily change) pairs with a move of at least 3%, in quote
      order. */
  function BigMovers(market: seq<(string, Quote)>): seq<(string, real)>
  {
    if market == [] then []
    else
      var n := |market| - 1;
      var earlier := BigMovers(market[..n]);
      if Abs(market[n].1.changePct) >= 3.0 then earlier + [(market[n].0, market[n].1.changePct)] else earlier
  }

  /** The big-mover scan of the trading-focus section. */
  method FindBigMovers(market: seq<(string, Quote)>) returns (bigMovers: seq<(string, real)>)
    ensures bigMovers == BigMovers(market)
  {
    bigMovers := [];
    var i := 0;
    while i < |market|
      invariant 0 <= i <= |market|
      invariant bigMovers == BigMovers(market[..i])
    {
      assert market[..i + 1][..i] == market[..i];
      var (symbol, data) := market[i];
      if Abs(data.changePct) >= 3.0 {
        bigMovers := bigMovers + [(symbol, data.changePct)];
      }
      i := i + 1;
    }
    assert market[..i] == market;
  }

  /** A pair is a big mover exactly when some quote moved at least 3%. */
  lemma {:induction false} BigMoversExactly(market: seq<(string, Quote)>, m: (string, real))
    ensures m in BigMovers(market) <==>
      exists i :: 0 <= i < |market| && m == (market[i].0, market[i].1.changePct) && Abs(m.1) >= 3.0
  {
    if market != [] {
      var n := |market| - 1;
      var init := market[..n];
      BigMoversExactly(init, m);
      if m in BigMovers(init) {
        var i :| 0 <= i < |init| && m == (init[i].0, init[i].1.changePct) && Abs(m.1) >= 3.0;
        assert market[i] == init[i];
      }
      if i :| 0 <= i < |market| && m == (market[i].0, market[i].1.changePct) && Abs(m.1) >= 3.0 {
        if i < n {
          assert init[i] == market[i];
        }
      }
    }
  }

  /** Position of the first pair whose move has the largest magnitude: what
      a stable sort by descending magnitude puts first. */
  function BiggestMoverIndex(movers: seq<(string, real)>): (k: nat)
    requires movers != []
    ensures k < |movers|
    ensures forall j :: 0 <= j < |movers| ==> Abs(movers[j].1) <= Abs(movers[k].1)
    ensures forall j :: 0 <= j < k ==> Abs(movers[j].1) < Abs(movers[k].1)
  {
    var n := |movers| - 1;
    if n == 0 then 0
    else
      var k := BiggestMoverIndex(movers[..n]);
      assert forall j :: 0 <= j < n ==> movers[..n][j] == movers[j];
      if Abs(movers[n].1) > Abs(movers[k].1) then n else k
  }

  /** The biggest mover the brief reports, if any quote moved 3% or more. */
  function BiggestMover(market: seq<(string, Quote)>): Option<(string, real)>
  {
    var movers := BigMovers(market);
    if movers == [] then None else Some(movers[BiggestMoverIndex(movers)])
  }

  /** Nothing is reported when no quote moved 3%; otherwise the reported
      pair is a quote that moved 3% or more and no such quote moved more. */
  lemma BiggestMoverIsMaximal(market: seq<(string, Quote)>)
    ensures BiggestMover(market).None? <==>
      forall i :: 0 <= i < |market| ==> Abs(market[i].1.changePct) < 3.0
    ensures BiggestMover(market).Some? ==>
      var m := BiggestMover(market).value;
      && (exists i :: 0 <= i < |market| && m == (market[i].0, market[i].1.changePct))
      && Abs(m.1) >= 3.0
      && forall i :: 0 <= i < |market| && Abs(market[i].1.changePct) >= 3.0 ==>
           Abs(market[i].1.changePct) <= Abs(m.1)
  {
    var movers := BigMovers(market);
    forall i | 0 <= i < |market| && Abs(market[i].1.changePct) >= 3.0
      ensures (market[i].0, market[i].1.changePct) in movers
    {
      BigMoversExactly(market, (market[i].0, market[i].1.changePct));
    }
    if movers != [] {
      var m := movers[BiggestMoverIndex(movers)];
      BigMoversExactly(market, m);
    }
  }

  // ---------------------------------------------------------------------
  // Overnight news

  /** A news article; only its title is used. */
  datatype Article = Article(title: Option<string>)

  /** `article.get('title', '')`. */
  function Title(a: Article): string
  {
    if a.title.Some? then a.title.value else ""
  }

  /** A headline as printed: up to 60 characters, and "..." after a title
      that was longer. */
  function Shorten(title: string): (r: string)
    ensures |r| <= 63
    ensures title[..Min(60, |title|)] <= r
    ensures |title| <= 60 ==> r == title
    ensures |title| > 60 ==> |r| == 63 && r[60..] == "..."
  {
    if |title| > 60 then title[..60] + "..." else title
  }

  /** `articles[:2]` of `get_overnight_news`, kept only when the response
      had articles. */
  function KeptNews(fetched: seq<(string, seq<Article>)>): seq<(string, seq<Article>)>
  {
    if fetched == [] then []
    else
      var n := |fetched| - 1;
      var (symbol, articles) := fetched[n];
      var earlier := KeptNews(fetched[..n]);
      if articles != [] then earlier + [(symbol, articles[..Min(2, |articles|)])] else earlier
  }

  /** `get_overnight_news` given the key file and the article list each
      symbol's request returned (symbols whose request failed are absent):
      nothing without a `NewsAPI` key. */
  method GetOvernightNews(apiKeys: map<string, string>, fetched: seq<(string, seq<Article>)>)
    returns (news: seq<(string, seq<Article>)>)
    ensures "NewsAPI" !in apiKeys ==> news == []
    ensures "NewsAPI" in apiKeys ==> news == KeptNews(fetched)
  {
    news := [];
    if "NewsAPI" !in apiKeys {
      return;
    }
    var i := 0;
    while i < |fetched|
      invariant 0 <= i <= |fetched|
      invariant news == KeptNews(fetched[..i])
    {
      assert fetched[..i + 1][..i] == fetched[..i];
      var (symbol, articles) := fetched[i];
      if articles != [] {
        assert articles[..|articles|] == articles;
        news := news + [(symbol, if |articles| > 2 then articles[..2] else articles)];
      }
      i := i + 1;
    }
    assert fetched[..i] == fetched;
  }

  /** Every symbol kept has one or two articles, the first ones its
      response listed; a symbol is kept exactly when its response had any. */
  lemma {:induction false} KeptNewsTopTwo(fetched: seq<(string, seq<Article>)>, e: (string, seq<Article>))
    ensures e in KeptNews(fetched) <==>
      exists i :: 0 <= i < |fetched| && fetched[i].0 == e.0 && fetched[i].1 != []
                  && e.1 == fetched[i].1[..Min(2, |fetched[i].1|)]
    ensures e in KeptNews(fetched) ==> 1 <= |e.1| <= 2
  {
    if fetched != [] {
      var n := |fetched| - 1;
      var init := fetched[..n];
      KeptNewsTopTwo(init, e);
      if e in KeptNews(init) {
        var i :| 0 <= i < |init| && init[i].0 == e.0 && init[i].1 != []
                 && e.1 == init[i].1[..Min(2, |init[i].1|)];
        assert fetched[i] == init[i];
      }
      if i :| 0 <= i < |fetched| && fetched[i].0 == e.0 && fetched[i].1 != []
              && e.1 == fetched[i].1[..Min(2, |fetched[i].1|)] {
        if i < n {
          assert init[i] == fetched[i];
        }
      }
    }
  }

  /** The articles of one symbol, each paired with the symbol. */
  function Tagged(symbol: string, articles: seq<Article>): (r: seq<(string, Article)>)
    ensures |r| == |articles|
    ensures forall j :: 0 <= j < |r| ==> r[j] == (symbol, articles[j])
  {
    seq(|articles|, j requires 0 <= j < |articles| => (symbol, articles[j]))
  }

  /** Every (symbol, article) story of the news dictionary, in order. */
  function Stories(news: seq<(string, seq<Article>)>): seq<(string, Article)>
  {
    if news == [] then []
    else
      var n := |news| - 1;
      Stories(news[..n]) + Tagged(news[n].0, news[n].1)
  }

  datatype NewsLine = NewsLine(symbol: string, title: string)

  function Headline(story: (string, Article)): NewsLine
  {
    NewsLine(story.0, Shorten(Title(story.1)))
  }

  /** The first three stories, shortened. */
  function FirstHeadlines(stories: seq<(string, Article)>): (lines: seq<NewsLine>)
    ensures |lines| == Min(3, |stories|)
    ensures forall k :: 0 <= k < |lines| ==> lines[k] == Headline(stories[k])
  {
    seq(Min(3, |stories|), k requires 0 <= k < Min(3, |stories|) => Headline(stories[k]))
  }

  /** One more story adds a line while fewer than three were emitted, and
      nothing afterwards. */
  lemma FirstHeadlinesSnoc(stories: seq<(string, Article)>, story: (string, Article))
    ensures FirstHeadlines(stories + [story]) ==
      if |stories| < 3 then FirstHeadlines(stories) + [Headline(story)] else FirstHeadlines(stories)
  {
    var longer := stories + [story];
    assert forall k :: 0 <= k < |stories| ==> longer[k] == stories[k];
  }

  /** The news lines of the brief. */
  function NewsLines(news: seq<(string, seq<Article>)>): seq<NewsLine>
  {
    FirstHeadlines(Stories(news))
  }

  /** At most three news lines, each naming a story's symbol, with a title
      of at most 63 characters. */
  lemma NewsLinesBounded(news: seq<(string, seq<Article>)>)
    ensures |NewsLines(news)| <= 3
    ensures forall line :: line in NewsLines(news) ==> |line.title| <= 63
  {
  }

  /** The inner loop of the overnight-news section: the articles of one
      symbol, emitted while fewer than three lines have been. */
  method EmitArticles(symbol: string, articles: seq<Article>, ghost stories: seq<(string, Article)>,
                      lines: seq<NewsLine>, newsCount: int)
    returns (lines': seq<NewsLine>, newsCount': int)
    requires lines == FirstHeadlines(stories) && newsCount == |lines|
    ensures lines' == FirstHeadlines(stories + Tagged(symbol, articles)) && newsCount' == |lines'|
  {
    lines', newsCount' := lines, newsCount;
    var j := 0;
    while j < |articles|
      invariant 0 <= j <= |articles|
      invariant lines' == FirstHeadlines(stories + Tagged(symbol, articles[..j])) && newsCount' == |lines'|
    {
      ghost var seen := stories + Tagged(symbol, articles[..j]);
      assert stories + Tagged(symbol, articles[..j + 1]) == seen + [(symbol, articles[j])];
      FirstHeadlinesSnoc(seen, (symbol, articles[j]));
      if newsCount' < 3 {
        lines' := lines' + [NewsLine(symbol, Shorten(Title(articles[j])))];
        newsCount' := newsCount' + 1;
      }
      j := j + 1;
    }
    assert articles[..j] == articles;
  }

  /** The overnight-news section: every symbol's articles in turn, with one
      counter of the lines emitted. */
  method OvernightNewsLines(news: seq<(string, seq<Article>)>) returns (lines: seq<NewsLine>)
    ensures lines == NewsLines(news)
  {
    lines := [];
    var newsCount := 0;
    var i := 0;
    while i < |news|
      invariant 0 <= i <= |news|
      invariant lines == FirstHeadlines(Stories(news[..i])) && newsCount == |lines|
    {
      assert news[..i + 1][..i] == news[..i];
      var (symbol, articles) := news[i];
      lines, newsCount := EmitArticles(symbol, articles, Stories(news[..i]), lines, newsCount);
      i := i + 1;
    }
    assert news[..i] == news;
  }

  // ---------------------------------------------------------------------
  // API keys

  /** The characters `str.strip` removes: those `str.isspace` accepts,
      the ASCII controls 0x09-0x0D and 0x1C-0x1F, the space, and the
      Unicode spaces and separators. */
  predicate IsSpace(c: char)
  {
    || '\U{09}' <= c <= '\U{0D}'
    || '\U{1C}' <= c <= '\U{20}'
    || c == '\U{85}' || c == '\U{A0}' || c == '\U{1680}'
    || '\U{2000}' <= c <= '\U{200A}'
    || c == '\U{2028}' || c == '\U{2029}' || c == '\U{202F}' || c == '\U{205F}' || c == '\U{3000}'
  }

  /** Where the text starts once the whitespace from `from` on is skipped. */
  function SkipSpaces(s: string, from: nat): (k: nat)
    requires from <= |s|
    ensures from <= k <= |s|
    ensures forall i :: from <= i < k ==> IsSpace(s[i])
    ensures k == |s| || !IsSpace(s[k])
    decreases |s| - from
  {
    if from < |s| && IsSpace(s[from]) then SkipSpaces(s, from + 1) else from
  }

  /** Where the text ends once the whitespace before `to` is dropped, never
      going below `lo`. */
  function DropSpaces(s: string, lo: nat, to: nat): (k: nat)
    requires lo <= to <= |s|
    ensures lo <= k <= to
    ensures forall i :: k <= i < to ==> IsSpace(s[i])
    ensures k == lo || !IsSpace(s[k - 1])
  {
    if to > lo && IsSpace(s[to - 1]) then DropSpaces(s, lo, to - 1) else to
  }

  /** `str.strip`. */
  function Strip(s: string): string
  {
    var start := SkipSpaces(s, 0);
    s[start..DropSpaces(s, start, |s|)]
  }

  /** `str.strip` removes exactly the whitespace at the two ends: the result
      is the slice between a whitespace prefix and a whitespace suffix, it
      neither starts nor ends with whitespace, and it is empty exactly when
      the text is all whitespace. */
  lemma StripMeaning(s: string)
    ensures var r := Strip(s);
      && (r == [] || (!IsSpace(r[0]) && !IsSpace(r[|r| - 1])))
      && (r == [] <==> forall i :: 0 <= i < |s| ==> IsSpace(s[i]))
      && exists i, j :: 0 <= i <= j <= |s| && r == s[i..j]
           && (forall k :: 0 <= k < i ==> IsSpace(s[k]))
           && (forall k :: j <= k < |s| ==> IsSpace(s[k]))
  {
    var start := SkipSpaces(s, 0);
    var end := DropSpaces(s, start, |s|);
    var r := s[start..end];
    assert Strip(s) == r;
    if r != [] {
      assert r[0] == s[start] && r[|r| - 1] == s[end - 1];
    }
  }

  /** The file separators 0x1C-0x1F are white space to `str.strip` too. */
  lemma StripSeparatorControl()
    ensures Strip("\U{1C}FMP\U{1F}") == "FMP"
  {
    var s := "\U{1C}FMP\U{1F}";
    assert SkipSpaces(s, 1) == 1 && DropSpaces(s, 1, 4) == 4;
  }

  /** A row of the key file that yields an entry: at least two columns and
      a second column that is not blank. */
  predicate Qualifies(row: seq<string>)
  {
    |row| >= 2 && Strip(row[1]) != []
  }

  /** The key map `load_api_keys` builds from the rows of the file. */
  function ApiKeys(rows: seq<seq<string>>): map<string, string>
  {
    if rows == [] then map[]
    else
      var n := |rows| - 1;
      var keys := ApiKeys(rows[..n]);
      if Qualifies(rows[n]) then keys[Strip(rows[n][0]) := Strip(rows[n][1])] else keys
  }

  /** `load_api_keys`: the file's rows when it could be read, and no keys at
      all when reading it failed. */
  method LoadApiKeys(file: Option<seq<seq<string>>>) returns (apiKeys: map<string, string>)
    ensures file.None? ==> apiKeys == map[]
    ensures file.Some? ==> apiKeys == ApiKeys(file.value)
  {
    apiKeys := map[];
    if file.None? {
      return;
    }
    var rows := file.value;
    var i := 0;
    while i < |rows|
      invariant 0 <= i <= |rows|
      invariant apiKeys == ApiKeys(rows[..i])
    {
      assert rows[..i + 1][..i] == rows[..i];
      var row := rows[i];
      if |row| >= 2 && Strip(row[1]) != [] {
        apiKeys := apiKeys[Strip(row[0]) := Strip(row[1])];
      }
      i := i + 1;
    }
    assert rows[..i] == rows;
  }

  /** Row `i` of the key file qualifies and names key `k`. */
  predicate Names(rows: seq<seq<string>>, i: int, k: string)
  {
    0 <= i < |rows| && Qualifies(rows[i]) && Strip(rows[i][0]) == k
  }

  /** A key is present exactly when some qualifying row names it. */
  lemma {:induction false} ApiKeysFromRows(rows: seq<seq<string>>, k: string)
    ensures k in ApiKeys(rows) <==> exists i :: Names(rows, i, k)
  {
    if rows != [] {
      var n := |rows| - 1;
      var init := rows[..n];
      ApiKeysFromRows(init, k);
      assert k in ApiKeys(rows) <==> k in ApiKeys(init) || Names(rows, n, k);
      if k in ApiKeys(rows) {
        if !Names(rows, n, k) {
          var i :| Names(init, i, k);
          assert init[i] == rows[i];
          assert Names(rows, i, k);
        }
      } else {
        forall i | 0 <= i < |rows|
          ensures !Names(rows, i, k)
        {
          if i < n {
            assert init[i] == rows[i];
            assert !Names(init, i, k);
          }
        }
      }
    }
  }

  /** Later rows overwrite earlier ones: the value of a key is the stripped
      value of the last qualifying row that names it. */
  lemma {:induction false} LaterRowWins(rows: seq<seq<string>>, i: int)
    requires 0 <= i < |rows| && Qualifies(rows[i])
    requires forall j :: i < j < |rows| && Qualifies(rows[j]) ==> Strip(rows[j][0]) != Strip(rows[i][0])
    ensures Strip(rows[i][0]) in ApiKeys(rows)
    ensures ApiKeys(rows)[Strip(rows[i][0])] == Strip(rows[i][1])
  {
    var n := |rows| - 1;
    if i < n {
      var init := rows[..n];
      assert init[i] == rows[i];
      LaterRowWins(init, i);
    }
  }
}
