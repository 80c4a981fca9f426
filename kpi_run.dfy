/** One run of the KPI script (`main`): load the token list, choose the block
    window, then for each token in order fold its events into counts and
    volume, quote a price, compare with the previous run's price, and finally
    produce the report and the price snapshot for the next run. */
module KpiRun {
  import opened Wrappers
  import opened JsValue
  import opened BlockResolver
  import opened TradeAggregation
  import opened FieldPick
  import opened Prices
  import opened TokenList

  /** The KPI window, in seconds. */
  const WINDOW_SEC: nat := 300

  /** One entry of the report's per-token list. */
  datatype TokenKpi = TokenKpi(
    token: string,
    buyCount: nat,
    sellCount: nat,
    tradeCount: nat,
    volumeWei: int,
    price: Option<real>,
    deltaPct: Option<Number>)

  /** One entry of the price snapshot: `{ priceMonPerToken, ts }`. */
  datatype PriceEntry = PriceEntry(price: Option<real>, ts: int)

  datatype Kpis = Kpis(
    totalTrades: nat,
    mostActiveToken: Option<string>,
    mostActiveTradeCount: int,
    spikeTokenCount: nat)

  /** `cache?.prices || {}`, where a missing or unreadable cache file is `None`
      (`safeReadJson` turns every error into `{}`). */
  function PrevPrices(cache: Option<Value>): (p: Value)
    ensures Truthy(p)
    ensures cache.None? ==> p == Obj(map[])
    ensures cache.Some? && Truthy(Get(cache.value, "prices")) ==> p == Get(cache.value, "prices")
    ensures cache.Some? && !Truthy(Get(cache.value, "prices")) ==> p == Obj(map[])
  {
    var c := cache.GetOr(Obj(map[]));
    Or(Get(c, "prices"), Obj(map[]))
  }

  /** `prevPrices[token]?.priceMonPerToken` */
  function PrevPrice(prevPrices: Value, token: string): (v: Value)
    ensures !prevPrices.Obj? || token !in prevPrices.fields ==> v == Undefined
    ensures v != Undefined ==> Get(prevPrices, token).Obj?
  {
    Get(Get(prevPrices, token), "priceMonPerToken")
  }

  /** Specification of one iteration of the token loop. */
  function TokenKpiOf(token: string, events: seq<Value>, quoteAmount: Option<int>,
                      prevPrices: Value, parse: string -> Option<int>): (k: TokenKpi)
    ensures k.token == token && k.tradeCount == k.buyCount + k.sellCount
    ensures k.tradeCount <= |events|
  {
    TradeCountBound(events, parse);
    var t := TallyOf(events, parse);
    var price := PriceOf(quoteAmount);
    TokenKpi(token, t.buyCount, t.sellCount, t.buyCount + t.sellCount, t.volumeWei,
             price, DeltaPct(price, PrevPrice(prevPrices, token)))
  }

  /** Sum of the per-token trade counts. */
  function TotalTrades(ks: seq<TokenKpi>): (n: nat)
    decreases |ks|
  {
    if |ks| == 0 then 0 else TotalTrades(ks[..|ks| - 1]) + ks[|ks| - 1].tradeCount
  }

  /** The most-active token and its count, replaced only on a strictly larger
      count; `(None, -1)` before any token. */
  function MostActive(ks: seq<TokenKpi>): (m: (Option<string>, int))
    ensures m.0.None? <==> |ks| == 0
    ensures |ks| == 0 ==> m.1 == -1
    ensures |ks| > 0 ==> m.1 >= 0
    decreases |ks|
  {
    if |ks| == 0 then (None, -1)
    else
      var (token, count) := MostActive(ks[..|ks| - 1]);
      var k := ks[|ks| - 1];
      if k.tradeCount > count then (Some(k.token), k.tradeCount) else (token, count)
  }

  /** Number of tokens whose change reaches the threshold. */
  function SpikeCount(ks: seq<TokenKpi>, spikePct: real): (n: nat)
    ensures n <= |ks|
    decreases |ks|
  {
    if |ks| == 0 then 0
    else SpikeCount(ks[..|ks| - 1], spikePct) + (if IsSpike(ks[|ks| - 1].deltaPct, spikePct) then 1 else 0)
  }

  /** The new price map: one entry per token, a later entry for the same token
      overwriting an earlier one. */
  function NextPrices(ks: seq<TokenKpi>, nowSec: int): (m: map<string, PriceEntry>)
    ensures forall t :: t in m ==> m[t].ts == nowSec
    ensures |ks| == 0 ==> m == map[]
    decreases |ks|
  {
    if |ks| == 0 then map[]
    else
      var k := ks[|ks| - 1];
      NextPrices(ks[..|ks| - 1], nowSec)[k.token := PriceEntry(k.price, nowSec)]
  }

  /** Lines 156-238: the token loop. Events and quotes come from the indexer
      (`fetch`) and the quote endpoint (`quote`). */
  method AggregateTokens(
    tokens: seq<string>, fromBlock: nat, latestBlock: nat,
    fetch: (nat, nat, string) -> seq<Value>, quote: string -> Option<int>,
    prevPrices: Value, spikePct: real, nowSec: int, parse: string -> Option<int>)
    returns (kpis: Kpis, perToken: seq<TokenKpi>, nextPrices: map<string, PriceEntry>)
    ensures |perToken| == |tokens|
    ensures forall i :: 0 <= i < |tokens| ==>
              perToken[i] == TokenKpiOf(tokens[i], fetch(fromBlock, latestBlock, tokens[i]),
                                        quote(tokens[i]), prevPrices, parse)
    ensures kpis.totalTrades == TotalTrades(perToken)
    ensures (kpis.mostActiveToken, kpis.mostActiveTradeCount) == MostActive(perToken)
    ensures kpis.spikeTokenCount == SpikeCount(perToken, spikePct)
    ensures nextPrices == NextPrices(perToken, nowSec)
  {
    var totalTrades5m: nat := 0;
    var mostActiveToken: Option<string> := None;
    var mostActiveTradeCount: int := -1;
    var spikeTokenCount5m: nat := 0;
    perToken := [];
    nextPrices := map[];

    for n := 0 to |tokens|
      invariant |perToken| == n
      invariant forall i :: 0 <= i < n ==>
                  perToken[i] == TokenKpiOf(tokens[i], fetch(fromBlock, latestBlock, tokens[i]),
                                            quote(tokens[i]), prevPrices, parse)
      invariant totalTrades5m == TotalTrades(perToken)
      invariant (mostActiveToken, mostActiveTradeCount) == MostActive(perToken)
      invariant spikeTokenCount5m == SpikeCount(perToken, spikePct)
      invariant nextPrices == NextPrices(perToken, nowSec)
    {
      var token := tokens[n];
      var kpi := ProcessToken(token, fromBlock, latestBlock, fetch, quote, prevPrices, parse);
      totalTrades5m, mostActiveToken, mostActiveTradeCount, spikeTokenCount5m, nextPrices :=
        Absorb(perToken, kpi, spikePct, nowSec,
               totalTrades5m, mostActiveToken, mostActiveTradeCount, spikeTokenCount5m, nextPrices);
      perToken := perToken + [kpi];
    }
    kpis := Kpis(totalTrades5m, mostActiveToken, mostActiveTradeCount, spikeTokenCount5m);
  }

  /** Lines 199-227: the run-level counters take one more token's record. */
  method Absorb(
    ks: seq<TokenKpi>, kpi: TokenKpi, spikePct: real, nowSec: int,
    totalTrades: nat, mostActiveToken: Option<string>, mostActiveTradeCount: int,
    spikeTokenCount: nat, prices: map<string, PriceEntry>)
    returns (totalTrades': nat, mostActiveToken': Option<string>, mostActiveTradeCount': int,
             spikeTokenCount': nat, prices': map<string, PriceEntry>)
    requires totalTrades == TotalTrades(ks)
    requires (mostActiveToken, mostActiveTradeCount) == MostActive(ks)
    requires spikeTokenCount == SpikeCount(ks, spikePct)
    requires prices == NextPrices(ks, nowSec)
    ensures totalTrades' == TotalTrades(ks + [kpi])
    ensures (mostActiveToken', mostActiveTradeCount') == MostActive(ks + [kpi])
    ensures spikeTokenCount' == SpikeCount(ks + [kpi], spikePct)
    ensures prices' == NextPrices(ks + [kpi], nowSec)
  {
    FoldStep(ks, kpi, spikePct, nowSec);
    totalTrades' := totalTrades + kpi.tradeCount;

    mostActiveToken', mostActiveTradeCount' := mostActiveToken, mostActiveTradeCount;
    if kpi.tradeCount > mostActiveTradeCount {
      mostActiveTradeCount' := kpi.tradeCount;
      mostActiveToken' := Some(kpi.token);
    }

    spikeTokenCount' := spikeTokenCount;
    if IsSpike(kpi.deltaPct, spikePct) {
      spikeTokenCount' := spikeTokenCount + 1;
    }

    prices' := prices[kpi.token := PriceEntry(kpi.price, nowSec)];
  }

  /** Lines 168-225: one token's events folded into counts and volume, its
      price from the quote, and the change against the previous price. */
  method ProcessToken(
    token: string, fromBlock: nat, latestBlock: nat,
    fetch: (nat, nat, string) -> seq<Value>, quote: string -> Option<int>,
    prevPrices: Value, parse: string -> Option<int>)
    returns (kpi: TokenKpi)
    ensures kpi == TokenKpiOf(token, fetch(fromBlock, latestBlock, token), quote(token), prevPrices, parse)
  {
    var events := fetch(fromBlock, latestBlock, token);
    var buyCount, sellCount, volMonWei := AggregateEvents(events, parse);
    var tradeCount := buyCount + sellCount;

    var priceMonPerToken := PriceOf(quote(token));
    var prev := PrevPrice(prevPrices, token);
    var deltaPct := DeltaPct(priceMonPerToken, prev);

    kpi := TokenKpi(token, buyCount, sellCount, tradeCount, volMonWei, priceMonPerToken, deltaPct);
  }

  /** How each fold of the run advances when one more token is appended. */
  lemma FoldStep(ks: seq<TokenKpi>, k: TokenKpi, spikePct: real, nowSec: int)
    ensures (ks + [k])[..|ks|] == ks
    ensures TotalTrades(ks + [k]) == TotalTrades(ks) + k.tradeCount
    ensures MostActive(ks + [k]) ==
              if k.tradeCount > MostActive(ks).1 then (Some(k.token), k.tradeCount) else MostActive(ks)
    ensures SpikeCount(ks + [k], spikePct) == SpikeCount(ks, spikePct) + (if IsSpike(k.deltaPct, spikePct) then 1 else 0)
    ensures NextPrices(ks + [k], nowSec) == NextPrices(ks, nowSec)[k.token := PriceEntry(k.price, nowSec)]
  {
    assert (ks + [k])[..|ks|] == ks;
  }

  /** A token has a price exactly when its quote is positive, a change only
      when it has a price, and no change when the previous snapshot does not
      know it. */
  lemma TokenKpiPrice(token: string, events: seq<Value>, quoteAmount: Option<int>,
                      prevPrices: Value, parse: string -> Option<int>)
    ensures var k := TokenKpiOf(token, events, quoteAmount, prevPrices, parse);
            && (k.price.Some? <==> quoteAmount.Some? && quoteAmount.value > 0)
            && (k.deltaPct.Some? ==> k.price.Some?)
            && (!prevPrices.Obj? || token !in prevPrices.fields ==> k.deltaPct.None?)
  {
  }

  /** The total is 0 exactly when no token traded. */
  lemma {:induction false} TotalTradesZeroIff(ks: seq<TokenKpi>)
    ensures TotalTrades(ks) == 0 <==> forall i :: 0 <= i < |ks| ==> ks[i].tradeCount == 0
    decreases |ks|
  {
    if |ks| > 0 {
      TotalTradesZeroIff(ks[..|ks| - 1]);
    }
  }

  /** Each token's count is part of the total; in particular the most-active
      count never exceeds it. */
  lemma {:induction false} TotalTradesCoversEach(ks: seq<TokenKpi>, i: nat)
    requires i < |ks|
    ensures ks[i].tradeCount <= TotalTrades(ks)
    decreases |ks|
  {
    if i < |ks| - 1 {
      TotalTradesCoversEach(ks[..|ks| - 1], i);
    }
  }

  /** For a non-empty token list the most-active token is the first one whose
      trade count is the maximum, and it carries that count; for an empty list
      the result stays `(None, -1)`. */
  lemma {:induction false} MostActiveIsFirstMaximum(ks: seq<TokenKpi>) returns (i: nat)
    requires |ks| > 0
    ensures i < |ks|
    ensures MostActive(ks) == (Some(ks[i].token), ks[i].tradeCount)
    ensures forall j :: 0 <= j < |ks| ==> ks[j].tradeCount <= ks[i].tradeCount
    ensures forall j :: 0 <= j < i ==> ks[j].tradeCount < ks[i].tradeCount
    decreases |ks|
  {
    var last := |ks| - 1;
    if last == 0 {
      i := 0;
    } else {
      var init := ks[..last];
      var i0 := MostActiveIsFirstMaximum(init);
      if ks[last].tradeCount > ks[i0].tradeCount {
        i := last;
      } else {
        i := i0;
      }
    }
  }

  /** Spikes are counted at most once per token. */
  lemma {:induction false} SpikeCountBound(ks: seq<TokenKpi>, spikePct: real)
    ensures SpikeCount(ks, spikePct) <= |ks|
    ensures SpikeCount(ks, spikePct) == 0 <==> forall i :: 0 <= i < |ks| ==> !IsSpike(ks[i].deltaPct, spikePct)
    decreases |ks|
  {
    if |ks| > 0 {
      SpikeCountBound(ks[..|ks| - 1], spikePct);
    }
  }

  /** The new price map has exactly the current tokens as keys: a token that
      only the previous snapshot knew is dropped. */
  lemma {:induction false} NextPricesKeys(ks: seq<TokenKpi>, nowSec: int)
    ensures NextPrices(ks, nowSec).Keys == set i | 0 <= i < |ks| :: ks[i].token
    decreases |ks|
  {
    if |ks| > 0 {
      var init := ks[..|ks| - 1];
      NextPricesKeys(init, nowSec);
      var s := set i | 0 <= i < |ks| :: ks[i].token;
      var s0 := set i | 0 <= i < |init| :: init[i].token;
      assert s == s0 + {ks[|ks| - 1].token} by {
        forall t | t in s ensures t in s0 + {ks[|ks| - 1].token} {
          var i :| 0 <= i < |ks| && ks[i].token == t;
          if i < |ks| - 1 { assert init[i].token == t; }
        }
        forall t | t in s0 ensures t in s {
          var i :| 0 <= i < |init| && init[i].token == t;
          assert ks[i].token == t;
        }
      }
    }
  }

  /** The snapshot entry of a token is the one computed at its last occurrence
      in the token list, stamped with the run's time. */
  lemma {:induction false} NextPricesLastOccurrence(ks: seq<TokenKpi>, nowSec: int, i: nat)
    requires i < |ks|
    requires forall j :: i < j < |ks| ==> ks[j].token != ks[i].token
    ensures ks[i].token in NextPrices(ks, nowSec)
    ensures NextPrices(ks, nowSec)[ks[i].token] == PriceEntry(ks[i].price, nowSec)
    decreases |ks|
  {
    if i < |ks| - 1 {
      NextPricesLastOccurrence(ks[..|ks| - 1], nowSec, i);
    }
  }

  /** Without a readable cache there is no previous price, so no change is
      computed and no token is a spike. */
  lemma {:induction false} NoCacheNoSpikes(ks: seq<TokenKpi>, events: seq<seq<Value>>,
                                           quotes: seq<Option<int>>, spikePct: real,
                                           parse: string -> Option<int>)
    requires |events| == |ks| && |quotes| == |ks|
    requires forall i :: 0 <= i < |ks| ==>
               ks[i] == TokenKpiOf(ks[i].token, events[i], quotes[i], PrevPrices(None), parse)
    ensures forall i :: 0 <= i < |ks| ==> ks[i].deltaPct.None?
    ensures SpikeCount(ks, spikePct) == 0
  {
    assert PrevPrices(None) == Obj(map[]);
    forall i | 0 <= i < |ks| ensures ks[i].deltaPct.None? {
      assert PrevPrice(PrevPrices(None), ks[i].token) == Undefined;
    }
    SpikeCountBound(ks, spikePct);
  }

  function DigitChar(d: nat): char
    requires d < 10
  {
    ('0' as int + d) as char
  }

  predicate IsDigit(c: char) {
    '0' <= c <= '9'
  }

  /** The number a string of decimal digits denotes. */
  function DigitsValue(s: string): nat
    requires forall i :: 0 <= i < |s| ==> IsDigit(s[i])
    decreases |s|
  {
    if |s| == 0 then 0
    else
      assert IsDigit(s[|s| - 1]);
      DigitsValue(s[..|s| - 1]) * 10 + (s[|s| - 1] as int - '0' as int)
  }

  /** `n.toString()` for a BigInt block number: decimal digits without a
      leading zero that read back as `n`. */
  function DecimalString(n: nat): (r: string)
    ensures |r| >= 1 && forall i :: 0 <= i < |r| ==> IsDigit(r[i])
    ensures r[0] == '0' ==> r == "0"
    ensures DigitsValue(r) == n
    decreases n
  {
    if n < 10 then [DigitChar(n)] else DecimalString(n / 10) + [DigitChar(n % 10)]
  }

  /** A price as written to JSON: a number, or null. */
  function PriceJson(price: Option<real>): Value {
    if price.Some? then Num(Finite(price.value)) else Null
  }

  function EntryJson(e: PriceEntry): Value {
    Obj(map["priceMonPerToken" := PriceJson(e.price), "ts" := Num(Finite(e.ts as real))])
  }

  /** Lines 240-247: the cache document written at the end of the run. */
  function SnapshotJson(updatedAt: string, fromBlock: nat, toBlock: nat, spikePct: real,
                        prices: map<string, PriceEntry>): (r: Value)
    ensures Get(r, "prices").Obj? && Get(r, "prices").fields.Keys == prices.Keys
    ensures Get(r, "windowSec") == Num(Finite(300.0))
  {
    Obj(map[
      "updatedAt" := Str(updatedAt),
      "windowSec" := Num(Finite(WINDOW_SEC as real)),
      "fromBlock" := Str(DecimalString(fromBlock)),
      "toBlock" := Str(DecimalString(toBlock)),
      "spikeThresholdPct" := Num(Finite(spikePct)),
      "prices" := Obj(map t | t in prices :: EntryJson(prices[t]))])
  }

  /** Reading back the snapshot: the previous price the next run sees for a
      token is the price this run recorded for it, and nothing for a token this
      run did not process. */
  lemma SnapshotRoundTrip(updatedAt: string, fromBlock: nat, toBlock: nat, spikePct: real,
                          prices: map<string, PriceEntry>, token: string)
    ensures PrevPrice(PrevPrices(Some(SnapshotJson(updatedAt, fromBlock, toBlock, spikePct, prices))), token)
              == if token in prices then PriceJson(prices[token].price) else Undefined
  {
    var snap := SnapshotJson(updatedAt, fromBlock, toBlock, spikePct, prices);
    var stored := Obj(map t | t in prices :: EntryJson(prices[t]));
    assert Get(snap, "prices") == stored;
    assert Truthy(stored);
    assert PrevPrices(Some(snap)) == stored;
    if token in prices {
      assert Get(stored, token) == EntryJson(prices[token]);
    }
  }

  /** Across two runs: the next run computes a change for a token exactly when
      it has a price now and this run recorded a price for it. A token whose
      quote failed this run is stored with a null price, so the next run
      reports no change for it rather than a stale one. */
  lemma NextRunComparesWithThisRun(ks: seq<TokenKpi>, nowSec: int, updatedAt: string,
                                   fromBlock: nat, toBlock: nat, spikePct: real,
                                   token: string, newPrice: Option<real>)
    requires forall i :: 0 <= i < |ks| && ks[i].price.Some? ==> ks[i].price.value > 0.0
    ensures var prices := NextPrices(ks, nowSec);
            var snap := SnapshotJson(updatedAt, fromBlock, toBlock, spikePct, prices);
            (DeltaPct(newPrice, PrevPrice(PrevPrices(Some(snap)), token)).Some?
             <==> newPrice.Some? && token in prices && prices[token].price.Some?)
  {
    var prices := NextPrices(ks, nowSec);
    SnapshotRoundTrip(updatedAt, fromBlock, toBlock, spikePct, prices, token);
    if token in prices {
      NextPricesPositive(ks, nowSec, token);
    }
  }

  lemma {:induction false} NextPricesPositive(ks: seq<TokenKpi>, nowSec: int, token: string)
    requires forall i :: 0 <= i < |ks| && ks[i].price.Some? ==> ks[i].price.value > 0.0
    requires token in NextPrices(ks, nowSec)
    ensures NextPrices(ks, nowSec)[token].price.Some? ==> NextPrices(ks, nowSec)[token].price.value > 0.0
    decreases |ks|
  {
    if ks[|ks| - 1].token != token {
      NextPricesPositive(ks[..|ks| - 1], nowSec, token);
    }
  }

  /** The report printed on standard output. */
  datatype RunReport = RunReport(
    windowSec: nat,
    fromBlock: nat,
    toBlock: nat,
    generatedAt: string,
    spikeThresholdPct: real,
    kpis: Kpis,
    perToken: seq<TokenKpi>)

  datatype RunOutput = RunOutput(report: RunReport, snapshot: Value)

  /** `main`, from the token file to the report and the snapshot. The node,
      the indexer, the quote endpoint, the clock and the cache file are the
      parameters `ts`, `latestBlock`, `fetch`, `quote`, `nowSec`/`updatedAt`/
      `generatedAt` and `cache`; the window's first block is chosen by `mode`. */
  method Run(
    mode: FromBlockMode, tokensJson: Value, latestBlock: nat, nowSec: int,
    updatedAt: string, generatedAt: string,
    ts: nat -> int, fetch: (nat, nat, string) -> seq<Value>, quote: string -> Option<int>,
    cache: Option<Value>, spikePct: real, parse: string -> Option<int>)
    returns (r: Result<RunOutput, TokenList.Error>)
    requires mode.ByTimestamp? ==> NonDecreasing(ts)
    ensures r.Failure? <==> LoadTokens(tokensJson).Failure?
    ensures r.Failure? ==> r.error == LoadTokens(tokensJson).error
    ensures r.Success? ==>
              var rep := r.value.report;
              var tokens := LoadTokens(tokensJson).value;
              && rep.windowSec == WINDOW_SEC
              && rep.toBlock == latestBlock
              && rep.fromBlock <= rep.toBlock
              && (mode.FixedLookback? ==> rep.fromBlock == FixedLookbackFromBlock(latestBlock))
              && (mode.ByTimestamp? ==> rep.fromBlock == LastAtOrBefore(ts, latestBlock, nowSec - WINDOW_SEC as int))
              && rep.spikeThresholdPct == spikePct
              && rep.generatedAt == generatedAt
              && |rep.perToken| == |tokens|
              && (forall i :: 0 <= i < |tokens| ==>
                    rep.perToken[i] == TokenKpiOf(tokens[i], fetch(rep.fromBlock, latestBlock, tokens[i]),
                                                  quote(tokens[i]), PrevPrices(cache), parse))
              && rep.kpis.totalTrades == TotalTrades(rep.perToken)
              && (rep.kpis.mostActiveToken, rep.kpis.mostActiveTradeCount) == MostActive(rep.perToken)
              && rep.kpis.spikeTokenCount == SpikeCount(rep.perToken, spikePct)
              && r.value.snapshot == SnapshotJson(updatedAt, rep.fromBlock, latestBlock, spikePct,
                                                  NextPrices(rep.perToken, nowSec))
    ensures r.Success? && LoadTokens(tokensJson).value == [] ==>
              r.value.report.kpis == Kpis(0, None, -1, 0)
  {
    var loaded := LoadTokens(tokensJson);
    if loaded.Failure? {
      return Failure(loaded.error);
    }
    var tokens := loaded.value;

    var cutoffSec := nowSec - WINDOW_SEC as int;
    var fromBlock := ResolveFromBlock(mode, ts, latestBlock, cutoffSec);

    var prevPrices := PrevPrices(cache);
    var kpis, perToken, nextPrices :=
      AggregateTokens(tokens, fromBlock, latestBlock, fetch, quote, prevPrices, spikePct, nowSec, parse);

    var snapshot := SnapshotJson(updatedAt, fromBlock, latestBlock, spikePct, nextPrices);
    var report := RunReport(WINDOW_SEC, fromBlock, latestBlock, generatedAt, spikePct, kpis, perToken);
    return Success(RunOutput(report, snapshot));
  }

  /** A worked run over two tokens: the first has one Buy of 1 coin and one
      Sell of 0.5 coin, the second has no events. Two trades in total, the
      first token is the most active with both, and the second still gets its
      record, with no trades and no volume. */
  lemma TwoTokenScenario(parse: string -> Option<int>)
    ensures var ks := [TokenKpiOf("0xAA", [ScenarioBuy(), ScenarioSell()], None, Obj(map[]), parse),
                       TokenKpiOf("0xBB", [], None, Obj(map[]), parse)];
            && TotalTrades(ks) == 2
            && MostActive(ks) == (Some("0xAA"), 2)
            && ks[0].volumeWei == 1_500_000_000_000_000_000
            && ks[1].tradeCount == 0 && ks[1].volumeWei == 0
  {
    ScenarioTally(parse);
    var k0 := TokenKpiOf("0xAA", [ScenarioBuy(), ScenarioSell()], None, Obj(map[]), parse);
    var k1 := TokenKpiOf("0xBB", [], None, Obj(map[]), parse);
    assert k0.token == "0xAA" && k0.tradeCount == 2;
    assert k1.tradeCount == 0;
    TwoTokenFold(k0, k1);
  }

  /** Folding a token with two trades followed by one with none. */
  lemma TwoTokenFold(k0: TokenKpi, k1: TokenKpi)
    requires k0.tradeCount == 2 && k1.tradeCount == 0
    ensures TotalTrades([k0, k1]) == 2
    ensures MostActive([k0, k1]) == (Some(k0.token), 2)
  {
    assert [k0][..0] == [];
    assert TotalTrades([k0]) == 2 && MostActive([k0]) == (Some(k0.token), 2);
    assert [k0, k1][..1] == [k0];
  }

  function ScenarioBuy(): Value {
    Obj(map["eventType" := Str("Buy"), "amountIn" := BigInt(1_000_000_000_000_000_000)])
  }

  function ScenarioSell(): Value {
    Obj(map["eventType" := Str("Sell"), "amountOut" := BigInt(500_000_000_000_000_000)])
  }

  lemma ScenarioTally(parse: string -> Option<int>)
    ensures TallyOf([ScenarioBuy(), ScenarioSell()], parse) == Tally(1, 1, 1_500_000_000_000_000_000)
  {
    var buy, sell := ScenarioBuy(), ScenarioSell();
    assert Get(buy, "eventType") == Str("Buy");
    assert Get(sell, "eventType") == Str("Sell");
    assert IsBuy(buy) && !IsSell(buy);
    assert IsSell(sell) && !IsBuy(sell);
    assert Candidate(buy, "amountIn", parse) == Some(1_000_000_000_000_000_000);
    assert Candidate(sell, "amountOut", parse) == Some(500_000_000_000_000_000);
    assert EventVolume(buy, parse) == 1_000_000_000_000_000_000;
    assert EventVolume(sell, parse) == 500_000_000_000_000_000;
    assert [buy][..0] == [];
    assert TallyOf([buy], parse) == Tally(1, 0, 1_000_000_000_000_000_000);
    assert [buy, sell][..1] == [buy];
  }
}
