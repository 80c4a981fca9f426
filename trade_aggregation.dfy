/** The per-token event loop of the KPI script: classify each event as a Buy or
    a Sell through the event-kind aliases, count both kinds, and add up the
    native-currency volume exactly in wei. */
module TradeAggregation {
  import opened Wrappers
  import opened JsValue
  import opened FieldPick

  /** Alias keys of the native amount paid in by a Buy, in priority order. */
  const BUY_AMOUNT_KEYS: seq<string> := ["amountIn", "monIn", "value", "nativeIn", "ethIn"]
  /** Alias keys of the native amount paid out by a Sell, in priority order. */
  const SELL_AMOUNT_KEYS: seq<string> := ["amountOut", "monOut", "value", "nativeOut", "ethOut"]

  /** `ev?.eventType || ev?.type || ev?.name || ev?.event` */
  function EventTag(ev: Value): (t: Value)
    ensures Truthy(Get(ev, "eventType")) ==> t == Get(ev, "eventType")
    ensures !Truthy(Get(ev, "eventType")) && Truthy(Get(ev, "type")) ==> t == Get(ev, "type")
    ensures !Truthy(Get(ev, "eventType")) && !Truthy(Get(ev, "type")) && Truthy(Get(ev, "name")) ==>
              t == Get(ev, "name")
    ensures !Truthy(Get(ev, "eventType")) && !Truthy(Get(ev, "type")) && !Truthy(Get(ev, "name")) ==>
              t == Get(ev, "event")
  {
    Or(Or(Or(Get(ev, "eventType"), Get(ev, "type")), Get(ev, "name")), Get(ev, "event"))
  }

  /** `isBuy`: the tag, or `eventType` itself, is the string "Buy". */
  function IsBuy(ev: Value): (b: bool)
    ensures !ev.Obj? ==> !b
    ensures b ==> EventTag(ev) != Str("Sell") && Get(ev, "eventType") != Str("Sell")
  {
    EventTag(ev) == Str("Buy") || Get(ev, "eventType") == Str("Buy")
  }

  /** `isSell`: the tag, or `eventType` itself, is the string "Sell". */
  function IsSell(ev: Value): (b: bool)
    ensures !ev.Obj? ==> !b
    ensures b ==> EventTag(ev) != Str("Buy") && Get(ev, "eventType") != Str("Buy")
  {
    EventTag(ev) == Str("Sell") || Get(ev, "eventType") == Str("Sell")
  }

  /** No event is both a Buy and a Sell, and the second test of each
      classification adds nothing to the first: a kind found under `eventType`
      is always the tag. */
  lemma ClassificationExclusive(ev: Value)
    ensures !(IsBuy(ev) && IsSell(ev))
    ensures IsBuy(ev) <==> EventTag(ev) == Str("Buy")
    ensures IsSell(ev) <==> EventTag(ev) == Str("Sell")
  {
    var e := Get(ev, "eventType");
    if e == Str("Buy") || e == Str("Sell") {
      assert Truthy(e);
      assert Or(e, Get(ev, "type")) == e;
    }
  }

  /** Wei volume of one event: a Buy's amount in, a Sell's amount out, nothing
      for any other event. */
  function EventVolume(ev: Value, parse: string -> Option<int>): (v: int)
    ensures !IsBuy(ev) && !IsSell(ev) ==> v == 0
    ensures IsBuy(ev) && Candidate(ev, "amountIn", parse).Some? ==> v == Candidate(ev, "amountIn", parse).value
    ensures IsSell(ev) && Candidate(ev, "amountOut", parse).Some? ==> v == Candidate(ev, "amountOut", parse).value
    ensures v == 0 || exists k :: k in BUY_AMOUNT_KEYS + SELL_AMOUNT_KEYS && Candidate(ev, k, parse) == Some(v)
  {
    if IsBuy(ev) then Pick(ev, BUY_AMOUNT_KEYS, parse)
    else if IsSell(ev) then Pick(ev, SELL_AMOUNT_KEYS, parse)
    else 0
  }

  /** Result of the event loop for one token. */
  datatype Tally = Tally(buyCount: nat, sellCount: nat, volumeWei: int)

  /** Specification of the event loop: a left fold over the events. */
  function TallyOf(events: seq<Value>, parse: string -> Option<int>): (t: Tally)
    ensures t.buyCount <= |events| && t.sellCount <= |events|
    decreases |events|
  {
    if |events| == 0 then Tally(0, 0, 0)
    else
      var t := TallyOf(events[..|events| - 1], parse);
      var ev := events[|events| - 1];
      Tally(t.buyCount + (if IsBuy(ev) then 1 else 0),
            t.sellCount + (if IsSell(ev) then 1 else 0),
            t.volumeWei + EventVolume(ev, parse))
  }

  /** Lines 175-198: one pass over the events. */
  method AggregateEvents(events: seq<Value>, parse: string -> Option<int>)
    returns (buyCount: nat, sellCount: nat, volMonWei: int)
    ensures Tally(buyCount, sellCount, volMonWei) == TallyOf(events, parse)
  {
    buyCount, sellCount, volMonWei := 0, 0, 0;
    for i := 0 to |events|
      invariant Tally(buyCount, sellCount, volMonWei) == TallyOf(events[..i], parse)
    {
      var ev := events[i];
      assert events[..i + 1][..i] == events[..i];

      var isBuy := IsBuy(ev);
      var isSell := IsSell(ev);

      if isBuy { buyCount := buyCount + 1; }
      if isSell { sellCount := sellCount + 1; }

      if isBuy {
        var amount := PickBigInt(ev, BUY_AMOUNT_KEYS, parse);
        volMonWei := volMonWei + amount;
      } else if isSell {
        var amount := PickBigInt(ev, SELL_AMOUNT_KEYS, parse);
        volMonWei := volMonWei + amount;
      }
    }
    assert events[..|events|] == events;
  }

  /** Aggregation is a fold: the tally of a concatenation adds the tallies. */
  lemma {:induction false} TallyConcat(a: seq<Value>, b: seq<Value>, parse: string -> Option<int>)
    ensures TallyOf(a + b, parse).buyCount == TallyOf(a, parse).buyCount + TallyOf(b, parse).buyCount
    ensures TallyOf(a + b, parse).sellCount == TallyOf(a, parse).sellCount + TallyOf(b, parse).sellCount
    ensures TallyOf(a + b, parse).volumeWei == TallyOf(a, parse).volumeWei + TallyOf(b, parse).volumeWei
    decreases |b|
  {
    if |b| > 0 {
      var b' := b[..|b| - 1];
      assert (a + b)[..|a + b| - 1] == a + b';
      assert (a + b)[|a + b| - 1] == b[|b| - 1];
      TallyConcat(a, b', parse);
    } else {
      assert a + b == a;
    }
  }

  /** An event that is neither a Buy nor a Sell contributes nothing. */
  lemma IgnoredEvent(a: seq<Value>, ev: Value, b: seq<Value>, parse: string -> Option<int>)
    requires !IsBuy(ev) && !IsSell(ev)
    ensures TallyOf(a + [ev] + b, parse) == TallyOf(a + b, parse)
  {
    TallyConcat(a + [ev], b, parse);
    TallyConcat(a, [ev], parse);
    TallyConcat(a, b, parse);
    assert [ev][..0] == [];
  }

  /** Every event is counted at most once: trades never outnumber events. */
  lemma {:induction false} TradeCountBound(events: seq<Value>, parse: string -> Option<int>)
    ensures TallyOf(events, parse).buyCount + TallyOf(events, parse).sellCount <= |events|
    decreases |events|
  {
    if |events| > 0 {
      ClassificationExclusive(events[|events| - 1]);
      TradeCountBound(events[..|events| - 1], parse);
    }
  }

  /** Buy volume alone: the amount-in alias of every Buy event. */
  function BuyVolume(events: seq<Value>, parse: string -> Option<int>): int
    decreases |events|
  {
    if |events| == 0 then 0
    else (if IsBuy(events[0]) then Pick(events[0], BUY_AMOUNT_KEYS, parse) else 0)
         + BuyVolume(events[1..], parse)
  }

  /** Sell volume alone: the amount-out alias of every Sell event. */
  function SellVolume(events: seq<Value>, parse: string -> Option<int>): int
    decreases |events|
  {
    if |events| == 0 then 0
    else (if IsSell(events[0]) then Pick(events[0], SELL_AMOUNT_KEYS, parse) else 0)
         + SellVolume(events[1..], parse)
  }

  /** The volume is exactly the Buy-side amounts in plus the Sell-side amounts out. */
  lemma {:induction false} VolumeBySide(events: seq<Value>, parse: string -> Option<int>)
    ensures TallyOf(events, parse).volumeWei == BuyVolume(events, parse) + SellVolume(events, parse)
    decreases |events|
  {
    if |events| > 0 {
      var ev := events[0];
      ClassificationExclusive(ev);
      assert events == [ev] + events[1..];
      TallyConcat([ev], events[1..], parse);
      assert [ev][..0] == [];
      VolumeBySide(events[1..], parse);
    }
  }
}
