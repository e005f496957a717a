/**
 * The `BitSkins` class: one method per remote operation, each naming a fixed
 * operation, flattening some array-valued options, and delegating to `_call`.
 */
module Facade {
  import opened Wrappers
  import opened JsValue
  import opened Flatten
  import opened Endpoint
  import opened Classifier

  /** The public methods of the class. */
  datatype Method =
    | GetAccountBalance
    | GetAllItemPrices
    | GetMarketData
    | GetAccountInventory
    | GetInventoryOnSale
    | GetResetPriceItems
    | GetMoneyEvents
    | RequestWithdrawal
    | BuyItem
    | SellItem
    | ModifySale
    | WithdrawItem
    | BumpItem
    | GetBuyHistory
    | GetSellHistory
    | GetItemHistory
    | GetTradeDetails

  /** The remote operation each method sends. */
  function Operation(m: Method): string {
    match m
    case GetAccountBalance => "get_account_balance"
    case GetAllItemPrices => "get_all_item_prices"
    case GetMarketData => "get_price_data_for_items_on_sale"
    case GetAccountInventory => "get_my_inventory"
    case GetInventoryOnSale => "get_inventory_on_sale"
    case GetResetPriceItems => "get_reset_price_items"
    case GetMoneyEvents => "get_money_events"
    case RequestWithdrawal => "request_withdrawal"
    case BuyItem => "buy_item"
    case SellItem => "list_item_for_sale"
    case ModifySale => "modify_sale_item"
    case WithdrawItem => "modify_sale_item"
    case BumpItem => "bump_item"
    case GetBuyHistory => "get_buy_history"
    case GetSellHistory => "get_sell_history"
    case GetItemHistory => "get_item_history"
    case GetTradeDetails => "get_trade_details"
  }

  /** No operation name holds '%', so the template's placeholder is the only
      "%qs" an operation can contribute to the URL. */
  lemma OperationNamesPlain(m: Method)
    ensures |Operation(m)| > 0 && '%' !in Operation(m)
  {
    // One literal at a time is far cheaper for the solver than the whole table.
    match m
    case GetAccountBalance => assert '%' !in "get_account_balance";
    case GetAllItemPrices => assert '%' !in "get_all_item_prices";
    case GetMarketData => assert '%' !in "get_price_data_for_items_on_sale";
    case GetAccountInventory => assert '%' !in "get_my_inventory";
    case GetInventoryOnSale => assert '%' !in "get_inventory_on_sale";
    case GetResetPriceItems => assert '%' !in "get_reset_price_items";
    case GetMoneyEvents => assert '%' !in "get_money_events";
    case RequestWithdrawal => assert '%' !in "request_withdrawal";
    case BuyItem => assert '%' !in "buy_item";
    case SellItem => assert '%' !in "list_item_for_sale";
    case ModifySale => assert '%' !in "modify_sale_item";
    case WithdrawItem => assert '%' !in "modify_sale_item";
    case BumpItem => assert '%' !in "bump_item";
    case GetBuyHistory => assert '%' !in "get_buy_history";
    case GetSellHistory => assert '%' !in "get_sell_history";
    case GetItemHistory => assert '%' !in "get_item_history";
    case GetTradeDetails => assert '%' !in "get_trade_details";
  }

  /** The option keys each method flattens before the call, in source order. */
  function FlattenedKeys(m: Method): (keys: seq<string>)
    ensures forall i :: 0 <= i < |keys| ==> keys[i] in {"names", "item_ids", "prices"}
    ensures forall i, j :: 0 <= i < j < |keys| ==> keys[i] != keys[j]
  {
    match m
    case GetMarketData => ["names"]
    case BuyItem => ["item_ids", "prices"]
    case SellItem => ["item_ids", "prices"]
    case ModifySale => ["item_ids", "prices"]
    case WithdrawItem => ["item_ids"]
    case BumpItem => ["item_ids"]
    case _ => []
  }

  /** The two methods declared without parameters call `_call` without options. */
  predicate TakesOptions(m: Method) {
    !(m.GetAccountBalance? || m.GetAllItemPrices?)
  }

  /** A client instance: the API key it was built with. The 2FA secret only
      feeds the one-time code, which each call receives as an input. */
  datatype BitSkins = BitSkins(apiKey: string)

  /** What a method call hands the transport: the URL, and the options as the
      method left them. For a method that takes options this is also what the
      caller's object holds afterwards; the two methods without options leave
      the caller's object alone and send none. */
  datatype Dispatch = Dispatch(url: string, options: Option<Params>)

  /** The options `_call` receives: flattened for methods that take options,
      none for the two that do not. */
  function SentOptions(m: Method, options: Option<Params>): Option<Params> {
    if TakesOptions(m) then FlattenKeys(options, FlattenedKeys(m)) else None
  }

  /** The method's request, before the network round trip. */
  function Prepare(client: BitSkins, m: Method, options: Option<Params>, code: string,
                   stringify: Params -> QueryText): (r: Dispatch)
    ensures r.options.Some? <==> TakesOptions(m) && options.Some?
    ensures r.options.Some? ==> r.options.value.Keys == options.value.Keys
    ensures r.options.Some? ==> forall k :: k in options.value && k !in FlattenedKeys(m) ==>
              r.options.value[k] == options.value[k]
    ensures r.options.Some? ==> forall k :: k in options.value && k in FlattenedKeys(m) ==>
              r.options.value[k] == Flattened(options.value[k])
    ensures '%' !in Operation(m) && '%' !in client.apiKey && '%' !in code ==>
              r.url == Base + Operation(m) + "/?api_key=" + client.apiKey + "&code=" + code
                       + QuerySuffix(r.options, stringify)
  {
    var sent := SentOptions(m, options);
    assert '%' !in Operation(m) && '%' !in client.apiKey && '%' !in code ==>
             Url(Operation(m), client.apiKey, code, sent, stringify)
             == Base + Operation(m) + "/?api_key=" + client.apiKey + "&code=" + code + QuerySuffix(sent, stringify) by {
      if '%' !in Operation(m) && '%' !in client.apiKey && '%' !in code {
        UrlOfPlainParts(Operation(m), client.apiKey, code, sent, stringify);
      }
    }
    Dispatch(Url(Operation(m), client.apiKey, code, sent, stringify), sent)
  }

  /** Two methods with the same operation and the same sent options prepare
      the same request. */
  lemma SameRequest(client: BitSkins, m1: Method, m2: Method, options: Option<Params>, code: string,
                    stringify: Params -> QueryText)
    requires Operation(m1) == Operation(m2)
    requires SentOptions(m1, options) == SentOptions(m2, options)
    ensures Prepare(client, m1, options, code, stringify) == Prepare(client, m2, options, code, stringify)
  {
  }

  /** A whole method call: prepare, send, classify. The transport maps a URL to
      the raw outcome of the request. */
  function Call(client: BitSkins, m: Method, options: Option<Params>, code: string,
                stringify: Params -> QueryText, transport: string -> Raw): (r: Outcome)
    ensures var raw := transport(Prepare(client, m, options, code, stringify).url);
            raw.err.Some? ==> r == Rejected(TransportFailure(raw.err.value))
    ensures var raw := transport(Prepare(client, m, options, code, stringify).url);
            r.Threw? <==> raw.err.None? && raw.body.IsNullish()
    ensures var raw := transport(Prepare(client, m, options, code, stringify).url);
            raw.err.None? && !raw.body.IsNullish() && DomainError(raw.body).Some? ==>
              r == Rejected(DomainFailure(ToString(DomainError(raw.body).value)))
    ensures var raw := transport(Prepare(client, m, options, code, stringify).url);
            r.Resolved? <==> raw.err.None? && !raw.body.IsNullish() && DomainError(raw.body).None? && raw.status == 200
    ensures var raw := transport(Prepare(client, m, options, code, stringify).url);
            r.Resolved? ==> r.body == raw.body
    ensures var raw := transport(Prepare(client, m, options, code, stringify).url);
            r.Rejected? && r.why.StatusFailure? <==>
              raw.err.None? && !raw.body.IsNullish() && DomainError(raw.body).None? && raw.status != 200
    ensures r.Rejected? && r.why.StatusFailure? ==>
              r.why.status == transport(Prepare(client, m, options, code, stringify).url).status
  {
    ResolvedIff(transport(Prepare(client, m, options, code, stringify).url));
    StatusFailureIff(transport(Prepare(client, m, options, code, stringify).url));

    Classify(transport(Prepare(client, m, options, code, stringify).url))
  }

  /** Which keys each method flattens: `names` only for getMarketData,
      `item_ids` for the five item methods, `prices` for buy, sell and modify. */
  lemma FlatteningTable(m: Method)
    ensures "names" in FlattenedKeys(m) <==> m == GetMarketData
    ensures "item_ids" in FlattenedKeys(m) <==> m in {BuyItem, SellItem, ModifySale, WithdrawItem, BumpItem}
    ensures "prices" in FlattenedKeys(m) <==> m in {BuyItem, SellItem, ModifySale}
    ensures forall k :: k in FlattenedKeys(m) ==> k == "names" || k == "item_ids" || k == "prices"
  {
  }

  /** withdrawItem sends `modify_sale_item`, and that is the only pair of
      methods that share a remote operation. */
  lemma WithdrawItemSendsModifySale(m1: Method, m2: Method)
    ensures Operation(WithdrawItem) == "modify_sale_item"
    ensures Operation(m1) == Operation(m2) && m1 != m2 ==>
              {m1, m2} == {ModifySale, WithdrawItem}
  {
  }

  /** On the wire withdrawItem is modifySale without price flattening: for
      options whose `prices` is not an array the two requests are identical. */
  lemma WithdrawItemIsModifySaleWithoutPrices(client: BitSkins, options: Option<Params>, code: string,
                                             stringify: Params -> QueryText)
    requires options.Some? && "prices" in options.value ==> !options.value["prices"].Arr?
    ensures Prepare(client, WithdrawItem, options, code, stringify)
         == Prepare(client, ModifySale, options, code, stringify)
  {
    assert FlattenedKeys(ModifySale) == FlattenedKeys(WithdrawItem) + ["prices"];
    ExtraKeyWithoutArray(options, FlattenedKeys(WithdrawItem), "prices");
    SameRequest(client, WithdrawItem, ModifySale, options, code, stringify);
  }

  /** getAccountBalance and getAllItemPrices send key and code and no query,
      whatever options the caller passes, and a 200 answer without a domain
      error resolves with the body unchanged. */
  lemma NoOptionsEndToEnd(client: BitSkins, m: Method, options: Option<Params>, code: string,
                          stringify: Params -> QueryText, transport: string -> Raw)
    requires !TakesOptions(m)
    requires '%' !in client.apiKey && '%' !in code
    requires var raw := transport(Prepare(client, m, options, code, stringify).url);
             raw.err.None? && raw.status == 200 && raw.body.Obj? && DomainError(raw.body).None?
    ensures Prepare(client, m, options, code, stringify).url
         == Base + Operation(m) + "/?api_key=" + client.apiKey + "&code=" + code
    ensures Operation(m) in {"get_account_balance", "get_all_item_prices"}
    ensures Call(client, m, options, code, stringify, transport)
         == Resolved(transport(Prepare(client, m, options, code, stringify).url).body)
  {
  }

  /** buyItem with `item_ids: [1, 2]` and `prices: ["1.00", "2.00"]` sends
      `item_ids = "1,2"` and `prices = "1.00,2.00"`. */
  lemma BuyItemJoinsIdsAndPrices(client: BitSkins, code: string, stringify: Params -> QueryText)
    ensures Prepare(client, BuyItem,
                    Some(map["item_ids" := Arr([Num(1), Num(2)]),
                             "prices" := Arr([Str("1.00"), Str("2.00")])]), code, stringify).options
         == Some(map["item_ids" := Str("1,2"), "prices" := Str("1.00,2.00")])
  {
    var ids := [Num(1), Num(2)];
    var prices := [Str("1.00"), Str("2.00")];
    assert ToString(Arr(ids)) == "1,2" by {
      assert ToString(Num(1)) == "1" && ToString(Num(2)) == "2";
      assert seq(|ids|, i requires 0 <= i < |ids| => ElementText(ids[i])) == ["1", "2"];
      assert ToString(Arr(ids)) == Join(["1", "2"], ',');
    }
    assert ToString(Arr(prices)) == "1.00,2.00" by {
      assert ToString(Str("1.00")) == "1.00" && ToString(Str("2.00")) == "2.00";
      assert seq(|prices|, i requires 0 <= i < |prices| => ElementText(prices[i])) == ["1.00", "2.00"];
      assert ToString(Arr(prices)) == Join(["1.00", "2.00"], ',');
    }
    var given := map["item_ids" := Arr(ids), "prices" := Arr(prices)];
    var sent := Prepare(client, BuyItem, Some(given), code, stringify).options.value;
    assert FlattenedKeys(BuyItem) == ["item_ids", "prices"];
    assert sent.Keys == {"item_ids", "prices"};
    assert sent["item_ids"] == Str("1,2");
    assert sent["prices"] == Str("1.00,2.00");
    assert sent == map["item_ids" := Str("1,2"), "prices" := Str("1.00,2.00")];
  }
}
