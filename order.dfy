/**
  The order model of src/models/order.py: an order is checked when it is built (a side of buy or
  sell, a type of MARKET or LIMIT, a price for a LIMIT order) and gets a client id when none is
  given; its request dictionary always carries the six base fields and the optional ones only
  when they are set. The uuid drawn for a missing client id is a parameter.
 */
module Orders {
  import opened Wrappers
  import opened Json

  /** A built order; its client id is always present. */
  datatype Order = Order(
    market: string,
    side: string,
    size: real,
    orderType: string,
    price: Option<real>,
    clientId: string,
    timeInForce: string,
    goodTilBlock: Option<int>,
    goodTilTimeInSeconds: Option<int>,
    postOnly: bool,
    reduceOnly: bool)

  /** The time in force of an order that does not name one. */
  const DefaultTimeInForce: string := "GTT"

  predicate ValidSide(side: string) {
    side == "buy" || side == "sell"
  }

  predicate ValidType(orderType: string) {
    orderType == "MARKET" || orderType == "LIMIT"
  }

  /**
    The dataclass constructor with its __post_init__: the side is checked, then the type, then the
    price of a LIMIT order, each failure raising ValueError with its message; a missing client id
    is replaced by the freshly drawn `freshId`.
   */
  function NewOrder(market: string, side: string, size: real, orderType: string, price: Option<real>,
                    clientId: Option<string>, timeInForce: string, goodTilBlock: Option<int>,
                    goodTilTimeInSeconds: Option<int>, postOnly: bool, reduceOnly: bool, freshId: string)
    : (r: Result<Order>)
    ensures r.Ok? <==> ValidSide(side) && ValidType(orderType) && (orderType == "LIMIT" ==> price.Some?)
    ensures !ValidSide(side) ==> r == Err(ValueError("Invalid side: " + side + ". Must be 'buy' or 'sell'."))
    ensures ValidSide(side) && !ValidType(orderType) ==>
      r == Err(ValueError("Invalid type: " + orderType + ". Must be 'MARKET' or 'LIMIT'."))
    ensures ValidSide(side) && orderType == "LIMIT" && price.None? ==>
      r == Err(ValueError("Price is required for LIMIT orders."))
    ensures r.Ok? ==> r.value.clientId == clientId.GetOr(freshId)
    ensures r.Ok? ==>
      (r.value.market == market && r.value.side == side && r.value.size == size &&
       r.value.orderType == orderType && r.value.price == price && r.value.timeInForce == timeInForce &&
       r.value.goodTilBlock == goodTilBlock && r.value.goodTilTimeInSeconds == goodTilTimeInSeconds &&
       r.value.postOnly == postOnly && r.value.reduceOnly == reduceOnly)
  {
    if !ValidSide(side) then Err(ValueError("Invalid side: " + side + ". Must be 'buy' or 'sell'."))
    else if !ValidType(orderType) then Err(ValueError("Invalid type: " + orderType + ". Must be 'MARKET' or 'LIMIT'."))
    else if orderType == "LIMIT" && price.None? then Err(ValueError("Price is required for LIMIT orders."))
    else Ok(Order(market, side, size, orderType, price, clientId.GetOr(freshId), timeInForce, goodTilBlock,
                  goodTilTimeInSeconds, postOnly, reduceOnly))
  }

  /** An order given only its four required fields, the rest at their defaults. */
  function Basic(market: string, side: string, size: real, orderType: string, price: Option<real>, freshId: string)
    : (r: Result<Order>)
  {
    NewOrder(market, side, size, orderType, price, None, DefaultTimeInForce, None, None, false, false, freshId)
  }

  /** market_buy: a valid MARKET buy without a price. */
  function MarketBuy(market: string, size: real, freshId: string): (o: Order)
    ensures Basic(market, "buy", size, "MARKET", None, freshId) == Ok(o)
    ensures o.side == "buy" && o.orderType == "MARKET" && o.price.None? && o.clientId == freshId
  {
    Basic(market, "buy", size, "MARKET", None, freshId).value
  }

  /** market_sell: a valid MARKET sell without a price. */
  function MarketSell(market: string, size: real, freshId: string): (o: Order)
    ensures Basic(market, "sell", size, "MARKET", None, freshId) == Ok(o)
    ensures o.side == "sell" && o.orderType == "MARKET" && o.price.None? && o.clientId == freshId
  {
    Basic(market, "sell", size, "MARKET", None, freshId).value
  }

  /** limit_buy: a valid LIMIT buy at the given price. */
  function LimitBuy(market: string, size: real, price: real, freshId: string): (o: Order)
    ensures Basic(market, "buy", size, "LIMIT", Some(price), freshId) == Ok(o)
    ensures o.side == "buy" && o.orderType == "LIMIT" && o.price == Some(price) && o.clientId == freshId
  {
    Basic(market, "buy", size, "LIMIT", Some(price), freshId).value
  }

  /** limit_sell: a valid LIMIT sell at the given price. */
  function LimitSell(market: string, size: real, price: real, freshId: string): (o: Order)
    ensures Basic(market, "sell", size, "LIMIT", Some(price), freshId) == Ok(o)
    ensures o.side == "sell" && o.orderType == "LIMIT" && o.price == Some(price) && o.clientId == freshId
  {
    Basic(market, "sell", size, "LIMIT", Some(price), freshId).value
  }

  /** The six fields every request dictionary carries. */
  const BaseKeys: set<string> := {"market", "side", "size", "type", "clientId", "timeInForce"}

  /** The dictionary with the six base fields. */
  function BaseDict(o: Order): (d: Record)
    ensures d.Keys == BaseKeys
    ensures d["market"] == JStr(o.market) && d["side"] == JStr(o.side) && d["size"] == JNumText(o.size)
    ensures d["type"] == JStr(o.orderType) && d["clientId"] == JStr(o.clientId) && d["timeInForce"] == JStr(o.timeInForce)
  {
    map["market" := JStr(o.market), "side" := JStr(o.side), "size" := JNumText(o.size),
        "type" := JStr(o.orderType), "clientId" := JStr(o.clientId), "timeInForce" := JStr(o.timeInForce)]
  }

  /** `d[key] = value` when the field is set, else `d` as it is. */
  function AddIf(d: Record, set_: bool, key: string, value: Json): Record
  {
    if set_ then d[key := value] else d
  }

  /** The request dictionary of an order: the base fields, then each optional field only when it is set. */
  function OrderDict(o: Order): (d: Record)
  {
    var withPrice := AddIf(BaseDict(o), o.price.Some?, "price", JNumText(o.price.GetOr(0.0)));
    var withBlock := AddIf(withPrice, o.goodTilBlock.Some?, "goodTilBlock", JInt(o.goodTilBlock.GetOr(0)));
    var withTime := AddIf(withBlock, o.goodTilTimeInSeconds.Some?, "goodTilTimeInSeconds", JInt(o.goodTilTimeInSeconds.GetOr(0)));
    var withPost := AddIf(withTime, o.postOnly, "postOnly", JBool(true));
    AddIf(withPost, o.reduceOnly, "reduceOnly", JBool(true))
  }

  /**
    The request dictionary always holds the six base fields with the size as a string; each
    optional key is present exactly when its field is set, a price as a string and each flag as
    True; no other key appears.
   */
  lemma OrderDictFields(o: Order)
    ensures var d := OrderDict(o);
      BaseKeys <= d.Keys &&
      d["market"] == JStr(o.market) && d["side"] == JStr(o.side) && d["size"] == JNumText(o.size) &&
      d["type"] == JStr(o.orderType) && d["clientId"] == JStr(o.clientId) && d["timeInForce"] == JStr(o.timeInForce)
    ensures ("price" in OrderDict(o) <==> o.price.Some?) && (o.price.Some? ==> OrderDict(o)["price"] == JNumText(o.price.value))
    ensures ("goodTilBlock" in OrderDict(o) <==> o.goodTilBlock.Some?) &&
      (o.goodTilBlock.Some? ==> OrderDict(o)["goodTilBlock"] == JInt(o.goodTilBlock.value))
    ensures ("goodTilTimeInSeconds" in OrderDict(o) <==> o.goodTilTimeInSeconds.Some?) &&
      (o.goodTilTimeInSeconds.Some? ==> OrderDict(o)["goodTilTimeInSeconds"] == JInt(o.goodTilTimeInSeconds.value))
    ensures ("postOnly" in OrderDict(o) <==> o.postOnly) && (o.postOnly ==> OrderDict(o)["postOnly"] == JBool(true))
    ensures ("reduceOnly" in OrderDict(o) <==> o.reduceOnly) && (o.reduceOnly ==> OrderDict(o)["reduceOnly"] == JBool(true))
    ensures OrderDict(o).Keys <= BaseKeys + {"price", "goodTilBlock", "goodTilTimeInSeconds", "postOnly", "reduceOnly"}
  {
    BaseFieldsKept(o);
    OptionalFields(o);
  }

  /** Adding the optional keys never touches a base field. */
  lemma BaseFieldsKept(o: Order)
    ensures BaseKeys <= OrderDict(o).Keys
    ensures forall k :: k in BaseKeys ==> OrderDict(o)[k] == BaseDict(o)[k]
  {
    var base := BaseDict(o);
    var withPrice := AddIf(base, o.price.Some?, "price", JNumText(o.price.GetOr(0.0)));
    var withBlock := AddIf(withPrice, o.goodTilBlock.Some?, "goodTilBlock", JInt(o.goodTilBlock.GetOr(0)));
    var withTime := AddIf(withBlock, o.goodTilTimeInSeconds.Some?, "goodTilTimeInSeconds", JInt(o.goodTilTimeInSeconds.GetOr(0)));
    var withPost := AddIf(withTime, o.postOnly, "postOnly", JBool(true));
    AddIfKeepsBase(base, o.price.Some?, "price", JNumText(o.price.GetOr(0.0)));
    AddIfKeepsBase(withPrice, o.goodTilBlock.Some?, "goodTilBlock", JInt(o.goodTilBlock.GetOr(0)));
    AddIfKeepsBase(withBlock, o.goodTilTimeInSeconds.Some?, "goodTilTimeInSeconds", JInt(o.goodTilTimeInSeconds.GetOr(0)));
    AddIfKeepsBase(withTime, o.postOnly, "postOnly", JBool(true));
    AddIfKeepsBase(withPost, o.reduceOnly, "reduceOnly", JBool(true));
  }

  lemma AddIfKeepsBase(d: Record, set_: bool, key: string, value: Json)
    requires BaseKeys <= d.Keys && key !in BaseKeys
    ensures BaseKeys <= AddIf(d, set_, key, value).Keys
    ensures forall k :: k in BaseKeys ==> AddIf(d, set_, key, value)[k] == d[k]
  {
  }

  /** Each optional key is present exactly when its field is set, and no other key is added. */
  lemma OptionalFields(o: Order)
    ensures ("price" in OrderDict(o) <==> o.price.Some?) && (o.price.Some? ==> OrderDict(o)["price"] == JNumText(o.price.value))
    ensures ("goodTilBlock" in OrderDict(o) <==> o.goodTilBlock.Some?) &&
      (o.goodTilBlock.Some? ==> OrderDict(o)["goodTilBlock"] == JInt(o.goodTilBlock.value))
    ensures ("goodTilTimeInSeconds" in OrderDict(o) <==> o.goodTilTimeInSeconds.Some?) &&
      (o.goodTilTimeInSeconds.Some? ==> OrderDict(o)["goodTilTimeInSeconds"] == JInt(o.goodTilTimeInSeconds.value))
    ensures ("postOnly" in OrderDict(o) <==> o.postOnly) && (o.postOnly ==> OrderDict(o)["postOnly"] == JBool(true))
    ensures ("reduceOnly" in OrderDict(o) <==> o.reduceOnly) && (o.reduceOnly ==> OrderDict(o)["reduceOnly"] == JBool(true))
    ensures OrderDict(o).Keys <= BaseKeys + {"price", "goodTilBlock", "goodTilTimeInSeconds", "postOnly", "reduceOnly"}
  {
    var base := BaseDict(o);
    var withPrice := AddIf(base, o.price.Some?, "price", JNumText(o.price.GetOr(0.0)));
    var withBlock := AddIf(withPrice, o.goodTilBlock.Some?, "goodTilBlock", JInt(o.goodTilBlock.GetOr(0)));
    var withTime := AddIf(withBlock, o.goodTilTimeInSeconds.Some?, "goodTilTimeInSeconds", JInt(o.goodTilTimeInSeconds.GetOr(0)));
    var withPost := AddIf(withTime, o.postOnly, "postOnly", JBool(true));
    assert "price" !in BaseKeys && "goodTilBlock" !in BaseKeys && "goodTilTimeInSeconds" !in BaseKeys;
    assert "postOnly" !in BaseKeys && "reduceOnly" !in BaseKeys;
    assert ("price" in withPrice <==> o.price.Some?) && (o.price.Some? ==> withPrice["price"] == JNumText(o.price.value));
    assert ("price" in withPost <==> o.price.Some?) && (o.price.Some? ==> withPost["price"] == JNumText(o.price.value));
    assert ("goodTilBlock" in withPost <==> o.goodTilBlock.Some?) &&
      (o.goodTilBlock.Some? ==> withPost["goodTilBlock"] == JInt(o.goodTilBlock.value));
    assert ("goodTilTimeInSeconds" in withPost <==> o.goodTilTimeInSeconds.Some?) &&
      (o.goodTilTimeInSeconds.Some? ==> withPost["goodTilTimeInSeconds"] == JInt(o.goodTilTimeInSeconds.value));
  }

  /** to_dict: the base fields, then each optional field added only when it is set. */
  method ToDict(o: Order) returns (d: Record)
    ensures d == OrderDict(o)
  {
    d := BaseDict(o);
    if o.price.Some? {
      d := d["price" := JNumText(o.price.value)];
    }
    ghost var withPrice := d;
    assert withPrice == AddIf(BaseDict(o), o.price.Some?, "price", JNumText(o.price.GetOr(0.0)));
    if o.goodTilBlock.Some? {
      d := d["goodTilBlock" := JInt(o.goodTilBlock.value)];
    }
    ghost var withBlock := d;
    assert withBlock == AddIf(withPrice, o.goodTilBlock.Some?, "goodTilBlock", JInt(o.goodTilBlock.GetOr(0)));
    if o.goodTilTimeInSeconds.Some? {
      d := d["goodTilTimeInSeconds" := JInt(o.goodTilTimeInSeconds.value)];
    }
    ghost var withTime := d;
    assert withTime == AddIf(withBlock, o.goodTilTimeInSeconds.Some?, "goodTilTimeInSeconds", JInt(o.goodTilTimeInSeconds.GetOr(0)));
    if o.postOnly {
      d := d["postOnly" := JBool(true)];
    }
    ghost var withPost := d;
    assert withPost == AddIf(withTime, o.postOnly, "postOnly", JBool(true));
    if o.reduceOnly {
      d := d["reduceOnly" := JBool(true)];
    }
    assert d == AddIf(withPost, o.reduceOnly, "reduceOnly", JBool(true));
  }

  /** A supplied client id survives construction unchanged, whatever id would have been drawn. */
  lemma SuppliedClientIdKept(market: string, side: string, size: real, orderType: string, price: Option<real>,
                             id: string, freshId: string)
    requires ValidSide(side) && ValidType(orderType) && (orderType == "LIMIT" ==> price.Some?)
    ensures NewOrder(market, side, size, orderType, price, Some(id), DefaultTimeInForce, None, None, false, false, freshId)
      == NewOrder(market, side, size, orderType, price, Some(id), DefaultTimeInForce, None, None, false, false, id)
    ensures NewOrder(market, side, size, orderType, price, Some(id), DefaultTimeInForce, None, None, false, false, freshId)
      .value.clientId == id
  {
  }

  /** A market order's dictionary has no price; a limit order's carries its price as a string; neither has the flags. */
  lemma FactoryDicts(market: string, size: real, price: real, freshId: string)
    ensures "price" !in OrderDict(MarketBuy(market, size, freshId))
    ensures OrderDict(MarketSell(market, size, freshId))["type"] == JStr("MARKET")
    ensures OrderDict(LimitBuy(market, size, price, freshId))["price"] == JNumText(price)
    ensures OrderDict(LimitSell(market, size, price, freshId))["side"] == JStr("sell")
    ensures "postOnly" !in OrderDict(LimitBuy(market, size, price, freshId))
    ensures "reduceOnly" !in OrderDict(MarketBuy(market, size, freshId))
  {
    OrderDictFields(MarketBuy(market, size, freshId));
    OrderDictFields(MarketSell(market, size, freshId));
    OrderDictFields(LimitBuy(market, size, price, freshId));
    OrderDictFields(LimitSell(market, size, price, freshId));
  }
}
