/**
  The manual order panel: a form (symbol, order type, side, amount) whose
  submit appends one `pending` row to `manual_orders` for every accepted call.
  The only guard is a non-empty amount; the amount's value is not checked.
*/
module Orders {
  import opened Store

  const OrderTypes: seq<string> := ["MARKET", "LIMIT"]
  const OrderSides: seq<string> := ["BUY", "SELL"]

  /** The submit button is enabled unless a call is in flight or the amount field is empty. */
  predicate PlaceOrderEnabled(loading: bool, amount: string) {
    !(loading || amount == "")
  }

  /** The handler's own guard: a call goes through with a signed-in user and a non-empty amount text. */
  predicate Accepted(user: Option<UserId>, amount: string) {
    !(user.None? || amount == "")
  }

  /**
    Whenever the button is enabled, the handler's guard lets a signed-in user's
    call through; so for a signed-in user the button's rule and the guard agree.
  */
  lemma EnabledPassesGuard(loading: bool, amount: string, user: Option<UserId>)
    requires user.Some?
    ensures PlaceOrderEnabled(loading, amount) ==> Accepted(user, amount)
    ensures !loading ==> (PlaceOrderEnabled(loading, amount) <==> Accepted(user, amount))
  {
  }

  class ManualOrderPanel {
    const store: Store
    var asset: string
    var orderType: string
    var orderSide: string
    /** The amount field's text; its parsed value reaches the handler as a parameter. */
    var amount: string
    var loading: bool
    var success: bool

    /** The selections hold one of the options their menus offer. */
    ghost predicate Valid()
      reads this
    {
      asset in AssetSymbols && orderType in OrderTypes && orderSide in OrderSides
    }

    constructor (store: Store)
      ensures Valid()
      ensures this.store == store
      ensures asset == "BTC" && orderType == "MARKET" && orderSide == "BUY" && amount == ""
      ensures !loading && !success
    {
      this.store := store;
      asset, orderType, orderSide, amount := "BTC", "MARKET", "BUY", "";
      loading, success := false, false;
    }

    method SelectAsset(symbol: string)
      requires Valid() && symbol in AssetSymbols
      modifies this`asset
      ensures Valid() && asset == symbol
    {
      asset := symbol;
    }

    method SelectOrderType(t: string)
      requires Valid() && t in OrderTypes
      modifies this`orderType
      ensures Valid() && orderType == t
    {
      orderType := t;
    }

    method SelectOrderSide(side: string)
      requires Valid() && side in OrderSides
      modifies this`orderSide
      ensures Valid() && orderSide == side
    {
      orderSide := side;
    }

    method EditAmount(text: string)
      modifies this`amount
      ensures amount == text
    {
      amount := text;
    }

    /**
      Place order: with a user and a non-empty amount, insert one pending row
      with the current selections and `parsedAmount` (whatever its sign); on
      success clear the amount and raise `success`, on error keep the form.
    */
    method HandlePlaceOrder(user: Option<UserId>, parsedAmount: real, outcome: Outcome)
      requires Valid()
      modifies this`loading, this`success, this`amount, store`manualOrders
      ensures Valid()
      ensures var accepted := Accepted(user, old(amount));
        && store.manualOrders == (if accepted && outcome.Ok?
                                  then old(store.manualOrders) + [OrderRow(user.value, asset, orderType, orderSide, parsedAmount, "pending")]
                                  else old(store.manualOrders))
        && amount == (if accepted && outcome.Ok? then "" else old(amount))
        && success == (if accepted && outcome.Ok? then true else old(success))
        && loading == (if accepted then false else old(loading))
    {
      if !Accepted(user, amount) {
        return;
      }
      loading := true;
      store.InsertOrder(OrderRow(user.value, asset, orderType, orderSide, parsedAmount, "pending"), outcome);
      if outcome.Ok? {
        success := true;
        amount := "";
      }
      loading := false;
    }
  }

  /**
    The handler does not reject a non-positive amount: the text "-5" parsed as
    -5 is queued as a pending order for -5 USDT.
  */
  method NegativeAmountIsQueued(panel: ManualOrderPanel, u: UserId)
    requires panel.Valid() && !panel.loading
    modifies panel`loading, panel`success, panel`amount, panel.store`manualOrders
    ensures |panel.store.manualOrders| == |old(panel.store.manualOrders)| + 1
    ensures panel.store.manualOrders[|old(panel.store.manualOrders)|].amountUsdt == -5.0
    ensures panel.store.manualOrders[|old(panel.store.manualOrders)|].status == "pending"
    ensures panel.store.manualOrders[|old(panel.store.manualOrders)|].assetSymbol in AssetSymbols
  {
    panel.EditAmount("-5");
    assert PlaceOrderEnabled(panel.loading, panel.amount);
    panel.HandlePlaceOrder(Some(u), -5.0, Ok);
  }

  /**
    From any state in which the submit button is enabled, a signed-in user's
    successful submit appends exactly one pending row carrying the selections.
  */
  method EnabledSubmitQueuesOne(panel: ManualOrderPanel, u: UserId, parsedAmount: real)
    requires panel.Valid() && PlaceOrderEnabled(panel.loading, panel.amount)
    modifies panel`loading, panel`success, panel`amount, panel.store`manualOrders
    ensures panel.store.manualOrders == old(panel.store.manualOrders) +
      [OrderRow(u, panel.asset, panel.orderType, panel.orderSide, parsedAmount, "pending")]
    ensures panel.amount == "" && panel.success && !PlaceOrderEnabled(panel.loading, panel.amount)
  {
    EnabledPassesGuard(panel.loading, panel.amount, Some(u));
    panel.HandlePlaceOrder(Some(u), parsedAmount, Ok);
  }
}
