/**
 * The client component: the optimistic reducer, the choice of which snapshot
 * to show, and the `client*` handlers that predict an event locally and then
 * call the matching server action.
 */
module CartView {
  import opened Wrappers
  import opened ShoppingMachine
  import Actions

  /**
   * The reducer handed to `useOptimistic`: it starts a fresh interpreter from
   * the server `data` and sends the action; the previous optimistic value is
   * not used.
   */
  function Predict(data: Option<Snapshot>, previous: Option<Snapshot>, action: Event): Snapshot
  {
    Step(StartFrom(data), action)
  }

  /** The snapshot the component shows: the prediction while there is one, else the server data. */
  function ActiveMachine(optimistic: Option<Snapshot>, data: Option<Snapshot>): Option<Snapshot>
  {
    if optimistic.Some? then optimistic else data
  }

  /** The cart shown, `[]` when there is no snapshot. */
  function ShownCart(active: Option<Snapshot>): seq<CartItem>
  {
    if active.Some? then active.value.context.cart else []
  }

  /** The state label shown, `"idle"` when there is no snapshot. */
  function ActiveState(active: Option<Snapshot>): string
  {
    if active.Some? then Label(active.value.value) else "idle"
  }

  /** Whether the Add and Empty buttons are enabled. */
  predicate CartButtonsEnabled(active: Option<Snapshot>)
  {
    ActiveState(active) == "idle"
  }

  const AddErrorMessage: string := "There was an error adding to cart"

  /** The prediction depends on the server data and the action only. */
  lemma PredictionIgnoresPrevious(data: Option<Snapshot>, p: Option<Snapshot>, q: Option<Snapshot>, action: Event)
    ensures Predict(data, p, action) == Predict(data, q, action)
    ensures Predict(data, p, action) == Step(StartFrom(data), action)
  {
  }

  /**
   * Two pending additions do not stack: the second prediction shows the server
   * cart plus the second item only.
   */
  lemma TwoPendingAddsShowOne(data: Option<Snapshot>, previous: Option<Snapshot>, first: int, second: int)
    requires StartFrom(data).value == Idle
    ensures var p := Predict(data, previous, AddToCart(first));
      ShownCart(Some(Predict(data, Some(p), AddToCart(second)))) ==
      StartFrom(data).context.cart + [CartItem(second)]
  {
  }

  /**
   * The `?? []` and `?? 'idle'` fallbacks always agree with the snapshot an
   * interpreter would start from: the view shows the cart and state label of
   * `StartFrom` of the active snapshot, whether or not there is one.
   */
  lemma ActiveViewMatchesStart(optimistic: Option<Snapshot>, data: Option<Snapshot>)
    ensures var active := ActiveMachine(optimistic, data);
      ShownCart(active) == StartFrom(active).context.cart &&
      ActiveState(active) == Label(StartFrom(active).value)
  {
  }

  /** While a prediction is pending, the view shows the action applied to the server data. */
  lemma PendingViewIsPrediction(data: Option<Snapshot>, previous: Option<Snapshot>, e: Event)
    ensures var active := ActiveMachine(Some(Predict(data, previous, e)), data);
      active == Some(Step(StartFrom(data), e)) &&
      ShownCart(active) == Step(StartFrom(data), e).context.cart &&
      ActiveState(active) == Label(Step(StartFrom(data), e).value)
  {
  }

  /** With no snapshot at all the view matches the machine's initial snapshot. */
  lemma NoViewDefaults()
    ensures ShownCart(ActiveMachine(None, None)) == [] == Initial.context.cart
    ensures ActiveState(ActiveMachine(None, None)) == "idle" == Label(Initial.value)
  {
  }

  /** The Add and Empty buttons are enabled exactly when the shown state is idle. */
  lemma CartButtonsEnabledIffIdle(active: Option<Snapshot>)
    ensures CartButtonsEnabled(active) <==> active.None? || active.value.value == Idle
  {
    if active.Some? {
      LabelInjective(active.value.value, Idle);
    }
  }

  /**
   * When the client's data agrees with the store, a server action that
   * succeeds stores exactly the snapshot that was predicted.
   */
  lemma PredictionConverges(store: Actions.Store, data: Option<Snapshot>, previous: Option<Snapshot>, e: Event)
    requires StartFrom(data) == Actions.Load(store)
    ensures Actions.Load(Actions.Dispatch(store, e)) == Predict(data, previous, e)
    ensures Actions.Stored(Actions.Dispatch(store, e)) == Some(Predict(data, previous, e))
  {
  }

  /**
   * Paying is predicted without a payload while the server receives the
   * billing text; both end in the same snapshot, whose billing is empty.
   */
  lemma PayPredictionMatchesServer(data: Option<Snapshot>, previous: Option<Snapshot>, billing: string)
    requires Consistent(StartFrom(data))
    ensures Predict(data, previous, Pay(None)) == Step(StartFrom(data), Pay(Some(billing)))
    ensures Predict(data, previous, Pay(None)).context.billing == ""
  {
  }

  /** The component's state and the handlers behind its forms. */
  class CartClient {
    const server: Actions.CartServer
    var data: Option<Snapshot>
    var optimistic: Option<Snapshot>
    var errors: seq<string>

    constructor (server: Actions.CartServer, data: Option<Snapshot>)
      ensures this.server == server && this.data == data
      ensures optimistic == None && errors == []
    {
      this.server := server;
      this.data := data;
      optimistic := None;
      errors := [];
    }

    method ClientAdd(id: int, failDraw: bool)
      requires server.Valid()
      modifies this, server
      ensures server.Valid()
      ensures data == old(data)
      ensures optimistic == Some(Predict(data, old(optimistic), AddToCart(id)))
      ensures failDraw ==> server.store == old(server.store)
      ensures !failDraw ==> server.store == Actions.Dispatch(old(server.store), AddToCart(id))
      ensures errors == if failDraw then [AddErrorMessage] else []
    {
      errors := [];
      optimistic := Some(Predict(data, optimistic, AddToCart(id)));
      var res := server.AddItem(id, failDraw);
      if res.error {
        errors := [AddErrorMessage];
      }
    }

    method ClientEmpty()
      requires server.Valid()
      modifies this, server
      ensures server.Valid()
      ensures data == old(data) && errors == old(errors)
      ensures optimistic == Some(Predict(data, old(optimistic), EmptyCart))
      ensures server.store == Actions.Dispatch(old(server.store), EmptyCart)
    {
      optimistic := Some(Predict(data, optimistic, EmptyCart));
      var _ := server.EmptyCart();
    }

    method ClientCheckout()
      requires server.Valid()
      modifies this, server
      ensures server.Valid()
      ensures data == old(data) && errors == old(errors)
      ensures optimistic == Some(Predict(data, old(optimistic), Checkout))
      ensures server.store == Actions.Dispatch(old(server.store), Checkout)
    {
      optimistic := Some(Predict(data, optimistic, Checkout));
      var _ := server.CheckoutCart();
    }

    method ClientSaveInfo(shipping: string)
      requires server.Valid()
      modifies this, server
      ensures server.Valid()
      ensures data == old(data) && errors == old(errors)
      ensures optimistic == Some(Predict(data, old(optimistic), Save(shipping)))
      ensures server.store == Actions.Dispatch(old(server.store), Save(shipping))
    {
      optimistic := Some(Predict(data, optimistic, Save(shipping)));
      var _ := server.SaveInfo(shipping);
    }

    method ClientPay(billing: string)
      requires server.Valid()
      modifies this, server
      ensures server.Valid()
      ensures data == old(data) && errors == old(errors)
      ensures optimistic == Some(Predict(data, old(optimistic), Pay(None)))
      ensures server.store == Actions.Dispatch(old(server.store), Pay(Some(billing)))
    {
      optimistic := Some(Predict(data, optimistic, Pay(None)));
      var _ := server.Pay(Some(billing));
    }

    method ClientBack()
      requires server.Valid()
      modifies this, server
      ensures server.Valid()
      ensures data == old(data) && errors == old(errors)
      ensures optimistic == Some(Predict(data, old(optimistic), Back))
      ensures server.store == Actions.Dispatch(old(server.store), Back)
    {
      optimistic := Some(Predict(data, optimistic, Back));
      var _ := server.CartBack();
    }
  }
}
