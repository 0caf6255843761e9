/**
 * The shopping-cart state machine: its states, context, events, the `assign`
 * actions and the transition table, as a total pure function `Step` from a
 * snapshot and an event to the next snapshot.
 */
module ShoppingMachine {
  import opened Wrappers

  /** The machine's states; `Done` is the final state. */
  datatype State = Idle | EnterInfo | EnterBilling | Done

  /** The string a snapshot reports as its `value` (and the server stores as the row's state). */
  function Label(s: State): string
  {
    match s
    case Idle => "idle"
    case EnterInfo => "enterInfo"
    case EnterBilling => "enterBilling"
    case Done => "done"
  }

  /** Distinct states have distinct labels, so a label identifies its state. */
  lemma LabelInjective(s: State, t: State)
    ensures Label(s) == Label(t) <==> s == t
  {
  }

  datatype CartItem = CartItem(id: int)

  /** The events the machine is sent, each with its payload. */
  datatype Event =
    | AddToCart(id: int)
    | EmptyCart
    | DeleteCart
    | Error(message: string)
    | Checkout
    | Save(shipping: string)
    | Pay(billing: Option<string>)
    | Back

  /** The `error` field: `{}` when cleared, otherwise a copy of the ERROR event. */
  datatype ErrorRecord = NoError | Recorded(event: Event)

  datatype Context = Context(
    cart: seq<CartItem>,
    shipping: string,
    billing: string,
    error: ErrorRecord,
    info: map<string, string>)

  /** What the machine exposes: the current state (`value`) and the context. */
  datatype Snapshot = Snapshot(value: State, context: Context)

  const InitialContext: Context := Context([], "", "", NoError, map[])

  const Initial: Snapshot := Snapshot(Idle, InitialContext)

  /** Starting an interpreter resumes from the given snapshot, or from the initial one. */
  function StartFrom(existing: Option<Snapshot>): Snapshot
  {
    existing.GetOr(Initial)
  }

  // The `assign` actions of the machine.

  function ClearErrorsAction(c: Context): Context
  {
    c.(error := NoError)
  }

  function ErrorAction(c: Context, e: Event): Context
  {
    c.(error := Recorded(e))
  }

  function AddToCartAction(c: Context, id: int): Context
  {
    c.(cart := c.cart + [CartItem(id)])
  }

  function SaveAction(c: Context, shipping: string): Context
  {
    c.(shipping := shipping)
  }

  function EmptyCartAction(c: Context): Context
  {
    c.(cart := [])
  }

  function DeleteCartAction(c: Context): Context
  {
    c.(cart := [], shipping := "", billing := "")
  }

  /** Taking a transition into `target` runs the target's entry actions; only `Done` has one. */
  function Enter(target: State, c: Context): Snapshot
  {
    if target == Done then Snapshot(Done, DeleteCartAction(c)) else Snapshot(target, c)
  }

  /** The events the `on` table lists for each state. */
  predicate Listed(s: State, e: Event)
  {
    match s
    case Idle => e.Error? || e.AddToCart? || e.EmptyCart? || e.DeleteCart? || e.Checkout?
    case EnterInfo => e.Save? || e.Back?
    case EnterBilling => e.Pay? || e.Back?
    case Done => false
  }

  /** The only ways one step may change the cart: keep it, clear it, or append the added item. */
  predicate CartEvolves(before: seq<CartItem>, e: Event, after: seq<CartItem>)
  {
    after == before || after == [] || (e.AddToCart? && after == before + [CartItem(e.id)])
  }

  /**
   * What holds of every snapshot the machine can reach from its initial one:
   * billing is never filled in, and `Done` carries an empty cart and shipping.
   */
  predicate Consistent(s: Snapshot)
  {
    s.context.billing == "" &&
    (s.value == Done ==> s.context.cart == [] && s.context.shipping == "")
  }

  /** One transition of the machine; events a state does not list leave the snapshot as it is. */
  function Step(s: Snapshot, e: Event): (r: Snapshot)
    ensures !Listed(s.value, e) ==> r == s
    ensures CartEvolves(s.context.cart, e, r.context.cart)
    ensures r.context.info == s.context.info
    ensures Consistent(s) ==> Consistent(r)
  {
    match s.value
    case Idle =>
      (match e
       case Error(_) => Snapshot(Idle, ErrorAction(s.context, e))
       case AddToCart(id) => Snapshot(Idle, AddToCartAction(ClearErrorsAction(s.context), id))
       case EmptyCart => Snapshot(Idle, EmptyCartAction(ClearErrorsAction(s.context)))
       case DeleteCart => Snapshot(Idle, EmptyCartAction(ClearErrorsAction(s.context)))
       case Checkout => Enter(EnterInfo, s.context)
       case _ => s)
    case EnterInfo =>
      (match e
       case Save(shipping) => Enter(EnterBilling, SaveAction(s.context, shipping))
       case Back => Enter(Idle, s.context)
       case _ => s)
    case EnterBilling =>
      (match e
       case Pay(_) => Enter(Done, s.context)
       case Back => Enter(EnterInfo, s.context)
       case _ => s)
    case Done => s
  }

  // The transition table, row by row.

  lemma AddToCartInIdle(s: Snapshot, id: int)
    requires s.value == Idle
    ensures var r := Step(s, AddToCart(id));
      r.value == Idle &&
      r.context.cart == s.context.cart + [CartItem(id)] &&
      r.context.error == NoError &&
      r.context.shipping == s.context.shipping &&
      r.context.billing == s.context.billing &&
      r.context.info == s.context.info
  {
  }

  lemma EmptyAndDeleteAgree(s: Snapshot)
    requires s.value == Idle
    ensures Step(s, EmptyCart) == Step(s, DeleteCart)
    ensures Step(s, EmptyCart) == Snapshot(Idle, s.context.(cart := [], error := NoError))
  {
  }

  lemma ErrorInIdle(s: Snapshot, message: string)
    requires s.value == Idle
    ensures Step(s, Error(message)) == Snapshot(Idle, s.context.(error := Recorded(Error(message))))
  {
  }

  lemma CheckoutFromIdle(s: Snapshot)
    requires s.value == Idle
    ensures Step(s, Checkout) == Snapshot(EnterInfo, s.context)
  {
  }

  lemma SaveInEnterInfo(s: Snapshot, shipping: string)
    requires s.value == EnterInfo
    ensures Step(s, Save(shipping)) == Snapshot(EnterBilling, s.context.(shipping := shipping))
  {
  }

  lemma BackTransitions(s: Snapshot)
    ensures s.value == EnterInfo ==> Step(s, Back) == Snapshot(Idle, s.context)
    ensures s.value == EnterBilling ==> Step(s, Back) == Snapshot(EnterInfo, s.context)
  {
  }

  /** Paying reaches `Done` with everything cleared, whatever billing payload came along. */
  lemma PayReachesDone(s: Snapshot, billing: Option<string>)
    requires s.value == EnterBilling
    ensures var r := Step(s, Pay(billing));
      r.value == Done &&
      r.context.cart == [] && r.context.shipping == "" && r.context.billing == "" &&
      r.context.error == s.context.error && r.context.info == s.context.info
    ensures Step(s, Pay(billing)) == Step(s, Pay(None))
  {
  }

  lemma DoneIsAbsorbing(s: Snapshot, e: Event)
    requires s.value == Done
    ensures Step(s, e) == s
  {
  }

  // Sequences of events.

  /** The snapshot reached by sending `es` in order, starting from `s`. */
  function Run(s: Snapshot, es: seq<Event>): Snapshot
    decreases |es|
  {
    if es == [] then s else Run(Step(s, es[0]), es[1..])
  }

  lemma {:induction false} RunAppend(s: Snapshot, a: seq<Event>, b: seq<Event>)
    ensures Run(s, a + b) == Run(Run(s, a), b)
    decreases |a|
  {
    if a != [] {
      assert (a + b)[0] == a[0] && (a + b)[1..] == a[1..] + b;
      RunAppend(Step(s, a[0]), a[1..], b);
    } else {
      assert a + b == b;
    }
  }

  /** Once `Done` is reached no sequence of events changes the snapshot. */
  lemma {:induction false} RunFromDone(s: Snapshot, es: seq<Event>)
    requires s.value == Done
    ensures Run(s, es) == s
    decreases |es|
  {
    if es != [] {
      RunFromDone(Step(s, es[0]), es[1..]);
    }
  }

  lemma {:induction false} RunPreservesConsistent(s: Snapshot, es: seq<Event>)
    requires Consistent(s)
    ensures Consistent(Run(s, es))
    ensures Run(s, es).context.info == s.context.info
    decreases |es|
  {
    if es != [] {
      RunPreservesConsistent(Step(s, es[0]), es[1..]);
    }
  }

  /** Billing is never stored, and a reachable `Done` snapshot has an empty cart and shipping. */
  lemma ReachableIsConsistent(es: seq<Event>)
    ensures Run(Initial, es).context.billing == ""
    ensures Run(Initial, es).value == Done ==>
      Run(Initial, es).context.cart == [] && Run(Initial, es).context.shipping == ""
    ensures Run(Initial, es).context.info == map[]
  {
    RunPreservesConsistent(Initial, es);
  }

  /** Every item in the cart was already there or was added by an ADD_TO_CART event with its id. */
  lemma {:induction false} RunCartProvenance(s: Snapshot, es: seq<Event>, x: CartItem)
    requires x in Run(s, es).context.cart
    ensures x in s.context.cart || AddToCart(x.id) in es
    decreases |es|
  {
    if es != [] {
      var s1 := Step(s, es[0]);
      RunCartProvenance(s1, es[1..], x);
      if x in s1.context.cart && x !in s.context.cart {
        assert es[0] == AddToCart(x.id);
      } else if AddToCart(x.id) in es[1..] {
        assert es == [es[0]] + es[1..];
      }
    }
  }
}
