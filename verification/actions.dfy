/**
 * The server actions: each loads the subject's snapshot from the store,
 * sends one event to a freshly started interpreter and upserts the result.
 * The SQLite table becomes a map from `user_id` to a row; serialization is
 * the identity.
 */
module Actions {
  import opened Wrappers
  import opened ShoppingMachine

  /** The only subject the server actions touch. */
  const UserId: int := 1

  /** A row of the `machine` table: the snapshot and a copy of its state label. */
  datatype Row = Row(data: Snapshot, state: string)

  type Store = map<int, Row>

  /** Every row's state column agrees with the state inside its snapshot. */
  predicate LabelsAgree(store: Store)
  {
    forall k :: k in store ==> store[k].state == Label(store[k].data.value)
  }

  /** Every stored snapshot is one the machine can reach (see `ShoppingMachine.Consistent`). */
  predicate AllConsistent(store: Store)
  {
    forall k :: k in store ==> Consistent(store[k].data)
  }

  /** The subject's stored snapshot, if its row exists. */
  function Stored(store: Store): Option<Snapshot>
  {
    if UserId in store then Some(store[UserId].data) else None
  }

  /** The snapshot `getCart` starts its interpreter from. */
  function Load(store: Store): Snapshot
  {
    StartFrom(Stored(store))
  }

  /** An absent row loads as the machine's initial snapshot. */
  lemma LoadAbsent(store: Store)
    requires UserId !in store
    ensures Load(store) == Initial
    ensures Load(store).value == Idle
    ensures Load(store).context.cart == []
    ensures Load(store).context.shipping == "" && Load(store).context.billing == ""
    ensures Load(store).context.error == NoError
  {
  }

  /** The whole-record upsert `saveCart` performs for the subject. */
  function Upsert(store: Store, snap: Snapshot): (r: Store)
    ensures Load(r) == snap
    ensures UserId in r && r[UserId].state == Label(snap.value)
    ensures r.Keys == store.Keys + {UserId}
    ensures forall k :: k in store && k != UserId ==> r[k] == store[k]
    ensures LabelsAgree(store) ==> LabelsAgree(r)
    ensures AllConsistent(store) && Consistent(snap) ==> AllConsistent(r)
  {
    store[UserId := Row(snap, Label(snap.value))]
  }

  /** One successful server action: load, send `e`, save. */
  function Dispatch(store: Store, e: Event): (r: Store)
    ensures Load(r) == Step(Load(store), e)
    ensures UserId in r
    ensures r[UserId] == Row(Step(Load(store), e), Label(Step(Load(store), e).value))
    ensures r.Keys == store.Keys + {UserId}
    ensures forall k :: k in store && k != UserId ==> k in r && r[k] == store[k]
    ensures LabelsAgree(store) ==> LabelsAgree(r)
  {
    Upsert(store, Step(Load(store), e))
  }

  /** The server actions never store a snapshot the machine cannot reach. */
  lemma DispatchPreservesConsistent(store: Store, e: Event)
    requires AllConsistent(store)
    ensures AllConsistent(Dispatch(store, e))
  {
  }

  /** `checkoutCart` on a subject with no row creates one in state `enterInfo`. */
  lemma CheckoutOnEmptyStore(store: Store)
    requires UserId !in store
    ensures Dispatch(store, Checkout)[UserId] == Row(Snapshot(EnterInfo, InitialContext), "enterInfo")
  {
  }

  /** Successful server actions one after another. */
  function DispatchAll(store: Store, es: seq<Event>): Store
    decreases |es|
  {
    if es == [] then store else DispatchAll(Dispatch(store, es[0]), es[1..])
  }

  /** The store ends up holding what the pure machine computes from the loaded snapshot. */
  lemma {:induction false} DispatchAllRuns(store: Store, es: seq<Event>)
    ensures Load(DispatchAll(store, es)) == Run(Load(store), es)
    decreases |es|
  {
    if es != [] {
      DispatchAllRuns(Dispatch(store, es[0]), es[1..]);
    }
  }

  /** Two batches of successful server actions store what one run over both batches computes. */
  lemma DispatchBatches(store: Store, a: seq<Event>, b: seq<Event>)
    ensures Load(DispatchAll(store, a + b)) == Run(Run(Load(store), a), b)
  {
    DispatchAllRuns(store, a + b);
    RunAppend(Load(store), a, b);
  }

  /** What `addItem` returns: the item id, and whether the save was skipped. */
  datatype AddResult = AddResult(id: int, error: bool)

  /** A started xstate interpreter: it holds the current snapshot, and `send` steps it. */
  class Interpreter {
    var snapshot: Snapshot

    constructor (existing: Option<Snapshot>)
      ensures snapshot == StartFrom(existing)
    {
      snapshot := StartFrom(existing);
    }

    method Send(e: Event)
      modifies this
      ensures snapshot == Step(old(snapshot), e)
    {
      snapshot := Step(snapshot, e);
    }
  }

  /** The server side: the store and the actions that read and write it. */
  class CartServer {
    var store: Store

    predicate Valid()
      reads this
    {
      LabelsAgree(store)
    }

    constructor (rows: Store)
      requires LabelsAgree(rows)
      ensures Valid() && store == rows
    {
      store := rows;
    }

    method GetCart() returns (cart: Interpreter)
      ensures fresh(cart)
      ensures cart.snapshot == Load(store)
    {
      cart := new Interpreter(Stored(store));
    }

    method SaveCart(cart: Interpreter)
      requires Valid()
      modifies this
      ensures Valid()
      ensures store == Upsert(old(store), cart.snapshot)
      ensures Load(store) == cart.snapshot
    {
      store := store[UserId := Row(cart.snapshot, Label(cart.snapshot.value))];
    }

    method AddItem(id: int, failDraw: bool) returns (res: AddResult)
      requires Valid()
      modifies this
      ensures Valid()
      ensures res == AddResult(id, failDraw)
      ensures failDraw ==> store == old(store)
      ensures !failDraw ==> store == Dispatch(old(store), AddToCart(id))
    {
      var cart := GetCart();
      cart.Send(AddToCart(id));
      if failDraw {
        return AddResult(id, true);
      }
      SaveCart(cart);
      return AddResult(id, false);
    }

    method EmptyCart() returns (ok: bool)
      requires Valid()
      modifies this
      ensures Valid()
      ensures ok
      ensures store == Dispatch(old(store), Event.EmptyCart)
    {
      var cart := GetCart();
      cart.Send(Event.EmptyCart);
      SaveCart(cart);
      return true;
    }

    method CheckoutCart() returns (ok: bool)
      requires Valid()
      modifies this
      ensures Valid()
      ensures ok
      ensures store == Dispatch(old(store), Checkout)
    {
      var cart := GetCart();
      cart.Send(Checkout);
      SaveCart(cart);
      return true;
    }

    method SaveInfo(shipping: string) returns (ok: bool)
      requires Valid()
      modifies this
      ensures Valid()
      ensures ok
      ensures store == Dispatch(old(store), Save(shipping))
    {
      var cart := GetCart();
      cart.Send(Save(shipping));
      SaveCart(cart);
      return true;
    }

    method Pay(billing: Option<string>) returns (ok: bool)
      requires Valid()
      modifies this
      ensures Valid()
      ensures ok
      ensures store == Dispatch(old(store), Event.Pay(billing))
    {
      var cart := GetCart();
      cart.Send(Event.Pay(billing));
      SaveCart(cart);
      return true;
    }

    method CartBack() returns (ok: bool)
      requires Valid()
      modifies this
      ensures Valid()
      ensures ok
      ensures store == Dispatch(old(store), Back)
    {
      var cart := GetCart();
      cart.Send(Back);
      SaveCart(cart);
      return true;
    }
  }
}
