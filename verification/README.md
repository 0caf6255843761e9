# Shopping-cart state machine with optimistic client prediction

A Dafny model of the core of `rsc-state-machine`. The core is an xstate shopping-cart machine with four states: `idle`, `enterInfo`, `enterBilling` and the final `done`. The machine is evaluated in two places:

- **Server actions** (`addItem`, `emptyCart`, `checkoutCart`, `saveInfo`, `pay`, `cartBack`). Each one loads the single user's snapshot from a SQLite row, sends one event to a fresh interpreter, and upserts the result together with its state label, except that `addItem` skips the save on a failure draw.
- **The client component.** It predicts the same event locally with `useOptimistic` while the server action is in flight.

Modules:

- `Wrappers` (`wrappers.dfy`): `Option`, which stands for `undefined`.
- `ShoppingMachine` (`shopping_machine.dfy`): pure code. States, context, events, the `assign` actions and the `done` entry action. Also the transition table as the total function `Step`, sequences of events as `Run`, and lemmas for every row of the table and for invariants over runs.
- `Actions` (`actions.dfy`): imperative code.
  - `Interpreter` is a class holding the snapshot; `Send` steps it.
  - `CartServer` is a class whose `store: map<int, Row>` field stands in for the `machine` table.
  - Each server action is a method with `modifies this`. It is specified against the pure functions `Load`, `Upsert` and `Dispatch`.
- `CartView` (`cart_view.dfy`): mixed code.
  - Pure functions: the optimistic reducer (`Predict`) and the view selection (`ActiveMachine`, `ShownCart`, `ActiveState`, `CartButtonsEnabled`).
  - `CartClient` is a class whose methods are the `client*` handlers. Each handler records the prediction and then calls the server action.

I/O and randomness become parameters:

- The failure draw `Math.random() < 0.3` in `addItem` is the boolean `failDraw`.
- The random item id in `clientAdd` is an `int` parameter.
- The form fields read in `clientSaveInfo` and `clientPay` are `string` parameters.
- JSON serialization is the identity: a row holds the `Snapshot` value itself.

## Model

| member | source | states |
|---|---|---|
| ShoppingMachine.Step | src/app/ShoppingMachine.ts:18-62 | An event the state does not list returns the snapshot unchanged. The cart is only ever kept, cleared, or extended by exactly the added item at the end. `info` is never written. Reachable-state consistency (billing empty, `done` has an empty cart and shipping) is preserved. |
| ShoppingMachine.LabelInjective | src/app/actions.ts:28-30 | The state label written to the `state` column identifies the state: labels are equal iff states are equal. |
| ShoppingMachine.AddToCartInIdle | src/app/ShoppingMachine.ts:24-26 | ADD_TO_CART in `idle` stays in `idle`, appends `{id}` to the cart and resets `error`. Shipping, billing and info are unchanged. |
| ShoppingMachine.EmptyAndDeleteAgree | src/app/ShoppingMachine.ts:27-32 | EMPTY_CART and DELETE_CART in `idle` give the same snapshot: still `idle`, empty cart, `error` cleared, everything else unchanged. |
| ShoppingMachine.ErrorInIdle | src/app/ShoppingMachine.ts:21-23 | ERROR in `idle` records a copy of the event in `error` and changes nothing else. |
| ShoppingMachine.CheckoutFromIdle | src/app/ShoppingMachine.ts:33-35 | CHECKOUT moves `idle` to `enterInfo` with the context unchanged. |
| ShoppingMachine.SaveInEnterInfo | src/app/ShoppingMachine.ts:40-43 | SAVE in `enterInfo` moves to `enterBilling` and sets `shipping` to the payload. Nothing else changes. |
| ShoppingMachine.BackTransitions | src/app/ShoppingMachine.ts:44-56 | BACK goes `enterInfo` to `idle` and `enterBilling` to `enterInfo`, with the context unchanged. |
| ShoppingMachine.PayReachesDone | src/app/ShoppingMachine.ts:51-62 | PAY in `enterBilling` reaches `done`. The `deleteCart` entry action leaves cart, shipping and billing empty, and `error` and `info` are kept. The result is the same whatever billing payload was sent. |
| ShoppingMachine.DoneIsAbsorbing | src/app/ShoppingMachine.ts:59-62 | In the final state every event leaves the snapshot unchanged. |
| ShoppingMachine.RunAppend | src/app/ShoppingMachine.ts:18-62 | Sending `a` then `b` equals sending `a + b`. |
| ShoppingMachine.RunFromDone | src/app/ShoppingMachine.ts:59-62 | No sequence of events changes a `done` snapshot. |
| ShoppingMachine.RunPreservesConsistent | src/app/ShoppingMachine.ts:79-89 | Every run preserves consistency: billing stays empty (the `pay` action is never wired) and `done` has an empty cart and shipping. `info` is never changed. |
| ShoppingMachine.ReachableIsConsistent | src/app/ShoppingMachine.ts:8-16 | Every snapshot reachable from the initial one has empty billing and an empty `info`. If it is `done`, its cart and shipping are empty. |
| ShoppingMachine.RunCartProvenance | src/app/ShoppingMachine.ts:73-84 | Every item in the cart after a run was in the cart before or was added by an ADD_TO_CART event carrying its id. |
| Actions.LoadAbsent | src/app/actions.ts:11-18 | `getCart` without a row starts from exactly the initial snapshot: `idle`, empty cart, empty shipping and billing, no error, empty `info`. |
| Actions.Upsert | src/app/actions.ts:23-30 | After the upsert, loading gives back exactly the saved snapshot. The row's state column is the snapshot's label. The subject's key is present and no other key is added, removed or changed. The label invariant is preserved. |
| Actions.Dispatch | src/app/actions.ts:81-140 | One server action writes the whole row for the subject: the snapshot `Step(load, e)` and its label. It writes even when the step was a no-op, so a stale state column is re-synced. The key set grows by the subject only, and other rows are untouched. |
| Actions.DispatchBatches | src/app/actions.ts:81-140 | Two batches of successful server actions leave the store holding one run over the first batch followed by the second. |
| Actions.DispatchPreservesConsistent | src/app/actions.ts:81-140 | Server actions never store a snapshot that violates the reachable-state invariant. |
| Actions.CheckoutOnEmptyStore | src/app/actions.ts:94-103 | `checkoutCart` with no row creates one holding `enterInfo`, the initial context and the label `"enterInfo"`. |
| Actions.DispatchAllRuns | src/app/actions.ts:81-140 | After a series of successful server actions the store holds what `Run` computes from the initially loaded snapshot. |
| Actions.Interpreter.constructor | src/app/actions.ts:16-18 | A started interpreter holds the stored snapshot, or the initial one when there is none. |
| Actions.Interpreter.Send | src/app/actions.ts:47-49 | Sending an event replaces the snapshot by `Step` of the old one. |
| Actions.CartServer.GetCart | src/app/actions.ts:11-21 | Returns a fresh interpreter holding `Load(store)`. |
| Actions.CartServer.SaveCart | src/app/actions.ts:23-35 | The store becomes `Upsert(old store, snapshot)`, and loading then gives back the snapshot. |
| Actions.CartServer.AddItem | src/app/actions.ts:38-79 | Returns `{id}` with the error flag equal to the failure draw. On failure the store is exactly as before. Otherwise the store is `Dispatch(old store, ADD_TO_CART id)`. |
| Actions.CartServer.EmptyCart | src/app/actions.ts:81-92 | Applies EMPTY_CART to the loaded snapshot, saves it and returns `true`. |
| Actions.CartServer.CheckoutCart | src/app/actions.ts:94-103 | Applies CHECKOUT to the loaded snapshot, saves it and returns `true`. |
| Actions.CartServer.SaveInfo | src/app/actions.ts:105-116 | Applies SAVE with the shipping text, saves it and returns `true`. |
| Actions.CartServer.Pay | src/app/actions.ts:118-129 | Applies PAY with the billing payload, saves it and returns `true`. |
| Actions.CartServer.CartBack | src/app/actions.ts:131-140 | Applies BACK to the loaded snapshot, saves it and returns `true`. |
| CartView.PredictionIgnoresPrevious | src/app/Cart.tsx:16-27 | The optimistic reducer's result depends only on the server `data` and the action, never on the previous optimistic value. |
| CartView.TwoPendingAddsShowOne | src/app/Cart.tsx:14-28 | Predictions do not stack. A second pending ADD_TO_CART shows the server cart plus only the second item. |
| CartView.ActiveViewMatchesStart | src/app/Cart.tsx:29-34 | For every optimistic value and server `data`, the cart and state shown (with the `?? []` and `?? 'idle'` fallbacks) are those of the snapshot an interpreter would start from. |
| CartView.PendingViewIsPrediction | src/app/Cart.tsx:14-34 | While a prediction is pending, the view shows the action applied to the server `data`: its snapshot, cart and state label. |
| CartView.NoViewDefaults | src/app/Cart.tsx:32-34 | With no snapshot the cart shown is `[]` and the state is `"idle"`, matching the machine's initial snapshot. |
| CartView.CartButtonsEnabledIffIdle | src/app/Cart.tsx:87-92 | The Add and Empty buttons are enabled iff there is no snapshot or its state is `idle`. |
| CartView.PredictionConverges | src/app/Cart.tsx:16-27 | When the client's `data` agrees with the store, the snapshot a successful server action stores equals the prediction. |
| CartView.PayPredictionMatchesServer | src/app/Cart.tsx:64-67 | Predicting PAY without a payload gives the same snapshot as the server's PAY with the billing text, and its billing is `""`. |
| CartView.CartClient.constructor | src/app/Cart.tsx:13-15 | The component starts with no errors and no optimistic value. |
| CartView.CartClient.ClientAdd | src/app/Cart.tsx:36-46 | Clears the errors and predicts ADD_TO_CART with the same id it sends to `addItem`. Records exactly the one error message iff the failure draw happened. On failure the store is unchanged. |
| CartView.CartClient.ClientEmpty | src/app/Cart.tsx:48-51 | Predicts EMPTY_CART and runs `emptyCart`. The errors are unchanged. |
| CartView.CartClient.ClientCheckout | src/app/Cart.tsx:53-56 | Predicts CHECKOUT and runs `checkoutCart`. |
| CartView.CartClient.ClientSaveInfo | src/app/Cart.tsx:58-62 | Predicts SAVE and runs `saveInfo` with the same shipping text. |
| CartView.CartClient.ClientPay | src/app/Cart.tsx:64-68 | Predicts PAY with no payload while sending the billing text to `pay`. |
| CartView.CartClient.ClientBack | src/app/Cart.tsx:70-73 | Predicts BACK and runs `cartBack`. |

## Left out

- JSX rendering, CSS classes, the `console.log` and the debug `JSON.stringify` output of `Cart.tsx` are UI only.
- React's `useOptimistic` timing is not modelled: the reset of the optimistic value after a transition settles, and the re-render with fresh `data` after `revalidatePath`, are framework behaviour. Convergence and rollback are stated instead by `PredictionConverges` and by the store postconditions of `AddItem` and `ClientAdd`.
- `sleep`/`DELAY` and `revalidatePath` are latency and cache plumbing and have no effect on the modelled state.
- The SQLite driver, the SQL text and JSON serialization are replaced by a `map<int, Row>` holding snapshots directly. `src/app/page.tsx` is not part of this model.
- `Actions.CartServer.AddItem`: only the injected failure draw leads to the error result. Exceptions thrown by the database or the interpreter inside the `try` are not modelled.
- The commented-out ERROR persistence path in `addItem` and the commented-out DELETE in `emptyCart` are not behaviour and are not modelled.
- Overlapping server actions on the same row (the read-modify-write race) are not modelled. Every method runs to completion before the next one starts.
- xstate's interpreter lifecycle and snapshot metadata (`history`, `changed`, `actions`, …) are not modelled. A snapshot is only `value` plus `context`. `interpreter.stop()` in the reducer has no counterpart.
- The `pay` assign action is defined but never referenced by a transition, so the model has no counterpart for it. If it were wired to PAY, the `deleteCart` entry action of `done` would still clear billing.
- The `minQty` guard is defined but never referenced, so the model has no counterpart for it.
- Events are a closed union of the eight names the machine knows. xstate also accepts arbitrary event names, which would leave every state unchanged.
- `saveInfo` and the SAVE event take a plain string. The case of an absent (`undefined`) shipping value is not modelled.
- Item ids are opaque `int`s. The source draws a float from `Math.random()`.
