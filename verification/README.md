# Cart/order store — a Dafny model

This project models `CartStore`, the single state container of a mobile
shopping-cart application. The store owns:

- the product catalogue;
- the cart ledger, a list of (product, quantity) lines;
- four fixed delivery options, each with a `selected` flag;
- the analytics event log;
- a loading flag and the current error message.

The store's getters are pure functions over sequences:

- `totalAmount` is Σ price × quantity;
- `totalItems` is Σ quantity;
- `isMinimumOrderMet` is `totalAmount >= 1000`;
- `selectedOptions` is the options whose flag is set.

The mutators are methods of the class `Stores.CartStore`. Each states its whole
new state in terms of the old one, through the pure functions of `Ledger` and
`OrderOptions`. What the source promises about those functions is proved as
lemmas.

The store's asynchronous operations are split where they await an external
service. The service's outcome becomes a parameter of the step that resolves it:

- analytics delivery: `Delivered(ok)` or `DeliveryThrew`;
- order submission: `Responded(success, code)` or `Threw`;
- the product supplier: the catalogue, or `None`.

`Date.now()` becomes the parameter `now`. `submitOrder` has two halves:

- `SubmitOrder` runs the guards and dispatches the order;
- `ResolveSubmission` applies the service's outcome.

Other store calls may happen between the two halves, as they can in the
application.

Files:

- `models.dfy` holds the value types.
- `ledger.dfy` holds the cart lines, the totals, and the effect of `addToCart`, `removeFromCart` and `updateQuantity`.
- `options.dfy` holds the option set.
- `submission.dfy` holds the guards, the messages, `translateError` and the simulated service's contract.
- `cart_store.dfy` holds the class.
- `scenarios.dfy` holds client uses of the store, proved from the class's contracts alone.
- `aliasing.dfy` holds the line and option objects as the application shares them (see Findings).

Behaviour of the code worth noting:

- `updateQuantity(id, q)` with `q <= 0` acts on the lines exactly like `removeFromCart(id)`, for every `id` (`Ledger.UpdateNonPositiveRemoves`). On an absent `id`, however, `removeFromCart` still logs a CART_UPDATED event and `updateQuantity` logs nothing.
- `updateQuantity` logs a CART_UPDATED event on a present line whatever the quantity: directly when it is positive, through `removeFromCart` otherwise.
- The store does not reject a non-positive `addToCart` quantity. Positive quantities are kept only when positive amounts are added (`Ledger.AddLineSpec`).
- The ORDER_SUBMITTED event is taken when the service has answered, not when the order was sent. It carries the cart as it is at that moment.
- On a service failure, `submitOrder` returns the service's own result with its raw error code. Only the store's `error` field gets the translated message.
- The empty-cart guard of `submitOrder` puts the message 'Корзина пуста' itself in both the returned result and `error`; it goes through no error code and no translation.

## Model

| member | source | states |
|---|---|---|
| `Ledger.TotalAmount` | app/stores/CartStore.ts:23-27 | the amount is the sum of price × quantity; it is non-negative when prices and quantities are |
| `Ledger.TotalItems` | app/stores/CartStore.ts:33-35 | the item count is the sum of quantities; it is non-negative, and at least the number of lines when every quantity is positive |
| `Ledger.IsMinimumOrderMet` | app/stores/CartStore.ts:37-39 | the minimum (1000) is met only by a non-empty cart |
| `Ledger.TotalsAppend` | app/stores/CartStore.ts:23-35 | both totals add up over concatenated line lists |
| `Ledger.SingleLineTotals` | app/stores/CartStore.ts:23-35 | a single line's totals are its subtotal and its quantity |
| `Ledger.TotalsReplace` | app/stores/CartStore.ts:23-35 | replacing one line moves each total by exactly the difference of the two lines |
| `Ledger.TotalsDelete` | app/stores/CartStore.ts:23-35 | deleting one line lowers each total by exactly that line |
| `Ledger.FindLine` | app/stores/CartStore.ts:63 | the lookup gives the first line of the product, or none exactly when no line has that id |
| `Ledger.FindLineSameIds` | app/stores/CartStore.ts:63 | the lookup depends only on the product ids, position by position |
| `Ledger.QuantityOfCons` | app/stores/CartStore.ts:63 | a leading line of another product does not change a product's quantity |
| `Ledger.AddLine` | app/stores/CartStore.ts:62-69 | after adding, the product has a line; the list grows by one exactly when it had none, and the lines already there keep their products in place |
| `Ledger.AddLineSpec` | app/stores/CartStore.ts:62-69 | a present product's line alone grows by `quantity`; otherwise exactly one line `{product, quantity}` is appended at the end; one line per product id is kept; positive quantities stay positive for a positive addition |
| `Ledger.AddLineTotals` | app/stores/CartStore.ts:62-69 | after `addToCart` the item count grows by `quantity` and the amount by the line's unit price × `quantity` |
| `Ledger.AddLineQuantities` | app/stores/CartStore.ts:62-69 | the product's quantity grows by `quantity`; every other product's is unchanged |
| `Ledger.RemoveLines` | app/stores/CartStore.ts:74-75 | no line with the id remains; every other line is kept, and no line is added |
| `Ledger.RemoveLinesAbsent` | app/stores/CartStore.ts:74-75 | removing an absent id leaves the lines as they were |
| `Ledger.RemoveLinesAt` | app/stores/CartStore.ts:74-75 | with one line per product, removal deletes exactly that line and keeps the others in their original order |
| `Ledger.RemoveLinesKeepsInvariants` | app/stores/CartStore.ts:74-75 | removal keeps one line per product id, and keeps quantities positive |
| `Ledger.RemoveLinesOthers` | app/stores/CartStore.ts:74-75 | every other product keeps its quantity |
| `Ledger.RemoveLinesTotals` | app/stores/CartStore.ts:74-75 | the removed product's quantity becomes 0, the others' stay, and both totals drop by exactly its line |
| `Ledger.UpdateLines` | app/stores/CartStore.ts:79-90 | the list never grows; a positive quantity keeps its length and leaves every line of another product as it was; a non-positive quantity leaves no line of the product |
| `Ledger.UpdateNonPositiveRemoves` | app/stores/CartStore.ts:79-90 | with `quantity <= 0`, `updateQuantity` acts on the lines exactly as `removeFromCart`, whether or not the id is present |
| `Ledger.UpdateLinesSpec` | app/stores/CartStore.ts:79-90 | with `quantity > 0` the product's line alone gets that quantity and nothing else changes, so an absent id changes nothing; one line per product and positive quantities are kept |
| `Ledger.UpdateLinesTotals` | app/stores/CartStore.ts:79-90 | after a positive update the product's quantity is the new one, and both totals move by the difference |
| `Ledger.SetQuantityTotals` | app/stores/CartStore.ts:23-35 | setting one line's quantity moves the item count by the difference and the amount by its price times the difference |
| `OrderOptions.InitialOptions` | app/stores/CartStore.ts:8-13 | the store starts with the four fixed option ids, which are distinct, and nothing selected |
| `OrderOptions.SelectedOptions` | app/stores/CartStore.ts:29-31 | an option is in the result iff it is one of the options and selected; the result is no longer than the options |
| `OrderOptions.NoneSelected` | app/stores/CartStore.ts:29-31 | options with every flag clear have no selected options |
| `OrderOptions.FindOption` | app/stores/CartStore.ts:93 | the lookup gives the first option with the id, or none exactly when no option has it |
| `OrderOptions.FindOptionSameIds` | app/stores/CartStore.ts:93 | the lookup depends only on the ids |
| `OrderOptions.Toggle` | app/stores/CartStore.ts:92-99 | the ids are kept, position by position, and every option with another id is unchanged |
| `OrderOptions.ToggleSpec` | app/stores/CartStore.ts:92-99 | with distinct ids, exactly the option with that id has its flag flipped; nothing else changes; the ids are kept; an unknown id changes nothing |
| `OrderOptions.ToggleTwice` | app/stores/CartStore.ts:92-99 | toggling the same id twice restores the options |
| `OrderOptions.UnselectAll` | app/stores/CartStore.ts:157 | the ids and names are kept, position by position, and no option is selected (the same reset is at line 176) |
| `OrderOptions.UnselectAllSpec` | app/stores/CartStore.ts:174-177 | the reset keeps every option's id and name and leaves nothing selected |
| `OrderOptions.FixedIdsDistinct` | app/stores/CartStore.ts:8-13 | the fixed option ids are pairwise distinct |
| `OrderOptions.SelectedAmongFixed` | app/stores/CartStore.ts:8-31 | every selected option is one of the fixed options |
| `Submission.TranslateError` | app/stores/CartStore.ts:179-187 | SERVER_UNAVAILABLE and only it gives the availability message; MINIMUM_AMOUNT_NOT_REACHED and only it gives the threshold message; every other code gives the generic message |
| `Submission.FailureCode` | app/stores/CartStore.ts:159 | the code to translate is never empty; it is the service's code whenever that is present and non-empty |
| `Submission.CheckOrder` | app/stores/CartStore.ts:128-137 | the order may go iff the minimum is met; the empty-cart message is reported iff the cart is empty; the threshold message iff the cart is non-empty but below 1000 |
| `Submission.GuardedOrderOutcome` | app/services/ApiService.ts:23-46 | an order at or above the minimum is never refused by the simulated service for its amount: it succeeds, or it fails with the availability message |
| `Stores.StatusOf` | app/stores/CartStore.ts:109-124 | the status is SENT iff the delivery service answered true; an answer of false and a throw both give FAILED |
| `Stores.Logged` | app/stores/CartStore.ts:102-107 | the event carries the kind, the lines and `now` it is given; its options are exactly the selected ones; its status is set, and is SENT iff the delivery service answered true |
| `Stores.CartStore.constructor` | app/stores/CartStore.ts:5-21 | a new store: empty catalogue, cart and log; the four options unselected; loading, with no error |
| `Stores.CartStore.ProductsLoaded` | app/stores/CartStore.ts:41-60 | loading stops; a catalogue is stored as given; a failure sets the load-error message; cart, options and log are unchanged |
| `Stores.CartStore.SendAnalyticsEvent` | app/stores/CartStore.ts:101-126 | exactly one event is appended: the current lines, the selected options, `now`, and SENT iff delivered; the result is true iff delivered; nothing else changes |
| `Stores.CartStore.AddToCart` | app/stores/CartStore.ts:62-72 | the lines become `AddLine` of the old lines; one CART_UPDATED event is appended; options, flags and error are unchanged; one line per product is kept |
| `Stores.CartStore.RemoveFromCart` | app/stores/CartStore.ts:74-77 | the lines become `RemoveLines` of the old lines; one CART_UPDATED event is appended, also for an absent id; nothing else changes |
| `Stores.CartStore.UpdateQuantity` | app/stores/CartStore.ts:79-90 | the lines become `UpdateLines` of the old lines; one CART_UPDATED event is appended iff the id is present; otherwise nothing changes |
| `Stores.CartStore.ToggleOption` | app/stores/CartStore.ts:92-99 | the options become `Toggle` of the old options, keeping the fixed ids; one CART_UPDATED event is appended iff the id is known; the cart is unchanged |
| `Stores.CartStore.UnselectOptions` | app/stores/CartStore.ts:176 | the loop clears every option's flag and changes nothing else |
| `Stores.CartStore.ClearCart` | app/stores/CartStore.ts:174-177 | the cart becomes empty and every option unselected; no event is appended |
| `Stores.CartStore.SubmitOrder` | app/stores/CartStore.ts:128-147 | an empty cart (checked first) or a total below 1000 sets `error` to its message and returns a failure; `isLoading` is untouched and no order is dispatched; otherwise loading starts, the error is cleared, and the current lines, selected options and total are dispatched, with total ≥ 1000; cart, options and log never change |
| `Stores.CartStore.ResolveSubmission` | app/stores/CartStore.ts:142-171 | loading stops. A response appends exactly one ORDER_SUBMITTED event and returns the service's result: success empties the cart and unselects every option, failure sets `error` to the translated code and keeps cart and options. A throw appends no event and sets the generic send-failure error |
| `Scenarios.CheckoutAboveMinimum` | app/stores/CartStore.ts:62-171 | two pieces at 600 give amount 1200 and 2 items and meet the minimum; the guards let the order through with amount 1200; a successful answer then succeeds and leaves the cart empty with no option selected |
| `Scenarios.CheckoutBelowMinimum` | app/stores/CartStore.ts:128-137 | one piece at 100 gives amount 100; submitting is refused with the threshold message, and the line stays in the cart |
| `Scenarios.ToggleLeaveAtDoorTwice` | app/stores/CartStore.ts:92-99 | toggling `leave_at_door` twice restores the options, and the log then holds exactly two events, both CART_UPDATED |
| `Scenarios.SnapshotKeepsQuantity` | app/stores/CartStore.ts:101-107 | with lines as values, an event taken after one piece was added still reads one piece after a second addition |
| `Scenarios.SelectionSnapshotKeepsFlag` | app/stores/CartStore.ts:92-105 | with options as values, the first event of two toggles of `leave_at_door` lists the option as selected, both when it is taken and after the second toggle |
| `AliasedSnapshots.FirstWith` | app/stores/CartStore.ts:63 | the index is the first line object of the product, or the length when there is none |
| `AliasedSnapshots.LineObject.constructor` | app/models/Product.ts:10-13 | a line object starts with the given product and quantity |
| `AliasedSnapshots.AliasingCart.constructor` | app/stores/CartStore.ts:7-14 | a new cart has no lines and no events |
| `AliasedSnapshots.AliasingCart.AddToCart` | app/stores/CartStore.ts:62-72 | the found line object's quantity grows in place, keeping the same list; otherwise a fresh line object is appended; every other line object keeps its quantity; the event keeps the list of the same references |
| `AliasedSnapshots.SnapshotSeesLaterEdit` | app/stores/CartStore.ts:101-107 | as written, the first event's snapshot reads 1 when it is taken and 2 after a second addition of the same product |
| `AliasedSnapshots.OptionObject.constructor` | app/models/Product.ts:15-19 | an option object starts with the given id and flag |
| `AliasedSnapshots.FirstOption` | app/stores/CartStore.ts:93 | the index is the first option object with the id, or the length when there is none |
| `AliasedSnapshots.SelectedIn` | app/stores/CartStore.ts:105 | the filter holds only option objects of the list that are selected, and every selected one, by reference |
| `AliasedSnapshots.AliasingOptions.constructor` | app/stores/CartStore.ts:8-13 | four fresh option objects with the store's ids, none selected, and no events |
| `AliasedSnapshots.AliasingOptions.ToggleOption` | app/stores/CartStore.ts:92-105 | the list is kept; the found option object's flag flips in place and one event is appended holding exactly the selected objects themselves; an unknown id logs nothing; every other option object keeps its flag |
| `AliasedSnapshots.SelectionSnapshotSeesLaterToggle` | app/stores/CartStore.ts:92-105 | as written, the first event of two toggles of `leave_at_door` holds the option as selected when it is taken, and as not selected after the second toggle |

## Findings

| source | as written | input that shows it | evidently intended | confidence | as-written member | corrected member |
|---|---|---|---|---|---|---|
| app/stores/CartStore.ts:104 | the event's `items` is a shallow copy. It holds the same line objects that `addToCart` (line 66) later changes in place | `addToCart(P)` twice: the first event's line reads quantity 2, though the cart held 1 when the event was taken | a logged event keeps the lines as they were when it was taken | high for the aliasing, not executed | `AliasedSnapshots.SnapshotSeesLaterEdit` | `Scenarios.SnapshotKeepsQuantity` |
| app/stores/CartStore.ts:105 | the event's `options` is a new list from `filter`, but it holds the same option objects whose flag `toggleOption` (line 96) later flips in place | `toggleOption('leave_at_door')` twice: the first event's option reads not selected, though it was selected when the event was taken | a logged event keeps the options as they were when it was taken | high for the aliasing, not executed | `AliasedSnapshots.SelectionSnapshotSeesLaterToggle` | `Scenarios.SelectionSnapshotKeepsFlag` |

The rest of the model uses the corrected behaviour. Events hold line and option values, and every store method only appends to the log, so an event never changes once logged.

## Left out

- Screens, components, navigation and bootstrapping are not part of this model. So are the stock cap at `app/components/ProductItem.tsx:45` and the checkout-button disabling: the store itself enforces neither, and no stock invariant is stated.
- The simulators in `app/services/ApiService.ts` are driven by `Math.random` and timers. Their results are parameters. Only the possible responses of `submitOrder` are written down (`Submission.ServiceMayRespond`). `generateProducts` is not part of this model; the catalogue is a parameter of `ProductsLoaded`.
- MobX observability (`makeAutoObservable`, `runInAction`) is not modelled.
- Each half of an asynchronous operation is one atomic step. Other calls may happen between `SubmitOrder` and `ResolveSubmission`.
- `Stores.CartStore.SendAnalyticsEvent` takes both of its halves as one step. The mutators do not await it; in the application the event is appended only when delivery resolves. Events of overlapping deliveries can then be appended in a different order than they were emitted, and the pending state (no status yet) is never observed. The model appends each event in call order.
- Prices and quantities are JavaScript numbers. They are modelled as unbounded integers, so floating-point rounding and non-integer quantities are not modelled.
- Outside `AliasedSnapshots`, lines and options are values. The sharing of line and option objects with logged events is modelled only for `addToCart` with the item snapshot and for `toggleOption` with the option snapshot. The same sharing through `updateQuantity` (line 86), the flag resets at lines 157 and 176, and the order handed to the service is not modelled with objects.
- `AliasedSnapshots.AliasingOptions.ToggleOption` states the option snapshot by membership (exactly the selected objects), not as the ordered list `filter` builds.
- `addToCart`'s default quantity of 1 is not modelled; callers pass the quantity.
