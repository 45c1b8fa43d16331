# BIKA Store order fulfilment, modelled in Dafny

This project models the order-fulfilment core of the BIKA Store backend. That core has three parts:

- **The web-order token broker** (`routes/webOrders.js`). It keeps an in-memory map from a start code (`"web_"` + 12 hex characters) to a pending cart. Creating an entry validates and prices the cart. A claim is one-time: it removes the entry. A sweep that runs at the start of every request drops entries older than 30 minutes.
- **The order lifecycle of the bot/API monolith** (`index.js`):
  - `POST /api/orders/web-order`: validation, the total, and the stored document;
  - the `pre("save")` hook, which numbers new orders and gives them their `BKS` code;
  - `buildItemsShort`;
  - the `/start` handler;
  - the slip-photo handler;
  - the `callback_query` handler, which dispatches `user_confirm:`, `admin_approve:` and `admin_reject:` and drives the status enum.
- **The message-retention tracker** (`utils/autoClean.js`). For each chat it keeps the ids of the messages sent there, at most 50 of them, newest last. `cleanChat` deletes, best-effort, all but the newest `keepLast` ids and then keeps only those.

## Modules

| file | module | contents |
|---|---|---|
| `shared.dfy` | `Shared` | `Option`, the `Game` enum, the JSON body of a web order, and JavaScript truthiness (`Present`, `NumberOrZero`) |
| `telegram.dfy` | `Telegram` | Bot API calls as an effect log. `Deletions` specifies a best-effort delete loop, and the loop itself is `DeleteEach` |
| `auto_clean.dfy` | `AutoClean` | the `MessageTracker` class (`messageStore` as a map field) and its specification functions and lemmas |
| `web_orders.dfy` | `WebOrders` | the `WebOrderBroker` class (`webOrders` as a map field), `CreateStep`/`ClaimStep`, and the broker lemmas |
| `order_codes.dfy` | `OrderCodes` | `String(n)`, `padStart`, the order code, and a parser for codes that is its inverse |
| `orders.dfy` | `Orders` | the order document, web-order validation, totals, `pre("save")`, and `buildItemsShort` |
| `bot.dfy` | `Bot` | the `OrderBot` class (the `Order` collection plus the effect log), one step function per handler, and the lifecycle lemmas |

The stateful parts are classes whose methods update their fields in place:

- `MessageTracker`;
- `WebOrderBroker`, whose `CleanupExpired` loop deletes entries from the map while it walks it;
- `OrderBot`.

Each method's `ensures` ties its new state to a pure step function of the old state. The lemmas then state what the source promises about those step functions.

### Modelling decisions

**Inputs that the model takes as parameters.** These stand for sources of nondeterminism and for the outside world:

- The clock (`Date.now()`).
- The random start token (`Math.random`, `crypto.randomBytes`).
- The `_id` the database gives a new document (`docId`).
- The message ids Telegram gives the bot's own messages.
- The set of `(chat, message)` pairs Telegram refuses to delete.
- `ADMIN_CHAT_ID` (`OrderBot.adminChat`).

**Telegram calls are appended to an effect log.** A swallowed delete failure becomes a `DeleteMessage` entry with `ok == false`.

**The order collection is a sequence in creation order.** So "newest" (`sort({ createdAt: -1 })`) means the last position. `findOne` and `findById` return the first match.

**`orderId` is a `nat`, and 0 stands for "unset".** JavaScript treats 0 as falsy, so `last?.orderId ? last.orderId + 1 : 1` is the largest id plus one.

**The Mongoose item schema is modelled as a last check.** The schema requires a label, an item game in the enum, and `qty >= 1`. It applies only when `Order.create` saves, which is after the handler's own checks. The model therefore adds it as a final check that fails with a 500 (`SchemaRejected`).

**A send to an order with no bound chat ends the handler.** `bot.sendMessage(undefined, …)` throws, and the handler's `catch` ends it. Whatever was saved before that point stays saved.

### Specification functions

Each handler's or helper's behaviour is defined once, as a function. The methods are proved equal to these functions, and the lemmas in the table below state their properties.

- `OrderCodes.OrderCode` (index.js:111): "BKS" followed by the id padded to six digits.
- `Orders.ItemsShort` (index.js:137-140): the item labels joined with " + ".
- `WebOrders.CartTotal` (routes/webOrders.js:56-60): the broker's total, where a missing price counts 0 and a missing or zero quantity counts 1.
- `WebOrders.Unexpired` (routes/webOrders.js:21-28): the entries still inside the TTL.
- `WebOrders.CreateStep` (routes/webOrders.js:34-110): the broker's create, giving the new map and the reply.
- `WebOrders.ClaimStep` (routes/webOrders.js:124-169): the broker's claim, giving the new map and the reply.
- `Bot.CreateWebOrderStep` (index.js:194-266): the web-order endpoint, giving the new collection and the reply.
- `Bot.StartStep` (index.js:275-361): the `/start` handler, giving the new collection and the calls made.
- `Bot.PhotoStep` (index.js:364-412): the photo handler, giving the new collection and the calls made.
- `Bot.CallbackStep` (index.js:415-540): the callback handler, giving the new collection and the calls made.
- `Bot.ConfirmOrder` (index.js:431-482): the `user_confirm:` branch on a found order.
- `Bot.DecideOrder` (index.js:496-535): the approve and reject branch on a found order.

### Behaviour worth knowing

- **Status changes are unconditional.** Nothing checks the current status. `user_confirm:` sets `pending_admin`, and an admin decision sets `completed` or `rejected`, whatever the status was. A completed order can be moved back to `pending_admin`, and a repeated approval repeats the notification (`Bot.RepeatedApproval`).
- **`/start web_<token>` does not consume the token.** The token stays on the order, so opening the link again rebinds the order to the new chat (`Bot.StartRebinds`).
- **The two web-order endpoints price a cart differently.** In `index.js`, a missing or zero quantity counts 0 and only a total of exactly 0 is refused, so a negative total passes. In the broker, a missing or zero quantity counts 1 and any total of 0 or less is refused. The two agree when every quantity is non-zero (`Orders.TotalsAgree`).
- **The broker checks the total before the game's ids.**
- **`keepLast` 0 keeps the whole list.** `cleanChat(chat, { keepLast: 0 })` deletes every tracked message and yet keeps every id, because `slice(-0)` is the whole array.

## Model

| member | source | states |
|---|---|---|
| Telegram.Deletions | utils/autoClean.js:33-42 | one delete attempt per id, in the list's order, whether or not earlier attempts failed |
| Telegram.DeleteEach | index.js:528-533 | the delete loop attempts every id in order and produces exactly `Deletions` |
| AutoClean.Tracked | utils/autoClean.js:14-23 | the id is appended at the end, the oldest id is dropped once the list would pass 50, and a list within the cap stays within it |
| AutoClean.SliceFromEnd | utils/autoClean.js:45 | `slice(-n)`: the last n ids when 0 < n ≤ length, and the whole list when n is 0 or larger than the list |
| AutoClean.TrackedAllKeepsNewest | utils/autoClean.js:14-23 | tracking any run of ids leaves exactly the newest 50 ids of the whole history, in order |
| AutoClean.MessageTracker.constructor | utils/autoClean.js:11 | the store starts empty |
| AutoClean.MessageTracker.TrackMessage | utils/autoClean.js:14-24 | only this chat's list changes: it is created if absent, the id is appended, and the list is capped at 50 |
| AutoClean.MessageTracker.CleanChat | utils/autoClean.js:27-46 | no effect when the chat has no list or at most `keepLast` ids; otherwise the oldest length − `keepLast` ids are each attempted in order, and only this chat's list becomes `slice(-keepLast)` |
| AutoClean.CleanPartitions | utils/autoClean.js:29-45 | for 0 < `keepLast` < length, the attempted ids followed by the kept ids are the old list, and the kept ids are the newest `keepLast` |
| AutoClean.KeepLastZeroKeepsDeletedIds | utils/autoClean.js:31-45 | with `keepLast` 0 every id is attempted and every id is kept |
| AutoClean.FiveTrackedKeepOne | utils/autoClean.js:14-45 | five tracked ids cleaned with the default `keepLast` of 1 give four deletes, oldest first, and keep the newest id |
| WebOrders.CartTotalAppend | routes/webOrders.js:56-60 | the broker's total of two carts joined is the sum of their totals |
| WebOrders.CartTotalSign | routes/webOrders.js:56-60 | with no negative prices or quantities the total is not negative, and it is positive once some price is |
| WebOrders.ValidateCreate | routes/webOrders.js:38-99 | game, then cart, then total, then the game's ids: each failing check, the earlier ones passed, gives its own error, and every refusal is a 400; accepted iff all four pass; the record holds the cart, the total, the ids with absent ones as "", `createdAt` = now and `claimed` false |
| WebOrders.WebOrderBroker.constructor | routes/webOrders.js:15 | the map starts empty |
| WebOrders.WebOrderBroker.CleanupExpired | routes/webOrders.js:21-28 | deleting while walking the map leaves exactly the entries that have not expired, unchanged |
| WebOrders.WebOrderBroker.Create | routes/webOrders.js:34-110 | the sweep, then validation, then storing the record under "web_" + hex; every key stays a start code |
| WebOrders.WebOrderBroker.Claim | routes/webOrders.js:124-169 | the sweep, 400 without a start code, 404 for an unknown one, otherwise the entry is removed and its contents returned |
| WebOrders.UnexpiredKeepsExactlyFresh | routes/webOrders.js:21-28 | the sweep keeps an entry iff `createdAt + TTL_MS >= now`, keeps it unchanged, and a second sweep at the same time changes nothing |
| WebOrders.CreateAddsOneEntry | routes/webOrders.js:86-99 | a refused create leaves the swept map; an accepted one adds exactly one key, a start code, and changes no other entry |
| WebOrders.ClaimAtMostOnce | routes/webOrders.js:137-147 | after a successful claim, claiming the same code again at any time is a 404 |
| WebOrders.ClaimRemovesOnlyItsCode | routes/webOrders.js:137-147 | a claim removes its own code from the swept map and nothing else |
| WebOrders.CreateThenClaim | routes/webOrders.js:86-168 | claiming within 30 minutes returns the stored game, cart, total and ids unchanged, with `username`/`firstName` defaulting to "" and `telegramUserId` returned as given, or none when it is absent or 0; claiming later is a 404 |
| OrderCodes.DecimalString | index.js:111 | `String(n)`: decimal digits that denote n, with no leading zero, and a second digit exactly when n ≥ 10 |
| OrderCodes.PadStart | index.js:111 | `padStart`: length max(width, length), the original string at the end, fill characters before it |
| OrderCodes.OrderCodeRoundTrip | index.js:111 | every order id is read back from its code |
| OrderCodes.OrderCodeInjective | index.js:111 | two different order ids never share a code |
| OrderCodes.OrderCodeShape | index.js:111 | ids below 1000000 give "BKS" followed by exactly six digits |
| OrderCodes.FirstOrderCode | index.js:110-111 | order 1 has code "BKS000001" |
| Orders.SchemaItems | index.js:223-228 | the mapped cart passes the item schema iff every entry does, and then its items' Σ price × qty is the handler's total |
| Orders.ValidateWebOrder | index.js:196-253 | game, then cart, then the game's ids, then a non-zero total, then the schema: each failing check, the earlier ones passed, gives its own error, a 400 for the handler's checks and a 500 for the schema; accepted iff all pass, with items exactly the cart entries mapped one by one (label, `i.game || game`, price, qty), total = Σ price × qty, and only the chosen game's ids kept |
| Orders.MaxOrderId | index.js:104-110 | the largest id in the collection: no order has a larger one, and it is some order's id or 0 |
| Orders.PreSave | index.js:101-113 | only a new order without an id is changed: it gets an id above every existing one (one past an existing id, or 1) and the code for that id |
| Orders.ItemsShortAppend | index.js:137-140 | the summary of two lists joined is their summaries joined by " + " |
| Orders.ItemsShortLength | index.js:137-140 | a summary is as long as its labels plus three characters per separator |
| Orders.TotalsAgree | index.js:223-230 | when every quantity is non-zero, this endpoint prices a cart exactly as the token broker does |
| Orders.QuantitylessEntryCounts | index.js:227 | an entry without a quantity adds 0 here but its price in the token broker |
| Bot.FindFirst | index.js:307 | `findOne`: the first matching document, or none when nothing matches |
| Bot.FindLast | index.js:371-374 | the newest matching document, or none when nothing matches |
| Bot.StartToken | index.js:281-306 | a token iff the payload starts with "web_", and "web_" + token is the payload |
| Bot.UpToColon | index.js:421 | the text before the first ':', or the whole string |
| Bot.ParseCallback | index.js:417-496 | each of the three prefixes selects its action iff the data starts with it, and the id is `data.split(":")[1]`: the text after the prefix up to the next ':' or the end |
| Bot.PrefixesExclusive | index.js:420-485 | no data starts with two of the three prefixes |
| Bot.UpdateKeepsInvariant | index.js:56 | a handler's save, which keeps `_id`, `orderId`, `orderCode`, the items and the total, keeps ids unique, increasing and matched to their codes, and totals equal to Σ price × qty |
| Bot.AppendKeepsInvariant | index.js:56 | appending a document numbered above every stored one, coded from its number, priced from its items and with a fresh `_id` keeps the same invariant |
| Bot.FoundAfterUpdate | index.js:422 | after a handler saves the document `findById` found, looking up the same id finds it again at the same place |
| Bot.CallbackDecides | index.js:485-536 | an approve or reject press on a found order changes only that document, exactly as its decision does, and makes exactly the decision's calls |
| Bot.ConfirmSteps | index.js:431-482 | the handler's steps on one confirmed document produce exactly the document and calls of `ConfirmOrder` |
| Bot.DecisionSteps | index.js:496-535 | the handler's steps on one decided document, including the delete loop, produce exactly the document and calls of `DecideOrder` |
| Bot.OrderBot.constructor | index.js:115 | the collection and the effect log start empty |
| Bot.OrderBot.CreateWebOrder | index.js:194-266 | the collection and the reply are those of `CreateWebOrderStep`, no Telegram call is made, and the invariant holds |
| Bot.OrderBot.OnStart | index.js:275-361 | the collection and the new calls are those of `StartStep` |
| Bot.OrderBot.OnPhoto | index.js:364-412 | the collection and the new calls are those of `PhotoStep` |
| Bot.OrderBot.OnCallback | index.js:415-540 | the collection and the new calls are those of `CallbackStep` |
| Bot.OrderBot.ConfirmAt | index.js:431-482 | the confirmed document and the new calls are those of `ConfirmOrder` |
| Bot.OrderBot.DecideAt | index.js:496-535 | the decided document and the new calls are those of `DecideOrder` |
| Bot.WebOrderKeepsInvariant | index.js:243-253 | creating a web order with a fresh `_id` keeps order ids unique, increasing and matched to their codes, and every total equal to Σ price × qty of its items |
| Bot.WebOrderCreation | index.js:223-259 | a refused body stores nothing; an accepted one appends a web order in `waiting_for_slip`, numbered one past the largest id, with no chat and no slip, storing the chosen game's ids from the body and none of the other game's, and the reply is "web_" + token with its code |
| Bot.FirstWebOrder | index.js:243-259 | an MLBB cart of one "86 Diamonds" at 3000 on an empty collection gives "BKS000001" and a total of 3000 |
| Bot.StartDispatch | index.js:280-357 | no "web_" payload: only the welcome, no change; unknown token: only the not-found message; known token: only that order changes, gaining the chat, the username ("" if absent) and the preview id, with its status and token kept |
| Bot.StartRebinds | index.js:306-320 | the same link opened again from another chat rebinds the same order to that chat |
| Bot.PhotoTransition | index.js:364-408 | nothing happens without a sender, a waiting order or a file id; otherwise only the sender's newest `waiting_for_slip` order changes: it gets the last photo's file id, `waiting_user_confirm` and the summary's message id appended to its tracked messages, and nothing else |
| Bot.StartKeepsPricing | index.js:317-357 | `/start` changes no document's `_id`, number, code, items or total |
| Bot.PhotoKeepsPricing | index.js:386-408 | a slip photo changes no document's `_id`, number, code, items or total |
| Bot.CallbackKeepsPricing | index.js:431-535 | a button press changes no document's `_id`, number, code, items or total |
| Bot.CallbackNoOrder | index.js:417-429 | other data does nothing; an unknown id only raises the "Order not found." alert |
| Bot.ConfirmFromAnyStatus | index.js:431-482 | from any status the order becomes `pending_admin`; the admin gets the slip only when an admin chat is set and a slip exists; a bound customer gets the info message; no other field changes, and no other call is made |
| Bot.DecisionReplacesMessages | index.js:496-535 | from any status the order becomes `completed` or `rejected`; for a bound customer the result is sent, every tracked message is then attempted oldest first, and the list becomes exactly the result message; the press is answered first, then the pressed admin message is deleted best-effort when there is one; no other field changes, and no other call is made |
| Bot.RepeatedApproval | index.js:485-536 | pressing approve twice notifies the customer twice and deletes the first result message |

## Left out

- Concurrency is not modelled. The model is sequential, so it leaves out overlapping handlers and the read-the-maximum-then-increment race in `pre("save")`.
- Date and number formatting is not modelled: `formatDateTime`, `toLocaleString`, and the caption and message texts. Texts are named by the `Notice` they stand for.
- Floating point, `NaN` and `Number.isFinite` are not modelled. Prices and quantities are integers or absent, so a non-numeric value cannot be expressed.
- The broker reads `Date.now()` twice in one request, once in the sweep and once for `createdAt`. The model uses a single `now` for both.
- Two orders with the same `createdAt` are not distinguished. The newest order is the last one in the collection.
- Bot.CallbackStep: treats every order id as well-formed. In the source, a malformed id makes `findById` throw a `CastError`, the catch swallows it, and no alert is sent.
- Bot.StartStep: the `/start` regular expression is not modelled. The handler receives the payload already split off.
- Console logging (`console.log`, `console.error`) is not modelled, because it changes no state and no reply.
- Failed Telegram sends are not modelled. Only a send to an order with no bound chat fails.
- `null` entries in a cart are not modelled. An entry is a record with optional fields.
- The Express, Mongo and environment wiring are not part of this model: `server.js`, `db/`, `config/` and `routes/index.js`.
- These files are not part of this model: `routes/bot.js`, `bot/notify.js`, `routes/payments.js`, `routes/orders.js`, `routes/reviews.js` and `models/`.
