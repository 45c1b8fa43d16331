/** The order documents of index.js and the pure parts of its web-order
    endpoint: validation, the item list and its total, the pre-save hook that
    numbers new orders, and the short item summary used in captions. */
module Orders {
  import opened Shared
  import OrderCodes
  import WebOrders

  /** The status enum of the order schema. */
  datatype Status = WaitingForSlip | WaitingUserConfirm | PendingAdmin | Completed | Rejected

  datatype Source = Web | BotChat

  /** A line item after the schema accepted it: a non-empty label, a game of
      the enum, a price and a quantity of at least 1. `name` is the `label`. */
  datatype Item = Item(name: string, game: Game, price: int, qty: int)

  /** An order document. `docId` is its database `_id`; `orderId` 0 stands
      for "not yet numbered"; `startToken` is the token without "web_". */
  datatype Order = Order(
    docId: string,
    orderId: nat,
    orderCode: string,
    startToken: Option<string>,
    source: Source,
    userId: Option<int>,
    username: Option<string>,
    game: Game,
    mlbbId: Option<string>,
    mlbbServerId: Option<string>,
    pubgId: Option<string>,
    items: seq<Item>,
    totalPrice: int,
    slipFileId: Option<string>,
    status: Status,
    userMessages: seq<int>,
    adminMessageId: Option<int>,
    adminChatId: Option<int>)

  /** Why POST /api/orders/web-order refused a body. */
  datatype WebOrderError =
    | InvalidGame      // 400 "Invalid or missing game"
    | EmptyCart        // 400 "Cart is empty"
    | MissingMlbbIds   // 400 "MLBB ID and Server ID are required"
    | MissingPubgId    // 400 "PUBG ID is required"
    | ZeroTotal        // 400 "Total price is 0"
    | SchemaRejected   // 500: the schema refused an item, so saving threw

  function HttpStatus(e: WebOrderError): int {
    if e == SchemaRejected then 500 else 400
  }

  /** The fields of a web order that passed validation. */
  datatype WebOrderFields = WebOrderFields(game: Game, mlbbId: Option<string>,
                                           mlbbServerId: Option<string>, pubgId: Option<string>,
                                           items: seq<Item>, totalPrice: int)

  datatype Result = Accepted(fields: WebOrderFields) | Refused(error: WebOrderError)

  /** `price * qty` of one cart entry, both read with `Number(x || 0)`. */
  function EntryAmount(e: CartEntry): int {
    NumberOrZero(e.price) * NumberOrZero(e.qty)
  }

  /** `items.reduce((sum, i) => sum + i.price * i.qty, 0)` over the mapped cart. */
  function EntriesTotal(entries: seq<CartEntry>): int {
    if entries == [] then 0
    else EntriesTotal(entries[..|entries| - 1]) + EntryAmount(entries[|entries| - 1])
  }

  /** Σ price × qty over accepted line items. */
  function Subtotal(items: seq<Item>): int {
    if items == [] then 0 else Subtotal(items[..|items| - 1]) + items[|items| - 1].price * items[|items| - 1].qty
  }

  /** The schema's view of one mapped entry: `label` required (non-empty),
      `game: i.game || game` in the enum, `qty` at least 1. */
  function SchemaItem(e: CartEntry, game: Game): Option<Item> {
    var g := if Present(e.game) then ParseGame(e.game) else Some(game);
    if Present(e.name) && g.Some? && NumberOrZero(e.qty) >= 1
    then Some(Item(e.name.value, g.value, NumberOrZero(e.price), NumberOrZero(e.qty)))
    else None
  }

  /** The mapped cart as the schema accepts it, or None if any entry fails. */
  function SchemaItems(entries: seq<CartEntry>, game: Game): (r: Option<seq<Item>>)
    ensures r.Some? <==> forall i :: 0 <= i < |entries| ==> SchemaItem(entries[i], game).Some?
    ensures r.Some? ==> |r.value| == |entries| && Subtotal(r.value) == EntriesTotal(entries)
    ensures r.Some? ==> forall i :: 0 <= i < |entries| ==> r.value[i] == SchemaItem(entries[i], game).value
  {
    if entries == [] then Some([])
    else
      var init := SchemaItems(entries[..|entries| - 1], game);
      var last := SchemaItem(entries[|entries| - 1], game);
      if init.None? || last.None? then None
      else
        var items := init.value + [last.value];
        assert items[..|items| - 1] == init.value;
        Some(items)
  }

  /** The checks of POST /api/orders/web-order, in the source's order: game,
      cart, the chosen game's ids, a non-zero total, then the schema. */
  function ValidateWebOrder(body: WebOrderBody): (r: Result)
    ensures ParseGame(body.game).None? ==> r == Refused(InvalidGame)
    ensures ParseGame(body.game).Some? && CartMissing(body.cart) ==> r == Refused(EmptyCart)
    ensures ParseGame(body.game).Some? && !CartMissing(body.cart) ==>
              var game, total := ParseGame(body.game).value, EntriesTotal(body.cart.entries);
              && (game == MLBB && !IdsPresent(MLBB, body) ==>
                    r == Refused(MissingMlbbIds) && HttpStatus(r.error) == 400)
              && (game == PUBG && !IdsPresent(PUBG, body) ==>
                    r == Refused(MissingPubgId) && HttpStatus(r.error) == 400)
              && (IdsPresent(game, body) && total == 0 ==>
                    r == Refused(ZeroTotal) && HttpStatus(r.error) == 400)
              && (IdsPresent(game, body) && total != 0 && SchemaItems(body.cart.entries, game).None? ==>
                    r == Refused(SchemaRejected) && HttpStatus(r.error) == 500)
    ensures ParseGame(body.game).None? || CartMissing(body.cart) ==> HttpStatus(r.error) == 400
    ensures r.Accepted? <==>
              && ParseGame(body.game).Some?
              && !CartMissing(body.cart)
              && IdsPresent(ParseGame(body.game).value, body)
              && EntriesTotal(body.cart.entries) != 0
              && SchemaItems(body.cart.entries, ParseGame(body.game).value).Some?
    ensures r.Accepted? ==>
              var f := r.fields;
              && Some(f.game) == ParseGame(body.game)
              && f.totalPrice == EntriesTotal(body.cart.entries) == Subtotal(f.items) != 0
              && |f.items| == |body.cart.entries| > 0
              && f.items == SchemaItems(body.cart.entries, f.game).value
              && (f.game == MLBB ==> f.mlbbId == body.mlbbId && f.mlbbServerId == body.svId && f.pubgId.None?)
              && (f.game == PUBG ==> f.pubgId == body.pubgId && f.mlbbId.None? && f.mlbbServerId.None?)
  {
    var game := ParseGame(body.game);
    if game.None? then Refused(InvalidGame)
    else if CartMissing(body.cart) then Refused(EmptyCart)
    else if game.value == MLBB && !(Present(body.mlbbId) && Present(body.svId)) then Refused(MissingMlbbIds)
    else if game.value == PUBG && !Present(body.pubgId) then Refused(MissingPubgId)
    else
      var total := EntriesTotal(body.cart.entries);
      if total == 0 then Refused(ZeroTotal)
      else
        var items := SchemaItems(body.cart.entries, game.value);
        if items.None? then Refused(SchemaRejected)
        else Accepted(WebOrderFields(
          game.value,
          if game.value == MLBB then body.mlbbId else None,
          if game.value == MLBB then body.svId else None,
          if game.value == PUBG then body.pubgId else None,
          items.value, total))
  }

  /** The largest order id in the store, 0 when none is numbered: what
      `findOne({}).sort({ orderId: -1 })` reads. */
  function MaxOrderId(orders: seq<Order>): (m: nat)
    ensures forall i :: 0 <= i < |orders| ==> orders[i].orderId <= m
    ensures m == 0 || exists i :: 0 <= i < |orders| && orders[i].orderId == m
  {
    if orders == [] then 0
    else
      var rest := MaxOrderId(orders[1..]);
      assert forall i :: 1 <= i < |orders| ==> orders[i] == orders[1..][i - 1];
      if orders[0].orderId >= rest then orders[0].orderId else rest
  }

  /** The `pre("save")` hook: a new, unnumbered order gets the largest
      existing id plus one (1 if there is none) and the code for it; any other
      save leaves the order as it is. */
  function PreSave(o: Order, isNew: bool, existing: seq<Order>): (r: Order)
    ensures !isNew || o.orderId != 0 ==> r == o
    ensures isNew && o.orderId == 0 ==>
              && r == o.(orderId := r.orderId, orderCode := OrderCodes.OrderCode(r.orderId))
              && (forall i :: 0 <= i < |existing| ==> existing[i].orderId < r.orderId)
              && (r.orderId == 1 || exists i :: 0 <= i < |existing| && existing[i].orderId + 1 == r.orderId)
  {
    if !isNew || o.orderId != 0 then o
    else
      var id := MaxOrderId(existing) + 1;
      o.(orderId := id, orderCode := OrderCodes.OrderCode(id))
  }

  /** `buildItemsShort`: the labels joined with " + ". */
  function ItemsShort(items: seq<Item>): string {
    if items == [] then ""
    else if |items| == 1 then items[0].name
    else ItemsShort(items[..|items| - 1]) + " + " + items[|items| - 1].name
  }

  /** Joining two non-empty runs of items puts one " + " between their summaries. */
  lemma {:induction false} ItemsShortAppend(a: seq<Item>, b: seq<Item>)
    requires a != [] && b != []
    ensures ItemsShort(a + b) == ItemsShort(a) + " + " + ItemsShort(b)
    decreases |b|
  {
    if |b| > 1 {
      var b' := b[..|b| - 1];
      assert (a + b)[..|a + b| - 1] == a + b';
      ItemsShortAppend(a, b');
    } else {
      assert (a + b)[..|a + b| - 1] == a;
    }
  }

  /** A summary is as long as its labels plus three characters per separator. */
  lemma {:induction false} ItemsShortLength(items: seq<Item>)
    requires items != []
    ensures |ItemsShort(items)| == LabelsLength(items) + 3 * (|items| - 1)
    decreases |items|
  {
    if |items| > 1 {
      ItemsShortLength(items[..|items| - 1]);
    }
  }

  function LabelsLength(items: seq<Item>): nat {
    if items == [] then 0 else LabelsLength(items[..|items| - 1]) + |items[|items| - 1].name|
  }

  /** The two web-order endpoints price a cart alike as long as every entry
      has a non-zero quantity; an entry without one counts once in the token
      broker and not at all here. */
  lemma {:induction false} TotalsAgree(entries: seq<CartEntry>)
    requires forall i :: 0 <= i < |entries| ==> NumberOrZero(entries[i].qty) != 0
    ensures EntriesTotal(entries) == WebOrders.CartTotal(entries)
    decreases |entries|
  {
    if entries != [] {
      TotalsAgree(entries[..|entries| - 1]);
    }
  }

  lemma QuantitylessEntryCounts(e: CartEntry)
    requires NumberOrZero(e.qty) == 0
    ensures EntriesTotal([e]) == 0 && WebOrders.CartTotal([e]) == NumberOrZero(e.price)
  {
  }
}
