/** The order lifecycle of index.js: the web-order endpoint that stores a new
    order, and the bot handlers for `/start`, slip photos and inline-button
    callbacks, which update order documents step by step and call Telegram.
    The store is a sequence of documents in creation order; Telegram calls go
    to an effect log; the message ids Telegram assigns, the random start token
    and the new document's `_id` are parameters. */
module Bot {
  import opened Shared
  import opened Telegram
  import opened Orders
  import OrderCodes

  /** What the store and the log gain from one handler run. */
  datatype Step = Step(orders: seq<Order>, effects: seq<Effect>)

  /** One order after a handler ran on it, and the calls it made. */
  datatype Handled = Handled(order: Order, effects: seq<Effect>)

  datatype WebOrderReply = Created(startCode: string, orderCode: string) | Failed(error: WebOrderError)

  /** The three lookups the handlers make. */
  datatype Query =
    | ByStartToken(token: string)          // findOne({ startToken })
    | ByDocId(id: string)                  // findById(id)
    | WaitingSlipOf(userId: int)           // { userId, status: "waiting_for_slip" }

  predicate Matches(o: Order, q: Query) {
    match q
    case ByStartToken(t) => o.startToken == Some(t)
    case ByDocId(id) => o.docId == id
    case WaitingSlipOf(u) => o.userId == Some(u) && o.status == WaitingForSlip
  }

  /** The first matching document in creation order. */
  function FindFirst(orders: seq<Order>, q: Query): (r: Option<nat>)
    ensures r.Some? ==> r.value < |orders| && Matches(orders[r.value], q)
                        && forall j :: 0 <= j < r.value ==> !Matches(orders[j], q)
    ensures r.None? ==> forall j :: 0 <= j < |orders| ==> !Matches(orders[j], q)
  {
    if orders == [] then None
    else if Matches(orders[0], q) then Some(0)
    else
      var r := FindFirst(orders[1..], q);
      assert forall j :: 1 <= j < |orders| ==> orders[j] == orders[1..][j - 1];
      if r.None? then None else Some(r.value + 1)
  }

  /** The newest matching document (`.sort({ createdAt: -1 })`). */
  function FindLast(orders: seq<Order>, q: Query): (r: Option<nat>)
    ensures r.Some? ==> r.value < |orders| && Matches(orders[r.value], q)
                        && forall j :: r.value < j < |orders| ==> !Matches(orders[j], q)
    ensures r.None? ==> forall j :: 0 <= j < |orders| ==> !Matches(orders[j], q)
  {
    if orders == [] then None
    else if Matches(orders[|orders| - 1], q) then Some(|orders| - 1)
    else FindLast(orders[..|orders| - 1], q)
  }

  /** What every document in the store satisfies: numbered from 1 in creation
      order without repeats, coded from its number, with its own `_id`, and
      priced at Σ price × qty of its items. */
  predicate StoreInvariant(orders: seq<Order>) {
    && (forall i :: 0 <= i < |orders| ==>
          && orders[i].orderId >= 1 && orders[i].orderCode == OrderCodes.OrderCode(orders[i].orderId)
          && orders[i].totalPrice == Subtotal(orders[i].items))
    && (forall i, j :: 0 <= i < j < |orders| ==> orders[i].orderId < orders[j].orderId)
    && (forall i, j :: 0 <= i < j < |orders| ==> orders[i].docId != orders[j].docId)
  }

  /** What no handler changes once a document is created: its identity and
      its priced items. */
  predicate SameIdentity(a: Order, b: Order) {
    && a.docId == b.docId && a.orderId == b.orderId && a.orderCode == b.orderCode
    && a.items == b.items && a.totalPrice == b.totalPrice
  }

  // ---------------------------------------------------------------- web order

  /** The document `Order.create` is given, before the pre-save hook. */
  function NewWebOrder(f: WebOrderFields, token: string, docId: string): Order {
    Order(docId, 0, "", Some(token), Web, None, None, f.game, f.mlbbId, f.mlbbServerId,
          f.pubgId, f.items, f.totalPrice, None, WaitingForSlip, [], None, None)
  }

  /** POST /api/orders/web-order. */
  function CreateWebOrderStep(orders: seq<Order>, body: WebOrderBody, token: string, docId: string)
    : (seq<Order>, WebOrderReply)
  {
    var v := ValidateWebOrder(body);
    if v.Refused? then (orders, Failed(v.error))
    else
      var o := PreSave(NewWebOrder(v.fields, token, docId), true, orders);
      (orders + [o], Created("web_" + token, o.orderCode))
  }

  // ------------------------------------------------------------------ /start

  /** The token a `/start` payload carries: the payload minus "web_", when it
      starts with "web_". */
  function StartToken(payload: Option<string>): (t: Option<string>)
    ensures t.Some? <==> payload.Some? && StartsWith(payload.value, "web_")
    ensures t.Some? ==> "web_" + t.value == payload.value
  {
    if !Present(payload) || !StartsWith(payload.value, "web_") then None
    else Some(payload.value[4..])
  }

  /** `/start [payload]` in `chat`, from a sender with `fromUsername`;
      `previewId` is the id Telegram gives the preview message. */
  function StartStep(orders: seq<Order>, chat: int, payload: Option<string>,
                     fromUsername: Option<string>, previewId: int): Step
  {
    var token := StartToken(payload);
    if token.None? then Step(orders, [SendMessage(chat, Welcome)])
    else
      var k := FindFirst(orders, ByStartToken(token.value));
      if k.None? then Step(orders, [SendMessage(chat, WebOrderNotFound)])
      else
        var o := orders[k.value];
        var bound := o.(userId := Some(chat), username := Some(OrEmpty(fromUsername)),
                        userMessages := o.userMessages + [previewId]);
        Step(orders[k.value := bound], [SendMessage(chat, WebOrderPreview)])
  }

  // ------------------------------------------------------------------- photo

  /** `photos[photos.length - 1]?.file_id` */
  function LastFileId(photos: seq<Option<string>>): Option<string> {
    if photos == [] then None else photos[|photos| - 1]
  }

  /** A photo message in `chat` from `fromId`; `summaryId` is the id Telegram
      gives the echoed summary. */
  function PhotoStep(orders: seq<Order>, chat: int, fromId: Option<int>,
                     photos: seq<Option<string>>, summaryId: int): Step
  {
    if fromId.None? || fromId.value == 0 then Step(orders, [])
    else
      var k := FindLast(orders, WaitingSlipOf(fromId.value));
      var fileId := LastFileId(photos);
      if k.None? || !Present(fileId) then Step(orders, [])
      else
        var o := orders[k.value];
        var o' := o.(slipFileId := fileId, status := WaitingUserConfirm,
                     userMessages := o.userMessages + [summaryId]);
        Step(orders[k.value := o'], [SendPhoto(chat, fileId.value, OrderSummary)])
  }

  // ---------------------------------------------------------------- callback

  /** `s.split(":")[0]`: the text before the first ':'. */
  function UpToColon(s: string): (r: string)
    ensures |r| <= |s| && r == s[..|r|]
    ensures ':' !in r
    ensures |r| == |s| || s[|r|] == ':'
  {
    if s == [] || s[0] == ':' then [] else [s[0]] + UpToColon(s[1..])
  }

  /** The action an inline button's data names. */
  datatype CallbackAction = Confirm(docId: string) | Decide(approve: bool, docId: string) | Ignore

  const ConfirmPrefix: string := "user_confirm:"
  const ApprovePrefix: string := "admin_approve:"
  const RejectPrefix: string := "admin_reject:"

  /** `field` is what `d.split(":")[1]` yields when `d` starts with `prefix`,
      whose only ':' is its last character: the text after the prefix up to
      the next ':' or the end. */
  predicate SecondField(d: string, prefix: string, field: string) {
    && prefix + field <= d
    && ':' !in field
    && (|prefix| + |field| == |d| || d[|prefix| + |field|] == ':')
  }

  /** `query.data || ""` dispatched on its prefix; the order id is the second
      ':'-separated field, as `data.split(":")[1]` reads it. */
  function ParseCallback(data: Option<string>): (a: CallbackAction)
    ensures var d := if data.Some? then data.value else "";
            && (a.Confirm? <==> StartsWith(d, ConfirmPrefix))
            && (a.Decide? && a.approve <==> StartsWith(d, ApprovePrefix))
            && (a.Decide? && !a.approve <==> StartsWith(d, RejectPrefix))
            && (a.Confirm? ==> SecondField(d, ConfirmPrefix, a.docId))
            && (a.Decide? && a.approve ==> SecondField(d, ApprovePrefix, a.docId))
            && (a.Decide? && !a.approve ==> SecondField(d, RejectPrefix, a.docId))
  {
    var d := if data.Some? then data.value else "";
    PrefixesExclusive(d);
    if StartsWith(d, ConfirmPrefix) then Confirm(UpToColon(d[|ConfirmPrefix|..]))
    else if StartsWith(d, ApprovePrefix) then Decide(true, UpToColon(d[|ApprovePrefix|..]))
    else if StartsWith(d, RejectPrefix) then Decide(false, UpToColon(d[|RejectPrefix|..]))
    else Ignore
  }

  /** No callback data starts with two of the three prefixes. */
  lemma PrefixesExclusive(d: string)
    ensures StartsWith(d, ConfirmPrefix) ==> !StartsWith(d, ApprovePrefix) && !StartsWith(d, RejectPrefix)
    ensures StartsWith(d, ApprovePrefix) ==> !StartsWith(d, RejectPrefix)
  {
    if StartsWith(d, ConfirmPrefix) {
      assert d[0] == ConfirmPrefix[0] == 'u';
    }
    if StartsWith(d, ApprovePrefix) {
      assert d[6] == ApprovePrefix[6] == 'a' && RejectPrefix[6] == 'r';
    }
  }

  /** Replacing a document by one with the same identity keeps the invariant. */
  lemma UpdateKeepsInvariant(orders: seq<Order>, i: nat, o: Order)
    requires StoreInvariant(orders) && i < |orders| && SameIdentity(orders[i], o)
    ensures StoreInvariant(orders[i := o])
  {
  }

  /** Appending a document numbered above every stored one, coded from its
      number and with a fresh `_id`, keeps the invariant. */
  lemma AppendKeepsInvariant(orders: seq<Order>, o: Order)
    requires StoreInvariant(orders)
    requires o.orderId >= 1 && o.orderCode == OrderCodes.OrderCode(o.orderId)
    requires o.totalPrice == Subtotal(o.items)
    requires forall i :: 0 <= i < |orders| ==> orders[i].orderId < o.orderId && orders[i].docId != o.docId
    ensures StoreInvariant(orders + [o])
  {
    var s := orders + [o];
    forall i, j | 0 <= i < j < |s|
      ensures s[i].orderId < s[j].orderId && s[i].docId != s[j].docId
    {
      assert s[i] == orders[i];
      if j < |orders| {
        assert s[j] == orders[j];
      } else {
        assert s[j] == o;
      }
    }
    forall i | 0 <= i < |s|
      ensures && s[i].orderId >= 1 && s[i].orderCode == OrderCodes.OrderCode(s[i].orderId)
              && s[i].totalPrice == Subtotal(s[i].items)
    {
      if i < |orders| {
        assert s[i] == orders[i];
      }
    }
  }

  /** "user_confirm:<id>" on a found order: the status becomes pending_admin
      whatever it was, the admin gets the slip when an admin chat is set and
      the order has one, and the customer is told. A send to an order with no
      bound chat throws, which ends the handler. */
  function ConfirmOrder(o: Order, adminChat: Option<int>, adminPhotoId: int, infoId: int): Handled {
    var o1 := o.(status := PendingAdmin);
    var e1 := [AnswerCallback(ForwardedToAdmin, false)];
    var notifyAdmin := adminChat.Some? && Present(o1.slipFileId);
    var o2 := if notifyAdmin then o1.(adminChatId := adminChat, adminMessageId := Some(adminPhotoId)) else o1;
    var e2 := if notifyAdmin then e1 + [SendPhoto(adminChat.value, o1.slipFileId.value, AdminReview)] else e1;
    if o2.userId.None? then Handled(o2, e2)
    else Handled(o2.(userMessages := o2.userMessages + [infoId]),
                 e2 + [SendMessage(o2.userId.value, ForwardedToAdminInfo)])
  }

  /** "admin_approve:<id>" / "admin_reject:<id>" on a found order: the status
      becomes completed / rejected whatever it was, the pressed admin message
      is deleted, the customer gets the result, every tracked customer message
      is deleted best-effort, and the list becomes the result message alone. */
  function DecideOrder(o: Order, approve: bool, pressedOn: Option<(int, int)>, resultId: int,
                       undeletable: set<(int, int)>): Handled
  {
    var o1 := o.(status := if approve then Completed else Rejected);
    var e1 := [AnswerCallback(if approve then ApprovedAnswer else RejectedAnswer, false)]
              + (if pressedOn.Some?
                 then [DeleteMessage(pressedOn.value.0, pressedOn.value.1, pressedOn.value !in undeletable)]
                 else []);
    if o1.userId.None? then Handled(o1, e1)
    else
      var chat := o1.userId.value;
      Handled(o1.(userMessages := [resultId]),
              e1 + [SendMessage(chat, if approve then ApprovedResult else RejectedResult)]
                 + Deletions(chat, o1.userMessages, undeletable))
  }

  /** A `callback_query`. `pressedOn` is the (chat, message) the button sat
      on; the ids are those Telegram gives the messages the handler sends. */
  function CallbackStep(orders: seq<Order>, adminChat: Option<int>, data: Option<string>,
                        pressedOn: Option<(int, int)>, adminPhotoId: int, infoId: int,
                        resultId: int, undeletable: set<(int, int)>): Step
  {
    var action := ParseCallback(data);
    if action.Ignore? then Step(orders, [])
    else
      var k := FindFirst(orders, ByDocId(action.docId));
      if k.None? then Step(orders, [AnswerCallback(OrderNotFound, true)])
      else
        var h := if action.Confirm? then ConfirmOrder(orders[k.value], adminChat, adminPhotoId, infoId)
                 else DecideOrder(orders[k.value], action.approve, pressedOn, resultId, undeletable);
        Step(orders[k.value := h.order], h.effects)
  }

  /** The steps of the "user_confirm:" branch on one found document: the
      document as last saved and the calls made, in order. */
  method ConfirmSteps(o: Order, adminChat: Option<int>, adminPhotoId: int, infoId: int)
    returns (saved: Order, calls: seq<Effect>)
    ensures Handled(saved, calls) == ConfirmOrder(o, adminChat, adminPhotoId, infoId)
  {
    saved := o.(status := PendingAdmin);
    calls := [AnswerCallback(ForwardedToAdmin, false)];
    if adminChat.Some? && Present(saved.slipFileId) {
      calls := calls + [SendPhoto(adminChat.value, saved.slipFileId.value, AdminReview)];
      saved := saved.(adminChatId := adminChat, adminMessageId := Some(adminPhotoId));
    }
    // A send to an unbound chat throws, and the handler's catch ends it.
    if saved.userId.Some? {
      calls := calls + [SendMessage(saved.userId.value, ForwardedToAdminInfo)];
      saved := saved.(userMessages := saved.userMessages + [infoId]);
    }
  }

  /** The steps of the "admin_approve:" / "admin_reject:" branch on one found
      document, with the loop that deletes the customer's tracked messages. */
  method DecisionSteps(o: Order, approve: bool, pressedOn: Option<(int, int)>, resultId: int,
                undeletable: set<(int, int)>)
    returns (saved: Order, calls: seq<Effect>)
    ensures Handled(saved, calls) == DecideOrder(o, approve, pressedOn, resultId, undeletable)
  {
    saved := o.(status := if approve then Completed else Rejected);
    calls := [AnswerCallback(if approve then ApprovedAnswer else RejectedAnswer, false)];
    if pressedOn.Some? {
      calls := calls + [DeleteMessage(pressedOn.value.0, pressedOn.value.1, pressedOn.value !in undeletable)];
    }
    if saved.userId.Some? {
      var userChat := saved.userId.value;
      calls := calls + [SendMessage(userChat, if approve then ApprovedResult else RejectedResult)];
      var attempts := DeleteEach(userChat, saved.userMessages, undeletable);
      calls := calls + attempts;
      saved := saved.(userMessages := [resultId]);
    }
  }

  // -------------------------------------------------------------- the bot

  class OrderBot {
    /** The `Order` collection, oldest first. */
    var orders: seq<Order>
    /** Every Telegram call made so far. */
    var effects: seq<Effect>
    /** `ADMIN_CHAT_ID`, when configured. */
    const adminChat: Option<int>

    ghost predicate Valid()
      reads this
    {
      StoreInvariant(orders)
    }

    constructor (adminChat: Option<int>)
      ensures Valid() && orders == [] && effects == [] && this.adminChat == adminChat
    {
      orders := [];
      effects := [];
      this.adminChat := adminChat;
    }

    /** POST /api/orders/web-order; `token` stands for the random start token
        and `docId` for the `_id` the database gives the new document. */
    method CreateWebOrder(body: WebOrderBody, token: string, docId: string) returns (reply: WebOrderReply)
      requires Valid()
      requires forall i :: 0 <= i < |orders| ==> orders[i].docId != docId
      modifies this
      ensures Valid()
      ensures (orders, reply) == CreateWebOrderStep(old(orders), body, token, docId)
      ensures effects == old(effects)
    {
      var v := ValidateWebOrder(body);
      if v.Refused? {
        return Failed(v.error);
      }
      var order := PreSave(NewWebOrder(v.fields, token, docId), true, orders);
      AppendKeepsInvariant(orders, order);
      orders := orders + [order];
      reply := Created("web_" + token, order.orderCode);
    }

    /** The `/start` handler. */
    method OnStart(chat: int, payload: Option<string>, fromUsername: Option<string>, previewId: int)
      requires Valid()
      modifies this
      ensures Valid()
      ensures var s := StartStep(old(orders), chat, payload, fromUsername, previewId);
              orders == s.orders && effects == old(effects) + s.effects
    {
      if !Present(payload) || !StartsWith(payload.value, "web_") {
        effects := effects + [SendMessage(chat, Welcome)];
        return;
      }
      var token := payload.value[4..];
      var k := FindFirst(orders, ByStartToken(token));
      if k.None? {
        effects := effects + [SendMessage(chat, WebOrderNotFound)];
        return;
      }
      var i := k.value;
      var o := orders[i].(userId := Some(chat), username := Some(OrEmpty(fromUsername)));
      effects := effects + [SendMessage(chat, WebOrderPreview)];
      o := o.(userMessages := o.userMessages + [previewId]);
      UpdateKeepsInvariant(orders, i, o);
      orders := orders[i := o];
    }

    /** The `photo` handler. */
    method OnPhoto(chat: int, fromId: Option<int>, photos: seq<Option<string>>, summaryId: int)
      requires Valid()
      modifies this
      ensures Valid()
      ensures var s := PhotoStep(old(orders), chat, fromId, photos, summaryId);
              orders == s.orders && effects == old(effects) + s.effects
    {
      if fromId.None? || fromId.value == 0 {
        return;
      }
      var k := FindLast(orders, WaitingSlipOf(fromId.value));
      if k.None? {
        return;
      }
      var fileId := LastFileId(photos);
      if !Present(fileId) {
        return;
      }
      var i := k.value;
      var o := orders[i].(slipFileId := fileId, status := WaitingUserConfirm);
      effects := effects + [SendPhoto(chat, fileId.value, OrderSummary)];
      o := o.(userMessages := o.userMessages + [summaryId]);
      UpdateKeepsInvariant(orders, i, o);
      orders := orders[i := o];
    }

    /** The `callback_query` handler. */
    method OnCallback(data: Option<string>, pressedOn: Option<(int, int)>, adminPhotoId: int,
                      infoId: int, resultId: int, undeletable: set<(int, int)>)
      requires Valid()
      modifies this
      ensures Valid()
      ensures var s := CallbackStep(old(orders), adminChat, data, pressedOn, adminPhotoId,
                                    infoId, resultId, undeletable);
              orders == s.orders && effects == old(effects) + s.effects
    {
      var action := ParseCallback(data);
      if action.Ignore? {
        return;
      }
      var k := FindFirst(orders, ByDocId(action.docId));
      if k.None? {
        effects := effects + [AnswerCallback(OrderNotFound, true)];
        return;
      }
      if action.Confirm? {
        ConfirmAt(k.value, adminPhotoId, infoId);
      } else {
        DecideAt(k.value, action.approve, pressedOn, resultId, undeletable);
      }
    }

    /** The "user_confirm:" branch on the document at `i`. */
    method ConfirmAt(i: nat, adminPhotoId: int, infoId: int)
      requires Valid() && i < |orders|
      modifies this
      ensures Valid()
      ensures var h := ConfirmOrder(old(orders)[i], adminChat, adminPhotoId, infoId);
              orders == old(orders)[i := h.order] && effects == old(effects) + h.effects
    {
      var o, calls := ConfirmSteps(orders[i], adminChat, adminPhotoId, infoId);
      effects := effects + calls;
      UpdateKeepsInvariant(orders, i, o);
      orders := orders[i := o];
    }

    /** The "admin_approve:" / "admin_reject:" branch on the document at `i`. */
    method DecideAt(i: nat, approve: bool, pressedOn: Option<(int, int)>, resultId: int,
                    undeletable: set<(int, int)>)
      requires Valid() && i < |orders|
      modifies this
      ensures Valid()
      ensures var h := DecideOrder(old(orders)[i], approve, pressedOn, resultId, undeletable);
              orders == old(orders)[i := h.order] && effects == old(effects) + h.effects
    {
      var o, calls := DecisionSteps(orders[i], approve, pressedOn, resultId, undeletable);
      effects := effects + calls;
      UpdateKeepsInvariant(orders, i, o);
      orders := orders[i := o];
    }
  }

  // ------------------------------------------------------------- properties

  /** Creating a web order keeps the store invariant: the new document gets
      an id above every stored one, the code for that id, and a fresh `_id`. */
  lemma {:induction false} WebOrderKeepsInvariant(orders: seq<Order>, body: WebOrderBody, token: string, docId: string)
    requires StoreInvariant(orders)
    requires forall i :: 0 <= i < |orders| ==> orders[i].docId != docId
    ensures StoreInvariant(CreateWebOrderStep(orders, body, token, docId).0)
  {
    var v := ValidateWebOrder(body);
    if v.Accepted? {
      var o := PreSave(NewWebOrder(v.fields, token, docId), true, orders);
      AppendKeepsInvariant(orders, o);
    }
  }

  /** A refused web order stores nothing. An accepted one is appended as a
      web order waiting for its slip, numbered one past the largest id, with
      only the chosen game's ids, and the reply carries its start code and
      order code. */
  lemma {:induction false} WebOrderCreation(orders: seq<Order>, body: WebOrderBody, token: string, docId: string)
    ensures var (orders', reply) := CreateWebOrderStep(orders, body, token, docId);
            && (reply.Failed? <==> ValidateWebOrder(body).Refused?)
            && (reply.Failed? ==> orders' == orders && reply.error == ValidateWebOrder(body).error)
            && (reply.Created? ==>
                  var o := orders'[|orders|];
                  var f := ValidateWebOrder(body).fields;
                  && |orders'| == |orders| + 1 && orders'[..|orders|] == orders
                  && o.orderId == MaxOrderId(orders) + 1
                  && reply == Created("web_" + token, OrderCodes.OrderCode(o.orderId))
                  && o.source == Web && o.status == WaitingForSlip
                  && o.startToken == Some(token) && o.docId == docId
                  && o.userId.None? && o.slipFileId.None? && o.userMessages == []
                  && o.game == f.game && o.items == f.items && o.totalPrice == f.totalPrice
                  && o.mlbbId == f.mlbbId && o.mlbbServerId == f.mlbbServerId && o.pubgId == f.pubgId
                  && (o.game == MLBB ==> o.mlbbId == body.mlbbId && o.mlbbServerId == body.svId && o.pubgId.None?)
                  && (o.game == PUBG ==> o.pubgId == body.pubgId && o.mlbbId.None? && o.mlbbServerId.None?))
  {
    var v := ValidateWebOrder(body);
    if v.Accepted? {
      var o := PreSave(NewWebOrder(v.fields, token, docId), true, orders);
      assert o.orderId == MaxOrderId(orders) + 1;
      assert (orders + [o])[..|orders|] == orders;
    }
  }

  /** The first web order in an empty store: an MLBB cart of one "86 Diamonds"
      at 3000 gets the code "BKS000001" and the total 3000. */
  lemma FirstWebOrder(token: string, docId: string)
    ensures var body := WebOrderBody(Some("MLBB"),
                                     Entries([CartEntry(Some("86 Diamonds"), None, Some(3000), Some(1))]),
                                     Some("123"), Some("45"), None);
            var (orders', reply) := CreateWebOrderStep([], body, token, docId);
            && reply == Created("web_" + token, "BKS000001")
            && |orders'| == 1 && orders'[0].totalPrice == 3000 && orders'[0].orderId == 1
  {
    var body := WebOrderBody(Some("MLBB"),
                             Entries([CartEntry(Some("86 Diamonds"), None, Some(3000), Some(1))]),
                             Some("123"), Some("45"), None);
    var entries := body.cart.entries;
    assert EntriesTotal(entries) == 3000 by {
      assert entries[..0] == [];
    }
    assert SchemaItems(entries, MLBB).Some?;
    OrderCodes.FirstOrderCode();
  }

  /** `/start` without a "web_" payload only greets; with an unknown token it
      only says so; with a known token it binds the first order carrying that
      token to the chat and sender, records the preview, and changes nothing
      else: not the status, not the token. */
  lemma StartDispatch(orders: seq<Order>, chat: int, payload: Option<string>,
                                         fromUsername: Option<string>, previewId: int)
    ensures var s := StartStep(orders, chat, payload, fromUsername, previewId);
            var token := StartToken(payload);
            && (token.None? ==> s == Step(orders, [SendMessage(chat, Welcome)]))
            && (token.Some? && FindFirst(orders, ByStartToken(token.value)).None? ==>
                  s == Step(orders, [SendMessage(chat, WebOrderNotFound)]))
            && (token.Some? && FindFirst(orders, ByStartToken(token.value)).Some? ==>
                  var k := FindFirst(orders, ByStartToken(token.value)).value;
                  && |s.orders| == |orders|
                  && (forall j :: 0 <= j < |orders| && j != k ==> s.orders[j] == orders[j])
                  && s.orders[k] == orders[k].(userId := Some(chat), username := Some(OrEmpty(fromUsername)),
                                               userMessages := orders[k].userMessages + [previewId])
                  && s.orders[k].startToken == Some(token.value)
                  && s.orders[k].status == orders[k].status
                  && s.effects == [SendMessage(chat, WebOrderPreview)])
  {
  }

  /** The start token survives a bind: the same link opened later from
      another chat finds the same order again and rebinds it to that chat. */
  lemma StartRebinds(orders: seq<Order>, payload: Option<string>, chat: int, other: int,
                                        name: Option<string>, otherName: Option<string>,
                                        previewId: int, otherPreviewId: int)
    requires StartToken(payload).Some? && FindFirst(orders, ByStartToken(StartToken(payload).value)).Some?
    ensures var first := StartStep(orders, chat, payload, name, previewId);
            var second := StartStep(first.orders, other, payload, otherName, otherPreviewId);
            var k := FindFirst(orders, ByStartToken(StartToken(payload).value)).value;
            && second.orders[k].userId == Some(other)
            && second.orders[k].userMessages == orders[k].userMessages + [previewId, otherPreviewId]
            && second.effects == [SendMessage(other, WebOrderPreview)]
  {
    var token := StartToken(payload).value;
    var k := FindFirst(orders, ByStartToken(token)).value;
    var first := StartStep(orders, chat, payload, name, previewId);
    assert Matches(first.orders[k], ByStartToken(token));
    assert forall j :: 0 <= j < k ==> first.orders[j] == orders[j];
    assert FindFirst(first.orders, ByStartToken(token)) == Some(k);
    assert orders[k].userMessages + [previewId] + [otherPreviewId]
        == orders[k].userMessages + [previewId, otherPreviewId];
  }

  /** A slip photo moves exactly one order, the sender's newest order still
      waiting for a slip, to waiting_user_confirm with the last photo's file
      id; without a sender, such an order or a file id nothing happens. */
  lemma PhotoTransition(orders: seq<Order>, chat: int, fromId: Option<int>,
                        photos: seq<Option<string>>, summaryId: int)
    ensures var s := PhotoStep(orders, chat, fromId, photos, summaryId);
            && |s.orders| == |orders|
            && (s.effects == [] <==> s.orders == orders)
            && (s.effects == [] <==>
                  || fromId.None? || fromId.value == 0
                  || !Present(LastFileId(photos))
                  || (forall j :: 0 <= j < |orders| ==>
                        !(orders[j].userId == fromId && orders[j].status == WaitingForSlip)))
            && (s.effects != [] ==>
                  exists k :: 0 <= k < |orders|
                    && orders[k].userId == fromId && orders[k].status == WaitingForSlip
                    && (forall j :: k < j < |orders| ==>
                          !(orders[j].userId == fromId && orders[j].status == WaitingForSlip))
                    && (forall j :: 0 <= j < |orders| && j != k ==> s.orders[j] == orders[j])
                    && s.orders[k] == orders[k].(slipFileId := LastFileId(photos), status := WaitingUserConfirm,
                                                 userMessages := orders[k].userMessages + [summaryId])
                    && s.effects == [SendPhoto(chat, LastFileId(photos).value, OrderSummary)])
  {
  }

  /** Other callback data does nothing; an unknown order id only raises the
      "Order not found." alert. */
  lemma CallbackNoOrder(orders: seq<Order>, adminChat: Option<int>, data: Option<string>,
                        pressedOn: Option<(int, int)>, adminPhotoId: int, infoId: int,
                        resultId: int, undeletable: set<(int, int)>)
    ensures var s := CallbackStep(orders, adminChat, data, pressedOn, adminPhotoId, infoId, resultId, undeletable);
            var a := ParseCallback(data);
            && (a.Ignore? ==> s == Step(orders, []))
            && (!a.Ignore? && (forall j :: 0 <= j < |orders| ==> orders[j].docId != a.docId) ==>
                  s == Step(orders, [AnswerCallback(OrderNotFound, true)]))
  {
  }

  /** `/start` keeps every document's identity, items and total. */
  lemma StartKeepsPricing(orders: seq<Order>, chat: int, payload: Option<string>,
                          fromUsername: Option<string>, previewId: int)
    ensures var s := StartStep(orders, chat, payload, fromUsername, previewId);
            |s.orders| == |orders| && forall i :: 0 <= i < |orders| ==> SameIdentity(s.orders[i], orders[i])
  {
  }

  /** A slip photo keeps every document's identity, items and total. */
  lemma PhotoKeepsPricing(orders: seq<Order>, chat: int, fromId: Option<int>,
                          photos: seq<Option<string>>, summaryId: int)
    ensures var s := PhotoStep(orders, chat, fromId, photos, summaryId);
            |s.orders| == |orders| && forall i :: 0 <= i < |orders| ==> SameIdentity(s.orders[i], orders[i])
  {
  }

  /** A button press keeps every document's identity, items and total. */
  lemma CallbackKeepsPricing(orders: seq<Order>, adminChat: Option<int>, data: Option<string>,
                             pressedOn: Option<(int, int)>, adminPhotoId: int, infoId: int,
                             resultId: int, undeletable: set<(int, int)>)
    ensures var s := CallbackStep(orders, adminChat, data, pressedOn, adminPhotoId, infoId, resultId, undeletable);
            |s.orders| == |orders| && forall i :: 0 <= i < |orders| ==> SameIdentity(s.orders[i], orders[i])
  {
    var a := ParseCallback(data);
    if !a.Ignore? {
      var k := FindFirst(orders, ByDocId(a.docId));
      if k.Some? {
        if a.Confirm? {
          ConfirmFromAnyStatus(orders[k.value], adminChat, adminPhotoId, infoId);
        } else {
          DecisionReplacesMessages(orders[k.value], a.approve, pressedOn, resultId, undeletable);
        }
      }
    }
  }

  /** "user_confirm" sets pending_admin from every status, the terminal ones
      included, records the info message when the order has a chat, and
      changes no other field than the admin message it records. */
  lemma ConfirmFromAnyStatus(o: Order, adminChat: Option<int>, adminPhotoId: int, infoId: int)
    ensures var h := ConfirmOrder(o, adminChat, adminPhotoId, infoId);
            && h.order.status == PendingAdmin
            && SameIdentity(h.order, o)
            && h.order.(status := o.status, adminChatId := o.adminChatId, adminMessageId := o.adminMessageId,
                        userMessages := o.userMessages) == o
            && |h.effects| == 1 + (if adminChat.Some? && Present(o.slipFileId) then 1 else 0)
                                + (if o.userId.Some? then 1 else 0)
            && (o.userId.Some? ==> h.order.userMessages == o.userMessages + [infoId]
                                   && h.effects[|h.effects| - 1] == SendMessage(o.userId.value, ForwardedToAdminInfo))
            && (o.userId.None? ==> h.order.userMessages == o.userMessages)
            && h.effects[0] == AnswerCallback(ForwardedToAdmin, false)
            && (adminChat.Some? && Present(o.slipFileId) ==>
                  && h.effects[1] == SendPhoto(adminChat.value, o.slipFileId.value, AdminReview)
                  && h.order.adminChatId == adminChat && h.order.adminMessageId == Some(adminPhotoId))
            && (!(adminChat.Some? && Present(o.slipFileId)) ==>
                  && h.order.adminChatId == o.adminChatId && h.order.adminMessageId == o.adminMessageId
                  && forall e :: e in h.effects ==> !e.SendPhoto?)
  {
  }

  /** An admin decision sets completed or rejected from every status and
      changes nothing else but the tracked list; it answers the press, then
      deletes the pressed admin message when there is one; when
      the order has a chat it attempts to delete every tracked customer
      message, oldest first, after sending the result, and the tracked list
      becomes exactly the result message. */
  lemma DecisionReplacesMessages(o: Order, approve: bool, pressedOn: Option<(int, int)>, resultId: int,
                                 undeletable: set<(int, int)>)
    ensures var h := DecideOrder(o, approve, pressedOn, resultId, undeletable);
            && h.order == o.(status := if approve then Completed else Rejected,
                             userMessages := if o.userId.Some? then [resultId] else o.userMessages)
            && SameIdentity(h.order, o)
            && h.effects[0] == AnswerCallback(if approve then ApprovedAnswer else RejectedAnswer, false)
            && (pressedOn.Some? ==>
                  var (chat, id) := pressedOn.value;
                  h.effects[1] == DeleteMessage(chat, id, (chat, id) !in undeletable))
            && |h.effects| == 1 + (if pressedOn.Some? then 1 else 0)
                                + (if o.userId.Some? then 1 + |o.userMessages| else 0)
            && (o.userId.Some? ==>
                  var n := |o.userMessages|;
                  && h.order.userMessages == [resultId]
                  && |h.effects| >= n + 1
                  && h.effects[|h.effects| - n..] == Deletions(o.userId.value, o.userMessages, undeletable)
                  && h.effects[|h.effects| - n - 1] ==
                       SendMessage(o.userId.value, if approve then ApprovedResult else RejectedResult))
            && (o.userId.None? ==> h.order.userMessages == o.userMessages)
  {
  }

  /** Replacing the first match of a query by a document that still matches
      leaves it the first match. */
  lemma FoundAfterUpdate(orders: seq<Order>, q: Query, k: nat, o: Order)
    requires FindFirst(orders, q) == Some(k) && Matches(o, q)
    ensures FindFirst(orders[k := o], q) == Some(k)
  {
    var u := orders[k := o];
    assert Matches(u[k], q);
    assert forall j :: 0 <= j < k ==> u[j] == orders[j];
  }

  /** A decision callback on a found document is that document's decision. */
  lemma CallbackDecides(orders: seq<Order>, adminChat: Option<int>, data: Option<string>,
                        pressedOn: Option<(int, int)>, adminPhotoId: int, infoId: int,
                        resultId: int, undeletable: set<(int, int)>)
    requires ParseCallback(data).Decide?
    requires FindFirst(orders, ByDocId(ParseCallback(data).docId)).Some?
    ensures var k := FindFirst(orders, ByDocId(ParseCallback(data).docId)).value;
            var h := DecideOrder(orders[k], ParseCallback(data).approve, pressedOn, resultId, undeletable);
            CallbackStep(orders, adminChat, data, pressedOn, adminPhotoId, infoId, resultId, undeletable)
              == Step(orders[k := h.order], h.effects)
  {
  }

  /** A repeated approve press on the same order runs the whole decision
      again: the customer is told twice, and the second run deletes the first
      result message. */
  lemma RepeatedApproval(orders: seq<Order>, adminChat: Option<int>, data: Option<string>,
                         resultId: int, secondResultId: int, undeletable: set<(int, int)>)
    requires ParseCallback(data).Decide? && ParseCallback(data).approve
    requires FindFirst(orders, ByDocId(ParseCallback(data).docId)).Some?
    requires orders[FindFirst(orders, ByDocId(ParseCallback(data).docId)).value].userId.Some?
    ensures var first := CallbackStep(orders, adminChat, data, None, 0, 0, resultId, undeletable);
            var second := CallbackStep(first.orders, adminChat, data, None, 0, 0, secondResultId, undeletable);
            var k := FindFirst(orders, ByDocId(ParseCallback(data).docId)).value;
            var chat := orders[k].userId.value;
            && first.orders[k].status == Completed && second.orders[k].status == Completed
            && SendMessage(chat, ApprovedResult) in first.effects
            && SendMessage(chat, ApprovedResult) in second.effects
            && DeleteMessage(chat, resultId, (chat, resultId) !in undeletable) in second.effects
            && second.orders[k].userMessages == [secondResultId]
  {
    var id := ParseCallback(data).docId;
    var k := FindFirst(orders, ByDocId(id)).value;
    var chat := orders[k].userId.value;
    var h1 := DecideOrder(orders[k], true, None, resultId, undeletable);
    CallbackDecides(orders, adminChat, data, None, 0, 0, resultId, undeletable);
    DecisionReplacesMessages(orders[k], true, None, resultId, undeletable);
    var first := orders[k := h1.order];
    FoundAfterUpdate(orders, ByDocId(id), k, h1.order);
    var h2 := DecideOrder(h1.order, true, None, secondResultId, undeletable);
    CallbackDecides(first, adminChat, data, None, 0, 0, secondResultId, undeletable);
    DecisionReplacesMessages(h1.order, true, None, secondResultId, undeletable);
    assert h2.effects[|h2.effects| - 1] == Deletions(chat, [resultId], undeletable)[0];
  }
}
