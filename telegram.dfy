/** The bot's calls into the Telegram Bot API, recorded as an effect log
    instead of being performed. Texts are named, not spelled out. */
module Telegram {

  /** The fixed texts the bot sends or answers with. */
  datatype Notice =
    | Welcome              // /start without a web-order payload
    | WebOrderNotFound     // /start web_... with an unknown token
    | WebOrderPreview      // the order preview with payment details
    | OrderSummary         // the slip photo echoed back with a Confirm button
    | AdminReview          // the slip photo sent to the admin with Approve / Reject
    | OrderNotFound        // callback alert "Order not found."
    | ForwardedToAdmin     // callback answer after the customer confirms
    | ForwardedToAdminInfo // chat message after the customer confirms
    | ApprovedAnswer       // callback answer "Order approved."
    | RejectedAnswer       // callback answer "Order rejected."
    | ApprovedResult       // customer message after approval
    | RejectedResult       // customer message after rejection

  datatype Effect =
    | SendMessage(chat: int, notice: Notice)
    | SendPhoto(chat: int, fileId: string, notice: Notice)
    | AnswerCallback(notice: Notice, alert: bool)
    /** A deleteMessage call; `ok` is false when Telegram refused it, which
        the caller swallows. */
    | DeleteMessage(chat: int, messageId: int, ok: bool)

  /** The attempts a loop of best-effort deletes makes: one per id, in order.
      `undeletable` holds the (chat, message) pairs Telegram refuses to delete. */
  function Deletions(chat: int, ids: seq<int>, undeletable: set<(int, int)>): (log: seq<Effect>)
    ensures |log| == |ids|
    ensures forall i :: 0 <= i < |ids| ==>
              log[i] == DeleteMessage(chat, ids[i], (chat, ids[i]) !in undeletable)
  {
    if ids == [] then []
    else [DeleteMessage(chat, ids[0], (chat, ids[0]) !in undeletable)]
         + Deletions(chat, ids[1..], undeletable)
  }

  /** `for (const id of ids) { try { await deleteMessage(chat, id) } catch (_) {} }`:
      every id is attempted, whatever the earlier attempts returned. */
  method DeleteEach(chat: int, ids: seq<int>, undeletable: set<(int, int)>)
    returns (log: seq<Effect>)
    ensures log == Deletions(chat, ids, undeletable)
  {
    log := [];
    for i := 0 to |ids|
      invariant |log| == i
      invariant forall j :: 0 <= j < i ==>
                  log[j] == DeleteMessage(chat, ids[j], (chat, ids[j]) !in undeletable)
    {
      var ok := (chat, ids[i]) !in undeletable;
      log := log + [DeleteMessage(chat, ids[i], ok)];
    }
  }
}
