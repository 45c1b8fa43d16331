/** The message-retention tracker of utils/autoClean.js: per chat, the ids of
    the messages the bot sent, capped at 50, and `cleanChat`, which deletes all
    but the newest `keepLast` of them and forgets the deleted ids. */
module AutoClean {
  import opened Telegram

  /** The safety cap on one chat's list. */
  const Capacity: nat := 50

  /** A chat's list after `trackMessage` appends `id`: the id goes at the end
      and, past the cap, the oldest id is dropped. */
  function Tracked(list: seq<int>, id: int): (r: seq<int>)
    ensures |list| < Capacity ==> r == list + [id]
    ensures |list| >= Capacity ==> r == list[1..] + [id]
    ensures |list| <= Capacity ==> |r| <= Capacity
  {
    var grown := list + [id];
    if |grown| > Capacity then grown[1..] else grown
  }

  /** The list after tracking each of `ids` in turn. */
  function TrackedAll(list: seq<int>, ids: seq<int>): seq<int>
    decreases |ids|
  {
    if ids == [] then list
    else TrackedAll(Tracked(list, ids[0]), ids[1..])
  }

  /** JavaScript's `list.slice(-n)`. Because -0 is 0, `n == 0` keeps the
      whole list rather than none of it. */
  function SliceFromEnd(list: seq<int>, n: nat): (r: seq<int>)
    ensures n == 0 ==> r == list
    ensures 0 < n <= |list| ==> |r| == n && list == list[..|list| - n] + r
    ensures n > |list| ==> r == list
  {
    if n == 0 || n > |list| then list else list[|list| - n..]
  }

  /** The newest `Capacity` ids of a history, or all of them if fewer. */
  function Newest(history: seq<int>): (r: seq<int>)
    ensures |r| <= Capacity
  {
    if |history| <= Capacity then history else history[|history| - Capacity..]
  }

  /** Tracking a run of ids into a list within the cap leaves the newest ids
      of the whole history, at most 50 of them. */
  lemma {:induction false} TrackedAllKeepsNewest(list: seq<int>, ids: seq<int>)
    requires |list| <= Capacity
    ensures TrackedAll(list, ids) == Newest(list + ids)
    decreases |ids|
  {
    if ids == [] {
      assert list + ids == list;
    } else {
      var next := Tracked(list, ids[0]);
      TrackedAllKeepsNewest(next, ids[1..]);
      var all := list + ids;
      var rest := next + ids[1..];
      if |list| < Capacity {
        assert rest == all;
      } else {
        assert rest == all[1..];
        assert |rest| == |all| - 1 >= Capacity;
        assert rest[|rest| - Capacity..] == all[|all| - Capacity..];
      }
    }
  }

  class MessageTracker {
    /** `messageStore`: chat id to the ids of the messages sent there. */
    var lists: map<int, seq<int>>
    /** The Telegram calls made so far. */
    var effects: seq<Effect>

    ghost predicate Valid()
      reads this
    {
      forall chat :: chat in lists ==> |lists[chat]| <= Capacity
    }

    constructor ()
      ensures Valid() && lists == map[] && effects == []
    {
      lists := map[];
      effects := [];
    }

    /** `trackMessage(chat, id)` */
    method TrackMessage(chat: int, id: int)
      requires Valid()
      modifies this
      ensures Valid()
      ensures lists == old(lists)[chat := Tracked(if chat in old(lists) then old(lists)[chat] else [], id)]
      ensures effects == old(effects)
    {
      if chat !in lists {
        lists := lists[chat := []];
      }
      var list := lists[chat] + [id];
      if |list| > Capacity {
        list := list[1..];
      }
      lists := lists[chat := list];
    }

    /** `cleanChat(chat, { keepLast = 1 })` */
    method CleanChat(chat: int, undeletable: set<(int, int)>, keepLast: nat := 1)
      requires Valid()
      modifies this
      ensures Valid()
      ensures chat !in old(lists) || |old(lists)[chat]| <= keepLast ==>
                lists == old(lists) && effects == old(effects)
      ensures chat in old(lists) && |old(lists)[chat]| > keepLast ==>
                var list := old(lists)[chat];
                && effects == old(effects) + Deletions(chat, list[..|list| - keepLast], undeletable)
                && lists == old(lists)[chat := SliceFromEnd(list, keepLast)]
    {
      if chat !in lists || |lists[chat]| <= keepLast {
        return;
      }
      var messages := lists[chat];
      var toDelete := messages[..|messages| - keepLast];
      var attempts := DeleteEach(chat, toDelete, undeletable);
      effects := effects + attempts;
      lists := lists[chat := SliceFromEnd(messages, keepLast)];
    }
  }

  /** A clean of a list longer than `keepLast` (at least 1) attempts to delete
      exactly the ids it drops, oldest first, and the ids it keeps are the
      newest `keepLast`: together they are the old list. */
  lemma CleanPartitions(list: seq<int>, keepLast: nat, chat: int, undeletable: set<(int, int)>)
    requires 0 < keepLast < |list|
    ensures var log := Deletions(chat, list[..|list| - keepLast], undeletable);
            && |log| == |list| - keepLast
            && (forall i :: 0 <= i < |log| ==> log[i].messageId == list[i])
            && SliceFromEnd(list, keepLast) == list[|list| - keepLast..]
            && list[..|list| - keepLast] + SliceFromEnd(list, keepLast) == list
  {
  }

  /** With `keepLast` 0 every id is deleted and yet every id is kept. */
  lemma KeepLastZeroKeepsDeletedIds(list: seq<int>, chat: int, undeletable: set<(int, int)>)
    requires |list| > 0
    ensures |Deletions(chat, list[..|list| - 0], undeletable)| == |list|
    ensures SliceFromEnd(list, 0) == list
  {
  }

  /** Five tracked ids and a clean with the default `keepLast` of 1: four
      delete attempts, for the four oldest ids, and the newest id kept. */
  lemma FiveTrackedKeepOne(a: int, b: int, c: int, d: int, e: int, chat: int)
    ensures var list := TrackedAll([], [a, b, c, d, e]);
            && list == [a, b, c, d, e]
            && Deletions(chat, list[..|list| - 1], {}) ==
                 [DeleteMessage(chat, a, true), DeleteMessage(chat, b, true),
                  DeleteMessage(chat, c, true), DeleteMessage(chat, d, true)]
            && SliceFromEnd(list, 1) == [e]
  {
    TrackedAllKeepsNewest([], [a, b, c, d, e]);
    assert [] + [a, b, c, d, e] == [a, b, c, d, e];
  }
}
