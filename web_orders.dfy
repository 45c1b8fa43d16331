/** The in-memory web-order broker of routes/webOrders.js: the storefront
    creates a pending cart under a one-time start code ("web_" + 12 hex
    digits), the bot claims it once, and entries older than 30 minutes are
    swept at the start of every request. The clock and the random bytes are
    parameters. */
module WebOrders {
  import opened Shared

  /** `TTL_MS`: 30 minutes in milliseconds. */
  const TtlMs: int := 30 * 60 * 1000

  /** A pending cart as stored in the `webOrders` map. */
  datatype Record = Record(game: Game, cart: seq<CartEntry>, mlbbId: string, svId: string,
                           pubgId: string, total: int, createdAt: int, claimed: bool)

  /** Why a request was refused. */
  datatype Reason =
    | InvalidGame        // 400 "Invalid or missing game type"
    | EmptyCart          // 400 "Cart is empty"
    | InvalidTotal       // 400 "Invalid cart total"
    | MissingMlbbIds     // 400 "MLBB ID and Server ID are required"
    | MissingPubgId      // 400 "PUBG ID is required"
    | MissingStartCode   // 400 "startCode is required"
    | UnknownStartCode   // 404 "Invalid or expired startCode"

  function HttpStatus(reason: Reason): int {
    if reason == UnknownStartCode then 404 else 400
  }

  datatype Reply<T> = Ok(value: T) | Refused(reason: Reason)

  /** The body of POST /claim. */
  datatype ClaimBody = ClaimBody(startCode: Option<string>, telegramUserId: Option<int>,
                                 username: Option<string>, firstName: Option<string>)

  /** The `order` a successful claim answers with. */
  datatype ClaimedOrder = ClaimedOrder(game: Game, cart: seq<CartEntry>, total: int,
                                       mlbbId: string, svId: string, pubgId: string,
                                       telegramUserId: Option<int>, username: string,
                                       firstName: string)

  predicate IsHexDigit(c: char) {
    '0' <= c <= '9' || 'a' <= c <= 'f'
  }

  /** What `crypto.randomBytes(6).toString("hex")` yields. */
  predicate IsHexToken(hex: string) {
    |hex| == 12 && forall i :: 0 <= i < |hex| ==> IsHexDigit(hex[i])
  }

  /** The form of every key of the map. */
  predicate IsStartCode(code: string) {
    |code| == 16 && code[..4] == "web_" && IsHexToken(code[4..])
  }

  predicate Expired(r: Record, now: int) {
    r.createdAt + TtlMs < now
  }

  /** The map after `cleanupExpired()` at time `now`. */
  function Unexpired(m: map<string, Record>, now: int): map<string, Record> {
    map code | code in m && !Expired(m[code], now) :: m[code]
  }

  /** One cart entry's share of the total: a missing price counts 0, a missing
      or zero quantity counts 1. */
  function EntryAmount(e: CartEntry): int {
    var qty := NumberOrZero(e.qty);
    NumberOrZero(e.price) * (if qty == 0 then 1 else qty)
  }

  /** `cart.reduce((sum, item) => sum + price * qty, 0)` */
  function CartTotal(cart: seq<CartEntry>): int {
    if cart == [] then 0 else CartTotal(cart[..|cart| - 1]) + EntryAmount(cart[|cart| - 1])
  }

  lemma {:induction false} CartTotalAppend(a: seq<CartEntry>, b: seq<CartEntry>)
    ensures CartTotal(a + b) == CartTotal(a) + CartTotal(b)
    decreases |b|
  {
    if b == [] {
      assert a + b == a;
    } else {
      var b' := b[..|b| - 1];
      assert (a + b)[..|a + b| - 1] == a + b';
      CartTotalAppend(a, b');
    }
  }

  /** A cart whose prices are all non-negative never totals below 0, and one
      with a positive price and no negative price totals above 0. */
  lemma {:induction false} CartTotalSign(cart: seq<CartEntry>)
    requires forall i :: 0 <= i < |cart| ==> NumberOrZero(cart[i].qty) >= 0
    requires forall i :: 0 <= i < |cart| ==> NumberOrZero(cart[i].price) >= 0
    ensures CartTotal(cart) >= 0
    ensures (exists i :: 0 <= i < |cart| && NumberOrZero(cart[i].price) > 0) ==> CartTotal(cart) > 0
  {
    if cart != [] {
      var init := cart[..|cart| - 1];
      CartTotalSign(init);
      var last := cart[|cart| - 1];
      assert EntryAmount(last) >= 0;
      if NumberOrZero(last.price) > 0 {
        assert EntryAmount(last) > 0;
      } else if exists i :: 0 <= i < |cart| && NumberOrZero(cart[i].price) > 0 {
        var i :| 0 <= i < |cart| && NumberOrZero(cart[i].price) > 0;
        assert i < |cart| - 1 && init[i] == cart[i];
      }
    }
  }

  /** The validation of POST / and the record it would store, in the order
      of the source's checks: game, cart, total, then the game's ids. */
  function ValidateCreate(body: WebOrderBody, now: int): (r: Reply<Record>)
    ensures ParseGame(body.game).None? ==> r == Refused(InvalidGame)
    ensures ParseGame(body.game).Some? && CartMissing(body.cart) ==> r == Refused(EmptyCart)
    ensures ParseGame(body.game).Some? && !CartMissing(body.cart) ==>
              var game, total := ParseGame(body.game).value, CartTotal(body.cart.entries);
              && (total <= 0 ==> r == Refused(InvalidTotal) && HttpStatus(r.reason) == 400)
              && (total > 0 && game == MLBB && !IdsPresent(MLBB, body) ==>
                    r == Refused(MissingMlbbIds) && HttpStatus(r.reason) == 400)
              && (total > 0 && game == PUBG && !IdsPresent(PUBG, body) ==>
                    r == Refused(MissingPubgId) && HttpStatus(r.reason) == 400)
    ensures r.Refused? ==> HttpStatus(r.reason) == 400 && r.reason != MissingStartCode
    ensures r.Ok? <==>
              && ParseGame(body.game).Some?
              && !CartMissing(body.cart)
              && CartTotal(body.cart.entries) > 0
              && IdsPresent(ParseGame(body.game).value, body)
    ensures r.Ok? ==>
              && r.value.game == ParseGame(body.game).value
              && r.value.cart == body.cart.entries
              && r.value.total == CartTotal(body.cart.entries) > 0
              && r.value.mlbbId == OrEmpty(body.mlbbId)
              && r.value.svId == OrEmpty(body.svId)
              && r.value.pubgId == OrEmpty(body.pubgId)
              && r.value.createdAt == now
              && !r.value.claimed
  {
    var game := ParseGame(body.game);
    if game.None? then Refused(InvalidGame)
    else if CartMissing(body.cart) then Refused(EmptyCart)
    else
      var total := CartTotal(body.cart.entries);
      if total <= 0 then Refused(InvalidTotal)
      else if game.value == MLBB && !(Present(body.mlbbId) && Present(body.svId)) then Refused(MissingMlbbIds)
      else if game.value == PUBG && !Present(body.pubgId) then Refused(MissingPubgId)
      else Ok(Record(game.value, body.cart.entries, OrEmpty(body.mlbbId), OrEmpty(body.svId),
                     OrEmpty(body.pubgId), total, now, false))
  }

  /** The whole of POST /: sweep, validate, store under "web_" + hex. */
  function CreateStep(m: map<string, Record>, body: WebOrderBody, hex: string, now: int)
    : (map<string, Record>, Reply<string>)
  {
    var live := Unexpired(m, now);
    var v := ValidateCreate(body, now);
    if v.Refused? then (live, Refused(v.reason))
    else (live["web_" + hex := v.value], Ok("web_" + hex))
  }

  /** The whole of POST /claim: sweep, look the code up, remove it. */
  function ClaimStep(m: map<string, Record>, body: ClaimBody, now: int)
    : (map<string, Record>, Reply<ClaimedOrder>)
  {
    var live := Unexpired(m, now);
    if !Present(body.startCode) then (live, Refused(MissingStartCode))
    else
      var code := body.startCode.value;
      if code !in live then (live, Refused(UnknownStartCode))
      else
        var rec := live[code];
        var userId := if body.telegramUserId.Some? && body.telegramUserId.value != 0
                      then body.telegramUserId else None;
        (live - {code},
         Ok(ClaimedOrder(rec.game, rec.cart, rec.total, rec.mlbbId, rec.svId, rec.pubgId,
                         userId, OrEmpty(body.username), OrEmpty(body.firstName))))
  }

  class WebOrderBroker {
    /** `webOrders`: start code to pending cart. */
    var entries: map<string, Record>

    ghost predicate Valid()
      reads this
    {
      forall code :: code in entries ==> IsStartCode(code) && !entries[code].claimed
    }

    constructor ()
      ensures Valid() && entries == map[]
    {
      entries := map[];
    }

    /** `cleanupExpired()`: walks the entries and deletes the expired ones in place. */
    method CleanupExpired(now: int)
      requires Valid()
      modifies this
      ensures Valid()
      ensures entries == Unexpired(old(entries), now)
    {
      ghost var start := entries;
      var pending := entries.Keys;
      while pending != {}
        invariant pending <= start.Keys && entries.Keys <= start.Keys
        invariant forall code :: code in pending ==> code in entries
        invariant forall code :: code in start && code !in pending ==>
                    (code in entries <==> !Expired(start[code], now))
        invariant forall code :: code in entries ==> entries[code] == start[code]
        decreases pending
      {
        var code :| code in pending;
        if Expired(entries[code], now) {
          entries := entries - {code};
        }
        pending := pending - {code};
      }
      assert entries.Keys == Unexpired(start, now).Keys;
    }

    /** POST /: `hex` stands for the six random bytes in hex. */
    method Create(body: WebOrderBody, hex: string, now: int) returns (reply: Reply<string>)
      requires Valid() && IsHexToken(hex)
      modifies this
      ensures Valid()
      ensures (entries, reply) == CreateStep(old(entries), body, hex, now)
    {
      CleanupExpired(now);
      var v := ValidateCreate(body, now);
      if v.Refused? {
        return Refused(v.reason);
      }
      var startCode := "web_" + hex;
      entries := entries[startCode := v.value];
      reply := Ok(startCode);
    }

    /** POST /claim */
    method Claim(body: ClaimBody, now: int) returns (reply: Reply<ClaimedOrder>)
      requires Valid()
      modifies this
      ensures Valid()
      ensures (entries, reply) == ClaimStep(old(entries), body, now)
    {
      CleanupExpired(now);
      if !Present(body.startCode) {
        return Refused(MissingStartCode);
      }
      var code := body.startCode.value;
      if code !in entries {
        return Refused(UnknownStartCode);
      }
      var rec := entries[code];
      entries := entries - {code};
      var userId := None;
      if body.telegramUserId.Some? && body.telegramUserId.value != 0 {
        userId := body.telegramUserId;
      }
      reply := Ok(ClaimedOrder(rec.game, rec.cart, rec.total, rec.mlbbId, rec.svId, rec.pubgId,
                               userId, OrEmpty(body.username), OrEmpty(body.firstName)));
    }
  }

  /** The sweep removes exactly the entries older than the TTL and leaves every
      other entry as it was; sweeping twice at the same time changes nothing. */
  lemma UnexpiredKeepsExactlyFresh(m: map<string, Record>, now: int)
    ensures forall code :: code in Unexpired(m, now) <==> code in m && m[code].createdAt + TtlMs >= now
    ensures forall code :: code in Unexpired(m, now) ==> Unexpired(m, now)[code] == m[code]
    ensures Unexpired(Unexpired(m, now), now) == Unexpired(m, now)
  {
  }

  /** A rejected create stores nothing: the map is the swept one. An accepted
      create adds exactly one entry, under its start code, to the swept map. */
  lemma CreateAddsOneEntry(m: map<string, Record>, body: WebOrderBody, hex: string, now: int)
    requires IsHexToken(hex)
    ensures var (m', reply) := CreateStep(m, body, hex, now);
            && (reply.Refused? ==> m' == Unexpired(m, now))
            && (reply.Ok? ==>
                  && IsStartCode(reply.value)
                  && reply.value in m'
                  && m'.Keys == Unexpired(m, now).Keys + {reply.value}
                  && (forall code :: code in m' && code != reply.value ==> m'[code] == m[code]))
  {
  }

  /** A claimed code is gone: claiming it again, at any later time, is a 404. */
  lemma ClaimAtMostOnce(m: map<string, Record>, body: ClaimBody, now: int,
                        again: ClaimBody, later: int)
    requires ClaimStep(m, body, now).1.Ok?
    requires again.startCode == body.startCode
    ensures ClaimStep(ClaimStep(m, body, now).0, again, later).1 == Refused(UnknownStartCode)
  {
  }

  /** A claim removes its own entry and no other that the sweep keeps. */
  lemma ClaimRemovesOnlyItsCode(m: map<string, Record>, body: ClaimBody, now: int)
    ensures var (m', reply) := ClaimStep(m, body, now);
            && (reply.Ok? ==> m' == Unexpired(m, now) - {body.startCode.value})
            && (reply.Refused? ==> m' == Unexpired(m, now))
  {
  }

  /** Create then claim within the TTL hands back the stored game, cart, total
      and ids unchanged, with the claimer's user id (absent or 0 becomes none);
      a claim after the TTL finds nothing. */
  lemma CreateThenClaim(m: map<string, Record>, body: WebOrderBody, hex: string, now: int,
                        claim: ClaimBody, later: int)
    requires IsHexToken(hex)
    requires CreateStep(m, body, hex, now).1.Ok?
    requires claim.startCode == Some("web_" + hex)
    ensures var m' := CreateStep(m, body, hex, now).0;
            var r := ClaimStep(m', claim, later).1;
            && (later <= now + TtlMs ==>
                  && r.Ok?
                  && Some(r.value.game) == ParseGame(body.game)
                  && r.value.cart == body.cart.entries
                  && r.value.total == CartTotal(body.cart.entries)
                  && r.value.mlbbId == OrEmpty(body.mlbbId)
                  && r.value.svId == OrEmpty(body.svId)
                  && r.value.pubgId == OrEmpty(body.pubgId)
                  && r.value.username == OrEmpty(claim.username)
                  && r.value.firstName == OrEmpty(claim.firstName)
                  && (claim.telegramUserId.None? || claim.telegramUserId == Some(0) ==>
                        r.value.telegramUserId.None?)
                  && (claim.telegramUserId.Some? && claim.telegramUserId != Some(0) ==>
                        r.value.telegramUserId == claim.telegramUserId))
            && (later > now + TtlMs ==> r == Refused(UnknownStartCode))
  {
  }
}
