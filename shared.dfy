/** Values shared by the web-order endpoints and the bot: the JSON body a
    storefront posts for a web order, and the JavaScript truthiness tests the
    handlers apply to its optional fields. */
module Shared {

  datatype Option<+T> = None | Some(value: T)

  /** The two games the store sells. */
  datatype Game = MLBB | PUBG

  /** `game` as the storefront sends it, when it names a supported game. */
  function ParseGame(s: Option<string>): Option<Game> {
    if s == Some("MLBB") then Some(MLBB)
    else if s == Some("PUBG") then Some(PUBG)
    else None
  }

  /** JavaScript's `!!s` on an optional string field: absent and "" are falsy. */
  predicate Present(s: Option<string>) {
    s.Some? && s.value != ""
  }

  /** `s || ""` */
  function OrEmpty(s: Option<string>): string {
    if Present(s) then s.value else ""
  }

  /** `Number(x || 0)` on an optional numeric field. */
  function NumberOrZero(x: Option<int>): int {
    if x.Some? then x.value else 0
  }

  predicate StartsWith(s: string, prefix: string) {
    |prefix| <= |s| && s[..|prefix|] == prefix
  }

  /** One element of the `cart` array; every field may be missing. `name` is
      the entry's `label` (a reserved word in Dafny). */
  datatype CartEntry = CartEntry(name: Option<string>, game: Option<string>,
                                 price: Option<int>, qty: Option<int>)

  /** The `cart` field: something that is not an array, or an array of entries. */
  datatype Cart = NotAnArray | Entries(entries: seq<CartEntry>)

  /** The body of a web-order request, as both web-order endpoints read it. */
  datatype WebOrderBody = WebOrderBody(game: Option<string>, cart: Cart,
                                       mlbbId: Option<string>, svId: Option<string>,
                                       pubgId: Option<string>)

  /** Whether the ids the chosen game needs are present: MLBB needs `mlbbId`
      and `svId`, PUBG needs `pubgId` (falsy strings fail). */
  predicate IdsPresent(game: Game, body: WebOrderBody) {
    match game
    case MLBB => Present(body.mlbbId) && Present(body.svId)
    case PUBG => Present(body.pubgId)
  }

  /** `!Array.isArray(cart) || cart.length === 0` */
  predicate CartMissing(cart: Cart) {
    cart.NotAnArray? || cart.entries == []
  }
}
