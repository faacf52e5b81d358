/** The cart held by the cart provider (src/context/CartContext.tsx). */
module CartContext {

  /** `Cart`: cookie id to quantity. */
  type Cart = map<string, int>

  /** The provider's `cart` state. */
  class CartStore {
    var cart: Cart

    /** The initial state is the empty cart. */
    constructor ()
      ensures cart == map[]
    {
      cart := map[];
    }

    /** `setCart({})` */
    method Reset()
      modifies this
      ensures cart == map[]
    {
      cart := map[];
    }
  }
}

/** The home page (src/pages/Home.tsx): the cart update and the welcome dialog. */
module Home {
  import opened Options
  import opened CartContext
  import CookieCard
  import AuthContext

  /** The cart that `handleQuantityChange(id, q)` hands back to `setCart`. */
  function SetQuantity(cart: Cart, id: string, q: int): (r: Cart)
    ensures q > 0 ==> id in r && r[id] == q
    ensures q <= 0 ==> id !in r
    ensures forall k :: k != id ==> (k in r <==> k in cart)
    ensures forall k :: k != id && k in cart ==> r[k] == cart[k]
  {
    if q > 0 then cart[id := q] else cart - {id}
  }

  /** `handleQuantityChange`: copy the cart, set or delete the key, store the copy. */
  method HandleQuantityChange(store: CartStore, id: string, q: int)
    modifies store
    ensures store.cart == SetQuantity(old(store.cart), id, q)
  {
    var updated := store.cart;
    if q > 0 {
      updated := updated[id := q];
    } else {
      updated := updated - {id};
    }
    store.cart := updated;
  }

  /** Every stored quantity is positive. */
  predicate AllPositive(cart: Cart) {
    forall k :: k in cart ==> cart[k] > 0
  }

  /** Every stored quantity is in 1..10. */
  predicate WithinCardLimit(cart: Cart) {
    forall k :: k in cart ==> 0 < cart[k] <= CookieCard.MaxQuantity
  }

  /** An update never stores a non-positive quantity. */
  lemma SetQuantityKeepsPositive(cart: Cart, id: string, q: int)
    requires AllPositive(cart)
    ensures AllPositive(SetQuantity(cart, id, q))
  {
  }

  /** Applying the same update twice is applying it once. */
  lemma SetQuantityIdempotent(cart: Cart, id: string, q: int)
    ensures SetQuantity(SetQuantity(cart, id, q), id, q) == SetQuantity(cart, id, q)
  {
  }

  /** `cart[cookie.id] || 0`: the quantity a card shows. */
  function ShownQuantity(cart: Cart, id: string): (q: int)
    ensures id !in cart ==> q == 0
    ensures id in cart ==> q == cart[id]
  {
    if id in cart && cart[id] != 0 then cart[id] else 0
  }

  /** After an update with a non-negative quantity, the card shows exactly that quantity. */
  lemma ShownAfterUpdate(cart: Cart, id: string, q: int)
    requires q >= 0
    ensures ShownQuantity(SetQuantity(cart, id, q), id) == q
  {
  }

  /** A click on an enabled card button, fed back through `handleQuantityChange`, keeps every quantity in 1..10. */
  lemma CardClickKeepsCartWithinLimit(cart: Cart, id: string, click: CookieCard.Click)
    requires WithinCardLimit(cart)
    requires CookieCard.Enabled(click, ShownQuantity(cart, id))
    ensures WithinCardLimit(SetQuantity(cart, id, CookieCard.OnClick(click, ShownQuantity(cart, id))))
  {
  }

  /** The effect's test: `fromLogin` is `'true'` and a non-anonymous user is signed in. */
  predicate WelcomeCondition(fromLogin: Option<string>, user: Option<AuthContext.User>) {
    fromLogin == Some("true") && user.Some? && !user.value.isAnonymous
  }

  /** `showWelcomeDialog` after the effect runs: set when the condition holds, otherwise unchanged. */
  function WelcomeEffect(shown: bool, fromLogin: Option<string>, user: Option<AuthContext.User>): (r: bool)
    ensures WelcomeCondition(fromLogin, user) ==> r
    ensures !WelcomeCondition(fromLogin, user) ==> r == shown
  {
    if WelcomeCondition(fromLogin, user) then true else shown
  }

  /** The dialog is rendered. */
  predicate WelcomeRendered(shown: bool, user: Option<AuthContext.User>) {
    shown && user.Some? && !user.value.isAnonymous
  }

  /** On a fresh page, the dialog appears exactly when the user arrived from the sign-in page, signed in. */
  lemma WelcomeOnlyFromLogin(fromLogin: Option<string>, user: Option<AuthContext.User>)
    ensures WelcomeRendered(WelcomeEffect(false, fromLogin, user), user) <==> WelcomeCondition(fromLogin, user)
  {
  }

  /** However often the effect runs, an anonymous or absent user never sees the dialog. */
  lemma WelcomeNeverForAnonymous(shown: bool, fromLogin: Option<string>, user: Option<AuthContext.User>)
    requires user.None? || user.value.isAnonymous
    ensures !WelcomeRendered(WelcomeEffect(shown, fromLogin, user), user)
  {
  }
}
