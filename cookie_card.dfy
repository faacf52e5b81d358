/** The quantity controls of one catalog card (src/components/CookieCard.tsx). */
module CookieCard {

  const MaxQuantity: int := 10

  /** `isMaxQuantity`: the increment button is disabled. */
  predicate IsMaxQuantity(quantity: int) {
    quantity >= MaxQuantity
  }

  /** The decrement button is disabled. */
  predicate DecrementDisabled(quantity: int) {
    quantity <= 0
  }

  /** The "Max quantity reached!" line is rendered. */
  predicate ShowsMaxMessage(quantity: int) {
    IsMaxQuantity(quantity)
  }

  datatype Click = Decrease | Increase

  predicate Enabled(click: Click, quantity: int) {
    match click
    case Decrease => !DecrementDisabled(quantity)
    case Increase => !IsMaxQuantity(quantity)
  }

  /**
   * The warning line shows exactly when the increment button is disabled, and
   * within 0..10 at least one button is always enabled.
   */
  lemma MaxMessageTracksIncrement(quantity: int)
    ensures ShowsMaxMessage(quantity) <==> !Enabled(Increase, quantity)
    ensures 0 <= quantity <= MaxQuantity ==> Enabled(Increase, quantity) || Enabled(Decrease, quantity)
  {
  }

  /** The value a click passes to `onChange`; a disabled button emits nothing. */
  function OnClick(click: Click, quantity: int): (emitted: int)
    requires Enabled(click, quantity)
    ensures click == Increase ==> emitted == quantity + 1 && emitted <= MaxQuantity
    ensures click == Decrease ==> emitted == quantity - 1 && emitted >= 0
  {
    match click
    case Decrease => quantity - 1
    case Increase => quantity + 1
  }

  /** The quantity after a series of clicks, each taking effect only when its button is enabled. */
  function AfterClicks(quantity: int, clicks: seq<Click>): int
    decreases clicks
  {
    if clicks == [] then quantity
    else
      var next := if Enabled(clicks[0], quantity) then OnClick(clicks[0], quantity) else quantity;
      AfterClicks(next, clicks[1..])
  }

  /** Starting anywhere in 0..10, no series of clicks leaves that range. */
  lemma {:induction false} ClicksStayInRange(quantity: int, clicks: seq<Click>)
    requires 0 <= quantity <= MaxQuantity
    ensures 0 <= AfterClicks(quantity, clicks) <= MaxQuantity
    decreases clicks
  {
    if clicks != [] {
      var next := if Enabled(clicks[0], quantity) then OnClick(clicks[0], quantity) else quantity;
      ClicksStayInRange(next, clicks[1..]);
    }
  }
}
