/**
 * The stacked card carousel (src/components/StackedCardCarousel.tsx): the
 * `index` state stepped by `prev`/`next`, and the stacking of every card by its
 * offset from the front card. With no items `x % 0` is `NaN`, so an index is a
 * number or `NaN`.
 */
module StackedCardCarousel {
  import opened JsValues

  /** A JavaScript number as the index arithmetic produces it. */
  datatype Index = Finite(i: int) | NaN

  /** `prev`: `(i - 1 + n) % n` */
  function Prev(index: Index, n: nat): (r: Index)
    ensures n == 0 || index.NaN? ==> r == NaN
    ensures n > 0 && index.Finite? && 0 <= index.i < n ==>
      r == Finite(if index.i == 0 then n - 1 else index.i - 1)
  {
    match index
    case NaN => NaN
    case Finite(i) => if n == 0 then NaN else Finite(JsRem(i - 1 + n, n))
  }

  /** `next`: `(i + 1) % n` */
  function Next(index: Index, n: nat): (r: Index)
    ensures n == 0 || index.NaN? ==> r == NaN
    ensures n > 0 && index.Finite? && 0 <= index.i < n ==>
      r == Finite(if index.i == n - 1 then 0 else index.i + 1)
  {
    match index
    case NaN => NaN
    case Finite(i) => if n == 0 then NaN else Finite(JsRem(i + 1, n))
  }

  /** The index names one of the `n` cards. */
  predicate InRange(index: Index, n: nat) {
    index.Finite? && 0 <= index.i < n
  }

  /** `prev` and `next` undo each other. */
  lemma PrevNextInverse(i: int, n: nat)
    requires 0 <= i < n
    ensures Next(Prev(Finite(i), n), n) == Finite(i)
    ensures Prev(Next(Finite(i), n), n) == Finite(i)
  {
  }

  /** `k` presses of `next`. */
  function NextTimes(index: Index, n: nat, k: nat): Index {
    if k == 0 then index else Next(NextTimes(index, n, k - 1), n)
  }

  /** Presses of `next` compose: `a + b` presses are `a` presses followed by `b`. */
  lemma {:induction false} NextTimesCompose(index: Index, n: nat, a: nat, b: nat)
    ensures NextTimes(index, n, a + b) == NextTimes(NextTimes(index, n, a), n, b)
    decreases b
  {
    if b > 0 {
      NextTimesCompose(index, n, a, b - 1);
    }
  }

  /** Before the last card, `k` presses of `next` advance the index by `k`. */
  lemma {:induction false} NextTimesAdvances(i: int, n: nat, k: nat)
    requires 0 <= i && i + k < n
    ensures NextTimes(Finite(i), n, k) == Finite(i + k)
  {
    if k > 0 {
      NextTimesAdvances(i, n, k - 1);
    }
  }

  /** Pressing `next` once per card brings the carousel back to where it started. */
  lemma FullTurn(i: int, n: nat)
    requires 0 <= i < n
    ensures NextTimes(Finite(i), n, n) == Finite(i)
  {
    NextTimesAdvances(i, n, n - 1 - i);
    assert NextTimes(Finite(i), n, n - i) == Finite(0);
    NextTimesAdvances(0, n, i);
    NextTimesCompose(Finite(i), n, n - i, i);
  }

  /** `offset = (i - index + n) % n`: how far card `i` is behind the front card. */
  function Offset(i: int, index: Index, n: nat): (r: Index)
    ensures n == 0 || index.NaN? ==> r == NaN
    ensures 0 <= i < n && InRange(index, n) ==>
      r.Finite? && 0 <= r.i < n && (r.i == 0 <==> i == index.i)
  {
    match index
    case NaN => NaN
    case Finite(k) => if n == 0 then NaN else Finite(JsRem(i - k + n, n))
  }

  /** `z`: the stacking order. */
  function Z(offset: Index): int {
    if offset == Finite(0) then 30 else if offset == Finite(1) then 20 else 10
  }

  /** `x`: the horizontal shift. */
  function X(offset: Index): int {
    if offset == Finite(0) then 0 else if offset == Finite(1) then -30 else -60
  }

  /** The remainder of a number below `2 * n`. */
  lemma ModBelowTwice(a: int, n: int)
    requires 0 < n && 0 <= a < 2 * n
    ensures a % n == (if a < n then a else a - n)
  {
    if a >= n {
      assert (a - n) % n == a - n;
      assert a % n == (a - n) % n;
    }
  }

  /** Card `i` is directly behind the front card exactly when it is the card `next` would bring forward, of two or more. */
  lemma OffsetOne(i: int, index: int, n: nat)
    requires 0 <= i < n && 0 <= index < n
    ensures Offset(i, Finite(index), n) == Finite(1) <==> n > 1 && Finite(i) == Next(Finite(index), n)
  {
    ModBelowTwice(i - index + n, n);
  }

  /**
   * The front card alone is on top and unshifted, the card behind it is at
   * z 20, x -30, and every other card is at z 10, x -60.
   */
  lemma Layering(i: int, index: int, n: nat)
    requires 0 <= i < n && 0 <= index < n
    ensures Z(Offset(i, Finite(index), n)) == 30 <==> i == index
    ensures X(Offset(i, Finite(index), n)) == 0 <==> i == index
    ensures n > 1 && Finite(i) == Next(Finite(index), n) ==>
      Z(Offset(i, Finite(index), n)) == 20 && X(Offset(i, Finite(index), n)) == -30
    ensures i != index && !(n > 1 && Finite(i) == Next(Finite(index), n)) ==>
      Z(Offset(i, Finite(index), n)) == 10 && X(Offset(i, Finite(index), n)) == -60
  {
    OffsetOne(i, index, n);
  }

  /** Dot `i` is highlighted: `i === index`. */
  predicate DotHighlighted(i: int, index: Index) {
    index == Finite(i)
  }

  /** Exactly one dot, the one at `index`, is highlighted. */
  lemma OneDotHighlighted(index: Index, n: nat)
    requires InRange(index, n)
    ensures DotHighlighted(index.i, index)
    ensures forall i :: 0 <= i < n && DotHighlighted(i, index) ==> i == index.i
  {
  }

  /** The component's `index` state over `n` items. */
  class Carousel {
    const n: nat
    var index: Index

    /** `useState(0)` */
    constructor (n: nat)
      ensures this.n == n && index == Finite(0)
    {
      this.n := n;
      index := Finite(0);
    }

    /** With at least one item, the index names a card. */
    predicate Valid()
      reads this
    {
      n > 0 ==> InRange(index, n)
    }

    /** The `‹` button. */
    method PrevClicked()
      modifies this
      requires Valid()
      ensures index == Prev(old(index), n)
      ensures Valid()
    {
      match index
      case NaN =>
      case Finite(i) =>
        if n == 0 {
          index := NaN;
        } else {
          index := Finite(JsRem(i - 1 + n, n));
        }
    }

    /** The `›` button. */
    method NextClicked()
      modifies this
      requires Valid()
      ensures index == Next(old(index), n)
      ensures Valid()
    {
      match index
      case NaN =>
      case Finite(i) =>
        if n == 0 {
          index := NaN;
        } else {
          index := Finite(JsRem(i + 1, n));
        }
    }
  }
}
