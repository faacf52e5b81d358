/** The scrolling reviews strip (src/components/ReviewsSection.tsx). */
module ReviewsSection {
  import opened Options
  import Text

  /** `ReviewItem`; `avatar` is the imported asset's file name, ids and ratings are integers. */
  datatype ReviewItem = ReviewItem(id: int, name: string, rating: int, text: string, avatar: string)

  /** `defaultReviews` */
  const DefaultReviews: seq<ReviewItem> := [
    ReviewItem(1, "Joseph", 5,
      "Absolutely delicious! The choco-chip melts in your mouth. Will order again!", "joseph_pfp.jpg"),
    ReviewItem(2, "Rahul", 4, "Crunchy outside, gooey inside. Perfect with evening tea!", "rahul_pfp.jpg"),
    ReviewItem(3, "Sana", 5, "Best cookies in town. Loved the packaging too!", "x_pfp.jpg"),
    ReviewItem(4, "Bharathi", 4, "Tried the almond crunch—so good! Will recommend to friends.", "Bharathi_pfp.jpg")
  ]

  /** Every default review is rated 4 or 5. */
  lemma DefaultRatingsHigh()
    ensures |DefaultReviews| == 4
    ensures forall k :: 0 <= k < |DefaultReviews| ==> 4 <= DefaultReviews[k].rating <= 5
  {
  }

  /** `items && items.length ? items : defaultReviews` */
  function Reviews(items: Option<seq<ReviewItem>>): (r: seq<ReviewItem>)
    ensures items.Some? && |items.value| > 0 ==> r == items.value
    ensures items.None? || |items.value| == 0 ==> r == DefaultReviews
    ensures |r| > 0
  {
    if items.Some? && |items.value| > 0 then items.value else DefaultReviews
  }

  /** `[...reviews, ...reviews]`: the list twice over, for the seamless scroll. */
  function RenderList(reviews: seq<ReviewItem>): (r: seq<ReviewItem>)
    ensures |r| == 2 * |reviews|
    ensures forall k :: 0 <= k < |reviews| ==> r[k] == reviews[k] && r[k + |reviews|] == reviews[k]
  {
    reviews + reviews
  }

  /** `${r.id}-${idx}`, the key of the card at position `idx`. */
  function CardKey(review: ReviewItem, idx: nat): string {
    Text.IntToString(review.id) + "-" + Text.NatToString(idx)
  }

  /** The text after the last '-' of `s` (all of `s` when it has none). */
  function TailAfterDash(s: string): string {
    if s == [] then []
    else if s[|s| - 1] == '-' then []
    else TailAfterDash(s[..|s| - 1]) + [s[|s| - 1]]
  }

  /** The tail of `p + "-" + d` after its last '-' is `d`, when `d` holds no '-'. */
  lemma {:induction false} TailAfterDashOf(p: string, d: string)
    requires '-' !in d
    ensures TailAfterDash(p + "-" + d) == d
    decreases |d|
  {
    var s := p + "-" + d;
    if d != [] {
      var d' := d[..|d| - 1];
      assert s[..|s| - 1] == p + "-" + d';
      assert s[|s| - 1] == d[|d| - 1];
      TailAfterDashOf(p, d');
      assert d' + [d[|d| - 1]] == d;
    } else {
      assert s[|s| - 1] == '-';
    }
  }

  /** The cards of the rendered list have pairwise distinct keys, whatever the reviews' ids. */
  lemma CardKeysDistinct(reviews: seq<ReviewItem>, a: nat, b: nat)
    requires a < 2 * |reviews| && b < 2 * |reviews| && a != b
    ensures CardKey(RenderList(reviews)[a], a) != CardKey(RenderList(reviews)[b], b)
  {
    var list := RenderList(reviews);
    if CardKey(list[a], a) == CardKey(list[b], b) {
      TailAfterDashOf(Text.IntToString(list[a].id), Text.NatToString(a));
      TailAfterDashOf(Text.IntToString(list[b].id), Text.NatToString(b));
      Text.NatToStringInjective(a, b);
    }
  }

  /** The five stars of a card: star `i` is filled when `i < rating`. */
  function Stars(rating: int): (stars: seq<bool>)
    ensures |stars| == 5
    ensures forall i :: 0 <= i < 5 ==> stars[i] == (i < rating)
  {
    seq(5, i => i < rating)
  }

  /** The number of filled stars. */
  function CountFilled(stars: seq<bool>): nat {
    if stars == [] then 0 else CountFilled(stars[..|stars| - 1]) + (if stars[|stars| - 1] then 1 else 0)
  }

  function Clamp(x: int, lo: int, hi: int): int
    requires lo <= hi
  {
    if x < lo then lo else if x > hi then hi else x
  }

  /** The first `k` stars of a rating hold `rating` clamped to `0..k` filled ones. */
  lemma {:induction false} FilledPrefix(rating: int, k: nat)
    requires k <= 5
    ensures CountFilled(Stars(rating)[..k]) == Clamp(rating, 0, k)
  {
    if k > 0 {
      FilledPrefix(rating, k - 1);
      assert Stars(rating)[..k][..k - 1] == Stars(rating)[..k - 1];
    }
  }

  /** Exactly five stars are drawn, and the filled ones number the rating clamped to 0..5. */
  lemma FilledStars(rating: int)
    ensures |Stars(rating)| == 5
    ensures CountFilled(Stars(rating)) == Clamp(rating, 0, 5)
  {
    FilledPrefix(rating, 5);
    assert Stars(rating)[..5] == Stars(rating);
  }
}
