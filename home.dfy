/**
 * The home screen's two stateful widgets: the banner carousel (its images,
 * the `current` index the timer advances, the clamped index it shows and the
 * indicator dots) and the search bar (its `query` text and its actions).
 */
module Home {
  import opened Catalog

  const MaxBannerImages: nat := 4

  /** `map { it.thumbnail }` */
  function Thumbnails(meals: seq<Meal>): (r: seq<string>)
    ensures |r| == |meals|
    ensures forall i :: 0 <= i < |r| ==> r[i] == meals[i].thumbnail
  {
    if meals == [] then [] else [meals[0].thumbnail] + Thumbnails(meals[1..])
  }

  /** `meals.take(4).map { it.thumbnail }`: the thumbnails of the first four meals, in order. */
  function BannerImages(meals: seq<Meal>): (r: seq<string>)
    ensures |r| == (if |meals| < MaxBannerImages then |meals| else MaxBannerImages)
    ensures forall i :: 0 <= i < |r| ==> r[i] == meals[i].thumbnail
  {
    Thumbnails(if |meals| <= MaxBannerImages then meals else meals[..MaxBannerImages])
  }

  /**
   * `current.coerceIn(0, images.lastIndex)`: the image on screen. The banner
   * is drawn only when there are images, and the index is then always valid.
   */
  function DisplayIndex(current: int, count: nat): (r: nat)
    requires count > 0
    ensures r < count
    ensures 0 <= current < count ==> r == current
    ensures current >= count ==> r == count - 1
  {
    if current < 0 then 0 else if current > count - 1 then count - 1 else current
  }

  /** The indicator row: dot `ix` is highlighted when `ix == current`. */
  function Dots(current: int, count: nat): (r: seq<bool>)
    ensures |r| == count
  {
    if count == 0 then [] else Dots(current, count - 1) + [count - 1 == current]
  }

  function CountHighlighted(dots: seq<bool>): nat {
    if dots == [] then 0
    else CountHighlighted(dots[..|dots| - 1]) + (if dots[|dots| - 1] then 1 else 0)
  }

  /**
   * Dot `ix` is highlighted exactly when `ix == current`, so at most one dot
   * is, and exactly one when `current` is a valid index.
   */
  lemma {:induction false} DotsHighlightCurrent(current: int, count: nat)
    ensures forall ix :: 0 <= ix < count ==> (Dots(current, count)[ix] <==> ix == current)
    ensures CountHighlighted(Dots(current, count)) == if 0 <= current < count then 1 else 0
  {
    if count > 0 {
      DotsHighlightCurrent(current, count - 1);
      var prev := Dots(current, count - 1);
      var dots := Dots(current, count);
      assert dots == prev + [count - 1 == current];
      assert dots[..count - 1] == prev;
      assert forall ix :: 0 <= ix < count - 1 ==> dots[ix] == prev[ix];
    }
  }

  /** A remainder is determined by any decomposition `a == n * q + r` with `0 <= r < n`. */
  lemma ModUnique(a: int, n: int, q: int, r: int)
    requires n > 0 && 0 <= r < n && a == n * q + r
    ensures a % n == r
  {
    var d := q - a / n;
    assert n * d == a % n - r by {
      assert n * d == n * q - n * (a / n);
    }
    if d > 0 {
      MulNonNegative(n, d - 1);
      assert false;
    } else if d < 0 {
      MulNonNegative(n, -d - 1);
      assert false;
    }
  }

  lemma MulNonNegative(x: int, y: int)
    requires x >= 0 && y >= 0
    ensures x * y >= 0
  {
  }

  lemma ModSucc(a: int, n: int)
    requires a >= 0 && n > 0
    ensures (a % n + 1) % n == (a + 1) % n
  {
    var q := a / n;
    if a % n + 1 == n {
      ModUnique(a % n + 1, n, 1, 0);
      ModUnique(a + 1, n, q + 1, 0);
    } else {
      ModUnique(a % n + 1, n, 0, a % n + 1);
      ModUnique(a + 1, n, q, a % n + 1);
    }
  }

  class BannerCarousel {
    /** `current`, the remembered index of the banner image. */
    var current: int

    ghost predicate Valid()
      reads this
    {
      current >= 0
    }

    constructor()
      ensures Valid() && current == 0
    {
      current := 0;
    }

    /** The start of the effect keyed on the image count: an index out of range goes back to 0. */
    method ImageCountChanged(count: nat)
      requires Valid()
      modifies this
      ensures Valid()
      ensures current == if old(current) >= count then 0 else old(current)
      ensures count > 0 ==> current < count
    {
      if current >= count {
        current := 0;
      }
    }

    /** One tick of the timer: the next image, wrapping around after the last. */
    method Tick(count: nat)
      requires Valid() && count > 1
      modifies this
      ensures Valid() && current < count
      ensures current == (old(current) + 1) % count
    {
      current := (current + 1) % count;
    }

    /**
     * The whole effect for an image count, observed for `ticks` ticks: the
     * reset, then (only when there are two images or more) the ticking loop.
     * The index ends `ticks` steps further, modulo the count, and is always a
     * valid index when there are images.
     */
    method RunEffect(count: nat, ticks: nat)
      requires Valid()
      modifies this
      ensures Valid()
      ensures count > 0 ==> current < count
      ensures count <= 1 ==> current == 0
      ensures count > 1 ==>
                current == ((if old(current) >= count then 0 else old(current)) + ticks) % count
    {
      ImageCountChanged(count);
      if count > 1 {
        ghost var start := current;
        ModUnique(start, count, 0, start);
        var k := 0;
        while k < ticks
          invariant 0 <= k <= ticks
          invariant Valid() && current < count
          invariant current == (start + k) % count
        {
          ModSucc(start + k, count);
          Tick(count);
          k := k + 1;
        }
      }
    }
  }

  /** After the reset and any ticks, the image shown is `current` itself and exactly its dot is lit. */
  lemma ShownMatchesDots(current: int, count: nat)
    requires 0 <= current < count
    ensures DisplayIndex(current, count) == current
    ensures Dots(current, count)[current]
    ensures CountHighlighted(Dots(current, count)) == 1
  {
    DotsHighlightCurrent(current, count);
  }

  class SearchBar {
    /** `query`, the remembered text of the field. */
    var query: string

    constructor()
      ensures query == ""
    {
      query := "";
    }

    method Edit(input: string)
      modifies this
      ensures query == input
    {
      query := input;
    }

    /** Go and Clear are on screen only while the query is not empty. */
    predicate ActionsOffered()
      reads this
    {
      query != []
    }

    /** Clear empties the field. */
    method Clear()
      requires ActionsOffered()
      modifies this
      ensures query == "" && !ActionsOffered()
    {
      query := "";
    }

    /** Go calls `onSearch` with the current, non-empty query. */
    method Go() returns (submitted: string)
      requires ActionsOffered()
      ensures submitted == query && submitted != ""
    {
      submitted := query;
    }

    /** The keyboard's search action calls `onSearch` with the current query, even an empty one. */
    method KeyboardSearch() returns (submitted: string)
      ensures submitted == query
    {
      submitted := query;
    }
  }
}
