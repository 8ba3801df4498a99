/**
 * The incremental window over the fetched character list: the page size,
 * the visible prefix, the "has more" flag and the rule by which one
 * "load more" request grows the window. Everything here is a plain value
 * computation; the component state that holds these values lives in
 * module Characters.
 */
module Window {

  /** Number of characters revealed initially and by every "load more" request. */
  const ITEMS_PER_PAGE: nat := 13

  function Min(a: int, b: int): (r: int) {
    if a <= b then a else b
  }

  /**
   * The characters on screen: `characters.slice(0, visibleCount)`.
   * A slice end past the length is clamped, so this is the first
   * min(w, |cs|) elements, in their original order.
   */
  function Visible<T>(cs: seq<T>, w: nat): (r: seq<T>)
    ensures |r| == Min(w, |cs|)
    ensures r <= cs
  {
    if w <= |cs| then cs[..w] else cs
  }

  /** More characters remain hidden: the visible prefix is shorter than the list. */
  function HasMore<T>(cs: seq<T>, w: nat): (b: bool)
    ensures b <==> w < |cs|
    ensures !b <==> Visible(cs, w) == cs
  {
    |Visible(cs, w)| < |cs|
  }

  /** The window size after one "load more" request over a list of length n. */
  function NextCount(w: nat, n: nat): (r: nat)
    ensures r <= n
    ensures r <= w + ITEMS_PER_PAGE
    ensures r == n || r == w + ITEMS_PER_PAGE
    ensures w < n ==> w < r
  {
    Min(w + ITEMS_PER_PAGE, n)
  }

  /** The window size after k consecutive "load more" requests. */
  function ExpandTimes(w: nat, n: nat, k: nat): (r: nat)
    decreases k
  {
    if k == 0 then w else ExpandTimes(NextCount(w, n), n, k - 1)
  }

  /**
   * One request can lower the count only when it already lies past the end
   * of the list, and then it lands exactly on the list length; from a count
   * inside the list it never goes down.
   */
  lemma NextCountShrinksOnlyPastEnd(w: nat, n: nat)
    ensures NextCount(w, n) < w <==> n < w
    ensures n < w ==> NextCount(w, n) == n
    ensures w <= n ==> w <= NextCount(w, n)
  {
  }

  /**
   * Whatever the count, a request never hides a character that was on
   * screen: the old visible prefix is a prefix of the new one.
   */
  lemma LoadMoreKeepsVisiblePrefix<T>(cs: seq<T>, w: nat)
    ensures Visible(cs, w) <= Visible(cs, NextCount(w, |cs|))
    ensures |Visible(cs, w)| <= |Visible(cs, NextCount(w, |cs|))|
    ensures |Visible(cs, NextCount(w, |cs|))| <= |Visible(cs, w)| + ITEMS_PER_PAGE
  {
  }

  /** k >= 1 requests from w reach min(w + 13k, n). */
  lemma {:induction false} ExpandTimesClosedForm(w: nat, n: nat, k: nat)
    requires 1 <= k
    ensures ExpandTimes(w, n, k) == Min(w + k * ITEMS_PER_PAGE, n)
    decreases k
  {
    var w' := NextCount(w, n);
    if k == 1 {
      assert ExpandTimes(w, n, 1) == ExpandTimes(w', n, 0) == w';
    } else {
      ExpandTimesClosedForm(w', n, k - 1);
      assert k * ITEMS_PER_PAGE == ITEMS_PER_PAGE + (k - 1) * ITEMS_PER_PAGE;
      assert (k - 1) * ITEMS_PER_PAGE >= ITEMS_PER_PAGE;
    }
  }

  /**
   * Idempotence at the boundary: once the count equals the list length,
   * any number of further requests leaves it there and nothing more is hidden.
   */
  lemma {:induction false} SettledAtBoundary<T>(cs: seq<T>, k: nat)
    ensures ExpandTimes(|cs|, |cs|, k) == |cs|
    ensures !HasMore(cs, ExpandTimes(|cs|, |cs|, k))
    decreases k
  {
    if k > 0 {
      assert NextCount(|cs|, |cs|) == |cs|;
      SettledAtBoundary(cs, k - 1);
    }
  }

  /**
   * From a count inside the list, the counts seen across repeated requests
   * never decrease and never pass the list length.
   */
  lemma {:induction false} ExpandTimesMonotone(w: nat, n: nat, j: nat, k: nat)
    requires w <= n
    requires j <= k
    ensures w <= ExpandTimes(w, n, j) <= ExpandTimes(w, n, k) <= n
    decreases k
  {
    if j == k {
      if k > 0 {
        ExpandTimesMonotone(NextCount(w, n), n, j - 1, k - 1);
      }
    } else if j == 0 {
      ExpandTimesMonotone(NextCount(w, n), n, 0, k - 1);
    } else {
      ExpandTimesMonotone(NextCount(w, n), n, j - 1, k - 1);
    }
  }

  /** Thirty characters: 13 shown, then 26, then all 30, then still 30. */
  lemma {:induction false} ThirtyCharactersScenario<T>(cs: seq<T>)
    requires |cs| == 30
    ensures |Visible(cs, ITEMS_PER_PAGE)| == 13 && HasMore(cs, ITEMS_PER_PAGE)
    ensures ExpandTimes(ITEMS_PER_PAGE, 30, 1) == 26 && HasMore(cs, 26)
    ensures ExpandTimes(ITEMS_PER_PAGE, 30, 2) == 30 && !HasMore(cs, 30)
    ensures ExpandTimes(ITEMS_PER_PAGE, 30, 3) == 30
  {
    ExpandTimesClosedForm(ITEMS_PER_PAGE, 30, 1);
    ExpandTimesClosedForm(ITEMS_PER_PAGE, 30, 2);
    ExpandTimesClosedForm(ITEMS_PER_PAGE, 30, 3);
  }

  /**
   * Ten characters: all ten are shown from the start, and one request lowers
   * the count from 13 to 10 without changing what is shown.
   */
  lemma ShortListScenario<T>(cs: seq<T>)
    requires |cs| == 10
    ensures Visible(cs, ITEMS_PER_PAGE) == cs && !HasMore(cs, ITEMS_PER_PAGE)
    ensures NextCount(ITEMS_PER_PAGE, |cs|) == 10
    ensures Visible(cs, NextCount(ITEMS_PER_PAGE, |cs|)) == cs
  {
  }
}
