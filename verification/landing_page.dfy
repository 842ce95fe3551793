/** The landing page: the featured-listing carousel, its sort menu and how the featured
    listings are loaded. */
module LandingPage {
  import opened Common
  import opened Sequences
  import opened Normalizer
  import ListingsClient
  import QueryParams

  // ---------------------------------------------------------------------------
  // Carousel

  /** `handleNextSlide`: the next slide, wrapping from the last to the first. */
  function NextSlide(cur: int, total: int): (r: int)
    ensures cur < total - 1 ==> r == cur + 1
    ensures cur >= total - 1 ==> r == 0
  {
    if cur < total - 1 then cur + 1 else 0
  }

  /** `handlePrevSlide`: the previous slide, wrapping from the first to the last. */
  function PrevSlide(cur: int, total: int): (r: int)
    ensures cur > 0 ==> r == cur - 1
    ensures cur <= 0 ==> r == total - 1
  {
    if cur > 0 then cur - 1 else total - 1
  }

  /** On a carousel with slides, both buttons keep the index on a slide, and each undoes the other. */
  lemma SlidesStayInRange(cur: int, total: int)
    requires 0 <= cur < total
    ensures 0 <= NextSlide(cur, total) < total && 0 <= PrevSlide(cur, total) < total
    ensures PrevSlide(NextSlide(cur, total), total) == cur
    ensures NextSlide(PrevSlide(cur, total), total) == cur
  {
  }

  /** `k` presses of "next" from slide `cur`. */
  function NextTimes(cur: int, total: int, k: nat): int {
    if k == 0 then cur else NextSlide(NextTimes(cur, total, k - 1), total)
  }

  /** "Next" rotates the slides: `k` presses move `k` places modulo the slide count, so
      `total` presses come back to where they started. */
  lemma {:induction false} NextRotates(cur: int, total: int, k: nat)
    requires 0 <= cur < total
    ensures NextTimes(cur, total, k) == (cur + k) % total
  {
    if k > 0 {
      NextRotates(cur, total, k - 1);
      var prev := NextTimes(cur, total, k - 1);
      assert prev == (cur + k - 1) % total;
      if prev < total - 1 {
        assert (cur + k) % total == prev + 1 by {
          ModStep(cur + k - 1, total);
        }
      } else {
        assert (cur + k) % total == 0 by {
          ModStep(cur + k - 1, total);
        }
      }
    }
  }

  /** `(a + 1) mod n` follows `a mod n`, wrapping at `n - 1`. */
  lemma ModStep(a: int, n: int)
    requires n > 0
    ensures (a + 1) % n == if a % n < n - 1 then a % n + 1 else 0
  {
    var q := a / n;
    if a % n < n - 1 {
      ModUnique(a + 1, n, q, a % n + 1);
    } else {
      ModUnique(a + 1, n, q + 1, 0);
    }
  }

  /** The remainder of `q·n + r` is `r` when `0 <= r < n`. */
  lemma ModUnique(x: int, n: int, q: int, r: int)
    requires n > 0 && 0 <= r < n && x == q * n + r
    ensures x % n == r
  {
    var d := q - x / n;
    assert d * n == x % n - r;
  }

  /** Listings per slide at a window width: 1 below 640 px, 2 below 1024 px, else 3. */
  function SlidesPerPage(width: int): (k: nat)
    ensures 1 <= k <= 3
    ensures k == 1 <==> width < 640
    ensures k == 3 <==> width >= 1024
  {
    if width < 640 then 1 else if width < 1024 then 2 else 3
  }

  /** `Math.ceil(n / k)`. */
  function CeilDiv(n: nat, k: nat): (t: nat)
    requires k > 0
    ensures t * k >= n
    ensures t == 0 || (t - 1) * k < n
  {
    (n + k - 1) / k
  }

  /** The slide count the resize handler sets: enough slides for every listing, and no
      slide left empty. */
  function TotalSlides(n: nat, width: int): (t: nat)
    ensures t * SlidesPerPage(width) >= n
    ensures t == 0 || (t - 1) * SlidesPerPage(width) < n
    ensures t == 0 <==> n == 0
  {
    CeilDiv(n, SlidesPerPage(width))
  }

  // ---------------------------------------------------------------------------
  // Sort menu

  /** The sort the menu shows, whether it is open, and the featured listings in display order. */
  datatype SortState = SortState(currentSort: string, dropdownOpen: bool, featured: seq<Property>)

  /** `handleSortChange`: record the choice and close the menu; "random" reorders the listings
      by the swaps the shuffle performs, any other choice leaves them alone. */
  function HandleSortChange(s: SortState, sortType: string, shuffle: seq<(nat, nat)>): (t: SortState)
    requires sortType == "random" ==> SwapsInRange(shuffle, |s.featured|)
    ensures t.currentSort == sortType && !t.dropdownOpen
    ensures sortType != "random" ==> t.featured == s.featured
    ensures multiset(t.featured) == multiset(s.featured)
  {
    var featured := if sortType == "random" then ApplySwaps(s.featured, shuffle) else s.featured;
    SortState(sortType, false, featured)
  }

  // ---------------------------------------------------------------------------
  // Featured listings

  /** The loaded listings, the loading flag and the error message. */
  datatype Load = Load(featured: seq<Property>, isLoading: bool, error: Option<string>)

  const LoadFailedMessage: string := "Unable to load featured properties"

  /** The parameters the featured listings are requested with: `{ limit: 12 }`. They only
      shape the request URL; the listing call's outcome is given. */
  const FeaturedRequest: QueryParams.SearchParams := QueryParams.NoParams.(limit := Some(12.0))

  /** `fetchFeaturedProperties`, given how the listing call ended (`None`: it threw) and how
      the fallback search for "Houston" ended: the listing if it returned, else the first 12
      search results, else the failure message; loading ends in every case. */
  function FetchFeatured(primary: Option<seq<Property>>, fallback: Option<seq<Property>>): (l: Load)
    ensures !l.isLoading
    ensures primary.Some? ==> l == Load(primary.value, false, None)
    ensures primary.None? && fallback.Some? ==>
              l.error == None && l.featured == fallback.value[..if |fallback.value| < 12 then |fallback.value| else 12]
    ensures primary.None? && fallback.None? ==> l == Load([], false, Some(LoadFailedMessage))
    ensures |l.featured| <= 12 || l.featured == primary.value
  {
    match primary
    case Some(ps) => Load(ps, false, None)
    case None =>
      match fallback
      case Some(qs) => Load(qs[..if |qs| < 12 then |qs| else 12], false, None)
      case None => Load([], false, Some(LoadFailedMessage))
  }

  /** The listing call never throws, so the page always shows its result: the fallback
      search and the failure message are never reached. */
  lemma FallbackUnreachable(outcomes: seq<ListingsClient.FetchOutcome>, fallbackOutcomes: seq<ListingsClient.FetchOutcome>,
                            now: nat, later: nat)
    requires |outcomes| == |ListingsClient.DemoCredentials| && |fallbackOutcomes| == |ListingsClient.DemoCredentials|
    ensures var l := FetchFeatured(Some(ListingsClient.GetProperties(outcomes, now)),
                                   ListingsClient.SearchProperties(fallbackOutcomes, later, "Houston"));
            l.featured == ListingsClient.GetProperties(outcomes, now) && l.error == None
  {
  }

  /** The featured request URL carries exactly one parameter, `limit=12`. */
  lemma FeaturedRequestQuery()
    ensures QueryParams.BuildQueryParams(FeaturedRequest) == [QueryParams.QueryParam("limit", QueryParams.PNum(12.0))]
  {
    QueryParams.OnlyLimit(12.0);
  }
}
