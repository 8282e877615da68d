/**
 * The checkout page controller: the book id read from the location path, the two fetch
 * URLs, the review mapping with its star sum and half-point average, the three flags the
 * two fetch outcomes update, and what the page renders from them.
 */
module CheckoutPage {
  import opened Wrappers
  import opened Text
  import opened Models

  const BooksApi := "http://localhost:8080/api/books/"
  const ReviewsApi := "http://localhost:8080/api/reviews/search/findByBookId?bookId="

  // ---- book id and URLs ----

  /** `pathname.split('/')[2]`: the third piece of the path, or undefined. */
  function BookIdFromPath(pathname: string): (id: Option<string>)
    ensures id.Some? <==> Occurrences(pathname, '/') >= 2
    ensures id.Some? ==> '/' !in id.value
  {
    var parts := Split(pathname, '/');
    if |parts| > 2 then Some(parts[2]) else None
  }

  /** The id is the third piece of any path built from separator-free pieces. */
  lemma BookIdOfJoinedPath(parts: seq<string>)
    requires |parts| > 2
    requires forall k :: 0 <= k < |parts| ==> '/' !in parts[k]
    ensures BookIdFromPath(Join(parts, '/')) == Some(parts[2])
  {
    SplitJoin(parts, '/');
  }

  /** On the route `/checkout/:bookId` the id is the route parameter. */
  lemma CheckoutRouteBookId(id: string)
    requires '/' !in id
    ensures BookIdFromPath("/checkout/" + id) == Some(id)
  {
    var parts := ["", "checkout", id];
    assert parts[1..] == ["checkout", id] && parts[1..][1..] == [id];
    assert Join(parts[1..], '/') == "checkout" + "/" + id;
    assert Join(parts, '/') == "/checkout/" + id;
    BookIdOfJoinedPath(parts);
  }

  lemma CheckoutSevenBookId()
    ensures BookIdFromPath("/checkout/7") == Some("7")
  {
    CheckoutRouteBookId("7");
    assert "/checkout/" + "7" == "/checkout/7";
  }

  /** How a template literal prints the id: "undefined" when the path had no third piece. */
  function IdText(id: Option<string>): (s: string)
    ensures id.Some? ==> s == id.value
    ensures id.None? ==> s == "undefined"
  {
    match id
    case Some(v) => v
    case None => "undefined"
  }

  /** The book request: the books resource with the id appended. */
  function BookUrl(id: Option<string>): (url: string)
    ensures |url| >= |BooksApi| && url[..|BooksApi|] == BooksApi && url[|BooksApi|..] == IdText(id)
  {
    BooksApi + IdText(id)
  }

  /** The reviews request: the find-by-book-id search with the id as its parameter. */
  function ReviewsUrl(id: Option<string>): (url: string)
    ensures |url| >= |ReviewsApi| && url[..|ReviewsApi|] == ReviewsApi && url[|ReviewsApi|..] == IdText(id)
  {
    ReviewsApi + IdText(id)
  }

  // ---- reviews and stars ----

  /** The sum of the ratings, accumulated front to back. */
  function SumRatings(data: seq<RawReview>): real {
    if data == [] then 0.0 else SumRatings(data[..|data| - 1]) + data[|data| - 1].rating
  }

  /** Copies each decoded review into a view model, in order, and sums the ratings. */
  method LoadReviews(responseData: seq<RawReview>) returns (loadReviews: seq<ReviewModel>, starWeigh: real)
    ensures ReviewsCopied(responseData, loadReviews)
    ensures starWeigh == SumRatings(responseData)
  {
    starWeigh := 0.0;
    loadReviews := [];
    var item := 0;
    while item < |responseData|
      invariant 0 <= item <= |responseData|
      invariant ReviewsCopied(responseData[..item], loadReviews)
      invariant starWeigh == SumRatings(responseData[..item])
    {
      var r := responseData[item];
      loadReviews := loadReviews + [ReviewModel(r.id, r.userEmail, r.date, r.rating, r.bookId, r.reviewDescription)];
      starWeigh := starWeigh + r.rating;
      assert responseData[..item + 1][..item] == responseData[..item];
      item := item + 1;
    }
    assert responseData[..item] == responseData;
  }

  /** When every rating lies in [lo, hi], the sum lies in [n lo, n hi]. */
  lemma {:induction false} SumRatingsBounds(data: seq<RawReview>, lo: real, hi: real)
    requires forall i :: 0 <= i < |data| ==> lo <= data[i].rating <= hi
    ensures (|data| as real) * lo <= SumRatings(data) <= (|data| as real) * hi
  {
    if data != [] {
      SumRatingsBounds(data[..|data| - 1], lo, hi);
    }
  }

  /** A multiple of one half. */
  predicate IsHalfPoint(x: real) {
    (2.0 * x).Floor as real == 2.0 * x
  }

  function Abs(x: real): real {
    if x < 0.0 then -x else x
  }

  /**
   * `Math.round((sum / n) * 2) / 2`: the mean rounded to a half point, halves upward.
   * The result is a half point within a quarter of the mean.
   */
  function HalfRound(sum: real, n: nat): (r: real)
    requires n > 0
    ensures IsHalfPoint(r)
    ensures sum / (n as real) - 0.25 < r <= sum / (n as real) + 0.25
  {
    ((sum / (n as real)) * 2.0 + 0.5).Floor as real / 2.0
  }

  /** No half point is closer to the mean, and on a tie the larger one is chosen. */
  lemma HalfRoundNearest(sum: real, n: nat, h: real)
    requires n > 0 && IsHalfPoint(h)
    ensures var m := sum / (n as real);
      && Abs(HalfRound(sum, n) - m) <= Abs(h - m)
      && (Abs(h - m) == Abs(HalfRound(sum, n) - m) ==> h <= HalfRound(sum, n))
  {
    var m := sum / (n as real);
    var x := m * 2.0;
    var k := (x + 0.5).Floor;
    var j := (2.0 * h).Floor;
    assert HalfRound(sum, n) == k as real / 2.0;
    assert h == j as real / 2.0;
    assert x - 0.5 < k as real <= x + 0.5;
    if j > k {
      assert j as real >= k as real + 1.0;
    } else if j < k {
      assert j as real <= k as real - 1.0;
    }
  }

  /** A mean of values in [lo, hi] lies in [lo, hi]. */
  lemma MeanBounds(sum: real, n: real, lo: real, hi: real)
    requires n > 0.0 && n * lo <= sum <= n * hi
    ensures lo <= sum / n <= hi
  {
    var m := sum / n;
    assert m * n == sum;
    assert (m - lo) * n == sum - n * lo;
    assert (hi - m) * n == n * hi - sum;
  }

  /** With ratings between 1 and 5 the average shown is between 1 and 5 too. */
  lemma HalfRoundWithinRatingScale(data: seq<RawReview>)
    requires |data| > 0
    requires forall i :: 0 <= i < |data| ==> 1.0 <= data[i].rating <= 5.0
    ensures 1.0 <= HalfRound(SumRatings(data), |data|) <= 5.0
  {
    SumRatingsBounds(data, 1.0, 5.0);
    MeanBounds(SumRatings(data), |data| as real, 1.0, 5.0);
    var r := HalfRound(SumRatings(data), |data|);
    var k := (2.0 * r).Floor;
    assert k as real == 2.0 * r;
    assert 1.5 < k as real <= 10.5;
  }

  /** The star rating the page holds: a number, or NaN after averaging zero reviews. */
  datatype StarRating = Stars(value: real) | NotANumber

  /** The rating computed from the reviews' star sum: NaN for no reviews. */
  function AverageStars(starWeigh: real, count: nat): (s: StarRating)
    ensures count == 0 <==> s.NotANumber?
    ensures count > 0 ==> s.Stars? && IsHalfPoint(s.value)
  {
    if count == 0 then NotANumber else Stars(HalfRound(starWeigh, count))
  }

  // ---- render ----

  /** The cover image: the book's own image, or the fixed placeholder image. */
  datatype Cover = BookImage(src: string) | Placeholder

  /** `book?.img ? book.img : placeholder`. */
  function CoverOf(book: Option<BookModel>): (c: Cover)
    ensures c.BookImage? <==> book.Some? && Truthy(book.value.img)
    ensures c.BookImage? ==> book.value.img == Some(c.src)
  {
    if book.Some? && Truthy(book.value.img) then BookImage(book.value.img.value) else Placeholder
  }

  datatype CheckoutView =
    | Spinner
    | ErrorMessage(message: string)
    | Detail(book: Option<BookModel>, cover: Cover, stars: StarRating, reviews: seq<ReviewModel>)

  /**
   * What the page renders: the spinner while either flag is set, else the error if one
   * is set, else the book detail with its cover, stars and reviews.
   */
  function Render(loading: bool, isLoading: bool, error: Option<string>, book: Option<BookModel>,
                  totalStars: StarRating, reviews: seq<ReviewModel>): (v: CheckoutView)
    ensures v.Spinner? <==> loading || isLoading
    ensures v.ErrorMessage? <==> !loading && !isLoading && Truthy(error)
    ensures v.ErrorMessage? ==> Some(v.message) == error
    ensures v.Detail? <==> !loading && !isLoading && !Truthy(error)
    ensures v.Detail? ==>
      v.book == book && v.cover == CoverOf(book) && v.stars == totalStars && v.reviews == reviews
  {
    if loading || isLoading then Spinner
    else if Truthy(error) then ErrorMessage(error.value)
    else Detail(book, CoverOf(book), totalStars, reviews)
  }

  // ---- page state ----

  class BookCheckoutPage {
    const bookId: Option<string>
    var book: Option<BookModel>
    /** Cleared only by a successful reviews fetch. */
    var loading: bool
    var error: Option<string>
    var reviews: seq<ReviewModel>
    var totalStars: StarRating
    /** Cleared by a book outcome and by a failed reviews fetch. */
    var isLoading: bool

    /**
     * Once `isLoading` is clear, the book arrived or an error was recorded; while
     * `loading` is set, no reviews have been stored.
     */
    ghost predicate Valid()
      reads this
    {
      && (!isLoading ==> book.Some? || error.Some?)
      && (loading ==> reviews == [])
    }

    constructor (pathname: string)
      ensures Valid()
      ensures bookId == BookIdFromPath(pathname)
      ensures book == None && loading && isLoading && error == None
      ensures reviews == [] && totalStars == Stars(0.0)
    {
      bookId := BookIdFromPath(pathname);
      book := None;
      loading := true;
      error := None;
      reviews := [];
      totalStars := Stars(0.0);
      isLoading := true;
    }

    function BookRequestUrl(): string
      reads this
    {
      BookUrl(bookId)
    }

    function ReviewsRequestUrl(): string
      reads this
    {
      ReviewsUrl(bookId)
    }

    /** What the page renders; the detail shows a book unless an empty error message hid a failure. */
    function View(): (v: CheckoutView)
      requires Valid()
      reads this
      ensures v.Detail? ==> book.Some? || error == Some("")
    {
      Render(loading, isLoading, error, book, totalStars, reviews)
    }

    /** The book fetch answered: store the book and clear `isLoading` only. */
    method BookFetched(raw: RawBook)
      requires Valid()
      modifies this
      ensures Valid()
      ensures book.Some? && BookCopied(raw, book.value)
      ensures !isLoading
      ensures loading == old(loading) && error == old(error)
      ensures reviews == old(reviews) && totalStars == old(totalStars)
    {
      var loadBooks := BookModel(raw.id, raw.title, raw.author, raw.description,
                                 raw.copies, raw.copiesAvailable, raw.category, raw.img);
      book := Some(loadBooks);
      isLoading := false;
    }

    /** The book fetch failed: clear `isLoading` and record the message. */
    method BookFetchFailed(failure: FetchFailure)
      requires Valid()
      modifies this
      ensures Valid()
      ensures !isLoading && error == Some(FailureMessage(failure))
      ensures loading == old(loading) && book == old(book)
      ensures reviews == old(reviews) && totalStars == old(totalStars)
    {
      isLoading := false;
      error := Some(FailureMessage(failure));
    }

    /**
     * The reviews fetch answered. `renderedWhileLoading` is the value `isLoading` had in
     * the render that started this fetch; only then is the average recomputed. The flag
     * only ever goes from set to clear, so it was set then if it is set now.
     */
    method ReviewsFetched(responseData: seq<RawReview>, renderedWhileLoading: bool)
      requires Valid()
      requires isLoading ==> renderedWhileLoading
      modifies this
      ensures Valid()
      ensures ReviewsCopied(responseData, reviews)
      ensures totalStars == if renderedWhileLoading then AverageStars(SumRatings(responseData), |responseData|)
                            else old(totalStars)
      ensures !loading
      ensures isLoading == old(isLoading) && book == old(book) && error == old(error)
    {
      var loadReviews, starWeigh := LoadReviews(responseData);
      if renderedWhileLoading {
        if |loadReviews| == 0 {
          totalStars := NotANumber;
        } else {
          totalStars := Stars(HalfRound(starWeigh, |loadReviews|));
        }
      }
      reviews := loadReviews;
      loading := false;
    }

    /** The reviews fetch failed: clear `isLoading` (not `loading`) and record the message. */
    method ReviewsFetchFailed(failure: FetchFailure)
      requires Valid()
      modifies this
      ensures Valid()
      ensures !isLoading && error == Some(FailureMessage(failure))
      ensures loading == old(loading) && book == old(book)
      ensures reviews == old(reviews) && totalStars == old(totalStars)
    {
      isLoading := false;
      error := Some(FailureMessage(failure));
    }
  }

  // ---- scenarios ----

  /**
   * The book arrives, the reviews fetch fails: the error is recorded, but `loading` is
   * still set, so the spinner stays.
   */
  method ReviewsFailureKeepsSpinner(pathname: string, raw: RawBook, failure: FetchFailure)
    returns (v: CheckoutView, error: Option<string>)
    ensures v == Spinner
    ensures error == Some(FailureMessage(failure))
  {
    var page := new BookCheckoutPage(pathname);
    page.BookFetched(raw);
    page.ReviewsFetchFailed(failure);
    v := page.View();
    error := page.error;
  }

  /** The error of a failed reviews fetch appears only once a later reviews fetch succeeds. */
  method ReviewsRetryRevealsError(pathname: string, raw: RawBook, responseData: seq<RawReview>)
    returns (v: CheckoutView)
    ensures v == ErrorMessage(NotOkMessage)
  {
    var page := new BookCheckoutPage(pathname);
    page.BookFetched(raw);
    page.ReviewsFetchFailed(NotOk);
    page.ReviewsFetched(responseData, false);
    v := page.View();
  }

  /** A failed book fetch shows the error once the reviews have arrived. */
  method BookFailureScenario(pathname: string, responseData: seq<RawReview>)
    returns (before: CheckoutView, after: CheckoutView)
    ensures before == Spinner
    ensures after == ErrorMessage(NotOkMessage)
  {
    var page := new BookCheckoutPage(pathname);
    page.BookFetchFailed(NotOk);
    before := page.View();
    page.ReviewsFetched(responseData, true);
    after := page.View();
  }

  /**
   * Both fetches succeed, in either order, the reviews fetch being the one started at
   * mount: the detail shows the book, its cover or the placeholder, the half-point
   * average and the reviews.
   */
  method BothSucceedScenario(pathname: string, raw: RawBook, responseData: seq<RawReview>, reviewsFirst: bool)
    returns (bookUrl: string, reviewsUrl: string, v: CheckoutView)
    requires |responseData| > 0
    ensures bookUrl == BooksApi + IdText(BookIdFromPath(pathname))
    ensures reviewsUrl == ReviewsApi + IdText(BookIdFromPath(pathname))
    ensures v.Detail? && v.book.Some? && BookCopied(raw, v.book.value)
    ensures v.cover == (if Truthy(raw.img) then BookImage(raw.img.value) else Placeholder)
    ensures v.stars == Stars(HalfRound(SumRatings(responseData), |responseData|))
    ensures ReviewsCopied(responseData, v.reviews)
  {
    var page := new BookCheckoutPage(pathname);
    bookUrl := page.BookRequestUrl();
    reviewsUrl := page.ReviewsRequestUrl();
    if reviewsFirst {
      page.ReviewsFetched(responseData, true);
      page.BookFetched(raw);
    } else {
      page.BookFetched(raw);
      page.ReviewsFetched(responseData, true);
    }
    v := page.View();
  }
}
