# book-shop-fe page controllers in Dafny

This project models the logic inside the two page controllers of the book-shop front
end. That front end is a React storefront that talks to a REST API at
`http://localhost:8080/api`. The markup, the fetches and the render scheduling are
removed. What is left is page state, event handlers, URL building, arithmetic and the
choice of what to render.

- **Search page** (`SearchPage`, class `SearchBooksPage`):
  - the state fields, with `booksPerPage = 5`;
  - the URL the listing fetch requests: the zero-based page on the wire when the search
    box is empty, otherwise the stored query fragment;
  - the search button, the category dropdown with its case-insensitive whitelist, and the
    pager;
  - the stored fetch outcome, and the mapping of the decoded books into `BookModel`s;
  - the "first to last of total" caption;
  - the render precedence (spinner, then error, then results or the not-found block) and
    when the pager is shown.
- **Checkout page** (`CheckoutPage`, class `BookCheckoutPage`):
  - the book id, which is piece 2 of `pathname.split('/')`, and the two request URLs;
  - the review mapping and the star sum;
  - the average rounded to the nearest half point, `Math.round(2x)/2`, over `real`;
  - the three flags `loading`, `isLoading` and `error`, which the two fetch outcomes update
    in a cross-wired way;
  - the render precedence and the cover image fallback.
- **Support modules**:
  - `Text`: integers printed in template literals (with a parse round trip), ASCII
    `toLowerCase`, and `split`/`join` on one character (with both round trips);
  - `Models`: the decoded records and the view models;
  - `Wrappers`: `Option`.

Each fetch outcome is a method call on the page object. `FetchSucceeded` and
`FetchFailed` are on the search page. `BookFetched`, `BookFetchFailed`, `ReviewsFetched`
and `ReviewsFetchFailed` are on the checkout page. Overlapping requests can complete in
any order, so the outcome methods may be called in any order.
The search page's input, button, dropdown and pager exist only in the content render.
So their handlers `SetSearch`, `SearchHandleChanges`, `CategoryField` and `Paginate`
require that the page is neither loading nor showing an error.
The scenario methods at the end of each module run short event sequences on a fresh page
and state what the page then shows.

Consequences of the code that the model makes explicit:

- A failed reviews fetch clears `isLoading` and sets `error`, but it never clears
  `loading`. The page therefore keeps the spinner; it does not show the error. The error
  appears only once a later run of the reviews effect succeeds (`ReviewsFailureKeepsSpinner`,
  `ReviewsRetryRevealsError`).
- A failed book fetch also leaves the spinner until the reviews arrive (`BookFailureScenario`).
- On the search page, `httpError` is never cleared and `loading` is never set again
  (`ErrorIsStickyScenario`).
- A title or category search stores a fragment with `page=0` fixed. The pager then changes
  `currentPage` but not the request (`SearchModeIgnoresPage`,
  `PagingDuringTitleSearchScenario`). The zero-based page reaches the wire only when the
  search box is empty.
- The first request is the bare base URL, with no page or size, because `search` starts
  as `' '` (`InitialRequestIsBareBase`).
- `categoryField` does not reset `currentPage`: a category change keeps the current page
  (`CategoryField`).

## Model

| member | source | states |
|---|---|---|
| SearchPage.SearchBooksPage.constructor | book-shop-fe/src/Layouts/SearchBooksPage/SearchBooksPage.tsx:8-20 | initial state: no books, loading, no error, page 1, totals 0, search `' '`, searchUrl `''`, category "Book Category"; the category invariant holds |
| SearchPage.RequestUrl | book-shop-fe/src/Layouts/SearchBooksPage/SearchBooksPage.tsx:24-32 | every request starts with the books base URL; after it comes the listing query for page `currentPage - 1` when the search box is empty, and the stored fragment otherwise |
| SearchPage.InitialRequestIsBareBase | book-shop-fe/src/Layouts/SearchBooksPage/SearchBooksPage.tsx:17-32 | in the initial state (search `' '`, searchUrl `''`) the request is the bare base URL |
| SearchPage.SearchModeIgnoresPage | book-shop-fe/src/Layouts/SearchBooksPage/SearchBooksPage.tsx:28-32 | with a non-empty search box the request does not depend on `currentPage` |
| SearchPage.ListingUrlsDistinct | book-shop-fe/src/Layouts/SearchBooksPage/SearchBooksPage.tsx:28-29 | with an empty search box, different pages give different requests |
| SearchPage.ListingQueriesDistinct | book-shop-fe/src/Layouts/SearchBooksPage/SearchBooksPage.tsx:29 | different page numbers give different listing queries |
| SearchPage.ListingQuery | book-shop-fe/src/Layouts/SearchBooksPage/SearchBooksPage.tsx:29 | the query reads back as "?page=", the page text, "&size=", the size text, and has exactly that length |
| Text.IntToString | book-shop-fe/src/Layouts/SearchBooksPage/SearchBooksPage.tsx:29 | a non-empty text that starts with '-' exactly for negative integers |
| SearchPage.ListingUrlZeroBasedPage | book-shop-fe/src/Layouts/SearchBooksPage/SearchBooksPage.tsx:29 | the page parameter of the listing request reads back as `currentPage - 1` and its size parameter as `booksPerPage` |
| Text.IntToStringInjective | book-shop-fe/src/Layouts/SearchBooksPage/SearchBooksPage.tsx:29 | two different integers print differently inside a template literal |
| Text.ParseIntToString | book-shop-fe/src/Layouts/SearchBooksPage/SearchBooksPage.tsx:29 | an integer printed in a template literal parses back to itself |
| SearchPage.SubmittedSearchUrl | book-shop-fe/src/Layouts/SearchBooksPage/SearchBooksPage.tsx:84-91 | the stored fragment is `' '` exactly when the search box is empty, and otherwise the title search with page 0 and the page size |
| SearchPage.TitleSearchUrl | book-shop-fe/src/Layouts/SearchBooksPage/SearchBooksPage.tsx:89 | the fragment reads back as the title search prefix, the title exactly as typed, "&page=0&size=" and the size text |
| SearchPage.SearchBooksPage.SearchHandleChanges | book-shop-fe/src/Layouts/SearchBooksPage/SearchBooksPage.tsx:84-91 | sets `currentPage` to 1 and `searchUrl` to `' '` or the title search with page 0 and size 5; nothing else changes |
| SearchPage.SearchBooksPage.SetSearch | book-shop-fe/src/Layouts/SearchBooksPage/SearchBooksPage.tsx:119-120 | the input's change handler (present only in the content render) sets `search` only |
| Text.ToLower | book-shop-fe/src/Layouts/SearchBooksPage/SearchBooksPage.tsx:94-97 | same length; each character lowered, others unchanged |
| SearchPage.IsKnownCategory | book-shop-fe/src/Layouts/SearchBooksPage/SearchBooksPage.tsx:93-98 | the whitelist test on the lowered value; only values of length 2, 4 or 6 pass |
| SearchPage.CategorySearchUrl | book-shop-fe/src/Layouts/SearchBooksPage/SearchBooksPage.tsx:100 | the fragment reads back as the category search prefix, the category exactly as chosen, "&page=0&size=" and the size text |
| SearchPage.ChooseCategory | book-shop-fe/src/Layouts/SearchBooksPage/SearchBooksPage.tsx:92-105 | a value whose lower case is fe, be, data or devops is kept as typed, with the category search URL (page 0, page size); any other value gives "All" with the unfiltered listing of page 1 |
| SearchPage.SearchBooksPage.CategoryField | book-shop-fe/src/Layouts/SearchBooksPage/SearchBooksPage.tsx:92-105 | whitelisted (case-insensitively) value: category = value and the category search URL; otherwise "All" and `?page=0&size=5`; page and all else unchanged |
| SearchPage.ChooseCategoryIdempotent | book-shop-fe/src/Layouts/SearchBooksPage/SearchBooksPage.tsx:92-105 | applying the handler to its own resulting category gives the same choice |
| SearchPage.ChosenCategoryIsClosed | book-shop-fe/src/Layouts/SearchBooksPage/SearchBooksPage.tsx:92-105 | the chosen category, lowered, is one of fe, be, data, devops, all |
| SearchPage.AllIsFirstListingPage | book-shop-fe/src/Layouts/SearchBooksPage/SearchBooksPage.tsx:101-104 | the "All" fragment requests exactly the unfiltered listing of page 1 |
| SearchPage.DropdownLabels | book-shop-fe/src/Layouts/SearchBooksPage/SearchBooksPage.tsx:134-148 | FE, BE, Data and DevOps pass the whitelist; All does not |
| SearchPage.ItemRange | book-shop-fe/src/Layouts/SearchBooksPage/SearchBooksPage.tsx:106-109 | first = (page-1)*size+1; last = min(size*page, total) so last <= total; with page >= 1 and total >= first, first <= last < first + size |
| SearchPage.CaptionListsPage | book-shop-fe/src/Layouts/SearchBooksPage/SearchBooksPage.tsx:106-109 | the caption range holds exactly the item numbers that fall on the current page |
| SearchPage.FirstPageCaption | book-shop-fe/src/Layouts/SearchBooksPage/SearchBooksPage.tsx:158-160 | page 1 of 12 items, 5 per page, reads "1 to 5" |
| SearchPage.Render | book-shop-fe/src/Layouts/SearchBooksPage/SearchBooksPage.tsx:70-179 | spinner iff loading; else the error iff it is truthy; else results iff total > 0, otherwise not-found; pager iff totalPages > 1; the dropdown button shows the stored category |
| SearchPage.SearchBooksPage.View | book-shop-fe/src/Layouts/SearchBooksPage/SearchBooksPage.tsx:129-132 | in the content render the dropdown button shows "Book Category", "All" or a whitelisted category, because every handler keeps that invariant |
| Models.Truthy | book-shop-fe/src/Layouts/SearchBooksPage/SearchBooksPage.tsx:76 | a string that may be null is falsy exactly when it is null or empty |
| SearchPage.LoadBooks | book-shop-fe/src/Layouts/SearchBooksPage/SearchBooksPage.tsx:45-58 | one BookModel per decoded book, in order, eight fields copied unchanged |
| Models.BooksCopiedUnique | book-shop-fe/src/Layouts/SearchBooksPage/SearchBooksPage.tsx:45-58 | the field-copy relation determines the mapped list uniquely |
| SearchPage.SearchBooksPage.Paginate | book-shop-fe/src/Layouts/SearchBooksPage/SearchBooksPage.tsx:111 | sets `currentPage` and nothing else |
| SearchPage.SearchBooksPage.FetchSucceeded | book-shop-fe/src/Layouts/SearchBooksPage/SearchBooksPage.tsx:40-61 | stores the totals and the copied books and clears `loading`; the error, the page and the query are unchanged |
| SearchPage.SearchBooksPage.FetchFailed | book-shop-fe/src/Layouts/SearchBooksPage/SearchBooksPage.tsx:63-66 | clears `loading`, stores the message; nothing else changes |
| Models.FailureMessage | book-shop-fe/src/Layouts/SearchBooksPage/SearchBooksPage.tsx:34-35 | a response that is not ok yields "Something went wrong!"; another thrown error keeps its message |
| SearchPage.FirstLoadScenario | book-shop-fe/src/Layouts/SearchBooksPage/SearchBooksPage.tsx:22-61 | first load answered with 5 of 12 books on 3 pages: bare base URL, 12 results, caption 1 to 5, the 5 copied books, pager shown |
| SearchPage.ErrorIsStickyScenario | book-shop-fe/src/Layouts/SearchBooksPage/SearchBooksPage.tsx:22-82 | first load, then the pager moves to page 2 and to page 3 before either answer; the page 2 fetch fails and the page 3 answer arrives later: the page still shows "Something went wrong!" |
| SearchPage.PagingDuringTitleSearchScenario | book-shop-fe/src/Layouts/SearchBooksPage/SearchBooksPage.tsx:84-111 | after a successful first load and a title search, moving to page 3 leaves the request (page 0) unchanged |
| Text.JoinSplit | book-shop-fe/src/Layouts/BookCheckoutPage/BookCheckoutPage.tsx:20 | joining the pieces of `split('/')` gives the path back |
| Text.SplitJoin | book-shop-fe/src/Layouts/BookCheckoutPage/BookCheckoutPage.tsx:20 | splitting a join of separator-free pieces gives the pieces back |
| Text.Split | book-shop-fe/src/Layouts/BookCheckoutPage/BookCheckoutPage.tsx:20 | one piece more than there are separators, none containing the separator; the empty string gives one empty piece; a leading separator gives an empty first piece and a trailing one an empty last piece |
| CheckoutPage.BookIdFromPath | book-shop-fe/src/Layouts/BookCheckoutPage/BookCheckoutPage.tsx:20 | an id exists iff the path has at least two slashes; it contains no slash |
| CheckoutPage.BookIdOfJoinedPath | book-shop-fe/src/Layouts/BookCheckoutPage/BookCheckoutPage.tsx:20 | for a path built from separator-free pieces the id is piece 2 |
| CheckoutPage.CheckoutRouteBookId | book-shop-fe/src/Layouts/BookCheckoutPage/BookCheckoutPage.tsx:20 | on `/checkout/<id>` the id is `<id>` |
| CheckoutPage.CheckoutSevenBookId | book-shop-fe/src/Layouts/BookCheckoutPage/BookCheckoutPage.tsx:20 | `/checkout/7` gives "7" |
| CheckoutPage.IdText | book-shop-fe/src/Layouts/BookCheckoutPage/BookCheckoutPage.tsx:24 | a missing id prints as "undefined" |
| CheckoutPage.BookUrl | book-shop-fe/src/Layouts/BookCheckoutPage/BookCheckoutPage.tsx:24 | the books resource followed by exactly the id text |
| CheckoutPage.ReviewsUrl | book-shop-fe/src/Layouts/BookCheckoutPage/BookCheckoutPage.tsx:54 | the find-by-book-id search followed by exactly the id text |
| CheckoutPage.LoadReviews | book-shop-fe/src/Layouts/BookCheckoutPage/BookCheckoutPage.tsx:63-76 | one ReviewModel per decoded review, in order, `bookId` copied into `book_id`; the star sum is the sum of all ratings |
| Models.ReviewsCopiedUnique | book-shop-fe/src/Layouts/BookCheckoutPage/BookCheckoutPage.tsx:66-76 | the field-copy relation determines the mapped reviews uniquely |
| CheckoutPage.SumRatingsBounds | book-shop-fe/src/Layouts/BookCheckoutPage/BookCheckoutPage.tsx:75 | ratings within [lo, hi] give a sum within [n lo, n hi] |
| CheckoutPage.HalfRound | book-shop-fe/src/Layouts/BookCheckoutPage/BookCheckoutPage.tsx:79 | for n > 0 the result is a multiple of 0.5 within 0.25 of the mean sum/n |
| CheckoutPage.HalfRoundNearest | book-shop-fe/src/Layouts/BookCheckoutPage/BookCheckoutPage.tsx:79 | no half point is nearer the mean; ties go to the larger one |
| CheckoutPage.HalfRoundWithinRatingScale | book-shop-fe/src/Layouts/BookCheckoutPage/BookCheckoutPage.tsx:78-80 | ratings from 1 to 5 give an average from 1 to 5 |
| CheckoutPage.AverageStars | book-shop-fe/src/Layouts/BookCheckoutPage/BookCheckoutPage.tsx:78-81 | NaN exactly when there are no reviews; otherwise a half point |
| CheckoutPage.CoverOf | book-shop-fe/src/Layouts/BookCheckoutPage/BookCheckoutPage.tsx:111-115 | the book's image when `book?.img` is truthy, the placeholder otherwise |
| CheckoutPage.Render | book-shop-fe/src/Layouts/BookCheckoutPage/BookCheckoutPage.tsx:93-106 | spinner iff loading or isLoading; error only with both clear and a truthy error; detail only with both clear and no error |
| CheckoutPage.BookCheckoutPage.constructor | book-shop-fe/src/Layouts/BookCheckoutPage/BookCheckoutPage.tsx:10-20 | no book, both flags set, no error, no reviews, 0 stars, id from the path |
| CheckoutPage.BookCheckoutPage.View | book-shop-fe/src/Layouts/BookCheckoutPage/BookCheckoutPage.tsx:93-106 | the detail is shown only with a book, unless an empty error message hid a failure |
| CheckoutPage.BookCheckoutPage.BookFetched | book-shop-fe/src/Layouts/BookCheckoutPage/BookCheckoutPage.tsx:29-44 | stores the copied book and clears `isLoading` only |
| CheckoutPage.BookCheckoutPage.BookFetchFailed | book-shop-fe/src/Layouts/BookCheckoutPage/BookCheckoutPage.tsx:46-49 | clears `isLoading` and sets `error`; `loading` is unchanged |
| CheckoutPage.BookCheckoutPage.ReviewsFetched | book-shop-fe/src/Layouts/BookCheckoutPage/BookCheckoutPage.tsx:59-85 | stores the copied reviews and clears `loading` only; the stars are recomputed iff `isLoading` held when the fetch started (which it must have if it still holds), otherwise unchanged |
| CheckoutPage.BookCheckoutPage.ReviewsFetchFailed | book-shop-fe/src/Layouts/BookCheckoutPage/BookCheckoutPage.tsx:86-89 | clears `isLoading` and sets `error`; never clears `loading` |
| CheckoutPage.ReviewsFailureKeepsSpinner | book-shop-fe/src/Layouts/BookCheckoutPage/BookCheckoutPage.tsx:83-97 | book arrives and the reviews fail: the error is set, yet the spinner shows |
| CheckoutPage.ReviewsRetryRevealsError | book-shop-fe/src/Layouts/BookCheckoutPage/BookCheckoutPage.tsx:52-104 | the error shows only after a later reviews fetch succeeds |
| CheckoutPage.BookFailureScenario | book-shop-fe/src/Layouts/BookCheckoutPage/BookCheckoutPage.tsx:43-104 | a failed book fetch shows the spinner until the reviews arrive, then the error |
| CheckoutPage.BothSucceedScenario | book-shop-fe/src/Layouts/BookCheckoutPage/BookCheckoutPage.tsx:22-137 | both succeed in either order: the two URLs, then the detail with the copied book, the cover or placeholder, the half-point average and the copied reviews |

## Left out

- `fetch`, `async`/`await`, `useEffect` and its dependency arrays are left out. Each fetch outcome is a method call, and outcomes of overlapping requests may arrive in any order. The model does not capture that the reviews effect runs again after every render, nor the repeated requests that causes.
- SearchPage.SearchBooksPage: does not track which requests are outstanding, so `FetchSucceeded` and `FetchFailed` accept an outcome even when no request is pending. The page itself issues one request on mount and one per change of `currentPage` or `searchUrl`.
- The reviews completion reads `isLoading` as it was in the render that started that fetch. This is a stale closure value, so `ReviewsFetched` takes it as the parameter `renderedWhileLoading`.
- JSON decoding (`response.json()`, `_embedded`, `page`) is left out. The decoded records are given as sequences. A decoding error appears only as a `Thrown` failure with its message.
- `window.scrollTo` is left out. `window.location.pathname` becomes the constructor's `pathname` parameter.
- JSX markup and CSS are left out, and so are the widgets `SpinnerLoading`, `Pagination`, `StarReview`, `SearchBook`, `CheckoutAndReviewBox` and `LatestReviews`; their sources are not part of this model. The desktop and mobile layouts show the same data and become one `Detail` view.
- `book-shop-fe/src/App.tsx` is left out. It is a route table whose matching belongs to react-router.
- Floating point is left out. Ratings and the average are `real`. `Math.round` is `Floor(x + 1/2)`. The `toFixed(1)`/`Number` round trip is skipped because it is exact on half points. Averaging zero reviews gives NaN in the code, which is kept as the marker `NotANumber` rather than a number.
- Page numbers and counts are unbounded integers, not doubles. Template literals print them as integers.
- Text.ToLower: lowers ASCII letters only. Outside ASCII, only the Kelvin sign and the dotted capital I lower-case to ASCII letters (k, and i followed by a combining dot). Neither can produce fe, be, data or devops, so the whitelist decision is the same as with full `toLowerCase`.
