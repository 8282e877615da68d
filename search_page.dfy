/**
 * The search page controller: which URL the listing fetch requests, how the search box,
 * the category dropdown and the pager change the page state, how a fetch outcome is
 * stored, and what the page renders from that state.
 */
module SearchPage {
  import opened Wrappers
  import opened Text
  import opened Models

  const BaseUrl := "http://localhost:8080/api/books"
  const InitialCategory := "Book Category"
  /** The lower-cased category names the dropdown handler accepts. */
  const KnownCategories: set<string> := {"fe", "be", "data", "devops"}

  // ---- URLs ----

  const TitleSearchPrefix := "/search/findByTitleContaining?title="
  const CategorySearchPrefix := "/search/findByCategory?category="
  const FirstPageOfSize := "&page=0&size="

  /**
   * The unfiltered listing query: the page text follows "?page=" and the size text
   * follows "&size=", so both read back from the query.
   */
  function ListingQuery(page: int, size: int): (q: string)
    ensures var p := IntToString(page);
      && |q| == 12 + |p| + |IntToString(size)|
      && q[..6] == "?page=" && q[6..6 + |p|] == p
      && q[6 + |p|..12 + |p|] == "&size=" && q[12 + |p|..] == IntToString(size)
  {
    FourPieces("?page=", IntToString(page), "&size=", IntToString(size));
    "?page=" + IntToString(page) + "&size=" + IntToString(size)
  }

  /** Each piece of a four-piece concatenation reads back from its own slice. */
  lemma FourPieces(a: string, b: string, c: string, d: string)
    ensures var s := a + b + c + d;
      && |s| == |a| + |b| + |c| + |d|
      && s[..|a|] == a && s[|a|..|a| + |b|] == b
      && s[|a| + |b|..|a| + |b| + |c|] == c && s[|a| + |b| + |c|..] == d
  {
  }

  /**
   * The title search fragment: the title exactly as typed (not encoded), then page 0
   * and the page size.
   */
  function TitleSearchUrl(search: string, size: int): (url: string)
    ensures var n := |TitleSearchPrefix| + |search|;
      && |url| == n + |FirstPageOfSize| + |IntToString(size)|
      && url[..|TitleSearchPrefix|] == TitleSearchPrefix
      && url[|TitleSearchPrefix|..n] == search
      && url[n..n + |FirstPageOfSize|] == FirstPageOfSize
      && url[n + |FirstPageOfSize|..] == IntToString(size)
  {
    FourPieces(TitleSearchPrefix, search, FirstPageOfSize, IntToString(size));
    TitleSearchPrefix + search + FirstPageOfSize + IntToString(size)
  }

  /**
   * The category search fragment: the category exactly as chosen, then page 0 and the
   * page size.
   */
  function CategorySearchUrl(category: string, size: int): (url: string)
    ensures var n := |CategorySearchPrefix| + |category|;
      && |url| == n + |FirstPageOfSize| + |IntToString(size)|
      && url[..|CategorySearchPrefix|] == CategorySearchPrefix
      && url[|CategorySearchPrefix|..n] == category
      && url[n..n + |FirstPageOfSize|] == FirstPageOfSize
      && url[n + |FirstPageOfSize|..] == IntToString(size)
  {
    FourPieces(CategorySearchPrefix, category, FirstPageOfSize, IntToString(size));
    CategorySearchPrefix + category + FirstPageOfSize + IntToString(size)
  }

  /**
   * The URL the listing fetch requests. With an empty search box it is the listing of
   * the current (one-based) page; otherwise the stored query fragment appended to the
   * base, whatever the current page.
   */
  function RequestUrl(search: string, searchUrl: string, currentPage: int, booksPerPage: int): (url: string)
    ensures |url| >= |BaseUrl| && url[..|BaseUrl|] == BaseUrl
    ensures search == "" ==> url[|BaseUrl|..] == ListingQuery(currentPage - 1, booksPerPage)
    ensures search != "" ==> url[|BaseUrl|..] == searchUrl
  {
    if search == "" then BaseUrl + ListingQuery(currentPage - 1, booksPerPage)
    else BaseUrl + searchUrl
  }

  /** Before anything is typed (search is a single space) the request is the bare base URL. */
  lemma InitialRequestIsBareBase()
    ensures RequestUrl(" ", "", 1, 5) == BaseUrl
  {
    assert BaseUrl + "" == BaseUrl;
  }

  /** While the search box is not empty, the page number has no effect on the request. */
  lemma SearchModeIgnoresPage(search: string, searchUrl: string, p: int, q: int, booksPerPage: int)
    requires search != ""
    ensures RequestUrl(search, searchUrl, p, booksPerPage) == RequestUrl(search, searchUrl, q, booksPerPage)
  {
  }

  /** Equal strings with the same frame around them have the same middle. */
  lemma SameFrameSameMiddle(pre: string, a: string, b: string, post: string)
    requires pre + a + post == pre + b + post
    ensures a == b
  {
    var x := pre + a + post;
    assert |a| == |b|;
    assert x[|pre|..|pre| + |a|] == a;
    assert (pre + b + post)[|pre|..|pre| + |b|] == b;
  }

  /** With an empty search box, every page number gets its own request. */
  lemma ListingUrlsDistinct(u: string, v: string, p: int, q: int, booksPerPage: int)
    requires p != q
    ensures RequestUrl("", u, p, booksPerPage) != RequestUrl("", v, q, booksPerPage)
  {
    if RequestUrl("", u, p, booksPerPage) == RequestUrl("", v, q, booksPerPage) {
      ListingQueriesDistinct(p - 1, q - 1, booksPerPage);
    }
  }

  /** Different page numbers give different listing queries. */
  lemma ListingQueriesDistinct(p: int, q: int, booksPerPage: int)
    requires p != q
    ensures ListingQuery(p, booksPerPage) != ListingQuery(q, booksPerPage)
  {
    var post := "&size=" + IntToString(booksPerPage);
    var a, b := IntToString(p), IntToString(q);
    if ListingQuery(p, booksPerPage) == ListingQuery(q, booksPerPage) {
      assert "?page=" + a + post == "?page=" + b + post;
      SameFrameSameMiddle("?page=", a, b, post);
      IntToStringInjective(p, q);
    }
  }

  /**
   * The listing request carries the zero-based page and the page size: its page text
   * reads back as p - 1 and the text after "&size=" reads back as the page size.
   */
  lemma ListingUrlZeroBasedPage(u: string, p: int, booksPerPage: int)
    ensures var pre := BaseUrl + "?page=";
      var page := IntToString(p - 1);
      var size := IntToString(booksPerPage);
      var url := RequestUrl("", u, p, booksPerPage);
      && url[|pre|..|pre| + |page|] == page
      && (if page[0] == '-' then IsDigits(page[1..]) else IsDigits(page))
      && ParseInt(page) == p - 1
      && url[|pre| + |page|..|pre| + |page| + 6] == "&size="
      && url[|pre| + |page| + 6..] == size
      && (if size[0] == '-' then IsDigits(size[1..]) else IsDigits(size))
      && ParseInt(size) == booksPerPage
  {
    var pre := BaseUrl + "?page=";
    var page := IntToString(p - 1);
    var size := IntToString(booksPerPage);
    assert RequestUrl("", u, p, booksPerPage) == BaseUrl + ListingQuery(p - 1, booksPerPage);
    assert RequestUrl("", u, p, booksPerPage) == pre + page + "&size=" + size;
    FourPieces(pre, page, "&size=", size);
    ParseIntToString(p - 1);
    ParseIntToString(booksPerPage);
  }

  // ---- search box ----

  /** The fragment stored when the search button is pressed. */
  function SubmittedSearchUrl(search: string, booksPerPage: int): (url: string)
    ensures search == "" <==> url == " "
    ensures search != "" ==> url == TitleSearchUrl(search, booksPerPage)
  {
    if search == "" then " " else TitleSearchUrl(search, booksPerPage)
  }

  // ---- category dropdown ----

  /**
   * Case-insensitive membership in the category whitelist: every spelling the dropdown
   * uses passes, and only values of two, four or six characters can.
   */
  predicate IsKnownCategory(value: string)
    ensures IsKnownCategory(value) ==> |value| == 2 || |value| == 4 || |value| == 6
  {
    ToLower(value) in KnownCategories
  }

  datatype CategoryChoice = CategoryChoice(category: string, searchUrl: string)

  /**
   * The dropdown handler's decision: a whitelisted value is kept as typed and filters by
   * category; anything else becomes "All" with the unfiltered first page.
   */
  function ChooseCategory(value: string, booksPerPage: int): (c: CategoryChoice)
    ensures c.category == value || c.category == "All"
    ensures IsKnownCategory(c.category) || c.category == "All"
    ensures IsKnownCategory(value) ==> c == CategoryChoice(value, CategorySearchUrl(value, booksPerPage))
    ensures !IsKnownCategory(value) ==> c == CategoryChoice("All", ListingQuery(0, booksPerPage))
  {
    if IsKnownCategory(value) then CategoryChoice(value, CategorySearchUrl(value, booksPerPage))
    else
      FirstListingQuery(booksPerPage);
      CategoryChoice("All", "?page=0&size=" + IntToString(booksPerPage))
  }

  /** The unfiltered listing query of page index 0, as the dropdown handler writes it. */
  lemma FirstListingQuery(size: int)
    ensures ListingQuery(0, size) == "?page=0&size=" + IntToString(size)
  {
    assert IntToString(0) == "0";
    assert "?page=" + "0" + "&size=" == "?page=0&size=";
  }

  /** The labels the dropdown offers: four are accepted, "All" is not. */
  lemma DropdownLabels()
    ensures IsKnownCategory("FE") && IsKnownCategory("BE")
    ensures IsKnownCategory("Data") && IsKnownCategory("DevOps")
    ensures !IsKnownCategory("All")
  {
    assert ToLower("FE") == "fe";
    assert ToLower("BE") == "be";
    assert ToLower("Data") == "data";
    assert ToLower("DevOps") == "devops";
    assert ToLower("All") == "all";
  }

  /** Choosing again what was chosen changes nothing. */
  lemma ChooseCategoryIdempotent(value: string, booksPerPage: int)
    ensures var c := ChooseCategory(value, booksPerPage);
      ChooseCategory(c.category, booksPerPage) == c
  {
    DropdownLabels();
  }

  /** Whatever is chosen, the result is one of the whitelist or "All" (case aside). */
  lemma ChosenCategoryIsClosed(value: string, booksPerPage: int)
    ensures ToLower(ChooseCategory(value, booksPerPage).category) in KnownCategories + {"all"}
  {
    assert ToLower("All") == "all";
  }

  /** "All" requests exactly the unfiltered listing of page 1. */
  lemma AllIsFirstListingPage(value: string, u: string, booksPerPage: int)
    requires !IsKnownCategory(value)
    ensures BaseUrl + ChooseCategory(value, booksPerPage).searchUrl == RequestUrl("", u, 1, booksPerPage)
  {
    assert IntToString(0) == "0";
  }

  // ---- caption ----

  /** "first to last of total items". */
  datatype Caption = Caption(first: int, last: int)

  /**
   * The caption over the current page: the page's first item (one-based) and the last
   * one, capped at the total.
   */
  function ItemRange(currentPage: int, booksPerPage: int, total: int): (c: Caption)
    ensures c.first == (currentPage - 1) * booksPerPage + 1
    ensures c.last <= total && c.last <= booksPerPage * currentPage
    ensures c.last == total || c.last == booksPerPage * currentPage
    ensures currentPage >= 1 && booksPerPage >= 1 && total >= c.first ==>
      1 <= c.first <= c.last < c.first + booksPerPage
  {
    var indexOfLastBook := currentPage * booksPerPage;
    var indexOfFirstBook := indexOfLastBook - booksPerPage;
    var lastItem := if booksPerPage * currentPage <= total then booksPerPage * currentPage else total;
    Caption(indexOfFirstBook + 1, lastItem)
  }

  /** The one-based page an item (one-based) falls on. */
  function PageOf(item: int, booksPerPage: int): int
    requires booksPerPage >= 1
  {
    (item - 1) / booksPerPage + 1
  }

  lemma MulMonotone(a: int, b: int, c: int)
    requires a <= b && c >= 0
    ensures a * c <= b * c
  {
  }

  /** The caption lists exactly the items that fall on the current page. */
  lemma CaptionListsPage(currentPage: int, booksPerPage: int, total: int, item: int)
    requires currentPage >= 1 && booksPerPage >= 1
    ensures var c := ItemRange(currentPage, booksPerPage, total);
      (c.first <= item <= c.last) <==> (1 <= item <= total && PageOf(item, booksPerPage) == currentPage)
  {
    var c := ItemRange(currentPage, booksPerPage, total);
    var q, r := (item - 1) / booksPerPage, (item - 1) % booksPerPage;
    assert item - 1 == q * booksPerPage + r && 0 <= r < booksPerPage;
    MulMonotone(0, currentPage - 1, booksPerPage);
    if q < currentPage - 1 {
      MulMonotone(q + 1, currentPage - 1, booksPerPage);
    } else if q > currentPage - 1 {
      MulMonotone(currentPage, q, booksPerPage);
    }
  }

  /** Page 1 of 12 results, five per page, reads "1 to 5 of 12 items". */
  lemma FirstPageCaption()
    ensures ItemRange(1, 5, 12) == Caption(1, 5)
  {
  }

  // ---- render ----

  datatype SearchView =
    | Spinner
    | ErrorMessage(message: string)
    | ResultList(dropdownLabel: string, count: int, range: Caption, books: seq<BookModel>, pager: bool)
    | NotFound(dropdownLabel: string, pager: bool)

  /**
   * What the page renders: the spinner while loading, else the error if one is set, else
   * the results (count, caption and cards) or the not-found block, with the pager below.
   */
  function Render(loading: bool, httpError: Option<string>, category: string, currentPage: int, booksPerPage: int,
                  total: int, totalPages: int, books: seq<BookModel>): (v: SearchView)
    ensures v.Spinner? <==> loading
    ensures v.ErrorMessage? <==> !loading && Truthy(httpError)
    ensures v.ErrorMessage? ==> Some(v.message) == httpError
    ensures v.ResultList? <==> !loading && !Truthy(httpError) && total > 0
    ensures v.NotFound? <==> !loading && !Truthy(httpError) && total <= 0
    ensures v.ResultList? ==>
      v.count == total && v.books == books && v.range == ItemRange(currentPage, booksPerPage, total)
    ensures (v.ResultList? || v.NotFound?) ==> (v.pager <==> totalPages > 1) && v.dropdownLabel == category
  {
    if loading then Spinner
    else if Truthy(httpError) then ErrorMessage(httpError.value)
    else if total > 0 then ResultList(category, total, ItemRange(currentPage, booksPerPage, total), books, totalPages > 1)
    else NotFound(category, totalPages > 1)
  }

  // ---- response mapping ----

  /** Copies each decoded book of the response into a view model, in order. */
  method LoadBooks(responseData: seq<RawBook>) returns (loadBooks: seq<BookModel>)
    ensures BooksCopied(responseData, loadBooks)
  {
    loadBooks := [];
    var key := 0;
    while key < |responseData|
      invariant 0 <= key <= |responseData|
      invariant BooksCopied(responseData[..key], loadBooks)
    {
      var b := responseData[key];
      loadBooks := loadBooks + [BookModel(b.id, b.title, b.author, b.description,
                                          b.copies, b.copiesAvailable, b.category, b.img)];
      key := key + 1;
    }
    assert responseData[..key] == responseData;
  }

  // ---- page state ----

  class SearchBooksPage {
    var books: seq<BookModel>
    var loading: bool
    var httpError: Option<string>
    var currentPage: int
    const booksPerPage: int := 5
    var totalAmountOfBooks: int
    var totalPages: int
    var search: string
    var searchUrl: string
    var category: string

    /** The dropdown label is the initial one, "All", or a whitelisted category. */
    ghost predicate Valid()
      reads this
    {
      category == InitialCategory || category == "All" || IsKnownCategory(category)
    }

    constructor ()
      ensures books == [] && loading && httpError == None
      ensures currentPage == 1 && totalAmountOfBooks == 0 && totalPages == 0
      ensures search == " " && searchUrl == "" && category == InitialCategory
      ensures Valid()
    {
      books := [];
      loading := true;
      httpError := None;
      currentPage := 1;
      totalAmountOfBooks := 0;
      totalPages := 0;
      search := " ";
      searchUrl := "";
      category := InitialCategory;
    }

    /** The URL the listing fetch requests from this state. */
    function Url(): string
      reads this
    {
      RequestUrl(search, searchUrl, currentPage, booksPerPage)
    }

    /**
     * What the page renders in this state; the dropdown button shows the initial label,
     * "All" or a whitelisted category.
     */
    function View(): (v: SearchView)
      requires Valid()
      reads this
      ensures (v.ResultList? || v.NotFound?) ==>
        v.dropdownLabel == InitialCategory || v.dropdownLabel == "All" || IsKnownCategory(v.dropdownLabel)
    {
      Render(loading, httpError, category, currentPage, booksPerPage, totalAmountOfBooks, totalPages, books)
    }

    /** The search box's change handler. */
    method SetSearch(text: string)
      requires Valid()
      requires !loading && !Truthy(httpError)
      modifies this
      ensures Valid()
      ensures search == text
      ensures books == old(books) && loading == old(loading) && httpError == old(httpError)
      ensures currentPage == old(currentPage) && totalAmountOfBooks == old(totalAmountOfBooks)
      ensures totalPages == old(totalPages) && searchUrl == old(searchUrl) && category == old(category)
    {
      search := text;
    }

    /** The search button: back to page 1 and a title search (or " " for an empty box). */
    method SearchHandleChanges()
      requires Valid()
      requires !loading && !Truthy(httpError)
      modifies this
      ensures Valid()
      ensures currentPage == 1
      ensures searchUrl == SubmittedSearchUrl(search, booksPerPage)
      ensures books == old(books) && loading == old(loading) && httpError == old(httpError)
      ensures totalAmountOfBooks == old(totalAmountOfBooks) && totalPages == old(totalPages)
      ensures search == old(search) && category == old(category)
    {
      currentPage := 1;
      if search == "" {
        searchUrl := " ";
      } else {
        searchUrl := TitleSearchUrl(search, booksPerPage);
      }
    }

    /** The category dropdown. */
    method CategoryField(value: string)
      requires Valid()
      requires !loading && !Truthy(httpError)
      modifies this
      ensures Valid()
      ensures CategoryChoice(category, searchUrl) == ChooseCategory(value, booksPerPage)
      ensures books == old(books) && loading == old(loading) && httpError == old(httpError)
      ensures currentPage == old(currentPage) && totalAmountOfBooks == old(totalAmountOfBooks)
      ensures totalPages == old(totalPages) && search == old(search)
    {
      var lower := ToLower(value);
      if lower == "fe" || lower == "be" || lower == "data" || lower == "devops" {
        category := value;
        searchUrl := CategorySearchUrl(value, booksPerPage);
      } else {
        category := "All";
        searchUrl := "?page=0&size=" + IntToString(booksPerPage);
      }
    }

    /** The pager: set the page and nothing else. */
    method Paginate(pageNumber: int)
      requires Valid()
      requires !loading && !Truthy(httpError)
      modifies this
      ensures Valid()
      ensures currentPage == pageNumber
      ensures books == old(books) && loading == old(loading) && httpError == old(httpError)
      ensures totalAmountOfBooks == old(totalAmountOfBooks) && totalPages == old(totalPages)
      ensures search == old(search) && searchUrl == old(searchUrl) && category == old(category)
    {
      currentPage := pageNumber;
    }

    /** The listing fetch answered: store the totals and the mapped books, stop loading. */
    method FetchSucceeded(totalElements: int, responseTotalPages: int, responseData: seq<RawBook>)
      requires Valid()
      modifies this
      ensures Valid()
      ensures totalAmountOfBooks == totalElements && totalPages == responseTotalPages
      ensures BooksCopied(responseData, books)
      ensures !loading && httpError == old(httpError)
      ensures currentPage == old(currentPage) && search == old(search)
      ensures searchUrl == old(searchUrl) && category == old(category)
    {
      totalAmountOfBooks := totalElements;
      totalPages := responseTotalPages;
      var loadBooks := LoadBooks(responseData);
      books := loadBooks;
      loading := false;
    }

    /** The listing fetch failed: stop loading and keep the message; nothing else changes. */
    method FetchFailed(failure: FetchFailure)
      requires Valid()
      modifies this
      ensures Valid()
      ensures !loading && httpError == Some(FailureMessage(failure))
      ensures books == old(books) && currentPage == old(currentPage)
      ensures totalAmountOfBooks == old(totalAmountOfBooks) && totalPages == old(totalPages)
      ensures search == old(search) && searchUrl == old(searchUrl) && category == old(category)
    {
      loading := false;
      httpError := Some(FailureMessage(failure));
    }
  }

  // ---- scenarios ----

  /**
   * First load answered with five of twelve books over three pages: twelve results, the
   * caption "1 to 5 of 12", the five cards and the pager.
   */
  method FirstLoadScenario(responseData: seq<RawBook>) returns (url: string, v: SearchView)
    requires |responseData| == 5
    ensures url == BaseUrl
    ensures v.ResultList? && v.count == 12 && v.range == Caption(1, 5) && v.pager
    ensures BooksCopied(responseData, v.books)
  {
    var page := new SearchBooksPage();
    url := page.Url();
    InitialRequestIsBareBase();
    page.FetchSucceeded(12, 3, responseData);
    v := page.View();
  }

  /**
   * Requests overlap: after a first load the pager moves twice, the fetch for one page
   * fails and the other's answer arrives later. The error stays: nothing resets
   * `httpError`, nor sets `loading` again.
   */
  method ErrorIsStickyScenario(first: seq<RawBook>, later: seq<RawBook>) returns (v: SearchView)
    ensures v == ErrorMessage(NotOkMessage)
  {
    var page := new SearchBooksPage();
    page.FetchSucceeded(12, 3, first);
    page.Paginate(2);
    page.Paginate(3);
    page.FetchFailed(NotOk);
    page.FetchSucceeded(12, 3, later);
    v := page.View();
  }

  /**
   * After a successful first load, a title search, then a page change: the request is the same as before the page
   * change (the fragment fixes page 0), although the current page is now 3.
   */
  method PagingDuringTitleSearchScenario(title: string, responseData: seq<RawBook>) returns (before: string, after: string, page: int)
    requires title != ""
    ensures before == after == BaseUrl + TitleSearchUrl(title, 5)
    ensures page == 3
  {
    var p := new SearchBooksPage();
    p.FetchSucceeded(|responseData|, 3, responseData);
    p.SetSearch(title);
    p.SearchHandleChanges();
    before := p.Url();
    p.Paginate(3);
    after := p.Url();
    page := p.currentPage;
  }
}
