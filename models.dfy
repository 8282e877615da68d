/**
 * The records the two pages receive from the REST API (already decoded from JSON) and
 * the view models (`BookModel`, `ReviewModel`) they copy them into, plus the outcome of
 * a failed fetch.
 */
module Models {
  import opened Wrappers

  /** A book object as the API sends it. `img` may be absent or null. */
  datatype RawBook = RawBook(
    id: int, title: string, author: string, description: string,
    copies: int, copiesAvailable: int, category: string, img: Option<string>)

  /** The front end's view model of a book. */
  datatype BookModel = BookModel(
    id: int, title: string, author: string, description: string,
    copies: int, copiesAvailable: int, category: string, img: Option<string>)

  /** A review object as the API sends it; the owning book is `bookId`. */
  datatype RawReview = RawReview(
    id: int, userEmail: string, date: string, rating: real,
    bookId: int, reviewDescription: string)

  /** The front end's view model of a review; the owning book is `book_id`. */
  datatype ReviewModel = ReviewModel(
    id: int, userEmail: string, date: string, rating: real,
    book_id: int, reviewDescription: string)

  /** `m` holds the eight fields of `raw`, each unchanged. */
  predicate BookCopied(raw: RawBook, m: BookModel) {
    && m.id == raw.id && m.title == raw.title && m.author == raw.author
    && m.description == raw.description && m.copies == raw.copies
    && m.copiesAvailable == raw.copiesAvailable && m.category == raw.category
    && m.img == raw.img
  }

  /** `m` holds the fields of `raw`, its `bookId` copied into `book_id`. */
  predicate ReviewCopied(raw: RawReview, m: ReviewModel) {
    && m.id == raw.id && m.userEmail == raw.userEmail && m.date == raw.date
    && m.rating == raw.rating && m.book_id == raw.bookId
    && m.reviewDescription == raw.reviewDescription
  }

  /** One view model per record, in the same order. */
  predicate BooksCopied(raw: seq<RawBook>, models: seq<BookModel>) {
    |models| == |raw| && forall i :: 0 <= i < |raw| ==> BookCopied(raw[i], models[i])
  }

  predicate ReviewsCopied(raw: seq<RawReview>, models: seq<ReviewModel>) {
    |models| == |raw| && forall i :: 0 <= i < |raw| ==> ReviewCopied(raw[i], models[i])
  }

  /** Copying determines the view models completely: there is one mapping of a response. */
  lemma BooksCopiedUnique(raw: seq<RawBook>, a: seq<BookModel>, b: seq<BookModel>)
    requires BooksCopied(raw, a) && BooksCopied(raw, b)
    ensures a == b
  {
    assert forall i :: 0 <= i < |a| ==> a[i] == b[i];
  }

  lemma ReviewsCopiedUnique(raw: seq<RawReview>, a: seq<ReviewModel>, b: seq<ReviewModel>)
    requires ReviewsCopied(raw, a) && ReviewsCopied(raw, b)
    ensures a == b
  {
    assert forall i :: 0 <= i < |a| ==> a[i] == b[i];
  }

  /** JavaScript truthiness of a string that may be null: present and not empty. */
  predicate Truthy(s: Option<string>)
    ensures !Truthy(s) <==> s == None || s == Some("")
  {
    s.Some? && s.value != ""
  }

  const NotOkMessage := "Something went wrong!"

  /**
   * Why a fetch failed: the response was not ok (the page throws its fixed message), or
   * the request or decoding threw some other error with its own message.
   */
  datatype FetchFailure = NotOk | Thrown(message: string)

  /** `error.message` as the page's catch handler receives it. */
  function FailureMessage(f: FetchFailure): (m: string)
    ensures f.NotOk? ==> m == NotOkMessage && m != ""
    ensures f.Thrown? ==> m == f.message
  {
    match f
    case NotOk => NotOkMessage
    case Thrown(message) => message
  }
}
