/**
 * The books screen of the app router: stored rows become books with a
 * placeholder cover and a zero default price, a click selects a listed book,
 * and adding a book needs a signed-in user and a title, author and
 * condition before the insert record is built.
 */
module AppBooksPage {
  import opened Wrappers
  import opened Text
  import opened BookTypes
  import opened Toasts
  import opened Promises

  const PlaceholderCover: string := "https://via.placeholder.com/300x450?text=No+Cover"
  const LoginMessage: string := "You must be logged in to add a book"
  const RequiredMessage: string := "Title, author, and condition are required"
  const FetchFailedMessage: string := "Failed to fetch books"
  const AddedMessage: string := "Book added successfully"
  const AddFailedMessage: string := "Failed to add book"

  /** A stored row as the list query returns it; the price can come back empty. */
  datatype BookRow = BookRow(
    id: string,
    title: string,
    author: string,
    description: Option<string>,
    isbn: Option<string>,
    coverImage: Option<string>,
    genre: Option<seq<string>>,
    condition: string,
    rentalPrice: Option<int>,
    ownerId: string,
    status: BookStatus,
    location: Option<string>)

  /** The row transform: every field copied, except a missing or empty cover and a missing price. */
  function ToBook(row: BookRow): (b: Book)
    ensures b.coverImage.Some? && b.coverImage.value != ""
    ensures Truthy(row.coverImage) ==> b.coverImage == row.coverImage
    ensures !Truthy(row.coverImage) ==> b.coverImage == Some(PlaceholderCover)
    ensures b.rentalPrice == (if row.rentalPrice.Some? then row.rentalPrice.value else 0)
    ensures b.id == row.id && b.title == row.title && b.author == row.author && b.ownerId == row.ownerId
    ensures b.genre == row.genre && b.condition == row.condition && b.status == row.status
    ensures b.description == row.description && b.isbn == row.isbn && b.location == row.location
  {
    Book(row.id, row.title, row.author, row.description, row.isbn,
      if Truthy(row.coverImage) then row.coverImage else Some(PlaceholderCover),
      row.genre, row.condition,
      match row.rentalPrice { case Some(p) => p case None => 0 },
      row.ownerId, row.status, row.location)
  }

  function Transform(rows: seq<BookRow>): (books: seq<Book>)
    ensures |books| == |rows|
    ensures forall i :: 0 <= i < |rows| ==> books[i] == ToBook(rows[i])
  {
    seq(|rows|, i requires 0 <= i < |rows| => ToBook(rows[i]))
  }

  /** Transforming a book again, seen as a row, changes nothing. */
  lemma ToBookIdempotent(row: BookRow)
    ensures var b := ToBook(row);
      ToBook(BookRow(b.id, b.title, b.author, b.description, b.isbn, b.coverImage, b.genre, b.condition,
        Some(b.rentalPrice), b.ownerId, b.status, b.location)) == b
  {
  }

  /** `books.find(b => b.id === id)` */
  function FindById(books: seq<Book>, id: string): (r: Option<Book>)
    ensures r.Some? ==> r.value.id == id
    ensures r.Some? ==> exists i :: 0 <= i < |books| && books[i] == r.value && forall j :: 0 <= j < i ==> books[j].id != id
    ensures r.None? <==> forall i :: 0 <= i < |books| ==> books[i].id != id
  {
    if books == [] then None
    else if books[0].id == id then Some(books[0])
    else
      var r := FindById(books[1..], id);
      assert r.Some? ==> exists i :: 0 < i < |books| && books[i] == r.value && forall j :: 0 <= j < i ==> books[j].id != id by {
        if r.Some? {
          var k :| 0 <= k < |books[1..]| && books[1..][k] == r.value && forall j :: 0 <= j < k ==> books[1..][j].id != id;
          assert forall j :: 0 <= j < k + 1 ==> books[j].id != id by {
            forall j | 0 <= j < k + 1 ensures books[j].id != id {
              if j > 0 {
                assert books[j] == books[1..][j - 1];
              }
            }
          }
        }
      }
      r
  }

  // ---------------------------------------------------------------------------
  // Adding a book

  /** What the form hands to `handleAddBook`: any field may be missing. */
  datatype PartialForm = PartialForm(
    title: Option<string>,
    author: Option<string>,
    description: Option<string>,
    coverImage: Option<string>,
    condition: Option<string>,
    genre: Option<seq<string>>,
    rentalPrice: Option<int>,
    isbn: Option<string>,
    location: Option<string>)

  /** `x || null` for optional text: an empty string is stored as null. */
  function OrNull(s: Option<string>): (r: Option<string>)
    ensures r.Some? <==> Truthy(s)
    ensures r.Some? ==> r == s
  {
    if Truthy(s) then s else None
  }

  /** The guards, then the insert record; `now` stands for the current time as an ISO string. */
  function BuildInsert(data: PartialForm, userId: Option<string>, now: string): (r: Result<BookInsert, string>)
    ensures userId.None? ==> r == Err(LoginMessage)
    ensures userId.Some? ==>
      (r.Err? <==> !Truthy(data.title) || !Truthy(data.author) || !Truthy(data.condition))
    ensures userId.Some? && r.Err? ==> r.error == RequiredMessage
    ensures r.Ok? ==>
      && r.value.ownerId == userId.value
      && r.value.status == Available
      && r.value.title == data.title.value && r.value.author == data.author.value
      && r.value.condition == data.condition.value
      && r.value.rentalPrice == (if data.rentalPrice.Some? then data.rentalPrice.value else 0)
      && r.value.genre == data.genre
      && r.value.description == OrNull(data.description) && r.value.coverImage == OrNull(data.coverImage)
      && r.value.isbn == OrNull(data.isbn) && r.value.location == OrNull(data.location)
      && r.value.createdAt == now && r.value.updatedAt == now
  {
    if userId.None? then Err(LoginMessage)
    else if !Truthy(data.title) || !Truthy(data.author) || !Truthy(data.condition) then Err(RequiredMessage)
    else Ok(BookInsert(
      data.title.value, data.author.value, OrNull(data.description), OrNull(data.coverImage), userId.value,
      data.condition.value, data.genre,
      match data.rentalPrice { case Some(p) => p case None => 0 },
      OrNull(data.isbn), Available, OrNull(data.location), now, now))
  }

  class AppBooksState {
    var books: seq<Book>
    var selectedBook: Option<Book>
    var isDetailModalOpen: bool
    var isLoading: bool
    var toasts: seq<Toast>
    /** How many list refreshes the page has asked for. */
    var refreshes: nat

    /** The detail dialog is only open on a selected book. */
    ghost predicate Valid()
      reads this
    {
      isDetailModalOpen ==> selectedBook.Some?
    }

    constructor ()
      ensures Valid()
      ensures books == [] && selectedBook == None && !isDetailModalOpen && isLoading && toasts == [] && refreshes == 0
    {
      books := [];
      selectedBook := None;
      isDetailModalOpen := false;
      isLoading := true;
      toasts := [];
      refreshes := 0;
    }

    /** `fetchBooks()`, given the rows returned, or `None` when the query failed. */
    method FetchBooks(response: Option<seq<BookRow>>)
      requires Valid()
      modifies this
      ensures Valid()
      ensures !isLoading
      ensures response.Some? ==> books == Transform(response.value) && toasts == old(toasts)
      ensures response.None? ==> books == old(books) && toasts == old(toasts) + [Toast("Error", FetchFailedMessage, true)]
      ensures selectedBook == old(selectedBook) && isDetailModalOpen == old(isDetailModalOpen) && refreshes == old(refreshes)
    {
      isLoading := true;
      if response.Some? {
        books := Transform(response.value);
      } else {
        toasts := toasts + [Toast("Error", FetchFailedMessage, true)];
      }
      isLoading := false;
    }

    /** `handleBookClick(id)`: a listed book is selected and shown; an unknown id changes nothing. */
    method HandleBookClick(bookId: string)
      requires Valid()
      modifies this
      ensures Valid()
      ensures FindById(old(books), bookId).Some? ==> selectedBook == FindById(old(books), bookId) && isDetailModalOpen
      ensures FindById(old(books), bookId).None? ==> selectedBook == old(selectedBook) && isDetailModalOpen == old(isDetailModalOpen)
      ensures books == old(books) && toasts == old(toasts) && refreshes == old(refreshes) && isLoading == old(isLoading)
    {
      var book := FindById(books, bookId);
      if book.Some? {
        selectedBook := book;
        isDetailModalOpen := true;
      }
    }

    /**
     * `handleAddBook(data)`, given the signed-in user, the time, and how the
     * store's insert settled. Returns the record sent.
     */
    method HandleAddBook(data: PartialForm, userId: Option<string>, now: string, createResult: Settled)
      returns (sent: Option<BookInsert>)
      requires Valid()
      modifies this
      ensures Valid()
      ensures BuildInsert(data, userId, now).Err? ==>
        sent == None && refreshes == old(refreshes)
        && toasts == old(toasts) + [Toast("Error", BuildInsert(data, userId, now).error, true)]
      ensures BuildInsert(data, userId, now).Ok? ==> sent == Some(BuildInsert(data, userId, now).value)
      ensures BuildInsert(data, userId, now).Ok? && createResult.Resolved? ==>
        toasts == old(toasts) + [Toast("Success", AddedMessage, false)] && refreshes == old(refreshes) + 1
      ensures BuildInsert(data, userId, now).Ok? && createResult.RejectedWithError? ==>
        toasts == old(toasts) + [Toast("Error", createResult.message, true)] && refreshes == old(refreshes)
      ensures BuildInsert(data, userId, now).Ok? && createResult.RejectedOther? ==>
        toasts == old(toasts) + [Toast("Error", AddFailedMessage, true)] && refreshes == old(refreshes)
      ensures books == old(books) && selectedBook == old(selectedBook) && isDetailModalOpen == old(isDetailModalOpen)
      ensures isLoading == old(isLoading)
    {
      sent := None;
      if userId.None? {
        toasts := toasts + [Toast("Error", LoginMessage, true)];
        return;
      }
      if !Truthy(data.title) || !Truthy(data.author) || !Truthy(data.condition) {
        toasts := toasts + [Toast("Error", RequiredMessage, true)];
        return;
      }
      var bookData := BookInsert(
        data.title.value, data.author.value, OrNull(data.description), OrNull(data.coverImage), userId.value,
        data.condition.value, data.genre,
        match data.rentalPrice { case Some(p) => p case None => 0 },
        OrNull(data.isbn), Available, OrNull(data.location), now, now);
      sent := Some(bookData);
      match createResult {
        case Resolved =>
          toasts := toasts + [Toast("Success", AddedMessage, false)];
          refreshes := refreshes + 1;
        case RejectedWithError(message) =>
          toasts := toasts + [Toast("Error", message, true)];
        case RejectedOther =>
          toasts := toasts + [Toast("Error", AddFailedMessage, true)];
      }
    }
  }
}
