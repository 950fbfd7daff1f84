/**
 * The browse page: book rows from the store are turned into display books,
 * narrowed by the search box and the filter bar, counted into pages, and the
 * rental / exchange buttons open their dialogs or the login dialog.
 */
module BooksPage {
  import opened Wrappers
  import opened Text
  import opened Lists
  import FilterBar

  type FilterOptions = FilterBar.FilterOptions

  /** A row of the `books` table, as far as the page reads it. */
  datatype BookRow = BookRow(
    id: string,
    title: string,
    author: string,
    coverImage: Option<string>,
    isAvailable: Option<bool>,
    ownerId: string,
    condition: string,
    rentalPrice: int,
    genre: Option<string>,
    isbn: Option<string>)

  /** The owner's profile joined in by the detail query. */
  datatype Profile = Profile(id: string, name: string, avatarUrl: Option<string>)

  datatype Owner = Owner(id: string, name: string, avatar: string)

  /** A book as the grid shows it. */
  datatype Book = Book(
    id: string,
    title: string,
    author: string,
    coverImage: string,
    isAvailable: Option<bool>,
    isOwner: bool,
    condition: string,
    rentalPrice: int,
    genre: Option<string>,
    isbn: Option<string>,
    owner: Option<Owner>)

  const PlaceholderCover: string := "https://images.unsplash.com/photo-1544947950-fa07a98d237f?q=80&w=1000"
  const PlaceholderAvatar: string := "https://api.dicebear.com/7.x/avataaars/svg?seed=owner"
  const LoadError: string := "Failed to load books. Please try again later."
  const BooksPerPage: nat := 10

  // ---------------------------------------------------------------------------
  // Transform

  /** The list transform: a book for each row, with no owner details. */
  function ToBook(row: BookRow, userId: Option<string>): (b: Book)
    ensures b.id == row.id && b.title == row.title && b.author == row.author
    ensures b.isOwner <==> userId == Some(row.ownerId)
    ensures b.coverImage == OrElse(row.coverImage, PlaceholderCover)
    ensures b.coverImage != ""
    ensures b.isAvailable == row.isAvailable && b.condition == row.condition && b.rentalPrice == row.rentalPrice
    ensures b.genre == row.genre && b.isbn == row.isbn
    ensures b.owner == None
  {
    Book(row.id, row.title, row.author, OrElse(row.coverImage, PlaceholderCover), row.isAvailable,
      userId == Some(row.ownerId), row.condition, row.rentalPrice, row.genre, row.isbn, None)
  }

  function Transform(rows: seq<BookRow>, userId: Option<string>): (books: seq<Book>)
    ensures |books| == |rows|
    ensures forall i :: 0 <= i < |rows| ==> books[i] == ToBook(rows[i], userId)
  {
    seq(|rows|, i requires 0 <= i < |rows| => ToBook(rows[i], userId))
  }

  /** The detail transform: like the list one, plus the owner when the profile join found one. */
  function ToDetailedBook(row: BookRow, profile: Option<Profile>, userId: Option<string>): (b: Book)
    ensures b == ToBook(row, userId).(owner := b.owner)
    ensures b.owner.Some? <==> profile.Some?
    ensures profile.Some? ==>
      b.owner.value.id == profile.value.id && b.owner.value.name == profile.value.name
      && b.owner.value.avatar == OrElse(profile.value.avatarUrl, PlaceholderAvatar)
  {
    var owner := match profile
      case Some(p) => Some(Owner(p.id, p.name, OrElse(p.avatarUrl, PlaceholderAvatar)))
      case None => None;
    ToBook(row, userId).(owner := owner)
  }

  // ---------------------------------------------------------------------------
  // Filtering

  /** The search box test: title or author ignoring case, a present ISBN by plain substring, anything else never. */
  predicate MatchesSearch(b: Book, term: string, searchType: string) {
    if searchType == "title" then IncludesIgnoringCase(b.title, term)
    else if searchType == "author" then IncludesIgnoringCase(b.author, term)
    else if searchType == "isbn" && Truthy(b.isbn) then Includes(b.isbn.value, term)
    else false
  }

  /** The price range is applied only when it differs from the widest setting [0, 50]. */
  predicate PriceFilterOn(f: FilterOptions) {
    f.priceRange.0 > 0 || f.priceRange.1 < 50
  }

  predicate SearchKeeps(b: Book, term: string, searchType: string) {
    term == "" || MatchesSearch(b, term, searchType)
  }

  predicate GenreKeeps(b: Book, f: FilterOptions) {
    f.genre == FilterBar.AllGenres || b.genre == Some(f.genre)
  }

  predicate ConditionKeeps(b: Book, f: FilterOptions) {
    f.condition == FilterBar.AllConditions || b.condition == f.condition
  }

  predicate PriceKeeps(b: Book, f: FilterOptions) {
    !PriceFilterOn(f) || (f.priceRange.0 <= b.rentalPrice && b.rentalPrice <= f.priceRange.1)
  }

  /** A book survives the page's filters exactly when it passes all four tests. */
  predicate Kept(b: Book, term: string, searchType: string, f: FilterOptions) {
    SearchKeeps(b, term, searchType) && GenreKeeps(b, f) && ConditionKeeps(b, f) && PriceKeeps(b, f)
  }

  /** The filter chain, one optional stage after another. */
  function FilterBooks(books: seq<Book>, term: string, searchType: string, f: FilterOptions): seq<Book> {
    var bySearch := if term != "" then Filter((b: Book) => MatchesSearch(b, term, searchType), books) else books;
    var byGenre := if f.genre != FilterBar.AllGenres then Filter((b: Book) => b.genre == Some(f.genre), bySearch) else bySearch;
    var byCondition := if f.condition != FilterBar.AllConditions then Filter((b: Book) => b.condition == f.condition, byGenre) else byGenre;
    if PriceFilterOn(f) then Filter((b: Book) => f.priceRange.0 <= b.rentalPrice && b.rentalPrice <= f.priceRange.1, byCondition)
    else byCondition
  }

  /** The chain is a single filter by `Kept`. */
  lemma FilterBooksIsKept(books: seq<Book>, term: string, searchType: string, f: FilterOptions)
    ensures FilterBooks(books, term, searchType, f) == Filter((b: Book) => Kept(b, term, searchType, f), books)
  {
    var s := (b: Book) => SearchKeeps(b, term, searchType);
    var sg := (b: Book) => SearchKeeps(b, term, searchType) && GenreKeeps(b, f);
    var sgc := (b: Book) => SearchKeeps(b, term, searchType) && GenreKeeps(b, f) && ConditionKeeps(b, f);
    FilterWhen(term != "", (b: Book) => MatchesSearch(b, term, searchType), s, books);
    FilterStage(f.genre != FilterBar.AllGenres, (b: Book) => b.genre == Some(f.genre), s, sg, books);
    FilterStage(f.condition != FilterBar.AllConditions, (b: Book) => b.condition == f.condition, sg, sgc, books);
    FilterStage(PriceFilterOn(f), (b: Book) => f.priceRange.0 <= b.rentalPrice && b.rentalPrice <= f.priceRange.1,
      sgc, (b: Book) => Kept(b, term, searchType, f), books);
  }

  /** The result keeps the transformed books' order and only leaves books out; a book is in it exactly when it is listed and kept. */
  lemma FilterBooksSubsequence(books: seq<Book>, term: string, searchType: string, f: FilterOptions)
    ensures IsSubsequence(FilterBooks(books, term, searchType, f), books)
    ensures forall b :: b in FilterBooks(books, term, searchType, f) <==> b in books && Kept(b, term, searchType, f)
  {
    FilterBooksIsKept(books, term, searchType, f);
    FilterIsSubsequence((b: Book) => Kept(b, term, searchType, f), books);
  }

  /** With a search term, title and author searches ignore case and an ISBN search needs a present ISBN and matches case as typed; other types keep nothing. */
  lemma SearchTypes(b: Book, term: string, searchType: string)
    requires term != ""
    ensures searchType == "title" ==> (SearchKeeps(b, term, searchType) <==> Includes(ToLower(b.title), ToLower(term)))
    ensures searchType == "author" ==> (SearchKeeps(b, term, searchType) <==> Includes(ToLower(b.author), ToLower(term)))
    ensures searchType == "isbn" ==> (SearchKeeps(b, term, searchType) <==> b.isbn.Some? && b.isbn.value != "" && Includes(b.isbn.value, term))
    ensures searchType !in {"title", "author", "isbn"} ==> !SearchKeeps(b, term, searchType)
  {
  }

  /** With the widest price range, a book priced above 50 is not filtered out for its price. */
  lemma DefaultRangeKeepsExpensive(b: Book, f: FilterOptions)
    requires f.priceRange == FilterBar.DefaultPrice && b.rentalPrice > 50
    ensures PriceKeeps(b, f)
  {
  }

  /** With a narrowed range, kept books lie inside it. */
  lemma NarrowedRangeBounds(b: Book, f: FilterOptions)
    requires PriceFilterOn(f) && PriceKeeps(b, f)
    ensures f.priceRange.0 <= b.rentalPrice <= f.priceRange.1
  {
  }

  /** With the default filter record and no search term, every book is shown. */
  lemma DefaultsKeepAll(books: seq<Book>, searchType: string)
    ensures FilterBooks(books, "", searchType, FilterBar.Defaults) == books
  {
    FilterBooksIsKept(books, "", searchType, FilterBar.Defaults);
    FilterAll((b: Book) => Kept(b, "", searchType, FilterBar.Defaults), books);
  }

  /** `Math.ceil(n / 10) || 1` */
  function TotalPages(n: nat): (p: nat)
    ensures p >= 1
    ensures n == 0 ==> p == 1
    ensures n > 0 ==> (p - 1) * 10 < n <= p * 10  // ten books per page, `BooksPerPage`
  {
    if n == 0 then 1 else (n + BooksPerPage - 1) / BooksPerPage
  }

  // ---------------------------------------------------------------------------
  // Requests

  /** `books.find((b: Book) => b.id === id)` */
  function FindById(books: seq<Book>, id: string): (r: Option<Book>)
    ensures r.Some? ==> r.value.id == id
    ensures r.Some? ==> exists i :: 0 <= i < |books| && books[i] == r.value && forall j :: 0 <= j < i ==> books[j].id != id
    ensures r.None? <==> forall i :: 0 <= i < |books| ==> books[i].id != id
  {
    if books == [] then None
    else if books[0].id == id then Some(books[0])
    else
      var r := FindById(books[1..], id);
      assert r.Some? ==> exists i :: 0 < i < |books| && books[i] == r.value && forall j :: 0 <= j < i ==> books[j].id != id by {
        if r.Some? {
          var k :| 0 <= k < |books[1..]| && books[1..][k] == r.value && forall j :: 0 <= j < k ==> books[1..][j].id != id;
          assert forall j :: 0 <= j < k + 1 ==> books[j].id != id by {
            forall j | 0 <= j < k + 1 ensures books[j].id != id {
              if j > 0 {
                assert books[j] == books[1..][j - 1];
              }
            }
          }
        }
      }
      r
  }

  /** What the rental dialog submits. */
  datatype RentalForm = RentalForm(bookId: string, from: Option<string>, to: Option<string>, message: Option<string>)

  /** The rental request sent to the store. */
  datatype RentalData = RentalData(
    bookId: string,
    requesterId: Option<string>,
    ownerId: Option<string>,
    startDate: Option<string>,
    endDate: Option<string>,
    status: string,
    message: string)

  /** What the exchange dialog submits. */
  datatype ExchangeForm = ExchangeForm(bookRequestedId: string, bookOfferedId: string, message: Option<string>)

  datatype ExchangeData = ExchangeData(
    bookRequestedId: string,
    bookOfferedId: string,
    requesterId: Option<string>,
    ownerId: Option<string>,
    status: string,
    message: string)

  /** `selectedBook?.owner?.id` */
  function SelectedOwnerId(selected: Option<Book>): (r: Option<string>)
    ensures r.Some? <==> selected.Some? && selected.value.owner.Some?
    ensures r.Some? ==> r.value == selected.value.owner.value.id
  {
    match selected
    case None => None
    case Some(b) => match b.owner { case None => None case Some(o) => Some(o.id) }
  }

  function BuildRentalData(data: RentalForm, userId: Option<string>, selected: Option<Book>): (r: RentalData)
    ensures r.status == "pending"
    ensures r.bookId == data.bookId && r.requesterId == userId && r.ownerId == SelectedOwnerId(selected)
    ensures r.startDate == data.from && r.endDate == data.to
    ensures r.message == OrElse(data.message, "") && (data.message.None? ==> r.message == "")
  {
    RentalData(data.bookId, userId, SelectedOwnerId(selected), data.from, data.to, "pending", OrElse(data.message, ""))
  }

  function BuildExchangeData(data: ExchangeForm, userId: Option<string>, selected: Option<Book>): (r: ExchangeData)
    ensures r.status == "pending"
    ensures r.bookRequestedId == data.bookRequestedId && r.bookOfferedId == data.bookOfferedId
    ensures r.requesterId == userId && r.ownerId == SelectedOwnerId(selected)
    ensures r.message == OrElse(data.message, "")
  {
    ExchangeData(data.bookRequestedId, data.bookOfferedId, userId, SelectedOwnerId(selected), "pending", OrElse(data.message, ""))
  }

  /**
   * A book picked from the grid comes from the list transform, which has no
   * owner details, so a rental request for it carries no owner id.
   */
  lemma GridRentalHasNoOwner(rows: seq<BookRow>, userId: Option<string>, term: string, searchType: string,
                             f: FilterOptions, id: string, data: RentalForm)
    requires FindById(FilterBooks(Transform(rows, userId), term, searchType, f), id).Some?
    ensures BuildRentalData(data, userId, FindById(FilterBooks(Transform(rows, userId), term, searchType, f), id)).ownerId == None
  {
    var books := Transform(rows, userId);
    FilterBooksSubsequence(books, term, searchType, f);
    var b := FindById(FilterBooks(books, term, searchType, f), id).value;
    assert b in books;
  }

  /** The `owner_id` of the first listed row with the id, which the list query did fetch. */
  function RowOwner(rows: seq<BookRow>, bookId: string): (r: Option<string>)
    ensures r.Some? ==> exists i :: 0 <= i < |rows| && rows[i].id == bookId && rows[i].ownerId == r.value
    ensures r.None? <==> forall i :: 0 <= i < |rows| ==> rows[i].id != bookId
  {
    if rows == [] then None
    else if rows[0].id == bookId then Some(rows[0].ownerId)
    else
      RowOwner(rows[1..], bookId)
  }

  /** The rental request evidently intended: the owner is the owner of the requested book's row. */
  function CorrectedRentalData(data: RentalForm, userId: Option<string>, rows: seq<BookRow>): RentalData {
    BuildRentalData(data, userId, None).(ownerId := RowOwner(rows, data.bookId))
  }

  /** With the correction, a rental started from the grid names the book's owner. */
  lemma CorrectedGridRentalHasOwner(rows: seq<BookRow>, userId: Option<string>, term: string, searchType: string,
                                    f: FilterOptions, data: RentalForm)
    requires FindById(FilterBooks(Transform(rows, userId), term, searchType, f), data.bookId).Some?
    ensures CorrectedRentalData(data, userId, rows).ownerId.Some?
    ensures exists i :: 0 <= i < |rows| && rows[i].id == data.bookId && rows[i].ownerId == CorrectedRentalData(data, userId, rows).ownerId.value
  {
    var books := Transform(rows, userId);
    FilterBooksSubsequence(books, term, searchType, f);
    var b := FindById(FilterBooks(books, term, searchType, f), data.bookId).value;
    assert b in books;
    var i :| 0 <= i < |books| && books[i] == b;
    assert rows[i].id == data.bookId;
  }

  // ---------------------------------------------------------------------------
  // The page

  /** The outcome of the list query. */
  datatype FetchResponse = FetchFailed | NoData | Rows(rows: seq<BookRow>)

  /** The outcome of the detail query. */
  datatype DetailResponse = DetailFailed | NoDetail | Detail(row: BookRow, profile: Option<Profile>)

  /** The client-side filter stages of `fetchBooks`, each applied only when its setting is not the default. */
  method ApplyFilters(transformedBooks: seq<Book>, term: string, kind: string, f: FilterOptions)
    returns (filteredBooks: seq<Book>)
    ensures filteredBooks == FilterBooks(transformedBooks, term, kind, f)
  {
    filteredBooks := transformedBooks;
    if term != "" {
      filteredBooks := Filter((b: Book) => MatchesSearch(b, term, kind), filteredBooks);
    }
    if f.genre != FilterBar.AllGenres {
      filteredBooks := Filter((b: Book) => b.genre == Some(f.genre), filteredBooks);
    }
    if f.condition != FilterBar.AllConditions {
      filteredBooks := Filter((b: Book) => b.condition == f.condition, filteredBooks);
    }
    if PriceFilterOn(f) {
      filteredBooks := Filter((b: Book) => f.priceRange.0 <= b.rentalPrice && b.rentalPrice <= f.priceRange.1, filteredBooks);
    }
  }

  class BooksPageState {
    const userId: Option<string>
    var books: seq<Book>
    var isLoading: bool
    var error: string
    var currentPage: int
    var totalPages: nat
    var selectedBook: Option<Book>
    var showBookDetail: bool
    var showRentalModal: bool
    var showExchangeModal: bool
    var showAuthModal: bool
    var authModalTab: string
    var searchTerm: string
    var searchType: string
    var filters: FilterOptions

    /** There is always at least one page, and a request dialog only opens on a selected book. */
    ghost predicate Valid()
      reads this
    {
      && totalPages >= 1
      && (showRentalModal ==> selectedBook.Some?)
      && (showExchangeModal ==> selectedBook.Some?)
    }

    constructor (userId: Option<string>)
      ensures Valid()
      ensures this.userId == userId && books == [] && isLoading && error == ""
      ensures currentPage == 1 && totalPages == 1 && selectedBook == None
      ensures !showBookDetail && !showRentalModal && !showExchangeModal && !showAuthModal
      ensures searchTerm == "" && searchType == "title" && filters == FilterBar.Defaults
    {
      this.userId := userId;
      books := [];
      isLoading := true;
      error := "";
      currentPage := 1;
      totalPages := 1;
      selectedBook := None;
      showBookDetail := false;
      showRentalModal := false;
      showExchangeModal := false;
      showAuthModal := false;
      authModalTab := "login";
      searchTerm := "";
      searchType := "title";
      filters := FilterBar.Defaults;
    }

    /** `fetchBooks()`, given what the list query returned. */
    method FetchBooks(response: FetchResponse)
      requires Valid()
      modifies this
      ensures Valid()
      ensures !isLoading
      ensures response.FetchFailed? ==> error == LoadError && books == old(books) && totalPages == old(totalPages)
      ensures response.NoData? ==> error == "" && books == old(books) && totalPages == old(totalPages)
      ensures response.Rows? ==>
        error == ""
        && books == FilterBooks(Transform(response.rows, userId), searchTerm, searchType, filters)
        && totalPages == TotalPages(|books|)
      ensures currentPage == old(currentPage) && selectedBook == old(selectedBook)
      ensures showRentalModal == old(showRentalModal) && showExchangeModal == old(showExchangeModal)
      ensures searchTerm == old(searchTerm) && searchType == old(searchType) && filters == old(filters)
      ensures showBookDetail == old(showBookDetail)
      ensures showAuthModal == old(showAuthModal) && authModalTab == old(authModalTab)
    {
      isLoading := true;
      error := "";
      match response {
        case FetchFailed =>
          error := LoadError;
        case NoData =>
        case Rows(rows) =>
          var filteredBooks := ApplyFilters(Transform(rows, userId), searchTerm, searchType, filters);
          books := filteredBooks;
          totalPages := TotalPages(|filteredBooks|);
      }
      isLoading := false;
    }

    /** `handleBookClick(id)`, given what the detail query returned. */
    method HandleBookClick(response: DetailResponse)
      requires Valid()
      modifies this
      ensures Valid()
      ensures response.Detail? ==> selectedBook == Some(ToDetailedBook(response.row, response.profile, userId)) && showBookDetail
      ensures !response.Detail? ==> selectedBook == old(selectedBook) && showBookDetail == old(showBookDetail)
      ensures books == old(books) && currentPage == old(currentPage) && totalPages == old(totalPages)
      ensures showRentalModal == old(showRentalModal) && showExchangeModal == old(showExchangeModal)
      ensures isLoading == old(isLoading) && error == old(error)
      ensures showAuthModal == old(showAuthModal) && authModalTab == old(authModalTab)
      ensures searchTerm == old(searchTerm) && searchType == old(searchType) && filters == old(filters)
    {
      if response.Detail? {
        selectedBook := Some(ToDetailedBook(response.row, response.profile, userId));
        showBookDetail := true;
      }
    }

    /** `handleRentalRequest(id)`: no user opens the login dialog; otherwise a listed book opens the rental dialog. */
    method HandleRentalRequest(bookId: string)
      requires Valid()
      modifies this
      ensures Valid()
      ensures userId.None? ==>
        showAuthModal && authModalTab == "login" && showRentalModal == old(showRentalModal) && selectedBook == old(selectedBook)
      ensures userId.Some? && FindById(books, bookId).Some? ==>
        selectedBook == FindById(books, bookId) && showRentalModal && showAuthModal == old(showAuthModal)
      ensures userId.Some? && FindById(books, bookId).None? ==>
        selectedBook == old(selectedBook) && showRentalModal == old(showRentalModal) && showAuthModal == old(showAuthModal)
      ensures books == old(books) && showExchangeModal == old(showExchangeModal)
      ensures currentPage == old(currentPage) && totalPages == old(totalPages)
      ensures showBookDetail == old(showBookDetail)
      ensures isLoading == old(isLoading) && error == old(error)
      ensures searchTerm == old(searchTerm) && searchType == old(searchType) && filters == old(filters)
      ensures userId.Some? ==> authModalTab == old(authModalTab)
    {
      if userId.None? {
        authModalTab := "login";
        showAuthModal := true;
        return;
      }
      var book := FindById(books, bookId);
      if book.Some? {
        selectedBook := book;
        showRentalModal := true;
      }
    }

    /** `handleExchangeProposal(id)`: the same guard, opening the exchange dialog. */
    method HandleExchangeProposal(bookId: string)
      requires Valid()
      modifies this
      ensures Valid()
      ensures userId.None? ==>
        showAuthModal && authModalTab == "login" && showExchangeModal == old(showExchangeModal) && selectedBook == old(selectedBook)
      ensures userId.Some? && FindById(books, bookId).Some? ==>
        selectedBook == FindById(books, bookId) && showExchangeModal && showAuthModal == old(showAuthModal)
      ensures userId.Some? && FindById(books, bookId).None? ==>
        selectedBook == old(selectedBook) && showExchangeModal == old(showExchangeModal) && showAuthModal == old(showAuthModal)
      ensures books == old(books) && showRentalModal == old(showRentalModal)
      ensures currentPage == old(currentPage) && totalPages == old(totalPages)
      ensures showBookDetail == old(showBookDetail)
      ensures isLoading == old(isLoading) && error == old(error)
      ensures searchTerm == old(searchTerm) && searchType == old(searchType) && filters == old(filters)
      ensures userId.Some? ==> authModalTab == old(authModalTab)
    {
      if userId.None? {
        authModalTab := "login";
        showAuthModal := true;
        return;
      }
      var book := FindById(books, bookId);
      if book.Some? {
        selectedBook := book;
        showExchangeModal := true;
      }
    }

    /** `handleSearch(term, type)`: a new search goes back to page 1. */
    method HandleSearch(term: string, searchType: string)
      requires Valid()
      modifies this
      ensures Valid()
      ensures this.searchTerm == term && this.searchType == searchType && currentPage == 1
      ensures filters == old(filters) && books == old(books) && totalPages == old(totalPages)
      ensures selectedBook == old(selectedBook) && showRentalModal == old(showRentalModal) && showExchangeModal == old(showExchangeModal)
      ensures showBookDetail == old(showBookDetail)
      ensures isLoading == old(isLoading) && error == old(error)
      ensures showAuthModal == old(showAuthModal) && authModalTab == old(authModalTab)
    {
      this.searchTerm := term;
      this.searchType := searchType;
      currentPage := 1;
    }

    /** `handleFilterChange(filters)`: a filter change goes back to page 1. */
    method HandleFilterChange(newFilters: FilterOptions)
      requires Valid()
      modifies this
      ensures Valid()
      ensures filters == newFilters && currentPage == 1
      ensures searchTerm == old(searchTerm) && searchType == old(searchType) && books == old(books) && totalPages == old(totalPages)
      ensures selectedBook == old(selectedBook) && showRentalModal == old(showRentalModal) && showExchangeModal == old(showExchangeModal)
      ensures showBookDetail == old(showBookDetail)
      ensures isLoading == old(isLoading) && error == old(error)
      ensures showAuthModal == old(showAuthModal) && authModalTab == old(authModalTab)
    {
      filters := newFilters;
      currentPage := 1;
    }

    /** `handleRentalSubmit(data)`: the request sent; the dialog closes only when the store accepted it. */
    method HandleRentalSubmit(data: RentalForm, createFailed: bool) returns (sent: RentalData)
      requires Valid()
      modifies this
      ensures Valid()
      ensures sent == BuildRentalData(data, userId, old(selectedBook)) && sent.status == "pending"
      ensures showRentalModal == (old(showRentalModal) && createFailed)
      ensures selectedBook == old(selectedBook) && books == old(books) && totalPages == old(totalPages)
      ensures showExchangeModal == old(showExchangeModal)
      ensures currentPage == old(currentPage) && showBookDetail == old(showBookDetail)
      ensures isLoading == old(isLoading) && error == old(error)
      ensures showAuthModal == old(showAuthModal) && authModalTab == old(authModalTab)
      ensures searchTerm == old(searchTerm) && searchType == old(searchType) && filters == old(filters)
    {
      sent := BuildRentalData(data, userId, selectedBook);
      if !createFailed {
        showRentalModal := false;
      }
    }

    /** `handleExchangeSubmit(data)` */
    method HandleExchangeSubmit(data: ExchangeForm, createFailed: bool) returns (sent: ExchangeData)
      requires Valid()
      modifies this
      ensures Valid()
      ensures sent == BuildExchangeData(data, userId, old(selectedBook)) && sent.status == "pending"
      ensures showExchangeModal == (old(showExchangeModal) && createFailed)
      ensures selectedBook == old(selectedBook) && books == old(books) && totalPages == old(totalPages)
      ensures showRentalModal == old(showRentalModal)
      ensures currentPage == old(currentPage) && showBookDetail == old(showBookDetail)
      ensures isLoading == old(isLoading) && error == old(error)
      ensures showAuthModal == old(showAuthModal) && authModalTab == old(authModalTab)
      ensures searchTerm == old(searchTerm) && searchType == old(searchType) && filters == old(filters)
    {
      sent := BuildExchangeData(data, userId, selectedBook);
      if !createFailed {
        showExchangeModal := false;
      }
    }
  }
}
