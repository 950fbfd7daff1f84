/**
 * The admin dashboard: the four statistics, the user, book and transaction
 * tables with one shared search box, the status changes offered per
 * transaction, and the status update, which writes the table of the
 * transaction's kind.
 */
module AdminDashboard {
  import opened Wrappers
  import opened Text
  import opened Lists
  import opened Tables

  // ---------------------------------------------------------------------------
  // Data

  /** A profile row; its name and email may be missing. */
  datatype AdminUser = AdminUser(id: string, name: Option<string>, email: Option<string>)

  /** A book row; its title and author may be missing. */
  datatype AdminBook = AdminBook(id: string, title: Option<string>, author: Option<string>, condition: string)

  /** A row of the combined transactions table. */
  datatype AdminTransaction = AdminTransaction(
    id: string, kind: Kind, status: string, date: string,
    book: string, requester: string, owner: string, details: string)

  datatype Stats = Stats(totalUsers: nat, totalBooks: nat, activeRentals: nat, completedExchanges: nat)

  // ---------------------------------------------------------------------------
  // Search

  /** `field?.toLowerCase().includes(term.toLowerCase())`: a missing field never matches. */
  predicate FieldMatches(field: Option<string>, term: string) {
    field.Some? && IncludesIgnoringCase(field.value, term)
  }

  predicate UserMatches(term: string, u: AdminUser) {
    FieldMatches(u.name, term) || FieldMatches(u.email, term)
  }

  predicate BookMatches(term: string, b: AdminBook) {
    FieldMatches(b.title, term) || FieldMatches(b.author, term)
  }

  predicate TransactionMatches(term: string, t: AdminTransaction) {
    IncludesIgnoringCase(t.book, term) || IncludesIgnoringCase(t.requester, term) || IncludesIgnoringCase(t.owner, term)
  }

  /** `filteredUsers`: the users whose name or email contains the term, ignoring case, in their order. */
  function FilteredUsers(users: seq<AdminUser>, term: string): (r: seq<AdminUser>)
    ensures forall u :: u in r <==> u in users && UserMatches(term, u)
    ensures IsSubsequence(r, users)
    ensures forall u :: Occurrences(r, u) == if UserMatches(term, u) then Occurrences(users, u) else 0
  {
    var keep := (u: AdminUser) => UserMatches(term, u);
    FilterIsSubsequence(keep, users);
    FilterMembership(keep, users);
    forall u ensures Occurrences(Filter(keep, users), u) == if UserMatches(term, u) then Occurrences(users, u) else 0 {
      FilterOccurrences(keep, users, u);
    }
    Filter(keep, users)
  }

  /** `filteredBooks`: the books whose title or author contains the term, ignoring case, in their order. */
  function FilteredBooks(books: seq<AdminBook>, term: string): (r: seq<AdminBook>)
    ensures forall b :: b in r <==> b in books && BookMatches(term, b)
    ensures IsSubsequence(r, books)
    ensures forall b :: Occurrences(r, b) == if BookMatches(term, b) then Occurrences(books, b) else 0
  {
    var keep := (b: AdminBook) => BookMatches(term, b);
    FilterIsSubsequence(keep, books);
    FilterMembership(keep, books);
    forall b ensures Occurrences(Filter(keep, books), b) == if BookMatches(term, b) then Occurrences(books, b) else 0 {
      FilterOccurrences(keep, books, b);
    }
    Filter(keep, books)
  }

  /** `filteredTransactions`: the rows whose book, requester or owner contains the term, ignoring case. */
  function FilteredTransactions(ts: seq<AdminTransaction>, term: string): (r: seq<AdminTransaction>)
    ensures forall t :: t in r <==> t in ts && TransactionMatches(term, t)
    ensures IsSubsequence(r, ts)
    ensures forall t :: Occurrences(r, t) == if TransactionMatches(term, t) then Occurrences(ts, t) else 0
  {
    var keep := (t: AdminTransaction) => TransactionMatches(term, t);
    FilterIsSubsequence(keep, ts);
    FilterMembership(keep, ts);
    forall t ensures Occurrences(Filter(keep, ts), t) == if TransactionMatches(term, t) then Occurrences(ts, t) else 0 {
      FilterOccurrences(keep, ts, t);
    }
    Filter(keep, ts)
  }

  lemma MatchesEmpty(s: string)
    ensures IncludesIgnoringCase(s, "")
  {
    assert ToLower("") == "";
    IncludesEmpty(ToLower(s));
  }

  /**
   * With an empty search box every transaction is listed, but a user with
   * neither name nor email, and a book with neither title nor author, is not.
   */
  lemma EmptySearch(users: seq<AdminUser>, books: seq<AdminBook>, ts: seq<AdminTransaction>)
    ensures FilteredTransactions(ts, "") == ts
    ensures FilteredUsers(users, "") == Filter((u: AdminUser) => u.name.Some? || u.email.Some?, users)
    ensures FilteredBooks(books, "") == Filter((b: AdminBook) => b.title.Some? || b.author.Some?, books)
  {
    forall s: string ensures IncludesIgnoringCase(s, "") {
      MatchesEmpty(s);
    }
    FilterAll((t: AdminTransaction) => TransactionMatches("", t), ts);
    FilterCongruent((u: AdminUser) => UserMatches("", u), (u: AdminUser) => u.name.Some? || u.email.Some?, users);
    FilterCongruent((b: AdminBook) => BookMatches("", b), (b: AdminBook) => b.title.Some? || b.author.Some?, books);
  }

  // ---------------------------------------------------------------------------
  // The combined transactions table

  function FormatRental(r: RentalJoin, dateText: string -> string): (t: AdminTransaction)
    ensures t.kind == Rental && t.id == r.id && t.status == r.status && t.date == r.createdAt
    ensures t.book == r.book.title && t.requester == r.requester.name && t.owner == r.owner.name
    ensures t.details == dateText(r.startDate) + " to " + dateText(r.endDate)
  {
    AdminTransaction(r.id, Rental, r.status, r.createdAt, r.book.title, r.requester.name, r.owner.name,
      dateText(r.startDate) + " to " + dateText(r.endDate))
  }

  function FormatExchange(x: ExchangeJoin): (t: AdminTransaction)
    ensures t.kind == Exchange && t.id == x.id && t.status == x.status && t.date == x.createdAt
    ensures t.book == x.bookRequested.title && t.requester == x.requester.name && t.owner == x.owner.name
    ensures t.details == "Exchanged for: " + x.bookOffered.title
  {
    AdminTransaction(x.id, Exchange, x.status, x.createdAt, x.bookRequested.title, x.requester.name, x.owner.name,
      "Exchanged for: " + x.bookOffered.title)
  }

  function FormatRentals(rs: seq<RentalJoin>, dateText: string -> string): (r: seq<AdminTransaction>)
    ensures |r| == |rs| && forall i :: 0 <= i < |rs| ==> r[i] == FormatRental(rs[i], dateText)
  {
    seq(|rs|, i requires 0 <= i < |rs| => FormatRental(rs[i], dateText))
  }

  function FormatExchanges(xs: seq<ExchangeJoin>): (r: seq<AdminTransaction>)
    ensures |r| == |xs| && forall i :: 0 <= i < |xs| ==> r[i] == FormatExchange(xs[i])
  {
    seq(|xs|, i requires 0 <= i < |xs| => FormatExchange(xs[i]))
  }

  /** `[...formattedRentals, ...formattedExchanges]`, a missing result being no rows; `dateText` stands for the date rendering. */
  function Formatted(allRentals: Option<seq<RentalJoin>>, allExchanges: Option<seq<ExchangeJoin>>, dateText: string -> string)
    : seq<AdminTransaction>
  {
    FormatRentals(allRentals.GetOr([]), dateText) + FormatExchanges(allExchanges.GetOr([]))
  }

  predicate IsRental(t: AdminTransaction) {
    t.kind == Rental
  }

  /** The combined table is the formatted rentals, all tagged rental, followed by the formatted exchanges. */
  lemma {:induction false} FormattedSplitsByKind(allRentals: Option<seq<RentalJoin>>, allExchanges: Option<seq<ExchangeJoin>>,
                                                 dateText: string -> string)
    ensures Filter(IsRental, Formatted(allRentals, allExchanges, dateText)) == FormatRentals(allRentals.GetOr([]), dateText)
    ensures Filter((t: AdminTransaction) => !IsRental(t), Formatted(allRentals, allExchanges, dateText))
      == FormatExchanges(allExchanges.GetOr([]))
  {
    var rc, xc := FormatRentals(allRentals.GetOr([]), dateText), FormatExchanges(allExchanges.GetOr([]));
    var notRental := (t: AdminTransaction) => !IsRental(t);
    FilterAppend(IsRental, rc, xc);
    FilterAll(IsRental, rc);
    FilterNone(IsRental, xc);
    FilterAppend(notRental, rc, xc);
    FilterNone(notRental, rc);
    FilterAll(notRental, xc);
  }

  // ---------------------------------------------------------------------------
  // Statistics

  /** `data?.length || 0` */
  function CountOrZero<T>(data: Option<set<T>>): (n: nat)
    ensures data.None? ==> n == 0
    ensures data.Some? ==> n == |data.value|
  {
    match data
    case None => 0
    case Some(s) => |s|
  }

  /** The same fallback for a result list. */
  function LengthOrZero<T>(data: Option<seq<T>>): nat {
    match data
    case None => 0
    case Some(s) => |s|
  }

  /**
   * The statistics the dashboard shows for the stored tables: every profile
   * and book, the approved rental requests and the completed exchange
   * proposals.
   */
  function StoredStats(usersData: Option<seq<AdminUser>>, booksData: Option<seq<AdminBook>>,
                       rentals: map<string, RentalRequest>, exchanges: map<string, ExchangeProposal>): (s: Stats)
    ensures s.activeRentals == |WithStatus(rentals, "approved")|
    ensures s.completedExchanges == |WithStatus(exchanges, "completed")|
    ensures s.totalUsers == LengthOrZero(usersData) && s.totalBooks == LengthOrZero(booksData)
  {
    Stats(LengthOrZero(usersData), LengthOrZero(booksData),
      CountOrZero(Some(WithStatus(rentals, "approved"))), CountOrZero(Some(WithStatus(exchanges, "completed"))))
  }

  /** Approving a pending rental raises the active rentals by one and leaves the completed exchanges alone. */
  lemma ApprovingRaisesActiveRentals(usersData: Option<seq<AdminUser>>, booksData: Option<seq<AdminBook>>,
                                     rentals: map<string, RentalRequest>, exchanges: map<string, ExchangeProposal>, id: string)
    requires id in rentals && rentals[id].status == "pending"
    ensures StoredStats(usersData, booksData, SetStatus(rentals, id, "approved"), exchanges).activeRentals
      == StoredStats(usersData, booksData, rentals, exchanges).activeRentals + 1
    ensures StoredStats(usersData, booksData, SetStatus(rentals, id, "approved"), exchanges).completedExchanges
      == StoredStats(usersData, booksData, rentals, exchanges).completedExchanges
  {
    SetStatusCount(rentals, id, "pending", "approved");
  }

  /** Completing an approved rental lowers the active rentals by one; completing an approved exchange raises the completed exchanges by one. */
  lemma CompletingMovesCounts(usersData: Option<seq<AdminUser>>, booksData: Option<seq<AdminBook>>,
                              rentals: map<string, RentalRequest>, exchanges: map<string, ExchangeProposal>, id: string)
    ensures id in rentals && rentals[id].status == "approved" ==>
      StoredStats(usersData, booksData, SetStatus(rentals, id, "completed"), exchanges).activeRentals + 1
        == StoredStats(usersData, booksData, rentals, exchanges).activeRentals
    ensures id in exchanges && exchanges[id].status == "approved" ==>
      StoredStats(usersData, booksData, rentals, SetStatus(exchanges, id, "completed")).completedExchanges
        == StoredStats(usersData, booksData, rentals, exchanges).completedExchanges + 1
  {
    if id in rentals && rentals[id].status == "approved" {
      SetStatusCount(rentals, id, "approved", "completed");
    }
    if id in exchanges && exchanges[id].status == "approved" {
      SetStatusCount(exchanges, id, "approved", "completed");
    }
  }

  // ---------------------------------------------------------------------------
  // Status changes

  /** The buttons of a transaction row, by the status each writes. */
  function OfferedStatuses(status: string): set<string> {
    if status == "pending" then {"approved", "rejected"}
    else if status == "approved" then {"completed"}
    else {}
  }

  /** The only transitions offered are pending to approved, pending to rejected and approved to completed. */
  lemma OfferedTransitionsIff(status: string, next: string)
    ensures next in OfferedStatuses(status) <==>
      (status == "pending" && next == "approved") || (status == "pending" && next == "rejected")
      || (status == "approved" && next == "completed")
  {
  }

  const UpdateFailedAlert: string := "Failed to update transaction status. Please try again."

  class AdminDashboardState {
    var stats: Stats
    var users: seq<AdminUser>
    var books: seq<AdminBook>
    var transactions: seq<AdminTransaction>
    var alerts: seq<string>
    /** How many dashboard reloads have been asked for. */
    var refreshes: nat

    constructor ()
      ensures stats == Stats(0, 0, 0, 0) && users == [] && books == [] && transactions == []
      ensures alerts == [] && refreshes == 0
    {
      stats := Stats(0, 0, 0, 0);
      users, books, transactions := [], [], [];
      alerts := [];
      refreshes := 0;
    }

    /**
     * `fetchDashboardData()`: the four statistics queries (each possibly
     * missing) and the two joined list queries.
     */
    method FetchDashboardData(usersData: Option<seq<AdminUser>>, booksData: Option<seq<AdminBook>>,
                              approvedRentals: Option<set<string>>, completedExchanges: Option<set<string>>,
                              allRentals: Option<seq<RentalJoin>>, allExchanges: Option<seq<ExchangeJoin>>,
                              dateText: string -> string)
      modifies this
      ensures stats == Stats(LengthOrZero(usersData), LengthOrZero(booksData), CountOrZero(approvedRentals),
        CountOrZero(completedExchanges))
      ensures users == usersData.GetOr([]) && books == booksData.GetOr([])
      ensures transactions == Formatted(allRentals, allExchanges, dateText)
      ensures alerts == old(alerts) && refreshes == old(refreshes)
    {
      stats := Stats(LengthOrZero(usersData), LengthOrZero(booksData), CountOrZero(approvedRentals),
        CountOrZero(completedExchanges));
      users := usersData.GetOr([]);
      books := booksData.GetOr([]);
      transactions := FormatRentals(allRentals.GetOr([]), dateText) + FormatExchanges(allExchanges.GetOr([]));
    }

    /**
     * `handleUpdateTransactionStatus(id, type, newStatus)`, with `failed`
     * the store's error: the write goes to the table of the kind and touches
     * only that row's status.
     */
    method HandleUpdateTransactionStatus(store: Store, id: string, kind: Kind, newStatus: string, failed: bool)
      modifies this, store
      ensures failed ==>
        store.rentalRequests == old(store.rentalRequests) && store.exchangeProposals == old(store.exchangeProposals)
        && alerts == old(alerts) + [UpdateFailedAlert] && refreshes == old(refreshes)
      ensures !failed && kind == Rental ==>
        store.rentalRequests == SetStatus(old(store.rentalRequests), id, newStatus)
        && store.exchangeProposals == old(store.exchangeProposals)
      ensures !failed && kind == Exchange ==>
        store.exchangeProposals == SetStatus(old(store.exchangeProposals), id, newStatus)
        && store.rentalRequests == old(store.rentalRequests)
      ensures !failed ==>
        alerts == old(alerts) + ["Transaction status updated to " + newStatus] && refreshes == old(refreshes) + 1
      ensures stats == old(stats) && users == old(users) && books == old(books) && transactions == old(transactions)
    {
      store.UpdateStatus(kind, id, newStatus, failed);
      if failed {
        alerts := alerts + [UpdateFailedAlert];
      } else {
        alerts := alerts + ["Transaction status updated to " + newStatus];
        refreshes := refreshes + 1;
      }
    }
  }
}
