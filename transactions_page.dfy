/**
 * The transactions screen: the user's incoming and outgoing rental requests
 * and exchange proposals as one card list per tab, the actions each card
 * offers, and the action handler, which maps an action to a status text and
 * writes it into the table of the transaction's kind without looking at the
 * current status.
 */
module TransactionsPage {
  import opened Wrappers
  import opened Text
  import opened Lists
  import opened Tables
  import BookTypes

  // ---------------------------------------------------------------------------
  // Actions

  /** The `switch` of `handleAction`: the status an action writes, `None` for any other action. */
  function ActionStatus(action: string): (r: Option<string>)
    ensures r.Some? <==> action in {"approve", "reject", "cancel", "complete"}
    ensures r.Some? ==> r.value in {"approved", "rejected", "cancelled", "completed"}
  {
    if action == "approve" then Some("approved")
    else if action == "reject" then Some("rejected")
    else if action == "cancel" then Some("cancelled")
    else if action == "complete" then Some("completed")
    else None
  }

  /** Each status-changing action writes its own status; "message" writes nothing. */
  lemma ActionMapping()
    ensures ActionStatus("approve") == Some("approved") && ActionStatus("reject") == Some("rejected")
    ensures ActionStatus("cancel") == Some("cancelled") && ActionStatus("complete") == Some("completed")
    ensures ActionStatus("message") == None
  {
  }

  /** The status approving writes is not one of the five statuses of the shared types. */
  lemma ApprovedOutsideSharedVocabulary()
    ensures BookTypes.ParseTransactionStatus(ActionStatus("approve").value) == None
  {
    BookTypes.TransactionStatusRoundTrip(BookTypes.Pending, "approved");
  }

  datatype Tab = Incoming | Outgoing

  /** The buttons a card shows, by the action each one passes to `handleAction`. */
  function OfferedActions(status: string, tab: Tab): set<string> {
    (if status == "pending" && tab == Incoming then {"approve", "reject", "message"} else {})
      + (if status == "pending" && tab == Outgoing then {"cancel", "message"} else {})
      + (if status == "approved" || status == "completed" then {"message"} else {})
      + (if status == "approved" then {"complete"} else {})
  }

  /** Approve and reject only on pending incoming cards, cancel only on pending outgoing ones, complete only on approved ones. */
  lemma OfferedActionsIff(status: string, tab: Tab)
    ensures "approve" in OfferedActions(status, tab) <==> status == "pending" && tab == Incoming
    ensures "reject" in OfferedActions(status, tab) <==> status == "pending" && tab == Incoming
    ensures "cancel" in OfferedActions(status, tab) <==> status == "pending" && tab == Outgoing
    ensures "complete" in OfferedActions(status, tab) <==> status == "approved"
  {
  }

  /**
   * The transitions the buttons offer are pending to approved, rejected or
   * cancelled and approved to completed; a rejected, cancelled or completed
   * card offers no status change.
   */
  lemma OfferedTransitions(status: string, tab: Tab, action: string)
    requires action in OfferedActions(status, tab) && ActionStatus(action).Some?
    ensures (status == "pending" && ActionStatus(action).value in {"approved", "rejected", "cancelled"})
      || (status == "approved" && ActionStatus(action).value == "completed")
    ensures status !in {"rejected", "cancelled", "completed"}
  {
  }

  /** The write itself has no guard: even a completed rental is set back to approved. */
  lemma WriteIsUnguarded(rows: map<string, RentalRequest>, id: string)
    requires id in rows && rows[id].status == "completed"
    ensures SetStatus(rows, id, ActionStatus("approve").value)[id].status == "approved"
  {
  }

  // ---------------------------------------------------------------------------
  // The card lists

  const DefaultCover: string := "https://images.unsplash.com/photo-1544947950-fa07a98d237f?q=80&w=1000"
  const AvatarBase: string := "https://api.dicebear.com/7.x/avataaars/svg?seed="

  /** A card. */
  datatype CardBook = CardBook(id: string, title: string, coverImage: string)
  datatype CardUser = CardUser(id: string, name: string, avatar: string)
  datatype Details =
    | RentalDetails(startDate: string, endDate: string, price: Option<int>)
    | ExchangeDetails(offeredBook: CardBook)
  datatype Transaction = Transaction(
    id: string, kind: Kind, status: string, date: string, book: CardBook, user: CardUser, details: Details)

  function ToCardBook(b: BookJoin): (c: CardBook)
    ensures c.id == b.id && c.title == b.title && c.coverImage == OrElse(b.coverImage, DefaultCover)
  {
    CardBook(b.id, b.title, OrElse(b.coverImage, DefaultCover))
  }

  function ToCardUser(p: ProfileJoin): (u: CardUser)
    ensures u.id == p.id && u.name == p.name && u.avatar == OrElse(p.avatarUrl, AvatarBase + p.id)
  {
    CardUser(p.id, p.name, OrElse(p.avatarUrl, AvatarBase + p.id))
  }

  /** The other party of a transaction: the requester on the incoming tab, the owner on the outgoing one. */
  function Counterpart(tab: Tab, requester: ProfileJoin, owner: ProfileJoin): ProfileJoin {
    if tab == Incoming then requester else owner
  }

  function RentalCard(r: RentalJoin, tab: Tab): (t: Transaction)
    ensures t.kind == Rental && t.id == r.id && t.status == r.status && t.date == r.createdAt
    ensures t.user == ToCardUser(if tab == Incoming then r.requester else r.owner)
    ensures t.book == ToCardBook(r.book) && t.details == RentalDetails(r.startDate, r.endDate, r.book.rentalPrice)
  {
    Transaction(r.id, Rental, r.status, r.createdAt, ToCardBook(r.book), ToCardUser(Counterpart(tab, r.requester, r.owner)),
      RentalDetails(r.startDate, r.endDate, r.book.rentalPrice))
  }

  function ExchangeCard(x: ExchangeJoin, tab: Tab): (t: Transaction)
    ensures t.kind == Exchange && t.id == x.id && t.status == x.status && t.date == x.createdAt
    ensures t.user == ToCardUser(if tab == Incoming then x.requester else x.owner)
    ensures t.book == ToCardBook(x.bookRequested) && t.details == ExchangeDetails(ToCardBook(x.bookOffered))
  {
    Transaction(x.id, Exchange, x.status, x.createdAt, ToCardBook(x.bookRequested),
      ToCardUser(Counterpart(tab, x.requester, x.owner)), ExchangeDetails(ToCardBook(x.bookOffered)))
  }

  function RentalCards(rs: seq<RentalJoin>, tab: Tab): (r: seq<Transaction>)
    ensures |r| == |rs| && forall i :: 0 <= i < |rs| ==> r[i] == RentalCard(rs[i], tab)
  {
    seq(|rs|, i requires 0 <= i < |rs| => RentalCard(rs[i], tab))
  }

  function ExchangeCards(xs: seq<ExchangeJoin>, tab: Tab): (r: seq<Transaction>)
    ensures |r| == |xs| && forall i :: 0 <= i < |xs| ==> r[i] == ExchangeCard(xs[i], tab)
  {
    seq(|xs|, i requires 0 <= i < |xs| => ExchangeCard(xs[i], tab))
  }

  /** `[...rentals?.map(...) || [], ...exchanges?.map(...) || []]` for one tab; a missing result is no rows. */
  function TabList(tab: Tab, rentals: Option<seq<RentalJoin>>, exchanges: Option<seq<ExchangeJoin>>): seq<Transaction> {
    RentalCards(rentals.GetOr([]), tab) + ExchangeCards(exchanges.GetOr([]), tab)
  }

  predicate IsRental(t: Transaction) {
    t.kind == Rental
  }

  /**
   * A tab's list is its rental cards followed by its exchange cards: taking
   * the rentals out of the list gives back the rental cards, the rest the
   * exchange cards, and every card names the tab's counterpart.
   */
  lemma {:induction false} TabListSplitsByKind(tab: Tab, rentals: Option<seq<RentalJoin>>, exchanges: Option<seq<ExchangeJoin>>)
    ensures Filter(IsRental, TabList(tab, rentals, exchanges)) == RentalCards(rentals.GetOr([]), tab)
    ensures Filter((t: Transaction) => !IsRental(t), TabList(tab, rentals, exchanges)) == ExchangeCards(exchanges.GetOr([]), tab)
    ensures |TabList(tab, rentals, exchanges)| == |rentals.GetOr([])| + |exchanges.GetOr([])|
  {
    var rc, xc := RentalCards(rentals.GetOr([]), tab), ExchangeCards(exchanges.GetOr([]), tab);
    var notRental := (t: Transaction) => !IsRental(t);
    FilterAppend(IsRental, rc, xc);
    FilterAll(IsRental, rc);
    FilterNone(IsRental, xc);
    FilterAppend(notRental, rc, xc);
    FilterNone(notRental, rc);
    FilterAll(notRental, xc);
  }

  /** On the incoming tab every card names the requester; on the outgoing tab the owner. */
  lemma TabListCounterparts(tab: Tab, rentals: seq<RentalJoin>, exchanges: seq<ExchangeJoin>, i: int)
    requires 0 <= i < |rentals| + |exchanges|
    ensures var t := TabList(tab, Some(rentals), Some(exchanges))[i];
      if i < |rentals| then t.user.id == (if tab == Incoming then rentals[i].requester.id else rentals[i].owner.id)
      else t.user.id == (if tab == Incoming then exchanges[i - |rentals|].requester.id else exchanges[i - |rentals|].owner.id)
  {
  }

  // ---------------------------------------------------------------------------
  // The page

  const FailureAlert: string := "Failed to update transaction. Please try again."

  /** The four list query results: rentals and exchanges, incoming and outgoing. */
  datatype Fetched = Fetched(
    incomingRentals: Option<seq<RentalJoin>>, outgoingRentals: Option<seq<RentalJoin>>,
    incomingExchanges: Option<seq<ExchangeJoin>>, outgoingExchanges: Option<seq<ExchangeJoin>>)

  class TransactionsPageState {
    var incoming: seq<Transaction>
    var outgoing: seq<Transaction>
    var isLoading: bool
    var alerts: seq<string>
    /** How many list refreshes the page has asked for. */
    var refreshes: nat

    constructor ()
      ensures incoming == [] && outgoing == [] && isLoading && alerts == [] && refreshes == 0
    {
      incoming, outgoing := [], [];
      isLoading := true;
      alerts := [];
      refreshes := 0;
    }

    /**
     * `fetchTransactions()`, given the results and whether any of the four
     * queries errored; after an error the lists stay as they were.
     */
    method FetchTransactions(data: Fetched, anyError: bool)
      modifies this
      ensures !isLoading
      ensures !anyError ==> incoming == TabList(Incoming, data.incomingRentals, data.incomingExchanges)
      ensures !anyError ==> outgoing == TabList(Outgoing, data.outgoingRentals, data.outgoingExchanges)
      ensures anyError ==> incoming == old(incoming) && outgoing == old(outgoing)
      ensures alerts == old(alerts) && refreshes == old(refreshes)
    {
      isLoading := true;
      if !anyError {
        incoming := RentalCards(data.incomingRentals.GetOr([]), Incoming)
          + ExchangeCards(data.incomingExchanges.GetOr([]), Incoming);
        outgoing := RentalCards(data.outgoingRentals.GetOr([]), Outgoing)
          + ExchangeCards(data.outgoingExchanges.GetOr([]), Outgoing);
      }
      isLoading := false;
    }

    /**
     * `handleAction(id, action, type)`, with `writeFailed` the store's error.
     * Returns the status written, if any.
     */
    method HandleAction(store: Store, id: string, action: string, kind: Kind, writeFailed: bool)
      returns (written: Option<string>)
      modifies this, store
      ensures written == ActionStatus(action)
      ensures written.None? ==>
        store.rentalRequests == old(store.rentalRequests) && store.exchangeProposals == old(store.exchangeProposals)
        && alerts == old(alerts) && refreshes == old(refreshes)
      ensures written.Some? && !writeFailed && kind == Rental ==>
        store.rentalRequests == SetStatus(old(store.rentalRequests), id, written.value)
        && store.exchangeProposals == old(store.exchangeProposals)
      ensures written.Some? && !writeFailed && kind == Exchange ==>
        store.exchangeProposals == SetStatus(old(store.exchangeProposals), id, written.value)
        && store.rentalRequests == old(store.rentalRequests)
      ensures written.Some? && !writeFailed ==> refreshes == old(refreshes) + 1 && alerts == old(alerts)
      ensures written.Some? && writeFailed ==>
        store.rentalRequests == old(store.rentalRequests) && store.exchangeProposals == old(store.exchangeProposals)
        && refreshes == old(refreshes) && alerts == old(alerts) + [FailureAlert]
      ensures incoming == old(incoming) && outgoing == old(outgoing) && isLoading == old(isLoading)
    {
      written := ActionStatus(action);
      if written.None? {
        return;
      }
      store.UpdateStatus(kind, id, written.value, writeFailed);
      if writeFailed {
        alerts := alerts + [FailureAlert];
      } else {
        refreshes := refreshes + 1;
      }
    }
  }
}
