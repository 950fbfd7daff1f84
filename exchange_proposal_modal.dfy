/**
 * The exchange proposal dialog: the user's books narrowed by a search over
 * title and author, and a submit that needs a chosen book, hands the
 * proposal on, clears the form and asks the parent to close the dialog.
 */
module ExchangeProposalModal {
  import opened Wrappers
  import opened Text
  import opened Lists

  datatype UserBook = UserBook(id: string, title: string, author: string, coverImage: string, condition: string, isAvailable: bool)

  predicate Offered(query: string, b: UserBook) {
    IncludesIgnoringCase(b.title, query) || IncludesIgnoringCase(b.author, query)
  }

  /** `filteredBooks`: the user's books whose title or author contains the query, ignoring case, in their order. */
  function FilteredBooks(userBooks: seq<UserBook>, query: string): (r: seq<UserBook>)
    ensures forall b :: b in r <==> b in userBooks && Offered(query, b)
    ensures IsSubsequence(r, userBooks)
    ensures forall b :: Occurrences(r, b) == if Offered(query, b) then Occurrences(userBooks, b) else 0
  {
    var keep := (b: UserBook) => Offered(query, b);
    FilterIsSubsequence(keep, userBooks);
    FilterMembership(keep, userBooks);
    forall b ensures Occurrences(Filter(keep, userBooks), b) == if Offered(query, b) then Occurrences(userBooks, b) else 0 {
      FilterOccurrences(keep, userBooks, b);
    }
    Filter(keep, userBooks)
  }

  /** An empty query offers every book. */
  lemma {:induction false} EmptyQueryOffersAll(userBooks: seq<UserBook>)
    ensures FilteredBooks(userBooks, "") == userBooks
  {
    assert ToLower("") == "";
    forall b | b in userBooks ensures Offered("", b) {
      IncludesEmpty(ToLower(b.title));
    }
    FilterAll((b: UserBook) => Offered("", b), userBooks);
  }

  /** A longer query never offers more: a book matching `q + more` matches `q`. */
  lemma {:induction false} IncludesShorter(s: string, q: string, more: string)
    requires Includes(s, q + more)
    ensures Includes(s, q)
    decreases |s|
  {
    if StartsWith(s, q + more) {
      assert s[..|q|] == (q + more)[..|q|] == q;
    } else {
      IncludesShorter(s[1..], q, more);
    }
  }

  lemma NarrowingQuery(userBooks: seq<UserBook>, q: string, more: string, b: UserBook)
    requires b in FilteredBooks(userBooks, q + more)
    ensures b in FilteredBooks(userBooks, q)
  {
    assert ToLower(q + more) == ToLower(q) + ToLower(more);
    if IncludesIgnoringCase(b.title, q + more) {
      IncludesShorter(ToLower(b.title), ToLower(q), ToLower(more));
    } else {
      IncludesShorter(ToLower(b.author), ToLower(q), ToLower(more));
    }
  }

  /** What is handed to `onSubmit`. */
  datatype Proposal = Proposal(bookOfferedId: string, message: string, bookRequestedId: string)

  /** The dialog's own state; whether it is open belongs to the parent. */
  datatype Form = Form(selectedBookId: Option<string>, message: string, searchQuery: string)

  /** The new state, the proposal passed to `onSubmit`, and whether `onOpenChange(false)` was called. */
  datatype SubmitResult = SubmitResult(form: Form, sent: Option<Proposal>, closeRequested: bool)

  /** `handleSubmit()` for the book asked for. */
  function Submit(f: Form, bookRequestedId: string): (r: SubmitResult)
    ensures !Truthy(f.selectedBookId) ==> r == SubmitResult(f, None, false)
    ensures Truthy(f.selectedBookId) ==>
      && r.sent == Some(Proposal(f.selectedBookId.value, f.message, bookRequestedId))
      && r.form == Form(None, "", f.searchQuery)
      && r.closeRequested
  {
    if !Truthy(f.selectedBookId) then SubmitResult(f, None, false)
    else SubmitResult(Form(None, "", f.searchQuery), Some(Proposal(f.selectedBookId.value, f.message, bookRequestedId)), true)
  }

  /** After a submit nothing more is sent until a book is chosen again. */
  lemma SubmitTwiceSendsOnce(f: Form, bookRequestedId: string)
    ensures Submit(Submit(f, bookRequestedId).form, bookRequestedId).sent == None
  {
  }
}
