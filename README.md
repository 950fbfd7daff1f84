# BookShare core, modelled in Dafny

BookShare is a book lending and exchange web application. Users list books,
search and filter the catalogue, ask to rent a book (paying through the eSewa
gateway) or propose an exchange, and accept, reject, cancel or complete the
requests they receive. An admin
dashboard shows statistics and can change any transaction's status.

This project models the decision and transform rules of that application.
Every screen is a React component over the Supabase store. The model keeps
what the components compute and leaves the store as inputs and in-memory maps:

- **Book listing.** The catalogue transform and filter chain and the page
  count (`BooksPage`). The pagination window and previous/next targets
  (`BookGrid`). The filter bar's record and its "active filter" chips
  (`FilterBar`).
- **Book validation and normalisation.** The three form schemas (`BookTypes`,
  `BookForm`, `AddBookModal`), the submit-time normalisation of the book form,
  the genre toggle, and the insert record of the add-book page
  (`AppBooksPage`).
- **Rental payment.** The rental amount (`RentalModal`). The eSewa payload,
  the verification decision and the payments-table transitions (`Esewa`). The
  return page that recovers the payment id (`PaymentSuccess`).
- **Transaction status.** The two tables `rental_requests` and
  `exchange_proposals` as maps (`Tables`). The action-to-status mapping, the
  offered actions and the unguarded status write (`TransactionsPage`). The
  admin dashboard's searches, statistics, offered transitions and status
  update (`AdminDashboard`).
- **Small list computations.** The exchange dialog's offered books and submit
  guard (`ExchangeProposalModal`). The two notification menus with their
  unread counts (`NotificationDropdown`).

Pure code is written as functions and lemmas. Code that updates state is
written as classes whose methods are specified against those functions:
the filter bar's chip list, the book form's in-place normalisation, each
page's state, and the tables being written. `Wrappers`, `Text`, `Lists`,
`Toasts` and `Promises` are shared helpers. They hold `Option`/`Result`, JavaScript's
truthiness and `||` fallback, string length in UTF-16 code units, ASCII
lower-casing, `includes`/`startsWith`/`replace`, integer formatting, `filter`
with its laws, the toast record the pages raise, and the three ways an
awaited call in a `try` block settles.

Store calls and the gateway become inputs of the operations:

- a query's rows, or `None` for a failed or missing result;
- an error flag for each write;
- the id the store assigns to a new row;
- the gateway's `(ok, text)` answer.

Library behaviour that the core only calls also becomes a parameter:

- the URL check (`isUrl`);
- date formatting (`format`, `dateText`);
- the current time as an ISO string (`now`).

## Model

| member | source | states |
|---|---|---|
| BooksPage.ToBook | src/pages/BooksPage.tsx:85-102 | id, title, author, availability, condition, rental price, genre and ISBN are copied; `isOwner` holds exactly when the signed-in user's id is the row's `owner_id`; a missing or empty cover becomes the placeholder, so the cover is never empty; the list carries no owner |
| BooksPage.Transform | src/pages/BooksPage.tsx:85-102 | one book per row, in row order, each transformed by `ToBook` |
| BooksPage.ToDetailedBook | src/pages/BooksPage.tsx:163-192 | the detail transform agrees with the list transform except for the owner, which is present exactly when the profile join found one and then carries the profile's id and name, with the dicebear avatar when it has none |
| BooksPage.Kept | src/pages/BooksPage.tsx:105-142 | no contract of its own: the conjunction of the search, genre, condition and price tests |
| BooksPage.FilterBooks | src/pages/BooksPage.tsx:105-142 | no contract of its own: the four optional filter stages in order; `FilterBooksIsKept` and `FilterBooksSubsequence` state what it keeps |
| BooksPage.ApplyFilters | src/pages/BooksPage.tsx:104-142 | the stages reassigning `filteredBooks` one after another leave exactly `FilterBooks` of the transformed books, hence by `FilterBooksIsKept` the kept books in their listed order |
| BooksPage.FilterBooksIsKept | src/pages/BooksPage.tsx:105-142 | the chain of optional filter stages equals one filter by the conjunction of the four tests |
| BooksPage.FilterBooksSubsequence | src/pages/BooksPage.tsx:105-142 | the filtered list is an order-preserving subsequence of the transformed list, and a book is in it exactly when it is listed and passes every test |
| BooksPage.SearchTypes | src/pages/BooksPage.tsx:107-122 | with a non-empty term, "title" and "author" keep exactly the books whose field includes the term ignoring case; "isbn" keeps exactly the books with a non-empty ISBN that includes the term case-sensitively; every other type keeps none |
| BooksPage.DefaultRangeKeepsExpensive | src/pages/BooksPage.tsx:136-142 | with the range [0, 50] the price test keeps every book, including those priced above 50 |
| BooksPage.NarrowedRangeBounds | src/pages/BooksPage.tsx:136-142 | with a narrowed range, a kept book's price lies within it |
| BooksPage.DefaultsKeepAll | src/pages/BooksPage.tsx:105-142 | with no search term and the default filter record, every book is shown |
| BooksPage.TotalPages | src/pages/BooksPage.tsx:145 | `Math.ceil(n / 10)`, or 1 when that is 0, is at least 1, is 1 for no books, and is otherwise the least page count that holds n books at ten per page |
| BooksPage.FindById | src/pages/BooksPage.tsx:210 | like `Array.find`, the book returned has the id and no listed book before it has that id; nothing is returned exactly when no listed book has the id (see also line 225) |
| BooksPage.SelectedOwnerId | src/pages/BooksPage.tsx:248 | `selectedBook?.owner?.id` is present exactly when a book is selected and it carries an owner |
| BooksPage.BuildRentalData | src/pages/BooksPage.tsx:245-253 | the rental request is "pending", carries the book, the requester, the selected book's owner and both dates, and its message falls back to "" |
| BooksPage.BuildExchangeData | src/pages/BooksPage.tsx:269-276 | the exchange proposal is "pending", carries both book ids, the requester and the selected owner, and its message falls back to "" |
| BooksPage.GridRentalHasNoOwner | src/pages/BooksPage.tsx:85-102 | a rental started from the grid sends no owner id, because list books are built without an owner (see also lines 210-213, 248) |
| BooksPage.RowOwner | src/pages/BooksPage.tsx:85-102 | the owner returned is the `owner_id` of a listed row with the id, and there is none exactly when no row has it |
| BooksPage.CorrectedRentalData | src/pages/BooksPage.tsx:243-253 | no contract of its own: the rental request evidently intended, with the owner taken from the requested book's row; `CorrectedGridRentalHasOwner` states its property |
| BooksPage.CorrectedGridRentalHasOwner | src/pages/BooksPage.tsx:243-253 | with the owner taken from the requested book's row, a rental started from the grid names an owner, the owner of a row with that book id |
| BooksPage.BooksPageState.constructor | src/pages/BooksPage.tsx:49-67 | the page starts loading on page 1 of 1 with no selection, no open dialog, an empty title search and the default filters |
| BooksPage.BooksPageState.FetchBooks | src/pages/BooksPage.tsx:73-153 | a failed query sets the load error and keeps the list; rows replace the list with the filtered transform and set `TotalPages` of its length; loading ends in every case; the page, selection, dialogs, search and filters stay as they were |
| BooksPage.BooksPageState.HandleBookClick | src/pages/BooksPage.tsx:155-200 | a found row is selected as the detailed book and the detail dialog opens; otherwise nothing changes; every other field stays as it was in both cases |
| BooksPage.BooksPageState.HandleRentalRequest | src/pages/BooksPage.tsx:202-215 | with no user the login dialog opens and the rental dialog does not; with a user a listed book is selected and the rental dialog opens; with a user an unknown id changes nothing; the list, page, loading, error, detail dialog, search and filters stay as they were on every path |
| BooksPage.BooksPageState.HandleExchangeProposal | src/pages/BooksPage.tsx:217-230 | the same guard, opening the exchange dialog, with every other field unchanged as for the rental request |
| BooksPage.BooksPageState.HandleSearch | src/pages/BooksPage.tsx:232-236 | the term and type are stored and the page resets to 1; every other field stays as it was |
| BooksPage.BooksPageState.HandleFilterChange | src/pages/BooksPage.tsx:238-241 | the new filters are stored and the page resets to 1; every other field stays as it was |
| BooksPage.BooksPageState.HandleRentalSubmit | src/pages/BooksPage.tsx:243-265 | the request sent is `BuildRentalData` (status "pending"); the rental dialog closes unless the store errored; every other field stays as it was |
| BooksPage.BooksPageState.HandleExchangeSubmit | src/pages/BooksPage.tsx:267-288 | the proposal sent is `BuildExchangeData`; the exchange dialog closes unless the store errored; every other field stays as it was |
| BookGrid.SlotCount | src/components/books/BookGrid.tsx:367 | the window has `min(5, totalPages)` slots, and none for a non-positive page count |
| BookGrid.Slot | src/components/books/BookGrid.tsx:369-378 | no contract of its own: the page in slot i for each of the three window placements; `Window` and the window lemmas state its properties |
| BookGrid.Window | src/components/books/BookGrid.tsx:367-378 | one page number per slot |
| BookGrid.PageRange | src/components/books/BookGrid.tsx:367-378 | `lo, lo+1, …` of the given length |
| BookGrid.WindowStart | src/components/books/BookGrid.tsx:369-378 | no contract of its own: the first page of the window, 1 for five pages or fewer or an early page, `totalPages - 4` near the end, `currentPage - 2` otherwise; `WindowIsRange`, `WindowWithin` and `WindowHasCurrent` state its properties |
| BookGrid.WindowIsRange | src/components/books/BookGrid.tsx:369-378 | the window is a run of consecutive pages that starts at 1 for short lists or early pages, at `totalPages - 4` near the end, and at `currentPage - 2` otherwise |
| BookGrid.WindowConsecutive | src/components/books/BookGrid.tsx:369-378 | each window page is one more than the one before |
| BookGrid.WindowWithin | src/components/books/BookGrid.tsx:367-378 | for a current page in range, every window page lies in [1, totalPages] |
| BookGrid.WindowHasCurrent | src/components/books/BookGrid.tsx:367-378 | for a current page in range, the window contains it |
| BookGrid.WindowCentred | src/components/books/BookGrid.tsx:376-377 | away from both ends of a long list the window is `currentPage-2 .. currentPage+2` |
| BookGrid.WindowAtEnd | src/components/books/BookGrid.tsx:374-375 | near the end of a long list the window is the last five pages |
| BookGrid.Emitted | src/components/books/BookGrid.tsx:380-381 | no contract of its own: the window without page 1; `EmittedSkipsFirst` states what it drops |
| BookGrid.PageLinks | src/components/books/BookGrid.tsx:352-411 | no contract of its own: page 1, the emitted window, then the last page for more than one page; `PageLinksRepeatLast` and `ThreePagesShowLastTwice` state its repeat |
| BookGrid.EmittedSkipsFirst | src/components/books/BookGrid.tsx:380-381 | page 1 is never emitted from the window; exactly the first slot is dropped when the window starts at 1, and nothing otherwise |
| BookGrid.PageLinksRepeatLast | src/components/books/BookGrid.tsx:352-411 | as written, for more than one page, whenever the window reaches the last page that page's link is shown twice |
| BookGrid.ThreePagesShowLastTwice | src/components/books/BookGrid.tsx:352-411 | as written, three pages give the links 1, 2, 3, 3 |
| BookGrid.CorrectedPageLinks | src/components/books/BookGrid.tsx:352-411 | no contract of its own: the links with the last page dropped from the window as well; `CorrectedPageLinksIncrease` states that they increase |
| BookGrid.CorrectedPageLinksIncrease | src/components/books/BookGrid.tsx:352-411 | when the window skips the last page as well as the first, the links strictly increase with no repeat, start at 1, end at the last page, lie in range and include the current page |
| BookGrid.MiddleLinks | src/components/books/BookGrid.tsx:367-393 | the window pages strictly between the first and last page increase and contain the current page when it is neither end |
| BookGrid.PrevTarget | src/components/books/BookGrid.tsx:363 | no contract of its own: `Math.max(1, currentPage - 1)`; the PrevNext lemmas state its range and round trip |
| BookGrid.NextTarget | src/components/books/BookGrid.tsx:396-398 | no contract of its own: `Math.min(totalPages, currentPage + 1)`; the PrevNext lemmas state its range and round trip |
| BookGrid.PrevNextWithin | src/components/books/BookGrid.tsx:363 | from a page in range, `max(1, current-1)` and `min(totalPages, current+1)` stay in range and move at most one page (see also lines 397) |
| BookGrid.PrevNextActive | src/components/books/BookGrid.tsx:363-364 | Previous moves exactly when it is marked active (`currentPage > 1`), and Next exactly when `currentPage < totalPages` (see also lines 397-399) |
| BookGrid.PrevNextRoundTrip | src/components/books/BookGrid.tsx:363 | where they move, Next undoes Previous and Previous undoes Next (see also lines 397) |
| BookGrid.SelectView | src/components/books/BookGrid.tsx:165-197 | a non-empty error takes precedence; the empty state is shown exactly when there is no error, loading has finished and there are no books; skeletons show while loading; otherwise cards (see also lines 231-232) |
| FilterBar.Apply | src/components/filters/FilterBar.tsx:68-71 | `{ ...filters, [key]: value }` sets that key to the value and changes no other key |
| FilterBar.FindIndexStartingWith | src/components/filters/FilterBar.tsx:81-83 | `findIndex` returns the first chip starting with the prefix, or -1 exactly when none does |
| FilterBar.ChipText | src/components/filters/FilterBar.tsx:89-102 | no contract of its own: the chip text of a non-default value; `ChipIffNonDefault`, `ChipTextShape` and `ChipTextHasPrefix` state when it exists and its shape |
| FilterBar.UpdatedChips | src/components/filters/FilterBar.tsx:77-107 | no contract of its own: splice out the first chip starting with the record key name, then push the new chip; `UpdateKeepsConsistent` and `RadiusAndPriceChipsAccumulate` state its effect |
| FilterBar.ChipsWithout | src/components/filters/FilterBar.tsx:122-124 | no contract of its own: the chips unequal to the removed one; `CountWithout` and `RemoveKeepsConsistent` state its effect |
| FilterBar.ResetNamedBy | src/components/filters/FilterBar.tsx:128-139 | no contract of its own: the filter named before the first colon back to its default; `RemoveUndoesSet` states the round trip |
| FilterBar.ChipIffNonDefault | src/components/filters/FilterBar.tsx:89-94 | a chip is added exactly when the new value differs from that key's default |
| FilterBar.ChipTextShape | src/components/filters/FilterBar.tsx:95-102 | chip texts are `genre:V`, `condition:V`, `radius:Nmi` and `price:$a-$b`, and the text before the first ':' is genre, condition, radius or price |
| FilterBar.RadiusChip | src/components/filters/FilterBar.tsx:99 | a radius chip starts with "radius:" and its key is "radius" |
| FilterBar.PriceChip | src/components/filters/FilterBar.tsx:101 | a price chip starts with "price:" and its key is "price" |
| FilterBar.PrefixesDisjoint | src/components/filters/FilterBar.tsx:80-102 | no chip of one shape starts with another filter's key name; in particular no radius or price chip starts with "locationRadius" or "priceRange" |
| FilterBar.DefaultsConsistent | src/components/filters/FilterBar.tsx:59-66 | the initial record and the empty chip list satisfy the invariant: every chip has one of the four shapes, and there is a `genre:V` or `condition:V` chip exactly when that filter is not its default |
| FilterBar.UpdateKeepsConsistent | src/components/filters/FilterBar.tsx:68-107 | setting any filter keeps the invariant; genre and condition therefore never hold more than one chip each |
| FilterBar.RadiusAndPriceChipsAccumulate | src/components/filters/FilterBar.tsx:80-86 | a radius or price chip is looked up under "locationRadius"/"priceRange", so nothing is removed and the new chip is appended after the earlier ones (see also lines 98-103) |
| FilterBar.TwoRadiusChips | src/components/filters/FilterBar.tsx:80-103 | setting the radius to 20 and then to 30 leaves the chips "radius:20mi" and "radius:30mi" |
| FilterBar.ChipTextHasPrefix | src/components/filters/FilterBar.tsx:95-102 | every chip produced for a filter starts with that filter's own chip prefix: genre:, condition:, radius: or price: |
| FilterBar.CorrectedUpdatedChips | src/components/filters/FilterBar.tsx:80-86 | no contract of its own: the chip update evidently intended, looking the earlier chip up under the filter's own chip prefix; `CorrectedUpdateKeepsOneChip` and `CorrectedRadiusChip` state its properties |
| FilterBar.CorrectedUpdateKeepsOneChip | src/components/filters/FilterBar.tsx:80-86 | with the earlier chip looked up under its own prefix, a filter that had at most one chip has exactly one after a non-default value and none after the default |
| FilterBar.CorrectedRadiusChip | src/components/filters/FilterBar.tsx:80-103 | with the corrected lookup, setting the radius to 20 and then to 30 leaves only "radius:30mi" |
| FilterBar.ChipKey | src/components/filters/FilterBar.tsx:128 | the key `split(":")` takes from a chip is the filter name of its shape |
| FilterBar.RemoveKeepsConsistent | src/components/filters/FilterBar.tsx:121-143 | removing a listed chip deletes every equal chip, resets only the filter it names, and keeps the invariant |
| FilterBar.RemoveUndoesSet | src/components/filters/FilterBar.tsx:96-102 | removing the chip that setting a filter produced returns that filter to its default and leaves every other filter as it was before the set (see also lines 128-139) |
| FilterBar.FilterBarState.constructor | src/components/filters/FilterBar.tsx:59-66 | the bar starts with the default record and no chips |
| FilterBar.FilterBarState.HandleFilterChange | src/components/filters/FilterBar.tsx:68-75 | the record becomes `Apply` and is passed on, the chips become `UpdatedChips`, and the invariant is kept |
| FilterBar.FilterBarState.UpdateActiveFilters | src/components/filters/FilterBar.tsx:77-107 | the copy is spliced at the first chip starting with the key name and the new chip is pushed; the record is untouched |
| FilterBar.FilterBarState.ClearAllFilters | src/components/filters/FilterBar.tsx:109-119 | the default record is set and passed on, and the chip list is empty |
| FilterBar.FilterBarState.RemoveFilter | src/components/filters/FilterBar.tsx:121-143 | the chips lose every copy of the removed one, the filter it names is reset and passed on, and the invariant is kept |
| BookTypes.ParseStatus | src/types/books.ts:6 | a parsed book status names its text |
| BookTypes.StatusRoundTrip | src/types/books.ts:6 | parsing a status name gives the status back; exactly available, borrowed and unavailable parse |
| BookTypes.ParseCondition | src/types/books.ts:26 | a parsed condition names its text |
| BookTypes.ConditionRoundTrip | src/types/books.ts:26 | exactly new, like_new, good, fair and poor parse, and a condition's name round-trips |
| BookTypes.ParseTransactionStatus | src/types/books.ts:101 | a parsed transaction status names its text |
| BookTypes.TransactionStatusRoundTrip | src/types/books.ts:101 | exactly the five statuses pending, accepted, rejected, completed and cancelled parse; "approved" does not |
| BookTypes.Issues | src/types/books.ts:8-41 | no contract of its own: the issues of the seven fields in declaration order; `ParseOkIff` and `NullPriceRefused` state what it reports |
| BookTypes.Parse | src/types/books.ts:8-41 | no contract of its own: the parsed data with its defaults, or every issue; `ParseOkIff` and `ParsedData` state when it succeeds and what it yields |
| BookTypes.LengthIssues | src/types/books.ts:9-16 | a title or author has no issue exactly when its JavaScript length, counted in UTF-16 code units, is between 1 and 100; an empty one gets the "required" message, one over 100 code units the "less than 100" message, and there is never more than one issue |
| BookTypes.CoverIssues | src/types/books.ts:21-25 | an absent or null cover passes; a given one passes exactly when it is a URL |
| BookTypes.ConditionIssues | src/types/books.ts:26 | the condition passes exactly when it is one of the five names |
| BookTypes.GenreIssues | src/types/books.ts:27 | the genre list passes exactly when it has at least one entry |
| BookTypes.PriceBoundIssues | src/types/books.ts:28-31 | a price passes exactly when it lies in [0, 10000] |
| BookTypes.DefaultedPriceIssues | src/types/books.ts:28-32 | an absent price passes (it defaults); a given one must lie in [0, 10000]; null is refused |
| BookTypes.StatusIssues | src/types/books.ts:37 | an absent status passes (it defaults); a given one must be one of the three |
| BookTypes.ParseOkIff | src/types/books.ts:8-41 | the schema accepts exactly the inputs meeting every field requirement |
| BookTypes.ParsedData | src/types/books.ts:8-41 | accepted data keeps title, author and genre within their bounds, defaults the price to 0 and the status to available |
| BookTypes.NullPriceRefused | src/types/books.ts:28-32 | a null price is refused with "Expected number, received null" |
| BookTypes.HundredCharacterTitleAccepted | src/types/books.ts:9-12 | a title of exactly 100 characters of the Basic Multilingual Plane is accepted, though the message says "less than 100" |
| BookTypes.EmojiTitleTooLong | src/types/books.ts:9-12 | a title of 51 emoji, 102 code units, is refused with "Title must be less than 100 characters" |
| BookForm.FormIssues | src/components/books/BookForm.tsx:55-86 | no contract of its own: the shared field checks with the optional price check; `FormIssuesVersusShared` relates it to the shared schema |
| BookForm.ParseForm | src/components/books/BookForm.tsx:55-86 | no contract of its own: the parsed form or its issues; `ParsedPassesGuard` states what parsed data satisfies |
| BookForm.OptionalPriceIssues | src/components/books/BookForm.tsx:75-80 | this form's price may be absent or null, and a given price must lie in [0, 10000] |
| BookForm.FormIssuesVersusShared | src/components/books/BookForm.tsx:55-86 | with a price given, the form's schema reports what the shared one does; in general it accepts exactly what the shared one accepts with the price left out, plus a given price in [0, 10000] |
| BookForm.HasScheme | src/components/books/BookForm.tsx:154 | no contract of its own: `/^https?:\/\//i`, a case-insensitive `http://` or `https://` prefix; `HttpsHasScheme` and `PlaceholderHasScheme` use it |
| BookForm.WithScheme | src/components/books/BookForm.tsx:154-156 | the result has an `http://` or `https://` scheme in any letter case; one that had a scheme is unchanged; otherwise `https://` is prefixed |
| BookForm.WithSchemeIdempotent | src/components/books/BookForm.tsx:154-156 | prefixing twice is prefixing once |
| BookForm.PlaceholderHasScheme | src/components/books/BookForm.tsx:169 | the placeholder cover has a scheme |
| BookForm.CoercePrice | src/components/books/BookForm.tsx:146-148 | a price that is not a number becomes 0, because `Number(null)` is 0 and `Number(undefined)` is NaN; a number is kept |
| BookForm.FixCover | src/components/books/BookForm.tsx:151-170 | a given cover gets its scheme; an empty or absent one becomes the placeholder; either way the cover then has a scheme |
| BookForm.FillDefaults | src/components/books/BookForm.tsx:172-185 | a non-array genre becomes [], an empty condition "good", an empty status "available"; other fields are unchanged |
| BookForm.Normalise | src/components/books/BookForm.tsx:129-185 | a missing title or author stops with the missing-field errors; otherwise a cover that fails the URL check after prefixing stops with the cover error; otherwise the data are coerced, fixed and defaulted in that order |
| BookForm.ReadyShape | src/components/books/BookForm.tsx:146-185 | data ready to submit has a non-empty title and author, a numeric price, a cover with a scheme, a genre list and a non-empty condition and status |
| BookForm.NormaliseIdempotent | src/components/books/BookForm.tsx:129-185 | normalising ready data again changes nothing |
| BookForm.ParsedPassesGuard | src/components/books/BookForm.tsx:55-86 | data the schema accepted always clears the title/author guard, and the genre, condition and status defaults never fire (see also lines 129-185) |
| BookForm.ToggleGenre | src/components/books/BookForm.tsx:212-216 | no contract of its own: remove every copy of a selected genre or append an unselected one; `ToggleMembership`, `ToggleTwice` and `ToggleKeepsNoDuplicates` state its effect |
| BookForm.ToggleMembership | src/components/books/BookForm.tsx:212-216 | the toggled genre is a member afterwards exactly when it was not before; other genres keep their membership |
| BookForm.ToggleTwice | src/components/books/BookForm.tsx:212-216 | toggling twice restores every genre's membership, and restores the list itself when the genre was absent |
| BookForm.ToggleKeepsNoDuplicates | src/components/books/BookForm.tsx:212-216 | a duplicate-free selection stays duplicate-free |
| BookForm.SubmitData.constructor | src/components/books/BookForm.tsx:123 | the mutable data object holds the given values |
| BookForm.SubmitData.NormaliseInPlace | src/components/books/BookForm.tsx:145-185 | the in-place updates of `data` reach `Normalise`'s result when the cover passes, and stop after the price and cover steps when it fails |
| BookForm.BookFormState.constructor | src/components/books/BookForm.tsx:103-106 | the form starts with no errors, no success flag and the default genres |
| BookForm.BookFormState.HandleSubmit | src/components/books/BookForm.tsx:123-210 | missing fields set an error per missing field and submit nothing; a bad cover sets the cover error; ready data is submitted; when `onSubmit` resolves success is shown; when it throws an `Error` the root error reads "Submission failed: " and its message; when it throws any other value neither an error nor success is shown |
| BookForm.BookFormState.HandleGenreSelect | src/components/books/BookForm.tsx:212-219 | the selection becomes the toggle of the genre, is copied into the form, and the genre error is cleared |
| AddBookModal.Issues | src/components/books/AddBookModal.tsx:39-51 | no contract of its own: the issues of title, author, condition and price in order; `LowerCaseConditionRefused` and `DefaultValuesIncomplete` show what it reports |
| AddBookModal.Parse | src/components/books/AddBookModal.tsx:39-51 | no contract of its own: the validated data or the issues; `ParseOkIff` states when it succeeds |
| AddBookModal.ParseOkIff | src/components/books/AddBookModal.tsx:39-51 | the schema accepts exactly a non-empty title and author, a condition among New, Like New, Good, Fair and Poor, and a coerced price that is at least 0 |
| AddBookModal.LowerCaseConditionRefused | src/components/books/AddBookModal.tsx:44 | the shared schema's "good" is refused here |
| AddBookModal.DefaultValuesIncomplete | src/components/books/AddBookModal.tsx:65-77 | the form's initial values are refused, for the empty title and the empty author only |
| AddBookModal.WithDefaultCover | src/components/books/AddBookModal.tsx:89-92 | an empty cover becomes the default URL, a given one is kept, and no other field changes |
| AddBookModal.WithDefaultCoverIdempotent | src/components/books/AddBookModal.tsx:89-92 | applying the default twice is applying it once |
| AddBookModal.FormData.constructor | src/components/books/AddBookModal.tsx:80 | the mutable data object holds the given values |
| AddBookModal.AddBookDialog.constructor | src/components/books/AddBookModal.tsx:55-78 | the dialog starts not loading, with the default values |
| AddBookModal.AddBookDialog.HandleSubmit | src/components/books/AddBookModal.tsx:80-113 | with no user only the login alert is shown and loading is never set; otherwise the record is the data with the default cover, `owner_id` and `is_available = true`; success passes it on, resets and asks the parent to close the dialog; an error asks for no close and shows the failure alert; loading ends false |
| AppBooksPage.ToBook | src/app/books/page.tsx:25-46 | id, title, author, description, ISBN, genre, condition, owner, status and location are copied; an empty or null cover becomes the placeholder and a missing price becomes 0 |
| AppBooksPage.Transform | src/app/books/page.tsx:25-46 | one book per row, in row order |
| AppBooksPage.ToBookIdempotent | src/app/books/page.tsx:34 | transforming a transformed book again changes nothing (see also lines 37) |
| AppBooksPage.FindById | src/app/books/page.tsx:64 | like `Array.find`, the book returned has the id and no listed book before it has that id; nothing is returned exactly when none has it. This page has its own book shape and its own `find`, so the function is defined here again |
| AppBooksPage.OrNull | src/app/books/page.tsx:95-105 | an optional text is stored as null when missing or empty, and kept otherwise |
| AppBooksPage.BuildInsert | src/app/books/page.tsx:71-108 | no user gives the login error; a missing title, author or condition gives the required-fields error; otherwise the record has status available, the user as owner, price defaulted to 0 and empty optional text as null |
| AppBooksPage.AppBooksState.constructor | src/app/books/page.tsx:13-19 | the page starts loading with no books and no selection |
| AppBooksPage.AppBooksState.FetchBooks | src/app/books/page.tsx:21-57 | rows replace the list with their transform; a failure keeps the list and shows the error toast; loading ends |
| AppBooksPage.AppBooksState.HandleBookClick | src/app/books/page.tsx:63-69 | a listed id selects that book and opens the detail dialog; an unknown id changes neither |
| AppBooksPage.AppBooksState.HandleAddBook | src/app/books/page.tsx:71-129 | a guard failure shows its toast and sends nothing; otherwise `BuildInsert` is sent; success shows the success toast and refreshes; a thrown `Error` shows its message and any other thrown value shows "Failed to add book"; the list, selection, detail dialog and loading flag stay as they were |
| RentalModal.CeilDiv | src/components/books/RentalModal.tsx:54 | `Math.ceil(a / b)` for a positive divisor is the least q with `a <= q * b` |
| RentalModal.CeilDivUnique | src/components/books/RentalModal.tsx:54 | that least integer is unique |
| RentalModal.Days | src/components/books/RentalModal.tsx:54 | the days counted are the least whole number of days covering the period |
| RentalModal.PriceOrZero | src/components/books/RentalModal.tsx:55 | no contract of its own: `book.rental_price || 0`; `Amount` and `AmountZero` state its use |
| RentalModal.Amount | src/components/books/RentalModal.tsx:53-56 | the amount is the day count times the price, with a missing price counted as 0 |
| RentalModal.AmountZero | src/components/books/RentalModal.tsx:54-55 | a zero or missing price and an empty period both cost 0 |
| RentalModal.PartialDayCountsWhole | src/components/books/RentalModal.tsx:54 | one millisecond counts as one day, and k whole days count as k |
| RentalModal.AmountMonotone | src/components/books/RentalModal.tsx:53-56 | for a fixed start and a price that is not negative, a later end never costs less |
| RentalModal.WeekAtFive | src/components/books/RentalModal.tsx:53-56 | seven days at 5 a day cost 35 |
| RentalModal.EndBeforeStartIsNegative | src/components/books/RentalModal.tsx:53-56 | an end before the start is not refused, and the amount comes out negative |
| RentalModal.PaymentParams | src/components/books/RentalModal.tsx:58-79 | with no user no payment is started; otherwise the service gets the computed amount, the book id, the user as borrower, the owner as lender and both formatted dates |
| RentalModal.SubmitToast | src/components/books/RentalModal.tsx:59-66 | no user shows the login toast; with a user a toast appears exactly when initiation failed, and it is the failure toast (see also lines 96-103) |
| RentalModal.GatewayChargesComputedAmount | src/components/books/RentalModal.tsx:69-79 | the gateway's total is the computed amount, with no tax or charges on top |
| Esewa.Pid | src/services/esewaService.ts:58 | the product id starts with "BOOKSHARE_" and continues with the payment id (see also lines 76) |
| Esewa.NewPayment | src/services/esewaService.ts:29-40 | the inserted row is pending, paid by "esewa", with the given amount, parties and dates, and no reference or error yet |
| Esewa.BuildPayload | src/services/esewaService.ts:47-62 | `amount = tAmt = amt` is the input, `txAmt = psc = pdc = 0`, so `tAmt = amt + txAmt + psc + pdc`; the pid is built from the id; the merchant code and the success and failure URLs come from the configuration |
| Esewa.IsVerified | src/services/esewaService.ts:84-93 | no contract of its own: an OK response whose lower-cased text includes "success"; `IsVerifiedCaseInsensitive` and `MixedCaseSuccess` state its properties |
| Esewa.IsVerifiedCaseInsensitive | src/services/esewaService.ts:84-93 | the decision does not depend on letter case, and a response that is not OK never verifies |
| Esewa.MixedCaseSuccess | src/services/esewaService.ts:88-89 | an OK response reading "Success" verifies |
| Esewa.BuildVerifyQuery | src/services/esewaService.ts:73-78 | the query sends the amount text, the reference, the pid of the payment id and the merchant code |
| Esewa.VerifyUsesInitiatedPid | src/services/esewaService.ts:58 | verification rebuilds the very pid that initiation sent (see also lines 76) |
| Esewa.MarkCompleted | src/services/esewaService.ts:96-99 | the completing write sets status completed and the reference, and changes nothing else in the row |
| Esewa.MarkFailed | src/services/esewaService.ts:106-112 | the failing write sets status failed and the message "Payment verification failed", and changes nothing else in the row |
| Esewa.UpdateWhere | src/services/esewaService.ts:96-99 | `.update(...).eq("id", id)` rewrites only that row, and an unknown id changes nothing (see also lines 106-112) |
| Esewa.AfterVerify | src/services/esewaService.ts:84-115 | no contract of its own: the table after the completing or the failing write; `VerifyTransitions` and `CompletedCanBecomeFailed` state its transitions |
| Esewa.VerifyTransitions | src/services/esewaService.ts:84-115 | a confirmed and recorded verification makes the row completed with its reference; any other outcome whose failure write goes through makes it failed with the message; other rows and the amount are untouched |
| Esewa.CompletedCanBecomeFailed | src/services/esewaService.ts:104-112 | the failure write has no status guard, so a completed payment is marked failed by a later unconfirmed verification |
| Esewa.CorrectedAfterVerify | src/services/esewaService.ts:104-112 | no contract of its own: the verification evidently intended, with the failure write limited to a pending row; `CorrectedKeepsCompleted` states its properties |
| Esewa.CorrectedKeepsCompleted | src/services/esewaService.ts:104-112 | with the failure write limited to a pending row, a completed payment stays completed, other rows are untouched, and a pending payment moves exactly as before |
| Esewa.PaymentsService.constructor | src/services/esewaService.ts:18 | the service holds the given payments table |
| Esewa.PaymentsService.InitiatePayment | src/services/esewaService.ts:19-67 | an insert error is passed on with no payload and no row; otherwise the new row is `NewPayment` under the store's fresh id and the payload is `BuildPayload` for it |
| Esewa.PaymentsService.VerifyPayment | src/services/esewaService.ts:69-116 | the query is `BuildVerifyQuery`; the call succeeds exactly when the response verifies and the completing write went through; the table becomes `AfterVerify` |
| PaymentSuccess.PaymentIdOf | src/pages/payment/PaymentSuccess.tsx:23 | no contract of its own: `pid.replace("BOOKSHARE_", "")`; `PaymentIdRoundTrip` and `PaymentIdWithoutPrefix` state what it recovers |
| PaymentSuccess.PaymentIdRoundTrip | src/pages/payment/PaymentSuccess.tsx:23 | removing the first "BOOKSHARE_" from `Pid(id)` gives back `id` |
| PaymentSuccess.PaymentIdWithoutPrefix | src/pages/payment/PaymentSuccess.tsx:23 | a pid without the prefix is used unchanged as the payment id |
| PaymentSuccess.VerifyCallFor | src/pages/payment/PaymentSuccess.tsx:14-29 | verification is skipped exactly when refId, amt or pid is missing or empty; otherwise it is asked for the parsed payment id, the reference and the amount |
| PaymentSuccess.OutcomeOf | src/pages/payment/PaymentSuccess.tsx:25-45 | both outcomes go to "/books"; the success toast is shown exactly when verification was asked for and returned normally, and the failure toast otherwise |
| PaymentSuccess.ReturnVerifiesInitiatedPayment | src/pages/payment/PaymentSuccess.tsx:14-29 | when the gateway returns the pid it was given, the page verifies the payment that was started, and the service rebuilds that same pid |
| Tables.SetStatus | src/services/supabaseService.ts:68-70 | a status write keeps the ids, sets that row's status, and leaves every other row alone; an unknown id changes nothing (see also lines 97-102) |
| Tables.WithStatus | src/pages/AdminDashboard.tsx:86-93 | `.select("*").eq("status", s)` gives exactly the ids of the rows with that status |
| Tables.SetStatusCount | src/pages/AdminDashboard.tsx:86-100 | moving one row from one status to another adds one to the rows with the new status and removes one from the old (see also lines 297-309) |
| Tables.SetStatusOtherCount | src/pages/AdminDashboard.tsx:86-100 | such a move leaves the rows of every other status unchanged (see also lines 297-309) |
| Tables.Store.constructor | src/services/supabaseService.ts:47-102 | the store holds the two given tables |
| Tables.Store.UpdateStatus | src/services/supabaseService.ts:68-70 | the table written follows the kind, any status is accepted whatever the current one, and an error leaves both tables as they were (see also lines 97-102) |
| TransactionsPage.ActionStatus | src/pages/TransactionsPage.tsx:335-351 | an action writes a status exactly when it is approve, reject, cancel or complete, and the status is one of approved, rejected, cancelled and completed |
| TransactionsPage.ActionMapping | src/pages/TransactionsPage.tsx:336-350 | approve, reject, cancel and complete map to approved, rejected, cancelled and completed; "message" writes nothing |
| TransactionsPage.ApprovedOutsideSharedVocabulary | src/pages/TransactionsPage.tsx:20 | the status approve writes is not one of the five statuses of the shared types (see also lines 338) |
| TransactionsPage.OfferedActions | src/pages/TransactionsPage.tsx:469-566 | no contract of its own: the buttons each card shows by status and tab; `OfferedActionsIff` states both directions |
| TransactionsPage.OfferedActionsIff | src/pages/TransactionsPage.tsx:469-566 | approve and reject are offered exactly on pending incoming cards, cancel exactly on pending outgoing cards, and complete exactly on approved cards |
| TransactionsPage.OfferedTransitions | src/pages/TransactionsPage.tsx:469-566 | the offered buttons only move pending to approved, rejected or cancelled and approved to completed; rejected, cancelled and completed cards offer no status change |
| TransactionsPage.WriteIsUnguarded | src/pages/TransactionsPage.tsx:353-359 | the write itself has no guard: approving a completed rental sets it back to approved |
| TransactionsPage.ToCardBook | src/pages/TransactionsPage.tsx:99-104 | a card's book keeps id and title, and a missing cover falls back to the default |
| TransactionsPage.ToCardUser | src/pages/TransactionsPage.tsx:106-112 | a card's user keeps id and name, and a missing avatar falls back to the dicebear URL seeded with the id |
| TransactionsPage.RentalCard | src/pages/TransactionsPage.tsx:93-147 | a rental card is tagged rental, keeps id, status and date, names the requester on the incoming tab and the owner on the outgoing one, and carries the dates and price |
| TransactionsPage.ExchangeCard | src/pages/TransactionsPage.tsx:149-209 | an exchange card is tagged exchange, shows the requested book, names the tab's counterpart and carries the offered book |
| TransactionsPage.RentalCards | src/pages/TransactionsPage.tsx:93-147 | one card per rental row, in order |
| TransactionsPage.ExchangeCards | src/pages/TransactionsPage.tsx:149-209 | one card per exchange row, in order |
| TransactionsPage.TabList | src/pages/TransactionsPage.tsx:211-218 | no contract of its own: a tab's rental cards then its exchange cards, a missing result counting as none; `TabListSplitsByKind` and `TabListCounterparts` state its content |
| TransactionsPage.TabListSplitsByKind | src/pages/TransactionsPage.tsx:211-218 | a tab's list is its rental cards followed by its exchange cards, and a missing result counts as no rows |
| TransactionsPage.TabListCounterparts | src/pages/TransactionsPage.tsx:106-112 | on the incoming tab every card names the requester; on the outgoing tab, the owner (see also lines 133-139, 160-166, 192-197) |
| TransactionsPage.TransactionsPageState.constructor | src/pages/TransactionsPage.tsx:48-54 | the page starts loading with both lists empty |
| TransactionsPage.TransactionsPageState.FetchTransactions | src/pages/TransactionsPage.tsx:65-90 | without an error both tab lists are rebuilt from the four results; after an error they stay as they were; loading ends (see also lines 211-218, 324-326) |
| TransactionsPage.TransactionsPageState.HandleAction | src/pages/TransactionsPage.tsx:329-367 | the status written is `ActionStatus`; another action touches nothing; a write goes to the table of the kind and changes only that row; success refreshes; an error alerts and changes no table |
| AdminDashboard.FilteredUsers | src/pages/AdminDashboard.tsx:231-235 | a user is kept exactly when the name or email includes the term ignoring case, and the order is kept; a kept entry keeps every copy and a dropped one none |
| AdminDashboard.FilteredBooks | src/pages/AdminDashboard.tsx:237-241 | a book is kept exactly when the title or author includes the term ignoring case, and the order is kept; a kept entry keeps every copy and a dropped one none |
| AdminDashboard.FilteredTransactions | src/pages/AdminDashboard.tsx:243-248 | a transaction is kept exactly when the book, requester or owner includes the term ignoring case, and the order is kept; a kept entry keeps every copy and a dropped one none |
| AdminDashboard.MatchesEmpty | src/pages/AdminDashboard.tsx:231-248 | every text includes the empty term |
| AdminDashboard.EmptySearch | src/pages/AdminDashboard.tsx:231-248 | with an empty term every transaction is listed, but a user with neither name nor email, and a book with neither title nor author, is not |
| AdminDashboard.FormatRental | src/pages/AdminDashboard.tsx:116-127 | a rental row is tagged rental and shows book title, requester and owner names, and "start to end" |
| AdminDashboard.FormatExchange | src/pages/AdminDashboard.tsx:129-138 | an exchange row is tagged exchange and shows "Exchanged for: " and the offered title |
| AdminDashboard.FormatRentals | src/pages/AdminDashboard.tsx:116-127 | one formatted row per rental, in order |
| AdminDashboard.FormatExchanges | src/pages/AdminDashboard.tsx:129-138 | one formatted row per exchange, in order |
| AdminDashboard.Formatted | src/pages/AdminDashboard.tsx:116-140 | no contract of its own: the formatted rentals then the formatted exchanges; `FormattedSplitsByKind` states its content |
| AdminDashboard.FormattedSplitsByKind | src/pages/AdminDashboard.tsx:116-140 | the combined table is the formatted rentals followed by the formatted exchanges |
| AdminDashboard.CountOrZero | src/pages/AdminDashboard.tsx:98-99 | the count of a result set, a missing result counting as 0 |
| AdminDashboard.LengthOrZero | src/pages/AdminDashboard.tsx:96-97 | no contract of its own: `data?.length || 0` for a list result; `StoredStats` and `FetchDashboardData` use it |
| AdminDashboard.StoredStats | src/pages/AdminDashboard.tsx:84-100 | active rentals count the approved rental requests and completed exchanges the completed proposals |
| AdminDashboard.ApprovingRaisesActiveRentals | src/pages/AdminDashboard.tsx:86-100 | approving a pending rental raises the active rentals by one and leaves completed exchanges alone (see also lines 297-302) |
| AdminDashboard.CompletingMovesCounts | src/pages/AdminDashboard.tsx:86-100 | completing an approved rental lowers the active rentals by one; completing an approved exchange raises the completed exchanges by one (see also lines 297-309) |
| AdminDashboard.OfferedStatuses | src/pages/AdminDashboard.tsx:784-831 | no contract of its own: the statuses offered from each status; `OfferedTransitionsIff` states both directions |
| AdminDashboard.OfferedTransitionsIff | src/pages/AdminDashboard.tsx:784-831 | the offered transitions are exactly pending to approved, pending to rejected and approved to completed |
| AdminDashboard.AdminDashboardState.constructor | src/pages/AdminDashboard.tsx:46-54 | the dashboard starts with zero statistics and empty tables |
| AdminDashboard.AdminDashboardState.FetchDashboardData | src/pages/AdminDashboard.tsx:81-140 | the four statistics count the results, a missing one as 0; users and books are the results or empty; the transactions are the combined formatted table |
| AdminDashboard.AdminDashboardState.HandleUpdateTransactionStatus | src/pages/AdminDashboard.tsx:291-316 | the write goes to the table of the kind and changes only that row's status; success alerts "Transaction status updated to " with the status and reloads; an error alerts and changes nothing |
| ExchangeProposalModal.FilteredBooks | src/components/transactions/ExchangeProposalModal.tsx:98-102 | a book is offered exactly when its title or author includes the query ignoring case, in the user's order; a kept entry keeps every copy and a dropped one none |
| ExchangeProposalModal.EmptyQueryOffersAll | src/components/transactions/ExchangeProposalModal.tsx:98-102 | an empty query offers every book |
| ExchangeProposalModal.IncludesShorter | src/components/transactions/ExchangeProposalModal.tsx:98-102 | a text including `q + more` includes `q` |
| ExchangeProposalModal.NarrowingQuery | src/components/transactions/ExchangeProposalModal.tsx:98-102 | typing more never offers a book the shorter query did not |
| ExchangeProposalModal.Submit | src/components/transactions/ExchangeProposalModal.tsx:104-117 | with no selection nothing happens; otherwise the proposal offers the selected book for the requested one with the message, the selection and message are cleared, the search is kept, and `onOpenChange(false)` asks the parent to close the dialog |
| ExchangeProposalModal.SubmitTwiceSendsOnce | src/components/transactions/ExchangeProposalModal.tsx:104-117 | a second submit right after a first sends nothing |
| NotificationDropdown.UnreadCount | src/components/notifications/NotificationDropdown.tsx:36 | no contract of its own: the unread notifications that are not messages; `CountsSplitUnread` relates it to the unread total |
| NotificationDropdown.MessageCount | src/components/notifications/NotificationDropdown.tsx:37 | no contract of its own: the unread messages; `CountsSplitUnread` relates it to the unread total |
| NotificationDropdown.MessageList | src/components/notifications/NotificationDropdown.tsx:99-100 | no contract of its own: the message notifications; `MenusPartition` states the split |
| NotificationDropdown.BellList | src/components/notifications/NotificationDropdown.tsx:159-160 | no contract of its own: the other notifications; `MenusPartition` states the split |
| NotificationDropdown.CountsSplitUnread | src/components/notifications/NotificationDropdown.tsx:36-37 | `unreadCount` (unread, not messages) plus `messageCount` (unread messages) is the number of unread notifications, and each is at most the list length |
| NotificationDropdown.MenusPartition | src/components/notifications/NotificationDropdown.tsx:99-100 | every notification is in exactly one of the two menus, and each menu keeps the list's order (see also lines 159-160) |
| NotificationDropdown.Render | src/components/notifications/NotificationDropdown.tsx:78-91 | each badge shows its count and each "mark all as read" button appears exactly when that count is above 0 (see also lines 138-151) |
| NotificationDropdown.AllRead | src/components/notifications/NotificationDropdown.tsx:52-60 | marking all as read keeps every notification with its read flag set |
| NotificationDropdown.AllReadClearsBadges | src/components/notifications/NotificationDropdown.tsx:52-60 | once all are read no badge and no "mark all as read" button is shown (see also lines 78-91, 138-151) |
| NotificationDropdown.ItemClick | src/components/notifications/NotificationDropdown.tsx:105-110 | clicking marks that notification read and navigates exactly when it has a non-empty action URL |
| Text.ToLower | src/pages/BooksPage.tsx:110-112 | lower-casing keeps the length and lower-cases each character on its own; `ToLowerIdempotent` is its partner |
| Text.ToLowerIdempotent | src/pages/BooksPage.tsx:110-112 | lower-casing an already lower-cased string changes nothing, which makes the case-insensitive searches and the eSewa verdict independent of the input's case |
| Text.IntToString | src/components/filters/FilterBar.tsx:99 | a number's text in a template literal is non-empty and made of digits and '-' only (see also lines 101) |
| Text.Utf16Length | src/types/books.ts:9-16 | JavaScript's `length` in UTF-16 code units lies between the character count and twice it, and is 0 exactly for the empty string |
| Text.Utf16LengthBmp | src/types/books.ts:9-16 | on text of the Basic Multilingual Plane the code-unit length is the character count |
| Text.Utf16LengthAstral | src/types/books.ts:9-16 | text made only of characters above U+FFFF has twice as many code units as characters |
| Text.StartsWith | src/components/filters/FilterBar.tsx:82 | no contract of its own: `s.startsWith(p)` as a prefix test; `FindIndexStartingWith` and the chip lemmas use it |
| Text.Includes | src/pages/BooksPage.tsx:110-112 | no contract of its own: `s.includes(sub)` as a prefix of some suffix; `IncludesAt` states the positional reading |
| Text.IncludesAt | src/pages/BooksPage.tsx:110-112 | `includes` holds exactly when the text starts with the substring at some position |
| Text.ReplaceFirst | src/pages/payment/PaymentSuccess.tsx:23 | no contract of its own: `replace` with a string pattern replaces its first occurrence; `ReplaceFirstAbsent` and `PaymentIdRoundTrip` state what it does |
| Text.Before | src/components/filters/FilterBar.tsx:128 | `split(":")[0]`: the text before the first colon, a prefix with no colon in it, followed by a colon whenever it is shorter than the text |
| Lists.Filter | src/pages/BooksPage.tsx:108-122 | `filter` keeps only elements that pass the test, each taken from the list, and keeps every listed element that passes |
| Lists.FilterOccurrences | src/pages/AdminDashboard.tsx:231-235 | `filter` keeps every copy of a kept element and no copy of a dropped one |

## Left out

- Supabase I/O: queries, inserts, updates, deletes and the auth session are not modelled. A query result or write error is an input of the operation. The two transaction tables and the payments table are maps.
- The payments table's columns are inferred from the insert and update calls of the payment service. Its generated type is not part of this model.
- Esewa.PaymentsService.InitiatePayment: requires an id not yet in the table, standing for the id the store assigns.
- The `fetch` to the gateway is an input `(ok, text)`. Building and posting the hidden HTML form in the rental dialog is not modelled.
- Timers: the 30-second polling, `setTimeout` delays and `Promise.all` are not modelled.
- The `setTimeout` placeholder data of the transactions page and the demo statistics of the admin dashboard are not modelled. After a failed fetch the lists keep their previous contents.
- Floating point: prices, amounts and dates are integers, NaN is not modelled, and `parseFloat(amt)` is kept as the amount text.
- `toLocaleDateString` and `format(…, 'yyyy-MM-dd')` are function parameters. So is the caller's current time.
- The URL check (zod `.url()` and `new URL`) is a predicate parameter, not a URL parser.
- Text.ToLower: follows `toLowerCase` on ASCII letters only; other characters are left unchanged.
- Zod's exact issue messages are stand-ins where the source relies on library text (enum and type errors).
- Only the fields the core reads or writes are kept in the records. Pass-through fields such as `pages` and `published_year` are left out.
- BooksPage.ToDetailedBook: does not model the owner's `rating` and `booksShared` fallbacks or the fixed `distance`, which are display values.
- The joined rows carry both the requester and the owner. The incoming queries join only the requester and the outgoing ones only the owner.
- The admin dashboard's delete-user and delete-book handlers are not modelled; they call the store and reload.
- The `useEffect` redirects to "/" for visitors who are not signed in or not admins are not modelled.
- NotificationDropdown.AllRead: states the effect of `markAllAsRead` on the list only; the store write and the reload that shows it are not modelled.
- FilterBar.FilterBarState.RemoveFilter: requires the chip to be one in the list, since the bar only offers removal from a shown chip.
- Rendering, styling, toasts as UI and dialogs' open-change callbacks are not modelled. Of the files outside the fourteen core components and services, only the status updates of src/services/supabaseService.ts (lines 47-102, the `Tables` module) are modelled; the rest are not.

## Findings

| source | as written | input that shows it | evidently intended | confidence | as-written member | corrected member |
|---|---|---|---|---|---|---|
| src/components/books/BookGrid.tsx:367-411 | the window skips page 1, which has its own link, but not the last page, which also has its own link after Next | `totalPages = 3, currentPage = 1` shows 1, 2, 3, 3 | each page link appears once, in increasing order | not executed | BookGrid.PageLinksRepeatLast, BookGrid.ThreePagesShowLastTwice | BookGrid.CorrectedPageLinksIncrease |
| src/components/filters/FilterBar.tsx:80-86 | the earlier chip of a filter is looked up with `startsWith(key)`, but the keys "locationRadius" and "priceRange" begin no chip, since those chips start with "radius:" and "price:" | setting the radius to 20 and then to 30 shows "radius:20mi" and "radius:30mi" | one chip per filter, the new one replacing the old | not executed | FilterBar.RadiusAndPriceChipsAccumulate, FilterBar.TwoRadiusChips | FilterBar.CorrectedUpdatedChips, FilterBar.CorrectedUpdateKeepsOneChip, FilterBar.CorrectedRadiusChip |
| src/pages/BooksPage.tsx:202-253 | the rental button selects the book from the list transform, which builds no owner, so `owner_id: selectedBook?.owner?.id` is undefined | any book picked from the grid and then submitted for rental | the request names the book's owner, whose id the list query already fetched | not executed | BooksPage.GridRentalHasNoOwner | BooksPage.CorrectedRentalData, BooksPage.CorrectedGridRentalHasOwner |
| src/services/esewaService.ts:104-112 | the catch branch marks the payment failed whatever its current status | a completed payment verified again with a response that is not OK becomes failed | a payment once completed stays completed | not executed | Esewa.CompletedCanBecomeFailed | Esewa.CorrectedAfterVerify, Esewa.CorrectedKeepsCompleted |
