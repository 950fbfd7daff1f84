/**
 * The shared book vocabulary: the status and condition enumerations, the
 * transaction status enumeration, the record shapes of a stored and an
 * inserted book, and the form schema as a record validator that either
 * yields the parsed form data (with its defaults filled in) or the list of
 * issues found.
 */
module BookTypes {
  import opened Wrappers
  import opened Text

  // ---------------------------------------------------------------------------
  // Enumerations

  datatype BookStatus = Available | Borrowed | Unavailable

  function StatusName(s: BookStatus): string {
    match s
    case Available => "available"
    case Borrowed => "borrowed"
    case Unavailable => "unavailable"
  }

  function ParseStatus(t: string): (r: Option<BookStatus>)
    ensures r.Some? ==> StatusName(r.value) == t
  {
    if t == "available" then Some(Available)
    else if t == "borrowed" then Some(Borrowed)
    else if t == "unavailable" then Some(Unavailable)
    else None
  }

  /** The status names and the statuses are in one-to-one correspondence. */
  lemma StatusRoundTrip(s: BookStatus, t: string)
    ensures ParseStatus(StatusName(s)) == Some(s)
    ensures ParseStatus(t).Some? <==> t in {"available", "borrowed", "unavailable"}
  {
  }

  datatype Condition = New | LikeNew | Good | Fair | Poor

  function ConditionName(c: Condition): string {
    match c
    case New => "new"
    case LikeNew => "like_new"
    case Good => "good"
    case Fair => "fair"
    case Poor => "poor"
  }

  function ParseCondition(t: string): (r: Option<Condition>)
    ensures r.Some? ==> ConditionName(r.value) == t
  {
    if t == "new" then Some(New)
    else if t == "like_new" then Some(LikeNew)
    else if t == "good" then Some(Good)
    else if t == "fair" then Some(Fair)
    else if t == "poor" then Some(Poor)
    else None
  }

  lemma ConditionRoundTrip(c: Condition, t: string)
    ensures ParseCondition(ConditionName(c)) == Some(c)
    ensures ParseCondition(t).Some? <==> t in {"new", "like_new", "good", "fair", "poor"}
  {
  }

  /** The five transaction statuses. */
  datatype TransactionStatus = Pending | Accepted | Rejected | Completed | Cancelled

  function TransactionStatusName(s: TransactionStatus): string {
    match s
    case Pending => "pending"
    case Accepted => "accepted"
    case Rejected => "rejected"
    case Completed => "completed"
    case Cancelled => "cancelled"
  }

  function ParseTransactionStatus(t: string): (r: Option<TransactionStatus>)
    ensures r.Some? ==> TransactionStatusName(r.value) == t
  {
    if t == "pending" then Some(Pending)
    else if t == "accepted" then Some(Accepted)
    else if t == "rejected" then Some(Rejected)
    else if t == "completed" then Some(Completed)
    else if t == "cancelled" then Some(Cancelled)
    else None
  }

  /**
   * Exactly five names parse, and each status comes back from its name; in
   * particular "approved", which the transaction screens write, is not one.
   */
  lemma TransactionStatusRoundTrip(s: TransactionStatus, t: string)
    ensures ParseTransactionStatus(TransactionStatusName(s)) == Some(s)
    ensures ParseTransactionStatus(t).Some? <==> t in {"pending", "accepted", "rejected", "completed", "cancelled"}
    ensures ParseTransactionStatus("approved") == None
  {
  }

  // ---------------------------------------------------------------------------
  // Record shapes

  /** A stored book. */
  datatype Book = Book(
    id: string,
    title: string,
    author: string,
    description: Option<string>,
    isbn: Option<string>,
    coverImage: Option<string>,
    genre: Option<seq<string>>,
    condition: string,
    rentalPrice: int,
    ownerId: string,
    status: BookStatus,
    location: Option<string>)

  /** What is sent to create a book; the timestamps are given by the caller. */
  datatype BookInsert = BookInsert(
    title: string,
    author: string,
    description: Option<string>,
    coverImage: Option<string>,
    ownerId: string,
    condition: string,
    genre: Option<seq<string>>,
    rentalPrice: int,
    isbn: Option<string>,
    status: BookStatus,
    location: Option<string>,
    createdAt: string,
    updatedAt: string)

  // ---------------------------------------------------------------------------
  // The form schema

  /** A validation issue: the field it is about and its message. */
  datatype Issue = Issue(path: string, message: string)

  const InvalidEnum: string := "Invalid enum value"
  const ExpectedNumber: string := "Expected number, received null"
  const MaxLength: nat := 100
  const MaxPrice: int := 10000

  /** A string whose JavaScript length (in UTF-16 code units) must be 1 to 100. */
  function LengthIssues(path: string, s: string, requiredMessage: string, tooLongMessage: string): (r: seq<Issue>)
    ensures r == [] <==> 1 <= Utf16Length(s) <= MaxLength
    ensures s == [] ==> r == [Issue(path, requiredMessage)]
    ensures Utf16Length(s) > MaxLength ==> r == [Issue(path, tooLongMessage)]
    ensures |r| <= 1
  {
    if Utf16Length(s) < 1 then [Issue(path, requiredMessage)]
    else if Utf16Length(s) > MaxLength then [Issue(path, tooLongMessage)]
    else []
  }

  function TitleIssues(s: string): seq<Issue> {
    LengthIssues("title", s, "Title is required", "Title must be less than 100 characters")
  }

  function AuthorIssues(s: string): seq<Issue> {
    LengthIssues("author", s, "Author is required", "Author must be less than 100 characters")
  }

  /** An optional, nullable URL: when a string is given it must pass the URL check. */
  function CoverIssues(cover: JsField<string>, isUrl: string -> bool): (r: seq<Issue>)
    ensures r == [] <==> !cover.Given? || isUrl(cover.value)
  {
    if cover.Given? && !isUrl(cover.value) then [Issue("cover_image", "Please enter a valid image URL")] else []
  }

  function ConditionIssues(c: string): (r: seq<Issue>)
    ensures r == [] <==> ParseCondition(c).Some?
  {
    if ParseCondition(c).None? then [Issue("condition", InvalidEnum)] else []
  }

  function GenreIssues(g: seq<string>): (r: seq<Issue>)
    ensures r == [] <==> |g| >= 1
  {
    if |g| < 1 then [Issue("genre", "Please select at least one genre")] else []
  }

  /** A price given as a number must lie in [0, 10000]. */
  function PriceBoundIssues(n: int): (r: seq<Issue>)
    ensures r == [] <==> 0 <= n <= MaxPrice
  {
    if n < 0 then [Issue("rental_price", "Price cannot be negative")]
    else if n > MaxPrice then [Issue("rental_price", "Price must be less than 10000")]
    else []
  }

  /** A defaulted price: left out is fine (it becomes 0), null is not a number. */
  function DefaultedPriceIssues(p: JsField<int>): (r: seq<Issue>)
    ensures r == [] <==> p.Undefined? || (p.Given? && 0 <= p.value <= MaxPrice)
  {
    match p
    case Undefined => []
    case Null => [Issue("rental_price", ExpectedNumber)]
    case Given(n) => PriceBoundIssues(n)
  }

  /** A defaulted status: left out is fine (it becomes available), anything else must be one of the three names. */
  function StatusIssues(s: JsField<string>): (r: seq<Issue>)
    ensures r == [] <==> s.Undefined? || (s.Given? && ParseStatus(s.value).Some?)
  {
    match s
    case Undefined => []
    case Null => [Issue("status", InvalidEnum)]
    case Given(t) => if ParseStatus(t).None? then [Issue("status", InvalidEnum)] else []
  }

  /** The form as submitted, before validation. */
  datatype FormInput = FormInput(
    title: string,
    author: string,
    description: JsField<string>,
    coverImage: JsField<string>,
    condition: string,
    genre: seq<string>,
    rentalPrice: JsField<int>,
    isbn: JsField<string>,
    status: JsField<string>)

  /** The form after validation, defaults filled in. */
  datatype FormData = FormData(
    title: string,
    author: string,
    description: JsField<string>,
    coverImage: JsField<string>,
    condition: Condition,
    genre: seq<string>,
    rentalPrice: int,
    isbn: JsField<string>,
    status: BookStatus)

  /** Every issue the schema finds, field by field in declaration order. */
  function Issues(x: FormInput, isUrl: string -> bool): seq<Issue> {
    TitleIssues(x.title) + AuthorIssues(x.author) + CoverIssues(x.coverImage, isUrl)
      + ConditionIssues(x.condition) + GenreIssues(x.genre) + DefaultedPriceIssues(x.rentalPrice)
      + StatusIssues(x.status)
  }

  /** The schema's requirements, stated field by field. */
  predicate SchemaHolds(x: FormInput, isUrl: string -> bool) {
    && 1 <= Utf16Length(x.title) <= MaxLength
    && 1 <= Utf16Length(x.author) <= MaxLength
    && (x.coverImage.Given? ==> isUrl(x.coverImage.value))
    && x.condition in {"new", "like_new", "good", "fair", "poor"}
    && |x.genre| >= 1
    && (x.rentalPrice.Undefined? || (x.rentalPrice.Given? && 0 <= x.rentalPrice.value <= MaxPrice))
    && (x.status.Undefined? || (x.status.Given? && x.status.value in {"available", "borrowed", "unavailable"}))
  }

  function Parse(x: FormInput, isUrl: string -> bool): Result<FormData, seq<Issue>> {
    if Issues(x, isUrl) == [] then
      Ok(FormData(x.title, x.author, x.description, x.coverImage,
        ParseCondition(x.condition).GetOr(Good), x.genre,
        match x.rentalPrice { case Given(n) => n case _ => 0 },
        x.isbn,
        match x.status { case Given(t) => ParseStatus(t).GetOr(Available) case _ => Available }))
    else Err(Issues(x, isUrl))
  }

  /** Parsing succeeds exactly when the schema's requirements hold. */
  lemma ParseOkIff(x: FormInput, isUrl: string -> bool)
    ensures Parse(x, isUrl).Ok? <==> SchemaHolds(x, isUrl)
  {
    ConditionRoundTrip(Good, x.condition);
    if x.status.Given? {
      StatusRoundTrip(Available, x.status.value);
    }
  }

  /** Parsed data keeps the text fields, defaults the price to 0 and the status to available, and respects the bounds. */
  lemma ParsedData(x: FormInput, isUrl: string -> bool)
    requires Parse(x, isUrl).Ok?
    ensures var d := Parse(x, isUrl).value;
      && d.title == x.title && d.author == x.author && d.genre == x.genre
      && ConditionName(d.condition) == x.condition
      && 1 <= Utf16Length(d.title) <= MaxLength && 1 <= Utf16Length(d.author) <= MaxLength && |d.genre| >= 1
      && 0 <= d.rentalPrice <= MaxPrice
      && (x.rentalPrice.Undefined? ==> d.rentalPrice == 0)
      && (x.status.Undefined? ==> d.status == Available)
      && (x.status.Given? ==> StatusName(d.status) == x.status.value)
  {
  }

  /** A failed parse names only fields whose requirement fails; in particular a null price is refused. */
  lemma NullPriceRefused(x: FormInput, isUrl: string -> bool)
    requires x.rentalPrice.Null?
    ensures Parse(x, isUrl).Err?
    ensures Issue("rental_price", ExpectedNumber) in Parse(x, isUrl).error
  {
    var pre := TitleIssues(x.title) + AuthorIssues(x.author) + CoverIssues(x.coverImage, isUrl)
      + ConditionIssues(x.condition) + GenreIssues(x.genre);
    assert Issues(x, isUrl) == pre + [Issue("rental_price", ExpectedNumber)] + StatusIssues(x.status);
    assert Issues(x, isUrl)[|pre|] == Issue("rental_price", ExpectedNumber);
  }

  /**
   * A title of exactly 100 characters of the Basic Multilingual Plane is
   * accepted, although its message says "less than 100".
   */
  lemma HundredCharacterTitleAccepted(s: string)
    requires |s| == 100
    requires forall i :: 0 <= i < |s| ==> s[i] as int <= 0xFFFF
    ensures TitleIssues(s) == []
  {
    Utf16LengthBmp(s);
  }

  /** Characters above U+FFFF count twice: a title of 51 emoji is already too long. */
  lemma EmojiTitleTooLong()
    ensures TitleIssues(seq(51, i => '\U{1F600}')) == [Issue("title", "Title must be less than 100 characters")]
  {
    Utf16LengthAstral(seq(51, i => '\U{1F600}'));
  }
}
