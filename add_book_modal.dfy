/**
 * The "add a book" dialog: its schema (title and author required, one of
 * five capitalised conditions, a price coerced to a number that must not be
 * negative) and its submit handler, which needs a signed-in user, fills in
 * a default cover, and sends the form data with the owner and availability
 * added.
 */
module AddBookModal {
  import opened Wrappers

  // ---------------------------------------------------------------------------
  // The schema

  datatype Issue = Issue(path: string, message: string)

  const InvalidEnum: string := "Invalid enum value"
  const NotANumber: string := "Expected number, received nan"

  /** The form as submitted; `rentalPrice` is what `Number(...)` made of the price field, `None` for NaN. */
  datatype AddInput = AddInput(
    title: string,
    author: string,
    description: Option<string>,
    coverImage: Option<string>,
    condition: string,
    rentalPrice: Option<int>,
    genre: Option<string>,
    isbn: Option<string>,
    location: Option<string>)

  /** The validated form. */
  datatype AddData = AddData(
    title: string,
    author: string,
    description: Option<string>,
    coverImage: Option<string>,
    condition: string,
    rentalPrice: int,
    genre: Option<string>,
    isbn: Option<string>,
    location: Option<string>)

  const Conditions: set<string> := {"New", "Like New", "Good", "Fair", "Poor"}

  function Issues(x: AddInput): seq<Issue> {
    (if |x.title| < 1 then [Issue("title", "Title is required")] else [])
      + (if |x.author| < 1 then [Issue("author", "Author is required")] else [])
      + (if x.condition !in Conditions then [Issue("condition", InvalidEnum)] else [])
      + (match x.rentalPrice
         case None => [Issue("rental_price", NotANumber)]
         case Some(n) => if n < 0 then [Issue("rental_price", "Price must be a positive number")] else [])
  }

  function Parse(x: AddInput): Result<AddData, seq<Issue>> {
    if Issues(x) == [] then
      Ok(AddData(x.title, x.author, x.description, x.coverImage, x.condition, x.rentalPrice.GetOr(0), x.genre, x.isbn, x.location))
    else Err(Issues(x))
  }

  /** The schema accepts exactly non-empty title and author, a listed condition and a number that is at least 0. */
  lemma ParseOkIff(x: AddInput)
    ensures Parse(x).Ok? <==>
      |x.title| >= 1 && |x.author| >= 1 && x.condition in Conditions && x.rentalPrice.Some? && x.rentalPrice.value >= 0
    ensures Parse(x).Ok? ==> Parse(x).value.rentalPrice == x.rentalPrice.value && Parse(x).value.rentalPrice >= 0
  {
  }

  /** The lower-case names of the shared schema are not accepted here. */
  lemma LowerCaseConditionRefused(x: AddInput)
    requires x.condition == "good"
    ensures Parse(x).Err? && Issue("condition", InvalidEnum) in Parse(x).error
  {
    var a := (if |x.title| < 1 then [Issue("title", "Title is required")] else [])
      + (if |x.author| < 1 then [Issue("author", "Author is required")] else []);
    assert Issues(x) == a + [Issue("condition", InvalidEnum)] + (match x.rentalPrice
         case None => [Issue("rental_price", NotANumber)]
         case Some(n) => if n < 0 then [Issue("rental_price", "Price must be a positive number")] else []);
    assert Issues(x)[|a|] == Issue("condition", InvalidEnum);
  }

  /** The dialog's starting values, which the schema refuses until a title and an author are typed. */
  const DefaultValues: AddInput := AddInput("", "", Some(""), Some(""), "Good", Some(5), Some(""), Some(""), Some(""))

  lemma DefaultValuesIncomplete()
    ensures Parse(DefaultValues).Err?
    ensures Parse(DefaultValues).error == [Issue("title", "Title is required"), Issue("author", "Author is required")]
  {
  }

  // ---------------------------------------------------------------------------
  // Submitting

  const DefaultCover: string := "https://images.unsplash.com/photo-1544947950-fa07a98d237f?q=80&w=1000"
  const LoginAlert: string := "You must be logged in to add a book"
  const FailureAlert: string := "Failed to add book. Please try again."

  /** `{ ...data, owner_id, is_available: true }` */
  datatype BookData = BookData(data: AddData, ownerId: string, isAvailable: bool)

  /** A missing or empty cover becomes the default one. */
  function WithDefaultCover(d: AddData): (r: AddData)
    ensures r.coverImage.Some? && r.coverImage.value != ""
    ensures d.coverImage.Some? && d.coverImage.value != "" ==> r == d
    ensures r == d.(coverImage := r.coverImage)
  {
    if d.coverImage.Some? && d.coverImage.value != "" then d else d.(coverImage := Some(DefaultCover))
  }

  lemma WithDefaultCoverIdempotent(d: AddData)
    ensures WithDefaultCover(WithDefaultCover(d)) == WithDefaultCover(d)
  {
  }

  /** The form data object, whose cover the handler fills in place. */
  class FormData {
    var value: AddData

    constructor (d: AddData)
      ensures value == d
    {
      value := d;
    }
  }

  /** The dialog's own state; whether it is open is the parent's `open` prop. */
  class AddBookDialog {
    var isLoading: bool
    var values: AddInput
    var alert: Option<string>

    constructor ()
      ensures !isLoading && values == DefaultValues && alert == None
    {
      isLoading := false;
      values := DefaultValues;
      alert := None;
    }

    /**
     * `handleSubmit(data)`, given the signed-in user (if any) and whether
     * the insert failed. Returns what was sent to the store, what was
     * passed on to the page, and whether `onOpenChange(false)` asked the
     * parent to close the dialog.
     */
    method HandleSubmit(user: Option<string>, data: FormData, insertFailed: bool)
      returns (inserted: Option<BookData>, passedOn: Option<BookData>, closeRequested: bool)
      modifies this, data
      ensures user.None? ==>
        && data.value == old(data.value) && inserted == None && passedOn == None
        && isLoading == old(isLoading) && !closeRequested && values == old(values)
        && alert == Some(LoginAlert)
      ensures user.Some? ==>
        && data.value == WithDefaultCover(old(data.value))
        && inserted == Some(BookData(data.value, user.value, true))
        && !isLoading
      ensures user.Some? && !insertFailed ==>
        passedOn == inserted && closeRequested && values == DefaultValues && alert == old(alert)
      ensures user.Some? && insertFailed ==>
        passedOn == None && !closeRequested && values == old(values) && alert == Some(FailureAlert)
    {
      inserted, passedOn, closeRequested := None, None, false;
      if user.None? {
        alert := Some(LoginAlert);
        return;
      }
      isLoading := true;
      if !(data.value.coverImage.Some? && data.value.coverImage.value != "") {
        data.value := data.value.(coverImage := Some(DefaultCover));
      }
      var bookData := BookData(data.value, user.value, true);
      inserted := Some(bookData);
      if insertFailed {
        alert := Some(FailureAlert);
      } else {
        passedOn := Some(bookData);
        values := DefaultValues;
        closeRequested := true;
      }
      isLoading := false;
    }
  }
}
