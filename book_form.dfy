/**
 * The book form: its schema (the shared one, except that the rental price
 * may be left out or null), the submit handler that guards and then
 * normalises the submitted data object in place before handing it on, and
 * the genre toggle.
 */
module BookForm {
  import opened Wrappers
  import opened Text
  import opened Lists
  import opened BookTypes
  import opened Promises

  // ---------------------------------------------------------------------------
  // The schema

  /** A nullable, optional price: when a number is given it must lie in [0, 10000]. */
  function OptionalPriceIssues(p: JsField<int>): (r: seq<Issue>)
    ensures r == [] <==> !p.Given? || 0 <= p.value <= MaxPrice
  {
    if p.Given? then PriceBoundIssues(p.value) else []
  }

  function FormIssues(x: FormInput, isUrl: string -> bool): seq<Issue> {
    TitleIssues(x.title) + AuthorIssues(x.author) + CoverIssues(x.coverImage, isUrl)
      + ConditionIssues(x.condition) + GenreIssues(x.genre) + OptionalPriceIssues(x.rentalPrice)
      + StatusIssues(x.status)
  }

  /** This form's schema differs from the shared one only in the price, which may be missing or null. */
  lemma FormIssuesVersusShared(x: FormInput, isUrl: string -> bool)
    ensures x.rentalPrice.Given? ==> FormIssues(x, isUrl) == Issues(x, isUrl)
    ensures FormIssues(x, isUrl) == [] <==>
      SchemaHolds(x.(rentalPrice := Undefined), isUrl) && (x.rentalPrice.Given? ==> 0 <= x.rentalPrice.value <= MaxPrice)
  {
    ConditionRoundTrip(Good, x.condition);
    if x.status.Given? {
      StatusRoundTrip(Available, x.status.value);
    }
  }

  /** What the schema hands to the submit handler. */
  datatype Parsed = Parsed(
    title: string,
    author: string,
    coverImage: JsField<string>,
    condition: Condition,
    genre: seq<string>,
    rentalPrice: JsField<int>,
    status: BookStatus)

  function ParseForm(x: FormInput, isUrl: string -> bool): Result<Parsed, seq<Issue>> {
    if FormIssues(x, isUrl) == [] then
      Ok(Parsed(x.title, x.author, x.coverImage, ParseCondition(x.condition).GetOr(Good), x.genre, x.rentalPrice,
        match x.status { case Given(t) => ParseStatus(t).GetOr(Available) case _ => Available }))
    else Err(FormIssues(x, isUrl))
  }

  // ---------------------------------------------------------------------------
  // Submit-time normalisation

  /** The placeholder cover, written as scheme plus rest so that its scheme is evident. */
  const PlaceholderCover: string := "https://" + "via.placeholder.com/300x450?text=No+Cover"
  const InvalidUrlMessage: string := "Please enter a valid URL"

  /** The data object's fields as the handler sees them; a genre of `None` is a value that is not an array. */
  datatype SubmitValue = SubmitValue(
    title: string,
    author: string,
    coverImage: JsField<string>,
    condition: string,
    genre: Option<seq<string>>,
    rentalPrice: JsField<int>,
    status: string)

  function FromParsed(d: Parsed): SubmitValue {
    SubmitValue(d.title, d.author, d.coverImage, ConditionName(d.condition), Some(d.genre), d.rentalPrice, StatusName(d.status))
  }

  /** `/^https?:\/\//i`: the text starts with `http://` or `https://`, in any letter case. */
  predicate HasScheme(s: string) {
    StartsWith(ToLower(s), "http://") || StartsWith(ToLower(s), "https://")
  }

  /** `https://` put in front of a URL that has no scheme. */
  function WithScheme(s: string): (r: string)
    ensures HasScheme(r)
    ensures HasScheme(s) ==> r == s
    ensures !HasScheme(s) ==> r == "https://" + s
  {
    if HasScheme(s) then s
    else
      assert ("https://" + s)[..8] == "https://";
      HttpsHasScheme("https://" + s);
      "https://" + s
  }

  /** Anything starting with `https://` has a scheme. */
  lemma HttpsHasScheme(s: string)
    requires StartsWith(s, "https://")
    ensures HasScheme(s)
  {
    assert forall i :: 0 <= i < 8 ==> ToLower(s)[i] == s[i];
    assert ToLower(s)[..8] == "https://";
  }

  lemma PlaceholderHasScheme()
    ensures HasScheme(PlaceholderCover)
  {
    assert PlaceholderCover[..8] == "https://";
    HttpsHasScheme(PlaceholderCover);
  }

  /** Prefixing is idempotent. */
  lemma WithSchemeIdempotent(s: string)
    ensures WithScheme(WithScheme(s)) == WithScheme(s)
  {
  }

  predicate TruthyText(f: JsField<string>) {
    f.Given? && f.value != ""
  }

  /** A price that is not a number becomes `Number(x) || 0`; `Number(null)` is 0 and `Number(undefined)` is NaN, so both give 0. */
  function CoercePrice(v: SubmitValue): (w: SubmitValue)
    ensures w.rentalPrice.Given?
    ensures v.rentalPrice.Given? ==> w == v
    ensures !v.rentalPrice.Given? ==> w == v.(rentalPrice := Given(0))
  {
    if v.rentalPrice.Given? then v else v.(rentalPrice := Given(0))
  }

  /** A given cover gets its scheme; a missing or empty one becomes the placeholder. */
  function FixCover(v: SubmitValue): (w: SubmitValue)
    ensures w.coverImage.Given? && HasScheme(w.coverImage.value)
    ensures TruthyText(v.coverImage) ==> w == v.(coverImage := Given(WithScheme(v.coverImage.value)))
    ensures !TruthyText(v.coverImage) ==> w == v.(coverImage := Given(PlaceholderCover))
  {
    if TruthyText(v.coverImage) then v.(coverImage := Given(WithScheme(v.coverImage.value)))
    else
      PlaceholderHasScheme();
      v.(coverImage := Given(PlaceholderCover))
  }

  /** A genre that is not an array becomes empty; an empty condition becomes "good" and an empty status "available". */
  function FillDefaults(v: SubmitValue): (w: SubmitValue)
    ensures w.genre == Some(v.genre.GetOr([]))
    ensures w.condition == (if v.condition == "" then "good" else v.condition)
    ensures w.status == (if v.status == "" then "available" else v.status)
    ensures w.title == v.title && w.author == v.author && w.coverImage == v.coverImage && w.rentalPrice == v.rentalPrice
  {
    v.(genre := Some(v.genre.GetOr([])),
       condition := if v.condition == "" then "good" else v.condition,
       status := if v.status == "" then "available" else v.status)
  }

  datatype SubmitOutcome = MissingFields | InvalidCover | Ready(value: SubmitValue)

  /** The handler's decision, on values. */
  function Normalise(v: SubmitValue, isUrl: string -> bool): (o: SubmitOutcome)
    ensures o.MissingFields? <==> v.title == "" || v.author == ""
    ensures o.InvalidCover? <==> v.title != "" && v.author != "" && TruthyText(v.coverImage) && !isUrl(WithScheme(v.coverImage.value))
    ensures o.Ready? ==> o.value == FillDefaults(FixCover(CoercePrice(v)))
  {
    if v.title == "" || v.author == "" then MissingFields
    else
      var priced := CoercePrice(v);
      var covered := FixCover(priced);
      if TruthyText(v.coverImage) && !isUrl(covered.coverImage.value) then InvalidCover
      else Ready(FillDefaults(covered))
  }

  /** What a ready submission always satisfies. */
  lemma ReadyShape(v: SubmitValue, isUrl: string -> bool)
    requires Normalise(v, isUrl).Ready?
    ensures var w := Normalise(v, isUrl).value;
      && w.title != "" && w.author != ""
      && w.rentalPrice.Given? && (v.rentalPrice.Given? ==> w.rentalPrice == v.rentalPrice)
      && w.coverImage.Given? && HasScheme(w.coverImage.value)
      && (!TruthyText(v.coverImage) ==> w.coverImage.value == PlaceholderCover)
      && (TruthyText(v.coverImage) ==> isUrl(w.coverImage.value))
      && w.genre.Some? && w.condition != "" && w.status != ""
  {
  }

  /** Normalising a ready submission again changes nothing (given that the placeholder passes the URL check). */
  lemma NormaliseIdempotent(v: SubmitValue, isUrl: string -> bool)
    requires isUrl(PlaceholderCover)
    requires Normalise(v, isUrl).Ready?
    ensures Normalise(Normalise(v, isUrl).value, isUrl) == Normalise(v, isUrl)
  {
    var w := Normalise(v, isUrl).value;
    ReadyShape(v, isUrl);
    WithSchemeIdempotent(w.coverImage.value);
    assert |ToLower(w.coverImage.value)| >= 7;
  }

  /** Data that passed the schema always clears the title/author guard, and the genre, condition and status defaults never fire. */
  lemma ParsedPassesGuard(x: FormInput, isUrl: string -> bool)
    requires ParseForm(x, isUrl).Ok?
    ensures var v := FromParsed(ParseForm(x, isUrl).value);
      && !Normalise(v, isUrl).MissingFields?
      && FillDefaults(v) == v
  {
    var v := FromParsed(ParseForm(x, isUrl).value);
    var d := ParseForm(x, isUrl).value;
    assert ConditionName(d.condition) != "";
    assert StatusName(d.status) != "";
  }

  // ---------------------------------------------------------------------------
  // Genre toggle

  /** A genre that is selected is removed (every copy); one that is not is appended. */
  function ToggleGenre(genres: seq<string>, g: string): seq<string> {
    if g in genres then Filter(x => x != g, genres) else genres + [g]
  }

  /** The toggled genre flips membership; every other genre keeps it. */
  lemma ToggleMembership(genres: seq<string>, g: string, x: string)
    ensures x in ToggleGenre(genres, g) <==> (if x == g then g !in genres else x in genres)
  {
    if g in genres {
      var r := Filter(y => y != g, genres);
      if x in genres && x != g {
        var i :| 0 <= i < |genres| && genres[i] == x;
        assert genres[i] in r;
      }
    }
  }

  /** Toggling twice restores membership of every genre, and restores the list itself when the genre was not selected. */
  lemma ToggleTwice(genres: seq<string>, g: string, x: string)
    ensures x in ToggleGenre(ToggleGenre(genres, g), g) <==> x in genres
    ensures g !in genres ==> ToggleGenre(ToggleGenre(genres, g), g) == genres
  {
    ToggleMembership(genres, g, x);
    ToggleMembership(ToggleGenre(genres, g), g, x);
    ToggleMembership(genres, g, g);
    if g !in genres {
      FilterAppend(y => y != g, genres, [g]);
      FilterAll(y => y != g, genres);
      assert Filter(y => y != g, [g]) == [];
    }
  }

  /** A duplicate-free selection stays duplicate-free. */
  lemma ToggleKeepsNoDuplicates(genres: seq<string>, g: string)
    requires NoDuplicates(genres)
    ensures NoDuplicates(ToggleGenre(genres, g))
  {
    if g in genres {
      FilterNoDuplicates(x => x != g, genres);
    }
  }

  // ---------------------------------------------------------------------------
  // The component

  /** The data object handed to the submit handler, which updates it in place. */
  class SubmitData {
    var title: string
    var author: string
    var coverImage: JsField<string>
    var condition: string
    var genre: Option<seq<string>>
    var rentalPrice: JsField<int>
    var status: string

    function Value(): SubmitValue
      reads this
    {
      SubmitValue(title, author, coverImage, condition, genre, rentalPrice, status)
    }

    constructor (v: SubmitValue)
      ensures Value() == v
    {
      title, author, coverImage, condition := v.title, v.author, v.coverImage, v.condition;
      genre, rentalPrice, status := v.genre, v.rentalPrice, v.status;
    }

    /**
     * The in-place steps after the title/author guard: coerce the price, fix
     * the cover, and, when the cover passes the URL check, fill the defaults.
     * A failing cover leaves the first two steps done.
     */
    method NormaliseInPlace(isUrl: string -> bool) returns (coverOk: bool)
      modifies this
      ensures coverOk <==> !TruthyText(old(coverImage)) || isUrl(WithScheme(old(coverImage).value))
      ensures coverOk ==> Value() == FillDefaults(FixCover(CoercePrice(old(Value()))))
      ensures !coverOk ==> Value() == FixCover(CoercePrice(old(Value())))
    {
      if !rentalPrice.Given? {
        rentalPrice := Given(0);
      }
      coverOk := true;
      if TruthyText(coverImage) {
        if !HasScheme(coverImage.value) {
          coverImage := Given("https://" + coverImage.value);
        }
        if !isUrl(coverImage.value) {
          coverOk := false;
          return;
        }
      } else {
        coverImage := Given(PlaceholderCover);
      }
      if genre.None? {
        genre := Some([]);
      }
      if condition == "" {
        condition := "good";
      }
      if status == "" {
        status := "available";
      }
    }
  }

  class BookFormState {
    var errors: map<string, string>
    var isSuccess: bool
    var selectedGenres: seq<string>
    var formGenre: seq<string>

    /** The genre control and the form's genre value agree. */
    ghost predicate Valid()
      reads this
    {
      formGenre == selectedGenres
    }

    constructor (initialGenres: seq<string>)
      ensures Valid()
      ensures errors == map[] && !isSuccess && selectedGenres == initialGenres
    {
      errors := map[];
      isSuccess := false;
      selectedGenres := initialGenres;
      formGenre := initialGenres;
    }

    /**
     * `handleSubmit(data)`: the guard, then the in-place normalisation, then
     * `onSubmit`, which settles as `onSubmitResult` says. Returns the data
     * as handed to `onSubmit`, if it was.
     */
    method HandleSubmit(data: SubmitData, isUrl: string -> bool, onSubmitResult: Settled) returns (submitted: Option<SubmitValue>)
      requires Valid()
      modifies this, data
      ensures Valid() && selectedGenres == old(selectedGenres)
      ensures Normalise(old(data.Value()), isUrl).MissingFields? ==>
        && data.Value() == old(data.Value()) && submitted == None && !isSuccess
        && errors == old(errors)
          + (if old(data.title) == "" then map["title" := "Title is required"] else map[])
          + (if old(data.author) == "" then map["author" := "Author is required"] else map[])
      ensures Normalise(old(data.Value()), isUrl).InvalidCover? ==>
        && data.Value() == FixCover(CoercePrice(old(data.Value())))
        && submitted == None && !isSuccess
        && errors == old(errors)["cover_image" := InvalidUrlMessage]
      ensures Normalise(old(data.Value()), isUrl).Ready? ==>
        && data.Value() == Normalise(old(data.Value()), isUrl).value
        && submitted == Some(data.Value())
        && isSuccess == onSubmitResult.Resolved?
        && errors == (if onSubmitResult.RejectedWithError? then old(errors)["root" := "Submission failed: " + onSubmitResult.message]
                      else old(errors))
    {
      isSuccess := false;
      submitted := None;
      if data.title == "" || data.author == "" {
        if data.title == "" {
          errors := errors["title" := "Title is required"];
        }
        if data.author == "" {
          errors := errors["author" := "Author is required"];
        }
        return;
      }
      var coverOk := data.NormaliseInPlace(isUrl);
      if !coverOk {
        errors := errors["cover_image" := InvalidUrlMessage];
        return;
      }
      submitted := Some(data.Value());
      match onSubmitResult
      case Resolved =>
        isSuccess := true;
      case RejectedWithError(message) =>
        errors := errors["root" := "Submission failed: " + message];
      case RejectedOther =>
    }

    /** `handleGenreSelect(genre)`: toggle it, copy the list into the form and clear the genre error. */
    method HandleGenreSelect(g: string)
      requires Valid()
      modifies this
      ensures Valid()
      ensures selectedGenres == ToggleGenre(old(selectedGenres), g)
      ensures errors == old(errors) - {"genre"} && isSuccess == old(isSuccess)
    {
      var newGenres := if g in selectedGenres then Filter(x => x != g, selectedGenres) else selectedGenres + [g];
      selectedGenres := newGenres;
      formGenre := newGenres;
      errors := errors - {"genre"};
    }
  }
}
