/**
 * The filter bar above the book grid: a filter record (genre, location
 * radius, price range, condition) and a list of "active filter" chips that
 * describe the non-default choices. Setting, removing and clearing filters
 * update both.
 */
module FilterBar {
  import opened Wrappers
  import opened Text
  import opened Lists

  datatype FilterOptions = FilterOptions(genre: string, locationRadius: int, priceRange: (int, int), condition: string)

  const AllGenres: string := "All Genres"
  const AllConditions: string := "All Conditions"
  const DefaultRadius: int := 10
  const DefaultPrice: (int, int) := (0, 50)

  /** The record the bar starts from and `clearAllFilters` returns to. */
  const Defaults: FilterOptions := FilterOptions(AllGenres, DefaultRadius, DefaultPrice, AllConditions)

  datatype FilterKey = Genre | LocationRadius | PriceRange | Condition

  /** The property names of the filter record, used as the chip prefix to look for. */
  function KeyName(k: FilterKey): string {
    match k
    case Genre => "genre"
    case LocationRadius => "locationRadius"
    case PriceRange => "priceRange"
    case Condition => "condition"
  }

  /** What a filter field holds: a string, a number or a [low, high] pair. */
  datatype FilterValue = Text(s: string) | Number(n: int) | Pair(lo: int, hi: int)

  /** `handleFilterChange(key, value)`, one variant per key, the value of the type its control sends. */
  datatype FilterChange = GenreTo(genre: string) | RadiusTo(radius: int) | PriceTo(lo: int, hi: int) | ConditionTo(condition: string)
  {
    function Key(): FilterKey {
      match this
      case GenreTo(_) => Genre
      case RadiusTo(_) => LocationRadius
      case PriceTo(_, _) => PriceRange
      case ConditionTo(_) => Condition
    }

    function Value(): FilterValue {
      match this
      case GenreTo(g) => Text(g)
      case RadiusTo(r) => Number(r)
      case PriceTo(lo, hi) => Pair(lo, hi)
      case ConditionTo(c) => Text(c)
    }
  }

  /** `filters[key]` */
  function Field(f: FilterOptions, k: FilterKey): FilterValue {
    match k
    case Genre => Text(f.genre)
    case LocationRadius => Number(f.locationRadius)
    case PriceRange => Pair(f.priceRange.0, f.priceRange.1)
    case Condition => Text(f.condition)
  }

  /** `{ ...filters, [key]: value }` */
  function Apply(f: FilterOptions, c: FilterChange): (r: FilterOptions)
    ensures Field(r, c.Key()) == c.Value()
    ensures forall k :: k != c.Key() ==> Field(r, k) == Field(f, k)
  {
    match c
    case GenreTo(g) => f.(genre := g)
    case RadiusTo(n) => f.(locationRadius := n)
    case PriceTo(lo, hi) => f.(priceRange := (lo, hi))
    case ConditionTo(v) => f.(condition := v)
  }

  /** The chip text for a non-default value, or nothing when the value is the default. */
  function ChipText(c: FilterChange): (t: Option<string>)
  {
    match c
    case GenreTo(g) => if g != AllGenres then Some("genre:" + g) else None
    case ConditionTo(v) => if v != AllConditions then Some("condition:" + v) else None
    case RadiusTo(n) => if n != DefaultRadius then Some("radius:" + IntToString(n) + "mi") else None
    case PriceTo(lo, hi) =>
      if lo != DefaultPrice.0 || hi != DefaultPrice.1 then Some("price:$" + IntToString(lo) + "-$" + IntToString(hi)) else None
  }

  /** `chips.findIndex(c => c.startsWith(p))` */
  function FindIndexStartingWith(chips: seq<string>, p: string): (i: int)
    ensures -1 <= i < |chips|
    ensures i >= 0 ==> StartsWith(chips[i], p) && forall j :: 0 <= j < i ==> !StartsWith(chips[j], p)
    ensures i == -1 ==> forall j :: 0 <= j < |chips| ==> !StartsWith(chips[j], p)
  {
    if chips == [] then -1
    else if StartsWith(chips[0], p) then 0
    else
      var i := FindIndexStartingWith(chips[1..], p);
      if i == -1 then -1 else i + 1
  }

  /** The chip list after `updateActiveFilters(key, value)`: the first chip starting with the key name is spliced out, then the new chip, if any, is pushed. */
  function UpdatedChips(chips: seq<string>, c: FilterChange): seq<string>
  {
    var kept := Spliced(chips, KeyName(c.Key()));
    match ChipText(c)
    case Some(t) => kept + [t]
    case None => kept
  }

  /** The chip list with its first chip starting with `p` spliced out. */
  function Spliced(chips: seq<string>, p: string): seq<string> {
    var i := FindIndexStartingWith(chips, p);
    if i != -1 then chips[..i] + chips[i + 1..] else chips
  }

  /** `removeFilter(chip)`: the chip list without every chip equal to `chip`. */
  function ChipsWithout(chips: seq<string>, chip: string): seq<string> {
    Filter(t => t != chip, chips)
  }

  /** `removeFilter(chip)`: the filter named before the first ':' goes back to its default. */
  function ResetNamedBy(f: FilterOptions, chip: string): FilterOptions {
    var key := Before(chip, ':');
    if key == "genre" then f.(genre := AllGenres)
    else if key == "condition" then f.(condition := AllConditions)
    else if key == "radius" then f.(locationRadius := DefaultRadius)
    else if key == "price" then f.(priceRange := DefaultPrice)
    else f
  }

  // ---------------------------------------------------------------------------
  // Chip-list facts

  /** A chip is non-default exactly when a chip is produced. */
  lemma ChipIffNonDefault(c: FilterChange)
    ensures ChipText(c).Some? <==> Field(Defaults, c.Key()) != c.Value()
  {
  }

  /** One of the four shapes of chip text the bar produces. */
  predicate IsChip(t: string) {
    StartsWith(t, "genre:") || StartsWith(t, "condition:") || StartsWith(t, "radius:") || StartsWith(t, "price:")
  }

  lemma {:induction false} ChipTextShape(c: FilterChange)
    requires ChipText(c).Some?
    ensures IsChip(ChipText(c).value)
    ensures Before(ChipText(c).value, ':') == match c
      case GenreTo(_) => "genre"
      case ConditionTo(_) => "condition"
      case RadiusTo(_) => "radius"
      case PriceTo(_, _) => "price"
  {
    match c
    case GenreTo(g) =>
      GenreChip(g);
    case ConditionTo(v) =>
      ConditionChip(v);
    case RadiusTo(n) =>
      RadiusChip(n);
    case PriceTo(lo, hi) =>
      PriceChip(lo, hi);
  }

  lemma GenreChip(rest: string)
    ensures StartsWith("genre:" + rest, "genre:")
    ensures Before("genre:" + rest, ':') == "genre"
  {
    assert ("genre:" + rest)[..6] == "genre:";
    assert "genre:" + rest == "genre" + [':'] + rest;
    BeforeWord("genre", ':', rest);
  }

  lemma ConditionChip(rest: string)
    ensures StartsWith("condition:" + rest, "condition:")
    ensures Before("condition:" + rest, ':') == "condition"
  {
    assert ("condition:" + rest)[..10] == "condition:";
    assert "condition:" + rest == "condition" + [':'] + rest;
    BeforeWord("condition", ':', rest);
  }

  lemma RadiusChip(n: int)
    ensures StartsWith("radius:" + IntToString(n) + "mi", "radius:")
    ensures Before("radius:" + IntToString(n) + "mi", ':') == "radius"
  {
    var rest := IntToString(n) + "mi";
    var t := "radius:" + IntToString(n) + "mi";
    assert t == "radius:" + rest;
    assert t[..7] == "radius:";
    assert t == "radius" + [':'] + rest;
    BeforeWord("radius", ':', rest);
  }

  lemma PriceChip(lo: int, hi: int)
    ensures StartsWith("price:$" + IntToString(lo) + "-$" + IntToString(hi), "price:")
    ensures Before("price:$" + IntToString(lo) + "-$" + IntToString(hi), ':') == "price"
  {
    var rest := "$" + IntToString(lo) + "-$" + IntToString(hi);
    var t := "price:$" + IntToString(lo) + "-$" + IntToString(hi);
    assert t == "price:" + rest;
    assert t[..6] == "price:";
    assert t == "price" + [':'] + rest;
    BeforeWord("price", ':', rest);
  }

  /** The number of chips starting with `p`. */
  function CountStartingWith(chips: seq<string>, p: string): (n: nat)
    ensures n <= |chips|
  {
    if chips == [] then 0 else (if StartsWith(chips[0], p) then 1 else 0) + CountStartingWith(chips[1..], p)
  }

  lemma {:induction false} CountAppend(chips: seq<string>, t: string, p: string)
    ensures CountStartingWith(chips + [t], p) == CountStartingWith(chips, p) + (if StartsWith(t, p) then 1 else 0)
  {
    if chips != [] {
      assert (chips + [t])[1..] == chips[1..] + [t];
      CountAppend(chips[1..], t, p);
    } else {
      assert chips + [t] == [t];
    }
  }

  lemma {:induction false} CountRemoveAt(chips: seq<string>, i: nat, p: string)
    requires i < |chips|
    ensures CountStartingWith(chips[..i] + chips[i + 1..], p)
         == CountStartingWith(chips, p) - (if StartsWith(chips[i], p) then 1 else 0)
  {
    if i == 0 {
      assert chips[..0] + chips[1..] == chips[1..];
    } else {
      assert (chips[..i] + chips[i + 1..])[0] == chips[0];
      assert (chips[..i] + chips[i + 1..])[1..] == chips[1..][..i - 1] + chips[1..][i..];
      CountRemoveAt(chips[1..], i - 1, p);
    }
  }

  lemma {:induction false} CountZeroNone(chips: seq<string>, p: string)
    requires CountStartingWith(chips, p) == 0
    ensures forall j :: 0 <= j < |chips| ==> !StartsWith(chips[j], p)
  {
    if chips != [] {
      CountZeroNone(chips[1..], p);
      assert forall j :: 1 <= j < |chips| ==> chips[j] == chips[1..][j - 1];
    }
  }

  lemma {:induction false} CountZero(chips: seq<string>, p: string)
    requires forall j :: 0 <= j < |chips| ==> !StartsWith(chips[j], p)
    ensures CountStartingWith(chips, p) == 0
  {
    if chips != [] {
      CountZero(chips[1..], p);
    }
  }

  /** Dropping every copy of `chip` from the list. */
  lemma {:induction false} CountWithout(chips: seq<string>, chip: string, p: string)
    ensures CountStartingWith(ChipsWithout(chips, chip), p) <= CountStartingWith(chips, p)
    ensures !StartsWith(chip, p) ==> CountStartingWith(ChipsWithout(chips, chip), p) == CountStartingWith(chips, p)
    ensures (forall j :: 0 <= j < |chips| && StartsWith(chips[j], p) ==> chips[j] == chip)
            ==> CountStartingWith(ChipsWithout(chips, chip), p) == 0
  {
    if chips != [] {
      CountWithout(chips[1..], chip, p);
      var w := ChipsWithout(chips, chip);
      if chips[0] != chip {
        assert w == [chips[0]] + ChipsWithout(chips[1..], chip);
        assert w[1..] == ChipsWithout(chips[1..], chip);
      } else {
        assert w == ChipsWithout(chips[1..], chip);
      }
    }
  }

  /** Chips of different filters never share a prefix. */
  lemma PrefixesDisjoint(t: string)
    ensures StartsWith(t, "genre:") ==> !StartsWith(t, "condition") && !StartsWith(t, "locationRadius") && !StartsWith(t, "priceRange")
    ensures StartsWith(t, "condition:") ==> !StartsWith(t, "genre") && !StartsWith(t, "locationRadius") && !StartsWith(t, "priceRange")
    ensures StartsWith(t, "radius:") ==> !StartsWith(t, "genre") && !StartsWith(t, "condition") && !StartsWith(t, "locationRadius") && !StartsWith(t, "priceRange")
    ensures StartsWith(t, "price:") ==> !StartsWith(t, "genre") && !StartsWith(t, "condition") && !StartsWith(t, "locationRadius") && !StartsWith(t, "priceRange")
  {
    if StartsWith(t, "genre:") {
      DifferAt(t, "genre:", "condition", 0);
      DifferAt(t, "genre:", "locationRadius", 0);
      DifferAt(t, "genre:", "priceRange", 0);
    }
    if StartsWith(t, "condition:") {
      DifferAt(t, "condition:", "genre", 0);
      DifferAt(t, "condition:", "locationRadius", 0);
      DifferAt(t, "condition:", "priceRange", 0);
    }
    if StartsWith(t, "radius:") {
      DifferAt(t, "radius:", "genre", 0);
      DifferAt(t, "radius:", "condition", 0);
      DifferAt(t, "radius:", "locationRadius", 0);
      DifferAt(t, "radius:", "priceRange", 0);
    }
    if StartsWith(t, "price:") {
      DifferAt(t, "price:", "genre", 0);
      DifferAt(t, "price:", "condition", 0);
      DifferAt(t, "price:", "locationRadius", 0);
      DifferAt(t, "price:", "priceRange", 5);
    }
  }

  /** Two prefixes that differ at some position cannot both start `t`. */
  lemma DifferAt(t: string, p: string, q: string, i: nat)
    requires StartsWith(t, p) && i < |p| && i < |q| && p[i] != q[i]
    ensures !StartsWith(t, q)
  {
    assert t[..|p|][i] == p[i];
  }

  lemma StartsWithLonger(t: string, p: string, q: string)
    requires StartsWith(t, p + q)
    ensures StartsWith(t, p)
  {
    assert t[..|p|] == (p + q)[..|p|];
  }

  lemma ChipPrefixes(t: string)
    requires IsChip(t)
    ensures StartsWith(t, "genre:") ==> StartsWith(t, "genre")
    ensures StartsWith(t, "condition:") ==> StartsWith(t, "condition")
    ensures StartsWith(t, "genre") ==> StartsWith(t, "genre:")
    ensures StartsWith(t, "condition") ==> StartsWith(t, "condition:")
    ensures !StartsWith(t, "locationRadius") && !StartsWith(t, "priceRange")
  {
    PrefixesDisjoint(t);
    if StartsWith(t, "genre:") { StartsWithLonger(t, "genre", ":"); }
    if StartsWith(t, "condition:") { StartsWithLonger(t, "condition", ":"); }
  }

  // ---------------------------------------------------------------------------
  // The invariant tying the chip list to the filter record

  /**
   * The chips starting with `name` mirror the value `v` of that filter: there
   * is one exactly when `v` is not the default `d`, and it reads `name:v`.
   */
  predicate Mirrors(v: string, d: string, name: string, chips: seq<string>) {
    && CountStartingWith(chips, name) == (if v == d then 0 else 1)
    && (forall j :: 0 <= j < |chips| && StartsWith(chips[j], name) ==> chips[j] == name + ":" + v)
  }

  predicate AllChips(chips: seq<string>) {
    forall j :: 0 <= j < |chips| ==> IsChip(chips[j])
  }

  /**
   * Every chip has one of the four shapes, and the genre and condition chips
   * mirror the record.
   */
  predicate Consistent(f: FilterOptions, chips: seq<string>) {
    && AllChips(chips)
    && Mirrors(f.genre, AllGenres, "genre", chips)
    && Mirrors(f.condition, AllConditions, "condition", chips)
  }

  lemma DefaultsConsistent()
    ensures Consistent(Defaults, [])
  {
  }

  lemma GenreChipStartsWith(g: string)
    ensures StartsWith("genre:" + g, "genre") && !StartsWith("genre:" + g, "condition")
    ensures StartsWith("condition:" + g, "condition") && !StartsWith("condition:" + g, "genre")
  {
    assert ("genre:" + g)[..5] == "genre";
    assert ("condition:" + g)[..9] == "condition";
    PrefixesDisjoint("genre:" + g);
    assert ("genre:" + g)[..6] == "genre:";
    assert ("condition:" + g)[..10] == "condition:";
    PrefixesDisjoint("condition:" + g);
  }

  /** Taking out chip `i`, which does not start with `name`, and pushing `t`, which does not either. */
  lemma MirrorsUntouched(v: string, d: string, name: string, chips: seq<string>, kept: seq<string>, out: seq<string>)
    requires Mirrors(v, d, name, chips)
    requires CountStartingWith(out, name) == CountStartingWith(chips, name)
    requires forall j :: 0 <= j < |out| ==> out[j] in chips || !StartsWith(out[j], name)
    ensures Mirrors(v, d, name, out)
  {
    forall j | 0 <= j < |out| && StartsWith(out[j], name)
      ensures out[j] == name + ":" + v
    {
      var k :| 0 <= k < |chips| && chips[k] == out[j];
    }
  }

  lemma SplicedElements(chips: seq<string>, p: string)
    ensures forall j :: 0 <= j < |Spliced(chips, p)| ==> Spliced(chips, p)[j] in chips
  {
  }

  lemma AllChipsSpliced(chips: seq<string>, p: string)
    requires AllChips(chips)
    ensures AllChips(Spliced(chips, p))
  {
    SplicedElements(chips, p);
  }

  lemma AllChipsPush(kept: seq<string>, t: string)
    requires AllChips(kept) && IsChip(t)
    ensures AllChips(kept + [t])
  {
  }

  /** Splicing out the first `name` chip leaves none. */
  lemma SpliceOwn(v: string, d: string, name: string, chips: seq<string>)
    requires Mirrors(v, d, name, chips)
    ensures Mirrors(d, d, name, Spliced(chips, name))
  {
    var i := FindIndexStartingWith(chips, name);
    if i != -1 {
      CountRemoveAt(chips, i, name);
    } else {
      CountZero(chips, name);
    }
    SplicedElements(chips, name);
    CountZeroNone(Spliced(chips, name), name);
  }

  /** Splicing out the first chip of another filter leaves the `name` chips as they were. */
  lemma SpliceOther(v: string, d: string, name: string, chips: seq<string>, p: string)
    requires AllChips(chips) && Mirrors(v, d, name, chips)
    requires name == "genre" || name == "condition"
    requires p in {"genre", "condition", "locationRadius", "priceRange"} && p != name
    ensures Mirrors(v, d, name, Spliced(chips, p))
  {
    var i := FindIndexStartingWith(chips, p);
    if i != -1 {
      CountRemoveAt(chips, i, name);
      ChipPrefixes(chips[i]);
      PrefixesDisjoint(chips[i]);
    }
    SplicedElements(chips, p);
    MirrorsUntouched(v, d, name, chips, chips, Spliced(chips, p));
  }

  lemma PushOwn(v: string, d: string, name: string, kept: seq<string>)
    requires Mirrors(d, d, name, kept) && v != d
    requires name == "genre" || name == "condition"
    ensures Mirrors(v, d, name, kept + [name + ":" + v])
  {
    GenreChipStartsWith(v);
    CountAppend(kept, name + ":" + v, name);
    CountZeroNone(kept, name);
  }

  lemma PushOther(v: string, d: string, name: string, kept: seq<string>, t: string)
    requires Mirrors(v, d, name, kept) && !StartsWith(t, name)
    ensures Mirrors(v, d, name, kept + [t])
  {
    CountAppend(kept, t, name);
    MirrorsUntouched(v, d, name, kept, kept, kept + [t]);
  }

  lemma UpdateGenre(f: FilterOptions, chips: seq<string>, g: string)
    requires Consistent(f, chips)
    ensures Consistent(f.(genre := g), UpdatedChips(chips, GenreTo(g)))
  {
    var kept := Spliced(chips, "genre");
    SplicedElements(chips, "genre");
    SpliceOwn(f.genre, AllGenres, "genre", chips);
    SpliceOther(f.condition, AllConditions, "condition", chips, "genre");
    if g != AllGenres {
      var t := "genre:" + g;
      assert UpdatedChips(chips, GenreTo(g)) == kept + [t];
      GenreChipStartsWith(g);
      PrefixesDisjoint(t);
      assert IsChip(t) by { assert t[..6] == "genre:"; }
      PushOwn(g, AllGenres, "genre", kept);
      PushOther(f.condition, AllConditions, "condition", kept, t);
    }
  }

  lemma UpdateCondition(f: FilterOptions, chips: seq<string>, v: string)
    requires Consistent(f, chips)
    ensures Consistent(f.(condition := v), UpdatedChips(chips, ConditionTo(v)))
  {
    var kept := Spliced(chips, "condition");
    AllChipsSpliced(chips, "condition");
    SpliceOwn(f.condition, AllConditions, "condition", chips);
    SpliceOther(f.genre, AllGenres, "genre", chips, "condition");
    if v != AllConditions {
      var t := "condition:" + v;
      assert UpdatedChips(chips, ConditionTo(v)) == kept + [t];
      GenreChipStartsWith(v);
      assert IsChip(t) by { assert t[..10] == "condition:"; }
      AllChipsPush(kept, t);
      assert "condition" + ":" + v == t;
      PushOwn(v, AllConditions, "condition", kept);
      PushOther(f.genre, AllGenres, "genre", kept, t);
    } else {
      assert UpdatedChips(chips, ConditionTo(v)) == kept;
    }
  }

  /** Radius and price changes leave the genre and condition chips alone. */
  lemma UpdateNumeric(f: FilterOptions, chips: seq<string>, c: FilterChange)
    requires Consistent(f, chips)
    requires c.RadiusTo? || c.PriceTo?
    ensures Consistent(Apply(f, c), UpdatedChips(chips, c))
  {
    var p := KeyName(c.Key());
    var kept := Spliced(chips, p);
    SplicedElements(chips, p);
    SpliceOther(f.genre, AllGenres, "genre", chips, p);
    SpliceOther(f.condition, AllConditions, "condition", chips, p);
    assert Apply(f, c).genre == f.genre && Apply(f, c).condition == f.condition;
    if ChipText(c).Some? {
      var t := ChipText(c).value;
      ChipTextShape(c);
      PrefixesDisjoint(t);
      assert UpdatedChips(chips, c) == kept + [t];
      PushOther(f.genre, AllGenres, "genre", kept, t);
      PushOther(f.condition, AllConditions, "condition", kept, t);
    }
  }

  /** Setting a filter keeps the chip list consistent with the record. */
  lemma {:induction false} UpdateKeepsConsistent(f: FilterOptions, chips: seq<string>, c: FilterChange)
    requires Consistent(f, chips)
    ensures Consistent(Apply(f, c), UpdatedChips(chips, c))
  {
    match c
    case GenreTo(g) => UpdateGenre(f, chips, g);
    case ConditionTo(v) => UpdateCondition(f, chips, v);
    case RadiusTo(_) => UpdateNumeric(f, chips, c);
    case PriceTo(_, _) => UpdateNumeric(f, chips, c);
  }

  /** Without every copy of a chip not starting with `name`, the `name` chips still mirror `v`. */
  lemma MirrorsWithoutOther(v: string, d: string, name: string, chips: seq<string>, chip: string)
    requires Mirrors(v, d, name, chips)
    requires !StartsWith(chip, name)
    ensures Mirrors(v, d, name, ChipsWithout(chips, chip))
  {
    CountWithout(chips, chip, name);
    var out := ChipsWithout(chips, chip);
    assert forall j :: 0 <= j < |out| ==> out[j] in chips;
    MirrorsUntouched(v, d, name, chips, out, out);
  }

  /** Without every copy of the `name` chip on the list, no `name` chip is left. */
  lemma MirrorsWithoutOwn(v: string, d: string, name: string, chips: seq<string>, chip: string)
    requires Mirrors(v, d, name, chips)
    requires StartsWith(chip, name) && chip in chips
    ensures Mirrors(d, d, name, ChipsWithout(chips, chip))
  {
    CountWithout(chips, chip, name);
    var out := ChipsWithout(chips, chip);
    assert forall j :: 0 <= j < |out| ==> out[j] in chips;
  }

  /** The name of the filter a chip belongs to: the text before its first ':'. */
  lemma ChipKey(chip: string)
    requires IsChip(chip)
    ensures StartsWith(chip, "genre:") ==> Before(chip, ':') == "genre"
    ensures StartsWith(chip, "condition:") ==> Before(chip, ':') == "condition"
    ensures StartsWith(chip, "radius:") ==> Before(chip, ':') == "radius"
    ensures StartsWith(chip, "price:") ==> Before(chip, ':') == "price"
  {
    if StartsWith(chip, "genre:") {
      assert chip == "genre:" + chip[6..];
      GenreChip(chip[6..]);
    } else if StartsWith(chip, "condition:") {
      assert chip == "condition:" + chip[10..];
      ConditionChip(chip[10..]);
    } else if StartsWith(chip, "radius:") {
      assert chip == "radius" + [':'] + chip[7..];
      BeforeWord("radius", ':', chip[7..]);
    } else {
      assert chip == "price" + [':'] + chip[6..];
      BeforeWord("price", ':', chip[6..]);
    }
  }

  lemma AllChipsWithout(chips: seq<string>, chip: string)
    requires AllChips(chips)
    ensures AllChips(ChipsWithout(chips, chip))
  {
    var out := ChipsWithout(chips, chip);
    assert forall j :: 0 <= j < |out| ==> out[j] in chips;
  }

  /** Removing a chip that is on the list keeps the chip list consistent with the record. */
  lemma {:induction false} RemoveKeepsConsistent(f: FilterOptions, chips: seq<string>, chip: string)
    requires Consistent(f, chips)
    requires chip in chips
    ensures Consistent(ResetNamedBy(f, chip), ChipsWithout(chips, chip))
  {
    AllChipsWithout(chips, chip);
    ChipPrefixes(chip);
    PrefixesDisjoint(chip);
    ChipKey(chip);
    if StartsWith(chip, "genre:") {
      MirrorsWithoutOwn(f.genre, AllGenres, "genre", chips, chip);
      MirrorsWithoutOther(f.condition, AllConditions, "condition", chips, chip);
    } else if StartsWith(chip, "condition:") {
      MirrorsWithoutOther(f.genre, AllGenres, "genre", chips, chip);
      MirrorsWithoutOwn(f.condition, AllConditions, "condition", chips, chip);
    } else {
      MirrorsWithoutOther(f.genre, AllGenres, "genre", chips, chip);
      MirrorsWithoutOther(f.condition, AllConditions, "condition", chips, chip);
    }
  }

  /**
   * Round trip: removing the chip that setting a filter produced puts that
   * filter back to its default value.
   */
  lemma {:induction false} RemoveUndoesSet(f: FilterOptions, c: FilterChange)
    requires ChipText(c).Some?
    ensures Field(ResetNamedBy(Apply(f, c), ChipText(c).value), c.Key()) == Field(Defaults, c.Key())
    ensures forall k :: k != c.Key() ==> Field(ResetNamedBy(Apply(f, c), ChipText(c).value), k) == Field(f, k)
  {
    ChipTextShape(c);
  }

  /**
   * As written, the radius and price chips are looked up under the record's
   * key names "locationRadius" and "priceRange", which no chip starts with:
   * a new radius or price chip is appended and the earlier one stays.
   */
  lemma {:induction false} RadiusAndPriceChipsAccumulate(chips: seq<string>, c: FilterChange)
    requires forall j :: 0 <= j < |chips| ==> IsChip(chips[j])
    requires c.RadiusTo? || c.PriceTo?
    requires ChipText(c).Some?
    ensures UpdatedChips(chips, c) == chips + [ChipText(c).value]
  {
    forall j | 0 <= j < |chips|
      ensures !StartsWith(chips[j], KeyName(c.Key()))
    {
      ChipPrefixes(chips[j]);
    }
  }

  /** For instance, setting the radius to 20 and then to 30 shows two radius chips. */
  lemma TwoRadiusChips()
    ensures UpdatedChips(UpdatedChips([], RadiusTo(20)), RadiusTo(30)) == ["radius:20mi", "radius:30mi"]
  {
    assert NatToString(2) == "2" && NatToString(3) == "3" && DigitChar(0) == '0';
    assert IntToString(20) == "20";
    assert IntToString(30) == "30";
    assert "radius:" + "20" + "mi" == "radius:20mi";
    assert "radius:" + "30" + "mi" == "radius:30mi";
    assert UpdatedChips([], RadiusTo(20)) == ["radius:20mi"];
    assert IsChip("radius:20mi") by { assert "radius:20mi"[..7] == "radius:"; }
    RadiusAndPriceChipsAccumulate(["radius:20mi"], RadiusTo(30));
  }

  /** The prefix each filter's chips actually start with. */
  function ChipPrefix(k: FilterKey): string {
    match k
    case Genre => "genre:"
    case LocationRadius => "radius:"
    case PriceRange => "price:"
    case Condition => "condition:"
  }

  /** A chip produced for a filter starts with that filter's chip prefix. */
  lemma {:induction false} ChipTextHasPrefix(c: FilterChange)
    requires ChipText(c).Some?
    ensures StartsWith(ChipText(c).value, ChipPrefix(c.Key()))
  {
    match c
    case GenreTo(g) =>
      GenreChip(g);
    case ConditionTo(v) =>
      ConditionChip(v);
    case RadiusTo(n) =>
      RadiusChip(n);
    case PriceTo(lo, hi) =>
      PriceChip(lo, hi);
  }

  /**
   * The update the bar evidently intends: the earlier chip of the filter is
   * looked up under the prefix its chips start with, so it is replaced.
   */
  function CorrectedUpdatedChips(chips: seq<string>, c: FilterChange): seq<string>
  {
    var kept := Spliced(chips, ChipPrefix(c.Key()));
    match ChipText(c)
    case Some(t) => kept + [t]
    case None => kept
  }

  /** With the corrected lookup every filter keeps at most one chip. */
  lemma {:induction false} CorrectedUpdateKeepsOneChip(chips: seq<string>, c: FilterChange)
    requires CountStartingWith(chips, ChipPrefix(c.Key())) <= 1
    ensures CountStartingWith(CorrectedUpdatedChips(chips, c), ChipPrefix(c.Key())) <= 1
    ensures ChipText(c).None? ==> CountStartingWith(CorrectedUpdatedChips(chips, c), ChipPrefix(c.Key())) == 0
    ensures ChipText(c).Some? ==> CountStartingWith(CorrectedUpdatedChips(chips, c), ChipPrefix(c.Key())) == 1
  {
    var p := ChipPrefix(c.Key());
    var kept := Spliced(chips, p);
    var i := FindIndexStartingWith(chips, p);
    if i != -1 {
      CountRemoveAt(chips, i, p);
    } else {
      CountZero(chips, p);
    }
    assert CountStartingWith(kept, p) == 0;
    if ChipText(c).Some? {
      ChipTextHasPrefix(c);
      CountAppend(kept, ChipText(c).value, p);
    }
  }

  /** So setting the radius to 20 and then to 30 leaves the one chip "radius:30mi". */
  lemma CorrectedRadiusChip()
    ensures CorrectedUpdatedChips(CorrectedUpdatedChips([], RadiusTo(20)), RadiusTo(30)) == ["radius:30mi"]
  {
    assert NatToString(2) == "2" && NatToString(3) == "3" && DigitChar(0) == '0';
    assert IntToString(20) == "20";
    assert IntToString(30) == "30";
    assert "radius:" + "20" + "mi" == "radius:20mi";
    assert "radius:" + "30" + "mi" == "radius:30mi";
    assert CorrectedUpdatedChips([], RadiusTo(20)) == ["radius:20mi"];
    assert StartsWith("radius:20mi", "radius:") by { assert "radius:20mi"[..7] == "radius:"; }
    assert FindIndexStartingWith(["radius:20mi"], "radius:") == 0;
  }

  // ---------------------------------------------------------------------------
  // The component

  class FilterBarState {
    var filters: FilterOptions
    var activeFilters: seq<string>

    ghost predicate Valid()
      reads this
    {
      Consistent(filters, activeFilters)
    }

    constructor ()
      ensures Valid()
      ensures filters == Defaults && activeFilters == []
    {
      filters := Defaults;
      activeFilters := [];
    }

    /** `handleFilterChange(key, value)`; returns the record passed to `onFilterChange`. */
    method HandleFilterChange(c: FilterChange) returns (notified: FilterOptions)
      requires Valid()
      modifies this
      ensures Valid()
      ensures filters == Apply(old(filters), c) && notified == filters
      ensures activeFilters == UpdatedChips(old(activeFilters), c)
    {
      UpdateKeepsConsistent(filters, activeFilters, c);
      var newFilters := Apply(filters, c);
      filters := newFilters;
      notified := newFilters;
      UpdateActiveFilters(c);
    }

    /** `updateActiveFilters(key, value)`: splice out the first chip of that key, push the new one. */
    method UpdateActiveFilters(c: FilterChange)
      modifies this
      ensures filters == old(filters)
      ensures activeFilters == UpdatedChips(old(activeFilters), c)
    {
      var newActiveFilters := activeFilters;
      var existingIndex := FindIndexStartingWith(newActiveFilters, KeyName(c.Key()));
      if existingIndex != -1 {
        newActiveFilters := newActiveFilters[..existingIndex] + newActiveFilters[existingIndex + 1..];
      }
      var text := ChipText(c);
      if text.Some? {
        newActiveFilters := newActiveFilters + [text.value];
      }
      activeFilters := newActiveFilters;
    }

    /** `clearAllFilters()` */
    method ClearAllFilters() returns (notified: FilterOptions)
      modifies this
      ensures Valid()
      ensures filters == Defaults && activeFilters == [] && notified == Defaults
    {
      filters := Defaults;
      activeFilters := [];
      notified := Defaults;
    }

    /** `removeFilter(chip)`, called with a chip shown in the list; returns the record passed to `onFilterChange`. */
    method RemoveFilter(chip: string) returns (notified: FilterOptions)
      requires Valid()
      requires chip in activeFilters
      modifies this
      ensures Valid()
      ensures activeFilters == ChipsWithout(old(activeFilters), chip)
      ensures filters == ResetNamedBy(old(filters), chip) && notified == filters
    {
      RemoveKeepsConsistent(filters, activeFilters, chip);
      activeFilters := ChipsWithout(activeFilters, chip);
      var newFilters := filters;
      var key := Before(chip, ':');
      if key == "genre" {
        newFilters := newFilters.(genre := AllGenres);
      } else if key == "condition" {
        newFilters := newFilters.(condition := AllConditions);
      } else if key == "radius" {
        newFilters := newFilters.(locationRadius := DefaultRadius);
      } else if key == "price" {
        newFilters := newFilters.(priceRange := DefaultPrice);
      }
      filters := newFilters;
      notified := newFilters;
    }
  }
}
