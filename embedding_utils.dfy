/** The query text a profile is embedded as (`profile_to_text`). */
module EmbeddingUtils {
  import opened Wrappers
  import opened Text
  import opened PyValues
  import opened UserProfile

  /** `f"{x or ''}"` for an optional string. */
  function OrEmpty(s: Option<string>): (r: string)
    ensures Truthy(s) ==> r == s.value
    ensures !Truthy(s) ==> r == ""
  {
    if Truthy(s) then s.value else ""
  }

  /** `f"{n or ''}"` for an optional integer: zero and `None` render as nothing, any other
      count as `str(n)`. */
  function IntOrEmpty(n: Option<int>): (r: string)
    ensures TruthyInt(n) <==> r != ""
    ensures TruthyInt(n) ==> r == IntToString(n.value)
  {
    if TruthyInt(n) then IntToString(n.value) else ""
  }

  /** A rendered count reads back with `int()` as the count itself. */
  lemma CountTextReadsBack(n: Option<int>)
    requires TruthyInt(n)
    ensures ParseInt(IntOrEmpty(n)) == Success(n.value)
  {
    IntToStringRoundTrip(n.value);
  }

  /** `f"{x or ''}"` for an optional float: zero and `None` render as nothing, any other value
      as its `repr`. */
  function FloatOrEmpty(x: Option<PyFloat>): (r: string)
    ensures TruthyFloat(x) ==> r == x.value.repr
    ensures !TruthyFloat(x) ==> r == ""
  {
    if TruthyFloat(x) then x.value.repr else ""
  }

  /** `profile_to_text`: total, defined for every profile. */
  function ProfileToText(p: Profile): string {
    (OrEmpty(p.propertyType) + ", ") + (IntOrEmpty(p.bedrooms) + " bedroom(s), ")
      + (FloatOrEmpty(p.bathrooms) + " bathroom(s), ") + (OrEmpty(p.budget) + " budget, ")
      + ("in " + OrEmpty(p.location) + ", ") + ("Must haves: " + Join(p.mustHaves, ", ") + ", ")
      + ("Good to haves: " + Join(p.goodToHaves, ", "))
  }

  /** The profile text is its seven f-string lines one after another: the type, then the
      bedrooms, the bathrooms, the budget, the location, the must-haves and the
      good-to-haves, each between its fixed words; nothing else is in the text. */
  lemma ProfileTextSegments(p: Profile)
    ensures var r := ProfileToText(p);
      var kind := OrEmpty(p.propertyType) + ", ";
      var beds := IntOrEmpty(p.bedrooms) + " bedroom(s), ";
      var baths := FloatOrEmpty(p.bathrooms) + " bathroom(s), ";
      var budget := OrEmpty(p.budget) + " budget, ";
      var place := "in " + OrEmpty(p.location) + ", ";
      var musts := "Must haves: " + Join(p.mustHaves, ", ") + ", ";
      var goods := "Good to haves: " + Join(p.goodToHaves, ", ");
      && |r| == |kind| + |beds| + |baths| + |budget| + |place| + |musts| + |goods|
      && Occurs(r, 0, kind) && Occurs(r, |kind|, beds) && Occurs(r, |kind| + |beds|, baths)
      && Occurs(r, |kind| + |beds| + |baths|, budget)
      && Occurs(r, |kind| + |beds| + |baths| + |budget|, place)
      && Occurs(r, |kind| + |beds| + |baths| + |budget| + |place|, musts)
      && Occurs(r, |kind| + |beds| + |baths| + |budget| + |place| + |musts|, goods)
  {
    SevenPiecesInPlace(OrEmpty(p.propertyType) + ", ", IntOrEmpty(p.bedrooms) + " bedroom(s), ",
      FloatOrEmpty(p.bathrooms) + " bathroom(s), ", OrEmpty(p.budget) + " budget, ",
      "in " + OrEmpty(p.location) + ", ", "Must haves: " + Join(p.mustHaves, ", ") + ", ",
      "Good to haves: " + Join(p.goodToHaves, ", "));
  }

  /** A missing field and a falsy one (empty text, 0, 0.0) render the same way. */
  lemma FalsyFieldsRenderAlike(p: Profile, q: Profile)
    requires Truthy(p.propertyType) || Truthy(q.propertyType) ==> p.propertyType == q.propertyType
    requires TruthyInt(p.bedrooms) || TruthyInt(q.bedrooms) ==> p.bedrooms == q.bedrooms
    requires TruthyFloat(p.bathrooms) || TruthyFloat(q.bathrooms) ==> p.bathrooms == q.bathrooms
    requires Truthy(p.budget) || Truthy(q.budget) ==> p.budget == q.budget
    requires Truthy(p.location) || Truthy(q.location) ==> p.location == q.location
    requires p.mustHaves == q.mustHaves && p.goodToHaves == q.goodToHaves
    ensures ProfileToText(p) == ProfileToText(q)
  {
  }

  /** Name, phone, intent and square footage play no part in the query text. */
  lemma TextIgnoresContactAndSize(p: Profile, name: Option<string>, phone: Option<string>,
                                  intent: Option<string>, sqft: Option<string>)
    ensures ProfileToText(p) == ProfileToText(p.(name := name, phone := phone, buyOrRent := intent, sqft := sqft))
  {
  }
}
