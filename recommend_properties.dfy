/** The `recommend_properties` tool: a profile that fails validation is answered with its
    error messages; otherwise the defaulted, normalised profile is turned into query text and
    a metadata filter, the listing store is asked for three matches, and its answer is mapped
    to records. The embedding service and the listing store together are one parameter: a
    function from the query text, the filter and the result count to the store's answer. */
module RecommendPropertiesTool {
  import opened Wrappers
  import opened Text
  import opened PyValues
  import opened UserProfile
  import opened PropertyRecommendation
  import opened EmbeddingUtils

  const PriceTolerance: int := 50000
  const SqftTolerance: int := 300
  const ResultCount: nat := 3

  /** The `where` clause: every condition must hold (`$and`). */
  datatype Filter = Filter(
    city: string,
    propertyType: string,
    minSquareFeet: int,
    minPrice: int,
    maxPrice: int,
    minBedrooms: int,
    minBathrooms: int)

  /** The tool's two kinds of answer: the validation messages, or the matching listings. */
  datatype Reply = Errors(messages: seq<string>) | Listings(records: seq<Record>)

  /** A metadata value the store compares as a number. */
  predicate IsNumber(v: Value) {
    v.Int? || v.Float?
  }

  function NumberOf(v: Value): real
    requires IsNumber(v)
  {
    if v.Int? then v.i as real else v.f.value
  }

  /** The store's reading of the filter on one listing's metadata: a missing key, or a value
      of another kind, does not match. */
  predicate MetaAdmits(f: Filter, meta: Meta) {
    && City in meta && meta[City] == Str(f.city)
    && PropertyType in meta && meta[PropertyType] == Str(f.propertyType)
    && SquareFeet in meta && IsNumber(meta[SquareFeet]) && NumberOf(meta[SquareFeet]) >= f.minSquareFeet as real
    && Price in meta && IsNumber(meta[Price])
    && f.minPrice as real <= NumberOf(meta[Price]) <= f.maxPrice as real
    && Bedrooms in meta && IsNumber(meta[Bedrooms]) && NumberOf(meta[Bedrooms]) >= f.minBedrooms as real
    && Bathrooms in meta && IsNumber(meta[Bathrooms]) && NumberOf(meta[Bathrooms]) >= f.minBathrooms as real
  }

  /** The filter read on a record. */
  predicate Admits(f: Filter, r: Record) {
    && r.city == f.city
    && r.propertyType == f.propertyType
    && r.squareFeet >= f.minSquareFeet
    && f.minPrice <= r.price <= f.maxPrice
    && r.bedrooms >= f.minBedrooms
    && r.bathrooms.value >= f.minBathrooms as real
  }

  /** A record admits the filter exactly when the metadata it was built from does. */
  lemma MetaAdmitsBuild(f: Filter, meta: Meta)
    requires HasKeys(meta) && WellTyped(meta)
    ensures MetaAdmits(f, meta) <==> Admits(f, Build(meta))
  {
    var r := Build(meta);
    assert NumberOf(meta[SquareFeet]) == r.squareFeet as real;
    assert NumberOf(meta[Price]) == r.price as real;
    assert NumberOf(meta[Bedrooms]) == r.bedrooms as real;
    assert NumberOf(meta[Bathrooms]) == r.bathrooms.value;
  }

  /** Every field the filter reads is present on a normalised profile. */
  predicate Complete(n: Profile) {
    n.location.Some? && n.propertyType.Some? && n.sqft.Some? && n.budget.Some?
    && n.bedrooms.Some? && n.bathrooms.Some?
  }

  /** The filter built from a normalised profile; `int()` of its size or budget text can raise. */
  function FilterOf(n: Profile): (r: Result<Filter>)
    requires Complete(n)
    ensures r.Success? <==> ParseInt(n.sqft.value).Success? && ParseInt(n.budget.value).Success?
  {
    match ParseInt(n.sqft.value)
    case Failure(e) => Failure(e)
    case Success(sqft) =>
      match ParseInt(n.budget.value)
      case Failure(e) => Failure(e)
      case Success(budget) =>
        Success(Filter(
          city := n.location.value,
          propertyType := n.propertyType.value,
          minSquareFeet := sqft - SqftTolerance,
          minPrice := budget - PriceTolerance,
          maxPrice := budget + PriceTolerance,
          minBedrooms := n.bedrooms.value,
          minBathrooms := Trunc(n.bathrooms.value.value)))
  }

  /** The normaliser's output carries every field the filter reads, and reading its numbers
      back with `int()` gives the normalised values. */
  lemma NormalisedFilter(p: Profile)
    requires NormalizeUserProfile(p).Success?
    ensures Complete(NormalizeUserProfile(p).value)
    ensures var f := FilterOf(NormalizeUserProfile(p).value);
      && f.Success?
      && f.value.city == Title(Strip(p.location.value))
      && f.value.propertyType == Strip(p.propertyType.value)
      && f.value.minSquareFeet == NormalizeSqft(p.sqft).value - SqftTolerance
      && f.value.minPrice == NormalizePrice(p.budget).value - PriceTolerance
      && f.value.maxPrice == NormalizePrice(p.budget).value + PriceTolerance
      && f.value.minBedrooms == NormalizeBedrooms(p.bedrooms)
      && f.value.minBathrooms == Trunc(NormalizeBathrooms(p.bathrooms).value)
  {
    IntToStringRoundTrip(NormalizeSqft(p.sqft).value);
    IntToStringRoundTrip(NormalizePrice(p.budget).value);
  }

  /** The answer once validation has passed and the defaulted profile has been normalised. */
  function Query(normalized: Result<Profile>, search: (string, Filter, nat) -> QueryResult): (r: Result<Reply>)
    ensures r.Success? ==> r.value.Listings?
    ensures normalized.Failure? ==> r == Failure(normalized.error)
  {
    match normalized
    case Failure(e) => Failure(e)
    case Success(n) =>
      if !Complete(n) then Failure("TypeError")
      else
        match FilterOf(n)
        case Failure(e) => Failure(e)
        case Success(f) =>
          match ParsedResults(search(ProfileToText(n), f, ResultCount))
          case Failure(e) => Failure(e)
          case Success(records) => Success(Listings(records))
  }

  /** `recommend_properties`: validation messages come back as they are and nothing is
      searched; otherwise the listings the store returns for the profile's text and filter. */
  function RecommendProperties(profile: Profile, search: (string, Filter, nat) -> QueryResult): (r: Result<Reply>)
    ensures FailedChecks(profile) != [] ==> r == Success(Errors(MessagesOf(FailedChecks(profile))))
    ensures FailedChecks(profile) == [] ==> r == Query(NormalizeUserProfile(WithDefaults(profile)), search)
    ensures r.Success? ==> (r.value.Errors? <==> FailedChecks(profile) != [])
  {
    var validationErrors := MessagesOf(FailedChecks(profile));
    if validationErrors != [] then Success(Errors(validationErrors))
    else Query(NormalizeUserProfile(WithDefaults(profile)), search)
  }

  /** When validation fails the store is never consulted: any two stores give the same answer. */
  lemma InvalidProfileSearchesNothing(profile: Profile, search1: (string, Filter, nat) -> QueryResult,
                                      search2: (string, Filter, nat) -> QueryResult)
    requires FailedChecks(profile) != []
    ensures RecommendProperties(profile, search1) == RecommendProperties(profile, search2)
    ensures |RecommendProperties(profile, search1).value.messages| <= |AllChecks|
  {
    ValidationVerdict(profile);
  }

  /** The four checks the search depends on hold for a profile validation lets through. */
  lemma ValidatedFields(p: Profile)
    requires FailedChecks(p) == []
    ensures Truthy(p.location) && Truthy(p.propertyType) && Truthy(p.buyOrRent) && Truthy(p.budget)
    ensures IsDigitString(Strip(p.budget.value))
  {
    ValidationVerdict(p);
    assert Passes(p, BudgetCheck);
    assert Passes(p, LocationCheck);
    assert Passes(p, PropertyTypeCheck);
    assert Passes(p, IntentCheck);
  }

  /** A profile that passes validation keeps its location, type, intent and budget through the
      defaults, and its budget text normalises to the number its digits spell. */
  lemma ValidProfileNormalises(p: Profile)
    requires FailedChecks(p) == []
    ensures Truthy(p.budget) && IsDigitString(Strip(p.budget.value))
    ensures var q := WithDefaults(p);
      && q.location == p.location && q.propertyType == p.propertyType && q.budget == p.budget
      && (NormalizeUserProfile(q).Success? <==> NormalizeSqft(q.sqft).Success?)
      && NormalizePrice(q.budget) == Success(DigitsValue(Strip(p.budget.value)))
  {
    ValidatedFields(p);
    ValidBudgetPrice(p.budget.value);
  }

  /** For a profile that passes validation and whose size normalises, the filter asks for the
      title-cased location, the stated type, at least 300 square feet less than the size, a
      price within 50000 of the budget's digits either way, at least the bedrooms asked and at
      least the whole part of the bathrooms asked. */
  lemma ValidProfileFilter(p: Profile)
    requires FailedChecks(p) == [] && NormalizeSqft(WithDefaults(p).sqft).Success?
    ensures Truthy(p.location) && Truthy(p.propertyType) && Truthy(p.budget) && IsDigitString(Strip(p.budget.value))
    ensures var q := WithDefaults(p);
      var n := NormalizeUserProfile(q);
      var budget := DigitsValue(Strip(p.budget.value));
      && n.Success? && Complete(n.value) && FilterOf(n.value).Success?
      && var f := FilterOf(n.value).value;
      && f.city == Title(Strip(p.location.value))
      && f.propertyType == Strip(p.propertyType.value)
      && f.minSquareFeet == NormalizeSqft(q.sqft).value - SqftTolerance
      && f.minPrice == budget - PriceTolerance
      && f.maxPrice == budget + PriceTolerance
      && f.minBedrooms == NormalizeBedrooms(q.bedrooms)
      && f.minBathrooms == Trunc(NormalizeBathrooms(q.bathrooms).value)
  {
    ValidatedFields(p);
    ValidProfileNormalises(p);
    NormalisedFilter(WithDefaults(p));
  }

  /** For such a profile the store is searched once, with the normalised profile's text, the
      filter and a count of three, and the tool answers with the records built from the
      store's reply. */
  lemma ValidProfileSearch(p: Profile, search: (string, Filter, nat) -> QueryResult)
    requires FailedChecks(p) == [] && NormalizeSqft(WithDefaults(p).sqft).Success?
    ensures var n := NormalizeUserProfile(WithDefaults(p));
      && n.Success? && Complete(n.value) && FilterOf(n.value).Success?
      && RecommendProperties(p, search) ==
           match ParsedResults(search(ProfileToText(n.value), FilterOf(n.value).value, ResultCount))
           case Failure(e) => Failure(e)
           case Success(records) => Success(Listings(records))
  {
    ValidProfileFilter(p);
  }

  /** When the store honours the filter, every listing recommended passes it, and there are
      no more listings than metadata entries the store sent. */
  lemma ListingsHonourFilter(q: QueryResult, f: Filter)
    requires q.metadatas.Some? && q.metadatas.value != []
    requires forall m :: m in q.metadatas.value[0] ==> MetaAdmits(f, m)
    requires ParsedResults(q).Success?
    ensures forall r :: r in ParsedResults(q).value ==> Admits(f, r)
    ensures |ParsedResults(q).value| <= |q.metadatas.value[0]|
  {
    var metas := q.metadatas.value[0];
    var recs := ParsedResults(q).value;
    ParsedResultsShape(q);
    forall r | r in recs
      ensures Admits(f, r)
    {
      var i :| 0 <= i < |recs| && recs[i] == r;
      RecordAdmits(f, metas[i], r);
    }
  }

  /** A record the store sends back passes the filter when its metadata does. */
  lemma RecordAdmits(f: Filter, meta: Meta, r: Record)
    requires MetaAdmits(f, meta) && RecordOf(meta) == Success(r)
    ensures Admits(f, r)
  {
    MetaAdmitsBuild(f, meta);
  }
}
