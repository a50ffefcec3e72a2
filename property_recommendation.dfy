/** A listing as the recommender returns it (`PropertyRecommendation`), and the mapping of a
    vector-store query result onto such records. */
module PropertyRecommendation {
  import opened Wrappers
  import opened PyValues

  /** The declared fields of a recommendation record. */
  datatype Record = Record(
    listingId: string,
    address: string,
    neighborhood: string,
    city: string,
    state: string,
    zipCode: string,
    price: int,
    bedrooms: int,
    bathrooms: PyFloat,
    squareFeet: int,
    lotSize: PyFloat,
    yearBuilt: int,
    propertyType: string,
    mlsStatus: string,
    daysOnMarket: int,
    latitude: PyFloat,
    longitude: PyFloat,
    description: string)

  /** The listing attributes that appear as metadata keys. */
  datatype Field =
    | ListingId | Address | City | State | ZipCode | Neighborhood | PropertyType
    | Bedrooms | Bathrooms | SquareFeet | LotSize | Price | YearBuilt | MlsStatus
    | DaysOnMarket | Latitude | Longitude | Description

  /** The key text of each attribute. */
  function Name(f: Field): string {
    match f
    case ListingId => "listing_id"
    case Address => "address"
    case City => "city"
    case State => "state"
    case ZipCode => "zip_code"
    case Neighborhood => "neighborhood"
    case PropertyType => "property_type"
    case Bedrooms => "bedrooms"
    case Bathrooms => "bathrooms"
    case SquareFeet => "square_feet"
    case LotSize => "lot_size"
    case Price => "price"
    case YearBuilt => "year_built"
    case MlsStatus => "mls_status"
    case DaysOnMarket => "days_on_market"
    case Latitude => "latitude"
    case Longitude => "longitude"
    case Description => "description"
  }

  /** One metadata dictionary of the vector store (also the shape of a listing in the dataset). */
  type Meta = map<Field, Value>

  /** A query result: the outer lists hold one inner list per query embedding; a missing
      key of the result dictionary is `None`. */
  datatype QueryResult = QueryResult(
    documents: Option<seq<seq<string>>>,
    metadatas: Option<seq<seq<Meta>>>)

  /** The metadata keys the constructor call reads, in the order its keyword arguments are
      evaluated. */
  const Keys: seq<Field> := [
    ListingId, Address, City, State, ZipCode, Neighborhood, PropertyType,
    Bedrooms, Bathrooms, SquareFeet, LotSize, Price, YearBuilt, MlsStatus,
    DaysOnMarket, Latitude, Longitude, Description]

  /** The first key in `keys` that `meta` lacks (the one whose lookup raises KeyError). */
  function FirstMissing(meta: Meta, keys: seq<Field>): (r: Option<Field>)
    ensures r.None? <==> forall key :: key in keys ==> key in meta
    ensures r.Some? ==> r.value !in meta && r.value in keys
  {
    if keys == [] then None
    else if keys[0] !in meta then Some(keys[0])
    else
      assert forall key :: key in keys ==> key == keys[0] || key in keys[1..];
      FirstMissing(meta, keys[1..])
  }

  /** Pydantic's check for a `str` field. */
  predicate IsStr(v: Value) {
    v.Str?
  }

  /** Pydantic's check for an `int` field: an int, or a float without a fractional part. */
  predicate IsIntLike(v: Value) {
    v.Int? || (v.Float? && v.f.value == v.f.value.Floor as real)
  }

  /** Pydantic's check for a `float` field: an int or a float. */
  predicate IsFloatLike(v: Value) {
    v.Int? || v.Float?
  }

  function AsStr(v: Value): string
    requires IsStr(v)
  {
    v.s
  }

  function AsInt(v: Value): int
    requires IsIntLike(v)
  {
    if v.Int? then v.i else v.f.value.Floor
  }

  /** An int given for a float field becomes that float (`str` of it ends in ".0"). */
  function AsFloat(v: Value): PyFloat
    requires IsFloatLike(v)
  {
    if v.Float? then v.f else PyFloat(v.i as real, Text.IntToString(v.i) + ".0")
  }

  /** The dictionary has every key the constructor call reads. */
  predicate HasKeys(meta: Meta) {
    forall f: Field :: f in meta
  }

  /** The position of an attribute among the keys the constructor call reads. */
  function KeyIndex(f: Field): (i: nat)
    ensures i < |Keys| && Keys[i] == f
  {
    match f
    case ListingId => 0
    case Address => 1
    case City => 2
    case State => 3
    case ZipCode => 4
    case Neighborhood => 5
    case PropertyType => 6
    case Bedrooms => 7
    case Bathrooms => 8
    case SquareFeet => 9
    case LotSize => 10
    case Price => 11
    case YearBuilt => 12
    case MlsStatus => 13
    case DaysOnMarket => 14
    case Latitude => 15
    case Longitude => 16
    case Description => 17
  }

  /** Every attribute is read by the constructor call. */
  lemma KeysCoverFields()
    ensures forall f: Field :: f in Keys
  {
    forall f: Field ensures f in Keys {
      assert Keys[KeyIndex(f)] == f;
    }
  }

  /** Every declared field has a value of its declared type. */
  predicate WellTyped(meta: Meta)
    requires HasKeys(meta)
  {
    && IsStr(meta[ListingId]) && IsStr(meta[Address]) && IsStr(meta[Neighborhood])
    && IsStr(meta[City]) && IsStr(meta[State]) && IsStr(meta[ZipCode])
    && IsIntLike(meta[Price]) && IsIntLike(meta[Bedrooms]) && IsFloatLike(meta[Bathrooms])
    && IsIntLike(meta[SquareFeet]) && IsFloatLike(meta[LotSize]) && IsIntLike(meta[YearBuilt])
    && IsStr(meta[PropertyType]) && IsStr(meta[MlsStatus]) && IsIntLike(meta[DaysOnMarket])
    && IsFloatLike(meta[Latitude]) && IsFloatLike(meta[Longitude]) && IsStr(meta[Description])
  }

  /** The record one metadata dictionary yields: a missing key raises KeyError (the first one
      in argument order), a value of the wrong type raises ValidationError. */
  function RecordOf(meta: Meta): (r: Result<Record>)
    ensures r.Success? <==> HasKeys(meta) && WellTyped(meta)
  {
    KeysCoverFields();
    match FirstMissing(meta, Keys)
    case Some(key) => Failure("KeyError: " + Name(key))
    case None =>
      if !WellTyped(meta) then Failure("ValidationError")
      else
        Success(Build(meta))
  }

  /** The record built from a complete, well-typed dictionary. */
  function Build(meta: Meta): Record
    requires HasKeys(meta) && WellTyped(meta)
  {
    Record(
      listingId := AsStr(meta[ListingId]),
      address := AsStr(meta[Address]),
      neighborhood := AsStr(meta[Neighborhood]),
      city := AsStr(meta[City]),
      state := AsStr(meta[State]),
      zipCode := AsStr(meta[ZipCode]),
      price := AsInt(meta[Price]),
      bedrooms := AsInt(meta[Bedrooms]),
      bathrooms := AsFloat(meta[Bathrooms]),
      squareFeet := AsInt(meta[SquareFeet]),
      lotSize := AsFloat(meta[LotSize]),
      yearBuilt := AsInt(meta[YearBuilt]),
      propertyType := AsStr(meta[PropertyType]),
      mlsStatus := AsStr(meta[MlsStatus]),
      daysOnMarket := AsInt(meta[DaysOnMarket]),
      latitude := AsFloat(meta[Latitude]),
      longitude := AsFloat(meta[Longitude]),
      description := AsStr(meta[Description]))
  }

  /** The value a record holds for an attribute, in metadata form. */
  function ValueOf(r: Record, f: Field): Value {
    match f
    case ListingId => Str(r.listingId)
    case Address => Str(r.address)
    case City => Str(r.city)
    case State => Str(r.state)
    case ZipCode => Str(r.zipCode)
    case Neighborhood => Str(r.neighborhood)
    case PropertyType => Str(r.propertyType)
    case Bedrooms => Int(r.bedrooms)
    case Bathrooms => Float(r.bathrooms)
    case SquareFeet => Int(r.squareFeet)
    case LotSize => Float(r.lotSize)
    case Price => Int(r.price)
    case YearBuilt => Int(r.yearBuilt)
    case MlsStatus => Str(r.mlsStatus)
    case DaysOnMarket => Int(r.daysOnMarket)
    case Latitude => Float(r.latitude)
    case Longitude => Float(r.longitude)
    case Description => Str(r.description)
  }

  /** Every text field of a built record holds the dictionary's text, and every number field
      its number: an int given for a float field becomes that float, an integral float given
      for an int field that int. */
  lemma {:induction false} BuildKeepsValues(meta: Meta)
    requires HasKeys(meta) && WellTyped(meta)
    ensures forall f: Field :: meta[f].Str? ==> ValueOf(Build(meta), f) == meta[f]
    ensures forall f: Field :: !meta[f].Str? ==> Magnitude(ValueOf(Build(meta), f)) == Magnitude(meta[f])
  {
    var r := Build(meta);
    forall f: Field
      ensures meta[f].Str? ==> ValueOf(r, f) == meta[f]
      ensures !meta[f].Str? ==> Magnitude(ValueOf(r, f)) == Magnitude(meta[f])
    {
      match f
      case ListingId =>
      case Address =>
      case City =>
      case State =>
      case ZipCode =>
      case Neighborhood =>
      case PropertyType =>
      case Bedrooms =>
      case Bathrooms =>
      case SquareFeet =>
      case LotSize =>
      case Price =>
      case YearBuilt =>
      case MlsStatus =>
      case DaysOnMarket =>
      case Latitude =>
      case Longitude =>
      case Description =>
    }
  }

  /** The metadata dictionary of a record, as the loader stores a listing. */
  function MetaOf(r: Record): Meta {
    map f: Field :: ValueOf(r, f)
  }

  /** The dictionary written from a record holds, under each key, that record's value. */
  lemma MetaOfLookup(r: Record)
    ensures HasKeys(MetaOf(r))
    ensures forall f: Field :: MetaOf(r)[f] == ValueOf(r, f)
  {
  }

  lemma MetaOfWellTyped(r: Record)
    ensures HasKeys(MetaOf(r)) && WellTyped(MetaOf(r))
  {
    MetaOfLookup(r);
  }

  lemma BuildMetaOf(r: Record)
    requires HasKeys(MetaOf(r)) && WellTyped(MetaOf(r))
    ensures Build(MetaOf(r)) == r
  {
    MetaOfLookup(r);
  }

  /** Reading back the metadata of a record gives the record. */
  lemma RecordOfMetaOf(r: Record)
    ensures RecordOf(MetaOf(r)) == Success(r)
  {
    MetaOfWellTyped(r);
    BuildMetaOf(r);
  }

  /** `f` applied to the first `n` elements of `xs`, in order; the first failure makes the
      whole mapping fail with that failure. */
  function MapPrefix<A, B>(xs: seq<A>, n: nat, f: A -> Result<B>): (r: Result<seq<B>>)
    requires n <= |xs|
    ensures r.Success? ==> |r.value| == n
  {
    if n == 0 then Success([])
    else
      match MapPrefix(xs, n - 1, f)
      case Failure(e) => Failure(e)
      case Success(ys) =>
        match f(xs[n - 1])
        case Failure(e) => Failure(e)
        case Success(y) => Success(ys + [y])
  }

  /** The mapping succeeds exactly when every element it reads succeeds. */
  lemma {:induction false} MapPrefixSucceeds<A, B>(xs: seq<A>, n: nat, f: A -> Result<B>)
    requires n <= |xs|
    ensures MapPrefix(xs, n, f).Success? <==> forall i :: 0 <= i < n ==> f(xs[i]).Success?
  {
    if n > 0 {
      MapPrefixSucceeds(xs, n - 1, f);
    }
  }

  /** On success the i-th output comes from the i-th element. */
  lemma {:induction false} MapPrefixPointwise<A, B>(xs: seq<A>, n: nat, f: A -> Result<B>)
    requires n <= |xs|
    requires MapPrefix(xs, n, f).Success?
    ensures forall i :: 0 <= i < n ==> f(xs[i]) == Success(MapPrefix(xs, n, f).value[i])
  {
    if n > 0 {
      var prev := MapPrefix(xs, n - 1, f);
      assert prev.Success?;
      MapPrefixPointwise(xs, n - 1, f);
      var last := f(xs[n - 1]);
      assert MapPrefix(xs, n, f).value == prev.value + [last.value];
    }
  }

  /** Once one element fails, the mapping of any longer prefix fails the same way. */
  lemma {:induction false} MapPrefixFailureSticks<A, B>(xs: seq<A>, i: nat, n: nat, f: A -> Result<B>)
    requires i <= n <= |xs|
    requires MapPrefix(xs, i, f).Failure?
    ensures MapPrefix(xs, n, f) == MapPrefix(xs, i, f)
    decreases n - i
  {
    if i < n {
      MapPrefixFailureSticks(xs, i, n - 1, f);
    }
  }

  /** The records of the first `n` metadata dictionaries; the first one that fails makes the
      whole mapping fail. */
  function RecordsOf(metas: seq<Meta>, n: nat): Result<seq<Record>>
    requires n <= |metas|
  {
    MapPrefix(metas, n, RecordOf)
  }

  /** The entries of the query that `parse_chroma_results` zips: the first inner lists. */
  function Firsts(q: QueryResult): Result<(seq<string>, seq<Meta>)> {
    if q.documents.None? then Failure("KeyError: documents")
    else if q.documents.value == [] then Failure("IndexError: list index out of range")
    else if q.metadatas.None? then Failure("KeyError: metadatas")
    else if q.metadatas.value == [] then Failure("IndexError: list index out of range")
    else Success((q.documents.value[0], q.metadatas.value[0]))
  }

  function Min(a: nat, b: nat): nat {
    if a <= b then a else b
  }

  /** What `parse_chroma_results` returns: one record per zipped pair. */
  function ParsedResults(q: QueryResult): Result<seq<Record>> {
    match Firsts(q)
    case Failure(e) => Failure(e)
    case Success(pair) => RecordsOf(pair.1, Min(|pair.0|, |pair.1|))
  }

  /** `parse_chroma_results`: walks the zipped documents and metadatas, appending one record per
      pair; the document text is handed over as `full_text`, which the record does not keep. */
  method ParseChromaResults(q: QueryResult) returns (r: Result<seq<Record>>)
    ensures r == ParsedResults(q)
  {
    var firsts := Firsts(q);
    if firsts.Failure? {
      return Failure(firsts.error);
    }
    var documents, metadatas := firsts.value.0, firsts.value.1;
    var n := Min(|documents|, |metadatas|);
    var recommendations: seq<Record> := [];
    for i := 0 to n
      invariant RecordsOf(metadatas, i) == Success(recommendations)
    {
      var recommendation := RecordOf(metadatas[i]);
      if recommendation.Failure? {
        MapPrefixFailureSticks(metadatas, i + 1, n, RecordOf);
        return Failure(recommendation.error);
      }
      recommendations := recommendations + [recommendation.value];
    }
    return Success(recommendations);
  }

  /** The output has one record per pair of the zip, built from the metadata at the same
      position; the documents contribute nothing but the count. */
  lemma ParsedResultsShape(q: QueryResult)
    ensures ParsedResults(q).Success? ==>
      && q.documents.Some? && q.documents.value != []
      && q.metadatas.Some? && q.metadatas.value != []
      && |ParsedResults(q).value| == Min(|q.documents.value[0]|, |q.metadatas.value[0]|)
      && forall i :: 0 <= i < |ParsedResults(q).value| ==>
           RecordOf(q.metadatas.value[0][i]) == Success(ParsedResults(q).value[i])
  {
    if ParsedResults(q).Success? {
      var pair := Firsts(q).value;
      MapPrefixPointwise(pair.1, Min(|pair.0|, |pair.1|), RecordOf);
    }
  }

  /** Replacing the document texts by others of the same count changes nothing. */
  lemma DocumentsOnlyCount(q: QueryResult, docs: seq<string>)
    requires q.documents.Some? && q.documents.value != []
    requires |docs| == |q.documents.value[0]|
    ensures ParsedResults(q) == ParsedResults(q.(documents := Some([docs] + q.documents.value[1..])))
  {
  }

  /** Metadata written from records reads back as those records, in order. */
  lemma {:induction false} RecordsRoundTrip(recs: seq<Record>)
    ensures RecordsOf(seq(|recs|, i requires 0 <= i < |recs| => MetaOf(recs[i])), |recs|) == Success(recs)
  {
    var metas := seq(|recs|, i requires 0 <= i < |recs| => MetaOf(recs[i]));
    forall i | 0 <= i < |recs| ensures RecordOf(metas[i]) == Success(recs[i]) {
      RecordOfMetaOf(recs[i]);
    }
    MapPrefixSucceeds(metas, |recs|, RecordOf);
    MapPrefixPointwise(metas, |recs|, RecordOf);
    var r := RecordsOf(metas, |recs|);
    assert r.value == recs;
  }
}
