/** The descriptive text a listing is embedded as (`generate_property_text`). */
module LoadListings {
  import opened Wrappers
  import opened Text
  import opened PyValues
  import opened PropertyRecommendation
  import UserProfile

  // ---- `{n:,}`: thousands separators ----

  /** The last three decimal digits of `k < 1000`, zero-padded. */
  function Pad3(k: nat): (r: string)
    requires k < 1000
    ensures |r| == 3 && forall i :: 0 <= i < 3 ==> IsDigit(r[i])
  {
    [DigitChar(k / 100), DigitChar(k / 10 % 10), DigitChar(k % 10)]
  }

  /** A natural number with a comma between each group of three digits. */
  function GroupNat(n: nat): (r: string)
    ensures r != []
    ensures forall i :: 0 <= i < |r| ==> IsDigit(r[i]) || r[i] == ','
  {
    if n < 1000 then NatToString(n) else GroupNat(n / 1000) + "," + Pad3(n % 1000)
  }

  /** Counting from the right, every fourth character of `r` is a comma and no other is. */
  predicate CommaEveryFourth(r: string) {
    forall i :: 0 <= i < |r| ==> (r[i] == ',' <==> (|r| - i) % 4 == 0)
  }

  /** The commas of `{n:,}` sit between groups of three digits, counted from the right. */
  lemma {:induction false} GroupNatCommas(n: nat)
    ensures CommaEveryFourth(GroupNat(n))
  {
    if n < 1000 {
      ShortNumberText(n);
      ShortDigitsHaveNoComma(NatToString(n));
    } else {
      GroupNatCommas(n / 1000);
      CommaThenThreeDigits(GroupNat(n / 1000), Pad3(n % 1000));
    }
  }

  /** Up to three digits: no comma, and none is due. */
  lemma ShortDigitsHaveNoComma(s: string)
    requires |s| <= 3 && forall i :: 0 <= i < |s| ==> IsDigit(s[i])
    ensures CommaEveryFourth(s)
  {
    forall i | 0 <= i < |s| ensures s[i] != ',' && (|s| - i) % 4 != 0 {
      var k := |s| - i;
      assert 1 <= k <= 3 && k % 4 == k;
    }
  }

  /** A comma and three more digits keep the commas every fourth character. */
  lemma CommaThenThreeDigits(g: string, t: string)
    requires CommaEveryFourth(g)
    requires |t| == 3 && forall i :: 0 <= i < 3 ==> IsDigit(t[i])
    ensures CommaEveryFourth(g + "," + t)
  {
    var r := g + "," + t;
    forall i | 0 <= i < |r| ensures r[i] == ',' <==> (|r| - i) % 4 == 0 {
      var k := |g| - i;
      if i < |g| {
        assert r[i] == g[i];
        assert (k + 4) % 4 == k % 4;
      } else if i == |g| {
        assert r[i] == ',';
      } else {
        assert r[i] == t[i - |g| - 1];
        assert 1 <= k + 4 <= 3 && (k + 4) % 4 == k + 4;
      }
    }
  }

  /** `str(n)` of a number below 1000 has at most three digits. */
  lemma ShortNumberText(n: nat)
    requires n < 1000
    ensures |NatToString(n)| <= 3
  {
    if n >= 10 {
      assert NatToString(n) == NatToString(n / 10) + [DigitChar(n % 10)];
      if n >= 100 {
        assert NatToString(n / 10) == NatToString(n / 10 / 10) + [DigitChar(n / 10 % 10)];
      }
    }
  }

  function GroupInt(i: int): string {
    if i < 0 then "-" + GroupNat(-i) else GroupNat(i)
  }

  /** The text of a float from its decimal point on (empty when it has none). */
  function Fraction(repr: string): (r: string)
    ensures |r| <= |repr|
  {
    if repr == [] then []
    else if repr[0] == '.' then repr
    else Fraction(repr[1..])
  }

  /** `f"{v:,}"`: integers are grouped. A float prints as `repr` does, with its whole part
      grouped; one that `repr` writes with an exponent ("1e+16", "1e-05") has a one-digit whole
      part and prints unchanged. A string cannot take the ',' option. */
  function Grouped(v: Value): (r: Result<string>)
    ensures r.Failure? <==> v.Str?
    ensures v.Int? ==> r == Success(GroupInt(v.i))
    ensures v.Float? && 'e' in v.f.repr ==> r == Success(v.f.repr)
  {
    match v
    case Int(i) => Success(GroupInt(i))
    case Float(f) =>
      if 'e' in f.repr then Success(f.repr)
      else
        var sign := if f.repr != [] && f.repr[0] == '-' then "-" else "";
        Success(sign + GroupNat(Abs(Trunc(f.value))) + Fraction(f.repr))
    case Str(_) => Failure("ValueError: Cannot specify ',' with 's'.")
  }

  function Abs(i: int): nat {
    if i < 0 then -i else i
  }

  /** A negative float keeps its minus sign even when its whole part is 0: -0.5 prints "-0.5". */
  lemma SmallNegativeFloatKeepsSign()
    ensures Grouped(Float(PyFloat(-0.5, "-0.5"))) == Success("-0.5")
  {
    var repr := "-0.5";
    assert 'e' !in repr;
    assert Trunc(-0.5) == 0;
    assert GroupNat(0) == "0";
    assert repr[1..] == "0.5" && repr[1..][1..] == ".5";
    assert Fraction(repr) == ".5";
    assert Abs(Trunc(-0.5)) == 0;
    assert Grouped(Float(PyFloat(-0.5, repr))) == Success("-" + "0" + ".5");
    assert "-" + "0" + ".5" == repr;
  }

  lemma {:induction false} RemoveCommasConcat(a: string, b: string)
    ensures UserProfile.RemoveCommas(a + b) == UserProfile.RemoveCommas(a) + UserProfile.RemoveCommas(b)
  {
    if a == [] {
      assert a + b == b;
    } else {
      var c := if a[0] == ',' then [] else [a[0]];
      assert (a + b)[0] == a[0] && (a + b)[1..] == a[1..] + b;
      assert UserProfile.RemoveCommas(a + b) == c + UserProfile.RemoveCommas(a[1..] + b);
      RemoveCommasConcat(a[1..], b);
      assert c + (UserProfile.RemoveCommas(a[1..]) + UserProfile.RemoveCommas(b))
        == (c + UserProfile.RemoveCommas(a[1..])) + UserProfile.RemoveCommas(b);
    }
  }

  lemma ThousandsArithmetic(n: nat)
    ensures n / 10 / 10 / 10 == n / 1000
    ensures n / 10 / 10 % 10 == n % 1000 / 100
    ensures n / 10 % 10 == n % 1000 / 10 % 10
    ensures n % 10 == n % 1000 % 10
  {
  }

  /** `str(n)` for `n >= 10`: the digits of `n / 10`, then the last digit. */
  lemma NatToStringLast(n: nat)
    requires n >= 10
    ensures NatToString(n) == NatToString(n / 10) + [DigitChar(n % 10)]
  {
  }

  /** A number of four or more digits is its thousands followed by its last three digits. */
  lemma NatToStringSplit(n: nat)
    requires n >= 1000
    ensures NatToString(n) == NatToString(n / 1000) + Pad3(n % 1000)
  {
    ThousandsArithmetic(n);
    NatToStringLast(n);
    NatToStringLast(n / 10);
    NatToStringLast(n / 10 / 10);
  }

  /** Dropping the separators gives back the plain digits. */
  lemma {:induction false} GroupNatDigits(n: nat)
    ensures UserProfile.RemoveCommas(GroupNat(n)) == NatToString(n)
  {
    if n >= 1000 {
      GroupNatDigits(n / 1000);
      RemoveCommasConcat(GroupNat(n / 1000) + ",", Pad3(n % 1000));
      RemoveCommasConcat(GroupNat(n / 1000), ",");
      NatToStringSplit(n);
    }
  }

  /** The clean-up before pricing turns a grouped number into its plain digits. */
  lemma GroupedNumberText(n: nat)
    ensures UserProfile.NumberText(Some(GroupNat(n))) == NatToString(n)
  {
    var g := GroupNat(n);
    UserProfile.LowerKeepsNonLetters(g);
    GroupNatDigits(n);
    StripOfDigits(NatToString(n));
  }

  /** A price written with separators normalises back to the same number. */
  lemma GroupedPriceNormalises(n: nat)
    ensures UserProfile.NormalizePrice(Some(GroupNat(n))) == Success(n)
  {
    GroupedNumberText(n);
    UserProfile.PriceOfDigitString(NatToString(n));
    NatToStringRoundTrip(n);
  }

  // ---- the parts of the text ----

  /** The sentence fragments, in the order the text lists them. */
  datatype Slot =
    | TypeSlot | BedSlot | BathSlot | NeighborhoodSlot | PlaceSlot | PriceSlot | SqftSlot
    | LotSlot | AddressSlot | YearSlot | MlsSlot | DaysSlot | DescriptionSlot

  const Slots: seq<Slot> := [
    TypeSlot, BedSlot, BathSlot, NeighborhoodSlot, PlaceSlot, PriceSlot, SqftSlot,
    LotSlot, AddressSlot, YearSlot, MlsSlot, DaysSlot, DescriptionSlot]

  /** The keys a fragment reads. */
  function KeysOf(s: Slot): set<Field> {
    match s
    case TypeSlot => {PropertyType}
    case BedSlot => {Bedrooms}
    case BathSlot => {Bathrooms}
    case NeighborhoodSlot => {Neighborhood}
    case PlaceSlot => {City, State}
    case PriceSlot => {Price}
    case SqftSlot => {SquareFeet}
    case LotSlot => {LotSize}
    case AddressSlot => {Address}
    case YearSlot => {YearBuilt}
    case MlsSlot => {MlsStatus}
    case DaysSlot => {DaysOnMarket}
    case DescriptionSlot => {Description}
  }

  /** Whether the text has this fragment: the first one always, every other one exactly when
      all its keys are present. */
  predicate Present(data: Meta, s: Slot) {
    s == TypeSlot || KeysOf(s) <= data.Keys
  }

  /** `v != 1` in Python: a string never equals the integer 1. */
  predicate NotOne(v: Value) {
    match v
    case Int(i) => i != 1
    case Float(f) => f.value != 1.0
    case Str(_) => true
  }

  function PluralS(v: Value): string {
    if NotOne(v) then "s" else ""
  }

  /** The text of a present fragment; the grouped numbers and the description, which is joined
      as it is and so must be a string, can fail. */
  function PartText(data: Meta, s: Slot): (r: Result<string>)
    requires Present(data, s)
    ensures r.Failure? ==> s in {PriceSlot, SqftSlot, DescriptionSlot}
  {
    match s
    case TypeSlot =>
      Success((if PropertyType in data then ToText(data[PropertyType]) else "Property") + " for sale")
    case BedSlot => Success("with " + ToText(data[Bedrooms]) + " bedroom" + PluralS(data[Bedrooms]))
    case BathSlot => Success("and " + ToText(data[Bathrooms]) + " bathroom" + PluralS(data[Bathrooms]))
    case NeighborhoodSlot => Success("in " + ToText(data[Neighborhood]) + ",")
    case PlaceSlot => Success(ToText(data[City]) + ", " + ToText(data[State]) + ".")
    case PriceSlot =>
      (match Grouped(data[Price])
       case Failure(e) => Failure(e)
       case Success(g) => Success("Priced at $" + g))
    case SqftSlot =>
      (match Grouped(data[SquareFeet])
       case Failure(e) => Failure(e)
       case Success(g) => Success("with " + g + " square feet of living space."))
    case LotSlot => Success("The lot size is " + ToText(data[LotSize]) + " acres.")
    case AddressSlot => Success("Located at " + ToText(data[Address]) + ".")
    case YearSlot => Success("Built in " + ToText(data[YearBuilt]) + ".")
    case MlsSlot => Success("MLS Status: " + ToText(data[MlsStatus]) + ".")
    case DaysSlot => Success("On the market for " + ToText(data[DaysOnMarket]) + " days.")
    case DescriptionSlot =>
      if data[Description].Str? then Success(data[Description].s)
      else Failure("TypeError: sequence item: expected str instance")
  }

  /** The fragments of the first `k` slots that are present, in slot order; the first failing
      fragment makes the whole text fail. */
  function PartsUpTo(data: Meta, k: nat): (r: Result<seq<string>>)
    requires k <= |Slots|
    ensures r.Success? ==> |r.value| <= k
    ensures r.Success? && k > 0 ==> |r.value| > 0
  {
    if k == 0 then Success([])
    else
      match PartsUpTo(data, k - 1)
      case Failure(e) => Failure(e)
      case Success(ps) =>
        if !Present(data, Slots[k - 1]) then Success(ps)
        else
          match PartText(data, Slots[k - 1])
          case Failure(e) => Failure(e)
          case Success(t) => Success(ps + [t])
  }

  /** The text `generate_property_text` builds: its fragments joined by single spaces. */
  function PropertyText(data: Meta): Result<string> {
    match PartsUpTo(data, |Slots|)
    case Failure(e) => Failure(e)
    case Success(ps) => Success(Join(ps, " "))
  }

  /** Once one fragment fails, the whole text fails with it. */
  lemma {:induction false} PartsFailureSticks(data: Meta, i: nat, n: nat)
    requires i <= n <= |Slots|
    requires PartsUpTo(data, i).Failure?
    ensures PartsUpTo(data, n) == PartsUpTo(data, i)
    decreases n - i
  {
    if i < n {
      PartsFailureSticks(data, i, n - 1);
    }
  }

  /** One `if key in property_data: parts.append(...)` step: appends the fragment of slot
      `k - 1` when its keys are present. */
  method AppendPart(data: Meta, k: nat, parts: seq<string>) returns (r: Result<seq<string>>)
    requires 0 < k <= |Slots|
    requires PartsUpTo(data, k - 1) == Success(parts)
    ensures r == PartsUpTo(data, k)
    ensures r.Failure? ==> Slots[k - 1] in {PriceSlot, SqftSlot, DescriptionSlot}
  {
    var s := Slots[k - 1];
    if Present(data, s) {
      var t := PartText(data, s);
      if t.Failure? {
        return Failure(t.error);
      }
      return Success(parts + [t.value]);
    }
    return Success(parts);
  }

  /** `generate_property_text`: each present key adds its fragment in the fixed order, and the
      fragments are joined by single spaces. */
  method GeneratePropertyText(data: Meta) returns (r: Result<string>)
    ensures r == PropertyText(data)
  {
    var parts: seq<string> := [];
    var next := AppendPart(data, 1, parts);
    parts := next.value;
    next := AppendPart(data, 2, parts);
    parts := next.value;
    next := AppendPart(data, 3, parts);
    parts := next.value;
    next := AppendPart(data, 4, parts);
    parts := next.value;
    next := AppendPart(data, 5, parts);
    parts := next.value;
    next := AppendPart(data, 6, parts);
    if next.Failure? {
      PartsFailureSticks(data, 6, |Slots|);
      return Failure(next.error);
    }
    parts := next.value;
    next := AppendPart(data, 7, parts);
    if next.Failure? {
      PartsFailureSticks(data, 7, |Slots|);
      return Failure(next.error);
    }
    parts := next.value;
    next := AppendPart(data, 8, parts);
    parts := next.value;
    next := AppendPart(data, 9, parts);
    parts := next.value;
    next := AppendPart(data, 10, parts);
    parts := next.value;
    next := AppendPart(data, 11, parts);
    parts := next.value;
    next := AppendPart(data, 12, parts);
    parts := next.value;
    next := AppendPart(data, 13, parts);
    if next.Failure? {
      PartsFailureSticks(data, 13, |Slots|);
      return Failure(next.error);
    }
    parts := next.value;
    return Success(Join(parts, " "));
  }

  // ---- properties of the text ----

  /** The text opens with "<property type> for sale", "Property" standing in for a missing type. */
  lemma {:induction false} TextStartsWithType(data: Meta)
    requires PropertyText(data).Success?
    ensures var first := (if PropertyType in data then ToText(data[PropertyType]) else "Property") + " for sale";
      |first| <= |PropertyText(data).value| && PropertyText(data).value[..|first|] == first
  {
    var first := (if PropertyType in data then ToText(data[PropertyType]) else "Property") + " for sale";
    var ps := PartsUpTo(data, |Slots|).value;
    PartsStartWithType(data, |Slots|);
    JoinStartsWithFirst(ps, " ");
  }

  lemma {:induction false} PartsStartWithType(data: Meta, k: nat)
    requires 0 < k <= |Slots|
    requires PartsUpTo(data, k).Success?
    ensures PartsUpTo(data, k).value[0]
      == (if PropertyType in data then ToText(data[PropertyType]) else "Property") + " for sale"
  {
    if k > 1 {
      PartsStartWithType(data, k - 1);
    }
  }

  lemma {:induction false} JoinStartsWithFirst(xs: seq<string>, sep: string)
    requires xs != []
    ensures |xs[0]| <= |Join(xs, sep)| && Join(xs, sep)[..|xs[0]|] == xs[0]
  {
    if |xs| > 1 {
      assert Join(xs, sep) == xs[0] + (sep + Join(xs[1..], sep));
    }
  }

  /** "bedroom" and "bathroom" take a trailing "s" exactly when the count is not 1. */
  lemma PluralUnlessOne(data: Meta, s: Slot)
    requires s == BedSlot || s == BathSlot
    requires Present(data, s)
    ensures var v := if s == BedSlot then data[Bedrooms] else data[Bathrooms];
      var t := PartText(data, s).value;
      t[|t| - 1] == 's' <==> NotOne(v)
  {
  }

  /** The "city, state." fragment appears exactly when both keys are present. */
  lemma PlaceNeedsBoth(data: Meta)
    ensures Present(data, PlaceSlot) <==> City in data && State in data
  {
  }

  /** Taking a key out of the listing removes exactly the fragments that read it (the opening
      fragment falls back to "Property"); every other fragment is unchanged. */
  lemma RemovingKeyIsLocal(data: Meta, key: Field, s: Slot)
    ensures key !in KeysOf(s) ==> Present(data - {key}, s) == Present(data, s)
    ensures key !in KeysOf(s) && Present(data, s) ==> PartText(data - {key}, s) == PartText(data, s)
    ensures key in KeysOf(s) && s != TypeSlot ==> !Present(data - {key}, s)
    ensures key == PropertyType && s == TypeSlot ==> PartText(data - {key}, s) == Success("Property for sale")
  {
    var d := data - {key};
    if key !in KeysOf(s) {
      forall f | f in KeysOf(s) ensures (f in d <==> f in data) && (f in data ==> d[f] == data[f]) {
        assert f != key;
      }
      if Present(data, s) {
        match s
        case TypeSlot =>
        case PlaceSlot =>
          assert City in KeysOf(s) && State in KeysOf(s);
        case PriceSlot =>
        case SqftSlot =>
        case DescriptionSlot =>
        case _ =>
      }
    } else if s != TypeSlot {
      assert key !in d;
    } else if key == PropertyType {
      assert PropertyType !in d;
      assert "Property" + " for sale" == "Property for sale";
    }
  }

  /** The price fragment of an integer price shows it with separators. */
  lemma PriceFragment(data: Meta)
    requires Price in data && data[Price].Int? && data[Price].i >= 0
    ensures PartText(data, PriceSlot) == Success("Priced at $" + GroupNat(data[Price].i))
  {
    var g := Grouped(data[Price]);
    assert g == Success(GroupNat(data[Price].i));
  }
}
