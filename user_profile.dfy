/** The caller's profile (`UserProfile`) and what is done to it before matching and booking:
    validation, defaulting, phone formatting and the normalisation of numeric text. */
module UserProfile {
  import opened Wrappers
  import opened Text
  import opened PyValues

  /** The profile the dialogue layer fills in; every scalar field may be missing (`None`). */
  datatype Profile = Profile(
    name: Option<string>,
    phone: Option<string>,
    buyOrRent: Option<string>,
    location: Option<string>,
    propertyType: Option<string>,
    sqft: Option<string>,
    budget: Option<string>,
    bedrooms: Option<int>,
    bathrooms: Option<PyFloat>,
    mustHaves: seq<string>,
    goodToHaves: seq<string>)

  /** Python truthiness of an optional string: present and not empty. */
  predicate Truthy(s: Option<string>) {
    s.Some? && s.value != ""
  }

  predicate TruthyInt(n: Option<int>) {
    n.Some? && n.value != 0
  }

  predicate TruthyFloat(x: Option<PyFloat>) {
    x.Some? && x.value.value != 0.0
  }

  /** `str(x)` of an optional string: `None` prints as "None". */
  function PyStr(s: Option<string>): string {
    if s.Some? then s.value else "None"
  }

  // ---- validate_user_profile ----

  /** The six checks, in the order `validate_user_profile` runs them. */
  datatype Check = NameCheck | PhoneCheck | LocationCheck | BudgetCheck | PropertyTypeCheck | IntentCheck

  const AllChecks: seq<Check> :=
    [NameCheck, PhoneCheck, LocationCheck, BudgetCheck, PropertyTypeCheck, IntentCheck]

  const PropertyTypes: set<string> := {"Multi-Family", "Condo", "Single Family", "Townhouse"}
  const Intents: set<string> := {"buy", "rent"}

  /** The message each failed check appends (the property-type names are listed in one
      fixed order here; Python prints them in set iteration order). */
  function Message(c: Check): string {
    match c
    case NameCheck => "Name is required and cannot be empty."
    case PhoneCheck => "Phone number is required and must have 10 to 15 digits."
    case LocationCheck => "Location is required and cannot be empty."
    case BudgetCheck => "Budget is required and must be a numeric value."
    case PropertyTypeCheck => "Property type must be one of: Multi-Family, Condo, Single Family, Townhouse."
    case IntentCheck => "buyOrRent must be either 'buy' or 'rent'."
  }

  /** `validate_phone_number`: a non-empty phone with 10 to 15 digit characters. */
  function ValidatePhoneNumber(phone: Option<string>): (ok: bool)
    ensures ok <==> Truthy(phone) && 10 <= |Digits(phone.value)| <= 15
    ensures ok ==> |phone.value| >= 10
  {
    if !Truthy(phone) then false
    else 10 <= |Digits(phone.value)| <= 15
  }

  /** Whether profile `p` passes check `c`. A blank name or location, a budget whose stripped
      text is not all digits, an unknown property type or intent fails. */
  predicate Passes(p: Profile, c: Check) {
    match c
    case NameCheck => Truthy(p.name) && Strip(p.name.value) != []
    case PhoneCheck => ValidatePhoneNumber(p.phone)
    case LocationCheck => Truthy(p.location) && Strip(p.location.value) != []
    case BudgetCheck => Truthy(p.budget) && IsDigitString(Strip(p.budget.value))
    case PropertyTypeCheck => Truthy(p.propertyType) && Strip(p.propertyType.value) in PropertyTypes
    case IntentCheck => Truthy(p.buyOrRent) && Lower(Strip(p.buyOrRent.value)) in Intents
  }

  /** A check's position in the order `validate_user_profile` runs them. */
  function Rank(c: Check): (r: nat)
    ensures r < |AllChecks| && AllChecks[r] == c
  {
    match c
    case NameCheck => 0
    case PhoneCheck => 1
    case LocationCheck => 2
    case BudgetCheck => 3
    case PropertyTypeCheck => 4
    case IntentCheck => 5
  }

  /** The checks among the first `k` that `p` fails, in check order. */
  function FailedUpTo(p: Profile, k: nat): seq<Check>
    requires k <= |AllChecks|
  {
    if k == 0 then []
    else FailedUpTo(p, k - 1) + (if Passes(p, AllChecks[k - 1]) then [] else [AllChecks[k - 1]])
  }

  /** The checks `p` fails, in check order. */
  function FailedChecks(p: Profile): seq<Check> {
    FailedUpTo(p, |AllChecks|)
  }

  /** The message of each check in `cs`, in the same order. */
  function MessagesOf(cs: seq<Check>): seq<string> {
    seq(|cs|, i requires 0 <= i < |cs| => Message(cs[i]))
  }

  /** `validate_user_profile`: runs the six checks in order, records each one that fails,
      and answers with the messages of the failed checks in that order. */
  method ValidateUserProfile(p: Profile) returns (errors: seq<string>)
    ensures errors == MessagesOf(FailedChecks(p))
  {
    var failed: seq<Check> := [];

    var nameMissing := !Truthy(p.name) || Strip(p.name.value) == [];
    if nameMissing {
      failed := failed + [NameCheck];
    }
    assert failed == FailedUpTo(p, 1);

    var phoneInvalid := !ValidatePhoneNumber(p.phone);
    if phoneInvalid {
      failed := failed + [PhoneCheck];
    }
    assert failed == FailedUpTo(p, 2);

    var locationMissing := !Truthy(p.location) || Strip(p.location.value) == [];
    if locationMissing {
      failed := failed + [LocationCheck];
    }
    assert failed == FailedUpTo(p, 3);

    var budgetInvalid := !Truthy(p.budget) || !IsDigitString(Strip(p.budget.value));
    if budgetInvalid {
      failed := failed + [BudgetCheck];
    }
    assert failed == FailedUpTo(p, 4);

    var typeInvalid := !Truthy(p.propertyType) || Strip(p.propertyType.value) !in PropertyTypes;
    if typeInvalid {
      failed := failed + [PropertyTypeCheck];
    }
    assert failed == FailedUpTo(p, 5);

    var intentInvalid := !Truthy(p.buyOrRent) || Lower(Strip(p.buyOrRent.value)) !in Intents;
    if intentInvalid {
      failed := failed + [IntentCheck];
    }
    assert failed == FailedUpTo(p, 6);

    errors := MessagesOf(failed);
  }

  /** Among the first `k` checks, a check is listed exactly when it is one of them and `p`
      fails it; the list is in check order and has at most `k` entries. */
  lemma {:induction false} FailedUpToFacts(p: Profile, k: nat)
    requires k <= |AllChecks|
    ensures forall c :: c in FailedUpTo(p, k) <==> Rank(c) < k && !Passes(p, c)
    ensures forall i, j :: 0 <= i < j < |FailedUpTo(p, k)| ==>
      Rank(FailedUpTo(p, k)[i]) < Rank(FailedUpTo(p, k)[j])
    ensures |FailedUpTo(p, k)| <= k
  {
    if k > 0 {
      FailedUpToFacts(p, k - 1);
      FailedUpToStep(p, k, FailedUpTo(p, k - 1));
    }
  }

  /** Adding the k-th check to the list `prev` of the earlier failures keeps the facts of
      `FailedUpToFacts`. */
  lemma FailedUpToStep(p: Profile, k: nat, prev: seq<Check>)
    requires 0 < k <= |AllChecks| && prev == FailedUpTo(p, k - 1)
    requires forall c :: c in prev <==> Rank(c) < k - 1 && !Passes(p, c)
    requires forall i, j :: 0 <= i < j < |prev| ==> Rank(prev[i]) < Rank(prev[j])
    requires |prev| <= k - 1
    ensures forall c :: c in FailedUpTo(p, k) <==> Rank(c) < k && !Passes(p, c)
    ensures forall i, j :: 0 <= i < j < |FailedUpTo(p, k)| ==>
      Rank(FailedUpTo(p, k)[i]) < Rank(FailedUpTo(p, k)[j])
    ensures |FailedUpTo(p, k)| <= k
  {
    var last := AllChecks[k - 1];
    RankOfPosition(k - 1);
    var tail := if Passes(p, last) then [] else [last];
    assert FailedUpTo(p, k) == prev + tail;
    forall c ensures c in prev + tail <==> Rank(c) < k && !Passes(p, c) {
      if Rank(c) == k - 1 {
        assert c == AllChecks[Rank(c)] == last;
      }
    }
    forall i, j | 0 <= i < j < |prev + tail| ensures Rank((prev + tail)[i]) < Rank((prev + tail)[j]) {
      if j >= |prev| {
        assert (prev + tail)[i] == prev[i] && prev[i] in prev;
      }
    }
  }

  /** The check at position i of the run order has rank i. */
  lemma RankOfPosition(i: nat)
    requires i < |AllChecks|
    ensures Rank(AllChecks[i]) == i
  {
  }

  /** The validation result is empty exactly when all six checks pass; a check's message
      appears exactly when that check fails; at most six messages, in check order. */
  lemma ValidationVerdict(p: Profile)
    ensures FailedChecks(p) == [] <==> forall c: Check :: Passes(p, c)
    ensures forall c :: c in FailedChecks(p) <==> !Passes(p, c)
    ensures |MessagesOf(FailedChecks(p))| <= 6
    ensures forall i, j :: 0 <= i < j < |FailedChecks(p)| ==>
      Rank(FailedChecks(p)[i]) < Rank(FailedChecks(p)[j])
  {
    FailedUpToFacts(p, |AllChecks|);
    if FailedChecks(p) != [] {
      assert FailedChecks(p)[0] in FailedChecks(p);
    }
  }

  // ---- apply_defaults_to_profile ----

  /** The profile with every falsy defaultable field filled in. */
  function WithDefaults(p: Profile): (q: Profile)
    ensures q.name == p.name && q.phone == p.phone && q.location == p.location
    ensures q.mustHaves == p.mustHaves && q.goodToHaves == p.goodToHaves
    ensures q.sqft == (if Truthy(p.sqft) then p.sqft else Some("2000"))
    ensures q.propertyType == (if Truthy(p.propertyType) then p.propertyType else Some("Single Family"))
    ensures q.buyOrRent == (if Truthy(p.buyOrRent) then p.buyOrRent else Some("buy"))
    ensures q.bedrooms == (if TruthyInt(p.bedrooms) then p.bedrooms else Some(3))
    ensures q.bathrooms == (if TruthyFloat(p.bathrooms) then p.bathrooms else Some(PyFloat(2.0, "2.0")))
    ensures Truthy(q.buyOrRent)
    ensures Truthy(p.budget) ==> q.budget == p.budget
  {
    var intent := if Truthy(p.buyOrRent) then p.buyOrRent else Some("buy");
    p.(sqft := if Truthy(p.sqft) then p.sqft else Some("2000"),
       propertyType := if Truthy(p.propertyType) then p.propertyType else Some("Single Family"),
       buyOrRent := intent,
       bedrooms := if TruthyInt(p.bedrooms) then p.bedrooms else Some(3),
       bathrooms := if TruthyFloat(p.bathrooms) then p.bathrooms else Some(PyFloat(2.0, "2.0")),
       budget :=
         if Truthy(p.budget) then p.budget
         else if Lower(intent.value) == "buy" then Some("300000")
         else if Lower(intent.value) == "rent" then Some("2000")
         else p.budget)
  }

  /** A missing budget is filled by the defaulted intent: 300000 to buy, 2000 to rent, and
      left as it was for any other intent. */
  lemma DefaultBudget(p: Profile)
    requires !Truthy(p.budget)
    ensures var q := WithDefaults(p);
      && (Lower(q.buyOrRent.value) == "buy" ==> q.budget == Some("300000"))
      && (Lower(q.buyOrRent.value) == "rent" ==> q.budget == Some("2000"))
      && (Lower(q.buyOrRent.value) !in Intents ==> q.budget == p.budget)
  {
    var intent := WithDefaults(p).buyOrRent.value;
    assert Lower(intent) == "rent" ==> Lower(intent) != "buy";
  }

  /** `apply_defaults_to_profile`: fills the falsy fields of a copy, one field at a time;
      the caller's profile is a value and stays as it was. */
  method ApplyDefaultsToProfile(p: Profile) returns (updated: Profile)
    ensures updated == WithDefaults(p)
  {
    updated := p;
    if !Truthy(updated.sqft) {
      updated := updated.(sqft := Some("2000"));
    }
    if !Truthy(updated.propertyType) {
      updated := updated.(propertyType := Some("Single Family"));
    }
    if !Truthy(updated.buyOrRent) {
      updated := updated.(buyOrRent := Some("buy"));
    }
    if !TruthyInt(updated.bedrooms) {
      updated := updated.(bedrooms := Some(3));
    }
    if !TruthyFloat(updated.bathrooms) {
      updated := updated.(bathrooms := Some(PyFloat(2.0, "2.0")));
    }
    if !Truthy(updated.budget) {
      if Truthy(updated.buyOrRent) && Lower(updated.buyOrRent.value) == "buy" {
        updated := updated.(budget := Some("300000"));
      } else if Truthy(updated.buyOrRent) && Lower(updated.buyOrRent.value) == "rent" {
        updated := updated.(budget := Some("2000"));
      }
    }
  }

  /** Defaulting an already defaulted profile changes nothing. */
  lemma DefaultsIdempotent(p: Profile)
    ensures WithDefaults(WithDefaults(p)) == WithDefaults(p)
  {
    var q := WithDefaults(p);
    assert Truthy(q.buyOrRent);
  }

  // ---- format_phone ----

  /** `format_phone` as written, including the branch for digit strings that start with "+". */
  function FormatPhone(phone: Option<string>): (r: string)
    ensures !Truthy(phone) ==> r == ""
    ensures Truthy(phone) ==>
      r == "+" + (if |Digits(phone.value)| == 10 then "1" else "") + Digits(phone.value)
  {
    if !Truthy(phone) then ""
    else
      var digits := Digits(phone.value);
      if |digits| == 10 then "+1" + digits
      else if |digits| > 0 && digits[0] == '1' && |digits| == 11 then "+" + digits
      else if |digits| > 0 && digits[0] == '+' && |digits| > 1 then digits
      else "+" + digits
  }

  /** The digits of a formatted phone: the original ones, behind a "1" for a ten-digit number. */
  lemma {:induction false} DigitsOfFormatted(d: string, prefix: string)
    requires forall i :: 0 <= i < |d| ==> IsDigit(d[i])
    requires prefix == "+" || prefix == "+1"
    ensures Digits(prefix + d) == prefix[1..] + d
  {
    assert (prefix + d)[1..] == prefix[1..] + d;
    DigitsOfDigitString(prefix[1..] + d);
  }

  /** Formatting a formatted phone number changes nothing. */
  lemma FormatPhoneIdempotent(phone: Option<string>)
    ensures FormatPhone(Some(FormatPhone(phone))) == FormatPhone(phone)
  {
    if Truthy(phone) {
      var d := Digits(phone.value);
      if |d| == 10 {
        DigitsOfFormatted(d, "+1");
      } else {
        DigitsOfFormatted(d, "+");
      }
    }
  }

  /** A phone number that passes validation is formatted as "+" and 11 to 15 digits. */
  lemma ValidPhoneFormatsToE164(phone: Option<string>)
    requires ValidatePhoneNumber(phone)
    ensures var r := FormatPhone(phone);
      12 <= |r| <= 16 && r[0] == '+' && forall i :: 1 <= i < |r| ==> IsDigit(r[i])
  {
    var d := Digits(phone.value);
    var r := FormatPhone(phone);
    var prefix := if |d| == 10 then "+1" else "+";
    assert r == prefix + d;
    forall i | 1 <= i < |r|
      ensures IsDigit(r[i])
    {
      if i >= |prefix| {
        assert r[i] == d[i - |prefix|];
      }
    }
  }

  // ---- normalize_price / normalize_number ----

  /** A character of the pattern `[\d.]`. */
  predicate IsRunChar(c: char) {
    IsDigit(c) || c == '.'
  }

  predicate IsRun(r: string) {
    |r| > 0 && forall i :: 0 <= i < |r| ==> IsRunChar(r[i])
  }

  /** Length of the `[\d.]` run `s` starts with. */
  function RunLength(s: string): (n: nat)
    ensures n <= |s|
    ensures forall i :: 0 <= i < n ==> IsRunChar(s[i])
    ensures n < |s| ==> !IsRunChar(s[n])
  {
    if s != [] && IsRunChar(s[0]) then 1 + RunLength(s[1..]) else 0
  }

  /** `re.findall(r"[\d.]+", s)`: the maximal runs of digits and dots, left to right. */
  function Runs(s: string): (rs: seq<string>)
    ensures forall k :: 0 <= k < |rs| ==> IsRun(rs[k])
    decreases |s|
  {
    if s == [] then []
    else if !IsRunChar(s[0]) then Runs(s[1..])
    else
      var n := RunLength(s);
      [s[..n]] + Runs(s[n..])
  }

  /** A decimal number `mantissa / 10^scale`, the exact value of a float literal. */
  datatype Decimal = Decimal(mantissa: nat, scale: nat)

  function Pow10(n: nat): (r: nat)
    ensures r >= 1
  {
    if n == 0 then 1 else 10 * Pow10(n - 1)
  }

  /** `int(float(run) * m)` for a non-negative multiplier (float rounding aside). */
  function Scaled(d: Decimal, m: nat): int {
    (d.mantissa * m) / Pow10(d.scale)
  }

  function IndexOf(s: string, c: char): (i: nat)
    requires c in s
    ensures i < |s| && s[i] == c && c !in s[..i]
  {
    if s[0] == c then 0 else 1 + IndexOf(s[1..], c)
  }

  /** `float(run)`: a run with no digit (".") or with two dots ("1.2.3") raises ValueError. */
  function ParseRun(r: string): (d: Result<Decimal>)
    requires IsRun(r)
    ensures d.Success? && '.' !in r ==> d.value == Decimal(DigitsValue(r), 0)
  {
    if '.' !in r then Success(Decimal(DigitsValue(r), 0))
    else
      var i := IndexOf(r, '.');
      var whole, frac := r[..i], r[i + 1..];
      if '.' in frac || whole + frac == [] then Failure("ValueError: could not convert string to float")
      else
        assert forall j :: 0 <= j < |whole + frac| ==> IsDigit((whole + frac)[j]) by {
          forall j | 0 <= j < |whole + frac| ensures IsDigit((whole + frac)[j]) {
            if j < |whole| {
              assert (whole + frac)[j] == r[j] && r[j] != '.';
            } else {
              assert (whole + frac)[j] == r[j + 1] && r[j + 1] in frac;
            }
          }
        }
        Success(Decimal(DigitsValue(whole + frac), |frac|))
  }

  /** The list comprehension over every run: one failing run makes the whole call raise. */
  function ParseRuns(runs: seq<string>): (r: Result<seq<Decimal>>)
    requires forall k :: 0 <= k < |runs| ==> IsRun(runs[k])
    ensures r.Success? <==> forall k :: 0 <= k < |runs| ==> ParseRun(runs[k]).Success?
    ensures r.Success? ==>
      && |r.value| == |runs|
      && forall k :: 0 <= k < |runs| ==> r.value[k] == ParseRun(runs[k]).value
  {
    if runs == [] then Success([])
    else
      match ParseRun(runs[0])
      case Failure(e) => Failure(e)
      case Success(d) =>
        match ParseRuns(runs[1..])
        case Failure(e) => Failure(e)
        case Success(ds) =>
          assert forall k :: 1 <= k < |runs| ==> runs[k] == runs[1..][k - 1];
          Success([d] + ds)
  }

  /** The largest scaled value (`int(max(numbers))`; the floor is monotone, so this is
      the maximum of the floors). */
  function MaxScaled(ds: seq<Decimal>, m: nat): (r: int)
    requires ds != []
    ensures forall k :: 0 <= k < |ds| ==> Scaled(ds[k], m) <= r
    ensures exists k :: 0 <= k < |ds| && Scaled(ds[k], m) == r
  {
    if |ds| == 1 then Scaled(ds[0], m)
    else
      var rest := MaxScaled(ds[1..], m);
      assert forall k :: 1 <= k < |ds| ==> ds[k] == ds[1..][k - 1];
      if Scaled(ds[0], m) >= rest then Scaled(ds[0], m) else rest
  }

  function RemoveCommas(s: string): (r: string)
    ensures |r| <= |s|
    ensures ',' !in s ==> r == s
  {
    if s == [] then []
    else (if s[0] == ',' then [] else [s[0]]) + RemoveCommas(s[1..])
  }

  /** `str(x).lower().replace(",", "").strip()` */
  function NumberText(s: Option<string>): string {
    Strip(RemoveCommas(Lower(PyStr(s))))
  }

  lemma MillionContainsM(t: string)
    ensures Contains(t, "million") ==> 'm' in t
  {
    if Contains(t, "million") {
      ContainsInfixChar(t, "million", 0);
    }
  }

  /** The multiplier: "k" is tested first, then "m" or "million". */
  function Multiplier(t: string): (m: nat)
    ensures m == if 'k' in t then 1000 else if 'm' in t then 1000000 else 1
  {
    ContainsChar(t, 'k');
    ContainsChar(t, 'm');
    MillionContainsM(t);
    if Contains(t, "k") then 1000
    else if Contains(t, "m") || Contains(t, "million") then 1000000
    else 1
  }

  /** The price a cleaned-up text denotes: 0 without a numeric run, otherwise the largest run
      times the multiplier; a run that is not a float literal raises. */
  function PriceOfText(t: string): (r: Result<int>)
    ensures Runs(t) == [] ==> r == Success(0)
  {
    var runs := Runs(t);
    if runs == [] then Success(0)
    else
      match ParseRuns(runs)
      case Failure(e) => Failure(e)
      case Success(ds) => Success(MaxScaled(ds, Multiplier(t)))
  }

  /** `normalize_price` on the budget text: never negative, and 0 for a text without a numeric
      run, `None` (printed "None") among them. */
  function NormalizePrice(price: Option<string>): (r: Result<int>)
    ensures Runs(NumberText(price)) == [] ==> r == Success(0)
    ensures price.None? ==> r == Success(0)
    ensures r.Success? ==> r.value >= 0
  {
    NoneHasNoNumber();
    var t := NumberText(price);
    var r := PriceOfText(t);
    if r.Success? && Runs(t) != [] then
      PriceIsLargestRun(t);
      var k :| 0 <= k < |Runs(t)| && Scaled(ParseRun(Runs(t)[k]).value, Multiplier(t)) == r.value;
      ScaledNonNegative(ParseRun(Runs(t)[k]).value, Multiplier(t));
      r
    else r
  }

  lemma ScaledNonNegative(d: Decimal, m: nat)
    ensures Scaled(d, m) >= 0
  {
    MulNonNegative(d.mantissa, m);
    DivNonNegative(d.mantissa * m, Pow10(d.scale));
  }

  lemma MulNonNegative(a: nat, b: nat)
    ensures a * b >= 0
  {
  }

  lemma DivNonNegative(p: int, q: int)
    requires p >= 0 && q >= 1
    ensures p / q >= 0
  {
  }

  /** A whole number scaled by 1 is itself. */
  lemma ScaledWhole(n: nat)
    ensures Scaled(Decimal(n, 0), 1) == n
  {
    assert Pow10(0) == 1;
    assert n * 1 == n;
  }

  /** A text without digits or dots has no numeric run. */
  lemma {:induction false} NoRunCharsNoRuns(s: string)
    requires forall i :: 0 <= i < |s| ==> !IsRunChar(s[i])
    ensures Runs(s) == []
  {
    if s != [] {
      NoRunCharsNoRuns(s[1..]);
    }
  }

  /** `str(None)` is "None", which cleans up to letters only and so holds no number. */
  lemma NoneHasNoNumber()
    ensures Runs(NumberText(None)) == []
  {
    var word := "None";
    assert forall i :: 0 <= i < |word| ==> IsLetter(word[i]);
    LettersHaveNoNumber(word);
    assert NumberText(None) == NumberText(Some(word));
  }

  /** A word made of letters holds no number. */
  lemma LettersHaveNoNumber(word: string)
    requires forall i :: 0 <= i < |word| ==> IsLetter(word[i])
    ensures Runs(NumberText(Some(word))) == []
  {
    var l := Lower(word);
    forall i | 0 <= i < |l| ensures IsLower(l[i]) && !IsRunChar(l[i]) {
      assert IsLetter(word[i]);
    }
    assert ',' !in l;
    assert Strip(l) == l by {
      if l != [] {
        assert IsLower(l[0]) && IsLower(l[|l| - 1]);
      }
      StripUnpadded(l);
    }
    NoRunCharsNoRuns(l);
  }

  /** A price is the largest numeric run times the multiplier; it raises exactly when some
      run is not a float literal. */
  lemma PriceIsLargestRun(t: string)
    requires Runs(t) != []
    ensures PriceOfText(t).Success? <==> forall k :: 0 <= k < |Runs(t)| ==> ParseRun(Runs(t)[k]).Success?
    ensures PriceOfText(t).Success? ==>
      && (forall k :: 0 <= k < |Runs(t)| ==>
            Scaled(ParseRun(Runs(t)[k]).value, Multiplier(t)) <= PriceOfText(t).value)
      && (exists k :: 0 <= k < |Runs(t)| &&
            Scaled(ParseRun(Runs(t)[k]).value, Multiplier(t)) == PriceOfText(t).value)
  {
    var runs := Runs(t);
    if ParseRuns(runs).Success? {
      var ds := ParseRuns(runs).value;
      var m := Multiplier(t);
      var k :| 0 <= k < |ds| && Scaled(ds[k], m) == MaxScaled(ds, m);
      assert Scaled(ParseRun(runs[k]).value, m) == PriceOfText(t).value;
    }
  }

  /** `normalize_number` on text: the value of the FIRST numeric run only, 0 when there is none. */
  function NormalizeNumber(s: Option<string>): (r: Result<Decimal>)
    ensures Runs(NumberText(s)) == [] ==> r == Success(Decimal(0, 0))
    ensures Runs(NumberText(s)) != [] ==> r == ParseRun(Runs(NumberText(s))[0])
  {
    var runs := Runs(NumberText(s));
    if runs == [] then Success(Decimal(0, 0)) else ParseRun(runs[0])
  }

  /** `normalize_sqft`: `int(normalize_number(sqft))`, the first numeric run truncated; it raises
      exactly when that run is not a float literal, and is never negative. */
  function NormalizeSqft(sqft: Option<string>): (r: Result<int>)
    ensures r.Success? <==> NormalizeNumber(sqft).Success?
    ensures r.Success? ==> r.value >= 0
    ensures Runs(NumberText(sqft)) == [] ==> r == Success(0)
  {
    match NormalizeNumber(sqft)
    case Failure(e) => Failure(e)
    case Success(d) =>
      ScaledNonNegative(d, 1);
      ScaledWhole(0);
      Success(Scaled(d, 1))
  }

  /** A size written as digits, perhaps padded with whitespace, normalises to the number it spells. */
  lemma DigitSizeNormalises(sqft: string)
    requires IsDigitString(Strip(sqft))
    ensures NormalizeSqft(Some(sqft)) == Success(DigitsValue(Strip(sqft)))
  {
    NumberTextOfPaddedDigits(sqft);
    RunsOfDigitString(Strip(sqft));
    assert Runs(NumberText(Some(sqft)))[0] == Strip(sqft);
    ScaledWhole(DigitsValue(Strip(sqft)));
  }

  /** `normalize_bedrooms` on the integer field. `normalize_number` hands an int or a float back
      as `float(x)` without reading any text, so a count keeps its value and its sign; only `None`
      goes through the text path, as "None", which has no numeric run and gives 0. */
  function NormalizeBedrooms(bedrooms: Option<int>): (r: int)
    ensures bedrooms.Some? ==> r == bedrooms.value
    ensures bedrooms.None? ==> NormalizeNumber(None) == Success(Decimal(0, 0)) && r == 0
  {
    NoneHasNoNumber();
    bedrooms.GetOr(0)
  }

  /** `normalize_bathrooms` on the float field, by the same two paths as `NormalizeBedrooms`. */
  function NormalizeBathrooms(bathrooms: Option<PyFloat>): (r: PyFloat)
    ensures bathrooms.Some? ==> r == bathrooms.value
    ensures bathrooms.None? ==> NormalizeNumber(None) == Success(Decimal(0, 0)) && r.value == 0.0
  {
    NoneHasNoNumber();
    bathrooms.GetOr(PyFloat(0.0, "0.0"))
  }

  /** A negative or exponent-written count is a number, not text, so it comes through
      normalisation unchanged: bedrooms -2 stays -2 and bathrooms 1e-05 stays 1e-05. */
  lemma NumericCountsKeepTheirValue()
    ensures NormalizeBedrooms(Some(-2)) == -2
    ensures NormalizeBathrooms(Some(PyFloat(-1.5, "-1.5"))).value == -1.5
    ensures NormalizeBathrooms(Some(PyFloat(0.00001, "1e-05"))).value == 0.00001
  {
  }

  /** A text made of whitespace around digits. */
  lemma {:induction false} PaddedDigits(s: string)
    requires IsDigitString(Strip(s))
    ensures forall i :: 0 <= i < |s| ==> IsDigit(s[i]) || IsSpace(s[i])
  {
    var l := StripLeft(s);
    var r := StripRight(l);
    forall i | 0 <= i < |s| ensures IsDigit(s[i]) || IsSpace(s[i]) {
      if i >= |s| - |l| {
        var j := i - (|s| - |l|);
        assert l[j] == s[i];
        if j < |r| {
          assert r[j] == l[j];
        }
      }
    }
  }

  lemma {:induction false} LowerKeepsNonLetters(s: string)
    requires forall i :: 0 <= i < |s| ==> !IsUpper(s[i])
    ensures Lower(s) == s
  {
  }

  lemma {:induction false} RunLengthOfDigits(s: string)
    requires forall i :: 0 <= i < |s| ==> IsDigit(s[i])
    ensures RunLength(s) == |s|
  {
    if s != [] {
      RunLengthOfDigits(s[1..]);
    }
  }

  lemma {:induction false} RunsOfDigitString(s: string)
    requires IsDigitString(s)
    ensures Runs(s) == [s]
  {
    var n := RunLength(s);
    RunLengthOfDigits(s);
    assert s[..n] == s && s[n..] == [];
    assert n == |s|;
    assert s[n..] == [];
  }

  /** Whitespace-padded digits come out of the text clean-up as the bare digits. */
  lemma NumberTextOfPaddedDigits(budget: string)
    requires IsDigitString(Strip(budget))
    ensures NumberText(Some(budget)) == Strip(budget)
  {
    PaddedDigits(budget);
    LowerKeepsNonLetters(budget);
    assert ',' !in budget by {
      forall i | 0 <= i < |budget| ensures budget[i] != ',' {
        assert IsDigit(budget[i]) || IsSpace(budget[i]);
      }
    }
  }

  /** A digit string carries no multiplier letter. */
  lemma MultiplierOfDigitString(t: string)
    requires IsDigitString(t)
    ensures Multiplier(t) == 1
  {
    forall i | 0 <= i < |t| ensures t[i] != 'k' && t[i] != 'm' {
      assert IsDigit(t[i]);
    }
  }

  /** A digit string is priced at the number it spells. */
  lemma PriceOfDigitString(t: string)
    requires IsDigitString(t)
    ensures PriceOfText(t) == Success(DigitsValue(t))
  {
    RunsOfDigitString(t);
    MultiplierOfDigitString(t);
    var d := Decimal(DigitsValue(t), 0);
    assert ParseRun(t) == Success(d);
    var parsed := ParseRuns([t]);
    assert [t][0] == t;
    assert parsed.Success? && |parsed.value| == 1 && parsed.value[0] == d;
    assert parsed.value == [d];
    assert MaxScaled([d], 1) == Scaled(d, 1) == DigitsValue(t);
  }

  /** A budget that passed validation normalises to the number its digits spell. */
  lemma ValidBudgetPrice(budget: string)
    requires IsDigitString(Strip(budget))
    ensures NormalizePrice(Some(budget)) == Success(DigitsValue(Strip(budget)))
  {
    NumberTextOfPaddedDigits(budget);
    PriceOfDigitString(Strip(budget));
  }

  // ---- normalize_user_profile ----

  /** `str.title()` (ASCII): a letter is upper-cased after a non-letter, lower-cased after a letter. */
  function TitleFrom(s: string, afterLetter: bool): (r: string)
    ensures |r| == |s|
  {
    if s == [] then []
    else [if afterLetter then ToLower(s[0]) else ToUpper(s[0])] + TitleFrom(s[1..], IsLetter(s[0]))
  }

  /** `s.title()`: each letter is upper-cased when it starts a word (no letter before it) and
      lower-cased otherwise; every other character is kept. */
  function Title(s: string): (r: string)
    ensures |r| == |s|
    ensures forall i :: 0 <= i < |s| ==>
      r[i] == if i > 0 && IsLetter(s[i - 1]) then ToLower(s[i]) else ToUpper(s[i])
  {
    TitleFromChars(s, false);
    TitleFrom(s, false)
  }

  lemma {:induction false} TitleFromChars(s: string, afterLetter: bool)
    ensures forall i :: 0 <= i < |s| ==>
      TitleFrom(s, afterLetter)[i]
        == if (if i == 0 then afterLetter else IsLetter(s[i - 1])) then ToLower(s[i]) else ToUpper(s[i])
  {
    if s != [] {
      TitleFromChars(s[1..], IsLetter(s[0]));
      var r := TitleFrom(s, afterLetter);
      forall i | 0 < i < |s|
        ensures r[i] == if IsLetter(s[i - 1]) then ToLower(s[i]) else ToUpper(s[i])
      {
        assert r[i] == TitleFrom(s[1..], IsLetter(s[0]))[i - 1];
        assert s[1..][i - 1] == s[i];
        if i > 1 {
          assert s[1..][i - 2] == s[i - 1];
        }
      }
    }
  }

  /** `normalize_user_profile`: `.strip()` on a missing intent, property type or location raises
      AttributeError, and a malformed number raises ValueError, in argument order. */
  function NormalizeUserProfile(p: Profile): (r: Result<Profile>)
    ensures r.Success? <==>
      && p.buyOrRent.Some? && p.propertyType.Some? && p.location.Some?
      && NormalizeSqft(p.sqft).Success? && NormalizePrice(p.budget).Success?
    ensures r.Success? ==>
      && r.value.name == p.name
      && r.value.phone == Some(FormatPhone(p.phone))
      && r.value.buyOrRent == Some(Lower(Strip(p.buyOrRent.value)))
      && r.value.propertyType == Some(Strip(p.propertyType.value))
      && r.value.location == Some(Title(Strip(p.location.value)))
      && r.value.mustHaves == p.mustHaves && r.value.goodToHaves == p.goodToHaves
      && r.value.sqft == Some(IntToString(NormalizeSqft(p.sqft).value))
      && r.value.budget == Some(IntToString(NormalizePrice(p.budget).value))
      && r.value.bedrooms == Some(NormalizeBedrooms(p.bedrooms))
      && r.value.bathrooms == Some(NormalizeBathrooms(p.bathrooms))
  {
    if p.buyOrRent.None? then Failure("AttributeError: buyOrRent is None")
    else if p.propertyType.None? then Failure("AttributeError: property_type is None")
    else
      match NormalizeSqft(p.sqft)
      case Failure(e) => Failure(e)
      case Success(sqft) =>
        match NormalizePrice(p.budget)
        case Failure(e) => Failure(e)
        case Success(budget) =>
          if p.location.None? then Failure("AttributeError: location is None")
          else
            Success(Profile(
              name := p.name,
              phone := Some(FormatPhone(p.phone)),
              buyOrRent := Some(Lower(Strip(p.buyOrRent.value))),
              location := Some(Title(Strip(p.location.value))),
              propertyType := Some(Strip(p.propertyType.value)),
              sqft := Some(IntToString(sqft)),
              budget := Some(IntToString(budget)),
              bedrooms := Some(NormalizeBedrooms(p.bedrooms)),
              bathrooms := Some(NormalizeBathrooms(p.bathrooms)),
              mustHaves := p.mustHaves,
              goodToHaves := p.goodToHaves))
  }
}
