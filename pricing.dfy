/** The quote pricing engine of InsuranceApp.tsx: the request and offer
    records, the fixed five-provider catalog, the three risk multipliers and
    the adjust-then-sort computation run on every submission.

    Multipliers are exact integers in tenths (1.2 is 12), so the combined
    factor is in thousandths, and a price scaled by it is rounded with
    `Math.round(price * factor / 1000)`. Ratings are tenths too (4.8 is 48). */
module Pricing {
  import opened Js

  /** One completed answer set of the form; every field is a string. */
  datatype QuoteData = QuoteData(
    vehicleType: string,
    make: string,
    model: string,
    year: string,
    driverAge: string,
    location: string,
    coverageType: string,
    previousClaims: string)

  /** `keyof QuoteData`. */
  datatype Field =
    | VehicleType | Make | Model | Year | DriverAge | Location | CoverageType | PreviousClaims

  /** `data[field]`. */
  function FieldValue(data: QuoteData, field: Field): string
  {
    match field
    case VehicleType => data.vehicleType
    case Make => data.make
    case Model => data.model
    case Year => data.year
    case DriverAge => data.driverAge
    case Location => data.location
    case CoverageType => data.coverageType
    case PreviousClaims => data.previousClaims
  }

  /** One insurer's offer. */
  datatype Quote = Quote(
    provider: string,
    monthlyPrice: int,
    annualPrice: int,
    coverage: string,
    features: seq<string>,
    rating: int,
    logo: Option<string>)

  const Madison := Quote("Madison Insurance", 450, 5400, "Comprehensive",
    ["24/7 Roadside Assistance", "Windscreen Cover", "Legal Protection", "Courtesy Vehicle"], 48, None)
  const Picz := Quote("Professional Insurance Corporation Zambia (PICZ)", 380, 4560, "Third Party Fire & Theft",
    ["Online Claims Portal", "Mobile App", "No Claims Bonus Protection", "Emergency Towing"], 46, None)
  const Zsic := Quote("Zambia State Insurance Corporation (ZSIC)", 520, 6240, "Comprehensive Plus",
    ["Courtesy Car", "Personal Accident Cover", "Key Replacement", "Flood Protection"], 47, None)
  const Hollard := Quote("Hollard Insurance Zambia", 420, 5040, "Comprehensive",
    ["Accident Forgiveness", "Glass Cover", "Theft Protection", "Emergency Services"], 45, None)
  const Prudential := Quote("Prudential General Insurance Zambia", 395, 4740, "Third Party Fire & Theft",
    ["Quick Claims Processing", "Nationwide Coverage", "Rainy Season Protection"], 44, None)

  /** The base catalog, in the order it is written down. */
  const BaseCatalog: seq<Quote> := [Madison, Picz, Zsic, Hollard, Prudential]

  const HighRiskCities: seq<string> := ["Lusaka", "Kitwe", "Ndola"]
  const MediumRiskCities: seq<string> := ["Kabwe", "Chingola", "Livingstone"]

  /** `getLocationMultiplier`, in tenths. */
  function LocationMultiplier(location: string): (m: nat)
    ensures m == 12 <==> location in HighRiskCities
    ensures m == 11 <==> location !in HighRiskCities && location in MediumRiskCities
    ensures m == 10 <==> location !in HighRiskCities && location !in MediumRiskCities
  {
    if location in HighRiskCities then 12
    else if location in MediumRiskCities then 11
    else 10
  }

  /** `getAgeMultiplier`, in tenths; unknown brackets count as 1.0. */
  function AgeMultiplier(age: string): (m: nat)
    ensures 10 <= m <= 14
  {
    match age
    case "18-25" => 14
    case "26-35" => 11
    case "36-45" => 10
    case "46-55" => 10
    case "56-65" => 11
    case "65+" => 12
    case _ => 10
  }

  /** `getClaimsMultiplier`, in tenths; unknown brackets count as 1.0. */
  function ClaimsMultiplier(claims: string): (m: nat)
    ensures 9 <= m <= 15
  {
    match claims
    case "0" => 9
    case "1" => 11
    case "2" => 13
    case "3+" => 15
    case _ => 10
  }

  /** The age brackets the form offers, and the surcharge each one carries. */
  const AgeBrackets: seq<string> := ["18-25", "26-35", "36-45", "46-55", "56-65", "65+"]
  const AgeTable: seq<nat> := [14, 11, 10, 10, 11, 12]

  /** The claims brackets the form offers, and the factor each one carries. */
  const ClaimsBrackets: seq<string> := ["0", "1", "2", "3+"]
  const ClaimsTable: seq<nat> := [9, 11, 13, 15]

  /** The age lookup agrees with the bracket table and is neutral elsewhere. */
  lemma AgeMultiplierTable(age: string)
    ensures forall i :: 0 <= i < |AgeBrackets| ==> AgeMultiplier(AgeBrackets[i]) == AgeTable[i]
    ensures age !in AgeBrackets ==> AgeMultiplier(age) == 10
  {
  }

  /** The claims lookup agrees with the bracket table and is neutral elsewhere. */
  lemma ClaimsMultiplierTable(claims: string)
    ensures forall i :: 0 <= i < |ClaimsBrackets| ==> ClaimsMultiplier(ClaimsBrackets[i]) == ClaimsTable[i]
    ensures claims !in ClaimsBrackets ==> ClaimsMultiplier(claims) == 10
  {
  }

  /** `locationMultiplier * ageMultiplier * claimsMultiplier`, in thousandths. */
  function Factor(data: QuoteData): (f: nat)
    ensures 900 <= f <= 2520
  {
    var loc, age, claims := LocationMultiplier(data.location), AgeMultiplier(data.driverAge),
                            ClaimsMultiplier(data.previousClaims);
    assert 100 <= loc * age <= 168;
    loc * age * claims
  }

  /** One element of the `map`: both prices scaled and rounded separately,
      every other field copied (`...quote`). */
  function Adjust(q: Quote, factor: nat): (r: Quote)
    ensures r.provider == q.provider && r.coverage == q.coverage && r.features == q.features
    ensures r.rating == q.rating && r.logo == q.logo
    ensures 2000 * r.monthlyPrice <= 2 * q.monthlyPrice * factor + 1000 < 2000 * r.monthlyPrice + 2000
    ensures 2000 * r.annualPrice <= 2 * q.annualPrice * factor + 1000 < 2000 * r.annualPrice + 2000
    ensures factor == 1000 ==> r == q
  {
    q.(monthlyPrice := Round(q.monthlyPrice * factor, 1000),
       annualPrice := Round(q.annualPrice * factor, 1000))
  }

  /** `zambianQuotes.map(...)`. */
  function AdjustAll(catalog: seq<Quote>, factor: nat): (r: seq<Quote>)
    ensures |r| == |catalog|
    ensures forall i :: 0 <= i < |catalog| ==> r[i] == Adjust(catalog[i], factor)
  {
    seq(|catalog|, i requires 0 <= i < |catalog| => Adjust(catalog[i], factor))
  }

  predicate SortedByAnnualPrice(s: seq<Quote>)
  {
    forall i, j :: 0 <= i < j < |s| ==> s[i].annualPrice <= s[j].annualPrice
  }

  /** Places q in front of the first entry that is not cheaper, so that
      entries of equal annual price keep their relative order. */
  function Insert(q: Quote, s: seq<Quote>): (r: seq<Quote>)
    ensures |r| == |s| + 1
  {
    if |s| == 0 then [q]
    else if q.annualPrice <= s[0].annualPrice then [q] + s
    else [s[0]] + Insert(q, s[1..])
  }

  /** `.sort((a, b) => a.annualPrice - b.annualPrice)`, a stable sort. */
  function SortByAnnualPrice(s: seq<Quote>): (r: seq<Quote>)
    ensures |r| == |s|
  {
    if |s| == 0 then []
    else Insert(s[0], SortByAnnualPrice(s[1..]))
  }

  /** Inserting adds exactly the one entry. */
  lemma {:induction false} InsertPermutation(q: Quote, s: seq<Quote>)
    ensures |Insert(q, s)| == |s| + 1
    ensures multiset(Insert(q, s)) == multiset(s) + multiset{q}
  {
    if |s| > 0 && q.annualPrice > s[0].annualPrice {
      InsertPermutation(q, s[1..]);
      assert s == [s[0]] + s[1..];
    }
  }

  /** The sort neither drops nor duplicates an entry. */
  lemma {:induction false} SortByAnnualPricePermutation(s: seq<Quote>)
    ensures |SortByAnnualPrice(s)| == |s|
    ensures multiset(SortByAnnualPrice(s)) == multiset(s)
  {
    if |s| > 0 {
      SortByAnnualPricePermutation(s[1..]);
      InsertPermutation(s[0], SortByAnnualPrice(s[1..]));
      assert s == [s[0]] + s[1..];
    }
  }

  lemma {:induction false} InsertSorted(q: Quote, s: seq<Quote>)
    requires SortedByAnnualPrice(s)
    ensures SortedByAnnualPrice(Insert(q, s))
  {
    if |s| > 0 && q.annualPrice > s[0].annualPrice {
      var tail := Insert(q, s[1..]);
      InsertSorted(q, s[1..]);
      InsertPermutation(q, s[1..]);
      forall k | 0 <= k < |tail|
        ensures s[0].annualPrice <= tail[k].annualPrice
      {
        assert tail[k] in multiset(tail);
        assert tail[k] == q || tail[k] in multiset(s[1..]);
        if tail[k] != q {
          var j :| 0 <= j < |s[1..]| && s[1..][j] == tail[k];
          assert s[j + 1] == tail[k];
        }
      }
      assert Insert(q, s) == [s[0]] + tail;
    }
  }

  /** The sort produces a list ordered by annual price. */
  lemma {:induction false} SortByAnnualPriceSorted(s: seq<Quote>)
    ensures SortedByAnnualPrice(SortByAnnualPrice(s))
  {
    if |s| > 0 {
      SortByAnnualPriceSorted(s[1..]);
      InsertSorted(s[0], SortByAnnualPrice(s[1..]));
    }
  }

  /** `handleQuoteSubmit`'s computation of the offers for one request:
      exactly five offers, ordered by annual price, which are the five
      adjusted catalog entries and nothing else. */
  function PriceQuotes(data: QuoteData): (r: seq<Quote>)
    ensures |r| == |BaseCatalog| == 5
    ensures SortedByAnnualPrice(r)
    ensures multiset(r) == multiset(AdjustAll(BaseCatalog, Factor(data)))
  {
    var adjusted := AdjustAll(BaseCatalog, Factor(data));
    SortByAnnualPriceSorted(adjusted);
    SortByAnnualPricePermutation(adjusted);
    SortByAnnualPrice(adjusted)
  }

  function Providers(s: seq<Quote>): (r: seq<string>)
    ensures |r| == |s| && forall i :: 0 <= i < |s| ==> r[i] == s[i].provider
  {
    seq(|s|, i requires 0 <= i < |s| => s[i].provider)
  }

  /** Where each position of the sorted list comes from in the catalog. */
  const SortedOrder: seq<nat> := [1, 4, 3, 0, 2]

  lemma InsertBefore(q: Quote, s: seq<Quote>)
    requires |s| > 0 && q.annualPrice <= s[0].annualPrice
    ensures Insert(q, s) == [q] + s
  {
  }

  lemma InsertAfter(q: Quote, x: Quote, s: seq<Quote>)
    requires x.annualPrice < q.annualPrice
    ensures Insert(q, [x] + s) == [x] + Insert(q, s)
  {
  }

  lemma SortCons(x: Quote, s: seq<Quote>)
    ensures SortByAnnualPrice([x] + s) == Insert(x, SortByAnnualPrice(s))
  {
  }

  lemma SortOne(r: Quote)
    ensures SortByAnnualPrice([r]) == [r]
  {
  }

  lemma SortTwo(h: Quote, r: Quote)
    requires r.annualPrice < h.annualPrice
    ensures SortByAnnualPrice([h, r]) == [r, h]
  {
    SortOne(r);
    SortCons(h, [r]);
    assert [h, r] == [h] + [r];
    InsertAfter(h, r, []);
    assert [r] == [r] + [];
  }

  lemma SortThree(z: Quote, h: Quote, r: Quote)
    requires r.annualPrice < h.annualPrice < z.annualPrice
    ensures SortByAnnualPrice([z, h, r]) == [r, h, z]
  {
    SortTwo(h, r);
    SortCons(z, [h, r]);
    assert [z, h, r] == [z] + [h, r];
    InsertAfter(z, r, [h]);
    InsertAfter(z, h, []);
    assert [r, h] == [r] + [h];
    assert [h] == [h] + [];
  }

  lemma SortFour(p: Quote, z: Quote, h: Quote, r: Quote)
    requires p.annualPrice < r.annualPrice < h.annualPrice < z.annualPrice
    ensures SortByAnnualPrice([p, z, h, r]) == [p, r, h, z]
  {
    SortThree(z, h, r);
    SortCons(p, [z, h, r]);
    assert [p, z, h, r] == [p] + [z, h, r];
    InsertBefore(p, [r, h, z]);
  }

  /** Sorting five entries whose annual prices are known to be ordered as
      PICZ < Prudential < Hollard < Madison < ZSIC. */
  lemma SortCatalogShape(m: Quote, p: Quote, z: Quote, h: Quote, r: Quote)
    requires p.annualPrice < r.annualPrice < h.annualPrice < m.annualPrice < z.annualPrice
    ensures SortByAnnualPrice([m, p, z, h, r]) == [p, r, h, m, z]
  {
    SortFour(p, z, h, r);
    SortCons(m, [p, z, h, r]);
    assert [m, p, z, h, r] == [m] + [p, z, h, r];
    InsertAfter(m, p, [r, h, z]);
    assert [p, r, h, z] == [p] + [r, h, z];
    InsertAfter(m, r, [h, z]);
    assert [r, h, z] == [r] + [h, z];
    InsertAfter(m, h, [z]);
    assert [h, z] == [h] + [z];
    InsertBefore(m, [z]);
  }

  /** The base annual prices, 4560 < 4740 < 5040 < 5400 < 6240, are at least
      180 apart, and a factor of at least 0.9 keeps them more than one unit
      apart after scaling, so rounding can neither reorder nor tie them. */
  lemma AdjustedAnnualOrder(f: nat)
    requires f >= 900
    ensures Adjust(Picz, f).annualPrice < Adjust(Prudential, f).annualPrice
    ensures Adjust(Prudential, f).annualPrice < Adjust(Hollard, f).annualPrice
    ensures Adjust(Hollard, f).annualPrice < Adjust(Madison, f).annualPrice
    ensures Adjust(Madison, f).annualPrice < Adjust(Zsic, f).annualPrice
  {
  }

  /** Every request lists the offers in the same provider order. */
  lemma PriceQuotesFixedOrder(data: QuoteData)
    ensures var f := Factor(data);
      PriceQuotes(data) == [Adjust(Picz, f), Adjust(Prudential, f), Adjust(Hollard, f), Adjust(Madison, f), Adjust(Zsic, f)]
  {
    var f := Factor(data);
    var m, p, z, h, r := Adjust(Madison, f), Adjust(Picz, f), Adjust(Zsic, f), Adjust(Hollard, f), Adjust(Prudential, f);
    AdjustedAnnualOrder(f);
    assert AdjustAll(BaseCatalog, f) == [m, p, z, h, r];
    SortCatalogShape(m, p, z, h, r);
  }

  /** The provider names in the order every results page shows them. */
  lemma PriceQuotesProviderOrder(data: QuoteData)
    ensures Providers(PriceQuotes(data)) ==
      ["Professional Insurance Corporation Zambia (PICZ)", "Prudential General Insurance Zambia",
       "Hollard Insurance Zambia", "Madison Insurance", "Zambia State Insurance Corporation (ZSIC)"]
  {
    PriceQuotesFixedOrder(data);
  }

  /** Each listed offer is its catalog entry with both prices scaled by the
      request's factor and rounded; provider, coverage, features, rating and
      logo are those of the catalog entry. */
  lemma PriceQuotesOffer(data: QuoteData, i: nat)
    requires i < 5
    ensures var offer, base, f := PriceQuotes(data)[i], BaseCatalog[SortedOrder[i]], Factor(data);
      && offer.monthlyPrice == Round(base.monthlyPrice * f, 1000)
      && offer.annualPrice == Round(base.annualPrice * f, 1000)
      && offer.provider == base.provider && offer.coverage == base.coverage
      && offer.features == base.features && offer.rating == base.rating && offer.logo == base.logo
  {
    PriceQuotesFixedOrder(data);
    var f := Factor(data);
    var base := BaseCatalog[SortedOrder[i]];
    if i == 0 {
      assert base == Picz && PriceQuotes(data)[i] == Adjust(Picz, f);
    } else if i == 1 {
      assert base == Prudential && PriceQuotes(data)[i] == Adjust(Prudential, f);
    } else if i == 2 {
      assert base == Hollard && PriceQuotes(data)[i] == Adjust(Hollard, f);
    } else if i == 3 {
      assert base == Madison && PriceQuotes(data)[i] == Adjust(Madison, f);
    } else {
      assert base == Zsic && PriceQuotes(data)[i] == Adjust(Zsic, f);
    }
  }

  /** Rounding 12x and 12 times the rounding of x differ by at most six. */
  lemma RoundTwelvefold(n: int)
    ensures -6 <= Round(12 * n, 1000) - 12 * Round(n, 1000) <= 6
  {
  }

  /** Every catalog entry costs twelve times its monthly price per year. */
  lemma BaseCatalogTwelveMonths()
    ensures forall i :: 0 <= i < |BaseCatalog| ==> BaseCatalog[i].annualPrice == 12 * BaseCatalog[i].monthlyPrice
  {
  }

  /** Both prices are scaled by the same factor and rounded separately, so an
      offer's annual price stays within six of twelve monthly payments. */
  lemma PriceQuotesAnnualNearTwelveMonths(data: QuoteData, i: nat)
    requires i < 5
    ensures var offer := PriceQuotes(data)[i];
      -6 <= offer.annualPrice - 12 * offer.monthlyPrice <= 6
  {
    PriceQuotesOffer(data, i);
    var base, f := BaseCatalog[SortedOrder[i]], Factor(data);
    BaseCatalogTwelveMonths();
    assert base.annualPrice * f == 12 * (base.monthlyPrice * f);
    RoundTwelvefold(base.monthlyPrice * f);
  }

  /** Lusaka, 18-25 and three or more claims give the factor 1.2 x 1.4 x 1.5
      = 2.52, so Madison's 450 a month becomes 1134. */
  lemma LusakaYoungDriverManyClaims(data: QuoteData)
    requires data.location == "Lusaka" && data.driverAge == "18-25" && data.previousClaims == "3+"
    ensures Factor(data) == 2520
    ensures PriceQuotes(data)[3].provider == "Madison Insurance"
    ensures PriceQuotes(data)[3].monthlyPrice == 1134
    ensures PriceQuotes(data)[3].annualPrice == 13608
  {
    assert "Lusaka" in HighRiskCities;
    PriceQuotesOffer(data, 3);
  }

  /** Solwezi carries no surcharge: with 36-45 and no claims the factor is
      0.9, so PICZ's 380 a month becomes 342 and it is listed first. */
  lemma SolweziMiddleAgedNoClaims(data: QuoteData)
    requires data.location == "Solwezi" && data.driverAge == "36-45" && data.previousClaims == "0"
    ensures Factor(data) == 900
    ensures PriceQuotes(data)[0].provider == "Professional Insurance Corporation Zambia (PICZ)"
    ensures PriceQuotes(data)[0].monthlyPrice == 342
  {
    PriceQuotesOffer(data, 0);
  }

  /** The six-unit bound is reached: Solwezi, 36-45 and one claim give the
      factor 1.1, so Prudential's 395 a month is 434.5 before rounding and
      435 after it, while its 4740 a year becomes exactly 5214, six short of
      twelve monthly payments. */
  lemma SolweziOneClaimAnnualSixShort(data: QuoteData)
    requires data.location == "Solwezi" && data.driverAge == "36-45" && data.previousClaims == "1"
    ensures Factor(data) == 1100
    ensures PriceQuotes(data)[1].provider == "Prudential General Insurance Zambia"
    ensures PriceQuotes(data)[1].monthlyPrice == 435 && PriceQuotes(data)[1].annualPrice == 5214
    ensures PriceQuotes(data)[1].annualPrice - 12 * PriceQuotes(data)[1].monthlyPrice == -6
  {
    PriceQuotesOffer(data, 1);
  }
}
