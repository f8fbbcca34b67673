/** The values the results screen of QuoteResults.tsx derives from its
    props: the badge per position, the savings banner, the coverage label,
    the quote count and the list of cards. */
module Results {
  import opened Js
  import opened Pricing

  datatype Badge = BestValue | PopularChoice

  /** `getBestValueBadge(index)`. */
  function BestValueBadge(index: int): (b: Option<Badge>)
    ensures b == Some(BestValue) <==> index == 0
    ensures b == Some(PopularChoice) <==> index == 1
    ensures b.None? <==> index != 0 && index != 1
  {
    if index == 0 then Some(BestValue)
    else if index == 1 then Some(PopularChoice)
    else None
  }

  /** `quotes[quotes.length - 1]?.annualPrice - quotes[0]?.annualPrice`;
      on an empty list both operands are undefined and the result is NaN,
      written `None` here. */
  function Savings(quotes: seq<Quote>): (s: Option<int>)
    ensures s.Some? <==> |quotes| > 0
  {
    if |quotes| == 0 then None
    else Some(quotes[|quotes| - 1].annualPrice - quotes[0].annualPrice)
  }

  /** The coverage line of the summary: `coverageType.replace('-', ' ')`. */
  function CoverageLabel(coverageType: string): (shown: string)
    ensures |shown| == |coverageType|
    ensures shown == coverageType <==> '-' !in coverageType
  {
    var shown := Replace(coverageType, '-', ' ');
    if '-' in coverageType then
      var k := IndexOf(coverageType, '-').value;
      assert shown[k] == ' ' != coverageType[k];
      shown
    else shown
  }

  /** The count in "Found N competitive quotes". */
  function QuoteCount(quotes: seq<Quote>): (n: nat)
    ensures n == |Cards(quotes)|
  {
    |quotes|
  }

  /** One rendered card: the quote it shows and the badge beside its name. */
  datatype Card = Card(quote: Quote, badge: Option<Badge>)

  /** `quotes.map((quote, index) => ...)`: one card per quote, in list order. */
  function Cards(quotes: seq<Quote>): (cards: seq<Card>)
    ensures |cards| == |quotes|
    ensures forall i :: 0 <= i < |quotes| ==> cards[i].quote == quotes[i]
  {
    seq(|quotes|, i requires 0 <= i < |quotes| => Card(quotes[i], BestValueBadge(i)))
  }

  /** At most one card is marked Best Value and at most one Popular Choice;
      on a list sorted by annual price the Best Value card is a cheapest one
      and the Popular Choice card the next cheapest. */
  lemma BadgesOnSortedList(quotes: seq<Quote>, i: nat, j: nat)
    requires SortedByAnnualPrice(quotes) && i < |quotes| && j < |quotes|
    ensures Cards(quotes)[i].badge == Some(BestValue) <==> i == 0
    ensures Cards(quotes)[i].badge == Some(PopularChoice) <==> i == 1
    ensures Cards(quotes)[i].badge == Some(BestValue) ==> quotes[i].annualPrice <= quotes[j].annualPrice
    ensures Cards(quotes)[i].badge == Some(PopularChoice) && j != 0 ==>
      quotes[i].annualPrice <= quotes[j].annualPrice
  {
  }

  /** On a list sorted by annual price the banner shows the spread between
      the dearest and the cheapest offer: never negative, and no offer is
      further than that from the cheapest. */
  lemma SavingsOnSortedList(quotes: seq<Quote>)
    requires SortedByAnnualPrice(quotes) && |quotes| > 0
    ensures Savings(quotes).Some? && Savings(quotes).value >= 0
    ensures forall i :: 0 <= i < |quotes| ==>
      quotes[0].annualPrice <= quotes[i].annualPrice <= quotes[0].annualPrice + Savings(quotes).value
  {
  }

  /** What the results screen shows for any request: five cards, PICZ
      marked Best Value and Prudential Popular Choice, and savings equal to
      ZSIC's adjusted annual price less PICZ's, which is positive. */
  lemma ResultsForRequest(data: QuoteData)
    ensures QuoteCount(PriceQuotes(data)) == 5
    ensures Cards(PriceQuotes(data))[0] == Card(Adjust(Picz, Factor(data)), Some(BestValue))
    ensures Cards(PriceQuotes(data))[1] == Card(Adjust(Prudential, Factor(data)), Some(PopularChoice))
    ensures Savings(PriceQuotes(data)) ==
      Some(Adjust(Zsic, Factor(data)).annualPrice - Adjust(Picz, Factor(data)).annualPrice)
    ensures Savings(PriceQuotes(data)).value > 0
  {
    PriceQuotesFixedOrder(data);
    AdjustedAnnualOrder(Factor(data));
  }

  /** Only the first hyphen becomes a space: "third-party-fire-theft",
      which is "third" + "-" + "party-fire-theft", is shown as
      "third party-fire-theft". */
  lemma CoverageLabelFirstHyphen(prefix: string, rest: string)
    requires '-' !in prefix
    ensures CoverageLabel(prefix + "-" + rest) == prefix + " " + rest
  {
    ReplaceFirstOccurrence(prefix, '-', ' ', rest);
  }

  /** The label always has the coverage type's length and differs from it
      only where the first hyphen stood, which becomes a space; a coverage
      type without a hyphen is shown as it is. */
  lemma CoverageLabelChangesFirstHyphenOnly(coverageType: string, i: nat)
    requires i < |coverageType|
    ensures |CoverageLabel(coverageType)| == |coverageType|
    ensures CoverageLabel(coverageType)[i] != coverageType[i] ==>
      coverageType[i] == '-' && CoverageLabel(coverageType)[i] == ' ' &&
      forall j :: 0 <= j < i ==> coverageType[j] != '-'
    ensures '-' !in coverageType ==> CoverageLabel(coverageType) == coverageType
  {
  }
}
