# InsureQuick motor-insurance quote wizard, modelled in Dafny

This project models the logic of a client-side quote wizard for Zambian motor insurance. It has three parts:

- **Pricing engine** (module `Pricing`, from `InsuranceApp.tsx`). Three string-keyed lookup tables give risk multipliers for location, driver age and prior claims. Their product scales the monthly and annual prices of a fixed five-provider catalog. Each price is rounded with `Math.round`, and the offers are sorted by annual price.
- **Wizard** (module `Wizard`, from `InsuranceApp.tsx`). A class holds the three state cells `currentStep`, `quoteData` and `quotes`, plus the currently mounted form. Its methods are the start, submit, edit-details and new-quote handlers.
- **Form collector** (module `Form`, from `QuoteForm.tsx`). A class holds a step counter in [1, 3] and a partial answer record. It has bounded next/previous navigation, single-field updates and the eight-field completeness check that gates submission. The enabled/disabled state of the buttons and the progress percentage are derived from it.
- **Results helpers** (module `Results`, from `QuoteResults.tsx`). These are the badge per position, the savings banner, the coverage label, the quote count and the list of cards.

Module `Js` states the JavaScript built-ins these components rely on. `Math.round` is rounding to nearest with halves toward +infinity (section 21.3.2.28 of ECMA-262). `Array.prototype.every` is also modelled. `String.prototype.replace` is modelled for a one-character search string (section 22.1.3.19 of ECMA-262); `Js.IndexOf` specifies the search for the first occurrence that `replace` performs.

Numbers are exact integers:
- Multipliers are in tenths (1.2 is 12), so the combined factor is in thousandths.
- A scaled price is `Round(price * factor, 1000)`, i.e. floor(price × factor / 1000 + 1/2).
- Ratings are in tenths (4.8 is 48).

The results page's `quoteData &&` guard and the form's remount are modelled explicitly. The wizard keeps a `form: QuoteForm?` that exists exactly while the form step is shown. Entering the form step from another step mounts a fresh form, which starts on step 1 with an empty draft.

Facts about the code that the model keeps and that are easy to miss:
- `isFormValid` requires all eight fields to be set and non-empty, `model` and `year` included.
- `handleNext` checks no field. Only the Next button's `disabled` expression does: `vehicleType` on step 1 and `driverAge` on step 2.
- `handleStartQuote` only changes the step. It is offered only on the landing step, where no answers or offers are stored (`Consistent`), so there is nothing it could clear.
- "Edit Details" (`handleBackToForm`) keeps `quoteData` and `quotes` in the wizard. The form is remounted, so its draft starts empty and every answer must be given again before it can be submitted (`EditDetailsCycle`).
- The wizard's `handleQuoteSubmit` accepts any record. The completeness guard lives in the form's `handleSubmit`.
- `Math.round` rounds halves toward +infinity; all prices here are positive, so this is also rounding half away from zero.
- An offer's annual price can differ from twelve monthly payments by up to six, and six is reached (`SolweziOneClaimAnnualSixShort`).

## Model

| member | source | states |
|---|---|---|
| `Js.Round` | src/components/InsuranceApp.tsx:91-92 | `Math.round(p/q)` is the integer r with r − 1/2 ≤ p/q < r + 1/2 |
| `Js.Every` | src/components/QuoteForm.tsx:62 | `xs.every(p)` holds iff p holds of every element |
| `Js.IndexOf` | src/components/QuoteResults.tsx:74 | the result is absent iff the character does not occur; otherwise it is the position of its first occurrence |
| `Js.Replace` | src/components/QuoteResults.tsx:74 | `replace` with a one-character pattern equals the text before the first occurrence, the replacement, and the rest; with no occurrence the string is unchanged |
| `Js.ReplaceFirstOccurrence` | src/components/QuoteResults.tsx:74 | for any prefix without the pattern, `replace` swaps exactly the occurrence right after that prefix and keeps every later one |
| `Pricing.LocationMultiplier` | src/components/InsuranceApp.tsx:99-106 | 1.2 iff the city is Lusaka, Kitwe or Ndola; 1.1 iff it is Kabwe, Chingola or Livingstone; 1.0 for every other string |
| `Pricing.AgeMultiplier` | src/components/InsuranceApp.tsx:108-118 | the age surcharge is always within [1.0, 1.4] |
| `Pricing.AgeMultiplierTable` | src/components/InsuranceApp.tsx:108-118 | the six age brackets map to 1.4, 1.1, 1.0, 1.0, 1.1, 1.2; any other string maps to 1.0 |
| `Pricing.ClaimsMultiplier` | src/components/InsuranceApp.tsx:120-128 | the claims factor is always within [0.9, 1.5] |
| `Pricing.ClaimsMultiplierTable` | src/components/InsuranceApp.tsx:120-128 | "0", "1", "2", "3+" map to 0.9, 1.1, 1.3, 1.5; any other string maps to 1.0 |
| `Pricing.Factor` | src/components/InsuranceApp.tsx:85-91 | the combined factor location × age × claims lies between 0.9 and 2.52 for every request |
| `Pricing.Adjust` | src/components/InsuranceApp.tsx:89-92 | provider, coverage, features, rating and logo are copied; each price is within half a unit of the exact scaled price; a neutral factor (1.0) leaves the offer unchanged |
| `Pricing.AdjustAll` | src/components/InsuranceApp.tsx:89-92 | the `map` yields one adjusted offer per catalog entry, in catalog order |
| `Pricing.Insert` | src/components/InsuranceApp.tsx:93 | inserting one offer lengthens the list by one |
| `Pricing.SortByAnnualPrice` | src/components/InsuranceApp.tsx:93 | the sort keeps the length of its input |
| `Pricing.InsertPermutation` | src/components/InsuranceApp.tsx:93 | inserting adds exactly the one offer (as a multiset) |
| `Pricing.SortByAnnualPricePermutation` | src/components/InsuranceApp.tsx:93 | the sort is a permutation of its input |
| `Pricing.InsertSorted` | src/components/InsuranceApp.tsx:93 | inserting into a list sorted by annual price keeps it sorted |
| `Pricing.SortByAnnualPriceSorted` | src/components/InsuranceApp.tsx:93 | the sort's output is non-decreasing by annual price |
| `Pricing.PriceQuotes` | src/components/InsuranceApp.tsx:41-93 | for every request: exactly 5 offers, sorted by annual price, a permutation of the adjusted catalog |
| `Pricing.AdjustedAnnualOrder` | src/components/InsuranceApp.tsx:44-92 | for any factor ≥ 0.9 the adjusted annual prices are strictly ordered PICZ < Prudential < Hollard < Madison < ZSIC |
| `Pricing.PriceQuotesFixedOrder` | src/components/InsuranceApp.tsx:41-93 | for every request the sorted list is the adjusted PICZ, Prudential, Hollard, Madison, ZSIC entries, in that order |
| `Pricing.PriceQuotesProviderOrder` | src/components/InsuranceApp.tsx:41-93 | the provider names appear in the same order for every request |
| `Pricing.PriceQuotesOffer` | src/components/InsuranceApp.tsx:89-92 | each listed offer has monthly = round(base monthly × factor) and annual = round(base annual × factor); provider, coverage, features, rating and logo are copied from its catalog entry |
| `Pricing.BaseCatalogTwelveMonths` | src/components/InsuranceApp.tsx:41-82 | every catalog entry's annual price is 12 × its monthly price |
| `Pricing.RoundTwelvefold` | src/components/InsuranceApp.tsx:91-92 | round(12x) and 12 × round(x) differ by at most 6 |
| `Pricing.PriceQuotesAnnualNearTwelveMonths` | src/components/InsuranceApp.tsx:89-92 | every offer satisfies \|annualPrice − 12 × monthlyPrice\| ≤ 6 |
| `Pricing.LusakaYoungDriverManyClaims` | src/components/InsuranceApp.tsx:85-92 | Lusaka / 18-25 / 3+ gives factor 2.52, and Madison's 450 becomes 1134 a month (13608 a year), listed fourth |
| `Pricing.SolweziMiddleAgedNoClaims` | src/components/InsuranceApp.tsx:85-92 | Solwezi / 36-45 / 0 gives factor 0.9, and PICZ's 380 becomes 342, listed first |
| `Pricing.SolweziOneClaimAnnualSixShort` | src/components/InsuranceApp.tsx:85-92 | Solwezi / 36-45 / 1 gives factor 1.1; Prudential, listed second, costs 435 a month (434.5 rounded up) and 5214 a year, six less than twelve monthly payments, so the ±6 bound is reached |
| `Form.RequiredListsEveryField` | src/components/QuoteForm.tsx:61 | the required list names every one of the eight fields |
| `Form.IsComplete` | src/components/QuoteForm.tsx:60-63 | `isFormValid` holds iff every one of the eight fields is set and non-empty |
| `Form.NextDisabled` | src/components/QuoteForm.tsx:318-319 | Next can be disabled only on steps 1 and 2, and only while vehicleType or driverAge is unset or empty |
| `Form.ToQuoteData` | src/components/QuoteForm.tsx:56 | the cast record carries exactly the draft's value in every field |
| `Form.Progress` | src/components/QuoteForm.tsx:39-40 | progress lies in (0, 100] and is 100 exactly on the last step |
| `Form.DisplayedProgress` | src/components/QuoteForm.tsx:85 | the shown percentage is within 1/2 of the progress and is 33, 67, 100 on steps 1, 2, 3 |
| `Form.QuoteForm.constructor` | src/components/QuoteForm.tsx:36-37 | a mounted form starts on step 1 with an empty draft |
| `Form.QuoteForm.HandleNext` | src/components/QuoteForm.tsx:42-46 | the step goes up by one below step 3 and stays at 3; the draft is unchanged and no field is checked |
| `Form.QuoteForm.HandlePrevious` | src/components/QuoteForm.tsx:48-52 | the step goes down by one above step 1 and stays at 1; the draft is unchanged |
| `Form.QuoteForm.UpdateFormData` | src/components/QuoteForm.tsx:65-67 | exactly the named field takes the new value; the other fields and the step are unchanged |
| `Form.QuoteForm.IsFormValid` | src/components/QuoteForm.tsx:60-63 | the form's own draft is valid iff every one of the eight fields is set and non-empty |
| `Form.QuoteForm.NavigationButtons` | src/components/QuoteForm.tsx:305-334 | Previous is disabled iff on step 1; exactly one of Next and Submit is shown, Submit iff on step 3; a disabled Next is a shown one; on step 1 Next waits only for vehicleType and on step 2 only for driverAge; Submit is disabled iff some field is unset or empty |
| `Form.QuoteForm.HandleSubmit` | src/components/QuoteForm.tsx:54-58 | a record is emitted iff all eight fields are filled, and then it carries the draft's non-empty values |
| `Form.CompleteDraftEnablesNext` | src/components/QuoteForm.tsx:315-328 | a draft that enables submission never has a disabled Next button |
| `Form.UpdateFills` | src/components/QuoteForm.tsx:65-67 | an update fills its own field iff the value is non-empty and leaves whether other fields are filled unchanged |
| `Form.EmptyDraftIncomplete` | src/components/QuoteForm.tsx:37-63 | the initial empty draft cannot be submitted |
| `Wizard.Render` | src/components/InsuranceApp.tsx:145-160 | nothing is rendered iff the step is results and there are no stored answers; the results view shows exactly the stored offers and answers |
| `Wizard.ConsistentResultsRendered` | src/components/InsuranceApp.tsx:153-160 | in every reachable state the results step renders the results view with the offers priced for the stored answers: five of them, sorted |
| `Wizard.ConsistentNeverBlank` | src/components/InsuranceApp.tsx:145-160 | no reachable state renders nothing; the `quoteData &&` guard is never what hides the results |
| `Wizard.InsuranceApp.constructor` | src/components/InsuranceApp.tsx:29-31 | the app starts on the landing step with no answers and no offers |
| `Wizard.InsuranceApp.ShowForm` | src/components/InsuranceApp.tsx:130-132 | `setCurrentStep('form')` keeps answers and offers; coming from another step it mounts a fresh form at step 1 with an empty draft |
| `Wizard.InsuranceApp.HandleStartQuote` | src/components/InsuranceApp.tsx:33-35 | start shows the form and clears nothing; from the landing step, where it is offered, there are no answers or offers to clear |
| `Wizard.InsuranceApp.HandleBackToForm` | src/components/InsuranceApp.tsx:130-132 | edit-details shows the form and keeps answers and offers; the form starts over |
| `Wizard.InsuranceApp.HandleQuoteSubmit` | src/components/InsuranceApp.tsx:37-97 | submit stores the answers, sets the offers to those priced for them and shows the results view |
| `Wizard.InsuranceApp.SubmitForm` | src/components/QuoteForm.tsx:54-58 | the mounted form's submit reaches the wizard iff its draft is complete, and then stores exactly the draft's values; otherwise nothing changes |
| `Wizard.InsuranceApp.HandleNewQuote` | src/components/InsuranceApp.tsx:134-138 | new-quote, from any step, goes to the landing step with no answers, no offers and no form |
| `Wizard.EditDetailsCycle` | src/components/InsuranceApp.tsx:33-132 | start, submit and edit-details keep the five offers priced for the submitted answers, while the remounted form's draft is empty and submitting it reaches no result |
| `Results.BestValueBadge` | src/components/QuoteResults.tsx:18-22 | Best Value iff the index is 0, Popular Choice iff it is 1, no badge otherwise |
| `Results.CoverageLabel` | src/components/QuoteResults.tsx:74 | the label has the coverage type's length and differs from it iff the coverage type contains a hyphen |
| `Results.QuoteCount` | src/components/QuoteResults.tsx:36 | the count in the heading is the number of cards listed |
| `Results.Savings` | src/components/QuoteResults.tsx:85 | the savings figure exists iff there is at least one quote (an empty list gives NaN) |
| `Results.SavingsOnSortedList` | src/components/QuoteResults.tsx:85 | on a list sorted by annual price the savings are ≥ 0 and bound every offer's distance from the cheapest |
| `Results.Cards` | src/components/QuoteResults.tsx:96-103 | one card per quote, in list order, so the card count is the quote count in the heading |
| `Results.BadgesOnSortedList` | src/components/QuoteResults.tsx:18-22 | Best Value exactly at index 0 and Popular Choice exactly at index 1; on a sorted list Best Value marks a cheapest offer and Popular Choice the next cheapest |
| `Results.ResultsForRequest` | src/components/QuoteResults.tsx:36-103 | for every request: 5 quotes, PICZ is Best Value, Prudential is Popular Choice, savings = ZSIC's annual − PICZ's annual > 0 |
| `Results.CoverageLabelFirstHyphen` | src/components/QuoteResults.tsx:74 | only the first hyphen becomes a space ("third-party-fire-theft" → "third party-fire-theft") |
| `Results.CoverageLabelChangesFirstHyphenOnly` | src/components/QuoteResults.tsx:74 | the label keeps the length and differs only at the first hyphen; with no hyphen it is unchanged |

## Left out

- The IEEE-754 products `price * loc * age * claims` are not modelled; the model uses exact rationals. A product that lands exactly on a .5 tie in floating point could round differently.
- `formatPrice` / `toLocaleString` are left out: their output depends on the runtime locale.
- JSX layout, styling, icons and marketing text are left out. So are the static city, make and vehicle-type catalogs and the year drop-down. The model only keeps the two risk-city lists and the age and claims brackets.
- The heading text itself ("Found N competitive quotes for your …") is left out; only the count N is modelled (`QuoteCount`).
- `Hero.tsx`, `Header.tsx` and `App.tsx` only wire buttons to the handlers already modelled. `theme-context.ts` holds only a type and a React context.
- React scheduling is left out. Each handler is one atomic state update. The mount/unmount lifecycle is modelled only as far as the form's fresh state on re-entry.
- The sort is modelled as a stable insertion sort. Stability itself is not stated as a lemma. The adjusted annual prices are proved pairwise distinct (`AdjustedAnnualOrder`), so tie-breaking never arises.
- The `logo` field is modelled but never set, as in the catalog.
