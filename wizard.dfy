/** The screen-level state of InsuranceApp.tsx: which of the landing, form
    and results screens is shown, the last submitted answers and the offers
    computed from them, and the four handlers that change these. */
module Wizard {
  import opened Js
  import opened Pricing
  import opened Form

  /** `currentStep`: 'hero' | 'form' | 'results'. */
  datatype Step = Hero | FormStep | Results

  /** What `main` renders. */
  datatype View = HeroView | FormView | ResultsView(quotes: seq<Quote>, data: QuoteData) | NoView

  /** The rendering conditions: the results screen needs both the step and a
      non-null `quoteData`; otherwise nothing is rendered. */
  function Render(step: Step, quoteData: Option<QuoteData>, quotes: seq<Quote>): (v: View)
    ensures v == NoView <==> step == Results && quoteData.None?
    ensures v.ResultsView? <==> step == Results && quoteData.Some?
    ensures v.ResultsView? ==> v.quotes == quotes && quoteData == Some(v.data)
  {
    match step
    case Hero => HeroView
    case FormStep => FormView
    case Results => if quoteData.Some? then ResultsView(quotes, quoteData.value) else NoView
  }

  /** What every handler keeps true of the three cells: no offers without
      answers, the offers are always those priced for the stored answers, the
      results step always has answers to show, and the landing step never
      has any (only new-quote leads there, and it clears both cells). */
  predicate Consistent(step: Step, quoteData: Option<QuoteData>, quotes: seq<Quote>)
  {
    && (quoteData.None? ==> quotes == [])
    && (quoteData.Some? ==> quotes == PriceQuotes(quoteData.value))
    && (step == Results ==> quoteData.Some?)
    && (step == Hero ==> quoteData.None?)
  }

  /** In a consistent state the `quoteData &&` guard never hides the results
      screen, and the screen always lists five offers sorted by annual price. */
  lemma ConsistentResultsRendered(step: Step, quoteData: Option<QuoteData>, quotes: seq<Quote>)
    requires Consistent(step, quoteData, quotes) && step == Results
    ensures Render(step, quoteData, quotes) == ResultsView(PriceQuotes(quoteData.value), quoteData.value)
    ensures |quotes| == 5 && SortedByAnnualPrice(quotes)
  {
  }

  /** Every state the handlers reach renders something. */
  lemma ConsistentNeverBlank(step: Step, quoteData: Option<QuoteData>, quotes: seq<Quote>)
    requires Consistent(step, quoteData, quotes)
    ensures Render(step, quoteData, quotes) != NoView
  {
  }

  class InsuranceApp {
    var currentStep: Step
    var quoteData: Option<QuoteData>
    var quotes: seq<Quote>
    /** The mounted QuoteForm; it exists only while the form step is shown. */
    var form: QuoteForm?

    ghost predicate Valid()
      reads this, form
    {
      && Consistent(currentStep, quoteData, quotes)
      && (currentStep == FormStep <==> form != null)
      && (form != null ==> form.Valid())
    }

    function CurrentView(): View
      reads this
    {
      Render(currentStep, quoteData, quotes)
    }

    constructor ()
      ensures Valid()
      ensures currentStep == Hero && quoteData == None && quotes == [] && form == null
    {
      currentStep := Hero;
      quoteData := None;
      quotes := [];
      form := null;
    }

    /** `setCurrentStep('form')`. Coming from another step mounts a new
        QuoteForm, which starts on step 1 with an empty draft; the stored
        answers and offers are kept. */
    method ShowForm()
      requires Valid()
      modifies this
      ensures Valid()
      ensures currentStep == FormStep && quoteData == old(quoteData) && quotes == old(quotes)
      ensures old(currentStep) == FormStep ==> form == old(form)
      ensures old(currentStep) != FormStep ==>
        fresh(form) && form.currentStep == 1 && form.formData == map[]
    {
      if currentStep != FormStep {
        form := new QuoteForm();
      }
      currentStep := FormStep;
    }

    /** `handleStartQuote`: shows the form and clears nothing; since it is
        offered only on the landing step, there is nothing to clear. */
    method HandleStartQuote()
      requires Valid()
      modifies this
      ensures Valid()
      ensures currentStep == FormStep && quoteData == old(quoteData) && quotes == old(quotes)
      ensures old(currentStep) == Hero ==> quoteData == None && quotes == []
      ensures old(currentStep) == FormStep ==> form == old(form)
      ensures old(currentStep) != FormStep ==>
        fresh(form) && form.currentStep == 1 && form.formData == map[]
    {
      ShowForm();
    }

    /** `handleBackToForm` ("Edit Details"): shows the form, keeping the
        stored answers and offers; the form itself starts over. */
    method HandleBackToForm()
      requires Valid()
      modifies this
      ensures Valid()
      ensures currentStep == FormStep && quoteData == old(quoteData) && quotes == old(quotes)
      ensures old(currentStep) == FormStep ==> form == old(form)
      ensures old(currentStep) != FormStep ==>
        fresh(form) && form.currentStep == 1 && form.formData == map[]
    {
      ShowForm();
    }

    /** `handleQuoteSubmit(data)`: stores the answers, replaces the offers with
        those priced for them and shows the results. */
    method HandleQuoteSubmit(data: QuoteData)
      requires Valid()
      modifies this
      ensures Valid()
      ensures currentStep == Results && quoteData == Some(data) && quotes == PriceQuotes(data)
      ensures form == null
      ensures CurrentView() == ResultsView(PriceQuotes(data), data)
    {
      quoteData := Some(data);
      quotes := PriceQuotes(data);
      currentStep := Results;
      form := null;
    }

    /** The mounted form's submit button: `handleSubmit` calls back into
        `handleQuoteSubmit` only with a complete draft. */
    method SubmitForm()
      requires Valid() && form != null
      modifies this
      ensures Valid()
      ensures old(form.IsFormValid()) ==>
        && currentStep == Results && form == null && quoteData.Some?
        && quotes == PriceQuotes(quoteData.value)
        && forall field: Field ::
          field in old(form.formData) && FieldValue(quoteData.value, field) == old(form.formData)[field]
      ensures !old(form.IsFormValid()) ==>
        && currentStep == old(currentStep) && quoteData == old(quoteData)
        && quotes == old(quotes) && form == old(form)
    {
      var emitted := form.HandleSubmit();
      if emitted.Some? {
        HandleQuoteSubmit(emitted.value);
      }
    }

    /** `handleNewQuote` (the header's and the results screen's "New Quote"),
        from any step: back to the landing screen with nothing stored. */
    method HandleNewQuote()
      requires Valid()
      modifies this
      ensures Valid()
      ensures currentStep == Hero && quoteData == None && quotes == [] && form == null
    {
      currentStep := Hero;
      quoteData := None;
      quotes := [];
      form := null;
    }
  }

  /** "Edit Details" as a caller sees it: the offers survive, but the
      remounted form is empty, so submitting it again does nothing until
      every answer has been given anew. */
  method EditDetailsCycle(answers: QuoteData) returns (kept: seq<Quote>, draft: Draft, submitted: bool)
    ensures kept == PriceQuotes(answers) && |kept| == 5
    ensures draft == map[] && !submitted
  {
    var app := new InsuranceApp();
    app.HandleStartQuote();
    app.HandleQuoteSubmit(answers);
    app.HandleBackToForm();
    assert app.quoteData == Some(answers) && app.quotes == PriceQuotes(answers);
    EmptyDraftIncomplete();
    app.SubmitForm();
    kept, draft, submitted := app.quotes, app.form.formData, app.currentStep == Results;
  }
}
