/** The three-step form of QuoteForm.tsx: a step counter in [1, 3] and a
    partially filled answer record, with bounded navigation, single-field
    updates, the completeness check that gates submission and the values
    the navigation buttons and progress bar are derived from. */
module Form {
  import opened Js
  import opened Pricing

  const TotalSteps: int := 3

  /** The list `isFormValid` walks: all eight fields of the record. */
  const Required: seq<Field> :=
    [VehicleType, Make, Model, Year, DriverAge, Location, CoverageType, PreviousClaims]

  /** `Partial<QuoteData>`: a field that was never set has no entry. */
  type Draft = map<Field, string>

  /** `formData[field]` is truthy: the field is set and is not "". */
  predicate Filled(draft: Draft, field: Field)
  {
    field in draft && draft[field] != ""
  }

  lemma RequiredListsEveryField(field: Field)
    ensures field in Required
  {
  }

  /** `isFormValid` on a draft: every field of the record is filled in. */
  function IsComplete(draft: Draft): (r: bool)
    ensures r <==> forall field: Field :: Filled(draft, field)
  {
    var every := Every(Required, (field: Field) => Filled(draft, field));
    if every then
      assert forall field: Field :: Filled(draft, field) by {
        forall field: Field ensures Filled(draft, field) {
          RequiredListsEveryField(field);
          var i :| 0 <= i < |Required| && Required[i] == field;
        }
      }
      every
    else every
  }

  /** `formData as QuoteData` once every field is set. */
  function ToQuoteData(draft: Draft): (data: QuoteData)
    requires forall field: Field :: field in draft
    ensures forall field: Field :: FieldValue(data, field) == draft[field]
  {
    QuoteData(draft[VehicleType], draft[Make], draft[Model], draft[Year],
              draft[DriverAge], draft[Location], draft[CoverageType], draft[PreviousClaims])
  }

  /** The Next button's `disabled` expression: step 1 waits for a vehicle
      type and step 2 for a driver age; nothing else is checked. */
  function NextDisabled(step: int, draft: Draft): (r: bool)
    ensures r ==> step == 1 || step == 2
    ensures r ==> !Filled(draft, VehicleType) || !Filled(draft, DriverAge)
  {
    (!Filled(draft, VehicleType) && step == 1) || (!Filled(draft, DriverAge) && step == 2)
  }

  /** `progress = (currentStep / totalSteps) * 100`, as a percentage. */
  function Progress(step: int): (p: real)
    requires 1 <= step <= TotalSteps
    ensures 0.0 < p <= 100.0
    ensures p == 100.0 <==> step == TotalSteps
  {
    (step as real / TotalSteps as real) * 100.0
  }

  /** `Math.round(progress)`, the percentage written beside the bar. */
  function DisplayedProgress(step: int): (r: int)
    requires 1 <= step <= TotalSteps
    ensures r as real - 0.5 <= Progress(step) < r as real + 0.5
    ensures r == [33, 67, 100][step - 1]
  {
    Round(100 * step, TotalSteps)
  }

  class QuoteForm {
    var currentStep: int
    var formData: Draft

    ghost predicate Valid()
      reads this
    {
      1 <= currentStep <= TotalSteps
    }

    /** A freshly mounted form: step 1, nothing filled in. */
    constructor ()
      ensures Valid()
      ensures currentStep == 1 && formData == map[]
    {
      currentStep := 1;
      formData := map[];
    }

    /** `handleNext`: one step forward, except on the last step. It does not
        look at the answers; only the button's `disabled` state does. */
    method HandleNext()
      requires Valid()
      modifies this
      ensures Valid()
      ensures currentStep == if old(currentStep) < TotalSteps then old(currentStep) + 1 else old(currentStep)
      ensures formData == old(formData)
    {
      if currentStep < TotalSteps {
        currentStep := currentStep + 1;
      }
    }

    /** `handlePrevious`: one step back, except on the first step. */
    method HandlePrevious()
      requires Valid()
      modifies this
      ensures Valid()
      ensures currentStep == if old(currentStep) > 1 then old(currentStep) - 1 else old(currentStep)
      ensures formData == old(formData)
    {
      if currentStep > 1 {
        currentStep := currentStep - 1;
      }
    }

    /** `updateFormData(field, value)`: sets that one field. */
    method UpdateFormData(field: Field, value: string)
      requires Valid()
      modifies this
      ensures Valid()
      ensures formData == old(formData)[field := value]
      ensures currentStep == old(currentStep)
    {
      formData := formData[field := value];
    }

    /** `isFormValid()`. */
    function IsFormValid(): (r: bool)
      reads this
      ensures r <==> forall field: Field :: Filled(formData, field)
    {
      IsComplete(formData)
    }

    /** `handleSubmit`: hands the answers to `onSubmit` exactly when all eight
        are filled in, and does nothing otherwise. */
    method HandleSubmit() returns (emitted: Option<QuoteData>)
      ensures emitted.Some? <==> forall field: Field :: Filled(formData, field)
      ensures emitted.Some? ==> forall field: Field ::
        field in formData && FieldValue(emitted.value, field) == formData[field] != ""
    {
      if IsFormValid() {
        forall field: Field ensures field in formData {
          assert Filled(formData, field);
        }
        emitted := Some(ToQuoteData(formData));
      } else {
        emitted := None;
      }
    }

    /** The Next button is rendered on steps 1 and 2 only. */
    predicate ShowsNext()
      reads this
    {
      currentStep < TotalSteps
    }

    predicate NextButtonDisabled()
      reads this
    {
      NextDisabled(currentStep, formData)
    }

    /** The submit button replaces Next on the last step. */
    predicate ShowsSubmit()
      reads this
    {
      !ShowsNext()
    }

    predicate SubmitButtonDisabled()
      reads this
    {
      !IsFormValid()
    }

    predicate PreviousButtonDisabled()
      reads this
    {
      currentStep == 1
    }

    /** The navigation bar in every state of the form: Previous is disabled
        only on step 1; exactly one of Next and Submit is shown, Submit on the
        last step; a disabled Next is a shown one, and on steps 1 and 2 it
        waits only for that step's gated field, whatever else is filled in;
        Submit is disabled exactly while some field is unset or empty. */
    lemma NavigationButtons()
      requires Valid()
      ensures PreviousButtonDisabled() <==> currentStep == 1
      ensures ShowsNext() != ShowsSubmit()
      ensures ShowsSubmit() <==> currentStep == TotalSteps
      ensures NextButtonDisabled() ==> ShowsNext()
      ensures currentStep == 1 ==> (NextButtonDisabled() <==> !Filled(formData, VehicleType))
      ensures currentStep == 2 ==> (NextButtonDisabled() <==> !Filled(formData, DriverAge))
      ensures SubmitButtonDisabled() <==> exists field: Field :: !Filled(formData, field)
    {
    }
  }

  /** A complete draft never has a disabled Next button. */
  lemma CompleteDraftEnablesNext(step: int, draft: Draft)
    requires IsComplete(draft)
    ensures !NextDisabled(step, draft)
  {
  }

  /** An update fills its own field exactly when the new value is not
      empty, and leaves whether any other field is filled as it was. */
  lemma UpdateFills(draft: Draft, field: Field, value: string, other: Field)
    ensures Filled(draft[field := value], field) <==> value != ""
    ensures other != field ==> (Filled(draft[field := value], other) <==> Filled(draft, other))
  {
  }

  /** The empty draft a freshly mounted form starts with is not submittable. */
  lemma EmptyDraftIncomplete()
    ensures !IsComplete(map[])
  {
  }
}
