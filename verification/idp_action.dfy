/**
 * The server action behind the IDP generator form (`handleGenerateIdp`):
 * it normalises the two optional fields to "N/A", validates the three
 * required ones against minimum lengths, calls the plan generator only when
 * validation passes, and classifies the generator's outcome into the state
 * the form shows next.
 *
 * The generator is an oracle: a function from the normalised input to what
 * awaiting it gives (a value, possibly absent, or a thrown error). The reply
 * records the input the generator was called with, if it was called at all.
 */
module IdpAction {
  import opened Wrappers
  import Text
  import Validation

  /** The form as `formData.get` yields it; the two optional fields may be absent. */
  datatype IdpForm = IdpForm(
    employeeRole: string,
    performanceData: string,
    careerAspirations: string,
    managerFeedback: Option<string>,
    skillGapAnalysis: Option<string>)

  /** The generator's input, every field present. */
  datatype IdpInput = IdpInput(
    employeeRole: string,
    performanceData: string,
    careerAspirations: string,
    managerFeedback: string,
    skillGapAnalysis: string)

  /** The generator's output. */
  datatype IdpOutput = IdpOutput(idp: string)

  /** What awaiting the generator gives: a value (`None` for null or undefined) or a thrown error. */
  datatype GeneratorOutcome = Returned(result: Option<IdpOutput>) | Threw

  /** The state the action hands back to the form. */
  datatype State = State(success: bool, message: string, data: Option<IdpOutput>)

  /** The state after one call, and the input the generator was called with (`None`: not called). */
  datatype Reply = Reply(state: State, generatorInput: Option<IdpInput>)

  const NotApplicable := "N/A"
  const RoleMessage := "Role must be at least 3 characters."
  const PerformanceMessage := "Performance data must be at least 10 characters."
  const AspirationsMessage := "Career aspirations must be at least 10 characters."
  const SuccessMessage := "IDP generated successfully."
  const EmptyResultMessage := "Failed to generate IDP from AI model."
  const UnexpectedMessage := "An unexpected error occurred. Please try again."

  /** `value || 'N/A'`: an absent or empty value becomes "N/A", any other passes through. */
  function OrNotApplicable(value: Option<string>): (r: string)
    ensures r != ""
    ensures value.Some? && value.value != "" ==> r == value.value
    ensures value.None? || value.value == "" ==> r == NotApplicable
  {
    match value
    case None => NotApplicable
    case Some(s) => if s == "" then NotApplicable else s
  }

  /** Normalising a normalised value changes nothing. */
  lemma OrNotApplicableIdempotent(value: Option<string>)
    ensures OrNotApplicable(Some(OrNotApplicable(value))) == OrNotApplicable(value)
  {
  }

  /** The raw form data the action builds before validating. */
  function Normalize(form: IdpForm): (input: IdpInput)
    ensures input.employeeRole == form.employeeRole
    ensures input.performanceData == form.performanceData
    ensures input.careerAspirations == form.careerAspirations
    ensures input.managerFeedback == OrNotApplicable(form.managerFeedback)
    ensures input.skillGapAnalysis == OrNotApplicable(form.skillGapAnalysis)
    ensures input.managerFeedback != "" && input.skillGapAnalysis != ""
  {
    IdpInput(form.employeeRole, form.performanceData, form.careerAspirations,
             OrNotApplicable(form.managerFeedback), OrNotApplicable(form.skillGapAnalysis))
  }

  /** The minimum lengths of `IdpSchema`; the two optional fields are unconstrained. */
  predicate MeetsMinimums(input: IdpInput) {
    |input.employeeRole| >= 3 && |input.performanceData| >= 10 && |input.careerAspirations| >= 10
  }

  /** The schema's messages, in the order its fields are declared. */
  const FieldMessages := [RoleMessage, PerformanceMessage, AspirationsMessage]

  /**
   * The issues `IdpSchema.safeParse` reports: exactly the messages of the
   * failing fields, each once, in the order the schema declares the fields.
   */
  function Issues(input: IdpInput): (messages: seq<string>)
    ensures messages == [] <==> MeetsMinimums(input)
    ensures RoleMessage in messages <==> |input.employeeRole| < 3
    ensures PerformanceMessage in messages <==> |input.performanceData| < 10
    ensures AspirationsMessage in messages <==> |input.careerAspirations| < 10
    ensures Validation.InFieldOrder(messages, FieldMessages)
    ensures |messages| <= 3
    ensures forall i :: 0 <= i < |messages| ==> messages[i] != ""
  {
    var failing := [|input.employeeRole| < 3, |input.performanceData| < 10, |input.careerAspirations| < 10];
    Validation.ReportExact(FieldMessages, failing);
    assert MeetsMinimums(input) <==> !failing[0] && !failing[1] && !failing[2];
    var messages := Validation.Report(FieldMessages, failing);
    Validation.InFieldOrderLength(messages, FieldMessages);
    messages
  }

  /** `messages.join(', ')`. */
  function JoinMessages(messages: seq<string>): string {
    if messages == [] then "" else Text.Join(messages, ", ")
  }

  /** Joining a non-empty list whose first message is non-empty gives a non-empty text. */
  lemma {:induction false} JoinNonEmpty(messages: seq<string>)
    requires |messages| > 0 && messages[0] != ""
    ensures JoinMessages(messages) != ""
  {
    var j := Text.Join(messages, ", ");
    if |messages| > 1 {
      assert j == messages[0] + ", " + Text.Join(messages[1..], ", ");
    }
    assert |j| >= |messages[0]|;
  }

  /** The generator produced a plan with non-empty text (`result && result.idp`). */
  predicate ProducedPlan(outcome: GeneratorOutcome) {
    outcome.Returned? && outcome.result.Some? && outcome.result.value.idp != ""
  }

  /** `handleGenerateIdp(prevState, formData)`. */
  function HandleGenerateIdp(prevState: State, form: IdpForm, generate: IdpInput -> GeneratorOutcome): (r: Reply)
    // the generator is called, with the normalised input, exactly when validation passes
    ensures r.generatorInput.Some? <==> MeetsMinimums(Normalize(form))
    ensures r.generatorInput.Some? ==> r.generatorInput.value == Normalize(form)
    // success exactly when the generator produced a plan; the plan is handed back unchanged
    ensures r.state.success <==> MeetsMinimums(Normalize(form)) && ProducedPlan(generate(Normalize(form)))
    ensures r.state.success ==> r.state.data == generate(Normalize(form)).result
                                && r.state.message == SuccessMessage
    // every failure carries no data and a non-empty message
    ensures !r.state.success ==> r.state.data.None?
    ensures r.state.message != ""
    ensures !MeetsMinimums(Normalize(form)) ==> r.state.message == JoinMessages(Issues(Normalize(form)))
  {
    var input := Normalize(form);
    var issues := Issues(input);
    if issues != [] then
      JoinNonEmpty(issues);
      Reply(State(false, JoinMessages(issues), None), None)
    else
      var outcome := generate(input);
      var state :=
        match outcome
        case Threw => State(false, UnexpectedMessage, None)
        case Returned(result) =>
          if result.Some? && result.value.idp != "" then State(true, SuccessMessage, result)
          else State(false, EmptyResultMessage, None);
      Reply(state, Some(input))
  }

  /** The three failure messages after validation passed, one per way the generator can fail. */
  lemma GeneratorFailures(prevState: State, form: IdpForm, generate: IdpInput -> GeneratorOutcome)
    requires MeetsMinimums(Normalize(form))
    ensures var r := HandleGenerateIdp(prevState, form, generate);
            var outcome := generate(Normalize(form));
            (outcome.Threw? ==> r.state == State(false, UnexpectedMessage, None))
            && (outcome.Returned? && !ProducedPlan(outcome) ==> r.state == State(false, EmptyResultMessage, None))
  {
  }

  /** The reply never depends on the previous state. */
  lemma PrevStateIgnored(s1: State, s2: State, form: IdpForm, generate: IdpInput -> GeneratorOutcome)
    ensures HandleGenerateIdp(s1, form, generate) == HandleGenerateIdp(s2, form, generate)
  {
  }
}
