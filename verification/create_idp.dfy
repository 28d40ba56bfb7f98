/**
 * The "Create New IDP" dialog: a form validated by minimum lengths and a
 * required end date, and a submit handler that writes a plan record for the
 * signed-in user with fixed defaults, then resets the form and closes the
 * dialog on success.
 *
 * The signed-in user, the availability of the document store, the clock
 * and whether the write succeeds are parameters of `Submit`; the records
 * written are kept in the `documents` field.
 */
module CreateIdp {
  import opened Wrappers
  import opened Effects
  import Validation

  /** A point in time, in milliseconds since the epoch. */
  type Instant = int

  datatype FormValues = FormValues(
    title: string,
    description: string,
    careerGoal: string,
    targetRole: string,
    endDate: Option<Instant>)

  /** The plan's progress, as the plan type enumerates it. */
  datatype Status = InProgress | Completed | NotStarted

  /** The document written to the plans collection. */
  datatype IdpRecord = IdpRecord(
    title: string,
    description: string,
    careerGoal: string,
    targetRole: string,
    employeeId: string,
    goals: seq<string>,
    startDate: Instant,
    endDate: Instant,
    status: Status,
    managerFeedback: string,
    skillGapAnalysis: string)

  datatype User = User(uid: string)

  /** The form's default values: empty texts and no end date. */
  const DefaultValues := FormValues("", "", "", "", None)

  const TitleMessage := "Title must be at least 3 characters long."
  const DescriptionMessage := "Description must be at least 10 characters long."
  const CareerGoalMessage := "Career Goal must be at least 3 characters long."
  const TargetRoleMessage := "Target Role must be at least 3 characters long."
  const EndDateMessage := "A target completion date is required."

  const NotLoggedInToast := Toast(Destructive, "Error", "You must be logged in to create an IDP.")
  const CreatedToast := Toast(Standard, "Success!", "Your new IDP has been created.")
  const WriteFailedToast := Toast(Destructive, "Uh oh! Something went wrong.", "There was a problem with your request.")

  /** The form schema's constraints. */
  predicate IsValid(v: FormValues) {
    |v.title| >= 3 && |v.description| >= 10 && |v.careerGoal| >= 3 && |v.targetRole| >= 3
    && v.endDate.Some?
  }

  /** The schema's messages, in the order its fields are declared. */
  const FieldMessages := [TitleMessage, DescriptionMessage, CareerGoalMessage, TargetRoleMessage, EndDateMessage]

  /**
   * The messages shown under the fields: exactly those of the failing
   * fields, each once, in the order the schema declares the fields.
   */
  function Issues(v: FormValues): (messages: seq<string>)
    ensures messages == [] <==> IsValid(v)
    ensures Validation.InFieldOrder(messages, FieldMessages)
    ensures TitleMessage in messages <==> |v.title| < 3
    ensures DescriptionMessage in messages <==> |v.description| < 10
    ensures CareerGoalMessage in messages <==> |v.careerGoal| < 3
    ensures TargetRoleMessage in messages <==> |v.targetRole| < 3
    ensures EndDateMessage in messages <==> v.endDate.None?
  {
    var failing := [|v.title| < 3, |v.description| < 10, |v.careerGoal| < 3, |v.targetRole| < 3,
                    v.endDate.None?];
    Validation.ReportExact(FieldMessages, failing);
    assert IsValid(v) <==> !failing[0] && !failing[1] && !failing[2] && !failing[3] && !failing[4];
    Validation.Report(FieldMessages, failing)
  }

  /** The default values fail every constraint, with all five messages in field order. */
  lemma DefaultsRejected()
    ensures !IsValid(DefaultValues)
    ensures Issues(DefaultValues) == FieldMessages
  {
    Validation.ReportAll(FieldMessages, [true, true, true, true, true]);
  }

  /** The values a record was built from, read back from it. */
  function SubmittedValues(r: IdpRecord): FormValues {
    FormValues(r.title, r.description, r.careerGoal, r.targetRole, Some(r.endDate))
  }

  /**
   * The record `onSubmit` writes for validated values: the submitted fields
   * as they are, the user's id, one goal (the career goal), the start time,
   * status "Not Started" and empty feedback and skill-gap texts.
   */
  function BuildRecord(v: FormValues, uid: string, now: Instant): (r: IdpRecord)
    requires v.endDate.Some?
    ensures SubmittedValues(r) == v
    ensures r.employeeId == uid && r.goals == [v.careerGoal] && |r.goals| == 1
    ensures r.startDate == now && r.status == NotStarted
    ensures r.managerFeedback == "" && r.skillGapAnalysis == ""
  {
    IdpRecord(v.title, v.description, v.careerGoal, v.targetRole, uid, [v.careerGoal],
              now, v.endDate.value, NotStarted, "", "")
  }

  class CreateIdpDialog {
    var values: FormValues
    var open: bool
    /** The validation messages currently shown under the fields. */
    var fieldErrors: seq<string>
    var toasts: seq<Toast>
    /** The records this dialog has written to the plans collection. */
    var documents: seq<IdpRecord>

    constructor (open: bool)
      ensures values == DefaultValues && this.open == open
      ensures fieldErrors == [] && toasts == [] && documents == []
    {
      values := DefaultValues;
      this.open := open;
      fieldErrors := [];
      toasts := [];
      documents := [];
    }

    /** The form controls' change handler. */
    method Edit(v: FormValues)
      modifies this`values
      ensures values == v
    {
      values := v;
    }

    /**
     * Submitting the form. Invalid values only show their messages. Valid
     * values reach `onSubmit`: without a user or a store it raises an error
     * toast and writes nothing; otherwise it writes the record, and on
     * success raises the success toast, resets the form and closes the
     * dialog, while a failed write raises the failure toast and leaves the
     * form and dialog as they were.
     */
    method Submit(user: Option<User>, storeReady: bool, now: Instant, writeSucceeds: bool)
      modifies this
      ensures fieldErrors == Issues(old(values))
      ensures !IsValid(old(values)) ==>
                values == old(values) && open == old(open)
                && toasts == old(toasts) && documents == old(documents)
      ensures IsValid(old(values)) && (user.None? || !storeReady) ==>
                values == old(values) && open == old(open)
                && toasts == old(toasts) + [NotLoggedInToast] && documents == old(documents)
      ensures IsValid(old(values)) && user.Some? && storeReady && writeSucceeds ==>
                documents == old(documents) + [BuildRecord(old(values), user.value.uid, now)]
                && toasts == old(toasts) + [CreatedToast]
                && values == DefaultValues && !open
      ensures IsValid(old(values)) && user.Some? && storeReady && !writeSucceeds ==>
                documents == old(documents) && toasts == old(toasts) + [WriteFailedToast]
                && values == old(values) && open == old(open)
    {
      fieldErrors := Issues(values);
      if fieldErrors != [] {
        return;
      }
      if user.None? || !storeReady {
        toasts := toasts + [NotLoggedInToast];
        return;
      }
      if writeSucceeds {
        documents := documents + [BuildRecord(values, user.value.uid, now)];
        toasts := toasts + [CreatedToast];
        values := DefaultValues;
        open := false;
      } else {
        toasts := toasts + [WriteFailedToast];
      }
    }
  }
}
