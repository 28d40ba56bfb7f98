# TalentFlow AI: decision logic of the web client and server action

This project models the decision logic of TalentFlow AI, a Next.js
application that helps employees and managers with Individual Development
Plans (IDPs). It does not model the user interface itself. The modelled
parts are:

- **Course list** (`Courses`). An employee's list of courses is keyed by id.
  `addCourse` appends a course only if its id is new, and `removeCourse`
  filters out an id. `addCourse` raises a toast in both branches;
  `removeCourse` raises none. The invariant that ids stay
  distinct is proved for both.
- **IDP generation server action** (`IdpAction`). `handleGenerateIdp` does
  three things:
  - it turns a missing or empty manager-feedback or skill-gap field into
    "N/A";
  - it checks three minimum lengths;
  - it calls the plan generator only when those checks pass, and sorts the
    outcome into one of four states: invalid input, success, empty result
    or thrown error.
- **IDP output card** (`IdpView`). It decides whether the plan or the
  placeholder is shown, and whether the error alert is shown. It renders
  the plan text one paragraph per line. In a line containing `**`, the
  first delimited segment is shown in bold, followed by the next segment.
- **Create-IDP dialog** (`CreateIdp`). The form schema, and the record
  written for a valid form: the user's id, one goal, the status
  "Not Started" and empty feedback. After a successful write the form is
  reset and the dialog closed; every error path is modelled too.
- **Chat assistant** (`Assistant`). A guarded submission appends the
  user's message and clears the input. The flow is called with the earlier
  log as its history. Exactly one model message (the response or a fixed
  apology) then follows.
- **Sign-in routing** (`Login`). After authentication, the collections
  `employees`, `managers` and `admins` are read in that order. The first
  one holding the user decides the dashboard.
- **Sign-up** (`Signup`). The chosen role maps to a collection and a
  dashboard. A profile without the password is stored. It is proved that
  sign-up and sign-in agree on the collection and the dashboard.

`Text` models the JavaScript string operations the core relies on:
`includes`, `split` with a non-empty separator, `join` and `trim`.
`Validation` models how a zod schema reports a failed parse: one
message per failing field, in the order the schema declares the fields.
`Wrappers` holds `Option`. `Effects` holds the toast record.

External services are parameters of the operations:

- the generator, the chat flow, the auth provider, document reads and
  document writes are oracle functions;
- the signed-in user and store availability are plain arguments;
- the clock is a plain `Instant` argument.

What the components do to the outside world is recorded in sequence
fields: toasts raised, documents written, collections read and redirects.

The actions normalise optional fields with `value || 'N/A'`, which turns
an empty string into "N/A" as well as a missing value.

## Model

| member | source | states |
|---|---|---|
| Courses.Without | src/app/employee/courses/page.tsx:41 | the filtered list is no longer than the original, and every course in it comes from the original and has a different id |
| Courses.WithoutKeepsOthers | src/app/employee/courses/page.tsx:41 | a course survives removal exactly when it was in the list with a different id |
| Courses.WithoutRemovesId | src/app/employee/courses/page.tsx:40-42 | after removal no course with the removed id remains |
| Courses.WithoutDistributes | src/app/employee/courses/page.tsx:41 | removal from a concatenation is removal from each part in order, so the kept courses keep their relative order |
| Courses.WithoutAbsent | src/app/employee/courses/page.tsx:41 | removing an id that is not present leaves the list unchanged |
| Courses.WithoutIdempotent | src/app/employee/courses/page.tsx:41 | removing the same id twice equals removing it once |
| Courses.WithoutKeepsDistinct | src/app/employee/courses/page.tsx:40-42 | removal keeps ids pairwise distinct |
| Courses.AppendFreshKeepsDistinct | src/app/employee/courses/page.tsx:53 | appending a course whose id is new keeps ids pairwise distinct |
| Courses.CatalogueAgainstInitial | src/components/employee/add-course-dialog.tsx:15-24 | the initial list has distinct ids; of the eight catalogue courses, the first three are already in the initial list and the other five are not |
| Courses.CourseList.constructor | src/app/employee/courses/page.tsx:18-22 | a new page holds the three initial courses, with distinct ids and no toasts |
| Courses.CourseList.RemoveCourse | src/app/employee/courses/page.tsx:40-42 | the list becomes the filtered list; the id is gone; distinct ids are preserved; no toast is raised |
| Courses.CourseList.AddCourse | src/app/employee/courses/page.tsx:44-58 | only the id is compared. A present id leaves the list unchanged and raises "Course Already Added". A new id appends the course last and raises "Course Added" with its title. Afterwards the id is present and distinct ids are preserved |
| IdpAction.OrNotApplicable | src/app/actions.ts:29-30 | the result is never empty; a non-empty value passes through unchanged; a missing or empty value becomes "N/A" |
| IdpAction.OrNotApplicableIdempotent | src/app/actions.ts:29-30 | normalising an already normalised value changes nothing |
| IdpAction.Normalize | src/app/actions.ts:25-31 | the three required fields are copied as they are; each optional field becomes `OrNotApplicable` of the form's value, so it is never empty |
| IdpAction.Issues | src/app/actions.ts:10-16 | there are no issues exactly when the role has at least 3 characters and both texts at least 10; each field's message appears exactly when that field is too short; every message is one of the three field messages, and they come once each in schema order; there are at most three, none empty |
| IdpAction.JoinMessages | src/app/actions.ts:38 | `messages.join(', ')`; it has no contract of its own: `JoinNonEmpty` states that the joined message is non-empty, and `HandleGenerateIdp` that it is the invalid-input message |
| IdpAction.JoinNonEmpty | src/app/actions.ts:38 | joining a non-empty list whose first message is non-empty gives a non-empty text |
| IdpAction.HandleGenerateIdp | src/app/actions.ts:24-52 | the generator is called exactly when validation passes, and then with the normalised input. Success holds exactly when it produced a non-empty plan, which is returned unchanged with the success message. Failures carry no data. The message is never empty. Invalid input gets the issues joined by ", " |
| IdpAction.GeneratorFailures | src/app/actions.ts:42-51 | once validation passes, a thrown error gives the "unexpected error" state and a missing or empty result gives the "failed to generate" state |
| IdpAction.PrevStateIgnored | src/app/actions.ts:24 | the reply does not depend on the previous state |
| IdpView.RenderLine | src/components/sections/idp-generator-section.tsx:68-72 | one line of the plan; it has no contract of its own: `PlainLineVerbatim`, `EmphasisedLine` and `OverlappingMarkers` state what it shows |
| IdpView.RenderPlan | src/components/sections/idp-generator-section.tsx:67 | the plan split on line breaks, each line rendered; it has no contract of its own: `PlanParagraphs` states it |
| IdpView.ShownPanel | src/components/sections/idp-generator-section.tsx:65-79 | the plan or the placeholder; it has no contract of its own: `InitialShowsNothing` and `ReplyShowsPlanOrAlert` state when the plan shows |
| IdpView.ShownAlert | src/components/sections/idp-generator-section.tsx:80-86 | the error alert; it has no contract of its own: `InitialShowsNothing` and `ReplyShowsPlanOrAlert` state when it shows and with which message |
| IdpView.PlanParagraphs | src/components/sections/idp-generator-section.tsx:67 | there is one paragraph per line, in order. The count is the number of line breaks plus one. No line holds a break, and the lines joined with "\n" give back the plan text |
| IdpView.PlainLineVerbatim | src/components/sections/idp-generator-section.tsx:72 | a line without `**` is rendered as it is |
| IdpView.EmphasisedLine | src/components/sections/idp-generator-section.tsx:68-70 | a line with `**` shows in bold the segment between the first and second marker, or the whole rest if there is only one marker. It then shows the segment up to the third marker. Neither segment holds a marker. The text before the first marker and from the third marker on is dropped. Each marker is the leftmost one after the segment before it: no `**` starts inside that segment, not even one ending on the marker's first star |
| IdpView.OverlappingMarkers | src/components/sections/idp-generator-section.tsx:69-70 | `"**a***b"` shows `"a"` in bold followed by `"*b"`, and the layout with `"a*"` in bold is not a leftmost one |
| IdpView.InitialShowsNothing | src/components/sections/idp-generator-section.tsx:24 | the initial state shows neither a plan nor an alert |
| IdpView.ReplyShowsPlanOrAlert | src/components/sections/idp-generator-section.tsx:65-86 | after any reply the card shows the plan, with non-empty text, exactly on success, and otherwise the alert with the reply's message |
| CreateIdp.Issues | src/components/idp/create-idp-dialog.tsx:29-37 | the form is valid exactly when there are no issues; each field's message appears exactly when that field fails its constraint, and the end-date message when no date is set; every message is one of the five field messages, and they come once each in schema order |
| CreateIdp.DefaultsRejected | src/components/idp/create-idp-dialog.tsx:58-64 | the default values fail validation, with all five messages in schema order |
| CreateIdp.BuildRecord | src/components/idp/create-idp-dialog.tsx:79-88 | the submitted fields and end date can be read back unchanged. The record also holds the user's id, exactly one goal (the career goal), the start time, status "Not Started" and empty feedback and skill-gap texts |
| CreateIdp.CreateIdpDialog.constructor | src/components/idp/create-idp-dialog.tsx:58-64 | the form starts with the default values and nothing has been written |
| CreateIdp.CreateIdpDialog.Edit | src/components/idp/create-idp-dialog.tsx:120-124 | a field edit replaces the form values |
| CreateIdp.CreateIdpDialog.Submit | src/components/idp/create-idp-dialog.tsx:67-104 | the field errors are the form's issues, and invalid values change nothing else. Without a user or store: the error toast, no write, no reset. A successful write: the record built from the values, the success toast, a reset form and a closed dialog. A failed write: the failure toast, with form and dialog unchanged |
| Text.Contains | src/components/sections/idp-generator-section.tsx:68 | `includes`; it has no contract of its own: `ContainsIffSeveralPieces` relates it to `split` |
| Text.Join | src/app/actions.ts:38 | `join`; it has no contract of its own: `SplitJoin` states that it undoes `split` |
| Text.Split | src/components/sections/idp-generator-section.tsx:67 | splitting always yields at least one piece |
| Text.SplitJoin | src/components/sections/idp-generator-section.tsx:67 | joining the pieces with the separator gives the text back |
| Text.SplitPiecesFree | src/components/sections/idp-generator-section.tsx:69 | no piece contains the separator |
| Text.SplitLeftmost | src/components/sections/idp-generator-section.tsx:69 | matching is leftmost and without overlap: for every piece but the last, the piece followed by all but the last character of the separator does not contain the separator |
| Text.ContainsIffSeveralPieces | src/components/sections/idp-generator-section.tsx:68-69 | a text includes the separator exactly when splitting on it yields at least two pieces |
| Text.SplitCount | src/components/sections/idp-generator-section.tsx:67 | splitting on one character yields one more piece than there are occurrences of it |
| Text.TrimStart | src/components/ai/assistant.tsx:94 | the result is a suffix; everything dropped is whitespace; the result is empty or starts with a non-whitespace character |
| Text.TrimEnd | src/components/ai/assistant.tsx:94 | the result is a prefix; everything dropped is whitespace; the result is empty or ends with a non-whitespace character |
| Text.Trim | src/components/ai/assistant.tsx:94 | `trim()`; it has no contract of its own: `TrimStart`, `TrimEnd` and `TrimEmptyIffBlank` state it |
| Text.TrimEmptyIffBlank | src/components/ai/assistant.tsx:94 | trimming leaves nothing exactly when the input is all whitespace |
| Assistant.ToHistory | src/components/ai/assistant.tsx:102-105 | the history has one entry per message, in order; each entry keeps its role and wraps the content as a single text part |
| Assistant.HistoryRoundTrip | src/components/ai/assistant.tsx:102-105 | the log can be read back from the history, so the conversion loses nothing |
| Assistant.ReplyText | src/components/ai/assistant.tsx:108-120 | the model message is never empty: it is the response when that is non-empty, otherwise the fixed apology |
| Assistant.ChatAssistant.constructor | src/components/ai/assistant.tsx:66-68 | the log and input start empty and nothing is loading |
| Assistant.ChatAssistant.SetInput | src/components/ai/assistant.tsx:206 | typing replaces the input |
| Assistant.ChatAssistant.Submit | src/components/ai/assistant.tsx:92-107 | blank input or a pending request changes nothing. Otherwise the input is appended verbatim as a user message, the input is cleared and loading starts. The request carries the history of the earlier log and the submitted text. User and model turns keep alternating |
| Assistant.ChatAssistant.Settle | src/components/ai/assistant.tsx:108-123 | exactly one model message (the reply text) is appended, the input is kept and loading ends |
| Assistant.ChatAssistant.HandleSubmit | src/components/ai/assistant.tsx:92-124 | an accepted submission appends the user message and then one model message, clears the input and ends loading; a refused one changes nothing |
| Login.Collection | src/app/login/page.tsx:35-47 | the collection of each role; it has no contract of its own: `FirstMatchingRoleWins` and `NoRoleAssigned` state the order in which they are read |
| Login.Dashboard | src/app/login/page.tsx:37-49 | the dashboard of each role; it has no contract of its own: `FirstMatchingRoleWins` states which one a user is sent to |
| Login.Resolve | src/app/login/page.tsx:35-57 | each sign-in ends in exactly one of a redirect or a toast. The collections read are those of the roles in order. Every read before the last found nothing |
| Login.FailedReadShowsError | src/app/login/page.tsx:58-63 | when every earlier collection lacks the user and a read fails, that read is the last, nobody is redirected, and the failure's message is shown as a "Login Error" toast |
| Login.SignInSpec | src/app/login/page.tsx:30-63 | exactly one of a redirect or a toast; a failed sign-in reads no collection and shows its error as a "Login Error" toast |
| Login.FirstMatchingRoleWins | src/app/login/page.tsx:35-51 | a signed-in user goes to a role's dashboard exactly when that role's collection holds them and every earlier collection does not. So employee beats manager, and manager beats admin |
| Login.NoRoleAssigned | src/app/login/page.tsx:53-57 | a user found in no collection gets "No role assigned for this user." after all three reads, and no redirect |
| Login.LoginPage.constructor | src/app/login/page.tsx:18-20 | empty credentials, not loading, no effects yet |
| Login.LoginPage.HandleSignIn | src/app/login/page.tsx:27-67 | the collections read, the redirect and the toast appended are those of the sign-in specification; at most one redirect; loading ends in every outcome |
| Login.LoginPage.RouteByRole | src/app/login/page.tsx:34-57 | once signed in, the three sequential reads produce exactly the effects that resolution in priority order specifies |
| Validation.ReportExact | src/app/actions.ts:33-38 | a failed parse reports exactly the failing fields' messages, each once, in the order the schema declares the fields; the report is empty exactly when no field fails |
| Validation.ReportAll | src/components/idp/create-idp-dialog.tsx:29-37 | when every field fails, the report is every field's message in schema order |
| Signup.RoleOf | src/app/signup/page.tsx:45-52 | "employee", "manager" and "admin" name the three roles, and no other value names one |
| Signup.CollectionFor | src/app/signup/page.tsx:45-52 | a known role's collection is the one sign-in reads for that role; any other value gives the empty name |
| Signup.RouteFor | src/app/signup/page.tsx:62-68 | there is a route exactly when there is a collection, and it is the dashboard sign-in uses for that role |
| Signup.SignUpThenSignIn | src/app/signup/page.tsx:45-68 | a user whose only role document is the one sign-up wrote signs in to the dashboard sign-up sent them to |
| Signup.SignupPage.constructor | src/app/signup/page.tsx:19-25 | an empty form with the employee role, not loading |
| Signup.SignupPage.SetRole | src/app/signup/page.tsx:156 | choosing a role replaces it |
| Signup.SignupPage.HandleSignUp | src/app/signup/page.tsx:31-79 | if account creation fails: the error toast, and nothing stored or redirected. Otherwise the record holds the id, names and email (no password) and goes to the role's collection. A stored record brings "Account Created" and the redirect to the role's dashboard, if any. A failed write brings the error toast. The form is kept and loading ends |

## Left out

- The AI flows behind the generator and the chat assistant are not part of this model. They are oracles that return a value, return nothing, or throw.
- Firebase auth, document reads and writes, router navigation and toast display are external effects. They are oracle parameters or recorded sequences.
- `console.error` calls are not modelled.
- Dates: `new Date().toISOString()` and `endDate.toISOString()` become the same `Instant` value on both sides. The date-fns display formatting and the calendar widget are not modelled.
- zod checks are modelled only as minimum lengths and the end date's presence. Null or non-string form values, and the messages zod generates for them, are not modelled.
- String lengths are counted in characters, not UTF-16 code units. The two differ for characters outside the Basic Multilingual Plane.
- React state batching, functional updates and re-renders are not modelled. Each handler is a sequence of updates to its object.
- Assistant.ChatAssistant.HandleSubmit: the await splits `handleSubmit` into two steps, `Submit` and `Settle`. A second submission while loading is refused by `Submit`'s guard. The stale-closure case, where two submissions start before a re-render, is not modelled.
- Signup.SignupPage.HandleSignUp: for a role outside the three, the source builds a document reference with an empty collection name. The model passes that empty name to the write oracle, which decides the outcome, instead of modelling Firestore's path check.
- Login.LoginPage.RouteByRole: the three role lookups of `handleSignIn` are a separate method here, called after a successful sign-in. The source has them inline.
- `useClickOutside`, scrolling, the open/closed state of the chat card, show-password toggles and the auth guard hook are view state. They are not modelled.
- Dashboards, landing sections, charts and the My IDP page are not part of this model.
