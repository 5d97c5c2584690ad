# Pregnancy case model

A Dafny model of the `Pregnancy` case record of the DCAF case-management
application: the record a patient-support fund keeps for each pregnancy it
helps with. The rules are rebuilt from the record's test suite,
test/models/pregnancy_test.rb; the class's code itself is not modelled. It covers four small, pure
pieces of business logic:

- **validation** (`valid?`): a case needs an initial call date and a
  creating user, and a booked appointment may not come before the first call;
- **status** (`status`): each case is in exactly one of "No Contact Made",
  "Needs Appointment", "Fundraising", "Sent Pledge" and
  "Resolved Without DCAF";
- **contact made** (`contact_made?`): some logged call reached the patient;
- **note display text** (`most_recent_note_display_text`): the first 44
  characters of the note's text.

Modules:

- `Optional` (option.dfy) holds `Option`, which stands for a field that may be nil.
- `Calls` (calls.dfy) holds call outcomes, their stored labels and `ContactMade`. A case's calls have type `Outcome`: outcomes whose stored label determines them, so a call stored as "Reached patient" always counts as contact.
- `Notes` (notes.dfy) holds `DisplayText` and the joined `1..100` note text the tests build.
- `Pregnancy` (pregnancy.dfy) holds the `Case` record, `Valid`, `Status` and `StatusOf`.
- `PregnancyScenarios` (scenarios.dfy) has one lemma per test scenario, quantified over
  every date and creator where the tests pick one.

Dates are day numbers, where a later day has a larger number. Users are
natural-number ids. The tests only ever set one status flag at a time, so they
do not fix how the flags rank against each other. The model **assumes** this
order: resolved, then pledge sent, then appointment booked, then contact made,
then the default. `Pregnancy.Rank` encodes it. `StatusOf` is specified as the
highest-ranked status whose condition holds.

## Model

| member | source | states |
|---|---|---|
| Pregnancy.NewCase | test/models/pregnancy_test.rb:9-12 | a case as the factory creates it is valid, has made no contact, and has the status "No Contact Made" (the facts lines 17, 60 and 94 assert of it) |
| Pregnancy.Valid | test/models/pregnancy_test.rb:15-35 | a valid case has an initial call date and a creator, and its appointment, if any, is not before the first call; a case with both fields and no appointment, or an appointment after the first call, is valid |
| PregnancyScenarios.NewCaseValid | test/models/pregnancy_test.rb:16-18 | a freshly built case is valid, for every first-call date and creator |
| PregnancyScenarios.RequiredFields | test/models/pregnancy_test.rb:20-25 | setting `initial_call_date` or `created_by` to nil makes any case invalid |
| PregnancyScenarios.AppointmentAfterInitialCall | test/models/pregnancy_test.rb:27-35 | with a creator present, an appointment before the first call invalidates the case; a nil appointment or one after the first call leaves it valid |
| Pregnancy.StatusOf | test/models/pregnancy_test.rb:58-90 | the status's condition holds of the case, and no status of higher precedence has its condition hold |
| Pregnancy.StatusUnique | test/models/pregnancy_test.rb:58-90 | exactly one status is the applicable one of highest precedence, so the status is determined |
| Pregnancy.StatusLabelInjective | test/models/pregnancy_test.rb:60-88 | different statuses show different status strings |
| Pregnancy.LogCallKeepsProgress | test/models/pregnancy_test.rb:63-71 | logging another call never lowers a case's status |
| Pregnancy.LogCallStatus | test/models/pregnancy_test.rb:63-71 | logging a call leaves the status unchanged, except that a call that reached the patient moves "No Contact Made" to "Needs Appointment" |
| PregnancyScenarios.NoCallsNoContact | test/models/pregnancy_test.rb:59-61 | a new case with no calls has no contact made and the status "No Contact Made" |
| PregnancyScenarios.VoicemailNoContact | test/models/pregnancy_test.rb:63-66 | a new case whose only call is "Left voicemail" has no contact made and the status "No Contact Made" |
| PregnancyScenarios.ReachedNeedsAppointment | test/models/pregnancy_test.rb:68-71 | a new case whose only call is "Reached patient" has contact made and the status "Needs Appointment" |
| PregnancyScenarios.AppointmentFundraising | test/models/pregnancy_test.rb:73-76 | a new case with an appointment date has the status "Fundraising", whatever calls are logged |
| PregnancyScenarios.PledgeSent | test/models/pregnancy_test.rb:78-81 | a new case with `pledge_sent` set has the status "Sent Pledge" |
| PregnancyScenarios.Resolved | test/models/pregnancy_test.rb:86-89 | a new case with `resolved_without_dcaf` set has the status "Resolved Without DCAF" |
| Calls.Label | test/models/pregnancy_test.rb:64-69 | "Reached patient" is the label of exactly the reaching outcome among well-formed outcomes; a voicemail is stored as "Left voicemail" |
| Calls.Parse | test/models/pregnancy_test.rb:64-69 | a stored label reads back as a well-formed outcome; it reaches the patient exactly for "Reached patient" and is a voicemail exactly for "Left voicemail" |
| Calls.LabelParse | test/models/pregnancy_test.rb:64-69 | reading a label and storing it again gives back the same label |
| Calls.ParseLabel | test/models/pregnancy_test.rb:64-69 | storing a well-formed outcome and reading it back gives the same outcome |
| Calls.ParseAll | test/models/pregnancy_test.rb:64-69 | a list of stored labels reads back as a list of well-formed outcomes of the same length, whose labels are the stored labels in order |
| Calls.ContactMade | test/models/pregnancy_test.rb:92-106 | true exactly when some call in the list reached the patient, which is exactly when some call's stored label is "Reached patient"; so an empty list and a voicemail-only list give false |
| Calls.ContactMadeOnLabels | test/models/pregnancy_test.rb:97-105 | on stored labels, contact is made exactly when some label is "Reached patient" |
| Calls.ContactMadeAppend | test/models/pregnancy_test.rb:92-106 | contact over two call lists joined is contact in either list |
| Calls.LogCall | test/models/pregnancy_test.rb:97-105 | logging a call keeps any contact already made; a call that did not reach the patient changes nothing, and one that did makes contact |
| Notes.DisplayText | test/models/pregnancy_test.rb:47-55 | the display text is a prefix of the note of length at most 44, exactly 44 for a note of 44 or more characters, and the whole note when it is shorter |
| Notes.DisplayTextIsLongestPrefix | test/models/pregnancy_test.rb:52-55 | every prefix of the note of at most 44 characters is a prefix of the display text |
| Notes.DisplayTextIdempotent | test/models/pregnancy_test.rb:52-55 | shortening a display text again changes nothing |
| Notes.DecimalString | test/models/pregnancy_test.rb:49 | the decimal spelling of a number is non-empty, made of digits, and starts with '0' only for zero |
| Notes.DecimalStringValue | test/models/pregnancy_test.rb:49 | the digits of the spelling denote the number spelled |
| Notes.JoinedRangeLength | test/models/pregnancy_test.rb:49 | the joined spellings of `lo..hi` have at least one character per number |
| Notes.HundredNumbersDisplay | test/models/pregnancy_test.rb:49-55 | the note made of 1 to 100 joined displays as exactly 44 characters beginning with "1234" |

## Left out

- Pregnancy.Valid: the contract says nothing about an appointment on the same day as the first call, because no test asserts that case. The definition treats it as valid ("not before").
- `pledge_identifier`: only one example is given (line "DC" and phone "111-333-5555" give "D3-5555"), and it is marked as pending. The rule cannot be recovered from one example.
- The "Pledge Paid" status: its test is commented out, so it has no behaviour to model.
- Timestamps, history tracking and userstamps: these come from the persistence framework, not from this repository's logic.
- Factory and database setup, and the patient's phone fields: these are persistence. `NewCase` stands for the factory default.
- Choosing the most recent note: this is a database query. `DisplayText` takes the note's text as input, and a case with no note is not modelled.
- The `Pregnancy` model class itself is not part of this model, so every rule here comes from what the tests assert.
- Parsing date strings such as "2016-06-01": dates are day numbers.
- The order in which the status flags rank against each other is an assumption (see above), because the tests set one flag at a time.
