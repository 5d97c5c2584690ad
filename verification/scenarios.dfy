/**
 The situations the Pregnancy model's test suite sets up, each stated as a
 lemma over the model. Where the tests use one concrete date or creator, the
 lemmas quantify over all of them. Calls are logged with the outcome label
 the tests store.
 */
module PregnancyScenarios {
  import opened Optional
  import opened Calls
  import opened Pregnancy

  /** A freshly created case is valid. */
  lemma NewCaseValid(initial: Day, creator: UserId)
    ensures Valid(NewCase(initial, creator))
  {}

  /** Clearing either required field makes any case invalid. */
  lemma RequiredFields(c: Case)
    ensures !Valid(c.(initialCallDate := None))
    ensures !Valid(c.(createdBy := None))
  {}

  /** With the first call on day `initial`: an appointment before it makes
      the case invalid, and clearing the appointment or booking it after the
      first call makes it valid again. */
  lemma AppointmentAfterInitialCall(c: Case, initial: Day, earlier: Day, later: Day)
    requires c.createdBy.Some?
    requires earlier < initial < later
    ensures !Valid(c.(initialCallDate := Some(initial), appointmentDate := Some(earlier)))
    ensures Valid(c.(initialCallDate := Some(initial), appointmentDate := None))
    ensures Valid(c.(initialCallDate := Some(initial), appointmentDate := Some(later)))
  {}

  /** A new case with no calls has made no contact and shows "No Contact Made". */
  lemma NoCallsNoContact(initial: Day, creator: UserId)
    ensures !ContactMade(NewCase(initial, creator).calls)
    ensures StatusOf(NewCase(initial, creator)) == NoContactMade
  {}

  /** A voicemail is not contact: the case still shows "No Contact Made". */
  lemma VoicemailNoContact(initial: Day, creator: UserId)
    ensures var c := NewCase(initial, creator).(calls := ParseAll(["Left voicemail"]));
            !ContactMade(c.calls) && StatusOf(c) == NoContactMade
  {}

  /** Reaching the patient is contact: the case shows "Needs Appointment". */
  lemma ReachedNeedsAppointment(initial: Day, creator: UserId)
    ensures var c := NewCase(initial, creator).(calls := ParseAll(["Reached patient"]));
            ContactMade(c.calls) && StatusOf(c) == NeedsAppointment
  {}

  /** Booking an appointment moves a new case to "Fundraising", whatever
      calls have been logged. */
  lemma AppointmentFundraising(initial: Day, creator: UserId, appointment: Day, calls: seq<Outcome>)
    ensures StatusOf(NewCase(initial, creator).(appointmentDate := Some(appointment))) == Fundraising
    ensures StatusOf(NewCase(initial, creator).(appointmentDate := Some(appointment), calls := calls))
            == Fundraising
  {}

  /** Sending a pledge moves a new case to "Sent Pledge". */
  lemma PledgeSent(initial: Day, creator: UserId)
    ensures StatusOf(NewCase(initial, creator).(pledgeSent := true)) == SentPledge
  {}

  /** Resolving a case without the fund moves it to "Resolved Without DCAF". */
  lemma Resolved(initial: Day, creator: UserId)
    ensures StatusOf(NewCase(initial, creator).(resolvedWithoutDcaf := true)) == ResolvedWithoutDcaf
  {}
}
