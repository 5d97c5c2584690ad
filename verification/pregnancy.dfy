/**
 The Pregnancy case record: a tracked patient-support episode. A case knows
 the day of the first call, the appointment day if one is booked, whether a
 pledge was sent, whether the case was resolved without the fund's help, the
 user who created it, and the outcomes of the calls logged against it.

 Dates are day numbers: a later day has a larger number.
 */
module Pregnancy {
  import opened Optional
  import opened Calls

  type Day = int
  type UserId = nat

  datatype Case = Case(
    initialCallDate: Option<Day>,
    appointmentDate: Option<Day>,
    pledgeSent: bool,
    resolvedWithoutDcaf: bool,
    createdBy: Option<UserId>,
    calls: seq<Outcome>
  )


  /** Record validation: the first-call day and the creator are required, and
      a booked appointment may not come before the first call. The contract
      says nothing about an appointment on the very day of the first call. */
  predicate Valid(c: Case)
    ensures Valid(c) ==> c.initialCallDate.Some? && c.createdBy.Some?
    ensures Valid(c) && c.appointmentDate.Some? ==>
              c.initialCallDate.value <= c.appointmentDate.value
    ensures (&& c.initialCallDate.Some?
             && c.createdBy.Some?
             && (c.appointmentDate.None? || c.initialCallDate.value < c.appointmentDate.value))
            ==> Valid(c)
  {
    && c.initialCallDate.Some?
    && c.createdBy.Some?
    && (c.appointmentDate.Some? ==> !(c.appointmentDate.value < c.initialCallDate.value))
  }

  /** The five statuses a case can be in. */
  datatype Status = NoContactMade | NeedsAppointment | Fundraising | SentPledge | ResolvedWithoutDcaf

  /** The display string of each status. */
  function StatusLabel(s: Status): string
  {
    match s
    case NoContactMade => "No Contact Made"
    case NeedsAppointment => "Needs Appointment"
    case Fundraising => "Fundraising"
    case SentPledge => "Sent Pledge"
    case ResolvedWithoutDcaf => "Resolved Without DCAF"
  }

  /** Different statuses show different strings. */
  lemma StatusLabelInjective(s: Status, t: Status)
    ensures StatusLabel(s) == StatusLabel(t) ==> s == t
  {}

  /** The precedence of a status; a higher rank wins. The tests set one flag
      at a time, so this ranking is an assumption of the model. */
  function Rank(s: Status): nat
  {
    match s
    case NoContactMade => 0
    case NeedsAppointment => 1
    case Fundraising => 2
    case SentPledge => 3
    case ResolvedWithoutDcaf => 4
  }

  /** Whether the condition a status stands for holds of a case. */
  predicate Applies(s: Status, c: Case)
  {
    match s
    case NoContactMade => true
    case NeedsAppointment => ContactMade(c.calls)
    case Fundraising => c.appointmentDate.Some?
    case SentPledge => c.pledgeSent
    case ResolvedWithoutDcaf => c.resolvedWithoutDcaf
  }

  /** The status of a case: of the statuses whose condition holds, the one of
      highest precedence. */
  function StatusOf(c: Case): (r: Status)
    ensures Applies(r, c)
    ensures forall s :: Applies(s, c) ==> Rank(s) <= Rank(r)
  {
    if c.resolvedWithoutDcaf then ResolvedWithoutDcaf
    else if c.pledgeSent then SentPledge
    else if c.appointmentDate.Some? then Fundraising
    else if ContactMade(c.calls) then NeedsAppointment
    else NoContactMade
  }

  /** The case as first created by a user: a first-call day and a creator,
      nothing booked, no flags, no calls. Such a case is valid, has made no
      contact, and is in the lowest status. */
  function NewCase(initial: Day, creator: UserId): (c: Case)
    ensures Valid(c)
    ensures !ContactMade(c.calls)
    ensures StatusOf(c) == NoContactMade
  {
    Case(Some(initial), None, false, false, Some(creator), [])
  }

  /** The status is the only applicable status of its rank, so the
      highest-precedence description above picks exactly one. */
  lemma StatusUnique(c: Case, s: Status)
    requires Applies(s, c)
    requires forall t :: Applies(t, c) ==> Rank(t) <= Rank(s)
    ensures s == StatusOf(c)
  {}

  /** Logging a call never moves a case back to a lower status. */
  lemma LogCallKeepsProgress(c: Case, call: Outcome)
    ensures Rank(StatusOf(c)) <= Rank(StatusOf(c.(calls := c.calls + [call])))
  {
    LogCall(c.calls, call);
  }

  /** Logging a call changes the status only by moving a case out of
      "No Contact Made", and only when the call reached the patient. */
  lemma LogCallStatus(c: Case, call: Outcome)
    ensures var d := c.(calls := c.calls + [call]);
            StatusOf(d) == StatusOf(c) ||
            (call.ReachedPatient? && StatusOf(c) == NoContactMade && StatusOf(d) == NeedsAppointment)
  {
    LogCall(c.calls, call);
  }
}
