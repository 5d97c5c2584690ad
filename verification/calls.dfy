/**
 Calls logged against a case. Each call carries an outcome; the outcome
 labels are the strings the application stores, and only "Reached patient"
 counts as having made contact with the patient.
 */
module Calls {

  /** The outcome recorded for one call. Outcomes other than the two the
      case logic distinguishes are kept with their stored label. */
  datatype CallStatus = ReachedPatient | LeftVoicemail | OtherOutcome(text: string)

  const ReachedPatientLabel: string := "Reached patient"
  const LeftVoicemailLabel: string := "Left voicemail"

  /** An outcome is well formed when an `OtherOutcome` does not carry one of
      the two labels that have their own constructor. */
  predicate WellFormed(c: CallStatus) {
    c.OtherOutcome? ==> c.text != ReachedPatientLabel && c.text != LeftVoicemailLabel
  }

  /** The label stored for an outcome. */
  function Label(c: CallStatus): (s: string)
    ensures c.ReachedPatient? ==> s == ReachedPatientLabel
    ensures c.LeftVoicemail? ==> s == LeftVoicemailLabel
    ensures WellFormed(c) ==> (s == ReachedPatientLabel <==> c.ReachedPatient?)
  {
    match c
    case ReachedPatient => ReachedPatientLabel
    case LeftVoicemail => LeftVoicemailLabel
    case OtherOutcome(l) => l
  }

  /** The outcome a stored label stands for. */
  function Parse(s: string): (c: CallStatus)
    ensures WellFormed(c)
    ensures c.ReachedPatient? <==> s == ReachedPatientLabel
    ensures c.LeftVoicemail? <==> s == LeftVoicemailLabel
  {
    if s == ReachedPatientLabel then ReachedPatient
    else if s == LeftVoicemailLabel then LeftVoicemail
    else OtherOutcome(s)
  }

  /** The outcomes a call can actually carry: each stored label stands for
      exactly one of them. */
  type Outcome = c: CallStatus | WellFormed(c) witness ReachedPatient

  /** Reading back a stored label gives the label that was stored. */
  lemma LabelParse(s: string)
    ensures Label(Parse(s)) == s
  {}

  /** Storing a well-formed outcome and reading it back gives the outcome. */
  lemma ParseLabel(c: CallStatus)
    requires WellFormed(c)
    ensures Parse(Label(c)) == c
  {}

  /** The outcomes of a sequence of stored labels, in order. */
  function ParseAll(labels: seq<string>): (calls: seq<Outcome>)
    ensures |calls| == |labels|
    ensures forall i :: 0 <= i < |calls| ==> Label(calls[i]) == labels[i]
  {
    seq(|labels|, i requires 0 <= i < |labels| => Parse(labels[i]))
  }

  /** True when some call reached the patient; an empty call list and calls
      that only left a voicemail do not count. */
  function ContactMade(calls: seq<Outcome>): (r: bool)
    ensures r <==> exists i :: 0 <= i < |calls| && calls[i].ReachedPatient?
    ensures r <==> exists i :: 0 <= i < |calls| && Label(calls[i]) == ReachedPatientLabel
  {
    if |calls| == 0 then false
    else if calls[0].ReachedPatient? then true
    else
      var rest := ContactMade(calls[1..]);
      assert rest ==> exists i :: 0 <= i < |calls| && calls[i].ReachedPatient? by {
        if rest {
          var j :| 0 <= j < |calls[1..]| && calls[1..][j].ReachedPatient?;
          assert calls[j + 1].ReachedPatient?;
        }
      }
      rest
  }

  /** Contact over a concatenation of call lists is contact in either part. */
  lemma {:induction false} ContactMadeAppend(a: seq<Outcome>, b: seq<Outcome>)
    ensures ContactMade(a + b) <==> ContactMade(a) || ContactMade(b)
  {
    if |a| == 0 {
      assert a + b == b;
    } else {
      assert (a + b)[1..] == a[1..] + b;
      ContactMadeAppend(a[1..], b);
    }
  }

  /** Logging one more call never takes back contact already made, and a call
      that did not reach the patient leaves the answer as it was. */
  lemma LogCall(calls: seq<Outcome>, c: Outcome)
    ensures ContactMade(calls) ==> ContactMade(calls + [c])
    ensures !c.ReachedPatient? ==> ContactMade(calls + [c]) == ContactMade(calls)
    ensures c.ReachedPatient? ==> ContactMade(calls + [c])
  {
    ContactMadeAppend(calls, [c]);
  }

  /** On stored labels, contact is made exactly when some label is
      "Reached patient". */
  lemma ContactMadeOnLabels(labels: seq<string>)
    ensures ContactMade(ParseAll(labels)) <==>
            exists i :: 0 <= i < |labels| && labels[i] == ReachedPatientLabel
  {}
}
