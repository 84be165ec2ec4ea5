/** The add-session state of the dashboard: the record being edited, the error shown,
    whether the form is open, the pasted JSON text, and the parent's logged-in flag,
    with the handlers that update them. */
module AddSession {
  import opened Wrappers
  import opened JsValues
  import opened SleepForm

  const RequiredFieldsMessage: string := "Please fill in all required fields"
  const AddFailedMessage: string := "Error adding sleep data"
  const InvalidJsonMessage: string := "Invalid JSON format"

  /** An HTTP error response: its status and the `error` text of its body ("" when the
      body carries none). */
  datatype ErrorResponse = ErrorResponse(status: int, error: string)

  /** How the POST ended: accepted, or rejected with or without a response. */
  datatype PostOutcome = Accepted | Rejected(response: Option<ErrorResponse>)

  /** `err.response?.data.error || 'Error adding sleep data'` */
  function FailureMessage(response: Option<ErrorResponse>): (m: string)
    ensures m != ""
    ensures response.Some? && response.value.error != "" ==> m == response.value.error
    ensures response.None? || response.value.error == "" ==> m == AddFailedMessage
  {
    if response.Some? && response.value.error != "" then response.value.error else AddFailedMessage
  }

  predicate SessionEnded(outcome: PostOutcome) {
    outcome.Rejected? && outcome.response.Some? && outcome.response.value.status == 401
  }

  /** Text holding nothing but JSON whitespace, which is not a JSON text (RFC 8259,
      section 2, requires a value), so JSON.parse throws on it. */
  predicate IsBlank(text: string) {
    forall i :: 0 <= i < |text| ==> IsSpace(text[i])
  }

  /** The record shapes the handlers can produce: no `sleep_metrics` group at all (the
      flat record of the JSON handler, possibly edited), or the untouched empty one (the
      structured record of mount, success and close, possibly with flat keys added by
      the inputs, which never write inside the group). */
  predicate ReachableShape(record: Record) {
    "sleep_metrics" !in record || record["sleep_metrics"] == Obj(EmptyGroup(SleepMetricKeys))
  }

  /** No record the handlers can produce is ever posted: the flat one makes the
      required check throw and the structured one always lacks required fields. */
  lemma ReachableShapeNeverPosts(record: Record)
    requires ReachableShape(record)
    ensures PlanSubmission(record) == Thrown || PlanSubmission(record) == MissingRequired
  {
    if "sleep_metrics" in record {
      assert "total_sleep_duration" in RequiredKeys;
      assert !Truthy(At(SleepGroup(record), "total_sleep_duration"));
    }
  }

  class AddSleepSession {
    var newSleep: Record
    var error: string
    var showActivityForm: bool
    var jsonInput: string
    var loggedIn: bool

    /** The dashboard as mounted for a logged-in user. */
    constructor ()
      ensures newSleep == InitialRecord() && error == "" && !showActivityForm
      ensures jsonInput == "" && loggedIn
      ensures ReachableShape(newSleep)
    {
      newSleep := InitialRecord();
      error := "";
      showActivityForm := false;
      jsonInput := "";
      loggedIn := true;
    }

    /** The "Add Sleep Activity" button. */
    method OpenForm()
      modifies this
      ensures showActivityForm
      ensures newSleep == old(newSleep) && error == old(error)
      ensures jsonInput == old(jsonInput) && loggedIn == old(loggedIn)
    {
      showActivityForm := true;
    }

    /** A change of the JSON text area. `parsed` is what JSON.parse(text) returned,
        None when it threw. */
    method HandleJsonInputChange(text: string, parsed: Option<JsValue>)
      requires IsBlank(text) ==> parsed == None
      modifies this
      ensures jsonInput == text
      ensures parsed.None? || Nullish(parsed.value) ==>
        newSleep == old(newSleep) && error == InvalidJsonMessage
      ensures parsed.Some? && !Nullish(parsed.value) ==>
        newSleep == FlatRecordOf(parsed.value).value && error == ""
      ensures showActivityForm == old(showActivityForm) && loggedIn == old(loggedIn)
      ensures old(ReachableShape(newSleep)) ==> ReachableShape(newSleep)
    {
      jsonInput := text;
      if parsed.None? {
        error := InvalidJsonMessage;
      } else {
        var flat := FlatRecordOf(parsed.value);
        if flat.Raise? {
          error := InvalidJsonMessage;
        } else {
          newSleep := flat.value;
          error := "";
        }
      }
    }

    /** A change of one of the form's thirteen inputs: `{...newSleep, key: value}`. */
    method EditField(key: string, value: string)
      requires key in FlatKeys
      modifies this
      ensures newSleep == old(newSleep)[key := Str(value)]
      ensures forall k :: k in old(newSleep) && k != key ==> k in newSleep && newSleep[k] == old(newSleep)[k]
      ensures newSleep.Keys == old(newSleep).Keys + {key}
      ensures error == old(error) && showActivityForm == old(showActivityForm)
      ensures jsonInput == old(jsonInput) && loggedIn == old(loggedIn)
      ensures old(ReachableShape(newSleep)) ==> ReachableShape(newSleep)
    {
      newSleep := newSleep[key := Str(value)];
    }

    /** The form's submit handler. `outcome` is how the POST would end; it is consulted
        only when a payload is posted, which is then returned. */
    method HandleAddSleep(outcome: PostOutcome) returns (posted: Option<SleepPayload>)
      modifies this
      ensures var plan := PlanSubmission(old(newSleep));
        && (plan.Post? <==> posted.Some?)
        && (plan.Post? ==> posted.value == plan.payload)
      ensures PlanSubmission(old(newSleep)) == Thrown ==>
        newSleep == old(newSleep) && error == old(error) && showActivityForm == old(showActivityForm)
        && jsonInput == old(jsonInput) && loggedIn == old(loggedIn)
      ensures PlanSubmission(old(newSleep)) == MissingRequired ==>
        newSleep == old(newSleep) && error == RequiredFieldsMessage
        && showActivityForm == old(showActivityForm) && jsonInput == old(jsonInput) && loggedIn == old(loggedIn)
      ensures posted.Some? && outcome.Accepted? ==>
        newSleep == InitialRecord() && error == "" && !showActivityForm && jsonInput == ""
        && loggedIn == old(loggedIn)
      ensures posted.Some? && outcome.Rejected? ==>
        newSleep == old(newSleep) && jsonInput == old(jsonInput) && showActivityForm == old(showActivityForm)
        && error == FailureMessage(outcome.response)
        && loggedIn == (old(loggedIn) && !SessionEnded(outcome))
      ensures old(ReachableShape(newSleep)) ==> posted == None && ReachableShape(newSleep)
    {
      posted := None;
      var plan := PlanSubmission(newSleep);
      if old(ReachableShape(newSleep)) {
        ReachableShapeNeverPosts(newSleep);
      }
      match plan
      case Thrown =>
      case MissingRequired =>
        error := RequiredFieldsMessage;
      case Post(payload) =>
        posted := Some(payload);
        if outcome.Accepted? {
          newSleep := InitialRecord();
          error := "";
          showActivityForm := false;
          jsonInput := "";
        } else {
          error := FailureMessage(outcome.response);
          if SessionEnded(outcome) {
            loggedIn := false;
          }
        }
    }

    /** The form's close handler. */
    method HandleClose()
      modifies this
      ensures !showActivityForm && jsonInput == "" && error == ""
      ensures newSleep == CloseResetRecord() && newSleep != InitialRecord()
      ensures loggedIn == old(loggedIn)
      ensures ReachableShape(newSleep)
    {
      showActivityForm := false;
      jsonInput := "";
      newSleep := CloseResetRecord();
      error := "";
      CloseResetDiffersFromInitial();
    }
  }
}
