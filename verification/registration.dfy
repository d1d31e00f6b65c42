/**
 * The registration screen (src/UserRegistration.tsx): the six-field form, the required-field check
 * that replaces the error map on every submit, and how the registration service's answer is sorted
 * into a success, a submit error, or no visible effect.
 */
module Registration {
  import opened Wrappers
  import opened Js

  /** The five fields that must be non-empty; `address` is not among them. */
  const Required: seq<string> := ["firstName", "lastName", "emailId", "password", "userId"]

  /** `user[name]`, where a field the form never set reads as the empty string (both are falsy). */
  function Field(user: map<string, string>, name: string): string {
    if name in user then user[name] else ""
  }

  /** The message `validate` records for an empty required field. */
  function RequiredMessage(name: string): string {
    if name == "firstName" then "First name is required"
    else if name == "lastName" then "Last name is required"
    else if name == "emailId" then "Email id is required"
    else if name == "password" then "Password is required"
    else "User id is required"
  }

  /** The error map `validate` builds: one entry for each empty required field, with its message. */
  function RequiredErrors(user: map<string, string>): (errors: map<string, Value>)
    ensures forall name :: name in errors <==> name in Required && Field(user, name) == ""
    ensures forall name :: name in errors ==> errors[name] == Str(RequiredMessage(name))
  {
    map name | name in Required && Field(user, name) == "" :: Str(RequiredMessage(name))
  }

  /** The five required fields, spelled out. */
  predicate AllRequiredPresent(user: map<string, string>) {
    && Field(user, "firstName") != "" && Field(user, "lastName") != "" && Field(user, "emailId") != ""
    && Field(user, "password") != "" && Field(user, "userId") != ""
  }

  /** An empty field among the five gets an entry, so a non-empty map means a missing field. */
  lemma {:induction false} MissingFieldReported(user: map<string, string>)
    requires !AllRequiredPresent(user)
    ensures RequiredErrors(user) != map[]
  {
    var e := RequiredErrors(user);
    if Field(user, "firstName") == "" {
      assert "firstName" in e;
    } else if Field(user, "lastName") == "" {
      assert "lastName" in e;
    } else if Field(user, "emailId") == "" {
      assert "emailId" in e;
    } else if Field(user, "password") == "" {
      assert "password" in e;
    } else {
      assert "userId" in e;
    }
  }

  /** With the five fields filled in there is no entry at all. */
  lemma NoErrorWhenComplete(user: map<string, string>)
    requires AllRequiredPresent(user)
    ensures RequiredErrors(user) == map[]
  {
  }

  /** The check passes exactly when the five required fields are all non-empty. */
  lemma RequiredErrorsEmpty(user: map<string, string>)
    ensures RequiredErrors(user) == map[] <==> AllRequiredPresent(user)
  {
    if AllRequiredPresent(user) {
      NoErrorWhenComplete(user);
    } else {
      MissingFieldReported(user);
    }
  }

  /** The address is never required, and `validate` never sets the submit entry. */
  lemma AddressNeverRequired(user: map<string, string>)
    ensures "address" !in RequiredErrors(user)
    ensures "submit" !in RequiredErrors(user)
  {
  }

  /** How the registration request ended. `body` is `None` when reading the body as JSON throws. */
  datatype RegistrationResponse =
    | Answered(ok: bool, status: int, contentType: Value, body: Option<Record>)
    | Unreachable

  datatype SubmitOutcome =
      /** Validation failed, so no request was sent. */
    | NotSent
      /** The success alert and toast, then navigation to `/login`. */
    | Registered
      /** An ok answer that is neither JSON nor status 200: nothing visible happens. */
    | NoEffect
      /** The error map becomes `{ submit: message }`. */
    | SubmitError(message: Value)

  const NetworkErrorMessage := "Network error. Please try again."

  /** `contentType && contentType.includes('application/json')`. */
  predicate IsJson(contentType: Value) {
    Truthy(contentType) && contentType.Str? && Contains(contentType.s, "application/json")
  }

  /** The classification of an answer to a request that was sent. */
  function Classify(response: RegistrationResponse): (o: SubmitOutcome)
    ensures o != NotSent
    ensures o == Registered <==> response.Answered? && response.ok && !IsJson(response.contentType) && response.status == 200
    ensures o == NoEffect <==> response.Answered? && response.ok && !IsJson(response.contentType) && response.status != 200
    ensures response.Answered? && !response.ok && response.body.Some? ==>
              o == SubmitError(if Truthy(Get(response.body.value, "message")) then Get(response.body.value, "message")
                               else Str("Registration failed"))
    ensures response.Answered? && response.ok && IsJson(response.contentType) && response.body.Some? ==>
              o == SubmitError(Get(response.body.value, "message"))
    ensures response.Answered? && response.body.None? && (!response.ok || IsJson(response.contentType)) ==>
              o == SubmitError(Str(NetworkErrorMessage))
    ensures response.Unreachable? ==> o == SubmitError(Str(NetworkErrorMessage))
  {
    match response
    case Unreachable => SubmitError(Str(NetworkErrorMessage))
    case Answered(ok, status, contentType, body) =>
      if ok then
        if IsJson(contentType) then
          if body.Some? then SubmitError(Get(body.value, "message")) else SubmitError(Str(NetworkErrorMessage))
        else if status == 200 then Registered
        else NoEffect
      else if body.Some? then
        var message := Get(body.value, "message");
        SubmitError(if Truthy(message) then message else Str("Registration failed"))
      else SubmitError(Str(NetworkErrorMessage))
  }

  /** A refusal or a failure always shows a non-empty message; only the ok-with-JSON path can show an empty one. */
  lemma FailureMessageShown(response: RegistrationResponse)
    requires response.Unreachable? || !response.ok
    ensures Classify(response).SubmitError? && Truthy(Classify(response).message)
  {
  }

  /** The map built field by field is the one `RequiredErrors` describes. */
  lemma SameErrors(user: map<string, string>, built: map<string, Value>)
    requires forall name :: name in built <==>
               (name == "firstName" || name == "lastName" || name == "emailId" || name == "password" ||
                name == "userId") && Field(user, name) == ""
    requires forall name :: name in built ==> built[name] == Str(RequiredMessage(name))
    ensures built == RequiredErrors(user)
  {
    assert forall name :: name in Required <==>
             name == "firstName" || name == "lastName" || name == "emailId" || name == "password" || name == "userId";
  }

  class RegistrationForm {
    var user: map<string, string>
    var errors: map<string, Value>

    constructor ()
      ensures user == map["firstName" := "", "lastName" := "", "address" := "", "emailId" := "",
                          "password" := "", "userId" := ""]
      ensures errors == map[]
    {
      user := map["firstName" := "", "lastName" := "", "address" := "", "emailId" := "",
                  "password" := "", "userId" := ""];
      errors := map[];
    }

    /** An input's change event: only the field the input names changes. */
    method HandleChange(name: string, value: string)
      modifies this
      ensures user == old(user)[name := value]
      ensures errors == old(errors)
    {
      user := user[name := value];
    }

    /**
     * `validate`: builds a fresh error map field by field and replaces the old one with it, so errors
     * from an earlier submit never survive; passes when the new map is empty.
     */
    method Validate() returns (valid: bool)
      modifies this
      ensures errors == RequiredErrors(user)
      ensures valid <==> AllRequiredPresent(user)
      ensures user == old(user)
    {
      var newErrors: map<string, Value> := map[];
      if Field(user, "firstName") == "" {
        newErrors := newErrors["firstName" := Str("First name is required")];
      }
      if Field(user, "lastName") == "" {
        newErrors := newErrors["lastName" := Str("Last name is required")];
      }
      if Field(user, "emailId") == "" {
        newErrors := newErrors["emailId" := Str("Email id is required")];
      }
      if Field(user, "password") == "" {
        newErrors := newErrors["password" := Str("Password is required")];
      }
      if Field(user, "userId") == "" {
        newErrors := newErrors["userId" := Str("User id is required")];
      }
      SameErrors(user, newErrors);
      errors := newErrors;
      RequiredErrorsEmpty(user);
      // `Object.keys(newErrors).length === 0`
      valid := newErrors == map[];
    }

    /**
     * `handleSubmit`: no request when validation fails; otherwise `response` is the service's answer,
     * and a submit error replaces the whole error map.
     */
    method HandleSubmit(response: RegistrationResponse) returns (outcome: SubmitOutcome)
      modifies this
      ensures AllRequiredPresent(user) ==> outcome == Classify(response)
      ensures !AllRequiredPresent(user) ==> outcome == NotSent
      ensures outcome.SubmitError? ==> errors == map["submit" := outcome.message]
      ensures !outcome.SubmitError? ==> errors == RequiredErrors(user)
      ensures user == old(user)
    {
      var valid := Validate();
      if !valid {
        return NotSent;
      }
      outcome := Classify(response);
      if outcome.SubmitError? {
        errors := map["submit" := outcome.message];
      }
    }
  }
}
