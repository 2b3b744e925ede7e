/**
 * The signup page: a four-field form, a submit that posts it, and on failure
 * the first message of the server's error object.
 */
module Signup {
  import opened Js
  import opened Http
  import opened Types
  import opened Storage
  import opened UserCodec
  import opened Auth

  const GenericError: string := "Signup failed. Please try again."

  /** The form state, which is also exactly the body of the signup request. */
  datatype SignupForm = SignupForm(fullName: string, email: string, regNumber: string, password: string)

  datatype FormField = FullName | Email | RegNumber | Password

  /**
   * What the page shows for one error value: a message as it is, a list of
   * messages by its first element; an empty list gives `undefined`.
   */
  function MessageOf(v: ErrorValue): (msg: Option<string>)
    ensures v.Text? ==> msg == Some(v.text)
    ensures v.Texts? ==> (msg.None? <==> v.texts == []) && (msg.Some? ==> msg.value == v.texts[0])
  {
    match v
    case Text(s) => Some(s)
    case Texts(xs) => if xs == [] then None else Some(xs[0])
  }

  /**
   * The message of a failed signup: the generic one without an error body,
   * with no key, or when the first key is the empty (falsy) string; otherwise
   * the message of the value under the first key.
   */
  function FirstErrorMessage(body: Option<ErrorObject>): (msg: Option<string>)
    ensures body.None? ==> msg == Some(GenericError)
    ensures body.Some? && body.value == [] ==> msg == Some(GenericError)
    ensures body.Some? && body.value != [] && body.value[0].key == "" ==> msg == Some(GenericError)
    ensures body.Some? && body.value != [] && body.value[0].key != "" ==>
      Lookup(body.value, body.value[0].key).Some? &&
      msg == MessageOf(Lookup(body.value, body.value[0].key).value)
  {
    match body
    case None => Some(GenericError)
    case Some(fields) =>
      if fields == [] || fields[0].key == "" then Some(GenericError)
      else MessageOf(fields[0].value)
  }

  /** Fields after the first one never change the message. */
  lemma OnlyFirstFieldMatters(first: ErrorField, rest1: ErrorObject, rest2: ErrorObject)
    ensures FirstErrorMessage(Some([first] + rest1)) == FirstErrorMessage(Some([first] + rest2))
  {
    assert ([first] + rest1)[0] == first && ([first] + rest2)[0] == first;
  }

  /**
   * A message is either the generic one or one the server sent under the
   * first key; the page shows nothing only when that value is an empty list.
   */
  lemma MessageFromFirstField(body: Option<ErrorObject>)
    ensures var msg := FirstErrorMessage(body);
      || msg == Some(GenericError)
      || (body.Some? && body.value != [] && msg == MessageOf(body.value[0].value))
    ensures FirstErrorMessage(body).None? <==>
      body.Some? && body.value != [] && body.value[0].key != "" && body.value[0].value == Texts([])
  {
  }

  /** The browser's constraint validation of the form: no empty field, an accepted email address. */
  predicate PassesValidation(f: SignupForm, emailAccepted: bool)
  {
    f.fullName != "" && f.email != "" && f.regNumber != "" && f.password != "" && emailAccepted
  }

  /** The signup page's state. `error` is `None` when it was set to `undefined`. */
  class SignupPage {
    var form: SignupForm
    var loading: bool
    var error: Option<string>

    constructor ()
      ensures form == SignupForm("", "", "", "") && !loading && error == Some("")
    {
      form := SignupForm("", "", "", "");
      loading := false;
      error := Some("");
    }

    /** Typing into one input replaces that field and no other. */
    method Edit(field: FormField, value: string)
      modifies this`form
      ensures field == FullName ==> form == old(form).(fullName := value)
      ensures field == Email ==> form == old(form).(email := value)
      ensures field == RegNumber ==> form == old(form).(regNumber := value)
      ensures field == Password ==> form == old(form).(password := value)
    {
      match field
      case FullName => form := form.(fullName := value);
      case Email => form := form.(email := value);
      case RegNumber => form := form.(regNumber := value);
      case Password => form := form.(password := value);
    }

    /** Whether the error banner is shown: only for a present, non-empty message. */
    predicate ShowsError(): (shown: bool)
      reads this
      ensures shown <==> error.Some? && error.value != ""
    {
      Truthy(error)
    }

    /**
     * A submit attempt. Every input is `required` and the email input has
     * type "email": the browser submits the form only when no field is empty
     * and it accepts the email address (`emailAccepted`, its own syntax check).
     * Otherwise `handleSubmit` clears the error, sets `loading` and posts the
     * form. The submit button is disabled while loading.
     */
    method Submit(emailAccepted: bool) returns (request: Option<SignupForm>)
      modifies this`loading, this`error
      ensures old(loading) || !PassesValidation(form, emailAccepted) ==>
        request == None && loading == old(loading) && error == old(error)
      ensures !old(loading) && PassesValidation(form, emailAccepted) ==>
        request == Some(form) && loading && error == Some("")
      ensures request.Some? ==> !ShowsError() && request.value.email != "" && request.value.password != ""
    {
      if loading || !PassesValidation(form, emailAccepted) {
        request := None;
        return;
      }
      loading := true;
      error := Some("");
      request := Some(form);
    }

    /**
     * The settled signup request: on success the session is stored and the
     * user handed to the shell, on failure only the message changes; either
     * way `loading` ends false.
     */
    method Settle(response: Response<AuthData>, store: LocalStorage) returns (notified: Option<User>)
      requires loading
      modifies this`loading, this`error, store
      ensures !loading
      ensures response.Ok? ==>
        && store.items == WithSession(old(store.items), response.data)
        && notified == Some(response.data.user) && error == old(error)
      ensures response.Failed? ==>
        && store.items == old(store.items)
        && notified == None && error == FirstErrorMessage(response.body)
    {
      match response {
        case Ok(data) =>
          store.SetItem(TokenKey, data.token);
          store.SetItem(UserKey, Serialize(data.user));
          notified := Some(data.user);
        case Failed(body) =>
          error := FirstErrorMessage(body);
          notified := None;
      }
      loading := false;
    }
  }
}
