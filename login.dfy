/**
 * The login page: username and password, a submit that posts them, and on
 * failure the server's `error` message or a fixed fallback.
 */
module Login {
  import opened Js
  import opened Http
  import opened Types
  import opened Storage
  import opened UserCodec
  import opened Auth
  import opened Routes

  const GenericError: string := "Invalid Username or Password"

  /** The body of the login request. */
  datatype LoginRequest = LoginRequest(username: string, password: string)

  /**
   * `err.response?.data?.error || fallback`: the server's `error` message when
   * there is a body holding a non-empty one, the fixed message otherwise.
   */
  function LoginErrorMessage(body: Option<ErrorObject>): (msg: string)
    ensures msg != ""
    ensures msg != GenericError ==> body.Some? && ErrorField("error", Text(msg)) in body.value
    ensures body.Some? && Lookup(body.value, "error").Some? && Lookup(body.value, "error").value.Text? ==>
      msg == OrElse(Some(Lookup(body.value, "error").value.text), GenericError)
    ensures body.None? || Lookup(body.value, "error").None? ==> msg == GenericError
  {
    match body
    case None => GenericError
    case Some(fields) =>
      match Lookup(fields, "error")
      case Some(Text(s)) => OrElse(Some(s), GenericError)
      case _ => GenericError
  }

  /** Only the `error` key is read: any other field can be added without effect. */
  lemma OtherKeysIgnored(fields: ErrorObject, extra: ErrorField)
    requires extra.key != "error"
    ensures LoginErrorMessage(Some(fields + [extra])) == LoginErrorMessage(Some(fields))
    ensures LoginErrorMessage(Some([extra] + fields)) == LoginErrorMessage(Some(fields))
  {
    LookupAppend(fields, extra, "error");
    assert ([extra] + fields)[1..] == fields;
  }

  /** Appending a field with another key does not change a lookup. */
  lemma {:induction false} LookupAppend(fields: ErrorObject, extra: ErrorField, key: string)
    requires extra.key != key
    ensures Lookup(fields + [extra], key) == Lookup(fields, key)
  {
    if fields != [] {
      assert (fields + [extra])[1..] == fields[1..] + [extra];
      LookupAppend(fields[1..], extra, key);
    }
  }

  /** The login page's state. */
  class LoginPage {
    var username: string
    var password: string
    var loading: bool
    var error: string

    constructor ()
      ensures username == "" && password == "" && !loading && error == ""
    {
      username, password := "", "";
      loading := false;
      error := "";
    }

    method EditUsername(value: string)
      modifies this`username
      ensures username == value
    {
      username := value;
    }

    method EditPassword(value: string)
      modifies this`password
      ensures password == value
    {
      password := value;
    }

    /**
     * Both inputs are `required`: the browser submits the form only when
     * neither is empty.
     */
    predicate Filled()
      reads this
    {
      username != "" && password != ""
    }

    /**
     * A submit attempt. With an empty input the browser's validation stops it
     * before `handleSubmit`; otherwise `handleSubmit` clears the error, sets
     * `loading` and posts the credentials. The submit button is disabled
     * while loading.
     */
    method Submit() returns (request: Option<LoginRequest>)
      modifies this`loading, this`error
      ensures old(loading) || !Filled() ==>
        request == None && loading == old(loading) && error == old(error)
      ensures !old(loading) && Filled() ==>
        request == Some(LoginRequest(username, password)) && loading && error == ""
      ensures request.Some? ==> request.value.username != "" && request.value.password != ""
    {
      if loading || !Filled() {
        request := None;
        return;
      }
      loading := true;
      error := "";
      request := Some(LoginRequest(username, password));
    }

    /**
     * The settled login request: on success the session is stored, the user
     * handed to the shell and the page navigates to the dashboard; on failure
     * only the message changes. Either way `loading` ends false.
     */
    method Settle(response: Response<AuthData>, store: LocalStorage)
      returns (notified: Option<User>, navigateTo: Option<string>)
      requires loading
      modifies this`loading, this`error, store
      ensures !loading
      ensures response.Ok? ==>
        && store.items == WithSession(old(store.items), response.data)
        && notified == Some(response.data.user) && navigateTo == Some(DashboardPath)
        && error == old(error)
      ensures response.Failed? ==>
        && store.items == old(store.items)
        && notified == None && navigateTo == None
        && error == LoginErrorMessage(response.body)
    {
      match response {
        case Ok(data) =>
          store.SetItem(TokenKey, data.token);
          store.SetItem(UserKey, Serialize(data.user));
          notified, navigateTo := Some(data.user), Some(DashboardPath);
        case Failed(body) =>
          error := LoginErrorMessage(body);
          notified, navigateTo := None, None;
      }
      loading := false;
    }
  }
}
