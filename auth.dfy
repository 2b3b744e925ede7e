/**
 * What both sign-in pages share: the body of a successful login or signup
 * answer, and the two store entries that record the signed-in session.
 */
module Auth {
  import opened Js
  import opened Types
  import opened Storage
  import opened UserCodec

  /** The data of a successful login or signup answer. */
  datatype AuthData = AuthData(token: string, user: User)

  /**
   * The store after a sign-in: "token" holds the token, "user" the serialised
   * user, and every other entry is kept.
   */
  function WithSession(items: map<string, string>, data: AuthData): (r: map<string, string>)
    ensures TokenKey in r && r[TokenKey] == data.token
    ensures UserKey in r
    ensures r.Keys == items.Keys + {TokenKey, UserKey}
    ensures forall k :: k in items && k != TokenKey && k != UserKey ==> r[k] == items[k]
  {
    items[TokenKey := data.token][UserKey := Serialize(data.user)]
  }

  /** The "user" entry a sign-in writes parses back to the signed-in user. */
  lemma StoredUserParses(items: map<string, string>, data: AuthData)
    ensures Deserialize(WithSession(items, data)[UserKey]) == Some(data.user)
  {
    DeserializeSerialize(data.user);
  }
}
