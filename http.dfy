/**
 * What an HTTP call returns to the client, reduced to what the client reads:
 * the response data on success, or on failure the parsed error body, when the
 * server sent one.
 */
module Http {
  import opened Js

  /** A value under one key of an error body: a message or a list of messages. */
  datatype ErrorValue = Text(text: string) | Texts(texts: seq<string>)

  datatype ErrorField = ErrorField(key: string, value: ErrorValue)

  /** A parsed error object, its fields in the order `Object.keys` lists them. */
  type ErrorObject = seq<ErrorField>

  /** A settled request: `Failed(None)` when no response arrived at all. */
  datatype Response<T> = Ok(data: T) | Failed(body: Option<ErrorObject>)

  /** The value under `key`, if the object has that key. */
  function Lookup(body: ErrorObject, key: string): (r: Option<ErrorValue>)
    ensures r.None? <==> forall i :: 0 <= i < |body| ==> body[i].key != key
    ensures r.Some? ==> ErrorField(key, r.value) in body
  {
    if body == [] then None
    else if body[0].key == key then Some(body[0].value)
    else Lookup(body[1..], key)
  }
}
