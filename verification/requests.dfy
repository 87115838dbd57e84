/** Request plumbing shared by the chat handlers of backend/app/chat.py and
    backend/app/dialog.py: the session check and the reading of fields
    from the decoded JSON body. */
module Requests {
  import opened Common

  /** `require_auth`: the session's user id, or the fixed refusal. */
  function RequireAuth(sessionUser: Option<int>): (r: Result<int>)
    ensures r.Ok? <==> sessionUser.Some?
    ensures r.Ok? ==> r.value == sessionUser.value
    ensures r.Err? ==> r.error == "User not authenticated"
  {
    if sessionUser.None? then Err("User not authenticated") else Ok(sessionUser.value)
  }

  /** `data.get(key)` on the request body: JSON `null` and a missing key
      both read as `None`. */
  function Field(fields: map<string, Json>, key: string): (r: Option<Json>)
    ensures r.None? <==> key !in fields || fields[key] == JNull
    ensures r.Some? ==> r.value == fields[key]
  {
    if key in fields && fields[key] != JNull then Some(fields[key]) else None
  }

  /** `data.get('message', '').strip()`: the stripped text; a body that is
      not an object, or a message that is null or not a string, has no
      `.get`/`.strip` and the handler fails before its own error checks. */
  function MessageOf(body: Json): (r: Option<string>)
    ensures r.Some? <==> body.JObject? && ("message" !in body.fields || body.fields["message"].JString?)
    ensures r.Some? && "message" in body.fields ==> r.value == Strip(body.fields["message"].s)
    ensures r.Some? && "message" !in body.fields ==> r.value == ""
  {
    if !body.JObject? then None
    else if "message" !in body.fields then Some(Strip(""))
    else match body.fields["message"]
      case JString(s) => Some(Strip(s))
      case _ => None
  }

  /** The handlers refuse exactly the messages that are blank. */
  lemma BlankMessagesRefused(text: string)
    ensures MessageOf(JObject(map["message" := JString(text)])) == Some("") <==> AllSpace(text)
  {
    StripEmptyIffBlank(text);
  }
}
