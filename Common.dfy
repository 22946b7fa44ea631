/** Values shared by every screen: optional values, the outcome of a call to
    the remote REST API, and the `err?.response?.data?.message || fallback`
    idiom the screens use to turn a failed call into a display string. */
module Common {

  datatype Option<+T> = None | Some(value: T)

  /** The outcome of one awaited API call: the reply's body, or a rejected
      promise whose error may carry the server's `message` field. */
  datatype ApiOutcome<+T> = Ok(value: T) | Failed(message: Option<string>)

  /** A value read inside a render that may throw a TypeError instead. */
  datatype Throws<+T> = Value(value: T) | TypeError

  /** JavaScript truthiness of an optional string: present and not "". */
  predicate IsTruthy(s: Option<string>)
  {
    s.Some? && s.value != ""
  }

  /** `s || undefined`: a falsy string becomes absent. */
  function TruthyOrAbsent(s: Option<string>): (r: Option<string>)
    ensures r.None? <==> !IsTruthy(s)
    ensures r.Some? ==> r == s
  {
    if IsTruthy(s) then s else None
  }

  /** `s || ""`: an absent or empty string becomes "". */
  function OrEmpty(s: Option<string>): (r: string)
    ensures r == "" <==> !IsTruthy(s)
    ensures r != "" ==> s == Some(r)
  {
    if IsTruthy(s) then s.value else ""
  }

  /** `err?.response?.data?.message || fallback`: the server's message when
      it sent a non-empty one, otherwise the screen's own fallback text. */
  function ErrorText(message: Option<string>, fallback: string): (r: string)
    ensures IsTruthy(message) ==> r == message.value
    ensures !IsTruthy(message) ==> r == fallback
    ensures fallback != "" ==> r != ""
  {
    if IsTruthy(message) then message.value else fallback
  }
}
