/**
 * What the two post-login handlers and the message builder share: the
 * Twilio credentials, the "is Twilio configured" test, the provider request
 * parameters and the notification text.
 */
module Notification {
  import opened Wrappers
  import opened Strings
  import opened Platform

  /** Account sid, auth token and sender number, each possibly unset. */
  datatype Credentials = Credentials(accountSid: Option<string>, authToken: Option<string>, fromNumber: Option<string>)

  /** `isTwilioConfigured`: all three credentials are set and have text. */
  function IsTwilioConfigured(c: Credentials): (b: bool)
    ensures b ==> c.accountSid.Some? && c.authToken.Some? && c.fromNumber.Some?
    ensures b ==> c.accountSid.value != "" && c.authToken.value != "" && c.fromNumber.value != ""
    ensures b <==> (&& (c.accountSid.Some? && exists i :: 0 <= i < |c.accountSid.value| && !IsWhitespace(c.accountSid.value[i]))
                    && (c.authToken.Some? && exists i :: 0 <= i < |c.authToken.value| && !IsWhitespace(c.authToken.value[i]))
                    && (c.fromNumber.Some? && exists i :: 0 <= i < |c.fromNumber.value| && !IsWhitespace(c.fromNumber.value[i])))
  {
    HasText(c.accountSid) && HasText(c.authToken) && HasText(c.fromNumber)
  }

  /** The request parameters, in the order the source adds them. */
  function MessageParams(toNumber: string, fromNumber: string, body: string): (p: seq<Param>)
    ensures |p| == 3
    ensures p[0].name == "To" && p[1].name == "From" && p[2].name == "Body"
    ensures p[0].value == toNumber && p[1].value == fromNumber && p[2].value == body
    ensures forall i, j :: 0 <= i < j < |p| ==> p[i].name != p[j].name
  {
    [Param("To", toNumber), Param("From", fromNumber), Param("Body", body)]
  }

  /** The notification text sent on a login from a new address. */
  function LoginMessage(email: string, ip: string): (m: string)
    ensures HasText(Some(m))
    ensures |m| == 23 + |email| + |ip|
    ensures m[..15] == "New login for: " && m[15..15 + |email|] == email
    ensures m[15 + |email|..15 + |email| + 8] == ", from: "
    ensures m[|m| - |ip|..] == ip
  {
    var m := "New login for: " + email + ", from: " + ip;
    assert !IsWhitespace(m[0]);
    m
  }
}
