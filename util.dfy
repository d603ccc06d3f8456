/**
 * `TwilioLoginMessageBuilder`: a fluent builder holding the credentials and
 * the destination number, whose `send` checks, in order, the configuration,
 * the destination and the message text before making one provider call.
 */
module Util {
  import opened Wrappers
  import opened Strings
  import opened Platform
  import opened Notification

  /** The builder's four fields as a value. */
  datatype Fields = Fields(credentials: Credentials, toNumber: Option<string>)

  /** Where `send` stops: at one of its three guards, or at the provider call. */
  datatype Gate = NotConfigured | NoToNumber | NoText | Dispatch(params: seq<Param>)

  /** The guards of `send`, in the order the source checks them. */
  function Check(f: Fields, msg: Option<string>): (g: Gate)
    ensures g.Dispatch? <==> IsTwilioConfigured(f.credentials) && f.toNumber.Some? && HasText(msg)
    ensures !IsTwilioConfigured(f.credentials) ==> g == NotConfigured
    ensures IsTwilioConfigured(f.credentials) && f.toNumber.None? ==> g == NoToNumber
    ensures IsTwilioConfigured(f.credentials) && f.toNumber.Some? && !HasText(msg) ==> g == NoText
    ensures g.Dispatch? ==> g.params == MessageParams(f.toNumber.value, f.credentials.fromNumber.value, msg.value)
  {
    if !IsTwilioConfigured(f.credentials) then NotConfigured
    else if f.toNumber.None? then NoToNumber
    else if !HasText(msg) then NoText
    else Dispatch(MessageParams(f.toNumber.value, f.credentials.fromNumber.value, msg.value))
  }

  /** The result of `send` and the effects it causes. */
  datatype Sent = Sent(ok: bool, effects: seq<Event>)

  function SendOutcome(f: Fields, msg: Option<string>, delivered: bool): (r: Sent)
    ensures r.ok <==> Check(f, msg).Dispatch? && delivered
    ensures Saves(r.effects) == 0
    ensures Attempts(r.effects) == |r.effects| == (if Check(f, msg).Dispatch? then 1 else 0)
    ensures r.effects != [] ==>
      r.effects[0] == SendAttempt(f.credentials.accountSid.value, f.credentials.authToken.value,
                                  Check(f, msg).params, delivered)
  {
    match Check(f, msg)
    case Dispatch(params) =>
      Sent(delivered, [SendAttempt(f.credentials.accountSid.value, f.credentials.authToken.value, params, delivered)])
    case _ => Sent(false, [])
  }

  class TwilioLoginMessageBuilder {
    var accountSid: Option<string>
    var authToken: Option<string>
    var fromNumber: Option<string>
    var toNumber: Option<string>

    constructor ()
      ensures State() == Fields(Credentials(None, None, None), None)
    {
      accountSid, authToken, fromNumber, toNumber := None, None, None, None;
    }

    static method Builder() returns (b: TwilioLoginMessageBuilder)
      ensures fresh(b) && b.State() == Fields(Credentials(None, None, None), None)
    {
      b := new TwilioLoginMessageBuilder();
    }

    function State(): Fields
      reads this
    {
      Fields(Credentials(accountSid, authToken, fromNumber), toNumber)
    }

    method SetAccountSid(accountSid: Option<string>) returns (b: TwilioLoginMessageBuilder)
      modifies this`accountSid
      ensures b == this && this.accountSid == accountSid
    {
      this.accountSid := accountSid;
      b := this;
    }

    method SetAuthToken(authToken: Option<string>) returns (b: TwilioLoginMessageBuilder)
      modifies this`authToken
      ensures b == this && this.authToken == authToken
    {
      this.authToken := authToken;
      b := this;
    }

    method SetFromNumber(fromNumber: Option<string>) returns (b: TwilioLoginMessageBuilder)
      modifies this`fromNumber
      ensures b == this && this.fromNumber == fromNumber
    {
      this.fromNumber := fromNumber;
      b := this;
    }

    method SetToNumber(toNumber: Option<string>) returns (b: TwilioLoginMessageBuilder)
      modifies this`toNumber
      ensures b == this && this.toNumber == toNumber
    {
      this.toNumber := toNumber;
      b := this;
    }

    method Send(msg: Option<string>, log: EffectLog, delivered: bool) returns (ok: bool)
      modifies log
      ensures ok == SendOutcome(State(), msg, delivered).ok
      ensures log.events == old(log.events) + SendOutcome(State(), msg, delivered).effects
    {
      if !IsTwilioConfigured(Credentials(accountSid, authToken, fromNumber)) {
        return false;
      }
      if toNumber.None? {
        return false;
      }
      if !HasText(msg) {
        return false;
      }
      var params: seq<Param> := [];
      params := params + [Param("To", toNumber.value)];
      params := params + [Param("From", fromNumber.value)];
      params := params + [Param("Body", msg.value)];
      assert Check(State(), msg) == Dispatch(params);
      ok := CreateMessage(log, accountSid.value, authToken.value, params, delivered);
    }
  }
}
