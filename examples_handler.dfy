/**
 * The post-login handler of the application's root package.  It checks the
 * Twilio configuration and the phone number first; only then does it look at
 * the login-address history, and it records and notifies only a new address.
 */
module Examples {
  import opened Wrappers
  import opened Platform
  import opened Notification
  import opened LoginHistory

  /** The attribute keys this variant uses; they are fixed in the source. */
  const PHONE_KEY := "phoneNumber"
  const IPS_KEY := "loginIPs"

  /** The casts the handler performs succeed: it reads the phone number only
      when Twilio is configured, and the address list only when a phone
      number is present. */
  predicate ReadsTyped(c: Credentials, attrs: Attrs) {
    IsTwilioConfigured(c) ==> TextAt(attrs, PHONE_KEY) && (PHONE_KEY in attrs ==> ListAt(attrs, IPS_KEY))
  }

  /** The handler records the address and sends: Twilio is configured, a
      phone number is stored and the client address is not yet in the list. */
  predicate Notifies(c: Credentials, req: Request, attrs: Attrs)
    requires ReadsTyped(c, attrs)
  {
    && IsTwilioConfigured(c)
    && GetText(attrs, PHONE_KEY).Some?
    && GetIPAddress(req) !in GetLoginIPs(attrs, IPS_KEY)
  }

  /** One call of the handler on custom data `attrs`. */
  function OnLogin(c: Credentials, email: string, req: Request, attrs: Attrs, delivered: bool): (s: LoginStep)
    requires ReadsTyped(c, attrs)
    ensures s.handled
    ensures ReadsTyped(c, s.attrs)
    ensures TextAt(attrs, PHONE_KEY) ==> TextAt(s.attrs, PHONE_KEY) && GetText(s.attrs, PHONE_KEY) == GetText(attrs, PHONE_KEY)
    ensures forall k :: k != IPS_KEY ==> (k in s.attrs <==> k in attrs)
    ensures forall k :: k in attrs && k != IPS_KEY ==> s.attrs[k] == attrs[k]
    ensures !Notifies(c, req, attrs) ==> s.attrs == attrs && s.effects == []
    ensures Notifies(c, req, attrs) ==>
      && GetLoginIPs(s.attrs, IPS_KEY) == GetLoginIPs(attrs, IPS_KEY) + [GetIPAddress(req)]
      && s.effects == [Saved(s.attrs),
                       SendAttempt(c.accountSid.value, c.authToken.value,
                                   MessageParams(GetText(attrs, PHONE_KEY).value, c.fromNumber.value,
                                                 LoginMessage(email, GetIPAddress(req))),
                                   delivered)]
    ensures Attempts(s.effects) == Saves(s.effects) == (if Notifies(c, req, attrs) then 1 else 0)
    ensures IsTwilioConfigured(c) && GetText(attrs, PHONE_KEY).Some? ==>
      && GetIPAddress(req) in GetLoginIPs(s.attrs, IPS_KEY)
      && (NoDuplicates(GetLoginIPs(attrs, IPS_KEY)) ==> NoDuplicates(GetLoginIPs(s.attrs, IPS_KEY)))
  {
    if !IsTwilioConfigured(c) then LoginStep(true, attrs, [])
    else
      var toNumber := GetText(attrs, PHONE_KEY);
      if toNumber.None? then LoginStep(true, attrs, [])
      else
        var ipAddress := GetIPAddress(req);
        var loginIPs := GetLoginIPs(attrs, IPS_KEY);
        if ipAddress in loginIPs then LoginStep(true, attrs, [])
        else
          var updated := attrs[IPS_KEY := TextList(loginIPs + [ipAddress])];
          var params := MessageParams(toNumber.value, c.fromNumber.value, LoginMessage(email, ipAddress));
          var effects := [Saved(updated), SendAttempt(c.accountSid.value, c.authToken.value, params, delivered)];
          assert effects[1..][1..] == [];
          assert Attempts(effects[1..]) == 1 && Saves(effects[1..]) == 0;
          LoginStep(true, updated, effects)
  }

  /** A run of logins of one account, one handler call after another. */
  function Run(c: Credentials, email: string, attrs: Attrs, logins: seq<Login>): (h: History)
    requires ReadsTyped(c, attrs)
    ensures ReadsTyped(c, h.attrs)
    decreases |logins|
  {
    if logins == [] then History(attrs, [])
    else
      var step := OnLogin(c, email, logins[0].req, attrs, logins[0].delivered);
      var rest := Run(c, email, step.attrs, logins[1..]);
      History(rest.attrs, step.effects + rest.effects)
  }

  /** Repeating a login from the same address changes nothing and sends
      nothing the second time. */
  lemma RepeatedLoginIsNoOp(c: Credentials, email: string, req: Request, req': Request,
                            attrs: Attrs, delivered: bool, delivered': bool)
    requires ReadsTyped(c, attrs)
    requires GetIPAddress(req') == GetIPAddress(req)
    ensures var first := OnLogin(c, email, req, attrs, delivered);
            var second := OnLogin(c, email, req', first.attrs, delivered');
            second.attrs == first.attrs && second.effects == []
            && Attempts(first.effects + second.effects) <= 1
  {

  }

  /** What one login does to the address list, the phone number and the
      counts when Twilio is configured and a phone number is stored. */
  lemma EligibleStep(c: Credentials, email: string, attrs: Attrs, login: Login)
    requires IsTwilioConfigured(c) && ReadsTyped(c, attrs)
    requires GetText(attrs, PHONE_KEY).Some?
    ensures var s := OnLogin(c, email, login.req, attrs, login.delivered);
            var known := GetLoginIPs(attrs, IPS_KEY);
            var ip := GetIPAddress(login.req);
            && GetText(s.attrs, PHONE_KEY) == GetText(attrs, PHONE_KEY)
            && GetLoginIPs(s.attrs, IPS_KEY) == (if ip in known then known else known + [ip])
            && Attempts(s.effects) == Saves(s.effects) == (if ip in known then 0 else 1)
  {
  }

  /** With Twilio configured and a phone number stored, a run of logins
      appends exactly the addresses not seen before, each once and in order
      of first appearance, saves once and makes one send attempt per such
      address, and leaves the phone number as it was. */
  lemma {:induction false} RunNotifiesEachNewAddressOnce(c: Credentials, email: string, attrs: Attrs, logins: seq<Login>)
    requires IsTwilioConfigured(c) && ReadsTyped(c, attrs)
    requires GetText(attrs, PHONE_KEY).Some?
    ensures var h := Run(c, email, attrs, logins);
            var known := GetLoginIPs(attrs, IPS_KEY);
            && GetText(h.attrs, PHONE_KEY) == GetText(attrs, PHONE_KEY)
            && GetLoginIPs(h.attrs, IPS_KEY) == known + Fresh(known, Addresses(logins))
            && Attempts(h.effects) == Saves(h.effects) == |Fresh(known, Addresses(logins))|
    decreases |logins|
  {
    var known := GetLoginIPs(attrs, IPS_KEY);
    var ips := Addresses(logins);
    if logins == [] {
      assert Run(c, email, attrs, logins) == History(attrs, []);
    } else {
      var step := OnLogin(c, email, logins[0].req, attrs, logins[0].delivered);
      var rest := Run(c, email, step.attrs, logins[1..]);
      var known' := GetLoginIPs(step.attrs, IPS_KEY);
      var fresh' := Fresh(known', Addresses(logins[1..]));
      assert Run(c, email, attrs, logins) == History(rest.attrs, step.effects + rest.effects);
      assert GetText(step.attrs, PHONE_KEY) == GetText(attrs, PHONE_KEY)
          && known' == (if ips[0] in known then known else known + [ips[0]])
          && Attempts(step.effects) == Saves(step.effects) == (if ips[0] in known then 0 else 1) by {
        EligibleStep(c, email, attrs, logins[0]);
      }
      assert GetText(rest.attrs, PHONE_KEY) == GetText(attrs, PHONE_KEY)
          && GetLoginIPs(rest.attrs, IPS_KEY) == known' + fresh'
          && Attempts(rest.effects) == Saves(rest.effects) == |fresh'| by {
        RunNotifiesEachNewAddressOnce(c, email, step.attrs, logins[1..]);
      }
      assert Attempts(step.effects + rest.effects) == Attempts(step.effects) + Attempts(rest.effects)
          && Saves(step.effects + rest.effects) == Saves(step.effects) + Saves(rest.effects) by {
        CountsAppend(step.effects, rest.effects);
      }
      assert ips[1..] == Addresses(logins[1..]);
      HistoryUnfolds(known, ips);
    }
  }

  /** A first login from `1.2.3.4` for a profile with a phone number and an
      empty history records the address and sends one message to that number. */
  lemma FirstLoginScenario(c: Credentials, attrs: Attrs, req: Request, delivered: bool)
    requires c == Credentials(Some("AC01"), Some("secret"), Some("+15550000000"))
    requires attrs == map[PHONE_KEY := Text("+15551234567"), IPS_KEY := TextList([])]
    requires req == Request(None, "1.2.3.4")
    ensures ReadsTyped(c, attrs)
    ensures var first := OnLogin(c, "user@example.com", req, attrs, delivered);
            && GetLoginIPs(first.attrs, IPS_KEY) == ["1.2.3.4"]
            && Attempts(first.effects) == 1
            && first.effects[1].params == MessageParams("+15551234567", "+15550000000",
                                                        LoginMessage("user@example.com", "1.2.3.4"))
  {

  }

  /** The Spring configuration holding the handler, with its three injected
      Twilio properties. */
  class PostLoginHandler {
    const twilioAccountSid: Option<string>
    const twilioAuthToken: Option<string>
    const twilioFromNumber: Option<string>

    constructor (accountSid: Option<string>, authToken: Option<string>, fromNumber: Option<string>)
      ensures Settings() == Credentials(accountSid, authToken, fromNumber)
    {
      twilioAccountSid, twilioAuthToken, twilioFromNumber := accountSid, authToken, fromNumber;
    }

    function Settings(): Credentials {
      Credentials(twilioAccountSid, twilioAuthToken, twilioFromNumber)
    }

    /** The handler the `loginPostHandler` bean returns. */
    method LoginPostHandler(req: Request, account: Account, log: EffectLog, delivered: bool) returns (handled: bool)
      requires ReadsTyped(Settings(), account.customData.attrs)
      modifies account.customData, log
      ensures var s := OnLogin(Settings(), account.email, req, old(account.customData.attrs), delivered);
              handled == s.handled && account.customData.attrs == s.attrs && log.events == old(log.events) + s.effects
    {
      if !IsTwilioConfigured(Settings()) {
        return true;
      }

      var customData := account.customData;
      var toNumber := if PHONE_KEY in customData.attrs then Some(customData.attrs[PHONE_KEY].text) else None;
      if toNumber == None {
        return true;
      }

      var ipAddress := req.remoteAddr;
      if req.forwardedFor.Some? {
        ipAddress := req.forwardedFor.value;
      }

      var loginIPs: seq<string> := [];
      if IPS_KEY in customData.attrs {
        loginIPs := customData.attrs[IPS_KEY].items;
      }

      if ipAddress in loginIPs {
        return true;
      }

      loginIPs := loginIPs + [ipAddress];
      customData.Put(IPS_KEY, TextList(loginIPs));
      customData.Save(log);

      SendTwilioMessage(toNumber.value, LoginMessage(account.email, ipAddress), log, delivered);

      return true;
    }

    /** One provider call with `To`, `From`, `Body`; its failure is swallowed. */
    method SendTwilioMessage(toNumber: string, msg: string, log: EffectLog, delivered: bool)
      requires IsTwilioConfigured(Settings())
      modifies log
      ensures log.events == old(log.events) +
        [SendAttempt(twilioAccountSid.value, twilioAuthToken.value, MessageParams(toNumber, twilioFromNumber.value, msg), delivered)]
    {
      var params: seq<Param> := [];
      params := params + [Param("To", toNumber)];
      params := params + [Param("From", twilioFromNumber.value)];
      params := params + [Param("Body", msg)];
      assert params == MessageParams(toNumber, twilioFromNumber.value, msg);
      var sent := CreateMessage(log, twilioAccountSid.value, twilioAuthToken.value, params, delivered);
    }
  }
}
