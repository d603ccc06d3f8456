/**
 * The post-login handlers of the `config` package.  The Twilio handler
 * records every new client address, whatever the configuration and phone
 * number, and leaves those checks to the message builder; the default handler,
 * chosen when Twilio is not enabled, does nothing.
 */
module Config {
  import opened Wrappers
  import opened Strings
  import opened Platform
  import opened Notification
  import opened LoginHistory
  import opened Util

  /** The handler's injected properties: credentials and the two attribute keys. */
  datatype HandlerSettings = HandlerSettings(credentials: Credentials, phoneKey: string, ipsKey: string)

  /** Both casts the handler performs on entry succeed. */
  predicate ReadsTyped(h: HandlerSettings, attrs: Attrs) {
    TextAt(attrs, h.phoneKey) && ListAt(attrs, h.ipsKey)
  }

  /** The send the handler makes for a new address: the builder's outcome
      with the configured credentials and the stored phone number. */
  function Notice(h: HandlerSettings, email: string, ip: string, attrs: Attrs, delivered: bool): Sent
    requires ReadsTyped(h, attrs)
  {
    SendOutcome(Fields(h.credentials, GetText(attrs, h.phoneKey)), Some(LoginMessage(email, ip)), delivered)
  }

  /** One call of the Twilio handler on custom data `attrs`. */
  function OnLogin(h: HandlerSettings, email: string, req: Request, attrs: Attrs, delivered: bool): (s: LoginStep)
    requires ReadsTyped(h, attrs)
    ensures s.handled
    ensures ListAt(s.attrs, h.ipsKey)
    ensures forall k :: k != h.ipsKey ==> (k in s.attrs <==> k in attrs)
    ensures forall k :: k in attrs && k != h.ipsKey ==> s.attrs[k] == attrs[k]
    ensures var ip := GetIPAddress(req);
            var known := GetLoginIPs(attrs, h.ipsKey);
            && GetLoginIPs(s.attrs, h.ipsKey) == (if ip in known then known else known + [ip])
            && (ip in known ==> s.attrs == attrs && s.effects == [])
            && (ip !in known ==> s.effects == [Saved(s.attrs)] + Notice(h, email, ip, attrs, delivered).effects)
            && Saves(s.effects) == (if ip in known then 0 else 1)
            && Attempts(s.effects) ==
                 (if ip !in known && IsTwilioConfigured(h.credentials) && GetText(attrs, h.phoneKey).Some? then 1 else 0)
  {
    var toNumber := GetText(attrs, h.phoneKey);
    var loginIPs := GetLoginIPs(attrs, h.ipsKey);
    var ipAddress := GetIPAddress(req);
    if ipAddress in loginIPs then LoginStep(true, attrs, [])
    else
      var updated := attrs[h.ipsKey := TextList(loginIPs + [ipAddress])];
      var sent := Notice(h, email, ipAddress, attrs, delivered);
      CountsAppend([Saved(updated)], sent.effects);
      LoginStep(true, updated, [Saved(updated)] + sent.effects)
  }

  /** A run of logins of one account under the Twilio handler. */
  function Run(h: HandlerSettings, email: string, attrs: Attrs, logins: seq<Login>): (r: History)
    requires h.phoneKey != h.ipsKey && ReadsTyped(h, attrs)
    ensures ReadsTyped(h, r.attrs)
    decreases |logins|
  {
    if logins == [] then History(attrs, [])
    else
      var step := OnLogin(h, email, logins[0].req, attrs, logins[0].delivered);
      var rest := Run(h, email, step.attrs, logins[1..]);
      History(rest.attrs, step.effects + rest.effects)
  }

  /** Repeating a login from the same address adds nothing and sends nothing. */
  lemma RepeatedLoginIsNoOp(h: HandlerSettings, email: string, req: Request, req': Request,
                            attrs: Attrs, delivered: bool, delivered': bool)
    requires h.phoneKey != h.ipsKey && ReadsTyped(h, attrs)
    requires GetIPAddress(req') == GetIPAddress(req)
    ensures var first := OnLogin(h, email, req, attrs, delivered);
            ReadsTyped(h, first.attrs)
            && var second := OnLogin(h, email, req', first.attrs, delivered');
            second.attrs == first.attrs && second.effects == []
            && Attempts(first.effects + second.effects) <= 1
  {

  }

  /** What one login does to the address list, the phone number and the counts. */
  lemma Step(h: HandlerSettings, email: string, attrs: Attrs, login: Login)
    requires h.phoneKey != h.ipsKey && ReadsTyped(h, attrs)
    ensures var s := OnLogin(h, email, login.req, attrs, login.delivered);
            var known := GetLoginIPs(attrs, h.ipsKey);
            var ip := GetIPAddress(login.req);
            var eligible := IsTwilioConfigured(h.credentials) && GetText(attrs, h.phoneKey).Some?;
            && ReadsTyped(h, s.attrs)
            && GetText(s.attrs, h.phoneKey) == GetText(attrs, h.phoneKey)
            && GetLoginIPs(s.attrs, h.ipsKey) == (if ip in known then known else known + [ip])
            && Saves(s.effects) == (if ip in known then 0 else 1)
            && Attempts(s.effects) == (if ip !in known && eligible then 1 else 0)
  {
  }

  /** A run of logins appends exactly the addresses not seen before, each
      once, in order of first appearance, with one save each, whether or not
      Twilio is configured or a phone number is stored; it makes one send
      attempt per such address exactly when both are present. */
  lemma {:induction false} RunRecordsEachNewAddressOnce(h: HandlerSettings, email: string, attrs: Attrs, logins: seq<Login>)
    requires h.phoneKey != h.ipsKey && ReadsTyped(h, attrs)
    ensures var r := Run(h, email, attrs, logins);
            var known := GetLoginIPs(attrs, h.ipsKey);
            var eligible := IsTwilioConfigured(h.credentials) && GetText(attrs, h.phoneKey).Some?;
            && GetText(r.attrs, h.phoneKey) == GetText(attrs, h.phoneKey)
            && GetLoginIPs(r.attrs, h.ipsKey) == known + Fresh(known, Addresses(logins))
            && Saves(r.effects) == |Fresh(known, Addresses(logins))|
            && Attempts(r.effects) == (if eligible then |Fresh(known, Addresses(logins))| else 0)
    decreases |logins|
  {
    var known := GetLoginIPs(attrs, h.ipsKey);
    var ips := Addresses(logins);
    var eligible := IsTwilioConfigured(h.credentials) && GetText(attrs, h.phoneKey).Some?;
    if logins == [] {
      assert Run(h, email, attrs, logins) == History(attrs, []);
    } else {
      var step := OnLogin(h, email, logins[0].req, attrs, logins[0].delivered);
      var rest := Run(h, email, step.attrs, logins[1..]);
      var known' := GetLoginIPs(step.attrs, h.ipsKey);
      var fresh' := Fresh(known', Addresses(logins[1..]));
      assert Run(h, email, attrs, logins) == History(rest.attrs, step.effects + rest.effects);
      assert ReadsTyped(h, step.attrs)
          && GetText(step.attrs, h.phoneKey) == GetText(attrs, h.phoneKey)
          && known' == (if ips[0] in known then known else known + [ips[0]])
          && Saves(step.effects) == (if ips[0] in known then 0 else 1)
          && Attempts(step.effects) == (if ips[0] !in known && eligible then 1 else 0) by {
        Step(h, email, attrs, logins[0]);
      }
      assert GetText(rest.attrs, h.phoneKey) == GetText(attrs, h.phoneKey)
          && GetLoginIPs(rest.attrs, h.ipsKey) == known' + fresh'
          && Saves(rest.effects) == |fresh'|
          && Attempts(rest.effects) == (if eligible then |fresh'| else 0) by {
        RunRecordsEachNewAddressOnce(h, email, step.attrs, logins[1..]);
      }
      assert Attempts(step.effects + rest.effects) == Attempts(step.effects) + Attempts(rest.effects)
          && Saves(step.effects + rest.effects) == Saves(step.effects) + Saves(rest.effects) by {
        CountsAppend(step.effects, rest.effects);
      }
      assert ips[1..] == Addresses(logins[1..]);
      HistoryUnfolds(known, ips);
    }
  }

  /** The Spring configuration holding both handler beans. */
  class PostLoginHandler {
    const twilioAccountSid: Option<string>
    const twilioAuthToken: Option<string>
    const twilioFromNumber: Option<string>
    const phoneNumberIdentifier: string
    const loginIPsIdentifier: string
    /** The `twilio.enabled` property, which selects the bean. */
    const twilioEnabled: bool

    constructor (accountSid: Option<string>, authToken: Option<string>, fromNumber: Option<string>,
                 phoneNumberProperty: Option<string>, loginIPsProperty: Option<string>, twilioEnabled: bool)
      ensures Settings().credentials == Credentials(accountSid, authToken, fromNumber)
      ensures phoneNumberIdentifier == OrDefault(phoneNumberProperty, "phoneNumber")
      ensures loginIPsIdentifier == OrDefault(loginIPsProperty, "loginIPs")
      ensures this.twilioEnabled == twilioEnabled
    {
      twilioAccountSid, twilioAuthToken, twilioFromNumber := accountSid, authToken, fromNumber;
      phoneNumberIdentifier := OrDefault(phoneNumberProperty, "phoneNumber");
      loginIPsIdentifier := OrDefault(loginIPsProperty, "loginIPs");
      this.twilioEnabled := twilioEnabled;
    }

    function Settings(): HandlerSettings {
      HandlerSettings(Credentials(twilioAccountSid, twilioAuthToken, twilioFromNumber),
                      phoneNumberIdentifier, loginIPsIdentifier)
    }

    /** The handler registered under `loginPostHandler`: the default one
        unless Twilio is enabled. */
    method ActiveLoginPostHandler(req: Request, account: Account, log: EffectLog, delivered: bool)
      returns (handled: bool)
      requires twilioEnabled ==> ReadsTyped(Settings(), account.customData.attrs)
      modifies account.customData, log
      ensures handled
      ensures !twilioEnabled ==> account.customData.attrs == old(account.customData.attrs) && log.events == old(log.events)
      ensures twilioEnabled ==>
        var s := OnLogin(Settings(), account.email, req, old(account.customData.attrs), delivered);
        account.customData.attrs == s.attrs && log.events == old(log.events) + s.effects
    {
      if twilioEnabled {
        handled := LoginPostHandler(req, account, log, delivered);
      } else {
        handled := DefaultLoginPostHandler(req, account);
      }
    }

    /** The default handler: succeeds and touches nothing. */
    method DefaultLoginPostHandler(req: Request, account: Account) returns (handled: bool)
      ensures handled
    {
      handled := true;
    }

    /** The Twilio handler. */
    method LoginPostHandler(req: Request, account: Account, log: EffectLog, delivered: bool) returns (handled: bool)
      requires ReadsTyped(Settings(), account.customData.attrs)
      modifies account.customData, log
      ensures var s := OnLogin(Settings(), account.email, req, old(account.customData.attrs), delivered);
              handled == s.handled && account.customData.attrs == s.attrs && log.events == old(log.events) + s.effects
    {
      var customData := account.customData;
      var toNumber := GetText(customData.attrs, phoneNumberIdentifier);
      var loginIPs := GetLoginIPs(customData.attrs, loginIPsIdentifier);

      var ipAddress := GetIPAddress(req);

      if ipAddress !in loginIPs {
        SaveLoginIPs(ipAddress, loginIPs, customData, log);

        var builder := TwilioLoginMessageBuilder.Builder();
        builder := builder.SetAccountSid(twilioAccountSid);
        builder := builder.SetAuthToken(twilioAuthToken);
        builder := builder.SetFromNumber(twilioFromNumber);
        builder := builder.SetToNumber(toNumber);
        var sent := builder.Send(Some(LoginMessage(account.email, ipAddress)), log, delivered);
      }

      return true;
    }

    /** Appends the address, stores the list under its key and saves. */
    method SaveLoginIPs(ipAddress: string, loginIPs: seq<string>, customData: CustomData, log: EffectLog)
      modifies customData, log
      ensures customData.attrs == old(customData.attrs)[loginIPsIdentifier := TextList(loginIPs + [ipAddress])]
      ensures log.events == old(log.events) + [Saved(customData.attrs)]
    {
      var updated := loginIPs + [ipAddress];
      customData.Put(loginIPsIdentifier, TextList(updated));
      customData.Save(log);
    }
  }
}
