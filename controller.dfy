/**
 * `PhoneController`: the form through which a signed-in user stores the
 * phone number the login notifications go to.  Both requests redirect to the
 * login page when nobody is signed in.
 */
module Controller {
  import opened Wrappers
  import opened Strings
  import opened Platform
  import opened Notification
  import opened LoginHistory
  import Examples

  const PHONE_VIEW := "phone"
  const PHONE_SAVED_VIEW := "redirect:/?phoneSaved"

  /** The redirect to the login page, which comes back to `/phone`. */
  function LoginRedirect(loginUri: string): (r: string)
    ensures |r| == 9 + |loginUri| + 12
    ensures r[..9] == "redirect:"
    ensures r[9..9 + |loginUri|] == loginUri
    ensures r[9 + |loginUri|..] == "?next=/phone"
  {
    "redirect:" + loginUri + "?next=/phone"
  }

  /** The view name and the view model after a `GET /phone`. */
  datatype FormPage = FormPage(view: string, model: map<string, string>)

  function PhoneForm(loginUri: string, phoneKey: string, signedIn: bool, model: map<string, string>): (p: FormPage)
    ensures !signedIn ==> p.view == LoginRedirect(loginUri) && p.model == model
    ensures signedIn ==> p.view == PHONE_VIEW
    ensures signedIn ==> p.model.Keys == model.Keys + {"phoneNumberIdentifier"}
    ensures signedIn ==> p.model["phoneNumberIdentifier"] == phoneKey
    ensures forall k :: k in model && k != "phoneNumberIdentifier" ==> k in p.model && p.model[k] == model[k]
  {
    if !signedIn then FormPage(LoginRedirect(loginUri), model)
    else FormPage(PHONE_VIEW, model["phoneNumberIdentifier" := phoneKey])
  }

  /** The view name, custom data and effects after a `POST /phone`. */
  datatype SavePage = SavePage(view: string, attrs: Attrs, effects: seq<Event>)

  function SavePhone(loginUri: string, phoneKey: string, signedIn: bool, attrs: Attrs, phoneNumber: string): (p: SavePage)
    ensures !signedIn ==> p == SavePage(LoginRedirect(loginUri), attrs, [])
    ensures signedIn ==> p.view == PHONE_SAVED_VIEW && p.effects == [Saved(p.attrs)]
    ensures signedIn ==> p.attrs.Keys == attrs.Keys + {phoneKey} && p.attrs[phoneKey] == Text(phoneNumber)
    ensures forall k :: k in attrs && k != phoneKey ==> k in p.attrs && p.attrs[k] == attrs[k]
  {
    if !signedIn then SavePage(LoginRedirect(loginUri), attrs, [])
    else
      var updated := attrs[phoneKey := Text(phoneNumber)];
      SavePage(PHONE_SAVED_VIEW, updated, [Saved(updated)])
  }

  /** With no properties set, a signed-out visitor is sent to
      `redirect:/login?next=/phone` and the number is stored under `phoneNumber`. */
  lemma DefaultRedirect()
    ensures LoginRedirect(OrDefault(None, "/login")) == "redirect:/login?next=/phone"
    ensures OrDefault(None, "phoneNumber") == Examples.PHONE_KEY
  {
  }

  /** After a signed-in user saves a number under the default key, the root
      handler's next login from a new address, with Twilio configured, passes
      the phone-number check and sends to that number. */
  lemma SavedPhoneReachesRootHandler(c: Credentials, loginUri: string, attrs: Attrs, phoneNumber: string,
                                     email: string, req: Request, delivered: bool)
    requires IsTwilioConfigured(c)
    requires ListAt(attrs, Examples.IPS_KEY)
    requires GetIPAddress(req) !in GetLoginIPs(attrs, Examples.IPS_KEY)
    ensures var saved := SavePhone(loginUri, Examples.PHONE_KEY, true, attrs, phoneNumber).attrs;
            && Examples.ReadsTyped(c, saved)
            && Examples.Notifies(c, req, saved)
            && var s := Examples.OnLogin(c, email, req, saved, delivered);
            Attempts(s.effects) == 1 && s.effects[1].params[0] == Param("To", phoneNumber)
  {

  }

  class PhoneController {
    const loginUri: string
    const phoneNumberIdentifier: string

    constructor (loginUriProperty: Option<string>, phoneNumberProperty: Option<string>)
      ensures loginUri == OrDefault(loginUriProperty, "/login")
      ensures phoneNumberIdentifier == OrDefault(phoneNumberProperty, "phoneNumber")
    {
      loginUri := OrDefault(loginUriProperty, "/login");
      phoneNumberIdentifier := OrDefault(phoneNumberProperty, "phoneNumber");
    }

    /** `GET /phone`; `account` is `null` when nobody is signed in. */
    method GetPhoneForm(account: Account?, model: Model) returns (view: string)
      modifies model
      ensures var p := PhoneForm(loginUri, phoneNumberIdentifier, account != null, old(model.attributes));
              view == p.view && model.attributes == p.model
    {
      if account == null {
        return LoginRedirect(loginUri);
      }

      model.AddAttribute("phoneNumberIdentifier", phoneNumberIdentifier);

      return PHONE_VIEW;
    }

    /** `POST /phone` with the submitted `phoneNumber`. */
    method SavePhoneNumber(account: Account?, phoneNumber: string, log: EffectLog) returns (view: string)
      modifies log, if account == null then {} else {account.customData}
      ensures account == null ==> view == LoginRedirect(loginUri) && log.events == old(log.events)
      ensures account != null ==>
        var p := SavePhone(loginUri, phoneNumberIdentifier, true, old(account.customData.attrs), phoneNumber);
        view == p.view && account.customData.attrs == p.attrs && log.events == old(log.events) + p.effects
    {
      if account == null {
        return LoginRedirect(loginUri);
      }

      account.customData.Put(phoneNumberIdentifier, Text(phoneNumber));
      account.customData.Save(log);

      return PHONE_SAVED_VIEW;
    }
  }
}
