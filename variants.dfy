/**
 * How the two post-login handlers relate, with the `config` handler using
 * the default attribute keys: they agree when Twilio is configured and a
 * phone number is stored, and otherwise only the `config` handler still
 * records a new address.
 */
module Variants {
  import opened Platform
  import opened Notification
  import opened LoginHistory
  import Examples
  import Config

  function DefaultKeys(c: Credentials): Config.HandlerSettings {
    Config.HandlerSettings(c, Examples.PHONE_KEY, Examples.IPS_KEY)
  }

  /** Configured and with a phone number, the two handlers leave the same
      custom data and cause the same effects. */
  lemma AgreeWhenEligible(c: Credentials, email: string, req: Request, attrs: Attrs, delivered: bool)
    requires Config.ReadsTyped(DefaultKeys(c), attrs)
    requires IsTwilioConfigured(c) && GetText(attrs, Examples.PHONE_KEY).Some?
    ensures Examples.ReadsTyped(c, attrs)
    ensures Examples.OnLogin(c, email, req, attrs, delivered) == Config.OnLogin(DefaultKeys(c), email, req, attrs, delivered)
  {

  }

  /** Without a stored phone number, or without Twilio configured, the root
      handler leaves the custom data as it is and saves nothing, while the
      `config` handler still appends a new address and saves once; neither
      sends. */
  lemma DifferWhenIneligible(c: Credentials, email: string, req: Request, attrs: Attrs, delivered: bool)
    requires Config.ReadsTyped(DefaultKeys(c), attrs)
    requires !IsTwilioConfigured(c) || GetText(attrs, Examples.PHONE_KEY).None?
    requires GetIPAddress(req) !in GetLoginIPs(attrs, Examples.IPS_KEY)
    ensures Examples.ReadsTyped(c, attrs)
    ensures var root := Examples.OnLogin(c, email, req, attrs, delivered);
            root.attrs == attrs && root.effects == []
    ensures var cfg := Config.OnLogin(DefaultKeys(c), email, req, attrs, delivered);
            && GetLoginIPs(cfg.attrs, Examples.IPS_KEY) == GetLoginIPs(attrs, Examples.IPS_KEY) + [GetIPAddress(req)]
            && Saves(cfg.effects) == 1 && Attempts(cfg.effects) == 0
  {
  }
}
