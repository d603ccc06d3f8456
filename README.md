# Post-login notification workflow of the Stormpath/Twilio example

A Dafny model of the decision logic of a Spring Boot example application:
after a user signs in, a post-login handler looks at the client address,
keeps a per-user history of login addresses in the account's custom data,
and, when the address is new, saves the history and asks Twilio to send one
SMS to the user's phone number. A small controller lets a signed-in user
store that phone number.

The repository has two variants of the handler, and the model keeps both:

- `Examples.PostLoginHandler` (root package) checks the Twilio credentials
  and the phone number first. With either missing it does nothing at all.
  Otherwise it appends a new address, saves, and makes one send attempt.
- `Config.PostLoginHandler` always appends a new address and saves. It then
  hands the send to `Util.TwilioLoginMessageBuilder`, whose `send` checks the
  credentials, then the destination number, then the message text, and calls
  the provider only when all three pass. A `twilio.enabled` flag chooses
  between this handler and a default handler that does nothing.

Modules follow the Java packages: `Examples`, `Config`, `Controller` and
`Util`. Shared pieces live in `Notification` (credentials, the configuration
test, request parameters, the message text) and `LoginHistory` (client
address, stored address list, and `Fresh`, a reference definition of what a
run of logins must add). `Strings` defines `hasText` and the Spring property
default. `Platform` holds stand-ins for the collaborators: the account and
its custom data, the request, the view model, and the provider call.

Effects are recorded in an `EffectLog` as events: `Saved(snapshot)` for each
custom-data `save()`, and `SendAttempt(sid, token, params, delivered)` for
each provider call. Order and counts are stated on that sequence. Each
handler method is proved against a pure function of the same name family
(`OnLogin`, `SendOutcome`, `PhoneForm`, `SavePhone`). The properties are
stated on those functions and in lemmas over runs of logins.

Three behaviours of the code are easy to misread, and the model keeps them
as written:

- An empty phone number is not rejected. The root handler tests the stored
  number only for `null` (PostLoginHandler.java:53), and so does the
  builder's `send` (TwilioLoginMessageBuilder.java:59).
- Each handler resolves the client address itself: the `X-FORWARDED-FOR`
  header when present, else the remote address (PostLoginHandler.java:59-62,
  config/PostLoginHandler.java:80-88).
- Only the `config` handler records a new address when Twilio is not
  configured or no phone number is stored. The root handler returns before
  it reads the history (PostLoginHandler.java:42-56). `Variants.DifferWhenIneligible`
  states the difference.

## Model

| member | source | states |
|---|---|---|
| `Strings.ContainsText` | src/main/java/com/stormpath/spring/boot/examples/util/TwilioLoginMessageBuilder.java:64-67 | the text test behind `hasText` holds exactly when some character is not Java whitespace |
| `Strings.HasText` | src/main/java/com/stormpath/spring/boot/examples/util/TwilioLoginMessageBuilder.java:64 | `hasText` holds exactly when the string is set and some character is not Java whitespace; such a string is never empty |
| `Strings.OrDefault` | src/main/java/com/stormpath/spring/boot/examples/controller/PhoneController.java:19-23 | a `?:` property takes its configured value unless that is unset or empty, and otherwise the default |
| `Notification.IsTwilioConfigured` | src/main/java/com/stormpath/spring/boot/examples/PostLoginHandler.java:86-89 | true exactly when account sid, auth token and sender number are all set and each has a non-whitespace character; so none of them is unset or empty |
| `Notification.MessageParams` | src/main/java/com/stormpath/spring/boot/examples/util/TwilioLoginMessageBuilder.java:71-74 | three parameters, `To`, `From`, `Body` in that order, with distinct names, carrying the destination, the sender and the text |
| `Notification.LoginMessage` | src/main/java/com/stormpath/spring/boot/examples/PostLoginHandler.java:80 | the body is `New login for: `, then the email, then `, from: `, then the client address; has length 23 + both, and always has text |
| `LoginHistory.GetIPAddress` | src/main/java/com/stormpath/spring/boot/examples/config/PostLoginHandler.java:80-88 | the `X-FORWARDED-FOR` header, unparsed, when present; otherwise the remote address |
| `Platform.GetText` | src/main/java/com/stormpath/spring/boot/examples/PostLoginHandler.java:51 | `(String) customData.get(key)`: set exactly when the key is present, and then the stored text |
| `LoginHistory.GetLoginIPs` | src/main/java/com/stormpath/spring/boot/examples/config/PostLoginHandler.java:90-98 | the list stored under the key, or the empty list when the key is absent |
| `LoginHistory.Fresh` | src/main/java/com/stormpath/spring/boot/examples/PostLoginHandler.java:64-78 | reference for a run: only addresses not already known, each once, and every address ends up known or in the result |
| `Util.Check` | src/main/java/com/stormpath/spring/boot/examples/util/TwilioLoginMessageBuilder.java:50-74 | guard order: configuration, then `toNumber != null`, then text; the provider is reached iff all three pass, with params exactly To, From, Body |
| `Util.SendOutcome` | src/main/java/com/stormpath/spring/boot/examples/util/TwilioLoginMessageBuilder.java:69-89 | `send` is true iff the guards pass and the provider accepts; at most one attempt, none after a failed guard, no save |
| `Util.TwilioLoginMessageBuilder.constructor` | src/main/java/com/stormpath/spring/boot/examples/util/TwilioLoginMessageBuilder.java:24 | a new builder has all four fields unset |
| `Util.TwilioLoginMessageBuilder.Builder` | src/main/java/com/stormpath/spring/boot/examples/util/TwilioLoginMessageBuilder.java:26-28 | returns a fresh builder with all four fields unset |
| `Util.TwilioLoginMessageBuilder.SetAccountSid` | src/main/java/com/stormpath/spring/boot/examples/util/TwilioLoginMessageBuilder.java:30-33 | sets only `accountSid` (the frame is that one field) and returns the same builder |
| `Util.TwilioLoginMessageBuilder.SetAuthToken` | src/main/java/com/stormpath/spring/boot/examples/util/TwilioLoginMessageBuilder.java:35-38 | sets only `authToken` and returns the same builder |
| `Util.TwilioLoginMessageBuilder.SetFromNumber` | src/main/java/com/stormpath/spring/boot/examples/util/TwilioLoginMessageBuilder.java:40-43 | sets only `fromNumber` and returns the same builder |
| `Util.TwilioLoginMessageBuilder.SetToNumber` | src/main/java/com/stormpath/spring/boot/examples/util/TwilioLoginMessageBuilder.java:45-48 | sets only `toNumber` and returns the same builder |
| `Util.TwilioLoginMessageBuilder.Send` | src/main/java/com/stormpath/spring/boot/examples/util/TwilioLoginMessageBuilder.java:50-85 | result and appended effects are those of `SendOutcome` on the builder's fields |
| `Examples.OnLogin` | src/main/java/com/stormpath/spring/boot/examples/PostLoginHandler.java:39-83 | always handled; unless configured, phone present and address new: custom data unchanged, no save, no send; else the address is appended, then one save, then one send To the phone; no other key changes; no duplicates are introduced |
| `Examples.Run` | src/main/java/com/stormpath/spring/boot/examples/PostLoginHandler.java:50-77 | successive logins keep every cast the handler makes valid |
| `Examples.RepeatedLoginIsNoOp` | src/main/java/com/stormpath/spring/boot/examples/PostLoginHandler.java:70-80 | a second login from the same address changes nothing and sends nothing; at most one attempt in total |
| `Examples.EligibleStep` | src/main/java/com/stormpath/spring/boot/examples/PostLoginHandler.java:64-80 | with configuration and phone: the phone is kept, the list grows by the address iff it is new, one save and one send iff new |
| `Examples.RunNotifiesEachNewAddressOnce` | src/main/java/com/stormpath/spring/boot/examples/PostLoginHandler.java:64-80 | when Twilio is configured and a phone number is stored, over any run of logins: the list becomes old list + `Fresh`, with one save and one send per fresh address, and the phone is kept (otherwise the root handler changes nothing, see `Examples.OnLogin`) |
| `Examples.FirstLoginScenario` | src/main/java/com/stormpath/spring/boot/examples/PostLoginHandler.java:76-80 | first login from 1.2.3.4 with an empty history stores ["1.2.3.4"] and sends one message to the stored number |
| `Examples.PostLoginHandler.constructor` | src/main/java/com/stormpath/spring/boot/examples/PostLoginHandler.java:28-35 | keeps the three injected Twilio properties |
| `Examples.PostLoginHandler.LoginPostHandler` | src/main/java/com/stormpath/spring/boot/examples/PostLoginHandler.java:39-83 | return value, new custom data and appended effects are exactly `OnLogin`'s |
| `Examples.PostLoginHandler.SendTwilioMessage` | src/main/java/com/stormpath/spring/boot/examples/PostLoginHandler.java:91-107 | exactly one provider call with To, From, Body in order; its failure is swallowed |
| `Config.OnLogin` | src/main/java/com/stormpath/spring/boot/examples/config/PostLoginHandler.java:52-77 | always handled; a known address changes nothing and sends nothing; a new one is appended and saved before the builder's send, whatever the configuration or phone; one attempt iff configured and phone present; no other key changes |
| `Config.Run` | src/main/java/com/stormpath/spring/boot/examples/config/PostLoginHandler.java:55-57 | with distinct keys, successive logins keep both casts valid |
| `Config.RepeatedLoginIsNoOp` | src/main/java/com/stormpath/spring/boot/examples/config/PostLoginHandler.java:61-65 | a second login from the same address adds nothing and sends nothing |
| `Config.Step` | src/main/java/com/stormpath/spring/boot/examples/config/PostLoginHandler.java:55-74 | one login keeps the phone, grows the list by the address iff new, saves iff new, sends iff new and eligible |
| `Config.RunRecordsEachNewAddressOnce` | src/main/java/com/stormpath/spring/boot/examples/config/PostLoginHandler.java:61-74 | over any run: the list becomes old list + `Fresh` with one save per fresh address; one send per fresh address iff configured and phone present, else none |
| `Config.PostLoginHandler.constructor` | src/main/java/com/stormpath/spring/boot/examples/config/PostLoginHandler.java:24-37 | credentials as injected; identifiers default to `phoneNumber` and `loginIPs` |
| `Config.PostLoginHandler.ActiveLoginPostHandler` | src/main/java/com/stormpath/spring/boot/examples/config/PostLoginHandler.java:39-51 | always handled; without `twilio.enabled` nothing changes; with it, behaves as `OnLogin` |
| `Config.PostLoginHandler.DefaultLoginPostHandler` | src/main/java/com/stormpath/spring/boot/examples/config/PostLoginHandler.java:42-46 | returns true and may change nothing |
| `Config.PostLoginHandler.LoginPostHandler` | src/main/java/com/stormpath/spring/boot/examples/config/PostLoginHandler.java:51-78 | return value, new custom data and appended effects are exactly `OnLogin`'s |
| `Config.PostLoginHandler.SaveLoginIPs` | src/main/java/com/stormpath/spring/boot/examples/config/PostLoginHandler.java:100-104 | stores list + address under the configured key, then one save of that state |
| `Controller.LoginRedirect` | src/main/java/com/stormpath/spring/boot/examples/controller/PhoneController.java:29 | `redirect:`, then the login URI, then `?next=/phone` |
| `Controller.PhoneForm` | src/main/java/com/stormpath/spring/boot/examples/controller/PhoneController.java:25-35 | signed out: the login redirect, model untouched; signed in: view `phone` and `phoneNumberIdentifier` added to the model |
| `Controller.SavePhone` | src/main/java/com/stormpath/spring/boot/examples/controller/PhoneController.java:37-48 | signed out: redirect, no change, no save; signed in: only the phone key is set, one save, `redirect:/?phoneSaved` |
| `Controller.DefaultRedirect` | src/main/java/com/stormpath/spring/boot/examples/controller/PhoneController.java:19-29 | with no properties the redirect is `redirect:/login?next=/phone` and the key is `phoneNumber` |
| `Controller.SavedPhoneReachesRootHandler` | src/main/java/com/stormpath/spring/boot/examples/controller/PhoneController.java:44-45 | when Twilio is configured: after a signed-in save under the default key, the root handler's next new-address login passes the phone check and sends one message to that number |
| `Controller.PhoneController.constructor` | src/main/java/com/stormpath/spring/boot/examples/controller/PhoneController.java:19-23 | login URI defaults to `/login`, identifier to `phoneNumber` |
| `Controller.PhoneController.GetPhoneForm` | src/main/java/com/stormpath/spring/boot/examples/controller/PhoneController.java:25-35 | view and model are exactly `PhoneForm`'s |
| `Controller.PhoneController.SavePhoneNumber` | src/main/java/com/stormpath/spring/boot/examples/controller/PhoneController.java:37-48 | signed out: redirect and no effect; signed in: view, custom data and effects are `SavePhone`'s |
| `Variants.AgreeWhenEligible` | src/main/java/com/stormpath/spring/boot/examples/config/PostLoginHandler.java:52-77 | with the `config` handler on the default keys (`phoneNumber`, `loginIPs`; `DefaultKeys`), Twilio configured and a phone present, the two handlers give the same custom data and the same effects |
| `Variants.DifferWhenIneligible` | src/main/java/com/stormpath/spring/boot/examples/config/PostLoginHandler.java:61-73 | with the `config` handler on the default keys (`DefaultKeys`), without configuration or phone, on a new address: the root handler does nothing; the `config` handler appends and saves once; neither sends |

## Left out

- Twilio transport: the REST client, the message factory, message SIDs and error details are not modelled. A provider call is one `SendAttempt` event. Whether the provider accepts it is the input `delivered`; a rejection is what the source gets as a `TwilioRestException`. Only that exception is caught; any other exception from creating the client, getting the message factory or creating the message would leave the handler, and is not modelled, so "always handled" holds only under this abstraction.
- Persistence: `CustomData.save()` is a `Saved` event holding the data at that moment. Its failure is not modelled; the source does not handle it either.
- Session lookup: `AccountResolver` becomes an `Account?` argument, with `null` for "not signed in".
- Spring wiring: `@Configuration`, `@Bean` and `@Value` injection become constructor arguments. `@ConditionalOnProperty` on `twilio.enabled` becomes a boolean. Values of the property other than true and false are not modelled.
- Servlet request and response: only the `X-FORWARDED-FOR` header and the remote address are kept. A `null` remote address is not modelled. View rendering is out of scope.
- Logging, including the account's full name, which is only logged.
- Casts of custom-data values: attributes are typed (`Text` or `TextList`). Each handler requires that the casts it performs succeed (`Examples.ReadsTyped`, `Config.ReadsTyped`). The `ClassCastException` path is not modelled.
- Config.Run: requires distinct phone and address keys. If the two keys are equal, the address list is stored under the phone key, and the next login's `(String)` cast fails in the source.
- A `null` account email is not modelled; email is a string.
- Java's `loginIPs.add` updates in place the list object that the map already holds. It is modelled as a new sequence written back with `put`. Nothing reads the map between the two steps, so nothing observable differs.
- Concurrent logins of one user racing on the read-modify-write of the address list: the model is sequential.
- `Strings.hasText` of the Stormpath SDK is defined locally from Java's `Character.isWhitespace`, not taken from the library.
- Strings.IsWhitespace: follows Java 8 (Unicode 6.2), where U+180E is whitespace; from Java 9 on it is not, and the model does not capture that version difference.
- Spring's `?:` default is taken to apply to an unset or empty property, as the expression language's elvis operator does.
