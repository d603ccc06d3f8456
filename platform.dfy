/**
 * Stand-ins for the collaborators the handlers call: the Stormpath account
 * and its custom-data map, the servlet request, Spring's view model and the
 * Twilio message factory.  The two externally visible effects, a `save()` of
 * custom data and a message-creation call to the provider, are recorded in
 * an `EffectLog` as `Event`s, so that their order and number can be stated.
 */
module Platform {
  import opened Wrappers

  /** A custom-data attribute.  The source stores untyped objects and casts
      them on reading; here the two shapes it uses are explicit. */
  datatype Value = Text(text: string) | TextList(items: seq<string>)

  type Attrs = map<string, Value>

  /** One name/value pair of a provider request. */
  datatype Param = Param(name: string, value: string)

  datatype Event =
    | Saved(snapshot: Attrs)
    | SendAttempt(accountSid: string, authToken: string, params: seq<Param>, delivered: bool)

  /** The parts of an HTTP request the handlers read: the `X-FORWARDED-FOR`
      header (absent when `None`) and the remote address. */
  datatype Request = Request(forwardedFor: Option<string>, remoteAddr: string)

  class EffectLog {
    var events: seq<Event>

    constructor ()
      ensures events == []
    {
      events := [];
    }
  }

  /** An account's custom data: a mutable attribute map persisted by `Save`. */
  class CustomData {
    var attrs: Attrs

    constructor (initial: Attrs)
      ensures attrs == initial
    {
      attrs := initial;
    }

    method Put(key: string, v: Value)
      modifies this
      ensures attrs == old(attrs)[key := v]
    {
      attrs := attrs[key := v];
    }

    method Save(log: EffectLog)
      modifies log
      ensures log.events == old(log.events) + [Saved(attrs)]
    {
      log.events := log.events + [Saved(attrs)];
    }
  }

  class Account {
    const email: string
    const customData: CustomData

    constructor (email: string, customData: CustomData)
      ensures this.email == email && this.customData == customData
    {
      this.email := email;
      this.customData := customData;
    }
  }

  /** Spring's request-scoped view model. */
  class Model {
    var attributes: map<string, string>

    constructor ()
      ensures attributes == map[]
    {
      attributes := map[];
    }

    method AddAttribute(name: string, value: string)
      modifies this
      ensures attributes == old(attributes)[name := value]
    {
      attributes := attributes[name := value];
    }
  }

  /** The provider's message-creation call: exactly one recorded attempt.
      Whether the provider accepts it is not modelled; it is the input
      `delivered`, and a rejection is what the source receives as an exception. */
  method CreateMessage(log: EffectLog, accountSid: string, authToken: string, params: seq<Param>, delivered: bool)
    returns (ok: bool)
    modifies log
    ensures ok == delivered
    ensures log.events == old(log.events) + [SendAttempt(accountSid, authToken, params, delivered)]
  {
    log.events := log.events + [SendAttempt(accountSid, authToken, params, delivered)];
    ok := delivered;
  }

  /** A `(String)` cast of the attribute under `key` cannot fail. */
  predicate TextAt(attrs: Attrs, key: string) {
    key in attrs ==> attrs[key].Text?
  }

  /** A `(List<String>)` cast of the attribute under `key` cannot fail. */
  predicate ListAt(attrs: Attrs, key: string) {
    key in attrs ==> attrs[key].TextList?
  }

  /** `(String) customData.get(key)`. */
  function GetText(attrs: Attrs, key: string): (r: Option<string>)
    requires TextAt(attrs, key)
    ensures r.Some? <==> key in attrs
    ensures r.Some? ==> attrs[key] == Text(r.value)
  {
    if key in attrs then Some(attrs[key].text) else None
  }

  /** Number of provider calls in a sequence of effects. */
  function Attempts(effects: seq<Event>): nat {
    if effects == [] then 0
    else (if effects[0].SendAttempt? then 1 else 0) + Attempts(effects[1..])
  }

  /** Number of custom-data saves in a sequence of effects. */
  function Saves(effects: seq<Event>): nat {
    if effects == [] then 0
    else (if effects[0].Saved? then 1 else 0) + Saves(effects[1..])
  }

  lemma {:induction false} CountsAppend(a: seq<Event>, b: seq<Event>)
    ensures Attempts(a + b) == Attempts(a) + Attempts(b)
    ensures Saves(a + b) == Saves(a) + Saves(b)
  {
    if a == [] {
      assert a + b == b;
    } else {
      assert (a + b)[1..] == a[1..] + b;
      CountsAppend(a[1..], b);
    }
  }
}
