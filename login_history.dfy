/**
 * The login-history adapter both handler variants use: resolving the client
 * address, reading the stored address list, and a reference definition of
 * which addresses a run of logins adds to that list.
 */
module LoginHistory {
  import opened Wrappers
  import opened Platform

  /** One login: the request and what the provider would answer to a send. */
  datatype Login = Login(req: Request, delivered: bool)

  /** The outcome of one handler call: its return value, the custom data
      afterwards and the effects it caused, in order. */
  datatype LoginStep = LoginStep(handled: bool, attrs: Attrs, effects: seq<Event>)

  /** The custom data and the effects after a run of logins. */
  datatype History = History(attrs: Attrs, effects: seq<Event>)

  /** `getIPAddress`: the `X-FORWARDED-FOR` header taken as it is, else the
      remote address. */
  function GetIPAddress(req: Request): (ip: string)
    ensures req.forwardedFor.Some? ==> ip == req.forwardedFor.value
    ensures req.forwardedFor.None? ==> ip == req.remoteAddr
  {
    match req.forwardedFor
    case Some(header) => header
    case None => req.remoteAddr
  }

  /** `getLoginIPs`: the list stored under `key`, or the empty list. */
  function GetLoginIPs(attrs: Attrs, key: string): (ips: seq<string>)
    requires ListAt(attrs, key)
    ensures key in attrs ==> attrs[key] == TextList(ips)
    ensures key !in attrs ==> ips == []
  {
    if key in attrs then attrs[key].items else []
  }

  predicate NoDuplicates(s: seq<string>) {
    forall i, j :: 0 <= i < j < |s| ==> s[i] != s[j]
  }

  /** The client addresses of a run of logins, in order. */
  function Addresses(logins: seq<Login>): (ips: seq<string>)
    ensures |ips| == |logins|
    ensures forall i :: 0 <= i < |logins| ==> ips[i] == GetIPAddress(logins[i].req)
  {
    if logins == [] then [] else [GetIPAddress(logins[0].req)] + Addresses(logins[1..])
  }

  /** The addresses of `ips` not in `known`, each once, in order of first
      appearance: what a history starting at `known` must gain. */
  function Fresh(known: seq<string>, ips: seq<string>): (r: seq<string>)
    ensures forall x :: x in r ==> x in ips && x !in known
    ensures forall x :: x in ips ==> x in known || x in r
    ensures NoDuplicates(r)
    decreases |ips|
  {
    if ips == [] then []
    else if ips[0] in known then Fresh(known, ips[1..])
    else
      var rest := Fresh(known + [ips[0]], ips[1..]);
      var r := [ips[0]] + rest;
      assert ips[0] !in rest;
      assert forall j :: 1 <= j < |r| ==> r[j] == rest[j - 1] && r[j] in rest;
      r
  }

  /** One step of a run: the history after the first address and the rest is
      the history after the first address alone, extended by what the rest
      adds to it. */
  lemma HistoryUnfolds(known: seq<string>, ips: seq<string>)
    requires ips != []
    ensures var known' := if ips[0] in known then known else known + [ips[0]];
            known + Fresh(known, ips) == known' + Fresh(known', ips[1..])
  {
    if ips[0] !in known {
      assert Fresh(known, ips) == [ips[0]] + Fresh(known + [ips[0]], ips[1..]);
    }
  }
}
