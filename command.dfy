/** `sendCommand`: the request that carries a transport command (play/pause,
    next, previous) to the server's HTTP API. */
module Command {
  import D = Decimal

  const Host: string := "http://127.0.0.1:"
  const ApiPath: string := "/api/"

  /** The URL of `action` on the server at `port`. */
  function CommandUrl(port: nat, action: string): string {
    Host + D.NatToString(port) + ApiPath + action
  }

  datatype Request = Request(url: string, httpMethod: string, contentType: string, body: string)

  /** The POST request with a JSON body; `body` is already serialised. */
  function CommandRequest(port: nat, action: string, body: string): Request {
    Request(CommandUrl(port, action), "POST", "application/json", body)
  }

  /** What `sendCommand` did: refused for lack of a port, or issued the request,
      which the network delivered or not. */
  datatype CommandOutcome = NoServer | Sent(request: Request) | SendFailed(request: Request)

  /** The URL names the port and the action unambiguously. */
  lemma CommandUrlInjective(p1: nat, a1: string, p2: nat, a2: string)
    requires CommandUrl(p1, a1) == CommandUrl(p2, a2)
    ensures p1 == p2 && a1 == a2
  {
    var d1, d2 := D.NatToString(p1), D.NatToString(p2);
    var u := CommandUrl(p1, a1);
    var t1, t2 := d1 + ApiPath + a1, d2 + ApiPath + a2;
    assert t1 == u[|Host|..];
    assert t2 == u[|Host|..];
    // Each digit string is followed by '/', which is not a digit, so the two
    // digit strings have equal length.
    D.LeadingDigitsOf(d1, ApiPath + a1);
    D.LeadingDigitsOf(d2, ApiPath + a2);
    assert t1 == d1 + (ApiPath + a1) && t2 == d2 + (ApiPath + a2);
    assert d1 == t1[..|d1|];
    assert d2 == t2[..|d2|];
    D.NatToStringInjective(p1, p2);
    assert a1 == t1[|d1| + |ApiPath|..];
    assert a2 == t2[|d2| + |ApiPath|..];
  }
}
