/** Client code: the behaviours the middleware's tests exercise, replayed on the
    model. The passthrough scenario starts from an extra configuration whose
    block is a Go int; the others build the guarded proxy from a typed Config. */
module CbScenarios {
  import opened Wrappers
  import opened Cbreaker
  import opened CbProxy

  /** A block that is not a map[string]interface{} gives the passthrough, and each
      call returns the wrapped proxy's own response with a nil error. */
  method PassthroughScenario(resp: Response) {
    var remote := BackendConfig(map[Namespace := Int(42)]);
    var m := NewMiddleware(remote);
    assert m == Success(EmptyMiddleware);
    var p := Apply(m.value, [Backend(1)]);
    assert p == Success(Backend(1));
    var r, err := Invoke(p.value, Reply(Some(resp), None), Run);
    assert r == Some(resp) && err == None;
    r, err := Invoke(p.value, Reply(Some(resp), None), Run);
    assert r == Some(resp) && err == None;
  }

  /** More than one wrapped proxy is refused, by either middleware. */
  method TooManyProxiesScenario(cmd: HystrixCommand) {
    var r := Apply(EmptyMiddleware, [Backend(1), Backend(2)]);
    assert r == Failure(TooManyProxies);
    r := Apply(CircuitMiddleware(cmd), [Backend(1), Backend(2)]);
    assert r == Failure(TooManyProxies);
  }

  /** A guarded backend answering 404 passes its response through with no error. */
  method NotFoundScenario() {
    var cmd := NewCommand(Config("test404", 1000, 1000, 10, 1, 1));
    var req := new CbRequest(cmd, Backend(0));
    var notFound := Response(7, 404);
    var r, err := req.Call(Reply(Some(notFound), None), Run);
    assert r == Some(notFound) && err == None;
    r, err := req.Call(Reply(Some(notFound), None), Run);
    assert r == Some(notFound) && err == None;
  }

  /** A guarded backend failing with Backend500Error surfaces it; once the engine
      rejects the next call, the caller gets a nil response and a nil error. */
  method ServerErrorScenario() {
    var cmd := NewCommand(Config("test500", 1000, 1000, 10, 1, 1));
    var req := new CbRequest(cmd, Backend(0));
    var r, err := req.Call(Reply(None, Some(Backend500Error)), Run);
    assert r == None && err == Some(Backend500Error);
    r, err := req.Call(Reply(None, Some(Backend500Error)), Reject(CircuitError("circuit open")));
    assert r == None && err == None;
  }

  /** A status 500 response is reported as Backend500Error even when the backend
      returned no error, and the response itself is returned beside it. */
  method StatusFiveHundredScenario() {
    var cmd := NewCommand(Config("svc", 1000, 0, 10, 50, 20));
    var req := new CbRequest(cmd, Backend(0));
    var failing := Response(3, 500);
    var r, err := req.Call(Reply(Some(failing), None), Run);
    assert r == Some(failing) && err == Some(Backend500Error);
  }

  /** A rejected call returns the response captured by the last call that ran,
      with a nil error. */
  method StaleResponseScenario() {
    var cmd := NewCommand(Config("svc", 1000, 0, 10, 50, 20));
    var req := new CbRequest(cmd, Backend(0));
    var ok := Response(5, 200);
    var r, err := req.Call(Reply(Some(ok), None), Run);
    r, err := req.Call(Reply(Some(Response(6, 200)), None), Reject(CircuitError("circuit open")));
    assert r == Some(ok) && err == None;
  }
}
