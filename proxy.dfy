/** The circuit-breaker middleware itself (proxy.go): choosing between a
    passthrough and a guarded proxy, and the guarded proxy's policy for
    classifying a backend's reply and deciding what its caller sees.
    The breaker engine behind Execute is an oracle: each call it either runs
    the command or rejects without running it. */
module CbProxy {
  import opened Wrappers
  import opened Cbreaker

  const StatusInternalServerError := 500

  /** An error value. Go compares a hystrix.CircuitError by its message, so two
      circuit errors with the same message are the same error here too; every
      other error is identified by an opaque tag. */
  datatype Error = CircuitError(message: string) | OtherError(tag: nat)

  /** The distinguished error for a backend that answered with status 500. */
  const Backend500Error := CircuitError("Backend 500 error")

  /** A non-nil *proxy.Response: `addr` stands for the pointer's identity. */
  datatype Response = Response(addr: nat, statusCode: int)

  /** What the wrapped proxy returns for one call (response may be nil, error may be nil). */
  datatype Reply = Reply(response: Option<Response>, err: Option<Error>)

  /** The breaker engine's decision for one call of Execute. */
  datatype Admission =
    | Run                        // the command runs and Execute returns its error
    | Reject(circuitErr: Error)  // the command does not run; Execute returns this error

  predicate IsServerError(response: Option<Response>) {
    response.Some? && response.value.statusCode == StatusInternalServerError
  }

  /** The error the guarded command hands back to the breaker: a 500 response
      becomes Backend500Error whatever the backend's own error was. */
  function CommandError(reply: Reply): (err: Option<Error>)
    ensures err == Some(Backend500Error) <==>
      IsServerError(reply.response) || reply.err == Some(Backend500Error)
    ensures !IsServerError(reply.response) ==> err == reply.err
  {
    if IsServerError(reply.response) then Some(Backend500Error) else reply.err
  }

  /** The error Execute returns for one call. */
  function Execute(adm: Admission, reply: Reply): Option<Error> {
    match adm
    case Run => CommandError(reply)
    case Reject(e) => Some(e)
  }

  /** What the caller is told about Execute's error: only Backend500Error
      gets through, every other error is replaced by nil. */
  function Surface(err: Option<Error>): (r: Option<Error>)
    ensures r == None || r == Some(Backend500Error)
    ensures r.Some? <==> err == Some(Backend500Error)
  {
    if err.Some? then
      if err.value == Backend500Error then err else None
    else
      err
  }

  /** The error a guarded proxy returns for one call. */
  function CallerError(reply: Reply, adm: Admission): Option<Error> {
    Surface(Execute(adm, reply))
  }

  /** The caller sees Backend500Error exactly when the command ran and the backend
      answered 500 or itself returned Backend500Error, or when the engine rejected
      with that very error; otherwise the caller's error is nil. */
  lemma CallerErrorIff(reply: Reply, adm: Admission)
    ensures CallerError(reply, adm) == None || CallerError(reply, adm) == Some(Backend500Error)
    ensures CallerError(reply, adm) == Some(Backend500Error) <==>
      match adm
      case Run => IsServerError(reply.response) || reply.err == Some(Backend500Error)
      case Reject(e) => e == Backend500Error
  {
  }

  /** One call of a guarded proxy, as the engine decided it. */
  datatype Step = Step(reply: Reply, adm: Admission)

  /** The captured response after a sequence of calls: the response stored by the
      last call the engine let run, nil if none ran. */
  function Captured(calls: seq<Step>): Option<Response> {
    if calls == [] then None
    else if calls[|calls| - 1].adm.Run? then calls[|calls| - 1].reply.response
    else Captured(calls[..|calls| - 1])
  }

  /** The captured response is the one stored by the last call that ran. */
  lemma {:induction false} CapturedIsLastRun(calls: seq<Step>, i: int)
    requires 0 <= i < |calls| && calls[i].adm.Run?
    requires forall j :: i < j < |calls| ==> calls[j].adm.Reject?
    ensures Captured(calls) == calls[i].reply.response
  {
    if i < |calls| - 1 {
      CapturedIsLastRun(calls[..|calls| - 1], i);
    }
  }

  /** While no call has run, the captured response is nil. */
  lemma {:induction false} CapturedBeforeAnyRun(calls: seq<Step>)
    requires forall j :: 0 <= j < |calls| ==> calls[j].adm.Reject?
    ensures Captured(calls) == None
  {
    if calls != [] {
      CapturedBeforeAnyRun(calls[..|calls| - 1]);
    }
  }

  /** A captured response is never made up: some call that ran received it from the backend. */
  lemma {:induction false} CapturedFromBackend(calls: seq<Step>)
    ensures Captured(calls).Some? ==>
      exists j :: 0 <= j < |calls| && calls[j].adm.Run? && calls[j].reply.response == Captured(calls)
  {
    if calls != [] && calls[|calls| - 1].adm.Reject? {
      var prefix := calls[..|calls| - 1];
      CapturedFromBackend(prefix);
      if Captured(prefix).Some? {
        var j :| 0 <= j < |prefix| && prefix[j].adm.Run? && prefix[j].reply.response == Captured(prefix);
        assert calls[j] == prefix[j];
      }
    }
  }

  /** A proxy: one built elsewhere (identified by a tag) or a guarded one built here. */
  datatype Proxy = Backend(tag: nat) | Circuit(req: CbRequest)

  /** The proxy NewCbRequest returns: a closure over a command, the wrapped proxy
      and a captured `response` variable that persists from call to call. */
  class CbRequest {
    const cb: HystrixCommand
    const next: Proxy
    var response: Option<Response>
    ghost var calls: seq<Step>

    /** The captured response is the one the history of calls determines. */
    ghost predicate Valid()
      reads this
    {
      response == Captured(calls)
    }

    constructor (cb: HystrixCommand, next: Proxy)
      ensures Valid()
      ensures this.cb == cb && this.next == next
      ensures response == None && calls == []
    {
      this.cb := cb;
      this.next := next;
      response := None;
      calls := [];
    }

    /** One call: `reply` is what the wrapped proxy returns if it is invoked,
        `adm` the engine's decision. */
    method Call(reply: Reply, adm: Admission) returns (resp: Option<Response>, err: Option<Error>)
      requires Valid()
      modifies this
      ensures Valid()
      ensures calls == old(calls) + [Step(reply, adm)]
      ensures response == (if adm.Run? then reply.response else old(response))
      ensures resp == response
      ensures err == CallerError(reply, adm)
    {
      var executed: Option<Error>;
      match adm {
        case Run =>
          response := reply.response;
          if response.Some? && response.value.statusCode == StatusInternalServerError {
            executed := Some(Backend500Error);
          } else {
            executed := reply.err;
          }
        case Reject(e) =>
          executed := Some(e);
      }
      calls := calls + [Step(reply, adm)];
      if executed.Some? {
        if executed.value == Backend500Error {
          return response, executed;
        }
        return response, None;
      }
      return response, executed;
    }
  }

  /** Calls a proxy once: a proxy built elsewhere answers with `reply` itself. */
  method Invoke(p: Proxy, reply: Reply, adm: Admission) returns (resp: Option<Response>, err: Option<Error>)
    requires p.Circuit? ==> p.req.Valid()
    modifies if p.Circuit? then {p.req} else {}
    ensures p.Backend? ==> resp == reply.response && err == reply.err
    ensures p.Circuit? ==> p.req.Valid() && p.req.calls == old(p.req.calls) + [Step(reply, adm)]
    ensures p.Circuit? ==> resp == Captured(p.req.calls) && err == CallerError(reply, adm)
  {
    match p
    case Backend(_) =>
      resp, err := reply.response, reply.err;
    case Circuit(req) =>
      resp, err := req.Call(reply, adm);
  }

  /** The middleware NewMiddleware returns. */
  datatype Middleware =
    | EmptyMiddleware                    // the framework's passthrough
    | CircuitMiddleware(cb: HystrixCommand)

  /** The part of a backend's configuration the middleware reads. */
  datatype BackendConfig = BackendConfig(extraConfig: ExtraConfig)

  /** Chooses the middleware: a configuration equal to ZeroCfg, as a whole struct,
      gives the passthrough; any other builds a command from it. */
  function NewMiddleware(remote: BackendConfig): (r: Result<Middleware, Panic>)
    ensures r.Failure? <==> ConfigGetter(remote.extraConfig).Failure?
    ensures r.Failure? ==> r.error == ConfigGetter(remote.extraConfig).error
    ensures r == Success(EmptyMiddleware) <==> ConfigGetter(remote.extraConfig) == Success(ZeroCfg)
    ensures r.Success? && r.value.CircuitMiddleware? ==>
      r.value.cb == NewCommand(ConfigGetter(remote.extraConfig).value)
  {
    var data :- ConfigGetter(remote.extraConfig);
    if data == ZeroCfg then Success(EmptyMiddleware) else Success(CircuitMiddleware(NewCommand(data)))
  }

  /** The passthrough is chosen exactly when the breaker block is missing, not a
      map[string]interface{}, or holds only values that read as zero. */
  lemma PassthroughIff(remote: BackendConfig)
    ensures NewMiddleware(remote) == Success(EmptyMiddleware) <==>
      var e := remote.extraConfig;
      !HasBlock(e) || forall i :: 0 <= i < |RecognisedKeys| ==> ReadsAsZero(e[Namespace].entries, i)
  {
    ZeroCfgIff(remote.extraConfig);
  }

  /** The disabled test is whole-struct equality: an empty command name with any
      non-zero setting still builds a command, under the empty name. */
  lemma EmptyNameStillGuards(remote: BackendConfig)
    requires ConfigGetter(remote.extraConfig).Success?
    requires ConfigGetter(remote.extraConfig).value.commandName == ""
    requires ConfigGetter(remote.extraConfig).value != ZeroCfg
    ensures NewMiddleware(remote).Success? && NewMiddleware(remote).value.CircuitMiddleware?
    ensures NewMiddleware(remote).value.cb.name == ""
  {
  }

  /** The arity check every middleware makes on its variadic argument. */
  function SelectNext(next: seq<Proxy>): (r: Result<Proxy, Panic>)
    ensures r == Failure(TooManyProxies) <==> |next| > 1
    ensures r == Failure(IndexOutOfRange) <==> |next| == 0
    ensures r.Success? <==> |next| == 1
    ensures r.Success? ==> r.value == next[0]
  {
    if |next| > 1 then Failure(TooManyProxies)
    else if |next| == 0 then Failure(IndexOutOfRange)
    else Success(next[0])
  }

  /** Applies a middleware to its wrapped proxies. The passthrough returns the
      wrapped proxy itself; the circuit middleware builds a fresh guarded proxy
      with nothing captured yet, sharing the middleware's command. */
  method Apply(m: Middleware, next: seq<Proxy>) returns (r: Result<Proxy, Panic>)
    ensures SelectNext(next).Failure? ==> r == SelectNext(next)
    ensures m.EmptyMiddleware? ==> r == SelectNext(next)
    ensures m.CircuitMiddleware? && |next| == 1 ==>
      && r.Success? && r.value.Circuit? && fresh(r.value.req)
      && r.value.req.Valid() && r.value.req.calls == []
      && r.value.req.cb == m.cb && r.value.req.next == next[0]
  {
    var p :- SelectNext(next);
    match m {
      case EmptyMiddleware =>
        r := Success(p);
      case CircuitMiddleware(cb) =>
        var req := new CbRequest(cb, p);
        r := Success(Circuit(req));
    }
  }

  /** Wraps a backend factory: the middleware chosen from the backend's
      configuration, applied to the proxy the inner factory builds. */
  method BackendFactory(next: BackendConfig -> Proxy, remote: BackendConfig) returns (r: Result<Proxy, Panic>)
    ensures NewMiddleware(remote).Failure? ==> r == Failure(NewMiddleware(remote).error)
    ensures NewMiddleware(remote) == Success(EmptyMiddleware) ==> r == Success(next(remote))
    ensures NewMiddleware(remote).Success? && NewMiddleware(remote).value.CircuitMiddleware? ==>
      && r.Success? && r.value.Circuit? && fresh(r.value.req)
      && r.value.req.Valid() && r.value.req.calls == []
      && r.value.req.cb == NewMiddleware(remote).value.cb && r.value.req.next == next(remote)
  {
    var m :- NewMiddleware(remote);
    r := Apply(m, [next(remote)]);
  }
}
