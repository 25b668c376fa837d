# krakend-cbreaker: the circuit-breaker middleware's decision logic

This project models the logic that the krakend-cbreaker package (Go package `cbreaker`)
wraps around a breaker library. The model has three parts:

- **Configuration extraction** (`Cbreaker.ConfigGetter`). The breaker's block is read out of a
  backend's loosely typed extra configuration. Dynamic Go values are the datatype `Value`.
  JSON numbers are `Float(real)`. A missing block, or a block that is not a
  `map[string]interface{}`, gives the sentinel `ZeroCfg`. A recognised key holding the
  wrong dynamic type makes Go panic; here that is `Failure(TypeAssertion(key))`.
- **Command construction** (`Cbreaker.NewCommand`). The typed `Config` is mapped to the
  breaker library's settings. The sleep window is not forwarded.
- **Middleware selection and the guarded proxy** (module `CbProxy`).
  - A configuration equal to `ZeroCfg`, compared as a whole struct, gives the passthrough.
  - Any other configuration gives a middleware that builds a `CbRequest` around exactly one wrapped proxy.
  - A `CbRequest` is the closure `NewCbRequest` returns. Its field `response` persists from call to call.
  - Each call takes two oracles: the wrapped proxy's `Reply` and the breaker engine's `Admission`.
    `Run` means the command runs and `Execute` returns its error.
    `Reject(e)` means the command does not run and `Execute` returns `e`.
  - A status 500 response becomes `Backend500Error`.
  - Every other error from `Execute` is replaced by nil.
  - The response returned is always the captured variable: the last response stored by an admitted call, or nil.

`Cbreaker.ConfigGetterPanicsIff`, `Cbreaker.ZeroCfgIff` and `CbProxy.CallerErrorIff` state
both directions of their case analyses. The lemmas about `CbProxy.Captured` describe the
captured response over any sequence of calls. Module `CbScenarios` replays the tests'
situations as client code: passthrough, too many proxies, 404, 500, and a stale response
after a rejection.

Behaviours of the code a reader may not expect:
- a missing `command_name` alone does not disable the breaker; only whole-struct equality with `ZeroCfg` does;
- a wrong-typed recognised key panics instead of degrading to the passthrough;
- a breaker rejection is not surfaced to the caller; the caller gets the captured response and a nil error;
- `sleep_window` is parsed but never handed to the breaker library;
- the Closed/Open/Half-Open machine is not implemented by this package, so it appears only as the `Admission` oracle.

The tests that build their block as `map[interface{}]interface{}` (proxy_test.go:90-184) get the
passthrough. They therefore say nothing about the guarded proxy. `CbScenarios.ServerErrorScenario`
shows that with a real block, a call rejected after a 500 returns a nil error rather than
`Backend500Error`.

## Model

| member | source | states |
|---|---|---|
| Cbreaker.Truncate | cbreaker.go:46 | Go's float64-to-int conversion truncates toward zero: the result lies within 1 of the input, on the zero side |
| Cbreaker.ConfigGetter | cbreaker.go:31-39 | a missing namespace key or a non-`map[string]interface{}` value gives `ZeroCfg`; a failure only arises from a present block |
| Cbreaker.ParseBlock | cbreaker.go:41-60 | a failure names a present key of the wrong dynamic type; on success the name is the present string or "", each numeric field is its key's float truncated toward zero or 0 |
| Cbreaker.ConfigGetterPanicsIff | cbreaker.go:41-59 | extraction succeeds iff no recognised key is present with the wrong dynamic type; a failure names the first such key in reading order |
| Cbreaker.CommandNameCopied | cbreaker.go:42-44 | a present `command_name` is a string and is copied verbatim; an absent one leaves the name empty |
| Cbreaker.NumericFieldTruncated | cbreaker.go:45-59 | each present numeric key holds a float64 and sets its field to the truncated value; an absent key leaves the field zero |
| Cbreaker.OnlyRecognisedKeysMatter | cbreaker.go:41-60 | two blocks that agree on the six recognised keys extract to the same result; other keys are ignored |
| Cbreaker.NoRecognisedKeyIsZeroCfg | cbreaker.go:41-60 | a block with none of the recognised keys, e.g. an empty one, gives `ZeroCfg` |
| Cbreaker.ZeroCfgIff | cbreaker.go:31-60 | the result is `ZeroCfg` iff the block is missing, is not a string-keyed map, or whose recognised keys, where present, hold only an empty name and floats strictly between -1 and 1 |
| Cbreaker.ExtractsTestBlock | proxy_test.go:29-62 | the test block with floats 10.0, 15.0, 50.0, 2.0, 10.0 extracts to those integers and the name `test_cmd` |
| Cbreaker.NewCommand | cbreaker.go:64-74 | the command is named by `CommandName`, and `Timeout`, `MaxConcurrentRequests`, `ErrorPercentThreshold` and `RequestVolumeThreshold` each go to the setting of the same name; the sleep window setting is zero |
| Cbreaker.NewCommandForgetsOnlySleepWindow | cbreaker.go:64-74 | two configurations give the same command iff they agree on everything but the sleep window; the name and the four settings are those of the configuration |
| CbProxy.CommandError | proxy.go:43-52 | the guarded command returns `Backend500Error` iff the response is non-nil with status 500 or the backend returned that error; otherwise the backend's own error |
| CbProxy.Surface | proxy.go:53-59 | the caller's error is nil or `Backend500Error`, and it is `Backend500Error` iff `Execute` returned exactly that error |
| CbProxy.CallerErrorIff | proxy.go:43-59 | the caller sees `Backend500Error` iff the command ran and the backend answered 500 or returned that error, or the engine rejected with that error; otherwise nil |
| CbProxy.CapturedIsLastRun | proxy.go:41-59 | after any sequence of calls the returned response is the one stored by the last admitted call |
| CbProxy.CapturedBeforeAnyRun | proxy.go:41-59 | while no call has been admitted, the returned response is nil |
| CbProxy.CapturedFromBackend | proxy.go:44-45 | a non-nil returned response is one the wrapped proxy returned during some admitted call |
| CbProxy.CbRequest.constructor | proxy.go:40-41 | a new guarded proxy keeps the command and the wrapped proxy, and has captured nothing |
| CbProxy.CbRequest.Call | proxy.go:42-60 | an admitted call overwrites the captured response, a rejected one leaves it; the call returns the captured response and the surfaced error |
| CbProxy.Invoke | proxy.go:42-60 | a proxy built elsewhere answers with its own reply; a guarded proxy answers as `CbRequest.Call` |
| CbProxy.NewMiddleware | proxy.go:24-31 | extraction panics propagate; the passthrough is chosen iff the configuration equals `ZeroCfg`; otherwise the middleware carries `NewCommand` of it |
| CbProxy.PassthroughIff | proxy.go:25-28 | the passthrough is chosen iff the block is missing, not a string-keyed map, or whose recognised keys, where present, hold only values that read as zero |
| CbProxy.EmptyNameStillGuards | proxy.go:26-30 | an empty command name with a non-zero setting still builds a command, under the empty name |
| CbProxy.SelectNext | proxy.go:33-36 | more than one wrapped proxy fails with `ErrTooManyProxies`, none fails indexing `next[0]`, exactly one is selected |
| CbProxy.Apply | proxy.go:32-37 | the passthrough returns the wrapped proxy itself; the circuit middleware returns a fresh guarded proxy around it that shares the command and has captured nothing |
| CbProxy.BackendFactory | proxy.go:15-19 | the factory's proxy is the chosen middleware applied to the inner factory's proxy for the same backend |

## Left out

- The breaker engine (hystrix-go): rolling statistics, Closed/Open/Half-Open transitions, the concurrency cap, timeouts and the process-wide command registry. It is not part of this package. `Execute` is the `Admission` oracle, and `hystrix.ConfigureCommand` (cbreaker.go:71) is not modelled.
- Timeouts: hystrix returns a timeout error while the command goes on running in another goroutine, and may store a response later. The oracle has no such outcome.
- Concurrency: the captured `response` is shared by concurrent callers without synchronisation. The model covers single-threaded sequences of calls only.
- The wrapped proxy's own effects: its answer to each call is the unconstrained `Reply` oracle, so when it is itself a guarded proxy its captured response is not updated by the outer call.
- The context and the request are passed unchanged to the wrapped proxy. They are folded into the per-call `Reply` oracle.
- krakend framework types: `config.Backend` is reduced to its extra configuration, and a `*proxy.Response` to an identity plus a status code. `proxy.EmptyMiddleware` is not part of this model; it is given the arity behaviour the test at proxy_test.go:20-27 relies on.
- Floating point: JSON numbers are reals. NaN, infinities and out-of-range conversions to int are not modelled.
- `QueueSizeRejectionThreshold` and the other hystrix settings that `NewCommand` leaves at zero are not represented, except the sleep window.
- proxy_integration_test.go is all I/O (HTTP servers, a load test) and is not modelled.
- The redeclaration of `Backend500Error` in proxy_test.go:18 is a test artefact and is not modelled.
