/** The configuration side of the circuit-breaker middleware (cbreaker.go):
    reading the breaker's block out of a backend's loosely typed extra
    configuration, and mapping the typed result to the settings handed to the
    breaker library. */
module Cbreaker {
  import opened Wrappers

  /** The key under which the breaker's block is stored in the extra configuration. */
  const Namespace: string := "github.com/schibsted/krakend-cbreaker"

  /** A dynamically typed configuration value (Go's interface{}). */
  datatype Value =
    | Str(s: string)                       // string
    | Float(f: real)                       // float64: what decoded JSON numbers are
    | Int(i: int)                          // a Go int, as in hand-built configuration
    | StrMap(entries: map<string, Value>)  // map[string]interface{}
    | AnyMap                               // map[interface{}]interface{}
    | Other                                // nil, or any other dynamic type

  /** A backend's extra configuration: namespace key to value. */
  type ExtraConfig = map<string, Value>

  /** The typed breaker configuration. */
  datatype Config = Config(
    commandName: string,
    timeout: int,
    sleepWindow: int,
    maxConcurrentRequests: int,
    errorPercentThreshold: int,
    requestVolumeThreshold: int)

  /** The zero value of Config; a configuration equal to it disables the breaker. */
  const ZeroCfg := Config("", 0, 0, 0, 0, 0)

  /** The Go panics the modelled code can raise, as explicit failures. */
  datatype Panic =
    | TypeAssertion(key: string)  // a value under `key` has the wrong dynamic type
    | TooManyProxies              // proxy.ErrTooManyProxies
    | IndexOutOfRange             // next[0] on an empty argument list

  const CommandNameKey: string := "command_name"
  const TimeoutKey: string := "timeout"
  const MaxConcurrentKey: string := "max_concurrent_requests"
  const ErrorPercentKey: string := "error_percent_threshold"
  const RequestVolumeKey: string := "request_volume_threshold"
  const SleepWindowKey: string := "sleep_window"

  /** The keys ConfigGetter reads, in the order in which it reads them. */
  const RecognisedKeys: seq<string> :=
    [CommandNameKey, TimeoutKey, MaxConcurrentKey, ErrorPercentKey, RequestVolumeKey, SleepWindowKey]

  /** Go's conversion int(x) of a float64: truncation toward zero. */
  function Truncate(x: real): (n: int)
    ensures 0.0 <= x ==> 0 <= n && n as real <= x < n as real + 1.0
    ensures x < 0.0 ==> n <= 0 && n as real - 1.0 < x <= n as real
  {
    if x < 0.0 then -((-x).Floor) else x.Floor
  }

  /** The dynamic type the type assertion on `key` expects. */
  predicate WellTyped(key: string, v: Value) {
    if key == CommandNameKey then v.Str? else v.Float?
  }

  /** The i-th recognised key is present and fails its type assertion. */
  predicate IllTypedAt(block: map<string, Value>, i: int)
    requires 0 <= i < |RecognisedKeys|
  {
    RecognisedKeys[i] in block && !WellTyped(RecognisedKeys[i], block[RecognisedKeys[i]])
  }

  /** The i-th recognised key is the first, in reading order, to fail its type assertion. */
  predicate FirstIllTyped(block: map<string, Value>, i: int) {
    && 0 <= i < |RecognisedKeys|
    && IllTypedAt(block, i)
    && forall j :: 0 <= j < i ==> !IllTypedAt(block, j)
  }

  /** `v.(string)` on an optional lookup: "" when absent. */
  function StringAt(block: map<string, Value>, key: string): Result<string, Panic> {
    if key !in block then Success("")
    else if block[key].Str? then Success(block[key].s)
    else Failure(TypeAssertion(key))
  }

  /** `int(v.(float64))` on an optional lookup: 0 when absent. */
  function NumberAt(block: map<string, Value>, key: string): Result<int, Panic> {
    if key !in block then Success(0)
    else if block[key].Float? then Success(Truncate(block[key].f))
    else Failure(TypeAssertion(key))
  }

  /** Fills a fresh Config from the breaker's block, key by key in source order. */
  function ParseBlock(block: map<string, Value>): (r: Result<Config, Panic>)
    ensures r.Failure? ==>
      r.error.TypeAssertion? && r.error.key in block && !WellTyped(r.error.key, block[r.error.key])
    ensures r.Success? && CommandNameKey in block ==> block[CommandNameKey].Str?
    ensures r.Success? ==> forall i :: 1 <= i < |RecognisedKeys| && RecognisedKeys[i] in block ==>
      block[RecognisedKeys[i]].Float?
    ensures r.Success? ==>
      r.value.commandName == if CommandNameKey in block then block[CommandNameKey].s else ""
    ensures r.Success? ==> forall i :: 1 <= i < |RecognisedKeys| ==>
      NumericField(r.value, RecognisedKeys[i]) ==
        if RecognisedKeys[i] in block then Truncate(block[RecognisedKeys[i]].f) else 0
  {
    var name :- StringAt(block, CommandNameKey);
    var timeout :- NumberAt(block, TimeoutKey);
    var maxConcurrent :- NumberAt(block, MaxConcurrentKey);
    var errorPercent :- NumberAt(block, ErrorPercentKey);
    var requestVolume :- NumberAt(block, RequestVolumeKey);
    var sleepWindow :- NumberAt(block, SleepWindowKey);
    Success(Config(name, timeout, sleepWindow, maxConcurrent, errorPercent, requestVolume))
  }

  /** Extracts the breaker configuration; a missing or non-map block gives ZeroCfg,
      a recognised key of the wrong dynamic type panics. */
  function ConfigGetter(e: ExtraConfig): (r: Result<Config, Panic>)
    ensures Namespace !in e ==> r == Success(ZeroCfg)
    ensures Namespace in e && !e[Namespace].StrMap? ==> r == Success(ZeroCfg)
    ensures r.Failure? ==> Namespace in e && e[Namespace].StrMap? && r.error.TypeAssertion?
  {
    if Namespace !in e then Success(ZeroCfg)
    else match e[Namespace]
      case StrMap(block) => ParseBlock(block)
      case _ => Success(ZeroCfg)
  }

  /** The numeric field of a Config that the recognised numeric key fills. */
  function NumericField(cfg: Config, key: string): int
    requires key in RecognisedKeys[1..]
  {
    if key == TimeoutKey then cfg.timeout
    else if key == MaxConcurrentKey then cfg.maxConcurrentRequests
    else if key == ErrorPercentKey then cfg.errorPercentThreshold
    else if key == RequestVolumeKey then cfg.requestVolumeThreshold
    else cfg.sleepWindow
  }

  /** A breaker block is present and is a map[string]interface{}. */
  predicate HasBlock(e: ExtraConfig) {
    Namespace in e && e[Namespace].StrMap?
  }

  /** Extraction succeeds exactly when no recognised key is present with the wrong
      dynamic type; when it fails, it names the first such key in reading order. */
  lemma ConfigGetterPanicsIff(e: ExtraConfig)
    ensures ConfigGetter(e).Success? <==>
      (!HasBlock(e) || forall i :: 0 <= i < |RecognisedKeys| ==> !IllTypedAt(e[Namespace].entries, i))
    ensures ConfigGetter(e).Failure? ==>
      exists i :: FirstIllTyped(e[Namespace].entries, i)
        && ConfigGetter(e).error == TypeAssertion(RecognisedKeys[i])
  {
    if HasBlock(e) {
      var block := e[Namespace].entries;
      if IllTypedAt(block, 0) {
        assert FirstIllTyped(block, 0);
      } else if IllTypedAt(block, 1) {
        assert FirstIllTyped(block, 1);
      } else if IllTypedAt(block, 2) {
        assert FirstIllTyped(block, 2);
      } else if IllTypedAt(block, 3) {
        assert FirstIllTyped(block, 3);
      } else if IllTypedAt(block, 4) {
        assert FirstIllTyped(block, 4);
      } else if IllTypedAt(block, 5) {
        assert FirstIllTyped(block, 5);
      }
    }
  }

  /** A present string command_name is copied verbatim; an absent one leaves "". */
  lemma CommandNameCopied(e: ExtraConfig)
    requires HasBlock(e) && ConfigGetter(e).Success?
    ensures var block := e[Namespace].entries;
      ConfigGetter(e).value.commandName ==
        if CommandNameKey in block then block[CommandNameKey].s else ""
    ensures CommandNameKey in e[Namespace].entries ==> e[Namespace].entries[CommandNameKey].Str?
  {
  }

  /** Each present numeric key sets its field to the float truncated toward zero;
      an absent one leaves the field at zero. */
  lemma NumericFieldTruncated(e: ExtraConfig, key: string)
    requires HasBlock(e) && ConfigGetter(e).Success?
    requires key in RecognisedKeys[1..]
    ensures var block := e[Namespace].entries;
      && (key in block ==> block[key].Float?)
      && NumericField(ConfigGetter(e).value, key) ==
           if key in block then Truncate(block[key].f) else 0
  {
  }

  /** Only the recognised keys of the block matter: unrecognised keys are ignored. */
  lemma OnlyRecognisedKeysMatter(e: ExtraConfig, e': ExtraConfig)
    requires HasBlock(e) && HasBlock(e')
    requires forall i :: 0 <= i < |RecognisedKeys| ==>
      (RecognisedKeys[i] in e[Namespace].entries <==> RecognisedKeys[i] in e'[Namespace].entries)
    requires forall i :: 0 <= i < |RecognisedKeys| && RecognisedKeys[i] in e[Namespace].entries ==>
      e[Namespace].entries[RecognisedKeys[i]] == e'[Namespace].entries[RecognisedKeys[i]]
    ensures ConfigGetter(e) == ConfigGetter(e')
  {
    var b, b' := e[Namespace].entries, e'[Namespace].entries;
    assert StringAt(b, RecognisedKeys[0]) == StringAt(b', RecognisedKeys[0]);
    assert NumberAt(b, RecognisedKeys[1]) == NumberAt(b', RecognisedKeys[1]);
    assert NumberAt(b, RecognisedKeys[2]) == NumberAt(b', RecognisedKeys[2]);
    assert NumberAt(b, RecognisedKeys[3]) == NumberAt(b', RecognisedKeys[3]);
    assert NumberAt(b, RecognisedKeys[4]) == NumberAt(b', RecognisedKeys[4]);
    assert NumberAt(b, RecognisedKeys[5]) == NumberAt(b', RecognisedKeys[5]);
  }

  /** A block holding none of the recognised keys (an empty one, say) yields ZeroCfg. */
  lemma NoRecognisedKeyIsZeroCfg(e: ExtraConfig)
    requires HasBlock(e)
    requires forall i :: 0 <= i < |RecognisedKeys| ==> RecognisedKeys[i] !in e[Namespace].entries
    ensures ConfigGetter(e) == Success(ZeroCfg)
  {
    assert CommandNameKey !in e[Namespace].entries by { assert RecognisedKeys[0] == CommandNameKey; }
    assert TimeoutKey !in e[Namespace].entries by { assert RecognisedKeys[1] == TimeoutKey; }
    assert MaxConcurrentKey !in e[Namespace].entries by { assert RecognisedKeys[2] == MaxConcurrentKey; }
    assert ErrorPercentKey !in e[Namespace].entries by { assert RecognisedKeys[3] == ErrorPercentKey; }
    assert RequestVolumeKey !in e[Namespace].entries by { assert RecognisedKeys[4] == RequestVolumeKey; }
    assert SleepWindowKey !in e[Namespace].entries by { assert RecognisedKeys[5] == SleepWindowKey; }
  }

  /** The recognised key is present with a value that still reads as zero:
      an empty command name, or a float strictly between -1 and 1. */
  predicate ReadsAsZero(block: map<string, Value>, i: int)
    requires 0 <= i < |RecognisedKeys|
  {
    RecognisedKeys[i] in block ==>
      var v := block[RecognisedKeys[i]];
      if i == 0 then v == Str("") else v.Float? && -1.0 < v.f < 1.0
  }

  /** Extraction yields ZeroCfg exactly when the block is missing, is not a
      map[string]interface{}, or every recognised key in it reads as zero. */
  lemma ZeroCfgIff(e: ExtraConfig)
    ensures ConfigGetter(e) == Success(ZeroCfg) <==>
      (!HasBlock(e) || forall i :: 0 <= i < |RecognisedKeys| ==> ReadsAsZero(e[Namespace].entries, i))
  {
    if HasBlock(e) {
      var block := e[Namespace].entries;
      if forall i :: 0 <= i < |RecognisedKeys| ==> ReadsAsZero(block, i) {
        assert ReadsAsZero(block, 0) && ReadsAsZero(block, 1) && ReadsAsZero(block, 2);
        assert ReadsAsZero(block, 3) && ReadsAsZero(block, 4) && ReadsAsZero(block, 5);
      } else {
        var i :| 0 <= i < |RecognisedKeys| && !ReadsAsZero(block, i);
        assert ConfigGetter(e) != Success(ZeroCfg) by {
          if ConfigGetter(e).Success? {
            if i == 0 {
              CommandNameCopied(e);
            } else {
              NumericFieldTruncated(e, RecognisedKeys[i]);
            }
          }
        }
      }
    }
  }

  /** The block of the middleware's configuration test: JSON floats are truncated
      and the command name is copied. */
  lemma ExtractsTestBlock()
    ensures ConfigGetter(map[Namespace := StrMap(map[
        CommandNameKey := Str("test_cmd"),
        SleepWindowKey := Float(10.0),
        MaxConcurrentKey := Float(15.0),
        ErrorPercentKey := Float(50.0),
        RequestVolumeKey := Float(2.0),
        TimeoutKey := Float(10.0)])])
      == Success(Config("test_cmd", 10, 10, 15, 50, 2))
  {
  }

  /** hystrix.CommandConfig: the settings NewCommand hands to the breaker library. */
  datatype CommandConfig = CommandConfig(
    timeout: int,
    maxConcurrentRequests: int,
    requestVolumeThreshold: int,
    sleepWindow: int,
    errorPercentThreshold: int)

  /** A named breaker command and the settings it was configured with. */
  datatype HystrixCommand = HystrixCommand(name: string, cfg: CommandConfig)

  /** Builds the command: the name and four numeric settings are copied,
      the sleep window is left at its zero value. */
  function NewCommand(cfg: Config): (c: HystrixCommand)
    ensures c.name == cfg.commandName
    ensures c.cfg.timeout == cfg.timeout
    ensures c.cfg.maxConcurrentRequests == cfg.maxConcurrentRequests
    ensures c.cfg.errorPercentThreshold == cfg.errorPercentThreshold
    ensures c.cfg.requestVolumeThreshold == cfg.requestVolumeThreshold
    ensures c.cfg.sleepWindow == 0
  {
    HystrixCommand(cfg.commandName, CommandConfig(
      timeout := cfg.timeout,
      maxConcurrentRequests := cfg.maxConcurrentRequests,
      requestVolumeThreshold := cfg.requestVolumeThreshold,
      sleepWindow := 0,
      errorPercentThreshold := cfg.errorPercentThreshold))
  }

  /** Two configurations give the same command exactly when they differ at most
      in their sleep window: every other field is forwarded, that one is dropped. */
  lemma NewCommandForgetsOnlySleepWindow(a: Config, b: Config)
    ensures NewCommand(a) == NewCommand(b) <==> a.(sleepWindow := 0) == b.(sleepWindow := 0)
    ensures NewCommand(a).cfg.sleepWindow == 0
    ensures NewCommand(a).name == a.commandName
    ensures NewCommand(a).cfg.timeout == a.timeout
    ensures NewCommand(a).cfg.maxConcurrentRequests == a.maxConcurrentRequests
    ensures NewCommand(a).cfg.errorPercentThreshold == a.errorPercentThreshold
    ensures NewCommand(a).cfg.requestVolumeThreshold == a.requestVolumeThreshold
  {
  }
}
