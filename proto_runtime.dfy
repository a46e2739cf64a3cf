/** The prototype's runtime, JavaAfl.java at the top of the repository: a map, an
    initialisation that installs an uncaught-exception handler, and a counting loop. Its
    natives become entries of a log. */
module ProtoRuntime {
  import opened JavaTypes
  import opened Wrappers
  import Bytecode

  /** The prototype's JNI natives, as requests. */
  datatype ProtoNative = InitImpl(persistent: bool) | SendMap | HandleUncaught | AfterMainNative

  /** `_allow_persistent`, `_current_iteration`, whether the default uncaught-exception
      handler has been set, and the natives asked for so far. */
  datatype ProtoRt = ProtoRt(allowPersistent: bool, iteration: Int32, handlerInstalled: bool, log: seq<ProtoNative>)

  /** The state after the static initialiser. */
  function ProtoInitial(): ProtoRt
  {
    ProtoRt(false, 0, false, [])
  }

  /** `_init(is_persistent)`: the native initialisation, then the handler. */
  function ProtoInit(s: ProtoRt, persistent: bool): (r: ProtoRt)
    ensures r.handlerInstalled && r.log == s.log + [InitImpl(persistent)]
    ensures r.allowPersistent == s.allowPersistent && r.iteration == s.iteration
  {
    s.(log := s.log + [InitImpl(persistent)], handlerInstalled := true)
  }

  /** `_before_main` and the user's `init()` both start non-persistently. */
  function ProtoBeforeMain(s: ProtoRt): (r: ProtoRt)
    ensures r.handlerInstalled && r.log == s.log + [InitImpl(false)]
    ensures r.allowPersistent == s.allowPersistent && r.iteration == s.iteration
  {
    ProtoInit(s, false)
  }

  /** `Handler.uncaughtException` hands the process to the native side. */
  function ProtoUncaught(s: ProtoRt): (r: ProtoRt)
    ensures r.log == s.log + [HandleUncaught]
    ensures r.allowPersistent == s.allowPersistent && r.iteration == s.iteration && r.handlerInstalled == s.handlerInstalled
  {
    s.(log := s.log + [HandleUncaught])
  }

  /** The call the instrumented `main` makes before each return. */
  function ProtoAfterMain(s: ProtoRt): (r: ProtoRt)
    ensures r.log == s.log + [AfterMainNative]
    ensures r.allowPersistent == s.allowPersistent && r.iteration == s.iteration && r.handlerInstalled == s.handlerInstalled
  {
    s.(log := s.log + [AfterMainNative])
  }

  /** `loop(iterations)`, with `env` whether `JAVA_AFL_PERSISTENT` is set. The first call
      reads the environment and initialises; later calls send the map when persistence is
      allowed and go on while the count is below the request. */
  function ProtoLoop(s: ProtoRt, n: Int32, env: bool): (r: (ProtoRt, bool))
    ensures s.iteration == 0 ==>
      r == (ProtoInit(s.(allowPersistent := env), env).(iteration := 1), true)
    ensures s.iteration != 0 ==>
      r.0.allowPersistent == s.allowPersistent && r.0.handlerInstalled == s.handlerInstalled &&
      (r.1 <==> s.allowPersistent && s.iteration < n) &&
      r.0.iteration == (if r.1 then s.iteration + 1 else s.iteration) &&
      r.0.log == s.log + (if s.allowPersistent then [SendMap] else [])
  {
    if s.iteration == 0 then
      (ProtoInit(s.(allowPersistent := env), env).(iteration := 1), true)
    else if s.allowPersistent && s.iteration < n then
      (s.(log := s.log + [SendMap], iteration := s.iteration + 1), true)
    else if s.allowPersistent then
      (s.(log := s.log + [SendMap]), false)
    else
      (s, false)
  }

  /** `k` successive calls of `loop(n)`, with their answers. */
  function ProtoLoopCalls(s: ProtoRt, n: Int32, env: bool, k: nat): (r: (ProtoRt, seq<bool>))
    ensures |r.1| == k
    decreases k
  {
    if k == 0 then (s, [])
    else
      var (s1, answers) := ProtoLoopCalls(s, n, env, k - 1);
      var (s2, more) := ProtoLoop(s1, n, env);
      (s2, answers + [more])
  }

  function SendMaps(m: nat): (r: seq<ProtoNative>)
    ensures |r| == m && forall i :: 0 <= i < m ==> r[i] == SendMap
  {
    if m == 0 then [] else SendMaps(m - 1) + [SendMap]
  }

  function Min(a: int, b: int): int { if a <= b then a else b }
  function Max(a: int, b: int): int { if a <= b then b else a }

  /** From a fresh loop, `loop(n)` answers true on the first call and, when persistence is
      allowed, on every call before the `n`-th one, so the loop body runs `max(1, n)` times
      (once without persistence); every persistent call after the first sends the map. */
  lemma {:induction false} ProtoLoopScenario(s: ProtoRt, n: Int32, env: bool, k: nat)
    requires s.iteration == 0 && 1 <= k
    ensures var (r, answers) := ProtoLoopCalls(s, n, env, k);
      (forall i :: 0 <= i < k ==> (answers[i] <==> i == 0 || (env && i < n as int))) &&
      r.iteration as int == (if env then Min(k, Max(1, n as int)) else 1) &&
      r.allowPersistent == env && r.handlerInstalled &&
      r.log == s.log + [InitImpl(env)] + (if env then SendMaps(k - 1) else [])
  {
    if k == 1 {
      assert ProtoLoopCalls(s, n, env, 0) == (s, []);
    } else {
      ProtoLoopScenario(s, n, env, k - 1);
      var (s1, answers) := ProtoLoopCalls(s, n, env, k - 1);
      var (s2, more) := ProtoLoop(s1, n, env);
      assert ProtoLoopCalls(s, n, env, k) == (s2, answers + [more]);
      assert more <==> env && k - 1 < n as int;
      if env {
        assert s.log + [InitImpl(env)] + SendMaps(k - 1) == s.log + [InitImpl(env)] + SendMaps(k - 2) + [SendMap];
      }
    }
  }

  /** However many calls are made, the count never passes the larger of one and the
      request, and it never goes down. */
  lemma {:induction false} ProtoLoopBounded(s: ProtoRt, n: Int32, env: bool, k: nat)
    requires 0 <= s.iteration as int <= Max(1, n as int)
    ensures var r := ProtoLoopCalls(s, n, env, k).0;
      s.iteration <= r.iteration && r.iteration as int <= Max(1, n as int)
    decreases k
  {
    if k > 0 {
      ProtoLoopBounded(s, n, env, k - 1);
    }
  }

  /** The static fields of the prototype's `JavaAfl`. */
  class ProtoJavaAfl {
    /** `map`, of the size the native side announces. */
    const traceMap: array<JByte>
    /** `prev_location`: only the record blocks write it. */
    var prevLocation: Int32
    var allowPersistent: bool
    var iteration: Int32
    var handlerInstalled: bool
    var log: seq<ProtoNative>

    ghost function State(): ProtoRt
      reads this
    {
      ProtoRt(allowPersistent, iteration, handlerInstalled, log)
    }

    constructor ()
      ensures State() == ProtoInitial() && prevLocation == 0
      ensures fresh(traceMap) && traceMap.Length == MapSize
    {
      traceMap := new JByte[MapSize];
      prevLocation, allowPersistent, iteration, handlerInstalled, log := 0, false, 0, false, [];
    }

    method Init(persistent: bool)
      modifies this
      ensures State() == ProtoInit(old(State()), persistent) && prevLocation == old(prevLocation)
    {
      log := log + [InitImpl(persistent)];
      handlerInstalled := true;
    }

    method BeforeMain()
      modifies this
      ensures State() == ProtoBeforeMain(old(State())) && prevLocation == old(prevLocation)
    {
      Init(false);
    }

    /** The public `init()` for the deferred mode. */
    method UserInit()
      modifies this
      ensures State() == ProtoBeforeMain(old(State())) && prevLocation == old(prevLocation)
    {
      Init(false);
    }

    method HandleUncaughtException()
      modifies this
      ensures State() == ProtoUncaught(old(State())) && prevLocation == old(prevLocation)
    {
      log := log + [HandleUncaught];
    }

    method AfterMain()
      modifies this
      ensures State() == ProtoAfterMain(old(State())) && prevLocation == old(prevLocation)
    {
      log := log + [AfterMainNative];
    }

    method Loop(iterations: Int32, env: bool) returns (more: bool)
      modifies this
      ensures (State(), more) == ProtoLoop(old(State()), iterations, env) && prevLocation == old(prevLocation)
    {
      if iteration == 0 {
        allowPersistent := env;
        Init(allowPersistent);
        iteration := 1;
        return true;
      }
      if allowPersistent && iteration < iterations {
        log := log + [SendMap];
        iteration := iteration + 1;
        return true;
      }
      if allowPersistent {
        log := log + [SendMap];
      }
      return false;
    }

    /** One run of the record block the prototype emits for location `id`: with the tuple
        index outside `map` it throws an index exception before anything is written;
        otherwise the slot is incremented with byte wrap-around and `prev_location` becomes
        `id >> 1`, as `Bytecode.RecordEffect` says. */
    method Record(id: Int32) returns (exn: Option<Bytecode.Exn>)
      modifies traceMap, this`prevLocation
      ensures !(0 <= Xor(id, old(prevLocation)) as int < traceMap.Length) ==>
        exn == Some(Bytecode.IndexOutOfBounds) && traceMap[..] == old(traceMap[..]) && prevLocation == old(prevLocation)
      ensures 0 <= Xor(id, old(prevLocation)) as int < traceMap.Length ==>
        exn == None && (traceMap[..], prevLocation) == Bytecode.RecordEffect(old(traceMap[..]), old(prevLocation), id)
    {
      var index := Xor(id, prevLocation);
      if !(0 <= index as int < traceMap.Length) {
        return Some(Bytecode.IndexOutOfBounds);
      }
      traceMap[index] := I2B(traceMap[index] as int + 1);
      prevLocation := Shr1(id);
      return None;
    }
  }
}
