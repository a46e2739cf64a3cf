/** The runtime of javafl/JavaAfl.java as a state machine over its static fields. Every entry
    point is a function from the old state (and what it reads from outside: init flags,
    environment variables, process ids) to the new one. The JNI natives are entries appended
    to an event log; `ForceExit` ends the process, so nothing follows it. */
module Protocol {
  import opened JavaTypes

  /** `INIT_HAS_SHM` and `INIT_HAS_FORKSERVER`: the bits of `_jni_init`'s answer. */
  const INIT_HAS_SHM: bv32 := 1
  const INIT_HAS_FORKSERVER: bv32 := 2

  /** The natives as seen from the Java side. */
  datatype Native =
    | JniInit(classId: Int32)          // _jni_init
    | InitForkserver                   // _jni_init_forkserver_mode
    | InitSurrogate                    // _jni_init_surrogate_mode
    | SpawnSurrogate                   // _new_fork_surrogate
    | ReportOk                         // _send_child_ok_status
    | ReportKilled(wstatus: Int32)     // _send_child_killed_status
    | ReportUncaught                   // _send_uncaught_exception_status
    | ForceExit(status: Int32)         // _force_exit_forked_child

  /** Which array `map` holds: `_map_original`, or null after the monitor cleared it. */
  datatype MapRef = Original | Cleared

  /** The static fields of `JavaAfl` that the entry points read and write. */
  datatype Rt = Rt(
    traceMap: MapRef,
    reportResults: bool,
    exitHandler: bool,           // the ExitHandlingSecurityManager is installed
    surrogate: bool,             // _is_surrogate_mode
    forkserver: bool,            // _is_forkserver_mode
    canRunPersistent: bool,
    runPersistent: bool,
    loopInitialized: bool,       // _is_persistent_loop_initialized
    iteration: Int64,            // _persistent_loop_iteration
    surrogatePid: Int64,         // _fork_surrogate_pid
    wstatus: Int32,              // _fork_surrogate_wstatus
    monitorStarted: bool,
    log: seq<Native>)

  /** How an entry point ends: it returns, it throws `SurrogateExitSecurityException`, or the
      process is gone through `_force_exit_forked_child(status)`. */
  datatype Flow = Returns | Throws | Exits(status: Int32)

  /** The state after the static initialiser: `map == _map_original`, every flag false. */
  function Initial(): Rt
  {
    Rt(Original, false, false, false, false, false, false, false, 0, 0, 0, false, [])
  }

  /** `String.hashCode`: `h = 31 * h + c` over the characters, on 32-bit `int`. */
  function JavaHashCode(name: string): Int32
  {
    if name == [] then 0 else Wrap32(31 * JavaHashCode(name[..|name| - 1]) as int + name[|name| - 1] as int)
  }

  predicate NoMode(s: Rt)
  {
    !s.surrogate && !s.forkserver
  }

  /** `_before_main`. `callerClass` is the name found on the stack, `flags` is what
      `_jni_init` answers, `persistentEnv` and `forkserverEnv` say whether
      `JAVA_AFL_PERSISTENT` and `JAVA_AFL_FORKSERVER` are set, and `newPid` is what
      `_new_fork_surrogate` answers. */
  function BeforeMain(s: Rt, callerClass: string, flags: bv32, persistentEnv: bool, forkserverEnv: bool, newPid: Int64): Rt
  {
    var hasShm := flags & INIT_HAS_SHM != 0;
    var s1 := s.(log := s.log + [JniInit(JavaHashCode(callerClass))], reportResults := hasShm,
                 exitHandler := s.exitHandler || hasShm);
    if flags & INIT_HAS_FORKSERVER == 0 then s1 else ChooseMode(s1, persistentEnv, forkserverEnv, newPid)
  }

  /** The second half of `_before_main`, reached when a forkserver is listening. */
  function ChooseMode(s: Rt, persistentEnv: bool, forkserverEnv: bool, newPid: Int64): Rt
  {
    var s1 := s.(canRunPersistent := persistentEnv);
    if !persistentEnv || forkserverEnv then s1.(forkserver := true, log := s1.log + [InitForkserver])
    else s1.(surrogate := true, log := s1.log + [InitSurrogate, SpawnSurrogate], surrogatePid := newPid,
             monitorStarted := true)
  }

  /** Mode selection in `_before_main`: results are reported iff the shared-memory bit is set;
      without the forkserver bit no mode is chosen; with it, forkserver mode exactly when
      persistence is not asked for or the forkserver is forced, surrogate mode otherwise;
      never both. */
  lemma ModeSelection(s: Rt, callerClass: string, flags: bv32, persistentEnv: bool, forkserverEnv: bool, newPid: Int64)
    ensures var r := BeforeMain(s, callerClass, flags, persistentEnv, forkserverEnv, newPid);
      && r.reportResults == (flags & INIT_HAS_SHM != 0)
      && r.exitHandler == (s.exitHandler || flags & INIT_HAS_SHM != 0)
      && (flags & INIT_HAS_FORKSERVER == 0 ==>
            r.surrogate == s.surrogate && r.forkserver == s.forkserver &&
            r.log == s.log + [JniInit(JavaHashCode(callerClass))])
      && (flags & INIT_HAS_FORKSERVER != 0 && NoMode(s) ==>
            && (r.forkserver <==> !persistentEnv || forkserverEnv)
            && (r.surrogate <==> persistentEnv && !forkserverEnv)
            && r.canRunPersistent == persistentEnv)
      && (NoMode(s) ==> !(r.surrogate && r.forkserver))
      && (r.surrogate && !s.surrogate ==>
            r.monitorStarted && r.surrogatePid == newPid &&
            r.log == s.log + [JniInit(JavaHashCode(callerClass)), InitSurrogate, SpawnSurrogate])
      && r.traceMap == s.traceMap && r.iteration == s.iteration && r.loopInitialized == s.loopInitialized
  {
  }

  /** `_report_child_ok_status`, without the interrupt recovery. */
  function ReportChildOk(s: Rt): (r: Rt)
    ensures r.log == s.log + [ReportOk] && r.(log := s.log) == s
  {
    s.(log := s.log + [ReportOk])
  }

  /** `_persistent_mode_loop()`. The first call only arms the loop, which keeps going only
      when persistence is allowed; every call after the armed one reports the finished
      iteration. */
  function PersistentLoop(s: Rt): (r: (Rt, bool))
    ensures !s.runPersistent && s.loopInitialized ==> r == (s, false)
    ensures !s.runPersistent && !s.loopInitialized ==>
      r == (s.(runPersistent := s.canRunPersistent, loopInitialized := true), true)
    ensures s.runPersistent ==> r.1 && r.0.log == s.log + [ReportOk] && r.0.(log := s.log) == s
  {
    if !s.runPersistent then
      if s.loopInitialized then (s, false)
      else (s.(runPersistent := s.canRunPersistent, loopInitialized := true), true)
    else (ReportChildOk(s), true)
  }

  /** `_persistent_mode_loop(iterations)`; its two assertions are its precondition. */
  function PersistentLoopN(s: Rt, n: Int64): (r: (Rt, bool))
    requires 0 < n && s.iteration < n
    ensures r.0.iteration as int == s.iteration as int + 1
    ensures r.1 <==> PersistentLoop(s.(iteration := s.iteration + 1)).1 && s.iteration as int + 1 != n as int
    ensures r.0.log == s.log || r.0.log == s.log + [ReportOk]
  {
    var s1 := s.(iteration := s.iteration + 1);
    var (s2, more) := PersistentLoop(s1);
    (s2, more && s2.iteration != n)
  }

  /** `_persistent_mode_loop_reset`. `_run_persistent` is not among what it resets. */
  function ResetLoop(s: Rt): (r: Rt)
    ensures r.iteration == 0 && !r.loopInitialized && r.runPersistent == s.runPersistent
  {
    s.(loopInitialized := false, iteration := 0)
  }

  /** `_surrogate_mode_loop`, without the stdin reset. */
  function SurrogateLoop(s: Rt): (r: (Rt, bool))
    ensures !s.surrogate ==> r == (s, false)
    ensures s.surrogate ==>
      && r.1 && r.0.iteration == 0 && !r.0.loopInitialized
      && r.0.log == s.log + [ReportOk]
      && r.0 == s.(iteration := 0, loopInitialized := false, log := s.log + [ReportOk])
  {
    if !s.surrogate then (s, false) else (ReportChildOk(ResetLoop(s)), true)
  }

  /** `ExitHandlingSecurityManager.checkExit(status)`. */
  function CheckExit(s: Rt, status: Int32): (r: (Rt, Flow))
    ensures s.surrogate ==> r == (s, Throws)
    ensures !s.surrogate && s.forkserver ==> r == (s.(log := s.log + [ReportOk] + [ForceExit(status)]), Exits(status))
    ensures !s.surrogate && !s.forkserver ==> r == (s.(log := s.log + [ReportOk]), Returns)
  {
    if s.surrogate then (s, Throws)
    else
      var s1 := ReportChildOk(s);
      if s1.forkserver then (s1.(log := s1.log + [ForceExit(status)]), Exits(status)) else (s1, Returns)
  }

  /** `_after_main`; its assertion is its precondition. */
  function AfterMain(s: Rt): (r: (Rt, Flow))
    requires !s.surrogate
    ensures (r.1 == Exits(0)) <==> s.forkserver
    ensures r.1 == Returns <==> !s.forkserver
    ensures r.0.log == s.log + (if s.reportResults then [ReportOk] else []) + (if s.forkserver then [ForceExit(0)] else [])
    ensures r.0.(log := s.log) == s
  {
    var s1 := if s.reportResults then ReportChildOk(s) else s;
    if s1.forkserver then (s1.(log := s1.log + [ForceExit(0)]), Exits(0)) else (s1, Returns)
  }

  /** `_handle_fork_surrogate_death`: report the recorded status, give the instrumentation its
      map back and start a new surrogate (`newPid` is what `_new_fork_surrogate` answers). */
  function SurrogateDeath(s: Rt, newPid: Int64): (r: Rt)
    ensures r.traceMap == Original && r.surrogatePid == newPid
    ensures r.log == s.log + [ReportKilled(s.wstatus), SpawnSurrogate]
    ensures r.(traceMap := s.traceMap, surrogatePid := s.surrogatePid, log := s.log) == s
  {
    s.(log := s.log + [ReportKilled(s.wstatus)], traceMap := Original).(surrogatePid := newPid, log := s.log + [ReportKilled(s.wstatus), SpawnSurrogate])
  }

  /** `handle_exception`: a `Returns` stands for its `return true`. */
  function HandleException(s: Rt, newPid: Int64): (r: (Rt, Flow))
    ensures !s.reportResults ==> r == (s.(log := s.log + [ForceExit(1)]), Exits(1))
    ensures s.reportResults && s.surrogate && s.surrogatePid == 0 ==>
      r == (SurrogateDeath(s, newPid), Returns)
    ensures s.reportResults && !(s.surrogate && s.surrogatePid == 0) ==>
      r.0.log == s.log + [ReportUncaught] + (if s.surrogate then [] else [ForceExit(1)])
    ensures s.reportResults ==> (r.1 == Returns <==> s.surrogate) && (!s.surrogate ==> r.1 == Exits(1))
    ensures r.0.surrogate == s.surrogate && r.0.forkserver == s.forkserver
  {
    if !s.reportResults then (s.(log := s.log + [ForceExit(1)]), Exits(1))
    else
      var s1 := if s.surrogate && s.surrogatePid == 0 then SurrogateDeath(s, newPid) else s.(log := s.log + [ReportUncaught]);
      if s1.surrogate then (s1, Returns) else (s1.(log := s1.log + [ForceExit(1)]), Exits(1))
  }

  /** One turn of `ForkSurrogateMonitor.run`, taken as one atomic step: the surrogate died
      with `ws`, the pid is cleared and the instrumentation loses its map (the main thread is
      then stopped, which lands in `handle_exception`). Its assertion is its precondition. */
  function MonitorStep(s: Rt, ws: Int32): (r: Rt)
    requires s.surrogate
    ensures r.wstatus == ws && r.surrogatePid == 0 && r.traceMap == Cleared && r.log == s.log
  {
    s.(wstatus := ws, surrogatePid := 0, traceMap := Cleared)
  }

  /** `_init_deferred`: no state in any mode. */
  function InitDeferred(s: Rt): (r: Rt)
    ensures r == s
  {
    s
  }

  // ---------------------------------------------------------------------------
  // Runs of several calls.

  function Oks(n: nat): seq<Native>
  {
    seq(n, _ => ReportOk)
  }

  /** `k` calls of `_persistent_mode_loop()` in a row: the final state and each answer. */
  function LoopCalls(s: Rt, k: nat): (Rt, seq<bool>)
  {
    if k == 0 then (s, [])
    else
      var (s1, answers) := LoopCalls(s, k - 1);
      var (s2, more) := PersistentLoop(s1);
      (s2, answers + [more])
  }

  /** The un-ceilinged loop from an unarmed state: without persistence it answers true once and
      false forever after, reporting nothing; with it, it answers true every time and reports
      on every call after the first. */
  lemma {:induction false} UnboundedLoop(s: Rt, k: nat)
    requires !s.runPersistent && !s.loopInitialized
    ensures var (r, answers) := LoopCalls(s, k);
      && |answers| == k
      && (k >= 1 ==> answers[0] && r.loopInitialized && r.runPersistent == s.canRunPersistent)
      && (!s.canRunPersistent ==> (forall i :: 1 <= i < k ==> !answers[i]) && r.log == s.log)
      && (s.canRunPersistent ==> (forall i :: 0 <= i < k ==> answers[i]) && r.log == s.log + Oks(if k == 0 then 0 else k - 1))
  {
    if k > 0 {
      UnboundedLoop(s, k - 1);
      var (s1, answers) := LoopCalls(s, k - 1);
      if k > 1 && s.canRunPersistent {
        assert s1.log + [ReportOk] == s.log + Oks(k - 1);
      }
    }
  }

  /** `k` calls of `_persistent_mode_loop(n)` starting from iteration 0. */
  function CeilingCalls(s: Rt, n: Int64, k: nat): (r: (Rt, seq<bool>))
    requires 0 < n && s.iteration == 0 && k <= n as int
    ensures r.0.iteration as int == k && |r.1| == k
  {
    if k == 0 then (s, [])
    else
      var (s1, answers) := CeilingCalls(s, n, k - 1);
      var (s2, more) := PersistentLoopN(s1, n);
      (s2, answers + [more])
  }

  /** The ceilinged loop from a reset, unarmed state, with persistence: calls `1..n-1` answer
      true and call `n` answers false, with one report on each of calls `2..n`. */
  lemma {:induction false} CeilingLoop(s: Rt, n: Int64, k: nat)
    requires 0 < n && s.iteration == 0 && k <= n as int
    requires !s.runPersistent && !s.loopInitialized && s.canRunPersistent
    ensures var (r, answers) := CeilingCalls(s, n, k);
      && (forall i :: 0 <= i < k ==> (answers[i] <==> i + 1 < n as int))
      && r.log == s.log + Oks(if k == 0 then 0 else k - 1)
      && (k >= 1 ==> r.loopInitialized && r.runPersistent)
  {
    if k > 0 {
      CeilingLoop(s, n, k - 1);
      var (s1, answers) := CeilingCalls(s, n, k - 1);
      if k > 1 {
        assert s1.log + [ReportOk] == s.log + Oks(k - 1);
      }
    }
  }

  /** The same without persistence: only the first call can answer true (when `n > 1`), and
      nothing is reported. */
  lemma {:induction false} CeilingLoopOnce(s: Rt, n: Int64, k: nat)
    requires 0 < n && s.iteration == 0 && k <= n as int
    requires !s.runPersistent && !s.loopInitialized && !s.canRunPersistent
    ensures var (r, answers) := CeilingCalls(s, n, k);
      && (forall i :: 0 <= i < k ==> (answers[i] <==> i == 0 && n > 1))
      && r.log == s.log
      && (k >= 1 ==> r.loopInitialized && !r.runPersistent)
  {
    if k > 0 {
      CeilingLoopOnce(s, n, k - 1);
    }
  }

  /** With persistence the `n`-th call is the first false one, and by then `n - 1` reports
      have gone out. */
  lemma CeilingLast(s: Rt, n: Int64)
    requires 0 < n && s.iteration == 0 && !s.runPersistent && !s.loopInitialized && s.canRunPersistent
    ensures var (r, answers) := CeilingCalls(s, n, n as nat);
      && (forall i :: 0 <= i < n as int - 1 ==> answers[i]) && !answers[n as int - 1]
      && r.log == s.log + Oks(n as int - 1)
      && r.iteration == n
  {
    CeilingLoop(s, n, n as nat);
  }

  /** The monitor's step followed by the death handler: the map is back and exactly one
      killed report, with the recorded status, has gone out. */
  lemma MonitorThenDeath(s: Rt, ws: Int32, newPid: Int64)
    requires s.surrogate
    ensures var r := SurrogateDeath(MonitorStep(s, ws), newPid);
      r.traceMap == Original && r.log == s.log + [ReportKilled(ws), SpawnSurrogate] && r.surrogatePid == newPid
  {
  }

  /** A surrogate round that the monitor ends: the main thread's `handle_exception` reports the
      death rather than an uncaught exception, restores the map and keeps the loop running. */
  lemma KilledRound(s: Rt, ws: Int32, newPid: Int64)
    requires s.surrogate && s.reportResults
    ensures var (r, flow) := HandleException(MonitorStep(s, ws), newPid);
      && flow == Returns && r.traceMap == Original && r.surrogatePid == newPid
      && r.log == s.log + [ReportKilled(ws), SpawnSurrogate]
      && ReportUncaught !in r.log[|s.log|..]
  {
    var m := MonitorStep(s, ws);
    var r := HandleException(m, newPid).0;
    assert r == SurrogateDeath(m, newPid);
    assert r.log[|s.log|..] == [ReportKilled(ws), SpawnSurrogate];
  }

  /** `_persistent_mode_loop_reset` does not disarm the loop: once a persistent run has
      started, the first `_persistent_mode_loop()` of the next surrogate round already
      reports, right after the round's own report. */
  lemma ResetKeepsPersistence(s: Rt)
    requires s.surrogate && s.runPersistent
    ensures var (s1, _) := SurrogateLoop(s);
      var (s2, more) := PersistentLoop(s1);
      more && s2.log == s.log + [ReportOk, ReportOk]
  {
  }
}
