/** javafl/JavaAfl.java as an object: its static fields are the fields of `JavaAfl`, each
    entry point is a method that updates them in the source's order, and every method is
    proved to take the state where the matching `Protocol` function says. */
module Runtime {
  import opened JavaTypes
  import opened Wrappers
  import opened Protocol
  import Bytecode

  class JavaAfl {
    /** The array the instrumentation writes into: `_map_original`, or null. */
    var traceMap: array?<JByte>
    const mapOriginal: array<JByte>
    /** `prev_location`: only the record blocks write it. */
    var prevLocation: Int32
    var reportResults: bool
    var exitHandler: bool
    var surrogate: bool
    var forkserver: bool
    var canRunPersistent: bool
    var runPersistent: bool
    var loopInitialized: bool
    var iteration: Int64
    var surrogatePid: Int64
    var wstatus: Int32
    var monitorStarted: bool
    /** What the JNI natives have been asked to do, in order. */
    var log: seq<Native>

    /** `map` only ever holds `_map_original` or null. */
    predicate Valid()
      reads this
    {
      traceMap == null || traceMap == mapOriginal
    }

    ghost function State(): Rt
      reads this
    {
      Rt(if traceMap == null then Cleared else Original, reportResults, exitHandler, surrogate, forkserver,
         canRunPersistent, runPersistent, loopInitialized, iteration, surrogatePid, wstatus,
         monitorStarted, log)
    }

    /** The static initialiser, after the native library is loaded: a fresh map of the size
        the native side announces. */
    constructor ()
      ensures Valid() && State() == Initial() && prevLocation == 0
      ensures fresh(mapOriginal) && mapOriginal.Length == MapSize && traceMap == mapOriginal
    {
      var a := new JByte[MapSize];
      mapOriginal, traceMap := a, a;
      reportResults, exitHandler, surrogate, forkserver := false, false, false, false;
      canRunPersistent, runPersistent, loopInitialized, iteration := false, false, false, 0;
      surrogatePid, wstatus, monitorStarted, log, prevLocation := 0, 0, false, [], 0;
    }

    method BeforeMain(callerClass: string, initFlags: bv32, persistentEnv: bool, forkserverEnv: bool, newPid: Int64)
      requires Valid()
      modifies this
      ensures Valid() && State() == Protocol.BeforeMain(old(State()), callerClass, initFlags, persistentEnv, forkserverEnv, newPid) && prevLocation == old(prevLocation)
    {
      var classId := JavaHashCode(callerClass);
      var hasShm := initFlags & INIT_HAS_SHM != 0;
      // _jni_init, then the security manager when results are wanted
      log, reportResults, exitHandler := log + [JniInit(classId)], hasShm, exitHandler || hasShm;
      var hasForkserver := initFlags & INIT_HAS_FORKSERVER != 0;
      if !hasForkserver {
        return;
      }
      ChooseMode(persistentEnv, forkserverEnv, newPid);
    }

    method ChooseMode(persistentEnv: bool, forkserverEnv: bool, newPid: Int64)
      requires Valid()
      modifies this
      ensures Valid() && State() == Protocol.ChooseMode(old(State()), persistentEnv, forkserverEnv, newPid) && prevLocation == old(prevLocation)
    {
      var runForkserver := forkserverEnv;
      if !persistentEnv || runForkserver {
        canRunPersistent, forkserver, log := persistentEnv, true, log + [InitForkserver];
      } else {
        // _jni_init_surrogate_mode, _new_fork_surrogate, the monitor's start
        canRunPersistent, surrogate, log, surrogatePid, monitorStarted :=
          persistentEnv, true, log + [InitSurrogate, SpawnSurrogate], newPid, true;
      }
    }

    method ReportChildOkStatus()
      requires Valid()
      modifies this
      ensures Valid() && State() == ReportChildOk(old(State())) && prevLocation == old(prevLocation)
    {
      log := log + [ReportOk];
    }

    method ForceExitForkedChild(status: Int32)
      requires Valid()
      modifies this
      ensures Valid() && State() == old(State()).(log := old(log) + [ForceExit(status)]) && prevLocation == old(prevLocation)
    {
      log := log + [ForceExit(status)];
    }

    /** `ExitHandlingSecurityManager.checkExit`. */
    method CheckExit(status: Int32) returns (flow: Flow)
      requires Valid()
      modifies this
      ensures Valid() && (State(), flow) == Protocol.CheckExit(old(State()), status) && prevLocation == old(prevLocation)
    {
      if surrogate {
        return Throws;
      }
      ReportChildOkStatus();
      if forkserver {
        ForceExitForkedChild(status);
        return Exits(status);
      }
      return Returns;
    }

    method PersistentModeLoop() returns (more: bool)
      requires Valid()
      modifies this
      ensures Valid() && (State(), more) == PersistentLoop(old(State())) && prevLocation == old(prevLocation)
    {
      if !runPersistent {
        if loopInitialized {
          return false;
        }
        runPersistent := canRunPersistent;
        loopInitialized := true;
        return true;
      }
      ReportChildOkStatus();
      return true;
    }

    method PersistentModeLoopN(iterations: Int64) returns (more: bool)
      requires Valid() && 0 < iterations && iteration < iterations
      modifies this
      ensures Valid() && (State(), more) == PersistentLoopN(old(State()), iterations) && prevLocation == old(prevLocation)
    {
      iteration := iteration + 1;
      more := PersistentModeLoop();
      more := more && iteration != iterations;
    }

    method PersistentModeLoopReset()
      requires Valid()
      modifies this
      ensures Valid() && State() == ResetLoop(old(State())) && prevLocation == old(prevLocation)
    {
      loopInitialized := false;
      iteration := 0;
    }

    method SurrogateModeLoop() returns (more: bool)
      requires Valid()
      modifies this
      ensures Valid() && (State(), more) == SurrogateLoop(old(State())) && prevLocation == old(prevLocation)
    {
      if !surrogate {
        return false;
      }
      PersistentModeLoopReset();
      ReportChildOkStatus();
      return true;
    }

    method AfterMain() returns (flow: Flow)
      requires Valid() && !surrogate
      modifies this
      ensures Valid() && (State(), flow) == Protocol.AfterMain(old(State())) && prevLocation == old(prevLocation)
    {
      if reportResults {
        ReportChildOkStatus();
      }
      if forkserver {
        ForceExitForkedChild(0);
        return Exits(0);
      }
      return Returns;
    }

    method InitDeferred()
      requires Valid()
      ensures State() == Protocol.InitDeferred(old(State()))
    {
      if surrogate {
        return;
      }
    }

    method HandleForkSurrogateDeath(newPid: Int64)
      requires Valid()
      modifies this
      ensures Valid() && State() == SurrogateDeath(old(State()), newPid) && prevLocation == old(prevLocation)
    {
      // _send_child_killed_status, the map back, _new_fork_surrogate
      log, traceMap, surrogatePid := log + [ReportKilled(wstatus), SpawnSurrogate], mapOriginal, newPid;
    }

    /** `handle_exception`; the `Returns` outcome is its `return true`. */
    method HandleException(newPid: Int64) returns (flow: Flow)
      requires Valid()
      modifies this
      ensures Valid() && (State(), flow) == Protocol.HandleException(old(State()), newPid) && prevLocation == old(prevLocation)
    {
      if !reportResults {
        ForceExitForkedChild(1);
        return Exits(1);
      }
      if surrogate && surrogatePid == 0 {
        HandleForkSurrogateDeath(newPid);
      } else {
        log := log + [ReportUncaught];
      }
      if surrogate {
        return Returns;
      }
      ForceExitForkedChild(1);
      return Exits(1);
    }

    /** One turn of the monitor thread, from the end of `_wait_for_fork_surrogate` (which
        answered `ws`) to the release of the status lock. */
    method MonitorStep(ws: Int32)
      requires Valid() && surrogate
      modifies this
      ensures Valid() && State() == Protocol.MonitorStep(old(State()), ws) && prevLocation == old(prevLocation)
    {
      wstatus := ws;
      surrogatePid := 0;
      traceMap := null;
    }

    /** One run of the record block the rewriter emits for location `id`, on the array `map`
        holds (the block reads the field once): with `map` null it throws a
        NullPointerException, with the tuple index outside the array an index exception, both
        before anything is written; otherwise the slot is incremented with byte wrap-around and
        `prev_location` becomes `id >> 1`, as `Bytecode.RecordEffect` says. */
    method Record(id: Int32) returns (exn: Option<Bytecode.Exn>)
      requires Valid()
      modifies traceMap, this`prevLocation
      ensures Valid()
      ensures traceMap == null ==> exn == Some(Bytecode.NullPointer) && prevLocation == old(prevLocation)
      ensures traceMap != null && !(0 <= Xor(id, old(prevLocation)) as int < traceMap.Length) ==>
        exn == Some(Bytecode.IndexOutOfBounds) && traceMap[..] == old(traceMap[..]) && prevLocation == old(prevLocation)
      ensures traceMap != null && 0 <= Xor(id, old(prevLocation)) as int < traceMap.Length ==>
        exn == None && (traceMap[..], prevLocation) == Bytecode.RecordEffect(old(traceMap[..]), old(prevLocation), id)
    {
      var m := traceMap;
      if m == null {
        return Some(Bytecode.NullPointer);
      }
      var index := Xor(id, prevLocation);
      if !(0 <= index as int < m.Length) {
        return Some(Bytecode.IndexOutOfBounds);
      }
      m[index] := I2B(m[index] as int + 1);
      prevLocation := Shr1(id);
      return None;
    }
  }
}
