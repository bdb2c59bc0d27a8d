/** The supervisor object: its locked operations as methods, each proved to be the step of that name. */
module SupervisorObject {
  import opened Prelude
  import opened Supervision

  class WorkerSupervisor {
    var state: State
    var generation: nat
    var restartCount: nat
    var nextRequestId: nat
    var lastFailure: Option<Code>

    // The process at the other end of the pipe, held together with the pipe's contents.
    var process: Option<Process>

    // Bookkeeping for the statements about whole runs; the program itself does not keep it.
    ghost var spawns: nat
    ghost var sent: seq<Frame>

    ghost function View(): Supervisor
      reads this
    {
      Supervisor(state, generation, restartCount, nextRequestId, process, lastFailure, spawns, sent)
    }

    constructor ()
      ensures View() == NEW
    {
      state, generation, restartCount, nextRequestId := Halted, 0, 0, 0;
      lastFailure, process, spawns, sent := None, None, 0, [];
    }

    method Build(kind: Kind) returns (f: Frame)
      modifies `nextRequestId, `sent
      ensures (View(), f) == Numbered(old(View()), kind)
    {
      nextRequestId := nextRequestId + 1;
      f := Frame(kind, generation, nextRequestId);
      sent := sent + [f];
    }

    /** Send one frame and take the first thing that comes back before the deadline. */
    method Exchange(f: Frame, x: Exchange) returns (r: Result)
      requires process.Some?
      modifies `process
      ensures (process, r) == var (p, result) := RoundTrip(old(process).value, f, x); (Some(p), result)
    {
      var p := process.value;
      if !p.alive {
        return Fault(WorkerExit);
      }
      if !x.sendOk {
        return Fault(WorkerExit);
      }
      p := RunProcess(p.(toWorker := p.toWorker + [f]), x.during);
      if p.toParent == [] {
        process := Some(p);
        return Fault(if p.alive then IpcTimeout else WorkerExit);
      }
      var reply := p.toParent[0];
      process := Some(p.(toParent := p.toParent[1..]));
      if reply.Garbage? {
        return Fault(ProtocolCorruption);
      }
      if reply.frame.generation != f.generation || reply.frame.id != f.id {
        return Fault(StaleResponse);
      }
      if !Expected(f.kind, reply.frame.kind) {
        return Fault(UnexpectedResponse);
      }
      r := Ok(reply.frame);
    }

    method GiveUp(code: Code)
      modifies `process, `lastFailure, `state
      ensures View() == Broken(old(View()), code)
    {
      process := None;
      lastFailure := Some(code);
      state := Degraded;
    }

    method Respawn(initial: bool, env: SpawnEnv)
      modifies this
      ensures View() == Spawn(old(View()), initial, env)
    {
      if initial {
        spawns := spawns + 1;
      } else {
        restartCount := restartCount + 1;
      }
      process := None;
      generation := generation + 1;
      state := Starting;
      if env.StartFails? {
        GiveUp(SpawnFailed);
        return;
      }
      Greet(env.ping);
    }

    /** Ping a process just started. */
    method Greet(x: Exchange)
      modifies this
      ensures View() == Greeted(old(View()), x)
    {
      process := Some(Process(generation, true, [], []));
      var ping := Build(Ping);
      var r := Exchange(ping, x);
      if r.Fault? {
        GiveUp(SpawnFailed);
      } else {
        state := Ready;
      }
    }

    method Start(env: SpawnEnv) returns (accepted: bool)
      modifies this
      ensures View() == Step(old(View()), Action.Start(env)) && accepted == old(process).None?
    {
      if process.Some? {
        return false;
      }
      Respawn(true, env);
      accepted := true;
    }

    method Stop()
      modifies this
      ensures View() == Step(old(View()), Halt)
    {
      if process.Some? && process.value.alive {
        var f := Build(Shutdown);
      }
      process := None;
      state := Halted;
    }

    method Fail(code: Code, respawn: SpawnEnv)
      modifies this
      ensures View() == Failed(old(View()), code, respawn)
    {
      lastFailure := Some(code);
      state := Degraded;
      Respawn(false, respawn);
    }

    /** Number, send and judge one frame over the live pipe, restarting once on a transport fault. */
    method Attempt(kind: Kind, x: Exchange, respawn: SpawnEnv) returns (r: Result)
      requires process.Some?
      modifies this
      ensures (View(), r) == Exchanged(old(View()), kind, x, respawn)
    {
      var f := Build(kind);
      if !x.valid {
        return Fault(InvalidFrame);
      }
      r := Exchange(f, x);
      if r.Fault? {
        Fail(r.code, respawn);
      }
    }

    /** One request: revive a degraded supervisor, then exchange one frame. */
    method Request(kind: Kind, revive: SpawnEnv, x: Exchange, respawn: SpawnEnv) returns (r: Result)
      modifies this
      ensures (View(), r) == Requested(old(View()), kind, revive, x, respawn)
    {
      if state == Halted {
        return Fault(NotRunning);
      }
      if state != Ready {
        Respawn(false, revive);
      }
      if state != Ready || process.None? {
        return Fault(SpawnFailed);
      }
      r := Attempt(kind, x, respawn);
    }
  }
}
