/** The controller object itself: one method per atomic segment, each proved to be the step of the same name. */
module SafetyObject {
  import opened Prelude
  import opened Safety

  class SafetyController {
    const margin: nat
    const aggregate: nat
    var armed: bool
    var pttOn: bool
    var pttUncertain: bool
    var faults: set<Interlock>
    var txSeconds: int

    // What the controller runs in: the clock, the rig's line and command queue, the suspended coroutines.
    var clock: int
    var line: bool
    var acted: bool
    var queue: seq<Command>
    var tasks: map<nat, Await>

    function View(): World
      reads this
    {
      World(margin, aggregate, armed, pttOn, pttUncertain, faults, txSeconds, clock, line, acted, queue, tasks)
    }

    /** The controller as its start-up coroutine leaves it. */
    constructor (margin: nat, aggregate: nat, released: bool, line: bool)
      ensures View() == NewWorld(margin, aggregate, released, line)
    {
      this.margin, this.aggregate := margin, aggregate;
      armed, pttOn, pttUncertain := false, false, !released;
      faults := if released then {} else {Cat};
      txSeconds, clock := 0, 0;
      this.line, acted, queue, tasks := !released && line, false, [], map[];
    }

    method RequestPtt(id: nat, at: Await, on: bool)
      modifies this
      ensures View() == Issue(old(View()), id, at, on)
    {
      tasks := tasks[id := at];
      queue := queue + [Command(id, on)];
    }

    method Return(id: nat)
      modifies this
      ensures View() == Finish(old(View()), id)
    {
      tasks := tasks - {id};
    }

    method BeginTx(id: nat, duration: nat)
      requires id !in tasks
      modifies this
      ensures View() == Step(old(View()), Transmit(id, duration))
    {
      if !Playable(duration) {
        return;
      }
      if faults != {} {
        return;
      }
      if !armed {
        return;
      }
      if pttUncertain {
        RequestPtt(id, PreTxOff(duration), false);
        return;
      }
      KeyDown(id, duration);
    }

    method KeyDown(id: nat, duration: nat)
      modifies this
      ensures View() == KeyOrTrip(old(View()), id, duration)
    {
      if txSeconds + duration > aggregate {
        armed := false;
        RequestPtt(id, AggregateStop, false);
        return;
      }
      RequestPtt(id, Keying(duration), true);
    }

    method Stop(id: nat)
      requires id !in tasks
      modifies this
      ensures View() == Step(old(View()), StopTx(id))
    {
      armed := false;
      RequestPtt(id, StopOff, false);
    }

    method Report(id: nat, source: Interlock)
      requires id !in tasks
      modifies this
      ensures View() == Step(old(View()), ReportFault(id, source))
    {
      if source in faults {
        return;
      }
      faults := faults + {source};
      armed := false;
      RequestPtt(id, ReportOff, false);
    }

    method Arm(id: nat)
      requires id !in tasks
      modifies this
      ensures View() == Step(old(View()), ArmTx(id))
    {
      if faults != {} {
        return;
      }
      if pttUncertain {
        RequestPtt(id, ArmOff, false);
        return;
      }
      armed := true;
      txSeconds := 0;
    }

    method Start(id: nat)
      requires id !in tasks
      modifies this
      ensures View() == Step(old(View()), StartUp(id))
    {
      armed := false;
      RequestPtt(id, StartOff, false);
    }

    method RigReconnected(id: nat)
      requires id !in tasks
      modifies this
      ensures View() == Step(old(View()), RigReconnect(id))
    {
      if pttUncertain || pttOn {
        RequestPtt(id, ReconnectOff, false);
      }
    }

    method DropArm()
      modifies this
      ensures View() == Step(old(View()), Disarm)
    {
      armed := false;
    }

    method Clear(source: Interlock)
      modifies this
      ensures View() == Step(old(View()), ClearFault(source))
    {
      faults := faults - {source};
    }

    method LeaveKeyedBlock(id: nat)
      modifies this
      ensures View() == Finalize(old(View()), id)
    {
      if pttOn {
        RequestPtt(id, FinalOff, false);
      } else {
        Return(id);
      }
    }

    method AudioFault(id: nat)
      modifies this
      ensures View() == FaultInside(old(View()), id)
    {
      if Audio in faults {
        LeaveKeyedBlock(id);
      } else {
        faults := faults + {Audio};
        armed := false;
        RequestPtt(id, FaultOff, false);
      }
    }

    method PlaybackEnded(id: nat, outcome: PlayOutcome)
      requires PlayMayEnd(View(), id)
      modifies this
      ensures View() == Step(old(View()), PlayEnds(id, outcome))
    {
      match outcome {
        case Played =>
          txSeconds := txSeconds + (clock - tasks[id].started);
          RequestPtt(id, CompleteOff, false);
        case AudioFailed => AudioFault(id);
        case Crashed => LeaveKeyedBlock(id);
      }
    }

    method WatchdogFired(id: nat)
      requires DeadlinePassed(View(), id)
      modifies this
      ensures View() == Step(old(View()), Deadline(id))
    {
      tasks := tasks[id := Draining];
    }

    method PlaybackDrained(id: nat)
      requires id in tasks && tasks[id].Draining?
      modifies this
      ensures View() == Step(old(View()), Drained(id))
    {
      AudioFault(id);
    }

    method NoteRelease(ok: bool)
      modifies this
      ensures View() == OffResult(old(View()), ok)
    {
      if ok {
        pttOn := false;
        pttUncertain := false;
      } else {
        pttUncertain := true;
        faults := faults + {Cat};
      }
    }

    method ReleaseAnswered(id: nat, at: Await, ok: bool)
      modifies this
      ensures View() == AfterOff(old(View()), id, at, ok)
    {
      match at {
        case PreTxOff(d) =>
          if ok {
            KeyDown(id, d);
          } else {
            Return(id);
          }
        case FaultOff => LeaveKeyedBlock(id);
        case CompleteOff => LeaveKeyedBlock(id);
        case FinalOff =>
          pttOn := false;
          Return(id);
        case ArmOff =>
          if ok {
            armed := true;
            txSeconds := 0;
          }
          Return(id);
        case _ => Return(id);
      }
    }

    method KeyDownFailed(id: nat)
      modifies this
      ensures View() == KeyingFailed(old(View()), id)
    {
      pttUncertain := true;
      if Cat in faults {
        Return(id);
      } else {
        faults := faults + {Cat};
        armed := false;
        RequestPtt(id, KeyFaultOff, false);
      }
    }

    method RigAnswered(ok: bool)
      requires CanReply(View(), ok)
      modifies this
      ensures View() == Step(old(View()), RigReplies(ok))
    {
      var c := queue[0];
      var at := tasks[c.id];
      queue := queue[1..];
      acted := false;
      if !c.on {
        NoteRelease(ok);
        ReleaseAnswered(c.id, at, ok);
      } else if ok {
        pttOn := true;
        tasks := tasks[c.id := Playing(at.duration, clock)];
      } else {
        KeyDownFailed(c.id);
      }
    }
  }
}
