/**
 * The supervisor and the DSP worker it owns. The worker side of the pipe is a process that serves requests in
 * order, may crash at any point, and (when it is not the real worker loop) may write anything into the pipe.
 */
module Supervision {
  import opened Prelude

  datatype Kind = Ping | Decode | Encode | Shutdown | Pong | DecodeOk | EncodeOk | Stopped | Error

  datatype Frame = Frame(kind: Kind, generation: nat, id: nat)

  datatype Message = Valid(frame: Frame) | Garbage

  // ---- the worker process ----------------------------------------------

  datatype Process = Process(generation: nat, alive: bool, toWorker: seq<Frame>, toParent: seq<Message>)

  /** The real loop only serves and crashes; `Emit` stands for any other program in its place. */
  datatype ProcessEvent = Serve(good: bool) | Crash | Emit(message: Message)

  function ReplyKind(f: Frame, generation: nat, good: bool): Kind {
    if f.generation != generation then Error
    else match f.kind
         case Ping => Pong
         case Shutdown => Stopped
         case Decode => if good then DecodeOk else Error
         case Encode => if good then EncodeOk else Error
         case _ => Error
  }

  /** One turn of the worker loop: receive one frame, answer it once with its generation and id. */
  function ServeOne(p: Process, good: bool): Process {
    if !p.alive || p.toWorker == [] then p
    else
      var f := p.toWorker[0];
      var kind := ReplyKind(f, p.generation, good);
      p.(toWorker := p.toWorker[1..], toParent := p.toParent + [Valid(Frame(kind, f.generation, f.id))],
         alive := kind != Stopped)
  }

  function ProcessStep(p: Process, e: ProcessEvent): Process {
    match e
    case Serve(good) => ServeOne(p, good)
    case Crash => p.(alive := false)
    case Emit(m) => if p.alive then p.(toParent := p.toParent + [m]) else p
  }

  function RunProcess(p: Process, es: seq<ProcessEvent>): Process
    decreases |es|
  {
    if es == [] then p else RunProcess(ProcessStep(p, es[0]), es[1..])
  }

  // ---- one round trip --------------------------------------------------

  datatype Code =
    | NotRunning | WorkerExit | IpcTimeout | ProtocolCorruption
    | StaleResponse | UnexpectedResponse | SpawnFailed | InvalidFrame

  datatype Result = Ok(frame: Frame) | Fault(code: Code)

  /** One round trip: is the request a valid frame, does the send work, what the process does before the deadline. */
  datatype Exchange = Exchange(valid: bool, sendOk: bool, during: seq<ProcessEvent>)

  predicate Expected(request: Kind, reply: Kind) {
    match request
    case Ping => reply in {Pong, Error}
    case Decode => reply in {DecodeOk, Error}
    case Encode => reply in {EncodeOk, Error}
    case _ => false
  }

  function Judge(sent: Frame, m: Message): Result {
    if m.Garbage? then Fault(ProtocolCorruption)
    else if m.frame.generation != sent.generation || m.frame.id != sent.id then Fault(StaleResponse)
    else if !Expected(sent.kind, m.frame.kind) then Fault(UnexpectedResponse)
    else Ok(m.frame)
  }

  function RoundTrip(p: Process, f: Frame, x: Exchange): (Process, Result) {
    if !p.alive || !x.sendOk then (p, Fault(WorkerExit))
    else
      var q := RunProcess(p.(toWorker := p.toWorker + [f]), x.during);
      if q.toParent != [] then (q.(toParent := q.toParent[1..]), Judge(f, q.toParent[0]))
      else if q.alive then (q, Fault(IpcTimeout))
      else (q, Fault(WorkerExit))
  }

  // ---- the supervisor --------------------------------------------------

  datatype State = Starting | Ready | Degraded | Halted

  /** `spawns` counts explicit starts and `sent` lists every frame numbered; the program keeps neither. */
  datatype Supervisor = Supervisor(
    state: State,
    generation: nat,
    restarts: nat,
    nextId: nat,
    process: Option<Process>,
    lastFailure: Option<Code>,
    spawns: nat,
    sent: seq<Frame>)

  const NEW := Supervisor(Halted, 0, 0, 0, None, None, 0, [])

  datatype SpawnEnv = StartFails | Started(ping: Exchange)

  datatype Action =
    | Start(env: SpawnEnv)
    | Halt
    | Request(kind: Kind, revive: SpawnEnv, exchange: Exchange, respawn: SpawnEnv)
    | Background(during: seq<ProcessEvent>)

  /** Give the next frame the next id and the current generation. */
  function Numbered(s: Supervisor, kind: Kind): (Supervisor, Frame) {
    var f := Frame(kind, s.generation, s.nextId + 1);
    (s.(nextId := s.nextId + 1, sent := s.sent + [f]), f)
  }

  function Broken(s: Supervisor, code: Code): Supervisor {
    s.(process := None, lastFailure := Some(code), state := Degraded)
  }

  /** The first round trip with a new process. */
  function Greeted(s: Supervisor, x: Exchange): Supervisor {
    var (t, ping) := Numbered(s, Ping);
    var (p, r) := RoundTrip(Process(t.generation, true, [], []), ping, x);
    if r.Ok? then t.(process := Some(p), state := Ready) else Broken(t, SpawnFailed)
  }

  /** Tear down, count, start a process of a fresh generation and ping it. */
  function Spawn(s: Supervisor, initial: bool, env: SpawnEnv): Supervisor {
    var s1 := s.(restarts := if initial then s.restarts else s.restarts + 1,
                 spawns := if initial then s.spawns + 1 else s.spawns,
                 process := None, generation := s.generation + 1, state := Starting);
    match env
    case StartFails => Broken(s1, SpawnFailed)
    case Started(x) => Greeted(s1, x)
  }

  function StartUp(s: Supervisor, env: SpawnEnv): Supervisor {
    if s.process.Some? then s else Spawn(s, true, env)
  }

  function ShutDown(s: Supervisor): Supervisor {
    var s1 := if s.process.Some? && s.process.value.alive then Numbered(s, Shutdown).0 else s;
    s1.(process := None, state := Halted)
  }

  /** Record the failure and try one restart. */
  function Failed(s: Supervisor, code: Code, respawn: SpawnEnv): Supervisor {
    Spawn(s.(lastFailure := Some(code), state := Degraded), false, respawn)
  }

  function Exchanged(s: Supervisor, kind: Kind, x: Exchange, respawn: SpawnEnv): (Supervisor, Result)
    requires s.process.Some?
  {
    var (s1, f) := Numbered(s, kind);
    if !x.valid then (s1, Fault(InvalidFrame))
    else
      var (p, r) := RoundTrip(s.process.value, f, x);
      var s2 := s1.(process := Some(p));
      if r.Ok? then (s2, r) else (Failed(s2, r.code, respawn), r)
  }

  function Requested(s: Supervisor, kind: Kind, revive: SpawnEnv, x: Exchange, respawn: SpawnEnv)
    : (Supervisor, Result)
  {
    if s.state == Halted then (s, Fault(NotRunning))
    else
      var s1 := if s.state == Ready then s else Spawn(s, false, revive);
      if s1.state != Ready || s1.process == None then (s1, Fault(SpawnFailed))
      else Exchanged(s1, kind, x, respawn)
  }

  function Step(s: Supervisor, a: Action): Supervisor {
    match a
    case Start(env) => StartUp(s, env)
    case Halt => ShutDown(s)
    case Request(kind, revive, x, respawn) =>
      if kind in {Ping, Decode, Encode} then Requested(s, kind, revive, x, respawn).0 else s
    case Background(es) => if s.process.Some? then s.(process := Some(RunProcess(s.process.value, es))) else s
  }

  function Run(s: Supervisor, actions: seq<Action>): Supervisor {
    if actions == [] then s else Step(Run(s, actions[..|actions| - 1]), actions[|actions| - 1])
  }

  // ---- whatever the process does ---------------------------------------

  predicate Numbering(s: Supervisor) {
    && (forall i | 0 <= i < |s.sent| :: 0 < s.sent[i].id <= s.nextId && s.sent[i].generation <= s.generation)
    && (forall i, j | 0 <= i < j < |s.sent| ::
          s.sent[i].id < s.sent[j].id && s.sent[i].generation <= s.sent[j].generation)
  }

  /** Between calls: a process exactly when ready, its generation current, generations fully accounted for. */
  predicate Settled(s: Supervisor) {
    && s.state != Starting
    && (s.state == Ready <==> s.process.Some?)
    && (s.process.Some? ==> s.process.value.generation == s.generation)
    && s.generation == s.spawns + s.restarts
    && Numbering(s)
  }

  lemma {:induction false} ProcessKeepsGeneration(p: Process, es: seq<ProcessEvent>)
    ensures RunProcess(p, es).generation == p.generation
    decreases |es|
  {
    if es != [] {
      ProcessKeepsGeneration(ProcessStep(p, es[0]), es[1..]);
    }
  }

  lemma RoundTripKeepsGeneration(p: Process, f: Frame, x: Exchange)
    ensures RoundTrip(p, f, x).0.generation == p.generation
  {
    ProcessKeepsGeneration(p.(toWorker := p.toWorker + [f]), x.during);
  }

  lemma SpawnSettles(s: Supervisor, initial: bool, env: SpawnEnv)
    requires s.generation == s.spawns + s.restarts && Numbering(s)
    ensures Settled(Spawn(s, initial, env)) && Spawn(s, initial, env).state in {Ready, Degraded}
    ensures Spawn(s, initial, env).generation == s.generation + 1 && Spawn(s, initial, env).nextId >= s.nextId
    ensures s.sent <= Spawn(s, initial, env).sent
  {
    if env.Started? {
      var ping := Frame(Ping, s.generation + 1, s.nextId + 1);
      RoundTripKeepsGeneration(Process(s.generation + 1, true, [], []), ping, env.ping);
    }
  }

  lemma StepSettles(s: Supervisor, a: Action)
    requires Settled(s)
    ensures Settled(Step(s, a)) && s.sent <= Step(s, a).sent
  {
    match a
    case Start(env) => SpawnSettles(s, true, env);
    case Halt =>
    case Request(kind, revive, x, respawn) => if s.state != Halted { RequestSettles(s, kind, revive, x, respawn); }
    case Background(es) => if s.process.Some? { ProcessKeepsGeneration(s.process.value, es); }
  }

  lemma ExchangedSettles(s: Supervisor, kind: Kind, x: Exchange, respawn: SpawnEnv)
    requires Settled(s) && s.process.Some?
    ensures Settled(Exchanged(s, kind, x, respawn).0) && s.sent < Exchanged(s, kind, x, respawn).0.sent
  {
    var (s1, f) := Numbered(s, kind);
    if x.valid {
      RoundTripKeepsGeneration(s.process.value, f, x);
      var (p, r) := RoundTrip(s.process.value, f, x);
      if r.Fault? {
        FailedSettles(s1.(process := Some(p)), r.code, respawn);
      }
    }
  }

  lemma FailedSettles(s: Supervisor, code: Code, respawn: SpawnEnv)
    requires s.generation == s.spawns + s.restarts && Numbering(s)
    ensures Settled(Failed(s, code, respawn)) && s.sent <= Failed(s, code, respawn).sent
  {
    SpawnSettles(s.(lastFailure := Some(code), state := Degraded), false, respawn);
  }

  lemma RequestSettles(s: Supervisor, kind: Kind, revive: SpawnEnv, x: Exchange, respawn: SpawnEnv)
    requires Settled(s) && s.state != Halted
    ensures Settled(Requested(s, kind, revive, x, respawn).0)
    ensures s.sent <= Requested(s, kind, revive, x, respawn).0.sent
  {
    var s1 := if s.state == Ready then s else Spawn(s, false, revive);
    if s.state != Ready {
      SpawnSettles(s, false, revive);
    }
    if s1.state == Ready {
      ExchangedSettles(s1, kind, x, respawn);
    }
  }

  /** Over any run: a process is held exactly when ready, generation = starts + restarts, ids are never reused. */
  lemma {:induction false} RunIsSettled(actions: seq<Action>)
    ensures Settled(Run(NEW, actions))
  {
    if actions != [] {
      RunIsSettled(actions[..|actions| - 1]);
      StepSettles(Run(NEW, actions[..|actions| - 1]), actions[|actions| - 1]);
    }
  }

  // ---- stopped and degraded -------------------------------------------------

  /** After a stop there is no process, and no request or other event brings one back: only an explicit start does. */
  lemma {:induction false} StoppedUntilStart(s: Supervisor, actions: seq<Action>)
    requires forall i | 0 <= i < |actions| :: !actions[i].Start?
    ensures var v := Run(Step(s, Halt), actions);
            && v.process == None && v.state == Halted
            && v.generation == s.generation && v.restarts == s.restarts && v.spawns == s.spawns
            && (forall kind, revive, x, respawn ::
                  Requested(v, kind, revive, x, respawn) == (v, Fault(NotRunning)))
  {
    if actions != [] {
      StoppedUntilStart(s, actions[..|actions| - 1]);
    }
  }

  /** An explicit start is refused while there is a worker, and counts once otherwise. */
  lemma StartsExactlyWhen(s: Supervisor, env: SpawnEnv)
    requires Settled(s)
    ensures var v := Step(s, Start(env));
            if s.process.Some? then v == s
            else v.spawns == s.spawns + 1 && v.restarts == s.restarts && v.generation == s.generation + 1
  {
    SpawnCounts(s, true, env);
  }

  /** The worker does what it is asked exactly when the frame is of its generation and its decode or encode succeeds. */
  lemma WorkerObligesExactlyWhen(f: Frame, generation: nat, good: bool)
    requires f.kind in {Ping, Decode, Encode, Shutdown}
    ensures var kind := ReplyKind(f, generation, good);
            && (kind != Error <==> f.generation == generation && (f.kind in {Ping, Shutdown} || good))
            && (kind != Error ==> (f.kind, kind) in {(Ping, Pong), (Decode, DecodeOk), (Encode, EncodeOk),
                                                     (Shutdown, Stopped)})
  {
  }

  /** The code of a failed round trip says what was found: nothing in time, a dead worker, or the wrong thing. */
  lemma FaultNamesWhatHappened(p: Process, f: Frame, x: Exchange)
    requires RoundTrip(p, f, x).1.Fault?
    ensures var q, code := RunProcess(p.(toWorker := p.toWorker + [f]), x.during), RoundTrip(p, f, x).1.code;
            if !p.alive || !x.sendOk then code == WorkerExit
            else if q.toParent == [] then code == (if q.alive then IpcTimeout else WorkerExit)
            else if q.toParent[0].Garbage? then code == ProtocolCorruption
            else
              var reply := q.toParent[0].frame;
              if (reply.generation, reply.id) != (f.generation, f.id) then code == StaleResponse
              else code == UnexpectedResponse
                   && (f.kind, reply.kind) !in {(Ping, Pong), (Decode, DecodeOk), (Encode, EncodeOk)}
                   && (f.kind in {Ping, Decode, Encode} ==> reply.kind != Error)
  {
  }

  /** A request that succeeds returns the answer to its own question, or the worker's own error. */
  lemma RequestReturnsItsKind(s: Supervisor, kind: Kind, revive: SpawnEnv, x: Exchange, respawn: SpawnEnv)
    requires Settled(s)
    ensures var r := Requested(s, kind, revive, x, respawn).1;
            r.Ok? ==> r.frame.kind == Error || (kind, r.frame.kind) in {(Ping, Pong), (Decode, DecodeOk),
                                                                       (Encode, EncodeOk)}
  {
    RequestCorrelates(s, kind, revive, x, respawn);
  }

  /** A stop asks a live worker to shut down, in one frame of its own generation, and nobody else. */
  lemma StopAsksLiveWorker(s: Supervisor)
    requires Settled(s)
    ensures var v := Step(s, Halt);
            v.sent == s.sent + (if s.process.Some? && s.process.value.alive
                                then [Frame(Shutdown, s.process.value.generation, s.nextId + 1)] else [])
  {
  }

  /** The fault found something wrong with the worker or its pipe. */
  predicate InTransport(r: Result) {
    r.Fault? && r.code in {WorkerExit, IpcTimeout, ProtocolCorruption, StaleResponse, UnexpectedResponse}
  }

  lemma SpawnCounts(s: Supervisor, initial: bool, env: SpawnEnv)
    ensures var t := Spawn(s, initial, env);
            && t.restarts == s.restarts + (if initial then 0 else 1)
            && t.spawns == s.spawns + (if initial then 1 else 0)
            && t.state in {Ready, Degraded}
            && t.lastFailure == (if t.state == Ready then s.lastFailure else Some(SpawnFailed))
  {
  }

  lemma ExchangeRestarts(s: Supervisor, kind: Kind, x: Exchange, respawn: SpawnEnv)
    requires s.process.Some? && s.state == Ready
    ensures var (t, r) := Exchanged(s, kind, x, respawn);
            && t.restarts == s.restarts + (if InTransport(r) then 1 else 0) && t.spawns == s.spawns
            && (r.Fault? ==> r.code != NotRunning && r.code != SpawnFailed)
            && (InTransport(r) ==> t.lastFailure == Some(if t.state == Ready then r.code else SpawnFailed))
            && (!InTransport(r) ==> t.state == Ready && t.lastFailure == s.lastFailure)
  {
    var (s1, f) := Numbered(s, kind);
    var (p, r) := RoundTrip(s.process.value, f, x);
    if x.valid && r.Fault? {
      SpawnCounts(s1.(process := Some(p), lastFailure := Some(r.code), state := Degraded), false, respawn);
    }
  }

  /**
   * A request restarts the worker once if it finds it down, and once more if the exchange fails in transport. The
   * failure on record is then the one met, unless the restart failed as well.
   */
  lemma RequestRestarts(s: Supervisor, kind: Kind, revive: SpawnEnv, x: Exchange, respawn: SpawnEnv)
    requires Settled(s)
    ensures var (t, r) := Requested(s, kind, revive, x, respawn);
            && t.restarts == s.restarts + (if s.state == Degraded then 1 else 0) + (if InTransport(r) then 1 else 0)
            && t.spawns == s.spawns
            && (InTransport(r) ==> t.lastFailure == Some(if t.state == Ready then r.code else SpawnFailed))
  {
    if s.state == Degraded {
      SpawnCounts(s, false, revive);
      SpawnSettles(s, false, revive);
    }
    var s1 := if s.state == Ready then s else Spawn(s, false, revive);
    if s.state != Halted && s1.state == Ready {
      ExchangeRestarts(s1, kind, x, respawn);
    }
  }

  /** The reply `r` answers the last frame numbered by `t`, the first with its id. */
  ghost predicate Answers(t: Supervisor, kind: Kind, r: Frame) {
    && t.state == Ready && t.sent != []
    && t.sent[|t.sent| - 1] == Frame(kind, r.generation, r.id)
    && r.generation == t.generation && r.id == t.nextId
    && Expected(kind, r.kind)
    && (forall i | 0 <= i < |t.sent| - 1 :: t.sent[i].id < r.id)
  }

  lemma ExchangedCorrelates(s: Supervisor, kind: Kind, x: Exchange, respawn: SpawnEnv)
    requires Settled(s) && s.process.Some?
    ensures var (t, r) := Exchanged(s, kind, x, respawn);
            r.Ok? ==> Answers(t, kind, r.frame) && t.generation == s.generation
  {
  }

  /** Whatever is in the pipe, a request returns only an expected reply to the frame it just numbered. */
  lemma RequestCorrelates(s: Supervisor, kind: Kind, revive: SpawnEnv, x: Exchange, respawn: SpawnEnv)
    requires Settled(s)
    ensures var (t, r) := Requested(s, kind, revive, x, respawn);
            r.Ok? ==> Answers(t, kind, r.frame) && s.sent < t.sent
  {
    if s.state != Halted {
      var s1 := if s.state == Ready then s else Spawn(s, false, revive);
      if s.state != Ready {
        SpawnSettles(s, false, revive);
      }
      if s1.state == Ready {
        ExchangedSettles(s1, kind, x, respawn);
        ExchangedCorrelates(s1, kind, x, respawn);
      }
    }
  }

  // ---- with the real worker loop as peer -------------------------------

  predicate Honest(es: seq<ProcessEvent>) {
    forall i | 0 <= i < |es| :: !es[i].Emit?
  }

  predicate HonestSpawn(env: SpawnEnv) { env.Started? ==> Honest(env.ping.during) }

  predicate HonestAction(a: Action) {
    match a
    case Start(env) => HonestSpawn(env)
    case Halt => true
    case Request(_, revive, x, respawn) => HonestSpawn(revive) && Honest(x.during) && HonestSpawn(respawn)
    case Background(es) => Honest(es)
  }

  predicate PipesEmpty(p: Process) { p.toWorker == [] && p.toParent == [] }

  /** An honest process with nothing to serve leaves both directions as they are. */
  lemma {:induction false} IdleStaysQuiet(p: Process, es: seq<ProcessEvent>)
    requires Honest(es) && p.toWorker == []
    ensures var q := RunProcess(p, es);
            q.toWorker == [] && q.toParent == p.toParent && q.generation == p.generation && (q.alive ==> p.alive)
    decreases |es|
  {
    if es != [] {
      IdleStaysQuiet(ProcessStep(p, es[0]), es[1..]);
    }
  }

  /** The real worker answers one frame exactly once, as long as it gets to serve before it crashes. */
  lemma OneRequestOneReply(p: Process, f: Frame, es: seq<ProcessEvent>)
    requires Honest(es) && PipesEmpty(p) && p.alive
    ensures var q := RunProcess(p.(toWorker := [f]), es);
            if es != [] && es[0].Serve? then
              && q.toWorker == []
              && q.toParent == [Valid(Frame(ReplyKind(f, p.generation, es[0].good), f.generation, f.id))]
            else q.toParent == [] && (es != [] ==> !q.alive) && (es == [] ==> q.alive)
  {
    var p1 := p.(toWorker := [f]);
    if es != [] {
      var p2 := ProcessStep(p1, es[0]);
      if es[0].Serve? {
        IdleStaysQuiet(p2, es[1..]);
      } else {
        DeadStaysDead(p2, es[1..]);
      }
    }
  }

  lemma {:induction false} DeadStaysDead(p: Process, es: seq<ProcessEvent>)
    requires !p.alive
    ensures RunProcess(p, es) == p
    decreases |es|
  {
    if es != [] {
      DeadStaysDead(p, es[1..]);
    }
  }

  /** With the real worker a round trip succeeds exactly when it serves in time, and leaves the pipes empty. */
  lemma HonestRoundTrip(p: Process, f: Frame, x: Exchange)
    requires Honest(x.during) && PipesEmpty(p) && f.generation == p.generation && f.kind in {Ping, Decode, Encode}
    ensures var (q, r) := RoundTrip(p, f, x);
            && (r.Ok? <==> p.alive && x.sendOk && x.during != [] && x.during[0].Serve?)
            && (r.Ok? ==>
                  && PipesEmpty(q)
                  && r.frame == Frame(ReplyKind(f, p.generation, x.during[0].good), f.generation, f.id))
            && (r.Fault? ==> r.code in {WorkerExit, IpcTimeout})
  {
    if p.alive && x.sendOk {
      assert p.toWorker + [f] == [f];
      OneRequestOneReply(p, f, x.during);
    }
  }

  predicate Quiet(s: Supervisor) {
    Settled(s) && (s.process.Some? ==> PipesEmpty(s.process.value))
  }

  lemma HonestSpawnIsQuiet(s: Supervisor, initial: bool, env: SpawnEnv)
    requires s.generation == s.spawns + s.restarts && Numbering(s) && HonestSpawn(env)
    ensures Quiet(Spawn(s, initial, env))
  {
    SpawnSettles(s, initial, env);
    if env.Started? {
      HonestRoundTrip(Process(s.generation + 1, true, [], []), Frame(Ping, s.generation + 1, s.nextId + 1), env.ping);
    }
  }

  lemma HonestExchange(s: Supervisor, kind: Kind, x: Exchange, respawn: SpawnEnv)
    requires Quiet(s) && s.process.Some? && kind in {Ping, Decode, Encode} && Honest(x.during) && HonestSpawn(respawn)
    ensures var (t, r) := Exchanged(s, kind, x, respawn);
            Quiet(t) && (r.Fault? ==> r.code in {InvalidFrame, WorkerExit, IpcTimeout})
  {
    var (s1, f) := Numbered(s, kind);
    ExchangedSettles(s, kind, x, respawn);
    if x.valid {
      HonestRoundTrip(s.process.value, f, x);
      var (p, r) := RoundTrip(s.process.value, f, x);
      if r.Fault? {
        HonestSpawnIsQuiet(s1.(process := Some(p), lastFailure := Some(r.code), state := Degraded), false, respawn);
      }
    }
  }

  /** With the real worker no request ever meets a corrupt, stale or unexpected reply. */
  lemma HonestRequest(s: Supervisor, kind: Kind, revive: SpawnEnv, x: Exchange, respawn: SpawnEnv)
    requires Quiet(s) && kind in {Ping, Decode, Encode}
    requires HonestSpawn(revive) && Honest(x.during) && HonestSpawn(respawn)
    ensures var (t, r) := Requested(s, kind, revive, x, respawn);
            && Quiet(t)
            && (r.Fault? ==> r.code in {NotRunning, SpawnFailed, InvalidFrame, WorkerExit, IpcTimeout})
  {
    if s.state != Halted {
      var s1 := if s.state == Ready then s else Spawn(s, false, revive);
      if s.state != Ready {
        HonestSpawnIsQuiet(s, false, revive);
        SpawnSettles(s, false, revive);
      }
      if s1.state == Ready {
        HonestExchange(s1, kind, x, respawn);
      }
    }
  }

  lemma StepStaysQuiet(s: Supervisor, a: Action)
    requires Quiet(s) && HonestAction(a)
    ensures Quiet(Step(s, a))
  {
    StepSettles(s, a);
    match a
    case Start(env) => HonestSpawnIsQuiet(s, true, env);
    case Halt =>
    case Request(kind, revive, x, respawn) =>
      if kind in {Ping, Decode, Encode} { HonestRequest(s, kind, revive, x, respawn); }
    case Background(es) => if s.process.Some? { IdleStaysQuiet(s.process.value, es); }
  }

  /** Between calls both pipe directions are empty, over any run of crashes, timeouts and restarts. */
  lemma {:induction false} RunStaysQuiet(actions: seq<Action>)
    requires forall i | 0 <= i < |actions| :: HonestAction(actions[i])
    ensures Quiet(Run(NEW, actions))
  {
    if actions != [] {
      RunStaysQuiet(actions[..|actions| - 1]);
      StepStaysQuiet(Run(NEW, actions[..|actions| - 1]), actions[|actions| - 1]);
    }
  }
}
