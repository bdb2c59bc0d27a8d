/**
 * The sole PTT authority as coroutines that interleave at every await. Each action below is one atomic segment:
 * a coroutine running from one await to the next, the rig acting on the oldest PTT command, or time passing.
 * The rig serves PTT commands in the order issued; a command may fail with or without having taken effect.
 * Times are in samples of the transmit waveform.
 */
module Safety {
  import opened Prelude

  import Playback

  datatype Interlock = Cat | Audio | Dsp | Clock

  datatype Command = Command(id: nat, on: bool)

  /** Where a coroutine is suspended. All but `Playing` and `Draining` wait for their own PTT command. */
  datatype Await =
    | PreTxOff(duration: nat)
    | AggregateStop
    | Keying(duration: nat)
    | KeyFaultOff
    | Playing(duration: nat, started: int)
    | Draining
    | FaultOff
    | CompleteOff
    | FinalOff
    | StopOff
    | ReportOff
    | ArmOff
    | StartOff
    | ReconnectOff
  {
    predicate Transmitting() {
      PreTxOff? || AggregateStop? || Keying? || KeyFaultOff? || Keyed()
    }

    /** Inside the block that ends by releasing PTT. */
    predicate Keyed() {
      Playing? || Draining? || FaultOff? || CompleteOff? || FinalOff?
    }

    predicate OnRig() { !Playing? && !Draining? }

    /** Waiting for the release of a call that stops everything. */
    predicate Halting() { StopOff? || ReportOff? || StartOff? }
  }

  datatype PlayOutcome = Played | AudioFailed | Crashed

  datatype World = World(
    margin: nat,
    aggregate: nat,
    armed: bool,
    pttOn: bool,
    uncertain: bool,
    faults: set<Interlock>,
    txSeconds: int,
    clock: int,
    line: bool,
    acted: bool,
    queue: seq<Command>,
    tasks: map<nat, Await>)

  datatype Action =
    | Transmit(id: nat, duration: nat)
    | StopTx(id: nat)
    | ReportFault(id: nat, source: Interlock)
    | ArmTx(id: nat)
    | StartUp(id: nat)
    | RigReconnect(id: nat)
    | Disarm
    | ClearFault(source: Interlock)
    | PlayEnds(id: nat, outcome: PlayOutcome)
    | Deadline(id: nat)
    | Drained(id: nat)
    | RigActs
    | RigReplies(ok: bool)
    | Tick(elapsed: nat)
  {
    /** A call that starts a coroutine. */
    predicate Begins() { Transmit? || StopTx? || ReportFault? || ArmTx? || StartUp? || RigReconnect? }
  }

  /** Just after start-up: either its PTT-off succeeded, or it failed and the line may be in any position. */
  function NewWorld(margin: nat, aggregate: nat, released: bool, line: bool): World {
    World(margin, aggregate, false, false, !released, if released then {} else {Cat}, 0, 0,
          !released && line, false, [], map[])
  }

  // ---- segments --------------------------------------------------------

  /** Suspend coroutine `id` at `at`, its PTT command last in the rig's queue. */
  function Issue(w: World, id: nat, at: Await, on: bool): World {
    w.(tasks := w.tasks[id := at], queue := w.queue + [Command(id, on)])
  }

  function Finish(w: World, id: nat): World { w.(tasks := w.tasks - {id}) }

  /** After the authority checks: the aggregate watchdog, then the key-down command. */
  function KeyOrTrip(w: World, id: nat, duration: nat): World {
    if w.txSeconds + duration > w.aggregate then
      Issue(w.(armed := false), id, AggregateStop, false)
    else
      Issue(w, id, Keying(duration), true)
  }

  /** The lengths of waveform that are not refused outright. */
  predicate Playable(duration: nat) { 0 < duration <= Playback.MAX_TX_SAMPLES }

  function BeginTransmit(w: World, id: nat, duration: nat): World {
    if !Playable(duration) then w
    else if w.faults != {} || !w.armed then w
    else if w.uncertain then Issue(w, id, PreTxOff(duration), false)
    else KeyOrTrip(w, id, duration)
  }

  function BeginStop(w: World, id: nat): World { Issue(w.(armed := false), id, StopOff, false) }

  function Latch(w: World, source: Interlock): World { w.(faults := w.faults + {source}, armed := false) }

  function BeginReport(w: World, id: nat, source: Interlock): World {
    if source in w.faults then w else Issue(Latch(w, source), id, ReportOff, false)
  }

  function Armed(w: World): World { w.(armed := true, txSeconds := 0) }

  function BeginArm(w: World, id: nat): World {
    if w.faults != {} then w
    else if w.uncertain then Issue(w, id, ArmOff, false)
    else Armed(w)
  }

  function BeginReconnect(w: World, id: nat): World {
    if w.uncertain || w.pttOn then Issue(w, id, ReconnectOff, false) else w
  }

  /** The transmission's last block: release PTT if it still counts as on, then return. */
  function Finalize(w: World, id: nat): World {
    if w.pttOn then Issue(w, id, FinalOff, false) else Finish(w, id)
  }

  function FaultInside(w: World, id: nat): World {
    if Audio in w.faults then Finalize(w, id) else Issue(Latch(w, Audio), id, FaultOff, false)
  }

  function KeyingFailed(w: World, id: nat): World {
    var v := w.(uncertain := true);
    if Cat in v.faults then Finish(v, id) else Issue(Latch(v, Cat), id, KeyFaultOff, false)
  }

  /** The flags after a PTT-off attempt. */
  function OffResult(w: World, ok: bool): World {
    if ok then w.(pttOn := false, uncertain := false)
    else w.(uncertain := true, faults := w.faults + {Cat})
  }

  function AfterOff(w: World, id: nat, at: Await, ok: bool): World {
    match at
    case PreTxOff(d) => if ok then KeyOrTrip(w, id, d) else Finish(w, id)
    case FaultOff => Finalize(w, id)
    case CompleteOff => Finalize(w, id)
    case FinalOff => Finish(w.(pttOn := false), id)
    case ArmOff => if ok then Finish(Armed(w), id) else Finish(w, id)
    case _ => Finish(w, id)
  }

  predicate CanReply(w: World, ok: bool) {
    && w.queue != [] && w.queue[0].id in w.tasks && (ok ==> w.acted)
    && (w.queue[0].on ==> w.tasks[w.queue[0].id].Keying?)
  }

  /** The oldest command completes and the coroutine that issued it runs to its next await. */
  function Resume(w: World, ok: bool): World
    requires CanReply(w, ok)
  {
    var c := w.queue[0];
    var at := w.tasks[c.id];
    var v := w.(queue := w.queue[1..], acted := false);
    if !c.on then AfterOff(OffResult(v, ok), c.id, at, ok)
    else if ok then v.(pttOn := true, tasks := v.tasks[c.id := Playing(at.duration, v.clock)])
    else KeyingFailed(v, c.id)
  }

  predicate PlayMayEnd(w: World, id: nat) {
    && id in w.tasks && w.tasks[id].Playing?
    && w.clock <= w.tasks[id].started + w.tasks[id].duration + w.margin
  }

  function PlayEnded(w: World, id: nat, outcome: PlayOutcome): World
    requires PlayMayEnd(w, id)
  {
    match outcome
    case Played => Issue(w.(txSeconds := w.txSeconds + (w.clock - w.tasks[id].started)), id, CompleteOff, false)
    case AudioFailed => FaultInside(w, id)
    case Crashed => Finalize(w, id)
  }

  predicate DeadlinePassed(w: World, id: nat) {
    && id in w.tasks && w.tasks[id].Playing?
    && w.clock >= w.tasks[id].started + w.tasks[id].duration + w.margin
  }

  /** One segment; an action that is not possible in `w` leaves it alone. */
  function Step(w: World, x: Action): World {
    match x
    case Transmit(id, d) => if id in w.tasks then w else BeginTransmit(w, id, d)
    case StopTx(id) => if id in w.tasks then w else BeginStop(w, id)
    case ReportFault(id, source) => if id in w.tasks then w else BeginReport(w, id, source)
    case ArmTx(id) => if id in w.tasks then w else BeginArm(w, id)
    case StartUp(id) => if id in w.tasks then w else Issue(w.(armed := false), id, StartOff, false)
    case RigReconnect(id) => if id in w.tasks then w else BeginReconnect(w, id)
    case Disarm => w.(armed := false)
    case ClearFault(source) => w.(faults := w.faults - {source})
    case PlayEnds(id, outcome) => if PlayMayEnd(w, id) then PlayEnded(w, id, outcome) else w
    case Deadline(id) => if DeadlinePassed(w, id) then w.(tasks := w.tasks[id := Draining]) else w
    case Drained(id) => if id in w.tasks && w.tasks[id].Draining? then FaultInside(w, id) else w
    case RigActs => if w.queue != [] && !w.acted then w.(line := w.queue[0].on, acted := true) else w
    case RigReplies(ok) => if CanReply(w, ok) then Resume(w, ok) else w
    case Tick(d) => w.(clock := w.clock + d)
  }

  function Run(w: World, xs: seq<Action>): World {
    if xs == [] then w else Step(Run(w, xs[..|xs| - 1]), xs[|xs| - 1])
  }

  /** The segment that completes an arm. */
  predicate Arms(w: World, x: Action) {
    match x
    case ArmTx(id) => id !in w.tasks && w.faults == {} && !w.uncertain
    case RigReplies(ok) => ok && CanReply(w, ok) && w.tasks[w.queue[0].id].ArmOff?
    case _ => false
  }

  // ---- the queue and the suspended coroutines --------------------------

  /** Each queued command belongs to one suspended coroutine, and only a keying one asks for PTT-on. */
  predicate Matched(w: World) {
    && (forall i | 0 <= i < |w.queue| ::
          && w.queue[i].id in w.tasks && w.tasks[w.queue[i].id].OnRig()
          && (w.queue[i].on <==> w.tasks[w.queue[i].id].Keying?))
    && (forall i, j | 0 <= i < j < |w.queue| :: w.queue[i].id != w.queue[j].id)
  }

  lemma IssueKeepsMatched(w: World, id: nat, at: Await, on: bool)
    requires Matched(w) && at.OnRig() && (on <==> at.Keying?)
    requires forall i | 0 <= i < |w.queue| :: w.queue[i].id != id
    ensures Matched(Issue(w, id, at, on))
  {
    var v := Issue(w, id, at, on);
    forall i | 0 <= i < |v.queue| ensures v.queue[i] == (if i < |w.queue| then w.queue[i] else Command(id, on)) {}
  }

  predicate Queued(w: World, id: nat) { exists i :: 0 <= i < |w.queue| && w.queue[i].id == id }

  /** The controller never loses track of a keyed line: it counts as on, or as uncertain, or its command is running. */
  predicate LineKnown(w: World) {
    && (w.acted ==> w.queue != [] && w.line == w.queue[0].on)
    && (!w.acted && w.line ==> w.uncertain || w.pttOn)
  }

  /** PTT counts as on only while some transmission is bound to release it. */
  predicate PttOwned(w: World) {
    w.pttOn ==> exists id :: id in w.tasks && w.tasks[id].Keyed()
  }

  predicate Inv(w: World) { Matched(w) && LineKnown(w) && PttOwned(w) }

  lemma IssueKeepsInv(w: World, id: nat, at: Await, on: bool)
    requires Inv(w) && at.OnRig() && (on <==> at.Keying?) && !Queued(w, id)
    requires w.pttOn && id in w.tasks && w.tasks[id].Keyed() ==> at.Keyed()
    ensures Inv(Issue(w, id, at, on))
  {
    var v := Issue(w, id, at, on);
    IssueKeepsMatched(w, id, at, on);
    if w.pttOn {
      var k :| k in w.tasks && w.tasks[k].Keyed();
      assert k in v.tasks && v.tasks[k].Keyed();
    }
  }

  lemma FinishKeepsInv(w: World, id: nat)
    requires Inv(w) && !Queued(w, id)
    requires w.pttOn ==> id !in w.tasks || !w.tasks[id].Keyed()
    ensures Inv(Finish(w, id))
  {
    var v := Finish(w, id);
    if w.pttOn {
      var k :| k in w.tasks && w.tasks[k].Keyed();
      assert k in v.tasks && v.tasks[k].Keyed();
    }
  }

  lemma KeyOrTripKeepsInv(w: World, id: nat, duration: nat)
    requires Inv(w) && !Queued(w, id) && (id in w.tasks ==> !w.tasks[id].Keyed())
    ensures Inv(KeyOrTrip(w, id, duration))
  {
    IssueKeepsInv(w.(armed := false), id, AggregateStop, false);
    IssueKeepsInv(w, id, Keying(duration), true);
  }

  lemma FinalizeKeepsInv(w: World, id: nat)
    requires Inv(w) && !Queued(w, id)
    ensures Inv(Finalize(w, id))
  {
    if w.pttOn {
      IssueKeepsInv(w, id, FinalOff, false);
    } else {
      FinishKeepsInv(w, id);
    }
  }

  lemma FaultInsideKeepsInv(w: World, id: nat)
    requires Inv(w) && !Queued(w, id)
    ensures Inv(FaultInside(w, id))
  {
    if Audio in w.faults {
      FinalizeKeepsInv(w, id);
    } else {
      IssueKeepsInv(Latch(w, Audio), id, FaultOff, false);
    }
  }

  /** The state between the rig's answer and what the coroutine does with it. */
  function Popped(w: World): World
    requires w.queue != []
  {
    w.(queue := w.queue[1..], acted := false)
  }

  lemma PopKeepsMatched(w: World)
    requires Matched(w) && w.queue != []
    ensures Matched(Popped(w)) && !Queued(Popped(w), w.queue[0].id)
  {
  }

  lemma OffReplyKeepsInv(w: World, ok: bool)
    requires Inv(w) && CanReply(w, ok) && !w.queue[0].on
    ensures var u := OffResult(Popped(w), ok);
            Inv(u) && !Queued(u, w.queue[0].id) && (u.line ==> u.uncertain) && u.tasks == w.tasks
  {
    PopKeepsMatched(w);
  }

  lemma AfterOffKeepsInv(w: World, id: nat, ok: bool)
    requires Inv(w) && !Queued(w, id) && id in w.tasks && w.tasks[id].OnRig() && !w.tasks[id].Keying?
    requires w.line ==> w.uncertain
    requires !w.acted
    ensures Inv(AfterOff(w, id, w.tasks[id], ok))
  {
    match w.tasks[id]
    case PreTxOff(d) => if ok { KeyOrTripKeepsInv(w, id, d); } else { FinishKeepsInv(w, id); }
    case FaultOff => FinalizeKeepsInv(w, id);
    case CompleteOff => FinalizeKeepsInv(w, id);
    case FinalOff => FinishKeepsInv(w.(pttOn := false), id);
    case ArmOff => if ok { FinishKeepsInv(Armed(w), id); } else { FinishKeepsInv(w, id); }
    case _ => FinishKeepsInv(w, id);
  }

  lemma OnReplyKeepsInv(w: World, ok: bool)
    requires Inv(w) && CanReply(w, ok) && w.queue[0].on
    ensures Inv(Resume(w, ok))
  {
    PopKeepsMatched(w);
    var v := Popped(w);
    var id := w.queue[0].id;
    if ok {
      var u := Resume(w, ok);
      assert u.tasks[id].Keyed();
    } else {
      var u := v.(uncertain := true);
      if Cat in u.faults {
        FinishKeepsInv(u, id);
      } else {
        IssueKeepsInv(Latch(u, Cat), id, KeyFaultOff, false);
      }
    }
  }

  lemma ResumeKeepsInv(w: World, ok: bool)
    requires Inv(w) && CanReply(w, ok)
    ensures Inv(Resume(w, ok))
  {
    if w.queue[0].on {
      OnReplyKeepsInv(w, ok);
    } else {
      OffReplyKeepsInv(w, ok);
      AfterOffKeepsInv(OffResult(Popped(w), ok), w.queue[0].id, ok);
    }
  }

  lemma PlayEndedKeepsInv(w: World, id: nat, outcome: PlayOutcome)
    requires Inv(w) && PlayMayEnd(w, id)
    ensures Inv(PlayEnded(w, id, outcome))
  {
    match outcome
    case Played =>
      IssueKeepsInv(w.(txSeconds := w.txSeconds + (w.clock - w.tasks[id].started)), id, CompleteOff, false);
    case AudioFailed => FaultInsideKeepsInv(w, id);
    case Crashed => FinalizeKeepsInv(w, id);
  }

  lemma BeginKeepsInv(w: World, id: nat)
    requires Inv(w) && id !in w.tasks
    ensures forall d :: Inv(BeginTransmit(w, id, d))
    ensures Inv(BeginStop(w, id)) && Inv(BeginArm(w, id)) && Inv(BeginReconnect(w, id))
    ensures forall source :: Inv(BeginReport(w, id, source))
    ensures Inv(Issue(w.(armed := false), id, StartOff, false))
  {
    assert !Queued(w, id);
    forall d ensures Inv(BeginTransmit(w, id, d)) {
      IssueKeepsInv(w, id, PreTxOff(d), false);
      KeyOrTripKeepsInv(w, id, d);
    }
    IssueKeepsInv(w.(armed := false), id, StopOff, false);
    IssueKeepsInv(w, id, ArmOff, false);
    IssueKeepsInv(w, id, ReconnectOff, false);
    IssueKeepsInv(w.(armed := false), id, StartOff, false);
    forall source ensures Inv(BeginReport(w, id, source)) {
      IssueKeepsInv(Latch(w, source), id, ReportOff, false);
    }
  }

  lemma StepKeepsInv(w: World, x: Action)
    requires Inv(w)
    ensures Inv(Step(w, x))
  {
    match x
    case PlayEnds(id, outcome) => if PlayMayEnd(w, id) { PlayEndedKeepsInv(w, id, outcome); }
    case Deadline(id) => DeadlineKeepsInv(w, id);
    case Drained(id) => if id in w.tasks && w.tasks[id].Draining? { FaultInsideKeepsInv(w, id); }
    case RigReplies(ok) => if CanReply(w, ok) { ResumeKeepsInv(w, ok); }
    case _ =>
      if x.Begins() {
        CallKeepsInv(w, x);
      } else {
        FlagKeepsInv(w, x);
      }
  }

  lemma CallKeepsInv(w: World, x: Action)
    requires Inv(w) && x.Begins()
    ensures Inv(Step(w, x))
  {
    if x.id !in w.tasks {
      BeginKeepsInv(w, x.id);
    }
  }

  lemma FlagKeepsInv(w: World, x: Action)
    requires Inv(w) && (x.Disarm? || x.ClearFault? || x.RigActs? || x.Tick?)
    ensures Inv(Step(w, x))
  {
    var v := Step(w, x);
    assert v.tasks == w.tasks && v.queue == w.queue && v.pttOn == w.pttOn;
  }

  lemma DeadlineKeepsInv(w: World, id: nat)
    requires Inv(w)
    ensures Inv(Step(w, Deadline(id)))
  {
    var v := Step(w, Deadline(id));
    if w.pttOn {
      var k :| k in w.tasks && w.tasks[k].Keyed();
      assert k in v.tasks && v.tasks[k].Keyed();
    }
  }

  lemma {:induction false} RunKeepsInv(w: World, xs: seq<Action>)
    requires Inv(w)
    ensures Inv(Run(w, xs))
  {
    if xs != [] {
      RunKeepsInv(w, xs[..|xs| - 1]);
      StepKeepsInv(Run(w, xs[..|xs| - 1]), xs[|xs| - 1]);
    }
  }

  // ---- never silently keyed --------------------------------------------

  predicate TransmissionInProgress(w: World) {
    exists id :: id in w.tasks && w.tasks[id].Transmitting()
  }

  /** Over every interleaving: with no transmission in progress PTT counts as off and a keyed rig is known uncertain. */
  lemma NeverSilentlyKeyed(margin: nat, aggregate: nat, released: bool, line: bool, xs: seq<Action>)
    ensures var w := Run(NewWorld(margin, aggregate, released, line), xs);
            !TransmissionInProgress(w) ==> !w.pttOn && (w.line ==> w.uncertain)
  {
    var w := Run(NewWorld(margin, aggregate, released, line), xs);
    RunKeepsInv(NewWorld(margin, aggregate, released, line), xs);
    if !TransmissionInProgress(w) && w.acted {
      assert w.queue[0].on <==> w.tasks[w.queue[0].id].Keying?;
    }
  }

  /** A PTT-on is issued only on a certain line: by an armed, fault-free entry, or after a successful pre-TX release. */
  lemma KeyedOnlyWhenCertain(w: World, x: Action, id: nat)
    requires Inv(w) && Command(id, true) in Step(w, x).queue && Command(id, true) !in w.queue
    ensures !Step(w, x).uncertain
    ensures || (x.Transmit? && x.id == id && w.armed && w.faults == {} && !w.uncertain)
            || (x == RigReplies(true) && id in w.tasks && w.tasks[id].PreTxOff?)
  {
    if x.RigReplies? {
      assert CanReply(w, x.ok) by { assert Step(w, x) != w; }
      ReplyKeysOnlyWhenCertain(w, x.ok, id);
    } else if x.Transmit? {
    } else {
      NoOtherSegmentKeys(w, x, id);
    }
  }

  lemma ReplyKeysOnlyWhenCertain(w: World, ok: bool, id: nat)
    requires Inv(w) && CanReply(w, ok)
    requires Command(id, true) in Resume(w, ok).queue && Command(id, true) !in w.queue
    ensures !Resume(w, ok).uncertain && ok && id in w.tasks && w.tasks[id].PreTxOff?
  {
    assert forall c | c in w.queue[1..] :: c in w.queue;
    if w.queue[0].on {
      KeyFailureKeysNot(w, ok, id);
    } else {
      AfterOffKeys(OffResult(Popped(w), ok), w.queue[0].id, w.tasks[w.queue[0].id], ok, id);
    }
  }

  lemma KeyFailureKeysNot(w: World, ok: bool, id: nat)
    requires CanReply(w, ok) && w.queue[0].on && Command(id, true) !in w.queue[1..]
    ensures Command(id, true) !in Resume(w, ok).queue
  {
  }

  lemma AfterOffKeys(u: World, k: nat, at: Await, ok: bool, id: nat)
    requires Command(id, true) in AfterOff(u, k, at, ok).queue && Command(id, true) !in u.queue
    ensures at.PreTxOff? && ok && k == id && AfterOff(u, k, at, ok).uncertain == u.uncertain
  {
    match at
    case FaultOff => NothingKeysInside(u, k, id);
    case CompleteOff => NothingKeysInside(u, k, id);
    case _ =>
  }

  lemma NoOtherSegmentKeys(w: World, x: Action, id: nat)
    requires !x.RigReplies? && !x.Transmit? && Command(id, true) !in w.queue
    ensures Command(id, true) !in Step(w, x).queue
  {
    match x
    case PlayEnds(k, outcome) => if PlayMayEnd(w, k) { NothingKeysInside(w, k, id); }
    case Drained(k) => NothingKeysInside(w, k, id);
    case _ =>
  }

  lemma NothingKeysInside(w: World, k: nat, id: nat)
    requires Command(id, true) !in w.queue
    ensures Command(id, true) !in Finalize(w, k).queue && Command(id, true) !in FaultInside(w, k).queue
  {
  }

  // ---- a halt wins -----------------------------------------------------

  /** A call that has to stop everything: a STOP, the start-up sequence, or the report of a fault not yet latched. */
  predicate Halts(w: World, x: Action, sid: nat) {
    && sid !in w.tasks
    && (x == StopTx(sid) || x == StartUp(sid) || (x.ReportFault? && x.id == sid && x.source !in w.faults))
  }

  /** Transmission `id` is between its armed check and its key-down command, and within the aggregate budget. */
  predicate LettingIn(w: World, id: nat) {
    id in w.tasks && w.tasks[id].PreTxOff? && w.txSeconds + w.tasks[id].duration <= w.aggregate
  }

  ghost predicate NoneLettingIn(w: World) {
    forall id :: !LettingIn(w, id)
  }

  /** Only playback that has begun is playing, so keyed time is never negative. */
  predicate Clocked(w: World) {
    forall id | id in w.tasks && w.tasks[id].Playing? :: w.tasks[id].started <= w.clock
  }

  /** Halt `sid` is waiting for its PTT-off: everything that could key is ahead of it in the rig's queue. */
  ghost predicate StopPending(w: World, sid: nat) {
    && !w.armed && NoneLettingIn(w) && Queued(w, sid) && sid in w.tasks && w.tasks[sid].Halting()
    && (forall i, j | 0 <= i < |w.queue| && 0 <= j < |w.queue| && w.queue[i].on && w.queue[j].id == sid :: i < j)
  }

  /** The rig is released and nothing under way can key it. */
  ghost predicate Silent(w: World) {
    && !w.armed && NoneLettingIn(w) && !w.line
    && (forall i | 0 <= i < |w.queue| :: !w.queue[i].on)
  }

  datatype StopPhase = Waiting | Won | Lost | Rearmed

  /** Follows one halt through a run: answered with success, answered with failure, or overtaken by an arm(). */
  function Follow(w: World, sid: nat, x: Action, phase: StopPhase): StopPhase {
    if Step(w, x).armed || phase == Rearmed then Rearmed
    else if phase == Waiting && x.RigReplies? && CanReply(w, x.ok) && w.queue[0].id == sid then
      if x.ok then Won else Lost
    else phase
  }

  function PhaseAfter(w: World, sid: nat, xs: seq<Action>): StopPhase {
    if xs == [] then Waiting
    else Follow(Run(w, xs[..|xs| - 1]), sid, xs[|xs| - 1], PhaseAfter(w, sid, xs[..|xs| - 1]))
  }

  /** A halt disarms, and asks for one release. */
  predicate Halted(w: World, v: World, sid: nat) {
    && !v.armed && v.queue == w.queue + [Command(sid, false)]
    && sid in v.tasks && v.tasks[sid].Halting() && v.tasks == w.tasks[sid := v.tasks[sid]]
    && v.txSeconds == w.txSeconds && v.aggregate == w.aggregate
  }

  lemma HaltIssues(w: World, x: Action, sid: nat)
    requires Halts(w, x, sid)
    ensures Halted(w, Step(w, x), sid)
    ensures x.ReportFault? ==> x.source in Step(w, x).faults
  {
  }

  lemma HaltedIsPending(w: World, v: World, sid: nat)
    requires Inv(w) && NoneLettingIn(w) && sid !in w.tasks && Halted(w, v, sid)
    ensures StopPending(v, sid)
  {
    assert v.queue[|w.queue|].id == sid;
    NoneLetInSince(w, v);
  }

  /** TX is disarmed and the fault latched at once, and the release stands behind every key-down. */
  lemma StopTakesEffect(w: World, x: Action, sid: nat)
    requires Inv(w) && NoneLettingIn(w) && Halts(w, x, sid)
    ensures StopPending(Step(w, x), sid)
    ensures x.ReportFault? ==> x.source in Step(w, x).faults
  {
    HaltIssues(w, x, sid);
    HaltedIsPending(w, Step(w, x), sid);
  }

  /** What a segment may do while disarmed: at most one more release is queued, and coroutines on the rig stay put. */
  ghost predicate OnlyReleases(w: World, v: World) {
    && (v.queue == w.queue
        || (exists id :: v.queue == w.queue + [Command(id, false)] && (id in w.tasks ==> !w.tasks[id].OnRig())))
    && (forall id | id in w.tasks && w.tasks[id].OnRig() :: id in v.tasks && v.tasks[id] == w.tasks[id])
    && (forall id | id in v.tasks && v.tasks[id].PreTxOff? :: id in w.tasks && w.tasks[id] == v.tasks[id])
    && (!v.armed ==> v.txSeconds >= w.txSeconds && v.aggregate == w.aggregate)
  }

  lemma IssueOnlyReleases(w: World, v: World, id: nat, at: Await)
    requires v.armed || v.txSeconds >= w.txSeconds
    requires v == Issue(w.(armed := v.armed, faults := v.faults, txSeconds := v.txSeconds), id, at, false)
    requires id in w.tasks ==> !w.tasks[id].OnRig()
    requires !at.PreTxOff?
    ensures OnlyReleases(w, v)
  {
  }

  lemma FinalizeOnlyReleases(w: World, id: nat)
    requires id in w.tasks && !w.tasks[id].OnRig()
    ensures OnlyReleases(w, Finalize(w, id)) && OnlyReleases(w, FaultInside(w, id))
  {
    if w.pttOn {
      IssueOnlyReleases(w, Issue(w, id, FinalOff, false), id, FinalOff);
    }
    IssueOnlyReleases(w, Issue(Latch(w, Audio), id, FaultOff, false), id, FaultOff);
  }

  lemma BeginOnlyReleases(w: World, x: Action)
    requires x.StopTx? || x.ReportFault? || x.ArmTx? || x.StartUp? || x.RigReconnect?
    ensures OnlyReleases(w, Step(w, x))
  {
    var v := Step(w, x);
    if x.id !in w.tasks && v != w {
      match x
      case StopTx(id) => IssueOnlyReleases(w, v, id, StopOff);
      case ReportFault(id, source) => IssueOnlyReleases(w, v, id, ReportOff);
      case ArmTx(id) => if w.uncertain { IssueOnlyReleases(w, v, id, ArmOff); }
      case StartUp(id) => IssueOnlyReleases(w, v, id, StartOff);
      case RigReconnect(id) => IssueOnlyReleases(w, v, id, ReconnectOff);
    }
  }

  lemma DisarmedOnlyReleases(w: World, x: Action)
    requires !w.armed && Clocked(w) && !(x.RigReplies? && CanReply(w, x.ok))
    ensures OnlyReleases(w, Step(w, x))
  {
    match x
    case PlayEnds(id, outcome) => if PlayMayEnd(w, id) { PlayEndedOnlyReleases(w, id, outcome); }
    case Drained(id) => if id in w.tasks && w.tasks[id].Draining? { FinalizeOnlyReleases(w, id); }
    case StopTx(_) => BeginOnlyReleases(w, x);
    case ReportFault(_, _) => BeginOnlyReleases(w, x);
    case ArmTx(_) => BeginOnlyReleases(w, x);
    case StartUp(_) => BeginOnlyReleases(w, x);
    case RigReconnect(_) => BeginOnlyReleases(w, x);
    case _ =>
  }

  lemma PlayEndedOnlyReleases(w: World, id: nat, outcome: PlayOutcome)
    requires PlayMayEnd(w, id) && Clocked(w)
    ensures OnlyReleases(w, PlayEnded(w, id, outcome))
  {
    FinalizeOnlyReleases(w, id);
    if outcome.Played? {
      IssueOnlyReleases(w, PlayEnded(w, id, outcome), id, CompleteOff);
    }
  }

  /** After a reply the popped queue gains at most a release, unless a pre-TX release let a transmission in. */
  predicate RepliesOnlyRelease(w: World, v: World)
    requires w.queue != []
  {
    && (v.queue == w.queue[1..] || v.queue == w.queue[1..] + [Command(w.queue[0].id, false)])
    && (forall id | id in w.tasks && id != w.queue[0].id :: id in v.tasks && v.tasks[id] == w.tasks[id])
    && (forall id | id in v.tasks && v.tasks[id].PreTxOff? :: id in w.tasks && w.tasks[id] == v.tasks[id])
    && (!v.armed ==> v.txSeconds >= w.txSeconds && v.aggregate == w.aggregate)
  }

  /** The same for what the coroutine does after a release. */
  predicate ReleasesAtMost(u: World, v: World, id: nat) {
    && (v.queue == u.queue || v.queue == u.queue + [Command(id, false)])
    && (forall k | k in u.tasks && k != id :: k in v.tasks && v.tasks[k] == u.tasks[k])
    && (forall k | k in v.tasks && v.tasks[k].PreTxOff? :: k in u.tasks && u.tasks[k] == v.tasks[k])
    && (!v.armed ==> v.txSeconds >= u.txSeconds && v.aggregate == u.aggregate)
  }

  lemma EndReleasesAtMost(u: World, id: nat)
    ensures ReleasesAtMost(u, Finish(u, id), id) && ReleasesAtMost(u, Finalize(u, id), id)
    ensures ReleasesAtMost(u, Finish(u.(pttOn := false), id), id) && ReleasesAtMost(u, Finish(Armed(u), id), id)
  {
  }

  lemma AfterOffReleasesAtMost(u: World, id: nat, at: Await, ok: bool)
    requires ok && at.PreTxOff? ==> u.txSeconds + at.duration > u.aggregate
    ensures ReleasesAtMost(u, AfterOff(u, id, at, ok), id)
  {
    EndReleasesAtMost(u, id);
    match at
    case PreTxOff(d) =>
      if ok {
        assert AfterOff(u, id, at, ok) == Issue(u.(armed := false), id, AggregateStop, false);
      }
    case _ =>
  }

  lemma AfterOffOnlyReleases(w: World, ok: bool)
    requires CanReply(w, ok) && !w.queue[0].on && (ok ==> !LettingIn(w, w.queue[0].id))
    ensures RepliesOnlyRelease(w, Resume(w, ok))
  {
    AfterOffReleasesAtMost(OffResult(Popped(w), ok), w.queue[0].id, w.tasks[w.queue[0].id], ok);
  }

  lemma ReplyOnlyReleases(w: World, ok: bool)
    requires CanReply(w, ok) && (ok ==> NoneLettingIn(w))
    ensures RepliesOnlyRelease(w, Resume(w, ok))
  {
    if !w.queue[0].on {
      AfterOffOnlyReleases(w, ok);
    }
  }

  lemma NoneLetInSince(w: World, v: World)
    requires NoneLettingIn(w) && v.txSeconds >= w.txSeconds && v.aggregate == w.aggregate
    requires forall id | id in v.tasks && v.tasks[id].PreTxOff? :: id in w.tasks && w.tasks[id] == v.tasks[id]
    ensures NoneLettingIn(v)
  {
    forall id ensures !LettingIn(v, id) {
      assert !LettingIn(w, id);
    }
  }

  lemma ReplyKeepsStop(w: World, sid: nat, ok: bool)
    requires Inv(w) && StopPending(w, sid) && CanReply(w, ok) && !Resume(w, ok).armed
    ensures w.queue[0].id != sid ==> StopPending(Resume(w, ok), sid)
    ensures w.queue[0].id == sid && ok ==> Silent(Resume(w, ok))
  {
    var v := Resume(w, ok);
    ReplyOnlyReleases(w, ok);
    NoneLetInSince(w, v);
    var k :| 0 <= k < |w.queue| && w.queue[k].id == sid;
    if w.queue[0].id == sid {
      assert forall i | 0 <= i < |w.queue| :: !w.queue[i].on;
      if ok {
        assert !w.line;
      }
    } else {
      assert v.queue[k - 1].id == sid;
    }
  }

  lemma StepKeepsStop(w: World, sid: nat, x: Action)
    requires Inv(w) && Clocked(w) && StopPending(w, sid) && !Step(w, x).armed
    requires !(x.RigReplies? && CanReply(w, x.ok))
    ensures StopPending(Step(w, x), sid)
  {
    var v := Step(w, x);
    DisarmedOnlyReleases(w, x);
    NoneLetInSince(w, v);
    var k :| 0 <= k < |w.queue| && w.queue[k].id == sid;
    assert v.queue[k].id == sid;
  }

  lemma ReplyKeepsSilent(w: World, ok: bool)
    requires Inv(w) && Silent(w) && CanReply(w, ok) && !Resume(w, ok).armed
    ensures Silent(Resume(w, ok))
  {
    ReplyOnlyReleases(w, ok);
    NoneLetInSince(w, Resume(w, ok));
  }

  lemma StepKeepsSilent(w: World, x: Action)
    requires Inv(w) && Clocked(w) && Silent(w) && !Step(w, x).armed
    ensures Silent(Step(w, x))
  {
    if x.RigReplies? && CanReply(w, x.ok) {
      ReplyKeepsSilent(w, x.ok);
    } else {
      OthersKeepSilent(w, x, Step(w, x));
    }
  }

  lemma OthersKeepSilent(w: World, x: Action, v: World)
    requires Clocked(w) && Silent(w) && !v.armed && v == Step(w, x) && !(x.RigReplies? && CanReply(w, x.ok))
    ensures Silent(v)
  {
    DisarmedOnlyReleases(w, x);
    NoneLetInSince(w, v);
    OthersLeaveLine(w, x);
  }

  lemma OthersLeaveLine(w: World, x: Action)
    requires !(x.RigReplies? && CanReply(w, x.ok))
    ensures Step(w, x).line == w.line || (x.RigActs? && w.queue != [] && Step(w, x).line == w.queue[0].on)
  {
    match x
    case PlayEnds(id, _) => InsideLeavesLine(w, id);
    case Drained(id) => InsideLeavesLine(w, id);
    case Transmit(id, d) => assert BeginTransmit(w, id, d).line == w.line;
    case _ =>
  }

  lemma InsideLeavesLine(w: World, id: nat)
    ensures Finalize(w, id).line == w.line && FaultInside(w, id).line == w.line
  {
  }

  lemma StepKeepsClocked(w: World, x: Action)
    requires Clocked(w)
    ensures Clocked(Step(w, x))
  {
    match x
    case RigReplies(ok) => if CanReply(w, ok) { ReplyKeepsClocked(w, ok); }
    case PlayEnds(id, outcome) => if PlayMayEnd(w, id) { PlayEndKeepsClocked(w, id, outcome); }
    case Drained(id) => if id in w.tasks && w.tasks[id].Draining? { FaultInsideKeepsClocked(w, id); }
    case Transmit(_, _) =>
    case _ =>
  }

  lemma FaultInsideKeepsClocked(w: World, id: nat)
    requires Clocked(w)
    ensures Clocked(Finalize(w, id)) && Clocked(FaultInside(w, id))
  {
  }

  lemma PlayEndKeepsClocked(w: World, id: nat, outcome: PlayOutcome)
    requires Clocked(w) && PlayMayEnd(w, id)
    ensures Clocked(PlayEnded(w, id, outcome))
  {
    FaultInsideKeepsClocked(w, id);
  }

  lemma ReplyKeepsClocked(w: World, ok: bool)
    requires Clocked(w) && CanReply(w, ok)
    ensures Clocked(Resume(w, ok))
  {
  }

  lemma {:induction false} StopHolds(w: World, sid: nat, xs: seq<Action>)
    requires Inv(w) && Clocked(w) && StopPending(w, sid)
    ensures var v := Run(w, xs);
            && Inv(v) && Clocked(v)
            && (PhaseAfter(w, sid, xs) == Waiting ==> StopPending(v, sid))
            && (PhaseAfter(w, sid, xs) == Won ==> Silent(v))
  {
    if xs != [] {
      var front, x := xs[..|xs| - 1], xs[|xs| - 1];
      StopHolds(w, sid, front);
      var v := Run(w, front);
      StepKeepsInv(v, x);
      StepKeepsClocked(v, x);
      match PhaseAfter(w, sid, front)
      case Waiting =>
        if !Step(v, x).armed {
          if x.RigReplies? && CanReply(v, x.ok) {
            ReplyKeepsStop(v, sid, x.ok);
          } else {
            StepKeepsStop(v, sid, x);
          }
        }
      case Won => if !Step(v, x).armed { StepKeepsSilent(v, x); }
      case _ =>
    }
  }

  /** A halt while no transmission is being let in: once its release succeeded the rig stays unkeyed until an arm. */
  lemma StopWins(w: World, x: Action, sid: nat, xs: seq<Action>)
    requires Inv(w) && Clocked(w) && NoneLettingIn(w) && Halts(w, x, sid)
    ensures PhaseAfter(Step(w, x), sid, xs) == Won ==> !Run(Step(w, x), xs).line
  {
    StopTakesEffect(w, x, sid);
    StepKeepsInv(w, x);
    StepKeepsClocked(w, x);
    StopHolds(Step(w, x), sid, xs);
  }

  /** Disarmed, with no transmission being let in, and no key-down queued but those in `before`. */
  ghost predicate Barred(w: World, before: seq<Command>) {
    !w.armed && NoneLettingIn(w) && forall i | 0 <= i < |w.queue| && w.queue[i].on :: w.queue[i] in before
  }

  lemma StepKeepsBarred(w: World, x: Action, before: seq<Command>)
    requires Clocked(w) && Barred(w, before) && !Step(w, x).armed
    ensures Barred(Step(w, x), before)
  {
    if x.RigReplies? && CanReply(w, x.ok) {
      ReplyOnlyReleases(w, x.ok);
    } else {
      DisarmedOnlyReleases(w, x);
    }
    NoneLetInSince(w, Step(w, x));
  }

  /** From then on, and until an arm, no key-down is queued that was not queued already. */
  lemma {:induction false} NoNewKeyDown(w: World, sid: nat, xs: seq<Action>, before: seq<Command>)
    requires Clocked(w) && Barred(w, before)
    ensures Clocked(Run(w, xs)) && (PhaseAfter(w, sid, xs) != Rearmed ==> Barred(Run(w, xs), before))
  {
    if xs != [] {
      var front, x := xs[..|xs| - 1], xs[|xs| - 1];
      NoNewKeyDown(w, sid, front, before);
      StepKeepsClocked(Run(w, front), x);
      if PhaseAfter(w, sid, xs) != Rearmed {
        StepKeepsBarred(Run(w, front), x, before);
      }
    }
  }

  lemma HaltBars(w: World, x: Action, sid: nat, xs: seq<Action>)
    requires Inv(w) && Clocked(w) && NoneLettingIn(w) && Halts(w, x, sid)
    ensures PhaseAfter(Step(w, x), sid, xs) != Rearmed ==> Barred(Run(Step(w, x), xs), w.queue)
  {
    StopTakesEffect(w, x, sid);
    StepKeepsClocked(w, x);
    assert Step(w, x).queue == w.queue + [Command(sid, false)];
    NoNewKeyDown(Step(w, x), sid, xs, w.queue);
  }

  // ---- the keyed-time counter ------------------------------------------------------

  /** Transmissions do not overlap, as the slot driver guarantees. */
  predicate OneAtATime(w: World, xs: seq<Action>) {
    forall k | 0 <= k < |xs| && xs[k].Transmit? :: !TransmissionInProgress(Run(w, xs[..k]))
  }

  predicate Budgeted(w: World) {
    && 0 <= w.txSeconds <= w.aggregate + w.margin
    && (forall i, j | i in w.tasks && j in w.tasks && w.tasks[i].Transmitting() && w.tasks[j].Transmitting() :: i == j)
    && (forall id | id in w.tasks && w.tasks[id].Keying? :: w.txSeconds + w.tasks[id].duration <= w.aggregate)
    && (forall id | id in w.tasks && w.tasks[id].Playing? ::
          w.txSeconds + w.tasks[id].duration <= w.aggregate && w.tasks[id].started <= w.clock)
  }

  /** Coroutine `id` may (again) count as the transmission: it already does, or there is none. */
  predicate Sole(w: World, id: nat) {
    forall i | i in w.tasks && w.tasks[i].Transmitting() :: i == id
  }

  lemma IssueKeepsBudget(w: World, id: nat, at: Await, on: bool)
    requires Budgeted(w) && (at.Transmitting() ==> Sole(w, id)) && !at.Playing?
    requires at.Keying? ==> w.txSeconds + at.duration <= w.aggregate
    ensures Budgeted(Issue(w, id, at, on))
  {
    assert forall i | i in Issue(w, id, at, on).tasks && i != id :: i in w.tasks;
  }

  lemma FinishKeepsBudget(w: World, id: nat)
    requires Budgeted(w)
    ensures Budgeted(Finish(w, id))
  {
  }

  lemma KeyOrTripKeepsBudget(w: World, id: nat, duration: nat)
    requires Budgeted(w) && Sole(w, id)
    ensures Budgeted(KeyOrTrip(w, id, duration))
  {
    if w.txSeconds + duration > w.aggregate {
      IssueKeepsBudget(w.(armed := false), id, AggregateStop, false);
    } else {
      IssueKeepsBudget(w, id, Keying(duration), true);
    }
  }

  lemma FinalizeKeepsBudget(w: World, id: nat)
    requires Budgeted(w) && Sole(w, id)
    ensures Budgeted(Finalize(w, id)) && Budgeted(FaultInside(w, id))
  {
    IssueKeepsBudget(w, id, FinalOff, false);
    FinishKeepsBudget(w, id);
    IssueKeepsBudget(Latch(w, Audio), id, FaultOff, false);
  }

  lemma ArmedKeepsBudget(w: World)
    requires Budgeted(w)
    ensures Budgeted(Armed(w))
  {
  }

  lemma AfterOffKeepsBudget(w: World, id: nat, ok: bool)
    requires Budgeted(w) && id in w.tasks
    ensures Budgeted(AfterOff(w, id, w.tasks[id], ok))
  {
    FinishKeepsBudget(w, id);
    match w.tasks[id]
    case PreTxOff(d) => if ok { KeyOrTripKeepsBudget(w, id, d); }
    case FaultOff => FinalizeKeepsBudget(w, id);
    case CompleteOff => FinalizeKeepsBudget(w, id);
    case FinalOff => FinishKeepsBudget(w.(pttOn := false), id);
    case ArmOff =>
      ArmedKeepsBudget(w);
      FinishKeepsBudget(Armed(w), id);
    case _ =>
  }

  lemma OnReplyKeepsBudget(w: World, ok: bool)
    requires Budgeted(w) && CanReply(w, ok) && w.queue[0].on
    ensures Budgeted(Resume(w, ok))
  {
    var v, id := Popped(w), w.queue[0].id;
    if ok {
      assert forall i | i in Resume(w, ok).tasks && i != id :: i in w.tasks;
    } else {
      FinishKeepsBudget(v.(uncertain := true), id);
      IssueKeepsBudget(Latch(v.(uncertain := true), Cat), id, KeyFaultOff, false);
    }
  }

  lemma ReplyKeepsBudget(w: World, ok: bool)
    requires Budgeted(w) && CanReply(w, ok)
    ensures Budgeted(Resume(w, ok))
  {
    if w.queue[0].on {
      OnReplyKeepsBudget(w, ok);
    } else {
      AfterOffKeepsBudget(OffResult(Popped(w), ok), w.queue[0].id, ok);
    }
  }

  lemma PlayEndKeepsBudget(w: World, id: nat, outcome: PlayOutcome)
    requires Budgeted(w) && PlayMayEnd(w, id)
    ensures Budgeted(PlayEnded(w, id, outcome))
  {
    FinalizeKeepsBudget(w, id);
    if outcome.Played? {
      var v := w.(txSeconds := w.txSeconds + (w.clock - w.tasks[id].started), tasks := w.tasks - {id});
      assert Budgeted(v);
      IssueKeepsBudget(v, id, CompleteOff, false);
      assert v.tasks[id := CompleteOff] == w.tasks[id := CompleteOff];
    }
  }

  lemma TransmitKeepsBudget(w: World, id: nat, duration: nat)
    requires Budgeted(w) && id !in w.tasks && !TransmissionInProgress(w)
    ensures Budgeted(BeginTransmit(w, id, duration))
  {
    IssueKeepsBudget(w, id, PreTxOff(duration), false);
    KeyOrTripKeepsBudget(w, id, duration);
  }

  lemma OthersKeepBudget(w: World, id: nat, at: Await)
    requires Budgeted(w) && id !in w.tasks && at in {StopOff, ReportOff, ArmOff, StartOff, ReconnectOff}
    ensures Budgeted(Issue(w, id, at, false)) && Budgeted(Issue(w.(armed := false), id, at, false))
    ensures forall source :: Budgeted(Issue(Latch(w, source), id, at, false))
  {
    IssueKeepsBudget(w, id, at, false);
    IssueKeepsBudget(w.(armed := false), id, at, false);
    forall source ensures Budgeted(Issue(Latch(w, source), id, at, false)) {
      IssueKeepsBudget(Latch(w, source), id, at, false);
    }
  }

  lemma StepKeepsBudget(w: World, x: Action)
    requires Budgeted(w) && (x.Transmit? ==> !TransmissionInProgress(w))
    ensures Budgeted(Step(w, x))
  {
    match x
    case RigReplies(ok) => if CanReply(w, ok) { ReplyKeepsBudget(w, ok); }
    case PlayEnds(id, outcome) => if PlayMayEnd(w, id) { PlayEndKeepsBudget(w, id, outcome); }
    case Drained(id) => if id in w.tasks && w.tasks[id].Draining? { FinalizeKeepsBudget(w, id); }
    case Deadline(id) => DeadlineKeepsBudget(w, id);
    case _ =>
      if x.Begins() {
        CallKeepsBudget(w, x);
      } else {
        FlagKeepsBudget(w, x);
      }
  }

  lemma CallKeepsBudget(w: World, x: Action)
    requires Budgeted(w) && x.Begins() && (x.Transmit? ==> !TransmissionInProgress(w))
    ensures Budgeted(Step(w, x))
  {
    if x.id !in w.tasks {
      match x
      case Transmit(id, d) => TransmitKeepsBudget(w, id, d);
      case StopTx(id) => OthersKeepBudget(w, id, StopOff);
      case ReportFault(id, source) => OthersKeepBudget(w, id, ReportOff);
      case ArmTx(id) =>
        ArmedKeepsBudget(w);
        OthersKeepBudget(w, id, ArmOff);
      case StartUp(id) => OthersKeepBudget(w, id, StartOff);
      case RigReconnect(id) => OthersKeepBudget(w, id, ReconnectOff);
    }
  }

  lemma DeadlineKeepsBudget(w: World, id: nat)
    requires Budgeted(w)
    ensures Budgeted(Step(w, Deadline(id)))
  {
    if DeadlinePassed(w, id) {
      assert forall k | k in w.tasks[id := Draining] && k != id :: k in w.tasks;
    }
  }

  lemma FlagKeepsBudget(w: World, x: Action)
    requires Budgeted(w) && (x.Disarm? || x.ClearFault? || x.RigActs? || x.Tick?)
    ensures Budgeted(Step(w, x))
  {
    var v := Step(w, x);
    assert v.tasks == w.tasks && v.txSeconds == w.txSeconds && v.clock >= w.clock;
  }

  predicate SameLimits(w: World, v: World) { v.aggregate == w.aggregate && v.margin == w.margin }

  lemma ResumeKeepsLimits(w: World, ok: bool)
    requires CanReply(w, ok)
    ensures SameLimits(w, Resume(w, ok))
  {
  }

  lemma StepKeepsLimits(w: World, x: Action)
    ensures SameLimits(w, Step(w, x))
  {
    match x
    case RigReplies(ok) => if CanReply(w, ok) { ResumeKeepsLimits(w, ok); }
    case PlayEnds(id, outcome) => assert SameLimits(w, FaultInside(w, id));
    case Drained(id) => assert SameLimits(w, FaultInside(w, id));
    case _ =>
  }

  /** The counter the aggregate watchdog compares never exceeds its budget by more than one per-TX margin. */
  lemma {:induction false} CounterBounded(w: World, xs: seq<Action>)
    requires Budgeted(w) && OneAtATime(w, xs)
    ensures Budgeted(Run(w, xs)) && Run(w, xs).txSeconds <= w.aggregate + w.margin
    ensures SameLimits(w, Run(w, xs))
  {
    if xs != [] {
      var front := xs[..|xs| - 1];
      assert forall k | 0 <= k < |front| :: front[k] == xs[k] && front[..k] == xs[..k];
      CounterBounded(w, front);
      StepKeepsBudget(Run(w, front), xs[|xs| - 1]);
      StepKeepsLimits(Run(w, front), xs[|xs| - 1]);
    }
  }
}
