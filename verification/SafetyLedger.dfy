/**
 * The clock time a rig is kept playing in one armed session, booked beside the run and not by the controller. The
 * controller's own counter grows only when a playback returns, so the two agree only as far as playbacks do return.
 */
module SafetyLedger {
  import opened Prelude
  import opened Safety
  import opened SafetyLine

  import Playback

  predicate Plays(w: World) { exists id :: id in w.tasks && w.tasks[id].Playing? }

  function Book(w: World, x: Action, spent: nat): nat {
    if Arms(w, x) then 0
    else if x.Tick? && Plays(w) then spent + x.elapsed
    else spent
  }

  /** The time spent playing since the last arm. */
  function Spent(w: World, xs: seq<Action>): nat {
    if xs == [] then 0 else Book(Run(w, xs[..|xs| - 1]), xs[|xs| - 1], Spent(w, xs[..|xs| - 1]))
  }

  // ---- the runs considered -----------------------------------------------

  /** No playback has outlasted its deadline. */
  predicate Timely(w: World) {
    forall id | id in w.tasks && w.tasks[id].Playing? ::
      w.clock <= w.tasks[id].started + w.tasks[id].duration + w.margin
  }

  /** A playback ends otherwise than by returning, and TX stays armed: it crashes, or fails on a latched audio fault. */
  predicate EndsCrashed(w: World, x: Action) {
    Step(w, x).armed && x.PlayEnds? && x.outcome.Crashed? && PlayMayEnd(w, x.id)
  }

  predicate EndsLatched(w: World, x: Action) {
    && Step(w, x).armed
    && ((x.PlayEnds? && x.outcome.AudioFailed? && PlayMayEnd(w, x.id))
        || (x.Drained? && x.id in w.tasks && w.tasks[x.id].Draining?))
  }

  /** Which uncounted ends may occur. */
  datatype Ends = Ends(crashed: bool, latched: bool)

  /** Transmissions do not overlap, the watchdog fires on time, and no uncounted ends but these occur. */
  predicate Orderly(w: World, x: Action, e: Ends) {
    && (x.Transmit? ==> !TransmissionInProgress(w))
    && (x.Tick? ==> Timely(Step(w, x)))
    && (EndsCrashed(w, x) ==> e.crashed) && (EndsLatched(w, x) ==> e.latched)
  }

  predicate OrderlyRun(w: World, xs: seq<Action>, e: Ends) {
    xs == [] || (OrderlyRun(w, xs[..|xs| - 1], e) && Orderly(Run(w, xs[..|xs| - 1]), xs[|xs| - 1], e))
  }

  // ---- the bound -----------------------------------------------------------

  predicate Engaged(at: Await) { at.Playing? || at.Draining? }

  /** But for `extra` the counter covers what was spent before the playback under way, whenever another could begin. */
  predicate Covered(w: World, spent: nat, extra: nat) {
    && (forall id | id in w.tasks && w.tasks[id].Playing? ::
          spent <= w.txSeconds + extra + (w.clock - w.tasks[id].started))
    && (forall id | id in w.tasks && (w.tasks[id].PreTxOff? || w.tasks[id].Keying?) :: spent <= w.txSeconds + extra)
    && (w.armed ==> spent <= w.txSeconds + extra || exists id :: id in w.tasks && Engaged(w.tasks[id]))
  }

  /** The longest a single playback can last. */
  function Longest(w: World): nat { Min(w.aggregate, Playback.MAX_TX_SAMPLES) + w.margin }

  /** TX armed with the audio fault latched was armed during the present transmission: the ledger holds no other. */
  predicate Inside(w: World, spent: nat) {
    w.armed && Audio in w.faults ==>
      && (forall id | id in w.tasks && (w.tasks[id].PreTxOff? || w.tasks[id].Keying?) :: spent == 0)
      && (forall id | id in w.tasks && w.tasks[id].Playing? :: spent <= w.clock - w.tasks[id].started)
      && (forall id | id in w.tasks && w.tasks[id].Draining? :: spent <= Longest(w))
  }

  predicate Accounted(w: World, spent: nat, extra: nat) {
    && Budgeted(w) && Timely(w) && Covered(w, spent, extra) && Inside(w, spent)
    && spent <= w.aggregate + w.margin + extra
  }

  /** Only waveforms of an accepted length get in. */
  predicate Short(w: World) {
    forall id | id in w.tasks && (w.tasks[id].PreTxOff? || w.tasks[id].Keying? || w.tasks[id].Playing?) ::
      w.tasks[id].duration <= Playback.MAX_TX_SAMPLES
  }

  predicate ShortWait(at: Await) {
    at.PreTxOff? || at.Keying? || at.Playing? ==> at.duration <= Playback.MAX_TX_SAMPLES
  }

  lemma IssueKeepsShort(w: World, id: nat, at: Await, on: bool)
    requires Short(w) && ShortWait(at)
    ensures Short(Issue(w, id, at, on)) && Short(Finish(w, id))
  {
  }

  lemma FinalizeKeepsShort(w: World, id: nat)
    requires Short(w)
    ensures Short(Finalize(w, id)) && Short(FaultInside(w, id))
  {
    IssueKeepsShort(w, id, FinalOff, false);
    IssueKeepsShort(Latch(w, Audio), id, FaultOff, false);
  }

  lemma AfterOffKeepsShort(w: World, id: nat, at: Await, ok: bool)
    requires Short(w) && ShortWait(at)
    ensures Short(AfterOff(w, id, at, ok))
  {
    FinalizeKeepsShort(w, id);
    IssueKeepsShort(w, id, AggregateStop, false);
    if at.PreTxOff? {
      IssueKeepsShort(w.(armed := false), id, AggregateStop, false);
      IssueKeepsShort(w, id, Keying(at.duration), true);
    }
  }

  lemma ReplyKeepsShort(w: World, ok: bool)
    requires Short(w) && CanReply(w, ok)
    ensures Short(Resume(w, ok))
  {
    var u, id := Popped(w), w.queue[0].id;
    if !w.queue[0].on {
      AfterOffKeepsShort(OffResult(u, ok), id, w.tasks[id], ok);
    } else if ok {
      assert Resume(w, ok).tasks == w.tasks[id := Playing(w.tasks[id].duration, w.clock)];
    } else {
      IssueKeepsShort(u.(uncertain := true), id, KeyFaultOff, false);
      IssueKeepsShort(Latch(u.(uncertain := true), Cat), id, KeyFaultOff, false);
    }
  }

  lemma EntryKeepsShort(w: World, id: nat, d: nat)
    requires Short(w)
    ensures Short(BeginTransmit(w, id, d))
  {
    if Playable(d) {
      IssueKeepsShort(w, id, PreTxOff(d), false);
      IssueKeepsShort(w.(armed := false), id, AggregateStop, false);
      IssueKeepsShort(w, id, Keying(d), true);
    }
  }

  lemma StepKeepsShort(w: World, x: Action)
    requires Short(w)
    ensures Short(Step(w, x))
  {
    match x
    case RigReplies(ok) => if CanReply(w, ok) { ReplyKeepsShort(w, ok); }
    case Transmit(id, d) => EntryKeepsShort(w, id, d);
    case PlayEnds(id, _) =>
      FinalizeKeepsShort(w, id);
      if PlayMayEnd(w, id) {
        IssueKeepsShort(w.(txSeconds := w.txSeconds + (w.clock - w.tasks[id].started)), id, CompleteOff, false);
      }
    case Drained(id) => FinalizeKeepsShort(w, id);
    case _ =>
      if x.Begins() {
        CallKeepsShort(w, x);
      } else {
        FlagKeepsShort(w, x);
      }
  }

  lemma CallKeepsShort(w: World, x: Action)
    requires Short(w) && x.Begins() && !x.Transmit?
    ensures Short(Step(w, x))
  {
    match x
    case StopTx(id) => IssueKeepsShort(w.(armed := false), id, StopOff, false);
    case StartUp(id) => IssueKeepsShort(w.(armed := false), id, StartOff, false);
    case ReportFault(id, source) => IssueKeepsShort(Latch(w, source), id, ReportOff, false);
    case ArmTx(id) => IssueKeepsShort(w, id, ArmOff, false);
    case RigReconnect(id) => IssueKeepsShort(w, id, ReconnectOff, false);
  }

  lemma FlagKeepsShort(w: World, x: Action)
    requires Short(w) && (x.Disarm? || x.ClearFault? || x.RigActs? || x.Tick? || x.Deadline?)
    ensures Short(Step(w, x))
  {
    assert forall id | id in Step(w, x).tasks && !Step(w, x).tasks[id].Draining? ::
        id in w.tasks && Step(w, x).tasks[id] == w.tasks[id];
  }

  /** Only coroutine `id` moved, and not into playback; the counter did not fall, nor was TX armed. */
  ghost predicate Moves(w: World, v: World, id: nat) {
    && (forall k | k != id :: (k in v.tasks <==> k in w.tasks) && (k in w.tasks ==> v.tasks[k] == w.tasks[k]))
    && (id in v.tasks ==> !v.tasks[id].Playing?)
    && v.clock == w.clock && SameLimits(w, v) && v.txSeconds >= w.txSeconds
    && (v.armed ==> w.armed && (Audio in v.faults ==> Audio in w.faults))
  }

  lemma MoveKeepsCovered(w: World, v: World, id: nat, spent: nat, extra: nat)
    requires Covered(w, spent, extra) && Timely(w) && Moves(w, v, id)
    requires spent <= v.txSeconds + extra || !v.armed || (id in w.tasks ==> !Engaged(w.tasks[id]))
    requires id in v.tasks && (v.tasks[id].PreTxOff? || v.tasks[id].Keying?) ==> spent <= v.txSeconds + extra
    ensures Covered(v, spent, extra) && Timely(v)
  {
    if v.armed && spent > v.txSeconds + extra {
      var k :| k in w.tasks && Engaged(w.tasks[k]);
      assert k in v.tasks && Engaged(v.tasks[k]);
    }
  }

  lemma MoveKeepsInside(w: World, v: World, id: nat, spent: nat)
    requires Inside(w, spent) && Moves(w, v, id) && (id in v.tasks ==> !v.tasks[id].Draining?)
    requires id in v.tasks && (v.tasks[id].PreTxOff? || v.tasks[id].Keying?) ==>
               Audio !in w.faults || spent == 0 || (id in w.tasks && (w.tasks[id].PreTxOff? || w.tasks[id].Keying?))
    ensures Inside(v, spent)
  {
  }

  /** An arm starts the ledger afresh. */
  lemma FreshIsCovered(w: World, extra: nat)
    requires Budgeted(w)
    ensures Covered(w, 0, extra) && Inside(w, 0)
  {
  }

  lemma TickKeepsCovered(w: World, d: nat, spent: nat, extra: nat)
    requires Budgeted(w) && Covered(w, spent, extra)
    ensures Covered(Step(w, Tick(d)), Book(w, Tick(d), spent), extra)
  {
    var v := Step(w, Tick(d));
    if Plays(w) {
      var id :| id in w.tasks && w.tasks[id].Playing?;
      assert id in v.tasks && Engaged(v.tasks[id]);
      assert forall k | k in w.tasks && w.tasks[k].Transmitting() :: k == id;
    } else if v.armed && spent > v.txSeconds + extra {
      var k :| k in w.tasks && Engaged(w.tasks[k]);
      assert k in v.tasks && Engaged(v.tasks[k]);
    }
  }

  lemma TickKeepsInside(w: World, d: nat, spent: nat)
    requires Budgeted(w) && Inside(w, spent)
    ensures Inside(Step(w, Tick(d)), Book(w, Tick(d), spent))
  {
    if Plays(w) {
      var id :| id in w.tasks && w.tasks[id].Playing?;
      assert forall k | k in w.tasks && w.tasks[k].Transmitting() :: k == id;
    }
  }

  lemma TickKeepsAccounted(w: World, d: nat, spent: nat, extra: nat)
    requires Accounted(w, spent, extra) && Timely(Step(w, Tick(d)))
    ensures Accounted(Step(w, Tick(d)), Book(w, Tick(d), spent), extra)
  {
    StepKeepsBudget(w, Tick(d));
    TickKeepsCovered(w, d, spent, extra);
    TickKeepsInside(w, d, spent);
    if Plays(w) {
      var id :| id in w.tasks && w.tasks[id].Playing?;
      assert Step(w, Tick(d)).tasks[id].Playing?;
    }
  }

  /** Unless it arms, what follows a release ends the coroutine, releases again, or keys. */
  lemma AfterOffIs(w: World, id: nat, at: Await, ok: bool)
    requires !(ok && at.ArmOff?)
    ensures var v := AfterOff(w, id, at, ok);
            || v == Finalize(w, id) || v == Finish(w, id) || v == Finish(w.(pttOn := false), id)
            || (at.PreTxOff? && v == KeyOrTrip(w, id, at.duration))
  {
  }

  lemma AfterOffMoves(w: World, id: nat, at: Await, ok: bool)
    requires !(ok && at.ArmOff?)
    ensures var v := AfterOff(w, id, at, ok);
            && Moves(w, v, id) && v.txSeconds == w.txSeconds
            && (id in v.tasks && (v.tasks[id].PreTxOff? || v.tasks[id].Keying?) ==> at.PreTxOff?)
            && (id in v.tasks ==> !v.tasks[id].Draining?)
  {
    AfterOffIs(w, id, at, ok);
    FaultInsideMoves(w, id);
    FinishMoves(w, id);
    EntryMoves(w, id, if at.PreTxOff? then at.duration else 0);
  }

  lemma EntryMoves(w: World, id: nat, d: nat)
    ensures Moves(w, KeyOrTrip(w, id, d), id)
    ensures var v := KeyOrTrip(w, id, d);
            v.txSeconds == w.txSeconds && id in v.tasks && !v.tasks[id].Draining?
  {
  }

  lemma FinishMoves(w: World, id: nat)
    ensures Moves(w, Finish(w, id), id) && Moves(w, Finish(w.(pttOn := false), id), id)
  {
  }

  lemma OffReplyMoves(w: World, ok: bool)
    requires CanReply(w, ok) && !w.queue[0].on && !(ok && w.tasks[w.queue[0].id].ArmOff?)
    ensures var v, id := Resume(w, ok), w.queue[0].id;
            && Moves(w, v, id) && v.txSeconds == w.txSeconds
            && (id in v.tasks && (v.tasks[id].PreTxOff? || v.tasks[id].Keying?) ==> w.tasks[id].PreTxOff?)
            && (id in v.tasks ==> !v.tasks[id].Draining?)
  {
    AfterOffMoves(OffResult(Popped(w), ok), w.queue[0].id, w.tasks[w.queue[0].id], ok);
  }

  lemma OffReplyKeepsCovered(w: World, v: World, id: nat, spent: nat, extra: nat)
    requires Covered(w, spent, extra) && Inside(w, spent) && Timely(w) && id in w.tasks && w.tasks[id].OnRig()
    requires Moves(w, v, id) && v.txSeconds == w.txSeconds
    requires id in v.tasks && (v.tasks[id].PreTxOff? || v.tasks[id].Keying?) ==> w.tasks[id].PreTxOff?
    requires id in v.tasks ==> !v.tasks[id].Draining?
    ensures Covered(v, spent, extra) && Inside(v, spent) && Timely(v)
  {
    MoveKeepsCovered(w, v, id, spent, extra);
    MoveKeepsInside(w, v, id, spent);
  }

  lemma KeyFailureMoves(w: World)
    requires CanReply(w, false) && w.queue[0].on
    ensures Moves(w, Resume(w, false), w.queue[0].id)
    ensures var v, id := Resume(w, false), w.queue[0].id; id in v.tasks ==> v.tasks[id].KeyFaultOff?
  {
  }

  lemma KeyedIsCovered(w: World, spent: nat, extra: nat)
    requires Budgeted(w) && Covered(w, spent, extra) && Inside(w, spent) && Timely(w)
    requires CanReply(w, true) && w.queue[0].on
    ensures Covered(Resume(w, true), spent, extra) && Inside(Resume(w, true), spent) && Timely(Resume(w, true))
  {
    var v, id := Resume(w, true), w.queue[0].id;
    assert v.tasks == w.tasks[id := Playing(w.tasks[id].duration, w.clock)];
    assert Engaged(v.tasks[id]);
  }

  lemma OnReplyKeepsCovered(w: World, ok: bool, spent: nat, extra: nat)
    requires Budgeted(w) && Covered(w, spent, extra) && Inside(w, spent) && Timely(w)
    requires CanReply(w, ok) && w.queue[0].on
    ensures Covered(Resume(w, ok), spent, extra) && Inside(Resume(w, ok), spent) && Timely(Resume(w, ok))
  {
    if ok {
      KeyedIsCovered(w, spent, extra);
    } else {
      KeyFailureMoves(w);
      MoveKeepsCovered(w, Resume(w, ok), w.queue[0].id, spent, extra);
      MoveKeepsInside(w, Resume(w, ok), w.queue[0].id, spent);
    }
  }

  lemma ArmReplyKeepsTimely(w: World)
    requires Timely(w) && CanReply(w, true) && w.tasks[w.queue[0].id].ArmOff?
    ensures Timely(Resume(w, true))
  {
  }

  lemma ReplyKeepsAccounted(w: World, ok: bool, spent: nat, extra: nat)
    requires Inv(w) && Accounted(w, spent, extra) && CanReply(w, ok)
    ensures Accounted(Resume(w, ok), Book(w, RigReplies(ok), spent), extra)
  {
    ReplyKeepsBudget(w, ok);
    ResumeKeepsLimits(w, ok);
    if w.queue[0].on {
      OnReplyKeepsCovered(w, ok, spent, extra);
    } else if Arms(w, RigReplies(ok)) {
      ArmReplyKeepsTimely(w);
      FreshIsCovered(Resume(w, ok), extra);
    } else {
      OffReplyMoves(w, ok);
      OffReplyKeepsCovered(w, Resume(w, ok), w.queue[0].id, spent, extra);
    }
  }

  lemma FaultInsideMoves(w: World, id: nat)
    ensures Moves(w, Finalize(w, id), id) && Moves(w, FaultInside(w, id), id)
    ensures Finalize(w, id).txSeconds == w.txSeconds
    ensures var v := Finalize(w, id); id in v.tasks ==> v.tasks[id].FinalOff?
    ensures var v := FaultInside(w, id); id in v.tasks ==> v.tasks[id].FinalOff? || v.tasks[id].FaultOff?
  {
  }

  lemma PlayedMoves(w: World, id: nat)
    requires Budgeted(w) && PlayMayEnd(w, id)
    ensures Moves(w, PlayEnded(w, id, Played), id) && PlayEnded(w, id, Played).tasks[id] == CompleteOff
  {
  }

  lemma PlayEndKeepsAccounted(w: World, id: nat, outcome: PlayOutcome, spent: nat, extra: nat)
    requires Accounted(w, spent, extra) && Short(w) && PlayMayEnd(w, id)
    requires outcome.Crashed? ==> !PlayEnded(w, id, outcome).armed
    requires outcome.AudioFailed? && PlayEnded(w, id, outcome).armed ==> Longest(w) <= extra
    ensures Accounted(PlayEnded(w, id, outcome), spent, extra)
  {
    PlayEndKeepsBudget(w, id, outcome);
    FaultInsideMoves(w, id);
    PlayedMoves(w, id);
    var v := PlayEnded(w, id, outcome);
    if outcome.AudioFailed? && v.armed {
      assert spent <= w.clock - w.tasks[id].started <= Longest(w);
    }
    MoveKeepsCovered(w, v, id, spent, extra);
    MoveKeepsInside(w, v, id, spent);
  }

  lemma DrainedKeepsAccounted(w: World, id: nat, spent: nat, extra: nat)
    requires Accounted(w, spent, extra) && id in w.tasks && w.tasks[id].Draining?
    requires FaultInside(w, id).armed ==> Longest(w) <= extra
    ensures Accounted(FaultInside(w, id), spent, extra)
  {
    FinalizeKeepsBudget(w, id);
    FaultInsideMoves(w, id);
    MoveKeepsCovered(w, FaultInside(w, id), id, spent, extra);
    MoveKeepsInside(w, FaultInside(w, id), id, spent);
  }

  lemma DeadlineKeepsAccounted(w: World, id: nat, spent: nat, extra: nat)
    requires Accounted(w, spent, extra) && Short(w) && DeadlinePassed(w, id)
    ensures Accounted(Step(w, Deadline(id)), spent, extra)
  {
    var v := Step(w, Deadline(id));
    StepKeepsBudget(w, Deadline(id));
    assert id in v.tasks && Engaged(v.tasks[id]);
    assert w.clock - w.tasks[id].started <= Longest(w);
  }

  lemma EntryCovered(w: World, spent: nat, extra: nat)
    requires Covered(w, spent, extra) && w.armed && !TransmissionInProgress(w)
    ensures spent <= w.txSeconds + extra
  {
    assert forall k | k in w.tasks && Engaged(w.tasks[k]) :: w.tasks[k].Transmitting();
  }

  lemma TransmitMoves(w: World, id: nat, d: nat)
    requires id !in w.tasks
    ensures Moves(w, BeginTransmit(w, id, d), id)
    ensures var v := BeginTransmit(w, id, d);
            && (id in v.tasks ==> w.armed && w.faults == {} && !v.tasks[id].Draining?)
            && v.txSeconds == w.txSeconds
  {
    EntryMoves(w, id, d);
  }

  lemma TransmitKeepsAccounted(w: World, id: nat, d: nat, spent: nat, extra: nat)
    requires Accounted(w, spent, extra) && id !in w.tasks && !TransmissionInProgress(w)
    ensures Accounted(BeginTransmit(w, id, d), spent, extra)
  {
    TransmitKeepsBudget(w, id, d);
    TransmitMoves(w, id, d);
    if w.armed {
      EntryCovered(w, spent, extra);
    }
    MoveKeepsCovered(w, BeginTransmit(w, id, d), id, spent, extra);
    MoveKeepsInside(w, BeginTransmit(w, id, d), id, spent);
  }

  lemma OthersKeepAccounted(w: World, x: Action, id: nat, spent: nat, extra: nat)
    requires Accounted(w, spent, extra) && id !in w.tasks && !Arms(w, x)
    requires x in {StopTx(id), ArmTx(id), StartUp(id), RigReconnect(id)} || (x.ReportFault? && x.id == id)
    ensures Accounted(Step(w, x), spent, extra)
  {
    StepKeepsBudget(w, x);
    StepKeepsLimits(w, x);
    OtherMoves(w, x, id);
    MoveKeepsCovered(w, Step(w, x), id, spent, extra);
    MoveKeepsInside(w, Step(w, x), id, spent);
  }

  lemma OtherMoves(w: World, x: Action, id: nat)
    requires id !in w.tasks && !Arms(w, x)
    requires x in {StopTx(id), ArmTx(id), StartUp(id), RigReconnect(id)} || (x.ReportFault? && x.id == id)
    ensures var v := Step(w, x);
            Moves(w, v, id) && (id in v.tasks ==> !v.tasks[id].Transmitting()) && (v.armed ==> w.armed)
  {
    match x
    case StopTx(_) => IssueMoves(w, w.(armed := false), id, StopOff);
    case StartUp(_) => IssueMoves(w, w.(armed := false), id, StartOff);
    case ReportFault(_, source) => IssueMoves(w, Latch(w, source), id, ReportOff);
    case ArmTx(_) => IssueMoves(w, w, id, ArmOff);
    case RigReconnect(_) => IssueMoves(w, w, id, ReconnectOff);
  }

  lemma IssueMoves(w: World, u: World, id: nat, at: Await)
    requires u == w.(armed := u.armed, faults := u.faults) && !at.Transmitting() && id !in w.tasks
    requires u.armed ==> w.armed && u.faults == w.faults
    ensures Moves(w, w, id) && Moves(w, Issue(u, id, at, false), id)
  {
  }

  lemma StepKeepsAccounted(w: World, x: Action, spent: nat, extra: nat)
    requires Inv(w) && Accounted(w, spent, extra) && Short(w) && Orderly(w, x, Ends(false, Longest(w) <= extra))
    ensures Accounted(Step(w, x), Book(w, x, spent), extra)
  {
    match x
    case Tick(d) => TickKeepsAccounted(w, d, spent, extra);
    case RigReplies(ok) => if CanReply(w, ok) { ReplyKeepsAccounted(w, ok, spent, extra); }
    case PlayEnds(id, outcome) => if PlayMayEnd(w, id) { PlayEndKeepsAccounted(w, id, outcome, spent, extra); }
    case Drained(id) => if id in w.tasks && w.tasks[id].Draining? { DrainedKeepsAccounted(w, id, spent, extra); }
    case Deadline(id) => if DeadlinePassed(w, id) { DeadlineKeepsAccounted(w, id, spent, extra); }
    case _ =>
      if x.Begins() {
        CallKeepsAccounted(w, x, spent, extra);
      } else {
        QuietKeepsAccounted(w, x, spent, extra);
      }
  }

  lemma CallKeepsAccounted(w: World, x: Action, spent: nat, extra: nat)
    requires Accounted(w, spent, extra) && x.Begins() && (x.Transmit? ==> !TransmissionInProgress(w))
    ensures Accounted(Step(w, x), Book(w, x, spent), extra)
  {
    if Arms(w, x) {
      StepKeepsBudget(w, x);
      FreshIsCovered(Step(w, x), extra);
    } else if x.id in w.tasks {
    } else if x.Transmit? {
      TransmitKeepsAccounted(w, x.id, x.duration, spent, extra);
    } else {
      OthersKeepAccounted(w, x, x.id, spent, extra);
    }
  }

  lemma QuietKeepsAccounted(w: World, x: Action, spent: nat, extra: nat)
    requires Accounted(w, spent, extra) && (x.Disarm? || x.ClearFault? || x.RigActs?)
    ensures Accounted(Step(w, x), spent, extra)
  {
    FlagKeepsBudget(w, x);
    FlagsStaySame(w, x);
    FlagKeepsCovered(w, Step(w, x), spent, extra);
  }

  lemma FlagsStaySame(w: World, x: Action)
    requires x.Disarm? || x.ClearFault? || x.RigActs?
    ensures var v := Step(w, x);
            && v.tasks == w.tasks && v.clock == w.clock && v.txSeconds == w.txSeconds && SameLimits(w, v)
            && (v.armed ==> w.armed) && (Audio in v.faults ==> Audio in w.faults)
  {
  }

  lemma FlagKeepsCovered(w: World, v: World, spent: nat, extra: nat)
    requires Timely(w) && Covered(w, spent, extra) && Inside(w, spent)
    requires v.tasks == w.tasks && v.clock == w.clock && v.txSeconds == w.txSeconds && SameLimits(w, v)
    requires (v.armed ==> w.armed) && (Audio in v.faults ==> Audio in w.faults)
    ensures Timely(v) && Covered(v, spent, extra) && Inside(v, spent)
  {
  }

  lemma {:induction false} RunKeepsAccounted(w: World, xs: seq<Action>, extra: nat)
    requires Inv(w) && Accounted(w, 0, extra) && Short(w) && OrderlyRun(w, xs, Ends(false, Longest(w) <= extra))
    ensures Accounted(Run(w, xs), Spent(w, xs), extra) && SameLimits(w, Run(w, xs)) && Short(Run(w, xs))
  {
    if xs != [] {
      var front, x := xs[..|xs| - 1], xs[|xs| - 1];
      RunKeepsAccounted(w, front, extra);
      RunKeepsInv(w, front);
      StepKeepsAccounted(Run(w, front), x, Spent(w, front), extra);
      StepKeepsLimits(Run(w, front), x);
      StepKeepsShort(Run(w, front), x);
    }
  }

  /**
   * Over every orderly run from start-up in which no playback crashes, the time spent playing since the last arm never
   * exceeds the aggregate budget and one per-TX margin by more than one playback that ended on a latched fault.
   */
  lemma PlayingTimeBounded(margin: nat, aggregate: nat, released: bool, line: bool, xs: seq<Action>, latched: bool)
    requires OrderlyRun(NewWorld(margin, aggregate, released, line), xs, Ends(false, latched))
    ensures Spent(NewWorld(margin, aggregate, released, line), xs)
            <= aggregate + margin + (if latched then Min(aggregate, Playback.MAX_TX_SAMPLES) + margin else 0)
  {
    var w0 := NewWorld(margin, aggregate, released, line);
    if latched {
      RunKeepsAccounted(w0, xs, Longest(w0));
    } else {
      NoMoreEnds(w0, xs, Ends(false, false), Ends(false, Longest(w0) <= 0));
      RunKeepsAccounted(w0, xs, 0);
    }
  }

  lemma {:induction false} NoMoreEnds(w: World, xs: seq<Action>, e: Ends, f: Ends)
    requires OrderlyRun(w, xs, e) && (e.crashed ==> f.crashed) && (e.latched ==> f.latched)
    ensures OrderlyRun(w, xs, f)
  {
    if xs != [] {
      NoMoreEnds(w, xs[..|xs| - 1], e, f);
    }
  }

  // ---- runs that spend as much as can be ------------------------------------------

  /** A run written out state by state, with the ledger beside each state. */
  datatype Trail = Trail(worlds: seq<World>, spent: seq<nat>, actions: seq<Action>)

  predicate Sized(t: Trail) { |t.worlds| == |t.spent| == |t.actions| + 1 }

  predicate Goes(w: World, x: Action, v: World, before: nat, after: nat, e: Ends) {
    v == Step(w, x) && after == Book(w, x, before) && Orderly(w, x, e)
  }

  predicate Link(t: Trail, i: nat, e: Ends)
    requires Sized(t) && i < |t.actions|
  {
    Goes(t.worlds[i], t.actions[i], t.worlds[i + 1], t.spent[i], t.spent[i + 1], e)
  }

  /** The trail leads from `w0`, with nothing spent, to `w`. */
  predicate LeadsTo(t: Trail, w0: World, w: World, spent: nat, e: Ends) {
    && Sized(t) && (forall i | 0 <= i < |t.actions| :: Link(t, i, e))
    && t.worlds[0] == w0 && t.spent[0] == 0 && t.worlds[|t.actions|] == w && t.spent[|t.actions|] == spent
  }

  lemma Extend(t: Trail, w0: World, w: World, before: nat, x: Action, v: World, after: nat, e: Ends) returns (u: Trail)
    requires LeadsTo(t, w0, w, before, e) && Goes(w, x, v, before, after, e)
    ensures LeadsTo(u, w0, v, after, e)
  {
    u := Trail(t.worlds + [v], t.spent + [after], t.actions + [x]);
    forall i | 0 <= i < |u.actions| ensures Link(u, i, e) {
      if i < |t.actions| {
        assert Link(t, i, e);
      }
    }
  }

  lemma {:induction false} TrailIsRun(t: Trail, w0: World, w: World, spent: nat, e: Ends, n: nat)
    requires LeadsTo(t, w0, w, spent, e) && n <= |t.actions|
    ensures Run(w0, t.actions[..n]) == t.worlds[n] && Spent(w0, t.actions[..n]) == t.spent[n]
    ensures OrderlyRun(w0, t.actions[..n], e)
  {
    if n > 0 {
      TrailIsRun(t, w0, w, spent, e, n - 1);
      assert t.actions[..n][..n - 1] == t.actions[..n - 1];
      assert Link(t, n - 1, e);
    }
  }

  /** An armed session in which nothing is under way. */
  function Idle(margin: nat, aggregate: nat, clock: int, counted: nat): World {
    NewWorld(margin, aggregate, true, false).(armed := true, clock := clock, txSeconds := counted)
  }

  predicate AtRest(w: World) { 0 <= w.txSeconds && w == Idle(w.margin, w.aggregate, w.clock, w.txSeconds) }

  function Requested(w: World, d: nat): World { w.(tasks := map[0 := Keying(d)], queue := [Command(0, true)]) }

  function Keyed(w: World, d: nat): World {
    w.(pttOn := true, line := true, tasks := map[0 := Playing(d, w.clock)])
  }

  function Releasing(w: World, at: Await): World {
    w.(pttOn := true, line := true, tasks := map[0 := at], queue := [Command(0, false)])
  }

  predicate LetsIn(w: World, d: nat) { AtRest(w) && Playable(d) && w.txSeconds + d <= w.aggregate }

  lemma KeyDownSteps(w: World, d: nat)
    requires LetsIn(w, d)
    ensures !TransmissionInProgress(w) && Step(w, Transmit(0, d)) == Requested(w, d)
    ensures Step(Requested(w, d), RigActs) == Requested(w, d).(line := true, acted := true)
    ensures Step(Requested(w, d).(line := true, acted := true), RigReplies(true)) == Keyed(w, d)
  {
    var u := Requested(w, d).(line := true, acted := true);
    assert CanReply(u, true) && u.queue[1..] == [];
    assert u.tasks[0 := Playing(d, w.clock)] == Keyed(w, d).tasks;
  }

  lemma KeyDown(t: Trail, w0: World, w: World, spent: nat, d: nat, e: Ends) returns (u: Trail)
    requires LetsIn(w, d) && LeadsTo(t, w0, w, spent, e)
    ensures LeadsTo(u, w0, Keyed(w, d), spent, e)
  {
    KeyDownSteps(w, d);
    var on := Requested(w, d).(line := true, acted := true);
    u := Extend(t, w0, w, spent, Transmit(0, d), Requested(w, d), spent, e);
    u := Extend(u, w0, Requested(w, d), spent, RigActs, on, spent, e);
    u := Extend(u, w0, on, spent, RigReplies(true), Keyed(w, d), spent, e);
  }

  lemma PlaySteps(w: World, d: nat, time: nat)
    requires AtRest(w) && time <= d + w.margin
    ensures var played := Keyed(w, d).(clock := w.clock + time);
            && Step(Keyed(w, d), Tick(time)) == played && Timely(played) && Plays(Keyed(w, d))
            && Step(played, PlayEnds(0, Crashed)) == Releasing(w.(clock := w.clock + time), FinalOff)
            && Step(played, PlayEnds(0, Played))
               == Releasing(w.(clock := w.clock + time, txSeconds := w.txSeconds + time), CompleteOff)
  {
    var played := Keyed(w, d).(clock := w.clock + time);
    assert 0 in Keyed(w, d).tasks && PlayMayEnd(played, 0);
    assert played.tasks[0 := FinalOff] == map[0 := FinalOff] && played.tasks[0 := CompleteOff] == map[0 := CompleteOff];
    assert played.queue + [Command(0, false)] == [Command(0, false)];
  }

  lemma ReleaseSteps(v: World, at: Await)
    requires AtRest(v) && at in {FinalOff, CompleteOff}
    ensures Step(Releasing(v, at), RigActs) == Releasing(v, at).(line := false, acted := true)
    ensures Step(Releasing(v, at).(line := false, acted := true), RigReplies(true)) == v
  {
    var u := Releasing(v, at).(line := false, acted := true);
    assert CanReply(u, true) && u.queue[1..] == [];
    assert u.tasks - {0} == map[];
  }

  lemma Release(t: Trail, w0: World, v: World, at: Await, spent: nat, e: Ends) returns (u: Trail)
    requires AtRest(v) && at in {FinalOff, CompleteOff} && LeadsTo(t, w0, Releasing(v, at), spent, e)
    ensures LeadsTo(u, w0, v, spent, e)
  {
    ReleaseSteps(v, at);
    var off := Releasing(v, at).(line := false, acted := true);
    u := Extend(t, w0, Releasing(v, at), spent, RigActs, off, spent, e);
    u := Extend(u, w0, off, spent, RigReplies(true), v, spent, e);
  }

  /** A playback of `time` that returns is counted. */
  lemma CountedPlay(t: Trail, w0: World, w: World, spent: nat, d: nat, time: nat, e: Ends) returns (u: Trail)
    requires LetsIn(w, d) && time <= d + w.margin && LeadsTo(t, w0, w, spent, e)
    ensures LeadsTo(u, w0, w.(clock := w.clock + time, txSeconds := w.txSeconds + time), spent + time, e)
  {
    var played := Keyed(w, d).(clock := w.clock + time);
    var v := w.(clock := w.clock + time, txSeconds := w.txSeconds + time);
    u := KeyDown(t, w0, w, spent, d, e);
    PlaySteps(w, d, time);
    u := Extend(u, w0, Keyed(w, d), spent, Tick(time), played, spent + time, e);
    u := Extend(u, w0, played, spent + time, PlayEnds(0, Played), Releasing(v, CompleteOff), spent + time, e);
    u := Release(u, w0, v, CompleteOff, spent + time, e);
  }

  /** One that crashes is not. */
  lemma CrashedPlay(t: Trail, w0: World, w: World, spent: nat, d: nat, e: Ends) returns (u: Trail)
    requires LetsIn(w, d) && e.crashed && LeadsTo(t, w0, w, spent, e)
    ensures LeadsTo(u, w0, w.(clock := w.clock + d + w.margin), spent + d + w.margin, e)
  {
    var time := d + w.margin;
    var played, v := Keyed(w, d).(clock := w.clock + time), w.(clock := w.clock + time);
    u := KeyDown(t, w0, w, spent, d, e);
    PlaySteps(w, d, time);
    u := Extend(u, w0, Keyed(w, d), spent, Tick(time), played, spent + time, e);
    u := Extend(u, w0, played, spent + time, PlayEnds(0, Crashed), Releasing(v, FinalOff), spent + time, e);
    u := Release(u, w0, v, FinalOff, spent + time, e);
  }

  lemma StartArmed(margin: nat, aggregate: nat, e: Ends) returns (u: Trail)
    ensures LeadsTo(u, Quiet(margin, aggregate), Idle(margin, aggregate, 0, 0), 0, e)
  {
    var w0 := Quiet(margin, aggregate);
    u := Extend(Trail([w0], [0], []), w0, w0, 0, ArmTx(0), Idle(margin, aggregate, 0, 0), 0, e);
  }

  /** Crashed playbacks can follow one another without end in one armed session. */
  lemma {:induction false} CrashesAddUp(margin: nat, aggregate: nat, d: nat, e: Ends, n: nat)
    returns (u: Trail, spent: nat)
    requires Fitting(aggregate, d) && e.crashed
    ensures n <= spent == n * (d + margin)
    ensures LeadsTo(u, Quiet(margin, aggregate), Idle(margin, aggregate, spent, 0), spent, e)
  {
    if n == 0 {
      u := StartArmed(margin, aggregate, e);
      spent := 0;
    } else {
      u, spent := CrashesAddUp(margin, aggregate, d, e, n - 1);
      u := CrashedPlay(u, Quiet(margin, aggregate), Idle(margin, aggregate, spent, 0), spent, d, e);
      spent := spent + d + margin;
    }
  }

  /** Whatever the amount, some orderly run spends more. */
  lemma NoBoundWithCrashes(margin: nat, aggregate: nat, d: nat, e: Ends, n: nat) returns (xs: seq<Action>)
    requires Fitting(aggregate, d) && e.crashed
    ensures OrderlyRun(Quiet(margin, aggregate), xs, e)
    ensures n <= Spent(Quiet(margin, aggregate), xs) == n * (d + margin)
  {
    var t, spent := CrashesAddUp(margin, aggregate, d, e, n);
    TrailIsRun(t, Quiet(margin, aggregate), Idle(margin, aggregate, spent, 0), spent, e, |t.actions|);
    xs := t.actions[..|t.actions|];
  }

  // ---- a playback armed while it hangs -----------------------------------------------

  /** STOP and failed release while playing, fault cleared, an arm waiting for its release, the audio fault reported. */
  function Unsure(w: World, d: nat): World { Keyed(w, d).(armed := false, uncertain := true) }

  function Rearming(w: World, d: nat): World {
    Unsure(w, d).(faults := {Audio}, tasks := map[0 := Playing(d, w.clock), 1 := ArmOff, 2 := ReportOff],
                  queue := [Command(1, false), Command(2, false)])
  }

  /** The arm has come through in the middle of the playback. */
  function Rearmed(w: World, d: nat): World {
    w.(txSeconds := 0, faults := {Audio}, tasks := map[0 := Playing(d, w.clock), 2 := ReportOff],
       queue := [Command(2, false)])
  }

  function Hanging(w: World, d: nat): World {
    w.(txSeconds := 0, faults := {Audio}, tasks := map[0 := Playing(d, w.clock)])
  }

  lemma StopFailsSteps(w: World, d: nat)
    requires AtRest(w)
    ensures var stopping := Keyed(w, d).(armed := false, tasks := map[0 := Playing(d, w.clock), 1 := StopOff],
                                         queue := [Command(1, false)]);
            && Step(Keyed(w, d), StopTx(1)) == stopping
            && Step(stopping, RigReplies(false)) == Unsure(w, d).(faults := {Cat})
            && Step(Unsure(w, d).(faults := {Cat}), ClearFault(Cat)) == Unsure(w, d)
  {
    var stopping := Step(Keyed(w, d), StopTx(1));
    assert stopping.tasks == map[0 := Playing(d, w.clock), 1 := StopOff] && stopping.queue == [Command(1, false)];
    assert CanReply(stopping, false) && stopping.queue[1..] == [] && {} + {Cat} == {Cat} && {Cat} - {Cat} == {};
    assert stopping.tasks - {1} == map[0 := Playing(d, w.clock)];
  }

  lemma RearmSteps(w: World, d: nat)
    requires AtRest(w)
    ensures var arming := Unsure(w, d).(tasks := map[0 := Playing(d, w.clock), 1 := ArmOff],
                                        queue := [Command(1, false)]);
            Step(Unsure(w, d), ArmTx(1)) == arming && Step(arming, ReportFault(2, Audio)) == Rearming(w, d)
  {
    var arming := Step(Unsure(w, d), ArmTx(1));
    assert arming.tasks == map[0 := Playing(d, w.clock), 1 := ArmOff] && arming.queue == [Command(1, false)];
    assert arming.tasks[2 := ReportOff] == Rearming(w, d).tasks && {} + {Audio} == {Audio};
    assert arming.queue + [Command(2, false)] == Rearming(w, d).queue;
  }

  lemma RearmedSteps(w: World, d: nat)
    requires AtRest(w)
    ensures var off := Rearming(w, d).(line := false, acted := true);
            && Step(Rearming(w, d), RigActs) == off && Arms(off, RigReplies(true))
            && Step(off, RigReplies(true)) == Rearmed(w, d)
  {
    var off := Rearming(w, d).(line := false, acted := true);
    assert CanReply(off, true) && off.queue[1..] == [Command(2, false)];
    assert off.tasks - {1} == Rearmed(w, d).tasks;
  }

  lemma ReportedSteps(w: World, d: nat)
    requires AtRest(w)
    ensures var off := Rearmed(w, d).(acted := true);
            && Step(Rearmed(w, d), RigActs) == off && !Arms(off, RigReplies(true))
            && Step(off, RigReplies(true)) == Hanging(w, d)
  {
    var off := Rearmed(w, d).(acted := true);
    assert CanReply(off, true) && off.queue[1..] == [] && off.tasks - {2} == Hanging(w, d).tasks;
  }

  lemma HangSteps(w: World, d: nat, time: nat)
    requires AtRest(w) && time == d + w.margin
    ensures var hung := Hanging(w, d).(clock := w.clock + time);
            var over := hung.(tasks := map[0 := Draining]);
            && Step(Hanging(w, d), Tick(time)) == hung && Timely(hung) && Plays(Hanging(w, d))
            && Step(hung, Deadline(0)) == over && Step(over, Drained(0)) == over.(tasks := map[])
            && Step(over.(tasks := map[]), ClearFault(Audio)) == w.(clock := w.clock + time, txSeconds := 0)
  {
    var hung := Hanging(w, d).(clock := w.clock + time);
    assert 0 in Hanging(w, d).tasks && DeadlinePassed(hung, 0) && hung.tasks[0 := Draining] == map[0 := Draining];
    assert map[0 := Draining] - {0} == map[] && {Audio} - {Audio} == {};
  }

  lemma Rearm(t: Trail, w0: World, w: World, spent: nat, d: nat, e: Ends) returns (u: Trail)
    requires LetsIn(w, d) && LeadsTo(t, w0, Keyed(w, d), spent, e)
    ensures LeadsTo(u, w0, Rearming(w, d), spent, e)
  {
    StopFailsSteps(w, d);
    RearmSteps(w, d);
    var stopping, unsure := Step(Keyed(w, d), StopTx(1)), Unsure(w, d);
    u := Extend(t, w0, Keyed(w, d), spent, StopTx(1), stopping, spent, e);
    u := Extend(u, w0, stopping, spent, RigReplies(false), unsure.(faults := {Cat}), spent, e);
    u := Extend(u, w0, unsure.(faults := {Cat}), spent, ClearFault(Cat), unsure, spent, e);
    u := Extend(u, w0, unsure, spent, ArmTx(1), Step(unsure, ArmTx(1)), spent, e);
    u := Extend(u, w0, Step(unsure, ArmTx(1)), spent, ReportFault(2, Audio), Rearming(w, d), spent, e);
  }

  lemma Hang(t: Trail, w0: World, w: World, spent: nat, d: nat, e: Ends) returns (u: Trail)
    requires LetsIn(w, d) && e.latched && LeadsTo(t, w0, Rearming(w, d), spent, e)
    ensures LeadsTo(u, w0, w.(clock := w.clock + d + w.margin, txSeconds := 0), d + w.margin, e)
  {
    RearmedSteps(w, d);
    ReportedSteps(w, d);
    var time := d + w.margin;
    HangSteps(w, d, time);
    var off, reported := Rearming(w, d).(line := false, acted := true), Rearmed(w, d).(acted := true);
    var hung := Hanging(w, d).(clock := w.clock + time);
    var over := hung.(tasks := map[0 := Draining]);
    u := Extend(t, w0, Rearming(w, d), spent, RigActs, off, spent, e);
    u := Extend(u, w0, off, spent, RigReplies(true), Rearmed(w, d), 0, e);
    u := Extend(u, w0, Rearmed(w, d), 0, RigActs, reported, 0, e);
    u := Extend(u, w0, reported, 0, RigReplies(true), Hanging(w, d), 0, e);
    u := Extend(u, w0, Hanging(w, d), 0, Tick(time), hung, time, e);
    u := Extend(u, w0, hung, time, Deadline(0), over, time, e);
    u := Extend(u, w0, over, time, Drained(0), over.(tasks := map[]), time, e);
    var v := w.(clock := w.clock + time, txSeconds := 0);
    u := Extend(u, w0, over.(tasks := map[]), time, ClearFault(Audio), v, time, e);
  }

  // ---- the most that can be spent ---------------------------------------------------

  /** `n` playbacks of one sample each. */
  lemma {:induction false} PlaysAddUp(t: Trail, w0: World, w: World, spent: nat, e: Ends, n: nat) returns (u: Trail)
    requires AtRest(w) && w.txSeconds + n <= w.aggregate && LeadsTo(t, w0, w, spent, e)
    ensures LeadsTo(u, w0, w.(clock := w.clock + n, txSeconds := w.txSeconds + n), spent + n, e)
  {
    if n == 0 {
      u := t;
    } else {
      u := PlaysAddUp(t, w0, w, spent, e, n - 1);
      u := CountedPlay(u, w0, w.(clock := w.clock + n - 1, txSeconds := w.txSeconds + n - 1), spent + n - 1, 1, 1, e);
    }
  }

  /** The budget used up but for one sample, then one more playback that overruns it by the margin. */
  lemma UseUp(t: Trail, w0: World, w: World, spent: nat, e: Ends) returns (xs: seq<Action>)
    requires AtRest(w) && w.txSeconds == 0 && w.aggregate > 0 && LeadsTo(t, w0, w, spent, e)
    ensures OrderlyRun(w0, xs, e) && Spent(w0, xs) == spent + w.aggregate + w.margin
  {
    var n := w.aggregate - 1;
    var u := PlaysAddUp(t, w0, w, spent, e, n);
    var v := w.(clock := w.clock + n, txSeconds := n);
    u := CountedPlay(u, w0, v, spent + n, 1, 1 + w.margin, e);
    var last := v.(clock := v.clock + 1 + w.margin, txSeconds := n + 1 + w.margin);
    TrailIsRun(u, w0, last, spent + n + 1 + w.margin, e, |u.actions|);
    xs := u.actions[..|u.actions|];
  }

  function Most(margin: nat, aggregate: nat, latched: bool): nat {
    if aggregate == 0 then 0
    else aggregate + margin + (if latched then Min(aggregate, Playback.MAX_TX_SAMPLES) + margin else 0)
  }

  lemma SpendMost(margin: nat, aggregate: nat, latched: bool) returns (xs: seq<Action>)
    requires aggregate > 0
    ensures OrderlyRun(Quiet(margin, aggregate), xs, Ends(false, latched))
    ensures Spent(Quiet(margin, aggregate), xs) == Most(margin, aggregate, latched)
  {
    var w0, w, e := Quiet(margin, aggregate), Idle(margin, aggregate, 0, 0), Ends(false, latched);
    var t := StartArmed(margin, aggregate, e);
    if latched {
      var d := Min(aggregate, Playback.MAX_TX_SAMPLES);
      t := KeyDown(t, w0, w, 0, d, e);
      t := Rearm(t, w0, w, 0, d, e);
      t := Hang(t, w0, w, 0, d, e);
      xs := UseUp(t, w0, Idle(margin, aggregate, d + margin, 0), d + margin, e);
    } else {
      xs := UseUp(t, w0, w, 0, e);
    }
  }

  lemma {:induction false} NothingToSpend(w: World, xs: seq<Action>)
    requires Mute(w)
    ensures Spent(w, xs) == 0
  {
    if xs != [] {
      NothingToSpend(w, xs[..|xs| - 1]);
      NoBudgetNeverKeys(w, xs[..|xs| - 1]);
    }
  }

  ghost predicate SpendsAtMost(w0: World, e: Ends, bound: nat) {
    forall xs | OrderlyRun(w0, xs, e) :: Spent(w0, xs) <= bound
  }

  lemma MostIsBound(margin: nat, aggregate: nat, latched: bool)
    ensures SpendsAtMost(Quiet(margin, aggregate), Ends(false, latched), Most(margin, aggregate, latched))
  {
    var w0, e := Quiet(margin, aggregate), Ends(false, latched);
    forall xs | OrderlyRun(w0, xs, e) ensures Spent(w0, xs) <= Most(margin, aggregate, latched) {
      if aggregate == 0 {
        NothingToSpend(w0, xs);
      } else {
        PlayingTimeBounded(margin, aggregate, true, false, xs, latched);
      }
    }
  }

  /**
   * Without crashes the most that can be spent in an armed session is the budget with one margin, and with ends on a
   * latched fault one longest playback more; no smaller bound holds.
   */
  lemma MostSpentExactly(margin: nat, aggregate: nat, latched: bool, bound: nat)
    ensures SpendsAtMost(Quiet(margin, aggregate), Ends(false, latched), bound)
            <==> Most(margin, aggregate, latched) <= bound
  {
    MostIsBound(margin, aggregate, latched);
    if bound < Most(margin, aggregate, latched) {
      var xs := SpendMost(margin, aggregate, latched);
    }
  }

  lemma CrashesPassBound(margin: nat, aggregate: nat, e: Ends, bound: nat)
    requires e.crashed && aggregate > 0
    ensures !SpendsAtMost(Quiet(margin, aggregate), e, bound)
  {
    var xs := NoBoundWithCrashes(margin, aggregate, 1, e, bound + 1);
  }

  lemma NoBudgetSpendsNothing(margin: nat, e: Ends)
    ensures SpendsAtMost(Quiet(margin, 0), e, 0)
  {
    forall xs | OrderlyRun(Quiet(margin, 0), xs, e) ensures Spent(Quiet(margin, 0), xs) <= 0 {
      NothingToSpend(Quiet(margin, 0), xs);
    }
  }

  ghost predicate Bounded(margin: nat, aggregate: nat, e: Ends) {
    exists bound: nat :: SpendsAtMost(Quiet(margin, aggregate), e, bound)
  }

  /** There is a bound at all exactly when no playback crashes, or not the shortest waveform fits the budget. */
  lemma PlayingTimeBoundedExactlyWhen(margin: nat, aggregate: nat, e: Ends)
    ensures Bounded(margin, aggregate, e) <==> !e.crashed || aggregate == 0
  {
    if !e.crashed {
      MostIsBound(margin, aggregate, e.latched);
      assert e == Ends(false, e.latched);
    } else if aggregate == 0 {
      NoBudgetSpendsNothing(margin, e);
    } else {
      forall bound: nat ensures !SpendsAtMost(Quiet(margin, aggregate), e, bound) {
        CrashesPassBound(margin, aggregate, e, bound);
      }
    }
  }
}
