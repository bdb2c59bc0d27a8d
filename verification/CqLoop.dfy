/**
 * The automatic CQ loop over the sequencer it watches. An action starts the loop (arming is awaited), ticks it,
 * delivers an operator, receive or transmit event to the sequencer, or lets time pass.
 */
module CqLooping {
  import opened Prelude
  import opened MsgParse
  import opened Qso

  datatype LoopStop = TimedOut | StoppedByHand | StoppedByFault | LeaseLost | ArmRefused

  /** `arming` counts start calls waiting for the safety path; `looked` is when the loop last started or ticked. */
  datatype World = World(
    station: Station,
    active: bool,
    lastProgress: int,
    observed: (State, Option<DisarmReason>),
    arming: nat,
    clock: int,
    looked: int,
    stops: seq<LoopStop>)

  datatype Action =
    | StartCalled
    | Armed(ok: bool, frequency: int)
    | StopCalled(reason: LoopStop)
    | Tick(leaseAlive: bool, timeout: int, frequency: int)
    | Operate(event: Event)
    | Pass(elapsed: nat)

  function NewWorld(station: Station, clock: int): World {
    World(station, false, 0, (Idle, None), 0, clock, clock, [])
  }

  function Observation(s: Station): (State, Option<DisarmReason>) { (s.state, s.disarmReason) }

  function Ended(w: World, reason: LoopStop): World {
    if w.active then w.(active := false, stops := w.stops + [reason]) else w
  }

  function Started(w: World, frequency: int): World {
    var s := StartCq(w.station, frequency);
    w.(station := s, active := true, lastProgress := w.clock, observed := Observation(s), looked := w.clock)
  }

  function Recalled(w: World, frequency: int): World {
    var s := StartCq(w.station, frequency);
    w.(station := s, observed := Observation(s))
  }

  /** The transition table, applied when the sequencer moved since the last look. */
  function React(w: World, frequency: int): World {
    var reason := w.station.disarmReason;
    if w.station.state == Done then Recalled(w, frequency).(lastProgress := w.clock)
    else if reason == Some(RetryExhausted) || reason == Some(PartnerLost) then Recalled(w, frequency)
    else if reason == Some(Fault) then Ended(w, StoppedByFault).(observed := Observation(w.station))
    else if reason == Some(Manual) then Ended(w, StoppedByHand).(observed := Observation(w.station))
    else w.(observed := Observation(w.station))
  }

  function CheckIdle(w: World, timeout: int): World {
    if w.active && w.clock - w.lastProgress > timeout then Ended(w.(station := Stop(w.station, Manual)), TimedOut)
    else w
  }

  function TickLoop(w: World, leaseAlive: bool, timeout: int, frequency: int): World {
    if !w.active then w
    else if !leaseAlive then Ended(w, LeaseLost)
    else
      var v := if Observation(w.station) != w.observed then React(w, frequency) else w;
      CheckIdle(v, timeout)
  }

  function Step(w: World, x: Action): World {
    match x
    case StartCalled => if w.active then w else w.(arming := w.arming + 1)
    case Armed(ok, f) =>
      if w.arming == 0 then w
      else if ok then Started(w.(arming := w.arming - 1), f)
      else w.(arming := w.arming - 1, stops := w.stops + [ArmRefused])
    case StopCalled(r) => Ended(w, r)
    case Tick(alive, timeout, f) => TickLoop(w, alive, timeout, f).(looked := w.clock)
    case Operate(e) => w.(station := Apply(w.station, e).0)
    case Pass(d) => w.(clock := w.clock + d)
  }

  function Run(w: World, xs: seq<Action>): World {
    if xs == [] then w else Step(Run(w, xs[..|xs| - 1]), xs[|xs| - 1])
  }

  /** The program's callers stop the sequencer by hand or on a fault, for no other reason. */
  predicate FromOutside(x: Action) {
    x.Operate? && x.event.StopPressed? ==> x.event.reason in {Manual, Fault}
  }

  predicate AllFromOutside(xs: seq<Action>) { forall i | 0 <= i < |xs| :: FromOutside(xs[i]) }

  // ---- what holds between actions ---------------------------------------------

  /** Once armed, a station is disarmed exactly when it has a reason for it; only a finished QSO is complete. */
  predicate Reasoned(s: Station) {
    && Coherent(s)
    && (s.disarmReason.None? ==> s.txEnabled)
    && (s.disarmReason == Some(Complete) ==> s.state == Done)
  }

  lemma HearingKeepsReasoned(s: Station, msg: ParsedMessage, snr: Option<int>, now: int)
    requires Reasoned(s)
    ensures Reasoned(OnMessage(s, msg, snr, now))
  {
    HearingKeepsCoherent(s, msg, snr, now);
    if s.txEnabled && Relevant(s, msg) {
      assert Reasoned(Noted(s, msg));
    }
  }

  lemma ApplyKeepsReasoned(s: Station, e: Event)
    requires Reasoned(s) && (e.StopPressed? ==> e.reason in {Manual, Fault})
    ensures Reasoned(Apply(s, e).0)
  {
    ApplyKeepsCoherent(s, e);
    match e
    case Heard(m, snr, now) => HearingKeepsReasoned(s, m, snr, now);
    case _ =>
  }

  predicate Watching(w: World) {
    && Coherent(w.station)
    && (w.active ==> Reasoned(w.station) && w.observed.1.None? && w.observed.0 !in {Idle, Done})
  }

  lemma CallingIsReasoned(s: Station, frequency: int)
    ensures Reasoned(StartCq(s, frequency)) && StartCq(s, frequency).state == Calling
    ensures StartCq(s, frequency).disarmReason.None? && StartCq(s, frequency).txEnabled
  {
  }

  /** What a tick leaves behind: an armed sequencer and an idle age within the timeout, or a loop that has ended. */
  predicate Attended(w: World, timeout: int) {
    w.active ==> w.station.txEnabled && w.station.state !in {Idle, Done} && w.clock - w.lastProgress <= timeout
  }

  lemma ReactKeepsWatching(w: World, frequency: int)
    requires Watching(w) && w.active
    ensures Watching(React(w, frequency))
    ensures React(w, frequency).active ==> React(w, frequency).station.txEnabled
  {
    CallingIsReasoned(w.station, frequency);
    match w.station.disarmReason
    case Some(Complete) => assert w.station.state == Done;
    case _ =>
  }

  lemma IdleCheckKeepsWatching(w: World, timeout: int)
    requires Watching(w) && (w.active ==> w.station.txEnabled)
    ensures Watching(CheckIdle(w, timeout)) && Attended(CheckIdle(w, timeout), timeout)
  {
    ApplyKeepsCoherent(w.station, StopPressed(Manual));
  }

  lemma TickAttends(w: World, leaseAlive: bool, timeout: int, frequency: int)
    requires Watching(w)
    ensures var v := TickLoop(w, leaseAlive, timeout, frequency);
            Watching(v) && Attended(v, timeout)
  {
    if w.active && leaseAlive {
      if Observation(w.station) != w.observed {
        ReactKeepsWatching(w, frequency);
        IdleCheckKeepsWatching(React(w, frequency), timeout);
      } else {
        IdleCheckKeepsWatching(w, timeout);
      }
    }
  }

  lemma StepKeepsWatching(w: World, x: Action)
    requires Watching(w) && FromOutside(x)
    ensures Watching(Step(w, x))
  {
    match x
    case Armed(ok, f) => CallingIsReasoned(w.station, f);
    case Tick(alive, timeout, f) => TickAttends(w, alive, timeout, f);
    case Operate(e) =>
      ApplyKeepsCoherent(w.station, e);
      if w.active { ApplyKeepsReasoned(w.station, e); }
    case _ =>
  }

  lemma {:induction false} RunKeepsWatching(station: Station, clock: int, xs: seq<Action>)
    requires Coherent(station) && AllFromOutside(xs)
    ensures Watching(Run(NewWorld(station, clock), xs))
  {
    if xs != [] {
      RunKeepsWatching(station, clock, xs[..|xs| - 1]);
      StepKeepsWatching(Run(NewWorld(station, clock), xs[..|xs| - 1]), xs[|xs| - 1]);
    }
  }

  /** After every tick of any run, an active loop has an armed sequencer and an idle age within the timeout. */
  lemma EveryTickAttends(station: Station, clock: int, xs: seq<Action>, leaseAlive: bool, timeout: int, frequency: int)
    requires Coherent(station) && AllFromOutside(xs)
    ensures Attended(Step(Run(NewWorld(station, clock), xs), Tick(leaseAlive, timeout, frequency)), timeout)
  {
    RunKeepsWatching(station, clock, xs);
    TickAttends(Run(NewWorld(station, clock), xs), leaseAlive, timeout, frequency);
  }

  // ---- the idle timer -----------------------------------------------------------

  predicate Completion(w: World, x: Action) { x.Tick? && x.leaseAlive && w.station.state == Done }

  predicate LateArm(w: World, x: Action) { x.Armed? && x.ok && w.arming > 0 }

  /** The timer of an active loop is reset by a tick that finds the QSO finished and by a start under way only. */
  lemma TimerMoves(w: World, x: Action)
    requires Watching(w) && w.active
    ensures Step(w, x).lastProgress == if Completion(w, x) || LateArm(w, x) then w.clock else w.lastProgress
  {
  }

  /** Ticks come at most `gap` apart and never read a timeout above `limit`. */
  predicate Watched(w: World, x: Action, limit: int, gap: nat) {
    && FromOutside(x)
    && (x.Pass? ==> w.clock + x.elapsed <= w.looked + gap)
    && (x.Tick? ==> x.timeout <= limit)
  }

  predicate WatchedRun(w: World, xs: seq<Action>, limit: int, gap: nat) {
    xs == [] || (WatchedRun(w, xs[..|xs| - 1], limit, gap) && Watched(Run(w, xs[..|xs| - 1]), xs[|xs| - 1], limit, gap))
  }

  predicate IdleBounded(w: World, limit: int, gap: nat) {
    && w.looked <= w.clock <= w.looked + gap
    && (w.active ==> w.looked - w.lastProgress <= limit)
  }

  lemma StepKeepsIdleBound(w: World, x: Action, limit: int, gap: nat)
    requires Watching(w) && IdleBounded(w, limit, gap) && Watched(w, x, limit, gap) && 0 <= limit
    ensures IdleBounded(Step(w, x), limit, gap)
  {
    if x.Tick? {
      TickAttends(w, x.leaseAlive, x.timeout, x.frequency);
    }
  }

  /** Left alone, the loop calls for at most the longest timeout and one watchdog gap after its last completed QSO. */
  lemma {:induction false} UnattendedCallingEnds(station: Station, clock: int, xs: seq<Action>, limit: int, gap: nat)
    requires Coherent(station) && WatchedRun(NewWorld(station, clock), xs, limit, gap) && 0 <= limit
    ensures var w := Run(NewWorld(station, clock), xs);
            && Watching(w) && IdleBounded(w, limit, gap)
            && (w.active ==> w.clock - w.lastProgress <= limit + gap)
  {
    if xs != [] {
      UnattendedCallingEnds(station, clock, xs[..|xs| - 1], limit, gap);
      var w := Run(NewWorld(station, clock), xs[..|xs| - 1]);
      StepKeepsWatching(w, xs[|xs| - 1]);
      StepKeepsIdleBound(w, xs[|xs| - 1], limit, gap);
    }
  }

  // ---- what a tick decides ---------------------------------------------------------

  /** Why an event ends an active loop: by the state of the sequencer, however the loop noticed it. */
  function EndingOf(w: World, x: Action): Option<LoopStop> {
    match x
    case StopCalled(r) => Some(r)
    case Tick(alive, timeout, _) =>
      if !alive then Some(LeaseLost)
      else if w.station.state == Done then None
      else if w.station.disarmReason == Some(Fault) then Some(StoppedByFault)
      else if w.station.disarmReason == Some(Manual) then Some(StoppedByHand)
      else if w.clock - w.lastProgress > timeout then Some(TimedOut)
      else None
    case _ => None
  }

  predicate Refused(w: World, x: Action) { x.Armed? && !x.ok && w.arming > 0 }

  /** A loop ends exactly on a stop, a lost lease, a sequencer stopped from outside, or an idle timer run out. */
  lemma EndsExactlyWhen(w: World, x: Action)
    requires Watching(w) && FromOutside(x) && (x.Tick? ==> 0 <= x.timeout)
    ensures var v := Step(w, x);
            && (w.active ==> (!v.active <==> EndingOf(w, x).Some?))
            && (!w.active ==> (v.active <==> LateArm(w, x)))
            && v.stops == (if w.active && EndingOf(w, x).Some? then w.stops + [EndingOf(w, x).value]
                           else if Refused(w, x) then w.stops + [ArmRefused]
                           else w.stops)
  {
  }

  /** The station calls CQ on offset `f`, as after an operator's own press. */
  predicate CallsOn(s: Station, f: int) {
    s.state == Calling && s.txEnabled && s.dxCall == "" && s.txFrequency == f && s.txPhase == 0 && s.partnerLossStop
  }

  /**
   * A tick leaves an armed sequencer alone, calls CQ again on the offset just picked after a QSO that finished, ran
   * out of tries or lost its partner, and otherwise only ends the loop; out of time it disarms the sequencer as well.
   */
  lemma TickDecides(w: World, leaseAlive: bool, timeout: int, frequency: int)
    requires Watching(w) && w.active && 0 <= timeout
    ensures var v := Step(w, Tick(leaseAlive, timeout, frequency));
            match EndingOf(w, Tick(leaseAlive, timeout, frequency))
            case Some(TimedOut) => !v.station.txEnabled && v.station.disarmReason == Some(Manual)
            case Some(_) => v.station == w.station
            case None => if w.station.txEnabled then v.station == w.station else CallsOn(v.station, frequency)
  {
    if leaseAlive {
      StartCqCalls(w.station, frequency);
      match w.station.disarmReason {
        case Some(Complete) => assert w.station.state == Done;
        case _ =>
      }
    }
  }

  lemma StartCqCalls(s: Station, frequency: int)
    ensures CallsOn(StartCq(s, frequency), frequency)
  {
  }

  /** A start that comes through calls CQ on the offset it picked and restarts the timer. */
  lemma StartCalls(w: World, x: Action)
    requires LateArm(w, x)
    ensures var v := Step(w, x);
            v.active && CallsOn(v.station, x.frequency) && v.lastProgress == w.clock && v.arming == w.arming - 1
  {
  }

  // ---- stopping ------------------------------------------------------------------

  predicate Rearms(e: Event) { e.CqPressed? || e.ReplyPressed? }

  /** A stopped station stays stopped, for an outside reason, until someone arms it again. */
  lemma {:induction false} StoppedStaysStopped(s: Station, es: seq<Event>)
    requires Reasoned(s) && s.state == Idle && s.disarmReason in {Some(Manual), Some(Fault)}
    requires forall i | 0 <= i < |es| :: !Rearms(es[i]) && (es[i].StopPressed? ==> es[i].reason in {Manual, Fault})
    ensures Reasoned(After(s, es)) && After(s, es).state == Idle
    ensures After(s, es).disarmReason in {Some(Manual), Some(Fault)}
  {
    if es != [] {
      StoppedStaysStopped(s, es[..|es| - 1]);
      ApplyKeepsReasoned(After(s, es[..|es| - 1]), es[|es| - 1]);
    }
  }

  /**
   * A manual or fault stop, not re-armed meanwhile, ends the loop at the next tick exactly when the QSO had not just
   * finished; a finished one is called on again, and the stop is lost.
   */
  lemma StopEndsLoopExactlyWhen(w: World, reason: DisarmReason, es: seq<Event>, timeout: int, frequency: int)
    requires Watching(w) && w.active && reason in {Manual, Fault} && 0 <= timeout
    requires forall i | 0 <= i < |es| :: !Rearms(es[i]) && (es[i].StopPressed? ==> es[i].reason in {Manual, Fault})
    ensures var stopped := w.(station := After(Stop(w.station, reason), es));
            var v := TickLoop(stopped, true, timeout, frequency);
            && (!v.active <==> w.station.state != Done)
            && (v.active <==> v.station.txEnabled)
            && (v.active ==> v.station.state == Calling)
  {
    var s := Stop(w.station, reason);
    ApplyKeepsReasoned(w.station, StopPressed(reason));
    if w.station.state != Done {
      StoppedStaysStopped(s, es);
      StoppedEnds(w.(station := After(s, es)), timeout, frequency);
    } else {
      FinishedStaysFinished(s, es);
      FinishedCalls(w.(station := After(s, es)), timeout, frequency);
    }
  }

  lemma StoppedEnds(w: World, timeout: int, frequency: int)
    requires Watching(w) && w.active && w.station.disarmReason in {Some(Manual), Some(Fault)}
    requires w.station.state == Idle
    ensures var v := TickLoop(w, true, timeout, frequency);
            !v.active && !v.station.txEnabled
  {
  }

  lemma FinishedCalls(w: World, timeout: int, frequency: int)
    requires Watching(w) && w.active && w.station.state == Done && 0 <= timeout
    ensures var v := TickLoop(w, true, timeout, frequency);
            v.active && v.station.txEnabled && v.station.state == Calling
  {
    CallingIsReasoned(w.station, frequency);
  }

  lemma {:induction false} FinishedStaysFinished(s: Station, es: seq<Event>)
    requires Reasoned(s) && s.state == Done
    requires forall i | 0 <= i < |es| :: !Rearms(es[i]) && (es[i].StopPressed? ==> es[i].reason in {Manual, Fault})
    ensures Reasoned(After(s, es)) && After(s, es).state == Done
  {
    if es != [] {
      FinishedStaysFinished(s, es[..|es| - 1]);
      ApplyKeepsReasoned(After(s, es[..|es| - 1]), es[|es| - 1]);
    }
  }

  // ---- overlapping starts -----------------------------------------------------------

  /** No start is called while another one is being armed, unless `overlap` allows it. */
  predicate Orderly(w: World, x: Action, overlap: bool) {
    FromOutside(x) && (x.StartCalled? && w.arming > 0 ==> overlap)
  }

  predicate OrderlyRun(w: World, xs: seq<Action>, overlap: bool) {
    xs == [] || (OrderlyRun(w, xs[..|xs| - 1], overlap) && Orderly(Run(w, xs[..|xs| - 1]), xs[|xs| - 1], overlap))
  }

  lemma RunNext(w: World, xs: seq<Action>, x: Action, overlap: bool)
    ensures Run(w, xs + [x]) == Step(Run(w, xs), x)
    ensures OrderlyRun(w, xs + [x], overlap) <==> OrderlyRun(w, xs, overlap) && Orderly(Run(w, xs), x, overlap)
  {
    assert (xs + [x])[..|xs + [x]| - 1] == xs;
  }

  /** Without overlaps an active loop has no start under way. */
  lemma {:induction false} ActiveIsNotArming(station: Station, clock: int, xs: seq<Action>)
    requires Coherent(station) && OrderlyRun(NewWorld(station, clock), xs, false)
    ensures var w := Run(NewWorld(station, clock), xs);
            Watching(w) && w.arming <= 1 && (w.active ==> w.arming == 0)
  {
    if xs != [] {
      ActiveIsNotArming(station, clock, xs[..|xs| - 1]);
      StepKeepsWatching(Run(NewWorld(station, clock), xs[..|xs| - 1]), xs[|xs| - 1]);
    }
  }

  function TwoStarts(e: Event, f: int): seq<Action> {
    [StartCalled] + [StartCalled] + [Armed(true, f)] + [Operate(e)] + [Pass(1)]
  }

  /**
   * Two overlapping start calls: the first one's CQ is answered, or the operator picks a station, and the QSO is under
   * way when the second one, checked before the first was armed, is armed too. The partner is gone, nothing has been
   * logged, and the timer starts again.
   */
  lemma OverlappingStartsLoseQso(station: Station, clock: int, e: Event, f: int)
    requires !e.StopPressed?
    ensures var w := NewWorld(station, clock);
            var under, lost := Run(w, TwoStarts(e, f)), Step(Run(w, TwoStarts(e, f)), Armed(true, f));
            && OrderlyRun(w, TwoStarts(e, f), true) && under.active && under.arming == 1
            && under.station == Apply(StartCq(station, f), e).0 && under.lastProgress == clock
            && lost.active && lost.station == StartCq(under.station, f) && lost.station.dxCall == ""
            && lost.station.log == under.station.log && lost.lastProgress == clock + 1
  {
    var w := NewWorld(station, clock);
    assert [] + [StartCalled] == [StartCalled];
    RunNext(w, [], StartCalled, true);
    RunNext(w, [StartCalled], StartCalled, true);
    RunNext(w, [StartCalled] + [StartCalled], Armed(true, f), true);
    RunNext(w, [StartCalled] + [StartCalled] + [Armed(true, f)], Operate(e), true);
    RunNext(w, [StartCalled] + [StartCalled] + [Armed(true, f)] + [Operate(e)], Pass(1), true);
  }

  /** In no such run does an arm that comes through drop the partner of an active loop. */
  ghost predicate KeepsPartner(w: World, overlap: bool) {
    forall xs, ok, f | OrderlyRun(w, xs, overlap) && Run(w, xs).active ::
      Step(Run(w, xs), Armed(ok, f)).station.dxCall == Run(w, xs).station.dxCall
  }

  /** In no such run does anything but a finished QSO reset the timer of an active loop. */
  ghost predicate KeepsTimer(w: World, overlap: bool) {
    forall xs, x | OrderlyRun(w, xs, overlap) && FromOutside(x) && Run(w, xs).active ::
      Step(Run(w, xs), x).lastProgress
      == if Completion(Run(w, xs), x) then Run(w, xs).clock else Run(w, xs).lastProgress
  }

  /** A start never costs an active loop its QSO exactly when starts do not overlap. */
  lemma PartnerKeptExactlyWhen(station: Station, clock: int, overlap: bool)
    requires Coherent(station)
    ensures KeepsPartner(NewWorld(station, clock), overlap) <==> !overlap
  {
    var w := NewWorld(station, clock);
    if overlap {
      var e := ReplyPressed(BLANK.(fromCall := "K1ABC"), 0, 0, 1500, 0);
      OverlappingStartsLoseQso(station, clock, e, 1500);
      assert Run(w, TwoStarts(e, 1500)).station.dxCall == "K1ABC";
    } else {
      forall xs, ok, f | OrderlyRun(w, xs, false) && Run(w, xs).active
        ensures Step(Run(w, xs), Armed(ok, f)) == Run(w, xs)
      {
        ActiveIsNotArming(station, clock, xs);
      }
    }
  }

  /** Only a finished QSO resets the timer of an active loop exactly when starts do not overlap. */
  lemma OnlyCompletionResetsTimer(station: Station, clock: int, overlap: bool)
    requires Coherent(station)
    ensures KeepsTimer(NewWorld(station, clock), overlap) <==> !overlap
  {
    var w := NewWorld(station, clock);
    if overlap {
      OverlappingStartsLoseQso(station, clock, SlotPulled, 1500);
      assert FromOutside(Armed(true, 1500)) && !Completion(Run(w, TwoStarts(SlotPulled, 1500)), Armed(true, 1500));
    } else {
      forall xs, x | OrderlyRun(w, xs, false) && FromOutside(x) && Run(w, xs).active
        ensures Step(Run(w, xs), x).lastProgress
                == if Completion(Run(w, xs), x) then Run(w, xs).clock else Run(w, xs).lastProgress
      {
        ActiveIsNotArming(station, clock, xs);
        TimerMoves(Run(w, xs), x);
      }
    }
  }

  // ---- the object ------------------------------------------------------------------

  class CqLoopController {
    const sequencer: Sequencer
    var active: bool
    var lastProgress: int
    var observed: (State, Option<DisarmReason>)

    // What the loop runs in: the start calls being armed, the clock, the audit trail.
    var arming: nat
    var clock: int
    var looked: int
    var stops: seq<LoopStop>

    function View(): World
      reads this, sequencer
    {
      World(sequencer.View(), active, lastProgress, observed, arming, clock, looked, stops)
    }

    constructor (sequencer: Sequencer, clock: int)
      ensures this.sequencer == sequencer && View() == NewWorld(sequencer.View(), clock)
    {
      this.sequencer := sequencer;
      active, lastProgress, observed := false, 0, (Idle, None);
      arming, this.clock, looked, stops := 0, clock, clock, [];
    }

    method Start()
      modifies `arming
      ensures View() == Step(old(View()), StartCalled)
    {
      if !active {
        arming := arming + 1;
      }
    }

    /** The safety path answered a start call. */
    method ArmReturned(ok: bool, frequency: int)
      requires arming > 0
      modifies this, sequencer
      ensures View() == Step(old(View()), Armed(ok, frequency))
    {
      arming := arming - 1;
      if !ok {
        stops := stops + [ArmRefused];
        return;
      }
      sequencer.BeginCq(frequency);
      active := true;
      lastProgress := clock;
      looked := clock;
      observed := (sequencer.state, sequencer.disarmReason);
    }

    method Stop(reason: LoopStop)
      modifies `active, `stops
      ensures View() == Ended(old(View()), reason)
    {
      if active {
        active := false;
        stops := stops + [reason];
      }
    }

    method CallAgain(frequency: int)
      modifies `observed, sequencer
      ensures View() == Recalled(old(View()), frequency)
    {
      sequencer.BeginCq(frequency);
      observed := (sequencer.state, sequencer.disarmReason);
    }

    method FollowTable(frequency: int)
      modifies this, sequencer
      ensures View() == React(old(View()), frequency)
    {
      var state, reason := sequencer.state, sequencer.disarmReason;
      observed := (state, reason);
      if state == Done {
        lastProgress := clock;
        CallAgain(frequency);
      } else if reason == Some(RetryExhausted) || reason == Some(PartnerLost) {
        CallAgain(frequency);
      } else if reason == Some(Fault) {
        Stop(StoppedByFault);
      } else if reason == Some(Manual) {
        Stop(StoppedByHand);
      }
    }

    method Poll(leaseAlive: bool, timeout: int, frequency: int)
      modifies this, sequencer
      ensures View() == TickLoop(old(View()), leaseAlive, timeout, frequency)
    {
      if !active {
        return;
      }
      if !leaseAlive {
        Stop(LeaseLost);
        return;
      }
      if (sequencer.state, sequencer.disarmReason) != observed {
        FollowTable(frequency);
        if !active {
          return;
        }
      }
      if clock - lastProgress > timeout {
        sequencer.Disarm(Manual);
        Stop(TimedOut);
      }
    }
  }
}
