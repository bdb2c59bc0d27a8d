/**
 * Which message goes on the air: over every run it is the text the sequencer offered at the last pull of the segment
 * that chose it, in a slot of the parity in force there. When its waveform is on the offset then in force.
 */
module DriverTexts {
  import opened Prelude
  import opened MsgParse
  import opened Qso
  import opened QsoRuns
  import opened Driver
  import opened DriverRuns

  import Playback

  // ---- every transmission was offered ----------------------------------------

  /** The message is what pull number `c.pull` offered, and the parity the one in force there. */
  predicate Offered(pulls: seq<Offer>, c: Choice) {
    && 0 <= c.pull < |pulls|
    && pulls[c.pull].text == Some(c.message) && pulls[c.pull].phase == c.phase
  }

  /** Its waveform is on the offset in force at that pull, too. */
  predicate OnOffset(pulls: seq<Offer>, c: Choice) { Offered(pulls, c) && pulls[c.pull].frequency == c.frequency }

  predicate Traced(w: World) {
    && (forall id | id in w.tasks && w.tasks[id].Encoding() :: OnOffset(w.pulls, w.tasks[id].choice))
    && (forall k | 0 <= k < |w.starts| :: Offered(w.pulls, w.starts[k].choice))
    && (forall k | 0 <= k < |w.airs| :: Offered(w.pulls, w.airs[k].choice))
  }

  lemma DeliverKeepsTraced(w: World, e: Event)
    requires Traced(w)
    ensures Traced(Deliver(w, e)) && w.pulls <= Deliver(w, e).pulls
  {
  }

  /** What a pull offers is the choice of that pull. */
  lemma PullIsOffered(w: World)
    requires NextTx(w.station).1.Some?
    ensures var (v, text) := Pulled(w);
            OnOffset(v.pulls, Chosen(v, text.value)) && Chosen(v, text.value).pull == |w.pulls|
  {
    EventKeepsRoute(w.station, SlotPulled);
  }

  lemma EnterKeepsTraced(w: World, id: nat, at: Await, start: Start, charge: Charge)
    requires Traced(w) && at.Active() && Offered(w.pulls, start.choice)
    requires at.SlotEncode? ==> OnOffset(w.pulls, at.choice)
    ensures var v := EnterTransmit(w, id, at, start, charge); Traced(v) && v.pulls == w.pulls
  {
  }

  lemma WaitKeepsTraced(w: World, id: nat, at: Await)
    requires Traced(w) && (at.Encoding() ==> OnOffset(w.pulls, at.choice))
    ensures Traced(w.(tasks := w.tasks[id := at])) && Traced(Finish(w, id))
  {
  }

  lemma PollKeepsTraced(w: World, id: nat, slot: int)
    requires Traced(w)
    ensures Traced(PollWindow(w, id, slot)) && w.pulls <= PollWindow(w, id, slot).pulls
  {
    var (v, text) := Pulled(w);
    WaitKeepsTraced(w, id, Polling(slot));
    DeliverKeepsTraced(w, SlotPulled);
    if text.Some? {
      PullIsOffered(w);
      WaitKeepsTraced(v, id, WindowEncode(slot, Chosen(v, text.value), w.station.state != Calling, v.resets));
    } else {
      WaitKeepsTraced(v, id, Polling(slot));
    }
  }

  lemma PullOrWaitKeepsTraced(w: World, id: nat, slot: int)
    requires Traced(w)
    ensures Traced(PullOrWait(w, id, slot)) && w.pulls <= PullOrWait(w, id, slot).pulls
  {
    var (v, text) := Pulled(w);
    DeliverKeepsTraced(w, SlotPulled);
    if text.Some? {
      PullIsOffered(w);
      EnterKeepsTraced(v, id, SlotEncode(slot, Chosen(v, text.value), v.clock, w.station.state != Calling, v.resets),
                       Start(slot, Chosen(v, text.value), v.clock, false), Free);
    } else {
      PollKeepsTraced(v, id, slot);
    }
  }

  lemma BeginKeepsTraced(w: World, id: nat, slot: int)
    requires Traced(w)
    ensures Traced(BeginSlot(w, id, slot)) && w.pulls <= BeginSlot(w, id, slot).pulls
  {
    PullOrWaitKeepsTraced(w, id, slot);
    if w.pending.Some? {
      var u := w.(pending := None);
      assert Traced(u);
      DeliverKeepsTraced(u, SlotPulled);
      CachedKeepsTraced(u, Deliver(u, SlotPulled), id, slot, w.pending.value);
    }
  }

  lemma CachedKeepsTraced(u: World, v: World, id: nat, slot: int, cached: Cached)
    requires v == Deliver(u, SlotPulled) && Traced(v)
    ensures Traced(PullOrWait(v, id, slot)) && v.pulls <= PullOrWait(v, id, slot).pulls
    ensures NextTx(u.station).1 == Some(cached.message) ==>
              var choice := FromCache(v, cached);
              var t := EnterTransmit(v, id, OnAir(slot, choice), Start(slot, choice, v.clock, false),
                                     ChargeOf(u.station));
              Traced(t) && t.pulls == v.pulls
  {
    PullOrWaitKeepsTraced(v, id, slot);
    if NextTx(u.station).1 == Some(cached.message) {
      PullIsOffered(u);
      var choice := FromCache(v, cached);
      EnterKeepsTraced(v, id, OnAir(slot, choice), Start(slot, choice, v.clock, false), ChargeOf(u.station));
    }
  }

  lemma EncodedKeepsTraced(w: World, id: nat, ok: bool)
    requires Traced(w)
    ensures Traced(Step(w, Encoded(id, ok))) && Step(w, Encoded(id, ok)).pulls == w.pulls
  {
  }

  lemma StepKeepsTraced(w: World, x: Action)
    requires Traced(w)
    ensures Traced(Step(w, x)) && w.pulls <= Step(w, x).pulls
  {
    match x
    case SlotStart(id, slot) => BeginKeepsTraced(w.(announced := Some(slot)), id, slot);
    case Wake(id) => if id in w.tasks && w.tasks[id].Polling? { PollKeepsTraced(w, id, w.tasks[id].slot); }
    case Encoded(id, ok) => EncodedKeepsTraced(w, id, ok);
    case Operate(e) => DeliverKeepsTraced(w, e);
    case _ =>
  }

  lemma {:induction false} RunKeepsTraced(w: World, xs: seq<Action>)
    requires Traced(w) && StartsFit(w)
    ensures Traced(Run(w, xs)) && StartsFit(Run(w, xs)) && w.pulls <= Run(w, xs).pulls
  {
    if xs != [] {
      RunKeepsTraced(w, xs[..|xs| - 1]);
      StepKeepsTraced(Run(w, xs[..|xs| - 1]), xs[|xs| - 1]);
      StepKeepsStarts(Run(w, xs[..|xs| - 1]), xs[|xs| - 1]);
    }
  }

  /**
   * Over every run, what is started and what goes on the air is a text the sequencer offered, in a slot of the parity
   * it had when it offered it.
   */
  lemma EveryTransmissionWasOffered(period: int, station: Station, xs: seq<Action>)
    ensures var w := Run(NewWorld(period, station), xs);
            && Traced(w) && StartsFit(w)
            && (forall k | 0 <= k < |w.starts| ::
                  && Offered(w.pulls, w.starts[k].choice)
                  && w.starts[k].slot % 2 == w.pulls[w.starts[k].choice.pull].phase)
            && (forall k | 0 <= k < |w.airs| :: Offered(w.pulls, w.airs[k].choice))
  {
    RunKeepsTraced(NewWorld(period, station), xs);
    var w := Run(NewWorld(period, station), xs);
    forall k | 0 <= k < |w.starts| ensures GoodStart(w.period, w.starts[k]) && Offered(w.pulls, w.starts[k].choice) {}
  }

  // ---- by the last pull of the segment that chose it -----------------------------

  predicate LastPull(w: World, v: World, c: Choice) { |w.pulls| <= c.pull == |v.pulls| - 1 }

  /** From `w` to `v` nothing is started, or one transmission is, of a message from the last pull made in between. */
  predicate StartsByPull(w: World, v: World) {
    || v.starts == w.starts
    || (&& |v.starts| == |w.starts| + 1 && v.starts[..|w.starts|] == w.starts
        && LastPull(w, v, v.starts[|w.starts|].choice))
  }

  /** And the encodes begun in between are of the last pull made, too. */
  predicate EncodesByPull(w: World, v: World) {
    forall id | id in v.tasks && v.tasks[id].Encoding() ::
      (id in w.tasks && v.tasks[id] == w.tasks[id]) || LastPull(w, v, v.tasks[id].choice)
  }

  lemma PollChooses(w: World, id: nat, slot: int)
    ensures var v := PollWindow(w, id, slot);
            v.starts == w.starts && EncodesByPull(w, v) && |w.pulls| <= |v.pulls|
  {
  }

  lemma PullOrWaitChooses(w: World, id: nat, slot: int)
    ensures var v := PullOrWait(w, id, slot);
            StartsByPull(w, v) && EncodesByPull(w, v) && |w.pulls| < |v.pulls|
  {
    PollChooses(Deliver(w, SlotPulled), id, slot);
  }

  lemma BeginChooses(w: World, id: nat, slot: int)
    ensures StartsByPull(w, BeginSlot(w, id, slot)) && EncodesByPull(w, BeginSlot(w, id, slot))
  {
    PullOrWaitChooses(w, id, slot);
    if w.pending.Some? {
      PullOrWaitChooses(Deliver(w.(pending := None), SlotPulled), id, slot);
    }
  }

  /**
   * A coroutine chooses by the last pull it makes before it next waits: slot starts, cached waveforms included, and
   * encodes carry the message of that pull. A transmission out of the window carries the message of its own encode.
   */
  lemma ChoosesByLastPull(w: World, x: Action)
    ensures EncodesByPull(w, Step(w, x))
    ensures !x.Encoded? ==> StartsByPull(w, Step(w, x))
    ensures x.Encoded? ==>
              var v := Step(w, x);
              v.starts == w.starts || (&& x.id in w.tasks && w.tasks[x.id].WindowEncode?
                                       && v.starts == w.starts + [Start(w.tasks[x.id].slot, w.tasks[x.id].choice,
                                                                        w.clock, true)])
  {
    match x
    case SlotStart(id, slot) => BeginChooses(w.(announced := Some(slot)), id, slot);
    case Wake(id) => if id in w.tasks && w.tasks[id].Polling? { PollChooses(w, id, w.tasks[id].slot); }
    case Encoded(id, ok) => EncodedChooses(w, id, ok);
    case _ =>
  }

  lemma EncodedChooses(w: World, id: nat, ok: bool)
    ensures var v := Step(w, Encoded(id, ok));
            && EncodesByPull(w, v)
            && (v.starts == w.starts || (&& id in w.tasks && w.tasks[id].WindowEncode?
                                         && v.starts == w.starts + [Start(w.tasks[id].slot, w.tasks[id].choice,
                                                                          w.clock, true)]))
  {
  }

  /**
   * A cached waveform goes out at a slot start exactly when nobody is transmitting, the slot has the transmit parity,
   * and the one pull made offers its very message. Otherwise it is forgotten, unless the slot was not ours to use.
   */
  lemma CacheGoesOutExactlyWhen(w: World, id: nat, slot: int)
    requires MayAnnounce(w, id, slot) && w.pending.Some?
    ensures var v := Step(w, SlotStart(id, slot));
            var passedOver := w.inFlight || (w.station.txEnabled && slot % 2 != w.station.txPhase);
            && (id in v.tasks && v.tasks[id].OnAir?
                <==> !passedOver && NextTx(w.station).1 == Some(w.pending.value.message))
            && (id in v.tasks && v.tasks[id].OnAir? ==>
                  && |v.pulls| == |w.pulls| + 1 && v.tasks[id].choice.pull == |w.pulls|
                  && v.tasks[id].choice.message == w.pending.value.message
                  && v.tasks[id].choice.frequency == w.pending.value.frequency)
            && v.pending == (if passedOver then w.pending else None)
  {
    CacheDropped(Deliver(w.(announced := Some(slot), pending := None), SlotPulled), id, slot);
  }

  lemma CacheDropped(w: World, id: nat, slot: int)
    requires id !in w.tasks
    ensures var v := PullOrWait(w, id, slot); id in v.tasks ==> !v.tasks[id].OnAir?
    ensures PullOrWait(w, id, slot).pending == w.pending
  {
  }

  // ---- the parity and the offset asked for -------------------------------------

  predicate NoStartPressed(xs: seq<Action>) { forall x | x in xs :: !(x.Operate? && Begins(x.event)) }

  /** The parity a start asks for: a reply its own, a CQ the even one. */
  function ParityOf(e: Event): int
    requires Begins(e)
  {
    if e.ReplyPressed? then e.phase else 0
  }

  function OffsetOf(e: Event): int
    requires Begins(e)
  {
    e.frequency
  }

  /** The route in force now, and at every pull from number `n` on. */
  predicate RoutedSince(w: World, n: nat, phase: int, frequency: int) {
    && w.station.txPhase == phase && w.station.txFrequency == frequency
    && (forall k | n <= k < |w.pulls| :: w.pulls[k].phase == phase && w.pulls[k].frequency == frequency)
  }

  lemma DeliverKeepsRouted(w: World, e: Event, n: nat, phase: int, frequency: int)
    requires RoutedSince(w, n, phase, frequency) && !Begins(e)
    ensures RoutedSince(Deliver(w, e), n, phase, frequency)
  {
    EventKeepsRoute(w.station, e);
  }

  lemma PollKeepsRouted(w: World, id: nat, slot: int, n: nat, phase: int, frequency: int)
    requires RoutedSince(w, n, phase, frequency)
    ensures RoutedSince(PollWindow(w, id, slot), n, phase, frequency)
  {
    DeliverKeepsRouted(w, SlotPulled, n, phase, frequency);
  }

  lemma PullOrWaitKeepsRouted(w: World, id: nat, slot: int, n: nat, phase: int, frequency: int)
    requires RoutedSince(w, n, phase, frequency)
    ensures RoutedSince(PullOrWait(w, id, slot), n, phase, frequency)
  {
    DeliverKeepsRouted(w, SlotPulled, n, phase, frequency);
    PollKeepsRouted(Deliver(w, SlotPulled), id, slot, n, phase, frequency);
  }

  lemma BeginKeepsRouted(w: World, id: nat, slot: int, n: nat, phase: int, frequency: int)
    requires RoutedSince(w, n, phase, frequency)
    ensures RoutedSince(BeginSlot(w, id, slot), n, phase, frequency)
  {
    PullOrWaitKeepsRouted(w, id, slot, n, phase, frequency);
    if w.pending.Some? {
      var u := w.(pending := None);
      DeliverKeepsRouted(u, SlotPulled, n, phase, frequency);
      PullOrWaitKeepsRouted(Deliver(u, SlotPulled), id, slot, n, phase, frequency);
    }
  }

  lemma StepKeepsRouted(w: World, x: Action, n: nat, phase: int, frequency: int)
    requires RoutedSince(w, n, phase, frequency) && !(x.Operate? && Begins(x.event))
    ensures RoutedSince(Step(w, x), n, phase, frequency)
  {
    match x
    case SlotStart(id, slot) => BeginKeepsRouted(w.(announced := Some(slot)), id, slot, n, phase, frequency);
    case Wake(id) =>
      if id in w.tasks && w.tasks[id].Polling? { PollKeepsRouted(w, id, w.tasks[id].slot, n, phase, frequency); }
    case Operate(e) => if !e.SlotPulled? { DeliverKeepsRouted(w, e, n, phase, frequency); }
    case _ =>
  }

  lemma {:induction false} RunKeepsRouted(w: World, xs: seq<Action>, n: nat, phase: int, frequency: int)
    requires RoutedSince(w, n, phase, frequency) && NoStartPressed(xs)
    ensures RoutedSince(Run(w, xs), n, phase, frequency)
  {
    if xs != [] {
      assert forall x | x in xs[..|xs| - 1] :: x in xs;
      RunKeepsRouted(w, xs[..|xs| - 1], n, phase, frequency);
      StepKeepsRouted(Run(w, xs[..|xs| - 1]), xs[|xs| - 1], n, phase, frequency);
    }
  }

  lemma PressSetsRoute(w: World, e: Event)
    requires Begins(e)
    ensures var u := Step(w, Operate(e));
            RoutedSince(u, |w.pulls|, ParityOf(e), OffsetOf(e)) && u.pulls == w.pulls && u.starts == w.starts
  {
    if e.CqPressed? {
      CqHolds(w.station, e, []);
    } else {
      ReplyHolds(w.station, e, []);
    }
  }

  /**
   * Over every run, and until the next press: whatever is transmitted of a message chosen since a CQ or a reply was
   * pressed is in a slot of the parity asked for. A message chosen before keeps the parity it was chosen in.
   */
  lemma StartsKeepParity(period: int, station: Station, xs: seq<Action>, e: Event, ys: seq<Action>)
    requires Begins(e) && NoStartPressed(ys)
    ensures var w := Run(NewWorld(period, station), xs);
            var v := Run(Step(w, Operate(e)), ys);
            forall k | 0 <= k < |v.starts| && v.starts[k].choice.pull >= |w.pulls| ::
              v.starts[k].slot % 2 == ParityOf(e)
  {
    var w := Run(NewWorld(period, station), xs);
    var u := Step(w, Operate(e));
    var v := Run(u, ys);
    RunKeepsTraced(NewWorld(period, station), xs);
    StepKeepsTraced(w, Operate(e));
    StepKeepsStarts(w, Operate(e));
    RunKeepsTraced(u, ys);
    PressSetsRoute(w, e);
    RunKeepsRouted(u, ys, |w.pulls|, ParityOf(e), OffsetOf(e));
    forall k | 0 <= k < |v.starts| && v.starts[k].choice.pull >= |w.pulls|
      ensures v.starts[k].slot % 2 == ParityOf(e)
    {
      assert GoodStart(v.period, v.starts[k]) && Offered(v.pulls, v.starts[k].choice);
    }
  }

  /** A reply with the opposite parity of the slot its message was heard in never goes out in a slot of that parity. */
  lemma ReplyLeavesPartnersSlots(period: int, station: Station, xs: seq<Action>, e: Event, ys: seq<Action>, heard: int)
    requires e.ReplyPressed? && e.msg.fromCall != "" && e.phase == 1 - heard % 2 && NoStartPressed(ys)
    ensures var w := Run(NewWorld(period, station), xs);
            var v := Run(Step(w, Operate(e)), ys);
            forall k | 0 <= k < |v.starts| && v.starts[k].choice.pull >= |w.pulls| ::
              v.starts[k].slot % 2 != heard % 2
  {
    StartsKeepParity(period, station, xs, e, ys);
    OtherParity(heard % 2, e.phase);
  }

  lemma OtherParity(parity: int, phase: int)
    requires phase == 1 - parity
    ensures phase != parity
  {
  }

  /** The newest transmission is not on the offset in force when its message was chosen. */
  predicate StartsOffOffset(w: World, v: World) {
    && |v.starts| == |w.starts| + 1
    && Offered(v.pulls, v.starts[|w.starts|].choice) && !OnOffset(v.pulls, v.starts[|w.starts|].choice)
  }

  /**
   * The encoder is asked for the offset in force, so a transmission leaves on the offset of its pull, but for one way
   * round it: a cached waveform goes out by its text alone, and exactly when the offset has moved since it was encoded
   * it leaves on the old one.
   */
  lemma OffOffsetExactlyWhen(w: World, x: Action)
    requires Traced(w)
    ensures StartsOffOffset(w, Step(w, x))
            <==> && x.SlotStart? && MayAnnounce(w, x.id, x.slot) && w.pending.Some? && !w.inFlight
                 && (w.station.txEnabled ==> x.slot % 2 == w.station.txPhase)
                 && NextTx(w.station).1 == Some(w.pending.value.message)
                 && w.pending.value.frequency != w.station.txFrequency
  {
    match x
    case SlotStart(id, slot) =>
      if MayAnnounce(w, id, slot) {
        SlotStartOffset(w.(announced := Some(slot)), id, slot);
      }
    case Wake(id) => if id in w.tasks && w.tasks[id].Polling? { PollChooses(w, id, w.tasks[id].slot); }
    case _ =>
  }

  lemma PullOrWaitOnOffset(w: World, id: nat, slot: int)
    ensures !StartsOffOffset(w, PullOrWait(w, id, slot))
  {
    var (v, text) := Pulled(w);
    if text.Some? {
      PullIsOffered(w);
    } else {
      PollChooses(v, id, slot);
    }
  }

  lemma SlotStartOffset(w: World, id: nat, slot: int)
    ensures StartsOffOffset(w, BeginSlot(w, id, slot))
            <==> && w.pending.Some? && !w.inFlight && (w.station.txEnabled ==> slot % 2 == w.station.txPhase)
                 && NextTx(w.station).1 == Some(w.pending.value.message)
                 && w.pending.value.frequency != w.station.txFrequency
  {
    PullOrWaitOnOffset(w, id, slot);
    if w.pending.Some? && !w.inFlight && (w.station.txEnabled ==> slot % 2 == w.station.txPhase) {
      var u := w.(pending := None);
      PullOrWaitOnOffset(Deliver(u, SlotPulled), id, slot);
      if NextTx(w.station).1 == Some(w.pending.value.message) {
        PullIsOffered(u);
      }
    }
  }

  function MovedOffsetRun(period: nat, msg: ParsedMessage, snr: int, f: int, g: int): seq<Action> {
    [SlotStart(0, 0)] + [Operate(ReplyPressed(msg, snr, 0, f, 0))] + [Wake(0)] + [Tick(period)] + [Encoded(0, true)]
    + [Operate(ReplyPressed(msg, snr, 0, g, 0))] + [Tick(period)] + [SlotStart(0, 2)]
  }

  lemma WindowOpens(period: int, station: Station, w: World, msg: ParsedMessage, snr: int, f: int)
    requires !station.txEnabled && WAVEFORM + FIT_MARGIN < period && msg.fromCall != ""
    requires w == Step(Step(NewWorld(period, station), SlotStart(0, 0)), Operate(ReplyPressed(msg, snr, 0, f, 0)))
    ensures var v := Step(w, Wake(0));
            && v.clock == 0 && v.period == period && !v.inFlight && v.announced == Some(0) && v.tasks.Keys == {0}
            && v.tasks[0].WindowEncode? && v.tasks[0].slot == 0 && v.tasks[0].choice.frequency == f && v.starts == []
            && v.tasks[0].choice.message == ExchangeText(msg.fromCall, station.myCall, station.myGrid)
            && SameSetup(station, v.station)
  {
    assert 0 * period == 0 && (0 + 1) * period == period;
    IdleOpensWindow(period, station);
  }

  lemma LateEncodeIsCached(v: World)
    requires v.clock == 0 && v.period > WAVEFORM + FIT_MARGIN && v.tasks.Keys == {0} && v.tasks[0].WindowEncode?
    requires v.tasks[0].slot == 0
    ensures var u := Step(Step(v, Tick(v.period)), Encoded(0, true));
            && u.pending == Some(Cached(v.tasks[0].choice.message, v.tasks[0].choice.frequency))
            && u.clock == v.period == u.period && u.tasks == map[] && u.inFlight == v.inFlight
            && u.announced == v.announced && u.starts == v.starts && u.station == v.station
  {
    assert (0 + 1) * v.period == v.period;
  }

  lemma CachedOnOldOffset(u: World, msg: ParsedMessage, snr: int, f: int, g: int)
    requires u.pending == Some(Cached(ExchangeText(msg.fromCall, u.station.myCall, u.station.myGrid), f)) && f != g
    requires u.clock == u.period > 0 && u.tasks == map[] && !u.inFlight && u.announced == Some(0) && u.starts == []
    requires msg.fromCall != ""
    ensures var v := Step(Step(Step(u, Operate(ReplyPressed(msg, snr, 0, g, 0))), Tick(u.period)), SlotStart(0, 2));
            && |v.starts| == 1 && v.starts[0].choice.frequency == f && v.station.txFrequency == g
  {
    assert 2 * u.period == u.period + u.period;
  }

  /** Such a run: the same reply pressed again on another offset goes out on the first one's. */
  lemma MovedOffsetGoesOut(period: nat, station: Station, msg: ParsedMessage, snr: int, f: int, g: int)
    requires !station.txEnabled && WAVEFORM + FIT_MARGIN < period && msg.fromCall != "" && f != g
    ensures var w := Run(NewWorld(period, station), MovedOffsetRun(period, msg, snr, f, g));
            |w.starts| == 1 && w.starts[0].choice.frequency == f && w.station.txFrequency == g
  {
    var w0 := NewWorld(period, station);
    var xs := [SlotStart(0, 0)];
    assert [] + xs == xs;
    RunNext(w0, [], SlotStart(0, 0));
    RunNext(w0, xs, Operate(ReplyPressed(msg, snr, 0, f, 0)));
    xs := xs + [Operate(ReplyPressed(msg, snr, 0, f, 0))];
    RunNext(w0, xs, Wake(0));
    WindowOpens(period, station, Run(w0, xs), msg, snr, f);
    xs := xs + [Wake(0)];
    var v := Run(w0, xs);
    RunNext(w0, xs, Tick(period));
    RunNext(w0, xs + [Tick(period)], Encoded(0, true));
    LateEncodeIsCached(v);
    xs := xs + [Tick(period)] + [Encoded(0, true)];
    var u := Run(w0, xs);
    RunNext(w0, xs, Operate(ReplyPressed(msg, snr, 0, g, 0)));
    xs := xs + [Operate(ReplyPressed(msg, snr, 0, g, 0))];
    RunNext(w0, xs, Tick(period));
    RunNext(w0, xs + [Tick(period)], SlotStart(0, 2));
    CachedOnOldOffset(u, msg, snr, f, g);
  }

  // ---- the decision window -----------------------------------------------------

  /** The driver's waveform length, in hundredths of a second, is the longest the player accepts at 48000 a second. */
  lemma WaveformFillsPlayer()
    ensures WAVEFORM * 480 == Playback.MAX_TX_SAMPLES == 606720
  {
  }

  /** At the default period the window closes 2.26 s into the slot, and until then every turn of it asks once. */
  lemma WindowCloses(w: World, id: nat, slot: int)
    requires w.period == 1500
    ensures PollWindow(w, id, slot).pulls != w.pulls <==> w.clock < slot * 1500 + 226
    ensures w.clock >= slot * 1500 + 226 ==> PollWindow(w, id, slot) == Finish(w, id)
  {
    assert (slot + 1) * 1500 == slot * 1500 + 1500;
  }

  /** The decision cutoff of 5 s closes a window that the fit limit leaves open only in periods above 17.74 s. */
  lemma CutoffMattersExactlyWhen(w: World, slot: int)
    ensures (exists clock :: Fits(w.(clock := clock), slot) && clock >= slot * w.period + DECISION_CUTOFF)
            <==> w.period > 1774
    ensures DECISION_CUTOFF == 500
  {
    assert (slot + 1) * w.period == slot * w.period + w.period;
    if w.period > 1774 {
      assert Fits(w.(clock := slot * w.period + DECISION_CUTOFF), slot);
    }
  }
}
