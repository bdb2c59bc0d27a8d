/** What every transmission the driver starts satisfies: parity, fit, and the retry budget across its suspensions. */
module DriverRuns {
  import opened Prelude
  import opened MsgParse
  import opened Qso
  import opened Driver

  // ---- parity and fit --------------------------------------------------

  predicate GoodStart(period: int, s: Start) {
    && s.slot % 2 == s.choice.phase
    && (s.fromWindow ==> s.at + WAVEFORM + FIT_MARGIN < (s.slot + 1) * period)
  }

  predicate StartsFit(w: World) {
    && (forall k | 0 <= k < |w.starts| :: GoodStart(w.period, w.starts[k]))
    && (forall id | id in w.tasks && w.tasks[id].WindowEncode? :: w.tasks[id].slot % 2 == w.tasks[id].choice.phase)
  }

  lemma PullNeverArms(s: Station)
    ensures var (t, text) := NextTx(s);
            t.txPhase == s.txPhase && (text.Some? ==> s.txEnabled) && (t.txEnabled ==> s.txEnabled)
  {
  }

  lemma PollKeepsStarts(w: World, id: nat, slot: int)
    requires StartsFit(w)
    ensures StartsFit(PollWindow(w, id, slot)) && PollWindow(w, id, slot).period == w.period
  {
  }

  lemma PullOrWaitKeepsStarts(w: World, id: nat, slot: int)
    requires StartsFit(w) && (w.station.txEnabled ==> slot % 2 == w.station.txPhase)
    ensures StartsFit(PullOrWait(w, id, slot)) && PullOrWait(w, id, slot).period == w.period
  {
    PullNeverArms(w.station);
    PollKeepsStarts(Deliver(w, SlotPulled), id, slot);
  }

  lemma BeginKeepsStarts(w: World, id: nat, slot: int)
    requires StartsFit(w)
    ensures StartsFit(BeginSlot(w, id, slot)) && BeginSlot(w, id, slot).period == w.period
  {
    PullNeverArms(w.station);
    if !w.inFlight && (w.station.txEnabled ==> slot % 2 == w.station.txPhase) {
      if w.pending == None {
        PullOrWaitKeepsStarts(w, id, slot);
      } else {
        PullOrWaitKeepsStarts(Deliver(w.(pending := None), SlotPulled), id, slot);
      }
    }
  }

  lemma EncodedKeepsStarts(w: World, id: nat, ok: bool)
    requires StartsFit(w)
    ensures StartsFit(Step(w, Encoded(id, ok))) && Step(w, Encoded(id, ok)).period == w.period
  {
  }

  lemma StepKeepsStarts(w: World, x: Action)
    requires StartsFit(w)
    ensures StartsFit(Step(w, x)) && Step(w, x).period == w.period
  {
    match x
    case Encoded(id, ok) => EncodedKeepsStarts(w, id, ok);
    case SlotStart(id, slot) => BeginKeepsStarts(w.(announced := Some(slot)), id, slot);
    case Wake(id) => if id in w.tasks && w.tasks[id].Polling? { PollKeepsStarts(w, id, w.tasks[id].slot); }
    case _ =>
  }

  /** Every transmission is in a slot of the transmit parity; one from the decision window ends inside its slot. */
  lemma {:induction false} StartsAreLegal(period: int, station: Station, xs: seq<Action>)
    ensures var w := Run(NewWorld(period, station), xs);
            && w.period == period && StartsFit(w)
            && forall k | 0 <= k < |w.starts| :: GoodStart(period, w.starts[k])
  {
    if xs != [] {
      StartsAreLegal(period, station, xs[..|xs| - 1]);
      StepKeepsStarts(Run(NewWorld(period, station), xs[..|xs| - 1]), xs[|xs| - 1]);
    }
  }

  // ---- when a slot-start transmission fits --------------------------------

  /** Slots are announced at most `late` after they begin, and a slot-start encode takes at most `encode`. */
  predicate InBounds(w: World, x: Action, late: nat, encode: nat) {
    && (x.SlotStart? ==> w.clock <= x.slot * w.period + late)
    && (x.Tick? ==> forall id | id in w.tasks && w.tasks[id].SlotEncode? ::
          w.clock + x.elapsed <= w.tasks[id].since + encode)
  }

  predicate InBoundsRun(w: World, xs: seq<Action>, late: nat, encode: nat) {
    xs == [] ||
    (InBoundsRun(w, xs[..|xs| - 1], late, encode) && InBounds(Run(w, xs[..|xs| - 1]), xs[|xs| - 1], late, encode))
  }

  /** Handed over no later than the two bounds allow. */
  predicate InTime(period: int, a: Air, bound: nat) { !a.fromWindow ==> a.at <= a.slot * period + bound }

  predicate Timed(w: World, late: nat, encode: nat) {
    && (forall id | id in w.tasks && w.tasks[id].SlotEncode? ::
          w.tasks[id].since <= w.tasks[id].slot * w.period + late && w.clock <= w.tasks[id].since + encode)
    && (forall k | 0 <= k < |w.airs| :: InTime(w.period, w.airs[k], late + encode))
  }

  lemma EnterKeepsTimed(w: World, id: nat, at: Await, start: Start, charge: Charge, late: nat, encode: nat)
    requires Timed(w, late, encode) && start.at == w.clock
    requires !start.fromWindow ==> w.clock <= start.slot * w.period + late
    requires at.SlotEncode? ==> at.since == w.clock && w.clock <= at.slot * w.period + late
    ensures Timed(EnterTransmit(w, id, at, start, charge), late, encode)
  {
  }

  lemma PollKeepsTimed(w: World, id: nat, slot: int, late: nat, encode: nat)
    requires Timed(w, late, encode)
    ensures Timed(PollWindow(w, id, slot), late, encode)
  {
  }

  lemma PullOrWaitKeepsTimed(w: World, id: nat, slot: int, late: nat, encode: nat)
    requires Timed(w, late, encode) && w.clock <= slot * w.period + late
    ensures Timed(PullOrWait(w, id, slot), late, encode)
  {
    var (v, text) := Pulled(w);
    if text == None {
      PollKeepsTimed(v, id, slot, late, encode);
    } else {
      EnterKeepsTimed(v, id, SlotEncode(slot, Chosen(v, text.value), v.clock, w.station.state != Calling, v.resets),
                      Start(slot, Chosen(v, text.value), v.clock, false), Free, late, encode);
    }
  }

  lemma BeginKeepsTimed(w: World, id: nat, slot: int, late: nat, encode: nat)
    requires Timed(w, late, encode) && w.clock <= slot * w.period + late
    ensures Timed(BeginSlot(w, id, slot), late, encode)
  {
    PullOrWaitKeepsTimed(w, id, slot, late, encode);
    if w.pending.Some? {
      var v := Deliver(w.(pending := None), SlotPulled);
      PullOrWaitKeepsTimed(v, id, slot, late, encode);
      var choice := FromCache(v, w.pending.value);
      EnterKeepsTimed(v, id, OnAir(slot, choice), Start(slot, choice, v.clock, false), ChargeOf(w.station), late,
                      encode);
    }
  }

  lemma EncodedKeepsTimed(w: World, id: nat, ok: bool, late: nat, encode: nat)
    requires Timed(w, late, encode)
    ensures Timed(Step(w, Encoded(id, ok)), late, encode)
  {
    if id in w.tasks && ok && w.tasks[id].WindowEncode? && Fits(w, w.tasks[id].slot) {
      var e := w.tasks[id];
      EnterKeepsTimed(w, id, OnAir(e.slot, e.choice), Start(e.slot, e.choice, w.clock, true),
                      EncodeCharge(w, e), late, encode);
    }
  }

  lemma StepKeepsTimed(w: World, x: Action, late: nat, encode: nat)
    requires Timed(w, late, encode) && InBounds(w, x, late, encode)
    ensures Timed(Step(w, x), late, encode)
  {
    match x
    case SlotStart(id, slot) => BeginKeepsTimed(w.(announced := Some(slot)), id, slot, late, encode);
    case Wake(id) => if id in w.tasks && w.tasks[id].Polling? { PollKeepsTimed(w, id, w.tasks[id].slot, late, encode); }
    case Encoded(id, ok) => EncodedKeepsTimed(w, id, ok, late, encode);
    case _ =>
  }

  lemma {:induction false} RunIsTimed(period: int, station: Station, xs: seq<Action>, late: nat, encode: nat)
    requires InBoundsRun(NewWorld(period, station), xs, late, encode)
    ensures var w := Run(NewWorld(period, station), xs); Timed(w, late, encode) && w.period == period
  {
    if xs != [] {
      var w := Run(NewWorld(period, station), xs[..|xs| - 1]);
      RunIsTimed(period, station, xs[..|xs| - 1], late, encode);
      StepKeepsTimed(w, xs[|xs| - 1], late, encode);
      StepKeepsPeriod(w, xs[|xs| - 1]);
    }
  }

  lemma WindowKeepsPeriod(w: World, id: nat, slot: int)
    ensures PollWindow(w, id, slot).period == w.period && PullOrWait(w, id, slot).period == w.period
  {
  }

  lemma StepKeepsPeriod(w: World, x: Action)
    ensures Step(w, x).period == w.period
  {
    match x
    case SlotStart(id, slot) =>
      WindowKeepsPeriod(w.(announced := Some(slot)), id, slot);
      WindowKeepsPeriod(Deliver(w.(announced := Some(slot), pending := None), SlotPulled), id, slot);
    case Wake(id) => if id in w.tasks && w.tasks[id].Polling? { WindowKeepsPeriod(w, id, w.tasks[id].slot); }
    case _ =>
  }

  /** Waveform and margin end inside the slot, when the rig is keyed `keying` after the waveform was handed over. */
  predicate EndsInSlot(period: int, a: Air, keying: nat) {
    a.at + keying + WAVEFORM + FIT_MARGIN < (a.slot + 1) * period
  }

  predicate SlotStartsFit(w: World, keying: nat) {
    forall k | 0 <= k < |w.airs| && !w.airs[k].fromWindow :: EndsInSlot(w.period, w.airs[k], keying)
  }

  lemma InTimeEndsInSlot(period: int, a: Air, bound: nat, keying: nat)
    requires InTime(period, a, bound) && !a.fromWindow && bound + keying + WAVEFORM + FIT_MARGIN < period
    ensures EndsInSlot(period, a, keying)
  {
    assert (a.slot + 1) * period == a.slot * period + period;
  }

  lemma RunNext(w: World, xs: seq<Action>, x: Action)
    ensures Run(w, xs + [x]) == Step(Run(w, xs), x)
  {
    assert (xs + [x])[..|xs + [x]| - 1] == xs;
  }

  lemma BoundsNext(w: World, xs: seq<Action>, x: Action, late: nat, encode: nat)
    requires InBoundsRun(w, xs, late, encode) && InBounds(Run(w, xs), x, late, encode)
    ensures InBoundsRun(w, xs + [x], late, encode) && Run(w, xs + [x]) == Step(Run(w, xs), x)
  {
    assert (xs + [x])[..|xs + [x]| - 1] == xs;
  }

  function LatestStart(late: nat, encode: nat): seq<Action> {
    [Operate(CqPressed(1500))] + [Tick(late)] + [SlotStart(0, 0)] + [Tick(encode)] + [Encoded(0, true)]
  }

  lemma CalledInSlotZero(w: World, late: nat)
    requires w.station.state == Calling && w.station.txEnabled && w.station.txPhase == 0 && w.clock == late
    requires w.tasks == map[] && !w.inFlight && w.pending == None && w.announced == None
    ensures var v := Step(w, SlotStart(0, 0));
            && v.period == w.period && v.clock == late && v.airs == w.airs
            && v.tasks.Keys == {0} && v.tasks[0].SlotEncode? && v.tasks[0].slot == 0 && v.tasks[0].since == late
  {
    assert 0 * w.period == 0;
  }

  /** Announced as late and encoded as slowly as the bounds allow. */
  lemma LatestStartAirs(period: int, station: Station, late: nat, encode: nat)
    ensures var w := Run(NewWorld(period, station), LatestStart(late, encode));
            && InBoundsRun(NewWorld(period, station), LatestStart(late, encode), late, encode)
            && w.period == period && |w.airs| == 1
            && w.airs[0] == Air(0, w.airs[0].choice, late + encode, false)
  {
    var w := NewWorld(period, station);
    var xs := [Operate(CqPressed(1500))];
    assert [] + xs == xs && 0 * period == 0;
    BoundsNext(w, [], Operate(CqPressed(1500)), late, encode);
    BoundsNext(w, xs, Tick(late), late, encode);
    xs := xs + [Tick(late)];
    CalledInSlotZero(Run(w, xs), late);
    BoundsNext(w, xs, SlotStart(0, 0), late, encode);
    xs := xs + [SlotStart(0, 0)];
    BoundsNext(w, xs, Tick(encode), late, encode);
    xs := xs + [Tick(encode)];
    BoundsNext(w, xs, Encoded(0, true), late, encode);
  }

  /**
   * The path taken at slot start has no fit guard: with slots announced at most `late` after they begin and encodes
   * of at most `encode`, and a rig keyed `keying` after it is asked to, every slot-start transmission of every run
   * ends inside its slot exactly when the three delays together leave room for the waveform and its margin.
   */
  lemma SlotStartsFitExactlyWhen(period: int, station: Station, late: nat, encode: nat, keying: nat)
    ensures (forall xs | InBoundsRun(NewWorld(period, station), xs, late, encode) ::
               SlotStartsFit(Run(NewWorld(period, station), xs), keying))
            <==> late + encode + keying + WAVEFORM + FIT_MARGIN < period
  {
    if late + encode + keying + WAVEFORM + FIT_MARGIN < period {
      forall xs | InBoundsRun(NewWorld(period, station), xs, late, encode)
        ensures SlotStartsFit(Run(NewWorld(period, station), xs), keying)
      {
        RunIsTimed(period, station, xs, late, encode);
        var w := Run(NewWorld(period, station), xs);
        forall k | 0 <= k < |w.airs| && !w.airs[k].fromWindow ensures EndsInSlot(w.period, w.airs[k], keying) {
          InTimeEndsInSlot(period, w.airs[k], late + encode, keying);
        }
      }
    } else {
      LatestStartAirs(period, station, late, encode);
      var w := Run(NewWorld(period, station), LatestStart(late, encode));
      assert !EndsInSlot(w.period, w.airs[0], keying);
    }
  }

  // ---- retry budget ----------------------------------------------------

  /** Encodes under way of exchange messages pulled since the last budget reset. */
  function Current(w: World): set<nat> {
    set id | id in w.tasks && w.tasks[id].Encoding() && w.tasks[id].exchange && w.tasks[id].resets == w.resets
  }

  predicate WithinBudget(w: World) {
    && Coherent(w.station) && TallyFits(w.tally, w.station)
    && w.carried <= w.aired && w.aired - w.carried + |Current(w)| <= w.tally.offers
    && (forall id | id in w.tasks && w.tasks[id].Encoding() :: w.tasks[id].resets <= w.resets)
  }

  lemma SubsetIsSmaller(a: set<nat>, b: set<nat>)
    requires a <= b
    ensures |a| <= |b|
  {
    if a != {} {
      var x :| x in a;
      SubsetIsSmaller(a - {x}, b - {x});
    }
  }

  /** Delivering an event: a reset forgets what was carried, a pull that offers leaves room for one more. */
  lemma DeliverKeepsBudget(w: World, e: Event)
    requires WithinBudget(w)
    ensures var v := Deliver(w, e);
            && WithinBudget(v) && v.tasks == w.tasks
            && (OffersExchange(w.station, e) ==> v.aired - v.carried + |Current(v)| + 1 <= v.tally.offers)
  {
    var v := Deliver(w, e);
    ApplyKeepsCoherent(w.station, e);
    CountKeepsFit(w.tally, w.station, e);
    if ResetsBudget(w.station, e) {
      assert Current(v) == {};
    } else {
      assert Current(v) == Current(w);
    }
  }

  lemma ReplaceKeepsBudget(w: World, v: World, id: nat)
    requires WithinBudget(w)
    requires v == w.(tasks := v.tasks, aired := v.aired, carried := v.carried, inFlight := v.inFlight,
                     pending := v.pending, starts := v.starts, airs := v.airs)
    requires forall i | i in v.tasks && i != id :: i in w.tasks && v.tasks[i] == w.tasks[i]
    requires id in v.tasks && v.tasks[id].Encoding() ==> v.tasks[id].resets == v.resets
    requires var more := if id in Current(v) then 1 else 0;
             var less := if id in Current(w) then 1 else 0;
             var old_, new_ := w.aired - w.carried, v.aired - v.carried;
             v.carried <= v.aired && (new_ + more <= old_ + less || new_ + more + |Current(w)| <= w.tally.offers)
    ensures WithinBudget(v)
  {
    var rest := Current(w) - {id};
    assert Current(v) - {id} <= rest;
    SubsetIsSmaller(Current(v) - {id}, rest);
    assert |Current(v)| == |Current(v) - {id}| + (if id in Current(v) then 1 else 0);
    assert |Current(w)| == |rest| + (if id in Current(w) then 1 else 0);
  }

  lemma FinishKeepsBudget(w: World, id: nat)
    requires WithinBudget(w)
    ensures WithinBudget(Finish(w, id)) && WithinBudget(Finish(w.(inFlight := false), id))
    ensures forall p :: WithinBudget(Finish(w.(pending := p), id))
  {
    ReplaceKeepsBudget(w, Finish(w, id), id);
    ReplaceKeepsBudget(w, Finish(w.(inFlight := false), id), id);
    forall p ensures WithinBudget(Finish(w.(pending := p), id)) {
      ReplaceKeepsBudget(w, Finish(w.(pending := p), id), id);
    }
  }

  lemma PollKeepsBudget(w: World, id: nat, slot: int)
    requires WithinBudget(w)
    ensures WithinBudget(PollWindow(w, id, slot))
  {
    FinishKeepsBudget(w, id);
    if !(w.clock >= slot * w.period + DECISION_CUTOFF || !Fits(w, slot)) {
      DeliverKeepsBudget(w, SlotPulled);
      PulledKeepsBudget(w, id, slot);
    }
  }

  /** A pulled window keeps polling, gives up, or goes on to encode what was offered. */
  lemma PulledKeepsBudget(w: World, id: nat, slot: int)
    requires WithinBudget(Deliver(w, SlotPulled)) && w.clock < slot * w.period + DECISION_CUTOFF && Fits(w, slot)
    requires var v := Deliver(w, SlotPulled);
             v.tasks == w.tasks
             && (OffersExchange(w.station, SlotPulled) ==> v.aired - v.carried + |Current(v)| + 1 <= v.tally.offers)
    ensures WithinBudget(PollWindow(w, id, slot))
  {
    var (v, text) := Pulled(w);
    FinishKeepsBudget(v, id);
    if text == None {
      ReplaceKeepsBudget(v, v.(tasks := v.tasks[id := Polling(slot)]), id);
    } else {
      var at := WindowEncode(slot, Chosen(v, text.value), w.station.state != Calling, v.resets);
      ReplaceKeepsBudget(v, v.(tasks := v.tasks[id := at]), id);
    }
  }

  lemma EnterKeepsBudget(w: World, id: nat, at: Await, start: Start, charge: Charge)
    requires WithinBudget(w) && at.Active() && (at.SlotEncode? ==> at.resets == w.resets)
    requires (if at.OnAir? then charge.Present? else at.exchange)
             ==> id in Current(w) || w.aired - w.carried + |Current(w)| + 1 <= w.tally.offers
    ensures WithinBudget(EnterTransmit(w, id, at, start, charge))
  {
    ReplaceKeepsBudget(w, EnterTransmit(w, id, at, start, charge), id);
  }

  lemma PullOrWaitKeepsBudget(w: World, id: nat, slot: int)
    requires WithinBudget(w)
    ensures WithinBudget(PullOrWait(w, id, slot))
  {
    var (v, text) := Pulled(w);
    DeliverKeepsBudget(w, SlotPulled);
    if text == None {
      PollKeepsBudget(v, id, slot);
    } else {
      EnterKeepsBudget(v, id, SlotEncode(slot, Chosen(v, text.value), v.clock, w.station.state != Calling, v.resets),
                       Start(slot, Chosen(v, text.value), v.clock, false), Free);
    }
  }

  lemma BeginKeepsBudget(w: World, id: nat, slot: int)
    requires WithinBudget(w)
    ensures WithinBudget(BeginSlot(w, id, slot))
  {
    if w.pending == None {
      PullOrWaitKeepsBudget(w, id, slot);
    } else {
      var u := w.(pending := None);
      assert Current(u) == Current(w);
      DeliverKeepsBudget(u, SlotPulled);
      var v := Deliver(u, SlotPulled);
      if NextTx(w.station).1 == Some(w.pending.value.message) {
        var choice := FromCache(v, w.pending.value);
        EnterKeepsBudget(v, id, OnAir(slot, choice), Start(slot, choice, v.clock, false), ChargeOf(w.station));
      } else {
        PullOrWaitKeepsBudget(v, id, slot);
      }
    }
  }

  lemma EncodedKeepsBudget(w: World, id: nat, ok: bool)
    requires WithinBudget(w)
    ensures WithinBudget(Step(w, Encoded(id, ok)))
  {
    FinishKeepsBudget(w, id);
    if id in w.tasks && ok {
      var e := w.tasks[id];
      if e.WindowEncode? {
        if Fits(w, e.slot) {
          EnterKeepsBudget(w, id, OnAir(e.slot, e.choice), Start(e.slot, e.choice, w.clock, true),
                           EncodeCharge(w, e));
        }
      } else if e.SlotEncode? {
        ReplaceKeepsBudget(w, Step(w, Encoded(id, ok)), id);
      }
    }
  }

  lemma StepKeepsBudget(w: World, x: Action)
    requires WithinBudget(w)
    ensures WithinBudget(Step(w, x))
  {
    match x
    case SlotStart(id, slot) =>
      var v := w.(announced := Some(slot));
      assert Current(v) == Current(w);
      BeginKeepsBudget(v, id, slot);
    case Wake(id) => if id in w.tasks && w.tasks[id].Polling? { PollKeepsBudget(w, id, w.tasks[id].slot); }
    case Encoded(id, ok) => EncodedKeepsBudget(w, id, ok);
    case Ended(id) => FinishKeepsBudget(w, id);
    case Operate(e) => DeliverKeepsBudget(w, e);
    case Tick(d) => assert Current(w.(clock := w.clock + d)) == Current(w);
  }

  lemma {:induction false} RunKeepsBudget(w: World, xs: seq<Action>)
    requires WithinBudget(w)
    ensures WithinBudget(Run(w, xs))
  {
    if xs != [] {
      RunKeepsBudget(w, xs[..|xs| - 1]);
      StepKeepsBudget(Run(w, xs[..|xs| - 1]), xs[|xs| - 1]);
    }
  }

  /** An encode of an exchange message pulled before the last budget reset. */
  predicate Leftover(w: World, id: nat) {
    id in w.tasks && w.tasks[id].Encoding() && w.tasks[id].exchange && w.tasks[id].resets != w.resets
  }

  /** An encode that goes on the air when it comes back: a slot-start one, or a window one that still fits. */
  predicate WillAir(w: World, id: nat) {
    id in w.tasks && (w.tasks[id].SlotEncode? || (w.tasks[id].WindowEncode? && Fits(w, w.tasks[id].slot)))
  }

  /** At most one leftover has gone on the air since the reset, and after it no other will. */
  predicate OneLeftover(w: World) {
    w.carried <= 1 && (w.carried == 1 ==> forall id | id in w.tasks && Leftover(w, id) :: !WillAir(w, id))
  }

  lemma PollKeepsOneLeftover(w: World, id: nat, slot: int)
    requires OneLeftover(w)
    ensures OneLeftover(PollWindow(w, id, slot))
  {
  }

  lemma BeginKeepsOneLeftover(w: World, id: nat, slot: int)
    requires OneLeftover(w)
    ensures OneLeftover(PullOrWait(w, id, slot)) && OneLeftover(BeginSlot(w, id, slot))
  {
    PullOrWaitKeepsOneLeftover(w, id, slot);
    if w.pending.Some? {
      PullOrWaitKeepsOneLeftover(Deliver(w.(pending := None), SlotPulled), id, slot);
    }
  }

  lemma PullOrWaitKeepsOneLeftover(w: World, id: nat, slot: int)
    requires OneLeftover(w)
    ensures OneLeftover(PullOrWait(w, id, slot))
  {
    PollKeepsOneLeftover(Deliver(w, SlotPulled), id, slot);
  }

  lemma WindowEncodedKeepsOneLeftover(w: World, id: nat)
    requires Exclusive(w) && OneLeftover(w) && id in w.tasks && w.tasks[id].WindowEncode?
    ensures OneLeftover(WindowEncoded(w, id, w.tasks[id]))
  {
    var e := w.tasks[id];
    if Fits(w, e.slot) {
      OpenWindowIsNewest(w, id);
      var v := WindowEncoded(w, id, e);
      forall i | i in v.tasks && Leftover(v, i) ensures !WillAir(v, i) {
        EarlierSlotIsOver(w, w.tasks[i].slot, e.slot);
      }
    }
  }

  /** While one transmission holds the flag no window encode fits and no second slot-start encode exists. */
  lemma SlotEncodedKeepsOneLeftover(w: World, id: nat)
    requires Exclusive(w) && OneLeftover(w) && id in w.tasks && w.tasks[id].SlotEncode?
    ensures OneLeftover(Step(w, Encoded(id, true)))
  {
    var v := Step(w, Encoded(id, true));
    assert WillAir(w, id);
    forall i | i in v.tasks && Leftover(v, i) ensures !WillAir(v, i) {
      assert i != id && v.tasks[i] == w.tasks[i];
    }
  }

  lemma EncodedKeepsOneLeftover(w: World, id: nat, ok: bool)
    requires Exclusive(w) && OneLeftover(w)
    ensures OneLeftover(Step(w, Encoded(id, ok)))
  {
    if ok && id in w.tasks && w.tasks[id].WindowEncode? {
      WindowEncodedKeepsOneLeftover(w, id);
    } else if ok && id in w.tasks && w.tasks[id].SlotEncode? {
      SlotEncodedKeepsOneLeftover(w, id);
    }
  }

  lemma DeliverKeepsOneLeftover(w: World, e: Event)
    requires OneLeftover(w)
    ensures OneLeftover(Deliver(w, e))
  {
  }

  lemma StepKeepsOneLeftover(w: World, x: Action)
    requires Exclusive(w) && OneLeftover(w)
    ensures OneLeftover(Step(w, x))
  {
    match x
    case Operate(e) => DeliverKeepsOneLeftover(w, e);
    case SlotStart(id, slot) => BeginKeepsOneLeftover(w.(announced := Some(slot)), id, slot);
    case Wake(id) => if id in w.tasks && w.tasks[id].Polling? { PollKeepsOneLeftover(w, id, w.tasks[id].slot); }
    case Encoded(id, ok) => EncodedKeepsOneLeftover(w, id, ok);
    case _ =>
  }

  lemma {:induction false} RunKeepsOneLeftover(w: World, xs: seq<Action>)
    requires Exclusive(w) && OneLeftover(w)
    ensures OneLeftover(Run(w, xs))
  {
    if xs != [] {
      RunKeepsOneLeftover(w, xs[..|xs| - 1]);
      RunIsExclusive(w, xs[..|xs| - 1]);
      StepKeepsOneLeftover(Run(w, xs[..|xs| - 1]), xs[|xs| - 1]);
    }
  }

  /**
   * Of all exchange messages put on the air since the last budget reset, those pulled since then are at most those
   * offered, hence at most 1 + max; at most one was left over from before the reset, so there are at most 2 + max.
   */
  lemma TransmissionsWithinBudget(period: int, station: Station, xs: seq<Action>)
    requires station == NewStation(station.myCall, station.myGrid, station.maxRetransmissions) && 0 < period
    ensures var w := Run(NewWorld(period, station), xs);
            && w.aired - w.carried <= w.tally.offers <= 1 + w.station.maxRetransmissions && w.carried <= 1
            && w.aired <= 2 + w.station.maxRetransmissions
  {
    assert Current(NewWorld(period, station)) == {};
    RunKeepsBudget(NewWorld(period, station), xs);
    RunKeepsOneLeftover(NewWorld(period, station), xs);
  }

  lemma NoExtraInWindow(w: World, id: nat, slot: int)
    ensures PollWindow(w, id, slot).carried <= w.carried
  {
  }

  lemma NoExtraAtPull(w: World, id: nat, slot: int)
    ensures PullOrWait(w, id, slot).carried <= w.carried
  {
    NoExtraInWindow(Deliver(w, SlotPulled), id, slot);
  }

  lemma NoExtraAtSlotStart(w: World, id: nat, slot: int)
    ensures BeginSlot(w, id, slot).carried <= w.carried
  {
    NoExtraAtPull(w, id, slot);
    NoExtraAtPull(Deliver(w.(pending := None), SlotPulled), id, slot);
  }

  /** The extra one goes out exactly when the encode of a leftover comes back and takes it on the air. */
  lemma ExtraExactlyWhenLeftover(w: World, x: Action)
    ensures Step(w, x).carried > w.carried <==> x.Encoded? && x.ok && Leftover(w, x.id) && WillAir(w, x.id)
  {
    match x
    case SlotStart(id, slot) => NoExtraAtSlotStart(w.(announced := Some(slot)), id, slot);
    case Wake(id) => if id in w.tasks && w.tasks[id].Polling? { NoExtraInWindow(w, id, w.tasks[id].slot); }
    case _ =>
  }

  function LeftoverRun(msg: ParsedMessage, snr: int): seq<Action> {
    [SlotStart(0, 0)] + [Operate(ReplyPressed(msg, snr, 0, 1500, 0))] + [Wake(0)] + [Operate(CqPressed(1500))]
    + [Encoded(0, true)]
  }

  lemma IdleOpensWindow(period: int, station: Station)
    requires !station.txEnabled && WAVEFORM + FIT_MARGIN < period
    ensures Step(NewWorld(period, station), SlotStart(0, 0))
            == NewWorld(period, station).(announced := Some(0), tasks := map[0 := Polling(0)],
                                          tally := Step(NewWorld(period, station), SlotStart(0, 0)).tally,
                                          pulls := Step(NewWorld(period, station), SlotStart(0, 0)).pulls)
  {
    assert 0 * period == 0 && (0 + 1) * period == period;
  }

  lemma ReplyIsEncoded(w: World, msg: ParsedMessage, snr: int)
    requires w.clock == 0 && WAVEFORM + FIT_MARGIN < w.period && w.tasks == map[0 := Polling(0)] && msg.fromCall != ""
    ensures var v := Step(Step(w, Operate(ReplyPressed(msg, snr, 0, 1500, 0))), Wake(0));
            && v.clock == 0 && v.period == w.period && v.tasks.Keys == {0} && v.tasks[0].WindowEncode?
            && v.tasks[0].slot == 0 && v.tasks[0].exchange && v.tasks[0].resets == v.resets
  {
    assert 0 * w.period == 0 && (0 + 1) * w.period == w.period;
  }

  /** A reply pulled in the window, a CQ pressed while it is encoded: the reply goes out on the CQ's account. */
  lemma LeftoverGoesOut(period: int, station: Station, msg: ParsedMessage, snr: int)
    requires !station.txEnabled && WAVEFORM + FIT_MARGIN < period && msg.fromCall != ""
    ensures var w := Run(NewWorld(period, station), LeftoverRun(msg, snr));
            w.aired == 1 && w.carried == 1 && w.tally.offers == 0
  {
    var w0 := NewWorld(period, station);
    var xs := [SlotStart(0, 0)];
    assert [] + xs == xs;
    RunNext(w0, [], SlotStart(0, 0));
    IdleOpensWindow(period, station);
    RunNext(w0, xs, Operate(ReplyPressed(msg, snr, 0, 1500, 0)));
    xs := xs + [Operate(ReplyPressed(msg, snr, 0, 1500, 0))];
    RunNext(w0, xs, Wake(0));
    ReplyIsEncoded(Run(w0, [SlotStart(0, 0)]), msg, snr);
    xs := xs + [Wake(0)];
    var v := Run(w0, xs);
    RunNext(w0, xs, Operate(CqPressed(1500)));
    RunNext(w0, xs + [Operate(CqPressed(1500))], Encoded(0, true));
    ResetThenEncoded(v);
  }

  lemma ResetThenEncoded(v: World)
    requires v.clock == 0 && WAVEFORM + FIT_MARGIN < v.period && v.tasks.Keys == {0} && v.tasks[0].WindowEncode?
    requires v.tasks[0].slot == 0 && v.tasks[0].exchange && v.tasks[0].resets == v.resets
    ensures var w := Step(Step(v, Operate(CqPressed(1500))), Encoded(0, true));
            w.aired == 1 && w.carried == 1 && w.tally.offers == 0
  {
    assert (0 + 1) * v.period == v.period;
    var u := Step(v, Operate(CqPressed(1500)));
    assert u.resets == v.resets + 1 && u.aired == 0 && u.carried == 0 && u.tally.offers == 0;
  }

  function LateEncodeRun(msg: ParsedMessage, snr: int): seq<Action> {
    [Operate(ReplyPressed(msg, snr, 0, 1500, 0))] + [SlotStart(0, 0)] + [Operate(CqPressed(1500))] + [Encoded(0, true)]
  }

  lemma ReplyTakesSlot(w: World, msg: ParsedMessage, snr: int)
    requires w.tasks == map[] && !w.inFlight && w.pending == None && w.announced == None && w.clock == 0
    requires msg.fromCall != ""
    ensures var v := Step(Step(w, Operate(ReplyPressed(msg, snr, 0, 1500, 0))), SlotStart(0, 0));
            && v.tasks.Keys == {0} && v.tasks[0].SlotEncode? && v.tasks[0].exchange && v.tasks[0].resets == v.resets
  {
    assert 0 * w.period == 0;
  }

  /** Nor does it take the window: a reply pulled at slot start and still being encoded at the reset goes out too. */
  lemma LateEncodeGoesOut(period: int, station: Station, msg: ParsedMessage, snr: int)
    requires msg.fromCall != ""
    ensures var w := Run(NewWorld(period, station), LateEncodeRun(msg, snr));
            w.aired == 1 && w.carried == 1 && w.tally.offers == 0
  {
    var w0 := NewWorld(period, station);
    var xs := [Operate(ReplyPressed(msg, snr, 0, 1500, 0))];
    assert [] + xs == xs;
    RunNext(w0, [], Operate(ReplyPressed(msg, snr, 0, 1500, 0)));
    RunNext(w0, xs, SlotStart(0, 0));
    ReplyTakesSlot(w0, msg, snr);
    xs := xs + [SlotStart(0, 0)];
    RunNext(w0, xs, Operate(CqPressed(1500)));
    RunNext(w0, xs + [Operate(CqPressed(1500))], Encoded(0, true));
    CqThenEncoded(Run(w0, xs));
  }

  lemma CqThenEncoded(v: World)
    requires v.tasks.Keys == {0} && v.tasks[0].SlotEncode? && v.tasks[0].exchange && v.tasks[0].resets == v.resets
    ensures var w := Step(Step(v, Operate(CqPressed(1500))), Encoded(0, true));
            w.aired == 1 && w.carried == 1 && w.tally.offers == 0
  {
    var u := Step(v, Operate(CqPressed(1500)));
    assert u.resets == v.resets + 1 && u.aired == 0 && u.carried == 0 && u.tally.offers == 0;
  }
}
