/**
 * The slot-boundary transmit driver: every announced slot starts a coroutine, and several may be suspended at once.
 * Times are in hundredths of a second. An action runs one coroutine from one await to the next, delivers an
 * operator or receive event to the sequencer, or lets time pass.
 */
module Driver {
  import opened Prelude
  import opened Qso

  const DEFAULT_PERIOD := 1500
  const DECISION_CUTOFF := 500
  const WAVEFORM := 1264
  const FIT_MARGIN := 10

  /** What the sequencer answered to one pull, and the route in force at it. */
  datatype Offer = Offer(text: Option<string>, phase: int, frequency: int)

  /** A message chosen at pull number `pull`, with the parity in force there and the frequency of its waveform. */
  datatype Choice = Choice(message: string, phase: int, frequency: int, pull: int)

  /** A waveform kept for a later slot. */
  datatype Cached = Cached(message: string, frequency: int)

  datatype Await =
    | Polling(slot: int)
    | WindowEncode(slot: int, choice: Choice, exchange: bool, resets: nat)
    | SlotEncode(slot: int, choice: Choice, since: int, exchange: bool, resets: nat)
    | OnAir(slot: int, choice: Choice)
  {
    /** Inside `_transmit`, holding the in-flight flag. */
    predicate Active() { SlotEncode? || OnAir? }

    predicate Encoding() { WindowEncode? || SlotEncode? }
  }

  /** One entry into `_transmit`. */
  datatype Start = Start(slot: int, choice: Choice, at: int, fromWindow: bool)

  /** The instant a waveform is handed to the safety controller, which then keys the rig. */
  datatype Air = Air(slot: int, choice: Choice, at: int, fromWindow: bool)

  /**
   * The last seven fields record what happened. Since the last budget reset `aired` exchange messages went on the air;
   * `carried` of these had been pulled before that reset.
   */
  datatype World = World(
    period: int,
    station: Station,
    clock: int,
    inFlight: bool,
    pending: Option<Cached>,
    tasks: map<nat, Await>,
    announced: Option<int>,
    pulls: seq<Offer>,
    starts: seq<Start>,
    airs: seq<Air>,
    tally: Tally,
    resets: nat,
    aired: nat,
    carried: nat)

  datatype Action =
    | SlotStart(id: nat, slot: int)
    | Wake(id: nat)
    | Encoded(id: nat, ok: bool)
    | Ended(id: nat)
    | Operate(event: Event)
    | Tick(elapsed: nat)

  function NewWorld(period: int, station: Station): World {
    World(period, station, 0, false, None, map[], None, [], [], [], FRESH, 0, 0, 0)
  }

  // ---- segments --------------------------------------------------------

  function SlotEnd(w: World, slot: int): int { (slot + 1) * w.period }

  /** The whole waveform and the start margin still fit before the slot ends. */
  predicate Fits(w: World, slot: int) { w.clock + WAVEFORM + FIT_MARGIN < SlotEnd(w, slot) }

  /** Deliver an event to the sequencer; pulls are logged, and budget resets and offers counted, beside it. */
  function Deliver(w: World, e: Event): World {
    var reset := ResetsBudget(w.station, e);
    w.(station := Apply(w.station, e).0, tally := Count(w.tally, w.station, e),
       resets := if reset then w.resets + 1 else w.resets, aired := if reset then 0 else w.aired,
       carried := if reset then 0 else w.carried,
       pulls := if e.SlotPulled? then w.pulls + [Offer(Apply(w.station, e).1, w.station.txPhase, w.station.txFrequency)]
                else w.pulls)
  }

  function Pulled(w: World): (World, Option<string>) { (Deliver(w, SlotPulled), NextTx(w.station).1) }

  /** The text of the pull just made, to be encoded on the frequency in force. */
  function Chosen(v: World, text: string): Choice {
    Choice(text, v.station.txPhase, v.station.txFrequency, |v.pulls| - 1)
  }

  /** Whether a transmission counts against the retry budget, and for the present one or an earlier one. */
  datatype Charge = Free | Present | Earlier

  function HandOver(w: World, air: Air, charge: Charge): World {
    w.(airs := w.airs + [air], aired := if charge.Free? then w.aired else w.aired + 1,
       carried := if charge.Earlier? then w.carried + 1 else w.carried)
  }

  /** Hold the in-flight flag; a waveform already there goes straight on the air. */
  function EnterTransmit(w: World, id: nat, at: Await, start: Start, charge: Charge): World {
    var v := w.(inFlight := true, tasks := w.tasks[id := at], starts := w.starts + [start]);
    if at.OnAir? then HandOver(v, Air(start.slot, start.choice, start.at, start.fromWindow), charge) else v
  }

  /** What a message pulled in this very segment counts as. */
  function ChargeOf(before: Station): Charge { if before.state == Calling then Free else Present }

  /** What a message counts as when its encode comes back. */
  function EncodeCharge(w: World, e: Await): Charge
    requires e.WindowEncode? || e.SlotEncode?
  {
    if !e.exchange then Free else if e.resets == w.resets then Present else Earlier
  }

  function Finish(w: World, id: nat): World { w.(tasks := w.tasks - {id}) }

  /** The decision window: give up past the cutoff or the fit limit, else pull and encode, else sleep. */
  function PollWindow(w: World, id: nat, slot: int): World {
    if w.clock >= slot * w.period + DECISION_CUTOFF || !Fits(w, slot) then Finish(w, id)
    else
      var (v, text) := Pulled(w);
      if text == None then v.(tasks := v.tasks[id := Polling(slot)])
      else if slot % 2 != v.station.txPhase then Finish(v, id)
      else
        var exchange := w.station.state != Calling;
        v.(tasks := v.tasks[id := WindowEncode(slot, Chosen(v, text.value), exchange, v.resets)])
  }

  /** No cached waveform to reuse: take the sequencer's message now, or open the window. */
  function PullOrWait(w: World, id: nat, slot: int): World {
    var (v, text) := Pulled(w);
    if text == None then PollWindow(v, id, slot)
    else
      EnterTransmit(v, id, SlotEncode(slot, Chosen(v, text.value), v.clock, w.station.state != Calling, v.resets),
                    Start(slot, Chosen(v, text.value), v.clock, false), Free)
  }

  /** The text of the pull just made, in the waveform encoded earlier. */
  function FromCache(v: World, cached: Cached): Choice {
    Chosen(v, cached.message).(frequency := cached.frequency)
  }

  /** A cached waveform goes out only if the sequencer still offers that very message. */
  function ReuseOrDrop(w: World, id: nat, slot: int, cached: Cached): World {
    var (v, text) := Pulled(w);
    if text == Some(cached.message) then
      var choice := FromCache(v, cached);
      EnterTransmit(v, id, OnAir(slot, choice), Start(slot, choice, v.clock, false), ChargeOf(w.station))
    else PullOrWait(v, id, slot)
  }

  function BeginSlot(w: World, id: nat, slot: int): World {
    if w.inFlight then w
    else if w.station.txEnabled && slot % 2 != w.station.txPhase then w
    else if w.pending == None then PullOrWait(w, id, slot)
    else ReuseOrDrop(w.(pending := None), id, slot, w.pending.value)
  }

  /** A window encode came back: transmit if it still fits, else keep the waveform for the next eligible slot. */
  function WindowEncoded(w: World, id: nat, e: Await): World
    requires e.WindowEncode?
  {
    if Fits(w, e.slot) then
      EnterTransmit(w, id, OnAir(e.slot, e.choice), Start(e.slot, e.choice, w.clock, true), EncodeCharge(w, e))
    else Finish(w.(pending := Some(Cached(e.choice.message, e.choice.frequency))), id)
  }

  /** Slots are announced in increasing order, never before they begin. */
  predicate MayAnnounce(w: World, id: nat, slot: int) {
    id !in w.tasks && slot * w.period <= w.clock && (w.announced.Some? ==> w.announced.value < slot)
  }

  function Step(w: World, x: Action): World {
    match x
    case SlotStart(id, slot) =>
      if MayAnnounce(w, id, slot) then BeginSlot(w.(announced := Some(slot)), id, slot) else w
    case Wake(id) => if id in w.tasks && w.tasks[id].Polling? then PollWindow(w, id, w.tasks[id].slot) else w
    case Encoded(id, ok) =>
      if id !in w.tasks then w
      else if w.tasks[id].WindowEncode? then
        if ok then WindowEncoded(w, id, w.tasks[id]) else Finish(w, id)
      else if w.tasks[id].SlotEncode? then
        if ok then
          HandOver(w.(tasks := w.tasks[id := OnAir(w.tasks[id].slot, w.tasks[id].choice)]),
                   Air(w.tasks[id].slot, w.tasks[id].choice, w.clock, false), EncodeCharge(w, w.tasks[id]))
        else Finish(w.(inFlight := false), id)
      else w
    case Ended(id) => if id in w.tasks && w.tasks[id].OnAir? then Finish(w.(inFlight := false), id) else w
    case Operate(e) => if e.SlotPulled? then w else Deliver(w, e)
    case Tick(d) => w.(clock := w.clock + d)
  }

  function Run(w: World, xs: seq<Action>): World {
    if xs == [] then w else Step(Run(w, xs[..|xs| - 1]), xs[|xs| - 1])
  }

  // ---- mutual exclusion ------------------------------------------------

  predicate Exclusive(w: World) {
    && w.period > 0
    && (forall i, j | i in w.tasks && j in w.tasks && w.tasks[i].slot == w.tasks[j].slot :: i == j)
    && (forall i | i in w.tasks ::
          w.tasks[i].slot * w.period <= w.clock && w.announced.Some? && w.tasks[i].slot <= w.announced.value)
    && (forall i, j | i in w.tasks && j in w.tasks && w.tasks[i].Active() && w.tasks[j].Active() :: i == j)
    && (w.inFlight <==> exists i :: i in w.tasks && w.tasks[i].Active())
    && (w.inFlight ==> forall i | i in w.tasks && !w.tasks[i].Active() :: !Fits(w, w.tasks[i].slot))
  }

  lemma EarlierSlotIsOver(w: World, k: int, j: int)
    requires w.period > 0 && k < j && j * w.period <= w.clock
    ensures !Fits(w, k)
  {
    assert (k + 1) * w.period <= j * w.period by {
      assert (j - (k + 1)) * w.period >= 0;
    }
  }

  /** Coroutine `id` of `slot` is in time, and every other coroutine belongs to an earlier slot. */
  predicate Newest(w: World, id: nat, slot: int) {
    && slot * w.period <= w.clock && w.announced.Some? && slot <= w.announced.value
    && forall i | i in w.tasks && i != id :: w.tasks[i].slot < slot
  }

  lemma EnterKeepsExclusive(w: World, id: nat, at: Await, start: Start, charge: Charge)
    requires Exclusive(w) && !w.inFlight && at.Active() && Newest(w, id, at.slot)
    ensures Exclusive(EnterTransmit(w, id, at, start, charge))
  {
    var v := EnterTransmit(w, id, at, start, charge);
    assert id in v.tasks && v.tasks[id].Active();
    forall i | i in v.tasks && !v.tasks[i].Active() ensures !Fits(v, v.tasks[i].slot) {
      EarlierSlotIsOver(w, w.tasks[i].slot, at.slot);
    }
  }

  lemma WaitKeepsExclusive(w: World, id: nat, at: Await)
    requires Exclusive(w) && !w.inFlight && !at.Active() && Newest(w, id, at.slot)
    ensures Exclusive(w.(tasks := w.tasks[id := at]))
  {
  }

  lemma FinishKeepsExclusive(w: World, id: nat)
    requires Exclusive(w)
    ensures id !in w.tasks || !w.tasks[id].Active() ==> Exclusive(Finish(w, id))
    ensures id in w.tasks && w.tasks[id].Active() ==> Exclusive(Finish(w.(inFlight := false), id))
  {
    if w.inFlight && (id !in w.tasks || !w.tasks[id].Active()) {
      var k :| k in w.tasks && w.tasks[k].Active();
      assert k in Finish(w, id).tasks;
    }
  }

  lemma DeliverKeepsExclusive(w: World, e: Event)
    requires Exclusive(w)
    ensures Exclusive(Deliver(w, e))
  {
    var v := Deliver(w, e);
    assert forall slot :: Fits(v, slot) <==> Fits(w, slot);
    if w.inFlight {
      var k :| k in w.tasks && w.tasks[k].Active();
      assert k in v.tasks;
    }
  }

  /** While its window is open a coroutine is the newest and nobody is transmitting. */
  lemma OpenWindowIsNewest(w: World, id: nat)
    requires Exclusive(w) && id in w.tasks && !w.tasks[id].Active() && Fits(w, w.tasks[id].slot)
    ensures !w.inFlight && Newest(w, id, w.tasks[id].slot)
  {
    forall i | i in w.tasks && i != id ensures w.tasks[i].slot < w.tasks[id].slot {
      if w.tasks[id].slot < w.tasks[i].slot {
        EarlierSlotIsOver(w, w.tasks[id].slot, w.tasks[i].slot);
      }
    }
  }

  lemma PollKeepsExclusive(w: World, id: nat, slot: int)
    requires Exclusive(w) && (id in w.tasks ==> !w.tasks[id].Active())
    requires Fits(w, slot) ==> !w.inFlight && Newest(w, id, slot)
    ensures Exclusive(PollWindow(w, id, slot))
  {
    FinishKeepsExclusive(w, id);
    if Fits(w, slot) {
      DeliverKeepsExclusive(w, SlotPulled);
      PolledKeepsExclusive(w, Deliver(w, SlotPulled), id, slot);
    }
  }

  /** The three ways a polled window goes on, whatever the sequencer answered. */
  lemma PolledKeepsExclusive(w: World, v: World, id: nat, slot: int)
    requires Exclusive(v) && (id in v.tasks ==> !v.tasks[id].Active()) && !w.inFlight && Newest(w, id, slot)
    requires v == w.(station := v.station, tally := v.tally, resets := v.resets, aired := v.aired,
                     carried := v.carried, pulls := v.pulls)
    ensures Exclusive(Finish(v, id)) && Exclusive(v.(tasks := v.tasks[id := Polling(slot)]))
    ensures forall c, e, r :: Exclusive(v.(tasks := v.tasks[id := WindowEncode(slot, c, e, r)]))
  {
    FinishKeepsExclusive(v, id);
    WaitKeepsExclusive(v, id, Polling(slot));
    forall c, e, r ensures Exclusive(v.(tasks := v.tasks[id := WindowEncode(slot, c, e, r)])) {
      WaitKeepsExclusive(v, id, WindowEncode(slot, c, e, r));
    }
  }

  lemma PullOrWaitKeepsExclusive(w: World, id: nat, slot: int)
    requires Exclusive(w) && !w.inFlight && id !in w.tasks && Newest(w, id, slot)
    ensures Exclusive(PullOrWait(w, id, slot))
  {
    var (v, text) := Pulled(w);
    DeliverKeepsExclusive(w, SlotPulled);
    if text == None {
      PollKeepsExclusive(v, id, slot);
    } else {
      EnterKeepsExclusive(v, id, SlotEncode(slot, Chosen(v, text.value), v.clock, w.station.state != Calling, v.resets),
                          Start(slot, Chosen(v, text.value), v.clock, false), Free);
    }
  }

  lemma ForgettingKeepsExclusive(w: World)
    requires Exclusive(w)
    ensures Exclusive(w.(pending := None))
  {
    var u := w.(pending := None);
    assert forall slot :: Fits(u, slot) <==> Fits(w, slot);
    if w.inFlight {
      var k :| k in w.tasks && w.tasks[k].Active();
      assert k in u.tasks;
    }
  }

  lemma CachedKeepsExclusive(u: World, id: nat, slot: int, cached: Cached)
    requires Exclusive(u) && !u.inFlight && id !in u.tasks && Newest(u, id, slot)
    ensures Exclusive(ReuseOrDrop(u, id, slot, cached))
  {
    DeliverKeepsExclusive(u, SlotPulled);
    CacheTaken(u, Deliver(u, SlotPulled), id, slot, FromCache(Deliver(u, SlotPulled), cached));
  }

  lemma CacheTaken(u: World, v: World, id: nat, slot: int, choice: Choice)
    requires v == Deliver(u, SlotPulled) && Exclusive(v) && !u.inFlight && id !in u.tasks && Newest(u, id, slot)
    ensures Exclusive(PullOrWait(v, id, slot))
    ensures Exclusive(EnterTransmit(v, id, OnAir(slot, choice), Start(slot, choice, v.clock, false),
                                    ChargeOf(u.station)))
  {
    PullOrWaitKeepsExclusive(v, id, slot);
    EnterKeepsExclusive(v, id, OnAir(slot, choice), Start(slot, choice, v.clock, false), ChargeOf(u.station));
  }

  lemma BeginKeepsExclusive(w: World, id: nat, slot: int)
    requires Exclusive(w) && id !in w.tasks && Newest(w, id, slot)
    ensures Exclusive(BeginSlot(w, id, slot))
  {
    if !w.inFlight {
      PullOrWaitKeepsExclusive(w, id, slot);
      if w.pending.Some? {
        ForgettingKeepsExclusive(w);
        CachedKeepsExclusive(w.(pending := None), id, slot, w.pending.value);
      }
    }
  }

  lemma AnnounceKeepsExclusive(w: World, id: nat, slot: int)
    requires Exclusive(w) && MayAnnounce(w, id, slot)
    ensures var v := w.(announced := Some(slot));
            Exclusive(v) && Newest(v, id, slot)
  {
    var v := w.(announced := Some(slot));
    if w.inFlight {
      var k :| k in w.tasks && w.tasks[k].Active();
      assert k in v.tasks;
    }
    assert forall k :: Fits(v, k) <==> Fits(w, k);
  }

  lemma WindowEncodedKeepsExclusive(w: World, id: nat)
    requires Exclusive(w) && id in w.tasks && w.tasks[id].WindowEncode?
    ensures Exclusive(WindowEncoded(w, id, w.tasks[id]))
  {
    var e := w.tasks[id];
    if Fits(w, e.slot) {
      OpenWindowIsNewest(w, id);
      EnterKeepsExclusive(w, id, OnAir(e.slot, e.choice), Start(e.slot, e.choice, w.clock, true), EncodeCharge(w, e));
    } else {
      var v := w.(pending := Some(Cached(e.choice.message, e.choice.frequency)));
      assert Exclusive(v);
      FinishKeepsExclusive(v, id);
    }
  }

  lemma SlotEncodedKeepsExclusive(w: World, id: nat)
    requires Exclusive(w) && id in w.tasks && w.tasks[id].SlotEncode?
    ensures Exclusive(Step(w, Encoded(id, true)))
  {
    var at := OnAir(w.tasks[id].slot, w.tasks[id].choice);
    ReplaceKeepsExclusive(w, Step(w, Encoded(id, true)), id, at);
  }

  lemma ReplaceKeepsExclusive(w: World, v: World, id: nat, at: Await)
    requires Exclusive(w) && id in w.tasks && w.tasks[id].Active() && at.Active() && at.slot == w.tasks[id].slot
    requires v.tasks == w.tasks[id := at] && v.inFlight == w.inFlight
    requires v.period == w.period && v.clock == w.clock && v.announced == w.announced
    ensures Exclusive(v)
  {
    assert id in v.tasks && v.tasks[id].Active();
  }

  lemma EncodedKeepsExclusive(w: World, id: nat, ok: bool)
    requires Exclusive(w)
    ensures Exclusive(Step(w, Encoded(id, ok)))
  {
    if id in w.tasks {
      if ok && w.tasks[id].WindowEncode? {
        WindowEncodedKeepsExclusive(w, id);
      } else if ok && w.tasks[id].SlotEncode? {
        SlotEncodedKeepsExclusive(w, id);
      } else if !ok {
        FinishKeepsExclusive(w, id);
      }
    }
  }

  lemma StepKeepsExclusive(w: World, x: Action)
    requires Exclusive(w)
    ensures Exclusive(Step(w, x))
  {
    match x
    case SlotStart(id, slot) =>
      if MayAnnounce(w, id, slot) {
        AnnounceKeepsExclusive(w, id, slot);
        BeginKeepsExclusive(w.(announced := Some(slot)), id, slot);
      }
    case Wake(id) =>
      if id in w.tasks && w.tasks[id].Polling? {
        if Fits(w, w.tasks[id].slot) {
          OpenWindowIsNewest(w, id);
        }
        PollKeepsExclusive(w, id, w.tasks[id].slot);
      }
    case Encoded(id, ok) => EncodedKeepsExclusive(w, id, ok);
    case Ended(id) => FinishKeepsExclusive(w, id);
    case Operate(e) => DeliverKeepsExclusive(w, e);
    case Tick(d) => TickKeepsExclusive(w, d);
  }

  lemma TickKeepsExclusive(w: World, elapsed: nat)
    requires Exclusive(w)
    ensures Exclusive(Step(w, Tick(elapsed)))
  {
    var v := Step(w, Tick(elapsed));
    assert forall slot :: !Fits(w, slot) ==> !Fits(v, slot);
    if w.inFlight {
      var k :| k in w.tasks && w.tasks[k].Active();
      assert k in v.tasks;
    }
  }

  lemma {:induction false} RunIsExclusive(w: World, xs: seq<Action>)
    requires Exclusive(w)
    ensures Exclusive(Run(w, xs))
  {
    if xs != [] {
      RunIsExclusive(w, xs[..|xs| - 1]);
      StepKeepsExclusive(Run(w, xs[..|xs| - 1]), xs[|xs| - 1]);
    }
  }

  /** In every interleaving at most one coroutine is inside `_transmit`, window encodes notwithstanding. */
  lemma OneTransmissionAtATime(period: int, station: Station, xs: seq<Action>, i: nat, j: nat)
    requires period > 0
    ensures var w := Run(NewWorld(period, station), xs);
            i in w.tasks && j in w.tasks && w.tasks[i].Active() && w.tasks[j].Active() ==> i == j && w.inFlight
  {
    RunIsExclusive(NewWorld(period, station), xs);
  }
}
