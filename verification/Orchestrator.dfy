/**
 * The slot loop. Times count any whole unit since the epoch. An action runs the loop from one await to the next,
 * stops it, delivers an operator or transmit event to the shared sequencer, or lets time pass.
 */
module Slots {
  import opened Prelude
  import opened MsgParse
  import opened Qso

  const SLOT_BYTES := 360000

  datatype Config = Config(period: int, cutoff: int, grace: int, poll: int)

  /** What the constructor insists on. */
  predicate ValidConfig(c: Config) { 0 < c.cutoff < c.period && 0 <= c.grace && 0 < c.poll }

  function SlotId(epoch: int, period: int): int
    requires 0 < period
  {
    epoch / period
  }

  function SlotStart(slot: int, period: int): int { slot * period }

  /** Slots tile the time line: an instant lies in the slot it is assigned to. */
  lemma SlotHoldsEpoch(epoch: int, period: int)
    requires 0 < period
    ensures var s := SlotId(epoch, period); SlotStart(s, period) <= epoch < SlotStart(s + 1, period)
  {
    var s := SlotId(epoch, period);
    assert (s + 1) * period == s * period + period;
  }

  lemma LaterSlotStartsLater(s: int, t: int, period: int)
    requires 0 < period && s < t
    ensures SlotStart(s + 1, period) <= SlotStart(t, period)
  {
    ProductGrows(s + 1, t, period);
  }

  /** Past a slot's start only that slot or a later one is current. */
  lemma SlotIdReaches(epoch: int, slot: int, period: int)
    requires 0 < period && SlotStart(slot, period) <= epoch
    ensures slot <= SlotId(epoch, period)
  {
    SlotHoldsEpoch(epoch, period);
    if SlotId(epoch, period) < slot {
      LaterSlotStartsLater(SlotId(epoch, period), slot, period);
    }
  }

  /** An instant from a slot's start up to the next one's lies in that slot. */
  lemma SlotIdIs(epoch: int, slot: int, period: int)
    requires 0 < period && SlotStart(slot, period) <= epoch < SlotStart(slot + 1, period)
    ensures SlotId(epoch, period) == slot
  {
    SlotIdReaches(epoch, slot, period);
    SlotHoldsEpoch(epoch, period);
    if slot < SlotId(epoch, period) {
      LaterSlotStartsLater(slot, SlotId(epoch, period), period);
    }
  }

  datatype Heard = Heard(text: string, snr: int)

  datatype Outcome = Raised | Batch(slot: int, results: seq<Heard>)

  datatype SlotDecode = SlotDecode(
    slot: int, boundary: int, dispatched: int, finished: int, late: bool, results: seq<Heard>)

  /** What reached the sequencer: somebody else's event, or a batch of this loop. */
  datatype Input = Operated(event: Event) | Delivered(decode: SlotDecode)

  datatype Announcement = Announcement(slot: int, at: int)

  datatype Await =
    | Returned
    | Head
    | Sleeping(slot: int, boundary: int)
    | Polling(slot: int, boundary: int, polls: nat, until: int)
    | Decoding(slot: int, boundary: int, dispatched: int)
  {
    /** A slot has been announced and its end not yet accounted for. */
    predicate Open() { Sleeping? || Polling? || Decoding? }
  }

  datatype Counters = Counters(started: nat, skipped: nat, decodes: nat, misses: nat, errors: nat)

  /**
   * The last five fields record what happened: `abandoned` counts slots cut short by a stop or a wrong buffer size,
   * `reentered` the turns that found their slot already announced.
   */
  datatype World = World(
    config: Config,
    running: bool,
    announced: Option<int>,
    counters: Counters,
    station: Station,
    at: Await,
    clock: int,
    announcements: seq<Announcement>,
    decodes: seq<SlotDecode>,
    inputs: seq<Input>,
    abandoned: nat,
    reentered: nat)

  datatype Action =
    | Begin
    | Halt
    | Turn
    | Wake(samples: Option<nat>)
    | Decoded(outcome: Outcome)
    | Operate(event: Event)
    | Tick(elapsed: nat)

  function NewWorld(config: Config, station: Station, clock: int): World {
    World(config, false, None, Counters(0, 0, 0, 0, 0), station, Returned, clock, [], [], [], 0, 0)
  }

  // ---- segments --------------------------------------------------------

  /** Hand a batch to the sequencer, message by message. */
  function FeedAll(s: Station, results: seq<Heard>, now: int): Station {
    if results == [] then s
    else
      var last := results[|results| - 1];
      OnMessage(FeedAll(s, results[..|results| - 1], now), Parse(last.text), Some(last.snr), now)
  }

  function Announced(w: World, slot: int): World {
    if w.announced == Some(slot) then w.(reentered := w.reentered + 1)
    else w.(announced := Some(slot), counters := w.counters.(started := w.counters.started + 1),
            announcements := w.announcements + [Announcement(slot, w.clock)])
  }

  function TurnLoop(w: World): World
    requires 0 < w.config.period
  {
    if !w.running then w.(at := Returned)
    else
      var slot := SlotId(w.clock, w.config.period);
      Announced(w, slot).(at := Sleeping(slot, SlotStart(slot + 1, w.config.period)))
  }

  function Abandon(w: World): World { w.(at := Returned, abandoned := w.abandoned + 1) }

  /** One poll of the slot source: dispatch, fail on a wrong size, give up past the grace, or sleep again. */
  function PollSource(w: World, slot: int, boundary: int, polls: nat, samples: Option<nat>): World {
    var deadline := boundary + w.config.grace;
    match samples
    case Some(n) => if n != SLOT_BYTES then Abandon(w) else w.(at := Decoding(slot, boundary, w.clock))
    case None =>
      if w.clock >= deadline then w.(at := Head, counters := w.counters.(skipped := w.counters.skipped + 1))
      else w.(at := Polling(slot, boundary, polls + 1, Min(w.clock + w.config.poll, deadline)))
  }

  function WakeUp(w: World, samples: Option<nat>): World {
    match w.at
    case Sleeping(slot, boundary) => if !w.running then Abandon(w) else PollSource(w, slot, boundary, 0, samples)
    case Polling(slot, boundary, polls, _) => PollSource(w, slot, boundary, polls, samples)
    case _ => w
  }

  function Failed(w: World): World { w.(at := Head, counters := w.counters.(errors := w.counters.errors + 1)) }

  /** A late batch is only counted and shown; one in time also goes to the sequencer. */
  function Finished(w: World, d: SlotDecode): World {
    var c := w.counters;
    if d.late then
      w.(at := Head, decodes := w.decodes + [d], counters := c.(decodes := c.decodes + 1, misses := c.misses + 1))
    else
      w.(at := Head, decodes := w.decodes + [d], counters := c.(decodes := c.decodes + 1),
         station := FeedAll(w.station, d.results, d.finished), inputs := w.inputs + [Delivered(d)])
  }

  function DecodeDone(w: World, outcome: Outcome): World {
    match w.at
    case Decoding(slot, boundary, dispatched) =>
      if outcome.Raised? || outcome.slot != slot then Failed(w)
      else
        var late := w.clock > boundary + w.config.cutoff;
        Finished(w, SlotDecode(slot, boundary, dispatched, w.clock, late, outcome.results))
    case _ => w
  }

  function Step(w: World, x: Action): World
    requires 0 < w.config.period
  {
    match x
    case Begin => if w.at.Returned? then w.(running := true, at := Head) else w
    case Halt => w.(running := false)
    case Turn => if w.at.Head? then TurnLoop(w) else w
    case Wake(samples) => WakeUp(w, samples)
    case Decoded(outcome) => DecodeDone(w, outcome)
    case Operate(e) => w.(station := Apply(w.station, e).0, inputs := w.inputs + [Operated(e)])
    case Tick(d) => w.(clock := w.clock + d)
  }

  function Run(w: World, xs: seq<Action>): (v: World)
    requires 0 < w.config.period
    ensures v.config == w.config
  {
    if xs == [] then w else Step(Run(w, xs[..|xs| - 1]), xs[|xs| - 1])
  }

  /** Sleeps never end early. */
  predicate Punctual(w: World, x: Action) {
    x.Wake? ==>
      && (w.at.Sleeping? ==> w.at.boundary <= w.clock)
      && (w.at.Polling? ==> w.at.until <= w.clock)
  }

  predicate PunctualRun(w: World, xs: seq<Action>)
    requires 0 < w.config.period
  {
    xs == [] || (PunctualRun(w, xs[..|xs| - 1]) && Punctual(Run(w, xs[..|xs| - 1]), xs[|xs| - 1]))
  }

  // ---- what holds after every segment ------------------------------------

  predicate Increasing(s: seq<Announcement>) {
    forall i, j | 0 <= i < j < |s| :: s[i].slot < s[j].slot
  }

  predicate DecodesIncrease(s: seq<SlotDecode>) {
    forall i, j | 0 <= i < j < |s| :: s[i].slot < s[j].slot
  }

  /** Announced inside the slot, never before it begins. */
  predicate AnnouncedInSlot(c: Config, a: Announcement) {
    SlotStart(a.slot, c.period) <= a.at < SlotStart(a.slot + 1, c.period)
  }

  /** Dispatched after the slot ended, and late exactly when finished past its end plus the cutoff. */
  predicate DecodedAfterSlot(c: Config, d: SlotDecode) {
    && d.boundary == SlotStart(d.slot + 1, c.period)
    && d.boundary <= d.dispatched <= d.finished
    && (d.late <==> d.finished > d.boundary + c.cutoff)
  }

  function LateCount(s: seq<SlotDecode>): nat {
    if s == [] then 0 else LateCount(s[..|s| - 1]) + (if s[|s| - 1].late then 1 else 0)
  }

  /** The batches that were in time, in order. */
  function InTime(s: seq<SlotDecode>): seq<SlotDecode> {
    if s == [] then []
    else InTime(s[..|s| - 1]) + (if s[|s| - 1].late then [] else [s[|s| - 1]])
  }

  function DeliveredIn(inputs: seq<Input>): seq<SlotDecode> {
    if inputs == [] then []
    else
      var last := inputs[|inputs| - 1];
      DeliveredIn(inputs[..|inputs| - 1]) + (if last.Delivered? then [last.decode] else [])
  }

  predicate AnnouncementsFit(c: Config, log: seq<Announcement>, announced: Option<int>) {
    && Increasing(log)
    && (forall i | 0 <= i < |log| :: AnnouncedInSlot(c, log[i]))
    && announced == if log == [] then None else Some(log[|log| - 1].slot)
  }

  predicate DecodesFit(c: Config, log: seq<SlotDecode>) {
    && DecodesIncrease(log)
    && (forall i | 0 <= i < |log| :: DecodedAfterSlot(c, log[i]))
  }

  predicate Logged(w: World) {
    AnnouncementsFit(w.config, w.announcements, w.announced) && DecodesFit(w.config, w.decodes)
  }

  /** Every turn that announces or re-enters a slot ends in a skip, a decode, an error or an abandoned slot. */
  predicate Balanced(w: World) {
    var c := w.counters;
    c.started + w.reentered == c.skipped + c.decodes + c.errors + w.abandoned + (if w.at.Open() then 1 else 0)
  }

  predicate Accounted(w: World) {
    var c := w.counters;
    && c.started == |w.announcements| && c.decodes == |w.decodes| && c.misses == LateCount(w.decodes)
    && Balanced(w)
  }

  /** After `k` unsuccessful polls at least `k - 1` full intervals of the grace have passed. */
  predicate PollsSpaced(c: Config, at: Await, clock: int)
    requires at.Polling?
  {
    && at.polls > 0
    && at.boundary + (at.polls - 1) * c.poll < at.boundary + c.grace
    && (at.until == at.boundary + c.grace || at.boundary + at.polls * c.poll <= at.until)
  }

  predicate Placed(w: World) {
    && (w.at.Open() ==>
      && w.announced == Some(w.at.slot)
      && w.at.boundary == SlotStart(w.at.slot + 1, w.config.period)
      && (w.decodes != [] ==> w.decodes[|w.decodes| - 1].slot < w.at.slot))
    && (w.at.Polling? || w.at.Decoding? ==> w.at.boundary <= w.clock)
    && (w.at.Polling? ==> PollsSpaced(w.config, w.at, w.clock))
    && (w.at.Decoding? ==> w.at.boundary <= w.at.dispatched <= w.clock)
    && (!w.at.Open() && w.announced.Some? ==> SlotStart(w.announced.value + 1, w.config.period) <= w.clock)
    && (w.decodes != [] ==> w.announced.Some? && w.decodes[|w.decodes| - 1].slot <= w.announced.value)
  }

  predicate Sound(w: World) { ValidConfig(w.config) && Logged(w) && Accounted(w) && Placed(w) && w.reentered == 0 }

  lemma TurnMovesOn(w: World)
    requires Sound(w) && w.at.Head? && w.running
    ensures var slot := SlotId(w.clock, w.config.period);
            && w.announced != Some(slot)
            && (w.announced.Some? ==> w.announced.value < slot)
            && AnnouncedInSlot(w.config, Announcement(slot, w.clock))
  {
    SlotHoldsEpoch(w.clock, w.config.period);
    if w.announced.Some? {
      SlotIdReaches(w.clock, w.announced.value + 1, w.config.period);
    }
  }

  /** The log with one more announcement, later than all before. */
  lemma TurnKeepsLogged(w: World, slot: int)
    requires Logged(w) && w.announced != Some(slot) && (w.announced.Some? ==> w.announced.value < slot)
    requires AnnouncedInSlot(w.config, Announcement(slot, w.clock))
    ensures Logged(Announced(w, slot))
  {
  }

  lemma TurnKeepsSound(w: World)
    requires Sound(w) && w.at.Head?
    ensures Sound(TurnLoop(w))
  {
    if w.running {
      var slot := SlotId(w.clock, w.config.period);
      TurnMovesOn(w);
      TurnKeepsLogged(w, slot);
    }
  }

  lemma PollIsSpaced(w: World)
    requires ValidConfig(w.config) && w.at.Polling? && PollsSpaced(w.config, w.at, w.clock) && w.at.until <= w.clock
    ensures var v := PollSource(w, w.at.slot, w.at.boundary, w.at.polls, None);
            v.at.Polling? ==> PollsSpaced(v.config, v.at, v.clock)
  {
    var k := w.at.polls;
    assert (k + 1) * w.config.poll == k * w.config.poll + w.config.poll;
  }

  lemma WakeKeepsPlaced(w: World, samples: Option<nat>)
    requires ValidConfig(w.config) && Placed(w) && Punctual(w, Wake(samples))
    ensures Placed(WakeUp(w, samples))
  {
    if w.at.Polling? {
      PollIsSpaced(w);
    }
  }

  lemma WakeKeepsSound(w: World, samples: Option<nat>)
    requires Sound(w) && Punctual(w, Wake(samples))
    ensures Sound(WakeUp(w, samples))
  {
    WakeKeepsPlaced(w, samples);
    WakeOnlyWaits(w, samples);
  }

  lemma WakeOnlyWaits(w: World, samples: Option<nat>)
    ensures var v, c, d := WakeUp(w, samples), w.counters, WakeUp(w, samples).counters;
            && v.announcements == w.announcements && v.decodes == w.decodes && v.announced == w.announced
            && v.config == w.config && v.reentered == w.reentered && v.clock == w.clock
            && d.started == c.started && d.decodes == c.decodes && d.misses == c.misses
            && (Balanced(w) ==> Balanced(v))
  {
  }

  lemma OneMoreDecode(ds: seq<SlotDecode>, d: SlotDecode)
    ensures LateCount(ds + [d]) == LateCount(ds) + (if d.late then 1 else 0)
    ensures InTime(ds + [d]) == InTime(ds) + (if d.late then [] else [d])
  {
    assert (ds + [d])[..|ds|] == ds;
  }

  lemma DecodesStillFit(c: Config, ds: seq<SlotDecode>, d: SlotDecode)
    requires DecodesFit(c, ds) && DecodedAfterSlot(c, d)
    requires ds != [] ==> ds[|ds| - 1].slot < d.slot
    ensures DecodesFit(c, ds + [d])
  {
    var log := ds + [d];
    forall i, j | 0 <= i < j < |log| ensures log[i].slot < log[j].slot {
      if j == |ds| {
        assert ds[i].slot <= ds[|ds| - 1].slot;
      }
    }
  }

  lemma FinishedKeepsLogged(w: World, d: SlotDecode)
    requires Logged(w) && DecodedAfterSlot(w.config, d)
    requires w.decodes != [] ==> w.decodes[|w.decodes| - 1].slot < d.slot
    ensures Logged(Finished(w, d))
  {
    DecodesStillFit(w.config, w.decodes, d);
  }

  lemma FinishedKeepsAccounted(w: World, d: SlotDecode)
    requires Accounted(w) && w.at.Decoding?
    ensures Accounted(Finished(w, d))
  {
    OneMoreDecode(w.decodes, d);
  }

  lemma FinishedKeepsPlaced(w: World, d: SlotDecode)
    requires Placed(w) && w.at.Decoding? && d.slot == w.at.slot
    ensures Placed(Finished(w, d))
  {
  }

  lemma DecodeKeepsSound(w: World, outcome: Outcome)
    requires Sound(w)
    ensures Sound(DecodeDone(w, outcome))
  {
    if w.at.Decoding? && outcome.Batch? && outcome.slot == w.at.slot {
      var late := w.clock > w.at.boundary + w.config.cutoff;
      var d := SlotDecode(w.at.slot, w.at.boundary, w.at.dispatched, w.clock, late, outcome.results);
      FinishedKeepsLogged(w, d);
      FinishedKeepsAccounted(w, d);
      FinishedKeepsPlaced(w, d);
    }
  }

  lemma StepKeepsSound(w: World, x: Action)
    requires Sound(w) && Punctual(w, x)
    ensures Sound(Step(w, x))
  {
    match x
    case Turn => if w.at.Head? { TurnKeepsSound(w); }
    case Wake(samples) => WakeKeepsSound(w, samples);
    case Decoded(outcome) => DecodeKeepsSound(w, outcome);
    case _ =>
  }

  /** With a clock that never goes back and sleeps that never end early, every reachable state is sound. */
  lemma {:induction false} RunIsSound(config: Config, station: Station, clock: int, xs: seq<Action>)
    requires ValidConfig(config) && PunctualRun(NewWorld(config, station, clock), xs)
    ensures Sound(Run(NewWorld(config, station, clock), xs))
  {
    if xs != [] {
      RunIsSound(config, station, clock, xs[..|xs| - 1]);
      StepKeepsSound(Run(NewWorld(config, station, clock), xs[..|xs| - 1]), xs[|xs| - 1]);
    }
  }

  /** Slot ids only grow, and at the head of the loop every announced slot has been accounted for. */
  lemma SlotsAccounted(config: Config, station: Station, clock: int, xs: seq<Action>)
    requires ValidConfig(config) && PunctualRun(NewWorld(config, station, clock), xs)
    ensures var w := Run(NewWorld(config, station, clock), xs);
            && Increasing(w.announcements) && DecodesIncrease(w.decodes)
            && (forall i | 0 <= i < |w.announcements| :: AnnouncedInSlot(config, w.announcements[i]))
            && w.counters.misses == LateCount(w.decodes)
            && (w.at.Head? ==>
              w.counters.started == w.counters.skipped + w.counters.decodes + w.counters.errors + w.abandoned)
  {
    RunIsSound(config, station, clock, xs);
  }

  /** A slot that never lands is given up: the number of polls is bounded by the grace over the poll interval. */
  lemma PollingIsBounded(config: Config, station: Station, clock: int, xs: seq<Action>)
    requires ValidConfig(config) && PunctualRun(NewWorld(config, station, clock), xs)
    ensures var w := Run(NewWorld(config, station, clock), xs);
            w.at.Polling? ==> w.at.polls <= config.grace / config.poll + 1
  {
    RunIsSound(config, station, clock, xs);
    var w := Run(NewWorld(config, station, clock), xs);
    if w.at.Polling? {
      BoundedQuotient(w.at.polls - 1, config.grace, config.poll);
    }
  }

  lemma BoundedQuotient(k: nat, total: int, step: int)
    requires 0 < step && k * step < total
    ensures k <= total / step
  {
    var q := total / step;
    assert (q + 1) * step == q * step + step > total;
    if q < k {
      ProductGrows(q + 1, k, step);
    }
  }

  // ---- how a slot ends --------------------------------------------------------

  predicate Waiting(w: World) { w.at.Sleeping? || w.at.Polling? }

  predicate StoppedAsleep(w: World) { w.at.Sleeping? && !w.running }

  /**
   * A wait for a slot's samples ends in a decode exactly when they are there in full, abandons the slot exactly when
   * the loop was stopped before the slot ended or the samples have a wrong size, and skips it exactly when none have
   * come by the end of the grace; else it looks again after an interval, or at the end of the grace if that is sooner.
   */
  lemma WaitEndsExactlyWhen(w: World, samples: Option<nat>)
    requires 0 < w.config.period && Waiting(w)
    ensures var v := Step(w, Wake(samples));
            var deadline := w.at.boundary + w.config.grace;
            && (v.at.Decoding? <==> !StoppedAsleep(w) && samples == Some(SLOT_BYTES))
            && (v.abandoned == w.abandoned + 1
                <==> StoppedAsleep(w) || (samples.Some? && samples.value != SLOT_BYTES))
            && (v.counters.skipped == w.counters.skipped + 1
                <==> !StoppedAsleep(w) && samples.None? && w.clock >= deadline)
            && (v.at.Polling? <==> !StoppedAsleep(w) && samples.None? && w.clock < deadline)
            && (v.at.Polling? ==> v.at.until <= deadline && v.at.until <= w.clock + w.config.poll
                                  && v.at.until in {deadline, w.clock + w.config.poll})
  {
  }

  /**
   * A decode counts as an error exactly when it raised or answered for another slot, and then reaches nobody;
   * otherwise its very results are recorded, as late exactly when they came after the cutoff.
   */
  lemma DecodeEndsExactlyWhen(w: World, outcome: Outcome)
    requires 0 < w.config.period && w.at.Decoding?
    ensures var v := Step(w, Decoded(outcome));
            var good := outcome.Batch? && outcome.slot == w.at.slot;
            var late := w.clock > w.at.boundary + w.config.cutoff;
            && v.at.Head?
            && v.counters.errors == w.counters.errors + (if good then 0 else 1)
            && v.counters.decodes == w.counters.decodes + (if good then 1 else 0)
            && v.counters.misses == w.counters.misses + (if good && late then 1 else 0)
            && (!good ==> v.station == w.station && v.decodes == w.decodes && v.inputs == w.inputs)
            && (good ==> v.decodes == w.decodes + [SlotDecode(w.at.slot, w.at.boundary, w.at.dispatched, w.clock, late,
                                                              outcome.results)])
  {
  }

  // ---- what reaches the sequencer ------------------------------------------

  /** A batch as the sequencer is to hear it: each text parsed, with its own signal, at the time it was finished. */
  function MessagesOf(results: seq<Heard>, now: int): seq<Event> {
    seq(|results|, i requires 0 <= i < |results| => Event.Heard(Parse(results[i].text), Some(results[i].snr), now))
  }

  /** Everything the sequencer was given, in order. */
  function EventsOf(inputs: seq<Input>): seq<Event> {
    if inputs == [] then []
    else
      EventsOf(inputs[..|inputs| - 1])
      + match inputs[|inputs| - 1]
        case Operated(e) => [e]
        case Delivered(d) => MessagesOf(d.results, d.finished)
  }

  lemma {:induction false} AfterBoth(s: Station, es: seq<Event>, more: seq<Event>)
    ensures After(s, es + more) == After(After(s, es), more)
  {
    if more == [] {
      assert es + more == es;
    } else {
      AfterBoth(s, es, more[..|more| - 1]);
      assert (es + more)[..|es + more| - 1] == es + more[..|more| - 1];
    }
  }

  lemma {:induction false} FeedIsRun(s: Station, results: seq<Heard>, now: int)
    ensures FeedAll(s, results, now) == After(s, MessagesOf(results, now))
  {
    if results != [] {
      FeedIsRun(s, results[..|results| - 1], now);
      var es := MessagesOf(results, now);
      assert es[..|es| - 1] == MessagesOf(results[..|results| - 1], now);
    }
  }

  lemma OneMoreInput(s: Station, inputs: seq<Input>, input: Input)
    ensures After(s, EventsOf(inputs + [input]))
         == if input.Operated? then Apply(After(s, EventsOf(inputs)), input.event).0
            else FeedAll(After(s, EventsOf(inputs)), input.decode.results, input.decode.finished)
    ensures DeliveredIn(inputs + [input]) == DeliveredIn(inputs) + (if input.Delivered? then [input.decode] else [])
  {
    assert (inputs + [input])[..|inputs|] == inputs;
    var es := EventsOf(inputs);
    match input
    case Operated(e) => assert (es + [e])[..|es + [e]| - 1] == es;
    case Delivered(d) =>
      AfterBoth(s, es, MessagesOf(d.results, d.finished));
      FeedIsRun(After(s, es), d.results, d.finished);
  }

  predicate Fed(station: Station, w: World) {
    w.station == After(station, EventsOf(w.inputs)) && DeliveredIn(w.inputs) == InTime(w.decodes)
  }

  lemma FinishedKeepsFed(station: Station, w: World, d: SlotDecode)
    requires Fed(station, w)
    ensures Fed(station, Finished(w, d))
  {
    OneMoreDecode(w.decodes, d);
    if !d.late {
      OneMoreInput(station, w.inputs, Delivered(d));
    }
  }

  lemma StepKeepsFed(station: Station, w: World, x: Action)
    requires 0 < w.config.period && Fed(station, w)
    ensures Fed(station, Step(w, x))
  {
    match x
    case Operate(e) => OneMoreInput(station, w.inputs, Operated(e));
    case Decoded(outcome) => DecodeKeepsFed(station, w, outcome);
    case _ => OthersFeedNothing(w, x);
  }

  lemma DecodeKeepsFed(station: Station, w: World, outcome: Outcome)
    requires 0 < w.config.period && Fed(station, w)
    ensures Fed(station, DecodeDone(w, outcome))
  {
    if w.at.Decoding? && outcome.Batch? && outcome.slot == w.at.slot {
      var late := w.clock > w.at.boundary + w.config.cutoff;
      var d := SlotDecode(w.at.slot, w.at.boundary, w.at.dispatched, w.clock, late, outcome.results);
      FinishedKeepsFed(station, w, d);
    }
  }

  lemma OthersFeedNothing(w: World, x: Action)
    requires 0 < w.config.period && !x.Operate? && !x.Decoded?
    ensures var v := Step(w, x); v.station == w.station && v.inputs == w.inputs && v.decodes == w.decodes
  {
  }

  /**
   * In any run the sequencer has heard, one by one and in the order they came, the operator's and the transmitter's
   * events and the messages of this loop's batches; and the batches are exactly those that were in time, once each.
   */
  lemma {:induction false} SequencerHearsInTime(config: Config, station: Station, clock: int, xs: seq<Action>)
    requires ValidConfig(config)
    ensures var w := Run(NewWorld(config, station, clock), xs);
            w.station == After(station, EventsOf(w.inputs)) && DeliveredIn(w.inputs) == InTime(w.decodes)
  {
    if xs != [] {
      SequencerHearsInTime(config, station, clock, xs[..|xs| - 1]);
      StepKeepsFed(station, Run(NewWorld(config, station, clock), xs[..|xs| - 1]), xs[|xs| - 1]);
    }
  }

  /** A batch in time is one finished during the very next slot, before its decision cutoff. */
  lemma InTimeMeansNextSlot(config: Config, d: SlotDecode)
    requires ValidConfig(config) && DecodedAfterSlot(config, d)
    ensures !d.late <==>
              && SlotId(d.finished, config.period) == d.slot + 1
              && d.finished <= SlotStart(d.slot + 1, config.period) + config.cutoff
  {
    assert (d.slot + 2) * config.period == (d.slot + 1) * config.period + config.period;
    if !d.late {
      SlotIdIs(d.finished, d.slot + 1, config.period);
    }
  }

  lemma HeardInNextSlot(config: Config, station: Station, clock: int, xs: seq<Action>, i: nat)
    requires ValidConfig(config) && PunctualRun(NewWorld(config, station, clock), xs)
    requires i < |Run(NewWorld(config, station, clock), xs).decodes|
    ensures var d := Run(NewWorld(config, station, clock), xs).decodes[i];
            !d.late <==>
              && SlotId(d.finished, config.period) == d.slot + 1
              && d.finished <= SlotStart(d.slot + 1, config.period) + config.cutoff
  {
    RunIsSound(config, station, clock, xs);
    InTimeMeansNextSlot(config, Run(NewWorld(config, station, clock), xs).decodes[i]);
  }

  // ---- sleeps that end early -------------------------------------------------

  lemma StepKeepsBalanced(w: World, x: Action)
    requires 0 < w.config.period && Balanced(w)
    ensures Balanced(Step(w, x))
  {
    match x
    case Turn => TurnKeepsBalanced(w);
    case Wake(samples) => WakeKeepsBalanced(w, samples);
    case Decoded(outcome) =>
    case _ =>
  }

  lemma TurnKeepsBalanced(w: World)
    requires 0 < w.config.period && Balanced(w)
    ensures Balanced(Step(w, Turn))
  {
  }

  lemma WakeKeepsBalanced(w: World, samples: Option<nat>)
    requires Balanced(w)
    ensures Balanced(WakeUp(w, samples))
  {
  }

  lemma {:induction false} RunIsBalanced(config: Config, station: Station, clock: int, xs: seq<Action>)
    requires ValidConfig(config)
    ensures Balanced(Run(NewWorld(config, station, clock), xs))
  {
    if xs != [] {
      RunIsBalanced(config, station, clock, xs[..|xs| - 1]);
      StepKeepsBalanced(Run(NewWorld(config, station, clock), xs[..|xs| - 1]), xs[|xs| - 1]);
    }
  }

  /**
   * Punctual or not: at the head of the loop the slots add up exactly when no turn has found its slot already
   * announced.
   */
  lemma BalanceExactlyWhen(config: Config, station: Station, clock: int, xs: seq<Action>)
    requires ValidConfig(config) && Run(NewWorld(config, station, clock), xs).at.Head?
    ensures var w := Run(NewWorld(config, station, clock), xs);
            w.counters.started == w.counters.skipped + w.counters.decodes + w.counters.errors + w.abandoned
            <==> w.reentered == 0
  {
    RunIsBalanced(config, station, clock, xs);
  }

  /** Asleep in the slot it announced, as after the first turn. */
  predicate SleepsInside(w: World) {
    && 0 < w.config.period && w.running && w.at.Sleeping? && w.announced == Some(w.at.slot)
    && SlotId(w.clock, w.config.period) == w.at.slot
  }

  /** A sleep that ends early re-enters its slot: the turn after the decode finds it announced and sleeps again. */
  lemma EarlyWakeReenters(w: World, outcome: Outcome)
    requires SleepsInside(w)
    ensures var t := Step(Step(w, Wake(Some(SLOT_BYTES))), Decoded(outcome));
            && t.at.Head? && t.config == w.config && t.reentered == w.reentered
            && SleepsInside(Step(t, Turn)) && Step(t, Turn).config == w.config
            && Step(t, Turn).reentered == w.reentered + 1
            && Step(t, Turn).counters.started == w.counters.started
  {
    var u := Step(w, Wake(Some(SLOT_BYTES)));
    assert u.at == Decoding(w.at.slot, w.at.boundary, w.clock);
    var t := Step(u, Decoded(outcome));
    assert t.at.Head? && t.running && t.announced == w.announced && t.clock == w.clock && t.config == w.config;
  }

  lemma RunNext(w: World, xs: seq<Action>, x: Action)
    requires 0 < w.config.period
    ensures Run(w, xs + [x]) == Step(Run(w, xs), x)
  {
    assert (xs + [x])[..|xs + [x]| - 1] == xs;
  }

  /** `n` turns, each but the first on a sleep that ended early, and one more early end. */
  function EarlyWakes(outcome: Outcome, n: nat): seq<Action> {
    if n == 0 then [Begin] + [Turn]
    else EarlyWakes(outcome, n - 1) + [Wake(Some(SLOT_BYTES))] + [Decoded(outcome)] + [Turn]
  }

  lemma {:induction false} SleepsAgain(config: Config, station: Station, clock: int, outcome: Outcome, n: nat)
    requires ValidConfig(config)
    ensures var w := Run(NewWorld(config, station, clock), EarlyWakes(outcome, n));
            SleepsInside(w) && w.reentered == n
  {
    var w := NewWorld(config, station, clock);
    if n == 0 {
      assert [] + [Begin] == [Begin];
      RunNext(w, [], Begin);
      RunNext(w, [Begin], Turn);
      SlotHoldsEpoch(clock, config.period);
    } else {
      SleepsAgain(config, station, clock, outcome, n - 1);
      var xs := EarlyWakes(outcome, n - 1);
      RunNext(w, xs, Wake(Some(SLOT_BYTES)));
      RunNext(w, xs + [Wake(Some(SLOT_BYTES))], Decoded(outcome));
      RunNext(w, xs + [Wake(Some(SLOT_BYTES))] + [Decoded(outcome)], Turn);
      EarlyWakeReenters(Run(w, xs), outcome);
    }
  }

  /** From start-up, with any configuration, early sleeps unbalance the counters as often as one likes. */
  lemma EarlyWakesUnbalance(config: Config, station: Station, clock: int, outcome: Outcome, n: nat)
    returns (xs: seq<Action>)
    requires ValidConfig(config)
    ensures var w := Run(NewWorld(config, station, clock), xs);
            && w.at.Head? && w.reentered == n
            && w.counters.started + n == w.counters.skipped + w.counters.decodes + w.counters.errors + w.abandoned
  {
    var w := NewWorld(config, station, clock);
    SleepsAgain(config, station, clock, outcome, n);
    EarlyWakeReenters(Run(w, EarlyWakes(outcome, n)), outcome);
    xs := EarlyWakes(outcome, n) + [Wake(Some(SLOT_BYTES))] + [Decoded(outcome)];
    RunNext(w, EarlyWakes(outcome, n), Wake(Some(SLOT_BYTES)));
    RunNext(w, EarlyWakes(outcome, n) + [Wake(Some(SLOT_BYTES))], Decoded(outcome));
    RunIsBalanced(config, station, clock, xs);
  }
}
