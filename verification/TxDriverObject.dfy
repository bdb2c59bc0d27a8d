/** The driver object: its coroutine segments as methods over its sequencer, each proved to be the step of that name. */
module DriverObject {
  import opened Prelude
  import opened Qso
  import opened Driver

  class TxDriver {
    const sequencer: Sequencer
    const period: int
    var inFlight: bool
    var pending: Option<Cached>

    // What the driver runs in: the clock, its suspended coroutines, the newest announced slot.
    var clock: int
    var tasks: map<nat, Await>
    var announced: Option<int>

    // Bookkeeping for the statements about whole runs; the program itself does not keep it.
    var resets: nat
    var pulls: seq<Offer>
    ghost var starts: seq<Start>
    ghost var airs: seq<Air>
    ghost var tally: Tally
    ghost var aired: nat
    ghost var carried: nat

    ghost function View(): World
      reads this, sequencer
    {
      World(period, sequencer.View(), clock, inFlight, pending, tasks, announced, pulls, starts, airs, tally,
            resets, aired, carried)
    }

    constructor (sequencer: Sequencer, period: int)
      ensures this.sequencer == sequencer && View() == NewWorld(period, sequencer.View())
    {
      this.sequencer, this.period := sequencer, period;
      inFlight, pending, clock, tasks, announced := false, None, 0, map[], None;
      pulls, starts, airs, tally, resets, aired, carried := [], [], [], FRESH, 0, 0, 0;
    }

    /** Ask the sequencer for its next message. */
    method Pull() returns (text: Option<string>)
      modifies sequencer, `tally, `pulls
      ensures View() == Deliver(old(View()), SlotPulled) && text == NextTx(old(sequencer.View())).1
    {
      tally := Count(tally, sequencer.View(), SlotPulled);
      var phase, frequency := sequencer.txPhase, sequencer.txFrequency;
      text := sequencer.Pull();
      pulls := pulls + [Offer(text, phase, frequency)];
    }

    /** The text just pulled, to be encoded on the frequency in force. */
    function Choose(text: string): Choice
      reads this, sequencer
    {
      Choice(text, sequencer.txPhase, sequencer.txFrequency, |pulls| - 1)
    }

    method Suspend(id: nat, at: Await)
      modifies `tasks
      ensures View() == old(View()).(tasks := old(tasks)[id := at])
    {
      tasks := tasks[id := at];
    }

    method Return(id: nat)
      modifies `tasks
      ensures View() == Finish(old(View()), id)
    {
      tasks := tasks - {id};
    }

    method Transmit(id: nat, at: Await, ghost start: Start, ghost charge: Charge)
      modifies `inFlight, `tasks, `starts, `airs, `aired, `carried
      ensures View() == EnterTransmit(old(View()), id, at, start, charge)
    {
      inFlight := true;
      tasks := tasks[id := at];
      starts := starts + [start];
      if at.OnAir? {
        HandOverNow(Air(start.slot, start.choice, start.at, start.fromWindow), charge);
      }
    }

    ghost method HandOverNow(air: Air, charge: Charge)
      modifies `airs, `aired, `carried
      ensures View() == HandOver(old(View()), air, charge)
    {
      airs := airs + [air];
      aired := if charge.Free? then aired else aired + 1;
      carried := if charge.Earlier? then carried + 1 else carried;
    }

    /** One turn of the decision-window loop. */
    method Poll(id: nat, slot: int)
      modifies this, sequencer
      ensures View() == PollWindow(old(View()), id, slot)
    {
      var slotStart := slot * period;
      var slotEnd := (slot + 1) * period;
      if clock >= slotStart + DECISION_CUTOFF {
        Return(id);
        return;
      }
      if clock + WAVEFORM + FIT_MARGIN >= slotEnd {
        Return(id);
        return;
      }
      var exchange := sequencer.state != Calling;
      var text := Pull();
      if text == None {
        Suspend(id, Polling(slot));
      } else if slot % 2 != sequencer.txPhase {
        Return(id);
      } else {
        Suspend(id, WindowEncode(slot, Choose(text.value), exchange, resets));
      }
    }

    method PullOrOpenWindow(id: nat, slot: int)
      modifies this, sequencer
      ensures View() == PullOrWait(old(View()), id, slot)
    {
      var exchange := sequencer.state != Calling;
      var text := Pull();
      if text.Some? {
        Transmit(id, SlotEncode(slot, Choose(text.value), clock, exchange, resets),
                 Start(slot, Choose(text.value), clock, false), Free);
      } else {
        Poll(id, slot);
      }
    }

    method OnSlotStart(id: nat, slot: int)
      requires MayAnnounce(View(), id, slot)
      modifies this, sequencer
      ensures View() == Step(old(View()), SlotStart(id, slot))
    {
      announced := Some(slot);
      if inFlight {
        return;
      }
      if sequencer.txEnabled && slot % 2 != sequencer.txPhase {
        return;
      }
      if pending.Some? {
        ReuseCached(id, slot, pending.value);
        return;
      }
      PullOrOpenWindow(id, slot);
    }

    /** A cached waveform goes out only if the sequencer still wants that very message. */
    method ReuseCached(id: nat, slot: int, cached: Cached)
      requires pending == Some(cached) && !inFlight
      requires sequencer.txEnabled ==> slot % 2 == sequencer.txPhase
      modifies this, sequencer
      ensures View() == BeginSlot(old(View()), id, slot)
    {
      pending := None;
      ghost var charge := ChargeOf(sequencer.View());
      var text := Pull();
      if text == Some(cached.message) {
        var choice := Choose(cached.message).(frequency := cached.frequency);
        Transmit(id, OnAir(slot, choice), Start(slot, choice, clock, false), charge);
      } else {
        PullOrOpenWindow(id, slot);
      }
    }

    method OnWake(id: nat)
      requires id in tasks && tasks[id].Polling?
      modifies this, sequencer
      ensures View() == Step(old(View()), Wake(id))
    {
      Poll(id, tasks[id].slot);
    }

    method OnWindowEncoded(id: nat)
      requires id in tasks && tasks[id].WindowEncode?
      modifies this
      ensures View() == Step(old(View()), Encoded(id, true))
    {
      var e := tasks[id];
      if clock + WAVEFORM + FIT_MARGIN < (e.slot + 1) * period {
        Transmit(id, OnAir(e.slot, e.choice), Start(e.slot, e.choice, clock, true), EncodeCharge(View(), e));
      } else {
        pending := Some(Cached(e.choice.message, e.choice.frequency));
        Return(id);
      }
    }

    method OnSlotEncoded(id: nat, ok: bool)
      requires id in tasks && tasks[id].SlotEncode?
      modifies this
      ensures View() == Step(old(View()), Encoded(id, ok))
    {
      if ok {
        ghost var charge := EncodeCharge(View(), tasks[id]);
        HandOverNow(Air(tasks[id].slot, tasks[id].choice, clock, false), charge);
        Suspend(id, OnAir(tasks[id].slot, tasks[id].choice));
      } else {
        inFlight := false;
        Return(id);
      }
    }

    method OnTransmitEnded(id: nat)
      requires id in tasks && tasks[id].OnAir?
      modifies this
      ensures View() == Step(old(View()), Ended(id))
    {
      inFlight := false;
      Return(id);
    }
  }
}
