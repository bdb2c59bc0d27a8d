/** The orchestrator object over its sequencer: each coroutine segment is proved to be the step of that name. */
module OrchestratorObject {
  import opened Prelude
  import opened MsgParse
  import opened Qso
  import opened Slots

  class Orchestrator {
    const config: Config
    const sequencer: Sequencer
    var running: bool
    var announced: Option<int>
    var counters: Counters

    // What the loop runs in: the clock, and where its coroutine is suspended.
    var clock: int
    var at: Await

    // Bookkeeping for the statements about whole runs; the program itself does not keep it.
    ghost var announcements: seq<Announcement>
    ghost var decodes: seq<SlotDecode>
    ghost var inputs: seq<Input>
    ghost var abandoned: nat
    ghost var reentered: nat

    ghost function View(): World
      reads this, sequencer
    {
      World(config, running, announced, counters, sequencer.View(), at, clock, announcements, decodes, inputs,
            abandoned, reentered)
    }

    constructor (config: Config, sequencer: Sequencer, clock: int)
      requires ValidConfig(config)
      ensures this.config == config && this.sequencer == sequencer
      ensures View() == NewWorld(config, sequencer.View(), clock)
    {
      this.config, this.sequencer, this.clock := config, sequencer, clock;
      running, announced, counters, at := false, None, Counters(0, 0, 0, 0, 0), Returned;
      announcements, decodes, inputs, abandoned, reentered := [], [], [], 0, 0;
    }

    method Stop()
      modifies `running
      ensures View() == old(View()).(running := false)
    {
      running := false;
    }

    method Announce(slot: int)
      modifies `announced, `counters, `announcements, `reentered
      ensures View() == Announced(old(View()), slot)
    {
      if announced != Some(slot) {
        announced := Some(slot);
        counters := counters.(started := counters.started + 1);
        announcements := announcements + [Announcement(slot, clock)];
      } else {
        reentered := reentered + 1;
      }
    }

    /** The head of the loop: announce the current slot and sleep to its end. */
    method TurnOver()
      requires ValidConfig(config)
      modifies this
      ensures View() == TurnLoop(old(View()))
    {
      if !running {
        at := Returned;
        return;
      }
      var current := SlotId(clock, config.period);
      var boundary := SlotStart(current + 1, config.period);
      Announce(current);
      at := Sleeping(current, boundary);
    }

    method GiveUp()
      modifies `at, `abandoned
      ensures View() == Abandon(old(View()))
    {
      at := Returned;
      abandoned := abandoned + 1;
    }

    method Poll(slot: int, boundary: int, polls: nat, samples: Option<nat>)
      modifies this
      ensures View() == PollSource(old(View()), slot, boundary, polls, samples)
    {
      var deadline := boundary + config.grace;
      if samples.Some? {
        if samples.value != SLOT_BYTES {
          GiveUp();
        } else {
          at := Decoding(slot, boundary, clock);
        }
      } else if clock >= deadline {
        counters := counters.(skipped := counters.skipped + 1);
        at := Head;
      } else {
        at := Polling(slot, boundary, polls + 1, Min(clock + config.poll, deadline));
      }
    }

    /** A sleep is over: stop, or ask the slot source. */
    method Awake(samples: Option<nat>)
      modifies this
      ensures View() == WakeUp(old(View()), samples)
    {
      match at {
        case Sleeping(slot, boundary) =>
          if !running {
            GiveUp();
          } else {
            Poll(slot, boundary, 0, samples);
          }
        case Polling(slot, boundary, polls, _) =>
          Poll(slot, boundary, polls, samples);
        case _ =>
      }
    }

    /** Hand the parsed messages of one batch to the sequencer. */
    method Feed(results: seq<Heard>)
      modifies sequencer
      ensures sequencer.View() == FeedAll(old(sequencer.View()), results, clock)
    {
      var i := 0;
      while i < |results|
        invariant 0 <= i <= |results|
        invariant sequencer.View() == FeedAll(old(sequencer.View()), results[..i], clock)
      {
        assert results[..i + 1][..i] == results[..i];
        var parsed := ParseMessage(results[i].text);
        sequencer.Hear(parsed, Some(results[i].snr), clock);
        i := i + 1;
      }
      assert results[..i] == results;
    }

    method Count(d: SlotDecode)
      modifies `at, `counters, `decodes
      ensures View() == old(View()).(at := Head, decodes := old(decodes) + [d],
        counters := old(counters).(decodes := old(counters).decodes + 1,
                                   misses := old(counters).misses + (if d.late then 1 else 0)))
    {
      counters := counters.(decodes := counters.decodes + 1);
      if d.late {
        counters := counters.(misses := counters.misses + 1);
      }
      decodes := decodes + [d];
      at := Head;
    }

    /** The decoder answered: count an error, or apply the cutoff and feed what is in time. */
    method DecodeReturned(outcome: Outcome)
      modifies this, sequencer
      ensures View() == DecodeDone(old(View()), outcome)
    {
      if !at.Decoding? {
        return;
      }
      if outcome.Raised? || outcome.slot != at.slot {
        counters := counters.(errors := counters.errors + 1);
        at := Head;
        return;
      }
      var late := clock > at.boundary + config.cutoff;
      var d := SlotDecode(at.slot, at.boundary, at.dispatched, clock, late, outcome.results);
      Count(d);
      if !late {
        Feed(outcome.results);
        inputs := inputs + [Delivered(d)];
      }
    }
  }
}
