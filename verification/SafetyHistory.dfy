/** The controller's flags against the history of the run: what it means that TX is armed, faulted or uncertain. */
module SafetyHistory {
  import opened Safety

  // ---- the events ----------------------------------------------------------

  /** A transmission asks for more than is left of the budget, on entry or once its pre-TX release succeeded. */
  predicate Overspends(w: World, x: Action) {
    match x
    case Transmit(id, d) =>
      id !in w.tasks && Playable(d) && w.faults == {} && w.armed && !w.uncertain && w.txSeconds + d > w.aggregate
    case RigReplies(ok) => ok && CanReply(w, ok) && OverspendsAt(w, w.tasks[w.queue[0].id])
    case _ => false
  }

  predicate OverspendsAt(w: World, at: Await) { at.PreTxOff? && w.txSeconds + at.duration > w.aggregate }

  /** A playback fails, or has outlasted its deadline and is given up. */
  predicate PlaybackFails(w: World, x: Action) {
    || (x.PlayEnds? && x.outcome.AudioFailed? && PlayMayEnd(w, x.id))
    || (x.Drained? && x.id in w.tasks && w.tasks[x.id].Draining?)
  }

  predicate CommandFails(w: World, x: Action) { x == RigReplies(false) && CanReply(w, false) }

  predicate ReleaseSucceeds(w: World, x: Action) { x == RigReplies(true) && CanReply(w, true) && !w.queue[0].on }

  predicate KeyDownSucceeds(w: World, x: Action) { x == RigReplies(true) && CanReply(w, true) && w.queue[0].on }

  predicate KeyDownFails(w: World, x: Action) { CommandFails(w, x) && w.queue[0].on }

  predicate LastReleaseEnds(w: World, x: Action) {
    x.RigReplies? && CanReply(w, x.ok) && w.tasks[w.queue[0].id].FinalOff?
  }

  // ---- the flags -----------------------------------------------------------

  datatype Flag = TxArmed | Faulted(source: Interlock) | LineUncertain | PttCountsOn

  predicate Reading(w: World, f: Flag) {
    match f
    case TxArmed => w.armed
    case Faulted(source) => source in w.faults
    case LineUncertain => w.uncertain
    case PttCountsOn => w.pttOn
  }

  predicate Sets(w: World, x: Action, f: Flag) {
    match f
    case TxArmed => Arms(w, x)
    case Faulted(source) =>
      || (x.ReportFault? && x.id !in w.tasks && x.source == source)
      || (source == Cat && CommandFails(w, x))
      || (source == Audio && PlaybackFails(w, x))
    case LineUncertain => CommandFails(w, x)
    case PttCountsOn => KeyDownSucceeds(w, x)
  }

  /** A fault disarms only while it is news: reported again, or met again, it leaves TX as it is. */
  predicate Resets(w: World, x: Action, f: Flag) {
    match f
    case TxArmed =>
      || x.Disarm?
      || (x.Begins() && Halts(w, x, x.id))
      || Overspends(w, x)
      || (PlaybackFails(w, x) && Audio !in w.faults)
      || (KeyDownFails(w, x) && Cat !in w.faults)
    case Faulted(source) => x == ClearFault(source)
    case LineUncertain => ReleaseSucceeds(w, x)
    case PttCountsOn => ReleaseSucceeds(w, x) || LastReleaseEnds(w, x)
  }

  // ---- one segment -----------------------------------------------------------

  predicate Tells(w: World, x: Action, f: Flag) {
    Reading(Step(w, x), f) <==> Sets(w, x, f) || (Reading(w, f) && !Resets(w, x, f))
  }

  lemma TransmitTells(w: World, id: nat, d: nat, f: Flag)
    ensures Tells(w, Transmit(id, d), f)
  {
  }

  lemma HaltTells(w: World, x: Action, f: Flag)
    requires x.StopTx? || x.StartUp? || x.ReportFault?
    ensures Tells(w, x, f)
  {
  }

  lemma CallTells(w: World, x: Action, f: Flag)
    requires x.Begins()
    ensures Tells(w, x, f)
  {
    match x
    case Transmit(id, d) => TransmitTells(w, id, d, f);
    case ArmTx(id) => assert Tells(w, ArmTx(id), f);
    case RigReconnect(id) => assert Tells(w, RigReconnect(id), f);
    case _ => HaltTells(w, x, f);
  }

  lemma FaultInsideTells(w: World, id: nat, f: Flag)
    ensures Reading(Finalize(w, id), f) == Reading(w, f)
    ensures Reading(FaultInside(w, id), f)
            <==> f == Faulted(Audio) || (Reading(w, f) && !(f == TxArmed && Audio !in w.faults))
  {
  }

  lemma PlayEndTells(w: World, x: Action, f: Flag)
    requires x.PlayEnds? || x.Drained?
    ensures Tells(w, x, f)
  {
    FaultInsideTells(w, x.id, f);
  }

  lemma KeyDownTells(w: World, ok: bool, f: Flag)
    requires CanReply(w, ok) && w.queue[0].on
    ensures Tells(w, RigReplies(ok), f)
  {
  }

  /** What the coroutine does after a release moves only the armed flag, and PTT's after its last release. */
  lemma AfterOffTells(u: World, id: nat, at: Await, ok: bool, f: Flag)
    requires !at.FaultOff? && !at.CompleteOff?
    ensures Reading(AfterOff(u, id, at, ok), f)
            <==> || (f == TxArmed && ok && at.ArmOff?)
                 || (&& Reading(u, f) && !(f == TxArmed && ok && OverspendsAt(u, at))
                     && !(f == PttCountsOn && at.FinalOff?))
  {
  }

  lemma OffResultTells(w: World, ok: bool, f: Flag)
    ensures Reading(OffResult(w, ok), f)
            <==> || (!ok && f in {LineUncertain, Faulted(Cat)})
                 || (Reading(w, f) && !(ok && f in {LineUncertain, PttCountsOn}))
  {
  }

  lemma ReleaseTells(w: World, ok: bool, f: Flag)
    requires CanReply(w, ok) && !w.queue[0].on
    ensures Tells(w, RigReplies(ok), f)
  {
    var u, id, at := OffResult(Popped(w), ok), w.queue[0].id, w.tasks[w.queue[0].id];
    OffResultTells(Popped(w), ok, f);
    assert Resume(w, ok) == AfterOff(u, id, at, ok);
    if at.FaultOff? || at.CompleteOff? {
      FaultInsideTells(u, id, f);
    } else {
      AfterOffTells(u, id, at, ok, f);
    }
  }

  /** A segment moves a flag exactly as the events say. */
  lemma StepTells(w: World, x: Action, f: Flag)
    ensures Tells(w, x, f)
  {
    match x
    case RigReplies(ok) =>
      if CanReply(w, ok) {
        if w.queue[0].on {
          KeyDownTells(w, ok, f);
        } else {
          ReleaseTells(w, ok, f);
        }
      }
    case PlayEnds(_, _) => PlayEndTells(w, x, f);
    case Drained(_) => PlayEndTells(w, x, f);
    case _ => if x.Begins() { CallTells(w, x, f); }
  }

  // ---- whole runs --------------------------------------------------------------

  /** At which segments of a run an event happens. */
  function Marks(w: World, xs: seq<Action>, event: (World, Action) -> bool): seq<bool> {
    seq(|xs|, k requires 0 <= k < |xs| => event(Run(w, xs[..k]), xs[k]))
  }

  function SetAt(w: World, xs: seq<Action>, f: Flag): seq<bool> { Marks(w, xs, (v, x) => Sets(v, x, f)) }

  function ResetAt(w: World, xs: seq<Action>, f: Flag): seq<bool> { Marks(w, xs, (v, x) => Resets(v, x, f)) }

  predicate UntouchedFrom(resets: seq<bool>, n: nat) { forall j | n <= j < |resets| :: !resets[j] }

  /** Set at some segment, or up at the start, and not reset since. */
  predicate Remembered(initially: bool, sets: seq<bool>, resets: seq<bool>) {
    || (initially && UntouchedFrom(resets, 0))
    || (exists k :: 0 <= k < |sets| && sets[k] && UntouchedFrom(resets, k + 1))
  }

  lemma UntouchedFurther(resets: seq<bool>, reset: bool, n: nat)
    requires n <= |resets|
    ensures UntouchedFrom(resets + [reset], n) <==> UntouchedFrom(resets, n) && !reset
  {
    if UntouchedFrom(resets + [reset], n) {
      assert forall j | n <= j < |resets| :: (resets + [reset])[j] == resets[j];
      assert !(resets + [reset])[|resets|];
    }
  }

  lemma RememberedFurther(initially: bool, sets: seq<bool>, resets: seq<bool>, up: bool, down: bool)
    requires |sets| == |resets|
    ensures Remembered(initially, sets + [up], resets + [down])
            <==> up || (Remembered(initially, sets, resets) && !down)
  {
    var ss, rs := sets + [up], resets + [down];
    forall n | 0 <= n <= |resets| ensures UntouchedFrom(rs, n) <==> UntouchedFrom(resets, n) && !down {
      UntouchedFurther(resets, down, n);
    }
    if up {
      assert ss[|sets|] && UntouchedFrom(rs, |ss|);
    }
    if k :| 0 <= k < |sets| && sets[k] && UntouchedFrom(resets, k + 1) {
      assert ss[k];
    }
  }

  lemma MarksFurther(w: World, xs: seq<Action>, x: Action, event: (World, Action) -> bool)
    ensures Marks(w, xs + [x], event) == Marks(w, xs, event) + [event(Run(w, xs), x)]
  {
    var ys := xs + [x];
    assert ys[..|xs|] == xs;
    forall k | 0 <= k < |xs| ensures ys[..k] == xs[..k] && ys[k] == xs[k] {}
  }

  /**
   * Over every interleaving: TX is armed exactly when an arm has completed since the last disarm, halt, overspend or
   * new fault; an interlock is faulted exactly when it failed since it was last cleared; the line is uncertain exactly
   * when a command has failed since the last successful release.
   */
  lemma {:induction false} FlagsTellHistory(w: World, xs: seq<Action>, f: Flag)
    ensures Reading(Run(w, xs), f) <==> Remembered(Reading(w, f), SetAt(w, xs, f), ResetAt(w, xs, f))
  {
    if xs != [] {
      var front, x := xs[..|xs| - 1], xs[|xs| - 1];
      assert xs == front + [x];
      FlagsTellHistory(w, front, f);
      LastTells(w, front, x, f);
    }
  }

  lemma LastTells(w: World, front: seq<Action>, x: Action, f: Flag)
    requires Reading(Run(w, front), f) <==> Remembered(Reading(w, f), SetAt(w, front, f), ResetAt(w, front, f))
    ensures Reading(Step(Run(w, front), x), f)
            <==> Remembered(Reading(w, f), SetAt(w, front + [x], f), ResetAt(w, front + [x], f))
  {
    var v := Run(w, front);
    StepTells(v, x, f);
    MarksFurther(w, front, x, (v, x) => Sets(v, x, f));
    MarksFurther(w, front, x, (v, x) => Resets(v, x, f));
    RememberedFurther(Reading(w, f), SetAt(w, front, f), ResetAt(w, front, f), Sets(v, x, f), Resets(v, x, f));
  }

  // ---- calls that are refused -----------------------------------------------------

  /** The conditions under which a call has something to do. */
  predicate Accepted(w: World, x: Action)
    requires x.Begins()
  {
    && x.id !in w.tasks
    && match x
       case Transmit(_, d) => Playable(d) && w.faults == {} && w.armed
       case ArmTx(_) => w.faults == {}
       case ReportFault(_, source) => source !in w.faults
       case RigReconnect(_) => w.uncertain || w.pttOn
       case _ => true
  }

  /**
   * A refused call leaves the controller as it was. An accepted one asks the rig for one release, except that a
   * transmission within budget on a certain line asks for the key-down, and an arm on a certain line for nothing.
   */
  lemma CallsAskTheRig(w: World, x: Action)
    requires x.Begins()
    ensures !Accepted(w, x) ==> Step(w, x) == w
    ensures Accepted(w, x) ==>
              Step(w, x).queue == if x.ArmTx? && !w.uncertain then w.queue
                                  else w.queue + [Command(x.id, x.Transmit? && !w.uncertain && !Overspends(w, x))]
  {
  }

  // ---- the end of a transmission -------------------------------------------------

  /** A playback that returned is followed by a release, whatever the line is thought to be. */
  lemma PlayedIsReleased(w: World, id: nat)
    requires PlayMayEnd(w, id)
    ensures var v := Step(w, PlayEnds(id, Played));
            v.queue == w.queue + [Command(id, false)] && v.tasks == w.tasks[id := CompleteOff]
  {
  }

  /** A release that fails while PTT counts as on is asked for once more; after that, or a success, the call returns. */
  lemma ReleaseIsRetriedOnce(w: World, ok: bool)
    requires Inv(w) && CanReply(w, ok) && w.tasks[w.queue[0].id].Keyed()
    ensures var id := w.queue[0].id;
            var retried := !ok && w.pttOn && !w.tasks[id].FinalOff?;
            var v := Step(w, RigReplies(ok));
            && v.queue == w.queue[1..] + (if retried then [Command(id, false)] else [])
            && v.tasks == (if retried then w.tasks[id := FinalOff] else w.tasks - {id})
            && (ok || w.tasks[id].FinalOff? ==> !v.pttOn)
  {
  }

  /** The watchdog gives a playback up once its length and the margin have passed since the key-down, and not before. */
  lemma WatchdogFiresExactlyWhen(w: World, id: nat)
    requires id in w.tasks && w.tasks[id].Playing?
    ensures Step(w, Deadline(id)).tasks[id].Draining?
            <==> w.clock - w.tasks[id].started >= w.tasks[id].duration + w.margin
  {
  }

  // ---- start-up ------------------------------------------------------------------

  /** The controller just constructed, over a rig whose line may be in any position. */
  function Constructed(margin: nat, aggregate: nat, line: bool): World {
    World(margin, aggregate, false, false, false, {}, 0, 0, line, false, [], map[])
  }

  /** Every run begins where the start-up sequence ends, its one release having succeeded or failed. */
  lemma StartUpLeadsThere(margin: nat, aggregate: nat, released: bool, line: bool)
    ensures var asked := Step(Constructed(margin, aggregate, line), StartUp(0));
            var answered := if released then Step(Step(asked, RigActs), RigReplies(true))
                            else Step(asked, RigReplies(false));
            answered == NewWorld(margin, aggregate, released, line)
  {
    var asked := Step(Constructed(margin, aggregate, line), StartUp(0));
    assert asked.queue == [Command(0, false)] && asked.queue[1..] == [];
    assert asked.tasks == map[0 := StartOff] && asked.tasks - {0} == map[];
    if released {
      assert CanReply(Step(asked, RigActs), true);
    } else {
      assert CanReply(asked, false);
    }
  }
}
