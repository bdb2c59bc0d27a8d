/**
 * The rig's own line against the controller's flags: when it can be keyed with no transmission in progress. Runs are
 * sorted by which PTT commands may fail in them.
 */
module SafetyLine {
  import opened Safety

  datatype Failures = Failures(keyDown: bool, release: bool)

  predicate Allowed(w: World, x: Action, f: Failures) {
    x == RigReplies(false) && CanReply(w, false) ==> if w.queue[0].on then f.keyDown else f.release
  }

  predicate AllowedRun(w: World, xs: seq<Action>, f: Failures) {
    xs == [] || (AllowedRun(w, xs[..|xs| - 1], f) && Allowed(Run(w, xs[..|xs| - 1]), xs[|xs| - 1], f))
  }

  // ---- runs written out ------------------------------------------------------

  /** A run with every state it passes through. */
  datatype Path = Path(worlds: seq<World>, actions: seq<Action>)

  predicate Leg(p: Path, f: Failures, i: nat)
    requires |p.worlds| == |p.actions| + 1 && i < |p.actions|
  {
    p.worlds[i + 1] == Step(p.worlds[i], p.actions[i]) && Allowed(p.worlds[i], p.actions[i], f)
  }

  predicate Leads(p: Path, w0: World, w: World, f: Failures) {
    && |p.worlds| == |p.actions| + 1 && p.worlds[0] == w0 && p.worlds[|p.actions|] == w
    && (forall i | 0 <= i < |p.actions| :: Leg(p, f, i))
  }

  lemma Go(p: Path, w0: World, w: World, f: Failures, x: Action, v: World) returns (q: Path)
    requires Leads(p, w0, w, f) && v == Step(w, x) && Allowed(w, x, f)
    ensures Leads(q, w0, v, f)
  {
    q := Path(p.worlds + [v], p.actions + [x]);
    forall i | 0 <= i < |q.actions| ensures Leg(q, f, i) {
      if i < |p.actions| {
        assert Leg(p, f, i);
      }
    }
  }

  lemma {:induction false} PathIsRun(p: Path, w0: World, w: World, f: Failures, n: nat)
    requires Leads(p, w0, w, f) && n <= |p.actions|
    ensures Run(w0, p.actions[..n]) == p.worlds[n] && AllowedRun(w0, p.actions[..n], f)
  {
    if n > 0 {
      PathIsRun(p, w0, w, f, n - 1);
      assert p.actions[..n][..n - 1] == p.actions[..n - 1];
      assert Leg(p, f, n - 1);
    }
  }

  lemma RunOf(p: Path, w0: World, w: World, f: Failures)
    requires Leads(p, w0, w, f)
    ensures Run(w0, p.actions) == w && AllowedRun(w0, p.actions, f)
  {
    PathIsRun(p, w0, w, f, |p.actions|);
    assert p.actions[..|p.actions|] == p.actions;
  }

  // ---- a failed release leaves TX armed on a keyed line ------------------------

  /** Just after a start-up whose PTT-off succeeded. */
  function Quiet(margin: nat, aggregate: nat): World { NewWorld(margin, aggregate, true, false) }

  function Requested(q: World, d: nat): World {
    q.(armed := true, tasks := map[0 := Keying(d)], queue := [Command(0, true)])
  }

  function Keyed(q: World, d: nat): World {
    q.(armed := true, pttOn := true, line := true, tasks := map[0 := Playing(d, 0)])
  }

  function Played(q: World): World { Keyed(q, 0).(tasks := map[0 := CompleteOff], queue := [Command(0, false)]) }

  /** TX armed on an uncertain, keyed line, with nothing under way. */
  function Stuck(q: World): World { q.(armed := true, uncertain := true, line := true) }

  /** A waveform the controller accepts and lets through in a fresh session. */
  predicate Fitting(aggregate: nat, d: nat) { Playable(d) && d <= aggregate }

  lemma KeyDownSteps(margin: nat, aggregate: nat, d: nat)
    requires Fitting(aggregate, d)
    ensures var q := Quiet(margin, aggregate);
            && Step(Step(q, ArmTx(0)), Transmit(0, d)) == Requested(q, d)
            && Step(Requested(q, d), RigActs) == Requested(q, d).(line := true, acted := true)
            && Step(Requested(q, d).(line := true, acted := true), RigReplies(true)) == Keyed(q, d)
            && Step(Keyed(q, d), PlayEnds(0, PlayOutcome.Played)) == Played(q)
  {
    var u := Requested(Quiet(margin, aggregate), d).(line := true, acted := true);
    assert CanReply(u, true) && u.queue[1..] == [];
    assert u.tasks[0 := Playing(d, 0)] == map[0 := Playing(d, 0)];
    assert u.tasks[0 := CompleteOff] == map[0 := CompleteOff];
  }

  lemma FirstTransmission(margin: nat, aggregate: nat, d: nat, f: Failures) returns (p: Path)
    requires Fitting(aggregate, d)
    ensures Leads(p, Quiet(margin, aggregate), Played(Quiet(margin, aggregate)), f)
  {
    var q := Quiet(margin, aggregate);
    KeyDownSteps(margin, aggregate, d);
    p := Go(Path([q], []), q, q, f, ArmTx(0), Step(q, ArmTx(0)));
    p := Go(p, q, Step(q, ArmTx(0)), f, Transmit(0, d), Requested(q, d));
    p := Go(p, q, Requested(q, d), f, RigActs, Requested(q, d).(line := true, acted := true));
    p := Go(p, q, Requested(q, d).(line := true, acted := true), f, RigReplies(true), Keyed(q, d));
    p := Go(p, q, Keyed(q, d), f, PlayEnds(0, PlayOutcome.Played), Played(q));
  }

  /** A release that fails leaves line and flag on, the line uncertain, and CAT faulted. */
  lemma ReleaseFails(w: World, at: Await)
    requires at in {CompleteOff, FinalOff}
    requires w.queue == [Command(0, false)] && w.tasks == map[0 := at] && w.pttOn && !w.acted
    ensures at == CompleteOff ==>
              Step(w, RigReplies(false))
              == w.(uncertain := true, faults := w.faults + {Cat}, tasks := map[0 := FinalOff])
    ensures at == FinalOff ==>
              Step(w, RigReplies(false))
              == w.(uncertain := true, faults := w.faults + {Cat}, pttOn := false, tasks := map[], queue := [])
  {
    assert CanReply(w, false) && w.queue[1..] == [] && [] + [Command(0, false)] == [Command(0, false)];
    assert map[0 := at][0 := FinalOff] == map[0 := FinalOff] && map[0 := at] - {0} == map[];
  }

  /** Both releases of a transmission fail and the operator clears the fault: TX stays armed with the rig keyed. */
  lemma ArmedAndUncertain(margin: nat, aggregate: nat, d: nat) returns (p: Path)
    requires Fitting(aggregate, d)
    ensures Leads(p, Quiet(margin, aggregate), Stuck(Quiet(margin, aggregate)), Failures(false, true))
  {
    var q, f := Quiet(margin, aggregate), Failures(false, true);
    p := FirstTransmission(margin, aggregate, d, f);
    ReleaseFails(Played(q), CompleteOff);
    var again := Played(q).(uncertain := true, faults := {Cat}, tasks := map[0 := FinalOff]);
    assert {} + {Cat} == {Cat} && {Cat} + {Cat} == {Cat} && {Cat} - {Cat} == {};
    p := Go(p, q, Played(q), f, RigReplies(false), again);
    ReleaseFails(again, FinalOff);
    p := Go(p, q, again, f, RigReplies(false), Stuck(q).(faults := {Cat}));
    p := Go(p, q, Stuck(q).(faults := {Cat}), f, ClearFault(Cat), Stuck(q));
  }

  /** And it stays keyed for any time, in one armed session, with nothing counted; `d` is any waveform that fits. */
  lemma KeyedForAnyTime(margin: nat, aggregate: nat, d: nat, time: nat) returns (xs: seq<Action>)
    requires Fitting(aggregate, d)
    ensures AllowedRun(Quiet(margin, aggregate), xs, Failures(false, true))
    ensures Run(Quiet(margin, aggregate), xs) == Stuck(Quiet(margin, aggregate)).(clock := time)
  {
    var q, f := Quiet(margin, aggregate), Failures(false, true);
    var p := ArmedAndUncertain(margin, aggregate, d);
    p := Go(p, q, Stuck(q), f, Tick(time), Stuck(q).(clock := time));
    RunOf(p, q, Stuck(q).(clock := time), f);
    xs := p.actions;
  }

  // ---- a failed key-down on a faulted CAT ends the transmission at once ----------

  function Reported(q: World, d: nat): World {
    q.(faults := {Cat}, tasks := map[0 := Keying(d), 1 := ReportOff], queue := [Command(0, true), Command(1, false)])
  }

  function Abandoned(q: World): World {
    q.(faults := {Cat}, uncertain := true, line := true, tasks := map[1 := ReportOff], queue := [Command(1, false)])
  }

  lemma KeyDownFailsSteps(margin: nat, aggregate: nat, d: nat)
    ensures var q := Quiet(margin, aggregate);
            && Step(Requested(q, d), ReportFault(1, Cat)) == Reported(q, d)
            && Step(Reported(q, d), RigActs) == Reported(q, d).(line := true, acted := true)
            && Step(Reported(q, d).(line := true, acted := true), RigReplies(false)) == Abandoned(q)
  {
    var q := Quiet(margin, aggregate);
    var u := Reported(q, d).(line := true, acted := true);
    assert Requested(q, d).tasks[1 := ReportOff] == u.tasks && {} + {Cat} == {Cat};
    assert Requested(q, d).queue + [Command(1, false)] == u.queue;
    assert CanReply(u, false) && u.queue[1..] == [Command(1, false)] && u.tasks - {0} == map[1 := ReportOff];
  }

  lemma KeyDownFails(margin: nat, aggregate: nat, d: nat) returns (p: Path)
    requires Fitting(aggregate, d)
    ensures Leads(p, Quiet(margin, aggregate), Abandoned(Quiet(margin, aggregate)), Failures(true, false))
  {
    var q, f := Quiet(margin, aggregate), Failures(true, false);
    KeyDownSteps(margin, aggregate, d);
    KeyDownFailsSteps(margin, aggregate, d);
    p := Go(Path([q], []), q, q, f, ArmTx(0), Step(q, ArmTx(0)));
    p := Go(p, q, Step(q, ArmTx(0)), f, Transmit(0, d), Requested(q, d));
    p := Go(p, q, Requested(q, d), f, ReportFault(1, Cat), Reported(q, d));
    p := Go(p, q, Reported(q, d), f, RigActs, Reported(q, d).(line := true, acted := true));
    p := Go(p, q, Reported(q, d).(line := true, acted := true), f, RigReplies(false), Abandoned(q));
  }

  // ---- the exact condition -----------------------------------------------------------

  lemma StepStaysCertain(w: World, x: Action)
    requires !w.uncertain && !(x == RigReplies(false) && CanReply(w, false))
    ensures !Step(w, x).uncertain
  {
    match x
    case RigReplies(ok) => if CanReply(w, ok) { ReplyStaysCertain(w); }
    case PlayEnds(id, _) => EndStaysCertain(w, id);
    case Drained(id) => EndStaysCertain(w, id);
    case _ =>
  }

  lemma ReplyStaysCertain(w: World)
    requires CanReply(w, true)
    ensures w.queue[0].on || !Resume(w, true).uncertain
    ensures w.queue[0].on ==> Resume(w, true).uncertain == w.uncertain
  {
    if !w.queue[0].on {
      EndStaysCertain(OffResult(Popped(w), true), w.queue[0].id);
    }
  }

  lemma EndStaysCertain(w: World, id: nat)
    ensures Finalize(w, id).uncertain == w.uncertain && FaultInside(w, id).uncertain == w.uncertain
  {
  }

  lemma {:induction false} RunStaysCertain(w: World, xs: seq<Action>)
    requires !w.uncertain && AllowedRun(w, xs, Failures(false, false))
    ensures !Run(w, xs).uncertain
  {
    if xs != [] {
      RunStaysCertain(w, xs[..|xs| - 1]);
      StepStaysCertain(Run(w, xs[..|xs| - 1]), xs[|xs| - 1]);
    }
  }

  /** In no run with these failures is the rig keyed while no transmission is in progress. */
  ghost predicate UnkeyedWhenIdle(w0: World, f: Failures) {
    forall xs | AllowedRun(w0, xs, f) :: !TransmissionInProgress(Run(w0, xs)) ==> !Run(w0, xs).line
  }

  lemma UnkeyedWithoutFailures(margin: nat, aggregate: nat)
    ensures UnkeyedWhenIdle(Quiet(margin, aggregate), Failures(false, false))
  {
    var q := Quiet(margin, aggregate);
    forall xs | AllowedRun(q, xs, Failures(false, false))
      ensures !TransmissionInProgress(Run(q, xs)) ==> !Run(q, xs).line
    {
      NeverSilentlyKeyed(margin, aggregate, true, false, xs);
      RunStaysCertain(q, xs);
    }
  }

  lemma {:induction false} AllowedMore(w: World, xs: seq<Action>, f: Failures, g: Failures)
    requires AllowedRun(w, xs, f) && (f.keyDown ==> g.keyDown) && (f.release ==> g.release)
    ensures AllowedRun(w, xs, g)
  {
    if xs != [] {
      AllowedMore(w, xs[..|xs| - 1], f, g);
    }
  }

  lemma KeyedAfterFailure(margin: nat, aggregate: nat, f: Failures)
    requires (f.keyDown || f.release) && aggregate > 0
    ensures !UnkeyedWhenIdle(Quiet(margin, aggregate), f)
  {
    var q := Quiet(margin, aggregate);
    if f.release {
      var xs := KeyedForAnyTime(margin, aggregate, 1, 0);
      AllowedMore(q, xs, Failures(false, true), f);
      assert !TransmissionInProgress(Run(q, xs));
    } else {
      var p := KeyDownFails(margin, aggregate, 1);
      RunOf(p, q, Abandoned(q), Failures(true, false));
      assert !TransmissionInProgress(Run(q, p.actions));
    }
  }

  /** Nothing keys or may come to key the rig. */
  predicate Mute(w: World) {
    && w.aggregate == 0 && w.txSeconds == 0 && !w.pttOn && !w.line
    && (forall i | 0 <= i < |w.queue| :: !w.queue[i].on)
    && (forall id | id in w.tasks ::
          !w.tasks[id].Keying? && !w.tasks[id].Playing? && (w.tasks[id].PreTxOff? ==> w.tasks[id].duration > 0))
  }

  lemma ReplyStaysMute(w: World, ok: bool)
    requires Mute(w) && CanReply(w, ok)
    ensures Mute(Resume(w, ok))
  {
  }

  lemma StepStaysMute(w: World, x: Action)
    requires Mute(w)
    ensures Mute(Step(w, x))
  {
    if x.RigReplies? && CanReply(w, x.ok) {
      ReplyStaysMute(w, x.ok);
    }
  }

  /** With no budget every transmission trips the aggregate watchdog, so the rig is never keyed, whatever fails. */
  lemma {:induction false} NoBudgetNeverKeys(w: World, xs: seq<Action>)
    requires Mute(w)
    ensures Mute(Run(w, xs))
  {
    if xs != [] {
      NoBudgetNeverKeys(w, xs[..|xs| - 1]);
      StepStaysMute(Run(w, xs[..|xs| - 1]), xs[|xs| - 1]);
    }
  }

  /**
   * The rig is unkeyed whenever no transmission is in progress exactly when no PTT command fails, of either kind, or
   * when not the shortest waveform fits the budget.
   */
  lemma UnkeyedWhenIdleExactlyWhen(margin: nat, aggregate: nat, f: Failures)
    ensures UnkeyedWhenIdle(Quiet(margin, aggregate), f) <==> (!f.keyDown && !f.release) || aggregate == 0
  {
    if aggregate == 0 {
      forall xs ensures !Run(Quiet(margin, aggregate), xs).line {
        NoBudgetNeverKeys(Quiet(margin, aggregate), xs);
      }
    } else if f.keyDown || f.release {
      KeyedAfterFailure(margin, aggregate, f);
    } else {
      UnkeyedWithoutFailures(margin, aggregate);
    }
  }
}
