/** When a halt does not win: exactly when a transmission is still being let in on an uncertain line. */
module SafetyLimits {
  import opened Prelude
  import opened Safety
  import opened SafetyLine

  // ---- such a state is reachable ----------------------------------------

  lemma PhaseStep(w: World, sid: nat, xs: seq<Action>, x: Action)
    ensures Run(w, xs + [x]) == Step(Run(w, xs), x)
    ensures PhaseAfter(w, sid, xs + [x]) == Follow(Run(w, xs), sid, x, PhaseAfter(w, sid, xs))
  {
    assert (xs + [x])[..|xs + [x]| - 1] == xs;
  }

  /** A transmission let in on an uncertain line; a STOP now queues its release behind the pre-TX one. */
  function LetIn(q: World, d: nat): World { Stuck(q).(tasks := map[0 := PreTxOff(d)], queue := [Command(0, false)]) }

  function KeyDownLast(q: World, d: nat): World {
    q.(tasks := map[0 := Keying(d), 1 := StopOff], queue := [Command(1, false), Command(0, true)])
  }

  lemma KeyDownQueuesBehindStop(q: World, d: nat, v: World, xs: seq<Action>)
    requires q == Quiet(q.margin, q.aggregate) && Fitting(q.aggregate, d)
    requires v == Step(LetIn(q, d), StopTx(1)) && xs == [RigActs, RigReplies(true)]
    ensures PhaseAfter(v, 1, xs) == Waiting
    ensures Run(v, xs) == KeyDownLast(q, d)
  {
    assert [] + [RigActs] == [RigActs] && [RigActs] + [RigReplies(true)] == xs;
    PhaseStep(v, 1, [], RigActs);
    PhaseStep(v, 1, [RigActs], RigReplies(true));
    KeyDownIsQueued(q, d, v, Run(v, [RigActs]));
  }

  lemma KeyDownIsQueued(q: World, d: nat, v: World, u: World)
    requires q == Quiet(q.margin, q.aggregate) && Fitting(q.aggregate, d)
    requires v == Step(LetIn(q, d), StopTx(1)) && u == Step(v, RigActs)
    ensures Step(u, RigReplies(true)) == KeyDownLast(q, d)
    ensures Follow(v, 1, RigActs, Waiting) == Waiting && Follow(u, 1, RigReplies(true), Waiting) == Waiting
  {
    assert v == LetIn(q, d).(armed := false, tasks := map[0 := PreTxOff(d), 1 := StopOff],
                             queue := [Command(0, false), Command(1, false)]);
    assert u == v.(line := false, acted := true) && CanReply(u, true);
    var r := OffResult(Popped(u), true);
    assert r == q.(tasks := map[0 := PreTxOff(d), 1 := StopOff], queue := [Command(1, false)]);
    assert Step(u, RigReplies(true)) == Issue(r, 0, Keying(d), true);
    assert r.tasks[0 := Keying(d)] == map[0 := Keying(d), 1 := StopOff];
  }

  lemma StopIsAnswered(q: World, d: nat, u: World, v: World)
    requires q == Quiet(q.margin, q.aggregate)
    requires u == Step(KeyDownLast(q, d), RigActs) && v == Step(u, RigReplies(true))
    ensures Follow(KeyDownLast(q, d), 1, RigActs, Waiting) == Waiting && Follow(u, 1, RigReplies(true), Waiting) == Won
    ensures v.queue == [Command(0, true)] && !v.armed && !v.acted
  {
    assert u == KeyDownLast(q, d).(acted := true);
    assert CanReply(u, true) && v == Finish(KeyDownLast(q, d).(queue := [Command(0, true)]), 1);
  }

  lemma KeyDownFollowsStop(q: World, d: nat, v: World, xs: seq<Action>, ys: seq<Action>)
    requires q == Quiet(q.margin, q.aggregate) && PhaseAfter(v, 1, xs) == Waiting && Run(v, xs) == KeyDownLast(q, d)
    requires ys == xs + [RigActs] + [RigReplies(true)] + [RigActs]
    ensures PhaseAfter(v, 1, ys) == Won && Run(v, ys).line && !Run(v, ys).armed
  {
    PhaseStep(v, 1, xs, RigActs);
    PhaseStep(v, 1, xs + [RigActs], RigReplies(true));
    PhaseStep(v, 1, xs + [RigActs] + [RigReplies(true)], RigActs);
    StopIsAnswered(q, d, Run(v, xs + [RigActs]), Run(v, xs + [RigActs] + [RigReplies(true)]));
  }

  lemma LetInIsReached(margin: nat, aggregate: nat, d: nat) returns (ys: seq<Action>)
    requires Fitting(aggregate, d)
    ensures Run(Quiet(margin, aggregate), ys) == LetIn(Quiet(margin, aggregate), d)
  {
    var q, f := Quiet(margin, aggregate), Failures(false, true);
    var p := ArmedAndUncertain(margin, aggregate, d);
    p := Go(p, q, Stuck(q), f, Transmit(0, d), LetIn(q, d));
    RunOf(p, q, LetIn(q, d), f);
    ys := p.actions;
  }

  /**
   * STOP does not win over a transmission still releasing the line before its key-down: for every waveform that fits
   * the budget a run from start-up and a STOP leave the rig keyed and disarmed.
   */
  lemma StopCanComeTooEarly(margin: nat, aggregate: nat, d: nat)
    returns (ys: seq<Action>, sid: nat, xs: seq<Action>)
    requires Fitting(aggregate, d)
    ensures var w := Run(NewWorld(margin, aggregate, true, false), ys);
            var v := Step(w, StopTx(sid));
            && sid !in w.tasks && LettingIn(w, 0)
            && PhaseAfter(v, sid, xs) == Won && Run(v, xs).line && !Run(v, xs).armed
  {
    var q := Quiet(margin, aggregate);
    ys := LetInIsReached(margin, aggregate, d);
    sid := 1;
    var first := [RigActs, RigReplies(true)];
    KeyDownQueuesBehindStop(q, d, Step(LetIn(q, d), StopTx(1)), first);
    xs := first + [RigActs] + [RigReplies(true)] + [RigActs];
    KeyDownFollowsStop(q, d, Step(LetIn(q, d), StopTx(1)), first, xs);
  }

  // ---- and every such state lets the STOP down ----------------------------

  /** Every coroutine waiting for the rig has its command in the queue. */
  predicate NoneStranded(w: World) {
    forall id | id in w.tasks && w.tasks[id].OnRig() :: Queued(w, id)
  }

  /** What every reachable state satisfies. */
  predicate Steady(w: World) { Inv(w) && Clocked(w) && NoneStranded(w) }

  predicate OthersQueued(w: World, id: nat) {
    forall k | k in w.tasks && k != id && w.tasks[k].OnRig() :: Queued(w, k)
  }

  /** Only coroutine `id` moved: it left, stopped waiting for the rig, or queued one command. */
  predicate Moved(w: World, v: World, id: nat) {
    && (forall k | k in v.tasks && k != id :: k in w.tasks && v.tasks[k] == w.tasks[k])
    && ((v.queue == w.queue && (id in v.tasks ==> !v.tasks[id].OnRig()))
        || v.queue == w.queue + [Command(id, true)] || v.queue == w.queue + [Command(id, false)])
  }

  lemma MovedStrandsNone(w: World, v: World, id: nat)
    requires OthersQueued(w, id) && Moved(w, v, id)
    ensures NoneStranded(v)
  {
    forall k | k in v.tasks && v.tasks[k].OnRig() ensures Queued(v, k) {
      if k == id {
        assert v.queue[|w.queue|].id == id;
      } else {
        var i :| 0 <= i < |w.queue| && w.queue[i].id == k;
        assert v.queue[i].id == k;
      }
    }
  }

  lemma ReplyStrandsNone(w: World, ok: bool)
    requires NoneStranded(w) && CanReply(w, ok)
    ensures NoneStranded(Resume(w, ok))
  {
    var u, c := Popped(w), w.queue[0];
    forall k | k in u.tasks && k != c.id && u.tasks[k].OnRig() ensures Queued(u, k) {
      var i :| 0 <= i < |w.queue| && w.queue[i].id == k;
      assert u.queue[i - 1].id == k;
    }
    ReplyMoves(w, ok);
    MovedStrandsNone(u, Resume(w, ok), c.id);
  }

  lemma FinalizeMoves(w: World, id: nat)
    ensures Moved(w, Finalize(w, id), id) && Moved(w, Finish(w, id), id) && Moved(w, Finish(Armed(w), id), id)
    ensures Moved(w, Finish(w.(pttOn := false), id), id)
  {
  }

  lemma AfterOffMoves(w: World, id: nat, at: Await, ok: bool)
    ensures Moved(w, AfterOff(w, id, at, ok), id)
  {
    match at
    case PreTxOff(d) => if !ok { FinalizeMoves(w, id); }
    case _ => FinalizeMoves(w, id);
  }

  lemma ReplyMoves(w: World, ok: bool)
    requires CanReply(w, ok)
    ensures Moved(Popped(w), Resume(w, ok), w.queue[0].id)
  {
    var id := w.queue[0].id;
    if !w.queue[0].on {
      AfterOffMoves(OffResult(Popped(w), ok), id, w.tasks[id], ok);
    }
  }

  lemma InsideMoves(w: World, id: nat, outcome: PlayOutcome)
    ensures Moved(w, FaultInside(w, id), id)
    ensures PlayMayEnd(w, id) ==> Moved(w, PlayEnded(w, id, outcome), id)
  {
  }

  lemma BeginMoves(w: World, x: Action, id: nat)
    requires x in {StopTx(id), ArmTx(id), StartUp(id), RigReconnect(id)} || (x.Transmit? && x.id == id)
          || (x.ReportFault? && x.id == id)
    requires id !in w.tasks
    ensures Moved(w, Step(w, x), id)
  {
  }

  lemma StepStrandsNone(w: World, x: Action)
    requires NoneStranded(w)
    ensures NoneStranded(Step(w, x))
  {
    match x
    case RigReplies(ok) => if CanReply(w, ok) { ReplyStrandsNone(w, ok); }
    case PlayEnds(id, outcome) =>
      if PlayMayEnd(w, id) {
        InsideMoves(w, id, outcome);
        MovedStrandsNone(w, PlayEnded(w, id, outcome), id);
      }
    case Drained(id) =>
      if id in w.tasks && w.tasks[id].Draining? {
        InsideMoves(w, id, Played);
        MovedStrandsNone(w, FaultInside(w, id), id);
      }
    case Deadline(id) => if DeadlinePassed(w, id) { MovedStrandsNone(w, Step(w, x), id); }
    case Transmit(id, _) => BeginStrandsNone(w, x, id);
    case StopTx(id) => BeginStrandsNone(w, x, id);
    case ReportFault(id, _) => BeginStrandsNone(w, x, id);
    case ArmTx(id) => BeginStrandsNone(w, x, id);
    case StartUp(id) => BeginStrandsNone(w, x, id);
    case RigReconnect(id) => BeginStrandsNone(w, x, id);
    case _ => assert forall k | Queued(w, k) :: Queued(Step(w, x), k);
  }

  lemma BeginStrandsNone(w: World, x: Action, id: nat)
    requires NoneStranded(w)
    requires x in {StopTx(id), ArmTx(id), StartUp(id), RigReconnect(id)} || (x.Transmit? && x.id == id)
          || (x.ReportFault? && x.id == id)
    ensures NoneStranded(Step(w, x))
  {
    if id !in w.tasks {
      BeginMoves(w, x, id);
      MovedStrandsNone(w, Step(w, x), id);
    }
  }

  lemma StepKeepsSteady(w: World, x: Action)
    requires Steady(w)
    ensures Steady(Step(w, x))
  {
    StepKeepsInv(w, x);
    StepKeepsClocked(w, x);
    StepStrandsNone(w, x);
  }

  lemma {:induction false} RunKeepsSteady(w: World, xs: seq<Action>)
    requires Steady(w)
    ensures Steady(Run(w, xs))
  {
    if xs != [] {
      RunKeepsSteady(w, xs[..|xs| - 1]);
      StepKeepsSteady(Run(w, xs[..|xs| - 1]), xs[|xs| - 1]);
    }
  }

  lemma ReachableIsSteady(margin: nat, aggregate: nat, released: bool, line: bool, xs: seq<Action>)
    ensures Steady(Run(NewWorld(margin, aggregate, released, line), xs))
  {
    RunKeepsSteady(NewWorld(margin, aggregate, released, line), xs);
  }

  // ---- driving the rig's queue ----------------------------------------------

  /** A run written out state by state, with the STOP's phase beside each state. */
  datatype Trace = Trace(worlds: seq<World>, phases: seq<StopPhase>, actions: seq<Action>)

  predicate Sized(t: Trace) { |t.worlds| == |t.phases| == |t.actions| + 1 }

  predicate Link(t: Trace, sid: nat, i: nat)
    requires Sized(t) && i < |t.actions|
  {
    && t.worlds[i + 1] == Step(t.worlds[i], t.actions[i])
    && t.phases[i + 1] == Follow(t.worlds[i], sid, t.actions[i], t.phases[i])
  }

  predicate Linked(t: Trace, sid: nat) {
    Sized(t) && t.phases[0] == Waiting && forall i | 0 <= i < |t.actions| :: Link(t, sid, i)
  }

  function End(t: Trace): World
    requires Sized(t)
  {
    t.worlds[|t.actions|]
  }

  /** A sound trace from `v0` that has not re-armed and in which the STOP stands at `phase`. */
  predicate At(t: Trace, v0: World, sid: nat, phase: StopPhase) {
    && Linked(t, sid) && t.worlds[0] == v0 && Inv(End(t)) && !End(t).armed && t.phases[|t.actions|] == phase
  }

  lemma {:induction false} TraceIsRun(t: Trace, sid: nat, n: nat)
    requires Linked(t, sid) && n <= |t.actions|
    ensures Run(t.worlds[0], t.actions[..n]) == t.worlds[n]
    ensures PhaseAfter(t.worlds[0], sid, t.actions[..n]) == t.phases[n]
  {
    if n > 0 {
      TraceIsRun(t, sid, n - 1);
      assert t.actions[..n][..n - 1] == t.actions[..n - 1];
      assert Link(t, sid, n - 1);
    }
  }

  lemma Extend(t: Trace, v0: World, sid: nat, phase: StopPhase, x: Action) returns (u: Trace)
    requires At(t, v0, sid, phase) && !Step(End(t), x).armed
    ensures At(u, v0, sid, Follow(End(t), sid, x, phase)) && End(u) == Step(End(t), x)
  {
    var v := End(t);
    u := Trace(t.worlds + [Step(v, x)], t.phases + [Follow(v, sid, x, phase)], t.actions + [x]);
    forall i | 0 <= i < |u.actions| ensures Link(u, sid, i) {
      if i < |t.actions| {
        assert Link(t, sid, i);
      }
    }
    StepKeepsInv(v, x);
  }

  /** The first `k` commands are gone; those behind them, and the coroutines they belong to, are as they were. */
  predicate Advanced(v: World, u: World, k: nat) {
    && k <= |v.queue| <= |u.queue| + k && u.queue[..|v.queue| - k] == v.queue[k..]
    && (forall i | k <= i < |v.queue| && v.queue[i].id in v.tasks ::
          v.queue[i].id in u.tasks && u.tasks[v.queue[i].id] == v.tasks[v.queue[i].id])
    && u.txSeconds == v.txSeconds && u.aggregate == v.aggregate
  }

  lemma AdvancedKeeps(v: World, u: World, k: nat, i: nat)
    requires Advanced(v, u, k) && k <= i < |v.queue|
    ensures i - k < |u.queue| && u.queue[i - k] == v.queue[i]
    ensures v.queue[i].id in v.tasks ==> v.queue[i].id in u.tasks && u.tasks[v.queue[i].id] == v.tasks[v.queue[i].id]
  {
    assert u.queue[i - k] == u.queue[..|v.queue| - k][i - k] == v.queue[k..][i - k];
  }

  lemma AdvancedFurther(v: World, u: World, t: World, k: nat)
    requires Advanced(v, u, 1) && Advanced(u, t, k) && k + 1 <= |v.queue|
    ensures Advanced(v, t, k + 1)
  {
    assert v.queue[1..][k..] == v.queue[k + 1..];
    assert u.queue[..|v.queue| - 1][k..] == u.queue[k..][..|v.queue| - 1 - k];
    forall i | k + 1 <= i < |v.queue| ensures u.queue[i - 1] == v.queue[i] {
      assert u.queue[..|v.queue| - 1][i - 1] == v.queue[1..][i - 1];
    }
  }

  lemma FailHead(v: World)
    requires Inv(v) && v.queue != [] && !v.armed
    ensures var u := Step(v, RigReplies(false));
            CanReply(v, false) && Advanced(v, u, 1) && !u.armed
  {
    FailureOnlyReleases(v);
    var u := Resume(v, false);
    assert u.queue[..|v.queue| - 1] == v.queue[1..];
  }

  lemma FailureOnlyReleases(v: World)
    requires Inv(v) && v.queue != [] && !v.armed
    ensures CanReply(v, false) && RepliesOnlyRelease(v, Resume(v, false))
    ensures !Resume(v, false).armed && Resume(v, false).txSeconds == v.txSeconds
    ensures Resume(v, false).aggregate == v.aggregate
  {
    ReplyOnlyReleases(v, false);
  }

  predicate NotAmong(v: World, sid: nat, k: nat) {
    forall i | 0 <= i < k && i < |v.queue| :: v.queue[i].id != sid
  }

  lemma FailOne(t: Trace, v0: World, sid: nat, phase: StopPhase) returns (u: Trace)
    requires At(t, v0, sid, phase) && phase != Rearmed && End(t).queue != [] && End(t).queue[0].id != sid
    ensures At(u, v0, sid, phase) && Advanced(End(t), End(u), 1)
  {
    FailHead(End(t));
    u := Extend(t, v0, sid, phase, RigReplies(false));
  }

  lemma NotAmongAfter(v: World, u: World, sid: nat, k: nat)
    requires Advanced(v, u, 1) && NotAmong(v, sid, k + 1) && k + 1 <= |v.queue|
    ensures NotAmong(u, sid, k) && k <= |u.queue|
  {
    forall i | 0 <= i < k ensures u.queue[i].id != sid {
      AdvancedKeeps(v, u, 1, i + 1);
    }
  }

  /** Failing the rig's first `k` commands brings the one behind them to the head. */
  lemma {:induction false} FailFirst(t: Trace, v0: World, sid: nat, phase: StopPhase, k: nat) returns (u: Trace)
    requires At(t, v0, sid, phase) && phase != Rearmed && k <= |End(t).queue| && NotAmong(End(t), sid, k)
    ensures At(u, v0, sid, phase) && Advanced(End(t), End(u), k)
    decreases k
  {
    if k == 0 {
      u := t;
    } else {
      var next := FailOne(t, v0, sid, phase);
      NotAmongAfter(End(t), End(next), sid, k - 1);
      u := FailFirst(next, v0, sid, phase, k - 1);
      AdvancedFurther(End(t), End(next), End(u), k - 1);
    }
  }

  function Answered(v: World): World { Step(Step(v, RigActs), RigReplies(true)) }

  /** The rig acts on its oldest command and reports success. */
  lemma AnswerHead(t: Trace, v0: World, sid: nat, phase: StopPhase) returns (u: Trace)
    requires At(t, v0, sid, phase) && phase in {Waiting, Won} && End(t).queue != [] && !Answered(End(t)).armed
    ensures At(u, v0, sid, if phase == Waiting && End(t).queue[0].id == sid then Won else phase)
    ensures End(u) == Answered(End(t))
  {
    var acted := Extend(t, v0, sid, phase, RigActs);
    HeadIsAnswerable(End(t));
    u := Extend(acted, v0, sid, phase, RigReplies(true));
  }

  lemma HeadIsAnswerable(v: World)
    requires Inv(v) && v.queue != []
    ensures CanReply(Step(v, RigActs), true) && Step(v, RigActs).queue == v.queue
  {
  }

  /** Let in, the transmission queues its key-down behind everything already waiting, the STOP's release included. */
  lemma KeyDownGoesLast(v: World, id: nat)
    requires Inv(v) && !v.armed && v.queue != [] && v.queue[0].id == id && LettingIn(v, id)
    ensures var u := Answered(v);
            && !u.armed && u.queue == v.queue[1..] + [Command(id, true)]
            && u.tasks == v.tasks[id := Keying(v.tasks[id].duration)]
  {
    assert CanReply(Step(v, RigActs), true) && !v.queue[0].on;
  }

  lemma StopLeavesQueue(v: World, sid: nat)
    requires Inv(v) && !v.armed && v.queue != [] && v.queue[0].id == sid && v.tasks[sid].Halting()
    ensures var u := Answered(v);
            !u.armed && u.queue == v.queue[1..] && u.tasks == v.tasks - {sid}
  {
    assert CanReply(Step(v, RigActs), true) && !v.queue[0].on;
  }

  /** A key-down at the head of the rig's queue keys the rig, whatever the STOP's fate. */
  lemma KeyDownActs(t: Trace, v0: World, sid: nat) returns (u: Trace)
    requires At(t, v0, sid, Won) && End(t).queue != [] && End(t).queue[0].on
    ensures At(u, v0, sid, Won) && End(u).line
  {
    u := Extend(t, v0, sid, Won, RigActs);
  }

  // ---- the transmission let in overtakes the STOP -----------------------------

  /** STOP `sid` waits at `k`, and at `last` behind it a key-down. */
  predicate Overtaken(v: World, sid: nat, id: nat, k: nat, last: nat) {
    && k < last < |v.queue| && v.queue[k].id == sid && v.queue[last] == Command(id, true)
    && sid in v.tasks && v.tasks[sid].Halting()
  }

  lemma OvertakenBefore(v: World, sid: nat, id: nat, k: nat, last: nat)
    requires Matched(v) && Overtaken(v, sid, id, k, last)
    ensures k <= |v.queue| && NotAmong(v, sid, k)
  {
  }

  lemma OvertakenAfter(v: World, u: World, sid: nat, id: nat, k: nat, last: nat, d: nat)
    requires Advanced(v, u, k) && Overtaken(v, sid, id, k, last) && d == last - k
    ensures Overtaken(u, sid, id, 0, d)
  {
    AdvancedKeeps(v, u, k, k);
    AdvancedKeeps(v, u, k, last);
  }

  lemma LetInOvertaken(v: World, sid: nat, id: nat, k: nat)
    requires Inv(v) && !v.armed && v.queue != [] && v.queue[0].id == id && LettingIn(v, id)
    requires 0 < k < |v.queue| && v.queue[k].id == sid && sid in v.tasks && v.tasks[sid].Halting()
    ensures !Answered(v).armed && Overtaken(Answered(v), sid, id, k - 1, |v.queue| - 1)
  {
    KeyDownGoesLast(v, id);
  }

  lemma StopBehindLetIn(w: World, x: Action, sid: nat, id: nat) returns (t: Trace, k: nat)
    requires Steady(w) && Halts(w, x, sid) && LettingIn(w, id)
    ensures var v0 := Step(w, x);
            && At(t, v0, sid, Waiting) && End(t) == v0
            && k < |w.queue| && v0.queue[k].id == id && LettingIn(v0, id) && NotAmong(v0, sid, k)
            && v0.queue[|w.queue|].id == sid && |v0.queue| == |w.queue| + 1
            && sid in v0.tasks && v0.tasks[sid].Halting()
  {
    var v0 := Step(w, x);
    StepKeepsInv(w, x);
    t := Trace([v0], [Waiting], []);
    assert Queued(w, id);
    k :| 0 <= k < |w.queue| && w.queue[k].id == id;
    assert v0.queue[k].id == id && v0.queue[|w.queue|].id == sid;
  }

  lemma LetInNext(v: World, u: World, sid: nat, id: nat, k: nat, at: nat)
    requires Advanced(v, u, k) && k < at < |v.queue| && v.queue[k].id == id && LettingIn(v, id)
    requires v.queue[at].id == sid && sid in v.tasks && v.tasks[sid].Halting()
    ensures u.queue != [] && u.queue[0].id == id && LettingIn(u, id)
    ensures at - k < |u.queue| && u.queue[at - k].id == sid && sid in u.tasks && u.tasks[sid].Halting()
  {
    AdvancedKeeps(v, u, k, k);
    AdvancedKeeps(v, u, k, at);
  }

  /** First half: the rig lets the transmission in, so its key-down now waits behind the STOP. */
  lemma KeyDownOvertaken(w: World, x: Action, sid: nat, id: nat) returns (t: Trace, k: nat, last: nat)
    requires Steady(w) && Halts(w, x, sid) && LettingIn(w, id)
    ensures At(t, Step(w, x), sid, Waiting) && Overtaken(End(t), sid, id, k, last)
  {
    var v0 := Step(w, x);
    var start, at := StopBehindLetIn(w, x, sid, id);
    var head := FailFirst(start, v0, sid, Waiting, at);
    LetInNext(v0, End(head), sid, id, at, |w.queue|);
    LetInOvertaken(End(head), sid, id, |w.queue| - at);
    t := AnswerHead(head, v0, sid, Waiting);
    k, last := |w.queue| - at - 1, |End(head).queue| - 1;
  }

  /** Second half: the STOP reaches the head of the queue, with the key-down still behind it. */
  lemma StopReachesHead(t: Trace, v0: World, sid: nat, id: nat, k: nat, last: nat) returns (u: Trace, d: nat)
    requires At(t, v0, sid, Waiting) && Overtaken(End(t), sid, id, k, last)
    ensures At(u, v0, sid, Waiting) && Overtaken(End(u), sid, id, 0, d)
  {
    OvertakenBefore(End(t), sid, id, k, last);
    u := FailFirst(t, v0, sid, Waiting, k);
    d := last - k;
    OvertakenAfter(End(t), End(u), sid, id, k, last, d);
  }

  /** STOP `sid` has left the queue; the key-down is still in it. */
  predicate Alone(v: World, sid: nat, id: nat, last: nat) {
    last < |v.queue| && v.queue[last] == Command(id, true) && NotAmong(v, sid, |v.queue|)
  }

  lemma StopGone(v: World, sid: nat, id: nat, last: nat)
    requires Inv(v) && !v.armed && Overtaken(v, sid, id, 0, last)
    ensures !Answered(v).armed && Alone(Answered(v), sid, id, last - 1)
  {
    StopLeavesQueue(v, sid);
  }

  /** Its success takes it out of the queue, and nothing else. */
  lemma StopSucceeds(t: Trace, v0: World, sid: nat, id: nat, last: nat) returns (u: Trace, d: nat)
    requires At(t, v0, sid, Waiting) && Overtaken(End(t), sid, id, 0, last)
    ensures At(u, v0, sid, Won) && Alone(End(u), sid, id, d)
  {
    StopGone(End(t), sid, id, last);
    u := AnswerHead(t, v0, sid, Waiting);
    d := last - 1;
  }

  lemma AloneBefore(v: World, sid: nat, id: nat, last: nat)
    requires Alone(v, sid, id, last)
    ensures NotAmong(v, sid, last) && last <= |v.queue|
  {
  }

  lemma KeyDownFollows(t: Trace, v0: World, sid: nat, id: nat, last: nat) returns (u: Trace)
    requires At(t, v0, sid, Won) && Alone(End(t), sid, id, last)
    ensures At(u, v0, sid, Won) && End(u).line
  {
    AloneBefore(End(t), sid, id, last);
    var head := FailFirst(t, v0, sid, Won, last);
    AdvancedKeeps(End(t), End(head), last, last);
    u := KeyDownActs(head, v0, sid);
  }

  lemma KeyDownWins(w: World, x: Action, sid: nat, id: nat) returns (xs: seq<Action>)
    requires Steady(w) && Halts(w, x, sid) && LettingIn(w, id)
    ensures PhaseAfter(Step(w, x), sid, xs) == Won && Run(Step(w, x), xs).line
  {
    var v0 := Step(w, x);
    var t, k, last := KeyDownOvertaken(w, x, sid, id);
    t, last := StopReachesHead(t, v0, sid, id, k, last);
    t, last := StopSucceeds(t, v0, sid, id, last);
    t := KeyDownFollows(t, v0, sid, id, last);
    xs := t.actions;
    TraceIsRun(t, sid, |xs|);
    assert t.actions[..|xs|] == xs;
  }

  /**
   * From any reachable state: a halt whose release succeeds leaves the rig unkeyed until the next arm, whatever
   * happens, exactly when no transmission within budget is still waiting for its pre-TX release.
   */
  lemma StopWinsExactlyWhen(w: World, x: Action, sid: nat)
    requires Steady(w) && Halts(w, x, sid)
    ensures (forall xs :: PhaseAfter(Step(w, x), sid, xs) == Won ==> !Run(Step(w, x), xs).line) <==> NoneLettingIn(w)
  {
    if NoneLettingIn(w) {
      forall xs ensures PhaseAfter(Step(w, x), sid, xs) == Won ==> !Run(Step(w, x), xs).line {
        StopWins(w, x, sid, xs);
      }
    } else {
      var id :| LettingIn(w, id);
      var xs := KeyDownWins(w, x, sid, id);
    }
  }

  // ---- no key-down after a halt ------------------------------------------------

  /** A key-down queued in `v` that was not queued before the halt. */
  predicate NewKeyDown(v: World, before: seq<Command>) {
    exists i :: 0 <= i < |v.queue| && v.queue[i].on && v.queue[i] !in before
  }

  lemma LetInQueuesKeyDown(w: World, x: Action, sid: nat, id: nat) returns (xs: seq<Action>)
    requires Steady(w) && Halts(w, x, sid) && LettingIn(w, id)
    ensures PhaseAfter(Step(w, x), sid, xs) != Rearmed && NewKeyDown(Run(Step(w, x), xs), w.queue)
  {
    var t, k, last := KeyDownOvertaken(w, x, sid, id);
    xs := t.actions;
    TraceIsRun(t, sid, |xs|);
    assert t.actions[..|xs|] == xs;
    assert End(t).queue[last] == Command(id, true);
    assert Command(id, true) !in w.queue;
  }

  /**
   * After a STOP, a start-up or a newly reported fault TX is disarmed, and until an arm no key-down joins the rig's
   * queue: always if no transmission within budget was waiting for its pre-TX release at the call, and only then.
   */
  lemma NoKeyDownExactlyWhen(w: World, x: Action, sid: nat)
    requires Steady(w) && Halts(w, x, sid)
    ensures !Step(w, x).armed && (x.ReportFault? ==> x.source in Step(w, x).faults)
    ensures (forall xs :: PhaseAfter(Step(w, x), sid, xs) != Rearmed ==> !NewKeyDown(Run(Step(w, x), xs), w.queue))
            <==> NoneLettingIn(w)
  {
    if NoneLettingIn(w) {
      forall xs ensures PhaseAfter(Step(w, x), sid, xs) != Rearmed ==> !NewKeyDown(Run(Step(w, x), xs), w.queue) {
        HaltBars(w, x, sid, xs);
      }
    } else {
      var id :| LettingIn(w, id);
      var xs := LetInQueuesKeyDown(w, x, sid, id);
    }
  }
}
