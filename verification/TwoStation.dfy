/**
 * Two automata on one band: a caller that answers replies to its CQ and an answerer that replies to it.
 * The air keeps every text ever transmitted, and a listener may hear any of them, any number of times, at
 * any later moment or never; stations with other base calls may say anything at all.
 */
module TwoStation {
  import opened Prelude
  import opened MsgParse
  import opened Qso

  datatype World = World(a: Station, b: Station, airA: set<string>, airB: set<string>)

  datatype Action =
    | PullA(sent: bool)
    | PullB(sent: bool)
    | HearA(text: string, measured: Option<int>, now: int)
    | HearB(text: string, measured: Option<int>, now: int)
    | StopA(reason: DisarmReason)
    | StopB(reason: DisarmReason)
    | StartA(frequency: int)
    | StartB(snr: int, phase: int, frequency: int, now: int)

  function NewWorld(callA: string, gridA: string, retriesA: nat, callB: string, gridB: string, retriesB: nat): World {
    World(NewStation(callA, gridA, retriesA), NewStation(callB, gridB, retriesB), {}, {})
  }

  predicate Bystander(w: World, text: string) {
    BaseCall(Parse(text).fromCall) !in {BaseCall(w.a.myCall), BaseCall(w.b.myCall)}
  }

  /** Which operator keeps from starting over in mid-QSO, and which from starting again once the caller has logged. */
  datatype Rules = Rules(caller: bool, answerer: bool, callerLater: bool, answererLater: bool) {
    predicate MidQso() { caller && answerer }

    predicate Later() { callerLater && answererLater }
  }

  predicate With(call: string, r: Record) { BaseCall(r.dxCall) == BaseCall(call) }

  /** The caller has logged the answerer. */
  predicate Concluded(w: World) { exists r :: r in w.a.log && With(w.b.myCall, r) }

  /** The caller may start over as long as nothing it transmitted was addressed to the answerer. */
  ghost predicate CallerMayRestart(w: World) {
    forall t | t in w.airA :: !AddressedTo(Parse(t), w.b.myCall)
  }

  /** The answerer may pick the caller again as long as it has transmitted no report. */
  ghost predicate AnswererMayRestart(w: World) {
    forall t | t in w.airB :: Parse(t).report.None?
  }

  function Act(w: World, x: Action): World {
    match x
    case PullA(sent) =>
      var (a, text) := NextTx(w.a);
      w.(a := a, airA := w.airA + if sent && text.Some? then {text.value} else {})
    case PullB(sent) =>
      var (b, text) := NextTx(w.b);
      w.(b := b, airB := w.airB + if sent && text.Some? then {text.value} else {})
    case HearA(text, snr, now) =>
      if text in w.airB || Bystander(w, text) then w.(a := OnMessage(w.a, Parse(text), snr, now)) else w
    case HearB(text, snr, now) =>
      if text in w.airA || Bystander(w, text) then w.(b := OnMessage(w.b, Parse(text), snr, now)) else w
    case StopA(reason) => w.(a := Stop(w.a, reason))
    case StopB(reason) => w.(b := Stop(w.b, reason))
    case StartA(f) => w.(a := StartCq(w.a, f))
    case StartB(snr, phase, f, now) =>
      w.(b := ReplyTo(w.b, Parse(CqText(w.a.myCall, w.a.myGrid)), snr, phase, f, now))
  }

  /**
   * What the rules forbid: the caller to start between its first text to the answerer and its own log entry, the
   * answerer between its first report and that entry, and either to start again after the entry.
   */
  ghost predicate HeldBack(w: World, x: Action, g: Rules) {
    || (x.StartA? && if Concluded(w) then g.callerLater else g.caller && !CallerMayRestart(w))
    || (x.StartB? && if Concluded(w) then g.answererLater else g.answerer && !AnswererMayRestart(w))
  }

  /** One step; what the rules forbid leaves the world alone. */
  ghost function Step(w: World, x: Action, g: Rules): World { if HeldBack(w, x, g) then w else Act(w, x) }

  ghost function Run(w: World, xs: seq<Action>, g: Rules): World {
    if xs == [] then w else Step(Run(w, xs[..|xs| - 1], g), xs[|xs| - 1], g)
  }

  // ---- the texts the two exchange --------------------------------------

  function ReportOf(s: Station): string { FormatReport(s.reportSent.GetOr(DEFAULT_REPORT_DB)) }

  function GridB(w: World): string { ExchangeText(w.a.myCall, w.b.myCall, w.b.myGrid) }
  function RogerB(w: World): string { ExchangeText(w.a.myCall, w.b.myCall, "R" + ReportOf(w.b)) }
  function FinalB(w: World): string { ExchangeText(w.a.myCall, w.b.myCall, "73") }
  function ReportA(w: World): string { ExchangeText(w.b.myCall, w.a.myCall, ReportOf(w.a)) }
  function RogersA(w: World): string { ExchangeText(w.b.myCall, w.a.myCall, "RR73") }

  predicate GoodSetup(w: World) {
    && IsCall(w.a.myCall) && IsCall(w.b.myCall) && BaseCall(w.a.myCall) != BaseCall(w.b.myCall)
    && IsUpperGrid(w.a.myGrid) && IsUpperGrid(w.b.myGrid)
  }

  function FromA(w: World): ParsedMessage { BLANK.(toCall := w.b.myCall, fromCall := w.a.myCall) }
  function FromB(w: World): ParsedMessage { BLANK.(toCall := w.a.myCall, fromCall := w.b.myCall) }

  lemma TextsOfBReadBack(w: World)
    requires GoodSetup(w) && w.b.myGrid != "RR73"
    ensures Parse(GridB(w)) == FromB(w).(grid := w.b.myGrid)
    ensures Parse(RogerB(w)) == FromB(w).(report := Some(WireReport(w.b.reportSent)), hasRoger := true)
    ensures Parse(FinalB(w)) == FromB(w).(isEom := true, eom := "73")
  {
    UpperGridIsFixed(w.b.myGrid);
    GridTokenReadsBack(FromB(w), w.b.myGrid);
    ReportTokenReadsBack(FromB(w), w.b.reportSent.GetOr(DEFAULT_REPORT_DB));
    assert IsWord("73");
    ParseTriple(w.a.myCall, w.b.myCall, w.b.myGrid);
    ParseTriple(w.a.myCall, w.b.myCall, "R" + ReportOf(w.b));
    ParseTriple(w.a.myCall, w.b.myCall, "73");
  }

  lemma TextsOfAReadBack(w: World)
    requires GoodSetup(w)
    ensures Parse(ReportA(w)) == FromA(w).(report := Some(WireReport(w.a.reportSent)))
    ensures Parse(RogersA(w)) == FromA(w).(isEom := true, eom := "RR73", hasRoger := true)
  {
    ReportTokenReadsBack(FromA(w), w.a.reportSent.GetOr(DEFAULT_REPORT_DB));
    assert IsWord("RR73");
    ParseTriple(w.b.myCall, w.a.myCall, ReportOf(w.a));
    ParseTriple(w.b.myCall, w.a.myCall, "RR73");
  }

  lemma {:induction false} TokensAreWords(s: string, word: string)
    requires forall i | 0 <= i < |word| :: !IsSpace(word[i])
    ensures forall t | t in Tokens(s, word) :: IsWord(t)
  {
    if s != "" {
      if IsSpace(s[0]) {
        TokensAreWords(s[1..], "");
      } else {
        TokensAreWords(s[1..], word + [s[0]]);
      }
    }
  }

  lemma {:induction false} TailKeepsCalls(m: ParsedMessage, tail: seq<string>)
    ensures ApplyTail(m, tail).fromCall == m.fromCall && ApplyTail(m, tail).toCall == m.toCall
    ensures ApplyTail(m, tail).isCq == m.isCq
    decreases |tail|
  {
    if tail != [] {
      TailKeepsCalls(ApplyToken(m, tail[0]), tail[1..]);
    }
  }

  lemma SenderIsWord(text: string)
    ensures Parse(text).fromCall == "" || IsWord(Parse(text).fromCall)
    ensures Parse(text).toCall != "" ==> IsWord(Parse(text).fromCall)
  {
    var ts := Split(text);
    TokensAreWords(text, "");
    if |ts| >= 2 {
      assert ts[0] in ts && ts[1] in ts;
      TailKeepsCalls(BLANK.(toCall := ts[0], fromCall := ts[1]), ts[2..]);
      if |ts| >= 3 {
        assert ts[2] in ts;
      }
    }
  }

  /** A message printed for someone whose base differs from `other` never reads as addressed to `other`. */
  lemma PrintedForSomeoneElse(dx: string, my: string, tail: string, other: string)
    requires IsWord(dx) && IsCall(my) && IsWord(tail) && BaseCall(dx) != BaseCall(other)
    ensures !AddressedTo(Parse(ExchangeText(dx, my, tail)), other)
  {
    CallIsWord(my);
    SplitWords(dx, my, tail);
    TailKeepsCalls(BLANK.(toCall := dx, fromCall := my), [dx, my, tail][2..]);
  }

  // ---- what every reachable world satisfies ----------------------------

  /** The answerer follows grid, roger-report, 73 and has logged exactly what the two put on the air. */
  predicate AnswererFits(w: World) {
    && Coherent(w.b)
    && w.b.state in {Idle, Replying, RogerReport, Signoff, Done}
    && (w.b.txEnabled ==> w.b.dxCall == w.a.myCall && !w.b.partnerLossStop && w.b.dxGrid == w.a.myGrid)
    && (w.b.reportRcvd.Some? ==> w.b.reportRcvd == Some(WireReport(w.a.reportSent)) && ReportA(w) in w.airA)
    && (w.b.state == RogerReport ==> w.b.reportRcvd.Some?)
    && (w.b.qsoLogged ==> w.b.reportRcvd.Some? && RogersA(w) in w.airA && w.b.log == [AnswererRecord(w)])
    && (!w.b.qsoLogged ==> w.b.log == [])
    && (forall t | t in w.airB :: t in {GridB(w), RogerB(w), FinalB(w)})
    && (RogerB(w) in w.airB ==> w.b.reportRcvd.Some?)
    && (FinalB(w) in w.airB ==> w.b.qsoLogged)
  }

  /** The record the answerer must have written: both calls, both grids, both reports as transmitted. */
  function AnswererRecord(w: World): Record {
    Record(w.b.myCall, w.b.myGrid, w.a.myCall, w.a.myGrid, w.b.reportSent, Some(WireReport(w.a.reportSent)),
           w.b.started)
  }

  /** The caller, once it transmits to the answerer, stays with it; its sign-off needs the roger-report. */
  predicate CallerFits(w: World) {
    && Coherent(w.a)
    && w.a.state in {Idle, Calling, Report, Rogers, Signoff, Done}
    && (w.a.dxCall == "" || IsWord(w.a.dxCall))
    && (BaseCall(w.a.dxCall) == BaseCall(w.b.myCall) ==> w.a.dxCall == w.b.myCall)
    && (w.a.dxCall == w.b.myCall ==> w.a.state != Signoff && w.a.dxGrid == w.b.myGrid)
    && (w.a.dxCall == w.b.myCall && w.a.state == Rogers ==> CallerHasRoger(w))
    && (RogersA(w) in w.airA ==> w.a.dxCall == w.b.myCall && w.a.state in {Rogers, Done, Idle} && CallerHasRoger(w))
    && (forall t | t in w.airA && AddressedTo(Parse(t), w.b.myCall) ::
          t in {ReportA(w), RogersA(w)} && w.a.dxCall == w.b.myCall)
    && (forall r | r in w.a.log && BaseCall(r.dxCall) == BaseCall(w.b.myCall) ::
          w.b.qsoLogged && FinalB(w) in w.airB && r == CallerRecord(w, r))
  }

  predicate CallerHasRoger(w: World) {
    w.a.reportRcvd == Some(WireReport(w.b.reportSent)) && RogerB(w) in w.airB
  }

  function CallerRecord(w: World, r: Record): Record {
    Record(w.a.myCall, w.a.myGrid, w.b.myCall, w.b.myGrid, w.a.reportSent, Some(WireReport(w.b.reportSent)), r.started)
  }

  predicate Consistent(w: World) {
    GoodSetup(w) && w.b.myGrid != "RR73" && AnswererFits(w) && CallerFits(w)
  }

  // ---- framing: one side moves, the other side's conditions stay -------

  predicate SameNames(w: World, v: World) {
    SameSetup(w.a, v.a) && SameSetup(w.b, v.b)
  }

  lemma AnswererFramed(w: World, v: World)
    requires AnswererFits(w) && SameNames(w, v) && v.b == w.b && v.airB == w.airB && w.airA <= v.airA
    requires v.a.reportSent == w.a.reportSent || w.b.reportRcvd.None?
    ensures AnswererFits(v)
  {
  }

  lemma CallerFramed(w: World, v: World)
    requires CallerFits(w) && SameNames(w, v) && v.a == w.a && v.airA == w.airA && w.airB <= v.airB
    requires v.b.reportSent == w.b.reportSent || (RogerB(w) !in w.airB && !w.b.qsoLogged)
    requires w.b.qsoLogged ==> v.b.qsoLogged
    ensures CallerFits(v)
  {
  }

  // ---- what one step does to a station ----------------------------------

  /** Nothing about the QSO moved; at most the station was disarmed. */
  predicate SameExchange(s: Station, t: Station) {
    && SameSetup(s, t) && t.dxCall == s.dxCall && t.dxGrid == s.dxGrid
    && t.reportSent == s.reportSent && t.reportRcvd == s.reportRcvd && t.started == s.started
    && t.qsoLogged == s.qsoLogged && t.log == s.log && t.partnerLossStop == s.partnerLossStop
    && (t.txEnabled ==> s.txEnabled) && t.state in {s.state, Idle, Done}
    && (t.state == Done ==> s.state in {Signoff, Done})
  }

  /** Pulling moves only the counters, or disarms a station whose QSO is over or given up. */
  lemma PullKeepsExchange(s: Station)
    requires Coherent(s)
    ensures SameExchange(s, NextTx(s).0)
  {
  }

  lemma StopKeepsExchange(s: Station, reason: DisarmReason)
    ensures SameExchange(s, Stop(s, reason))
  {
  }

  /** Both ways a QSO ends leave partner and reports alone and write at most this QSO's record. */
  lemma EndingsLog(s: Station)
    ensures forall t | t in {EnterSignoff(s), CompleteQso(s)} ::
              && SameSetup(s, t) && t.dxCall == s.dxCall && t.dxGrid == s.dxGrid && t.reportSent == s.reportSent
              && t.reportRcvd == s.reportRcvd && t.started == s.started && t.partnerLossStop == s.partnerLossStop
              && t.qsoLogged && t.log == s.log + (if s.qsoLogged then [] else [RecordOf(s)])
  {
  }

  /** What a report from the partner does to a station on the answering side. */
  lemma ReportIsNoted(s: Station, m: ParsedMessage, snr: Option<int>, now: int)
    requires s.state in {Idle, Replying, RogerReport, Signoff, Done} && (s.txEnabled ==> !s.partnerLossStop)
    requires m.report.Some? && !m.isEom && m.grid == ""
    ensures var t := OnMessage(s, m, snr, now);
            || t == s
            || (s.txEnabled && t == s.(txCount := 0, reportRcvd := m.report, state := t.state)
                && t.state == if s.state == Replying then RogerReport else s.state)
  {
  }

  /** What the caller's RR73 does to it. */
  lemma RogersEnd(s: Station, m: ParsedMessage, snr: Option<int>, now: int)
    requires s.state in {Idle, Replying, RogerReport, Signoff, Done} && (s.txEnabled ==> !s.partnerLossStop)
    requires m.report.None? && m.isEom && m.grid == ""
    ensures var t := OnMessage(s, m, snr, now);
            || t == s || (s.txEnabled && t == s.(txCount := 0))
            || (s.txEnabled && t == s.(txCount := 0, signoffSent := false))
            || (s.txEnabled && s.state == RogerReport && t == EnterSignoff(s.(txCount := 0)))
  {
  }

  /** What the answerer's roger-report does to a caller engaged with it. */
  lemma RogerIsNoted(s: Station, m: ParsedMessage, snr: Option<int>, now: int)
    requires s.state in {Idle, Report, Rogers, Done}
    requires AddressedTo(m, s.myCall) && m.report.Some? && m.hasRoger && !m.isEom && m.grid == ""
    ensures var t := OnMessage(s, m, snr, now);
            || t == s
            || (s.txEnabled && t == s.(txCount := 0, reportRcvd := m.report, state := Rogers))
  {
  }

  lemma CallerStays(w: World, v: World, text: string)
    requires CallerFits(w) && Coherent(v.a) && SameExchange(w.a, v.a) && v == w.(a := v.a, airA := v.airA)
    requires w.airA <= v.airA <= w.airA + {text}
    requires v.airA != w.airA && AddressedTo(Parse(text), w.b.myCall) ==>
               w.a.dxCall == w.b.myCall && text in {ReportA(w), RogersA(w)}
    requires v.airA != w.airA && text == RogersA(w) ==> w.a.dxCall == w.b.myCall && w.a.state == Rogers
    ensures CallerFits(v) && SameNames(w, v) && v.a.reportSent == w.a.reportSent
  {
    assert ReportA(v) == ReportA(w) && RogersA(v) == RogersA(w) && RogerB(v) == RogerB(w) && FinalB(v) == FinalB(w);
  }

  lemma AnswererStays(w: World, v: World, text: string)
    requires AnswererFits(w) && Coherent(v.b) && SameExchange(w.b, v.b) && v == w.(b := v.b, airB := v.airB)
    requires w.airB <= v.airB <= w.airB + {text}
    requires v.airB != w.airB ==> text in {GridB(w), RogerB(w), FinalB(w)}
    requires v.airB != w.airB && text == RogerB(w) ==> w.b.reportRcvd.Some?
    requires v.airB != w.airB && text == FinalB(w) ==> w.b.qsoLogged
    ensures AnswererFits(v) && SameNames(w, v) && v.b.reportSent == w.b.reportSent
  {
    assert GridB(v) == GridB(w) && RogerB(v) == RogerB(w) && FinalB(v) == FinalB(w) && ReportA(v) == ReportA(w);
  }

  // ---- the caller listens ----------------------------------------------

  /** Nothing on the air is addressed to the answerer while the caller has another partner or none. */
  lemma NotEngaged(w: World)
    requires Consistent(w) && w.a.dxCall != w.b.myCall
    ensures ReportA(w) !in w.airA && RogersA(w) !in w.airA && w.b.reportRcvd.None? && !w.b.qsoLogged
    ensures RogerB(w) !in w.airB && FinalB(w) !in w.airB
    ensures CallerMayRestart(w)
  {
    TextsOfAReadBack(w);
    BaseOfCall(w.b.myCall);
  }

  lemma CallingHearsGrid(w: World, snr: Option<int>, now: int)
    requires Consistent(w) && w.a.state == Calling
    ensures var v := w.(a := OnMessage(w.a, FromB(w).(grid := w.b.myGrid), snr, now));
            CallerFits(v) && SameNames(w, v) && w.b.reportRcvd.None?
  {
    var m := FromB(w).(grid := w.b.myGrid);
    CallIsWord(w.b.myCall);
    HearingKeepsCoherent(w.a, m, snr, now);
    HearingKeepsSetup(w.a, m, snr, now);
    NotEngaged(w);
    assert OnMessage(w.a, m, snr, now) == w.a || OnMessage(w.a, m, snr, now).state == Report;
  }

  lemma CallerHearsGrid(w: World, snr: Option<int>, now: int)
    requires Consistent(w)
    ensures var v := w.(a := OnMessage(w.a, FromB(w).(grid := w.b.myGrid), snr, now));
            CallerFits(v) && SameNames(w, v) && (v.a.reportSent == w.a.reportSent || w.b.reportRcvd.None?)
  {
    if w.a.state == Calling {
      CallingHearsGrid(w, snr, now);
    } else {
      var m := FromB(w).(grid := w.b.myGrid);
      HearingKeepsCoherent(w.a, m, snr, now);
      HearingKeepsSetup(w.a, m, snr, now);
      var t := OnMessage(w.a, m, snr, now);
      assert t == w.a || (w.a.dxCall == w.b.myCall && t == Noted(w.a, m));
    }
  }

  lemma CallerHearsRoger(w: World, snr: Option<int>, now: int)
    requires Consistent(w) && RogerB(w) in w.airB
    ensures var m := FromB(w).(report := Some(WireReport(w.b.reportSent)), hasRoger := true);
            var v := w.(a := OnMessage(w.a, m, snr, now));
            CallerFits(v) && SameNames(w, v) && (v.a.reportSent == w.a.reportSent || w.b.reportRcvd.None?)
  {
    if w.a.dxCall != w.b.myCall {
      NotEngaged(w);
    } else {
      EngagedHearsRoger(w, snr, now);
    }
  }

  lemma EngagedHearsRoger(w: World, snr: Option<int>, now: int)
    requires Consistent(w) && RogerB(w) in w.airB && w.a.dxCall == w.b.myCall
    ensures var m := FromB(w).(report := Some(WireReport(w.b.reportSent)), hasRoger := true);
            var v := w.(a := OnMessage(w.a, m, snr, now));
            CallerFits(v) && SameNames(w, v) && v.a.reportSent == w.a.reportSent
  {
    var m := FromB(w).(report := Some(WireReport(w.b.reportSent)), hasRoger := true);
    HearingKeepsCoherent(w.a, m, snr, now);
    CallIsWord(w.a.myCall);
    CallIsWord(w.b.myCall);
    assert w.a.state !in {Calling, Signoff};
    RogerIsNoted(w.a, m, snr, now);
  }

  lemma CallerHearsFinal(w: World, snr: Option<int>, now: int)
    requires Consistent(w) && FinalB(w) in w.airB
    ensures var m := FromB(w).(isEom := true, eom := "73");
            var v := w.(a := OnMessage(w.a, m, snr, now));
            CallerFits(v) && SameNames(w, v) && (v.a.reportSent == w.a.reportSent || w.b.reportRcvd.None?)
  {
    if w.a.dxCall != w.b.myCall {
      NotEngaged(w);
    } else {
      EngagedHearsFinal(w, snr, now);
    }
  }

  lemma EngagedHearsFinal(w: World, snr: Option<int>, now: int)
    requires Consistent(w) && FinalB(w) in w.airB && w.a.dxCall == w.b.myCall
    ensures var m := FromB(w).(isEom := true, eom := "73");
            var v := w.(a := OnMessage(w.a, m, snr, now));
            CallerFits(v) && SameNames(w, v) && v.a.reportSent == w.a.reportSent
  {
    var m := FromB(w).(isEom := true, eom := "73");
    HearingKeepsCoherent(w.a, m, snr, now);
    HearingKeepsSetup(w.a, m, snr, now);
    assert w.a.state != Calling;
  }

  lemma CallerHearsBystander(w: World, text: string, snr: Option<int>, now: int)
    requires Consistent(w) && Bystander(w, text)
    ensures var v := w.(a := OnMessage(w.a, Parse(text), snr, now));
            CallerFits(v) && SameNames(w, v) && (v.a.reportSent == w.a.reportSent || w.b.reportRcvd.None?)
  {
    var m := Parse(text);
    SenderIsWord(text);
    HearingKeepsCoherent(w.a, m, snr, now);
    HearingKeepsSetup(w.a, m, snr, now);
    if w.a.dxCall == w.b.myCall {
      assert OnMessage(w.a, m, snr, now) == w.a;
    } else {
      NotEngaged(w);
      if w.a.state != Calling {
        HearingKeepsPartner(w.a, m, snr, now);
      }
    }
  }

  /** A station busy with a partner keeps it, and whatever it logs next names that partner. */
  lemma HearingKeepsPartner(s: Station, m: ParsedMessage, snr: Option<int>, now: int)
    requires Coherent(s) && s.state in {Idle, Report, Rogers, Signoff, Done}
    ensures var t := OnMessage(s, m, snr, now);
            && t.dxCall == s.dxCall && t.reportSent == s.reportSent
            && t.state in {Idle, Report, Rogers, Signoff, Done}
            && forall r | r in t.log :: r in s.log || r.dxCall == s.dxCall
  {
    var n := Noted(s, m);
    assert n.log == s.log && n.dxCall == s.dxCall && n.reportSent == s.reportSent && n.state == s.state;
    AdvanceKeepsPartner(n, m, snr, now);
  }

  lemma AdvanceKeepsPartner(s: Station, m: ParsedMessage, snr: Option<int>, now: int)
    requires s.state in {Idle, Report, Rogers, Signoff, Done}
    ensures var t := Advance(s, m, snr, now);
            && t.dxCall == s.dxCall && t.reportSent == s.reportSent
            && t.state in {Idle, Report, Rogers, Signoff, Done}
            && (t.log == s.log || t.log == s.log + [RecordOf(s)])
  {
  }

  lemma CallerPulls(w: World, sent: bool)
    requires Consistent(w)
    ensures var v := Act(w, PullA(sent));
            CallerFits(v) && SameNames(w, v) && v.a.reportSent == w.a.reportSent && w.airA <= v.airA
  {
    PullKeepsCoherent(w.a);
    PullKeepsExchange(w.a);
    var text := NextTx(w.a).1;
    if text.Some? {
      CallerText(w);
    }
    CallerStays(w, Act(w, PullA(sent)), text.GetOr(""));
  }

  /** What the caller prints is a CQ, one of its two texts for the answerer, or a text for someone else. */
  lemma CallerText(w: World)
    requires Consistent(w) && NextTx(w.a).1.Some?
    ensures var t := NextTx(w.a).1.value;
            && (AddressedTo(Parse(t), w.b.myCall) ==> w.a.dxCall == w.b.myCall && t in {ReportA(w), RogersA(w)})
            && (t == RogersA(w) ==> w.a.dxCall == w.b.myCall && w.a.state == Rogers)
  {
    TextsOfAReadBack(w);
    if w.a.state == Calling {
      ParseCqText(w.a.myCall, w.a.myGrid);
    } else if w.a.dxCall != w.b.myCall {
      CallerTextForBystander(w);
    } else if w.a.state == Report {
      assert Parse(ReportA(w)).report != Parse(RogersA(w)).report;
    }
  }

  lemma CallerTailIsWord(s: Station)
    requires s.state in {Report, Rogers, Signoff}
    ensures IsWord(ExchangeTail(s))
  {
    ReportTokenReadsBack(BLANK, s.reportSent.GetOr(DEFAULT_REPORT_DB));
    assert IsWord("73") && IsWord("RR73");
  }

  lemma CallerTextForBystander(w: World)
    requires Consistent(w) && w.a.txEnabled && w.a.state != Calling && w.a.dxCall != w.b.myCall
    ensures !AddressedTo(Parse(ExchangeText(w.a.dxCall, w.a.myCall, ExchangeTail(w.a))), w.b.myCall)
  {
    CallerTailIsWord(w.a);
    PrintedForSomeoneElse(w.a.dxCall, w.a.myCall, ExchangeTail(w.a), w.b.myCall);
  }

  // ---- the answerer listens --------------------------------------------

  lemma AnswererHearsReport(w: World, snr: Option<int>, now: int)
    requires Consistent(w) && ReportA(w) in w.airA
    ensures var m := FromA(w).(report := Some(WireReport(w.a.reportSent)));
            var v := w.(b := OnMessage(w.b, m, snr, now));
            AnswererFits(v) && SameNames(w, v) && v.b.reportSent == w.b.reportSent && (w.b.qsoLogged ==> v.b.qsoLogged)
  {
    var m := FromA(w).(report := Some(WireReport(w.a.reportSent)));
    HearingKeepsCoherent(w.b, m, snr, now);
    ReportIsNoted(w.b, m, snr, now);
  }

  lemma AnswererHearsRogers(w: World, snr: Option<int>, now: int)
    requires Consistent(w) && RogersA(w) in w.airA
    ensures var m := FromA(w).(isEom := true, eom := "RR73", hasRoger := true);
            var v := w.(b := OnMessage(w.b, m, snr, now));
            AnswererFits(v) && SameNames(w, v) && v.b.reportSent == w.b.reportSent && (w.b.qsoLogged ==> v.b.qsoLogged)
  {
    var m := FromA(w).(isEom := true, eom := "RR73", hasRoger := true);
    HearingKeepsCoherent(w.b, m, snr, now);
    RogersEnd(w.b, m, snr, now);
    var v := w.(b := OnMessage(w.b, m, snr, now));
    if v.b.state == w.b.state {
      AnswererStays(w, v, "");
    } else {
      AnswererSignsOff(w, v);
    }
  }

  lemma AnswererSignsOff(w: World, v: World)
    requires Consistent(w) && RogersA(w) in w.airA && w.b.state == RogerReport && w.b.txEnabled && Coherent(v.b)
    requires v == w.(b := EnterSignoff(w.b.(txCount := 0)))
    ensures AnswererFits(v) && SameNames(w, v) && v.b.reportSent == w.b.reportSent
  {
    EndingsLog(w.b.(txCount := 0));
    assert RogerB(v) == RogerB(w) && GridB(v) == GridB(w) && FinalB(v) == FinalB(w) && ReportA(v) == ReportA(w);
  }

  lemma AnswererHearsOther(w: World, m: ParsedMessage, snr: Option<int>, now: int)
    requires Consistent(w)
    requires !AddressedTo(m, w.b.myCall) || BaseCall(m.fromCall) != BaseCall(w.a.myCall)
    ensures OnMessage(w.b, m, snr, now) == w.b
  {
  }

  /** What the answerer prints is one of its three texts, at the point of the exchange where it may. */
  lemma AnswererText(w: World)
    requires Consistent(w) && NextTx(w.b).1.Some?
    ensures var t := NextTx(w.b).1.value;
            && t in {GridB(w), RogerB(w), FinalB(w)}
            && (t == RogerB(w) ==> w.b.reportRcvd.Some?)
            && (t == FinalB(w) ==> w.b.qsoLogged)
  {
    TextsDiffer(w);
    var tail := ExchangeTail(w.b);
    assert NextTx(w.b).1 == Some(ExchangeText(w.a.myCall, w.b.myCall, tail));
  }

  lemma TextsDiffer(w: World)
    requires GoodSetup(w) && w.b.myGrid != "RR73"
    ensures GridB(w) != RogerB(w) && GridB(w) != FinalB(w) && RogerB(w) != FinalB(w)
  {
    TextsOfBReadBack(w);
  }

  lemma AnswererPulls(w: World, sent: bool)
    requires Consistent(w)
    ensures var v := Act(w, PullB(sent));
            && AnswererFits(v) && SameNames(w, v) && v.b.reportSent == w.b.reportSent && w.airB <= v.airB
            && (w.b.qsoLogged ==> v.b.qsoLogged)
  {
    PullKeepsCoherent(w.b);
    PullKeepsExchange(w.b);
    var text := NextTx(w.b).1;
    if text.Some? {
      AnswererText(w);
    }
    AnswererStays(w, Act(w, PullB(sent)), text.GetOr(""));
  }

  lemma AnswererStarts(w: World, snr: int, phase: int, frequency: int, now: int)
    requires Consistent(w) && AnswererMayRestart(w)
    ensures var v := Act(w, StartB(snr, phase, frequency, now));
            && AnswererFits(v) && SameNames(w, v) && RogerB(w) !in w.airB && !w.b.qsoLogged
  {
    var v := Act(w, StartB(snr, phase, frequency, now));
    var m := Parse(CqText(w.a.myCall, w.a.myGrid));
    ParseCqText(w.a.myCall, w.a.myGrid);
    CallIsWord(w.a.myCall);
    ReplyBegins(w.b, m, snr, phase, frequency, now);
    ApplyKeepsCoherent(w.b, ReplyPressed(m, snr, phase, frequency, now));
    OnlyGridOnAir(w);
    FreshReplyFits(w, v);
  }

  lemma ReplyBegins(s: Station, m: ParsedMessage, snr: int, phase: int, frequency: int, now: int)
    requires m.fromCall != ""
    ensures var t := ReplyTo(s, m, snr, phase, frequency, now);
            && SameSetup(s, t) && t.state == Replying && t.dxCall == m.fromCall && t.dxGrid == m.grid
            && t.reportRcvd == None && !t.partnerLossStop && !t.qsoLogged && t.log == s.log
  {
  }

  lemma FreshReplyFits(w: World, v: World)
    requires Consistent(w) && v == w.(b := v.b) && SameSetup(w.b, v.b) && Coherent(v.b) && v.b.state == Replying
    requires v.b.dxCall == w.a.myCall && v.b.dxGrid == w.a.myGrid && v.b.reportRcvd == None
    requires !v.b.partnerLossStop && !v.b.qsoLogged && v.b.log == w.b.log == [] && w.airB <= {GridB(w)}
    ensures AnswererFits(v) && SameNames(w, v)
  {
    TextsDiffer(v);
    assert GridB(v) == GridB(w) && FinalB(v) == FinalB(w);
  }

  /** Before its first report is on the air the answerer has transmitted nothing but its grid. */
  lemma OnlyGridOnAir(w: World)
    requires Consistent(w) && AnswererMayRestart(w)
    ensures w.airB <= {GridB(w)} && RogerB(w) !in w.airB && FinalB(w) !in w.airB && !w.b.qsoLogged
  {
    TextsOfBReadBack(w);
  }

  // ---- every step, every run -------------------------------------------

  lemma CallerHears(w: World, text: string, snr: Option<int>, now: int)
    requires Consistent(w)
    ensures var v := Act(w, HearA(text, snr, now));
            Consistent(v) && SameNames(w, v)
  {
    var v := Act(w, HearA(text, snr, now));
    if text in w.airB {
      TextsOfBReadBack(w);
      CallerHearsGrid(w, snr, now);
      if text == RogerB(w) {
        CallerHearsRoger(w, snr, now);
      } else if text == FinalB(w) {
        CallerHearsFinal(w, snr, now);
      }
      AnswererFramed(w, v);
    } else if Bystander(w, text) {
      CallerHearsBystander(w, text, snr, now);
      AnswererFramed(w, v);
    }
  }

  lemma AnswererHears(w: World, text: string, snr: Option<int>, now: int)
    requires Consistent(w)
    ensures var v := Act(w, HearB(text, snr, now));
            Consistent(v) && SameNames(w, v)
  {
    var v := Act(w, HearB(text, snr, now));
    if text in w.airA && AddressedTo(Parse(text), w.b.myCall) {
      TextsOfAReadBack(w);
      if text == RogersA(w) {
        AnswererHearsRogers(w, snr, now);
      } else {
        AnswererHearsReport(w, snr, now);
      }
      CallerFramed(w, v);
    } else if text in w.airA || Bystander(w, text) {
      AnswererHearsOther(w, Parse(text), snr, now);
      assert v == w;
    }
  }

  lemma CallerStops(w: World, reason: DisarmReason)
    requires Consistent(w)
    ensures var v := Act(w, StopA(reason));
            CallerFits(v) && SameNames(w, v) && v.a.reportSent == w.a.reportSent
  {
    StopKeepsExchange(w.a, reason);
    ApplyKeepsCoherent(w.a, StopPressed(reason));
    CallerStays(w, Act(w, StopA(reason)), "");
  }

  lemma AnswererStops(w: World, reason: DisarmReason)
    requires Consistent(w)
    ensures var v := Act(w, StopB(reason));
            && AnswererFits(v) && SameNames(w, v) && v.b.reportSent == w.b.reportSent
            && v.b.qsoLogged == w.b.qsoLogged
  {
    StopKeepsExchange(w.b, reason);
    ApplyKeepsCoherent(w.b, StopPressed(reason));
    AnswererStays(w, Act(w, StopB(reason)), "");
  }

  lemma CallerStarts(w: World, frequency: int)
    requires Consistent(w) && CallerMayRestart(w)
    ensures var v := w.(a := StartCq(w.a, frequency));
            CallerFits(v) && SameNames(w, v) && w.b.reportRcvd.None?
  {
    TextsOfAReadBack(w);
    BaseOfCall(w.b.myCall);
    assert RogersA(w) !in w.airA && ReportA(w) !in w.airA;
  }

  lemma StepKeepsConsistent(w: World, x: Action, g: Rules)
    requires Consistent(w) && g.MidQso() && (Concluded(w) ==> g.Later())
    ensures Consistent(Step(w, x, g)) && SameNames(w, Step(w, x, g))
  {
    if !HeldBack(w, x, g) {
      ActKeepsConsistent(w, x);
    }
  }

  lemma ActKeepsConsistent(w: World, x: Action)
    requires Consistent(w) && (x.StartA? ==> CallerMayRestart(w)) && (x.StartB? ==> AnswererMayRestart(w))
    ensures Consistent(Act(w, x)) && SameNames(w, Act(w, x))
  {
    if x.PullA? || x.HearA? || x.StopA? || x.StartA? {
      CallerActsConsistently(w, x);
    } else {
      AnswererActsConsistently(w, x);
    }
  }

  lemma CallerActsConsistently(w: World, x: Action)
    requires Consistent(w) && (x.PullA? || x.HearA? || x.StopA? || (x.StartA? && CallerMayRestart(w)))
    ensures Consistent(Act(w, x)) && SameNames(w, Act(w, x))
  {
    var v := Act(w, x);
    match x
    case PullA(sent) =>
      CallerPulls(w, sent);
      AnswererFramed(w, v);
    case HearA(text, snr, now) => CallerHears(w, text, snr, now);
    case StopA(reason) =>
      CallerStops(w, reason);
      AnswererFramed(w, v);
    case StartA(f) =>
      CallerStarts(w, f);
      AnswererFramed(w, v);
  }

  lemma AnswererActsConsistently(w: World, x: Action)
    requires Consistent(w) && (x.PullB? || x.HearB? || x.StopB? || (x.StartB? && AnswererMayRestart(w)))
    ensures Consistent(Act(w, x)) && SameNames(w, Act(w, x))
  {
    var v := Act(w, x);
    match x
    case PullB(sent) =>
      AnswererPulls(w, sent);
      CallerFramed(w, v);
    case HearB(text, snr, now) => AnswererHears(w, text, snr, now);
    case StopB(reason) =>
      AnswererStops(w, reason);
      CallerFramed(w, v);
    case StartB(snr, phase, f, now) =>
      AnswererStarts(w, snr, phase, f, now);
      CallerFramed(w, v);
  }

  // ---- the logs ----------------------------------------------------------

  /** The two entries describe one QSO, report for report as transmitted. */
  predicate Agree(w: World, r: Record, q: Record) {
    && r.dxCall == q.myCall && q.dxCall == r.myCall
    && r.dxGrid == q.myGrid && q.dxGrid == r.myGrid
    && r.reportRcvd == Some(WireReport(q.reportSent))
    && q.reportRcvd == Some(WireReport(r.reportSent))
    && ExchangeText(r.dxCall, r.myCall, FormatReport(r.reportSent.GetOr(DEFAULT_REPORT_DB))) in w.airA
    && ExchangeText(q.dxCall, q.myCall, "R" + FormatReport(q.reportSent.GetOr(DEFAULT_REPORT_DB))) in w.airB
  }

  function FirstWith(call: string, log: seq<Record>): Option<Record> {
    if log == [] then None
    else
      var earlier := FirstWith(call, log[..|log| - 1]);
      if earlier.None? && With(call, log[|log| - 1]) then Some(log[|log| - 1]) else earlier
  }

  lemma {:induction false} FirstWithIsLogged(call: string, log: seq<Record>)
    ensures var f := FirstWith(call, log);
            && (f.Some? <==> exists r :: r in log && With(call, r))
            && (f.Some? ==> f.value in log && With(call, f.value))
  {
    if log != [] {
      FirstWithIsLogged(call, log[..|log| - 1]);
    }
  }

  lemma {:induction false} FirstWithStays(call: string, log: seq<Record>, more: seq<Record>)
    requires log <= more && FirstWith(call, log).Some?
    ensures FirstWith(call, more) == FirstWith(call, log)
  {
    if log == more {
    } else {
      FirstWithStays(call, log, more[..|more| - 1]);
    }
  }

  /** The caller's first entry for the answerer and the answerer's first entry. */
  predicate FirstPairAgrees(w: World) {
    var first := FirstWith(w.b.myCall, w.a.log);
    first.Some? && w.b.log != [] && Agree(w, first.value, w.b.log[0])
  }

  /** Logs and air only grow, names stay. */
  predicate Grown(w: World, v: World) {
    SameNames(w, v) && w.a.log <= v.a.log && w.b.log <= v.b.log && w.airA <= v.airA && w.airB <= v.airB
  }

  lemma HearingExtendsLog(s: Station, m: ParsedMessage, snr: Option<int>, now: int)
    ensures s.log <= OnMessage(s, m, snr, now).log
  {
    var n := Noted(s, m);
    assert n.log == s.log;
    AdvancingExtendsLog(n, m, snr, now);
  }

  lemma AdvancingExtendsLog(s: Station, m: ParsedMessage, snr: Option<int>, now: int)
    ensures s.log <= Advance(s, m, snr, now).log
  {
    EndingsLog(s);
  }

  lemma ApplyExtendsLog(s: Station, e: Event)
    ensures s.log <= Apply(s, e).0.log
  {
    match e
    case Heard(m, snr, now) => HearingExtendsLog(s, m, snr, now);
    case SlotPulled => assert s.log <= EnsureLog(s).log;
    case _ =>
  }

  /** What a step does to a station is an event of its automaton. */
  function EventOf(w: World, x: Action): Event {
    match x
    case PullA(_) => SlotPulled
    case PullB(_) => SlotPulled
    case HearA(text, snr, now) => Heard(Parse(text), snr, now)
    case HearB(text, snr, now) => Heard(Parse(text), snr, now)
    case StopA(reason) => StopPressed(reason)
    case StopB(reason) => StopPressed(reason)
    case StartA(f) => CqPressed(f)
    case StartB(snr, phase, f, now) => ReplyPressed(Parse(CqText(w.a.myCall, w.a.myGrid)), snr, phase, f, now)
  }

  /** The station that acts goes through its event, the other stays as it is. */
  lemma ActIsEvent(w: World, x: Action)
    ensures var v := Act(w, x);
            && (v.a == w.a || v.a == Apply(w.a, EventOf(w, x)).0) && (v.b == w.b || v.b == Apply(w.b, EventOf(w, x)).0)
            && w.airA <= v.airA && w.airB <= v.airB
  {
  }

  lemma StepGrows(w: World, x: Action, g: Rules)
    ensures Grown(w, Step(w, x, g))
  {
    var e := EventOf(w, x);
    ActIsEvent(w, x);
    ApplyExtendsLog(w.a, e);
    ApplyExtendsLog(w.b, e);
    ApplyKeepsSetup(w.a, e);
    ApplyKeepsSetup(w.b, e);
  }

  lemma {:induction false} RunGrows(w: World, xs: seq<Action>, g: Rules)
    ensures Grown(w, Run(w, xs, g))
  {
    if xs != [] {
      RunGrows(w, xs[..|xs| - 1], g);
      StepGrows(Run(w, xs[..|xs| - 1], g), xs[|xs| - 1], g);
    }
  }

  /** An agreeing first pair stays in both logs and goes on agreeing, whatever either station does afterwards. */
  lemma FirstPairStays(w: World, v: World)
    requires FirstPairAgrees(w) && Grown(w, v)
    ensures FirstPairAgrees(v) && v.b.log[0] == w.b.log[0]
    ensures FirstWith(v.b.myCall, v.a.log) == FirstWith(w.b.myCall, w.a.log)
  {
    FirstWithStays(w.b.myCall, w.a.log, v.a.log);
  }

  lemma ConcludedAgrees(w: World)
    requires Consistent(w) && Concluded(w)
    ensures FirstPairAgrees(w)
    ensures forall r | r in w.a.log && With(w.b.myCall, r) :: Agree(w, r, w.b.log[0])
  {
    FirstWithIsLogged(w.b.myCall, w.a.log);
  }

  /** Before the caller's entry the world is consistent; from then on the first pair agrees. */
  predicate Truthful(w: World) { if Concluded(w) then FirstPairAgrees(w) else Consistent(w) }

  lemma StepKeepsTruthful(w: World, x: Action, g: Rules)
    requires Truthful(w) && g.MidQso()
    ensures Truthful(Step(w, x, g))
  {
    var v := Step(w, x, g);
    StepGrows(w, x, g);
    if Concluded(w) {
      FirstPairStays(w, v);
      FirstWithIsLogged(v.b.myCall, v.a.log);
    } else {
      StepKeepsConsistent(w, x, g);
      if Concluded(v) {
        ConcludedAgrees(v);
      }
    }
  }

  lemma {:induction false} RunIsTruthful(w: World, xs: seq<Action>, g: Rules)
    requires Truthful(w) && g.MidQso()
    ensures Truthful(Run(w, xs, g))
  {
    if xs != [] {
      RunIsTruthful(w, xs[..|xs| - 1], g);
      StepKeepsTruthful(Run(w, xs[..|xs| - 1], g), xs[|xs| - 1], g);
    }
  }

  predicate GoodStart(w: World) {
    && GoodSetup(w) && w.b.myGrid != "RR73"
    && w == NewWorld(w.a.myCall, w.a.myGrid, w.a.maxRetransmissions, w.b.myCall, w.b.myGrid, w.b.maxRetransmissions)
  }

  lemma AnswererFitsAtStart(w: World)
    requires GoodStart(w)
    ensures AnswererFits(w)
  {
  }

  lemma CallerFitsAtStart(w: World)
    requires GoodStart(w)
    ensures CallerFits(w)
  {
    BaseOfCall(w.b.myCall);
    assert BaseCall("") == "";
    assert w.airA == {} && w.a.log == [] && w.a.dxCall == "" && w.a.state == Idle;
  }

  lemma StartIsTruthful(w: World)
    requires GoodStart(w)
    ensures Truthful(w) && !Concluded(w) && Consistent(w)
  {
    AnswererFitsAtStart(w);
    CallerFitsAtStart(w);
  }

  /**
   * As soon as the caller has logged the answerer, the first entries of the two for each other agree, and they stay
   * first and agreeing in every continuation `ys`, new CQs, replies and QSOs included.
   */
  lemma TwoStationAgreement(w0: World, xs: seq<Action>, ys: seq<Action>, g: Rules)
    requires GoodStart(w0) && g.MidQso() && Concluded(Run(w0, xs, g))
    ensures var w := Run(w0, xs, g);
            var v := Run(w, ys, g);
            && FirstPairAgrees(w) && FirstPairAgrees(v)
            && FirstWith(v.b.myCall, v.a.log) == FirstWith(w.b.myCall, w.a.log) && v.b.log[0] == w.b.log[0]
  {
    StartIsTruthful(w0);
    RunIsTruthful(w0, xs, g);
    RunGrows(Run(w0, xs, g), ys, g);
    FirstPairStays(Run(w0, xs, g), Run(Run(w0, xs, g), ys, g));
  }
}
