/** Where two-station agreement ends: the grid spelled like a sign-off, and a start in mid-QSO or after the QSO. */
module TwoStationLimits {
  import opened Prelude
  import opened MsgParse
  import opened Qso
  import opened TwoStation

  ghost predicate Reachable(w0: World, w: World, g: Rules) {
    exists xs :: Run(w0, xs, g) == w
  }

  lemma StartReachable(w0: World, g: Rules)
    ensures Reachable(w0, w0, g)
  {
    assert Run(w0, [], g) == w0;
  }

  lemma StepReachable(w0: World, w: World, x: Action, g: Rules)
    requires Reachable(w0, w, g)
    ensures Reachable(w0, Step(w, x, g), g)
  {
    var xs :| Run(w0, xs, g) == w;
    assert (xs + [x])[..|xs + [x]| - 1] == xs;
    assert Run(w0, xs + [x], g) == Step(w, x, g);
  }

  lemma CallerHeard(w0: World, w: World, text: string, snr: Option<int>, g: Rules) returns (v: World)
    requires Reachable(w0, w, g) && text in w.airB
    ensures v == w.(a := OnMessage(w.a, Parse(text), snr, 0)) && Reachable(w0, v, g)
  {
    StepReachable(w0, w, HearA(text, snr, 0), g);
    v := Step(w, HearA(text, snr, 0), g);
  }

  lemma AnswererHeard(w0: World, w: World, text: string, g: Rules) returns (v: World)
    requires Reachable(w0, w, g) && text in w.airA
    ensures v == w.(b := OnMessage(w.b, Parse(text), None, 0)) && Reachable(w0, v, g)
  {
    StepReachable(w0, w, HearB(text, None, 0), g);
    v := Step(w, HearB(text, None, 0), g);
  }

  lemma CallerSent(w0: World, w: World, g: Rules) returns (v: World)
    requires Reachable(w0, w, g) && FirstPullReady(w.a)
    ensures Reachable(w0, v, g)
    ensures v == w.(a := Pulled(w.a), airA := w.airA + {ExchangeText(w.a.dxCall, w.a.myCall, ExchangeTail(w.a))})
  {
    StepReachable(w0, w, PullA(true), g);
    v := Step(w, PullA(true), g);
  }

  lemma AnswererSent(w0: World, w: World, g: Rules) returns (v: World)
    requires Reachable(w0, w, g) && FirstPullReady(w.b)
    ensures Reachable(w0, v, g)
    ensures v == w.(b := Pulled(w.b), airB := w.airB + {ExchangeText(w.b.dxCall, w.b.myCall, ExchangeTail(w.b))})
  {
    StepReachable(w0, w, PullB(true), g);
    v := Step(w, PullB(true), g);
  }

  predicate FirstPullReady(s: Station) {
    s.txEnabled && s.state in {Replying, Report, RogerReport, Rogers, Signoff} && s.txCount == 0 && !s.signoffSent
  }

  function Pulled(s: Station): Station { s.(txCount := 1, signoffSent := s.state == Signoff) }

  /** Both stations set up, the answerer's first text on the air. */
  predicate Opened(w0: World, w: World) {
    && w.a == StartCq(w0.a, 1500)
    && w.b.myCall == w0.b.myCall && w.b.myGrid == w0.b.myGrid && w.b.state == Replying && w.b.txEnabled
    && w.b.dxCall == w0.a.myCall && w.b.maxRetransmissions == w0.b.maxRetransmissions && w.b.log == []
    && !w.b.qsoLogged && !w.b.signoffSent && w.b.reportSent == Some(-3)
    && w.airA == {} && w.airB == {GridB(w0)}
  }

  predicate Fresh(w0: World) {
    && GoodSetup(w0)
    && w0 == NewWorld(w0.a.myCall, w0.a.myGrid, w0.a.maxRetransmissions,
                      w0.b.myCall, w0.b.myGrid, w0.b.maxRetransmissions)
  }

  lemma Opening(w0: World, g: Rules) returns (w: World)
    requires Fresh(w0)
    ensures Reachable(w0, w, g) && Opened(w0, w)
  {
    StartReachable(w0, g);
    StepReachable(w0, w0, StartA(1500), g);
    StepReachable(w0, Step(w0, StartA(1500), g), StartB(-3, 1, 1500, 0), g);
    BothStart(w0, g);
    w := AnswererSent(w0, Step(Step(w0, StartA(1500), g), StartB(-3, 1, 1500, 0), g), g);
  }

  lemma BothStart(w0: World, g: Rules)
    requires Fresh(w0)
    ensures var w := Step(Step(w0, StartA(1500), g), StartB(-3, 1, 1500, 0), g);
            && FirstPullReady(w.b) && w.airB == {}
            && Opened(w0, w.(b := Pulled(w.b), airB := {GridB(w0)}))
            && GridB(w0) == ExchangeText(w.b.dxCall, w.b.myCall, ExchangeTail(w.b))
  {
    ParseCqText(w0.a.myCall, w0.a.myGrid);
    CallIsWord(w0.a.myCall);
  }

  // ---- the confusing grid ----------------------------------------------

  /** An answerer in RR73 is logged by the caller on its second call, having logged nothing itself. */
  lemma ConfusingGridBreaksAgreement(w0: World, g: Rules) returns (w: World)
    requires Fresh(w0) && w0.b.myGrid == "RR73"
    ensures Reachable(w0, w, g) && Concluded(w) && w.b.log == [] && !FirstPairAgrees(w)
  {
    w := Opening(w0, g);
    ConfusingGridReads(w0, w.a);
    var v := CallerHeard(w0, w, GridB(w0), Some(0), g);
    w := CallerHeard(w0, v, GridB(w0), Some(0), g);
    assert w.a.log[0] in w.a.log && With(w.b.myCall, w.a.log[0]);
  }

  /** Heard while calling it is an answer, heard again it is a sign-off. */
  lemma ConfusingGridReads(w0: World, s: Station)
    requires Fresh(w0) && w0.b.myGrid == "RR73" && s == StartCq(w0.a, 1500)
    ensures var t := OnMessage(s, Parse(GridB(w0)), Some(0), 0);
            var u := OnMessage(t, Parse(GridB(w0)), Some(0), 0);
            |u.log| == 1 && u.log[0].dxCall == w0.b.myCall
  {
    UpperGridIsFixed(w0.b.myGrid);
    GridTokenReadsBack(FromB(w0), w0.b.myGrid);
    ParseTriple(w0.a.myCall, w0.b.myCall, w0.b.myGrid);
    NamesMatch(w0);
    SignoffTwice(s, FromB(w0).(isEom := true, eom := "RR73", hasRoger := true));
  }

  lemma SignoffTwice(s: Station, m: ParsedMessage)
    requires s.txEnabled && s.state == Calling && s.dxCall == "" && s.log == [] && !s.qsoLogged
    requires AddressedTo(m, s.myCall) && m.fromCall != "" && m.isEom && m.eom == "RR73" && m.report.None?
    requires m.grid == ""
    ensures var u := OnMessage(OnMessage(s, m, Some(0), 0), m, Some(0), 0);
            |u.log| == 1 && u.log[0].dxCall == m.fromCall
  {
    var t := OnMessage(s, m, Some(0), 0);
    assert t == WithPartner(s.(txCount := 0), m.fromCall, s.dxGrid, Some(0), Some(0)).(state := Report);
    assert OnMessage(t, m, Some(0), 0) == EnterSignoff(t);
    EndingsLog(t);
  }

  // ---- a whole QSO -----------------------------------------------------

  /** Report and roger-report are on the air, the answerer waits for the caller's RR73. */
  predicate HalfWay(w0: World, w: World, sent: int) {
    && SameNames(w0, w)
    && w.a.state == Report && w.a.txEnabled && w.a.dxCall == w0.b.myCall && w.a.reportSent == Some(sent)
    && w.a.log == [] && !w.a.qsoLogged && !w.a.signoffSent
    && AnswererWaits(w) && w.b.reportRcvd == Some(ClampReport(sent)) && w.b.reportSent == Some(-3)
    && RogerB(w) in w.airB && ReportA(w) in w.airA
  }

  predicate AnswererWaits(w: World) {
    && w.b.state == RogerReport && w.b.txEnabled && w.b.dxCall == w.a.myCall && w.b.log == [] && !w.b.qsoLogged
    && !w.b.signoffSent
  }

  lemma CallerTakesGrid(v: World, sent: int)
    requires GoodSetup(v) && v.b.myGrid != "RR73" && v.a.txEnabled && v.a.state == Calling && v.a.dxCall == ""
    ensures var a := OnMessage(v.a, Parse(GridB(v)), Some(sent), 0);
            && a.state == Report && a.txEnabled && a.txCount == 0 && a.dxCall == v.b.myCall && a.log == v.a.log
            && a.qsoLogged == v.a.qsoLogged && a.signoffSent == v.a.signoffSent && SameSetup(v.a, a)
            && a.reportSent == Some(sent)
  {
    TextsOfBReadBack(v);
    BaseOfCall(v.a.myCall);
    CallIsWord(v.b.myCall);
    CallIsWord(v.a.myCall);
  }

  predicate AnswererArmed(v: World) {
    GoodSetup(v) && v.b.txEnabled && v.b.dxCall == v.a.myCall && !v.b.qsoLogged && !v.b.signoffSent
  }

  lemma AnswererTakesReport(v: World)
    requires AnswererArmed(v) && v.b.state == Replying
    ensures var b := OnMessage(v.b, Parse(ReportA(v)), None, 0);
            && AnswererArmed(v.(b := b)) && b.state == RogerReport && b.txCount == 0 && SameSetup(v.b, b)
            && b.reportRcvd == Some(WireReport(v.a.reportSent)) && b.reportSent == v.b.reportSent && b.log == v.b.log
  {
    TextsOfAReadBack(v);
    BaseOfCall(v.b.myCall);
    CallIsWord(v.b.myCall);
    CallIsWord(v.a.myCall);
  }

  lemma AnswererTakesRogers(v: World)
    requires AnswererArmed(v) && v.b.state == RogerReport
    ensures var b := OnMessage(v.b, Parse(RogersA(v)), None, 0);
            && b.state == Signoff && b.txEnabled && b.txCount == 0 && !b.signoffSent && b.dxCall == v.a.myCall
            && SameSetup(v.b, b) && b.reportSent == v.b.reportSent
            && |b.log| == |v.b.log| + 1 && b.log[|v.b.log|].reportRcvd == v.b.reportRcvd
            && b.log[|v.b.log|].reportSent == v.b.reportSent
  {
    TextsOfAReadBack(v);
    NamesMatch(v);
    RogersTaken(v.b, FromA(v).(isEom := true, eom := "RR73", hasRoger := true));
  }

  lemma NamesMatch(v: World)
    requires GoodSetup(v)
    ensures v.a.myCall != "" && v.b.myCall != ""
    ensures forall m: ParsedMessage | m.toCall == v.b.myCall && !m.isCq :: AddressedTo(m, v.b.myCall)
    ensures forall m: ParsedMessage | m.toCall == v.a.myCall && !m.isCq :: AddressedTo(m, v.a.myCall)
  {
    CallIsWord(v.b.myCall);
    CallIsWord(v.a.myCall);
  }

  lemma RogersTaken(s: Station, m: ParsedMessage)
    requires s.txEnabled && s.state == RogerReport && !s.qsoLogged && !s.signoffSent
    requires AddressedTo(m, s.myCall) && m.fromCall == s.dxCall && m.isEom && m.report.None? && m.grid == ""
    ensures var t := OnMessage(s, m, None, 0);
            && t.state == Signoff && t.txEnabled && t.txCount == 0 && !t.signoffSent && t.dxCall == s.dxCall
            && SameSetup(s, t) && t.reportSent == s.reportSent
            && |t.log| == |s.log| + 1 && t.log[|s.log|].reportRcvd == s.reportRcvd
            && t.log[|s.log|].reportSent == s.reportSent
  {
    var n := s.(txCount := 0);
    assert OnMessage(s, m, None, 0) == EnterSignoff(n);
    EndingsLog(n);
  }

  lemma FinalTaken(s: Station, m: ParsedMessage)
    requires s.txEnabled && s.state == Rogers && !s.qsoLogged
    requires AddressedTo(m, s.myCall) && m.fromCall == s.dxCall && m.isEom && m.report.None? && m.grid == ""
    ensures var t := OnMessage(s, m, None, 0);
            && SameSetup(s, t) && t.reportSent == s.reportSent
            && |t.log| == |s.log| + 1 && t.log[|s.log|].dxCall == s.dxCall
            && t.log[|s.log|].reportSent == s.reportSent && t.log[|s.log|].reportRcvd == s.reportRcvd
  {
    var n := s.(txCount := 0);
    assert OnMessage(s, m, None, 0) == CompleteQso(n);
    EndingsLog(n);
  }

  lemma CallerTakesFinal(v: World)
    requires GoodSetup(v) && v.b.myGrid != "RR73"
    requires v.a.state == Rogers && v.a.txEnabled && v.a.dxCall == v.b.myCall && v.a.log == [] && !v.a.qsoLogged
    ensures var a := OnMessage(v.a, Parse(FinalB(v)), None, 0);
            && SameSetup(v.a, a) && |a.log| == 1 && a.log[0].dxCall == v.b.myCall
            && a.log[0].reportSent == v.a.reportSent && a.log[0].reportRcvd == v.a.reportRcvd
            && a.reportSent == v.a.reportSent
  {
    TextsOfBReadBack(v);
    NamesMatch(v);
    FinalTaken(v.a, FromB(v).(isEom := true, eom := "73"));
  }

  lemma FirstHalf(w0: World, sent: int, g: Rules) returns (w: World)
    requires Fresh(w0) && w0.b.myGrid != "RR73"
    ensures Reachable(w0, w, g) && HalfWay(w0, w, sent)
  {
    var v := Opening(w0, g);
    CallerTakesGrid(v, sent);
    var u := CallerHeard(w0, v, GridB(v), Some(sent), g);
    assert u.b == v.b && SameNames(w0, u) && u.a.log == [] && !u.a.qsoLogged && !u.a.signoffSent;
    w := SecondQuarter(w0, u, sent, g);
  }

  lemma SecondQuarter(w0: World, v: World, sent: int, g: Rules) returns (w: World)
    requires Fresh(w0) && w0.b.myGrid != "RR73" && Reachable(w0, v, g) && SameNames(w0, v)
    requires v.a.state == Report && v.a.txEnabled && v.a.dxCall == w0.b.myCall && v.a.reportSent == Some(sent)
    requires v.a.log == [] && !v.a.qsoLogged && !v.a.signoffSent && v.a.txCount == 0
    requires AnswererArmed(v) && v.b.log == [] && v.b.state == Replying && v.b.reportSent == Some(-3)
    ensures Reachable(w0, w, g) && HalfWay(w0, w, sent)
  {
    var u := CallerSent(w0, v, g);
    assert ReportA(u) in u.airA;
    w := ThirdQuarter(w0, u, sent, g);
  }

  lemma ThirdQuarter(w0: World, u: World, sent: int, g: Rules) returns (w: World)
    requires Fresh(w0) && w0.b.myGrid != "RR73" && Reachable(w0, u, g) && SameNames(w0, u)
    requires u.a.state == Report && u.a.txEnabled && u.a.dxCall == w0.b.myCall && u.a.reportSent == Some(sent)
    requires u.a.log == [] && !u.a.qsoLogged && !u.a.signoffSent && ReportA(u) in u.airA
    requires AnswererArmed(u) && u.b.log == [] && u.b.state == Replying && u.b.reportSent == Some(-3)
    ensures Reachable(w0, w, g) && HalfWay(w0, w, sent)
  {
    AnswererTakesReport(u);
    var t := AnswererHeard(w0, u, ReportA(u), g);
    assert t.a == u.a;
    w := AnswererSent(w0, t, g);
  }

  /** From a caller that has the roger-report to both logs written, whatever the caller thinks it sent. */
  lemma SecondHalf(w0: World, v: World, g: Rules) returns (w: World)
    requires Fresh(w0) && Reachable(w0, v, g) && SameNames(w0, v) && w0.b.myGrid != "RR73"
    requires v.a.state == Rogers && v.a.txEnabled && v.a.txCount == 0 && v.a.dxCall == w0.b.myCall && !v.a.signoffSent
    requires v.a.log == [] && !v.a.qsoLogged && AnswererWaits(v)
    ensures Reachable(w0, w, g) && SameNames(w0, w)
    ensures |w.a.log| == 1 && w.a.log[0].dxCall == w0.b.myCall && w.a.log[0].reportSent == v.a.reportSent
    ensures w.a.log[0].reportRcvd == v.a.reportRcvd
    ensures |w.b.log| == 1 && w.b.log[0].reportRcvd == v.b.reportRcvd && w.b.log[0].reportSent == v.b.reportSent
    ensures v.airA <= w.airA && v.airB <= w.airB && RogersA(w) in w.airA && FinalB(w) in w.airB
    ensures w.a.reportSent == v.a.reportSent && w.b.reportSent == v.b.reportSent
  {
    var u := CallerSent(w0, v, g);
    assert RogersA(u) in u.airA;
    AnswererTakesRogers(u);
    var t := AnswererHeard(w0, u, RogersA(u), g);
    w := LastQuarter(w0, t, g);
  }

  lemma LastQuarter(w0: World, t: World, g: Rules) returns (w: World)
    requires Fresh(w0) && Reachable(w0, t, g) && SameNames(w0, t) && w0.b.myGrid != "RR73"
    requires t.a.state == Rogers && t.a.txEnabled && t.a.dxCall == w0.b.myCall && t.a.log == [] && !t.a.qsoLogged
    requires t.b.state == Signoff && t.b.txEnabled && t.b.txCount == 0 && !t.b.signoffSent && t.b.dxCall == w0.a.myCall
    ensures Reachable(w0, w, g) && SameNames(w0, w) && w.b.log == t.b.log
    ensures |w.a.log| == 1 && w.a.log[0].dxCall == w0.b.myCall && w.a.log[0].reportSent == t.a.reportSent
    ensures w.a.log[0].reportRcvd == t.a.reportRcvd
    ensures t.airA <= w.airA && t.airB <= w.airB && FinalB(w) in w.airB
    ensures w.a.reportSent == t.a.reportSent && w.b.reportSent == t.b.reportSent
  {
    var s := AnswererSent(w0, t, g);
    assert FinalB(s) in s.airB;
    CallerTakesFinal(s);
    w := CallerHeard(w0, s, FinalB(s), None, g);
  }

  lemma CallerTakesRoger(v: World, snr: Option<int>)
    requires GoodSetup(v) && v.b.myGrid != "RR73" && v.a.txEnabled
    requires v.a.state == Calling ==> v.a.dxCall == ""
    requires v.a.state == Report ==> v.a.dxCall == v.b.myCall
    requires v.a.state in {Calling, Report}
    ensures var a := OnMessage(v.a, Parse(RogerB(v)), snr, 0);
            && a.txEnabled && a.txCount == 0 && a.dxCall == v.b.myCall && a.log == v.a.log
            && a.qsoLogged == v.a.qsoLogged && a.signoffSent == v.a.signoffSent && SameSetup(v.a, a)
            && a.state == (if v.a.state == Calling then Report else Rogers)
            && a.reportSent == (if v.a.state == Calling then snr else v.a.reportSent)
            && a.reportRcvd == Some(WireReport(v.b.reportSent))
  {
    TextsOfBReadBack(v);
    BaseOfCall(v.a.myCall);
    CallIsWord(v.b.myCall);
    CallIsWord(v.a.myCall);
  }

  /** One agreeing entry each, and every text of the exchange on the air. */
  predicate Completed(w: World) {
    && GoodSetup(w) && w.b.myGrid != "RR73" && |w.a.log| == |w.b.log| == 1 && w.a.log[0].dxCall == w.b.myCall
    && w.a.log[0].reportRcvd == Some(WireReport(w.b.reportSent)) && w.b.reportSent == Some(-3)
    && ReportA(w) in w.airA && RogersA(w) in w.airA && RogerB(w) in w.airB && FinalB(w) in w.airB
  }

  /** The protocol can be completed: some run without a start in mid-QSO ends with both stations having logged. */
  lemma SomeRunCompletes(w0: World, g: Rules) returns (w: World)
    requires Fresh(w0) && w0.b.myGrid != "RR73"
    ensures Reachable(w0, w, g) && Completed(w)
  {
    var v := FirstHalf(w0, -5, g);
    CallerTakesRoger(v, None);
    var u := CallerHeard(w0, v, RogerB(v), None, g);
    w := SecondHalf(w0, u, g);
    assert ReportA(w) == ReportA(v) && RogerB(w) == RogerB(v);
  }

  // ---- a start in mid-QSO --------------------------------------------------

  lemma OneEntryEach(w: World)
    requires |w.a.log| == |w.b.log| == 1 && w.a.log[0].dxCall == w.b.myCall
    ensures Concluded(w) && FirstPairAgrees(w) == Agree(w, w.a.log[0], w.b.log[0])
  {
    assert w.a.log[0] in w.a.log && With(w.b.myCall, w.a.log[0]);
    assert FirstWith(w.b.myCall, w.a.log[..|w.a.log| - 1]).None?;
  }

  /** A caller free to start in mid-QSO can log a report it never put on the air. */
  lemma CallerRestartBreaksAgreement(w0: World, g: Rules) returns (w: World)
    requires Fresh(w0) && w0.b.myGrid != "RR73" && !g.caller
    ensures Reachable(w0, w, g) && Concluded(w) && !FirstPairAgrees(w)
  {
    var v := FirstHalf(w0, -5, g);
    StepReachable(w0, v, StartA(1500), g);
    var u := Step(v, StartA(1500), g);
    assert RogerB(u) == RogerB(v);
    CallerTakesRoger(u, Some(-7));
    var t := CallerHeard(w0, u, RogerB(u), Some(-7), g);
    CallerTakesRoger(t, None);
    var s := CallerHeard(w0, t, RogerB(t), None, g);
    w := SecondHalf(w0, s, g);
    OneEntryEach(w);
  }

  lemma AnswererStartsOver(v: World, g: Rules)
    requires GoodSetup(v) && !HeldBack(v, StartB(-9, 1, 1500, 0), g)
    ensures var u := Step(v, StartB(-9, 1, 1500, 0), g);
            && u == v.(b := u.b) && AnswererArmed(u) && u.b.state == Replying && u.b.log == v.b.log
            && u.b.reportSent == Some(-9) && SameSetup(v.b, u.b)
  {
    ParseCqText(v.a.myCall, v.a.myGrid);
    CallIsWord(v.a.myCall);
    ReplyStarts(v.b, Parse(CqText(v.a.myCall, v.a.myGrid)));
  }

  lemma ReplyStarts(s: Station, m: ParsedMessage)
    requires m.fromCall != ""
    ensures var t := ReplyTo(s, m, -9, 1, 1500, 0);
            && SameSetup(s, t) && t.state == Replying && t.txEnabled && t.dxCall == m.fromCall
            && t.reportSent == Some(-9) && !t.qsoLogged && !t.signoffSent && t.log == s.log
  {
  }

  /** An answerer free to start again after its report logs another report than the one the caller has from it. */
  lemma AnswererRestartBreaksAgreement(w0: World, g: Rules) returns (w: World)
    requires Fresh(w0) && w0.b.myGrid != "RR73" && !g.answerer
    ensures Reachable(w0, w, g) && Concluded(w) && !FirstPairAgrees(w)
  {
    var v := FirstHalf(w0, -5, g);
    CallerTakesRoger(v, None);
    var u := CallerHeard(w0, v, RogerB(v), None, g);
    AnswererStartsOver(u, g);
    StepReachable(w0, u, StartB(-9, 1, 1500, 0), g);
    var t := Step(u, StartB(-9, 1, 1500, 0), g);
    assert ReportA(t) == ReportA(v);
    AnswererTakesReport(t);
    var s := AnswererHeard(w0, t, ReportA(t), g);
    w := SecondHalf(w0, s, g);
    OneEntryEach(w);
  }

  /**
   * Two stations with ordinary calls and grids agree on their first entries in all runs exactly when both keep their
   * rule and the answerer's grid is not RR73.
   */
  lemma AgreementExactlyWhen(w0: World, g: Rules)
    requires Fresh(w0)
    ensures (forall w | Reachable(w0, w, g) && Concluded(w) :: FirstPairAgrees(w))
            <==> g.MidQso() && w0.b.myGrid != "RR73"
  {
    if w0.b.myGrid == "RR73" {
      var w := ConfusingGridBreaksAgreement(w0, g);
    } else if !g.caller {
      var w := CallerRestartBreaksAgreement(w0, g);
    } else if !g.answerer {
      var w := AnswererRestartBreaksAgreement(w0, g);
    } else {
      forall w | Reachable(w0, w, g) && Concluded(w) ensures FirstPairAgrees(w) {
        var xs :| Run(w0, xs, g) == w;
        TwoStationAgreement(w0, xs, [], g);
      }
    }
  }

  // ---- a start after the QSO ---------------------------------------------------

  lemma CallerTakesLateFinal(v: World)
    requires GoodSetup(v) && v.b.myGrid != "RR73"
    requires v.a.state == Rogers && v.a.txEnabled && v.a.dxCall == v.b.myCall && !v.a.qsoLogged
    ensures var a := OnMessage(v.a, Parse(FinalB(v)), None, 0);
            && |a.log| == |v.a.log| + 1 && a.log[|v.a.log|].dxCall == v.b.myCall
            && a.log[|v.a.log|].reportSent == v.a.reportSent
  {
    TextsOfBReadBack(v);
    NamesMatch(v);
    FinalTaken(v.a, FromB(v).(isEom := true, eom := "73"));
  }

  lemma NeverSent(w: World, r: Record, q: Record)
    requires r.reportSent.Some? && -50 <= r.reportSent.value <= 50 && q.reportRcvd != r.reportSent
    ensures !Agree(w, r, q)
  {
  }

  /** Every entry of the caller for the answerer agrees with every entry of the answerer, and there is one. */
  predicate AllAgree(w: World) {
    && w.b.log != []
    && forall r, q | r in w.a.log && With(w.b.myCall, r) && q in w.b.log :: Agree(w, r, q)
  }

  lemma FirstPairIsOne(w: World)
    requires Concluded(w) && AllAgree(w)
    ensures FirstPairAgrees(w)
  {
    FirstWithIsLogged(w.b.myCall, w.a.log);
  }

  /** A new CQ after the QSO that hears the old roger-report twice. */
  lemma NewCqHearsOldRogers(w0: World, w: World, heard: Option<int>, g: Rules) returns (v: World)
    requires Reachable(w0, w, g) && !g.callerLater && Concluded(w) && GoodSetup(w) && w.b.myGrid != "RR73"
    requires RogerB(w) in w.airB
    ensures Reachable(w0, v, g) && v == w.(a := v.a) && SameSetup(w.a, v.a) && v.a.log == w.a.log
    ensures v.a.state == Rogers && v.a.txEnabled && v.a.dxCall == w.b.myCall && !v.a.qsoLogged
    ensures v.a.reportSent == heard
  {
    StepReachable(w0, w, StartA(1500), g);
    var u := w.(a := StartCq(w.a, 1500));
    assert u == Step(w, StartA(1500), g) && RogerB(u) == RogerB(w);
    CallerTakesRoger(u, heard);
    var t := CallerHeard(w0, u, RogerB(u), heard, g);
    CallerTakesRoger(t, None);
    v := CallerHeard(w0, t, RogerB(t), None, g);
  }

  /** From any world after the QSO: the old 73 ends it, and the caller logs a report it never transmitted. */
  lemma OldMessagesMakeSecondEntry(w0: World, w: World, g: Rules) returns (v: World)
    requires Reachable(w0, w, g) && !g.callerLater && Concluded(w) && GoodSetup(w) && w.b.myGrid != "RR73"
    requires w.b.log != [] && RogerB(w) in w.airB && FinalB(w) in w.airB
    ensures Reachable(w0, v, g) && Concluded(v) && !AllAgree(v) && v.b == w.b && |v.a.log| == |w.a.log| + 1
    ensures With(v.b.myCall, v.a.log[|w.a.log|]) && !Agree(v, v.a.log[|w.a.log|], v.b.log[0])
  {
    var heard := Some(if w.b.log[0].reportRcvd == Some(-7) then -8 else -7);
    var s := NewCqHearsOldRogers(w0, w, heard, g);
    assert FinalB(s) == FinalB(w);
    CallerTakesLateFinal(s);
    v := CallerHeard(w0, s, FinalB(s), None, g);
    SecondEntryDisagrees(v, |w.a.log|);
  }

  lemma SecondEntryDisagrees(v: World, k: nat)
    requires k < |v.a.log| && v.a.log[k].dxCall == v.b.myCall && v.b.log != []
    requires v.a.log[k].reportSent in {Some(-7), Some(-8)} && v.a.log[k].reportSent != v.b.log[0].reportRcvd
    ensures Concluded(v) && !AllAgree(v) && !Agree(v, v.a.log[k], v.b.log[0])
  {
    var r := v.a.log[k];
    NeverSent(v, r, v.b.log[0]);
    assert r in v.a.log && With(v.b.myCall, r) && v.b.log[0] in v.b.log;
  }

  /** After the QSO a new reply that hears the old report and the old RR73 logs a report the caller never had. */
  lemma OldMessagesMakeSecondReply(w0: World, w: World, g: Rules) returns (v: World)
    requires Reachable(w0, w, g) && !g.answererLater && Concluded(w) && Completed(w)
    ensures Reachable(w0, v, g) && Concluded(v) && !AllAgree(v) && v.a == w.a && |v.b.log| == |w.b.log| + 1
  {
    AnswererStartsOver(w, g);
    StepReachable(w0, w, StartB(-9, 1, 1500, 0), g);
    var u := Step(w, StartB(-9, 1, 1500, 0), g);
    AnswererTakesReport(u);
    var t := AnswererHeard(w0, u, ReportA(u), g);
    AnswererTakesRogers(t);
    v := AnswererHeard(w0, t, RogersA(t), g);
    var r, q := v.a.log[0], v.b.log[|w.b.log|];
    assert r in v.a.log && With(v.b.myCall, r) && q in v.b.log && !Agree(v, r, q);
  }

  // ---- all entries ---------------------------------------------------------------

  lemma {:induction false} RunIsConsistent(w: World, xs: seq<Action>, g: Rules)
    requires Consistent(w) && g.MidQso() && g.Later()
    ensures Consistent(Run(w, xs, g))
  {
    if xs != [] {
      RunIsConsistent(w, xs[..|xs| - 1], g);
      StepKeepsConsistent(Run(w, xs[..|xs| - 1], g), xs[|xs| - 1], g);
    }
  }

  lemma ConsistentAllAgree(w: World)
    requires Consistent(w) && Concluded(w)
    ensures AllAgree(w)
  {
    ConcludedAgrees(w);
    FirstWithIsLogged(w.b.myCall, w.a.log);
    assert w.b.log == [AnswererRecord(w)];
  }

  lemma SomeDisagree(w0: World, g: Rules) returns (w: World)
    requires Fresh(w0) && !(g.MidQso() && g.Later() && w0.b.myGrid != "RR73")
    ensures Reachable(w0, w, g) && Concluded(w) && !AllAgree(w)
  {
    if w0.b.myGrid == "RR73" {
      w := ConfusingGridBreaksAgreement(w0, g);
    } else if !g.caller {
      w := CallerRestartBreaksAgreement(w0, g);
    } else if !g.answerer {
      w := AnswererRestartBreaksAgreement(w0, g);
    } else {
      w := SomeRunCompletes(w0, g);
      OneEntryEach(w);
      if !g.callerLater {
        w := OldMessagesMakeSecondEntry(w0, w, g);
      } else {
        w := OldMessagesMakeSecondReply(w0, w, g);
      }
    }
    if AllAgree(w) {
      FirstPairIsOne(w);
    }
  }

  /**
   * All their entries for each other agree in all runs exactly when, besides, neither starts again once the caller
   * has logged the answerer.
   */
  lemma AllAgreeExactlyWhen(w0: World, g: Rules)
    requires Fresh(w0)
    ensures (forall w | Reachable(w0, w, g) && Concluded(w) :: AllAgree(w))
            <==> g.MidQso() && g.Later() && w0.b.myGrid != "RR73"
  {
    if g.MidQso() && g.Later() && w0.b.myGrid != "RR73" {
      StartIsTruthful(w0);
      forall w | Reachable(w0, w, g) && Concluded(w) ensures AllAgree(w) {
        var xs :| Run(w0, xs, g) == w;
        RunIsConsistent(w0, xs, g);
        ConsistentAllAgree(w);
      }
    } else {
      var w := SomeDisagree(w0, g);
    }
  }
}
