/** What one QSO asks for, hears and records, from its start to the next. */
module QsoRuns {
  import opened Prelude
  import opened MsgParse
  import opened Qso

  // ---- what a start asks for holds until the next ------------------------

  predicate NoStarts(es: seq<Event>) { forall e | e in es :: !Begins(e) }

  /** The route and the rules of a QSO, which only a start sets. */
  predicate SameRoute(s: Station, t: Station) {
    t.txPhase == s.txPhase && t.txFrequency == s.txFrequency && t.partnerLossStop == s.partnerLossStop
  }

  /** Nor does an exchange with a partner change whom it is with. */
  predicate SamePartner(s: Station, t: Station) {
    s.dxCall != "" && s.state != Calling ==>
      t.dxCall == s.dxCall && t.reportSent == s.reportSent && t.started == s.started && t.state != Calling
  }

  lemma AdvanceKeepsRoute(s: Station, msg: ParsedMessage, snr: Option<int>, now: int)
    ensures SameRoute(s, Advance(s, msg, snr, now))
  {
    EndingKeepsRoute(s);
  }

  lemma AdvanceKeepsPartner(s: Station, msg: ParsedMessage, snr: Option<int>, now: int)
    ensures SamePartner(s, Advance(s, msg, snr, now))
  {
    EndingKeepsRoute(s);
  }

  lemma EndingKeepsRoute(s: Station)
    ensures SameRoute(s, EnterSignoff(s)) && SamePartner(s, EnterSignoff(s))
    ensures SameRoute(s, CompleteQso(s)) && SamePartner(s, CompleteQso(s))
  {
  }

  lemma PullKeepsRoute(s: Station)
    ensures SameRoute(s, NextTx(s).0) && SamePartner(s, NextTx(s).0)
  {
    EndingKeepsRoute(s);
  }

  lemma EventKeepsRoute(s: Station, e: Event)
    requires !Begins(e)
    ensures SameRoute(s, Apply(s, e).0) && SamePartner(s, Apply(s, e).0)
  {
    match e
    case Heard(msg, snr, now) =>
      AdvanceKeepsRoute(Noted(s, msg), msg, snr, now);
      AdvanceKeepsPartner(Noted(s, msg), msg, snr, now);
    case SlotPulled => PullKeepsRoute(s);
    case _ =>
  }

  /** A reply goes to its sender, with the parity, offset and report asked for, and a partner's leaving ignored. */
  lemma {:induction false} ReplyHolds(s: Station, e: Event, es: seq<Event>)
    requires e.ReplyPressed? && e.msg.fromCall != "" && NoStarts(es)
    ensures var t := After(Apply(s, e).0, es);
            && t.txPhase == e.phase && t.txFrequency == e.frequency && !t.partnerLossStop
            && t.dxCall == e.msg.fromCall && t.reportSent == Some(e.snr) && t.started == Some(e.now)
            && t.state != Calling
  {
    if es != [] {
      assert forall k | k in es[..|es| - 1] :: k in es;
      ReplyHolds(s, e, es[..|es| - 1]);
      EventKeepsRoute(After(Apply(s, e).0, es[..|es| - 1]), es[|es| - 1]);
    }
  }

  /** A CQ is called in even slots on the offset asked for, and watches its partner leave. */
  lemma {:induction false} CqHolds(s: Station, e: Event, es: seq<Event>)
    requires e.CqPressed? && NoStarts(es)
    ensures var t := After(Apply(s, e).0, es);
            t.txPhase == 0 && t.txFrequency == e.frequency && t.partnerLossStop
  {
    if es != [] {
      assert forall k | k in es[..|es| - 1] :: k in es;
      CqHolds(s, e, es[..|es| - 1]);
      EventKeepsRoute(After(Apply(s, e).0, es[..|es| - 1]), es[|es| - 1]);
    }
  }

  /** A message of partner `dx` to a third station. */
  predicate TurnsAway(s: Station, msg: ParsedMessage) {
    && msg.fromCall != "" && BaseCall(msg.fromCall) == BaseCall(s.dxCall)
    && msg.toCall != "" && BaseCall(msg.toCall) != BaseCall(s.myCall)
  }

  /** A partner that turns to another station ends the exchange when it came from a CQ, and leaves a reply as it was. */
  lemma PartnerLossExactlyWhen(s: Station, begin: Event, es: seq<Event>, heard: Event)
    requires Begins(begin) && NoStarts(es) && heard.Heard?
    requires var t := After(Apply(s, begin).0, es);
             t.txEnabled && t.state !in {Idle, Done} && t.dxCall != "" && TurnsAway(t, heard.msg)
    ensures var t := After(Apply(s, begin).0, es);
            var v := Apply(t, heard).0;
            && (!v.txEnabled <==> begin.CqPressed?)
            && (begin.CqPressed? ==> v.disarmReason == Some(PartnerLost) && v.dxCall == t.dxCall)
            && (begin.ReplyPressed? ==> v == t)
  {
    if begin.CqPressed? {
      CqHolds(s, begin, es);
    } else {
      ReplyHolds(s, begin, es);
    }
  }

  // ---- what a QSO has heard -------------------------------------------------

  /** Event `e` brings news of the QSO under way. */
  predicate News(s: Station, e: Event) { e.Heard? && s.txEnabled && s.state !in {Idle, Done} && Relevant(s, e.msg) }

  /** The last grid among the news, or the one the QSO began with. */
  function LastGrid(s: Station, es: seq<Event>): string {
    if es == [] then s.dxGrid
    else
      var front, e := es[..|es| - 1], es[|es| - 1];
      if News(After(s, front), e) && e.msg.grid != "" then e.msg.grid else LastGrid(s, front)
  }

  /** The last report among the news. */
  function LastReport(s: Station, es: seq<Event>): Option<int> {
    if es == [] then s.reportRcvd
    else
      var front, e := es[..|es| - 1], es[|es| - 1];
      if News(After(s, front), e) && e.msg.report.Some? then e.msg.report else LastReport(s, front)
  }

  /** Grid and report to be logged are the last ones heard in this QSO; before any news a CQ has neither. */
  lemma {:induction false} KeepsLastHeard(s: Station, begin: Event, es: seq<Event>)
    requires Begins(begin) && NoStarts(es)
    ensures var b := Apply(s, begin).0;
            && After(b, es).dxGrid == LastGrid(b, es) && After(b, es).reportRcvd == LastReport(b, es)
            && b.dxGrid == (if begin.CqPressed? then "" else begin.msg.grid) && b.reportRcvd == None
  {
    if es != [] {
      var front, e := es[..|es| - 1], es[|es| - 1];
      assert forall k | k in front :: k in es;
      KeepsLastHeard(s, begin, front);
      EventKeepsHeard(After(Apply(s, begin).0, front), e);
    }
  }

  lemma EventKeepsHeard(s: Station, e: Event)
    requires !Begins(e)
    ensures var t := Apply(s, e).0;
            && t.dxGrid == (if News(s, e) && e.msg.grid != "" then e.msg.grid else s.dxGrid)
            && t.reportRcvd == (if News(s, e) && e.msg.report.Some? then e.msg.report else s.reportRcvd)
  {
    if News(s, e) {
      var n := Noted(s, e.msg);
      AdvanceKeepsHeard(n, e.msg, e.measured, e.now);
    }
  }

  lemma AdvanceKeepsHeard(s: Station, msg: ParsedMessage, snr: Option<int>, now: int)
    ensures var t := Advance(s, msg, snr, now);
            t.dxGrid == s.dxGrid && t.reportRcvd == s.reportRcvd
  {
    EndingKeepsHeard(s);
  }

  lemma EndingKeepsHeard(s: Station)
    ensures EnterSignoff(s).dxGrid == s.dxGrid && EnterSignoff(s).reportRcvd == s.reportRcvd
    ensures CompleteQso(s).dxGrid == s.dxGrid && CompleteQso(s).reportRcvd == s.reportRcvd
  {
  }

  // ---- how far the exchange has come -----------------------------------------

  /** The news of a run, in order. */
  function NewsOf(s: Station, es: seq<Event>): (news: seq<Event>)
    ensures forall e | e in news :: e.Heard?
  {
    if es == [] then []
    else
      var front, e := es[..|es| - 1], es[|es| - 1];
      NewsOf(s, front) + (if News(After(s, front), e) then [e] else [])
  }

  /** The first piece of news from number `from` on that is of the given sort; their number when there is none. */
  function FirstOf(news: seq<Event>, from: nat, sort: Event -> bool): (i: nat)
    requires from <= |news|
    ensures from <= i <= |news| && (i < |news| ==> sort(news[i])) && forall k | from <= k < i :: !sort(news[k])
    decreases |news| - from
  {
    if from == |news| || sort(news[from]) then from else FirstOf(news, from + 1, sort)
  }

  predicate NamesSender(e: Event) { e.Heard? && e.msg.fromCall != "" }

  predicate GivesReport(e: Event) { e.Heard? && e.msg.report.Some? }

  predicate RogersReport(e: Event) { e.Heard? && e.msg.hasRoger && e.msg.report.Some? }

  predicate SignsOff(e: Event) { e.Heard? && e.msg.isEom }

  /** Acknowledges the report sent, by rogering it or by ending the exchange. */
  predicate Confirms(e: Event) { RogersReport(e) || (e.Heard? && e.msg.eom in {"RRR", "RR73", "73"}) }

  /** Leaves nothing to acknowledge in turn. */
  predicate Closes(e: Event) { e.Heard? && !RogersReport(e) && e.msg.eom in {"RR73", "73"} }

  /** A reply waits for a report, rogers it, and closes on an ending. */
  function ReplyStage(news: seq<Event>): State {
    var i := FirstOf(news, 0, GivesReport);
    if i == |news| then Replying
    else if FirstOf(news, i + 1, SignsOff) == |news| then RogerReport
    else Signoff
  }

  /** A caller that has reported, with the news from number `from` on to come. */
  function AnsweredStage(news: seq<Event>, from: nat): State
    requires from <= |news|
  {
    var j := FirstOf(news, from, Confirms);
    if j == |news| then Report
    else if Closes(news[j]) then Signoff
    else if FirstOf(news, j + 1, SignsOff) == |news| then Rogers
    else Done
  }

  /** A CQ waits for an answer, reports, and is done on an ending that follows the confirmation, or closes on one. */
  function CqStage(news: seq<Event>): State {
    var i := FirstOf(news, 0, NamesSender);
    if i == |news| then Calling else AnsweredStage(news, i + 1)
  }

  lemma {:induction false} FirstOfMore(news: seq<Event>, e: Event, from: nat, sort: Event -> bool)
    requires from <= |news|
    ensures FirstOf(news + [e], from, sort)
            == var i := FirstOf(news, from, sort); if i < |news| then i else if sort(e) then |news| else |news| + 1
    decreases |news| - from
  {
    if from < |news| && !sort(news[from]) {
      FirstOfMore(news, e, from + 1, sort);
    }
  }

  lemma ReplyStageMoves(news: seq<Event>, e: Event)
    ensures ReplyStage(news + [e])
            == match ReplyStage(news)
               case Replying => if GivesReport(e) then RogerReport else Replying
               case RogerReport => if SignsOff(e) then Signoff else RogerReport
               case stage => stage
  {
    FirstOfMore(news, e, 0, GivesReport);
    var i := FirstOf(news, 0, GivesReport);
    if i < |news| {
      FirstOfMore(news, e, i + 1, SignsOff);
    }
  }

  lemma AnsweredStageMoves(news: seq<Event>, e: Event, from: nat)
    requires from <= |news|
    ensures AnsweredStage(news + [e], from)
            == match AnsweredStage(news, from)
               case Report => if !Confirms(e) then Report else if Closes(e) then Signoff else Rogers
               case Rogers => if SignsOff(e) then Done else Rogers
               case stage => stage
  {
    FirstOfMore(news, e, from, Confirms);
    var j := FirstOf(news, from, Confirms);
    if j < |news| {
      FirstOfMore(news, e, j + 1, SignsOff);
    }
  }

  lemma CqStageMoves(news: seq<Event>, e: Event)
    ensures CqStage(news + [e])
            == match CqStage(news)
               case Calling => if NamesSender(e) then Report else Calling
               case Report => if !Confirms(e) then Report else if Closes(e) then Signoff else Rogers
               case Rogers => if SignsOff(e) then Done else Rogers
               case stage => stage
  {
    FirstOfMore(news, e, 0, NamesSender);
    var i := FirstOf(news, 0, NamesSender);
    if i < |news| {
      AnsweredStageMoves(news, e, i + 1);
    }
  }

  function Stage(begin: Event, news: seq<Event>): State {
    if begin.CqPressed? then CqStage(news) else ReplyStage(news)
  }

  lemma NewsMovesStage(s: Station, begin: Event, news: seq<Event>, e: Event)
    requires s.txEnabled && s.state == Stage(begin, news) && News(s, e)
    ensures Apply(s, e).0.state == Stage(begin, news + [e])
  {
    var n := Noted(s, e.msg);
    assert Apply(s, e).0 == Advance(n, e.msg, e.measured, e.now);
    if begin.CqPressed? {
      CqStageMoves(news, e);
      CqStageIs(news);
    } else {
      ReplyStageMoves(news, e);
    }
  }

  lemma CqStageIs(news: seq<Event>)
    ensures CqStage(news) in {Calling, Report, Signoff, Rogers, Done}
  {
  }

  lemma OtherEventsKeepStage(s: Station, e: Event)
    requires !Begins(e) && !News(s, e)
    ensures Apply(s, e).0.txEnabled ==> s.txEnabled && Apply(s, e).0.state == s.state
  {
  }

  /** While armed the station stands where the news of its QSO leaves the exchange, whatever it sent or overheard. */
  lemma {:induction false} StateTellsNews(s: Station, begin: Event, es: seq<Event>)
    requires Begins(begin) && NoStarts(es)
    ensures var b := Apply(s, begin).0;
            After(b, es).txEnabled ==> After(b, es).state == Stage(begin, NewsOf(b, es))
  {
    if es != [] {
      var b, front, e := Apply(s, begin).0, es[..|es| - 1], es[|es| - 1];
      assert forall k | k in front :: k in es;
      StateTellsNews(s, begin, front);
      var t := After(b, front);
      if News(t, e) {
        NewsMovesStage(t, begin, NewsOf(b, front), e);
      } else {
        OtherEventsKeepStage(t, e);
        assert NewsOf(b, front) + [] == NewsOf(b, front);
      }
    }
  }

  /** A CQ's QSO is with the first to answer: its call, its measured signal and the time it was heard are recorded. */
  predicate WithAnswerer(t: Station, news: seq<Event>)
    requires forall e | e in news :: e.Heard?
  {
    var i := FirstOf(news, 0, NamesSender);
    if i == |news| then t.dxCall == ""
    else t.dxCall == news[i].msg.fromCall && t.reportSent == news[i].measured && t.started == Some(news[i].now)
  }

  lemma AnswererIsKept(t: Station, e: Event, news: seq<Event>)
    requires Coherent(t) && !Begins(e) && (forall k | k in news :: k.Heard?) && WithAnswerer(t, news)
    requires t.txEnabled ==> t.state == CqStage(news)
    ensures WithAnswerer(Apply(t, e).0, if News(t, e) then news + [e] else news)
  {
    FirstOfMore(news, e, 0, NamesSender);
    if News(t, e) {
      AdvanceKeepsPartner(Noted(t, e.msg), e.msg, e.measured, e.now);
    } else {
      DisarmingKeepsPartner(t, e);
    }
  }

  lemma DisarmingKeepsPartner(t: Station, e: Event)
    requires !Begins(e) && !News(t, e)
    ensures var v := Apply(t, e).0; v.dxCall == t.dxCall && v.reportSent == t.reportSent && v.started == t.started
  {
  }

  lemma {:induction false} CqAnswererIsFirst(s: Station, begin: Event, es: seq<Event>)
    requires Coherent(s) && begin.CqPressed? && NoStarts(es)
    ensures var b := Apply(s, begin).0; Coherent(After(b, es)) && WithAnswerer(After(b, es), NewsOf(b, es))
  {
    var b := Apply(s, begin).0;
    ApplyKeepsCoherent(s, begin);
    if es != [] {
      var front, e := es[..|es| - 1], es[|es| - 1];
      assert forall k | k in front :: k in es;
      CqAnswererIsFirst(s, begin, front);
      StateTellsNews(s, begin, front);
      ApplyKeepsCoherent(After(b, front), e);
      AnswererIsKept(After(b, front), e, NewsOf(b, front));
      assert NewsOf(b, front) + [] == NewsOf(b, front);
    }
  }

  // ---- how it ends -------------------------------------------------------------

  /** Why an event disarms an armed station. */
  predicate EndsFor(s: Station, e: Event, reason: DisarmReason) {
    match reason
    case PartnerLost => e.Heard? && s.partnerLossStop && s.dxCall != "" && TurnsAway(s, e.msg)
    case Complete => (s.state == Rogers && News(s, e) && SignsOff(e))
                     || (s.state == Signoff && e.SlotPulled? && s.signoffSent)
    case RetryExhausted => e.SlotPulled? && s.state != Calling && !(s.state == Signoff && s.signoffSent)
                           && s.txCount == 1 + s.maxRetransmissions
    case _ => false
  }

  predicate EndsByItself(s: Station, e: Event) {
    EndsFor(s, e, PartnerLost) || EndsFor(s, e, Complete) || EndsFor(s, e, RetryExhausted)
  }

  lemma HearingEndsExactlyWhen(s: Station, e: Event)
    requires Coherent(s) && s.txEnabled && e.Heard?
    ensures var t := Apply(s, e).0;
            && (t.txEnabled <==> !EndsByItself(s, e))
            && (!t.txEnabled ==> t.disarmReason.Some? && EndsFor(s, e, t.disarmReason.value)
                                 && t.stops == s.stops + [t.disarmReason.value])
            && (t.txEnabled ==> t.stops == s.stops)
  {
    if News(s, e) {
      var n := Noted(s, e.msg);
      assert n.stops == s.stops && n.state == s.state;
    }
  }

  lemma PullEndsExactlyWhen(s: Station)
    requires Coherent(s) && s.txEnabled
    ensures var t := Apply(s, SlotPulled).0;
            && (t.txEnabled <==> !EndsByItself(s, SlotPulled)) && (t.txEnabled <==> NextTx(s).1.Some?)
            && (!t.txEnabled ==> t.disarmReason.Some? && EndsFor(s, SlotPulled, t.disarmReason.value)
                                 && t.stops == s.stops + [t.disarmReason.value])
            && (t.txEnabled ==> t.stops == s.stops)
  {
  }

  /** An armed station disarms itself for one of three reasons and for no other, and reports each disarm once. */
  lemma EndsExactlyWhen(s: Station, e: Event)
    requires Coherent(s) && s.txEnabled && !Begins(e) && !e.StopPressed?
    ensures var t := Apply(s, e).0;
            && (t.txEnabled <==> !EndsByItself(s, e))
            && (!t.txEnabled ==> t.disarmReason.Some? && EndsFor(s, e, t.disarmReason.value)
                                 && t.stops == s.stops + [t.disarmReason.value])
            && (t.txEnabled ==> t.stops == s.stops)
  {
    match e
    case Heard(_, _, _) => HearingEndsExactlyWhen(s, e);
    case SlotPulled => PullEndsExactlyWhen(s);
    case _ =>
  }

  /** Once its 73 is out, a signed-off station offers another exactly when it has heard one more ending. */
  lemma CourtesyRepeatsExactlyWhen(s: Station, e: Event)
    requires Coherent(s) && s.txEnabled && s.state == Signoff && s.signoffSent && News(s, e)
    ensures var t := Apply(s, e).0;
            && (SignsOff(e) ==> NextTx(t).1 == Some(ExchangeText(s.dxCall, s.myCall, "73")))
            && (!SignsOff(e) ==> NextTx(t).1 == None && NextTx(t).0.state == Done)
  {
    NotedIsSignoff(s, e);
  }

  lemma NotedIsSignoff(s: Station, e: Event)
    requires s.txEnabled && s.state == Signoff && News(s, e)
    ensures var t := Apply(s, e).0;
            && t.txCount == 0 && t.state == Signoff && t.txEnabled && t.dxCall == s.dxCall && SameSetup(s, t)
            && t.signoffSent == (s.signoffSent && !SignsOff(e))
  {
  }

  /** What an event logs is one record, of the station as the event leaves it. */
  lemma LogsWhatItHolds(s: Station, e: Event)
    ensures var t := Apply(s, e).0;
            || t.log == s.log
            || t.log == s.log + [Record(s.myCall, s.myGrid, t.dxCall, t.dxGrid, t.reportSent, t.reportRcvd, t.started)]
  {
    match e
    case Heard(msg, snr, now) => AdvanceLogs(Noted(s, msg), msg, snr, now);
    case _ =>
  }

  lemma AdvanceLogs(s: Station, msg: ParsedMessage, snr: Option<int>, now: int)
    ensures var t := Advance(s, msg, snr, now);
            || t.log == s.log
            || t.log == s.log + [Record(s.myCall, s.myGrid, t.dxCall, t.dxGrid, t.reportSent, t.reportRcvd, t.started)]
  {
    EndingLogs(s);
  }

  lemma EndingLogs(s: Station)
    ensures forall t | t in {EnterSignoff(s), CompleteQso(s)} ::
              || t.log == s.log
              || t.log == s.log
                          + [Record(s.myCall, s.myGrid, t.dxCall, t.dxGrid, t.reportSent, t.reportRcvd, t.started)]
  {
  }

  /** With no signal measured the report sent is minus ten. */
  lemma UnmeasuredIsMinusTen(s: Station)
    requires Coherent(s) && s.txEnabled && s.state == Report && s.reportSent == None
    requires s.txCount <= s.maxRetransmissions
    ensures NextTx(s).1 == Some(s.dxCall + " " + s.myCall + " " + "-10")
  {
    assert FormatReport(-10) == ['-', DigitChar(1), DigitChar(0)] == "-10";
  }

  // ---- callsigns are compared without their decoration --------------------------

  /** The same message with its two calls spelt otherwise: with a suffix, in brackets, in small letters. */
  predicate Respelt(m: ParsedMessage, n: ParsedMessage) {
    && n == m.(toCall := n.toCall, fromCall := n.fromCall)
    && BaseCall(n.toCall) == BaseCall(m.toCall) && (n.toCall == "" <==> m.toCall == "")
    && BaseCall(n.fromCall) == BaseCall(m.fromCall) && (n.fromCall == "" <==> m.fromCall == "")
  }

  /** A station in an exchange is moved alike by a message however its calls are spelt, its own call's spelling too. */
  lemma SpellingDoesNotMatter(s: Station, m: ParsedMessage, n: ParsedMessage, snr: Option<int>, now: int)
    requires Respelt(m, n) && s.state != Calling && s.dxCall != ""
    ensures OnMessage(s, n, snr, now) == OnMessage(s, m, snr, now)
  {
    if News(s, Heard(m, snr, now)) {
      assert Noted(s, n) == Noted(s, m);
      AdvanceReadsNoCalls(Noted(s, m), m, n, snr, now);
    }
  }

  lemma AdvanceReadsNoCalls(s: Station, m: ParsedMessage, n: ParsedMessage, snr: Option<int>, now: int)
    requires Respelt(m, n) && s.state != Calling
    ensures Advance(s, n, snr, now) == Advance(s, m, snr, now)
  {
  }
}
