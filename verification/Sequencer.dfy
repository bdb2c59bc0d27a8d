/** One station's QSO automaton: its value-level rules, the object that runs them, and what every run keeps. */
module Qso {
  import opened Prelude
  import opened MsgParse

  const REPORT_MIN := -50
  const REPORT_MAX := 50
  const DEFAULT_REPORT_DB := -10
  const DEFAULT_TX_AUDIO_FREQUENCY := 1500

  datatype State = Idle | Calling | Replying | Report | RogerReport | Rogers | Signoff | Done

  datatype DisarmReason = Manual | Fault | RetryExhausted | PartnerLost | Complete

  datatype Record = Record(
    myCall: string, myGrid: string, dxCall: string, dxGrid: string,
    reportSent: Option<int>, reportRcvd: Option<int>, started: Option<int>)

  /** Everything the automaton remembers, plus what it handed to its two callbacks. */
  datatype Station = Station(
    myCall: string,
    myGrid: string,
    maxRetransmissions: nat,
    state: State,
    dxCall: string,
    dxGrid: string,
    reportSent: Option<int>,
    reportRcvd: Option<int>,
    txEnabled: bool,
    disarmReason: Option<DisarmReason>,
    txPhase: int,
    txFrequency: int,
    txCount: nat,
    signoffSent: bool,
    partnerLossStop: bool,
    qsoLogged: bool,
    started: Option<int>,
    log: seq<Record>,
    stops: seq<DisarmReason>)

  function NewStation(myCall: string, myGrid: string, maxRetransmissions: nat): Station {
    Station(myCall, myGrid, maxRetransmissions, Idle, "", "", None, None, false, None, 0,
            DEFAULT_TX_AUDIO_FREQUENCY, 0, false, true, false, None, [], [])
  }

  // ---- printed texts ---------------------------------------------------

  function ClampReport(db: int): int { Max(REPORT_MIN, Min(REPORT_MAX, db)) }

  function DigitChar(d: int): char
    requires 0 <= d <= 9
  {
    ('0' as int + d) as char
  }

  function FormatReport(db: int): string {
    var v := ClampReport(db);
    var m := if v < 0 then -v else v;
    [if v < 0 then '-' else '+', DigitChar(m / 10), DigitChar(m % 10)]
  }

  /** The report a station puts on the air: clamped, with the default when none was measured. */
  function WireReport(measured: Option<int>): int { ClampReport(measured.GetOr(DEFAULT_REPORT_DB)) }

  function CqText(my: string, grid: string): string { "CQ" + " " + my + " " + grid }

  function ExchangeText(dx: string, my: string, tail: string): string { dx + " " + my + " " + tail }

  /** The last token of an exchange message in each armed state with a partner. */
  function ExchangeTail(s: Station): string {
    match s.state
    case Replying => s.myGrid
    case Report => FormatReport(s.reportSent.GetOr(DEFAULT_REPORT_DB))
    case RogerReport => "R" + FormatReport(s.reportSent.GetOr(DEFAULT_REPORT_DB))
    case Rogers => "RR73"
    case _ => "73"
  }

  // ---- transitions -----------------------------------------------------

  function WithPartner(s: Station, call: string, grid: string, sent: Option<int>, at: Option<int>): Station {
    s.(dxCall := call, dxGrid := grid, reportSent := sent, started := at)
  }

  function ResetProgress(s: Station): Station {
    s.(reportRcvd := None, disarmReason := None, txCount := 0, signoffSent := false, qsoLogged := false)
  }

  function ResetPartner(s: Station): Station {
    ResetProgress(WithPartner(s, "", "", None, None).(txPhase := 0, txFrequency := DEFAULT_TX_AUDIO_FREQUENCY))
  }

  function StartCq(s: Station, frequency: int): Station {
    ResetPartner(s).(state := Calling, txFrequency := frequency, txEnabled := true, partnerLossStop := true)
  }

  function ReplyTo(s: Station, msg: ParsedMessage, snr: int, phase: int, frequency: int, now: int): Station {
    if msg.fromCall == "" then s
    else
      WithPartner(ResetPartner(s), msg.fromCall, msg.grid, Some(snr), Some(now))
      .(txPhase := phase, txFrequency := frequency, state := Replying, txEnabled := true, partnerLossStop := false)
  }

  function Stop(s: Station, reason: DisarmReason): Station {
    s.(txEnabled := false, state := if s.state == Done then Done else Idle,
       disarmReason := Some(reason), stops := s.stops + [reason])
  }

  function RecordOf(s: Station): Record {
    Record(s.myCall, s.myGrid, s.dxCall, s.dxGrid, s.reportSent, s.reportRcvd, s.started)
  }

  function EnsureLog(s: Station): Station {
    if s.qsoLogged then s else s.(qsoLogged := true, log := s.log + [RecordOf(s)])
  }

  function EnterSignoff(s: Station): Station { EnsureLog(s).(state := Signoff) }

  function CompleteQso(s: Station): Station {
    var t := EnsureLog(s);
    t.(txEnabled := false, state := Done, disarmReason := Some(Complete), stops := t.stops + [Complete])
  }

  predicate FromPartner(s: Station, msg: ParsedMessage) {
    s.dxCall == "" || BaseCall(msg.fromCall) == BaseCall(s.dxCall)
  }

  /** A message that restarts the retransmission budget: addressed to me and not from a bystander. */
  predicate Relevant(s: Station, msg: ParsedMessage) {
    AddressedTo(msg, s.myCall) && FromPartner(s, msg)
  }

  predicate PartnerTurnedAway(s: Station, msg: ParsedMessage) {
    && s.partnerLossStop
    && s.dxCall != "" && msg.fromCall != "" && msg.toCall != ""
    && BaseCall(msg.fromCall) == BaseCall(s.dxCall)
    && BaseCall(msg.toCall) != BaseCall(s.myCall)
  }

  /** The bookkeeping every relevant message causes, before the state-specific rule. */
  function Noted(s: Station, msg: ParsedMessage): Station {
    s.(txCount := 0,
       dxGrid := if msg.grid != "" then msg.grid else s.dxGrid,
       reportRcvd := if msg.report.Some? then msg.report else s.reportRcvd)
  }

  function Advance(s: Station, msg: ParsedMessage, snr: Option<int>, now: int): Station {
    match s.state
    case Calling =>
      if msg.fromCall != "" then
        WithPartner(s, msg.fromCall, s.dxGrid, snr, Some(now)).(state := Report)
      else s
    case Replying =>
      if msg.report.Some? then s.(state := RogerReport) else s
    case Report =>
      if msg.hasRoger && msg.report.Some? then s.(state := Rogers)
      else if msg.eom == "RRR" then s.(state := Rogers)
      else if msg.eom == "RR73" || msg.eom == "73" then EnterSignoff(s)
      else s
    case RogerReport => if msg.isEom then EnterSignoff(s) else s
    case Rogers => if msg.isEom then CompleteQso(s) else s
    case Signoff => if msg.isEom then s.(signoffSent := false) else s
    case _ => s
  }

  function OnMessage(s: Station, msg: ParsedMessage, snr: Option<int>, now: int): Station {
    if !s.txEnabled || s.state in {Idle, Done} then s
    else if !AddressedTo(msg, s.myCall) then
      if PartnerTurnedAway(s, msg) then Stop(s, PartnerLost) else s
    else if !FromPartner(s, msg) then s
    else Advance(Noted(s, msg), msg, snr, now)
  }

  function NextTx(s: Station): (Station, Option<string>) {
    if !s.txEnabled then (s, None)
    else if s.state == Calling then (s, Some(CqText(s.myCall, s.myGrid)))
    else if s.state == Signoff && s.signoffSent then (CompleteQso(s), None)
    else if s.state in {Idle, Done} then (s, None)
    else if s.txCount >= 1 + s.maxRetransmissions then (Stop(s, RetryExhausted), None)
    else
      (s.(txCount := s.txCount + 1, signoffSent := s.signoffSent || s.state == Signoff),
       Some(ExchangeText(s.dxCall, s.myCall, ExchangeTail(s))))
  }

  // ---- the object ------------------------------------------------------

  class Sequencer {
    const myCall: string
    const myGrid: string
    const maxRetransmissions: nat
    var state: State
    var dxCall: string
    var dxGrid: string
    var reportSent: Option<int>
    var reportRcvd: Option<int>
    var txEnabled: bool
    var disarmReason: Option<DisarmReason>
    var txPhase: int
    var txFrequency: int
    var txCount: nat
    var signoffSent: bool
    var partnerLossStop: bool
    var qsoLogged: bool
    var started: Option<int>
    var log: seq<Record>
    var stops: seq<DisarmReason>

    function View(): Station
      reads this
    {
      Station(myCall, myGrid, maxRetransmissions, state, dxCall, dxGrid, reportSent, reportRcvd, txEnabled,
              disarmReason, txPhase, txFrequency, txCount, signoffSent, partnerLossStop, qsoLogged, started,
              log, stops)
    }

    constructor (myCall: string, myGrid: string, maxRetransmissions: nat)
      ensures View() == NewStation(myCall, myGrid, maxRetransmissions)
    {
      this.myCall, this.myGrid, this.maxRetransmissions := myCall, myGrid, maxRetransmissions;
      state, dxCall, dxGrid, reportSent, reportRcvd := Idle, "", "", None, None;
      txEnabled, disarmReason, txPhase, txFrequency := false, None, 0, DEFAULT_TX_AUDIO_FREQUENCY;
      txCount, signoffSent, partnerLossStop, qsoLogged, started := 0, false, true, false, None;
      log, stops := [], [];
    }

    method SetRoute(phase: int, frequency: int)
      modifies this
      ensures View() == old(View()).(txPhase := phase, txFrequency := frequency)
    {
      txPhase := phase;
      txFrequency := frequency;
    }

    method Arm(next: State, lossStop: bool)
      modifies this
      ensures View() == old(View()).(state := next, txEnabled := true, partnerLossStop := lossStop)
    {
      state := next;
      txEnabled := true;
      partnerLossStop := lossStop;
    }

    method SetPartner(call: string, grid: string, sent: Option<int>, at: Option<int>)
      modifies this
      ensures View() == WithPartner(old(View()), call, grid, sent, at)
    {
      dxCall := call;
      dxGrid := grid;
      reportSent := sent;
      started := at;
    }

    method ClearPartner()
      modifies this
      ensures View() == ResetPartner(old(View()))
    {
      SetPartner("", "", None, None);
      SetRoute(0, DEFAULT_TX_AUDIO_FREQUENCY);
      ClearProgress();
    }

    method ClearProgress()
      modifies this
      ensures View() == ResetProgress(old(View()))
    {
      reportRcvd := None;
      disarmReason := None;
      txCount := 0;
      signoffSent := false;
      qsoLogged := false;
    }

    method BeginCq(frequency: int)
      modifies this
      ensures View() == StartCq(old(View()), frequency)
    {
      ClearPartner();
      SetRoute(txPhase, frequency);
      Arm(Calling, true);
    }

    method BeginReply(msg: ParsedMessage, snr: int, phase: int, frequency: int, now: int)
      modifies this
      ensures View() == ReplyTo(old(View()), msg, snr, phase, frequency, now)
    {
      if msg.fromCall == "" {
        return;
      }
      ClearPartner();
      SetPartner(msg.fromCall, msg.grid, Some(snr), Some(now));
      SetRoute(phase, frequency);
      Arm(Replying, false);
    }

    method Disarm(reason: DisarmReason)
      modifies this
      ensures View() == Stop(old(View()), reason)
    {
      txEnabled := false;
      if state != Done {
        state := Idle;
      }
      disarmReason := Some(reason);
      stops := stops + [reason];
    }

    method LogOnce()
      modifies this
      ensures View() == EnsureLog(old(View()))
    {
      if qsoLogged {
        return;
      }
      qsoLogged := true;
      log := log + [Record(myCall, myGrid, dxCall, dxGrid, reportSent, reportRcvd, started)];
    }

    method Finish()
      modifies this
      ensures View() == CompleteQso(old(View()))
    {
      LogOnce();
      txEnabled := false;
      state := Done;
      disarmReason := Some(Complete);
      stops := stops + [Complete];
    }

    method Hear(msg: ParsedMessage, snr: Option<int>, now: int)
      modifies this
      ensures View() == OnMessage(old(View()), msg, snr, now)
    {
      if !txEnabled || state in {Idle, Done} {
        return;
      }
      if !AddressedTo(msg, myCall) {
        if && partnerLossStop && dxCall != "" && msg.fromCall != "" && msg.toCall != ""
           && BaseCall(msg.fromCall) == BaseCall(dxCall) && BaseCall(msg.toCall) != BaseCall(myCall)
        {
          Disarm(PartnerLost);
        }
        return;
      }
      if dxCall != "" && BaseCall(msg.fromCall) != BaseCall(dxCall) {
        return;
      }
      Note(msg);
      Progress(msg, snr, now);
    }

    /** A relevant partner message restarts the budget and refreshes grid and report. */
    method Note(msg: ParsedMessage)
      modifies this
      ensures View() == Noted(old(View()), msg)
    {
      txCount := 0;
      if msg.grid != "" {
        dxGrid := msg.grid;
      }
      if msg.report.Some? {
        reportRcvd := msg.report;
      }
    }

    method Progress(msg: ParsedMessage, snr: Option<int>, now: int)
      modifies this
      ensures View() == Advance(old(View()), msg, snr, now)
    {
      match state {
        case Calling =>
          if msg.fromCall != "" {
            SetPartner(msg.fromCall, dxGrid, snr, Some(now));
            state := Report;
          }
        case Replying =>
          if msg.report.Some? {
            state := RogerReport;
          }
        case Report =>
          if msg.hasRoger && msg.report.Some? {
            state := Rogers;
          } else if msg.eom == "RRR" {
            state := Rogers;
          } else if msg.eom == "RR73" || msg.eom == "73" {
            LogOnce();
            state := Signoff;
          }
        case RogerReport =>
          if msg.isEom {
            LogOnce();
            state := Signoff;
          }
        case Rogers =>
          if msg.isEom {
            Finish();
          }
        case Signoff =>
          if msg.isEom {
            signoffSent := false;
          }
        case _ =>
      }
    }

    method Pull() returns (text: Option<string>)
      modifies this
      ensures (View(), text) == NextTx(old(View()))
    {
      if !txEnabled {
        return None;
      }
      if state == Calling {
        return Some(CqText(myCall, myGrid));
      }
      if state == Signoff && signoffSent {
        Finish();
        return None;
      }
      if state in {Idle, Done} {
        return None;
      }
      if txCount >= 1 + maxRetransmissions {
        Disarm(RetryExhausted);
        return None;
      }
      txCount := txCount + 1;
      var report := FormatReport(reportSent.GetOr(DEFAULT_REPORT_DB));
      match state {
        case Replying => text := Some(ExchangeText(dxCall, myCall, myGrid));
        case Report => text := Some(ExchangeText(dxCall, myCall, report));
        case RogerReport => text := Some(ExchangeText(dxCall, myCall, "R" + report));
        case Rogers => text := Some(ExchangeText(dxCall, myCall, "RR73"));
        case Signoff =>
          signoffSent := true;
          text := Some(ExchangeText(dxCall, myCall, "73"));
      }
    }
  }

  // ---- runs ------------------------------------------------------------

  datatype Event =
    | CqPressed(frequency: int)
    | ReplyPressed(msg: ParsedMessage, snr: int, phase: int, frequency: int, now: int)
    | StopPressed(reason: DisarmReason)
    | Heard(msg: ParsedMessage, measured: Option<int>, now: int)
    | SlotPulled

  function Apply(s: Station, e: Event): (Station, Option<string>) {
    match e
    case CqPressed(f) => (StartCq(s, f), None)
    case ReplyPressed(m, snr, p, f, now) => (ReplyTo(s, m, snr, p, f, now), None)
    case StopPressed(r) => (Stop(s, r), None)
    case Heard(m, snr, now) => (OnMessage(s, m, snr, now), None)
    case SlotPulled => NextTx(s)
  }

  function After(s: Station, es: seq<Event>): Station {
    if es == [] then s else Apply(After(s, es[..|es| - 1]), es[|es| - 1]).0
  }

  /** What holds of the automaton between any two calls. */
  predicate Coherent(s: Station) {
    && (s.txEnabled <==> s.state !in {Idle, Done})
    && (s.state == Calling ==> s.dxCall == "")
    && (s.txEnabled && s.state != Calling ==> s.dxCall != "")
    && (s.state in {Signoff, Done} ==> s.qsoLogged)
    && (s.txEnabled && s.state != Signoff ==> !s.qsoLogged && !s.signoffSent)
    && (s.txEnabled ==> s.disarmReason == None)
    && s.txCount <= 1 + s.maxRetransmissions
    && (s.state == Calling ==> s.txCount == 0)
  }

  lemma HearingKeepsCoherent(s: Station, msg: ParsedMessage, snr: Option<int>, now: int)
    requires Coherent(s)
    ensures Coherent(OnMessage(s, msg, snr, now))
  {
    if s.txEnabled && Relevant(s, msg) {
      AdvanceKeepsCoherent(Noted(s, msg), msg, snr, now);
    }
  }

  lemma AdvanceKeepsCoherent(s: Station, msg: ParsedMessage, snr: Option<int>, now: int)
    requires Coherent(s)
    ensures Coherent(Advance(s, msg, snr, now))
  {
  }

  lemma PullKeepsCoherent(s: Station)
    requires Coherent(s)
    ensures Coherent(NextTx(s).0)
  {
  }

  lemma ApplyKeepsCoherent(s: Station, e: Event)
    requires Coherent(s)
    ensures Coherent(Apply(s, e).0)
  {
    match e
    case Heard(m, snr, now) => HearingKeepsCoherent(s, m, snr, now);
    case SlotPulled => PullKeepsCoherent(s);
    case _ =>
  }

  lemma {:induction false} RunKeepsCoherent(s: Station, es: seq<Event>)
    requires Coherent(s)
    ensures Coherent(After(s, es))
  {
    if es != [] {
      RunKeepsCoherent(s, es[..|es| - 1]);
      ApplyKeepsCoherent(After(s, es[..|es| - 1]), es[|es| - 1]);
    }
  }

  predicate SameSetup(s: Station, t: Station) {
    t.maxRetransmissions == s.maxRetransmissions && t.myCall == s.myCall && t.myGrid == s.myGrid
  }

  lemma AdvanceKeepsSetup(s: Station, msg: ParsedMessage, snr: Option<int>, now: int)
    ensures SameSetup(s, Advance(s, msg, snr, now))
  {
    EndingKeepsSetup(s);
  }

  lemma EndingKeepsSetup(s: Station)
    ensures SameSetup(s, EnterSignoff(s)) && SameSetup(s, CompleteQso(s))
  {
  }

  lemma HearingKeepsSetup(s: Station, msg: ParsedMessage, snr: Option<int>, now: int)
    ensures SameSetup(s, OnMessage(s, msg, snr, now))
  {
    AdvanceKeepsSetup(Noted(s, msg), msg, snr, now);
  }

  lemma ApplyKeepsSetup(s: Station, e: Event)
    ensures SameSetup(s, Apply(s, e).0)
  {
    match e
    case Heard(m, snr, now) => HearingKeepsSetup(s, m, snr, now);
    case _ =>
  }

  // ---- counting over one QSO -------------------------------------------

  /** A new QSO begins with an effective CQ or reply press. */
  predicate Begins(e: Event) {
    e.CqPressed? || (e.ReplyPressed? && e.msg.fromCall != "")
  }

  predicate HeardFinal(s: Station, e: Event) {
    e.Heard? && s.state == Signoff && s.txEnabled && Relevant(s, e.msg) && e.msg.isEom
  }

  predicate ResetsBudget(s: Station, e: Event) {
    Begins(e) || (e.Heard? && s.txEnabled && Relevant(s, e.msg))
  }

  predicate OffersExchange(s: Station, e: Event) {
    e.SlotPulled? && s.state != Calling && Apply(s, e).1.Some?
  }

  predicate OffersCourtesy(s: Station, e: Event) {
    OffersExchange(s, e) && s.state == Signoff
  }

  /** An observer beside the station, counting what it does since the QSO (or the budget) began. */
  datatype Tally = Tally(reached: bool, logged: int, finals: nat, courtesies: nat, offers: nat)

  const FRESH := Tally(false, 0, 0, 0, 0)

  function Count(t: Tally, s: Station, e: Event): Tally {
    var s' := Apply(s, e).0;
    var t0 := if Begins(e) then FRESH else t;
    Tally(
      t0.reached || s'.state in {Signoff, Done},
      t0.logged + |s'.log| - |s.log|,
      t0.finals + (if HeardFinal(s, e) then 1 else 0),
      t0.courtesies + (if OffersCourtesy(s, e) then 1 else 0),
      (if ResetsBudget(s, e) then 0 else t0.offers) + (if OffersExchange(s, e) then 1 else 0))
  }

  function TallyOf(s: Station, es: seq<Event>): Tally {
    if es == [] then FRESH
    else Count(TallyOf(s, es[..|es| - 1]), After(s, es[..|es| - 1]), es[|es| - 1])
  }

  predicate TallyFits(t: Tally, s: Station) {
    && t.logged == (if t.reached then 1 else 0)
    && (t.reached <==> s.qsoLogged)
    && t.courtesies <= 1 + t.finals
    && (!s.qsoLogged ==> t.finals == 0 && t.courtesies == 0)
    && (s.txEnabled && s.state == Signoff && !s.signoffSent ==> t.courtesies <= t.finals)
    && (s.txEnabled && s.state != Calling ==> t.offers == s.txCount)
    && t.offers <= 1 + s.maxRetransmissions
  }

  lemma HearingKeepsFit(t: Tally, s: Station, e: Event)
    requires Coherent(s) && TallyFits(t, s) && e.Heard?
    ensures TallyFits(Count(t, s, e), Apply(s, e).0)
  {
    if s.txEnabled && Relevant(s, e.msg) {
      var n := Noted(s, e.msg);
      assert n.log == s.log && n.qsoLogged == s.qsoLogged && n.state == s.state;
    }
  }

  lemma PullKeepsFit(t: Tally, s: Station)
    requires Coherent(s) && TallyFits(t, s)
    ensures TallyFits(Count(t, s, SlotPulled), NextTx(s).0)
  {
  }

  lemma CountKeepsFit(t: Tally, s: Station, e: Event)
    requires Coherent(s) && TallyFits(t, s)
    ensures TallyFits(Count(t, s, e), Apply(s, e).0)
  {
    match e
    case Heard(_, _, _) => HearingKeepsFit(t, s, e);
    case SlotPulled => PullKeepsFit(t, s);
    case _ =>
  }

  lemma {:induction false} RunKeepsTally(s: Station, es: seq<Event>)
    requires s == NewStation(s.myCall, s.myGrid, s.maxRetransmissions)
    ensures Coherent(After(s, es)) && TallyFits(TallyOf(s, es), After(s, es))
    ensures SameSetup(s, After(s, es))
  {
    if es != [] {
      var front, last := es[..|es| - 1], es[|es| - 1];
      RunKeepsTally(s, front);
      ApplyKeepsCoherent(After(s, front), last);
      CountKeepsFit(TallyOf(s, front), After(s, front), last);
      ApplyKeepsSetup(After(s, front), last);
    }
  }

  /** Over any run, the current QSO has been logged exactly once if it got to its sign-off and never otherwise. */
  lemma LoggedExactlyOnce(s: Station, es: seq<Event>)
    requires s == NewStation(s.myCall, s.myGrid, s.maxRetransmissions)
    ensures TallyOf(s, es).logged == (if TallyOf(s, es).reached then 1 else 0)
  {
    RunKeepsTally(s, es);
  }

  /** A 73 is offered only for a QSO already logged, and at most one more often than finals were heard. */
  lemma CourtesyAfterLog(s: Station, es: seq<Event>)
    requires s == NewStation(s.myCall, s.myGrid, s.maxRetransmissions)
    ensures TallyOf(s, es).courtesies <= 1 + TallyOf(s, es).finals
    ensures OffersCourtesy(After(s, es), SlotPulled) ==> TallyOf(s, es).logged == 1
  {
    RunKeepsTally(s, es);
  }

  /** Between two resets at most 1 + max exchange messages are offered; the next pull disarms and keeps the partner. */
  lemma RetryBudget(s: Station, es: seq<Event>)
    requires s == NewStation(s.myCall, s.myGrid, s.maxRetransmissions)
    ensures TallyOf(s, es).offers <= 1 + s.maxRetransmissions
    ensures var t := After(s, es);
            t.txEnabled && t.state !in {Calling, Signoff} && TallyOf(s, es).offers == 1 + s.maxRetransmissions ==>
              && NextTx(t).1 == None
              && !NextTx(t).0.txEnabled
              && NextTx(t).0.disarmReason == Some(RetryExhausted)
              && NextTx(t).0.dxCall == t.dxCall != ""
  {
    RunKeepsTally(s, es);
  }

  // ---- a silent partner ------------------------------------------------

  /** How many more pulls an armed exchange survives without news from the partner. */
  function PullsLeft(s: Station): nat
    requires Coherent(s) && s.txEnabled && s.state != Calling
  {
    if s.state == Signoff then
      if s.signoffSent || s.txCount >= 1 + s.maxRetransmissions then 1 else 2
    else
      2 + s.maxRetransmissions - s.txCount
  }

  function PullCount(es: seq<Event>): nat {
    if es == [] then 0 else PullCount(es[..|es| - 1]) + (if es[|es| - 1].SlotPulled? then 1 else 0)
  }

  /** Only pulls and messages that are not the partner's: nothing that could extend the exchange. */
  predicate Silence(s: Station, es: seq<Event>) {
    forall e | e in es :: e.SlotPulled? || (e.Heard? && !Relevant(s, e.msg))
  }

  lemma SilentStep(s: Station, e: Event)
    requires Coherent(s) && (e.SlotPulled? || (e.Heard? && !Relevant(s, e.msg)))
    ensures var t := Apply(s, e).0;
            && t.dxCall == s.dxCall && SameSetup(s, t) && Coherent(t)
            && (t.txEnabled ==> s.txEnabled && t.state == s.state)
            && (t.txEnabled && t.state != Calling ==>
                  PullsLeft(t) == PullsLeft(s) - (if e.SlotPulled? then 1 else 0))
  {
    ApplyKeepsCoherent(s, e);
    ApplyKeepsSetup(s, e);
  }

  lemma {:induction false} SilentPartnerDisarms(s: Station, es: seq<Event>)
    requires Coherent(s) && s.txEnabled && s.state != Calling && Silence(s, es)
    ensures var t := After(s, es);
            && t.dxCall == s.dxCall && SameSetup(s, t) && Coherent(t)
            && (t.txEnabled ==> t.state == s.state && PullsLeft(t) + PullCount(es) == PullsLeft(s))
    ensures PullsLeft(s) <= 2 + s.maxRetransmissions
    ensures PullCount(es) >= PullsLeft(s) ==> !After(s, es).txEnabled
  {
    if es != [] {
      var front, last := es[..|es| - 1], es[|es| - 1];
      SilentPartnerDisarms(s, front);
      assert last in es;
      SilentStep(After(s, front), last);
    }
  }

  // ---- print and read back ---------------------------------------------

  /** What a listener should understand from the next text of an armed station. */
  function Meaning(s: Station): ParsedMessage {
    var head := BLANK.(toCall := s.dxCall, fromCall := s.myCall);
    match s.state
    case Calling => BLANK.(isCq := true, fromCall := s.myCall, grid := s.myGrid)
    case Replying => head.(grid := s.myGrid)
    case Report => head.(report := Some(WireReport(s.reportSent)))
    case RogerReport => head.(report := Some(WireReport(s.reportSent)), hasRoger := true)
    case Rogers => head.(isEom := true, eom := "RR73", hasRoger := true)
    case _ => head.(isEom := true, eom := "73")
  }

  lemma ReportTokenReadsBack(m: ParsedMessage, db: int)
    ensures IsWord(FormatReport(db)) && IsWord("R" + FormatReport(db))
    ensures ApplyToken(m, FormatReport(db)) == m.(report := Some(ClampReport(db)), hasRoger := false)
    ensures ApplyToken(m, "R" + FormatReport(db)) == m.(report := Some(ClampReport(db)), hasRoger := true)
  {
    var v := ClampReport(db);
    var k := if v < 0 then -v else v;
    assert 10 * (k / 10) + k % 10 == k;
    var f := FormatReport(db);
    assert |f| == 3 && f[0] in {'+', '-'} && !(f[0] == 'R');
    assert WithoutRoger(f) == f && WithoutSign(f) == f[1..] && |f[1..]| == 2;
    var r := "R" + f;
    assert |r| == 4 && WithoutRoger(r) == f;
    assert !IsGrid(r) by { assert r[1] in {'+', '-'}; }
    assert f !in EOM_TOKENS by { assert f[0] != '7' && f[0] != 'R'; }
    assert r !in EOM_TOKENS by { assert r[1] != 'R'; }
  }

  lemma ExchangeTailReadsBack(s: Station, named: ParsedMessage)
    requires IsUpperGrid(s.myGrid) && named == BLANK.(toCall := s.dxCall, fromCall := s.myCall)
    requires s.state in {Replying, Report, RogerReport, Rogers, Signoff}
    ensures IsWord(ExchangeTail(s))
    ensures (s.state == Replying ==> s.myGrid != "RR73") ==> ApplyToken(named, ExchangeTail(s)) == Meaning(s)
    ensures s.state == Replying && s.myGrid == "RR73" ==>
              ApplyToken(named, ExchangeTail(s)) == named.(isEom := true, eom := "RR73", hasRoger := true)
  {
    match s.state
    case Replying =>
      UpperGridIsFixed(s.myGrid);
      GridTokenReadsBack(named, s.myGrid);
    case Report => ReportTokenReadsBack(named, s.reportSent.GetOr(DEFAULT_REPORT_DB));
    case RogerReport => ReportTokenReadsBack(named, s.reportSent.GetOr(DEFAULT_REPORT_DB));
    case Rogers => assert IsWord("RR73");
    case Signoff => assert IsWord("73") && !IsGrid("73");
  }

  lemma ExchangeReadsBack(s: Station)
    requires IsCall(s.myCall) && IsUpperGrid(s.myGrid) && IsCall(s.dxCall)
    requires s.state in {Replying, Report, RogerReport, Rogers, Signoff}
    ensures var read := Parse(ExchangeText(s.dxCall, s.myCall, ExchangeTail(s)));
            && (read == Meaning(s) <==> (s.state == Replying ==> s.myGrid != "RR73"))
            && (s.state == Replying && s.myGrid == "RR73" ==> read == Meaning(s.(state := Rogers)))
  {
    var named := BLANK.(toCall := s.dxCall, fromCall := s.myCall);
    ExchangeTailReadsBack(s, named);
    ParseTriple(s.dxCall, s.myCall, ExchangeTail(s));
  }

  /** Every text a station can offer reads back to what it meant, but a grid spelled RR73 reads as a sign-off. */
  lemma PrintedTextReadsBack(s: Station)
    requires Coherent(s) && NextTx(s).1.Some?
    requires IsCall(s.myCall) && IsUpperGrid(s.myGrid) && (s.state == Calling || IsCall(s.dxCall))
    ensures Parse(NextTx(s).1.value) == Meaning(s) <==> (s.state == Replying ==> s.myGrid != "RR73")
    ensures s.state == Replying && s.myGrid == "RR73" ==>
              Parse(NextTx(s).1.value) == Meaning(s.(state := Rogers))
  {
    if s.state == Calling {
      ParseCqText(s.myCall, s.myGrid);
    } else {
      ExchangeReadsBack(s);
    }
  }
}
