/**
 * Where the reports come from: whatever either station starts, stops or hears, a report it holds from the other was
 * put on the air by the other, addressed to it.
 */
module TwoStationReports {
  import opened Prelude
  import opened MsgParse
  import opened Qso
  import opened TwoStation

  /** Among these texts is one with this report from `from` to `to`. */
  ghost predicate Carried(air: set<string>, to: string, from: string, report: int) {
    exists t :: t in air && AddressedTo(Parse(t), to) && BaseCall(Parse(t).fromCall) == BaseCall(from)
                && Parse(t).report == Some(report)
  }

  ghost predicate Genuine(air: set<string>, to: string, from: string, dx: string, report: Option<int>) {
    BaseCall(dx) == BaseCall(from) && report.Some? ==> Carried(air, to, from, report.value)
  }

  /** Whatever report a station holds from `other`, now or in its log, `other` has transmitted to it. */
  ghost predicate Sourced(s: Station, air: set<string>, other: string) {
    && Coherent(s) && (s.state == Calling ==> s.reportRcvd == None)
    && Genuine(air, s.myCall, other, s.dxCall, s.reportRcvd)
    && forall r | r in s.log :: Genuine(air, s.myCall, other, r.dxCall, r.reportRcvd)
  }

  lemma {:induction false} TokensNotEmpty(s: string, word: string)
    ensures forall t | t in Tokens(s, word) :: t != ""
  {
    if s != "" {
      if IsSpace(s[0]) {
        TokensNotEmpty(s[1..], "");
      } else {
        TokensNotEmpty(s[1..], word + [s[0]]);
      }
    }
  }

  lemma AddressedIsSigned(text: string, my: string)
    requires AddressedTo(Parse(text), my)
    ensures Parse(text).fromCall != ""
  {
    var tokens := Split(text);
    TokensNotEmpty(text, "");
    if |tokens| >= 2 {
      assert tokens[1] in tokens;
      TailKeepsCalls(BLANK.(toCall := tokens[0], fromCall := tokens[1]), tokens[2..]);
    }
  }

  lemma MoreAir(air: set<string>, more: set<string>, to: string, from: string, dx: string, report: Option<int>)
    requires Genuine(air, to, from, dx, report) && air <= more
    ensures Genuine(more, to, from, dx, report)
  {
  }

  /** A message that reaches a station in the other's name is one of the other's texts. */
  predicate Honest(air: set<string>, other: string, text: string) {
    BaseCall(other) != "" && (text in air || BaseCall(Parse(text).fromCall) != BaseCall(other))
  }

  /** Noting a message keeps the report genuine, with the partner the station has or is about to take. */
  lemma NotedIsGenuine(s: Station, air: set<string>, other: string, text: string, dx: string)
    requires Sourced(s, air, other) && Honest(air, other, text) && AddressedTo(Parse(text), s.myCall)
    requires BaseCall(dx) == BaseCall(Parse(text).fromCall)
    requires s.dxCall == dx || s.reportRcvd == None
    ensures Genuine(air, s.myCall, other, dx, Noted(s, Parse(text)).reportRcvd)
  {
    var m := Parse(text);
    if BaseCall(dx) == BaseCall(other) && m.report.Some? {
      assert text in air && m.report == Some(m.report.value);
    }
  }

  lemma LogStaysSourced(s: Station, air: set<string>, other: string)
    requires Sourced(s, air, other)
    ensures forall r | r in EnsureLog(s).log :: Genuine(air, s.myCall, other, r.dxCall, r.reportRcvd)
  {
  }

  lemma AdvanceLogs(s: Station, m: ParsedMessage, snr: Option<int>, now: int)
    requires s.state == Calling ==> m.fromCall != ""
    ensures var v := Advance(s, m, snr, now);
            && v.myCall == s.myCall && v.state != Calling && v.reportRcvd == s.reportRcvd
            && v.dxCall == (if s.state == Calling then m.fromCall else s.dxCall)
            && (v.log == s.log || (s.state != Calling && v.log == s.log + [RecordOf(s)]))
  {
    EndingsLog(s);
    if s.state != Calling {
      OthersAdvance(s, m, snr, now);
    }
  }

  lemma OthersAdvance(s: Station, m: ParsedMessage, snr: Option<int>, now: int)
    requires s.state != Calling
    ensures var v := Advance(s, m, snr, now);
            || v == EnterSignoff(s) || v == CompleteQso(s)
            || (v == s.(state := v.state, signoffSent := v.signoffSent) && v.state != Calling)
  {
  }

  lemma AdvanceStaysSourced(s: Station, air: set<string>, other: string, m: ParsedMessage, snr: Option<int>, now: int)
    requires forall r | r in s.log :: Genuine(air, s.myCall, other, r.dxCall, r.reportRcvd)
    requires var dx := if s.state == Calling then m.fromCall else s.dxCall;
             Genuine(air, s.myCall, other, dx, s.reportRcvd) && (s.state == Calling ==> m.fromCall != "")
    ensures var v := Advance(s, m, snr, now);
            && v.myCall == s.myCall && v.state != Calling && Genuine(air, s.myCall, other, v.dxCall, v.reportRcvd)
            && forall r | r in v.log :: Genuine(air, s.myCall, other, r.dxCall, r.reportRcvd)
  {
    AdvanceLogs(s, m, snr, now);
  }

  lemma HearingStaysSourced(s: Station, air: set<string>, other: string, text: string, snr: Option<int>, now: int)
    requires Sourced(s, air, other) && Honest(air, other, text)
    ensures Sourced(OnMessage(s, Parse(text), snr, now), air, other)
  {
    var m := Parse(text);
    HearingKeepsCoherent(s, m, snr, now);
    if s.txEnabled && s.state !in {Idle, Done} && Relevant(s, m) {
      AddressedIsSigned(text, s.myCall);
      var dx := if s.state == Calling then m.fromCall else s.dxCall;
      NotedIsGenuine(s, air, other, text, dx);
      AdvanceStaysSourced(Noted(s, m), air, other, m, snr, now);
    }
  }

  lemma EventStaysSourced(s: Station, air: set<string>, other: string, e: Event)
    requires Sourced(s, air, other) && !e.Heard?
    ensures Sourced(Apply(s, e).0, air, other)
  {
    ApplyKeepsCoherent(s, e);
    LogStaysSourced(s, air, other);
  }

  lemma AirGrows(s: Station, air: set<string>, more: set<string>, other: string)
    requires Sourced(s, air, other) && air <= more
    ensures Sourced(s, more, other)
  {
    MoreAir(air, more, s.myCall, other, s.dxCall, s.reportRcvd);
    forall r | r in s.log ensures Genuine(more, s.myCall, other, r.dxCall, r.reportRcvd) {
      MoreAir(air, more, s.myCall, other, r.dxCall, r.reportRcvd);
    }
  }

  ghost predicate BothSourced(w: World) {
    && BaseCall(w.a.myCall) != "" && BaseCall(w.b.myCall) != ""
    && Sourced(w.a, w.airB, w.b.myCall) && Sourced(w.b, w.airA, w.a.myCall)
  }

  lemma CallerHears(w: World, text: string, snr: Option<int>, now: int)
    requires BothSourced(w)
    ensures BothSourced(Act(w, HearA(text, snr, now)))
  {
    if text in w.airB || Bystander(w, text) {
      HearingStaysSourced(w.a, w.airB, w.b.myCall, text, snr, now);
      HearingKeepsSetup(w.a, Parse(text), snr, now);
    }
  }

  lemma AnswererHears(w: World, text: string, snr: Option<int>, now: int)
    requires BothSourced(w)
    ensures BothSourced(Act(w, HearB(text, snr, now)))
  {
    if text in w.airA || Bystander(w, text) {
      HearingStaysSourced(w.b, w.airA, w.a.myCall, text, snr, now);
      HearingKeepsSetup(w.b, Parse(text), snr, now);
    }
  }

  /** A station goes through an event of its own and may put a text on the air. */
  lemma EventKeepsBoth(w: World, v: World, e: Event)
    requires BothSourced(w) && !e.Heard? && w.airA <= v.airA && w.airB <= v.airB
    requires (v.a == w.a && v.b == Apply(w.b, e).0) || (v.a == Apply(w.a, e).0 && v.b == w.b)
    ensures BothSourced(v)
  {
    EventStaysSourced(w.a, w.airB, w.b.myCall, e);
    EventStaysSourced(w.b, w.airA, w.a.myCall, e);
    ApplyKeepsSetup(w.a, e);
    ApplyKeepsSetup(w.b, e);
    AirGrows(v.a, w.airB, v.airB, w.b.myCall);
    AirGrows(v.b, w.airA, v.airA, w.a.myCall);
  }

  lemma OneActs(w: World, x: Action)
    requires !x.HearA? && !x.HearB?
    ensures var v, e := Act(w, x), EventOf(w, x);
            && !e.Heard? && w.airA <= v.airA && w.airB <= v.airB
            && ((v.a == w.a && v.b == Apply(w.b, e).0) || (v.a == Apply(w.a, e).0 && v.b == w.b))
  {
  }

  lemma ActKeepsBoth(w: World, x: Action)
    requires BothSourced(w)
    ensures BothSourced(Act(w, x))
  {
    match x
    case HearA(text, snr, now) => CallerHears(w, text, snr, now);
    case HearB(text, snr, now) => AnswererHears(w, text, snr, now);
    case _ =>
      OneActs(w, x);
      EventKeepsBoth(w, Act(w, x), EventOf(w, x));
  }

  lemma {:induction false} RunStaysSourced(w: World, xs: seq<Action>, g: Rules)
    requires BothSourced(w)
    ensures BothSourced(Run(w, xs, g))
  {
    if xs != [] {
      var front, x := xs[..|xs| - 1], xs[|xs| - 1];
      RunStaysSourced(w, front, g);
      ActKeepsBoth(Run(w, front, g), x);
    }
  }

  lemma NothingHeldAtStart(call: string, grid: string, retries: nat, air: set<string>, other: string)
    ensures Sourced(NewStation(call, grid, retries), air, other)
  {
  }

  /** In every run, with any grids and no rule kept: a logged report from the other station was transmitted by it. */
  lemma LoggedReportsAreGenuine(w0: World, xs: seq<Action>, g: Rules)
    requires GoodSetup(w0)
    requires w0 == NewWorld(w0.a.myCall, w0.a.myGrid, w0.a.maxRetransmissions,
                            w0.b.myCall, w0.b.myGrid, w0.b.maxRetransmissions)
    ensures var w := Run(w0, xs, g);
            && (forall r | r in w.a.log && With(w.b.myCall, r) && r.reportRcvd.Some? ::
                  Carried(w.airB, w.a.myCall, w.b.myCall, r.reportRcvd.value))
            && (forall q | q in w.b.log && With(w.a.myCall, q) && q.reportRcvd.Some? ::
                  Carried(w.airA, w.b.myCall, w.a.myCall, q.reportRcvd.value))
  {
    BaseOfCall(w0.a.myCall);
    BaseOfCall(w0.b.myCall);
    NothingHeldAtStart(w0.a.myCall, w0.a.myGrid, w0.a.maxRetransmissions, w0.airB, w0.b.myCall);
    NothingHeldAtStart(w0.b.myCall, w0.b.myGrid, w0.b.maxRetransmissions, w0.airA, w0.a.myCall);
    RunStaysSourced(w0, xs, g);
  }
}
