/** Decoded text to structured message, and the proof that every text a station prints reads back. */
module MsgParse {
  import opened Prelude

  datatype ParsedMessage = ParsedMessage(
    isCq: bool,
    toCall: string,
    fromCall: string,
    grid: string,
    report: Option<int>,
    hasRoger: bool,
    isEom: bool,
    eom: string,
    isStandard: bool)

  const BLANK := ParsedMessage(false, "", "", "", None, false, false, "", true)
  const EOM_TOKENS := {"73", "RR73", "RRR"}
  const CQ_MODIFIERS := {"FD", "DX"}

  // ---- characters ------------------------------------------------------

  predicate IsSpace(c: char) {
    || '\t' <= c <= '\r'
    || '\U{1C}' <= c <= ' '
    || c in {'\U{85}', '\U{A0}', '\U{1680}', '\U{2028}', '\U{2029}', '\U{202F}', '\U{205F}', '\U{3000}'}
    || '\U{2000}' <= c <= '\U{200A}'
  }

  predicate IsDigit(c: char) { '0' <= c <= '9' }

  predicate IsUpper(c: char) { 'A' <= c <= 'Z' }

  predicate IsUpperAlnum(c: char) { IsUpper(c) || IsDigit(c) }

  predicate IsGridLetter(c: char) { 'A' <= c <= 'R' || 'a' <= c <= 'r' }

  function UpperChar(c: char): char {
    if 'a' <= c <= 'z' then (c as int - 32) as char else c
  }

  function Upper(s: string): (r: string)
    ensures |r| == |s|
    ensures forall i | 0 <= i < |s| :: r[i] == UpperChar(s[i])
  {
    if s == "" then "" else [UpperChar(s[0])] + Upper(s[1..])
  }

  function DigitValue(c: char): int { c as int - '0' as int }

  // ---- token shapes ----------------------------------------------------

  predicate IsWord(t: string) {
    t != "" && forall i | 0 <= i < |t| :: !IsSpace(t[i])
  }

  predicate IsGrid(t: string) {
    |t| == 4 && IsGridLetter(t[0]) && IsGridLetter(t[1]) && IsDigit(t[2]) && IsDigit(t[3])
  }

  predicate IsUpperGrid(t: string) {
    |t| == 4 && 'A' <= t[0] <= 'R' && 'A' <= t[1] <= 'R' && IsDigit(t[2]) && IsDigit(t[3])
  }

  /** A callsign split as `p` prefix characters, one digit, `n` letters and an optional suffix. */
  predicate CallShape(t: string, p: nat, n: nat) {
    && p + 1 + n <= |t|
    && (forall i | 0 <= i < p :: IsUpperAlnum(t[i]))
    && IsDigit(t[p])
    && (forall i | p < i < p + 1 + n :: IsUpper(t[i]))
    && (|t| > p + 1 + n ==>
      && t[p + 1 + n] == '/'
      && p + 3 + n <= |t| <= p + 6 + n
      && forall i | p + 2 + n <= i < |t| :: IsUpperAlnum(t[i]))
  }

  predicate IsCall(t: string) {
    exists p: nat, n: nat :: 1 <= p <= 3 && 1 <= n <= 4 && CallShape(t, p, n)
  }

  function WithoutRoger(t: string): string {
    if t != "" && t[0] == 'R' then t[1..] else t
  }

  function WithoutSign(t: string): string {
    if t != "" && t[0] in {'+', '-'} then t[1..] else t
  }

  predicate IsReport(t: string) {
    var digits := WithoutSign(WithoutRoger(t));
    1 <= |digits| <= 2 && forall i | 0 <= i < |digits| :: IsDigit(digits[i])
  }

  function ReportValue(t: string): int
    requires IsReport(t)
  {
    var signed := WithoutRoger(t);
    var digits := WithoutSign(signed);
    var magnitude :=
      if |digits| == 1 then DigitValue(digits[0]) else 10 * DigitValue(digits[0]) + DigitValue(digits[1]);
    if signed[0] == '-' then -magnitude else magnitude
  }

  // ---- splitting -------------------------------------------------------

  function Tokens(s: string, word: string): seq<string> {
    if s == "" then
      if word == "" then [] else [word]
    else if IsSpace(s[0]) then
      (if word == "" then [] else [word]) + Tokens(s[1..], "")
    else
      Tokens(s[1..], word + [s[0]])
  }

  function Split(s: string): seq<string> { Tokens(s, "") }

  // ---- parsing ---------------------------------------------------------

  function ApplyToken(m: ParsedMessage, tok: string): ParsedMessage {
    if tok in EOM_TOKENS then
      m.(isEom := true, eom := tok, hasRoger := m.hasRoger || tok in {"RR73", "RRR"})
    else if IsGrid(tok) then
      m.(grid := Upper(tok))
    else if IsReport(tok) then
      m.(hasRoger := tok[0] == 'R', report := Some(ReportValue(tok)))
    else
      m
  }

  function ApplyTail(m: ParsedMessage, tail: seq<string>): ParsedMessage
    decreases |tail|
  {
    if tail == [] then m else ApplyTail(ApplyToken(m, tail[0]), tail[1..])
  }

  function ParseCq(tokens: seq<string>): ParsedMessage
    requires tokens != []
  {
    var idx := if |tokens| > 1 && tokens[1] in CQ_MODIFIERS then 2 else 1;
    var from := if |tokens| > idx then tokens[idx] else "";
    var grid := if |tokens| > idx + 1 && IsGrid(tokens[idx + 1]) then Upper(tokens[idx + 1]) else "";
    BLANK.(isCq := true, fromCall := from, grid := grid, isStandard := IsCall(from))
  }

  function ParseTokens(tokens: seq<string>): ParsedMessage {
    if tokens == [] then BLANK.(isStandard := false)
    else if tokens[0] == "CQ" then ParseCq(tokens)
    else if |tokens| < 2 then BLANK.(isStandard := false)
    else
      var named := BLANK.(toCall := tokens[0], fromCall := tokens[1]);
      if "<" <= tokens[0] || "<" <= tokens[1] then named.(isStandard := false)
      else if !(IsCall(tokens[0]) && IsCall(tokens[1])) then BLANK.(isStandard := false)
      else ApplyTail(named, tokens[2..])
  }

  function Parse(text: string): ParsedMessage { ParseTokens(Split(text)) }

  /** The parser as the program runs it: a mutable message filled by a loop over the tail tokens. */
  method ParseMessage(text: string) returns (msg: ParsedMessage)
    ensures msg == Parse(text)
  {
    var tokens := Split(text);
    msg := BLANK;
    if tokens == [] {
      return msg.(isStandard := false);
    }
    if tokens[0] == "CQ" {
      msg := msg.(isCq := true);
      var idx := 1;
      if |tokens| > 1 && tokens[1] in CQ_MODIFIERS {
        idx := 2;
      }
      if |tokens| > idx {
        msg := msg.(fromCall := tokens[idx]);
      }
      if |tokens| > idx + 1 && IsGrid(tokens[idx + 1]) {
        msg := msg.(grid := Upper(tokens[idx + 1]));
      }
      if msg.fromCall == "" || !IsCall(msg.fromCall) {
        msg := msg.(isStandard := false);
      }
      return;
    }
    if |tokens| < 2 {
      return msg.(isStandard := false);
    }
    if "<" <= tokens[0] || "<" <= tokens[1] {
      return msg.(isStandard := false, toCall := tokens[0], fromCall := tokens[1]);
    }
    if !(IsCall(tokens[0]) && IsCall(tokens[1])) {
      return msg.(isStandard := false);
    }
    msg := msg.(toCall := tokens[0], fromCall := tokens[1]);
    var tail := tokens[2..];
    ghost var named := msg;
    for i := 0 to |tail|
      invariant ApplyTail(named, tail) == ApplyTail(msg, tail[i..])
    {
      var tok := tail[i];
      assert tail[i..][1..] == tail[i + 1..];
      if tok in EOM_TOKENS {
        msg := msg.(isEom := true, eom := tok);
        if tok in {"RR73", "RRR"} {
          msg := msg.(hasRoger := true);
        }
      } else if IsGrid(tok) {
        msg := msg.(grid := Upper(tok));
      } else if IsReport(tok) {
        msg := msg.(hasRoger := tok[0] == 'R', report := Some(ReportValue(tok)));
      }
    }
  }

  // ---- callsign comparison ---------------------------------------------

  function StripAngles(s: string): string
    decreases |s|
  {
    if s == "" then ""
    else if s[0] in {'<', '>'} then StripAngles(s[1..])
    else if s[|s| - 1] in {'<', '>'} then StripAngles(s[..|s| - 1])
    else s
  }

  function UpToSlash(s: string): string {
    if s == "" || s[0] == '/' then "" else [s[0]] + UpToSlash(s[1..])
  }

  function BaseCall(call: string): string { Upper(UpToSlash(StripAngles(call))) }

  predicate AddressedTo(m: ParsedMessage, myCall: string) {
    myCall != "" && !m.isCq && m.toCall != "" && BaseCall(m.toCall) == BaseCall(myCall)
  }

  // ---- what a printed text splits into ---------------------------------

  lemma {:induction false} TokensWord(w: string, rest: string, word: string)
    requires forall i | 0 <= i < |w| :: !IsSpace(w[i])
    ensures Tokens(w + rest, word) == Tokens(rest, word + w)
  {
    if w == "" {
      assert w + rest == rest && word + w == word;
    } else {
      assert (w + rest)[1..] == w[1..] + rest;
      assert word + [w[0]] + w[1..] == word + w;
      TokensWord(w[1..], rest, word + [w[0]]);
    }
  }

  /** A word up to the next space is one token. */
  lemma FirstWord(w: string, rest: string)
    requires IsWord(w)
    ensures Tokens(w + (" " + rest), "") == [w] + Tokens(rest, "")
  {
    TokensWord(w, " " + rest, "");
    assert "" + w == w;
    assert (" " + rest)[1..] == rest;
  }

  lemma LastWord(w: string)
    requires IsWord(w)
    ensures Tokens(w, "") == [w]
  {
    TokensWord(w, "", "");
    assert w + "" == w && "" + w == w;
  }

  lemma SplitPair(a: string, b: string)
    requires IsWord(a) && IsWord(b)
    ensures Split(a + " " + b) == [a, b]
  {
    assert a + " " + b == a + (" " + b);
    FirstWord(a, b);
    LastWord(b);
  }

  lemma SplitWords(a: string, b: string, c: string)
    requires IsWord(a) && IsWord(b) && IsWord(c)
    ensures Split(a + " " + b + " " + c) == [a, b, c]
  {
    assert a + " " + b + " " + c == a + (" " + (b + " " + c));
    FirstWord(a, b + " " + c);
    SplitPair(b, c);
  }

  lemma SplitFour(a: string, b: string, c: string, d: string)
    requires IsWord(a) && IsWord(b) && IsWord(c) && IsWord(d)
    ensures Split(a + " " + b + " " + c + " " + d) == [a, b, c, d]
  {
    assert a + " " + b + " " + c + " " + d == a + (" " + (b + " " + c + " " + d));
    FirstWord(a, b + " " + c + " " + d);
    SplitWords(b, c, d);
  }

  lemma CallIsWord(t: string)
    requires IsCall(t)
    ensures IsWord(t) && t != "CQ" && t !in CQ_MODIFIERS && !("<" <= t)
    ensures forall i | 0 <= i < |t| :: IsUpperAlnum(t[i]) || t[i] == '/'
  {
    var p: nat, n: nat :| 1 <= p <= 3 && 1 <= n <= 4 && CallShape(t, p, n);
    forall i | 0 <= i < |t| ensures IsUpperAlnum(t[i]) || t[i] == '/' {
      if i < p || i == p || i < p + 1 + n || i == p + 1 + n || i >= p + 2 + n {
      }
    }
    assert |t| >= 3;
    assert t[0] != '<';
  }

  lemma ParseTriple(to: string, from: string, tail: string)
    requires IsCall(to) && IsCall(from) && IsWord(tail)
    ensures Parse(to + " " + from + " " + tail) == ApplyToken(BLANK.(toCall := to, fromCall := from), tail)
  {
    CallIsWord(to);
    CallIsWord(from);
    SplitWords(to, from, tail);
    var named := BLANK.(toCall := to, fromCall := from);
    var ts := [to, from, tail];
    assert ts[2..] == [tail];
    assert ApplyTail(named, [tail]) == ApplyTail(ApplyToken(named, tail), []);
  }

  lemma UpperGridIsFixed(g: string)
    requires IsUpperGrid(g)
    ensures IsGrid(g) && IsWord(g) && Upper(g) == g
  {
    assert forall i | 0 <= i < 4 :: Upper(g)[i] == UpperChar(g[i]) == g[i];
  }

  lemma ParseCqText(call: string, grid: string)
    requires IsCall(call) && IsUpperGrid(grid)
    ensures Parse("CQ" + " " + call + " " + grid) == BLANK.(isCq := true, fromCall := call, grid := grid)
  {
    CallIsWord(call);
    UpperGridIsFixed(grid);
    assert IsWord("CQ");
    SplitWords("CQ", call, grid);
  }

  lemma CqIsWord()
    ensures IsWord("CQ") && |"CQ"| == 2 && |"FD"| == 2 && |"DX"| == 2
  {
  }

  /** A CQ without a locator names its caller and nothing else. */
  lemma ParseBareCq(call: string)
    requires IsCall(call)
    ensures Parse("CQ" + " " + call) == BLANK.(isCq := true, fromCall := call)
  {
    CallIsWord(call);
    CqIsWord();
    SplitPair("CQ", call);
  }

  /** A word before the caller is passed over exactly when it is a listed modifier; else it is read as the caller. */
  lemma ModifierSkippedExactlyWhen(word: string, call: string, grid: string)
    requires IsWord(word) && IsCall(call) && IsUpperGrid(grid)
    ensures Parse("CQ" + " " + word + " " + call + " " + grid) == Parse("CQ" + " " + call + " " + grid)
            <==> word in {"FD", "DX"}
    ensures word !in {"FD", "DX"} ==> Parse("CQ" + " " + word + " " + call + " " + grid).fromCall == word
  {
    CallIsWord(call);
    UpperGridIsFixed(grid);
    CqIsWord();
    SplitFour("CQ", word, call, grid);
    ParseCqText(call, grid);
    CallIsNoGrid(call);
  }

  /** The same without a locator. */
  lemma BareModifierSkippedExactlyWhen(word: string, call: string)
    requires IsWord(word) && IsCall(call)
    ensures Parse("CQ" + " " + word + " " + call) == Parse("CQ" + " " + call)
            <==> word in {"FD", "DX"} || word == call
  {
    CallIsWord(call);
    CqIsWord();
    SplitWords("CQ", word, call);
    ParseBareCq(call);
    CallIsNoGrid(call);
  }

  /** A callsign ends in a letter where a locator ends in two digits. */
  lemma CallIsNoGrid(t: string)
    requires IsCall(t)
    ensures !IsGrid(t)
  {
    var p: nat, n: nat :| 1 <= p <= 3 && 1 <= n <= 4 && CallShape(t, p, n);
  }

  /** The three endings, in a message between two callsigns. */
  lemma EndingsReadBack(to: string, from: string, eom: string)
    requires IsCall(to) && IsCall(from) && eom in {"73", "RR73", "RRR"}
    ensures Parse(to + " " + from + " " + eom)
            == BLANK.(toCall := to, fromCall := from, isEom := true, eom := eom, hasRoger := eom != "73")
  {
    assert IsWord(eom);
    ParseTriple(to, from, eom);
  }

  /** A hashed callsign makes the message free text, its two calls kept; any other non-callsign drops them as well. */
  lemma StandardExactlyWhen(to: string, from: string, tail: string)
    requires IsWord(to) && IsWord(from) && IsWord(tail) && to != "CQ"
    ensures var m := Parse(to + " " + from + " " + tail);
            && (m.isStandard <==> IsCall(to) && IsCall(from))
            && (!m.isStandard ==>
                  var hashed := "<" <= to || "<" <= from;
                  m == BLANK.(isStandard := false, toCall := if hashed then to else "",
                              fromCall := if hashed then from else ""))
  {
    SplitWords(to, from, tail);
    if IsCall(to) && IsCall(from) {
      ParseTriple(to, from, tail);
    }
    if IsCall(to) {
      CallIsWord(to);
    }
    if IsCall(from) {
      CallIsWord(from);
    }
  }

  /** A printed grid reads back as a grid unless it is the one locator spelled like a sign-off. */
  lemma GridTokenReadsBack(m: ParsedMessage, grid: string)
    requires IsUpperGrid(grid)
    ensures grid != "RR73" ==> ApplyToken(m, grid) == m.(grid := grid)
    ensures grid == "RR73" ==> ApplyToken(m, grid) == m.(isEom := true, eom := "RR73", hasRoger := true)
  {
    UpperGridIsFixed(grid);
    assert |"73"| == 2 && |"RRR"| == 3;
  }

  // ---- callsign base ---------------------------------------------------

  lemma {:induction false} UpToSlashOfCall(s: string)
    requires forall i | 0 <= i < |s| :: IsUpperAlnum(s[i]) || s[i] == '/'
    ensures Upper(UpToSlash(s)) == UpToSlash(s)
  {
    if s != "" && s[0] != '/' {
      UpToSlashOfCall(s[1..]);
      assert ([s[0]] + UpToSlash(s[1..]))[1..] == UpToSlash(s[1..]);
    }
  }

  lemma {:induction false} UpToSlashHasNone(s: string)
    ensures '/' !in UpToSlash(s) && UpToSlash(UpToSlash(s)) == UpToSlash(s)
  {
    if s != "" && s[0] != '/' {
      UpToSlashHasNone(s[1..]);
      assert ([s[0]] + UpToSlash(s[1..]))[1..] == UpToSlash(s[1..]);
    }
  }

  /** For a well-formed call the base is the part before the slash, unchanged and not empty, and its own base. */
  lemma BaseOfCall(t: string)
    requires IsCall(t)
    ensures BaseCall(t) == UpToSlash(t) && BaseCall(t) != "" && BaseCall(t) <= t
    ensures '/' !in BaseCall(t) && BaseCall(BaseCall(t)) == BaseCall(t)
  {
    CallIsWord(t);
    assert t[0] != '<' && t[|t| - 1] != '<';
    assert t[0] != '>' && t[|t| - 1] != '>';
    assert StripAngles(t) == t;
    UpToSlashOfCall(t);
    var p: nat, n: nat :| 1 <= p <= 3 && 1 <= n <= 4 && CallShape(t, p, n);
    assert t[0] != '/';
    UpToSlashPrefix(t);
    UpToSlashHasNone(t);
    BaseIsOwnBase(UpToSlash(t));
  }

  lemma BaseIsOwnBase(b: string)
    requires b != "" && UpToSlash(b) == b && forall i | 0 <= i < |b| :: IsUpperAlnum(b[i]) || b[i] == '/'
    ensures BaseCall(b) == b
  {
    NoAnglesToStrip(b);
    UpToSlashOfCall(b);
  }

  lemma NoAnglesToStrip(b: string)
    requires b != "" && (IsUpperAlnum(b[0]) || b[0] == '/') && (IsUpperAlnum(b[|b| - 1]) || b[|b| - 1] == '/')
    ensures StripAngles(b) == b
  {
  }

  lemma {:induction false} UpToSlashPrefix(s: string)
    ensures UpToSlash(s) <= s
  {
    if s != "" && s[0] != '/' {
      UpToSlashPrefix(s[1..]);
      assert s == [s[0]] + s[1..];
    }
  }
}
