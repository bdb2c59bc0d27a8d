/** The spellings the parser accepts beyond what a station prints itself: case, short reports, hashes, suffixes. */
module MsgForms {
  import opened Prelude
  import opened MsgParse

  // ---- callsigns ---------------------------------------------------------------

  /** A suffix is one to four capitals or digits after one slash. */
  lemma SuffixAcceptedExactlyWhen(call: string, suffix: string)
    requires IsCall(call) && '/' !in call
    ensures IsCall(call + "/" + suffix)
            <==> 1 <= |suffix| <= 4 && forall i | 0 <= i < |suffix| :: IsUpperAlnum(suffix[i])
  {
    var t := call + "/" + suffix;
    if 1 <= |suffix| <= 4 && forall i | 0 <= i < |suffix| :: IsUpperAlnum(suffix[i]) {
      var p: nat, n: nat :| 1 <= p <= 3 && 1 <= n <= 4 && CallShape(call, p, n);
      WholeCall(call, p, n);
      assert CallShape(t, p, n);
    }
    if IsCall(t) {
      var p: nat, n: nat :| 1 <= p <= 3 && 1 <= n <= 4 && CallShape(t, p, n);
      SlashAfterCall(call, suffix, p, n);
      assert forall i | 0 <= i < |suffix| :: suffix[i] == t[|call| + 1 + i];
    }
  }

  lemma WholeCall(call: string, p: nat, n: nat)
    requires CallShape(call, p, n) && '/' !in call
    ensures |call| == p + 1 + n
  {
  }

  lemma SlashAfterCall(call: string, suffix: string, p: nat, n: nat)
    requires '/' !in call && CallShape(call + "/" + suffix, p, n)
    ensures |call| == p + 1 + n
  {
    var t := call + "/" + suffix;
    assert t[|call|] == '/';
    forall i | 0 <= i < |call| ensures t[i] == call[i] != '/' {}
  }

  /** Angle brackets round a callsign do not change whose it is. */
  lemma AnglesDoNotMatter(call: string)
    requires IsCall(call)
    ensures BaseCall("<" + call + ">") == BaseCall(call)
  {
    CallIsWord(call);
    var t := "<" + call + ">";
    assert t[1..] == call + ">" && (call + ">")[..|call|] == call;
    assert call[0] !in {'<', '>'} && call[|call| - 1] !in {'<', '>'};
    assert StripAngles(call) == call;
    assert (call + ">")[0] == call[0] && (call + ">")[|call|] == '>';
    assert StripAngles(call + ">") == StripAngles(call);
    assert StripAngles(t) == StripAngles(t[1..]);
  }

  lemma UpperTwice(s: string)
    ensures Upper(Upper(s)) == Upper(s)
  {
    assert forall i | 0 <= i < |s| :: Upper(Upper(s))[i] == UpperChar(UpperChar(s[i])) == Upper(s)[i];
  }

  lemma UpperPart(s: string, i: nat, j: nat)
    requires i <= j <= |s|
    ensures Upper(s)[i..j] == Upper(s[i..j])
  {
    forall k | 0 <= k < j - i ensures Upper(s)[i..j][k] == UpperChar(s[i..j][k]) {
      assert Upper(s)[i + k] == UpperChar(s[i + k]);
    }
  }

  lemma {:induction false} UpperKeepsSlash(s: string)
    ensures UpToSlash(Upper(s)) == Upper(UpToSlash(s))
  {
    if s != "" && s[0] != '/' {
      UpperKeepsSlash(s[1..]);
      UpperPart(s, 1, |s|);
      assert Upper(s)[0] == UpperChar(s[0]) != '/';
      assert ([s[0]] + UpToSlash(s[1..]))[1..] == UpToSlash(s[1..]);
    }
  }

  lemma {:induction false} UpperKeepsAngles(s: string)
    ensures StripAngles(Upper(s)) == Upper(StripAngles(s))
    decreases |s|
  {
    if s != "" {
      assert Upper(s)[0] == UpperChar(s[0]) && Upper(s)[|s| - 1] == UpperChar(s[|s| - 1]);
      if s[0] in {'<', '>'} {
        UpperKeepsAngles(s[1..]);
        UpperPart(s, 1, |s|);
      } else if s[|s| - 1] in {'<', '>'} {
        UpperKeepsAngles(s[..|s| - 1]);
        UpperPart(s, 0, |s| - 1);
      }
    }
  }

  /** Nor does the case it is written in. */
  lemma CaseDoesNotMatter(call: string)
    ensures BaseCall(Upper(call)) == BaseCall(call)
  {
    UpperKeepsAngles(call);
    UpperKeepsSlash(StripAngles(call));
    UpperTwice(UpToSlash(StripAngles(call)));
  }

  /** A CQ calls nobody in particular, and a station without a call is called by nobody. */
  lemma NobodyIsCalled(m: ParsedMessage, call: string)
    ensures m.isCq || call == "" ==> !AddressedTo(m, call)
  {
  }

  // ---- locators ------------------------------------------------------------------

  lemma GridIsWord(g: string)
    requires IsGrid(g)
    ensures IsWord(g)
  {
  }

  /** A locator is read in capitals however it is written, in a CQ and between two calls. */
  lemma GridReadsInCapitals(to: string, from: string, g: string)
    requires IsCall(to) && IsCall(from) && IsGrid(g)
    ensures Parse("CQ" + " " + from + " " + g) == BLANK.(isCq := true, fromCall := from, grid := Upper(g))
    ensures g != "RR73" ==> Parse(to + " " + from + " " + g) == BLANK.(toCall := to, fromCall := from, grid := Upper(g))
  {
    GridIsWord(g);
    CallIsWord(from);
    CqIsWord();
    SplitWords("CQ", from, g);
    ParseTriple(to, from, g);
    assert |"73"| == 2 && |"RRR"| == 3;
  }

  // ---- reports -------------------------------------------------------------------

  /** A one-digit report reads as that many decibels, with its sign, and rogers when it begins with an R. */
  lemma ShortReportReadsBack(m: ParsedMessage, d: char)
    requires IsDigit(d)
    ensures ApplyToken(m, [d]) == m.(report := Some(DigitValue(d)), hasRoger := false)
    ensures ApplyToken(m, ['+', d]) == m.(report := Some(DigitValue(d)), hasRoger := false)
    ensures ApplyToken(m, ['-', d]) == m.(report := Some(-DigitValue(d)), hasRoger := false)
    ensures ApplyToken(m, ['R', d]) == m.(report := Some(DigitValue(d)), hasRoger := true)
    ensures ApplyToken(m, ['R', '-', d]) == m.(report := Some(-DigitValue(d)), hasRoger := true)
  {
    assert |"73"| == 2 && "73"[0] == '7' && |"RRR"| == 3 && "RRR"[1] == 'R' && |"RR73"| == 4;
    assert ['R', '-', d][1..] == ['-', d] && ['-', d][1..] == [d] && ['+', d][1..] == [d] && ['R', d][1..] == [d];
    assert ['R', d][1] == d && ['R', '-', d][1] == '-';
  }

  function Number(digits: string): int
    requires 1 <= |digits| <= 2
  {
    if |digits| == 1 then DigitValue(digits[0]) else 10 * DigitValue(digits[0]) + DigitValue(digits[1])
  }

  /** A bare number is a report exactly when it has one or two digits and is not 73. */
  lemma NumberIsReportExactlyWhen(m: ParsedMessage, digits: string)
    requires digits != "" && forall i | 0 <= i < |digits| :: IsDigit(digits[i])
    ensures |digits| > 2 ==> ApplyToken(m, digits) == m
    ensures |digits| <= 2 && digits != "73" ==>
              ApplyToken(m, digits) == m.(report := Some(Number(digits)), hasRoger := false)
    ensures digits == "73" ==> ApplyToken(m, digits) == m.(isEom := true, eom := "73")
  {
    assert |"73"| == 2 && "RR73"[0] == 'R' && "RRR"[0] == 'R';
  }

  // ---- whole texts -----------------------------------------------------------------

  /** Words after the two calls count one after the other, the later of two of a kind over the earlier. */
  lemma TailReadsInOrder(to: string, from: string, a: string, b: string)
    requires IsCall(to) && IsCall(from) && IsWord(a) && IsWord(b)
    ensures Parse(to + " " + from + " " + a + " " + b)
            == ApplyToken(Parse(to + " " + from + " " + a), b)
  {
    CallIsWord(to);
    CallIsWord(from);
    SplitFour(to, from, a, b);
    ParseTriple(to, from, a);
    var named := BLANK.(toCall := to, fromCall := from);
    assert [to, from, a, b][2..] == [a, b] && [a, b][1..] == [b] && [b][1..] == [];
    assert ApplyTail(named, [a, b]) == ApplyTail(ApplyToken(named, a), [b]);
    assert ApplyTail(ApplyToken(named, a), [b]) == ApplyTail(ApplyToken(ApplyToken(named, a), b), []);
  }

  /** A CQ is standard exactly when its caller is a callsign; with no caller it names nobody. */
  lemma CqStandardExactlyWhen(word: string)
    requires IsWord(word) && word !in {"FD", "DX"}
    ensures Parse("CQ" + " " + word) == BLANK.(isCq := true, fromCall := word, isStandard := IsCall(word))
    ensures Parse("CQ") == BLANK.(isCq := true, isStandard := false)
  {
    CqIsWord();
    SplitPair("CQ", word);
    LastWord("CQ");
    NoEmptyCall();
  }

  lemma NoEmptyCall()
    ensures !IsCall("")
  {
  }
}
