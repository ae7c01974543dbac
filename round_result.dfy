// The record of one finished round, kept for the statistics view.

module Rounds {

  /**
   * An immutable round record: who won, both final scores, and both final
   * hands in their display form. A datatype value never changes, so each
   * getter (`r.winner`, `r.playerScore`, ...) returns exactly what was
   * given to the constructor.
   */
  datatype RoundResult = RoundResult(
    winner: string,
    playerScore: int,
    dealerScore: int,
    playerHand: seq<string>,
    dealerHand: seq<string>)

  predicate IsDigit(ch: char) { '0' <= ch <= '9' }

  predicate AllDigits(s: string) { forall i :: 0 <= i < |s| ==> IsDigit(s[i]) }

  function DigitChar(d: nat): (ch: char)
    requires d < 10
    ensures IsDigit(ch)
  {
    ['0', '1', '2', '3', '4', '5', '6', '7', '8', '9'][d]
  }

  function DigitValue(ch: char): (d: nat)
    requires IsDigit(ch)
    ensures d < 10
  {
    (ch as int - '0' as int) as nat
  }

  /** Decimal digits of a natural number, most significant first, no leading zeros. */
  function NatToString(n: nat): (s: string)
    ensures 1 <= |s| && AllDigits(s)
    ensures |s| > 1 ==> s[0] != '0'
  {
    if n < 10 then [DigitChar(n)]
    else NatToString(n / 10) + [DigitChar(n % 10)]
  }

  /** Formats an integer as `%d` does with ASCII digits: a minus sign for
      negatives, then the decimal digits. */
  function IntToString(i: int): (s: string)
    ensures 1 <= |s|
    ensures i < 0 <==> s[0] == '-'
    ensures forall k :: 0 < k < |s| ==> IsDigit(s[k])
  {
    if i < 0 then "-" + NatToString(-i) else NatToString(i)
  }

  /** A printed score has no leading zero: the first digit is '0' only
      when it is the only digit. */
  lemma IntToStringNoLeadingZero(i: int)
    ensures var s, first := IntToString(i), if i < 0 then 1 else 0;
      first + 1 < |s| ==> s[first] != '0'
  {
  }

  /** Reads a nonempty run of decimal digits. */
  function ParseNat(s: string): nat
    requires 1 <= |s| && AllDigits(s)
  {
    if |s| == 1 then DigitValue(s[0])
    else ParseNat(s[..|s| - 1]) * 10 + DigitValue(s[|s| - 1])
  }

  /** Reads what `IntToString` writes. */
  function ParseInt(s: string): int
    requires 1 <= |s|
    requires forall k :: 0 < k < |s| ==> IsDigit(s[k])
    requires s[0] == '-' ==> 2 <= |s|
    requires s[0] != '-' ==> IsDigit(s[0])
  {
    if s[0] == '-' then -(ParseNat(s[1..]) as int) else ParseNat(s)
  }

  lemma DigitRoundTrip(d: nat)
    requires d < 10
    ensures DigitValue(DigitChar(d)) == d
  {
  }

  /** Reading the digits of `n` gives back `n`. */
  lemma {:induction false} ParseNatToString(n: nat)
    ensures ParseNat(NatToString(n)) == n
  {
    var s := NatToString(n);
    if n < 10 {
      DigitRoundTrip(n);
    } else {
      ParseNatToString(n / 10);
      DigitRoundTrip(n % 10);
      assert s[..|s| - 1] == NatToString(n / 10);
    }
  }

  /** Reading a formatted score gives back the score. */
  lemma ParseIntToString(i: int)
    ensures ParseInt(IntToString(i)) == i
  {
    if i < 0 {
      ParseNatToString(-i);
      assert IntToString(i)[1..] == NatToString(-i);
    } else {
      ParseNatToString(i);
    }
  }

  /** Hence two different scores never print alike. */
  lemma IntToStringInjective(a: int, b: int)
    requires IntToString(a) == IntToString(b)
    ensures a == b
  {
    ParseIntToString(a);
    ParseIntToString(b);
  }

  /** The one-line summary "Winner: W | Player Score: P | Dealer Score: D". */
  function Summary(r: RoundResult): (s: string)
    ensures |s| > 8 + |r.winner| + |IntToString(r.dealerScore)|
    ensures s[..8] == "Winner: " && s[8..8 + |r.winner|] == r.winner
    ensures s[|s| - |IntToString(r.dealerScore)|..] == IntToString(r.dealerScore)
  {
    "Winner: " + r.winner
    + " | Player Score: " + IntToString(r.playerScore)
    + " | Dealer Score: " + IntToString(r.dealerScore)
  }

  /** The player's score is printed right after "Winner: ", the winner and
      the 17-character " | Player Score: ". */
  lemma SummaryPlayerScoreAt(r: RoundResult)
    ensures var s, p, at := Summary(r), IntToString(r.playerScore), 8 + |r.winner| + 17;
      at + |p| <= |s| && s[at..at + |p|] == p
  {
  }

  /** The summary shows the winner and both scores, and nothing of the hands. */
  lemma SummaryIgnoresHands(r: RoundResult, hands1: seq<string>, hands2: seq<string>)
    ensures Summary(r) == Summary(r.(playerHand := hands1, dealerHand := hands2))
  {
  }

  /** A number, a space and anything: the number ends at the first space. */
  lemma NumberBeforeSpace(x: string, y: string, u: string, v: string)
    requires 1 <= |x| && forall k :: 0 < k < |x| ==> IsDigit(x[k])
    requires 1 <= |y| && forall k :: 0 < k < |y| ==> IsDigit(y[k])
    requires x[0] != ' ' && y[0] != ' '
    requires x + " " + u == y + " " + v
    ensures x == y && u == v
  {
    var s := x + " " + u;
    assert s == y + " " + v;
    assert forall k :: 0 <= k < |x| ==> s[k] == x[k] && s[k] != ' ';
    assert forall k :: 0 <= k < |y| ==> s[k] == y[k] && s[k] != ' ';
    assert s[|x|] == ' ' && s[|y|] == ' ';
    assert x == s[..|x|] && y == s[..|y|];
    assert u == s[|x| + 1..] && v == s[|y| + 1..];
  }

  lemma CancelPrefix(p: string, x: string, y: string)
    requires p + x == p + y
    ensures x == y
  {
    assert x == (p + x)[|p|..];
    assert y == (p + y)[|p|..];
  }

  /** Proof step for `SummaryDeterminesScores`: the summary, split after
      the player's score. */
  lemma SummaryParts(r: RoundResult)
    ensures Summary(r)
      == ("Winner: " + r.winner + " | Player Score: ")
       + (IntToString(r.playerScore) + " " + ("| Dealer Score: " + IntToString(r.dealerScore)))
  {
  }

  /**
   * For a given winner the summary determines both scores: the same
   * winner and the same text mean the same player and dealer scores.
   */
  lemma SummaryDeterminesScores(a: RoundResult, b: RoundResult)
    requires a.winner == b.winner && Summary(a) == Summary(b)
    ensures a.playerScore == b.playerScore && a.dealerScore == b.dealerScore
  {
    var pa, pb := IntToString(a.playerScore), IntToString(b.playerScore);
    var da, db := IntToString(a.dealerScore), IntToString(b.dealerScore);
    var sep := "| Dealer Score: ";
    SummaryParts(a);
    SummaryParts(b);
    CancelPrefix("Winner: " + a.winner + " | Player Score: ", pa + " " + (sep + da), pb + " " + (sep + db));
    NumberBeforeSpace(pa, pb, sep + da, sep + db);
    CancelPrefix(sep, da, db);
    IntToStringInjective(a.playerScore, b.playerScore);
    IntToStringInjective(a.dealerScore, b.dealerScore);
  }
}
