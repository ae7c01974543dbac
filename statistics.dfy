// The one computation of the statistics window: which rounds it lists.

module Statistics {
  import opened Rounds

  /** How many rounds the statistics window lists at most. */
  const MAX_RESULTS_TO_SHOW: nat := 10

  /** The rounds the statistics view lists: the last ten, oldest first. */
  function LastRounds(history: seq<RoundResult>): (shown: seq<RoundResult>)
    ensures |shown| == if |history| < MAX_RESULTS_TO_SHOW then |history| else MAX_RESULTS_TO_SHOW
    ensures history == history[..|history| - |shown|] + shown
  {
    var from := if |history| < MAX_RESULTS_TO_SHOW then 0 else |history| - MAX_RESULTS_TO_SHOW;
    history[from..]
  }

  /** After one more round, the view lists that round last, after the
      previously listed ones (dropping the oldest when ten were listed). */
  lemma LastRoundsAfterRound(history: seq<RoundResult>, r: RoundResult)
    ensures var before := LastRounds(history);
      LastRounds(history + [r])
        == (if |before| < MAX_RESULTS_TO_SHOW then before else before[1..]) + [r]
  {
    var h := history + [r];
    var before := LastRounds(history);
    var after := LastRounds(h);
    assert after[..|after| - 1] == h[|h| - |after|..|h| - 1];
    assert h[..|history|] == history;
  }
}
