/** The computer strategies of the `Strategies` mixin shared by
    lesson_2/rps_bonus_features.rb, rps_bonus_features_5.rb and
    rps_bonus_features_current.rb: a counter-move, beating the human's last
    or most frequent move, and cycling through the moves. The strategies
    read the shared move log, which is passed to them here. */
module RpsStrategies {
  import opened Util
  import opened RpsMoves

  /** One entry of the move log, `{ human_move:, computer_move:, winner: }`.
      The log stores the moves' names; a name and its move determine each
      other (`RpsMoves.NamesRoundTrip`), so the moves are stored. */
  datatype Round = Round(humanMove: Move, computerMove: Move, winner: string)

  /** `log_of_moves.map { |move| move[:human_move] }`. */
  function HumanMoves(log: seq<Round>): seq<Move> {
    seq(|log|, i requires 0 <= i < |log| => log[i].humanMove)
  }

  /** The index `max_by { |c| hist.count(c) }` picks among the first `n`
      candidates. `max_by` replaces its best so far only by a strictly
      larger count, so ties go to the earliest candidate. */
  function FirstMaxIndex<T(==)>(cands: seq<T>, hist: seq<T>, n: nat): (i: nat)
    requires 1 <= n <= |cands|
    ensures i < n
    decreases n
  {
    if n == 1 then 0
    else
      var best := FirstMaxIndex(cands, hist, n - 1);
      if Count(hist, cands[n - 1]) > Count(hist, cands[best]) then n - 1 else best
  }

  /** Independent description of the first maximum: no candidate among
      the first `n` occurs more often than candidate `i`, and every
      candidate before `i` occurs strictly less often. */
  ghost predicate IsFirstMax<T>(cands: seq<T>, hist: seq<T>, n: nat, i: nat)
    requires n <= |cands|
  {
    && i < n
    && (forall j :: 0 <= j < n ==> Count(hist, cands[j]) <= Count(hist, cands[i]))
    && (forall j :: 0 <= j < i ==> Count(hist, cands[j]) < Count(hist, cands[i]))
  }

  /** `max_by` finds the first maximum. */
  lemma {:induction false} FirstMaxIndexIsFirstMax<T>(cands: seq<T>, hist: seq<T>, n: nat)
    requires 1 <= n <= |cands|
    ensures IsFirstMax(cands, hist, n, FirstMaxIndex(cands, hist, n))
    decreases n
  {
    if n > 1 {
      FirstMaxIndexIsFirstMax(cands, hist, n - 1);
    }
  }

  /** There is only one first maximum, so the description above fixes the
      result of `max_by`. */
  lemma FirstMaxUnique<T>(cands: seq<T>, hist: seq<T>, n: nat, i: nat, k: nat)
    requires n <= |cands|
    requires IsFirstMax(cands, hist, n, i) && IsFirstMax(cands, hist, n, k)
    ensures i == k
  {
    assert Count(hist, cands[i]) == Count(hist, cands[k]);
  }

  /** `Move::VALUES.max_by { |move| human_history.count(move) }`. */
  function MostCommonMove(humanMoves: seq<Move>): Move {
    VALUES[FirstMaxIndex(VALUES, humanMoves, |VALUES|)]
  }

  /** The most common move is played at least as often as any move, and
      every move listed before it in VALUES strictly less often. On an
      empty log every count is zero and it is rock. */
  lemma MostCommonMoveSpec(humanMoves: seq<Move>)
    ensures forall c :: Count(humanMoves, c) <= Count(humanMoves, MostCommonMove(humanMoves))
    ensures forall c :: IndexOf(c) < IndexOf(MostCommonMove(humanMoves)) ==>
      Count(humanMoves, c) < Count(humanMoves, MostCommonMove(humanMoves))
    ensures humanMoves == [] ==> MostCommonMove(humanMoves) == Rock
  {
    var i := FirstMaxIndex(VALUES, humanMoves, |VALUES|);
    FirstMaxIndexIsFirstMax(VALUES, humanMoves, |VALUES|);
    forall c ensures Count(humanMoves, c) <= Count(humanMoves, VALUES[i]) {
      assert VALUES[IndexOf(c)] == c;
    }
    if humanMoves == [] {
      assert Count(humanMoves, VALUES[0]) == 0;
    }
  }

  /** `beat(move)`: one of the two moves that beat `m`, sampled. */
  method Beat(m: Move) returns (c: Move)
    ensures c in Counters(m) && Beats(c, m)
  {
    CountersAreTheVictors(m);
    c := Sample(Counters(m));
  }

  /** `beat_last_human_move`: a move that beats the human's move in the
      last logged round. On an empty log `last` is nil and the lookup
      raises, so the log must not be empty. */
  method BeatLastHumanMove(log: seq<Round>) returns (c: Move)
    requires log != []
    ensures Beats(c, log[|log| - 1].humanMove)
  {
    c := Beat(log[|log| - 1].humanMove);
  }

  /** `beat_most_common_move` (`beat_most_frequent_move` in
      rps_bonus_features_current.rb): a move that beats the move the human
      played most often, ties going to the earlier move in VALUES. */
  method BeatMostCommonMove(log: seq<Round>) returns (c: Move)
    ensures Beats(c, MostCommonMove(HumanMoves(log)))
  {
    c := Beat(MostCommonMove(HumanMoves(log)));
  }

  /** Ruby's `Array#rotate`: the first element moves to the end. */
  function Rotate<T>(xs: seq<T>): (r: seq<T>)
    ensures |r| == |xs|
    ensures forall k :: 0 <= k < |xs| ==> r[k] == xs[(k + 1) % |xs|]
  {
    if xs == [] then [] else xs[1..] + [xs[0]]
  }

  /** `rotate_through_moves`: the argument is overwritten before use, so
      the result depends only on the log; it is the move after the
      computer's last logged move in VALUES, spock wrapping round to rock. */
  function RotateThroughMoves(log: seq<Round>): (m: Move)
    requires log != []
    ensures m == VALUES[(IndexOf(log[|log| - 1].computerMove) + 1) % |VALUES|]
    ensures log[|log| - 1].computerMove == Spock ==> m == Rock
  {
    Rotate(VALUES)[IndexOf(log[|log| - 1].computerMove)]
  }

  /** Chappie's choice: the first move of VALUES on an empty log, the
      rotation afterwards. */
  function ChappieChoice(log: seq<Round>): Move {
    if log == [] then VALUES[0] else RotateThroughMoves(log)
  }

  /** When every logged computer move came from Chappie, Chappie plays
      the moves of VALUES in turn: the move of round k is VALUES[k % 5]. */
  lemma ChappiePlaysInTurn(log: seq<Round>)
    requires forall i :: 0 <= i < |log| ==> log[i].computerMove == VALUES[i % |VALUES|]
    ensures ChappieChoice(log) == VALUES[|log| % |VALUES|]
  {
    if log != [] {
      var k := (|log| - 1) % |VALUES|;
      assert log[|log| - 1].computerMove == VALUES[k];
      assert IndexOf(VALUES[k]) == k by {
        if k == 0 {} else if k == 1 {} else if k == 2 {} else if k == 3 {} else {}
      }
      SuccessorMod(|log| - 1);
    }
  }

  /** Taking the remainder before or after the step to the next round
      gives the same position in VALUES. */
  lemma SuccessorMod(n: nat)
    ensures (n % 5 + 1) % 5 == (n + 1) % 5
  {
  }
}
