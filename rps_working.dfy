/** lesson_2/working.rb: `beat`, and a most-frequent-move strategy that
    takes the argmax over the logged human moves themselves, applied to a
    fixed log. */
module RpsWorking {
  import opened Util
  import opened RpsMoves
  import opened RpsStrategies

  /** The human moves of `LOG`. */
  const LOG: seq<Move> := [Spock, Paper, Paper, Spock, Paper, Paper, Paper, Paper, Rock, Rock]

  /** `all_human_moves.max_by { |move| all_human_moves.count(move) }`:
      the candidates are the logged moves, in log order; `max_by` on an
      empty array is nil. */
  function MostFrequentMove(moves: seq<Move>): (r: Option<Move>)
    ensures r == None <==> moves == []
    ensures r.Some? ==> r.value in moves
  {
    if moves == [] then None else Some(moves[FirstMaxIndex(moves, moves, |moves|)])
  }

  /** No move occurs more often than the result, and a move that occurs
      as often is not logged before the result's first occurrence. */
  lemma MostFrequentMoveSpec(moves: seq<Move>)
    requires moves != []
    ensures forall c :: Count(moves, c) <= Count(moves, MostFrequentMove(moves).value)
    ensures forall j :: 0 <= j < |moves| && Count(moves, moves[j]) == Count(moves, MostFrequentMove(moves).value) ==>
      MostFrequentMove(moves).value in moves[..j + 1]
  {
    var i := FirstMaxIndex(moves, moves, |moves|);
    FirstMaxIndexIsFirstMax(moves, moves, |moves|);
    forall c ensures Count(moves, c) <= Count(moves, moves[i]) {
      if c in moves {
        var j :| 0 <= j < |moves| && moves[j] == c;
      } else {
        CountBounds(moves, c);
      }
    }
    forall j | 0 <= j < |moves| && Count(moves, moves[j]) == Count(moves, moves[i])
      ensures moves[i] in moves[..j + 1]
    {
      assert i <= j;
      assert moves[..j + 1][i] == moves[i];
    }
  }

  /** `beat_most_frequent_move`: a move beating the most frequent move,
      or nil (`beat(nil)` matches no branch) when the log is empty. */
  method BeatMostFrequentMove(moves: seq<Move>) returns (c: Option<Move>)
    ensures c == None <==> moves == []
    ensures c.Some? ==> Beats(c.value, MostFrequentMove(moves).value)
  {
    var m := MostFrequentMove(moves);
    if m == None {
      c := None;
    } else {
      var b := Beat(m.value);
      c := Some(b);
    }
  }

  /** Paper is logged six times out of ten, so it is the most frequent
      move of `LOG`. */
  lemma LogMostFrequentIsPaper()
    ensures MostFrequentMove(LOG) == Some(Paper)
  {
    LogCounts();
    MostFrequentMoveSpec(LOG);
  }

  /** How often each move occurs in `LOG`. */
  lemma LogCounts()
    ensures Count(LOG, Paper) == 6 && Count(LOG, Spock) == 2 && Count(LOG, Rock) == 2
  {
    PaperCount();
    SpockCount();
    RockCount();
  }

  lemma PaperCount()
    ensures Count(LOG, Paper) == 6
  {
  }

  lemma SpockCount()
    ensures Count(LOG, Spock) == 2
  {
  }

  lemma RockCount()
    ensures Count(LOG, Rock) == 2
  {
  }

  /** `p beat_most_frequent_move`: for `LOG` the answer is scissors or
      lizard. */
  method BeatLog() returns (c: Option<Move>)
    ensures c == Some(Scissors) || c == Some(Lizard)
  {
    c := BeatMostFrequentMove(LOG);
    LogMostFrequentIsPaper();
  }
}
