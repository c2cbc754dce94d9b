/** The round, score and history logic of the Rock-Paper-Scissors-Lizard-
    Spock games in lesson_2/rps_bonus_features.rb, rps_bonus_features_5.rb,
    rps_bonus_features_current.rb, rps_bonus_features_3.rb and
    rps_bonus_features_2a.rb, which all play first to five. The computer
    personalities are methods of `Player`, one per `choose` of the source;
    where the variants differ, each has its own method. */
module RpsGame {
  import opened Util
  import opened RpsMoves
  import opened RpsStrategies

  /** `grand_winner?` tests each score for equality with this. */
  const GAMES_TO_WIN: int := 5

  /** What `winner` returns when nobody wins the round. */
  const TIE: string := "tie"

  /** The moves Hal's `choose` samples an index of VALUES from in
      rps_bonus_features.rb, _5, _current and _3. */
  const HAL_INDICES: seq<int> := [2, 2, 2, 2, 2, 2, 3, 3, 3, 4]

  /** The list of moves Hal's `choose` samples from in
      rps_bonus_features_2a.rb: VALUES[0] once, then the same weights. */
  const HAL_MOVES_WITH_ROCK: seq<Move> :=
    [VALUES[0], VALUES[2], VALUES[2], VALUES[2], VALUES[2], VALUES[2], VALUES[3], VALUES[3], VALUES[3], VALUES[4]]

  /** `winner`: the human's name when the human's move beats the
      computer's, the computer's name when the reverse holds, and "tie"
      otherwise. */
  function RoundWinner(h: Move, c: Move, humanName: string, computerName: string): string {
    if Beats(h, c) then humanName else if Beats(c, h) then computerName else TIE
  }

  /** `winner?`: one of the two moves beats the other. */
  predicate SomeoneWins(h: Move, c: Move) {
    Beats(h, c) || Beats(c, h)
  }

  /** A round has a winner exactly when the moves differ, and as long as
      no player is called "tie", `winner` says "tie" exactly then. */
  lemma TieIffSameMove(h: Move, c: Move, humanName: string, computerName: string)
    ensures SomeoneWins(h, c) <==> h != c
    ensures humanName != TIE && computerName != TIE ==>
      (RoundWinner(h, c, humanName, computerName) == TIE <==> !SomeoneWins(h, c))
  {
    OneWinnerUnlessEqual(h, c);
  }

  /** `increment_score` compares `winner` with the players' names. With
      two different names, neither of them "tie", the human's name comes
      back exactly when the human's move wins and the computer's exactly
      when the computer's move wins. */
  lemma CreditGoesToRoundWinner(h: Move, c: Move, humanName: string, computerName: string)
    requires humanName != computerName && humanName != TIE && computerName != TIE
    ensures RoundWinner(h, c, humanName, computerName) == humanName <==> Beats(h, c)
    ensures RoundWinner(h, c, humanName, computerName) == computerName <==> Beats(c, h)
  {
    OneWinnerUnlessEqual(h, c);
  }

  /** Because the round winner is told apart by name only, a human who
      entered "tie" as a name is credited with every tied round, and a
      human who took the computer's name is credited with the computer's
      wins. */
  lemma NameClashesMisattribute(m: Move, h: Move, c: Move, computerName: string)
    requires Beats(c, h)
    ensures RoundWinner(m, m, TIE, computerName) == TIE
    ensures RoundWinner(h, c, computerName, computerName) == computerName
  {
    OneWinnerUnlessEqual(m, m);
    OneWinnerUnlessEqual(h, c);
  }

  /** The log of rounds shared by the game and the computer player
      (`log_of_moves`; `@moves` in _3, `@move_log` in _2a). */
  class History {
    var log: seq<Round>

    constructor ()
      ensures log == []
    {
      log := [];
    }

    /** `empty?` (rps_bonus_features_current.rb). */
    predicate Empty()
      reads this
    {
      |log| == 0
    }

    /** `record_move`: one entry is appended; the earlier entries stay as
        they were. */
    method RecordMove(humanMove: Move, computerMove: Move, winner: string)
      modifies this
      ensures log == old(log) + [Round(humanMove, computerMove, winner)]
      ensures |log| == |old(log)| + 1 && !Empty()
    {
      log := log + [Round(humanMove, computerMove, winner)];
    }

    /** `record` in rps_bonus_features_3.rb: the given entry is appended. */
    method Record(entry: Round)
      modifies this
      ensures log == old(log) + [entry]
      ensures |log| == |old(log)| + 1 && !Empty()
    {
      log := log + [entry];
    }
  }

  /** A player: a name, a score and the move of the current round (nil
      until the first `choose`). */
  class Player {
    const name: string
    var score: int
    var move: Option<Move>

    constructor (name: string)
      ensures this.name == name && score == 0 && move == None
    {
      this.name := name;
      score := 0;
      move := None;
    }

    /** `select_move(choice)`: the move named by `choice`, or nil for any
        other string. */
    method SelectMove(choice: string)
      modifies this`move
      ensures move == FromName(choice)
      ensures move.Some? ==> Name(move.value) == choice
    {
      move := FromName(choice);
    }

    /** R2D2's `choose` (and Chappie's in rps_bonus_features_2a.rb):
        always rock. */
    method ChooseRock()
      modifies this`move
      ensures move == Some(Rock)
    {
      move := Some(Rock);
    }

    /** Hal's `choose`: VALUES at an index sampled from HAL_INDICES, so
        scissors, lizard or spock. */
    method ChooseHal()
      modifies this`move
      ensures move.Some? && move.value in {Scissors, Lizard, Spock}
    {
      var idx := Sample(HAL_INDICES);
      move := Some(VALUES[idx]);
    }

    /** Hal's `choose` in rps_bonus_features_2a.rb: a move sampled from
        HAL_MOVES_WITH_ROCK, so rock, scissors, lizard or spock. */
    method ChooseHalWithRock()
      modifies this`move
      ensures move.Some? && move.value in {Rock, Scissors, Lizard, Spock}
    {
      var m := Sample(HAL_MOVES_WITH_ROCK);
      move := Some(m);
    }

    /** Chappie's `choose`: rock on an empty log, afterwards the move
        after the computer's last logged move. */
    method ChooseChappie(log: seq<Round>)
      modifies this`move
      ensures move == Some(ChappieChoice(log))
      ensures log == [] ==> move == Some(Rock)
    {
      var choice := if log == [] then VALUES[0] else RotateThroughMoves(log);
      move := Some(choice);
    }

    /** Sonny's `choose`: any move on an empty log, afterwards a move that
        beats the human's last move. */
    method ChooseSonny(log: seq<Round>)
      modifies this`move
      ensures move.Some?
      ensures log != [] ==> Beats(move.value, log[|log| - 1].humanMove)
    {
      var choice;
      if log == [] {
        choice := Sample(VALUES);
      } else {
        choice := BeatLastHumanMove(log);
      }
      move := Some(choice);
    }

    /** Number 5's `choose`: any move on an empty log, afterwards a move
        that beats the human's most frequent move. */
    method ChooseNumber5(log: seq<Round>)
      modifies this`move
      ensures move.Some?
      ensures log != [] ==> Beats(move.value, MostCommonMove(HumanMoves(log)))
    {
      var choice;
      if log == [] {
        choice := Sample(VALUES);
      } else {
        choice := BeatMostCommonMove(log);
      }
      move := Some(choice);
    }

    /** `Computer#choose` in rps_bonus_features_1.rb: a move sampled from
        VALUES. */
    method ChooseAny()
      modifies this`move
      ensures move.Some? && move.value in VALUES
    {
      var m := Sample(VALUES);
      move := Some(m);
    }
  }

  /** `RPSGame`: the two players and the shared history. */
  class Game {
    const human: Player
    const computer: Player
    const history: History

    ghost predicate Valid()
      reads this
    {
      human != computer
    }

    /** `initialize`: the human's name (read by `set_name`) and the
        computer player (sampled from the personalities) are
        parameters. */
    constructor (human: Player, computer: Player)
      requires human != computer
      ensures Valid() && this.human == human && this.computer == computer
      ensures fresh(history) && history.log == []
    {
      this.human := human;
      this.computer := computer;
      history := new History();
    }

    /** Both players have chosen a move this round. */
    predicate MovesChosen()
      reads this, human, computer
    {
      human.move.Some? && computer.move.Some?
    }

    /** `winner?` */
    predicate HasWinner()
      requires MovesChosen()
      reads this, human, computer
    {
      SomeoneWins(human.move.value, computer.move.value)
    }

    /** `winner` */
    function Winner(): string
      requires MovesChosen()
      reads this, human, computer
    {
      RoundWinner(human.move.value, computer.move.value, human.name, computer.name)
    }

    /** `increment_score`: the human gains a point when `winner` is the
        human's name, otherwise the computer when it is the computer's
        name; at most one score changes, by one. */
    method IncrementScore()
      requires Valid() && MovesChosen()
      modifies human`score, computer`score
      ensures Valid()
      ensures human.score == old(human.score) + (if Winner() == human.name then 1 else 0)
      ensures computer.score == old(computer.score) +
        (if Winner() != human.name && Winner() == computer.name then 1 else 0)
      ensures human.score + computer.score <= old(human.score) + old(computer.score) + 1
      ensures old(human.score) < GAMES_TO_WIN && old(computer.score) < GAMES_TO_WIN ==>
        (GrandWinner() <==> human.score >= GAMES_TO_WIN || computer.score >= GAMES_TO_WIN)
    {
      var w := Winner();
      if w == human.name {
        human.score := human.score + 1;
      } else if w == computer.name {
        computer.score := computer.score + 1;
      }
    }

    /** `grand_winner?`: some score equals GAMES_TO_WIN. */
    predicate GrandWinner()
      reads this, human, computer
    {
      human.score == GAMES_TO_WIN || computer.score == GAMES_TO_WIN
    }

    /** `reset_score`: both scores go back to zero. */
    method ResetScore()
      requires Valid()
      modifies human`score, computer`score
      ensures Valid()
      ensures human.score == 0 && computer.score == 0
      ensures !GrandWinner()
    {
      human.score := 0;
      computer.score := 0;
    }

    /** `record_move`: the round's two moves and its winner are appended
        to the history. */
    method RecordMove()
      requires MovesChosen()
      modifies history
      ensures history.log == old(history.log) +
        [Round(human.move.value, computer.move.value, Winner())]
    {
      history.RecordMove(human.move.value, computer.move.value, Winner());
    }
  }
}
