/** The game of lesson_2/rps_bonus_features_1.rb: first to ten, a
    computer that samples any move, a winner found with `<` for the
    computer's side, and a history kept by the game itself in which every
    entry carries its game number. */
module RpsGameTen {
  import opened Util
  import opened RpsMoves
  import RpsGame

  /** `grand_winner?` tests each score for equality with this. */
  const GAMES_TO_WIN: int := 10

  /** One history entry, `{ game:, human_move:, computer_move:, winner: }`. */
  datatype NumberedRound = NumberedRound(game: int, humanMove: Move, computerMove: Move, winner: string)

  /** `winner` of this variant: the human's name when the human's move
      beats the computer's, the computer's name when the human's move
      loses to it (`<`), "tie" otherwise. */
  function RoundWinner(h: Move, c: Move, humanName: string, computerName: string): string {
    if Beats(h, c) then humanName else if LosesTo(h, c) then computerName else RpsGame.TIE
  }

  /** Testing `h < c` gives the same winner as testing `c > h`, as the
      other variants do, because `<` is the converse of `>`. */
  lemma RoundWinnerAgrees(h: Move, c: Move, humanName: string, computerName: string)
    ensures RoundWinner(h, c, humanName, computerName) == RpsGame.RoundWinner(h, c, humanName, computerName)
  {
    LosesToIsConverse(h, c);
  }

  class Game {
    const human: RpsGame.Player
    const computer: RpsGame.Player
    var history: seq<NumberedRound>
    var gamesPlayed: int

    /** The game counter equals the number of entries, and entry i is
        numbered i + 1. */
    ghost predicate Valid()
      reads this
    {
      && human != computer
      && gamesPlayed == |history|
      && forall i :: 0 <= i < |history| ==> history[i].game == i + 1
    }

    /** `initialize`: the players are parameters (their names come from
        `set_name`); no game has been played. */
    constructor (human: RpsGame.Player, computer: RpsGame.Player)
      requires human != computer
      ensures Valid() && this.human == human && this.computer == computer
      ensures history == [] && gamesPlayed == 0
    {
      this.human := human;
      this.computer := computer;
      history := [];
      gamesPlayed := 0;
    }

    predicate MovesChosen()
      reads this, human, computer
    {
      human.move.Some? && computer.move.Some?
    }

    /** `winner` */
    function Winner(): string
      requires MovesChosen()
      reads this, human, computer
    {
      RoundWinner(human.move.value, computer.move.value, human.name, computer.name)
    }

    /** `increment_score`: the human gains a point when `winner` is the
        human's name, otherwise the computer when it is the computer's
        name. */
    method IncrementScore()
      requires Valid() && MovesChosen()
      modifies human`score, computer`score
      ensures Valid()
      ensures human.score == old(human.score) + (if Winner() == human.name then 1 else 0)
      ensures computer.score == old(computer.score) +
        (if Winner() != human.name && Winner() == computer.name then 1 else 0)
      ensures human.score + computer.score <= old(human.score) + old(computer.score) + 1
      ensures old(human.score) < GAMES_TO_WIN && old(computer.score) < GAMES_TO_WIN ==>
        (GrandWinner() <==> human.score >= GAMES_TO_WIN || computer.score >= GAMES_TO_WIN)
    {
      var w := Winner();
      if w == human.name {
        human.score := human.score + 1;
      } else if w == computer.name {
        computer.score := computer.score + 1;
      }
    }

    /** `grand_winner?`: some score equals ten. */
    predicate GrandWinner()
      reads this, human, computer
    {
      human.score == GAMES_TO_WIN || computer.score == GAMES_TO_WIN
    }

    /** `reset_score`: both scores go back to zero; the history and the
        game counter are kept. */
    method ResetScore()
      requires Valid()
      modifies human`score, computer`score
      ensures Valid()
      ensures human.score == 0 && computer.score == 0
      ensures !GrandWinner()
    {
      human.score := 0;
      computer.score := 0;
    }

    /** `record_move`: the counter goes up by one and an entry numbered
        with the new count is appended. */
    method RecordMove()
      requires Valid() && MovesChosen()
      modifies this
      ensures Valid()
      ensures gamesPlayed == old(gamesPlayed) + 1
      ensures history == old(history) +
        [NumberedRound(gamesPlayed, human.move.value, computer.move.value, Winner())]
    {
      gamesPlayed := gamesPlayed + 1;
      history := history + [NumberedRound(gamesPlayed, human.move.value, computer.move.value, Winner())];
    }
  }
}
