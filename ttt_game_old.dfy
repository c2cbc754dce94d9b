/** The game around the board in the older Tic-Tac-Toe copy: fixed
    markers "X" and "O", the human always opening, scores reset by the
    players themselves, and the grand winner decided by a score of exactly
    five. The board is the shared `TicTacToe` model. */
module TicTacToeOldGame {
  import opened Util
  import opened TicTacToe

  const HUMAN_MARKER: char := 'X'
  const COMPUTER_MARKER: char := 'O'
  const FIRST_TO_MOVE: char := HUMAN_MARKER

  /** `grand_winner?` tests for this score with `==`. */
  const GAMES_TO_WIN: int := 5

  class Player {
    var score: int
    const marker: char

    constructor (marker: char)
      ensures this.marker == marker && score == 0
    {
      this.marker := marker;
      score := 0;
    }

    /** `Player#reset`: the score goes back to zero. */
    method Reset()
      modifies this`score
      ensures score == 0
    {
      score := 0;
    }
  }

  class Game {
    const board: Board
    const human: Player
    const computer: Player
    var currentMarker: char

    ghost predicate Valid()
      reads this, board, board.squares.Values, human, computer
    {
      && board.Valid()
      && human != computer
      && human.marker == HUMAN_MARKER && computer.marker == COMPUTER_MARKER
      && (currentMarker == HUMAN_MARKER || currentMarker == COMPUTER_MARKER)
    }

    constructor ()
      ensures Valid() && fresh(board) && fresh(human) && fresh(computer)
      ensures board.Cells() == EMPTY_CELLS
      ensures human.score == 0 && computer.score == 0
      ensures currentMarker == FIRST_TO_MOVE
    {
      board := new Board();
      human := new Player(HUMAN_MARKER);
      computer := new Player(COMPUTER_MARKER);
      currentMarker := FIRST_TO_MOVE;
    }

    /** `current_player_moves`: the player whose marker is current marks a
        square, and the current marker flips between "X" and "O". The
        human's square comes from the console loop in `human_moves`; the
        computer's square stands for what `computer_moves` would pick (that
        method is not part of this model), so both are parameters and the
        one for the player to move must be an unmarked square. */
    method CurrentPlayerMoves(humanSquare: int, computerSquare: int)
      requires Valid()
      requires currentMarker == HUMAN_MARKER ==>
        IsKey(humanSquare) && At(board.Cells(), humanSquare) == INITIAL_MARKER
      requires currentMarker != HUMAN_MARKER ==>
        IsKey(computerSquare) && At(board.Cells(), computerSquare) == INITIAL_MARKER
      modifies this, board.squares.Values
      ensures Valid()
      ensures old(currentMarker) == HUMAN_MARKER ==>
        board.Cells() == old(board.Cells())[humanSquare - 1 := HUMAN_MARKER] && currentMarker == COMPUTER_MARKER
      ensures old(currentMarker) == COMPUTER_MARKER ==>
        board.Cells() == old(board.Cells())[computerSquare - 1 := COMPUTER_MARKER] && currentMarker == HUMAN_MARKER
    {
      if currentMarker == HUMAN_MARKER {
        board.Set(humanSquare, human.marker);
        currentMarker := COMPUTER_MARKER;
      } else {
        board.Set(computerSquare, computer.marker);
        currentMarker := HUMAN_MARKER;
      }
    }

    /** `increment_score`: only the player owning the winning marker gains a
        point. Scores grow by at most one per game, so while both are below
        five before the game, `grand_winner?`'s exact test for five is the
        same as reaching five. */
    method IncrementScore()
      requires Valid()
      modifies human`score, computer`score
      ensures Valid()
      ensures human.score == old(human.score) + (if WinningMarker(board.Cells()) == Some(HUMAN_MARKER) then 1 else 0)
      ensures computer.score == old(computer.score) + (if WinningMarker(board.Cells()) == Some(COMPUTER_MARKER) then 1 else 0)
      ensures old(human.score) < GAMES_TO_WIN && old(computer.score) < GAMES_TO_WIN ==>
        (GrandWinner() <==> human.score >= GAMES_TO_WIN || computer.score >= GAMES_TO_WIN)
    {
      var w := WinningMarker(board.Cells());
      if w == Some(human.marker) {
        human.score := human.score + 1;
      } else if w == Some(computer.marker) {
        computer.score := computer.score + 1;
      }
    }

    /** `grand_winner?`: some score is exactly GAMES_TO_WIN. */
    predicate GrandWinner()
      reads human, computer
    {
      human.score == GAMES_TO_WIN || computer.score == GAMES_TO_WIN
    }

    /** `reset_board`: a fresh board, and the human ("X") moves first
        again. */
    method ResetBoard()
      requires Valid()
      modifies this, board
      ensures Valid()
      ensures board.Cells() == EMPTY_CELLS && UnmarkedKeys(board.Cells()) == ALL_KEYS
      ensures currentMarker == FIRST_TO_MOVE
    {
      board.Reset();
      ResetBoardIsOpen();
      currentMarker := FIRST_TO_MOVE;
    }

    /** `reset_score`: both players' scores go back to zero. */
    method ResetScore()
      requires Valid()
      modifies human`score, computer`score
      ensures Valid()
      ensures human.score == 0 && computer.score == 0
      ensures !GrandWinner()
    {
      human.Reset();
      computer.Reset();
    }
  }
}
