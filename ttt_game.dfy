/** The game around the board in the object-oriented Tic-Tac-Toe: who is
    to move, the two players' markers and scores, and the list phrasing
    used in the square prompt. */
module TicTacToeGame {
  import opened Util
  import opened TicTacToe
  import opened RubyString

  const COMPUTER_MARKER: char := 'O'

  /** Games needed to be the grand winner (`grand_winner?` uses >=). */
  const GAMES_TO_WIN: int := 5

  /** `@current_marker`: nil before the settings are chosen, the symbol
      `:choose` after a reset, or a player's marker. */
  datatype Turn = NoTurn | ChooseTurn | MarkerTurn(marker: char)

  /** Ruby's `\w`: a letter, a digit or the underscore. */
  predicate WordChar(c: char) {
    'a' <= c <= 'z' || 'A' <= c <= 'Z' || '0' <= c <= '9' || c == '_'
  }

  /** What `set_player_marker` accepts: a single word character other
      than 'O'. Every marker of this game is one character, so markers are
      modelled as characters. */
  predicate ValidHumanMarker(m: char) {
    WordChar(m) && m != COMPUTER_MARKER
  }

  class Player {
    var score: int
    var marker: char

    constructor (marker: char)
      ensures this.marker == marker && score == 0
    {
      this.marker := marker;
      score := 0;
    }
  }

  class Game {
    const board: Board
    const human: Player
    const computer: Player
    var currentMarker: Turn

    ghost predicate Valid()
      reads this, board, board.squares.Values, human, computer
    {
      && board.Valid()
      && human != computer
      && ValidHumanMarker(human.marker)
      && computer.marker == COMPUTER_MARKER
    }

    /** `initialize` followed by `choose_game_settings`: the marker chosen
        in `set_player_marker` and the answer to `choose_first_to_move`
        are parameters. */
    constructor (humanMarker: char, humanFirst: bool)
      requires ValidHumanMarker(humanMarker)
      ensures Valid() && fresh(board) && fresh(human) && fresh(computer)
      ensures board.Cells() == EMPTY_CELLS
      ensures human.marker == humanMarker && human.score == 0 && computer.score == 0
      ensures currentMarker == if humanFirst then MarkerTurn(humanMarker) else MarkerTurn(COMPUTER_MARKER)
    {
      board := new Board();
      human := new Player(humanMarker);
      computer := new Player(COMPUTER_MARKER);
      currentMarker := if humanFirst then MarkerTurn(humanMarker) else MarkerTurn(COMPUTER_MARKER);
    }

    /** `current_player_moves`: on the human's turn the square read by
        `human_moves` (a parameter, already checked to be unmarked) takes the
        human's marker; otherwise `computer_moves` marks the square chosen
        by `best_move`. Either way exactly one square is marked and the turn
        passes to the other player. `players_move` only calls this while the
        board is not full. */
    method CurrentPlayerMoves(humanSquare: int) returns (square: int)
      requires Valid() && !Full(board.Cells())
      requires currentMarker == MarkerTurn(human.marker) ==>
        IsKey(humanSquare) && At(board.Cells(), humanSquare) == INITIAL_MARKER
      modifies this, board.squares.Values
      ensures Valid()
      ensures IsKey(square) && At(old(board.Cells()), square) == INITIAL_MARKER
      ensures old(currentMarker) == MarkerTurn(human.marker) ==>
        && square == humanSquare
        && board.Cells() == old(board.Cells())[square - 1 := human.marker]
        && currentMarker == MarkerTurn(computer.marker)
      ensures old(currentMarker) != MarkerTurn(human.marker) ==>
        && BestMoveRule(old(board.Cells()), computer.marker, human.marker, Some(square))
        && board.Cells() == old(board.Cells())[square - 1 := computer.marker]
        && currentMarker == MarkerTurn(human.marker)
    {
      if currentMarker == MarkerTurn(human.marker) {
        square := humanSquare;
        HumanMoves(square);
        currentMarker := MarkerTurn(computer.marker);
      } else {
        square := ComputerMoves();
        currentMarker := MarkerTurn(human.marker);
      }
    }

    /** `human_moves`: the square read from the console (a parameter, which
        the input loop only accepts when unmarked) takes the human's marker. */
    method HumanMoves(square: int)
      requires Valid() && IsKey(square) && At(board.Cells(), square) == INITIAL_MARKER
      modifies board.squares.Values
      ensures Valid()
      ensures board.Cells() == old(board.Cells())[square - 1 := human.marker]
    {
      board.Set(square, human.marker);
    }

    /** `computer_moves`: the computer's marker goes on `best_move`'s square,
        which on a board that is not full always exists. */
    method ComputerMoves() returns (square: int)
      requires Valid() && !Full(board.Cells())
      modifies board.squares.Values
      ensures Valid()
      ensures BestMoveRule(old(board.Cells()), computer.marker, human.marker, Some(square))
      ensures IsKey(square) && At(old(board.Cells()), square) == INITIAL_MARKER
      ensures board.Cells() == old(board.Cells())[square - 1 := computer.marker]
    {
      var choice := board.BestMove(computer.marker, human.marker);
      square := choice.value;
      board.Set(square, computer.marker);
    }

    /** `increment_score`: the owner of the winning marker gains a point;
        on a tie nothing changes. */
    method IncrementScore()
      requires Valid()
      modifies human`score, computer`score
      ensures Valid()
      ensures human.score == old(human.score) + (if WinningMarker(board.Cells()) == Some(human.marker) then 1 else 0)
      ensures computer.score == old(computer.score) + (if WinningMarker(board.Cells()) == Some(computer.marker) then 1 else 0)
    {
      var w := WinningMarker(board.Cells());
      if w == Some(human.marker) {
        human.score := human.score + 1;
      } else if w == Some(computer.marker) {
        computer.score := computer.score + 1;
      }
    }

    /** `grand_winner?`: some player has at least GAMES_TO_WIN points. */
    predicate GrandWinner()
      reads human, computer
    {
      human.score >= GAMES_TO_WIN || computer.score >= GAMES_TO_WIN
    }

    /** `reset`: a fresh board, and `@current_marker` becomes `:choose`,
        which is nobody's marker, so the computer moves first in every game
        after the first. */
    method Reset()
      requires Valid()
      modifies this, board
      ensures Valid()
      ensures board.Cells() == EMPTY_CELLS && UnmarkedKeys(board.Cells()) == ALL_KEYS
      ensures currentMarker == ChooseTurn
      ensures currentMarker != MarkerTurn(human.marker)
    {
      board.Reset();
      ResetBoardIsOpen();
      currentMarker := ChooseTurn;
    }
  }

  /** `joiner(arr, punctuation, word)`: "" for no element, the element for
      one, "a or b" for two, and for three or more the list joined by the
      punctuation with "or " before the last element. The last element of
      the argument array itself is rewritten in that case. The caller
      passes the integer keys of `unmarked_keys`; string interpolation and
      `join` write each with `Integer#to_s`, so the model takes those
      strings, `IntToString` of each key. */
  method Joiner(arr: array<string>, punctuation: string := ", ", word: string := "or") returns (s: string)
    modifies arr
    ensures arr.Length == 0 ==> s == ""
    ensures arr.Length == 1 ==> s == arr[0]
    ensures arr.Length == 2 ==> s == arr[0] + " " + word + " " + arr[1]
    ensures arr.Length < 3 ==> arr[..] == old(arr[..])
    ensures arr.Length >= 3 ==>
      && arr[..] == old(arr[..])[arr.Length - 1 := word + " " + old(arr[arr.Length - 1])]
      && s == Join(old(arr[..arr.Length - 1]), punctuation) + punctuation + (word + " " + old(arr[arr.Length - 1]))
  {
    if arr.Length == 0 {
      s := "";
    } else if arr.Length == 1 {
      s := arr[0];
    } else if arr.Length == 2 {
      var xs := arr[..];
      var sep := " " + word + " ";
      assert xs[1..] == [xs[1]];
      assert Join(xs[1..], sep) == xs[1];
      s := Join(xs, sep);
      assert s == xs[0] + sep + xs[1];
      assert xs[0] + sep + xs[1] == xs[0] + " " + word + " " + xs[1];
    } else {
      ghost var init := arr[..arr.Length - 1];
      arr[arr.Length - 1] := word + " " + arr[arr.Length - 1];
      assert arr[..] == init + [arr[arr.Length - 1]];
      JoinSnoc(init, arr[arr.Length - 1], punctuation);
      s := Join(arr[..], punctuation);
    }
  }
}
