/** The Tic-Tac-Toe board: nine mutable squares keyed 1..9, the eight
    winning lines, win and full-board detection, and the computer's
    square-picking rule.

    The board's state is abstracted as `Cells()`: the nine markers, where
    key k's marker is at index k - 1. The queries are pure functions of
    that sequence; the class layer holds the squares as objects, because
    the Ruby code mutates a Square's marker in place. */
module TicTacToe {
  import opened Util

  /** The marker of a square nobody has played on. */
  const INITIAL_MARKER: char := ' '

  /** One winning line: three keys, in ascending order. */
  datatype Line = Line(a: int, b: int, c: int)

  /** `WINNING_LINES[i]`: rows, then columns, then the two diagonals. */
  function WinningLine(i: int): (l: Line)
    requires 0 <= i < 8
    ensures IsKey(l.a) && IsKey(l.b) && IsKey(l.c) && l.a < l.b < l.c
  {
    match i
    case 0 => Line(1, 2, 3)
    case 1 => Line(4, 5, 6)
    case 2 => Line(7, 8, 9)
    case 3 => Line(1, 4, 7)
    case 4 => Line(2, 5, 8)
    case 5 => Line(3, 6, 9)
    case 6 => Line(1, 5, 9)
    case 7 => Line(3, 5, 7)
  }

  /** The nine markers of a freshly reset board. */
  const EMPTY_CELLS: seq<char> :=
    [INITIAL_MARKER, INITIAL_MARKER, INITIAL_MARKER,
     INITIAL_MARKER, INITIAL_MARKER, INITIAL_MARKER,
     INITIAL_MARKER, INITIAL_MARKER, INITIAL_MARKER]

  const ALL_KEYS: seq<int> := [1, 2, 3, 4, 5, 6, 7, 8, 9]

  predicate IsKey(k: int) { 1 <= k <= 9 }

  predicate WellFormed(cells: seq<char>) { |cells| == 9 }

  /** The marker on square k. */
  function At(cells: seq<char>, k: int): char
    requires WellFormed(cells) && IsKey(k)
  {
    cells[k - 1]
  }

  /** `@squares.values_at(*line)`, as the markers of those squares. */
  function LineMarkers(cells: seq<char>, i: int): (ms: seq<char>)
    requires WellFormed(cells) && 0 <= i < 8
    ensures |ms| == 3
  {
    var line := WinningLine(i);
    [At(cells, line.a), At(cells, line.b), At(cells, line.c)]
  }

  /** `three_identical_markers?`: the three squares are all marked, and the
      smallest of their markers equals the largest, that is, all three are
      the same marker. */
  predicate ThreeIdenticalMarkers(ms: seq<char>)
    requires |ms| == 3
  {
    && ms[0] != INITIAL_MARKER && ms[1] != INITIAL_MARKER && ms[2] != INITIAL_MARKER
    && ms[0] == ms[1] && ms[1] == ms[2]
  }

  predicate LineComplete(cells: seq<char>, i: int)
    requires WellFormed(cells) && 0 <= i < 8
  {
    ThreeIdenticalMarkers(LineMarkers(cells, i))
  }

  /** `winning_marker`, scanning the lines from index i on: the marker of the
      first complete line, or nil when no line is complete. */
  function WinningMarkerFrom(cells: seq<char>, i: int): Option<char>
    requires WellFormed(cells) && 0 <= i <= 8
    decreases 8 - i
  {
    if i == 8 then None
    else if LineComplete(cells, i) then Some(LineMarkers(cells, i)[0])
    else WinningMarkerFrom(cells, i + 1)
  }

  /** The scan finds nothing exactly when no line from i on is complete;
      otherwise it reports the (marked) common marker of the first complete
      line. */
  lemma {:induction false} WinningMarkerIsFirstCompleteLine(cells: seq<char>, i: int)
    requires WellFormed(cells) && 0 <= i <= 8
    ensures WinningMarkerFrom(cells, i).None? <==> forall j :: i <= j < 8 ==> !LineComplete(cells, j)
    ensures WinningMarkerFrom(cells, i).Some? ==>
      && WinningMarkerFrom(cells, i).value != INITIAL_MARKER
      && exists j :: i <= j < 8 && LineComplete(cells, j)
           && WinningMarkerFrom(cells, i).value == LineMarkers(cells, j)[0]
           && forall k :: i <= k < j ==> !LineComplete(cells, k)
    decreases 8 - i
  {
    if i < 8 {
      if LineComplete(cells, i) {
        assert WinningMarkerFrom(cells, i) == Some(LineMarkers(cells, i)[0]);
      } else {
        WinningMarkerIsFirstCompleteLine(cells, i + 1);
        var w := WinningMarkerFrom(cells, i + 1);
        assert WinningMarkerFrom(cells, i) == w;
        if w.Some? {
          var j :| i + 1 <= j < 8 && LineComplete(cells, j) && w.value == LineMarkers(cells, j)[0]
            && forall k :: i + 1 <= k < j ==> !LineComplete(cells, k);
          assert forall k :: i <= k < j ==> !LineComplete(cells, k);
        }
      }
    }
  }

  function WinningMarker(cells: seq<char>): Option<char>
    requires WellFormed(cells)
  {
    WinningMarkerFrom(cells, 0)
  }

  /** `someone_won?`: `!!winning_marker`. */
  predicate SomeoneWon(cells: seq<char>)
    requires WellFormed(cells)
  {
    WinningMarker(cells).Some?
  }

  /** The board whose only marked squares are the three of line i, all
      with marker m. */
  function LineOnly(i: int, m: char): (cells: seq<char>)
    requires 0 <= i < 8
    ensures WellFormed(cells)
  {
    var line := WinningLine(i);
    EMPTY_CELLS[line.a - 1 := m][line.b - 1 := m][line.c - 1 := m]
  }

  /** Filling any single winning line with one marker makes that marker the
      winner. */
  lemma LineWinsForItsMarker(i: int, m: char)
    requires 0 <= i < 8 && m != INITIAL_MARKER
    ensures WinningMarker(LineOnly(i, m)) == Some(m)
  {
    var cells := LineOnly(i, m);
    forall j | 0 <= j < i
      ensures !LineComplete(cells, j)
    {
      var line := WinningLine(j);
      assert At(cells, line.a) == INITIAL_MARKER || At(cells, line.b) == INITIAL_MARKER
        || At(cells, line.c) == INITIAL_MARKER;
    }
    FirstCompleteLineWins(cells, 0, i);
  }

  /** When line i is complete and no line from k up to i is, the scan from
      k reports line i's marker. */
  lemma {:induction false} FirstCompleteLineWins(cells: seq<char>, k: int, i: int)
    requires WellFormed(cells) && 0 <= k <= i < 8
    requires LineComplete(cells, i)
    requires forall j :: k <= j < i ==> !LineComplete(cells, j)
    ensures WinningMarkerFrom(cells, k) == Some(LineMarkers(cells, i)[0])
    decreases i - k
  {
    if k < i {
      FirstCompleteLineWins(cells, k + 1, i);
    }
  }

  /** `unmarked_keys` over the markers `ms` of the consecutive keys
      first, first + 1, ...: the keys whose square is unmarked, in key
      order. */
  function UnmarkedFrom(ms: seq<char>, first: int): seq<int>
  {
    if ms == [] then []
    else (if ms[0] == INITIAL_MARKER then [first] else []) + UnmarkedFrom(ms[1..], first + 1)
  }

  /** The keys listed are exactly those whose marker is unmarked. */
  lemma {:induction false} UnmarkedFromMembers(ms: seq<char>, first: int)
    ensures forall x :: x in UnmarkedFrom(ms, first) <==>
      first <= x < first + |ms| && ms[x - first] == INITIAL_MARKER
  {
    if ms != [] {
      var rest := UnmarkedFrom(ms[1..], first + 1);
      var head := if ms[0] == INITIAL_MARKER then [first] else [];
      UnmarkedFromMembers(ms[1..], first + 1);
      assert UnmarkedFrom(ms, first) == head + rest;
      forall x
        ensures x in head + rest <==> first <= x < first + |ms| && ms[x - first] == INITIAL_MARKER
      {
        if x != first && first + 1 <= x < first + |ms| {
          assert ms[1..][x - (first + 1)] == ms[x - first];
        }
      }
    }
  }

  /** The keys are listed in strictly ascending order. */
  lemma {:induction false} UnmarkedFromAscending(ms: seq<char>, first: int)
    ensures forall a, b :: 0 <= a < b < |UnmarkedFrom(ms, first)| ==>
      UnmarkedFrom(ms, first)[a] < UnmarkedFrom(ms, first)[b]
  {
    if ms != [] {
      var rest := UnmarkedFrom(ms[1..], first + 1);
      UnmarkedFromAscending(ms[1..], first + 1);
      UnmarkedFromAbove(ms[1..], first + 1);
      var r := UnmarkedFrom(ms, first);
      if ms[0] == INITIAL_MARKER {
        assert r == [first] + rest;
        forall a, b | 0 <= a < b < |r|
          ensures r[a] < r[b]
        {
          assert r[b] == rest[b - 1];
          if a > 0 {
            assert r[a] == rest[a - 1];
          }
        }
      } else {
        assert r == rest;
      }
    }
  }

  /** Every key listed is at least `first`. */
  lemma {:induction false} UnmarkedFromAbove(ms: seq<char>, first: int)
    ensures forall b :: 0 <= b < |UnmarkedFrom(ms, first)| ==> UnmarkedFrom(ms, first)[b] >= first
  {
    if ms != [] {
      UnmarkedFromAbove(ms[1..], first + 1);
    }
  }

  function UnmarkedKeys(cells: seq<char>): seq<int>
    requires WellFormed(cells)
  {
    UnmarkedFrom(cells, 1)
  }

  /** `unmarked_keys` lists exactly the unmarked keys. */
  lemma UnmarkedKeysSpec(cells: seq<char>)
    requires WellFormed(cells)
    ensures forall x :: x in UnmarkedKeys(cells) <==> IsKey(x) && At(cells, x) == INITIAL_MARKER
  {
    UnmarkedFromMembers(cells, 1);
    forall x
      ensures x in UnmarkedKeys(cells) <==> IsKey(x) && At(cells, x) == INITIAL_MARKER
    {
    }
  }

  /** `unmarked_keys` is in ascending key order. */
  lemma UnmarkedKeysAscending(cells: seq<char>)
    requires WellFormed(cells)
    ensures forall a, b :: 0 <= a < b < |UnmarkedKeys(cells)| ==> UnmarkedKeys(cells)[a] < UnmarkedKeys(cells)[b]
  {
    assert UnmarkedKeys(cells) == UnmarkedFrom(cells, 1);
    UnmarkedFromAscending(cells, 1);
  }

  /** `full?`: no unmarked key is left. */
  predicate Full(cells: seq<char>)
    requires WellFormed(cells)
  {
    UnmarkedKeys(cells) == []
  }

  /** A full board is exactly one with every square marked. */
  lemma FullIffAllMarked(cells: seq<char>)
    requires WellFormed(cells)
    ensures Full(cells) <==> forall k :: IsKey(k) ==> At(cells, k) != INITIAL_MARKER
  {
    UnmarkedKeysSpec(cells);
    forall k | IsKey(k) && At(cells, k) == INITIAL_MARKER
      ensures k in UnmarkedKeys(cells)
    {
    }
    if !Full(cells) {
      var u := UnmarkedKeys(cells)[0];
      assert u in UnmarkedKeys(cells);
      assert IsKey(u) && At(cells, u) == INITIAL_MARKER;
    }
  }

  /** Marking the unmarked square at position j removes exactly one key
      from the list. */
  lemma {:induction false} MarkRemovesKey(ms: seq<char>, first: int, j: int, marker: char)
    requires 0 <= j < |ms| && ms[j] == INITIAL_MARKER && marker != INITIAL_MARKER
    ensures |UnmarkedFrom(ms[j := marker], first)| == |UnmarkedFrom(ms, first)| - 1
  {
    var marked := ms[j := marker];
    assert marked != [] && marked[0] == if j == 0 then marker else ms[0];
    if j == 0 {
      assert marked[1..] == ms[1..];
      assert UnmarkedFrom(ms, first) == [first] + UnmarkedFrom(ms[1..], first + 1);
      assert UnmarkedFrom(marked, first) == UnmarkedFrom(ms[1..], first + 1);
    } else {
      assert ms[j := marker][1..] == ms[1..][j - 1 := marker];
      MarkRemovesKey(ms[1..], first + 1, j - 1, marker);
    }
  }

  /** Marking one unmarked square leaves one unmarked key fewer. */
  lemma MarkOneSquare(cells: seq<char>, key: int, marker: char)
    requires WellFormed(cells) && IsKey(key) && At(cells, key) == INITIAL_MARKER
    requires marker != INITIAL_MARKER
    ensures |UnmarkedKeys(cells[key - 1 := marker])| == |UnmarkedKeys(cells)| - 1
  {
    MarkRemovesKey(cells, 1, key - 1, marker);
  }

  /** When every square is unmarked, every key is listed, in order. */
  lemma {:induction false} AllUnmarkedListed(ms: seq<char>, first: int)
    requires forall i :: 0 <= i < |ms| ==> ms[i] == INITIAL_MARKER
    ensures |UnmarkedFrom(ms, first)| == |ms|
    ensures forall i :: 0 <= i < |ms| ==> UnmarkedFrom(ms, first)[i] == first + i
  {
    if ms != [] {
      AllUnmarkedListed(ms[1..], first + 1);
    }
  }

  /** A reset board has all nine keys unmarked (so it is not full). */
  lemma ResetBoardIsOpen()
    ensures UnmarkedKeys(EMPTY_CELLS) == ALL_KEYS
  {
    AllUnmarkedListed(EMPTY_CELLS, 1);
  }

  /** A reset board has no winner. */
  lemma ResetBoardHasNoWinner()
    ensures WinningMarker(EMPTY_CELLS) == None
  {
    WinningMarkerIsFirstCompleteLine(EMPTY_CELLS, 0);
    forall j | 0 <= j < 8
      ensures !LineComplete(EMPTY_CELLS, j)
    {
      assert At(EMPTY_CELLS, WinningLine(j).a) == INITIAL_MARKER;
    }
  }

  /** The number of squares of line i carrying marker m. */
  function CountInLine(cells: seq<char>, i: int, m: char): nat
    requires WellFormed(cells) && 0 <= i < 8
  {
    var ms := LineMarkers(cells, i);
    (if ms[0] == m then 1 else 0) + (if ms[1] == m then 1 else 0) + (if ms[2] == m then 1 else 0)
  }

  /** The guard of `find_winning_square`: the line has exactly one unmarked
      square and exactly two squares carrying `mark`. */
  predicate Threatened(cells: seq<char>, i: int, mark: char)
    requires WellFormed(cells) && 0 <= i < 8
  {
    CountInLine(cells, i, INITIAL_MARKER) == 1 && CountInLine(cells, i, mark) == 2
  }

  /** The key picked inside `find_winning_square`: the first key, in key
      order, of the line that is unmarked. (Lines are ascending, so key order
      and line order agree.) */
  function OpenKeyOf(cells: seq<char>, i: int): (k: int)
    requires WellFormed(cells) && 0 <= i < 8
    requires CountInLine(cells, i, INITIAL_MARKER) >= 1
    ensures var line := WinningLine(i); k == line.a || k == line.b || k == line.c
    ensures IsKey(k) && At(cells, k) == INITIAL_MARKER
  {
    var line := WinningLine(i);
    if At(cells, line.a) == INITIAL_MARKER then line.a
    else if At(cells, line.b) == INITIAL_MARKER then line.b
    else line.c
  }

  /** The index of the last threatened line among the first n lines, or
      None when none of them is threatened. */
  function LastThreatenedLine(cells: seq<char>, mark: char, n: int): (r: Option<int>)
    requires WellFormed(cells) && 0 <= n <= 8
    ensures r.Some? ==> 0 <= r.value < n && Threatened(cells, r.value, mark)
  {
    if n == 0 then None
    else if Threatened(cells, n - 1, mark) then Some(n - 1)
    else LastThreatenedLine(cells, mark, n - 1)
  }

  /** What `find_winning_square` returns after scanning the first n lines:
      the open key of the LAST threatened line among them (the loop never
      stops early), or nil when none of them is threatened. */
  function LastWinningSquare(cells: seq<char>, mark: char, n: int): (r: Option<int>)
    requires WellFormed(cells) && 0 <= n <= 8
    ensures r.Some? ==> IsKey(r.value) && At(cells, r.value) == INITIAL_MARKER
  {
    match LastThreatenedLine(cells, mark, n)
    case None => None
    case Some(i) => Some(OpenKeyOf(cells, i))
  }

  /** No line after the reported one is threatened, and nothing is
      reported only when no line is threatened. */
  lemma {:induction false} LastThreatenedLineSpec(cells: seq<char>, mark: char, n: int)
    requires WellFormed(cells) && 0 <= n <= 8
    ensures LastThreatenedLine(cells, mark, n).None? <==> forall i :: 0 <= i < n ==> !Threatened(cells, i, mark)
    ensures LastThreatenedLine(cells, mark, n).Some? ==>
      forall j :: LastThreatenedLine(cells, mark, n).value < j < n ==> !Threatened(cells, j, mark)
  {
    if n > 0 {
      var last := Threatened(cells, n - 1, mark);
      if last {
        assert LastThreatenedLine(cells, mark, n) == Some(n - 1);
      } else {
        LastThreatenedLineSpec(cells, mark, n - 1);
        var r := LastThreatenedLine(cells, mark, n - 1);
        assert LastThreatenedLine(cells, mark, n) == r;
        if r.None? {
          forall i | 0 <= i < n
            ensures !Threatened(cells, i, mark)
          {
            if i < n - 1 {
              assert !Threatened(cells, i, mark);
            }
          }
        } else {
          forall j | r.value < j < n
            ensures !Threatened(cells, j, mark)
          {
            if j < n - 1 {
              assert !Threatened(cells, j, mark);
            }
          }
        }
      }
    }
  }

  /** `find_winning_square` finds nothing exactly when no line is
      threatened; otherwise its square is the open key of a threatened line
      after which no line is threatened. */
  lemma LastWinningSquareSpec(cells: seq<char>, mark: char, n: int)
    requires WellFormed(cells) && 0 <= n <= 8
    ensures LastWinningSquare(cells, mark, n).None? <==> forall i :: 0 <= i < n ==> !Threatened(cells, i, mark)
    ensures LastWinningSquare(cells, mark, n).Some? ==>
      exists i :: 0 <= i < n && Threatened(cells, i, mark)
        && LastWinningSquare(cells, mark, n).value == OpenKeyOf(cells, i)
        && forall j :: i < j < n ==> !Threatened(cells, j, mark)
  {
    LastThreatenedLineSpec(cells, mark, n);
    var line := LastThreatenedLine(cells, mark, n);
    if line.Some? {
      var i := line.value;
      assert Threatened(cells, i, mark) && LastWinningSquare(cells, mark, n).value == OpenKeyOf(cells, i);
    }
  }

  /** The priority rule of `best_move`, for a result `square`: own winning
      square, else the opponent's winning square, else 5 when it is
      unmarked, else any unmarked key (nil when there is none). */
  ghost predicate BestMoveRule(cells: seq<char>, marker: char, opponent: char, square: Option<int>)
    requires WellFormed(cells)
  {
    var own := LastWinningSquare(cells, marker, 8);
    var block := LastWinningSquare(cells, opponent, 8);
    if own.Some? then square == own
    else if block.Some? then square == block
    else if At(cells, 5) == INITIAL_MARKER then square == Some(5)
    else if UnmarkedKeys(cells) == [] then square == None
    else square.Some? && square.value in UnmarkedKeys(cells)
  }

  /** Whatever the priority rule picks on a board that is not full is an
      unmarked key; on a full board it picks nothing. */
  lemma BestMoveIsUnmarked(cells: seq<char>, marker: char, opponent: char, square: Option<int>)
    requires WellFormed(cells) && BestMoveRule(cells, marker, opponent, square)
    ensures !Full(cells) <==> square.Some?
    ensures square.Some? ==> square.value in UnmarkedKeys(cells)
  {
    FullIffAllMarked(cells);
    UnmarkedKeysSpec(cells);
  }

  /** One square of the Ruby board; its marker is changed in place. */
  class Square {
    var marker: char

    constructor (marker: char)
      ensures this.marker == marker
    {
      this.marker := marker;
    }

    predicate Unmarked()
      reads this
    {
      marker == INITIAL_MARKER
    }

    predicate Marked()
      reads this
    {
      marker != INITIAL_MARKER
    }
  }

  /** The Ruby `Board`: a hash from the keys 1..9 to distinct squares. */
  class Board {
    var squares: map<int, Square>

    ghost predicate Valid()
      reads this, squares.Values
    {
      && (forall k :: k in squares <==> IsKey(k))
      && (forall i, j :: i in squares && j in squares && i != j ==> squares[i] != squares[j])
    }

    /** The markers of squares 1..9, in key order. */
    function Cells(): (cells: seq<char>)
      reads this, squares.Values
      requires Valid()
      ensures WellFormed(cells)
      ensures forall k :: IsKey(k) ==> At(cells, k) == squares[k].marker
    {
      [squares[1].marker, squares[2].marker, squares[3].marker,
       squares[4].marker, squares[5].marker, squares[6].marker,
       squares[7].marker, squares[8].marker, squares[9].marker]
    }

    constructor ()
      ensures Valid() && forall k :: k in squares ==> fresh(squares[k])
      ensures Cells() == EMPTY_CELLS
    {
      squares := map[];
      new;
      Reset();
    }

    /** `reset`: a new unmarked square for every key 1..9. */
    method Reset()
      requires forall k :: k in squares ==> IsKey(k)
      modifies this
      ensures Valid() && forall k :: k in squares ==> fresh(squares[k])
      ensures Cells() == EMPTY_CELLS
    {
      for key := 1 to 10
        invariant forall k :: k in squares ==> IsKey(k)
        invariant forall k :: 1 <= k < key ==> k in squares && fresh(squares[k]) && squares[k].marker == INITIAL_MARKER
        invariant forall i, j :: 1 <= i < key && 1 <= j < key && i != j ==> squares[i] != squares[j]
      {
        var square := new Square(INITIAL_MARKER);
        squares := squares[key := square];
      }

    }

    /** `[]=`: the square at `key` takes `marker`; no other square changes.
        The Ruby method does no validation; a key outside 1..9 would crash
        on a nil square, so the key is required to be on the board. */
    method Set(key: int, marker: char)
      requires Valid() && IsKey(key)
      modifies squares[key]
      ensures Valid()
      ensures Cells() == old(Cells())[key - 1 := marker]
    {
      squares[key].marker := marker;
    }

    /** `find_winning_square(mark)`: the loop over all eight lines, keeping
        the open key of each threatened line it meets. */
    method FindWinningSquare(mark: char) returns (winningSquare: Option<int>)
      requires Valid()
      ensures winningSquare == LastWinningSquare(Cells(), mark, 8)
      ensures winningSquare.Some? ==> winningSquare.value in UnmarkedKeys(Cells())
    {
      var cells := Cells();
      winningSquare := None;
      for i := 0 to 8
        invariant winningSquare == LastWinningSquare(cells, mark, i)
      {
        if CountInLine(cells, i, INITIAL_MARKER) == 1 && CountInLine(cells, i, mark) == 2 {
          winningSquare := Some(OpenKeyOf(cells, i));
        }
      }
      UnmarkedKeysSpec(cells);
    }

    /** `best_move(marker, opponent_marker)`: take the win, else block, else
        the centre, else a random unmarked key (`unmarked_keys.sample`, nil
        on a full board). */
    method BestMove(marker: char, opponent: char) returns (square: Option<int>)
      requires Valid()
      ensures BestMoveRule(Cells(), marker, opponent, square)
      ensures !Full(Cells()) <==> square.Some?
      ensures square.Some? ==> square.value in UnmarkedKeys(Cells())
      ensures square.Some? ==> IsKey(square.value) && At(Cells(), square.value) == INITIAL_MARKER
    {
      var cells := Cells();
      UnmarkedKeysSpec(cells);
      square := FindWinningSquare(marker);
      if square.None? {
        square := FindWinningSquare(opponent);
      }
      var unmarked := UnmarkedKeys(cells);
      assert (5 in unmarked) == (At(cells, 5) == INITIAL_MARKER);
      if square.None? && 5 in unmarked {
        square := Some(5);
      }
      if square.None? {
        if unmarked == [] {
          square := None;
        } else {
          var k := Sample(unmarked);
          square := Some(k);
        }
      }
      assert BestMoveRule(cells, marker, opponent, square);
      BestMoveIsUnmarked(cells, marker, opponent, square);
    }
  }
}
