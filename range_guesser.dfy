/** The number guesser of lesson_5/medium_1/7.rb: the range is chosen by
    the caller and the number of guesses is derived from its size; the
    rest of the game is that of 6.rb. */
module RangeGuesser {
  import opened Util
  import opened RubyString
  import opened Guesser

  /** 2 to the power k. */
  function Pow2(k: nat): (p: nat)
    ensures p >= 1
  {
    if k == 0 then 1 else 2 * Pow2(k - 1)
  }

  lemma {:induction false} Pow2Monotone(j: nat, k: nat)
    requires j <= k
    ensures Pow2(j) <= Pow2(k)
    decreases k
  {
    if j < k {
      Pow2Monotone(j, k - 1);
    }
  }

  /** `Math.log2(n).to_i` for a positive integer: the exponent of the
      largest power of 2 not above n. */
  function FloorLog2(n: int): (k: nat)
    requires n >= 1
    ensures Pow2(k) <= n < Pow2(k + 1)
  {
    if n < 2 then 0 else 1 + FloorLog2(n / 2)
  }

  /** `Math.log2(@range.size).to_i + 1` */
  function Budget(size: int): int
    requires size >= 1
  {
    FloorLog2(size) + 1
  }

  /** The budget is the fewest guesses that halving the range needs:
      `2^budget` exceeds the size and no smaller power of 2 does. */
  lemma BudgetIsHalvingCount(size: int)
    requires size >= 1
    ensures Budget(size) >= 1 && size < Pow2(Budget(size))
    ensures forall k: nat :: size < Pow2(k) ==> Budget(size) <= k
  {
    forall k: nat | size < Pow2(k)
      ensures Budget(size) <= k
    {
      if k < Budget(size) {
        Pow2Monotone(k, FloorLog2(size));
      }
    }
  }

  /** For 1..100 the budget is the seven guesses 6.rb fixes. */
  lemma BudgetOfHundred()
    ensures Budget(100) == NUMBER_OF_GUESSES
  {
  }

  class GuessingGame {
    /** `@range`, from `begin_range` to `end_range`. */
    const low: int
    const high: int
    const magicNumber: int
    var guess: Option<int>
    var guessesRemaining: int
    /** Standard input: the lines `gets` has not read yet. */
    var input: seq<string>

    function State(): PlayState
      reads this
    {
      PlayState(guess, guessesRemaining, input)
    }

    /** `initialize(begin_range, end_range)`: a magic number sampled from
        the range and the budget derived from its size. An empty range
        makes `Math.log2(0).to_i` raise FloatDomainError. */
    constructor (beginRange: int, endRange: int, input: seq<string>)
      requires beginRange <= endRange
      ensures low == beginRange && high == endRange
      ensures low <= magicNumber <= high
      ensures guess == None && guessesRemaining == Budget(high - low + 1) && this.input == input
    {
      var range := RangeToA(beginRange, endRange);
      assert range[0] == beginRange;
      var m := Sample(range);
      low := beginRange;
      high := endRange;
      magicNumber := m;
      guess := None;
      guessesRemaining := Budget(endRange - beginRange + 1);
      this.input := input;
    }

    /** `player_won?` */
    predicate PlayerWon()
      reads this
    {
      guess == Some(magicNumber)
    }

    /** `no_more_guesses?` */
    predicate NoMoreGuesses()
      reads this
    {
      guessesRemaining == 0
    }

    /** `game_over?` */
    predicate GameOver()
      reads this
    {
      PlayerWon() || NoMoreGuesses()
    }

    /** `get_guess`'s loop with the range it accepts as a parameter. */
    method GetGuessWithin(lo: int, hi: int) returns (read: bool)
      modifies this
      ensures read <==> ReadGuess(old(input), lo, hi).Accepted?
      ensures read ==> (guess == Some(ReadGuess(old(input), lo, hi).guess) &&
        input == ReadGuess(old(input), lo, hi).rest && guessesRemaining == old(guessesRemaining) - 1)
      ensures !read ==> (input == [] && guessesRemaining == old(guessesRemaining) &&
        guess == (if ReadGuess(old(input), lo, hi).last.Some? then ReadGuess(old(input), lo, hi).last else old(guess)))
    {
      ghost var consumed := 0;
      while |input| > 0
        invariant 0 <= consumed <= |old(input)| && input == old(input)[consumed..]
        invariant guessesRemaining == old(guessesRemaining)
        invariant consumed == 0 ==> guess == old(guess)
        invariant ReadGuess(old(input), lo, hi) ==
          Resume(ReadGuess(input, lo, hi), if consumed == 0 then None else guess)
        decreases |input|
      {
        ghost var before := input;
        var line := input[0];
        input := input[1..];
        consumed := consumed + 1;
        assert input == old(input)[consumed..];
        guess := Some(ToI(line));
        assert ReadGuess(before, lo, hi) == if lo <= guess.value <= hi then Accepted(guess.value, input)
          else Resume(ReadGuess(input, lo, hi), guess);
        if lo <= guess.value <= hi {
          guessesRemaining := guessesRemaining - 1;
          return true;
        }
      }
      return false;
    }

    /** `get_guess` as written: it accepts 1..100, whatever the range. */
    method GetGuess() returns (read: bool)
      modifies this
      ensures read <==> ReadGuess(old(input), LOW, HIGH).Accepted?
      ensures read ==> (guess == Some(ReadGuess(old(input), LOW, HIGH).guess) &&
        input == ReadGuess(old(input), LOW, HIGH).rest && guessesRemaining == old(guessesRemaining) - 1)
      ensures !read ==> (input == [] && guessesRemaining == old(guessesRemaining) &&
        guess == (if ReadGuess(old(input), LOW, HIGH).last.Some? then ReadGuess(old(input), LOW, HIGH).last else old(guess)))
    {
      read := GetGuessWithin(LOW, HIGH);
    }

    /** `get_guess` checking the game's own range. */
    method GetGuessInRange() returns (read: bool)
      modifies this
      ensures read <==> ReadGuess(old(input), low, high).Accepted?
      ensures read ==> (guess == Some(ReadGuess(old(input), low, high).guess) &&
        input == ReadGuess(old(input), low, high).rest && guessesRemaining == old(guessesRemaining) - 1)
      ensures !read ==> (input == [] && guessesRemaining == old(guessesRemaining) &&
        guess == (if ReadGuess(old(input), low, high).last.Some? then ReadGuess(old(input), low, high).last else old(guess)))
    {
      read := GetGuessWithin(low, high);
    }

    /** `give_hint`; comparing nil would raise, so a guess must have been
        read. */
    method GiveHint() returns (hint: Hint)
      requires guess.Some?
      ensures hint == HintFor(guess.value, magicNumber)
      ensures hint == TooLow <==> guess.value < magicNumber
      ensures hint == TooHigh <==> guess.value > magicNumber
    {
      if guess.value < magicNumber {
        hint := TooLow;
      } else if guess.value > magicNumber {
        hint := TooHigh;
      } else {
        hint := NoHint;
      }
    }

    /** `play`'s loop, reading guesses in `lo..hi`. */
    method PlayWithin(lo: int, hi: int) returns (ending: Ending, guesses: seq<int>, hints: seq<Hint>)
      modifies this
      ensures PlayFrom(magicNumber, old(State()), lo, hi) == Game(ending, guesses, State())
      ensures HintsFor(hints, guesses, magicNumber, ending == Won)
      ensures ending != InputEnded ==> (ending == Won <==> PlayerWon())
      ensures ending == Lost ==> NoMoreGuesses()
      ensures old(guessesRemaining) >= 1 ==> |guesses| <= old(guessesRemaining)
    {
      ghost var s0 := State();
      guesses := [];
      hints := [];
      while true
        invariant PlayedUpTo(magicNumber, s0, guesses, State(), lo, hi)
        invariant HintsFor(hints, guesses, magicNumber, false)
        decreases |input|
      {
        ghost var before := State();
        ghost var prior := guesses;
        var read := GetGuessWithin(lo, hi);
        if !read {
          ending := InputEnded;
          RoundRunsOut(magicNumber, s0, prior, before, lo, hi);
          break;
        }
        var g := guess.value;
        HintsGrow(hints, guesses, g, magicNumber);
        guesses := guesses + [g];
        if !PlayerWon() {
          var h := GiveHint();
          hints := hints + [h];
        }
        if GameOver() {
          ending := if PlayerWon() then Won else Lost;
          RoundEnds(magicNumber, s0, prior, before, g, State(), lo, hi);
          break;
        }
        RoundGoesOn(magicNumber, s0, prior, before, g, State(), lo, hi);
      }
      PlayUsesBudget(magicNumber, s0, lo, hi);
      PlayWinsOnMagic(magicNumber, s0, lo, hi);
    }

    /** `play` as written, with `get_guess` accepting 1..100. */
    method Play() returns (ending: Ending, guesses: seq<int>, hints: seq<Hint>)
      modifies this
      ensures PlayFrom(magicNumber, old(State()), LOW, HIGH) == Game(ending, guesses, State())
      ensures HintsFor(hints, guesses, magicNumber, ending == Won)
      ensures old(guessesRemaining) >= 1 ==> |guesses| <= old(guessesRemaining)
      ensures (magicNumber < LOW || HIGH < magicNumber) ==> ending != Won
    {
      ending, guesses, hints := PlayWithin(LOW, HIGH);
      if magicNumber < LOW || HIGH < magicNumber {
        CannotWinOutside(magicNumber, old(State()), LOW, HIGH);
      }
    }

    /** `play` with `get_guess` checking the game's own range: the magic
        number can be guessed. */
    method PlayInRange() returns (ending: Ending, guesses: seq<int>, hints: seq<Hint>)
      modifies this
      ensures PlayFrom(magicNumber, old(State()), low, high) == Game(ending, guesses, State())
      ensures HintsFor(hints, guesses, magicNumber, ending == Won)
      ensures ending != InputEnded ==> (ending == Won <==> PlayerWon())
      ensures old(guessesRemaining) >= 1 ==> |guesses| <= old(guessesRemaining)
    {
      ending, guesses, hints := PlayWithin(low, high);
    }
  }

  /** The range 200..300 as written: whatever the magic number and the
      input, the game is never won, because every guess inside the range
      is rejected. */
  lemma HighRangeUnwinnable(magic: int, s: PlayState)
    requires 200 <= magic <= 300
    ensures PlayFrom(magic, s, LOW, HIGH).ending != Won
  {
    CannotWinOutside(magic, s, LOW, HIGH);
  }

  /** The range 200..300 checked against itself: typing the magic number
      first wins. */
  lemma HighRangeWinnable(magic: int, s: PlayState, rest: seq<string>)
    requires 200 <= magic <= 300
    requires s.input == [IntToString(magic)] + rest
    ensures PlayFrom(magic, s, 200, 300).ending == Won
  {
    GuessingMagicWins(magic, s, rest, 200, 300);
  }
}
