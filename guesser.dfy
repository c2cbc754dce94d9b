/** The number guesser of lesson_5/medium_1/6.rb: seven guesses at a
    number drawn from 1..100, a hint after each wrong guess, and a game
    that ends on a win or when the guesses run out. Standard input is a
    list of lines that `gets` consumes; what the game puts is left out,
    apart from the hints, which are returned. */
module Guesser {
  import opened Util
  import opened RubyString

  /** `NUMBER_OF_GUESSES` */
  const NUMBER_OF_GUESSES: int := 7
  /** `RANGE`, and the range `get_guess` accepts. */
  const LOW: int := 1
  const HIGH: int := 100

  /** `Range#to_a` of `lo..hi`. */
  function RangeToA(lo: int, hi: int): (r: seq<int>)
    ensures |r| == if lo <= hi then hi - lo + 1 else 0
    ensures forall i :: 0 <= i < |r| ==> r[i] == lo + i
    ensures forall x :: x in r ==> lo <= x <= hi
  {
    if lo <= hi then seq(hi - lo + 1, i => lo + i) else []
  }

  // ---------------------------------------------------------------
  // Hints

  /** What `give_hint` says. */
  datatype Hint = TooLow | TooHigh | NoHint

  /** `give_hint`: too low below the magic number, too high above it, and
      nothing on it. */
  function HintFor(guess: int, magic: int): (h: Hint)
    ensures h == TooLow <==> guess < magic
    ensures h == TooHigh <==> guess > magic
    ensures h == NoHint <==> guess == magic
  {
    if guess < magic then TooLow else if guess > magic then TooHigh else NoHint
  }

  // ---------------------------------------------------------------
  // Reading a guess

  /** What `get_guess`'s loop reads: the first line whose `to_i` lies in
      `lo..hi` and the lines after it, or, when standard input runs out
      first (`gets` returns nil and `chomp` raises), the value of the last
      line read, if any. */
  datatype Read = Accepted(guess: int, rest: seq<string>) | Exhausted(last: Option<int>)

  /** A read of the remaining lines, after a rejected line whose value was
      `last`. */
  function Resume(r: Read, last: Option<int>): Read {
    if r == Exhausted(None) then Exhausted(last) else r
  }

  /** Whether `get_guess` accepts a line. */
  predicate Acceptable(line: string, lo: int, hi: int) {
    lo <= ToI(line) <= hi
  }

  /** `get_guess`'s loop. `to_i` ignores the newline `chomp` would remove,
      so the lines are read as they are. */
  function ReadGuess(lines: seq<string>, lo: int, hi: int): (r: Read)
    ensures r.Accepted? ==> lo <= r.guess <= hi && |r.rest| < |lines|
    decreases |lines|
  {
    if |lines| == 0 then Exhausted(None)
    else
      if Acceptable(lines[0], lo, hi) then Accepted(ToI(lines[0]), lines[1..])
      else Resume(ReadGuess(lines[1..], lo, hi), Some(ToI(lines[0])))
  }

  /** The line `get_guess` accepts is the first acceptable one, its value
      is the guess, and the lines after it are left unread. */
  lemma {:induction false} ReadGuessAccepts(lines: seq<string>, lo: int, hi: int)
    requires ReadGuess(lines, lo, hi).Accepted?
    ensures var r := ReadGuess(lines, lo, hi);
      var k := |lines| - |r.rest| - 1;
      && r.rest == lines[k + 1..] && r.guess == ToI(lines[k])
      && forall i :: 0 <= i < k ==> !Acceptable(lines[i], lo, hi)
    decreases |lines|
  {
    if !Acceptable(lines[0], lo, hi) {
      var tail := lines[1..];
      ReadGuessAccepts(tail, lo, hi);
      var r := ReadGuess(tail, lo, hi);
      assert ReadGuess(lines, lo, hi) == r;
      var k := |tail| - |r.rest| - 1;
      assert lines[k + 2..] == tail[k + 1..];
      assert lines[k + 1] == tail[k];
      forall i | 1 <= i < k + 1
        ensures !Acceptable(lines[i], lo, hi)
      {
        assert lines[i] == tail[i - 1];
      }
    } else {
      assert ReadGuess(lines, lo, hi) == Accepted(ToI(lines[0]), lines[1..]);
    }
  }

  /** Standard input runs out exactly when no line is acceptable, and
      `@guess` then holds the value of the last line. */
  lemma {:induction false} ReadGuessExhausts(lines: seq<string>, lo: int, hi: int)
    ensures ReadGuess(lines, lo, hi).Exhausted? <==> forall i :: 0 <= i < |lines| ==> !Acceptable(lines[i], lo, hi)
    ensures ReadGuess(lines, lo, hi).Exhausted? ==>
      ReadGuess(lines, lo, hi).last == if |lines| == 0 then None else Some(ToI(lines[|lines| - 1]))
    decreases |lines|
  {
    if |lines| > 0 && !Acceptable(lines[0], lo, hi) {
      var tail := lines[1..];
      ReadGuessExhausts(tail, lo, hi);
      assert forall i :: 1 <= i < |lines| ==> lines[i] == tail[i - 1];
    }
  }

  // ---------------------------------------------------------------
  // The game loop

  /** The fields `play` works on: `@guess`, `@guesses_remaining`, and the
      lines of standard input not read yet. */
  datatype PlayState = PlayState(guess: Option<int>, remaining: int, input: seq<string>)

  /** How `play` ends: a win, no guesses left, or standard input ran out
      (`gets` returned nil and the program stopped with an error). */
  datatype Ending = Won | Lost | InputEnded

  /** A whole game: how it ended, the guesses accepted in order, and the
      fields at the end. */
  datatype Game = Game(ending: Ending, guesses: seq<int>, last: PlayState)

  /** `play`: a guess is read and counted; the game is over when it is the
      magic number or when no guess remains; otherwise the next round
      starts. */
  function PlayFrom(magic: int, s: PlayState, lo: int, hi: int): Game
    decreases |s.input|
  {
    match ReadGuess(s.input, lo, hi)
    case Exhausted(last) =>
      Game(InputEnded, [], PlayState(if last.Some? then last else s.guess, s.remaining, []))
    case Accepted(g, rest) =>
      var s' := PlayState(Some(g), s.remaining - 1, rest);
      if g == magic then Game(Won, [g], s')
      else if s'.remaining == 0 then Game(Lost, [g], s')
      else
        var r := PlayFrom(magic, s', lo, hi);
        Game(r.ending, [g] + r.guesses, r.last)
  }

  /** Each accepted guess uses one; no more rounds are played than there
      were guesses left at the start, when there was at least one; a lost
      game has none left. */
  lemma {:induction false} PlayUsesBudget(magic: int, s: PlayState, lo: int, hi: int)
    ensures var g := PlayFrom(magic, s, lo, hi);
      && g.last.remaining == s.remaining - |g.guesses|
      && (s.remaining >= 1 ==> |g.guesses| <= s.remaining)
      && (g.ending == Lost ==> g.last.remaining == 0 && |g.guesses| == s.remaining)
    decreases |s.input|
  {
    match ReadGuess(s.input, lo, hi)
    case Exhausted(_) =>
    case Accepted(g, rest) =>
      var s' := PlayState(Some(g), s.remaining - 1, rest);
      if g != magic && s'.remaining != 0 {
        PlayUsesBudget(magic, s', lo, hi);
      }
  }

  /** The elements of `[x] + xs` after the first are those of `xs`. */
  lemma ConsShift<T>(x: T, xs: seq<T>)
    ensures |[x] + xs| == |xs| + 1 && ([x] + xs)[0] == x
    ensures forall i :: 0 <= i < |xs| ==> ([x] + xs)[i + 1] == xs[i]
  {
  }

  /** Every accepted guess lies in `lo..hi`; only the last one can be the
      magic number, and the game is won exactly when it is. */
  lemma {:induction false} PlayWinsOnMagic(magic: int, s: PlayState, lo: int, hi: int)
    ensures var g := PlayFrom(magic, s, lo, hi);
      && (forall i :: 0 <= i < |g.guesses| ==> lo <= g.guesses[i] <= hi)
      && (forall i :: 0 <= i < |g.guesses| - 1 ==> g.guesses[i] != magic)
      && (g.ending == Won <==> |g.guesses| > 0 && g.guesses[|g.guesses| - 1] == magic)
      && (g.ending == Won ==> g.last.guess == Some(magic))
      && (g.ending != InputEnded ==> |g.guesses| > 0 && g.last.guess == Some(g.guesses[|g.guesses| - 1]))
    decreases |s.input|
  {
    match ReadGuess(s.input, lo, hi)
    case Exhausted(_) =>
    case Accepted(g, rest) =>
      var s' := PlayState(Some(g), s.remaining - 1, rest);
      if g != magic && s'.remaining != 0 {
        PlayWinsOnMagic(magic, s', lo, hi);
        var r := PlayFrom(magic, s', lo, hi);
        var gs := [g] + r.guesses;
        assert PlayFrom(magic, s, lo, hi) == Game(r.ending, gs, r.last);
        ConsShift(g, r.guesses);
        if r.ending != InputEnded {
          assert gs[|gs| - 1] == r.guesses[|r.guesses| - 1];
        }
      }
  }

  /** A magic number the accepted range does not contain is never
      guessed. */
  lemma CannotWinOutside(magic: int, s: PlayState, lo: int, hi: int)
    requires magic < lo || hi < magic
    ensures PlayFrom(magic, s, lo, hi).ending != Won
  {
    PlayWinsOnMagic(magic, s, lo, hi);
  }

  /** A game still holding a guess, whose next line is the magic number
      written out, is won on that line when the range accepts the magic
      number. */
  lemma GuessingMagicWins(magic: int, s: PlayState, rest: seq<string>, lo: int, hi: int)
    requires lo <= magic <= hi
    requires s.input == [IntToString(magic)] + rest
    ensures PlayFrom(magic, s, lo, hi) == Game(Won, [magic], PlayState(Some(magic), s.remaining - 1, rest))
  {
    ToIRoundTrip(magic);
    assert s.input[0] == IntToString(magic) && s.input[1..] == rest;
  }

  /** A game `s0` whose first rounds accepted `guesses` and now stands at
      `s`: this round's accepted guess `g`, leading to `s'`, joins them. */
  predicate PlayedUpTo(magic: int, s0: PlayState, guesses: seq<int>, s: PlayState, lo: int, hi: int) {
    var p := PlayFrom(magic, s, lo, hi);
    PlayFrom(magic, s0, lo, hi) == Game(p.ending, guesses + p.guesses, p.last)
  }

  /** A round that accepts a guess which neither wins nor uses the last
      one leaves the game to be played on from the next state. */
  lemma RoundGoesOn(magic: int, s0: PlayState, guesses: seq<int>, s: PlayState, g: int, s': PlayState, lo: int, hi: int)
    requires PlayedUpTo(magic, s0, guesses, s, lo, hi)
    requires ReadGuess(s.input, lo, hi) == Accepted(g, s'.input)
    requires s' == PlayState(Some(g), s.remaining - 1, s'.input)
    requires g != magic && s'.remaining != 0
    ensures PlayedUpTo(magic, s0, guesses + [g], s', lo, hi)
  {
    var r := PlayFrom(magic, s', lo, hi);
    assert PlayFrom(magic, s, lo, hi) == Game(r.ending, [g] + r.guesses, r.last);
    assert guesses + ([g] + r.guesses) == (guesses + [g]) + r.guesses;
  }

  /** A round that accepts the magic number or the last guess ends the
      game there. */
  lemma RoundEnds(magic: int, s0: PlayState, guesses: seq<int>, s: PlayState, g: int, s': PlayState, lo: int, hi: int)
    requires PlayedUpTo(magic, s0, guesses, s, lo, hi)
    requires ReadGuess(s.input, lo, hi) == Accepted(g, s'.input)
    requires s' == PlayState(Some(g), s.remaining - 1, s'.input)
    requires g == magic || s'.remaining == 0
    ensures PlayFrom(magic, s0, lo, hi) == Game(if g == magic then Won else Lost, guesses + [g], s')
  {
  }

  /** A round whose input runs out ends the game with the guesses so
      far. */
  lemma RoundRunsOut(magic: int, s0: PlayState, guesses: seq<int>, s: PlayState, lo: int, hi: int)
    requires PlayedUpTo(magic, s0, guesses, s, lo, hi)
    requires ReadGuess(s.input, lo, hi).Exhausted?
    ensures var last := ReadGuess(s.input, lo, hi).last;
      PlayFrom(magic, s0, lo, hi) ==
        Game(InputEnded, guesses, PlayState(if last.Some? then last else s.guess, s.remaining, []))
  {
    assert guesses + [] == guesses;
  }

  /** The hints `play` gives: one for each accepted guess except a
      winning last one. */
  predicate HintsFor(hints: seq<Hint>, guesses: seq<int>, magic: int, won: bool) {
    && |hints| == |guesses| - (if won then 1 else 0)
    && forall i :: 0 <= i < |hints| ==> hints[i] == HintFor(guesses[i], magic)
  }

  /** One more accepted guess: a hint for it keeps one hint per guess, and
      no hint for it is right when it won. */
  lemma HintsGrow(hints: seq<Hint>, guesses: seq<int>, g: int, magic: int)
    requires HintsFor(hints, guesses, magic, false)
    ensures HintsFor(hints + [HintFor(g, magic)], guesses + [g], magic, false)
    ensures HintsFor(hints, guesses + [g], magic, true)
  {
    var gs := guesses + [g];
    assert forall i :: 0 <= i < |guesses| ==> gs[i] == guesses[i];
  }

  // ---------------------------------------------------------------
  // The object

  class GuessingGame {
    const magicNumber: int
    var guess: Option<int>
    var guessesRemaining: int
    /** Standard input: the lines `gets` has not read yet. */
    var input: seq<string>

    function State(): PlayState
      reads this
    {
      PlayState(guess, guessesRemaining, input)
    }

    /** `initialize`: seven guesses, no guess yet, and a magic number
        sampled from 1..100. */
    constructor (input: seq<string>)
      ensures LOW <= magicNumber <= HIGH
      ensures guess == None && guessesRemaining == NUMBER_OF_GUESSES && this.input == input
    {
      var range := RangeToA(LOW, HIGH);
      assert range[0] == LOW;
      var m := Sample(range);
      magicNumber := m;
      guess := None;
      guessesRemaining := NUMBER_OF_GUESSES;
      this.input := input;
    }

    /** `player_won?` */
    predicate PlayerWon()
      reads this
    {
      guess == Some(magicNumber)
    }

    /** `no_more_guesses?` */
    predicate NoMoreGuesses()
      reads this
    {
      guessesRemaining == 0
    }

    /** `game_over?` */
    predicate GameOver()
      reads this
    {
      PlayerWon() || NoMoreGuesses()
    }

    /** `get_guess`: lines are read until one lies in 1..100, then one
        guess is used up. `read` is false when standard input ran out
        first; the last value read is then left in `@guess`. */
    method GetGuess() returns (read: bool)
      modifies this
      ensures read <==> ReadGuess(old(input), LOW, HIGH).Accepted?
      ensures read ==> (guess == Some(ReadGuess(old(input), LOW, HIGH).guess) &&
        input == ReadGuess(old(input), LOW, HIGH).rest && guessesRemaining == old(guessesRemaining) - 1)
      ensures !read ==> (input == [] && guessesRemaining == old(guessesRemaining) &&
        guess == (if ReadGuess(old(input), LOW, HIGH).last.Some? then ReadGuess(old(input), LOW, HIGH).last else old(guess)))
    {
      ghost var consumed := 0;
      while |input| > 0
        invariant 0 <= consumed <= |old(input)| && input == old(input)[consumed..]
        invariant guessesRemaining == old(guessesRemaining)
        invariant consumed == 0 ==> guess == old(guess)
        invariant ReadGuess(old(input), LOW, HIGH) ==
          Resume(ReadGuess(input, LOW, HIGH), if consumed == 0 then None else guess)
        decreases |input|
      {
        ghost var before := input;
        var line := input[0];
        input := input[1..];
        consumed := consumed + 1;
        assert input == old(input)[consumed..];
        guess := Some(ToI(line));
        assert ReadGuess(before, LOW, HIGH) == if LOW <= guess.value <= HIGH then Accepted(guess.value, input)
          else Resume(ReadGuess(input, LOW, HIGH), guess);
        if LOW <= guess.value <= HIGH {
          guessesRemaining := guessesRemaining - 1;
          return true;
        }
      }
      return false;
    }

    /** `give_hint`; comparing nil would raise, so a guess must have been
        read. */
    method GiveHint() returns (hint: Hint)
      requires guess.Some?
      ensures hint == HintFor(guess.value, magicNumber)
      ensures hint == TooLow <==> guess.value < magicNumber
      ensures hint == TooHigh <==> guess.value > magicNumber
    {
      if guess.value < magicNumber {
        hint := TooLow;
      } else if guess.value > magicNumber {
        hint := TooHigh;
      } else {
        hint := NoHint;
      }
    }

    /** `play`: rounds of `get_guess`, `give_hint unless player_won?` and
        `break if game_over?`. The accepted guesses and the hints are
        returned. */
    method Play() returns (ending: Ending, guesses: seq<int>, hints: seq<Hint>)
      modifies this
      ensures PlayFrom(magicNumber, old(State()), LOW, HIGH) == Game(ending, guesses, State())
      ensures HintsFor(hints, guesses, magicNumber, ending == Won)
      ensures ending != InputEnded ==> (ending == Won <==> PlayerWon())
      ensures ending == Lost ==> NoMoreGuesses()
      ensures old(guessesRemaining) >= 1 ==> |guesses| <= old(guessesRemaining)
      ensures old(guessesRemaining) == NUMBER_OF_GUESSES ==> |guesses| <= NUMBER_OF_GUESSES
    {
      ghost var s0 := State();
      guesses := [];
      hints := [];
      while true
        invariant PlayedUpTo(magicNumber, s0, guesses, State(), LOW, HIGH)
        invariant HintsFor(hints, guesses, magicNumber, false)
        decreases |input|
      {
        ghost var before := State();
        ghost var prior := guesses;
        var read := GetGuess();
        if !read {
          ending := InputEnded;
          RoundRunsOut(magicNumber, s0, prior, before, LOW, HIGH);
          break;
        }
        var g := guess.value;
        HintsGrow(hints, guesses, g, magicNumber);
        guesses := guesses + [g];
        if !PlayerWon() {
          var h := GiveHint();
          hints := hints + [h];
        }
        if GameOver() {
          ending := if PlayerWon() then Won else Lost;
          RoundEnds(magicNumber, s0, prior, before, g, State(), LOW, HIGH);
          break;
        }
        RoundGoesOn(magicNumber, s0, prior, before, g, State(), LOW, HIGH);
      }
      PlayUsesBudget(magicNumber, s0, LOW, HIGH);
      PlayWinsOnMagic(magicNumber, s0, LOW, HIGH);
    }
  }
}
