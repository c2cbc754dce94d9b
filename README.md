# Ruby exercise games, modelled in Dafny

This project models the game logic of a collection of small Ruby console
exercises, and proves what each promises. Console input becomes method
parameters. Random choices (`sample`, `shuffle!`) become unconstrained
choices whose results are only known to be members of the sampled list,
or a permutation in the case of a shuffle.

What is modelled, module by module:

- `TicTacToe` (ttt_board.dfy): the board of lesson_5/oo_ttt_bonus.rb,
  whose code is shared with the older copy lesson_5/delete/ttt_bonus.rb.
  It holds:
  - the nine squares as objects changed in place, keyed 1..9;
  - the eight winning lines, `winning_marker`, `someone_won?`,
    `unmarked_keys` and `full?`;
  - the computer's `find_winning_square` and `best_move`.
- `TicTacToeGame` (ttt_game.dfy): the game of oo_ttt_bonus.rb.
  - Turn taking, with `:choose` after a reset.
  - Scoring to five (`>=`), the computer's move, and `joiner`.
- `TicTacToeOldGame` (ttt_game_old.dfy): the game of delete/ttt_bonus.rb.
  - Fixed markers "X" and "O", with X first after every board reset.
  - Scoring with an exact test for five, and the score resets.
- The Rock-Paper-Scissors-Lizard-Spock variants of lesson_2:
  - `RpsMoves` (rps_moves.dfy): the moves, the string names, `>` in its
    predicate and subclass forms, and `<`.
  - `RpsStrategies` (rps_strategies.dfy): the computer strategies.
  - `RpsGame` (rps_game.dfy): the personalities, the history and the
    first-to-five games.
  - `RpsGameTen` (rps_game_ten.dfy): the first-to-ten game of
    rps_bonus_features_1.rb, with its own numbered history.
  - `RpsWorking` (rps_working.dfy): working.rb's argmax over the log.
- `TwentyOne` (twenty_one.dfy): lesson_5/twenty_one.rb. It covers:
  - card values, hand totals and busts;
  - the deck, built rank by rank and suit by suit and dealt by `pop`;
  - the opening deal, `hit`, the dealer's turn, the result and the reset.
- `Poker` (poker.dfy): lesson_5/medium_1/10.rb. It covers:
  - the self-refilling deck, card values and `<=>`;
  - the hand classifier, and the ten hands of its inline checks.
- `StackMachine` (minilang.dfy): the Minilang interpreter of
  lesson_5/medium_1/5.rb.
  - A register and a stack of possibly-nil values.
  - The errors Ruby would raise, and the sample programs of the file.
- `CircularBuffer` (circular_queue.dfy): the circular queue of
  lesson_5/medium_1/4.rb, and its two sample runs.
- `Guesser` (guesser.dfy) and `RangeGuesser` (range_guesser.dfy): the
  number guessers of lesson_5/medium_1/6.rb and 7.rb.
  - Each game is a state machine fed by lines of input.
  - It has a guess budget and gives hints.
- `Banners` (banner.dfy): the boxed banner of
  lesson_5/exercises/easy_1/1_further.rb.
- `Vehicles` (vehicle.dfy): lesson_1/my_car.rb.
  - The class-wide vehicle counter, speed changes and repainting.
  - The integer mileage and the printed descriptions.
- `Util` (util.dfy) and `RubyString` (ruby_string.dfy): the Ruby library
  behaviour the models rely on.
  - Floored `/` and `%`, `count` and `sample`.
  - `to_i`, `to_s`, `split` and `join`. `to_i` skips leading white space,
    reads an optional sign and then the digits, with the underscores
    allowed between digits and the base-10 prefix `0d` or `0D`.

Where the code and its comments disagree, the model follows the code:

- twenty_one.rb lowers an ace only for the rank `'Ace'`. The ranks are
  `'A'`, so an ace always counts 11 (`TwentyOne.TotalIsPlainSum`).
- `find_winning_square` never stops its loop. When several lines qualify,
  the last one in table order wins.
- Minilang's comments promise "Empty stack!" and "Invalid token"
  messages. In the code, `POP` on an empty stack leaves nil in the
  register, so a later `PRINT` prints an empty line. An unknown token is
  skipped.
- The circular queue with no slots raises on `enqueue`. Its `dequeue`
  grows the row to one nil slot.
- A banner with a negative width raises in `String#*`. Here that is `None`.
- A guesser whose input runs out ends the game with a distinct
  `InputEnded` result.

## Model

| member | source | states |
|---|---|---|
| Util.FloorDiv | lesson_5/medium_1/5.rb:17 | `Integer#/` rounds toward negative infinity: for a positive divisor `b*q <= a < b*q + b`, for a negative one `b*q + b < a <= b*q` |
| Util.FloorMod | lesson_5/medium_1/5.rb:18 | `Integer#%` completes the floored division (`a == b*q + r`) and has the divisor's sign: `0 <= r < b` or `b < r <= 0` |
| Util.CountBounds | lesson_5/medium_1/10.rb:138-140 | `Array#count(x)` is at most the length and is zero exactly when x does not occur |
| Util.CountAppend | lesson_5/medium_1/10.rb:138-140 | counting distributes over concatenation |
| Util.DistinctInit | lesson_5/medium_1/10.rb:22-24 | a deck without repeats loses no distinctness when its last card is dropped, and that card is not among the rest |
| Util.Sample | lesson_5/medium_1/6.rb:10 | `Array#sample` returns an element of the non-empty array |
| Util.Shuffle | lesson_5/twenty_one.rb:97 | `shuffle!` gives the same cards, with the same multiplicities, in some order |
| RubyString.DigitChar | lesson_5/medium_1/5.rb:21 | the digit character written for 0..9 is a digit and reads back as that value |
| RubyString.SkipSpace | lesson_5/medium_1/5.rb:21 | `to_i` skips the white space at the front: every dropped character is white space, and what is left is a suffix that does not start with a blank |
| RubyString.ToISkipsSpace | lesson_5/medium_1/5.rb:21 | `to_i` reads the number after exactly the white space `SkipSpace` drops |
| RubyString.MagnitudeNoDigit | lesson_5/medium_1/6.rb:30 | after the sign, text that does not start with a digit reads as 0 |
| RubyString.NoDigitIsZero | lesson_5/medium_1/6.rb:30 | `to_i` of a line without a digit is 0 |
| RubyString.NatToString | lesson_5/medium_1/5.rb:20 | `puts` of a number writes a non-empty run of digits |
| RubyString.UnsignedNatToString | lesson_5/medium_1/5.rb:21 | the digits of a natural number read back as that number |
| RubyString.ToIRoundTrip | lesson_5/medium_1/5.rb:21 | `to_i` reads back what `Integer#to_s` writes, for every integer, negative ones included |
| RubyString.ToIUnspaced | lesson_5/medium_1/5.rb:21 | `to_i` of a string that starts with `-` is minus the number after it; one that starts with a digit reads its leading digits, or the digits after a `0d` or `0D` prefix |
| RubyString.ToINegative | lesson_5/medium_1/5.rb:21 | `to_i` of a string that starts with `-` is minus the number after the sign |
| RubyString.ToINonNegative | lesson_5/medium_1/5.rb:21 | `to_i` of a string that starts with a digit is the number read from there, prefix included |
| RubyString.MagnitudePrefix | lesson_5/medium_1/6.rb:30 | the digits of a natural number written at the front read back, when the text after them cannot continue the number |
| RubyString.WrittenNumberHasNoPrefix | lesson_5/medium_1/5.rb:21 | the decimal form of a number never starts with the `0d` prefix, and text after it can add one only after a lone `0` |
| RubyString.PrefixedRead | lesson_5/medium_1/6.rb:30 | after `0d` or `0D`, `to_i` reads the digits that follow (0 when none do) |
| RubyString.NegativePrefixedRead | lesson_5/medium_1/6.rb:30 | after `-0d` or `-0D`, `to_i` reads minus the digits that follow |
| RubyString.DecimalPrefixRead | lesson_5/medium_1/5.rb:21 | a number written after `0d` or `0D`, with or without a minus sign, is read back by `to_i`: "0d5" is 5, as in Ruby |
| RubyString.DecimalPrefixAlone | lesson_5/medium_1/6.rb:30 | `0d` followed by no digit reads as 0 |
| RubyString.ToIPrefix | lesson_5/medium_1/6.rb:30 | a number written at the front of a line is read back by `to_i` whatever text follows it, as long as that text cannot continue the number (no digit, no underscore, and after a lone `0` no `d` or `D` before a digit) |
| RubyString.SplitWords | lesson_5/medium_1/5.rb:11 | every field `String#split` returns is a non-empty word without white space |
| RubyString.SplitTrailingSpace | lesson_5/medium_1/5.rb:45 | a trailing blank adds no field to `split` |
| RubyString.IntToStringIsWord | lesson_5/medium_1/5.rb:11 | the decimal form of an integer is one word of `split` |
| RubyString.JoinSnoc | lesson_5/exercises/easy_1/1_further.rb:12 | `Array#join(sep)` with one more element appends the separator and that element |
| RubyString.SplitJoin | lesson_5/medium_1/5.rb:11 | splitting words joined by single blanks gives the words back |
| RubyString.FieldsJoin | lesson_5/exercises/easy_1/1_further.rb:12 | cutting a `join(c)` at `c` gives back the pieces, when no piece contains `c` |
| StackMachine.Apply | lesson_5/medium_1/5.rb:14-18 | `register op= stack.pop` raises exactly when the register or the popped value is nil, or on DIV/MOD by zero; the error says which side was nil |
| StackMachine.DivModAgree | lesson_5/medium_1/5.rb:17-18 | DIV and MOD by the same non-zero top never raise, recombine to the register (`a == b*q + r`) and the remainder has the divisor's sign |
| StackMachine.RunAppend | lesson_5/medium_1/5.rb:11-23 | running two command lists one after the other is running their concatenation; an error in the first stops the whole run |
| StackMachine.PushPop | lesson_5/medium_1/5.rb:13-19 | `PUSH` then `POP` leaves the machine as it was and prints nothing |
| StackMachine.StepNumber | lesson_5/medium_1/5.rb:21 | a command that holds a digit and starts with a digit or `-` loads its `to_i` into the register, stack unchanged |
| StackMachine.NumberShape | lesson_5/medium_1/5.rb:21 | the decimal form of an integer starts with a digit or `-` and holds a digit, so `when /\d/` matches it |
| StackMachine.LoadNumber | lesson_5/medium_1/5.rb:21 | the decimal form of any integer loads exactly that integer |
| StackMachine.StepPush | lesson_5/medium_1/5.rb:13 | `PUSH` appends the register to the stack |
| StackMachine.StepPop | lesson_5/medium_1/5.rb:19 | `POP` moves the top into the register, nil from an empty stack |
| StackMachine.StepPrint | lesson_5/medium_1/5.rb:20 | `PRINT` prints the register and changes nothing |
| StackMachine.StepSkip | lesson_5/medium_1/5.rb:12-22 | a token that is no keyword and holds no digit matches no `when` and changes nothing |
| StackMachine.ArithmeticKeywords | lesson_5/medium_1/5.rb:14-18 | ADD, SUB, MULT, DIV and MOD name the five operations |
| StackMachine.ArithmeticUsesTop | lesson_5/medium_1/5.rb:14-18 | an arithmetic command on a numeric register and top pops the top and stores `register op top` |
| StackMachine.ArithmeticOnEmptyStack | lesson_5/medium_1/5.rb:14-18 | an arithmetic command on an empty stack pops nil and raises |
| StackMachine.Minilang.constructor | lesson_5/medium_1/5.rb:4-8 | the register starts at 0 and the stack empty |
| StackMachine.Minilang.Pop | lesson_5/medium_1/5.rb:14-19 | `@stack.pop` returns the top (nil when empty) and removes it |
| StackMachine.Minilang.Execute | lesson_5/medium_1/5.rb:12-22 | one pass of the `case` moves the object's state exactly as the command's step does, or stops with its error |
| StackMachine.Minilang.Eval | lesson_5/medium_1/5.rb:10-24 | `eval` ends in the state, output and error of running the words of `split` in order |
| StackMachine.RunText | lesson_5/medium_1/5.rb:11 | a program written as words joined by blanks runs exactly those words |
| StackMachine.RunCons | lesson_5/medium_1/5.rb:11-23 | a run that starts with a command that does not raise is that command's output followed by the rest of the run |
| StackMachine.ProgramPrint | lesson_5/medium_1/5.rb:27 | `PRINT` prints the starting 0 |
| StackMachine.ProgramMult | lesson_5/medium_1/5.rb:30 | `a PUSH b MULT PRINT` prints `b*a` (15 for 5 and 3) and empties the stack |
| StackMachine.ProgramAdd | lesson_5/medium_1/5.rb:33 | `a PRINT PUSH b PRINT ADD PRINT` prints a, b and `b+a` (5, 3, 8) |
| StackMachine.ProgramPop | lesson_5/medium_1/5.rb:38 | `a PUSH b PRINT POP PRINT` prints b and then a (10, 5) |
| StackMachine.ProgramEmptyPop | lesson_5/medium_1/5.rb:42 | `a PUSH POP POP PRINT` leaves nil in the register and prints nil without raising |
| StackMachine.ProgramDiv | lesson_5/medium_1/5.rb:45 | `a PUSH PUSH b DIV MULT PRINT` prints `floor(b/a)*a` (6 for 3 and 7) |
| StackMachine.ProgramMod | lesson_5/medium_1/5.rb:48 | `a PUSH PUSH b MOD MULT PRINT` prints `(b mod a)*a` (12 for 4 and 7) |
| StackMachine.ProgramUnknown | lesson_5/medium_1/5.rb:51 | `XSUB` is skipped: b is printed and a stays on the stack |
| StackMachine.ProgramSub | lesson_5/medium_1/5.rb:54 | `a PUSH b SUB PRINT` prints `b-a` (8 for -3 and 5) |
| StackMachine.ProgramNoPrint | lesson_5/medium_1/5.rb:57 | `a PUSH` prints nothing and leaves a in the register and on the stack |
| CircularBuffer.Present | lesson_5/medium_1/4.rb:5 | the elements held are at most as many as the slots |
| CircularBuffer.FirstOccupied | lesson_5/medium_1/4.rb:21-26 | the index found is the first occupied slot: all slots before it are empty, and it is occupied unless it is the end |
| CircularBuffer.PresentAppend | lesson_5/medium_1/4.rb:9-10 | the elements held by two rows side by side are those of the first followed by those of the second |
| CircularBuffer.PresentFromFirst | lesson_5/medium_1/4.rb:14 | the oldest element held is the one in the first occupied slot |
| CircularBuffer.EmptySlots | lesson_5/medium_1/4.rb:5 | `Array.new(n)` is n nil slots |
| CircularBuffer.EmptyRow | lesson_5/medium_1/4.rb:4-6 | a new queue holds nothing and is well shaped |
| CircularBuffer.EnqueueIsFifo | lesson_5/medium_1/4.rb:8-11 | `enqueue` keeps the shape and appends the element; on a full row the oldest element is dropped |
| CircularBuffer.DequeueIsFifo | lesson_5/medium_1/4.rb:13-17 | `dequeue` on a non-empty queue returns the oldest element and removes exactly it, keeping the shape |
| CircularBuffer.DequeueNothing | lesson_5/medium_1/4.rb:13-17 | `dequeue` on an empty queue returns nil and changes nothing, except that a 0-slot row grows one nil slot |
| CircularBuffer.CircularQueue.constructor | lesson_5/medium_1/4.rb:4-6 | n empty slots, holding nothing |
| CircularBuffer.CircularQueue.Enqueue | lesson_5/medium_1/4.rb:8-11 | rotate then write the last slot: contents gain the element at the back (the oldest dropped when full); a 0-slot queue raises IndexError |
| CircularBuffer.CircularQueue.OldestElementIndex | lesson_5/medium_1/4.rb:21-26 | the walk returns the first occupied slot, 0 when there is none |
| CircularBuffer.CircularQueue.Dequeue | lesson_5/medium_1/4.rb:13-17 | returns the oldest element and removes it; nil and no change on an empty queue |
| CircularBuffer.FirstIs | lesson_5/medium_1/4.rb:22-24 | empty slots up to an occupied one (or the end) make it the first occupied |
| CircularBuffer.RunOfThreeLine30 | lesson_5/medium_1/4.rb:30 | dequeue of a fresh queue of 3 is nil |
| CircularBuffer.RunOfThreeLine33 | lesson_5/medium_1/4.rb:31-33 | after enqueuing 1 and 2 the dequeue is 1 |
| CircularBuffer.RunOfThreeLine36 | lesson_5/medium_1/4.rb:34-36 | after enqueuing 3 and 4 the dequeue is 2 |
| CircularBuffer.RunOfThreeLine41 | lesson_5/medium_1/4.rb:38-41 | enqueuing 5, 6, 7 into 3 slots drops 3 and 4; the dequeue is 5 |
| CircularBuffer.RunOfThreeLine42 | lesson_5/medium_1/4.rb:42 | the dequeue is 6 |
| CircularBuffer.RunOfThreeLine43 | lesson_5/medium_1/4.rb:43 | the dequeue is 7 |
| CircularBuffer.RunOfThreeLine44 | lesson_5/medium_1/4.rb:44 | the emptied queue dequeues nil |
| CircularBuffer.RunOfThree | lesson_5/medium_1/4.rb:29-44 | the seven dequeues print true: nil, 1, 2, 5, 6, 7, nil |
| CircularBuffer.RunOfFourLine47 | lesson_5/medium_1/4.rb:46-47 | dequeue of a fresh queue of 4 is nil |
| CircularBuffer.RunOfFourLine51 | lesson_5/medium_1/4.rb:49-51 | after enqueuing 1 and 2 the dequeue is 1 |
| CircularBuffer.RunOfFourLine55 | lesson_5/medium_1/4.rb:53-55 | after enqueuing 3 and 4 the dequeue is 2 |
| CircularBuffer.RunOfFourLine60 | lesson_5/medium_1/4.rb:57-60 | enqueuing 5, 6, 7 into 4 slots drops 3; the dequeue is 4 |
| CircularBuffer.RunOfFourLine61 | lesson_5/medium_1/4.rb:61 | the dequeue is 5 |
| CircularBuffer.RunOfFourLine62 | lesson_5/medium_1/4.rb:62 | the dequeue is 6 |
| CircularBuffer.RunOfFourLine63 | lesson_5/medium_1/4.rb:63 | the dequeue is 7 |
| CircularBuffer.RunOfFourLine64 | lesson_5/medium_1/4.rb:64 | the emptied queue dequeues nil |
| CircularBuffer.RunOfFour | lesson_5/medium_1/4.rb:46-64 | the seven dequeues print true: nil, 1, 2, 4, 5, 6, 7 and nil |
| Guesser.RangeToA | lesson_5/medium_1/6.rb:10 | `(lo..hi).to_a` lists lo, lo+1, ..., hi, empty when lo > hi |
| Guesser.HintFor | lesson_5/medium_1/6.rb:37-43 | too low exactly below the magic number, too high exactly above it, no hint exactly on it |
| Guesser.ReadGuess | lesson_5/medium_1/6.rb:27-35 | an accepted guess lies in the range and consumes at least one line |
| Guesser.ReadGuessAccepts | lesson_5/medium_1/6.rb:28-33 | the accepted line is the first acceptable one, every line before it is rejected, and the guess is its `to_i` |
| Guesser.ReadGuessExhausts | lesson_5/medium_1/6.rb:28-33 | input runs out exactly when no line is acceptable; `@guess` is then the `to_i` of the last line (unchanged when there was none) |
| Guesser.PlayUsesBudget | lesson_5/medium_1/6.rb:13-21 | each accepted guess uses one; no more rounds than guesses left; a lost game has used them all |
| Guesser.PlayWinsOnMagic | lesson_5/medium_1/6.rb:13-21 | every guess is in the range, only the last can be the magic number, and the game is won exactly when it is |
| Guesser.CannotWinOutside | lesson_5/medium_1/6.rb:27-35 | a magic number outside the accepted range is never guessed |
| Guesser.GuessingMagicWins | lesson_5/medium_1/6.rb:16-18 | typing the magic number wins that round, with one guess used |
| Guesser.GuessingGame.constructor | lesson_5/medium_1/6.rb:7-11 | seven guesses, no guess, a magic number in 1..100 |
| Guesser.GuessingGame.GetGuess | lesson_5/medium_1/6.rb:27-35 | reads lines until one lies in 1..100 and uses one guess; when input runs out the last value read stays in `@guess` |
| Guesser.GuessingGame.GiveHint | lesson_5/medium_1/6.rb:37-43 | the hint matches the comparison of guess and magic number |
| Guesser.GuessingGame.Play | lesson_5/medium_1/6.rb:13-21 | `play` follows the game function: the guesses, how it ended, one hint per guess except a winning last one, no more than seven rounds |
| RangeGuesser.Pow2 | lesson_5/medium_1/7.rb:9 | powers of two are positive |
| RangeGuesser.Pow2Monotone | lesson_5/medium_1/7.rb:9 | powers of two grow with the exponent |
| RangeGuesser.FloorLog2 | lesson_5/medium_1/7.rb:9 | `Math.log2(n).to_i` is the k with `2^k <= n < 2^(k+1)` |
| RangeGuesser.BudgetIsHalvingCount | lesson_5/medium_1/7.rb:9 | the budget is the least k with `2^k` above the range size |
| RangeGuesser.BudgetOfHundred | lesson_5/medium_1/7.rb:5-10 | for 1..100 the budget is seven, as in 6.rb |
| RangeGuesser.GuessingGame.constructor | lesson_5/medium_1/7.rb:5-10 | the range is kept, the magic number lies in it, the budget is `log2(size)+1` |
| RangeGuesser.GuessingGame.GetGuessWithin | lesson_5/medium_1/7.rb:26-34 | reads lines until one lies in the given range and uses one guess; on running out the last value stays |
| RangeGuesser.GuessingGame.GetGuess | lesson_5/medium_1/7.rb:26-34 | as written: the accepted range is 1..100 whatever the game's range |
| RangeGuesser.GuessingGame.GetGuessInRange | lesson_5/medium_1/7.rb:26-34 | corrected: the accepted range is the game's own |
| RangeGuesser.GuessingGame.GiveHint | lesson_5/medium_1/7.rb:36-42 | the hint matches the comparison of guess and magic number |
| RangeGuesser.GuessingGame.PlayWithin | lesson_5/medium_1/7.rb:12-20 | `play` follows the game function, one hint per guess except a winning last one, and no more rounds than the budget |
| RangeGuesser.GuessingGame.Play | lesson_5/medium_1/7.rb:26-34 | as written: a magic number outside 1..100 can never be won |
| RangeGuesser.GuessingGame.PlayInRange | lesson_5/medium_1/7.rb:12-20 | corrected: `play` checking the game's own range |
| RangeGuesser.HighRangeUnwinnable | lesson_5/medium_1/7.rb:30 | for the range 200..300 as written no input wins |
| RangeGuesser.HighRangeWinnable | lesson_5/medium_1/7.rb:12-20 | with the range check corrected, typing the magic number of 200..300 wins |
| Banners.NewBanner | lesson_5/exercises/easy_1/1_further.rb:6-9 | the width defaults to the message's length, else is the given one |
| Banners.Repeat | lesson_5/exercises/easy_1/1_further.rb:17-23 | `c * n` is n copies of c |
| Banners.Take | lesson_5/exercises/easy_1/1_further.rb:26 | `message[0, width]` is the prefix of length `min(width, length)` |
| Banners.ToS | lesson_5/exercises/easy_1/1_further.rb:11-13 | `to_s` exists exactly for a non-negative width (otherwise `String#*` raises) |
| Banners.FrameLines | lesson_5/exercises/easy_1/1_further.rb:17-23 | the rule is a plus sign, dashes and a plus sign, the empty line a bar, blanks and a bar, both four wider than the width |
| Banners.MessageLineCuts | lesson_5/exercises/easy_1/1_further.rb:25-27 | the message line is a bar and a blank, the message cut to the width, and a blank and a bar, never padded |
| Banners.DefaultWidthIsRectangle | lesson_5/exercises/easy_1/1_further.rb:6-9 | with the default width all five lines are the message's length plus four |
| Banners.ToSHasFiveLines | lesson_5/exercises/easy_1/1_further.rb:12 | cutting `to_s` at its newlines gives back the five lines for a message without newlines |
| Banners.WholeMessageBanner | lesson_5/exercises/easy_1/1_further.rb:30-31 | the first banner is 42 wide, lines of 46, with the whole message |
| Banners.CutMessageBanner | lesson_5/exercises/easy_1/1_further.rb:33-34 | the second banner cuts the message to "To boldly go where no one" with lines of 29 |
| Vehicles.NumberReadsBack | lesson_1/my_car.rb:21-23 | a number interpolated between a prefix and text that cannot continue it reads back with `to_i` |
| Vehicles.VehiclesMessageReadsBack | lesson_1/my_car.rb:21-23 | the count can be read back from `number_of_vehicles`'s message |
| Vehicles.CalculateMileage | lesson_1/my_car.rb:47-49 | the message exists exactly when gallons is non-zero (`miles / 0` raises ZeroDivisionError) |
| Vehicles.MileageReadsBack | lesson_1/my_car.rb:47-49 | the number in the message is Ruby's floored quotient: for positive gallons `g*q <= miles < g*q + g` |
| Vehicles.SmallMileage | lesson_1/my_car.rb:92 | 13 miles on 351 gallons gives "Mileage: 0 per gallon." |
| Vehicles.CarDescriptionReadsBack | lesson_1/my_car.rb:77-79 | `MyCar#to_s` starts with "I'm a car. I'm a " and the year, which reads back whatever the model and color |
| Vehicles.VehicleRegistry.constructor | lesson_1/my_car.rb:11 | `@@number_of_vehicles` starts at 0 with no vehicle built |
| Vehicles.Vehicle.constructor | lesson_1/my_car.rb:13-19 | year, color and model are kept, the speed is 0, and the class-wide count goes up by one, keeping it equal to the number of vehicles built |
| Vehicles.Vehicle.SpeedUp | lesson_1/my_car.rb:25-28 | the speed goes up by `number` and nothing else changes |
| Vehicles.Vehicle.Brake | lesson_1/my_car.rb:30-33 | the speed goes down by `number`, below zero if need be, and nothing else changes |
| Vehicles.Vehicle.SprayPaint | lesson_1/my_car.rb:43-45 | only the color changes, to the new one |
| Vehicles.Stella | lesson_1/my_car.rb:82-94 | the run: speeds 20, 50, 30, 0, the mileage message, the purple CR-V of 2002, and one more vehicle counted |
| TwentyOne.RanksAreCardValueKeys | lesson_5/twenty_one.rb:111-115 | `RANKS = CARD_VALUES.keys` has the thirteen ranks, exactly the keys; "Ace" is not one of them |
| TwentyOne.CardValueBounds | lesson_5/twenty_one.rb:111-114 | card values run from 2 to 11; 11 only for "A", 10 exactly for "10", "J", "Q", "K" |
| TwentyOne.TotalIsPlainSum | lesson_5/twenty_one.rb:8-20 | no card has the rank `'Ace'` that `total` tests, so the ace adjustment never runs and the total is the plain sum (an ace always counts 11) |
| TwentyOne.SumValuesSnoc | lesson_5/twenty_one.rb:10-12 | each card adds its value, between 2 and 11, to the sum |
| TwentyOne.SumAtLeastTwicePerCard | lesson_5/twenty_one.rb:10-12 | a hand is worth at least 2 per card |
| TwentyOne.TwoAcesBust | lesson_5/twenty_one.rb:8-24 | two aces total 22, so such a hand busts |
| TwentyOne.SuitsOfCount | lesson_5/twenty_one.rb:97-99 | the inner loop makes each card of the rank once, one per suit |
| TwentyOne.CardsOfRanksCount | lesson_5/twenty_one.rb:96-100 | the nested loops over distinct ranks make four cards per rank, each rank-suit pair exactly once |
| TwentyOne.FullDeckSpec | lesson_5/twenty_one.rb:94-100 | the deck before shuffling holds 52 cards, each rank-suit pair exactly once |
| TwentyOne.FullDeckValued | lesson_5/twenty_one.rb:119-123 | every card of the deck has a value in CARD_VALUES |
| TwentyOne.Participant.constructor | lesson_5/twenty_one.rb:36-39 | the hand starts empty, the name is the given one |
| TwentyOne.Participant.Total | lesson_5/twenty_one.rb:8-20 | the summing loop and the ace loop return the hand total, which equals the plain sum of the values |
| TwentyOne.Participant.Reset | lesson_5/twenty_one.rb:26-28 | the hand is emptied |
| TwentyOne.Deck.constructor | lesson_5/twenty_one.rb:90-92 | a new deck is the 52 cards of the full deck in some order |
| TwentyOne.Deck.ShuffleCards | lesson_5/twenty_one.rb:94-102 | the deck is rebuilt as the 52 cards, each once, in some order |
| TwentyOne.Deck.Deal | lesson_5/twenty_one.rb:104-106 | the deck's last card moves to the end of the hand; no card is lost or made |
| TwentyOne.ResultSpec | lesson_5/twenty_one.rb:240-252 | the result by the totals alone: dealer bust over everything, then player bust, then the higher total, a tie on equal totals |
| TwentyOne.Game.CardsValued | lesson_5/twenty_one.rb:130-137 | while the 52 cards are conserved every card in play has a value |
| TwentyOne.Game.constructor | lesson_5/twenty_one.rb:133-137 | a full deck of 52 and two empty hands; the card conservation invariant holds |
| TwentyOne.Game.DealCards | lesson_5/twenty_one.rb:209-216 | the player gets the 1st and 3rd card from the top, the dealer the 2nd and 4th; four cards leave the deck |
| TwentyOne.Game.DealRound | lesson_5/twenty_one.rb:212-215 | one pass: the top card to the player, the next to the dealer |
| TwentyOne.Game.Hit | lesson_5/twenty_one.rb:190-193 | one card from the top of the deck to that participant, cards conserved |
| TwentyOne.Game.DealerTurn | lesson_5/twenty_one.rb:174-188 | the dealer ends at 17 or more, having taken the deck's top k cards in the order `pop` gives them, the deck is left without exactly those k cards, every total before a draw was below 17, and the player's hand is untouched |
| TwentyOne.Game.DealerHit | lesson_5/twenty_one.rb:176-178 | one pass of the loop while the dealer hits: the top card goes to the dealer, cards are conserved, and the total grows by at least 2 |
| TwentyOne.TopCards | lesson_5/twenty_one.rb:104-106 | the top k cards in the order `pop` takes them: the last card of the deck first |
| TwentyOne.TopCardsSnoc | lesson_5/twenty_one.rb:104-106 | popping one more card appends it to the cards already taken |
| TwentyOne.HitBelowStaySnoc | lesson_5/twenty_one.rb:176-178 | a card drawn at a total below 17 extends the run of draws made below 17 |
| TwentyOne.DrawnSnoc | lesson_5/twenty_one.rb:176-178 | popping the top card onto a dealer hand below 17 keeps the hand and the deck described as the draws so far |
| TwentyOne.Game.Reset | lesson_5/twenty_one.rb:264-268 | both hands emptied and a new full deck of 52 |
| Poker.RankValues | lesson_5/medium_1/10.rb:49-57 | the thirteen ranks are distinct and listed in increasing value, the i-th worth i + 2, so two is lowest and the ace (14) highest |
| Poker.Compare | lesson_5/medium_1/10.rb:45-47 | `<=>` answers -1, 0 or 1 |
| Poker.CompareSpec | lesson_5/medium_1/10.rb:45-47 | `<=>` is negative, zero or positive exactly as the first card's value is below, equal to or above the second's, whatever the suits; swapping the operands negates it |
| Poker.SuitsOfCount | lesson_5/medium_1/10.rb:28-30 | the inner loop of `reset` adds each card of its rank once, one per suit |
| Poker.CardsOfRanksCount | lesson_5/medium_1/10.rb:26-31 | for distinct ranks, the nested loops append four cards per rank and each (rank, suit) pair of those ranks exactly once |
| Poker.FullDeckSpec | lesson_5/medium_1/10.rb:25-32 | one `reset` appends 52 cards: every card of a deck rank and suit exactly once, nothing else |
| Poker.Deck.constructor | lesson_5/medium_1/10.rb:11-14 | a new deck holds the 52 cards, each once |
| Poker.Deck.Reset | lesson_5/medium_1/10.rb:25-32 | `reset` adds 52 cards to those already there, exactly one of each rank and suit, and the shuffle keeps the multiset |
| Poker.Deck.Draw | lesson_5/medium_1/10.rb:16-23 | a non-empty deck gives its last card and keeps the rest in order; an empty one is reset first and leaves 51 cards that, with the drawn one, make a full deck |
| Poker.Insert | lesson_5/medium_1/10.rb:135 | inserting adds exactly one element |
| Poker.Sort | lesson_5/medium_1/10.rb:135 | `sort` keeps the length |
| Poker.SortedCons | lesson_5/medium_1/10.rb:135 | a value no larger than every element of a sorted list keeps it sorted when put in front |
| Poker.InsertSpec | lesson_5/medium_1/10.rb:135 | inserting into a sorted list gives a sorted list with that one element added to the multiset |
| Poker.SortSpec | lesson_5/medium_1/10.rb:135 | `sort` gives a sorted permutation of its argument |
| Poker.SumInsert | lesson_5/medium_1/10.rb:135 | inserting adds the element to the sum |
| Poker.SumSort | lesson_5/medium_1/10.rb:139 | sorting keeps the sum |
| Poker.UniqAfterSpec | lesson_5/medium_1/10.rb:108 | `uniq` keeps a list without repeats free of repeats and yields exactly the elements seen so far and still to come |
| Poker.UniqAfterSame | lesson_5/medium_1/10.rb:108 | further copies of an element already kept add nothing: `uniq` of one repeated suit is that suit |
| Poker.UniqAfterFresh | lesson_5/medium_1/10.rb:139 | distinct elements not yet seen are all kept, in their order |
| Poker.UniqOfDistinct | lesson_5/medium_1/10.rb:139 | `uniq` leaves a list without repeats unchanged |
| Poker.UniqSpec | lesson_5/medium_1/10.rb:108 | `uniq` has no repeats and holds exactly the elements of its argument |
| Poker.CountsOf | lesson_5/medium_1/10.rb:139 | `collect { count }` gives one count per distinct value |
| Poker.CountsOfCons | lesson_5/medium_1/10.rb:139 | the counts of a list of values start with the count of its first value |
| Poker.CountsOfNothing | lesson_5/medium_1/10.rb:139 | counting in an empty list gives counts that add up to 0 |
| Poker.CountsOfSnoc | lesson_5/medium_1/10.rb:139 | one more element adds, to the total count, how often it is among the values counted |
| Poker.CountDistinct | lesson_5/medium_1/10.rb:139 | in a list without repeats a value occurs once or not at all |
| Poker.CountsOfSum | lesson_5/medium_1/10.rb:139 | counting each value of a list once per distinct value that covers it adds up to the list's length |
| Poker.CountIsMultiplicity | lesson_5/medium_1/10.rb:139 | `count(x)` is the multiplicity of x |
| Poker.ValuesInHandSpec | lesson_5/medium_1/10.rb:134-136 | `values_in_hand` holds one value per card, sorted, each value as often as among the cards |
| Poker.DistinctValues | lesson_5/medium_1/10.rb:138-140 | `uniq` of the values in hand has no repeats and holds exactly the cards' values |
| Poker.ValueCountsPositive | lesson_5/medium_1/10.rb:138-140 | every entry of `value_counts` is at least 1 |
| Poker.ValueCountsSpec | lesson_5/medium_1/10.rb:138-140 | `value_counts` is sorted, has one entry per distinct value, is a permutation of the multiplicities of the distinct values, and adds up to the number of cards |
| Poker.SortedHead | lesson_5/medium_1/10.rb:139 | the first element of a sorted list is its least |
| Poker.SortedTail | lesson_5/medium_1/10.rb:139 | dropping the head of a sorted list leaves a sorted list with that one element removed |
| Poker.SortedUnique | lesson_5/medium_1/10.rb:135 | two sorted lists with the same multiset are equal |
| Poker.SortIs | lesson_5/medium_1/10.rb:135 | `sort` gives the one sorted rearrangement of its argument |
| Poker.FlushIff | lesson_5/medium_1/10.rb:107-109 | `flush?` holds exactly when the hand is not empty and every card has the first card's suit |
| Poker.StraightIff | lesson_5/medium_1/10.rb:111-116 | `straight?` holds exactly when the sorted values are five consecutive integers |
| Poker.AceHighOnly | lesson_5/medium_1/10.rb:111-116 | the ace counts only high: a straight of deck cards that holds an ace is 10, J, Q, K, A |
| Poker.BranchBelowRoyal | lesson_5/medium_1/10.rb:76-86 | below the first `when`, the `case` picks one of the other nine names |
| Poker.Branch | lesson_5/medium_1/10.rb:75-86 | the `case` picks one of the ten names |
| Poker.LabelsDistinct | lesson_5/medium_1/10.rb:76-85 | the ten names `evaluate` returns are all different |
| Poker.BranchIsFirst | lesson_5/medium_1/10.rb:75-86 | the `when` taken passes its test and no earlier `when` does |
| Poker.EvaluateFirstMatch | lesson_5/medium_1/10.rb:74-87 | `evaluate` returns a category's name exactly when the hand passes that category's test and fails every earlier one (with `royal_flush?` testing the suits as `flush?` does) |
| Poker.CorrectedRoyalTest | lesson_5/medium_1/10.rb:91-93 | once `royal_flush?` returns the flush-and-royal-straight test instead of raising, the `case` yields the corrected `evaluate` |
| Poker.AsWrittenAlwaysRaises | lesson_5/medium_1/10.rb:74-93 | as written, `evaluate` raises NoMethodError for `all_same_suit?` on every hand |
| Poker.Drawn | lesson_5/medium_1/10.rb:65-68 | five draws give five cards |
| Poker.PokerHand.constructor | lesson_5/medium_1/10.rb:65-68 | `PokerHand.new(deck)` takes five cards; from a deck of five or more they are its last five, top first, and the deck keeps the rest |
| Poker.PokerHand.FromCards | lesson_5/medium_1/10.rb:143-145 | `PokerHand.new(array)` pops the array's last five cards, last one first |
| Poker.FiveDistinctTally | lesson_5/medium_1/10.rb:139 | five different values each occur once among themselves |
| Poker.FiveOnesSorted | lesson_5/medium_1/10.rb:139 | five counts of 1 are already sorted |
| Poker.RoyalFlushHandEvaluates | lesson_5/medium_1/10.rb:150-157 | the royal flush of the inline checks is named "Royal flush" by the corrected `evaluate` |
| Poker.StraightFlushHandEvaluates | lesson_5/medium_1/10.rb:159-166 | the straight flush of the inline checks is named "Straight flush" |
| Poker.FourOfAKindHandCounts | lesson_5/medium_1/10.rb:168-175 | its value counts are [1, 4] |
| Poker.FourOfAKindHandEvaluates | lesson_5/medium_1/10.rb:168-175 | the four of a kind of the inline checks is named "Four of a kind" |
| Poker.FullHouseHandCounts | lesson_5/medium_1/10.rb:177-184 | its value counts are [2, 3] |
| Poker.FullHouseHandEvaluates | lesson_5/medium_1/10.rb:177-184 | the full house of the inline checks is named "Full house" |
| Poker.FlushHandCounts | lesson_5/medium_1/10.rb:186-193 | its value counts are five 1s |
| Poker.FlushHandEvaluates | lesson_5/medium_1/10.rb:186-193 | the flush of the inline checks is named "Flush" |
| Poker.StraightHandCounts | lesson_5/medium_1/10.rb:195-202 | its value counts are five 1s |
| Poker.StraightHandEvaluates | lesson_5/medium_1/10.rb:195-202 | the straight of the inline checks is named "Straight" |
| Poker.ThreeOfAKindHandCounts | lesson_5/medium_1/10.rb:204-211 | its value counts are [1, 1, 3] |
| Poker.ThreeOfAKindHandEvaluates | lesson_5/medium_1/10.rb:204-211 | three of a kind of the inline checks is named "Three of a kind" |
| Poker.TwoPairHandCounts | lesson_5/medium_1/10.rb:213-220 | its value counts are [1, 2, 2] |
| Poker.TwoPairHandEvaluates | lesson_5/medium_1/10.rb:213-220 | the two pair of the inline checks is named "Two pair" |
| Poker.PairHandCounts | lesson_5/medium_1/10.rb:222-229 | its value counts are [1, 1, 1, 2] |
| Poker.PairHandEvaluates | lesson_5/medium_1/10.rb:222-229 | the pair of the inline checks is named "Pair" |
| Poker.HighCardHandCounts | lesson_5/medium_1/10.rb:231-238 | its value counts are five 1s |
| Poker.HighCardHandEvaluates | lesson_5/medium_1/10.rb:231-238 | the high-card hand of the inline checks is named "High card" |
| Poker.RoyalFlushHandRaises | lesson_5/medium_1/10.rb:150-157 | as written, `evaluate` raises on the royal flush of the inline checks, where the corrected one names it |
| TicTacToe.WinningLine | lesson_5/oo_ttt_bonus.rb:4-6 | each of the eight winning lines is three distinct keys of the board, in ascending order |
| TicTacToe.LineMarkers | lesson_5/oo_ttt_bonus.rb:64 | `values_at(*line)` gives the three squares of a line |
| TicTacToe.WinningMarkerIsFirstCompleteLine | lesson_5/oo_ttt_bonus.rb:62-70 | `winning_marker` is nil exactly when no line has three identical marks; otherwise it is the (marked) common marker of the first such line in `WINNING_LINES` order; likewise delete/ttt_bonus.rb lines 37-45 |
| TicTacToe.LineOnly | lesson_5/oo_ttt_bonus.rb:4-6 | a board with one line filled is a board of nine squares |
| TicTacToe.LineWinsForItsMarker | lesson_5/oo_ttt_bonus.rb:94-98 | filling any one winning line with a single marker makes `winning_marker` that marker |
| TicTacToe.FirstCompleteLineWins | lesson_5/oo_ttt_bonus.rb:62-70 | the scan reports the marker of a complete line when no earlier line is complete |
| TicTacToe.UnmarkedFromMembers | lesson_5/oo_ttt_bonus.rb:17-19 | the `select` keeps exactly the keys whose square is unmarked |
| TicTacToe.UnmarkedFromAscending | lesson_5/oo_ttt_bonus.rb:17-19 | the kept keys are in strictly ascending order |
| TicTacToe.UnmarkedFromAbove | lesson_5/oo_ttt_bonus.rb:17-19 | no key below the first one scanned is kept |
| TicTacToe.UnmarkedKeysSpec | lesson_5/oo_ttt_bonus.rb:17-19 | `unmarked_keys` lists exactly the keys 1..9 whose square is unmarked; likewise delete/ttt_bonus.rb lines 17-19 |
| TicTacToe.UnmarkedKeysAscending | lesson_5/oo_ttt_bonus.rb:17-19 | `unmarked_keys` is in ascending key order |
| TicTacToe.FullIffAllMarked | lesson_5/oo_ttt_bonus.rb:54-56 | `full?` holds exactly when every square is marked; likewise delete/ttt_bonus.rb lines 29-31 |
| TicTacToe.MarkRemovesKey | lesson_5/oo_ttt_bonus.rb:13-19 | marking an unmarked square removes exactly one key from the scan |
| TicTacToe.MarkOneSquare | lesson_5/oo_ttt_bonus.rb:13-19 | after `board[k] = m` on an unmarked square, `unmarked_keys` is one shorter |
| TicTacToe.AllUnmarkedListed | lesson_5/oo_ttt_bonus.rb:17-19 | when no square is marked every key is listed, in order |
| TicTacToe.ResetBoardIsOpen | lesson_5/oo_ttt_bonus.rb:72-74 | after `reset`, `unmarked_keys` is `[1, ..., 9]` (so `full?` is false) |
| TicTacToe.ResetBoardHasNoWinner | lesson_5/oo_ttt_bonus.rb:72-74 | after `reset` there is no winning marker |
| TicTacToe.OpenKeyOf | lesson_5/oo_ttt_bonus.rb:45-48 | the key taken from a line with an unmarked square is one of that line's keys and is unmarked |
| TicTacToe.LastThreatenedLine | lesson_5/oo_ttt_bonus.rb:41-50 | a line reported is among those scanned and has one unmarked square and two of the mark |
| TicTacToe.LastWinningSquare | lesson_5/oo_ttt_bonus.rb:39-52 | a square reported is an unmarked key |
| TicTacToe.LastThreatenedLineSpec | lesson_5/oo_ttt_bonus.rb:41-50 | nothing is reported exactly when no scanned line qualifies; otherwise no later scanned line qualifies (the last one wins) |
| TicTacToe.LastWinningSquareSpec | lesson_5/oo_ttt_bonus.rb:39-52 | `find_winning_square` is nil exactly when no line has one unmarked square and two of the mark; otherwise it is the first unmarked key of a qualifying line after which none qualifies |
| TicTacToe.BestMoveIsUnmarked | lesson_5/oo_ttt_bonus.rb:21-37 | whatever the priority rule picks is an unmarked key, and something is picked exactly when the board is not full |
| TicTacToe.Square.constructor | lesson_5/oo_ttt_bonus.rb:106-108 | a new square carries the marker given |
| TicTacToe.Board.Cells | lesson_5/oo_ttt_bonus.rb:3-11 | the board's nine markers, square k's at position k - 1 |
| TicTacToe.Board.constructor | lesson_5/oo_ttt_bonus.rb:8-11 | a new board has nine fresh distinct squares, all unmarked |
| TicTacToe.Board.Reset | lesson_5/oo_ttt_bonus.rb:72-74 | `reset` puts a fresh unmarked square at every key 1..9; likewise delete/ttt_bonus.rb lines 47-49 |
| TicTacToe.Board.Set | lesson_5/oo_ttt_bonus.rb:13-15 | `board[k] = m` puts m on square k and changes no other square; likewise delete/ttt_bonus.rb lines 13-15 |
| TicTacToe.Board.FindWinningSquare | lesson_5/oo_ttt_bonus.rb:39-52 | the loop computes the last qualifying line's open key (characterised by `LastWinningSquareSpec`), an unmarked key |
| TicTacToe.Board.BestMove | lesson_5/oo_ttt_bonus.rb:21-37 | own winning square, else the opponent's, else 5 when unmarked, else some unmarked key; nil exactly on a full board |
| TicTacToeGame.Player.constructor | lesson_5/oo_ttt_bonus.rb:126-130 | a new player has the given marker and score 0 |
| TicTacToeGame.Game.constructor | lesson_5/oo_ttt_bonus.rb:140-145 | with the chosen marker and first mover, the game starts on an empty board with both scores 0 and the chosen player to move |
| TicTacToeGame.Game.CurrentPlayerMoves | lesson_5/oo_ttt_bonus.rb:314-322 | exactly one unmarked square is marked, by the player whose marker is current (the computer's by `best_move`), and the turn passes to the other marker |
| TicTacToeGame.Game.HumanMoves | lesson_5/oo_ttt_bonus.rb:296-306 | the human's unmarked square takes the human's marker, nothing else changes |
| TicTacToeGame.Game.ComputerMoves | lesson_5/oo_ttt_bonus.rb:308-312 | the computer's marker goes on the square the priority rule picks, an unmarked one |
| TicTacToeGame.Game.IncrementScore | lesson_5/oo_ttt_bonus.rb:234-241 | the owner of the winning marker gains one point, the other nothing; a tie changes neither score |
| TicTacToeGame.Game.Reset | lesson_5/oo_ttt_bonus.rb:362-366 | a fresh empty board with all nine keys open, and the current marker `:choose`, which is not the human's, so the computer moves next |
| TicTacToeGame.Joiner | lesson_5/oo_ttt_bonus.rb:285-294 | "" for no element, the element for one, "a or b" for two; for more, the last element of the array itself becomes "or x" and the result is the list joined by the punctuation |
| TicTacToeOldGame.Player.constructor | lesson_5/delete/ttt_bonus.rb:102-105 | a new player has the given marker and score 0 |
| TicTacToeOldGame.Player.Reset | lesson_5/delete/ttt_bonus.rb:107-109 | `reset` zeroes the score |
| TicTacToeOldGame.Game.constructor | lesson_5/delete/ttt_bonus.rb:119-124 | the game starts on an empty board, scores 0, "X" to move |
| TicTacToeOldGame.Game.CurrentPlayerMoves | lesson_5/delete/ttt_bonus.rb:231-239 | the player whose marker is current marks their square, and the current marker flips between "X" and "O" |
| TicTacToeOldGame.Game.IncrementScore | lesson_5/delete/ttt_bonus.rb:271-278 | only the owner of the winning marker gains a point; from scores below five, `grand_winner?`'s test for exactly five is the same as reaching five |
| TicTacToeOldGame.Game.ResetBoard | lesson_5/delete/ttt_bonus.rb:300-304 | a fresh empty board with all keys open, and "X" to move again |
| TicTacToeOldGame.Game.ResetScore | lesson_5/delete/ttt_bonus.rb:306-309 | both scores go back to zero, so there is no grand winner |
| RpsMoves.FromName | lesson_2/rps_bonus_features.rb:102-110 | the `case` of `select_move` yields a move only for that move's own name |
| RpsMoves.NamesRoundTrip | lesson_2/rps_bonus_features.rb:31-39 | every move is in VALUES under its own name, and `select_move(m.to_s)` gives m back |
| RpsMoves.FromNameIffListed | lesson_2/rps_bonus_features_2a.rb:75-83 | `select_move` yields a move exactly for the strings of `Move::VALUES` |
| RpsMoves.IndexOf | lesson_2/rps_bonus_features.rb:26 | `VALUES.index(m)` is a position of VALUES holding m |
| RpsMoves.BeatsIrreflexive | lesson_2/rps_bonus_features_5.rb:58-72 | no move beats itself or loses to itself, under `>`, `<` or the subclass `>`; likewise rps_bonus_features_1.rb lines 32-46 |
| RpsMoves.VictimsMembers | lesson_2/rps_bonus_features_5.rb:58-64 | the victims listed are exactly the moves beaten |
| RpsMoves.BeatsTwoVictims | lesson_2/rps_bonus_features_5.rb:58-64 | under `>` each move beats exactly two of the five; likewise rps_bonus_features_current.rb lines 58-64; likewise rps_bonus_features_3.rb lines 36-42 |
| RpsMoves.AllMovesListed | lesson_2/rps_bonus_features.rb:32 | `VALUES` lists every move |
| RpsMoves.VictimCount | lesson_2/rps_bonus_features_1.rb:32-38 | of the five moves, exactly two are beaten by any one |
| RpsMoves.LosesToIsConverse | lesson_2/rps_bonus_features_5.rb:58-72 | `a < b` holds exactly when `b > a`; likewise rps_bonus_features_3.rb lines 36-50 |
| RpsMoves.OneWinnerUnlessEqual | lesson_2/rps_bonus_features_current.rb:58-64 | of two different moves exactly one beats the other; equal moves beat neither |
| RpsMoves.SubclassBeatsAgrees | lesson_2/rps_bonus_features.rb:41-89 | the `is_a?` tests of the five subclasses give the same table as the predicate `>`; likewise rps_bonus_features_2a.rb lines 17-65 |
| RpsMoves.CountersAreTheVictors | lesson_2/rps_bonus_features.rb:4-12 | `beat(m)` samples from two distinct moves, which are exactly the moves that beat m; likewise working.rb lines 1-9 |
| RpsStrategies.FirstMaxIndex | lesson_2/rps_bonus_features_5.rb:20 | `max_by` picks one of the candidates |
| RpsStrategies.FirstMaxIndexIsFirstMax | lesson_2/rps_bonus_features_5.rb:18-22 | `max_by`'s pick occurs at least as often as every candidate, and every earlier candidate strictly less often |
| RpsStrategies.FirstMaxUnique | lesson_2/rps_bonus_features_5.rb:20 | that description fixes one candidate |
| RpsStrategies.MostCommonMoveSpec | lesson_2/rps_bonus_features_5.rb:18-22 | the most common move is played at least as often as any move, and more often than every move before it in VALUES; on an empty log it is rock; likewise rps_bonus_features_current.rb lines 18-22 |
| RpsStrategies.Beat | lesson_2/rps_bonus_features_5.rb:4-12 | `beat(m)` returns one of its two choices, which beats m; likewise rps_bonus_features_current.rb lines 4-12 |
| RpsStrategies.BeatLastHumanMove | lesson_2/rps_bonus_features_5.rb:14-16 | the result beats the human's move in the last logged round |
| RpsStrategies.BeatMostCommonMove | lesson_2/rps_bonus_features_5.rb:18-22 | the result beats the move the human played most often |
| RpsStrategies.Rotate | lesson_2/rps_bonus_features_5.rb:27 | `Array#rotate` keeps the length and puts element k + 1 (cyclically) at position k |
| RpsStrategies.RotateThroughMoves | lesson_2/rps_bonus_features_5.rb:24-28 | the argument is ignored: the result is the successor in VALUES of the last logged computer move, spock wrapping round to rock; likewise rps_bonus_features_current.rb lines 24-28 |
| RpsStrategies.ChappiePlaysInTurn | lesson_2/rps_bonus_features.rb:167-174 | when Chappie made every logged computer move, round k's move is VALUES[k mod 5] |
| RpsStrategies.SuccessorMod | lesson_2/rps_bonus_features.rb:27 | stepping to the next of five positions commutes with the remainder |
| RpsGame.TieIffSameMove | lesson_2/rps_bonus_features_3.rb:233-245 | `winner?` holds exactly when the moves differ, and `winner` is "tie" exactly when neither move beats the other |
| RpsGame.CreditGoesToRoundWinner | lesson_2/rps_bonus_features_5.rb:269-294 | with two different names, neither "tie", `winner` is the human's name exactly when the human's move wins and the computer's exactly when the computer's wins |
| RpsGame.NameClashesMisattribute | lesson_2/rps_bonus_features.rb:285-310 | names decide the credit: a human named "tie" is credited with every tied round, and one named like the computer with the computer's wins |
| RpsGame.History.constructor | lesson_2/rps_bonus_features.rb:212-214 | a new history has an empty log |
| RpsGame.History.RecordMove | lesson_2/rps_bonus_features_5.rb:205-209 | `record_move` appends exactly one entry of the two moves and the winner; earlier entries are unchanged; likewise rps_bonus_features_current.rb lines 204-212; likewise rps_bonus_features_2a.rb lines 194-198 |
| RpsGame.History.Record | lesson_2/rps_bonus_features_3.rb:176-178 | `record` appends exactly the given entry |
| RpsGame.Player.constructor | lesson_2/rps_bonus_features.rb:96-100 | a new player has its name, score 0 and no move |
| RpsGame.Player.SelectMove | lesson_2/rps_bonus_features.rb:102-110 | `select_move(c)` sets the move named c, whose `to_s` is c, or nil for any other string |
| RpsGame.Player.ChooseRock | lesson_2/rps_bonus_features.rb:143-145 | R2D2 always plays rock, and so does Chappie of rps_bonus_features_2a.rb (lines 145-148) |
| RpsGame.Player.ChooseHal | lesson_2/rps_bonus_features.rb:155-158 | Hal plays scissors, lizard or spock; likewise rps_bonus_features_3.rb lines 117-120 |
| RpsGame.Player.ChooseHalWithRock | lesson_2/rps_bonus_features_2a.rb:125-137 | in this variant Hal plays rock, scissors, lizard or spock |
| RpsGame.Player.ChooseChappie | lesson_2/rps_bonus_features.rb:167-174 | Chappie plays rock on an empty log, afterwards the successor of the last logged computer move; likewise rps_bonus_features_5.rb lines 156-164 |
| RpsGame.Player.ChooseSonny | lesson_2/rps_bonus_features.rb:183-190 | Sonny plays some move on an empty log, afterwards one beating the human's last move |
| RpsGame.Player.ChooseNumber5 | lesson_2/rps_bonus_features.rb:199-206 | Number 5 plays some move on an empty log, afterwards one beating the human's most frequent move |
| RpsGame.Player.ChooseAny | lesson_2/rps_bonus_features_1.rb:91-93 | `Computer#choose` always plays a move of VALUES |
| RpsGame.Game.constructor | lesson_2/rps_bonus_features.rb:241-247 | the game starts with the two given players and an empty history |
| RpsGame.Game.IncrementScore | lesson_2/rps_bonus_features.rb:304-310 | the player named by `winner` gains one point, a tie changes nothing, at most one score moves; from scores below five `grand_winner?` (`==`) is the same as reaching five; likewise rps_bonus_features_3.rb lines 256-262; likewise rps_bonus_features_2a.rb lines 275-281 |
| RpsGame.Game.ResetScore | lesson_2/rps_bonus_features.rb:339-342 | both scores go back to zero, so there is no grand winner; likewise rps_bonus_features_current.rb lines 317-320 |
| RpsGame.Game.RecordMove | lesson_2/rps_bonus_features.rb:355-357 | the round's two moves and its winner are appended to the history |
| RpsGameTen.RoundWinnerAgrees | lesson_2/rps_bonus_features_1.rb:129-137 | testing `h < c` names the same winner as testing `c > h` |
| RpsGameTen.Game.constructor | lesson_2/rps_bonus_features_1.rb:99-104 | the game starts with an empty history and no game played |
| RpsGameTen.Game.IncrementScore | lesson_2/rps_bonus_features_1.rb:148-154 | at most one score moves, by one, to the player `winner` names; from scores below ten `grand_winner?` is the same as reaching ten |
| RpsGameTen.Game.ResetScore | lesson_2/rps_bonus_features_1.rb:176-179 | both scores go back to zero, history and counter kept |
| RpsGameTen.Game.RecordMove | lesson_2/rps_bonus_features_1.rb:194-200 | the counter goes up by one and the appended entry carries the new count; entry i stays numbered i + 1 |
| RpsWorking.MostFrequentMove | lesson_2/working.rb:11-15 | `max_by` over the logged moves gives nil exactly on an empty log, else one of the logged moves |
| RpsWorking.MostFrequentMoveSpec | lesson_2/working.rb:11-15 | no move occurs more often than the result, and ties go to the move logged first |
| RpsWorking.BeatMostFrequentMove | lesson_2/working.rb:11-15 | the result is nil exactly on an empty log, else a move beating the most frequent one |
| RpsWorking.LogMostFrequentIsPaper | lesson_2/working.rb:17-19 | paper is the most frequent move of `LOG` |
| RpsWorking.LogCounts | lesson_2/working.rb:17-19 | `LOG` holds paper six times, spock and rock twice each |
| RpsWorking.BeatLog | lesson_2/working.rb:21 | `p beat_most_frequent_move` shows scissors or lizard |

## Left out

- Console I/O: every `puts`, `print`, `gets`, `system('clear')` and
  `sleep`, and the prompting and validation loops. Their results are
  parameters: the human's name, marker, square and move; who moves
  first; play again; the player's hit-or-stay answers in twenty_one.rb.
- The `display_*`, `show_*`, `draw` and `History#display*` methods, and
  the top-level `play`/`start` drivers. They only print.
- The probabilities of random choices. Only membership in the sampled
  list is modelled, so Hal's weights are not captured; a shuffle is any
  permutation.
- `find_at_risk_square` and `computer_moves` of lesson_5/delete/ttt_bonus.rb.
  They stop at a `binding.pry` breakpoint and compare `Square` objects
  with marker strings, which never match. They also discard the random
  fallback, so `board[nil]` can be reached. Their intended behaviour is
  not modelled; `TicTacToeOldGame.Game.CurrentPlayerMoves` takes the
  computer's square as a parameter.
- The broken RPS personalities, which raise or misbehave as soon as they
  run:
  - rps_bonus_features_3.rb: Chappie (an uninitialised `@options`),
    Sonny (`history.log`) and Number5 (`@history.empty?`, and
    `%w(paper, spock)`, whose words keep their commas).
  - rps_bonus_features_2a.rb: Sonny and Number5, which read an `@history`
    that is never set.
  - `Player#select_move` of rps_bonus_features_5.rb and
    rps_bonus_features_current.rb, which names classes those files do not
    define.
- The ace-counts-one rule twenty_one.rb evidently aims at. The code never
  applies it (see above), and the model follows the code.
- `calculate_age` in lesson_1/my_car.rb depends on `Time.new`. The
  current year is a parameter.
- The `ancestors` listing, `MyTruck`, and the `current_speed`, `shut_off`
  and `age` output of lesson_1/my_car.rb. They only print.
- The floating point of `Math.log2` in 7.rb. `Math.log2(n).to_i` is
  modelled as the exact integer floor of log2 of n.
- The `Array#draw` alias of 10.rb is modelled as `PokerHand.FromCards`, a
  hand built from the last five cards of a sequence.
- CircularBuffer.CircularQueue.Enqueue: takes an element that is
  present, so `enqueue(nil)` and `enqueue(false)` are not modelled. Ruby
  stores such a value in the slot, but `oldest_element_index` treats it
  as empty and `dequeue` passes it by.
- CircularBuffer.CircularQueue.constructor: takes a natural slot count,
  so `CircularQueue.new(-1)` is not modelled. There `Array.new(-1)`
  raises ArgumentError.
- TwentyOne.Deck.Deal: requires a card in the deck. On an empty deck the
  source pushes nil, and the next `total` raises.
- TwentyOne.Game.DealerTurn: requires nine cards in the deck. Nine cards
  always bring a total of at least 17. The source never runs short,
  because every game starts from a freshly built 52-card deck (`reset`
  calls `shuffle_cards`).
- TwentyOne.Game.DealCards: requires the four cards it deals, for the
  same reason as `Deck.Deal`.
- TwentyOne.Game.Hit: requires a card in the deck, for the same reason.
- Poker.PokerHand.FromCards: requires five cards. With fewer, `pop`
  gives nil, on which `value` raises.
- TicTacToe.Board.Set: requires a key in 1..9. For any other key the
  source calls `marker=` on nil.
- Poker.PokerHand.constructor: states the hand drawn from a deck of at
  least five cards. When fewer remain, the deck refills in the middle of
  the draw, and the model states only that five cards are taken.
- RangeGuesser.GuessingGame.constructor: requires `begin <= end`. An
  empty range has size 0, and `Math.log2(0)` is `-Infinity`, on which
  `to_i` raises.
- Vehicles.MileageReadsBack: requires a non-zero gallon count. For zero,
  `CalculateMileage` gives `None`, standing for the exception Ruby's
  integer division raises.
- RpsStrategies.BeatLastHumanMove: requires a logged round. On an empty
  log `last` is nil and `[:human_move]` raises. Sonny only calls it once
  the log is not empty.
- `Vehicles.VehiclesMessage` and `Vehicles.Vehicle.CalculateAge` only
  build a value and have no row of their own. The lemmas about the
  message have rows.

## Findings

| source | as written | input that shows it | evidently intended | confidence | as-written member | corrected member |
|---|---|---|---|---|---|---|
| lesson_5/medium_1/10.rb:91-93 | `royal_flush?` calls `all_same_suit?`, which is defined nowhere, so `evaluate` raises NoMethodError before any category is checked | the royal flush of the inline check at lines 150-157 (any five cards) | test the suits as `flush?` does, so the royal flush is named "Royal flush" | high, not executed | Poker.AsWrittenAlwaysRaises | Poker.EvaluateFirstMatch |
| lesson_5/medium_1/7.rb:30 | `get_guess` accepts only 1..100, whatever range the game was built with | `GuessingGame.new(200, 300)`: every guess that could be right is rejected, so the game can never be won | accept guesses in the game's own `@range` | medium, not executed | RangeGuesser.HighRangeUnwinnable | RangeGuesser.HighRangeWinnable |
