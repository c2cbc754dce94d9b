/** The five moves of Rock-Paper-Scissors-Lizard-Spock and the rules
    between them, shared by every variant of the game under lesson_2. */
module RpsMoves {
  import opened Util

  datatype Move = Rock | Paper | Scissors | Lizard | Spock

  /** `Move::VALUES`, in the order every variant lists them. */
  const VALUES: seq<Move> := [Rock, Paper, Scissors, Lizard, Spock]

  /** The strings of `Move::VALUES` as the Ruby code holds them. */
  const VALUE_NAMES: seq<string> := ["rock", "paper", "scissors", "lizard", "spock"]

  /** `Move#to_s`: the move's name. */
  function Name(m: Move): string {
    match m
    case Rock => "rock"
    case Paper => "paper"
    case Scissors => "scissors"
    case Lizard => "lizard"
    case Spock => "spock"
  }

  /** The move a string names: the `case` in `select_move`, which yields
      nil for any other string. */
  function FromName(s: string): (r: Option<Move>)
    ensures r.Some? ==> Name(r.value) == s
  {
    if s == "rock" then Some(Rock)
    else if s == "paper" then Some(Paper)
    else if s == "scissors" then Some(Scissors)
    else if s == "lizard" then Some(Lizard)
    else if s == "spock" then Some(Spock)
    else None
  }

  /** Every move is listed once in VALUES, under its own name, and reading
      a listed name gives the move back. */
  lemma NamesRoundTrip(m: Move)
    ensures m in VALUES
    ensures FromName(Name(m)) == Some(m)
    ensures Name(VALUES[IndexOf(m)]) == VALUE_NAMES[IndexOf(m)]
  {
  }

  /** A string names a move exactly when `Move::VALUES.include?` accepts
      it, so the input loops only ever pass a move's name on. */
  lemma FromNameIffListed(s: string)
    ensures FromName(s).Some? <==> s in VALUE_NAMES
  {
    if s in VALUE_NAMES {
      var i :| 0 <= i < |VALUE_NAMES| && VALUE_NAMES[i] == s;
      assert FromName(s) == Some(VALUES[i]) by {
        if i == 0 {} else if i == 1 {} else if i == 2 {} else if i == 3 {} else {}
      }
    }
  }

  /** `Array#index` on VALUES: the position of a move. */
  function IndexOf(m: Move): (i: nat)
    ensures i < |VALUES| && VALUES[i] == m
  {
    match m
    case Rock => 0
    case Paper => 1
    case Scissors => 2
    case Lizard => 3
    case Spock => 4
  }

  /** `Move#>` in the variants that keep the move as a string and test it
      with `rock?`, `paper?` and so on. */
  predicate Beats(a: Move, b: Move) {
    || (a == Rock && (b == Scissors || b == Lizard))
    || (a == Paper && (b == Rock || b == Spock))
    || (a == Scissors && (b == Paper || b == Lizard))
    || (a == Lizard && (b == Paper || b == Spock))
    || (a == Spock && (b == Rock || b == Scissors))
  }

  /** `Move#<`, written out as its own table in the source. */
  predicate LosesTo(a: Move, b: Move) {
    || (a == Rock && (b == Paper || b == Spock))
    || (a == Paper && (b == Scissors || b == Lizard))
    || (a == Scissors && (b == Rock || b == Spock))
    || (a == Lizard && (b == Rock || b == Scissors))
    || (a == Spock && (b == Paper || b == Lizard))
  }

  /** `>` in the variants with one subclass per move: each class tests
      `is_a?` for its own two victims. */
  predicate SubclassBeats(a: Move, b: Move) {
    match a
    case Rock => b.Scissors? || b.Lizard?
    case Paper => b.Rock? || b.Spock?
    case Scissors => b.Paper? || b.Lizard?
    case Lizard => b.Paper? || b.Spock?
    case Spock => b.Rock? || b.Scissors?
  }

  /** No move beats itself. */
  lemma BeatsIrreflexive(a: Move)
    ensures !Beats(a, a) && !SubclassBeats(a, a) && !LosesTo(a, a)
  {
  }

  /** The moves of `candidates` that `a` beats, in order. */
  function Victims(a: Move, candidates: seq<Move>): seq<Move> {
    if candidates == [] then []
    else (if Beats(a, candidates[0]) then [candidates[0]] else []) + Victims(a, candidates[1..])
  }

  /** The victims are the candidates `a` beats. */
  lemma {:induction false} VictimsMembers(a: Move, candidates: seq<Move>)
    ensures forall b :: b in Victims(a, candidates) <==> b in candidates && Beats(a, b)
  {
    if candidates != [] {
      VictimsMembers(a, candidates[1..]);
      assert candidates == [candidates[0]] + candidates[1..];
    }
  }

  /** Each move beats exactly two of the five moves. */
  lemma BeatsTwoVictims(a: Move)
    ensures |Victims(a, VALUES)| == 2
    ensures forall b :: b in Victims(a, VALUES) <==> Beats(a, b)
  {
    VictimsMembers(a, VALUES);
    AllMovesListed();
    VictimCount(a);
  }

  /** VALUES lists every move. */
  lemma AllMovesListed()
    ensures forall b: Move :: b in VALUES
  {
    forall b: Move ensures b in VALUES { NamesRoundTrip(b); }
  }

  /** Of the five listed moves, exactly two are beaten by `a`. */
  lemma VictimCount(a: Move)
    ensures |Victims(a, VALUES)| == 2
  {
    assert [Spock][1..] == [];
    assert [Lizard, Spock][1..] == [Spock];
    assert [Scissors, Lizard, Spock][1..] == [Lizard, Spock];
    assert [Paper, Scissors, Lizard, Spock][1..] == [Scissors, Lizard, Spock];
    assert VALUES[1..] == [Paper, Scissors, Lizard, Spock];
  }

  /** `<` is the converse of `>`. */
  lemma LosesToIsConverse(a: Move, b: Move)
    ensures LosesTo(a, b) <==> Beats(b, a)
  {
  }

  /** Of two moves exactly one beats the other unless they are the same:
      a round is a tie exactly when both players chose the same move. */
  lemma OneWinnerUnlessEqual(a: Move, b: Move)
    ensures a == b <==> !Beats(a, b) && !Beats(b, a)
    ensures !(Beats(a, b) && Beats(b, a))
  {
  }

  /** The subclass moves give the same table as the predicate moves. */
  lemma SubclassBeatsAgrees(a: Move, b: Move)
    ensures SubclassBeats(a, b) <==> Beats(a, b)
  {
  }

  /** The two moves `beat` samples from for a move. */
  function Counters(m: Move): seq<Move> {
    match m
    case Rock => [Paper, Spock]
    case Paper => [Scissors, Lizard]
    case Scissors => [Rock, Spock]
    case Lizard => [Rock, Scissors]
    case Spock => [Paper, Lizard]
  }

  /** `beat`'s two choices are distinct and are exactly the moves that
      beat the given one. */
  lemma CountersAreTheVictors(m: Move)
    ensures |Counters(m)| == 2 && Counters(m)[0] != Counters(m)[1]
    ensures forall c :: c in Counters(m) <==> Beats(c, m)
  {
  }
}
