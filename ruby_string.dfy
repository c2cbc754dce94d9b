/** The parts of Ruby's String and Integer that the exercises rely on:
    `String#to_i`, `Integer#to_s`, `String#split` with no argument and
    `Array#join`. */
module RubyString {

  /** The characters `split` and `to_i` skip as white space: space, tab,
      line feed, vertical tab, form feed and carriage return. */
  predicate IsSpace(c: char) {
    c == ' ' || c == '\t' || c == '\n' || c == '\U{000B}' || c == '\U{000C}' || c == '\r'
  }

  predicate IsDigit(c: char) {
    '0' <= c <= '9'
  }

  function DigitValue(c: char): int
    requires IsDigit(c)
  {
    c as int - '0' as int
  }

  function DigitChar(d: int): (c: char)
    requires 0 <= d < 10
    ensures IsDigit(c) && DigitValue(c) == d
  {
    ('0' as int + d) as char
  }

  /** No character of `s` is white space. */
  predicate NoSpace(s: string) {
    forall i :: 0 <= i < |s| ==> !IsSpace(s[i])
  }

  /** Every character of `s` is a digit. */
  predicate AllDigits(s: string) {
    forall i :: 0 <= i < |s| ==> IsDigit(s[i])
  }

  // ---------------------------------------------------------------
  // String#to_i

  /** The rest of a number once its first digit has been read into `acc`:
      each further digit is appended, an underscore between two digits is
      skipped, and anything else ends the number. */
  function DigitsFrom(s: string, acc: int): int
    decreases |s|
  {
    if |s| == 0 then acc
    else if IsDigit(s[0]) then DigitsFrom(s[1..], acc * 10 + DigitValue(s[0]))
    else if s[0] == '_' && |s| >= 2 && IsDigit(s[1]) then DigitsFrom(s[1..], acc)
    else acc
  }

  /** The digits at the front of `s`, or 0 when it does not start with one. */
  function Unsigned(s: string): int {
    if |s| > 0 && IsDigit(s[0]) then DigitsFrom(s[1..], DigitValue(s[0])) else 0
  }

  /** The white space at the front of `s` dropped. */
  function SkipSpace(s: string): (t: string)
    ensures |t| <= |s| && t == s[|s| - |t|..]
    ensures forall i :: 0 <= i < |s| - |t| ==> IsSpace(s[i])
    ensures |t| > 0 ==> !IsSpace(t[0])
  {
    if |s| > 0 && IsSpace(s[0]) then SkipSpace(s[1..]) else s
  }

  /** The base-10 prefix `0d` or `0D` that `to_i` accepts after the sign. */
  predicate HasDecimalPrefix(t: string) {
    |t| >= 2 && t[0] == '0' && (t[1] == 'd' || t[1] == 'D')
  }

  /** The number after the sign: the digits after an optional `0d`
      prefix. A prefix with no digit after it reads as 0, as `0` alone
      would. */
  function Magnitude(t: string): int {
    Unsigned(if HasDecimalPrefix(t) then t[2..] else t)
  }

  /** The number at the front of a string that does not start with white
      space: an optional sign, then the number after it. */
  function Signed(t: string): int {
    var signed := |t| > 0 && (t[0] == '-' || t[0] == '+');
    var m := Magnitude(if signed then t[1..] else t);
    if signed && t[0] == '-' then -m else m
  }

  /** `String#to_i`: leading white space is skipped, then an optional sign
      and the number that follows it are read; a string that does not
      start with a number gives 0. */
  function ToI(s: string): int
    decreases |s|
  {
    if |s| > 0 && IsSpace(s[0]) then ToI(s[1..]) else Signed(s)
  }

  /** `to_i` reads the number after the white space `SkipSpace` drops. */
  lemma {:induction false} ToISkipsSpace(s: string)
    ensures ToI(s) == Signed(SkipSpace(s))
    decreases |s|
  {
    if |s| > 0 && IsSpace(s[0]) {
      ToISkipsSpace(s[1..]);
    }
  }

  /** A string that has no digit reads as 0. */
  lemma {:induction false} NoDigitIsZero(s: string)
    requires forall i :: 0 <= i < |s| ==> !IsDigit(s[i])
    ensures ToI(s) == 0
  {
    ToISkipsSpace(s);
    var t := SkipSpace(s);
    assert forall i :: 0 <= i < |t| ==> t[i] == s[|s| - |t| + i];
    if |t| > 0 && (t[0] == '-' || t[0] == '+') {
      assert |t| > 1 ==> t[1..][0] == t[1];
      MagnitudeNoDigit(t[1..]);
    } else {
      MagnitudeNoDigit(t);
    }
  }

  /** A string that does not start with a digit has no number after the
      sign. */
  lemma MagnitudeNoDigit(t: string)
    requires |t| == 0 || !IsDigit(t[0])
    ensures Magnitude(t) == 0
  {
  }

  // ---------------------------------------------------------------
  // Integer#to_s

  /** The decimal digits of `n`, most significant first. */
  function NatToString(n: nat): (s: string)
    ensures |s| > 0 && AllDigits(s)
  {
    if n < 10 then [DigitChar(n)] else NatToString(n / 10) + [DigitChar(n % 10)]
  }

  /** `Integer#to_s`: a minus sign before the digits of a negative number. */
  function IntToString(n: int): string {
    if n < 0 then "-" + NatToString(-n) else NatToString(n)
  }

  lemma {:induction false} DigitsFromSnoc(s: string, c: char, acc: int)
    requires AllDigits(s) && IsDigit(c)
    ensures DigitsFrom(s + [c], acc) == DigitsFrom(s, acc) * 10 + DigitValue(c)
    decreases |s|
  {
    if |s| > 0 {
      assert (s + [c])[1..] == s[1..] + [c];
      DigitsFromSnoc(s[1..], c, acc * 10 + DigitValue(s[0]));
    }
  }

  lemma {:induction false} UnsignedNatToString(n: nat)
    ensures Unsigned(NatToString(n)) == n
  {
    if n >= 10 {
      var front := NatToString(n / 10);
      var c := DigitChar(n % 10);
      UnsignedNatToString(n / 10);
      assert (front + [c])[1..] == front[1..] + [c];
      DigitsFromSnoc(front[1..], c, DigitValue(front[0]));
    }
  }

  /** `to_i` reads back what `to_s` writes. */
  lemma ToIRoundTrip(n: int)
    ensures ToI(IntToString(n)) == n
  {
    ToIPrefix(n, "");
    assert IntToString(n) + "" == IntToString(n);
  }

  /** A number written by `to_s` never starts with the `0d` prefix, and
      text after it adds one only after a lone `0`. */
  lemma WrittenNumberHasNoPrefix(m: nat, rest: string)
    requires m != 0 || |rest| == 0 || (rest[0] != 'd' && rest[0] != 'D')
    ensures !HasDecimalPrefix(NatToString(m) + rest)
  {
    var digits := NatToString(m);
    if m >= 10 {
      assert |NatToString(m / 10)| > 0;
      assert (digits + rest)[1] == digits[1];
    } else if m != 0 {
      assert (digits + rest)[0] == DigitChar(m);
    } else if |rest| > 0 {
      assert (digits + rest)[1] == rest[0];
    }
  }

  /** A character that ends a number: neither a digit nor the
      underscore `to_i` skips between digits. */
  predicate EndsNumber(rest: string) {
    |rest| == 0 || (!IsDigit(rest[0]) && rest[0] != '_')
  }

  lemma {:induction false} DigitsFromStop(s: string, rest: string, acc: int)
    requires AllDigits(s) && EndsNumber(rest)
    ensures DigitsFrom(s + rest, acc) == DigitsFrom(s, acc)
    decreases |s|
  {
    if |s| > 0 {
      assert (s + rest)[0] == s[0] && (s + rest)[1..] == s[1..] + rest;
      DigitsFromStop(s[1..], rest, acc * 10 + DigitValue(s[0]));
    } else {
      assert s + rest == rest;
    }
  }

  lemma {:induction false} UnsignedPrefix(n: nat, rest: string)
    requires EndsNumber(rest)
    ensures Unsigned(NatToString(n) + rest) == n
  {
    var digits := NatToString(n);
    var t := digits + rest;
    assert t[0] == digits[0] && t[1..] == digits[1..] + rest;
    DigitsFromStop(digits[1..], rest, DigitValue(digits[0]));
    UnsignedNatToString(n);
  }

  /** `to_i` of a string that starts with a minus sign or a digit: minus
      the number after the sign, or that number. Only `0d` or `0D` before
      a digit is a prefix; otherwise the leading digits are read. */
  lemma ToIUnspaced(u: string)
    requires |u| > 0 && (u[0] == '-' || IsDigit(u[0]))
    ensures u[0] == '-' ==> ToI(u) == -Magnitude(u[1..])
    ensures IsDigit(u[0]) && !HasDecimalPrefix(u) ==> ToI(u) == Unsigned(u)
    ensures IsDigit(u[0]) && HasDecimalPrefix(u) ==> ToI(u) == Unsigned(u[2..])
  {
    if u[0] == '-' {
      ToINegative(u);
    } else {
      ToINonNegative(u);
    }
  }

  /** `to_i` of a string that starts with a minus sign. */
  lemma ToINegative(u: string)
    requires |u| > 0 && u[0] == '-'
    ensures ToI(u) == -Magnitude(u[1..])
  {
    assert !IsSpace(u[0]);
  }

  /** `to_i` of a string that starts with a digit. */
  lemma ToINonNegative(u: string)
    requires |u| > 0 && IsDigit(u[0])
    ensures ToI(u) == Magnitude(u)
  {
    assert !IsSpace(u[0]) && u[0] != '-' && u[0] != '+';
  }

  /** `0d` or `0D` before the digits of a number is skipped, after a sign
      as well: "0d5" reads as 5 and "-0D12" as -12. */
  lemma {:induction false} DecimalPrefixRead(n: nat, rest: string, d: char)
    requires EndsNumber(rest) && (d == 'd' || d == 'D')
    ensures ToI(['0', d] + (NatToString(n) + rest)) == n
    ensures ToI(['-', '0', d] + (NatToString(n) + rest)) == -(n as int)
  {
    var t := NatToString(n) + rest;
    UnsignedPrefix(n, rest);
    PrefixedRead(t, d);
    NegativePrefixedRead(t, d);
  }

  /** `to_i` of `0d` before any text reads the number at the front of
      that text. */
  lemma PrefixedRead(t: string, d: char)
    requires d == 'd' || d == 'D'
    ensures ToI(['0', d] + t) == Unsigned(t)
  {
    var u := ['0', d] + t;
    assert HasDecimalPrefix(u) && u[2..] == t;
    ToIUnspaced(u);
  }

  /** `to_i` of `-0d` before any text reads minus the number at the front
      of that text. */
  lemma NegativePrefixedRead(t: string, d: char)
    requires d == 'd' || d == 'D'
    ensures ToI(['-', '0', d] + t) == -Unsigned(t)
  {
    var u := ['0', d] + t;
    var v := ['-', '0', d] + t;
    assert v[1..] == u;
    assert HasDecimalPrefix(u) && u[2..] == t;
    ToIUnspaced(v);
  }

  /** `0d` with no digit after it reads as 0, as "0" does. */
  lemma DecimalPrefixAlone(rest: string, d: char)
    requires (|rest| == 0 || !IsDigit(rest[0])) && (d == 'd' || d == 'D')
    ensures ToI(['0', d] + rest) == 0
  {
    var u := ['0', d] + rest;
    assert HasDecimalPrefix(u) && u[2..] == rest;
    ToIUnspaced(u);
  }

  /** What follows a number written by `to_s` and cannot continue it: not
      a digit, not an underscore and, after a lone `0`, not a `d` or `D`
      that a digit follows. */
  predicate EndsNumberAfter(n: int, rest: string) {
    EndsNumber(rest) && (n == 0 ==> !(|rest| >= 2 && (rest[0] == 'd' || rest[0] == 'D') && IsDigit(rest[1])))
  }

  /** `to_i` reads back a number written at the front of a string, when
      what follows cannot continue it. */
  lemma {:induction false} ToIPrefix(n: int, rest: string)
    requires EndsNumberAfter(n, rest)
    ensures ToI(IntToString(n) + rest) == n
  {
    var m: nat := if n < 0 then -n else n;
    var t := NatToString(m) + rest;
    MagnitudePrefix(m, rest);
    if n < 0 {
      var u := "-" + t;
      assert IntToString(n) + rest == u;
      assert u[1..] == t;
      ToINegative(u);
    } else {
      assert IntToString(n) + rest == t;
      assert t[0] == NatToString(m)[0];
      ToINonNegative(t);
    }
  }

  /** The number after the sign reads back a natural number written at
      the front, when what follows cannot continue it. */
  lemma {:induction false} MagnitudePrefix(m: nat, rest: string)
    requires EndsNumberAfter(m, rest)
    ensures Magnitude(NatToString(m) + rest) == m
  {
    var t := NatToString(m) + rest;
    UnsignedPrefix(m, rest);
    if m == 0 && |rest| > 0 && (rest[0] == 'd' || rest[0] == 'D') {
      // "0d" followed by no digit: the prefix is skipped and nothing is read.
      assert t == "0" + rest && t[2..] == rest[1..];
      assert HasDecimalPrefix(t);
    } else {
      WrittenNumberHasNoPrefix(m, rest);
    }
  }

  // ---------------------------------------------------------------
  // String#split and Array#join

  /** The fields of `s` after the partial field `cur`: a run of white space
      ends a non-empty field, and empty fields are dropped. */
  function SplitFrom(s: string, cur: string): seq<string>
    decreases |s|
  {
    if |s| == 0 then (if |cur| > 0 then [cur] else [])
    else if IsSpace(s[0]) then (if |cur| > 0 then [cur] else []) + SplitFrom(s[1..], "")
    else SplitFrom(s[1..], cur + [s[0]])
  }

  /** `String#split` with no argument: the maximal runs of characters that
      are not white space, in order. */
  function Split(s: string): seq<string> {
    SplitFrom(s, "")
  }

  /** A word of `split`'s result. */
  predicate IsWord(t: string) {
    |t| > 0 && NoSpace(t)
  }

  lemma {:induction false} SplitFromWords(s: string, cur: string)
    requires NoSpace(cur)
    ensures forall k :: 0 <= k < |SplitFrom(s, cur)| ==> IsWord(SplitFrom(s, cur)[k])
    decreases |s|
  {
    if |s| > 0 {
      if IsSpace(s[0]) {
        SplitFromWords(s[1..], "");
      } else {
        SplitFromWords(s[1..], cur + [s[0]]);
      }
    }
  }

  /** Every field `split` returns is a non-empty word without white
      space. */
  lemma SplitWords(s: string)
    ensures forall k :: 0 <= k < |Split(s)| ==> IsWord(Split(s)[k])
  {
    SplitFromWords(s, "");
  }

  lemma {:induction false} SplitFromTrailingSpace(s: string, c: char, cur: string)
    requires IsSpace(c)
    ensures SplitFrom(s + [c], cur) == SplitFrom(s, cur)
    decreases |s|
  {
    if |s| > 0 {
      assert (s + [c])[1..] == s[1..] + [c];
      if IsSpace(s[0]) {
        SplitFromTrailingSpace(s[1..], c, "");
      } else {
        SplitFromTrailingSpace(s[1..], c, cur + [s[0]]);
      }
    } else {
      assert s + [c] == [c];
      assert SplitFrom([c], cur) == (if |cur| > 0 then [cur] else []) + SplitFrom([c][1..], "");
    }
  }

  /** White space at the end of a string adds no field. */
  lemma SplitTrailingSpace(s: string, c: char)
    requires IsSpace(c)
    ensures Split(s + [c]) == Split(s)
  {
    SplitFromTrailingSpace(s, c, "");
  }

  /** The decimal form of a number is one word. */
  lemma IntToStringIsWord(n: int)
    ensures IsWord(IntToString(n))
  {
    var digits := if n < 0 then NatToString(-n) else NatToString(n);
    assert forall i :: 0 <= i < |digits| ==> IsDigit(digits[i]);
    if n < 0 {
      assert forall i :: 1 <= i < |IntToString(n)| ==> IntToString(n)[i] == digits[i - 1];
    }
  }

  /** `Array#join(sep)`. */
  function Join(ts: seq<string>, sep: string): string {
    if |ts| == 0 then ""
    else if |ts| == 1 then ts[0]
    else ts[0] + sep + Join(ts[1..], sep)
  }

  /** Joining a list with one more element appends the separator and that
      element. */
  lemma {:induction false} JoinSnoc(ts: seq<string>, t: string, sep: string)
    requires ts != []
    ensures Join(ts + [t], sep) == Join(ts, sep) + sep + t
    decreases |ts|
  {
    if |ts| == 1 {
      assert (ts + [t])[1..] == [t];
    } else {
      assert (ts + [t])[1..] == ts[1..] + [t];
      JoinSnoc(ts[1..], t, sep);
    }
  }

  lemma {:induction false} SplitFromWord(t: string, rest: string, cur: string)
    requires NoSpace(t)
    ensures SplitFrom(t + rest, cur) == SplitFrom(rest, cur + t)
    decreases |t|
  {
    if |t| > 0 {
      assert (t + rest)[1..] == t[1..] + rest;
      assert cur + t == (cur + [t[0]]) + t[1..];
      SplitFromWord(t[1..], rest, cur + [t[0]]);
    } else {
      assert t + rest == rest && cur + t == cur;
    }
  }

  /** Splitting words joined by single spaces gives the words back. */
  lemma {:induction false} SplitJoin(ts: seq<string>)
    requires forall k :: 0 <= k < |ts| ==> IsWord(ts[k])
    ensures Split(Join(ts, " ")) == ts
  {
    if |ts| == 1 {
      SplitFromWord(ts[0], "", "");
      assert ts[0] + "" == ts[0] && "" + ts[0] == ts[0];
    } else if |ts| > 1 {
      var rest := Join(ts[1..], " ");
      assert Join(ts, " ") == ts[0] + (" " + rest);
      SplitFromWord(ts[0], " " + rest, "");
      assert "" + ts[0] == ts[0];
      assert (" " + rest)[1..] == rest;
      SplitJoin(ts[1..]);
    }
  }

  /** The fields of `s` separated by `c`, after the partial field `cur`;
      empty fields are kept. */
  function FieldsFrom(s: string, c: char, cur: string): seq<string>
    decreases |s|
  {
    if |s| == 0 then [cur]
    else if s[0] == c then [cur] + FieldsFrom(s[1..], c, "")
    else FieldsFrom(s[1..], c, cur + [s[0]])
  }

  /** The pieces of `s` between the occurrences of `c`. */
  function Fields(s: string, c: char): seq<string> {
    FieldsFrom(s, c, "")
  }

  lemma {:induction false} FieldsFromPiece(t: string, rest: string, c: char, cur: string)
    requires c !in t
    ensures FieldsFrom(t + rest, c, cur) == FieldsFrom(rest, c, cur + t)
    decreases |t|
  {
    if |t| > 0 {
      assert (t + rest)[1..] == t[1..] + rest;
      assert cur + t == (cur + [t[0]]) + t[1..];
      FieldsFromPiece(t[1..], rest, c, cur + [t[0]]);
    } else {
      assert t + rest == rest && cur + t == cur;
    }
  }

  /** Joining pieces that do not contain `c` with `c` and cutting the
      result at each `c` gives the pieces back. */
  lemma {:induction false} FieldsJoin(ts: seq<string>, c: char)
    requires |ts| > 0
    requires forall k :: 0 <= k < |ts| ==> c !in ts[k]
    ensures Fields(Join(ts, [c]), c) == ts
  {
    if |ts| == 1 {
      FieldsFromPiece(ts[0], "", c, "");
      assert ts[0] + "" == ts[0] && "" + ts[0] == ts[0];
    } else {
      var rest := Join(ts[1..], [c]);
      assert Join(ts, [c]) == ts[0] + ([c] + rest);
      FieldsFromPiece(ts[0], [c] + rest, c, "");
      assert "" + ts[0] == ts[0];
      assert ([c] + rest)[1..] == rest;
      FieldsJoin(ts[1..], c);
    }
  }
}
