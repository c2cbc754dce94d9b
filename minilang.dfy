/** The stack machine of lesson_5/medium_1/5.rb: a register and a stack
    of values, driven by the whitespace-separated commands of a program
    string. */
module StackMachine {
  import opened Util
  import opened RubyString

  /** What a failing command raises. */
  datatype Error =
    | NilReceiver    // the register holds nil, which has no arithmetic (NoMethodError)
    | NilOperand     // the popped value is nil, which is not a number (TypeError)
    | DividedByZero  // DIV or MOD by zero (ZeroDivisionError)

  /** A value or the error raised while computing it. */
  datatype Outcome<T> = Ok(value: T) | Raised(error: Error)

  /** The register and the stack; `POP` on an empty stack leaves nil in
      the register, and `PUSH` may then push that nil. */
  datatype Machine = Machine(register: Option<int>, stack: seq<Option<int>>)

  /** The machine `Minilang.new` starts from. */
  const START: Machine := Machine(Some(0), [])

  datatype Op = Add | Sub | Mult | Div | Mod

  /** The arithmetic commands. */
  function OpOf(command: string): Option<Op> {
    if command == "ADD" then Some(Add)
    else if command == "SUB" then Some(Sub)
    else if command == "MULT" then Some(Mult)
    else if command == "DIV" then Some(Div)
    else if command == "MOD" then Some(Mod)
    else None
  }

  /** `when /\d/`: the command contains a digit. */
  predicate HasDigit(s: string) {
    |s| > 0 && (IsDigit(s[0]) || HasDigit(s[1..]))
  }

  /** `Array#pop`: the last element, nil for an empty array. */
  function Top(s: seq<Option<int>>): Option<int> {
    if |s| == 0 then None else s[|s| - 1]
  }

  /** The array after `pop`. */
  function Popped(s: seq<Option<int>>): seq<Option<int>> {
    if |s| == 0 then s else s[..|s| - 1]
  }

  /** `register op= top`: nil on the left has no such method, nil on the
      right cannot be converted, and Ruby's `/` and `%` round toward
      negative infinity and refuse a zero divisor. */
  function Apply(op: Op, register: Option<int>, top: Option<int>): (r: Outcome<int>)
    ensures r.Raised? <==> register.None? || top.None? || (op in {Div, Mod} && top.value == 0)
    ensures r.Raised? && register.None? ==> r.error == NilReceiver
    ensures r.Raised? && register.Some? && top.None? ==> r.error == NilOperand
  {
    match register
    case None => Raised(NilReceiver)
    case Some(a) =>
      match top
      case None => Raised(NilOperand)
      case Some(b) =>
        match op
        case Add => Ok(a + b)
        case Sub => Ok(a - b)
        case Mult => Ok(a * b)
        case Div => if b == 0 then Raised(DividedByZero) else Ok(FloorDiv(a, b))
        case Mod => if b == 0 then Raised(DividedByZero) else Ok(FloorMod(a, b))
  }

  /** DIV and MOD by the same top agree: the quotient times the top plus
      the remainder is the register, and the remainder has the sign of the
      top, as Ruby's floored division promises. */
  lemma DivModAgree(a: int, b: int)
    requires b != 0
    ensures Apply(Div, Some(a), Some(b)).Ok? && Apply(Mod, Some(a), Some(b)).Ok?
    ensures a == b * Apply(Div, Some(a), Some(b)).value + Apply(Mod, Some(a), Some(b)).value
    ensures b > 0 ==> 0 <= Apply(Mod, Some(a), Some(b)).value < b
    ensures b < 0 ==> b < Apply(Mod, Some(a), Some(b)).value <= 0
  {
  }

  /** What one command does: the machine afterwards and what it printed,
      or the machine at the moment of the error and the error. */
  datatype StepResult =
    | Next(machine: Machine, printed: seq<Option<int>>)
    | Stop(machine: Machine, error: Error)

  /** An arithmetic command: the top is popped, then `register op top`
      replaces the register, or the error is raised. */
  function Arithmetic(m: Machine, op: Op): StepResult {
    match Apply(op, m.register, Top(m.stack))
    case Ok(n) => Next(Machine(Some(n), Popped(m.stack)), [])
    case Raised(e) => Stop(Machine(m.register, Popped(m.stack)), e)
  }

  /** One command of `eval`'s `case`. An arithmetic command pops before
      it computes, so the stack has lost its top even when it raises. A
      command that is no keyword and has no digit is skipped. */
  function Step(m: Machine, command: string): StepResult {
    if command == "PUSH" then Next(Machine(m.register, m.stack + [m.register]), [])
    else if OpOf(command).Some? then Arithmetic(m, OpOf(command).value)
    else if command == "POP" then Next(Machine(Top(m.stack), Popped(m.stack)), [])
    else if command == "PRINT" then Next(m, [m.register])
    else if HasDigit(command) then Next(Machine(Some(ToI(command)), m.stack), [])
    else Next(m, [])
  }

  /** The machine at the end of a run, everything printed, and the error
      that ended it early, if one did. */
  datatype Final = Final(machine: Machine, printed: seq<Option<int>>, error: Option<Error>)

  /** The commands run left to right; an error ends the run. */
  function Run(m: Machine, commands: seq<string>): Final
    decreases |commands|
  {
    if |commands| == 0 then Final(m, [], None)
    else
      match Step(m, commands[0])
      case Stop(m', e) => Final(m', [], Some(e))
      case Next(m', p) =>
        var f := Run(m', commands[1..]);
        Final(f.machine, p + f.printed, f.error)
  }

  /** A run that ended as `f`, continued with the commands `b`: an error
      ends it where it is, otherwise `b` runs from the machine it left and
      its output follows. */
  function Continue(f: Final, b: seq<string>): Final {
    if f.error.Some? then f
    else
      var g := Run(f.machine, b);
      Final(g.machine, f.printed + g.printed, g.error)
  }

  /** Running two lists of commands one after the other is running their
      concatenation: the second starts from the machine the first left,
      unless the first raised. */
  lemma {:induction false} RunAppend(m: Machine, a: seq<string>, b: seq<string>)
    ensures Run(m, a + b) == Continue(Run(m, a), b)
    decreases |a|
  {
    if |a| == 0 {
      assert a + b == b;
      assert [] + Run(m, b).printed == Run(m, b).printed;
    } else {
      assert (a + b)[0] == a[0] && (a + b)[1..] == a[1..] + b;
      match Step(m, a[0])
      case Stop(_, _) =>
      case Next(m', p) =>
        RunAppend(m', a[1..], b);
        var f := Run(m', a[1..]);
        if f.error.None? {
          var g := Run(f.machine, b);
          assert p + (f.printed + g.printed) == (p + f.printed) + g.printed;
        }
    }
  }

  /** `Run` from the `i`-th command on: its step, then the rest. */
  lemma RunFrom(m: Machine, commands: seq<string>, i: nat)
    requires i < |commands|
    ensures Run(m, commands[i..]) ==
      match Step(m, commands[i])
      case Stop(m', e) => Final(m', [], Some(e))
      case Next(m', p) => Continue(Final(m', p, None), commands[i + 1..])
  {
    assert commands[i..][0] == commands[i] && commands[i..][1..] == commands[i + 1..];
  }

  /** Output already printed stays in front of what a continuation
      prints: continuing `printed` and then `out` is continuing their
      concatenation. */
  lemma ContinueNext(printed: seq<Option<int>>, out: seq<Option<int>>, m: Machine, rest: seq<string>)
    ensures Continue(Final(m, printed + out, None), rest) ==
      var f := Continue(Final(m, out, None), rest);
      Final(f.machine, printed + f.printed, f.error)
  {
    var g := Run(m, rest);
    assert printed + (out + g.printed) == (printed + out) + g.printed;
  }

  /** `PUSH` keeps the register and `POP` then takes it back: the pair
      leaves the machine as it was. */
  lemma PushPop(m: Machine)
    ensures Run(m, ["PUSH", "POP"]) == Final(m, [], None)
  {
    var pushed := Machine(m.register, m.stack + [m.register]);
    assert Step(m, "PUSH") == Next(pushed, []);
    assert Popped(pushed.stack) == m.stack;
    assert ["PUSH", "POP"][1..] == ["POP"];
  }

  /** A command that starts with a digit or a minus sign and holds a
      digit is a number to the `case`: no keyword starts that way. */
  lemma StepNumber(m: Machine, s: string)
    requires |s| > 0 && (s[0] == '-' || IsDigit(s[0])) && HasDigit(s)
    ensures Step(m, s) == Next(Machine(Some(ToI(s)), m.stack), [])
  {
    var c := s[0];
    assert c != 'P' && c != 'A' && c != 'S' && c != 'M' && c != 'D';
    assert s != "PUSH" by { assert "PUSH"[0] == 'P'; }
    assert s != "POP" by { assert "POP"[0] == 'P'; }
    assert s != "PRINT" by { assert "PRINT"[0] == 'P'; }
    assert s != "ADD" by { assert "ADD"[0] == 'A'; }
    assert s != "SUB" by { assert "SUB"[0] == 'S'; }
    assert s != "MULT" by { assert "MULT"[0] == 'M'; }
    assert s != "DIV" by { assert "DIV"[0] == 'D'; }
    assert s != "MOD" by { assert "MOD"[0] == 'M'; }
  }

  /** The decimal form of an integer starts with a digit or a minus sign
      and holds a digit. */
  lemma NumberShape(n: int)
    ensures var s := IntToString(n);
      |s| > 0 && (s[0] == '-' || IsDigit(s[0])) && HasDigit(s)
  {
    var s := IntToString(n);
    var digits := if n < 0 then NatToString(-n) else NatToString(n);
    ToIRoundTrip(n);
    assert IsDigit(digits[0]);
    if n < 0 {
      assert s[1..] == digits;
      assert HasDigit(s[1..]);
    }
  }

  /** The decimal form of any integer loads that integer into the register
      and touches nothing else. */
  lemma LoadNumber(m: Machine, n: int)
    ensures Step(m, IntToString(n)) == Next(Machine(Some(n), m.stack), [])
  {
    NumberShape(n);
    ToIRoundTrip(n);
    StepNumber(m, IntToString(n));
  }

  /** `PUSH` copies the register onto the stack. */
  lemma StepPush(m: Machine)
    ensures Step(m, "PUSH") == Next(Machine(m.register, m.stack + [m.register]), [])
  {
  }

  /** `POP` moves the top of the stack, nil for an empty one, into the
      register. */
  lemma StepPop(m: Machine)
    ensures Step(m, "POP") == Next(Machine(Top(m.stack), Popped(m.stack)), [])
  {
  }

  /** `PRINT` prints the register and changes nothing. */
  lemma StepPrint(m: Machine)
    ensures Step(m, "PRINT") == Next(m, [m.register])
  {
  }

  /** A command that is no keyword and has no digit changes nothing and
      prints nothing. */
  lemma StepSkip(m: Machine, other: string)
    requires other !in {"PUSH", "ADD", "SUB", "MULT", "DIV", "MOD", "POP", "PRINT"}
    requires !HasDigit(other)
    ensures Step(m, other) == Next(m, [])
  {
  }

  /** The five arithmetic keywords and their operations. */
  lemma ArithmeticKeywords()
    ensures OpOf("ADD") == Some(Add) && OpOf("SUB") == Some(Sub) && OpOf("MULT") == Some(Mult)
    ensures OpOf("DIV") == Some(Div) && OpOf("MOD") == Some(Mod)
  {
  }

  /** An arithmetic command computes `register op top` from the register
      and the popped top, and replaces both by the result. */
  lemma ArithmeticUsesTop(r: int, below: seq<Option<int>>, t: int, command: string, op: Op)
    requires OpOf(command) == Some(op)
    requires op in {Div, Mod} ==> t != 0
    ensures Step(Machine(Some(r), below + [Some(t)]), command) ==
      Next(Machine(Some(Apply(op, Some(r), Some(t)).value), below), [])
  {
    assert Popped(below + [Some(t)]) == below;
  }

  /** An arithmetic command on an empty stack pops nil and raises. */
  lemma ArithmeticOnEmptyStack(r: Option<int>, command: string)
    requires command in {"ADD", "SUB", "MULT", "DIV", "MOD"}
    ensures Step(Machine(r, []), command).Stop?
  {
  }

  /** The object `Minilang.new` builds, with `eval`. */
  class Minilang {
    const commandString: string
    var register: Option<int>
    var stack: seq<Option<int>>

    /** `initialize`: the register is 0 and the stack is empty. */
    constructor (commandString: string)
      ensures this.commandString == commandString
      ensures register == START.register && stack == START.stack
    {
      this.commandString := commandString;
      register := Some(0);
      stack := [];
    }

    function State(): Machine
      reads this
    {
      Machine(register, stack)
    }

    /** `@stack.pop` */
    method Pop() returns (top: Option<int>)
      modifies this`stack
      ensures top == Top(old(stack)) && stack == Popped(old(stack))
    {
      if |stack| == 0 {
        top := None;
      } else {
        top := stack[|stack| - 1];
        stack := stack[..|stack| - 1];
      }
    }

    /** One pass of `eval`'s `case`: the values it printed, or the error
        it raised. */
    method Execute(command: string) returns (printed: seq<Option<int>>, error: Option<Error>)
      modifies this
      ensures error.None? ==> Step(old(State()), command) == Next(State(), printed)
      ensures error.Some? ==> Step(old(State()), command) == Stop(State(), error.value)
    {
      printed := [];
      error := None;
      if command == "PUSH" {
        stack := stack + [register];
      } else if OpOf(command).Some? {
        var top := Pop();
        var r := Apply(OpOf(command).value, register, top);
        if r.Raised? {
          error := Some(r.error);
        } else {
          register := Some(r.value);
        }
      } else if command == "POP" {
        var top := Pop();
        register := top;
      } else if command == "PRINT" {
        printed := [register];
      } else if HasDigit(command) {
        register := Some(ToI(command));
      }
    }

    /** `eval`: the commands of `split` one by one; the values `PRINT`
        puts are returned in order, and an error ends the loop and is
        returned with the machine as the error left it. */
    method Eval() returns (printed: seq<Option<int>>, error: Option<Error>)
      modifies this
      ensures Run(old(State()), Split(commandString)) == Final(State(), printed, error)
    {
      var commands := Split(commandString);
      ghost var m0 := State();
      printed := [];
      error := None;
      var i := 0;
      while i < |commands|
        invariant 0 <= i <= |commands|
        invariant Run(m0, commands) == Continue(Final(State(), printed, None), commands[i..])
      {
        ghost var before := State();
        RunFrom(before, commands, i);
        var out, err := Execute(commands[i]);
        if err.Some? {
          error := err;
          assert printed + [] == printed;
          return;
        }
        ContinueNext(printed, out, State(), commands[i + 1..]);
        printed := printed + out;
        i := i + 1;
      }
      assert commands[i..] == [];
      assert printed + [] == printed;
    }
  }

  // ---------------------------------------------------------------
  // The sample programs

  /** A program written as words joined by single blanks runs those
      words. */
  lemma RunText(m: Machine, words: seq<string>)
    requires forall k :: 0 <= k < |words| ==> IsWord(words[k])
    ensures Run(m, Split(Join(words, " "))) == Run(m, words)
  {
    SplitJoin(words);
  }

  /** `Run` on a list that starts with a command that does not raise:
      what it prints comes first, then what the rest prints. */
  lemma RunCons(m: Machine, command: string, rest: seq<string>, m': Machine, p: seq<Option<int>>, f: Final)
    requires Step(m, command) == Next(m', p)
    requires Run(m', rest) == f
    ensures Run(m, [command] + rest) == Final(f.machine, p + f.printed, f.error)
  {
    assert ([command] + rest)[0] == command && ([command] + rest)[1..] == rest;
  }

  /** 'PRINT' prints the 0 the machine starts with. */
  lemma ProgramPrint()
    ensures Run(START, ["PRINT"]) == Final(START, [Some(0)], None)
  {
    StepPrint(START);
    RunCons(START, "PRINT", [], START, [Some(0)], Final(START, [], None));
  }

  /** An arithmetic command and `PRINT` on a register and a one-value
      stack: the result is printed and the stack is empty. */
  lemma OpPrint(r: int, t: int, command: string, op: Op)
    requires OpOf(command) == Some(op)
    requires op in {Div, Mod} ==> t != 0
    ensures var v := Apply(op, Some(r), Some(t)).value;
      Run(Machine(Some(r), [Some(t)]), [command, "PRINT"]) == Final(Machine(Some(v), []), [Some(v)], None)
  {
    var v := Apply(op, Some(r), Some(t)).value;
    var m := Machine(Some(v), []);
    assert [Some(t)] == [] + [Some(t)];
    ArithmeticUsesTop(r, [], t, command, op);
    StepPrint(m);
    RunCons(m, "PRINT", [], m, [Some(v)], Final(m, [], None));
    RunCons(Machine(Some(r), [Some(t)]), command, ["PRINT"], m, [], Final(m, [Some(v)], None));
  }

  /** `a PUSH b <command> PRINT`: prints `b <op> a`. */
  lemma LoadThenOp(a: int, b: int, command: string, op: Op)
    requires OpOf(command) == Some(op)
    requires op in {Div, Mod} ==> a != 0
    ensures var v := Apply(op, Some(b), Some(a)).value;
      Run(START, [IntToString(a), "PUSH", IntToString(b), command, "PRINT"]) ==
      Final(Machine(Some(v), []), [Some(v)], None)
  {
    var v := Apply(op, Some(b), Some(a)).value;
    var f := Final(Machine(Some(v), []), [Some(v)], None);
    var m1 := Machine(Some(a), []);
    var m2 := Machine(Some(a), [Some(a)]);
    OpPrint(b, a, command, op);
    LoadNumber(m2, b);
    RunCons(m2, IntToString(b), [command, "PRINT"], Machine(Some(b), [Some(a)]), [], f);
    StepPush(m1);
    RunCons(m1, "PUSH", [IntToString(b), command, "PRINT"], m2, [], f);
    LoadNumber(START, a);
    RunCons(START, IntToString(a), ["PUSH", IntToString(b), command, "PRINT"], m1, [], f);
  }

  /** `b <command> MULT PRINT` on a register and two copies of `a`:
      prints `(b <op> a) * a`, computed as MULT does. */
  lemma OpTimesTail(a: int, b: int, command: string, op: Op)
    requires OpOf(command) == Some(op) && OpOf("MULT") == Some(Mult)
    requires op in {Div, Mod} ==> a != 0
    ensures var v := Apply(op, Some(b), Some(a)).value;
      var w := Apply(Mult, Some(v), Some(a)).value;
      Run(Machine(Some(a), [Some(a), Some(a)]), [IntToString(b), command, "MULT", "PRINT"]) ==
      Final(Machine(Some(w), []), [Some(w)], None)
  {
    var v := Apply(op, Some(b), Some(a)).value;
    var w := Apply(Mult, Some(v), Some(a)).value;
    var f := Final(Machine(Some(w), []), [Some(w)], None);
    var m3 := Machine(Some(a), [Some(a), Some(a)]);
    var m4 := Machine(Some(b), [Some(a), Some(a)]);
    OpPrint(v, a, "MULT", Mult);
    assert [Some(a), Some(a)] == [Some(a)] + [Some(a)];
    ArithmeticUsesTop(b, [Some(a)], a, command, op);
    RunCons(m4, command, ["MULT", "PRINT"], Machine(Some(v), [Some(a)]), [], f);
    LoadNumber(m3, b);
    RunCons(m3, IntToString(b), [command, "MULT", "PRINT"], m4, [], f);
  }

  /** `PUSH b <command> MULT PRINT` on `a` and a stack holding `a`. */
  lemma PushOpTimesTail(a: int, b: int, command: string, op: Op)
    requires OpOf(command) == Some(op) && OpOf("MULT") == Some(Mult)
    requires op in {Div, Mod} ==> a != 0
    ensures var v := Apply(op, Some(b), Some(a)).value;
      var w := Apply(Mult, Some(v), Some(a)).value;
      Run(Machine(Some(a), [Some(a)]), ["PUSH", IntToString(b), command, "MULT", "PRINT"]) ==
      Final(Machine(Some(w), []), [Some(w)], None)
  {
    var v := Apply(op, Some(b), Some(a)).value;
    var w := Apply(Mult, Some(v), Some(a)).value;
    var m2 := Machine(Some(a), [Some(a)]);
    OpTimesTail(a, b, command, op);
    StepPush(m2);
    RunCons(m2, "PUSH", [IntToString(b), command, "MULT", "PRINT"], Machine(Some(a), [Some(a), Some(a)]), [],
      Final(Machine(Some(w), []), [Some(w)], None));
  }

  /** `a PUSH PUSH b <command> MULT PRINT`: prints `(b <op> a) * a`. */
  lemma LoadThenOpTimes(a: int, b: int, command: string, op: Op)
    requires OpOf(command) == Some(op) && OpOf("MULT") == Some(Mult)
    requires op in {Div, Mod} ==> a != 0
    ensures var v := Apply(op, Some(b), Some(a)).value;
      var w := Apply(Mult, Some(v), Some(a)).value;
      Run(START, [IntToString(a), "PUSH", "PUSH", IntToString(b), command, "MULT", "PRINT"]) ==
      Final(Machine(Some(w), []), [Some(w)], None)
  {
    var v := Apply(op, Some(b), Some(a)).value;
    var w := Apply(Mult, Some(v), Some(a)).value;
    var f := Final(Machine(Some(w), []), [Some(w)], None);
    var m1 := Machine(Some(a), []);
    PushOpTimesTail(a, b, command, op);
    StepPush(m1);
    RunCons(m1, "PUSH", ["PUSH", IntToString(b), command, "MULT", "PRINT"], Machine(Some(a), [Some(a)]), [], f);
    LoadNumber(START, a);
    RunCons(START, IntToString(a), ["PUSH", "PUSH", IntToString(b), command, "MULT", "PRINT"], m1, [], f);
  }

  /** The program '5 PUSH 3 MULT PRINT' with any numbers in place of its own: it
      prints the second number times the first, 15 for its 5 and 3. */
  lemma ProgramMult(a: int, b: int)
    ensures Run(START, [IntToString(a), "PUSH", IntToString(b), "MULT", "PRINT"]) ==
      Final(Machine(Some(b * a), []), [Some(b * a)], None)
  {
    ArithmeticKeywords();
    LoadThenOp(a, b, "MULT", Mult);
  }

  /** The last 4 commands of the program below, from the machine its
      first 3 leave. */
  lemma AddTail(a: int, b: int)
    ensures Run(Machine(Some(a), [Some(a)]), [IntToString(b), "PRINT", "ADD", "PRINT"]) ==
      Final(Machine(Some(b + a), []), [Some(b), Some(b + a)], None)
  {
    var m1 := Machine(Some(b), [Some(a)]);
    var f := Final(Machine(Some(b + a), []), [Some(b + a)], None);
    ArithmeticKeywords();
    OpPrint(b, a, "ADD", Add);
    StepPrint(m1);
    RunCons(m1, "PRINT", ["ADD", "PRINT"], m1, [Some(b)], f);
    assert [Some(b)] + [Some(b + a)] == [Some(b), Some(b + a)];
    LoadNumber(Machine(Some(a), [Some(a)]), b);
    RunCons(Machine(Some(a), [Some(a)]), IntToString(b), ["PRINT", "ADD", "PRINT"], m1, [],
      Final(Machine(Some(b + a), []), [Some(b), Some(b + a)], None));
  }

  /** The program '5 PRINT PUSH 3 PRINT ADD PRINT' with any numbers in place of its own: it
      prints both numbers and then their sum: 5, 3 and 8. */
  lemma ProgramAdd(a: int, b: int)
    ensures Run(START, [IntToString(a), "PRINT", "PUSH", IntToString(b), "PRINT", "ADD", "PRINT"]) ==
      Final(Machine(Some(b + a), []), [Some(a), Some(b), Some(b + a)], None)
  {
    LoadNumber(Machine(Some(0), []), a);
    StepPrint(Machine(Some(a), []));
    StepPush(Machine(Some(a), []));
    AddTail(a, b);
    RunCons(Machine(Some(a), []), "PUSH", [IntToString(b), "PRINT", "ADD", "PRINT"], Machine(Some(a), [Some(a)]), [],
      Final(Machine(Some(b + a), []), [Some(b), Some(b + a)], None));
    assert [Some(a)] + [Some(b), Some(b + a)] == [Some(a), Some(b), Some(b + a)];
    RunCons(Machine(Some(a), []), "PRINT", ["PUSH", IntToString(b), "PRINT", "ADD", "PRINT"], Machine(Some(a), []), [Some(a)],
      Final(Machine(Some(b + a), []), [Some(b), Some(b + a)], None));
    RunCons(Machine(Some(0), []), IntToString(a), ["PRINT", "PUSH", IntToString(b), "PRINT", "ADD", "PRINT"], Machine(Some(a), []), [],
      Final(Machine(Some(b + a), []), [Some(a), Some(b), Some(b + a)], None));
  }

  /** The program '5 PUSH 10 PRINT POP PRINT' with any numbers in place of its own: it
      prints the second number and then the first, which `POP` brings back:
      10 and 5. */
  lemma ProgramPop(a: int, b: int)
    ensures Run(START, [IntToString(a), "PUSH", IntToString(b), "PRINT", "POP", "PRINT"]) ==
      Final(Machine(Some(a), []), [Some(b), Some(a)], None)
  {
    LoadNumber(Machine(Some(0), []), a);
    StepPush(Machine(Some(a), []));
    LoadNumber(Machine(Some(a), [Some(a)]), b);
    StepPrint(Machine(Some(b), [Some(a)]));
    StepPop(Machine(Some(b), [Some(a)]));
    StepPrint(Machine(Some(a), []));
    RunCons(Machine(Some(a), []), "PRINT", [], Machine(Some(a), []), [Some(a)],
      Final(Machine(Some(a), []), [], None));
    RunCons(Machine(Some(b), [Some(a)]), "POP", ["PRINT"], Machine(Some(a), []), [],
      Final(Machine(Some(a), []), [Some(a)], None));
    assert [Some(b)] + [Some(a)] == [Some(b), Some(a)];
    RunCons(Machine(Some(b), [Some(a)]), "PRINT", ["POP", "PRINT"], Machine(Some(b), [Some(a)]), [Some(b)],
      Final(Machine(Some(a), []), [Some(a)], None));
    RunCons(Machine(Some(a), [Some(a)]), IntToString(b), ["PRINT", "POP", "PRINT"], Machine(Some(b), [Some(a)]), [],
      Final(Machine(Some(a), []), [Some(b), Some(a)], None));
    RunCons(Machine(Some(a), []), "PUSH", [IntToString(b), "PRINT", "POP", "PRINT"], Machine(Some(a), [Some(a)]), [],
      Final(Machine(Some(a), []), [Some(b), Some(a)], None));
    RunCons(Machine(Some(0), []), IntToString(a), ["PUSH", IntToString(b), "PRINT", "POP", "PRINT"], Machine(Some(a), []), [],
      Final(Machine(Some(a), []), [Some(b), Some(a)], None));
  }

  /** The program '5 PUSH POP POP PRINT' with any numbers in place of its own: it
      prints nil, which the second `POP` takes from the empty stack; `puts nil`
      writes an empty line. */
  lemma ProgramEmptyPop(a: int)
    ensures Run(START, [IntToString(a), "PUSH", "POP", "POP", "PRINT"]) ==
      Final(Machine(None, []), [None], None)
  {
    LoadNumber(Machine(Some(0), []), a);
    StepPush(Machine(Some(a), []));
    StepPop(Machine(Some(a), [Some(a)]));
    StepPop(Machine(Some(a), []));
    StepPrint(Machine(None, []));
    RunCons(Machine(None, []), "PRINT", [], Machine(None, []), [None],
      Final(Machine(None, []), [], None));
    RunCons(Machine(Some(a), []), "POP", ["PRINT"], Machine(None, []), [],
      Final(Machine(None, []), [None], None));
    RunCons(Machine(Some(a), [Some(a)]), "POP", ["POP", "PRINT"], Machine(Some(a), []), [],
      Final(Machine(None, []), [None], None));
    RunCons(Machine(Some(a), []), "PUSH", ["POP", "POP", "PRINT"], Machine(Some(a), [Some(a)]), [],
      Final(Machine(None, []), [None], None));
    RunCons(Machine(Some(0), []), IntToString(a), ["PUSH", "POP", "POP", "PRINT"], Machine(Some(a), []), [],
      Final(Machine(None, []), [None], None));
  }

  /** The program '3 PUSH PUSH 7 DIV MULT PRINT ' with any numbers in place of its own: it
      prints the floored quotient of the second number by the first, times
      the first: 6 for its 3 and 7.
      Its trailing blank adds no word (`SplitTrailingSpace`). */
  lemma ProgramDiv(a: int, b: int)
    requires a != 0
    ensures Run(START, [IntToString(a), "PUSH", "PUSH", IntToString(b), "DIV", "MULT", "PRINT"]) ==
      Final(Machine(Some((FloorDiv(b, a)) * a), []), [Some((FloorDiv(b, a)) * a)], None)
  {
    ArithmeticKeywords();
    LoadThenOpTimes(a, b, "DIV", Div);
  }

  /** The program '4 PUSH PUSH 7 MOD MULT PRINT ' with any numbers in place of its own: it
      prints the floored remainder of the second number by the first, times
      the first: 12 for its 4 and 7.
      Its trailing blank adds no word (`SplitTrailingSpace`). */
  lemma ProgramMod(a: int, b: int)
    requires a != 0
    ensures Run(START, [IntToString(a), "PUSH", "PUSH", IntToString(b), "MOD", "MULT", "PRINT"]) ==
      Final(Machine(Some((FloorMod(b, a)) * a), []), [Some((FloorMod(b, a)) * a)], None)
  {
    ArithmeticKeywords();
    LoadThenOpTimes(a, b, "MOD", Mod);
  }

  /** The program '-3 PUSH 5 XSUB PRINT' with any numbers in place of its own: it
      prints the second number, 5, since `XSUB` is skipped without a word. */
  lemma ProgramUnknown(a: int, b: int)
    ensures Run(START, [IntToString(a), "PUSH", IntToString(b), "XSUB", "PRINT"]) ==
      Final(Machine(Some(b), [Some(a)]), [Some(b)], None)
  {
    LoadNumber(Machine(Some(0), []), a);
    StepPush(Machine(Some(a), []));
    LoadNumber(Machine(Some(a), [Some(a)]), b);
    StepSkip(Machine(Some(b), [Some(a)]), "XSUB");
    StepPrint(Machine(Some(b), [Some(a)]));
    RunCons(Machine(Some(b), [Some(a)]), "PRINT", [], Machine(Some(b), [Some(a)]), [Some(b)],
      Final(Machine(Some(b), [Some(a)]), [], None));
    RunCons(Machine(Some(b), [Some(a)]), "XSUB", ["PRINT"], Machine(Some(b), [Some(a)]), [],
      Final(Machine(Some(b), [Some(a)]), [Some(b)], None));
    RunCons(Machine(Some(a), [Some(a)]), IntToString(b), ["XSUB", "PRINT"], Machine(Some(b), [Some(a)]), [],
      Final(Machine(Some(b), [Some(a)]), [Some(b)], None));
    RunCons(Machine(Some(a), []), "PUSH", [IntToString(b), "XSUB", "PRINT"], Machine(Some(a), [Some(a)]), [],
      Final(Machine(Some(b), [Some(a)]), [Some(b)], None));
    RunCons(Machine(Some(0), []), IntToString(a), ["PUSH", IntToString(b), "XSUB", "PRINT"], Machine(Some(a), []), [],
      Final(Machine(Some(b), [Some(a)]), [Some(b)], None));
  }

  /** The program '-3 PUSH 5 SUB PRINT' with any numbers in place of its own: it
      prints the second number minus the first: 8 for its -3 and 5. */
  lemma ProgramSub(a: int, b: int)
    ensures Run(START, [IntToString(a), "PUSH", IntToString(b), "SUB", "PRINT"]) ==
      Final(Machine(Some(b - a), []), [Some(b - a)], None)
  {
    ArithmeticKeywords();
    LoadThenOp(a, b, "SUB", Sub);
  }

  /** The program '6 PUSH' with any numbers in place of its own: it
      prints nothing. */
  lemma ProgramNoPrint(a: int)
    ensures Run(START, [IntToString(a), "PUSH"]) ==
      Final(Machine(Some(a), [Some(a)]), [], None)
  {
    LoadNumber(Machine(Some(0), []), a);
    StepPush(Machine(Some(a), []));
    RunCons(Machine(Some(a), []), "PUSH", [], Machine(Some(a), [Some(a)]), [],
      Final(Machine(Some(a), [Some(a)]), [], None));
    RunCons(Machine(Some(0), []), IntToString(a), ["PUSH"], Machine(Some(a), []), [],
      Final(Machine(Some(a), [Some(a)]), [], None));
  }
}
