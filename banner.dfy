/** The banner of lesson_5/exercises/easy_1/1_further.rb: a message in a
    box of five lines, with a width that defaults to the message's length
    and cuts the message when it is shorter. */
module Banners {
  import opened Util
  import opened RubyString

  /** `Banner.new(message, width)` */
  datatype Banner = Banner(message: string, width: int)

  /** `initialize(message, width = message.length)`: a missing width is
      the message's length. */
  function NewBanner(message: string, width: Option<int>): (b: Banner)
    ensures b.message == message
    ensures width.None? ==> b.width == |message|
    ensures width.Some? ==> b.width == width.value
  {
    Banner(message, if width.Some? then width.value else |message|)
  }

  /** `c * n` for a one-character string `c`. */
  function Repeat(c: char, n: nat): (r: string)
    ensures |r| == n && forall i :: 0 <= i < n ==> r[i] == c
  {
    seq(n, _ => c)
  }

  /** `message[0, width]`: the first `width` characters, or all of them
      when there are fewer. */
  function Take(s: string, n: nat): (r: string)
    ensures |r| == if n < |s| then n else |s|
    ensures r == s[..|r|]
  {
    if n < |s| then s[..n] else s
  }

  /** `horizontal_rule` */
  function HorizontalRule(b: Banner): string
    requires b.width >= 0
  {
    "+-" + Repeat('-', b.width) + "-+"
  }

  /** `empty_line` */
  function EmptyLine(b: Banner): string
    requires b.width >= 0
  {
    "| " + Repeat(' ', b.width) + " |"
  }

  /** `message_line` */
  function MessageLine(b: Banner): string
    requires b.width >= 0
  {
    "| " + Take(b.message, b.width) + " |"
  }

  /** The five lines of `to_s`, top to bottom. */
  function Lines(b: Banner): seq<string>
    requires b.width >= 0
  {
    [HorizontalRule(b), EmptyLine(b), MessageLine(b), EmptyLine(b), HorizontalRule(b)]
  }

  /** `to_s`: the lines joined by newlines. A negative width makes
      `String#*` raise ArgumentError, which is None here. */
  function ToS(b: Banner): (r: Option<string>)
    ensures r.Some? <==> b.width >= 0
  {
    if b.width < 0 then None else Some(Join(Lines(b), "\n"))
  }

  /** The rule is `+`, a dash for every column and one on each side, and
      `+`; the empty line is `|`, blanks, and `|`. Both are four
      characters wider than the width. */
  lemma FrameLines(b: Banner)
    requires b.width >= 0
    ensures var rule := HorizontalRule(b);
      && |rule| == b.width + 4
      && rule[0] == '+' && rule[|rule| - 1] == '+'
      && forall i :: 1 <= i < |rule| - 1 ==> rule[i] == '-'
    ensures var empty := EmptyLine(b);
      && |empty| == b.width + 4
      && empty[0] == '|' && empty[|empty| - 1] == '|'
      && forall i :: 1 <= i < |empty| - 1 ==> empty[i] == ' '
  {
    var rule := HorizontalRule(b);
    var empty := EmptyLine(b);
    assert forall i :: 2 <= i < b.width + 2 ==> rule[i] == Repeat('-', b.width)[i - 2];
    assert forall i :: 2 <= i < b.width + 2 ==> empty[i] == Repeat(' ', b.width)[i - 2];
  }

  /** The message line shows the message cut to the width and is never
      padded: a message shorter than the width gives a narrower line. */
  lemma MessageLineCuts(b: Banner)
    requires b.width >= 0
    ensures var line := MessageLine(b);
      var shown := if b.width < |b.message| then b.width else |b.message|;
      && |line| == shown + 4
      && line[..2] == "| " && line[|line| - 2..] == " |"
      && line[2..|line| - 2] == b.message[..shown]
  {
    var shown := Take(b.message, b.width);
    var line := MessageLine(b);
    assert line == "| " + shown + " |";
    assert line[2..|line| - 2] == shown;
  }

  /** With the default width every line has the message's length plus
      four: the box is a rectangle around the whole message. */
  lemma DefaultWidthIsRectangle(message: string)
    ensures var b := NewBanner(message, None);
      forall k :: 0 <= k < 5 ==> |Lines(b)[k]| == |message| + 4
  {
    var b := NewBanner(message, None);
    FrameLines(b);
    MessageLineCuts(b);
  }

  /** Cutting `to_s` at its newlines gives the five lines back, when the
      message itself has no newline. */
  lemma ToSHasFiveLines(b: Banner)
    requires b.width >= 0
    requires '\n' !in b.message
    ensures Fields(ToS(b).value, '\n') == Lines(b)
  {
    FrameLines(b);
    MessageLineCuts(b);
    var lines := Lines(b);
    var shown := if b.width < |b.message| then b.width else |b.message|;
    assert '\n' !in b.message[..shown] by {
      assert forall i :: 0 <= i < shown ==> b.message[..shown][i] == b.message[i];
    }
    assert forall k :: 0 <= k < 5 ==> '\n' !in lines[k] by {
      var line := MessageLine(b);
      assert line == line[..2] + line[2..|line| - 2] + line[|line| - 2..];
    }
    FieldsJoin(lines, '\n');
  }

  /** The message of the two banners the file prints. */
  const MESSAGE: string := "To boldly go where no one has gone before."

  /** The first banner: the default width of 42 makes five lines of 46
      characters, the whole message on the middle one. */
  lemma WholeMessageBanner()
    ensures var b := NewBanner(MESSAGE, None);
      && b.width == 42
      && (forall k :: 0 <= k < 5 ==> |Lines(b)[k]| == 46)
      && MessageLine(b) == "| " + MESSAGE + " |"
  {
    DefaultWidthIsRectangle(MESSAGE);
  }

  /** The second banner: a width of 25 cuts the message after "one", and
      its five lines are 29 characters wide. */
  lemma CutMessageBanner()
    ensures var b := NewBanner(MESSAGE, Some(25));
      && Take(b.message, b.width) == "To boldly go where no one"
      && forall k :: 0 <= k < 5 ==> |Lines(b)[k]| == 29
  {
    var b := NewBanner(MESSAGE, Some(25));
    FrameLines(b);
    MessageLineCuts(b);
    assert MESSAGE[..25] == "To boldly go where no one";
  }
}
