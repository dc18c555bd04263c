/**
 * The console logger: each emitted line is an emoji, the level padded to a
 * fixed width, the context in a fixed-width bracketed field, and the message.
 * A level is emitted only while it is in the logger's current set of levels.
 * Colours are tags on the parts of a line; the written text carries none.
 */
module Logger {
  import opened Wrappers

  /** Nest's `LogLevel`; `Fatal` is the one the emoji and colour tables do not list. */
  datatype Level = Log | Error | Warn | Debug | Verbose | Fatal

  datatype Colour = CyanBright | Red | Yellow | MagentaBright | Plain

  /** A piece of text painted in one colour. */
  datatype Segment = Segment(colour: Colour, text: string)

  /** One written line: `${emoji} ${level} ${context} ${message}\n`. */
  datatype Line = Line(emoji: Segment, level: Segment, context: Segment, message: string)

  const CONTEXT_MAX_LENGTH: nat := 15
  const LEVEL_MAX_LENGTH: nat := 8
  const DEFAULT_LEVELS: seq<Level> := [Log, Error, Warn, Debug, Verbose]

  /** `level.toUpperCase()`. */
  function UpperName(level: Level): string {
    match level
    case Log => "LOG"
    case Error => "ERROR"
    case Warn => "WARN"
    case Debug => "DEBUG"
    case Verbose => "VERBOSE"
    case Fatal => "FATAL"
  }

  /** `getEmoji`; the default branch answers a magnifying glass. */
  function Emoji(level: Level): string {
    match level
    case Log => "\U{1F4D8}"
    case Error => "\U{1F6A8}"
    case Warn => "\U{26A0}\U{FE0F}"
    case Debug => "\U{1F41B}"
    case Verbose => "\U{1F4E2}"
    case _ => "\U{1F50D}"
  }

  /** `getColor`; the default branch leaves the text as it is. */
  function ColourOf(level: Level): Colour {
    match level
    case Log => CyanBright
    case Error => Red
    case Warn => Yellow
    case Debug => MagentaBright
    case Verbose => CyanBright
    case _ => Plain
  }

  /** Every level has an emoji and a colour; only the unlisted level falls to the defaults. */
  lemma EmojiAndColourTotal(level: Level)
    ensures Emoji(level) != ""
    ensures ColourOf(level) == Plain <==> level == Fatal
    ensures level == Fatal <==> Emoji(level) == "\U{1F50D}"
  {
  }

  /** `s.padEnd(n, ' ')`. */
  function PadEnd(s: string, n: nat): (r: string)
    ensures |r| == if |s| < n then n else |s|
    ensures r[..|s|] == s
    ensures forall i :: |s| <= i < |r| ==> r[i] == ' '
  {
    if |s| < n then s + seq(n - |s|, _ => ' ') else s
  }

  /** `s.slice(0, n)`. */
  function Prefix(s: string, n: nat): (r: string)
    ensures |r| == if |s| < n then |s| else n
    ensures r == s[..|r|]
  {
    if |s| < n then s else s[..n]
  }

  /** The context field without its brackets: the first 15 characters, padded with spaces. */
  function RawContext(context: string): (r: string)
    ensures |r| == CONTEXT_MAX_LENGTH
    ensures forall i :: 0 <= i < |r| ==> r[i] == if i < |context| then context[i] else ' '
  {
    PadEnd(Prefix(context, CONTEXT_MAX_LENGTH), CONTEXT_MAX_LENGTH)
  }

  /** `formatContext`: the bracketed, fixed-width context. */
  function FormatContext(context: string): (r: Segment)
    ensures r.colour == MagentaBright
    ensures |r.text| == CONTEXT_MAX_LENGTH + 2
    ensures r.text[0] == '[' && r.text[|r.text| - 1] == ']'
    ensures r.text[1..|r.text| - 1] == RawContext(context)
  {
    Segment(MagentaBright, "[" + RawContext(context) + "]")
  }

  /** The level field: the upper-cased level padded to eight characters. */
  function PaddedLevel(level: Level): (r: string)
    ensures |r| == LEVEL_MAX_LENGTH
    ensures r[..|UpperName(level)|] == UpperName(level)
    ensures forall i :: |UpperName(level)| <= i < |r| ==> r[i] == ' '
  {
    PadEnd(UpperName(level), LEVEL_MAX_LENGTH)
  }

  /**
   * The line `printMessage` writes. The message keeps its text: the two
   * regex replaces of `colorizeMessage` only add colour around it.
   */
  function MakeLine(level: Level, message: string, context: Option<string>): (l: Line)
    ensures l.emoji == Segment(ColourOf(level), Emoji(level))
    ensures l.level == Segment(ColourOf(level), PaddedLevel(level))
    ensures l.context == FormatContext(if context.Some? then context.value else "")
    ensures l.message == message
  {
    var formattedContext := FormatContext(if context.Some? then context.value else "");
    Line(Segment(ColourOf(level), Emoji(level)), Segment(ColourOf(level), PaddedLevel(level)), formattedContext, message)
  }

  /** The text of a line as written, colours left out. */
  function Render(l: Line): string {
    l.emoji.text + " " + l.level.text + " " + l.context.text + " " + l.message + "\n"
  }

  /** An absent context (and the empty one) gives fifteen spaces between the brackets. */
  lemma AbsentContextIsBlank(level: Level, message: string)
    ensures MakeLine(level, message, None).context.text == "[" + seq(CONTEXT_MAX_LENGTH, _ => ' ') + "]"
    ensures MakeLine(level, message, Some("")) == MakeLine(level, message, None)
  {
    var raw := RawContext("");
    assert raw == seq(CONTEXT_MAX_LENGTH, _ => ' ');
  }

  /** The positions of the four fields in a rendered line. */
  lemma RenderFields(l: Line)
    ensures var r := Render(l);
      var e, v, c := |l.emoji.text|, |l.level.text|, |l.context.text|;
      && |r| == e + v + c + |l.message| + 4
      && r[..e] == l.emoji.text
      && r[e + 1..e + 1 + v] == l.level.text
      && r[e + v + 2..e + v + 2 + c] == l.context.text
      && r[e + v + c + 3..|r| - 1] == l.message
      && r[e] == ' ' && r[e + v + 1] == ' ' && r[e + v + c + 2] == ' ' && r[|r| - 1] == '\n'
  {
    var r := Render(l);
    var e, v, c := |l.emoji.text|, |l.level.text|, |l.context.text|;
    var x := l.emoji.text + " ";
    var y := x + l.level.text + " ";
    var z := y + l.context.text + " ";
    assert r == z + l.message + "\n";
    assert r[..|z|] == z;
    assert z[..|y|] == y;
    assert y[..|x|] == x;
  }

  /**
   * A written line is, in order: the emoji, the level field, the context
   * field and the message, separated by single spaces and ending in a newline;
   * the two fixed-width fields put the message eight plus seventeen plus three
   * characters after the emoji.
   */
  lemma RenderLayout(level: Level, message: string, context: Option<string>)
    ensures var r := Render(MakeLine(level, message, context));
      var e := |Emoji(level)|;
      && |r| == e + LEVEL_MAX_LENGTH + (CONTEXT_MAX_LENGTH + 2) + |message| + 4
      && r[..e] == Emoji(level)
      && r[e + 1..e + 1 + LEVEL_MAX_LENGTH] == PaddedLevel(level)
      && r[e + LEVEL_MAX_LENGTH + 2..e + LEVEL_MAX_LENGTH + 2 + (CONTEXT_MAX_LENGTH + 2)]
         == FormatContext(if context.Some? then context.value else "").text
      && r[e + LEVEL_MAX_LENGTH + (CONTEXT_MAX_LENGTH + 2) + 3..|r| - 1] == message
      && r[|r| - 1] == '\n'
  {
    RenderFields(MakeLine(level, message, context));
  }

  /** The lines one call at `level` appends: one line if the level is enabled, none otherwise. */
  function Emit(levels: seq<Level>, level: Level, message: string, context: Option<string>): (r: seq<Line>)
    ensures |r| <= 1
    ensures |r| == 1 <==> level in levels
    ensures r != [] ==> r[0] == MakeLine(level, message, context)
  {
    if level in levels then [MakeLine(level, message, context)] else []
  }

  /** The logger: its enabled levels and everything it has written. */
  class CustomLogger {
    var logLevels: seq<Level>
    var output: seq<Line>

    constructor ()
      ensures logLevels == DEFAULT_LEVELS && output == []
    {
      logLevels := DEFAULT_LEVELS;
      output := [];
    }

    /** `setLogLevels`: the set is replaced, not merged. */
    method SetLogLevels(levels: seq<Level>)
      modifies this
      ensures logLevels == levels && output == old(output)
    {
      logLevels := levels;
    }

    /** `printMessage`: `process.stdout.write` appends one line. */
    method PrintMessage(level: Level, message: string, context: Option<string>)
      modifies this
      ensures logLevels == old(logLevels)
      ensures output == old(output) + [MakeLine(level, message, context)]
    {
      var emoji := Emoji(level);
      var color := ColourOf(level);
      var paddedLevel := PadEnd(UpperName(level), LEVEL_MAX_LENGTH);
      var formattedContext := FormatContext(if context.Some? then context.value else "");
      output := output + [Line(Segment(color, emoji), Segment(color, paddedLevel), formattedContext, message)];
    }

    method Log(message: string, context: Option<string>)
      modifies this
      ensures logLevels == old(logLevels)
      ensures output == old(output) + Emit(old(logLevels), Level.Log, message, context)
    {
      if Level.Log in logLevels {
        PrintMessage(Level.Log, message, context);
      }
    }

    /** `error`: the body is the message, a newline and the trace. */
    method Error(message: string, trace: string, context: Option<string>)
      modifies this
      ensures logLevels == old(logLevels)
      ensures output == old(output) + Emit(old(logLevels), Level.Error, message + "\n" + trace, context)
    {
      if Level.Error in logLevels {
        PrintMessage(Level.Error, message + "\n" + trace, context);
      }
    }

    method Warn(message: string, context: Option<string>)
      modifies this
      ensures logLevels == old(logLevels)
      ensures output == old(output) + Emit(old(logLevels), Level.Warn, message, context)
    {
      if Level.Warn in logLevels {
        PrintMessage(Level.Warn, message, context);
      }
    }

    method Debug(message: string, context: Option<string>)
      modifies this
      ensures logLevels == old(logLevels)
      ensures output == old(output) + Emit(old(logLevels), Level.Debug, message, context)
    {
      if Level.Debug in logLevels {
        PrintMessage(Level.Debug, message, context);
      }
    }

    method Verbose(message: string, context: Option<string>)
      modifies this
      ensures logLevels == old(logLevels)
      ensures output == old(output) + Emit(old(logLevels), Level.Verbose, message, context)
    {
      if Level.Verbose in logLevels {
        PrintMessage(Level.Verbose, message, context);
      }
    }
  }
}
