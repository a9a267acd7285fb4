/**
 * The logger of src/utils/logger.ts: how a message of any type becomes text, and the line
 * `log` appends to the log stream. The clock is a parameter (the timestamp text).
 */
module Logger {
  import opened Text
  import opened Optional

  const MaxObjectLength := 500
  const TruncationMarker := "... [truncated]"

  /**
   * A value handed to the logger. For values that are neither strings nor Error objects,
   * serialisation is opaque: `json` is the text `JSON.stringify` yields (None when it throws or
   * yields `undefined`), and `text` is `String(value)`.
   */
  datatype Message =
    | Plain(s: string)
    | ErrorValue(message: string, stack: Option<string>)
    | Other(json: Option<string>, text: string)

  /** `formatMessage` */
  function FormatMessage(m: Message): (r: string)
    ensures m.Plain? ==> r == m.s
    ensures m.ErrorValue? ==> StartsWith(r, m.message)
    ensures m.ErrorValue? ==> (r == m.message <==> m.stack.None? || m.stack.value == "")
    ensures m.ErrorValue? && m.stack.Some? && m.stack.value != "" ==> r[|m.message|..] == "\nStack: " + m.stack.value
    ensures m.Other? && m.json.Some? ==> |r| <= MaxObjectLength + |TruncationMarker|
    ensures m.Other? && m.json.Some? && |m.json.value| <= MaxObjectLength ==> r == m.json.value
    ensures m.Other? && m.json.Some? && |m.json.value| > MaxObjectLength ==>
              |r| == MaxObjectLength + |TruncationMarker| && StartsWith(m.json.value, r[..MaxObjectLength])
              && r[MaxObjectLength..] == TruncationMarker
    ensures m.Other? && m.json.None? ==> r == m.text
  {
    match m
    case Plain(s) => s
    case ErrorValue(message, stack) =>
      message + (if stack.Some? && stack.value != "" then "\nStack: " + stack.value else "")
    case Other(json, text) =>
      if json.None? then text
      else if |json.value| > MaxObjectLength then json.value[..MaxObjectLength] + TruncationMarker
      else json.value
  }

  datatype Level = Info | Error | Warn

  /** The level's name as the source spells it. */
  function LevelName(level: Level): string {
    match level
    case Info => "info"
    case Error => "error"
    case Warn => "warn"
  }

  /** `level.toUpperCase()` tags every line with one of INFO, ERROR and WARN, a different tag per level. */
  lemma LevelTags(a: Level, b: Level)
    ensures ToUpperAscii(LevelName(a)) in {"INFO", "ERROR", "WARN"}
    ensures ToUpperAscii(LevelName(a)) == ToUpperAscii(LevelName(b)) <==> a == b
  {
    assert ToUpperAscii(LevelName(Level.Info)) == "INFO";
    assert ToUpperAscii(LevelName(Level.Error)) == "ERROR";
    assert ToUpperAscii(LevelName(Level.Warn)) == "WARN";
  }

  /** The line `log` writes: `[<timestamp>] [<LEVEL>] <formatted message>` and a newline. */
  function LogLine(timestamp: string, level: Level, message: Message): (line: string)
  {
    "[" + timestamp + "] [" + ToUpperAscii(LevelName(level)) + "] " + FormatMessage(message) + "\n"
  }

  /** Every log line ends its own line and carries the message text whole, between the header and the newline. */
  lemma LogLineShape(timestamp: string, level: Level, message: Message)
    ensures var line := LogLine(timestamp, level, message);
            var header := "[" + timestamp + "] [" + ToUpperAscii(LevelName(level)) + "] ";
            StartsWith(line, header) && line[|line| - 1] == '\n'
            && line[|header|..|line| - 1] == FormatMessage(message)
  {
  }

  /** The log stream, as the sequence of lines written to it so far. */
  class Logger {
    var written: seq<string>

    constructor()
      ensures written == []
    {
      written := [];
    }

    /** `log(message, level)`: appends one formatted line, and nothing else. */
    method Log(message: Message, level: Level, timestamp: string)
      modifies this
      ensures written == old(written) + [LogLine(timestamp, level, message)]
    {
      written := written + [LogLine(timestamp, level, message)];
    }

    method Error(message: Message, timestamp: string)
      modifies this
      ensures written == old(written) + [LogLine(timestamp, Level.Error, message)]
    {
      Log(message, Level.Error, timestamp);
    }

    method Warn(message: Message, timestamp: string)
      modifies this
      ensures written == old(written) + [LogLine(timestamp, Level.Warn, message)]
    {
      Log(message, Level.Warn, timestamp);
    }

    method Info(message: Message, timestamp: string)
      modifies this
      ensures written == old(written) + [LogLine(timestamp, Level.Info, message)]
    {
      Log(message, Level.Info, timestamp);
    }
  }
}
