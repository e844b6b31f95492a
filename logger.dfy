/*
 * internal/logger: log levels, the global logger and its two renderers. Formatting the
 * message (fmt.Sprintf) happens before the model: methods receive the formatted text.
 * Timestamps are opaque strings.
 */
module Logger {
  import opened Wrappers
  import opened Text
  import Channels

  /** LogLevel is a Go int; the four named levels are 0 to 3, in this order. */
  type LogLevel = int

  const LogLevelDebug: LogLevel := 0
  const LogLevelInfo: LogLevel := 1
  const LogLevelSuccess: LogLevel := 2
  const LogLevelError: LogLevel := 3

  /** LogLevel.String */
  function LevelString(l: LogLevel): (r: string)
    ensures l == LogLevelDebug ==> r == "DEBUG"
    ensures l == LogLevelInfo ==> r == "INFO"
    ensures l == LogLevelSuccess ==> r == "SUCCESS"
    ensures l == LogLevelError ==> r == "ERROR"
    ensures !(LogLevelDebug <= l <= LogLevelError) ==> r == "UNKNOWN"
  {
    if l == LogLevelDebug then "DEBUG"
    else if l == LogLevelInfo then "INFO"
    else if l == LogLevelSuccess then "SUCCESS"
    else if l == LogLevelError then "ERROR"
    else "UNKNOWN"
  }

  /** The level names tell the levels apart: a name is "UNKNOWN" exactly for an unnamed level. */
  lemma LevelStringInjective(a: LogLevel, b: LogLevel)
    requires LogLevelDebug <= a <= LogLevelError && LogLevelDebug <= b <= LogLevelError
    ensures LevelString(a) == LevelString(b) <==> a == b
    ensures LevelString(a) != "UNKNOWN"
  {
  }

  datatype LogEntry = LogEntry(timestamp: string, level: LogLevel, message: string)

  /** The two standard streams a CLI renderer writes to. */
  datatype Stream = Stdout | Stderr

  const ColorReset := "\U{1b}[0m"
  const ColorRed := "\U{1b}[31m"
  const ColorGreen := "\U{1b}[32m"
  const ColorGray := "\U{1b}[90m"

  /** The colour of a level: red for errors, green for successes, gray for debug, reset otherwise. */
  function LevelColor(l: LogLevel): (c: string)
    ensures l == LogLevelError ==> c == ColorRed
    ensures l == LogLevelSuccess ==> c == ColorGreen
    ensures l == LogLevelDebug ==> c == ColorGray
    ensures !(l in {LogLevelError, LogLevelSuccess, LogLevelDebug}) ==> c == ColorReset
  {
    if l == LogLevelError then ColorRed
    else if l == LogLevelSuccess then ColorGreen
    else if l == LogLevelDebug then ColorGray
    else ColorReset
  }

  /**
   * CLIRenderer.Render: the stream written to and the text written. The coloured text is
   * followed by a newline unless it already ends in one.
   */
  function CLIRender(entry: LogEntry): (r: (Stream, string))
    ensures r.0 == Stderr <==> entry.level == LogLevelError
  {
    var output := LevelColor(entry.level) + entry.message + ColorReset;
    var text := if output[|output| - 1] != '\n' then output + "\n" else output;
    (if entry.level == LogLevelError then Stderr else Stdout, text)
  }

  /**
   * The reset code ends in 'm', so the newline check never sees a newline: every rendered
   * entry is the colour, the message, the reset code and exactly one added newline.
   */
  lemma CLIRenderAddsNewline(entry: LogEntry)
    ensures CLIRender(entry).1 == LevelColor(entry.level) + entry.message + ColorReset + "\n"
    ensures HasSuffix(CLIRender(entry).1, "m\n")
  {
    var output := LevelColor(entry.level) + entry.message + ColorReset;
    assert output[|output| - 1] == ColorReset[|ColorReset| - 1] == 'm';
    var text := output + "\n";
    assert text[|text| - 2..] == "m\n";
  }

  datatype TUILogEntry = TUILogEntry(message: string, level: LogLevel, timestamp: string)

  /** A renderer feeding the UI's log box through a buffered channel, which may be nil. */
  class TUIRenderer {
    /** The buffered entries, or None for a nil channel. */
    var logChannel: Option<seq<TUILogEntry>>
    const capacity: nat

    /** NewTUIRenderer: keeps the given channel. */
    constructor (channel: Option<seq<TUILogEntry>>, capacity: nat)
      ensures logChannel == channel && this.capacity == capacity
    {
      logChannel := channel;
      this.capacity := capacity;
    }

    /** Render: a non-blocking send of a copy of the entry; dropped when the channel is full. */
    method Render(entry: LogEntry)
      modifies this
      ensures old(logChannel).None? ==> logChannel.None?
      ensures old(logChannel).Some? ==> logChannel == Some(Channels.Offer(old(logChannel).value,
        TUILogEntry(entry.message, entry.level, entry.timestamp), capacity))
    {
      if logChannel.None? {
        return;
      }
      var tuiEntry := TUILogEntry(entry.message, entry.level, entry.timestamp);
      logChannel := Some(Channels.Offer(logChannel.value, tuiEntry, capacity));
    }
  }

  /** The global logger's renderer: none, the CLI renderer, or a UI renderer. */
  datatype Renderer = NoRenderer | CLIRenderer | TUI(r: TUIRenderer)

  /** The global logger; `terminal` records what CLI rendering wrote, stream by stream. */
  class GlobalLogger {
    var renderer: Renderer
    var terminal: seq<(Stream, string)>

    constructor ()
      ensures renderer == NoRenderer && terminal == []
    {
      renderer := NoRenderer;
      terminal := [];
    }

    /** The objects a log call may change. */
    function Footprint(): set<object>
      reads this
    {
      {this} + (if renderer.TUI? then {renderer.r} else {})
    }

    /** SetRenderer: later log calls go to the new renderer. */
    method SetRenderer(r: Renderer)
      modifies this
      ensures renderer == r && terminal == old(terminal)
    {
      renderer := r;
    }

    /** log: without a renderer nothing happens; otherwise the renderer gets one entry. */
    method Log(level: LogLevel, message: string, timestamp: string)
      modifies Footprint()
      ensures renderer == old(renderer)
      ensures renderer.NoRenderer? ==> terminal == old(terminal)
      ensures renderer.CLIRenderer? ==>
        terminal == old(terminal) + [CLIRender(LogEntry(timestamp, level, message))]
      ensures renderer.TUI? ==> terminal == old(terminal) && (old(renderer.r.logChannel).Some? ==>
        renderer.r.logChannel == Some(Channels.Offer(old(renderer.r.logChannel).value,
          TUILogEntry(message, level, timestamp), renderer.r.capacity)))
      ensures renderer.TUI? && old(renderer.r.logChannel).None? ==> renderer.r.logChannel.None?
    {
      match renderer
      case NoRenderer =>
        return;
      case CLIRenderer =>
        terminal := terminal + [CLIRender(LogEntry(timestamp, level, message))];
      case TUI(r) =>
        r.Render(LogEntry(timestamp, level, message));
    }

    /** Info, Error, Success and Debug log at their own level. */
    method Info(message: string, timestamp: string)
      modifies Footprint()
      ensures renderer == old(renderer)
      ensures renderer.CLIRenderer? ==>
        terminal == old(terminal) + [CLIRender(LogEntry(timestamp, LogLevelInfo, message))]
      ensures renderer.TUI? ==> terminal == old(terminal) && (old(renderer.r.logChannel).Some? ==>
        renderer.r.logChannel == Some(Channels.Offer(old(renderer.r.logChannel).value,
          TUILogEntry(message, LogLevelInfo, timestamp), renderer.r.capacity)))
      ensures renderer.TUI? && old(renderer.r.logChannel).None? ==> renderer.r.logChannel.None?
      ensures renderer.NoRenderer? ==> terminal == old(terminal)
    {
      Log(LogLevelInfo, message, timestamp);
    }

    method Error(message: string, timestamp: string)
      modifies Footprint()
      ensures renderer == old(renderer)
      ensures renderer.CLIRenderer? ==>
        terminal == old(terminal) + [CLIRender(LogEntry(timestamp, LogLevelError, message))]
      ensures renderer.TUI? ==> terminal == old(terminal) && (old(renderer.r.logChannel).Some? ==>
        renderer.r.logChannel == Some(Channels.Offer(old(renderer.r.logChannel).value,
          TUILogEntry(message, LogLevelError, timestamp), renderer.r.capacity)))
      ensures renderer.TUI? && old(renderer.r.logChannel).None? ==> renderer.r.logChannel.None?
      ensures renderer.CLIRenderer? ==> terminal[|terminal| - 1].0 == Stderr
      ensures renderer.NoRenderer? ==> terminal == old(terminal)
    {
      Log(LogLevelError, message, timestamp);
    }

    method Success(message: string, timestamp: string)
      modifies Footprint()
      ensures renderer == old(renderer)
      ensures renderer.CLIRenderer? ==>
        terminal == old(terminal) + [CLIRender(LogEntry(timestamp, LogLevelSuccess, message))]
      ensures renderer.TUI? ==> terminal == old(terminal) && (old(renderer.r.logChannel).Some? ==>
        renderer.r.logChannel == Some(Channels.Offer(old(renderer.r.logChannel).value,
          TUILogEntry(message, LogLevelSuccess, timestamp), renderer.r.capacity)))
      ensures renderer.TUI? && old(renderer.r.logChannel).None? ==> renderer.r.logChannel.None?
      ensures renderer.CLIRenderer? ==> terminal[|terminal| - 1].0 == Stdout
      ensures renderer.NoRenderer? ==> terminal == old(terminal)
    {
      Log(LogLevelSuccess, message, timestamp);
    }

    method Debug(message: string, timestamp: string)
      modifies Footprint()
      ensures renderer == old(renderer)
      ensures renderer.CLIRenderer? ==>
        terminal == old(terminal) + [CLIRender(LogEntry(timestamp, LogLevelDebug, message))]
      ensures renderer.TUI? ==> terminal == old(terminal) && (old(renderer.r.logChannel).Some? ==>
        renderer.r.logChannel == Some(Channels.Offer(old(renderer.r.logChannel).value,
          TUILogEntry(message, LogLevelDebug, timestamp), renderer.r.capacity)))
      ensures renderer.TUI? && old(renderer.r.logChannel).None? ==> renderer.r.logChannel.None?
      ensures renderer.NoRenderer? ==> terminal == old(terminal)
    {
      Log(LogLevelDebug, message, timestamp);
    }
  }
}
