/** The front end's logger (frontend/src/app/services/logger.service.ts):
    four levels, a threshold chosen from the host name, the message format and
    the helpers for category, post and media operations.  The console is the
    sequence `lines`; the ISO timestamp is the parameter `now`. */
module Logger {
  import opened Text

  /** `LogLevel`, most severe first. */
  datatype LogLevel = ERROR | WARN | INFO | DEBUG

  /** The enum's numeric value. */
  function Rank(l: LogLevel): (n: nat)
    ensures n <= 3
    ensures l == ERROR <==> n == 0
  {
    match l
    case ERROR => 0
    case WARN => 1
    case INFO => 2
    case DEBUG => 3
  }

  function Name(l: LogLevel): string {
    match l
    case ERROR => "ERROR"
    case WARN => "WARN"
    case INFO => "INFO"
    case DEBUG => "DEBUG"
  }

  /** `shouldLog`: a level is written when it is at most the threshold. */
  predicate Enabled(level: LogLevel, threshold: LogLevel) {
    Rank(level) <= Rank(threshold)
  }

  /** If a level is written, every more severe level is too, and errors always are. */
  lemma EnabledMonotone(level: LogLevel, more: LogLevel, threshold: LogLevel)
    requires Enabled(level, threshold) && Rank(more) <= Rank(level)
    ensures Enabled(more, threshold)
    ensures Enabled(ERROR, threshold)
  {
  }

  /** The threshold the constructor picks: INFO on a host whose name
      contains "localhost", WARN anywhere else. */
  function InitialLevel(hostname: string): (l: LogLevel)
    ensures l == INFO <==> Contains(hostname, "localhost")
    ensures l == WARN <==> !Contains(hostname, "localhost")
  {
    if !Contains(hostname, "localhost") then WARN else INFO
  }

  /** Whatever the host, debug lines are never written; outside localhost
      info lines are not either, while errors and warnings always are. */
  lemma WhatIsWritten(hostname: string)
    ensures !Enabled(DEBUG, InitialLevel(hostname))
    ensures Enabled(INFO, InitialLevel(hostname)) <==> Contains(hostname, "localhost")
    ensures Enabled(WARN, InitialLevel(hostname)) && Enabled(ERROR, InitialLevel(hostname))
  {
  }

  /** `formatMessage`: the timestamp, the level, the context in brackets
      when there is one, then the message. */
  function FormatMessage(timestamp: string, level: string, message: string, context: Option<string>): (r: string)
    ensures StartsWith(r, timestamp + " " + level)
    ensures EndsWith(r, ": " + message)
  {
    var contextStr := if context.Some? && context.value != "" then " [" + context.value + "]" else "";
    var r := timestamp + " " + level + contextStr + ": " + message;
    assert r[..|timestamp + " " + level|] == timestamp + " " + level;
    assert r[|r| - |": " + message|..] == ": " + message;
    r
  }

  /** The context adds exactly its text and three characters (" [" and "]"),
      and only when it is not empty. */
  lemma FormatMessageLength(timestamp: string, level: string, message: string, context: Option<string>)
    ensures |FormatMessage(timestamp, level, message, context)|
         == |timestamp| + 1 + |level| + 2 + |message|
            + (if context.Some? && context.value != "" then |context.value| + 3 else 0)
  {
  }

  /** What `formatMessage` turns a message at `level` into. */
  datatype LogLine = LogLine(level: LogLevel, text: string)

  const CategoryContext := "CategoryManagement"
  const PostContext := "PostManagement"
  const MediaContext := "MediaManagement"

  /** The details `logMediaOperation` adds: only when both the media type
      and the file name are given and not empty. */
  function MediaDetails(mediaType: Option<string>, filename: Option<string>): (d: string)
    ensures d != "" <==> mediaType.Some? && mediaType.value != "" && filename.Some? && filename.value != ""
  {
    if mediaType.Some? && mediaType.value != "" && filename.Some? && filename.value != ""
    then " (" + mediaType.value + ": " + filename.value + ")"
    else ""
  }

  class Service {
    const currentLogLevel: LogLevel
    /** Lines written to the console, oldest first. */
    var lines: seq<LogLine>

    constructor(hostname: string)
      ensures currentLogLevel == InitialLevel(hostname)
      ensures lines == []
    {
      currentLogLevel := if !Contains(hostname, "localhost") then WARN else INFO;
      lines := [];
    }

    /** The line a call at `level` adds, if the threshold lets it through. */
    function Written(level: LogLevel, now: string, message: string, context: Option<string>): seq<LogLine>
    {
      if Enabled(level, currentLogLevel) then [LogLine(level, FormatMessage(now, Name(level), message, context))] else []
    }

    /** The common path of the four level methods: format and write the line
        when `shouldLog` lets the level through. */
    method Log(level: LogLevel, now: string, message: string, context: Option<string>)
      modifies this
      ensures lines == old(lines) + Written(level, now, message, context)
    {
      if Rank(level) <= Rank(currentLogLevel) {
        var formatted := FormatMessage(now, Name(level), message, context);
        lines := lines + [LogLine(level, formatted)];
      }
    }

    /** `error`; the error object goes to the console beside the line and is
        not modelled. */
    method Error(now: string, message: string, context: Option<string>)
      modifies this
      ensures lines == old(lines) + [LogLine(ERROR, FormatMessage(now, "ERROR", message, context))]
    {
      Log(ERROR, now, message, context);
    }

    /** `warn`: written under every threshold but ERROR, which the
        constructor never picks. */
    method Warn(now: string, message: string, context: Option<string>)
      modifies this
      ensures lines == old(lines) + Written(WARN, now, message, context)
      ensures currentLogLevel != ERROR ==> lines == old(lines) + [LogLine(WARN, FormatMessage(now, "WARN", message, context))]
    {
      Log(WARN, now, message, context);
    }

    /** `info`: written only under the INFO or DEBUG threshold. */
    method Info(now: string, message: string, context: Option<string>)
      modifies this
      ensures lines == old(lines) + Written(INFO, now, message, context)
    {
      Log(INFO, now, message, context);
    }

    /** `debug`; the data object goes to the console beside the line and is
        not modelled.  No threshold the constructor picks lets it through. */
    method Debug(now: string, message: string, context: Option<string>)
      modifies this
      ensures lines == old(lines) + Written(DEBUG, now, message, context)
      ensures currentLogLevel != DEBUG ==> lines == old(lines)
    {
      Log(DEBUG, now, message, context);
    }

    /** `logCategoryOperation`: an info line, and a debug line for the data
        when there is any. */
    method LogCategoryOperation(now: string, operation: string, hasData: bool)
      modifies this
      ensures lines == old(lines) + Written(INFO, now, "Category " + operation, Some(CategoryContext))
                      + (if hasData then Written(DEBUG, now, "Category " + operation + " data:", Some(CategoryContext)) else [])
      ensures currentLogLevel != DEBUG ==> lines == old(lines) + Written(INFO, now, "Category " + operation, Some(CategoryContext))
    {
      Info(now, "Category " + operation, Some(CategoryContext));
      if hasData {
        Debug(now, "Category " + operation + " data:", Some(CategoryContext));
      }
    }

    /** `logPostOperation`, the same for posts. */
    method LogPostOperation(now: string, operation: string, hasData: bool)
      modifies this
      ensures lines == old(lines) + Written(INFO, now, "Post " + operation, Some(PostContext))
                      + (if hasData then Written(DEBUG, now, "Post " + operation + " data:", Some(PostContext)) else [])
      ensures currentLogLevel != DEBUG ==> lines == old(lines) + Written(INFO, now, "Post " + operation, Some(PostContext))
    {
      Info(now, "Post " + operation, Some(PostContext));
      if hasData {
        Debug(now, "Post " + operation + " data:", Some(PostContext));
      }
    }

    /** `logMediaOperation`: one info line, with the type and file name when
        both are given. */
    method LogMediaOperation(now: string, operation: string, mediaType: Option<string>, filename: Option<string>)
      modifies this
      ensures lines == old(lines) + Written(INFO, now, "Media " + operation + MediaDetails(mediaType, filename), Some(MediaContext))
    {
      var details := if mediaType.Some? && mediaType.value != "" && filename.Some? && filename.value != ""
                     then " (" + mediaType.value + ": " + filename.value + ")" else "";
      Info(now, "Media " + operation + details, Some(MediaContext));
    }
  }
}
