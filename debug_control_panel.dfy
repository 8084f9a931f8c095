/**
 * The stateful half of DebugControlPanel: the expand/collapse flag, the buffer of log
 * lines, and the effect that points console.log / console.error at interceptors and
 * its cleanup that points them back at the saved originals.
 */
module DebugControlPanel {
  import opened Wrappers
  import opened LogBuffer

  /** The function a console method currently refers to. */
  datatype Sink = NativeSink(id: nat) | Interceptor(level: Level)

  /** A call handed on to a sink that writes to the browser console. */
  datatype ForwardedCall = ForwardedCall(sink: Sink, args: seq<LogArg>)

  /** What the export and instructions buttons do. */
  datatype ToolAction = ExportData | ShowInstructions | WarnToolsUnavailable

  /** The notice handleClearLogs logs after emptying the buffer. */
  const ClearedNotice: string := "\U{1F9F9} Debug logs cleared"

  /** The notice exportData logs after triggering the download (debugHelpers.ts). */
  const ExportedNotice: string := "\U{1F4C1} Debug data exported"

  /** The first line addLogs logs: where to add the debug logging. */
  const InstructionsHeading: string :=
    "\U{1F4A1} 要添加调试日志，请在 packages/react-query/src/useBaseQuery.ts 中添加以下代码："

  /** The second line addLogs logs: a fixed multi-line code template whose text is not modelled. */
  const InstructionsSnippet: string

  /** The two patched entry points of the global console, and what reached the real console. */
  class Console {
    var log: Sink
    var error: Sink
    var forwarded: seq<ForwardedCall>

    constructor (log: Sink, error: Sink)
      ensures this.log == log && this.error == error && forwarded == []
    {
      this.log := log;
      this.error := error;
      forwarded := [];
    }
  }

  class Panel {
    var isExpanded: bool
    var logs: seq<string>
    const maxLogs: nat
    /** Whether the interception effect has run and not yet been cleaned up. */
    var installed: bool
    var originalLog: Sink
    var originalError: Sink

    /** The buffer never holds more than the fixed capacity. */
    ghost predicate Valid()
      reads this
    {
      maxLogs == MaxLogs && |logs| <= maxLogs
    }

    /** The initial render: collapsed, no lines, capacity 50, nothing intercepted yet. */
    constructor ()
      ensures Valid() && !isExpanded && logs == [] && maxLogs == 50 && !installed
    {
      isExpanded := false;
      logs := [];
      maxLogs := MaxLogs;
      installed := false;
      originalLog := NativeSink(0);
      originalError := NativeSink(0);
    }

    /** A click on the header: switches between the two display modes. */
    method ToggleExpanded()
      modifies this`isExpanded
      ensures isExpanded == !old(isExpanded)
    {
      isExpanded := !isExpanded;
    }

    /** The effect: saves both current sinks and points the console at the interceptors. */
    method InstallInterceptors(c: Console)
      modifies this`installed, this`originalLog, this`originalError, c`log, c`error
      ensures installed && originalLog == old(c.log) && originalError == old(c.error)
      ensures c.log == Interceptor(Info) && c.error == Interceptor(Error)
    {
      originalLog := c.log;
      originalError := c.error;
      c.log := Interceptor(Info);
      c.error := Interceptor(Error);
      installed := true;
    }

    /** The effect's cleanup: restores exactly the sinks the effect saved. */
    method RestoreSinks(c: Console)
      requires installed
      modifies this`installed, c`log, c`error
      ensures !installed && c.log == originalLog && c.error == originalError
    {
      c.log := originalLog;
      c.error := originalError;
      installed := false;
    }

    /** The sink an interceptor of the given level forwards to. */
    function Original(level: Level): Sink
      reads this
    {
      match level
      case Info => originalLog
      case Error => originalError
    }

    /**
     * logInterceptor / errorInterceptor: formats the arguments, appends the line to the
     * bounded buffer and forwards the unchanged arguments to the saved sink. When an
     * argument cannot be serialised the TypeError escapes before either happens.
     */
    method Intercept(c: Console, level: Level, args: seq<LogArg>, time: string) returns (r: Result<(), FormatError>)
      requires Valid() && installed
      modifies this`logs, c`forwarded
      ensures Valid()
      ensures r.Success? <==> FormatMessage(args).Success?
      ensures r.Success? ==>
                logs == AppendBounded(old(logs), Entry(level, time, FormatMessage(args).value), maxLogs) &&
                c.forwarded == old(c.forwarded) + [ForwardedCall(Original(level), args)]
      ensures r.Failure? ==> logs == old(logs) && c.forwarded == old(c.forwarded)
    {
      var sink := Original(level);
      var message := FormatMessage(args);
      if message.Failure? {
        return Failure(message.error);
      }
      var next := AppendBounded(logs, Entry(level, time, message.value), maxLogs);
      assert |next| <= maxLogs;
      c.forwarded := c.forwarded + [ForwardedCall(sink, args)];
      logs := next;
      r := Success(());
    }

    /** A console.log call anywhere: runs the interceptor when it is installed, else goes straight to the sink. */
    method ConsoleLog(c: Console, args: seq<LogArg>, time: string) returns (r: Result<(), FormatError>)
      requires Valid() && (c.log == Interceptor(Info) ==> installed)
      modifies this`logs, c`forwarded
      ensures Valid()
      ensures c.log == Interceptor(Info) && FormatMessage(args).Success? ==>
                r.Success? &&
                logs == AppendBounded(old(logs), Entry(Info, time, FormatMessage(args).value), maxLogs) &&
                c.forwarded == old(c.forwarded) + [ForwardedCall(originalLog, args)]
      ensures c.log == Interceptor(Info) && FormatMessage(args).Failure? ==>
                r.Failure? && logs == old(logs) && c.forwarded == old(c.forwarded)
      ensures c.log != Interceptor(Info) ==>
                r.Success? && logs == old(logs) && c.forwarded == old(c.forwarded) + [ForwardedCall(c.log, args)]
    {
      if c.log == Interceptor(Info) {
        r := Intercept(c, Info, args, time);
      } else {
        c.forwarded := c.forwarded + [ForwardedCall(c.log, args)];
        r := Success(());
      }
    }

    /** handleClearLogs: empties the buffer, then logs a notice that passes through the interceptor. */
    method ClearLogs(c: Console, time: string)
      requires Valid() && (c.log == Interceptor(Info) ==> installed)
      modifies this`logs, c`forwarded
      ensures Valid()
      ensures c.log == Interceptor(Info) ==>
                logs == [Entry(Info, time, ClearedNotice)] &&
                c.forwarded == old(c.forwarded) + [ForwardedCall(originalLog, [PrimitiveArg(ClearedNotice)])]
      ensures c.log != Interceptor(Info) ==>
                logs == [] && c.forwarded == old(c.forwarded) + [ForwardedCall(c.log, [PrimitiveArg(ClearedNotice)])]
    {
      logs := [];
      LogNotice(c, ClearedNotice, time);
    }

    /**
     * A console.log call with one string argument: buffered and forwarded to the saved
     * sink while the interceptor is installed, otherwise only handed to the current sink.
     */
    method LogNotice(c: Console, text: string, time: string)
      requires Valid() && (c.log == Interceptor(Info) ==> installed)
      modifies this`logs, c`forwarded
      ensures Valid()
      ensures c.log == Interceptor(Info) ==>
                logs == AppendBounded(old(logs), Entry(Info, time, text), maxLogs) &&
                c.forwarded == old(c.forwarded) + [ForwardedCall(originalLog, [PrimitiveArg(text)])]
      ensures c.log != Interceptor(Info) ==>
                logs == old(logs) && c.forwarded == old(c.forwarded) + [ForwardedCall(c.log, [PrimitiveArg(text)])]
    {
      SinglePrimitiveMessage(text);
      var _ := ConsoleLog(c, [PrimitiveArg(text)], time);
    }

    /**
     * handleExportDebugData: with the global debug tools present, exportData() triggers
     * the download and then logs its notice, which the installed interceptor buffers;
     * without them the handler only warns, and console.warn is not intercepted.
     */
    method HandleExportDebugData(c: Console, toolsPresent: bool, time: string) returns (action: ToolAction)
      requires Valid() && (c.log == Interceptor(Info) ==> installed)
      modifies this`logs, c`forwarded
      ensures Valid()
      ensures action == ExportData <==> toolsPresent
      ensures action == WarnToolsUnavailable <==> !toolsPresent
      ensures !toolsPresent ==> logs == old(logs) && c.forwarded == old(c.forwarded)
      ensures toolsPresent && c.log == Interceptor(Info) ==>
                logs == AppendBounded(old(logs), Entry(Info, time, ExportedNotice), maxLogs) &&
                c.forwarded == old(c.forwarded) + [ForwardedCall(originalLog, [PrimitiveArg(ExportedNotice)])]
      ensures toolsPresent && c.log != Interceptor(Info) ==>
                logs == old(logs) &&
                c.forwarded == old(c.forwarded) + [ForwardedCall(c.log, [PrimitiveArg(ExportedNotice)])]
    {
      if toolsPresent {
        action := ExportData;
        LogNotice(c, ExportedNotice, time);
      } else {
        action := WarnToolsUnavailable;
      }
    }

    /** Two console.log calls in a row, each with one string argument. */
    method LogTwoNotices(c: Console, text1: string, time1: string, text2: string, time2: string)
      requires Valid() && (c.log == Interceptor(Info) ==> installed)
      modifies this`logs, c`forwarded
      ensures Valid()
      ensures c.log == Interceptor(Info) ==>
                logs == AppendBounded(AppendBounded(old(logs), Entry(Info, time1, text1), maxLogs),
                                      Entry(Info, time2, text2), maxLogs) &&
                c.forwarded == old(c.forwarded) + [ForwardedCall(originalLog, [PrimitiveArg(text1)]),
                                                   ForwardedCall(originalLog, [PrimitiveArg(text2)])]
      ensures c.log != Interceptor(Info) ==>
                logs == old(logs) &&
                c.forwarded == old(c.forwarded) + [ForwardedCall(c.log, [PrimitiveArg(text1)]),
                                                   ForwardedCall(c.log, [PrimitiveArg(text2)])]
    {
      ghost var sent := c.forwarded;
      ghost var sink := if c.log == Interceptor(Info) then originalLog else c.log;
      LogNotice(c, text1, time1);
      LogNotice(c, text2, time2);
      assert c.forwarded == sent + [ForwardedCall(sink, [PrimitiveArg(text1)])] + [ForwardedCall(sink, [PrimitiveArg(text2)])];
    }

    /**
     * handleShowDebugInstructions: with the global debug tools present, addLogs() logs a
     * heading and then the code template, two intercepted calls read at two clock times;
     * without them the handler only warns.
     */
    method HandleShowDebugInstructions(c: Console, toolsPresent: bool, time1: string, time2: string)
      returns (action: ToolAction)
      requires Valid() && (c.log == Interceptor(Info) ==> installed)
      modifies this`logs, c`forwarded
      ensures Valid()
      ensures action == ShowInstructions <==> toolsPresent
      ensures action == WarnToolsUnavailable <==> !toolsPresent
      ensures !toolsPresent ==> logs == old(logs) && c.forwarded == old(c.forwarded)
      ensures toolsPresent && c.log == Interceptor(Info) ==>
                logs == AppendBounded(AppendBounded(old(logs), Entry(Info, time1, InstructionsHeading), maxLogs),
                                      Entry(Info, time2, InstructionsSnippet), maxLogs) &&
                c.forwarded == old(c.forwarded) + [ForwardedCall(originalLog, [PrimitiveArg(InstructionsHeading)]),
                                                   ForwardedCall(originalLog, [PrimitiveArg(InstructionsSnippet)])]
      ensures toolsPresent && c.log != Interceptor(Info) ==>
                logs == old(logs) &&
                c.forwarded == old(c.forwarded) + [ForwardedCall(c.log, [PrimitiveArg(InstructionsHeading)]),
                                                   ForwardedCall(c.log, [PrimitiveArg(InstructionsSnippet)])]
    {
      if toolsPresent {
        action := ShowInstructions;
        LogTwoNotices(c, InstructionsHeading, time1, InstructionsSnippet, time2);
      } else {
        action := WarnToolsUnavailable;
      }
    }
  }

  /** Mount then unmount: the console's two sinks are exactly what they were before. */
  method MountThenUnmount(panel: Panel, c: Console)
    modifies panel, c
    ensures c.log == old(c.log) && c.error == old(c.error) && !panel.installed
    ensures panel.logs == old(panel.logs) && panel.isExpanded == old(panel.isExpanded)
    ensures c.forwarded == old(c.forwarded)
  {
    panel.InstallInterceptors(c);
    panel.RestoreSinks(c);
  }

  /** Two clicks on the header return the panel to its previous mode. */
  method ToggleTwice(panel: Panel)
    modifies panel
    ensures panel.isExpanded == old(panel.isExpanded)
  {
    panel.ToggleExpanded();
    panel.ToggleExpanded();
  }

  /** A logged line reaches both the buffer (last) and the original sink, with the arguments unchanged. */
  method LogWhileMounted(panel: Panel, c: Console, text: string, time: string)
    requires panel.Valid()
    modifies panel, c
    ensures panel.Valid() && c.log == Interceptor(Info) && |panel.logs| > 0 && |c.forwarded| > 0
    ensures panel.logs[|panel.logs| - 1] == Entry(Info, time, text)
    ensures c.forwarded[|c.forwarded| - 1] == ForwardedCall(old(c.log), [PrimitiveArg(text)])
  {
    panel.InstallInterceptors(c);
    var args := [PrimitiveArg(text)];
    SinglePrimitiveMessage(text);
    ghost var before, sent := panel.logs, c.forwarded;
    ghost var saved := panel.originalLog;
    assert saved == old(c.log);
    var _ := panel.ConsoleLog(c, args, time);
    assert panel.logs == AppendBounded(before, Entry(Info, time, text), MaxLogs);
    assert c.forwarded == sent + [ForwardedCall(saved, args)];
  }
}
