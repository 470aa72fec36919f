/**
 * The run-once event logger. The log file is a string; the logger keeps
 * whether logging is enabled and the tick count that elapsed times are
 * measured from. A file that already holds something when the logger starts
 * switches logging off, so that one run's log survives; clearing the file
 * switches it back on.
 *
 * The filesystem is reduced to whether an open succeeds (`writable`, and
 * `probeOk` for the start-up probe); the clock to a `now` parameter.
 */
module EventLog {
  import opened Text

  const Separator := "\n===== NEW RUN =====\n"
  const StartLine := "t+0.00s : robot start\n"

  /** Elapsed milliseconds as seconds with two decimals, rounded to the
      nearest hundredth (a tie, a last digit of 5, goes down). */
  function ElapsedText(ms: int): (s: string)
    ensures forall i :: 0 <= i < |s| ==> s[i] != '\n'
  {
    var magnitude := if ms < 0 then -ms else ms;
    var centis := (magnitude + 4) / 10;
    (if ms < 0 then "-" else "") + NatToString(centis / 100) + "."
      + [DigitChar(centis % 100 / 10), DigitChar(centis % 10)]
  }

  /** One event line: elapsed time, then the message. */
  function EventLine(elapsedMs: int, message: string): (line: string)
    ensures StartsWith(line, "t+")
    ensures EndsWith(line, message + "\n")
  {
    "t+" + ElapsedText(elapsedMs) + "s : " + message + "\n"
  }

  /** Number of line breaks in a text. */
  function Newlines(s: string): nat
  {
    if s == [] then 0 else (if s[0] == '\n' then 1 else 0) + Newlines(s[1..])
  }

  lemma {:induction false} NewlinesAppend(a: string, b: string)
    ensures Newlines(a + b) == Newlines(a) + Newlines(b)
    decreases |a|
  {
    if a == [] {
      assert a + b == b;
    } else {
      assert (a + b)[0] == a[0] && (a + b)[1..] == a[1..] + b;
      NewlinesAppend(a[1..], b);
    }
  }

  lemma {:induction false} NoNewlines(s: string)
    requires forall i :: 0 <= i < |s| ==> s[i] != '\n'
    ensures Newlines(s) == 0
    decreases |s|
  {
    if s != [] {
      NoNewlines(s[1..]);
    }
  }

  /** An event line for a single-line message is exactly one line, and it ends with the message. */
  lemma EventLineIsOneLine(elapsedMs: int, message: string)
    requires forall i :: 0 <= i < |message| ==> message[i] != '\n'
    ensures var line := EventLine(elapsedMs, message);
      Newlines(line) == 1 && line[|line| - 1] == '\n' &&
      EndsWith(line[..|line| - 1], message)
  {
    var head := "t+" + ElapsedText(elapsedMs) + "s : ";
    var line := EventLine(elapsedMs, message);
    assert line == head + message + "\n";
    NoNewlines(ElapsedText(elapsedMs));
    NoNewlines(message);
    NewlinesAppend("t+", ElapsedText(elapsedMs));
    NewlinesAppend("t+" + ElapsedText(elapsedMs), "s : ");
    NewlinesAppend(head, message);
    NewlinesAppend(head + message, "\n");
    assert line[..|line| - 1] == head + message;
    EndsWithAppend(head, message);
  }

  class Logger {
    var enabled: bool
    var startTicks: int
    var file: string

    /** Loading the module: the clock starts, logging is on, then the file is probed. */
    constructor (file: string, now: int, probeOk: bool)
      ensures this.file == file && startTicks == now
      ensures enabled <==> !(probeOk && |file| > 0)
    {
      this.file := file;
      startTicks := now;
      enabled := true;
      new;
      InitializeState(probeOk);
    }

    /** A file with content disables logging; when the probe itself fails the
        file counts as empty. Logging is never switched on here. */
    method InitializeState(probeOk: bool)
      modifies this`enabled
      ensures enabled <==> old(enabled) && !(probeOk && |file| > 0)
    {
      var hasContent := probeOk && |file| > 0;
      if hasContent {
        enabled := false;
      }
    }

    /** Empties the file and turns logging back on; if the file cannot be
        opened nothing changes and no error escapes. */
    method ClearLog(now: int, writable: bool)
      modifies this
      ensures writable ==> file == "" && enabled && startTicks == now
      ensures !writable ==> file == old(file) && enabled == old(enabled) && startTicks == old(startTicks)
    {
      if writable {
        file := "";
        enabled := true;
        startTicks := now;
      }
    }

    /** Starts a new run: resets the clock and appends the separator block. */
    method LogSeparator(now: int, writable: bool)
      modifies this`startTicks, this`file
      ensures !enabled ==> file == old(file) && startTicks == old(startTicks)
      ensures enabled ==> startTicks == now
      ensures enabled && writable ==> file == old(file) + Separator + StartLine
      ensures !writable ==> file == old(file)
    {
      if !enabled {
        return;
      }
      startTicks := now;
      if writable {
        file := file + Separator + StartLine;
      }
    }

    /** Appends one event line, timed from the start of the run. */
    method LogEvent(message: string, now: int, writable: bool)
      modifies this`file
      ensures enabled && writable ==> file == old(file) + EventLine(now - startTicks, message)
      ensures !(enabled && writable) ==> file == old(file)
    {
      if !enabled {
        return;
      }
      if writable {
        file := file + EventLine(now - startTicks, message);
      }
    }
  }

  /** Worked example of test_clear_log_reenables_logging
      (project/tests/test_eventlog.py:37-51): a log left over from an earlier
      run is kept until it is cleared; after clearing, a new run is written
      from the start of the file. */
  method RunOnceScenario(previous: string, now: int)
    requires |previous| > 0
  {
    var log := new Logger(previous, now, true);
    log.LogEvent("ignored", now + 5, true);
    assert log.file == previous;
    log.ClearLog(now + 10, true);
    log.LogSeparator(now + 20, true);
    log.LogEvent("now active", now + 30, true);
    assert log.file == Separator + StartLine + EventLine(10, "now active");
  }
}
