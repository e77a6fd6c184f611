/**
 * The `Logger` class of logger.service.ts (lines 13-100): a NestJS
 * `ConsoleLogger` whose `printMessages` also forwards each colour-stripped
 * line to the notification backend when one exists and the level passes the
 * threshold, and whose `printStackTrace` forwards every stack trace to it.
 * A rejected notification is reported through the parent's `printMessages`,
 * which writes and never notifies.
 *
 * What the logger does is recorded as a trace of events. The parent class's
 * formatting helpers are opaque and come in as a ConsoleFormat; the clock
 * readings of `updateAndGetTimestampDiff` are a parameter.
 */
module Logging {
  import opened Wrappers
  import opened Levels
  import opened Colors
  import Registration

  datatype Stream = Stdout | Stderr

  datatype Event =
    | Write(stream: Stream, text: string)       // process[stream].write(text)
    | Notify(text: string)                      // this.notificationService.notify(text)
    | ParentPrint(messages: seq<string>, context: string, level: LogLevel, stream: Stream)  // super.printMessages(...)
    | ParentStackTrace(stack: string)           // super.printStackTrace(stack)

  /**
   * The `ConsoleLogger` helpers `formatPid`, `formatContext`, the text part of
   * `updateAndGetTimestampDiff` (from the previous and the current time) and
   * the protected `formatMessage` that assembles a line.
   */
  datatype ConsoleFormat = ConsoleFormat(
    formatPid: int -> string,
    formatContext: string -> string,
    timestampDiff: (Option<int>, int) -> string,
    formatMessage: (LogLevel, string, string, string, string, string) -> string)

  /** `Logger.name`, the context of the failure line. */
  const LoggerName: string := "Logger"

  function FailureMessage(error: string): string {
    "Failed to send notification: " + error
  }

  /**
   * The lines `printMessages` writes for `messages`, each stamped with the
   * time elapsed since the previous one; `last` is the time of the line
   * before the first.
   */
  function Lines(console: ConsoleFormat, pid: int, last: Option<int>, clock: seq<int>,
                 messages: seq<string>, context: string, level: LogLevel): (lines: seq<string>)
    requires |clock| == |messages|
    ensures |lines| == |messages|
    decreases |messages|
  {
    if messages == [] then []
    else
      var line := console.formatMessage(level, messages[0], console.formatPid(pid), Label(level),
                                        console.formatContext(context), console.timestampDiff(last, clock[0]));
      [line] + Lines(console, pid, Some(clock[0]), clock[1..], messages[1..], context, level)
  }

  /** What `printMessages` does with its lines: write each, then maybe notify its plain text. */
  function Dispatch(lines: seq<string>, stream: Stream, notifying: bool): seq<Event> {
    if lines == [] then []
    else
      [Write(stream, lines[0])]
      + (if notifying then [Notify(RemoveColor(lines[0]))] else [])
      + Dispatch(lines[1..], stream, notifying)
  }

  /** The texts written, in order. */
  function Written(events: seq<Event>): seq<string> {
    if events == [] then []
    else (if events[0].Write? then [events[0].text] else []) + Written(events[1..])
  }

  /** The texts handed to `notify`, in order. */
  function Notified(events: seq<Event>): seq<string> {
    if events == [] then []
    else (if events[0].Notify? then [events[0].text] else []) + Notified(events[1..])
  }

  /** The calls made to the parent's `printMessages`, in order. */
  function ParentPrints(events: seq<Event>): seq<Event> {
    if events == [] then []
    else (if events[0].ParentPrint? then [events[0]] else []) + ParentPrints(events[1..])
  }

  function StripAll(lines: seq<string>): (r: seq<string>)
    ensures |r| == |lines|
    ensures forall j :: 0 <= j < |lines| ==> r[j] == RemoveColor(lines[j])
  {
    if lines == [] then [] else [RemoveColor(lines[0])] + StripAll(lines[1..])
  }

  lemma {:induction false} NotifiedAppend(a: seq<Event>, b: seq<Event>)
    ensures Notified(a + b) == Notified(a) + Notified(b)
  {
    if a != [] {
      assert (a + b)[1..] == a[1..] + b;
      NotifiedAppend(a[1..], b);
    } else {
      assert a + b == b;
    }
  }

  lemma {:induction false} ParentPrintsAppend(a: seq<Event>, b: seq<Event>)
    ensures ParentPrints(a + b) == ParentPrints(a) + ParentPrints(b)
  {
    if a != [] {
      assert (a + b)[1..] == a[1..] + b;
      ParentPrintsAppend(a[1..], b);
    } else {
      assert a + b == b;
    }
  }

  lemma {:induction false} WrittenAppend(a: seq<Event>, b: seq<Event>)
    ensures Written(a + b) == Written(a) + Written(b)
  {
    if a != [] {
      assert (a + b)[1..] == a[1..] + b;
      WrittenAppend(a[1..], b);
    } else {
      assert a + b == b;
    }
  }

  /**
   * The lines reach the stream in order, one write each, and nothing else is
   * written; the parent's `printMessages` is never called.
   */
  lemma {:induction false} DispatchWritesEveryLine(lines: seq<string>, stream: Stream, notifying: bool)
    ensures Written(Dispatch(lines, stream, notifying)) == lines
    ensures ParentPrints(Dispatch(lines, stream, notifying)) == []
  {
    if lines != [] {
      var head := Step(lines[0], stream, notifying);
      var rest := Dispatch(lines[1..], stream, notifying);
      DispatchWritesEveryLine(lines[1..], stream, notifying);
      DispatchCons(lines[0], lines[1..], stream, notifying);
      assert lines == [lines[0]] + lines[1..];
      WrittenAppend(head, rest);
      ParentPrintsAppend(head, rest);
    }
  }

  /** Every write goes to the stream `printMessages` was given. */
  lemma {:induction false} DispatchWritesToStream(lines: seq<string>, stream: Stream, notifying: bool)
    ensures var events := Dispatch(lines, stream, notifying);
      forall j :: 0 <= j < |events| && events[j].Write? ==> events[j].stream == stream
  {
    if lines != [] {
      var events := Dispatch(lines, stream, notifying);
      var head := Step(lines[0], stream, notifying);
      var rest := Dispatch(lines[1..], stream, notifying);
      DispatchWritesToStream(lines[1..], stream, notifying);
      assert lines == [lines[0]] + lines[1..];
      DispatchCons(lines[0], lines[1..], stream, notifying);
      forall j | 0 <= j < |events| && events[j].Write? ensures events[j].stream == stream {
        if j >= |head| {
          assert events[j] == rest[j - |head|];
        }
      }
    }
  }

  /**
   * Notification is all or nothing per call: when enabled, every line's
   * colour-stripped text is sent in order; otherwise nothing is sent.
   */
  lemma {:induction false} DispatchNotifies(lines: seq<string>, stream: Stream, notifying: bool)
    ensures Notified(Dispatch(lines, stream, notifying)) == if notifying then StripAll(lines) else []
  {
    if lines != [] {
      var head := [Write(stream, lines[0])] + (if notifying then [Notify(RemoveColor(lines[0]))] else []);
      DispatchNotifies(lines[1..], stream, notifying);
      NotifiedAppend(head, Dispatch(lines[1..], stream, notifying));
    }
  }

  /**
   * Each notification comes right after the write of its line and carries
   * that line with its colour codes removed.
   */
  lemma {:induction false} DispatchWriteBeforeNotify(lines: seq<string>, stream: Stream, notifying: bool)
    ensures var events := Dispatch(lines, stream, notifying);
      forall j :: 0 <= j < |events| && events[j].Notify? ==>
        && 0 < j && events[j - 1].Write?
        && events[j].text == RemoveColor(events[j - 1].text)
  {
    if lines != [] {
      var events := Dispatch(lines, stream, notifying);
      var head := Step(lines[0], stream, notifying);
      var rest := Dispatch(lines[1..], stream, notifying);
      DispatchWriteBeforeNotify(lines[1..], stream, notifying);
      assert lines == [lines[0]] + lines[1..];
      DispatchCons(lines[0], lines[1..], stream, notifying);
      assert events == head + rest;
      forall j | 0 <= j < |events| && events[j].Notify?
        ensures 0 < j && events[j - 1].Write? && events[j].text == RemoveColor(events[j - 1].text)
      {
        if j < |head| {
          assert events[j] == head[j] && events[0] == head[0];
        } else {
          var k := j - |head|;
          assert events[j] == rest[k];
          assert rest[k].Notify?;
          assert 0 < k && rest[k - 1].Write? && rest[k].text == RemoveColor(rest[k - 1].text);
          assert events[j - 1] == rest[k - 1];
        }
      }
    }
  }

  /** One message's events: its write, then its notification when enabled. */
  function Step(line: string, stream: Stream, notifying: bool): seq<Event> {
    [Write(stream, line)] + (if notifying then [Notify(RemoveColor(line))] else [])
  }

  lemma DispatchCons(line: string, rest: seq<string>, stream: Stream, notifying: bool)
    ensures Dispatch([line] + rest, stream, notifying) == Step(line, stream, notifying) + Dispatch(rest, stream, notifying)
  {
    assert ([line] + rest)[1..] == rest;
  }

  /** Line i is stamped with the time of line i - 1, or `last` for the first one. */
  lemma {:induction false} LinesAt(console: ConsoleFormat, pid: int, last: Option<int>, clock: seq<int>,
                                   messages: seq<string>, context: string, level: LogLevel, i: nat)
    requires |clock| == |messages| && i < |messages|
    ensures Lines(console, pid, last, clock, messages, context, level)[i]
         == console.formatMessage(level, messages[i], console.formatPid(pid), Label(level),
                                  console.formatContext(context),
                                  console.timestampDiff(if i == 0 then last else Some(clock[i - 1]), clock[i]))
    decreases i
  {
    if i > 0 {
      LinesAt(console, pid, Some(clock[0]), clock[1..], messages[1..], context, level, i - 1);
      if i > 1 {
        assert clock[1..][i - 2] == clock[i - 1];
      }
    }
  }

  lemma {:induction false} DispatchSnoc(lines: seq<string>, line: string, stream: Stream, notifying: bool)
    ensures Dispatch(lines + [line], stream, notifying) == Dispatch(lines, stream, notifying) + Step(line, stream, notifying)
  {
    if lines == [] {
      assert lines + [line] == [line] + [];
      DispatchCons(line, [], stream, notifying);
    } else {
      assert lines + [line] == [lines[0]] + (lines[1..] + [line]);
      DispatchCons(lines[0], lines[1..] + [line], stream, notifying);
      DispatchSnoc(lines[1..], line, stream, notifying);
      DispatchCons(lines[0], lines[1..], stream, notifying);
      assert lines == [lines[0]] + lines[1..];
    }
  }

  /** The events for the first i + 1 lines extend those for the first i by line i's. */
  lemma DispatchPrefix(lines: seq<string>, i: nat, stream: Stream, notifying: bool)
    requires i < |lines|
    ensures Dispatch(lines[..i + 1], stream, notifying) == Dispatch(lines[..i], stream, notifying) + Step(lines[i], stream, notifying)
  {
    assert lines[..i + 1] == lines[..i] + [lines[i]];
    DispatchSnoc(lines[..i], lines[i], stream, notifying);
  }

  class Logger {
    const notificationLevel: LogLevel
    const notificationService: Option<Registration.Backend>
    const console: ConsoleFormat
    const pid: int
    /** ConsoleLogger's time of the previous line. */
    var lastTimestampAt: Option<int>
    var trace: seq<Event>
    /** Notifications issued whose promise has not settled yet. */
    ghost var pending: nat

    /** Every failure line answers a distinct notification that has settled. */
    ghost predicate Valid()
      reads this
    {
      |ParentPrints(trace)| + pending <= |Notified(trace)|
    }

    constructor (notificationLevel: LogLevel, notificationService: Option<Registration.Backend>,
                 console: ConsoleFormat, pid: int)
      ensures this.notificationLevel == notificationLevel && this.notificationService == notificationService
      ensures this.console == console && this.pid == pid
      ensures lastTimestampAt == None && trace == [] && pending == 0
      ensures Valid()
    {
      this.notificationLevel := notificationLevel;
      this.notificationService := notificationService;
      this.console := console;
      this.pid := pid;
      lastTimestampAt := None;
      trace := [];
      pending := 0;
    }

    /**
     * `isNotificationEnabled(level)`: the threshold level itself and every
     * more severe level notify; fatal always does, and a verbose threshold
     * lets every level through.
     */
    predicate IsNotificationEnabled(level: LogLevel): (enabled: bool)
      ensures enabled <==> Rank(notificationLevel) <= Rank(level)
      ensures level == notificationLevel || level == Fatal || notificationLevel == Verbose ==> enabled
    {
      IsLogLevelEnabled(level, notificationLevel)
    }

    /** The guard of line 74: a backend exists and the level passes the threshold. */
    predicate ShouldNotify(level: LogLevel): (notifying: bool)
      ensures notificationService.None? ==> !notifying
      ensures notificationService.Some? ==> (notifying <==> IsNotificationEnabled(level))
    {
      notificationService.Some? && IsNotificationEnabled(level)
    }

    /**
     * The loop of `printMessages(messages, context, logLevel, writeStreamType)`:
     * the events it produces for `messages` and the time of its last line,
     * with `clock[i]` the time read for message i and `last` the time of the
     * line before the first.
     */
    method WriteLines(messages: seq<string>, context: string, level: LogLevel, stream: Stream,
                      last: Option<int>, clock: seq<int>) returns (events: seq<Event>, newLast: Option<int>)
      requires |clock| == |messages|
      ensures events == Dispatch(Lines(console, pid, last, clock, messages, context, level), stream, ShouldNotify(level))
      ensures newLast == if messages == [] then last else Some(clock[|clock| - 1])
    {
      ghost var lines := Lines(console, pid, last, clock, messages, context, level);
      ghost var notifying := ShouldNotify(level);
      events := [];
      newLast := last;
      var i := 0;
      while i < |messages|
        invariant 0 <= i <= |messages|
        invariant events == Dispatch(lines[..i], stream, notifying)
        invariant newLast == if i == 0 then last else Some(clock[i - 1])
      {
        var pidMessage := console.formatPid(pid);
        var contextMessage := console.formatContext(context);
        var timestampDiff := console.timestampDiff(newLast, clock[i]);
        var formattedLogLevel := Label(level);
        var formattedMessage := console.formatMessage(level, messages[i], pidMessage, formattedLogLevel,
                                                      contextMessage, timestampDiff);
        LinesAt(console, pid, last, clock, messages, context, level, i);
        DispatchPrefix(lines, i, stream, notifying);
        newLast := Some(clock[i]);

        events := events + [Write(stream, formattedMessage)];
        if ShouldNotify(level) {
          events := events + [Notify(RemoveColor(formattedMessage))];
        }
        i := i + 1;
      }
      assert lines[..i] == lines;
    }

    /** `printMessages(messages, context, logLevel, writeStreamType)` */
    method PrintMessages(messages: seq<string>, context: string, level: LogLevel, stream: Stream, clock: seq<int>)
      requires Valid()
      requires |clock| == |messages|
      modifies this`trace, this`lastTimestampAt, this`pending
      ensures Valid()
      ensures trace == old(trace)
        + Dispatch(Lines(console, pid, old(lastTimestampAt), clock, messages, context, level), stream, ShouldNotify(level))
      ensures lastTimestampAt == if messages == [] then old(lastTimestampAt) else Some(clock[|clock| - 1])
      ensures pending == old(pending) + |Notified(trace)| - |Notified(old(trace))|
    {
      var events, last := WriteLines(messages, context, level, stream, lastTimestampAt, clock);
      NotifiedAppend(trace, events);
      ParentPrintsAppend(trace, events);
      DispatchWritesEveryLine(Lines(console, pid, lastTimestampAt, clock, messages, context, level), stream, ShouldNotify(level));
      trace := trace + events;
      lastTimestampAt := last;
      pending := pending + |Notified(events)|;
    }

    /** `printStackTrace(stack)`: the parent prints it, then the raw stack goes to any backend. */
    method PrintStackTrace(stack: string)
      requires Valid()
      modifies this`trace, this`pending
      ensures Valid()
      ensures trace == old(trace) + [ParentStackTrace(stack)] + (if notificationService.Some? then [Notify(stack)] else [])
      ensures pending == old(pending) + (if notificationService.Some? then 1 else 0)
    {
      NotifiedAppend(trace, [ParentStackTrace(stack)]);
      ParentPrintsAppend(trace, [ParentStackTrace(stack)]);
      trace := trace + [ParentStackTrace(stack)];
      if notificationService.Some? {
        NotifiedAppend(trace, [Notify(stack)]);
        ParentPrintsAppend(trace, [Notify(stack)]);
        trace := trace + [Notify(stack)];
        pending := pending + 1;
      }
    }

    /**
     * The `.catch` continuation of a notification: one call of the parent's
     * `printMessages` with the failure line, context "Logger", level error and
     * stream stderr. It notifies nothing. The parent stamps that line with
     * `now`, the clock reading it takes, which becomes the previous time.
     */
    method OnNotifyRejected(error: string, now: int)
      requires Valid() && pending > 0
      modifies this`trace, this`pending, this`lastTimestampAt
      ensures Valid()
      ensures trace == old(trace) + [ParentPrint([FailureMessage(error)], LoggerName, Error, Stderr)]
      ensures lastTimestampAt == Some(now)
      ensures pending == old(pending) - 1
      ensures Notified(trace) == Notified(old(trace))
    {
      var call := ParentPrint([FailureMessage(error)], LoggerName, Error, Stderr);
      NotifiedAppend(trace, [call]);
      ParentPrintsAppend(trace, [call]);
      trace := trace + [call];
      lastTimestampAt := Some(now);
      pending := pending - 1;
    }

    /** A notification promise that resolves: nothing is printed. */
    method OnNotifyResolved()
      requires Valid() && pending > 0
      modifies this`pending
      ensures Valid()
      ensures pending == old(pending) - 1
    {
      pending := pending - 1;
    }
  }
}
