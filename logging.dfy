/** The logger itself: the skip count New settles on, the threshold gate in log, and the
    per-level entry points on a Logger and on the package's DefaultLogger. */
module Logging {
  import opened Levels
  import opened Attrs

  /** The skip count used when the caller gives no positive one. */
  const LogDefaultSkip: int := 3

  /** The skip count New settles on, as a specification: the last strictly positive entry of
      the variadic skip argument, or LogDefaultSkip when there is none. */
  function LastPositive(skip: seq<int>): (r: int)
    ensures r > 0
    ensures r == LogDefaultSkip || r in skip
    decreases |skip|
  {
    if |skip| == 0 then LogDefaultSkip
    else if skip[|skip| - 1] > 0 then skip[|skip| - 1]
    else LastPositive(skip[..|skip| - 1])
  }

  /** A positive entry after which no positive entry follows is the one chosen. */
  lemma {:induction false} LastPositiveIsLast(skip: seq<int>, i: int)
    requires 0 <= i < |skip| && skip[i] > 0
    requires forall k :: i < k < |skip| ==> skip[k] <= 0
    ensures LastPositive(skip) == skip[i]
  {
    if i < |skip| - 1 {
      var prefix := skip[..|skip| - 1];
      assert forall k :: i < k < |prefix| ==> prefix[k] == skip[k];
      LastPositiveIsLast(prefix, i);
    }
  }

  /** With no positive entry at all, and in particular with none given, the default is chosen. */
  lemma {:induction false} LastPositiveDefault(skip: seq<int>)
    requires forall k :: 0 <= k < |skip| ==> skip[k] <= 0
    ensures LastPositive(skip) == LogDefaultSkip
  {
    if |skip| > 0 {
      var prefix := skip[..|skip| - 1];
      assert forall k :: 0 <= k < |prefix| ==> prefix[k] == skip[k];
      LastPositiveDefault(prefix);
    }
  }

  /** The backward scan in New: start from the default and stop at the first positive entry
      met from the end. */
  method ResolveSkip(skip: seq<int>) returns (skipValue: int)
    ensures skipValue == LastPositive(skip)
    ensures skipValue > 0
  {
    skipValue := LogDefaultSkip;
    var i := |skip| - 1;
    while i >= 0
      invariant -1 <= i < |skip|
      invariant skipValue == LogDefaultSkip
      invariant forall k :: i < k < |skip| ==> skip[k] <= 0
    {
      if skip[i] > 0 {
        skipValue := skip[i];
        LastPositiveIsLast(skip, i);
        break;
      }
      i := i - 1;
    }
    if i < 0 {
      LastPositiveDefault(skip);
    }
  }

  /** A context.Context, which the model carries but does not look into. */
  datatype Context = Nil | Context(id: nat)

  /** A record handed to the handler: level, message, the attributes the arguments become,
      and whether a call site was captured for it (the program counter itself is not
      modelled). */
  datatype Record = Record(level: Level, msg: string, args: seq<Attr>, withSource: bool)

  /** The state after one log call: the sink, and whether the call panicked. */
  datatype Outcome = Outcome(output: seq<Record>, panicked: bool)

  /** The handler's gate (slog's HandlerOptions.Level): a level is enabled iff it is at or
      above the threshold. */
  predicate Enabled(threshold: Level, level: Level)
  {
    level >= threshold
  }

  /** Raising the level or lowering the threshold never disables a call. */
  lemma GateMonotone(threshold: Level, level: Level, threshold': Level, level': Level)
    requires Enabled(threshold, level)
    requires threshold' <= threshold && level <= level'
    ensures Enabled(threshold', level')
  {
  }

  /** Some argument makes the hook's type assertion fail while the handler walks it. */
  predicate ArgsRejected(args: seq<Attr>)
  {
    exists k :: 0 <= k < |args| && HandlerRejects(args[k])
  }

  /** With no group among them, the arguments make the handler panic exactly when the hook
      panics on one of them. */
  lemma HandlerPanicIsHookPanic(levelString: Level -> string, args: seq<Attr>)
    requires forall k :: 0 <= k < |args| ==> !args[k].value.GroupValue?
    ensures ArgsRejected(args) <==>
              exists k :: 0 <= k < |args| && ReplaceAttr(levelString, [], args[k]).TypeAssertionPanic?
  {
    forall k | 0 <= k < |args|
      ensures HandlerRejects(args[k]) <==> ReplaceAttr(levelString, [], args[k]).TypeAssertionPanic?
    {
      HandlerRejectsIsHookPanic(levelString, [], args[k]);
    }
  }

  /** A call that passes the gate and then panics inside the handler. */
  predicate Panics(threshold: Level, c: Record)
  {
    Enabled(threshold, c.level) && ArgsRejected(c.args)
  }

  /** One log call. Below the threshold nothing happens. At or above it the handler runs the
      hook over the record's attributes: if one is rejected the call panics and nothing is
      written, otherwise the sink gains exactly one record, at its end, carrying the call's
      level, message and arguments. */
  function Emit(output: seq<Record>, threshold: Level, addSource: bool,
                level: Level, msg: string, args: seq<Attr>): (r: Outcome)
    ensures r.panicked <==> Enabled(threshold, level) && ArgsRejected(args)
    ensures !Enabled(threshold, level) || r.panicked ==> r.output == output
    ensures Enabled(threshold, level) && !r.panicked ==>
              |r.output| == |output| + 1 && r.output[..|output|] == output &&
              r.output[|output|] == Record(level, msg, args, addSource)
  {
    if !Enabled(threshold, level) then Outcome(output, false)
    else if ArgsRejected(args) then Outcome(output, true)
    else Outcome(output + [Record(level, msg, args, addSource)], false)
  }

  /** The level attribute the text handler writes for a record: the built-in attribute always
      holds a Level, so the hook never panics on it and writes the logger's label. */
  function RenderedLevel(levelString: Level -> string, r: Record): (a: Attr)
    ensures a == Attr(LevelKey, StringValue(LevelLabel(levelString, r.level)))
    ensures r.level == LevelTrace ==> a.value.str == "TRACE"
    ensures r.level == LevelFatal ==> a.value.str == "FATAL"
  {
    ReplaceAttr(levelString, [], Attr(LevelKey, LevelValue(r.level))).attr
  }

  /** A run of log calls at a fixed threshold, each described by the record it would produce;
      a panic ends the run. Nothing the sink already held is ever lost. */
  function Replay(output: seq<Record>, threshold: Level, calls: seq<Record>): (r: Outcome)
    ensures |output| <= |r.output| && r.output[..|output|] == output
    decreases |calls|
  {
    if calls == [] then Outcome(output, false)
    else
      var c := calls[0];
      var step := Emit(output, threshold, c.withSource, c.level, c.msg, c.args);
      if step.panicked then step
      else
        var r := Replay(step.output, threshold, calls[1..]);
        assert r.output[..|output|] == r.output[..|step.output|][..|output|];
        r
  }

  /** How many calls of a run return normally: the index of the first call that panics, or
      the whole run. */
  function Stop(threshold: Level, calls: seq<Record>): (n: nat)
    ensures n <= |calls|
    ensures forall k :: 0 <= k < n ==> !Panics(threshold, calls[k])
    ensures n < |calls| ==> Panics(threshold, calls[n])
    decreases |calls|
  {
    if calls == [] || Panics(threshold, calls[0]) then 0 else 1 + Stop(threshold, calls[1..])
  }

  /** The records a run writes: the enabled calls before the first panic, in their order. */
  function Kept(threshold: Level, calls: seq<Record>): (r: seq<Record>)
    ensures |r| <= |calls|
    ensures forall k :: 0 <= k < |r| ==> Enabled(threshold, r[k].level) && !ArgsRejected(r[k].args)
    decreases |calls|
  {
    if calls == [] || Panics(threshold, calls[0]) then []
    else (if Enabled(threshold, calls[0].level) then [calls[0]] else []) + Kept(threshold, calls[1..])
  }

  /** One step of a run: the first call either panics, ending the run with nothing written,
      or is written if enabled, and the run goes on with the rest. */
  lemma RunStep(output: seq<Record>, threshold: Level, calls: seq<Record>)
    requires calls != []
    ensures Panics(threshold, calls[0]) ==>
              Replay(output, threshold, calls) == Outcome(output, true) &&
              Kept(threshold, calls) == [] && Stop(threshold, calls) == 0
    ensures !Panics(threshold, calls[0]) ==>
              var head := if Enabled(threshold, calls[0].level) then [calls[0]] else [];
              Replay(output, threshold, calls) == Replay(output + head, threshold, calls[1..]) &&
              Kept(threshold, calls) == head + Kept(threshold, calls[1..]) &&
              Stop(threshold, calls) == 1 + Stop(threshold, calls[1..])
  {
    var c := calls[0];
    var next := Emit(output, threshold, c.withSource, c.level, c.msg, c.args);
    if !Panics(threshold, c) {
      var head := if Enabled(threshold, c.level) then [c] else [];
      assert c == Record(c.level, c.msg, c.args, c.withSource);
      assert next == Outcome(output + head, false);
      assert Replay(output, threshold, calls) == Replay(next.output, threshold, calls[1..]);
    }
  }

  /** A call is written exactly when it comes before the run's first panic and passes the gate. */
  lemma {:induction false} KeptMembers(threshold: Level, calls: seq<Record>, c: Record)
    ensures c in Kept(threshold, calls) <==> c in calls[..Stop(threshold, calls)] && Enabled(threshold, c.level)
    decreases |calls|
  {
    if calls != [] {
      RunStep([], threshold, calls);
      if !Panics(threshold, calls[0]) {
        var rest := calls[1..];
        assert calls[..Stop(threshold, calls)] == [calls[0]] + rest[..Stop(threshold, rest)];
        KeptMembers(threshold, rest, c);
      }
    }
  }

  /** A run panics iff one of its calls does. */
  lemma {:induction false} ReplayPanics(output: seq<Record>, threshold: Level, calls: seq<Record>)
    ensures Replay(output, threshold, calls).panicked <==> Stop(threshold, calls) < |calls|
    decreases |calls|
  {
    if calls != [] {
      RunStep(output, threshold, calls);
      if !Panics(threshold, calls[0]) {
        var head := if Enabled(threshold, calls[0].level) then [calls[0]] else [];
        ReplayPanics(output + head, threshold, calls[1..]);
      }
    }
  }

  /** A run writes exactly the kept calls, in order, after what the sink already held. */
  lemma {:induction false} ReplayWrites(output: seq<Record>, threshold: Level, calls: seq<Record>)
    ensures Replay(output, threshold, calls).output == output + Kept(threshold, calls)
    decreases |calls|
  {
    if calls != [] {
      RunStep(output, threshold, calls);
      if !Panics(threshold, calls[0]) {
        var head := if Enabled(threshold, calls[0].level) then [calls[0]] else [];
        var rest := calls[1..];
        ReplayWrites(output + head, threshold, rest);
        var kept := Kept(threshold, rest);
        assert (output + head) + kept == output + (head + kept);
      }
    }
  }

  /** Between two changes of the threshold the sink receives exactly the kept calls, in order,
      after what it already held, and the run panics iff one of its calls does. */
  lemma ReplayAppendsKept(output: seq<Record>, threshold: Level, calls: seq<Record>)
    ensures Replay(output, threshold, calls) ==
              Outcome(output + Kept(threshold, calls), Stop(threshold, calls) < |calls|)
  {
    ReplayPanics(output, threshold, calls);
    ReplayWrites(output, threshold, calls);
  }

  /** A run of calls all below the threshold writes nothing and never panics. */
  lemma {:induction false} KeptNone(threshold: Level, calls: seq<Record>)
    requires forall k :: 0 <= k < |calls| ==> !Enabled(threshold, calls[k].level)
    ensures Kept(threshold, calls) == [] && Stop(threshold, calls) == |calls|
    decreases |calls|
  {
    if calls != [] {
      assert !Enabled(threshold, calls[0].level);
      KeptNone(threshold, calls[1..]);
    }
  }

  /** The six fixed levels that the twelve Logger methods and the twelve package functions
      below pass to log. */
  function CallLevels(): (s: seq<Level>)
    ensures |s| == 6
    ensures LevelTrace in s && LevelDebug in s && LevelInfo in s
    ensures LevelWarn in s && LevelError in s && LevelFatal in s
    ensures forall l :: l in s ==> l in LevelMap() && LevelTrace <= l <= LevelFatal
  {
    [LevelTrace, LevelDebug, LevelInfo, LevelWarn, LevelError, LevelFatal]
  }

  /** The call levels the hook labels with slog's Level.String(). */
  function FallbackLevels(): (s: seq<Level>)
    ensures |s| == 4
    ensures forall l :: l in s ==> l in CallLevels() && l != LevelTrace && l != LevelFatal
  {
    var c := CallLevels();
    assert c[0] == LevelTrace && c[5] == LevelFatal;
    c[1..5]
  }

  /** The six entry points write six distinct level labels, provided slog renders DEBUG, INFO,
      WARN and ERROR distinctly and as neither "TRACE" nor "FATAL". */
  lemma CallLabelsDistinct(levelString: Level -> string)
    requires forall i, j :: 0 <= i < j < |FallbackLevels()| ==>
               levelString(FallbackLevels()[i]) != levelString(FallbackLevels()[j])
    requires forall i :: 0 <= i < |FallbackLevels()| ==>
               levelString(FallbackLevels()[i]) != "TRACE" && levelString(FallbackLevels()[i]) != "FATAL"
    ensures forall i, j :: 0 <= i < j < |CallLevels()| ==>
              LevelLabel(levelString, CallLevels()[i]) != LevelLabel(levelString, CallLevels()[j])
  {
    var f, c := FallbackLevels(), CallLevels();
    forall i, j | 0 <= i < j < |c|
      ensures LevelLabel(levelString, c[i]) != LevelLabel(levelString, c[j])
    {
      if i == 0 && j == 5 {
        assert LevelLabel(levelString, c[i]) == "TRACE" && LevelLabel(levelString, c[j]) == "FATAL";
      } else if i == 0 {
        assert c[j] == f[j - 1];
        assert LevelLabel(levelString, c[j]) == levelString(f[j - 1]);
      } else if j == 5 {
        assert c[i] == f[i - 1];
        assert LevelLabel(levelString, c[i]) == levelString(f[i - 1]);
      } else {
        assert c[i] == f[i - 1] && c[j] == f[j - 1];
        assert LevelLabel(levelString, c[i]) == levelString(f[i - 1]);
        assert LevelLabel(levelString, c[j]) == levelString(f[j - 1]);
      }
    }
  }

  /** With threshold OFF, no run of calls at the entry points' levels writes or panics. */
  lemma {:induction false} OffSilencesEveryCall(output: seq<Record>, calls: seq<Record>)
    requires forall k :: 0 <= k < |calls| ==> calls[k].level in CallLevels()
    ensures Replay(output, LevelOff, calls) == Outcome(output, false)
  {
    KeptNone(LevelOff, calls);
    ReplayAppendsKept(output, LevelOff, calls);
  }

  /** When every call passes the gate, every call before the run's first panic is written. */
  lemma {:induction false} KeptAllEnabled(threshold: Level, calls: seq<Record>)
    requires forall k :: 0 <= k < |calls| ==> Enabled(threshold, calls[k].level)
    ensures Kept(threshold, calls) == calls[..Stop(threshold, calls)]
    decreases |calls|
  {
    if calls != [] {
      RunStep([], threshold, calls);
      if !Panics(threshold, calls[0]) {
        var rest := calls[1..];
        assert Enabled(threshold, calls[0].level);
        assert forall k :: 0 <= k < |rest| ==> rest[k] == calls[k + 1];
        KeptAllEnabled(threshold, rest);
        assert calls[..Stop(threshold, calls)] == [calls[0]] + rest[..Stop(threshold, rest)];
      }
    }
  }

  /** With threshold ALL, every call at an entry point's level before the run's first panic
      is written. */
  lemma {:induction false} AllKeepsEveryCall(calls: seq<Record>)
    requires forall k :: 0 <= k < |calls| ==> calls[k].level in CallLevels()
    ensures Kept(LevelAll, calls) == calls[..Stop(LevelAll, calls)]
  {
    assert forall k :: 0 <= k < |calls| ==> Enabled(LevelAll, calls[k].level);
    KeptAllEnabled(LevelAll, calls);
  }

  /** A logger built by New: its threshold (the LevelVar), its handler options and the records
      its handler has been handed, oldest first. */
  class Logger {
    /** The LevelVar: the threshold, adjustable after construction. */
    var threshold: Level
    /** HandlerOptions.AddSource. */
    var addSource: bool
    /** Stack frames to skip when capturing the call site. */
    const skip: int
    /** What the handler has been handed. */
    var output: seq<Record>

    constructor New(level: Level, skipArgs: seq<int>)
      ensures threshold == level && addSource
      ensures skip == LastPositive(skipArgs) && skip > 0
      ensures output == []
    {
      var s := ResolveSkip(skipArgs);
      threshold := level;
      addSource := true;
      skip := s;
      output := [];
    }

    /** Set on the exported LevelVar: affects later calls only. */
    method SetLevel(level: Level)
      modifies this`threshold
      ensures threshold == level
    {
      threshold := level;
    }

    /** log: return at once below the threshold, otherwise hand one record to the handler,
        which panics when the hook rejects one of its attributes. */
    method Log(ctx: Context, level: Level, msg: string, args: seq<Attr>) returns (panicked: bool)
      modifies this`output
      ensures Outcome(output, panicked) == Emit(old(output), threshold, addSource, level, msg, args)
    {
      if !Enabled(threshold, level) {
        return false;
      }
      if ArgsRejected(args) {
        return true;
      }
      output := output + [Record(level, msg, args, addSource)];
      return false;
    }

    /** A run of log calls on this logger, each described by the record it would produce,
        ending at the first call that panics: the run Replay describes. */
    method LogRun(calls: seq<Record>) returns (panicked: bool)
      requires forall k :: 0 <= k < |calls| ==> calls[k].withSource == addSource
      modifies this`output
      ensures Outcome(output, panicked) == Replay(old(output), threshold, calls)
    {
      var i := 0;
      panicked := false;
      while i < |calls| && !panicked
        invariant 0 <= i <= |calls|
        invariant Replay(old(output), threshold, calls) ==
                    if panicked then Outcome(output, true) else Replay(output, threshold, calls[i..])
      {
        var c := calls[i];
        assert calls[i..][1..] == calls[i + 1..];
        panicked := Log(Nil, c.level, c.msg, c.args);
        i := i + 1;
      }
    }

    method TraceCtx(ctx: Context, msg: string, args: seq<Attr>) returns (panicked: bool)
      modifies this`output
      ensures Outcome(output, panicked) == Emit(old(output), threshold, addSource, LevelTrace, msg, args)
    {
      panicked := Log(ctx, LevelTrace, msg, args);
    }

    method DebugCtx(ctx: Context, msg: string, args: seq<Attr>) returns (panicked: bool)
      modifies this`output
      ensures Outcome(output, panicked) == Emit(old(output), threshold, addSource, LevelDebug, msg, args)
    {
      panicked := Log(ctx, LevelDebug, msg, args);
    }

    method InfoCtx(ctx: Context, msg: string, args: seq<Attr>) returns (panicked: bool)
      modifies this`output
      ensures Outcome(output, panicked) == Emit(old(output), threshold, addSource, LevelInfo, msg, args)
    {
      panicked := Log(ctx, LevelInfo, msg, args);
    }

    method WarnCtx(ctx: Context, msg: string, args: seq<Attr>) returns (panicked: bool)
      modifies this`output
      ensures Outcome(output, panicked) == Emit(old(output), threshold, addSource, LevelWarn, msg, args)
    {
      panicked := Log(ctx, LevelWarn, msg, args);
    }

    method ErrorCtx(ctx: Context, msg: string, args: seq<Attr>) returns (panicked: bool)
      modifies this`output
      ensures Outcome(output, panicked) == Emit(old(output), threshold, addSource, LevelError, msg, args)
    {
      panicked := Log(ctx, LevelError, msg, args);
    }

    method FatalCtx(ctx: Context, msg: string, args: seq<Attr>) returns (panicked: bool)
      modifies this`output
      ensures Outcome(output, panicked) == Emit(old(output), threshold, addSource, LevelFatal, msg, args)
    {
      panicked := Log(ctx, LevelFatal, msg, args);
    }

    method Trace(msg: string, args: seq<Attr>) returns (panicked: bool)
      modifies this`output
      ensures Outcome(output, panicked) == Emit(old(output), threshold, addSource, LevelTrace, msg, args)
    {
      panicked := Log(Nil, LevelTrace, msg, args);
    }

    method Debug(msg: string, args: seq<Attr>) returns (panicked: bool)
      modifies this`output
      ensures Outcome(output, panicked) == Emit(old(output), threshold, addSource, LevelDebug, msg, args)
    {
      panicked := Log(Nil, LevelDebug, msg, args);
    }

    method Info(msg: string, args: seq<Attr>) returns (panicked: bool)
      modifies this`output
      ensures Outcome(output, panicked) == Emit(old(output), threshold, addSource, LevelInfo, msg, args)
    {
      panicked := Log(Nil, LevelInfo, msg, args);
    }

    method Warn(msg: string, args: seq<Attr>) returns (panicked: bool)
      modifies this`output
      ensures Outcome(output, panicked) == Emit(old(output), threshold, addSource, LevelWarn, msg, args)
    {
      panicked := Log(Nil, LevelWarn, msg, args);
    }

    method Error(msg: string, args: seq<Attr>) returns (panicked: bool)
      modifies this`output
      ensures Outcome(output, panicked) == Emit(old(output), threshold, addSource, LevelError, msg, args)
    {
      panicked := Log(Nil, LevelError, msg, args);
    }

    method Fatal(msg: string, args: seq<Attr>) returns (panicked: bool)
      modifies this`output
      ensures Outcome(output, panicked) == Emit(old(output), threshold, addSource, LevelFatal, msg, args)
    {
      panicked := Log(Nil, LevelFatal, msg, args);
    }
  }

  /** The package-level state: DefaultLogger, built with LevelAll, behind the package-level
      entry points. */
  class Package {
    var defaultLogger: Logger

    constructor ()
      ensures fresh(defaultLogger)
      ensures defaultLogger.threshold == LevelAll && defaultLogger.addSource
      ensures defaultLogger.skip == LogDefaultSkip && defaultLogger.output == []
    {
      defaultLogger := new Logger.New(LevelAll, []);
    }

    method TraceCtx(ctx: Context, msg: string, args: seq<Attr>) returns (panicked: bool)
      modifies defaultLogger`output
      ensures Outcome(defaultLogger.output, panicked) ==
                Emit(old(defaultLogger.output), defaultLogger.threshold, defaultLogger.addSource, LevelTrace, msg, args)
    {
      panicked := defaultLogger.Log(ctx, LevelTrace, msg, args);
    }

    method DebugCtx(ctx: Context, msg: string, args: seq<Attr>) returns (panicked: bool)
      modifies defaultLogger`output
      ensures Outcome(defaultLogger.output, panicked) ==
                Emit(old(defaultLogger.output), defaultLogger.threshold, defaultLogger.addSource, LevelDebug, msg, args)
    {
      panicked := defaultLogger.Log(ctx, LevelDebug, msg, args);
    }

    method InfoCtx(ctx: Context, msg: string, args: seq<Attr>) returns (panicked: bool)
      modifies defaultLogger`output
      ensures Outcome(defaultLogger.output, panicked) ==
                Emit(old(defaultLogger.output), defaultLogger.threshold, defaultLogger.addSource, LevelInfo, msg, args)
    {
      panicked := defaultLogger.Log(ctx, LevelInfo, msg, args);
    }

    method WarnCtx(ctx: Context, msg: string, args: seq<Attr>) returns (panicked: bool)
      modifies defaultLogger`output
      ensures Outcome(defaultLogger.output, panicked) ==
                Emit(old(defaultLogger.output), defaultLogger.threshold, defaultLogger.addSource, LevelWarn, msg, args)
    {
      panicked := defaultLogger.Log(ctx, LevelWarn, msg, args);
    }

    method ErrorCtx(ctx: Context, msg: string, args: seq<Attr>) returns (panicked: bool)
      modifies defaultLogger`output
      ensures Outcome(defaultLogger.output, panicked) ==
                Emit(old(defaultLogger.output), defaultLogger.threshold, defaultLogger.addSource, LevelError, msg, args)
    {
      panicked := defaultLogger.Log(ctx, LevelError, msg, args);
    }

    method FatalCtx(ctx: Context, msg: string, args: seq<Attr>) returns (panicked: bool)
      modifies defaultLogger`output
      ensures Outcome(defaultLogger.output, panicked) ==
                Emit(old(defaultLogger.output), defaultLogger.threshold, defaultLogger.addSource, LevelFatal, msg, args)
    {
      panicked := defaultLogger.Log(ctx, LevelFatal, msg, args);
    }

    method Trace(msg: string, args: seq<Attr>) returns (panicked: bool)
      modifies defaultLogger`output
      ensures Outcome(defaultLogger.output, panicked) ==
                Emit(old(defaultLogger.output), defaultLogger.threshold, defaultLogger.addSource, LevelTrace, msg, args)
    {
      panicked := defaultLogger.Log(Nil, LevelTrace, msg, args);
    }

    method Debug(msg: string, args: seq<Attr>) returns (panicked: bool)
      modifies defaultLogger`output
      ensures Outcome(defaultLogger.output, panicked) ==
                Emit(old(defaultLogger.output), defaultLogger.threshold, defaultLogger.addSource, LevelDebug, msg, args)
    {
      panicked := defaultLogger.Log(Nil, LevelDebug, msg, args);
    }

    method Info(msg: string, args: seq<Attr>) returns (panicked: bool)
      modifies defaultLogger`output
      ensures Outcome(defaultLogger.output, panicked) ==
                Emit(old(defaultLogger.output), defaultLogger.threshold, defaultLogger.addSource, LevelInfo, msg, args)
    {
      panicked := defaultLogger.Log(Nil, LevelInfo, msg, args);
    }

    method Warn(msg: string, args: seq<Attr>) returns (panicked: bool)
      modifies defaultLogger`output
      ensures Outcome(defaultLogger.output, panicked) ==
                Emit(old(defaultLogger.output), defaultLogger.threshold, defaultLogger.addSource, LevelWarn, msg, args)
    {
      panicked := defaultLogger.Log(Nil, LevelWarn, msg, args);
    }

    method Error(msg: string, args: seq<Attr>) returns (panicked: bool)
      modifies defaultLogger`output
      ensures Outcome(defaultLogger.output, panicked) ==
                Emit(old(defaultLogger.output), defaultLogger.threshold, defaultLogger.addSource, LevelError, msg, args)
    {
      panicked := defaultLogger.Log(Nil, LevelError, msg, args);
    }

    method Fatal(msg: string, args: seq<Attr>) returns (panicked: bool)
      modifies defaultLogger`output
      ensures Outcome(defaultLogger.output, panicked) ==
                Emit(old(defaultLogger.output), defaultLogger.threshold, defaultLogger.addSource, LevelFatal, msg, args)
    {
      panicked := defaultLogger.Log(Nil, LevelFatal, msg, args);
    }
  }
}
