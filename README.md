# A verified model of cd365/logger

`logger.go` is a leveled logger on top of Go's `log/slog`. It defines an integer severity
scale that widens slog's four levels (Debug -4, Info 0, Warn 4, Error 8) with ALL (-6),
TRACE (-5), FATAL (9) and OFF (10). `LevelMap` labels those eight levels. `New` builds a
text handler whose `ReplaceAttr` hook writes TRACE and FATAL from that table and leaves
every other level to slog's `Level.String()`. `New` also picks a stack-skip count from its
variadic `skip` argument. Every logger holds a mutable threshold, the `LevelVar`. Its
unexported `log` returns at once when the level is below the threshold. Otherwise it hands
one record to the handler. Six per-level methods, six `...Ctx` variants, and twelve
package-level functions on `DefaultLogger` (built with `LevelAll`) all call `log` with a
fixed level.

The model has three modules:

- `Levels` (`levels.dfy`) holds the constants, the ordered scale, `LevelMap` and its inverse.
- `Attrs` (`attrs.dfy`) holds attributes, the level labelling rule and the `ReplaceAttr` hook.
- `Logging` (`logging.dfy`) holds skip resolution, the gate, and the sink as an abstract
  sequence of records. Its class `Logger` models a logger. Its class `Package` holds
  `DefaultLogger` and the package-level entry points.

slog's `Level.String()` is a parameter `levelString: Level -> string`. The model does not
interpret it. Levels and skip counts are Go `int`s that are only compared, never computed
with, so unbounded `int` loses nothing.

`Fatal` and `FatalCtx` log at level 9 and return like every other entry point: nothing in
`logger.go` aborts the program.

A log call can panic, though. The text handler runs the `ReplaceAttr` hook on every
non-group attribute of the record, the caller's arguments included. A group is never handed
to the hook; its members are, at any depth, and the hook does not look at the group path.
An attribute keyed "level" whose value is not a `slog.Level` (`Info("m", "level", 3)`, or
the same inside `slog.Group("g", "level", 3)`) fails the type assertion in the hook. A group
that is itself keyed "level" does not.
Then nothing is written and the panic leaves `log` and the entry point that called it. The
model returns that as a `panicked` flag from `Log` and from every entry point. A run of
calls stops at its first panic.

## Model

| member | source | states |
|---|---|---|
| Levels.Scale | logger.go:13-22 | the eight named levels have the stated values and are strictly increasing, ALL < TRACE < DEBUG < INFO < WARN < ERROR < FATAL < OFF; DEBUG..ERROR are slog's -4, 0, 4, 8 |
| Levels.LevelMap | logger.go:24-33 | the table's keys are exactly the eight named levels, every label is non-empty, and TRACE and FATAL are labelled "TRACE" and "FATAL" |
| Levels.LevelOfLabel | logger.go:24-33 | inverse of the table: a label it maps to a level is that level's label in the table |
| Levels.LabelRoundTrip | logger.go:24-33 | reading back the label of any table level gives that level, so the table is a bijection onto its labels |
| Levels.LevelMapInjective | logger.go:24-33 | two table levels with the same label are the same level |
| Levels.UnknownLabelRejected | logger.go:24-33 | a string that is no level's label reads back to no level |
| Attrs.LevelLabel | logger.go:67-73 | TRACE is labelled "TRACE", FATAL "FATAL", every other level by slog's Level.String() |
| Attrs.ReplaceAttr | logger.go:64-77 | an attribute whose key is not "level" comes back unchanged; a level-keyed attribute holding a Level keeps its key and gets the string label of that level; the hook panics exactly on a level-keyed attribute holding anything else (the handler never hands it a group) |
| Attrs.Rejected | logger.go:65-66 | the type assertion fails exactly on an attribute keyed "level" that does not hold a Level |
| Attrs.HandlerRejects | logger.go:64-77 | walking one attribute, the handler reaches a failing assertion: a group is never handed to the hook, but each member is, at any depth |
| Attrs.HandlerRejectsIsHookPanic | logger.go:64-77 | on a non-group attribute, the handler fails exactly when the hook's type assertion does |
| Attrs.GroupKeyIgnored | logger.go:65-66 | a group with any key, "level" included, does not panic when none of its members does: the hook is never handed the group |
| Attrs.NestedLevelRejected | logger.go:65-66 | a non-group member keyed "level" whose value is not a Level panics, inside a group of any key and at any position |
| Logging.LastPositive | logger.go:80-86 | the chosen skip is always positive and is either the default 3 or one of the given entries |
| Logging.LastPositiveIsLast | logger.go:81-85 | a positive entry with no positive entry after it is the one chosen |
| Logging.LastPositiveDefault | logger.go:80-86 | with no positive entry, including an empty argument, the default 3 is chosen |
| Logging.ResolveSkip | logger.go:80-86 | the backward scan with early break returns exactly the chosen skip, which is positive |
| Logging.Enabled | logger.go:96-98 | the gate: a level passes iff it is at or above the threshold |
| Logging.GateMonotone | logger.go:96-98 | a call enabled at one threshold stays enabled at a lower threshold and at a higher level |
| Logging.ArgsRejected | logger.go:110 | the handler panics on a record's arguments: one of them leads the handler's walk to a failing assertion |
| Logging.HandlerPanicIsHookPanic | logger.go:64-77 | for arguments with no group among them, the handler panics exactly when the hook's type assertion fails on one of them |
| Logging.Panics | logger.go:96-110 | a call panics when it passes the gate and its arguments make the handler panic |
| Logging.Emit | logger.go:95-111 | below the threshold nothing changes and nothing panics; at or above it the call panics iff the hook rejects one of its arguments, and then nothing is written; otherwise the sink gains exactly one record, at its end, carrying the call's level, message, arguments and the AddSource flag |
| Logging.RenderedLevel | logger.go:64-77 | the handler's built-in level attribute never makes the hook panic and is written as the logger's label, "TRACE"/"FATAL" for those levels |
| Logging.Replay | logger.go:95-111 | repeated log calls at a fixed threshold, ending at the first panic, never remove what the sink already held |
| Logging.Stop | logger.go:95-111 | the number of calls of a run that return normally is the index of its first panicking call, or the whole run |
| Logging.Kept | logger.go:96-98 | the records a run writes are at most as many as its calls, all enabled and none with a rejected argument |
| Logging.RunStep | logger.go:95-111 | a run's first call either panics, writing nothing and ending the run, or is written exactly when enabled and the run goes on |
| Logging.KeptMembers | logger.go:96-98 | a call is written exactly when it comes before the run's first panic and is at or above the threshold |
| Logging.ReplayPanics | logger.go:95-111 | a run at a fixed threshold panics iff one of its calls panics |
| Logging.ReplayWrites | logger.go:95-111 | a run at a fixed threshold appends exactly the kept calls, in order, to what the sink held |
| Logging.ReplayAppendsKept | logger.go:95-111 | a run at a fixed threshold appends exactly the kept calls, in order, and panics iff one of its calls panics |
| Logging.KeptNone | logger.go:96-98 | a run whose calls are all below the threshold writes nothing and never panics |
| Logging.KeptAllEnabled | logger.go:96-98 | when every call passes the gate, every call before the first panic is written, in order |
| Logging.CallLevels | logger.go:113-211 | the six levels the 24 entry points pass are TRACE, DEBUG, INFO, WARN, ERROR and FATAL, all table levels |
| Logging.FallbackLevels | logger.go:67-73 | the four call levels the hook leaves to Level.String() are call levels other than TRACE and FATAL |
| Logging.CallLabelsDistinct | logger.go:64-77 | if slog renders DEBUG, INFO, WARN and ERROR distinctly and as neither "TRACE" nor "FATAL", the six call levels get six distinct labels |
| Logging.OffSilencesEveryCall | logger.go:96-98 | with threshold OFF no run of entry-point calls changes the sink or panics |
| Logging.AllKeepsEveryCall | logger.go:161-163 | with threshold ALL, the DefaultLogger's setting, every entry-point call before the first panic is written |
| Logging.Logger.New | logger.go:53-93 | New sets the threshold to the given level, turns source capture on, stores the resolved skip (positive) and starts with an empty sink |
| Logging.Logger.SetLevel | logger.go:46-47 | Set on the LevelVar changes only the threshold and leaves the sink as it is |
| Logging.Logger.Log | logger.go:95-111 | log changes only the sink, and reports a panic, as Emit says at the current threshold |
| Logging.Logger.LogRun | logger.go:95-111 | a loop of log calls on one logger, ending at the first panic, leaves the sink and panic flag Replay gives at the logger's threshold |
| Logging.Logger.TraceCtx | logger.go:113-115 | logs at TRACE as Log does, panicking only as Log does |
| Logging.Logger.DebugCtx | logger.go:117-119 | logs at DEBUG as Log does, panicking only as Log does |
| Logging.Logger.InfoCtx | logger.go:121-123 | logs at INFO as Log does, panicking only as Log does |
| Logging.Logger.WarnCtx | logger.go:125-127 | logs at WARN as Log does, panicking only as Log does |
| Logging.Logger.ErrorCtx | logger.go:129-131 | logs at ERROR as Log does, panicking only as Log does |
| Logging.Logger.FatalCtx | logger.go:133-135 | logs at FATAL as Log does, panicking only as Log does and otherwise returns |
| Logging.Logger.Trace | logger.go:137-139 | logs at TRACE as Log does, panicking only as Log does |
| Logging.Logger.Debug | logger.go:141-143 | logs at DEBUG as Log does, panicking only as Log does |
| Logging.Logger.Info | logger.go:145-147 | logs at INFO as Log does, panicking only as Log does |
| Logging.Logger.Warn | logger.go:149-151 | logs at WARN as Log does, panicking only as Log does |
| Logging.Logger.Error | logger.go:153-155 | logs at ERROR as Log does, panicking only as Log does |
| Logging.Logger.Fatal | logger.go:157-159 | logs at FATAL as Log does, panicking only as Log does and otherwise returns |
| Logging.Package.constructor | logger.go:161-163 | DefaultLogger is a fresh logger with threshold ALL, source capture on, skip 3 and an empty sink |
| Logging.Package.TraceCtx | logger.go:165-167 | logs at TRACE on DefaultLogger as Log does, changing only that logger's sink |
| Logging.Package.DebugCtx | logger.go:169-171 | logs at DEBUG on DefaultLogger as Log does, changing only that logger's sink |
| Logging.Package.InfoCtx | logger.go:173-175 | logs at INFO on DefaultLogger as Log does, changing only that logger's sink |
| Logging.Package.WarnCtx | logger.go:177-179 | logs at WARN on DefaultLogger as Log does, changing only that logger's sink |
| Logging.Package.ErrorCtx | logger.go:181-183 | logs at ERROR on DefaultLogger as Log does, changing only that logger's sink |
| Logging.Package.FatalCtx | logger.go:185-187 | logs at FATAL on DefaultLogger as Log does, changing only that logger's sink and otherwise returns |
| Logging.Package.Trace | logger.go:189-191 | logs at TRACE on DefaultLogger as Log does, changing only that logger's sink |
| Logging.Package.Debug | logger.go:193-195 | logs at DEBUG on DefaultLogger as Log does, changing only that logger's sink |
| Logging.Package.Info | logger.go:197-199 | logs at INFO on DefaultLogger as Log does, changing only that logger's sink |
| Logging.Package.Warn | logger.go:201-203 | logs at WARN on DefaultLogger as Log does, changing only that logger's sink |
| Logging.Package.Error | logger.go:205-207 | logs at ERROR on DefaultLogger as Log does, changing only that logger's sink |
| Logging.Package.Fatal | logger.go:209-211 | logs at FATAL on DefaultLogger as Log does, changing only that logger's sink and otherwise returns |

## Left out

- Call-site capture through `runtime.Callers` (logger.go:99-104) is a query of the Go runtime's stack. A record carries only a flag saying whether a call site is captured, which is the `AddSource` setting. The skip count is stored but not used.
- The timestamp from `time.Now` (logger.go:105) is wall-clock input and is not in the record.
- `slog.NewTextHandler`, its text formatting and the write to `os.Stdout` (logger.go:79, 110) are library I/O. The handler is an abstract sequence of records that `log` appends to. Of the formatting, the model keeps only how the hook rewrites attributes: `RenderedLevel` for the built-in level attribute, and the panic on a rejected argument.
- The conversion of `args ...any` into attributes by `Record.Add` (logger.go:106) is library code. The model takes the attributes the arguments become. Group attributes are kept as groups: the handler's walk into them decides the panic, but the group path the hook receives is not modelled. The hook ignores that path anyway.
- Replacing a nil context with `context.Background()` (logger.go:107-109) does nothing visible. Contexts are carried as an abstract value and ignored.
- The rendering of `slog.Level.String()` for levels other than TRACE and FATAL is library code. It is an uninterpreted parameter.
- A caller that recovers from the panic and logs again is not modelled. A run of calls in the model ends at its first panic.
- The atomicity of `slog.LevelVar` and all concurrency are left out. The model is sequential.
- The exported `HandlerOptions` and `Logger` pointers could be replaced or mutated by callers. The model keeps only the `AddSource` flag and the threshold as fields.
- The exported `LevelVar` pointer could be replaced by a caller. The handler would then keep reading the old variable. The model treats that pointer as never replaced: `SetLevel` stands for `Set` on the variable the handler reads.
- `LevelMap` is an exported, mutable package-level map that the hook reads on every TRACE or FATAL record (logger.go:24, 70, 72). A caller who edits an entry changes the written label. Deleting one makes it "". The model treats `LevelMap` as the fixed table of logger.go:24-33. `LevelLabel` promises "TRACE" and "FATAL" only for that unedited table.
