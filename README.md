# WebPA server assembly and `RunnableSet`

A Dafny model of the `server` package of webpa-common: the `WebPABuilder`
that turns a configuration, a logger factory and caller-supplied HTTP handlers
into the runnables of a WebPA server, and the `Runnable`/`RunnableSet`
abstraction that starts them.

- `wrappers.dfy` — `Option` and `Result`.
- `decimal.dfy` — decimal text of integers, as `fmt.Sprintf("%d")` writes it, with
  its parser and the round trip between the two. The listen addresses are proved
  correct against this parser.
- `runnable.dfy` (module `Runnables`) — runnables as a datatype. `Start`/`StartAll`
  define what starting a runnable or a set does: members run in list order, the first
  error ends the start, and members that already started stay started. The methods
  `Run`/`RunSet`/`RunAll` loop the way the Go code does, over a `WaitGroup` object,
  and their postconditions tie them to those functions. The lemmas give the outcome in
  closed form: the first failure, an iff on failing, which leaves are invoked, and
  nested sets behaving like their spliced members.
- `webpa_builder.dfy` (module `Builder`) — address and interval defaulting, the
  per-role builders and `BuildAll`. Each `Build…` method mutates a `LoggerFactory`
  object that keeps a ghost log of the logger names it was asked for. Each method is
  proved against a pure function of the builder (`PrimaryResult`, `PprofResult`,
  `HealthResult`, `AllResult`, `AllRequests`). The lemmas state what those functions
  promise.

Starting a leaf (a WebPA server, a health tracker, any other operation) runs code
outside this package. It is a `World` parameter: how many goroutines the leaf
registers with the wait group, and the error it returns. The package constants
(`DefaultPort`, `DefaultHealthCheckPort`, `DefaultPprofPort`,
`DefaultHealthCheckInterval`, `healthSuffix`, `pprofSuffix`) are declared outside the
modelled files. They are a `Constants` parameter, so every property holds for any
values.

## Model

| member | source | states |
|---|---|---|
| Decimal.FormatInt | server/webpaBuilder.go:41 | `%d` text: a leading `-` exactly for negative numbers, then digits with no leading zero unless the number is 0 (never `-0`) |
| Decimal.CanonicalIntUnique | server/webpaBuilder.go:41 | `FormatInt(n)` is the only text in `%d` form that parses back to `n` |
| Decimal.ParseFormatInt | server/webpaBuilder.go:41 | parsing the `%d` text of any integer gives that integer back |
| Decimal.FormatIntInjective | server/webpaBuilder.go:41 | two integers have the same `%d` text exactly when they are equal |
| Builder.ListenAddress | server/webpaBuilder.go:36-41 | the address is `:` followed by `%d` text, with no leading zero and no `-0`, that parses to the configured port, or to the fallback when the port is below 1 |
| Builder.ListenAddressExact | server/webpaBuilder.go:36-41 | any `:` plus `%d`-form text that parses to the chosen port is exactly `ListenAddress`, so the address is the `Sprintf(":%d")` string |
| Builder.ListenAddressInjective | server/webpaBuilder.go:36-41 | two addresses are equal iff the ports they resolve to are equal |
| Builder.PrimaryAddress | server/webpaBuilder.go:35-42 | `:` plus the `%d` text (no leading zero) of the primary port, or `DefaultPort` when `Port < 1` |
| Builder.HealthAddress | server/webpaBuilder.go:45-52 | `:` plus the `%d` text (no leading zero) of the health port, or `DefaultHealthCheckPort` when `HealthCheckPort < 1` |
| Builder.PprofAddress | server/webpaBuilder.go:65-72 | `:` plus the `%d` text (no leading zero) of the pprof port, or `DefaultPprofPort` when `PprofPort < 1` |
| Builder.HealthCheckInterval | server/webpaBuilder.go:56-62 | the configured interval when it is at least 1, the default otherwise |
| Builder.LoggerFactory.NewLogger | server/webpaBuilder.go:78 | returns the factory's answer for the name and logs the request |
| Builder.PrimaryBuilt | server/webpaBuilder.go:75-96 | fails iff the factory fails for `ServerName`, with its error; otherwise a server named `ServerName` with that logger, on the primary address, with the supplied handler and the configured TLS files |
| Builder.HealthBuilt | server/webpaBuilder.go:100-125 | fails iff the factory fails for the health name, with its error; otherwise a set of exactly two members: the tracker, with the derived interval and the builder's options, then the health server, whose handler is that same tracker |
| Builder.PprofBuilt | server/webpaBuilder.go:128-154 | fails iff the factory fails for the pprof name, with its error; otherwise a server whose handler is never nil: the supplied one, or `DefaultServeMux` when none was supplied |
| Builder.AllAsksUpToFirstFailure | server/webpaBuilder.go:158-177 | `BuildAll` asks for the role loggers pprof, health, primary up to and including the first that fails, and for no later one |
| Builder.AllFailsAtFirstFailure | server/webpaBuilder.go:158-177 | `BuildAll` fails iff some role's logger fails, with the first such role's error; otherwise it returns one set of pprof, health and primary, in that order |
| Builder.HealthTrackerFirst | server/webpaBuilder.go:108-124 | started, the health set starts the tracker first, and the health server only if the tracker started |
| Builder.AllStartInOrder | server/webpaBuilder.go:174 | starting the assembled set invokes pprof, tracker, health server and primary in that order, up to the first failure, and returns its error |
| Builder.BuiltRunsInOrder | server/webpaBuilder.go:158-177 | running what a successful `BuildAll` returns starts its four leaves in order, up to and including the first failing one |
| Builder.BuildPrimary | server/webpaBuilder.go:75-96 | asks for exactly one logger, `ServerName`, and returns `PrimaryResult` |
| Builder.BuildHealth | server/webpaBuilder.go:100-125 | asks for exactly one logger, the health name, and returns `HealthResult` |
| Builder.BuildPprof | server/webpaBuilder.go:128-154 | asks for exactly one logger, the pprof name, and returns `PprofResult` |
| Builder.BuildAll | server/webpaBuilder.go:158-177 | the factory's log grows by `AllRequests` and the result is `AllResult` |
| Runnables.FirstFailure | server/runnable.go:22-25 | the index of the first member whose start fails: every earlier member succeeds, and that one fails |
| Runnables.StartAllStopsAt | server/runnable.go:22-25 | after succeeding members, a failing member's error is the set's error; the members up to it are invoked and no later one |
| Runnables.StartAllCompletes | server/runnable.go:21-29 | when every member starts, the set returns nil having invoked every member's leaves |
| Runnables.StartAllFirstFailure | server/runnable.go:21-29 | the set's error is the first failing member's error, or nil when none fails |
| Runnables.StartAllFails | server/runnable.go:21-29 | the set fails iff some member fails |
| Runnables.EmptySetStartsNothing | server/runnable.go:21-29 | an empty set starts nothing and returns nil |
| Runnables.LeafSetStopsAt | server/runnable.go:21-26 | in a set of leaves failing at member i, exactly the members 0..i are invoked, in order |
| Runnables.LeafSetCompletes | server/runnable.go:21-29 | in a set of leaves that all start, every member is invoked once, in order |
| Runnables.StartAllSplice | server/runnable.go:17-21 | a set nested inside a set starts like its members spliced in its place: same error, same leaves, same order |
| Runnables.RunLeaf | server/runnable.go:9-14 | a leaf's Run registers its goroutines with the wait group and returns its error |
| Runnables.Run | server/runnable.go:14 | the error, the invoked leaves and the wait-group count of `Run` are those of `Start` |
| Runnables.RunSet | server/runnable.go:21-29 | the loop returns the first error; the wait group holds every leaf started up to and including the failing one, with their goroutines |
| Runnables.RunAll | server/runnable.go:31-37 | a fresh wait group, which holds exactly the leaves the set started, even after an error, and the goroutines they registered |
| Runnables.StartOutcome | server/runnable.go:21-29 | every leaf a start invokes succeeded, except, when the start fails, the last one, whose error is the start's error |
| Runnables.StartAllOutcome | server/runnable.go:22-25 | in a set, only the last invoked leaf can have failed, and then its error is the set's error |
| Runnables.AddedBySucceeded | server/runnable.go:9-11 | when a `Run` that could not start spawns nothing, the goroutines registered are those of the leaves that succeeded |
| Runnables.WaitGroupHoldsSucceeded | server/runnable.go:31-33 | after an error the wait group holds the leaves that succeeded and then the failing one; under the `Run` convention its count is that of the operations that succeeded |
| Runnables.WaitGroup.constructor | server/runnable.go:35 | a new wait group counts no goroutines |

## Left out

- Network listening, TLS loading and the `http.Server` wiring (`ConnState`, `ErrorLog`) are left out: they belong to `net/http` and the logging package. A server keeps only its name, address, logger, TLS file paths and handler.
- What a leaf's `Run` does (binding sockets, spawning goroutines, `webPA.Run`) is the `World` parameter.
- `health.New` internals and the meaning of health options are left out: a tracker records only its interval, logger and options.
- The logger factory's internals are left out: it is a fixed function from name to result.
- The blank import of `net/http/pprof`, and what it registers on `DefaultServeMux`, are left out. `DefaultServeMux` is a constant handler.
- The concurrency of `sync.WaitGroup` (`Done`, `Wait`) is left out. The wait group is a counter that each started leaf adds its goroutines to.
- Go object identity is left out: two builds make distinct objects in Go, but equal values here.
- A leaf's outcome depends only on its value, never on what was started before it. A second start of the same server, or two equal-valued servers in one set, cannot fail where the first succeeded (for example at the bind), as Go's stateful leaves can.
- Runnables.Run: the guideline that `Run` should be idempotent binds implementations outside this package, so it is not stated.
- Builder.BuildAll: the value array `[3]Runnable` is modelled by the three values placed in its slots; the set holds them in slot order.
- Integers are unbounded: Go's 64-bit `int` and `time.Duration` overflow is not modelled.
- The `Configuration` type is not part of this model. Its port and interval fields are taken to be integers, and a nil `Configuration` (a Go panic) is not modelled.
- The values of the package constants are not part of this model; they are a parameter.
