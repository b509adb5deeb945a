/**
 * `WebPABuilder`: turns a configuration, a logger factory and caller-supplied handlers
 * into the runnables of a WebPA server: a pprof server, a health tracker with the
 * server that exposes it, and the primary server.
 *
 * The package constants (default ports, default health-check interval, role-name
 * suffixes) are defined outside the modelled files, so they are a `Constants` value
 * passed in and every property below holds whatever their values are.
 */
module Builder {
  import opened Wrappers
  import opened Decimal
  import opened Runnables

  /** The fields of a parsed configuration that the builder reads. */
  datatype Configuration = Configuration(
    serverName: string,
    port: int,
    healthCheckPort: int,
    healthCheckInterval: int,
    pprofPort: int,
    certificateFile: string,
    keyFile: string)

  /** `DefaultPort`, `DefaultHealthCheckPort`, `DefaultPprofPort`, `DefaultHealthCheckInterval`, `healthSuffix`, `pprofSuffix`. */
  datatype Constants = Constants(
    defaultPort: int,
    defaultHealthCheckPort: int,
    defaultPprofPort: int,
    defaultHealthCheckInterval: int,
    healthSuffix: string,
    pprofSuffix: string)

  /**
   * A `logging.LoggerFactory`. Whether it can make a logger for a name is given by
   * `answer`; the ghost log records every name it was asked for, in order.
   */
  class LoggerFactory {
    const answer: string -> Result<Logger, Error>
    ghost var requested: seq<string>

    constructor (answer: string -> Result<Logger, Error>)
      ensures this.answer == answer && requested == []
    {
      this.answer := answer;
      requested := [];
    }

    method NewLogger(name: string) returns (r: Result<Logger, Error>)
      modifies this
      ensures r == answer(name)
      ensures requested == old(requested) + [name]
    {
      requested := requested + [name];
      r := answer(name);
    }
  }

  /** The builder's fields; a nil handler is `None`. */
  datatype WebPABuilder = WebPABuilder(
    loggerFactory: LoggerFactory,
    configuration: Configuration,
    primaryHandler: Option<Handler>,
    pprofHandler: Option<Handler>,
    healthOptions: seq<HealthOption>)

  /**
   * `fmt.Sprintf(":%d", port)` after defaulting: a colon followed by the decimal text of
   * the configured port, or of the fallback when the configured port is below 1.
   */
  function ListenAddress(port: int, fallback: int): (address: string)
    ensures |address| >= 2 && address[0] == ':'
    ensures ParseInt(address[1..]) == Some(if port < 1 then fallback else port)
    ensures address[1] == '0' ==> address == ":0"
    ensures address[1] == '-' ==> address[2] != '0'
    ensures IsCanonicalInt(address[1..])
  {
    var chosen := if port < 1 then fallback else port;
    var digits := FormatInt(chosen);
    ParseFormatInt(chosen);
    assert (":" + digits)[1..] == digits;
    ":" + digits
  }

  /**
   * The listen address is exactly what `Sprintf(":%d")` writes: the only text of a colon
   * followed by an integer in `%d` form that reads back as the chosen port.
   */
  lemma ListenAddressExact(port: int, fallback: int, address: string)
    requires |address| >= 2 && address[0] == ':' && IsCanonicalInt(address[1..])
    requires ParseInt(address[1..]) == Some(if port < 1 then fallback else port)
    ensures address == ListenAddress(port, fallback)
  {
    var chosen := if port < 1 then fallback else port;
    CanonicalIntUnique(address[1..], chosen);
    CanonicalIntUnique(ListenAddress(port, fallback)[1..], chosen);
    assert address == ":" + address[1..];
    assert ListenAddress(port, fallback) == ":" + ListenAddress(port, fallback)[1..];
  }

  /** Two listen addresses are equal exactly when the ports they resolve to are equal. */
  lemma ListenAddressInjective(port: int, fallback: int, port': int, fallback': int)
    ensures ListenAddress(port, fallback) == ListenAddress(port', fallback') <==>
      (if port < 1 then fallback else port) == (if port' < 1 then fallback' else port')
  {
    var a, a' := ListenAddress(port, fallback), ListenAddress(port', fallback');
    if a == a' {
      assert a[1..] == a'[1..];
    }
  }

  /** `PrimaryAddress`: listens on `Port`, or on `DefaultPort` when `Port` is below 1. */
  function PrimaryAddress(b: WebPABuilder, k: Constants): (address: string)
    ensures |address| >= 2 && address[0] == ':'
    ensures ParseInt(address[1..]) ==
      Some(if b.configuration.port < 1 then k.defaultPort else b.configuration.port)
    ensures IsCanonicalInt(address[1..])
  {
    ListenAddress(b.configuration.port, k.defaultPort)
  }

  /** `HealthAddress`: listens on `HealthCheckPort`, or on `DefaultHealthCheckPort` when it is below 1. */
  function HealthAddress(b: WebPABuilder, k: Constants): (address: string)
    ensures |address| >= 2 && address[0] == ':'
    ensures ParseInt(address[1..]) ==
      Some(if b.configuration.healthCheckPort < 1 then k.defaultHealthCheckPort else b.configuration.healthCheckPort)
    ensures IsCanonicalInt(address[1..])
  {
    ListenAddress(b.configuration.healthCheckPort, k.defaultHealthCheckPort)
  }

  /** `PprofAddress`: listens on `PprofPort`, or on `DefaultPprofPort` when it is below 1. */
  function PprofAddress(b: WebPABuilder, k: Constants): (address: string)
    ensures |address| >= 2 && address[0] == ':'
    ensures ParseInt(address[1..]) ==
      Some(if b.configuration.pprofPort < 1 then k.defaultPprofPort else b.configuration.pprofPort)
    ensures IsCanonicalInt(address[1..])
  {
    ListenAddress(b.configuration.pprofPort, k.defaultPprofPort)
  }

  /** `HealthCheckInterval`: the configured interval, or the default when it is below 1. */
  function HealthCheckInterval(b: WebPABuilder, k: Constants): (interval: int)
    ensures b.configuration.healthCheckInterval >= 1 ==> interval == b.configuration.healthCheckInterval
    ensures b.configuration.healthCheckInterval < 1 ==> interval == k.defaultHealthCheckInterval
    ensures interval >= 1 || interval == k.defaultHealthCheckInterval
  {
    if b.configuration.healthCheckInterval < 1 then k.defaultHealthCheckInterval
    else b.configuration.healthCheckInterval
  }

  /** The logger names the three roles ask for: `ServerName` suffixed for pprof and health. */
  function PprofName(b: WebPABuilder, k: Constants): string {
    b.configuration.serverName + k.pprofSuffix
  }

  function HealthName(b: WebPABuilder, k: Constants): string {
    b.configuration.serverName + k.healthSuffix
  }

  /** The primary server built with `logger`. */
  function PrimaryServer(b: WebPABuilder, k: Constants, logger: Logger): Runnable {
    Server(b.configuration.serverName, PrimaryAddress(b, k), logger,
           b.configuration.certificateFile, b.configuration.keyFile, b.primaryHandler)
  }

  /** The pprof server built with `logger`: the supplied handler, or the default mux. */
  function PprofServer(b: WebPABuilder, k: Constants, logger: Logger): Runnable {
    var handler := if b.pprofHandler.None? then DefaultServeMux else b.pprofHandler.value;
    Server(PprofName(b, k), PprofAddress(b, k), logger, "", "", Some(handler))
  }

  /** The health tracker `health.New` makes, and the server whose handler is that tracker. */
  function HealthMembers(b: WebPABuilder, k: Constants, logger: Logger): seq<Runnable> {
    var tracker := Tracker(HealthCheckInterval(b, k), logger, b.healthOptions);
    [Health(tracker),
     Server(HealthName(b, k), HealthAddress(b, k), logger, "", "", Some(TrackerHandler(tracker)))]
  }

  /** What `BuildPrimary` returns, given what the factory answers for `ServerName`. */
  function PrimaryResult(b: WebPABuilder, k: Constants): Result<Runnable, Error>
  {
    var logger := b.loggerFactory.answer(b.configuration.serverName);
    if logger.Failure? then Failure(logger.error) else Success(PrimaryServer(b, k, logger.value))
  }

  /** What `BuildPprof` returns, given what the factory answers for the pprof name. */
  function PprofResult(b: WebPABuilder, k: Constants): Result<Runnable, Error>
  {
    var logger := b.loggerFactory.answer(PprofName(b, k));
    if logger.Failure? then Failure(logger.error) else Success(PprofServer(b, k, logger.value))
  }

  /** What `BuildHealth` returns, given what the factory answers for the health name. */
  function HealthResult(b: WebPABuilder, k: Constants): Result<Runnable, Error>
  {
    var logger := b.loggerFactory.answer(HealthName(b, k));
    if logger.Failure? then Failure(logger.error) else Success(Set(HealthMembers(b, k, logger.value)))
  }

  /**
   * `BuildPrimary` fails exactly when the factory fails for `ServerName`, with its error;
   * otherwise it returns the primary server, named `ServerName`, with that logger, on
   * the primary address, with the supplied handler (nil stays nil) and the configured
   * TLS files.
   */
  lemma PrimaryBuilt(b: WebPABuilder, k: Constants)
    ensures var logger := b.loggerFactory.answer(b.configuration.serverName);
      var r := PrimaryResult(b, k);
      (r.Failure? <==> logger.Failure?) &&
      (r.Failure? ==> r.error == logger.error) &&
      (r.Success? ==>
        r.value.Server? && r.value.name == b.configuration.serverName &&
        r.value.logger == logger.value && r.value.handler == b.primaryHandler &&
        r.value.certificateFile == b.configuration.certificateFile &&
        r.value.keyFile == b.configuration.keyFile &&
        r.value.address == PrimaryAddress(b, k))
  {
  }

  /**
   * `BuildPprof` fails exactly when the factory fails for the pprof name, with its
   * error; otherwise it returns a server of that name with that logger, on the pprof
   * address, without TLS, whose handler is never nil: the supplied one, or the default
   * mux when none was supplied.
   */
  lemma PprofBuilt(b: WebPABuilder, k: Constants)
    ensures var logger := b.loggerFactory.answer(PprofName(b, k));
      var r := PprofResult(b, k);
      (r.Failure? <==> logger.Failure?) &&
      (r.Failure? ==> r.error == logger.error) &&
      (r.Success? ==>
        r.value.Server? && r.value.name == PprofName(b, k) &&
        r.value.logger == logger.value && r.value.handler.Some? &&
        (b.pprofHandler.Some? ==> r.value.handler == b.pprofHandler) &&
        (b.pprofHandler.None? ==> r.value.handler == Some(DefaultServeMux)) &&
        r.value.certificateFile == "" && r.value.keyFile == "" &&
        r.value.address == PprofAddress(b, k))
  {
  }

  /**
   * `BuildHealth` fails exactly when the factory fails for the health name, with its
   * error; otherwise it returns a set of exactly two members built with that logger:
   * the tracker, with the derived interval and the builder's options, then a server of
   * that name on the health address, without TLS, whose handler is that same tracker.
   */
  lemma HealthBuilt(b: WebPABuilder, k: Constants)
    ensures var logger := b.loggerFactory.answer(HealthName(b, k));
      var r := HealthResult(b, k);
      (r.Failure? <==> logger.Failure?) &&
      (r.Failure? ==> r.error == logger.error) &&
      (r.Success? ==>
        r.value.Set? && |r.value.members| == 2 &&
        r.value.members[0] == Health(Tracker(HealthCheckInterval(b, k), logger.value, b.healthOptions)) &&
        r.value.members[1].Server? && r.value.members[1].name == HealthName(b, k) &&
        r.value.members[1].logger == logger.value &&
        r.value.members[1].handler == Some(TrackerHandler(r.value.members[0].tracker)) &&
        r.value.members[1].certificateFile == "" && r.value.members[1].keyFile == "" &&
        r.value.members[1].address == HealthAddress(b, k))
  {
  }

  /** The names `BuildAll` asks the factory for when nothing fails, in order. */
  function RoleNames(b: WebPABuilder, k: Constants): seq<string> {
    [PprofName(b, k), HealthName(b, k), b.configuration.serverName]
  }

  /**
   * Index of the first failed answer, or the length when none failed: the same notion
   * as `Runnables.FirstFailure`, over the factory's answers instead of members' starts.
   */
  function FirstFailedAnswer(answers: seq<Result<Logger, Error>>): (i: nat)
    ensures i <= |answers|
    ensures forall j :: 0 <= j < i ==> answers[j].Success?
    ensures i < |answers| ==> answers[i].Failure?
  {
    if answers == [] then 0
    else if answers[0].Failure? then 0
    else 1 + FirstFailedAnswer(answers[1..])
  }

  /** The factory's answers for the three role names, in `BuildAll`'s order. */
  function Answers(b: WebPABuilder, k: Constants): (answers: seq<Result<Logger, Error>>)
    ensures |answers| == 3
    ensures forall j :: 0 <= j < 3 ==> answers[j] == b.loggerFactory.answer(RoleNames(b, k)[j])
  {
    [b.loggerFactory.answer(PprofName(b, k)), b.loggerFactory.answer(HealthName(b, k)),
     b.loggerFactory.answer(b.configuration.serverName)]
  }

  /**
   * The names `BuildAll` asks the factory for: the role names up to and including the
   * first one the factory fails on, so no later role's logger is ever requested.
   */
  function AllRequests(b: WebPABuilder, k: Constants): seq<string> {
    if PprofResult(b, k).Failure? then [PprofName(b, k)]
    else if HealthResult(b, k).Failure? then [PprofName(b, k)] + [HealthName(b, k)]
    else [PprofName(b, k)] + [HealthName(b, k)] + [b.configuration.serverName]
  }

  /**
   * What `BuildAll` returns: the error of the first role whose logger the factory fails
   * on, and no runnable; when none fails, one set of the pprof server, the health set
   * and the primary server, in that order.
   */
  function AllResult(b: WebPABuilder, k: Constants): Result<Runnable, Error> {
    var pprof := PprofResult(b, k);
    if pprof.Failure? then Failure(pprof.error) else
    var health := HealthResult(b, k);
    if health.Failure? then Failure(health.error) else
    var primary := PrimaryResult(b, k);
    if primary.Failure? then Failure(primary.error) else
    Success(Set([pprof.value, health.value, primary.value]))
  }

  /**
   * `BuildAll` asks the factory for the role names up to and including the first one
   * it fails on, and for no later one; when none fails, for all three, in order.
   */
  lemma AllAsksUpToFirstFailure(b: WebPABuilder, k: Constants)
    ensures var i := FirstFailedAnswer(Answers(b, k));
      AllRequests(b, k) == RoleNames(b, k)[..if i < 3 then i + 1 else 3]
  {
    var answers, names := Answers(b, k), RoleNames(b, k);
    var i := FirstFailedAnswer(answers);
    if answers[0].Failure? {
      assert i == 0;
      assert names[..1] == [PprofName(b, k)];
    } else if answers[1].Failure? {
      assert i == 1;
      assert names[..2] == [PprofName(b, k)] + [HealthName(b, k)];
    } else {
      assert i == 2 || i == 3;
      assert names[..3] == [PprofName(b, k)] + [HealthName(b, k)] + [b.configuration.serverName];
    }
  }

  /**
   * `BuildAll` fails exactly when some role's logger fails, with the error of the first
   * such role; when none fails, it returns one set of the pprof server, the health set
   * and the primary server, in that order.
   */
  lemma AllFailsAtFirstFailure(b: WebPABuilder, k: Constants)
    ensures var answers, i := Answers(b, k), FirstFailedAnswer(Answers(b, k));
      var r := AllResult(b, k);
      (r.Failure? <==> i < 3) &&
      (i < 3 ==> r.error == answers[i].error) &&
      (i == 3 ==> r.value == Set([PprofServer(b, k, answers[0].value),
                                 Set(HealthMembers(b, k, answers[1].value)),
                                 PrimaryServer(b, k, answers[2].value)]))
  {
    var answers := Answers(b, k);
    var i := FirstFailedAnswer(answers);
    if answers[0].Failure? {
      assert i == 0;
    } else if answers[1].Failure? {
      assert i == 1;
    } else if answers[2].Failure? {
      assert i == 2;
    } else {
      assert i == 3;
    }
  }

  /**
   * Started, the health set starts the tracker first, and the server only if the
   * tracker started.
   */
  lemma HealthTrackerFirst(b: WebPABuilder, k: Constants, logger: Logger, world: World)
    ensures var members := HealthMembers(b, k, logger);
      StartAll(members, world).invoked ==
        if world(members[0]).err.Some? then [members[0]] else members
  {
    var members := HealthMembers(b, k, logger);
    assert |members| == 2 && IsLeaf(members[0]) && IsLeaf(members[1]);
    if world(members[0]).err.Some? {
      LeafSetStopsAt(members, 0, world);
    } else if world(members[1]).err.Some? {
      LeafSetStopsAt(members, 1, world);
    } else {
      LeafSetCompletes(members, world);
    }
  }

  /**
   * Starting what `BuildAll` assembles invokes, in this order, the pprof server, the
   * health tracker, the health server and the primary server, stopping after the first
   * that fails and returning its error.
   */
  lemma {:induction false} AllStartInOrder(pprof: Runnable, health: seq<Runnable>, primary: Runnable, world: World)
    requires IsLeaf(pprof) && IsLeaf(primary)
    requires |health| == 2 && IsLeaf(health[0]) && IsLeaf(health[1])
    ensures var leaves := [pprof, health[0], health[1], primary];
      var all := StartAll([pprof, Set(health), primary], world);
      var k := FirstFailure(leaves, world);
      all.invoked == (if k < 4 then leaves[..k + 1] else leaves) &&
      all.err == (if k < 4 then world(leaves[k]).err else None)
  {
    var leaves := [pprof, health[0], health[1], primary];
    StartAllSplice([pprof], health, [primary], world);
    assert [pprof] + [Set(health)] + [primary] == [pprof, Set(health), primary];
    assert [pprof] + health + [primary] == leaves;
    var k := FirstFailure(leaves, world);
    StartAllFirstFailure(leaves, world);
    if k < 4 {
      LeafSetStopsAt(leaves, k, world);
    } else {
      LeafSetCompletes(leaves, world);
    }
  }

  /**
   * Running what a successful `BuildAll` returns starts the pprof server, the health
   * tracker, the health server and the primary server, in this order, up to and
   * including the first that fails, whose error the run returns.
   */
  lemma BuiltRunsInOrder(b: WebPABuilder, k: Constants, world: World)
    requires AllResult(b, k).Success?
    ensures var answers := Answers(b, k);
      var health := HealthMembers(b, k, answers[1].value);
      var leaves := [PprofServer(b, k, answers[0].value), health[0], health[1],
                     PrimaryServer(b, k, answers[2].value)];
      var i := FirstFailure(leaves, world);
      var started := Start(AllResult(b, k).value, world);
      started.invoked == (if i < 4 then leaves[..i + 1] else leaves) &&
      started.err == (if i < 4 then world(leaves[i]).err else None)
  {
    var answers := Answers(b, k);
    AllFailsAtFirstFailure(b, k);
    var pprof, health, primary :=
      PprofServer(b, k, answers[0].value), HealthMembers(b, k, answers[1].value), PrimaryServer(b, k, answers[2].value);
    assert AllResult(b, k).value == Set([pprof, Set(health), primary]);
    AllStartInOrder(pprof, health, primary, world);
  }

  /** `BuildPrimary`: asks the factory for one logger, named `ServerName`. */
  method BuildPrimary(b: WebPABuilder, k: Constants) returns (r: Result<Runnable, Error>)
    modifies b.loggerFactory
    ensures b.loggerFactory.requested == old(b.loggerFactory.requested) + [b.configuration.serverName]
    ensures r == PrimaryResult(b, k)
  {
    var name := b.configuration.serverName;
    var address := PrimaryAddress(b, k);
    var logger := b.loggerFactory.NewLogger(name);
    if logger.Failure? {
      return Failure(logger.error);
    }
    r := Success(Server(name, address, logger.value,
                        b.configuration.certificateFile, b.configuration.keyFile, b.primaryHandler));
  }

  /** `BuildHealth`: asks the factory for one logger, named for the health role. */
  method BuildHealth(b: WebPABuilder, k: Constants) returns (r: Result<Runnable, Error>)
    modifies b.loggerFactory
    ensures b.loggerFactory.requested == old(b.loggerFactory.requested) + [HealthName(b, k)]
    ensures r == HealthResult(b, k)
  {
    var name := b.configuration.serverName + k.healthSuffix;
    var address := HealthAddress(b, k);
    var logger := b.loggerFactory.NewLogger(name);
    if logger.Failure? {
      return Failure(logger.error);
    }
    var runnables := new Runnable[2];
    var healthHandler := Tracker(HealthCheckInterval(b, k), logger.value, b.healthOptions);
    runnables[0] := Health(healthHandler);
    runnables[1] := Server(name, address, logger.value, "", "", Some(TrackerHandler(healthHandler)));
    r := Success(Set([runnables[0], runnables[1]]));
  }

  /** `BuildPprof`: asks the factory for one logger, named for the pprof role. */
  method BuildPprof(b: WebPABuilder, k: Constants) returns (r: Result<Runnable, Error>)
    modifies b.loggerFactory
    ensures b.loggerFactory.requested == old(b.loggerFactory.requested) + [PprofName(b, k)]
    ensures r == PprofResult(b, k)
  {
    var name := b.configuration.serverName + k.pprofSuffix;
    var address := PprofAddress(b, k);
    var logger := b.loggerFactory.NewLogger(name);
    if logger.Failure? {
      return Failure(logger.error);
    }
    var pprofHandler := b.pprofHandler;
    if pprofHandler.None? {
      pprofHandler := Some(DefaultServeMux);
    }
    assert pprofHandler.value == if b.pprofHandler.None? then DefaultServeMux else b.pprofHandler.value;
    r := Success(Server(name, address, logger.value, "", "", pprofHandler));
  }

  /** A log that had `asked` appended and then `name` has had `asked + [name]` appended. */
  lemma LogGrows(log: seq<string>, asked: seq<string>, name: string)
    ensures log + asked + [name] == log + (asked + [name])
  {
  }

  /**
   * `BuildAll`: builds pprof, then health, then primary, returning at the first error
   * with no runnable; otherwise the three as one set, in that order.
   */
  method BuildAll(b: WebPABuilder, k: Constants) returns (r: Result<Runnable, Error>)
    modifies b.loggerFactory
    ensures b.loggerFactory.requested == old(b.loggerFactory.requested) + AllRequests(b, k)
    ensures r == AllResult(b, k)
  {
    ghost var before := b.loggerFactory.requested;
    var pprof := BuildPprof(b, k);
    if pprof.Failure? {
      return Failure(pprof.error);
    }
    var health := BuildHealth(b, k);
    LogGrows(before, [PprofName(b, k)], HealthName(b, k));
    if health.Failure? {
      return Failure(health.error);
    }
    var primary := BuildPrimary(b, k);
    LogGrows(before, [PprofName(b, k)] + [HealthName(b, k)], b.configuration.serverName);
    if primary.Failure? {
      return Failure(primary.error);
    }
    r := Success(Set([pprof.value, health.value, primary.value]));
  }
}
