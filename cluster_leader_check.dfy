/**
 * The `cluster` health check of the DC/OS diagnostics tool: a dispatcher from
 * the first recognised sub-check name to one of three leader probes, and the
 * classification of each probe's DNS or HTTP outcome into a tri-state status.
 *
 * Name resolution and the HTTP facility are not modelled; their outcomes are
 * given to the check as functions (`lookup`, `request`).
 */
module Cmd {
  import opened Wrappers

  // ---------------------------------------------------------------------------
  // Data model
  // ---------------------------------------------------------------------------

  /** The tri-state result of a check: statusOK, statusFailure, statusUnknown. */
  datatype CheckStatus = StatusOK | StatusFailure | StatusUnknown

  /**
   * The port field of a request target. Go's zero value (0) lets the HTTP
   * facility choose the port; the alternative is adminrouterMasterHTTPSPort,
   * a constant whose value lies outside this model.
   */
  datatype Port = DefaultPort | AdminrouterMasterHTTPSPort

  /** URLFields: the host, path and port of an outbound HTTP request. */
  datatype URLFields = URLFields(host: string, path: string, port: Port)

  /** The part of the CLI configuration this check reads. */
  datatype CLIConfigFlags = CLIConfigFlags(forceTLS: bool)

  /** Underlying errors produced by the collaborators. */
  datatype Cause = ResolverFailure | TransportFailure

  /** What `net.LookupHost` returned: an error, or a list of addresses. */
  datatype LookupResult = LookupErr | Addrs(addrs: seq<string>)

  /** What `HTTPRequest` returned: a transport error, or a status code. */
  datatype HttpResult = TransportErr | StatusCode(code: int)

  /**
   * The errors the check builds. The valid-args errors list the recognised
   * names; their order follows Go's map iteration and is not significant,
   * so the model keeps them as a set.
   */
  datatype Error =
    | NoArgsProvided(validArgs: set<string>)       // fmt.Errorf("No args provided, ...")
    | OptionNotSupported(validArgs: set<string>)   // fmt.Errorf("Option not supported, ...")
    | Wrapped(context: string, cause: Cause)       // errors.Wrapf on a non-nil error
    | New(text: string)                            // errors.New

  /** The (message, status, error) triple every check returns. */
  datatype CheckResult = CheckResult(message: string, status: CheckStatus, err: Option<Error>)

  /** The three probes the dispatcher can select. */
  datatype SubCheck = MesosLeaderCheck | MarathonLeaderCheck | MetronomeLeaderCheck

  /** The probe chosen by the dispatcher, with the target it is aimed at. */
  datatype Probe =
    | LookupProbe(hostname: string)
    | MarathonProbe(url: URLFields)
    | MetronomeProbe(url: URLFields)

  /** The dispatcher's decision before any probe runs. */
  datatype Dispatch = NoArgs | NotSupported | Selected(probe: Probe)

  const LeaderHost: string := "leader.mesos"
  const MarathonPath: string := "/service/marathon/v2/leader"
  const MetronomePath: string := "/service/metronome/v1/jobs"

  /** The keys of `validArgs`. */
  const ValidArgs: set<string> := {"mesos-leader", "marathon-leader", "metronome-leader"}

  // ---------------------------------------------------------------------------
  // The checker
  // ---------------------------------------------------------------------------

  /** A named checker with its requested sub-check names; never changed after construction. */
  datatype ClusterLeaderCheck = ClusterLeaderCheck(name: string, args: seq<string>)
  {
    /** The identifier the harness reports the check under. */
    function ID(): (id: string)
      ensures id == name
    {
      name
    }

    /**
     * Runs the check: collects the valid names (in map order), rejects an
     * empty argument list, then scans the arguments and runs the probe of the
     * first recognised one.
     */
    method Run(cfg: CLIConfigFlags, lookup: string -> LookupResult,
               request: (CLIConfigFlags, URLFields) -> HttpResult)
      returns (message: string, status: CheckStatus, err: Option<Error>)
      ensures CheckResult(message, status, err) == RunOutcome(args, cfg, lookup, request)
    {
      var keys := CollectKeys();

      if |args| == 0 {
        return "", StatusFailure, Some(NoArgsProvided(Listed(keys)));
      }

      var i := 0;
      while i < |args|
        invariant 0 <= i <= |args|
        invariant forall j :: 0 <= j < i ==> ParseArg(args[j]).None?
      {
        var arg := args[i];
        if arg == "mesos-leader" {
          var r := MesosLeader(lookup(LeaderHost));
          return r.message, r.status, r.err;
        } else if arg == "marathon-leader" {
          var portM := DefaultPort;
          if cfg.forceTLS {
            portM := AdminrouterMasterHTTPSPort;
          }
          var r := HTTPLeader(request(cfg, URLFields(LeaderHost, MarathonPath, portM)));
          return r.message, r.status, r.err;
        } else if arg == "metronome-leader" {
          var r := HTTPLeader(request(cfg, URLFields(LeaderHost, MetronomePath, DefaultPort)));
          return r.message, r.status, r.err;
        }
        i := i + 1;
      }
      return "", StatusFailure, Some(OptionNotSupported(Listed(keys)));
    }
  }

  /** NewClusterLeaderCheck: a checker with the given name and arguments. */
  function NewClusterLeaderCheck(name: string, args: seq<string>): (c: ClusterLeaderCheck)
    ensures c.ID() == name && c.args == args
  {
    ClusterLeaderCheck(name, args)
  }

  /** The set of names a list holds. */
  function Listed(keys: seq<string>): set<string>
  {
    set k | k in keys
  }

  /**
   * Builds the list of valid names by walking the `validArgs` map. Go visits
   * a map in an unspecified order; the model picks any remaining key.
   */
  method CollectKeys() returns (keys: seq<string>)
    ensures Listed(keys) == ValidArgs
    ensures |keys| == |ValidArgs|
    ensures forall i, j :: 0 <= i < j < |keys| ==> keys[i] != keys[j]
  {
    keys := [];
    var remaining := ValidArgs;
    while remaining != {}
      invariant remaining <= ValidArgs
      invariant Listed(keys) == ValidArgs - remaining
      invariant |keys| + |remaining| == |ValidArgs|
      invariant forall i, j :: 0 <= i < j < |keys| ==> keys[i] != keys[j]
      decreases remaining
    {
      var key :| key in remaining;
      assert key !in Listed(keys);
      assert forall i :: 0 <= i < |keys| ==> keys[i] in Listed(keys);
      assert Listed(keys + [key]) == Listed(keys) + {key};
      assert |remaining - {key}| == |remaining| - 1;
      keys := keys + [key];
      remaining := remaining - {key};
    }
  }

  // ---------------------------------------------------------------------------
  // Dispatch specification
  // ---------------------------------------------------------------------------

  /** The `switch arg` of Run: which probe a name selects, if any. */
  function ParseArg(arg: string): (r: Option<SubCheck>)
    ensures r.Some? <==> arg in ValidArgs
  {
    if arg == "mesos-leader" then Some(MesosLeaderCheck)
    else if arg == "marathon-leader" then Some(MarathonLeaderCheck)
    else if arg == "metronome-leader" then Some(MetronomeLeaderCheck)
    else None
  }

  /** The command-line name of each probe. */
  function ArgName(sc: SubCheck): string
  {
    match sc
    case MesosLeaderCheck => "mesos-leader"
    case MarathonLeaderCheck => "marathon-leader"
    case MetronomeLeaderCheck => "metronome-leader"
  }

  /** Names and probes correspond one to one. */
  lemma ParseArgName(sc: SubCheck, arg: string)
    ensures ParseArg(ArgName(sc)) == Some(sc)
    ensures ParseArg(arg) == Some(sc) ==> arg == ArgName(sc)
  {
  }

  /** The index of the first recognised argument, if there is one. */
  function FirstRecognised(args: seq<string>): (r: Option<nat>)
    ensures r.None? <==> forall j :: 0 <= j < |args| ==> ParseArg(args[j]).None?
    ensures r.Some? ==> r.value < |args| && ParseArg(args[r.value]).Some?
    ensures r.Some? ==> forall j :: 0 <= j < r.value ==> ParseArg(args[j]).None?
  {
    if args == [] then None
    else if ParseArg(args[0]).Some? then Some(0)
    else match FirstRecognised(args[1..])
      case None => None
      case Some(k) => Some(k + 1)
  }

  /** The request target of each probe under a configuration. */
  function ProbeFor(sc: SubCheck, cfg: CLIConfigFlags): (p: Probe)
    ensures p.LookupProbe? <==> sc == MesosLeaderCheck
    ensures p.MarathonProbe? <==> sc == MarathonLeaderCheck
    ensures p.MetronomeProbe? <==> sc == MetronomeLeaderCheck
    ensures p.LookupProbe? ==> p.hostname == LeaderHost
    ensures !p.LookupProbe? ==> p.url.host == LeaderHost
    ensures p.MarathonProbe? ==> p.url.path == MarathonPath
    ensures p.MarathonProbe? ==> (p.url.port == AdminrouterMasterHTTPSPort <==> cfg.forceTLS)
    ensures p.MetronomeProbe? ==> p.url.path == MetronomePath && p.url.port == DefaultPort
  {
    match sc
    case MesosLeaderCheck => LookupProbe(LeaderHost)
    case MarathonLeaderCheck =>
      MarathonProbe(URLFields(LeaderHost, MarathonPath,
                              if cfg.forceTLS then AdminrouterMasterHTTPSPort else DefaultPort))
    case MetronomeLeaderCheck => MetronomeProbe(URLFields(LeaderHost, MetronomePath, DefaultPort))
  }

  /** Which probe, if any, Run selects for an argument list. */
  function Decide(args: seq<string>, cfg: CLIConfigFlags): (d: Dispatch)
    ensures d.NoArgs? <==> |args| == 0
    ensures d.NotSupported? <==> |args| > 0 && forall j :: 0 <= j < |args| ==> args[j] !in ValidArgs
  {
    if |args| == 0 then NoArgs
    else match FirstRecognised(args)
      case None => NotSupported
      case Some(i) => Selected(ProbeFor(ParseArg(args[i]).value, cfg))
  }

  /** Runs the selected probe against the collaborators' outcomes. */
  function Execute(p: Probe, cfg: CLIConfigFlags, lookup: string -> LookupResult,
                   request: (CLIConfigFlags, URLFields) -> HttpResult): CheckResult
  {
    match p
    case LookupProbe(h) => MesosLeader(lookup(h))
    case MarathonProbe(u) => HTTPLeader(request(cfg, u))
    case MetronomeProbe(u) => HTTPLeader(request(cfg, u))
  }

  /** The result Run returns. */
  function RunOutcome(args: seq<string>, cfg: CLIConfigFlags, lookup: string -> LookupResult,
                      request: (CLIConfigFlags, URLFields) -> HttpResult): CheckResult
  {
    match Decide(args, cfg)
    case NoArgs => CheckResult("", StatusFailure, Some(NoArgsProvided(ValidArgs)))
    case NotSupported => CheckResult("", StatusFailure, Some(OptionNotSupported(ValidArgs)))
    case Selected(p) => Execute(p, cfg, lookup, request)
  }

  // ---------------------------------------------------------------------------
  // Result classification
  // ---------------------------------------------------------------------------

  /** github.com/pkg/errors Wrapf: a nil error stays nil, any other is annotated. */
  function Wrapf(err: Option<Cause>, context: string): (r: Option<Error>)
    ensures r.None? <==> err.None?
  {
    match err
    case None => None
    case Some(c) => Some(Wrapped(context, c))
  }

  /**
   * MesosLeader as written: in the empty-address branch the wrapped error is
   * the lookup's own error, which is nil there, so the failure carries no error.
   */
  function MesosLeaderAsWritten(lookup: LookupResult): (r: CheckResult)
    ensures r.status == StatusOK <==> lookup.Addrs? && |lookup.addrs| > 0
  {
    var err := if lookup.LookupErr? then Some(ResolverFailure) else None;
    if err.Some? then CheckResult("", StatusFailure, Wrapf(err, "LookupHost failed"))
    else if |lookup.addrs| == 0 then
      CheckResult("", StatusFailure, Wrapf(err, "LookupHost did not return any address"))
    else CheckResult("", StatusOK, None)
  }

  /** A resolver answer with no addresses and no error yields a failure without an error. */
  lemma MesosLeaderAsWrittenLosesError()
    ensures MesosLeaderAsWritten(Addrs([])).status == StatusFailure
    ensures MesosLeaderAsWritten(Addrs([])).err == None
  {
  }

  /**
   * MesosLeader: OK exactly when the lookup succeeded with at least one
   * address; every failure carries an error.
   */
  function MesosLeader(lookup: LookupResult): (r: CheckResult)
    ensures r.message == ""
    ensures r.status != StatusUnknown
    ensures r.status == StatusOK <==> lookup.Addrs? && |lookup.addrs| > 0
    ensures r.err.None? <==> r.status == StatusOK
    ensures lookup.LookupErr? ==> r.err == Some(Wrapped("LookupHost failed", ResolverFailure))
  {
    match lookup
    case LookupErr => CheckResult("", StatusFailure, Wrapf(Some(ResolverFailure), "LookupHost failed"))
    case Addrs(addrs) =>
      if |addrs| == 0 then CheckResult("", StatusFailure, Some(New("LookupHost did not return any address")))
      else CheckResult("", StatusOK, None)
  }

  /** The correction changes only the error of the empty-address case. */
  lemma MesosLeaderCorrection(lookup: LookupResult)
    ensures MesosLeader(lookup).status == MesosLeaderAsWritten(lookup).status
    ensures MesosLeader(lookup).message == MesosLeaderAsWritten(lookup).message
    ensures lookup != Addrs([]) ==> MesosLeader(lookup) == MesosLeaderAsWritten(lookup)
  {
  }

  /**
   * MarathonLeader and MetronomeLeader (identical bodies): a transport error
   * or 500 is a failure, 200 is OK, any other code is unknown.
   */
  function HTTPLeader(res: HttpResult): (r: CheckResult)
    ensures r.message == ""
    ensures r.status == StatusOK <==> res == StatusCode(200)
    ensures r.status == StatusFailure <==> res.TransportErr? || res == StatusCode(500)
    ensures r.status == StatusUnknown <==> res.StatusCode? && res.code != 200 && res.code != 500
    ensures r.err.None? <==> r.status == StatusOK
    ensures res == StatusCode(500) ==> r.err == Some(New("status 500"))
    ensures r.status == StatusUnknown ==> r.err == Some(New("Unable to run the check"))
    ensures res.TransportErr? ==> r.err == Some(Wrapped("HTTP request error", TransportFailure))
  {
    match res
    case TransportErr => CheckResult("", StatusFailure, Wrapf(Some(TransportFailure), "HTTP request error"))
    case StatusCode(code) =>
      if code == 200 then CheckResult("", StatusOK, None)
      else if code == 500 then CheckResult("", StatusFailure, Some(New("status 500")))
      else CheckResult("", StatusUnknown, Some(New("Unable to run the check")))
  }

  // ---------------------------------------------------------------------------
  // Properties of Run
  // ---------------------------------------------------------------------------

  /** An empty argument list fails with the valid names and selects no probe. */
  lemma EmptyArgsFail(cfg: CLIConfigFlags, lookup: string -> LookupResult,
                      request: (CLIConfigFlags, URLFields) -> HttpResult)
    ensures Decide([], cfg) == NoArgs
    ensures RunOutcome([], cfg, lookup, request) == CheckResult("", StatusFailure, Some(NoArgsProvided(ValidArgs)))
  {
  }

  /** A non-empty list fails with "Option not supported" exactly when no element is recognised. */
  lemma UnrecognisedArgsFail(args: seq<string>, cfg: CLIConfigFlags, lookup: string -> LookupResult,
                             request: (CLIConfigFlags, URLFields) -> HttpResult)
    requires |args| > 0
    ensures (forall j :: 0 <= j < |args| ==> args[j] !in ValidArgs) ==>
      RunOutcome(args, cfg, lookup, request) == CheckResult("", StatusFailure, Some(OptionNotSupported(ValidArgs)))
    ensures RunOutcome(args, cfg, lookup, request).err == Some(OptionNotSupported(ValidArgs))
        <==> forall j :: 0 <= j < |args| ==> args[j] !in ValidArgs
  {
  }

  /**
   * First match wins: unrecognised names before the first recognised one are
   * skipped, and whatever follows it is never examined.
   */
  lemma {:induction false} FirstMatchWins(prefix: seq<string>, arg: string, suffix: seq<string>,
                                          cfg: CLIConfigFlags)
    requires forall j :: 0 <= j < |prefix| ==> prefix[j] !in ValidArgs
    requires arg in ValidArgs
    ensures Decide(prefix + [arg] + suffix, cfg) == Selected(ProbeFor(ParseArg(arg).value, cfg))
  {
    var s := prefix + [arg] + suffix;
    assert s[|prefix|] == arg;
    assert forall j :: 0 <= j < |prefix| ==> s[j] == prefix[j];
    var r := FirstRecognised(s);
    assert r.Some?;
    assert r.value == |prefix|;
  }

  /** The probe Run selects never depends on the arguments after the first recognised one. */
  lemma LaterArgsIgnored(prefix: seq<string>, arg: string, suffix1: seq<string>, suffix2: seq<string>,
                         cfg: CLIConfigFlags)
    requires forall j :: 0 <= j < |prefix| ==> prefix[j] !in ValidArgs
    requires arg in ValidArgs
    ensures Decide(prefix + [arg] + suffix1, cfg) == Decide(prefix + [arg] + suffix2, cfg)
  {
    FirstMatchWins(prefix, arg, suffix1, cfg);
    FirstMatchWins(prefix, arg, suffix2, cfg);
  }

  /** Only the marathon-leader probe's target depends on the forced-TLS flag. */
  lemma OnlyMarathonHonoursForceTLS(sc: SubCheck, cfg1: CLIConfigFlags, cfg2: CLIConfigFlags)
    ensures sc != MarathonLeaderCheck ==> ProbeFor(sc, cfg1) == ProbeFor(sc, cfg2)
    ensures sc == MarathonLeaderCheck ==> (ProbeFor(sc, cfg1) == ProbeFor(sc, cfg2) <==> cfg1.forceTLS == cfg2.forceTLS)
  {
  }

  /** Every return path of Run yields an empty message, and a status other than OK always comes with an error. */
  lemma RunMessageEmptyAndFailuresExplained(args: seq<string>, cfg: CLIConfigFlags,
                                            lookup: string -> LookupResult,
                                            request: (CLIConfigFlags, URLFields) -> HttpResult)
    ensures RunOutcome(args, cfg, lookup, request).message == ""
    ensures RunOutcome(args, cfg, lookup, request).err.None? <==> RunOutcome(args, cfg, lookup, request).status == StatusOK
  {
  }
}
