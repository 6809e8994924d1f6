# cluster leader check — a Dafny model

This project models the `cluster` health check of the DC/OS diagnostics CLI
(`cmd/cluster_leader_check.go`). A `ClusterLeaderCheck` has a name and a list
of requested sub-check names. `Run` fails at once on an empty list. Otherwise
it scans the list in order and runs the probe of the first name that is
`mesos-leader`, `marathon-leader` or `metronome-leader`. If no name matches,
it fails with "Option not supported". The probes are:

- `mesos-leader` resolves `leader.mesos`. It is OK only when the resolver
  returns at least one address.
- `marathon-leader` and `metronome-leader` send a GET to `leader.mesos`. The
  marathon probe targets the admin-router HTTPS port when TLS is forced. The
  result is OK on 200, a failure on 500 or on a transport error, and unknown
  on any other status code.

Everything is in module `Cmd` (`cluster_leader_check.dfy`). `Wrappers`
(`wrappers.dfy`) holds the `Option` type, which stands for Go's nil-able
`error`.

- The resolver and the HTTP facility are parameters of `Run`. The resolver is
  `lookup: string -> LookupResult` and the HTTP facility is
  `request: (CLIConfigFlags, URLFields) -> HttpResult`. So the model records
  which host or URL each probe asks for, and what it makes of the answer.
- `statusOK`, `statusFailure` and `statusUnknown` become the constructors of
  `CheckStatus`. `adminrouterMasterHTTPSPort` becomes a constructor of
  `Port`. These constants are defined outside this file, so the model only
  knows that they are distinct. `DefaultPort` is Go's zero value, 0.
- Errors are kept as the call that built them: `fmt.Errorf` with the
  valid-args list, `errors.New` with its text, or `errors.Wrapf` with its
  context and cause. Map iteration order in Go is unspecified, so the
  valid-args list is kept as a set.
- `Run` is a method with two loops. The first collects the keys of
  `validArgs` in any order. The second is the first-match scan. The method is
  proved equal to the specification function `RunOutcome`, which is built
  from `Decide` (`FirstRecognised` and `ProbeFor`) and `Execute`. The
  properties are lemmas about those functions. All of them are functions, so
  repeated runs on equal inputs give equal results.
- `MarathonLeader` and `MetronomeLeader` have identical bodies. They are one
  function, `HTTPLeader`. The probe kind decides only the URL passed to
  `request`.

## Model

| member | source | states |
|---|---|---|
| `Cmd.ClusterLeaderCheck.ID` | cmd/cluster_leader_check.go:66-68 | The identifier is the checker's `Name`, unchanged. |
| `Cmd.NewClusterLeaderCheck` | cmd/cluster_leader_check.go:33-38 | A new checker reports the given name as its ID and keeps the given arguments. |
| `Cmd.ClusterLeaderCheck.Run` | cmd/cluster_leader_check.go:71-99 | The returned (message, status, error) equals `RunOutcome`: the empty-list failure, the result of the probe for the first recognised argument, or the "Option not supported" failure. |
| `Cmd.CollectKeys` | cmd/cluster_leader_check.go:74-77 | The collected keys are exactly the names of `validArgs`, each once, in some order. |
| `Cmd.ParseArg` | cmd/cluster_leader_check.go:84-96 | The `switch` recognises a name exactly when it is a key of `validArgs`. |
| `Cmd.ParseArgName` | cmd/cluster_leader_check.go:84-96 | Each sub-check has exactly one name, and the switch maps that name back to it. |
| `Cmd.FirstRecognised` | cmd/cluster_leader_check.go:83-97 | Gives the index of the first recognised argument, with every earlier argument unrecognised. Gives none exactly when no argument is recognised. |
| `Cmd.Decide` | cmd/cluster_leader_check.go:79-98 | No probe is chosen exactly when the list is empty. The result is "not supported" exactly when the list is non-empty and has no valid name. |
| `Cmd.ProbeFor` | cmd/cluster_leader_check.go:85-94 | `mesos-leader` looks up `leader.mesos`. Both HTTP probes target host `leader.mesos`. Marathon uses path `/service/marathon/v2/leader`, with the HTTPS admin port exactly when TLS is forced. Metronome uses `/service/metronome/v1/jobs` with the default port. |
| `Cmd.EmptyArgsFail` | cmd/cluster_leader_check.go:79-81 | An empty list selects no probe and fails with the "No args provided" error listing the three valid names. |
| `Cmd.UnrecognisedArgsFail` | cmd/cluster_leader_check.go:83-98 | A non-empty list with no valid name gives the whole result (empty message, failure status, "Option not supported" error listing the valid names). That error appears exactly when none of its elements is a valid name. |
| `Cmd.FirstMatchWins` | cmd/cluster_leader_check.go:83-97 | Unrecognised names before the first recognised one are skipped, and the probe chosen is the one that name selects. |
| `Cmd.LaterArgsIgnored` | cmd/cluster_leader_check.go:83-97 | The elements after the first recognised name never change the decision. |
| `Cmd.OnlyMarathonHonoursForceTLS` | cmd/cluster_leader_check.go:87-94 | Only the marathon probe's target depends on the forced-TLS flag, and it differs exactly when the flag differs. |
| `Cmd.Wrapf` | cmd/cluster_leader_check.go:105-108 | Models `errors.Wrapf` of `github.com/pkg/errors`, used at lines 105, 108, 117 and 132: the result is nil exactly when the wrapped error is nil. |
| `Cmd.MesosLeaderAsWritten` | cmd/cluster_leader_check.go:102-111 | The DNS probe as written: OK exactly when the lookup gives no error and at least one address. |
| `Cmd.MesosLeaderAsWrittenLosesError` | cmd/cluster_leader_check.go:107-109 | As written, an answer with no addresses and no error fails with a nil error. |
| `Cmd.MesosLeader` | cmd/cluster_leader_check.go:102-111 | The DNS probe with the fix: OK exactly when there is no error and at least one address, never unknown, with an empty message. A lookup error is wrapped as "LookupHost failed", and every failure carries an error. |
| `Cmd.MesosLeaderCorrection` | cmd/cluster_leader_check.go:107-109 | The fix keeps every status and every message. It changes only the error of the no-address answer. |
| `Cmd.HTTPLeader` | cmd/cluster_leader_check.go:114-142 | Marathon/metronome classification: 200 is OK, 500 or a transport error is a failure, any other code is unknown. The message is empty. The error is nil only on OK: "status 500" on 500, a wrapped "HTTP request error" on a transport error, "Unable to run the check" when unknown. |
| `Cmd.RunMessageEmptyAndFailuresExplained` | cmd/cluster_leader_check.go:71-142 | Every return path gives an empty message. With the corrected DNS probe, the error is nil exactly when the status is OK. |

## Findings

| source | as written | input that shows it | evidently intended | confidence | as-written member | corrected member |
|---|---|---|---|---|---|---|
| cmd/cluster_leader_check.go:107-109 | `errors.Wrapf(err, ...)` wraps the lookup error, but that error is nil on this branch. `github.com/pkg/errors` returns nil for `Wrapf(nil, ...)`, so the check fails with no error. | `net.LookupHost` returns no addresses and a nil error (`Addrs([])`) | the failure carries a "LookupHost did not return any address" error | high; not executed | `Cmd.MesosLeaderAsWritten`, `Cmd.MesosLeaderAsWrittenLosesError` | `Cmd.MesosLeader`, `Cmd.MesosLeaderCorrection` |

`Run` and `RunOutcome` use the corrected `MesosLeader`.

## Left out

- `net.LookupHost` and `HTTPRequest`: real DNS and network I/O. `HTTPRequest` is not part of this model. Only their outcomes are modelled, as the `lookup` and `request` parameters. The response body is discarded by the source, so it is not modelled either.
- Cobra command registration, `init` and `RunCheck` with `context.TODO()` (lines 41-57): CLI plumbing and an external harness. `Run` ignores its `ctx` argument, so the model has no context.
- The text of the errors: `%v` formatting of the keys slice and the "cause: context" layout of `Wrapf`. Errors are modelled as the constructor call with its arguments.
- The order of the keys in the valid-args errors: Go's map order is unspecified. `CollectKeys` picks keys in any order, and the errors keep the names as a set.
- The numeric values of the status constants and of `adminrouterMasterHTTPSPort`: they are defined outside this file.
- `CLIConfigFlags` fields other than `ForceTLS`: only `ForceTLS` is read here.
- Cmd.ClusterLeaderCheck.Run: uses the corrected `MesosLeader`, so it differs from the source on one input: `mesos-leader` selected and the lookup returning no addresses and no error (`Addrs([])`). The source returns a failure with a nil error there; the model returns a failure with a "LookupHost did not return any address" error.
- Cmd.RunMessageEmptyAndFailuresExplained: its "error is nil exactly when the status is OK" holds for the corrected DNS probe only. The source breaks it on the same `Addrs([])` answer (line 108), as `MesosLeaderAsWrittenLosesError` shows.
