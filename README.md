# mod_report worker, modelled in Dafny

`mod_report` is the reporting worker of the AI VPN. It subscribes to a Redis
control channel and waits for commands. `report_status` is a liveness probe,
answered with `MOD_REPORT:online` on `services_status`. A payload containing
`report_profile` is a report request for a profile, such as
`report_profile:alice`.

For a report request, the worker changes into the profile's capture
directory. It takes the first `*.pcap` capture of at least 25 bytes, runs the
pcap summariser on it into `<profile>.md`, and renders that file with pandoc
into `<profile>.pdf`. It then announces the outcome on `mod_comm_send_check`
(`send_report_profile_email:<profile>` or `send_empty_capture_email:<profile>`).
Finally it removes the profile from the pending-report queue and stamps its
reported time.

When the stream of messages ends, the worker announces `MOD_REPORT:offline`,
closes both Redis handles and exits with 0. An exception in the loop closes
both handles and exits with -1. A fault while processing captures exits
with -1 at once.

The model turns every interaction with the world into a record in an effect
log (`Trace.Effect`):

- `ChangeDir`
- `Summarize`, `Render`
- `Publish`
- `DelFromQueue`, `UpdReported`
- `CloseSubscriber`, `CloseClient`
- `Exit`

The machine the worker runs on is a value, `Traffic.Host`. It holds:

- the storage root;
- the entries of each existing directory, in listing order;
- the paths at which a file cannot be created;
- whether each external tool can be launched. The received messages form a
sequence of `Dispatch.Received`.

Modules:

- `Text`: Python's `in`, `str.split` and `str.join`, proved against each other.
- `Trace`: the effect records.
- `Traffic`: the specification of `process_profile_traffic` (the glob, capture
  selection, and its effects), with its properties.
- `Dispatch`: the specification of the receive loop (classification, one
  step per item, whole traces), with its properties.
- `ModReport`: class `Worker`, whose effect log `trace` the methods append to.
  It holds the imperative code:
  - the capture loop, with its `VALID_CAPTURE` flag, `continue` and `break`;
  - the per-item branches;
  - the receive loop.

  Each method is proved to append exactly what the specification functions
  describe.
- `Scenarios`: concrete runs. They cover the 24/25-byte threshold, glob
  filtering, a profile with only an empty capture, and a profile with one
  large and one empty capture.

Behaviour of the code worth noting:

- The profile name is the second `:`-separated field (`split(':')[1]`), not
  everything after the first colon. So `report_profile:a:b` names `a`. A
  report payload with no colon makes the indexing raise, and the worker tears
  down with exit code -1.
- `MOD_REPORT:offline` is published only at the clean end of the stream. The
  exception handler closes the handles and exits with -1 without announcing
  offline.
- Nothing announces `MOD_REPORT:online` after subscribing. It is published
  only in answer to a `report_status` probe.
- The marker may appear anywhere in the payload. So `x report_profile:bob`
  names `bob`, and `bob:report_profile` names `report_profile`.
- `sys.exit` raises `SystemExit`, which `except Exception` does not catch.
  So `sys.exit(-1)` inside `process_profile_traffic` and `sys.exit(0)` at the
  end of the stream both end the process directly. Neither closes the handles
  through the outer handler.

## Model

| member | source | states |
|---|---|---|
| `Text.Contains` | mod_report/mod_report.py:95 | the substring test is true exactly when the pattern occurs at some index of the payload |
| `Text.Split` | mod_report/mod_report.py:96 | splitting yields at least one field, no field contains the separator, and there is a single field exactly when the separator is absent |
| `Text.JoinSplit` | mod_report/mod_report.py:96 | joining the fields of a split with the separator gives back the original payload |
| `Text.SplitJoin` | mod_report/mod_report.py:96 | splitting a join of separator-free fields gives back the fields |
| `Text.SplitAfterField` | mod_report/mod_report.py:96 | a separator-free head followed by the separator is exactly the first field, and the rest splits on its own |
| `Traffic.FirstListed` | mod_report/mod_report.py:35-42 | reference definition over the raw listing: the position of the first entry that is a `*.pcap` of at least 25 bytes, or none exactly when no entry qualifies |
| `Traffic.GlobKeepsListingOrder` | mod_report/mod_report.py:35-42 | the glob keeps the listing's order: its first valid capture exists exactly when the listing has a qualifying entry, and it is that first qualifying entry |
| `Traffic.Process` | mod_report/mod_report.py:27-56 | defines the effects and outcome of one call: missing directory, no qualifying capture, unwritable `<profile>.md`, a tool that cannot be launched, or a full report; its properties are the `Traffic` lemma rows below |
| `Traffic.Glob` | mod_report/mod_report.py:35 | the glob keeps exactly the entries named `*.pcap` without a leading dot, and never more entries than the directory has |
| `Traffic.FirstValid` | mod_report/mod_report.py:35-42 | the result is the index of a capture of at least 25 bytes with every earlier capture smaller, or none exists when no capture qualifies |
| `Traffic.ResultIffQualifyingCapture` | mod_report/mod_report.py:29-53 | a call that returns reports true exactly when the directory holds a pcap capture of at least 25 bytes (inclusive threshold) |
| `Traffic.AbortsOnlyOnFault` | mod_report/mod_report.py:30-56 | the call exits the process exactly when the directory is missing, or when a qualifying capture exists and either `<profile>.md` cannot be opened for writing or a tool cannot be launched |
| `Traffic.SummarizesFirstQualifyingOnly` | mod_report/mod_report.py:35-52 | at most one summariser run and at most one renderer run; the summarised capture is the first qualifying one in listing order, and the output is `<profile>.md` |
| `Traffic.SummarizesFirstListedCapture` | mod_report/mod_report.py:35-47 | stated over the raw directory listing: the summarised capture is the first listed `*.pcap` entry of at least 25 bytes |
| `Traffic.NoReportWithoutQualifyingCapture` | mod_report/mod_report.py:29-53 | with no qualifying capture neither tool runs, and the result is false (or the call exits on a missing directory) |
| `Traffic.RenderFollowsSummary` | mod_report/mod_report.py:33-49 | pandoc runs only directly after the summariser, on `<profile>.md`, writing `<profile>.pdf` |
| `Traffic.ExitOnlyOnAbort` | mod_report/mod_report.py:54-56 | an aborted call ends with `Exit(-1)` and exits nowhere else; a returning call never exits; neither publishes nor touches the registry |
| `Dispatch.ProfileName` | mod_report/mod_report.py:96 | the name is missing exactly when the payload has no `:` (the indexing raises), and a name never contains `:` |
| `Dispatch.ProfileNameIsSecondField` | mod_report/mod_report.py:96 | for `<head>:<name>` followed by nothing or by `:` and more, the extracted name is `<name>` |
| `Dispatch.NameStopsAtSecondColon` | mod_report/mod_report.py:96 | `report_profile:a:b` names the profile `a` |
| `Dispatch.Classify` | mod_report/mod_report.py:90-96 | decision table: a probe exactly for a `message` equal to `report_status`; a request exactly for a `message` containing `report_profile` and a colon, naming the second field; a bad request exactly when the colon is missing; ignored otherwise |
| `Dispatch.NotifyMessage` | mod_report/mod_report.py:102-109 | defines the outcome notice: `send_report_profile_email:<profile>` for a report, `send_empty_capture_email:<profile>` otherwise |
| `Dispatch.CloseOut` | mod_report/mod_report.py:100-115 | defines the close-out of a finished request: the notice on `mod_comm_send_check`, the queue removal, the stamp; `ReportRequestCycle` and `ServeCloseOutsPaired` carry its properties |
| `Dispatch.Handle` | mod_report/mod_report.py:89-125 | defines one iteration of the loop: its effects, and whether the loop goes on or the process has exited; `HandleExits`, `HandlePaired` and the item lemmas carry its properties |
| `Dispatch.ServeTrace` | mod_report/mod_report.py:89-125 | defines the trace of the loop over a stream and of what follows it; `ServeExitsOnce`, `ServeCloseOutsPaired` and `IgnoredItemsInvisible` carry its properties |
| `Dispatch.RunTrace` | mod_report/mod_report.py:64-125 | defines the trace of a whole run, a failed bootstrap being `[Exit(-1)]`; `RunExitsOnce` carries its properties |
| `Dispatch.ProbeAnnouncesOnline` | mod_report/mod_report.py:92-94 | a probe adds exactly one `MOD_REPORT:online` on `services_status` and nothing else, and the loop goes on |
| `Dispatch.RequestStep` | mod_report/mod_report.py:95-115 | a `message` carrying the marker and a colon makes one step: the processing effects, then the close-out unless processing exited |
| `Dispatch.PrefixedRequestNamesProfile` | mod_report/mod_report.py:95-96 | `report_profile:<name>`, optionally followed by `:` and more, is a report request for `<name>` |
| `Dispatch.ReportRequestCycle` | mod_report/mod_report.py:95-115 | any `message` carrying the marker anywhere and a colon processes the profile named by its second field, then publishes the outcome notice on `mod_comm_send_check`, removes the profile from the queue and stamps it, each once and in that order, whatever the outcome; if processing exits, nothing follows |
| `Dispatch.SingleRequestTrace` | mod_report/mod_report.py:95-120 | a stream of one well-formed request gives the processing effects, the close-out, then the clean shutdown |
| `Dispatch.BadRequestTearsDown` | mod_report/mod_report.py:95-125 | a report payload without `:` ends the run with the two closes and `Exit(-1)`, without announcing offline |
| `Dispatch.ListenFailureTearsDown` | mod_report/mod_report.py:121-125 | `listen()` raising ends the run with the two closes and `Exit(-1)`, without announcing offline |
| `Dispatch.UnrecognisedItemSkipped` | mod_report/mod_report.py:89-95 | a non-`message` item, or a message that is neither the probe nor a report request, adds no effect |
| `Dispatch.IgnoredItemsInvisible` | mod_report/mod_report.py:89-95 | dropping every ignorable item from any stream leaves the whole trace unchanged |
| `Dispatch.HandleExits` | mod_report/mod_report.py:89-125 | an item after which the loop goes on neither exits nor announces offline; an item that stops the loop exits exactly once, as its last effect |
| `Dispatch.ServeExitsOnce` | mod_report/mod_report.py:116-125 | every trace of the loop ends in exactly one exit, with code 0 or -1; offline is announced exactly when the code is 0, and then the trace ends with offline, both closes and the exit |
| `Dispatch.RunExitsOnce` | mod_report/mod_report.py:64-125 | the same holds for a whole run, including a failed connection or subscription, which exits with -1 |
| `Dispatch.ServeCloseOutsPaired` | mod_report/mod_report.py:100-115 | in every trace, each queue removal directly follows an outcome notice on `mod_comm_send_check` and is directly followed by stamping the same profile, and each stamp directly follows its removal |
| `ModReport.Worker.ProcessProfileTraffic` | mod_report/mod_report.py:27-56 | the loop with its flag, `continue` and `break` appends exactly the effects of `Traffic.Process` and returns its outcome |
| `ModReport.Worker.HandleItem` | mod_report/mod_report.py:89-115 | the Python branches for one item append exactly the effects of `Dispatch.Handle`, and report whether the process exited |
| `ModReport.Worker.Serve` | mod_report/mod_report.py:89-125 | the receive loop, with the shutdown and exception paths, appends exactly `Dispatch.ServeTrace` of the stream |
| `ModReport.Worker.Run` | mod_report/mod_report.py:64-125 | the bootstrap followed by the receive loop appends exactly `Dispatch.RunTrace` |
| `Scenarios.ThresholdIsInclusive` | mod_report/mod_report.py:39-49 | a 25-byte capture is summarised and rendered; a 24-byte one is skipped and the result is false |
| `Scenarios.OnlyVisiblePcapsAreCaptures` | mod_report/mod_report.py:35 | a `.txt` entry and a dot-file `.pcap` entry are not captures, however large |
| `Scenarios.AliceHasOnlyAnEmptyCapture` | mod_report/mod_report.py:95-120 | a profile with one 10-byte capture: no report, `send_empty_capture_email:alice`, removal, stamp, clean shutdown |
| `Scenarios.BobGetsOneReport` | mod_report/mod_report.py:35-120 | a 10,000-byte capture then a 5-byte one: one summary and one rendering of the first, `send_report_profile_email:bob`, removal, stamp, clean shutdown |

## Left out

- `read_configuration` and the config file: the storage root is a field of `Traffic.Host`. The channel name and log file play no part in the behaviour.
- Logging: every `logging` call is left out; none changes behaviour.
- Redis itself: connection, subscriber creation and subscription are one boolean (`transportReady`). Any failure there exits with -1 before any other effect. The stream that `listen()` yields is a given sequence, in which `ListenFailed` stands for `listen()` raising.
- `Dispatch.Received`: items keep only `type` and `data`. The `channel` field is only logged. Payloads are assumed to be decoded strings. With undecoded bytes, the `in` test would raise. The subscriber's configuration is in `common.database`, which is not part of this model.
- `common.database` helpers (`del_profile_to_report`, `upd_reported_time_to_expired_profile`): they are opaque effects. Their return values are only logged, so they are not modelled. They and `publish` are assumed not to raise.
- Failures of `close()` inside the exception handler are not modelled.
- File system and subprocess semantics: the directory listing is taken as given, in whatever order the file system yields it. `os.stat` is assumed to succeed on every listed entry. The content written by the summariser and pandoc is not modelled, and neither are the tools' exit codes, which the code never inspects.
- `Traffic.Process`: does not record that `open(report_source, "wb")` creates or truncates `<profile>.md` before a summariser launch that then fails. A failed `open` is modelled only through `Traffic.Host`'s set of unwritable paths.
- `Traffic.Host`: directories are keyed by the full path `<root>/<profile>`. Each lookup is independent of earlier `chdir` calls. That is right only when the configured root is absolute.
- Timeouts, retries and concurrency: the code has none.
