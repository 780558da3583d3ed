# DetectPods in Dafny

DetectPods is a command-line auditor for Kubernetes pods. It lists the pods of a cluster and drops those in excluded namespaces. It then runs the fourteen Pod Security Standard rules in turn (host namespaces, host ports and paths, HostProcess, privileged, privilege escalation, capabilities, seccomp, AppArmor, procmount, sysctls) and prints a report after each. A report has one line for each finding whose check key the report's switch recognises; the two exceptions, procmount findings and unterminated sysctl lines, are under "## Findings". Its `aiAnalysis` command sends each pod to a chat-completion model and interprets the reply. It counts the results per security level, saves a report and prints statistics. The YAML configuration holds the model's API key, base URL and model name.

This project models that logic once the cluster, the model API, the clock and the file system are cut away. It has one module per source file, plus three helper modules:

- `wrappers.dfy` (`Wrappers`): `Option` and `Result`.
- `sequences.dfy` (`Sequences`): `FlatMap` (the left-recursive concatenation every rule is specified by) and subsequences.
- `strings.dfy` (`Strings`): the parts of Go's `strings` package the source uses, and decimal printing.
- `pss.dfy` (`Pss`): the rule engine of `pkg/pss.go`. Imperative methods are proved equal to spec functions, with an if-and-only-if membership lemma per rule.
- `connection.dfy` (`Connection`): the exclude filter of `pkg/connection.go`.
- `reporting.dfy` (`Reporting`): `ReportPSS`, returning the sequence of writes.
- `config.dfy` (`Configuration`): `LoadConfig`, `GetDefaultConfig`, `SaveExampleConfig`. The file system and the YAML codec are function parameters.
- `ai_analyzer.dfy` (`AiAnalyzer`): client construction, reply cleaning, `AnalyzePod` and the `AnalyzePods` loop. The chat call and the JSON decoder are parameters.
- `ai_analysis.dfy` (`AiAnalysis`): from `cmd/aiAnalysis.go`, the per-level tally, the saved report, the printed statistics and the default output file name.

Two behaviours of the code are easy to miss:

- Reply cleaning is not idempotent: three fences clean to one fence, and one fence cleans to the empty string (`AiAnalyzer.CleanNotIdempotent`). Re-cleaning is a no-op only when the first result carries no fence (`AiAnalyzer.CleanIdempotentOnPlainResult`).
- "No findings!" is printed only for a nil slice: a non-nil empty slice prints just the header and the blank line (`Reporting.EmptySliceReport`). Every rule starts from a nil slice and only appends, so a rule's own result prints "No findings!" exactly when the rule found nothing (`Reporting.RuleReportNoFindings`).

`Reporting.ReportPSS` follows the report's switch exactly as written, with the two defects listed under "## Findings". `Reporting.IntendedReport` is the same report with both defects corrected, and its properties are proved separately.

## Model

| member | source | states |
|---|---|---|
| Pss.ScanPodFlag | pkg/pss.go:21-57 | the shared pod loop of the three host-namespace rules returns exactly the spec sequence: one finding per flagged pod, in pod order |
| Pss.Hostpid | pkg/pss.go:21-32 | the result is the host-PID rule's findings over the given pods |
| Pss.Hostnet | pkg/pss.go:34-45 | the result is the host-network rule's findings over the given pods |
| Pss.Hostipc | pkg/pss.go:47-57 | the result is the host-IPC rule's findings over the given pods |
| Pss.PodFlagMember | pkg/pss.go:24-30 | a finding is emitted if and only if it is the pod-scoped finding (empty container) of a listed pod whose flag is true |
| Pss.PodFlagCount | pkg/pss.go:24-30 | the number of findings equals the number of pods whose flag is set: exactly one per flagged pod |
| Pss.ScanPorts | pkg/pss.go:67-73 | the loop over a container's ports appends exactly that container's non-zero host-port findings, in declaration order |
| Pss.ScanPortGroup | pkg/pss.go:63-75 | the loop over one container group appends that group's host-port findings, container by container |
| Pss.ScanPodPorts | pkg/pss.go:63-97 | a pod's host-port findings are those of the primary, then init, then ephemeral containers |
| Pss.HostPorts | pkg/pss.go:59-100 | the rule's result equals the ordered host-port spec over all pods |
| Pss.HostPortsMember | pkg/pss.go:62-97 | a finding is emitted if and only if some container of some pod declares a port with non-zero host port, carrying that port value and that container's name |
| Pss.HostPortsNoneWithoutHostPorts | pkg/pss.go:65-73 | pods whose ports all have host port 0, or which declare no ports, yield no finding |
| Pss.HostPath | pkg/pss.go:102-117 | the rule's result equals the per-volume spec over all pods, in pod and volume order |
| Pss.HostPathMember | pkg/pss.go:105-114 | a finding is emitted if and only if a pod volume has a host path, carrying the volume name and the path |
| Pss.CopyNames | pkg/pss.go:219-222 | the capability copy loop yields the listed names unchanged and in order |
| Pss.ScanGroup | pkg/pss.go:128-148 | the loop over one container group appends exactly the group's firing containers' findings |
| Pss.ScanPodGroups | pkg/pss.go:157-177 | the three groups are scanned in the order primary, init, ephemeral |
| Pss.ScanPod | pkg/pss.go:122-148 | one pod yields its pod-level HostProcess finding first, then, unless seccomp gating skips them, its container findings |
| Pss.ScanContainers | pkg/pss.go:156-178 | the pod loop of the per-container rules returns that rule's spec sequence |
| Pss.HostProcess | pkg/pss.go:119-151 | the rule's result equals the HostProcess spec sequence, for pods whose unguarded pointers are set |
| Pss.HostProcessMember | pkg/pss.go:123-147 | a finding exists if and only if the pod's own HostProcess flag is true (pod-scoped finding), or some container's HostProcess flag is true (finding at that container) |
| Pss.Privileged | pkg/pss.go:153-180 | the rule's result equals the privileged spec sequence |
| Pss.PrivilegedMember | pkg/pss.go:158-176 | a finding exists if and only if a container has a security context whose privileged flag is present and true |
| Pss.AllowPrivEsc | pkg/pss.go:182-210 | the rule's result equals the privilege-escalation spec sequence |
| Pss.AllowPrivEscMember | pkg/pss.go:188-206 | a finding exists if and only if a container has no security context, or its escalation flag is unset |
| Pss.AllowPrivEscExplicitFlagSilent | pkg/pss.go:188-202 | when every container sets the escalation flag explicitly, true or false, nothing is reported |
| Pss.AddedCapabilities | pkg/pss.go:212-253 | the rule's result equals the added-capabilities spec sequence |
| Pss.AddedCapabilitiesMember | pkg/pss.go:217-249 | a finding exists if and only if a context, its capabilities and its add list are all present; the finding copies the add list in order |
| Pss.DroppedCapabilities | pkg/pss.go:255-296 | the rule's result equals the dropped-capabilities spec sequence |
| Pss.DroppedCapabilitiesMember | pkg/pss.go:260-292 | a finding exists if and only if a context, its capabilities and its drop list are all present; the finding copies the drop list in order |
| Pss.Seccomp | pkg/pss.go:298-331 | the rule's result equals the seccomp spec sequence, containers being scanned only in unconfined pods |
| Pss.SeccompMember | pkg/pss.go:304-327 | a finding exists if and only if the pod's profile is absent or "Unconfined" and the container's context or profile is absent or "Unconfined" |
| Pss.SeccompGated | pkg/pss.go:304-305 | pods whose pod-level profile is set to a type other than "Unconfined" yield no seccomp finding for any container |
| Pss.Apparmor | pkg/pss.go:333-348 | the rule's result equals the per-annotation spec sequence |
| Pss.AppArmorKeyPrefixHasNoSlash | pkg/pss.go:340 | the AppArmor annotation prefix contains no "/" |
| Pss.AppArmorKeyIff | pkg/pss.go:340 | the part of a key before the first "/" equals the AppArmor prefix if and only if the key is the prefix or starts with prefix + "/" |
| Pss.ApparmorMember | pkg/pss.go:338-345 | a finding exists if and only if an annotation has value "unconfined" and an AppArmor key; the finding names no container |
| Pss.Procmount | pkg/pss.go:350-377 | the rule's result equals the procmount spec sequence |
| Pss.ProcmountMember | pkg/pss.go:355-373 | a finding, keyed "Unmasked procmount", exists if and only if a container's context sets ProcMount to "Unmasked" |
| Pss.IsSafeSysctl | pkg/pss.go:386-392 | the flag loop sets `safe` if and only if the name is one of the five allowed sysctls |
| Pss.ScanSysctls | pkg/pss.go:383-397 | a pod's sysctl findings are its unsafe sysctls in order, and a pod without a security context yields none |
| Pss.Sysctl | pkg/pss.go:379-401 | the rule's result equals the unsafe-sysctl spec sequence |
| Pss.SysctlMember | pkg/pss.go:383-396 | a finding exists if and only if a pod with a security context lists a sysctl outside the allow list; it carries the namespace and the sysctl name and an empty pod name |
| Connection.ExcludeList | pkg/connection.go:48-51 | the option is empty if and only if the list is empty; otherwise the comma-free entries joined with "," give the option back |
| Connection.IsExcluded | pkg/connection.go:59-65 | the flag loop with `break` reports true if and only if some entry occurs in the namespace as a substring |
| Connection.FilterPods | pkg/connection.go:46-72 | the loop returns exactly the pods kept by the exclude list, in order |
| Connection.KeptMember | pkg/connection.go:57-71 | a pod is kept if and only if it was listed and no entry occurs in its namespace |
| Connection.KeptSubsequence | pkg/connection.go:57-71 | the kept pods are an order-preserving subsequence of the listed pods |
| Connection.EmptyExcludeKeepsAll | pkg/connection.go:48-51 | an empty exclude option leaves the pod list unchanged |
| Connection.EmptyEntryExcludesAll | pkg/connection.go:50-61 | an empty entry, as from "a,,b" or a trailing comma, excludes every pod |
| Connection.DoubledCommaExcludesAll | pkg/connection.go:50-61 | the option "a,,b" yields an empty entry, and with it no pod is kept |
| Connection.KubeExcludesKubeSystem | pkg/connection.go:61 | the option "kube" excludes namespace "kube-system": entries match as substrings |
| Reporting.AsSlice | pkg/pss.go:22-31 | a rule's result is a nil slice exactly when it found nothing |
| Reporting.ReportPSS | pkg/reporting.go:9-39 | the writes are the header, then for a non-nil slice one line per finding the switch as written matches, in order, or "No findings!" for a nil slice, then the blank line |
| Reporting.ReportFrame | pkg/reporting.go:12-38 | every report starts with "Findings for the <check> check" and ends with the empty line |
| Reporting.LocationLine | pkg/reporting.go:16-21 | for the location keys of the switch as written, the container segment is printed if and only if the container name is non-empty |
| Reporting.CapabilityLineNames | pkg/reporting.go:22-25 | a capability line contains the capability names joined with "," |
| Reporting.PortLineHasPort | pkg/reporting.go:26-27 | a host-port line contains the port in decimal |
| Reporting.PathLineHasFields | pkg/reporting.go:28-29 | a host-path line contains the volume name and the path |
| Reporting.FindingLineRecognised | pkg/reporting.go:15-33 | as written, a finding gets a line if and only if its key is one the rules emit other than "Unmasked procmount", or the key "Unmasked Procmount" that no rule emits |
| Reporting.FindingLineShape | pkg/reporting.go:16-31 | every line starts with "namespace <ns> : pod <pod>"; every line except the sysctl line ends with a newline, and the sysctl line ends with the sysctl name |
| Reporting.FindingLineDistinct | pkg/reporting.go:12-38 | a finding line is never the header, "No findings!" or the blank line |
| Reporting.ReportLineMember | pkg/reporting.go:14-34 | a line is written if and only if it is the as-written line of some finding of the list |
| Reporting.ReportLength | pkg/reporting.go:14-34 | for findings from the rules, the report has one line per finding except the procmount findings, plus the header and the blank line |
| Reporting.ProcmountReportAsWritten | pkg/reporting.go:13-38 | as written, the report of a procmount rule that found something is only the header and the blank line |
| Reporting.NoFindingsIff | pkg/reporting.go:13-36 | "No findings!" is written if and only if the slice is nil |
| Reporting.RuleReportNoFindings | pkg/reporting.go:13-36 | for a rule's result, "No findings!" is written if and only if the rule found nothing |
| Reporting.EmptySliceReport | pkg/reporting.go:13-38 | a non-nil empty slice writes only the header and the blank line |
| Reporting.ProcmountKeyUnmatchedAsWritten | pkg/reporting.go:16 | as written, the switch prints nothing for the key "Unmasked procmount" |
| Reporting.ProcmountUnreportedAsWritten | pkg/reporting.go:16 | as written, no finding of the procmount rule is ever printed |
| Reporting.ProcmountReported | pkg/reporting.go:16-21 | with the intended key, every procmount finding is printed as a location line |
| Reporting.IntendedLineRecognised | pkg/reporting.go:15-33 | with the intended switch, a finding gets a line if and only if its key is one the rules emit |
| Reporting.IntendedLineShape | pkg/reporting.go:16-31 | with the intended switch, every line starts with the namespace and pod and ends with a newline |
| Reporting.IntendedReportLength | pkg/reporting.go:14-34 | with the intended switch, findings from the rules get exactly one line each, plus the header and the blank line |
| Reporting.SysctlLineUnterminatedAsWritten | pkg/reporting.go:30-31 | as written, the sysctl line ends with the sysctl name and no newline |
| Reporting.SysctlRunOnExample | pkg/reporting.go:31 | as written, the line for sysctl "kernel.msgmax" ends in 'x', so the next write continues that line |
| Reporting.SysctlLineTerminated | pkg/reporting.go:30-31 | the intended sysctl line ends with a newline like every other line |
| Configuration.ResolveConfigPath | pkg/config.go:25-27 | an empty path becomes "config.yaml"; a given path is kept |
| Configuration.WithDefaultModel | pkg/config.go:48-50 | an empty model becomes "gpt-4o", a non-empty model is kept, and key and URL are untouched |
| Configuration.LoadConfig | pkg/config.go:23-53 | a loaded configuration has a non-empty API key and model, and is the decoded content of the file read, with only the model defaulted |
| Configuration.LoadConfigSucceeds | pkg/config.go:29-52 | loading succeeds if and only if the file is read, it decodes, and it names an API key |
| Configuration.LoadConfigValue | pkg/config.go:36-52 | the API key and base URL pass through unchanged, and only the model is defaulted |
| Configuration.LoadConfigErrors | pkg/config.go:30-45 | each failing step gives its own error, naming the path read |
| Configuration.GetDefaultConfig | pkg/config.go:56-64 | the sample configuration has a key and a model, so it passes validation; its model is "gpt-4o" and its base URL "https://api.openai.com/v1/" |
| Configuration.DefaultConfigLoadsBack | pkg/config.go:23-64 | a file decoding to the sample configuration loads back as exactly that configuration |
| Configuration.SaveExampleConfig | pkg/config.go:67-81 | an encoding failure is reported with its own error |
| Configuration.SaveExampleConfigSucceeds | pkg/config.go:67-81 | saving succeeds if and only if the sample encodes and the encoding is written to the given path |
| AiAnalyzer.TrimVersionSuffix | pkg/ai_analyzer.go:44-50 | a trailing "/v1/" is removed, else a trailing "/v1", else the URL is kept |
| AiAnalyzer.TrimVersionSuffixOnce | pkg/ai_analyzer.go:46-50 | only one suffix is removed: ".../v1/v1/" and ".../v1/v1" both become ".../v1" |
| AiAnalyzer.NewAIAnalyzer | pkg/ai_analyzer.go:29-60 | construction succeeds if and only if a config is given and its API key is non-empty; the key and model are copied |
| AiAnalyzer.NewAIAnalyzerBaseUrl | pkg/ai_analyzer.go:42-54 | an empty base URL keeps the library default; a non-empty one is used with its version suffix trimmed |
| AiAnalyzer.LoadedConfigBuildsAnalyzer | pkg/ai_analyzer.go:29-36 | every configuration that loads builds an analyzer |
| AiAnalyzer.StripFences | pkg/ai_analyzer.go:71-82 | the result of removing the fences and trimming again has no leading or trailing whitespace |
| AiAnalyzer.CleanResponseContent | pkg/ai_analyzer.go:68-83 | the cleaned reply has no leading or trailing whitespace |
| AiAnalyzer.JsonFenceIsFence | pkg/ai_analyzer.go:71-74 | a reply starting with "```json" also starts with "```", which is why the tagged fence is tried first |
| AiAnalyzer.CleanIgnoresOuterSpace | pkg/ai_analyzer.go:70 | whitespace around the reply does not change the result |
| AiAnalyzer.CleanLeavesPlainText | pkg/ai_analyzer.go:68-83 | trimmed text that neither starts nor ends with "```" is returned unchanged |
| AiAnalyzer.CleanJsonFence | pkg/ai_analyzer.go:71-82 | a reply wrapped in "```json" and "```" becomes its trimmed inner text, with no tag left |
| AiAnalyzer.BareFenceNotJson | pkg/ai_analyzer.go:71-73 | a bare fence whose text does not start with "json" is not taken for a tagged fence |
| AiAnalyzer.CleanBareFence | pkg/ai_analyzer.go:73-82 | a reply wrapped in bare fences becomes its trimmed inner text |
| AiAnalyzer.CleanBareFenceTagged | pkg/ai_analyzer.go:71-82 | whether it is read as tagged or bare, a fence followed by "json" never leaves the tag behind |
| AiAnalyzer.CleanIdempotentOnPlainResult | pkg/ai_analyzer.go:68-83 | cleaning a cleaned reply again changes nothing when the first result carries no fence |
| AiAnalyzer.CleanNotIdempotent | pkg/ai_analyzer.go:71-80 | at most one fence is removed at each end: "`````````" cleans to "```", which cleans to "" |
| AiAnalyzer.AnalyzePod | pkg/ai_analyzer.go:85-184 | the analysis fails if and only if the call fails or returns no choice; a result always names the input pod's namespace and name |
| AiAnalyzer.AnalyzePodErrors | pkg/ai_analyzer.go:130-142 | the two error texts: the wrapped call error, and "no response from OpenAI API" |
| AiAnalyzer.AnalyzePodFallback | pkg/ai_analyzer.go:156-173 | an undecodable reply gives "UNKNOWN", a single issue and exactly the two fixed recommendations, without error |
| AiAnalyzer.AnalyzePodDecoded | pkg/ai_analyzer.go:176-183 | a decoded reply's level, issues and recommendations are copied verbatim |
| AiAnalyzer.UnknownOnlyFromFallbackOrModel | pkg/ai_analyzer.go:156-183 | an "UNKNOWN" result comes from a decoding failure or from the model itself saying "UNKNOWN" |
| AiAnalyzer.FencedSafeReply | pkg/ai_analyzer.go:144-183 | "```json <SAFE reply> ```" gives a SAFE analysis with empty lists |
| AiAnalyzer.Outcomes | pkg/ai_analyzer.go:191-194 | one outcome per pod, each the analysis of that pod with its own reply |
| AiAnalyzer.AnalyzePods | pkg/ai_analyzer.go:186-209 | the loop keeps exactly the successful outcomes, in pod order, and always returns a nil error |
| AiAnalyzer.SuccessIndices | pkg/ai_analyzer.go:191-201 | the indices of the successful pods are in range and strictly increasing |
| AiAnalyzer.SuccessIndicesMember | pkg/ai_analyzer.go:194-201 | an index is listed if and only if that pod's analysis succeeded |
| AiAnalyzer.SuccessesAtIndices | pkg/ai_analyzer.go:194-201 | the k-th returned analysis is the result of the k-th successful pod, so the output has one entry per success and keeps pod order |
| AiAnalyzer.SuccessIndicesBound | pkg/ai_analyzer.go:191-201 | there are never more results than pods |
| AiAnalyzer.AnalyzePodsIdentity | pkg/ai_analyzer.go:194-201 | every returned analysis is the successful result of some pod and carries that pod's namespace and name |
| AiAnalyzer.SecondCallFails | pkg/ai_analyzer.go:195-198 | a pod whose call fails is omitted, not replaced: three pods, the second failing, give two analyses for the first and third |
| AiAnalysis.Bump | cmd/aiAnalysis.go:113 | `m[k]++` adds k with count 1 when absent, adds one when present, and leaves other keys alone |
| AiAnalysis.BuildReport | cmd/aiAnalysis.go:97-114 | TotalPods is the number of analyses, Summary is the tally of their levels, and the analyses are stored unchanged |
| AiAnalysis.CountLevelPositive | cmd/aiAnalysis.go:112-114 | a level has a positive count if and only if some analysis has that level |
| AiAnalysis.TallyCounts | cmd/aiAnalysis.go:112-114 | a level is a key of the summary if and only if it occurs, and its value is the number of analyses at that level |
| AiAnalysis.TallySum | cmd/aiAnalysis.go:112-114 | summed over the summary's keys, the counts give the number of analyses |
| AiAnalysis.ReportConsistent | cmd/aiAnalysis.go:106-114 | the saved TotalPods equals the sum of the saved per-level counts |
| AiAnalysis.TallyExample | cmd/aiAnalysis.go:112-114 | levels SAFE, SAFE, CRITICAL, UNKNOWN give the summary {SAFE: 2, CRITICAL: 1, UNKNOWN: 1} |
| AiAnalysis.TotalIssuesAppend | cmd/aiAnalysis.go:128-133 | the issue total is additive over a split of the analyses |
| AiAnalysis.EmptySummary | cmd/aiAnalysis.go:127-133 | no analyses give zero issues and an empty map |
| AiAnalysis.PrintAnalysisStats | cmd/aiAnalysis.go:126-155 | the printed lines are the header with the pod count and the issue total, then the distribution, where the loops compute the tally and the issue total |
| AiAnalysis.DistributionMember | cmd/aiAnalysis.go:142-154 | a distribution line is printed if and only if it is one of the five known levels with positive count, showing that count; other levels are counted but not listed |
| AiAnalysis.DistributionBound | cmd/aiAnalysis.go:142-154 | at most five distribution lines are printed |
| AiAnalysis.FormatOf | cmd/aiAnalysis.go:79-84 | the save step writes HTML if and only if the format is "html", and JSON for any other format |
| AiAnalysis.OutputFileName | cmd/aiAnalysis.go:42-50 | a given output path is kept |
| AiAnalysis.DefaultFileNameExtension | cmd/aiAnalysis.go:42-50 | with no output path, the name is stamped with the timestamp and ends in ".html" if and only if the format is "html", or else in ".json" |
| AiAnalysis.DefaultFileNameMatchesFormat | cmd/aiAnalysis.go:42-84 | the default name's extension agrees with the format the save step writes |
| Strings.TrimSpace | pkg/ai_analyzer.go:70 | the result has no leading or trailing whitespace, and trimmed text is unchanged |
| Strings.TrimSpaceRemovesOnlySpace | pkg/ai_analyzer.go:70 | the result is a window of the input with only whitespace cut from either end |
| Strings.Split | pkg/connection.go:50 | the pieces contain no separator and joined with it give the input back |
| Strings.SplitFirst | pkg/pss.go:340 | the first piece is a prefix of the input, is the whole input exactly when there is no separator, and is otherwise followed by the separator |
| Strings.NatToStringRoundTrip | pkg/reporting.go:27 | the decimal digits printed for a port read back as the same number |
| Sequences.FilterSubsequence | pkg/connection.go:57-71 | a filter that keeps or drops each element gives a subsequence of its input |

## Left out

- Cluster access (`initKubeClient` and the pod listing, pkg/connection.go:15-44) is network I/O. Every rule and the filter take the pod list as a parameter, and each rule's own call to `ConnectWithPods` is not modelled.
- The chat-completion call (pkg/ai_analyzer.go:115-128) is network I/O. Each attempt's reply is a `ChatReply` parameter: the `replies` sequence aligned with the pods.
- The prompt text (pkg/ai_analyzer.go:92-113) is fixed prose around the serialised pod and is not modelled.
- The pod encoding (pkg/ai_analyzer.go:87-90) is not modelled, so its error path is not either. The JSON decoder is a `Decoder` function parameter. Go's behaviour on missing keys is not part of it.
- The YAML decoder and encoder and the config-file read and write (pkg/config.go:30-40, 70-78) are function parameters.
- The JSON encoding and file write of `saveAnalysisResults` (cmd/aiAnalysis.go:116-123) are foreign library calls and file I/O: `BuildReport` stops at the report value.
- The report's `GeneratedAt` timestamp, the `Timestamp` of each analysis, the clock behind the default file name (a parameter), the pacing `time.Sleep`, and all log output are clock and logging side effects.
- Console output is returned as a sequence of strings instead of written.
- `log.Fatal` in `NewAIAnalyzer` ends the process. It is modelled as a `Failure` carrying the message.
- `GetClient` only returns a field, and the client library object is reduced to its key and base URL.
- `Finding.Image` is set by no rule, so `Finding` has no such field.
- pkg/output.go (the HTML report and the console printer) is not part of this model; only the dispatch between the HTML and JSON save is (`AiAnalysis.FormatOf`).
- The `Run` bodies of the commands (cobra flag plumbing and the call sequence in cmd/aiAnalysis.go:22-94, cmd/allNoPSS.go, cmd/generateConfig.go, cmd/testApi.go) only wire the modelled parts together and are not modelled beyond the file-name and format switches.
- Pss.HostProcess: the source dereferences the pod security context and both HostProcess pointers without a nil check (pkg/pss.go:123, 129). The model requires those pointers to be set where the code reads them, instead of modelling the panic.
- Pss.Apparmor: Go iterates the annotation map in unspecified order. Annotations are a sequence, so the model fixes one order where the source promises none.
- Strings.TrimSpace, Strings.Split: Go's string functions and `len` work on UTF-8 bytes, while the model works on sequences of characters. The two agree on the ASCII keys, labels and separators the core compares, but not on lengths of non-ASCII text.
- AiAnalysis.TallySum: Go maps have no key order, so the sum is stated over any list naming each summary key once, not over the map itself.

## Findings

| source | as written | input that shows it | evidently intended | confidence | as-written member | corrected member |
|---|---|---|---|---|---|---|
| pkg/reporting.go:16 | the location case lists "Unmasked Procmount", but the procmount rule emits "Unmasked procmount" (pkg/pss.go:357) | a container with ProcMount "Unmasked": the rule reports it and the report prints no line for it | the case key spelled as the rule writes it, so procmount findings print as location lines | high (not executed) | Reporting.ProcmountUnreportedAsWritten | Reporting.ProcmountReported |
| pkg/reporting.go:31 | the unsafe-sysctl format has no trailing newline | two unsafe sysctls, the first "kernel.msgmax": its line ends in 'x' and the second line continues it | a "\n" at the end, as on every other case | high (not executed) | Reporting.SysctlRunOnExample | Reporting.SysctlLineTerminated |

`Reporting.FindingLineAsWritten` is the switch exactly as written, and `Reporting.ReportPSS` and its properties use it. `Reporting.FindingLine` is the corrected switch. `Reporting.IntendedReport` builds the report from it, and the `Intended…` lemmas state its properties.
