/**
 * The plain-text report of pkg/reporting.go. `ReportPSS` writes a header, one line per
 * finding it recognises (or "No findings!" for a nil slice) and a closing blank line to
 * standard output; the model returns the sequence of writes instead of performing them.
 */
module Reporting {
  import opened Wrappers
  import opened Sequences
  import opened Strings
  import opened Pss

  /** A rule's result as the Go slice it returns: every rule starts from a nil slice and only appends. */
  function AsSlice(fs: seq<Finding>): (slice: Option<seq<Finding>>)
    ensures slice.None? <==> |fs| == 0
    ensures slice.Some? ==> slice.value == fs
  {
    if |fs| == 0 then None else Some(fs)
  }

  /** The check keys under which the rules of pkg/pss.go emit findings. */
  const RuleChecks: seq<string> := [
    "hostpid", "hostnet", "hostipc", "Host Ports", "Host Path", "HostProcess", "privileged",
    "allowprivesc", "Added Capabilities", "Dropped Capabilities", "Seccomp Disabled",
    "Apparmor Disabled", "Unmasked procmount", "Unsafe Sysctl"]

  /** The keys the report prints as a bare location, as the switch is written: with a capital P in Procmount. */
  const LocationChecksAsWritten: seq<string> := [
    "hostpid", "hostnet", "hostipc", "privileged", "allowprivesc", "HostProcess",
    "Seccomp Disabled", "Unmasked Procmount", "Apparmor Disabled"]

  /** The location keys with the procmount key spelled as the procmount rule emits it. */
  const LocationChecks: seq<string> := [
    "hostpid", "hostnet", "hostipc", "privileged", "allowprivesc", "HostProcess",
    "Seccomp Disabled", "Unmasked procmount", "Apparmor Disabled"]

  function Header(check: string): string {
    "Findings for the " + check + " check\n"
  }

  /** The start of every report line. */
  function PodPart(f: Finding): string {
    "namespace " + f.namespace + " : pod " + f.pod
  }

  /** What follows `PodPart` on a bare location line: the container, when the finding names one. */
  function LocationTail(f: Finding): string {
    if f.container != "" then " : container " + f.container + "\n" else "\n"
  }

  /**
   * The report line of one finding after its `PodPart`: the switch of the report loop.
   * `locationChecks` is the first case's key list and `sysctlEnd` what follows the sysctl
   * name; a finding whose key matches no case prints nothing.
   */
  function LineTail(locationChecks: seq<string>, sysctlEnd: string, f: Finding): Option<string> {
    if f.check in locationChecks then Some(LocationTail(f))
    else if f.check == "Added Capabilities" then
      Some(" : container " + f.container + " added capabilities " + Join(f.capabilities, ",") + " \n")
    else if f.check == "Dropped Capabilities" then
      Some(" : container " + f.container + " dropped capabilities " + Join(f.capabilities, ",") + " \n")
    else if f.check == "Host Ports" then
      Some(" : container " + f.container + " : port " + IntToString(f.hostport) + "\n")
    else if f.check == "Host Path" then
      Some(" : volume " + f.volume + " : path " + f.path + "\n")
    else if f.check == "Unsafe Sysctl" then
      Some(" : unsafe sysctl " + f.sysctl + sysctlEnd)
    else None
  }

  function LineWith(locationChecks: seq<string>, sysctlEnd: string, f: Finding): Option<string> {
    var tail := LineTail(locationChecks, sysctlEnd, f);
    if tail.Some? then Some(PodPart(f) + tail.value) else None
  }

  /** The switch as written: procmount findings are not matched, and the sysctl line has no newline. */
  function FindingLineAsWritten(f: Finding): Option<string> {
    LineWith(LocationChecksAsWritten, "", f)
  }

  /** The switch as intended: every key a rule emits is matched and every line is ended. */
  function FindingLine(f: Finding): Option<string> {
    LineWith(LocationChecks, "\n", f)
  }

  function LineFn(locationChecks: seq<string>, sysctlEnd: string): Finding -> seq<string> {
    (f: Finding) => var line := LineWith(locationChecks, sysctlEnd, f); if line.Some? then [line.value] else []
  }

  /** The lines a switch writes for a list of findings, in order. */
  function Lines(locationChecks: seq<string>, sysctlEnd: string, fs: seq<Finding>): seq<string> {
    FlatMap(LineFn(locationChecks, sysctlEnd), fs)
  }

  function ReportWith(locationChecks: seq<string>, sysctlEnd: string, f: Option<seq<Finding>>, check: string): seq<string> {
    [Header(check)] + (if f.Some? then Lines(locationChecks, sysctlEnd, f.value) else ["No findings!\n"]) + ["\n"]
  }

  /** Everything `ReportPSS` writes, one element per write, with the switch as written. */
  function Report(f: Option<seq<Finding>>, check: string): seq<string> {
    ReportWith(LocationChecksAsWritten, "", f, check)
  }

  /** The report the intended switch would write. */
  function IntendedReport(f: Option<seq<Finding>>, check: string): seq<string> {
    ReportWith(LocationChecks, "\n", f, check)
  }

  /** The report loop. */
  method ReportPSS(f: Option<seq<Finding>>, check: string) returns (writes: seq<string>)
    ensures writes == Report(f, check)
  {
    writes := [Header(check)];
    if f != None {
      var fs := f.value;
      for k := 0 to |fs|
        invariant writes == [Header(check)] + Lines(LocationChecksAsWritten, "", fs[..k])
      {
        var line := FindingLineAsWritten(fs[k]);
        if line.Some? {
          writes := writes + [line.value];
        }
        FlatMapStep(LineFn(LocationChecksAsWritten, ""), fs, k);
      }
      assert fs[..|fs|] == fs;
    } else {
      writes := writes + ["No findings!\n"];
    }
    writes := writes + ["\n"];
  }

  // ---------------------------------------------------------------------------------------
  // Properties of the report as written
  // ---------------------------------------------------------------------------------------

  /** The report opens with the header and closes with the blank line. */
  lemma ReportFrame(f: Option<seq<Finding>>, check: string)
    ensures var ws := Report(f, check);
            |ws| >= 2 && ws[0] == Header(check) && ws[|ws| - 1] == "\n"
  {
  }

  /**
   * The keys the switch matches: those the rules emit except "Unmasked procmount", and the
   * "Unmasked Procmount" no rule emits.
   */
  lemma FindingLineRecognised(f: Finding)
    ensures FindingLineAsWritten(f).Some? <==>
      (f.check in RuleChecks && f.check != "Unmasked procmount") || f.check == "Unmasked Procmount"
  {
    assert "Unmasked procmount" != "Unmasked Procmount" by {
      assert "Unmasked procmount"[9] != "Unmasked Procmount"[9];
    }
  }

  /** For the location keys the container segment is printed exactly when the finding names a container. */
  lemma LocationLine(f: Finding)
    requires f.check in LocationChecksAsWritten
    ensures f.container != "" ==> FindingLineAsWritten(f) == Some(PodPart(f) + " : container " + f.container + "\n")
    ensures f.container == "" ==> FindingLineAsWritten(f) == Some(PodPart(f) + "\n")
  {
    if f.container != "" {
      assert PodPart(f) + (" : container " + f.container + "\n") == PodPart(f) + " : container " + f.container + "\n";
    }
  }

  lemma ContainsMiddle(a: string, b: string, c: string)
    ensures Contains(a + b + c, b)
  {
    assert OccursAt(a + b + c, b, |a|);
  }

  /** A capability line carries the listed names joined with ",". */
  lemma CapabilityLineNames(f: Finding)
    requires f.check == "Added Capabilities" || f.check == "Dropped Capabilities"
    ensures Contains(FindingLineAsWritten(f).value, Join(f.capabilities, ","))
  {
    var caps := Join(f.capabilities, ",");
    var verb := if f.check == "Added Capabilities" then " added capabilities " else " dropped capabilities ";
    var head := PodPart(f) + " : container " + f.container + verb;
    assert f.check !in LocationChecksAsWritten;
    assert FindingLineAsWritten(f).value == head + caps + " \n";
    ContainsMiddle(head, caps, " \n");
  }

  /** A host-port line carries the port in decimal. */
  lemma PortLineHasPort(f: Finding)
    requires f.check == "Host Ports"
    ensures Contains(FindingLineAsWritten(f).value, IntToString(f.hostport))
  {
    var head := PodPart(f) + " : container " + f.container + " : port ";
    assert f.check !in LocationChecksAsWritten;
    assert FindingLineAsWritten(f).value == head + IntToString(f.hostport) + "\n";
    ContainsMiddle(head, IntToString(f.hostport), "\n");
  }

  /** A host-path line carries the volume name and the host path. */
  lemma PathLineHasFields(f: Finding)
    requires f.check == "Host Path"
    ensures Contains(FindingLineAsWritten(f).value, f.volume) && Contains(FindingLineAsWritten(f).value, f.path)
  {
    var head := PodPart(f) + " : volume ";
    var mid := head + f.volume + " : path ";
    assert f.check !in LocationChecksAsWritten;
    assert FindingLineAsWritten(f).value == head + f.volume + (" : path " + f.path + "\n");
    ContainsMiddle(head, f.volume, " : path " + f.path + "\n");
    assert FindingLineAsWritten(f).value == mid + f.path + "\n";
    ContainsMiddle(mid, f.path, "\n");
  }

  /**
   * Every line starts with the finding's namespace and pod; every line but the sysctl line
   * ends with a newline, and the sysctl line ends with the sysctl name.
   */
  lemma FindingLineShape(f: Finding)
    requires FindingLineAsWritten(f).Some?
    ensures HasPrefix(FindingLineAsWritten(f).value, PodPart(f))
    ensures f.check != "Unsafe Sysctl" ==> HasSuffix(FindingLineAsWritten(f).value, "\n")
    ensures f.check == "Unsafe Sysctl" ==> HasSuffix(FindingLineAsWritten(f).value, f.sysctl)
  {
    var tail := LineTail(LocationChecksAsWritten, "", f).value;
    var line := PodPart(f) + tail;
    assert line[..|PodPart(f)|] == PodPart(f);
    if f.check == "Unsafe Sysctl" {
      assert f.check !in LocationChecksAsWritten;
      assert tail == " : unsafe sysctl " + f.sysctl + "";
      assert line[|line| - |f.sysctl|..] == f.sysctl;
    } else {
      assert |tail| > 0 && tail[|tail| - 1] == '\n';
      assert line[|line| - 1..] == "\n";
    }
  }

  /** A report line is never one of the other writes. */
  lemma FindingLineDistinct(f: Finding, check: string)
    requires FindingLineAsWritten(f).Some?
    ensures FindingLineAsWritten(f).value != "No findings!\n"
    ensures FindingLineAsWritten(f).value != Header(check)
    ensures FindingLineAsWritten(f).value != "\n"
  {
    var line := FindingLineAsWritten(f).value;
    assert line[0] == PodPart(f)[0] == 'n';
  }

  /** A line is written for a finding of the list, and each recognised finding gets its line. */
  lemma ReportLineMember(fs: seq<Finding>, line: string)
    ensures line in Lines(LocationChecksAsWritten, "", fs) <==> exists f :: f in fs && FindingLineAsWritten(f) == Some(line)
  {
    FlatMapMember(LineFn(LocationChecksAsWritten, ""), fs, line);
  }

  /** The number of procmount findings in a list. */
  function ProcmountCount(fs: seq<Finding>): (n: nat)
    ensures n <= |fs|
    decreases |fs|
  {
    if |fs| == 0 then 0
    else ProcmountCount(fs[..|fs| - 1]) + (if fs[|fs| - 1].check == "Unmasked procmount" then 1 else 0)
  }

  /** When every finding comes from a rule, the report has one line per finding except the procmount findings. */
  lemma ReportLength(fs: seq<Finding>, check: string)
    requires forall f :: f in fs ==> f.check in RuleChecks
    ensures |Report(Some(fs), check)| == |fs| - ProcmountCount(fs) + 2
  {
    LinesLength(fs);
  }

  lemma {:induction false} LinesLength(fs: seq<Finding>)
    requires forall f :: f in fs ==> f.check in RuleChecks
    ensures |Lines(LocationChecksAsWritten, "", fs)| == |fs| - ProcmountCount(fs)
    decreases |fs|
  {
    if |fs| > 0 {
      var init := fs[..|fs| - 1];
      assert forall f :: f in init ==> f in fs;
      LinesLength(init);
      FindingLineRecognised(fs[|fs| - 1]);
    }
  }

  /** As written, the report of the procmount rule never lists a finding: only the header and the blank line remain. */
  lemma ProcmountReportAsWritten(pods: seq<Pod>, check: string)
    requires ContainerRule(ProcmountCheck, pods) != []
    ensures Report(AsSlice(ContainerRule(ProcmountCheck, pods)), check) == [Header(check), "\n"]
  {
    var fs := ContainerRule(ProcmountCheck, pods);
    forall f | f in fs
      ensures f.check in RuleChecks
    {
      ProcmountMember(pods, f);
    }
    LinesLength(fs);
    ProcmountAll(pods, fs);
  }

  lemma {:induction false} ProcmountAll(pods: seq<Pod>, fs: seq<Finding>)
    requires forall f :: f in fs ==> f in ContainerRule(ProcmountCheck, pods)
    ensures ProcmountCount(fs) == |fs|
    decreases |fs|
  {
    if |fs| > 0 {
      var init := fs[..|fs| - 1];
      assert forall f :: f in init ==> f in fs;
      ProcmountAll(pods, init);
      ProcmountMember(pods, fs[|fs| - 1]);
    }
  }

  /** "No findings!" is written exactly for a nil slice ... */
  lemma NoFindingsIff(f: Option<seq<Finding>>, check: string)
    ensures "No findings!\n" in Report(f, check) <==> f.None?
  {
    if f.Some? {
      assert "No findings!\n" != Header(check) by {
        assert Header(check)[0] == 'F';
      }
      forall line | line in Lines(LocationChecksAsWritten, "", f.value)
        ensures line != "No findings!\n"
      {
        ReportLineMember(f.value, line);
        var g :| g in f.value && FindingLineAsWritten(g) == Some(line);
        FindingLineDistinct(g, check);
      }
      assert "No findings!\n" != "\n";
    }
  }

  /** ... so for a rule's result it is written exactly when the rule found nothing. */
  lemma RuleReportNoFindings(fs: seq<Finding>, check: string)
    ensures "No findings!\n" in Report(AsSlice(fs), check) <==> |fs| == 0
  {
    NoFindingsIff(AsSlice(fs), check);
  }

  /** A non-nil but empty slice writes only the header and the blank line. */
  lemma EmptySliceReport(check: string)
    ensures Report(Some([]), check) == [Header(check), "\n"]
  {
  }

  // ---------------------------------------------------------------------------------------
  // Properties of the intended report
  // ---------------------------------------------------------------------------------------

  /** With the intended switch exactly the keys the rules emit are reported ... */
  lemma IntendedLineRecognised(f: Finding)
    ensures FindingLine(f).Some? <==> f.check in RuleChecks
  {
  }

  /** ... and every line starts with the namespace and pod and ends with a newline ... */
  lemma IntendedLineShape(f: Finding)
    requires FindingLine(f).Some?
    ensures HasPrefix(FindingLine(f).value, PodPart(f))
    ensures HasSuffix(FindingLine(f).value, "\n")
  {
    var tail := LineTail(LocationChecks, "\n", f).value;
    var line := PodPart(f) + tail;
    LineTailEnded(f);
    assert line[|line| - 1..] == "\n";
    assert line[..|PodPart(f)|] == PodPart(f);
  }

  /** Every case of the intended switch ends its text with a newline. */
  lemma LineTailEnded(f: Finding)
    requires LineTail(LocationChecks, "\n", f).Some?
    ensures var tail := LineTail(LocationChecks, "\n", f).value; |tail| > 0 && tail[|tail| - 1] == '\n'
  {
  }

  /** ... so for findings from the rules the report has exactly one line per finding. */
  lemma IntendedReportLength(fs: seq<Finding>, check: string)
    requires forall f :: f in fs ==> f.check in RuleChecks
    ensures |IntendedReport(Some(fs), check)| == |fs| + 2
  {
    FlatMapSingletons(LineFn(LocationChecks, "\n"), fs);
  }

  // ---------------------------------------------------------------------------------------
  // The two discrepancies of the switch as written
  // ---------------------------------------------------------------------------------------

  /** As written, the switch has no case for the key the procmount rule emits. */
  lemma ProcmountKeyUnmatchedAsWritten(f: Finding)
    requires f.check == "Unmasked procmount"
    ensures FindingLineAsWritten(f) == None
  {
    assert "Unmasked procmount" != "Unmasked Procmount" by {
      assert "Unmasked procmount"[9] == 'p';
    }
    assert f.check !in LocationChecksAsWritten;
  }

  /** So, as written, no finding of the procmount rule is ever reported. */
  lemma ProcmountUnreportedAsWritten(pods: seq<Pod>, f: Finding)
    requires f in ContainerRule(ProcmountCheck, pods)
    ensures FindingLineAsWritten(f) == None
  {
    ProcmountMember(pods, f);
    ProcmountKeyUnmatchedAsWritten(f);
  }

  /** The intended switch reports every procmount finding as a location line. */
  lemma ProcmountReported(pods: seq<Pod>, f: Finding)
    requires f in ContainerRule(ProcmountCheck, pods)
    ensures FindingLine(f) == Some(PodPart(f) + LocationTail(f))
  {
    ProcmountMember(pods, f);
    assert f.check in LocationChecks;
  }

  /** As written, the sysctl line ends with the sysctl name, so the next write continues the same line. */
  lemma SysctlLineUnterminatedAsWritten(f: Finding)
    requires f.check == "Unsafe Sysctl"
    ensures FindingLineAsWritten(f) == Some(PodPart(f) + (" : unsafe sysctl " + f.sysctl))
  {
    var tail := " : unsafe sysctl " + f.sysctl;
    assert f.check !in LocationChecksAsWritten;
    assert tail + "" == tail;
  }

  /** Two unsafe sysctls in a row: as written, the first line ends in the last letter of the name, not a newline. */
  lemma SysctlRunOnExample()
    ensures var f := Finding("Unsafe Sysctl", "default", "", "", [], 0, "", "", "kernel.msgmax");
            var line := FindingLineAsWritten(f).value;
            line[|line| - 1] == 'x'
  {
    var f := Finding("Unsafe Sysctl", "default", "", "", [], 0, "", "", "kernel.msgmax");
    SysctlLineUnterminatedAsWritten(f);
  }

  /** The intended sysctl line is ended like every other line. */
  lemma SysctlLineTerminated(f: Finding)
    requires f.check == "Unsafe Sysctl"
    ensures FindingLine(f) == Some(PodPart(f) + (" : unsafe sysctl " + f.sysctl + "\n"))
  {
    assert f.check !in LocationChecks;
  }
}
