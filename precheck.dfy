/**
 * The pre-flight checks: which operating systems and interpreter versions
 * pass, the port and required-file loops that probe every item, the
 * `/proc/meminfo` parse with the memory and disk thresholds, and the report
 * that passes only when every one of the nine checks did.
 */
module PreCheck {
  import opened Wrappers
  import opened Text
  import opened Numbers

  // Operating system and interpreter.

  const SupportedSystems: set<string> := {"windows", "linux", "darwin"}

  /** `check_os`: the lower-cased `platform.system()` is one of the three supported names. */
  function CheckOs(system: string): bool {
    Lower(system) in SupportedSystems
  }

  /** The three names pass in any letter case, and only those. */
  lemma CheckOsNames(system: string)
    ensures CheckOs(system) <==> Lower(system) == "windows" || Lower(system) == "linux" || Lower(system) == "darwin"
    ensures CheckOs(Lower(system)) == CheckOs(system)
  {
    LowerIdempotent(system);
  }

  /** `lower()` applied twice changes nothing more. */
  lemma LowerIdempotent(s: string)
    ensures Lower(Lower(s)) == Lower(s)
  {
  }

  /** `check_python`, as written: both the major and the minor version are compared. */
  function CheckPython(major: int, minor: int): bool {
    major >= 3 && minor >= 6
  }

  /** A version passes exactly when it is at least 3 and has minor at least 6, so 3.6 passes and 4.0 does not. */
  lemma CheckPythonLiteral(major: int, minor: int)
    ensures CheckPython(major, minor) <==> major >= 3 && minor >= 6
    ensures CheckPython(3, 6) && CheckPython(3, 12) && !CheckPython(3, 5) && !CheckPython(4, 0)
  {
  }

  // Probing every item.

  /** Every item passes its probe. */
  function AllPass<T>(items: seq<T>, ok: T -> bool): bool {
    if items == [] then true else ok(items[0]) && AllPass(items[1..], ok)
  }

  lemma {:induction false} AllPassIff<T>(items: seq<T>, ok: T -> bool)
    ensures AllPass(items, ok) <==> forall i :: 0 <= i < |items| ==> ok(items[i])
  {
    if items != [] {
      AllPassIff(items[1..], ok);
      assert forall i :: 1 <= i < |items| ==> items[i] == items[1..][i - 1];
    }
  }

  lemma {:induction false} AllPassAppend<T>(items: seq<T>, x: T, ok: T -> bool)
    ensures AllPass(items + [x], ok) == (AllPass(items, ok) && ok(x))
  {
    if items != [] {
      assert (items + [x])[1..] == items[1..] + [x];
      AllPassAppend(items[1..], x, ok);
    } else {
      assert ([] + [x])[1..] == [];
    }
  }

  /**
   * The loops of `check_ports` and `check_required_files`: every item is
   * probed and reported, in order, and a failure only clears the flag.
   */
  method ProbeAll<T>(items: seq<T>, ok: T -> bool) returns (all: bool, probed: seq<T>)
    ensures all == AllPass(items, ok)
    ensures probed == items
  {
    all := true;
    probed := [];
    for i := 0 to |items|
      invariant probed == items[..i]
      invariant all == AllPass(items[..i], ok)
    {
      assert items[..i + 1] == items[..i] + [items[i]];
      AllPassAppend(items[..i], items[i], ok);
      probed := probed + [items[i]];
      if !ok(items[i]) {
        all := false;
      }
    }
    assert items[..|items|] == items;
  }

  const RequiredPorts: seq<int> := [16111, 16110, 17110, 18110]

  const RequiredFiles: seq<string> := ["docker-compose.yml", "Dockerfile", ".env.example"]

  /** `check_ports`: `bindOk` stands for binding `127.0.0.1` at the port raising no `OSError`. */
  method CheckPorts(bindOk: int -> bool) returns (all: bool, probed: seq<int>)
    ensures all <==> forall i :: 0 <= i < |RequiredPorts| ==> bindOk(RequiredPorts[i])
    ensures probed == RequiredPorts
  {
    all, probed := ProbeAll(RequiredPorts, bindOk);
    AllPassIff(RequiredPorts, bindOk);
  }

  /** `check_required_files`: `present` stands for `Path(file).exists()`. */
  method CheckRequiredFiles(present: string -> bool) returns (all: bool, probed: seq<string>)
    ensures all <==> forall i :: 0 <= i < |RequiredFiles| ==> present(RequiredFiles[i])
    ensures probed == RequiredFiles
  {
    all, probed := ProbeAll(RequiredFiles, present);
    AllPassIff(RequiredFiles, present);
  }

  // Memory and disk.

  /** 2 GB in kB: `available_kb / (1024**2) >= 2`, exact in binary floating point. */
  const MemoryThresholdKb: int := 2 * 1024 * 1024

  /** 2 GB in bytes, for the `psutil` figure. */
  const MemoryThresholdBytes: int := 2 * 1024 * 1024 * 1024

  /** 10 GB in bytes. */
  const DiskThresholdBytes: int := 10 * 1024 * 1024 * 1024

  /** The first line of `/proc/meminfo` that contains `MemAvailable`, if any. */
  function MemLine(lines: seq<string>): Option<string> {
    if lines == [] then None
    else if Contains(lines[0], "MemAvailable") then Some(lines[0])
    else MemLine(lines[1..])
  }

  /** `int(line.split()[1])`: `None` where that raises `IndexError` or `ValueError`. */
  function LineKb(line: string): Option<int> {
    var words := Words(line);
    if |words| < 2 then None else ParseInt(words[1])
  }

  /** The scan of `meminfo.split('\n')` with its `break`. */
  method ScanMeminfo(lines: seq<string>) returns (line: Option<string>)
    ensures line == MemLine(lines)
  {
    for i := 0 to |lines|
      invariant MemLine(lines[i..]) == MemLine(lines)
    {
      assert lines[i..][1..] == lines[i + 1..];
      if Contains(lines[i], "MemAvailable") {
        return Some(lines[i]);
      }
    }
    assert lines[|lines|..] == [];
    return None;
  }

  /** The first `MemAvailable` line decides; later ones play no part. */
  lemma {:induction false} MemLineFirst(lines: seq<string>, i: nat)
    requires i < |lines| && Contains(lines[i], "MemAvailable")
    requires forall j :: 0 <= j < i ==> !Contains(lines[j], "MemAvailable")
    ensures MemLine(lines) == Some(lines[i])
  {
    if i > 0 {
      assert !Contains(lines[0], "MemAvailable");
      assert forall j :: 0 <= j < i - 1 ==> lines[1..][j] == lines[j + 1];
      MemLineFirst(lines[1..], i - 1);
    }
  }

  /** There is no `MemAvailable` line exactly when no line contains the word. */
  lemma {:induction false} MemLineNone(lines: seq<string>)
    ensures MemLine(lines).None? <==> forall i :: 0 <= i < |lines| ==> !Contains(lines[i], "MemAvailable")
  {
    if lines != [] {
      MemLineNone(lines[1..]);
      assert forall i :: 1 <= i < |lines| ==> lines[i] == lines[1..][i - 1];
    }
  }

  /**
   * A line `name kb unit`, such as `MemAvailable:    8000000 kB`, yields `kb`
   * whatever the runs of whitespace before, between and after its words; the
   * unit and the whitespace before it may also be missing.
   */
  lemma LineKbOf(lead: string, name: string, gap: string, kb: nat, gap2: string, unit: string)
    requires AllSpace(lead) && AllSpace(gap) && AllSpace(gap2)
    requires name != [] && NoSpace(name)
    requires gap != [] && (gap2 != [] || unit == [])
    ensures LineKb(lead + name + gap + NatToString(kb) + gap2 + unit) == Some(kb)
  {
    var digits := NatToString(kb);
    assert NoSpace(digits);
    var tail := digits + gap2 + unit;
    assert lead + name + gap + digits + gap2 + unit == lead + name + (gap + tail);
    assert (gap + tail)[0] == gap[0];
    WordsOf(lead, name, gap + tail);
    assert gap + tail == gap + digits + (gap2 + unit);
    assert gap2 + unit == [] || (gap2 + unit)[0] == gap2[0];
    WordsOf(gap, digits, gap2 + unit);
    ParseIntRoundTrip(kb);
  }

  /** A `MemAvailable` line without a number after its first word is a failed memory check. */
  lemma LineKbShort(lead: string, name: string, trail: string)
    requires AllSpace(lead) && AllSpace(trail)
    requires name != [] && NoSpace(name)
    ensures LineKb(lead + name + trail) == None
  {
    assert trail == [] || IsSpace(trail[0]);
    WordsOf(lead, name, trail);
    WordsNone(trail);
  }

  /** What `check_memory` learns from the machine. */
  datatype Memory = Memory(
    system: string,                 // `platform.system()`, compared without lowering
    meminfo: Option<string>,        // the text of `/proc/meminfo`, `None` when it cannot be read
    vmStatOk: bool,                 // `vm_stat` exits with status 0
    psutilBytes: Option<int>)       // `psutil.virtual_memory().available`, `None` when `psutil` is missing

  /**
   * `check_memory`. On Linux the figure comes from the first `MemAvailable`
   * line; without one `available_gb` is never bound and the check fails. On
   * macOS a successful `vm_stat` stands for 4 GB. Elsewhere `psutil` decides.
   */
  function CheckMemory(m: Memory): bool {
    if m.system == "Linux" then
      match m.meminfo
      case None => false
      case Some(text) =>
        (match MemLine(Split(text, '\n'))
         case None => false
         case Some(line) =>
           (match LineKb(line)
            case None => false
            case Some(kb) => kb >= MemoryThresholdKb))
    else if m.system == "Darwin" then m.vmStatOk
    else
      match m.psutilBytes
      case None => false
      case Some(bytes) => bytes >= MemoryThresholdBytes
  }

  /** On Linux the check passes exactly when the first `MemAvailable` line reads at least 2·1024² kB. */
  lemma CheckMemoryLinux(m: Memory)
    requires m.system == "Linux"
    ensures CheckMemory(m) <==>
      m.meminfo.Some? && MemLine(Split(m.meminfo.value, '\n')).Some? &&
      LineKb(MemLine(Split(m.meminfo.value, '\n')).value).Some? &&
      LineKb(MemLine(Split(m.meminfo.value, '\n')).value).value >= 2097152
    ensures m.meminfo.Some? && MemLine(Split(m.meminfo.value, '\n')).None? ==> !CheckMemory(m)
  {
  }

  /**
   * A `/proc/meminfo` whose first `MemAvailable` line reads `kb` after any
   * padding passes the Linux check exactly when `kb` reaches 2·1024² kB.
   */
  lemma CheckMemoryMeminfo(m: Memory, i: nat, lead: string, name: string, gap: string, kb: nat, gap2: string, unit: string)
    requires m.system == "Linux" && m.meminfo.Some?
    requires var lines := Split(m.meminfo.value, '\n');
      i < |lines| && lines[i] == lead + name + gap + NatToString(kb) + gap2 + unit
      && Contains(lines[i], "MemAvailable")
      && forall j :: 0 <= j < i ==> !Contains(lines[j], "MemAvailable")
    requires AllSpace(lead) && AllSpace(gap) && AllSpace(gap2)
    requires name != [] && NoSpace(name) && gap != [] && (gap2 != [] || unit == [])
    ensures CheckMemory(m) <==> kb >= 2097152
  {
    MemLineFirst(Split(m.meminfo.value, '\n'), i);
    LineKbOf(lead, name, gap, kb, gap2, unit);
  }

  /** What `check_disk_space` learns: `statvfs('.')` block size and free blocks, or else `shutil.disk_usage('.')`'s free bytes. */
  datatype Disk = Disk(statvfs: Option<Statvfs>, diskUsageFree: Option<int>)

  /** The two `statvfs` fields the check multiplies. */
  datatype Statvfs = Statvfs(frsize: int, bavail: int)

  /** `check_disk_space`: at least 10·1024³ free bytes. */
  function CheckDiskSpace(d: Disk): bool {
    match d.statvfs
    case Some(s) => s.frsize * s.bavail >= DiskThresholdBytes
    case None =>
      match d.diskUsageFree
      case None => false
      case Some(free) => free >= DiskThresholdBytes
  }

  /** The disk check passes exactly when the free bytes it finds reach 10 GiB. */
  lemma CheckDiskThreshold(d: Disk)
    ensures d.statvfs.Some? ==> (CheckDiskSpace(d) <==> d.statvfs.value.frsize * d.statvfs.value.bavail >= 10737418240)
    ensures d.statvfs.None? ==> (CheckDiskSpace(d) <==> d.diskUsageFree.Some? && d.diskUsageFree.value >= 10737418240)
  {
  }

  // The report.

  /** The number of checks that passed: `sum(results.values())`. */
  function Passed(results: seq<bool>): (n: nat)
    ensures n <= |results|
  {
    if results == [] then 0 else (if results[0] then 1 else 0) + Passed(results[1..])
  }

  /** The summary: the passed count, the total, and whether all passed. */
  datatype Report = Report(passed: nat, total: nat, ok: bool)

  /** `generate_report`. */
  function GenerateReport(results: seq<bool>): Report {
    var passed := Passed(results);
    Report(passed, |results|, passed == |results|)
  }

  /** Every check passed exactly when the count reaches the total. */
  lemma {:induction false} PassedAll(results: seq<bool>)
    ensures Passed(results) == |results| <==> forall i :: 0 <= i < |results| ==> results[i]
  {
    if results != [] {
      PassedAll(results[1..]);
      assert forall i :: 1 <= i < |results| ==> results[i] == results[1..][i - 1];
    }
  }

  /** The passed count is the number of `True` results. */
  lemma {:induction false} PassedCounts(results: seq<bool>)
    ensures Passed(results) == multiset(results)[true]
  {
    if results != [] {
      PassedCounts(results[1..]);
      assert results == [results[0]] + results[1..];
      assert multiset(results) == multiset([results[0]]) + multiset(results[1..]);
    }
  }

  /** The report passes exactly when every result does. */
  lemma ReportOk(results: seq<bool>)
    ensures GenerateReport(results).ok <==> forall i :: 0 <= i < |results| ==> results[i]
    ensures GenerateReport(results).total == |results|
  {
    PassedAll(results);
  }

  // `main`.

  /**
   * What the checks learn from the machine. `docker`, `compose` and `network`
   * are the verdicts of `check_docker`, `check_docker_compose` and
   * `check_network`, whose subprocess and network calls are not part of this model.
   */
  datatype Machine = Machine(
    system: string,
    major: int,
    minor: int,
    docker: bool,
    compose: bool,
    fileExists: string -> bool,
    bindOk: int -> bool,
    disk: Disk,
    memory: Memory,
    network: bool)

  /** The nine results in `main`'s order: OS, Python, Docker, Compose, files, ports, disk, memory, network. */
  function Results(m: Machine): (r: seq<bool>)
    ensures |r| == 9
  {
    [CheckOs(m.system), CheckPython(m.major, m.minor), m.docker, m.compose,
     AllPass(RequiredFiles, m.fileExists), AllPass(RequiredPorts, m.bindOk),
     CheckDiskSpace(m.disk), CheckMemory(m.memory), m.network]
  }

  /** The exit status of `main`. */
  function ExitCode(m: Machine): int {
    if GenerateReport(Results(m)).ok then 0 else 1
  }

  /** `main`: all nine checks run, whatever the earlier ones found, then the report. */
  method RunPreCheck(m: Machine) returns (results: seq<bool>, code: int)
    ensures results == Results(m)
    ensures code == ExitCode(m)
  {
    var files, _ := CheckRequiredFiles(m.fileExists);
    var ports, _ := CheckPorts(m.bindOk);
    AllPassIff(RequiredFiles, m.fileExists);
    AllPassIff(RequiredPorts, m.bindOk);
    results := [CheckOs(m.system), CheckPython(m.major, m.minor), m.docker, m.compose,
                files, ports, CheckDiskSpace(m.disk), CheckMemory(m.memory), m.network];
    var report := GenerateReport(results);
    code := if report.ok then 0 else 1;
  }

  /** The status is 0 exactly when every check passes, each port and each required file included. */
  lemma ExitCodeAllPass(m: Machine)
    ensures ExitCode(m) == 0 <==>
      CheckOs(m.system) && CheckPython(m.major, m.minor) && m.docker && m.compose &&
      (forall i :: 0 <= i < |RequiredFiles| ==> m.fileExists(RequiredFiles[i])) &&
      (forall i :: 0 <= i < |RequiredPorts| ==> m.bindOk(RequiredPorts[i])) &&
      CheckDiskSpace(m.disk) && CheckMemory(m.memory) && m.network
    ensures ExitCode(m) == 0 || ExitCode(m) == 1
  {
    var r := Results(m);
    ReportOk(r);
    AllPassIff(RequiredFiles, m.fileExists);
    AllPassIff(RequiredPorts, m.bindOk);
    assert (forall i :: 0 <= i < 9 ==> r[i]) <==> r[0] && r[1] && r[2] && r[3] && r[4] && r[5] && r[6] && r[7] && r[8] by {
      if r[0] && r[1] && r[2] && r[3] && r[4] && r[5] && r[6] && r[7] && r[8] {
        forall i | 0 <= i < 9 ensures r[i] {
        }
      }
    }
  }
}
