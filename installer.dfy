/**
 * The decision logic of the Docker installer: which Linux distribution the
 * machine runs (from `/etc/os-release`, then marker files), which installer
 * branch that selects, the two architecture-name tables, the installer
 * branches as command chains that stop at the first failure, the two
 * verifications, and `main`, which skips installing when Docker and Compose
 * are already on the `PATH`.
 */
module Installer {
  import opened Wrappers
  import opened Text

  // Distribution detection.

  /** Which of `/etc/debian_version`, `/etc/redhat-release` and `/etc/arch-release` exist. */
  datatype Markers = Markers(debian: bool, redhat: bool, arch: bool)

  /** The value of an `ID=` line: the text between its first and second `=`, stripped, then `"` stripped. */
  function IdValue(line: string): string
    requires StartsWith(line, "ID=")
  {
    assert line[2] == '=';
    var parts := Split(line, '=');
    StripChar(Strip(parts[1]), '"')
  }

  /** The value of the first line of the file that starts with `ID=`, if there is one. */
  function ReleaseId(lines: seq<string>): Option<string> {
    if lines == [] then None
    else if StartsWith(lines[0], "ID=") then Some(IdValue(lines[0]))
    else ReleaseId(lines[1..])
  }

  /** The answer when no `ID=` line gives one: the marker files, in a fixed order. */
  function Fallback(markers: Markers): string {
    if markers.debian then "debian"
    else if markers.redhat then "rhel"
    else if markers.arch then "arch"
    else "unknown"
  }

  /**
   * `get_linux_distro`. `release` is the list of lines of `/etc/os-release`,
   * `None` when opening or reading it raises (the bare `except` swallows that).
   */
  function Distro(release: Option<seq<string>>, markers: Markers): string {
    match release
    case Some(lines) =>
      (match ReleaseId(lines)
       case Some(id) => id
       case None => Fallback(markers))
    case None => Fallback(markers)
  }

  /** The `for line in f` loop with its early `return`, then the fallback chain. */
  method GetLinuxDistro(release: Option<seq<string>>, markers: Markers) returns (distro: string)
    ensures distro == Distro(release, markers)
  {
    if release.Some? {
      var lines := release.value;
      for i := 0 to |lines|
        invariant ReleaseId(lines[i..]) == ReleaseId(lines)
      {
        assert lines[i..][1..] == lines[i + 1..];
        if StartsWith(lines[i], "ID=") {
          return IdValue(lines[i]);
        }
      }
      assert lines[|lines|..] == [];
    }
    if markers.debian {
      return "debian";
    } else if markers.redhat {
      return "rhel";
    } else if markers.arch {
      return "arch";
    }
    return "unknown";
  }

  /** Lines before the first `ID=` line play no part. */
  lemma {:induction false} ReleaseIdSkips(prefix: seq<string>, lines: seq<string>)
    requires forall i :: 0 <= i < |prefix| ==> !StartsWith(prefix[i], "ID=")
    ensures ReleaseId(prefix + lines) == ReleaseId(lines)
  {
    if prefix != [] {
      assert (prefix + lines)[0] == prefix[0];
      assert (prefix + lines)[1..] == prefix[1..] + lines;
      ReleaseIdSkips(prefix[1..], lines);
    } else {
      assert prefix + lines == lines;
    }
  }

  /** The first `ID=` line decides, whatever follows it. */
  lemma {:induction false} ReleaseIdFirst(lines: seq<string>, i: nat)
    requires i < |lines| && StartsWith(lines[i], "ID=")
    requires forall j :: 0 <= j < i ==> !StartsWith(lines[j], "ID=")
    ensures ReleaseId(lines) == Some(IdValue(lines[i]))
  {
    if i > 0 {
      assert !StartsWith(lines[0], "ID=");
      assert forall j :: 0 <= j < i - 1 ==> lines[1..][j] == lines[j + 1];
      ReleaseIdFirst(lines[1..], i - 1);
    }
  }

  /** No value comes from the file exactly when none of its lines starts with `ID=`. */
  lemma {:induction false} ReleaseIdNone(lines: seq<string>)
    ensures ReleaseId(lines).None? <==> forall i :: 0 <= i < |lines| ==> !StartsWith(lines[i], "ID=")
  {
    if lines != [] {
      ReleaseIdNone(lines[1..]);
      assert forall i :: 1 <= i < |lines| ==> lines[i] == lines[1..][i - 1];
    }
  }

  /** `VERSION_ID=` and `ID_LIKE=` lines never count as the `ID=` line. */
  lemma OtherIdKeys(line: string)
    requires StartsWith(line, "VERSION_ID=") || StartsWith(line, "ID_LIKE=")
    ensures !StartsWith(line, "ID=")
  {
    if StartsWith(line, "VERSION_ID=") {
      assert line[0] == 'V';
    } else {
      assert line[2] == '_';
    }
  }

  /** An `ID=` line with no second `=`: its value is the rest of the line, stripped, then unquoted. */
  lemma IdValueOfRest(rest: string)
    requires '=' !in rest
    ensures StartsWith("ID=" + rest, "ID=") && IdValue("ID=" + rest) == StripChar(Strip(rest), '"')
  {
    assert "ID=" + rest == "ID" + ['='] + rest;
    SplitAtFirst("ID", '=', rest);
  }

  /** An `ID=` line with a second `=`: its value is the text between the first two, stripped, then unquoted. */
  lemma IdValueBetween(a: string, b: string)
    requires '=' !in a
    ensures StartsWith("ID=" + a + "=" + b, "ID=") && IdValue("ID=" + a + "=" + b) == StripChar(Strip(a), '"')
  {
    assert "ID=" + a + "=" + b == "ID" + ['='] + a + ['='] + b;
    SplitSecond("ID", a, '=', b);
  }

  /** `ID=name` followed by whitespace such as the line's `\n` gives `name`. */
  lemma IdValueOf(name: string, ws: string)
    requires name != [] && '=' !in name && '=' !in ws
    requires !IsSpace(name[0]) && !IsSpace(name[|name| - 1])
    requires name[0] != '"' && name[|name| - 1] != '"'
    requires forall i :: 0 <= i < |ws| ==> IsSpace(ws[i])
    ensures StartsWith("ID=" + name + ws, "ID=") && IdValue("ID=" + name + ws) == name
  {
    var rest := name + ws;
    assert "ID=" + name + ws == "ID=" + rest;
    assert '=' !in rest by {
      assert forall x :: x in rest ==> x in name || x in ws;
    }
    IdValueOfRest(rest);
    StripPadded([], name, ws);
    assert [] + name + ws == rest;
    assert StripChar(name, '"') == name;
  }

  /** `ID="name"` followed by whitespace gives `name` as well. */
  lemma IdValueOfQuoted(name: string, ws: string)
    requires name != [] && '=' !in name && '=' !in ws
    requires name[0] != '"' && name[|name| - 1] != '"'
    requires forall i :: 0 <= i < |ws| ==> IsSpace(ws[i])
    ensures var line := "ID=" + ['"'] + name + ['"'] + ws;
      StartsWith(line, "ID=") && IdValue(line) == name
  {
    var quoted := ['"'] + name + ['"'];
    assert "ID=" + ['"'] + name + ['"'] + ws == "ID=" + (quoted + ws);
    IdValueOfRest(quoted + ws);
    StripPadded([], quoted, ws);
    assert [] + quoted + ws == quoted + ws;
    StripCharWrapped(name, '"');
  }

  // Dispatch.

  /** The installer branches of `install_docker_linux`. */
  datatype Branch = Apt | Yum | Pacman | Unsupported

  function BranchFor(distro: string): Branch {
    if distro == "ubuntu" || distro == "debian" then Apt
    else if distro == "centos" || distro == "rhel" || distro == "fedora" then Yum
    else if distro == "arch" then Pacman
    else Unsupported
  }

  /** The distributions the installer supports. */
  const SupportedDistros: set<string> := {"ubuntu", "debian", "centos", "rhel", "fedora", "arch"}

  /** A distribution gets an installer exactly when it is one of the six supported ones. */
  lemma DispatchSupported(distro: string)
    ensures BranchFor(distro) != Unsupported <==> distro in SupportedDistros
  {
  }

  /** When the answer comes from the marker files, some installer runs exactly when some marker exists. */
  lemma FallbackDispatch(markers: Markers)
    ensures BranchFor(Fallback(markers)) != Unsupported <==> markers.debian || markers.redhat || markers.arch
    ensures markers.debian ==> BranchFor(Fallback(markers)) == Apt
    ensures !markers.debian && markers.redhat ==> BranchFor(Fallback(markers)) == Yum
  {
  }

  /** Without a usable `ID=` line the marker files decide, and with one they are not consulted. */
  lemma DistroSource(release: Option<seq<string>>, markers: Markers)
    ensures release.None? ==> Distro(release, markers) == Fallback(markers)
    ensures release.Some? && ReleaseId(release.value).Some? ==>
      forall other: Markers :: Distro(release, other) == Distro(release, markers)
  {
  }

  // Architecture names.

  /** The architecture name in Docker's apt repository line. */
  function AptArch(machine: string): string {
    if machine == "x86_64" then "amd64"
    else if machine == "aarch64" then "arm64"
    else machine
  }

  /** The table changes only the two names it knows, and applying it twice changes nothing more. */
  lemma AptArchTable(machine: string)
    ensures AptArch(machine) == machine <==> machine != "x86_64" && machine != "aarch64"
    ensures AptArch(AptArch(machine)) == AptArch(machine)
  {
  }

  /** The architecture suffix of the standalone Compose download, `None` for an unsupported machine. */
  function ComposeArch(machine: string): Option<string> {
    if machine == "x86_64" then Some("x86_64")
    else if machine == "aarch64" || machine == "arm64" then Some("aarch64")
    else None
  }

  /** Exactly three machine names have a download; each maps to a name that maps to itself. */
  lemma ComposeArchTable(machine: string)
    ensures ComposeArch(machine).Some? <==> machine in {"x86_64", "aarch64", "arm64"}
    ensures ComposeArch(machine).Some? ==> ComposeArch(ComposeArch(machine).value) == ComposeArch(machine)
  {
  }

  // Command chains.

  /** One step of an installer branch. `AddGpgKey` is the key download and import, whose own fallbacks are not part of this model. */
  datatype Step = Command(text: string) | AddGpgKey

  /** The number of steps, from the first, that succeed before the first failure. */
  function FirstFailure(n: nat, ok: nat -> bool): (k: nat)
    ensures k <= n
  {
    if n == 0 then 0 else
      var k := FirstFailure(n - 1, ok);
      if k < n - 1 then k else if ok(n - 1) then n else n - 1
  }

  /** `FirstFailure` is the index of the first failing step: every step before it succeeds. */
  lemma {:induction false} FirstFailureIsFirst(n: nat, ok: nat -> bool)
    ensures forall i :: 0 <= i < FirstFailure(n, ok) ==> ok(i)
    ensures FirstFailure(n, ok) < n ==> !ok(FirstFailure(n, ok))
  {
    if n > 0 {
      FirstFailureIsFirst(n - 1, ok);
    }
  }

  /** The outcome of a branch: whether it returned `True`, and the steps it ran. */
  datatype ChainRun = ChainRun(success: bool, ran: seq<Step>)

  /** A branch run against the step outcomes `ok(0)`, `ok(1)`, …: it stops at the first failure, which still ran. */
  function Chain(chain: seq<Step>, ok: nat -> bool): ChainRun {
    var k := FirstFailure(|chain|, ok);
    if k == |chain| then ChainRun(true, chain) else ChainRun(false, chain[..k + 1])
  }

  /**
   * A branch succeeds exactly when every step does; it runs its steps in
   * order, every step but the last one run succeeded, and after a failure
   * nothing more runs.
   */
  lemma ChainStopsAtFirstFailure(chain: seq<Step>, ok: nat -> bool)
    ensures var r := Chain(chain, ok);
      (r.success <==> forall i :: 0 <= i < |chain| ==> ok(i)) &&
      |r.ran| <= |chain| && r.ran == chain[..|r.ran|] &&
      (forall i :: 0 <= i < |r.ran| - 1 ==> ok(i)) &&
      (r.success ==> r.ran == chain) &&
      (!r.success ==> r.ran != [] && !ok(|r.ran| - 1))
  {
    FirstFailureIsFirst(|chain|, ok);
    assert chain[..|chain|] == chain;
  }

  /** The steps of a branch with `if not success: return False` after each. */
  method RunChain(chain: seq<Step>, ok: nat -> bool) returns (r: ChainRun)
    ensures r == Chain(chain, ok)
  {
    for i := 0 to |chain|
      invariant FirstFailure(i, ok) == i
    {
      if !ok(i) {
        assert FirstFailure(i + 1, ok) == i;
        FirstFailureAfter(i + 1, |chain|, ok);
        return ChainRun(false, chain[..i + 1]);
      }
    }
    return ChainRun(true, chain);
  }

  /** Once a failure is found among the first `m` steps, more steps do not move it. */
  lemma {:induction false} FirstFailureAfter(m: nat, n: nat, ok: nat -> bool)
    requires m <= n && FirstFailure(m, ok) < m
    ensures FirstFailure(n, ok) == FirstFailure(m, ok)
    decreases n - m
  {
    if m < n {
      FirstFailureAfter(m, n - 1, ok);
    }
  }

  // The three Linux branches and the macOS one.

  const AptUpdate := "sudo apt-get update"
  const AptPrerequisites := "sudo apt-get install -y apt-transport-https ca-certificates curl gnupg lsb-release"
  const AptInstall := "sudo apt-get install -y docker-ce docker-ce-cli containerd.io docker-compose-plugin"
  const YumUtils := "sudo yum install -y yum-utils"
  const YumRepository := "sudo yum-config-manager --add-repo https://download.docker.com/linux/centos/docker-ce.repo"
  const YumInstall := "sudo yum install -y docker-ce docker-ce-cli containerd.io docker-compose-plugin"
  const PacmanInstall := "sudo pacman -S --noconfirm docker docker-compose"
  const StartDocker := "sudo systemctl start docker"
  const EnableDocker := "sudo systemctl enable docker"
  const HomebrewInstall := "/bin/bash -c \"$(curl -fsSL https://raw.githubusercontent.com/Homebrew/install/HEAD/install.sh)\""
  const BrewDocker := "brew install --cask docker"
  const Keyring := "/usr/share/keyrings/docker-archive-keyring.gpg"

  /** `os.getenv('USER', 'root')`. */
  function UserName(user: Option<string>): string {
    match user
    case Some(name) => name
    case None => "root"
  }

  function Usermod(user: Option<string>): string {
    "sudo usermod -aG docker " + UserName(user)
  }

  /** The repository line, with `signed-by` only when the keyring file exists after the key step. */
  function RepositoryCommand(arch: string, codename: string, keyringPresent: bool): string {
    var options := if keyringPresent then "[arch=" + arch + " signed-by=" + Keyring + "]" else "[arch=" + arch + "]";
    "echo \"deb " + options + " https://download.docker.com/linux/ubuntu " + codename +
      " stable\" | sudo tee /etc/apt/sources.list.d/docker.list > /dev/null"
  }

  /** What the apt branch needs from the machine besides its step outcomes. */
  datatype AptContext = AptContext(machine: string, codename: string, keyringPresent: bool)

  function AptChain(c: AptContext, user: Option<string>): seq<Step> {
    [Command(AptUpdate), Command(AptPrerequisites), AddGpgKey,
     Command(RepositoryCommand(AptArch(c.machine), c.codename, c.keyringPresent)),
     Command(AptUpdate), Command(AptInstall), Command(Usermod(user))]
  }

  function YumChain(user: Option<string>): seq<Step> {
    [Command(YumUtils), Command(YumRepository), Command(YumInstall),
     Command(StartDocker), Command(EnableDocker), Command(Usermod(user))]
  }

  function PacmanChain(user: Option<string>): seq<Step> {
    [Command(PacmanInstall), Command(StartDocker), Command(EnableDocker), Command(Usermod(user))]
  }

  /** `install_docker_macos`: Homebrew is installed first when `brew` is not on the `PATH`. */
  function MacChain(brewFound: bool): seq<Step> {
    (if brewFound then [] else [Command(HomebrewInstall)]) + [Command(BrewDocker)]
  }

  /** The chain of a supported branch; `None` for an unsupported distribution. */
  function LinuxChain(branch: Branch, c: AptContext, user: Option<string>): Option<seq<Step>> {
    match branch
    case Apt => Some(AptChain(c, user))
    case Yum => Some(YumChain(user))
    case Pacman => Some(PacmanChain(user))
    case Unsupported => None
  }

  /** Every Linux branch ends by adding the user to the `docker` group, and the service is started before it is enabled. */
  lemma LinuxChainsEndWithUsermod(branch: Branch, c: AptContext, user: Option<string>)
    ensures var chain := LinuxChain(branch, c, user);
      chain.Some? ==> chain.value != [] && chain.value[|chain.value| - 1] == Command(Usermod(user))
    ensures branch == Yum || branch == Pacman ==>
      var chain := LinuxChain(branch, c, user).value;
      exists i :: 0 <= i < |chain| - 1 && chain[i] == Command(StartDocker) && chain[i + 1] == Command(EnableDocker)
  {
    if branch == Yum {
      var chain := YumChain(user);
      assert chain[3] == Command(StartDocker) && chain[4] == Command(EnableDocker);
    } else if branch == Pacman {
      var chain := PacmanChain(user);
      assert chain[1] == Command(StartDocker) && chain[2] == Command(EnableDocker);
    }
  }

  // Verification.

  /**
   * What the verifications find at one moment: `shutil.which('docker')`, the
   * results of `docker --version` and `docker info`, of `docker compose
   * version`, `shutil.which('docker-compose')` and `docker-compose --version`.
   */
  datatype Probe = Probe(
    dockerFound: bool,
    dockerVersion: bool,
    dockerInfo: bool,
    composePlugin: bool,
    composeFound: bool,
    composeVersion: bool)

  /** `check_docker_installation`. */
  function DockerCheck(p: Probe): bool {
    p.dockerFound && p.dockerVersion && p.dockerInfo
  }

  /** The outcome of `check_docker_compose_installation` and the commands it ran, in order. */
  datatype ComposeRun = ComposeRun(ok: bool, ran: seq<string>)

  const ComposePluginCommand := "docker compose version"
  const ComposeStandaloneCommand := "docker-compose --version"

  /** `check_docker_compose_installation`: the plugin first; the standalone binary only when the plugin fails and the binary is found. */
  function ComposeCheck(p: Probe): ComposeRun {
    if p.composePlugin then ComposeRun(true, [ComposePluginCommand])
    else if p.composeFound then ComposeRun(p.composeVersion, [ComposePluginCommand, ComposeStandaloneCommand])
    else ComposeRun(false, [ComposePluginCommand])
  }

  /** Compose is verified when the plugin or the standalone binary answers; the plugin is always asked first. */
  lemma ComposePluginFirst(p: Probe)
    ensures ComposeCheck(p).ok <==> p.composePlugin || (p.composeFound && p.composeVersion)
    ensures ComposeCheck(p).ran[0] == ComposePluginCommand
    ensures |ComposeCheck(p).ran| > 1 <==> !p.composePlugin && p.composeFound
  {
  }

  /** Both verifications in the order `main` tests them. */
  function Verified(p: Probe): bool {
    DockerCheck(p) && ComposeCheck(p).ok
  }

  // `main`.

  /** What `main` learns from the machine; each field stands for a call outside this model. */
  datatype Machine = Machine(
    system: string,                     // `platform.system()`
    dockerFound: bool,                  // `check_command_exists('docker')`
    composeFound: bool,                 // `check_command_exists('docker-compose') or check_command_exists('docker compose')`
    release: Option<seq<string>>,       // the lines of `/etc/os-release`, if it can be read
    markers: Markers,
    apt: AptContext,                    // `platform.machine()`, `lsb_release -cs`, the keyring file after the key step
    user: Option<string>,               // the `USER` environment variable
    brewFound: bool,                    // `check_command_exists('brew')`
    stepOk: nat -> bool,                // does the i-th step of the installer branch succeed
    downloadOk: bool,                   // the standalone Compose binary downloads
    writeOk: bool,                      // and can be written to `/usr/local/bin/docker-compose`
    present: Probe,                     // the verifications before anything is installed
    installed: Probe,                   // the Compose verification right after the Linux branch
    final: Probe)                       // the final verification

  /** `main`'s exit status and the installer steps it ran. */
  datatype Outcome = Outcome(exitCode: int, ran: seq<Step>)

  /** `install_docker_compose_standalone`: a known architecture, a download and a write. */
  function Standalone(m: Machine): bool {
    ComposeArch(m.apt.machine).Some? && m.downloadOk && m.writeOk
  }

  /** The final verification's exit status. */
  function FinalCode(p: Probe): int {
    if Verified(p) then 0 else 1
  }

  function Install(m: Machine): Outcome {
    var system := Lower(m.system);
    if m.dockerFound && m.composeFound then Outcome(FinalCode(m.present), [])
    else if system == "linux" then
      match LinuxChain(BranchFor(Distro(m.release, m.markers)), m.apt, m.user)
      case None => Outcome(1, [])
      case Some(chain) =>
        var run := Chain(chain, m.stepOk);
        if !run.success then Outcome(1, run.ran)
        else if !ComposeCheck(m.installed).ok && !Standalone(m) then Outcome(1, run.ran)
        else Outcome(FinalCode(m.final), run.ran)
    else if system == "darwin" then
      var run := Chain(MacChain(m.brewFound), m.stepOk);
      if !run.success then Outcome(1, run.ran) else Outcome(FinalCode(m.final), run.ran)
    else if system == "windows" then
      // `install_docker_windows` returns whether `docker` is on the `PATH`
      if !m.dockerFound then Outcome(1, []) else Outcome(FinalCode(m.final), [])
    else Outcome(1, [])
  }

  /** `main` with its early returns. */
  method RunInstaller(m: Machine) returns (r: Outcome)
    ensures r == Install(m)
  {
    var system := Lower(m.system);
    if m.dockerFound && m.composeFound {
      return Outcome(FinalCode(m.present), []);
    }
    if system == "linux" {
      var distro := GetLinuxDistro(m.release, m.markers);
      var chain := LinuxChain(BranchFor(distro), m.apt, m.user);
      if chain.None? {
        return Outcome(1, []);
      }
      var run := RunChain(chain.value, m.stepOk);
      if !run.success {
        return Outcome(1, run.ran);
      }
      if !ComposeCheck(m.installed).ok && !Standalone(m) {
        return Outcome(1, run.ran);
      }
      return Outcome(FinalCode(m.final), run.ran);
    } else if system == "darwin" {
      var run := RunChain(MacChain(m.brewFound), m.stepOk);
      if !run.success {
        return Outcome(1, run.ran);
      }
      return Outcome(FinalCode(m.final), run.ran);
    } else if system == "windows" {
      if !m.dockerFound {
        return Outcome(1, []);
      }
      return Outcome(FinalCode(m.final), []);
    }
    return Outcome(1, []);
  }

  /** With Docker and Compose already on the `PATH` nothing is installed, and the status is that of the two verifications. */
  lemma AlreadyInstalled(m: Machine)
    requires m.dockerFound && m.composeFound
    ensures Install(m).ran == []
    ensures Install(m).exitCode == 0 <==> DockerCheck(m.present) && ComposeCheck(m.present).ok
  {
  }

  /** `main` ends with status 0 only after the final verifications pass, or the early ones when nothing was installed. */
  lemma InstallSucceeds(m: Machine)
    ensures Install(m).exitCode == 0 || Install(m).exitCode == 1
    ensures Install(m).exitCode == 0 ==>
      if m.dockerFound && m.composeFound then Verified(m.present) else Verified(m.final)
  {
  }

  /** On Linux, status 0 means every step of the selected branch ran and succeeded. */
  lemma LinuxInstallRanAll(m: Machine)
    requires !(m.dockerFound && m.composeFound) && Lower(m.system) == "linux"
    ensures var chain := LinuxChain(BranchFor(Distro(m.release, m.markers)), m.apt, m.user);
      Install(m).exitCode == 0 ==>
        chain.Some? && Install(m).ran == chain.value && forall i :: 0 <= i < |chain.value| ==> m.stepOk(i)
    ensures BranchFor(Distro(m.release, m.markers)) == Unsupported ==> Install(m) == Outcome(1, [])
  {
    var chain := LinuxChain(BranchFor(Distro(m.release, m.markers)), m.apt, m.user);
    if chain.Some? {
      ChainStopsAtFirstFailure(chain.value, m.stepOk);
    }
  }
}
