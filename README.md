# Rusty-Kaspa-Docker operator scripts, modelled in Dafny

Three Python scripts help an operator set up a Kaspa node in Docker:

- **`setup-wizard.py`** asks a series of questions on the terminal and writes the answers to a `.env` file. The questions cover:
  - network ports and the external IP;
  - the container name and image;
  - the data paths;
  - DNS servers and the user and group IDs;
  - file-descriptor limits;
  - the health-check timing.
- **`install-docker.py`** works out the platform and, on Linux, the distribution. It then runs the installer commands for that platform, installs a standalone Compose binary if needed, and finally checks that Docker and Compose work.
- **`pre-check.py`** runs nine system checks and reports how many passed. The checks are: the OS, Python, Docker, Compose, the required files, the ports, disk, memory and network.

The model keeps the decisions these scripts make. Everything they learn from the machine, and everything they do to it, becomes a field of a record passed in:

- a socket bind;
- a file that exists;
- a subprocess that succeeds;
- the lines typed at the terminal.

The parts of the scripts that loop and update local state are Dafny methods. Each method is proved equal to a specification function, and the properties the scripts promise are proved about those functions. This covers:

- `get_input`'s re-prompt loop;
- the `unavailable_ports` loop;
- the successive `config.update` calls;
- the `/etc/os-release` scan;
- the installer step chains;
- the all-of probe loops;
- the `MemAvailable` scan.

Modules:

- `Wrappers`: `Option` with early-return support.
- `Text`:
  - the parts of Python's `str` the scripts use: `strip()`, `strip('"')`, ASCII `lower()`, `startswith`, `in`, `split(c)` and `split()`;
  - `Join`, and the round trip between `Split` and `Join`.
- `Numbers`:
  - Python's `int(s)` for base-10 text: surrounding whitespace (the `strip()` set), a sign, and single underscores between digits;
  - `str(n)`;
  - the round trip `int(str(n)) == n`.
- `WizardInput`:
  - `get_input` over a finite sequence of typed lines;
  - `validate_port`, and `validate_ip` around an address oracle;
  - asking a list of prompts in order.
- `EnvFile`:
  - the `.env` template as data, and its rendering;
  - a reader that parses `KEY=value` lines back, proved to recover every assignment.
- `Wizard`:
  - the six configuration sections, with the port check and the restart of the network section;
  - the overwrite guard of `save_env_file`;
  - the whole session of `main`.
- `Installer`:
  - `get_linux_distro` and the dispatch to an installer branch;
  - the two architecture tables and the installer step chains;
  - both verifications and `main`.
- `PreCheck`:
  - the nine checks and `generate_report`;
  - `main`'s exit status.

Where the code and the scripts' documentation differ, the model follows the code:

- The wizard checks port availability inside the network section, right after the five network prompts. If the operator does not answer "y", the whole network section is asked again; nothing is merely confirmed.
- `check_python` is `major >= 3 and minor >= 6` taken literally, so Python 4.0 fails.
- No hardware scoring or performance tiers exist in the scripts, and none are modelled.

## Model

| member | source | states |
|---|---|---|
| Text.StripEnds | setup-wizard.py:59 | `strip()` leaves no whitespace at either end of its result |
| Text.StripWithout | setup-wizard.py:59 | `strip()` brings in no character the text did not hold |
| Text.StripIdempotent | setup-wizard.py:59 | stripping a stripped line changes nothing |
| Text.StripPadded | setup-wizard.py:59 | whitespace around a word is removed and the word kept exactly |
| Text.StripCharEnds | install-docker.py:100 | `strip('"')` leaves no quote at either end |
| Text.StripCharWrapped | install-docker.py:100 | a quoted name loses exactly its two quotes |
| Text.Lower | setup-wizard.py:191 | `lower()` keeps the length and maps each character on its own; what the replies need of it is `Text.LowerIsLetter` |
| Text.LowerIsLetter | setup-wizard.py:191 | a reply lowers to "y" exactly when it is "y" or "Y" |
| Text.ContainsAt | pre-check.py:189 | `w in s` holds exactly when `w` occurs at some position of `s` |
| Text.IndexOf | install-docker.py:100 | the index found holds the separator and no earlier position does |
| Text.IndexOfAfter | install-docker.py:100 | in `a + "=" + b` with no `=` in `a`, the first `=` sits right after `a` |
| Text.Split | install-docker.py:100 | `split(c)` yields at least one piece and no piece contains `c` |
| Text.JoinSplit | setup-wizard.py:323-364 | joining the pieces of `split(c)` with `c` gives back the text |
| Text.SplitAtFirst | install-docker.py:100 | splitting `a + c + b` gives `a` followed by the pieces of `b` |
| Text.SplitSecond | install-docker.py:100 | the second piece of a split is the text between the first two separators |
| Text.SplitJoin | setup-wizard.py:323-364 | splitting a join of separator-free pieces gives back the pieces |
| Text.WordLength | pre-check.py:190 | the first word runs to the first whitespace character |
| Text.WordLengthOf | pre-check.py:190 | a space-free word followed by whitespace or the end of the text is the whole first run |
| Text.DropSpaces | pre-check.py:190 | skipping leading whitespace leaves no longer text that starts with a non-space |
| Text.DropSpacesSplits | pre-check.py:190 | the text is what was skipped followed by what was kept, and what was skipped is all whitespace |
| Text.DropSpacesOf | pre-check.py:190 | any run of whitespace before a text that does not start with whitespace is exactly what is skipped |
| Text.Words | pre-check.py:190 | `split()` yields non-empty words without whitespace |
| Text.WordsNone | pre-check.py:190 | `split()` yields no word exactly when the text is all whitespace |
| Text.WordsOf | pre-check.py:190 | any leading whitespace, then a word, then whitespace or nothing: `split()` yields the word followed by the words of the rest |
| Numbers.DigitChar | setup-wizard.py:80 | the digit written for `d` reads back as `d` |
| Numbers.NatToString | setup-wizard.py:80 | `str(n)` of a natural number is a non-empty string of digits |
| Numbers.DecimalValueOfNatToString | setup-wizard.py:80 | the digits of `str(n)` denote `n` |
| Numbers.ParseDigitsOfNatToString | setup-wizard.py:78 | `int` of the digits of `str(n)` is `n` |
| Numbers.ParseIntRoundTrip | setup-wizard.py:78-80 | `int(str(n)) == n` for every integer, negative ones included |
| Numbers.NatToStringCanonical | setup-wizard.py:80 | `str(n)` starts with `0` only for zero, so it has no leading zeros |
| WizardInput.Ask | setup-wizard.py:51-73 | the reply comes from the first typed line the prompt accepts; every line before it was refused; with no acceptable line left, the input runs out |
| WizardInput.GetInput | setup-wizard.py:51-73 | the `while True` loop returns what `Ask` specifies |
| WizardInput.AskAnswered | setup-wizard.py:51-73 | a prompt's answer is what it made of one of the lines it consumed |
| WizardInput.AskBlankTakesDefault | setup-wizard.py:59-63 | an empty line with a non-empty default returns that default without running the validator |
| WizardInput.AskWithoutValidator | setup-wizard.py:59-73 | without a validator the stripped line is returned as typed |
| WizardInput.ValidatePortRange | setup-wizard.py:75-84 | a number is accepted exactly when it lies in 1..65535, and then as `str(int(s))` |
| WizardInput.ValidatePortTooLarge | setup-wizard.py:75-84 | "70000" is refused |
| WizardInput.ValidatePortNotNumber | setup-wizard.py:75-84 | "abc" is refused with the same error as an out-of-range number |
| WizardInput.ValidatePortCanonical | setup-wizard.py:75-84 | an accepted port denotes the number typed, and validating it again changes nothing |
| WizardInput.AskFields | setup-wizard.py:155-176 | asking a list of prompts yields one answer per prompt and consumes at least one line for each |
| WizardInput.AskFieldsCons | setup-wizard.py:155-176 | the first prompt is answered first and the rest from the line after its reply |
| WizardInput.AskFieldsAnswers | setup-wizard.py:155-176 | each answer is what its own prompt accepted from some line that was read |
| WizardInput.AttemptKeepsLines | setup-wizard.py:51-73 | a prompt whose default and validator keep text on one line answers a line without a line break with a value without one |
| WizardInput.PromptsKeepLines | setup-wizard.py:75-92 | `validate_port` (whose result is `str(int(s))`), `validate_ip` and a plain prompt keep text on one line when their default does |
| WizardInput.AskFieldsKeepLines | setup-wizard.py:155-176 | such prompts, over lines without line breaks, give answers without line breaks |
| WizardInput.AttemptPort | setup-wizard.py:155-170 | a port prompt with a valid default only produces canonical port strings |
| WizardInput.AskFieldsStep | setup-wizard.py:155-176 | one step of the prompt loop: a failed prompt ends it, an answer is appended |
| WizardInput.GetAnswers | setup-wizard.py:155-176 | the loop over the prompts returns what `AskFields` specifies |
| WizardInput.Defaults | setup-wizard.py:155-310 | there is one default per prompt |
| WizardInput.ToMapKeys | setup-wizard.py:194-200 | a section's dictionary has exactly its prompts' keys |
| WizardInput.ToMapValues | setup-wizard.py:194-200 | with distinct keys, each key maps to its own prompt's answer |
| WizardInput.ToMapFrom | setup-wizard.py:194-200 | every value of a section's dictionary is one of its answers |
| WizardInput.AskFieldsBlank | setup-wizard.py:59-63 | blank lines answer every prompt with its default, one line each |
| EnvFile.RenderLines | setup-wizard.py:323-364 | the template renders to one text line per template line |
| EnvFile.SettingKeysTail | setup-wizard.py:323-364 | the keys of a template tail are keys of the whole template |
| EnvFile.KeyLineParses | setup-wizard.py:323-364 | a rendered `KEY=value` line reads back as the pair `(KEY, value)` |
| EnvFile.EntriesOfRendered | setup-wizard.py:323-364 | the rendered lines read back as exactly the template's assignments, in order |
| EnvFile.RenderLineOneLine | setup-wizard.py:323-364 | a value without a line break renders to a single line |
| EnvFile.EntriesOfLinesBlankTail | setup-wizard.py:364 | the final line break adds no entry |
| EnvFile.RenderRoundTrip | setup-wizard.py:323-364 | reading the rendered `.env` back gives every constant and every filled-in assignment, in template order |
| EnvFile.SettingKeysConcat | setup-wizard.py:323-364 | the keys of two template blocks are the union of each block's keys |
| EnvFile.ServiceAndNetworkKeys | setup-wizard.py:327-338 | the service block fills three keys and the network block five |
| EnvFile.DataDnsUserResourceKeys | setup-wizard.py:340-354 | the data, DNS, user and resource blocks fill two keys each |
| EnvFile.HealthKeys | setup-wizard.py:356-364 | the health block fills four keys; the header and peers lines fill none |
| EnvFile.TemplateKeysByBlock | setup-wizard.py:323-364 | the template's keys are the union of its blocks' keys |
| EnvFile.TemplateKeysListed | setup-wizard.py:323-364 | the template's keys are exactly the twenty keys listed in template order |
| EnvFile.TemplateKeyListDistinct | setup-wizard.py:323-364 | no key is listed twice |
| EnvFile.TemplateKeyCount | setup-wizard.py:323-364 | the template consumes twenty distinct keys |
| EnvFile.ExpectedHas | setup-wizard.py:323-364 | every constant or filled-in template line has its pair among the expected entries |
| EnvFile.RenderedAssignments | setup-wizard.py:323-364 | the rendered `.env` holds `KEY=value` for each template key, plus `SERVICE_NAME=research-pad` and the `PEERS` line |
| Wizard.Unavailable | setup-wizard.py:180-185 | the refused ports are exactly the entered ports the availability oracle rejects |
| Wizard.CollectUnavailable | setup-wizard.py:180-185 | the `for port in ports` loop builds that list |
| Wizard.UnavailableEmpty | setup-wizard.py:187 | the warning appears exactly when some entered port is taken |
| Wizard.UnavailableAppend | setup-wizard.py:180-185 | the list keeps the entered order |
| Wizard.FieldSection | setup-wizard.py:202-317 | a section consumes at least one line per prompt |
| Wizard.AskSection | setup-wizard.py:202-317 | the section functions compute what `FieldSection` specifies |
| Wizard.Network | setup-wizard.py:143-200 | the network section consumes at least its five answer lines |
| Wizard.NetworkConfiguration | setup-wizard.py:143-200 | the section with its port check and its recursive restart computes what `Network` specifies |
| Wizard.NetworkKeys | setup-wizard.py:194-200 | a finished network section has exactly the five network keys |
| Wizard.NetworkPortsCanonical | setup-wizard.py:155-200 | all four ports of a finished network section passed `validate_port` and are in canonical form |
| Wizard.NetworkMap | setup-wizard.py:194-200 | the returned dictionary gives back the four ports in the order they were asked |
| Wizard.NetworkConfirmed | setup-wizard.py:187-200 | a network section that returns with a port in use was confirmed by a typed "y" |
| Wizard.NetworkFreeReturns | setup-wizard.py:180-200 | when every port entered is free, the section returns the five answers right after the last prompt, asks nothing more, and all its ports are free |
| Wizard.NetworkAcceptedReturns | setup-wizard.py:187-200 | with a port in use, a "y" or "Y" to the warning returns this round's five answers and ends the section on the line after the reply |
| Wizard.NetworkDeclinedRestarts | setup-wizard.py:187-192 | with a port in use, any reply but "y" or "Y" asks the whole section again from the line after the reply; input ending at the warning ends the section |
| Wizard.Update | setup-wizard.py:449-467 | `config.update(section())` reads on from where the last section stopped |
| Wizard.UpdateWith | setup-wizard.py:449-467 | one `config.update` step computes what `Update` specifies |
| Wizard.UpdateKeys | setup-wizard.py:449-467 | an update adds exactly the section's keys |
| Wizard.Configure | setup-wizard.py:449-467 | the six sections together never read beyond the typed lines |
| Wizard.PlainSections | setup-wizard.py:455-467 | the five sections after the network section read on from it |
| Wizard.ConfigureAll | setup-wizard.py:449-467 | building `config` computes what `Configure` specifies |
| Wizard.AskPlainSections | setup-wizard.py:455-467 | the five later `update` calls compute what `PlainSections` specifies |
| Wizard.NetworkSectionKeys | setup-wizard.py:194-200 | the network prompts' keys are distinct and are the template's network keys |
| Wizard.ContainerAndDataKeys | setup-wizard.py:223-251 | the container and data prompts' keys are distinct and match their template blocks |
| Wizard.SystemResourceHealthKeys | setup-wizard.py:271-317 | the system, resource and health prompts' keys are distinct and match their template blocks |
| Wizard.FieldSectionKeys | setup-wizard.py:202-317 | a finished section has exactly its prompts' keys |
| Wizard.PlainSectionsKeys | setup-wizard.py:455-467 | the five later sections add exactly their prompts' keys |
| Wizard.ConfigureKeysBySection | setup-wizard.py:449-467 | the merged `config` has exactly the union of the six sections' keys |
| Wizard.ConfigureKeys | setup-wizard.py:449-467 | the merged `config` has exactly the keys the template consumes, twenty by `EnvFile.TemplateKeyCount` |
| Wizard.P2pDefaultIsPort | setup-wizard.py:155 | the default P2P port "16111" passes `validate_port` unchanged |
| Wizard.GrpcDefaultIsPort | setup-wizard.py:160 | the default gRPC port "16110" passes `validate_port` unchanged |
| Wizard.WrpcBorshDefaultIsPort | setup-wizard.py:165 | the default wRPC Borsh port "17110" passes `validate_port` unchanged |
| Wizard.WrpcJsonDefaultIsPort | setup-wizard.py:170 | the default wRPC JSON port "18110" passes `validate_port` unchanged |
| Wizard.NetworkPortPrompt | setup-wizard.py:155-170 | each of the four port prompts validates ports and has a canonical default |
| Wizard.RoundPortsCanonical | setup-wizard.py:155-176 | one round of network prompts yields four canonical ports |
| Wizard.YesWasTyped | setup-wizard.py:51-73 | a "y" answer to a prompt with default "N" was typed, not defaulted |
| Wizard.SaveEnv | setup-wizard.py:319-380 | `save_env_file` never reads beyond the typed lines |
| Wizard.SaveEnvFile | setup-wizard.py:319-380 | `save_env_file` computes what `SaveEnv` specifies |
| Wizard.SaveEnvGuard | setup-wizard.py:366-380 | a written file is the rendered template; over an existing `.env` it needs a typed "y"; with no `.env` it is written exactly when the write succeeds, and nothing is asked |
| Wizard.SaveEnvOverwrite | setup-wizard.py:366-380 | over an existing `.env`, a "y" writes the rendered template when the write succeeds, any other reply writes nothing, and the save goes on after the reply |
| Wizard.RunWizard | setup-wizard.py:436-491 | `main` computes what `Session` specifies |
| Wizard.ConcludeSession | setup-wizard.py:472-483 | the save prompt and the exit prompt compute what `Conclude` specifies |
| Wizard.ConcludeWrites | setup-wizard.py:472-483 | whatever is saved is the rendered configuration, and the exit status is 0 or 1 |
| Wizard.ConcludeCancelled | setup-wizard.py:473-480 | answering "n" to the save prompt writes nothing |
| Wizard.ConcludeSaves | setup-wizard.py:473-476 | with no `.env` and a reply other than "n", the rendered configuration is written |
| Wizard.SessionWrites | setup-wizard.py:436-491 | a session writes only after `docker-compose.yml` was found and every section finished, and then writes the rendered configuration, whose keys are the template's twenty; the exit status is 0 or 1 |
| Wizard.SessionConcludes | setup-wizard.py:436-473 | once `docker-compose.yml` is found and every section is answered, the merged configuration has exactly the template's twenty keys and the session goes on to the save prompt |
| Wizard.NetworkFieldsKeepLines | setup-wizard.py:155-176 | the network prompts keep answers on one line |
| Wizard.ContainerDataFieldsKeepLines | setup-wizard.py:211-246 | the container and data prompts keep answers on one line |
| Wizard.SystemResourceFieldsKeepLines | setup-wizard.py:262-290 | the system and resource prompts keep answers on one line |
| Wizard.HealthFieldsKeepLines | setup-wizard.py:307-310 | the health prompts keep answers on one line |
| Wizard.FieldSectionOneLine | setup-wizard.py:202-310 | a section of one-line prompts, over lines without line breaks, returns values without them |
| Wizard.NetworkOneLine | setup-wizard.py:143-200 | the network section, restarts included, returns values without line breaks when the typed lines have none |
| Wizard.UpdateOneLine | setup-wizard.py:455-467 | `config.update` with such a section keeps every value free of line breaks |
| Wizard.PlainSectionsOneLine | setup-wizard.py:455-467 | the five later sections keep every value free of line breaks |
| Wizard.ConfigureValuesOneLine | setup-wizard.py:449-467 | typed lines without line breaks, as `input()` returns them, give a configuration whose values have none |
| Wizard.SessionReadsBack | setup-wizard.py:319-380 | from such lines, whatever a session writes reads back as every constant and every filled-in assignment of the template, in template order |
| Wizard.SessionCancelled | setup-wizard.py:473-480 | a session whose save prompt is answered "n" writes nothing |
| Wizard.SessionSaves | setup-wizard.py:436-483 | a session with no `.env` and a reply other than "n" writes the rendered configuration |
| Wizard.BlankSection | setup-wizard.py:202-317 | blank lines give a section its defaults |
| Wizard.BlankNetwork | setup-wizard.py:143-200 | blank lines with the default ports free give the default network section, with no restart |
| Wizard.BlankConfigure | setup-wizard.py:449-467 | twenty blank lines give the configuration made of all the defaults |
| Wizard.BlankPlainSections | setup-wizard.py:455-467 | blank lines give the five later sections their defaults |
| Wizard.BlankConclude | setup-wizard.py:472-483 | blank save and exit replies write the rendered configuration and exit 0 |
| Wizard.BlankSession | setup-wizard.py:436-483 | with all-default input, no `.env` and the default ports free, the wizard writes the rendered default configuration, whose keys are the template's twenty, and exits 0 |
| Installer.GetLinuxDistro | install-docker.py:94-112 | the loop over `/etc/os-release` with its early `return`, then the fallback chain, computes what `Distro` specifies |
| Installer.ReleaseIdSkips | install-docker.py:98-99 | lines that do not start with `ID=` are passed over |
| Installer.ReleaseIdFirst | install-docker.py:98-100 | the id comes from the first line that starts with `ID=`, and only that one |
| Installer.ReleaseIdNone | install-docker.py:98-102 | the file gives no id exactly when no line starts with `ID=` |
| Installer.OtherIdKeys | install-docker.py:99 | `VERSION_ID=` and `ID_LIKE=` lines never match |
| Installer.IdValueOfRest | install-docker.py:100 | on an `ID=` line with no second `=`, the value is the text after `ID=`, stripped of whitespace and then of quotes |
| Installer.IdValueBetween | install-docker.py:100 | on an `ID=` line with a second `=`, the value is the text between the first and second `=`, stripped of whitespace and then of quotes |
| Installer.IdValueOf | install-docker.py:100 | `ID=name` followed by whitespace gives `name` |
| Installer.IdValueOfQuoted | install-docker.py:100 | `ID="name"` followed by whitespace gives `name` |
| Installer.DispatchSupported | install-docker.py:119-128 | a distribution gets an installer branch exactly when it is one of ubuntu, debian, centos, rhel, fedora or arch |
| Installer.FallbackDispatch | install-docker.py:104-112 | the marker files are tried in order debian, rhel, arch; without any marker the result is unsupported |
| Installer.DistroSource | install-docker.py:96-112 | an unreadable file means the markers decide; an `ID=` line decides whatever the markers say |
| Installer.AptArchTable | install-docker.py:180-184 | apt renames only `x86_64` and `aarch64`, and the renaming is idempotent |
| Installer.ComposeArchTable | install-docker.py:329-336 | exactly `x86_64`, `aarch64` and `arm64` have a Compose download, and the result maps to itself |
| Installer.FirstFailure | install-docker.py:130-269 | the first failing step lies within the chain |
| Installer.FirstFailureIsFirst | install-docker.py:130-269 | every step before the first failure succeeds, and the first failure fails |
| Installer.ChainStopsAtFirstFailure | install-docker.py:213-269 | a branch succeeds exactly when every step does; it runs a prefix of its steps in order; after a failure nothing more runs |
| Installer.RunChain | install-docker.py:213-269 | running steps with early `return False` computes what `Chain` specifies |
| Installer.FirstFailureAfter | install-docker.py:130-269 | a failure among the first steps stays the first failure however long the chain |
| Installer.LinuxChainsEndWithUsermod | install-docker.py:130-269 | every Linux branch ends by adding the user to the `docker` group; yum and pacman start the service right before enabling it |
| Installer.ComposePluginFirst | install-docker.py:393-411 | Compose is verified exactly when the plugin or the standalone binary answers; the plugin is always asked first |
| Installer.RunInstaller | install-docker.py:413-467 | `main` with its early returns computes what `Install` specifies |
| Installer.AlreadyInstalled | install-docker.py:425-432 | with Docker and Compose present nothing is installed, and the exit status is 0 exactly when both verifications pass |
| Installer.InstallSucceeds | install-docker.py:413-467 | the exit status is 0 or 1, and 0 only after the verifications pass |
| Installer.LinuxInstallRanAll | install-docker.py:435-442 | a successful Linux install ran its whole branch and every step succeeded; an unsupported distribution runs nothing and exits 1 |
| PreCheck.CheckOsNames | pre-check.py:49-57 | the OS check passes exactly for windows, linux and darwin in any letter case |
| PreCheck.LowerIdempotent | pre-check.py:51 | lowering a lowered name changes nothing |
| PreCheck.CheckPythonLiteral | pre-check.py:59-67 | the version check is `major >= 3 and minor >= 6`, so 3.6 passes and 4.0 fails |
| PreCheck.AllPassIff | pre-check.py:130-146 | the all-of flag is set exactly when every item passes |
| PreCheck.AllPassAppend | pre-check.py:130-146 | probing one more item clears the flag exactly when that item fails |
| PreCheck.ProbeAll | pre-check.py:130-146 | the loop that clears a flag probes every item in order, with no early exit |
| PreCheck.CheckPorts | pre-check.py:130-146 | all four ports are probed in order, and the check passes exactly when each binds |
| PreCheck.CheckRequiredFiles | pre-check.py:215-231 | all three files are looked up in order, and the check passes exactly when each exists |
| PreCheck.ScanMeminfo | pre-check.py:188-192 | the scan with its `break` finds what `MemLine` specifies |
| PreCheck.MemLineFirst | pre-check.py:188-192 | the first line that contains `MemAvailable` is the one read |
| PreCheck.MemLineNone | pre-check.py:188-192 | no line is found exactly when none contains `MemAvailable` |
| PreCheck.LineKbOf | pre-check.py:190 | a line of a name, a number and a unit, with any non-empty whitespace runs between them and any before, reads as that number (so `MemAvailable:    8000000 kB` reads as 8000000); so does a line that ends right after the number |
| PreCheck.LineKbShort | pre-check.py:190 | a line holding only its first word, whatever the padding, reads as no number, so `split()[1]` fails |
| PreCheck.CheckMemoryMeminfo | pre-check.py:182-213 | on Linux, when the first line that contains `MemAvailable` is a padded `name kb unit` line, memory passes exactly when `kb` reaches 2·1024² |
| PreCheck.CheckMemoryLinux | pre-check.py:182-213 | on Linux, memory passes exactly when the first `MemAvailable` line reads at least 2·1024² kB; with no such line it fails (which line that is: `PreCheck.MemLineFirst`; how it reads: `PreCheck.LineKbOf`) |
| PreCheck.CheckDiskThreshold | pre-check.py:148-180 | disk passes exactly when the free bytes found reach 10·1024³; with no `statvfs`, `disk_usage` decides |
| PreCheck.Passed | pre-check.py:263 | the pass count never exceeds the number of checks |
| PreCheck.PassedAll | pre-check.py:263-273 | the count reaches the total exactly when every check passed |
| PreCheck.PassedCounts | pre-check.py:263 | the count is the number of `True` results |
| PreCheck.ReportOk | pre-check.py:258-273 | the report succeeds exactly when every check passed, and its total is the number of checks |
| PreCheck.Results | pre-check.py:280-290 | `main` gathers nine results |
| PreCheck.RunPreCheck | pre-check.py:275-299 | all nine checks run, whatever the earlier ones found, followed by the report and the exit status |
| PreCheck.ExitCodeAllPass | pre-check.py:275-299 | the exit status is 0 exactly when all nine checks pass, and is otherwise 1 |

## Left out

- Terminal output is not modelled: colours, `clear_screen`, headers, the summary and the next-steps text.
- The float formatting of sizes is not modelled.
- Subprocesses, socket binds, file reads and writes, `os.statvfs`, `shutil.disk_usage`, `psutil`, `vm_stat` and HTTP downloads are not modelled. Each one's outcome is a field of the `Host` or `Machine` record.
- `validate_ip` relies on `socket.inet_aton`, so the address check is the oracle `validIp`; the forms it accepts are library behaviour.
- `validate_path` is not modelled: no prompt uses it, and it depends on the filesystem.
- The local-IP detection in `get_system_info` is not modelled. It appears only in a printed message. The same function's Windows data directory is modelled as `Host.windows`.
- `Wizard.Network`: port availability is one fixed oracle for the whole session, so the model does not capture the machine changing between restarts.
- The interpreter's recursion limit on repeated network restarts is not modelled; the restarts are bounded by the finite input.
- `KeyboardInterrupt` is not modelled.
- An exception in the middle of writing `.env` is modelled as no file written, so a partial write is not captured.
- Running out of typed lines is an `EOFError`, which `main` turns into exit status 1. The model folds that path into the `None` answers.
- `Text.Lower` lowers ASCII letters only. This is exact for every comparison the scripts make, which are against "y", "n", "linux", "darwin" and "windows".
- `Numbers.ParseInt` accepts ASCII digits only, while Python's `int` also accepts other Unicode decimal digits.
- `Numbers.ParseInt` removes the whole `strip()` whitespace set around the number. Python's `int` does not skip the ASCII separators U+001C to U+001F, so `int('\x1c5')` raises where the model reads 5. Neither caller can pass such text: `validate_port` receives an already stripped line, and `check_memory` a word of `split()`.
- `Numbers.ParseInt` reads a digit body of any length. Python 3.11 and later, and the security releases 3.7.14, 3.8.14, 3.9.14 and 3.10.7, refuse base-10 text of more than 4300 digits with `ValueError`, leading zeros included. So `"0"*4300 + "1"` typed at a port prompt is refused there and asked again, where `WizardInput.ValidatePort` accepts it as "1".
- `Installer.AptChain`: the GPG-key step with its `apt-key` fallback is one abstract step whose outcome comes from the oracle.
- `Installer.Install`: `check_command_exists('docker compose')` is folded into the `composeFound` oracle.
- The Compose release lookup and its fallback version are not modelled. Only the architecture, download and write outcomes decide the standalone install.
- A failing `lsb_release` call is not modelled. Its output is a field of the `AptContext` record.
- `install_docker_windows` and `install_docker_macos` are kept only as far as their outcomes: on Windows, whether `docker` is found; on macOS, the Homebrew and `brew install` steps.
- `check_docker`, `check_docker_compose` and `check_network` in `pre-check.py` are not modelled. Their verdicts are `Machine` fields.
- The macOS `vm_stat` parse is not modelled. It assumes 4 GB whenever `vm_stat` succeeds.
- `PreCheck.CheckMemory` and `PreCheck.CheckDiskSpace` compare integers with 2·1024² kB and 10·1024³ bytes. The source divides two integers in binary floating point. Python rounds that quotient correctly, and both thresholds are exact in floating point, so every comparison agrees with the model's. The source differs only when the quotient is too large for a float (about 1.8·10³⁰⁸). Then Python raises `OverflowError`. `check_memory` catches it and fails, where the model passes; a `MemAvailable` figure of more than 4300 digits likewise fails there, through `int()`'s `ValueError` on the interpreters that limit digits, and passes in the model. `check_disk_space` does not catch it, so the script stops with the error.
