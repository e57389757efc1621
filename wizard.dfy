/**
 * The setup wizard's sections and the session around them: the network
 * section with its port-availability check and restart, the five plain
 * sections, the save step with its overwrite guard, and `main`, which merges
 * the sections with `config.update` and ends with one more "Press Enter".
 */
module Wizard {
  import opened Wrappers
  import opened Text
  import opened Numbers
  import opened WizardInput
  import opened EnvFile

  /** What the wizard learns from the machine it runs on; each field stands for a call outside this model. */
  datatype Host = Host(
    composeFilePresent: bool,     // `Path('docker-compose.yml').exists()`
    envFilePresent: bool,         // `Path('.env').exists()`
    windows: bool,                // `platform.system() == 'Windows'`
    portFree: string -> bool,     // `check_port_available`: binding 127.0.0.1 at that port succeeds
    validIp: string -> bool,      // `socket.inet_aton` accepts the text
    writeSucceeds: bool)          // opening `.env` for writing and writing it raise nothing

  // The prompts of each section, with their defaults.

  function NetworkFields(validIp: string -> bool): seq<Field> {
    [Field(P2pPort, PortPrompt("16111")),
     Field(GrpcPort, PortPrompt("16110")),
     Field(WrpcBorshPort, PortPrompt("17110")),
     Field(WrpcJsonPort, PortPrompt("18110")),
     Field(ExternalIp, IpPrompt(validIp, "0.0.0.0"))]
  }

  const ContainerFields: seq<Field> := [
    Field(ContainerName, PlainPrompt("kaspa-node")),
    Field(ImageName, PlainPrompt("local/research-pad")),
    Field(ImageTag, PlainPrompt("latest"))
  ]

  /** `get_system_info`'s default data directory. */
  function DefaultDataDir(windows: bool): string {
    if windows then ".\\kaspa-data" else "./kaspa-data"
  }

  function DataFields(windows: bool): seq<Field> {
    [Field(DataVolumePath, PlainPrompt(DefaultDataDir(windows))),
     Field(AppDataPath, PlainPrompt("/app/data"))]
  }

  const SystemFields: seq<Field> := [
    Field(DnsPrimary, PlainPrompt("8.8.8.8")),
    Field(DnsSecondary, PlainPrompt("1.1.1.1")),
    Field(UserId, PlainPrompt("0")),
    Field(GroupId, PlainPrompt("0"))
  ]

  const ResourceFields: seq<Field> := [
    Field(UlimitSoft, PlainPrompt("1048576")),
    Field(UlimitHard, PlainPrompt("1048576"))
  ]

  const HealthFields: seq<Field> := [
    Field(HealthCheckInterval, PlainPrompt("30s")),
    Field(HealthCheckTimeout, PlainPrompt("5s")),
    Field(HealthCheckRetries, PlainPrompt("20")),
    Field(HealthCheckStartPeriod, PlainPrompt("60s"))
  ]

  /** "Continue anyway? (y/N)" */
  const ContinuePrompt: Prompt := PlainPrompt("N")

  /** "A .env file already exists. Overwrite it? (y/N)" */
  const OverwritePrompt: Prompt := PlainPrompt("N")

  /** "Save this configuration? (Y/n)" */
  const SavePrompt: Prompt := PlainPrompt("Y")

  // The port-availability check.

  /** The entered ports the availability check rejects, in the order they were entered. */
  function Unavailable(ports: seq<string>, free: string -> bool): (r: seq<string>)
    ensures |r| <= |ports|
    ensures forall p :: p in r <==> p in ports && !free(p)
  {
    if ports == [] then []
    else
      var last := ports[|ports| - 1];
      Unavailable(ports[..|ports| - 1], free) + (if free(last) then [] else [last])
  }

  /** The `for port in ports` loop that fills `unavailable_ports`. */
  method CollectUnavailable(ports: seq<string>, free: string -> bool) returns (busy: seq<string>)
    ensures busy == Unavailable(ports, free)
  {
    busy := [];
    for i := 0 to |ports|
      invariant busy == Unavailable(ports[..i], free)
    {
      assert ports[..i + 1][..i] == ports[..i];
      if !free(ports[i]) {
        busy := busy + [ports[i]];
      }
    }
    assert ports[..|ports|] == ports;
  }

  /** The warning appears exactly when some entered port is taken. */
  lemma UnavailableEmpty(ports: seq<string>, free: string -> bool)
    ensures Unavailable(ports, free) == [] <==> forall i :: 0 <= i < |ports| ==> free(ports[i])
  {
    if Unavailable(ports, free) != [] {
      var p := Unavailable(ports, free)[0];
      assert p in Unavailable(ports, free);
    }
  }

  /** The check keeps the entered order: it filters each part of the list in turn. */
  lemma {:induction false} UnavailableAppend(a: seq<string>, b: seq<string>, free: string -> bool)
    ensures Unavailable(a + b, free) == Unavailable(a, free) + Unavailable(b, free)
    decreases |b|
  {
    if b == [] {
      assert a + b == a;
    } else {
      var init := b[..|b| - 1];
      assert (a + b)[..|a + b| - 1] == a + init;
      UnavailableAppend(a, init, free);
    }
  }

  // Sections.

  /** A section's dictionary and the first input line it did not consume. */
  datatype Section = Section(values: map<string, string>, next: nat)

  /** A section that only asks its prompts in order and returns them as a dictionary. */
  function FieldSection(fields: seq<Field>, lines: seq<string>, pos: nat): (r: Option<Section>)
    requires pos <= |lines|
    ensures r.Some? ==> pos + |fields| <= r.value.next <= |lines|
  {
    var answers :- AskFields(fields, lines, pos);
    Some(Section(ToMap(fields, answers.values), answers.next))
  }

  method AskSection(fields: seq<Field>, lines: seq<string>, pos: nat) returns (r: Option<Section>)
    requires pos <= |lines|
    ensures r == FieldSection(fields, lines, pos)
  {
    var answers := GetAnswers(fields, lines, pos);
    if answers.None? {
      return None;
    }
    return Some(Section(ToMap(fields, answers.value.values), answers.value.next));
  }

  /**
   * `network_configuration`: five prompts, then the availability check of
   * the four ports; when some are taken and the reply to the warning is not
   * `y`, the whole section starts again from the next input line.
   */
  function Network(host: Host, lines: seq<string>, pos: nat): (r: Option<Section>)
    requires pos <= |lines|
    ensures r.Some? ==> pos + 5 <= r.value.next <= |lines|
    decreases |lines| - pos
  {
    var fields := NetworkFields(host.validIp);
    var answers :- AskFields(fields, lines, pos);
    var section := Section(ToMap(fields, answers.values), answers.next);
    if Unavailable(answers.values[..4], host.portFree) == [] then Some(section)
    else
      var reply :- Ask(ContinuePrompt, lines, answers.next);
      if Lower(reply.answer) != "y" then Network(host, lines, reply.next)
      else Some(section.(next := reply.next))
  }

  method NetworkConfiguration(host: Host, lines: seq<string>, pos: nat) returns (r: Option<Section>)
    requires pos <= |lines|
    ensures r == Network(host, lines, pos)
    decreases |lines| - pos
  {
    var fields := NetworkFields(host.validIp);
    var answers := GetAnswers(fields, lines, pos);
    if answers.None? {
      return None;
    }
    var values := answers.value.values;
    var busy := CollectUnavailable([values[0], values[1], values[2], values[3]], host.portFree);
    assert [values[0], values[1], values[2], values[3]] == values[..4];
    if busy == [] {
      return Some(Section(ToMap(fields, values), answers.value.next));
    }
    var reply := GetInput(ContinuePrompt, lines, answers.value.next);
    if reply.None? {
      return None;
    }
    if Lower(reply.value.answer) != "y" {
      r := NetworkConfiguration(host, lines, reply.value.next);
      return;
    }
    return Some(Section(ToMap(fields, values), reply.value.next));
  }

  /** `config.update(section())`: the section's answers laid over the configuration gathered so far. */
  function Update(config: Section, fields: seq<Field>, lines: seq<string>): (r: Option<Section>)
    requires config.next <= |lines|
    ensures r.Some? ==> config.next <= r.value.next <= |lines|
  {
    var section :- FieldSection(fields, lines, config.next);
    Some(Section(config.values + section.values, section.next))
  }

  method UpdateWith(config: Section, fields: seq<Field>, lines: seq<string>) returns (r: Option<Section>)
    requires config.next <= |lines|
    ensures r == Update(config, fields, lines)
  {
    var section := AskSection(fields, lines, config.next);
    if section.None? {
      return None;
    }
    return Some(Section(config.values + section.value.values, section.value.next));
  }

  /** The six sections in `main`'s order, starting from the empty `config`. */
  function Configure(host: Host, lines: seq<string>): (r: Option<Section>)
    ensures r.Some? ==> r.value.next <= |lines|
  {
    var network :- Network(host, lines, 0);
    PlainSections(Section(map[] + network.values, network.next), host.windows, lines)
  }

  /** The five sections after the network one, each merged with `config.update`. */
  function PlainSections(config: Section, windows: bool, lines: seq<string>): (r: Option<Section>)
    requires config.next <= |lines|
    ensures r.Some? ==> config.next <= r.value.next <= |lines|
  {
    var config :- Update(config, ContainerFields, lines);
    var config :- Update(config, DataFields(windows), lines);
    var config :- Update(config, SystemFields, lines);
    var config :- Update(config, ResourceFields, lines);
    Update(config, HealthFields, lines)
  }

  // Saving.

  /** What saving wrote to `.env`, if anything, and the first input line not consumed. */
  datatype Saved = Saved(written: Option<string>, next: nat)

  /** The outcome of `open('.env', 'w')` and `write`: the text, or nothing when either raises. */
  function Write(host: Host, content: string): Option<string> {
    if host.writeSucceeds then Some(content) else None
  }

  /**
   * `save_env_file`: the template is filled in first; an existing `.env` is
   * only replaced after a `y` to the overwrite question.
   */
  function SaveEnv(host: Host, config: map<string, string>, lines: seq<string>, pos: nat): (r: Option<Saved>)
    requires TemplateKeys() <= config.Keys
    requires pos <= |lines|
    ensures r.Some? ==> pos <= r.value.next <= |lines|
  {
    var content := Render(config);
    if host.envFilePresent then
      var reply :- Ask(OverwritePrompt, lines, pos);
      if Lower(reply.answer) != "y" then Some(Saved(None, reply.next))
      else Some(Saved(Write(host, content), reply.next))
    else
      Some(Saved(Write(host, content), pos))
  }

  method SaveEnvFile(host: Host, config: map<string, string>, lines: seq<string>, pos: nat) returns (r: Option<Saved>)
    requires TemplateKeys() <= config.Keys
    requires pos <= |lines|
    ensures r == SaveEnv(host, config, lines, pos)
  {
    var content := Render(config);
    var next := pos;
    if host.envFilePresent {
      var reply := GetInput(OverwritePrompt, lines, pos);
      if reply.None? {
        return None;
      }
      next := reply.value.next;
      if Lower(reply.value.answer) != "y" {
        return Some(Saved(None, next));
      }
    }
    if host.writeSucceeds {
      return Some(Saved(Some(content), next));
    }
    return Some(Saved(None, next));
  }

  // The session.

  /** The exit status of `main` and what it wrote to `.env`. */
  datatype Run = Run(exitCode: int, written: Option<string>)

  /**
   * The closing "Press Enter to exit...": it needs one more line; without
   * one, the `EOFError` ends the script with status 1 after the save.
   */
  function Finish(lines: seq<string>, pos: nat, written: Option<string>): Run {
    if pos < |lines| then Run(0, written) else Run(1, written)
  }

  /**
   * `main` over the operator's input lines. Running out of input anywhere
   * raises `EOFError`, which the `except Exception` branch turns into status 1
   * (its own "Press Enter" cannot read a line either, which also ends with 1).
   */
  function Session(host: Host, lines: seq<string>): Run {
    if !host.composeFilePresent then Run(1, None)
    else
      match Configure(host, lines)
      case None => Run(1, None)
      case Some(config) =>
        ConfigureKeys(host, lines);
        Conclude(host, lines, config)
  }

  /** The end of `main` once the sections are done: the save question, `save_env_file`, then "Press Enter". */
  function Conclude(host: Host, lines: seq<string>, config: Section): Run
    requires config.next <= |lines| && TemplateKeys() <= config.values.Keys
  {
    match Ask(SavePrompt, lines, config.next)
    case None => Run(1, None)
    case Some(save) =>
      if Lower(save.answer) == "n" then Finish(lines, save.next, None)
      else
        match SaveEnv(host, config.values, lines, save.next)
        case None => Run(1, None)
        case Some(saved) => Finish(lines, saved.next, saved.written)
  }

  /** The section calls of `main`, each merged into `config` with `config.update`. */
  method ConfigureAll(host: Host, lines: seq<string>) returns (r: Option<Section>)
    ensures r == Configure(host, lines)
  {
    var config: map<string, string> := map[];
    var network := NetworkConfiguration(host, lines, 0);
    if network.None? {
      return None;
    }
    r := AskPlainSections(Section(config + network.value.values, network.value.next), host.windows, lines);
  }

  method AskPlainSections(config: Section, windows: bool, lines: seq<string>) returns (r: Option<Section>)
    requires config.next <= |lines|
    ensures r == PlainSections(config, windows, lines)
  {
    r := UpdateWith(config, ContainerFields, lines);
    if r.None? {
      return;
    }
    r := UpdateWith(r.value, DataFields(windows), lines);
    if r.None? {
      return;
    }
    r := UpdateWith(r.value, SystemFields, lines);
    if r.None? {
      return;
    }
    r := UpdateWith(r.value, ResourceFields, lines);
    if r.None? {
      return;
    }
    r := UpdateWith(r.value, HealthFields, lines);
  }

  method RunWizard(host: Host, lines: seq<string>) returns (r: Run)
    ensures r == Session(host, lines)
  {
    if !host.composeFilePresent {
      return Run(1, None);
    }
    var config := ConfigureAll(host, lines);
    if config.None? {
      return Run(1, None);
    }
    ConfigureKeys(host, lines);
    r := ConcludeSession(host, lines, config.value);
  }

  /** The save question, `save_env_file` and the closing "Press Enter". */
  method ConcludeSession(host: Host, lines: seq<string>, config: Section) returns (r: Run)
    requires config.next <= |lines| && TemplateKeys() <= config.values.Keys
    ensures r == Conclude(host, lines, config)
  {
    var save := GetInput(SavePrompt, lines, config.next);
    if save.None? {
      return Run(1, None);
    }
    if Lower(save.value.answer) == "n" {
      return Finish(lines, save.value.next, None);
    }
    var saved := SaveEnvFile(host, config.values, lines, save.value.next);
    if saved.None? {
      return Run(1, None);
    }
    return Finish(lines, saved.value.next, saved.value.written);
  }

  // Properties.

  /** The network section asks for exactly the keys of the template's network block, each once. */
  lemma NetworkSectionKeys(validIp: string -> bool)
    ensures DistinctKeys(NetworkFields(validIp)) && KeySet(NetworkFields(validIp)) == SettingKeys(NetworkBlock)
  {
    ServiceAndNetworkKeys();
    var n := NetworkFields(validIp);
    assert n[0].key == P2pPort && n[1].key == GrpcPort && n[2].key == WrpcBorshPort;
    assert n[3].key == WrpcJsonPort && n[4].key == ExternalIp;
  }

  /** The container and data sections ask for the keys of the service and data blocks. */
  lemma ContainerAndDataKeys(windows: bool)
    ensures DistinctKeys(ContainerFields) && KeySet(ContainerFields) == SettingKeys(ServiceBlock)
    ensures DistinctKeys(DataFields(windows)) && KeySet(DataFields(windows)) == SettingKeys(DataBlock)
  {
    ServiceAndNetworkKeys();
    DataDnsUserResourceKeys();
    var c, d := ContainerFields, DataFields(windows);
    assert c[0].key == ContainerName && c[1].key == ImageName && c[2].key == ImageTag;
    assert d[0].key == DataVolumePath && d[1].key == AppDataPath;
  }

  /** The system section covers the DNS and user blocks; resources and health their own blocks. */
  lemma SystemResourceHealthKeys()
    ensures DistinctKeys(SystemFields) && KeySet(SystemFields) == SettingKeys(DnsBlock) + SettingKeys(UserBlock)
    ensures DistinctKeys(ResourceFields) && KeySet(ResourceFields) == SettingKeys(ResourceBlock)
    ensures DistinctKeys(HealthFields) && KeySet(HealthFields) == SettingKeys(HealthBlock)
  {
    DataDnsUserResourceKeys();
    HealthKeys();
    var s, r, h := SystemFields, ResourceFields, HealthFields;
    assert s[0].key == DnsPrimary && s[1].key == DnsSecondary && s[2].key == UserId && s[3].key == GroupId;
    assert r[0].key == UlimitSoft && r[1].key == UlimitHard;
    assert h[0].key == HealthCheckInterval && h[1].key == HealthCheckTimeout;
    assert h[2].key == HealthCheckRetries && h[3].key == HealthCheckStartPeriod;
  }

  /** An update adds exactly the section's keys. */
  lemma UpdateKeys(config: Section, fields: seq<Field>, lines: seq<string>)
    requires config.next <= |lines|
    ensures Update(config, fields, lines).Some? ==>
      Update(config, fields, lines).value.values.Keys == config.values.Keys + KeySet(fields)
  {
    FieldSectionKeys(fields, lines, config.next);
  }

  /** The merged configuration has exactly the keys the template's `format` consumes. */
  lemma ConfigureKeys(host: Host, lines: seq<string>)
    ensures Configure(host, lines).Some? ==> Configure(host, lines).value.values.Keys == TemplateKeys()
  {
    if Configure(host, lines).Some? {
      ConfigureKeysBySection(host, lines);
      NetworkSectionKeys(host.validIp);
      ContainerAndDataKeys(host.windows);
      SystemResourceHealthKeys();
      TemplateKeysByBlock();
    }
  }

  /** The merged configuration's keys, section by section. */
  lemma ConfigureKeysBySection(host: Host, lines: seq<string>)
    ensures Configure(host, lines).Some? ==>
      Configure(host, lines).value.values.Keys ==
      KeySet(NetworkFields(host.validIp)) + KeySet(ContainerFields) + KeySet(DataFields(host.windows))
      + KeySet(SystemFields) + KeySet(ResourceFields) + KeySet(HealthFields)
  {
    var network := Network(host, lines, 0);
    if network.Some? {
      NetworkKeys(host, lines, 0);
      PlainSectionsKeys(Section(map[] + network.value.values, network.value.next), host.windows, lines);
    }
  }

  /** The five plain sections add exactly their keys. */
  lemma PlainSectionsKeys(config: Section, windows: bool, lines: seq<string>)
    requires config.next <= |lines|
    ensures var r := PlainSections(config, windows, lines);
      r.Some? ==>
        r.value.values.Keys == config.values.Keys + KeySet(ContainerFields) + KeySet(DataFields(windows))
          + KeySet(SystemFields) + KeySet(ResourceFields) + KeySet(HealthFields)
  {
    UpdateKeys(config, ContainerFields, lines);
    var c1 := Update(config, ContainerFields, lines);
    if c1.Some? {
      UpdateKeys(c1.value, DataFields(windows), lines);
      var c2 := Update(c1.value, DataFields(windows), lines);
      if c2.Some? {
        UpdateKeys(c2.value, SystemFields, lines);
        var c3 := Update(c2.value, SystemFields, lines);
        if c3.Some? {
          UpdateKeys(c3.value, ResourceFields, lines);
          var c4 := Update(c3.value, ResourceFields, lines);
          if c4.Some? {
            UpdateKeys(c4.value, HealthFields, lines);
          }
        }
      }
    }
  }

  lemma FieldSectionKeys(fields: seq<Field>, lines: seq<string>, pos: nat)
    requires pos <= |lines|
    ensures FieldSection(fields, lines, pos).Some? ==> FieldSection(fields, lines, pos).value.values.Keys == KeySet(fields)
  {
    var answers := AskFields(fields, lines, pos);
    if answers.Some? {
      ToMapKeys(fields, answers.value.values);
    }
  }

  /** Whatever the network section returns binds exactly its five keys. */
  lemma {:induction false} NetworkKeys(host: Host, lines: seq<string>, pos: nat)
    requires pos <= |lines|
    ensures Network(host, lines, pos).Some? ==>
      Network(host, lines, pos).value.values.Keys == KeySet(NetworkFields(host.validIp))
    decreases |lines| - pos
  {
    var fields := NetworkFields(host.validIp);
    var answers := AskFields(fields, lines, pos);
    if answers.Some? {
      ToMapKeys(fields, answers.value.values);
      var reply := Ask(ContinuePrompt, lines, answers.value.next);
      if Unavailable(answers.value.values[..4], host.portFree) != [] && reply.Some? && Lower(reply.value.answer) != "y" {
        NetworkKeys(host, lines, reply.value.next);
      }
    }
  }

  /** The default of the P2P port prompt is a valid port in canonical form. */
  lemma P2pDefaultIsPort()
    ensures ValidatePort("16111") == Accepted("16111")
  {
    assert IntToString(16111) == "16111";
    ValidatePortRange(16111);
  }

  lemma GrpcDefaultIsPort()
    ensures ValidatePort("16110") == Accepted("16110")
  {
    assert IntToString(16110) == "16110";
    ValidatePortRange(16110);
  }

  lemma WrpcBorshDefaultIsPort()
    ensures ValidatePort("17110") == Accepted("17110")
  {
    assert IntToString(17110) == "17110";
    ValidatePortRange(17110);
  }

  lemma WrpcJsonDefaultIsPort()
    ensures ValidatePort("18110") == Accepted("18110")
  {
    assert IntToString(18110) == "18110";
    ValidatePortRange(18110);
  }

  /** `validate_port` accepts the text unchanged. */
  predicate CanonicalPort(v: string) {
    ValidatePort(v) == Accepted(v)
  }

  /** A prompt that validates ports and whose default is a valid port in canonical form. */
  ghost predicate PortField(f: Field) {
    f.prompt == PortPrompt(f.prompt.default) && CanonicalPort(f.prompt.default)
  }

  /** Each of the first four network prompts is a port prompt with a valid, canonical default. */
  lemma NetworkPortPrompt(validIp: string -> bool, i: nat)
    requires i < 4
    ensures PortField(NetworkFields(validIp)[i])
  {
    var fields := NetworkFields(validIp);
    if i == 0 {
      P2pDefaultIsPort();
    } else if i == 1 {
      GrpcDefaultIsPort();
    } else if i == 2 {
      WrpcBorshDefaultIsPort();
    } else {
      WrpcJsonDefaultIsPort();
    }
  }

  /** Every port of the list is a valid port written canonically. */
  predicate AllCanonical(ports: seq<string>) {
    forall i :: 0 <= i < |ports| ==> CanonicalPort(ports[i])
  }

  /** One round of network prompts yields four valid ports in canonical form. */
  lemma RoundPortsCanonical(validIp: string -> bool, lines: seq<string>, pos: nat)
    requires pos <= |lines|
    ensures var answers := AskFields(NetworkFields(validIp), lines, pos);
      answers.Some? ==> AllCanonical(answers.value.values[..4])
  {
    var fields := NetworkFields(validIp);
    var answers := AskFields(fields, lines, pos);
    if answers.Some? {
      var a := answers.value;
      AskFieldsAnswers(fields, lines, pos);
      forall i | 0 <= i < 4 ensures CanonicalPort(a.values[i]) {
        NetworkPortPrompt(validIp, i);
        assert AnsweredFrom(fields[i].prompt, lines, pos, a.next, a.values[i]);
        var j :| pos <= j < a.next && j < |lines| && Attempt(fields[i].prompt, lines[j]) == Some(a.values[i]);
        AttemptPort(fields[i].prompt.default, lines[j]);
      }
    }
  }

  /** The four ports the network section returns are port numbers in [1, 65535], written canonically. */
  lemma {:induction false} NetworkPortsCanonical(host: Host, lines: seq<string>, pos: nat)
    requires pos <= |lines|
    ensures var r := Network(host, lines, pos);
      r.Some? ==>
        var v := r.value.values;
        P2pPort in v && GrpcPort in v && WrpcBorshPort in v && WrpcJsonPort in v &&
        AllCanonical(PortsOf(v))
    decreases |lines| - pos
  {
    var answers := AskFields(NetworkFields(host.validIp), lines, pos);
    if answers.Some? {
      var a := answers.value;
      NetworkMap(host.validIp, a.values);
      RoundPortsCanonical(host.validIp, lines, pos);
      var reply := Ask(ContinuePrompt, lines, a.next);
      if Unavailable(a.values[..4], host.portFree) != [] && reply.Some? && Lower(reply.value.answer) != "y" {
        NetworkPortsCanonical(host, lines, reply.value.next);
      }
    }
  }

  /** The four ports of a network dictionary, in the order the section checks them. */
  function PortsOf(values: map<string, string>): seq<string>
    requires P2pPort in values && GrpcPort in values && WrpcBorshPort in values && WrpcJsonPort in values
  {
    [values[P2pPort], values[GrpcPort], values[WrpcBorshPort], values[WrpcJsonPort]]
  }

  /** The dictionary of one round of network prompts binds the four ports to the first four answers. */
  lemma NetworkMap(validIp: string -> bool, values: seq<string>)
    requires |values| == 5
    ensures var v := ToMap(NetworkFields(validIp), values);
      P2pPort in v && GrpcPort in v && WrpcBorshPort in v && WrpcJsonPort in v &&
      PortsOf(v) == values[..4]
  {
    var fields := NetworkFields(validIp);
    NetworkSectionKeys(validIp);
    ToMapValues(fields, values);
    assert fields[0].key == P2pPort && fields[1].key == GrpcPort;
    assert fields[2].key == WrpcBorshPort && fields[3].key == WrpcJsonPort;
  }

  /** The last line read, at `next - 1`, was typed as `y` or `Y`. */
  predicate TypedYes(lines: seq<string>, next: nat) {
    0 < next <= |lines| && Lower(Strip(lines[next - 1])) == "y"
  }

  /** A `y` from a `(y/N)` question was typed as `y` or `Y` on the last line read. */
  lemma YesWasTyped(p: Prompt, lines: seq<string>, pos: nat)
    requires p == PlainPrompt("N") && pos <= |lines|
    ensures var r := Ask(p, lines, pos);
      r.Some? && Lower(r.value.answer) == "y" ==> TypedYes(lines, r.value.next)
  {
    var r := Ask(p, lines, pos);
    if r.Some? {
      assert Attempt(p, lines[r.value.next - 1]) == Some(r.value.answer);
      assert Lower("N") == "n";
    }
  }

  /**
   * The network section returns a taken port only when the last line it read,
   * the reply to the warning, was `y` or `Y`; any other reply restarts it.
   */
  lemma {:induction false} NetworkConfirmed(host: Host, lines: seq<string>, pos: nat)
    requires pos <= |lines|
    ensures var r := Network(host, lines, pos);
      r.Some? ==>
        var v := r.value.values;
        P2pPort in v && GrpcPort in v && WrpcBorshPort in v && WrpcJsonPort in v &&
        (Unavailable(PortsOf(v), host.portFree) != [] ==> TypedYes(lines, r.value.next))
    decreases |lines| - pos
  {
    var answers := AskFields(NetworkFields(host.validIp), lines, pos);
    if answers.Some? {
      var a := answers.value;
      NetworkMap(host.validIp, a.values);
      var reply := Ask(ContinuePrompt, lines, a.next);
      YesWasTyped(ContinuePrompt, lines, a.next);
      if Unavailable(a.values[..4], host.portFree) != [] && reply.Some? && Lower(reply.value.answer) != "y" {
        NetworkConfirmed(host, lines, reply.value.next);
      }
    }
  }

  /**
   * When every port entered is free, the network section ends with its
   * answers: no warning is asked and the ports it returns are all free.
   */
  lemma NetworkFreeReturns(host: Host, lines: seq<string>, pos: nat)
    requires pos <= |lines|
    ensures var a := AskFields(NetworkFields(host.validIp), lines, pos);
      a.Some? && Unavailable(a.value.values[..4], host.portFree) == [] ==>
        var r := Network(host, lines, pos);
        r.Some? && r.value.next == a.value.next &&
        r.value.values == ToMap(NetworkFields(host.validIp), a.value.values) &&
        P2pPort in r.value.values && GrpcPort in r.value.values &&
        WrpcBorshPort in r.value.values && WrpcJsonPort in r.value.values &&
        Unavailable(PortsOf(r.value.values), host.portFree) == []
  {
    var a := AskFields(NetworkFields(host.validIp), lines, pos);
    if a.Some? {
      NetworkMap(host.validIp, a.value.values);
    }
  }

  /**
   * A taken port followed by a `y` or `Y` returns this round's five answers,
   * and the section ends on the line after the reply.
   */
  lemma NetworkAcceptedReturns(host: Host, lines: seq<string>, pos: nat)
    requires pos <= |lines|
    ensures var a := AskFields(NetworkFields(host.validIp), lines, pos);
      a.Some? && Unavailable(a.value.values[..4], host.portFree) != [] ==>
        var reply := Ask(ContinuePrompt, lines, a.value.next);
        reply.Some? && Lower(reply.value.answer) == "y" ==>
          a.value.next < reply.value.next &&
          Network(host, lines, pos) == Some(Section(ToMap(NetworkFields(host.validIp), a.value.values), reply.value.next))
  {
  }

  /**
   * A taken port followed by any reply but `y` or `Y` starts the section over
   * on the line after the reply, with nothing from the abandoned round kept.
   */
  lemma NetworkDeclinedRestarts(host: Host, lines: seq<string>, pos: nat)
    requires pos <= |lines|
    ensures var a := AskFields(NetworkFields(host.validIp), lines, pos);
      a.Some? && Unavailable(a.value.values[..4], host.portFree) != [] ==>
        var reply := Ask(ContinuePrompt, lines, a.value.next);
        (reply.None? ==> Network(host, lines, pos).None?) &&
        (reply.Some? && Lower(reply.value.answer) != "y" ==>
          pos < reply.value.next && Network(host, lines, pos) == Network(host, lines, reply.value.next))
  {
  }

  /**
   * `save_env_file` writes the rendered template, and replaces an existing
   * `.env` only after a `y` or `Y` at the overwrite question; without a
   * `.env` it asks nothing.
   */
  lemma SaveEnvGuard(host: Host, config: map<string, string>, lines: seq<string>, pos: nat)
    requires TemplateKeys() <= config.Keys && pos <= |lines|
    ensures var r := SaveEnv(host, config, lines, pos);
      r.Some? && r.value.written.Some? ==>
        host.writeSucceeds && r.value.written.value == Render(config) &&
        (host.envFilePresent ==> pos < r.value.next && TypedYes(lines, r.value.next))
    ensures !host.envFilePresent ==>
      SaveEnv(host, config, lines, pos).Some? && SaveEnv(host, config, lines, pos).value.next == pos &&
      (SaveEnv(host, config, lines, pos).value.written.Some? <==> host.writeSucceeds)
  {
    if host.envFilePresent {
      YesWasTyped(OverwritePrompt, lines, pos);
    }
  }

  /**
   * With a `.env` present, a `y` to the overwrite question writes the
   * rendered template (when the write succeeds), and any other reply writes
   * nothing; either way the save continues after the reply.
   */
  lemma SaveEnvOverwrite(host: Host, config: map<string, string>, lines: seq<string>, pos: nat)
    requires TemplateKeys() <= config.Keys && pos <= |lines|
    requires host.envFilePresent
    ensures var reply := Ask(OverwritePrompt, lines, pos);
      var r := SaveEnv(host, config, lines, pos);
      (reply.None? ==> r.None?) &&
      (reply.Some? && Lower(reply.value.answer) == "y" ==>
        r == Some(Saved(if host.writeSucceeds then Some(Render(config)) else None, reply.value.next))) &&
      (reply.Some? && Lower(reply.value.answer) != "y" ==> r == Some(Saved(None, reply.value.next)))
  {
  }

  /** A save reply typed as `n` or `N` on line `pos`. */
  predicate TypedNo(lines: seq<string>, pos: nat) {
    pos < |lines| && Lower(Strip(lines[pos])) == "n"
  }

  /** Whatever the end of the session writes is the template filled in with the configuration. */
  lemma ConcludeWrites(host: Host, lines: seq<string>, config: Section)
    requires config.next <= |lines| && TemplateKeys() <= config.values.Keys
    ensures var r := Conclude(host, lines, config);
      (r.written.Some? ==> r.written.value == Render(config.values)) &&
      (r.exitCode == 0 || r.exitCode == 1)
  {
    var save := Ask(SavePrompt, lines, config.next);
    if save.Some? && Lower(save.value.answer) != "n" {
      SaveEnvGuard(host, config.values, lines, save.value.next);
    }
  }

  /** A save reply of `n` or `N` ends the session without writing, right after that line. */
  lemma ConcludeCancelled(host: Host, lines: seq<string>, config: Section)
    requires config.next <= |lines| && TemplateKeys() <= config.values.Keys
    ensures TypedNo(lines, config.next) ==> Conclude(host, lines, config) == Finish(lines, config.next + 1, None)
  {
    if TypedNo(lines, config.next) {
      var typed := Strip(lines[config.next]);
      assert typed != [];
      assert Ask(SavePrompt, lines, config.next) == Some(Reply(typed, config.next + 1));
    }
  }

  /** Any other reply, blank included, saves: with no `.env` yet and a working disk the rendered template is written. */
  lemma ConcludeSaves(host: Host, lines: seq<string>, config: Section)
    requires config.next <= |lines| && TemplateKeys() <= config.values.Keys
    requires !host.envFilePresent && host.writeSucceeds
    requires config.next < |lines| && !TypedNo(lines, config.next)
    ensures Conclude(host, lines, config).written == Some(Render(config.values))
  {
    var typed := Strip(lines[config.next]);
    if typed == [] {
      assert Ask(SavePrompt, lines, config.next) == Some(Reply("Y", config.next + 1));
      assert Lower("Y") == "y";
    } else {
      assert Ask(SavePrompt, lines, config.next) == Some(Reply(typed, config.next + 1));
    }
  }

  /** Whatever the session writes is the template filled in with the merged configuration, which has exactly the template's keys. */
  lemma SessionWrites(host: Host, lines: seq<string>)
    ensures Session(host, lines).written.Some? ==>
      host.composeFilePresent && Configure(host, lines).Some? &&
      Configure(host, lines).value.values.Keys == TemplateKeys() &&
      Session(host, lines).written.value == Render(Configure(host, lines).value.values)
    ensures Session(host, lines).exitCode == 0 || Session(host, lines).exitCode == 1
  {
    var c := Configure(host, lines);
    if host.composeFilePresent && c.Some? {
      ConfigureKeys(host, lines);
      ConcludeWrites(host, lines, c.value);
    }
  }

  /** A save reply of `n` or `N`, on the line right after the last section, leaves `.env` alone. */
  lemma SessionCancelled(host: Host, lines: seq<string>)
    requires host.composeFilePresent
    ensures var c := Configure(host, lines);
      c.Some? && TypedNo(lines, c.value.next) ==> Session(host, lines) == Finish(lines, c.value.next + 1, None)
  {
    var c := Configure(host, lines);
    SessionConcludes(host, lines);
    if c.Some? {
      ConcludeCancelled(host, lines, c.value);
    }
  }

  /** Any other save reply writes the rendered template when there is no `.env` yet and the disk works. */
  lemma SessionSaves(host: Host, lines: seq<string>)
    requires host.composeFilePresent && !host.envFilePresent && host.writeSucceeds
    ensures var c := Configure(host, lines);
      c.Some? && c.value.next < |lines| && !TypedNo(lines, c.value.next) ==>
        c.value.values.Keys == TemplateKeys() &&
        Session(host, lines).written == Some(Render(c.value.values))
  {
    var c := Configure(host, lines);
    if c.Some? && c.value.next < |lines| && !TypedNo(lines, c.value.next) {
      SessionConcludes(host, lines);
      ConcludeSaves(host, lines, c.value);
    }
  }

  /** With `docker-compose.yml` present and every section answered, the session goes on to the save prompt. */
  lemma SessionConcludes(host: Host, lines: seq<string>)
    requires host.composeFilePresent
    ensures var c := Configure(host, lines);
      c.Some? ==>
        c.value.next <= |lines| && c.value.values.Keys == TemplateKeys() &&
        Session(host, lines) == Conclude(host, lines, c.value)
  {
    ConfigureKeys(host, lines);
  }

  // Line breaks: what `input()` returns never holds one, and neither does anything the wizard keeps.

  /** No value of the dictionary holds a line break. */
  predicate OneLineValues(m: map<string, string>) {
    forall k :: k in m ==> '\n' !in m[k]
  }

  /** Every prompt of the section keeps answers on one line. */
  ghost predicate FieldsKeepLines(fields: seq<Field>) {
    forall i :: 0 <= i < |fields| ==> KeepsLines(fields[i].prompt)
  }

  lemma NetworkFieldsKeepLines(validIp: string -> bool)
    ensures FieldsKeepLines(NetworkFields(validIp))
  {
    PromptsKeepLines(validIp, "16111");
    PromptsKeepLines(validIp, "16110");
    PromptsKeepLines(validIp, "17110");
    PromptsKeepLines(validIp, "18110");
    PromptsKeepLines(validIp, "0.0.0.0");
  }

  lemma ContainerDataFieldsKeepLines(validIp: string -> bool, windows: bool)
    ensures FieldsKeepLines(ContainerFields) && FieldsKeepLines(DataFields(windows))
  {
    PromptsKeepLines(validIp, "kaspa-node");
    PromptsKeepLines(validIp, "local/research-pad");
    PromptsKeepLines(validIp, "latest");
    PromptsKeepLines(validIp, DefaultDataDir(windows));
    PromptsKeepLines(validIp, "/app/data");
  }

  lemma SystemResourceFieldsKeepLines(validIp: string -> bool)
    ensures FieldsKeepLines(SystemFields) && FieldsKeepLines(ResourceFields)
  {
    PromptsKeepLines(validIp, "8.8.8.8");
    PromptsKeepLines(validIp, "1.1.1.1");
    PromptsKeepLines(validIp, "0");
    PromptsKeepLines(validIp, "1048576");
  }

  lemma HealthFieldsKeepLines(validIp: string -> bool)
    ensures FieldsKeepLines(HealthFields)
  {
    PromptsKeepLines(validIp, "30s");
    PromptsKeepLines(validIp, "5s");
    PromptsKeepLines(validIp, "20");
    PromptsKeepLines(validIp, "60s");
  }

  /** A section of such prompts, over lines without line breaks, returns values without them. */
  lemma FieldSectionOneLine(fields: seq<Field>, lines: seq<string>, pos: nat)
    requires pos <= |lines| && OneLineInput(lines) && FieldsKeepLines(fields)
    ensures var r := FieldSection(fields, lines, pos); r.Some? ==> OneLineValues(r.value.values)
  {
    var a := AskFields(fields, lines, pos);
    AskFieldsKeepLines(fields, lines, pos);
    if a.Some? {
      ToMapFrom(fields, a.value.values);
    }
  }

  /** The network section, restarts included, returns values without line breaks. */
  lemma {:induction false} NetworkOneLine(host: Host, lines: seq<string>, pos: nat)
    requires pos <= |lines| && OneLineInput(lines)
    ensures var r := Network(host, lines, pos); r.Some? ==> OneLineValues(r.value.values)
    decreases |lines| - pos
  {
    var fields := NetworkFields(host.validIp);
    var a := AskFields(fields, lines, pos);
    NetworkFieldsKeepLines(host.validIp);
    FieldSectionOneLine(fields, lines, pos);
    if a.Some? && Unavailable(a.value.values[..4], host.portFree) != [] {
      var reply := Ask(ContinuePrompt, lines, a.value.next);
      if reply.Some? && Lower(reply.value.answer) != "y" {
        NetworkOneLine(host, lines, reply.value.next);
      }
    }
  }

  /** `config.update` of two dictionaries without line breaks has none. */
  lemma UpdateOneLine(config: Section, fields: seq<Field>, lines: seq<string>)
    requires config.next <= |lines| && OneLineInput(lines) && FieldsKeepLines(fields)
    requires OneLineValues(config.values)
    ensures var r := Update(config, fields, lines); r.Some? ==> OneLineValues(r.value.values)
  {
    FieldSectionOneLine(fields, lines, config.next);
  }

  lemma PlainSectionsOneLine(config: Section, windows: bool, lines: seq<string>, validIp: string -> bool)
    requires config.next <= |lines| && OneLineInput(lines) && OneLineValues(config.values)
    ensures var r := PlainSections(config, windows, lines); r.Some? ==> OneLineValues(r.value.values)
  {
    ContainerDataFieldsKeepLines(validIp, windows);
    SystemResourceFieldsKeepLines(validIp);
    HealthFieldsKeepLines(validIp);
    var c1 := Update(config, ContainerFields, lines);
    UpdateOneLine(config, ContainerFields, lines);
    if c1.Some? {
      var c2 := Update(c1.value, DataFields(windows), lines);
      UpdateOneLine(c1.value, DataFields(windows), lines);
      if c2.Some? {
        var c3 := Update(c2.value, SystemFields, lines);
        UpdateOneLine(c2.value, SystemFields, lines);
        if c3.Some? {
          var c4 := Update(c3.value, ResourceFields, lines);
          UpdateOneLine(c3.value, ResourceFields, lines);
          if c4.Some? {
            UpdateOneLine(c4.value, HealthFields, lines);
          }
        }
      }
    }
  }

  /** Typed lines without line breaks give a configuration whose values have none. */
  lemma ConfigureValuesOneLine(host: Host, lines: seq<string>)
    requires OneLineInput(lines)
    ensures var c := Configure(host, lines); c.Some? ==> OneLineValues(c.value.values)
  {
    var n := Network(host, lines, 0);
    NetworkOneLine(host, lines, 0);
    if n.Some? {
      PlainSectionsOneLine(Section(map[] + n.value.values, n.value.next), host.windows, lines, host.validIp);
    }
  }

  /**
   * What a session writes, from typed lines without line breaks, reads back
   * as every constant and every filled-in assignment of the template.
   */
  lemma SessionReadsBack(host: Host, lines: seq<string>)
    requires OneLineInput(lines)
    ensures Session(host, lines).written.Some? ==>
      Configure(host, lines).Some? &&
      TemplateKeys() <= Configure(host, lines).value.values.Keys &&
      Entries(Session(host, lines).written.value) == Expected(Template, Configure(host, lines).value.values)
  {
    SessionWrites(host, lines);
    var c := Configure(host, lines);
    if Session(host, lines).written.Some? {
      ConfigureValuesOneLine(host, lines);
      RenderRoundTrip(c.value.values);
    }
  }

  /** Blank lines from `pos` on, at least `n` of them. */
  predicate BlankLines(lines: seq<string>, pos: nat, n: nat) {
    pos + n <= |lines| && forall j :: pos <= j < pos + n ==> Strip(lines[j]) == []
  }

  /** The dictionary of a section answered entirely with its defaults. */
  function DefaultSection(fields: seq<Field>): map<string, string> {
    ToMap(fields, Defaults(fields))
  }

  /** Every prompt of the section has a non-empty default. */
  predicate HasDefaults(fields: seq<Field>) {
    forall i :: 0 <= i < |fields| ==> fields[i].prompt.default != []
  }

  /** Pressing Enter at every prompt of a plain section takes every default, one line per prompt. */
  lemma BlankSection(config: Section, fields: seq<Field>, lines: seq<string>)
    requires config.next <= |lines| && HasDefaults(fields) && BlankLines(lines, config.next, |fields|)
    ensures Update(config, fields, lines) == Some(Section(config.values + DefaultSection(fields), config.next + |fields|))
  {
    AskFieldsBlank(fields, lines, config.next);
  }

  /** With the four default ports free, pressing Enter five times takes the network defaults without a warning. */
  lemma BlankNetwork(host: Host, lines: seq<string>)
    requires BlankLines(lines, 0, 5)
    requires host.portFree("16111") && host.portFree("16110") && host.portFree("17110") && host.portFree("18110")
    ensures Network(host, lines, 0) == Some(Section(DefaultSection(NetworkFields(host.validIp)), 5))
  {
    var fields := NetworkFields(host.validIp);
    assert HasDefaults(fields);
    AskFieldsBlank(fields, lines, 0);
    var ports := Defaults(fields)[..4];
    assert ports == ["16111", "16110", "17110", "18110"];
    UnavailableEmpty(ports, host.portFree);
  }

  /** The configuration `main` builds when every prompt is answered with its default. */
  function DefaultConfig(validIp: string -> bool, windows: bool): map<string, string> {
    map[] + DefaultSection(NetworkFields(validIp)) + DefaultSection(ContainerFields)
    + DefaultSection(DataFields(windows)) + DefaultSection(SystemFields)
    + DefaultSection(ResourceFields) + DefaultSection(HealthFields)
  }

  /** Twenty presses of Enter, with the default ports free, give the default configuration. */
  lemma BlankConfigure(host: Host, lines: seq<string>)
    requires BlankLines(lines, 0, 20)
    requires host.portFree("16111") && host.portFree("16110") && host.portFree("17110") && host.portFree("18110")
    ensures Configure(host, lines) == Some(Section(DefaultConfig(host.validIp, host.windows), 20))
  {
    BlankNetwork(host, lines);
    BlankPlainSections(Section(map[] + DefaultSection(NetworkFields(host.validIp)), 5), host.windows, lines);
  }

  /** Fifteen presses of Enter after the network section take the defaults of the five plain sections. */
  lemma BlankPlainSections(c0: Section, windows: bool, lines: seq<string>)
    requires BlankLines(lines, c0.next, 15)
    ensures PlainSections(c0, windows, lines) == Some(Section(
      c0.values + DefaultSection(ContainerFields) + DefaultSection(DataFields(windows)) + DefaultSection(SystemFields)
      + DefaultSection(ResourceFields) + DefaultSection(HealthFields), c0.next + 15))
  {
    assert HasDefaults(ContainerFields) && HasDefaults(DataFields(windows)) && HasDefaults(SystemFields);
    assert HasDefaults(ResourceFields) && HasDefaults(HealthFields);
    BlankSection(c0, ContainerFields, lines);
    var c1 := Update(c0, ContainerFields, lines).value;
    BlankSection(c1, DataFields(windows), lines);
    var c2 := Update(c1, DataFields(windows), lines).value;
    BlankSection(c2, SystemFields, lines);
    var c3 := Update(c2, SystemFields, lines).value;
    BlankSection(c3, ResourceFields, lines);
    var c4 := Update(c3, ResourceFields, lines).value;
    BlankSection(c4, HealthFields, lines);
  }

  /** Enter at the save question and at "Press Enter", with no `.env` yet and a working disk: the template is written and the status is 0. */
  lemma BlankConclude(host: Host, lines: seq<string>, config: Section)
    requires config.next <= |lines| && TemplateKeys() <= config.values.Keys
    requires BlankLines(lines, config.next, 2)
    requires !host.envFilePresent && host.writeSucceeds
    ensures Conclude(host, lines, config) == Run(0, Some(Render(config.values)))
  {
    assert Ask(SavePrompt, lines, config.next) == Some(Reply("Y", config.next + 1));
    assert Lower("Y") == "y";
  }

  /**
   * Enter at every prompt, including the save question and the closing
   * "Press Enter", with the default ports free, no `.env` yet and a working
   * disk: the session ends with status 0 after writing the template filled
   * in with the defaults.
   */
  lemma BlankSession(host: Host, lines: seq<string>)
    requires BlankLines(lines, 0, 22)
    requires host.composeFilePresent && !host.envFilePresent && host.writeSucceeds
    requires host.portFree("16111") && host.portFree("16110") && host.portFree("17110") && host.portFree("18110")
    ensures DefaultConfig(host.validIp, host.windows).Keys == TemplateKeys()
    ensures Session(host, lines) == Run(0, Some(Render(DefaultConfig(host.validIp, host.windows))))
  {
    BlankConfigure(host, lines);
    ConfigureKeys(host, lines);
    BlankConclude(host, lines, Section(DefaultConfig(host.validIp, host.windows), 20));
  }
}
