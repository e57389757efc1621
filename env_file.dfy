/**
 * The `.env` text the setup wizard writes: a fixed template of comment lines,
 * two constant assignments and twenty `KEY={KEY}` placeholders, filled in by
 * `str.format(**config)`. `Entries` reads `KEY=VALUE` lines back, the way a
 * consumer of the file sees them; reading a rendered file gives back exactly
 * the template's assignments.
 */
module EnvFile {
  import opened Wrappers
  import opened Text

  /** A text that fits on one line. */
  predicate NoNewline(t: string) {
    forall i :: 0 <= i < |t| ==> t[i] != '\n'
  }

  predicate IsKeyChar(c: char) {
    ('A' <= c <= 'Z') || ('0' <= c <= '9') || c == '_'
  }

  /** The variable names the template uses: upper-case letters, digits and underscores. */
  predicate IsKey(k: string) {
    k != [] && forall i :: 0 <= i < |k| ==> IsKeyChar(k[i])
  }

  type Key = k: string | IsKey(k) witness "A"

  type LineText = t: string | NoNewline(t)

  /** A template comment: empty, or a `#` line. */
  type CommentText = t: string | NoNewline(t) && (t == [] || t[0] == '#')

  /** One line of the template. */
  datatype Line =
    | Comment(text: CommentText)            // a `#` line or an empty line
    | Fixed(key: Key, value: LineText)      // an assignment with a constant value
    | Setting(key: Key)                     // `KEY={KEY}`, filled from the configuration

  const ServiceNameKey: Key := "SERVICE_NAME"
  const ContainerName: Key := "CONTAINER_NAME"
  const ImageName: Key := "IMAGE_NAME"
  const ImageTag: Key := "IMAGE_TAG"
  const P2pPort: Key := "P2P_PORT"
  const GrpcPort: Key := "GRPC_PORT"
  const WrpcBorshPort: Key := "WRPC_BORSH_PORT"
  const WrpcJsonPort: Key := "WRPC_JSON_PORT"
  const ExternalIp: Key := "EXTERNAL_IP"
  const DataVolumePath: Key := "DATA_VOLUME_PATH"
  const AppDataPath: Key := "APP_DATA_PATH"
  const DnsPrimary: Key := "DNS_PRIMARY"
  const DnsSecondary: Key := "DNS_SECONDARY"
  const UserId: Key := "USER_ID"
  const GroupId: Key := "GROUP_ID"
  const UlimitSoft: Key := "ULIMIT_SOFT"
  const UlimitHard: Key := "ULIMIT_HARD"
  const HealthCheckInterval: Key := "HEALTH_CHECK_INTERVAL"
  const HealthCheckTimeout: Key := "HEALTH_CHECK_TIMEOUT"
  const HealthCheckRetries: Key := "HEALTH_CHECK_RETRIES"
  const HealthCheckStartPeriod: Key := "HEALTH_CHECK_START_PERIOD"
  const PeersKey: Key := "PEERS"

  const ServiceNameValue: LineText := "research-pad"
  const PeersValue: LineText := "51.79.24.82:16111,162.55.100.124:16111"

  const Title: CommentText := "# Kaspa Node Configuration"
  const GeneratedBy: CommentText := "# Generated by Kaspa Docker Setup Wizard"
  const DevelopedBy: CommentText := "# Developed by KaspaDev (KRCBOT)"
  const ServiceHeading: CommentText := "# Service Configuration"
  const NetworkHeading: CommentText := "# Network Configuration"
  const DataHeading: CommentText := "# Data Configuration"
  const DnsHeading: CommentText := "# DNS Configuration"
  const UserHeading: CommentText := "# User Configuration"
  const ResourceHeading: CommentText := "# Resource Limits"
  const HealthHeading: CommentText := "# Health Check Configuration"
  /** One line; written in two parts only to keep the proof that it holds no line break small. */
  const PeerHeading: CommentText := "# Peer Configuration" + " (comma-separated list)"

  /** The template of `save_env_file`, line by line, one block per section. */
  const Template: seq<Line> :=
    Header + ServiceBlock + NetworkBlock + DataBlock + DnsBlock + UserBlock + ResourceBlock + HealthBlock + PeerBlock

  const Header: seq<Line> := [Comment(Title), Comment(GeneratedBy), Comment(DevelopedBy), Comment("")]

  const ServiceBlock: seq<Line> := [
    Comment(ServiceHeading),
    Fixed(ServiceNameKey, ServiceNameValue),
    Setting(ContainerName),
    Setting(ImageName),
    Setting(ImageTag),
    Comment("")
  ]

  const NetworkBlock: seq<Line> := [
    Comment(NetworkHeading),
    Setting(P2pPort),
    Setting(GrpcPort),
    Setting(WrpcBorshPort),
    Setting(WrpcJsonPort),
    Setting(ExternalIp),
    Comment("")
  ]

  const DataBlock: seq<Line> := [Comment(DataHeading), Setting(DataVolumePath), Setting(AppDataPath), Comment("")]

  const DnsBlock: seq<Line> := [Comment(DnsHeading), Setting(DnsPrimary), Setting(DnsSecondary), Comment("")]

  const UserBlock: seq<Line> := [Comment(UserHeading), Setting(UserId), Setting(GroupId), Comment("")]

  const ResourceBlock: seq<Line> := [Comment(ResourceHeading), Setting(UlimitSoft), Setting(UlimitHard), Comment("")]

  const HealthBlock: seq<Line> := [
    Comment(HealthHeading),
    Setting(HealthCheckInterval),
    Setting(HealthCheckTimeout),
    Setting(HealthCheckRetries),
    Setting(HealthCheckStartPeriod),
    Comment("")
  ]

  const PeerBlock: seq<Line> := [Comment(PeerHeading), Fixed(PeersKey, PeersValue)]

  /** The placeholders of `ls`, the keys `format` looks up. */
  function SettingKeys(ls: seq<Line>): set<string> {
    set i | 0 <= i < |ls| && ls[i].Setting? :: ls[i].key
  }

  /** The twenty keys the template consumes. */
  function TemplateKeys(): set<string> {
    SettingKeys(Template)
  }

  function RenderLine(l: Line, config: map<string, string>): string
    requires l.Setting? ==> l.key in config
  {
    match l
    case Comment(text) => text
    case Fixed(key, value) => key + "=" + value
    case Setting(key) => key + "=" + config[key]
  }

  function RenderLines(ls: seq<Line>, config: map<string, string>): (r: seq<string>)
    requires SettingKeys(ls) <= config.Keys
    ensures |r| == |ls|
  {
    seq(|ls|, i requires 0 <= i < |ls| => RenderLine(ls[i], config))
  }

  /**
   * `str.format(**config)` of the template: its lines, each ended by a
   * newline. A missing key would raise `KeyError`; the wizard always
   * supplies all of them.
   */
  function Render(config: map<string, string>): string
    requires TemplateKeys() <= config.Keys
  {
    Join(RenderLines(Template, config) + [""], '\n')
  }

  /** A `KEY=VALUE` line split at its first `=`; comments, blank lines and lines without `=` carry no entry. */
  function ParseLine(line: string): Option<(string, string)> {
    if line == [] || line[0] == '#' || '=' !in line then None
    else
      var k := IndexOf(line, '=');
      Some((line[..k], line[k + 1..]))
  }

  function EntriesOfLines(lines: seq<string>): seq<(string, string)> {
    if lines == [] then []
    else
      match ParseLine(lines[0])
      case Some(entry) => [entry] + EntriesOfLines(lines[1..])
      case None => EntriesOfLines(lines[1..])
  }

  /** The assignments of a `.env` text, in file order. */
  function Entries(text: string): seq<(string, string)> {
    EntriesOfLines(Split(text, '\n'))
  }

  /** The assignments the template stands for, given the configuration. */
  function Expected(ls: seq<Line>, config: map<string, string>): seq<(string, string)>
    requires SettingKeys(ls) <= config.Keys
  {
    if ls == [] then []
    else
      var rest := Expected(ls[1..], config);
      match ls[0]
      case Comment(_) => rest
      case Fixed(key, value) => [(key, value)] + rest
      case Setting(key) => [(key, config[key])] + rest
  }

  lemma {:induction false} SettingKeysTail(ls: seq<Line>)
    requires ls != []
    ensures SettingKeys(ls[1..]) <= SettingKeys(ls)
  {
    forall k | k in SettingKeys(ls[1..]) ensures k in SettingKeys(ls) {
      var i :| 0 <= i < |ls[1..]| && ls[1..][i].Setting? && ls[1..][i].key == k;
      assert ls[i + 1] == ls[1..][i];
    }
  }

  lemma {:induction false} KeyLineParses(key: string, value: string)
    requires IsKey(key)
    ensures ParseLine(key + "=" + value) == Some((key, value))
  {
    var line := key + "=" + value;
    assert '=' !in key;
    IndexOfAfter(key, '=', value);
    assert line == key + ['='] + value;
    assert line[..|key|] == key && line[|key| + 1..] == value;
  }

  lemma {:induction false} EntriesOfRendered(ls: seq<Line>, config: map<string, string>)
    requires SettingKeys(ls) <= config.Keys
    ensures EntriesOfLines(RenderLines(ls, config)) == Expected(ls, config)
  {
    if ls != [] {
      SettingKeysTail(ls);
      EntriesOfRendered(ls[1..], config);
      var lines := RenderLines(ls, config);
      assert lines[1..] == RenderLines(ls[1..], config);
      assert lines[0] == RenderLine(ls[0], config);
      match ls[0]
      case Comment(text) =>
      case Fixed(key, value) =>
        KeyLineParses(key, value);
      case Setting(key) =>
        assert key in SettingKeys(ls) by { assert ls[0].Setting?; }
        KeyLineParses(key, config[key]);
    }
  }

  /** Every rendered line is a single line, given single-line values. */
  lemma RenderLineOneLine(l: Line, config: map<string, string>)
    requires l.Setting? ==> l.key in config && '\n' !in config[l.key]
    ensures '\n' !in RenderLine(l, config)
  {
    match l
    case Comment(text) =>
    case Fixed(key, value) =>
      assert '\n' !in key && '\n' !in value;
    case Setting(key) =>
      assert '\n' !in key;
  }

  lemma {:induction false} EntriesOfLinesBlankTail(lines: seq<string>)
    ensures EntriesOfLines(lines + [""]) == EntriesOfLines(lines)
  {
    if lines != [] {
      assert (lines + [""])[1..] == lines[1..] + [""];
      EntriesOfLinesBlankTail(lines[1..]);
    } else {
      assert EntriesOfLines([""]) == EntriesOfLines([]);
    }
  }

  /**
   * Reading a rendered `.env` gives back the template's assignments: the
   * two constant lines and every key bound to its configured value, in
   * template order. Values come from single input lines, so they contain no
   * newline; they may contain `=`, which stays in the value.
   */
  lemma RenderRoundTrip(config: map<string, string>)
    requires TemplateKeys() <= config.Keys
    requires forall k :: k in config ==> '\n' !in config[k]
    ensures Entries(Render(config)) == Expected(Template, config)
  {
    var lines := RenderLines(Template, config);
    forall i | 0 <= i < |lines + [""]| ensures '\n' !in (lines + [""])[i] {
      if i < |lines| {
        assert lines[i] == RenderLine(Template[i], config);
        RenderLineOneLine(Template[i], config);
      }
    }
    SplitJoin(lines + [""], '\n');
    EntriesOfLinesBlankTail(lines);
    EntriesOfRendered(Template, config);
  }

  lemma {:induction false} SettingKeysConcat(a: seq<Line>, b: seq<Line>)
    ensures SettingKeys(a + b) == SettingKeys(a) + SettingKeys(b)
  {
    forall k | k in SettingKeys(a + b) ensures k in SettingKeys(a) + SettingKeys(b) {
      var i :| 0 <= i < |a + b| && (a + b)[i].Setting? && (a + b)[i].key == k;
      if i >= |a| {
        assert b[i - |a|] == (a + b)[i];
      }
    }
    forall k | k in SettingKeys(a) ensures k in SettingKeys(a + b) {
      var i :| 0 <= i < |a| && a[i].Setting? && a[i].key == k;
      assert (a + b)[i] == a[i];
    }
    forall k | k in SettingKeys(b) ensures k in SettingKeys(a + b) {
      var i :| 0 <= i < |b| && b[i].Setting? && b[i].key == k;
      assert (a + b)[|a| + i] == b[i];
    }
  }

  /** The placeholders of the blocks that have any, block by block. */
  lemma ServiceAndNetworkKeys()
    ensures SettingKeys(ServiceBlock) == {ContainerName, ImageName, ImageTag}
    ensures SettingKeys(NetworkBlock) == {P2pPort, GrpcPort, WrpcBorshPort, WrpcJsonPort, ExternalIp}
  {
    var s, n := ServiceBlock, NetworkBlock;
    assert s[2].key == ContainerName && s[3].key == ImageName && s[4].key == ImageTag;
    assert n[1].key == P2pPort && n[2].key == GrpcPort && n[3].key == WrpcBorshPort && n[4].key == WrpcJsonPort;
    assert n[5].key == ExternalIp;
  }

  lemma DataDnsUserResourceKeys()
    ensures SettingKeys(DataBlock) == {DataVolumePath, AppDataPath}
    ensures SettingKeys(DnsBlock) == {DnsPrimary, DnsSecondary}
    ensures SettingKeys(UserBlock) == {UserId, GroupId}
    ensures SettingKeys(ResourceBlock) == {UlimitSoft, UlimitHard}
  {
    var d, n, u, r := DataBlock, DnsBlock, UserBlock, ResourceBlock;
    assert d[1].key == DataVolumePath && d[2].key == AppDataPath;
    assert n[1].key == DnsPrimary && n[2].key == DnsSecondary;
    assert u[1].key == UserId && u[2].key == GroupId;
    assert r[1].key == UlimitSoft && r[2].key == UlimitHard;
  }

  lemma HealthKeys()
    ensures SettingKeys(HealthBlock) == {HealthCheckInterval, HealthCheckTimeout, HealthCheckRetries, HealthCheckStartPeriod}
    ensures SettingKeys(Header) == {} && SettingKeys(PeerBlock) == {}
  {
    var h := HealthBlock;
    assert h[1].key == HealthCheckInterval && h[2].key == HealthCheckTimeout;
    assert h[3].key == HealthCheckRetries && h[4].key == HealthCheckStartPeriod;
  }

  /** The keys `format` looks up are those of the seven blocks between the header and the peer line. */
  lemma TemplateKeysByBlock()
    ensures TemplateKeys() == SettingKeys(ServiceBlock) + SettingKeys(NetworkBlock) + SettingKeys(DataBlock)
      + SettingKeys(DnsBlock) + SettingKeys(UserBlock) + SettingKeys(ResourceBlock) + SettingKeys(HealthBlock)
  {
    var a := Header + ServiceBlock;
    var b := a + NetworkBlock;
    var c := b + DataBlock;
    var d := c + DnsBlock;
    var e := d + UserBlock;
    var f := e + ResourceBlock;
    var g := f + HealthBlock;
    SettingKeysConcat(Header, ServiceBlock);
    SettingKeysConcat(a, NetworkBlock);
    SettingKeysConcat(b, DataBlock);
    SettingKeysConcat(c, DnsBlock);
    SettingKeysConcat(d, UserBlock);
    SettingKeysConcat(e, ResourceBlock);
    SettingKeysConcat(f, HealthBlock);
    SettingKeysConcat(g, PeerBlock);
    HealthKeys();
  }

  /** The placeholders of each block, in template order. */
  const ServiceKeyList: seq<Key> := [ContainerName, ImageName, ImageTag]
  const NetworkKeyList: seq<Key> := [P2pPort, GrpcPort, WrpcBorshPort, WrpcJsonPort, ExternalIp]
  const DataKeyList: seq<Key> := [DataVolumePath, AppDataPath]
  const DnsKeyList: seq<Key> := [DnsPrimary, DnsSecondary]
  const UserKeyList: seq<Key> := [UserId, GroupId]
  const ResourceKeyList: seq<Key> := [UlimitSoft, UlimitHard]
  const HealthKeyList: seq<Key> := [HealthCheckInterval, HealthCheckTimeout, HealthCheckRetries, HealthCheckStartPeriod]

  /** The twenty placeholders of the template, in template order. */
  const TemplateKeyList: seq<Key> := [
    ContainerName, ImageName, ImageTag,
    P2pPort, GrpcPort, WrpcBorshPort, WrpcJsonPort, ExternalIp,
    DataVolumePath, AppDataPath,
    DnsPrimary, DnsSecondary,
    UserId, GroupId,
    UlimitSoft, UlimitHard,
    HealthCheckInterval, HealthCheckTimeout, HealthCheckRetries, HealthCheckStartPeriod
  ]

  /** A key's length with its first and last character: enough to tell the twenty keys apart. */
  function Signature(k: Key): (int, char, char) {
    (|k|, k[0], k[|k| - 1])
  }

  /** The signatures of the twenty keys, in list order. */
  const Signatures: seq<(int, char, char)> := [
    (14, 'C', 'E'), (10, 'I', 'E'), (9, 'I', 'G'),
    (8, 'P', 'T'), (9, 'G', 'T'), (15, 'W', 'T'), (14, 'W', 'T'), (11, 'E', 'P'),
    (16, 'D', 'H'), (13, 'A', 'H'),
    (11, 'D', 'Y'), (13, 'D', 'Y'),
    (7, 'U', 'D'), (8, 'G', 'D'),
    (11, 'U', 'T'), (11, 'U', 'D'),
    (21, 'H', 'L'), (20, 'H', 'T'), (20, 'H', 'S'), (25, 'H', 'D')
  ]

  lemma SignatureOf(i: nat)
    requires i < 20
    ensures Signature(TemplateKeyList[i]) == Signatures[i]
  {
    if i == 0 { assert Signature(ContainerName) == (14, 'C', 'E'); }
    else if i == 1 { assert Signature(ImageName) == (10, 'I', 'E'); }
    else if i == 2 { assert Signature(ImageTag) == (9, 'I', 'G'); }
    else if i == 3 { assert Signature(P2pPort) == (8, 'P', 'T'); }
    else if i == 4 { assert Signature(GrpcPort) == (9, 'G', 'T'); }
    else if i == 5 { assert Signature(WrpcBorshPort) == (15, 'W', 'T'); }
    else if i == 6 { assert Signature(WrpcJsonPort) == (14, 'W', 'T'); }
    else if i == 7 { assert Signature(ExternalIp) == (11, 'E', 'P'); }
    else if i == 8 { assert Signature(DataVolumePath) == (16, 'D', 'H'); }
    else if i == 9 { assert Signature(AppDataPath) == (13, 'A', 'H'); }
    else if i == 10 { assert Signature(DnsPrimary) == (11, 'D', 'Y'); }
    else if i == 11 { assert Signature(DnsSecondary) == (13, 'D', 'Y'); }
    else if i == 12 { assert Signature(UserId) == (7, 'U', 'D'); }
    else if i == 13 { assert Signature(GroupId) == (8, 'G', 'D'); }
    else if i == 14 { assert Signature(UlimitSoft) == (11, 'U', 'T'); }
    else if i == 15 { assert Signature(UlimitHard) == (11, 'U', 'D'); }
    else if i == 16 { assert Signature(HealthCheckInterval) == (21, 'H', 'L'); }
    else if i == 17 { assert Signature(HealthCheckTimeout) == (20, 'H', 'T'); }
    else if i == 18 { assert Signature(HealthCheckRetries) == (20, 'H', 'S'); }
    else { assert Signature(HealthCheckStartPeriod) == (25, 'H', 'D'); }
  }

  lemma SignaturesDistinct()
    ensures forall i, j :: 0 <= i < j < |Signatures| ==> Signatures[i] != Signatures[j]
  {
  }

  lemma TemplateKeyListDistinct()
    ensures forall i, j :: 0 <= i < j < |TemplateKeyList| ==> TemplateKeyList[i] != TemplateKeyList[j]
  {
    SignaturesDistinct();
    forall i, j | 0 <= i < j < |TemplateKeyList| ensures TemplateKeyList[i] != TemplateKeyList[j] {
      SignatureOf(i);
      SignatureOf(j);
    }
  }

  /** A sequence without repetitions has as many distinct elements as it has elements. */
  lemma {:induction false} DistinctCount<T>(s: seq<T>)
    requires forall i, j :: 0 <= i < j < |s| ==> s[i] != s[j]
    ensures |set x | x in s| == |s|
  {
    if s != [] {
      DistinctCount(s[1..]);
      assert (set x | x in s) == {s[0]} + (set x | x in s[1..]);
      assert s[0] !in (set x | x in s[1..]);
    }
  }

  /** The distinct elements of a list. */
  function Elements<T(==)>(s: seq<T>): set<T> {
    set x | x in s
  }

  lemma ElementsConcat<T>(s: seq<T>, t: seq<T>)
    ensures Elements(s + t) == Elements(s) + Elements(t)
  {
    assert forall x :: x in s + t <==> x in s || x in t;
  }

  lemma ElementsSmall<T>(a: T, b: T, c: T, d: T, e: T)
    ensures Elements([a, b]) == {a, b}
    ensures Elements([a, b, c]) == {a, b, c}
    ensures Elements([a, b, c, d]) == {a, b, c, d}
    ensures Elements([a, b, c, d, e]) == {a, b, c, d, e}
  {
  }

  /** Seven key sets are the elements of seven lists when each one is. */
  lemma ElementsOfBlocks<T>(s: seq<seq<T>>, sets: seq<set<T>>)
    requires |s| == |sets| == 7
    requires forall i :: 0 <= i < 7 ==> sets[i] == Elements(s[i])
    ensures sets[0] + sets[1] + sets[2] + sets[3] + sets[4] + sets[5] + sets[6]
      == Elements(s[0] + s[1] + s[2] + s[3] + s[4] + s[5] + s[6])
  {
    ElementsConcat(s[0], s[1]);
    ElementsConcat(s[0] + s[1], s[2]);
    ElementsConcat(s[0] + s[1] + s[2], s[3]);
    ElementsConcat(s[0] + s[1] + s[2] + s[3], s[4]);
    ElementsConcat(s[0] + s[1] + s[2] + s[3] + s[4], s[5]);
    ElementsConcat(s[0] + s[1] + s[2] + s[3] + s[4] + s[5], s[6]);
  }

  lemma TemplateKeyListByBlock()
    ensures TemplateKeyList == ServiceKeyList + NetworkKeyList + DataKeyList + DnsKeyList
      + UserKeyList + ResourceKeyList + HealthKeyList
  {
  }

  lemma BlockKeyElements()
    ensures SettingKeys(ServiceBlock) == Elements(ServiceKeyList)
    ensures SettingKeys(NetworkBlock) == Elements(NetworkKeyList)
    ensures SettingKeys(DataBlock) == Elements(DataKeyList)
    ensures SettingKeys(DnsBlock) == Elements(DnsKeyList)
    ensures SettingKeys(UserBlock) == Elements(UserKeyList)
    ensures SettingKeys(ResourceBlock) == Elements(ResourceKeyList)
    ensures SettingKeys(HealthBlock) == Elements(HealthKeyList)
  {
    ServiceAndNetworkKeys();
    DataDnsUserResourceKeys();
    HealthKeys();
    ElementsSmall(ContainerName, ImageName, ImageTag, ImageTag, ImageTag);
    ElementsSmall(P2pPort, GrpcPort, WrpcBorshPort, WrpcJsonPort, ExternalIp);
    ElementsSmall(DataVolumePath, AppDataPath, AppDataPath, AppDataPath, AppDataPath);
    ElementsSmall(DnsPrimary, DnsSecondary, DnsSecondary, DnsSecondary, DnsSecondary);
    ElementsSmall(UserId, GroupId, GroupId, GroupId, GroupId);
    ElementsSmall(UlimitSoft, UlimitHard, UlimitHard, UlimitHard, UlimitHard);
    ElementsSmall(HealthCheckInterval, HealthCheckTimeout, HealthCheckRetries, HealthCheckStartPeriod, HealthCheckStartPeriod);
  }

  /** The placeholders `format` looks up are exactly the keys of the list. */
  lemma TemplateKeysListed()
    ensures TemplateKeys() == Elements(TemplateKeyList)
  {
    TemplateKeysByBlock();
    BlockKeyElements();
    TemplateKeyListByBlock();
    ElementsOfBlocks(
      [ServiceKeyList, NetworkKeyList, DataKeyList, DnsKeyList, UserKeyList, ResourceKeyList, HealthKeyList],
      [SettingKeys(ServiceBlock), SettingKeys(NetworkBlock), SettingKeys(DataBlock),
       SettingKeys(DnsBlock), SettingKeys(UserBlock), SettingKeys(ResourceBlock), SettingKeys(HealthBlock)]);
  }

  /** The template has twenty placeholders. */
  lemma TemplateKeyCount()
    ensures |TemplateKeys()| == 20
  {
    TemplateKeysListed();
    TemplateKeyListDistinct();
    DistinctCount(TemplateKeyList);
  }

  /** Every assignment line of the template, constant or filled in, has its entry. */
  lemma {:induction false} ExpectedHas(ls: seq<Line>, config: map<string, string>, i: nat)
    requires SettingKeys(ls) <= config.Keys && i < |ls|
    ensures ls[i].Fixed? ==> (ls[i].key, ls[i].value) in Expected(ls, config)
    ensures ls[i].Setting? ==> ls[i].key in config && (ls[i].key, config[ls[i].key]) in Expected(ls, config)
  {
    assert ls[i].Setting? ==> ls[i].key in SettingKeys(ls);
    SettingKeysTail(ls);
    if i > 0 {
      assert ls[1..][i - 1] == ls[i];
      ExpectedHas(ls[1..], config, i - 1);
    }
  }

  /**
   * A rendered `.env` reads back as `KEY=value` for each of the twenty keys,
   * plus `SERVICE_NAME=research-pad` and the `PEERS` line.
   */
  lemma RenderedAssignments(config: map<string, string>)
    requires TemplateKeys() <= config.Keys
    requires forall k :: k in config ==> '\n' !in config[k]
    ensures forall k :: k in TemplateKeys() ==> (k, config[k]) in Entries(Render(config))
    ensures (ServiceNameKey, ServiceNameValue) in Entries(Render(config))
    ensures (PeersKey, PeersValue) in Entries(Render(config))
  {
    RenderRoundTrip(config);
    forall k | k in TemplateKeys() ensures (k, config[k]) in Expected(Template, config) {
      var i :| 0 <= i < |Template| && Template[i].Setting? && Template[i].key == k;
      ExpectedHas(Template, config, i);
    }
    assert Template[5] == Fixed(ServiceNameKey, ServiceNameValue);
    ExpectedHas(Template, config, 5);
    assert Template[|Template| - 1] == Fixed(PeersKey, PeersValue);
    ExpectedHas(Template, config, |Template| - 1);
  }
}
