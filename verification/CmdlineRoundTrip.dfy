// What the guest recovers from the command line the host printed.
module CmdlineRoundTrip {
  import opened Base
  import opened Text
  import opened KernelCmdline

  predicate Plain(s: string) { SpaceFree(s) && ':' !in s }

  // ---------------------------------------------------------------- fields of the printed line

  predicate Words(parts: seq<string>) { forall i :: 0 <= i < |parts| ==> parts[i] != "" && SpaceFree(parts[i]) }

  lemma {:induction false} AllFieldsOfWords(parts: seq<string>)
    requires Words(parts)
    ensures AllFields(parts) == parts
  {
    if parts != [] {
      FieldsOfWord(parts[0]);
      AllFieldsOfWords(parts[1..]);
    }
  }

  lemma {:induction false} AllFieldsAppend(a: seq<string>, b: seq<string>)
    ensures AllFields(a + b) == AllFields(a) + AllFields(b)
  {
    if a == [] {
      assert a + b == b;
    } else {
      assert (a + b)[1..] == a[1..] + b;
      AllFieldsAppend(a[1..], b);
    }
  }

  // The guest sees the fields of every printed part, in order.
  lemma FieldsOfCmdline(cfg: Config)
    ensures Fields(ProcCmdline(cfg)) == AllFields(Parts(cfg))
  {
    FieldsAppend(Build(cfg), '\n', "");
    assert Build(cfg) + "\n" == Build(cfg) + ['\n'] + "";
    FieldsOfJoin(Parts(cfg));
  }

  lemma DigitsAreSpaceFree(n: int)
    ensures SpaceFree(Decimals(n)) && Decimals(n) != ""
  {
  }

  // A field that is not an ip= parameter.
  predicate OtherWord(p: string) { p != "" && SpaceFree(p) && !HasPrefix(p, IP) }

  lemma SystemdWords()
    ensures OtherWord("systemd.show_status=0") && OtherWord("systemd.log_level=warning")
  {
    assert IP[0] == 'i';
  }

  lemma CgroupWord()
    ensures OtherWord("systemd.unified_cgroup_hierarchy=1")
  {
    assert IP[0] == 'i';
  }

  lemma KernelWords()
    ensures OtherWord("panic=1") && OtherWord("net.ifnames=0") && OtherWord("biosdevname=0")
    ensures OtherWord("cgroup_no_v1=all") && OtherWord("nohz=off")
  {
    assert IP[0] == 'i';
  }

  lemma TuningIsOther()
    ensures forall i :: 0 <= i < |TUNING| ==> OtherWord(TUNING[i])
  {
    SystemdWords();
    CgroupWord();
    KernelWords();
    forall i | 0 <= i < |TUNING| ensures OtherWord(TUNING[i]) {
      assert i == 0 || i == 1 || i == 2 || i == 3 || i == 4 || i == 5 || i == 6 || i == 7;
    }
  }

  lemma OtherPrefix(p: string, v: string)
    requires p != "" && p[0] != 'i' && SpaceFree(p) && SpaceFree(v)
    ensures OtherWord(p + v)
  {
    assert (p + v)[0] == p[0] && IP[0] == 'i';
  }

  lemma PreambleIsWords(cfg: Config)
    requires SpaceFree(cfg.console)
    ensures forall i :: 0 <= i < |Preamble(cfg)| ==> OtherWord(Preamble(cfg)[i])
  {
    DigitsAreSpaceFree(cfg.logLevel);
    OtherPrefix("console=", cfg.console);
    OtherPrefix("loglevel=", Decimals(cfg.logLevel));
    OtherPrefix("quiet", "");
    assert "quiet" + "" == "quiet";
    TuningIsOther();
  }

  // The fields of the line: preamble, network parameter, init command and its arguments.
  lemma FieldsByPart(cfg: Config)
    ensures Fields(ProcCmdline(cfg)) ==
            AllFields(Preamble(cfg))
            + (if NetworkParam(cfg.network) != "" then Fields(NetworkParam(cfg.network)) else [])
            + Fields(InitParam(cfg))
  {
    FieldsOfCmdline(cfg);
    var net := NetworkParam(cfg.network);
    var nets := if net != "" then [net] else [];
    AllFieldsAppend(Preamble(cfg) + nets, [InitParam(cfg)]);
    AllFieldsAppend(Preamble(cfg), nets);
    AllFieldsOfOne(net);
    AllFieldsOfOne(InitParam(cfg));
  }

  lemma AllFieldsOfOne(p: string)
    ensures AllFields([p]) == Fields(p)
  {
    assert [p][1..] == [];
  }

  // ---------------------------------------------------------------- network

  lemma {:induction false} IpFieldsSkip(a: seq<string>, b: seq<string>)
    requires forall i :: 0 <= i < |a| ==> !HasPrefix(a[i], IP)
    ensures IpFields(a + b) == IpFields(b)
  {
    if a == [] {
      assert a + b == b;
    } else {
      assert (a + b)[1..] == a[1..] + b;
      IpFieldsSkip(a[1..], b);
    }
  }

  ghost predicate PlainNetwork(net: NetworkConfig) {
    && net.ip != "" && Plain(net.ip) && Plain(net.gateway) && Plain(net.netmask)
    && forall i :: 0 <= i < |net.dns| ==> Plain(net.dns[i])
  }

  lemma IpListIsPlain(net: NetworkConfig)
    requires PlainNetwork(net)
    ensures forall i :: 0 <= i < |IpList(net)| ==> Plain(IpList(net)[i])
  {
  }

  lemma PrefixedList(list: seq<string>)
    requires list != [] && forall i :: 0 <= i < |list| ==> Plain(list[i])
    ensures var param := "ip=" + Join(list, ":");
            SpaceFree(param) && HasPrefix(param, IP) && Split(param[3..], ':') == list
  {
    assert SpaceFree(":");
    SpaceFreeJoin(list, ":");
    SplitOfJoin(list, ':');
    Prefixed(Join(list, ":"));
  }

  lemma Prefixed(line: string)
    requires SpaceFree(line)
    ensures var param := "ip=" + line;
            SpaceFree(param) && HasPrefix(param, IP) && param[3..] == line
  {
  }

  lemma NetworkParamIsWord(net: NetworkConfig)
    requires PlainNetwork(net)
    ensures SpaceFree(NetworkParam(Some(net))) && NetworkParam(Some(net)) != ""
    ensures HasPrefix(NetworkParam(Some(net)), IP)
    ensures Split(NetworkParam(Some(net))[3..], ':') == IpList(net)
  {
    IpListIsPlain(net);
    PrefixedList(IpList(net));
  }

  // The first ip= parameter after other words is the one the guest reads.
  lemma IpIsFound(before: seq<string>, param: string, after: seq<string>)
    requires forall i :: 0 <= i < |before| ==> OtherWord(before[i])
    requires param != "" && SpaceFree(param) && HasPrefix(param, IP)
    ensures IpFields(AllFields(before) + Fields(param) + after) == Split(param[3..], ':')
  {
    AllFieldsOfWords(before);
    FieldsOfWord(param);
    assert before + [param] + after == before + ([param] + after);
    IpFieldsSkip(before, [param] + after);
    IpFieldsHead(param, after);
  }

  // The parts of an ip= parameter by position, as the kernel's nfsroot documentation names them. A part that is
  // not there is empty.
  datatype IpConfig = IpConfig(
    client: string,
    server: string,
    gateway: string,
    netmask: string,
    hostname: string,
    device: string,
    autoconf: string,
    dns0: string,
    dns1: string)

  function Part(parts: seq<string>, i: nat): string { if i < |parts| then parts[i] else "" }

  function ReadIp(parts: seq<string>): IpConfig {
    IpConfig(Part(parts, 0), Part(parts, 1), Part(parts, 2), Part(parts, 3), Part(parts, 4), Part(parts, 5),
             Part(parts, 6), Part(parts, 7), Part(parts, 8))
  }

  // A static address on eth0, without autoconfiguration.
  function StaticIp(net: NetworkConfig): IpConfig {
    IpConfig(net.ip, "", net.gateway, net.netmask, "", "eth0", "none", Part(net.dns, 0), Part(net.dns, 1))
  }

  // The guest recovers every part of the network by its position, the gateway and exactly the first two DNS
  // servers (empty ones are dropped), whatever the init arguments are.
  lemma NetworkRoundTrip(cfg: Config)
    requires SpaceFree(cfg.console)
    requires cfg.network.Some? && PlainNetwork(cfg.network.value)
    ensures ReadIp(IpFields(Fields(ProcCmdline(cfg)))) == StaticIp(cfg.network.value)
    ensures Gateway(ProcCmdline(cfg)) == cfg.network.value.gateway
    ensures Nameservers(ProcCmdline(cfg)) ==
            At(FirstTwo(cfg.network.value.dns), 0) + At(FirstTwo(cfg.network.value.dns), 1)
  {
    NetworkParamIsWord(cfg.network.value);
    FieldsByPart(cfg);
    PreambleIsWords(cfg);
    IpIsFound(Preamble(cfg), NetworkParam(cfg.network), Fields(InitParam(cfg)));
    IpListAt(cfg.network.value);
  }

  lemma IpFieldsHead(param: string, rest: seq<string>)
    requires HasPrefix(param, IP)
    ensures IpFields([param] + rest) == Split(param[3..], ':')
  {
  }

  lemma IpListAt(net: NetworkConfig)
    ensures ReadIp(IpList(net)) == StaticIp(net)
    ensures IpList(net)[2] == net.gateway
    ensures At(IpList(net), 7) == At(FirstTwo(net.dns), 0) && At(IpList(net), 8) == At(FirstTwo(net.dns), 1)
  {
  }

  // ---------------------------------------------------------------- supervisor

  lemma {:induction false} ScanIsSpaceFree(params: seq<string>)
    requires forall i :: 0 <= i < |params| ==> SpaceFree(params[i])
    ensures var c := SeeAll(params).cfg;
            SpaceFree(c.workspaceID) && SpaceFree(c.secret) && SpaceFree(c.metadataAddr) && SpaceFree(c.controlPlane)
  {
    if params != [] { ScanIsSpaceFree(params[..|params| - 1]); }
  }

  predicate SpaceFreeSupervisor(sup: Supervisor) {
    SpaceFree(sup.workspaceID) && SpaceFree(sup.secret) && SpaceFree(sup.metadataAddr) && SpaceFree(sup.controlPlane)
  }

  // The four prefixes differ in their sixth character.
  lemma SeeEach(s: Scan, v: string)
    ensures See(s, WORKSPACE + v) == Scan(s.cfg.(workspaceID := v), true)
    ensures See(s, SECRET + v) == Scan(s.cfg.(secret := v), true)
    ensures See(s, METADATA + v) == Scan(s.cfg.(metadataAddr := v), true)
    ensures See(s, CONTROL + v) == Scan(s.cfg.(controlPlane := v), true)
  {
    assert WORKSPACE[5] == 'w' && SECRET[5] == 's' && METADATA[5] == 'm' && CONTROL[5] == 'c';
    assert (WORKSPACE + v)[|WORKSPACE|..] == v;
    assert (SECRET + v)[5] == 's' && (SECRET + v)[|SECRET|..] == v;
    assert (METADATA + v)[5] == 'm' && (METADATA + v)[|METADATA|..] == v;
    assert (CONTROL + v)[5] == 'c' && (CONTROL + v)[|CONTROL|..] == v;
  }

  lemma SeeSnoc(params: seq<string>, p: string)
    ensures SeeAll(params + [p]) == See(SeeAll(params), p)
  {
    assert (params + [p])[..|params|] == params;
  }

  lemma SeeFour(before: seq<string>, a: string, b: string, c: string, d: string)
    ensures SeeAll(before + [a, b, c, d]) == See(See(See(See(SeeAll(before), a), b), c), d)
  {
    var p1 := before + [a];
    var p2 := p1 + [b];
    var p3 := p2 + [c];
    SeeSnoc(before, a);
    SeeSnoc(p1, b);
    SeeSnoc(p2, c);
    SeeSnoc(p3, d);
    assert before + [a, b, c, d] == p3 + [d];
  }

  // The four arguments decide the result, whatever came before them.
  lemma SeeSupervisorArgs(before: seq<string>, sup: Supervisor)
    ensures SeeAll(before + SupervisorArgs(sup)) == Scan(sup, true)
  {
    var args := SupervisorArgs(sup);
    SeeFour(before, args[0], args[1], args[2], args[3]);
    var s0 := SeeAll(before);
    var s1 := Scan(s0.cfg.(workspaceID := sup.workspaceID), true);
    var s2 := Scan(s1.cfg.(secret := sup.secret), true);
    var s3 := Scan(s2.cfg.(metadataAddr := sup.metadataAddr), true);
    SeeEach(s0, sup.workspaceID);
    SeeEach(s1, sup.secret);
    SeeEach(s2, sup.metadataAddr);
    SeeEach(s3, sup.controlPlane);
  }

  lemma {:induction false} QuotedWords(args: seq<string>)
    requires Words(args)
    ensures Quoted(args) == args
  {
    if args != [] { QuotedWords(args[1..]); }
  }

  lemma {:induction false} QuotedAppend(a: seq<string>, b: seq<string>)
    ensures Quoted(a + b) == Quoted(a) + Quoted(b)
  {
    if a == [] {
      assert a + b == b;
    } else {
      assert (a + b)[1..] == a[1..] + b;
      QuotedAppend(a[1..], b);
    }
  }

  lemma SupervisorArgsAreWords(sup: Supervisor)
    requires SpaceFreeSupervisor(sup)
    ensures Words(SupervisorArgs(sup))
  {
  }

  // With white-space-free values, the four arguments are the last fields of the line.
  lemma FieldsEndWithArgs(cfg: Config, sup: Supervisor) returns (before: seq<string>)
    requires cfg.initArgs == SupervisorArgs(sup) && SpaceFreeSupervisor(sup)
    ensures Fields(ProcCmdline(cfg)) == before + SupervisorArgs(sup)
  {
    var args := SupervisorArgs(sup);
    var head := InitFields(cfg, args);
    SupervisorArgsAreWords(sup);
    QuotedWords(args);
    AllFieldsOfWords(args);
    FieldsByPart(cfg);
    var net := if NetworkParam(cfg.network) != "" then Fields(NetworkParam(cfg.network)) else [];
    before := AllFields(Preamble(cfg)) + net + head;
    assert AllFields(Preamble(cfg)) + net + (head + args) == before + args;
  }

  // The fields of the init parameter end with those of the extra arguments.
  lemma InitFields(cfg: Config, args: seq<string>) returns (head: seq<string>)
    requires cfg.initArgs == args
    ensures Fields(InitParam(cfg)) == head + AllFields(Quoted(args))
  {
    var vsock := InitArgs(cfg)[..3];
    assert InitArgs(cfg) == vsock + args;
    QuotedAppend(vsock, args);
    FieldsOfJoin(Quoted(InitArgs(cfg)));
    AllFieldsAppend(Quoted(vsock), Quoted(args));
    var line := Join(Quoted(InitArgs(cfg)), " ");
    assert InitParam(cfg) == "init=/sbin/vminitd --" + [' '] + line;
    FieldsAppend("init=/sbin/vminitd --", ' ', line);
    head := Fields("init=/sbin/vminitd --") + AllFields(Quoted(vsock));
  }

  lemma SupervisorRecovered(cfg: Config, sup: Supervisor)
    requires cfg.initArgs == SupervisorArgs(sup) && SpaceFreeSupervisor(sup)
    ensures ParseSupervisor(ProcCmdline(cfg)) == Some(WithDefaults(sup))
  {
    var before := FieldsEndWithArgs(cfg, sup);
    SeeSupervisorArgs(before, sup);
  }

  // What the guest parses never holds white space, up to the default address.
  lemma ParsedIsSpaceFree(line: string, sup: Supervisor)
    requires ParseSupervisor(line) == Some(WithDefaults(sup))
    ensures SpaceFreeSupervisor(sup)
  {
    FieldsAreSpaceFree(line);
    ScanIsSpaceFree(Fields(line));
    assert SeeAll(Fields(line)).cfg.(metadataAddr := sup.metadataAddr) == sup;
  }

  // The guest recovers the four printed values if and only if none of them holds white space.
  lemma SupervisorRoundTrip(cfg: Config, sup: Supervisor)
    requires cfg.initArgs == SupervisorArgs(sup)
    ensures ParseSupervisor(ProcCmdline(cfg)) == Some(WithDefaults(sup)) <==> SpaceFreeSupervisor(sup)
  {
    if SpaceFreeSupervisor(sup) {
      SupervisorRecovered(cfg, sup);
    } else if ParseSupervisor(ProcCmdline(cfg)) == Some(WithDefaults(sup)) {
      ParsedIsSpaceFree(ProcCmdline(cfg), sup);
    }
  }

  // A quoted secret is lost: the guest splits it at the space and no longer sees its prefix.
  lemma QuotedSecretIsLost(cfg: Config)
    requires cfg.initArgs == SupervisorArgs(Supervisor("w", "a b", "m", "c"))
    ensures ParseSupervisor(ProcCmdline(cfg)) != Some(Supervisor("w", "a b", "m", "c"))
  {
    SupervisorRoundTrip(cfg, Supervisor("w", "a b", "m", "c"));
    assert IsSpace("a b"[1]);
  }
}
