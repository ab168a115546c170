// The kernel command line: the host prints it, two guest components parse it.
module KernelCmdline {
  import opened Base
  import opened Text

  datatype NetworkConfig = NetworkConfig(ip: string, gateway: string, netmask: string, dns: seq<string>)

  datatype Config = Config(
    console: string,
    quiet: bool,
    logLevel: int,
    rpcPort: nat,
    streamPort: nat,
    cid: nat,
    network: Option<NetworkConfig>,
    initArgs: seq<string>)

  // ---------------------------------------------------------------- host

  function Decimals(n: int): string { if n < 0 then "-" + Itoa(-n) else Itoa(n) }

  // The kernel takes at most two DNS servers.
  function FirstTwo(dns: seq<string>): seq<string> { if |dns| <= 2 then dns else dns[..2] }

  // client-ip : server-ip : gw-ip : netmask : hostname : device : autoconf : dns0-ip : dns1-ip
  function IpList(net: NetworkConfig): seq<string> {
    [net.ip, "", net.gateway, net.netmask, "", "eth0", "none"] + FirstTwo(net.dns)
  }

  function NetworkParam(net: Option<NetworkConfig>): string {
    if net.None? || net.value.ip == "" then "" else "ip=" + Join(IpList(net.value), ":")
  }

  // The printed format is the ip= list of the kernel, colon-separated.
  method BuildNetworkParam(net: Option<NetworkConfig>) returns (param: string)
    ensures param == NetworkParam(net)
  {
    if net.None? || net.value.ip == "" { return ""; }
    var n := net.value;
    param := "ip=" + n.ip + "::" + n.gateway + ":" + n.netmask + "::eth0:none";
    ghost var fixed := [n.ip, "", n.gateway, n.netmask, "", "eth0", "none"];
    FormatIsJoin(n);
    assert fixed + n.dns[..0] == fixed;
    var i := 0;
    while i < |n.dns| && i < 2
      invariant 0 <= i <= |n.dns| && i <= 2
      invariant param == "ip=" + Join(fixed + n.dns[..i], ":")
    {
      OneMoreServer("ip=", fixed, n.dns, i);
      param := param + ":" + n.dns[i];
      i := i + 1;
    }
    assert n.dns[..i] == FirstTwo(n.dns);
  }

  lemma OneMoreServer(head: string, fixed: seq<string>, dns: seq<string>, i: nat)
    requires i < |dns| && fixed != []
    ensures head + Join(fixed + dns[..i], ":") + ":" + dns[i] == head + Join(fixed + dns[..i + 1], ":")
  {
    JoinSnoc(fixed + dns[..i], dns[i], ":");
    assert fixed + dns[..i] + [dns[i]] == fixed + dns[..i + 1];
  }

  lemma FormatIsJoin(n: NetworkConfig)
    ensures "ip=" + n.ip + "::" + n.gateway + ":" + n.netmask + "::eth0:none"
            == "ip=" + Join([n.ip, "", n.gateway, n.netmask, "", "eth0", "none"], ":")
  {
    var j1 := [n.ip];
    var j2 := j1 + [""];
    var j3 := j2 + [n.gateway];
    var j4 := j3 + [n.netmask];
    var j5 := j4 + [""];
    var j6 := j5 + ["eth0"];
    JoinSnoc(j1, "", ":");
    JoinSnoc(j2, n.gateway, ":");
    JoinSnoc(j3, n.netmask, ":");
    JoinSnoc(j4, "", ":");
    JoinSnoc(j5, "eth0", ":");
    JoinSnoc(j6, "none", ":");
    assert j6 + ["none"] == [n.ip, "", n.gateway, n.netmask, "", "eth0", "none"];
    Colons("ip=", n.ip, n.gateway, n.netmask);
  }

  lemma Colons(p: string, a: string, b: string, c: string)
    ensures p + a + "::" + b + ":" + c + "::eth0:none"
            == p + (a + ":" + "" + ":" + b + ":" + c + ":" + "" + ":" + "eth0" + ":" + "none")
  {
    var s := a + ":" + "" + ":" + b + ":" + c;
    assert p + a + "::" + b + ":" + c == p + s;
    assert "::eth0:none" == ":" + "" + ":" + "eth0" + ":" + "none";
    assert s + ":" + "" + ":" + "eth0" + ":" + "none" == s + (":" + "" + ":" + "eth0" + ":" + "none");
    assert p + s + "::eth0:none" == p + (s + "::eth0:none");
  }

  predicate NeedsQuoting(s: string) { exists i :: 0 <= i < |s| && (s[i] == ' ' || s[i] == '\t' || s[i] == '\n') }

  function Quote(s: string): string { if NeedsQuoting(s) then "\"" + s + "\"" else s }

  function Quoted(args: seq<string>): seq<string> {
    if args == [] then [] else [Quote(args[0])] + Quoted(args[1..])
  }

  lemma {:induction false} QuotedSnoc(args: seq<string>, arg: string)
    ensures Quoted(args + [arg]) == Quoted(args) + [Quote(arg)]
  {
    if args != [] {
      QuotedSnoc(args[1..], arg);
      assert (args + [arg])[1..] == args[1..] + [arg];
    }
  }

  // formatInitArgs writes the quoted arguments with single spaces between them.
  method FormatInitArgs(args: seq<string>) returns (line: string)
    ensures line == Join(Quoted(args), " ")
  {
    line := "";
    for i := 0 to |args|
      invariant |Quoted(args[..i])| == i && line == Join(Quoted(args[..i]), " ")
    {
      var arg := Quote(args[i]);
      if i > 0 { line := line + " "; }
      line := line + arg;
      JoinSnoc(Quoted(args[..i]), arg, " ");
      assert args[..i + 1] == args[..i] + [args[i]];
      QuotedSnoc(args[..i], args[i]);
    }
    assert args[..|args|] == args;
  }

  lemma {:induction false} JoinSnoc(parts: seq<string>, last: string, sep: string)
    ensures Join(parts + [last], sep) == if parts == [] then last else Join(parts, sep) + sep + last
  {
    if |parts| == 1 {
      assert (parts + [last])[1..] == [last];
    } else if |parts| > 1 {
      assert (parts + [last])[1..] == parts[1..] + [last];
      JoinSnoc(parts[1..], last, sep);
    }
  }

  function InitArgs(cfg: Config): seq<string> {
    ["-vsock-rpc-port=" + Itoa(cfg.rpcPort), "-vsock-stream-port=" + Itoa(cfg.streamPort),
     "-vsock-cid=" + Itoa(cfg.cid)]
    + cfg.initArgs
  }

  const TUNING: seq<string> := [
    "systemd.show_status=0", "systemd.log_level=warning", "panic=1", "net.ifnames=0", "biosdevname=0",
    "systemd.unified_cgroup_hierarchy=1", "cgroup_no_v1=all", "nohz=off"]

  function Preamble(cfg: Config): seq<string> {
    (if cfg.console != "" then ["console=" + cfg.console] else [])
    + (if cfg.quiet then ["quiet"] else [])
    + ["loglevel=" + Decimals(cfg.logLevel)]
    + TUNING
  }

  function Parts(cfg: Config): seq<string> {
    Preamble(cfg)
    + (if NetworkParam(cfg.network) != "" then [NetworkParam(cfg.network)] else [])
    + [InitParam(cfg)]
  }

  function InitParam(cfg: Config): string { "init=/sbin/vminitd -- " + Join(Quoted(InitArgs(cfg)), " ") }

  function Build(cfg: Config): string { Join(Parts(cfg), " ") }

  // What the guest reads: the kernel ends /proc/cmdline with a newline.
  function ProcCmdline(cfg: Config): string { Build(cfg) + "\n" }

  // ---------------------------------------------------------------- guest: ip= parameter

  const IP: string := "ip="

  // The colon-separated fields of the first ip= parameter.
  function IpFields(params: seq<string>): seq<string> {
    if params == [] then []
    else if HasPrefix(params[0], IP) then Split(params[0][3..], ':')
    else IpFields(params[1..])
  }

  function At(parts: seq<string>, i: nat): seq<string> {
    if |parts| > i && parts[i] != "" then [parts[i]] else []
  }

  function Nameservers(cmdline: string): seq<string> {
    At(IpFields(Fields(cmdline)), 7) + At(IpFields(Fields(cmdline)), 8)
  }

  function Gateway(cmdline: string): string {
    var parts := IpFields(Fields(cmdline));
    if |parts| > 2 then parts[2] else ""
  }

  // The parsing loop of configureDNS.
  method ConfigureDNS(cmdline: string) returns (nameservers: seq<string>)
    ensures nameservers == Nameservers(cmdline)
  {
    nameservers := [];
    var params := Fields(cmdline);
    var i := 0;
    assert params[0..] == params;
    while i < |params|
      invariant 0 <= i <= |params| && nameservers == []
      invariant IpFields(params) == IpFields(params[i..])
    {
      if HasPrefix(params[i], IP) {
        var parts := Split(params[i][3..], ':');
        if |parts| > 7 && parts[7] != "" { nameservers := nameservers + [parts[7]]; }
        if |parts| > 8 && parts[8] != "" { nameservers := nameservers + [parts[8]]; }
        return;
      }
      assert params[i..][1..] == params[i + 1..];
      i := i + 1;
    }
  }

  // The parsing loop of configureMetadataRoute.
  method FindGateway(cmdline: string) returns (gateway: string)
    ensures gateway == Gateway(cmdline)
  {
    gateway := "";
    var params := Fields(cmdline);
    var i := 0;
    assert params[0..] == params;
    while i < |params|
      invariant 0 <= i <= |params| && gateway == ""
      invariant IpFields(params) == IpFields(params[i..])
    {
      if HasPrefix(params[i], IP) {
        var parts := Split(params[i][3..], ':');
        if |parts| > 2 && parts[2] != "" { gateway := parts[2]; }
        return;
      }
      assert params[i..][1..] == params[i + 1..];
      i := i + 1;
    }
  }

  // ---------------------------------------------------------------- guest: supervisor parameters

  datatype Supervisor = Supervisor(workspaceID: string, secret: string, metadataAddr: string, controlPlane: string)

  const WORKSPACE: string := "spin.workspace_id="
  const SECRET: string := "spin.secret="
  const METADATA: string := "spin.metadata_addr="
  const CONTROL: string := "spin.control_plane="
  const DEFAULT_METADATA: string := "169.254.169.254:80"

  // The arguments the shim adds for an enabled supervisor.
  function SupervisorArgs(sup: Supervisor): seq<string> {
    [WORKSPACE + sup.workspaceID, SECRET + sup.secret, METADATA + sup.metadataAddr, CONTROL + sup.controlPlane]
  }

  datatype Scan = Scan(cfg: Supervisor, found: bool)

  function See(s: Scan, param: string): Scan {
    if HasPrefix(param, WORKSPACE) then Scan(s.cfg.(workspaceID := param[|WORKSPACE|..]), true)
    else if HasPrefix(param, SECRET) then Scan(s.cfg.(secret := param[|SECRET|..]), true)
    else if HasPrefix(param, METADATA) then Scan(s.cfg.(metadataAddr := param[|METADATA|..]), true)
    else if HasPrefix(param, CONTROL) then Scan(s.cfg.(controlPlane := param[|CONTROL|..]), true)
    else s
  }

  function SeeAll(params: seq<string>): Scan {
    if params == [] then Scan(Supervisor("", "", "", ""), false)
    else See(SeeAll(params[..|params| - 1]), params[|params| - 1])
  }

  function WithDefaults(sup: Supervisor): Supervisor {
    if sup.metadataAddr == "" then sup.(metadataAddr := DEFAULT_METADATA) else sup
  }

  function ParseSupervisor(cmdline: string): Option<Supervisor> {
    var s := SeeAll(Fields(cmdline));
    if s.found then Some(WithDefaults(s.cfg)) else None
  }

  // The parsing loop of ParseFromCmdline.
  method ParseFromCmdline(cmdline: string) returns (cfg: Option<Supervisor>)
    ensures cfg == ParseSupervisor(cmdline)
  {
    var params := Fields(cmdline);
    var s := Scan(Supervisor("", "", "", ""), false);
    for i := 0 to |params|
      invariant s == SeeAll(params[..i])
    {
      assert params[..i + 1][..i] == params[..i];
      s := See(s, params[i]);
    }
    assert params[..|params|] == params;
    if !s.found { return None; }
    if s.cfg.metadataAddr == "" { return Some(s.cfg.(metadataAddr := DEFAULT_METADATA)); }
    return Some(s.cfg);
  }
}
