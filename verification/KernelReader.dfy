// What the kernel and the init process read from the printed command line.
module KernelReader {
  import opened Base
  import opened Text
  import opened KernelCmdline
  import opened CmdlineRoundTrip

  // ---------------------------------------------------------------- the kernel's words

  predicate KernelSpace(c: char) {
    var n := c as int;
    9 <= n <= 13 || n == 0x20 || n == 0xA0
  }

  // White space separates words, unless it stands between double quotes, which are dropped. some: a word has
  // begun; quoted: inside quotes.
  function Scanned(s: string, word: string, some: bool, quoted: bool): seq<string>
    decreases |s|
  {
    if s == "" then (if some then [word] else [])
    else if s[0] == '"' then Scanned(s[1..], word, true, !quoted)
    else if KernelSpace(s[0]) && !quoted then
      if some then [word] + Scanned(s[1..], "", false, false) else Scanned(s[1..], "", false, false)
    else Scanned(s[1..], word + [s[0]], true, quoted)
  }

  function Tokens(s: string): seq<string> { Scanned(s, "", false, false) }

  // ---------------------------------------------------------------- reading a printed word

  predicate Bare(w: string) { '"' !in w && forall i :: 0 <= i < |w| ==> !KernelSpace(w[i]) }

  // An argument that survives printing.
  predicate Readable(arg: string) { arg != "" && '"' !in arg && (NeedsQuoting(arg) || Bare(arg)) }

  lemma {:induction false} BareRun(w: string, rest: string, word: string, some: bool)
    requires Bare(w)
    ensures Scanned(w + rest, word, some, false) == Scanned(rest, word + w, some || w != "", false)
  {
    if w == "" {
      assert w + rest == rest && word + w == word;
    } else {
      assert (w + rest)[0] == w[0] && (w + rest)[1..] == w[1..] + rest;
      BareRun(w[1..], rest, word + [w[0]], true);
      assert word + [w[0]] + w[1..] == word + w;
    }
  }

  lemma {:induction false} QuotedRun(w: string, rest: string, word: string)
    requires '"' !in w
    ensures Scanned(w + rest, word, true, true) == Scanned(rest, word + w, true, true)
  {
    if w == "" {
      assert w + rest == rest && word + w == word;
    } else {
      assert (w + rest)[0] == w[0] && (w + rest)[1..] == w[1..] + rest;
      QuotedRun(w[1..], rest, word + [w[0]]);
      assert word + [w[0]] + w[1..] == word + w;
    }
  }

  lemma PrintedWord(arg: string, rest: string)
    requires Readable(arg)
    ensures Scanned(Quote(arg) + rest, "", false, false) == Scanned(rest, arg, true, false)
  {
    if NeedsQuoting(arg) {
      BetweenQuotes(arg, rest);
    } else {
      BareRun(arg, rest, "", false);
      assert "" + arg == arg;
    }
  }

  lemma BetweenQuotes(arg: string, rest: string)
    requires '"' !in arg
    ensures Scanned("\"" + arg + "\"" + rest, "", false, false) == Scanned(rest, arg, true, false)
  {
    var close := "\"" + rest;
    var s := "\"" + arg + "\"" + rest;
    assert s[0] == '"' && s[1..] == arg + close;
    assert close[0] == '"' && close[1..] == rest;
    QuotedRun(arg, close, "");
    assert "" + arg == arg;
  }

  // Printed arguments, with spaces between them and white space at the end, are read back.
  lemma {:induction false} TokensOfJoin(args: seq<string>, tail: string)
    requires forall i :: 0 <= i < |args| ==> Readable(args[i])
    requires forall i :: 0 <= i < |tail| ==> KernelSpace(tail[i]) && tail[i] != '"'
    ensures Tokens(Join(Quoted(args), " ") + tail) == args
  {
    if args == [] {
      assert Join(Quoted(args), " ") + tail == tail;
      OnlySpace(tail);
    } else if |args| == 1 {
      assert Quoted(args) == [Quote(args[0])] + Quoted(args[1..]) && Quoted(args[1..]) == [];
      PrintedWord(args[0], tail);
      SpaceAfter(args[0], tail);
    } else {
      var first, more := Quote(args[0]), Join(Quoted(args[1..]), " ");
      QuotedTwo(args);
      assert Join(Quoted(args), " ") + tail == first + (" " + (more + tail));
      PrintedWord(args[0], " " + (more + tail));
      assert (" " + (more + tail))[1..] == more + tail && KernelSpace(' ');
      TokensOfJoin(args[1..], tail);
      assert args == [args[0]] + args[1..];
    }
  }

  lemma QuotedTwo(args: seq<string>)
    requires |args| > 1
    ensures Join(Quoted(args), " ") == Quote(args[0]) + " " + Join(Quoted(args[1..]), " ")
  {
    assert Quoted(args)[1..] == Quoted(args[1..]);
    assert |Quoted(args[1..])| > 0;
  }

  lemma {:induction false} OnlySpace(tail: string)
    requires forall i :: 0 <= i < |tail| ==> KernelSpace(tail[i]) && tail[i] != '"'
    ensures Scanned(tail, "", false, false) == []
  {
    if tail != "" { OnlySpace(tail[1..]); }
  }

  lemma SpaceAfter(word: string, tail: string)
    requires forall i :: 0 <= i < |tail| ==> KernelSpace(tail[i]) && tail[i] != '"'
    ensures Scanned(tail, word, true, false) == [word]
  {
    if tail != "" {
      OnlySpace(tail[1..]);
      assert [word] + [] == [word];
    }
  }

  // ---------------------------------------------------------------- the words of the line

  const INIT_WORD: string := "init=/sbin/vminitd"
  const DASHES: string := "--"

  function BootWords(cfg: Config): seq<string> {
    Preamble(cfg) + (if NetworkParam(cfg.network) != "" then [NetworkParam(cfg.network)] else [])
  }

  function LineWords(cfg: Config): seq<string> { BootWords(cfg) + [INIT_WORD, DASHES] + InitArgs(cfg) }

  predicate Unquoted(w: string) { w != "" && SpaceFree(w) && '"' !in w }

  // A word that the kernel takes for itself.
  predicate Boot(w: string) { Unquoted(w) && w[0] != '-' }

  predicate AllBoot(words: seq<string>) { forall i :: 0 <= i < |words| ==> Boot(words[i]) }

  // Console and network hold neither white space nor quotes, and every extra argument survives printing.
  ghost predicate Printable(cfg: Config) {
    && SpaceFree(cfg.console) && '"' !in cfg.console
    && (NetworkParam(cfg.network) != "" ==> PlainNetwork(cfg.network.value) && '"' !in NetworkParam(cfg.network))
    && forall i :: 0 <= i < |cfg.initArgs| ==> Readable(cfg.initArgs[i])
  }

  lemma UnquotedIsReadable(w: string)
    requires Unquoted(w)
    ensures Readable(w) && Quote(w) == w
  {
    assert forall c: char :: KernelSpace(c) ==> IsSpace(c);
    assert IsSpace(' ') && IsSpace('\t') && IsSpace('\n');
  }

  lemma {:induction false} UnquotedWords(words: seq<string>)
    requires forall i :: 0 <= i < |words| ==> Unquoted(words[i])
    ensures Quoted(words) == words && forall i :: 0 <= i < |words| ==> Readable(words[i])
  {
    if words != [] {
      UnquotedIsReadable(words[0]);
      UnquotedWords(words[1..]);
    }
  }

  lemma BootOption(p: string, v: string)
    requires Boot(p) && SpaceFree(v) && '"' !in v
    ensures Boot(p + v)
  {
    assert (p + v)[0] == p[0];
  }

  lemma SystemdIsBoot()
    ensures Boot("systemd.show_status=0") && Boot("systemd.log_level=warning")
  {
  }

  lemma CgroupIsBoot()
    ensures Boot("systemd.unified_cgroup_hierarchy=1")
  {
  }

  lemma NamesAreBoot()
    ensures Boot("net.ifnames=0") && Boot("biosdevname=0")
  {
  }

  lemma KernelIsBoot()
    ensures Boot("panic=1") && Boot("cgroup_no_v1=all") && Boot("nohz=off")
  {
  }

  lemma TuningIsBoot()
    ensures AllBoot(TUNING)
  {
    SystemdIsBoot();
    CgroupIsBoot();
    NamesAreBoot();
    KernelIsBoot();
    forall i | 0 <= i < |TUNING| ensures Boot(TUNING[i]) {
      assert i == 0 || i == 1 || i == 2 || i == 3 || i == 4 || i == 5 || i == 6 || i == 7;
    }
  }

  lemma BootAppend(a: seq<string>, b: seq<string>)
    requires AllBoot(a) && AllBoot(b)
    ensures AllBoot(a + b)
  {
  }

  lemma PreambleIsBoot(cfg: Config)
    requires SpaceFree(cfg.console) && '"' !in cfg.console
    ensures AllBoot(Preamble(cfg))
  {
    DigitsAreSpaceFree(cfg.logLevel);
    BootOption("console=", cfg.console);
    BootOption("loglevel=", Decimals(cfg.logLevel));
    assert Boot("quiet");
    var console := if cfg.console != "" then ["console=" + cfg.console] else [];
    var quiet := if cfg.quiet then ["quiet"] else [];
    var level := ["loglevel=" + Decimals(cfg.logLevel)];
    TuningIsBoot();
    BootAppend(console, quiet);
    BootAppend(console + quiet, level);
    BootAppend(console + quiet + level, TUNING);
  }

  lemma BootWordsAreBoot(cfg: Config)
    requires Printable(cfg)
    ensures AllBoot(BootWords(cfg))
  {
    PreambleIsBoot(cfg);
    var net := NetworkParam(cfg.network);
    if net != "" {
      NetworkParamIsWord(cfg.network.value);
      assert net[0] == IP[0] == 'i';
      BootAppend(Preamble(cfg), [net]);
    }
  }

  lemma VsockArgument(name: string, n: nat)
    requires Unquoted(name)
    ensures Unquoted(name + Itoa(n))
  {
  }

  lemma VsockIsUnquoted(cfg: Config)
    ensures forall i :: 0 <= i < 3 ==> Unquoted(InitArgs(cfg)[i])
  {
    VsockArgument("-vsock-rpc-port=", cfg.rpcPort);
    VsockArgument("-vsock-stream-port=", cfg.streamPort);
    VsockArgument("-vsock-cid=", cfg.cid);
  }

  lemma InitArgsAreReadable(cfg: Config)
    requires Printable(cfg)
    ensures forall i :: 0 <= i < |InitArgs(cfg)| ==> Readable(InitArgs(cfg)[i])
  {
    VsockIsUnquoted(cfg);
    forall i | 0 <= i < |InitArgs(cfg)| ensures Readable(InitArgs(cfg)[i]) {
      if i < 3 {
        UnquotedIsReadable(InitArgs(cfg)[i]);
      } else {
        assert InitArgs(cfg)[i] == cfg.initArgs[i - 3];
      }
    }
  }

  lemma {:induction false} JoinAppend(a: seq<string>, b: seq<string>)
    requires a != [] && b != []
    ensures Join(a + b, " ") == Join(a, " ") + " " + Join(b, " ")
  {
    if |a| == 1 {
      assert (a + b)[1..] == b;
    } else {
      assert (a + b)[1..] == a[1..] + b;
      JoinAppend(a[1..], b);
    }
  }

  // The line is the join of its printed words.
  lemma BuildIsJoin(cfg: Config)
    ensures Build(cfg) == Join(BootWords(cfg) + ([INIT_WORD, DASHES] + Quoted(InitArgs(cfg))), " ")
  {
    var args := Quoted(InitArgs(cfg));
    assert args != [];
    JoinAppend([INIT_WORD, DASHES], args);
    JoinAppend([INIT_WORD], [DASHES]);
    assert [INIT_WORD] + [DASHES] == [INIT_WORD, DASHES];
    assert INIT_WORD + " " + DASHES + " " == "init=/sbin/vminitd -- ";
    assert InitParam(cfg) == Join([INIT_WORD, DASHES] + args, " ");
    JoinAppend(BootWords(cfg), [INIT_WORD, DASHES] + args);
    JoinAppend(BootWords(cfg), [InitParam(cfg)]);
  }

  lemma InitIsUnquoted()
    ensures Unquoted(INIT_WORD) && Unquoted(DASHES)
  {
  }

  lemma LineIsPrinted(cfg: Config)
    requires Printable(cfg)
    ensures Quoted(LineWords(cfg)) == BootWords(cfg) + ([INIT_WORD, DASHES] + Quoted(InitArgs(cfg)))
    ensures forall i :: 0 <= i < |LineWords(cfg)| ==> Readable(LineWords(cfg)[i])
  {
    var head := BootWords(cfg) + [INIT_WORD, DASHES];
    BootWordsAreBoot(cfg);
    InitIsUnquoted();
    UnquotedWords(head);
    InitArgsAreReadable(cfg);
    QuotedAppend(head, InitArgs(cfg));
  }

  // The kernel reads back every word, those of the extra arguments with white space included.
  lemma LineIsRead(cfg: Config)
    requires Printable(cfg)
    ensures Tokens(ProcCmdline(cfg)) == LineWords(cfg)
  {
    BuildIsJoin(cfg);
    LineIsPrinted(cfg);
    TokensOfJoin(LineWords(cfg), "\n");
  }

  // ---------------------------------------------------------------- what the kernel keeps and what it hands on

  // Words after -- are the arguments of init.
  function BeforeDashes(words: seq<string>): seq<string> {
    if words == [] || words[0] == DASHES then [] else [words[0]] + BeforeDashes(words[1..])
  }

  function AfterDashes(words: seq<string>): seq<string> {
    if words == [] then [] else if words[0] == DASHES then words[1..] else AfterDashes(words[1..])
  }

  lemma {:induction false} AtDashes(a: seq<string>, b: seq<string>)
    requires DASHES !in a
    ensures BeforeDashes(a + [DASHES] + b) == a && AfterDashes(a + [DASHES] + b) == b
  {
    var words := a + [DASHES] + b;
    if a == [] {
      assert words[1..] == b;
    } else {
      assert words[0] == a[0] && words[1..] == a[1..] + [DASHES] + b;
      AtDashes(a[1..], b);
    }
  }

  // A later ip= parameter replaces an earlier one.
  function KernelIp(words: seq<string>): Option<IpConfig> {
    if words == [] then None
    else
      var last := words[|words| - 1];
      if HasPrefix(last, IP) then Some(ReadIp(Split(last[3..], ':'))) else KernelIp(words[..|words| - 1])
  }

  lemma {:induction false} NoIp(words: seq<string>)
    requires forall i :: 0 <= i < |words| ==> !HasPrefix(words[i], IP)
    ensures KernelIp(words) == None
  {
    if words != [] { NoIp(words[..|words| - 1]); }
  }

  lemma LineAtDashes(cfg: Config)
    requires Printable(cfg)
    ensures BeforeDashes(LineWords(cfg)) == BootWords(cfg) + [INIT_WORD]
    ensures AfterDashes(LineWords(cfg)) == InitArgs(cfg)
  {
    BootWordsAreBoot(cfg);
    assert INIT_WORD[0] == 'i' && DASHES[0] == '-';
    var kept := BootWords(cfg) + [INIT_WORD];
    assert LineWords(cfg) == kept + [DASHES] + InitArgs(cfg);
    AtDashes(kept, InitArgs(cfg));
  }

  lemma IpBeforeInit(words: seq<string>, last: string, init: string)
    requires !HasPrefix(init, IP)
    ensures KernelIp(words + [init]) == KernelIp(words)
    ensures HasPrefix(last, IP) ==> KernelIp(words + [last]) == Some(ReadIp(Split(last[3..], ':')))
  {
    assert (words + [init])[..|words|] == words;
  }

  lemma InitIsNoIp()
    ensures !HasPrefix(INIT_WORD, IP)
  {
    assert INIT_WORD[1] == 'n' && IP[1] == 'p';
  }

  lemma BootIp(cfg: Config)
    requires Printable(cfg)
    ensures KernelIp(BootWords(cfg)) ==
            if cfg.network.None? || cfg.network.value.ip == "" then None else Some(StaticIp(cfg.network.value))
  {
    PreambleIsWords(cfg);
    if cfg.network.None? || cfg.network.value.ip == "" {
      NoIp(BootWords(cfg));
    } else {
      var net := NetworkParam(cfg.network);
      NetworkParamIsWord(cfg.network.value);
      InitIsNoIp();
      IpBeforeInit(Preamble(cfg), net, INIT_WORD);
      IpListAt(cfg.network.value);
    }
  }

  // The kernel configures exactly the network of the configuration, or none.
  lemma KernelConfiguresNetwork(cfg: Config)
    requires Printable(cfg)
    ensures KernelIp(BeforeDashes(Tokens(ProcCmdline(cfg)))) ==
            if cfg.network.None? || cfg.network.value.ip == "" then None else Some(StaticIp(cfg.network.value))
  {
    LineIsRead(cfg);
    LineAtDashes(cfg);
    InitIsNoIp();
    IpBeforeInit(BootWords(cfg), "", INIT_WORD);
    BootIp(cfg);
  }

  lemma OnlyQuietStartsWithQ(cfg: Config)
    ensures "quiet" in BootWords(cfg) + [INIT_WORD] ==> cfg.quiet
  {
    var words := BootWords(cfg) + [INIT_WORD];
    var level := "loglevel=" + Decimals(cfg.logLevel);
    assert INIT_WORD[0] == 'i' && level[0] == 'l' && ("console=" + cfg.console)[0] == 'c';
    assert NetworkParam(cfg.network) != "" ==> NetworkParam(cfg.network)[0] == 'i';
    assert forall i :: 0 <= i < |TUNING| ==> TUNING[i][0] != 'q';
    if "quiet" in words {
      var i :| 0 <= i < |words| && words[i] == "quiet";
      assert words[i][0] == 'q';
    }
  }

  // The kernel takes its console, its log level and its init program from the configuration.
  lemma KernelTakesOptions(cfg: Config)
    requires Printable(cfg)
    ensures var words := BeforeDashes(Tokens(ProcCmdline(cfg)));
            && ("quiet" in words <==> cfg.quiet)
            && "loglevel=" + Decimals(cfg.logLevel) in words
            && (cfg.console != "" ==> "console=" + cfg.console in words)
            && words[|words| - 1..] == ["init=/sbin/vminitd"]
  {
    LineIsRead(cfg);
    LineAtDashes(cfg);
    OnlyQuietStartsWithQ(cfg);
    OptionsArePrinted(cfg);
  }

  lemma OptionsArePrinted(cfg: Config)
    ensures var words := BootWords(cfg) + [INIT_WORD];
            && (cfg.quiet ==> "quiet" in words)
            && "loglevel=" + Decimals(cfg.logLevel) in words
            && (cfg.console != "" ==> "console=" + cfg.console in words)
            && words[|words| - 1..] == [INIT_WORD]
  {
    var level := "loglevel=" + Decimals(cfg.logLevel);
    assert level in Preamble(cfg) by { assert level in [level]; }
    assert cfg.quiet ==> "quiet" in Preamble(cfg) by { assert "quiet" in ["quiet"]; }
  }

  // ---------------------------------------------------------------- the flags of init

  function FlagValue(arg: string, name: string, found: Option<string>): Option<string> {
    var flag := "-" + name + "=";
    if HasPrefix(arg, flag) then Some(arg[|flag|..]) else found
  }

  predicate IsFlag(arg: string) { arg != "" && arg[0] == '-' }

  // The last -name=value among the flags, which end at the first word without a dash.
  function Flag(args: seq<string>, name: string, found: Option<string>): Option<string> {
    if args == [] || !IsFlag(args[0]) then found else Flag(args[1..], name, FlagValue(args[0], name, found))
  }

  predicate NoFlags(args: seq<string>) { args == [] || !IsFlag(args[0]) }

  lemma FlagStep(arg: string, rest: seq<string>, name: string, found: Option<string>)
    requires IsFlag(arg)
    ensures Flag([arg] + rest, name, found) == Flag(rest, name, FlagValue(arg, name, found))
  {
    assert ([arg] + rest)[1..] == rest;
  }

  lemma ThreeFlags(a: string, b: string, c: string, rest: seq<string>, name: string)
    requires IsFlag(a) && IsFlag(b) && IsFlag(c) && NoFlags(rest)
    ensures Flag([a, b, c] + rest, name, None) == FlagValue(c, name, FlagValue(b, name, FlagValue(a, name, None)))
  {
    assert [a, b, c] + rest == [a] + ([b] + ([c] + rest));
    var first := FlagValue(a, name, None);
    var second := FlagValue(b, name, first);
    FlagStep(a, [b] + ([c] + rest), name, None);
    FlagStep(b, [c] + rest, name, first);
    FlagStep(c, rest, name, second);
  }

  lemma OwnFlag(flag: string, name: string, v: string, found: Option<string>)
    requires flag == "-" + name + "="
    ensures FlagValue(flag + v, name, found) == Some(v)
  {
    assert (flag + v)[|flag|..] == v;
  }

  // The three names differ in their seventh character.
  lemma OtherFlag(other: string, v: string, name: string, found: Option<string>)
    requires |other| > 7 && |name| > 6 && other[7] != name[6]
    ensures FlagValue(other + v, name, found) == found
  {
    var flag := "-" + name + "=";
    assert (other + v)[7] == other[7] && flag[7] == name[6];
  }

  const RPC: string := "vsock-rpc-port"
  const STREAM: string := "vsock-stream-port"
  const CID: string := "vsock-cid"

  lemma VsockFlags(rpc: string, stream: string, cid: string, rest: seq<string>)
    requires NoFlags(rest)
    ensures var args := ["-vsock-rpc-port=" + rpc, "-vsock-stream-port=" + stream, "-vsock-cid=" + cid] + rest;
            Flag(args, RPC, None) == Some(rpc) && Flag(args, STREAM, None) == Some(stream)
            && Flag(args, CID, None) == Some(cid)
  {
    var r, s, c := "-vsock-rpc-port=", "-vsock-stream-port=", "-vsock-cid=";
    FlagNames(r, s, c);
    FlagsByName(r, s, c, rpc, stream, cid, rest);
  }

  predicate VsockNames(r: string, s: string, c: string) {
    && r == "-" + RPC + "=" && s == "-" + STREAM + "=" && c == "-" + CID + "="
    && |r| > 7 && |s| > 7 && |c| > 7 && r[7] == RPC[6] == 'r' && s[7] == STREAM[6] == 's' && c[7] == CID[6] == 'c'
  }

  lemma FlagNames(r: string, s: string, c: string)
    requires r == "-vsock-rpc-port=" && s == "-vsock-stream-port=" && c == "-vsock-cid="
    ensures VsockNames(r, s, c)
  {
  }

  lemma FlagsByName(r: string, s: string, c: string, rpc: string, stream: string, cid: string, rest: seq<string>)
    requires VsockNames(r, s, c) && NoFlags(rest)
    ensures var args := [r + rpc, s + stream, c + cid] + rest;
            Flag(args, RPC, None) == Some(rpc) && Flag(args, STREAM, None) == Some(stream)
            && Flag(args, CID, None) == Some(cid)
  {
    ThreeFlags(r + rpc, s + stream, c + cid, rest, RPC);
    OwnFlag(r, RPC, rpc, None);
    OtherFlag(s, stream, RPC, Some(rpc));
    OtherFlag(c, cid, RPC, Some(rpc));
    ThreeFlags(r + rpc, s + stream, c + cid, rest, STREAM);
    OtherFlag(r, rpc, STREAM, None);
    OwnFlag(s, STREAM, stream, None);
    OtherFlag(c, cid, STREAM, Some(stream));
    ThreeFlags(r + rpc, s + stream, c + cid, rest, CID);
    OtherFlag(r, rpc, CID, None);
    OtherFlag(s, stream, CID, None);
    OwnFlag(c, CID, cid, None);
  }

  // Init takes each of its three vsock numbers from the argument of that name.
  lemma InitReadsVsock(cfg: Config)
    requires Printable(cfg) && NoFlags(cfg.initArgs)
    requires cfg.rpcPort <= MAX_INT && cfg.streamPort <= MAX_INT && cfg.cid <= MAX_INT
    ensures var args := AfterDashes(Tokens(ProcCmdline(cfg)));
            && Flag(args, RPC, None).Some? && Atoi(Flag(args, RPC, None).value) == Some(cfg.rpcPort)
            && Flag(args, STREAM, None).Some? && Atoi(Flag(args, STREAM, None).value) == Some(cfg.streamPort)
            && Flag(args, CID, None).Some? && Atoi(Flag(args, CID, None).value) == Some(cfg.cid)
  {
    LineIsRead(cfg);
    LineAtDashes(cfg);
    VsockFlags(Itoa(cfg.rpcPort), Itoa(cfg.streamPort), Itoa(cfg.cid), cfg.initArgs);
    AtoiOfItoa(cfg.rpcPort);
    AtoiOfItoa(cfg.streamPort);
    AtoiOfItoa(cfg.cid);
  }
}
