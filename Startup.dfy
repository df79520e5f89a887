/**
 * The AWS branch of the entry point (src/main.rs): the NET_ADMIN probe over
 * the process status text, the kernel-module checks that bandwidth limits
 * need, the port mappings handed to the tunnel, the proxy endpoint, and the
 * order of the stages around a shutdown signal. File contents, the iptables
 * probe and each stage's result are inputs.
 */
module Startup {
  import opened Wrappers
  import opened Text
  import WireGuard
  import CloudFormation

  // ---------------------------------------------------------------------------
  // NET_ADMIN

  /** CAP_NET_ADMIN, bit 12 of the effective capability mask. */
  const CapNetAdmin: nat := 0x1000

  /** `caps & (1 << 12) != 0`. */
  predicate HasNetAdmin(caps: nat) {
    (caps / CapNetAdmin) % 2 == 1
  }

  /** The test reads bit 12: the remainder modulo 2^13 is at least 2^12. */
  lemma NetAdminBit(caps: nat)
    ensures HasNetAdmin(caps) <==> caps % 0x2000 >= 0x1000
  {
    var q, r := caps / 0x2000, caps % 0x2000;
    assert caps == q * 0x2000 + r;
    assert caps == (2 * q) * CapNetAdmin + r;
    assert caps / CapNetAdmin == 2 * q + r / CapNetAdmin;
    assert r / CapNetAdmin < 2;
  }

  /** The mask a "CapEff:" line carries: its second word read as hexadecimal. */
  function CapEffValue(line: string): (r: Option<nat>)
    ensures r.Some? ==> StartsWith(line, "CapEff:") && r.value < U64Limit
  {
    if StartsWith(line, "CapEff:") then
      var words := SplitWhitespace(line);
      if |words| >= 2 then ParseU64(words[1], 16) else None
    else None
  }

  /** The line /proc/self/status holds, a tab and then the mask, is read as the
      mask. */
  lemma CapEffLineRead(hex: string)
    requires IsWord(hex)
    ensures CapEffValue("CapEff:\t" + hex) == ParseU64(hex, 16)
  {
    var key := "CapEff:";
    var line := key + ("\t" + hex);
    assert line == "CapEff:\t" + hex;
    assert forall k :: 0 <= k < |key| ==> !IsWhitespace(key[k]);
    WordLengthOfWord(key, "\t" + hex);
    assert TrimStart(line) == line;
    assert line[..|key|] == key;
    assert line[|key|..] == "\t" + hex;
    SplitWhitespaceSkip('\t', hex);
    SplitWhitespaceJoin([hex]);
    assert SplitWhitespace(line) == [key, hex];
  }

  /** The mask of the first line of the status text that yields one. */
  function FirstCapEff(lines: seq<string>): Option<nat>
    decreases |lines|
  {
    if lines == [] then None
    else if CapEffValue(lines[0]).Some? then CapEffValue(lines[0])
    else FirstCapEff(lines[1..])
  }

  /** The first line that yields a mask decides: any later one is ignored. */
  lemma {:induction false} FirstCapEffAt(lines: seq<string>, i: nat)
    requires i < |lines| && CapEffValue(lines[i]).Some?
    requires forall j :: 0 <= j < i ==> CapEffValue(lines[j]).None?
    ensures FirstCapEff(lines) == CapEffValue(lines[i])
    decreases i
  {
    if i > 0 {
      assert CapEffValue(lines[0]).None?;
      assert forall j :: 0 <= j < i - 1 ==> lines[1..][j] == lines[j + 1];
      FirstCapEffAt(lines[1..], i - 1);
    }
  }

  /** No mask is found exactly when no line yields one. */
  lemma {:induction false} FirstCapEffNone(lines: seq<string>)
    ensures FirstCapEff(lines).None? <==> forall i :: 0 <= i < |lines| ==> CapEffValue(lines[i]).None?
    decreases |lines|
  {
    if lines != [] {
      FirstCapEffNone(lines[1..]);
      assert forall i :: 0 < i < |lines| ==> lines[i] == lines[1..][i - 1];
    }
  }

  /** `check_net_admin`: the first "CapEff:" line whose mask parses decides
      through bit 12; without one, or without the status text, the iptables
      probe decides. */
  method CheckNetAdmin(status: Option<string>, iptablesWorks: bool) returns (r: bool)
    ensures status.None? ==> r == iptablesWorks
    ensures status.Some? ==>
      r == match FirstCapEff(Lines(status.value))
           case Some(caps) => HasNetAdmin(caps)
           case None => iptablesWorks
  {
    if status.Some? {
      var lines := Lines(status.value);
      for i := 0 to |lines|
        invariant FirstCapEff(lines) == FirstCapEff(lines[i..])
      {
        assert lines[i..][1..] == lines[i + 1..];
        var caps := CapEffValue(lines[i]);
        if caps.Some? {
          return HasNetAdmin(caps.value);
        }
      }
      assert lines[|lines|..] == [];
    }
    return iptablesWorks;
  }

  // ---------------------------------------------------------------------------
  // Kernel modules

  /** `is_kernel_module_loaded`: some line of /proc/modules starts with the name. */
  predicate ModuleLoaded(modules: string, name: string) {
    exists i :: 0 <= i < |Lines(modules)| && StartsWith(Lines(modules)[i], name)
  }

  /** The match is by prefix only: a single line that merely begins with the name
      counts, whatever follows it. */
  lemma ModulePrefixMatch(name: string, rest: string)
    requires '\n' !in name + rest && name + rest != []
    ensures ModuleLoaded(name + rest, name)
  {
    SplitNoSeparator(name + rest, '\n');
    assert Lines(name + rest) == [name + rest];
    assert (name + rest)[..|name|] == name;
  }

  /** Modules the limits need, in the order they are checked. */
  function RequiredModules(download: Option<WireGuard.U32>): seq<string> {
    ["sch_htb"] + (if download.Some? then ["ifb", "act_mirred"] else [])
  }

  function Unloaded(modules: string, names: seq<string>): (r: seq<string>)
    ensures forall m :: m in r <==> m in names && !ModuleLoaded(modules, m)
    ensures |r| <= |names|
  {
    if names == [] then []
    else (if ModuleLoaded(modules, names[0]) then [] else [names[0]]) + Unloaded(modules, names[1..])
  }

  /** The modules found missing: required ones that are not loaded, in order. */
  function MissingModules(modules: string, download: Option<WireGuard.U32>): (r: seq<string>)
    ensures forall m :: m in r <==> m in RequiredModules(download) && !ModuleLoaded(modules, m)
  {
    Unloaded(modules, RequiredModules(download))
  }

  /** The missing modules spelled out: sch_htb when it is not loaded, then,
      when a download limit is set, ifb and act_mirred when they are not. */
  lemma MissingModulesInOrder(text: string, download: Option<WireGuard.U32>)
    ensures MissingModules(text, download)
      == (if ModuleLoaded(text, "sch_htb") then [] else ["sch_htb"])
         + (if download.Some? then
              (if ModuleLoaded(text, "ifb") then [] else ["ifb"])
              + (if ModuleLoaded(text, "act_mirred") then [] else ["act_mirred"])
            else [])
  {
    var req := RequiredModules(download);
    var first := if ModuleLoaded(text, "sch_htb") then [] else ["sch_htb"];
    if download.Some? {
      var tail := ["act_mirred"];
      assert Unloaded(text, tail) == (if ModuleLoaded(text, "act_mirred") then [] else ["act_mirred"]) by {
        assert tail[1..] == [];
      }
      var rest := ["ifb", "act_mirred"];
      assert Unloaded(text, rest) == (if ModuleLoaded(text, "ifb") then [] else ["ifb"]) + Unloaded(text, tail) by {
        assert rest[1..] == tail;
      }
      assert req[1..] == rest;
      assert Unloaded(text, req) == first + Unloaded(text, rest);
    } else {
      assert req[1..] == [];
      assert Unloaded(text, req) == first + Unloaded(text, []);
    }
  }

  datatype BandwidthError = ModulesUnreadable | ModulesNotLoaded(missing: seq<string>)

  /** One check of `check_bandwidth_limit_requirements`: a module that is not
      loaded is added to the missing list. */
  method NoteIfUnloaded(missing: seq<string>, modules: string, name: string) returns (r: seq<string>)
    ensures ModuleLoaded(modules, name) ==> r == missing
    ensures !ModuleLoaded(modules, name) ==> r == missing + [name]
  {
    r := missing;
    if !ModuleLoaded(modules, name) {
      r := r + [name];
    }
  }

  /** `check_bandwidth_limit_requirements`, given the text of /proc/modules (None
      when it cannot be read). */
  method CheckBandwidthLimitRequirements(upload: Option<WireGuard.U32>, download: Option<WireGuard.U32>, modules: Option<string>)
    returns (r: Result<(), BandwidthError>)
    ensures modules.None? ==> r == Err(ModulesUnreadable)
    ensures modules.Some? ==> (r.Ok? <==> MissingModules(modules.value, download) == [])
    ensures modules.Some? && r.Err? ==> r.error == ModulesNotLoaded(MissingModules(modules.value, download))
  {
    if modules.None? {
      return Err(ModulesUnreadable);
    }
    var text := modules.value;
    var missing: seq<string> := [];
    missing := NoteIfUnloaded(missing, text, "sch_htb");
    if download.Some? {
      missing := NoteIfUnloaded(missing, text, "ifb");
      missing := NoteIfUnloaded(missing, text, "act_mirred");
    }
    MissingModulesInOrder(text, download);
    if missing != [] {
      return Err(ModulesNotLoaded(missing));
    }
    return Ok(());
  }

  /** The module check runs only when a limit is set. */
  predicate NeedsBandwidthCheck(upload: Option<WireGuard.U32>, download: Option<WireGuard.U32>) {
    upload.Some? || download.Some?
  }

  // ---------------------------------------------------------------------------
  // Port mappings and endpoint

  /** An ingress endpoint as the entry point sees it. */
  datatype Ingress = Ingress(host: string, port: Option<WireGuard.Port>, protocol: string)

  /** One mapping per ingress: the origin's port when it has one, otherwise the
      ingress's own port, with the ingress's protocol. */
  function PortMappings(ingresses: seq<Ingress>, originPort: Option<WireGuard.Port>): (r: seq<WireGuard.Mapping>)
    requires originPort.None? ==> forall i :: 0 <= i < |ingresses| ==> ingresses[i].port.Some?
    ensures |r| == |ingresses|
    ensures forall i :: 0 <= i < |r| ==> r[i].protocol == ingresses[i].protocol
  {
    seq(|ingresses|, i requires 0 <= i < |ingresses| =>
      WireGuard.Mapping(if originPort.Some? then originPort.value else ingresses[i].port.value, ingresses[i].protocol))
  }

  /** With an origin port every mapping targets it; without one each keeps its
      ingress port. */
  lemma MappingPorts(ingresses: seq<Ingress>, originPort: Option<WireGuard.Port>)
    requires originPort.None? ==> forall i :: 0 <= i < |ingresses| ==> ingresses[i].port.Some?
    ensures originPort.Some? ==> forall i :: 0 <= i < |ingresses| ==> PortMappings(ingresses, originPort)[i].port == originPort.value
    ensures originPort.None? ==> forall i :: 0 <= i < |ingresses| ==> Some(PortMappings(ingresses, originPort)[i].port) == ingresses[i].port
  {
  }

  /** The tunnel accepts the mappings exactly when there is an ingress and every
      ingress protocol is tcp or udp in any case; with no ingress it reports that
      there are no mappings. */
  lemma MappingsAcceptedBySetup(ingresses: seq<Ingress>, originPort: Option<WireGuard.Port>,
                                proxyIp: string, originHost: string,
                                upload: Option<WireGuard.U32>, download: Option<WireGuard.U32>)
    requires originPort.None? ==> forall i :: 0 <= i < |ingresses| ==> ingresses[i].port.Some?
    ensures WireGuard.SetupRules(proxyIp, originHost, PortMappings(ingresses, originPort), upload, download).Ok?
        <==> ingresses != [] && forall i :: 0 <= i < |ingresses| ==> WireGuard.Supported(ingresses[i].protocol)
    ensures ingresses == [] ==>
      WireGuard.SetupRules(proxyIp, originHost, PortMappings(ingresses, originPort), upload, download) == Err(WireGuard.NoPortMappings)
  {
    var ms := PortMappings(ingresses, originPort);
    assert forall i :: 0 <= i < |ms| ==> ms[i].protocol == ingresses[i].protocol;
  }

  /** `format!("{}:51820", proxy_ip)`. */
  function ProxyEndpoint(proxyIp: string): string {
    proxyIp + ":51820"
  }

  /** The endpoint's port is the one the security group opens for WireGuard. */
  lemma EndpointUsesWireGuardPort(proxyIp: string)
    ensures ProxyEndpoint(proxyIp) == proxyIp + ":" + NatToString(CloudFormation.WireGuardPort)
  {
    assert NatToString(5) == "5";
    assert NatToString(51) == "51";
    assert NatToString(518) == "518";
    assert NatToString(5182) == "5182";
    assert NatToString(51820) == "51820";
  }

  // ---------------------------------------------------------------------------
  // Stages

  datatype Stage =
    | ModuleCheck
    | ValidateConfig
    | CapabilityCheck
    | ReadConfig
    | GenerateKeys
    | FindSubnet
    | DetectOriginIp
    | DeployStack
    | WaitForStack
    | SetupTunnel
    | Serve
    | CleanupStack

  /** How a stage that races the shutdown signal ended: its own result, an
      error, or the signal first. */
  datatype Outcome = Done | Fails | Shutdown

  datatype Exit = Success | Failure(stage: Stage)

  /** Everything before the first stage that races the signal passed. */
  predicate Prepared(upload: Option<WireGuard.U32>, download: Option<WireGuard.U32>, bandwidth: Result<(), BandwidthError>,
                     valid: bool, netAdmin: bool, configRead: bool, keys: bool, subnet: bool) {
    (NeedsBandwidthCheck(upload, download) ==> bandwidth.Ok?) && valid && netAdmin && configRead && keys && subnet
  }

  /** The stages of `main` that race the shutdown signal, from the origin IP
      detection to the cleanup: a stack exists to clean up once the deployment
      succeeded, and a shutdown during a stage ends the run successfully. */
  method RunStack(originIp: Outcome, deploy: Outcome, wait: Outcome, tunnel: Outcome, serve: Outcome)
    returns (exit: Exit, trace: seq<Stage>)
    ensures trace != [] && trace[0] == DetectOriginIp
    ensures CleanupStack in trace <==>
      originIp == Done && deploy == Done
      && (wait == Shutdown || (wait == Done && (tunnel == Shutdown || (tunnel == Done && serve != Fails))))
    ensures CleanupStack in trace ==>
      trace[|trace| - 1] == CleanupStack && CleanupStack !in trace[..|trace| - 1] && exit == Success
    ensures exit == Success <==>
      originIp != Fails
      && (originIp == Shutdown || (deploy != Fails
      && (deploy == Shutdown || (wait != Fails
      && (wait == Shutdown || (tunnel != Fails
      && (tunnel == Shutdown || serve != Fails)))))))
    ensures exit.Failure? ==> trace[|trace| - 1] == exit.stage && CleanupStack !in trace
  {
    trace := [DetectOriginIp];
    if originIp == Shutdown {
      return Success, trace;
    } else if originIp == Fails {
      return Failure(DetectOriginIp), trace;
    }
    trace := trace + [DeployStack];
    if deploy == Shutdown {
      return Success, trace;
    } else if deploy == Fails {
      return Failure(DeployStack), trace;
    }
    trace := trace + [WaitForStack];
    if wait == Shutdown {
      return Success, trace + [CleanupStack];
    } else if wait == Fails {
      return Failure(WaitForStack), trace;
    }
    trace := trace + [SetupTunnel];
    if tunnel == Shutdown {
      return Success, trace + [CleanupStack];
    } else if tunnel == Fails {
      return Failure(SetupTunnel), trace;
    }
    trace := trace + [Serve];
    if serve == Fails {
      return Failure(Serve), trace;
    }
    return Success, trace + [CleanupStack];
  }

  /** The AWS branch of `main` from the bandwidth check to the final cleanup; the
      trace lists the stages started, in order. `valid` is the verdict of the
      configuration validation, `netAdmin` the verdict of `CheckNetAdmin` and
      `configRead` whether the ingress list and the origin could be read. The
      capability probe never reports an error (failed probes answer false), so
      main's "proceed anyway" branch for such an error cannot be taken and is
      not modelled. A failed cleanup is only logged. */
  method Run(upload: Option<WireGuard.U32>, download: Option<WireGuard.U32>, bandwidth: Result<(), BandwidthError>,
             valid: bool, netAdmin: bool, configRead: bool, keys: bool, subnet: bool,
             originIp: Outcome, deploy: Outcome, wait: Outcome, tunnel: Outcome, serve: Outcome)
    returns (exit: Exit, trace: seq<Stage>)
    ensures CleanupStack in trace <==>
      Prepared(upload, download, bandwidth, valid, netAdmin, configRead, keys, subnet) && originIp == Done && deploy == Done
      && (wait == Shutdown || (wait == Done && (tunnel == Shutdown || (tunnel == Done && serve != Fails))))
    ensures CleanupStack in trace ==>
      trace[|trace| - 1] == CleanupStack && CleanupStack !in trace[..|trace| - 1] && exit == Success
    ensures exit == Success <==>
      Prepared(upload, download, bandwidth, valid, netAdmin, configRead, keys, subnet) && originIp != Fails
      && (originIp == Shutdown || (deploy != Fails
      && (deploy == Shutdown || (wait != Fails
      && (wait == Shutdown || (tunnel != Fails
      && (tunnel == Shutdown || serve != Fails)))))))
    ensures exit.Failure? ==> trace != [] && trace[|trace| - 1] == exit.stage && CleanupStack !in trace
  {
    trace := [];
    if NeedsBandwidthCheck(upload, download) {
      trace := trace + [ModuleCheck];
      if bandwidth.Err? {
        return Failure(ModuleCheck), trace;
      }
    }
    trace := trace + [ValidateConfig];
    if !valid {
      return Failure(ValidateConfig), trace;
    }
    trace := trace + [CapabilityCheck];
    if !netAdmin {
      return Failure(CapabilityCheck), trace;
    }
    trace := trace + [ReadConfig];
    if !configRead {
      return Failure(ReadConfig), trace;
    }
    trace := trace + [GenerateKeys];
    if !keys {
      return Failure(GenerateKeys), trace;
    }
    trace := trace + [FindSubnet];
    if !subnet {
      return Failure(FindSubnet), trace;
    }
    assert CleanupStack !in trace;
    var rest;
    exit, rest := RunStack(originIp, deploy, wait, tunnel, serve);
    assert (trace + rest)[..|trace + rest| - 1] == trace + rest[..|rest| - 1];
    trace := trace + rest;
  }
}
