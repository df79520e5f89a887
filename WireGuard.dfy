/**
 * The origin side of the WireGuard tunnel (src/wireguard.rs): choosing a free
 * private subnet, turning port mappings and bandwidth limits into the PostUp and
 * PreDown rules of a wg-quick configuration, rendering that configuration, and
 * reading the per-direction byte counters back from `iptables -L -v -n -x`.
 */
module WireGuard {
  import opened Wrappers
  import opened Text

  type Octet = x: nat | x < 256
  type Port = x: nat | x < 0x1_0000
  type U32 = x: nat | x < 0x1_0000_0000

  /** One side's key material, as produced by `wg genkey`, `wg pubkey` and `wg genpsk`. */
  datatype WireGuardKeys = WireGuardKeys(privateKey: string, publicKey: string, presharedKey: string)

  // ---------------------------------------------------------------------------
  // Subnet selection

  datatype Ipv4 = Ipv4(a: Octet, b: Octet, c: Octet, d: Octet)

  /** The network identifier `get_existing_subnets` records for one interface
      address: its first two octets. */
  function SubnetKey(ip: Ipv4): string {
    NatToString(ip.a) + "." + NatToString(ip.b)
  }

  /** The set `get_existing_subnets` builds from the IPv4 interface addresses. */
  function ExistingSubnets(addrs: seq<Ipv4>): set<string> {
    set k | 0 <= k < |addrs| :: SubnetKey(addrs[k])
  }

  /** A candidate range: the prefix compared against existing subnets, and the
      addresses given to the proxy and to the origin. */
  datatype Candidate = Candidate(prefix: string, proxyIp: string, originIp: string)

  const Candidates: seq<Candidate> := [
    Candidate("172.17", "172.17.0.1", "172.17.0.2"),
    Candidate("172.18", "172.18.0.1", "172.18.0.2"),
    Candidate("172.19", "172.19.0.1", "172.19.0.2"),
    Candidate("172.20", "172.20.0.1", "172.20.0.2"),
    Candidate("172.21", "172.21.0.1", "172.21.0.2"),
    Candidate("172.22", "172.22.0.1", "172.22.0.2"),
    Candidate("172.23", "172.23.0.1", "172.23.0.2"),
    Candidate("172.24", "172.24.0.1", "172.24.0.2"),
    Candidate("172.25", "172.25.0.1", "172.25.0.2"),
    Candidate("172.26", "172.26.0.1", "172.26.0.2"),
    Candidate("172.27", "172.27.0.1", "172.27.0.2"),
    Candidate("172.28", "172.28.0.1", "172.28.0.2"),
    Candidate("172.29", "172.29.0.1", "172.29.0.2"),
    Candidate("172.30", "172.30.0.1", "172.30.0.2"),
    Candidate("172.31", "172.31.0.1", "172.31.0.2"),
    Candidate("10.99", "10.99.0.1", "10.99.0.2"),
    Candidate("10.98", "10.98.0.1", "10.98.0.2"),
    Candidate("10.97", "10.97.0.1", "10.97.0.2"),
    Candidate("192.168.99", "192.168.99.1", "192.168.99.2")
  ]

  /** Candidate `k` is the first one whose prefix is not in use. */
  predicate FirstFree(existing: set<string>, k: nat) {
    k < |Candidates| && Candidates[k].prefix !in existing
    && forall j :: 0 <= j < k ==> Candidates[j].prefix in existing
  }

  datatype SubnetError = AllCandidatesInUse

  /** `find_available_subnet` given the existing subnets: first fit over the
      candidate list, returning (proxy address, origin address). */
  method FindAvailableSubnet(existing: set<string>) returns (r: Result<(string, string), SubnetError>)
    ensures r.Err? <==> forall k :: 0 <= k < |Candidates| ==> Candidates[k].prefix in existing
    ensures r.Ok? ==> exists k: nat :: FirstFree(existing, k)
                                  && r.value == (Candidates[k].proxyIp, Candidates[k].originIp)
  {
    for i := 0 to |Candidates|
      invariant forall k :: 0 <= k < i ==> Candidates[k].prefix in existing
    {
      if Candidates[i].prefix !in existing {
        assert FirstFree(existing, i);
        return Ok((Candidates[i].proxyIp, Candidates[i].originIp));
      }
    }
    return Err(AllCandidatesInUse);
  }

  /** Inside every candidate the proxy and the origin share the prefix and differ
      only in their last character, '1' for the proxy and '2' for the origin. */
  lemma CandidateAddresses(k: nat)
    requires k < |Candidates|
    ensures var c := Candidates[k];
      && StartsWith(c.proxyIp, c.prefix + ".") && StartsWith(c.originIp, c.prefix + ".")
      && |c.proxyIp| == |c.originIp| >= 1
      && c.proxyIp[..|c.proxyIp| - 1] == c.originIp[..|c.originIp| - 1]
      && c.proxyIp[|c.proxyIp| - 1] == '1' && c.originIp[|c.originIp| - 1] == '2'
  {
  }

  /** Every recorded subnet has exactly one dot. */
  lemma {:induction false} SubnetKeyOneDot(ip: Ipv4)
    ensures Count(SubnetKey(ip), '.') == 1
  {
    var x, y := NatToString(ip.a), NatToString(ip.b);
    assert '.' !in x;
    assert '.' !in y;
    CountAbsent(x, '.');
    CountAbsent(y, '.');
    CountConcat(x, ".", '.');
    CountConcat(x + ".", y, '.');
  }

  /** The last candidate's prefix, "192.168.99", has two dots. */
  lemma LastPrefixTwoDots()
    ensures Count(Candidates[18].prefix, '.') == 2
  {
    var p := Candidates[18].prefix;
    assert p == "192" + "." + "168" + "." + "99";
    CountAbsent("192", '.');
    CountAbsent("168", '.');
    CountAbsent("99", '.');
    CountConcat("192", ".", '.');
    CountConcat("192" + ".", "168", '.');
    CountConcat("192" + "." + "168", ".", '.');
    CountConcat("192" + "." + "168" + ".", "99", '.');
  }

  /** No set built by `get_existing_subnets` contains "192.168.99". */
  lemma LastPrefixNotRecorded(addrs: seq<Ipv4>)
    ensures Candidates[18].prefix !in ExistingSubnets(addrs)
  {
    LastPrefixTwoDots();
    if Candidates[18].prefix in ExistingSubnets(addrs) {
      var k :| 0 <= k < |addrs| && SubnetKey(addrs[k]) == Candidates[18].prefix;
      SubnetKeyOneDot(addrs[k]);
    }
  }

  /** So the last candidate is never excluded, and the search never fails on a
      set of recorded subnets. */
  lemma {:induction false} LastCandidateNeverExcluded(addrs: seq<Ipv4>)
    ensures Candidates[18].prefix !in ExistingSubnets(addrs)
    ensures exists k: nat :: FirstFree(ExistingSubnets(addrs), k)
  {
    var existing := ExistingSubnets(addrs);
    LastPrefixNotRecorded(addrs);
    var i := 0;
    while i < 18 && Candidates[i].prefix in existing
      invariant 0 <= i <= 18
      invariant forall j :: 0 <= j < i ==> Candidates[j].prefix in existing
    {
      i := i + 1;
    }
    assert FirstFree(existing, i);
  }

  // ---------------------------------------------------------------------------
  // Rule construction in OriginTunnel::setup

  /** One entry of `port_mappings`: (port, protocol). */
  datatype Mapping = Mapping(port: Port, protocol: string)

  datatype SetupError = NoPortMappings | UnsupportedProtocol(protocol: string, port: Port)

  /** iptables `-A` (PostUp) or `-D` (PreDown). */
  datatype Op = Append | Delete

  /** The commands `setup` emits, one constructor per command shape; `Render`
      gives the exact command text. */
  datatype Rule =
    | AcceptEstablished(op: Op, proxyIp: string)
    | ForwardToProxy(op: Op, proxyIp: string)
    | HtbRoot(dev: string)
    | HtbClass(dev: string, limit: U32)
    | DeleteRoot(dev: string)
    | LoadIfb
    | IfbLink(up: bool)
    | AddIngress
    | MirrorToIfb
    | DeleteIngress
    | NewAccountingChain
    | FlushAccountingChain
    | DeleteAccountingChain
    | AcceptPort(op: Op, proxyIp: string, proto: string, port: Port)
    | ForwardProto(op: Op, proxyIp: string, proto: string)
    | Dnat(op: Op, proxyIp: string, proto: string, port: Port, originHost: string)
    | Masquerade(op: Op, originHost: string, proto: string, port: Port)
    | CountToOrigin(originHost: string, proto: string, port: Port)
    | CountFromOrigin(originHost: string, proto: string, port: Port)
    | JumpToAccounting(op: Op)
    | OrTrue(rule: Rule)

  function Flag(op: Op): string {
    if op == Append then "A" else "D"
  }

  /** `limit * 1000` in u32 arithmetic, which wraps around in a release build. */
  function RateKbps(limit: U32): (r: U32)
    ensures r == limit * 1000 <==> limit <= 4294967
  {
    (limit * 1000) % 0x1_0000_0000
  }

  /** Mbps to the "kbit" figure tc is given. */
  function Kbit(limit: U32): string {
    NatToString(RateKbps(limit)) + "kbit"
  }

  /** The command text, as the `format!` calls of `setup` write it; a tolerant
      rule is its command followed by " || true". */
  function Render(r: Rule): string {
    if r.OrTrue? then Render(r.rule) + " || true" else Command(r)
  }

  /** The text of a plain command. */
  function Command(r: Rule): string
    requires !r.OrTrue?
  {
    match r
    case AcceptEstablished(op, ip) =>
      "iptables -" + Flag(op) + " INPUT -i wg0 -s " + ip + " -m conntrack" + " --ctstate RELATED,ESTABLISHED" + " -j ACCEPT"
    case ForwardToProxy(op, ip) => "iptables -" + Flag(op) + " FORWARD -o wg0 -d " + ip + " -j ACCEPT"
    case HtbRoot(dev) => "tc qdisc add dev " + dev + " root handle 1: htb default 10"
    case HtbClass(dev, limit) =>
      "tc class add dev " + dev + " parent 1: classid 1:10 htb rate " + Kbit(limit) + " ceil " + Kbit(limit)
    case DeleteRoot(dev) => "tc qdisc del dev " + dev + " root"
    case LoadIfb => "modprobe ifb numifbs=1"
    case IfbLink(up) => "ip link set dev ifb0 " + (if up then "up" else "down")
    case AddIngress => "tc qdisc add dev wg0" + " handle ffff: ingress"
    case MirrorToIfb =>
      "tc filter add dev wg0 parent ffff:" + " protocol all u32 match u32 0 0" + " action mirred egress redirect" + " dev ifb0"
    case DeleteIngress => "tc qdisc del dev wg0 ingress"
    case NewAccountingChain => "iptables -N OUTPOST_ACCOUNTING"
    case FlushAccountingChain => "iptables -F OUTPOST_ACCOUNTING"
    case DeleteAccountingChain => "iptables -X OUTPOST_ACCOUNTING"
    case AcceptPort(op, ip, proto, port) =>
      "iptables -" + Flag(op) + " INPUT -i wg0 -s " + ip + " -p " + proto + " --dport " + NatToString(port) + " -j ACCEPT"
    case ForwardProto(op, ip, proto) => "iptables -" + Flag(op) + " FORWARD -i wg0 -s " + ip + " -p " + proto + " -j ACCEPT"
    case Dnat(op, ip, proto, port, host) =>
      "iptables -t nat -" + Flag(op) + " PREROUTING -i wg0 -s " + ip + " -p " + proto + " --dport " + NatToString(port)
      + " -j DNAT --to-destination " + host + ":" + NatToString(port)
    case Masquerade(op, host, proto, port) =>
      "iptables -t nat -" + Flag(op) + " POSTROUTING -d " + host + " -p " + proto + " --dport " + NatToString(port) + " -j MASQUERADE"
    case CountToOrigin(host, proto, port) =>
      "iptables -A OUTPOST_ACCOUNTING -d " + host + " -p " + proto + " --dport " + NatToString(port) + " -j RETURN"
    case CountFromOrigin(host, proto, port) =>
      "iptables -A OUTPOST_ACCOUNTING -s " + host + " -p " + proto + " --sport " + NatToString(port) + " -j RETURN"
    case JumpToAccounting(op) => "iptables -" + Flag(op) + " FORWARD -j OUTPOST_ACCOUNTING"
  }

  /** The two rule lists a successful setup writes into the configuration. */
  datatype Rules = Rules(postUp: seq<Rule>, preDown: seq<Rule>)

  /** A protocol setup accepts: "tcp" or "udp" after lowercasing. */
  predicate Supported(protocol: string) {
    ToLower(protocol) == "tcp" || ToLower(protocol) == "udp"
  }

  /** Index of the first mapping with an unsupported protocol, or the length. */
  function FirstUnsupported(ms: seq<Mapping>): (k: nat)
    ensures k <= |ms|
    ensures forall j :: 0 <= j < k ==> Supported(ms[j].protocol)
    ensures k < |ms| ==> !Supported(ms[k].protocol)
  {
    if ms == [] then 0
    else if !Supported(ms[0].protocol) then 0
    else 1 + FirstUnsupported(ms[1..])
  }

  /** The six PostUp rules of one mapping. */
  function MappingPostUp(proxyIp: string, originHost: string, m: Mapping): seq<Rule> {
    var proto := ToLower(m.protocol);
    [ AcceptPort(Append, proxyIp, proto, m.port),
      ForwardProto(Append, proxyIp, proto),
      Dnat(Append, proxyIp, proto, m.port, originHost),
      Masquerade(Append, originHost, proto, m.port),
      CountToOrigin(originHost, proto, m.port),
      CountFromOrigin(originHost, proto, m.port) ]
  }

  /** The four PreDown rules of one mapping. */
  function MappingPreDown(proxyIp: string, originHost: string, m: Mapping): seq<Rule> {
    var proto := ToLower(m.protocol);
    [ OrTrue(AcceptPort(Delete, proxyIp, proto, m.port)),
      OrTrue(ForwardProto(Delete, proxyIp, proto)),
      OrTrue(Dnat(Delete, proxyIp, proto, m.port, originHost)),
      OrTrue(Masquerade(Delete, originHost, proto, m.port)) ]
  }

  function AllPostUp(proxyIp: string, originHost: string, ms: seq<Mapping>): seq<Rule> {
    if ms == [] then []
    else AllPostUp(proxyIp, originHost, ms[..|ms| - 1]) + MappingPostUp(proxyIp, originHost, ms[|ms| - 1])
  }

  function AllPreDown(proxyIp: string, originHost: string, ms: seq<Mapping>): seq<Rule> {
    if ms == [] then []
    else AllPreDown(proxyIp, originHost, ms[..|ms| - 1]) + MappingPreDown(proxyIp, originHost, ms[|ms| - 1])
  }

  /** The PostUp rules that come before the per-mapping rules. */
  function PostUpHead(proxyIp: string, upload: Option<U32>, download: Option<U32>): seq<Rule> {
    [AcceptEstablished(Append, proxyIp), ForwardToProxy(Append, proxyIp)]
    + (if upload.Some? then [HtbRoot("wg0"), HtbClass("wg0", upload.value)] else [])
    + (if download.Some? then
         [LoadIfb, IfbLink(true), AddIngress, MirrorToIfb, HtbRoot("ifb0"), HtbClass("ifb0", download.value)]
       else [])
    + [OrTrue(NewAccountingChain)]
  }

  /** The PreDown rules that come before the per-mapping rules. */
  function PreDownHead(proxyIp: string, upload: Option<U32>, download: Option<U32>): seq<Rule> {
    [OrTrue(AcceptEstablished(Delete, proxyIp)), OrTrue(ForwardToProxy(Delete, proxyIp))]
    + (if upload.Some? then [OrTrue(DeleteRoot("wg0"))] else [])
    + (if download.Some? then [OrTrue(DeleteIngress), OrTrue(DeleteRoot("ifb0")), OrTrue(IfbLink(false))] else [])
    + [OrTrue(FlushAccountingChain), OrTrue(DeleteAccountingChain)]
  }

  /** What `setup` builds before writing the configuration: an error for an
      empty mapping list or for the first unsupported protocol, otherwise the two
      rule lists. */
  function SetupRules(proxyIp: string, originHost: string, ms: seq<Mapping>,
                      upload: Option<U32>, download: Option<U32>): Result<Rules, SetupError>
  {
    if ms == [] then Err(NoPortMappings)
    else if FirstUnsupported(ms) < |ms| then
      Err(UnsupportedProtocol(ms[FirstUnsupported(ms)].protocol, ms[FirstUnsupported(ms)].port))
    else Ok(Rules(
      PostUpHead(proxyIp, upload, download) + AllPostUp(proxyIp, originHost, ms) + [JumpToAccounting(Append)],
      PreDownHead(proxyIp, upload, download) + AllPreDown(proxyIp, originHost, ms) + [OrTrue(JumpToAccounting(Delete))]))
  }

  /** The rules `setup` pushes before the per-mapping loop: the proxy's
      established traffic, forwarding towards the proxy, the optional shaping
      with tc, and the accounting chain. */
  method HeadRules(proxyIp: string, upload: Option<U32>, download: Option<U32>)
    returns (postUp: seq<Rule>, preDown: seq<Rule>)
    ensures postUp == PostUpHead(proxyIp, upload, download)
    ensures preDown == PreDownHead(proxyIp, upload, download)
  {
    postUp, preDown := [], [];
    postUp := postUp + [AcceptEstablished(Append, proxyIp)];
    preDown := preDown + [OrTrue(AcceptEstablished(Delete, proxyIp))];
    postUp := postUp + [ForwardToProxy(Append, proxyIp)];
    preDown := preDown + [OrTrue(ForwardToProxy(Delete, proxyIp))];
    assert postUp == [AcceptEstablished(Append, proxyIp), ForwardToProxy(Append, proxyIp)];
    ghost var post0, pre0 := postUp, preDown;
    if upload.Some? {
      postUp := postUp + [HtbRoot("wg0")];
      postUp := postUp + [HtbClass("wg0", upload.value)];
      preDown := preDown + [OrTrue(DeleteRoot("wg0"))];
    }
    assert postUp == post0 + (if upload.Some? then [HtbRoot("wg0"), HtbClass("wg0", upload.value)] else []);
    assert preDown == pre0 + (if upload.Some? then [OrTrue(DeleteRoot("wg0"))] else []);
    ghost var post1, pre1 := postUp, preDown;
    if download.Some? {
      postUp := postUp + [LoadIfb];
      postUp := postUp + [IfbLink(true)];
      postUp := postUp + [AddIngress];
      postUp := postUp + [MirrorToIfb];
      postUp := postUp + [HtbRoot("ifb0")];
      postUp := postUp + [HtbClass("ifb0", download.value)];
      preDown := preDown + [OrTrue(DeleteIngress)];
      preDown := preDown + [OrTrue(DeleteRoot("ifb0"))];
      preDown := preDown + [OrTrue(IfbLink(false))];
    }
    assert postUp == post1 + (if download.Some? then
      [LoadIfb, IfbLink(true), AddIngress, MirrorToIfb, HtbRoot("ifb0"), HtbClass("ifb0", download.value)] else []);
    assert preDown == pre1 + (if download.Some? then [OrTrue(DeleteIngress), OrTrue(DeleteRoot("ifb0")), OrTrue(IfbLink(false))] else []);
    postUp := postUp + [OrTrue(NewAccountingChain)];
    preDown := preDown + [OrTrue(FlushAccountingChain)];
    preDown := preDown + [OrTrue(DeleteAccountingChain)];
  }

  /** One iteration of the per-mapping loop of `setup`: the INPUT, FORWARD, DNAT
      and MASQUERADE rules with their PreDown counterparts, and the two
      accounting rules, for a mapping whose protocol lowercases to `proto`. */
  method PushMappingRules(postUp: seq<Rule>, preDown: seq<Rule>, proxyIp: string, originHost: string,
                          m: Mapping, proto: string)
    returns (postUp': seq<Rule>, preDown': seq<Rule>)
    requires proto == ToLower(m.protocol)
    ensures postUp' == postUp + MappingPostUp(proxyIp, originHost, m)
    ensures preDown' == preDown + MappingPreDown(proxyIp, originHost, m)
  {
    var port := m.port;
    postUp', preDown' := postUp, preDown;
    postUp' := postUp' + [AcceptPort(Append, proxyIp, proto, port)];
    preDown' := preDown' + [OrTrue(AcceptPort(Delete, proxyIp, proto, port))];
    postUp' := postUp' + [ForwardProto(Append, proxyIp, proto)];
    preDown' := preDown' + [OrTrue(ForwardProto(Delete, proxyIp, proto))];
    postUp' := postUp' + [Dnat(Append, proxyIp, proto, port, originHost)];
    preDown' := preDown' + [OrTrue(Dnat(Delete, proxyIp, proto, port, originHost))];
    postUp' := postUp' + [Masquerade(Append, originHost, proto, port)];
    preDown' := preDown' + [OrTrue(Masquerade(Delete, originHost, proto, port))];
    postUp' := postUp' + [CountToOrigin(originHost, proto, port)];
    postUp' := postUp' + [CountFromOrigin(originHost, proto, port)];
    PushedInOrder(postUp, MappingPostUp(proxyIp, originHost, m));
    PushedInOrder(preDown, MappingPreDown(proxyIp, originHost, m));
  }

  /** The rule-building part of `OriginTunnel::setup`: pushes the rules one by
      one, bailing out at the first mapping with an unsupported protocol. */
  method BuildRules(proxyIp: string, originHost: string, portMappings: seq<Mapping>,
                    upload: Option<U32>, download: Option<U32>) returns (r: Result<Rules, SetupError>)
    ensures r == SetupRules(proxyIp, originHost, portMappings, upload, download)
  {
    if |portMappings| == 0 {
      return Err(NoPortMappings);
    }
    var postUp, preDown := HeadRules(proxyIp, upload, download);
    var unsupported;
    unsupported, postUp, preDown := PushAllMappings(postUp, preDown, proxyIp, originHost, portMappings);
    if unsupported.Some? {
      var i := unsupported.value;
      return Err(UnsupportedProtocol(portMappings[i].protocol, portMappings[i].port));
    }
    postUp := postUp + [JumpToAccounting(Append)];
    preDown := preDown + [OrTrue(JumpToAccounting(Delete))];
    return Ok(Rules(postUp, preDown));
  }

  /** The per-mapping loop of `setup`: stops at the first mapping with an
      unsupported protocol and returns its index; otherwise every mapping's
      rules have been appended, in order. */
  method PushAllMappings(postUp0: seq<Rule>, preDown0: seq<Rule>, proxyIp: string, originHost: string,
                         portMappings: seq<Mapping>)
    returns (unsupported: Option<nat>, postUp: seq<Rule>, preDown: seq<Rule>)
    ensures unsupported.Some? <==> FirstUnsupported(portMappings) < |portMappings|
    ensures unsupported.Some? ==> unsupported.value == FirstUnsupported(portMappings)
    ensures unsupported.None? ==> postUp == postUp0 + AllPostUp(proxyIp, originHost, portMappings)
    ensures unsupported.None? ==> preDown == preDown0 + AllPreDown(proxyIp, originHost, portMappings)
  {
    postUp, preDown := postUp0, preDown0;
    for i := 0 to |portMappings|
      invariant i <= FirstUnsupported(portMappings)
      invariant postUp == postUp0 + AllPostUp(proxyIp, originHost, portMappings[..i])
      invariant preDown == preDown0 + AllPreDown(proxyIp, originHost, portMappings[..i])
    {
      var proto := ToLower(portMappings[i].protocol);
      if proto != "tcp" && proto != "udp" {
        return Some(i), postUp, preDown;
      }
      postUp, preDown := PushMappingRules(postUp, preDown, proxyIp, originHost, portMappings[i], proto);
      AllRulesExtend(proxyIp, originHost, portMappings, i);
      ConcatAssoc(postUp0, AllPostUp(proxyIp, originHost, portMappings[..i]), MappingPostUp(proxyIp, originHost, portMappings[i]));
      ConcatAssoc(preDown0, AllPreDown(proxyIp, originHost, portMappings[..i]), MappingPreDown(proxyIp, originHost, portMappings[i]));
    }
    assert portMappings[..|portMappings|] == portMappings;
    unsupported := None;
  }

  /** The per-mapping rules of a longer prefix extend those of the shorter. */
  lemma AllRulesExtend(proxyIp: string, originHost: string, ms: seq<Mapping>, i: nat)
    requires i < |ms|
    ensures AllPostUp(proxyIp, originHost, ms[..i + 1])
            == AllPostUp(proxyIp, originHost, ms[..i]) + MappingPostUp(proxyIp, originHost, ms[i])
    ensures AllPreDown(proxyIp, originHost, ms[..i + 1])
            == AllPreDown(proxyIp, originHost, ms[..i]) + MappingPreDown(proxyIp, originHost, ms[i])
  {
    assert ms[..i + 1][..i] == ms[..i];
  }

  /** Proof helper: sequence concatenation regroups. */
  lemma ConcatAssoc<T>(a: seq<T>, b: seq<T>, c: seq<T>)
    ensures (a + b) + c == a + (b + c)
  {
  }

  /** Proof helper for `SetupRules`: pushing the elements of `xs` one at a
      time appends `xs`. */
  lemma PushedInOrder<T>(before: seq<T>, xs: seq<T>)
    requires |xs| == 4 || |xs| == 6
    ensures |xs| == 4 ==> before + [xs[0]] + [xs[1]] + [xs[2]] + [xs[3]] == before + xs
    ensures |xs| == 6 ==> before + [xs[0]] + [xs[1]] + [xs[2]] + [xs[3]] + [xs[4]] + [xs[5]] == before + xs
  {
  }

  // ---------------------------------------------------------------------------
  // Properties of the rules

  /** `setup` fails exactly when the list is empty or some protocol is not tcp or
      udp (in any letter case); the error names the first offending mapping. */
  lemma SetupFailsExactly(proxyIp: string, originHost: string, ms: seq<Mapping>,
                          upload: Option<U32>, download: Option<U32>)
    ensures SetupRules(proxyIp, originHost, ms, upload, download).Err?
            <==> ms == [] || exists k :: 0 <= k < |ms| && !Supported(ms[k].protocol)
    ensures SetupRules(proxyIp, originHost, ms, upload, download) == Err(NoPortMappings) <==> ms == []
    ensures forall k :: 0 <= k < |ms| && !Supported(ms[k].protocol)
                        && (forall j :: 0 <= j < k ==> Supported(ms[j].protocol))
                        ==> SetupRules(proxyIp, originHost, ms, upload, download)
                            == Err(UnsupportedProtocol(ms[k].protocol, ms[k].port))
  {
    forall k | 0 <= k < |ms| && !Supported(ms[k].protocol)
                        && (forall j :: 0 <= j < k ==> Supported(ms[j].protocol))
      ensures FirstUnsupported(ms) == k
    {
      var f := FirstUnsupported(ms);
      assert !(f < k) && !(f > k);
    }
  }

  lemma {:induction false} AllRuleCounts(proxyIp: string, originHost: string, ms: seq<Mapping>)
    ensures |AllPostUp(proxyIp, originHost, ms)| == 6 * |ms|
    ensures |AllPreDown(proxyIp, originHost, ms)| == 4 * |ms|
  {
    if ms != [] {
      AllRuleCounts(proxyIp, originHost, ms[..|ms| - 1]);
    }
  }

  /** Rule counts: 4 + 6n PostUp and 5 + 4n PreDown rules for n mappings, plus 2
      and 1 with an upload limit, plus 6 and 3 with a download limit. */
  lemma RuleCounts(proxyIp: string, originHost: string, ms: seq<Mapping>,
                   upload: Option<U32>, download: Option<U32>)
    requires SetupRules(proxyIp, originHost, ms, upload, download).Ok?
    ensures var rules := SetupRules(proxyIp, originHost, ms, upload, download).value;
      && |rules.postUp| == 4 + 6 * |ms| + (if upload.Some? then 2 else 0) + (if download.Some? then 6 else 0)
      && |rules.preDown| == 5 + 4 * |ms| + (if upload.Some? then 1 else 0) + (if download.Some? then 3 else 0)
  {
    AllRuleCounts(proxyIp, originHost, ms);
  }

  /** Every rule of the list is made tolerant with "|| true". */
  predicate AllOrTrue(rs: seq<Rule>) {
    forall k :: 0 <= k < |rs| ==> rs[k].OrTrue?
  }

  lemma AllOrTrueConcat(a: seq<Rule>, b: seq<Rule>)
    requires AllOrTrue(a) && AllOrTrue(b)
    ensures AllOrTrue(a + b)
  {
    forall k | 0 <= k < |a + b| ensures (a + b)[k].OrTrue? {
      if k >= |a| {
        assert (a + b)[k] == b[k - |a|];
      }
    }
  }

  lemma {:induction false} AllPreDownTolerant(proxyIp: string, originHost: string, ms: seq<Mapping>)
    ensures AllOrTrue(AllPreDown(proxyIp, originHost, ms))
  {
    if ms != [] {
      AllPreDownTolerant(proxyIp, originHost, ms[..|ms| - 1]);
    }
  }

  lemma PreDownHeadTolerant(proxyIp: string, upload: Option<U32>, download: Option<U32>)
    ensures AllOrTrue(PreDownHead(proxyIp, upload, download))
  {
    var fixed := [OrTrue(AcceptEstablished(Delete, proxyIp)), OrTrue(ForwardToProxy(Delete, proxyIp))];
    var up: seq<Rule> := if upload.Some? then [OrTrue(DeleteRoot("wg0"))] else [];
    var down: seq<Rule> := if download.Some? then [OrTrue(DeleteIngress), OrTrue(DeleteRoot("ifb0")), OrTrue(IfbLink(false))] else [];
    var chain := [OrTrue(FlushAccountingChain), OrTrue(DeleteAccountingChain)];
    AllOrTrueConcat(fixed, up);
    AllOrTrueConcat(fixed + up, down);
    AllOrTrueConcat(fixed + up + down, chain);
  }

  /** Every PreDown rule ends in "|| true", so teardown goes on past a rule that
      is already gone. */
  lemma PreDownTolerant(proxyIp: string, originHost: string, ms: seq<Mapping>,
                        upload: Option<U32>, download: Option<U32>)
    requires SetupRules(proxyIp, originHost, ms, upload, download).Ok?
    ensures var pre := SetupRules(proxyIp, originHost, ms, upload, download).value.preDown;
      forall k :: 0 <= k < |pre| ==> EndsWith(Render(pre[k]), " || true")
  {
    var pre := SetupRules(proxyIp, originHost, ms, upload, download).value.preDown;
    var head := PreDownHead(proxyIp, upload, download);
    var all := AllPreDown(proxyIp, originHost, ms);
    PreDownHeadTolerant(proxyIp, upload, download);
    AllPreDownTolerant(proxyIp, originHost, ms);
    AllOrTrueConcat(head, all);
    AllOrTrueConcat(head + all, [OrTrue(JumpToAccounting(Delete))]);
    assert pre == head + all + [OrTrue(JumpToAccounting(Delete))];
    forall k | 0 <= k < |pre| ensures EndsWith(Render(pre[k]), " || true") {
      assert pre[k] == OrTrue(pre[k].rule);
      OrTrueTolerant(pre[k].rule);
    }
  }

  /** A rule made tolerant ends in "|| true". */
  lemma OrTrueTolerant(r: Rule)
    ensures EndsWith(Render(OrTrue(r)), " || true")
  {
    assert Render(OrTrue(r)) == Render(r) + " || true";
    EndsWithAppended(Render(r), " || true");
  }

  /** The rules of mapping k sit at a fixed stride: PostUp rules 6k..6k+5 and
      PreDown rules 4k..4k+3 of the per-mapping part. */
  lemma {:induction false} MappingRulesAt(proxyIp: string, originHost: string, ms: seq<Mapping>, k: nat)
    requires k < |ms|
    ensures |AllPostUp(proxyIp, originHost, ms)| == 6 * |ms|
    ensures AllPostUp(proxyIp, originHost, ms)[6 * k..6 * k + 6] == MappingPostUp(proxyIp, originHost, ms[k])
    ensures |AllPreDown(proxyIp, originHost, ms)| == 4 * |ms|
    ensures AllPreDown(proxyIp, originHost, ms)[4 * k..4 * k + 4] == MappingPreDown(proxyIp, originHost, ms[k])
  {
    AllRuleCounts(proxyIp, originHost, ms);
    var init := ms[..|ms| - 1];
    AllRuleCounts(proxyIp, originHost, init);
    if k < |ms| - 1 {
      MappingRulesAt(proxyIp, originHost, init, k);
      assert init[k] == ms[k];
    }
  }

  /** Mapping k's forwarding rule sends traffic arriving from the proxy for its
      port to that same port on the origin host, with the protocol lowercased. */
  lemma DnatTargetsSamePort(proxyIp: string, originHost: string, ms: seq<Mapping>,
                            upload: Option<U32>, download: Option<U32>, k: nat)
    requires SetupRules(proxyIp, originHost, ms, upload, download).Ok?
    requires k < |ms|
    ensures var rules := SetupRules(proxyIp, originHost, ms, upload, download).value;
      var h := |PostUpHead(proxyIp, upload, download)|;
      var proto := ToLower(ms[k].protocol);
      && (proto == "tcp" || proto == "udp")
      && h + 6 * k + 2 < |rules.postUp|
      && rules.postUp[h + 6 * k + 2] == Dnat(Append, proxyIp, proto, ms[k].port, originHost)
      && EndsWith(Render(rules.postUp[h + 6 * k + 2]), originHost + ":" + NatToString(ms[k].port))
  {
    MappingRulesAt(proxyIp, originHost, ms, k);
    var rules := SetupRules(proxyIp, originHost, ms, upload, download).value;
    var head := PostUpHead(proxyIp, upload, download);
    var all := AllPostUp(proxyIp, originHost, ms);
    assert FirstUnsupported(ms) == |ms|;
    assert rules.postUp == head + all + [JumpToAccounting(Append)];
    assert rules.postUp[|head| + 6 * k + 2] == all[6 * k + 2];
    assert all[6 * k + 2] == all[6 * k..6 * k + 6][2];
    DnatTarget(Append, proxyIp, ToLower(ms[k].protocol), ms[k].port, originHost);
  }

  /** A DNAT rule's text ends with its target, `host:port`. */
  lemma DnatTarget(op: Op, proxyIp: string, proto: string, port: Port, originHost: string)
    ensures EndsWith(Render(Dnat(op, proxyIp, proto, port, originHost)), originHost + ":" + NatToString(port))
  {
    var p := NatToString(port);
    var front := "iptables -t nat -" + Flag(op) + " PREROUTING -i wg0 -s " + proxyIp + " -p " + proto + " --dport " + p
                 + " -j DNAT --to-destination ";
    ConcatAssoc(front + originHost, ":", p);
    ConcatAssoc(front, originHost, ":" + p);
    ConcatAssoc(front, originHost + ":", p);
    assert Render(Dnat(op, proxyIp, proto, port, originHost)) == front + (originHost + ":" + p);
    assert (front + (originHost + ":" + p))[|front|..] == originHost + ":" + p;
  }

  /** The head has three rules, two more with an upload limit and six more
      with a download limit. An upload limit puts the wg0 HTB root and class
      right after the two forwarding rules; a download limit puts the ifb0 root
      and class at the end of its six-rule block. Every HTB class carries the
      limit of its direction, so without a limit there is no class for it. The
      "kbit" figure is `limit * 1000` while that product fits in 32 bits. */
  lemma ShapingRates(proxyIp: string, upload: Option<U32>, download: Option<U32>)
    ensures var head := PostUpHead(proxyIp, upload, download);
      var o := if upload.Some? then 4 else 2;
      && |head| == o + (if download.Some? then 6 else 0) + 1
      && (upload.Some? ==> head[2] == HtbRoot("wg0") && head[3] == HtbClass("wg0", upload.value))
      && (download.Some? ==> head[o + 4] == HtbRoot("ifb0") && head[o + 5] == HtbClass("ifb0", download.value))
      && (forall k :: 0 <= k < |head| && head[k].HtbClass? ==>
            (head[k].dev == "wg0" && upload == Some(head[k].limit))
            || (head[k].dev == "ifb0" && download == Some(head[k].limit)))
    ensures forall limit: U32 :: limit <= 4294967 ==> Kbit(limit) == NatToString(limit * 1000) + "kbit"
  {
    var head := PostUpHead(proxyIp, upload, download);
    var up := if upload.Some? then [HtbRoot("wg0"), HtbClass("wg0", upload.value)] else [];
    var down := if download.Some? then
        [LoadIfb, IfbLink(true), AddIngress, MirrorToIfb, HtbRoot("ifb0"), HtbClass("ifb0", download.value)]
      else [];
    var fixed := [AcceptEstablished(Append, proxyIp), ForwardToProxy(Append, proxyIp)];
    assert head == fixed + up + down + [OrTrue(NewAccountingChain)];
    forall k | 0 <= k < |head| && head[k].HtbClass?
      ensures (head[k].dev == "wg0" && upload == Some(head[k].limit))
              || (head[k].dev == "ifb0" && download == Some(head[k].limit))
    {
      if k < |fixed| + |up| {
        assert head[k] == (fixed + up)[k];
      } else {
        assert head[k] == (down + [OrTrue(NewAccountingChain)])[k - |fixed| - |up|];
      }
    }
  }

  // ---------------------------------------------------------------------------
  // The wg-quick configuration text

  /** The command texts of a rule list, in order. */
  function RenderAll(rs: seq<Rule>): seq<string> {
    seq(|rs|, k requires 0 <= k < |rs| => Render(rs[k]))
  }

  /** The interface section of the configuration, before the rules. */
  function InterfaceLines(originIp: string, privateKey: string): seq<string> {
    ["[Interface]", "Address = " + originIp + "/24", "PrivateKey = " + privateKey]
  }

  /** The blank line and the peer section, after the rules; the template ends
      in a line feed, hence the final empty line. */
  function PeerLines(peerPublicKey: string, presharedKey: string, proxyEndpoint: string, proxyIp: string): seq<string> {
    ["", "[Peer]", "PublicKey = " + peerPublicKey, "PresharedKey = " + presharedKey,
     "Endpoint = " + proxyEndpoint, "AllowedIPs = " + proxyIp + "/32", "PersistentKeepalive = 25", ""]
  }

  /** The lines of the configuration template `setup` fills in; the PostUp and
      PreDown blocks are each one placeholder, filled with the prefixed rules
      joined by line feeds. */
  function ConfigTemplate(originIp: string, privateKey: string, postUp: seq<string>, preDown: seq<string>,
                          peerPublicKey: string, presharedKey: string, proxyEndpoint: string, proxyIp: string): seq<string>
  {
    InterfaceLines(originIp, privateKey)
    + [Join(Prefixed("PostUp = ", postUp), "\n")]
    + [Join(Prefixed("PreDown = ", preDown), "\n")]
    + PeerLines(peerPublicKey, presharedKey, proxyEndpoint, proxyIp)
  }

  /** The configuration `setup` writes to wg0.conf. */
  function ConfigText(originIp: string, privateKey: string, postUp: seq<string>, preDown: seq<string>,
                      peerPublicKey: string, presharedKey: string, proxyEndpoint: string, proxyIp: string): string
  {
    Join(ConfigTemplate(originIp, privateKey, postUp, preDown, peerPublicKey, presharedKey, proxyEndpoint, proxyIp), "\n")
  }

  /** The lines of the configuration, one per rule in list order. */
  function ConfigLines(originIp: string, privateKey: string, postUp: seq<string>, preDown: seq<string>,
                       peerPublicKey: string, presharedKey: string, proxyEndpoint: string, proxyIp: string): seq<string>
  {
    InterfaceLines(originIp, privateKey) + Prefixed("PostUp = ", postUp) + Prefixed("PreDown = ", preDown)
    + PeerLines(peerPublicKey, presharedKey, proxyEndpoint, proxyIp)
  }

  predicate NoNewline(s: string) {
    '\n' !in s
  }

  predicate AllNoNewline(xs: seq<string>) {
    forall k :: 0 <= k < |xs| ==> NoNewline(xs[k])
  }

  lemma FixedLinesFree(originIp: string, privateKey: string,
                       peerPublicKey: string, presharedKey: string, proxyEndpoint: string, proxyIp: string)
    requires NoNewline(originIp) && NoNewline(privateKey) && NoNewline(peerPublicKey)
    requires NoNewline(presharedKey) && NoNewline(proxyEndpoint) && NoNewline(proxyIp)
    ensures AllNoNewline(InterfaceLines(originIp, privateKey))
    ensures AllNoNewline(PeerLines(peerPublicKey, presharedKey, proxyEndpoint, proxyIp))
  {
  }

  lemma PrefixedFree(p: string, xs: seq<string>)
    requires NoNewline(p) && AllNoNewline(xs)
    ensures AllNoNewline(Prefixed(p, xs))
  {
    forall k | 0 <= k < |xs| ensures NoNewline(Prefixed(p, xs)[k]) {
      assert Prefixed(p, xs)[k] == p + xs[k];
    }
  }

  lemma AllNoNewlineConcat(a: seq<string>, b: seq<string>)
    requires AllNoNewline(a) && AllNoNewline(b)
    ensures AllNoNewline(a + b)
  {
    forall k | 0 <= k < |a + b| ensures NoNewline((a + b)[k]) {
      if k >= |a| { assert (a + b)[k] == b[k - |a|]; }
    }
  }

  /** Every text a rule is built from is free of line feeds. */
  predicate TextsFree(r: Rule) {
    match r
    case AcceptEstablished(_, ip) => NoNewline(ip)
    case ForwardToProxy(_, ip) => NoNewline(ip)
    case HtbRoot(dev) => NoNewline(dev)
    case HtbClass(dev, _) => NoNewline(dev)
    case DeleteRoot(dev) => NoNewline(dev)
    case AcceptPort(_, ip, proto, _) => NoNewline(ip) && NoNewline(proto)
    case ForwardProto(_, ip, proto) => NoNewline(ip) && NoNewline(proto)
    case Dnat(_, ip, proto, _, host) => NoNewline(ip) && NoNewline(proto) && NoNewline(host)
    case Masquerade(_, host, proto, _) => NoNewline(host) && NoNewline(proto)
    case CountToOrigin(host, proto, _) => NoNewline(host) && NoNewline(proto)
    case CountFromOrigin(host, proto, _) => NoNewline(host) && NoNewline(proto)
    case OrTrue(rule) => TextsFree(rule)
    case _ => true
  }

  predicate AllTextsFree(rs: seq<Rule>) {
    forall k :: 0 <= k < |rs| ==> TextsFree(rs[k])
  }

  /** Decimal numbers and "kbit" figures are single-line. */
  lemma NumberFree(n: nat)
    ensures NoNewline(NatToString(n)) && NoNewline(Kbit(n % 0x1_0000_0000))
  {
  }

  // The fixed pieces of the command texts hold no line feed.

  lemma FilterPiecesFree()
    ensures NoNewline("iptables -") && NoNewline(" INPUT -i wg0 -s ") && NoNewline(" -m conntrack")
    ensures NoNewline(" -j ACCEPT") && NoNewline(" --ctstate RELATED,ESTABLISHED")
  {
  }

  lemma ForwardPiecesFree()
    ensures NoNewline(" FORWARD -o wg0 -d ") && NoNewline(" -p ") && NoNewline(" --dport ")
    ensures NoNewline(" FORWARD -i wg0 -s ") && NoNewline(" FORWARD -j OUTPOST_ACCOUNTING")
  {
  }

  lemma NatPiecesFree()
    ensures NoNewline("iptables -t nat -") && NoNewline(" PREROUTING -i wg0 -s ") && NoNewline(":")
    ensures NoNewline(" -j MASQUERADE") && NoNewline(" -j DNAT --to-destination ") && NoNewline(" POSTROUTING -d ")
  {
  }

  lemma AccountingPiecesFree()
    ensures NoNewline("iptables -A OUTPOST_ACCOUNTING -d ") && NoNewline("iptables -A OUTPOST_ACCOUNTING -s ")
    ensures NoNewline(" -j RETURN") && NoNewline(" --sport ")
  {
  }

  lemma ChainPiecesFree()
    ensures NoNewline("iptables -N OUTPOST_ACCOUNTING") && NoNewline("iptables -F OUTPOST_ACCOUNTING")
    ensures NoNewline("iptables -X OUTPOST_ACCOUNTING")
  {
  }

  lemma HtbPiecesFree()
    ensures NoNewline("tc qdisc add dev ") && NoNewline(" root handle 1: htb default 10")
    ensures NoNewline("tc class add dev ") && NoNewline(" ceil ")
  {
    ClassPieceFree();
  }

  lemma ClassPieceFree()
    ensures NoNewline(" parent 1: classid 1:10 htb rate ")
  {
  }

  lemma IfbPiecesFree()
    ensures NoNewline("tc qdisc del dev ") && NoNewline(" root") && NoNewline("modprobe ifb numifbs=1")
    ensures NoNewline("ip link set dev ifb0 ") && NoNewline("up") && NoNewline("down")
  {
  }

  lemma IngressPiecesFree()
    ensures NoNewline("tc qdisc add dev wg0") && NoNewline(" handle ffff: ingress") && NoNewline("tc qdisc del dev wg0 ingress")
    ensures NoNewline(" dev ifb0")
  {
  }

  lemma MirrorPiecesFree()
    ensures NoNewline("tc filter add dev wg0 parent ffff:") && NoNewline(" protocol all u32 match u32 0 0")
    ensures NoNewline(" action mirred egress redirect")
  {
    MatchPieceFree();
  }

  lemma MatchPieceFree()
    ensures NoNewline(" protocol all u32 match u32 0 0")
  {
  }

  /** The command text of a rule holds no line feed when its texts hold
      none. */
  lemma CommandFree(r: Rule)
    requires !r.OrTrue? && TextsFree(r)
    ensures NoNewline(Command(r))
  {
    if r.AcceptEstablished? || r.ForwardToProxy? || r.AcceptPort? || r.ForwardProto? || r.JumpToAccounting? {
      FilterFree(r);
    } else if r.Dnat? || r.Masquerade? {
      NatFree(r);
    } else if r.CountToOrigin? || r.CountFromOrigin? {
      CountFree(r);
    } else if r.HtbRoot? || r.HtbClass? || r.DeleteRoot? || r.LoadIfb? || r.IfbLink? {
      ShapingFree(r);
    } else {
      IngressFree(r);
    }
  }

  lemma FilterFree(r: Rule)
    requires (r.AcceptEstablished? || r.ForwardToProxy? || r.AcceptPort? || r.ForwardProto? || r.JumpToAccounting?) && TextsFree(r)
    ensures NoNewline(Command(r))
  {
    FilterPiecesFree();
    ForwardPiecesFree();
    assert NoNewline(Flag(r.op));
    if r.AcceptPort? {
      NumberFree(r.port);
    }
  }

  lemma NatFree(r: Rule)
    requires (r.Dnat? || r.Masquerade?) && TextsFree(r)
    ensures NoNewline(Command(r))
  {
    NumberFree(r.port);
    NatPiecesFree();
    ForwardPiecesFree();
    assert NoNewline(Flag(r.op));
  }

  lemma CountFree(r: Rule)
    requires (r.CountToOrigin? || r.CountFromOrigin?) && TextsFree(r)
    ensures NoNewline(Command(r))
  {
    NumberFree(r.port);
    AccountingPiecesFree();
    ForwardPiecesFree();
  }

  lemma ShapingFree(r: Rule)
    requires (r.HtbRoot? || r.HtbClass? || r.DeleteRoot? || r.LoadIfb? || r.IfbLink?) && TextsFree(r)
    ensures NoNewline(Command(r))
  {
    if r.HtbRoot? || r.HtbClass? {
      HtbPiecesFree();
      if r.HtbClass? {
        NumberFree(r.limit);
      }
    } else {
      IfbPiecesFree();
    }
  }

  lemma IngressFree(r: Rule)
    requires (r.AddIngress? || r.MirrorToIfb? || r.DeleteIngress?
              || r.NewAccountingChain? || r.FlushAccountingChain? || r.DeleteAccountingChain?) && TextsFree(r)
    ensures NoNewline(Command(r))
  {
    if r.MirrorToIfb? {
      MirrorPiecesFree();
      IngressPiecesFree();
    } else if r.AddIngress? || r.DeleteIngress? {
      IngressPiecesFree();
    } else {
      ChainPiecesFree();
    }
  }

  lemma {:induction false} RenderFree(r: Rule)
    requires TextsFree(r)
    ensures NoNewline(Render(r))
  {
    if r.OrTrue? {
      RenderFree(r.rule);
      OrTrueFree(r.rule);
    } else {
      CommandFree(r);
    }
  }

  lemma OrTrueFree(r: Rule)
    requires NoNewline(Render(r))
    ensures NoNewline(Render(OrTrue(r)))
  {
    TolerantFree(Render(r));
  }

  lemma TolerantFree(s: string)
    requires NoNewline(s)
    ensures NoNewline(s + " || true")
  {
    assert NoNewline(" || true");
  }

  lemma RenderAllFree(rs: seq<Rule>)
    requires AllTextsFree(rs)
    ensures AllNoNewline(RenderAll(rs))
  {
    forall k | 0 <= k < |rs| ensures NoNewline(RenderAll(rs)[k]) {
      RenderFree(rs[k]);
    }
  }

  lemma AllTextsFreeConcat(a: seq<Rule>, b: seq<Rule>)
    requires AllTextsFree(a) && AllTextsFree(b)
    ensures AllTextsFree(a + b)
  {
    forall k | 0 <= k < |a + b| ensures TextsFree((a + b)[k]) {
      if k >= |a| { assert (a + b)[k] == b[k - |a|]; }
    }
  }

  /** A mapping's rules carry the proxy address, the origin host and the
      lowered protocol, which is "tcp" or "udp". */
  lemma MappingTextsFree(proxyIp: string, originHost: string, m: Mapping)
    requires NoNewline(proxyIp) && NoNewline(originHost) && Supported(m.protocol)
    ensures AllTextsFree(MappingPostUp(proxyIp, originHost, m)) && AllTextsFree(MappingPreDown(proxyIp, originHost, m))
  {
    var proto := ToLower(m.protocol);
    assert NoNewline(proto) by {
      assert NoNewline("tcp") && NoNewline("udp");
    }
    PostUpTextsFree(proxyIp, originHost, proto, m.port);
    PreDownTextsFree(proxyIp, originHost, proto, m.port);
  }

  lemma PostUpTextsFree(proxyIp: string, originHost: string, proto: string, port: Port)
    requires NoNewline(proxyIp) && NoNewline(originHost) && NoNewline(proto)
    ensures AllTextsFree([ AcceptPort(Append, proxyIp, proto, port), ForwardProto(Append, proxyIp, proto),
                           Dnat(Append, proxyIp, proto, port, originHost), Masquerade(Append, originHost, proto, port),
                           CountToOrigin(originHost, proto, port), CountFromOrigin(originHost, proto, port) ])
  {
  }

  lemma PreDownTextsFree(proxyIp: string, originHost: string, proto: string, port: Port)
    requires NoNewline(proxyIp) && NoNewline(originHost) && NoNewline(proto)
    ensures AllTextsFree([ OrTrue(AcceptPort(Delete, proxyIp, proto, port)), OrTrue(ForwardProto(Delete, proxyIp, proto)),
                           OrTrue(Dnat(Delete, proxyIp, proto, port, originHost)), OrTrue(Masquerade(Delete, originHost, proto, port)) ])
  {
  }

  lemma {:induction false} MappingRulesFree(proxyIp: string, originHost: string, ms: seq<Mapping>)
    requires NoNewline(proxyIp) && NoNewline(originHost)
    requires forall j :: 0 <= j < |ms| ==> Supported(ms[j].protocol)
    ensures AllTextsFree(AllPostUp(proxyIp, originHost, ms)) && AllTextsFree(AllPreDown(proxyIp, originHost, ms))
    decreases |ms|
  {
    if ms != [] {
      var init, m := ms[..|ms| - 1], ms[|ms| - 1];
      MappingRulesFree(proxyIp, originHost, init);
      MappingTextsFree(proxyIp, originHost, m);
      AllTextsFreeConcat(AllPostUp(proxyIp, originHost, init), MappingPostUp(proxyIp, originHost, m));
      AllTextsFreeConcat(AllPreDown(proxyIp, originHost, init), MappingPreDown(proxyIp, originHost, m));
    }
  }

  lemma HeadTextsFree(proxyIp: string, upload: Option<U32>, download: Option<U32>)
    requires NoNewline(proxyIp)
    ensures AllTextsFree(PostUpHead(proxyIp, upload, download)) && AllTextsFree(PreDownHead(proxyIp, upload, download))
  {
    PostUpHeadFree(proxyIp, upload, download);
    PreDownHeadFree(proxyIp, upload, download);
  }

  lemma PostUpHeadFree(proxyIp: string, upload: Option<U32>, download: Option<U32>)
    requires NoNewline(proxyIp)
    ensures AllTextsFree(PostUpHead(proxyIp, upload, download))
  {
    assert NoNewline("wg0") && NoNewline("ifb0");
  }

  lemma PreDownHeadFree(proxyIp: string, upload: Option<U32>, download: Option<U32>)
    requires NoNewline(proxyIp)
    ensures AllTextsFree(PreDownHead(proxyIp, upload, download))
  {
    assert NoNewline("wg0") && NoNewline("ifb0");
  }

  /** With a proxy address and an origin host on one line each, every command
      `setup` renders is a single line, and each list has at least one. */
  lemma SetupRulesFree(proxyIp: string, originHost: string, ms: seq<Mapping>,
                       upload: Option<U32>, download: Option<U32>)
    requires NoNewline(proxyIp) && NoNewline(originHost)
    requires SetupRules(proxyIp, originHost, ms, upload, download).Ok?
    ensures var rules := SetupRules(proxyIp, originHost, ms, upload, download).value;
      && |rules.postUp| >= 1 && |rules.preDown| >= 1
      && AllNoNewline(RenderAll(rules.postUp)) && AllNoNewline(RenderAll(rules.preDown))
  {
    var rules := SetupRules(proxyIp, originHost, ms, upload, download).value;
    var postHead, preHead := PostUpHead(proxyIp, upload, download), PreDownHead(proxyIp, upload, download);
    var postAll, preAll := AllPostUp(proxyIp, originHost, ms), AllPreDown(proxyIp, originHost, ms);
    assert rules.postUp == postHead + postAll + [JumpToAccounting(Append)];
    assert rules.preDown == preHead + preAll + [OrTrue(JumpToAccounting(Delete))];
    HeadTextsFree(proxyIp, upload, download);
    MappingRulesFree(proxyIp, originHost, ms);
    AllTextsFreeConcat(postHead, postAll);
    AllTextsFreeConcat(postHead + postAll, [JumpToAccounting(Append)]);
    AllTextsFreeConcat(preHead, preAll);
    AllTextsFreeConcat(preHead + preAll, [OrTrue(JumpToAccounting(Delete))]);
    RenderAllFree(rules.postUp);
    RenderAllFree(rules.preDown);
  }

  /** The configuration of a successful setup splits at line feeds into its
      lines, one per rendered rule, when the addresses, host, keys and endpoint
      are single-line. */
  lemma SetupConfigLines(originKeys: WireGuardKeys, proxyPublicKey: string, proxyEndpoint: string,
                         proxyIp: string, originIp: string, originHost: string, portMappings: seq<Mapping>,
                         upload: Option<U32>, download: Option<U32>)
    requires SetupRules(proxyIp, originHost, portMappings, upload, download).Ok?
    requires NoNewline(proxyIp) && NoNewline(originIp) && NoNewline(originHost) && NoNewline(proxyEndpoint)
    requires NoNewline(originKeys.privateKey) && NoNewline(originKeys.presharedKey) && NoNewline(proxyPublicKey)
    ensures var rules := SetupRules(proxyIp, originHost, portMappings, upload, download).value;
      Split(ConfigText(originIp, originKeys.privateKey, RenderAll(rules.postUp), RenderAll(rules.preDown),
                       proxyPublicKey, originKeys.presharedKey, proxyEndpoint, proxyIp), '\n')
      == ConfigLines(originIp, originKeys.privateKey, RenderAll(rules.postUp), RenderAll(rules.preDown),
                     proxyPublicKey, originKeys.presharedKey, proxyEndpoint, proxyIp)
  {
    var rules := SetupRules(proxyIp, originHost, portMappings, upload, download).value;
    SetupRulesFree(proxyIp, originHost, portMappings, upload, download);
    ConfigTextLines(originIp, originKeys.privateKey, RenderAll(rules.postUp), RenderAll(rules.preDown),
                    proxyPublicKey, originKeys.presharedKey, proxyEndpoint, proxyIp);
  }

  /** Split at line feeds, the configuration is exactly `ConfigLines`: the
      interface address on a /24, one "PostUp = " line per PostUp rule and one
      "PreDown = " line per PreDown rule in order, the peer restricted to the
      proxy's /32 with a 25-second keepalive, and a final line feed. */
  lemma ConfigTextLines(originIp: string, privateKey: string, postUp: seq<string>, preDown: seq<string>,
                        peerPublicKey: string, presharedKey: string, proxyEndpoint: string, proxyIp: string)
    requires |postUp| >= 1 && |preDown| >= 1
    requires AllNoNewline(postUp) && AllNoNewline(preDown)
    requires NoNewline(originIp) && NoNewline(privateKey) && NoNewline(peerPublicKey)
    requires NoNewline(presharedKey) && NoNewline(proxyEndpoint) && NoNewline(proxyIp)
    ensures Split(ConfigText(originIp, privateKey, postUp, preDown, peerPublicKey, presharedKey, proxyEndpoint, proxyIp), '\n')
            == ConfigLines(originIp, privateKey, postUp, preDown, peerPublicKey, presharedKey, proxyEndpoint, proxyIp)
  {
    var head := InterfaceLines(originIp, privateKey);
    var ups := Prefixed("PostUp = ", postUp);
    var downs := Prefixed("PreDown = ", preDown);
    var tail := PeerLines(peerPublicKey, presharedKey, proxyEndpoint, proxyIp);
    TemplateJoin(head, ups, downs, tail);
    FixedLinesFree(originIp, privateKey, peerPublicKey, presharedKey, proxyEndpoint, proxyIp);
    PrefixedFree("PostUp = ", postUp);
    PrefixedFree("PreDown = ", preDown);
    AllNoNewlineConcat(head, ups);
    AllNoNewlineConcat(head + ups, downs);
    AllNoNewlineConcat(head + ups + downs, tail);
    SplitJoin(head + ups + downs + tail, '\n');
  }

  /** Filling a placeholder line with a non-empty block joined by the same
      separator is the same as splicing the block's lines in. */
  lemma TemplateJoin(head: seq<string>, ups: seq<string>, downs: seq<string>, tail: seq<string>)
    requires |head| >= 1 && |ups| >= 1 && |downs| >= 1 && |tail| >= 1
    ensures Join(head + [Join(ups, "\n")] + [Join(downs, "\n")] + tail, "\n") == Join(head + ups + downs + tail, "\n")
  {
    JoinFilled(head, ups, downs, tail);
    JoinSpliced(head, ups, downs, tail);
  }

  lemma JoinFilled(head: seq<string>, ups: seq<string>, downs: seq<string>, tail: seq<string>)
    requires |head| >= 1 && |ups| >= 1 && |downs| >= 1 && |tail| >= 1
    ensures Join(head + [Join(ups, "\n")] + [Join(downs, "\n")] + tail, "\n")
            == Join(head, "\n") + "\n" + Join(ups, "\n") + "\n" + Join(downs, "\n") + "\n" + Join(tail, "\n")
  {
    var u, d := Join(ups, "\n"), Join(downs, "\n");
    JoinAppend(head, [u], "\n");
    JoinAppend(head + [u], [d], "\n");
    JoinAppend(head + [u] + [d], tail, "\n");
  }

  lemma JoinSpliced(head: seq<string>, ups: seq<string>, downs: seq<string>, tail: seq<string>)
    requires |head| >= 1 && |ups| >= 1 && |downs| >= 1 && |tail| >= 1
    ensures Join(head + ups + downs + tail, "\n")
            == Join(head, "\n") + "\n" + Join(ups, "\n") + "\n" + Join(downs, "\n") + "\n" + Join(tail, "\n")
  {
    JoinAppend(head, ups, "\n");
    JoinAppend(head + ups, downs, "\n");
    JoinAppend(head + ups + downs, tail, "\n");
  }

  /** The part of an established tunnel the rest of the program reads. */
  datatype OriginTunnel = OriginTunnel(proxyIp: string, originIp: string, config: string)

  /** `OriginTunnel::setup` up to the configuration it writes: validation, rule
      construction and the configuration text. */
  method Setup(originKeys: WireGuardKeys, proxyPublicKey: string, proxyEndpoint: string,
               proxyIp: string, originIp: string, originHost: string, portMappings: seq<Mapping>,
               upload: Option<U32>, download: Option<U32>) returns (r: Result<OriginTunnel, SetupError>)
    ensures SetupRules(proxyIp, originHost, portMappings, upload, download).Err?
            ==> r == Err(SetupRules(proxyIp, originHost, portMappings, upload, download).error)
    ensures SetupRules(proxyIp, originHost, portMappings, upload, download).Ok?
            ==> var rules := SetupRules(proxyIp, originHost, portMappings, upload, download).value;
                r == Ok(OriginTunnel(proxyIp, originIp,
                          ConfigText(originIp, originKeys.privateKey, RenderAll(rules.postUp), RenderAll(rules.preDown),
                                     proxyPublicKey, originKeys.presharedKey, proxyEndpoint, proxyIp)))
    ensures r.Ok? && NoNewline(proxyIp) && NoNewline(originIp) && NoNewline(originHost) && NoNewline(proxyEndpoint)
            && NoNewline(originKeys.privateKey) && NoNewline(originKeys.presharedKey) && NoNewline(proxyPublicKey)
            ==> var rules := SetupRules(proxyIp, originHost, portMappings, upload, download).value;
                Split(r.value.config, '\n')
                == ConfigLines(originIp, originKeys.privateKey, RenderAll(rules.postUp), RenderAll(rules.preDown),
                               proxyPublicKey, originKeys.presharedKey, proxyEndpoint, proxyIp)
  {
    var rules := BuildRules(proxyIp, originHost, portMappings, upload, download);
    if rules.Err? {
      return Err(rules.error);
    }
    var config := ConfigText(originIp, originKeys.privateKey, RenderAll(rules.value.postUp), RenderAll(rules.value.preDown),
                             proxyPublicKey, originKeys.presharedKey, proxyEndpoint, proxyIp);
    if NoNewline(proxyIp) && NoNewline(originIp) && NoNewline(originHost) && NoNewline(proxyEndpoint)
       && NoNewline(originKeys.privateKey) && NoNewline(originKeys.presharedKey) && NoNewline(proxyPublicKey) {
      SetupConfigLines(originKeys, proxyPublicKey, proxyEndpoint, proxyIp, originIp, originHost, portMappings, upload, download);
    }
    return Ok(OriginTunnel(proxyIp, originIp, config));
  }

  // ---------------------------------------------------------------------------
  // Traffic counters from `iptables -L OUTPOST_ACCOUNTING -v -n -x`

  datatype Counter = ToOrigin | FromOrigin

  const AnyAddress := "0.0.0.0/0"

  /** What one output line contributes as the code reads it: fields 1 (bytes),
      7 (source) and 8 (destination); the destination test comes first. */
  function CountedLine(line: string): Option<(Counter, nat)> {
    var parts := SplitWhitespace(line);
    if |parts| < 9 then None
    else match ParseU64(parts[1], 10)
      case None => None
      case Some(bytes) =>
        if StartsWith(parts[8], AnyAddress) && parts[7] != AnyAddress then Some((ToOrigin, bytes))
        else if StartsWith(parts[7], AnyAddress) && parts[8] != AnyAddress then Some((FromOrigin, bytes))
        else None
  }

  function Contribution(line: string, c: Counter): nat {
    match CountedLine(line)
    case Some((c', bytes)) => if c' == c then bytes else 0
    case None => 0
  }

  /** `stdout.lines().skip(2)`: the output without its two header lines. */
  function Body(stdout: string): seq<string> {
    var lines := Lines(stdout);
    if |lines| <= 2 then [] else lines[2..]
  }

  /** The total the parser accumulates for one counter over the given lines. */
  function Total(lines: seq<string>, c: Counter): nat {
    if lines == [] then 0 else Total(lines[..|lines| - 1], c) + Contribution(lines[|lines| - 1], c)
  }

  /** The parsing loop of `get_traffic_stats` over the command's output:
      returns (bytes to origin, bytes from origin). */
  method TrafficStats(stdout: string) returns (toOrigin: nat, fromOrigin: nat)
    ensures toOrigin == Total(Body(stdout), ToOrigin) && fromOrigin == Total(Body(stdout), FromOrigin)
  {
    var lines := Body(stdout);
    toOrigin, fromOrigin := 0, 0;
    for i := 0 to |lines|
      invariant toOrigin == Total(lines[..i], ToOrigin)
      invariant fromOrigin == Total(lines[..i], FromOrigin)
    {
      var line := lines[i];
      TotalStep(lines, i, ToOrigin);
      TotalStep(lines, i, FromOrigin);
      var parts := SplitWhitespace(line);
      if |parts| < 9 {
        continue;
      }
      var parsed := ParseU64(parts[1], 10);
      if parsed.Some? {
        var bytes := parsed.value;
        if StartsWith(parts[8], AnyAddress) && parts[7] != AnyAddress {
          toOrigin := toOrigin + bytes;
        } else if StartsWith(parts[7], AnyAddress) && parts[8] != AnyAddress {
          fromOrigin := fromOrigin + bytes;
        }
      }
    }
    assert lines[..|lines|] == lines;
  }

  /** One more line adds its contribution to the total. */
  lemma TotalStep(lines: seq<string>, i: nat, c: Counter)
    requires i < |lines|
    ensures Total(lines[..i + 1], c) == Total(lines[..i], c) + Contribution(lines[i], c)
  {
    assert lines[..i + 1][..i] == lines[..i];
  }

  /** A counted line adds its bytes to one counter only; a line with fewer than
      nine fields, or whose byte field does not parse, adds nothing. */
  lemma {:induction false} LineCountsOnce(line: string)
    ensures Contribution(line, ToOrigin) == 0 || Contribution(line, FromOrigin) == 0
    ensures var parts := SplitWhitespace(line);
      |parts| < 9 || ParseU64(parts[1], 10).None?
      ==> Contribution(line, ToOrigin) == 0 && Contribution(line, FromOrigin) == 0
  {
  }

  /** Totals add up over consecutive runs of lines. */
  lemma {:induction false} TotalAppend(a: seq<string>, b: seq<string>, c: Counter)
    ensures Total(a + b, c) == Total(a, c) + Total(b, c)
    decreases |b|
  {
    if b == [] {
      assert a + b == a;
    } else {
      var b' := b[..|b| - 1];
      TotalAppend(a, b', c);
      assert (a + b)[..|a + b| - 1] == a + b';
    }
  }

  /** The columns of an `iptables -L -v -n -x` line for the accounting rule
      `-d 172.17.0.2 -p tcp --dport 80`: the source column is 0.0.0.0/0 and the
      destination column is the origin address. */
  const ToOriginRuleColumns: seq<string> :=
    ["12", "3400", "RETURN", "tcp", "--", "*", "*", "0.0.0.0/0", "172.17.0.2", "tcp", "dpt:80"]

  lemma ColumnsOfJoinedLine()
    ensures SplitWhitespace(Join(ToOriginRuleColumns, " ")) == ToOriginRuleColumns
  {
    var ws := ToOriginRuleColumns;
    forall k | 0 <= k < |ws| ensures IsWord(ws[k]) {
    }
    SplitWhitespaceJoin(ws);
  }

  lemma ByteColumnParses()
    ensures ParseU64("3400", 10) == Some(3400)
  {
    var s := "3400";
    assert AllDigits(s, 10);
    assert s[..3] == "340" && "340"[..2] == "34" && "34"[..1] == "3" && "3"[..0] == "";
    assert DigitsValue("3", 10) == 3;
    assert DigitsValue("34", 10) == 34;
    assert DigitsValue("340", 10) == 340;
  }

  /** As written, a line with those columns, which counts traffic sent TO the
      origin, is added to the FROM-origin counter; `ColumnsOfJoinedLine` shows
      the columns joined by spaces form such a line. */
  lemma ToOriginRuleCountedFromOrigin(line: string)
    requires SplitWhitespace(line) == ToOriginRuleColumns
    ensures CountedLine(line) == Some((FromOrigin, 3400))
  {
    ByteColumnParses();
    var destination := "172.17.0.2";
    assert destination[..9][0] != AnyAddress[0];
  }

  /** The classification the variable names and comments describe: a rule with a
      specific destination (and any source) counts traffic to the origin, one with
      a specific source (and any destination) counts traffic from it. */
  function IntendedCountedLine(line: string): Option<(Counter, nat)> {
    var parts := SplitWhitespace(line);
    if |parts| < 9 then None
    else match ParseU64(parts[1], 10)
      case None => None
      case Some(bytes) =>
        if StartsWith(parts[7], AnyAddress) && parts[8] != AnyAddress then Some((ToOrigin, bytes))
        else if StartsWith(parts[8], AnyAddress) && parts[7] != AnyAddress then Some((FromOrigin, bytes))
        else None
  }

  /** With the intended classification, the counter of a well-formed accounting
      line follows the rule's direction: a specific destination counts to the
      origin and a specific source counts from it. */
  lemma IntendedFollowsDirection(line: string)
    requires var parts := SplitWhitespace(line);
      |parts| >= 9 && ParseU64(parts[1], 10).Some?
    ensures var parts := SplitWhitespace(line);
      var bytes := ParseU64(parts[1], 10).value;
      && (parts[7] == AnyAddress && parts[8] != AnyAddress ==> IntendedCountedLine(line) == Some((ToOrigin, bytes)))
      && (parts[8] == AnyAddress && parts[7] != AnyAddress ==> IntendedCountedLine(line) == Some((FromOrigin, bytes)))
      && (parts[7] == AnyAddress && parts[8] != AnyAddress ==> CountedLine(line) == Some((FromOrigin, bytes)))
  {
  }
}
