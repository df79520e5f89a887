# outpost, modelled in Dafny

outpost exposes a service running on an origin machine through a relay. With
the AWS backend it does the following:

- deploys a CloudFormation stack (a VPC, a security group, a NixOS EC2 instance,
  a wait condition and a Route 53 record) and waits until the stack is complete;
- brings up a WireGuard tunnel from the origin to the relay with `wg-quick`,
  whose PostUp/PreDown hooks install iptables forwarding, NAT and accounting
  rules and optional `tc` bandwidth shaping;
- serves a small dashboard;
- on shutdown, deletes the stack.

This project models the decision logic of that program. Process, file, SDK
and network I/O are inputs to the model:

- `WireGuard` (src/wireguard.rs): the first-fit subnet choice; the rule lists
  and the wg-quick configuration text built by `OriginTunnel::setup`; the parser
  of the iptables accounting counters.
- `CloudFormation` (src/aws/cloudformation.rs): the template as a JSON value,
  architecture detection, and the user-data placeholder substitution. The Nix
  template is a parameter.
- `AwsProxy` (src/aws/mod.rs):
  - hosted-zone validation;
  - stack naming and region choice;
  - the newest-AMI choice;
  - the per-poll decisions of stack creation and deletion;
  - resource-progress tracking, a class updated once per poll;
  - the deploy sequence, over functions that stand for the SDK's answers.
- `Startup` (src/main.rs):
  - the CapEff scan for NET_ADMIN;
  - the kernel-module checks;
  - the port-mapping derivation and the relay endpoint;
  - the stage sequence from the startup checks to stack cleanup.
- `Config` (src/config.rs): endpoint parsing over the URL parser's
  decomposition, the variant accessors, the region list and the CloudFront
  port rule.
- `Dashboard` (src/api.rs):
  - byte-size formatting, a loop over integers;
  - the statistics record and its `format_sizes` update;
  - the uptime text over Rust's truncating integer division;
  - the default application state.
- `Text`, `Json` and `Wrappers` are support modules. `Text` models the Rust
  `str` operations the source calls: `replace`, `trim*`, `split`,
  `split_whitespace`, `lines`, `starts_with`, `from_str_radix` and
  `to_string`. `Json` models `serde_json::Value`. `Wrappers` holds `Option`
  and `Result`.

Rust's `u32` bandwidth limits are modelled at their width. `limit * 1000` wraps
modulo 2^32, as a release build computes it. The byte totals that Rust keeps
in `u64` are unbounded `nat`s.

## Model

| member | source | states |
|---|---|---|
| WireGuard.FindAvailableSubnet | src/wireguard.rs:118-156 | fails exactly when every candidate prefix is in use; otherwise returns the proxy and origin addresses of the first candidate whose prefix is free |
| WireGuard.CandidateAddresses | src/wireguard.rs:123-143 | in every candidate the proxy and origin addresses both lie under the prefix, are the same up to the last character, and end in 1 and 2 respectively |
| WireGuard.SubnetKeyOneDot | src/wireguard.rs:101-110 | every recorded network identifier is two octets with exactly one dot |
| WireGuard.LastCandidateNeverExcluded | src/wireguard.rs:107-155 | "192.168.99" is never in a set built from interface addresses, so a free candidate always exists and the final bail cannot be reached |
| WireGuard.LastPrefixTwoDots | src/wireguard.rs:142 | the last candidate prefix "192.168.99" has two dots |
| WireGuard.LastPrefixNotRecorded | src/wireguard.rs:101-110 | so it is never among the recorded two-octet network identifiers |
| WireGuard.RateKbps | src/wireguard.rs:220 | the u32 product `limit * 1000` equals the mathematical product exactly when limit <= 4294967 |
| WireGuard.FirstUnsupported | src/wireguard.rs:272-278 | the index of the first mapping whose lowercased protocol is neither tcp nor udp; all before it are accepted |
| WireGuard.HeadRules | src/wireguard.rs:209-269 | pushes the fixed rules, the upload block and the download block, in source order, building exactly the head lists the rule properties are proved about |
| WireGuard.BuildRules | src/wireguard.rs:200-336 | the push loop with its early bail computes exactly `SetupRules`: no-mappings error, the first unsupported protocol's error, or the head, per-mapping and tail rules in order |
| WireGuard.PushAllMappings | src/wireguard.rs:272-332 | the mapping loop stops exactly at the first unsupported protocol and returns its index; otherwise it has appended every mapping's rules in order |
| WireGuard.PushMappingRules | src/wireguard.rs:281-331 | one iteration of the loop appends exactly mapping i's six PostUp and four PreDown rules |
| WireGuard.AllRulesExtend | src/wireguard.rs:272-332 | the loop's i+1st iteration appends mapping i's six PostUp and four PreDown rules to those of the first i |
| WireGuard.SetupFailsExactly | src/wireguard.rs:200-278 | setup fails iff the list is empty or some protocol is unsupported; empty ⇒ the no-mappings error; otherwise the error names the first unsupported mapping's protocol and port |
| WireGuard.AllRuleCounts | src/wireguard.rs:272-332 | each mapping contributes six PostUp and four PreDown rules |
| WireGuard.RuleCounts | src/wireguard.rs:209-336 | 4 + 6n PostUp and 5 + 4n PreDown rules, plus 2/1 with an upload limit and 6/3 with a download limit |
| WireGuard.AllPreDownTolerant | src/wireguard.rs:285-318 | every per-mapping PreDown rule is made tolerant |
| WireGuard.PreDownHeadTolerant | src/wireguard.rs:210-268 | every PreDown rule before the per-mapping part is made tolerant |
| WireGuard.PreDownTolerant | src/wireguard.rs:210-336 | every PreDown command text ends in " \|\| true" |
| WireGuard.OrTrueTolerant | src/wireguard.rs:210 | a tolerant rule's text ends in " \|\| true" |
| WireGuard.MappingRulesAt | src/wireguard.rs:272-332 | mapping k's rules sit at PostUp positions 6k..6k+5 and PreDown positions 4k..4k+3 of the per-mapping block |
| WireGuard.DnatTargetsSamePort | src/wireguard.rs:273-304 | mapping k's DNAT rule, at its fixed position, has the lowercased protocol (tcp or udp) and forwards to `origin_host:port` with the port of its `--dport` |
| WireGuard.DnatTarget | src/wireguard.rs:301-308 | a DNAT command text ends with `host:port` |
| WireGuard.ShapingRates | src/wireguard.rs:209-269 | for every combination of limits: the head has 3 rules, plus 2 with an upload limit and 6 with a download limit; an upload limit puts the wg0 HTB root and class right after the forwarding rules, and a download limit puts the ifb0 root and class at the end of its block; every HTB class is on wg0 with the upload limit or on ifb0 with the download limit, so a direction without a limit gets no class; the rate is limit*1000 kbit for limits up to 4294967 |
| WireGuard.RenderFree | src/wireguard.rs:209-336 | a rule whose embedded texts (addresses, host, protocol) hold no line feed renders to a command text without one, including its " \|\| true" form |
| WireGuard.SetupRulesFree | src/wireguard.rs:209-336 | when the proxy IP and origin host hold no line feed, the rules setup builds are non-empty and each renders on a single line |
| WireGuard.SetupConfigLines | src/wireguard.rs:209-360 | for those rules, and with the keys, endpoint and addresses free of line feeds, the configuration text splits at line feeds into exactly the lines `ConfigTextLines` describes |
| WireGuard.FixedLinesFree | src/wireguard.rs:338-351 | the interface and peer lines hold no line feed when their values hold none |
| WireGuard.PrefixedFree | src/wireguard.rs:354-355 | prefixing "PostUp = " / "PreDown = " keeps rule lines free of line feeds |
| WireGuard.AllNoNewlineConcat | src/wireguard.rs:338-360 | line lists free of line feeds concatenate to one |
| WireGuard.ConfigTextLines | src/wireguard.rs:338-360 | the configuration splits at line feeds into the interface lines (Address = origin_ip/24), one `PostUp = ` line per PostUp rule and one `PreDown = ` line per PreDown rule in list order, then the peer lines (AllowedIPs = proxy_ip/32, PersistentKeepalive = 25) |
| WireGuard.TemplateJoin | src/wireguard.rs:342-355 | placing a line-feed-joined block in one template line equals splicing its lines into the template |
| WireGuard.JoinFilled | src/wireguard.rs:338-360 | the filled template decomposes into its head, the two blocks and its tail |
| WireGuard.JoinSpliced | src/wireguard.rs:338-360 | the spliced lines decompose the same way |
| WireGuard.Setup | src/wireguard.rs:178-360 | a validation error propagates; otherwise the tunnel records the proxy and origin addresses and the configuration text built from the rendered rules and the keys; when the addresses, host, endpoint and keys hold no line feed, that text splits at line feeds into one interface block, one `PostUp = ` line per rendered PostUp rule, one `PreDown = ` line per PreDown rule, and the peer block |
| WireGuard.TrafficStats | src/wireguard.rs:439-467 | the two counters are the totals, over the output lines after the first two, of each line's contribution |
| WireGuard.LineCountsOnce | src/wireguard.rs:444-461 | a line adds to at most one counter; a line with fewer than nine fields or an unparsable byte column adds nothing |
| WireGuard.TotalAppend | src/wireguard.rs:444-462 | the totals are additive over consecutive runs of lines |
| WireGuard.TotalStep | src/wireguard.rs:444-462 | one more line adds its own contribution to each total |
| WireGuard.ColumnsOfJoinedLine | src/wireguard.rs:446 | whitespace splitting recovers the columns of a space-joined accounting line |
| WireGuard.ByteColumnParses | src/wireguard.rs:452 | the byte column "3400" parses as 3400 |
| WireGuard.ToOriginRuleCountedFromOrigin | src/wireguard.rs:454-459 | as written, the line of the "-d origin" accounting rule (traffic to the origin) is added to the from-origin counter |
| WireGuard.IntendedFollowsDirection | src/wireguard.rs:453-467 | under the corrected classification a specific destination counts to the origin and a specific source counts from it; the as-written classification is the reverse |
| CloudFormation.ArchitectureByFamily | src/aws/cloudformation.rs:260-276 | "arm64" exactly when the instance type starts with one of the nine Graviton family prefixes, otherwise "x86_64" |
| CloudFormation.ArchitectureExamples | src/aws/cloudformation.rs:306-348 | t3.micro maps to x86_64 and t4g.nano to arm64 |
| CloudFormation.DebugSwitch | src/aws/cloudformation.rs:283-287 | "debug = false" becomes "debug = true" exactly when debug is set, and the template is otherwise untouched by this step |
| CloudFormation.Substitutions | src/aws/cloudformation.rs:288-296 | the nine substitutions are made in placeholder order, placeholder k paired with field text k: the proxy private key, the protocol, the ingress port, the origin port, the origin public key, the preshared key, the origin IP, the stack name, the region |
| CloudFormation.OnePlaceholder | src/aws/cloudformation.rs:283-296 | a template holding only placeholder k, and no debug switch, becomes exactly the template with placeholder k replaced by field text k, provided that text brings in no placeholder substituted later |
| CloudFormation.SurvivesSubstitutions | src/aws/cloudformation.rs:288-296 | a text starting with a lower-case letter and holding no '{' still occurs after all nine substitutions |
| CloudFormation.DebugEnabled | src/aws/cloudformation.rs:283-296 | with debug set, a template holding "debug = false" yields user data holding "debug = true" |
| CloudFormation.DebugDisabled | src/aws/cloudformation.rs:283-296 | with debug unset, "debug = false" stays in the user data |
| CloudFormation.UserDataWithoutPlaceholders | src/aws/cloudformation.rs:283-296 | a template containing none of the placeholders is passed through unchanged |
| CloudFormation.ResourceLookup | src/aws/cloudformation.rs:38-222 | looking up `Resources.<name>` in the generated JSON finds exactly the named resource |
| CloudFormation.ResourceSet | src/aws/cloudformation.rs:38-222 | the template declares exactly its fourteen named resources |
| CloudFormation.ResourceMapKeys | src/aws/cloudformation.rs:38-222 | whatever the resource bodies, the resource map's keys are the fourteen names |
| CloudFormation.NameTagsFollowStackName | src/aws/cloudformation.rs:46-189 | every Name tag is "outpost-" + stack name + the resource's fixed suffix |
| CloudFormation.SecurityGroupIngress | src/aws/cloudformation.rs:239-258 | exactly two ingress rules: udp 51820 from origin_ip/32, then the ingress protocol and port from 0.0.0.0/0 |
| CloudFormation.DnsRecordShape | src/aws/cloudformation.rs:211-221 | the A record for ingress_host + "." with TTL "60" resolves to the proxy's public IP and depends on the wait condition |
| CloudFormation.WaitConditionShape | src/aws/cloudformation.rs:195-208 | the wait condition references the handle, counts one signal, times out after "600" and depends on the instance |
| CloudFormation.SelfDestructScope | src/aws/cloudformation.rs:137-166 | the instance role's only policy allows exactly DeleteStack, DescribeStacks and DescribeStackResource on the stack's own ARN pattern |
| CloudFormation.ProxyPublicIpOutput | src/aws/cloudformation.rs:224-228 | the ProxyPublicIP output is the instance's PublicIp attribute |
| CloudFormation.GenerateOutputs | src/aws/cloudformation.rs:224-233 | the generated template's Outputs field is the outputs object |
| CloudFormation.OutputsProxyIp | src/aws/cloudformation.rs:224-228 | inside it, ProxyPublicIP's value is the instance's PublicIp attribute |
| CloudFormation.InstanceUserData | src/aws/cloudformation.rs:176-192 | the instance's base64 user data is the substituted Nix template |
| CloudFormation.UnusedFields | src/aws/cloudformation.rs:4-236 | the template does not depend on the proxy public key or the origin host |
| AwsProxy.NormalizeZoneId | src/aws/mod.rs:28-30 | the normalised id does not start with "/hostedzone/", and an id without that prefix is kept as it is |
| AwsProxy.NormalizeZoneIdPrefixed | src/aws/mod.rs:28-30 | a leading "/hostedzone/" does not change the normalised id |
| AwsProxy.ValidateRoute53 | src/aws/mod.rs:20-76 | succeeds iff the zone has a name and, with trailing dots trimmed from both, ingress equals the zone or ends in "." + zone; a failed lookup and a missing name give their own errors |
| AwsProxy.SubdomainMeaning | src/aws/mod.rs:58-59 | the suffix test means: the zone itself, or some string followed by "." and the zone |
| AwsProxy.LookalikeRejected | src/aws/mod.rs:49-68 | "fooexample.com" is rejected for the zone "example.com." |
| AwsProxy.TrailingDotsIgnored | src/aws/mod.rs:49-52 | a trailing dot on the ingress host or the zone name does not change the verdict |
| AwsProxy.SubdomainAccepted | src/aws/mod.rs:49-68 | any sub + "." + zone, in fully qualified form, is accepted |
| AwsProxy.StackName | src/aws/mod.rs:176 | "outpost-" followed by the host with each '.' replaced by '-'; the name contains no '.' |
| AwsProxy.StackNameCollision | src/aws/mod.rs:176 | two different hosts can get the same stack name |
| AwsProxy.DeployRegion | src/aws/mod.rs:156-159 | the first listed region, or "us-east-2" for an empty list |
| AwsProxy.NewestFirstUnique | src/aws/mod.rs:117-123 | at most one index is the earliest with the greatest creation date, so the stable sort's first element is determined |
| AwsProxy.LatestAmi | src/aws/mod.rs:107-127 | empty list ⇒ error; otherwise the image id (or the missing-id error) of the earliest image with the lexicographically greatest date, a missing date counting as "" |
| AwsProxy.OutputValueFirstMatch | src/aws/mod.rs:359-365 | an output value is found iff some output has the key, no earlier one does, and that output has the value |
| AwsProxy.CreatePollStep | src/aws/mod.rs:351-398 | keep polling iff CREATE_IN_PROGRESS or DELETE_IN_PROGRESS; success iff CREATE_COMPLETE with a ProxyPublicIP output, returning it; the six failure statuses and unknown statuses give their errors |
| AwsProxy.WaitForCompletion | src/aws/mod.rs:236-400 | no outcome iff every observed poll says continue; otherwise the first decisive poll's outcome |
| AwsProxy.DeletePollStep | src/aws/mod.rs:532-589 | success iff the describe error shows the stack is gone or the status is DELETE_COMPLETE; keep polling iff DELETE_IN_PROGRESS; other describe errors and DELETE_FAILED give their errors |
| AwsProxy.GoneStackIsDeleted | src/aws/mod.rs:571-585 | any describe error text containing one of the three markers ends deletion successfully |
| AwsProxy.Cleanup | src/aws/mod.rs:403-592 | a failed delete request is reported as such; otherwise the first decisive poll decides and no outcome means every poll said continue |
| AwsProxy.Recorded | src/aws/mod.rs:290-327 | only ids of resources other than the stack are recorded |
| AwsProxy.ResourceIdsSnoc | src/aws/mod.rs:290-327 | one more event adds at most its own resource id to the seen and the finished sets, the latter only when its status is finished |
| AwsProxy.Progress.Observe | src/aws/mod.rs:290-327 | the completed set grows by the finished resources; the total becomes the maximum of itself and the number of distinct resources; it never decreases |
| AwsProxy.RequestParametersDeclared | src/aws/mod.rs:204-224 | the request carries the generated template, and every parameter it passes is declared by that template |
| AwsProxy.ProxyIpKeyDeclared | src/aws/mod.rs:359-365 | the output key the poller reads is one the template defines |
| AwsProxy.Deploy | src/aws/mod.rs:139-233 | zone errors propagate; after a valid zone, a failed image query, an empty image list and a newest image without an id each give their error; otherwise the request with the newest image's AMI is sent, a rejection is reported, and acceptance returns the derived stack name and region |
| Startup.NetAdminBit | src/main.rs:28-29 | CAP_NET_ADMIN is set iff bit 12 of the mask is set |
| Startup.CapEffValue | src/main.rs:23-26 | a value is read only from a "CapEff:" line and fits in u64 |
| Startup.CapEffLineRead | src/main.rs:23-26 | a "CapEff:" line's second token is read as hex |
| Startup.FirstCapEffAt | src/main.rs:22-31 | when line i is the first with a readable CapEff value, the scan's verdict is taken from line i |
| Startup.FirstCapEffNone | src/main.rs:22-35 | the scan finds no value iff no line has a readable CapEff value |
| Startup.CheckNetAdmin | src/main.rs:19-41 | the first CapEff line with a parsable value decides via bit 12; without one (or without the status file) the iptables probe decides |
| Startup.ModulePrefixMatch | src/main.rs:49 | the match is a plain prefix test: any line starting with the name counts |
| Startup.Unloaded | src/main.rs:59-74 | keeps exactly the listed modules that are not loaded |
| Startup.MissingModules | src/main.rs:59-74 | the missing modules are exactly the required ones (sch_htb, then ifb and act_mirred with a download limit) that are not loaded |
| Startup.MissingModulesInOrder | src/main.rs:62-74 | the missing list is sch_htb if unloaded, then, with a download limit, ifb and act_mirred if unloaded |
| Startup.NoteIfUnloaded | src/main.rs:62-73 | a module that is not loaded is appended, and a loaded one leaves the list as it was |
| Startup.CheckBandwidthLimitRequirements | src/main.rs:53-108 | an unreadable module list is an error; otherwise success iff nothing is missing, and the error lists the missing modules |
| Startup.PortMappings | src/main.rs:214-226 | one mapping per ingress, in order, with that ingress's protocol |
| Startup.MappingPorts | src/main.rs:217-223 | every mapping uses the origin port when one is set, otherwise its own ingress port |
| Startup.MappingsAcceptedBySetup | src/main.rs:214-226 | the tunnel accepts the derived mappings iff there is at least one ingress and every protocol is tcp or udp |
| Startup.EndpointUsesWireGuardPort | src/main.rs:339 | the relay endpoint uses the port the security group opens for WireGuard |
| Startup.RunStack | src/main.rs:273-454 | the stages that race the shutdown signal: cleanup iff the deployment finished and the next stage was interrupted or finished; a shutdown ends in success |
| Startup.Run | src/main.rs:148-454 | the module check (only with a limit), configuration validation, NET_ADMIN check, ingress and origin reading, key generation and subnet search must all pass before the stack stages; cleanup happens iff they passed, deployment finished and the stage after it was interrupted or finished; cleanup is the last stage and happens once, and the program then succeeds; a failure names the last stage reached and skips cleanup |
| Config.ParseEndpoint | src/config.rs:15-33 | succeeds iff the URL parses with a host and a port, copying scheme, host and port; each missing part has its error |
| Config.Ingress | src/config.rs:102-109 | both variants parse their own ingress text |
| Config.Origin | src/config.rs:112-119 | both variants parse their own origin text |
| Config.AwsRegions | src/config.rs:123-131 | None for Cloudflare; for AWS one trimmed piece per comma-separated field, one more than the number of commas |
| Config.SingleRegion | src/config.rs:126 | a list without commas is the one trimmed region |
| Config.RegionOfConfiguration | src/config.rs:123-131 | the deploy region is the first piece, trimmed; the default region is never taken, and "" yields "" |
| Config.ValidateCloudfront | src/config.rs:135-156 | fails iff the AWS variant uses CloudFront and the ingress does not parse or its port is not 443 |
| Config.CloudfrontOffSkipsParsing | src/config.rs:142-154 | without CloudFront the result is success whatever the URL parser answers |
| Dashboard.UnitIndex | src/api.rs:80-83 | the unit index for a size of at least 1 KB lies between 1 and 4 |
| Dashboard.UnitChoice | src/api.rs:76-89 | index k > 0 is chosen iff 1024^k <= bytes and (k = 4 or bytes < 1024^(k+1)); the value shown is bytes / 1024^k in unit k |
| Dashboard.SmallSizesExact | src/api.rs:85-86 | below 1 KB the text is the exact decimal count and " B", and that count reads back as the size |
| Dashboard.FormatBytes | src/api.rs:75-90 | the division loop yields exactly the unit choice above |
| Dashboard.TunnelStats.FormatSizes | src/api.rs:53-56 | only the two formatted fields change, each set from its counter |
| Dashboard.TunnelStats.Default | src/api.rs:40-50 | all counters are zero, the formatted sizes are empty and the tunnel is down |
| Dashboard.TruncDiv | src/api.rs:101-103 | Rust's signed division rounds toward zero: for a >= 0, 0 <= a - q*b < b; for a < 0, -b < a - q*b <= 0 |
| Dashboard.TruncRem | src/api.rs:102-103 | Rust's signed remainder completes the division and takes the dividend's sign |
| Dashboard.UnknownIffUnparsed | src/api.rs:112-113 | the uptime is "Unknown" exactly when the launch time did not parse |
| Dashboard.UptimeFieldsDecompose | src/api.rs:100-103 | for a non-negative duration: whole days, hours below 24 and minutes below 60 that account for it up to the last minute's seconds |
| Dashboard.UptimeShape | src/api.rs:104-110 | "Dd Hh Mm" with a day, else "Hh Mm" with an hour, else "Mm"; a launch in the future shows only a minute count |
| Dashboard.AppState.Default | src/api.rs:27-38 | default statistics (all byte and packet counters and the uptime zero, sizes blank, tunnel down), and no proxy info, CloudFront info, tunnel or limits |

## Left out

- Subprocesses. The model leaves out the key generation (`wg genkey`, `wg pubkey`, `wg genpsk`); `which` and `wg-quick up`; the interface teardown in `Drop`; and the `iptables -L` call. Their outputs are inputs: keys, the iptables text, and whether the iptables probe of `check_net_admin` succeeds.
- Filesystem and OS:
  - the temporary directory;
  - writing `wg0.conf` and its 0600 permissions;
  - `getifaddrs`, modelled by its list of IPv4 addresses;
  - reading `/proc/self/status` and `/proc/modules`, modelled by their text, or `None` when unreadable.
- AWS SDK calls, modelled as inputs:
  - the Route 53 zone lookup, the image query and `create_stack` are functions;
  - `describe_stacks` answers are a finite sequence of observed polls, and a run that stops without a decision is "still polling";
  - the 5-second sleeps are dropped.
- The progress bar, its TTY detection and the log messages.
- The dashboard's routing, template rendering and embedded assets.
- Concurrency: the signal handling, broadcast channel and `select!`. `Startup.Run` takes the resulting outcome of each stage as input.
- Floating point. The format_bytes loop divides a float. Every divisor is a power of two no larger than 2^40, so each comparison equals the integer one modelled. The "{:.2}" rendering of the quotient is left out; the model keeps the exact quotient.
- chrono: RFC 3339 parsing and the current time are inputs, in seconds.
- URL parser internals: `url::Url::parse` is an input, given as scheme, host and port. For example, it drops a scheme's default port, so "https://h:443" has no port.
- serde_json pretty-printing and key order: JSON objects are maps.
- The Nix template `templates/proxy.nix` is not part of this model. The relay's self-destruct and readiness scripts are in it, and it is a parameter of the user data.
- src/cloudflare.rs, src/aws.rs, outpost/src/cloudflare.rs, outpost/build.rs, src/lib.rs and examples/ are not part of this model.
- Files that disagree. Each function is modelled as its own file writes it:
  - main.rs calls `AwsProxy::deploy` with more arguments than it declares;
  - main.rs reads `instance_id` and `launch_time`, which `AwsProxy` lacks;
  - main.rs relies on `ingresses()`, `validate_all()` and an optional origin port, none of which config.rs has. `Startup.PortMappings` uses its own ingress type with an optional port.
- `TunnelStats::example` and the other demonstration constructors (src/api.rs:58-72) are fixtures, not behaviour.
- `to_lowercase` is modelled on ASCII letters. Other letters cannot lowercase to "tcp" or "udp", so the accept decision is unchanged; their emitted text is not modelled.
- AwsProxy.LatestAmi: the in-place stable sort is not modelled. The model specifies what its first element is: the earliest image among those with the greatest date.
- WireGuard.RateKbps: `limit * 1000` wraps modulo 2^32. This is what a release build computes; a debug build panics instead. The relation to the true product is proved only for limits up to 4294967.
- WireGuard.TrafficStats: the u64 byte sums are unbounded, so overflow is not modelled.
- Startup.Run: the validation, the configuration reading and the steps from key generation to tunnel setup are taken as succeeding, failing or being interrupted. Their internals are the members above, or, for `validate_all`, `ingresses` and `origin`, not in config.rs. The "could not verify NET_ADMIN" branch (src/main.rs:204-207) is not modelled because `check_net_admin` never returns an error.
- Startup.PortMappings: its requires rules out an ingress without a port when the origin has none. There `src/main.rs:222` panics through `expect("Ingress must have a port")`, and the model does not cover that panic. The panic of `ingresses[0]` on an empty list (src/main.rs:231) is not modelled either.
- Dashboard.CalculateUptime has no contract of its own. Its properties are the lemmas UnknownIffUnparsed, UptimeFieldsDecompose and UptimeShape.

## Findings

| source | as written | input that shows it | evidently intended | confidence | as-written member | corrected member |
|---|---|---|---|---|---|---|
| src/wireguard.rs:454-459 | a line whose destination column (field 8) is 0.0.0.0/0 counts as traffic TO the origin; one whose source column (field 7) is 0.0.0.0/0 counts as traffic FROM it | the counter line of the rule `-d 172.17.0.2 -p tcp --dport 80`: source 0.0.0.0/0, destination 172.17.0.2, 3400 bytes. It is added to the from-origin total. | a rule with a specific destination counts traffic to the origin, as the rule comments at :321 and :327 and the return comment at :464-466 say | medium, not executed | WireGuard.ToOriginRuleCountedFromOrigin | WireGuard.IntendedFollowsDirection |

`WireGuard.IntendedCountedLine` is the corrected classification. No other member reads the two counters, so `WireGuard.TrafficStats` keeps the code's behaviour as written.
