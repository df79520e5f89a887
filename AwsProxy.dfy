/**
 * The decisions of the AWS proxy's stack lifecycle (src/aws/mod.rs): Route53
 * validation, the stack name and region, the choice of the NixOS image, the
 * create and delete polling loops and their progress bookkeeping. Every SDK
 * response is an input: a zone lookup, an image list, the results of
 * successive `describe_stacks` calls, the events of a `describe_stack_events`.
 */
module AwsProxy {
  import opened Wrappers
  import opened Text
  import opened Json
  import CloudFormation

  // ---------------------------------------------------------------------------
  // Route53 validation

  const HostedZonePrefix := "/hostedzone/"

  /** The zone id with every leading "/hostedzone/" removed; an id without
      the prefix is already normal. */
  function NormalizeZoneId(id: string): (r: string)
    ensures !StartsWith(r, HostedZonePrefix)
    ensures !StartsWith(id, HostedZonePrefix) ==> r == id
  {
    TrimStartMatchesClean(id, HostedZonePrefix);
    TrimStartMatches(id, HostedZonePrefix)
  }

  /** One more leading prefix makes no difference. */
  lemma NormalizeZoneIdPrefixed(id: string)
    ensures NormalizeZoneId(HostedZonePrefix + id) == NormalizeZoneId(id)
  {
    var s := HostedZonePrefix + id;
    assert s[..|HostedZonePrefix|] == HostedZonePrefix;
    assert s[|HostedZonePrefix|..] == id;
  }

  /** What `get_hosted_zone` answered: a failed request, a response without a
      hosted zone, or the zone's name. */
  datatype ZoneLookup = LookupFailed(detail: string) | NoHostedZone | HostedZone(name: string)

  datatype ValidationError =
    | ZoneUnavailable(zoneId: string, detail: string)
    | ZoneWithoutName
    | NotInZone(ingress: string, zone: string)

  predicate IsSubdomain(ingress: string, zone: string) {
    ingress == zone || EndsWith(ingress, "." + zone)
  }

  /** `validate_route53_configuration`, given the answer to the lookup of the
      normalised zone id. */
  function ValidateRoute53(hostedZoneId: string, ingressHost: string, lookup: ZoneLookup): (r: Result<(), ValidationError>)
    ensures r.Ok? <==> lookup.HostedZone? && IsSubdomain(TrimEndMatches(ingressHost, '.'), TrimEndMatches(lookup.name, '.'))
    ensures lookup.LookupFailed? ==> r == Err(ZoneUnavailable(NormalizeZoneId(hostedZoneId), lookup.detail))
    ensures lookup.NoHostedZone? ==> r == Err(ZoneWithoutName)
  {
    match lookup
    case LookupFailed(detail) => Err(ZoneUnavailable(NormalizeZoneId(hostedZoneId), detail))
    case NoHostedZone => Err(ZoneWithoutName)
    case HostedZone(name) =>
      var zone := TrimEndMatches(name, '.');
      var ingress := TrimEndMatches(ingressHost, '.');
      if IsSubdomain(ingress, zone) then Ok(()) else Err(NotInZone(ingress, zone))
  }

  /** The subdomain test is: equal to the zone, or some name followed by "." and
      the zone. */
  lemma SubdomainMeaning(ingress: string, zone: string)
    ensures IsSubdomain(ingress, zone) <==> ingress == zone || exists sub :: ingress == sub + "." + zone
  {
    EndsWithIff(ingress, "." + zone);
    forall sub: string
      ensures sub + "." + zone == sub + ("." + zone)
    {
    }
  }

  /** A name that merely ends with the zone's text is not inside the zone. */
  lemma LookalikeRejected(hostedZoneId: string)
    ensures !IsSubdomain("fooexample.com", "example.com")
    ensures ValidateRoute53(hostedZoneId, "fooexample.com", HostedZone("example.com.")).Err?
  {
    var s := "fooexample.com";
    assert s[|s| - |".example.com"|..][0] == 'o';
    assert TrimEndMatches("example.com.", '.') == "example.com" by {
      assert "example.com."[..|"example.com."| - 1] == "example.com";
    }
  }

  /** Trailing dots on either name do not change the verdict. */
  lemma TrailingDotsIgnored(hostedZoneId: string, ingressHost: string, zone: string)
    ensures ValidateRoute53(hostedZoneId, ingressHost + ".", HostedZone(zone + "."))
         == ValidateRoute53(hostedZoneId, ingressHost, HostedZone(zone))
  {
    assert (ingressHost + ".")[..|ingressHost|] == ingressHost;
    assert (zone + ".")[..|zone|] == zone;
  }

  /** Every subdomain of the zone (in its fully qualified form with the final dot)
      passes validation. */
  lemma SubdomainAccepted(hostedZoneId: string, sub: string, zone: string)
    requires zone != [] && zone[|zone| - 1] != '.'
    ensures ValidateRoute53(hostedZoneId, sub + "." + zone + ".", HostedZone(zone + ".")) == Ok(())
  {
    var host := sub + "." + zone;
    assert host == sub + ("." + zone);
    assert host[|host| - 1] == zone[|zone| - 1];
    assert TrimEndMatches(host + ".", '.') == host by {
      assert (host + ".")[..|host|] == host;
    }
    assert TrimEndMatches(zone + ".", '.') == zone by {
      assert (zone + ".")[..|zone|] == zone;
    }
    assert host[|host| - |"." + zone|..] == "." + zone;
  }

  // ---------------------------------------------------------------------------
  // Stack name and region

  const StackPrefix := "outpost-"
  const DefaultRegion := "us-east-2"

  /** `format!("outpost-{}", ingress_host.replace(".", "-"))`. */
  function StackName(ingressHost: string): (r: string)
    ensures StartsWith(r, StackPrefix) && |r| == |StackPrefix| + |ingressHost|
    ensures forall k :: 0 <= k < |ingressHost| ==>
              r[|StackPrefix| + k] == (if ingressHost[k] == '.' then '-' else ingressHost[k])
    ensures '.' !in r
  {
    ReplaceChar(ingressHost, '.', '-');
    var r := StackPrefix + Replace(ingressHost, ".", "-");
    assert forall k :: 0 <= k < |StackPrefix| ==> r[k] != '.';
    assert forall k :: |StackPrefix| <= k < |r| ==> r[k] != '.' by {
      forall k | |StackPrefix| <= k < |r|
        ensures r[k] != '.'
      {
        assert r[k] == Replace(ingressHost, ".", "-")[k - |StackPrefix|];
      }
    }
    r
  }

  /** Hosts that differ only by '.' against '-' share a stack name. */
  lemma StackNameCollision()
    ensures StackName("a.b.example.com") == StackName("a-b.example.com")
  {
    var x, y := StackName("a.b.example.com"), StackName("a-b.example.com");
    assert |x| == |y|;
    forall k | 0 <= k < |x|
      ensures x[k] == y[k]
    {
      if k >= |StackPrefix| {
        var j := k - |StackPrefix|;
        assert x[|StackPrefix| + j] == y[|StackPrefix| + j];
      }
    }
  }

  /** The first listed region, or us-east-2 for an empty list. */
  function DeployRegion(regions: seq<string>): (r: string)
    ensures regions == [] ==> r == DefaultRegion
    ensures regions != [] ==> r == regions[0]
  {
    if regions == [] then DefaultRegion else regions[0]
  }

  // ---------------------------------------------------------------------------
  // The NixOS image

  const NixosOwnerId := "427812963091"
  const NixosNamePattern := "nixos/25.05*"

  /** The `describe_images` filter: owner, name pattern and architecture. */
  datatype ImageQuery = ImageQuery(owner: string, namePattern: string, architecture: string)

  function AmiQuery(architecture: string): ImageQuery {
    ImageQuery(NixosOwnerId, NixosNamePattern, architecture)
  }

  datatype Image = Image(imageId: Option<string>, creationDate: Option<string>)

  datatype AmiError = ImageQueryFailed(detail: string) | NoImages(architecture: string) | MissingImageId

  /** The sort key: the creation date, with "" for a missing one. */
  function CreationDate(image: Image): string {
    image.creationDate.UnwrapOr("")
  }

  /** `b` is what a stable sort by descending creation date puts first: no image
      is newer, and every image before it is strictly older. */
  predicate NewestFirst(images: seq<Image>, b: int) {
    0 <= b < |images|
    && (forall j :: 0 <= j < |images| ==> !LexLess(CreationDate(images[b]), CreationDate(images[j])))
    && (forall j :: 0 <= j < b ==> LexLess(CreationDate(images[j]), CreationDate(images[b])))
  }

  /** At most one image comes first: any other index is not what the sort puts
      first. */
  lemma NewestFirstUnique(images: seq<Image>, b: int, c: int)
    requires NewestFirst(images, b) && 0 <= c < |images| && c != b
    ensures !NewestFirst(images, c)
  {
    if c < b {
      assert LexLess(CreationDate(images[c]), CreationDate(images[b]));
    } else {
      assert !LexLess(CreationDate(images[b]), CreationDate(images[c]));
    }
  }

  function ImageIdOf(image: Image): Result<string, AmiError> {
    match image.imageId
    case Some(id) => Ok(id)
    case None => Err(MissingImageId)
  }

  /** `get_latest_nixos_ami` after the query succeeded: the id of the first image
      of the sorted list. */
  method LatestAmi(images: seq<Image>, architecture: string) returns (r: Result<string, AmiError>)
    ensures images == [] ==> r == Err(NoImages(architecture))
    ensures images != [] ==> exists b :: NewestFirst(images, b) && r == ImageIdOf(images[b])
  {
    if |images| == 0 {
      return Err(NoImages(architecture));
    }
    var best := 0;
    LexIrreflexive(CreationDate(images[0]));
    for i := 1 to |images|
      invariant NewestFirst(images[..i], best)
    {
      var di := CreationDate(images[i]);
      if LexLess(CreationDate(images[best]), di) {
        forall j | 0 <= j < i
          ensures LexLess(CreationDate(images[j]), di)
        {
          var dj := CreationDate(images[j]);
          assert !LexLess(CreationDate(images[best]), dj) by {
            assert images[..i][j] == images[j];
          }
          LexTotal(dj, CreationDate(images[best]));
          if dj != CreationDate(images[best]) {
            LexTransitive(dj, CreationDate(images[best]), di);
          }
        }
        forall j | 0 <= j <= i
          ensures !LexLess(di, CreationDate(images[j]))
        {
          if j == i {
            LexIrreflexive(di);
          } else if LexLess(di, CreationDate(images[j])) {
            LexTransitive(di, CreationDate(images[j]), di);
            LexIrreflexive(di);
          }
        }
        best := i;
      } else {
        forall j | 0 <= j < best
          ensures LexLess(CreationDate(images[j]), CreationDate(images[best]))
        {
          assert images[..i][j] == images[j];
        }
        forall j | 0 <= j < i
          ensures !LexLess(CreationDate(images[best]), CreationDate(images[j]))
        {
          assert images[..i][j] == images[j];
        }
      }
      assert NewestFirst(images[..i + 1], best);
    }
    assert images[..|images|] == images;
    return ImageIdOf(images[best]);
  }

  // ---------------------------------------------------------------------------
  // Polling the stack

  datatype StackStatus =
    | CreateComplete
    | CreateInProgress
    | CreateFailed
    | RollbackComplete
    | RollbackFailed
    | RollbackInProgress
    | DeleteComplete
    | DeleteFailed
    | DeleteInProgress
    | OtherStatus(name: string)

  /** `StackStatus::as_str`. */
  function StatusName(s: StackStatus): string {
    match s
    case CreateComplete => "CREATE_COMPLETE"
    case CreateInProgress => "CREATE_IN_PROGRESS"
    case CreateFailed => "CREATE_FAILED"
    case RollbackComplete => "ROLLBACK_COMPLETE"
    case RollbackFailed => "ROLLBACK_FAILED"
    case RollbackInProgress => "ROLLBACK_IN_PROGRESS"
    case DeleteComplete => "DELETE_COMPLETE"
    case DeleteFailed => "DELETE_FAILED"
    case DeleteInProgress => "DELETE_IN_PROGRESS"
    case OtherStatus(name) => name
  }

  datatype StackOutput = StackOutput(key: Option<string>, value: Option<string>)

  datatype StackDescription = StackDescription(
    status: Option<StackStatus>,
    statusReason: Option<string>,
    outputs: seq<StackOutput>)

  /** One `describe_stacks` call: an error (its debug text) or the stacks listed. */
  datatype Poll = DescribeFailed(error: string) | Described(stacks: seq<StackDescription>)

  datatype StackError =
    | DescribeError(detail: string)
    | StackNotFound
    | MissingStatus
    | MissingProxyIp
    | CreationFailed(status: string, reason: string)
    | UnexpectedStatus(status: string)
    | DeleteRequestFailed(detail: string)
    | DeletionFailed(reason: string)
    | UnexpectedDeleteStatus(status: string, reason: string)

  /** What one poll decides: poll again, or stop with this outcome. */
  datatype Step<T> = Continue | Finish(outcome: Result<T, StackError>)

  const ProxyIpKey := "ProxyPublicIP"

  /** The status of the first stack of a successful poll. */
  function FirstStatus(p: Poll): Option<StackStatus> {
    if p.Described? && p.stacks != [] then p.stacks[0].status else None
  }

  function Reason(s: StackDescription): string {
    s.statusReason.UnwrapOr("Unknown reason")
  }

  /** `outputs.iter().find(|o| o.output_key() == Some(key)).and_then(|o| o.output_value())`. */
  function OutputValue(outputs: seq<StackOutput>, key: string): Option<string> {
    if outputs == [] then None
    else if outputs[0].key == Some(key) then outputs[0].value
    else OutputValue(outputs[1..], key)
  }

  /** The value found is that of the first output with the key. */
  lemma {:induction false} OutputValueFirstMatch(outputs: seq<StackOutput>, key: string, v: string)
    ensures OutputValue(outputs, key) == Some(v) <==>
      exists i :: 0 <= i < |outputs| && outputs[i].key == Some(key) && outputs[i].value == Some(v)
        && forall j :: 0 <= j < i ==> outputs[j].key != Some(key)
  {
    if outputs != [] {
      OutputValueFirstMatch(outputs[1..], key, v);
      if OutputValue(outputs, key) == Some(v) && outputs[0].key != Some(key) {
        var i :| 0 <= i < |outputs[1..]| && outputs[1..][i].key == Some(key) && outputs[1..][i].value == Some(v)
          && forall j :: 0 <= j < i ==> outputs[1..][j].key != Some(key);
        assert forall j :: 0 <= j < i + 1 ==> outputs[j].key != Some(key) by {
          forall j | 0 <= j < i + 1
            ensures outputs[j].key != Some(key)
          {
            if j > 0 {
              assert outputs[j] == outputs[1..][j - 1];
            }
          }
        }
        assert outputs[i + 1] == outputs[1..][i];
      }
      if exists i :: 0 <= i < |outputs| && outputs[i].key == Some(key) && outputs[i].value == Some(v)
           && forall j :: 0 <= j < i ==> outputs[j].key != Some(key)
      {
        var i :| 0 <= i < |outputs| && outputs[i].key == Some(key) && outputs[i].value == Some(v)
          && forall j :: 0 <= j < i ==> outputs[j].key != Some(key);
        if i > 0 {
          assert outputs[1..][i - 1] == outputs[i];
          assert forall j :: 0 <= j < i - 1 ==> outputs[1..][j].key != Some(key) by {
            forall j | 0 <= j < i - 1
              ensures outputs[1..][j].key != Some(key)
            {
              assert outputs[1..][j] == outputs[j + 1];
            }
          }
        }
      }
    }
  }

  /** The statuses `wait_for_completion` reports as a failed creation. */
  const CreationFailures: set<StackStatus> :=
    {CreateFailed, RollbackComplete, RollbackFailed, RollbackInProgress, DeleteFailed, DeleteComplete}

  /** The decision `wait_for_completion` takes on one poll. */
  function CreatePollStep(p: Poll): (r: Step<string>)
    ensures r.Continue? <==> FirstStatus(p) == Some(CreateInProgress) || FirstStatus(p) == Some(DeleteInProgress)
    ensures r.Finish? && r.outcome.Ok? <==>
      FirstStatus(p) == Some(CreateComplete) && OutputValue(p.stacks[0].outputs, ProxyIpKey).Some?
    ensures r.Finish? && r.outcome.Ok? ==> r.outcome.value == OutputValue(p.stacks[0].outputs, ProxyIpKey).value
    ensures FirstStatus(p).Some? && FirstStatus(p).value in CreationFailures ==>
      r == Finish(Err(CreationFailed(StatusName(FirstStatus(p).value), Reason(p.stacks[0]))))
    ensures FirstStatus(p).Some? && FirstStatus(p).value.OtherStatus? ==>
      r == Finish(Err(UnexpectedStatus(FirstStatus(p).value.name)))
  {
    match p
    case DescribeFailed(e) => Finish(Err(DescribeError(e)))
    case Described(stacks) =>
      if stacks == [] then Finish(Err(StackNotFound))
      else
        var stack := stacks[0];
        match stack.status
        case None => Finish(Err(MissingStatus))
        case Some(status) =>
          match status
          case CreateComplete =>
            (match OutputValue(stack.outputs, ProxyIpKey)
             case Some(ip) => Finish(Ok(ip))
             case None => Finish(Err(MissingProxyIp)))
          case CreateInProgress => Continue
          case DeleteInProgress => Continue
          case OtherStatus(name) => Finish(Err(UnexpectedStatus(name)))
          case _ => Finish(Err(CreationFailed(StatusName(status), Reason(stack))))
  }

  /** `wait_for_completion` over the successive answers of `describe_stacks`:
      the first poll that does not say "poll again" decides; None when every
      poll said so (the loop is still waiting). */
  method WaitForCompletion(polls: seq<Poll>) returns (r: Option<Result<string, StackError>>)
    ensures r.None? <==> forall i :: 0 <= i < |polls| ==> CreatePollStep(polls[i]).Continue?
    ensures r.Some? ==>
      exists i :: 0 <= i < |polls| && CreatePollStep(polls[i]) == Finish(r.value)
        && forall j :: 0 <= j < i ==> CreatePollStep(polls[j]).Continue?
  {
    for i := 0 to |polls|
      invariant forall j :: 0 <= j < i ==> CreatePollStep(polls[j]).Continue?
    {
      var step := CreatePollStep(polls[i]);
      if step.Finish? {
        return Some(step.outcome);
      }
    }
    return None;
  }

  /** The debug text of a describe error that means the stack is already gone. */
  predicate StackGone(error: string) {
    Contains(error, "ValidationError") || Contains(error, "does not exist") || Contains(error, "Stack with id")
  }

  /** The decision `cleanup` takes on one poll. */
  function DeletePollStep(p: Poll): (r: Step<()>)
    ensures r == Finish(Ok(())) <==> (p.DescribeFailed? && StackGone(p.error)) || FirstStatus(p) == Some(DeleteComplete)
    ensures r.Continue? <==> FirstStatus(p) == Some(DeleteInProgress)
    ensures p.DescribeFailed? && !StackGone(p.error) ==> r == Finish(Err(DescribeError(p.error)))
    ensures FirstStatus(p) == Some(DeleteFailed) ==> r == Finish(Err(DeletionFailed(Reason(p.stacks[0]))))
  {
    match p
    case DescribeFailed(e) =>
      if StackGone(e) then Finish(Ok(())) else Finish(Err(DescribeError(e)))
    case Described(stacks) =>
      if stacks == [] then Finish(Err(StackNotFound))
      else
        var stack := stacks[0];
        match stack.status
        case None => Finish(Err(MissingStatus))
        case Some(status) =>
          match status
          case DeleteComplete => Finish(Ok(()))
          case DeleteInProgress => Continue
          case DeleteFailed => Finish(Err(DeletionFailed(Reason(stack))))
          case _ => Finish(Err(UnexpectedDeleteStatus(StatusName(status), Reason(stack))))
  }

  /** A describe error naming a missing stack ends the deletion successfully,
      whatever surrounds the marker in the error text. */
  lemma GoneStackIsDeleted(before: string, marker: string, after: string)
    requires marker == "ValidationError" || marker == "does not exist" || marker == "Stack with id"
    ensures DeletePollStep(DescribeFailed(before + marker + after)) == Finish(Ok(()))
  {
    ContainsInfix(before, marker, after);
  }

  /** `cleanup`: the delete request's error, if any, then the successive answers
      of `describe_stacks`. */
  method Cleanup(deleteError: Option<string>, polls: seq<Poll>) returns (r: Option<Result<(), StackError>>)
    ensures deleteError.Some? ==> r == Some(Err(DeleteRequestFailed(deleteError.value)))
    ensures deleteError.None? ==>
      (r.None? <==> forall i :: 0 <= i < |polls| ==> DeletePollStep(polls[i]).Continue?)
    ensures deleteError.None? && r.Some? ==>
      (exists i :: 0 <= i < |polls| && DeletePollStep(polls[i]) == Finish(r.value)
        && forall j :: 0 <= j < i ==> DeletePollStep(polls[j]).Continue?)
  {
    if deleteError.Some? {
      return Some(Err(DeleteRequestFailed(deleteError.value)));
    }
    for i := 0 to |polls|
      invariant forall j :: 0 <= j < i ==> DeletePollStep(polls[j]).Continue?
    {
      var step := DeletePollStep(polls[i]);
      if step.Finish? {
        return Some(step.outcome);
      }
    }
    return None;
  }

  // ---------------------------------------------------------------------------
  // Progress bookkeeping

  datatype StackEvent = StackEvent(logicalId: Option<string>, status: Option<string>)

  /** Creation counts resources that completed other than by deletion; deletion
      counts resources deleted. */
  datatype Phase = Creating | Deleting

  predicate Finished(phase: Phase, status: string) {
    match phase
    case Creating => EndsWith(status, "_COMPLETE") && !StartsWith(status, "DELETE")
    case Deleting => status == "DELETE_COMPLETE"
  }

  /** An event about a resource of the stack, not the stack itself. */
  predicate Tracked(e: StackEvent, stackName: string) {
    e.logicalId.Some? && e.logicalId.value != stackName
  }

  /** The distinct resource ids the events mention. */
  function ResourceIds(events: seq<StackEvent>, stackName: string): set<string> {
    set e | e in events && Tracked(e, stackName) :: e.logicalId.value
  }

  /** The resource ids the events report as finished in this phase. */
  function Recorded(events: seq<StackEvent>, stackName: string, phase: Phase): (r: set<string>)
    ensures r <= ResourceIds(events, stackName)
    ensures stackName !in r
  {
    set e | e in events && Tracked(e, stackName) && e.status.Some? && Finished(phase, e.status.value) :: e.logicalId.value
  }

  function Max(a: nat, b: nat): nat {
    if a >= b then a else b
  }

  lemma ResourceIdsSnoc(events: seq<StackEvent>, e: StackEvent, stackName: string, phase: Phase)
    ensures ResourceIds(events + [e], stackName)
         == ResourceIds(events, stackName) + (if Tracked(e, stackName) then {e.logicalId.value} else {})
    ensures Recorded(events + [e], stackName, phase)
         == Recorded(events, stackName, phase)
            + (if Tracked(e, stackName) && e.status.Some? && Finished(phase, e.status.value)
               then {e.logicalId.value} else {})
  {
    assert forall x :: x in events + [e] <==> x in events || x == e;
  }

  /** The counters `wait_for_completion` and `cleanup` keep across polls. */
  class Progress {
    var completed: set<string>
    var total: nat

    constructor()
      ensures completed == {} && total == 0
    {
      completed := {};
      total := 0;
    }

    /** One pass over the events of a `describe_stack_events` answer. */
    method Observe(events: seq<StackEvent>, stackName: string, phase: Phase)
      modifies this
      ensures completed == old(completed) + Recorded(events, stackName, phase)
      ensures total == Max(old(total), |ResourceIds(events, stackName)|)
      ensures total >= old(total)
    {
      for i := 0 to |events|
        invariant completed == old(completed) + Recorded(events[..i], stackName, phase)
        invariant total == if ResourceIds(events[..i], stackName) == {} then old(total)
                           else Max(old(total), |ResourceIds(events, stackName)|)
      {
        var e := events[i];
        assert events[..i + 1] == events[..i] + [e];
        ResourceIdsSnoc(events[..i], e, stackName, phase);
        if e.logicalId.Some? {
          var id := e.logicalId.value;
          if id != stackName {
            total := Max(total, |ResourceIds(events, stackName)|);
            if e.status.Some? && Finished(phase, e.status.value) {
              completed := completed + {id};
            }
          }
        }
      }
      assert events[..|events|] == events;
    }
  }

  // ---------------------------------------------------------------------------
  // Deployment

  /** The `create_stack` call: name, template, parameters, IAM capability and
      delete-on-failure. The template is carried as the record and the Nix text
      it is generated from; `TemplateBody` is the JSON sent. */
  datatype CreateRequest = CreateRequest(
    stackName: string,
    template: CloudFormation.Template,
    nix: string,
    parameters: seq<(string, string)>,
    capabilities: seq<string>,
    onFailure: string)

  function TemplateBody(request: CreateRequest): Json {
    CloudFormation.Generate(request.template, request.nix)
  }

  /** What `AwsProxy` keeps (besides its client). */
  datatype Deployment = Deployment(stackName: string, region: string)

  datatype DeployError =
    | InvalidZone(validation: ValidationError)
    | AmiUnavailable(ami: AmiError)
    | CreateStackFailed(detail: string)

  function StackTemplate(
    ingressHost: string, ingressPort: CloudFormation.Port, ingressProtocol: string,
    originHost: string, originPort: CloudFormation.Port, originIp: string,
    regions: seq<string>, instanceType: string,
    proxyWgPrivateKey: string, proxyWgPublicKey: string, originWgPublicKey: string,
    presharedKey: string, debug: bool): CloudFormation.Template
  {
    CloudFormation.Template(
      StackName(ingressHost), DeployRegion(regions), ingressHost, ingressPort, ingressProtocol,
      originHost, originPort, originIp, instanceType,
      proxyWgPrivateKey, proxyWgPublicKey, originWgPublicKey, presharedKey, debug)
  }

  function StackRequest(t: CloudFormation.Template, nix: string, hostedZoneId: string, amiId: string): CreateRequest {
    CreateRequest(
      t.stackName, t, nix,
      [("HostedZoneId", hostedZoneId), ("NixOSAMI", amiId)],
      ["CAPABILITY_IAM"], "DELETE")
  }

  /** The request's template is the one generated for the stack, and every
      parameter the request supplies is one that template declares. */
  lemma RequestParametersDeclared(t: CloudFormation.Template, nix: string, hostedZoneId: string, amiId: string)
    ensures TemplateBody(StackRequest(t, nix, hostedZoneId, amiId)) == CloudFormation.Generate(t, nix)
    ensures forall k :: 0 <= k < |StackRequest(t, nix, hostedZoneId, amiId).parameters| ==>
      At(TemplateBody(StackRequest(t, nix, hostedZoneId, amiId)),
         ["Parameters", StackRequest(t, nix, hostedZoneId, amiId).parameters[k].0]).Some?
  {
    var g := TemplateBody(StackRequest(t, nix, hostedZoneId, amiId));
    var ps := StackRequest(t, nix, hostedZoneId, amiId).parameters;
    forall k | 0 <= k < |ps|
      ensures At(g, ["Parameters", ps[k].0]).Some?
    {
      var path := ["Parameters", ps[k].0];
      assert path[1..] == [ps[k].0];
      assert Field(g, "Parameters") == Some(CloudFormation.Parameters);
    }
  }

  /** The output the create poll looks for is one the template defines. */
  lemma ProxyIpKeyDeclared(t: CloudFormation.Template, nix: string)
    ensures At(CloudFormation.Generate(t, nix), ["Outputs", ProxyIpKey]).Some?
  {
    CloudFormation.ProxyPublicIpOutput(t, nix);
    AtConcat(CloudFormation.Generate(t, nix), ["Outputs", ProxyIpKey], ["Value"]);
    assert ["Outputs", ProxyIpKey] + ["Value"] == ["Outputs", "ProxyPublicIP", "Value"];
  }

  /** `AwsProxy::deploy`: region, zone validation, stack name, template, image
      and `create_stack`, each failure stopping the sequence. The zone lookup,
      the image query and the stack creation are the SDK's answers. */
  method Deploy(
    ingressHost: string, ingressPort: CloudFormation.Port, ingressProtocol: string,
    originHost: string, originPort: CloudFormation.Port, originIp: string,
    regions: seq<string>, instanceType: string,
    proxyWgPrivateKey: string, proxyWgPublicKey: string, originWgPublicKey: string,
    presharedKey: string, hostedZoneId: string, debug: bool,
    nix: string,
    zones: string -> ZoneLookup,
    images: ImageQuery -> Result<seq<Image>, string>,
    createStack: CreateRequest -> Option<string>)
    returns (r: Result<Deployment, DeployError>)
    ensures var v := ValidateRoute53(hostedZoneId, ingressHost, zones(NormalizeZoneId(hostedZoneId)));
      v.Err? ==> r == Err(InvalidZone(v.error))
    ensures r.Ok? ==> r.value == Deployment(StackName(ingressHost), DeployRegion(regions))
    ensures r.Ok? ==>
      var t := StackTemplate(ingressHost, ingressPort, ingressProtocol, originHost, originPort, originIp,
        regions, instanceType, proxyWgPrivateKey, proxyWgPublicKey, originWgPublicKey, presharedKey, debug);
      var answer := images(AmiQuery(CloudFormation.Architecture(instanceType)));
      answer.Ok? &&
      exists b :: NewestFirst(answer.value, b) && answer.value[b].imageId.Some?
        && createStack(StackRequest(t, nix, hostedZoneId, answer.value[b].imageId.value)).None?
    ensures ValidateRoute53(hostedZoneId, ingressHost, zones(NormalizeZoneId(hostedZoneId))).Ok? ==>
      var answer := images(AmiQuery(CloudFormation.Architecture(instanceType)));
      answer.Err? ==> r == Err(AmiUnavailable(ImageQueryFailed(answer.error)))
    ensures ValidateRoute53(hostedZoneId, ingressHost, zones(NormalizeZoneId(hostedZoneId))).Ok? ==>
      var arch := CloudFormation.Architecture(instanceType);
      images(AmiQuery(arch)) == Ok([]) ==> r == Err(AmiUnavailable(NoImages(arch)))
    ensures ValidateRoute53(hostedZoneId, ingressHost, zones(NormalizeZoneId(hostedZoneId))).Ok? ==>
      var t := StackTemplate(ingressHost, ingressPort, ingressProtocol, originHost, originPort, originIp,
        regions, instanceType, proxyWgPrivateKey, proxyWgPublicKey, originWgPublicKey, presharedKey, debug);
      var answer := images(AmiQuery(CloudFormation.Architecture(instanceType)));
      answer.Ok? && answer.value != [] ==>
      exists b :: NewestFirst(answer.value, b)
        && (answer.value[b].imageId.None? ==> r == Err(AmiUnavailable(MissingImageId)))
        && (answer.value[b].imageId.Some? ==>
              r == match createStack(StackRequest(t, nix, hostedZoneId, answer.value[b].imageId.value))
                   case Some(e) => Err(CreateStackFailed(e))
                   case None => Ok(Deployment(StackName(ingressHost), DeployRegion(regions))))
  {
    var region := DeployRegion(regions);
    var validation := ValidateRoute53(hostedZoneId, ingressHost, zones(NormalizeZoneId(hostedZoneId)));
    if validation.Err? {
      return Err(InvalidZone(validation.error));
    }
    var stackName := StackName(ingressHost);
    var t := StackTemplate(ingressHost, ingressPort, ingressProtocol, originHost, originPort, originIp,
      regions, instanceType, proxyWgPrivateKey, proxyWgPublicKey, originWgPublicKey, presharedKey, debug);
    var architecture := CloudFormation.Architecture(t.instanceType);
    var answer := images(AmiQuery(architecture));
    if answer.Err? {
      return Err(AmiUnavailable(ImageQueryFailed(answer.error)));
    }
    var ami := LatestAmi(answer.value, architecture);
    if ami.Err? {
      return Err(AmiUnavailable(ami.error));
    }
    var failure := createStack(StackRequest(t, nix, hostedZoneId, ami.value));
    if failure.Some? {
      return Err(CreateStackFailed(failure.value));
    }
    return Ok(Deployment(stackName, region));
  }
}
