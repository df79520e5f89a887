/**
 * The service configuration (src/config.rs): endpoint parsing over the URL
 * parser's decomposition, the variant dispatch of `ingress`/`origin`, the
 * region list and the CloudFront port rule. The URL parser itself is an input.
 */
module Config {
  import opened Wrappers
  import opened Text
  import AwsProxy

  type Port = x: nat | x < 0x1_0000

  /** What `url::Url::parse` yields: the scheme, and the host and port when the
      URL has them. */
  datatype ParsedUrl = ParsedUrl(scheme: string, host: Option<string>, port: Option<Port>)

  datatype Endpoint = Endpoint(protocol: string, host: string, port: Port)

  datatype EndpointError = UnparsableUrl(text: string) | MissingHost(text: string) | MissingPort(text: string)

  /** `Endpoint::parse`: the URL must parse and carry a host and then a port. */
  function ParseEndpoint(s: string, url: string -> Option<ParsedUrl>): (r: Result<Endpoint, EndpointError>)
    ensures r.Ok? <==> url(s).Some? && url(s).value.host.Some? && url(s).value.port.Some?
    ensures r.Ok? ==> r.value == Endpoint(url(s).value.scheme, url(s).value.host.value, url(s).value.port.value)
    ensures url(s).None? ==> r == Err(UnparsableUrl(s))
    ensures url(s).Some? && url(s).value.host.None? ==> r == Err(MissingHost(s))
    ensures url(s).Some? && url(s).value.host.Some? && url(s).value.port.None? ==> r == Err(MissingPort(s))
  {
    match url(s)
    case None => Err(UnparsableUrl(s))
    case Some(u) =>
      if u.host.None? then Err(MissingHost(s))
      else if u.port.None? then Err(MissingPort(s))
      else Ok(Endpoint(u.scheme, u.host.value, u.port.value))
  }

  /** The subcommand: a Cloudflare tunnel or an AWS relay. */
  datatype ServiceConfig =
    | Cloudflare(ingress: string, origin: string, originCert: string)
    | Aws(ingress: string, origin: string, regions: string, instanceType: string, hostedZoneId: string,
          accessKeyId: string, secretAccessKey: string, debug: bool, useCloudfront: bool)

  /** `ServiceConfig::ingress`: both variants parse their own ingress text. */
  function Ingress(c: ServiceConfig, url: string -> Option<ParsedUrl>): (r: Result<Endpoint, EndpointError>)
    ensures r == ParseEndpoint(c.ingress, url)
  {
    match c
    case Cloudflare(ingress, _, _) => ParseEndpoint(ingress, url)
    case Aws(ingress, _, _, _, _, _, _, _, _) => ParseEndpoint(ingress, url)
  }

  /** `ServiceConfig::origin`: both variants parse their own origin text. */
  function Origin(c: ServiceConfig, url: string -> Option<ParsedUrl>): (r: Result<Endpoint, EndpointError>)
    ensures r == ParseEndpoint(c.origin, url)
  {
    match c
    case Cloudflare(_, origin, _) => ParseEndpoint(origin, url)
    case Aws(_, origin, _, _, _, _, _, _, _) => ParseEndpoint(origin, url)
  }

  /** `ServiceConfig::aws_regions`: the comma-separated pieces, trimmed. */
  function AwsRegions(c: ServiceConfig): (r: Option<seq<string>>)
    ensures c.Cloudflare? <==> r.None?
    ensures c.Aws? ==> |r.value| == |Split(c.regions, ',')| == Count(c.regions, ',') + 1
    ensures c.Aws? ==> forall k :: 0 <= k < |r.value| ==> r.value[k] == Trim(Split(c.regions, ',')[k])
  {
    match c
    case Cloudflare(_, _, _) => None
    case Aws(_, _, regions, _, _, _, _, _, _) =>
      var pieces := Split(regions, ',');
      SplitCount(regions, ',');
      Some(seq(|pieces|, k requires 0 <= k < |pieces| => Trim(pieces[k])))
  }

  /** A region list without a comma is that one region, trimmed. */
  lemma SingleRegion(c: ServiceConfig)
    requires c.Aws? && ',' !in c.regions
    ensures AwsRegions(c) == Some([Trim(c.regions)])
  {
    SplitNoSeparator(c.regions, ',');
    var r := AwsRegions(c).value;
    assert |r| == 1 && r[0] == Trim(c.regions);
    assert r == [Trim(c.regions)];
  }

  /** Deployment takes the first configured region: the default of the deploy
      step is never used for an AWS configuration, and an empty setting yields
      the empty region name. */
  lemma RegionOfConfiguration(c: ServiceConfig)
    requires c.Aws?
    ensures AwsProxy.DeployRegion(AwsRegions(c).value) == Trim(Split(c.regions, ',')[0])
    ensures c.regions == "" ==> AwsProxy.DeployRegion(AwsRegions(c).value) == ""
  {
    SplitCount(c.regions, ',');
    if c.regions == "" {
      assert Split(c.regions, ',') == [""];
      assert Trim("") == "";
    }
  }

  datatype CloudfrontError = BadIngress(cause: EndpointError) | PortNot443(port: Port)

  /** `ServiceConfig::validate_cloudfront`. */
  function ValidateCloudfront(c: ServiceConfig, url: string -> Option<ParsedUrl>): (r: Result<(), CloudfrontError>)
    ensures r.Err? <==> c.Aws? && c.useCloudfront && (Ingress(c, url).Err? || Ingress(c, url).value.port != 443)
    ensures r.Err? && Ingress(c, url).Ok? ==> r.error == PortNot443(Ingress(c, url).value.port)
  {
    match c
    case Cloudflare(_, _, _) => Ok(())
    case Aws(ingress, _, _, _, _, _, _, _, useCloudfront) =>
      if useCloudfront then
        match ParseEndpoint(ingress, url)
        case Err(e) => Err(BadIngress(e))
        case Ok(endpoint) => if endpoint.port != 443 then Err(PortNot443(endpoint.port)) else Ok(())
      else Ok(())
  }

  /** With CloudFront off the ingress is not parsed: the outcome is the same
      whatever the URL parser says. */
  lemma CloudfrontOffSkipsParsing(c: ServiceConfig, url1: string -> Option<ParsedUrl>, url2: string -> Option<ParsedUrl>)
    requires c.Cloudflare? || !c.useCloudfront
    ensures ValidateCloudfront(c, url1) == ValidateCloudfront(c, url2) == Ok(())
  {
  }
}
