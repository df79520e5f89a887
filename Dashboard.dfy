/**
 * The dashboard's state and formatting (src/api.rs): the byte-size unit
 * choice, the tunnel statistics record, the uptime text and the default
 * application state. Routing, templates and embedded assets are not modelled.
 */
module Dashboard {
  import opened Wrappers
  import opened Text
  import WireGuard

  type U64 = x: nat | x < 0x1_0000_0000_0000_0000

  const Units: seq<string> := ["B", "KB", "MB", "GB", "TB"]

  function Pow1024(k: nat): (p: nat)
    ensures p >= 1
  {
    if k == 0 then 1 else 1024 * Pow1024(k - 1)
  }

  /** A formatted size. Below 1 KB the text is exact; above, the value shown is
      `numerator / denominator` in `unit`, which the source prints with two
      decimals. `Blank` is the empty text a fresh record holds. */
  datatype SizeText =
    | Blank
    | Exact(text: string)
    | Scaled(numerator: nat, denominator: nat, unitIndex: nat, unit: string)

  /** The unit index for a size of at least 1 KB: the largest k <= 4 with
      1024^k <= bytes. */
  function UnitIndex(bytes: nat): (k: nat)
    requires bytes >= 1024
    ensures 1 <= k <= 4
  {
    if bytes < Pow1024(2) then 1
    else if bytes < Pow1024(3) then 2
    else if bytes < Pow1024(4) then 3
    else 4
  }

  /** What `format_bytes` shows for a size. */
  function ByteSize(bytes: nat): SizeText {
    if bytes < 1024 then Exact(NatToString(bytes) + " B")
    else
      var k := UnitIndex(bytes);
      Scaled(bytes, Pow1024(k), k, Units[k])
  }

  /** Index k > 0 is chosen exactly when 1024^k <= bytes and k is the last unit
      or bytes < 1024^(k+1); the value shown is bytes / 1024^k in that unit. */
  lemma UnitChoice(bytes: nat, k: nat)
    requires 1 <= k <= 4
    ensures (ByteSize(bytes).Scaled? && ByteSize(bytes).unitIndex == k)
        <==> Pow1024(k) <= bytes && (k == 4 || bytes < Pow1024(k + 1))
    ensures ByteSize(bytes).Scaled? ==>
      ByteSize(bytes).numerator == bytes && ByteSize(bytes).denominator == Pow1024(ByteSize(bytes).unitIndex)
      && ByteSize(bytes).unit == Units[ByteSize(bytes).unitIndex]
  {
    assert Pow1024(1) == 1024;
    assert Pow1024(2) == 1024 * 1024;
    assert Pow1024(3) == 1024 * Pow1024(2);
    assert Pow1024(4) == 1024 * Pow1024(3);
    assert Pow1024(5) == 1024 * Pow1024(4);
  }

  /** Below 1 KB the size is the exact count and " B". */
  lemma SmallSizesExact(bytes: nat)
    requires bytes < 1024
    ensures ByteSize(bytes) == Exact(NatToString(bytes) + " B")
    ensures ParseU64(NatToString(bytes), 10) == Some(bytes)
  {
    ParseNatToString(bytes);
  }

  /** `format_bytes`: divide by 1024 while the size is at least 1024 and a larger
      unit remains. The source divides a float; every divisor is a power of two,
      so each comparison is the integer one made here. */
  method FormatBytes(bytes: U64) returns (r: SizeText)
    ensures r == ByteSize(bytes)
  {
    var denominator := 1;
    var unitIdx := 0;
    while bytes >= denominator * 1024 && unitIdx < |Units| - 1
      invariant 0 <= unitIdx <= 4
      invariant denominator == Pow1024(unitIdx)
      invariant unitIdx > 0 ==> Pow1024(unitIdx) <= bytes
      decreases 4 - unitIdx
    {
      denominator := denominator * 1024;
      unitIdx := unitIdx + 1;
    }
    assert Pow1024(1) == 1024;
    assert Pow1024(2) == 1024 * 1024;
    assert Pow1024(3) == 1024 * Pow1024(2);
    assert Pow1024(4) == 1024 * Pow1024(3);
    if unitIdx == 0 {
      r := Exact(NatToString(bytes) + " B");
    } else {
      r := Scaled(bytes, denominator, unitIdx, Units[unitIdx]);
    }
  }

  /** `TunnelStats`: traffic counters and their formatted sizes. */
  class TunnelStats {
    var bytesSent: U64
    var bytesReceived: U64
    var bytesSentFormatted: SizeText
    var bytesReceivedFormatted: SizeText
    var packetsSent: U64
    var packetsReceived: U64
    var tunnelUp: bool
    var uptimeSeconds: U64

    /** `TunnelStats::default()`. */
    constructor Default()
      ensures bytesSent == 0 && bytesReceived == 0 && packetsSent == 0 && packetsReceived == 0
      ensures bytesSentFormatted == Blank && bytesReceivedFormatted == Blank
      ensures !tunnelUp && uptimeSeconds == 0
    {
      bytesSent := 0;
      bytesReceived := 0;
      bytesSentFormatted := Blank;
      bytesReceivedFormatted := Blank;
      packetsSent := 0;
      packetsReceived := 0;
      tunnelUp := false;
      uptimeSeconds := 0;
    }

    /** `format_sizes`: only the two formatted fields change, each from its
        counter. */
    method FormatSizes()
      modifies this
      ensures bytesSentFormatted == ByteSize(bytesSent)
      ensures bytesReceivedFormatted == ByteSize(bytesReceived)
      ensures bytesSent == old(bytesSent) && bytesReceived == old(bytesReceived)
      ensures packetsSent == old(packetsSent) && packetsReceived == old(packetsReceived)
      ensures tunnelUp == old(tunnelUp) && uptimeSeconds == old(uptimeSeconds)
    {
      bytesSentFormatted := FormatBytes(bytesSent);
      bytesReceivedFormatted := FormatBytes(bytesReceived);
    }
  }

  // ---------------------------------------------------------------------------
  // Uptime

  /** Rust's `/` on signed integers: the quotient rounded toward zero, so
      `q * b` lies between zero and `a`, less than `b` away from `a`. */
  function TruncDiv(a: int, b: int): (q: int)
    requires b > 0
    ensures a >= 0 ==> q == a / b
    ensures a < 0 ==> q == -((-a) / b)
    ensures a >= 0 ==> 0 <= a - q * b < b
    ensures a < 0 ==> -b < a - q * b <= 0
  {
    if a >= 0 then a / b else -((-a) / b)
  }

  /** Rust's `%` on signed integers: the remainder takes the dividend's sign. */
  function TruncRem(a: int, b: int): (r: int)
    requires b > 0
    ensures a == TruncDiv(a, b) * b + r
    ensures -b < r < b
    ensures a >= 0 ==> r >= 0
    ensures a <= 0 ==> r <= 0
  {
    a - TruncDiv(a, b) * b
  }

  /** Days, hours of the day and minutes of the hour of a duration in seconds,
      as `num_days`, `num_hours() % 24` and `num_minutes() % 60`. */
  function UptimeFields(elapsed: int): (int, int, int) {
    (TruncDiv(elapsed, 86400), TruncRem(TruncDiv(elapsed, 3600), 24), TruncRem(TruncDiv(elapsed, 60), 60))
  }

  /** `calculate_uptime`: `launch` is the parsed launch time in seconds (None
      when it is not RFC 3339) and `now` the current time. */
  function CalculateUptime(launch: Option<int>, now: int): string {
    match launch
    case None => "Unknown"
    case Some(t) =>
      var (days, hours, minutes) := UptimeFields(now - t);
      if days > 0 then IntToString(days) + "d " + IntToString(hours) + "h " + IntToString(minutes) + "m"
      else if hours > 0 then IntToString(hours) + "h " + IntToString(minutes) + "m"
      else IntToString(minutes) + "m"
  }

  /** The text is "Unknown" exactly when the launch time did not parse: every
      parsed launch time ends in a minute count. */
  lemma UnknownIffUnparsed(launch: Option<int>, now: int)
    ensures CalculateUptime(launch, now) == "Unknown" <==> launch.None?
  {
    if launch.Some? {
      var r := CalculateUptime(launch, now);
      var (d, h, m) := UptimeFields(now - launch.value);
      var front := if d > 0 then IntToString(d) + "d " + IntToString(h) + "h " + IntToString(m)
                   else if h > 0 then IntToString(h) + "h " + IntToString(m)
                   else IntToString(m);
      assert r == front + "m";
      assert r[|r| - 1] == 'm';
      assert "Unknown"[6] == 'n';
    }
  }

  /** For a non-negative duration the fields are its whole days, the hours of the
      last day and the minutes of the last hour: together they account for the
      duration up to the seconds of the last minute. */
  lemma UptimeFieldsDecompose(elapsed: int)
    requires elapsed >= 0
    ensures var (d, h, m) := UptimeFields(elapsed);
      0 <= h < 24 && 0 <= m < 60 && d >= 0
      && d * 86400 + h * 3600 + m * 60 <= elapsed < d * 86400 + h * 3600 + m * 60 + 60
  {
    var (d, h, m) := UptimeFields(elapsed);
    var mins := elapsed / 60;
    var hrs := elapsed / 3600;
    assert hrs == mins / 60;
    assert d == hrs / 24;
    assert h == hrs % 24 && m == mins % 60;
    assert hrs == d * 24 + h;
    assert mins == hrs * 60 + m;
    assert elapsed == mins * 60 + elapsed % 60;
  }

  /** The shape of the text: "Dd Hh Mm" with a day, else "Hh Mm" with an hour,
      else "Mm"; a launch in the future shows only (non-positive) minutes. */
  lemma UptimeShape(t: int, now: int)
    ensures var (d, h, m) := UptimeFields(now - t);
      CalculateUptime(Some(t), now)
      == (if d > 0 then NatToString(d) + "d " + NatToString(h) + "h " + NatToString(m) + "m"
          else if h > 0 then NatToString(h) + "h " + NatToString(m) + "m"
          else IntToString(m) + "m")
    ensures now < t ==> CalculateUptime(Some(t), now) == IntToString(UptimeFields(now - t).2) + "m"
  {
    var (d, h, m) := UptimeFields(now - t);
    if d > 0 {
      assert now - t > 0;
      assert h >= 0 && m >= 0;
    } else if h > 0 {
      assert now - t > 0;
      assert m >= 0;
    }
  }

  // ---------------------------------------------------------------------------
  // Application state

  datatype ProxyInfo =
    | AwsProxy(instanceId: string, instanceType: string, region: string, publicIp: string,
               privateIp: string, state: string, launchTime: string, uptime: string)
    | CloudflareProxy(hostname: string, connectorId: string, connections: WireGuard.U32)

  datatype CloudFrontInfo = CloudFrontInfo(distributionId: string, distributionDomain: string, status: string)

  /** `AppState`: what the dashboard handlers share. */
  class AppState {
    var stats: TunnelStats
    var proxyInfo: Option<ProxyInfo>
    var cloudfrontInfo: Option<CloudFrontInfo>
    var tunnel: Option<WireGuard.OriginTunnel>
    var uploadLimit: Option<WireGuard.U32>
    var downloadLimit: Option<WireGuard.U32>

    /** `AppState::default()`: default statistics and nothing else known. */
    constructor Default()
      ensures fresh(stats)
      ensures stats.bytesSent == 0 && stats.bytesReceived == 0 && !stats.tunnelUp
      ensures stats.packetsSent == 0 && stats.packetsReceived == 0 && stats.uptimeSeconds == 0
      ensures stats.bytesSentFormatted == Blank && stats.bytesReceivedFormatted == Blank
      ensures proxyInfo.None? && cloudfrontInfo.None? && tunnel.None?
      ensures uploadLimit.None? && downloadLimit.None?
    {
      stats := new TunnelStats.Default();
      proxyInfo := None;
      cloudfrontInfo := None;
      tunnel := None;
      uploadLimit := None;
      downloadLimit := None;
    }
  }
}
