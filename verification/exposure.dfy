/**
 The public-exposure scan: walk every security group, every ingress
 permission of the group and every IPv4 range of the permission, keep the
 ranges open to the whole internet, classify each kept rule by its from-port
 and emit one flat record per kept range.
 */
module Exposure {
  import opened Wrappers
  import opened SecurityGroups
  import opened PortText

  /** The only ports a world-open rule may start at without being flagged. */
  const AllowedPorts: seq<int> := [80, 443]

  /** The IPv4 CIDR block that admits every address. */
  const OpenCidr: string := "0.0.0.0/0"

  const AllowedLabel: string := "ALLOWED (80/443)"
  const HighRiskLabel: string := "HIGH RISK"

  datatype Risk = Allowed | HighRisk

  /** The text written into a record's `Risk` field. */
  function RiskLabel(r: Risk): (s: string)
    ensures s == AllowedLabel <==> r == Allowed
    ensures s == HighRiskLabel <==> r == HighRisk
  {
    match r
    case Allowed => AllowedLabel
    case HighRisk => HighRiskLabel
  }

  /**
   The risk of a world-open rule, decided by its from-port alone: allowed
   exactly when the port is present and one of `AllowedPorts`.
   */
  function Classify(fromPort: Option<int>): (r: Risk)
    ensures r == Allowed <==> fromPort == Some(80) || fromPort == Some(443)
  {
    if fromPort.Some? && fromPort.value in AllowedPorts then Allowed else HighRisk
  }

  /**
   One emitted row; the name, id and protocol are copied as read, so they may
   be absent. The `Risk` text the script writes for the row is `RiskLabel(risk)`.
   */
  datatype Record = Record(
    securityGroupName: Option<string>,
    securityGroupId: Option<string>,
    protocol: Option<string>,
    portRange: string,
    openTo: string,
    risk: Risk)

  /** A range is kept exactly when its `CidrIp` is present and equal to `OpenCidr`. */
  predicate IsWorldOpen(ip: IpRange) {
    ip.cidrIp == Some(OpenCidr)
  }

  /** The row emitted for a kept range of permission `perm` in group `sg`. */
  function ExposureRecord(sg: SecurityGroup, perm: Permission): (r: Record)
    ensures r.openTo == OpenCidr
    ensures r.risk == Allowed <==> perm.fromPort == Some(80) || perm.fromPort == Some(443)
  {
    Record(
      sg.groupName,
      sg.groupId,
      perm.ipProtocol,
      PortRangeText(perm.fromPort, perm.toPort),
      OpenCidr,
      Classify(perm.fromPort))
  }

  /** The rows of one permission: one per world-open range, in range order. */
  function RangeRecords(sg: SecurityGroup, perm: Permission, ranges: seq<IpRange>): (rs: seq<Record>)
    ensures |rs| <= |ranges|
    ensures forall r :: r in rs ==> r == ExposureRecord(sg, perm)
    decreases |ranges|
  {
    if |ranges| == 0 then []
    else
      (if IsWorldOpen(ranges[0]) then [ExposureRecord(sg, perm)] else [])
      + RangeRecords(sg, perm, ranges[1..])
  }

  /** The rows of one group: its permissions' rows, in permission order. */
  function PermRecords(sg: SecurityGroup, perms: seq<Permission>): (rs: seq<Record>)
    ensures forall r :: r in rs ==>
      r.securityGroupName == sg.groupName && r.securityGroupId == sg.groupId && r.openTo == OpenCidr
    decreases |perms|
  {
    if |perms| == 0 then []
    else RangeRecords(sg, perms[0], perms[0].Ranges()) + PermRecords(sg, perms[1..])
  }

  /** The rows of a sequence of groups: each group's rows, in group order. */
  function GroupRecords(groups: seq<SecurityGroup>): (rs: seq<Record>)
    ensures forall r :: r in rs ==> r.openTo == OpenCidr
    decreases |groups|
  {
    if |groups| == 0 then []
    else PermRecords(groups[0], groups[0].Perms()) + GroupRecords(groups[1..])
  }

  /** The scan's result for a whole `describe-security-groups` response. */
  function Analyze(resp: Response): seq<Record> {
    GroupRecords(resp.Groups())
  }

  lemma {:induction false} RangeRecordsAppend(sg: SecurityGroup, perm: Permission, a: seq<IpRange>, b: seq<IpRange>)
    ensures RangeRecords(sg, perm, a + b) == RangeRecords(sg, perm, a) + RangeRecords(sg, perm, b)
    decreases |a|
  {
    if |a| == 0 {
      assert a + b == b;
    } else {
      assert (a + b)[1..] == a[1..] + b;
      RangeRecordsAppend(sg, perm, a[1..], b);
    }
  }

  lemma {:induction false} PermRecordsAppend(sg: SecurityGroup, a: seq<Permission>, b: seq<Permission>)
    ensures PermRecords(sg, a + b) == PermRecords(sg, a) + PermRecords(sg, b)
    decreases |a|
  {
    if |a| == 0 {
      assert a + b == b;
    } else {
      assert (a + b)[1..] == a[1..] + b;
      PermRecordsAppend(sg, a[1..], b);
    }
  }

  /** Scanning two group lists one after the other gives the two results concatenated. */
  lemma {:induction false} GroupRecordsAppend(a: seq<SecurityGroup>, b: seq<SecurityGroup>)
    ensures GroupRecords(a + b) == GroupRecords(a) + GroupRecords(b)
    decreases |a|
  {
    if |a| == 0 {
      assert a + b == b;
    } else {
      assert (a + b)[1..] == a[1..] + b;
      GroupRecordsAppend(a[1..], b);
    }
  }

  /**
   The scan as the script writes it: three nested loops appending to one
   result list. It computes exactly `Analyze`.
   */
  method Scan(resp: Response) returns (results: seq<Record>)
    ensures results == Analyze(resp)
  {
    results := [];
    var groups := resp.Groups();
    var i := 0;
    while i < |groups|
      invariant 0 <= i <= |groups|
      invariant results == GroupRecords(groups[..i])
    {
      results := ScanGroup(groups[i], results);
      assert groups[..i + 1] == groups[..i] + [groups[i]];
      GroupRecordsAppend(groups[..i], [groups[i]]);
      i := i + 1;
    }
    assert groups[..i] == groups;
  }

  /** The middle loop: one group's permissions, appended to `results`. */
  method ScanGroup(sg: SecurityGroup, results: seq<Record>) returns (results': seq<Record>)
    ensures results' == results + PermRecords(sg, sg.Perms())
  {
    results' := results;
    var perms := sg.Perms();
    var j := 0;
    while j < |perms|
      invariant 0 <= j <= |perms|
      invariant results' == results + PermRecords(sg, perms[..j])
    {
      results' := ScanPermission(sg, perms[j], results');
      assert perms[..j + 1] == perms[..j] + [perms[j]];
      PermRecordsAppend(sg, perms[..j], [perms[j]]);
      j := j + 1;
    }
    assert perms[..j] == perms;
  }

  /** The innermost loop: one permission's IPv4 ranges, with the filter, the classification and the row. */
  method ScanPermission(sg: SecurityGroup, perm: Permission, results: seq<Record>) returns (results': seq<Record>)
    ensures results' == results + RangeRecords(sg, perm, perm.Ranges())
  {
    results' := results;
    var ranges := perm.Ranges();
    var k := 0;
    while k < |ranges|
      invariant 0 <= k <= |ranges|
      invariant results' == results + RangeRecords(sg, perm, ranges[..k])
    {
      if ranges[k].cidrIp == Some(OpenCidr) {
        var port := perm.fromPort;
        var risk := if port.Some? && port.value in AllowedPorts then Allowed else HighRisk;
        results' := results' + [Record(
          sg.groupName, sg.groupId, perm.ipProtocol,
          PortRangeText(port, perm.toPort), OpenCidr, risk)];
      }
      assert ranges[..k + 1] == ranges[..k] + [ranges[k]];
      RangeRecordsAppend(sg, perm, ranges[..k], [ranges[k]]);
      k := k + 1;
    }
    assert ranges[..k] == ranges;
  }
}
