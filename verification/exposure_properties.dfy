/**
 What the scan's output is, stated independently of how it is computed:
 exactly one row per world-open (group, permission, range) triple, placed in
 group, then permission, then range order; every row's fields are the ones
 read from its triple; and nothing else of the input is read.
 */
module ExposureProperties {
  import opened Wrappers
  import opened SecurityGroups
  import opened PortText
  import opened Exposure

  // ---------------------------------------------------------------------------
  // Counting world-open ranges

  function OpenRangeCount(ranges: seq<IpRange>): nat
    decreases |ranges|
  {
    if |ranges| == 0 then 0
    else (if IsWorldOpen(ranges[0]) then 1 else 0) + OpenRangeCount(ranges[1..])
  }

  function OpenPermCount(perms: seq<Permission>): nat
    decreases |perms|
  {
    if |perms| == 0 then 0
    else OpenRangeCount(perms[0].Ranges()) + OpenPermCount(perms[1..])
  }

  function OpenGroupCount(groups: seq<SecurityGroup>): nat
    decreases |groups|
  {
    if |groups| == 0 then 0
    else OpenPermCount(groups[0].Perms()) + OpenGroupCount(groups[1..])
  }

  lemma {:induction false} OpenRangeCountAppend(a: seq<IpRange>, b: seq<IpRange>)
    ensures OpenRangeCount(a + b) == OpenRangeCount(a) + OpenRangeCount(b)
    decreases |a|
  {
    if |a| == 0 {
      assert a + b == b;
    } else {
      assert (a + b)[1..] == a[1..] + b;
      OpenRangeCountAppend(a[1..], b);
    }
  }

  lemma {:induction false} OpenPermCountAppend(a: seq<Permission>, b: seq<Permission>)
    ensures OpenPermCount(a + b) == OpenPermCount(a) + OpenPermCount(b)
    decreases |a|
  {
    if |a| == 0 {
      assert a + b == b;
    } else {
      assert (a + b)[1..] == a[1..] + b;
      OpenPermCountAppend(a[1..], b);
    }
  }

  lemma {:induction false} OpenGroupCountAppend(a: seq<SecurityGroup>, b: seq<SecurityGroup>)
    ensures OpenGroupCount(a + b) == OpenGroupCount(a) + OpenGroupCount(b)
    decreases |a|
  {
    if |a| == 0 {
      assert a + b == b;
    } else {
      assert (a + b)[1..] == a[1..] + b;
      OpenGroupCountAppend(a[1..], b);
    }
  }

  lemma {:induction false} RangeRecordsLength(sg: SecurityGroup, perm: Permission, ranges: seq<IpRange>)
    ensures |RangeRecords(sg, perm, ranges)| == OpenRangeCount(ranges)
    decreases |ranges|
  {
    if |ranges| > 0 {
      RangeRecordsLength(sg, perm, ranges[1..]);
    }
  }

  lemma {:induction false} PermRecordsLength(sg: SecurityGroup, perms: seq<Permission>)
    ensures |PermRecords(sg, perms)| == OpenPermCount(perms)
    decreases |perms|
  {
    if |perms| > 0 {
      RangeRecordsLength(sg, perms[0], perms[0].Ranges());
      PermRecordsLength(sg, perms[1..]);
    }
  }

  /** The scan emits as many rows as there are world-open ranges among all ingress permissions. */
  lemma {:induction false} GroupRecordsLength(groups: seq<SecurityGroup>)
    ensures |GroupRecords(groups)| == OpenGroupCount(groups)
    decreases |groups|
  {
    if |groups| > 0 {
      PermRecordsLength(groups[0], groups[0].Perms());
      GroupRecordsLength(groups[1..]);
    }
  }

  // ---------------------------------------------------------------------------
  // Where each world-open triple's row sits

  /** `(i, j, k)` names range `k` of ingress permission `j` of group `i`, and that range is world-open. */
  predicate OpenTriple(groups: seq<SecurityGroup>, i: int, j: int, k: int) {
    && 0 <= i < |groups|
    && 0 <= j < |groups[i].Perms()|
    && 0 <= k < |groups[i].Perms()[j].Ranges()|
    && IsWorldOpen(groups[i].Perms()[j].Ranges()[k])
  }

  /** `(i, j, k)` names a range, world-open or not. */
  predicate ValidTriple(groups: seq<SecurityGroup>, i: int, j: int, k: int) {
    && 0 <= i < |groups|
    && 0 <= j < |groups[i].Perms()|
    && 0 <= k < |groups[i].Perms()[j].Ranges()|
  }

  /** Triple order: by group, then permission, then range. */
  predicate TripleBefore(i: int, j: int, k: int, i': int, j': int, k': int) {
    i < i' || (i == i' && j < j') || (i == i' && j == j' && k < k')
  }

  /** The number of world-open ranges that come before range `(i, j, k)` in triple order. */
  function Position(groups: seq<SecurityGroup>, i: int, j: int, k: int): nat
    requires ValidTriple(groups, i, j, k)
  {
    var perms := groups[i].Perms();
    OpenGroupCount(groups[..i]) + OpenPermCount(perms[..j]) + OpenRangeCount(perms[j].Ranges()[..k])
  }

  lemma RangeRowAt(sg: SecurityGroup, perm: Permission, ranges: seq<IpRange>, k: int)
    requires 0 <= k < |ranges| && IsWorldOpen(ranges[k])
    ensures RangeRecords(sg, perm, ranges) ==
      RangeRecords(sg, perm, ranges[..k]) + [ExposureRecord(sg, perm)] + RangeRecords(sg, perm, ranges[k + 1..])
  {
    var back := ranges[k..];
    assert RangeRecords(sg, perm, ranges) == RangeRecords(sg, perm, ranges[..k]) + RangeRecords(sg, perm, back) by {
      assert ranges == ranges[..k] + back;
      RangeRecordsAppend(sg, perm, ranges[..k], back);
    }
    assert RangeRecords(sg, perm, back) == [ExposureRecord(sg, perm)] + RangeRecords(sg, perm, ranges[k + 1..]) by {
      assert back[0] == ranges[k] && back[1..] == ranges[k + 1..];
    }
  }

  lemma PermRowsAt(sg: SecurityGroup, perms: seq<Permission>, j: int)
    requires 0 <= j < |perms|
    ensures PermRecords(sg, perms) ==
      PermRecords(sg, perms[..j]) + RangeRecords(sg, perms[j], perms[j].Ranges()) + PermRecords(sg, perms[j + 1..])
  {
    var back := perms[j..];
    assert PermRecords(sg, perms) == PermRecords(sg, perms[..j]) + PermRecords(sg, back) by {
      assert perms == perms[..j] + back;
      PermRecordsAppend(sg, perms[..j], back);
    }
    assert PermRecords(sg, back) == RangeRecords(sg, perms[j], perms[j].Ranges()) + PermRecords(sg, perms[j + 1..]) by {
      assert back[0] == perms[j] && back[1..] == perms[j + 1..];
    }
  }

  /**
   Regrouping a concatenation, proved once for any element type so that the
   row lemmas below do not prove it in their own, larger contexts.
  */
  lemma ConcatAssoc<T>(a: seq<T>, b: seq<T>, c: seq<T>)
    ensures a + (b + c) == a + b + c
  {
  }

  lemma GroupRowsAt(groups: seq<SecurityGroup>, i: int)
    requires 0 <= i < |groups|
    ensures GroupRecords(groups) ==
      GroupRecords(groups[..i]) + PermRecords(groups[i], groups[i].Perms()) + GroupRecords(groups[i + 1..])
  {
    var back := groups[i..];
    assert groups == groups[..i] + back;
    GroupRecordsAppend(groups[..i], back);
    assert back[0] == groups[i] && back[1..] == groups[i + 1..];
    ConcatAssoc(GroupRecords(groups[..i]), PermRecords(groups[i], groups[i].Perms()), GroupRecords(groups[i + 1..]));
  }

  /**
   Completeness with placement: the row of every world-open triple is in the
   output, at the index counting the world-open triples before it.
   */
  lemma RowAtPosition(groups: seq<SecurityGroup>, i: int, j: int, k: int)
    requires OpenTriple(groups, i, j, k)
    ensures Position(groups, i, j, k) < |GroupRecords(groups)|
    ensures GroupRecords(groups)[Position(groups, i, j, k)] == ExposureRecord(groups[i], groups[i].Perms()[j])
  {
    var sg := groups[i];
    var perms := sg.Perms();
    var perm := perms[j];
    var ranges := perm.Ranges();
    var row := ExposureRecord(sg, perm);

    var R := RangeRecords(sg, perm, ranges);
    RangeRowAt(sg, perm, ranges, k);
    RangeRecordsLength(sg, perm, ranges[..k]);
    var rk := OpenRangeCount(ranges[..k]);
    assert rk < |R| && R[rk] == row;

    var P := PermRecords(sg, perms);
    PermRowsAt(sg, perms, j);
    PermRecordsLength(sg, perms[..j]);
    var pj := OpenPermCount(perms[..j]);
    assert pj + rk < |P| && P[pj + rk] == row;

    var G := GroupRecords(groups);
    GroupRowsAt(groups, i);
    GroupRecordsLength(groups[..i]);
    var gi := OpenGroupCount(groups[..i]);
    assert gi + pj + rk < |G| && G[gi + pj + rk] == row;
  }

  lemma OpenRangeCountSplit(ranges: seq<IpRange>, k: int)
    requires 0 <= k < |ranges|
    ensures OpenRangeCount(ranges[..k + 1]) == OpenRangeCount(ranges[..k]) + (if IsWorldOpen(ranges[k]) then 1 else 0)
    ensures OpenRangeCount(ranges[..k + 1]) <= OpenRangeCount(ranges)
  {
    assert ranges[..k + 1] == ranges[..k] + [ranges[k]];
    OpenRangeCountAppend(ranges[..k], [ranges[k]]);
    assert ranges == ranges[..k + 1] + ranges[k + 1..];
    OpenRangeCountAppend(ranges[..k + 1], ranges[k + 1..]);
  }

  lemma OpenRangeCountMonotone(ranges: seq<IpRange>, m: int, n: int)
    requires 0 <= m <= n <= |ranges|
    ensures OpenRangeCount(ranges[..m]) <= OpenRangeCount(ranges[..n])
  {
    assert ranges[..n] == ranges[..m] + ranges[m..n];
    OpenRangeCountAppend(ranges[..m], ranges[m..n]);
  }

  lemma OpenPermCountSplit(perms: seq<Permission>, j: int)
    requires 0 <= j < |perms|
    ensures OpenPermCount(perms[..j + 1]) == OpenPermCount(perms[..j]) + OpenRangeCount(perms[j].Ranges())
    ensures OpenPermCount(perms[..j + 1]) <= OpenPermCount(perms)
  {
    assert perms[..j + 1] == perms[..j] + [perms[j]];
    OpenPermCountAppend(perms[..j], [perms[j]]);
    assert perms == perms[..j + 1] + perms[j + 1..];
    OpenPermCountAppend(perms[..j + 1], perms[j + 1..]);
  }

  lemma OpenPermCountMonotone(perms: seq<Permission>, m: int, n: int)
    requires 0 <= m <= n <= |perms|
    ensures OpenPermCount(perms[..m]) <= OpenPermCount(perms[..n])
  {
    assert perms[..n] == perms[..m] + perms[m..n];
    OpenPermCountAppend(perms[..m], perms[m..n]);
  }

  lemma OpenGroupCountSplit(groups: seq<SecurityGroup>, i: int)
    requires 0 <= i < |groups|
    ensures OpenGroupCount(groups[..i + 1]) == OpenGroupCount(groups[..i]) + OpenPermCount(groups[i].Perms())
  {
    assert groups[..i + 1] == groups[..i] + [groups[i]];
    OpenGroupCountAppend(groups[..i], [groups[i]]);
  }

  lemma OpenGroupCountMonotone(groups: seq<SecurityGroup>, m: int, n: int)
    requires 0 <= m <= n <= |groups|
    ensures OpenGroupCount(groups[..m]) <= OpenGroupCount(groups[..n])
  {
    assert groups[..n] == groups[..m] + groups[m..n];
    OpenGroupCountAppend(groups[..m], groups[m..n]);
  }

  /** A world-open triple's row comes strictly before the row of every later triple. */
  lemma PositionsFollowTripleOrder(groups: seq<SecurityGroup>, i: int, j: int, k: int, i': int, j': int, k': int)
    requires OpenTriple(groups, i, j, k)
    requires ValidTriple(groups, i', j', k')
    requires TripleBefore(i, j, k, i', j', k')
    ensures Position(groups, i, j, k) < Position(groups, i', j', k')
  {
    var perms := groups[i].Perms();
    var ranges := perms[j].Ranges();
    // The rows up to and including (i, j, k) within its own permission, group and list.
    OpenRangeCountSplit(ranges, k);
    OpenPermCountSplit(perms, j);
    if i < i' {
      OpenGroupCountSplit(groups, i);
      OpenGroupCountMonotone(groups, i + 1, i');
    } else if j < j' {
      OpenPermCountMonotone(perms, j + 1, j');
    } else {
      OpenRangeCountMonotone(ranges, k + 1, k');
    }
  }

  // ---------------------------------------------------------------------------
  // Membership

  lemma {:induction false} RangeRowsFromOpenRanges(sg: SecurityGroup, perm: Permission, ranges: seq<IpRange>, r: Record)
    requires r in RangeRecords(sg, perm, ranges)
    ensures exists k :: 0 <= k < |ranges| && IsWorldOpen(ranges[k])
    decreases |ranges|
  {
    if IsWorldOpen(ranges[0]) {
      assert IsWorldOpen(ranges[0]);
    } else {
      RangeRowsFromOpenRanges(sg, perm, ranges[1..], r);
      var k :| 0 <= k < |ranges[1..]| && IsWorldOpen(ranges[1..][k]);
      assert IsWorldOpen(ranges[k + 1]);
    }
  }

  lemma {:induction false} PermRowsFromOpenRanges(sg: SecurityGroup, perms: seq<Permission>, r: Record)
    requires r in PermRecords(sg, perms)
    ensures exists j, k ::
      0 <= j < |perms| && 0 <= k < |perms[j].Ranges()| && IsWorldOpen(perms[j].Ranges()[k])
      && r == ExposureRecord(sg, perms[j])
    decreases |perms|
  {
    if r in RangeRecords(sg, perms[0], perms[0].Ranges()) {
      RangeRowsFromOpenRanges(sg, perms[0], perms[0].Ranges(), r);
      var k :| 0 <= k < |perms[0].Ranges()| && IsWorldOpen(perms[0].Ranges()[k]);
      assert r == ExposureRecord(sg, perms[0]);
    } else {
      PermRowsFromOpenRanges(sg, perms[1..], r);
      var j, k :| 0 <= j < |perms[1..]| && 0 <= k < |perms[1..][j].Ranges()|
        && IsWorldOpen(perms[1..][j].Ranges()[k]) && r == ExposureRecord(sg, perms[1..][j]);
      assert perms[1..][j] == perms[j + 1];
    }
  }

  lemma {:induction false} GroupRowsFromOpenTriples(groups: seq<SecurityGroup>, r: Record)
    requires r in GroupRecords(groups)
    ensures exists i, j, k :: OpenTriple(groups, i, j, k) && r == ExposureRecord(groups[i], groups[i].Perms()[j])
    decreases |groups|
  {
    if r in PermRecords(groups[0], groups[0].Perms()) {
      PermRowsFromOpenRanges(groups[0], groups[0].Perms(), r);
      var j, k :| 0 <= j < |groups[0].Perms()| && 0 <= k < |groups[0].Perms()[j].Ranges()|
        && IsWorldOpen(groups[0].Perms()[j].Ranges()[k]) && r == ExposureRecord(groups[0], groups[0].Perms()[j]);
      assert OpenTriple(groups, 0, j, k);
    } else {
      GroupRowsFromOpenTriples(groups[1..], r);
      var i, j, k :| OpenTriple(groups[1..], i, j, k) && r == ExposureRecord(groups[1..][i], groups[1..][i].Perms()[j]);
      assert groups[1..][i] == groups[i + 1];
      assert OpenTriple(groups, i + 1, j, k);
    }
  }

  /**
   A row is in the output exactly when it is the row of some world-open
   (group, permission, range) triple: ranges with any other `CidrIp`, or none,
   contribute nothing.
   */
  lemma RowsAreExactlyOpenTriples(resp: Response, r: Record)
    ensures r in Analyze(resp) <==>
      exists i, j, k :: OpenTriple(resp.Groups(), i, j, k)
        && r == ExposureRecord(resp.Groups()[i], resp.Groups()[i].Perms()[j])
  {
    var groups := resp.Groups();
    if r in Analyze(resp) {
      GroupRowsFromOpenTriples(groups, r);
    }
    if exists i, j, k :: OpenTriple(groups, i, j, k) && r == ExposureRecord(groups[i], groups[i].Perms()[j]) {
      var i, j, k :| OpenTriple(groups, i, j, k) && r == ExposureRecord(groups[i], groups[i].Perms()[j]);
      RowAtPosition(groups, i, j, k);
    }
  }

  /**
   Every emitted row is open to `0.0.0.0/0`, its `PortRange` text reads back
   as the ports of the permission it came from, and it carries the allowed
   label exactly when the from-port read back from that text is 80 or 443.
   */
  lemma EveryRowIsConsistent(resp: Response, r: Record)
    requires r in Analyze(resp)
    ensures r.openTo == OpenCidr
    ensures ParsePortRange(r.portRange).Some?
    ensures RiskLabel(r.risk) == AllowedLabel <==> ParsePortRange(r.portRange).value.0 in {Some(80), Some(443)}
    ensures RiskLabel(r.risk) == HighRiskLabel <==> ParsePortRange(r.portRange).value.0 !in {Some(80), Some(443)}
    ensures exists i, j, k ::
      (OpenTriple(resp.Groups(), i, j, k)
       && ParsePortRange(r.portRange) == Some((resp.Groups()[i].Perms()[j].fromPort, resp.Groups()[i].Perms()[j].toPort)))
  {
    RowsAreExactlyOpenTriples(resp, r);
    var groups := resp.Groups();
    var i, j, k :| OpenTriple(groups, i, j, k) && r == ExposureRecord(groups[i], groups[i].Perms()[j]);
    var perm := groups[i].Perms()[j];
    PortRangeRoundTrip(perm.fromPort, perm.toPort);
  }

  /**
   The risk of a row depends on the permission's from-port and nothing else:
   two permissions with the same from-port get the same label whatever their
   to-port, protocol, ranges or owning group.
   */
  lemma RiskDependsOnlyOnFromPort(sg: SecurityGroup, perm: Permission, sg': SecurityGroup, perm': Permission)
    requires perm.fromPort == perm'.fromPort
    ensures ExposureRecord(sg, perm).risk == ExposureRecord(sg', perm').risk
    ensures RiskLabel(ExposureRecord(sg, perm).risk) == AllowedLabel <==> perm.fromPort == Some(80) || perm.fromPort == Some(443)
  {
  }

  // ---------------------------------------------------------------------------
  // What the scan does not read

  /** A range as the scan sees it: only whether its `CidrIp` is exactly `OpenCidr`. */
  function ReadRange(ip: IpRange): IpRange {
    IpRange(if IsWorldOpen(ip) then Some(OpenCidr) else None, None)
  }

  function ReadRanges(ranges: seq<IpRange>): seq<IpRange>
    decreases |ranges|
  {
    if |ranges| == 0 then [] else [ReadRange(ranges[0])] + ReadRanges(ranges[1..])
  }

  /** A permission as the scan sees it: no IPv6 ranges, absent `IpRanges` made explicit. */
  function ReadPermission(perm: Permission): Permission {
    Permission(perm.ipProtocol, perm.fromPort, perm.toPort, Some(ReadRanges(perm.Ranges())), None)
  }

  function ReadPermissions(perms: seq<Permission>): seq<Permission>
    decreases |perms|
  {
    if |perms| == 0 then [] else [ReadPermission(perms[0])] + ReadPermissions(perms[1..])
  }

  /** A group as the scan sees it: no description, no egress rules, absent `IpPermissions` made explicit. */
  function ReadGroup(sg: SecurityGroup): SecurityGroup {
    SecurityGroup(sg.groupName, sg.groupId, None, Some(ReadPermissions(sg.Perms())), None)
  }

  function ReadGroups(groups: seq<SecurityGroup>): seq<SecurityGroup>
    decreases |groups|
  {
    if |groups| == 0 then [] else [ReadGroup(groups[0])] + ReadGroups(groups[1..])
  }

  /** The part of a response the scan reads. */
  function ReadView(resp: Response): Response {
    Response(Some(ReadGroups(resp.Groups())))
  }

  lemma {:induction false} ReadRangesKeepRows(sg: SecurityGroup, perm: Permission, sg': SecurityGroup, perm': Permission, ranges: seq<IpRange>)
    requires ExposureRecord(sg, perm) == ExposureRecord(sg', perm')
    ensures RangeRecords(sg', perm', ReadRanges(ranges)) == RangeRecords(sg, perm, ranges)
    decreases |ranges|
  {
    if |ranges| > 0 {
      ReadRangesKeepRows(sg, perm, sg', perm', ranges[1..]);
    }
  }

  lemma {:induction false} ReadPermissionsKeepRows(sg: SecurityGroup, sg': SecurityGroup, perms: seq<Permission>)
    requires sg.groupName == sg'.groupName && sg.groupId == sg'.groupId
    ensures PermRecords(sg', ReadPermissions(perms)) == PermRecords(sg, perms)
    decreases |perms|
  {
    if |perms| > 0 {
      var p' := ReadPermission(perms[0]);
      ReadRangesKeepRows(sg, perms[0], sg', p', perms[0].Ranges());
      ReadPermissionsKeepRows(sg, sg', perms[1..]);
    }
  }

  lemma {:induction false} ReadGroupsKeepRows(groups: seq<SecurityGroup>)
    ensures GroupRecords(ReadGroups(groups)) == GroupRecords(groups)
    decreases |groups|
  {
    if |groups| > 0 {
      ReadPermissionsKeepRows(groups[0], ReadGroup(groups[0]), groups[0].Perms());
      ReadGroupsKeepRows(groups[1..]);
    }
  }

  /**
   The scan reads nothing outside `ReadView`: not egress rules, not IPv6
   ranges, not descriptions, not the value of a `CidrIp` other than
   `0.0.0.0/0`, and an absent list key reads the same as an empty list.
   */
  lemma AnalyzeSeesOnlyReadView(resp: Response)
    ensures Analyze(ReadView(resp)) == Analyze(resp)
  {
    ReadGroupsKeepRows(resp.Groups());
  }

  /** Two responses that agree on what the scan reads give the same rows. */
  lemma SameReadViewSameRows(a: Response, b: Response)
    requires ReadView(a) == ReadView(b)
    ensures Analyze(a) == Analyze(b)
  {
    AnalyzeSeesOnlyReadView(a);
    AnalyzeSeesOnlyReadView(b);
  }

  /** A response without the `SecurityGroups` key, or with no world-open IPv4 range, yields no rows. */
  lemma NoOpenRangeNoRows(resp: Response)
    requires forall i, j, k :: !OpenTriple(resp.Groups(), i, j, k)
    ensures Analyze(resp) == []
  {
    if Analyze(resp) != [] {
      RowsAreExactlyOpenTriples(resp, Analyze(resp)[0]);
    }
  }

  // ---------------------------------------------------------------------------
  // A worked scan

  /**
   One group with: port 80 to 8080 open to the world (allowed, the to-port is
   not consulted); all traffic (protocol "-1", no ports) open to the world
   (high risk, rendered "None-None"); port 443 open only to 10.0.0.0/8 and
   port 22 open only to IPv6 ::/0 (no rows); and an egress rule open to the
   world (no row). A second group without an `IpPermissions` key adds nothing.
   */
  lemma WorkedScan()
    ensures
      var web := SecurityGroup(Some("web"), Some("sg-1"), None,
        Some([
          Permission(Some("tcp"), Some(80), Some(8080), Some([IpRange(Some("0.0.0.0/0"), None)]), None),
          Permission(Some("-1"), None, None, Some([IpRange(Some("0.0.0.0/0"), Some("all"))]), None),
          Permission(Some("tcp"), Some(443), Some(443), Some([IpRange(Some("10.0.0.0/8"), None)]), None),
          Permission(Some("tcp"), Some(22), Some(22), None, Some([Ipv6Range(Some("::/0"), None)]))]),
        Some([Permission(Some("-1"), None, None, Some([IpRange(Some("0.0.0.0/0"), None)]), None)]));
      var bare := SecurityGroup(Some("bare"), Some("sg-2"), None, None, None);
      Analyze(Response(Some([web, bare]))) == [
        Record(Some("web"), Some("sg-1"), Some("tcp"), "80-8080", "0.0.0.0/0", Allowed),
        Record(Some("web"), Some("sg-1"), Some("-1"), "None-None", "0.0.0.0/0", HighRisk)]
      && RiskLabel(Allowed) == "ALLOWED (80/443)" && RiskLabel(HighRisk) == "HIGH RISK"
  {
    PortRangeTextExample();
    AbsentPortRangeTextExample();
  }
}
