/**
 The already-parsed output of `aws ec2 describe-security-groups`: a response
 holding security groups, each holding ingress (and egress) permissions, each
 holding IPv4 and IPv6 source ranges. Every key the scanner reads with `.get`
 is optional; the list-valued keys read as the empty list when absent.
 */
module SecurityGroups {
  import opened Wrappers

  /** One entry of `IpRanges`. */
  datatype IpRange = IpRange(cidrIp: Option<string>, description: Option<string>)

  /** One entry of `Ipv6Ranges`. */
  datatype Ipv6Range = Ipv6Range(cidrIpv6: Option<string>, description: Option<string>)

  /** One entry of `IpPermissions` (or `IpPermissionsEgress`). */
  datatype Permission = Permission(
    ipProtocol: Option<string>,
    fromPort: Option<int>,
    toPort: Option<int>,
    ipRanges: Option<seq<IpRange>>,
    ipv6Ranges: Option<seq<Ipv6Range>>)
  {
    /** The IPv4 ranges, an absent `IpRanges` key reading as none. */
    function Ranges(): seq<IpRange> {
      ipRanges.GetOr([])
    }
  }

  /** One entry of `SecurityGroups`. */
  datatype SecurityGroup = SecurityGroup(
    groupName: Option<string>,
    groupId: Option<string>,
    description: Option<string>,
    ipPermissions: Option<seq<Permission>>,
    ipPermissionsEgress: Option<seq<Permission>>)
  {
    /** The ingress permissions, an absent `IpPermissions` key reading as none. */
    function Perms(): seq<Permission> {
      ipPermissions.GetOr([])
    }
  }

  /** The top-level document. */
  datatype Response = Response(securityGroups: Option<seq<SecurityGroup>>)
  {
    /** The groups, an absent `SecurityGroups` key reading as none. */
    function Groups(): seq<SecurityGroup> {
      securityGroups.GetOr([])
    }
  }
}
