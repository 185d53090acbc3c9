# Public-exposure scan of AWS security groups

This project models the analysis step of the security-group scanner
`backend/fetch_and_analyze.py`. The script reads the parsed output of
`aws ec2 describe-security-groups` and walks three levels of lists in order:
security groups, then each group's ingress permissions (`IpPermissions`),
then each permission's IPv4 ranges (`IpRanges`). It keeps only the ranges
whose `CidrIp` is exactly `0.0.0.0/0`. For each kept range it emits one flat
record with these fields:

- the group's name and id;
- the permission's protocol;
- a `PortRange` text, written as `from-to`;
- `OpenTo` set to `0.0.0.0/0`;
- a `Risk` label. The record stores the classification, and the text
  written is `RiskLabel` of it. That text is `ALLOWED (80/443)` when the
  permission's `FromPort` is one of `ALLOWED_PORTS = [80, 443]`. It is
  `HIGH RISK` in every other case, including when `FromPort` is absent.

Files and modules:

- `wrappers.dfy` (`Wrappers`): `Option`. It stands for a JSON key that may be
  absent, read with `.get`.
- `security_groups.dfy` (`SecurityGroups`): the input document. Every key the
  script reads is optional. The list keys `SecurityGroups`, `IpPermissions`
  and `IpRanges` read as the empty list when absent, as `.get(key, [])` does.
  The document also holds fields the script never reads: egress permissions,
  IPv6 ranges and descriptions. They are included so that the model can state
  that they are ignored.
- `port_text.dfy` (`PortText`): how the f-string
  `f"{port}-{perm.get('ToPort')}"` renders the two ports. An integer renders
  as Python's `str` writes it. An absent port renders as `None`. This module also has a parser that reads both ports
  back from the text, with the round-trip proof.
- `exposure.dfy` (`Exposure`): the constants, the classifier, the record, and
  the scan. The scan exists in two forms: as pure functions (`Analyze`), and
  as the script's three nested loops (`Scan`), which is proved to compute
  `Analyze`.
- `exposure_properties.dfy` (`ExposureProperties`): what the output is,
  stated without reference to how it is computed. There is exactly one row per
  world-open (group, permission, range) triple, and rows appear in triple
  order. Each row's fields come from its triple. Nothing else in the input
  affects the output.

The risk depends on the integer `FromPort` alone. `PortRange` is always
written `from-to` (`80-80`), never as a bare port (`80`).

## Model

| member | source | states |
|---|---|---|
| Exposure.Classify | backend/fetch_and_analyze.py:54-60 | A rule is `Allowed` if and only if its `FromPort` is present and equal to 80 or 443 (the `ALLOWED_PORTS` of line 12). Every other value is `HighRisk`, including an absent port. |
| Exposure.RiskLabel | backend/fetch_and_analyze.py:56-60 | The `Risk` text written for a row is `RiskLabel` of its risk: `ALLOWED (80/443)` exactly for `Allowed` and `HIGH RISK` exactly for `HighRisk`, so the text determines the risk. |
| Exposure.IsWorldOpen | backend/fetch_and_analyze.py:53 | The filter: a range is kept only when `CidrIp` is present and equal to `0.0.0.0/0` character for character. Its meaning in the output is stated by `ExposureProperties.RowsAreExactlyOpenTriples` and `ExposureProperties.AnalyzeSeesOnlyReadView`. |
| Exposure.ExposureRecord | backend/fetch_and_analyze.py:62-69 | The row built for a kept range has `OpenTo` = `0.0.0.0/0`, and its risk is `Allowed` if and only if `FromPort` is 80 or 443. Its `PortRange` reads back as exactly the permission's (`FromPort`, `ToPort`), by `PortText.PortRangeRoundTrip`. |
| Exposure.RangeRecords | backend/fetch_and_analyze.py:52-69 | One permission produces at most one row per IPv4 range. Every row it produces is the row built from that permission and its group. |
| Exposure.PermRecords | backend/fetch_and_analyze.py:51-69 | Every row produced from a group's permissions carries that group's name and id and `OpenTo` = `0.0.0.0/0`. |
| Exposure.GroupRecords | backend/fetch_and_analyze.py:50-69 | Every row produced from a list of groups has `OpenTo` = `0.0.0.0/0`. |
| Exposure.Analyze | backend/fetch_and_analyze.py:48-69 | The scan of a whole response. Its meaning is stated by `ExposureProperties.RowsAreExactlyOpenTriples` (which rows), `ExposureProperties.RowAtPosition` and `ExposureProperties.PositionsFollowTripleOrder` (where), `ExposureProperties.GroupRecordsLength` (how many) and `ExposureProperties.EveryRowIsConsistent` (field values). |
| Exposure.GroupRecordsAppend | backend/fetch_and_analyze.py:50-62 | Rows follow group order: scanning `a + b` gives the rows of `a` followed by the rows of `b`. |
| Exposure.Scan | backend/fetch_and_analyze.py:48-69 | The script's loops over groups, permissions and ranges, appending to one list, compute exactly `Analyze`. |
| Exposure.ScanGroup | backend/fetch_and_analyze.py:51-69 | The permission loop for one group appends that group's rows to the list and changes nothing else in it. |
| Exposure.ScanPermission | backend/fetch_and_analyze.py:52-69 | The range loop for one permission appends one row per world-open range and changes nothing else in the list. |
| ExposureProperties.GroupRecordsLength | backend/fetch_and_analyze.py:50-53 | The number of rows equals the number of IPv4 ranges across all ingress permissions whose `CidrIp` is exactly `0.0.0.0/0`. |
| ExposureProperties.RowAtPosition | backend/fetch_and_analyze.py:50-62 | Take any group `i`, permission `j` and range `k` where the range is world-open. That triple's row is in the output, at the index equal to the number of world-open triples before it. |
| ExposureProperties.PositionsFollowTripleOrder | backend/fetch_and_analyze.py:50-62 | A triple that comes earlier (by group, then permission, then range) gets a strictly smaller index. Together with the row count, each world-open triple has its own row, in loop order. |
| ExposureProperties.RowsAreExactlyOpenTriples | backend/fetch_and_analyze.py:50-69 | A row is in the output if and only if it is the row of some world-open triple. A range with any other `CidrIp`, or with none, contributes nothing. |
| ExposureProperties.EveryRowIsConsistent | backend/fetch_and_analyze.py:54-67 | Every row has `OpenTo` = `0.0.0.0/0`. Its `PortRange` reads back as the ports of a world-open permission of the input. Its written `Risk` text is `ALLOWED (80/443)` exactly when the from-port read back is 80 or 443, and `HIGH RISK` otherwise. |
| ExposureProperties.RiskDependsOnlyOnFromPort | backend/fetch_and_analyze.py:54-60 | Two permissions with the same `FromPort` get the same risk, whatever their `ToPort`, protocol, ranges or group. The written text is `ALLOWED (80/443)` exactly for from-port 80 or 443; for example, 80 to 8080 is allowed. |
| ExposureProperties.AnalyzeSeesOnlyReadView | backend/fetch_and_analyze.py:50-53 | The output is unchanged when the input is reduced to what the script reads. Egress rules, IPv6 ranges, descriptions, and the exact value of any `CidrIp` other than `0.0.0.0/0` are dropped. An absent list key is replaced by an empty list. |
| ExposureProperties.SameReadViewSameRows | backend/fetch_and_analyze.py:50-68 | Two responses that agree on the fields the script reads produce the same rows. |
| ExposureProperties.NoOpenRangeNoRows | backend/fetch_and_analyze.py:50-53 | A response with no world-open IPv4 range yields no rows. This covers a missing `SecurityGroups`, `IpPermissions` or `IpRanges` key, and permissions open only over IPv6. |
| ExposureProperties.WorkedScan | backend/fetch_and_analyze.py:48-69 | A worked input containing an allowed range, an all-traffic rule with no ports, a private range, an IPv6-only rule, an egress rule and a group without permissions yields exactly two rows, with the exact field values. Their risks are written as `"ALLOWED (80/443)"` and `"HIGH RISK"`. |
| PortText.NatText | backend/fetch_and_analyze.py:66 | A non-negative port renders as a non-empty string of decimal digits, with a leading zero only for 0 itself. |
| PortText.NatTextRoundTrip | backend/fetch_and_analyze.py:66 | Reading the decimal digits of a rendered non-negative port gives back that port. |
| PortText.IntText | backend/fetch_and_analyze.py:66 | Python's `str` of an integer: non-empty, starts with `-` exactly when the integer is negative, and digits after the first character. |
| PortText.IntTextRoundTrip | backend/fetch_and_analyze.py:66 | Any integer port, negative ones included (ICMP's -1), reads back from its rendering. |
| PortText.RenderPortRoundTrip | backend/fetch_and_analyze.py:66 | A rendered optional port reads back as itself. An absent port renders as `None` and reads back as absent. |
| PortText.PortRangeRoundTrip | backend/fetch_and_analyze.py:66 | The text `from-to` splits at the first dash after its first character back into the two renderings, so both ports are recovered, including negative and absent ones. |
| PortText.PortRangeText | backend/fetch_and_analyze.py:66 | The `PortRange` text: from-port rendering, a dash, to-port rendering. It loses nothing: `PortText.PortRangeRoundTrip` reads back exactly the (`FromPort`, `ToPort`) pair, and `PortText.PortRangeNeverBarePort` shows it is never a bare port. |
| PortText.PortRangeInjective | backend/fetch_and_analyze.py:66 | Two different (from, to) pairs never render to the same `PortRange` text. |
| PortText.PortRangeNeverBarePort | backend/fetch_and_analyze.py:66 | A `PortRange` text is never the bare `80` or `443`: a rule on port 80 is written `80-80`. |
| PortText.PortRangeTextExample | backend/fetch_and_analyze.py:66 | Ports 80 and 8080 render as `80-8080`. |
| PortText.NegativePortRangeTextExample | backend/fetch_and_analyze.py:66 | Ports -1 and -1 render as `-1--1`. |
| PortText.AbsentPortRangeTextExample | backend/fetch_and_analyze.py:66 | Two absent ports render as `None-None`. |

## Left out

- The AWS CLI call and its stderr check (backend/fetch_and_analyze.py:23-38) are external process I/O. The model starts from the parsed response.
- JSON parsing of the CLI output (backend/fetch_and_analyze.py:42-46) is a library call. Its result is the `Response` datatype.
- Creating the data directory, writing the JSON file, the progress prints and the `sys.exit` paths (backend/fetch_and_analyze.py:1-21, 71-81) are file system and console effects. The record's field order and the `indent=4` formatting of the written file are not modelled.
- A list key present with the JSON value `null` makes the script raise a `TypeError`. The model has only "absent" and "a list", so this crash is not represented.
- Ports are modelled as integers. JSON allows a float or boolean there, and Python's `in` would treat `80.0` or `True == 1` by numeric equality. The AWS API always returns integers.
- `backend/server.py` is HTTP serving. It sets a CORS header, runs the script on `/api/scan`, and serves static files. It has no logic of its own to model.
- The web front end is not modelled.
