/**
 * The persisted request record and the closed classification enumeration
 * (src/Models/RequestLog.cs).
 */
module RequestLogModel {
  import opened Basics
  import opened Text

  /** `enum UserAgentType`: eight members, `Unknown = 0` is the default value. */
  datatype UserAgentType =
    | Unknown
    | Human
    | SearchBot
    | SocialBot
    | ApiTool
    | Crawler
    | Monitor
    | SecurityScanner

  /** The declared underlying value of each member. */
  function Ordinal(t: UserAgentType): (n: nat)
    ensures n < 8
    ensures n == 0 <==> t == Unknown
  {
    match t
    case Unknown => 0
    case Human => 1
    case SearchBot => 2
    case SocialBot => 3
    case ApiTool => 4
    case Crawler => 5
    case Monitor => 6
    case SecurityScanner => 7
  }

  /** The member with a given underlying value, if the value names one. */
  function FromOrdinal(n: int): (r: Option<UserAgentType>)
    ensures r.Some? <==> 0 <= n < 8
    ensures r.Some? ==> Ordinal(r.value) == n
  {
    if n == 0 then Some(Unknown)
    else if n == 1 then Some(Human)
    else if n == 2 then Some(SearchBot)
    else if n == 3 then Some(SocialBot)
    else if n == 4 then Some(ApiTool)
    else if n == 5 then Some(Crawler)
    else if n == 6 then Some(Monitor)
    else if n == 7 then Some(SecurityScanner)
    else None
  }

  /** Every member, in the order of its underlying value. */
  const AllTypes: seq<UserAgentType> :=
    [Unknown, Human, SearchBot, SocialBot, ApiTool, Crawler, Monitor, SecurityScanner]

  /** The enumeration is closed: the values 0..7 name its members one-to-one. */
  lemma OrdinalsAreExact(t: UserAgentType)
    ensures FromOrdinal(Ordinal(t)) == Some(t)
    ensures t in AllTypes && AllTypes[Ordinal(t)] == t
  {
    match t
    case Unknown =>
    case Human =>
    case SearchBot =>
    case SocialBot =>
    case ApiTool =>
    case Crawler =>
    case Monitor =>
    case SecurityScanner =>
  }

  /** `DateTime.MaxValue.Ticks`: the last tick of 31 December 9999. */
  const MaxTicks: int := 3_155_378_975_999_999_999

  /** Date/time values as ticks of 100 ns since 1 January 0001, the range of `DateTime`. */
  type Ticks = t: int | 0 <= t <= MaxTicks

  const TicksPerDay: int := 864_000_000_000

  /** `class RequestLog`. `Id` is assigned by the store; the model keeps whatever it is given. */
  datatype RequestLog = RequestLog(
    id: Int32,
    timestamp: Ticks,
    httpMethod: string,
    path: string,
    ipAddress: Option<string>,
    userAgent: Option<string>,
    userAgentType: UserAgentType,
    detectedClient: Option<string>,
    statusCode: Int32,
    processingTimeMs: Int64,
    referer: Option<string>,
    queryString: Option<string>)

  // The [StringLength] limits declared on the record.
  const MethodMaxLength: nat := 10
  const PathMaxLength: nat := 2000
  const IpAddressMaxLength: nat := 45
  const UserAgentMaxLength: nat := 1000
  const DetectedClientMaxLength: nat := 100
  const RefererMaxLength: nat := 2000
  const QueryStringMaxLength: nat := 1000

  predicate WithinLength(s: Option<string>, max: nat) {
    s.None? || |s.value| <= max
  }

  /**
   * The data annotations of the record: `[Required]` on Method and Path,
   * which with its default `AllowEmptyStrings = false` rejects null, empty
   * and white-space-only strings (the model's `string` fields are never
   * null), and every `[StringLength]` limit. The integer widths are carried
   * by the field types.
   */
  predicate Valid(r: RequestLog)
    ensures Valid(r) ==> 1 <= |r.httpMethod| <= MethodMaxLength && 1 <= |r.path| <= PathMaxLength
    ensures Valid(r) ==> WithinLength(r.userAgent, UserAgentMaxLength) && WithinLength(r.queryString, QueryStringMaxLength)
  {
    && !IsNullOrWhiteSpace(Some(r.httpMethod))
    && !IsNullOrWhiteSpace(Some(r.path))
    && |r.httpMethod| <= MethodMaxLength
    && |r.path| <= PathMaxLength
    && WithinLength(r.ipAddress, IpAddressMaxLength)
    && WithinLength(r.userAgent, UserAgentMaxLength)
    && WithinLength(r.detectedClient, DetectedClientMaxLength)
    && WithinLength(r.referer, RefererMaxLength)
    && WithinLength(r.queryString, QueryStringMaxLength)
  }
}
