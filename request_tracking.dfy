// RequestTrackingMiddleware: classifies every request, lets it through,
// records it, and never lets its own failures break the pipeline.

module RequestTracking {
  import opened Basics
  import opened Text
  import opened RequestLogModel
  import opened UserAgentClassifier
  import opened Http

  // ---------------------------------------------------------------------------
  // The store
  // ---------------------------------------------------------------------------

  /** `RequestTrackingContext.RequestLogs`: the records saved so far, in saving order. */
  class RequestStore {
    var logs: seq<RequestLog>

    constructor ()
      ensures logs == []
    {
      logs := [];
    }

    /**
     * `RequestLogs.Add` followed by `SaveChangesAsync`: the record is kept
     * unless saving fails, in which case the store is unchanged.
     */
    method Add(r: RequestLog, fails: bool) returns (saved: bool)
      modifies this
      ensures saved <==> !fails
      ensures logs == (if fails then old(logs) else old(logs) + [r])
    {
      if fails {
        saved := false;
      } else {
        logs := logs + [r];
        saved := true;
      }
    }
  }

  // ---------------------------------------------------------------------------
  // GetClientIpAddress
  // ---------------------------------------------------------------------------

  /** `string.IsNullOrEmpty` on an optional header value. */
  predicate IsNullOrEmpty(s: Option<string>) {
    s.None? || s.value == []
  }

  /** `piece` is the part of `s` that starts at index `i`. */
  predicate OccursAt(piece: string, s: string, i: nat) {
    i + |piece| <= |s| && s[i..i + |piece|] == piece
  }

  /**
   * `GetClientIpAddress`: the first hop of X-Forwarded-For, trimmed; else
   * X-Real-IP; else the connection's remote address.
   */
  function GetClientIpAddress(req: Request): (r: Option<string>)
    ensures !IsNullOrEmpty(FirstOrDefault(req.forwardedFor)) ==>
      var fwd := FirstOrDefault(req.forwardedFor).value;
      && r.Some? && ',' !in r.value
      && (r.value == [] || (!IsWhiteSpace(r.value[0]) && !IsWhiteSpace(r.value[|r.value| - 1])))
      && (exists i: nat :: OccursAt(r.value, fwd, i))
      && r == Some(Trim(FirstSegment(fwd, ',')))
    ensures IsNullOrEmpty(FirstOrDefault(req.forwardedFor)) && !IsNullOrEmpty(FirstOrDefault(req.realIp)) ==>
      r == FirstOrDefault(req.realIp)
    ensures IsNullOrEmpty(FirstOrDefault(req.forwardedFor)) && IsNullOrEmpty(FirstOrDefault(req.realIp)) ==>
      r == req.remoteIp
  {
    var forwardedFor := FirstOrDefault(req.forwardedFor);
    if !IsNullOrEmpty(forwardedFor) then
      var firstIp := Trim(FirstSegment(forwardedFor.value, ','));
      FirstHopIsInfix(forwardedFor.value);
      Some(firstIp)
    else
      var realIp := FirstOrDefault(req.realIp);
      if !IsNullOrEmpty(realIp) then realIp
      else req.remoteIp
  }

  /** The first hop, trimmed, is a contiguous comma-free piece of the header value. */
  lemma FirstHopIsInfix(v: string)
    ensures var t := Trim(FirstSegment(v, ','));
      ',' !in t && exists i: nat :: OccursAt(t, v, i)
  {
    var seg := FirstSegment(v, ',');
    var u := TrimStart(seg);
    var t := TrimEnd(u);
    PieceOfPrefix(v, seg, u, t, ',');
  }

  /** A prefix of a suffix of a prefix of `v` occurs in `v`, and has no character the outer prefix lacks. */
  lemma PieceOfPrefix(v: string, seg: string, u: string, t: string, c: char)
    requires |seg| <= |v| && seg == v[..|seg|]
    requires |u| <= |seg| && u == seg[|seg| - |u|..]
    requires |t| <= |u| && t == u[..|t|]
    ensures OccursAt(t, v, |seg| - |u|)
    ensures c !in seg ==> c !in t
  {
    var i := |seg| - |u|;
    assert forall k :: 0 <= k < |t| ==> t[k] == v[i + k];
    assert v[i..i + |t|] == t;
    assert t == seg[i..i + |t|];
  }

  /** A forwarded list "a,b" whose first hop has no padding gives that hop. */
  lemma FirstHopIsUsed(req: Request, hop: string, rest: string)
    requires FirstOrDefault(req.forwardedFor) == Some(hop + "," + rest)
    requires ',' !in hop
    requires hop != [] && !IsWhiteSpace(hop[0]) && !IsWhiteSpace(hop[|hop| - 1])
    ensures GetClientIpAddress(req) == Some(hop)
  {
    var v := hop + "," + rest;
    var seg := FirstSegment(v, ',');
    assert v[|hop|] == ',';
    assert forall k :: 0 <= k < |hop| ==> v[k] == hop[k];
    assert |seg| == |hop|;
    assert seg == hop;
    TrimUnpadded(hop);
  }

  /** A typical proxy chain: the client is the first address. */
  lemma ProxyChainExample(req: Request)
    requires req.forwardedFor == ["1.2.3.4, 5.6.7.8"]
    ensures GetClientIpAddress(req) == Some("1.2.3.4")
  {
    var hop := "1.2.3.4";
    assert "1.2.3.4, 5.6.7.8" == hop + "," + " 5.6.7.8";
    FirstHopIsUsed(req, hop, " 5.6.7.8");
  }

  /** A single forwarded address is used as it is. */
  lemma SingleHopExample(req: Request)
    requires req.forwardedFor == ["1.2.3.4"]
    ensures GetClientIpAddress(req) == Some("1.2.3.4")
  {
    var v := "1.2.3.4";
    assert FirstOrDefault(req.forwardedFor) == Some(v);
    assert ',' !in v;
    assert FirstSegment(v, ',') == v;
    assert !IsWhiteSpace(v[0]) && !IsWhiteSpace(v[|v| - 1]);
    TrimUnpadded(v);
  }

  /** White space around the first forwarded address is trimmed away. */
  lemma PaddedFirstHopExample(req: Request)
    requires req.forwardedFor == [" 1.2.3.4 ,x"]
    ensures GetClientIpAddress(req) == Some("1.2.3.4")
  {
    var v := " 1.2.3.4 ,x";
    assert FirstOrDefault(req.forwardedFor) == Some(v);
    assert v[9] == ',' && ',' !in v[..9];
    var seg := FirstSegment(v, ',');
    assert |seg| == 9;
    assert seg == " 1.2.3.4 ";
    assert IsWhiteSpace(seg[0]) && !IsWhiteSpace(seg[1]);
    assert LeadingWhiteSpace(seg) == 1;
    var t := Trim(seg);
    assert !IsWhiteSpace(seg[7]) && IsWhiteSpace(seg[8]);
    assert |t| == 7;
    assert t == seg[1..8] == "1.2.3.4";
  }

  /**
   * A non-empty X-Forwarded-For decides the address even when its first hop
   * is blank: X-Real-IP and the remote address are not consulted.
   */
  lemma BlankFirstHopDoesNotFallThrough(req: Request)
    requires req.forwardedFor == [" ,10.0.0.1"]
    ensures GetClientIpAddress(req) == Some("")
  {
    var v := " ,10.0.0.1";
    assert v[1] == ',';
    var seg := FirstSegment(v, ',');
    assert v[0] == ' ';
    assert |seg| == 1;
    assert seg == " ";
    assert TrimStart(" ") == "";
  }

  // ---------------------------------------------------------------------------
  // The record
  // ---------------------------------------------------------------------------

  /** The stored User-Agent: absent when the header string is empty, else cut to 1000 characters. */
  function StoredUserAgent(ua: string): (r: Option<string>)
    ensures r.None? <==> ua == []
    ensures r.Some? ==> |r.value| == Min(|ua|, UserAgentMaxLength) && r.value == ua[..|r.value|]
  {
    if ua == [] then None else Some(ua[..Min(|ua|, UserAgentMaxLength)])
  }

  /**
   * The `RequestLog` built after downstream completes. `now` is the clock
   * reading, `status` the response status, `elapsedMs` the stopwatch and `c`
   * the classification of the header string.
   */
  function BuildRecord(req: Request, now: Ticks, status: Int32, elapsedMs: Int64, c: Classification): (r: RequestLog)
    ensures r.timestamp == now && r.httpMethod == req.httpMethod
    ensures r.path == req.path.GetOr("/")
    ensures r.ipAddress == GetClientIpAddress(req)
    ensures r.userAgent == StoredUserAgent(HeaderString(req.userAgent))
    ensures r.userAgentType == c.kind && r.detectedClient == c.detectedClient
    ensures r.statusCode == status && r.processingTimeMs == elapsedMs
    ensures r.referer == FirstOrDefault(req.referer)
    ensures r.queryString.None? <==> IsNullOrEmpty(req.queryString)
    ensures r.queryString.Some? ==> r.queryString == req.queryString
  {
    RequestLog(
      id := 0,
      timestamp := now,
      httpMethod := req.httpMethod,
      path := req.path.GetOr("/"),
      ipAddress := GetClientIpAddress(req),
      userAgent := StoredUserAgent(HeaderString(req.userAgent)),
      userAgentType := c.kind,
      detectedClient := c.detectedClient,
      statusCode := status,
      processingTimeMs := elapsedMs,
      referer := FirstOrDefault(req.referer),
      queryString := if IsNullOrEmpty(req.queryString) then None else req.queryString)
  }

  /** The classification the tracker computes for a request: that of its header string. */
  function ClassifyRequest(req: Request): Classification {
    Classify(Some(HeaderString(req.userAgent)))
  }

  /**
   * Of the declared length limits, the tracker itself guarantees those on
   * UserAgent (by truncation) and DetectedClient (by the classifier's bound).
   */
  lemma TrackerBoundsAgentFields(req: Request, now: Ticks, status: Int32, elapsedMs: Int64)
    ensures var r := BuildRecord(req, now, status, elapsedMs, ClassifyRequest(req));
      && WithinLength(r.userAgent, UserAgentMaxLength)
      && WithinLength(r.detectedClient, DetectedClientMaxLength)
      && WithinLength(r.detectedClient, MaxDetectedClientLength)
  {
  }

  /** The other limits are not enforced: an over-long path is stored as it is. */
  lemma LongPathIsKept(req: Request, now: Ticks, status: Int32, elapsedMs: Int64, c: Classification)
    requires req.path.Some? && |req.path.value| > PathMaxLength
    ensures !Valid(BuildRecord(req, now, status, elapsedMs, c))
  {
  }

  /**
   * A User-Agent header that is missing or whose values are all empty is
   * recorded as absent and classified Unknown with no name.
   */
  lemma BlankAgentRecord(req: Request, now: Ticks, status: Int32, elapsedMs: Int64)
    requires forall i :: 0 <= i < |req.userAgent| ==> req.userAgent[i] == []
    ensures var r := BuildRecord(req, now, status, elapsedMs, ClassifyRequest(req));
      r.userAgent.None? && r.userAgentType == Unknown && r.detectedClient.None?
  {
    HeaderStringEmptyIff(req.userAgent);
  }

  // ---------------------------------------------------------------------------
  // The summary log line
  // ---------------------------------------------------------------------------

  /** The fields of the "Request tracked" log line. */
  datatype TrackedSummary = TrackedSummary(
    httpMethod: string, path: string, kind: UserAgentType, client: string,
    statusCode: Int32, processingTimeMs: Int64)

  const UnknownClient: string := "Unknown"

  /** The log line for a record, with "Unknown" for a missing client name. */
  function SummaryOf(r: RequestLog): (s: TrackedSummary)
    ensures s.client == (if r.detectedClient.Some? then r.detectedClient.value else UnknownClient)
    ensures s.httpMethod == r.httpMethod && s.path == r.path && s.kind == r.userAgentType
    ensures s.statusCode == r.statusCode && s.processingTimeMs == r.processingTimeMs
  {
    TrackedSummary(r.httpMethod, r.path, r.userAgentType, r.detectedClient.GetOr(UnknownClient),
                   r.statusCode, r.processingTimeMs)
  }

  // ---------------------------------------------------------------------------
  // InvokeAsync
  // ---------------------------------------------------------------------------

  /** What one pass of the tracker does. */
  datatype TrackOutcome = TrackOutcome(
    downstreamRuns: nat,                // how many times `_next` ran
    persisted: Option<RequestLog>,      // the record saved, if any
    summary: Option<TrackedSummary>,    // the "Request tracked" line, if logged
    escapes: bool)                      // an exception leaves the middleware

  /**
   * The tracker's control flow. Downstream runs once; if it throws, the outer
   * handler runs it a second time, and only an exception from that second run
   * escapes. When it completes, the record is built from the response status,
   * a failed save is swallowed, and the summary is logged either way.
   */
  function TrackSpec(req: Request, now: Ticks, elapsedMs: Int64,
                     first: NextOutcome, persistFails: bool, second: NextOutcome): (o: TrackOutcome)
    ensures 1 <= o.downstreamRuns <= 2
    ensures o.downstreamRuns == 2 <==> first.Throws?
    ensures o.escapes <==> first.Throws? && second.Throws?
    ensures o.persisted.Some? <==> first.Completes? && !persistFails
    ensures o.summary.Some? <==> first.Completes?
    ensures first.Completes? ==>
      var record := BuildRecord(req, now, first.status, elapsedMs, ClassifyRequest(req));
      && (o.persisted.Some? ==> o.persisted.value == record)
      && o.summary == Some(SummaryOf(record))
  {
    match first
    case Throws =>
      TrackOutcome(2, None, None, second.Throws?)
    case Completes(status) =>
      var record := BuildRecord(req, now, status, elapsedMs, ClassifyRequest(req));
      TrackOutcome(1, if persistFails then None else Some(record), Some(SummaryOf(record)), false)
  }

  /**
   * `InvokeAsync`: runs the tracker on an exchange and a store. The clock
   * reading, the stopwatch, and how downstream and the save end are inputs.
   * The exchange, the store and the returned summary are as `TrackSpec` says.
   */
  method InvokeAsync(cx: Exchange, store: RequestStore, now: Ticks, elapsedMs: Int64,
                     first: NextOutcome, persistFails: bool, second: NextOutcome)
    returns (summary: Option<TrackedSummary>, escapes: bool)
    modifies cx, store
    ensures var o := TrackSpec(cx.request, now, elapsedMs, first, persistFails, second);
      && cx.downstreamRuns == old(cx.downstreamRuns) + o.downstreamRuns
      && store.logs == old(store.logs) + (if o.persisted.Some? then [o.persisted.value] else [])
      && summary == o.summary
      && escapes == o.escapes
    ensures cx.statusCode ==
      match first
      case Completes(s) => s
      case Throws => if second.Completes? then second.status else old(cx.statusCode)
    ensures cx.contentType == old(cx.contentType) && cx.body == old(cx.body)
  {
    var userAgent := HeaderString(cx.request.userAgent);
    var classification := Classify(Some(userAgent));
    var threw := cx.RunDownstream(first);
    if threw {
      // The outer catch: log, then let the request through once more.
      escapes := cx.RunDownstream(second);
      summary := None;
      return;
    }
    var record := BuildRecord(cx.request, now, cx.statusCode, elapsedMs, classification);
    var saved := store.Add(record, persistFails);
    summary := Some(SummaryOf(record));
    escapes := false;
  }

  // ---------------------------------------------------------------------------
  // Properties of the tracker
  // ---------------------------------------------------------------------------

  /**
   * Fail-open: downstream always runs, a failed save never escapes and never
   * stops the summary, and a record is kept only for a completed request.
   */
  lemma TrackingFailsOpen(req: Request, now: Ticks, elapsedMs: Int64,
                          first: NextOutcome, persistFails: bool, second: NextOutcome)
    ensures var o := TrackSpec(req, now, elapsedMs, first, persistFails, second);
      && o.downstreamRuns >= 1
      && (first.Completes? ==> !o.escapes && o.summary.Some?)
      && (o.persisted.Some? ==> o.persisted.value.statusCode == first.status)
      && (o.escapes ==> o.persisted.None?)
  {
  }

  /** The saved record's type and name are the classifier's verdict on the raw header string. */
  lemma RecordCarriesClassification(req: Request, now: Ticks, elapsedMs: Int64,
                                    first: NextOutcome, persistFails: bool, second: NextOutcome)
    ensures var o := TrackSpec(req, now, elapsedMs, first, persistFails, second);
      o.persisted.Some? ==>
        && o.persisted.value.userAgentType == Classify(Some(HeaderString(req.userAgent))).kind
        && o.persisted.value.detectedClient == Classify(Some(HeaderString(req.userAgent))).detectedClient
  {
  }
}
