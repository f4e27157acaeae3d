// RobotsEnforcementMiddleware: refuses Microsoft Graph Connectors access to
// a fixed set of pages and static-asset folders, always lets robots.txt through.

module RobotsEnforcement {
  import opened Basics
  import opened Text
  import opened Http

  /** The marker that identifies the crawler anywhere in a User-Agent. */
  const ConnectorMarker: string := "GraphConnectors"

  /**
   * The full signature of the Graph Connectors crawler (`BlockedUserAgent`),
   * written around the marker it contains.
   */
  const BlockedUserAgent: string :=
    "Mozilla/5.0 (Windows NT 10.0; Win64; x64) AppleWebKit/537.36 (KHTML, like Gecko; "
    + ConnectorMarker + ") Chrome/76.0.3809.132 Safari/537.36"

  /** Pages refused to the crawler, compared whole and ignoring case (`BlockedPaths`). */
  const BlockedPaths: seq<string> := ["/RequestDashboard", "/TestApi", "/Privacy", "/Error"]

  /** Folders refused to the crawler, compared as prefixes ignoring case (`BlockedPathPrefixes`). */
  const BlockedPathPrefixes: seq<string> := ["/lib/", "/css/", "/js/"]

  const RobotsPath: string := "/robots.txt"

  const ForbiddenStatus: Int32 := 403
  const DenialContentType: string := "text/plain"
  const DenialBody: string :=
    "Access denied. This resource is not available to Microsoft Graph Connectors. Please check robots.txt for allowed paths."

  // ---------------------------------------------------------------------------
  // The robots.txt bypass
  // ---------------------------------------------------------------------------

  /**
   * `PathString.StartsWithSegments(other, OrdinalIgnoreCase)`: the path starts
   * with `other` and either ends there or continues with a '/'. An absent
   * path is the empty string.
   */
  predicate StartsWithSegments(path: Option<string>, other: string)
    ensures StartsWithSegments(path, other) <==>
      EqualsIgnoreCase(path.GetOr(""), other) || StartsWithIgnoreCase(path.GetOr(""), other + "/")
  {
    var value := path.GetOr("");
    var r := StartsWithIgnoreCase(value, other) && (|value| == |other| || value[|other|] == '/');
    SegmentBoundary(value, other);
    r
  }

  /** A prefix followed by '/' is the same as a prefix ending in '/'. */
  lemma SegmentBoundary(s: string, p: string)
    ensures (StartsWithIgnoreCase(s, p) && |s| > |p| && s[|p|] == '/') <==> StartsWithIgnoreCase(s, p + "/")
    ensures (StartsWithIgnoreCase(s, p) && |s| == |p|) <==> EqualsIgnoreCase(s, p)
  {
    if StartsWithIgnoreCase(s, p + "/") {
      assert s[..|p| + 1][..|p|] == s[..|p|];
      assert forall k :: 0 <= k < |p| ==> (p + "/")[k] == p[k];
      assert FoldCase(s[|p|]) == '/' by {
        assert s[..|p| + 1][|p|] == s[|p|];
        assert (p + "/")[|p|] == '/';
      }
    }
    if StartsWithIgnoreCase(s, p) && |s| > |p| && s[|p|] == '/' {
      assert forall k :: 0 <= k < |p| ==> s[..|p| + 1][k] == s[..|p|][k];
    }
    if StartsWithIgnoreCase(s, p) && |s| == |p| {
      assert s[..|p|] == s;
    }
    if EqualsIgnoreCase(s, p) {
      assert s[..|p|] == s;
    }
  }

  /** Whether the request goes straight downstream as a request for robots.txt. */
  predicate IsRobotsRequest(path: Option<string>) {
    StartsWithSegments(path, RobotsPath)
  }

  // ---------------------------------------------------------------------------
  // IsBlockedUserAgent and IsPathBlocked
  // ---------------------------------------------------------------------------

  /** `IsBlockedUserAgent`: the marker occurs, or the input is the full crawler signature. */
  predicate IsBlockedUserAgent(ua: Option<string>)
    ensures ua.None? || ua.value == [] ==> !IsBlockedUserAgent(ua)
    ensures ua.Some? && ContainsIgnoreCase(ua.value, ConnectorMarker) ==> IsBlockedUserAgent(ua)
    ensures ua.Some? && EqualsIgnoreCase(ua.value, BlockedUserAgent) ==> IsBlockedUserAgent(ua)
  {
    if ua.None? || ua.value == [] then false
    else ContainsIgnoreCase(ua.value, ConnectorMarker) || EqualsIgnoreCase(ua.value, BlockedUserAgent)
  }

  /** The full crawler signature carries the marker at index 81. */
  lemma SignatureCarriesMarker()
    ensures MatchesAt(BlockedUserAgent, ConnectorMarker, 81)
  {
    var head := "Mozilla/5.0 (Windows NT 10.0; Win64; x64) AppleWebKit/537.36 (KHTML, like Gecko; ";
    var tail := ") Chrome/76.0.3809.132 Safari/537.36";
    assert |head| == 81;
    assert BlockedUserAgent[81..96] == ConnectorMarker by {
      assert BlockedUserAgent == head + ConnectorMarker + tail;
      assert forall k :: 0 <= k < 15 ==> BlockedUserAgent[81 + k] == ConnectorMarker[k];
    }
  }

  /**
   * The exact-signature test adds nothing: the crawler is blocked exactly
   * when the marker occurs, ignoring case.
   */
  lemma BlockedUserAgentIff(ua: Option<string>)
    ensures IsBlockedUserAgent(ua) <==> ua.Some? && ContainsIgnoreCase(ua.value, ConnectorMarker)
  {
    if ua.Some? && EqualsIgnoreCase(ua.value, BlockedUserAgent) {
      SignatureCarriesMarker();
      MatchesAtTransfer(ua.value, BlockedUserAgent, ConnectorMarker, 81);
    }
    if ua.Some? && ContainsIgnoreCase(ua.value, ConnectorMarker) {
      var i: nat :| MatchesAt(ua.value, ConnectorMarker, i);
    }
  }

  /** `BlockedPaths.Contains(path)` under the ignore-case comparer. */
  predicate IsBlockedPage(path: string) {
    exists i :: 0 <= i < |BlockedPaths| && EqualsIgnoreCase(path, BlockedPaths[i])
  }

  /** Some prefix of `BlockedPathPrefixes` starts the path, ignoring case. */
  predicate HasBlockedPrefix(path: string) {
    exists i :: 0 <= i < |BlockedPathPrefixes| && StartsWithIgnoreCase(path, BlockedPathPrefixes[i])
  }

  /** `IsPathBlocked`: never the root; otherwise a listed page or a listed folder. */
  predicate IsPathBlocked(path: string)
    ensures path == "/" ==> !IsPathBlocked(path)
    ensures IsPathBlocked(path) <==>
      && path != "/"
      && (|| (exists i :: 0 <= i < |BlockedPaths| && EqualsIgnoreCase(path, BlockedPaths[i]))
          || (exists i :: 0 <= i < |BlockedPathPrefixes| && StartsWithIgnoreCase(path, BlockedPathPrefixes[i])))
  {
    if path == "/" then false
    else if IsBlockedPage(path) then true
    else HasBlockedPrefix(path)
  }

  // ---------------------------------------------------------------------------
  // The decision and InvokeAsync
  // ---------------------------------------------------------------------------

  /**
   * Whether the gate refuses a request with this path and User-Agent header
   * string: not robots.txt, a blocked agent, and a blocked path (an absent
   * path counts as "/").
   */
  predicate Denies(path: Option<string>, ua: string)
    ensures Denies(path, ua) <==>
      && !IsRobotsRequest(path)
      && ContainsIgnoreCase(ua, ConnectorMarker)
      && path.Some? && path.value != "/"
      && (IsBlockedPage(path.value) || HasBlockedPrefix(path.value))
  {
    BlockedUserAgentIff(Some(ua));
    !IsRobotsRequest(path) && IsBlockedUserAgent(Some(ua)) && IsPathBlocked(path.GetOr("/"))
  }

  /**
   * `InvokeAsync`: on a refusal the response is a 403 with the fixed text and
   * the rest of the pipeline does not run; otherwise the rest of the pipeline
   * runs exactly once and the gate touches nothing else. `threw` reports an
   * exception from downstream, which the gate does not catch.
   */
  method InvokeAsync(cx: Exchange, downstream: NextOutcome) returns (threw: bool)
    modifies cx
    ensures Denies(cx.request.path, HeaderString(cx.request.userAgent)) ==>
      && cx.statusCode == ForbiddenStatus
      && cx.contentType == Some(DenialContentType)
      && cx.body == old(cx.body) + DenialBody
      && cx.downstreamRuns == old(cx.downstreamRuns)
      && !threw
    ensures !Denies(cx.request.path, HeaderString(cx.request.userAgent)) ==>
      && cx.downstreamRuns == old(cx.downstreamRuns) + 1
      && (threw <==> downstream.Throws?)
      && cx.statusCode == (if downstream.Completes? then downstream.status else old(cx.statusCode))
      && cx.contentType == old(cx.contentType)
      && cx.body == old(cx.body)
  {
    if StartsWithSegments(cx.request.path, RobotsPath) {
      threw := cx.RunDownstream(downstream);
      return;
    }
    var userAgent := HeaderString(cx.request.userAgent);
    var requestPath := cx.request.path.GetOr("/");
    if IsBlockedUserAgent(Some(userAgent)) {
      if IsPathBlocked(requestPath) {
        cx.statusCode := ForbiddenStatus;
        cx.contentType := Some(DenialContentType);
        cx.Write(DenialBody);
        threw := false;
        return;
      }
    }
    threw := cx.RunDownstream(downstream);
  }

  // ---------------------------------------------------------------------------
  // Properties of the gate
  // ---------------------------------------------------------------------------

  /** robots.txt and anything below it pass for every agent, ignoring case. */
  lemma RobotsAlwaysPasses(path: string, ua: string)
    requires EqualsIgnoreCase(path, RobotsPath) || StartsWithIgnoreCase(path, RobotsPath + "/")
    ensures !Denies(Some(path), ua)
  {
  }

  /** "/robots.txtx" is not a request for robots.txt. */
  lemma RobotsBypassNeedsSegment()
    ensures !IsRobotsRequest(Some("/robots.txtx"))
  {
    var p := "/robots.txtx";
    assert p[11] == 'x';
    assert !StartsWithIgnoreCase(p, RobotsPath + "/") by {
      assert (RobotsPath + "/")[11] == '/';
      assert p[..12][11] == 'x';
    }
  }

  /** The root page is never refused. */
  lemma RootIsNeverDenied(ua: string)
    ensures !Denies(Some("/"), ua)
  {
  }

  /** An absent path is treated as the root and is never refused. */
  lemma MissingPathIsAllowed(ua: string)
    ensures !Denies(None, ua)
  {
  }

  /** Without the marker an agent is never refused, whatever the path. */
  lemma OnlyConnectorsAreDenied(path: Option<string>, ua: string)
    requires !ContainsIgnoreCase(ua, ConnectorMarker)
    ensures !Denies(path, ua)
  {
  }

  /** The listed pages are refused in any letter case... */
  lemma DashboardIsBlocked()
    ensures IsPathBlocked("/requestdashboard")
  {
    var p := "/requestdashboard";
    assert EqualsIgnoreCase(p, BlockedPaths[0]) by {
      var q := BlockedPaths[0];
      assert |p| == |q| == 17;
      assert forall k :: 0 <= k < 17 ==> FoldCase(p[k]) == FoldCase(q[k]);
    }
  }

  /** ...but only as whole paths: a page below a listed page is not refused. */
  lemma BlockedPagesAreWholePaths()
    ensures !IsPathBlocked("/RequestDashboard/x")
  {
    var p := "/RequestDashboard/x";
    assert |p| == 19;
    assert FoldCase(p[1]) == 'R';
    forall i | 0 <= i < |BlockedPathPrefixes|
      ensures !StartsWithIgnoreCase(p, BlockedPathPrefixes[i])
    {
      var q := BlockedPathPrefixes[i];
      assert |q| >= 4 && FoldCase(q[1]) != 'R';
      assert p[..|q|][1] == p[1];
    }
  }

  /** A folder prefix needs its trailing '/': "/css" itself is not refused. */
  lemma PrefixNeedsTrailingSlash()
    ensures !IsPathBlocked("/css")
  {
    var p := "/css";
    assert !StartsWithIgnoreCase(p, "/css/");
    assert FoldCase(p[1]) == 'C';
    assert !StartsWithIgnoreCase(p, "/lib/") by { assert p[..4] == p; }
    assert !StartsWithIgnoreCase(p, "/js/") by {
      assert p[..4][1] == p[1];
    }
  }

  /** Files under a listed folder are refused, in any letter case. */
  lemma StyleSheetsAreBlocked()
    ensures IsPathBlocked("/CSS/site.css")
  {
    var p := "/CSS/site.css";
    assert StartsWithIgnoreCase(p, BlockedPathPrefixes[1]) by {
      var w := p[..5];
      assert w[0] == '/' && w[1] == 'C' && w[2] == 'S' && w[3] == 'S' && w[4] == '/';
    }
  }
}
