# Request tracking and crawler enforcement, modelled in Dafny

The system is a small ASP.NET Core web application. It observes who visits it
and shows a dashboard of what it has seen. Its core has five parts:

- **User-agent classifier** (`UserAgentClassifier.ClassifyUserAgent`): maps a
  raw User-Agent string to one of eight `UserAgentType`s and, where it can,
  a display name for the client. It tries six ordered categories of
  case-insensitive patterns, then six browser signatures, then falls back to
  Unknown with the (shortened) input.
- **Tracking middleware** (`RequestTrackingMiddleware`): classifies every
  request and lets it through. It then builds a `RequestLog` with the
  response status, the client address and the timing, and saves it to the
  store. Its own failures never break the pipeline: a failed save is
  swallowed, and an exception from downstream makes it run downstream once
  more.
- **Robots enforcement middleware** (`RobotsEnforcementMiddleware`): refuses
  the Microsoft Graph Connectors crawler, with a 403 and a fixed text, on four
  pages and three static-asset folders. robots.txt and the root page always
  pass.
- **Request dashboard** (`RequestDashboardModel.OnGetAsync`): shows one page
  of stored requests, newest first. It also shows the last 24 hours as a
  per-type count, the ten most frequent clients and paths, a total and an
  average processing time. Any failure empties the four collections.
- **Request record** (`RequestLog`, `UserAgentType`): the persisted record,
  its declared length limits, and the closed enumeration of types.

The model has one Dafny module per concern:

| file | module | what it holds |
|---|---|---|
| `basics.dfy` | `Basics` | `Option`, C# `int`/`long` ranges, 32-bit wrap-around |
| `text.dfy` | `Text` | ordinal case-insensitive search, `Trim`, `Split(',')[0]`, header values |
| `request_log.dfy` | `RequestLogModel` | `UserAgentType`, `RequestLog`, the `[StringLength]` limits |
| `http.dfy` | `Http` | the request fields the core reads; the `HttpContext` response as a class |
| `user_agent_classifier.dfy` | `UserAgentClassifier` | the tables, `Classify`, name extraction, properties and worked examples |
| `robots_enforcement.dfy` | `RobotsEnforcement` | the blocking decision and the middleware method |
| `request_tracking.dfy` | `RequestTracking` | the store as a class, `GetClientIpAddress`, the record, the middleware method |
| `ordering.dfy` | `Ordering` | LINQ's stable `OrderByDescending`, as a permutation of positions |
| `dashboard_queries.dfy` | `DashboardQueries` | paging, the 24-hour window, grouping, top-N, the checked average |
| `request_dashboard.dfy` | `RequestDashboard` | the page model as a class and `OnGetAsync` |

Matching is modelled as ordinal case-insensitive substring search. Every
pattern of the source is either a literal or `Name/[\d\.]+`, so no regular
expression engine is needed. The source's `Dictionary` tables rely on
insertion order; here they are ordered sequences.

The model follows the code in these places, which a reader may not expect:

- The tracker's outer handler runs downstream a second time after an
  exception from downstream. It does not only log.
- Of the record's declared length limits, only UserAgent is enforced (cut to
  1000 characters). The classifier's own bound keeps DetectedClient within
  53 characters. A longer path is stored as it is (`LongPathIsKept`).
- The robots.txt bypass uses `StartsWithSegments`. "/robots.txt/x" passes,
  and "/robots.txtx" does not.
- The 24-hour window has a lower bound only. Records stamped after "now" are
  counted too.
- Ties in the top-10 rankings go to the key that first appears in the window.
  This follows from `OrderByDescending` being stable over `GroupBy`'s
  first-appearance order.
- When `Average` overflows, `TotalRequests` has already been assigned and
  keeps its new value. The collections are emptied and the average keeps its
  old value.
- The exact-signature test in `IsBlockedUserAgent` adds nothing: the full
  signature contains the marker (`BlockedUserAgentIff`).
- The robots middleware is defined but not registered in the pipeline
  (src/Program.cs:56 registers only the tracker). The model states what it
  would do if it were registered.

## Model

| member | source | states |
|---|---|---|
| `Basics.Wrap32` | src/Pages/RequestDashboard.cshtml.cs:33 | the result is congruent to the input modulo 2^32, and equals it when the input is in `int` range (unchecked C# arithmetic) |
| `Text.IndexOfIgnoreCase` | src/Services/UserAgentClassifier.cs:117-120 | a found index is an occurrence with no earlier occurrence; `None` means no occurrence anywhere |
| `Text.ContainsIgnoreCase` | src/Services/UserAgentClassifier.cs:168 | holds exactly when the pattern occurs at some index, ignoring case |
| `Text.MatchesAtTransfer` | src/Services/UserAgentClassifier.cs:117-120 | strings equal ignoring case contain the same patterns at the same places |
| `Text.AbsentCharacter` | src/Services/UserAgentClassifier.cs:113-125 | a pattern with a character that the input lacks in either case does not occur |
| `Text.AbsentLetter` | src/Services/UserAgentClassifier.cs:113-125 | a pattern with a letter outside the input's alphabet does not occur |
| `Text.LetterIsNotBlank` | src/Services/UserAgentClassifier.cs:105-108 | an input containing a letter is not null-or-white-space |
| `Text.TrimStart` | src/Middleware/RequestTrackingMiddleware.cs:95 | the result is a suffix of the input; only white space was removed; it does not start with white space |
| `Text.TrimEnd` | src/Middleware/RequestTrackingMiddleware.cs:95 | the result is a prefix of the input; only white space was removed; it does not end with white space |
| `Text.LeadingWhiteSpace` | src/Middleware/RequestTrackingMiddleware.cs:95 | the number of white-space characters that start the input: all of them are white space, and the next one is not |
| `Text.Trim` | src/Middleware/RequestTrackingMiddleware.cs:95 | the result is the part of the input after its leading white space (`LeadingWhiteSpace`) and before its trailing white space, and has no white space at either end |
| `Text.TrimUnpadded` | src/Middleware/RequestTrackingMiddleware.cs:95 | trimming a string without white space at its ends leaves it unchanged |
| `Text.FirstSegment` | src/Middleware/RequestTrackingMiddleware.cs:95 | the result is the longest separator-free prefix: a prefix without `sep`, ending at the input's end or at a `sep` |
| `Text.HeaderString` | src/Middleware/RequestTrackingMiddleware.cs:31 | `StringValues.ToString()`: no values give "", one value gives itself, several values give their non-empty values joined by "," |
| `Text.HeaderStringEmptyIff` | src/Middleware/RequestTrackingMiddleware.cs:31 | the header string is empty exactly when every value of the header is empty |
| `Text.HeaderStringStartsWithFirstValue` | src/Middleware/RequestTrackingMiddleware.cs:31 | with several values, a non-empty first value starts the header string |
| `RequestLogModel.Ordinal` | src/Models/RequestLog.cs:81-91 | every member has a value below 8, and only Unknown has value 0 |
| `RequestLogModel.FromOrdinal` | src/Models/RequestLog.cs:81-91 | exactly the values 0..7 name a member, and naming inverts `Ordinal` |
| `RequestLogModel.OrdinalsAreExact` | src/Models/RequestLog.cs:81-91 | the enumeration is closed: each member round-trips through its value and sits at that index of `AllTypes` |
| `RequestLogModel.Valid` | src/Models/RequestLog.cs:21-75 | a valid record has a non-blank method of at most 10 characters, a non-blank path of at most 2000, and every optional field within its declared length |
| `Http.Exchange.RunDownstream` | src/Middleware/RequestTrackingMiddleware.cs:35 | downstream runs once more; it throws or sets the status; the content type and body are unchanged |
| `Http.Exchange.Write` | src/Middleware/RobotsEnforcementMiddleware.cs:66-69 | the text is appended to the body and nothing else changes |
| `UserAgentClassifier.FindCategory` | src/Services/UserAgentClassifier.cs:113-125 | `None` exactly when no pattern of any remaining category occurs; otherwise the first hit category and its first hit pattern, with none before them |
| `UserAgentClassifier.FirstPatternHit` | src/Services/UserAgentClassifier.cs:115-123 | the index of the first pattern of a category that occurs, past the end exactly when none does |
| `UserAgentClassifier.MatchedText` | src/Services/UserAgentClassifier.cs:117-120 | `match.Value` of a literal pattern: the input's own text, in the input's letter case, at the leftmost occurrence of the pattern |
| `UserAgentClassifier.FirstClientKey` | src/Services/UserAgentClassifier.cs:166-172 | the index of the first table key contained in the input, or past the end exactly when no key is contained |
| `UserAgentClassifier.ExtractClientName` | src/Services/UserAgentClassifier.cs:149-175 | the name is the matched text or a table display name of at most 12 characters |
| `UserAgentClassifier.ClientNameIsFirstKey` | src/Services/UserAgentClassifier.cs:149-175 | with some key contained, the name is the display name of the first one; with none, it is the matched text |
| `UserAgentClassifier.SignatureOccurs` | src/Services/UserAgentClassifier.cs:88-96 | a browser pattern matches exactly when it matches at some index |
| `UserAgentClassifier.LooksLikeBrowser` | src/Services/UserAgentClassifier.cs:128-137 | holds exactly when some browser pattern matches |
| `UserAgentClassifier.ExtractBrowserName` | src/Services/UserAgentClassifier.cs:177-197 | the name is one of Chrome, Firefox, Safari, Edge, Opera, Browser |
| `UserAgentClassifier.BrowserNameFollowsRules` | src/Services/UserAgentClassifier.cs:177-197 | the name is that of the first rule whose required word occurs and whose excluded word does not; "Browser" when no rule applies |
| `UserAgentClassifier.UnknownName` | src/Services/UserAgentClassifier.cs:140 | the name has at most 53 characters: the first 50 and "..." for longer input |
| `UserAgentClassifier.Classify` | src/Services/UserAgentClassifier.cs:103-147 | blank or null input is Unknown with no name; otherwise the first hit category decides, then a browser signature, then Unknown |
| `UserAgentClassifier.ClassifyUncategorised` | src/Services/UserAgentClassifier.cs:127-140 | without a category hit the result is Human or Unknown, always with a name of at most 53 characters |
| `UserAgentClassifier.CategoryClientName` | src/Services/UserAgentClassifier.cs:120 | a name reported on a category hit has at most 19 characters |
| `UserAgentClassifier.PatternsAreShort` | src/Services/UserAgentClassifier.cs:19-85 | no category pattern is longer than 19 characters, and no category is Human or Unknown |
| `UserAgentClassifier.FindCategoryStopsAtFirstHit` | src/Services/UserAgentClassifier.cs:113-125 | the search ends at the first category whose patterns hit the input |
| `UserAgentClassifier.CategoryDecides` | src/Services/UserAgentClassifier.cs:113-125 | the first hit category gives the type, and the name is computed from one of its patterns that occurs |
| `UserAgentClassifier.HumanIff` | src/Services/UserAgentClassifier.cs:103-147 | Human exactly when the input is not blank, no category hits and a browser signature matches; the name is then the browser name |
| `UserAgentClassifier.UnknownIff` | src/Services/UserAgentClassifier.cs:103-147 | Unknown exactly when the input is blank, or nothing hits and nothing matches; non-blank Unknown input keeps its shortened text as the name |
| `UserAgentClassifier.FacebookIsSearchBot` | src/Services/UserAgentClassifier.cs:19-34 | "facebookexternalhit" is listed under SearchBot first, so it is never SocialBot |
| `UserAgentClassifier.BotIsNeverHuman` | src/Services/UserAgentClassifier.cs:19-85 | any input containing "bot" is classified as an automated client, neither Human nor Unknown |
| `UserAgentClassifier.CategoryWithClientKey` | src/Services/UserAgentClassifier.cs:113-122 | a category hit together with a contained table key gives that category and the key's display name |
| `UserAgentClassifier.BrowserWithoutCategory` | src/Services/UserAgentClassifier.cs:128-136 | with no category hit, a browser signature gives Human and the browser name |
| `UserAgentClassifier.VersionedSignature` | src/Services/UserAgentClassifier.cs:90-94 | `Product/` followed by a digit or a dot matches the versioned pattern |
| `UserAgentClassifier.NoPatternOccurs` | src/Services/UserAgentClassifier.cs:113-125 | when each pattern of a category has a letter missing from the input, the category does not hit |
| `UserAgentClassifier.ChromeExample` | src/Services/UserAgentClassifier.cs:103-147 | a desktop Chrome signature is Human, named "Chrome" |
| `UserAgentClassifier.GooglebotExample` | src/Services/UserAgentClassifier.cs:103-175 | Google's crawler is a SearchBot named "Google Bot" |
| `UserAgentClassifier.CurlExample` | src/Services/UserAgentClassifier.cs:103-175 | a curl signature is an ApiTool named "cURL" |
| `RobotsEnforcement.StartsWithSegments` | src/Middleware/RobotsEnforcementMiddleware.cs:42 | the path starts with the segment, ignoring case, and either ends there or continues with '/' |
| `RobotsEnforcement.SegmentBoundary` | src/Middleware/RobotsEnforcementMiddleware.cs:42 | a prefix followed by '/' is a prefix ending in '/'; a prefix as long as the path is an ignore-case equality |
| `RobotsEnforcement.SignatureCarriesMarker` | src/Middleware/RobotsEnforcementMiddleware.cs:14 | the full crawler signature contains "GraphConnectors" at index 81 |
| `RobotsEnforcement.BlockedUserAgentIff` | src/Middleware/RobotsEnforcementMiddleware.cs:85-93 | an agent is blocked exactly when it is present and contains the marker, ignoring case |
| `RobotsEnforcement.IsBlockedUserAgent` | src/Middleware/RobotsEnforcementMiddleware.cs:85-93 | an absent or empty agent is never blocked; an agent with the marker, or equal to the full signature, ignoring case, is blocked |
| `RobotsEnforcement.IsPathBlocked` | src/Middleware/RobotsEnforcementMiddleware.cs:95-113 | the root is never blocked; any other path is blocked exactly when it equals a listed page, or starts with a listed folder, ignoring case |
| `RobotsEnforcement.Denies` | src/Middleware/RobotsEnforcementMiddleware.cs:39-83 | refusal holds exactly when the path is not robots.txt, the agent has the marker, and the path is present, not the root, and a listed page or under a listed folder |
| `RobotsEnforcement.InvokeAsync` | src/Middleware/RobotsEnforcementMiddleware.cs:39-83 | a refusal sets 403, text/plain and the fixed text, and does not run downstream; otherwise downstream runs once and nothing else changes |
| `RobotsEnforcement.RobotsAlwaysPasses` | src/Middleware/RobotsEnforcementMiddleware.cs:42-46 | robots.txt and anything below it pass for every agent, in any case |
| `RobotsEnforcement.RobotsBypassNeedsSegment` | src/Middleware/RobotsEnforcementMiddleware.cs:42 | "/robots.txtx" is not a robots.txt request |
| `RobotsEnforcement.RootIsNeverDenied` | src/Middleware/RobotsEnforcementMiddleware.cs:97-99 | the root page is never refused |
| `RobotsEnforcement.MissingPathIsAllowed` | src/Middleware/RobotsEnforcementMiddleware.cs:49 | an absent path counts as the root and is never refused |
| `RobotsEnforcement.OnlyConnectorsAreDenied` | src/Middleware/RobotsEnforcementMiddleware.cs:52 | an agent without the marker is never refused, whatever the path |
| `RobotsEnforcement.DashboardIsBlocked` | src/Middleware/RobotsEnforcementMiddleware.cs:17-23 | listed pages are blocked in any letter case |
| `RobotsEnforcement.BlockedPagesAreWholePaths` | src/Middleware/RobotsEnforcementMiddleware.cs:101-110 | a path below a listed page is not blocked |
| `RobotsEnforcement.PrefixNeedsTrailingSlash` | src/Middleware/RobotsEnforcementMiddleware.cs:26-31 | a folder prefix needs its trailing '/': "/css" is not blocked |
| `RobotsEnforcement.StyleSheetsAreBlocked` | src/Middleware/RobotsEnforcementMiddleware.cs:106-110 | files under a listed folder are blocked, in any letter case |
| `RequestTracking.RequestStore.constructor` | src/Data/RequestTrackingContext.cs:16 | a new store holds no records |
| `RequestTracking.RequestStore.Add` | src/Middleware/RequestTrackingMiddleware.cs:56-64 | the record is appended unless saving fails; a failed save leaves the store unchanged and is reported |
| `RequestTracking.GetClientIpAddress` | src/Middleware/RequestTrackingMiddleware.cs:86-113 | a non-empty X-Forwarded-For gives its first comma-separated hop, trimmed, which is a comma-free piece of that header; else a non-empty X-Real-IP; else the remote address |
| `RequestTracking.FirstHopIsInfix` | src/Middleware/RequestTrackingMiddleware.cs:95 | the trimmed first hop occurs contiguously in the header value and contains no comma |
| `RequestTracking.PieceOfPrefix` | src/Middleware/RequestTrackingMiddleware.cs:95 | a prefix of a suffix of a prefix of a value occurs in the value, without characters the outer prefix lacks |
| `RequestTracking.FirstHopIsUsed` | src/Middleware/RequestTrackingMiddleware.cs:91-97 | a list "a,b" whose first hop has no padding gives that first hop |
| `RequestTracking.ProxyChainExample` | src/Middleware/RequestTrackingMiddleware.cs:91-97 | a typical proxy chain yields the client's address |
| `RequestTracking.SingleHopExample` | src/Middleware/RequestTrackingMiddleware.cs:91-97 | a single forwarded address is used as it is |
| `RequestTracking.PaddedFirstHopExample` | src/Middleware/RequestTrackingMiddleware.cs:91-97 | white space around the first forwarded address is trimmed away |
| `RequestTracking.BlankFirstHopDoesNotFallThrough` | src/Middleware/RequestTrackingMiddleware.cs:92-96 | a forwarded list with a blank first hop gives the empty string, not X-Real-IP |
| `RequestTracking.StoredUserAgent` | src/Middleware/RequestTrackingMiddleware.cs:46 | absent exactly for an empty header string; otherwise its first min(length, 1000) characters |
| `RequestTracking.BuildRecord` | src/Middleware/RequestTrackingMiddleware.cs:40-53 | every field of the record comes from the request, the clock, the response status, the stopwatch or the classification |
| `RequestTracking.TrackerBoundsAgentFields` | src/Middleware/RequestTrackingMiddleware.cs:46-48 | a built record respects the UserAgent and DetectedClient length limits |
| `RequestTracking.LongPathIsKept` | src/Middleware/RequestTrackingMiddleware.cs:44 | a path longer than 2000 characters is stored as it is, so the record breaks its declared limit |
| `RequestTracking.BlankAgentRecord` | src/Middleware/RequestTrackingMiddleware.cs:31-48 | a User-Agent header that is missing or has only empty values gives a record with no agent, type Unknown and no client name |
| `RequestTracking.SummaryOf` | src/Middleware/RequestTrackingMiddleware.cs:66-74 | the log line carries the record's fields, with "Unknown" for a missing client name |
| `RequestTracking.TrackSpec` | src/Middleware/RequestTrackingMiddleware.cs:22-84 | downstream runs once, or twice if the first run throws; only a second throw escapes; a record is saved only for a completed request whose save succeeds; the summary is logged exactly when downstream completes |
| `RequestTracking.InvokeAsync` | src/Middleware/RequestTrackingMiddleware.cs:22-84 | the exchange's run count, the store and the returned summary and escape are as the specification says; the response status is the one downstream set |
| `RequestTracking.TrackingFailsOpen` | src/Middleware/RequestTrackingMiddleware.cs:56-83 | downstream always runs; a completed request never escapes and is always logged; a saved record carries downstream's status; nothing is saved when an exception escapes |
| `RequestTracking.RecordCarriesClassification` | src/Middleware/RequestTrackingMiddleware.cs:31-48 | the saved type and name are the classifier's verdict on the raw header string |
| `Ordering.Insert` | src/Pages/RequestDashboard.cshtml.cs:52 | inserting a position into an ordered list keeps it ordered and adds exactly that position |
| `Ordering.SortPrefix` | src/Pages/RequestDashboard.cshtml.cs:52 | positions 0..n-1 as an ordered permutation |
| `Ordering.StableOrder` | src/Pages/RequestDashboard.cshtml.cs:32 | a permutation of the positions, by key descending and then by position |
| `Ordering.StableOrderIsUnique` | src/Pages/RequestDashboard.cshtml.cs:32 | any permutation in that order is `StableOrder`: the stable sort is fully determined |
| `Ordering.PrefixIsPredecessors` | src/Pages/RequestDashboard.cshtml.cs:32 | in an ordered permutation, an entry's index is its number of predecessors |
| `Ordering.PredecessorsGrow` | src/Pages/RequestDashboard.cshtml.cs:32 | a position that precedes another has strictly fewer predecessors |
| `Ordering.EntryNotBefore` | src/Pages/RequestDashboard.cshtml.cs:32 | two ordered permutations never disagree in either direction at any index |
| `Ordering.PermuteKeepsMultiset` | src/Pages/RequestDashboard.cshtml.cs:32 | reordering by a permutation keeps every entry and its multiplicity |
| `DashboardQueries.NewestFirst` | src/Pages/RequestDashboard.cshtml.cs:31-32 | the store's records, each as often as stored, with timestamps non-increasing, reordered by the stable order of their timestamps |
| `DashboardQueries.NewestFirstIsTheStableSort` | src/Pages/RequestDashboard.cshtml.cs:32 | any reordering that puts the records newest first and keeps store order among equal timestamps is `NewestFirst` |
| `DashboardQueries.SkipTake` | src/Pages/RequestDashboard.cshtml.cs:33-34 | `Skip`/`Take` with LINQ's treatment of negative counts: the run of entries starting at the clamped offset, of the clamped length |
| `DashboardQueries.PageOffset` | src/Pages/RequestDashboard.cshtml.cs:33 | the offset is `(page - 1) * pageSize` wrapped to 32 bits, as unchecked C# computes it; it equals the exact product when `page >= 1`, `pageSize >= 0` and the product fits in `int` |
| `DashboardQueries.WrapProduct` | src/Pages/RequestDashboard.cshtml.cs:33 | wrapping `page - 1` before the multiplication does not change the wrapped product |
| `DashboardQueries.RecentRequests` | src/Pages/RequestDashboard.cshtml.cs:31-35 | the page is the run of `NewestFirst` that starts at the wrapped offset and has at most `pageSize` records; with `page >= 1`, `pageSize >= 0` and no overflow, it starts at `(page - 1) * pageSize`; it is sorted newest first and drawn from the store |
| `DashboardQueries.SliceMultiset` | src/Pages/RequestDashboard.cshtml.cs:33-34 | a slice holds no entry more often than the whole |
| `DashboardQueries.FirstPageHoldsEverything` | src/Pages/RequestDashboard.cshtml.cs:31-35 | when the page size covers the store, page 1 holds every record |
| `DashboardQueries.PagesAreConsecutive` | src/Pages/RequestDashboard.cshtml.cs:31-35 | pages `p` and `p+1` together are the double-size page `p` of the same order: no record is skipped or repeated |
| `DashboardQueries.SkipTakeConsecutive` | src/Pages/RequestDashboard.cshtml.cs:33-34 | two consecutive runs of `take` entries form one run of `2*take` |
| `DashboardQueries.WindowStart` | src/Pages/RequestDashboard.cshtml.cs:38 | `AddDays(-1)` fails exactly within the first day of the calendar, and is otherwise one day earlier |
| `DashboardQueries.Window` | src/Pages/RequestDashboard.cshtml.cs:39-41 | exactly the records stamped at or after the start, each as often as stored |
| `DashboardQueries.UserAgentStatsCount` | src/Pages/RequestDashboard.cshtml.cs:44-46 | a type is a key exactly when a record has it, and it maps to the number of such records |
| `DashboardQueries.UserAgentStats` | src/Pages/RequestDashboard.cshtml.cs:44-46 | the type counts are empty exactly when the window is empty |
| `DashboardQueries.StatsAddUpToTotal` | src/Pages/RequestDashboard.cshtml.cs:44-46 | the per-type counts add up to the number of records in the window |
| `DashboardQueries.OnceInAllTypes` | src/Models/RequestLog.cs:81-91 | each type occurs exactly once in the list of all types |
| `DashboardQueries.FirstIndex` | src/Pages/RequestDashboard.cshtml.cs:51 | the index of the first occurrence of a key |
| `DashboardQueries.Distinct` | src/Pages/RequestDashboard.cshtml.cs:51 | `GroupBy`'s keys: the same keys as the input, without repeats, in order of first appearance |
| `DashboardQueries.GroupCounts` | src/Pages/RequestDashboard.cshtml.cs:52 | one count per group, in group order, equal to how often the key occurs |
| `DashboardQueries.TopKeys` | src/Pages/RequestDashboard.cshtml.cs:51-53 | at most `n` keys, none repeated |
| `DashboardQueries.TopKeysInInput` | src/Pages/RequestDashboard.cshtml.cs:51-53 | exactly min(n, number of keys) keys, all from the input, and all keys when there are at most `n` |
| `DashboardQueries.TopKeysRankFirst` | src/Pages/RequestDashboard.cshtml.cs:52-53 | a key left out is outranked by every key kept: a higher count, or an equal count and an earlier first appearance |
| `DashboardQueries.TopByCount` | src/Pages/RequestDashboard.cshtml.cs:51-54 | the map has at most `n` entries |
| `DashboardQueries.TopByCountCounts` | src/Pages/RequestDashboard.cshtml.cs:54 | every key on top occurs in the input and maps to how often it occurs |
| `DashboardQueries.TopByCountRanks` | src/Pages/RequestDashboard.cshtml.cs:51-54 | the map has min(n, number of keys) entries; every left-out key is outranked by every kept one; with at most `n` keys all are kept |
| `DashboardQueries.ClientNames` | src/Pages/RequestDashboard.cshtml.cs:50-51 | only non-empty names are grouped |
| `DashboardQueries.ClientNameCount` | src/Pages/RequestDashboard.cshtml.cs:50-51 | a non-empty name is grouped once per record that detected it |
| `DashboardQueries.TopClients` | src/Pages/RequestDashboard.cshtml.cs:49-54 | at most ten clients |
| `DashboardQueries.TopClientCounts` | src/Pages/RequestDashboard.cshtml.cs:49-54 | a client on the list has a non-empty name and maps to the number of records that detected it |
| `DashboardQueries.TopPaths` | src/Pages/RequestDashboard.cshtml.cs:57-61 | at most ten paths |
| `DashboardQueries.TopPathCounts` | src/Pages/RequestDashboard.cshtml.cs:57-61 | a path on the list was requested in the window, as often as its count says |
| `DashboardQueries.CheckedSumFrom` | src/Pages/RequestDashboard.cshtml.cs:65 | the checked `long` running sum succeeds exactly when every partial sum fits in `long`, and then equals the sum |
| `DashboardQueries.AverageProcessingTime` | src/Pages/RequestDashboard.cshtml.cs:65 | 0 for an empty window; otherwise defined exactly when the running sum never overflows, and then times the count equals the sum |
| `DashboardQueries.SumBounded` | src/Pages/RequestDashboard.cshtml.cs:65 | a sum of values in [0, bound] lies in [0, count * bound] |
| `DashboardQueries.AverageDefinedForBoundedTimes` | src/Pages/RequestDashboard.cshtml.cs:65 | with non-negative times and count * bound below 2^63, the average never overflows |
| `RequestDashboard.FirstFault` | src/Pages/RequestDashboard.cshtml.cs:28-75 | no fault exactly when both queries succeed, the clock is past the first day and the average is defined; an overflow fault means the average is undefined |
| `RequestDashboard.RequestDashboardModel.constructor` | src/Pages/RequestDashboard.cshtml.cs:19-24 | empty collections, zero total and average |
| `RequestDashboard.RequestDashboardModel.ResetCollections` | src/Pages/RequestDashboard.cshtml.cs:71-74 | the four collections are emptied; total and average are unchanged |
| `RequestDashboard.RequestDashboardModel.ShowRecentRequests` | src/Pages/RequestDashboard.cshtml.cs:31-35 | the page is stored and nothing else changes |
| `RequestDashboard.RequestDashboardModel.ShowUserAgentStats` | src/Pages/RequestDashboard.cshtml.cs:44-46 | the type counts are stored and nothing else changes |
| `RequestDashboard.RequestDashboardModel.ShowTopClients` | src/Pages/RequestDashboard.cshtml.cs:49-54 | the client ranking is stored and nothing else changes |
| `RequestDashboard.RequestDashboardModel.ShowTopPaths` | src/Pages/RequestDashboard.cshtml.cs:57-61 | the path ranking is stored and nothing else changes |
| `RequestDashboard.RequestDashboardModel.ShowTotalRequests` | src/Pages/RequestDashboard.cshtml.cs:64 | the total is the window's size and nothing else changes |
| `RequestDashboard.RequestDashboardModel.ShowAverage` | src/Pages/RequestDashboard.cshtml.cs:65 | the average is stored and nothing else changes |
| `RequestDashboard.RequestDashboardModel.OnGetAsync` | src/Pages/RequestDashboard.cshtml.cs:26-76 | without a fault, each property is its query over the store and the type counts add up to the total; on a fault the collections are empty, the average is unchanged, and the total is new only after an overflow of the average |
| `RequestDashboard.DefaultPageIsNewestFifty` | src/Pages/RequestDashboard.cshtml.cs:26-35 | with the default parameters the page holds the fifty newest records, or all of them if there are fewer |

## Left out

- Logging (`ILogger` calls in every core file) is not modelled. The tracker's "Request tracked" line is kept only as the value `SummaryOf` returns.
- `async`/`await` is modelled as sequential code. Concurrent requests sharing a store are not modelled.
- `DateTime.UtcNow` and the `Stopwatch` reading are parameters (`now`, `elapsedMs`). The tracker stops the stopwatch after downstream, and that reading is passed in.
- Exceptions from the store's queries and saves, from downstream and from `AddDays` are boolean or `NextOutcome` inputs. The exceptions themselves are not modelled.
- The classifier's `catch` (UserAgentClassifier.cs:142-146) and `GetClientIpAddress`'s `catch` (RequestTrackingMiddleware.cs:109-112) are not modelled. Nothing in the modelled code paths throws there.
- An exception thrown by the logger itself, or while building the record, is not modelled.
- Strings are sequences of Unicode scalar values. C# strings are UTF-16 code units, so `userAgent[..50]` (UserAgentClassifier.cs:140), `userAgent[..Math.Min(userAgent.Length, 1000)]` (RequestTrackingMiddleware.cs:46) and every `[StringLength]` bound count characters outside the Basic Multilingual Plane twice there and once here. A C# cut that splits a surrogate pair has no counterpart in the model.
- `Text.FoldCase` folds ASCII letters only. .NET's `OrdinalIgnoreCase` also folds non-ASCII letters.
- `IsDigit` accepts ASCII digits only. The `\d` of .NET regular expressions also matches other Unicode decimal digits.
- Only the regular expression shapes the source uses (a literal, and `Name/[\d\.]+`) are modelled, not a general regex engine.
- The SQL Server provider, selected when a connection string is configured (src/Program.cs:11-24), is not modelled. The model follows the in-memory provider's LINQ-to-objects semantics: a negative `Skip` is clamped, ordering is stable, and ties keep insertion order. On SQL Server a negative `OFFSET` is an error and the tie order is unspecified.
- The store-assigned `Id` and the database default for `Timestamp` (RequestTrackingContext.cs:25-29) are not modelled. `BuildRecord` leaves `id` at 0, and the indexes do not change query results.
- `SaveRequestLogAsync` (RequestTrackingMiddleware.cs:115-126) is never called and is not modelled.
- Pipeline wiring in src/Program.cs and the `UseRequestTracking` extension are not modelled.
- The TestApi page is not part of this model.
- `originalBodyStream` (RequestTrackingMiddleware.cs:25) is captured and never used, so it is not modelled.
- What downstream writes to the response body is not modelled. `RunDownstream` only sets the status.
- Header lookup by name is resolved into one field per header in `Http.Request`. Header-name case rules are not modelled.
- `DashboardQueries.AverageProcessingTime` is a `real`. The source's `double` result of `Average` is not rounded in the model.
- `RequestDashboard.RequestDashboardModel.OnGetAsync` keeps `totalRequests` as an unbounded integer. `Count` would throw beyond 2^31-1 records, and that case is not modelled.
- The dashboard's `Dictionary` results are modelled as maps. Their enumeration order, which the view uses to list them, is not modelled.
