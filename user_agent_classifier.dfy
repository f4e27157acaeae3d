/**
 * The user-agent classifier (src/Services/UserAgentClassifier.cs): a raw
 * User-Agent string is mapped to a `UserAgentType` and, where possible, a
 * display name for the client.
 *
 * Every regular expression of the source is either a literal (matched
 * case-insensitively anywhere in the input) or `Name/[\d\.]+`, so matching is
 * modelled as case-insensitive substring search. The source keeps its tables
 * in a `Dictionary` and relies on its insertion order; here they are explicit
 * ordered sequences.
 */
module UserAgentClassifier {
  import opened Basics
  import opened Text
  import opened RequestLogModel

  // ---------------------------------------------------------------------------
  // Tables
  // ---------------------------------------------------------------------------

  /** One entry of the category table: a type and its ordered literal patterns. */
  datatype Category = Category(kind: UserAgentType, patterns: seq<string>)

  /** `UserAgentPatterns`, in the order the categories are tried. */
  const UserAgentPatterns: seq<Category> := [
    Category(SearchBot, ["Googlebot", "Bingbot", "Slurp", "DuckDuckBot", "Baiduspider",
                         "YandexBot", "facebookexternalhit", "spider", "crawler"]),
    Category(SocialBot, ["facebookexternalhit", "Twitterbot", "LinkedInBot", "WhatsApp",
                         "TelegramBot", "Discordbot"]),
    Category(ApiTool, ["Insomnia", "Postman", "curl", "wget", "HTTPie", "Thunder Client",
                       "Paw", "RestSharp", "okhttp", "python-requests", "node-fetch", "axios"]),
    Category(Monitor, ["UptimeRobot", "Pingdom", "StatusCake", "Site24x7", "monitor", "uptime"]),
    Category(SecurityScanner, ["Nessus", "OpenVAS", "Qualys", "Nmap", "sqlmap", "Nikto", "scanner"]),
    Category(Crawler, ["Scrapy", "BeautifulSoup", "Selenium", "PhantomJS", "HeadlessChrome", "bot"])
  ]

  /** A browser signature: `Product/[\d\.]+` or a plain literal. */
  datatype BrowserPattern = Versioned(product: string) | Literal(text: string)

  /** `BrowserPatterns`, in the order they are tried. */
  const BrowserPatterns: seq<BrowserPattern> := [
    Versioned("Chrome"), Versioned("Firefox"), Versioned("Safari"),
    Versioned("Edge"), Versioned("Opera"), Literal("Mozilla/")
  ]

  /** `commonClients` of `ExtractClientName`: substring to display name, in order. */
  const CommonClients: seq<(string, string)> := [
    ("Insomnia", "Insomnia"), ("Postman", "Postman"), ("curl", "cURL"), ("wget", "Wget"),
    ("Googlebot", "Google Bot"), ("Bingbot", "Bing Bot"), ("facebookexternalhit", "Facebook Bot"),
    ("Twitterbot", "Twitter Bot"), ("UptimeRobot", "UptimeRobot"), ("Pingdom", "Pingdom")
  ]

  /** Unclassified input longer than this is cut and marked with an ellipsis. */
  const UnknownNameLimit: nat := 50

  /** The longest name the classifier can produce: 50 characters plus "...". */
  const MaxDetectedClientLength: nat := 53

  datatype Classification = Classification(kind: UserAgentType, detectedClient: Option<string>)

  // ---------------------------------------------------------------------------
  // Category search (the nested foreach over UserAgentPatterns)
  // ---------------------------------------------------------------------------

  /** Some pattern of category `c` occurs in `ua`. */
  predicate CategoryHits(ua: string, c: Category) {
    exists p | p in c.patterns :: ContainsIgnoreCase(ua, p)
  }

  /** Category `k` is the first one of the table whose patterns hit `ua`. */
  predicate IsFirstHitCategory(ua: string, k: nat) {
    && k < |UserAgentPatterns|
    && CategoryHits(ua, UserAgentPatterns[k])
    && forall j :: 0 <= j < k ==> !CategoryHits(ua, UserAgentPatterns[j])
  }

  /** Where the search stopped: the category's rank and the pattern's index in it. */
  datatype CategoryMatch = CategoryMatch(rank: nat, pattern: nat)

  /**
   * The categories from `from` on are tried in order, and within each its
   * patterns in order; the first pattern that occurs ends the search.
   */
  function FindCategory(ua: string, from: nat): (r: Option<CategoryMatch>)
    requires from <= |UserAgentPatterns|
    decreases |UserAgentPatterns| - from
    ensures r.None? ==>
      forall k :: from <= k < |UserAgentPatterns| ==> !CategoryHits(ua, UserAgentPatterns[k])
    ensures r.Some? ==>
      && from <= r.value.rank < |UserAgentPatterns|
      && (forall k :: from <= k < r.value.rank ==> !CategoryHits(ua, UserAgentPatterns[k]))
      && r.value.pattern < |UserAgentPatterns[r.value.rank].patterns|
      && ContainsIgnoreCase(ua, UserAgentPatterns[r.value.rank].patterns[r.value.pattern])
      && (forall q :: 0 <= q < r.value.pattern ==>
            !ContainsIgnoreCase(ua, UserAgentPatterns[r.value.rank].patterns[q]))
  {
    if from == |UserAgentPatterns| then None
    else
      var j := FirstPatternHit(ua, UserAgentPatterns[from]);
      if j < |UserAgentPatterns[from].patterns| then Some(CategoryMatch(from, j))
      else FindCategory(ua, from + 1)
  }

  /** The index of the first pattern of `c` that occurs in `ua`; past the end when none does. */
  function FirstPatternHit(ua: string, c: Category): (j: nat)
    ensures j <= |c.patterns|
    ensures j == |c.patterns| <==> !CategoryHits(ua, c)
    ensures j < |c.patterns| ==> ContainsIgnoreCase(ua, c.patterns[j])
    ensures forall q :: 0 <= q < j ==> !ContainsIgnoreCase(ua, c.patterns[q])
  {
    var patterns := c.patterns;
    var hits := (j: nat) => j < |patterns| && ContainsIgnoreCase(ua, patterns[j]);
    var j := FirstWhere(|patterns|, hits);
    assert forall q: nat :: hits(q) == (q < |patterns| && ContainsIgnoreCase(ua, patterns[q]));
    assert j == |patterns| ==> !CategoryHits(ua, c) by {
      if j == |patterns| {
        forall p | p in patterns ensures !ContainsIgnoreCase(ua, p) {
          var q :| 0 <= q < |patterns| && patterns[q] == p;
          assert !hits(q);
        }
      }
    }
    j
  }

  /** `match.Value` for a literal pattern: the input's own text at the leftmost occurrence. */
  function MatchedText(ua: string, p: string): (r: string)
    requires ContainsIgnoreCase(ua, p)
    ensures EqualsIgnoreCase(r, p)
    ensures exists i: nat ::
      && MatchesAt(ua, p, i)
      && (forall j: nat :: j < i ==> !MatchesAt(ua, p, j))
      && r == ua[i..i + |p|]
  {
    var i := IndexOfIgnoreCase(ua, p).value;
    ua[i..i + |p|]
  }

  // ---------------------------------------------------------------------------
  // Client name (ExtractClientName)
  // ---------------------------------------------------------------------------

  /** Entry `j` of `CommonClients` is the first whose key occurs in `ua`. */
  predicate IsFirstClientKey(ua: string, j: nat) {
    && j < |CommonClients|
    && ContainsIgnoreCase(ua, CommonClients[j].0)
    && forall i :: 0 <= i < j ==> !ContainsIgnoreCase(ua, CommonClients[i].0)
  }

  /** The search of `ExtractClientName`: the index of the first key contained in `ua`. */
  function FirstClientKey(ua: string): (k: nat)
    ensures k <= |CommonClients|
    ensures k < |CommonClients| ==> IsFirstClientKey(ua, k)
    ensures k == |CommonClients| ==>
      forall j :: 0 <= j < |CommonClients| ==> !ContainsIgnoreCase(ua, CommonClients[j].0)
  {
    var hits := (j: nat) => j < |CommonClients| && ContainsIgnoreCase(ua, CommonClients[j].0);
    var k := FirstWhere(|CommonClients|, hits);
    assert forall j: nat :: hits(j) == (j < |CommonClients| && ContainsIgnoreCase(ua, CommonClients[j].0));
    k
  }

  /**
   * The display name of the first `CommonClients` key contained in `ua`, or
   * the matched text when no key is contained.
   */
  function ExtractClientName(ua: string, matched: string): (r: string)
    ensures r == matched || |r| <= 12
  {
    var k := FirstClientKey(ua);
    if k < |CommonClients| then CommonClients[k].1 else matched
  }

  /** The name comes from the first table key that occurs, whatever category matched. */
  lemma ClientNameIsFirstKey(ua: string, matched: string)
    ensures (exists j :: 0 <= j < |CommonClients| && ContainsIgnoreCase(ua, CommonClients[j].0)) ==>
      exists j: nat :: IsFirstClientKey(ua, j) && ExtractClientName(ua, matched) == CommonClients[j].1
    ensures (forall j :: 0 <= j < |CommonClients| ==> !ContainsIgnoreCase(ua, CommonClients[j].0)) ==>
      ExtractClientName(ua, matched) == matched
  {
    var k := FirstClientKey(ua);
    if k < |CommonClients| {
      assert IsFirstClientKey(ua, k) && ExtractClientName(ua, matched) == CommonClients[k].1;
    }
  }

  // ---------------------------------------------------------------------------
  // Browser detection (BrowserPatterns and ExtractBrowserName)
  // ---------------------------------------------------------------------------

  predicate IsDigitOrDot(c: char) {
    IsDigit(c) || c == '.'
  }

  /** Browser pattern `b` matches `ua` starting at index `i`. */
  predicate SignatureAt(ua: string, b: BrowserPattern, i: nat) {
    match b
    case Literal(text) => MatchesAt(ua, text, i)
    case Versioned(product) =>
      && MatchesAt(ua, product + "/", i)
      && i + |product| + 1 < |ua|
      && IsDigitOrDot(ua[i + |product| + 1])
  }

  /** `Regex.Match(ua).Success` for browser pattern `b`. */
  predicate SignatureOccurs(ua: string, b: BrowserPattern)
    ensures SignatureOccurs(ua, b) <==> exists i: nat :: SignatureAt(ua, b, i)
  {
    var at := (i: nat) => SignatureAt(ua, b, i);
    var k := FirstWhere(|ua| + 1, at);
    assert forall i: nat :: at(i) == SignatureAt(ua, b, i);
    assert forall i: nat :: i > |ua| ==> !SignatureAt(ua, b, i);
    k <= |ua|
  }

  /** Some browser pattern matches `ua`. */
  predicate LooksLikeBrowser(ua: string)
    ensures LooksLikeBrowser(ua) <==> exists b | b in BrowserPatterns :: SignatureOccurs(ua, b)
  {
    var hits := (j: nat) => j < |BrowserPatterns| && SignatureOccurs(ua, BrowserPatterns[j]);
    var k := FirstWhere(|BrowserPatterns|, hits);
    assert forall j: nat :: hits(j) == (j < |BrowserPatterns| && SignatureOccurs(ua, BrowserPatterns[j]));
    assert forall b | b in BrowserPatterns :: exists j :: 0 <= j < |BrowserPatterns| && BrowserPatterns[j] == b;
    k < |BrowserPatterns|
  }

  /** The browser name, by fixed priority checks. */
  function ExtractBrowserName(ua: string): (r: string)
    ensures r in BrowserNames
  {
    if ContainsIgnoreCase(ua, "Chrome") && !ContainsIgnoreCase(ua, "Chromium") then "Chrome"
    else if ContainsIgnoreCase(ua, "Firefox") then "Firefox"
    else if ContainsIgnoreCase(ua, "Safari") && !ContainsIgnoreCase(ua, "Chrome") then "Safari"
    else if ContainsIgnoreCase(ua, "Edge") then "Edge"
    else if ContainsIgnoreCase(ua, "Opera") then "Opera"
    else "Browser"
  }

  const BrowserNames: set<string> := {"Chrome", "Firefox", "Safari", "Edge", "Opera", "Browser"}

  /**
   * An independent statement of the browser-name priority as a rule table:
   * a rule applies when its required text occurs and its excluded text (if
   * any) does not; the first applicable rule names the browser.
   */
  datatype BrowserRule = BrowserRule(name: string, requires_: string, excludes: Option<string>)

  const BrowserRules: seq<BrowserRule> := [
    BrowserRule("Chrome", "Chrome", Some("Chromium")),
    BrowserRule("Firefox", "Firefox", None),
    BrowserRule("Safari", "Safari", Some("Chrome")),
    BrowserRule("Edge", "Edge", None),
    BrowserRule("Opera", "Opera", None)
  ]

  predicate RuleApplies(ua: string, rule: BrowserRule) {
    ContainsIgnoreCase(ua, rule.requires_)
      && (rule.excludes.None? || !ContainsIgnoreCase(ua, rule.excludes.value))
  }

  // ---------------------------------------------------------------------------
  // ClassifyUserAgent
  // ---------------------------------------------------------------------------

  /** The name reported for input nothing recognises. */
  function UnknownName(ua: string): (r: string)
    ensures |r| <= MaxDetectedClientLength
  {
    if |ua| > UnknownNameLimit then ua[..UnknownNameLimit] + "..." else ua
  }

  /** `ClassifyUserAgent`; `None` is a null argument. */
  function Classify(ua: Option<string>): (r: Classification)
    ensures IsNullOrWhiteSpace(ua) ==> r == Classification(Unknown, None)
    ensures !IsNullOrWhiteSpace(ua) ==>
      r.detectedClient.Some? && |r.detectedClient.value| <= MaxDetectedClientLength
  {
    if IsNullOrWhiteSpace(ua) then Classification(Unknown, None)
    else
      match FindCategory(ua.value, 0)
      case Some(m) => Classification(UserAgentPatterns[m.rank].kind, Some(CategoryClientName(ua.value, m)))
      case None => ClassifyUncategorised(ua.value)
  }

  /** The fallback when no category hits: a browser, or Unknown with the (shortened) input. */
  function ClassifyUncategorised(ua: string): (r: Classification)
    ensures r.detectedClient.Some? && |r.detectedClient.value| <= MaxDetectedClientLength
    ensures r.kind == Human || r.kind == Unknown
  {
    if LooksLikeBrowser(ua) then Classification(Human, Some(ExtractBrowserName(ua)))
    else Classification(Unknown, Some(UnknownName(ua)))
  }

  /** The name reported on a category hit: a table display name or the matched text. */
  function CategoryClientName(ua: string, m: CategoryMatch): (r: string)
    requires m.rank < |UserAgentPatterns| && m.pattern < |UserAgentPatterns[m.rank].patterns|
    requires ContainsIgnoreCase(ua, UserAgentPatterns[m.rank].patterns[m.pattern])
    ensures |r| <= 19
  {
    var matched := MatchedText(ua, UserAgentPatterns[m.rank].patterns[m.pattern]);
    PatternsAreShort(m.rank, m.pattern);
    ExtractClientName(ua, matched)
  }

  /** No pattern of the category table is longer than 19 characters. */
  lemma PatternsAreShort(k: nat, j: nat)
    requires k < |UserAgentPatterns| && j < |UserAgentPatterns[k].patterns|
    ensures |UserAgentPatterns[k].patterns[j]| <= 19
    ensures UserAgentPatterns[k].kind != Human && UserAgentPatterns[k].kind != Unknown
  {
  }

  // ---------------------------------------------------------------------------
  // Properties of the classification
  // ---------------------------------------------------------------------------

  /** The search stops at the first category that hits, and at the first pattern in it. */
  lemma {:induction false} FindCategoryStopsAtFirstHit(ua: string, k: nat)
    requires IsFirstHitCategory(ua, k)
    ensures FindCategory(ua, 0).Some? && FindCategory(ua, 0).value.rank == k
  {
  }

  /**
   * On a category hit the first category that hits decides the type, and the
   * name is derived from the first of its patterns that occurs.
   */
  lemma {:induction false} CategoryDecides(ua: string, k: nat)
    requires !IsNullOrWhiteSpace(Some(ua))
    requires IsFirstHitCategory(ua, k)
    ensures Classify(Some(ua)).kind == UserAgentPatterns[k].kind
    ensures exists j: nat ::
      && j < |UserAgentPatterns[k].patterns|
      && ContainsIgnoreCase(ua, UserAgentPatterns[k].patterns[j])
      && (forall q :: 0 <= q < j ==> !ContainsIgnoreCase(ua, UserAgentPatterns[k].patterns[q]))
      && Classify(Some(ua)).detectedClient ==
           Some(ExtractClientName(ua, MatchedText(ua, UserAgentPatterns[k].patterns[j])))
  {
    FindCategoryStopsAtFirstHit(ua, k);
    var m := FindCategory(ua, 0).value;
    assert Classify(Some(ua)).detectedClient ==
      Some(ExtractClientName(ua, MatchedText(ua, UserAgentPatterns[k].patterns[m.pattern])));
  }

  /**
   * Any category hit pre-empts browser detection: the result is Human exactly
   * when no category pattern occurs and some browser pattern does, and then
   * the name is the browser name.
   */
  lemma HumanIff(ua: Option<string>)
    ensures Classify(ua).kind == Human <==>
      && !IsNullOrWhiteSpace(ua)
      && (forall k :: 0 <= k < |UserAgentPatterns| ==> !CategoryHits(ua.value, UserAgentPatterns[k]))
      && LooksLikeBrowser(ua.value)
    ensures Classify(ua).kind == Human ==>
      Classify(ua).detectedClient == Some(ExtractBrowserName(ua.value))
  {
    if !IsNullOrWhiteSpace(ua) {
      var r := FindCategory(ua.value, 0);
      if r.Some? {
        PatternsAreShort(r.value.rank, r.value.pattern);
        var p := UserAgentPatterns[r.value.rank].patterns[r.value.pattern];
        assert p in UserAgentPatterns[r.value.rank].patterns;
      }
    }
  }

  /**
   * Unknown exactly for blank input and for input that neither a category
   * nor a browser pattern recognises; the name of the latter is the input,
   * cut to 50 characters plus "..." when longer.
   */
  lemma UnknownIff(ua: Option<string>)
    ensures Classify(ua).kind == Unknown <==>
      || IsNullOrWhiteSpace(ua)
      || ((forall k :: 0 <= k < |UserAgentPatterns| ==> !CategoryHits(ua.value, UserAgentPatterns[k]))
          && !LooksLikeBrowser(ua.value))
    ensures Classify(ua).kind == Unknown && !IsNullOrWhiteSpace(ua) ==>
      var name := Classify(ua).detectedClient.value;
      && (|ua.value| <= UnknownNameLimit ==> name == ua.value)
      && (|ua.value| > UnknownNameLimit ==>
            |name| == UnknownNameLimit + 3 && name[..UnknownNameLimit] == ua.value[..UnknownNameLimit]
            && name[UnknownNameLimit..] == "...")
  {
    if !IsNullOrWhiteSpace(ua) {
      var r := FindCategory(ua.value, 0);
      if r.Some? {
        PatternsAreShort(r.value.rank, r.value.pattern);
        var p := UserAgentPatterns[r.value.rank].patterns[r.value.pattern];
        assert p in UserAgentPatterns[r.value.rank].patterns;
      }
    }
  }

  /** "facebookexternalhit" is listed under SearchBot first, so it is never SocialBot. */
  lemma FacebookIsSearchBot(ua: string)
    requires ContainsIgnoreCase(ua, "facebookexternalhit")
    ensures Classify(Some(ua)).kind == SearchBot
  {
    LetterIsNotBlank(ua, "facebookexternalhit");
    assert "facebookexternalhit" in UserAgentPatterns[0].patterns;
    CategoryDecides(ua, 0);
  }

  /** Any input containing "bot" is classified as some kind of automated client. */
  lemma BotIsNeverHuman(ua: string)
    requires ContainsIgnoreCase(ua, "bot")
    ensures Classify(Some(ua)).kind != Human && Classify(Some(ua)).kind != Unknown
  {
    LetterIsNotBlank(ua, "bot");
    assert "bot" in UserAgentPatterns[5].patterns;
    assert CategoryHits(ua, UserAgentPatterns[5]);
    HumanIff(Some(ua));
    UnknownIff(Some(ua));
  }

  // ---------------------------------------------------------------------------
  // Browser name priority
  // ---------------------------------------------------------------------------

  predicate IsFirstApplicableRule(ua: string, k: nat) {
    && k < |BrowserRules|
    && RuleApplies(ua, BrowserRules[k])
    && forall j :: 0 <= j < k ==> !RuleApplies(ua, BrowserRules[j])
  }

  /** The if-chain of `ExtractBrowserName` picks the first applicable rule. */
  lemma BrowserNameFollowsRules(ua: string)
    ensures forall k: nat :: IsFirstApplicableRule(ua, k) ==> ExtractBrowserName(ua) == BrowserRules[k].name
    ensures (forall k :: 0 <= k < |BrowserRules| ==> !RuleApplies(ua, BrowserRules[k])) ==>
      ExtractBrowserName(ua) == "Browser"
  {
    forall k: nat | IsFirstApplicableRule(ua, k)
      ensures ExtractBrowserName(ua) == BrowserRules[k].name
    {
      if k > 0 { assert !RuleApplies(ua, BrowserRules[0]); }
      if k > 1 { assert !RuleApplies(ua, BrowserRules[1]); }
      if k > 2 { assert !RuleApplies(ua, BrowserRules[2]); }
      if k > 3 { assert !RuleApplies(ua, BrowserRules[3]); }
    }
    if forall k :: 0 <= k < |BrowserRules| ==> !RuleApplies(ua, BrowserRules[k]) {
      assert !RuleApplies(ua, BrowserRules[0]);
      assert !RuleApplies(ua, BrowserRules[1]);
      assert !RuleApplies(ua, BrowserRules[2]);
      assert !RuleApplies(ua, BrowserRules[3]);
      assert !RuleApplies(ua, BrowserRules[4]);
    }
  }

  /**
   * On a category hit, when a client-table key also occurs, the category
   * gives the type and the first such key gives the name.
   */
  lemma CategoryWithClientKey(ua: string, k: nat, j: nat)
    requires !IsNullOrWhiteSpace(Some(ua))
    requires IsFirstHitCategory(ua, k)
    requires IsFirstClientKey(ua, j)
    ensures Classify(Some(ua)) == Classification(UserAgentPatterns[k].kind, Some(CommonClients[j].1))
  {
    FindCategoryStopsAtFirstHit(ua, k);
    var f := FirstClientKey(ua);
    assert f == j;
  }

  /** With no category hit, a browser signature makes the input a human browser. */
  lemma BrowserWithoutCategory(ua: string)
    requires !IsNullOrWhiteSpace(Some(ua))
    requires FindCategory(ua, 0).None?
    requires LooksLikeBrowser(ua)
    ensures Classify(Some(ua)) == Classification(Human, Some(ExtractBrowserName(ua)))
  {
  }

  /** `Product/` followed by a digit or a dot is a match of the versioned pattern. */
  lemma VersionedSignature(ua: string, product: string, i: nat)
    requires MatchesAt(ua, product, i)
    requires i + |product| + 1 < |ua| && ua[i + |product|] == '/' && IsDigitOrDot(ua[i + |product| + 1])
    ensures SignatureAt(ua, Versioned(product), i)
  {
    var q := product + "/";
    assert forall k :: 0 <= k < |q| ==> FoldCase(ua[i..i + |q|][k]) == FoldCase(q[k]) by {
      forall k | 0 <= k < |q| ensures FoldCase(ua[i..i + |q|][k]) == FoldCase(q[k]) {
        if k < |product| {
          assert ua[i..i + |q|][k] == ua[i..i + |product|][k];
        }
      }
    }
  }

  // ---------------------------------------------------------------------------
  // Worked examples
  // ---------------------------------------------------------------------------

  /** No pattern of category `c` occurs when each has a letter the input's alphabet lacks. */
  lemma NoPatternOccurs(ua: string, alphabet: set<char>, c: Category, at: seq<nat>)
    requires OverAlphabet(ua, alphabet)
    requires |at| == |c.patterns|
    requires forall m :: 0 <= m < |at| ==> LetterOutside(alphabet, c.patterns[m], at[m])
    ensures !CategoryHits(ua, c)
  {
    forall p | p in c.patterns
      ensures !ContainsIgnoreCase(ua, p)
    {
      var m :| 0 <= m < |c.patterns| && c.patterns[m] == p;
      AbsentLetter(ua, alphabet, p, at[m]);
    }
  }

  /** A desktop Chrome signature with no bot, tool or scanner marker. */
  const ChromeAgent := "Mozilla/5.0 Chrome/120.0 Safari/537.36"

  /** The characters `ChromeAgent` is made of. */
  const ChromeAlphabet := {'M', 'o', 'z', 'i', 'l', 'a', '/', '5', '.', '0', ' ', 'C', 'h', 'r', 'm', 'e',
                           '1', '2', 'S', 'f', '3', '7', '6'}

  lemma ChromeAlphabetCovers()
    ensures OverAlphabet(ChromeAgent, ChromeAlphabet)
  {
  }

  lemma ChromeMisses0()
    ensures !CategoryHits(ChromeAgent, UserAgentPatterns[0])
  {
    ChromeAlphabetCovers();
    NoPatternOccurs(ChromeAgent, ChromeAlphabet, UserAgentPatterns[0], [0, 0, 2, 0, 0, 0, 4, 1, 3]);
  }

  lemma ChromeMisses1()
    ensures !CategoryHits(ChromeAgent, UserAgentPatterns[1])
  {
    ChromeAlphabetCovers();
    NoPatternOccurs(ChromeAgent, ChromeAlphabet, UserAgentPatterns[1], [4, 0, 2, 0, 0, 0]);
  }

  lemma ChromeMisses2()
    ensures !CategoryHits(ChromeAgent, UserAgentPatterns[2])
  {
    ChromeAlphabetCovers();
    NoPatternOccurs(ChromeAgent, ChromeAlphabet, UserAgentPatterns[2], [1, 0, 1, 0, 1, 0, 0, 3, 1, 0, 0, 1]);
  }

  lemma ChromeMisses3()
    ensures !CategoryHits(ChromeAgent, UserAgentPatterns[3])
  {
    ChromeAlphabetCovers();
    NoPatternOccurs(ChromeAgent, ChromeAlphabet, UserAgentPatterns[3], [0, 0, 1, 2, 2, 0]);
  }

  lemma ChromeMisses4()
    ensures !CategoryHits(ChromeAgent, UserAgentPatterns[4])
  {
    ChromeAlphabetCovers();
    NoPatternOccurs(ChromeAgent, ChromeAlphabet, UserAgentPatterns[4], [0, 1, 0, 0, 1, 0, 3]);
  }

  lemma ChromeMisses5()
    ensures !CategoryHits(ChromeAgent, UserAgentPatterns[5])
  {
    ChromeAlphabetCovers();
    NoPatternOccurs(ChromeAgent, ChromeAlphabet, UserAgentPatterns[5], [4, 0, 4, 0, 3, 0]);
  }

  lemma ChromeHasNoCategory()
    ensures FindCategory(ChromeAgent, 0).None?
  {
    ChromeMisses0(); ChromeMisses1(); ChromeMisses2(); ChromeMisses3(); ChromeMisses4(); ChromeMisses5();
  }

  lemma ChromeAt12()
    ensures MatchesAt(ChromeAgent, "Chrome", 12)
  {
    assert ChromeAgent[12] == 'C' && ChromeAgent[13] == 'h' && ChromeAgent[14] == 'r' && ChromeAgent[15] == 'o';
    assert ChromeAgent[16] == 'm' && ChromeAgent[17] == 'e';
  }

  lemma ChromeIsBrowser()
    ensures LooksLikeBrowser(ChromeAgent)
  {
    ChromeAt12();
    assert ChromeAgent[18] == '/' && ChromeAgent[19] == '1';
    VersionedSignature(ChromeAgent, "Chrome", 12);
    assert SignatureOccurs(ChromeAgent, BrowserPatterns[0]);
  }

  lemma ChromeBrowserName()
    ensures ExtractBrowserName(ChromeAgent) == "Chrome"
  {
    ChromeAt12();
    ChromeAlphabetCovers();
    AbsentLetter(ChromeAgent, ChromeAlphabet, "Chromium", 6);
  }

  /** A typical desktop Chrome signature is a human browser named "Chrome". */
  lemma ChromeExample()
    ensures Classify(Some(ChromeAgent)) == Classification(Human, Some("Chrome"))
  {
    ChromeHasNoCategory();
    ChromeIsBrowser();
    ChromeBrowserName();
    ChromeAt12();
    LetterIsNotBlank(ChromeAgent, "Chrome");
    BrowserWithoutCategory(ChromeAgent);
  }

  /** Google's crawler signature. */
  const GooglebotAgent := "Googlebot/2.1"

  /** The characters `GooglebotAgent` is made of. */
  const GooglebotAlphabet := {'G', 'o', 'g', 'l', 'e', 'b', 't', '/', '2', '.', '1'}

  lemma GooglebotContainsGooglebot()
    ensures ContainsIgnoreCase(GooglebotAgent, "Googlebot")
  {
    assert MatchesAt(GooglebotAgent, "Googlebot", 0) by {
      assert GooglebotAgent[0] == 'G' && GooglebotAgent[1] == 'o' && GooglebotAgent[2] == 'o';
      assert GooglebotAgent[3] == 'g' && GooglebotAgent[4] == 'l' && GooglebotAgent[5] == 'e';
      assert GooglebotAgent[6] == 'b' && GooglebotAgent[7] == 'o' && GooglebotAgent[8] == 't';
    }
  }

  lemma GooglebotHitsSearchBots()
    ensures IsFirstHitCategory(GooglebotAgent, 0)
  {
    GooglebotContainsGooglebot();
    assert "Googlebot" in UserAgentPatterns[0].patterns;
  }

  lemma GooglebotAlphabetCovers()
    ensures OverAlphabet(GooglebotAgent, GooglebotAlphabet)
  {
  }

  lemma GooglebotMissesTools()
    ensures forall i :: 0 <= i < 4 ==> !ContainsIgnoreCase(GooglebotAgent, CommonClients[i].0)
  {
    GooglebotAlphabetCovers();
    AbsentLetter(GooglebotAgent, GooglebotAlphabet, "Insomnia", 0);
    AbsentLetter(GooglebotAgent, GooglebotAlphabet, "Postman", 0);
    AbsentLetter(GooglebotAgent, GooglebotAlphabet, "curl", 0);
    AbsentLetter(GooglebotAgent, GooglebotAlphabet, "wget", 0);
  }

  lemma GooglebotClientKey()
    ensures IsFirstClientKey(GooglebotAgent, 4)
  {
    GooglebotMissesTools();
    GooglebotContainsGooglebot();
  }

  /** Googlebot is a search bot, and its name comes from the client table. */
  lemma GooglebotExample()
    ensures Classify(Some(GooglebotAgent)) == Classification(SearchBot, Some("Google Bot"))
  {
    GooglebotHitsSearchBots();
    GooglebotContainsGooglebot();
    LetterIsNotBlank(GooglebotAgent, "Googlebot");
    GooglebotClientKey();
    CategoryWithClientKey(GooglebotAgent, 0, 4);
  }

  /** A curl signature. */
  const CurlAgent := "curl/7.68.0"

  /** The characters `CurlAgent` is made of. */
  const CurlAlphabet := {'c', 'u', 'r', 'l', '/', '7', '.', '6', '8', '0'}

  lemma CurlMisses0()
    ensures !CategoryHits(CurlAgent, UserAgentPatterns[0])
  {
    assert OverAlphabet(CurlAgent, CurlAlphabet);
    NoPatternOccurs(CurlAgent, CurlAlphabet, UserAgentPatterns[0], [0, 0, 0, 0, 0, 0, 0, 0, 2]);
  }

  lemma CurlMisses1()
    ensures !CategoryHits(CurlAgent, UserAgentPatterns[1])
  {
    assert OverAlphabet(CurlAgent, CurlAlphabet);
    NoPatternOccurs(CurlAgent, CurlAlphabet, UserAgentPatterns[1], [0, 0, 1, 0, 0, 0]);
  }

  lemma CurlContainsCurl()
    ensures ContainsIgnoreCase(CurlAgent, "curl")
  {
    assert MatchesAt(CurlAgent, "curl", 0) by {
      assert CurlAgent[0] == 'c' && CurlAgent[1] == 'u' && CurlAgent[2] == 'r' && CurlAgent[3] == 'l';
    }
  }

  lemma CurlHitsApiTools()
    ensures IsFirstHitCategory(CurlAgent, 2)
  {
    CurlMisses0();
    CurlMisses1();
    CurlContainsCurl();
    assert "curl" in UserAgentPatterns[2].patterns;
  }

  lemma CurlClientKey()
    ensures IsFirstClientKey(CurlAgent, 2)
  {
    assert OverAlphabet(CurlAgent, CurlAlphabet);
    AbsentLetter(CurlAgent, CurlAlphabet, "Insomnia", 0);
    AbsentLetter(CurlAgent, CurlAlphabet, "Postman", 0);
    CurlContainsCurl();
  }

  /** curl is an API tool: the search bots and social bots miss, "curl" is the third tool pattern. */
  lemma CurlExample()
    ensures Classify(Some(CurlAgent)) == Classification(ApiTool, Some("cURL"))
  {
    CurlHitsApiTools();
    CurlContainsCurl();
    LetterIsNotBlank(CurlAgent, "curl");
    CurlClientKey();
    CategoryWithClientKey(CurlAgent, 2, 2);
  }
}
