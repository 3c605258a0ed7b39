/** The rate-limit policy table and the response chosen once a client is
    over its limit (server/middleware/limit.js). The counting itself belongs
    to the rate-limiting library and is not part of this module. */
module RateLimit {
  import opened Runtime

  /** The configuration handed to the rate-limiting library: at most `max`
      requests per fixed window of `windowMs` milliseconds, and the message
      sent with a 429 once the limit is exceeded. */
  datatype Policy = Policy(max: nat, windowMs: nat, message: string)

  const LoginMessage := "Please wait 3 minutes before trying again."
  const RateLimitMessage := "Rate limit exceeded. Please try again later."
  const BotMessage := "Do not allow bot requests"

  /** The route classes with a policy of their own; anything else gets the default. */
  const RouteClasses: set<string> := {"login", "get", "post", "delete", "put"}

  /** `limit(method)`: the policy for a route class. */
  function Limit(routeClass: string): (p: Policy)
    ensures p.max > 0 && p.windowMs > 0
    ensures p.message == LoginMessage <==> routeClass == "login"
    ensures p.message != LoginMessage ==> p.message == RateLimitMessage
    ensures routeClass !in RouteClasses ==> p.max == 25 && p.windowMs == 900000
  {
    match routeClass
    case "login" => Policy(3, 3 * 60 * 1000, LoginMessage)
    case "get" => Policy(25, 15 * 60 * 1000, RateLimitMessage)
    case "post" => Policy(45, 15 * 60 * 1000, RateLimitMessage)
    case "delete" => Policy(10, 10 * 60 * 1000, RateLimitMessage)
    case "put" => Policy(45, 15 * 60 * 1000, RateLimitMessage)
    case _ => Policy(25, 15 * 60 * 1000, RateLimitMessage)
  }

  /** The configuration table, entry by entry. */
  lemma PolicyTable()
    ensures Limit("login") == Policy(3, 180000, LoginMessage)
    ensures Limit("get") == Policy(25, 900000, RateLimitMessage)
    ensures Limit("post") == Policy(45, 900000, RateLimitMessage)
    ensures Limit("put") == Policy(45, 900000, RateLimitMessage)
    ensures Limit("delete") == Policy(10, 600000, RateLimitMessage)
  {
  }

  /** An unknown route class is limited exactly like `get`. */
  lemma DefaultIsGet(routeClass: string)
    requires routeClass !in RouteClasses
    ensures Limit(routeClass) == Limit("get")
  {
  }

  // ---------------------------------------------------------------------
  // Bot signatures and the case-insensitive pattern test
  // ---------------------------------------------------------------------

  /** `botsUserAgents`, in source order and with its duplicates, one display
      per source line. Each entry is the source of a regular expression
      compiled with the flag "i"; all of them use only literal characters,
      `.`, `\s` and `\+`. */
  const BotsUserAgents: seq<string> :=
    ["Prerender", "Googlebot", "Google\\+", "bingbot", "Googlebot-Mobile"]
    + ["seochat", "SemrushBot", "SemrushBot-SA", "Bot", "SEOChat", "Baiduspider"]
    + ["Yahoo", "YahooSeeker", "DoCoMo", "Twitterbot", "TweetmemeBot", "Twikle"]
    + ["Netseer", "Daumoa", "SeznamBot", "Ezooms", "MSNBot", "Exabot", "MJ12bot"]
    + ["sogou\\sspider", "YandexBot", "bitlybot", "ia_archiver", "proximic", "spbot"]
    + ["ChangeDetection", "NaverBot", "MetaJobBot", "magpie-crawler", "Genieo\\sWeb\\sfilter"]
    + ["Qualidator.com\\sBot", "Woko", "Vagabondo", "360Spider", "ExB\\sLanguage\\sCrawler"]
    + ["AddThis.com", "aiHitBot", "Spinn3r", "BingPreview", "GrapeshotCrawler", "CareerBot"]
    + ["ZumBot", "ShopWiki", "bixocrawler", "uMBot", "sistrix", "linkdexbot", "AhrefsBot"]
    + ["archive.org_bot", "SeoCheckBot", "TurnitinBot", "VoilaBot", "SearchmetricsBot"]
    + ["Butterfly", "Yahoo!", "Plukkie", "yacybot", "trendictionbot", "UASlinkChecker"]
    + ["Blekkobot", "Wotbox", "YioopBot", "meanpathbot", "TinEye", "LuminateBot", "FyberSpider"]
    + ["Infohelfer", "linkdex.com", "Curious\\sGeorge", "Fetch-Guess", "ichiro", "MojeekBot"]
    + ["SBSearch", "WebThumbnail", "socialbm_bot", "SemrushBot", "Vedma", "alexa\\ssite\\saudit"]
    + ["SEOkicks-Robot", "Browsershots", "BLEXBot", "woriobot", "AMZNKAssocBot", "Speedy", "oBot"]
    + ["HostTracker", "OpenWebSpider", "WBSearchBot", "FacebookExternalHit", "Google-Structured-Data-Testing-Tool"]
    + ["baiduspider", "facebookexternalhit", "twitterbot", "rogerbot", "linkedinbot", "embedly"]
    + ["quora\\slink\\spreview", "showyoubot", "outbrain", "pinterest", "slackbot", "vkShare"]
    + ["W3C_Validator"]

  /** The list as written: 108 entries, from "Prerender" to "W3C_Validator",
      with the plain "Bot" ninth. */
  lemma SignatureList()
    ensures |BotsUserAgents| == 108
    ensures BotsUserAgents[0] == "Prerender" && BotsUserAgents[8] == "Bot"
    ensures BotsUserAgents[107] == "W3C_Validator"
  {
  }

  /** One position of a pattern in the fragment of regular expressions the
      signatures use: a literal character, `.` or `\s`. */
  datatype Atom = Lit(c: char) | AnyChar | Space

  /** Characters with a meaning of their own in a regular expression. */
  predicate Special(c: char) {
    || c == '^' || c == '$' || c == '\\' || c == '.' || c == '*' || c == '+' || c == '?'
    || c == '(' || c == ')' || c == '[' || c == ']' || c == '{' || c == '}' || c == '|'
  }

  /** Reads a pattern as a sequence of atoms: `\s` is whitespace, `\c` for
      any other c is the literal c (the identity escape `\+`), `.` is any
      character but a line terminator, and every other character stands for
      itself. On patterns built from literal characters, `.`, `\s` and `\+`
      this is the pattern's meaning; on any other pattern it is not. Each
      atom comes from one or two characters of the pattern, and only a `.`
      gives an unrestricted atom and only a `\s` a whitespace atom. */
  function Compile(p: string): (r: seq<Atom>)
    decreases |p|
    ensures |r| <= |p| <= 2 * |r|
    ensures (forall k :: 0 <= k < |p| ==> p[k] != '\\') ==> |r| == |p|
    ensures AnyChar in r ==> '.' in p
    ensures Space in r ==> exists k :: 0 <= k < |p| - 1 && p[k] == '\\' && p[k + 1] == 's'
  {
    if p == [] then []
    else if p[0] == '\\' && |p| >= 2 then
      var rest := Compile(p[2..]);
      assert AnyChar in rest ==> '.' in p by {
        if AnyChar in rest {
          var k :| 0 <= k < |p[2..]| && p[2..][k] == '.';
          assert p[k + 2] == '.';
        }
      }
      assert Space in rest ==> exists k :: 0 <= k < |p| - 1 && p[k] == '\\' && p[k + 1] == 's' by {
        if Space in rest {
          var k :| 0 <= k < |p[2..]| - 1 && p[2..][k] == '\\' && p[2..][k + 1] == 's';
          assert p[k + 2] == '\\' && p[k + 3] == 's';
        }
      }
      [if p[1] == 's' then Space else Lit(p[1])] + rest
    else
      var rest := Compile(p[1..]);
      assert (forall k :: 0 <= k < |p| ==> p[k] != '\\') ==> |rest| == |p| - 1 by {
        if forall k :: 0 <= k < |p| ==> p[k] != '\\' {
          forall k | 0 <= k < |p[1..]| ensures p[1..][k] != '\\' { assert p[1..][k] == p[k + 1]; }
        }
      }
      assert AnyChar in rest ==> '.' in p by {
        if AnyChar in rest {
          var k :| 0 <= k < |p[1..]| && p[1..][k] == '.';
          assert p[k + 1] == '.';
        }
      }
      assert Space in rest ==> exists k :: 0 <= k < |p| - 1 && p[k] == '\\' && p[k + 1] == 's' by {
        if Space in rest {
          var k :| 0 <= k < |p[1..]| - 1 && p[1..][k] == '\\' && p[1..][k + 1] == 's';
          assert p[k + 1] == '\\' && p[k + 2] == 's';
        }
      }
      [if p[0] == '.' then AnyChar else Lit(p[0])] + rest
  }

  /** Case folding of the regular-expression engine without the "u" flag,
      restricted to ASCII letters; a character outside ASCII never folds to
      an ASCII one, so for the ASCII signatures this folding is exact. */
  function Canon(c: char): (r: char)
    ensures !('a' <= r <= 'z')
    ensures r == c || ('a' <= c <= 'z' && r as int == c as int - 32)
  {
    if 'a' <= c <= 'z' then (c as int - 32) as char else c
  }

  /** Two characters are the same letter in either case, or the same character. */
  predicate SameIgnoringCase(x: char, y: char) {
    || x == y
    || ('A' <= x <= 'Z' && y as int == x as int + 32)
    || ('A' <= y <= 'Z' && x as int == y as int + 32)
  }

  predicate LineTerminator(c: char) {
    c == '\n' || c == '\r' || c == '\U{2028}' || c == '\U{2029}'
  }

  /** The characters `\s` matches: white space and line terminators. */
  predicate WhiteSpace(c: char) {
    c == '\t' || c == '\n' || c == '\U{B}' || c == '\U{C}' || c == '\r' || c == ' '
    || c == '\U{A0}' || c == '\U{1680}' || ('\U{2000}' <= c <= '\U{200A}')
    || c == '\U{2028}' || c == '\U{2029}' || c == '\U{202F}' || c == '\U{205F}'
    || c == '\U{3000}' || c == '\U{FEFF}'
  }

  /** One atom against one input character: a literal ignores letter case
      (the flag "i"), `\s` takes in the line terminators that `.` leaves out. */
  function AtomMatches(a: Atom, c: char): (r: bool)
    ensures a.Lit? ==> (r <==> SameIgnoringCase(a.c, c))
    ensures a.Space? && LineTerminator(c) ==> r
    ensures a.AnyChar? && LineTerminator(c) ==> !r
  {
    match a
    case Lit(l) => Canon(c) == Canon(l)
    case AnyChar => !LineTerminator(c)
    case Space => WhiteSpace(c)
  }

  /** The atoms match the input starting at position i. */
  predicate MatchesAt(atoms: seq<Atom>, s: string, i: nat) {
    i + |atoms| <= |s| && forall k :: 0 <= k < |atoms| ==> AtomMatches(atoms[k], s[i + k])
  }

  /** The atoms match somewhere in the input (a regular-expression `test`). */
  ghost predicate Occurs(atoms: seq<Atom>, s: string) {
    exists i: nat :: MatchesAt(atoms, s, i)
  }

  /** Matches the atoms one by one from position i. */
  function MatchHere(atoms: seq<Atom>, s: string, i: nat): (r: bool)
    decreases |atoms|
    ensures r <==> MatchesAt(atoms, s, i)
  {
    if atoms == [] then i <= |s|
    else
      var rest := MatchHere(atoms[1..], s, i + 1);
      assert MatchesAt(atoms, s, i) <==> i < |s| && AtomMatches(atoms[0], s[i]) && MatchesAt(atoms[1..], s, i + 1) by {
        if i < |s| && AtomMatches(atoms[0], s[i]) && MatchesAt(atoms[1..], s, i + 1) {
          forall k | 0 <= k < |atoms| ensures AtomMatches(atoms[k], s[i + k]) {
            if k > 0 { assert atoms[1..][k - 1] == atoms[k]; }
          }
        }
        if MatchesAt(atoms, s, i) {
          forall k | 0 <= k < |atoms[1..]| ensures AtomMatches(atoms[1..][k], s[i + 1 + k]) {
            assert atoms[1..][k] == atoms[k + 1];
          }
        }
      }
      i < |s| && AtomMatches(atoms[0], s[i]) && rest
  }

  /** Tries every start position from i on. */
  function SearchFrom(atoms: seq<Atom>, s: string, i: nat): (r: bool)
    decreases |s| - i
    ensures r <==> exists j: nat :: i <= j && MatchesAt(atoms, s, j)
  {
    if i > |s| then false
    else MatchHere(atoms, s, i) || SearchFrom(atoms, s, i + 1)
  }

  /** `new RegExp(pattern, "i").test(s)` for a pattern in the fragment. */
  function Test(pattern: string, s: string): (r: bool)
    ensures r <==> Occurs(Compile(pattern), s)
  {
    SearchFrom(Compile(pattern), s, 0)
  }

  /** The User-Agent matches at least one signature. */
  ghost predicate MatchesSomeSignature(ua: string) {
    exists k :: 0 <= k < |BotsUserAgents| && Occurs(Compile(BotsUserAgents[k]), ua)
  }

  /** `patterns.some((bot) => new RegExp(bot, "i").test(ua))`. */
  function AnyMatch(patterns: seq<string>, ua: string): (r: bool)
    ensures r <==> exists k :: 0 <= k < |patterns| && Occurs(Compile(patterns[k]), ua)
  {
    if patterns == [] then false
    else
      var rest := AnyMatch(patterns[1..], ua);
      assert rest <==> exists k :: 1 <= k < |patterns| && Occurs(Compile(patterns[k]), ua) by {
        if rest {
          var k :| 0 <= k < |patterns[1..]| && Occurs(Compile(patterns[1..][k]), ua);
          assert patterns[1..][k] == patterns[k + 1];
        }
        if exists k :: 1 <= k < |patterns| && Occurs(Compile(patterns[k]), ua) {
          var k :| 1 <= k < |patterns| && Occurs(Compile(patterns[k]), ua);
          assert patterns[1..][k - 1] == patterns[k];
        }
      }
      Test(patterns[0], ua) || rest
  }

  /** The bot test of the over-limit handler. */
  function IsBot(ua: string): (r: bool)
    ensures r <==> MatchesSomeSignature(ua)
  {
    AnyMatch(BotsUserAgents, ua)
  }

  // ---------------------------------------------------------------------
  // Literal signatures are case-insensitive substrings
  // ---------------------------------------------------------------------

  /** A pattern without any special character. */
  predicate Literal(p: string) {
    forall k :: 0 <= k < |p| ==> !Special(p[k])
  }

  /** w occurs in s at position i, ignoring the case of ASCII letters. */
  predicate FoldedAt(s: string, w: string, i: nat) {
    i + |w| <= |s| && forall k :: 0 <= k < |w| ==> Canon(s[i + k]) == Canon(w[k])
  }

  ghost predicate ContainsFolded(s: string, w: string) {
    exists i: nat :: FoldedAt(s, w, i)
  }

  lemma {:induction false} CompileLiteral(p: string)
    requires Literal(p)
    ensures |Compile(p)| == |p|
    ensures forall k :: 0 <= k < |p| ==> Compile(p)[k] == Lit(p[k])
    decreases |p|
  {
    if p != [] {
      assert Literal(p[1..]) by {
        forall k | 0 <= k < |p[1..]| ensures !Special(p[1..][k]) {
          assert p[1..][k] == p[k + 1];
        }
      }
      CompileLiteral(p[1..]);
      assert !Special(p[0]);
      assert Compile(p) == [Lit(p[0])] + Compile(p[1..]);
    }
  }

  /** A literal signature matches exactly the User-Agents that contain it in some letter case. */
  lemma LiteralPatternTest(p: string, s: string)
    requires Literal(p)
    ensures Test(p, s) <==> ContainsFolded(s, p)
  {
    CompileLiteral(p);
    forall i: nat ensures MatchesAt(Compile(p), s, i) <==> FoldedAt(s, p, i) {
    }
    if Test(p, s) {
      var i: nat :| MatchesAt(Compile(p), s, i);
      assert FoldedAt(s, p, i);
    }
    if ContainsFolded(s, p) {
      var i: nat :| FoldedAt(s, p, i);
      assert MatchesAt(Compile(p), s, i);
    }
  }

  /** Because "Bot" is in the list, any User-Agent containing "bot" in any letter case is a bot. */
  lemma BotKeyword(ua: string)
    requires ContainsFolded(ua, "bot")
    ensures IsBot(ua)
  {
    var i: nat :| FoldedAt(ua, "bot", i);
    assert BotsUserAgents[8] == "Bot";
    LiteralPatternTest("Bot", ua);
    forall k | 0 <= k < 3 ensures Canon(ua[i + k]) == Canon("Bot"[k]) {
      assert Canon(ua[i + k]) == Canon("bot"[k]);
    }
    assert FoldedAt(ua, "Bot", i);
    assert Occurs(Compile(BotsUserAgents[8]), ua);
  }

  // ---------------------------------------------------------------------
  // The over-limit handler
  // ---------------------------------------------------------------------

  /** The `handler` that runs once the limit is exceeded. `userAgent` is the
      header as `req.get("User-Agent")` returns it. It always writes a
      response and never passes the request on. */
  function RateLimitHandler(policy: Policy, userAgent: Option<string>): (r: Outcome)
    ensures r.Respond? && (r.status == 403 || r.status == 429)
    ensures r.status == 403 <==> userAgent.Some? && userAgent.value != "" && MatchesSomeSignature(userAgent.value)
    ensures r.status == 403 ==> r.message == BotMessage
    ensures r.status == 429 ==> r.message == policy.message
  {
    if userAgent.Some? && userAgent.value != "" && IsBot(userAgent.value) then
      Respond(403, BotMessage)
    else
      Respond(429, policy.message)
  }

  /** A User-Agent naming a bot in any letter case is refused with 403 rather than 429. */
  lemma BotUserAgentForbidden(policy: Policy, ua: string)
    requires ContainsFolded(ua, "bot")
    ensures RateLimitHandler(policy, Some(ua)) == Respond(403, BotMessage)
  {
    BotKeyword(ua);
  }

  /** Without a User-Agent the client is told to slow down, with the policy's own message. */
  lemma NoUserAgentTooMany(policy: Policy)
    ensures RateLimitHandler(policy, None) == Respond(429, policy.message)
  {
  }
}
