/**
 * The configuration pieces of the production scanner
 * (core/production_scanner.py): platform configuration defaults and their
 * normalisation, the per-platform content validators, the result records
 * and the scanner's initial state.
 */
module ProductionScanning {
  import opened Wrappers
  import opened PyStr

  datatype ScanStatus = Found | NotFound | ErrorStatus | Blocked | RateLimited | TimedOut {
    function Value(): string {
      match this
      case Found => "found"
      case NotFound => "not_found"
      case ErrorStatus => "error"
      case Blocked => "blocked"
      case RateLimited => "rate_limited"
      case TimedOut => "timeout"
    }
  }

  datatype PlatformCategory = SocialMedia | Developer | ContentCategory | Messaging | Professional | Other {
    function Value(): string {
      match this
      case SocialMedia => "social_media"
      case Developer => "developer"
      case ContentCategory => "content"
      case Messaging => "messaging"
      case Professional => "professional"
      case Other => "other"
    }
  }

  // ------------------------------------------------------------------
  // Content validators
  // ------------------------------------------------------------------

  /** The five content validators, `validate_github` .. `validate_facebook`. */
  datatype ContentValidator = GithubValidator | TwitterValidator | InstagramValidator
                            | TiktokValidator | FacebookValidator
  {
    /** The text a platform shows on its "no such profile" page. */
    function Marker(): string {
      match this
      case GithubValidator => "Page not found"
      case TwitterValidator => "This account doesn't exist"
      case InstagramValidator => "The link you followed may be broken"
      case TiktokValidator => "Couldn't find this account"
      case FacebookValidator => "Log in to Facebook"
    }

    /** The page is taken as a profile when it lacks the marker and is
        longer than 100 characters. */
    predicate Accepts(content: string) {
      !Contains(content, Marker()) && |content| > 100
    }
  }

  /** `CUSTOM_VALIDATORS`. */
  const CustomValidators: map<string, ContentValidator> := map[
    "github" := GithubValidator,
    "twitter" := TwitterValidator,
    "instagram" := InstagramValidator,
    "tiktok" := TiktokValidator,
    "facebook" := FacebookValidator]

  /** The table has exactly the five platform keys, each with its own validator. */
  lemma CustomValidatorsKeys()
    ensures CustomValidators.Keys == {"github", "twitter", "instagram", "tiktok", "facebook"}
    ensures CustomValidators["github"].Marker() == "Page not found"
    ensures CustomValidators["facebook"].Marker() == "Log in to Facebook"
  {
  }

  /** A page with the marker, or at most 100 characters long, is rejected by
      every validator in the table. */
  lemma ValidatorsRejectShortOrMarked(key: string, content: string)
    requires key in CustomValidators
    requires |content| <= 100 || Contains(content, CustomValidators[key].Marker())
    ensures !CustomValidators[key].Accepts(content)
  {
  }

  // ------------------------------------------------------------------
  // PlatformConfig
  // ------------------------------------------------------------------

  /** A platform's configuration; the constructor runs `__post_init__`. */
  class PlatformConfig {
    var name: string
    var urlTemplate: string
    var category: PlatformCategory
    var checkMethod: string
    var validCodes: seq<int>
    var notFoundCodes: seq<int>
    var blockedCodes: seq<int>
    var timeout: real
    var customValidator: Option<ContentValidator>
    var maxRetries: int

    constructor (name: string, urlTemplate: string, category: PlatformCategory,
                 checkMethod: string := "status_code",
                 validCodes: seq<int> := [200], notFoundCodes: seq<int> := [404],
                 blockedCodes: seq<int> := [403], timeout: real := 10.0,
                 customValidator: Option<ContentValidator> := None, maxRetries: int := 2)
      ensures this.name == name && this.urlTemplate == urlTemplate && this.category == category
      ensures this.checkMethod == checkMethod && this.blockedCodes == blockedCodes
      ensures this.timeout == timeout && this.customValidator == customValidator
      ensures this.maxRetries == maxRetries
      ensures this.validCodes == if validCodes == [] then [200] else validCodes
      ensures this.notFoundCodes == if notFoundCodes == [] then [404] else notFoundCodes
      ensures this.validCodes != [] && this.notFoundCodes != []
    {
      this.name := name;
      this.urlTemplate := urlTemplate;
      this.category := category;
      this.checkMethod := checkMethod;
      this.validCodes := validCodes;
      this.notFoundCodes := notFoundCodes;
      this.blockedCodes := blockedCodes;
      this.timeout := timeout;
      this.customValidator := customValidator;
      this.maxRetries := maxRetries;
      new;
      PostInit();
    }

    /** `__post_init__`: an empty code list falls back to its default;
        the blocked codes are left as given. */
    method PostInit()
      modifies this
      ensures validCodes == if old(validCodes) == [] then [200] else old(validCodes)
      ensures notFoundCodes == if old(notFoundCodes) == [] then [404] else old(notFoundCodes)
      ensures validCodes != [] && notFoundCodes != []
      ensures name == old(name) && urlTemplate == old(urlTemplate) && category == old(category)
      ensures checkMethod == old(checkMethod) && blockedCodes == old(blockedCodes)
      ensures timeout == old(timeout) && customValidator == old(customValidator)
      ensures maxRetries == old(maxRetries)
    {
      if validCodes == [] {
        validCodes := [200];
      }
      if notFoundCodes == [] {
        notFoundCodes := [404];
      }
    }
  }

  /** A configuration built with only the required fields gets the defaults. */
  method DefaultPlatformConfig(name: string, urlTemplate: string, category: PlatformCategory)
    returns (c: PlatformConfig)
    ensures c.checkMethod == "status_code" && c.validCodes == [200] && c.notFoundCodes == [404]
    ensures c.blockedCodes == [403] && c.timeout == 10.0 && c.customValidator == None
    ensures c.maxRetries == 2
  {
    c := new PlatformConfig(name, urlTemplate, category);
  }

  // ------------------------------------------------------------------
  // Result records
  // ------------------------------------------------------------------

  datatype ScanResultDetail = ScanResultDetail(
    platform: string,
    platformId: string,
    url: string,
    status: string,
    statusCode: int,
    responseTime: real,
    found: bool,
    contentPreview: string,
    error: Option<string>,
    timestamp: string)

  /** `ScanResultDetail(platform, platform_id, url, status)` created at `now`. */
  function NewScanResultDetail(platform: string, platformId: string, url: string, status: string,
                               now: string): (d: ScanResultDetail)
    ensures d.platform == platform && d.platformId == platformId && d.url == url
    ensures d.status == status && d.timestamp == now
    ensures d.statusCode == 0 && d.responseTime == 0.0 && !d.found
    ensures d.contentPreview == "" && d.error == None
  {
    ScanResultDetail(platform, platformId, url, status, 0, 0.0, false, "", None, now)
  }

  /** A dictionary value as `asdict`/`to_dict` produce it. */
  datatype Field = FText(text: string) | FInt(i: int) | FReal(r: real) | FBool(b: bool) | FNone

  /** `ScanResultDetail.to_dict()`: `asdict`, one key per field. */
  function DetailToDict(d: ScanResultDetail): (m: map<string, Field>)
    ensures m.Keys == {"platform", "platform_id", "url", "status", "status_code",
                       "response_time", "found", "content_preview", "error", "timestamp"}
    ensures m["platform"] == FText(d.platform) && m["platform_id"] == FText(d.platformId)
    ensures m["url"] == FText(d.url) && m["status"] == FText(d.status)
    ensures m["status_code"] == FInt(d.statusCode) && m["response_time"] == FReal(d.responseTime)
    ensures m["found"] == FBool(d.found) && m["content_preview"] == FText(d.contentPreview)
    ensures m["error"] == (if d.error.Some? then FText(d.error.value) else FNone)
    ensures m["timestamp"] == FText(d.timestamp)
  {
    map["platform" := FText(d.platform), "platform_id" := FText(d.platformId),
        "url" := FText(d.url), "status" := FText(d.status),
        "status_code" := FInt(d.statusCode), "response_time" := FReal(d.responseTime),
        "found" := FBool(d.found), "content_preview" := FText(d.contentPreview),
        "error" := (match d.error case Some(e) => FText(e) case None => FNone),
        "timestamp" := FText(d.timestamp)]
  }

  /** The inverse of `DetailToDict`, as a reference for what the dictionary
      keeps: rebuilds a detail from a dictionary with the ten keys and values
      of the right kinds; `None` for any other dictionary. */
  function DetailFromDict(m: map<string, Field>): (r: Option<ScanResultDetail>)
    ensures r.Some? ==> m.Keys == DetailToDict(r.value).Keys
  {
    if m.Keys == {"platform", "platform_id", "url", "status", "status_code",
                  "response_time", "found", "content_preview", "error", "timestamp"} &&
       m["platform"].FText? && m["platform_id"].FText? && m["url"].FText? &&
       m["status"].FText? && m["status_code"].FInt? && m["response_time"].FReal? &&
       m["found"].FBool? && m["content_preview"].FText? && m["timestamp"].FText? &&
       (m["error"].FText? || m["error"].FNone?)
    then Some(ScanResultDetail(m["platform"].text, m["platform_id"].text, m["url"].text,
                               m["status"].text, m["status_code"].i, m["response_time"].r,
                               m["found"].b, m["content_preview"].text,
                               if m["error"].FText? then Some(m["error"].text) else None,
                               m["timestamp"].text))
    else None
  }

  /** The dictionary of a detail loses nothing: it gives the detail back. */
  lemma DetailDictRoundTrip(d: ScanResultDetail)
    ensures DetailFromDict(DetailToDict(d)) == Some(d)
  {
  }

  /** ...and a dictionary that is read back is the dictionary of what was read. */
  lemma DictDetailRoundTrip(m: map<string, Field>)
    requires DetailFromDict(m).Some?
    ensures DetailToDict(DetailFromDict(m).value) == m
  {
  }

  datatype UsernameSearchResult = UsernameSearchResult(
    username: string,
    timestamp: string,
    totalPlatforms: int,
    profilesFound: int,
    scanDuration: real,
    status: string,
    platforms: map<string, ScanResultDetail>,
    errors: seq<string>,
    statistics: map<string, Field>)

  /** `UsernameSearchResult(username)` created at `now`. */
  function NewUsernameSearchResult(username: string, now: string): (r: UsernameSearchResult)
    ensures r.username == username && r.timestamp == now && r.status == "pending"
    ensures r.totalPlatforms == 0 && r.profilesFound == 0 && r.scanDuration == 0.0
    ensures r.platforms == map[] && r.errors == [] && r.statistics == map[]
  {
    UsernameSearchResult(username, now, 0, 0, 0.0, "pending", map[], [], map[])
  }

  /** The `platforms` entry of `UsernameSearchResult.to_dict()`: the same
      keys, each detail turned into its dictionary. */
  function PlatformsToDict(r: UsernameSearchResult): (m: map<string, map<string, Field>>)
    ensures m.Keys == r.platforms.Keys
    ensures forall k :: k in m ==> m[k] == DetailToDict(r.platforms[k])
  {
    map k | k in r.platforms :: DetailToDict(r.platforms[k])
  }

  // ------------------------------------------------------------------
  // ProductionScanner
  // ------------------------------------------------------------------

  /** `ScannerConfig.USER_AGENTS`. */
  const UserAgents: seq<string> := [
    "Mozilla/5.0 (Windows NT 10.0; Win64; x64) AppleWebKit/537.36 (KHTML, like Gecko) Chrome/108.0.0.0 Safari/537.36",
    "Mozilla/5.0 (Macintosh; Intel Mac OS X 10_15_7) AppleWebKit/537.36 (KHTML, like Gecko) Chrome/108.0.0.0 Safari/537.36",
    "Mozilla/5.0 (Windows NT 10.0; Win64; x64; rv:109.0) Gecko/20100101 Firefox/108.0",
    "Mozilla/5.0 (Macintosh; Intel Mac OS X 10.15; rv:109.0) Gecko/20100101 Firefox/108.0",
    "Mozilla/5.0 (X11; Linux x86_64) AppleWebKit/537.36 (KHTML, like Gecko) Chrome/108.0.0.0 Safari/537.36",
    "Mozilla/5.0 (X11; Ubuntu; Linux x86_64; rv:109.0) Gecko/20100101 Firefox/108.0"]

  /** The scanner's state as its constructor leaves it (the platform table
      filled by `_init_platforms` is not part of this model). */
  class ProductionScanner {
    var maxConcurrent: int
    var timeout: real
    var proxyPool: seq<string>
    var userAgents: seq<string>
    var minDelay: real
    var maxDelay: real
    var platforms: map<string, PlatformConfig>
    var rateLimiters: map<string, real>
    var hasSession: bool
    var requestCount: int
    var totalRequests: int

    constructor (maxConcurrent: int := 10, timeout: real := 15.0,
                 proxyPool: Option<seq<string>> := None, userAgents: Option<seq<string>> := None,
                 minDelay: real := 0.5, maxDelay: real := 2.0)
      ensures this.maxConcurrent == maxConcurrent && this.timeout == timeout
      ensures this.minDelay == minDelay && this.maxDelay == maxDelay
      ensures this.proxyPool == proxyPool.GetOr([])
      ensures this.userAgents == if userAgents.None? || userAgents.value == [] then UserAgents
                                 else userAgents.value
      ensures |this.userAgents| >= 1
      ensures platforms == map[] && rateLimiters == map[] && !hasSession
      ensures requestCount == 0 && totalRequests == 0
    {
      this.maxConcurrent := maxConcurrent;
      this.timeout := timeout;
      this.proxyPool := if proxyPool.Some? && proxyPool.value != [] then proxyPool.value else [];
      this.userAgents := if userAgents.Some? && userAgents.value != [] then userAgents.value
                         else UserAgents;
      this.minDelay := minDelay;
      this.maxDelay := maxDelay;
      platforms := map[];
      rateLimiters := map[];
      hasSession := false;
      requestCount := 0;
      totalRequests := 0;
    }
  }
}
