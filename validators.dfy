/**
 * The input validators (core/validators.py). Every validator maps its input
 * to a `ValidationResult` holding the errors and warnings it found, in the
 * order the source appends them; the result is valid exactly when no error
 * was found. The regular expressions are modelled as predicates that say
 * directly which strings they match.
 */
module Validators {
  import opened Wrappers
  import opened PyStr

  datatype ValidationLevel = Strict | Moderate | Lenient {
    function Value(): string {
      match this
      case Strict => "strict"
      case Moderate => "moderate"
      case Lenient => "lenient"
    }
  }

  datatype ValidationType = UsernameType | UrlType | EmailType | DomainType | IpAddressType
                          | PortType | FilepathType | JsonType | PlatformIdType
                          | DatabaseQueryType | ScanTargetType
  {
    function Value(): string {
      match this
      case UsernameType => "username"
      case UrlType => "url"
      case EmailType => "email"
      case DomainType => "domain"
      case IpAddressType => "ip_address"
      case PortType => "port"
      case FilepathType => "filepath"
      case JsonType => "json"
      case PlatformIdType => "platform_id"
      case DatabaseQueryType => "database_query"
      case ScanTargetType => "scan_target"
    }
  }

  /** The `value` a result carries: the (normalised) text, or a port number. */
  datatype Value = Text(text: string) | Number(n: int)

  datatype ValidationResult = ValidationResult(
    isValid: bool,
    value: Value,
    errors: seq<string>,
    warnings: seq<string>,
    validationType: ValidationType)

  /** The message list a conditional `append` contributes. */
  function When(cond: bool, msg: string): (r: seq<string>)
    ensures r == [] <==> !cond
  {
    if cond then [msg] else []
  }

  /** A result for an input that was already rejected as empty. */
  function EmptyInput(input: string, msg: string, t: ValidationType): ValidationResult {
    ValidationResult(false, Text(input), [msg], [], t)
  }

  /** A result whose validity is that no error was found. */
  function Checked(v: Value, errors: seq<string>, warnings: seq<string>, t: ValidationType): ValidationResult {
    ValidationResult(errors == [], v, errors, warnings, t)
  }

  // The messages the validators append.
  const DomainDoubleDot := "Domain contains consecutive dots"
  const DomainEdgeDot := "Domain cannot start or end with dot"
  const DomainEmpty := "Domain cannot be empty"
  const DomainInvalid := "Invalid domain format"
  const DomainNoDot := "Domain must have at least one dot"
  const EmailAtCount := "Email must contain exactly one @ symbol"
  const EmailEmpty := "Email cannot be empty"
  const EmailInvalid := "Invalid email format"
  const EmailTooLong := "Email exceeds maximum length of 254 characters"
  const IpEmpty := "IP address cannot be empty"
  const IpInvalid := "Invalid IPv4 address format"
  const PlatformEmpty := "Platform ID cannot be empty"
  const PortNotInteger := "Port must be a valid integer"
  const PortTooHigh := "Port too high (max 65535)"
  const PortTooLow := "Port too low (min 1)"
  const QueryComment := "Query contains SQL comment syntax"
  const QueryEmpty := "Query cannot be empty"
  const QueryMultiple := "Query contains multiple statements"
  const TldTooShort := "TLD too short (min 2 chars)"
  const UrlEmpty := "URL cannot be empty"
  const UrlInvalid := "Invalid URL format"
  const UrlTooLong := "URL exceeds max length of 2048"
  const UsernameEmpty := "Username cannot be empty"
  const UsernameInvalidChars := "Username contains invalid characters. Use only letters, numbers, underscore, dash, dot"
  const UsernameReserved := "Username is a reserved/common name"
  const UsernameSpecialEnd := "Username ends with special character"
  const UsernameSpecialStart := "Username starts with special character"
  const UsernameTooLong := "Username too long (max 64 chars)"
  const UsernameTooShort := "Username too short (min 2 chars)"

  /** A letter or digit as the patterns compiled with `re.IGNORECASE` see
      `[a-zA-Z0-9]`: besides ASCII, case folding also admits dotted capital I
      (U+0130), dotless small i (U+0131), long s (U+017F) and the Kelvin
      sign (U+212A). */
  predicate FoldedAlnum(c: char) {
    IsAsciiAlnum(c) || c == '\U{0130}' || c == '\U{0131}' || c == '\U{017F}' || c == '\U{212A}'
  }

  /** One host label `[a-zA-Z0-9](?:[a-zA-Z0-9-]{0,61}[a-zA-Z0-9])?` under
      `re.IGNORECASE`: 1 to 63 characters, letters, digits and inner dashes. */
  predicate Label(l: string) {
    1 <= |l| <= 63 && FoldedAlnum(l[0]) && FoldedAlnum(l[|l| - 1]) &&
    forall k :: 0 < k < |l| - 1 ==> FoldedAlnum(l[k]) || l[k] == '-'
  }

  /** `(?:label\.)*label`: the dot-separated fields are all labels. */
  predicate HostName(h: string) {
    var fields := Split(h, '.');
    forall k :: 0 <= k < |fields| ==> Label(fields[k])
  }

  /** A host name has no empty field, so it neither starts nor ends with a
      dot and holds no two dots in a row. */
  lemma HostNameShape(h: string)
    requires HostName(h)
    ensures h != [] && h[0] != '.' && h[|h| - 1] != '.' && !Contains(h, "..")
  {
    var fields := Split(h, '.');
    assert !([] in fields) by {
      forall k | 0 <= k < |fields|
        ensures fields[k] != []
      {
        assert Label(fields[k]);
      }
    }
    if h == [] || h[0] == '.' || h[|h| - 1] == '.' || Contains(h, "..") {
      assert ".." == ['.', '.'];
      SplitEmptyField(h, '.');
    }
  }

  // ------------------------------------------------------------------
  // Username
  // ------------------------------------------------------------------

  const ReservedNames: set<string> :=
    {"admin", "root", "system", "test", "demo", "default", "null", "none", "undefined", "admin123"}

  /** A character of `ALLOWED_CHARS` (compiled without `re.IGNORECASE`). */
  predicate UsernameChar(c: char) {
    IsAsciiAlnum(c) || c == '_' || c == '.' || c == '-'
  }

  /** `ALLOWED_CHARS.match(u)`: `^[a-zA-Z0-9_.-]+$`. */
  predicate UsernamePattern(u: string) {
    |u| >= 1 && forall k :: 0 <= k < |u| ==> UsernameChar(u[k])
  }

  predicate SpecialChar(c: char) { c == '_' || c == '-' || c == '.' }

  /** `UsernameValidator.validate`. An empty input is rejected with one
      error and returned unchanged; otherwise the stripped name is checked
      for length and characters, and `STRICT` adds warnings only. */
  function ValidateUsername(username: string, level: ValidationLevel := Moderate): (r: ValidationResult)
    ensures r.validationType == UsernameType
    ensures username == [] ==> r == EmptyInput(username, UsernameEmpty, UsernameType)
    ensures username != [] ==> r.value == Text(Strip(username))
    ensures r.isValid <==> r.errors == []
    ensures r.isValid <==> (username != [] && 2 <= |Strip(username)| <= 64 &&
                            forall k :: 0 <= k < |Strip(username)| ==> UsernameChar(Strip(username)[k]))
    ensures level != Strict ==> r.warnings == []
  {
    if username == [] then EmptyInput(username, UsernameEmpty, UsernameType)
    else
      var u := Strip(username);
      var errors := When(|u| < 2, UsernameTooShort)
                  + When(|u| > 64, UsernameTooLong)
                  + When(!UsernamePattern(u),
                         UsernameInvalidChars);
      var warnings :=
        if level == Strict then
          When(Lower(u) in ReservedNames, UsernameReserved)
          + When(|u| > 0 && SpecialChar(u[0]), UsernameSpecialStart)
          + When(|u| > 0 && SpecialChar(u[|u| - 1]), UsernameSpecialEnd)
        else [];
      Checked(Text(u), errors, warnings, UsernameType)
  }

  /** The strictness level changes the warnings only: the verdict, the
      value and the errors are the same at every level. */
  lemma LevelOnlyAddsWarnings(username: string, level: ValidationLevel)
    ensures var r, m := ValidateUsername(username, level), ValidateUsername(username, Moderate);
      r.isValid == m.isValid && r.value == m.value && r.errors == m.errors
  {
  }

  // ------------------------------------------------------------------
  // URL
  // ------------------------------------------------------------------

  /** `https?` under `re.IGNORECASE`: "s" also matches the long s U+017F. */
  predicate SchemeS(c: char) { c == 's' || c == 'S' || c == '\U{017F}' }

  predicate SchemeHttp(s: string) {
    |s| == 4 && (s[0] == 'h' || s[0] == 'H') && (s[1] == 't' || s[1] == 'T') &&
    (s[2] == 't' || s[2] == 'T') && (s[3] == 'p' || s[3] == 'P')
  }

  /** `(?:/[^\s]*)?`: nothing, or a slash followed by non-whitespace. */
  predicate UrlPath(t: string) {
    t == [] || (t[0] == '/' && NoSpace(t[1..]))
  }

  /** `(?::\d+)?(?:/[^\s]*)?`: an optional port of Unicode decimal digits
      and an optional path. */
  predicate UrlPortAndPath(t: string) {
    UrlPath(t) ||
    (exists q :: 2 <= q <= |t| && t[0] == ':' && (forall k :: 1 <= k < q ==> IsDecimal(t[k])) &&
                 UrlPath(t[q..]))
  }

  /** What follows the scheme: a host name, then the port and path. */
  predicate UrlAuthority(t: string) {
    exists p :: 0 <= p <= |t| && HostName(t[..p]) && UrlPortAndPath(t[p..])
  }

  /** `URL_PATTERN.match(u)` for a stripped `u`. */
  predicate UrlPattern(u: string) {
    (|u| >= 7 && SchemeHttp(u[..4]) && u[4..7] == "://" && UrlAuthority(u[7..])) ||
    (|u| >= 8 && SchemeHttp(u[..4]) && SchemeS(u[4]) && u[5..8] == "://" && UrlAuthority(u[8..]))
  }

  const HttpWarning := "URL uses unencrypted HTTP protocol"

  /** `URLValidator.validate`. */
  function ValidateUrl(url: string): (r: ValidationResult)
    ensures r.validationType == UrlType
    ensures url == [] ==> r == EmptyInput(url, UrlEmpty, UrlType)
    ensures url != [] ==> r.value == Text(Strip(url))
    ensures r.isValid <==> url != [] && |Strip(url)| <= 2048 && UrlPattern(Strip(url))
    ensures url != [] ==>
      (r.warnings == [HttpWarning] <==>
         Contains(Strip(url), "http://") && !StartsWith(Strip(url), "http://"))
    ensures r.warnings == [] || r.warnings == [HttpWarning]
  {
    if url == [] then EmptyInput(url, UrlEmpty, UrlType)
    else
      var u := Strip(url);
      var errors := When(|u| > 2048, UrlTooLong)
                  + When(!UrlPattern(u), UrlInvalid);
      var warnings := When(Contains(u, "http://") && !StartsWith(u, "http://"), HttpWarning);
      Checked(Text(u), errors, warnings, UrlType)
  }

  lemma LabelNoSpace(l: string, k: int)
    requires Label(l) && 0 <= k < |l|
    ensures !IsSpace(l[k]) && l[k] != '/'
  {
  }

  /** A host name holds no whitespace. */
  lemma HostNameNoSpace(h: string)
    requires HostName(h)
    ensures NoSpace(h)
  {
    var fields := Split(h, '.');
    JoinSplit(h, '.');
    forall j | 0 <= j < |fields|
      ensures NoSpace(fields[j])
    {
      forall k | 0 <= k < |fields[j]|
        ensures !IsSpace(fields[j][k])
      {
        LabelNoSpace(fields[j], k);
      }
    }
    JoinNoSpace(fields, '.');
  }

  lemma UrlPathNoSpace(t: string)
    requires UrlPath(t)
    ensures NoSpace(t)
  {
    if t != [] {
      PrintableNoSpace(t[..1]);
      NoSpaceConcat(t[..1], t[1..]);
      assert t[..1] + t[1..] == t;
    }
  }

  lemma AuthorityNoSpace(t: string)
    requires UrlAuthority(t)
    ensures NoSpace(t)
  {
    var p :| 0 <= p <= |t| && HostName(t[..p]) && UrlPortAndPath(t[p..]);
    HostNameNoSpace(t[..p]);
    PortAndPathNoSpace(t[p..]);
    NoSpaceConcat(t[..p], t[p..]);
    assert t[..p] + t[p..] == t;
  }

  lemma PortAndPathNoSpace(rest: string)
    requires UrlPortAndPath(rest)
    ensures NoSpace(rest)
  {
    if UrlPath(rest) {
      UrlPathNoSpace(rest);
    } else {
      var q :| 2 <= q <= |rest| && rest[0] == ':' && (forall k :: 1 <= k < q ==> IsDecimal(rest[k])) &&
               UrlPath(rest[q..]);
      forall k | 1 <= k < q
        ensures !IsSpace(rest[k])
      {
        DecimalNotSpace(rest[k]);
      }
      assert NoSpace(rest[..q]);
      UrlPathNoSpace(rest[q..]);
      NoSpaceConcat(rest[..q], rest[q..]);
      assert rest[..q] + rest[q..] == rest;
    }
  }

  /** The scheme letters lower-case to `http`. */
  lemma SchemeLower(s: string)
    requires SchemeHttp(s)
    ensures Lower(s) == "http"
  {
    var l := Lower(s);
    assert l[0] == 'h' && l[1] == 't' && l[2] == 't' && l[3] == 'p';
  }

  /** A string the pattern accepts has no whitespace anywhere and starts
      with an `http` scheme in some letter case. */
  lemma UrlPatternShape(u: string)
    requires UrlPattern(u)
    ensures |u| >= 7 && Lower(u[..4]) == "http"
    ensures NoSpace(u)
  {
    var n := if |u| >= 7 && SchemeHttp(u[..4]) && u[4..7] == "://" && UrlAuthority(u[7..]) then 7 else 8;
    SchemeLower(u[..4]);
    AuthorityNoSpace(u[n..]);
    forall k | 0 <= k < n
      ensures !IsSpace(u[..n][k])
    {
      if k < 4 {
        assert u[..n][k] == u[..4][k];
      } else if n == 8 && k == 4 {
        assert SchemeS(u[4]);
      } else {
        assert u[..n][k] == (if n == 7 then u[4..7] else u[5..8])[k - n + 3];
      }
    }
    NoSpaceConcat(u[..n], u[n..]);
    assert u[..n] + u[n..] == u;
  }

  /** A valid URL is at most 2048 characters long, has no whitespace and
      starts with an `http` scheme in some letter case. */
  lemma ValidUrlShape(url: string)
    requires ValidateUrl(url).isValid
    ensures var u := ValidateUrl(url).value.text;
      |u| <= 2048 && |u| >= 7 && Lower(u[..4]) == "http" && NoSpace(u)
  {
    UrlPatternShape(Strip(url));
  }

  /** `https://`, a host name, then a port and path part: valid when it fits
      the length limit. */
  lemma HttpsAuthorityValid(host: string, rest: string)
    requires HostName(host) && UrlPortAndPath(rest)
    requires 8 + |host| + |rest| <= 2048
    ensures ValidateUrl("https://" + host + rest).isValid
  {
    var u := "https://" + host + rest;
    var t := u[8..];
    assert t == host + rest;
    assert t[..|host|] == host && t[|host|..] == rest;
    assert UrlAuthority(t);
    assert u[..4] == "http" && u[4] == 's' && u[5..8] == "://";
    assert UrlPattern(u);
    UrlPatternShape(u);
    StripNoSpace(u);
  }

  /** Every `https://` URL built from a host name and a path is valid when it
      fits the length limit. */
  lemma HttpsUrlValid(host: string, path: string)
    requires HostName(host) && UrlPath(path)
    requires 8 + |host| + |path| <= 2048
    ensures ValidateUrl("https://" + host + path).isValid
  {
    HttpsAuthorityValid(host, path);
  }

  /** `:port` then a path matches the port-and-path part. */
  lemma PortThenPath(port: string, path: string)
    requires UrlPath(path)
    requires port != [] && forall k :: 0 <= k < |port| ==> IsDecimal(port[k])
    ensures UrlPortAndPath(":" + port + path)
  {
    var rest := ":" + port + path;
    assert rest[1 + |port|..] == path;
    assert forall k :: 1 <= k < 1 + |port| ==> rest[k] == port[k - 1];
  }

  /** A port is any non-empty run of decimal digits, in any script `\d`
      matches: `https://host:port/path` is valid when it fits the limit. */
  lemma HttpsUrlWithPortValid(host: string, port: string, path: string)
    requires HostName(host) && UrlPath(path)
    requires port != [] && forall k :: 0 <= k < |port| ==> IsDecimal(port[k])
    requires 9 + |host| + |port| + |path| <= 2048
    ensures ValidateUrl("https://" + host + ":" + port + path).isValid
  {
    var rest := ":" + port + path;
    assert "https://" + host + rest == "https://" + host + ":" + port + path;
    PortThenPath(port, path);
    HttpsAuthorityValid(host, rest);
  }

  /** A single digit of any script is a port: `https://a:\U{0663}`, with an
      Arabic-Indic three, is as valid as `https://a:3`. */
  lemma OneDigitPortValid(d: char)
    requires IsDecimal(d)
    ensures ValidateUrl("https://a:" + [d]).isValid
  {
    var host, none: string := "a", [];
    assert host[1..] == none && Split(none, '.') == [none];
    assert [host[0]] + none == host && [none][1..] == [];
    assert Split(host, '.') == [[host[0]] + none] + [none][1..];
    assert Label(host);
    var u := "https://" + host + ":" + [d] + none;
    assert u == "https://a:" + [d] by {
      assert "https://" + host + ":" == "https://a:";
    }
    HttpsUrlWithPortValid(host, [d], none);
  }

  /** The Arabic-Indic three is a decimal digit. */
  lemma ArabicIndicThreeIsDecimal()
    ensures IsDecimal('\U{0663}')
  {
    assert InRun('\U{0663}' as int, 0x660);
  }

  // ------------------------------------------------------------------
  // Email
  // ------------------------------------------------------------------

  predicate EmailLocalChar(c: char) {
    IsAsciiAlnum(c) || c == '.' || c == '_' || c == '%' || c == '+' || c == '-'
  }

  predicate EmailHostChar(c: char) {
    IsAsciiAlnum(c) || c == '.' || c == '-'
  }

  /** `EMAIL_PATTERN` matched with the `@` at `at` and the dot before the
      top-level domain at `dot`: `local@domain.tld`, with a non-empty local
      part, a non-empty domain and a top-level domain of two or more ASCII
      letters. */
  predicate EmailSplitAt(e: string, at: int, dot: int) {
    0 < at && at + 1 < dot && dot + 2 < |e| &&
    (forall k :: 0 <= k < at ==> EmailLocalChar(e[k])) && e[at] == '@' &&
    (forall k :: at < k < dot ==> EmailHostChar(e[k])) && e[dot] == '.' &&
    (forall k :: dot < k < |e| ==> IsAsciiLetter(e[k]))
  }

  /** `EMAIL_PATTERN.match(e)`: `^[a-zA-Z0-9._%+-]+@[a-zA-Z0-9.-]+\.[a-zA-Z]{2,}$`. */
  predicate EmailPattern(e: string) {
    exists at, dot :: 0 <= at < dot < |e| && EmailSplitAt(e, at, dot)
  }

  /** A string the pattern matches holds exactly one `@`, since neither
      character class admits it, and no whitespace. */
  lemma EmailPatternOneAt(e: string)
    requires EmailPattern(e)
    ensures CountChar(e, '@') == 1
    ensures NoSpace(e)
  {
    var at, dot :| 0 <= at < dot < |e| && EmailSplitAt(e, at, dot);
    EmailChars(e, at, dot);
    PrintableNoSpace(e);
    SingleAt(e, at);
  }

  /** Every character of a match is printable ASCII, and only the one at
      `at` is an `@`. */
  lemma EmailChars(e: string, at: int, dot: int)
    requires EmailSplitAt(e, at, dot)
    ensures forall k :: 0 <= k < |e| ==> '!' <= e[k] <= '~' && (k != at ==> e[k] != '@')
  {
    forall k | 0 <= k < |e|
      ensures '!' <= e[k] <= '~' && (k != at ==> e[k] != '@')
    {
      if k < at {
        assert EmailLocalChar(e[k]);
      } else if at < k < dot {
        assert EmailHostChar(e[k]);
      } else if k > dot {
        assert IsAsciiLetter(e[k]);
      }
    }
  }

  lemma SingleAt(e: string, at: int)
    requires 0 <= at < |e| && e[at] == '@'
    requires forall k :: 0 <= k < |e| && k != at ==> e[k] != '@'
    ensures CountChar(e, '@') == 1
  {
    var x, y := e[..at], e[at + 1..];
    assert e == x + ['@'] + y;
    assert '@' !in x by {
      assert forall k :: 0 <= k < |x| ==> x[k] == e[k];
    }
    assert '@' !in y by {
      assert forall k :: 0 <= k < |y| ==> y[k] == e[at + 1 + k];
    }
    CountCharConcat(x + ['@'], y, '@');
    CountCharConcat(x, ['@'], '@');
  }

  /** Lower-casing keeps every character in its class, so it keeps a match. */
  lemma EmailPatternLower(e: string)
    requires EmailPattern(e)
    ensures EmailPattern(Lower(e))
  {
    var at, dot :| 0 <= at < dot < |e| && EmailSplitAt(e, at, dot);
    var l := Lower(e);
    forall k | 0 <= k < at
      ensures EmailLocalChar(l[k])
    {
      assert EmailLocalChar(e[k]);
    }
    forall k | at < k < dot
      ensures EmailHostChar(l[k])
    {
      assert EmailHostChar(e[k]);
    }
    forall k | dot < k < |l|
      ensures IsAsciiLetter(l[k])
    {
      assert IsAsciiLetter(e[k]);
    }
    assert EmailSplitAt(l, at, dot);
  }

  /** Every address `local@domain.tld` built from the pattern's classes is
      valid when it fits the length limit. */
  lemma AssembledEmailValid(local: string, domain: string, tld: string)
    requires |local| >= 1 && forall k :: 0 <= k < |local| ==> EmailLocalChar(local[k])
    requires |domain| >= 1 && forall k :: 0 <= k < |domain| ==> EmailHostChar(domain[k])
    requires |tld| >= 2 && forall k :: 0 <= k < |tld| ==> IsAsciiLetter(tld[k])
    requires |local| + |domain| + |tld| + 2 <= 254
    ensures ValidateEmail(local + "@" + domain + "." + tld).isValid
  {
    var e := local + "@" + domain + "." + tld;
    var at, dot := |local|, |local| + 1 + |domain|;
    assert forall k :: 0 <= k < at ==> e[k] == local[k];
    assert forall k :: at < k < dot ==> e[k] == domain[k - at - 1];
    assert forall k :: dot < k < |e| ==> e[k] == tld[k - dot - 1];
    assert EmailSplitAt(e, at, dot);
    EmailPatternOneAt(e);
    StripNoSpace(e);
    EmailPatternLower(e);
  }

  /** `EmailValidator.validate`: the stripped, lower-cased address must
      match the pattern and be at most 254 characters long; the pattern
      already implies the single `@`. */
  function ValidateEmail(email: string): (r: ValidationResult)
    ensures r.validationType == EmailType
    ensures email == [] ==> r == EmptyInput(email, EmailEmpty, EmailType)
    ensures email != [] ==> r.value == Text(Lower(Strip(email)))
    ensures r.isValid <==> email != [] && EmailPattern(Lower(Strip(email))) && |Strip(email)| <= 254
    ensures r.warnings == []
  {
    if email == [] then EmptyInput(email, EmailEmpty, EmailType)
    else
      var e := Lower(Strip(email));
      var errors := When(!EmailPattern(e), EmailInvalid)
                  + When(|e| > 254, EmailTooLong)
                  + When(CountChar(e, '@') != 1, EmailAtCount);
      if EmailPattern(e) then
        EmailPatternOneAt(e);
        Checked(Text(e), errors, [], EmailType)
      else Checked(Text(e), errors, [], EmailType)
  }

  /** A valid address is lower-cased and stripped, holds exactly one `@`,
      and is at most 254 characters long. */
  lemma ValidEmailShape(email: string)
    requires ValidateEmail(email).isValid
    ensures var v := ValidateEmail(email).value.text;
      Lower(v) == v && Strip(v) == v && CountChar(v, '@') == 1 && |v| <= 254
  {
    var v := Lower(Strip(email));
    LowerIdempotent(Strip(email));
    EmailPatternOneAt(v);
    StripNoSpace(v);
  }

  // ------------------------------------------------------------------
  // Domain
  // ------------------------------------------------------------------

  /** The last field of a split. */
  function LastField(s: string): string {
    var parts := Split(s, '.');
    parts[|parts| - 1]
  }

  /** `DomainValidator.validate`. */
  function ValidateDomain(domain: string): (r: ValidationResult)
    ensures r.validationType == DomainType
    ensures domain == [] ==> r == EmptyInput(domain, DomainEmpty, DomainType)
    ensures domain != [] ==> r.value == Text(Lower(Strip(domain)))
    ensures r.isValid <==> r.errors == []
    ensures r.warnings == []
  {
    if domain == [] then EmptyInput(domain, DomainEmpty, DomainType)
    else
      var d := Lower(Strip(domain));
      var errors := When(StartsWith(d, ".") || EndsWith(d, "."), DomainEdgeDot)
                  + When(Contains(d, ".."), DomainDoubleDot)
                  + When(!HostName(d), DomainInvalid)
                  + When(|Split(d, '.')| < 2, DomainNoDot)
                  + When(LastField(d) != [] && |LastField(d)| < 2, TldTooShort);
      Checked(Text(d), errors, [], DomainType)
  }

  /** A domain is valid exactly when its normal form is a host name with at
      least two labels and a top-level label of two or more characters; the
      dot-placement checks only ever fire together with the format error. */
  lemma DomainValidIff(domain: string)
    ensures var d := Lower(Strip(domain));
      ValidateDomain(domain).isValid <==>
        domain != [] && HostName(d) && |Split(d, '.')| >= 2 && |LastField(d)| >= 2
  {
    if domain != [] {
      var d := Lower(Strip(domain));
      if HostName(d) {
        HostNameShape(d);
        assert !StartsWith(d, ".") && !EndsWith(d, ".");
      }
    }
  }

  // ------------------------------------------------------------------
  // IPv4 address
  // ------------------------------------------------------------------

  /** One group of `IPV4_PATTERN`, the alternation
      `25[0-5]|2[0-4][0-9]|[01]?[0-9][0-9]?`. */
  predicate OctetPattern(g: string) {
    (|g| == 3 && g[0] == '2' && g[1] == '5' && '0' <= g[2] <= '5') ||
    (|g| == 3 && g[0] == '2' && '0' <= g[1] <= '4' && IsAsciiDigit(g[2])) ||
    (|g| == 3 && (g[0] == '0' || g[0] == '1') && IsAsciiDigit(g[1]) && IsAsciiDigit(g[2])) ||
    (|g| == 2 && IsAsciiDigit(g[0]) && IsAsciiDigit(g[1])) ||
    (|g| == 1 && IsAsciiDigit(g[0]))
  }

  /** `IPV4_PATTERN.match(ip)`: four dot-separated groups. */
  predicate Ipv4Pattern(ip: string) {
    var groups := Split(ip, '.');
    |groups| == 4 && forall k :: 0 <= k < 4 ==> OctetPattern(groups[k])
  }

  predicate AllDigits(g: string) {
    forall k :: 0 <= k < |g| ==> IsAsciiDigit(g[k])
  }

  /** The alternation accepts exactly the strings of one to three ASCII
      digits whose value is at most 255, leading zeros included. */
  lemma OctetPatternIsByte(g: string)
    ensures OctetPattern(g) <==> ByteText(g)
  {
    if 1 <= |g| <= 3 && AllDigits(g) {
      var a := g[0] as int - '0' as int;
      assert DigitsValue(g[..1]) == a by {
        assert g[..1][..0] == [];
      }
      if |g| >= 2 {
        var b := g[1] as int - '0' as int;
        assert g[..2][..1] == g[..1];
        assert DigitsValue(g[..2]) == 10 * a + b;
        if |g| == 3 {
          var c := g[2] as int - '0' as int;
          assert g[..2] == g[..|g| - 1];
          assert DigitsValue(g) == 100 * a + 10 * b + c;
        } else {
          assert g[..2] == g;
        }
      } else {
        assert g[..1] == g;
      }
    }
  }

  /** An address is four groups, each a byte in decimal. */
  predicate DottedQuad(ip: string) {
    var groups := Split(ip, '.');
    |groups| == 4 &&
    forall k :: 0 <= k < 4 ==> ByteText(groups[k])
  }

  /** The address pattern accepts exactly four dot-separated byte texts. */
  lemma PatternIsDottedQuad(ip: string)
    ensures Ipv4Pattern(ip) <==> DottedQuad(ip)
  {
    var groups := Split(ip, '.');
    forall k | 0 <= k < |groups| {
      OctetPatternIsByte(groups[k]);
    }
  }

  /** `IPAddressValidator.validate`. */
  function ValidateIp(ipAddress: string): (r: ValidationResult)
    ensures r.validationType == IpAddressType
    ensures ipAddress == [] ==> r == EmptyInput(ipAddress, IpEmpty, IpAddressType)
    ensures ipAddress != [] ==> r.value == Text(Strip(ipAddress))
    ensures r.isValid <==> ipAddress != [] && DottedQuad(Strip(ipAddress))
    ensures r.warnings == []
  {
    if ipAddress == [] then EmptyInput(ipAddress, IpEmpty, IpAddressType)
    else
      var ip := Strip(ipAddress);
      PatternIsDottedQuad(ip);
      Checked(Text(ip), When(!Ipv4Pattern(ip), IpInvalid), [], IpAddressType)
  }

  /** One to three digits of value at most 255. */
  predicate ByteText(g: string) {
    1 <= |g| <= 3 && AllDigits(g) && DigitsValue(g) <= 255
  }

  /** A byte renders as one to three digits that read back as itself. */
  lemma ByteGroup(n: nat)
    requires n <= 255
    ensures ByteText(NatToString(n)) && DigitsValue(NatToString(n)) == n
  {
    NatToStringShort(n);
    NatToStringRoundTrip(n);
  }

  /** Four byte texts joined by dots make a valid address, kept as given;
      with `ByteGroup`, so does every `a.b.c.d` rendering of four bytes. */
  lemma JoinedBytesValid(a: string, b: string, c: string, d: string)
    requires ByteText(a) && ByteText(b) && ByteText(c) && ByteText(d)
    ensures ValidateIp(a + "." + b + "." + c + "." + d).isValid
    ensures ValidateIp(a + "." + b + "." + c + "." + d).value == Text(a + "." + b + "." + c + "." + d)
  {
    QuadShape(a, b, c, d);
    QuadValid(a + "." + b + "." + c + "." + d);
  }

  lemma ByteTextShape(g: string)
    requires ByteText(g)
    ensures Split(g, '.') == [g] && NoSpace(g)
  {
    assert AllDigits(g);
    SplitNoSep(g, '.');
    PrintableNoSpace(g);
  }

  lemma QuadShape(a: string, b: string, c: string, d: string)
    requires ByteText(a) && ByteText(b) && ByteText(c) && ByteText(d)
    ensures var ip := a + "." + b + "." + c + "." + d;
      ip != [] && DottedQuad(ip) && NoSpace(ip)
  {
    var ip := a + "." + b + "." + c + "." + d;
    ByteTextShape(a);
    ByteTextShape(b);
    ByteTextShape(c);
    ByteTextShape(d);
    var cd := c + ['.'] + d;
    var bcd := b + ['.'] + cd;
    assert ip == a + ['.'] + bcd;
    SplitConcat(c, d, '.');
    SplitConcat(b, cd, '.');
    SplitConcat(a, bcd, '.');
    assert Split(ip, '.') == [a, b, c, d];
    NoSpaceConcat(c, ['.']);
    NoSpaceConcat(c + ['.'], d);
    NoSpaceConcat(b, ['.']);
    NoSpaceConcat(b + ['.'], cd);
    NoSpaceConcat(a, ['.']);
    NoSpaceConcat(a + ['.'], bcd);
  }

  /** A whitespace-free dotted quad is a valid address, kept as given. */
  lemma QuadValid(ip: string)
    requires ip != [] && DottedQuad(ip) && NoSpace(ip)
    ensures ValidateIp(ip).isValid && ValidateIp(ip).value == Text(ip)
  {
    StripNoSpace(ip);
  }

  // ------------------------------------------------------------------
  // Port
  // ------------------------------------------------------------------

  /** The `port` argument: a number, or text together with what Python's
      `int()` made of it (`None` when it raised). */
  datatype PortInput = PortNumber(n: int) | PortText(text: string, parsed: Option<int>)

  /** The number the validator goes on to check, if any. */
  function PortValue(port: PortInput): Option<int> {
    match port
    case PortNumber(n) => Some(n)
    case PortText(_, parsed) => parsed
  }

  const PrivilegedWarning := "Port is in privileged range (1-1023)"

  /** `PortValidator.validate`. */
  function ValidatePort(port: PortInput, warnPrivileged: bool := true): (r: ValidationResult)
    ensures r.validationType == PortType
    ensures PortValue(port).None? ==>
      r == ValidationResult(false, Text(port.text), [PortNotInteger], [], PortType)
    ensures PortValue(port).Some? ==> r.value == Number(PortValue(port).value)
    ensures PortValue(port).Some? ==> (r.isValid <==> 1 <= PortValue(port).value <= 65535)
    ensures PortValue(port).Some? ==>
      (r.warnings == [PrivilegedWarning] <==> warnPrivileged && 1 <= PortValue(port).value <= 1023)
    ensures r.warnings == [] || r.warnings == [PrivilegedWarning]
    ensures r.isValid <==> r.errors == []
  {
    match PortValue(port)
    case None => ValidationResult(false, Text(port.text), [PortNotInteger], [], PortType)
    case Some(p) =>
      var errors := When(p < 1, PortTooLow) + When(p > 65535, PortTooHigh);
      Checked(Number(p), errors, When(warnPrivileged && 1 <= p <= 1023, PrivilegedWarning), PortType)
  }

  // ------------------------------------------------------------------
  // Platform id
  // ------------------------------------------------------------------

  const ValidPlatforms: set<string> := {
    "twitter", "instagram", "tiktok", "reddit", "linkedin", "snapchat", "telegram",
    "github", "gitlab", "stackoverflow", "dev_to", "codepen", "youtube", "twitch",
    "medium", "pinterest", "spotify", "patreon", "mastodon", "bluesky", "threads"}

  /** The error for an unknown id, the sorted known ids joined by ", ". */
  const UnknownPlatform :=
    "Unknown platform. Valid platforms: bluesky, codepen, dev_to, github, gitlab, instagram, linkedin, mastodon, medium, patreon, pinterest, reddit, snapchat, spotify, stackoverflow, telegram, threads, tiktok, twitch, twitter, youtube"

  /** `PlatformValidator.validate`. */
  function ValidatePlatform(platformId: string): (r: ValidationResult)
    ensures r.validationType == PlatformIdType
    ensures platformId == [] ==> r == EmptyInput(platformId, PlatformEmpty, PlatformIdType)
    ensures platformId != [] ==> r.value == Text(Lower(Strip(platformId)))
    ensures platformId != [] ==> r.errors == (if r.isValid then [] else [UnknownPlatform])
    ensures r.isValid <==> platformId != [] && Lower(Strip(platformId)) in ValidPlatforms
    ensures r.warnings == []
  {
    if platformId == [] then EmptyInput(platformId, PlatformEmpty, PlatformIdType)
    else
      var p := Lower(Strip(platformId));
      Checked(Text(p), When(p !in ValidPlatforms, UnknownPlatform), [], PlatformIdType)
  }

  // ------------------------------------------------------------------
  // Database query
  // ------------------------------------------------------------------

  const DangerousKeywords: set<string> := {"DROP", "DELETE", "TRUNCATE", "ALTER", "EXEC", "EXECUTE"}

  function KeywordError(keyword: string): string {
    "Dangerous SQL keyword detected: " + keyword
  }

  lemma KeywordErrorInjective(a: string, b: string)
    requires KeywordError(a) == KeywordError(b)
    ensures a == b
  {
    var n := |"Dangerous SQL keyword detected: "|;
    assert a == KeywordError(a)[n..];
    assert b == KeywordError(b)[n..];
  }

  /** A keyword is reported when the normalised query mentions it and does
      not start with `SELECT`. */
  predicate Flagged(q: string, keyword: string) {
    Contains(q, keyword) && !StartsWith(q, "SELECT")
  }

  /** An iteration order of the keyword set: each keyword exactly once. */
  predicate KeywordOrder(order: seq<string>) {
    (forall k :: 0 <= k < |order| ==> order[k] in DangerousKeywords) &&
    (forall keyword :: keyword in DangerousKeywords ==> keyword in order) &&
    NoDuplicates(order)
  }

  /** The errors the keyword loop appends, visiting the keywords in `order`. */
  function KeywordErrors(q: string, order: seq<string>): seq<string> {
    if order == [] then []
    else
      var keyword := order[|order| - 1];
      KeywordErrors(q, order[..|order| - 1]) + When(Flagged(q, keyword), KeywordError(keyword))
  }

  /** The loop reports exactly the flagged keywords of `order`. */
  lemma {:induction false} KeywordErrorsMembers(q: string, order: seq<string>, e: string)
    ensures e in KeywordErrors(q, order) <==>
      exists j :: 0 <= j < |order| && Flagged(q, order[j]) && e == KeywordError(order[j])
  {
    if order != [] {
      var init := order[..|order| - 1];
      KeywordErrorsMembers(q, init, e);
      assert forall j :: 0 <= j < |init| ==> init[j] == order[j];
    }
  }

  predicate NoDuplicates<T(==)>(s: seq<T>) {
    forall i, j :: 0 <= i < j < |s| ==> s[i] != s[j]
  }

  /** Visiting distinct keywords reports each at most once. */
  lemma {:induction false} KeywordErrorsDistinct(q: string, order: seq<string>)
    requires NoDuplicates(order)
    ensures NoDuplicates(KeywordErrors(q, order))
  {
    if order != [] {
      var init := order[..|order| - 1];
      var keyword := order[|order| - 1];
      KeywordErrorsDistinct(q, init);
      if Flagged(q, keyword) {
        var prev := KeywordErrors(q, init);
        forall e | e in prev
          ensures e != KeywordError(keyword)
        {
          KeywordErrorsMembers(q, init, e);
          var j :| 0 <= j < |init| && Flagged(q, init[j]) && e == KeywordError(init[j]);
          if e == KeywordError(keyword) {
            KeywordErrorInjective(init[j], keyword);
          }
        }
        var es := KeywordErrors(q, order);
        assert es == prev + [KeywordError(keyword)];
        forall i, j | 0 <= i < j < |es|
          ensures es[i] != es[j]
        {
          if j < |prev| {
            assert es[i] == prev[i] && es[j] == prev[j];
          } else {
            assert es[i] == prev[i] && es[j] == KeywordError(keyword);
            assert prev[i] in prev;
          }
        }
      } else {
        assert KeywordErrors(q, order) == KeywordErrors(q, init) + [];
      }
    }
  }

  /** For any order of the keyword set, an error names a flagged keyword,
      each flagged keyword is named, and none twice. */
  lemma KeywordErrorsAreFlagged(q: string, order: seq<string>)
    requires KeywordOrder(order)
    ensures var es := KeywordErrors(q, order);
      (forall keyword :: keyword in DangerousKeywords ==> (KeywordError(keyword) in es <==> Flagged(q, keyword))) &&
      (forall e :: e in es ==> exists keyword :: keyword in DangerousKeywords && e == KeywordError(keyword)) &&
      NoDuplicates(es)
  {
    var es := KeywordErrors(q, order);
    KeywordErrorsDistinct(q, order);
    forall keyword | keyword in DangerousKeywords
      ensures KeywordError(keyword) in es <==> Flagged(q, keyword)
    {
      KeywordErrorsMembers(q, order, KeywordError(keyword));
      if KeywordError(keyword) in es {
        var j :| 0 <= j < |order| && Flagged(q, order[j]) && KeywordError(keyword) == KeywordError(order[j]);
        KeywordErrorInjective(keyword, order[j]);
      } else {
        var j :| 0 <= j < |order| && order[j] == keyword;
      }
    }
    forall e | e in es
      ensures exists keyword :: keyword in DangerousKeywords && e == KeywordError(keyword)
    {
      KeywordErrorsMembers(q, order, e);
      var j :| 0 <= j < |order| && Flagged(q, order[j]) && e == KeywordError(order[j]);
      assert order[j] in DangerousKeywords;
    }
  }

  /** The query is rejected exactly when it does not start with `SELECT`
      and mentions some keyword. */
  lemma KeywordErrorsEmpty(q: string, order: seq<string>)
    requires KeywordOrder(order)
    ensures KeywordErrors(q, order) == [] <==>
      (StartsWith(q, "SELECT") || forall keyword :: keyword in DangerousKeywords ==> !Contains(q, keyword))
  {
    KeywordErrorsAreFlagged(q, order);
    var es := KeywordErrors(q, order);
    if es != [] {
      var e := es[0];
      assert e in es;
    }
  }

  /** The two warnings of `validate_query`. */
  function QueryWarnings(query: string): seq<string> {
    When(Contains(query, "--"), QueryComment)
    + When(';' in query && !EndsWith(RStrip(query), ";"), QueryMultiple)
  }

  lemma KeywordErrorsStep(q: string, order: seq<string>, i: nat)
    requires i < |order|
    ensures KeywordErrors(q, order[..i + 1])
         == KeywordErrors(q, order[..i]) + When(Flagged(q, order[i]), KeywordError(order[i]))
  {
    assert order[..i + 1][..i] == order[..i];
  }

  /** What `DatabaseValidator.validate_query` returns when the keywords
      are visited in `order`: the empty query is rejected, any other is
      checked after stripping and upper-casing. */
  function QueryResult(query: string, order: seq<string>): (r: ValidationResult)
    ensures r.validationType == DatabaseQueryType && r.value == Text(query)
    ensures query != [] ==> r.errors == KeywordErrors(Strip(Upper(query)), order)
    ensures query != [] ==> r.warnings == QueryWarnings(query)
  {
    if query == [] then EmptyInput(query, QueryEmpty, DatabaseQueryType)
    else Checked(Text(query), KeywordErrors(Strip(Upper(query)), order), QueryWarnings(query), DatabaseQueryType)
  }

  /** For every iteration order of the keyword set, a query is valid exactly
      when it is non-empty and, normalised, starts with `SELECT` or mentions
      no dangerous keyword. */
  lemma QueryValidIff(query: string, order: seq<string>)
    requires KeywordOrder(order)
    ensures QueryResult(query, order).isValid <==> (query != [] &&
      (StartsWith(Strip(Upper(query)), "SELECT") ||
       forall keyword :: keyword in DangerousKeywords ==> !Contains(Strip(Upper(query)), keyword)))
  {
    if query != [] {
      KeywordErrorsEmpty(Strip(Upper(query)), order);
    }
  }

  /** `DatabaseValidator.validate_query`. The keywords are visited in
      `order`, the iteration order of the keyword set, which Python leaves
      unspecified; the properties of the errors hold for every order. */
  method ValidateQuery(query: string, order: seq<string>) returns (r: ValidationResult)
    ensures r == QueryResult(query, order)
  {
    if query == [] {
      return EmptyInput(query, QueryEmpty, DatabaseQueryType);
    }
    var q := Strip(Upper(query));
    var errors: seq<string> := [];
    var i := 0;
    while i < |order|
      invariant 0 <= i <= |order|
      invariant errors == KeywordErrors(q, order[..i])
    {
      var keyword := order[i];
      KeywordErrorsStep(q, order, i);
      if Flagged(q, keyword) {
        errors := errors + [KeywordError(keyword)];
      }
      i := i + 1;
    }
    assert order[..i] == order;
    r := Checked(Text(query), errors, QueryWarnings(query), DatabaseQueryType);
  }

  // ------------------------------------------------------------------
  // Scan target
  // ------------------------------------------------------------------

  /** A platform id the validator accepts. */
  predicate KnownPlatform(p: string) {
    p != [] && Lower(Strip(p)) in ValidPlatforms
  }

  /** The errors of the listed platforms that fail, in list order. */
  function PlatformErrors(platforms: seq<string>): (errs: seq<string>)
    ensures errs == [] <==> forall k :: 0 <= k < |platforms| ==> KnownPlatform(platforms[k])
  {
    if platforms == [] then []
    else
      var r := ValidatePlatform(platforms[0]);
      (if r.isValid then [] else r.errors) + PlatformErrors(platforms[1..])
  }

  /** `ScanTargetValidator.validate`: the username's errors, then those of
      each listed platform; the value is the target as given. */
  function ValidateScanTarget(target: string, platforms: Option<seq<string>> := None): (r: ValidationResult)
    ensures r.validationType == ScanTargetType && r.value == Text(target) && r.warnings == []
    ensures var u := ValidateUsername(target);
      r.errors == (if u.isValid then [] else u.errors) +
                  (if platforms.Some? then PlatformErrors(platforms.value) else [])
    ensures r.isValid <==> r.errors == []
  {
    var u := ValidateUsername(target);
    var errors := (if u.isValid then [] else u.errors) +
                  (if platforms.Some? && platforms.value != [] then PlatformErrors(platforms.value) else []);
    Checked(Text(target), errors, [], ScanTargetType)
  }

  /** A scan target is valid exactly when the username is valid and every
      listed platform is known. */
  lemma ScanTargetValidIff(target: string, platforms: Option<seq<string>>)
    ensures ValidateScanTarget(target, platforms).isValid <==>
      ValidateUsername(target).isValid &&
      (platforms.Some? ==> forall k :: 0 <= k < |platforms.value| ==> KnownPlatform(platforms.value[k]))
  {
    var u := ValidateUsername(target);
    var r := ValidateScanTarget(target, platforms);
    var pe := if platforms.Some? then PlatformErrors(platforms.value) else [];
    assert r.errors == (if u.isValid then [] else u.errors) + pe;
    assert u.isValid <==> u.errors == [];
    assert r.errors == [] <==> u.isValid && pe == [];
  }

  // ------------------------------------------------------------------
  // validate_multiple and validate_inputs
  // ------------------------------------------------------------------

  /** The named validators of a call, in the order given, each paired with
      the result its function returned. Keyword names are distinct. */
  predicate DistinctNames(validators: seq<(string, ValidationResult)>) {
    forall i, j :: 0 <= i < j < |validators| ==> validators[i].0 != validators[j].0
  }

  /** `Validator.validate_multiple`: whether all passed, and the results by name. */
  method ValidateMultiple(validators: seq<(string, ValidationResult)>)
    returns (allValid: bool, results: map<string, ValidationResult>)
    requires DistinctNames(validators)
    ensures allValid <==> forall k :: 0 <= k < |validators| ==> validators[k].1.isValid
    ensures results.Keys == set k | 0 <= k < |validators| :: validators[k].0
    ensures forall k :: 0 <= k < |validators| ==> results[validators[k].0] == validators[k].1
  {
    results := map[];
    allValid := true;
    var i := 0;
    while i < |validators|
      invariant 0 <= i <= |validators|
      invariant allValid <==> forall k :: 0 <= k < i ==> validators[k].1.isValid
      invariant results.Keys == set k | 0 <= k < i :: validators[k].0
      invariant forall k :: 0 <= k < i ==> results[validators[k].0] == validators[k].1
    {
      var (name, result) := validators[i];
      results := results[name := result];
      if !result.isValid {
        allValid := false;
      }
      i := i + 1;
    }
  }

  /** `[f"{name}: {e}" for e in errors]`. */
  function Prefixed(name: string, errors: seq<string>): (r: seq<string>)
    ensures |r| == |errors|
    ensures forall k :: 0 <= k < |r| ==> r[k] == name + ": " + errors[k]
  {
    if errors == [] then [] else [name + ": " + errors[0]] + Prefixed(name, errors[1..])
  }

  /** The lines one named result contributes: none when it passed. */
  function FailureChunk(v: (string, ValidationResult)): (lines: seq<string>)
    ensures v.1.isValid ==> lines == []
  {
    if v.1.isValid then [] else Prefixed(v.0, v.1.errors)
  }

  /** `f"{name}: {e}"` for every error of every failing validator, in order. */
  function FailureLines(validators: seq<(string, ValidationResult)>): (lines: seq<string>)
    ensures (forall k :: 0 <= k < |validators| ==> validators[k].1.isValid) ==> lines == []
  {
    if validators == [] then []
    else FailureChunk(validators[0]) + FailureLines(validators[1..])
  }

  lemma {:induction false} FailureLinesConcat(a: seq<(string, ValidationResult)>, b: seq<(string, ValidationResult)>)
    ensures FailureLines(a + b) == FailureLines(a) + FailureLines(b)
  {
    if a == [] {
      assert a + b == b;
    } else {
      assert (a + b)[0] == a[0] && (a + b)[1..] == a[1..] + b;
      FailureLinesConcat(a[1..], b);
      var c := FailureChunk(a[0]);
      assert FailureLines(a + b) == c + (FailureLines(a[1..]) + FailureLines(b));
      assert c + (FailureLines(a[1..]) + FailureLines(b)) == (c + FailureLines(a[1..])) + FailureLines(b);
    }
  }

  lemma FailureLinesSnoc(validators: seq<(string, ValidationResult)>, i: nat)
    requires i < |validators|
    ensures FailureLines(validators[..i + 1]) == FailureLines(validators[..i]) + FailureChunk(validators[i])
  {
    assert validators[..i + 1] == validators[..i] + [validators[i]];
    FailureLinesConcat(validators[..i], [validators[i]]);
    assert [validators[i]][1..] == [];
  }

  /** The error loop of `validate_inputs`: every error of every failing
      validator, looked up by name, prefixed with the name. */
  method CollectFailures(validators: seq<(string, ValidationResult)>, results: map<string, ValidationResult>)
    returns (errors: seq<string>)
    requires forall k :: 0 <= k < |validators| ==> validators[k].0 in results && results[validators[k].0] == validators[k].1
    ensures errors == FailureLines(validators)
  {
    errors := [];
    for i := 0 to |validators|
      invariant errors == FailureLines(validators[..i])
    {
      var name := validators[i].0;
      var result := results[name];
      FailureLinesSnoc(validators, i);
      errors := errors + if result.isValid then [] else Prefixed(name, result.errors);
    }
    assert validators[..|validators|] == validators;
  }

  /** The check `validate_inputs` wraps around its function: `None` lets the
      call through, `Some(msg)` is the `ValueError` it raises instead. */
  method ValidateInputs(validators: seq<(string, ValidationResult)>) returns (failure: Option<string>)
    requires DistinctNames(validators)
    ensures failure.None? <==> forall k :: 0 <= k < |validators| ==> validators[k].1.isValid
    ensures failure.Some? ==> failure.value == "Validation failed: " + JoinBy(FailureLines(validators), "; ")
  {
    var allValid, results := ValidateMultiple(validators);
    if allValid {
      return None;
    }
    var errors := CollectFailures(validators, results);
    return Some("Validation failed: " + JoinBy(errors, "; "));
  }
}
