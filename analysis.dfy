/**
 * The count- and set-based profile classifiers of the analysis engine
 * (core/analysis.py) over the scan results of one username. The results
 * are the values of the `platforms` dictionary in insertion order; the
 * `PLATFORM_INFO` table is a parameter.
 */
module Analysis {
  import opened Wrappers
  import opened Sets
  import opened PyStr
  import opened Tally

  /** `PlatformResult` (core/models.py), without its header and
      risk-indicator collections. */
  datatype PlatformResult = PlatformResult(
    platformId: string,
    platformName: string,
    found: bool,
    url: string,
    status: string,
    statusCode: int,
    responseTime: real,
    error: Option<string>,
    timestamp: string,
    contentLength: int,
    contentPreview: string)

  /** The entries of one `PLATFORM_INFO` record that the classifiers read;
      a missing entry is `None`. */
  datatype PlatformInfo = PlatformInfo(
    category: Option<string>,
    activityType: Option<string>,
    audience: Option<string>)

  type InfoTable = map<string, PlatformInfo>

  /** `PLATFORM_INFO.get(id, {})`. */
  function InfoOf(info: InfoTable, id: string): PlatformInfo {
    if id in info then info[id] else PlatformInfo(None, None, None)
  }

  /** An entry read with `.get(key)` and tested for truth: a present,
      non-empty string, else "". */
  function Truthy(v: Option<string>): string {
    if v.Some? then v.value else ""
  }

  // ------------------------------------------------------------------
  // Counting results
  // ------------------------------------------------------------------

  /** The tests the classifiers count results by. */
  datatype Criterion =
    | AnyFound                       // `p.found`
    | FoundMonetized                 // found on patreon, youtube, twitch or medium
    | FoundWithAudience(a: string)   // found and `audience == a`
    | FoundNotPublic                 // found and `audience != "public"`

  /** `["patreon", "youtube", "twitch", "medium"]`. */
  const MonetizationPlatforms: seq<string> := ["patreon", "youtube", "twitch", "medium"]

  predicate Matches(info: InfoTable, c: Criterion, r: PlatformResult) {
    match c
    case AnyFound => r.found
    case FoundMonetized => r.found && r.platformId in MonetizationPlatforms
    case FoundWithAudience(a) => r.found && InfoOf(info, r.platformId).audience == Some(a)
    case FoundNotPublic => r.found && InfoOf(info, r.platformId).audience != Some("public")
  }

  /** `sum(1 for p in platforms.values() if ...)`. */
  function Count(ps: seq<PlatformResult>, info: InfoTable, c: Criterion): (n: nat)
    ensures n <= |ps|
    ensures n == 0 <==> forall i :: 0 <= i < |ps| ==> !Matches(info, c, ps[i])
  {
    if ps == [] then 0
    else Count(ps[..|ps| - 1], info, c) + (if Matches(info, c, ps[|ps| - 1]) then 1 else 0)
  }

  lemma {:induction false} CountAppend(ps: seq<PlatformResult>, qs: seq<PlatformResult>,
                                       info: InfoTable, c: Criterion)
    ensures Count(ps + qs, info, c) == Count(ps, info, c) + Count(qs, info, c)
  {
    if qs != [] {
      assert (ps + qs)[..|ps + qs| - 1] == ps + qs[..|qs| - 1];
      CountAppend(ps, qs[..|qs| - 1], info, c);
    } else {
      assert ps + qs == ps;
    }
  }

  /** A test implied by another counts at least as many results. */
  lemma {:induction false} CountImplies(ps: seq<PlatformResult>, info: InfoTable,
                                        c: Criterion, d: Criterion)
    requires forall r :: Matches(info, c, r) ==> Matches(info, d, r)
    ensures Count(ps, info, c) <= Count(ps, info, d)
  {
    if ps != [] {
      CountImplies(ps[..|ps| - 1], info, c, d);
    }
  }

  /** Two tests that agree on every found result count the same. */
  lemma {:induction false} CountSame(ps: seq<PlatformResult>, info: InfoTable,
                                     c: Criterion, d: Criterion)
    requires forall i :: 0 <= i < |ps| ==> (Matches(info, c, ps[i]) <==> Matches(info, d, ps[i]))
    ensures Count(ps, info, c) == Count(ps, info, d)
  {
    if ps != [] {
      CountSame(ps[..|ps| - 1], info, c, d);
    }
  }

  /** Every counted test implies `found`, so no count exceeds the number found. */
  lemma CountAtMostFound(ps: seq<PlatformResult>, info: InfoTable, c: Criterion)
    ensures Count(ps, info, c) <= Count(ps, info, AnyFound)
  {
    CountImplies(ps, info, c, AnyFound);
  }

  /** The ids of the found results. */
  function FoundIds(ps: seq<PlatformResult>): (r: set<string>)
    ensures forall id :: id in r <==> exists i :: 0 <= i < |ps| && ps[i].found && ps[i].platformId == id
  {
    set i | 0 <= i < |ps| && ps[i].found :: ps[i].platformId
  }

  // ------------------------------------------------------------------
  // _find_likely_connections
  // ------------------------------------------------------------------

  /** The fixed `platform_pairs` table, as a dictionary from the primary
      platform to its secondary list. */
  const PlatformPairs: map<string, seq<string>> := map[
    "github" := ["gitlab", "codepen", "stackoverflow"],
    "twitter" := ["linkedin", "instagram", "reddit"],
    "youtube" := ["twitch", "tiktok", "instagram"],
    "linkedin" := ["twitter", "github"]]

  /** `[s for s in xs if s in found]`. */
  function FilterIn(xs: seq<string>, found: set<string>): (r: seq<string>)
    ensures |r| <= |xs|
    ensures forall x :: x in r <==> x in xs && x in found
  {
    if xs == [] then []
    else FilterIn(xs[..|xs| - 1], found) + (if xs[|xs| - 1] in found then [xs[|xs| - 1]] else [])
  }

  /** The filter keeps a list whose members are all found, in order, and
      empties one that has none. */
  lemma {:induction false} FilterInExtremes(xs: seq<string>, found: set<string>)
    ensures (forall i :: 0 <= i < |xs| ==> xs[i] in found) ==> FilterIn(xs, found) == xs
    ensures (forall i :: 0 <= i < |xs| ==> xs[i] !in found) ==> FilterIn(xs, found) == []
  {
    if forall i :: 0 <= i < |xs| ==> xs[i] in found {
      FilterInAll(xs, found);
    }
    if forall i :: 0 <= i < |xs| ==> xs[i] !in found {
      FilterInNone(xs, found);
    }
  }

  lemma {:induction false} FilterInAll(xs: seq<string>, found: set<string>)
    requires forall i :: 0 <= i < |xs| ==> xs[i] in found
    ensures FilterIn(xs, found) == xs
  {
    if xs != [] {
      var init, last := xs[..|xs| - 1], xs[|xs| - 1];
      assert forall i :: 0 <= i < |init| ==> init[i] == xs[i];
      FilterInAll(init, found);
      assert last in found;
      assert FilterIn(xs, found) == FilterIn(init, found) + [last];
      assert xs == init + [last];
    }
  }

  lemma {:induction false} FilterInNone(xs: seq<string>, found: set<string>)
    requires forall i :: 0 <= i < |xs| ==> xs[i] !in found
    ensures FilterIn(xs, found) == []
  {
    if xs != [] {
      var init, last := xs[..|xs| - 1], xs[|xs| - 1];
      assert forall i :: 0 <= i < |init| ==> init[i] == xs[i];
      FilterInNone(init, found);
      assert last !in found;
      assert FilterIn(xs, found) == FilterIn(init, found) + [];
    }
  }

  /** The filter keeps order: filtering a concatenation filters each part. */
  lemma {:induction false} FilterInConcat(xs: seq<string>, ys: seq<string>, found: set<string>)
    ensures FilterIn(xs + ys, found) == FilterIn(xs, found) + FilterIn(ys, found)
  {
    if ys == [] {
      assert xs + ys == xs;
    } else {
      assert (xs + ys)[..|xs + ys| - 1] == xs + ys[..|ys| - 1];
      FilterInConcat(xs, ys[..|ys| - 1], found);
    }
  }

  /** `_find_likely_connections`: one entry per found primary platform,
      holding its secondary platforms that were found too. */
  function LikelyConnections(ps: seq<PlatformResult>): (r: map<string, seq<string>>)
    ensures r.Keys == PlatformPairs.Keys * FoundIds(ps)
    ensures forall k :: k in r ==> r[k] == FilterIn(PlatformPairs[k], FoundIds(ps))
  {
    var found := FoundIds(ps);
    map k | k in PlatformPairs && k in found :: FilterIn(PlatformPairs[k], found)
  }

  /** Each listed connection is a found secondary platform of its primary,
      in the table's order, and every found secondary is listed. */
  lemma ConnectionsAreFoundSecondaries(ps: seq<PlatformResult>, k: string)
    requires k in LikelyConnections(ps)
    ensures k in FoundIds(ps)
    ensures forall x :: x in LikelyConnections(ps)[k] <==> x in PlatformPairs[k] && x in FoundIds(ps)
  {
  }

  // ------------------------------------------------------------------
  // _check_monetization
  // ------------------------------------------------------------------

  /** `_check_monetization`: by the number of found results on a
      monetisation platform. */
  function MonetizationStatus(ps: seq<PlatformResult>, info: InfoTable): (r: string)
    ensures r == "active_monetization" <==> Count(ps, info, FoundMonetized) >= 2
    ensures r == "partial_monetization" <==> Count(ps, info, FoundMonetized) == 1
    ensures r == "no_monetization" <==> forall i :: 0 <= i < |ps| ==>
              !(ps[i].found && ps[i].platformId in MonetizationPlatforms)
  {
    var n := Count(ps, info, FoundMonetized);
    if n >= 2 then "active_monetization"
    else if n == 1 then "partial_monetization"
    else "no_monetization"
  }

  /** The order of the monetisation classes. */
  function MonetizationRank(s: string): nat {
    if s == "active_monetization" then 2 else if s == "partial_monetization" then 1 else 0
  }

  /** More results never lower the monetisation class. */
  lemma MonetizationMonotone(ps: seq<PlatformResult>, qs: seq<PlatformResult>, info: InfoTable)
    ensures MonetizationRank(MonetizationStatus(ps, info)) <= MonetizationRank(MonetizationStatus(ps + qs, info))
  {
    CountAppend(ps, qs, info, FoundMonetized);
  }

  // ------------------------------------------------------------------
  // _analyze_activity_profile
  // ------------------------------------------------------------------

  function ActivityOf(info: InfoTable, r: PlatformResult): string {
    Truthy(InfoOf(info, r.platformId).activityType)
  }

  /** The keys of `activity_types`: the non-empty activity types of the
      found results. */
  function ActivityTypes(ps: seq<PlatformResult>, info: InfoTable): (r: set<string>)
    ensures forall a :: a in r <==> (a != "" &&
              exists i :: 0 <= i < |ps| && ps[i].found && ActivityOf(info, ps[i]) == a)
  {
    set i | 0 <= i < |ps| && ps[i].found && ActivityOf(info, ps[i]) != "" :: ActivityOf(info, ps[i])
  }

  /** `_analyze_activity_profile`: by the number of distinct activity types. */
  function ActivityProfile(ps: seq<PlatformResult>, info: InfoTable): (r: string)
    ensures r == "inactive" <==> ActivityTypes(ps, info) == {}
    ensures r == "specialized" <==> |ActivityTypes(ps, info)| == 1
    ensures r == "multi_interest" <==> 2 <= |ActivityTypes(ps, info)| <= 3
    ensures r == "highly_diverse" <==> |ActivityTypes(ps, info)| >= 4
  {
    var n := |ActivityTypes(ps, info)|;
    if n == 0 then "inactive"
    else if n >= 4 then "highly_diverse"
    else if n >= 2 then "multi_interest"
    else "specialized"
  }

  function ActivityRank(s: string): nat {
    if s == "highly_diverse" then 3 else if s == "multi_interest" then 2
    else if s == "specialized" then 1 else 0
  }

  /** More results never lower the activity class. */
  lemma ActivityMonotone(ps: seq<PlatformResult>, qs: seq<PlatformResult>, info: InfoTable)
    ensures ActivityRank(ActivityProfile(ps, info)) <= ActivityRank(ActivityProfile(ps + qs, info))
  {
    var a, b := ActivityTypes(ps, info), ActivityTypes(ps + qs, info);
    forall x | x in a
      ensures x in b
    {
      var i :| 0 <= i < |ps| && ps[i].found && ActivityOf(info, ps[i]) == x;
      assert (ps + qs)[i] == ps[i];
    }
    SubsetCard(a, b);
  }

  // ------------------------------------------------------------------
  // _assess_privacy_awareness
  // ------------------------------------------------------------------

  /** `(private_count + configurable_count) / total_found`, exactly. */
  function PrivacyRatio(ps: seq<PlatformResult>, info: InfoTable): (q: real)
    requires Count(ps, info, AnyFound) > 0
    ensures 0.0 <= q <= 2.0
  {
    var priv := Count(ps, info, FoundNotPublic);
    var conf := Count(ps, info, FoundWithAudience("configurable"));
    var total := Count(ps, info, AnyFound);
    CountAtMostFound(ps, info, FoundNotPublic);
    CountAtMostFound(ps, info, FoundWithAudience("configurable"));
    RatioBound(priv + conf, total);
    (priv + conf) as real / total as real
  }

  lemma RatioBound(n: nat, total: nat)
    requires 0 < total && n <= 2 * total
    ensures 0.0 <= n as real / total as real <= 2.0
  {
    assert n as real <= 2.0 * total as real;
  }

  /** `_assess_privacy_awareness`. */
  function PrivacyAwareness(ps: seq<PlatformResult>, info: InfoTable): (r: string)
    ensures r == "not_applicable" <==> forall i :: 0 <= i < |ps| ==> !ps[i].found
    ensures r == "privacy_conscious" <==> Count(ps, info, AnyFound) > 0 && PrivacyRatio(ps, info) > 0.7
    ensures r == "privacy_negligent" <==> Count(ps, info, AnyFound) > 0 && PrivacyRatio(ps, info) < 0.3
    ensures r == "average" <==> Count(ps, info, AnyFound) > 0 && 0.3 <= PrivacyRatio(ps, info) <= 0.7
  {
    if Count(ps, info, AnyFound) == 0 then "not_applicable"
    else if PrivacyRatio(ps, info) > 0.7 then "privacy_conscious"
    else if PrivacyRatio(ps, info) < 0.3 then "privacy_negligent"
    else "average"
  }

  /** Configurable profiles count twice: a user found only on
      configurable-audience platforms has ratio 2 and is privacy conscious. */
  lemma AllConfigurableIsConscious(ps: seq<PlatformResult>, info: InfoTable)
    requires exists i :: 0 <= i < |ps| && ps[i].found
    requires forall i :: 0 <= i < |ps| && ps[i].found ==>
               InfoOf(info, ps[i].platformId).audience == Some("configurable")
    ensures PrivacyRatio(ps, info) == 2.0
    ensures PrivacyAwareness(ps, info) == "privacy_conscious"
  {
    CountSame(ps, info, FoundNotPublic, AnyFound);
    CountSame(ps, info, FoundWithAudience("configurable"), AnyFound);
    RatioTwo(Count(ps, info, AnyFound));
  }

  lemma RatioTwo(t: nat)
    requires t > 0
    ensures (t + t) as real / t as real == 2.0
  {
    assert (t + t) as real == 2.0 * t as real;
  }

  /** A user found only on public platforms has ratio 0 and is privacy negligent. */
  lemma AllPublicIsNegligent(ps: seq<PlatformResult>, info: InfoTable)
    requires exists i :: 0 <= i < |ps| && ps[i].found
    requires forall i :: 0 <= i < |ps| && ps[i].found ==>
               InfoOf(info, ps[i].platformId).audience == Some("public")
    ensures PrivacyRatio(ps, info) == 0.0
    ensures PrivacyAwareness(ps, info) == "privacy_negligent"
  {
  }

  // ------------------------------------------------------------------
  // _identify_primary_interest
  // ------------------------------------------------------------------

  function CategoryOf(info: InfoTable, r: PlatformResult): string {
    Truthy(InfoOf(info, r.platformId).category)
  }

  /** The categories counted by the loop, one per found result with a
      non-empty category, in result order. */
  function Categories(ps: seq<PlatformResult>, info: InfoTable): (cs: seq<string>)
    ensures forall c :: c in cs ==> c != ""
    ensures cs == [] <==> forall i :: 0 <= i < |ps| ==> !(ps[i].found && CategoryOf(info, ps[i]) != "")
  {
    if ps == [] then []
    else
      var last := ps[|ps| - 1];
      Categories(ps[..|ps| - 1], info) + (if last.found && CategoryOf(info, last) != "" then [CategoryOf(info, last)] else [])
  }

  /** `max(d.items(), key=count)`: the position of the first item of
      maximal count, as a left-to-right scan that replaces its candidate
      only on a strictly larger count finds it. */
  function FirstMaxIndex<K>(d: seq<(K, nat)>): (m: nat)
    requires d != []
    ensures m < |d|
    ensures forall j :: 0 <= j < |d| ==> d[j].1 <= d[m].1
    ensures forall j :: 0 <= j < m ==> d[j].1 < d[m].1
  {
    if |d| == 1 then 0
    else
      var m := FirstMaxIndex(d[..|d| - 1]);
      if d[|d| - 1].1 > d[m].1 then |d| - 1 else m
  }

  /** `_identify_primary_interest`. */
  function PrimaryInterest(ps: seq<PlatformResult>, info: InfoTable): (r: string)
    ensures Categories(ps, info) == [] ==> r == "unknown"
  {
    var cs := Categories(ps, info);
    var counts := TallyOf(cs);
    if cs == [] then "unknown"
    else
      TallyKeys(cs, cs[0]);
      TallyNonEmpty(cs);
      counts[FirstMaxIndex(counts)].0
  }

  lemma TallyNonEmpty<K>(xs: seq<K>)
    requires xs != []
    ensures TallyOf(xs) != []
  {
    TallyKeys(xs, xs[0]);
  }

  /** A key of the tally sits at some position of it. */
  lemma {:induction false} HasKeyAt<K>(d: seq<(K, nat)>, k: K) returns (i: nat)
    requires HasKey(d, k)
    ensures i < |d| && d[i].0 == k && d[i].1 == Lookup(d, k)
  {
    if d[0].0 == k {
      i := 0;
    } else {
      var j := HasKeyAt(d[1..], k);
      i := j + 1;
    }
  }

  /** An entry's key is a key of the tally, and in a well-formed tally its
      count is that key's count. */
  lemma {:induction false} EntryLookup<K>(d: seq<(K, nat)>, i: nat)
    requires WellFormed(d) && i < |d|
    ensures HasKey(d, d[i].0) && Lookup(d, d[i].0) == d[i].1
  {
    if i > 0 {
      EntryLookup(d[1..], i - 1);
      assert d[1..][i - 1] == d[i];
      if d[0].0 == d[i].0 {
        assert false;
      }
    }
  }

  /** The primary interest is a category that occurs among the found
      results at least as often as any other, and every category that
      entered the count before it occurs strictly less often. */
  lemma PrimaryInterestIsMostFrequent(ps: seq<PlatformResult>, info: InfoTable, k: string)
    requires Categories(ps, info) != []
    ensures PrimaryInterest(ps, info) in Categories(ps, info)
    ensures Occurrences(Categories(ps, info), k) <= Occurrences(Categories(ps, info), PrimaryInterest(ps, info))
  {
    var cs := Categories(ps, info);
    var counts := TallyOf(cs);
    TallyNonEmpty(cs);
    var m := FirstMaxIndex(counts);
    var r := counts[m].0;
    TallyWellFormed(cs);
    EntryLookup(counts, m);
    TallyKeys(cs, r);
    TallyCounts(cs, r);
    TallyCounts(cs, k);
    if HasKey(counts, k) {
      var j := HasKeyAt(counts, k);
    } else {
      LookupPositive(counts, k);
    }
  }

  /** The tie-break: among the entries of the count, in insertion order,
      every entry before the primary interest has a strictly smaller count. */
  lemma PrimaryInterestFirstOfMaximal(ps: seq<PlatformResult>, info: InfoTable)
    requires Categories(ps, info) != []
    ensures var counts := TallyOf(Categories(ps, info));
            exists m :: 0 <= m < |counts| && counts[m].0 == PrimaryInterest(ps, info) &&
              (forall j :: 0 <= j < m ==> counts[j].1 < counts[m].1) &&
              (forall j :: 0 <= j < |counts| ==> counts[j].1 <= counts[m].1)
  {
    var cs := Categories(ps, info);
    var counts := TallyOf(cs);
    TallyNonEmpty(cs);
    var m := FirstMaxIndex(counts);
    assert PrimaryInterest(ps, info) == counts[m].0;
    assert 0 <= m < |counts| && counts[m].0 == PrimaryInterest(ps, info) &&
           (forall j :: 0 <= j < m ==> counts[j].1 < counts[m].1) &&
           (forall j :: 0 <= j < |counts| ==> counts[j].1 <= counts[m].1);
  }

  // ------------------------------------------------------------------
  // _detect_anomalies
  // ------------------------------------------------------------------

  /** The two anomaly messages. */
  datatype Anomaly = SlowResponse(platformNames: seq<string>) | ProfileBlocking {
    function Message(): string {
      match this
      case SlowResponse(names) => "Slow response from: " + JoinBy(names, ", ")
      case ProfileBlocking => "Profile blocking detected - possible account restriction"
    }
  }

  /** `_detect_anomalies`, given the names of the slow platforms (whose
      selection compares response times against their float average): the
      slow-response message when there are any, then the blocking message
      when some result, found or not, has status "blocked". */
  function DetectAnomalies(ps: seq<PlatformResult>, slowPlatforms: seq<string>): (r: seq<Anomaly>)
    ensures ProfileBlocking in r <==> exists i :: 0 <= i < |ps| && ps[i].status == "blocked"
    ensures SlowResponse(slowPlatforms) in r <==> slowPlatforms != []
    ensures |r| <= 2 && (|r| == 2 ==> r[0].SlowResponse? && r[1] == ProfileBlocking)
    ensures r == [] <==> slowPlatforms == [] && forall i :: 0 <= i < |ps| ==> ps[i].status != "blocked"
  {
    var slow := if slowPlatforms != [] then [SlowResponse(slowPlatforms)] else [];
    var blocked := exists i :: 0 <= i < |ps| && ps[i].status == "blocked";
    slow + (if blocked then [ProfileBlocking] else [])
  }

  // ------------------------------------------------------------------
  // calculate_risk_score
  // ------------------------------------------------------------------

  /** `RiskLevel` (core/models.py). */
  datatype RiskLevel = Low | Medium | High | Critical {
    function Label(): string {
      match this
      case Low => "🟢 LOW"
      case Medium => "🟡 MEDIUM"
      case High => "🔴 HIGH"
      case Critical => "⚫ CRITICAL"
    }
    function Color(): string {
      match this
      case Low => "green"
      case Medium => "yellow"
      case High => "red"
      case Critical => "bold red"
    }
    function Score(): nat {
      match this
      case Low => 1
      case Medium => 2
      case High => 3
      case Critical => 4
    }
    /** The least overall score that reaches this level. */
    function Threshold(): real {
      match this
      case Low => 0.0
      case Medium => 0.40
      case High => 0.60
      case Critical => 0.75
    }
  }

  /** The level thresholds of `calculate_risk_score`. */
  function LevelOf(score: real): (l: RiskLevel) {
    if score >= 0.75 then Critical
    else if score >= 0.60 then High
    else if score >= 0.40 then Medium
    else Low
  }

  /** A score reaches a level exactly when it is at least that level's
      threshold (for a non-negative score). */
  lemma LevelThresholds(score: real, l: RiskLevel)
    requires score >= 0.0
    ensures LevelOf(score).Score() >= l.Score() <==> score >= l.Threshold()
  {
  }

  /** The level is a monotone step function of the score. */
  lemma LevelMonotone(s: real, t: real)
    requires s <= t
    ensures LevelOf(s).Score() <= LevelOf(t).Score()
  {
  }

  /** `calculate_risk_score`, given the average of its risk factors: no
      results scores 0.0 at LOW; otherwise the average is capped at 1.0
      and the level read off the capped score. */
  function RiskAssessment(ps: seq<PlatformResult>, factorAverage: real): (r: (real, RiskLevel))
    ensures ps == [] ==> r == (0.0, Low)
    ensures ps != [] ==> r.0 <= 1.0 && r.1 == LevelOf(factorAverage)
    ensures ps != [] && factorAverage <= 1.0 ==> r.0 == factorAverage
  {
    if ps == [] then (0.0, Low)
    else
      var capped := if factorAverage < 1.0 then factorAverage else 1.0;
      (capped, LevelOf(capped))
  }
}
