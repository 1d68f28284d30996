/**
 * The behavioural observer (supabase/functions/ice-wall-backend/observer.ts):
 * after every validation it extracts a feature record from the request,
 * buckets it into a normalised record, hashes that, classifies the traffic as
 * legitimate, blocked or suspicious and hands the three to the
 * `upsert_behavioral_pattern` procedure, swallowing every error.
 *
 * The clock is the explicit `nowMs` (milliseconds since the epoch), URL
 * parsing is reduced to its pieces (path, search string, query keys and
 * whether the URL parsed at all), SHA-256 over the JSON text is an abstract
 * `digest` and the stored procedure is a log of the calls that succeeded.
 */
module Observer {

  import opened Base
  import opened Text

  datatype PlatformCategory = BotCategory | MobileCategory | DesktopCategory | UnknownCategory

  /** `BehavioralFeatures` */
  datatype Features = Features(
    hourOfDay: nat,
    dayOfWeek: nat,
    hasUserAgent: bool,
    hasReferer: bool,
    hasAcceptLanguage: bool,
    headerCount: nat,
    isDirectAccess: bool,
    urlDepth: nat,
    hasQueryParams: bool,
    queryParamCount: nat,
    bypassParamPresent: bool,
    bypassParamValid: bool,
    isMobile: bool,
    platformCategory: PlatformCategory,
    headerOrderEntropy: real,
    headerCaseConsistency: bool)

  /** The parts of the request URL the observer reads; `queryKeys` are the keys `URLSearchParams` reports. */
  datatype RequestUrl = RequestUrl(pathname: string, search: string, queryKeys: seq<string>)

  /** `ValidationData` */
  datatype ValidationData = ValidationData(ip: string, userAgent: string, headers: Headers, country: string)

  const MsPerHour := 3600000
  const MsPerDay := 86400000

  /** `getUTCHours()` */
  function UtcHour(nowMs: nat): (h: nat)
    ensures h < 24
  {
    (nowMs / MsPerHour) % 24
  }

  /** `getUTCDay()`: 0 is Sunday, and the epoch fell on a Thursday. */
  function UtcDay(nowMs: nat): (d: nat)
    ensures d < 7
    ensures nowMs < MsPerDay ==> d == 4
  {
    (nowMs / MsPerDay + 4) % 7
  }

  // ---------------------------------------------------------------------
  // Header order and casing
  // ---------------------------------------------------------------------

  const StandardOrder := ["HOST", "USER-AGENT", "ACCEPT", "ACCEPT-LANGUAGE", "ACCEPT-ENCODING", "REFERER", "CONNECTION"]

  /** Whether the key at position `i` names a header of `order` lying within two places of its slot there. */
  predicate NearSlot(order: seq<string>, keys: seq<string>, i: nat)
    requires i < |keys|
  {
    match Position(order, Upper(keys[i]))
    case None => false
    case Some(expected) => Abs(expected - i) <= 2
  }

  /** Number of the first `n` keys that sit near their slot in `order`. */
  function NearSlotCount(order: seq<string>, keys: seq<string>, n: nat): (c: nat)
    requires n <= |keys|
    ensures c <= n
  {
    if n == 0 then 0
    else NearSlotCount(order, keys, n - 1) + (if NearSlot(order, keys, n - 1) then 1 else 0)
  }

  /** The share of all keys that sit near their slot, 0 for no keys. */
  function OrderEntropy(order: seq<string>, keys: seq<string>): (e: real)
    ensures 0.0 <= e <= 1.0
    ensures keys == [] ==> e == 0.0
  {
    if |keys| == 0 then 0.0
    else
      var c, n := NearSlotCount(order, keys, |keys|) as real, |keys| as real;
      assert c <= n * 1.0;
      assert c / n <= 1.0 by { ShareAtMostOne(c, n); }
      c / n
  }

  lemma ShareAtMostOne(c: real, n: real)
    requires 0.0 <= c <= n && n > 0.0
    ensures c / n <= 1.0
  {
    assert c / n * n == c;
  }

  /** `calculateHeaderOrderEntropy`, for the list `order` of expected names. */
  method HeaderOrderEntropy(order: seq<string>, keys: seq<string>) returns (e: real)
    ensures e == OrderEntropy(order, keys)
  {
    if |keys| == 0 {
      return 0.0;
    }
    var matchCount := 0;
    var index := 0;
    while index < |keys|
      invariant 0 <= index <= |keys|
      invariant matchCount == NearSlotCount(order, keys, index)
    {
      var expectedIndex := Position(order, Upper(keys[index]));
      if expectedIndex.Some? && Abs(expectedIndex.value - index) <= 2 {
        matchCount := matchCount + 1;
      }
      index := index + 1;
    }
    e := matchCount as real / |keys| as real;
  }

  /** No name occurs twice in `order`. */
  predicate Distinct(order: seq<string>)
  {
    forall i, j :: 0 <= i < j < |order| ==> order[i] != order[j]
  }

  /** Keys that spell out the expected order, in any letter case, score 1. */
  lemma {:induction false} ExpectedOrderScoresOne(order: seq<string>, keys: seq<string>)
    requires Distinct(order)
    requires 0 < |keys| <= |order|
    requires forall i :: 0 <= i < |keys| ==> Upper(keys[i]) == order[i]
    ensures OrderEntropy(order, keys) == 1.0
  {
    AllNearSlot(order, keys, |keys|);
  }

  lemma {:induction false} AllNearSlot(order: seq<string>, keys: seq<string>, n: nat)
    requires Distinct(order)
    requires n <= |keys| <= |order|
    requires forall i :: 0 <= i < |keys| ==> Upper(keys[i]) == order[i]
    ensures NearSlotCount(order, keys, n) == n
  {
    if n > 0 {
      AllNearSlot(order, keys, n - 1);
      var p := Position(order, Upper(keys[n - 1]));
      assert p == Some(n - 1);
    }
  }

  /** Keys none of which is an expected name score 0. */
  lemma {:induction false} UnknownKeysScoreZero(order: seq<string>, keys: seq<string>, n: nat)
    requires n <= |keys|
    requires forall i :: 0 <= i < |keys| ==> Upper(keys[i]) !in order
    ensures NearSlotCount(order, keys, n) == 0
  {
    if n > 0 {
      UnknownKeysScoreZero(order, keys, n - 1);
    }
  }

  lemma StandardOrderDistinct()
    ensures Distinct(StandardOrder)
  {
  }

  predicate AllUpperCase(keys: seq<string>) { forall i :: 0 <= i < |keys| ==> keys[i] == Upper(keys[i]) }
  predicate AllLowerCase(keys: seq<string>) { forall i :: 0 <= i < |keys| ==> keys[i] == Lower(keys[i]) }

  /** Every `-`-separated part is non-empty and starts with a character that upper-casing leaves alone. */
  predicate PartsCapitalised(k: string)
  {
    forall part | part in Split(k, '-') :: |part| > 0 && part[0] == UpperChar(part[0])
  }

  predicate AllTitleCase(keys: seq<string>) { forall i :: 0 <= i < |keys| ==> PartsCapitalised(keys[i]) }

  /** `checkHeaderCaseConsistency` */
  predicate CaseConsistent(keys: seq<string>)
  {
    |keys| == 0 || AllUpperCase(keys) || AllLowerCase(keys) || AllTitleCase(keys)
  }

  lemma UpperIdempotent(k: string)
    ensures Upper(Upper(k)) == Upper(k)
  {
    var u := Upper(k);
    forall i | 0 <= i < |u|
      ensures Upper(u)[i] == u[i]
    {
      assert !IsLowerAscii(u[i]);
    }
  }

  lemma LowerIdempotent(k: string)
    ensures Lower(Lower(k)) == Lower(k)
  {
    var l := Lower(k);
    forall i | 0 <= i < |l|
      ensures Lower(l)[i] == l[i]
    {
      assert !IsUpperAscii(l[i]);
    }
  }

  /** Any list of upper-cased keys is consistent. */
  lemma UpperCasedKeysConsistent(keys: seq<string>)
    ensures CaseConsistent(seq(|keys|, i requires 0 <= i < |keys| => Upper(keys[i])))
  {
    var ks := seq(|keys|, i requires 0 <= i < |keys| => Upper(keys[i]));
    forall i | 0 <= i < |ks|
      ensures ks[i] == Upper(ks[i])
    {
      UpperIdempotent(keys[i]);
    }
  }

  /** Any list of lower-cased keys is consistent. */
  lemma LowerCasedKeysConsistent(keys: seq<string>)
    ensures CaseConsistent(seq(|keys|, i requires 0 <= i < |keys| => Lower(keys[i])))
  {
    var ks := seq(|keys|, i requires 0 <= i < |keys| => Lower(keys[i]));
    forall i | 0 <= i < |ks|
      ensures ks[i] == Lower(ks[i])
    {
      LowerIdempotent(keys[i]);
    }
  }

  /** Dropping or reordering headers never makes a consistent list inconsistent. */
  lemma ConsistencyKeptBySublist(keys: seq<string>, sub: seq<string>)
    requires CaseConsistent(keys)
    requires forall j :: 0 <= j < |sub| ==> sub[j] in keys
    ensures CaseConsistent(sub)
  {
    if |sub| > 0 {
      assert sub[0] in keys;
      if AllUpperCase(keys) {
        forall j | 0 <= j < |sub| ensures sub[j] == Upper(sub[j]) {
          var i :| 0 <= i < |keys| && keys[i] == sub[j];
        }
      } else if AllLowerCase(keys) {
        forall j | 0 <= j < |sub| ensures sub[j] == Lower(sub[j]) {
          var i :| 0 <= i < |keys| && keys[i] == sub[j];
        }
      } else {
        forall j | 0 <= j < |sub| ensures PartsCapitalised(sub[j]) {
          var i :| 0 <= i < |keys| && keys[i] == sub[j];
        }
      }
    }
  }

  // ---------------------------------------------------------------------
  // Feature extraction
  // ---------------------------------------------------------------------

  const MobileWords := ["mobile", "android", "iphone", "ipad", "ipod", "blackberry", "windows phone"]
  const BotWords := ["bot", "crawler", "spider", "scraper"]

  /** The platform bucket of an already lower-cased user agent. */
  function Category(ua: string): (c: PlatformCategory)
    ensures c == BotCategory <==> ContainsAny(ua, BotWords)
    ensures c == MobileCategory <==> !ContainsAny(ua, BotWords) && ContainsAny(ua, MobileWords)
    ensures c == DesktopCategory <==> !ContainsAny(ua, BotWords) && !ContainsAny(ua, MobileWords) && ua != "" && ua != "unknown"
    ensures c == UnknownCategory <==> !ContainsAny(ua, BotWords) && !ContainsAny(ua, MobileWords) && (ua == "" || ua == "unknown")
  {
    if ContainsAny(ua, BotWords) then BotCategory
    else if ContainsAny(ua, MobileWords) then MobileCategory
    else if ua != "" && ua != "unknown" then DesktopCategory
    else UnknownCategory
  }

  /** `extractBehavioralFeatures`, with the header-order share given by `OrderEntropy`. */
  function FeaturesOf(nowMs: nat, url: RequestUrl, data: ValidationData, bypassParam: string): (f: Features)
    ensures f.hourOfDay < 24 && f.dayOfWeek < 7
    ensures f.isDirectAccess == !f.hasReferer
    ensures !f.bypassParamValid
    ensures f.headerCount == |data.headers|
    ensures f.hasUserAgent <==> data.userAgent != "" && data.userAgent != "unknown"
    ensures f.hourOfDay == UtcHour(nowMs) && f.dayOfWeek == UtcDay(nowMs)
    ensures f.bypassParamPresent <==> bypassParam != "" && Contains(url.search, bypassParam)
    ensures f.hasReferer <==> Get(data.headers, "REFERER") != "" || Get(data.headers, "Referer") != ""
    ensures f.hasAcceptLanguage <==> Get(data.headers, "ACCEPT-LANGUAGE") != "" || Get(data.headers, "Accept-Language") != ""
    ensures f.urlDepth == SegmentStarts(url.pathname, '/', true)
    ensures f.hasQueryParams <==> |url.search| > 0
    ensures f.queryParamCount == |url.queryKeys|
    ensures f.platformCategory == Category(Lower(data.userAgent))
    ensures f.headerCaseConsistency == CaseConsistent(Keys(data.headers))
    ensures f.headerOrderEntropy == OrderEntropy(StandardOrder, Keys(data.headers)) && 0.0 <= f.headerOrderEntropy <= 1.0
    ensures f.isMobile <==> f.platformCategory == MobileCategory || (f.platformCategory == BotCategory && ContainsAny(Lower(data.userAgent), MobileWords))
  {
    DepthCountsSegmentStarts(url.pathname, '/');
    RequestFeatures(url, data, bypassParam, OrderEntropy(StandardOrder, Keys(data.headers))).(hourOfDay := UtcHour(nowMs), dayOfWeek := UtcDay(nowMs))
  }

  /** The features that do not depend on the clock, with the header-order share given. */
  function RequestFeatures(url: RequestUrl, data: ValidationData, bypassParam: string, entropy: real): (f: Features)
    ensures f.headerOrderEntropy == entropy
  {
    var h := data.headers;
    var keys := Keys(h);
    var hasReferer := Get(h, "REFERER") != "" || Get(h, "Referer") != "";
    var ua := Lower(data.userAgent);
    Features(
      0,
      0,
      data.userAgent != "" && data.userAgent != "unknown",
      hasReferer,
      Get(h, "ACCEPT-LANGUAGE") != "" || Get(h, "Accept-Language") != "",
      |keys|,
      !hasReferer,
      CountNonEmpty(Split(url.pathname, '/')),
      |url.search| > 0,
      |url.queryKeys|,
      bypassParam != "" && Contains(url.search, bypassParam),
      false,
      ContainsAny(ua, MobileWords),
      Category(ua),
      entropy,
      CaseConsistent(keys))
  }

  /** `extractBehavioralFeatures`: the header-order share is computed by its loop. */
  method ExtractFeatures(nowMs: nat, url: RequestUrl, data: ValidationData, bypassParam: string) returns (f: Features)
    ensures f == FeaturesOf(nowMs, url, data, bypassParam)
  {
    var entropy := HeaderOrderEntropy(StandardOrder, Keys(data.headers));
    f := RequestFeatures(url, data, bypassParam, entropy).(hourOfDay := UtcHour(nowMs), dayOfWeek := UtcDay(nowMs));
  }

  /**
   * Number of segment starts in `s`: positions holding a non-`sep` character
   * right after a `sep` (or, when `afterSep` holds, at the very start).
   */
  function SegmentStarts(s: string, sep: char, afterSep: bool): nat
  {
    if |s| == 0 then 0
    else (if s[0] != sep && afterSep then 1 else 0) + SegmentStarts(s[1..], sep, s[0] == sep)
  }

  /** The URL depth counts the path's non-empty segments: one per segment start. */
  lemma {:induction false} DepthCountsSegmentStarts(s: string, sep: char)
    ensures CountNonEmpty(Split(s, sep)) == SegmentStarts(s, sep, true)
    ensures CountNonEmpty(Split(s, sep)[1..]) == SegmentStarts(s, sep, false)
  {
    if |s| > 0 {
      DepthCountsSegmentStarts(s[1..], sep);
      var rest := Split(s[1..], sep);
      var parts := Split(s, sep);
      if s[0] == sep {
        assert parts[1..] == rest;
      } else {
        assert parts[1..] == rest[1..];
        assert rest[0] == "" <==> |s| == 1 || s[1] == sep by {
          SplitHeadEmpty(s[1..], sep);
        }
      }
    }
  }

  /** The first piece of a split is empty exactly when the string is empty or starts with the separator. */
  lemma SplitHeadEmpty(s: string, sep: char)
    ensures Split(s, sep)[0] == "" <==> |s| == 0 || s[0] == sep
  {
  }

  // ---------------------------------------------------------------------
  // Normalisation and hashing
  // ---------------------------------------------------------------------

  /** The normalised record `generatePatternHash` serialises. */
  datatype Normalized = Normalized(
    timeBucket: nat,
    weekday: bool,
    headerCompleteness: nat,
    navigationDepth: nat,
    bypassPresent: bool,
    bypassValid: bool,
    platform: PlatformCategory,
    headerCountBucket: nat,
    isDirect: bool)

  function B(b: bool): nat { if b then 1 else 0 }

  function Normalize(f: Features): (n: Normalized)
    ensures n.timeBucket == f.hourOfDay / 4 && (f.hourOfDay < 24 ==> n.timeBucket <= 5)
    ensures n.weekday <==> f.dayOfWeek < 5
    ensures n.headerCompleteness <= 3
    ensures n.headerCompleteness == 3 <==> f.hasUserAgent && f.hasReferer && f.hasAcceptLanguage
    ensures n.navigationDepth == (if f.urlDepth <= 5 then f.urlDepth else 5)
    ensures n.headerCountBucket == (if f.headerCount < 25 then f.headerCount / 5 else 5)
    ensures n.bypassPresent == f.bypassParamPresent && n.bypassValid == f.bypassParamValid
    ensures n.platform == f.platformCategory && n.isDirect == f.isDirectAccess
  {
    Normalized(
      f.hourOfDay / 4,
      f.dayOfWeek < 5,
      B(f.hasUserAgent) + B(f.hasReferer) + B(f.hasAcceptLanguage),
      MinI(f.urlDepth, 5),
      f.bypassParamPresent,
      f.bypassParamValid,
      f.platformCategory,
      MinI(f.headerCount / 5, 5),
      f.isDirectAccess)
  }

  function PlatformName(p: PlatformCategory): string
  {
    match p
    case BotCategory => "bot"
    case MobileCategory => "mobile"
    case DesktopCategory => "desktop"
    case UnknownCategory => "unknown"
  }

  function BoolText(b: bool): string { if b then "true" else "false" }

  /** `JSON.stringify` of the normalised record, fields in declaration order. */
  function Serialize(n: Normalized): string
  {
    "{\"time_bucket\":" + NatToString(n.timeBucket)
    + ",\"day_type\":" + (if n.weekday then "\"weekday\"" else "\"weekend\"")
    + ",\"header_completeness\":" + NatToString(n.headerCompleteness)
    + ",\"navigation_depth\":" + NatToString(n.navigationDepth)
    + ",\"bypass_status\":\"" + BoolText(n.bypassPresent) + "_" + BoolText(n.bypassValid) + "\""
    + ",\"platform\":\"" + PlatformName(n.platform) + "\""
    + ",\"header_count_bucket\":" + NatToString(n.headerCountBucket)
    + ",\"is_direct\":" + BoolText(n.isDirect) + "}"
  }

  /** `generatePatternHash`, with SHA-256 and hex encoding abstracted as `digest`. */
  function PatternHash(f: Features, digest: string -> string): string
  {
    digest(Serialize(Normalize(f)))
  }

  /**
   * Two requests that fall in the same buckets get the same pattern hash,
   * whatever their exact hour, header count, depth beyond five, query
   * parameters, header order or casing.
   */
  lemma SameBucketsSameHash(f: Features, g: Features, digest: string -> string)
    requires f.hourOfDay / 4 == g.hourOfDay / 4
    requires (f.dayOfWeek < 5) == (g.dayOfWeek < 5)
    requires B(f.hasUserAgent) + B(f.hasReferer) + B(f.hasAcceptLanguage) == B(g.hasUserAgent) + B(g.hasReferer) + B(g.hasAcceptLanguage)
    requires MinI(f.urlDepth, 5) == MinI(g.urlDepth, 5)
    requires MinI(f.headerCount / 5, 5) == MinI(g.headerCount / 5, 5)
    requires f.bypassParamPresent == g.bypassParamPresent && f.bypassParamValid == g.bypassParamValid
    requires f.platformCategory == g.platformCategory && f.isDirectAccess == g.isDirectAccess
    ensures Normalize(f) == Normalize(g)
    ensures PatternHash(f, digest) == PatternHash(g, digest)
  {
  }

  /** Feature records built from one request at two moments of the same four-hour block get the same hash. */
  lemma HashStableWithinTimeBucket(t1: nat, t2: nat, url: RequestUrl, data: ValidationData, bypassParam: string, digest: string -> string)
    requires t1 / (4 * MsPerHour) == t2 / (4 * MsPerHour)
    requires t1 / MsPerDay == t2 / MsPerDay
    ensures PatternHash(FeaturesOf(t1, url, data, bypassParam), digest) == PatternHash(FeaturesOf(t2, url, data, bypassParam), digest)
  {
    SameBlockSameBuckets(t1, t2);
    var f1 := FeaturesOf(t1, url, data, bypassParam);
    var f2 := FeaturesOf(t2, url, data, bypassParam);
    assert f2 == f1.(hourOfDay := UtcHour(t2), dayOfWeek := UtcDay(t2));
    SameBucketsSameHash(f1, f2, digest);
  }

  lemma SameBlockSameBuckets(t1: nat, t2: nat)
    requires t1 / (4 * MsPerHour) == t2 / (4 * MsPerHour)
    requires t1 / MsPerDay == t2 / MsPerDay
    ensures UtcHour(t1) / 4 == UtcHour(t2) / 4
    ensures UtcDay(t1) == UtcDay(t2)
  {
    BucketOfHour(t1);
    BucketOfHour(t2);
  }

  /** The four-hour bucket of the UTC hour is the four-hour block within the day. */
  lemma BucketOfHour(t: nat)
    ensures UtcHour(t) / 4 == (t / (4 * MsPerHour)) % 6
  {
    var h := t / MsPerHour;
    assert h / 4 == t / (4 * MsPerHour);
    var k := h / 24;
    assert h == 24 * k + h % 24;
    assert h / 4 == 6 * k + (h % 24) / 4;
  }

  // ---------------------------------------------------------------------
  // Classification and the upsert
  // ---------------------------------------------------------------------

  datatype TrafficClass = Legitimate | Blocked | Suspicious

  const CriticalWords := ["bot", "datacenter", "vpn", "proxy"]

  /** A failed layer whose lower-cased name mentions bots, data centres, VPNs or proxies. */
  predicate Critical(layer: string)
  {
    ContainsAny(Lower(layer), CriticalWords)
  }

  /** `determineTrafficClassification`; an absent `failedLayers` is the empty list. */
  function Classify(passed: bool, failedLayers: seq<string>): (c: TrafficClass)
    ensures c == Legitimate <==> passed
    ensures c == Blocked <==> !passed && exists i :: 0 <= i < |failedLayers| && Critical(failedLayers[i])
    ensures c == Suspicious <==> !passed && forall i :: 0 <= i < |failedLayers| ==> !Critical(failedLayers[i])
  {
    if passed then Legitimate
    else
      var criticalFailures := Filter(failedLayers, Critical);
      if |criticalFailures| > 0 then
        assert Critical(criticalFailures[0]) && criticalFailures[0] in failedLayers;
        Blocked
      else
        assert forall i :: 0 <= i < |failedLayers| ==> !Critical(failedLayers[i]) by {
          assert criticalFailures == [];
        }
        Suspicious
  }

  /** One successful call of `upsert_behavioral_pattern`. */
  datatype PatternUpsert = PatternUpsert(patternHash: string, classification: TrafficClass, features: Features)

  /**
   * The receiving end of `upsert_behavioral_pattern`. Its body lies outside
   * this model, so the store is the log of the calls that went through.
   */
  class PatternStore {
    var upserts: seq<PatternUpsert>

    constructor ()
      ensures upserts == []
    {
      upserts := [];
    }

    /**
     * `observeBehavioralPattern` with `upsertBehavioralPattern`: `urlParsed`
     * is false when `new URL` throws, `rpcOk` false when the call errors or
     * throws. Neither failure reaches the caller, and nothing is recorded.
     */
    method Observe(nowMs: nat, url: RequestUrl, urlParsed: bool, passed: bool, failedLayers: seq<string>,
                   data: ValidationData, bypassParam: string, digest: string -> string, rpcOk: bool)
      modifies this
      ensures urlParsed && rpcOk ==>
        upserts == old(upserts) + [PatternUpsert(PatternHash(FeaturesOf(nowMs, url, data, bypassParam), digest),
                                                 Classify(passed, failedLayers),
                                                 FeaturesOf(nowMs, url, data, bypassParam))]
      ensures !(urlParsed && rpcOk) ==> upserts == old(upserts)
    {
      if !urlParsed {
        return;
      }
      var features := ExtractFeatures(nowMs, url, data, bypassParam);
      var patternHash := PatternHash(features, digest);
      var classification := Classify(passed, failedLayers);
      if rpcOk {
        upserts := upserts + [PatternUpsert(patternHash, classification, features)];
      }
    }
  }
}
