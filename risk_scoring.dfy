/**
 * Risk scoring engine: the final decision for a request that has passed (or
 * failed) the detection layers. A click id is the primary filter; without a
 * valid one the decision can never be `real`. A valid Google Ads click that
 * is neither datacenter nor bot is sent to `real` outright; every other valid
 * click goes through a weighted model of per-platform trust, coherence,
 * human noise, perfection and timing.
 *
 * `Date.now() - requestStartTime` is the parameter `elapsedMs`; the
 * `reasoning` strings and console logs are not modelled.
 */
module RiskScoring {

  import opened Base
  import opened Text

  datatype Decision = Real | Safe | SafeObserve | HumanNoValue

  datatype PlatformProfile = PlatformProfile(
    baseTrust: real,
    requiresContext: bool,
    directToRealAllowed: bool,
    minHumanNoise: real,
    maxPerfection: real,
    contextWeight: real)

  const DesktopProfile := PlatformProfile(0.3, true, false, 0.15, 0.7, 1.5)
  const MobileProfile := PlatformProfile(0.6, false, true, 0.05, 0.9, 0.8)
  const TabletProfile := PlatformProfile(0.5, true, false, 0.1, 0.8, 1.0)
  const UnknownProfile := PlatformProfile(0.2, true, false, 0.2, 0.6, 2.0)

  /** `PLATFORM_PROFILES[platformType] || PLATFORM_PROFILES.unknown` */
  function Profile(platformType: string): PlatformProfile
  {
    if platformType == "desktop" then DesktopProfile
    else if platformType == "mobile" then MobileProfile
    else if platformType == "tablet" then TabletProfile
    else UnknownProfile
  }

  /**
   * Client-side session signals. Every field's zero value (0, false, no
   * pages) stands for "absent": each use in the engine treats a missing
   * field and a zero alike.
   */
  datatype Session = Session(
    previousRequests: int,
    avgTimeBetweenRequests: real,
    pagesVisited: nat,
    hasScrolled: bool,
    hasMouseMovement: bool,
    hasFocusBlur: bool,
    viewportChanges: int)

  const NoSession := Session(0, 0.0, 0, false, false, false, 0)

  /** The click-id verdict handed to the engine; `network == ""` is null. */
  datatype ClickInfo = ClickInfo(hasClickId: bool, isValid: bool, network: string)

  datatype RiskContext = RiskContext(
    userAgent: string,
    headers: Headers,
    country: string,
    platformType: string,
    passedAllLayers: bool,
    navigationDepth: int,
    hasReferer: bool,
    session: Session,
    clickId: Option<ClickInfo>,
    isDatacenter: bool,
    isBotDetected: bool)

  datatype Factors = Factors(
    platformTrust: real,
    headerCoherence: real,
    behaviorCoherence: real,
    timingNaturalness: real,
    navigationPattern: real)

  datatype Assessment = Assessment(
    finalRisk: real,
    decision: Decision,
    coherenceScore: real,
    humanNoiseScore: real,
    perfectionPenalty: real,
    temporalVariance: real,
    clickIdScore: real,
    economicValue: bool,
    factors: Factors)

  // ---------------------------------------------------------------------
  // Sub-scores
  // ---------------------------------------------------------------------

  /** `headers[h] || headers[h.toLowerCase()] || headers[h.replace(/-/g, '_')]` */
  predicate HeaderPresent(h: Headers, name: string)
  {
    Get(h, name) != "" || Get(h, Lower(name)) != "" || Get(h, ReplaceChar(name, '-', '_')) != ""
  }

  const CoherenceHeaders := ["USER-AGENT", "ACCEPT", "ACCEPT-LANGUAGE", "ACCEPT-ENCODING"]

  /** Keys written entirely in one case count as consistent; the rest are mixed. */
  function MixedCaseKeys(h: Headers): (mixed: int)
    ensures 0 <= mixed <= |h|
  {
    var keys := Keys(h);
    var upper := CountIf(keys, (k: string) => k == Upper(k));
    var lower := CountIf(keys, (k: string) => k == Lower(k));
    |keys| - (if upper >= lower then upper else lower)
  }

  /** `calculateHeaderCoherence` */
  function HeaderCoherence(ctx: RiskContext): (r: real)
    ensures 0.25 <= r <= 0.8
  {
    var h := ctx.headers;
    var present := CountIf(CoherenceHeaders, (name: string) => HeaderPresent(h, name));
    var s0 := 0.5 + (present as real / 4.0) * 0.3;
    var s1 := if MixedCaseKeys(h) as real > |h| as real * 0.3 then s0 - 0.1 else s0;
    var s2 := if Get(h, "X-REQUESTED-WITH") == "XMLHttpRequest" && !ctx.hasReferer then s1 - 0.15 else s1;
    Clamp01(s2)
  }

  /** `calculateBehaviorCoherence` */
  function BehaviorCoherence(ctx: RiskContext): (r: real)
    ensures 0.5 <= r <= 0.95
  {
    var s := 0.5
      + (if ctx.navigationDepth > 0 then 0.1 else 0.0)
      + (if ctx.hasReferer then 0.15 else 0.0)
      + (if ctx.session.previousRequests > 1 then 0.1 else 0.0)
      + (if ctx.session.pagesVisited > 1 then 0.1 else 0.0);
    Clamp01(s)
  }

  /** `calculateCoherence` */
  function Coherence(ctx: RiskContext): (r: real)
    ensures 0.0 <= r <= 1.0
  {
    var s0 := (0.5 + HeaderCoherence(ctx)) / 2.0;
    var s1 := (s0 + BehaviorCoherence(ctx)) / 2.0;
    var ua := Lower(ctx.userAgent);
    var s2 := if ctx.platformType == "mobile" && !ContainsAny(ua, ["mobile", "android", "iphone", "ipad"])
              then s1 - 0.3 else s1;
    var s3 := if ctx.platformType == "desktop" && ContainsAny(ua, ["mobile", "android", "iphone"])
              then s2 - 0.2 else s2;
    var lang := Lower(Get(ctx.headers, "ACCEPT-LANGUAGE"));
    var s4 := if ctx.country == "BR" && lang != "" && !Contains(lang, "pt") && !Contains(lang, "br")
              then s3 - 0.1 else s3;
    Clamp01(s4)
  }

  /** `/\d+\.\d+\.\d+/` matches with its dots at `i + 1` and `j`. */
  predicate VersionTripleAt(s: string, i: int, j: int)
  {
    && 0 <= i && i + 3 <= j && j + 1 < |s|
    && IsDigit(s[i]) && s[i + 1] == '.'
    && (forall k :: i + 2 <= k < j ==> IsDigit(s[k]))
    && s[j] == '.' && IsDigit(s[j + 1])
  }

  predicate HasVersionTriple(s: string)
  {
    exists i, j | 0 <= i < j < |s| :: VersionTripleAt(s, i, j)
  }

  /** `evaluateHumanNoise` */
  function HumanNoise(ctx: RiskContext): (r: real)
    ensures 0.0 <= r <= 1.0
  {
    var s := ctx.session;
    var avg := s.avgTimeBetweenRequests;
    var n := (if s.hasScrolled then 0.1 else 0.0)
      + (if s.hasMouseMovement then 0.15 else 0.0)
      + (if s.hasFocusBlur then 0.1 else 0.0)
      + (if s.viewportChanges > 0 then 0.1 else 0.0)
      + (if avg != 0.0 && 500.0 < avg < 30000.0 then 0.15 else 0.0)
      + (if |ctx.userAgent| > 50 && HasVersionTriple(ctx.userAgent) then 0.05 else 0.0)
      + (if ctx.hasReferer then 0.1 else 0.0)
      + (if ctx.navigationDepth > 0 then 0.05 * MinI(ctx.navigationDepth, 3) as real else 0.0);
    MinR(n, 1.0)
  }

  const PerfectionHeaders := ["HOST", "USER-AGENT", "ACCEPT", "ACCEPT-LANGUAGE", "ACCEPT-ENCODING", "CONNECTION"]

  /** `calculateTimingConsistency`: a constant placeholder. */
  const TimingConsistency: real := 0.5

  /** The raw perfection score before it becomes a penalty. */
  function PerfectionScore(ctx: RiskContext, elapsedMs: int): (s: real)
    ensures 0.0 <= s <= 1.0
  {
    var h := ctx.headers;
    (if ctx.passedAllLayers then 0.2 else 0.0)
    + (if 8 <= |h| <= 15 then 0.15 else 0.0)
    + (if 100 <= elapsedMs <= 500 then 0.15 else 0.0)
    + (if forall k | 0 <= k < |PerfectionHeaders| :: Get(h, PerfectionHeaders[k]) != "" || Get(h, Lower(PerfectionHeaders[k])) != ""
       then 0.2 else 0.0)
    + (if !ctx.hasReferer && ctx.navigationDepth == 0 then 0.15 else 0.0)
    + (if ctx.session.avgTimeBetweenRequests != 0.0 && TimingConsistency < 0.1 then 0.15 else 0.0)
  }

  /** The piecewise map from perfection score to penalty. */
  function PenaltyOf(s: real): (p: real)
  {
    var raw := if s > 0.7 then (s - 0.7) * 2.0 else if s > 0.5 then (s - 0.5) * 0.5 else 0.0;
    MinR(raw, 1.0)
  }

  /** `detectExcessivePerfection` */
  function PerfectionPenalty(ctx: RiskContext, elapsedMs: int): real
  {
    PenaltyOf(PerfectionScore(ctx, elapsedMs))
  }

  /** `calculateTemporalVariance` */
  function TemporalVariance(ctx: RiskContext): real
  {
    var avg := ctx.session.avgTimeBetweenRequests;
    if avg == 0.0 then 0.0
    else if avg < 100.0 then 0.0
    else if avg > 60000.0 then 0.5
    else if 1000.0 <= avg <= 10000.0 then 0.8
    else 0.4
  }

  /** `calculateTimingNaturalness` */
  function TimingNaturalness(ctx: RiskContext): (r: real)
    ensures r in {0.1, 0.3, 0.5, 0.7, 0.9}
  {
    var avg := ctx.session.avgTimeBetweenRequests;
    if avg == 0.0 then 0.5
    else if 2000.0 <= avg <= 8000.0 then 0.9
    else if 1000.0 <= avg <= 15000.0 then 0.7
    else if 500.0 <= avg <= 30000.0 then 0.5
    else if avg < 200.0 then 0.1
    else 0.3
  }

  /** `calculateNavigationPattern` */
  function NavigationPattern(ctx: RiskContext): (r: real)
    ensures 0.5 <= r <= 1.0
  {
    var s := 0.5
      + (if ctx.hasReferer then 0.2 else 0.0)
      + (if ctx.navigationDepth > 0 then 0.1 * MinI(ctx.navigationDepth, 3) as real else 0.0)
      + (if ctx.session.pagesVisited > 1 then 0.15 else 0.0);
    MinR(s, 1.0)
  }

  function FactorsOf(ctx: RiskContext): Factors
  {
    Factors(Profile(ctx.platformType).baseTrust, HeaderCoherence(ctx), BehaviorCoherence(ctx),
            TimingNaturalness(ctx), NavigationPattern(ctx))
  }

  // ---------------------------------------------------------------------
  // Decision
  // ---------------------------------------------------------------------

  predicate IsGoogleAds(ctx: RiskContext)
  {
    ctx.clickId.Some? && ctx.clickId.value.network == "google_ads" && ctx.clickId.value.isValid
  }

  /** `makeDecision`; it only ever answers `real`, `safe` or `safe_observe`. */
  function MakeDecision(finalRisk: real, noise: real, coherence: real, profile: PlatformProfile, ctx: RiskContext): (d: Decision)
    ensures d != HumanNoValue
    ensures IsGoogleAds(ctx) ==> (d == Real <==> finalRisk <= 0.5) && (d == Safe <==> finalRisk > 0.7)
    ensures !IsGoogleAds(ctx) ==> (d == Safe <==> finalRisk > 0.5)
    ensures !IsGoogleAds(ctx) ==>
      (d == Real <==>
        finalRisk <= 0.3 && noise >= profile.minHumanNoise
        && (profile.directToRealAllowed || ctx.platformType == "mobile")
        && !(ctx.platformType == "desktop" && (noise < 0.2 || coherence < 0.7)))
  {
    if IsGoogleAds(ctx) then
      if finalRisk <= 0.5 then Real
      else if finalRisk > 0.7 then Safe
      else SafeObserve
    else if finalRisk <= 0.3 && noise >= profile.minHumanNoise then
      if profile.directToRealAllowed || ctx.platformType == "mobile" then
        if ctx.platformType == "desktop" && (noise < 0.2 || coherence < 0.7) then SafeObserve
        else Real
      else SafeObserve
    else if finalRisk <= 0.5 then SafeObserve
    else Safe
  }

  datatype Weights = Weights(coherence: real, humanNoise: real, perfection: real, temporal: real)

  const DefaultWeights := Weights(0.25, 0.30, 0.25, 0.20)
  const GoogleAdsWeights := Weights(0.10, 0.10, 0.05, 0.05)

  function ContextRisk(coherence: real, noise: real, penalty: real, temporal: real, w: Weights, contextWeight: real): real
  {
    ((1.0 - coherence) * w.coherence
     + (1.0 - noise) * w.humanNoise
     + penalty * w.perfection
     + (1.0 - MinR(temporal, 1.0)) * w.temporal) * contextWeight
  }

  /** The desktop-hardening condition for a request that looks too clean. */
  predicate Hardened(ctx: RiskContext, noise: real, penalty: real)
  {
    && !(ctx.clickId.Some? && ctx.clickId.value.network == "google_ads")
    && ctx.platformType == "desktop"
    && ctx.passedAllLayers
    && penalty < 0.1
    && noise < Profile(ctx.platformType).minHumanNoise
  }

  /** The weighted model's final risk for a valid click. */
  function WeightedRisk(ctx: RiskContext, coherence: real, noise: real, penalty: real, temporal: real): real
  {
    var profile := Profile(ctx.platformType);
    var google := ctx.clickId.Some? && ctx.clickId.value.network == "google_ads";
    var w := if google then GoogleAdsWeights else DefaultWeights;
    var contextRisk := ContextRisk(coherence, noise, penalty, temporal, w, profile.contextWeight);
    var adjusted := if Hardened(ctx, noise, penalty) then contextRisk + 0.3 else contextRisk;
    var risk := 0.4 * (1.0 - profile.baseTrust) + 0.6 * adjusted;
    Clamp01(if google then MinR(risk, 0.35) else risk)
  }

  /** `RiskScoringEngine.assess` */
  function Assess(ctx: RiskContext, elapsedMs: int): (a: Assessment)
    ensures ctx.clickId.None? || !ctx.clickId.value.hasClickId ==>
      && a.finalRisk == 1.0 && a.clickIdScore == 0.0 && !a.economicValue
      && (a.decision == HumanNoValue <==> a.humanNoiseScore > 0.3 && a.coherenceScore > 0.5)
      && (a.decision != HumanNoValue ==> a.decision == Safe)
    ensures ctx.clickId.Some? && ctx.clickId.value.hasClickId && !ctx.clickId.value.isValid ==>
      a.finalRisk == 0.9 && a.decision == Safe && a.clickIdScore == 0.2 && !a.economicValue
    ensures IsGoogleAds(ctx) && ctx.clickId.value.hasClickId && !ctx.isDatacenter && !ctx.isBotDetected ==>
      && a.decision == Real && a.finalRisk == 0.05
      && a.coherenceScore == 1.0 && a.humanNoiseScore == 1.0 && a.perfectionPenalty == 0.0 && a.temporalVariance == 1.0
      && a.factors == Factors(Profile(ctx.platformType).baseTrust, 1.0, 1.0, 1.0, 1.0)
    ensures !(IsGoogleAds(ctx) && ctx.clickId.value.hasClickId && !ctx.isDatacenter && !ctx.isBotDetected) ==>
      && a.coherenceScore == Coherence(ctx) && a.humanNoiseScore == HumanNoise(ctx)
      && a.perfectionPenalty == PerfectionPenalty(ctx, elapsedMs) && a.temporalVariance == TemporalVariance(ctx)
    ensures a.decision == Real ==> ctx.clickId.Some? && ctx.clickId.value.hasClickId && ctx.clickId.value.isValid && a.economicValue
    ensures 0.0 <= a.finalRisk <= 1.0
  {
    var coherence := Coherence(ctx);
    var noise := HumanNoise(ctx);
    var penalty := PerfectionPenalty(ctx, elapsedMs);
    var temporal := TemporalVariance(ctx);
    var factors := FactorsOf(ctx);
    if ctx.clickId.None? || !ctx.clickId.value.hasClickId then
      var decision := if noise > 0.3 && coherence > 0.5 then HumanNoValue else Safe;
      Assessment(1.0, decision, coherence, noise, penalty, temporal, 0.0, false, factors)
    else if !ctx.clickId.value.isValid then
      Assessment(0.9, Safe, coherence, noise, penalty, temporal, 0.2, false, factors)
    else if ctx.clickId.value.network == "google_ads" && !ctx.isDatacenter && !ctx.isBotDetected then
      Assessment(0.05, Real, 1.0, 1.0, 0.0, 1.0, 1.0, true,
                 Factors(Profile(ctx.platformType).baseTrust, 1.0, 1.0, 1.0, 1.0))
    else
      var risk := WeightedRisk(ctx, coherence, noise, penalty, temporal);
      var decision := MakeDecision(risk, noise, coherence, Profile(ctx.platformType), ctx);
      Assessment(risk, decision, coherence, noise, penalty, temporal, 1.0, true, factors)
  }

  /** `detectPlatformType`: `android` counts as mobile only when no `tablet` follows it. */
  predicate MobileUA(ua: string)
  {
    || ContainsAny(ua, ["mobile", "iphone", "ipod", "blackberry", "windows phone", "opera mini", "iemobile"])
    || exists i | 0 <= i <= |ua| - 7 :: At(ua, "android", i) && !Contains(ua[i + 7..], "tablet")
  }

  predicate TabletUA(ua: string)
  {
    ContainsAny(ua, ["tablet", "ipad", "playbook", "silk", "kindle"])
  }

  predicate DesktopUA(ua: string)
  {
    ContainsAny(ua, ["windows", "macintosh", "linux", "x11"]) && !Contains(ua, "mobile")
  }

  function DetectPlatformType(userAgent: string): (p: string)
    ensures p in {"mobile", "tablet", "desktop", "unknown"}
    ensures p == "mobile" <==> MobileUA(Lower(userAgent))
    ensures p == "tablet" <==> !MobileUA(Lower(userAgent)) && TabletUA(Lower(userAgent))
    ensures p == "desktop" <==> !MobileUA(Lower(userAgent)) && !TabletUA(Lower(userAgent)) && DesktopUA(Lower(userAgent))
  {
    var ua := Lower(userAgent);
    if MobileUA(ua) then "mobile"
    else if TabletUA(ua) then "tablet"
    else if DesktopUA(ua) then "desktop"
    else "unknown"
  }

  // ---------------------------------------------------------------------
  // Properties
  // ---------------------------------------------------------------------

  /**
   * An unrecognised platform is scored with the `unknown` profile, and only
   * the mobile profile allows a direct `real`.
   */
  lemma ProfileTable(platformType: string)
    ensures platformType !in {"desktop", "mobile", "tablet"} ==> Profile(platformType) == Profile("unknown")
    ensures Profile(platformType).directToRealAllowed <==> platformType == "mobile"
    ensures 0.2 <= Profile(platformType).baseTrust <= 0.6
    ensures 0.05 <= Profile(platformType).minHumanNoise <= 0.2
  {
  }

  /** The perfection penalty is a piecewise function of the score, at most 1. */
  lemma PenaltyPieces(s: real)
    ensures 0.0 <= s ==> 0.0 <= PenaltyOf(s) <= 1.0
    ensures s <= 0.5 ==> PenaltyOf(s) == 0.0
    ensures 0.5 < s <= 0.7 ==> PenaltyOf(s) == 0.5 * (s - 0.5) && PenaltyOf(s) <= 0.1
    ensures s > 0.7 ==> PenaltyOf(s) == MinR(2.0 * (s - 0.7), 1.0)
  {
  }

  /** Each piece is monotone ... */
  lemma PenaltyMonotoneWithinPieces(s: real, t: real)
    requires s <= t
    requires (s <= 0.7 && t <= 0.7) || (s > 0.7 && t > 0.7)
    ensures PenaltyOf(s) <= PenaltyOf(t)
  {
  }

  /** ... but the penalty drops just above 0.7: 0.7 scores 0.1, 0.71 only 0.02. */
  lemma PenaltyNotMonotoneAtSeventy()
    ensures PenaltyOf(0.7) == 0.1 && PenaltyOf(0.71) == 0.02
    ensures exists s: real, t: real :: s < t && PenaltyOf(s) > PenaltyOf(t)
  {
    assert PenaltyOf(0.7) > PenaltyOf(0.71);
  }

  /**
   * The consistent-timing term never fires, so the perfection score is at
   * most 0.85 and the penalty at most 0.3.
   */
  lemma PerfectionBounded(ctx: RiskContext, elapsedMs: int)
    ensures PerfectionScore(ctx, elapsedMs) <= 0.85
    ensures 0.0 <= PerfectionPenalty(ctx, elapsedMs) <= 0.3
    ensures PerfectionScore(ctx, elapsedMs) ==
      PerfectionScore(ctx.(session := ctx.session.(avgTimeBetweenRequests := 0.0)), elapsedMs)
  {
  }

  /** `temporalVariance` takes one of four values, by timing band. */
  lemma TemporalVarianceBands(ctx: RiskContext)
    ensures var avg := ctx.session.avgTimeBetweenRequests;
      var v := TemporalVariance(ctx);
      && v in {0.0, 0.4, 0.5, 0.8}
      && (v == 0.0 <==> avg < 100.0)
      && (v == 0.5 <==> avg > 60000.0)
      && (v == 0.8 <==> 1000.0 <= avg <= 10000.0)
      && (v == 0.4 <==> (100.0 <= avg < 1000.0 || 10000.0 < avg <= 60000.0))
  {
  }

  /** Every sub-score of an assessment lies in [0, 1]. */
  lemma SubScoresInUnitInterval(ctx: RiskContext, elapsedMs: int)
    ensures var a := Assess(ctx, elapsedMs);
      && 0.0 <= a.coherenceScore <= 1.0 && 0.0 <= a.humanNoiseScore <= 1.0
      && 0.0 <= a.perfectionPenalty <= 1.0 && 0.0 <= a.temporalVariance <= 1.0
      && 0.0 <= a.factors.headerCoherence <= 1.0 && 0.0 <= a.factors.behaviorCoherence <= 1.0
  {
    PerfectionBounded(ctx, elapsedMs);
  }

  /**
   * Outside Google Ads, only the mobile platform can reach `real`: the
   * desktop sub-branch of `makeDecision` is unreachable because the desktop
   * profile does not allow direct `real`.
   */
  lemma NonGoogleRealOnlyMobile(finalRisk: real, noise: real, coherence: real, ctx: RiskContext)
    requires !IsGoogleAds(ctx)
    ensures MakeDecision(finalRisk, noise, coherence, Profile(ctx.platformType), ctx) == Real <==>
      ctx.platformType == "mobile" && finalRisk <= 0.3 && noise >= 0.05
  {
  }

  /** The weighted path: base trust and context risk combined and clamped. */
  lemma WeightedPath(ctx: RiskContext, elapsedMs: int)
    requires ctx.clickId.Some? && ctx.clickId.value.hasClickId && ctx.clickId.value.isValid
    requires !(ctx.clickId.value.network == "google_ads" && !ctx.isDatacenter && !ctx.isBotDetected)
    ensures var a := Assess(ctx, elapsedMs);
      var p := Profile(ctx.platformType);
      var w := if ctx.clickId.value.network == "google_ads" then GoogleAdsWeights else DefaultWeights;
      var cr := ContextRisk(a.coherenceScore, a.humanNoiseScore, a.perfectionPenalty, a.temporalVariance, w, p.contextWeight);
      var adjusted := cr + (if Hardened(ctx, a.humanNoiseScore, a.perfectionPenalty) then 0.3 else 0.0);
      && a.clickIdScore == 1.0 && a.economicValue
      && (ctx.clickId.value.network != "google_ads" ==> a.finalRisk == Clamp01(0.4 * (1.0 - p.baseTrust) + 0.6 * adjusted))
      && (ctx.clickId.value.network == "google_ads" ==> a.finalRisk == Clamp01(MinR(0.4 * (1.0 - p.baseTrust) + 0.6 * adjusted, 0.35)))
      && a.decision == MakeDecision(a.finalRisk, a.humanNoiseScore, a.coherenceScore, p, ctx)
  {
  }

  /**
   * A valid Google Ads click always ends in `real`: the override covers the
   * clean case, and the 0.35 cap keeps the weighted risk under the 0.5
   * threshold even for datacenter or bot traffic.
   */
  lemma ValidGoogleAdsAlwaysReal(ctx: RiskContext, elapsedMs: int)
    requires IsGoogleAds(ctx) && ctx.clickId.value.hasClickId
    ensures Assess(ctx, elapsedMs).decision == Real
    ensures Assess(ctx, elapsedMs).finalRisk <= 0.35
  {
  }

  /** With sub-scores in range and either weight set, the context risk is never negative. */
  lemma ContextRiskNonNegative(coherence: real, noise: real, penalty: real, temporal: real, w: Weights, platformType: string)
    requires 0.0 <= coherence <= 1.0 && 0.0 <= noise <= 1.0 && 0.0 <= penalty && 0.0 <= temporal
    requires w == DefaultWeights || w == GoogleAdsWeights
    ensures ContextRisk(coherence, noise, penalty, temporal, w, Profile(platformType).contextWeight) >= 0.0
  {
    var slack := 1.0 - MinR(temporal, 1.0);
    assert slack >= 0.0;
    var inner := (1.0 - coherence) * w.coherence + (1.0 - noise) * w.humanNoise
      + penalty * w.perfection + slack * w.temporal;
    assert inner >= 0.0;
  }

  /**
   * Desktop hardening puts a too-clean desktop request at risk 0.46 or
   * more, so it is at best observed.
   */
  lemma HardenedDesktopNotReal(ctx: RiskContext, elapsedMs: int)
    requires ctx.clickId.Some? && ctx.clickId.value.hasClickId && ctx.clickId.value.isValid
    requires Hardened(ctx, HumanNoise(ctx), PerfectionPenalty(ctx, elapsedMs))
    ensures Assess(ctx, elapsedMs).finalRisk >= 0.46
    ensures Assess(ctx, elapsedMs).decision in {Safe, SafeObserve}
  {
    PerfectionBounded(ctx, elapsedMs);
    var penalty := PerfectionPenalty(ctx, elapsedMs);
    ContextRiskNonNegative(Coherence(ctx), HumanNoise(ctx), penalty, TemporalVariance(ctx), DefaultWeights, ctx.platformType);
  }
}
