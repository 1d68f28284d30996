/**
 * Contradiction detector: seven independent checks over a request, each of
 * which may emit weighted human or bot signals into the detector's signal
 * list, followed by Google Ads softening of the bot weights and aggregation
 * into two likelihood shares.
 *
 * `new URL(referer).hostname` is the parameter `hostname` (`None` when the
 * referer does not parse). The signals' free-text `expected`/`actual`
 * descriptions are not modelled.
 */
module Contradiction {

  import opened Base
  import opened Text

  datatype SignalKind =
    | PlatformUaMismatch | UaSelfContradiction | UaVersionNatural
    | LangGeoMismatch | LangGeoMatch | MultiLangNatural
    | HeaderOrderTypical | HeaderOrderAtypical | HeaderCaseInconsistent
    | TimingTooFast | TimingNatural
    | MissingSecChUa | MissingBrotli | FirefoxDnt
    | DeepDirectAccess | InternalReferer
    | GenericAccept | BrowserAccept | KeepaliveConnection

  datatype Signal = Signal(kind: SignalKind, weight: real, isHumanIndicator: bool)

  datatype ContradictionContext = ContradictionContext(
    ip: string,
    userAgent: string,
    headers: Headers,
    platformType: string,
    country: string,
    requestPath: string,
    requestStart: int,
    serverReceived: int,
    hasValidGclid: bool)

  datatype ContradictionResult = ContradictionResult(
    hasContradictions: bool,
    signals: seq<Signal>,
    humanLikelihood: real,
    botLikelihood: real)

  /** Every weight lies in (0, 1]. */
  predicate WeightsInRange(signals: seq<Signal>)
  {
    forall i :: 0 <= i < |signals| ==> 0.0 < signals[i].weight <= 1.0
  }

  function Bot(kind: SignalKind, weight: real): Signal { Signal(kind, weight, false) }
  function Human(kind: SignalKind, weight: real): Signal { Signal(kind, weight, true) }

  // ---------------------------------------------------------------------
  // The seven checks, as the signals each one emits
  // ---------------------------------------------------------------------

  /** `/safari\/(\d{3})/`: "safari/" followed by three digits. */
  predicate SafariThreeDigits(ua: string)
  {
    exists i | 0 <= i <= |ua| - 10 :: At(ua, "safari/", i) && IsDigit(ua[i + 7]) && IsDigit(ua[i + 8]) && IsDigit(ua[i + 9])
  }

  /** `checkPlatformUserAgentCoherence` */
  function PlatformSignals(userAgent: string, platformType: string): (r: seq<Signal>)
    ensures WeightsInRange(r)
  {
    var ua := Lower(userAgent);
    var desktopMobile :=
      if platformType == "desktop" && ContainsAny(ua, ["android", "iphone", "mobile"]) && !ContainsAny(ua, ["tablet", "ipad"])
      then [Bot(PlatformUaMismatch, 0.7)] else [];
    var twoSystems :=
      if platformType == "desktop" && Contains(ua, "linux") && Contains(ua, "windows nt")
      then [Bot(UaSelfContradiction, 0.9)] else [];
    var mobileDesktop :=
      if platformType == "mobile" && ContainsAny(ua, ["windows nt", "macintosh", "linux x86_64"]) && !Contains(ua, "mobile")
      then [Bot(PlatformUaMismatch, 0.6)] else [];
    var chrome := VersionAfter(ua, "chrome/");
    var safari := VersionAfter(ua, "safari/");
    var versions :=
      if chrome.Some? && safari.Some? && chrome.value > 90 && SafariThreeDigits(ua)
      then [Human(UaVersionNatural, 0.3)] else [];
    desktopMobile + twoSystems + mobileDesktop + versions
  }

  /** The languages expected for a country; empty for countries not in the table. */
  function ExpectedLanguages(country: string): seq<string>
  {
    match country
    case "BR" => ["pt", "pt-br", "portuguese"]
    case "US" => ["en", "en-us", "english"]
    case "ES" => ["es", "es-es", "spanish"]
    case "FR" => ["fr", "fr-fr", "french"]
    case "DE" => ["de", "de-de", "german"]
    case "IT" => ["it", "it-it", "italian"]
    case "JP" => ["ja", "jp", "japanese"]
    case "CN" => ["zh", "cn", "chinese"]
    case "RU" => ["ru", "russian"]
    case "PT" => ["pt", "pt-pt", "portuguese"]
    case "MX" => ["es", "es-mx", "spanish"]
    case "AR" => ["es", "es-ar", "spanish"]
    case _ => []
  }

  function AcceptLanguage(h: Headers): string
  {
    FirstNonEmpty([Get(h, "ACCEPT-LANGUAGE"), Get(h, "Accept-Language"), Get(h, "accept-language")])
  }

  /** `checkLanguageGeoCoherence` */
  function LanguageSignals(headers: Headers, country: string): (r: seq<Signal>)
    ensures WeightsInRange(r)
  {
    var acceptLang := AcceptLanguage(headers);
    var expected := ExpectedLanguages(country);
    var geo :=
      if |expected| > 0 && acceptLang != "" then
        if ContainsAny(Lower(acceptLang), expected) then [Human(LangGeoMatch, 0.2)] else [Bot(LangGeoMismatch, 0.4)]
      else [];
    var pieces := |Split(acceptLang, ',')|;
    var multi :=
      if acceptLang != "" && Contains(acceptLang, ",") && 2 <= pieces <= 5
      then [Human(MultiLangNatural, 0.25)] else [];
    geo + multi
  }

  const TypicalBrowserOrder := ["HOST", "CONNECTION", "UPGRADE-INSECURE-REQUESTS", "USER-AGENT", "ACCEPT", "ACCEPT-ENCODING", "ACCEPT-LANGUAGE"]

  /** A header key upper-cased with `_` read as `-`. */
  function CanonicalKey(k: string): string
  {
    ReplaceChar(Upper(k), '_', '-')
  }

  /** How many of the first positions held a known header, and how many of those sat within two places of their usual slot. */
  datatype Tally = Tally(checked: nat, matched: nat)

  function OrderTally(order: seq<string>, keys: seq<string>, n: nat): (t: Tally)
    requires n <= |keys| && n <= |order|
    ensures t.matched <= t.checked <= n
  {
    if n == 0 then Tally(0, 0)
    else
      var prev := OrderTally(order, keys, n - 1);
      match Position(order, CanonicalKey(keys[n - 1]))
      case None => prev
      case Some(expected) =>
        Tally(prev.checked + 1, prev.matched + (if Abs(expected - (n - 1)) <= 2 then 1 else 0))
  }

  /** `/^[A-Z][a-z]+(-[A-Z][a-z]+)*$/`: every `-`-part is a capital followed by at least one small letter. */
  predicate TitleCase(k: string)
  {
    var parts := Split(k, '-');
    forall p | p in parts :: |p| >= 2 && IsUpperAscii(p[0]) && forall j | 1 <= j < |p| :: IsLowerAscii(p[j])
  }

  /** The header-order signal for a tally. */
  function OrderSignal(t: Tally): (r: seq<Signal>)
    ensures WeightsInRange(r)
    ensures r == [Human(HeaderOrderTypical, 0.2)] <==> t.checked > 0 && t.matched as real / t.checked as real > 0.8
    ensures r == [Bot(HeaderOrderAtypical, 0.5)] <==> t.checked > 0 && t.matched as real / t.checked as real < 0.3
    ensures r == [] <==> t.checked == 0 || 0.3 <= t.matched as real / t.checked as real <= 0.8
  {
    if t.checked > 0 then
      var score := t.matched as real / t.checked as real;
      if score > 0.8 then [Human(HeaderOrderTypical, 0.2)]
      else if score < 0.3 then [Bot(HeaderOrderAtypical, 0.5)]
      else []
    else []
  }

  /** The casing signal: the largest casing family covers less than 70% of the keys (never for no keys, where the ratio is 0/0). */
  function CasingSignal(keys: seq<string>): (r: seq<Signal>)
    ensures WeightsInRange(r)
  {
    var upper := CountIf(keys, (k: string) => k == Upper(k));
    var lower := CountIf(keys, (k: string) => k == Lower(k));
    var title := CountIf(keys, TitleCase);
    var most := if upper >= lower && upper >= title then upper else if lower >= title then lower else title;
    if |keys| > 0 && (most as real / |keys| as real) < 0.7 then [Bot(HeaderCaseInconsistent, 0.3)] else []
  }

  /** `checkHeaderOrderAnomaly` */
  function HeaderOrderSignals(headers: Headers): (r: seq<Signal>)
    ensures WeightsInRange(r)
  {
    var keys := Keys(headers);
    OrderSignal(OrderTally(TypicalBrowserOrder, keys, MinI(|keys|, |TypicalBrowserOrder|))) + CasingSignal(keys)
  }

  /** `checkTimingAnomaly` */
  function TimingSignals(requestStart: int, serverReceived: int): (r: seq<Signal>)
    ensures WeightsInRange(r)
  {
    var processing := serverReceived - requestStart;
    if processing < 50 then [Bot(TimingTooFast, 0.6)]
    else if 200 <= processing <= 2000 then [Human(TimingNatural, 0.15)]
    else []
  }

  /** `checkBrowserFingerprint` */
  function FingerprintSignals(userAgent: string, headers: Headers): (r: seq<Signal>)
    ensures WeightsInRange(r)
  {
    var ua := Lower(userAgent);
    var h := headers;
    var isChrome := Contains(ua, "chrome") && !ContainsAny(ua, ["edg", "opr"]);
    var isFirefox := Contains(ua, "firefox");
    var version := VersionAfter(ua, "chrome/");
    var secChUa :=
      if isChrome && Get(h, "SEC-CH-UA") == "" && Get(h, "sec-ch-ua") == "" && version.Some? && version.value >= 90
      then [Bot(MissingSecChUa, 0.4)] else [];
    var acceptEncoding := FirstNonEmpty([Get(h, "ACCEPT-ENCODING"), Get(h, "Accept-Encoding")]);
    var brotli :=
      if isChrome && acceptEncoding != "" && !Contains(acceptEncoding, "br")
      then [Bot(MissingBrotli, 0.3)] else [];
    var dnt :=
      if isFirefox && FirstNonEmpty([Get(h, "DNT"), Get(h, "dnt")]) == "1"
      then [Human(FirefoxDnt, 0.2)] else [];
    secChUa + brotli + dnt
  }

  /** `checkNavigationPattern` */
  function NavigationSignals(headers: Headers, requestPath: string, hostname: string -> Option<string>): (r: seq<Signal>)
    ensures WeightsInRange(r)
  {
    var referer := FirstNonEmpty([Get(headers, "REFERER"), Get(headers, "Referer")]);
    var path := requestPath;
    var deep :=
      if referer == "" && path != "/" && !Contains(path, "index")
      then [Bot(DeepDirectAccess, 0.35)] else [];
    var host := FirstNonEmpty([Get(headers, "HOST"), Get(headers, "host")]);
    var internal :=
      if referer != "" && hostname(referer).Some? &&
         (hostname(referer).value == host || EndsWith(hostname(referer).value, "." + host))
      then [Human(InternalReferer, 0.25)] else [];
    deep + internal
  }

  /** `checkAcceptHeaderCoherence` */
  function AcceptSignals(headers: Headers): (r: seq<Signal>)
    ensures WeightsInRange(r)
  {
    var accept := FirstNonEmpty([Get(headers, "ACCEPT"), Get(headers, "Accept")]);
    var generic := if accept != "" && accept == "*/*" then [Bot(GenericAccept, 0.4)] else [];
    var browser :=
      if accept != "" && Contains(accept, "text/html") && Contains(accept, "application/xhtml+xml")
      then [Human(BrowserAccept, 0.15)] else [];
    var connection := FirstNonEmpty([Get(headers, "CONNECTION"), Get(headers, "Connection")]);
    var keepAlive := if Lower(connection) == "keep-alive" then [Human(KeepaliveConnection, 0.1)] else [];
    generic + browser + keepAlive
  }

  /** All signals of the seven checks, in the order `analyze` runs them. */
  function RawSignals(ctx: ContradictionContext, hostname: string -> Option<string>): seq<Signal>
  {
    PlatformSignals(ctx.userAgent, ctx.platformType) + LanguageSignals(ctx.headers, ctx.country) + HeaderOrderSignals(ctx.headers) + TimingSignals(ctx.requestStart, ctx.serverReceived)
    + FingerprintSignals(ctx.userAgent, ctx.headers) + NavigationSignals(ctx.headers, ctx.requestPath, hostname) + AcceptSignals(ctx.headers)
  }

  // ---------------------------------------------------------------------
  // Softening and aggregation
  // ---------------------------------------------------------------------

  /** With a valid gclid every bot signal keeps 40% of its weight. */
  function Soften(signals: seq<Signal>, hasValidGclid: bool): (r: seq<Signal>)
    ensures |r| == |signals|
  {
    if !hasValidGclid then signals
    else seq(|signals|, i requires 0 <= i < |signals| =>
           if signals[i].isHumanIndicator then signals[i] else signals[i].(weight := signals[i].weight * 0.4))
  }

  /** Total weight of the human (`human == true`) or bot signals. */
  function SumWeights(signals: seq<Signal>, human: bool): real
  {
    if signals == [] then 0.0
    else (if signals[0].isHumanIndicator == human then signals[0].weight else 0.0) + SumWeights(signals[1..], human)
  }

  function CountBots(signals: seq<Signal>): nat
  {
    CountIf(signals, (s: Signal) => !s.isHumanIndicator)
  }

  /** The aggregation at the end of `analyze`. */
  function Summarize(signals: seq<Signal>, hasValidGclid: bool): ContradictionResult
  {
    var humanScore := SumWeights(signals, true);
    var botScore := SumWeights(signals, false);
    var total := humanScore + botScore;
    var humanLikelihood := if total > 0.0 then humanScore / total else 0.5;
    var botLikelihood := if total > 0.0 then botScore / total else 0.5;
    var bots := CountBots(signals);
    var significant := if hasValidGclid then bots > 0 && botLikelihood > 0.8 else bots > 0;
    ContradictionResult(significant, signals, MinR(humanLikelihood, 1.0), MinR(botLikelihood, 1.0))
  }

  /**
   * The position loop of `checkHeaderOrderAnomaly`: over the first
   * min(n, 7) keys, count those naming a usual browser header and those
   * within two places of that header's usual slot.
   */
  method OrderCounts(order: seq<string>, keys: seq<string>) returns (tally: Tally)
    ensures tally == OrderTally(order, keys, MinI(|keys|, |order|))
    ensures tally.matched <= tally.checked <= |order|
  {
    var matchScore := 0;
    var checkedHeaders := 0;
    var i := 0;
    while i < |keys| && i < |order|
      invariant 0 <= i <= MinI(|keys|, |order|)
      invariant Tally(checkedHeaders, matchScore) == OrderTally(order, keys, i)
    {
      var expectedIndex := Position(order, CanonicalKey(keys[i]));
      if expectedIndex.Some? {
        checkedHeaders := checkedHeaders + 1;
        if Abs(expectedIndex.value - i) <= 2 {
          matchScore := matchScore + 1;
        }
      }
      i := i + 1;
    }
    tally := Tally(checkedHeaders, matchScore);
  }

  class ContradictionDetector {
    var signals: seq<Signal>

    constructor ()
      ensures signals == []
    {
      signals := [];
    }

    method CheckPlatformUserAgentCoherence(ctx: ContradictionContext)
      modifies this
      ensures signals == old(signals) + PlatformSignals(ctx.userAgent, ctx.platformType)
    {
      signals := signals + PlatformSignals(ctx.userAgent, ctx.platformType);
    }

    method CheckLanguageGeoCoherence(ctx: ContradictionContext)
      modifies this
      ensures signals == old(signals) + LanguageSignals(ctx.headers, ctx.country)
    {
      signals := signals + LanguageSignals(ctx.headers, ctx.country);
    }

    /** `checkHeaderOrderAnomaly`: the position loop, then the casing count. */
    method CheckHeaderOrderAnomaly(ctx: ContradictionContext)
      modifies this
      ensures signals == old(signals) + HeaderOrderSignals(ctx.headers)
    {
      var keys := Keys(ctx.headers);
      var tally := OrderCounts(TypicalBrowserOrder, keys);
      signals := signals + OrderSignal(tally) + CasingSignal(keys);
    }

    method CheckTimingAnomaly(ctx: ContradictionContext)
      modifies this
      ensures signals == old(signals) + TimingSignals(ctx.requestStart, ctx.serverReceived)
    {
      signals := signals + TimingSignals(ctx.requestStart, ctx.serverReceived);
    }

    method CheckBrowserFingerprint(ctx: ContradictionContext)
      modifies this
      ensures signals == old(signals) + FingerprintSignals(ctx.userAgent, ctx.headers)
    {
      signals := signals + FingerprintSignals(ctx.userAgent, ctx.headers);
    }

    method CheckNavigationPattern(ctx: ContradictionContext, hostname: string -> Option<string>)
      modifies this
      ensures signals == old(signals) + NavigationSignals(ctx.headers, ctx.requestPath, hostname)
    {
      signals := signals + NavigationSignals(ctx.headers, ctx.requestPath, hostname);
    }

    method CheckAcceptHeaderCoherence(ctx: ContradictionContext)
      modifies this
      ensures signals == old(signals) + AcceptSignals(ctx.headers)
    {
      signals := signals + AcceptSignals(ctx.headers);
    }

    /** The seven checks in the order `analyze` runs them, from an empty list. */
    method RunChecks(ctx: ContradictionContext, hostname: string -> Option<string>)
      modifies this
      ensures signals == RawSignals(ctx, hostname)
    {
      signals := [];
      ghost var p, l, o, t, f, n, a :=
        PlatformSignals(ctx.userAgent, ctx.platformType), LanguageSignals(ctx.headers, ctx.country), HeaderOrderSignals(ctx.headers), TimingSignals(ctx.requestStart, ctx.serverReceived),
        FingerprintSignals(ctx.userAgent, ctx.headers), NavigationSignals(ctx.headers, ctx.requestPath, hostname), AcceptSignals(ctx.headers);
      CheckPlatformUserAgentCoherence(ctx);
      assert signals == p;
      CheckLanguageGeoCoherence(ctx);
      assert signals == p + l;
      CheckHeaderOrderAnomaly(ctx);
      assert signals == p + l + o;
      CheckTimingAnomaly(ctx);
      assert signals == p + l + o + t;
      CheckBrowserFingerprint(ctx);
      assert signals == p + l + o + t + f;
      CheckNavigationPattern(ctx, hostname);
      assert signals == p + l + o + t + f + n;
      CheckAcceptHeaderCoherence(ctx);
    }

    /**
     * `analyze`: the list is reset first, so the outcome depends on the
     * context alone and not on any earlier call.
     */
    method Analyze(ctx: ContradictionContext, hostname: string -> Option<string>) returns (r: ContradictionResult)
      modifies this
      ensures signals == Soften(RawSignals(ctx, hostname), ctx.hasValidGclid)
      ensures r == Summarize(signals, ctx.hasValidGclid)
    {
      RunChecks(ctx, hostname);
      if ctx.hasValidGclid {
        signals := Soften(signals, true);
      }
      r := Summarize(signals, ctx.hasValidGclid);
    }
  }

  /** The signals `saveContradictionSignals` writes: nothing for an empty list, otherwise those of weight at least 0.3. */
  function SignalsToPersist(result: ContradictionResult): (r: seq<Signal>)
    ensures |result.signals| == 0 ==> r == []
    ensures forall i :: 0 <= i < |r| ==> r[i].weight >= 0.3 && r[i] in result.signals
    ensures forall s :: s in result.signals && s.weight >= 0.3 ==> s in r
  {
    if |result.signals| == 0 then [] else Filter(result.signals, (s: Signal) => s.weight >= 0.3)
  }

  // ---------------------------------------------------------------------
  // Properties
  // ---------------------------------------------------------------------

  /** Every weight any check emits lies in (0, 1]. */
  lemma RawWeightsInRange(ctx: ContradictionContext, hostname: string -> Option<string>)
    ensures WeightsInRange(RawSignals(ctx, hostname))
  {
    var p := PlatformSignals(ctx.userAgent, ctx.platformType);
    var l := LanguageSignals(ctx.headers, ctx.country);
    var o := HeaderOrderSignals(ctx.headers);
    var t := TimingSignals(ctx.requestStart, ctx.serverReceived);
    var f := FingerprintSignals(ctx.userAgent, ctx.headers);
    var n := NavigationSignals(ctx.headers, ctx.requestPath, hostname);
    var a := AcceptSignals(ctx.headers);
    InRangeConcat(p, l);
    InRangeConcat(p + l, o);
    InRangeConcat(p + l + o, t);
    InRangeConcat(p + l + o + t, f);
    InRangeConcat(p + l + o + t + f, n);
    InRangeConcat(p + l + o + t + f + n, a);
  }

  lemma InRangeConcat(a: seq<Signal>, b: seq<Signal>)
    requires WeightsInRange(a) && WeightsInRange(b)
    ensures WeightsInRange(a + b)
  {
    forall i | 0 <= i < |a + b|
      ensures 0.0 < (a + b)[i].weight <= 1.0
    {
      if i >= |a| {
        assert (a + b)[i] == b[i - |a|];
      }
    }
  }

  /** Softening keeps the list's length, order, kinds and human weights, and scales each bot weight by 0.4. */
  lemma SoftenScalesBotsOnly(signals: seq<Signal>)
    ensures var r := Soften(signals, true);
      forall i :: 0 <= i < |signals| ==>
        && r[i].kind == signals[i].kind
        && r[i].isHumanIndicator == signals[i].isHumanIndicator
        && r[i].weight == (if signals[i].isHumanIndicator then signals[i].weight else 0.4 * signals[i].weight)
  {
  }

  lemma {:induction false} SoftenSums(signals: seq<Signal>)
    ensures SumWeights(Soften(signals, true), true) == SumWeights(signals, true)
    ensures SumWeights(Soften(signals, true), false) == 0.4 * SumWeights(signals, false)
    ensures CountBots(Soften(signals, true)) == CountBots(signals)
  {
    if signals != [] {
      SoftenSums(signals[1..]);
      assert Soften(signals, true)[1..] == Soften(signals[1..], true);
    }
  }

  lemma {:induction false} SumWeightsNonNegative(signals: seq<Signal>, human: bool)
    requires forall i :: 0 <= i < |signals| ==> signals[i].weight >= 0.0
    ensures SumWeights(signals, human) >= 0.0
  {
    if signals != [] {
      SumWeightsNonNegative(signals[1..], human);
    }
  }

  /** A bot signal exists exactly when the bot weight is positive (for positive weights). */
  lemma {:induction false} BotsIffBotWeight(signals: seq<Signal>)
    requires WeightsInRange(signals)
    ensures CountBots(signals) > 0 <==> SumWeights(signals, false) > 0.0
  {
    if signals != [] {
      BotsIffBotWeight(signals[1..]);
      SumWeightsNonNegative(signals[1..], false);
    }
  }

  lemma Shares(h: real, b: real)
    requires h >= 0.0 && b >= 0.0 && h + b > 0.0
    ensures h / (h + b) + b / (h + b) == 1.0
    ensures 0.0 <= h / (h + b) <= 1.0 && 0.0 <= b / (h + b) <= 1.0
  {
    var t := h + b;
    var x := h / t;
    var y := b / t;
    assert x * t == h;
    assert y * t == b;
    assert (x + y) * t == x * t + y * t;
  }

  /**
   * The likelihoods are the human and bot shares of the total weight and
   * add up to 1; with no weight at all both are 0.5.
   */
  lemma LikelihoodShares(signals: seq<Signal>, hasValidGclid: bool)
    requires forall i :: 0 <= i < |signals| ==> signals[i].weight >= 0.0
    ensures var r := Summarize(signals, hasValidGclid);
      var h := SumWeights(signals, true);
      var b := SumWeights(signals, false);
      && (h + b > 0.0 ==> r.humanLikelihood == h / (h + b) && r.botLikelihood == b / (h + b)
                          && r.humanLikelihood + r.botLikelihood == 1.0)
      && (h + b == 0.0 ==> r.humanLikelihood == 0.5 && r.botLikelihood == 0.5)
  {
    SumWeightsNonNegative(signals, true);
    SumWeightsNonNegative(signals, false);
    var h := SumWeights(signals, true);
    var b := SumWeights(signals, false);
    if h + b > 0.0 {
      Shares(h, b);
    }
  }

  /**
   * `hasContradictions`: without a valid gclid, any bot signal; with one,
   * a bot signal that also carries more than 80% of the softened weight.
   */
  lemma ContradictionVerdict(ctx: ContradictionContext, hostname: string -> Option<string>)
    ensures var raw := RawSignals(ctx, hostname);
      var r := Summarize(Soften(raw, ctx.hasValidGclid), ctx.hasValidGclid);
      && (!ctx.hasValidGclid ==> (r.hasContradictions <==> exists i :: 0 <= i < |raw| && !raw[i].isHumanIndicator))
      && (ctx.hasValidGclid ==> (r.hasContradictions <==> CountBots(raw) > 0 && r.botLikelihood > 0.8))
  {
    var raw := RawSignals(ctx, hostname);
    RawWeightsInRange(ctx, hostname);
    BotsIffBotWeight(raw);
    if ctx.hasValidGclid {
      SoftenSums(raw);
    } else if exists i :: 0 <= i < |raw| && !raw[i].isHumanIndicator {
      var i :| 0 <= i < |raw| && !raw[i].isHumanIndicator;
      BotWeightAtLeast(raw, i);
    } else {
      NoBotsNoBotWeight(raw);
    }
  }

  lemma {:induction false} BotWeightAtLeast(signals: seq<Signal>, i: nat)
    requires WeightsInRange(signals) && i < |signals| && !signals[i].isHumanIndicator
    ensures SumWeights(signals, false) >= signals[i].weight
  {
    SumWeightsNonNegative(signals[1..], false);
    if i > 0 {
      BotWeightAtLeast(signals[1..], i - 1);
    }
  }

  lemma {:induction false} NoBotsNoBotWeight(signals: seq<Signal>)
    requires forall i :: 0 <= i < |signals| ==> signals[i].isHumanIndicator
    ensures SumWeights(signals, false) == 0.0
  {
    if signals != [] {
      NoBotsNoBotWeight(signals[1..]);
    }
  }

  lemma DivLe(a: real, c: real, b: real, d: real)
    requires c > 0.0 && d > 0.0 && a * d <= b * c
    ensures a / c <= b / d
  {
    var x := a / c;
    var y := b / d;
    assert x * c == a;
    assert y * d == b;
    if x > y {
      assert x * c * d > y * c * d;
      assert x * c * d == a * d;
      assert y * c * d == b * c;
    }
  }

  lemma ShareShrinks(h: real, b: real)
    requires h >= 0.0 && b > 0.0
    ensures 0.4 * b / (h + 0.4 * b) <= b / (h + b)
  {
    assert 0.4 * b * (h + b) <= b * (h + 0.4 * b) by {
      assert 0.4 * b * (h + b) == 0.4 * b * h + 0.4 * b * b;
      assert b * (h + 0.4 * b) == b * h + 0.4 * b * b;
      assert 0.4 * b * h <= b * h;
    }
    var c, d := h + 0.4 * b, h + b;
    assert c > 0.0 && d > 0.0;
    assert 0.4 * b * d <= b * c;
    DivLe(0.4 * b, c, b, d);
  }

  /** No check reads the gclid flag. */
  lemma RawSignalsIgnoreGclid(ctx: ContradictionContext, g: bool, hostname: string -> Option<string>)
    ensures RawSignals(ctx.(hasValidGclid := g), hostname) == RawSignals(ctx, hostname)
  {
  }

  /** Softening never raises the bot share of a list of positive weights. */
  lemma SoftenNeverRaisesBotShare(signals: seq<Signal>)
    requires WeightsInRange(signals)
    ensures Summarize(Soften(signals, true), true).botLikelihood <= Summarize(signals, false).botLikelihood
  {
    SoftenSums(signals);
    SumWeightsNonNegative(signals, true);
    SumWeightsNonNegative(signals, false);
    var h := SumWeights(signals, true);
    var b := SumWeights(signals, false);
    if b > 0.0 {
      ShareShrinks(h, b);
      Shares(h, b);
      Shares(h, 0.4 * b);
    }
  }

  /**
   * For the same request, a valid gclid never raises the bot likelihood:
   * no check reads the flag, and softening only shrinks the bot share.
   */
  lemma GclidNeverRaisesBotLikelihood(ctx: ContradictionContext, hostname: string -> Option<string>)
    ensures var withGclid := ctx.(hasValidGclid := true);
      var without := ctx.(hasValidGclid := false);
      Summarize(Soften(RawSignals(withGclid, hostname), true), true).botLikelihood
        <= Summarize(RawSignals(without, hostname), false).botLikelihood
  {
    var raw := RawSignals(ctx, hostname);
    RawSignalsIgnoreGclid(ctx, true, hostname);
    RawSignalsIgnoreGclid(ctx, false, hostname);
    RawWeightsInRange(ctx, hostname);
    SoftenNeverRaisesBotShare(raw);
  }

  /** The timing check: under 50 ms is a bot signal, 200 to 2000 ms a human one, anything else nothing. */
  lemma TimingBands(ctx: ContradictionContext)
    ensures var t := ctx.serverReceived - ctx.requestStart;
      && (t < 50 <==> TimingSignals(ctx.requestStart, ctx.serverReceived) == [Bot(TimingTooFast, 0.6)])
      && (200 <= t <= 2000 <==> TimingSignals(ctx.requestStart, ctx.serverReceived) == [Human(TimingNatural, 0.15)])
      && ((50 <= t < 200 || t > 2000) <==> TimingSignals(ctx.requestStart, ctx.serverReceived) == [])
  {
  }

  /**
   * The header-order check compares at most the first seven keys, emits no
   * order signal when none of them is a known header, and emits nothing at
   * all for a request without headers.
   */
  lemma HeaderOrderShape(ctx: ContradictionContext)
    ensures var keys := Keys(ctx.headers);
      var t := OrderTally(TypicalBrowserOrder, keys, MinI(|keys|, |TypicalBrowserOrder|));
      && t.checked <= 7
      && (t.checked == 0 ==> HeaderOrderSignals(ctx.headers) == CasingSignal(keys))
      && (ctx.headers == [] ==> HeaderOrderSignals(ctx.headers) == [])
  {
  }

  /** Only the first seven keys matter to the order tally. */
  lemma {:induction false} OrderTallyPrefix(order: seq<string>, keys: seq<string>, more: seq<string>, n: nat)
    requires n <= |keys| && n <= |order|
    ensures OrderTally(order, keys + more, n) == OrderTally(order, keys, n)
  {
    if n > 0 {
      OrderTallyPrefix(order, keys, more, n - 1);
      assert (keys + more)[n - 1] == keys[n - 1];
    }
  }
}
