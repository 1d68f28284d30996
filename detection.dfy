/**
 * The detection engine (supabase/functions/ice-wall-backend/detection.ts):
 * an ordered list of layers, click id first, that stops at the first failing
 * gate and otherwise reports every layer's verdict.
 *
 * The click-id layer writes to the observation table of the click-id
 * validator, which the engine holds; the rule fetch, the outcomes of the
 * table reads and writes, the clock, `Math.log2` and the referer regex are
 * parameters. The bot, data-centre, VPN and fingerprint patterns are
 * literal case-insensitive regular expressions and are matched as
 * substrings of the lower-cased text.
 */
module Detection {

  import opened Base
  import opened Text
  import opened ClickId
  import Observer

  /** `DetectionConfig`, without the rate-limit and crawler settings no layer reads. */
  datatype DetectionConfig = DetectionConfig(
    blockVpn: bool,
    blockDatacenter: bool,
    blockProxy: bool,
    blockBots: bool,
    allowedCountries: seq<string>,
    blockedCountries: seq<string>)

  /** `ValidationData` */
  datatype DetectionData = DetectionData(
    ip: string, userAgent: string, headers: Headers, country: string, params: Params, domainId: string)

  datatype Layer = ClickIdLayer | IpLayer | GeoLayer | BotLayer | DatacenterLayer | VpnLayer | ProxyLayer | FingerprintLayer

  function LayerName(l: Layer): string
  {
    match l
    case ClickIdLayer => "Click-ID Validation (ECONOMIC FILTER)"
    case IpLayer => "IP Validation"
    case GeoLayer => "Geo-Blocking"
    case BotLayer => "Bot Detection"
    case DatacenterLayer => "Datacenter Detection"
    case VpnLayer => "VPN Detection"
    case ProxyLayer => "Proxy Detection"
    case FingerprintLayer => "Header Fingerprinting"
  }

  /** Why a layer failed (the source's `reason` texts). */
  datatype Reason =
    | NoReason
    | ClickIdReused(hitCount: nat)
    | NoClickIdFound
    | InvalidClickId(errors: seq<ValidationError>)
    | IpUnknown
    | Localhost
    | PrivateIp
    | CountryUnknown
    | CountryNotAllowed
    | CountryBlocked
    | BotUserAgent
    | DatacenterIp
    | VpnDetected
    | ProxyHeaders
    | MissingUserAgent
    | SuspiciousUserAgent

  /** `DetectionResult` */
  datatype DetectionResult = DetectionResult(layer: Layer, passed: bool, reason: Reason)

  function Pass(l: Layer): DetectionResult { DetectionResult(l, true, NoReason) }
  function Fail(l: Layer, why: Reason): DetectionResult { DetectionResult(l, false, why) }

  // ---------------------------------------------------------------------
  // IP and geography
  // ---------------------------------------------------------------------

  const LocalhostForms := ["127.0.0.1", "::1", "localhost"]

  const PrivatePrefixes := ["192.168.", "10.", "172.16.", "172.17.", "172.18.", "172.19.", "172.20.", "172.21.",
                            "172.22.", "172.23.", "172.24.", "172.25.", "172.26.", "172.27.", "172.28.", "172.29.",
                            "172.30.", "172.31."]

  predicate StartsWithAny(s: string, prefixes: seq<string>)
  {
    exists k | 0 <= k < |prefixes| :: StartsWith(s, prefixes[k])
  }

  /** `checkIPValidity` */
  function CheckIp(ip: string): (r: DetectionResult)
    ensures r.layer == IpLayer
    ensures r.passed <==> ip != "" && ip != "unknown" && ip !in LocalhostForms && !StartsWithAny(ip, PrivatePrefixes)
    ensures r.reason == PrivateIp ==> ip !in LocalhostForms
  {
    if ip == "" || ip == "unknown" then Fail(IpLayer, IpUnknown)
    else if ip in LocalhostForms then Fail(IpLayer, Localhost)
    else if StartsWithAny(ip, PrivatePrefixes) then Fail(IpLayer, PrivateIp)
    else Pass(IpLayer)
  }

  /** One differing character before the end of `p` rules the prefix out. */
  lemma NotPrefixAt(s: string, p: string, j: nat)
    requires j < |p| && j < |s| && s[j] != p[j]
    ensures !StartsWith(s, p)
  {
  }

  /** "172.15.0.1" starts with none of the private prefixes. */
  lemma BelowRangeNotPrivate()
    ensures !StartsWithAny("172.15.0.1", PrivatePrefixes)
  {
    var ip := "172.15.0.1";
    forall k | 0 <= k < |PrivatePrefixes|
      ensures !StartsWith(ip, PrivatePrefixes[k])
    {
      if k < 2 {
        NotPrefixAt(ip, PrivatePrefixes[k], 1);
      } else if k < 6 {
        NotPrefixAt(ip, PrivatePrefixes[k], 5);
      } else {
        NotPrefixAt(ip, PrivatePrefixes[k], 4);
      }
    }
  }

  /** "172.32.0.1" starts with none of the private prefixes. */
  lemma AboveRangeNotPrivate()
    ensures !StartsWithAny("172.32.0.1", PrivatePrefixes)
  {
    var ip := "172.32.0.1";
    forall k | 0 <= k < |PrivatePrefixes|
      ensures !StartsWith(ip, PrivatePrefixes[k])
    {
      if k < 2 {
        NotPrefixAt(ip, PrivatePrefixes[k], 1);
      } else if k < 16 {
        NotPrefixAt(ip, PrivatePrefixes[k], 4);
      } else {
        NotPrefixAt(ip, PrivatePrefixes[k], 5);
      }
    }
  }

  /** The private ranges checked are 192.168/16, 10/8 and exactly the sixteen 172.16/12 second octets. */
  lemma PrivateRangeBoundaries()
    ensures !CheckIp("172.16.0.1").passed && !CheckIp("172.31.255.255").passed
    ensures !CheckIp("10.1.2.3").passed && !CheckIp("192.168.0.1").passed
    ensures CheckIp("172.15.0.1").passed && CheckIp("172.32.0.1").passed
  {
    assert StartsWith("172.16.0.1", PrivatePrefixes[2]);
    assert StartsWith("172.31.255.255", PrivatePrefixes[17]);
    assert StartsWith("10.1.2.3", PrivatePrefixes[1]);
    assert StartsWith("192.168.0.1", PrivatePrefixes[0]);
    BelowRangeNotPrivate();
    AboveRangeNotPrivate();
  }

  /** `checkGeoBlocking`: the allow list is consulted before the deny list. */
  function CheckGeo(country: string, allowed: seq<string>, blocked: seq<string>): (r: DetectionResult)
    ensures r.layer == GeoLayer
    ensures r.passed <==> country != "" && country != "UNKNOWN" && country != "unknown"
                          && (|allowed| > 0 ==> country in allowed) && country !in blocked
    ensures r.reason == CountryBlocked ==> |allowed| == 0 || country in allowed
  {
    if country == "" || country == "UNKNOWN" || country == "unknown" then Fail(GeoLayer, CountryUnknown)
    else if |allowed| > 0 && country !in allowed then Fail(GeoLayer, CountryNotAllowed)
    else if |blocked| > 0 && country in blocked then Fail(GeoLayer, CountryBlocked)
    else Pass(GeoLayer)
  }

  /** With both lists empty, every known country passes. */
  lemma NoListsAllowAllKnown(country: string)
    requires country != "" && country != "UNKNOWN" && country != "unknown"
    ensures CheckGeo(country, [], []).passed
  {
  }

  // ---------------------------------------------------------------------
  // Pattern layers
  // ---------------------------------------------------------------------

  const BotPatterns := ["bot", "crawl", "spider", "slurp", "mediapartners", "googlebot", "bingbot", "yandex",
                        "baiduspider", "facebookexternalhit", "twitterbot", "whatsapp", "telegram", "slack",
                        "discord", "curl", "wget", "python", "java", "okhttp", "go-http", "axios", "node-fetch",
                        "scrapy", "phantom", "headless"]

  const DatacenterPatterns := ["amazon", "aws", "google cloud", "azure", "digitalocean", "linode", "vultr", "ovh",
                               "hetzner", "contabo"]

  const VpnIndicators := ["vpn", "proxy", "tunnel", "nordvpn", "expressvpn", "surfshark", "protonvpn", "mullvad"]

  const ProxyHeaderNames := ["X-Forwarded-For", "X-Forwarded-Host", "X-Forwarded-Proto", "X-Real-IP", "X-Proxy-ID",
                             "Via", "Forwarded"]

  /** `Object.values(headers).join(' ')` */
  function JoinValues(h: Headers): (s: string)
    ensures h == [] ==> s == ""
  {
    if h == [] then ""
    else if |h| == 1 then h[0].value
    else h[0].value + " " + JoinValues(h[1..])
  }

  /** `checkBots` */
  function CheckBots(enabled: bool, userAgent: string): (r: DetectionResult)
    ensures r.layer == BotLayer
    ensures r.passed <==> !enabled || !ContainsAny(Lower(userAgent), BotPatterns)
  {
    if !enabled then Pass(BotLayer)
    else if ContainsAny(Lower(userAgent), BotPatterns) then Fail(BotLayer, BotUserAgent)
    else Pass(BotLayer)
  }

  /** `checkDatacenter`: the patterns are looked for in the header values, not in the IP. */
  function CheckDatacenter(enabled: bool, headers: Headers): (r: DetectionResult)
    ensures r.layer == DatacenterLayer
    ensures r.passed <==> !enabled || !ContainsAny(Lower(JoinValues(headers)), DatacenterPatterns)
  {
    if !enabled then Pass(DatacenterLayer)
    else if ContainsAny(Lower(JoinValues(headers)), DatacenterPatterns) then Fail(DatacenterLayer, DatacenterIp)
    else Pass(DatacenterLayer)
  }

  /** `checkVPN`: the user agent and the header values, joined by a space. */
  function CheckVpn(enabled: bool, userAgent: string, headers: Headers): (r: DetectionResult)
    ensures r.layer == VpnLayer
    ensures r.passed <==> !enabled || !ContainsAny(Lower(userAgent + " " + JoinValues(headers)), VpnIndicators)
  {
    if !enabled then Pass(VpnLayer)
    else if ContainsAny(Lower(userAgent + " " + JoinValues(headers)), VpnIndicators) then Fail(VpnLayer, VpnDetected)
    else Pass(VpnLayer)
  }

  /** A listed proxy header, looked up under its upper-cased name, holds a comma. */
  predicate ProxyChain(headers: Headers)
  {
    exists k | 0 <= k < |ProxyHeaderNames| :: Contains(Get(headers, Upper(ProxyHeaderNames[k])), ",")
  }

  /** `checkProxy` */
  function CheckProxy(enabled: bool, headers: Headers): (r: DetectionResult)
    ensures r.layer == ProxyLayer
    ensures r.passed <==> !enabled || !ProxyChain(headers)
  {
    if !enabled then Pass(ProxyLayer)
    else if ProxyChain(headers) then Fail(ProxyLayer, ProxyHeaders)
    else Pass(ProxyLayer)
  }

  /** The lookup is by exact key: a forwarding chain under a lower-case key goes unnoticed. */
  lemma LowerCaseProxyHeaderMissed()
    ensures CheckProxy(true, [Header("x-forwarded-for", "1.1.1.1, 2.2.2.2")]).passed
  {
    var h := [Header("x-forwarded-for", "1.1.1.1, 2.2.2.2")];
    forall k | 0 <= k < |ProxyHeaderNames|
      ensures Get(h, Upper(ProxyHeaderNames[k])) == ""
    {
      var u := Upper(ProxyHeaderNames[k]);
      assert u[0] != 'x' by {
        assert ProxyHeaderNames[k][0] in "XVF";
      }
    }
  }

  /** The user agent the fingerprint layer judges: a header value first, else the request's. */
  function FingerprintAgent(data: DetectionData): string
  {
    FirstNonEmpty([Get(data.headers, "USER-AGENT"), Get(data.headers, "USER_AGENT"), data.userAgent])
  }

  /** `/^curl\//i, /^wget\//i, /python-requests/i, /^java\//i, /okhttp/i, /go-http/i, /^$/` */
  predicate ScriptedAgent(ua: string)
  {
    var l := Lower(ua);
    StartsWith(l, "curl/") || StartsWith(l, "wget/") || Contains(l, "python-requests") || StartsWith(l, "java/")
    || Contains(l, "okhttp") || Contains(l, "go-http") || l == ""
  }

  /** `checkHeaderFingerprint`; it has no toggle. */
  function CheckFingerprint(data: DetectionData): (r: DetectionResult)
    ensures r.layer == FingerprintLayer
    ensures r.passed <==> FingerprintAgent(data) != "" && FingerprintAgent(data) != "unknown" && !ScriptedAgent(FingerprintAgent(data))
  {
    var ua := FingerprintAgent(data);
    if ua == "" || ua == "unknown" then Fail(FingerprintLayer, MissingUserAgent)
    else if ScriptedAgent(ua) then Fail(FingerprintLayer, SuspiciousUserAgent)
    else Pass(FingerprintLayer)
  }

  // ---------------------------------------------------------------------
  // The click-id layer and the pipeline
  // ---------------------------------------------------------------------

  /**
   * What the click-id layer's store calls return: the rule fetch (`None` when
   * it fails), the outcomes of the observation lookup and write, of the
   * reuse lookup, and the time of the write.
   */
  datatype ClickStore = ClickStore(rules: Option<seq<NetworkRule>>, recordLookupOk: bool, recordWriteOk: bool,
                                   reuseLookupOk: bool, now: int)

  /** The click id is recorded when one was found with a non-empty id and network. */
  predicate Recordable(v: ValidationResult)
  {
    v.hasClickId && v.clickId.Some? && v.clickId.value != "" && v.network.Some? && v.network.value != ""
  }

  function SightingOf(data: DetectionData, v: ValidationResult): Sighting
    requires Recordable(v)
  {
    Sighting(data.domainId, v.clickId.value, v.network.value, data.ip, data.userAgent, RefererOf(data.headers),
             v.isValid, v.validationErrors, v.entropy)
  }

  /** The verdict of the click-id layer once the validation, the table write and the reuse lookup are known. */
  function ClickIdVerdict(v: ValidationResult, reuse: Option<ReuseCheck>): (r: DetectionResult)
    ensures r.layer == ClickIdLayer
    ensures r.passed <==> v.hasClickId && v.isValid && !(reuse.Some? && reuse.value.isReused && reuse.value.hitCount > 1)
  {
    if reuse.Some? && reuse.value.isReused && reuse.value.hitCount > 1 then Fail(ClickIdLayer, ClickIdReused(reuse.value.hitCount))
    else if !v.hasClickId then Fail(ClickIdLayer, NoClickIdFound)
    else if !v.isValid then Fail(ClickIdLayer, InvalidClickId(v.validationErrors))
    else Pass(ClickIdLayer)
  }

  /** `checkClickId`: the layer's result and the observation table afterwards. */
  ghost function ClickIdCheck(rows: seq<Observation>, data: DetectionData, store: ClickStore,
                              log2: real -> real, regexTest: (string, string) -> Option<bool>): (DetectionResult, seq<Observation>)
  {
    var v := Validation(data.params, data.headers, store.rules, log2, regexTest);
    if Recordable(v) then
      var after := AfterRecord(rows, SightingOf(data, v), store.now, store.recordLookupOk, store.recordWriteOk);
      var reuse := Reuse(after, v.clickId.value, data.domainId, store.reuseLookupOk);
      (ClickIdVerdict(v, Some(reuse)), after)
    else (ClickIdVerdict(v, None), rows)
  }

  /** The layers `validate` reports once the click-id layer's result is known. */
  function Layers(config: DetectionConfig, data: DetectionData, click: DetectionResult): (rs: seq<DetectionResult>)
    ensures |rs| >= 1 && rs[0] == click
  {
    if !click.passed then [click]
    else
      var ip := CheckIp(data.ip);
      if !ip.passed then [click, ip]
      else
        var geo := CheckGeo(data.country, config.allowedCountries, config.blockedCountries);
        if !geo.passed then [click, geo]
        else [click, geo,
              CheckBots(config.blockBots, data.userAgent),
              CheckDatacenter(config.blockDatacenter, data.headers),
              CheckVpn(config.blockVpn, data.userAgent, data.headers),
              CheckProxy(config.blockProxy, data.headers),
              CheckFingerprint(data)]
  }

  function LayersOf(rs: seq<DetectionResult>): (ls: seq<Layer>)
    ensures |ls| == |rs|
    ensures forall i :: 0 <= i < |rs| ==> ls[i] == rs[i].layer
  {
    if rs == [] then [] else [rs[0].layer] + LayersOf(rs[1..])
  }

  /** The shape of a report: where it stops and in which order the layers come. */
  lemma ReportShape(config: DetectionConfig, data: DetectionData, click: DetectionResult)
    requires click.layer == ClickIdLayer
    ensures var rs := Layers(config, data, click);
      && (!click.passed ==> rs == [click])
      && (click.passed && !CheckIp(data.ip).passed ==> LayersOf(rs) == [ClickIdLayer, IpLayer] && !rs[1].passed)
      && (click.passed && CheckIp(data.ip).passed && !CheckGeo(data.country, config.allowedCountries, config.blockedCountries).passed
          ==> LayersOf(rs) == [ClickIdLayer, GeoLayer] && !rs[1].passed)
      && (click.passed && CheckIp(data.ip).passed && CheckGeo(data.country, config.allowedCountries, config.blockedCountries).passed
          ==> LayersOf(rs) == [ClickIdLayer, GeoLayer, BotLayer, DatacenterLayer, VpnLayer, ProxyLayer, FingerprintLayer])
      && (forall i :: 1 <= i < |rs| ==> rs[i].layer != IpLayer || !rs[i].passed)
  {
  }

  /** The layers a configuration switch can turn off. */
  predicate Switchable(l: Layer)
  {
    l.BotLayer? || l.DatacenterLayer? || l.VpnLayer? || l.ProxyLayer?
  }

  /** With their toggles off, the bot, data-centre, VPN and proxy layers report a pass. */
  lemma TogglesOffPass(config: DetectionConfig, data: DetectionData, click: DetectionResult)
    requires click.layer == ClickIdLayer
    requires !config.blockBots && !config.blockDatacenter && !config.blockVpn && !config.blockProxy
    ensures var rs := Layers(config, data, click);
      forall i :: 0 <= i < |rs| && Switchable(rs[i].layer) ==> rs[i].passed
  {
    var rs := Layers(config, data, click);
    if |rs| == 7 {
      assert rs[2] == Pass(BotLayer) && rs[3] == Pass(DatacenterLayer) && rs[4] == Pass(VpnLayer) && rs[5] == Pass(ProxyLayer);
    }
  }

  /** A reused click id (more than one hit) fails the layer whether or not the id is valid. */
  lemma ReuseOverridesValidity(v: ValidationResult, reuse: ReuseCheck)
    requires reuse.isReused && reuse.hitCount > 1
    ensures ClickIdVerdict(v, Some(reuse)) == Fail(ClickIdLayer, ClickIdReused(reuse.hitCount))
  {
  }

  /**
   * On a working store, a click id seen before on the same domain fails as
   * reused: recording it first lifts its hit count above one.
   */
  lemma SecondSightingIsReuse(rows: seq<Observation>, data: DetectionData, store: ClickStore,
                              log2: real -> real, regexTest: (string, string) -> Option<bool>)
    requires store.recordLookupOk && store.recordWriteOk && store.reuseLookupOk
    requires UniqueKeys(rows) && HitCountsPositive(rows)
    requires var v := Validation(data.params, data.headers, store.rules, log2, regexTest);
      Recordable(v) && Reuse(rows, v.clickId.value, data.domainId, true).isReused
    ensures ClickIdCheck(rows, data, store, log2, regexTest).0.reason.ClickIdReused?
  {
    var v := Validation(data.params, data.headers, store.rules, log2, regexTest);
    var s := SightingOf(data, v);
    RecordCountsOneHit(rows, s, store.now);
    var i := FindObservation(rows, s.clickId, s.domainId).value;
    assert rows[i].hitCount >= 1;
  }

  /** `getAllResults` */
  datatype Summary = Summary(passed: bool, failedLayers: seq<string>, allResults: seq<DetectionResult>)

  /** The layers that failed, in the order they were reported. */
  function FailedLayers(rs: seq<DetectionResult>): (ls: seq<Layer>)
    ensures |ls| <= |rs|
    ensures ls == [] <==> forall i :: 0 <= i < |rs| ==> rs[i].passed
  {
    if rs == [] then []
    else (if rs[0].passed then [] else [rs[0].layer]) + FailedLayers(rs[1..])
  }

  function Names(ls: seq<Layer>): (names: seq<string>)
    ensures |names| == |ls|
    ensures forall k :: 0 <= k < |ls| ==> names[k] == LayerName(ls[k])
  {
    seq(|ls|, k requires 0 <= k < |ls| => LayerName(ls[k]))
  }

  /** Every layer in the failure list is one that failed. */
  lemma {:induction false} FailedLayersAreFailures(rs: seq<DetectionResult>)
    ensures forall k :: 0 <= k < |FailedLayers(rs)| ==> exists j :: 0 <= j < |rs| && !rs[j].passed && FailedLayers(rs)[k] == rs[j].layer
  {
    if rs == [] {
      assert FailedLayers(rs) == [];
    } else {
      FailedLayersAreFailures(rs[1..]);
      var rest := FailedLayers(rs[1..]);
      var ls := FailedLayers(rs);
      var skip := if rs[0].passed then 0 else 1;
      assert ls == (if rs[0].passed then [] else [rs[0].layer]) + rest;
      forall k | 0 <= k < |ls|
        ensures exists j :: 0 <= j < |rs| && !rs[j].passed && ls[k] == rs[j].layer
      {
        if k < skip {
          assert !rs[0].passed && ls[k] == rs[0].layer;
        } else {
          assert ls[k] == rest[k - skip] && 0 <= k - skip < |rest|;
          var j :| 0 <= j < |rs[1..]| && !rs[1..][j].passed && rest[k - skip] == rs[1..][j].layer;
          assert rs[j + 1] == rs[1..][j];
          assert 0 <= j + 1 < |rs| && !rs[j + 1].passed && ls[k] == rs[j + 1].layer;
        }
      }
    }
  }

  function GetAllResults(rs: seq<DetectionResult>): (s: Summary)
    ensures s.passed <==> forall i :: 0 <= i < |rs| ==> rs[i].passed
    ensures s.allResults == rs
    ensures |s.failedLayers| <= |rs|
  {
    var failed := FailedLayers(rs);
    Summary(|failed| == 0, Names(failed), rs)
  }

  /** The failure list keeps the order of the results: the failures of a concatenation are the failures of each part, in turn. */
  lemma {:induction false} FailedLayersInOrder(rs: seq<DetectionResult>, more: seq<DetectionResult>)
    ensures FailedLayers(rs + more) == FailedLayers(rs) + FailedLayers(more)
  {
    if rs != [] {
      FailedLayersInOrder(rs[1..], more);
      assert (rs + more)[1..] == rs[1..] + more;
      var head := if rs[0].passed then [] else [rs[0].layer];
      calc {
        FailedLayers(rs + more);
        head + FailedLayers(rs[1..] + more);
        head + (FailedLayers(rs[1..]) + FailedLayers(more));
        (head + FailedLayers(rs[1..])) + FailedLayers(more);
      }
    } else {
      assert rs + more == more;
    }
  }

  /** A report that stops early has exactly one failed layer, the last one. */
  lemma {:induction false} EarlyStopOneFailure(config: DetectionConfig, data: DetectionData, click: DetectionResult)
    requires click.layer == ClickIdLayer
    requires |Layers(config, data, click)| <= 2
    ensures var rs := Layers(config, data, click);
      FailedLayers(rs) == [rs[|rs| - 1].layer]
  {
  }

  class DetectionEngine {
    const config: DetectionConfig
    /** The `click_id_observations` table the click-id layer writes to. */
    const observations: ObservationTable

    constructor (config: DetectionConfig, observations: ObservationTable)
      ensures this.config == config && this.observations == observations
    {
      this.config := config;
      this.observations := observations;
    }

    /** `checkClickId` */
    method CheckClickId(data: DetectionData, store: ClickStore, log2: real -> real, regexTest: (string, string) -> Option<bool>)
      returns (r: DetectionResult)
      modifies observations
      ensures (r, observations.rows) == ClickIdCheck(old(observations.rows), data, store, log2, regexTest)
    {
      var validation := ValidateClickId(data.params, data.headers, store.rules, log2, regexTest);
      var reuse: Option<ReuseCheck> := None;
      if Recordable(validation) {
        observations.Record(SightingOf(data, validation), store.now, store.recordLookupOk, store.recordWriteOk);
        var check := observations.CheckReuse(validation.clickId.value, data.domainId, store.reuseLookupOk);
        reuse := Some(check);
      }
      r := ClickIdVerdict(validation, reuse);
    }

    /** `validate` */
    method Validate(data: DetectionData, store: ClickStore, log2: real -> real, regexTest: (string, string) -> Option<bool>)
      returns (results: seq<DetectionResult>)
      modifies observations
      ensures var c := ClickIdCheck(old(observations.rows), data, store, log2, regexTest);
        results == Layers(config, data, c.0) && observations.rows == c.1
    {
      var clickIdResult := CheckClickId(data, store, log2, regexTest);
      results := [clickIdResult];
      if !clickIdResult.passed {
        return;
      }
      var ipValidation := CheckIp(data.ip);
      if !ipValidation.passed {
        results := results + [ipValidation];
        return;
      }
      var geoResult := CheckGeo(data.country, config.allowedCountries, config.blockedCountries);
      results := results + [geoResult];
      if !geoResult.passed {
        return;
      }
      results := results + [CheckBots(config.blockBots, data.userAgent)];
      results := results + [CheckDatacenter(config.blockDatacenter, data.headers)];
      results := results + [CheckVpn(config.blockVpn, data.userAgent, data.headers)];
      results := results + [CheckProxy(config.blockProxy, data.headers)];
      results := results + [CheckFingerprint(data)];
    }
  }

  // ---------------------------------------------------------------------
  // How the observer classifies a report
  // ---------------------------------------------------------------------

  /** The name of every switchable layer mentions the word the observer treats as critical. */
  lemma SwitchableNamesCritical(l: Layer)
    requires Switchable(l)
    ensures Observer.Critical(LayerName(l))
  {
    var name := Lower(LayerName(l));
    match l
    case BotLayer =>
      assert name[0..3] == "bot";
      assert At(name, Observer.CriticalWords[0], 0);
    case DatacenterLayer =>
      assert name[0..10] == "datacenter";
      assert At(name, Observer.CriticalWords[1], 0);
    case VpnLayer =>
      assert name[0..3] == "vpn";
      assert At(name, Observer.CriticalWords[2], 0);
    case ProxyLayer =>
      assert name[0..5] == "proxy";
      assert At(name, Observer.CriticalWords[3], 0);
  }

  /**
   * A report in which a bot, data-centre, VPN or proxy layer failed is
   * classified as blocked traffic by the observer; any other failing report
   * is at least suspicious.
   */
  lemma {:induction false} SwitchableFailureBlocks(rs: seq<DetectionResult>, i: nat)
    requires i < |rs| && !rs[i].passed && Switchable(rs[i].layer)
    ensures var s := GetAllResults(rs);
      Observer.Classify(s.passed, s.failedLayers) == Observer.Blocked
  {
    FailedLayersInOrder(rs[..i], rs[i..]);
    assert rs[..i] + rs[i..] == rs;
    var k := |FailedLayers(rs[..i])|;
    assert FailedLayers(rs[i..]) == [rs[i].layer] + FailedLayers(rs[i + 1..]) by {
      assert rs[i..][1..] == rs[i + 1..];
    }
    var failed := GetAllResults(rs).failedLayers;
    assert failed[k] == LayerName(FailedLayers(rs)[k]) == LayerName(rs[i].layer);
    SwitchableNamesCritical(rs[i].layer);
  }

  // The names of the other layers mention none of the critical words.

  /** A word with a character the text lacks does not occur in it. */
  lemma CharAbsent(s: string, w: string, j: nat)
    requires j < |w| && forall i :: 0 <= i < |s| ==> s[i] != w[j]
    ensures !Contains(s, w)
  {
    forall i | 0 <= i <= |s| - |w|
      ensures !At(s, w, i)
    {
      assert s[i..i + |w|][j] == s[i + j];
    }
  }

  /** A word with two adjacent characters the text never has side by side does not occur in it. */
  lemma PairAbsent(s: string, w: string, j: nat)
    requires j + 1 < |w| && forall i :: 0 <= i < |s| - 1 ==> !(s[i] == w[j] && s[i + 1] == w[j + 1])
    ensures !Contains(s, w)
  {
    forall i | 0 <= i <= |s| - |w|
      ensures !At(s, w, i)
    {
      assert s[i..i + |w|][j] == s[i + j] && s[i..i + |w|][j + 1] == s[i + j + 1];
    }
  }

  lemma LowerClickIdName()
    ensures Lower(LayerName(ClickIdLayer)) == "click-id validation (economic filter)"
  {
  }

  const ClickIdLower := "click-id validation (economic filter)"

  lemma ClickIdNameWithoutBot()
    ensures !Contains(ClickIdLower, "bot")
  {
    CharAbsent(ClickIdLower, "bot", 0);
  }

  lemma ClickIdNameWithoutDatacenter()
    ensures !Contains(ClickIdLower, "datacenter")
  {
    PairAbsent(ClickIdLower, "datacenter", 2);
  }

  lemma ClickIdNameWithoutVpn()
    ensures !Contains(ClickIdLower, "vpn")
  {
    CharAbsent(ClickIdLower, "vpn", 1);
  }

  lemma ClickIdNameWithoutProxy()
    ensures !Contains(ClickIdLower, "proxy")
  {
    CharAbsent(ClickIdLower, "proxy", 3);
  }

  lemma ClickIdNameNotCritical()
    ensures !Observer.Critical(LayerName(ClickIdLayer))
  {
    LowerClickIdName();
    ClickIdNameWithoutBot(); ClickIdNameWithoutDatacenter(); ClickIdNameWithoutVpn(); ClickIdNameWithoutProxy();
  }

  lemma IpNameNotCritical()
    ensures !Observer.Critical(LayerName(IpLayer))
  {
    var name := "ip validation";
    assert Lower(LayerName(IpLayer)) == name;
    var ws := Observer.CriticalWords;
    CharAbsent(name, ws[0], 0);
    CharAbsent(name, ws[1], 4);
    PairAbsent(name, ws[2], 0);
    CharAbsent(name, ws[3], 3);
  }

  lemma GeoNameNotCritical()
    ensures !Observer.Critical(LayerName(GeoLayer))
  {
    var name := "geo-blocking";
    assert Lower(LayerName(GeoLayer)) == name;
    var ws := Observer.CriticalWords;
    CharAbsent(name, ws[0], 2);
    CharAbsent(name, ws[1], 0);
    CharAbsent(name, ws[2], 0);
    CharAbsent(name, ws[3], 3);
  }

  lemma FingerprintNameNotCritical()
    ensures !Observer.Critical(LayerName(FingerprintLayer))
  {
    var name := "header fingerprinting";
    assert Lower(LayerName(FingerprintLayer)) == name;
    var ws := Observer.CriticalWords;
    CharAbsent(name, ws[0], 0);
    CharAbsent(name, ws[1], 4);
    CharAbsent(name, ws[2], 0);
    CharAbsent(name, ws[3], 3);
  }

  /** A layer's name is critical to the observer exactly when configuration can switch the layer off. */
  lemma CriticalIffSwitchable(l: Layer)
    ensures Observer.Critical(LayerName(l)) <==> Switchable(l)
  {
    match l
    case ClickIdLayer => ClickIdNameNotCritical();
    case IpLayer => IpNameNotCritical();
    case GeoLayer => GeoNameNotCritical();
    case FingerprintLayer => FingerprintNameNotCritical();
    case _ => SwitchableNamesCritical(l);
  }

  /** A report is blocked only when a switchable layer failed in it. */
  lemma BlockedOnlyOnSwitchableFailure(rs: seq<DetectionResult>)
    requires var s := GetAllResults(rs);
      Observer.Classify(s.passed, s.failedLayers) == Observer.Blocked
    ensures exists i :: 0 <= i < |rs| && !rs[i].passed && Switchable(rs[i].layer)
  {
    var s := GetAllResults(rs);
    var fl := FailedLayers(rs);
    assert s.failedLayers == Names(fl);
    var k :| 0 <= k < |fl| && Observer.Critical(Names(fl)[k]);
    FailedLayersAreFailures(rs);
    var j :| 0 <= j < |rs| && !rs[j].passed && fl[k] == rs[j].layer;
    CriticalIffSwitchable(rs[j].layer);
  }

  /**
   * The observer classifies a failing report as blocked exactly when a bot,
   * data-centre, VPN or proxy layer failed in it; a report that failed only
   * the click-id, IP, geography or fingerprint layers is suspicious.
   */
  lemma BlockedIffSwitchableFailure(rs: seq<DetectionResult>)
    ensures var s := GetAllResults(rs);
      Observer.Classify(s.passed, s.failedLayers) == Observer.Blocked
      <==> exists i :: 0 <= i < |rs| && !rs[i].passed && Switchable(rs[i].layer)
  {
    var s := GetAllResults(rs);
    if exists i :: 0 <= i < |rs| && !rs[i].passed && Switchable(rs[i].layer) {
      var i :| 0 <= i < |rs| && !rs[i].passed && Switchable(rs[i].layer);
      SwitchableFailureBlocks(rs, i);
    }
    if Observer.Classify(s.passed, s.failedLayers) == Observer.Blocked {
      BlockedOnlyOnSwitchableFailure(rs);
    }
  }
}
