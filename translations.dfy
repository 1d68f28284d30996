/**
 * The Portuguese labels of the dashboard (src/lib/translations.ts): each
 * `translate*` function maps a falsy input to a default label, a known key
 * to its label and any other string to itself.
 */
module Translations {

  import opened Base

  /** One `key: label` pair of a translation table. */
  datatype Entry = Entry(key: string, text: string)

  /** `translations[key]`, with `None` for `undefined`. */
  function Lookup(table: seq<Entry>, key: string): (r: Option<string>)
    ensures r.None? <==> forall i :: 0 <= i < |table| ==> table[i].key != key
    ensures r.Some? ==> exists i :: 0 <= i < |table| && table[i].key == key && table[i].text == r.value
  {
    if table == [] then None
    else if table[0].key == key then Some(table[0].text)
    else
      var r := Lookup(table[1..], key);
      assert r.Some? ==> table[1..][0].key == key || exists i :: 1 <= i < |table| && table[i].key == key && table[i].text == r.value by {
        if r.Some? {
          var j :| 0 <= j < |table[1..]| && table[1..][j].key == key && table[1..][j].text == r.value;
          assert table[j + 1] == table[1..][j];
        }
      }
      r
  }

  /** `translations[key] || key` after the falsy check; `None` is `null` or `undefined`. */
  function Translate(table: seq<Entry>, fallback: string, key: Option<string>): (r: string)
    ensures key.None? || key == Some("") ==> r == fallback
    ensures key.Some? && key.value != "" && Lookup(table, key.value).Some? && Lookup(table, key.value).value != "" ==> r == Lookup(table, key.value).value
    ensures key.Some? && key.value != "" && (Lookup(table, key.value).None? || Lookup(table, key.value) == Some("")) ==> r == key.value
  {
    if key.None? || key.value == "" then fallback
    else
      match Lookup(table, key.value)
      case Some(text) => if text != "" then text else key.value
      case None => key.value
  }

  /** No label is a different key of its own table, and no label is empty. */
  predicate Closed(table: seq<Entry>)
  {
    forall i :: 0 <= i < |table| ==> table[i].text != "" && (Lookup(table, table[i].text).None? || Lookup(table, table[i].text) == Some(table[i].text))
  }

  /** On a closed table, translating twice is translating once. */
  lemma TranslateIdempotent(table: seq<Entry>, fallback: string, key: string)
    requires Closed(table)
    requires key != ""
    ensures Translate(table, fallback, Some(Translate(table, fallback, Some(key)))) == Translate(table, fallback, Some(key))
  {
    var first := Lookup(table, key);
    if first.Some? {
      var i :| 0 <= i < |table| && table[i].key == key && table[i].text == first.value;
      assert table[i].text != "";
    }
  }

  /** A table whose keys start with a lower-case letter and whose labels start with a capital is closed. */
  lemma CapitalLabelsClosed(table: seq<Entry>)
    requires forall i :: 0 <= i < |table| ==> |table[i].key| > 0 && 'a' <= table[i].key[0] <= 'z'
    requires forall i :: 0 <= i < |table| ==> |table[i].text| > 0 && 'A' <= table[i].text[0] <= 'Z'
    ensures Closed(table)
  {
    forall i | 0 <= i < |table|
      ensures Lookup(table, table[i].text).None?
    {
      forall j | 0 <= j < |table|
        ensures table[j].key != table[i].text
      {
        assert table[j].key[0] != table[i].text[0];
      }
    }
  }

  const ReasonLabels: seq<Entry> := [
    Entry("bot_detected", "Bot detectado"),
    Entry("crawler_detected", "Crawler detectado"),
    Entry("no_click_id", "Sem Click-ID"),
    Entry("invalid_click_id", "Click-ID inválido"),
    Entry("invalid_click_id_invalid_length", "Click-ID inválido (comprimento)"),
    Entry("invalid_click_id_low_entropy", "Click-ID inválido (baixa entropia)"),
    Entry("valid_click_id", "Click-ID válido"),
    Entry("google_ads_mode_valid", "Modo Google Ads - Tráfego válido"),
    Entry("google_ads_mode_valid_traffic", "Modo Google Ads - Tráfego válido"),
    Entry("google_ads_br_mobile_valid", "Google Ads BR + Mobile válido"),
    Entry("datacenter_ip", "IP de Datacenter"),
    Entry("proxy_detected", "Proxy detectado"),
    Entry("vpn_detected", "VPN detectada"),
    Entry("mobile_required", "Mobile obrigatório"),
    Entry("desktop_blocked", "Desktop bloqueado"),
    Entry("country_not_br", "País diferente de BR"),
    Entry("country_blocked", "País bloqueado"),
    Entry("default_safe", "Padrão seguro"),
    Entry("unknown", "Desconhecido")
  ]

  const CountrySourceLabels: seq<Entry> := [
    Entry("CloudFlare", "CloudFlare"),
    Entry("CF-IPCOUNTRY", "CloudFlare"),
    Entry("ASN", "ASN"),
    Entry("fallback", "Fallback"),
    Entry("Unknown", "Desconhecido"),
    Entry("NONE", "Nenhum")
  ]

  const PlatformLabels: seq<Entry> := [
    Entry("mobile", "Mobile"),
    Entry("desktop", "Desktop"),
    Entry("tablet", "Tablet"),
    Entry("ios", "iOS"),
    Entry("android", "Android"),
    Entry("unknown", "Desconhecido")
  ]

  const NetworkLabels: seq<Entry> := [
    Entry("google_ads", "Google Ads"),
    Entry("facebook_ads", "Facebook Ads"),
    Entry("tiktok_ads", "TikTok Ads"),
    Entry("microsoft_ads", "Microsoft Ads"),
    Entry("kwai_ads", "Kwai Ads"),
    Entry("none", "Nenhuma")
  ]

  const IpTypeLabels: seq<Entry> := [
    Entry("IPv4", "IPv4"),
    Entry("IPv6", "IPv6"),
    Entry("unknown", "Desconhecido")
  ]

  /** `translateReason` */
  function TranslateReason(reason: Option<string>): (r: string)
    ensures reason.None? || reason == Some("") ==> r == "N/A"
    ensures reason.Some? && reason.value != "" && Lookup(ReasonLabels, reason.value).Some? ==>
      r == Lookup(ReasonLabels, reason.value).value
    ensures reason.Some? && reason.value != "" && Lookup(ReasonLabels, reason.value).None? ==> r == reason.value
  {
    ReasonLabelsClosed();
    Translate(ReasonLabels, "N/A", reason)
  }

  /** `translateDecision`: a safe-page decision means the visitor was denied the offer. */
  function TranslateDecision(isSafe: bool): (r: string)
    ensures r == "Negado" <==> isSafe
    ensures r == "Permitido" <==> !isSafe
  {
    if isSafe then "Negado" else "Permitido"
  }

  /** `translateCountrySource` */
  function TranslateCountrySource(source: Option<string>): (r: string)
    ensures source.None? || source == Some("") ==> r == "Desconhecido"
    ensures source.Some? && source.value != "" && Lookup(CountrySourceLabels, source.value).Some? ==>
      r == Lookup(CountrySourceLabels, source.value).value
    ensures source.Some? && source.value != "" && Lookup(CountrySourceLabels, source.value).None? ==> r == source.value
  {
    CountrySourceLabelsClosed();
    Translate(CountrySourceLabels, "Desconhecido", source)
  }

  /** `translatePlatform` */
  function TranslatePlatform(platform: Option<string>): (r: string)
    ensures platform.None? || platform == Some("") ==> r == "Desconhecido"
    ensures platform.Some? && platform.value != "" && Lookup(PlatformLabels, platform.value).Some? ==>
      r == Lookup(PlatformLabels, platform.value).value
    ensures platform.Some? && platform.value != "" && Lookup(PlatformLabels, platform.value).None? ==> r == platform.value
  {
    PlatformLabelsClosed();
    Translate(PlatformLabels, "Desconhecido", platform)
  }

  /** `translateNetwork` */
  function TranslateNetwork(network: Option<string>): (r: string)
    ensures network.None? || network == Some("") ==> r == "Nenhuma"
    ensures network.Some? && network.value != "" && Lookup(NetworkLabels, network.value).Some? ==>
      r == Lookup(NetworkLabels, network.value).value
    ensures network.Some? && network.value != "" && Lookup(NetworkLabels, network.value).None? ==> r == network.value
  {
    NetworkLabelsClosed();
    Translate(NetworkLabels, "Nenhuma", network)
  }

  /** `translateIPType` */
  function TranslateIpType(ipType: Option<string>): (r: string)
    ensures ipType.None? || ipType == Some("") ==> r == "Desconhecido"
    ensures ipType.Some? && ipType.value != "" && Lookup(IpTypeLabels, ipType.value).Some? ==>
      r == Lookup(IpTypeLabels, ipType.value).value
    ensures ipType.Some? && ipType.value != "" && Lookup(IpTypeLabels, ipType.value).None? ==> r == ipType.value
  {
    IpTypeLabelsClosed();
    Translate(IpTypeLabels, "Desconhecido", ipType)
  }

  lemma ReasonLabelsClosed()
    ensures Closed(ReasonLabels)
  {
    CapitalLabelsClosed(ReasonLabels);
  }

  lemma NetworkLabelsClosed()
    ensures Closed(NetworkLabels)
  {
    CapitalLabelsClosed(NetworkLabels);
  }

  /** "CloudFlare" and "ASN" are labels that are also keys, and they map to themselves. */
  lemma CountrySourceLabelsClosed()
    ensures Closed(CountrySourceLabels)
  {
  }

  /** "iOS" starts with a lower-case letter but is not the key "ios". */
  lemma PlatformLabelsClosed()
    ensures Closed(PlatformLabels)
  {
  }

  /** "IPv4" and "IPv6" map to themselves. */
  lemma IpTypeLabelsClosed()
    ensures Closed(IpTypeLabels)
  {
  }

  /** Every `translate*` function is idempotent on non-empty strings. */
  lemma TranslationsIdempotent(key: string)
    requires key != ""
    ensures TranslateReason(Some(TranslateReason(Some(key)))) == TranslateReason(Some(key))
    ensures TranslateCountrySource(Some(TranslateCountrySource(Some(key)))) == TranslateCountrySource(Some(key))
    ensures TranslatePlatform(Some(TranslatePlatform(Some(key)))) == TranslatePlatform(Some(key))
    ensures TranslateNetwork(Some(TranslateNetwork(Some(key)))) == TranslateNetwork(Some(key))
    ensures TranslateIpType(Some(TranslateIpType(Some(key)))) == TranslateIpType(Some(key))
  {
    ReasonLabelsClosed();
    CountrySourceLabelsClosed();
    PlatformLabelsClosed();
    NetworkLabelsClosed();
    IpTypeLabelsClosed();
    TranslateIdempotent(ReasonLabels, "N/A", key);
    TranslateIdempotent(CountrySourceLabels, "Desconhecido", key);
    TranslateIdempotent(PlatformLabels, "Desconhecido", key);
    TranslateIdempotent(NetworkLabels, "Nenhuma", key);
    TranslateIdempotent(IpTypeLabels, "Desconhecido", key);
  }
}
