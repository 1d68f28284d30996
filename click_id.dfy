/**
 * Click-id validator: picks the highest-priority ad-network click parameter
 * of a request, validates it (length, Shannon entropy, referer, suspicious
 * shapes) and keeps the per-(click id, domain) observation table used for
 * reuse detection.
 *
 * External pieces are parameters: `log2` (`Math.log2`, kept abstract),
 * `regexTest` (compiling and running a rule's referer regex; `None` when the
 * pattern does not compile), and the outcome of each store request.
 */
module ClickId {

  import opened Base
  import opened Text

  /** A row of `click_id_validation_rules`; `refererPattern == ""` is `null`. */
  datatype NetworkRule = NetworkRule(
    network: string,
    clickIdParam: string,
    minLength: int,
    maxLength: int,
    minEntropy: real,
    requiresReferer: bool,
    refererPattern: string,
    priority: int)

  /** One `name=value` pair of the query string, in order. */
  datatype QueryParam = QueryParam(name: string, value: string)
  type Params = seq<QueryParam>

  datatype ValidationError =
    | FailedToLoadRules     // failed_to_load_rules
    | NoClickId             // no_click_id
    | ClickIdTooShort       // click_id_too_short
    | ClickIdTooLong        // click_id_too_long
    | LowEntropy            // low_entropy
    | RefererMismatch       // referer_mismatch
    | SuspiciousPattern     // suspicious_pattern
    | ExcessiveRepetition   // excessive_repetition

  datatype ValidationResult = ValidationResult(
    hasClickId: bool,
    network: Option<string>,
    clickId: Option<string>,
    isValid: bool,
    validationErrors: seq<ValidationError>,
    entropy: real,
    timingCoherent: bool,
    refererMatch: bool)

  /** The rule `extractClickId` settles on, with the parameter's value. */
  datatype Extracted = Extracted(network: string, clickId: string, rule: NetworkRule)

  // ---------------------------------------------------------------------
  // Shannon entropy
  // ---------------------------------------------------------------------

  /** p·log2(p) for a character seen `k` times among `n`. */
  function Term(k: nat, n: nat, log2: real -> real): real
    requires n > 0
  {
    var p := k as real / n as real;
    p * log2(p)
  }

  /** Σ Term over a set of distinct characters, in no particular order. */
  ghost function SumTerms(keys: set<char>, m: multiset<char>, n: nat, log2: real -> real): real
    requires n > 0
    decreases keys
  {
    if keys == {} then 0.0
    else
      var c :| c in keys;
      Term(m[c], n, log2) + SumTerms(keys - {c}, m, n, log2)
  }

  /** The distinct characters of `s`: the keys of the frequency table. */
  ghost function DistinctChars(s: string): set<char>
  {
    set c | c in multiset(s)
  }

  /** H(s) = −Σ p(c)·log2 p(c), with p(c) the frequency of c in s. */
  ghost function Entropy(s: string, log2: real -> real): real
  {
    if |s| == 0 then 0.0 else -SumTerms(DistinctChars(s), multiset(s), |s|, log2)
  }

  /** The sum does not depend on which character is taken first. */
  lemma SumTermsRemove(keys: set<char>, c: char, m: multiset<char>, n: nat, log2: real -> real)
    requires n > 0 && c in keys
    ensures SumTerms(keys, m, n, log2) == Term(m[c], n, log2) + SumTerms(keys - {c}, m, n, log2)
    decreases keys
  {
    var d :| d in keys && SumTerms(keys, m, n, log2) == Term(m[d], n, log2) + SumTerms(keys - {d}, m, n, log2);
    if d != c {
      SumTermsRemove(keys - {d}, c, m, n, log2);
      assert keys - {d} - {c} == keys - {c} - {d};
      SumTermsRemove(keys - {c}, d, m, n, log2);
    }
  }

  /** The first loop of `calculateEntropy`: how often each character occurs. */
  method CountFrequencies(s: string) returns (freq: map<char, nat>)
    ensures freq.Keys == DistinctChars(s)
    ensures forall c :: c in freq ==> freq[c] == multiset(s)[c]
  {
    freq := map[];
    var i := 0;
    while i < |s|
      invariant 0 <= i <= |s|
      invariant forall c :: c in freq <==> c in multiset(s[..i])
      invariant forall c :: c in freq ==> freq[c] == multiset(s[..i])[c]
    {
      var c := s[i];
      freq := freq[c := (if c in freq then freq[c] else 0) + 1];
      assert s[..i + 1] == s[..i] + [c];
      i := i + 1;
    }
    assert s[..|s|] == s;
  }

  /** `calculateEntropy`: a frequency table filled in one pass, then summed. */
  method CalculateEntropy(s: string, log2: real -> real) returns (e: real)
    ensures e == Entropy(s, log2)
  {
    var n := |s|;
    if n == 0 {
      return 0.0;
    }
    var freq := CountFrequencies(s);
    var rest := freq.Keys;
    e := 0.0;
    while rest != {}
      invariant rest <= freq.Keys
      invariant e - SumTerms(rest, multiset(s), n, log2) == -SumTerms(freq.Keys, multiset(s), n, log2)
      decreases rest
    {
      var c :| c in rest;
      SumTermsRemove(rest, c, multiset(s), n, log2);
      e := e - Term(freq[c], n, log2);
      rest := rest - {c};
    }
  }

  /** Entropy is a function of the character counts alone. */
  lemma EntropyPermutationInvariant(s: string, t: string, log2: real -> real)
    requires multiset(s) == multiset(t)
    ensures Entropy(s, log2) == Entropy(t, log2)
  {
    assert |s| == |multiset(s)| == |multiset(t)| == |t|;
  }

  lemma MultisetCountBound(s: string, c: char)
    ensures multiset(s)[c] <= |s|
  {
    if s != [] {
      assert s == [s[0]] + s[1..];
      MultisetCountBound(s[1..], c);
    }
  }

  lemma TermNonPositive(k: nat, n: nat, log2: real -> real)
    requires 0 < k <= n
    requires forall p: real :: 0.0 < p <= 1.0 ==> log2(p) <= 0.0
    ensures Term(k, n, log2) <= 0.0
  {
    var p := k as real / n as real;
    assert p * n as real == k as real;
    assert 0.0 < p <= 1.0;
    var l := log2(p);
    assert l <= 0.0;
    assert p * l <= 0.0;
  }

  lemma {:induction false} SumTermsNonPositive(keys: set<char>, s: string, log2: real -> real)
    requires |s| > 0 && keys <= DistinctChars(s)
    requires forall p: real :: 0.0 < p <= 1.0 ==> log2(p) <= 0.0
    ensures SumTerms(keys, multiset(s), |s|, log2) <= 0.0
    decreases keys
  {
    if keys != {} {
      var c :| c in keys;
      SumTermsRemove(keys, c, multiset(s), |s|, log2);
      SumTermsNonPositive(keys - {c}, s, log2);
      MultisetCountBound(s, c);
      TermNonPositive(multiset(s)[c], |s|, log2);
    }
  }

  /** With a logarithm that is non-positive on (0, 1], entropy is never negative. */
  lemma EntropyNonNegative(s: string, log2: real -> real)
    requires forall p: real :: 0.0 < p <= 1.0 ==> log2(p) <= 0.0
    ensures Entropy(s, log2) >= 0.0
  {
    if |s| > 0 {
      SumTermsNonPositive(DistinctChars(s), s, log2);
    }
  }

  // ---------------------------------------------------------------------
  // Choosing the click parameter
  // ---------------------------------------------------------------------

  /** `params.get(name)`: the first value given for `name`; "" when absent. */
  function ParamGet(params: Params, name: string): (v: string)
    ensures v != "" ==> exists i :: 0 <= i < |params| && params[i].name == name && params[i].value == v
  {
    if params == [] then ""
    else if params[0].name == name then params[0].value
    else ParamGet(params[1..], name)
  }

  predicate Present(params: Params, rule: NetworkRule)
  {
    ParamGet(params, rule.clickIdParam) != ""
  }

  /**
   * Rule `j` is the one a stable sort by descending priority followed by a
   * scan for the first present parameter reaches: it is present, no present
   * rule has a higher priority, and no present rule of equal priority comes
   * before it.
   */
  predicate Chosen(params: Params, rules: seq<NetworkRule>, j: int)
  {
    && 0 <= j < |rules|
    && Present(params, rules[j])
    && forall k :: 0 <= k < |rules| && Present(params, rules[k]) ==>
         rules[k].priority < rules[j].priority || (rules[k].priority == rules[j].priority && j <= k)
  }

  /** The rule index the extraction settles on, scanning in input order. */
  function BestIndex(params: Params, rules: seq<NetworkRule>): (r: Option<nat>)
    ensures r.Some? ==> r.value < |rules|
    decreases |rules|
  {
    if rules == [] then None
    else
      var prev := BestIndex(params, rules[..|rules| - 1]);
      var last := |rules| - 1;
      if Present(params, rules[last]) && (prev.None? || rules[last].priority > rules[prev.value].priority)
      then Some(last)
      else prev
  }

  lemma {:induction false} BestIndexIsChosen(params: Params, rules: seq<NetworkRule>)
    ensures BestIndex(params, rules).None? <==> forall k :: 0 <= k < |rules| ==> !Present(params, rules[k])
    ensures BestIndex(params, rules).Some? ==> Chosen(params, rules, BestIndex(params, rules).value)
    decreases |rules|
  {
    if rules != [] {
      var init := rules[..|rules| - 1];
      BestIndexIsChosen(params, init);
      assert forall k :: 0 <= k < |init| ==> init[k] == rules[k];
    }
  }

  function ExtractedAt(params: Params, rules: seq<NetworkRule>, j: nat): Extracted
    requires j < |rules|
  {
    Extracted(rules[j].network, ParamGet(params, rules[j].clickIdParam), rules[j])
  }

  /** `extractClickId` */
  method ExtractClickId(params: Params, rules: seq<NetworkRule>) returns (r: Option<Extracted>)
    ensures r.None? <==> forall k :: 0 <= k < |rules| ==> !Present(params, rules[k])
    ensures r.Some? ==> exists j :: Chosen(params, rules, j) && r.value == ExtractedAt(params, rules, j)
    ensures r.Some? ==> r.value.clickId != ""
    ensures r == (match BestIndex(params, rules) case None => None case Some(j) => Some(ExtractedAt(params, rules, j)))
  {
    var best: Option<nat> := None;
    var i := 0;
    while i < |rules|
      invariant 0 <= i <= |rules|
      invariant best == BestIndex(params, rules[..i])
    {
      assert rules[..i + 1][..i] == rules[..i];
      if Present(params, rules[i]) && (best.None? || rules[i].priority > rules[best.value].priority) {
        best := Some(i);
      }
      i := i + 1;
    }
    assert rules[..|rules|] == rules;
    BestIndexIsChosen(params, rules);
    r := match best case None => None case Some(j) => Some(ExtractedAt(params, rules, j));
  }

  // ---------------------------------------------------------------------
  // Validation
  // ---------------------------------------------------------------------

  /**
   * `validateReferer`: no pattern means nothing to check; a pattern with no
   * referer fails; a pattern that does not compile fails.
   */
  function ValidateReferer(referer: string, pattern: string, regexTest: (string, string) -> Option<bool>): (ok: bool)
    ensures pattern == "" ==> ok
    ensures pattern != "" && referer == "" ==> !ok
    ensures pattern != "" && referer != "" ==> (ok <==> regexTest(pattern, referer) == Some(true))
  {
    if pattern == "" then true
    else if referer == "" then false
    else match regexTest(pattern, referer)
      case None => false
      case Some(b) => b
  }

  /** `/^[a-z]+$/` or `/^[0-9]+$/` */
  predicate AllLowerLetters(s: string) { |s| > 0 && forall i :: 0 <= i < |s| ==> IsLowerAscii(s[i]) }
  predicate AllDigits(s: string) { |s| > 0 && forall i :: 0 <= i < |s| ==> IsDigit(s[i]) }

  /** Characters `.` does not match in a JavaScript regular expression. */
  predicate LineTerminator(c: char)
  {
    c == '\n' || c == '\r' || c == ' ' || c == ' '
  }

  /** Six equal characters (other than a line terminator) starting at `i`. */
  predicate RunOfSixAt(s: string, i: int)
  {
    0 <= i && i + 6 <= |s| && !LineTerminator(s[i]) && forall j :: i <= j < i + 6 ==> s[j] == s[i]
  }

  /** `/(.)\1{5,}/` */
  predicate HasRunOfSix(s: string)
  {
    exists i | 0 <= i <= |s| - 6 :: RunOfSixAt(s, i)
  }

  /** The case-insensitive `Headers.get(name)`; the last key set under that name wins. */
  function HeaderGet(h: Headers, name: string): string
  {
    if h == [] then ""
    else if Lower(h[|h| - 1].key) == name then h[|h| - 1].value
    else HeaderGet(h[..|h| - 1], name)
  }

  /** `headers.get('referer') || headers.get('referrer')`; "" stands for null. */
  function RefererOf(h: Headers): string
  {
    FirstNonEmpty([HeaderGet(h, "referer"), HeaderGet(h, "referrer")])
  }

  /** `if (cond) errors.push(e)` */
  function Append(errors: seq<ValidationError>, cond: bool, e: ValidationError): (r: seq<ValidationError>)
    ensures forall x :: x in r <==> x in errors || (cond && x == e)
  {
    if cond then errors + [e] else errors
  }

  /** The error list for the outcomes of the six checks, appended in the source's order. */
  function ErrorList(tooShort: bool, tooLong: bool, lowEntropy: bool, mismatch: bool,
                     suspicious: bool, repetition: bool): seq<ValidationError>
  {
    var e1 := Append([], tooShort, ClickIdTooShort);
    var e2 := Append(e1, tooLong, ClickIdTooLong);
    var e3 := Append(e2, lowEntropy, LowEntropy);
    var e4 := Append(e3, mismatch, RefererMismatch);
    var e5 := Append(e4, suspicious, SuspiciousPattern);
    Append(e5, repetition, ExcessiveRepetition)
  }

  /** The error list of a present click id. */
  function ClickIdErrors(clickId: string, rule: NetworkRule, entropy: real, refererMatch: bool): seq<ValidationError>
  {
    ErrorList(|clickId| < rule.minLength, |clickId| > rule.maxLength, entropy < rule.minEntropy,
              rule.requiresReferer && !refererMatch, AllLowerLetters(clickId) || AllDigits(clickId),
              HasRunOfSix(clickId))
  }

  const Initial := ValidationResult(false, None, None, false, [], 0.0, true, false)

  /** What `validateClickId` returns; `rules == None` is a failed rule fetch. */
  ghost function Validation(
    params: Params, headers: Headers, rules: Option<seq<NetworkRule>>,
    log2: real -> real, regexTest: (string, string) -> Option<bool>): ValidationResult
  {
    match rules
    case None => Initial.(validationErrors := [FailedToLoadRules])
    case Some(rs) =>
      match BestIndex(params, rs)
      case None => Initial.(validationErrors := [NoClickId])
      case Some(j) =>
        var x := ExtractedAt(params, rs, j);
        var entropy := Entropy(x.clickId, log2);
        var refererMatch := ValidateReferer(RefererOf(headers), x.rule.refererPattern, regexTest);
        var errors := ClickIdErrors(x.clickId, x.rule, entropy, refererMatch);
        ValidationResult(true, Some(x.network), Some(x.clickId), errors == [], errors, entropy, true, refererMatch)
  }

  /** `validateClickId` */
  method ValidateClickId(
    params: Params, headers: Headers, rules: Option<seq<NetworkRule>>,
    log2: real -> real, regexTest: (string, string) -> Option<bool>)
    returns (result: ValidationResult)
    ensures result == Validation(params, headers, rules, log2, regexTest)
  {
    result := Initial;
    if rules.None? {
      result := result.(validationErrors := result.validationErrors + [FailedToLoadRules]);
      return;
    }
    var extracted := ExtractClickId(params, rules.value);
    if extracted.None? {
      result := result.(validationErrors := result.validationErrors + [NoClickId]);
      return;
    }
    var x := extracted.value;
    result := result.(hasClickId := true, network := Some(x.network), clickId := Some(x.clickId));
    var errors: seq<ValidationError> := [];
    errors := Append(errors, |x.clickId| < x.rule.minLength, ClickIdTooShort);
    errors := Append(errors, |x.clickId| > x.rule.maxLength, ClickIdTooLong);
    var entropy := CalculateEntropy(x.clickId, log2);
    errors := Append(errors, entropy < x.rule.minEntropy, LowEntropy);
    var refererMatch := ValidateReferer(RefererOf(headers), x.rule.refererPattern, regexTest);
    errors := Append(errors, x.rule.requiresReferer && !refererMatch, RefererMismatch);
    errors := Append(errors, AllLowerLetters(x.clickId) || AllDigits(x.clickId), SuspiciousPattern);
    errors := Append(errors, HasRunOfSix(x.clickId), ExcessiveRepetition);
    assert errors == ClickIdErrors(x.clickId, x.rule, entropy, refererMatch);
    result := result.(entropy := entropy, refererMatch := refererMatch,
                      validationErrors := errors, isValid := |errors| == 0);
  }

  // ---------------------------------------------------------------------
  // Properties of the validation
  // ---------------------------------------------------------------------

  /** A failed rule fetch and an absent parameter both yield an invalid, click-less result. */
  lemma NoRulesOrNoParam(params: Params, headers: Headers, rules: Option<seq<NetworkRule>>,
                         log2: real -> real, regexTest: (string, string) -> Option<bool>)
    ensures var r := Validation(params, headers, rules, log2, regexTest);
      && (rules.None? ==> !r.hasClickId && !r.isValid && r.validationErrors == [FailedToLoadRules])
      && (rules.Some? && (forall k :: 0 <= k < |rules.value| ==> !Present(params, rules.value[k])) ==>
            !r.hasClickId && !r.isValid && r.validationErrors == [NoClickId])
  {
    if rules.Some? {
      BestIndexIsChosen(params, rules.value);
    }
  }

  /** `isValid` holds exactly when no error was recorded. */
  lemma ValidIffNoErrors(params: Params, headers: Headers, rules: Option<seq<NetworkRule>>,
                         log2: real -> real, regexTest: (string, string) -> Option<bool>)
    ensures var r := Validation(params, headers, rules, log2, regexTest);
      r.isValid <==> r.validationErrors == []
  {
  }

  /** Rank of an error in the order the checks append them. */
  function Rank(e: ValidationError): nat
  {
    match e
    case FailedToLoadRules => 0
    case NoClickId => 1
    case ClickIdTooShort => 2
    case ClickIdTooLong => 3
    case LowEntropy => 4
    case RefererMismatch => 5
    case SuspiciousPattern => 6
    case ExcessiveRepetition => 7
  }

  /** Errors in strictly increasing check order, all before rank `bound`. */
  predicate OrderedBelow(errors: seq<ValidationError>, bound: nat)
  {
    && (forall i, j :: 0 <= i < j < |errors| ==> Rank(errors[i]) < Rank(errors[j]))
    && (forall i :: 0 <= i < |errors| ==> Rank(errors[i]) < bound)
  }

  lemma AppendOrdered(errors: seq<ValidationError>, cond: bool, e: ValidationError)
    requires OrderedBelow(errors, Rank(e))
    ensures OrderedBelow(Append(errors, cond, e), Rank(e) + 1)
  {
  }

  /**
   * Each error appears exactly when its check failed.
   */
  lemma ErrorListCharacterized(tooShort: bool, tooLong: bool, lowEntropy: bool, mismatch: bool,
                               suspicious: bool, repetition: bool)
    ensures var es := ErrorList(tooShort, tooLong, lowEntropy, mismatch, suspicious, repetition);
      && (ClickIdTooShort in es <==> tooShort)
      && (ClickIdTooLong in es <==> tooLong)
      && (LowEntropy in es <==> lowEntropy)
      && (RefererMismatch in es <==> mismatch)
      && (SuspiciousPattern in es <==> suspicious)
      && (ExcessiveRepetition in es <==> repetition)
      && FailedToLoadRules !in es && NoClickId !in es
  {
  }

  /** The list is in the fixed check order, so no error is reported twice. */
  lemma ErrorListOrdered(tooShort: bool, tooLong: bool, lowEntropy: bool, mismatch: bool,
                         suspicious: bool, repetition: bool)
    ensures OrderedBelow(ErrorList(tooShort, tooLong, lowEntropy, mismatch, suspicious, repetition),
                         Rank(ExcessiveRepetition) + 1)
  {
    var e1 := Append([], tooShort, ClickIdTooShort);
    AppendOrdered([], tooShort, ClickIdTooShort);
    var e2 := Append(e1, tooLong, ClickIdTooLong);
    AppendOrdered(e1, tooLong, ClickIdTooLong);
    var e3 := Append(e2, lowEntropy, LowEntropy);
    AppendOrdered(e2, lowEntropy, LowEntropy);
    var e4 := Append(e3, mismatch, RefererMismatch);
    AppendOrdered(e3, mismatch, RefererMismatch);
    var e5 := Append(e4, suspicious, SuspiciousPattern);
    AppendOrdered(e4, suspicious, SuspiciousPattern);
    AppendOrdered(e5, repetition, ExcessiveRepetition);
  }

  /** Too short is reported whatever the entropy; too long likewise. */
  lemma LengthErrorsIgnoreEntropy(params: Params, headers: Headers, rs: seq<NetworkRule>,
                                  log2: real -> real, regexTest: (string, string) -> Option<bool>)
    requires BestIndex(params, rs).Some?
    ensures var r := Validation(params, headers, Some(rs), log2, regexTest);
      var x := ExtractedAt(params, rs, BestIndex(params, rs).value);
      && r.hasClickId && r.clickId == Some(x.clickId)
      && (|x.clickId| < x.rule.minLength ==> ClickIdTooShort in r.validationErrors && !r.isValid)
      && (|x.clickId| > x.rule.maxLength ==> ClickIdTooLong in r.validationErrors && !r.isValid)
      && (RefererMismatch in r.validationErrors ==> x.rule.requiresReferer)
  {
    var x := ExtractedAt(params, rs, BestIndex(params, rs).value);
    var r := Validation(params, headers, Some(rs), log2, regexTest);
    ErrorListCharacterized(|x.clickId| < x.rule.minLength, |x.clickId| > x.rule.maxLength,
                           r.entropy < x.rule.minEntropy, x.rule.requiresReferer && !r.refererMatch,
                           AllLowerLetters(x.clickId) || AllDigits(x.clickId), HasRunOfSix(x.clickId));
  }

  // ---------------------------------------------------------------------
  // The observation table
  // ---------------------------------------------------------------------

  /** The columns `recordClickIdObservation` writes for one sighting. */
  datatype Sighting = Sighting(
    domainId: string, clickId: string, network: string, ip: string,
    userAgent: string, referer: string, isValid: bool,
    errors: seq<ValidationError>, entropy: real)

  /** A row of `click_id_observations`. */
  datatype Observation = Observation(sighting: Sighting, hitCount: nat, firstSeen: int, lastSeen: int)

  /**
   * Hit count of a freshly inserted row. The insert does not write the
   * column; the table's default of 1 is what makes "hit_count > 1" mean
   * "seen before".
   */
  const InitialHitCount: nat := 1

  predicate Matches(o: Observation, clickId: string, domainId: string)
  {
    o.sighting.clickId == clickId && o.sighting.domainId == domainId
  }

  /** Index of the first row for (click id, domain), as the store returns it first. */
  function FindObservation(rows: seq<Observation>, clickId: string, domainId: string): (r: Option<nat>)
    ensures r.Some? ==> r.value < |rows| && Matches(rows[r.value], clickId, domainId)
    ensures r.Some? ==> forall k :: 0 <= k < r.value ==> !Matches(rows[k], clickId, domainId)
    ensures r.None? ==> forall k :: 0 <= k < |rows| ==> !Matches(rows[k], clickId, domainId)
  {
    if rows == [] then None
    else if Matches(rows[0], clickId, domainId) then Some(0)
    else match FindObservation(rows[1..], clickId, domainId)
      case None => None
      case Some(i) => Some(i + 1)
  }

  /**
   * The table after `recordClickIdObservation`: a found row gets one more hit
   * and a fresh `last_seen`; otherwise, including when the lookup failed, a
   * new row is appended. A failed write leaves the table as it was.
   */
  function AfterRecord(rows: seq<Observation>, s: Sighting, now: int, lookupOk: bool, writeOk: bool): seq<Observation>
  {
    var found := FindObservation(rows, s.clickId, s.domainId);
    if !writeOk then rows
    else if lookupOk && found.Some? then
      rows[found.value := rows[found.value].(hitCount := rows[found.value].hitCount + 1, lastSeen := now)]
    else rows + [Observation(s, InitialHitCount, now, now)]
  }

  datatype ReuseCheck = ReuseCheck(isReused: bool, hitCount: nat, firstSeen: Option<int>)

  /** What `checkClickIdReuse` reports for a table. */
  function Reuse(rows: seq<Observation>, clickId: string, domainId: string, lookupOk: bool): (r: ReuseCheck)
    ensures r.isReused <==> lookupOk && exists k :: 0 <= k < |rows| && Matches(rows[k], clickId, domainId)
    ensures !r.isReused ==> r.hitCount == 0 && r.firstSeen == None
  {
    if !lookupOk then ReuseCheck(false, 0, None)
    else match FindObservation(rows, clickId, domainId)
      case None => ReuseCheck(false, 0, None)
      case Some(i) => ReuseCheck(true, rows[i].hitCount, Some(rows[i].firstSeen))
  }

  /** No two rows share a (click id, domain) pair. */
  ghost predicate UniqueKeys(rows: seq<Observation>)
  {
    forall i, j :: 0 <= i < j < |rows| ==>
      !Matches(rows[j], rows[i].sighting.clickId, rows[i].sighting.domainId)
  }

  /** Every row has been hit at least once. */
  ghost predicate HitCountsPositive(rows: seq<Observation>)
  {
    forall i :: 0 <= i < |rows| ==> rows[i].hitCount >= 1
  }

  class ObservationTable {
    var rows: seq<Observation>

    constructor ()
      ensures rows == []
    {
      rows := [];
    }

    /** `recordClickIdObservation` */
    method Record(s: Sighting, now: int, lookupOk: bool, writeOk: bool)
      modifies this
      ensures rows == AfterRecord(old(rows), s, now, lookupOk, writeOk)
    {
      var found := FindObservation(rows, s.clickId, s.domainId);
      if !writeOk {
        return;
      }
      if lookupOk && found.Some? {
        var i := found.value;
        rows := rows[i := rows[i].(hitCount := rows[i].hitCount + 1, lastSeen := now)];
      } else {
        rows := rows + [Observation(s, InitialHitCount, now, now)];
      }
    }

    /** `checkClickIdReuse`: reused iff a row exists, with that row's hit count. */
    method CheckReuse(clickId: string, domainId: string, lookupOk: bool) returns (r: ReuseCheck)
      ensures r == Reuse(rows, clickId, domainId, lookupOk)
      ensures r.isReused ==> exists k :: 0 <= k < |rows| && Matches(rows[k], clickId, domainId) && r.hitCount == rows[k].hitCount
    {
      r := Reuse(rows, clickId, domainId, lookupOk);
    }
  }

  /**
   * With working lookups the table never holds two rows for one pair: a
   * repeated sighting increments the existing row and inserts nothing.
   */
  lemma RecordKeepsKeysUnique(rows: seq<Observation>, s: Sighting, now: int, writeOk: bool)
    requires UniqueKeys(rows)
    ensures UniqueKeys(AfterRecord(rows, s, now, true, writeOk))
    ensures |AfterRecord(rows, s, now, true, writeOk)| <= |rows| + 1
  {
    var found := FindObservation(rows, s.clickId, s.domainId);
    var after := AfterRecord(rows, s, now, true, writeOk);
    if writeOk && found.None? {
      assert after == rows + [Observation(s, InitialHitCount, now, now)];
      forall i, j | 0 <= i < j < |after|
        ensures !Matches(after[j], after[i].sighting.clickId, after[i].sighting.domainId)
      {
        if j == |rows| {
          assert !Matches(rows[i], s.clickId, s.domainId);
        }
      }
    }
  }

  /**
   * A sighting of a pair already in the table adds exactly one hit to its
   * row; a first sighting inserts one row with one hit.
   */
  lemma RecordCountsOneHit(rows: seq<Observation>, s: Sighting, now: int)
    requires UniqueKeys(rows)
    ensures var after := AfterRecord(rows, s, now, true, true);
      var before := Reuse(rows, s.clickId, s.domainId, true);
      var r := Reuse(after, s.clickId, s.domainId, true);
      && r.isReused
      && r.hitCount == (if before.isReused then before.hitCount + 1 else InitialHitCount)
      && |after| == (if before.isReused then |rows| else |rows| + 1)
  {
    var after := AfterRecord(rows, s, now, true, true);
    var found := FindObservation(rows, s.clickId, s.domainId);
    if found.None? {
      assert after == rows + [Observation(s, InitialHitCount, now, now)];
      assert Matches(after[|rows|], s.clickId, s.domainId);
      assert FindObservation(after, s.clickId, s.domainId) == Some(|rows|);
    } else {
      var i := found.value;
      assert Matches(after[i], s.clickId, s.domainId);
      assert FindObservation(after, s.clickId, s.domainId) == Some(i);
    }
  }

  /**
   * Reuse detection after recording: with working lookups and writes the
   * hit count read back exceeds 1 exactly when the pair had been seen before.
   */
  lemma RecordThenReuse(rows: seq<Observation>, s: Sighting, now: int)
    requires UniqueKeys(rows) && HitCountsPositive(rows)
    ensures var r := Reuse(AfterRecord(rows, s, now, true, true), s.clickId, s.domainId, true);
      r.isReused && (r.hitCount > 1 <==> exists k :: 0 <= k < |rows| && Matches(rows[k], s.clickId, s.domainId))
  {
    RecordCountsOneHit(rows, s, now);
    var found := FindObservation(rows, s.clickId, s.domainId);
    if found.Some? {
      assert rows[found.value].hitCount >= 1;
    }
  }
}
