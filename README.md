# Ice Wall traffic classification, modelled in Dafny

Ice Wall sits in front of a paid-traffic landing page. Each visitor is sent
either to the real offer (`real`) or to a harmless "safe" page. This project
models the decision pipeline behind that choice:

- the **detection engine**: an ordered list of gates that stops at the first
  failing one;
- the **click-id validator**: advertising click ids, their entropy, the
  per-network rules, and a table of sightings used to detect reuse;
- the **risk-scoring engine**: platform profiles, coherence, human noise,
  excessive perfection, timing, and the final decision;
- the **contradiction detector**: human and bot signals and their
  likelihoods, softened when a valid Google click id is present;
- the **behavioural observer**: features, the normalised pattern hash, and
  traffic classification;
- the nightly **learning consolidator** over learned patterns, evidence rows
  and learning windows;
- the reference engine of the **test endpoint** and its three scenarios;
- small dashboard helpers: the Portuguese labels, log de-duplication and
  counts, the "time ago" text and per-domain statistics.

The project has one module per source file, plus `Base` (Option, header
lookup, real helpers) and `Text` (ASCII case mapping, substrings, splitting,
decimal digits).

The form of each piece follows the source:

- Pure scoring code is written as functions.
- Code that loops and updates variables becomes methods with loop
  invariants, proved equal to a specification function. This covers the
  entropy loop, the header-order tally, de-duplication and the hourly
  counters.
- Objects updated in place are classes with `modifies` clauses:
  - `ContradictionDetector` holds its signal list.
  - `ObservationTable` holds the click-id sightings.
  - `DetectionEngine` owns an observation table.
  - `PatternStore` holds the pattern upserts.
  - `LearningStore` holds the learned patterns, evidence rows and windows.

Whatever the model cannot see becomes a parameter: database reads and
writes (as success flags or rows), stored procedures, `Math.log2`, regular
expressions given as patterns, SHA-256 and the clock.

Several properties proved here describe what the code does where it
departs from its own comments, or where its behaviour is easy to miss. The
proofs follow the code:

- **A valid Google Ads click is always `real`.** On the weighted path it is
  `real` even when the datacenter or bot flag is set, because its risk is
  capped at 0.35 and the Google branch of `makeDecision` returns `real` at
  or below 0.5 (`RiskScoring.ValidGoogleAdsAlwaysReal`).
- **No non-mobile platform reaches `real` outside Google Ads.** Only the
  mobile profile allows it, so the desktop sub-branch of `makeDecision` can
  never run (`RiskScoring.NonGoogleRealOnlyMobile`).
- **The perfection penalty can fall as the score rises.** Its middle piece
  reaches 0.1 at a score of 0.7, and its top piece restarts from 0 just
  above it, so a score of 0.71 is penalised 0.02
  (`RiskScoring.PenaltyNotMonotoneAtSeventy`).
- **The reuse check counts the current visit.** The click-id layer records
  a sighting before it checks for reuse, so the second sighting of an id
  already fails as reuse (`Detection.SecondSightingIsReuse`).
- **Proxy headers are looked up by their exact upper-case name.** A
  lower-case `x-forwarded-for` chain goes unnoticed
  (`Detection.LowerCaseProxyHeaderMissed`).
- **The datacenter layer reads header values, not the IP address.**
- **Only a failure of a switchable layer classifies as `blocked`.** The
  switchable layers are bot, datacenter, VPN and proxy. A failure of the
  click-id, IP, geography or header-fingerprint layer classifies as
  `suspicious` (`Detection.BlockedIffSwitchableFailure`).
- **Sunday to Thursday count as "weekday".** The observer tests
  `getUTCDay() < 5`.
- **The perfection penalty of the learning pass never fires.** It reads a
  feature vector that learned patterns never carry
  (`Learning.PenaltyNeverFires`).
- **Context diversity is always 1.** Every evidence row stores the
  pattern's own signature as its context
  (`Learning.ContextVariationsAlwaysOne`).
- **When both stability anomalies fire, only the second write counts.**
  Both writes start from the same confidence
  (`Learning.BothAnomaliesSecondWins`).
- **The "last 6 hours" series on the dashboard is hours 18 to 23 of
  today** (`ProtectionConfig.SeriesIsEveningHours`).
- **The test engine checks its Google Ads override before it checks whether
  a click id is present** (`TestEngine.OverrideIgnoresPresence`).

## Model

| member | source | states |
|---|---|---|
| RiskScoring.ProfileTable | supabase/functions/ice-wall-backend/risk-scoring.ts:69-113 | an unrecognised platform uses the `unknown` profile; only the mobile profile allows a direct `real`; base trust and minimum noise bounds |
| RiskScoring.MixedCaseKeys | supabase/functions/ice-wall-backend/risk-scoring.ts:436-465 | the count of mixed-case header keys is between 0 and the number of headers |
| RiskScoring.HeaderCoherence | supabase/functions/ice-wall-backend/risk-scoring.ts:436-465 | header coherence lies in [0.25, 0.8] |
| RiskScoring.BehaviorCoherence | supabase/functions/ice-wall-backend/risk-scoring.ts:467-488 | behaviour coherence lies in [0.5, 0.95] |
| RiskScoring.Coherence | supabase/functions/ice-wall-backend/risk-scoring.ts:391-434 | overall coherence lies in [0, 1] |
| RiskScoring.HumanNoise | supabase/functions/ice-wall-backend/risk-scoring.ts:490-548 | the human-noise score lies in [0, 1] |
| RiskScoring.PerfectionScore | supabase/functions/ice-wall-backend/risk-scoring.ts:550-592 | the perfection score lies in [0, 1] |
| RiskScoring.PerfectionBounded | supabase/functions/ice-wall-backend/risk-scoring.ts:550-607 | the score never exceeds 0.85, so the penalty stays at or below 0.3; the timing-consistency term never changes the score |
| RiskScoring.PenaltyPieces | supabase/functions/ice-wall-backend/risk-scoring.ts:593-600 | the penalty is 0 up to 0.5, 0.5·(s−0.5) up to 0.7, and min(2·(s−0.7), 1) above |
| RiskScoring.PenaltyMonotoneWithinPieces | supabase/functions/ice-wall-backend/risk-scoring.ts:593-600 | within each side of 0.7, a higher score never lowers the penalty |
| RiskScoring.PenaltyNotMonotoneAtSeventy | supabase/functions/ice-wall-backend/risk-scoring.ts:593-600 | a score of 0.7 yields 0.1 and 0.71 yields 0.02, so the penalty is not monotone |
| RiskScoring.TemporalVarianceBands | supabase/functions/ice-wall-backend/risk-scoring.ts:609-632 | temporal variance is one of 0, 0.4, 0.5 and 0.8, each exactly on its band of average gaps |
| RiskScoring.TimingNaturalness | supabase/functions/ice-wall-backend/risk-scoring.ts:634-647 | timing naturalness takes one of five fixed values |
| RiskScoring.NavigationPattern | supabase/functions/ice-wall-backend/risk-scoring.ts:649-660 | the navigation score lies in [0.5, 1] |
| RiskScoring.MakeDecision | supabase/functions/ice-wall-backend/risk-scoring.ts:666-723 | never `human_no_value`; for Google Ads, `real` iff risk ≤ 0.5 and `safe` iff risk > 0.7; otherwise `safe` iff risk > 0.5 (so risk ≤ 0.5 gives `real` or `safe_observe`), and `real` iff risk ≤ 0.3, enough noise, a direct-to-real or mobile profile and no weak desktop signal (noise < 0.2 or coherence < 0.7) |
| RiskScoring.NonGoogleRealOnlyMobile | supabase/functions/ice-wall-backend/risk-scoring.ts:700-722 | off the Google Ads path, `real` iff the platform is mobile, risk ≤ 0.3 and noise ≥ 0.05 |
| RiskScoring.Assess | supabase/functions/ice-wall-backend/risk-scoring.ts:111-389 | no click id: risk 1.0, no economic value, `human_no_value` iff noise > 0.3 and coherence > 0.5, else `safe`; invalid id: risk 0.9 and `safe`; the Google Ads override gives `real`/0.05 with fixed sub-scores; everywhere else the reported coherence, noise, perfection penalty and temporal variance are those of `Coherence`, `HumanNoise`, `PerfectionPenalty` and `TemporalVariance`; `real` only with a valid click id; risk in [0, 1] |
| RiskScoring.WeightedPath | supabase/functions/ice-wall-backend/risk-scoring.ts:283-357 | the final risk is the clamped 0.4/0.6 mix of base risk and context risk over the scoring functions' sub-scores, with the network's weights, desktop hardening added, and the 0.35 cap for Google Ads |
| RiskScoring.ContextRiskNonNegative | supabase/functions/ice-wall-backend/risk-scoring.ts:301-324 | with sub-scores in range, context risk is never negative, for both weight sets |
| RiskScoring.HardenedDesktopNotReal | supabase/functions/ice-wall-backend/risk-scoring.ts:328-337 | when desktop hardening applies, the risk is at least 0.46 and the decision is `safe` or `safe_observe` |
| RiskScoring.ValidGoogleAdsAlwaysReal | supabase/functions/ice-wall-backend/risk-scoring.ts:339-344 | a valid Google Ads click is always `real` with risk ≤ 0.35, even when the datacenter or bot flag is set |
| RiskScoring.SubScoresInUnitInterval | supabase/functions/ice-wall-backend/risk-scoring.ts:284-295 | every sub-score and factor reported by `assess` lies in [0, 1] |
| RiskScoring.DetectPlatformType | supabase/functions/ice-wall-backend/risk-scoring.ts:756-772 | mobile, then tablet, then desktop by the first user-agent family that matches, else `unknown` |
| ClickId.CountFrequencies | supabase/functions/ice-wall-backend/click-id-validator.ts:38-41 | the frequency table holds exactly the characters of the id, each with its number of occurrences |
| ClickId.CalculateEntropy | supabase/functions/ice-wall-backend/click-id-validator.ts:34-50 | the loop computes the Shannon entropy over the distinct characters of the id |
| ClickId.EntropyPermutationInvariant | supabase/functions/ice-wall-backend/click-id-validator.ts:34-50 | two ids with the same multiset of characters have the same entropy |
| ClickId.EntropyNonNegative | supabase/functions/ice-wall-backend/click-id-validator.ts:34-50 | the entropy is never negative |
| ClickId.ParamGet | supabase/functions/ice-wall-backend/click-id-validator.ts:55-70 | a non-empty value read for a parameter is that parameter's value |
| ClickId.BestIndex | supabase/functions/ice-wall-backend/click-id-validator.ts:55-70 | the chosen rule index is a valid index into the rules |
| ClickId.BestIndexIsChosen | supabase/functions/ice-wall-backend/click-id-validator.ts:55-70 | no rule is chosen iff no rule's parameter is present; otherwise the chosen rule has the highest priority among the present ones |
| ClickId.ExtractClickId | supabase/functions/ice-wall-backend/click-id-validator.ts:55-70 | returns the highest-priority rule whose parameter has a non-empty value, or none when there is no such rule |
| ClickId.ValidateReferer | supabase/functions/ice-wall-backend/click-id-validator.ts:75-88 | with no pattern it holds; with a pattern and no referer it fails; otherwise it is the regular-expression test |
| ClickId.Append | supabase/functions/ice-wall-backend/click-id-validator.ts:148-184 | a conditional push adds the error exactly when its condition holds |
| ClickId.ValidateClickId | supabase/functions/ice-wall-backend/click-id-validator.ts:97-190 | the method's result equals the validation specification |
| ClickId.NoRulesOrNoParam | supabase/functions/ice-wall-backend/click-id-validator.ts:125-139 | failing to load the rules gives [`failed_to_load_rules`]; an absent parameter gives [`no_click_id`]; both leave the id absent and invalid |
| ClickId.ValidIffNoErrors | supabase/functions/ice-wall-backend/click-id-validator.ts:186-187 | the id is valid iff the error list is empty |
| ClickId.ErrorListCharacterized | supabase/functions/ice-wall-backend/click-id-validator.ts:148-184 | each of the six errors is present iff its check fails; neither rule-load nor absence errors appear |
| ClickId.AppendOrdered | supabase/functions/ice-wall-backend/click-id-validator.ts:148-184 | appending keeps the errors in their fixed rank order |
| ClickId.ErrorListOrdered | supabase/functions/ice-wall-backend/click-id-validator.ts:148-184 | the errors appear in the order too short, too long, low entropy, referer mismatch, suspicious pattern, repetition |
| ClickId.LengthErrorsIgnoreEntropy | supabase/functions/ice-wall-backend/click-id-validator.ts:148-174 | too short or too long always reports its error and invalidates, whatever the entropy; a referer mismatch needs `requires_referer` |
| ClickId.FindObservation | supabase/functions/ice-wall-backend/click-id-validator.ts:203-223 | finds the first row for the (id, domain) pair, or reports that none exists |
| ClickId.Reuse | supabase/functions/ice-wall-backend/click-id-validator.ts:195-229 | reused iff the lookup succeeds and a row exists for the pair; otherwise the hit count is 0 and there is no first sighting |
| ClickId.ObservationTable.constructor | supabase/functions/ice-wall-backend/click-id-validator.ts:234-304 | the table starts empty |
| ClickId.ObservationTable.Record | supabase/functions/ice-wall-backend/click-id-validator.ts:234-304 | the rows become the specified update-or-insert of the sighting |
| ClickId.ObservationTable.CheckReuse | supabase/functions/ice-wall-backend/click-id-validator.ts:195-229 | the result is the reuse specification, and a reused id reports its row's hit count |
| ClickId.RecordKeepsKeysUnique | supabase/functions/ice-wall-backend/click-id-validator.ts:258-303 | after a successful lookup, recording keeps one row per pair and adds at most one row |
| ClickId.RecordCountsOneHit | supabase/functions/ice-wall-backend/click-id-validator.ts:258-303 | recording raises an existing pair's hit count by one without inserting, or inserts one new row |
| ClickId.RecordThenReuse | supabase/functions/ice-wall-backend/click-id-validator.ts:213-303 | right after recording, the id is reused, with a hit count above 1 iff it had been seen before |
| Contradiction.PlatformSignals | supabase/functions/ice-wall-backend/contradiction.ts:87-139 | every weight the check emits lies in (0, 1] |
| Contradiction.LanguageSignals | supabase/functions/ice-wall-backend/contradiction.ts:141-199 | every weight the check emits lies in (0, 1] |
| Contradiction.OrderTally | supabase/functions/ice-wall-backend/contradiction.ts:209-221 | matched ≤ checked ≤ the number of keys compared |
| Contradiction.OrderCounts | supabase/functions/ice-wall-backend/contradiction.ts:209-221 | the loop compares only the first min(n, 7) keys and equals the tally specification |
| Contradiction.OrderTallyPrefix | supabase/functions/ice-wall-backend/contradiction.ts:212-221 | keys after the compared prefix do not affect the tally |
| Contradiction.OrderSignal | supabase/functions/ice-wall-backend/contradiction.ts:223-243 | a matched share above 0.8 gives exactly the human signal 0.2, below 0.3 exactly the bot signal 0.5, and nothing is emitted iff nothing was checked or the share is in [0.3, 0.8] |
| Contradiction.CasingSignal | supabase/functions/ice-wall-backend/contradiction.ts:245-262 | the casing signal's weight lies in (0, 1] |
| Contradiction.HeaderOrderSignals | supabase/functions/ice-wall-backend/contradiction.ts:201-263 | every weight lies in (0, 1] |
| Contradiction.HeaderOrderShape | supabase/functions/ice-wall-backend/contradiction.ts:201-263 | at most 7 keys are checked; with none checked only the casing signal remains; no headers gives no signal |
| Contradiction.TimingSignals | supabase/functions/ice-wall-backend/contradiction.ts:265-285 | every weight lies in (0, 1] |
| Contradiction.TimingBands | supabase/functions/ice-wall-backend/contradiction.ts:265-285 | latency < 50 gives bot 0.6; 200–2000 gives human 0.15; otherwise nothing, each an iff |
| Contradiction.FingerprintSignals | supabase/functions/ice-wall-backend/contradiction.ts:287-334 | every weight lies in (0, 1] |
| Contradiction.NavigationSignals | supabase/functions/ice-wall-backend/contradiction.ts:336-368 | every weight lies in (0, 1] |
| Contradiction.AcceptSignals | supabase/functions/ice-wall-backend/contradiction.ts:370-406 | every weight lies in (0, 1] |
| Contradiction.RawWeightsInRange | supabase/functions/ice-wall-backend/contradiction.ts:39-45 | all seven checks together emit only weights in (0, 1] |
| Contradiction.Soften | supabase/functions/ice-wall-backend/contradiction.ts:47-62 | softening keeps the list's length |
| Contradiction.SoftenScalesBotsOnly | supabase/functions/ice-wall-backend/contradiction.ts:47-62 | with a valid gclid, each bot weight becomes 0.4× and human signals, kinds and order are unchanged |
| Contradiction.SoftenSums | supabase/functions/ice-wall-backend/contradiction.ts:47-68 | softening keeps the human sum and the bot count and scales the bot sum by 0.4 |
| Contradiction.LikelihoodShares | supabase/functions/ice-wall-backend/contradiction.ts:64-84 | with weight present, the likelihoods are the human and bot shares and add up to 1; with none, both are 0.5 |
| Contradiction.BotsIffBotWeight | supabase/functions/ice-wall-backend/contradiction.ts:65-68 | there is a bot signal iff the bot weight is positive |
| Contradiction.ContradictionVerdict | supabase/functions/ice-wall-backend/contradiction.ts:75-77 | without a gclid, a contradiction iff some bot signal; with one, iff some bot signal and bot likelihood > 0.8 |
| Contradiction.RawSignalsIgnoreGclid | supabase/functions/ice-wall-backend/contradiction.ts:87-406 | no check reads the gclid flag |
| Contradiction.SoftenNeverRaisesBotShare | supabase/functions/ice-wall-backend/contradiction.ts:47-72 | softening never raises the bot likelihood |
| Contradiction.GclidNeverRaisesBotLikelihood | supabase/functions/ice-wall-backend/contradiction.ts:36-85 | for the same context, a valid gclid never raises the bot likelihood |
| Contradiction.ContradictionDetector.constructor | supabase/functions/ice-wall-backend/contradiction.ts:33-34 | a detector starts with no signals |
| Contradiction.ContradictionDetector.CheckPlatformUserAgentCoherence | supabase/functions/ice-wall-backend/contradiction.ts:87-139 | appends the platform signals to the list |
| Contradiction.ContradictionDetector.CheckLanguageGeoCoherence | supabase/functions/ice-wall-backend/contradiction.ts:141-199 | appends the language signals to the list |
| Contradiction.ContradictionDetector.CheckHeaderOrderAnomaly | supabase/functions/ice-wall-backend/contradiction.ts:201-263 | appends the header-order and casing signals |
| Contradiction.ContradictionDetector.CheckTimingAnomaly | supabase/functions/ice-wall-backend/contradiction.ts:265-285 | appends the timing signals |
| Contradiction.ContradictionDetector.CheckBrowserFingerprint | supabase/functions/ice-wall-backend/contradiction.ts:287-334 | appends the fingerprint signals |
| Contradiction.ContradictionDetector.CheckNavigationPattern | supabase/functions/ice-wall-backend/contradiction.ts:336-368 | appends the navigation signals |
| Contradiction.ContradictionDetector.CheckAcceptHeaderCoherence | supabase/functions/ice-wall-backend/contradiction.ts:370-406 | appends the Accept-header signals |
| Contradiction.ContradictionDetector.RunChecks | supabase/functions/ice-wall-backend/contradiction.ts:37-45 | after the reset, the list is the seven checks' signals in order, whatever it held before |
| Contradiction.ContradictionDetector.Analyze | supabase/functions/ice-wall-backend/contradiction.ts:36-85 | the list becomes the softened signals of this context alone, and the result summarises them |
| Contradiction.SignalsToPersist | supabase/functions/ice-wall-backend/contradiction.ts:409-437 | exactly the signals with weight ≥ 0.3 are kept, and nothing is written for an empty list |
| Observer.UtcHour | supabase/functions/ice-wall-backend/observer.ts:73 | the hour lies in 0..23 |
| Observer.UtcDay | supabase/functions/ice-wall-backend/observer.ts:74 | the day lies in 0..6, and the epoch's day is Thursday (4) |
| Observer.NearSlotCount | supabase/functions/ice-wall-backend/observer.ts:92-111 | counts at most the keys examined |
| Observer.OrderEntropy | supabase/functions/ice-wall-backend/observer.ts:92-111 | the order score lies in [0, 1] and is 0 with no headers |
| Observer.HeaderOrderEntropy | supabase/functions/ice-wall-backend/observer.ts:92-111 | the loop computes the order score |
| Observer.ExpectedOrderScoresOne | supabase/functions/ice-wall-backend/observer.ts:92-111 | keys in exactly the standard order score 1 |
| Observer.AllNearSlot | supabase/functions/ice-wall-backend/observer.ts:92-111 | every key in its own standard slot counts as near |
| Observer.UnknownKeysScoreZero | supabase/functions/ice-wall-backend/observer.ts:92-111 | keys outside the standard list score 0 |
| Observer.StandardOrderDistinct | supabase/functions/ice-wall-backend/observer.ts:96-99 | the standard order has no name twice |
| Observer.UpperCasedKeysConsistent | supabase/functions/ice-wall-backend/observer.ts:113-125 | all-upper-case keys are consistent |
| Observer.LowerCasedKeysConsistent | supabase/functions/ice-wall-backend/observer.ts:113-125 | all-lower-case keys are consistent |
| Observer.ConsistencyKeptBySublist | supabase/functions/ice-wall-backend/observer.ts:113-125 | any selection from a consistent key list is consistent |
| Observer.Category | supabase/functions/ice-wall-backend/observer.ts:57-66 | bot when a bot word matches; else mobile; else desktop for a known agent; else unknown; each an iff |
| Observer.FeaturesOf | supabase/functions/ice-wall-backend/observer.ts:35-90 | hour and day are the UTC ones; referer and Accept-Language presence read either spelling of the header; direct access iff no referer; URL depth is the number of non-empty path segments; query presence and count; the bypass is present iff the search holds it and is never valid; the category is the user agent's; case consistency and the order share of the keys; the mobile flag follows the mobile words |
| Observer.RequestFeatures | supabase/functions/ice-wall-backend/observer.ts:44-89 | the feature record carries the given order score |
| Observer.ExtractFeatures | supabase/functions/ice-wall-backend/observer.ts:35-90 | the method computes the feature specification |
| Observer.DepthCountsSegmentStarts | supabase/functions/ice-wall-backend/observer.ts:49 | the URL depth is the number of non-empty path segments |
| Observer.SplitHeadEmpty | supabase/functions/ice-wall-backend/observer.ts:49 | the first segment is empty iff the path is empty or starts with `/` |
| Observer.Normalize | supabase/functions/ice-wall-backend/observer.ts:128-141 | time bucket is the hour divided by 4; weekday iff day < 5; completeness counts the three headers; depth capped at 5; header count divided by 5 and capped at 5 from 25 on; bypass pair, platform and direct-access flag passed through |
| Observer.SameBucketsSameHash | supabase/functions/ice-wall-backend/observer.ts:127-151 | features that agree after normalisation hash the same |
| Observer.SameBlockSameBuckets | supabase/functions/ice-wall-backend/observer.ts:73-74 | two times in the same four-hour block of the same day share hour bucket and weekday |
| Observer.HashStableWithinTimeBucket | supabase/functions/ice-wall-backend/observer.ts:127-151 | the same request within one four-hour block hashes the same |
| Observer.BucketOfHour | supabase/functions/ice-wall-backend/observer.ts:129 | the hour bucket is the number of four-hour blocks modulo 6 |
| Observer.Classify | supabase/functions/ice-wall-backend/observer.ts:153-171 | `legitimate` iff passed; otherwise `blocked` iff some failed layer names bot, datacenter, VPN or proxy, else `suspicious` |
| Observer.PatternStore.constructor | supabase/functions/ice-wall-backend/observer.ts:173-195 | the store starts with no upserts |
| Observer.PatternStore.Observe | supabase/functions/ice-wall-backend/observer.ts:197-221 | one upsert with hash, class and features when parsing and the call succeed; otherwise nothing changes and no error escapes |
| Learning.FeatureScore | supabase/functions/ice-wall-backend/learning.ts:47-71 | the feature terms add up to at most 0.55, and to 0 without a feature vector |
| Learning.SuspicionOf | supabase/functions/ice-wall-backend/learning.ts:78-85 | high at ≥ 0.7, medium at ≥ 0.5, low at ≥ 0.3, none below, each an iff |
| Learning.AnalyzePerfection | supabase/functions/ice-wall-backend/learning.ts:33-93 | the score lies in [0, 1.1]; perfect iff ≥ 0.6; high suspicion implies perfect; without features never perfect |
| Learning.RepeatedSingleContextSuspicious | supabase/functions/ice-wall-backend/learning.ts:41-76 | more than ten sightings in one context give a score ≥ 0.55 and at least medium suspicion |
| Learning.NoFeaturesNeverPerfect | supabase/functions/ice-wall-backend/learning.ts:33-93 | without a feature vector a pattern is never perfect or highly suspicious |
| Learning.FindLearned | supabase/functions/ice-wall-backend/learning.ts:268-272 | finds a learned pattern with the signature, or reports there is none |
| Learning.MergedStage | supabase/functions/ice-wall-backend/learning.ts:274-279 | `suspicious_perfect` iff high suspicion; else `established` iff the old count ≥ 5; else `emerging` |
| Learning.Merge | supabase/functions/ice-wall-backend/learning.ts:274-311 | counts add up, decay resets to 1 and the stage follows the merge rule |
| Learning.Founded | supabase/functions/ice-wall-backend/learning.ts:313-351 | a new pattern has the raw count, one context, no feature vector and stage `emerging` or `suspicious_perfect` |
| Learning.MergeCanDemoteSuspicious | supabase/functions/ice-wall-backend/learning.ts:274-279 | a merge can move a pattern out of `suspicious_perfect` |
| Learning.ConsolidateRow | supabase/functions/ice-wall-backend/learning.ts:250-351 | discarded iff fewer than 3 occurrences; only a merge or insert changes the tables and adds one evidence row |
| Learning.ConsolidateRows | supabase/functions/ice-wall-backend/learning.ts:250-355 | every row counts as processed; consolidated + discarded ≤ processed |
| Learning.DiscardedAreNoise | supabase/functions/ice-wall-backend/learning.ts:250-256 | the discarded count is the number of rows below the floor |
| Learning.ConsolidateRowKeepsInvariants | supabase/functions/ice-wall-backend/learning.ts:268-351 | one turn keeps signatures unique and evidence consistent, and never removes a pattern |
| Learning.ConsolidationKeepsInvariants | supabase/functions/ice-wall-backend/learning.ts:250-355 | consolidation keeps signatures unique and evidence consistent |
| Learning.NoFeatureVectorsKept | supabase/functions/ice-wall-backend/learning.ts:313-351 | consolidation never gives a learned pattern a feature vector |
| Learning.DiversityRow | supabase/functions/ice-wall-backend/learning.ts:371-387 | only the context count changes, and only for a non-fading pattern with evidence |
| Learning.DiversityAll | supabase/functions/ice-wall-backend/learning.ts:358-388 | one result per pattern |
| Learning.ContextVariationsAlwaysOne | supabase/functions/ice-wall-backend/learning.ts:371-387 | with consistent evidence, every recounted pattern has exactly one context |
| Learning.ConsolidationThenRecountGivesOne | supabase/functions/ice-wall-backend/learning.ts:300-387 | after a consolidation, the recount gives every pattern with evidence one context |
| Learning.PenalizeRow | supabase/functions/ice-wall-backend/learning.ts:104-154 | a row that is not a perfect candidate is unchanged; a perfect candidate's confidence becomes max(c − 0.5·score, 0.1) and its stored perfection score is the analysis score; its stage becomes `suspicious_perfect` iff suspicion is high, and nothing else changes |
| Learning.PenalizeAll | supabase/functions/ice-wall-backend/learning.ts:95-158 | one result per pattern |
| Learning.PenaltyCounts | supabase/functions/ice-wall-backend/learning.ts:95-158 | penalised ≤ flagged ≤ examined |
| Learning.PenaltyNeverFires | supabase/functions/ice-wall-backend/learning.ts:95-158 | without feature vectors, the pass changes nothing and counts nothing |
| Learning.StabilityRow | supabase/functions/ice-wall-backend/learning.ts:168-222 | an established candidate (≥ 10 occurrences, positive time span) counts one anomaly for > 10 occurrences per hour and one for a context ratio < 0.05 over > 20 occurrences; a low-variation anomaly leaves confidence max(c·0.6, 0.1), a high-frequency one alone max(c·0.7, 0.1); no anomaly leaves the pattern unchanged; only confidence ever changes |
| Learning.StabilityAll | supabase/functions/ice-wall-backend/learning.ts:160-226 | one result per pattern |
| Learning.BothAnomaliesSecondWins | supabase/functions/ice-wall-backend/learning.ts:168-222 | when both anomalies fire, the confidence is the low-variation result alone |
| Learning.StabilityNeverRaises | supabase/functions/ice-wall-backend/learning.ts:168-222 | the pass never raises a confidence of at least 0.1 |
| Learning.Adjusted | supabase/functions/ice-wall-backend/learning.ts:413-419 | a stored perfection score above 0.6 scales the confidence by 1 − 0.3·score; any other stored value leaves it unchanged |
| Learning.RecalculateRow | supabase/functions/ice-wall-backend/learning.ts:403-435 | a null result leaves the row; otherwise confidence becomes the discounted value `Adjusted`, the stage becomes or stays `established` iff it was, or the adjusted confidence is ≥ 0.6 with count ≥ 5 and the stage is not `suspicious_perfect`; nothing else changes |
| Learning.RecalculateAll | supabase/functions/ice-wall-backend/learning.ts:390-437 | one result per pattern |
| Learning.SuspiciousPerfectSticky | supabase/functions/ice-wall-backend/learning.ts:403-435 | recalculation never moves a pattern out of `suspicious_perfect` |
| Learning.DiscountBounds | supabase/functions/ice-wall-backend/learning.ts:414-419 | the perfection discount keeps between 67% and 82% of the confidence |
| Learning.LearningStore.constructor | supabase/functions/ice-wall-backend/learning.ts:228-553 | the tables start empty |
| Learning.LearningStore.ConsolidateOne | supabase/functions/ice-wall-backend/learning.ts:250-351 | one turn updates the tables as specified and leaves the windows |
| Learning.LearningStore.ConsolidatePatterns | supabase/functions/ice-wall-backend/learning.ts:228-356 | a failed fetch changes nothing and counts zero; otherwise the tables and counts follow the specification |
| Learning.LearningStore.AnalyzeContextDiversity | supabase/functions/ice-wall-backend/learning.ts:358-388 | the recount is applied to the learned patterns only |
| Learning.LearningStore.PenalizePerfectPatterns | supabase/functions/ice-wall-backend/learning.ts:95-158 | the penalty pass and its counts; zero counts when the read fails |
| Learning.LearningStore.DetectStabilityAnomalies | supabase/functions/ice-wall-backend/learning.ts:160-226 | the stability pass and its anomaly count |
| Learning.LearningStore.RecalculateConfidenceScores | supabase/functions/ice-wall-backend/learning.ts:390-437 | the recalculation is applied to the learned patterns only |
| Learning.LearningStore.RunLearningConsolidation | supabase/functions/ice-wall-backend/learning.ts:439-553 | success iff the window is created and all passes run; one window appended, finalized with the counts, else left collecting or processing; failure gives zero stats; on success the tables are consolidation followed by `LaterPasses`, and the consolidated, flagged, penalised and anomaly counts are those of the passes |
| Learning.LaterPasses | supabase/functions/ice-wall-backend/learning.ts:498-512 | the passes after consolidation, composed in the source's order; when the penalty read fails nothing is flagged or penalised, and when the stability read fails no anomaly is counted |
| Learning.LearningStore.RunLaterPasses | supabase/functions/ice-wall-backend/learning.ts:498-512 | finishes iff all five passes ran; then the patterns and counters are those of `LaterPasses`; evidence and windows are unchanged |
| Detection.CheckIp | supabase/functions/ice-wall-backend/detection.ts:189-225 | passes iff the IP is known, not localhost and not under a private prefix |
| Detection.PrivateRangeBoundaries | supabase/functions/ice-wall-backend/detection.ts:207-219 | 172.16 and 172.31 fail, 10.x and 192.168 fail, 172.15 and 172.32 pass |
| Detection.CheckGeo | supabase/functions/ice-wall-backend/detection.ts:363-398 | passes iff the country is known, in a non-empty allow list if any, and not denied; a denial reason implies the allow-list check passed |
| Detection.NoListsAllowAllKnown | supabase/functions/ice-wall-backend/detection.ts:363-398 | with no lists, every known country passes |
| Detection.JoinValues | supabase/functions/ice-wall-backend/detection.ts:267 | no headers join to the empty string |
| Detection.CheckBots | supabase/functions/ice-wall-backend/detection.ts:227-254 | passes iff the toggle is off or no bot pattern occurs in the lower-cased agent |
| Detection.CheckDatacenter | supabase/functions/ice-wall-backend/detection.ts:256-280 | passes iff the toggle is off or no hosting name occurs in the joined header values |
| Detection.CheckVpn | supabase/functions/ice-wall-backend/detection.ts:282-305 | passes iff the toggle is off or no VPN word occurs in the agent and header values |
| Detection.CheckProxy | supabase/functions/ice-wall-backend/detection.ts:307-330 | passes iff the toggle is off or no listed header holds a comma-separated chain |
| Detection.LowerCaseProxyHeaderMissed | supabase/functions/ice-wall-backend/detection.ts:317-327 | a chain under a lower-case `x-forwarded-for` key passes |
| Detection.CheckFingerprint | supabase/functions/ice-wall-backend/detection.ts:332-361 | passes iff the agent it reads is known and not a scripted client |
| Detection.ClickIdVerdict | supabase/functions/ice-wall-backend/detection.ts:120-186 | passes iff there is a valid click id that has not been seen more than once |
| Detection.ReuseOverridesValidity | supabase/functions/ice-wall-backend/detection.ts:120-144 | a hit count above 1 fails as reuse, whatever the validation said |
| Detection.SecondSightingIsReuse | supabase/functions/ice-wall-backend/detection.ts:108-144 | because the sighting is recorded before the lookup, an id seen before fails as reuse |
| Detection.Layers | supabase/functions/ice-wall-backend/detection.ts:46-80 | the report starts with the click-id result |
| Detection.LayersOf | supabase/functions/ice-wall-backend/detection.ts:46-80 | lists the layer of each result |
| Detection.ReportShape | supabase/functions/ice-wall-backend/detection.ts:51-79 | a click-id failure stops at once; an IP failure gives [click-id, ip]; a geo failure stops after geo; otherwise the seven layers in order; a passing IP is never reported |
| Detection.TogglesOffPass | supabase/functions/ice-wall-backend/detection.ts:227-330 | with the four toggles off, the switchable layers all pass |
| Detection.FailedLayers | supabase/functions/ice-wall-backend/detection.ts:400-409 | empty iff every layer passed |
| Detection.Names | supabase/functions/ice-wall-backend/detection.ts:400-409 | one display name per layer |
| Detection.FailedLayersAreFailures | supabase/functions/ice-wall-backend/detection.ts:400-409 | every listed layer is one that failed |
| Detection.FailedLayersInOrder | supabase/functions/ice-wall-backend/detection.ts:400-409 | the failed layers keep input order |
| Detection.GetAllResults | supabase/functions/ice-wall-backend/detection.ts:400-409 | passed iff no result failed; the results are returned unchanged |
| Detection.EarlyStopOneFailure | supabase/functions/ice-wall-backend/detection.ts:51-70 | an early stop reports exactly the last layer as failed |
| Detection.DetectionEngine.constructor | supabase/functions/ice-wall-backend/detection.ts:38-44 | the engine keeps its configuration and observation table |
| Detection.DetectionEngine.CheckClickId | supabase/functions/ice-wall-backend/detection.ts:94-187 | the verdict and the new observation rows follow the click-id layer's specification |
| Detection.DetectionEngine.Validate | supabase/functions/ice-wall-backend/detection.ts:46-80 | the report is the layer sequence for the click-id verdict, and the table holds that layer's records |
| Detection.SwitchableNamesCritical | supabase/functions/ice-wall-backend/detection.ts:227-330 | the bot, datacenter, VPN and proxy layer names count as critical |
| Detection.ClickIdNameNotCritical | supabase/functions/ice-wall-backend/detection.ts:94-187 | the click-id layer's name is not critical |
| Detection.IpNameNotCritical | supabase/functions/ice-wall-backend/detection.ts:189-225 | the IP layer's name is not critical |
| Detection.GeoNameNotCritical | supabase/functions/ice-wall-backend/detection.ts:363-398 | the geography layer's name is not critical |
| Detection.FingerprintNameNotCritical | supabase/functions/ice-wall-backend/detection.ts:332-361 | the fingerprint layer's name is not critical |
| Detection.CriticalIffSwitchable | supabase/functions/ice-wall-backend/detection.ts:400-409 | a layer name is critical iff the layer is switchable |
| Detection.SwitchableFailureBlocks | supabase/functions/ice-wall-backend/detection.ts:400-409 | a failed switchable layer classifies the request as `blocked` |
| Detection.BlockedOnlyOnSwitchableFailure | supabase/functions/ice-wall-backend/detection.ts:400-409 | a `blocked` request has a failed switchable layer |
| Detection.BlockedIffSwitchableFailure | supabase/functions/ice-wall-backend/detection.ts:400-409 | classified `blocked` iff some switchable layer failed |
| TestEngine.Assess | supabase/functions/ice-wall-test/index.ts:10-69 | `real` iff valid Google Ads with no flag, at 0.05; otherwise 1.0 without a click id, 0.9 with a flag, else 0.6 |
| TestEngine.OverrideIgnoresPresence | supabase/functions/ice-wall-test/index.ts:22-53 | the override is checked before presence: a valid Google Ads record without a click id is still `real` |
| TestEngine.FlagsForceSafe | supabase/functions/ice-wall-test/index.ts:55-62 | a datacenter or bot flag always gives `safe`, at 0.9 with a click id and 1.0 without |
| TestEngine.RunScenario | supabase/functions/ice-wall-test/index.ts:164-184 | a scenario passes iff the decision matches its expectation |
| TestEngine.RunAll | supabase/functions/ice-wall-test/index.ts:164-184 | one outcome per scenario, in order |
| TestEngine.BuiltInScenariosPass | supabase/functions/ice-wall-test/index.ts:83-184 | the three built-in scenarios all pass, with risks 0.05, 1.0 and 0.9 |
| Translations.Lookup | src/lib/translations.ts:41 | none iff no entry has the key; otherwise the label of an entry with that key |
| Translations.Translate | src/lib/translations.ts:3-42 | a falsy key gives the default; a known key with a label gives the label; anything else is returned unchanged |
| Translations.TranslateIdempotent | src/lib/translations.ts:3-42 | on a closed table, translating twice is translating once |
| Translations.CapitalLabelsClosed | src/lib/translations.ts:6-39 | keys in lower case and labels starting with a capital make a closed table |
| Translations.TranslateReason | src/lib/translations.ts:3-42 | falsy gives `N/A`, every key of the reason table gets its label, unknown ones pass through |
| Translations.TranslateDecision | src/lib/translations.ts:44-46 | `Negado` iff the safe page was served, `Permitido` iff not |
| Translations.TranslateCountrySource | src/lib/translations.ts:48-61 | falsy gives `Desconhecido`; every key of its table gets its label; unknown sources pass through |
| Translations.TranslatePlatform | src/lib/translations.ts:63-76 | falsy gives `Desconhecido`; every key of its table gets its label; unknown platforms pass through |
| Translations.TranslateNetwork | src/lib/translations.ts:78-91 | falsy gives `Nenhuma`; every key of its table gets its label; unknown networks pass through |
| Translations.TranslateIpType | src/lib/translations.ts:93-103 | falsy gives `Desconhecido`; every key of its table gets its label; unknown types pass through |
| Translations.ReasonLabelsClosed | src/lib/translations.ts:6-39 | no reason label is another reason key |
| Translations.CountrySourceLabelsClosed | src/lib/translations.ts:51-58 | labels that are also keys map to themselves |
| Translations.PlatformLabelsClosed | src/lib/translations.ts:66-73 | no platform label is another platform key |
| Translations.NetworkLabelsClosed | src/lib/translations.ts:81-88 | no network label is another network key |
| Translations.IpTypeLabelsClosed | src/lib/translations.ts:96-100 | the IP-type labels map to themselves or are not keys |
| Translations.TranslationsIdempotent | src/lib/translations.ts:3-103 | each of the five lookups is idempotent on non-empty strings |
| SecurityLogs.Get | src/components/SecurityLogs.tsx:51 | none iff the key has no slot |
| SecurityLogs.Seen | src/components/SecurityLogs.tsx:46-60 | the map never has more entries than there are logs |
| SecurityLogs.Deduplicate | src/components/SecurityLogs.tsx:46-60 | the loop returns the values of the specified map, no more than the input |
| SecurityLogs.InsertEffect | src/components/SecurityLogs.tsx:50-56 | one turn keeps keys unique; a new key is appended; an existing one is overwritten only by a log without a request id |
| SecurityLogs.SeenKeys | src/components/SecurityLogs.tsx:46-60 | one slot per distinct key of the input, none twice, in order of first occurrence |
| SecurityLogs.FirstRequestIdKept | src/components/SecurityLogs.tsx:50-53 | for request-id keys, the first log with that key is kept |
| SecurityLogs.LastIdKeyedWins | src/components/SecurityLogs.tsx:54-56 | for logs without a request id, the last one with that id wins |
| SecurityLogs.SeenFromInput | src/components/SecurityLogs.tsx:46-60 | every output log is an input log stored under its own key |
| SecurityLogs.StatsOf | src/components/SecurityLogs.tsx:72-76 | the total is the log count and neither count exceeds it |
| SecurityLogs.StatsAddUp | src/components/SecurityLogs.tsx:72-76 | total = allowed + denied |
| ProtectionConfig.AgoOf | src/components/ProtectionConfig.tsx:114-127 | no date iff no activity; each band is an iff on the elapsed time; each count is the floor of the elapsed time in its unit |
| ProtectionConfig.GetTimeAgo | src/components/ProtectionConfig.tsx:114-127 | `Sem atividade` iff no date; `agora` iff under a minute |
| ProtectionConfig.TimeAgoReadsBack | src/components/ProtectionConfig.tsx:123-126 | the text is `há`, then decimal digits whose value is the floored elapsed time in its unit, then the unit |
| ProtectionConfig.TrafficLevelOf | src/components/ProtectionConfig.tsx:88-90 | high iff > 100, medium iff 21–100, low iff ≤ 20 |
| ProtectionConfig.LocalHour | src/components/ProtectionConfig.tsx:82 | the local hour lies in 0..23 |
| ProtectionConfig.Buckets | src/components/ProtectionConfig.tsx:80-84 | there are 24 counters |
| ProtectionConfig.BucketsCountEveryLog | src/components/ProtectionConfig.tsx:80-84 | the counters add up to the number of logs |
| ProtectionConfig.BucketsSumFrom | src/components/ProtectionConfig.tsx:80-84 | the counters from hour h on count the logs from hour h on |
| ProtectionConfig.BucketCountsItsHour | src/components/ProtectionConfig.tsx:80-84 | counter h holds the number of logs whose local hour is h |
| ProtectionConfig.HourlyActivity | src/components/ProtectionConfig.tsx:80-84 | the loop fills a fresh 24-slot array with the specified counters |
| ProtectionConfig.StatFor | src/components/ProtectionConfig.tsx:70-105 | a failed fetch gives the zero record; the count is today's logs; last activity is the newest log, if any; the series is counters 18 to 23 of today's logs; level from the count |
| ProtectionConfig.SeriesIsEveningHours | src/components/ProtectionConfig.tsx:86 | the series counts today's logs from hours 18 to 23, at most all of today's |
| ProtectionConfig.SeriesSlotsAreHours | src/components/ProtectionConfig.tsx:80-86 | slot k of the kept series counts today's logs of local hour 18 + k |
| ProtectionConfig.DomainStats | src/components/ProtectionConfig.tsx:70-106 | the method computes the per-domain record |
| ProtectionConfig.LoadDomainStats | src/components/ProtectionConfig.tsx:64-112 | one entry per domain, each the record for its own fetch |

## Left out

- Network and database I/O: the Supabase client, REST calls and the HTTP
  routing of both edge functions. Their outcomes appear as parameters
  (fetched rows, success flags).
- The stored procedures are abstract function parameters, and their
  bodies are not part of this model:
  - `compute_pattern_confidence`
  - `execute_pattern_decay`
  - `upsert_behavioral_pattern`
- SHA-256 in the pattern hash is an abstract digest. The model proves that
  equal normalised records give equal hashes, not that different ones
  differ.
- `generateContextHash` (supabase/functions/ice-wall-backend/learning.ts:20-31)
  is never called, so it is not modelled.
- `getLearningInsights` and `saveRiskAssessment` are read-only reporting and
  persistence, so they are not modelled.
- Regular expressions:
  - A network rule's referer pattern is matched by a parameter.
  - The user-agent and header regular expressions are literal alternations
    and are modelled as substring tests.
- `Math.log2` is a parameter. Entropy non-negativity assumes only that it
  is non-positive on (0, 1].
- Floating point: weights, scores and thresholds are exact reals. A sum that
  lands exactly on a threshold may round differently in IEEE doubles.
- Case mapping is ASCII only. JavaScript's Unicode case mapping of other
  letters is not modelled.
- ClickId.ValidateClickId and ClickId.CalculateEntropy count a string's
  characters as Unicode scalar values. JavaScript's `.length` and `str[i]`
  count UTF-16 code units. So for an id containing a character outside the
  Basic Multilingual Plane, the model's length check and entropy differ
  from the source's: such a character is one element here and a surrogate
  pair in JavaScript.
- URL parsing is a parameter. A URL that does not parse is the observer's
  error path.
- Reasoning and indicator strings, detail texts and console output are not
  modelled.
- Database defaults that the code does not show are fixed as follows:
  - a new observation row has a hit count of 1;
  - a new learned pattern has no feature vector.
- Learning.Founded fixes the columns the insert leaves to the table's
  defaults: confidence absent (read as 0, so `|| 0.5` applies), decay 1.0
  and persistence 0 hours.
- Learning.DiversityRow and Learning.LearningStore.AnalyzeContextDiversity
  always read a pattern's evidence rows. In the source, a failed evidence
  read for one pattern skips that pattern's update; the model has only one
  success flag, for the read of the patterns as a whole.
- The clock, the local time zone offset and the start of the day are
  parameters. Daylight-saving changes within a day are not modelled.
- Header maps are ordered lists of pairs. A key that appears twice is
  resolved as each lookup in the source would, and the de-duplication done
  by `Headers` objects is not modelled.
- Translation tables hold only the listed keys. Inherited JavaScript object
  properties such as `constructor` are not modelled.
- Configuration fields that no modelled check reads (rate limits, crawler
  flags and `requestCounts`) are not modelled.
- Exceptions in `runLearningConsolidation` are modelled by the number of
  passes completed before the failure.
- React state, the periodic refresh, `formatDate` and rendering are not
  modelled.
- Learning.ConsolidateRow and Learning.LearningStore.RunLearningConsolidation
  assume that several database reads and writes succeed:
  - The `maybeSingle` lookup of an existing pattern is taken to succeed.
    In the source, a lookup error or two rows with the same signature leave
    `existing` null, and the row then takes the insert path. The model's
    lookup never misses, and the unique-signature invariant relies on that.
  - The evidence inserts are taken to succeed. The source does not check
    them and counts the row as consolidated either way; the model always
    appends the evidence row.
  - The window-status updates to `processing` and `finalized` are taken to
    succeed. The source does not check them and can report success while
    the window is left unfinalized.
  - The two writes of the penalty pass and the writes of the stability and
    recalculation passes are likewise taken to succeed.
