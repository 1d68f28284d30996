/**
 * The learning consolidator (supabase/functions/ice-wall-backend/learning.ts):
 * a nightly batch over three tables. Raw behavioural patterns of the last day
 * are merged into learned patterns with a stage label, each merge leaves an
 * evidence row, the number of distinct contexts is recounted, "perfect"
 * and unstable patterns are penalised, confidence is recomputed, and a
 * learning-window row records the run.
 *
 * Table rows are records; a learned pattern's id is its index in `learned`
 * and a window's id its index in `windows`. The query that picks the raw rows
 * (last 24 hours, by descending count) is the caller's `raw` list. The
 * stored procedures `compute_pattern_confidence` and `execute_pattern_decay`
 * are parameters, and so are the outcomes of the writes the code checks.
 * Integer columns that the code reads through `|| default` use 0 for null,
 * as JavaScript does.
 */
module Learning {

  import opened Base

  datatype Stage = Emerging | Established | Fading | SuspiciousPerfect

  datatype Suspicion = NoSuspicion | LowSuspicion | MediumSuspicion | HighSuspicion

  /** The parts of a raw pattern's `feature_vector` the perfection analysis reads. */
  datatype FeatureVector = FeatureVector(
    headerOrderEntropy: Option<real>,
    headerCaseConsistency: bool,
    hasUserAgent: bool,
    hasReferer: bool,
    hasAcceptLanguage: bool,
    isDirectAccess: bool,
    urlDepth: int)

  /** A row of `behavioral_patterns`; times are milliseconds. */
  datatype RawPattern = RawPattern(
    id: string,
    patternHash: string,
    classification: string,
    features: Option<FeatureVector>,
    occurrenceCount: int,
    firstSeen: int,
    lastSeen: int)

  /**
   * A row of `learned_patterns`. `confidence` 0 stands for null (the code
   * reads it as `confidence_score || 0.5`), `perfection` is the score kept
   * under `behavior_profile.perfection_analysis`, if any, and
   * `featureVector` is what the penalty pass reads as `feature_vector`: a
   * field no code here ever writes on a learned pattern.
   */
  datatype LearnedPattern = LearnedPattern(
    signatureHash: string,
    patternClass: string,
    occurrenceCount: int,
    contextVariations: int,
    confidence: real,
    stage: Stage,
    decay: real,
    perfection: Option<real>,
    persistenceHours: real,
    featureVector: Option<FeatureVector>,
    firstSeen: int,
    lastSeen: int)

  /** A row of `pattern_consolidation`: one piece of evidence for a learned pattern. */
  datatype Evidence = Evidence(learnedId: nat, observationRef: string, contextHash: string, windowId: nat, capturedAt: int)

  datatype WindowStatus = Collecting | Processing | Finalized

  /** A row of `learning_windows`. */
  datatype Window = Window(status: WindowStatus, processed: nat, discovered: nat, discarded: nat)

  // ---------------------------------------------------------------------
  // Perfection analysis
  // ---------------------------------------------------------------------

  datatype Perfection = Perfection(isPerfect: bool, score: real, suspicion: Suspicion)

  function Term(holds: bool, weight: real): real { if holds then weight else 0.0 }

  /** The part of the perfection score read from a feature vector. */
  function FeatureScore(fv: Option<FeatureVector>): (s: real)
    ensures 0.0 <= s <= 0.55
    ensures fv.None? ==> s == 0.0
  {
    match fv
    case None => 0.0
    case Some(f) =>
      Term(f.headerOrderEntropy.Some? && f.headerOrderEntropy.value > 0.9, 0.2)
      + Term(f.headerCaseConsistency, 0.1)
      + Term(f.hasUserAgent && f.hasReferer && f.hasAcceptLanguage, 0.15)
      + Term(f.isDirectAccess && f.urlDepth == 0, 0.1)
  }

  function SuspicionOf(score: real): (l: Suspicion)
    ensures l == HighSuspicion <==> score >= 0.7
    ensures l == MediumSuspicion <==> 0.5 <= score < 0.7
    ensures l == LowSuspicion <==> 0.3 <= score < 0.5
    ensures l == NoSuspicion <==> score < 0.3
  {
    if score >= 0.7 then HighSuspicion
    else if score >= 0.5 then MediumSuspicion
    else if score >= 0.3 then LowSuspicion
    else NoSuspicion
  }

  /** `analyzePatternPerfection` (the indicator texts are not modelled). */
  function AnalyzePerfection(fv: Option<FeatureVector>, occurrences: int, contexts: int): (a: Perfection)
    ensures 0.0 <= a.score <= 1.1
    ensures a.isPerfect <==> a.score >= 0.6
    ensures a.suspicion == SuspicionOf(a.score)
    ensures a.suspicion == HighSuspicion ==> a.isPerfect
    ensures fv.None? ==> a.score <= 0.55 && !a.isPerfect
    ensures a.score >= 0.3 ==> fv.Some? || occurrences as real > 10.0 * MaxI(contexts, 1) as real || (contexts <= 1 && occurrences > 5)
  {
    var ratio := occurrences as real / MaxI(contexts, 1) as real;
    var score := Term(ratio > 10.0, 0.3) + FeatureScore(fv) + Term(contexts <= 1 && occurrences > 5, 0.25);
    RatioAbove(occurrences as real, MaxI(contexts, 1) as real);
    Perfection(score >= 0.6, score, SuspicionOf(score))
  }

  /** For a positive divisor, a ratio above 10 is a numerator above ten divisors. */
  lemma RatioAbove(x: real, m: real)
    requires m > 0.0
    ensures x / m > 10.0 <==> x > 10.0 * m
  {
    var r := x / m;
    assert r * m == x;
    if r > 10.0 {
      assert r * m > 10.0 * m;
    } else {
      assert r * m <= 10.0 * m;
    }
  }

  /** A pattern seen more than ten times in a single context is at least "low" suspicious, whatever its features. */
  lemma RepeatedSingleContextSuspicious(fv: Option<FeatureVector>, occurrences: int)
    requires occurrences > 10
    ensures AnalyzePerfection(fv, occurrences, 1).score >= 0.55
    ensures AnalyzePerfection(fv, occurrences, 1).suspicion != NoSuspicion
    ensures AnalyzePerfection(fv, occurrences, 1).suspicion != LowSuspicion
  {
  }

  /** Without a feature vector no pattern is ever perfect, however often it recurs. */
  lemma NoFeaturesNeverPerfect(occurrences: int, contexts: int)
    ensures !AnalyzePerfection(None, occurrences, contexts).isPerfect
    ensures AnalyzePerfection(None, occurrences, contexts).suspicion != HighSuspicion
  {
  }

  // ---------------------------------------------------------------------
  // Consolidation
  // ---------------------------------------------------------------------

  datatype Tables = Tables(learned: seq<LearnedPattern>, evidence: seq<Evidence>)

  datatype Outcome = Discarded | Merged | WriteFailed

  datatype Counts = Counts(processed: nat, consolidated: nat, discarded: nat)

  /** The row `.eq('signature_hash', h).maybeSingle()` finds: the first one with that hash. */
  function FindLearned(ls: seq<LearnedPattern>, h: string): (r: Option<nat>)
    ensures r.None? <==> forall i :: 0 <= i < |ls| ==> ls[i].signatureHash != h
    ensures r.Some? ==> r.value < |ls| && ls[r.value].signatureHash == h
  {
    if ls == [] then None
    else if ls[0].signatureHash == h then Some(0)
    else match FindLearned(ls[1..], h)
      case None => None
      case Some(i) => Some(i + 1)
  }

  /** The stage a merge gives an existing pattern. */
  function MergedStage(existingCount: int, a: Perfection): (s: Stage)
    ensures s == SuspiciousPerfect <==> a.suspicion == HighSuspicion
    ensures s == Established <==> a.suspicion != HighSuspicion && existingCount >= 5
    ensures s == Emerging <==> a.suspicion != HighSuspicion && existingCount < 5
  {
    if a.suspicion == HighSuspicion then SuspiciousPerfect
    else if existingCount >= 5 then Established
    else Emerging
  }

  function PerfectionKept(a: Perfection): Option<real>
  {
    if a.isPerfect then Some(a.score) else None
  }

  /** The update of an existing learned pattern by a raw pattern. */
  function Merge(p: LearnedPattern, row: RawPattern, a: Perfection): (q: LearnedPattern)
    ensures q.signatureHash == p.signatureHash
    ensures q.occurrenceCount == p.occurrenceCount + row.occurrenceCount
    ensures q.decay == 1.0
    ensures q.stage == MergedStage(p.occurrenceCount, a)
    ensures q.contextVariations == p.contextVariations && q.confidence == p.confidence
  {
    p.(occurrenceCount := p.occurrenceCount + row.occurrenceCount,
       lastSeen := row.lastSeen,
       decay := 1.0,
       stage := MergedStage(p.occurrenceCount, a),
       perfection := PerfectionKept(a))
  }

  /**
   * The learned pattern a raw pattern founds. Confidence, decay and
   * persistence are left to the table's defaults, taken here as null, 1 and 0.
   */
  function Founded(row: RawPattern, a: Perfection): (q: LearnedPattern)
    ensures q.signatureHash == row.patternHash
    ensures q.occurrenceCount == row.occurrenceCount
    ensures q.contextVariations == 1
    ensures q.featureVector.None?
    ensures q.stage == (if a.suspicion == HighSuspicion then SuspiciousPerfect else Emerging)
  {
    LearnedPattern(row.patternHash, row.classification, row.occurrenceCount, 1, 0.0,
                   if a.suspicion == HighSuspicion then SuspiciousPerfect else Emerging,
                   1.0, PerfectionKept(a), 0.0, None, row.firstSeen, row.lastSeen)
  }

  /** The evidence row a merge into pattern `id` leaves: its context is the signature itself. */
  function EvidenceFor(id: nat, row: RawPattern, windowId: nat): Evidence
  {
    Evidence(id, row.id, row.patternHash, windowId, row.lastSeen)
  }

  /** One turn of the loop of `consolidatePatternsToLearning`; `ok` says whether the update or insert succeeded. */
  function ConsolidateRow(t: Tables, row: RawPattern, windowId: nat, ok: bool): (r: (Tables, Outcome))
    ensures r.1 == Discarded <==> row.occurrenceCount < 3
    ensures r.1 != Merged ==> r.0 == t
    ensures r.1 == Merged ==> |r.0.evidence| == |t.evidence| + 1
  {
    if row.occurrenceCount < 3 then (t, Discarded)
    else if !ok then (t, WriteFailed)
    else
      var a := AnalyzePerfection(row.features, row.occurrenceCount, 1);
      match FindLearned(t.learned, row.patternHash)
      case Some(id) =>
        (Tables(t.learned[id := Merge(t.learned[id], row, a)], t.evidence + [EvidenceFor(id, row, windowId)]), Merged)
      case None =>
        (Tables(t.learned + [Founded(row, a)], t.evidence + [EvidenceFor(|t.learned|, row, windowId)]), Merged)
  }

  function Tick(c: Counts, o: Outcome): Counts
  {
    Counts(c.processed + 1,
           c.consolidated + (if o == Merged then 1 else 0),
           c.discarded + (if o == Discarded then 1 else 0))
  }

  /** The tables and counters after the first `n` raw rows. */
  function ConsolidateRows(t: Tables, rows: seq<RawPattern>, windowId: nat, writeOk: nat -> bool, n: nat): (r: (Tables, Counts))
    requires n <= |rows|
    ensures r.1.processed == n
    ensures r.1.consolidated + r.1.discarded <= r.1.processed
  {
    if n == 0 then (t, Counts(0, 0, 0))
    else
      var prev := ConsolidateRows(t, rows, windowId, writeOk, n - 1);
      var step := ConsolidateRow(prev.0, rows[n - 1], windowId, writeOk(n - 1));
      (step.0, Tick(prev.1, step.1))
  }

  /** Number of the first `n` raw rows below the three-occurrence floor. */
  function Noise(rows: seq<RawPattern>, n: nat): (c: nat)
    requires n <= |rows|
  {
    if n == 0 then 0 else Noise(rows, n - 1) + (if rows[n - 1].occurrenceCount < 3 then 1 else 0)
  }

  /** Exactly the rows below the floor are discarded. */
  lemma {:induction false} DiscardedAreNoise(t: Tables, rows: seq<RawPattern>, windowId: nat, writeOk: nat -> bool, n: nat)
    requires n <= |rows|
    ensures ConsolidateRows(t, rows, windowId, writeOk, n).1.discarded == Noise(rows, n)
  {
    if n > 0 {
      DiscardedAreNoise(t, rows, windowId, writeOk, n - 1);
    }
  }

  /** Every evidence row names an existing learned pattern and carries that pattern's signature as its context. */
  predicate EvidenceConsistent(t: Tables)
  {
    forall k :: 0 <= k < |t.evidence| ==>
      t.evidence[k].learnedId < |t.learned| && t.evidence[k].contextHash == t.learned[t.evidence[k].learnedId].signatureHash
  }

  /** No learned pattern carries a feature vector. */
  predicate NoFeatureVectors(ls: seq<LearnedPattern>)
  {
    forall i :: 0 <= i < |ls| ==> ls[i].featureVector.None?
  }

  /** No two learned patterns share a signature. */
  predicate UniqueSignatures(ls: seq<LearnedPattern>)
  {
    forall i, j :: 0 <= i < j < |ls| ==> ls[i].signatureHash != ls[j].signatureHash
  }

  lemma ConsolidateRowKeepsInvariants(t: Tables, row: RawPattern, windowId: nat, ok: bool)
    requires EvidenceConsistent(t) && UniqueSignatures(t.learned)
    ensures EvidenceConsistent(ConsolidateRow(t, row, windowId, ok).0)
    ensures UniqueSignatures(ConsolidateRow(t, row, windowId, ok).0.learned)
    ensures |ConsolidateRow(t, row, windowId, ok).0.learned| >= |t.learned|
  {
    var r := ConsolidateRow(t, row, windowId, ok).0;
    if row.occurrenceCount >= 3 && ok {
      var a := AnalyzePerfection(row.features, row.occurrenceCount, 1);
      match FindLearned(t.learned, row.patternHash)
      case Some(id) =>
        assert forall i :: 0 <= i < |r.learned| ==> r.learned[i].signatureHash == t.learned[i].signatureHash;
      case None =>
        assert forall i :: 0 <= i < |t.learned| ==> r.learned[i] == t.learned[i];
    }
  }

  /** Consolidation keeps signatures unique and evidence consistent with its pattern's signature. */
  lemma {:induction false} ConsolidationKeepsInvariants(t: Tables, rows: seq<RawPattern>, windowId: nat, writeOk: nat -> bool, n: nat)
    requires n <= |rows|
    requires EvidenceConsistent(t) && UniqueSignatures(t.learned)
    ensures EvidenceConsistent(ConsolidateRows(t, rows, windowId, writeOk, n).0)
    ensures UniqueSignatures(ConsolidateRows(t, rows, windowId, writeOk, n).0.learned)
  {
    if n > 0 {
      ConsolidationKeepsInvariants(t, rows, windowId, writeOk, n - 1);
      var prev := ConsolidateRows(t, rows, windowId, writeOk, n - 1);
      ConsolidateRowKeepsInvariants(prev.0, rows[n - 1], windowId, writeOk(n - 1));
    }
  }

  /** Consolidation never gives a learned pattern a feature vector. */
  lemma {:induction false} NoFeatureVectorsKept(t: Tables, rows: seq<RawPattern>, windowId: nat, writeOk: nat -> bool, n: nat)
    requires n <= |rows|
    requires NoFeatureVectors(t.learned)
    ensures NoFeatureVectors(ConsolidateRows(t, rows, windowId, writeOk, n).0.learned)
  {
    if n > 0 {
      NoFeatureVectorsKept(t, rows, windowId, writeOk, n - 1);
    }
  }

  /** A merge can take a pattern out of `suspicious_perfect`: the new stage looks only at the new analysis. */
  lemma MergeCanDemoteSuspicious(p: LearnedPattern, row: RawPattern)
    requires p.stage == SuspiciousPerfect && p.occurrenceCount >= 5
    requires AnalyzePerfection(row.features, row.occurrenceCount, 1).score < 0.7
    ensures Merge(p, row, AnalyzePerfection(row.features, row.occurrenceCount, 1)).stage == Established
  {
  }

  // ---------------------------------------------------------------------
  // Context diversity
  // ---------------------------------------------------------------------

  predicate HasEvidence(ev: seq<Evidence>, id: nat)
  {
    exists k :: 0 <= k < |ev| && ev[k].learnedId == id
  }

  /** The distinct contexts among a pattern's evidence rows. */
  function Contexts(ev: seq<Evidence>, id: nat): set<string>
  {
    set k | 0 <= k < |ev| && ev[k].learnedId == id :: ev[k].contextHash
  }

  /** One turn of the loop of `analyzeContextDiversity`. */
  function DiversityRow(p: LearnedPattern, id: nat, ev: seq<Evidence>): (q: LearnedPattern)
    ensures q == p.(contextVariations := q.contextVariations)
    ensures q.contextVariations != p.contextVariations ==> p.stage != Fading && HasEvidence(ev, id)
  {
    if p.stage != Fading && HasEvidence(ev, id) then p.(contextVariations := |Contexts(ev, id)|) else p
  }

  function DiversityAll(ls: seq<LearnedPattern>, ev: seq<Evidence>): (r: seq<LearnedPattern>)
    ensures |r| == |ls|
  {
    seq(|ls|, i requires 0 <= i < |ls| => DiversityRow(ls[i], i, ev))
  }

  /** With consistent evidence, every recounted pattern ends up with exactly one context. */
  lemma ContextVariationsAlwaysOne(t: Tables, id: nat)
    requires EvidenceConsistent(t)
    requires id < |t.learned| && t.learned[id].stage != Fading && HasEvidence(t.evidence, id)
    ensures DiversityAll(t.learned, t.evidence)[id].contextVariations == 1
  {
    var h := t.learned[id].signatureHash;
    var k :| 0 <= k < |t.evidence| && t.evidence[k].learnedId == id;
    assert Contexts(t.evidence, id) == {h} by {
      assert h in Contexts(t.evidence, id) by {
        assert t.evidence[k].contextHash == h;
      }
    }
  }

  /** After a consolidation from consistent tables, the recount gives every pattern with evidence exactly one context. */
  lemma ConsolidationThenRecountGivesOne(t: Tables, rows: seq<RawPattern>, windowId: nat, writeOk: nat -> bool, id: nat)
    requires EvidenceConsistent(t) && UniqueSignatures(t.learned)
    ensures var r := ConsolidateRows(t, rows, windowId, writeOk, |rows|).0;
      id < |r.learned| && r.learned[id].stage != Fading && HasEvidence(r.evidence, id) ==>
      DiversityAll(r.learned, r.evidence)[id].contextVariations == 1
  {
    var r := ConsolidateRows(t, rows, windowId, writeOk, |rows|).0;
    ConsolidationKeepsInvariants(t, rows, windowId, writeOk, |rows|);
    if id < |r.learned| && r.learned[id].stage != Fading && HasEvidence(r.evidence, id) {
      ContextVariationsAlwaysOne(r, id);
    }
  }

  // ---------------------------------------------------------------------
  // Penalising perfect patterns
  // ---------------------------------------------------------------------

  /** `confidence_score || 0.5` */
  function ConfidenceOr(c: real): real { if c == 0.0 then 0.5 else c }

  /** `context_variations || 1` */
  function ContextsOr(c: int): int { if c == 0 then 1 else c }

  /** The analysis `penalizePerfectPatterns` runs on a learned pattern. */
  function PenaltyAnalysis(p: LearnedPattern): Perfection
  {
    AnalyzePerfection(p.featureVector, p.occurrenceCount, ContextsOr(p.contextVariations))
  }

  predicate PenaltyCandidate(p: LearnedPattern)
  {
    (p.stage == Emerging || p.stage == Established) && p.occurrenceCount >= 3
  }

  /** One turn of the loop of `penalizePerfectPatterns`. */
  function PenalizeRow(p: LearnedPattern): (q: LearnedPattern)
    ensures !(PenaltyCandidate(p) && PenaltyAnalysis(p).isPerfect) ==> q == p
    ensures PenaltyCandidate(p) && PenaltyAnalysis(p).isPerfect ==>
      q.confidence == MaxR(ConfidenceOr(p.confidence) - 0.5 * PenaltyAnalysis(p).score, 0.1)
      && q.perfection == Some(PenaltyAnalysis(p).score)
      && (q.stage == SuspiciousPerfect <==> PenaltyAnalysis(p).suspicion == HighSuspicion)
      && (q.stage != SuspiciousPerfect ==> q.stage == p.stage)
      && q == p.(confidence := q.confidence, perfection := q.perfection, stage := q.stage)
  {
    var a := PenaltyAnalysis(p);
    if PenaltyCandidate(p) && a.isPerfect then
      var q := p.(confidence := MaxR(ConfidenceOr(p.confidence) - a.score * 0.5, 0.1), perfection := Some(a.score));
      if a.suspicion == HighSuspicion then q.(stage := SuspiciousPerfect) else q
    else p
  }

  function PenalizeAll(ls: seq<LearnedPattern>): (r: seq<LearnedPattern>)
    ensures |r| == |ls|
  {
    seq(|ls|, i requires 0 <= i < |ls| => PenalizeRow(ls[i]))
  }

  /** How many of the first `n` patterns are flagged (perfect) and how many penalised (highly suspicious). */
  function PenaltyCounts(ls: seq<LearnedPattern>, n: nat): (r: (nat, nat))
    requires n <= |ls|
    ensures r.1 <= r.0 <= n
  {
    if n == 0 then (0, 0)
    else
      var prev := PenaltyCounts(ls, n - 1);
      var p := ls[n - 1];
      var a := PenaltyAnalysis(p);
      var flag := PenaltyCandidate(p) && a.isPerfect;
      (prev.0 + (if flag then 1 else 0), prev.1 + (if flag && a.suspicion == HighSuspicion then 1 else 0))
  }

  /**
   * The penalty pass reads a feature vector learned patterns never carry, so
   * on them it can never fire: it changes no pattern and counts nothing.
   */
  lemma {:induction false} PenaltyNeverFires(ls: seq<LearnedPattern>, n: nat)
    requires n <= |ls|
    requires NoFeatureVectors(ls)
    ensures PenalizeAll(ls) == ls
    ensures PenaltyCounts(ls, n) == (0, 0)
  {
    forall i | 0 <= i < |ls| ensures PenalizeRow(ls[i]) == ls[i] {
      NoFeaturesNeverPerfect(ls[i].occurrenceCount, ContextsOr(ls[i].contextVariations));
    }
    if n > 0 {
      PenaltyNeverFires(ls, n - 1);
      NoFeaturesNeverPerfect(ls[n - 1].occurrenceCount, ContextsOr(ls[n - 1].contextVariations));
    }
  }

  // ---------------------------------------------------------------------
  // Stability anomalies
  // ---------------------------------------------------------------------

  predicate StabilityCandidate(p: LearnedPattern)
  {
    p.stage == Established && p.occurrenceCount >= 10 && p.lastSeen > p.firstSeen
  }

  /** More than ten occurrences per hour between first and last sighting. */
  predicate HighFrequency(p: LearnedPattern)
    requires p.lastSeen > p.firstSeen
  {
    var hours := (p.lastSeen - p.firstSeen) as real / 3600000.0;
    p.occurrenceCount as real / hours > 10.0
  }

  /** Fewer than one context per twenty occurrences, over more than twenty occurrences. */
  predicate LowVariation(p: LearnedPattern)
  {
    p.occurrenceCount > 20 && ContextsOr(p.contextVariations) as real / p.occurrenceCount as real < 0.05
  }

  /**
   * One turn of the loop of `detectStabilityAnomalies` and the anomalies it
   * counts. Both writes start from the confidence the row was read with, so
   * when both fire the second one is what remains.
   */
  function StabilityRow(p: LearnedPattern): (r: (LearnedPattern, nat))
    ensures r.1 == (if StabilityCandidate(p) then (if HighFrequency(p) then 1 else 0) + (if LowVariation(p) then 1 else 0) else 0)
    ensures r.1 == 0 ==> r.0 == p
    ensures r.1 > 0 ==> r.0 == p.(confidence := r.0.confidence) && r.0.confidence >= 0.1
    ensures StabilityCandidate(p) && LowVariation(p) ==> r.0.confidence == MaxR(ConfidenceOr(p.confidence) * 0.6, 0.1)
    ensures StabilityCandidate(p) && HighFrequency(p) && !LowVariation(p) ==>
      r.0.confidence == MaxR(ConfidenceOr(p.confidence) * 0.7, 0.1)
  {
    if !StabilityCandidate(p) then (p, 0)
    else
      var c := ConfidenceOr(p.confidence);
      var high := HighFrequency(p);
      var low := LowVariation(p);
      var afterHigh := if high then p.(confidence := MaxR(c * 0.7, 0.1)) else p;
      var afterLow := if low then afterHigh.(confidence := MaxR(c * 0.6, 0.1)) else afterHigh;
      (afterLow, (if high then 1 else 0) + (if low then 1 else 0))
  }

  function StabilityAll(ls: seq<LearnedPattern>): (r: seq<LearnedPattern>)
    ensures |r| == |ls|
  {
    seq(|ls|, i requires 0 <= i < |ls| => StabilityRow(ls[i]).0)
  }

  function Anomalies(ls: seq<LearnedPattern>, n: nat): nat
    requires n <= |ls|
  {
    if n == 0 then 0 else Anomalies(ls, n - 1) + StabilityRow(ls[n - 1]).1
  }

  /** When both anomalies fire, the high-frequency penalty is overwritten: the result is the low-variation one alone. */
  lemma BothAnomaliesSecondWins(p: LearnedPattern)
    requires StabilityCandidate(p) && HighFrequency(p) && LowVariation(p)
    ensures StabilityRow(p).1 == 2
    ensures StabilityRow(p).0.confidence == MaxR(ConfidenceOr(p.confidence) * 0.6, 0.1)
  {
  }

  /** A stability penalty never raises a confidence that is at least 0.1. */
  lemma StabilityNeverRaises(p: LearnedPattern)
    requires ConfidenceOr(p.confidence) >= 0.1
    ensures StabilityRow(p).0.confidence <= ConfidenceOr(p.confidence) || StabilityRow(p).0 == p
  {
  }

  // ---------------------------------------------------------------------
  // Confidence recalculation
  // ---------------------------------------------------------------------

  /** `compute_pattern_confidence(occurrences, contexts, persistence hours, decay)`, null as `None`. */
  type ConfidenceProcedure = (int, int, real, real) -> Option<real>

  /** The confidence after the perfection discount: a stored score above 0.6 scales it by 1 − 0.3·score, anything else keeps it. */
  function Adjusted(confidence: real, perfection: Option<real>): (a: real)
    ensures perfection.Some? && perfection.value > 0.6 ==> a == confidence - 0.3 * perfection.value * confidence
    ensures !(perfection.Some? && perfection.value > 0.6) ==> a == confidence
  {
    if perfection.Some? && perfection.value > 0.6 then confidence * (1.0 - perfection.value * 0.3) else confidence
  }

  /** One turn of the loop of `recalculateConfidenceScores`. */
  function RecalculateRow(p: LearnedPattern, compute: ConfidenceProcedure): (q: LearnedPattern)
    ensures compute(p.occurrenceCount, p.contextVariations, p.persistenceHours, p.decay).None? ==> q == p
    ensures q.stage == p.stage || q.stage == Established
    ensures compute(p.occurrenceCount, p.contextVariations, p.persistenceHours, p.decay).Some? ==>
      var c := compute(p.occurrenceCount, p.contextVariations, p.persistenceHours, p.decay).value;
      q.confidence == Adjusted(c, p.perfection)
      && (q.stage == Established <==>
            p.stage == Established || (Adjusted(c, p.perfection) >= 0.6 && p.occurrenceCount >= 5 && p.stage != SuspiciousPerfect))
      && q == p.(confidence := q.confidence, stage := q.stage)
  {
    match compute(p.occurrenceCount, p.contextVariations, p.persistenceHours, p.decay)
    case None => p
    case Some(c) =>
      var adjusted := Adjusted(c, p.perfection);
      var stage := if adjusted >= 0.6 && p.occurrenceCount >= 5 && p.stage != SuspiciousPerfect then Established else p.stage;
      p.(confidence := adjusted, stage := stage)
  }

  function RecalculateAll(ls: seq<LearnedPattern>, compute: ConfidenceProcedure): (r: seq<LearnedPattern>)
    ensures |r| == |ls|
  {
    seq(|ls|, i requires 0 <= i < |ls| => RecalculateRow(ls[i], compute))
  }

  /** `suspicious_perfect` is sticky under recalculation, whatever confidence the procedure returns. */
  lemma SuspiciousPerfectSticky(ls: seq<LearnedPattern>, compute: ConfidenceProcedure, i: nat)
    requires i < |ls| && ls[i].stage == SuspiciousPerfect
    ensures RecalculateAll(ls, compute)[i].stage == SuspiciousPerfect
  {
  }

  /** A perfection score above 0.6 (and at most the largest possible, 1.1) discounts a positive confidence by 18 to 33 per cent. */
  lemma DiscountBounds(c: real, score: real)
    requires c > 0.0 && 0.6 < score <= 1.1
    ensures 0.67 * c <= Adjusted(c, Some(score)) < 0.82 * c
  {
    var f := 1.0 - score * 0.3;
    assert 0.67 <= f < 0.82;
    calc {
      Adjusted(c, Some(score));
      c * f;
    <  { assert c * f < c * 0.82; }
      0.82 * c;
    }
    assert 0.67 * c <= c * f;
  }

  // ---------------------------------------------------------------------
  // The store and the batch
  // ---------------------------------------------------------------------

  datatype Stats = Stats(processed: nat, consolidated: nat, discarded: nat, penalized: nat, flagged: nat, anomalies: nat, decayApplied: bool)

  const NoStats := Stats(0, 0, 0, 0, 0, 0, false)

  /** Whether each of the four passes after consolidation could read its patterns. */
  datatype Reads = Reads(diversity: bool, penalty: bool, stability: bool, recalculation: bool)

  /** What the passes after consolidation leave: the patterns and the counters of each pass. */
  datatype PassesResult = PassesResult(learned: seq<LearnedPattern>, flagged: nat, penalized: nat, anomalies: nat)

  /**
   * The passes of `runLearningConsolidation` after consolidation, in order:
   * context diversity, the perfection penalty, stability anomalies, the
   * decay procedure and confidence recalculation. A pass whose read fails
   * leaves the patterns as they were and counts nothing.
   */
  ghost function LaterPasses(t: Tables, passes: Reads, decay: seq<LearnedPattern> -> seq<LearnedPattern>,
                             compute: ConfidenceProcedure): (r: PassesResult)
    ensures !passes.penalty ==> r.flagged == 0 && r.penalized == 0
    ensures !passes.stability ==> r.anomalies == 0
  {
    var l1 := if passes.diversity then DiversityAll(t.learned, t.evidence) else t.learned;
    var l2 := if passes.penalty then PenalizeAll(l1) else l1;
    var l3 := if passes.stability then StabilityAll(l2) else l2;
    var counts := if passes.penalty then PenaltyCounts(l1, |l1|) else (0, 0);
    PassesResult(if passes.recalculation then RecalculateAll(decay(l3), compute) else decay(l3),
                 counts.0, counts.1, if passes.stability then Anomalies(l2, |l2|) else 0)
  }

  /** The tables after consolidating the fetched raw patterns, if the fetch succeeded. */
  ghost function Consolidated(start: Tables, raw: Option<seq<RawPattern>>, windowId: nat, writeOk: nat -> bool): (r: (Tables, Counts))
    ensures raw.None? ==> r == (start, Counts(0, 0, 0))
  {
    if raw.Some? then ConsolidateRows(start, raw.value, windowId, writeOk, |raw.value|) else (start, Counts(0, 0, 0))
  }

  class LearningStore {
    var learned: seq<LearnedPattern>
    var evidence: seq<Evidence>
    var windows: seq<Window>

    constructor ()
      ensures learned == [] && evidence == [] && windows == []
    {
      learned := [];
      evidence := [];
      windows := [];
    }

    /** One raw row: the update or insert of its learned pattern and its evidence row. */
    method ConsolidateOne(row: RawPattern, windowId: nat, ok: bool) returns (outcome: Outcome)
      modifies this
      ensures (Tables(learned, evidence), outcome) == ConsolidateRow(Tables(old(learned), old(evidence)), row, windowId, ok)
      ensures windows == old(windows)
    {
      if row.occurrenceCount < 3 {
        return Discarded;
      }
      var analysis := AnalyzePerfection(row.features, row.occurrenceCount, 1);
      var existing := FindLearned(learned, row.patternHash);
      if !ok {
        return WriteFailed;
      }
      if existing.Some? {
        var id := existing.value;
        learned := learned[id := Merge(learned[id], row, analysis)];
        evidence := evidence + [EvidenceFor(id, row, windowId)];
      } else {
        evidence := evidence + [EvidenceFor(|learned|, row, windowId)];
        learned := learned + [Founded(row, analysis)];
      }
      outcome := Merged;
    }

    /** `consolidatePatternsToLearning`; `raw` is `None` when the read fails, `writeOk(i)` the outcome of row `i`'s write. */
    method ConsolidatePatterns(raw: Option<seq<RawPattern>>, windowId: nat, writeOk: nat -> bool) returns (counts: Counts)
      modifies this
      ensures raw.None? ==> counts == Counts(0, 0, 0) && learned == old(learned) && evidence == old(evidence)
      ensures raw.Some? ==>
        var r := ConsolidateRows(Tables(old(learned), old(evidence)), raw.value, windowId, writeOk, |raw.value|);
        Tables(learned, evidence) == r.0 && counts == r.1
      ensures windows == old(windows)
    {
      if raw.None? {
        return Counts(0, 0, 0);
      }
      var rows := raw.value;
      ghost var start := Tables(learned, evidence);
      counts := Counts(0, 0, 0);
      var i := 0;
      while i < |rows|
        invariant 0 <= i <= |rows|
        invariant (Tables(learned, evidence), counts) == ConsolidateRows(start, rows, windowId, writeOk, i)
        invariant windows == old(windows)
      {
        var outcome := ConsolidateOne(rows[i], windowId, writeOk(i));
        counts := Tick(counts, outcome);
        i := i + 1;
      }
    }

    /** `analyzeContextDiversity`; `readOk` is false when the patterns cannot be read. */
    method AnalyzeContextDiversity(readOk: bool)
      modifies this
      ensures learned == (if readOk then DiversityAll(old(learned), evidence) else old(learned))
      ensures evidence == old(evidence) && windows == old(windows)
    {
      if !readOk {
        return;
      }
      var i := 0;
      while i < |learned|
        invariant 0 <= i <= |learned| == |old(learned)|
        invariant forall j :: 0 <= j < i ==> learned[j] == DiversityRow(old(learned)[j], j, evidence)
        invariant forall j :: i <= j < |learned| ==> learned[j] == old(learned)[j]
        invariant evidence == old(evidence) && windows == old(windows)
      {
        learned := learned[i := DiversityRow(learned[i], i, evidence)];
        i := i + 1;
      }
    }

    /** `penalizePerfectPatterns`, returning the penalised and flagged counts. */
    method PenalizePerfectPatterns(readOk: bool) returns (penalized: nat, flagged: nat)
      modifies this
      ensures learned == (if readOk then PenalizeAll(old(learned)) else old(learned))
      ensures readOk ==> (flagged, penalized) == PenaltyCounts(old(learned), |old(learned)|)
      ensures !readOk ==> penalized == 0 && flagged == 0
      ensures evidence == old(evidence) && windows == old(windows)
    {
      penalized, flagged := 0, 0;
      if !readOk {
        return;
      }
      var i := 0;
      while i < |learned|
        invariant 0 <= i <= |learned| == |old(learned)|
        invariant forall j :: 0 <= j < i ==> learned[j] == PenalizeRow(old(learned)[j])
        invariant forall j :: i <= j < |learned| ==> learned[j] == old(learned)[j]
        invariant (flagged, penalized) == PenaltyCounts(old(learned), i)
        invariant evidence == old(evidence) && windows == old(windows)
      {
        var analysis := PenaltyAnalysis(learned[i]);
        if PenaltyCandidate(learned[i]) && analysis.isPerfect {
          flagged := flagged + 1;
          if analysis.suspicion == HighSuspicion {
            penalized := penalized + 1;
          }
        }
        learned := learned[i := PenalizeRow(learned[i])];
        i := i + 1;
      }
    }

    /** `detectStabilityAnomalies`, returning the number of anomalies. */
    method DetectStabilityAnomalies(readOk: bool) returns (anomalies: nat)
      modifies this
      ensures learned == (if readOk then StabilityAll(old(learned)) else old(learned))
      ensures anomalies == (if readOk then Anomalies(old(learned), |old(learned)|) else 0)
      ensures evidence == old(evidence) && windows == old(windows)
    {
      anomalies := 0;
      if !readOk {
        return;
      }
      var i := 0;
      while i < |learned|
        invariant 0 <= i <= |learned| == |old(learned)|
        invariant forall j :: 0 <= j < i ==> learned[j] == StabilityRow(old(learned)[j]).0
        invariant forall j :: i <= j < |learned| ==> learned[j] == old(learned)[j]
        invariant anomalies == Anomalies(old(learned), i)
        invariant evidence == old(evidence) && windows == old(windows)
      {
        var r := StabilityRow(learned[i]);
        anomalies := anomalies + r.1;
        learned := learned[i := r.0];
        i := i + 1;
      }
    }

    /** `recalculateConfidenceScores` */
    method RecalculateConfidenceScores(readOk: bool, compute: ConfidenceProcedure)
      modifies this
      ensures learned == (if readOk then RecalculateAll(old(learned), compute) else old(learned))
      ensures evidence == old(evidence) && windows == old(windows)
    {
      if !readOk {
        return;
      }
      var i := 0;
      while i < |learned|
        invariant 0 <= i <= |learned| == |old(learned)|
        invariant forall j :: 0 <= j < i ==> learned[j] == RecalculateRow(old(learned)[j], compute)
        invariant forall j :: i <= j < |learned| ==> learned[j] == old(learned)[j]
        invariant evidence == old(evidence) && windows == old(windows)
      {
        learned := learned[i := RecalculateRow(learned[i], compute)];
        i := i + 1;
      }
    }

    /**
     * The passes after consolidation, stopping after the first `steps` of
     * them as an exception would; `finished` says whether all five ran.
     */
    method RunLaterPasses(steps: nat, passes: Reads, decay: seq<LearnedPattern> -> seq<LearnedPattern>,
                          compute: ConfidenceProcedure)
      returns (finished: bool, penalized: nat, flagged: nat, anomalies: nat)
      modifies this
      ensures finished <==> steps >= 5
      ensures evidence == old(evidence) && windows == old(windows)
      ensures finished ==>
        var p := LaterPasses(Tables(old(learned), old(evidence)), passes, decay, compute);
        learned == p.learned && flagged == p.flagged && penalized == p.penalized && anomalies == p.anomalies
      ensures finished && NoFeatureVectors(old(learned)) ==> penalized == 0 && flagged == 0
    {
      finished, penalized, flagged, anomalies := false, 0, 0, 0;
      AnalyzeContextDiversity(passes.diversity);
      if steps == 0 {
        return;
      }
      ghost var beforePenalty := learned;
      assert NoFeatureVectors(old(learned)) ==> NoFeatureVectors(beforePenalty);
      penalized, flagged := PenalizePerfectPatterns(passes.penalty);
      if NoFeatureVectors(old(learned)) && passes.penalty {
        PenaltyNeverFires(beforePenalty, |beforePenalty|);
      }
      if steps == 1 {
        return false, 0, 0, 0;
      }
      anomalies := DetectStabilityAnomalies(passes.stability);
      if steps == 2 {
        return false, 0, 0, 0;
      }
      learned := decay(learned);
      if steps == 3 {
        return false, 0, 0, 0;
      }
      RecalculateConfidenceScores(passes.recalculation, compute);
      if steps == 4 {
        return false, 0, 0, 0;
      }
      finished := true;
    }

    /**
     * `runLearningConsolidation`. `windowCreated` is false when the window
     * insert fails; `completed` is how many of the eight steps after it
     * (processing, consolidation, diversity, penalty, stability, decay,
     * recalculation, finalisation) finished before an exception, 8 or more
     * meaning none was thrown. Steps that finished keep their writes.
     */
    method RunLearningConsolidation(windowCreated: bool, completed: nat, raw: Option<seq<RawPattern>>, writeOk: nat -> bool,
                                    passes: Reads, decay: seq<LearnedPattern> -> seq<LearnedPattern>,
                                    compute: ConfidenceProcedure)
      returns (success: bool, stats: Stats)
      modifies this
      ensures !windowCreated ==> windows == old(windows) && learned == old(learned) && evidence == old(evidence)
      ensures !success <==> !windowCreated || completed < 8
      ensures !success ==> stats == NoStats
      ensures windowCreated ==> |windows| == |old(windows)| + 1 && windows[..|old(windows)|] == old(windows)
      ensures windowCreated ==>
        windows[|old(windows)|] == (if completed >= 8 then Window(Finalized, stats.processed, stats.consolidated, stats.discarded)
                                    else if completed == 0 then Window(Collecting, 0, 0, 0)
                                    else Window(Processing, 0, 0, 0))
      ensures success ==> stats.consolidated + stats.discarded <= stats.processed && stats.decayApplied
      ensures success ==> stats.processed == (if raw.Some? then |raw.value| else 0)
      ensures success && raw.Some? ==> stats.discarded == Noise(raw.value, |raw.value|)
      ensures success && NoFeatureVectors(old(learned)) ==> stats.penalized == 0 && stats.flagged == 0
      ensures success ==>
        var c := Consolidated(Tables(old(learned), old(evidence)), raw, |old(windows)|, writeOk);
        var p := LaterPasses(c.0, passes, decay, compute);
        evidence == c.0.evidence && learned == p.learned && stats.consolidated == c.1.consolidated
        && stats.flagged == p.flagged && stats.penalized == p.penalized && stats.anomalies == p.anomalies
    {
      if !windowCreated {
        return false, NoStats;
      }
      var w := |windows|;
      windows := windows + [Window(Collecting, 0, 0, 0)];
      if completed == 0 {
        return false, NoStats;
      }
      windows := windows[w := Window(Processing, 0, 0, 0)];
      if completed == 1 {
        return false, NoStats;
      }
      ghost var before := Tables(learned, evidence);
      var counts := ConsolidatePatterns(raw, w, writeOk);
      if raw.Some? {
        DiscardedAreNoise(before, raw.value, w, writeOk, |raw.value|);
        if NoFeatureVectors(before.learned) {
          NoFeatureVectorsKept(before, raw.value, w, writeOk, |raw.value|);
        }
      }
      if completed == 2 {
        return false, NoStats;
      }
      assert (Tables(learned, evidence), counts) == Consolidated(before, raw, w, writeOk);
      var finished, penalized, flagged, anomalies := RunLaterPasses(completed - 3, passes, decay, compute);
      if !finished {
        return false, NoStats;
      }
      windows := windows[w := Window(Finalized, counts.processed, counts.consolidated, counts.discarded)];
      success := true;
      stats := Stats(counts.processed, counts.consolidated, counts.discarded, penalized, flagged, anomalies, true);
    }
  }
}
