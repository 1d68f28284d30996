/**
 * The reference decision engine of the test endpoint
 * (supabase/functions/ice-wall-test/index.ts): a four-way if-chain with a
 * deterministic Google Ads override, and the three built-in scenarios it is
 * run against.
 */
module TestEngine {

  import opened Base

  datatype Decision = Real | Safe

  /** The `clickId` part of the context; `network` is `None` for `null`. */
  datatype ClickInfo = ClickInfo(hasClickId: bool, isValid: bool, network: Option<string>)

  /** The fields of the context `assess` reads; an absent flag is `false`. */
  datatype TestContext = TestContext(clickId: Option<ClickInfo>, isDatacenter: bool, isBotDetected: bool)

  /** The decision and the final risk; the reasoning lines are not modelled. */
  datatype Assessment = Assessment(decision: Decision, finalRisk: real)

  /** `clickId?.network === 'google_ads' && clickId?.isValid` */
  predicate ValidGoogleAds(ctx: TestContext)
  {
    ctx.clickId.Some? && ctx.clickId.value.network == Some("google_ads") && ctx.clickId.value.isValid
  }

  predicate HasClickId(ctx: TestContext)
  {
    ctx.clickId.Some? && ctx.clickId.value.hasClickId
  }

  /** `SimpleRiskEngine.assess` */
  function Assess(ctx: TestContext): (a: Assessment)
    ensures a.decision == Real <==> ValidGoogleAds(ctx) && !ctx.isDatacenter && !ctx.isBotDetected
    ensures a.decision == Real ==> a.finalRisk == 0.05
    ensures a.decision == Safe && !HasClickId(ctx) ==> a.finalRisk == 1.0
    ensures a.decision == Safe && HasClickId(ctx) ==> a.finalRisk == (if ctx.isDatacenter || ctx.isBotDetected then 0.9 else 0.6)
    ensures 0.05 <= a.finalRisk <= 1.0
  {
    if ValidGoogleAds(ctx) && !ctx.isDatacenter && !ctx.isBotDetected then Assessment(Real, 0.05)
    else if !HasClickId(ctx) then Assessment(Safe, 1.0)
    else if ctx.isDatacenter || ctx.isBotDetected then Assessment(Safe, 0.9)
    else Assessment(Safe, 0.6)
  }

  /**
   * The override is checked before the presence of a click id: a valid
   * Google Ads record that says no click id was found still yields `real`.
   */
  lemma OverrideIgnoresPresence(ctx: TestContext)
    requires ctx.clickId == Some(ClickInfo(false, true, Some("google_ads")))
    requires !ctx.isDatacenter && !ctx.isBotDetected
    ensures Assess(ctx) == Assessment(Real, 0.05)
  {
  }

  /** A datacenter or bot flag always keeps the decision at `safe`, whatever the click id. */
  lemma FlagsForceSafe(ctx: TestContext)
    requires ctx.isDatacenter || ctx.isBotDetected
    ensures Assess(ctx).decision == Safe
    ensures Assess(ctx).finalRisk == (if HasClickId(ctx) then 0.9 else 1.0)
  {
  }

  /** A test scenario: a context and the decision it is expected to produce. */
  datatype Scenario = Scenario(context: TestContext, expected: Decision)

  /** The three built-in scenarios: mobile with a valid gclid, UTMs without a gclid, bot in a data centre. */
  const BuiltInScenarios: seq<Scenario> := [
    Scenario(TestContext(Some(ClickInfo(true, true, Some("google_ads"))), false, false), Real),
    Scenario(TestContext(Some(ClickInfo(false, false, None)), false, false), Safe),
    Scenario(TestContext(Some(ClickInfo(true, true, Some("google_ads"))), true, true), Safe)
  ]

  /** One line of the endpoint's report. */
  datatype Outcome = Outcome(expected: Decision, actual: Decision, finalRisk: real, passed: bool)

  function RunScenario(s: Scenario): (o: Outcome)
    ensures o.passed <==> Assess(s.context).decision == s.expected
  {
    var a := Assess(s.context);
    Outcome(s.expected, a.decision, a.finalRisk, a.decision == s.expected)
  }

  function RunAll(ss: seq<Scenario>): (os: seq<Outcome>)
    ensures |os| == |ss|
    ensures forall i :: 0 <= i < |ss| ==> os[i] == RunScenario(ss[i])
  {
    if ss == [] then [] else [RunScenario(ss[0])] + RunAll(ss[1..])
  }

  /** `results.every(r => r.passed)` */
  predicate AllPassed(os: seq<Outcome>)
  {
    forall i :: 0 <= i < |os| ==> os[i].passed
  }

  /** The engine meets each built-in expectation, so the endpoint reports that all tests passed. */
  lemma BuiltInScenariosPass()
    ensures AllPassed(RunAll(BuiltInScenarios))
    ensures [RunAll(BuiltInScenarios)[0].finalRisk, RunAll(BuiltInScenarios)[1].finalRisk, RunAll(BuiltInScenarios)[2].finalRisk] == [0.05, 1.0, 0.9]
  {
    var os := RunAll(BuiltInScenarios);
    assert os[0] == RunScenario(BuiltInScenarios[0]);
    assert os[1] == RunScenario(BuiltInScenarios[1]);
    assert os[2] == RunScenario(BuiltInScenarios[2]);
  }
}
