/** `scoreCandidate`: reliability, recency, primary source, keywords and the way of discovery add up.
    Numbers are reals; the rounding to three digits is explicit. */
module CandidateScore {
  import opened Wrappers

  datatype Discovery = Reddit | WebSearch(rank: nat) | OtherDiscovery

  /** `keywords` is the keyword score and `publishedAt` the instant of a valid date. */
  datatype Facts = Facts(reliability: Option<real>, publishedAt: Option<int>, primary: bool, keywords: real, discovery: Discovery)

  const HOUR_MS := 3_600_000

  function Max(a: real, b: real): real {
    if a < b then b else a
  }

  function Min(a: real, b: real): real {
    if a < b then a else b
  }

  /** A candidate without a date counts as three days old. */
  function AgeHours(facts: Facts, now: int): real {
    match facts.publishedAt
    case None => 72.0
    case Some(t) => Max(0.0, (now - t) as real / HOUR_MS as real)
  }

  function Recency(ageHours: real): real {
    Max(0.0, 30.0 - Min(30.0, ageHours * 0.625))
  }

  function DiscoveryBonus(discovery: Discovery): real {
    match discovery
    case Reddit => 5.0
    case WebSearch(rank) => Max(20.0, (40 - 4 * rank) as real)
    case OtherDiscovery => 0.0
  }

  function Round3(x: real): real {
    (x * 1000.0 + 0.5).Floor as real / 1000.0
  }

  function Score(facts: Facts, now: int): real {
    var reliability := match facts.reliability case None => 50.0 case Some(r) => r;
    Round3(reliability * 0.2 + Recency(AgeHours(facts, now)) + (if facts.primary then 30.0 else 0.0)
           + facts.keywords + DiscoveryBonus(facts.discovery))
  }

  lemma RoundIsMonotone(x: real, y: real)
    requires x <= y
    ensures Round3(x) <= Round3(y)
  {
    var a, b := (x * 1000.0 + 0.5).Floor, (y * 1000.0 + 0.5).Floor;
    assert a <= b;
    assert Round3(x) * 1000.0 == a as real && Round3(y) * 1000.0 == b as real;
  }

  /** Of two candidates that differ in their dates only, the later one never scores less, and one
      without a date never scores more than one with a date. */
  lemma LaterNeverScoresLess(facts: Facts, earlier: int, later: int, now: int)
    requires earlier <= later
    ensures Score(facts.(publishedAt := Some(earlier)), now) <= Score(facts.(publishedAt := Some(later)), now)
    ensures Score(facts.(publishedAt := None), now) <= Score(facts.(publishedAt := Some(earlier)), now)
  {
    var early, young, undated := facts.(publishedAt := Some(earlier)), facts.(publishedAt := Some(later)), facts.(publishedAt := None);
    YoungerIsFresher(earlier, later, now);
    var others := (match facts.reliability case None => 50.0 case Some(r) => r) * 0.2;
    var rest := (if facts.primary then 30.0 else 0.0) + facts.keywords + DiscoveryBonus(facts.discovery);
    RoundIsMonotone(others + Recency(AgeHours(early, now)) + rest, others + Recency(AgeHours(young, now)) + rest);
    RoundIsMonotone(others + Recency(AgeHours(undated, now)) + rest, others + Recency(AgeHours(early, now)) + rest);
  }

  lemma YoungerIsFresher(earlier: int, later: int, now: int)
    requires earlier <= later
    ensures (now - later) as real / HOUR_MS as real <= (now - earlier) as real / HOUR_MS as real
  {
  }

  /** Recency is worth something exactly during the first two days, which is the default window; so an
      undated candidate gets none. */
  lemma RecencyLastsTwoDays(facts: Facts, now: int)
    ensures Recency(AgeHours(facts, now)) > 0.0 <==> facts.publishedAt.Some? && now - facts.publishedAt.value < 48 * HOUR_MS
    ensures 0.0 <= Recency(AgeHours(facts, now)) <= 30.0
  {
    if facts.publishedAt.Some? {
      var elapsed := now - facts.publishedAt.value;
      var hours := elapsed as real / HOUR_MS as real;
      assert hours * HOUR_MS as real == elapsed as real;
    }
  }
}
