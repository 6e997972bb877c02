/** The weather activity recommender of `number2.py`: three strict threshold
    tests on precipitation, temperature and wind speed, and an if/elif chain
    that picks one of six fixed recommendations. Readings are Python floats,
    modelled as reals. */
module Weather {

  const Museum := "Recommendation: Visit a museum or art gallery - perfect for a cold, rainy day!"
  const PoolOrMall := "Recommendation: Go to an indoor swimming pool or shopping mall - rainy but not too cold!"
  const RockClimbing := "Recommendation: Try indoor rock climbing - too windy and cold for most outdoor activities!"
  const KiteFlying := "Recommendation: Go flying a kite at the park - windy conditions are perfect for kite flying!"
  const Hike := "Recommendation: Go for a brisk hike - cold weather is great for energetic outdoor exercise!"
  const Picnic := "Recommendation: Perfect for a picnic in the park or outdoor sports - enjoy the great weather!"

  /** The six recommendations the function can return. */
  const Outcomes: set<string> := {Museum, PoolOrMall, RockClimbing, KiteFlying, Hike, Picnic}

  /** Any precipitation at all counts as rain. */
  predicate IsRaining(precipitation: real) { precipitation > 0.0 }

  /** Strictly below 15 degrees Celsius is cold. */
  predicate IsCold(temperature: real) { temperature < 15.0 }

  /** Strictly above 20 km/h is windy. */
  predicate IsWindy(windSpeed: real) { windSpeed > 20.0 }

  /** `suggest_activity`: rain first, then wind, then cold, else the picnic;
      the if/elif chain agrees with the truth table on every reading. */
  function SuggestActivity(precipitation: real, temperature: real, windSpeed: real): (r: string)
    ensures (IsRaining(precipitation), IsCold(temperature), IsWindy(windSpeed)) in DecisionTable
    ensures r == DecisionTable[(IsRaining(precipitation), IsCold(temperature), IsWindy(windSpeed))]
  {
    var raining := IsRaining(precipitation);
    var cold := IsCold(temperature);
    var windy := IsWindy(windSpeed);
    if raining then
      (if cold then Museum else PoolOrMall)
    else if windy then
      (if cold then RockClimbing else KiteFlying)
    else if cold then
      Hike
    else
      Picnic
  }

  /** The decision written out as a truth table over (raining, cold, windy),
      one row per combination of the three conditions. */
  const DecisionTable: map<(bool, bool, bool), string> := map[
    (true, true, true) := Museum,
    (true, true, false) := Museum,
    (true, false, true) := PoolOrMall,
    (true, false, false) := PoolOrMall,
    (false, true, true) := RockClimbing,
    (false, false, true) := KiteFlying,
    (false, true, false) := Hike,
    (false, false, false) := Picnic
  ]

  /** The result is always one of six distinct fixed strings. */
  lemma SuggestionIsOneOfSix(precipitation: real, temperature: real, windSpeed: real)
    ensures SuggestActivity(precipitation, temperature, windSpeed) in Outcomes
    ensures |Outcomes| == 6
  {
    assert |Museum| == 78 && |PoolOrMall| == 88 && |RockClimbing| == 90;
    assert |KiteFlying| == 92 && |Hike| == 91 && |Picnic| == 93;
    assert |{Museum, PoolOrMall, RockClimbing}| == 3;
    assert |{Museum, PoolOrMall, RockClimbing, KiteFlying}| == 4;
    assert |{Museum, PoolOrMall, RockClimbing, KiteFlying, Hike}| == 5;
  }

  /** Rain dominates: when it rains the wind speed makes no difference. */
  lemma RainIgnoresWind(precipitation: real, temperature: real, wind1: real, wind2: real)
    requires IsRaining(precipitation)
    ensures SuggestActivity(precipitation, temperature, wind1) == SuggestActivity(precipitation, temperature, wind2)
  {
  }

  /** Readings exactly at the thresholds (no rain, 15 degrees, 20 km/h) count
      as dry, not cold and calm, so they give the picnic. */
  lemma ThresholdsAreStrict()
    ensures SuggestActivity(0.0, 15.0, 20.0) == Picnic
  {
  }

  /** The six demonstration readings and what they are recommended. */
  lemma DemonstrationCases()
    ensures SuggestActivity(0.0, 25.0, 10.0) == Picnic
    ensures SuggestActivity(5.0, 10.0, 15.0) == Museum
    ensures SuggestActivity(0.0, 22.0, 25.0) == KiteFlying
    ensures SuggestActivity(0.0, 12.0, 15.0) == Hike
    ensures SuggestActivity(2.0, 20.0, 10.0) == PoolOrMall
    ensures SuggestActivity(0.0, 8.0, 30.0) == RockClimbing
  {
  }
}
