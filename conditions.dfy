/** The icon chosen for a weather condition description (`getWeatherIcon`). */
module Conditions {
  import opened Text

  /** The four icons the result panel can show, named after the icon
      components the application renders. */
  datatype Icon = Sun | Cloud | CloudRain | CloudSnow

  /** `getWeatherIcon`: lowercase the description, then test substrings in a
      fixed order; the first test that matches decides, and a description
      that matches none of them gets the cloud icon. */
  function WeatherIcon(condition: string): Icon {
    var lower := Lower(condition);
    if Includes(lower, "sunny") || Includes(lower, "clear") then Sun
    else if Includes(lower, "cloud") then Cloud
    else if Includes(lower, "rain") || Includes(lower, "drizzle") then CloudRain
    else if Includes(lower, "snow") then CloudSnow
    else Cloud
  }

  /** The classifier's tests as an ordered table of (substring, icon) rules. */
  const IconRules: seq<(string, Icon)> :=
    [("sunny", Sun), ("clear", Sun), ("cloud", Cloud),
     ("rain", CloudRain), ("drizzle", CloudRain), ("snow", CloudSnow)]

  /** Rule `k` matches `text` and no earlier rule does. */
  ghost predicate IsFirstMatch(rules: seq<(string, Icon)>, text: string, k: int) {
    0 <= k < |rules| && Includes(text, rules[k].0) &&
    forall j :: 0 <= j < k ==> !Includes(text, rules[j].0)
  }

  /** First-match-wins evaluation of a rule table. */
  function FirstMatch(rules: seq<(string, Icon)>, text: string, fallback: Icon): (icon: Icon)
    ensures (exists k :: IsFirstMatch(rules, text, k) && icon == rules[k].1) ||
            (icon == fallback && forall k :: 0 <= k < |rules| ==> !Includes(text, rules[k].0))
  {
    if rules == [] then fallback
    else if Includes(text, rules[0].0) then
      assert IsFirstMatch(rules, text, 0);
      rules[0].1
    else
      var icon := FirstMatch(rules[1..], text, fallback);
      assert forall k :: 1 <= k < |rules| ==> rules[k] == rules[1..][k - 1];
      assert forall k :: IsFirstMatch(rules[1..], text, k) ==> IsFirstMatch(rules, text, k + 1);
      icon
  }

  /** The if/else chain is exactly first-match-wins over the rule table,
      applied to the lowercased description with the cloud icon as fallback. */
  lemma {:induction false} WeatherIconIsFirstMatch(condition: string)
    ensures WeatherIcon(condition) == FirstMatch(IconRules, Lower(condition), Cloud)
  {
    var lower := Lower(condition);
    var r1 := [("clear", Sun), ("cloud", Cloud), ("rain", CloudRain), ("drizzle", CloudRain), ("snow", CloudSnow)];
    var r2 := [("cloud", Cloud), ("rain", CloudRain), ("drizzle", CloudRain), ("snow", CloudSnow)];
    var r3 := [("rain", CloudRain), ("drizzle", CloudRain), ("snow", CloudSnow)];
    var r4 := [("drizzle", CloudRain), ("snow", CloudSnow)];
    var r5 := [("snow", CloudSnow)];
    assert IconRules[1..] == r1 && r1[1..] == r2 && r2[1..] == r3 && r3[1..] == r4 && r4[1..] == r5;
    assert FirstMatch(r5, lower, Cloud) == if Includes(lower, "snow") then CloudSnow else FirstMatch([], lower, Cloud);
    assert FirstMatch(r4, lower, Cloud) == if Includes(lower, "drizzle") then CloudRain else FirstMatch(r5, lower, Cloud);
    assert FirstMatch(r3, lower, Cloud) == if Includes(lower, "rain") then CloudRain else FirstMatch(r4, lower, Cloud);
    assert FirstMatch(r2, lower, Cloud) == if Includes(lower, "cloud") then Cloud else FirstMatch(r3, lower, Cloud);
    assert FirstMatch(r1, lower, Cloud) == if Includes(lower, "clear") then Sun else FirstMatch(r2, lower, Cloud);
    assert FirstMatch(IconRules, lower, Cloud) == if Includes(lower, "sunny") then Sun else FirstMatch(r1, lower, Cloud);
  }

  /** The sun icon is chosen exactly when "sunny" or "clear" occurs; it
      wins over every later test. */
  lemma SunRule(condition: string)
    ensures var lower := Lower(condition);
      WeatherIcon(condition) == Sun <==> Includes(lower, "sunny") || Includes(lower, "clear")
  {
  }

  /** The cloud icon is chosen when "cloud" occurs without "sunny" or
      "clear", and by default when none of the six substrings occurs. */
  lemma CloudRule(condition: string)
    ensures var lower := Lower(condition);
      WeatherIcon(condition) == Cloud <==>
        !Includes(lower, "sunny") && !Includes(lower, "clear") &&
        (Includes(lower, "cloud") ||
         (!Includes(lower, "rain") && !Includes(lower, "drizzle") && !Includes(lower, "snow")))
  {
  }

  /** The rain icon is chosen exactly when "rain" or "drizzle" occurs and
      none of "sunny", "clear" and "cloud" does. */
  lemma RainRule(condition: string)
    ensures var lower := Lower(condition);
      WeatherIcon(condition) == CloudRain <==>
        (Includes(lower, "rain") || Includes(lower, "drizzle")) &&
        !Includes(lower, "sunny") && !Includes(lower, "clear") && !Includes(lower, "cloud")
  {
  }

  /** The snow icon is reached only when every earlier test fails. */
  lemma SnowRule(condition: string)
    ensures var lower := Lower(condition);
      WeatherIcon(condition) == CloudSnow <==>
        Includes(lower, "snow") &&
        !Includes(lower, "sunny") && !Includes(lower, "clear") && !Includes(lower, "cloud") &&
        !Includes(lower, "rain") && !Includes(lower, "drizzle")
  {
  }

  /** The icon depends only on the lowercased description. */
  lemma {:induction false} CaseInsensitive(condition: string)
    ensures WeatherIcon(condition) == WeatherIcon(Lower(condition))
  {
    LowerIdempotent(condition);
  }

  /** "sunny" or "clear" spelt in any mix of cases anywhere in the
      description gives the sun icon, whatever else the description says. */
  lemma {:induction false} SunInAnyCase(condition: string, word: string)
    requires Lower(word) == "sunny" || Lower(word) == "clear"
    requires Includes(condition, word)
    ensures WeatherIcon(condition) == Sun
  {
    IncludesLower(condition, word);
  }

  /** "rain" or "drizzle" spelt in any mix of cases gives the rain icon,
      unless an earlier test matches. */
  lemma {:induction false} RainInAnyCase(condition: string, word: string)
    requires Lower(word) == "rain" || Lower(word) == "drizzle"
    requires Includes(condition, word)
    requires var lower := Lower(condition);
      !Includes(lower, "sunny") && !Includes(lower, "clear") && !Includes(lower, "cloud")
    ensures WeatherIcon(condition) == CloudRain
  {
    IncludesLower(condition, word);
  }

  // The example lemmas below take the description as a parameter fixed by
  // `requires` rather than writing the literal into the `ensures`: the
  // solver unfolds a literal in a postcondition far more eagerly, and the
  // proofs stay cheap this way.

  /** A description naming both a clear sky and clouds resolves by
      precedence to the sun icon. */
  lemma {:induction false} ClearBeatsCloud(condition: string)
    requires condition == "clear with few clouds"
    ensures WeatherIcon(condition) == Sun
  {
    assert OccursAt(condition, "clear", 0);
    LowerUnchanged(condition);
  }

  /** "rain" alone does not force the rain icon: a description that also
      mentions clouds gets the cloud icon. */
  lemma {:induction false} RainAndClouds(condition: string)
    requires condition == "rain and clouds"
    ensures WeatherIcon(condition) == Cloud
  {
    assert !Includes(condition, "sunny") by { NotIncludes(condition, "sunny", 'y'); }
    assert !Includes(condition, "clear") by { NotIncludes(condition, "clear", 'e'); }
    assert OccursAt(condition, "cloud", 9);
    assert Lower(condition) == condition by { LowerUnchanged(condition); }
  }

  /** The capitalised description of the demonstration record gets the
      cloud icon. */
  lemma {:induction false} PartlyCloudy(condition: string)
    requires condition == "Partly Cloudy"
    ensures WeatherIcon(condition) == Cloud
  {
    NotIncludesLower(condition, "sunny", 'n');
    NotIncludesLower(condition, "clear", 'e');
    assert OccursAt(Lower(condition), "cloud", 7);
  }

  /** A provider description in the usual lowercase form. */
  lemma {:induction false} LightRainShowers(condition: string)
    requires condition == "light rain showers"
    ensures WeatherIcon(condition) == CloudRain
  {
    assert !Includes(condition, "sunny") by { NotIncludes(condition, "sunny", 'u'); }
    assert !Includes(condition, "clear") by { NotIncludes(condition, "clear", 'c'); }
    assert !Includes(condition, "cloud") by { NotIncludes(condition, "cloud", 'c'); }
    assert OccursAt(condition, "rain", 6);
    assert Lower(condition) == condition by { LowerUnchanged(condition); }
  }

  /** Snow is reached once the sun, cloud and rain tests have failed. */
  lemma {:induction false} LightSnow(condition: string)
    requires condition == "light snow"
    ensures WeatherIcon(condition) == CloudSnow
  {
    assert !Includes(condition, "sunny") by { NotIncludes(condition, "sunny", 'u'); }
    assert !Includes(condition, "clear") by { NotIncludes(condition, "clear", 'c'); }
    assert !Includes(condition, "cloud") by { NotIncludes(condition, "cloud", 'c'); }
    assert !Includes(condition, "rain") by { NotIncludes(condition, "rain", 'r'); }
    assert !Includes(condition, "drizzle") by { NotIncludes(condition, "drizzle", 'd'); }
    assert OccursAt(condition, "snow", 6);
    assert Lower(condition) == condition by { LowerUnchanged(condition); }
  }

  /** A description that matches no test falls back to the cloud icon. */
  lemma {:induction false} MistFallsBack(condition: string)
    requires condition == "mist"
    ensures WeatherIcon(condition) == Cloud
  {
    assert !Includes(condition, "sunny") by { NotIncludes(condition, "sunny", 'u'); }
    assert !Includes(condition, "clear") by { NotIncludes(condition, "clear", 'c'); }
    assert !Includes(condition, "cloud") by { NotIncludes(condition, "cloud", 'c'); }
    assert !Includes(condition, "rain") by { NotIncludes(condition, "rain", 'r'); }
    assert !Includes(condition, "drizzle") by { NotIncludes(condition, "drizzle", 'd'); }
    assert !Includes(condition, "snow") by { NotIncludes(condition, "snow", 'n'); }
    assert Lower(condition) == condition by { LowerUnchanged(condition); }
  }
}
