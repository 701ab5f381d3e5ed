/** The keyword heuristics `_is_positive_prompt` and `_is_negative_prompt` of
    metadata_extractor.py, which the node-array extraction falls back on for untitled
    prompt nodes. */
module PromptClassifier {
  import opened Text
  import opened PromptConfig

  /** Phrases that rule a text out as a positive prompt and in as a negative one. */
  const StrongNegativeIndicators: seq<string> := [
    "worst quality", "low quality", "bad", "ugly", "blurry",
    "distorted", "deformed", "amateur", "poor quality"
  ]

  /** Phrases that make a text a positive prompt unless a strong negative phrase is present. */
  const StrongPositiveIndicators: seq<string> := [
    "masterpiece", "best quality", "high quality", "detailed",
    "professional", "photorealistic", "stunning", "beautiful"
  ]

  /** `sum(1 for keyword in keywords if keyword in text)`. */
  function Score(keywords: seq<string>, text: string): (r: nat)
    ensures r <= |keywords|
  {
    if |keywords| == 0 then 0
    else (if Contains(text, keywords[0]) then 1 else 0) + Score(keywords[1..], text)
  }

  /** A score is positive exactly when some keyword occurs in the text. */
  lemma {:induction false} ScorePositive(keywords: seq<string>, text: string)
    ensures Score(keywords, text) > 0 <==> exists k :: 0 <= k < |keywords| && Contains(text, keywords[k])
  {
    if |keywords| > 0 {
      ScorePositive(keywords[1..], text);
      if exists k :: 0 <= k < |keywords| && Contains(text, keywords[k]) {
        var k :| 0 <= k < |keywords| && Contains(text, keywords[k]);
        if k > 0 {
          assert keywords[1..][k - 1] == keywords[k];
        }
      }
      if Score(keywords[1..], text) > 0 {
        var k :| 0 <= k < |keywords[1..]| && Contains(text, keywords[1..][k]);
        assert keywords[k + 1] == keywords[1..][k];
      }
    }
  }

  /** `_is_positive_prompt(text)`. */
  predicate IsPositivePrompt(rules: Ruleset, text: string)
    ensures IsPositivePrompt(rules, text) ==> text != "" && !ContainsAny(Lower(text), StrongNegativeIndicators)
  {
    if text == "" then false
    else
      var lower := Lower(text);
      var positiveScore := Score(rules.positiveKeywords, lower);
      var negativeScore := Score(rules.negativeKeywords, lower);
      if ContainsAny(lower, StrongNegativeIndicators) then false
      else if ContainsAny(lower, StrongPositiveIndicators) then true
      else
        var lengthBonus := if |text| > 50 then 1 else 0;
        positiveScore + lengthBonus > negativeScore && positiveScore > 0
  }

  /** `_is_negative_prompt(text)`. */
  predicate IsNegativePrompt(rules: Ruleset, text: string)
    ensures IsNegativePrompt(rules, text) ==> text != ""
    ensures text != "" && ContainsAny(Lower(text), StrongNegativeIndicators) ==> IsNegativePrompt(rules, text)
  {
    if text == "" then false
    else
      var lower := Lower(text);
      var negativeScore := Score(rules.negativeKeywords, lower);
      var positiveScore := Score(rules.positiveKeywords, lower);
      if ContainsAny(lower, StrongNegativeIndicators) then true
      else if negativeScore > positiveScore && negativeScore > 0 then true
      else if |text| < 100 && negativeScore > 0 then true
      else false
  }

  /** A strong negative phrase decides both classifiers, whatever the scores. */
  lemma StrongNegativeDecides(rules: Ruleset, text: string)
    requires text != "" && ContainsAny(Lower(text), StrongNegativeIndicators)
    ensures !IsPositivePrompt(rules, text) && IsNegativePrompt(rules, text)
  {
  }

  /** Without a strong negative phrase, a strong positive phrase makes the text positive. */
  lemma StrongPositiveDecides(rules: Ruleset, text: string)
    requires text != "" && !ContainsAny(Lower(text), StrongNegativeIndicators)
    requires ContainsAny(Lower(text), StrongPositiveIndicators)
    ensures IsPositivePrompt(rules, text)
  {
  }

  /** The positive classification in full: it needs a positive keyword unless a strong positive
      phrase decides it, and it never holds of the empty text. */
  lemma {:induction false} PositiveNeedsEvidence(rules: Ruleset, text: string)
    ensures IsPositivePrompt(rules, text) <==>
            text != "" && !ContainsAny(Lower(text), StrongNegativeIndicators)
            && (ContainsAny(Lower(text), StrongPositiveIndicators)
                || ((exists k :: 0 <= k < |rules.positiveKeywords| && Contains(Lower(text), rules.positiveKeywords[k]))
                    && Score(rules.positiveKeywords, Lower(text)) + (if |text| > 50 then 1 else 0)
                       > Score(rules.negativeKeywords, Lower(text))))
  {
    ScorePositive(rules.positiveKeywords, Lower(text));
  }

  /** A text is negative only through a strong negative phrase or a negative keyword; with no
      negative keyword and no strong phrase the answer is false. */
  lemma {:induction false} NegativeNeedsEvidence(rules: Ruleset, text: string)
    ensures IsNegativePrompt(rules, text) <==>
            text != "" && (ContainsAny(Lower(text), StrongNegativeIndicators)
                           || ((exists k :: 0 <= k < |rules.negativeKeywords| && Contains(Lower(text), rules.negativeKeywords[k]))
                               && (|text| < 100 || Score(rules.negativeKeywords, Lower(text))
                                                   > Score(rules.positiveKeywords, Lower(text)))))
  {
    ScorePositive(rules.negativeKeywords, Lower(text));
  }

  /** A quality complaint is read as a negative prompt and never as a positive one. */
  lemma WorstQualityIsNegative()
    ensures !IsPositivePrompt(DefaultRules, "worst quality, blurry, deformed")
    ensures IsNegativePrompt(DefaultRules, "worst quality, blurry, deformed")
  {
    var t := "worst quality, blurry, deformed";
    assert Lower(t) == t;
    assert StartsWith(t, "worst quality");
    assert Contains(t, "worst quality");
  }

  /** Lower case and free of what every shipped negative phrase needs: the letters n, d, w, g, f
      and v, and the pairs "oo", "bl" and "am". */
  predicate LacksNegativeMarkers(s: string) {
    CharFree(s, 'n') && CharFree(s, 'd') && CharFree(s, 'w') && CharFree(s, 'g') && CharFree(s, 'f')
    && CharFree(s, 'v') && PairFree(s, 'o', 'o') && PairFree(s, 'b', 'l') && PairFree(s, 'a', 'm')
    && Lower(s) == s
  }

  lemma LacksNegativeMarkersAppend(a: string, b: string)
    requires LacksNegativeMarkers(a) && LacksNegativeMarkers(b)
    requires |a| > 0 && a[|a| - 1] == ' '
    ensures LacksNegativeMarkers(a + b)
  {
    PairFreeAppend(a, b, 'o', 'o');
    PairFreeAppend(a, b, 'b', 'l');
    PairFreeAppend(a, b, 'a', 'm');
    assert Lower(a + b) == Lower(a) + Lower(b);
  }

  /** Such a text holds no strong negative phrase. */
  lemma NoStrongNegativeWithoutMarkers(s: string)
    requires LacksNegativeMarkers(s)
    ensures !ContainsAny(s, StrongNegativeIndicators)
  {
    var p := StrongNegativeIndicators;
    forall k | 0 <= k < |p| ensures !Contains(s, p[k]) {
      if k == 0 { AbsentCharNotContained(s, p[k], 0); }                     // w
      else if k == 1 || k == 2 { AbsentCharNotContained(s, p[k], 2); }                // d
      else if k == 3 { AbsentCharNotContained(s, p[k], 1); }                // g
      else if k == 4 { AbsentPairNotContained(s, p[k], 0); }                // bl
      else if k == 5 || k == 6 { AbsentCharNotContained(s, p[k], 0); }      // d
      else if k == 7 { AbsentPairNotContained(s, p[k], 0); }                // am
      else { AbsentPairNotContained(s, p[k], 1); }                          // oo
    }
    ContainsAnyExists(s, p);
  }

  /** Such a text holds none of the shipped negative keywords. */
  lemma NoNegativeKeywordWithoutMarkers(s: string)
    requires LacksNegativeMarkers(s)
    ensures forall k :: 0 <= k < |NegativeIndicators| ==> !Contains(s, NegativeIndicators[k])
  {
    var p := NegativeIndicators;
    forall k | 0 <= k < |p| ensures !Contains(s, p[k]) {
      if k == 0 || k == 10 { AbsentCharNotContained(s, p[k], 0); }          // n
      else if k == 1 { AbsentCharNotContained(s, p[k], 2); }                // d
      else if k == 2 { AbsentCharNotContained(s, p[k], 0); }                // w
      else if k == 3 { AbsentCharNotContained(s, p[k], 2); }                // w
      else if k == 4 { AbsentPairNotContained(s, p[k], 1); }                // oo
      else if k == 5 { AbsentPairNotContained(s, p[k], 0); }                // bl
      else if k == 6 || k == 8 { AbsentCharNotContained(s, p[k], 0); }      // d
      else if k == 7 { AbsentCharNotContained(s, p[k], 1); }                // g
      else if k == 9 { AbsentCharNotContained(s, p[k], 4); }                // f
      else if k == 11 { AbsentCharNotContained(s, p[k], 1); }               // v
      else if k == 12 { AbsentCharNotContained(s, p[k], 1); }               // n
      else if k == 13 { AbsentCharNotContained(s, p[k], 6); }               // d
      else { AbsentCharNotContained(s, p[k], 5); }                          // f
    }
  }

  lemma MasterpiecePieceLacksMarkers() ensures LacksNegativeMarkers("masterpiece, ") {}
  lemma BestQualityPieceLacksMarkers() ensures LacksNegativeMarkers("best quality, ") {}
  lemma PhotorealisticPieceLacksMarkers() ensures LacksNegativeMarkers("photorealistic ") {}
  lemma PortraitPieceLacksMarkers() ensures LacksNegativeMarkers("portrait") {}

  /** A lower-case text that opens with "masterpiece" and lacks the negative markers is positive
      and not negative under the shipped rules. */
  lemma MasterpieceOpeningIsPositive(t: string)
    requires LacksNegativeMarkers(t) && StartsWith(t, "masterpiece")
    ensures IsPositivePrompt(DefaultRules, t) && !IsNegativePrompt(DefaultRules, t)
  {
    NoStrongNegativeWithoutMarkers(t);
    NoNegativeKeywordWithoutMarkers(t);
    assert Contains(t, StrongPositiveIndicators[0]);
    StrongPositiveDecides(DefaultRules, t);
    NegativeNeedsEvidence(DefaultRules, t);
  }

  /** The pieces of "masterpiece, best quality, photorealistic portrait" put together lack the
      negative markers. */
  lemma PortraitTextLacksMarkers()
    ensures LacksNegativeMarkers("masterpiece, " + "best quality, " + "photorealistic " + "portrait")
  {
    var a, b, c, d := "masterpiece, ", "best quality, ", "photorealistic ", "portrait";
    MasterpiecePieceLacksMarkers();
    BestQualityPieceLacksMarkers();
    PhotorealisticPieceLacksMarkers();
    PortraitPieceLacksMarkers();
    LacksNegativeMarkersAppend(c, d);
    LacksNegativeMarkersAppend(b, c + d);
    LacksNegativeMarkersAppend(a, b + (c + d));
    assert a + b + c + d == a + (b + (c + d));
  }

  lemma PortraitTextOpening()
    ensures StartsWith("masterpiece, " + "best quality, " + "photorealistic " + "portrait", "masterpiece")
  {
    var a, rest := "masterpiece, ", "best quality, " + "photorealistic " + "portrait";
    assert "masterpiece, " + "best quality, " + "photorealistic " + "portrait" == a + rest;
    assert (a + rest)[..11] == a[..11];
  }

  /** A typical positive prompt, "masterpiece, best quality, photorealistic
      portrait", put together from four pieces. */
  const PortraitPrompt: string := "masterpiece, " + "best quality, " + "photorealistic " + "portrait"

  /** A quality boast is read as a positive prompt and never as a negative one. */
  lemma MasterpieceIsPositive()
    ensures IsPositivePrompt(DefaultRules, PortraitPrompt) && !IsNegativePrompt(DefaultRules, PortraitPrompt)
  {
    PortraitTextLacksMarkers();
    PortraitTextOpening();
    MasterpieceOpeningIsPositive(PortraitPrompt);
  }
}
