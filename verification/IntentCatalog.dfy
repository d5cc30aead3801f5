/** Keyword routing: match_intent (app/agents/intent_catalog.py). */
module IntentCatalog {
  import opened Wrappers

  /** A catalogue document, with whatever fields it happens to have. */
  datatype Intent = Intent(
    key: string, agent: Option<string>, examples: Option<seq<string>>, threshold: Option<real>)

  /** Python's `example in text`. */
  predicate Contains(text: string, example: string) {
    exists k {:trigger text[k..]} :: 0 <= k <= |text| && example <= text[k..]
  }

  function Examples(intent: Intent): seq<string> {
    if intent.examples.Some? then intent.examples.value else []
  }

  function Matches(text: string, examples: seq<string>): nat {
    if examples == [] then 0
    else Matches(text, examples[..|examples| - 1]) + if Contains(text, examples[|examples| - 1]) then 1 else 0
  }

  /** The fraction of an intent's examples found in the text. */
  function Confidence(text: string, intent: Intent): real
    requires Examples(intent) != []
  {
    Matches(text, Examples(intent)) as real / |Examples(intent)| as real
  }

  function Threshold(intent: Intent): real {
    if intent.threshold.Some? then intent.threshold.value else 0.0
  }

  predicate Allowed(intent: Intent, candidates: seq<string>) {
    intent.agent.Some? && intent.agent.value in candidates
  }

  predicate Qualifies(text: string, candidates: seq<string>, intent: Intent) {
    && Allowed(intent, candidates)
    && Examples(intent) != []
    && (exists i :: 0 <= i < |Examples(intent)| && Contains(text, Examples(intent)[i]))
    && Confidence(text, intent) >= Threshold(intent)
  }

  datatype Match = Match(key: string, agent: string, confidence: real)

  /** i is the first of the most confident qualifying intents. */
  predicate Winner(text: string, candidates: seq<string>, intents: seq<Intent>, i: nat) {
    && i < |intents| && Qualifies(text, candidates, intents[i])
    && (forall j | 0 <= j < |intents| && Qualifies(text, candidates, intents[j]) ::
          Confidence(text, intents[j]) <= Confidence(text, intents[i]))
    && (forall j | 0 <= j < i && Qualifies(text, candidates, intents[j]) ::
          Confidence(text, intents[j]) < Confidence(text, intents[i]))
  }

  lemma {:induction false} MatchesPositive(text: string, examples: seq<string>)
    ensures Matches(text, examples) > 0 <==> exists i :: 0 <= i < |examples| && Contains(text, examples[i])
    ensures Matches(text, examples) <= |examples|
  {
    if examples != [] {
      var front := examples[..|examples| - 1];
      MatchesPositive(text, front);
      if exists i :: 0 <= i < |examples| && Contains(text, examples[i]) {
        var i :| 0 <= i < |examples| && Contains(text, examples[i]);
        assert i < |front| ==> front[i] == examples[i];
      }
    }
  }

  ghost predicate AnyQualifies(text: string, candidates: seq<string>, intents: seq<Intent>) {
    exists j :: 0 <= j < |intents| && Qualifies(text, candidates, intents[j])
  }

  /** best is what the first n intents call for. */
  ghost predicate BestOf(text: string, candidates: seq<string>, intents: seq<Intent>, n: nat, best: Option<Match>, index: nat)
    requires n <= |intents|
  {
    && (best.None? <==> !AnyQualifies(text, candidates, intents[..n]))
    && (best.Some? ==>
          && Winner(text, candidates, intents[..n], index)
          && best.value == MatchOf(text, intents[index]))
  }

  function MatchOf(text: string, intent: Intent): Match
    requires Examples(intent) != [] && intent.agent.Some?
  {
    Match(intent.key, intent.agent.value, Confidence(text, intent))
  }

  /** An intent that does not qualify changes nothing. */
  lemma Skip(text: string, candidates: seq<string>, intents: seq<Intent>, n: nat, best: Option<Match>, index: nat)
    requires n < |intents| && BestOf(text, candidates, intents, n, best, index)
    requires !Qualifies(text, candidates, intents[n])
    ensures BestOf(text, candidates, intents, n + 1, best, index)
  {
    hide Qualifies, Confidence, MatchOf;
    assert intents[..n + 1] == intents[..n] + [intents[n]];
    assert forall j | 0 <= j < n :: intents[..n + 1][j] == intents[..n][j];
  }

  /** One that does takes over exactly when it is strictly more confident. */
  lemma Consider(text: string, candidates: seq<string>, intents: seq<Intent>, n: nat, best: Option<Match>, index: nat)
    requires n < |intents| && BestOf(text, candidates, intents, n, best, index)
    requires Qualifies(text, candidates, intents[n])
    ensures if best.None? || Confidence(text, intents[n]) > best.value.confidence
            then BestOf(text, candidates, intents, n + 1, Some(MatchOf(text, intents[n])), n)
            else BestOf(text, candidates, intents, n + 1, best, index)
  {
    hide Qualifies, Confidence;
    assert intents[..n + 1] == intents[..n] + [intents[n]];
    assert forall j | 0 <= j < n :: intents[..n + 1][j] == intents[..n][j];
    assert intents[..n + 1][n] == intents[n];
  }

  lemma {:induction false} BestExists(text: string, candidates: seq<string>, intents: seq<Intent>, n: nat)
    returns (best: Option<Match>, index: nat)
    requires n <= |intents|
    ensures BestOf(text, candidates, intents, n, best, index)
  {
    if n == 0 {
      best, index := None, 0;
    } else {
      best, index := BestExists(text, candidates, intents, n - 1);
      hide BestOf, Qualifies, Confidence;
      if Qualifies(text, candidates, intents[n - 1]) {
        Consider(text, candidates, intents, n - 1, best, index);
        if best.None? || Confidence(text, intents[n - 1]) > best.value.confidence {
          best, index := Some(MatchOf(text, intents[n - 1])), n - 1;
        }
      } else {
        Skip(text, candidates, intents, n - 1, best, index);
      }
    }
  }

  lemma WinnerExists(text: string, candidates: seq<string>, intents: seq<Intent>)
    requires AnyQualifies(text, candidates, intents)
    ensures exists i: nat :: Winner(text, candidates, intents, i)
  {
    var best, index := BestExists(text, candidates, intents, |intents|);
    assert intents[..|intents|] == intents;
  }

  /** The intent the catalogue calls for. */
  ghost function Chosen(text: string, candidates: seq<string>, intents: seq<Intent>): Option<Match> {
    if AnyQualifies(text, candidates, intents) then
      WinnerExists(text, candidates, intents);
      var i: nat :| Winner(text, candidates, intents, i);
      Some(MatchOf(text, intents[i]))
    else None
  }

  lemma ChosenIs(text: string, candidates: seq<string>, intents: seq<Intent>, index: nat)
    requires Winner(text, candidates, intents, index)
    ensures Chosen(text, candidates, intents) == Some(MatchOf(text, intents[index]))
  {
    hide Confidence;
    WinnerExists(text, candidates, intents);
    var i: nat :| Winner(text, candidates, intents, i) && Chosen(text, candidates, intents) == Some(MatchOf(text, intents[i]));
    WinnerIsUnique(text, candidates, intents, i, index);
  }

  method MatchIntent(text: string, candidates: seq<string>, intents: seq<Intent>)
    returns (best: Option<Match>, ghost index: nat)
    ensures best.None? <==> !AnyQualifies(text, candidates, intents)
    ensures best.Some? ==> Winner(text, candidates, intents, index) && best.value == MatchOf(text, intents[index])
    ensures best == Chosen(text, candidates, intents)
  {
    best, index := None, 0;
    assert BestOf(text, candidates, intents, 0, best, index);
    for n := 0 to |intents|
      invariant BestOf(text, candidates, intents, n, best, index)
    {
      hide Contains, Matches, BestOf, Winner;
      var intent := intents[n];
      if intent.agent.None? || intent.agent.value !in candidates || Examples(intent) == [] {
        Skip(text, candidates, intents, n, best, index);
        continue;
      }
      var examples := Examples(intent);
      var matches := CountMatches(text, examples);
      MatchesPositive(text, examples);
      if matches == 0 {
        Skip(text, candidates, intents, n, best, index);
        continue;
      }
      var confidence := matches as real / |examples| as real;
      if confidence < Threshold(intent) {
        Skip(text, candidates, intents, n, best, index);
        continue;
      }
      Consider(text, candidates, intents, n, best, index);
      if best.None? || confidence > best.value.confidence {
        best, index := Some(Match(intent.key, intent.agent.value, confidence)), n;
      }
    }
    assert intents[..|intents|] == intents;
    if best.Some? {
      ChosenIs(text, candidates, intents, index);
    }
  }

  method CountMatches(text: string, examples: seq<string>) returns (matches: nat)
    ensures matches == Matches(text, examples)
  {
    matches := 0;
    for i := 0 to |examples|
      invariant matches == Matches(text, examples[..i])
    {
      assert examples[..i + 1][..i] == examples[..i];
      if Contains(text, examples[i]) {
        matches := matches + 1;
      }
    }
    assert examples[..|examples|] == examples;
  }

  // ---- Qualifying, in plain terms ----

  /** The example stands somewhere in the text. */
  ghost predicate Occurs(text: string, example: string) {
    exists before, after :: text == before + example + after
  }

  lemma {:induction false} ContainsIff(text: string, example: string)
    ensures Contains(text, example) <==> Occurs(text, example)
  {
    if Contains(text, example) {
      var k :| 0 <= k <= |text| && example <= text[k..];
      assert text == text[..k] + example + text[k + |example|..];
    }
    if before, after :| text == before + example + after {
      assert text[|before|..] == example + after;
    }
  }

  /** The places of the examples that occur in the text. */
  ghost function Found(text: string, examples: seq<string>): set<nat> {
    set i: nat | i < |examples| && Occurs(text, examples[i])
  }

  lemma {:induction false} MatchesAreFound(text: string, examples: seq<string>)
    ensures Matches(text, examples) == |Found(text, examples)|
  {
    hide Contains, Occurs;
    if examples == [] {
      assert Found(text, examples) == {};
    } else {
      MatchesAreFound(text, examples[..|examples| - 1]);
      ContainsIff(text, examples[|examples| - 1]);
      FoundLast(text, examples);
      hide Found;
    }
  }

  lemma FoundLast(text: string, examples: seq<string>)
    requires examples != []
    ensures |Found(text, examples)| == |Found(text, examples[..|examples| - 1])| + if Occurs(text, examples[|examples| - 1]) then 1 else 0
  {
    hide Occurs;
    var n, front := |examples| - 1, examples[..|examples| - 1];
    var one := if Occurs(text, examples[n]) then {n} else {};
    forall i: nat ensures i in Found(text, examples) <==> i in Found(text, front) + one {
      assert i < n ==> front[i] == examples[i];
    }
    assert Found(text, examples) == Found(text, front) + one;
    assert n !in Found(text, front);
  }

  lemma AtLeast(m: nat, n: nat, x: real)
    requires n > 0
    ensures m as real / n as real >= x <==> m as real >= x * n as real
  {
    var q := m as real / n as real;
    assert q * n as real == m as real;
  }

  /** An intent qualifies exactly when its agent is allowed, at least one of its examples occurs in the text,
      and those that do are at least the threshold's share of them all; a missing threshold asks for none. */
  lemma {:induction false} QualifiesIff(text: string, candidates: seq<string>, intent: Intent)
    ensures Qualifies(text, candidates, intent) <==>
      && intent.agent.Some? && intent.agent.value in candidates && intent.examples.Some?
      && Found(text, intent.examples.value) != {}
      && (intent.threshold.Some? ==>
            |Found(text, intent.examples.value)| as real >= intent.threshold.value * |intent.examples.value| as real)
  {
    if intent.examples.Some? && intent.examples.value != [] {
      var examples := intent.examples.value;
      MatchesAreFound(text, examples);
      MatchesPositive(text, examples);
      EnoughFound(text, intent);
      NoneFound(Found(text, examples));
      hide Contains, Matches, Found, Confidence, Threshold, Allowed;
      assert Allowed(intent, candidates) <==> intent.agent.Some? && intent.agent.value in candidates by { AllowedIs(intent, candidates); }
    } else if intent.examples.Some? {
      assert Found(text, intent.examples.value) == {};
    }
  }

  lemma AllowedIs(intent: Intent, candidates: seq<string>)
    ensures Allowed(intent, candidates) <==> intent.agent.Some? && intent.agent.value in candidates
  {
  }

  lemma NoneFound(s: set<nat>)
    ensures s == {} <==> |s| == 0
  {
  }

  lemma EnoughFound(text: string, intent: Intent)
    requires intent.examples.Some? && intent.examples.value != []
    ensures Examples(intent) == intent.examples.value
    ensures Confidence(text, intent) >= Threshold(intent) <==>
      (intent.threshold.Some? ==>
         Matches(text, intent.examples.value) as real >= intent.threshold.value * |intent.examples.value| as real)
  {
    hide Matches;
    AtLeast(Matches(text, intent.examples.value), |intent.examples.value|, Threshold(intent));
    ThresholdZero(Matches(text, intent.examples.value), |intent.examples.value|);
  }

  lemma ThresholdZero(m: nat, n: nat)
    ensures m as real >= 0.0 * n as real
  {
  }

  /** What is chosen, in plain terms: the first of the qualifying intents with the largest share of examples
      found, with its key, its agent and that share; nothing exactly when none qualifies. */
  lemma {:induction false} ChosenIsFirstAndMost(text: string, candidates: seq<string>, intents: seq<Intent>) returns (i: nat)
    ensures Chosen(text, candidates, intents).None? <==> forall j | 0 <= j < |intents| :: !Qualifies(text, candidates, intents[j])
    ensures Chosen(text, candidates, intents).Some? ==>
      && i < |intents| && Qualifies(text, candidates, intents[i])
      && Chosen(text, candidates, intents).value
         == Match(intents[i].key, intents[i].agent.value, Share(text, intents[i]))
      && (forall j | 0 <= j < |intents| && Qualifies(text, candidates, intents[j]) :: Share(text, intents[j]) <= Share(text, intents[i]))
      && (forall j | 0 <= j < i && Qualifies(text, candidates, intents[j]) :: Share(text, intents[j]) < Share(text, intents[i]))
  {
    i := 0;
    if AnyQualifies(text, candidates, intents) {
      WinnerExists(text, candidates, intents);
      i :| Winner(text, candidates, intents, i);
      ChosenIs(text, candidates, intents, i);
      forall j | 0 <= j < |intents| && Qualifies(text, candidates, intents[j])
        ensures Confidence(text, intents[j]) == Share(text, intents[j])
      {
        ConfidenceIsShare(text, intents[j]);
      }
      hide Qualifies, Confidence, Share;
    }
  }

  /** The share of an intent's examples that occur in the text. */
  ghost function Share(text: string, intent: Intent): real {
    if intent.examples.Some? && intent.examples.value != []
    then |Found(text, intent.examples.value)| as real / |intent.examples.value| as real else 0.0
  }

  lemma ConfidenceIsShare(text: string, intent: Intent)
    requires Examples(intent) != []
    ensures Confidence(text, intent) == Share(text, intent)
  {
    hide Found, Matches;
    MatchesAreFound(text, Examples(intent));
  }

  /** A keyword of an intent that may be reached. */
  ghost predicate KeywordFound(text: string, candidates: seq<string>, intents: seq<Intent>, j: nat) {
    && j < |intents| && Allowed(intents[j], candidates)
    && exists i :: 0 <= i < |Examples(intents[j])| && Contains(text, Examples(intents[j])[i])
  }

  /** With thresholds of zero, one keyword is enough: the rule the catalogue replaced. */
  lemma {:induction false} ZeroThresholdIsAnyKeyword(text: string, candidates: seq<string>, intents: seq<Intent>)
    requires forall j | 0 <= j < |intents| :: Threshold(intents[j]) <= 0.0
    ensures AnyQualifies(text, candidates, intents) <==> exists j: nat :: KeywordFound(text, candidates, intents, j)
  {
    hide Contains, Matches;
    forall j | 0 <= j < |intents| && KeywordFound(text, candidates, intents, j)
      ensures Qualifies(text, candidates, intents[j])
    {
      FractionNonNegative(Matches(text, Examples(intents[j])), |Examples(intents[j])|);
    }
    forall j | 0 <= j < |intents| && Qualifies(text, candidates, intents[j])
      ensures KeywordFound(text, candidates, intents, j)
    {
    }
  }

  lemma FractionNonNegative(a: nat, b: nat)
    requires b > 0
    ensures a as real / b as real >= 0.0
  {
  }

  /** There is at most one winner, so the choice is determined by the catalogue alone. */
  lemma {:induction false} WinnerIsUnique(text: string, candidates: seq<string>, intents: seq<Intent>, i: nat, j: nat)
    requires Winner(text, candidates, intents, i) && Winner(text, candidates, intents, j)
    ensures i == j
  {
  }
}
