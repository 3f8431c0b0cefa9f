/**
 * The reading assembly of `src/lib/palmAnalysis.ts`: the text returned by the vision
 * model is turned into a `PalmReadingResult` from a summary of its first lines, fixed
 * text banks and bounded random draws. Every `Math.floor(Math.random() * n)` of the
 * source is a parameter `k` with `k < n`.
 */
module PalmAnalysis {
  import opened Common
  import opened Strings

  datatype LineReading = LineReading(description: string, interpretation: string, score: int)

  datatype PalmReadingResult = PalmReadingResult(
    id: string,
    summary: string,
    lifeLine: LineReading,
    heartLine: LineReading,
    headLine: LineReading,
    fateLine: Option<LineReading>,
    mounts: map<string, string>,
    personalityTraits: seq<string>,
    careerGuidance: string,
    relationshipInsights: string,
    healthIndicators: string,
    luckyNumbers: seq<int>,
    luckyColors: seq<string>,
    recommendations: seq<string>,
    confidence: int,
    timestamp: int)

  datatype CompatibilityReading = CompatibilityReading(
    compatibilityScore: int,
    strengths: seq<string>,
    challenges: seq<string>,
    advice: string)

  /** The random draws one analysis consumes, each below the bound the source multiplies by. */
  datatype Draws = Draws(
    lifeScore: nat, heartScore: nat, headScore: nat, fateScore: nat,
    traitCount: nat, career: nat, relationship: nat,
    luckyNumbers: seq<nat>, colorCount: nat, confidence: nat)

  predicate DrawsInRange(d: Draws) {
    && d.lifeScore < 10 && d.heartScore < 10 && d.headScore < 10 && d.fateScore < 10
    && d.traitCount < 3
    && d.career < |CareerBank| && d.relationship < |RelationshipBank|
    && LuckyDrawsInRange(d.luckyNumbers)
    && d.colorCount < 3
    && d.confidence < 20
  }

  const SummaryLimit: nat := 200
  const Ellipsis: string := "..."
  const AnalysisFailedMessage: string := "Failed to analyze palm image. Please try again."

  const MountNames: set<string> := {"venus", "jupiter", "saturn", "apollo", "mercury", "mars"}

  const TraitBank: seq<string> := [
    "Intuitive and spiritual",
    "Creative and artistic",
    "Empathetic and caring",
    "Strong-willed and determined",
    "Wise and thoughtful"
  ]

  const CareerBank: seq<string> := [
    "Your palm suggests success in creative fields or spiritual guidance",
    "Leadership roles and entrepreneurship align with your palm's energy",
    "Healing professions and counseling would suit your nature",
    "Teaching and mentoring others is your spiritual calling"
  ]

  const RelationshipBank: seq<string> := [
    "Your heart line indicates deep, meaningful relationships await you",
    "You have a gift for understanding others' emotions and needs",
    "Trust your intuition when it comes to matters of the heart",
    "Your compassionate nature attracts like-minded souls"
  ]

  const HealthText: string :=
    "Your palm suggests maintaining balance between physical, mental, and spiritual well-being through meditation and mindful practices."

  const ColorPalette: seq<string> := ["Amethyst Purple", "Sage Green", "Celestial Blue", "Rose Quartz Pink", "Golden Yellow"]

  const RecommendationBank: seq<string> := [
    "Practice daily meditation to enhance your spiritual connection",
    "Carry amethyst or clear quartz to amplify your intuitive abilities",
    "Trust your inner wisdom when making important decisions",
    "Surround yourself with positive, spiritually-minded individuals"
  ]

  const CompatibilityStrengths: seq<string> := [
    "Both share strong intuitive abilities",
    "Complementary life line energies create balance",
    "Heart lines suggest deep emotional connection"
  ]

  const CompatibilityChallenges: seq<string> := [
    "Different approaches to career goals may require understanding",
    "Communication styles need conscious alignment"
  ]

  const CompatibilityAdvice: string :=
    "Focus on your spiritual connection and practice open, heart-centered communication to strengthen your bond."

  // ---------------------------------------------------------------- summary

  /** `analysis.split('\n').slice(0, 3)`. */
  function FirstLines(analysis: string): (lines: seq<string>)
    ensures 1 <= |lines| <= 3
    ensures forall i :: 0 <= i < |lines| ==> '\n' !in lines[i]
  {
    var all := Split(analysis, '\n');
    all[..Min(3, |all|)]
  }

  /**
   * The summary: the first three lines joined by single spaces, cut to 200 characters,
   * and always followed by "...".
   */
  function ExtractSummary(analysis: string): (summary: string)
    ensures 3 <= |summary| <= SummaryLimit + 3
    ensures summary[|summary| - 3..] == Ellipsis
    ensures summary[..|summary| - 3] <= Join(FirstLines(analysis), " ")
    ensures |summary| - 3 == Min(SummaryLimit, |Join(FirstLines(analysis), " ")|)
    ensures '\n' !in summary
  {
    var lines := FirstLines(analysis);
    var joined := Join(lines, " ");
    NoNewlineInLiterals();
    JoinExcludes(lines, " ", '\n');
    var cut := joined[..Min(SummaryLimit, |joined|)];
    assert '\n' !in cut by {
      assert forall k :: 0 <= k < |cut| ==> cut[k] == joined[k];
    }
    var summary := cut + Ellipsis;
    assert summary[..|cut|] == cut;
    assert summary[|cut|..] == Ellipsis;
    summary
  }

  lemma NoNewlineInLiterals()
    ensures '\n' !in " " && '\n' !in Ellipsis && |Ellipsis| == 3
  {
    assert " " == [' '];
    assert Ellipsis == ['.', '.', '.'];
  }

  /** A single line of at most 200 characters comes back whole, followed by "...". */
  lemma SummaryOfShortLine(analysis: string)
    requires '\n' !in analysis && |analysis| <= SummaryLimit
    ensures ExtractSummary(analysis) == analysis + Ellipsis
  {
    SplitWithoutSeparator(analysis, '\n');
    assert FirstLines(analysis) == [analysis];
  }

  /** Newlines between the first three lines become single spaces; the fourth line onward is dropped. */
  lemma SummaryJoinsFirstThreeLines(a: string, b: string, c: string, rest: string)
    requires '\n' !in a && '\n' !in b && '\n' !in c
    requires |a| + |b| + |c| + 2 <= SummaryLimit
    ensures ExtractSummary(a + "\n" + b + "\n" + c + "\n" + rest) == a + " " + b + " " + c + Ellipsis
  {
    var s := a + "\n" + b + "\n" + c + "\n" + rest;
    SplitThreeLines(a, b, c, rest);
    assert FirstLines(s) == [a, b, c];
    JoinThree(a, b, c);
  }

  lemma SplitThreeLines(a: string, b: string, c: string, rest: string)
    requires '\n' !in a && '\n' !in b && '\n' !in c
    ensures Split(a + "\n" + b + "\n" + c + "\n" + rest, '\n') == [a, b, c] + Split(rest, '\n')
  {
    assert a + "\n" + b + "\n" + c + "\n" + rest == a + ['\n'] + (b + ['\n'] + (c + ['\n'] + rest));
    SplitAfterSegment(a, '\n', b + ['\n'] + (c + ['\n'] + rest));
    SplitAfterSegment(b, '\n', c + ['\n'] + rest);
    SplitAfterSegment(c, '\n', rest);
  }

  lemma JoinThree(a: string, b: string, c: string)
    ensures Join([a, b, c], " ") == a + " " + b + " " + c
  {
    assert [a, b, c][1..] == [b, c];
    assert [b, c][1..] == [c];
    assert Join([c], " ") == c;
    assert Join([b, c], " ") == b + " " + c;
  }

  // ---------------------------------------------------------------- palm lines

  function UpperAscii(c: char): char {
    if 'a' <= c <= 'z' then (c as int - 32) as char else c
  }

  /** `s.charAt(0).toUpperCase() + s.slice(1)` for ASCII letters. */
  function Capitalize(s: string): (r: string)
    ensures |r| == |s|
    ensures |s| > 0 ==> r[1..] == s[1..] && r[0] == UpperAscii(s[0])
  {
    if |s| == 0 then s else [UpperAscii(s[0])] + s[1..]
  }

  /**
   * One line reading: texts built around the line type (capitalised in the description),
   * and a score `draw + 1` in 1..10. The analysis text itself is not consulted.
   */
  function ExtractLineAnalysis(analysis: string, lineType: string, draw: nat): (line: LineReading)
    requires draw < 10
    ensures 1 <= line.score <= 10
    ensures |lineType| < |line.description| && line.description[..|lineType|] == Capitalize(lineType)
    ensures |lineType| + 5 < |line.interpretation| && line.interpretation[5..|lineType| + 5] == lineType
    ensures StartsWith(line.interpretation, "Your ")
  {
    var description := Capitalize(lineType) + " line analysis from your palm";
    var interpretation := "Your " + lineType + " line reveals important insights about your spiritual journey";
    assert description[..|lineType|] == Capitalize(lineType);
    assert interpretation[5..|lineType| + 5] == lineType;
    LineReading(description, interpretation, draw + 1)
  }

  // ---------------------------------------------------------------- fixed banks

  /** The six mount texts, keyed by mount. */
  const MountTexts: map<string, string> := map[
    "venus" := "Mount of Venus shows strong emotional nature",
    "jupiter" := "Mount of Jupiter indicates leadership qualities",
    "saturn" := "Mount of Saturn reveals wisdom and patience",
    "apollo" := "Mount of Apollo shows creative abilities",
    "mercury" := "Mount of Mercury indicates communication skills",
    "mars" := "Mount of Mars reveals courage and determination"
  ]

  /** The six mounts, each with a fixed text naming it; the analysis text is not consulted. */
  function ExtractMountsAnalysis(analysis: string): (mounts: map<string, string>)
    ensures mounts.Keys == MountNames
    ensures forall m :: m in mounts ==> StartsWith(mounts[m], "Mount of " + Capitalize(m))
  {
    MountTextsNameTheirMount();
    MountTexts
  }

  /** The mounts are the same six fixed texts whatever the model's analysis says. */
  lemma MountsIgnoreAnalysis(a: string, b: string)
    ensures ExtractMountsAnalysis(a) == ExtractMountsAnalysis(b) == MountTexts
  {
  }

  /** Each of the six fixed texts opens with "Mount of" and the capitalised name of its key. */
  lemma MountTextsNameTheirMount()
    ensures MountTexts.Keys == MountNames
    ensures forall m :: m in MountTexts ==> StartsWith(MountTexts[m], "Mount of " + Capitalize(m))
  {
    forall m | m in MountTexts
      ensures StartsWith(MountTexts[m], "Mount of " + Capitalize(m))
    {
      if m == "venus" {
        VenusTextNamesMount();
      } else if m == "jupiter" {
        JupiterTextNamesMount();
      } else if m == "saturn" {
        SaturnTextNamesMount();
      } else if m == "apollo" {
        ApolloTextNamesMount();
      } else if m == "mercury" {
        MercuryTextNamesMount();
      } else {
        MarsTextNamesMount();
      }
    }
  }

  lemma VenusTextNamesMount()
    ensures StartsWith("Mount of Venus shows strong emotional nature", "Mount of " + Capitalize("venus"))
  {
    assert "Mount of Venus shows strong emotional nature" == "Mount of " + "Venus" + " shows strong emotional nature";
    MountTextNamesMount("venus", "Venus", " shows strong emotional nature");
  }

  lemma JupiterTextNamesMount()
    ensures StartsWith("Mount of Jupiter indicates leadership qualities", "Mount of " + Capitalize("jupiter"))
  {
    assert "Mount of Jupiter indicates leadership qualities" == "Mount of " + "Jupiter" + " indicates leadership qualities";
    MountTextNamesMount("jupiter", "Jupiter", " indicates leadership qualities");
  }

  lemma SaturnTextNamesMount()
    ensures StartsWith("Mount of Saturn reveals wisdom and patience", "Mount of " + Capitalize("saturn"))
  {
    assert "Mount of Saturn reveals wisdom and patience" == "Mount of " + "Saturn" + " reveals wisdom and patience";
    MountTextNamesMount("saturn", "Saturn", " reveals wisdom and patience");
  }

  lemma ApolloTextNamesMount()
    ensures StartsWith("Mount of Apollo shows creative abilities", "Mount of " + Capitalize("apollo"))
  {
    assert "Mount of Apollo shows creative abilities" == "Mount of " + "Apollo" + " shows creative abilities";
    MountTextNamesMount("apollo", "Apollo", " shows creative abilities");
  }

  lemma MercuryTextNamesMount()
    ensures StartsWith("Mount of Mercury indicates communication skills", "Mount of " + Capitalize("mercury"))
  {
    assert "Mount of Mercury indicates communication skills" == "Mount of " + "Mercury" + " indicates communication skills";
    MountTextNamesMount("mercury", "Mercury", " indicates communication skills");
  }

  lemma MarsTextNamesMount()
    ensures StartsWith("Mount of Mars reveals courage and determination", "Mount of " + Capitalize("mars"))
  {
    assert "Mount of Mars reveals courage and determination" == "Mount of " + "Mars" + " reveals courage and determination";
    MountTextNamesMount("mars", "Mars", " reveals courage and determination");
  }

  lemma MountTextNamesMount(m: string, name: string, tail: string)
    requires Capitalize(m) == name
    ensures StartsWith("Mount of " + name + tail, "Mount of " + Capitalize(m))
  {
    assert ("Mount of " + name + tail)[..9 + |name|] == "Mount of " + name;
  }

  /** `traits.slice(0, draw + 3)`: a prefix of the fixed list with three to five entries. */
  function ExtractPersonalityTraits(analysis: string, draw: nat): (traits: seq<string>)
    requires draw < 3
    ensures 3 <= |traits| <= 5 && |traits| == draw + 3
    ensures traits <= TraitBank
  {
    TraitBank[..draw + 3]
  }

  /** `careers[draw]`: one of the four career sentences. */
  function ExtractCareerGuidance(analysis: string, draw: nat): (guidance: string)
    requires draw < |CareerBank|
    ensures guidance in CareerBank
  {
    CareerBank[draw]
  }

  /** `insights[draw]`: one of the four relationship sentences. */
  function ExtractRelationshipInsights(analysis: string, draw: nat): (insight: string)
    requires draw < |RelationshipBank|
    ensures insight in RelationshipBank
  {
    RelationshipBank[draw]
  }

  function ExtractHealthIndicators(analysis: string): string {
    HealthText
  }

  function ExtractRecommendations(analysis: string): seq<string> {
    RecommendationBank
  }

  /** The health text is fixed: the analysis text is not consulted. */
  lemma HealthIgnoresAnalysis(a: string, b: string)
    ensures ExtractHealthIndicators(a) == ExtractHealthIndicators(b) == HealthText
  {
  }

  /** The four recommendations are fixed: the analysis text is not consulted. */
  lemma RecommendationsIgnoreAnalysis(a: string, b: string)
    ensures ExtractRecommendations(a) == ExtractRecommendations(b) == RecommendationBank
  {
  }

  // ---------------------------------------------------------------- lucky numbers and colours

  predicate LuckyDrawsInRange(draws: seq<nat>) {
    |draws| == 5 && forall i :: 0 <= i < |draws| ==> draws[i] < 99
  }

  /** The five lucky numbers the loop of `generateLuckyNumbers` pushes, each in 1..99. */
  function LuckyNumbers(draws: seq<nat>): (numbers: seq<int>)
    requires LuckyDrawsInRange(draws)
    ensures |numbers| == 5
    ensures forall i :: 0 <= i < |numbers| ==> 1 <= numbers[i] <= 99
  {
    seq(5, i requires 0 <= i < 5 => draws[i] + 1)
  }

  /** `generateLuckyNumbers`: five pushes of `Math.floor(Math.random() * 99) + 1`. */
  method GenerateLuckyNumbers(draws: seq<nat>) returns (numbers: seq<int>)
    requires LuckyDrawsInRange(draws)
    ensures numbers == LuckyNumbers(draws)
  {
    numbers := [];
    var i := 0;
    while i < 5
      invariant 0 <= i <= 5
      invariant |numbers| == i
      invariant forall j :: 0 <= j < i ==> numbers[j] == draws[j] + 1
    {
      numbers := numbers + [draws[i] + 1];
      i := i + 1;
    }
  }

  /** `colors.slice(0, draw + 2)`: a prefix of the palette with two to four colours. */
  function GenerateLuckyColors(draw: nat): (colors: seq<string>)
    requires draw < 3
    ensures 2 <= |colors| <= 4 && |colors| == draw + 2
    ensures colors <= ColorPalette
  {
    ColorPalette[..draw + 2]
  }

  // ---------------------------------------------------------------- confidence and compatibility

  /** `Math.floor(Math.random() * 20) + 80`: between 80 and 99, never 100. */
  function CalculateConfidence(analysis: string, draw: nat): (confidence: int)
    requires draw < 20
    ensures 80 <= confidence <= 99
  {
    draw + 80
  }

  /** The compatibility reading: score 60..99, three fixed strengths, two fixed challenges. */
  function GenerateCompatibilityReading(userReading: PalmReadingResult, partnerReading: PalmReadingResult, draw: nat)
    : (c: CompatibilityReading)
    requires draw < 40
    ensures 60 <= c.compatibilityScore <= 99
    ensures |c.strengths| == 3 && |c.challenges| == 2
  {
    CompatibilityReading(draw + 60, CompatibilityStrengths, CompatibilityChallenges, CompatibilityAdvice)
  }

  // ---------------------------------------------------------------- assembly

  predicate ValidLine(line: LineReading) {
    1 <= line.score <= 10
  }

  /** The range guarantees every assembled reading satisfies. */
  predicate WellFormed(r: PalmReadingResult) {
    && |r.summary| <= SummaryLimit + 3
    && ValidLine(r.lifeLine) && ValidLine(r.heartLine) && ValidLine(r.headLine)
    && (r.fateLine.Some? ==> ValidLine(r.fateLine.value))
    && r.mounts.Keys == MountNames
    && 3 <= |r.personalityTraits| <= 5 && r.personalityTraits <= TraitBank
    && r.careerGuidance in CareerBank
    && r.relationshipInsights in RelationshipBank
    && |r.luckyNumbers| == 5 && (forall i :: 0 <= i < |r.luckyNumbers| ==> 1 <= r.luckyNumbers[i] <= 99)
    && 2 <= |r.luckyColors| <= 4 && r.luckyColors <= ColorPalette
    && 80 <= r.confidence <= 99
  }

  /** The result record of `analyzePalmImage`, built field by field from the helpers. */
  function Assemble(analysis: string, d: Draws, id: string, timestamp: int): (r: PalmReadingResult)
    requires DrawsInRange(d)
    // the id and the time come from the caller, the summary from the text, and all four lines are present
    ensures r.id == id && r.timestamp == timestamp
    ensures r.summary == ExtractSummary(analysis)
    ensures r.fateLine.Some?
  {
    PalmReadingResult(
      id,
      ExtractSummary(analysis),
      ExtractLineAnalysis(analysis, "life", d.lifeScore),
      ExtractLineAnalysis(analysis, "heart", d.heartScore),
      ExtractLineAnalysis(analysis, "head", d.headScore),
      Some(ExtractLineAnalysis(analysis, "fate", d.fateScore)),
      ExtractMountsAnalysis(analysis),
      ExtractPersonalityTraits(analysis, d.traitCount),
      ExtractCareerGuidance(analysis, d.career),
      ExtractRelationshipInsights(analysis, d.relationship),
      ExtractHealthIndicators(analysis),
      LuckyNumbers(d.luckyNumbers),
      GenerateLuckyColors(d.colorCount),
      ExtractRecommendations(analysis),
      CalculateConfidence(analysis, d.confidence),
      timestamp)
  }

  lemma AssembledWellFormed(analysis: string, d: Draws, id: string, timestamp: int)
    requires DrawsInRange(d)
    ensures WellFormed(Assemble(analysis, d, id, timestamp))
    ensures Assemble(analysis, d, id, timestamp).fateLine.Some?
  {
    var r := Assemble(analysis, d, id, timestamp);
    assert ValidLine(r.lifeLine) && ValidLine(r.heartLine) && ValidLine(r.headLine);
    assert ValidLine(r.fateLine.value);
    assert r.mounts.Keys == MountNames;
    assert 3 <= |r.personalityTraits| <= 5 && r.personalityTraits <= TraitBank;
    assert |r.luckyNumbers| == 5;
    assert 2 <= |r.luckyColors| <= 4 && r.luckyColors <= ColorPalette;
  }

  /**
   * `analyzePalmImage` after the model call: no content (or an empty one) throws,
   * otherwise the result is assembled from the helpers. `content` is the message the
   * vision model returned (None when the call failed or returned none); `id` and
   * `timestamp` stand for `generateReadingId()` and `new Date()`.
   */
  function AnalyzePalmImage(content: Option<string>, d: Draws, id: string, timestamp: int)
    : (r: Result<PalmReadingResult, string>)
    requires DrawsInRange(d)
    ensures r.Failure? <==> content.None? || content.value == ""
    ensures r.Failure? ==> r.error == AnalysisFailedMessage
    ensures r.Success? ==> WellFormed(r.value)
    ensures r.Success? ==> r.value.fateLine.Some?
    ensures r.Success? ==> r.value.summary == ExtractSummary(content.value)
    ensures r.Success? ==> r.value.id == id && r.value.timestamp == timestamp
  {
    if content.None? || content.value == "" then Failure(AnalysisFailedMessage)
    else
      var reading := Assemble(content.value, d, id, timestamp);
      AssembledWellFormed(content.value, d, id, timestamp);
      Success(reading)
  }

  /** No draw makes the confidence reach 100, whatever the text. */
  lemma ConfidenceNeverHundred(content: Option<string>, d: Draws, id: string, timestamp: int)
    requires DrawsInRange(d)
    ensures AnalyzePalmImage(content, d, id, timestamp).Success? ==>
              AnalyzePalmImage(content, d, id, timestamp).value.confidence != 100
  {
  }
}
