/** The insight synthesis of the study-notes page (app/page.tsx): the bullet sanitiser,
    the four derived collections built from a `NotesOutput`, the guard that leaves them
    empty while there is no output, and the text the copy button assembles. */
module Insights {
  import opened Wrappers
  import opened Strings
  import opened Schemas

  datatype Recommendation = Recommendation(role: string, matchPercent: int, skills: seq<string>, futureScope: string)
  datatype SkillGap = SkillGap(focus: string, status: string, action: string)
  datatype RoadmapPhase = RoadmapPhase(title: string, detail: string, milestone: string)
  datatype MarketTrend = MarketTrend(region: string, shift: string, highlight: string)

  /** The bullet character U+2022. */
  const Bullet: char := '\U{2022}'

  /** The characters of the class `[-•]`. */
  predicate IsMarker(c: char) {
    c == '-' || c == Bullet
  }

  /** Replacement of the pattern `^[-•]\s*` by nothing: one marker in first position, with the whitespace
      after it. */
  function StripLeadingMarker(text: string): (r: string)
    ensures !(|text| > 0 && IsMarker(text[0])) ==> r == text
    ensures |text| > 0 && IsMarker(text[0]) ==>
            |r| < |text| && r == text[|text| - |r|..] && (r == [] || !IsWhitespace(r[0]))
    ensures |text| > 0 && IsMarker(text[0]) ==> forall k :: 1 <= k < |text| - |r| ==> IsWhitespace(text[k])
  {
    if |text| > 0 && IsMarker(text[0]) then
      TrimStartDropsWhitespace(text[1..]);
      TrimStart(text[1..])
    else text
  }

  /** `sanitizeBullet`. */
  function Sanitize(text: string): (r: string)
    ensures IsTrimmed(r)
  {
    Trim(StripLeadingMarker(text))
  }

  /** Sanitising removes at most one marker, and only one standing first; the rest is a
      plain trim. */
  lemma SanitizeRemovesAtMostOneMarker(text: string)
    ensures |text| > 0 && IsMarker(text[0]) ==> Sanitize(text) == Trim(text[1..])
    ensures !(|text| > 0 && IsMarker(text[0])) ==> Sanitize(text) == Trim(text)
  {
    if |text| > 0 && IsMarker(text[0]) {
      TrimAfterTrimStart(text[1..]);
    }
  }

  /** A sanitised item is empty exactly when what follows the optional marker is all
      whitespace. */
  lemma SanitizeEmptyIff(text: string)
    ensures var rest := if |text| > 0 && IsMarker(text[0]) then text[1..] else text;
            Sanitize(text) == "" <==> AllWhitespace(rest)
  {
    SanitizeRemovesAtMostOneMarker(text);
    var rest := if |text| > 0 && IsMarker(text[0]) then text[1..] else text;
    TrimEmptyIff(rest);
  }

  /** A marker in first position goes, together with the whitespace around the label:
      "- Foo" gives "Foo", "• Bar " gives "Bar", and since only one marker goes, "--Foo"
      gives "-Foo". */
  lemma SanitizeMarkedLabel(marker: char, gap: string, item: string, trail: string)
    requires IsMarker(marker) && AllWhitespace(gap) && AllWhitespace(trail) && IsTrimmed(item)
    ensures Sanitize([marker] + gap + item + trail) == item
  {
    var text := [marker] + gap + item + trail;
    assert text[1..] == gap + item + trail;
    SanitizeRemovesAtMostOneMarker(text);
    TrimPadded(gap, item, trail);
  }

  /** Text that does not open with a marker is only trimmed: "Plain" stays "Plain", and a
      marker behind indentation is not first and stays, so "  - Foo" gives "- Foo". */
  lemma SanitizeUnmarkedLabel(lead: string, item: string, trail: string)
    requires AllWhitespace(lead) && AllWhitespace(trail) && IsTrimmed(item)
    requires lead == [] ==> item == [] || !IsMarker(item[0])
    ensures Sanitize(lead + item + trail) == item
  {
    var text := lead + item + trail;
    if lead != [] {
      assert text[0] == lead[0];
    } else if item != [] {
      assert text[0] == item[0];
    } else {
      assert text == trail;
    }
    SanitizeRemovesAtMostOneMarker(text);
    TrimPadded(lead, item, trail);
  }

  /** "- Foo" gives "Foo". */
  lemma SanitizeDashExample()
    ensures Sanitize(['-'] + " " + "Foo") == "Foo"
  {
    SanitizeMarkedLabel('-', " ", "Foo", "");
    assert ['-'] + " " + "Foo" + "" == ['-'] + " " + "Foo";
  }

  /** "• Bar " gives "Bar". */
  lemma SanitizeBulletExample()
    ensures Sanitize([Bullet] + " " + "Bar" + " ") == "Bar"
  {
    SanitizeMarkedLabel(Bullet, " ", "Bar", " ");
  }

  /** "Plain" stays "Plain". */
  lemma SanitizePlainExample()
    ensures Sanitize("Plain") == "Plain"
  {
    SanitizeUnmarkedLabel("", "Plain", "");
    assert "" + "Plain" + "" == "Plain";
  }

  /** "--Foo" gives "-Foo". */
  lemma SanitizeDoubleMarkerExample()
    ensures Sanitize(['-'] + "-Foo") == "-Foo"
  {
    var item := "-Foo";
    assert (['-'] + item)[1..] == item;
    assert !IsWhitespace(item[0]) && !IsWhitespace(item[|item| - 1]);
    assert StripLeadingMarker(['-'] + item) == item;
    TrimOfTrimmed(item);
  }

  /** "  - Foo" gives "- Foo". */
  lemma SanitizeIndentedMarkerExample()
    ensures Sanitize("  " + "- Foo") == "- Foo"
  {
    SanitizeUnmarkedLabel("  ", "- Foo", "");
    assert "  " + "- Foo" + "" == "  " + "- Foo";
  }

  // ---------------------------------------------------------------- recommendations

  const VivaScope := "Excels in real-time articulation and coaching environments."
  const DefaultScope := "High potential for collaborative research and curriculum innovation."
  const OpportunityPlaceholder := "Opportunity "
  const RoleSuffix := " Strategist"
  const DefaultSkill := "Structured thinking"

  /** The exam-type term of the match score. */
  function DepthBoost(examType: string): int {
    if examType == "viva" then 6 else if examType == "final" then 10 else 4
  }

  /** `Math.min(98, 68 + depthBoost + index * 7)`. */
  function MatchScore(examType: string, index: nat): int {
    Min(98, 68 + DepthBoost(examType) + index * 7)
  }

  /** `key_concepts` when it has entries, `important_points` otherwise. */
  function RecommendationSource(notes: NotesOutput): seq<string> {
    if |notes.keyConcepts| > 0 then notes.keyConcepts else notes.importantPoints
  }

  /** The callback of `source.slice(0, 3).map(...)` in `buildRecommendations`. */
  function Recommend(notes: NotesOutput, examType: string, concept: string, index: nat): Recommendation {
    var clean := NonEmptyOr(Sanitize(concept), OpportunityPlaceholder + NatToString(index + 1));
    var pick := Coalesce(At(notes.importantPoints, index), Coalesce(At(notes.examTips, index), clean));
    var skills := [clean, NonEmptyOr(Sanitize(pick), DefaultSkill)];
    Recommendation(
      clean + RoleSuffix,
      MatchScore(examType, index),
      skills,
      if examType == "viva" then VivaScope else DefaultScope)
  }

  /** `buildRecommendations`. */
  function BuildRecommendations(notes: NotesOutput, examType: string): (r: seq<Recommendation>)
    ensures |r| == Min(3, |RecommendationSource(notes)|)
  {
    var source := RecommendationSource(notes);
    var n := Min(3, |source|);
    seq(n, i requires 0 <= i < n => Recommend(notes, examType, source[i], i))
  }

  /** One recommendation per source entry, at most three, the source being the key
      concepts unless there are none. */
  lemma RecommendationCount(notes: NotesOutput, examType: string)
    ensures |notes.keyConcepts| > 0 ==> |BuildRecommendations(notes, examType)| == Min(3, |notes.keyConcepts|)
    ensures |notes.keyConcepts| == 0 ==> |BuildRecommendations(notes, examType)| == Min(3, |notes.importantPoints|)
  {
  }

  /** The role label and the two skills of entry `i`: the cleaned source entry (never
      empty thanks to its placeholder), and the sanitised important point at `i`, else
      the exam tip at `i`, else the label itself, where each fallback applies only when
      the index is missing and "Structured thinking" only when the sanitised pick is empty. */
  lemma RecommendationLabels(notes: NotesOutput, examType: string, i: nat)
    requires i < |BuildRecommendations(notes, examType)|
    ensures i < 3 && i < |RecommendationSource(notes)|
    ensures var source := RecommendationSource(notes);
            var r := BuildRecommendations(notes, examType)[i];
            var clean := if Sanitize(source[i]) != "" then Sanitize(source[i]) else OpportunityPlaceholder + NatToString(i + 1);
            var pick := if i < |notes.importantPoints| then notes.importantPoints[i]
                        else if i < |notes.examTips| then notes.examTips[i]
                        else clean;
            && clean != ""
            && r.role == clean + RoleSuffix
            && |r.skills| == 2
            && r.skills[0] == clean
            && r.skills[1] == (if Sanitize(pick) != "" then Sanitize(pick) else DefaultSkill)
            && r.skills[1] != ""
  {
    var source := RecommendationSource(notes);
    assert BuildRecommendations(notes, examType)[i] == Recommend(notes, examType, source[i], i);
    RecommendLabels(notes, examType, source[i], i);
  }

  /** The labels of one recommendation, built from `concept` at index `i`. */
  lemma RecommendLabels(notes: NotesOutput, examType: string, concept: string, i: nat)
    ensures var r := Recommend(notes, examType, concept, i);
            var clean := if Sanitize(concept) != "" then Sanitize(concept) else OpportunityPlaceholder + NatToString(i + 1);
            var pick := if i < |notes.importantPoints| then notes.importantPoints[i]
                        else if i < |notes.examTips| then notes.examTips[i]
                        else clean;
            && clean != ""
            && r.role == clean + RoleSuffix
            && |r.skills| == 2
            && r.skills[0] == clean
            && r.skills[1] == (if Sanitize(pick) != "" then Sanitize(pick) else DefaultSkill)
            && r.skills[1] != ""
  {
  }

  /** The match score is 68 plus the exam-type boost plus 7 per index: it climbs by
      exactly 7 from one entry to the next and stays within 72..92, so the cap of 98
      never applies. */
  lemma RecommendationScores(notes: NotesOutput, examType: string, i: nat)
    requires i < |BuildRecommendations(notes, examType)|
    ensures var recs := BuildRecommendations(notes, examType);
            && recs[i].matchPercent == 68 + DepthBoost(examType) + 7 * i
            && 72 <= recs[i].matchPercent <= 92
            && (i + 1 < |recs| ==> recs[i + 1].matchPercent == recs[i].matchPercent + 7)
  {
    RecommendationMatch(notes, examType, i);
    MatchScoreRange(examType, i);
    if i + 1 < |BuildRecommendations(notes, examType)| {
      RecommendationMatch(notes, examType, i + 1);
      MatchScoreRange(examType, i + 1);
    }
  }

  lemma RecommendationMatch(notes: NotesOutput, examType: string, i: nat)
    requires i < |BuildRecommendations(notes, examType)|
    ensures i < 3 && BuildRecommendations(notes, examType)[i].matchPercent == MatchScore(examType, i)
  {
  }

  /** Below index 3 the cap of `Math.min` is never reached. */
  lemma MatchScoreRange(examType: string, i: nat)
    requires i < 3
    ensures MatchScore(examType, i) == 68 + DepthBoost(examType) + 7 * i
    ensures 72 <= MatchScore(examType, i) <= 92
  {
  }

  /** The future-scope text is the viva one exactly for a viva. */
  lemma RecommendationScope(notes: NotesOutput, examType: string, i: nat)
    requires i < |BuildRecommendations(notes, examType)|
    ensures BuildRecommendations(notes, examType)[i].futureScope == VivaScope <==> examType == "viva"
  {
    assert |VivaScope| != |DefaultScope|;
  }

  // ---------------------------------------------------------------- skill gaps

  const DefaultAction := "Revisit fundamentals with spaced repetition."
  const FocusPlaceholder := "Focus area "
  const Strength := "Strength"
  const NeedsPolish := "Needs polish"
  const PracticeMore := "Practice more"

  /** The status ladder of the skill gaps. */
  function GapStatus(index: nat): string {
    if index == 0 then Strength else if index == 1 then NeedsPolish else PracticeMore
  }

  /** The callback of `important_points.slice(0, 3).map(...)` in `buildSkillGaps`. */
  function Gap(notes: NotesOutput, point: string, index: nat): SkillGap {
    SkillGap(
      NonEmptyOr(Sanitize(point), FocusPlaceholder + NatToString(index + 1)),
      GapStatus(index),
      Sanitize(Coalesce(At(notes.examTips, index), Coalesce(At(notes.examTips, 0), DefaultAction))))
  }

  /** `buildSkillGaps`. */
  function BuildSkillGaps(notes: NotesOutput): (r: seq<SkillGap>)
    ensures |r| == Min(3, |notes.importantPoints|)
  {
    var n := Min(3, |notes.importantPoints|);
    seq(n, i requires 0 <= i < n => Gap(notes, notes.importantPoints[i], i))
  }

  /** One gap per important point, at most three; a focus that is never empty; the status
      ladder Strength / Needs polish / Practice more; and an action taken from the tip at
      the same index, else the first tip, the default sentence serving only when there are
      no tips at all, so that an action may well be empty. */
  lemma SkillGapRules(notes: NotesOutput, i: nat)
    ensures |BuildSkillGaps(notes)| == Min(3, |notes.importantPoints|)
    ensures i < |BuildSkillGaps(notes)| ==>
            var g := BuildSkillGaps(notes)[i];
            var point := notes.importantPoints[i];
            var tips := notes.examTips;
            && g.focus == (if Sanitize(point) != "" then Sanitize(point) else FocusPlaceholder + NatToString(i + 1))
            && g.focus != ""
            && g.status == (if i == 0 then Strength else if i == 1 then NeedsPolish else PracticeMore)
            && g.action == (if i < |tips| then Sanitize(tips[i]) else if |tips| > 0 then Sanitize(tips[0]) else DefaultAction)
  {
    if i < |BuildSkillGaps(notes)| {
      assert BuildSkillGaps(notes)[i] == Gap(notes, notes.importantPoints[i], i);
      GapFields(notes, notes.importantPoints[i], i);
    }
  }

  /** The fields of one gap, built from `point` at index `i`. */
  lemma GapFields(notes: NotesOutput, point: string, i: nat)
    ensures var g := Gap(notes, point, i);
            var tips := notes.examTips;
            && g.focus == (if Sanitize(point) != "" then Sanitize(point) else FocusPlaceholder + NatToString(i + 1))
            && g.focus != ""
            && g.status == (if i == 0 then Strength else if i == 1 then NeedsPolish else PracticeMore)
            && g.action == (if i < |tips| then Sanitize(tips[i]) else if |tips| > 0 then Sanitize(tips[0]) else DefaultAction)
  {
    if |notes.examTips| == 0 {
      assert !IsMarker(DefaultAction[0]);
      TrimOfTrimmed(DefaultAction);
    }
  }

  /** An action is not protected by a placeholder: a tip that is only a marker yields an
      empty action. */
  lemma EmptyActionPossible()
    ensures BuildSkillGaps(NotesOutput("T", [], ["Point"], ["-"]))[0].action == ""
  {
    SanitizeRemovesAtMostOneMarker("-");
  }

  // ---------------------------------------------------------------- roadmap

  const PhaseTitles: seq<string> := ["Foundation", "Application", "Confidence"]
  const DefaultDetail := "Apply concepts to realistic prompts."
  const PhasePlaceholder := "Phase "
  const Week1 := "Week 1"
  const Week2 := "Week 2"
  const FinalStretch := "Final stretch"

  /** The milestone ladder of the roadmap. */
  function Milestone(index: nat): string {
    if index == 0 then Week1 else if index == 1 then Week2 else FinalStretch
  }

  /** The callback of `exam_tips.slice(0, 3).map(...)` in `buildRoadmap`. */
  function Phase(tip: string, index: nat): RoadmapPhase {
    RoadmapPhase(
      Coalesce(At(PhaseTitles, index), PhasePlaceholder + NatToString(index + 1)),
      NonEmptyOr(Sanitize(tip), DefaultDetail),
      Milestone(index))
  }

  /** `buildRoadmap`. */
  function BuildRoadmap(notes: NotesOutput): (r: seq<RoadmapPhase>)
    ensures |r| == Min(3, |notes.examTips|)
  {
    var n := Min(3, |notes.examTips|);
    seq(n, i requires 0 <= i < n => Phase(notes.examTips[i], i))
  }

  /** One phase per tip, at most three; its title always comes from the fixed table (the
      "Phase n" fallback is never used), its milestone from the week ladder, and its
      detail from the sanitised tip or the placeholder, never empty. */
  lemma RoadmapRules(notes: NotesOutput, i: nat)
    ensures |BuildRoadmap(notes)| == Min(3, |notes.examTips|)
    ensures i < |BuildRoadmap(notes)| ==>
            var p := BuildRoadmap(notes)[i];
            && p.title == PhaseTitles[i]
            && p.milestone == (if i == 0 then Week1 else if i == 1 then Week2 else FinalStretch)
            && p.detail == (if Sanitize(notes.examTips[i]) != "" then Sanitize(notes.examTips[i]) else DefaultDetail)
            && p.detail != ""
  {
  }

  // ---------------------------------------------------------------- market trends

  const CommunicationFocus := "communication-first roles"
  const ResearchFocus := "research-heavy tracks"
  const AnalysisFocus := "analysis-ready internships"
  const NorthAmerica := "North America"
  const Europe := "Europe"
  const AsiaPacific := "Asia-Pacific"
  const NorthAmericaShift := "+8% openings"
  const EuropeShift := "Stable growth"
  const AsiaPacificShift := "+11% funding"
  const DemandPrefix := "Rising demand for "
  const DemandSuffix := " with cross-functional design skills."
  const EuropeHighlight := "Universities prioritise evidence-based learning science and multilingual delivery."
  const AsiaPacificHighlight := "Fast-growing edtech hubs need agile curriculum builders and mentoring talent."

  /** The phrase the North America highlight is built around. */
  function TrendFocus(examType: string): string {
    if examType == "viva" then CommunicationFocus
    else if examType == "final" then ResearchFocus
    else AnalysisFocus
  }

  /** `buildTrends`. */
  function BuildTrends(examType: string): (r: seq<MarketTrend>)
    ensures |r| == 3 && r[0].region == NorthAmerica && r[1].region == Europe && r[2].region == AsiaPacific
  {
    [
      MarketTrend(NorthAmerica, NorthAmericaShift, DemandPrefix + TrendFocus(examType) + DemandSuffix),
      MarketTrend(Europe, EuropeShift, EuropeHighlight),
      MarketTrend(AsiaPacific, AsiaPacificShift, AsiaPacificHighlight)
    ]
  }

  /** Only the North America highlight depends on the exam type, and only through its
      focus phrase. */
  lemma TrendsDependOnlyOnFocus(examType: string, other: string)
    ensures BuildTrends(examType)[1..] == BuildTrends(other)[1..]
    ensures BuildTrends(examType)[0].region == BuildTrends(other)[0].region
    ensures BuildTrends(examType)[0].shift == BuildTrends(other)[0].shift
    ensures BuildTrends(examType)[0].highlight == BuildTrends(other)[0].highlight <==>
            TrendFocus(examType) == TrendFocus(other)
  {
    var prefix, suffix := DemandPrefix, DemandSuffix;
    var a, b := TrendFocus(examType), TrendFocus(other);
    var x, y := prefix + a + suffix, prefix + b + suffix;
    if x == y {
      assert |a| == |b|;
      assert a == x[|prefix|..|prefix| + |a|];
      assert b == y[|prefix|..|prefix| + |b|];
    }
  }

  /** The three exam types give three different focus phrases. */
  lemma TrendFocusDistinct()
    ensures TrendFocus("viva") != TrendFocus("final")
    ensures TrendFocus("final") != TrendFocus("midterm")
    ensures TrendFocus("midterm") != TrendFocus("viva")
  {
    assert TrendFocus("viva")[0] == 'c';
    assert TrendFocus("final")[0] == 'r';
    assert TrendFocus("midterm")[0] == 'a';
  }

  // ---------------------------------------------------------------- page state

  datatype InsightViews = InsightViews(
    recommendations: seq<Recommendation>,
    skillGaps: seq<SkillGap>,
    roadmap: seq<RoadmapPhase>)

  /** The three memoised collections of the page: empty while no notes are shown. */
  function Views(output: Option<NotesOutput>, examType: string): (v: InsightViews)
    ensures output.None? ==> v.recommendations == [] && v.skillGaps == [] && v.roadmap == []
    ensures output.Some? ==> v.recommendations == BuildRecommendations(output.value, examType)
                             && v.skillGaps == BuildSkillGaps(output.value)
                             && v.roadmap == BuildRoadmap(output.value)
  {
    match output
    case None => InsightViews([], [], [])
    case Some(notes) => InsightViews(BuildRecommendations(notes, examType), BuildSkillGaps(notes), BuildRoadmap(notes))
  }

  // ---------------------------------------------------------------- copy to clipboard

  const KeyConceptsHeader := "\n## Key Concepts"
  const ImportantPointsHeader := "\n## Important Points"
  const ExamTipsHeader := "\n## Exam Tips"

  /** The array `copy` joins. */
  function CopyLines(notes: NotesOutput): (r: seq<string>)
    ensures var kc, ip, tips := |notes.keyConcepts|, |notes.importantPoints|, |notes.examTips|;
            && |r| == 4 + kc + ip + tips
            && r[0] == "# " + notes.title
            && r[1] == KeyConceptsHeader
            && r[2..2 + kc] == notes.keyConcepts
            && r[2 + kc] == ImportantPointsHeader
            && r[3 + kc..3 + kc + ip] == notes.importantPoints
            && r[3 + kc + ip] == ExamTipsHeader
            && r[4 + kc + ip..] == notes.examTips
  {
    ["# " + notes.title, KeyConceptsHeader] + notes.keyConcepts
    + [ImportantPointsHeader] + notes.importantPoints
    + [ExamTipsHeader] + notes.examTips
  }

  /** The clipboard text, or nothing when there are no notes (`copy` returns early). */
  function CopyText(output: Option<NotesOutput>): (r: Option<string>)
    ensures r.Some? <==> output.Some?
  {
    match output
    case None => None
    case Some(notes) => Some(Join("\n", CopyLines(notes)))
  }

  /** A header line and its items, each behind one line break. */
  function CopySection(header: string, items: seq<string>): string {
    "\n" + header + SepEach("\n", items)
  }

  /** The clipboard text is the title line followed by the three sections in order, every
      line after the first behind exactly one line break. */
  lemma CopyTextShape(notes: NotesOutput)
    ensures var text := CopyText(Some(notes)).value;
            && text == "# " + notes.title
                       + (CopySection(KeyConceptsHeader, notes.keyConcepts)
                          + CopySection(ImportantPointsHeader, notes.importantPoints)
                          + CopySection(ExamTipsHeader, notes.examTips))
            && "# " + notes.title + "\n" <= text
            && |text| == TotalLength(CopyLines(notes)) + |CopyLines(notes)| - 1
  {
    var lines := CopyLines(notes);
    var a := [KeyConceptsHeader] + notes.keyConcepts;
    var b := [ImportantPointsHeader] + notes.importantPoints;
    var c := [ExamTipsHeader] + notes.examTips;
    assert lines == ["# " + notes.title] + a + b + c;
    JoinOfRuns("\n", "# " + notes.title, a, b, c);
    SepEachCons("\n", KeyConceptsHeader, notes.keyConcepts);
    SepEachCons("\n", ImportantPointsHeader, notes.importantPoints);
    SepEachCons("\n", ExamTipsHeader, notes.examTips);
    JoinHead("\n", lines);
    JoinLength("\n", lines);
  }

  // ---------------------------------------------------------------- worked scenarios

  /** Without key concepts the important points are the source. */
  lemma ImportantPointsAsSource(examType: string)
    ensures var recs := BuildRecommendations(NotesOutput("T", [], ["Alpha", "Beta"], []), examType);
            |recs| == 2 && recs[0].matchPercent == 68 + DepthBoost(examType)
  {
    var notes := NotesOutput("T", [], ["Alpha", "Beta"], []);
    assert RecommendationSource(notes) == ["Alpha", "Beta"];
    RecommendationScores(notes, examType, 0);
  }

  /** A final exam with two key concepts, one important point and two tips. */
  lemma FinalExamScenario()
    ensures var notes := NotesOutput("T", ["A", "B"], ["C"], ["D", "E"]);
            && |BuildRecommendations(notes, "final")| == 2
            && BuildRecommendations(notes, "final")[0].matchPercent == 78
            && |BuildSkillGaps(notes)| == 1
            && BuildSkillGaps(notes)[0].status == Strength
            && |BuildRoadmap(notes)| == 2
            && BuildRoadmap(notes)[0].milestone == Week1
            && BuildRoadmap(notes)[1].milestone == Week2
  {
  }
}
