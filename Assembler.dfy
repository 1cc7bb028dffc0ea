/** The document assembler of frontend/src/components/PRDGenerator.tsx: pure
    string templating that turns five free-text form fields into a complete
    PRD record (title, objectives, user stories, requirements, acceptance
    criteria, metrics and risks). */
module Assembler {
  import opened Text
  import opened PrdTypes

  /** The five free-text fields the assembler reads from the form. */
  datatype Fields = Fields(
    problemStatement: string,
    targetAudience: string,
    goals: string,
    features: string,
    constraints: string)

  const TitlePrefix := "PRD: "
  const TitleSuffix := "..."
  const FallbackTitle := "Product Requirement Document"

  /** The title: "PRD: ", the first six space-separated pieces of the
      problem statement joined by single spaces, then "...". The fallback
      title is kept as in the source, but no input reaches it, because a
      split always has at least one piece. */
  function ExtractTitle(problemStatement: string): (title: string)
    ensures |title| > 0
  {
    var words := Take(Split(problemStatement), 6);
    if |words| > 0 then TitlePrefix + Join(words) + TitleSuffix else FallbackTitle
  }

  /** Every title is "PRD: " + text + "...", where the text is a prefix of
      the problem statement holding min(spaces, 5) of its spaces; the text is
      the whole statement exactly when the statement has at most five
      spaces, and otherwise it ends just before the sixth space. In
      particular the fallback title is never produced. */
  lemma {:induction false} ExtractTitleShape(problemStatement: string)
    ensures var title := ExtractTitle(problemStatement);
      && |title| >= |TitlePrefix| + |TitleSuffix|
      && title[..|TitlePrefix|] == TitlePrefix
      && title[|title| - |TitleSuffix|..] == TitleSuffix
      && title != FallbackTitle
      && var text := title[|TitlePrefix|..|title| - |TitleSuffix|];
      && text <= problemStatement
      && Count(text, ' ') == (if Count(problemStatement, ' ') <= 5 then Count(problemStatement, ' ') else 5)
      && (text == problemStatement <==> Count(problemStatement, ' ') <= 5)
      && (Count(problemStatement, ' ') > 5 ==> text + " " <= problemStatement)
  {
    var pieces := Split(problemStatement);
    var words := Take(pieces, 6);
    var text := Join(words);
    var title := TitlePrefix + text + TitleSuffix;
    assert ExtractTitle(problemStatement) == title;
    assert title[..|TitlePrefix|] == TitlePrefix;
    assert title[|title| - |TitleSuffix|..] == TitleSuffix;
    assert title[|TitlePrefix|..|title| - |TitleSuffix|] == text;
    assert title[1] == 'R' != FallbackTitle[1];
    JoinSplit(problemStatement);
    JoinCount(words);
    if |pieces| > 6 {
      JoinSplitAt(pieces, 6);
      assert pieces[..6] == words;
      assert problemStatement == text + " " + Join(pieces[6..]);
    } else {
      assert words == pieces;
    }
  }

  /** An empty problem statement still splits into one (empty) piece, so
      its title is "PRD: ..." and not the fallback. */
  lemma EmptyStatementTitle()
    ensures ExtractTitle("") == "PRD: ..."
  {
    assert Split("") == [""];
  }

  /** A statement with at most five spaces appears whole in its title. */
  lemma ShortStatementTitle(problemStatement: string)
    requires Count(problemStatement, ' ') <= 5
    ensures ExtractTitle(problemStatement) == TitlePrefix + problemStatement + TitleSuffix
  {
    JoinSplit(problemStatement);
  }

  const ObjectivePrefix := "Deliver a solution that addresses: "

  /** Four objectives: the first states the goals, the other three are
      fixed boilerplate. */
  function GenerateObjectives(goals: string): (objectives: seq<string>)
    ensures |objectives| == 4
    ensures ObjectivePrefix <= objectives[0] && objectives[0][|ObjectivePrefix|..] == goals
  {
    [
      ObjectivePrefix + goals,
      "Ensure user adoption meets target metrics",
      "Maintain system performance and reliability",
      "Provide measurable business value"
    ]
  }

  /** Only the first objective depends on the goals, and it determines them. */
  lemma ObjectivesDetermineGoals(goals1: string, goals2: string)
    ensures GenerateObjectives(goals1)[1..] == GenerateObjectives(goals2)[1..]
    ensures GenerateObjectives(goals1) == GenerateObjectives(goals2) <==> goals1 == goals2
  {
    if GenerateObjectives(goals1) == GenerateObjectives(goals2) {
      CancelPrefix(ObjectivePrefix, goals1, goals2);
    }
  }

  const StoryPrefix := "As a "
  const StoryUse := ", I want to use "
  const StoryUseSuffix := " so that I can achieve my goal."
  const StoryDesignSuffix := ", I want intuitive design so that I can use it easily."
  const StakeholderStory := "As a stakeholder, I want measurable metrics to track progress."

  /** Three user stories: the first names the audience and the features,
      the second the audience, the third is fixed. */
  function GenerateUserStories(audience: string, features: string): (stories: seq<string>)
    ensures |stories| == 3
    ensures stories[0] == StoryPrefix + audience + StoryUse + features + StoryUseSuffix
    ensures stories[1] == StoryPrefix + audience + StoryDesignSuffix
    ensures stories[2] == StakeholderStory
  {
    [
      StoryPrefix + audience + StoryUse + features + StoryUseSuffix,
      StoryPrefix + audience + StoryDesignSuffix,
      StakeholderStory
    ]
  }

  /** Only the first story depends on the features. The stories determine
      both the audience and the features: the second story fixes the
      audience, and with it the first fixes the features. */
  lemma UserStoriesDetermineInputs(audience1: string, features1: string, audience2: string, features2: string)
    ensures GenerateUserStories(audience1, features1)[1..] == GenerateUserStories(audience1, features2)[1..]
    ensures GenerateUserStories(audience1, features1) == GenerateUserStories(audience2, features2)
            <==> audience1 == audience2 && features1 == features2
  {
    var s1, s2 := GenerateUserStories(audience1, features1), GenerateUserStories(audience2, features2);
    if s1 == s2 {
      assert StoryPrefix + (audience1 + StoryDesignSuffix) == StoryPrefix + (audience2 + StoryDesignSuffix) by {
        assert s1[1] == s2[1];
        assert s1[1] == StoryPrefix + (audience1 + StoryDesignSuffix);
        assert s2[1] == StoryPrefix + (audience2 + StoryDesignSuffix);
      }
      CancelPrefix(StoryPrefix, audience1 + StoryDesignSuffix, audience2 + StoryDesignSuffix);
      CancelSuffix(audience1, audience2, StoryDesignSuffix);
      var lead := StoryPrefix + audience1 + StoryUse;
      assert lead + (features1 + StoryUseSuffix) == lead + (features2 + StoryUseSuffix) by {
        assert s1[0] == s2[0];
        assert s1[0] == lead + (features1 + StoryUseSuffix);
        assert s2[0] == StoryPrefix + audience2 + StoryUse + (features2 + StoryUseSuffix);
      }
      CancelPrefix(lead, features1 + StoryUseSuffix, features2 + StoryUseSuffix);
      CancelSuffix(features1, features2, StoryUseSuffix);
    }
  }

  const FunctionalHeader := "Functional Requirements:"
  const NonFunctionalHeader := "Non-Functional Requirements:"
  const ImplementPrefix := "- Implement "

  /** Nine requirement lines: a functional header, the features line, two
      fixed functional lines, a blank separator, a non-functional header and
      three fixed non-functional lines. Whatever the features, the headers and
      the blank line occur exactly at their fixed positions, and every other
      line is a "- " bullet. */
  function GenerateRequirements(features: string): (lines: seq<string>)
    ensures |lines| == 9
    ensures ImplementPrefix <= lines[1] && lines[1][|ImplementPrefix|..] == features
    ensures forall i :: 0 <= i < 9 ==> (lines[i] == FunctionalHeader <==> i == 0)
    ensures forall i :: 0 <= i < 9 ==> (lines[i] == "" <==> i == 4)
    ensures forall i :: 0 <= i < 9 ==> (lines[i] == NonFunctionalHeader <==> i == 5)
    ensures forall i :: 0 <= i < 9 && i != 0 && i != 4 && i != 5 ==> "- " <= lines[i]
  {
    var lines := [
      FunctionalHeader,
      ImplementPrefix + features,
      "- Responsive UI design",
      "- User authentication and authorization",
      "",
      NonFunctionalHeader,
      "- 99.9% uptime",
      "- Accessibility compliance",
      "- Secure data handling"
    ];
    assert lines[1][0] == '-' && lines[1][1] == ' ';
    assert lines[1] != FunctionalHeader && lines[1] != NonFunctionalHeader && lines[1] != "" by {
      assert lines[1][0] != FunctionalHeader[0] && lines[1][0] != NonFunctionalHeader[0];
    }
    lines
  }

  /** Only the features line depends on the features, and it determines them. */
  lemma RequirementsDetermineFeatures(features1: string, features2: string)
    ensures forall i :: 0 <= i < 9 && i != 1 ==> GenerateRequirements(features1)[i] == GenerateRequirements(features2)[i]
    ensures GenerateRequirements(features1) == GenerateRequirements(features2) <==> features1 == features2
  {
    if GenerateRequirements(features1) == GenerateRequirements(features2) {
      CancelPrefix(ImplementPrefix, features1, features2);
    }
  }

  /** Four fixed acceptance criteria, each a check-marked statement. */
  function GenerateAcceptanceCriteria(): (criteria: seq<string>)
    ensures |criteria| == 4
    ensures forall i :: 0 <= i < 4 ==> "✓ " <= criteria[i]
  {
    [
      "✓ Feature works as described",
      "✓ All user stories are satisfied",
      "✓ UI responsive on all devices",
      "✓ Performance benchmarks met"
    ]
  }

  /** Four fixed success metrics with literal targets. */
  function GenerateMetrics(): (metrics: seq<string>)
    ensures |metrics| == 4
    ensures metrics[0] == "User Adoption: 80% of target users within 30 days"
    ensures metrics[2] == "Quality: Less than 2% error rate"
  {
    [
      "User Adoption: 80% of target users within 30 days",
      "Performance: Task time reduced by 40%",
      "Quality: Less than 2% error rate",
      "Satisfaction: 4.5+ star user feedback"
    ]
  }

  const RiskPrefix := "Technical Risk: "
  const RiskFallback := "Integration challenges"

  /** Four risks: the first names the constraints, or the fallback phrase
      when they are empty (JavaScript's `||` treats "" as false); the other
      three are fixed. */
  function GenerateRisks(constraints: string): (risks: seq<string>)
    ensures |risks| == 4
    ensures RiskPrefix <= risks[0]
    ensures risks[0][|RiskPrefix|..] == if constraints != "" then constraints else RiskFallback
  {
    [
      RiskPrefix + (if constraints != "" then constraints else RiskFallback),
      "Timeline Risk: External dependencies",
      "User Adoption Risk: Training requirements",
      "Security Risk: Data privacy and compliance"
    ]
  }

  /** The risks determine the constraints, except that no constraints and
      the constraint "Integration challenges" give the same risks. */
  lemma RisksDetermineConstraints(constraints1: string, constraints2: string)
    ensures GenerateRisks(constraints1)[1..] == GenerateRisks(constraints2)[1..]
    ensures GenerateRisks(constraints1) == GenerateRisks(constraints2)
            <==> constraints1 == constraints2 || {constraints1, constraints2} == {"", RiskFallback}
  {
    var r1, r2 := GenerateRisks(constraints1), GenerateRisks(constraints2);
    if r1 == r2 {
      var shown1 := if constraints1 != "" then constraints1 else RiskFallback;
      var shown2 := if constraints2 != "" then constraints2 else RiskFallback;
      CancelPrefix(RiskPrefix, shown1, shown2);
    }
  }

  /** The record built by `generatePRD`: the five fields copied verbatim,
      the derived sections computed from them, `createdAt` the given time,
      and no identifier yet. */
  function Assemble(fields: Fields, now: Time): (prd: Prd)
    ensures FieldsOf(prd) == fields && prd.createdAt == now && prd.id == None
    ensures |prd.title| > 0
  {
    Prd(
      None,
      ExtractTitle(fields.problemStatement),
      fields.problemStatement,
      fields.targetAudience,
      fields.goals,
      fields.features,
      fields.constraints,
      GenerateObjectives(fields.goals),
      GenerateUserStories(fields.targetAudience, fields.features),
      GenerateRequirements(fields.features),
      GenerateAcceptanceCriteria(),
      GenerateMetrics(),
      GenerateRisks(fields.constraints),
      now)
  }

  /** The free-text fields of a record. */
  function FieldsOf(prd: Prd): Fields
  {
    Fields(prd.problemStatement, prd.targetAudience, prd.goals, prd.features, prd.constraints)
  }

  /** A record whose title and derived sections are those its own free-text
      fields generate. */
  predicate Consistent(prd: Prd)
  {
    && prd.title == ExtractTitle(prd.problemStatement)
    && prd.objectives == GenerateObjectives(prd.goals)
    && prd.userStories == GenerateUserStories(prd.targetAudience, prd.features)
    && prd.requirements == GenerateRequirements(prd.features)
    && prd.acceptanceCriteria == GenerateAcceptanceCriteria()
    && prd.metrics == GenerateMetrics()
    && prd.risks == GenerateRisks(prd.constraints)
  }

  /** Assembly is a pure function of the fields: two assemblies of equal
      fields differ at most in `createdAt`, and every assembled record is
      consistent. Conversely, two consistent records are equal as soon as
      their fields, identifier and time agree. */
  lemma AssembleDeterministic(fields: Fields, t1: Time, t2: Time)
    ensures Assemble(fields, t1) == Assemble(fields, t2).(createdAt := t1)
    ensures Consistent(Assemble(fields, t1))
  {
  }

  lemma ConsistentIsAssembled(prd: Prd)
    requires Consistent(prd) && prd.id == None
    ensures prd == Assemble(FieldsOf(prd), prd.createdAt)
  {
  }

  /** The derived sections alone recover the goals, the audience and the
      features, and the constraints up to the "Integration challenges"
      fallback. */
  lemma {:induction false} DerivedSectionsDetermineFields(f1: Fields, f2: Fields, t1: Time, t2: Time)
    requires var p1, p2 := Assemble(f1, t1), Assemble(f2, t2);
      p1.objectives == p2.objectives && p1.userStories == p2.userStories
      && p1.requirements == p2.requirements && p1.risks == p2.risks
    ensures f1.goals == f2.goals && f1.targetAudience == f2.targetAudience && f1.features == f2.features
    ensures f1.constraints == f2.constraints || {f1.constraints, f2.constraints} == {"", RiskFallback}
  {
    ObjectivesDetermineGoals(f1.goals, f2.goals);
    UserStoriesDetermineInputs(f1.targetAudience, f1.features, f2.targetAudience, f2.features);
    RisksDetermineConstraints(f1.constraints, f2.constraints);
  }
}
