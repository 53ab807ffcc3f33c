/**
 * The prompt text that the "Build with Lovable" dialog assembles from the
 * project description and the (optional) breakdown
 * (src/components/BuildWithLovableModal.tsx, generatePrompt).
 *
 * The source grows a local string with `+=` inside `forEach` loops; the method
 * `GeneratePrompt` does the same and is proved equal to `PromptText`, a
 * definition by sections. The lemmas below then state the layout of that text.
 */
module LovablePrompt {
  import opened Wrappers
  import opened ProjectTypes
  import opened Decimal
  import opened Strings

  const IntroPrefix: string := "I want to build a web application with the following description:\n\n"
  const FeaturesHeading: string := "The application should include the following features:\n\n"
  const StoriesHeading: string := "   User Stories:\n"
  const TechHeading: string := "Technical constraints and components to use:\n"
  const Closing: string :=
    "Please create a responsive, modern web application based on these requirements using React, Typescript, and Tailwind CSS. Start by showing me a basic structure of the main page with navigation and key components."

  /** The opening paragraph: the fixed sentence, the description, a blank line. */
  function Intro(description: string): string {
    IntroPrefix + description + "\n\n"
  }

  /** `${index + 1}. ${name}: ${description}\n` for the feature numbered `number`. */
  function FeatureLine(number: nat, feature: UserStory): string {
    DecimalString(number) + ". " + feature.name + ": " + feature.description + "\n"
  }

  function StoryLine(index: nat, story: string): string {
    "   - " + story + "\n"
  }

  /** One story line per story, in list order. */
  function StoryLines(stories: seq<string>): string {
    RenderAll(stories, StoryLine)
  }

  /** The user-story block of one feature: present only when it has stories. */
  function StoriesBlock(stories: seq<string>): string {
    if |stories| > 0 then StoriesHeading + StoryLines(stories) else ""
  }

  /** Everything written for the feature at `index`: numbered `index + 1`, closed by an empty line. */
  function FeatureBlock(index: nat, feature: UserStory): string {
    FeatureLine(index + 1, feature) + StoriesBlock(feature.userStories) + "\n"
  }

  /** One block per feature, in list order, the i-th (from 0) numbered i + 1. */
  function FeatureBlocks(features: seq<UserStory>): string {
    RenderAll(features, FeatureBlock)
  }

  predicate HasFeatures(breakdown: Option<Breakdown>) {
    breakdown.Some? && |breakdown.value.features| > 0
  }

  predicate HasTechnicalComponents(breakdown: Option<Breakdown>) {
    breakdown.Some? && |breakdown.value.technicalComponents| > 0
  }

  function FeaturesSection(breakdown: Option<Breakdown>): string {
    if HasFeatures(breakdown) then FeaturesHeading + FeatureBlocks(breakdown.value.features) else ""
  }

  function TechLine(index: nat, tech: string): string {
    "- " + tech + "\n"
  }

  /** One `- {tech}` line per technical component, in list order. */
  function TechLines(techs: seq<string>): string {
    RenderAll(techs, TechLine)
  }

  function TechSection(breakdown: Option<Breakdown>): string {
    if HasTechnicalComponents(breakdown)
    then TechHeading + TechLines(breakdown.value.technicalComponents) + "\n"
    else ""
  }

  /** The whole prompt, section by section. */
  function PromptText(description: string, breakdown: Option<Breakdown>): string {
    Intro(description) + FeaturesSection(breakdown) + TechSection(breakdown) + Closing
  }

  /**
   * The string that generatePrompt stores, built by appending as the source does:
   * each `+=` of a template literal is one append of the function that renders it.
   */
  method GeneratePrompt(projectDescription: string, breakdown: Option<Breakdown>) returns (prompt: string)
    ensures prompt == PromptText(projectDescription, breakdown)
  {
    prompt := "";
    prompt := prompt + Intro(projectDescription);
    assert prompt == Intro(projectDescription);

    if breakdown.Some? && |breakdown.value.features| > 0 {
      var features := breakdown.value.features;
      prompt := prompt + FeaturesHeading;
      ghost var afterHeading := prompt;
      var index := 0;
      assert features[..0] == [];
      while index < |features|
        invariant 0 <= index <= |features|
        invariant prompt == afterHeading + FeatureBlocks(features[..index])
      {
        RenderAllSnoc(features, FeatureBlock, index);
        AppendAssoc(afterHeading, FeatureBlocks(features[..index]), FeatureBlock(index, features[index]));
        prompt := AppendFeature(prompt, features[index], index);
        index := index + 1;
      }
      assert features[..index] == features;
      AppendAssoc(Intro(projectDescription), FeaturesHeading, FeatureBlocks(features));
    }
    assert prompt == Intro(projectDescription) + FeaturesSection(breakdown);
    ghost var afterFeatures := prompt;

    if breakdown.Some? && |breakdown.value.technicalComponents| > 0 {
      var techs := breakdown.value.technicalComponents;
      prompt := prompt + TechHeading;
      ghost var afterTechHeading := prompt;
      var i := 0;
      assert techs[..0] == [];
      while i < |techs|
        invariant 0 <= i <= |techs|
        invariant prompt == afterTechHeading + TechLines(techs[..i])
      {
        RenderAllSnoc(techs, TechLine, i);
        AppendAssoc(afterTechHeading, TechLines(techs[..i]), TechLine(i, techs[i]));
        prompt := prompt + TechLine(i, techs[i]);
        i := i + 1;
      }
      assert techs[..i] == techs;
      prompt := prompt + "\n";
      AppendAssoc3(afterFeatures, TechHeading, TechLines(techs), "\n");
    }
    assert prompt == afterFeatures + TechSection(breakdown);

    prompt := prompt + Closing;
  }

  /**
   * The body of the `forEach` callback over the features: append the numbered line,
   * the user-story block when there are stories, and the closing empty line.
   */
  method AppendFeature(prompt: string, feature: UserStory, index: nat) returns (result: string)
    ensures result == prompt + FeatureBlock(index, feature)
  {
    result := prompt + FeatureLine(index + 1, feature);
    ghost var afterLine := result;
    if |feature.userStories| > 0 {
      var stories := feature.userStories;
      result := result + StoriesHeading;
      ghost var storiesStart := result;
      var storyIdx := 0;
      assert stories[..0] == [];
      while storyIdx < |stories|
        invariant 0 <= storyIdx <= |stories|
        invariant result == storiesStart + StoryLines(stories[..storyIdx])
      {
        RenderAllSnoc(stories, StoryLine, storyIdx);
        AppendAssoc(storiesStart, StoryLines(stories[..storyIdx]), StoryLine(storyIdx, stories[storyIdx]));
        result := result + StoryLine(storyIdx, stories[storyIdx]);
        storyIdx := storyIdx + 1;
      }
      assert stories[..storyIdx] == stories;
      AppendAssoc(afterLine, StoriesHeading, StoryLines(stories));
    }
    assert result == afterLine + StoriesBlock(feature.userStories);
    result := result + "\n";
    AppendAssoc3(prompt, FeatureLine(index + 1, feature), StoriesBlock(feature.userStories), "\n");
  }

  // ---------------------------------------------------------------------------
  // The layout of the prompt

  /** The prompt begins with the fixed sentence, the description and a blank line. */
  lemma PromptStartsWithIntro(description: string, breakdown: Option<Breakdown>)
    ensures |Intro(description)| <= |PromptText(description, breakdown)|
    ensures PromptText(description, breakdown)[..|Intro(description)|]
         == IntroPrefix + description + "\n\n"
  {
    AppendAssoc3(Intro(description), FeaturesSection(breakdown), TechSection(breakdown), Closing);
    PrefixOfAppend(Intro(description), FeaturesSection(breakdown) + TechSection(breakdown) + Closing);
  }

  /** The prompt ends with the fixed React/TypeScript/Tailwind instruction. */
  lemma PromptEndsWithClosing(description: string, breakdown: Option<Breakdown>)
    ensures |Closing| <= |PromptText(description, breakdown)|
    ensures PromptText(description, breakdown)[|PromptText(description, breakdown)| - |Closing|..] == Closing
  {
    SuffixOfAppend(Intro(description) + FeaturesSection(breakdown) + TechSection(breakdown), Closing);
  }

  /** The feature section is there exactly when the breakdown is present and has a feature. */
  lemma FeaturesSectionPresence(breakdown: Option<Breakdown>)
    ensures HasFeatures(breakdown) <==> FeaturesSection(breakdown) != ""
    ensures HasFeatures(breakdown) ==>
      |FeaturesHeading| <= |FeaturesSection(breakdown)|
      && FeaturesSection(breakdown)[..|FeaturesHeading|] == FeaturesHeading
  {
    if HasFeatures(breakdown) {
      PrefixOfAppend(FeaturesHeading, FeatureBlocks(breakdown.value.features));
    }
  }

  /**
   * The technical section is there exactly when the breakdown is present and lists a
   * component; it then starts with its heading and ends with a blank line.
   */
  lemma TechSectionPresence(breakdown: Option<Breakdown>)
    ensures HasTechnicalComponents(breakdown) <==> TechSection(breakdown) != ""
    ensures HasTechnicalComponents(breakdown) ==>
      |TechHeading| < |TechSection(breakdown)|
      && TechSection(breakdown)[..|TechHeading|] == TechHeading
      && TechSection(breakdown)[|TechSection(breakdown)| - 1] == '\n'
  {
    if HasTechnicalComponents(breakdown) {
      var techs := breakdown.value.technicalComponents;
      AppendAssoc(TechHeading, TechLines(techs), "\n");
      PrefixOfAppend(TechHeading, TechLines(techs) + "\n");
    }
  }

  /**
   * A feature block is the numbered line, then the user-story heading and the story
   * lines exactly when there are stories, then an empty line; it ends with "\n".
   */
  lemma FeatureBlockLayout(index: nat, feature: UserStory)
    ensures |FeatureLine(index + 1, feature)| < |FeatureBlock(index, feature)|
    ensures FeatureBlock(index, feature)[..|FeatureLine(index + 1, feature)|]
         == DecimalString(index + 1) + ". " + feature.name + ": " + feature.description + "\n"
    ensures FeatureBlock(index, feature)[|FeatureBlock(index, feature)| - 1] == '\n'
    ensures |feature.userStories| > 0 <==> StoriesBlock(feature.userStories) != ""
    ensures |feature.userStories| > 0 ==>
      StoriesBlock(feature.userStories)[..|StoriesHeading|] == StoriesHeading
  {
    var line := FeatureLine(index + 1, feature);
    var stories := StoriesBlock(feature.userStories);
    AppendAssoc(line, stories, "\n");
    PrefixOfAppend(line, stories + "\n");
    if |feature.userStories| > 0 {
      PrefixOfAppend(StoriesHeading, StoryLines(feature.userStories));
    }
  }

  /** Without a breakdown the prompt is exactly the intro followed by the closing. */
  lemma PromptWithoutBreakdown(description: string)
    ensures PromptText(description, None) == IntroPrefix + description + "\n\n" + Closing
  {
    assert FeaturesSection(None) == "" && TechSection(None) == "";
  }
}
