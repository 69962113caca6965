/**
 * The offline answers of the assistant (src/lib/gemini.ts). `getFallbackResponse` lower-cases
 * the prompt and walks a fixed chain of keyword tests; the first group with a keyword that
 * occurs anywhere in the prompt picks the answer. Each answer text is abstracted to a tag; the
 * projects answer keeps the names it lists. `getGeminiResponse` is modelled only up to its
 * guard on the key.
 */
module Gemini {
  import opened Text

  /** The project records the answers draw on: a name and whether it is featured. */
  datatype ProjectInfo = ProjectInfo(name: string, featured: bool)

  datatype Answer =
    | SkillsAnswer
    | ProjectsAnswer(listed: seq<string>)
    | ArgonAnswer
    | GranAnswer
    | ContactAnswer
    | AboutAnswer
    | EducationAnswer
    | DefaultMenu

  /** `s.includes(w)` for some `w` of `words`, tested left to right. */
  predicate MentionsAny(s: string, words: seq<string>)
  {
    words != [] && (Contains(s, words[0]) || MentionsAny(s, words[1..]))
  }

  lemma {:induction false} MentionsAnyIff(s: string, words: seq<string>)
    ensures MentionsAny(s, words) <==> exists i :: 0 <= i < |words| && Contains(s, words[i])
  {
    if words != [] {
      MentionsAnyIff(s, words[1..]);
      if exists i :: 0 <= i < |words| && Contains(s, words[i]) {
        var i :| 0 <= i < |words| && Contains(s, words[i]);
        if i > 0 {
          assert words[1..][i - 1] == words[i];
        }
      }
    }
  }

  const SkillWords: seq<string> := ["skill", "technology"]
  const ProjectWords: seq<string> := ["project", "work"]
  const ArgonWords: seq<string> := ["argon", "os", "operating system"]
  const GranWords: seq<string> := ["gran", "compiler", "language"]
  const ContactWords: seq<string> := ["contact", "reach", "email"]
  const AboutWords: seq<string> := ["about", "who"]
  const EducationWords: seq<string> := ["education", "study", "university"]

  /** The names of the featured projects, in their order. */
  function FeaturedNames(projects: seq<ProjectInfo>): (r: seq<string>)
    ensures |r| <= |projects|
  {
    if projects == [] then []
    else (if projects[0].featured then [projects[0].name] else []) + FeaturedNames(projects[1..])
  }

  /** A name is listed exactly when some featured project carries it. */
  lemma {:induction false} FeaturedNamesIff(projects: seq<ProjectInfo>, n: string)
    ensures n in FeaturedNames(projects) <==>
              exists i :: 0 <= i < |projects| && projects[i].featured && projects[i].name == n
  {
    if projects != [] {
      FeaturedNamesIff(projects[1..], n);
      if exists i :: 0 <= i < |projects| && projects[i].featured && projects[i].name == n {
        var i :| 0 <= i < |projects| && projects[i].featured && projects[i].name == n;
        if i > 0 {
          assert projects[1..][i - 1] == projects[i];
        }
      }
    }
  }

  /** `getFallbackResponse`: the keyword chain on the lower-cased prompt. */
  function FallbackResponse(prompt: string, projects: seq<ProjectInfo>): (r: Answer)
    ensures r == SkillsAnswer <==> MentionsAny(Lower(prompt), SkillWords)
    ensures r.ProjectsAnswer? ==> r.listed == FeaturedNames(projects)
    ensures r == DefaultMenu <==>
              && !MentionsAny(Lower(prompt), SkillWords) && !MentionsAny(Lower(prompt), ProjectWords)
              && !MentionsAny(Lower(prompt), ArgonWords) && !MentionsAny(Lower(prompt), GranWords)
              && !MentionsAny(Lower(prompt), ContactWords) && !MentionsAny(Lower(prompt), AboutWords)
              && !MentionsAny(Lower(prompt), EducationWords)
  {
    var p := Lower(prompt);
    if MentionsAny(p, SkillWords) then SkillsAnswer
    else if MentionsAny(p, ProjectWords) then ProjectsAnswer(FeaturedNames(projects))
    else if MentionsAny(p, ArgonWords) then ArgonAnswer
    else if MentionsAny(p, GranWords) then GranAnswer
    else if MentionsAny(p, ContactWords) then ContactAnswer
    else if MentionsAny(p, AboutWords) then AboutAnswer
    else if MentionsAny(p, EducationWords) then EducationAnswer
    else DefaultMenu
  }

  /** The keyword groups in the order they are tried. */
  const KeywordGroups: seq<seq<string>> :=
    [SkillWords, ProjectWords, ArgonWords, GranWords, ContactWords, AboutWords, EducationWords]

  /** The answer belonging to the group at index `i`; past the last group, the menu. */
  function AnswerAt(i: nat, projects: seq<ProjectInfo>): Answer
  {
    if i == 0 then SkillsAnswer
    else if i == 1 then ProjectsAnswer(FeaturedNames(projects))
    else if i == 2 then ArgonAnswer
    else if i == 3 then GranAnswer
    else if i == 4 then ContactAnswer
    else if i == 5 then AboutAnswer
    else if i == 6 then EducationAnswer
    else DefaultMenu
  }

  /** The index of the first group mentioned in `s`, or the number of groups if none is. */
  function FirstGroup(s: string, groups: seq<seq<string>>): (r: nat)
    ensures r <= |groups|
    ensures r < |groups| ==> MentionsAny(s, groups[r])
    ensures forall j :: 0 <= j < r ==> !MentionsAny(s, groups[j])
  {
    if groups == [] then 0
    else if MentionsAny(s, groups[0]) then 0
    else
      var r := 1 + FirstGroup(s, groups[1..]);
      assert forall j :: 1 <= j < r ==> groups[j] == groups[1..][j - 1];
      r
  }

  /** The chain is a first-match search: the answer is that of the earliest group with a
      keyword in the lower-cased prompt, and the menu when no group has one. */
  lemma FallbackIsFirstMatch(prompt: string, projects: seq<ProjectInfo>)
    ensures FallbackResponse(prompt, projects) == AnswerAt(FirstGroup(Lower(prompt), KeywordGroups), projects)
  {
    var p := Lower(prompt);
    var g := FirstGroup(p, KeywordGroups);
    var gs := KeywordGroups;
    assert gs[0] == SkillWords && gs[1] == ProjectWords && gs[2] == ArgonWords && gs[3] == GranWords;
    assert gs[4] == ContactWords && gs[5] == AboutWords && gs[6] == EducationWords;
    if MentionsAny(p, SkillWords) {
      assert g == 0;
    } else if MentionsAny(p, ProjectWords) {
      assert g == 1;
    } else if MentionsAny(p, ArgonWords) {
      assert g == 2;
    } else if MentionsAny(p, GranWords) {
      assert g == 3;
    } else if MentionsAny(p, ContactWords) {
      assert g == 4;
    } else if MentionsAny(p, AboutWords) {
      assert g == 5;
    } else if MentionsAny(p, EducationWords) {
      assert g == 6;
    } else {
      assert g == 7;
    }
  }

  /** Letter case of the prompt does not matter. */
  lemma CaseInsensitive(prompt: string, projects: seq<ProjectInfo>)
    ensures FallbackResponse(Lower(prompt), projects) == FallbackResponse(prompt, projects)
  {
    LowerIdempotent(prompt);
  }

  /** A prompt that mentions no keyword at all gets the menu. */
  lemma NoKeywordMenu(prompt: string, projects: seq<ProjectInfo>)
    requires forall j :: 0 <= j < |KeywordGroups| ==> !MentionsAny(Lower(prompt), KeywordGroups[j])
    ensures FallbackResponse(prompt, projects) == DefaultMenu
  {
    FallbackIsFirstMatch(prompt, projects);
  }

  /** The projects answer names exactly the featured projects. */
  lemma ProjectsAnswerListsFeatured(prompt: string, projects: seq<ProjectInfo>, n: string)
    requires FallbackResponse(prompt, projects).ProjectsAnswer?
    ensures n in FallbackResponse(prompt, projects).listed <==>
              exists i :: 0 <= i < |projects| && projects[i].featured && projects[i].name == n
  {
    FeaturedNamesIff(projects, n);
  }

  /** A prompt with `work` and no skill keyword gets the projects answer, whatever else it
      mentions, a compiler included. */
  lemma WorkBeatsCompiler(prompt: string, projects: seq<ProjectInfo>)
    requires Contains(Lower(prompt), "work") && !MentionsAny(Lower(prompt), SkillWords)
    ensures FallbackResponse(prompt, projects) == ProjectsAnswer(FeaturedNames(projects))
  {
    assert MentionsAny(Lower(prompt), ["work"]);
  }

  /** A string without some character of `sub` cannot contain `sub`. */
  lemma MissingCharNotContained(s: string, sub: string, c: char)
    requires c in sub && c !in s
    ensures !Contains(s, sub)
  {
    ContainsIff(s, sub);
  }

  /** No keyword of the group occurs when each has a character the string lacks. */
  lemma NoneMentioned(s: string, words: seq<string>, witnesses: seq<char>)
    requires |witnesses| == |words|
    requires forall i :: 0 <= i < |words| ==> witnesses[i] in words[i] && witnesses[i] !in s
    ensures !MentionsAny(s, words)
  {
    forall i | 0 <= i < |words|
      ensures !Contains(s, words[i])
    {
      MissingCharNotContained(s, words[i], witnesses[i]);
    }
    MentionsAnyIff(s, words);
  }

  /** The keyword at index `i` of the group occurs at index `k` of the string. */
  lemma MentionedAt(s: string, words: seq<string>, i: nat, k: nat)
    requires i < |words| && OccursAt(s, words[i], k)
    ensures MentionsAny(s, words)
  {
    ContainsAt(s, words[i], k);
    MentionsAnyIff(s, words);
  }

  lemma LowerOfThose(prompt: string, t: string)
    requires prompt == "What about those?" && t == "what about those?"
    ensures Lower(prompt) == t
  {
    LowerAfterFirst(prompt);
    assert t[1..] == prompt[1..];
  }

  lemma KeywordsOfThose(t: string)
    requires t == "what about those?"
    ensures !MentionsAny(t, SkillWords) && !MentionsAny(t, ProjectWords) && MentionsAny(t, ArgonWords)
  {
    NoSkillWords(t);
    NoProjectInThose(t);
    MentionedAt(t, ArgonWords, 1, 13);
  }

  /** Neither of the two example prompts mentions a skill word. */
  lemma NoSkillWords(t: string)
    requires t == "what about those?" || t == "my work on a compiler"
    ensures !MentionsAny(t, SkillWords)
  {
    if t == "what about those?" {
      NoneMentioned(t, SkillWords, ['k', 'c']);
    } else {
      NoneMentioned(t, SkillWords, ['s', 't']);
    }
  }

  lemma NoProjectInThose(t: string)
    requires t == "what about those?"
    ensures !MentionsAny(t, ProjectWords)
  {
    NoneMentioned(t, ProjectWords, ['p', 'r']);
  }

  /** `os` inside "those" picks the operating-system answer ahead of `about`. */
  lemma ThoseIsAboutArgon(prompt: string, projects: seq<ProjectInfo>)
    requires prompt == "What about those?"
    ensures FallbackResponse(prompt, projects) == ArgonAnswer
  {
    LowerOfThose(prompt, "what about those?");
    KeywordsOfThose(Lower(prompt));
  }

  lemma KeywordsOfWorkOnCompiler(t: string)
    requires t == "my work on a compiler"
    ensures !MentionsAny(t, SkillWords) && MentionsAny(t, ProjectWords)
  {
    NoSkillWords(t);
    MentionedAt(t, ProjectWords, 1, 3);
  }

  lemma CompilerPromptIsLower(prompt: string)
    requires prompt == "my work on a compiler"
    ensures Lower(prompt) == prompt
  {
    LowerNoUpper(prompt);
  }

  /** Asking about work on a compiler gets the projects answer, not the compiler answer. */
  lemma WorkOnCompiler(prompt: string, projects: seq<ProjectInfo>)
    requires prompt == "my work on a compiler"
    ensures FallbackResponse(prompt, projects) == ProjectsAnswer(FeaturedNames(projects))
  {
    CompilerPromptIsLower(prompt);
    KeywordsOfWorkOnCompiler(Lower(prompt));
  }

  const MissingKeyMessage: string := "Please set your Gemini API key in the settings to use the AI assistant."

  /** What `getGeminiResponse` does: answer at once without a key, otherwise ask the client. */
  datatype Reply = Immediate(text: string) | AskClient(prompt: string, apiKey: string)

  /** The empty-key guard: without a key no client call is made. */
  function GeminiResponse(prompt: string, apiKey: string): (r: Reply)
    ensures apiKey == "" <==> r == Immediate(MissingKeyMessage)
    ensures apiKey != "" ==> r == AskClient(prompt, apiKey)
  {
    if apiKey == "" then Immediate(MissingKeyMessage) else AskClient(prompt, apiKey)
  }
}
