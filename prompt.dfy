/**
  The generation prompt of app.py:89-106: an f-string that embeds the incident
  text and the three fields of the retrieved record.  The segments below are
  the literal parts of that f-string, with its eight-space indentation and its
  leading and trailing line breaks.
 */
module Prompt {
  import opened Text
  import opened Knowledge

  const Indent := "        "

  const Head :=
    "\n" + Indent + "Act as a senior network engineer and root cause analyst. Your task is to analyze a network incident and provide a clear, human-readable explanation of the root cause, including the 'why' behind the problem.\n"
    + "\n"
    + Indent + "Based on the following incident description and retrieved network knowledge, generate a concise report.\n"
    + "\n"
    + Indent + "**Incident Description:**\n"
    + Indent

  const BeforeTitle := "\n\n" + Indent + "**Retrieved Knowledge:**\n" + Indent + "Title: "
  const BeforeContent := "\n" + Indent + "Content: "
  const BeforeAction := "\n" + Indent + "Actionable Intelligence: "

  /** The three section headings the prompt asks the model to produce. */
  const IdentifiedProblem := "**Identified Problem:**"
  const RootCauseAnalysis := "**Root Cause Analysis:**"
  const ActionableIntelligence := "**Actionable Intelligence:**"

  const BeforeSection1 := "\n\n" + Indent + "Your response must include the following sections:\n" + Indent + "1.  "
  const BeforeSection2 := " A single sentence summarizing the core issue.\n" + Indent + "2.  "
  const BeforeSection3 := " A brief paragraph explaining the 'why' behind the problem. Use the provided knowledge and connect it to the incident description.\n" + Indent + "3.  "
  const AfterSection3 := " Extract and rephrase the \"actionable intelligence\" to provide a clear, next-step recommendation.\n" + Indent

  const Tail :=
    BeforeSection1 + IdentifiedProblem + BeforeSection2 + RootCauseAnalysis
    + BeforeSection3 + ActionableIntelligence + AfterSection3

  /**
    The shape of the f-string: literal segments interleaved with the four
    substituted values.
   */
  function Fill(s0: string, incident: string, s1: string, title: string, s2: string,
                content: string, s3: string, action: string, s4: string): string
  {
    s0 + incident + s1 + title + s2 + content + s3 + action + s4
  }

  /** Each substituted value is a substring of the filled template. */
  lemma FillEmbeds(s0: string, incident: string, s1: string, title: string, s2: string,
                   content: string, s3: string, action: string, s4: string)
    ensures var p := Fill(s0, incident, s1, title, s2, content, s3, action, s4);
      Contains(p, incident) && Contains(p, title) && Contains(p, content) && Contains(p, action)
  {
    var p := Fill(s0, incident, s1, title, s2, content, s3, action, s4);
    ContainsInfix(s0, incident, s1 + title + s2 + content + s3 + action + s4);
    assert p == s0 + incident + (s1 + title + s2 + content + s3 + action + s4);
    ContainsInfix(s0 + incident + s1, title, s2 + content + s3 + action + s4);
    assert p == (s0 + incident + s1) + title + (s2 + content + s3 + action + s4);
    ContainsInfix(s0 + incident + s1 + title + s2, content, s3 + action + s4);
    assert p == (s0 + incident + s1 + title + s2) + content + (s3 + action + s4);
    ContainsInfix(s0 + incident + s1 + title + s2 + content + s3, action, s4);
  }

  /** The prompt text for an incident and its retrieved context. */
  function BuildPrompt(incident: string, context: KnowledgeRecord): (p: string)
    ensures |p| == |Head| + |incident| + |BeforeTitle| + |context.title| + |BeforeContent|
                   + |context.content| + |BeforeAction| + |context.actionableIntelligence| + |Tail|
    ensures p[|Head|..|Head| + |incident|] == incident
  {
    Fill(Head, incident, BeforeTitle, context.title, BeforeContent, context.content,
         BeforeAction, context.actionableIntelligence, Tail)
  }

  /** The prompt carries the incident text verbatim and each field of the retrieved record. */
  lemma PromptEmbedsInputs(incident: string, context: KnowledgeRecord)
    ensures Contains(BuildPrompt(incident, context), incident)
    ensures Contains(BuildPrompt(incident, context), context.title)
    ensures Contains(BuildPrompt(incident, context), context.content)
    ensures Contains(BuildPrompt(incident, context), context.actionableIntelligence)
  {
    FillEmbeds(Head, incident, BeforeTitle, context.title, BeforeContent, context.content,
               BeforeAction, context.actionableIntelligence, Tail);
  }

  /** Three headings interleaved with text: each heading is a substring. */
  lemma HeadingsEmbedded(a: string, x: string, b: string, y: string, c: string, z: string, d: string)
    ensures var s := a + x + b + y + c + z + d;
      Contains(s, x) && Contains(s, y) && Contains(s, z)
  {
    var s := a + x + b + y + c + z + d;
    ContainsInfix(a, x, b + y + c + z + d);
    assert s == a + x + (b + y + c + z + d);
    ContainsInfix(a + x + b, y, c + z + d);
    assert s == (a + x + b) + y + (c + z + d);
    ContainsInfix(a + x + b + y + c, z, d);
  }

  /** The prompt asks for the three labelled sections of the report. */
  lemma PromptRequestsSections(incident: string, context: KnowledgeRecord)
    ensures Contains(BuildPrompt(incident, context), IdentifiedProblem)
    ensures Contains(BuildPrompt(incident, context), RootCauseAnalysis)
    ensures Contains(BuildPrompt(incident, context), ActionableIntelligence)
  {
    HeadingsEmbedded(BeforeSection1, IdentifiedProblem, BeforeSection2, RootCauseAnalysis,
                     BeforeSection3, ActionableIntelligence, AfterSection3);
    var front := Head + incident + BeforeTitle + context.title + BeforeContent + context.content
                 + BeforeAction + context.actionableIntelligence;
    assert BuildPrompt(incident, context) == front + Tail;
    ContainsAfterPrefix(front, Tail, IdentifiedProblem);
    ContainsAfterPrefix(front, Tail, RootCauseAnalysis);
    ContainsAfterPrefix(front, Tail, ActionableIntelligence);
  }

  /** Nothing is truncated: for a fixed context, the prompt determines the incident text. */
  lemma PromptDeterminesIncident(incident1: string, incident2: string, context: KnowledgeRecord)
    requires BuildPrompt(incident1, context) == BuildPrompt(incident2, context)
    ensures incident1 == incident2
  {
    assert |incident1| == |incident2|;
  }
}
