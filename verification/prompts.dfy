/**
 Template selection of the LM Studio provider (`createPrompt`). A prompt is
 modelled as the template that was chosen together with the fields that were
 interpolated into it; the literal instruction text and its indentation are
 not modelled.
 */
module Prompts {

  /** The language name that stands for plain English rather than code. */
  const NaturalLanguage: string := "Natural Language"

  /** The three fixed templates, each carrying the fields it interpolates. */
  datatype Prompt =
    | NLToCode(outputLanguage: string, inputCode: string)
    | CodeToNL(inputLanguage: string, inputCode: string)
    | CodeToCode(inputLanguage: string, outputLanguage: string, inputCode: string)

  /** What a caller asks for: translate `inputCode` from one language to another. */
  datatype Translation = Translation(inputLanguage: string, outputLanguage: string, inputCode: string)

  /** The worked example a template shows the model, as its pair of languages. */
  datatype Anchor = Anchor(fromLanguage: string, toLanguage: string)

  /** Chooses the template: a natural-language input wins over a
      natural-language output, and anything else is code to code. */
  function CreatePrompt(inputLanguage: string, outputLanguage: string, inputCode: string): (p: Prompt)
    ensures p.NLToCode? <==> inputLanguage == NaturalLanguage
    ensures p.CodeToNL? <==> inputLanguage != NaturalLanguage && outputLanguage == NaturalLanguage
    ensures p.CodeToCode? <==> inputLanguage != NaturalLanguage && outputLanguage != NaturalLanguage
    ensures Subject(p) == Translation(inputLanguage, outputLanguage, inputCode)
  {
    if inputLanguage == NaturalLanguage then
      NLToCode(outputLanguage, inputCode)
    else if outputLanguage == NaturalLanguage then
      CodeToNL(inputLanguage, inputCode)
    else
      CodeToCode(inputLanguage, outputLanguage, inputCode)
  }

  /** The translation a prompt asks for; a template that leaves out a
      language stands for the natural-language sentinel in that place. */
  function Subject(p: Prompt): Translation {
    match p
    case NLToCode(outputLanguage, inputCode) => Translation(NaturalLanguage, outputLanguage, inputCode)
    case CodeToNL(inputLanguage, inputCode) => Translation(inputLanguage, NaturalLanguage, inputCode)
    case CodeToCode(inputLanguage, outputLanguage, inputCode) => Translation(inputLanguage, outputLanguage, inputCode)
  }

  /** The prompts `CreatePrompt` can produce. */
  predicate Selectable(p: Prompt) {
    match p
    case NLToCode(_, _) => true
    case CodeToNL(inputLanguage, _) => inputLanguage != NaturalLanguage
    case CodeToCode(inputLanguage, outputLanguage, _) =>
      inputLanguage != NaturalLanguage && outputLanguage != NaturalLanguage
  }

  /** The example each template embeds: "print 0 to 9" between natural
      language and JavaScript for the first two, a JavaScript loop rewritten
      in Python for the third. */
  function AnchorOf(p: Prompt): Anchor {
    match p
    case NLToCode(_, _) => Anchor(NaturalLanguage, "JavaScript")
    case CodeToNL(_, _) => Anchor("JavaScript", NaturalLanguage)
    case CodeToCode(_, _, _) => Anchor("JavaScript", "Python")
  }

  /** No two different requests share a prompt: the chosen template with
      its fields determines the request. */
  lemma CreatePromptInjective(i1: string, o1: string, c1: string, i2: string, o2: string, c2: string)
    ensures CreatePrompt(i1, o1, c1) == CreatePrompt(i2, o2, c2) <==> (i1, o1, c1) == (i2, o2, c2)
  {
    if CreatePrompt(i1, o1, c1) == CreatePrompt(i2, o2, c2) {
      assert Subject(CreatePrompt(i1, o1, c1)) == Subject(CreatePrompt(i2, o2, c2));
    }
  }

  /** Every selectable prompt is produced by the request it describes, and
      every produced prompt is selectable. */
  lemma CreatePromptOfSubject(p: Prompt)
    ensures Selectable(p) <==> CreatePrompt(Subject(p).inputLanguage, Subject(p).outputLanguage, Subject(p).inputCode) == p
  {
  }

  /** The worked example goes in the same direction as the request: its source
      is natural language exactly when the input is, and, for a code input, its
      target is natural language exactly when the output is. */
  lemma AnchorFollowsDirection(inputLanguage: string, outputLanguage: string, inputCode: string)
    ensures AnchorOf(CreatePrompt(inputLanguage, outputLanguage, inputCode)).fromLanguage == NaturalLanguage
            <==> inputLanguage == NaturalLanguage
    ensures inputLanguage != NaturalLanguage ==>
              (AnchorOf(CreatePrompt(inputLanguage, outputLanguage, inputCode)).toLanguage == NaturalLanguage
               <==> outputLanguage == NaturalLanguage)
  {
  }

  /** When both languages are the sentinel, the natural-language-to-code
      template is chosen, asked for "Natural Language" code. */
  lemma BothNaturalChoosesNLToCode(inputCode: string)
    ensures CreatePrompt(NaturalLanguage, NaturalLanguage, inputCode) == NLToCode(NaturalLanguage, inputCode)
  {
  }

  /** Three example requests, one per template. */
  lemma TemplateScenarios()
    ensures CreatePrompt(NaturalLanguage, "JavaScript", "Print the numbers 0 to 9.")
            == NLToCode("JavaScript", "Print the numbers 0 to 9.")
    ensures CreatePrompt("JavaScript", NaturalLanguage, "x").CodeToNL?
    ensures CreatePrompt("JavaScript", "Python", "for (let i=0;i<10;i++){console.log(i)}")
            == CodeToCode("JavaScript", "Python", "for (let i=0;i<10;i++){console.log(i)}")
    ensures AnchorOf(CreatePrompt("JavaScript", "Python", "x")) == Anchor("JavaScript", "Python")
  {
  }
}
