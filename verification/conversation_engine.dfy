/** The tutor's prompt and the chat requests it is sent with
    (backend/app/services/conversation_engine.py). The model client is an
    uninterpreted function from a request to a reply text. */
module ConversationEngine {
  import opened Base
  import opened Strings

  /** One `{"role": ..., "content": ...}` entry of a chat history. */
  datatype ChatMessage = ChatMessage(role: string, content: string)

  function UserMessage(content: string): ChatMessage { ChatMessage("user", content) }
  function AssistantMessage(content: string): ChatMessage { ChatMessage("assistant", content) }

  /** A call to the model client; `system` is `None` when the caller passes `None`. */
  datatype ChatRequest = ChatRequest(model: string, maxTokens: nat, system: Option<string>, messages: seq<ChatMessage>)

  const ModelName := "claude-haiku-4-5"

  const OpeningInstruction :=
    "[The student has just joined. Begin the conversation with a friendly greeting and naturally introduce the topic.]"

  // ---------------------------------------------------------------------------
  // build_system_prompt

  function VocabularyLines(vocabulary: seq<string>): (lines: seq<string>)
    ensures |lines| == |vocabulary|
    ensures forall k :: 0 <= k < |vocabulary| ==> lines[k] == "-" + vocabulary[k]
  {
    seq(|vocabulary|, k requires 0 <= k < |vocabulary| => "-" + vocabulary[k])
  }

  /** One `-item` line per vocabulary item, joined by newlines. */
  function VocabularySection(vocabulary: seq<string>): string {
    Join("\n", VocabularyLines(vocabulary))
  }

  /** The tenses joined by ", ", or a fixed phrase for an empty list. */
  function TensesFormatted(tenses: seq<string>): string {
    if |tenses| == 0 then "any appropriate tenses" else Join(", ", tenses)
  }

  /** The regional note, empty for a missing or empty variant. */
  function RegionNote(regionVariant: Option<string>): string {
    if regionVariant.Some? && regionVariant.value != "" then
      "Use " + regionVariant.value + " regional vocabulary and expressions."
    else ""
  }

  const Intro := "You are a friendly, patient language tutor having a spoken conversation in "
  const RoleHeading := ".\n\n## Your Role\nEngage the student in natural, flowing conversation about: "
  const LevelHeading := "\n\n## Student Level\nThe student is at the "
  const LevelGuidance :=
    " level. Adjust your:\n- Vocabulary complexity\n- Sentence length  \n- Grammar structures\n\n"
    + "For beginners: Use simple sentences, basic vocabulary, speak slowly conceptually.\n"
    + "For intermediate: Use more complex structures, idiomatic expressions, natural pace.\n"
    + "For advanced: Use sophisticated vocabulary, complex grammar, cultural nuances.\n\n"
    + "## Target Vocabulary to Practice\n"
    + "Naturally incorporate opportunities for the student to use these words (don't force them all at once):\n"
  const TensesHeading := "\n\n## Target Verb Tenses\nFocus on eliciting these tenses: "
  const Guidelines :=
    "\n\n## Conversation Guidelines\n"
    + "1. Start with a warm greeting and introduce the topic naturally\n"
    + "2. Ask open-ended questions that invite the student to use target vocabulary\n"
    + "3. If the student makes errors, gently model the correct form in your response (recasting) rather than explicitly correcting\n"
    + "4. Show enthusiasm and encouragement\n"
    + "5. Keep responses conversational\U{2014}typically 2-4 sentences\n"
    + "6. If the student seems stuck, offer helpful prompts or simplify\n"
    + "7. Create scenarios where target vocabulary is relevant\n\n"
    + "## Critical Rules\n"
    + "- Respond ONLY in "
  const ClosingRules :=
    "\n- Write ONLY what you would say out loud\U{2014}no translations, no explanations, no stage directions\n"
    + "- This will be converted to speech, so write naturally as spoken language\n"
    + "- Be brief with responses. Try to keep them 25 words or less.\n"
    + "- Be warm and encouraging"

  /** The text between the topic and the student level. */
  function BeforeLevel(regionVariant: Option<string>): string {
    "\n" + RegionNote(regionVariant) + LevelHeading
  }

  /** The text between the student level and the closing repetition of the
      target language. */
  function AfterLevel(vocabulary: seq<string>, verbTenses: seq<string>): string {
    LevelGuidance + VocabularySection(vocabulary) + TensesHeading + TensesFormatted(verbTenses) + Guidelines
  }

  /** `build_system_prompt`. What it promises is stated by the lemmas below
      (`PromptEmbeds` and the per-section lemmas) rather than by an `ensures`,
      so that the exam and relay code that calls it does not carry them. */
  function BuildSystemPrompt(targetLanguage: string, studentLevel: string, vocabulary: seq<string>,
                             topic: string, verbTenses: seq<string>, regionVariant: Option<string>): string
  {
    Intro + targetLanguage + RoleHeading + topic + BeforeLevel(regionVariant) + studentLevel
      + AfterLevel(vocabulary, verbTenses) + targetLanguage + ClosingRules
  }

  // ---------------------------------------------------------------------------
  // Properties of the prompt

  /** The vocabulary section splits back into exactly one `-item` line per
      item, in order, when no item holds a newline. */
  lemma VocabularySectionLines(vocabulary: seq<string>)
    requires |vocabulary| >= 1
    requires forall k :: 0 <= k < |vocabulary| ==> '\n' !in vocabulary[k]
    ensures Split(VocabularySection(vocabulary), '\n') == VocabularyLines(vocabulary)
  {
    var lines := VocabularyLines(vocabulary);
    forall k | 0 <= k < |lines| ensures '\n' !in lines[k] {
      assert lines[k] == "-" + vocabulary[k];
    }
    SplitJoin(lines, '\n');
  }

  lemma VocabularySectionEmpty()
    ensures VocabularySection([]) == ""
  {
  }

  /** No tenses give the fixed phrase; each further tense adds ", " and itself. */
  lemma TensesCases(tenses: seq<string>, t: string)
    ensures |tenses| == 0 ==> TensesFormatted(tenses) == "any appropriate tenses"
    ensures |tenses| == 0 ==> TensesFormatted(tenses + [t]) == t
    ensures |tenses| >= 1 ==> TensesFormatted(tenses + [t]) == TensesFormatted(tenses) + ", " + t
  {
    if |tenses| >= 1 {
      JoinSnoc(", ", tenses, t);
    }
  }

  lemma RegionNoteCases(regionVariant: Option<string>)
    ensures RegionNote(regionVariant) == "" <==> regionVariant.None? || regionVariant.value == ""
    ensures regionVariant.Some? && regionVariant.value != "" ==>
      RegionNote(regionVariant)[4..4 + |regionVariant.value|] == regionVariant.value
  {
  }

  lemma OccursAtEnd(u: string, x: string)
    ensures OccursAt(u + x, x, |u|)
  {
    assert (u + x)[|u|..|u| + |x|] == x;
  }

  /** An occurrence survives appending text after it. */
  lemma OccursExtend(u: string, v: string, x: string, i: int)
    requires OccursAt(u, x, i)
    ensures OccursAt(u + v, x, i)
  {
    assert (u + v)[i..i + |x|] == u[i..i + |x|];
  }

  /** Where the four fields sit in a nine-part concatenation, so that each
      of them is contained in it. */
  lemma {:induction false} Layout(a: string, x: string, b: string, y: string, c: string, z: string, d: string, w: string, e: string)
    ensures var p := a + x + b + y + c + z + d + w + e;
      && OccursAt(p, x, |a|)
      && OccursAt(p, y, |a| + |x| + |b|)
      && OccursAt(p, z, |a| + |x| + |b| + |y| + |c|)
      && OccursAt(p, w, |a| + |x| + |b| + |y| + |c| + |z| + |d|)
      && Contains(p, x) && Contains(p, y) && Contains(p, z)
  {
    var l1 := a + x;
    var l2 := l1 + b;
    var l3 := l2 + y;
    var l4 := l3 + c;
    var l5 := l4 + z;
    var l6 := l5 + d;
    var l7 := l6 + w;
    OccursAtEnd(a, x);
    OccursExtend(l1, b, x, |a|);
    OccursExtend(l2, y, x, |a|);
    OccursExtend(l3, c, x, |a|);
    OccursExtend(l4, z, x, |a|);
    OccursExtend(l5, d, x, |a|);
    OccursExtend(l6, w, x, |a|);
    OccursExtend(l7, e, x, |a|);
    OccursAtEnd(l2, y);
    OccursExtend(l3, c, y, |l2|);
    OccursExtend(l4, z, y, |l2|);
    OccursExtend(l5, d, y, |l2|);
    OccursExtend(l6, w, y, |l2|);
    OccursExtend(l7, e, y, |l2|);
    OccursAtEnd(l4, z);
    OccursExtend(l5, d, z, |l4|);
    OccursExtend(l6, w, z, |l4|);
    OccursExtend(l7, e, z, |l4|);
    OccursAtEnd(l6, w);
    OccursExtend(l7, e, w, |l6|);
    var p := l7 + e;
    ContainsIff(p, x);
    ContainsIff(p, y);
    ContainsIff(p, z);
  }

  /** The prompt carries the target language (twice), the topic and the
      student level verbatim, at fixed positions. */
  lemma PromptEmbeds(targetLanguage: string, studentLevel: string, vocabulary: seq<string>,
                     topic: string, verbTenses: seq<string>, regionVariant: Option<string>)
    ensures var p := BuildSystemPrompt(targetLanguage, studentLevel, vocabulary, topic, verbTenses, regionVariant);
      && OccursAt(p, targetLanguage, |Intro|)
      && OccursAt(p, topic, |Intro| + |targetLanguage| + |RoleHeading|)
      && OccursAt(p, studentLevel, |Intro| + |targetLanguage| + |RoleHeading| + |topic| + |BeforeLevel(regionVariant)|)
      && OccursAt(p, targetLanguage, |Intro| + |targetLanguage| + |RoleHeading| + |topic| + |BeforeLevel(regionVariant)|
                                     + |studentLevel| + |AfterLevel(vocabulary, verbTenses)|)
      && Contains(p, targetLanguage) && Contains(p, topic) && Contains(p, studentLevel)
  {
    Layout(Intro, targetLanguage, RoleHeading, topic, BeforeLevel(regionVariant), studentLevel,
           AfterLevel(vocabulary, verbTenses), targetLanguage, ClosingRules);
  }

  // ---------------------------------------------------------------------------
  // generate_response and generate_opening

  /** The request `generate_response` makes: the history, then the student's
      message as one new user entry. */
  function ResponseRequest(systemPrompt: Option<string>, history: seq<ChatMessage>, studentMessage: string): (r: ChatRequest)
    ensures |r.messages| == |history| + 1
    ensures r.messages[..|history|] == history
    ensures r.messages[|history|] == UserMessage(studentMessage)
    ensures r.model == ModelName && r.maxTokens == 250 && r.system == systemPrompt
  {
    ChatRequest(ModelName, 250, systemPrompt, history + [UserMessage(studentMessage)])
  }

  /** The request `generate_opening` makes: exactly one fixed user entry. */
  function OpeningRequest(systemPrompt: Option<string>): (r: ChatRequest)
    ensures |r.messages| == 1 && r.messages[0] == UserMessage(OpeningInstruction)
    ensures r.model == ModelName && r.maxTokens == 200 && r.system == systemPrompt
  {
    ChatRequest(ModelName, 200, systemPrompt, [UserMessage(OpeningInstruction)])
  }

  /** Two response requests over the same prompt differ exactly when their
      histories or student messages differ. */
  lemma ResponseRequestInjective(systemPrompt: Option<string>, h1: seq<ChatMessage>, m1: string, h2: seq<ChatMessage>, m2: string)
    ensures ResponseRequest(systemPrompt, h1, m1) == ResponseRequest(systemPrompt, h2, m2) <==> h1 == h2 && m1 == m2
  {
    var r1 := ResponseRequest(systemPrompt, h1, m1);
    var r2 := ResponseRequest(systemPrompt, h2, m2);
    if r1 == r2 {
      assert |h1| == |h2|;
      assert h1 == r1.messages[..|h1|] == r2.messages[..|h2|] == h2;
      assert UserMessage(m1) == r1.messages[|h1|] == r2.messages[|h2|] == UserMessage(m2);
    }
  }
}
