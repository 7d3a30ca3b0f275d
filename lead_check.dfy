/**
  The request `check_lead` sends to the hosted language model: a fixed
  model name and output budget, and two chat messages, a system
  instruction that ends with the industry label and a user message that
  is the footprint itself. The model is a total function from request to
  reply text; its sampling parameters are not modelled.
*/
module LeadCheck {
  import opened Text

  datatype Role = System | User

  datatype Message = Message(role: Role, content: string)

  datatype Request = Request(model: string, messages: seq<Message>, maxTokens: nat, stream: bool)

  const Model: string := "llama-3.3-70b-versatile"

  /** The reply is capped at one token. */
  const MaxTokens: nat := 1

  /** The fixed part of the system instruction, line by line as the script builds it. */
  const Instructions: string :=
    "You are an expert B2B lead qualification agent. Your task is to evaluate short text descriptions "
    + "and determine if they indicate a strong sales opportunity for a business-to-business product or service.\n\n"
    + "Only respond with one word:\n"
    + "- \"Yes\" \U{2192} if it is a good lead (indicates interest, intent, or relevance)\n"
    + "- \"No\" \U{2192} if it is not a good lead (irrelevant, non-commercial, or lacks buying intent)\n\n"
    + "Base your judgment on factors like business growth signals, interest in technology, hiring, expansion, "
    + "partnerships, or purchasing behavior.\n\n"
    + "Do not explain or justify your answer."

  /** The words that introduce the industry label; they follow the instructions with no separator. */
  const IndustryCue: string := "** Also make sure to add relevancy according to the their industry : "

  /** The closing marker after the industry label. */
  const Closing: string := "**"

  /** Everything of the system instruction that comes before the industry label. */
  function Preamble(): string
  {
    Instructions + IndustryCue
  }

  function SystemPrompt(industry: string): string
  {
    Preamble() + industry + Closing
  }

  /** The request for one footprint (`sentence`) and one industry label. */
  function BuildRequest(sentence: string, industry: string): (r: Request)
    ensures r.model == Model && r.maxTokens == MaxTokens && !r.stream
    ensures |r.messages| == 2
    ensures r.messages[0].role == System && IndustryOf(r.messages[0].content) == Some(industry)
    ensures r.messages[1] == Message(User, sentence)
  {
    IndustryOfSystemPrompt(industry);
    Request(Model, [Message(System, SystemPrompt(industry)), Message(User, sentence)], MaxTokens, false)
  }

  /** The verdict the model gives for one footprint; `complete` stands for the hosted model. */
  function CheckLead(sentence: string, industry: string, complete: Request -> string): string
  {
    complete(BuildRequest(sentence, industry))
  }

  /** Reads the industry label back out of a system instruction. */
  function IndustryOf(prompt: string): Option<string>
  {
    var n := |Preamble()|;
    if |prompt| >= n + |Closing| && prompt[..n] == Preamble() && prompt[|prompt| - |Closing|..] == Closing
    then Some(prompt[n..|prompt| - |Closing|])
    else None
  }

  /** The label spliced into the instruction is recovered unchanged. */
  lemma IndustryOfSystemPrompt(industry: string)
    ensures IndustryOf(SystemPrompt(industry)) == Some(industry)
  {
    var n := |Preamble()|;
    var p := SystemPrompt(industry);
    assert p[..n] == Preamble();
    assert p[|p| - |Closing|..] == Closing;
    assert p[n..|p| - |Closing|] == industry;
  }

  /** Every instruction IndustryOf accepts is the system instruction for that label. */
  lemma IndustryOfSound(prompt: string, industry: string)
    requires IndustryOf(prompt) == Some(industry)
    ensures prompt == SystemPrompt(industry)
  {
    var n := |Preamble()|;
    var k := |prompt| - |Closing|;
    Reassemble(prompt, n, k);
  }

  /** Cutting a sequence at two points and concatenating the pieces gives it back. */
  lemma Reassemble<T>(s: seq<T>, n: nat, k: nat)
    requires n <= k <= |s|
    ensures s == s[..n] + s[n..k] + s[k..]
  {
  }

  /** Different industry labels give different system instructions. */
  lemma SystemPromptInjective(a: string, b: string)
    requires SystemPrompt(a) == SystemPrompt(b)
    ensures a == b
  {
    IndustryOfSystemPrompt(a);
    IndustryOfSystemPrompt(b);
  }

  /**
    The label appears verbatim in the instruction, as its last text
    before the closing `**`.
  */
  lemma IndustryVerbatim(industry: string)
    ensures Occurs(industry, SystemPrompt(industry))
    ensures SystemPrompt(industry)[|Preamble()|..|Preamble()| + |industry|] == industry
    ensures SystemPrompt(industry)[|Preamble()| + |industry|..] == Closing
  {
    var p := SystemPrompt(industry);
    var n := |Preamble()|;
    assert industry <= p[n..];
  }
}
