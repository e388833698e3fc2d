/**
 * The completion adapter `generateContent` of the server. The Gemini SDK call
 * (`model.generateContent(prompt)`, `result.response`, `response.text()`) is an
 * oracle whose outcome is a parameter: either the text it produced or the error
 * it threw, with the error's optional `response.candidates`. `ModelName` records the
 * model the adapter asks the SDK for; since the call is an oracle, no member depends on it.
 */
module Gemini {
  import opened Wrappers

  /** The model the adapter asks for. */
  const ModelName := "gemini-1.5-flash"

  /** The canned reply to a greeting. */
  const WelcomeText := "Welcome to CareerHelp. How may i help you?"

  /** The reply when the model refused for safety reasons. */
  const SafetyText := "The generated content was blocked due to safety concerns. Please try a different prompt."

  /** The reply to every other failure. */
  const FailureText := "An error occurred while generating content. Please try again later."

  /** One candidate of a failed response; only its `finishReason` is inspected. */
  datatype Candidate = Candidate(finishReason: string)

  /** The `response` of a thrown error; `candidates` is absent or an array. */
  datatype ErrorResponse = ErrorResponse(candidates: Option<seq<Candidate>>)

  /** What the model call does: it yields text, or it throws an error that may carry a response. */
  datatype Outcome =
    | Generated(text: string)
    | Failed(response: Option<ErrorResponse>)

  /** What `generateContent` resolves to: a string, or an exception escaping from its catch block. */
  datatype Reply = Returned(text: string) | Threw

  /** The four prompts that take the fast path: compared exactly, case-sensitive, untrimmed. */
  predicate IsGreeting(prompt: string)
  {
    prompt in {"hi", "Hi", "hello", "Hello"}
  }

  /** The error carries a non-empty candidate list whose first candidate stopped for `SAFETY`. */
  predicate SafetyBlocked(outcome: Outcome)
  {
    && outcome.Failed?
    && outcome.response.Some?
    && outcome.response.value.candidates.Some?
    && |outcome.response.value.candidates.value| > 0
    && outcome.response.value.candidates.value[0].finishReason == "SAFETY"
  }

  /** The error carries a present but empty candidate list, so `candidates[0].finishReason` reads a property of `undefined`. */
  predicate EmptyCandidates(outcome: Outcome)
  {
    outcome.Failed? && outcome.response == Some(ErrorResponse(Some([])))
  }

  /**
   * The adapter: greetings answered without the model, the model's text passed through
   * verbatim, and each failure shape mapped to its fixed message. The only path that
   * does not resolve to a string is the empty candidate list.
   */
  function GenerateContent(prompt: string, outcome: Outcome): (r: Reply)
    ensures IsGreeting(prompt) ==> r == Returned(WelcomeText)
    ensures !IsGreeting(prompt) && outcome.Generated? ==> r == Returned(outcome.text)
    ensures !IsGreeting(prompt) && SafetyBlocked(outcome) ==> r == Returned(SafetyText)
    ensures (!IsGreeting(prompt) && outcome.Failed? && !SafetyBlocked(outcome) && !EmptyCandidates(outcome))
              ==> r == Returned(FailureText)
    ensures r.Threw? <==> !IsGreeting(prompt) && EmptyCandidates(outcome)
  {
    if prompt == "hi" || prompt == "Hi" || prompt == "hello" || prompt == "Hello" then
      Returned(WelcomeText)
    else
      match outcome
      case Generated(text) => Returned(text)
      case Failed(response) =>
        if response.Some? && response.value.candidates.Some? then
          var candidates := response.value.candidates.value;
          if |candidates| == 0 then Threw
          else if candidates[0].finishReason == "SAFETY" then Returned(SafetyText)
          else Returned(FailureText)
        else
          Returned(FailureText)
  }

  /**
   * The model is consulted exactly when the prompt is not a greeting: for a greeting
   * no outcome changes the reply, and for any other prompt two different model texts
   * give two different replies.
   */
  lemma ConsultsModelIffNotGreeting(prompt: string)
    ensures (forall o1, o2 :: GenerateContent(prompt, o1) == GenerateContent(prompt, o2)) <==> IsGreeting(prompt)
  {
    if !IsGreeting(prompt) {
      assert GenerateContent(prompt, Generated("a")) != GenerateContent(prompt, Generated("b"));
    }
  }

  /** Greetings differing only in case or spacing go to the model, like any other prompt. */
  lemma GreetingMatchIsExact(outcome: Outcome)
    ensures GenerateContent("HELLO", outcome) == GenerateContent("Explain recursion", outcome)
    ensures GenerateContent(" hi", outcome) == GenerateContent("Explain recursion", outcome)
    ensures GenerateContent("hi ", outcome) == GenerateContent("Explain recursion", outcome)
  {
  }
}
